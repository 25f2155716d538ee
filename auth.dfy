/**
 * The auth-state synchronizer of `src/hooks/useAuth.tsx`.
 *
 * The provider component keeps `user`, `session` and `loading`, listens to the identity
 * provider's change stream, applies the one-shot initial session, and offers the credential
 * operations signUp, signIn, signOut and updateProfile. Every call the component makes to the
 * outside world (the `update_user_status` and `log_activity` procedures, the `profiles`
 * table, the credential gateway) is appended to a call log; every `setTimeout(…, 0)` becomes
 * an entry of a FIFO queue of deferred tasks that `RunPending` drains one at a time.
 * Results of remote calls are parameters: nothing here computes them.
 */
module Auth {
  import opened Wrappers

  /** A signed-in user as the provider reports it. */
  datatype UserRef = UserRef(id: string, email: string)

  /** A provider session; the access token is opaque to the component. */
  datatype Session = Session(user: Option<UserRef>, accessToken: string)

  /** The change events the provider delivers to the listener. */
  datatype AuthEvent =
    | InitialSession
    | SignedIn
    | SignedOut
    | TokenRefreshed
    | UserUpdated
    | PasswordRecovery
    | MfaChallengeVerified

  datatype Status = Online | Offline

  /** An error object returned in `{ error }`; only its message is kept. */
  datatype Error = Error(message: string)

  /** The `updates` argument of updateProfile: each field present or absent. */
  datatype ProfileUpdates = ProfileUpdates(displayName: Option<string>, preferredLanguage: Option<string>)

  const NoUpdates := ProfileUpdates(None, None)

  /** The default of signUp's `preferredLanguage` parameter. */
  const DefaultLanguage := "english"

  /** One call to the outside world, in the order the component issues it. */
  datatype Call =
    | UpdateUserStatus(uid: string, status: Status)
    | LogActivity(uid: string, activityType: string, description: string, metadata: Option<ProfileUpdates>)
    | ProfilesUpdate(uid: string, updates: ProfileUpdates)
    | GatewaySignUp(email: string, password: string, redirectTo: string,
                    displayName: Option<string>, preferredLanguage: string)
    | GatewaySignIn(email: string, password: string)
    | GatewaySignOut
    | GatewayGetUser

  /** A write to the profile or activity store (as opposed to a gateway call). */
  predicate IsStoreWrite(c: Call)
  {
    c.UpdateUserStatus? || c.LogActivity? || c.ProfilesUpdate?
  }

  /**
   * A task queued with `setTimeout(…, 0)` by the change listener: either the one scheduled for
   * an event whose session has a user (it keeps the event and that user), or the one scheduled
   * for SIGNED_OUT without a session user (it keeps nothing).
   */
  datatype Task =
    | AfterUserEvent(event: AuthEvent, user: UserRef)
    | AfterSignedOut

  /** Everything the component holds, plus the pending queue, the call log and the subscription. */
  datatype AuthState = AuthState(
    user: Option<UserRef>,
    session: Option<Session>,
    loading: bool,
    pending: seq<Task>,
    log: seq<Call>,
    subscribed: bool)

  /** `session?.user ?? null` */
  function UserOf(s: Option<Session>): Option<UserRef>
  {
    if s.Some? then s.value.user else None
  }

  /** The state right after mounting: nothing known, still loading, listener installed. */
  function Initial(): AuthState
  {
    AuthState(None, None, true, [], [], true)
  }

  /** The deferred tasks the change listener schedules for one event. */
  function ScheduleFor(e: AuthEvent, s: Option<Session>): (ts: seq<Task>)
    ensures |ts| <= 1
    ensures ts == [] <==> UserOf(s).None? && e != SignedOut
  {
    match UserOf(s)
    case Some(u) => [AfterUserEvent(e, u)]
    case None => if e == SignedOut then [AfterSignedOut] else []
  }

  /** The change listener: replace session and user, schedule the deferred task, stop loading. */
  function HandleEvent(st: AuthState, e: AuthEvent, s: Option<Session>): (r: AuthState)
    ensures r.log == st.log && r.subscribed == st.subscribed
    ensures st.subscribed ==> r.user == UserOf(s) && !r.loading && |st.pending| <= |r.pending| <= |st.pending| + 1
                              && r.pending[..|st.pending|] == st.pending
  {
    if !st.subscribed then st
    else st.(session := s, user := UserOf(s), loading := false, pending := st.pending + ScheduleFor(e, s))
  }

  /** The `getSession()` handler; it does not look at the subscription. */
  function ApplyInitialSession(st: AuthState, s: Option<Session>): (r: AuthState)
    ensures r.log == st.log && r.pending == st.pending && r.subscribed == st.subscribed
    ensures r.user == UserOf(s) && r.session == s && !r.loading
  {
    st.(session := s, user := UserOf(s), loading := false)
  }

  /** The calls one deferred task makes when it runs; `lastUser` is what `getUser` returns then. */
  function TaskCalls(t: Task, lastUser: Option<UserRef>): (calls: seq<Call>)
    ensures |calls| <= 2
    ensures (exists c :: c in calls && IsStoreWrite(c)) ==>
              (t.AfterUserEvent? && t.event == SignedIn) || (t.AfterSignedOut? && lastUser.Some?)
    ensures t.AfterSignedOut? ==> |calls| >= 1 && calls[0] == GatewayGetUser
  {
    match t
    case AfterUserEvent(e, u) =>
      if e == SignedIn
      then [UpdateUserStatus(u.id, Online), LogActivity(u.id, "sign_in", "User signed in", None)]
      else []
    case AfterSignedOut =>
      [GatewayGetUser] + (if lastUser.Some? then [UpdateUserStatus(lastUser.value.id, Offline)] else [])
  }

  /** Run the oldest pending task. */
  function RunNext(st: AuthState, lastUser: Option<UserRef>): AuthState
    requires st.pending != []
  {
    st.(pending := st.pending[1..], log := st.log + TaskCalls(st.pending[0], lastUser))
  }

  /** The metadata signUp hands the gateway; `preferredLanguage` defaults to english. */
  function SignUpCall(email: string, password: string, displayName: Option<string>,
                      preferredLanguage: Option<string>, origin: string): Call
  {
    GatewaySignUp(email, password, origin + "/", displayName, preferredLanguage.GetOr(DefaultLanguage))
  }

  /** The awaited calls of signOut, given the user known when it is invoked. */
  function SignOutCalls(user: Option<UserRef>): seq<Call>
  {
    (if user.Some? then [UpdateUserStatus(user.value.id, Offline)] else []) + [GatewaySignOut]
  }

  /** The awaited calls of updateProfile; `storeError` is the error the profiles update returns. */
  function UpdateProfileCalls(user: Option<UserRef>, updates: ProfileUpdates, storeError: Option<Error>): seq<Call>
  {
    match user
    case None => []
    case Some(u) =>
      [ProfilesUpdate(u.id, updates)]
      + (if storeError.None? then [LogActivity(u.id, "profile_update", "Profile updated", Some(updates))] else [])
  }

  /** The `{ error }` updateProfile returns. */
  function UpdateProfileError(user: Option<UserRef>, storeError: Option<Error>): Option<Error>
  {
    if user.None? then Some(Error("No user found")) else storeError
  }

  // ---------------------------------------------------------------------------------------
  // Properties of one step

  /** Every delivered event writes session, user and loading the same way, and calls nobody. */
  lemma EventWritesState(st: AuthState, e: AuthEvent, s: Option<Session>)
    requires st.subscribed
    ensures var r := HandleEvent(st, e, s);
      r.session == s && r.user == (if s.Some? then s.value.user else None) && !r.loading
      && r.log == st.log && r.subscribed
  {
  }

  /** After unsubscribing, an event changes nothing. */
  lemma EventAfterUnsubscribeIgnored(st: AuthState, e: AuthEvent, s: Option<Session>)
    requires !st.subscribed
    ensures HandleEvent(st, e, s) == st
  {
  }

  /** The initial-session result writes the same three fields as an event and calls nobody. */
  lemma InitialSessionLikeEvent(st: AuthState, e: AuthEvent, s: Option<Session>)
    requires st.subscribed
    ensures var r := ApplyInitialSession(st, s); var q := HandleEvent(st, e, s);
      r.session == q.session && r.user == q.user && r.loading == q.loading
      && r.log == st.log && r.pending == st.pending
  {
  }

  /**
   * The initial-session result is applied even after unsubscribing, and even over a newer
   * event: a late `null` result signs the component out locally.
   */
  lemma LateInitialSessionOverwrites(st: AuthState, u: UserRef, token: string)
    requires st.subscribed
    ensures var signedIn := HandleEvent(st, SignedIn, Some(Session(Some(u), token)));
      var late := ApplyInitialSession(signedIn.(subscribed := false), None);
      signedIn.user == Some(u) && late.user == None && late.session == None
  {
  }

  /**
   * The event schedules at most one task: one exactly when the session has a user, or when it
   * has none and the event is SIGNED_OUT.
   */
  lemma ScheduleShape(e: AuthEvent, s: Option<Session>)
    ensures var ts := ScheduleFor(e, s);
      |ts| <= 1
      && (|ts| == 1 <==> UserOf(s).Some? || e == SignedOut)
      && (UserOf(s).Some? ==> ts == [AfterUserEvent(e, UserOf(s).value)])
      && (UserOf(s).None? && e == SignedOut ==> ts == [AfterSignedOut])
  {
  }

  /**
   * SIGNED_IN with user U: one task, which writes `U` online and then logs the sign-in,
   * and makes no other call.
   */
  lemma SignedInTask(u: UserRef, token: string, lastUser: Option<UserRef>)
    ensures var ts := ScheduleFor(SignedIn, Some(Session(Some(u), token)));
      |ts| == 1
      && var calls := TaskCalls(ts[0], lastUser);
      |calls| == 2
      && calls[0] == UpdateUserStatus(u.id, Online)
      && calls[1] == LogActivity(u.id, "sign_in", "User signed in", None)
  {
  }

  /** An event with a session user that is not SIGNED_IN schedules a task that makes no call. */
  lemma OtherUserEventTaskIsEmpty(e: AuthEvent, u: UserRef, token: string, lastUser: Option<UserRef>)
    requires e != SignedIn
    ensures var ts := ScheduleFor(e, Some(Session(Some(u), token)));
      |ts| == 1 && TaskCalls(ts[0], lastUser) == []
  {
  }

  /**
   * SIGNED_OUT without a session user: one task that first asks `getUser`, then writes
   * offline for the user it gets back, or writes nothing when none is returned. The id is the
   * one returned when the task runs, whatever user the component knew when it was scheduled.
   */
  lemma SignedOutTask(st: AuthState, s: Option<Session>, lastUser: Option<UserRef>)
    requires st.subscribed && UserOf(s).None?
    ensures var r := HandleEvent(st, SignedOut, s);
      r.pending == st.pending + [AfterSignedOut]
      && var calls := TaskCalls(AfterSignedOut, lastUser);
      calls[0] == GatewayGetUser
      && (lastUser.Some? ==> calls == [GatewayGetUser, UpdateUserStatus(lastUser.value.id, Offline)])
      && (lastUser.None? ==> forall c :: c in calls ==> !IsStoreWrite(c))
  {
  }

  /** Events other than SIGNED_IN and SIGNED_OUT never lead to a store write. */
  lemma OtherEventsWriteNothing(e: AuthEvent, s: Option<Session>, lastUser: Option<UserRef>)
    requires e != SignedIn && e != SignedOut
    ensures forall t :: t in ScheduleFor(e, s) ==> TaskCalls(t, lastUser) == []
  {
  }

  /**
   * signOut: with a known user U, the offline write for U is the first call and completes
   * before the gateway sign-out, which is the last call; with no user, the gateway sign-out is
   * the only call.
   */
  lemma SignOutOrder(user: Option<UserRef>)
    ensures var calls := SignOutCalls(user);
      calls[|calls| - 1] == GatewaySignOut
      && (user.Some? ==> |calls| == 2 && calls[0] == UpdateUserStatus(user.value.id, Offline))
      && (user.None? ==> calls == [GatewaySignOut])
  {
  }

  /** updateProfile without a user: an error and no call at all. */
  lemma UpdateProfileWithoutUser(updates: ProfileUpdates, storeError: Option<Error>)
    ensures UpdateProfileError(None, storeError).Some?
    ensures UpdateProfileCalls(None, updates, storeError) == []
  {
  }

  /**
   * updateProfile with user U: exactly one profiles update, keyed by U and carrying `updates`;
   * the profile_update activity (with `updates` as metadata) is logged if and only if that
   * update returned no error, even for empty updates; the update's error is returned as is.
   */
  lemma UpdateProfileWithUser(u: UserRef, updates: ProfileUpdates, storeError: Option<Error>)
    ensures var calls := UpdateProfileCalls(Some(u), updates, storeError);
      calls[0] == ProfilesUpdate(u.id, updates)
      && (forall i :: 0 < i < |calls| ==> !calls[i].ProfilesUpdate?)
      && (LogActivity(u.id, "profile_update", "Profile updated", Some(updates)) in calls <==> storeError.None?)
      && UpdateProfileError(Some(u), storeError) == storeError
  {
  }

  /** An empty update that succeeds is still recorded in the activity log. */
  lemma EmptyUpdateIsLogged(u: UserRef)
    ensures LogActivity(u.id, "profile_update", "Profile updated", Some(NoUpdates))
            in UpdateProfileCalls(Some(u), NoUpdates, None)
  {
  }

  /** signUp forwards display name and language (english by default) and the origin's root. */
  lemma SignUpMetadata(email: string, password: string, displayName: Option<string>,
                       preferredLanguage: Option<string>, origin: string)
    ensures var c := SignUpCall(email, password, displayName, preferredLanguage, origin);
      c.displayName == displayName
      && c.preferredLanguage == (if preferredLanguage.Some? then preferredLanguage.value else "english")
      && c.redirectTo == origin + "/"
  {
  }

  // ---------------------------------------------------------------------------------------
  // The provider component

  class AuthProvider {
    var user: Option<UserRef>
    var session: Option<Session>
    var loading: bool
    /** Tasks queued with `setTimeout(…, 0)` that have not run yet, oldest first. */
    var pending: seq<Task>
    /** Calls made to the outside world so far, in order. */
    var log: seq<Call>
    /** Whether the change listener is still installed. */
    var subscribed: bool

    function State(): AuthState
      reads this
    {
      AuthState(user, session, loading, pending, log, subscribed)
    }

    /** Mount: state starts empty and loading, and the listener is installed first. */
    constructor()
      ensures State() == Initial()
      ensures user == None && session == None && loading
    {
      user, session, loading := None, None, true;
      pending, log := [], [];
      subscribed := true;
    }

    /** The provider delivers `(event, session)` to the listener. */
    method OnAuthStateChange(event: AuthEvent, s: Option<Session>)
      modifies this
      ensures State() == HandleEvent(old(State()), event, s)
      ensures log == old(log)
      ensures old(subscribed) ==> session == s && user == UserOf(s) && !loading
    {
      if subscribed {
        session := s;
        user := if s.Some? then s.value.user else None;
        if s.Some? && s.value.user.Some? {
          pending := pending + [AfterUserEvent(event, s.value.user.value)];
        } else if event == SignedOut {
          pending := pending + [AfterSignedOut];
        }
        loading := false;
      }
    }

    /** The one-shot `getSession()` resolves with `s`. */
    method OnInitialSession(s: Option<Session>)
      modifies this
      ensures State() == ApplyInitialSession(old(State()), s)
      ensures log == old(log) && pending == old(pending)
    {
      session := s;
      user := UserOf(s);
      loading := false;
    }

    /** Cleanup of the effect: the listener is removed. */
    method Unsubscribe()
      modifies this
      ensures State() == old(State()).(subscribed := false)
    {
      subscribed := false;
    }

    /** The event loop runs the oldest deferred task; `lastUser` is what `getUser` returns then. */
    method RunPending(lastUser: Option<UserRef>)
      requires pending != []
      modifies this
      ensures State() == RunNext(old(State()), lastUser)
      ensures user == old(user) && session == old(session)
    {
      var t := pending[0];
      pending := pending[1..];
      match t {
        case AfterUserEvent(e, u) =>
          if e == SignedIn {
            log := log + [UpdateUserStatus(u.id, Online)];
            log := log + [LogActivity(u.id, "sign_in", "User signed in", None)];
          }
        case AfterSignedOut =>
          log := log + [GatewayGetUser];
          if lastUser.Some? {
            log := log + [UpdateUserStatus(lastUser.value.id, Offline)];
          }
      }
    }

    /** signUp; `gatewayError` is the error the gateway returns, handed back unchanged. */
    method SignUp(email: string, password: string, displayName: Option<string>,
                  preferredLanguage: Option<string>, origin: string, gatewayError: Option<Error>)
      returns (error: Option<Error>)
      modifies this
      ensures error == gatewayError
      ensures State() == old(State()).(log := old(log) + [SignUpCall(email, password, displayName, preferredLanguage, origin)])
    {
      var redirectUrl := origin + "/";
      var language := if preferredLanguage.Some? then preferredLanguage.value else DefaultLanguage;
      log := log + [GatewaySignUp(email, password, redirectUrl, displayName, language)];
      error := gatewayError;
    }

    /** signIn; the session only changes when the provider later delivers an event. */
    method SignIn(email: string, password: string, gatewayError: Option<Error>)
      returns (error: Option<Error>)
      modifies this
      ensures error == gatewayError
      ensures State() == old(State()).(log := old(log) + [GatewaySignIn(email, password)])
    {
      log := log + [GatewaySignIn(email, password)];
      error := gatewayError;
    }

    /** signOut: the offline write is awaited before the gateway sign-out. */
    method SignOut()
      modifies this
      ensures State() == old(State()).(log := old(log) + SignOutCalls(old(user)))
    {
      if user.Some? {
        log := log + [UpdateUserStatus(user.value.id, Offline)];
      }
      log := log + [GatewaySignOut];
    }

    /** updateProfile; `storeError` is the error the profiles update returns. */
    method UpdateProfile(updates: ProfileUpdates, storeError: Option<Error>)
      returns (error: Option<Error>)
      modifies this
      ensures error == UpdateProfileError(old(user), storeError)
      ensures State() == old(State()).(log := old(log) + UpdateProfileCalls(old(user), updates, storeError))
    {
      if user.None? {
        return Some(Error("No user found"));
      }
      var uid := user.value.id;
      log := log + [ProfilesUpdate(uid, updates)];
      error := storeError;
      if error.None? {
        log := log + [LogActivity(uid, "profile_update", "Profile updated", Some(updates))];
      }
    }
  }
}
