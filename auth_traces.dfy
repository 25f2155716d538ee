/**
 * Sequences of provider events and the draining of the deferred-task queue, for the
 * synchronizer modelled in module Auth. Here the one-step facts are lifted to whole runs: state
 * follows the last event, no store call happens while events are handled, the queue holds one
 * task per scheduling event in order, and each SIGNED_IN event leads to exactly one online write.
 */
module AuthTraces {
  import opened Wrappers
  import opened Auth

  /** One delivery of the change listener. */
  datatype Delivery = Delivery(event: AuthEvent, session: Option<Session>)

  /** The state after the listener has handled `evs` in order. */
  function Replay(st: AuthState, evs: seq<Delivery>): AuthState
    decreases |evs|
  {
    if evs == [] then st
    else Replay(HandleEvent(st, evs[0].event, evs[0].session), evs[1..])
  }

  /** The tasks `evs` schedule, in order. */
  function Scheduled(evs: seq<Delivery>): seq<Task>
    decreases |evs|
  {
    if evs == [] then [] else ScheduleFor(evs[0].event, evs[0].session) + Scheduled(evs[1..])
  }

  /** The calls made by running `tasks` in order; `lastUsers[i]` is what `getUser` returns to task i. */
  function DrainCalls(tasks: seq<Task>, lastUsers: seq<Option<UserRef>>): seq<Call>
    requires |lastUsers| == |tasks|
    decreases |tasks|
  {
    if tasks == [] then [] else TaskCalls(tasks[0], lastUsers[0]) + DrainCalls(tasks[1..], lastUsers[1..])
  }

  /** Run every pending task, oldest first. */
  function Drain(st: AuthState, lastUsers: seq<Option<UserRef>>): AuthState
    requires |lastUsers| == |st.pending|
    decreases |st.pending|
  {
    if st.pending == [] then st else Drain(RunNext(st, lastUsers[0]), lastUsers[1..])
  }

  /** How many of `evs` are SIGNED_IN with a session whose user has id `uid`. */
  function SignInsFor(evs: seq<Delivery>, uid: string): nat
    decreases |evs|
  {
    if evs == [] then 0
    else
      var u := UserOf(evs[0].session);
      (if evs[0].event == SignedIn && u.Some? && u.value.id == uid then 1 else 0) + SignInsFor(evs[1..], uid)
  }

  /**
   * Handling any run of events: session, user and loading follow the last event, the queue
   * grows by exactly the tasks the events schedule, in order, and no call is made.
   */
  lemma {:induction false} ReplayEffect(st: AuthState, evs: seq<Delivery>)
    requires st.subscribed
    ensures var r := Replay(st, evs);
      r.pending == st.pending + Scheduled(evs) && r.log == st.log && r.subscribed
      && (evs != [] ==>
            r.session == evs[|evs| - 1].session && r.user == UserOf(evs[|evs| - 1].session) && !r.loading)
      && (evs == [] ==> r == st)
    decreases |evs|
  {
    if evs != [] {
      var st' := HandleEvent(st, evs[0].event, evs[0].session);
      ReplayEffect(st', evs[1..]);
      assert st'.pending + Scheduled(evs[1..]) == st.pending + Scheduled(evs);
    }
  }

  /** Draining runs the queue in FIFO order: the log grows by the tasks' calls, in queue order. */
  lemma {:induction false} DrainEffect(st: AuthState, lastUsers: seq<Option<UserRef>>)
    requires |lastUsers| == |st.pending|
    ensures Drain(st, lastUsers) == st.(pending := [], log := st.log + DrainCalls(st.pending, lastUsers))
    decreases |st.pending|
  {
    if st.pending != [] {
      var st' := RunNext(st, lastUsers[0]);
      DrainEffect(st', lastUsers[1..]);
      assert st'.log + DrainCalls(st'.pending, lastUsers[1..]) == st.log + DrainCalls(st.pending, lastUsers);
    }
  }

  /** Running two queues back to back makes the calls of the first, then those of the second. */
  lemma {:induction false} DrainConcat(a: seq<Task>, b: seq<Task>, lastUsers: seq<Option<UserRef>>)
    requires |lastUsers| == |a| + |b|
    ensures DrainCalls(a + b, lastUsers) == DrainCalls(a, lastUsers[..|a|]) + DrainCalls(b, lastUsers[|a|..])
    decreases |a|
  {
    if a == [] {
      assert a + b == b && lastUsers[|a|..] == lastUsers;
    } else {
      var rest := lastUsers[1..];
      assert (a + b)[0] == a[0] && (a + b)[1..] == a[1..] + b;
      DrainConcat(a[1..], b, rest);
      assert rest[..|a| - 1] == lastUsers[..|a|][1..];
      assert rest[|a| - 1..] == lastUsers[|a|..];
      calc {
        DrainCalls(a + b, lastUsers);
        TaskCalls(a[0], lastUsers[0]) + DrainCalls(a[1..] + b, rest);
        TaskCalls(a[0], lastUsers[0]) + (DrainCalls(a[1..], rest[..|a| - 1]) + DrainCalls(b, rest[|a| - 1..]));
        DrainCalls(a, lastUsers[..|a|]) + DrainCalls(b, lastUsers[|a|..]);
      }
    }
  }

  /** How often `update_user_status(uid, 'online')` occurs in `calls`. */
  function OnlineWrites(calls: seq<Call>, uid: string): nat
  {
    multiset(calls)[UpdateUserStatus(uid, Online)]
  }

  /** The tasks one event schedules write `uid` online exactly when it is SIGNED_IN for `uid`. */
  lemma OnlineWritesOfOneEvent(d: Delivery, lastUsers: seq<Option<UserRef>>, uid: string)
    requires |lastUsers| == |ScheduleFor(d.event, d.session)|
    ensures var u := UserOf(d.session);
      OnlineWrites(DrainCalls(ScheduleFor(d.event, d.session), lastUsers), uid)
      == if d.event == SignedIn && u.Some? && u.value.id == uid then 1 else 0
  {
    var ts := ScheduleFor(d.event, d.session);
    if ts != [] {
      assert DrainCalls(ts, lastUsers) == TaskCalls(ts[0], lastUsers[0]) + [];
    }
  }

  /**
   * Every SIGNED_IN event for user `uid` leads, once the queue is drained, to exactly one
   * `update_user_status(uid, 'online')`, and no other event leads to one.
   */
  lemma {:induction false} OnlineWritePerSignIn(evs: seq<Delivery>, lastUsers: seq<Option<UserRef>>, uid: string)
    requires |lastUsers| == |Scheduled(evs)|
    ensures OnlineWrites(DrainCalls(Scheduled(evs), lastUsers), uid) == SignInsFor(evs, uid)
    decreases |evs|
  {
    if evs != [] {
      var first := ScheduleFor(evs[0].event, evs[0].session);
      var later := Scheduled(evs[1..]);
      DrainConcat(first, later, lastUsers);
      OnlineWritesOfOneEvent(evs[0], lastUsers[..|first|], uid);
      OnlineWritePerSignIn(evs[1..], lastUsers[|first|..], uid);
      assert DrainCalls(Scheduled(evs), lastUsers)
          == DrainCalls(first, lastUsers[..|first|]) + DrainCalls(later, lastUsers[|first|..]);
    }
  }

  /** A run of events with no SIGNED_IN and no SIGNED_OUT leads to no store write at all. */
  lemma {:induction false} QuietEventsWriteNothing(evs: seq<Delivery>, lastUsers: seq<Option<UserRef>>)
    requires forall i :: 0 <= i < |evs| ==> evs[i].event != SignedIn && evs[i].event != SignedOut
    requires |lastUsers| == |Scheduled(evs)|
    ensures DrainCalls(Scheduled(evs), lastUsers) == []
    decreases |evs|
  {
    if evs != [] {
      var first := ScheduleFor(evs[0].event, evs[0].session);
      DrainConcat(first, Scheduled(evs[1..]), lastUsers);
      QuietEventsWriteNothing(evs[1..], lastUsers[|first|..]);
    }
  }

  /**
   * From mount: after any run of events the log is still empty (state is written at once,
   * every side effect waits in the queue), and draining the queue then writes `uid` online
   * exactly once per SIGNED_IN event for `uid`.
   */
  lemma SignInsFromMount(evs: seq<Delivery>, lastUsers: seq<Option<UserRef>>, uid: string)
    requires |lastUsers| == |Scheduled(evs)|
    ensures Replay(Initial(), evs).log == []
    ensures var r := Replay(Initial(), evs);
      |lastUsers| == |r.pending|
      && OnlineWrites(Drain(r, lastUsers).log, uid) == SignInsFor(evs, uid)
  {
    var r := Replay(Initial(), evs);
    ReplayEffect(Initial(), evs);
    assert r.pending == Scheduled(evs) && r.log == [];
    DrainEffect(r, lastUsers);
    assert Drain(r, lastUsers).log == DrainCalls(Scheduled(evs), lastUsers);
    OnlineWritePerSignIn(evs, lastUsers, uid);
  }
}
