# Auth-state synchronizer and profile editor: a Dafny model

This project models the two parts of the member dashboard that hold logic:

- **The auth provider** (`src/hooks/useAuth.tsx`). It keeps `user`, `session` and `loading` in step with the identity provider's change stream and with the one-shot initial session. It defers presence and activity writes with `setTimeout(…, 0)`. It also offers `signUp`, `signIn`, `signOut` and `updateProfile`.
  - The model is a class, `Auth.AuthProvider`. It holds those three fields, a FIFO queue of deferred tasks (`pending`) and an ordered log of every call made to the outside world (`log`). The outside calls are `update_user_status`, `log_activity`, `profiles.update`, and the gateway's sign-up, sign-in, sign-out and `getUser`.
  - Each method's new state is tied to a pure step function over the `Auth.AuthState` datatype (`HandleEvent`, `ApplyInitialSession`, `RunNext`, `SignOutCalls`, `UpdateProfileCalls`). The source's promises are proved as lemmas about those functions.
  - Module `AuthTraces` lifts the one-step facts to whole runs of events and to draining the queue.
- **The profile editor** (`src/pages/Profile.tsx`).
  - Pure functions model form initialisation, the `hasChanges` comparison and the `updates` object, with lemmas relating them.
  - A class, `ProfilePage.ProfileForm`, models the page state (`form`, `saving`, `hasChanges`) and `handleSubmit`.

Remote results are inputs to the model, never computations. They are the gateway's error, the error of the profiles update, the user `getUser` returns when a deferred task runs, and the outcome of `updateProfile` as the page sees it. The code ignores the results of `update_user_status` and `log_activity`, so they are not inputs here either. The redirect origin of `signUp` is an opaque input.

The model follows the code as written, including these behaviours:
- The `SIGNED_OUT` task does not use a user id captured at schedule time. It asks `getUser` when it runs (`Auth.SignedOutTask`).
- The initial-session result is not guarded. It overwrites state even after unsubscribing and even over a newer event (`Auth.LateInitialSessionOverwrites`).
- `signOut` and `updateProfile` await their status and activity writes directly. They do not defer them.
- The `SIGNED_OUT` branch runs only when the event's session has no user. An event with a session user that is not `SIGNED_IN` queues a task that does nothing (`Auth.OtherUserEventTaskIsEmpty`).

## Model

| member | source | states |
|---|---|---|
| `Auth.AuthProvider.constructor` | src/hooks/useAuth.tsx:22-28 | State starts as user null, session null, loading true, with an empty queue and log and the listener installed |
| `Auth.AuthProvider.OnAuthStateChange` | src/hooks/useAuth.tsx:29-62 | The new state is `HandleEvent` of the old one: session := s, user := s's user or null, loading := false, the task for the event is queued, and nothing is called |
| `Auth.AuthProvider.OnInitialSession` | src/hooks/useAuth.tsx:66-70 | Writes session, user and loading like an event, with no queue entry and no call |
| `Auth.AuthProvider.Unsubscribe` | src/hooks/useAuth.tsx:72 | Removes the listener; nothing else changes |
| `Auth.AuthProvider.RunPending` | src/hooks/useAuth.tsx:35-58 | Pops the oldest task and appends exactly that task's calls to the log; user and session are untouched |
| `Auth.AuthProvider.SignUp` | src/hooks/useAuth.tsx:75-90 | Makes one gateway sign-up call carrying the metadata and the origin's root as redirect, and returns the gateway error unchanged |
| `Auth.AuthProvider.SignIn` | src/hooks/useAuth.tsx:92-98 | Makes one gateway sign-in call and returns its error unchanged; user and session do not change |
| `Auth.AuthProvider.SignOut` | src/hooks/useAuth.tsx:100-108 | Appends `SignOutCalls(user)` to the log: the offline write for a known user, then the gateway sign-out |
| `Auth.AuthProvider.UpdateProfile` | src/hooks/useAuth.tsx:110-128 | Appends `UpdateProfileCalls` and returns `UpdateProfileError`: the error for no user, otherwise the store's error |
| `Auth.HandleEvent` | src/hooks/useAuth.tsx:29-62 | The listener makes no call and keeps the subscription; when subscribed it sets user from the session, clears loading, and appends at most one task behind the old queue |
| `Auth.ScheduleFor` | src/hooks/useAuth.tsx:34-59 | An event queues at most one task, and none exactly when its session has no user and it is not SIGNED_OUT |
| `Auth.TaskCalls` | src/hooks/useAuth.tsx:35-58 | A task makes at most two calls; it writes to a store only if it is a SIGNED_IN task or a SIGNED_OUT task whose `getUser` returned a user; the SIGNED_OUT task calls `getUser` first |
| `Auth.ApplyInitialSession` | src/hooks/useAuth.tsx:66-70 | Sets session, user from the session, and loading false; queue, log and subscription are untouched |
| `Auth.EventWritesState` | src/hooks/useAuth.tsx:30-61 | After any delivered event: session = s, user = s.user or null, loading = false, and the log is unchanged |
| `Auth.EventAfterUnsubscribeIgnored` | src/hooks/useAuth.tsx:72 | Once unsubscribed, an event changes nothing |
| `Auth.InitialSessionLikeEvent` | src/hooks/useAuth.tsx:66-70 | The initial session writes the same three fields as an event would, and queues and calls nothing |
| `Auth.LateInitialSessionOverwrites` | src/hooks/useAuth.tsx:66-72 | A late null initial session clears a user signed in by a later event, even after unsubscribing |
| `Auth.ScheduleShape` | src/hooks/useAuth.tsx:34-59 | An event queues at most one task. It queues one exactly when the session has a user or the event is SIGNED_OUT, and says which |
| `Auth.SignedInTask` | src/hooks/useAuth.tsx:34-47 | SIGNED_IN with user U queues one task. That task calls `update_user_status(U, online)` and then `log_activity(U, sign_in, 'User signed in')`, and nothing else |
| `Auth.OtherUserEventTaskIsEmpty` | src/hooks/useAuth.tsx:35-36 | An event with a session user that is not SIGNED_IN queues a task that makes no call |
| `Auth.SignedOutTask` | src/hooks/useAuth.tsx:48-58 | SIGNED_OUT without a user queues one task. It calls `getUser` first, writes offline for the returned user if there is one, and otherwise writes nothing |
| `Auth.OtherEventsWriteNothing` | src/hooks/useAuth.tsx:34-59 | Events other than SIGNED_IN and SIGNED_OUT queue only tasks that make no call |
| `Auth.SignOutOrder` | src/hooks/useAuth.tsx:100-108 | With user U, the offline write for U comes first and the gateway sign-out last. With no user, the gateway sign-out is the only call |
| `Auth.UpdateProfileWithoutUser` | src/hooks/useAuth.tsx:111 | With no user there is a non-null error and no call at all |
| `Auth.UpdateProfileWithUser` | src/hooks/useAuth.tsx:113-127 | Makes exactly one profiles update, keyed by U and carrying the updates. Logs the profile_update activity if and only if the store returned no error. Returns the store error unchanged |
| `Auth.EmptyUpdateIsLogged` | src/hooks/useAuth.tsx:118-124 | An empty update that succeeds is still logged as an activity |
| `Auth.SignUpMetadata` | src/hooks/useAuth.tsx:75-89 | Forwards the display name as given and the language (default english), and redirects to the origin plus '/' |
| `AuthTraces.ReplayEffect` | src/hooks/useAuth.tsx:29-62 | Over any run of events, state follows the last event, the queue grows by the scheduled tasks in order, and no call is made |
| `AuthTraces.DrainEffect` | src/hooks/useAuth.tsx:35-58 | Draining runs the tasks in FIFO order, appending their calls in queue order and emptying the queue |
| `AuthTraces.OnlineWritesOfOneEvent` | src/hooks/useAuth.tsx:34-47 | One event's tasks write `uid` online once if it is SIGNED_IN for `uid`, and never otherwise |
| `AuthTraces.OnlineWritePerSignIn` | src/hooks/useAuth.tsx:34-47 | Across any run of events, the drained queue writes `uid` online exactly as many times as there were SIGNED_IN events for `uid` |
| `AuthTraces.QuietEventsWriteNothing` | src/hooks/useAuth.tsx:34-59 | A run without SIGNED_IN and SIGNED_OUT leads to no call at all when drained |
| `AuthTraces.SignInsFromMount` | src/hooks/useAuth.tsx:22-62 | From mount, handling events makes no call. Draining afterwards gives one online write per SIGNED_IN event |
| `ProfilePage.LanguageOptionsWellFormed` | src/pages/Profile.tsx:16-29 | There are 12 options with pairwise-distinct values, and 'english' is one of them |
| `ProfilePage.InitForm` | src/pages/Profile.tsx:46-49 | The display name is the profile's or ''. The language is the profile's, or 'english' when it is missing or empty |
| `ProfilePage.HasChanges` | src/pages/Profile.tsx:57-59 | The flag is true if and only if the updates built from the same form and profile are non-empty |
| `ProfilePage.BuildUpdates` | src/pages/Profile.tsx:68-76 | Overlaying the result on the normalised profile fields gives back the form |
| `ProfilePage.UpdatesAreTheDifferences` | src/pages/Profile.tsx:68-76 | `updates` holds each field exactly when the form differs from the normalised profile, and then holds the form's value |
| `ProfilePage.HasChangesIffUpdates` | src/pages/Profile.tsx:57-59 | With a profile loaded, `hasChanges` is true if and only if `updates` is non-empty |
| `ProfilePage.FreshFormIsClean` | src/pages/Profile.tsx:44-60 | Right after initialisation there are no changes and `updates` is empty |
| `ProfilePage.UpdatesRoundTrip` | src/pages/Profile.tsx:68-76 | Overlaying `updates` on the normalised profile reproduces the form |
| `ProfilePage.UpdatesAreMinimal` | src/pages/Profile.tsx:68-76 | Any overlay that reproduces the form must contain every field `updates` contains |
| `ProfilePage.ProfileForm.constructor` | src/pages/Profile.tsx:36-41 | The form starts as ('', 'english'), with saving and hasChanges false |
| `ProfilePage.ProfileForm.LoadProfile` | src/pages/Profile.tsx:44-61 | On load, the form is initialised from the profile and hasChanges ends false |
| `ProfilePage.ProfileForm.EditDisplayName` | src/pages/Profile.tsx:143 | Sets the display name; hasChanges is recomputed when a profile is loaded |
| `ProfilePage.ProfileForm.EditLanguage` | src/pages/Profile.tsx:152 | Sets the language; hasChanges is recomputed when a profile is loaded |
| `ProfilePage.ProfileForm.BeginSubmit` | src/pages/Profile.tsx:63-76 | Turns saving on and returns `BuildUpdates(form, profile)` |
| `ProfilePage.ProfileForm.FinishSubmit` | src/pages/Profile.tsx:78-104 | Saving ends false for every outcome, and hasChanges is cleared only on success |
| `ProfilePage.ProfileForm.HandleSubmit` | src/pages/Profile.tsx:63-105 | The provider's new state is its old state with exactly the `updateProfile` calls for the computed updates appended; saving ends false |

## Left out

- Rendering: all markup of the pages and components, toasts, and the loading screen.
- Query caching: the profile query (`useProfile`), `invalidateQueries` and the refetch. A new profile enters the model only through `LoadProfile`.
- The activity page and the dashboard: their store queries are thin server-side reads, and their date arithmetic depends on the wall clock.
- The server procedures `update_user_status` and `log_activity`, and the storage behind them. They appear only as recorded calls, and their results are ignored as in the code.
- The `useAuth` accessor's throw outside a provider. Every model object is built explicitly.
- The `onAuthStateChange` subscription and the `getSession` request are not recorded as calls. Their deliveries are the methods `OnAuthStateChange` and `OnInitialSession`.
- Real interleavings of the initial-session fetch, events and unsubscription. Callers choose the order of method calls, and unsubscription is a flag that stops event delivery.
- Gateway-side consequences, such as the SIGNED_IN event after a successful sign-in or the SIGNED_OUT event after sign-out. The environment delivers these as separate events.
- Rejected promises inside `signUp`, `signIn`, `signOut` and `updateProfile`. Their remote calls are modelled as always returning.
- ProfilePage.ProfileForm.HandleSubmit: it covers only the path where `updateProfile` returns. The throwing path is covered by `FinishSubmit` with a `Threw` outcome.
- Stale closures: `signOut` and `updateProfile` read `user` as of the last render. The model reads the current field.
- ProfilePage.ProfileForm.LoadProfile: it models the state after both effects have settled. The intermediate render, where the change check still sees the old form, is not modelled.
- Auth.AuthProvider.RunPending: a deferred task runs to completion in one step. In the code each task is asynchronous and waits between its calls (before `log_activity`, and on `getUser` before the offline write), and so do `signOut` and `updateProfile`; the calls of different tasks, and of these operations, can interleave at those waits. The order of calls within one task and the number of calls are unaffected, but the queue-order concatenation stated by `AuthTraces.DrainEffect` holds only in the model.
