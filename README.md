# SafeDelhi onboarding and activation, verified in Dafny

This project models the home page of SafeDelhi (the `Index` component in
`Index.tsx`). The page decides whether a signed-in user still has to go
through onboarding or whether the active "safety tracking" view is shown.
It keeps four state cells:

- the user;
- whether location access is known to be granted;
- the emergency contacts last fetched;
- whether setup is complete.

Its event handlers update these cells:

- the session callbacks;
- `checkSetupStatus`;
- `requestLocationPermission`;
- `handleContactsUpdate`, which re-fetches the contacts;
- the "Start Safety Tracking" button.

The readiness condition is "location granted and at least 2 contacts". The
page renders nothing, the onboarding steps or the active view.

Three files make up the project:

- `onboarding.dfy` (module `Onboarding`): the cells as a value
  `PageState`, and each handler as a function from the old cells, plus the
  results of the asynchronous calls it awaits, to the new cells and the
  effect it requests. Effects are a navigation to `/auth` or a toast. The
  file also holds the readiness predicate, the view selection, and `Step`,
  which handles any one event.
- `index_page.dfy` (module `IndexPage`): class `Index`, whose fields are the
  four cells. Each handler is a method that updates them in place. Each
  method is proved to leave the cells as the corresponding `Onboarding`
  function says.
- `traces.dfy` (module `OnboardingTraces`): properties over any sequence of
  events.

Four behaviours of the code shape what the model proves:

- Setup latches on its own when readiness holds after the permission check
  or a contact re-fetch. The button is one of three ways to latch.
- A sign-out notification only asks for navigation. It does not reset the
  cells.
- No asynchronous result is checked against the user it was requested
  for. There is no stale-response guard.
- A contact fetch that throws keeps the previous list. A null `data`
  becomes the empty list.

## Model

| member | source | states |
|---|---|---|
| Onboarding.Initial | Index.tsx:17-20 | The initial cells: no user, no permission, no contacts, setup incomplete. The page then renders nothing, and the cells are not ready. |
| Onboarding.Ready | Index.tsx:157 | Defines readiness: location permission granted and at least 2 contacts. The same test appears at lines 60 and 95. |
| Onboarding.ContactsOrEmpty | Index.tsx:58 | Defines the null fallback of the contact fetch (also at line 93): a null result gives the empty list, and data gives itself. The stored list has at least 2 contacts exactly when `data` is non-null with at least 2 rows. So the handlers' test on `data` is the readiness test on the stored list. |
| Onboarding.ProbesAvailable | Index.tsx:47 | Defines the browser test: both `navigator.geolocation` and `navigator.permissions` exist. |
| Onboarding.StartButtonShown | Index.tsx:157 | The start button is rendered exactly when there is a user, setup is incomplete, and the cells are ready. |
| Onboarding.CheckSetupStatus | Index.tsx:45-67 | The user is never touched. Without both browser APIs, or when the permission query throws, nothing changes. A resolved query sets the permission to "state is granted". A thrown fetch keeps the old contacts and completion. A resolved fetch replaces the list with `data`, or with [] when `data` is null. Completion is then on exactly when it was on before or the new permission and list are ready. |
| Onboarding.OnSession | Index.tsx:23-40 | With no session, the cells are unchanged and the only effect is navigation to `/auth`. With a session, its user is stored, no navigation is requested, and the result is `checkSetupStatus` run on the cells holding that user. |
| Onboarding.RequestLocationPermission | Index.tsx:69-84 | Permission becomes true only when geolocation exists and the success callback runs. Otherwise it keeps its old value. Nothing else changes, and setup never latches here. A toast is always raised. It says "unsupported" exactly when geolocation is missing, and "granted" exactly when the request succeeded. |
| Onboarding.HandleContactsUpdate | Index.tsx:86-98 | Without a user, or when the fetch throws, nothing changes. The user and the permission are never touched. A fetch replaces the list with `data`, or [] when it is null. Completion is then on exactly when it was on before or the stored permission and the new list are ready. |
| Onboarding.ViewOf | Index.tsx:100-172 | No user gives nothing. A user with setup incomplete gives onboarding. A user with setup complete gives the active view. Onboarding shows the permission flag and the contact count against the fixed threshold 2, marks the contacts step done at 2 or more, and shows the start button exactly when the permission is granted and there are at least 2 contacts. |
| Onboarding.StartSafetyTracking | Index.tsx:157-160 | Only completion changes. It is on afterwards exactly when it was on before, or when there is a user and the cells are ready, which is when the button is rendered. |
| Onboarding.Step | Index.tsx:20-160 | For any event: completion is never withdrawn. It is switched on only into a ready state. A known user is never cleared. A sign-out changes nothing and only navigates. A granted permission is withdrawn only by a re-query that reports something other than granted. The contact list changes only to the data of a resolved fetch. |
| OnboardingTraces.SetupCompleteStaysOn | Index.tsx:20-160 | Once setup is complete, it is still complete after any sequence of events. No handler assigns it false. |
| OnboardingTraces.ActiveViewStays | Index.tsx:100-172 | Once the active view is shown, it is shown after any sequence of events. |
| OnboardingTraces.CompletedOnlyThroughReadiness | Index.tsx:60-160 | If setup turns from incomplete to complete over a run, then some event of the run switched it on. The state right after that event has the permission granted and at least 2 contacts. This covers all three places that set completion: lines 60-61, 95-96 and 157-160. |
| OnboardingTraces.SignOutsKeepState | Index.tsx:25-35 | Any number of sign-out notifications leave all four cells as they were. |
| IndexPage.Index.constructor | Index.tsx:17-20 | The cells start as no user, no permission, no contacts, setup incomplete. |
| IndexPage.Index.CheckSetupStatus | Index.tsx:45-67 | The in-place update leaves the cells as `Onboarding.CheckSetupStatus` gives. Completion is monotone, and it is switched on only into a ready state. |
| IndexPage.Index.OnSession | Index.tsx:23-40 | The in-place update and the returned effect are those of `Onboarding.OnSession`. No session changes nothing and navigates. |
| IndexPage.Index.RequestLocationPermission | Index.tsx:69-84 | The in-place update and the returned toast are those of `Onboarding.RequestLocationPermission`. Only the permission can change, and only to true on success. |
| IndexPage.Index.HandleContactsUpdate | Index.tsx:86-98 | The in-place update is that of `Onboarding.HandleContactsUpdate`. Without a user, nothing changes. Completion is switched on only into a ready state. |
| IndexPage.Index.StartSafetyTracking | Index.tsx:157-160 | A press sets completion exactly when the button was rendered. All other cells are unchanged. |
| IndexPage.Index.Handle | Index.tsx:20-160 | Dispatching any event updates the cells and returns the effect as `Onboarding.Step` gives. |

## Left out

- Rendering, styling, icons and the child components (`Header`, `Hero`, `SafetyAreas`, `EmergencyServices`, `SafetyTips`, `LocationTracker`, `EmergencyContactManager`). These are presentational, and their source is not part of this model.
- The Supabase client, `navigator.geolocation`, `navigator.permissions`, `toast` and `console.error`. These are foreign calls. Their results are inputs of the handlers, such as `PermissionQuery`, `ContactFetch` and `PositionOutcome`. Navigation and the toast kind are returned effects. Error logging is not modelled.
- The `event` argument of `onAuthStateChange`. The callback ignores it, so it is not modelled.
- The user id passed to the contact select. The select's result is an input, so which rows the store returns for which id is the store's concern.
- Subscription lifetime and the `unsubscribe` cleanup (Index.tsx:42). This is a React effect concern.
- Interleaving of asynchronous completions. Each handler runs to completion as one step. `checkSetupStatus` applies the permission, then the contacts, then the latch. `handleContactsUpdate` reads the current permission cell rather than a stale closure's.
- The permission request and the contacts update are reachable only from controls that the onboarding view renders. They are modelled as their handlers are written, without that visibility guard. Only the start button's inline handler is gated by its visibility, since it has no condition of its own.
- Navigation to `/auth` is an output only. The model does not capture an unmount of the page that the route change may cause; that depends on the router, which is not part of this model. So "stays" in the trace lemmas is about the four cells of a page that remains mounted.
