/** The onboarding/activation state machine of the SafeDelhi home page
    (the `Index` component), stated on values.

    The page keeps four state cells: the signed-in user, whether location
    access is known to be granted, the emergency contacts last fetched, and
    whether setup is complete. Every event handler of the page is modelled
    here as a function from the old cells (and the results of the
    asynchronous calls it awaits, which are inputs) to the new cells and the
    outward effect it requests (a navigation or a toast). */
module Onboarding {

  datatype Option<+T> = None | Some(value: T)

  /** The authenticated principal carried by a session; only its id is used. */
  datatype User = User(id: string)

  /** One row of the `emergency_contacts` table, scoped by `userId`. */
  datatype Contact = Contact(id: string, userId: string, name: string, phone: string)

  /** The four `useState` cells of the page. */
  datatype PageState = PageState(
    user: Option<User>,
    locationPermission: bool,
    emergencyContacts: seq<Contact>,
    setupComplete: bool)

  /** The fixed number of emergency contacts onboarding asks for. */
  const RequiredContacts: nat := 2

  /** The cells as the component is first rendered. */
  function Initial(): (r: PageState)
    ensures ViewOf(r) == Blank && !r.setupComplete
    ensures !Ready(r.locationPermission, r.emergencyContacts)
  {
    PageState(None, false, [], false)
  }

  /** The readiness condition the page tests before activating. */
  predicate Ready(locationPermission: bool, contacts: seq<Contact>) {
    locationPermission && |contacts| >= RequiredContacts
  }

  // ---------------------------------------------------------------------
  // What the page observes from the outside world.

  /** Which browser APIs exist (`navigator.geolocation`, `navigator.permissions`). */
  datatype Browser = Browser(hasGeolocation: bool, hasPermissions: bool)

  /** The `state` field of a geolocation permission status. */
  datatype PermissionState = Granted | Denied | Prompt

  /** The awaited `navigator.permissions.query`: it throws or resolves to a state. */
  datatype PermissionQuery = QueryThrew | Queried(state: PermissionState)

  /** The awaited contact select: it throws, or resolves to `data`, which may be null. */
  datatype ContactFetch = FetchThrew | Fetched(data: Option<seq<Contact>>)

  /** Which callback `getCurrentPosition` invokes. */
  datatype PositionOutcome = PositionSucceeded | PositionFailed

  /** The toasts the permission request raises. */
  datatype Toast = LocationGranted | LocationDenied | GeolocationUnsupported

  /** What a handler asks of the outside world besides changing the cells. */
  datatype Effect = Quiet | NavigateToAuth | Notify(toast: Toast)

  datatype Transition = Transition(state: PageState, effect: Effect)

  /** `data || []`: a null result reads as no contacts. */
  function ContactsOrEmpty(data: Option<seq<Contact>>): (r: seq<Contact>)
    ensures data.None? ==> r == []
    ensures data.Some? ==> r == data.value
    // so the handlers' test on `data` is the readiness test on the stored list
    ensures |r| >= RequiredContacts <==> data.Some? && |data.value| >= RequiredContacts
  {
    match data
    case None => []
    case Some(rows) => rows
  }

  predicate ProbesAvailable(browser: Browser) {
    browser.hasGeolocation && browser.hasPermissions
  }

  // ---------------------------------------------------------------------
  // The handlers.

  /** `checkSetupStatus`: query the permission, store whether it is granted,
      fetch the contacts, store them, and latch setup when both requirements
      hold. A thrown query is caught with nothing changed; a thrown fetch
      is caught after the permission has been stored. */
  function CheckSetupStatus(s: PageState, browser: Browser, query: PermissionQuery, fetch: ContactFetch): (r: PageState)
    ensures r.user == s.user
    ensures !ProbesAvailable(browser) || query.QueryThrew? ==> r == s
    ensures ProbesAvailable(browser) && query.Queried? ==>
              r.locationPermission == (query.state == Granted)
    ensures fetch.FetchThrew? ==>
              r.emergencyContacts == s.emergencyContacts && r.setupComplete == s.setupComplete
    ensures ProbesAvailable(browser) && query.Queried? && fetch.Fetched? ==>
              r.emergencyContacts == ContactsOrEmpty(fetch.data) &&
              (r.setupComplete <==> s.setupComplete || Ready(r.locationPermission, r.emergencyContacts))
  {
    if !ProbesAvailable(browser) || query.QueryThrew? then s
    else
      var granted := query.state == Granted;
      var withPermission := s.(locationPermission := granted);
      match fetch
      case FetchThrew => withPermission
      case Fetched(data) =>
        var withContacts := withPermission.(emergencyContacts := ContactsOrEmpty(data));
        if granted && data.Some? && |data.value| >= RequiredContacts then
          withContacts.(setupComplete := true)
        else
          withContacts
  }

  /** The session callbacks (initial `getSession` and every auth state
      change share one body): no session only asks for navigation to the
      sign-in page; a session stores its user and re-checks setup. */
  function OnSession(s: PageState, session: Option<User>, browser: Browser,
                     query: PermissionQuery, fetch: ContactFetch): (r: Transition)
    ensures session.None? ==> r == Transition(s, NavigateToAuth)
    ensures session.Some? ==>
              r.effect == Quiet && r.state.user == session &&
              r.state == CheckSetupStatus(s.(user := session), browser, query, fetch)
  {
    match session
    case None => Transition(s, NavigateToAuth)
    case Some(u) => Transition(CheckSetupStatus(s.(user := Some(u)), browser, query, fetch), Quiet)
  }

  /** `requestLocationPermission`: only the success callback records the
      permission; denial and a missing geolocation API only raise a toast. */
  function RequestLocationPermission(s: PageState, browser: Browser, outcome: PositionOutcome): (r: Transition)
    ensures r.state.user == s.user && r.state.emergencyContacts == s.emergencyContacts
    ensures r.state.setupComplete == s.setupComplete
    ensures r.state.locationPermission <==>
              s.locationPermission || (browser.hasGeolocation && outcome == PositionSucceeded)
    ensures r.effect.Notify?
    ensures r.effect.toast == GeolocationUnsupported <==> !browser.hasGeolocation
    ensures r.effect.toast == LocationGranted <==> browser.hasGeolocation && outcome == PositionSucceeded
  {
    if !browser.hasGeolocation then Transition(s, Notify(GeolocationUnsupported))
    else match outcome
      case PositionSucceeded => Transition(s.(locationPermission := true), Notify(LocationGranted))
      case PositionFailed => Transition(s, Notify(LocationDenied))
  }

  /** `handleContactsUpdate`: without a user nothing happens; otherwise the
      re-fetched contacts replace the list and setup latches when the stored
      permission and the new list satisfy readiness. A thrown fetch is not
      caught, so it changes nothing. */
  function HandleContactsUpdate(s: PageState, fetch: ContactFetch): (r: PageState)
    ensures s.user.None? || fetch.FetchThrew? ==> r == s
    ensures r.user == s.user && r.locationPermission == s.locationPermission
    ensures s.user.Some? && fetch.Fetched? ==>
              r.emergencyContacts == ContactsOrEmpty(fetch.data) &&
              (r.setupComplete <==> s.setupComplete || Ready(s.locationPermission, r.emergencyContacts))
  {
    if s.user.None? then s
    else match fetch
      case FetchThrew => s
      case Fetched(data) =>
        var withContacts := s.(emergencyContacts := ContactsOrEmpty(data));
        if data.Some? && |data.value| >= RequiredContacts && s.locationPermission then
          withContacts.(setupComplete := true)
        else
          withContacts
  }

  // ---------------------------------------------------------------------
  // What the page renders.

  /** The onboarding view's per-requirement progress. */
  datatype Progress = Progress(
    locationGranted: bool,
    contactsAdded: nat,
    contactsRequired: nat,
    contactsStepDone: bool,
    startShown: bool)

  /** Nothing (no user yet), the onboarding steps, or the active safety view. */
  datatype View = Blank | OnboardingView(progress: Progress) | ActiveView

  function ViewOf(s: PageState): (r: View)
    ensures r.Blank? <==> s.user.None?
    ensures r.ActiveView? <==> s.user.Some? && s.setupComplete
    ensures r.OnboardingView? <==> s.user.Some? && !s.setupComplete
    ensures r.OnboardingView? ==>
              r.progress.locationGranted == s.locationPermission &&
              r.progress.contactsAdded == |s.emergencyContacts| &&
              r.progress.contactsRequired == 2 &&
              (r.progress.contactsStepDone <==> |s.emergencyContacts| >= 2) &&
              (r.progress.startShown <==> s.locationPermission && |s.emergencyContacts| >= 2)
  {
    if s.user.None? then Blank
    else if !s.setupComplete then
      var n := |s.emergencyContacts|;
      OnboardingView(Progress(
        s.locationPermission, n, RequiredContacts, n >= RequiredContacts,
        s.locationPermission && n >= RequiredContacts))
    else ActiveView
  }

  /** The "Start Safety Tracking" button is rendered only in the onboarding
      view, and there only when the progress shows both steps done. */
  function StartButtonShown(s: PageState): (r: bool)
    ensures r <==> s.user.Some? && !s.setupComplete && Ready(s.locationPermission, s.emergencyContacts)
  {
    ViewOf(s).OnboardingView? && ViewOf(s).progress.startShown
  }

  /** A press on "Start Safety Tracking". Its handler sets setup complete
      unconditionally; it can only be pressed while rendered, so a press in
      any other state is no event at all and changes nothing. */
  function StartSafetyTracking(s: PageState): (r: PageState)
    ensures r.user == s.user && r.locationPermission == s.locationPermission
    ensures r.emergencyContacts == s.emergencyContacts
    ensures r.setupComplete <==>
              s.setupComplete || (s.user.Some? && Ready(s.locationPermission, s.emergencyContacts))
  {
    if StartButtonShown(s) then s.(setupComplete := true) else s
  }

  // ---------------------------------------------------------------------
  // All events together.

  datatype Event =
    | SessionNotified(session: Option<User>, browser: Browser, query: PermissionQuery, fetch: ContactFetch)
    | PermissionRequested(browser: Browser, outcome: PositionOutcome)
    | ContactsUpdated(fetch: ContactFetch)
    | StartPressed

  /** One event handled to completion. */
  function Step(s: PageState, e: Event): (r: Transition)
    // setup completion is never withdrawn
    ensures s.setupComplete ==> r.state.setupComplete
    // it is switched on only in a state that is ready
    ensures !s.setupComplete && r.state.setupComplete ==>
              Ready(r.state.locationPermission, r.state.emergencyContacts)
    // a user, once known, is never cleared (sign-out does not reset the cells)
    ensures s.user.Some? ==> r.state.user.Some?
    ensures e.SessionNotified? && e.session.None? ==> r == Transition(s, NavigateToAuth)
    // a granted permission is withdrawn only by a re-query that reports otherwise
    ensures s.locationPermission && !r.state.locationPermission ==>
              e.SessionNotified? && e.session.Some? && ProbesAvailable(e.browser) &&
              e.query.Queried? && e.query.state != Granted
    // the contact list changes only by a successful fetch
    ensures r.state.emergencyContacts != s.emergencyContacts ==>
              (e.SessionNotified? || e.ContactsUpdated?) && e.fetch.Fetched? &&
              r.state.emergencyContacts == ContactsOrEmpty(e.fetch.data)
  {
    match e
    case SessionNotified(session, browser, query, fetch) => OnSession(s, session, browser, query, fetch)
    case PermissionRequested(browser, outcome) => RequestLocationPermission(s, browser, outcome)
    case ContactsUpdated(fetch) => Transition(HandleContactsUpdate(s, fetch), Quiet)
    case StartPressed => Transition(StartSafetyTracking(s), Quiet)
  }

  /** The cells after a sequence of events handled one after another. */
  function Run(s: PageState, es: seq<Event>): PageState
    decreases |es|
  {
    if es == [] then s else Run(Step(s, es[0]).state, es[1..])
  }
}
