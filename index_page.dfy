/** The `Index` page component as an object whose four state cells its
    handlers update in place. Each handler is proved to leave the cells as
    the corresponding function of module Onboarding says. */
module IndexPage {
  import opened Onboarding

  class Index {
    var user: Option<User>
    var locationPermission: bool
    var emergencyContacts: seq<Contact>
    var setupComplete: bool

    /** The cells as one value. */
    function State(): PageState
      reads this
    {
      PageState(user, locationPermission, emergencyContacts, setupComplete)
    }

    /** What the page renders from its current cells. */
    function View(): View
      reads this
    {
      ViewOf(State())
    }

    constructor ()
      ensures State() == Initial()
      ensures user == None && !locationPermission && emergencyContacts == [] && !setupComplete
    {
      user := None;
      locationPermission := false;
      emergencyContacts := [];
      setupComplete := false;
    }

    method CheckSetupStatus(browser: Browser, query: PermissionQuery, fetch: ContactFetch)
      modifies this
      ensures State() == Onboarding.CheckSetupStatus(old(State()), browser, query, fetch)
      ensures old(setupComplete) ==> setupComplete
      ensures !old(setupComplete) && setupComplete ==> Ready(locationPermission, emergencyContacts)
    {
      if browser.hasGeolocation && browser.hasPermissions {
        match query
        case QueryThrew =>
        case Queried(state) =>
          locationPermission := state == Granted;
          match fetch
          case FetchThrew =>
          case Fetched(data) =>
            emergencyContacts := ContactsOrEmpty(data);
            if state == Granted && data.Some? && |data.value| >= RequiredContacts {
              setupComplete := true;
            }
      }
    }

    /** The callback of `getSession` and of `onAuthStateChange`. */
    method OnSession(session: Option<User>, browser: Browser, query: PermissionQuery, fetch: ContactFetch)
      returns (effect: Effect)
      modifies this
      ensures Transition(State(), effect) == Onboarding.OnSession(old(State()), session, browser, query, fetch)
      ensures session.None? ==> effect == NavigateToAuth && State() == old(State())
    {
      match session
      case None =>
        effect := NavigateToAuth;
      case Some(u) =>
        user := Some(u);
        CheckSetupStatus(browser, query, fetch);
        effect := Quiet;
    }

    method RequestLocationPermission(browser: Browser, outcome: PositionOutcome) returns (toast: Toast)
      modifies this
      ensures Transition(State(), Notify(toast)) ==
                Onboarding.RequestLocationPermission(old(State()), browser, outcome)
      ensures locationPermission <==>
                old(locationPermission) || (browser.hasGeolocation && outcome == PositionSucceeded)
      ensures user == old(user) && emergencyContacts == old(emergencyContacts)
      ensures setupComplete == old(setupComplete)
    {
      if browser.hasGeolocation {
        match outcome
        case PositionSucceeded =>
          locationPermission := true;
          toast := LocationGranted;
        case PositionFailed =>
          toast := LocationDenied;
      } else {
        toast := GeolocationUnsupported;
      }
    }

    method HandleContactsUpdate(fetch: ContactFetch)
      modifies this
      ensures State() == Onboarding.HandleContactsUpdate(old(State()), fetch)
      ensures old(user).None? ==> State() == old(State())
      ensures !old(setupComplete) && setupComplete ==> Ready(locationPermission, emergencyContacts)
    {
      if user.None? {
        return;
      }
      match fetch
      case FetchThrew =>
      case Fetched(data) =>
        emergencyContacts := ContactsOrEmpty(data);
        if data.Some? && |data.value| >= RequiredContacts && locationPermission {
          setupComplete := true;
        }
    }

    /** A press on "Start Safety Tracking"; it has an effect only while the
        button is rendered. */
    method StartSafetyTracking()
      modifies this
      ensures State() == Onboarding.StartSafetyTracking(old(State()))
      ensures setupComplete <==> old(setupComplete) || (old(View()).OnboardingView? && old(View()).progress.startShown)
      ensures user == old(user) && locationPermission == old(locationPermission)
      ensures emergencyContacts == old(emergencyContacts)
    {
      if StartButtonShown(State()) {
        setupComplete := true;
      }
    }

    /** Any event, dispatched to its handler. */
    method Handle(e: Event) returns (effect: Effect)
      modifies this
      ensures Transition(State(), effect) == Step(old(State()), e)
    {
      match e
      case SessionNotified(session, browser, query, fetch) =>
        effect := OnSession(session, browser, query, fetch);
      case PermissionRequested(browser, outcome) =>
        var toast := RequestLocationPermission(browser, outcome);
        effect := Notify(toast);
      case ContactsUpdated(fetch) =>
        HandleContactsUpdate(fetch);
        effect := Quiet;
      case StartPressed =>
        StartSafetyTracking();
        effect := Quiet;
    }
  }
}
