/** Properties of the page over whole sequences of events. */
module OnboardingTraces {
  import opened Onboarding

  /** Once setup is complete it stays complete, whatever follows. */
  lemma {:induction false} SetupCompleteStaysOn(s: PageState, es: seq<Event>)
    requires s.setupComplete
    ensures Run(s, es).setupComplete
    decreases |es|
  {
    if es != [] {
      SetupCompleteStaysOn(Step(s, es[0]).state, es[1..]);
    }
  }

  /** Once the active view is shown, no later event leaves it: no handler
      clears the user or withdraws setup completion. */
  lemma {:induction false} ActiveViewStays(s: PageState, es: seq<Event>)
    requires ViewOf(s).ActiveView?
    ensures ViewOf(Run(s, es)).ActiveView?
    decreases |es|
  {
    if es != [] {
      ActiveViewStays(Step(s, es[0]).state, es[1..]);
    }
  }

  /** If setup was not complete and is complete after a run, then some event
      of the run switched it on, and the state right after that event was
      ready: location access granted and at least two contacts known. */
  lemma {:induction false} CompletedOnlyThroughReadiness(s: PageState, es: seq<Event>)
    requires !s.setupComplete
    requires Run(s, es).setupComplete
    ensures exists k :: 0 < k <= |es| &&
              !Run(s, es[..k - 1]).setupComplete &&
              Run(s, es[..k]).setupComplete &&
              Ready(Run(s, es[..k]).locationPermission, Run(s, es[..k]).emergencyContacts)
    decreases |es|
  {
    var next := Step(s, es[0]).state;
    assert Run(s, es[..0]) == s;
    assert Run(s, es[..1]) == next by {
      assert es[..1][1..] == [];
    }
    if !next.setupComplete {
      CompletedOnlyThroughReadiness(next, es[1..]);
      var k :| 0 < k <= |es[1..]| &&
               !Run(next, es[1..][..k - 1]).setupComplete &&
               Run(next, es[1..][..k]).setupComplete &&
               Ready(Run(next, es[1..][..k]).locationPermission, Run(next, es[1..][..k]).emergencyContacts);
      RunPrefixAfterFirst(s, es, k);
      RunPrefixAfterFirst(s, es, k - 1);
      assert Run(s, es[..k + 1]) == Run(next, es[1..][..k]);
      assert Run(s, es[..k]) == Run(next, es[1..][..k - 1]);
    }
  }

  /** Running the first `j + 1` events is stepping the first and running the next `j`. */
  lemma RunPrefixAfterFirst(s: PageState, es: seq<Event>, j: nat)
    requires j < |es|
    ensures Run(s, es[..j + 1]) == Run(Step(s, es[0]).state, es[1..][..j])
  {
    assert es[..j + 1][0] == es[0];
    assert es[..j + 1][1..] == es[1..][..j];
  }

  /** Sign-out notifications, however many, change none of the cells: the
      page keeps its user, permission, contacts and completion, and only
      asks to navigate to the sign-in page each time. */
  lemma {:induction false} SignOutsKeepState(s: PageState, es: seq<Event>)
    requires forall i :: 0 <= i < |es| ==> es[i].SessionNotified? && es[i].session.None?
    ensures Run(s, es) == s
    decreases |es|
  {
    if es != [] {
      assert Step(s, es[0]).state == s;
      SignOutsKeepState(s, es[1..]);
    }
  }
}
