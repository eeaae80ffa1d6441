/** The top-level screen state machine (`AppViewModel`).

    Each value the account controller's published `session` emits, once the
    subscription is attached, replaces the screen: no session gives the
    onboarding screen, a session gives a timeline screen around a newly
    created `TimelineController`. Emissions are modelled as calls made one at
    a time, in the order the main actor runs them. */
module AppModel {
  import opened Manfred
  import Timelines

  /** `AccountController`; its log-in and session storage are not part of this model. */
  class AccountController {
    constructor () {}
  }

  /** `AppViewModel.Screen`: the timeline case carries the live controller. */
  datatype Screen = Loading | Onboarding | Timeline(controller: Timelines.TimelineController)

  /** What a screen shows, up to the identity of its controller. */
  datatype ScreenKind = LoadingScreen | OnboardingScreen | TimelineScreen(session: Session)

  function KindOf(screen: Screen): ScreenKind {
    match screen
    case Loading => LoadingScreen
    case Onboarding => OnboardingScreen
    case Timeline(c) => TimelineScreen(c.session)
  }

  /** Where one session emission sends the app. */
  function Route(session: Option<Session>): (k: ScreenKind)
    ensures k == OnboardingScreen <==> session.None?
    ensures k.TimelineScreen? <==> session.Some?
    ensures session.Some? ==> k.session == session.value
  {
    match session
    case None => OnboardingScreen
    case Some(s) => TimelineScreen(s)
  }

  /** The screen after the subscription has handled `emissions`, first to last. */
  function Process(k: ScreenKind, emissions: seq<Option<Session>>): ScreenKind
    decreases |emissions|
  {
    if emissions == [] then k else Process(Route(emissions[0]), emissions[1..])
  }

  /** The number of emissions that carry a session. */
  function PresentCount(emissions: seq<Option<Session>>): nat
    decreases |emissions|
  {
    if emissions == [] then 0
    else PresentCount(emissions[..|emissions| - 1]) + (if emissions[|emissions| - 1].Some? then 1 else 0)
  }

  /** Only the last emission matters: every earlier screen is overwritten. */
  lemma {:induction false} LastEmissionWins(k: ScreenKind, emissions: seq<Option<Session>>)
    requires emissions != []
    ensures Process(k, emissions) == Route(emissions[|emissions| - 1])
    decreases |emissions|
  {
    if |emissions| > 1 {
      LastEmissionWins(Route(emissions[0]), emissions[1..]);
    }
  }

  class AppViewModel {
    const accountController: AccountController
    var screen: Screen
    /** `autoLogin` has finished and the session sink is stored in `cancellables`. */
    var subscribed: bool
    /** Every controller the sink has created, oldest first. */
    ghost var controllers: seq<Timelines.TimelineController>

    ghost predicate Valid()
      reads this
    {
      && (screen.Timeline? ==> controllers != [] && screen.controller == controllers[|controllers| - 1])
      && (forall i, j :: 0 <= i < j < |controllers| ==> controllers[i] != controllers[j])
      && (!subscribed ==> screen == Loading && controllers == [])
    }

    /** `init()` before its task has run: the screen is `loading`. */
    constructor ()
      ensures Valid()
      ensures screen == Loading && !subscribed && controllers == []
      ensures fresh(accountController)
    {
      accountController := new AccountController();
      screen := Loading;
      subscribed := false;
      controllers := [];
    }

    /** The task started by `init()` once `autoLogin()` has returned: the sink
        is attached and stored; until then the screen stays `loading`. */
    method AutoLoginFinished()
      requires Valid()
      modifies this
      ensures Valid() && subscribed
      ensures screen == old(screen) && controllers == old(controllers)
    {
      subscribed := true;
    }

    /** One value of the published session, as the sink handles it. Before the
        sink is attached nothing observes it. */
    method SessionEmitted(session: Option<Session>)
      requires Valid()
      modifies this
      ensures Valid() && subscribed == old(subscribed)
      ensures KindOf(screen) == if subscribed then Route(session) else old(KindOf(screen))
      ensures !subscribed || session.None? ==> controllers == old(controllers)
      ensures subscribed && session.Some? ==>
        && screen.Timeline? && fresh(screen.controller)
        && screen.controller.session == session.value
        && screen.controller.statuses == [] && screen.controller.state == Timelines.Empty
        && controllers == old(controllers) + [screen.controller]
    {
      if subscribed {
        match session
        case Some(s) =>
          var timelineController := new Timelines.TimelineController(s);
          screen := Timeline(timelineController);
          controllers := controllers + [timelineController];
        case None =>
          screen := Onboarding;
      }
    }

    /** A sequence of emissions handled in order. */
    method SessionsEmitted(sessions: seq<Option<Session>>)
      requires Valid()
      modifies this
      ensures Valid() && subscribed == old(subscribed)
      ensures KindOf(screen) == if subscribed then Process(old(KindOf(screen)), sessions) else old(KindOf(screen))
      ensures Timelines.IsPrefix(old(controllers), controllers)
      ensures |controllers| == |old(controllers)| + if subscribed then PresentCount(sessions) else 0
      ensures forall i :: |old(controllers)| <= i < |controllers| ==> fresh(controllers[i])
    {
      var i := 0;
      while i < |sessions|
        invariant 0 <= i <= |sessions|
        invariant Valid() && subscribed == old(subscribed)
        invariant KindOf(screen) == if subscribed then Process(old(KindOf(screen)), sessions[..i]) else old(KindOf(screen))
        invariant Timelines.IsPrefix(old(controllers), controllers)
        invariant |controllers| == |old(controllers)| + if subscribed then PresentCount(sessions[..i]) else 0
        invariant forall j :: |old(controllers)| <= j < |controllers| ==> fresh(controllers[j])
      {
        SessionEmitted(sessions[i]);
        assert sessions[..i + 1][..i] == sessions[..i];
        if subscribed {
          LastEmissionWins(old(KindOf(screen)), sessions[..i + 1]);
        }
        i := i + 1;
      }
      assert sessions[..i] == sessions;
    }
  }

  /** The async task of a fetch resuming on `target`: whichever controller that
      is, the screen and the controller it currently shows are not changed
      unless the target is that very controller. */
  method ResumeFetch(app: AppViewModel, target: Timelines.TimelineController,
                     result: Result<seq<Status>, FetchError>) returns (alert: Option<FetchError>)
    requires app.Valid()
    modifies target
    ensures app.Valid() && app.screen == old(app.screen) && app.controllers == old(app.controllers)
    ensures target.Snap() == Timelines.Completed(old(target.Snap()), result)
    ensures app.screen.Timeline? && app.screen.controller != target ==>
      app.screen.controller.Snap() == old(app.screen.controller.Snap())
  {
    alert := target.CompleteFetch(result);
  }

  /** Session `a`'s controller begins a next page; `b` replaces `a`; then the
      page for `a` arrives. The new screen's controller is untouched, while the
      superseded controller, which nothing shows any more, still takes the page. */
  method SupersededFetchScenario(a: Session, b: Session, page: seq<Status>)
    returns (app: AppViewModel, stale: Timelines.TimelineController)
    ensures app.screen.Timeline? && app.screen.controller != stale
    ensures app.screen.controller.session == b
    ensures app.screen.controller.statuses == [] && app.screen.controller.state == Timelines.Empty
    ensures stale.session == a && stale.statuses == page && stale.state == Timelines.Loaded
  {
    app := new AppViewModel();
    app.AutoLoginFinished();
    app.SessionEmitted(Some(a));
    stale := app.screen.controller;
    var request := stale.BeginNextPage();
    app.SessionEmitted(Some(b));
    var alert := ResumeFetch(app, stale, Success(page));
  }
}
