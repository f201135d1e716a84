/** Sequences of platform callbacks and requests applied to one panel,
    and what the listener hears over a whole run: every notification
    reports a real state, no state is reported twice in a row, and the
    panel remembers the last state it reported. */
module PanelRun {
  import opened DraggableView

  /** One callback from the platform or one request from the app. */
  datatype Event =
    | ConfigurationChanged
    | Layout(inEditMode: bool, left: int, top: int, right: int, bottom: int)
    | PositionChanged(g: Geometry)
    | Touch(action: Action, x: real, viewHit: bool)
    | DrawerSlide(slideOffset: real, drawerPosition: real, drawerWidth: int)
    | SetListener(l: Listener)
    | MaximizeRequested
    | MinimizeRequested
    | CloseRightRequested
    | CloseLeftRequested(started: bool)

  function Step(p: Panel, e: Event): Outcome {
    match e
    case ConfigurationChanged => Outcome(OnConfigurationChanged(p), [])
    case Layout(inEditMode, left, top, right, bottom) => OnLayout(p, inEditMode, left, top, right, bottom)
    case PositionChanged(g) => OnViewPositionChanged(p, g)
    case Touch(action, x, viewHit) => AnalyzeTouchToMaximizeIfNeeded(p, action, x, viewHit)
    case DrawerSlide(slideOffset, drawerPosition, drawerWidth) =>
      SlideHorizontally(p, slideOffset, drawerPosition, drawerWidth)
    case SetListener(l) => SetStateListener(p, l)
    case MaximizeRequested => Maximize(p)
    case MinimizeRequested => Minimize(p)
    case CloseRightRequested => CloseToRight(p)
    case CloseLeftRequested(started) => CloseToLeft(p, started)
  }

  /** Applies the events in order; the effects of every step, in order. */
  function Run(p: Panel, events: seq<Event>): Outcome
    decreases |events|
  {
    if events == [] then Outcome(p, [])
    else
      var first := Step(p, events[0]);
      var rest := Run(first.panel, events[1..]);
      Outcome(rest.panel, first.effects + rest.effects)
  }

  /** No event in the run installs a listener. */
  predicate KeepsListener(events: seq<Event>) {
    forall i :: 0 <= i < |events| ==> !events[i].SetListener?
  }

  /** `n` is what the listener heard while the remembered state went from
      `before` to `after`: real states only, none twice in a row, the first
      one new, the last one remembered. */
  predicate HeardChanges(n: seq<State>, before: State, after: State) {
    && (forall i :: 0 < i < |n| ==> n[i - 1] != n[i])
    && (forall i :: 0 <= i < |n| ==> n[i] != Unknown)
    && (n != [] ==> n[0] != before && n[|n| - 1] == after)
    && (n == [] ==> after == before)
  }

  /** What one step may tell the listener: at most one state, and only a
      change. */
  predicate ReportsOnlyChanges(p: Panel, o: Outcome) {
    var n := Notifications(o.effects);
    |n| <= 1 && HeardChanges(n, p.lastNotifiedState, o.panel.lastNotifiedState)
  }

  /** Two stretches of changes, the second starting where the first ended,
      make one. */
  lemma {:induction false} HeardChangesJoin(a: seq<State>, b: seq<State>, x: State, y: State, z: State)
    requires HeardChanges(a, x, y) && HeardChanges(b, y, z)
    ensures HeardChanges(a + b, x, z)
  {
    var n := a + b;
    forall i | 0 < i < |n|
      ensures n[i - 1] != n[i]
    {
      if i < |a| {
        assert n[i - 1] == a[i - 1] && n[i] == a[i];
      } else if i == |a| {
        assert n[i - 1] == a[|a| - 1] && n[i] == b[0];
      } else {
        assert n[i - 1] == b[i - 1 - |a|] && n[i] == b[i - |a|];
      }
    }
    forall i | 0 <= i < |n|
      ensures n[i] != Unknown
    {
      if i < |a| {
        assert n[i] == a[i];
      } else {
        assert n[i] == b[i - |a|];
      }
    }
    if n != [] {
      if a != [] {
        assert n[0] == a[0];
      } else {
        assert n[0] == b[0];
      }
      if b != [] {
        assert n[|n| - 1] == b[|b| - 1];
      } else {
        assert n[|n| - 1] == a[|a| - 1];
      }
    }
  }

  /** Every event but installing a listener reports only changes. */
  lemma StepReportsOnlyChanges(p: Panel, e: Event)
    requires !e.SetListener?
    ensures ReportsOnlyChanges(p, Step(p, e))
    ensures Step(p, e).panel.listener == p.listener
  {
    var o := Step(p, e);
    match e
    case PositionChanged(g) => PositionReportsOnlyChanges(p, g);
    case CloseLeftRequested(started) => CloseLeftReportsOnlyChanges(p, started);
    case ConfigurationChanged => SilentStep(p, o);
    case Layout(inEditMode, left, top, right, bottom) => SilentStep(p, o);
    case Touch(action, x, viewHit) => SilentStep(p, o);
    case DrawerSlide(slideOffset, drawerPosition, drawerWidth) => SilentStep(p, o);
    case MaximizeRequested => SilentStep(p, o);
    case MinimizeRequested => SilentStep(p, o);
    case CloseRightRequested => SilentStep(p, o);
  }

  /** A step that notifies nobody and keeps the remembered state reports
      only changes, trivially. */
  lemma SilentStep(p: Panel, o: Outcome)
    requires Notifications(o.effects) == [] && o.panel.lastNotifiedState == p.lastNotifiedState
    ensures ReportsOnlyChanges(p, o)
  {
  }

  lemma PositionReportsOnlyChanges(p: Panel, g: Geometry)
    ensures ReportsOnlyChanges(p, OnViewPositionChanged(p, g))
  {
    var o := OnViewPositionChanged(p, g);
    if Notifications(o.effects) == [] && p.listener.Listener? {
      assert o.panel.lastNotifiedState == CurrentState(o.panel) == p.lastNotifiedState;
    }
  }

  lemma CloseLeftReportsOnlyChanges(p: Panel, started: bool)
    ensures ReportsOnlyChanges(p, CloseToLeft(p, started))
    ensures CloseToLeft(p, started).panel.listener == p.listener
  {
    if started {
      var n := OnStateChanged(p);
      var o := CloseToLeft(p, true);
      NotificationsAppend([o.effects[0]], n.effects);
      assert o.effects == [o.effects[0]] + n.effects;
      NoNotifications([o.effects[0]]);
      NoNotifications([]);
      assert Notifications(o.effects) == Notifications(n.effects);
      if n.effects != [] {
        assert n.effects == [Notified(CurrentState(p))];
        assert Notifications(n.effects) == [CurrentState(p)] + Notifications([]);
      }
    }
  }

  /** A step that installs a different listener tells it the current state
      at once, even if the previous listener already heard it. */
  lemma NewListenerHearsCurrentState(p: Panel, l: Listener)
    requires l.Listener? && l != p.listener
    ensures Notifications(Step(p, SetListener(l)).effects) == [CurrentState(p)]
  {
    var o := SetStateListener(p, l);
    assert o.effects == [Notified(CurrentState(p))];
    NoNotifications([]);
    assert Notifications(o.effects) == [CurrentState(p)] + Notifications([]);
  }

  /** Over a run that keeps its listener, no state is reported twice in a
      row, the first report differs from what was reported before the run,
      and the panel ends up remembering the last report. */
  lemma {:induction false} NotificationsNeverRepeat(p: Panel, events: seq<Event>)
    requires KeepsListener(events)
    ensures var r := Run(p, events);
      HeardChanges(Notifications(r.effects), p.lastNotifiedState, r.panel.lastNotifiedState)
    decreases |events|
  {
    if events != [] {
      var first := Step(p, events[0]);
      var rest := Run(first.panel, events[1..]);
      StepReportsOnlyChanges(p, events[0]);
      KeepsListenerTail(events);
      NotificationsNeverRepeat(first.panel, events[1..]);
      NotificationsAppend(first.effects, rest.effects);
      HeardChangesJoin(Notifications(first.effects), Notifications(rest.effects),
                       p.lastNotifiedState, first.panel.lastNotifiedState, rest.panel.lastNotifiedState);
    }
  }

  lemma KeepsListenerTail(events: seq<Event>)
    requires events != [] && KeepsListener(events)
    ensures KeepsListener(events[1..])
  {
    forall i | 0 <= i < |events[1..]|
      ensures !events[1..][i].SetListener?
    {
      assert events[1..][i] == events[i + 1];
    }
  }

  /** Without a listener, a run that installs none notifies nobody. */
  lemma {:induction false} SilentWithoutListener(p: Panel, events: seq<Event>)
    requires p.listener == NoListener && KeepsListener(events)
    ensures Notifications(Run(p, events).effects) == []
    decreases |events|
  {
    if events != [] {
      var first := Step(p, events[0]);
      StepReportsOnlyChanges(p, events[0]);
      StepNotifiesOnlyWithListener(p, events[0]);
      KeepsListenerTail(events);
      SilentWithoutListener(first.panel, events[1..]);
      NotificationsAppend(first.effects, Run(first.panel, events[1..]).effects);
    }
  }

  /** A step other than installing a listener notifies only a listener
      that is there. */
  lemma StepNotifiesOnlyWithListener(p: Panel, e: Event)
    requires !e.SetListener?
    ensures p.listener == NoListener ==> Notifications(Step(p, e).effects) == []
  {
    match e
    case PositionChanged(g) =>
    case CloseLeftRequested(started) =>
      if started && p.listener == NoListener {
        var o := CloseToLeft(p, true);
        assert OnStateChanged(p).effects == [];
        assert o.effects == [o.effects[0]];
        NoNotifications(o.effects);
      }
    case _ =>
  }

  /** The drag helper reporting the same position twice notifies the
      listener at most once. */
  lemma RepeatedPositionNotifiesOnce(p: Panel, g: Geometry)
    ensures var q := Step(p, PositionChanged(g)).panel;
      Notifications(Step(q, PositionChanged(g)).effects) == []
  {
    var q := OnViewPositionChanged(p, g).panel;
    var o := OnViewPositionChanged(q, g);
    assert CurrentState(o.panel) == CurrentState(q);
  }
}
