/** The draggable panel's logical-state machine: the state predicates over
    the drag view's geometry, the de-duplicated listener notification, the
    flag handling of the layout and position callbacks, and the decision
    rules extracted from the touch and drawer handlers.

    Every transition is a pure function returning the new panel together
    with the effects it asks of the platform, in the order it asks for
    them; a listener notification is the effect `Notified`. */
module DraggableView {
  import opened JavaNum

  /** Logical states, with the int codes the listener receives. */
  datatype State = Unknown | Minimized | Drag | Maximized | Closed {
    function Code(): int {
      match this
      case Unknown => -1
      case Minimized => 0
      case Drag => 1
      case Maximized => 2
      case Closed => 3
    }
  }

  /** Distinct states have distinct codes, so comparing the codes, as the
      listener bookkeeping does, is comparing the states. */
  lemma CodesDistinguishStates(s: State, t: State)
    ensures s.Code() == t.Code() <==> s == t
    ensures -1 <= s.Code() <= 3
  {
  }

  /** The state listener, compared by identity; `NoListener` is null. */
  datatype Listener = NoListener | Listener(id: nat)

  /** Where the drag view and the panel are. `left`, `top` and `right` are
      the drag view's edges; `width` and `height` are the panel's own size;
      `originalWidth` is the drag view's measured width and
      `minHeightPlusMargin` what the transformer reports for the
      minimised preview. */
  datatype Geometry = Geometry(
    left: int,
    top: int,
    right: int,
    width: int,
    height: int,
    paddingTop: int,
    originalWidth: int,
    minHeightPlusMargin: int)

  datatype Panel = Panel(
    geom: Geometry,
    lastPosition: int,
    lastDragRange: int,
    lastNotifiedState: State,
    stateChanged: bool,
    configurationChanged: bool,
    listener: Listener,
    touchEnabled: bool,
    clickToMaximize: bool,
    clickToMinimize: bool,
    lastTouchDownX: real,
    lastSlideTargetY: int,
    lastSlideOffset: real)

  /** What a transition asks of the platform. */
  datatype Effect =
    | Notified(state: State)                    // the listener is called back
    | SlideRequested(offset: real, targetY: int) // the drag helper slides the view to (0, targetY)
    | CloseRequested(x: int, y: int)             // the drag helper slides the view off to (x, y)
    | ScaleUpdated(offset: real)                 // the transformer resizes the preview
    | LayoutRequested
    | DragAborted
    | MovedTo(panelX: real)                      // the panel itself is moved horizontally

  datatype Outcome = Outcome(panel: Panel, effects: seq<Effect>)

  /** Touch actions the decision rules distinguish. */
  datatype Action = Down | Up | Move | Cancel | OtherAction

  /** A view's position on screen and its size. */
  datatype ScreenRect = ScreenRect(x: int, y: int, width: int, height: int)

  const MIN_SLIDE_OFFSET: real := 0.1
  const MIN_SLIDING_DISTANCE_ON_CLICK: real := 10.0
  const SLIDE_TOP: real := 0.0
  const SLIDE_BOTTOM: real := 1.0

  /** The states the listener was told about, in order. */
  function Notifications(effects: seq<Effect>): seq<State>
    decreases |effects|
  {
    if effects == [] then []
    else (if effects[0].Notified? then [effects[0].state] else []) + Notifications(effects[1..])
  }

  lemma {:induction false} NotificationsAppend(a: seq<Effect>, b: seq<Effect>)
    ensures Notifications(a + b) == Notifications(a) + Notifications(b)
    decreases |a|
  {
    if a == [] {
      assert a + b == b;
    } else {
      var ab := a + b;
      assert ab[0] == a[0];
      assert ab[1..] == a[1..] + b;
      NotificationsAppend(a[1..], b);
    }
  }

  /** Effects without a notification among them notify nobody. */
  lemma {:induction false} NoNotifications(effects: seq<Effect>)
    requires forall i :: 0 <= i < |effects| ==> !effects[i].Notified?
    ensures Notifications(effects) == []
    decreases |effects|
  {
    if effects != [] {
      NoNotifications(effects[1..]);
    }
  }

  // ---------------------------------------------------------------------
  // Geometry and the state predicates

  /** How far the drag view can travel down: the panel height less the
      minimised preview's height and margin. */
  function DragRange(g: Geometry): int {
    g.height - g.minHeightPlusMargin
  }

  predicate IsMaximized(p: Panel) {
    p.lastPosition == 0
  }

  predicate IsMinimized(p: Panel) {
    p.lastPosition == p.lastDragRange && p.lastDragRange != 0
  }

  predicate IsClosedAtRight(g: Geometry) {
    g.left >= g.width
  }

  predicate IsClosedAtLeft(g: Geometry) {
    g.right <= 0
  }

  predicate IsClosed(g: Geometry) {
    IsClosedAtLeft(g) || IsClosedAtRight(g)
  }

  /** The panel is never maximised and minimised at once. */
  lemma MaximizedExcludesMinimized(p: Panel)
    ensures !(IsMaximized(p) && IsMinimized(p))
  {
  }

  /** The state the panel is in: maximised first, then closed, then
      minimised, dragging otherwise. */
  function CurrentState(p: Panel): (s: State)
    ensures s != Unknown
    ensures s == Maximized <==> IsMaximized(p)
    ensures s == Closed <==> !IsMaximized(p) && IsClosed(p.geom)
    ensures s == Minimized <==> !IsMaximized(p) && !IsClosed(p.geom) && IsMinimized(p)
    ensures s == Drag <==> !IsMaximized(p) && !IsClosed(p.geom) && !IsMinimized(p)
  {
    if IsMaximized(p) then Maximized
    else if IsClosed(p.geom) then Closed
    else if IsMinimized(p) then Minimized
    else Drag
  }

  /** The drag view's top normalised by the drag range and clamped to
      [0, 1]; 0 when there is no range. */
  function VerticalDragOffset(g: Geometry): (r: real)
    ensures 0.0 <= r <= 1.0
    ensures DragRange(g) == 0 ==> r == 0.0
    ensures DragRange(g) != 0 && g.top == DragRange(g) ==> r == 1.0
    ensures g.top == 0 ==> r == 0.0
    ensures DragRange(g) > 0 && 0 <= g.top <= DragRange(g) ==> r * DragRange(g) as real == g.top as real
    ensures DragRange(g) > 0 && g.top >= DragRange(g) ==> r == 1.0
    ensures DragRange(g) > 0 && g.top <= 0 ==> r == 0.0
  {
    var range := DragRange(g);
    var offset := if range != 0 then g.top as real / range as real else 0.0;
    TopOverRange(g.top, range);
    if offset > 1.0 then 1.0
    else if offset < 0.0 then 0.0
    else offset
  }

  /** The unclamped ratio of the top to a nonzero range. */
  lemma TopOverRange(top: int, range: int)
    ensures range != 0 ==> (top as real / range as real) * range as real == top as real
    ensures range != 0 && top == range ==> top as real / range as real == 1.0
    ensures range > 0 && top >= range ==> top as real / range as real >= 1.0
    ensures range > 0 && top <= 0 ==> top as real / range as real <= 0.0
  {
  }

  // ---------------------------------------------------------------------
  // State notification

  /** Notifies the listener of the current state unless there is no
      listener or it was already told about that state. */
  function OnStateChanged(p: Panel): (o: Outcome)
    ensures var s := CurrentState(p);
      && |o.effects| <= 1
      && (o.effects != [] <==> p.listener.Listener? && p.lastNotifiedState != s)
      && (o.effects != [] ==> o.effects == [Notified(s)] && o.panel.stateChanged)
      && (o.effects == [] ==> o.panel == p)
      && (p.listener.Listener? ==> o.panel.lastNotifiedState == s)
    // only the notification bookkeeping changes
    ensures o.panel == p.(lastNotifiedState := o.panel.lastNotifiedState, stateChanged := o.panel.stateChanged)
    ensures CurrentState(o.panel) == CurrentState(p)
  {
    var s := CurrentState(p);
    if p.listener.Listener? && p.lastNotifiedState != s then
      Outcome(p.(lastNotifiedState := s, stateChanged := true), [Notified(s)])
    else
      Outcome(p, [])
  }

  /** With the geometry unchanged, a second state check notifies nobody. */
  lemma {:induction false} OnStateChangedIdempotent(p: Panel)
    ensures OnStateChanged(OnStateChanged(p).panel).effects == []
    ensures OnStateChanged(OnStateChanged(p).panel).panel == OnStateChanged(p).panel
  {
    var q := OnStateChanged(p).panel;
    assert CurrentState(q) == CurrentState(p);
  }

  /** The state check notifies exactly when it emits an effect, and then
      of the current state. */
  lemma NotificationsOfCheck(p: Panel)
    ensures OnStateChanged(p).effects == [] ==> Notifications(OnStateChanged(p).effects) == []
    ensures OnStateChanged(p).effects != [] ==> Notifications(OnStateChanged(p).effects) == [CurrentState(p)]
  {
    var e := OnStateChanged(p).effects;
    if e != [] {
      assert e[1..] == [];
    }
  }

  /** The state check leaves every field but the notification bookkeeping
      alone. */
  lemma CheckKeepsOtherFields(p: Panel)
    ensures var q := OnStateChanged(p).panel;
      && q.geom == p.geom && q.lastPosition == p.lastPosition && q.lastDragRange == p.lastDragRange
      && q.configurationChanged == p.configurationChanged && q.listener == p.listener
      && q.touchEnabled == p.touchEnabled
      && q.clickToMaximize == p.clickToMaximize && q.clickToMinimize == p.clickToMinimize
      && q.lastTouchDownX == p.lastTouchDownX
      && q.lastSlideTargetY == p.lastSlideTargetY && q.lastSlideOffset == p.lastSlideOffset
  {
  }

  /** Installs a listener. The same listener again changes nothing; a
      different one forgets what was notified and is told the current
      state at once; no listener is told nothing. */
  function SetStateListener(p: Panel, l: Listener): (o: Outcome)
    ensures l == p.listener ==> o == Outcome(p, [])
    ensures l != p.listener && l.Listener? ==>
      o.effects == [Notified(CurrentState(p))] && o.panel.lastNotifiedState == CurrentState(p)
    ensures l != p.listener && l == NoListener ==>
      o.effects == [] && o.panel.lastNotifiedState == Unknown
    // a new listener raises the state-changed flag; nothing else changes
    ensures l != p.listener && l.Listener? ==>
      o.panel == p.(listener := l, lastNotifiedState := CurrentState(p), stateChanged := true)
    ensures l != p.listener && l == NoListener ==>
      o.panel == p.(listener := NoListener, lastNotifiedState := Unknown)
    ensures o.panel.listener == l
    ensures o.panel.geom == p.geom && CurrentState(o.panel) == CurrentState(p)
  {
    if p.listener != l then
      OnStateChanged(p.(listener := l, lastNotifiedState := Unknown))
    else
      Outcome(p, [])
  }

  /** The platform reports a configuration change (a rotation, say). */
  function OnConfigurationChanged(p: Panel): (r: Panel)
    ensures r.configurationChanged
    ensures r.(configurationChanged := p.configurationChanged) == p
  {
    p.(configurationChanged := true)
  }

  // ---------------------------------------------------------------------
  // Layout and drag callbacks

  /** The layout pass re-positions the drag view itself only when the
      panel is not maximised, something changed since the last pass, and
      the listener was not last told the panel is closed. */
  predicate RelaysOut(p: Panel, inEditMode: bool) {
    !inEditMode && !IsMaximized(p) && (p.configurationChanged || p.stateChanged)
    && p.lastNotifiedState != Closed
  }

  /** A layout pass of the panel, `left`, `top`, `right` and `bottom`
      being the bounds it is given. The platform sets the panel's size to
      those bounds before the pass runs, so the drag range is measured on
      the new size. After a configuration change the drag view is put back
      in the minimised row. */
  function OnLayout(p: Panel, inEditMode: bool, left: int, top: int, right: int, bottom: int): (o: Outcome)
    // the pass always takes the new size and consumes both flags
    ensures o.panel.geom.width == right - left && o.panel.geom.height == bottom - top
    ensures !o.panel.configurationChanged && !o.panel.stateChanged
    ensures !RelaysOut(p, inEditMode) ==>
      && o.effects == []
      && o.panel == p.(geom := p.geom.(width := right - left, height := bottom - top),
                       configurationChanged := false, stateChanged := false)
    // after a configuration change the view sits at the bottom of its new range
    ensures RelaysOut(p, inEditMode) && p.configurationChanged ==>
      && o.panel.lastPosition == DragRange(o.panel.geom)
      && o.panel.lastDragRange == DragRange(o.panel.geom)
      && o.panel.geom.top == DragRange(o.panel.geom)
      && (IsMinimized(o.panel) <==> DragRange(o.panel.geom) != 0)
      && DragAborted in o.effects
    // otherwise the view stays where it was dragged
    ensures RelaysOut(p, inEditMode) && !p.configurationChanged ==>
      && o.panel.lastPosition == p.geom.top
      && o.panel.lastDragRange == DragRange(o.panel.geom)
      && o.panel.geom.top == p.geom.top
      && DragAborted !in o.effects
    ensures RelaysOut(p, inEditMode) ==>
      && o.panel.geom.left == left && o.panel.geom.right == right
      && |o.effects| > 0
      && o.effects[|o.effects| - 1] == ScaleUpdated(VerticalDragOffset(o.panel.geom))
    // a layout pass never notifies and never changes who is notified
    ensures Notifications(o.effects) == []
    ensures o.panel.lastNotifiedState == p.lastNotifiedState && o.panel.listener == p.listener
  {
    var g0 := p.geom.(width := right - left, height := bottom - top);
    var r :=
      if RelaysOut(p, inEditMode) then
        var range := DragRange(g0);
        var newPosition := if p.configurationChanged then range else p.geom.top;
        var g := g0.(left := left, top := newPosition, right := right);
        var aborted := if p.configurationChanged then [DragAborted] else [];
        Outcome(p.(geom := g, lastPosition := newPosition, lastDragRange := range),
                aborted + [ScaleUpdated(VerticalDragOffset(g))])
      else
        Outcome(p.(geom := g0), []);
    NoNotifications(r.effects);
    Outcome(r.panel.(configurationChanged := false, stateChanged := false), r.effects)
  }

  /** A layout pass changes only the drag view's placement, the panel's
      size and the remembered position and range, besides the two flags. */
  lemma LayoutKeepsOtherFields(p: Panel, inEditMode: bool, left: int, top: int, right: int, bottom: int)
    ensures var q := OnLayout(p, inEditMode, left, top, right, bottom).panel;
      && q.geom.(left := p.geom.left, top := p.geom.top, right := p.geom.right,
                 width := p.geom.width, height := p.geom.height) == p.geom
      && q.(geom := p.geom, lastPosition := p.lastPosition, lastDragRange := p.lastDragRange,
            configurationChanged := p.configurationChanged, stateChanged := p.stateChanged) == p
  {
  }

  /** What a position change asks of the platform besides notifying: a
      preview update unless the preview sits minimised with no
      configuration change pending, then a layout request when the view
      reaches the top from elsewhere. */
  function PositionEffects(p: Panel, g: Geometry): (e: seq<Effect>)
    ensures ScaleUpdated(VerticalDragOffset(g)) in e <==> !(IsMinimized(p) && !p.configurationChanged)
    ensures LayoutRequested in e <==> p.lastPosition != 0 && g.top == 0
    ensures Notifications(e) == []
  {
    var visual := if IsMinimized(p) && !p.configurationChanged then [] else [ScaleUpdated(VerticalDragOffset(g))];
    var relayout := if p.lastPosition != 0 && g.top == 0 then [LayoutRequested] else [];
    NoNotifications(visual + relayout);
    visual + relayout
  }

  /** The drag helper moved the drag view to `g`: record the new position
      and range, update the preview and notify the listener if the state
      changed. */
  function OnViewPositionChanged(p: Panel, g: Geometry): (o: Outcome)
    ensures o.panel.geom == g
    ensures o.panel.lastPosition == g.top && o.panel.lastDragRange == DragRange(g)
    ensures IsMaximized(o.panel) <==> g.top == 0
    ensures IsMinimized(o.panel) <==> g.top == DragRange(g) && DragRange(g) != 0
    // the preview is left alone only while it sits minimised and no
    // configuration change is pending
    ensures ScaleUpdated(VerticalDragOffset(g)) in o.effects <==> !(IsMinimized(p) && !p.configurationChanged)
    // reaching the top from elsewhere asks for a new layout pass
    ensures LayoutRequested in o.effects <==> p.lastPosition != 0 && g.top == 0
    ensures var n := Notifications(o.effects);
      && |n| <= 1
      && (n != [] <==> p.listener.Listener? && p.lastNotifiedState != CurrentState(o.panel))
      && (n != [] ==> n == [CurrentState(o.panel)])
    ensures p.listener.Listener? ==> o.panel.lastNotifiedState == CurrentState(o.panel)
    ensures p.listener == NoListener ==> o.panel.lastNotifiedState == p.lastNotifiedState
    // a notification raises the state-changed flag the next layout pass reads
    ensures Notifications(o.effects) != [] ==> o.panel.stateChanged
    ensures Notifications(o.effects) == [] ==> o.panel.stateChanged == p.stateChanged
    ensures o.panel.configurationChanged == p.configurationChanged
    ensures o.panel.listener == p.listener
  {
    var moved := p.(geom := g, lastPosition := g.top, lastDragRange := DragRange(g));
    var n := OnStateChanged(moved);
    var visual := PositionEffects(p, g);
    var effects := visual + n.effects;
    NotificationsAppend(visual, n.effects);
    NotificationsOfCheck(moved);
    assert n.effects == [] || n.effects == [Notified(CurrentState(moved))];
    assert ScaleUpdated(VerticalDragOffset(g)) in effects <==> ScaleUpdated(VerticalDragOffset(g)) in visual;
    assert LayoutRequested in effects <==> LayoutRequested in visual;
    Outcome(n.panel, effects)
  }

  /** A position change alters nothing but the position bookkeeping and the
      notification bookkeeping. */
  lemma PositionChangeKeepsOtherFields(p: Panel, g: Geometry)
    ensures var q := OnViewPositionChanged(p, g).panel;
      q.(geom := p.geom, lastPosition := p.lastPosition, lastDragRange := p.lastDragRange,
         lastNotifiedState := p.lastNotifiedState, stateChanged := p.stateChanged) == p
  {
    var moved := p.(geom := g, lastPosition := g.top, lastDragRange := DragRange(g));
    CheckKeepsOtherFields(moved);
  }

  // ---------------------------------------------------------------------
  // Slides

  /** The vertical position a slide to `offset` targets: the top padding
      plus that fraction of the drag range, cast to int. */
  function CalculateSlideTargetY(g: Geometry, offset: real): (y: int)
    ensures offset == SLIDE_TOP && IsInt(g.paddingTop) ==> y == g.paddingTop
    ensures offset == SLIDE_BOTTOM && IsInt(g.paddingTop + DragRange(g)) ==> y == g.paddingTop + DragRange(g)
    ensures 0.0 <= offset <= 1.0 && 0 <= DragRange(g) && IsInt(g.paddingTop) && IsInt(g.paddingTop + DragRange(g)) ==>
      g.paddingTop <= y <= g.paddingTop + DragRange(g)
  {
    SlideTargetWithinRange(g.paddingTop, DragRange(g), offset);
    SlideTargetAtEnds(g.paddingTop, DragRange(g));
    SlideTarget(g.paddingTop, DragRange(g), offset)
  }

  /** `lo` plus `offset` of `range`, cast to int. */
  function SlideTarget(lo: int, range: int, offset: real): int {
    FloatToInt(lo as real + offset * range as real)
  }

  /** A slide within [0, 1] of a non-negative range stays inside it. */
  lemma {:induction false} SlideTargetWithinRange(lo: int, range: int, offset: real)
    ensures 0.0 <= offset <= 1.0 && 0 <= range && IsInt(lo) && IsInt(lo + range) ==>
      lo <= SlideTarget(lo, range, offset) <= lo + range
  {
    if 0.0 <= offset <= 1.0 && 0 <= range && IsInt(lo) && IsInt(lo + range) {
      FractionWithin(lo, range, offset);
      FloatToIntBetween(lo, lo + range, lo as real + offset * range as real);
    }
  }

  /** The two ends of a slide are the ends of the range. */
  lemma {:induction false} SlideTargetAtEnds(lo: int, range: int)
    ensures IsInt(lo) ==> SlideTarget(lo, range, SLIDE_TOP) == lo
    ensures IsInt(lo + range) ==> SlideTarget(lo, range, SLIDE_BOTTOM) == lo + range
  {
    if IsInt(lo) {
      assert lo as real + SLIDE_TOP * range as real == lo as real;
      FloatToIntOfInt(lo);
    }
    if IsInt(lo + range) {
      assert lo as real + SLIDE_BOTTOM * range as real == (lo + range) as real;
      FloatToIntOfInt(lo + range);
    }
  }

  /** Adding a fraction in [0, 1] of a non-negative range stays within
      the range. */
  lemma FractionWithin(lo: int, range: int, offset: real)
    requires 0.0 <= offset <= 1.0 && 0 <= range
    ensures lo as real <= lo as real + offset * range as real <= (lo + range) as real
  {
    var r := range as real;
    assert r - offset * r == (1.0 - offset) * r;
  }

  /** Starts an animated slide of the drag view to `offset` of its range,
      remembering the target. */
  function SmoothSlideTo(p: Panel, offset: real): (o: Outcome)
    ensures var y := CalculateSlideTargetY(p.geom, offset);
      && o.effects == [SlideRequested(offset, y)]
      && o.panel == p.(lastSlideTargetY := y, lastSlideOffset := offset)
  {
    var y := CalculateSlideTargetY(p.geom, offset);
    Outcome(p.(lastSlideTargetY := y, lastSlideOffset := offset), [SlideRequested(offset, y)])
  }

  /** Slides the drag view back to the top of the panel. */
  function Maximize(p: Panel): (o: Outcome)
    ensures |o.effects| == 1 && o.effects[0].SlideRequested? && o.effects[0].offset == SLIDE_TOP
    ensures IsInt(p.geom.paddingTop) ==> o.effects[0].targetY == p.geom.paddingTop
    ensures Notifications(o.effects) == []
    // the panel only remembers the slide it asked for
    ensures o.panel == p.(lastSlideTargetY := o.effects[0].targetY, lastSlideOffset := SLIDE_TOP)
    ensures o.panel.lastNotifiedState == p.lastNotifiedState && o.panel.listener == p.listener
  {
    var o := SmoothSlideTo(p, SLIDE_TOP);
    NoNotifications(o.effects);
    o
  }

  /** Slides the drag view down to the minimised row. */
  function Minimize(p: Panel): (o: Outcome)
    ensures |o.effects| == 1 && o.effects[0].SlideRequested? && o.effects[0].offset == SLIDE_BOTTOM
    ensures IsInt(p.geom.paddingTop + DragRange(p.geom)) ==>
      o.effects[0].targetY == p.geom.paddingTop + DragRange(p.geom)
    ensures Notifications(o.effects) == []
    // the panel only remembers the slide it asked for
    ensures o.panel == p.(lastSlideTargetY := o.effects[0].targetY, lastSlideOffset := SLIDE_BOTTOM)
    ensures o.panel.lastNotifiedState == p.lastNotifiedState && o.panel.listener == p.listener
  {
    var o := SmoothSlideTo(p, SLIDE_BOTTOM);
    NoNotifications(o.effects);
    o
  }

  /** Slides the drag view off the right edge, at the minimised row. */
  function CloseToRight(p: Panel): (o: Outcome)
    ensures o.panel == p
    ensures o.effects == [CloseRequested(p.geom.originalWidth, DragRange(p.geom))]
    ensures Notifications(o.effects) == []
  {
    var effects := [CloseRequested(p.geom.originalWidth, p.geom.height - p.geom.minHeightPlusMargin)];
    NoNotifications(effects);
    Outcome(p, effects)
  }

  /** Slides the drag view off the left edge, at the minimised row; when
      the slide starts (`started`) the listener is checked at once. */
  function CloseToLeft(p: Panel, started: bool): (o: Outcome)
    ensures |o.effects| > 0
    ensures o.effects[0] == CloseRequested(-p.geom.originalWidth, DragRange(p.geom))
    ensures !started ==> o == Outcome(p, [o.effects[0]])
    ensures started ==> o.panel == OnStateChanged(p).panel
    ensures |Notifications(o.effects)| <= 1
    ensures Notifications(o.effects) != [] ==>
      started && Notifications(o.effects) == [CurrentState(p)] && p.lastNotifiedState != CurrentState(p)
  {
    var request := [CloseRequested(-p.geom.originalWidth, p.geom.height - p.geom.minHeightPlusMargin)];
    NoNotifications(request);
    if started then
      var n := OnStateChanged(p);
      NotificationsAppend(request, n.effects);
      Outcome(n.panel, request + n.effects)
    else
      Outcome(p, request)
  }

  /** The two closing slides are mirror images across the panel's left
      edge, and both end on the row a minimising slide ends on, less the
      top padding. */
  lemma CloseTargetsMirror(p: Panel, started: bool)
    requires IsInt(p.geom.paddingTop + DragRange(p.geom))
    ensures var right := CloseToRight(p).effects[0];
      var left := CloseToLeft(p, started).effects[0];
      && left.x == -right.x
      && left.y == right.y
      && right.y == Minimize(p).effects[0].targetY - p.geom.paddingTop
  {
  }

  // ---------------------------------------------------------------------
  // Decision rules from the touch and drawer handlers

  /** A touch counts as a tap when it moved less than the click distance
      horizontally, is not a move, and landed on the resizable view. */
  predicate ShouldMaximizeOnClick(action: Action, deltaX: real, viewHit: bool) {
    Abs(deltaX) < MIN_SLIDING_DISTANCE_ON_CLICK && action != Move && viewHit
  }

  /** A touch on the panel: a press remembers where it went down; a
      release that is a tap toggles the panel between minimised and
      maximised when the matching click option is on. */
  function AnalyzeTouchToMaximizeIfNeeded(p: Panel, action: Action, x: real, viewHit: bool): (o: Outcome)
    ensures action == Down ==> o == Outcome(p.(lastTouchDownX := x), [])
    ensures action != Down && action != Up ==> o == Outcome(p, [])
    ensures action == Up ==>
      (o.effects != [] <==>
        && Abs(x - p.lastTouchDownX) < MIN_SLIDING_DISTANCE_ON_CLICK && viewHit
        && ((IsMinimized(p) && p.clickToMaximize) || (IsMaximized(p) && p.clickToMinimize)))
    ensures action == Up && o.effects != [] ==>
      && |o.effects| == 1 && o.effects[0].SlideRequested?
      && o.effects[0].offset == (if IsMinimized(p) then SLIDE_TOP else SLIDE_BOTTOM)
    // a release that is not a tap changes nothing; a tap is a maximise or minimise request
    ensures action == Up && o.effects == [] ==> o.panel == p
    ensures action == Up && o.effects != [] ==> o == (if IsMinimized(p) then Maximize(p) else Minimize(p))
    ensures o.panel.lastNotifiedState == p.lastNotifiedState && o.panel.geom == p.geom
    ensures o.panel.listener == p.listener
    ensures Notifications(o.effects) == []
  {
    var o :=
      match action
      case Down => Outcome(p.(lastTouchDownX := x), [])
      case Up =>
        if ShouldMaximizeOnClick(action, x - p.lastTouchDownX, viewHit) then
          if IsMinimized(p) && p.clickToMaximize then Maximize(p)
          else if IsMaximized(p) && p.clickToMinimize then Minimize(p)
          else Outcome(p, [])
        else Outcome(p, [])
      case _ => Outcome(p, []);
    NoNotifications(o.effects);
    o
  }

  /** The navigation drawer slid by `slideOffset`: an open-enough drawer
      minimises a maximised panel and disables touch; the panel follows the
      drawer's edge. */
  function SlideHorizontally(p: Panel, slideOffset: real, drawerPosition: real, drawerWidth: int): (o: Outcome)
    ensures o.panel.touchEnabled <==> slideOffset <= MIN_SLIDE_OFFSET
    ensures (exists i :: 0 <= i < |o.effects| && o.effects[i].SlideRequested?) <==>
      slideOffset > MIN_SLIDE_OFFSET && !IsClosed(p.geom) && IsMaximized(p)
    // the slide is the one a minimise request issues
    ensures slideOffset > MIN_SLIDE_OFFSET && !IsClosed(p.geom) && IsMaximized(p) ==>
      o.effects[0] == Minimize(p).effects[0]
    ensures |o.effects| > 0 && o.effects[|o.effects| - 1] == MovedTo(drawerWidth as real - Abs(drawerPosition))
    ensures Notifications(o.effects) == []
    ensures o.panel.lastNotifiedState == p.lastNotifiedState && o.panel.geom == p.geom
    ensures o.panel.listener == p.listener
    // besides touch, the panel changes only as a minimise request changes it
    ensures slideOffset > MIN_SLIDE_OFFSET && !IsClosed(p.geom) && IsMaximized(p) ==>
      o.panel == Minimize(p).panel.(touchEnabled := false)
    ensures !(slideOffset > MIN_SLIDE_OFFSET && !IsClosed(p.geom) && IsMaximized(p)) ==>
      o.panel == p.(touchEnabled := slideOffset <= MIN_SLIDE_OFFSET)
  {
    var m :=
      if slideOffset > MIN_SLIDE_OFFSET && !IsClosed(p.geom) && IsMaximized(p) then Minimize(p)
      else Outcome(p, []);
    var effects := m.effects + [MovedTo(drawerWidth as real - Abs(drawerPosition))];
    NoNotifications(effects);
    Outcome(m.panel.(touchEnabled := slideOffset <= MIN_SLIDE_OFFSET), effects)
  }

  // ---------------------------------------------------------------------
  // Hit testing

  /** Whether the point (x, y), given relative to the panel at
      (panelX, panelY) on screen, falls on `view`: left and top edges
      included, right and bottom edges excluded. */
  predicate IsViewHit(view: ScreenRect, panelX: int, panelY: int, x: int, y: int) {
    var screenX := panelX + x;
    var screenY := panelY + y;
    screenX >= view.x && screenX < view.x + view.width
    && screenY >= view.y && screenY < view.y + view.height
  }

  /** A view with no area is never hit. */
  lemma EmptyViewNeverHit(view: ScreenRect, panelX: int, panelY: int, x: int, y: int)
    requires view.width <= 0 || view.height <= 0
    ensures !IsViewHit(view, panelX, panelY, x, y)
  {
  }

  /** The view's top-left corner is on it, its bottom-right corner is not. */
  lemma CornersOfHitArea(view: ScreenRect, panelX: int, panelY: int)
    requires view.width > 0 && view.height > 0
    ensures IsViewHit(view, panelX, panelY, view.x - panelX, view.y - panelY)
    ensures !IsViewHit(view, panelX, panelY, view.x + view.width - panelX, view.y + view.height - panelY)
  {
  }

  /** Two views that touch along an edge never both claim a point. */
  lemma AdjacentViewsNeverBothHit(a: ScreenRect, b: ScreenRect, panelX: int, panelY: int, x: int, y: int)
    requires b.x == a.x + a.width || b.y == a.y + a.height
    ensures !(IsViewHit(a, panelX, panelY, x, y) && IsViewHit(b, panelX, panelY, x, y))
  {
  }
}
