# DraggablePanel core in Dafny

A model of the logic at the centre of DraggablePanel, an Android widget that
shows a view which can be dragged down into a small preview in the bottom
right corner ("minimised"), dragged back up to fill the panel ("maximised"),
or flung off either side ("closed").

It covers three parts:

- **The logical-state machine of `DraggableView`** (`draggable_view.dfy`,
  module `DraggableView`). The panel is an immutable record of the drag
  view's geometry and the widget's bookkeeping fields: `lastPosition`,
  `lastDragRange`, `lastNotifiedState`, `stateChanged`,
  `configurationChanged`, the listener, the click options and the touch flag.
  Each callback or request is a pure function. Most return an `Outcome`:
  the new panel plus the effects it asks of the platform, in order. The
  configuration-change callback asks nothing of the platform, so it returns
  just the new panel. One effect
  is `Notified(state)`, a call to the state listener. The others are a
  requested slide, a requested close, a preview update, a layout request,
  an aborted drag, and a horizontal move of the panel.
- **The minimised-preview sizing arithmetic of `Transformer`**
  (`transformer.dfy`). It covers the choice of scale factor, the linear
  scale interpolation, the minimised height plus margin, the margin setters
  and the horizontal-bound predicates.
- **The resize strategy** (`resize_transformer.dfy`). `updateScaleAndPosition`
  is a function from the vertical drag offset to the new layout params.

`java_num.dfy` models the Java numerics these rely on. A Java `float` is an
exact `real`. The `(int)` cast truncates toward zero and saturates at the
ends of the 32-bit int range. `Math.round` rounds half up and saturates.

`panel_run.dfy` strings the callbacks together into runs of events. It
proves what the listener hears over a whole run:
- at most one notification per step;
- never `UNKNOWN`;
- never the same state twice in a row while the listener stays installed;
- the panel always remembers the last state it reported.

## Model

| member | source | states |
|---|---|---|
| Transformer.XScaleFactor | draggablepanel/src/main/java/com/github/pedrovgs/transformer/Transformer.java:71-77 | With both minimum dimensions positive, the horizontal factor is originalWidth / minWidth. Otherwise it is the configured factor. |
| Transformer.YScaleFactor | draggablepanel/src/main/java/com/github/pedrovgs/transformer/Transformer.java:83-89 | With both minimum dimensions positive, the vertical factor is originalHeight / minHeight. Otherwise it is the configured factor. |
| Transformer.CalculateScale | draggablepanel/src/main/java/com/github/pedrovgs/transformer/Transformer.java:103-105 | For a nonzero factor f the scale is (1 − offset) + offset·(1/f). It is linear in the offset, 1 at offset 0 and 1/f at offset 1. |
| Transformer.CalculateScaleNonIncreasing | draggablepanel/src/main/java/com/github/pedrovgs/transformer/Transformer.java:103-105 | For a factor above 1, a larger offset never gives a larger scale. |
| Transformer.SetMarginRight | draggablepanel/src/main/java/com/github/pedrovgs/transformer/Transformer.java:107-113 | Storing an int right margin keeps exactly that value, because rounding an int is the identity. No other field changes. |
| Transformer.SetMarginBottom | draggablepanel/src/main/java/com/github/pedrovgs/transformer/Transformer.java:115-121 | Storing an int bottom margin keeps exactly that value. No other field changes. |
| Transformer.MinHeightPlusMargin | draggablepanel/src/main/java/com/github/pedrovgs/transformer/Transformer.java:183-189 | With both minimum dimensions nonzero, the result is minHeight + marginBottom. |
| Transformer.MinHeightPlusMarginFromFactor | draggablepanel/src/main/java/com/github/pedrovgs/transformer/Transformer.java:183-189 | Otherwise the result is (int)(originalHeight / configured vertical factor) + marginBottom. The minimum-size override of the factor never applies on this path. |
| Transformer.BoundsExclusive | draggablepanel/src/main/java/com/github/pedrovgs/transformer/Transformer.java:168-178 | With a parent width ≥ 0, a view is never next to the left bound (below 60%) and the right bound (above 125%) at once. |
| Transformer.AtRightBounds | draggablepanel/src/main/java/com/github/pedrovgs/transformer/Transformer.java:160-178 | For a view whose right edge is at the parent's right edge: it is next to the left bound iff marginRight > 0.4 × parent width. With a non-negative margin and parent width it is never next to the right bound. |
| Transformer.DefaultMarginAtRightOfNarrowParent | draggablepanel/src/main/java/com/github/pedrovgs/DraggableView.java:58 | With the default 30 px margin and a parent 70 px wide, a view parked at the right edge is next to the left bound. |
| Transformer.IsNextToLeftBound | draggablepanel/src/main/java/com/github/pedrovgs/transformer/Transformer.java:168-170 | True iff (right − marginRight) < 0.6 × parent width. |
| Transformer.IsNextToRightBound | draggablepanel/src/main/java/com/github/pedrovgs/transformer/Transformer.java:176-178 | True iff (right − marginRight) > 1.25 × parent width. |
| Transformer.IsViewAtRight | draggablepanel/src/main/java/com/github/pedrovgs/transformer/Transformer.java:160-162 | True iff the drag view's right edge equals the parent width. |
| Transformer.ScaleX | draggablepanel/src/main/java/com/github/pedrovgs/transformer/Transformer.java:99-101 | The horizontal scale at an offset: the interpolated scale for the horizontal factor. |
| Transformer.ScaleY | draggablepanel/src/main/java/com/github/pedrovgs/transformer/Transformer.java:95-97 | The vertical scale at an offset: the interpolated scale for the vertical factor. |
| ResizeTransformer.ResizedLength | draggablepanel/src/main/java/com/github/pedrovgs/transformer/ResizeTransformer.java:44-50 | At offset 0 a side is MATCH_PARENT. At any other offset it is the measured length times the interpolated scale, cast to int. |
| ResizeTransformer.ResizedLengthMinimized | draggablepanel/src/main/java/com/github/pedrovgs/transformer/ResizeTransformer.java:47-50 | At offset 1 a side is the measured length divided by the factor, cast to int. |
| ResizeTransformer.ScaledMargin | draggablepanel/src/main/java/com/github/pedrovgs/transformer/ResizeTransformer.java:52-53 | A scaled margin is 0 at offset 0 and the whole margin at offset 1. For offsets in [0, 1] it stays between 0 and a non-negative margin. |
| ResizeTransformer.MarginWithinConfigured | draggablepanel/src/main/java/com/github/pedrovgs/transformer/ResizeTransformer.java:52-53 | The truncated product of a non-negative margin and an offset in [0, 1] lies in [0, margin]. At offset 1 it is exactly the margin. |
| ResizeTransformer.UpdateScaleAndPosition | draggablepanel/src/main/java/com/github/pedrovgs/transformer/ResizeTransformer.java:43-58 | Width and height are MATCH_PARENT at offset 0. Elsewhere they are (int)(original × scaleX(offset)) and (int)(original × scaleY(offset)). Both margins grow from 0 to the configured margins. leftMargin, topMargin and gravity are untouched, and the drag view keeps its bounds. |
| ResizeTransformer.ResizedLengthReachesTarget | draggablepanel/src/main/java/com/github/pedrovgs/transformer/ResizeTransformer.java:47-50 | Suppose the factor is the measured length divided by a positive target. Then the fully minimised side is exactly the target. |
| ResizeTransformer.ScaledMinHeightPlusMargin | draggablepanel/src/main/java/com/github/pedrovgs/transformer/Transformer.java:183-189 | Without a fixed minimum size, the minimised height plus margin is the fully minimised resized height plus marginBottom. |
| ResizeTransformer.MinimizedFootprint | draggablepanel/src/main/java/com/github/pedrovgs/transformer/ResizeTransformer.java:49-52 | Take offset 1, where the two minimum-size tests agree. There the resized preview's height plus bottom margin equals the minimised height plus margin. |
| ResizeTransformer.MinimizedWidth | draggablepanel/src/main/java/com/github/pedrovgs/transformer/ResizeTransformer.java:47-48 | With both minimum dimensions positive, the fully minimised preview is exactly minWidth wide. |
| ResizeTransformer.MinimizedFootprintWithNegativeMinWidth | draggablepanel/src/main/java/com/github/pedrovgs/transformer/Transformer.java:183-189 | With minWidth = −1 the `!= 0` test and the `> 0` test disagree. The minimised height plus margin is then 80 while the resized preview occupies 230. |
| DraggableView.CodesDistinguishStates | draggablepanel/src/main/java/com/github/pedrovgs/DraggableView.java:45-49 | The five state codes are −1 to 3, and two states are equal iff their codes are. |
| DraggableView.IsMaximized | draggablepanel/src/main/java/com/github/pedrovgs/DraggableView.java:319-321 | True iff lastPosition is 0. |
| DraggableView.IsMinimized | draggablepanel/src/main/java/com/github/pedrovgs/DraggableView.java:310-312 | True iff lastPosition equals lastDragRange and that range is nonzero. |
| DraggableView.IsClosedAtRight | draggablepanel/src/main/java/com/github/pedrovgs/DraggableView.java:328-330 | True iff the drag view's left edge is at or beyond the panel width. |
| DraggableView.IsClosedAtLeft | draggablepanel/src/main/java/com/github/pedrovgs/DraggableView.java:337-339 | True iff the drag view's right edge is at or left of 0. |
| DraggableView.IsClosed | draggablepanel/src/main/java/com/github/pedrovgs/DraggableView.java:346-348 | True iff the view is closed at the left or at the right. |
| DraggableView.DragRange | draggablepanel/src/main/java/com/github/pedrovgs/DraggableView.java:820-822 | The panel height less the minimised height plus margin. |
| DraggableView.MaximizedExcludesMinimized | draggablepanel/src/main/java/com/github/pedrovgs/DraggableView.java:310-321 | The panel is never maximised and minimised at once. |
| DraggableView.CurrentState | draggablepanel/src/main/java/com/github/pedrovgs/DraggableView.java:824-834 | Priority order: MAXIMIZED iff maximised, then CLOSED iff closed at either side, then MINIMIZED, else DRAG. Each holds in both directions, and UNKNOWN is never the result. |
| DraggableView.VerticalDragOffset | draggablepanel/src/main/java/com/github/pedrovgs/DraggableView.java:802-813 | The offset always lies in [0, 1] and is 0 when the drag range is 0. Within a positive range it is top / range. It clamps to 0 above the top and to 1 below the range. |
| DraggableView.OnStateChanged | draggablepanel/src/main/java/com/github/pedrovgs/DraggableView.java:824-841 | It notifies iff a listener is set and the current state differs from the last one notified. On a notification it records the state and sets stateChanged. Otherwise the panel is unchanged. It never emits more than one notification. |
| DraggableView.OnStateChangedIdempotent | draggablepanel/src/main/java/com/github/pedrovgs/DraggableView.java:836-840 | With the geometry unchanged, a second state check notifies nobody and changes nothing. |
| DraggableView.SetStateListener | draggablepanel/src/main/java/com/github/pedrovgs/DraggableView.java:241-247 | The same listener again is a no-op. A different listener is told the current state at once; the panel records that state and raises stateChanged, and nothing else changes. No listener leaves UNKNOWN with no notification and nothing else changed. |
| DraggableView.OnConfigurationChanged | draggablepanel/src/main/java/com/github/pedrovgs/DraggableView.java:260-265 | It raises the configuration flag and changes nothing else. |
| DraggableView.OnLayout | draggablepanel/src/main/java/com/github/pedrovgs/DraggableView.java:483-506 | The panel always takes the size right − left by bottom − top, and both flags are always cleared. After a configuration change the drag view is placed at the drag range of the new size and the drag is aborted, so the panel is minimised iff that range is nonzero. Otherwise it stays at its top, with the range re-measured. Outside that branch nothing else changes. It never notifies. |
| DraggableView.LayoutKeepsOtherFields | draggablepanel/src/main/java/com/github/pedrovgs/DraggableView.java:483-506 | A layout pass changes only the drag view's placement, the panel's size, lastPosition, lastDragRange and the two flags. |
| DraggableView.OnViewPositionChanged | draggablepanel/src/main/java/com/github/pedrovgs/DraggableView.java:508-528 | It records the new top and range. The preview is rescaled unless the panel was minimised with no configuration change pending. Reaching the top from elsewhere requests a layout. At most one notification is emitted, exactly when the listener has not yet heard the new state. A notification raises stateChanged; without one the flag is unchanged. |
| DraggableView.PositionEffects | draggablepanel/src/main/java/com/github/pedrovgs/DraggableView.java:509-520 | The preview is rescaled iff the panel is not minimised or a configuration change is pending. A layout is requested iff the view reaches the top from elsewhere. Neither is a notification. |
| DraggableView.PositionChangeKeepsOtherFields | draggablepanel/src/main/java/com/github/pedrovgs/DraggableView.java:508-528 | A position change alters only the geometry, lastPosition, lastDragRange, lastNotifiedState and stateChanged. |
| DraggableView.CalculateSlideTargetY | draggablepanel/src/main/java/com/github/pedrovgs/DraggableView.java:784-786 | The slide target is paddingTop at offset 0 and paddingTop + range at offset 1. For offsets in [0, 1] and a non-negative range it lies between those two. |
| DraggableView.SmoothSlideTo | draggablepanel/src/main/java/com/github/pedrovgs/DraggableView.java:770-782 | A slide requests the drag helper to move to the computed target and remembers that target and the offset. |
| DraggableView.SlideTargetWithinRange | draggablepanel/src/main/java/com/github/pedrovgs/DraggableView.java:784-786 | The truncated interpolation stays inside [lo, lo + range]. |
| DraggableView.SlideTargetAtEnds | draggablepanel/src/main/java/com/github/pedrovgs/DraggableView.java:784-786 | The interpolation's ends are exactly the range's ends. |
| DraggableView.Maximize | draggablepanel/src/main/java/com/github/pedrovgs/DraggableView.java:270-272 | It requests one slide, to offset 0 and the top padding, with no notification. The panel only remembers that slide's target and offset; nothing else changes. |
| DraggableView.Minimize | draggablepanel/src/main/java/com/github/pedrovgs/DraggableView.java:278-280 | It requests one slide, to offset 1 and paddingTop + drag range, with no notification. The panel only remembers that slide's target and offset; nothing else changes. |
| DraggableView.CloseToRight | draggablepanel/src/main/java/com/github/pedrovgs/DraggableView.java:286-291 | It requests a slide off to the right at the minimised row. The panel is unchanged and nobody is notified. |
| DraggableView.CloseToLeft | draggablepanel/src/main/java/com/github/pedrovgs/DraggableView.java:297-303 | It requests a slide off to the left at the minimised row. Once the slide starts, the listener is checked, and notified only of a state it has not heard. |
| DraggableView.CloseTargetsMirror | draggablepanel/src/main/java/com/github/pedrovgs/DraggableView.java:286-303 | The two close targets mirror each other horizontally. Both lie on the row a minimising slide targets, less the top padding. |
| DraggableView.ShouldMaximizeOnClick | draggablepanel/src/main/java/com/github/pedrovgs/DraggableView.java:458-462 | A touch is a tap iff it moved less than 10 horizontally, is not a move and hit the resizable view. |
| DraggableView.AnalyzeTouchToMaximizeIfNeeded | draggablepanel/src/main/java/com/github/pedrovgs/DraggableView.java:438-462 | DOWN records x. A release acts iff it moved less than 10, hit the view, and the panel is minimised with click-to-maximize on or maximised with click-to-minimize on. Acting is exactly a maximise request from a minimised panel and a minimise request otherwise; a release that does not act changes nothing. Other actions do nothing. |
| DraggableView.SlideHorizontally | draggablepanel/src/main/java/com/github/pedrovgs/DraggableView.java:188-194 | Touch is enabled iff the drawer offset is ≤ 0.1. A slide is requested iff the offset exceeds 0.1 and the panel is maximised and not closed; it is then exactly a minimise request, panel included. Otherwise only touch changes. The panel then moves to drawerWidth − abs(drawerPosition). |
| DraggableView.IsViewHit | draggablepanel/src/main/java/com/github/pedrovgs/DraggableView.java:683-694 | A point is on a view iff its screen position lies in the view's half-open rectangle. |
| DraggableView.EmptyViewNeverHit | draggablepanel/src/main/java/com/github/pedrovgs/DraggableView.java:683-694 | A view with no width or no height is never hit. |
| DraggableView.CornersOfHitArea | draggablepanel/src/main/java/com/github/pedrovgs/DraggableView.java:683-694 | The hit area is half-open. The view's top-left corner is hit and its bottom-right corner is not. |
| DraggableView.AdjacentViewsNeverBothHit | draggablepanel/src/main/java/com/github/pedrovgs/DraggableView.java:683-694 | Two views sharing an edge never both claim the same point. |
| PanelRun.PositionReportsOnlyChanges | draggablepanel/src/main/java/com/github/pedrovgs/DraggableView.java:508-528 | A position change reports at most one state. That state is not UNKNOWN, differs from the last one reported, and is remembered. |
| PanelRun.CloseLeftReportsOnlyChanges | draggablepanel/src/main/java/com/github/pedrovgs/DraggableView.java:297-303 | The same holds for closing to the left. |
| PanelRun.StepReportsOnlyChanges | draggablepanel/src/main/java/com/github/pedrovgs/DraggableView.java:824-841 | Every callback or request other than installing a listener reports only changes and keeps the listener. |
| PanelRun.NewListenerHearsCurrentState | draggablepanel/src/main/java/com/github/pedrovgs/DraggableView.java:241-247 | A newly installed listener is told the current state, even if the previous listener already heard it. |
| PanelRun.NotificationsNeverRepeat | draggablepanel/src/main/java/com/github/pedrovgs/DraggableView.java:824-841 | The run keeps its listener. Across it no state is reported twice in a row and UNKNOWN is never reported. The first report differs from the state last reported before the run. The panel ends up remembering the last report. |
| PanelRun.SilentWithoutListener | draggablepanel/src/main/java/com/github/pedrovgs/DraggableView.java:836-840 | With no listener installed, and none installed during the run, nothing is ever notified. |
| PanelRun.RepeatedPositionNotifiesOnce | draggablepanel/src/main/java/com/github/pedrovgs/DraggableView.java:508-528 | The drag helper reports the same position twice. The listener is notified at most once. |

## Left out

- Touch interception and dispatch (`onInterceptTouchEvent`, `onTouchEvent`, `cloneMotionEventWithAction`) depend on `MotionEvent` and the drag helper. Only their decision rules are modelled. Whether the resizable view was hit is a parameter.
- Animation and settling (`computeScroll`, the drag helper's `smoothSlideViewTo`, `continueSettling`, `abort`) are platform primitives. They appear as the effects `SlideRequested`, `CloseRequested` and `DragAborted`. Whether a slide actually started is the parameter `started` of `CloseToLeft`.
- Fragment attachment and XML attribute reading (`attachTopFragment`, `mapGUI`, `initializeAttributes`, `initializeTransformer`) are framework wiring.
- The transformer factory and the drag-helper callback class, which calls `onViewPositionChanged`, are not part of this model.
- `ScaleTransformer` only forwards computed values to view setters, so it is left out.
- The alpha and second-view effects of `onViewPositionChanged` are cosmetic float effects that carry no state. These are `changeDragViewAlpha`, `changeBackgroundAlpha`, `changeSecondViewAlpha`, `restoreAlpha` and `changeSecondViewPosition`. So is `isAboveTheMiddle`. Only the preview rescale (`ScaleUpdated`) is kept. The `setY` of the second view in the maximised branch of `onLayout` is left out for the same reason.
- The geometry passed to the super class's `onLayout` is left out. The bottom edges given to `dragView.layout` and `secondView.layout` are left out too. The model records only the drag view's left, top and right.
- `getViewRightPosition` in the resize strategy is never called, so it is left out.
- IEEE-754 single precision is not modelled: floats are exact reals. The constant 0.1f is the real 0.1, and no NaN or infinity arises.
- Transformer.CalculateScale: requires a nonzero factor. Java would return infinity or NaN for a zero factor, which the real model cannot represent.
- ResizeTransformer.UpdateScaleAndPosition: requires usable, nonzero factors at a nonzero offset, for the same reason.
- Transformer.MinHeightPlusMargin: requires a nonzero vertical factor when a minimum dimension is zero, for the same reason. Its contract covers only the fixed-size branch. The other branch is stated by MinHeightPlusMarginFromFactor.
- Transformer.SetMarginRight: requires an int argument. `Math.round` of an int goes through a float in Java, which loses precision above 2^24, and this is not modelled.
- Transformer.SetMarginBottom: requires an int argument, for the same reason.
- The model uses unbounded integers for sums of pixel coordinates, such as `paddingTop + range` and `height − minHeightPlusMargin`. Java's 32-bit wrap-around of those sums is not modelled. Endpoint contracts that depend on the cast carry an `IsInt` hypothesis instead.
- Re-entrant listeners are not modelled. A listener that calls back into the panel from `onStateChanged` is assumed not to do so.
- ResizeTransformer.ResizedLengthReachesTarget: the exact equality holds for exact reals only. In single precision the factor and the scale are rounded, and the cast can come out one pixel short. For example, with originalHeight 8 and minHeight 7, 8 × (1 / (8/7f)) is 6.9999995 and casts to 6.
- ResizeTransformer.MinimizedFootprint: the equality can likewise miss by one pixel in single precision, because the resized height is cast from a rounded product while the minimised height is the configured int.
- ResizeTransformer.MinimizedWidth: the same one-pixel single-precision caveat applies.
- The system-UI visibility listener (DraggableView.java lines 111-119) is left out. It is the only reader of `lastSlideTargetY` and `lastSlideOffset`, which the model records but never reads.
- `Geometry.minHeightPlusMargin` is a free input of the state machine. It is not tied to `Transformer.MinHeightPlusMargin`, which computes it in the widget.
- DraggableView.OnLayout: the panel's size is taken from the layout bounds, but the drag view is not re-measured. `minHeightPlusMargin` and `originalWidth`, which come from the drag view's measured size, keep their values across a layout pass.
- `lastDragRange` is a Java `float` that only ever holds an int-valued drag range, so it is modelled as an int.
- The margin getters just return the stored field, so they are the datatype's field access.
