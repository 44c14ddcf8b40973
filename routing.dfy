/**
 * The event manager's routing as functions of its state: the Z-order hit
 * test and hover tracking (Dispatch), click and tooltip resolution (Handle),
 * the world handler (WorldCalls) and the arbiter that chains them (Check).
 * The EventManager class is proved to do exactly what these say.
 */
module Routing {
  import opened Input

  /** An element the UI dispatcher may route to: under the point, interactive and visible. */
  predicate Eligible(el: UiElement, x: int, y: int) {
    el.mouseOver(x, y) && el.actionId != NoAction && el.visible
  }

  /**
   * The Z-order hit test: the index of the topmost (highest-index) eligible
   * element, or None when no element is eligible.
   */
  function Topmost(elements: seq<UiElement>, x: int, y: int): (r: Option<nat>)
    ensures r.Some? ==> r.value < |elements| && Eligible(elements[r.value], x, y)
    ensures r.Some? ==> forall j :: r.value < j < |elements| ==> !Eligible(elements[j], x, y)
    ensures r.None? <==> forall j :: 0 <= j < |elements| ==> !Eligible(elements[j], x, y)
    decreases |elements|
  {
    if |elements| == 0 then None
    else if Eligible(elements[|elements| - 1], x, y) then Some(|elements| - 1)
    else Topmost(elements[..|elements| - 1], x, y)
  }

  /** The leave call owed to the hovered element, if any. */
  function LeaveOf(hover: Option<nat>): seq<Command> {
    if hover.Some? then [MouseLeave(hover.value)] else []
  }

  /** What the UI dispatcher decides: whether it claimed the event, the new hover, the calls made. */
  datatype Dispatched = Dispatched(claimed: bool, hover: Option<nat>, calls: seq<Command>)

  /**
   * The UI dispatcher. Only the topmost eligible element is offered the
   * event: on motion it becomes the hovered element (after a leave of the
   * previous one) when the cursor hovers it; on a button press or release it
   * gets the down or up call. Afterwards, unless the cursor hovers the
   * topmost eligible element, the hovered element gets a leave and hover is
   * cleared.
   */
  function Dispatch(hover: Option<nat>, elements: seq<UiElement>, e: Event): Dispatched {
    match Topmost(elements, e.x, e.y)
    case None => Dispatched(false, None, LeaveOf(hover))
    case Some(i) =>
      var hovering := elements[i].hovering(e.x, e.y);
      var entered := e.kind.Motion? && hover != Some(i) && hovering;
      var hover' := if entered then Some(i) else hover;
      var calls :=
        match e.kind
        case Motion => if entered then LeaveOf(hover) + [MouseEnter(i)] else []
        case ButtonDown(_) => [MouseButtonDown(i)]
        case ButtonUp(_) => [MouseButtonUp(i)]
        case _ => [];
      if hovering then Dispatched(true, hover', calls)
      else Dispatched(true, None, calls + LeaveOf(hover'))
  }

  /** Action 2: raise mode is switched off, any other mode becomes raise. */
  function ToggleRaise(mode: TerrainMode): (r: TerrainMode)
    ensures r == TerrainRaise <==> mode != TerrainRaise
    ensures r != TerrainLower
  {
    if mode == TerrainRaise then NoTerrainEdit else TerrainRaise
  }

  /** Action 3: lower mode is switched off, any other mode becomes lower. */
  function ToggleLower(mode: TerrainMode): (r: TerrainMode)
    ensures r == TerrainLower <==> mode != TerrainLower
    ensures r != TerrainRaise
  {
    if mode == TerrainLower then NoTerrainEdit else TerrainLower
  }

  /** The terrain-edit mode after a click resolved against an element with this action id. */
  function ApplyAction(mode: TerrainMode, actionId: int): (r: TerrainMode)
    ensures actionId != RaiseToggle && actionId != LowerToggle ==> r == mode
  {
    if actionId == RaiseToggle then ToggleRaise(mode)
    else if actionId == LowerToggle then ToggleLower(mode)
    else mode
  }

  /** The element the click query finds at a point, if any. */
  function ClickedElement(ui: Ui, x: int, y: int): (r: Option<UiElement>)
    requires ui.WellFormed()
    ensures r.Some? <==> ui.clickedAt(x, y).Some?
  {
    match ui.clickedAt(x, y)
    case None => None
    case Some(k) => Some(ui.elements[k])
  }

  /**
   * The tooltip after a motion to (x, y): shown with the clicked element's
   * text, its bottom edge on the cursor and centred on it horizontally, with
   * its timer restarted, when that element has a tooltip text; hidden (and
   * otherwise untouched) when it has none or there is no clicked element.
   */
  function TooltipOnMotion(t: Tooltip, clicked: Option<UiElement>, ui: Ui, x: int, y: int): (r: Tooltip)
    ensures r.visible <==> clicked.Some? && clicked.value.tooltipText != ""
    ensures r.visible ==>
      var size := ui.tooltipSize(r.text);
      r.text == clicked.value.tooltipText
      && r.x + size.w / 2 == x && r.y + size.h == y
      && r.timerStarts == t.timerStarts + 1
    ensures !r.visible ==> r == t.(visible := false)
  {
    if clicked.Some? && clicked.value.tooltipText != "" then
      var text := clicked.value.tooltipText;
      var size := ui.tooltipSize(text);
      Tooltip(text, x - size.w / 2, y - size.h, true, t.timerStarts + 1)
    else
      t.(visible := false)
  }

  /** What the click handler decides and changes. */
  datatype Handled = Handled(handled: bool, handling: bool, mode: TerrainMode, tooltip: Tooltip, calls: seq<Command>)

  /**
   * The click handler. Motion updates the tooltip; a left press on a clicked
   * element starts a gesture; any release ends the gesture and, when it is a
   * left release on a clicked element, resolves that element's action and
   * claims the event.
   */
  function Handle(handling: bool, mode: TerrainMode, t: Tooltip, ui: Ui, e: Event): Handled
    requires ui.WellFormed()
  {
    var clicked := ClickedElement(ui, e.x, e.y);
    match e.kind
    case Motion =>
      Handled(false, handling, mode, TooltipOnMotion(t, clicked, ui, e.x, e.y), [])
    case ButtonDown(b) =>
      Handled(false, handling || (b == Left && clicked.Some?), mode, t, [])
    case ButtonUp(b) =>
      if b == Left && clicked.Some? then
        var el := clicked.value;
        var calls := if el.actionId == ComboBox then [LogComboClick(el.clickedId(e.x, e.y))] else [];
        Handled(true, false, ApplyAction(mode, el.actionId), t, calls)
      else
        Handled(false, false, mode, t, [])
    case _ =>
      Handled(false, handling, mode, t, [])
  }

  /**
   * How many times the `for (i = 0; i <= maxElevation; i++)` loop runs: the
   * first index from 0 up at which the loop condition fails.
   */
  function BenchmarkCount(maxElevation: int): (n: nat)
    ensures !(n <= maxElevation)
    ensures n == 0 || n - 1 <= maxElevation
  {
    if maxElevation >= 0 then maxElevation + 1 else 0
  }

  /** n copies of a command. */
  function Repeat(c: Command, n: nat): (r: seq<Command>)
    ensures |r| == n
    ensures forall k :: 0 <= k < n ==> r[k] == c
  {
    if n == 0 then [] else Repeat(c, n - 1) + [c]
  }

  /** The calls a key press makes on the world. */
  function KeyCalls(key: Key, maxElevation: int): seq<Command> {
    match key
    case Escape => [TogglePauseMenu]
    case Digit0 => [ToggleLayer(Grid)]
    case F11 => [ToggleDebugMenu]
    case Digit1 => [ToggleLayer(Floor)]
    case Digit2 => [ToggleLayer(Buildings)]
    case Digit3 => [ToggleLayer(Selection)]
    case LetterF => [ToggleFullScreen]
    case LetterB =>
      [LogBenchmarkStart] + Repeat(IncreaseHeight(BenchmarkCell), BenchmarkCount(maxElevation)) + [LogBenchmarkDone]
    case OtherKey(_) => []
  }

  /** The calls a mouse press makes on the world, by button and terrain-edit mode. */
  function ButtonCalls(b: Button, mode: TerrainMode, world: World, x: int, y: int): seq<Command> {
    var cell := world.toIso(x, y);
    if b == Left then
      if world.inBounds(cell) then
        if mode == TerrainRaise then [IncreaseHeight(cell)]
        else if mode == TerrainLower then [DecreaseHeight(cell)]
        else [LogClick(cell)]
      else []
    else if b == Right then [CenterOn(cell)]
    else []
  }

  /** The world handler: the calls an event nobody in the UI claimed makes on the world. */
  function WorldCalls(e: Event, mode: TerrainMode, world: World, maxElevation: int): seq<Command> {
    match e.kind
    case Quit => [QuitGame]
    case KeyDown(key) => KeyCalls(key, maxElevation)
    case ButtonDown(b) => ButtonCalls(b, mode, world, e.x, e.y)
    case Wheel(dy) => if dy > 0 then [ZoomIn] else if dy < 0 then [ZoomOut] else []
    case _ => []
  }

  /** The part of the event manager's state that routing reads and writes. */
  datatype Snapshot = Snapshot(hover: Option<nat>, handling: bool, mode: TerrainMode, tooltip: Tooltip)

  /** A state and the calls made on the way to it. */
  datatype Outcome = Outcome(state: Snapshot, calls: seq<Command>)

  /**
   * The arbiter: with no polled event nothing happens; otherwise the UI
   * dispatcher, then (only if it did not claim the event) the click handler,
   * then (only if neither claimed it and no gesture is in progress after the
   * click handler ran) the world handler.
   */
  function Check(s: Snapshot, maxElevation: int, ui: Ui, world: World, polled: Option<Event>): Outcome
    requires ui.WellFormed()
  {
    match polled
    case None => Outcome(s, [])
    case Some(e) =>
      var d := Dispatch(s.hover, ui.elements, e);
      if d.claimed then Outcome(s.(hover := d.hover), d.calls)
      else
        var h := Handle(s.handling, s.mode, s.tooltip, ui, e);
        var s' := Snapshot(d.hover, h.handling, h.mode, h.tooltip);
        if h.handled || h.handling then Outcome(s', d.calls + h.calls)
        else Outcome(s', d.calls + h.calls + WorldCalls(e, h.mode, world, maxElevation))
  }

  /** The world commands among a sequence of calls, in order. */
  function WorldPart(calls: seq<Command>): (r: seq<Command>)
    ensures |r| <= |calls|
    ensures forall c :: c in r ==> c.IsWorld() && c in calls
  {
    if calls == [] then []
    else if calls[|calls| - 1].IsWorld() then WorldPart(calls[..|calls| - 1]) + [calls[|calls| - 1]]
    else WorldPart(calls[..|calls| - 1])
  }

  /** Feeding a stream of polled events to the arbiter one after another. */
  function Run(s: Snapshot, maxElevation: int, ui: Ui, world: World, events: seq<Event>): Outcome
    requires ui.WellFormed()
    decreases |events|
  {
    if events == [] then Outcome(s, [])
    else
      var first := Check(s, maxElevation, ui, world, Some(events[0]));
      var rest := Run(first.state, maxElevation, ui, world, events[1..]);
      Outcome(rest.state, first.calls + rest.calls)
  }
}
