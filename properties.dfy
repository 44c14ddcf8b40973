/**
 * What the event manager guarantees, stated and proved over the functions
 * of module Routing (which the EventManager class is proved to follow).
 */
module RoutingProperties {
  import opened Input
  import opened Routing

  // ---------------------------------------------------------------------
  // The UI dispatcher: Z-order hit test and hover tracking
  // ---------------------------------------------------------------------

  /** The hit test picks the one eligible element with nothing eligible above it. */
  lemma TopmostIsUnique(elements: seq<UiElement>, x: int, y: int, k: nat)
    requires k < |elements| && Eligible(elements[k], x, y)
    ensures Topmost(elements, x, y) == Some(k) <==> forall j :: k < j < |elements| ==> !Eligible(elements[j], x, y)
  {
  }

  /** The dispatcher claims the event exactly when some element is eligible at its position. */
  lemma DispatchClaimsIffEligible(hover: Option<nat>, elements: seq<UiElement>, e: Event)
    ensures Dispatch(hover, elements, e).claimed
      <==> exists j :: 0 <= j < |elements| && Eligible(elements[j], e.x, e.y)
  {
  }

  /**
   * Only the topmost eligible element receives enter, down or up calls; the
   * only leave goes to the previously hovered element; at most one leave is
   * made and it is never made after an enter.
   */
  lemma DispatchTouchesOnlyTopmost(hover: Option<nat>, elements: seq<UiElement>, e: Event)
    ensures forall c :: c in Dispatch(hover, elements, e).calls ==>
      !c.IsWorld() && !c.LogComboClick?
      && (c.MouseLeave? ==> hover == Some(c.element))
      && (c.MouseEnter? || c.MouseButtonDown? || c.MouseButtonUp? ==>
            Topmost(elements, e.x, e.y) == Some(c.element))
    ensures forall a, b :: 0 <= a < b < |Dispatch(hover, elements, e).calls| ==>
      !(Dispatch(hover, elements, e).calls[a].MouseLeave? && Dispatch(hover, elements, e).calls[b].MouseLeave?)
      && !(Dispatch(hover, elements, e).calls[a].MouseEnter? && Dispatch(hover, elements, e).calls[b].MouseLeave?)
  {
    var d := Dispatch(hover, elements, e);
    match Topmost(elements, e.x, e.y)
    case None =>
      assert d.calls == LeaveOf(hover);
    case Some(i) =>
      var hovering := elements[i].hovering(e.x, e.y);
      var entered := e.kind.Motion? && hover != Some(i) && hovering;
      if entered {
        assert d.calls == LeaveOf(hover) + [MouseEnter(i)];
      } else if e.kind.Motion? {
        assert d.calls == if hovering then [] else LeaveOf(hover);
      }
  }

  /**
   * A press or release over the topmost eligible element sends that element
   * exactly one down or up call, first; the only other call is a leave of the
   * previous hover when the cursor does not hover the element.
   */
  lemma PressAndReleaseReachTopmost(hover: Option<nat>, elements: seq<UiElement>, e: Event, i: nat)
    requires e.kind.ButtonDown? || e.kind.ButtonUp?
    requires Topmost(elements, e.x, e.y) == Some(i)
    ensures var calls := Dispatch(hover, elements, e).calls;
      && 1 <= |calls| <= 2
      && calls[0] == (if e.kind.ButtonDown? then MouseButtonDown(i) else MouseButtonUp(i))
      && (|calls| == 2 <==> !elements[i].hovering(e.x, e.y) && hover.Some?)
      && (|calls| == 2 ==> calls[1] == MouseLeave(hover.value))
  {
  }

  /**
   * After a motion event the hovered element is the topmost eligible element
   * when the cursor hovers it, and nothing otherwise: no stale hover
   * survives a motion.
   */
  lemma HoverAfterMotion(hover: Option<nat>, elements: seq<UiElement>, e: Event)
    requires e.kind.Motion?
    ensures var top := Topmost(elements, e.x, e.y);
      Dispatch(hover, elements, e).hover
        == if top.Some? && elements[top.value].hovering(e.x, e.y) then top else None
  {
  }

  /**
   * After any event, a hovered element exists only while the cursor hovers
   * the topmost eligible element, and it is either that element or the one
   * hovered before. An event other than motion keeps the previous hover
   * exactly when the cursor hovers the topmost eligible element, and clears
   * it otherwise.
   */
  lemma HoverAfterAnyEvent(hover: Option<nat>, elements: seq<UiElement>, e: Event)
    ensures var d := Dispatch(hover, elements, e); var top := Topmost(elements, e.x, e.y);
      d.hover.Some? ==>
        top.Some? && elements[top.value].hovering(e.x, e.y) && (d.hover == hover || d.hover == top)
    ensures var top := Topmost(elements, e.x, e.y);
      !e.kind.Motion? ==>
        Dispatch(hover, elements, e).hover
          == if top.Some? && elements[top.value].hovering(e.x, e.y) then hover else None
  {
  }

  /**
   * A button event over a hovered element keeps the previous hover even when
   * that is another element: two elements eligible and hovered everywhere,
   * element 0 hovered, a left press lands on element 1 and element 0 stays
   * the hovered one.
   */
  lemma ButtonEventKeepsPreviousHover()
    ensures var el := UiElement(true, 1, "", (x, y) => true, (x, y) => true, (x, y) => 0);
      var e := Event(ButtonDown(Left), 0, 0);
      Topmost([el, el], 0, 0) == Some(1) && Dispatch(Some(0), [el, el], e).hover == Some(0)
  {
  }

  /** Motion onto a newly hovered element: one leave of the old hover (if any), then the enter. */
  lemma MotionOntoNewElement(hover: Option<nat>, elements: seq<UiElement>, e: Event, i: nat)
    requires e.kind.Motion? && Topmost(elements, e.x, e.y) == Some(i)
    requires elements[i].hovering(e.x, e.y) && hover != Some(i)
    ensures Dispatch(hover, elements, e) == Dispatched(true, Some(i), LeaveOf(hover) + [MouseEnter(i)])
  {
  }

  /** Motion that keeps hovering the same element makes no enter or leave call. */
  lemma MotionOnSameElement(elements: seq<UiElement>, e: Event, i: nat)
    requires e.kind.Motion? && Topmost(elements, e.x, e.y) == Some(i)
    requires elements[i].hovering(e.x, e.y)
    ensures Dispatch(Some(i), elements, e) == Dispatched(true, Some(i), [])
  {
  }

  /** Motion over no eligible element: the hovered element (if any) gets a leave and hover is cleared. */
  lemma MotionOffAllElements(hover: Option<nat>, elements: seq<UiElement>, e: Event)
    requires e.kind.Motion? && forall j :: 0 <= j < |elements| ==> !Eligible(elements[j], e.x, e.y)
    ensures Dispatch(hover, elements, e) == Dispatched(false, None, LeaveOf(hover))
  {
  }

  // ---------------------------------------------------------------------
  // The click handler: gesture flag, terrain-edit mode, tooltip
  // ---------------------------------------------------------------------

  /**
   * The click handler claims exactly the left releases over an element the
   * click query finds, whatever that element's action id.
   */
  lemma HandledIffLeftReleaseOnElement(handling: bool, mode: TerrainMode, t: Tooltip, ui: Ui, e: Event)
    requires ui.WellFormed()
    ensures Handle(handling, mode, t, ui, e).handled
      <==> e.kind == ButtonUp(Left) && ui.clickedAt(e.x, e.y).Some?
  {
  }

  /**
   * The gesture flag is set only by a left press over a clicked element,
   * cleared by every release (any button, element or not), and left alone
   * by every other event.
   */
  lemma GestureFlag(handling: bool, mode: TerrainMode, t: Tooltip, ui: Ui, e: Event)
    requires ui.WellFormed()
    ensures var h := Handle(handling, mode, t, ui, e).handling;
      && (e.kind == ButtonDown(Left) && ui.clickedAt(e.x, e.y).Some? ==> h)
      && (e.kind.ButtonUp? ==> !h)
      && (!(e.kind == ButtonDown(Left) && ui.clickedAt(e.x, e.y).Some?) && !e.kind.ButtonUp? ==> h == handling)
  {
  }

  /**
   * The terrain-edit mode changes only on a claimed release, and then as the
   * clicked element's action says; ids other than 2 and 3 (the combo box 5
   * included) leave it as it was. Only the combo box logs, and it logs the
   * row clicked at the event's position.
   */
  lemma HandleModeAndLog(handling: bool, mode: TerrainMode, t: Tooltip, ui: Ui, e: Event)
    requires ui.WellFormed()
    ensures var h := Handle(handling, mode, t, ui, e);
      && (!h.handled ==> h.mode == mode && h.calls == [])
      && (h.handled ==>
            var el := ui.elements[ui.clickedAt(e.x, e.y).value];
            h.mode == ApplyAction(mode, el.actionId)
            && h.calls == if el.actionId == ComboBox then [LogComboClick(el.clickedId(e.x, e.y))] else [])
      && (!e.kind.Motion? ==> h.tooltip == t)
  {
  }

  /**
   * The raise toggle twice restores raise or no-edit mode, but from lower
   * mode it ends in no-edit mode; the raise toggle followed by the lower
   * toggle always ends in lower mode (and symmetrically).
   */
  lemma ToggleSequences(mode: TerrainMode)
    ensures mode != TerrainLower ==> ApplyAction(ApplyAction(mode, RaiseToggle), RaiseToggle) == mode
    ensures mode == TerrainLower ==> ApplyAction(ApplyAction(mode, RaiseToggle), RaiseToggle) == NoTerrainEdit
    ensures mode != TerrainRaise ==> ApplyAction(ApplyAction(mode, LowerToggle), LowerToggle) == mode
    ensures mode == TerrainRaise ==> ApplyAction(ApplyAction(mode, LowerToggle), LowerToggle) == NoTerrainEdit
    ensures ApplyAction(ApplyAction(mode, RaiseToggle), LowerToggle) == TerrainLower
    ensures ApplyAction(ApplyAction(mode, LowerToggle), RaiseToggle) == TerrainRaise
  {
  }

  // ---------------------------------------------------------------------
  // The world handler
  // ---------------------------------------------------------------------

  /** The wheel zooms in once for a positive delta, out once for a negative one, and not at all for zero. */
  lemma WheelZoomsOnce(dy: int, x: int, y: int, mode: TerrainMode, world: World, maxElevation: int)
    ensures var calls := WorldCalls(Event(Wheel(dy), x, y), mode, world, maxElevation);
      (dy > 0 <==> calls == [ZoomIn]) && (dy < 0 <==> calls == [ZoomOut]) && (dy == 0 <==> calls == [])
  {
  }

  /**
   * A left press edits the clicked cell only when it is within bounds:
   * raises it in raise mode, lowers it in lower mode, and otherwise only
   * logs it.
   */
  lemma LeftPressEditsTerrain(x: int, y: int, mode: TerrainMode, world: World, maxElevation: int)
    ensures var cell := world.toIso(x, y);
      var calls := WorldCalls(Event(ButtonDown(Left), x, y), mode, world, maxElevation);
      && (!world.inBounds(cell) ==> calls == [])
      && (IncreaseHeight(cell) in calls <==> world.inBounds(cell) && mode == TerrainRaise)
      && (DecreaseHeight(cell) in calls <==> world.inBounds(cell) && mode == TerrainLower)
      && (world.inBounds(cell) && mode == NoTerrainEdit ==> calls == [LogClick(cell)])
      && |calls| <= 1
  {
  }

  /** A right press centres the view on the clicked cell, whatever the mode and the bounds. */
  lemma RightPressCentres(x: int, y: int, mode: TerrainMode, world: World, maxElevation: int)
    ensures WorldCalls(Event(ButtonDown(Right), x, y), mode, world, maxElevation) == [CenterOn(world.toIso(x, y))]
  {
  }

  /** How often a command occurs among the calls. */
  function Occurrences(calls: seq<Command>, c: Command): (n: nat)
    ensures n <= |calls|
  {
    if calls == [] then 0
    else Occurrences(calls[..|calls| - 1], c) + (if calls[|calls| - 1] == c then 1 else 0)
  }

  /** A command occurs zero times exactly when it is not among the calls. */
  lemma {:induction false} OccurrencesZeroIffAbsent(calls: seq<Command>, c: Command)
    ensures Occurrences(calls, c) == 0 <==> c !in calls
    decreases |calls|
  {
    if calls != [] {
      var init := calls[..|calls| - 1];
      assert calls == init + [calls[|calls| - 1]];
      OccurrencesZeroIffAbsent(init, c);
    }
  }

  lemma {:induction false} OccurrencesAppend(a: seq<Command>, b: seq<Command>, c: Command)
    ensures Occurrences(a + b, c) == Occurrences(a, c) + Occurrences(b, c)
    decreases |b|
  {
    if b == [] {
      assert a + b == a;
    } else {
      assert (a + b)[..|a + b| - 1] == a + b[..|b| - 1];
      OccurrencesAppend(a, b[..|b| - 1], c);
    }
  }

  /** n copies of a command are n - 1 copies followed by one more. */
  lemma RepeatSplit(c: Command, n: nat)
    requires n > 0
    ensures Repeat(c, n)[..n - 1] == Repeat(c, n - 1)
    ensures Repeat(c, n)[n - 1] == c
  {
    var r := Repeat(c, n - 1);
    assert Repeat(c, n) == r + [c];
    assert (r + [c])[..|r|] == r;
  }

  lemma {:induction false} OccurrencesRepeat(c: Command, d: Command, n: nat)
    ensures Occurrences(Repeat(c, n), d) == if c == d then n else 0
  {
    if n > 0 {
      var calls := Repeat(c, n);
      RepeatSplit(c, n);
      OccurrencesRepeat(c, d, n - 1);
      assert Occurrences(calls, d) == Occurrences(calls[..n - 1], d) + (if c == d then 1 else 0);
    }
  }

  /** How often the benchmark key's calls hold a given command. */
  lemma BenchmarkOccurrences(maxElevation: int, c: Command)
    requires !c.LogBenchmarkStart? && !c.LogBenchmarkDone?
    ensures Occurrences(KeyCalls(LetterB, maxElevation), c)
      == if c == IncreaseHeight(BenchmarkCell) then BenchmarkCount(maxElevation) else 0
  {
    var raises := Repeat(IncreaseHeight(BenchmarkCell), BenchmarkCount(maxElevation));
    OccurrencesAppend([LogBenchmarkStart] + raises, [LogBenchmarkDone], c);
    OccurrencesAppend([LogBenchmarkStart], raises, c);
    OccurrencesRepeat(IncreaseHeight(BenchmarkCell), c, BenchmarkCount(maxElevation));
  }

  /**
   * The benchmark key raises the benchmark cell exactly maxElevation + 1
   * times (never, for a negative maximum) and changes no other cell.
   */
  lemma BenchmarkRaises(maxElevation: int, cell: Point)
    ensures var calls := KeyCalls(LetterB, maxElevation);
      && Occurrences(calls, IncreaseHeight(BenchmarkCell)) == BenchmarkCount(maxElevation)
      && (cell != BenchmarkCell ==> Occurrences(calls, IncreaseHeight(cell)) == 0)
      && Occurrences(calls, DecreaseHeight(cell)) == 0
    ensures var calls := KeyCalls(LetterB, maxElevation);
      && (cell != BenchmarkCell ==> IncreaseHeight(cell) !in calls)
      && DecreaseHeight(cell) !in calls
  {
    var calls := KeyCalls(LetterB, maxElevation);
    BenchmarkOccurrences(maxElevation, IncreaseHeight(BenchmarkCell));
    BenchmarkOccurrences(maxElevation, IncreaseHeight(cell));
    BenchmarkOccurrences(maxElevation, DecreaseHeight(cell));
    OccurrencesZeroIffAbsent(calls, IncreaseHeight(cell));
    OccurrencesZeroIffAbsent(calls, DecreaseHeight(cell));
  }

  // ---------------------------------------------------------------------
  // The arbiter
  // ---------------------------------------------------------------------

  lemma {:induction false} WorldPartAppend(a: seq<Command>, b: seq<Command>)
    ensures WorldPart(a + b) == WorldPart(a) + WorldPart(b)
    decreases |b|
  {
    if b == [] {
      assert a + b == a;
    } else {
      assert (a + b)[..|a + b| - 1] == a + b[..|b| - 1];
      WorldPartAppend(a, b[..|b| - 1]);
    }
  }

  lemma {:induction false} WorldPartOfUiCalls(calls: seq<Command>)
    requires forall c :: c in calls ==> !c.IsWorld()
    ensures WorldPart(calls) == []
  {
    if calls != [] {
      assert calls[|calls| - 1] in calls;
      WorldPartOfUiCalls(calls[..|calls| - 1]);
    }
  }

  lemma {:induction false} WorldPartOfWorldCalls(calls: seq<Command>)
    requires forall c :: c in calls ==> c.IsWorld()
    ensures WorldPart(calls) == calls
  {
    if calls != [] {
      assert calls[|calls| - 1] in calls;
      WorldPartOfWorldCalls(calls[..|calls| - 1]);
    }
  }

  /** Everything the world handler calls is a world command. */
  lemma WorldCallsAreWorld(e: Event, mode: TerrainMode, world: World, maxElevation: int)
    ensures forall c :: c in WorldCalls(e, mode, world, maxElevation) ==> c.IsWorld()
  {
  }

  /** With no polled event, nothing changes and nothing is called. */
  lemma NoEventNoEffect(s: Snapshot, maxElevation: int, ui: Ui, world: World)
    requires ui.WellFormed()
    ensures Check(s, maxElevation, ui, world, None) == Outcome(s, [])
  {
  }

  /**
   * The world sees an event exactly when one was polled, the UI dispatcher
   * did not claim it, the click handler did not claim it, and no gesture is
   * in progress once the click handler has run; it then sees it in the
   * terrain-edit mode the click handler left.
   */
  lemma WorldRunsOnlyWhenUnclaimed(s: Snapshot, maxElevation: int, ui: Ui, world: World, e: Event)
    requires ui.WellFormed()
    ensures WorldPart(Check(s, maxElevation, ui, world, Some(e)).calls)
      == if !Dispatch(s.hover, ui.elements, e).claimed
            && !Handle(s.handling, s.mode, s.tooltip, ui, e).handled
            && !Handle(s.handling, s.mode, s.tooltip, ui, e).handling
         then WorldCalls(e, Handle(s.handling, s.mode, s.tooltip, ui, e).mode, world, maxElevation)
         else []
  {
    var d := Dispatch(s.hover, ui.elements, e);
    var h := Handle(s.handling, s.mode, s.tooltip, ui, e);
    DispatchTouchesOnlyTopmost(s.hover, ui.elements, e);
    WorldPartOfUiCalls(d.calls);
    WorldPartOfUiCalls(h.calls);
    WorldPartAppend(d.calls, h.calls);
    if !d.claimed && !h.handled && !h.handling {
      WorldCallsAreWorld(e, h.mode, world, maxElevation);
      WorldPartOfWorldCalls(WorldCalls(e, h.mode, world, maxElevation));
      WorldPartAppend(d.calls + h.calls, WorldCalls(e, h.mode, world, maxElevation));
    }
  }

  /**
   * When the dispatcher claims an event the click handler does not run: the
   * gesture flag, the terrain-edit mode and the tooltip stay as they were,
   * even for a release.
   */
  lemma DispatchClaimSkipsHandler(s: Snapshot, maxElevation: int, ui: Ui, world: World, e: Event)
    requires ui.WellFormed()
    requires Topmost(ui.elements, e.x, e.y).Some?
    ensures var o := Check(s, maxElevation, ui, world, Some(e));
      o.state == s.(hover := o.state.hover) && WorldPart(o.calls) == []
  {
    DispatchTouchesOnlyTopmost(s.hover, ui.elements, e);
    WorldPartOfUiCalls(Dispatch(s.hover, ui.elements, e).calls);
  }

  /** A gesture starts only with a left press that the dispatcher left unclaimed and that found a clicked element. */
  lemma GestureStartsOnlyOnLeftPress(s: Snapshot, maxElevation: int, ui: Ui, world: World, e: Event)
    requires ui.WellFormed()
    requires !s.handling && Check(s, maxElevation, ui, world, Some(e)).state.handling
    ensures e.kind == ButtonDown(Left) && ui.clickedAt(e.x, e.y).Some?
    ensures Topmost(ui.elements, e.x, e.y).None?
  {
  }

  /** While a gesture is in progress the world handler makes no call, whatever the event. */
  lemma GestureSuppressesWorld(s: Snapshot, maxElevation: int, ui: Ui, world: World, e: Event)
    requires ui.WellFormed() && s.handling
    ensures WorldPart(Check(s, maxElevation, ui, world, Some(e)).calls) == []
  {
    WorldRunsOnlyWhenUnclaimed(s, maxElevation, ui, world, e);
  }

  /**
   * A gesture stays open, and the world handler stays silent, through any
   * stream of events that contains no release.
   */
  lemma {:induction false} GestureHoldsUntilRelease(s: Snapshot, maxElevation: int, ui: Ui, world: World, events: seq<Event>)
    requires ui.WellFormed() && s.handling
    requires forall k :: 0 <= k < |events| ==> !events[k].kind.ButtonUp?
    ensures var o := Run(s, maxElevation, ui, world, events);
      o.state.handling && WorldPart(o.calls) == []
    decreases |events|
  {
    if events != [] {
      var first := Check(s, maxElevation, ui, world, Some(events[0]));
      GestureSuppressesWorld(s, maxElevation, ui, world, events[0]);
      GestureFlag(s.handling, s.mode, s.tooltip, ui, events[0]);
      GestureHoldsUntilRelease(first.state, maxElevation, ui, world, events[1..]);
      WorldPartAppend(first.calls, Run(first.state, maxElevation, ui, world, events[1..]).calls);
    }
  }

  /**
   * Two left releases over the raise toggle that no eligible element covers
   * restore raise or no-edit mode, and turn lower mode off.
   */
  lemma RaiseToggleClickedTwice(s: Snapshot, maxElevation: int, ui: Ui, world: World, e: Event)
    requires ui.WellFormed()
    requires e.kind == ButtonUp(Left) && Topmost(ui.elements, e.x, e.y).None?
    requires ui.clickedAt(e.x, e.y).Some? && ui.elements[ui.clickedAt(e.x, e.y).value].actionId == RaiseToggle
    ensures Run(s, maxElevation, ui, world, [e, e]).state.mode
      == if s.mode == TerrainLower then NoTerrainEdit else s.mode
  {
    var first := Check(s, maxElevation, ui, world, Some(e));
    assert first.state.mode == ToggleRaise(s.mode);
    assert [e, e][1..] == [e];
    assert Run(first.state, maxElevation, ui, world, [e]).state == Check(first.state, maxElevation, ui, world, Some(e)).state;
  }
}
