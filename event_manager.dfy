/**
 * The event manager itself: an object holding the hovered element, the
 * gesture flag, the terrain-edit mode, the tooltip and the log of every call
 * made on a collaborator. Each method updates that state step by step and is
 * proved to end in the state, and to make the calls, that the functions of
 * module Routing prescribe.
 */
module Manager {
  import opened Input
  import opened Routing

  class EventManager {
    /** The element that last received an enter call, as an index into the UI registry. */
    var lastHoveredElement: Option<nat>
    /** True while a UI element owns a mouse gesture (from a claimed left press to the next release). */
    var isHandlingMouseEvents: bool
    /** The global terrain-edit mode. */
    var terrainEditMode: TerrainMode
    var tooltip: Tooltip
    /** Every call made on a collaborator, oldest first. */
    var commands: seq<Command>
    /** The maximum elevation height setting, which bounds the benchmark loop. */
    const maxElevationHeight: int

    /** The routing state as a value. */
    function State(): Snapshot
      reads this
    {
      Snapshot(lastHoveredElement, isHandlingMouseEvents, terrainEditMode, tooltip)
    }

    /** A fresh manager: nothing hovered, no gesture in progress, nothing called yet. */
    constructor (maxElevationHeight: int, mode: TerrainMode, tooltip: Tooltip)
      ensures this.maxElevationHeight == maxElevationHeight
      ensures State() == Snapshot(None, false, mode, tooltip)
      ensures commands == []
    {
      this.maxElevationHeight := maxElevationHeight;
      lastHoveredElement := None;
      isHandlingMouseEvents := false;
      terrainEditMode := mode;
      this.tooltip := tooltip;
      commands := [];
    }

    /**
     * Polls one event and routes it: to the UI dispatcher, then the click
     * handler, then the world handler, each only if the previous ones did not
     * claim it.
     */
    method CheckEvents(polled: Option<Event>, ui: Ui, world: World)
      requires ui.WellFormed()
      modifies this
      ensures State() == Check(old(State()), maxElevationHeight, ui, world, polled).state
      ensures commands == old(commands) + Check(old(State()), maxElevationHeight, ui, world, polled).calls
    {
      if polled.Some? {
        var e := polled.value;
        var claimed := DispatchUiEvents(ui, e);
        if !claimed {
          var handled := HandleUiEvents(ui, e);
          if !handled && !isHandlingMouseEvents {
            HandleWorldEvent(e, world);
          }
        }
      }
    }

    /**
     * The Z-order hit test: walks the registry from the topmost element down
     * and offers the event to the first eligible element only; then clears a
     * hover the cursor no longer confirms. Returns whether an eligible element
     * was found.
     */
    method DispatchUiEvents(ui: Ui, e: Event) returns (isMouseOverElement: bool)
      modifies this`lastHoveredElement, this`commands
      ensures isMouseOverElement == Dispatch(old(lastHoveredElement), ui.elements, e).claimed
      ensures lastHoveredElement == Dispatch(old(lastHoveredElement), ui.elements, e).hover
      ensures commands == old(commands) + Dispatch(old(lastHoveredElement), ui.elements, e).calls
    {
      var elements := ui.elements;
      isMouseOverElement := false;
      var isHovering := false;
      var i := |elements|;
      while i > 0
        invariant 0 <= i <= |elements|
        invariant forall j :: i <= j < |elements| ==> !Eligible(elements[j], e.x, e.y)
        invariant !isMouseOverElement && !isHovering
        invariant lastHoveredElement == old(lastHoveredElement) && commands == old(commands)
        decreases i
      {
        i := i - 1;
        var it := elements[i];
        if it.mouseOver(e.x, e.y) && it.actionId != NoAction && it.visible {
          assert Topmost(elements, e.x, e.y) == Some(i);
          isMouseOverElement := true;
          isHovering := it.hovering(e.x, e.y);
          match e.kind {
            case Motion =>
              if lastHoveredElement != Some(i) && isHovering {
                if lastHoveredElement.Some? {
                  commands := commands + [MouseLeave(lastHoveredElement.value)];
                }
                commands := commands + [MouseEnter(i)];
                lastHoveredElement := Some(i);
              }
            case ButtonDown(_) =>
              commands := commands + [MouseButtonDown(i)];
            case ButtonUp(_) =>
              commands := commands + [MouseButtonUp(i)];
            case _ =>
          }
          break;
        }
      }
      if !isHovering && lastHoveredElement.Some? {
        commands := commands + [MouseLeave(lastHoveredElement.value)];
        lastHoveredElement := None;
      }
    }

    /**
     * Resolves the event against the element the click query finds at its
     * position: tooltip on motion, gesture start on a left press, gesture end
     * on any release and, on a left release over an element, its action.
     * Returns whether that left release found an element.
     */
    method HandleUiEvents(ui: Ui, e: Event) returns (handled: bool)
      requires ui.WellFormed()
      modifies this`isHandlingMouseEvents, this`terrainEditMode, this`tooltip, this`commands
      ensures var h := Handle(old(isHandlingMouseEvents), old(terrainEditMode), old(tooltip), ui, e);
        handled == h.handled && isHandlingMouseEvents == h.handling && terrainEditMode == h.mode
        && tooltip == h.tooltip && commands == old(commands) + h.calls
    {
      handled := false;
      var clickedElement := ClickedElement(ui, e.x, e.y);
      match e.kind {
        case Motion =>
          if clickedElement.Some? {
            if clickedElement.value.tooltipText != "" {
              var text := clickedElement.value.tooltipText;
              tooltip := tooltip.(text := text);
              var size := ui.tooltipSize(tooltip.text);
              tooltip := tooltip.(x := e.x - size.w / 2, y := e.y - size.h);
              tooltip := tooltip.(visible := true);
              tooltip := tooltip.(timerStarts := tooltip.timerStarts + 1);
            } else {
              tooltip := tooltip.(visible := false);
            }
          } else {
            tooltip := tooltip.(visible := false);
          }
        case ButtonDown(b) =>
          if b == Left && clickedElement.Some? {
            isHandlingMouseEvents := true;
          }
        case ButtonUp(b) =>
          isHandlingMouseEvents := false;
          if b == Left {
            if clickedElement.Some? {
              var el := clickedElement.value;
              if el.actionId == RaiseToggle {
                if terrainEditMode == TerrainRaise {
                  terrainEditMode := NoTerrainEdit;
                } else {
                  terrainEditMode := TerrainRaise;
                }
              } else if el.actionId == LowerToggle {
                if terrainEditMode == TerrainLower {
                  terrainEditMode := NoTerrainEdit;
                } else {
                  terrainEditMode := TerrainLower;
                }
              } else if el.actionId == ComboBox {
                commands := commands + [LogComboClick(el.clickedId(e.x, e.y))];
              }
              handled := true;
            }
          }
        case _ =>
      }
    }

    /** The world handler: translates an event no UI stage claimed into engine and UI-manager calls. */
    method HandleWorldEvent(e: Event, world: World)
      modifies this`commands
      ensures commands == old(commands) + WorldCalls(e, terrainEditMode, world, maxElevationHeight)
    {
      match e.kind {
        case Quit =>
          commands := commands + [QuitGame];
        case KeyDown(key) =>
          match key {
            case Escape => commands := commands + [TogglePauseMenu];
            case Digit0 => commands := commands + [ToggleLayer(Grid)];
            case F11 => commands := commands + [ToggleDebugMenu];
            case Digit1 => commands := commands + [ToggleLayer(Floor)];
            case Digit2 => commands := commands + [ToggleLayer(Buildings)];
            case Digit3 => commands := commands + [ToggleLayer(Selection)];
            case LetterF => commands := commands + [ToggleFullScreen];
            case LetterB => RunElevationBenchmark();
            case OtherKey(_) =>
          }
        case ButtonDown(b) =>
          var clickCoords := world.toIso(e.x, e.y);
          if b == Left {
            if world.inBounds(clickCoords) {
              if terrainEditMode == TerrainRaise {
                commands := commands + [IncreaseHeight(clickCoords)];
              } else if terrainEditMode == TerrainLower {
                commands := commands + [DecreaseHeight(clickCoords)];
              } else {
                commands := commands + [LogClick(clickCoords)];
              }
            }
          } else if b == Right {
            commands := commands + [CenterOn(clickCoords)];
          }
        case Wheel(dy) =>
          if dy > 0 {
            commands := commands + [ZoomIn];
          } else if dy < 0 {
            commands := commands + [ZoomOut];
          }
        case _ =>
      }
    }

    /** The elevation benchmark: raises the benchmark cell once for each i in 0..maxElevationHeight. */
    method RunElevationBenchmark()
      modifies this`commands
      ensures commands == old(commands) + KeyCalls(LetterB, maxElevationHeight)
    {
      commands := commands + [LogBenchmarkStart];
      ghost var start := commands;
      var i := 0;
      while i <= maxElevationHeight
        invariant 0 <= i <= BenchmarkCount(maxElevationHeight)
        invariant commands == start + Repeat(IncreaseHeight(BenchmarkCell), i)
      {
        commands := commands + [IncreaseHeight(BenchmarkCell)];
        i := i + 1;
      }
      commands := commands + [LogBenchmarkDone];
    }
  }
}
