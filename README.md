# Cytopia event manager, modelled in Dafny

This project models the input-event dispatcher of the Cytopia city-builder
engine (`EventManager` in `src/engine/eventManager.cxx`). Each polled input
event goes through three stages, and each stage can claim the event:

1. **The UI dispatcher** (`dispatchUiEvents`) runs a Z-order hit test. It
   walks the UI registry from the last-drawn element down. It offers the
   event to the first element that is under the mouse, interactive
   (action id other than -1) and visible. It also tracks which element is
   hovered, sending enter and leave calls.
2. **The click handler** (`handleUIEvents`) asks the UI manager which
   element is clicked at the event's position. On motion it updates the
   tooltip. A left press starts a gesture, and any release ends it. A left
   release over an element resolves that element's action: it toggles the
   terrain-edit mode (off, raise or lower) or logs a combo-box row.
3. **The world handler** runs only when neither UI stage claimed the event
   and no gesture is in progress. It handles quit, the layer and menu keys,
   the elevation benchmark, terrain raise and lower, view centring and zoom.

The project has four modules:

- `Input` (`input.dfy`) holds the values. These are the event, with the
  position every stage reads; the UI registry; the world collaborator; the
  terrain-edit mode; the tooltip; and the `Command` log entries.
- `Routing` (`routing.dfy`) gives each stage as a function of the state.
  `Topmost` is the hit test, `Dispatch` the UI dispatcher, `Handle` the click
  handler, `WorldCalls` the world handler and `Check` the arbiter. `Run`
  feeds a stream of events to the arbiter.
- `Manager` (`event_manager.dfy`) holds the `EventManager` class. Its fields
  are the hovered element, the gesture flag, the terrain-edit mode, the
  tooltip and the log of every call made on a collaborator. Each method
  changes these step by step, with the same loops as the source. Each method
  is proved to reach exactly the state and the calls that `Routing`
  prescribes.
- `RoutingProperties` (`properties.dfy`) proves what the dispatcher
  guarantees, using those functions.

Collaborators the event manager cannot see into are function-valued fields.
These are the element hit tests (`isMouseOver`, `isHovering`,
`getClickedID`), the clicked-element query (`getClickedUIElement`), the
tooltip's size, the screen-to-isometric conversion and the world-bounds
test. The model assumes only three things about them: the clicked-element
query answers with an index into the registry (`Ui.WellFormed`), the
tooltip's size depends on its text alone, and that size is non-negative. Every call on a collaborator is
appended to the `commands` log, so contracts can say exactly which calls
happen and in what order.

## Model

| member | source | states |
|---|---|---|
| `Routing.Topmost` | src/engine/eventManager.cxx:108-111 | The hit test returns the highest-index element that is under the mouse, has action id other than -1 and is visible, with no eligible element above it; None exactly when no element is eligible |
| `Routing.ToggleRaise` | src/engine/eventManager.cxx:195-204 | Action 2 yields raise mode exactly when the mode was not raise, and never yields lower mode |
| `Routing.ToggleLower` | src/engine/eventManager.cxx:205-214 | Action 3 yields lower mode exactly when the mode was not lower, and never yields raise mode |
| `Routing.ApplyAction` | src/engine/eventManager.cxx:193-220 | Action ids other than 2 and 3 (combo box 5 and the default case) leave the terrain-edit mode unchanged |
| `Routing.ClickedElement` | src/engine/eventManager.cxx:151 | The clicked element exists exactly when the registry's click query answers at the event's position |
| `Routing.TooltipOnMotion` | src/engine/eventManager.cxx:155-175 | The tooltip is visible iff a clicked element exists and its tooltip text is non-empty. When shown it holds that text, its bottom edge is at the cursor's y and it is centred on the cursor's x with integer halving, and its timer has been started once more. Otherwise it is only hidden |
| `Routing.BenchmarkCount` | src/engine/eventManager.cxx:55 | The count is the first index from 0 upward at which the loop condition `i <= maxElevationHeight` fails, so it is the number of times the loop runs |
| `Routing.Dispatch` | src/engine/eventManager.cxx:104-145 | The UI dispatcher as a function: claim, new hover and calls. It has no contract of its own; `DispatchClaimsIffEligible`, `DispatchTouchesOnlyTopmost`, `PressAndReleaseReachTopmost`, `HoverAfterMotion`, `HoverAfterAnyEvent` and the three motion lemmas state its properties |
| `Routing.Handle` | src/engine/eventManager.cxx:147-231 | The click handler as a function: result, gesture flag, mode, tooltip and log. It has no contract of its own; `HandledIffLeftReleaseOnElement`, `GestureFlag` and `HandleModeAndLog` state its properties, with `TooltipOnMotion` for the tooltip |
| `Routing.KeyCalls` | src/engine/eventManager.cxx:20-62 | The calls a key press makes on the world. It has no contract of its own; `BenchmarkOccurrences` and `BenchmarkRaises` state the benchmark key's calls |
| `Routing.ButtonCalls` | src/engine/eventManager.cxx:63-84 | The calls a mouse press makes on the world. It has no contract of its own; `LeftPressEditsTerrain` and `RightPressCentres` state its properties |
| `Routing.WorldCalls` | src/engine/eventManager.cxx:14-99 | The world handler as a function. It has no contract of its own; `WorldCallsAreWorld`, `WheelZoomsOnce`, `LeftPressEditsTerrain` and `RightPressCentres` state its properties |
| `Routing.Check` | src/engine/eventManager.cxx:9-12 | The arbiter as a function. It has no contract of its own; `NoEventNoEffect`, `WorldRunsOnlyWhenUnclaimed`, `DispatchClaimSkipsHandler`, `GestureStartsOnlyOnLeftPress` and `GestureSuppressesWorld` state its properties |
| `Routing.Run` | src/engine/eventManager.cxx:3-12 | `checkEvents` called once per polled event, over a stream of events. It has no contract of its own; `GestureHoldsUntilRelease` and `RaiseToggleClickedTwice` state its properties |
| `Manager.EventManager.constructor` | src/engine/EventManager.hxx:27 | A new manager starts with nothing hovered, no gesture in progress and nothing called |
| `Manager.EventManager.CheckEvents` | src/engine/eventManager.cxx:3-102 | The new state and the calls made are those of `Check`: no effect without a polled event; otherwise the UI dispatcher, then the click handler only if the event is unclaimed, then the world handler only if neither claimed it and the gesture flag is clear after the click handler ran |
| `Manager.EventManager.DispatchUiEvents` | src/engine/eventManager.cxx:104-145 | The reverse-order loop that breaks at the first eligible element returns, hovers and calls exactly as `Dispatch` says |
| `Manager.EventManager.HandleUiEvents` | src/engine/eventManager.cxx:147-231 | The result, gesture flag, terrain-edit mode, tooltip and calls are exactly those of `Handle` |
| `Manager.EventManager.HandleWorldEvent` | src/engine/eventManager.cxx:14-99 | The calls made on the world are exactly `WorldCalls` of the event in the current terrain-edit mode |
| `Manager.EventManager.RunElevationBenchmark` | src/engine/eventManager.cxx:51-60 | The counting loop logs the start, raises the benchmark cell (64, 64) `BenchmarkCount(maxElevationHeight)` times, then logs the end |
| `RoutingProperties.TopmostIsUnique` | src/engine/eventManager.cxx:108-136 | An eligible element is the one selected iff no eligible element lies above it |
| `RoutingProperties.DispatchClaimsIffEligible` | src/engine/eventManager.cxx:106-144 | `dispatchUiEvents` returns true iff some element is eligible at the event's position |
| `RoutingProperties.DispatchTouchesOnlyTopmost` | src/engine/eventManager.cxx:111-143 | Enter, down and up calls go only to the topmost eligible element, and leave calls only to the previously hovered element. At most one leave is made, never after an enter. No world command is issued |
| `RoutingProperties.PressAndReleaseReachTopmost` | src/engine/eventManager.cxx:129-143 | A press or release over the topmost eligible element sends that element exactly one down or up call, first. The only other call is a leave of the previous hover, made when the cursor does not hover the element |
| `RoutingProperties.HoverAfterMotion` | src/engine/eventManager.cxx:118-127 | After motion, the hovered element is the topmost eligible element if the cursor hovers it, and nothing otherwise |
| `RoutingProperties.HoverAfterAnyEvent` | src/engine/eventManager.cxx:114-143 | After any event, a hover exists only while the cursor hovers the topmost eligible element, and it is that element or the previous hover. A non-motion event keeps the previous hover when the cursor hovers the topmost eligible element and clears it otherwise |
| `RoutingProperties.ButtonEventKeepsPreviousHover` | src/engine/eventManager.cxx:129-143 | Example: a press on element 1, hovered, keeps element 0 as the hovered element |
| `RoutingProperties.MotionOntoNewElement` | src/engine/eventManager.cxx:119-127 | Motion onto a newly hovered element makes exactly one leave of the previous hover (if any), then the enter, and hovers the new element |
| `RoutingProperties.MotionOnSameElement` | src/engine/eventManager.cxx:119 | Re-hovering the same element makes no enter or leave call |
| `RoutingProperties.MotionOffAllElements` | src/engine/eventManager.cxx:139-143 | Motion over no eligible element leaves the previous hover (if any), clears it and is not claimed |
| `RoutingProperties.HandledIffLeftReleaseOnElement` | src/engine/eventManager.cxx:186-223 | `handleUIEvents` returns true iff the event is a left release and the click query finds an element, whatever its action id |
| `RoutingProperties.GestureFlag` | src/engine/eventManager.cxx:177-187 | The gesture flag is set by a left press with a clicked element, cleared by any release, and unchanged by anything else |
| `RoutingProperties.HandleModeAndLog` | src/engine/eventManager.cxx:189-222 | The terrain-edit mode changes only on a claimed release, as the element's action says. Only a combo-box click logs, and it logs the row clicked at the event's position. The tooltip changes only on motion |
| `RoutingProperties.ToggleSequences` | src/engine/eventManager.cxx:195-214 | Action 2 twice restores no-edit or raise mode and turns lower mode off (and symmetrically for action 3). Action 2 then 3 always ends in lower mode, and 3 then 2 in raise mode |
| `RoutingProperties.WheelZoomsOnce` | src/engine/eventManager.cxx:86-95 | A positive wheel delta zooms in once, a negative one zooms out once, and zero does nothing |
| `RoutingProperties.LeftPressEditsTerrain` | src/engine/eventManager.cxx:63-79 | A left press acts only if the converted cell is in bounds: raise mode raises it, lower mode lowers it, and no-edit mode only logs it. At most one call is made |
| `RoutingProperties.RightPressCentres` | src/engine/eventManager.cxx:80-83 | A right press centres the view on the converted cell, whatever the mode or the bounds |
| `RoutingProperties.BenchmarkOccurrences` | src/engine/eventManager.cxx:51-60 | Apart from its two log lines, the benchmark key's calls hold only raises of (64, 64), `BenchmarkCount` of them |
| `RoutingProperties.BenchmarkRaises` | src/engine/eventManager.cxx:55-58 | The benchmark raises (64, 64) exactly maxElevationHeight + 1 times, never raises another cell and never lowers any |
| `RoutingProperties.WorldCallsAreWorld` | src/engine/eventManager.cxx:14-99 | The world handler issues only world commands |
| `RoutingProperties.NoEventNoEffect` | src/engine/eventManager.cxx:9 | With no polled event, the state is unchanged and nothing is called |
| `RoutingProperties.WorldRunsOnlyWhenUnclaimed` | src/engine/eventManager.cxx:12 | The world commands issued are exactly the world handler's calls when neither UI stage claimed the event and the gesture flag is clear after the click handler ran, and none otherwise |
| `RoutingProperties.DispatchClaimSkipsHandler` | src/engine/eventManager.cxx:12 | When the dispatcher claims an event, the click handler does not run. The gesture flag, mode and tooltip stay as they were, even on a release, and the world is not touched |
| `RoutingProperties.GestureStartsOnlyOnLeftPress` | src/engine/eventManager.cxx:12 | A gesture begins only with a left press that the dispatcher did not claim and that found a clicked element |
| `RoutingProperties.GestureSuppressesWorld` | src/engine/eventManager.cxx:12 | While a gesture is in progress, no event reaches the world handler with any effect |
| `RoutingProperties.GestureHoldsUntilRelease` | src/engine/eventManager.cxx:177-187 | Through any stream of events without a release, an open gesture stays open and the world gets no call |
| `RoutingProperties.RaiseToggleClickedTwice` | src/engine/eventManager.cxx:12 | Two unclaimed left releases over the raise toggle restore no-edit or raise mode, and turn lower mode off |

## Behaviour worth knowing

- **Click handler's return value.** The click handler returns true for
  every left release over a clicked element, whatever its action id
  (`HandledIffLeftReleaseOnElement`).
- **Clearing the gesture flag.** Every release clears the gesture flag,
  whichever button it is and whether or not an element is clicked
  (`GestureFlag`).
- **A claimed release leaves the gesture open.** A release that the UI
  dispatcher claims never reaches the click handler, so the gesture flag
  stays set (`DispatchClaimSkipsHandler`).
- **Actions need an unclaimed position.** For the same reason, a release
  resolves an action only when the UI dispatcher finds no eligible element
  at all at its position. The terrain toggles take effect only then
  (`DispatchClaimSkipsHandler`, `RaiseToggleClickedTwice`).
- **Hover after button events.** Only motion events move the hover. A
  button or key event leaves the previous hover in place when the cursor
  hovers the topmost eligible element, even when that is another element,
  and clears it otherwise (`HoverAfterAnyEvent`,
  `ButtonEventKeepsPreviousHover`).
- **Right click.** A right press centres the view without any bounds test
  (`RightPressCentres`).

## Left out

- Event polling and the SDL event union. The polled event is an
  `Option<Event>` input. The position a stage reads through `event.button`
  is carried by every event, whatever its kind.
- The effects of the engine, the UI manager and the tooltip (layer
  toggles, zoom, cell heights, centring, full screen, menus, rendering).
  They are recorded as calls in the `commands` log, not modelled.
- The event argument passed to `onMouseEnter`, `onMouseLeave`,
  `onMouseButtonDown` and `onMouseButtonUp`. Only the receiving element's
  registry index is logged.
- The geometry of `isMouseOver`, `isHovering`, `getClickedUIElement`,
  `getClickedID`, the tooltip's rectangle and
  `Resources::convertScreenToIsoCoordinates`, and the engine's
  `isPointWithinBoundaries`. These are uninterpreted function fields, and
  nothing is assumed about them beyond the assumptions listed below.
- Element identity. Elements are identified by their index in the registry,
  so the registry is taken to be the same across the events a lemma
  relates. Destroying an element while it is hovered is not modelled.
- The benchmark's timer and elapsed milliseconds. The start and end log
  lines are recorded without the duration.
- The `Settings` and `Resources` singletons. `maxElevationHeight` is a
  constant of the manager, and the terrain-edit mode is one of its fields.
- `unHighlightNodes` and the placement, panning, tile-info and pinch fields
  declared in `src/engine/EventManager.hxx`. The .cxx defines none of them
  and uses none of them.
- The clicked-element query is taken to answer only with an element of the
  registry (`Ui.WellFormed`, required by `Handle`, `Check`, `Run` and the
  `EventManager` methods that call the click handler). A query that
  answered with an element outside the registry is not modelled.
- The tooltip's size is taken to be a function of its text alone
  (`Ui.tooltipSize`), read after the text is set. Any other state the
  tooltip's rectangle depends on is not modelled.
- The tooltip's rectangle width and height are taken to be non-negative
  (`Size` holds `nat`s). For non-negative values, C++'s truncating halving
  and Dafny's division agree.
- 32-bit overflow of the benchmark loop counter when `maxElevationHeight` is
  the largest `int`. The model's integers are unbounded.
