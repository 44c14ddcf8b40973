/**
 * The values the event manager works on: the polled input event, the UI
 * registry and the world collaborator it queries, the terrain-edit mode it
 * toggles, the tooltip it positions, and the commands it issues.
 *
 * Everything the event manager cannot see into (the geometry of UI elements,
 * screen-to-isometric conversion, the world's bounds) is a function-valued
 * field. Beyond their types, the model assumes only three things about them:
 * the clicked-element query answers with a registered element
 * (Ui.WellFormed), the tooltip's size depends on its text alone, and sizes
 * are non-negative.
 */
module Input {

  datatype Option<+T> = None | Some(value: T)

  /** SDL mouse buttons. */
  datatype Button = Left | Middle | Right | X1 | X2

  /** The keys the world handler distinguishes; every other key is OtherKey. */
  datatype Key = Escape | Digit0 | Digit1 | Digit2 | Digit3 | F11 | LetterF | LetterB | OtherKey(code: int)

  /** The kind of a polled event, with the payload each kind carries. */
  datatype EventKind =
    | Quit
    | KeyDown(key: Key)
    | ButtonDown(button: Button)
    | ButtonUp(button: Button)
    | Motion
    | Wheel(dy: int)
    | OtherKind

  /**
   * A polled event. The position (x, y) is what the event manager reads as
   * the mouse-button position; the UI stages read it whatever the kind of the
   * event, so every event carries one (for a key event it is whatever the
   * event's storage holds there).
   */
  datatype Event = Event(kind: EventKind, x: int, y: int)

  /** An isometric world coordinate (x, y, z, height). */
  datatype Point = Point(x: int, y: int, z: int, height: int)

  /** The cell the elevation benchmark raises. */
  const BenchmarkCell: Point := Point(64, 64, 0, 0)

  datatype Layer = Grid | Floor | Buildings | Selection

  /** The global terrain-edit mode: what a left click on the world does. */
  datatype TerrainMode = NoTerrainEdit | TerrainRaise | TerrainLower

  /** The action identifier that marks an element as not interactive. */
  const NoAction: int := -1
  /** Action identifiers the click handler resolves. */
  const RaiseToggle: int := 2
  const LowerToggle: int := 3
  const ComboBox: int := 5

  /**
   * A UI element as the event manager sees it: its visibility, action id and
   * tooltip text, and its hit tests (bounds contain the point, the cursor is
   * specifically hovering it, which row of a combo box is at the point).
   */
  datatype UiElement = UiElement(
    visible: bool,
    actionId: int,
    tooltipText: string,
    mouseOver: (int, int) -> bool,
    hovering: (int, int) -> bool,
    clickedId: (int, int) -> int)

  /** The size of a rectangle on screen. */
  datatype Size = Size(w: nat, h: nat)

  /**
   * The UI registry: its elements in draw order (the last one drawn is the
   * topmost), the independent "which element is clicked at this point"
   * query, answering with an index into the elements, and the size the
   * tooltip takes once it holds a given text.
   */
  datatype Ui = Ui(
    elements: seq<UiElement>,
    clickedAt: (int, int) -> Option<nat>,
    tooltipSize: string -> Size)
  {
    /** The clicked-element query only ever answers with a registered element. */
    ghost predicate WellFormed() {
      forall x: int, y: int :: clickedAt(x, y).Some? ==> clickedAt(x, y).value < |elements|
    }
  }

  /** The world collaborator's pure queries. */
  datatype World = World(toIso: (int, int) -> Point, inBounds: Point -> bool)

  /** The tooltip's state: its text, top-left corner, visibility and how often its timer was started. */
  datatype Tooltip = Tooltip(text: string, x: int, y: int, visible: bool, timerStarts: nat)

  /**
   * Every call the event manager makes on a collaborator, in the order made.
   * The first four go to UI elements and the fifth is the click handler's
   * log line; the rest are the world handler's calls on the engine, the UI
   * manager or the log.
   */
  datatype Command =
    | MouseEnter(element: nat)
    | MouseLeave(element: nat)
    | MouseButtonDown(element: nat)
    | MouseButtonUp(element: nat)
    | LogComboClick(row: int)
    | QuitGame
    | TogglePauseMenu
    | ToggleLayer(layer: Layer)
    | ToggleDebugMenu
    | ToggleFullScreen
    | LogBenchmarkStart
    | IncreaseHeight(cell: Point)
    | DecreaseHeight(cell: Point)
    | LogBenchmarkDone
    | LogClick(cell: Point)
    | CenterOn(cell: Point)
    | ZoomIn
    | ZoomOut
  {
    /** Commands issued by the world handler (everything but the UI stages' calls). */
    predicate IsWorld() {
      !(MouseEnter? || MouseLeave? || MouseButtonDown? || MouseButtonUp? || LogComboClick?)
    }
  }
}
