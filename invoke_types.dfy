/**
 * The parsed message and the typed action / expectation values that the
 * invocation handler works on (the types InvokeHandler.swift switches over).
 */
module InvokeTypes {
  import opened Wrappers
  import opened Values

  /** The element predicate of a message; only the matcher looks inside it. */
  datatype Predicate =
    | TextIs(text: string)
    | LabelIs(accessibilityLabel: string)
    | IdIs(id: string)
    | ValueIs(value: Value)
    | TraitsAre(traits: seq<string>)
    | And(predicates: seq<Predicate>)
    | Ancestor(ancestor: Predicate)
    | Descendant(descendant: Predicate)

  datatype MessageType = ActionMessage | ExpectationMessage

  datatype Modifier = Not

  /** The action kinds a message can name. */
  datatype ActionType =
    | Tap | MultiTap | LongPress | Swipe | TakeScreenshot
    | TapBackspaceKey | TapReturnKey | TypeText | ReplaceText | ClearText
    | ScrollTo | Scroll | SetColumnToValue | SetDatePickerDate | Pinch
    | AdjustSliderToPosition | GetAttributes

  /** The expectation kinds a message can name. */
  datatype ExpectationType =
    | ToBeVisible | ToBeFocused | ToHaveText | ToHaveId | ToHaveSliderPosition | ToExist

  datatype Direction = Up | Down | Left | Right
  datatype Speed = Fast | Slow
  datatype Edge = TopEdge | BottomEdge | LeftEdge | RightEdge
  datatype Key = BackspaceKey | ReturnKey
  datatype TextChange = TypeIn(text: string) | Replace(text: string) | Clear

  datatype ScrollType =
    | To(edge: Edge)
    | WithParams(offset: real, direction: Direction, startX: Option<real>, startY: Option<real>)

  /** A date as the date formatter produces it; date parsing is outside the model. */
  type Date = int

  /** A concrete action, built from an action kind and the message's positional params. */
  datatype Action =
    | Tap(times: Option<nat>)
    | TapOnAxis(x: int, y: int)
    | LongPress(duration: Option<real>)
    | LongPressAndDrag(duration: Option<real>, positionX: Option<real>, positionY: Option<real>,
                       target: Value, targetX: Option<real>, targetY: Option<real>,
                       dragSpeed: Option<real>, holdDuration: Option<real>)
    | Swipe(direction: Direction, speed: Option<Speed>, offset: Option<real>,
            startX: Option<real>, startY: Option<real>)
    | Screenshot(imageName: Option<string>)
    | TapKey(key: Key)
    | ChangeText(change: TextChange)
    | Scroll(scroll: ScrollType)
    | SetColumnToValue(index: nat, value: string)
    | SetDatePicker(date: Date)
    | Pinch(scale: real, pinchSpeed: Speed, angle: real)
    | AdjustSlider(position: real)
    | GetAttributes

  /** A concrete expectation, built from an expectation kind and the params. */
  datatype Expectation =
    | ToBeVisible(threshold: real)
    | ToBeFocused
    | ToHaveText(text: string)
    | ToHaveId(id: string)
    | ToHaveSliderInPosition(position: real, tolerance: Option<real>)
    | ToExist

  /** The nested expectation of a polling ("while") action. */
  datatype WhileMessage = WhileMessage(
    pattern: Predicate,
    atIndex: Option<int>,
    expectation: ExpectationType,
    params: Option<seq<Value>>,
    modifiers: Option<seq<Modifier>>)

  datatype Message = Message(
    kind: MessageType,
    action: Option<ActionType>,
    expectation: Option<ExpectationType>,
    pattern: Predicate,
    atIndex: Option<int>,
    params: Option<seq<Value>>,
    modifiers: Option<seq<Modifier>>,
    timeout: Option<real>,
    whileMessage: Option<WhileMessage>)

  /**
   * Failures of message handling. `Crash` stands for a Swift runtime trap (a forced
   * unwrap or cast that fails, an index out of range, `fatalError`): it ends the
   * process, so no `catch` ever sees it. `Raised(code)` is an error thrown by the
   * matcher or by a delegate.
   */
  datatype Error =
    | NoElementAtIndex
    | InvalidActionType
    | InvalidActionHandlingRequest
    | Crash
    | Raised(code: nat)

  /** Raw values of the string-backed enums, as test code sends them. */
  function ParseDirection(s: string): Option<Direction> {
    if s == "up" then Some(Up)
    else if s == "down" then Some(Down)
    else if s == "left" then Some(Left)
    else if s == "right" then Some(Right)
    else None
  }

  function DirectionRaw(d: Direction): string {
    match d
    case Up => "up"
    case Down => "down"
    case Left => "left"
    case Right => "right"
  }

  function ParseSpeed(s: string): Option<Speed> {
    if s == "fast" then Some(Fast) else if s == "slow" then Some(Slow) else None
  }

  function SpeedRaw(s: Speed): string {
    match s
    case Fast => "fast"
    case Slow => "slow"
  }

  function ParseEdge(s: string): Option<Edge> {
    if s == "top" then Some(TopEdge)
    else if s == "bottom" then Some(BottomEdge)
    else if s == "left" then Some(LeftEdge)
    else if s == "right" then Some(RightEdge)
    else None
  }

  function EdgeRaw(e: Edge): string {
    match e
    case TopEdge => "top"
    case BottomEdge => "bottom"
    case LeftEdge => "left"
    case RightEdge => "right"
  }

  lemma RawValuesRoundTrip(d: Direction, s: Speed, e: Edge)
    ensures ParseDirection(DirectionRaw(d)) == Some(d)
    ensures ParseSpeed(SpeedRaw(s)) == Some(s)
    ensures ParseEdge(EdgeRaw(e)) == Some(e)
  {
  }
}
