/**
 * The tester-side action delegate (ActionDelegate.swift): the type guard and
 * dispatch skeleton of `act`, and the result shaping of `getAttributes`.
 *
 * XCUITest itself is outside the model. A gesture on an element is recorded as a
 * `Gesture` effect, and the two gestures the source calls with `try` (`tapKey`
 * and the dragging long press) may throw, as an oracle decides. The white-box
 * message handler is an oracle from a request to an optional response.
 */
module ActionDelegate {
  import opened Wrappers
  import opened Values
  import opened InvokeTypes

  /** The requests `act` sends to the application under test. */
  datatype WhiteBoxMessage =
    | WaitUntilReady
    | LongPressAndDragRequest(duration: Option<real>, positionX: Option<real>, positionY: Option<real>,
                              targetElement: nat, targetX: Option<real>, targetY: Option<real>,
                              dragSpeed: Option<real>, holdDuration: Option<real>, onElement: nat)
    | SetDatePickerRequest(toDate: Date, onElement: nat)

  datatype Response = Completed | OtherResponse(name: string)

  /** What `act` does, in order. */
  datatype Effect =
    | Asked(message: WhiteBoxMessage, response: Option<Response>)
    | AssertedCompleted(answer: Response)
    | Gesture(action: Action, element: nat)

  datatype ActFailure = NotXCUIElement | GestureThrew | Fatal

  datatype ActRun = ActRun(effects: seq<Effect>, failure: Option<ActFailure>)

  type WhiteBoxHandler = WhiteBoxMessage -> Option<Response>

  /** Ask the handler; when it answers, assert that the answer is `completed`. */
  function AskWhiteBox(handler: WhiteBoxHandler, message: WhiteBoxMessage): (r: seq<Effect>)
    ensures |r| == (if handler(message).Some? then 2 else 1)
    ensures r[0] == Asked(message, handler(message))
    ensures |r| == 2 ==> r[1] == AssertedCompleted(handler(message).value)
    ensures forall i :: 0 <= i < |r| ==> !r[i].Gesture?
  {
    var response := handler(message);
    [Asked(message, response)] + (if response.Some? then [AssertedCompleted(response.value)] else [])
  }

  function DragRequest(a: Action, on: nat): WhiteBoxMessage
    requires a.LongPressAndDrag? && a.target.Element?
  {
    LongPressAndDragRequest(a.duration, a.positionX, a.positionY, a.target.id,
                            a.targetX, a.targetY, a.dragSpeed, a.holdDuration, on)
  }

  /** The actions `act` hands straight to an XCUITest gesture. */
  predicate DirectGesture(a: Action) {
    a.Tap? || a.TapOnAxis? || a.LongPress? || a.Swipe? || a.TapKey? || a.ChangeText? ||
    a.Scroll? || a.SetColumnToValue? || a.Pinch? || a.AdjustSlider?
  }

  /**
   * Whether `act` ends in an XCUITest gesture: always for the direct kinds, and
   * for a drag only when its target is an element and the application did not
   * perform it itself.
   */
  predicate FallsBackToXCUITest(a: Action, on: nat, handler: WhiteBoxHandler) {
    DirectGesture(a) ||
    (a.LongPressAndDrag? && a.target.Element? && handler(DragRequest(a, on)).None?)
  }

  function CountGestures(effects: seq<Effect>): nat {
    if |effects| == 0 then 0
    else CountGestures(effects[..|effects| - 1]) + (if effects[|effects| - 1].Gesture? then 1 else 0)
  }

  /** The dispatch that follows the readiness wait. */
  function Dispatch(a: Action, on: nat, handler: WhiteBoxHandler, throws: (Action, nat) -> bool): ActRun {
    match a
    case LongPressAndDrag(_, _, _, target, _, _, _, _) =>
      if !target.Element? then ActRun([], Some(NotXCUIElement))
      else
        var request := DragRequest(a, on);
        if handler(request).Some? then ActRun(AskWhiteBox(handler, request), None)
        else ActRun(AskWhiteBox(handler, request) + [Gesture(a, on)], if throws(a, on) then Some(GestureThrew) else None)
    case SetDatePicker(date) =>
      ActRun(AskWhiteBox(handler, SetDatePickerRequest(date, on)), None)
    case Screenshot(_) => ActRun([], Some(Fatal))
    case GetAttributes => ActRun([], Some(Fatal))
    case TapKey(_) => ActRun([Gesture(a, on)], if throws(a, on) then Some(GestureThrew) else None)
    case _ => ActRun([Gesture(a, on)], None)
  }

  /**
   * `act(action:on:testCase:)`. `throws` says whether a throwing gesture threw.
   */
  function Act(a: Action, element: Value, handler: WhiteBoxHandler, throws: (Action, nat) -> bool): (r: ActRun)
    // the type guard comes before the readiness wait and before any dispatch
    ensures !element.Element? ==> r == ActRun([], Some(NotXCUIElement))
    ensures element.Element? ==>
      |r.effects| >= 1 && r.effects[0] == Asked(WaitUntilReady, handler(WaitUntilReady))
    // a gesture is made at most once, only with this action on this element, and
    // only when the application did not handle the action itself
    ensures element.Element? ==>
      (Gesture(a, element.id) in r.effects <==> FallsBackToXCUITest(a, element.id, handler))
    ensures forall i :: 0 <= i < |r.effects| ==> r.effects[i].Gesture? ==> element.Element? && r.effects[i] == Gesture(a, element.id)
    ensures CountGestures(r.effects) <= 1
    // a drag onto something that is not an element is refused
    ensures r.failure == Some(NotXCUIElement) <==> !element.Element? || (a.LongPressAndDrag? && !a.target.Element?)
    ensures r.failure == Some(Fatal) <==> element.Element? && (a.Screenshot? || a.GetAttributes?)
    ensures r.failure == Some(GestureThrew) ==> (a.TapKey? || a.LongPressAndDrag?) && Gesture(a, element.id) in r.effects
    // every other action on an element succeeds
    ensures element.Element? && !(a.Screenshot? || a.GetAttributes? || a.TapKey? || a.LongPressAndDrag?) ==> r.failure.None?
    // the throwing gestures are not swallowed, and a drag the application performed succeeds
    ensures (element.Element? &&
             (a.TapKey? || (a.LongPressAndDrag? && a.target.Element? && handler(DragRequest(a, element.id)).None?))) ==>
        (r.failure == Some(GestureThrew) <==> throws(a, element.id)) && (!throws(a, element.id) ==> r.failure.None?)
    ensures element.Element? && a.LongPressAndDrag? && a.target.Element? && handler(DragRequest(a, element.id)).Some? ==>
      r.failure.None?
    // the white-box request follows the readiness wait
    ensures element.Element? && a.LongPressAndDrag? && a.target.Element? ==>
      |AskWhiteBox(handler, WaitUntilReady)| < |r.effects| &&
      r.effects[|AskWhiteBox(handler, WaitUntilReady)|] == Asked(DragRequest(a, element.id), handler(DragRequest(a, element.id)))
    ensures element.Element? && a.SetDatePicker? ==>
      |AskWhiteBox(handler, WaitUntilReady)| < |r.effects| &&
      r.effects[|AskWhiteBox(handler, WaitUntilReady)|] == Asked(SetDatePickerRequest(a.date, element.id), handler(SetDatePickerRequest(a.date, element.id)))
  {
    if !element.Element? then ActRun([], Some(NotXCUIElement))
    else
      var ready := AskWhiteBox(handler, WaitUntilReady);
      var rest := Dispatch(a, element.id, handler, throws);
      DispatchShape(a, element.id, handler, throws);
      DispatchFailure(a, element.id, handler, throws);
      DispatchThrows(a, element.id, handler, throws);
      assert |rest.effects| >= 1 ==> (ready + rest.effects)[|ready|] == rest.effects[0];
      CountGesturesAppend(ready, rest.effects);
      NoGesturesCounted(ready);
      ActRun(ready + rest.effects, rest.failure)
  }

  lemma DispatchShape(a: Action, on: nat, handler: WhiteBoxHandler, throws: (Action, nat) -> bool)
    ensures var r := Dispatch(a, on, handler, throws);
      (Gesture(a, on) in r.effects <==> FallsBackToXCUITest(a, on, handler)) &&
      (forall i :: 0 <= i < |r.effects| ==> r.effects[i].Gesture? ==> r.effects[i] == Gesture(a, on)) &&
      CountGestures(r.effects) <= 1
  {
    var r := Dispatch(a, on, handler, throws);
    if a.LongPressAndDrag? && a.target.Element? {
      var ask := AskWhiteBox(handler, DragRequest(a, on));
      NoGesturesCounted(ask);
      if handler(DragRequest(a, on)).None? {
        CountGesturesAppend(ask, [Gesture(a, on)]);
      }
    } else if a.SetDatePicker? {
      NoGesturesCounted(r.effects);
    } else {
      if |r.effects| == 1 {
        assert r.effects[..0] == [];
      }
    }
  }

  /** How the dispatch fails: only a drag onto a non-element, the two fatal kinds, and the two throwing gestures. */
  lemma DispatchFailure(a: Action, on: nat, handler: WhiteBoxHandler, throws: (Action, nat) -> bool)
    ensures var r := Dispatch(a, on, handler, throws);
      (r.failure == Some(NotXCUIElement) <==> a.LongPressAndDrag? && !a.target.Element?) &&
      (r.failure == Some(Fatal) <==> a.Screenshot? || a.GetAttributes?) &&
      (r.failure == Some(GestureThrew) ==> (a.TapKey? || a.LongPressAndDrag?) && Gesture(a, on) in r.effects) &&
      (!(a.Screenshot? || a.GetAttributes? || a.TapKey? || a.LongPressAndDrag?) ==> r.failure.None?)
  {
  }

  /**
   * The throwing gestures propagate their error: `tapKey` and an XCUITest drag
   * fail exactly when they threw, a drag the application performed succeeds, and
   * the white-box request of a drag or a date-picker action is sent.
   */
  lemma DispatchThrows(a: Action, on: nat, handler: WhiteBoxHandler, throws: (Action, nat) -> bool)
    ensures var r := Dispatch(a, on, handler, throws);
      a.TapKey? || (a.LongPressAndDrag? && a.target.Element? && handler(DragRequest(a, on)).None?) ==>
        (r.failure == Some(GestureThrew) <==> throws(a, on)) && (!throws(a, on) ==> r.failure.None?)
    ensures var r := Dispatch(a, on, handler, throws);
      a.LongPressAndDrag? && a.target.Element? && handler(DragRequest(a, on)).Some? ==> r.failure.None?
    ensures var r := Dispatch(a, on, handler, throws);
      a.LongPressAndDrag? && a.target.Element? ==>
        |r.effects| >= 1 && r.effects[0] == Asked(DragRequest(a, on), handler(DragRequest(a, on)))
    ensures var r := Dispatch(a, on, handler, throws);
      a.SetDatePicker? ==>
        |r.effects| >= 1 && r.effects[0] == Asked(SetDatePickerRequest(a.date, on), handler(SetDatePickerRequest(a.date, on)))
  {
  }

  lemma {:induction false} CountGesturesAppend(s: seq<Effect>, t: seq<Effect>)
    ensures CountGestures(s + t) == CountGestures(s) + CountGestures(t)
    decreases |t|
  {
    if |t| == 0 {
      assert s + t == s;
    } else {
      assert (s + t)[..|s + t| - 1] == s + t[..|t| - 1];
      CountGesturesAppend(s, t[..|t| - 1]);
    }
  }

  lemma {:induction false} NoGesturesCounted(s: seq<Effect>)
    requires forall i :: 0 <= i < |s| ==> !s[i].Gesture?
    ensures CountGestures(s) == 0
    decreases |s|
  {
    if |s| > 0 {
      NoGesturesCounted(s[..|s| - 1]);
    }
  }

  /** `elements.compactMap { $0 as? XCUIElement }`: the element ids, in order. */
  function XCUIElements(elements: seq<Value>): (r: seq<nat>)
    ensures |r| <= |elements|
  {
    if |elements| == 0 then []
    else
      var rest := XCUIElements(elements[1..]);
      if elements[0].Element? then [elements[0].id] + rest else rest
  }

  /** Nothing is dropped exactly when every value is an element, and then the ids are kept in order. */
  lemma {:induction false} XCUIElementsKeepsAll(elements: seq<Value>)
    ensures |XCUIElements(elements)| == |elements| <==> forall i :: 0 <= i < |elements| ==> elements[i].Element?
    ensures |XCUIElements(elements)| == |elements| ==>
      forall i :: 0 <= i < |elements| ==> XCUIElements(elements)[i] == elements[i].id
    decreases |elements|
  {
    if |elements| > 0 {
      XCUIElementsKeepsAll(elements[1..]);
      var rest := XCUIElements(elements[1..]);
      if |XCUIElements(elements)| == |elements| {
        assert elements[0].Element?;
        forall i | 0 <= i < |elements|
          ensures elements[i].Element? && XCUIElements(elements)[i] == elements[i].id
        {
          if i > 0 {
            assert elements[1..][i - 1] == elements[i];
          }
        }
      }
      if forall i :: 0 <= i < |elements| ==> elements[i].Element? {
        assert forall i :: 0 <= i < |elements| - 1 ==> elements[1..][i] == elements[i + 1];
      }
    }
  }

  /** `mappedElements.map { $0.getAttributes() }` */
  function AttributesOf(ids: seq<nat>, attributes: nat -> Value): (r: seq<Value>)
    ensures |r| == |ids|
    ensures forall i :: 0 <= i < |ids| ==> r[i] == attributes(ids[i])
  {
    if |ids| == 0 then [] else [attributes(ids[0])] + AttributesOf(ids[1..], attributes)
  }

  /** `getAttributes(from:)`; `attributes` reads one element's attributes. */
  function GetAttributes(elements: seq<Value>, attributes: nat -> Value): (r: Result<Value, ActFailure>)
    ensures r == Err(NotXCUIElement) <==> exists i :: 0 <= i < |elements| && !elements[i].Element?
    ensures r == Err(Fatal) <==> |elements| == 0
    ensures |elements| == 1 && elements[0].Element? ==> r == Ok(attributes(elements[0].id))
    ensures |elements| > 1 && (forall i :: 0 <= i < |elements| ==> elements[i].Element?) ==>
      r.Ok? && r.value.Dict? && r.value.entries.Keys == {"elements"} && r.value.entries["elements"].Array? &&
      var items := r.value.entries["elements"].items;
      |items| == |elements| && forall i :: 0 <= i < |elements| ==> items[i] == attributes(elements[i].id)
  {
    XCUIElementsKeepsAll(elements);
    var mapped := XCUIElements(elements);
    if |mapped| != |elements| then Err(NotXCUIElement)
    else
      var attrs := AttributesOf(mapped, attributes);
      if |attrs| > 1 then Ok(Dict(map["elements" := Array(attrs)]))
      else if |attrs| == 0 then Err(Fatal)
      else Ok(attrs[0])
  }
}
