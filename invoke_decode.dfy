/**
 * Positional decoding of a message's `params` into a concrete action or
 * expectation (the builders of InvokeHandler.swift). Every forced unwrap, forced
 * cast, out-of-range index or failed raw-value initialiser of the source is a
 * `Crash`. `Encode`/`EncodeExpectation` give the wire layout the builders expect;
 * the round-trip lemmas show that layout is exactly what they decode.
 */
module InvokeDecode {
  import opened Wrappers
  import opened Values
  import opened InvokeTypes

  /** The action kind that produces each action. */
  function KindOf(a: Action): ActionType {
    match a
    case Tap(times) => if times.None? then ActionType.Tap else MultiTap
    case TapOnAxis(_, _) => ActionType.Tap
    case LongPress(_) => ActionType.LongPress
    case LongPressAndDrag(_, _, _, _, _, _, _, _) => ActionType.LongPress
    case Swipe(_, _, _, _, _) => ActionType.Swipe
    case Screenshot(_) => TakeScreenshot
    case TapKey(k) => if k == BackspaceKey then TapBackspaceKey else TapReturnKey
    case ChangeText(c) => (match c case TypeIn(_) => TypeText case Replace(_) => ReplaceText case Clear => ClearText)
    case Scroll(s) => if s.To? then ScrollTo else ActionType.Scroll
    case SetColumnToValue(_, _) => ActionType.SetColumnToValue
    case SetDatePicker(_) => SetDatePickerDate
    case Pinch(_, _, _) => ActionType.Pinch
    case AdjustSlider(_) => AdjustSliderToPosition
    case GetAttributes => ActionType.GetAttributes
  }

  /** A builder either yields an action of the requested kind or traps. */
  predicate Built(kind: ActionType, r: Result<Action, Error>) {
    match r
    case Ok(a) => KindOf(a) == kind
    case Err(e) => e == Crash
  }

  /** `params![i]` / `params?[i]` under a forced cast: absent params or a short list trap. */
  function Nth(params: Option<seq<Value>>, i: nat): (r: Result<Value, Error>)
    ensures r.Ok? <==> params.Some? && i < |params.value|
    ensures r.Ok? ==> r.value == params.value[i]
    ensures r.Err? ==> r.error == Crash
  {
    if params.Some? && i < |params.value| then Ok(params.value[i]) else Err(Crash)
  }

  function StringAt(params: Option<seq<Value>>, i: nat): Result<string, Error> {
    var v :- Nth(params, i);
    if v.Str? then Ok(v.s) else Err(Crash)
  }

  function NumberAt(params: Option<seq<Value>>, i: nat): Result<real, Error> {
    var v :- Nth(params, i);
    var n := AsNumber(v);
    if n.Some? then Ok(n.value) else Err(Crash)
  }

  /** `UInt(x as! Int)`: a negative integer traps in the conversion. */
  function NatAt(params: Option<seq<Value>>, i: nat): Result<nat, Error> {
    var v :- Nth(params, i);
    if v.Int? && v.i >= 0 then Ok(v.i) else Err(Crash)
  }

  /** No params is a plain tap; otherwise the first param must be an `{x, y}` integer dictionary. */
  function TapAction(params: Option<seq<Value>>): (r: Result<Action, Error>)
    ensures Built(ActionType.Tap, r)
    ensures params.None? ==> r == Ok(Action.Tap(None))
    ensures params.Some? ==>
      (r.Ok? <==> |params.value| >= 1 && AsIntDict(params.value[0]).Some? &&
                  "x" in params.value[0].entries && "y" in params.value[0].entries)
    ensures params.Some? && r.Ok? ==>
      r.value == TapOnAxis(params.value[0].entries["x"].i, params.value[0].entries["y"].i)
  {
    if params.None? then Ok(Action.Tap(None))
    else
      var first :- Nth(params, 0);
      var axis := AsIntDict(first);
      if axis.Some? && "x" in axis.value && "y" in axis.value then
        Ok(TapOnAxis(axis.value["x"], axis.value["y"]))
      else Err(Crash)
  }

  /** The first param is the tap count; a missing, non-integer or negative one traps. */
  function MultiTapAction(params: Option<seq<Value>>): (r: Result<Action, Error>)
    ensures Built(MultiTap, r)
    ensures r.Ok? <==> params.Some? && |params.value| >= 1 && params.value[0].Int? && params.value[0].i >= 0
    ensures r.Ok? ==> r.value == Action.Tap(Some(params.value[0].i))
  {
    var times :- NatAt(params, 0);
    Ok(Action.Tap(Some(times)))
  }

  /** No params is a plain long press; otherwise fewer than eight params trap, and eight make a drag. */
  function LongPressAction(params: Option<seq<Value>>): (r: Result<Action, Error>)
    ensures Built(ActionType.LongPress, r)
    ensures params.None? ==> r == Ok(Action.LongPress(None))
    ensures params.Some? ==> (r.Ok? <==> |params.value| >= 8)
    ensures params.Some? && r.Ok? ==>
      var p := params.value;
      r.value.LongPressAndDrag? && r.value.target == p[3] &&
      r.value.duration == AsNumber(p[0]) && r.value.positionX == AsNumber(p[1]) &&
      r.value.positionY == AsNumber(p[2]) && r.value.targetX == AsNumber(p[4]) &&
      r.value.targetY == AsNumber(p[5]) && r.value.dragSpeed == AsNumber(p[6]) &&
      r.value.holdDuration == AsNumber(p[7])
  {
    if params.None? then Ok(Action.LongPress(None))
    else if |params.value| < 8 then Err(Crash)
    else
      var p := params.value;
      Ok(LongPressAndDrag(AsNumber(p[0]), AsNumber(p[1]), AsNumber(p[2]), p[3],
                          AsNumber(p[4]), AsNumber(p[5]), AsNumber(p[6]), AsNumber(p[7])))
  }

  /**
   * Five params: a direction, then a speed that must parse when it is a string,
   * then three optional numbers; fewer params trap on the index.
   */
  function SwipeAction(params: Option<seq<Value>>): (r: Result<Action, Error>)
    ensures Built(ActionType.Swipe, r)
    ensures r.Ok? <==>
      params.Some? && |params.value| >= 5 && params.value[0].Str? && ParseDirection(params.value[0].s).Some? &&
      (params.value[1].Str? ==> ParseSpeed(params.value[1].s).Some?)
    ensures r.Ok? ==>
      var p := params.value;
      r.value.Swipe? && Some(r.value.direction) == ParseDirection(p[0].s) &&
      r.value.speed == (if p[1].Str? then ParseSpeed(p[1].s) else None) &&
      r.value.offset == AsNumber(p[2]) && r.value.startX == AsNumber(p[3]) && r.value.startY == AsNumber(p[4])
  {
    var raw :- StringAt(params, 0);
    var direction := ParseDirection(raw);
    if direction.None? || |params.value| < 5 then Err(Crash)
    else
      var p := params.value;
      if p[1].Str? && ParseSpeed(p[1].s).None? then Err(Crash)
      else
        var speed := if p[1].Str? then ParseSpeed(p[1].s) else None;
        Ok(Action.Swipe(direction.value, speed, AsNumber(p[2]), AsNumber(p[3]), AsNumber(p[4])))
  }

  /** No params is an unnamed screenshot; an empty list traps on the index; a non-string name is dropped. */
  function ScreenshotAction(params: Option<seq<Value>>): (r: Result<Action, Error>)
    ensures Built(TakeScreenshot, r)
    ensures params.None? ==> r == Ok(Screenshot(None))
    ensures params.Some? ==> (r.Ok? <==> |params.value| >= 1)
    ensures params.Some? && r.Ok? ==> r.value == Screenshot(AsString(params.value[0]))
  {
    if params.None? then Ok(Screenshot(None))
    else
      var first :- Nth(params, 0);
      Ok(Screenshot(AsString(first)))
  }

  /** The first param is the text to type; a missing or non-string one traps. */
  function TypeTextAction(params: Option<seq<Value>>): (r: Result<Action, Error>)
    ensures Built(TypeText, r)
    ensures r.Ok? <==> params.Some? && |params.value| >= 1 && params.value[0].Str?
    ensures r.Ok? ==> r.value == ChangeText(TypeIn(params.value[0].s))
  {
    var text :- StringAt(params, 0);
    Ok(ChangeText(TypeIn(text)))
  }

  /** The first param is the replacement text; a missing or non-string one traps. */
  function ReplaceTextAction(params: Option<seq<Value>>): (r: Result<Action, Error>)
    ensures Built(ReplaceText, r)
    ensures r.Ok? <==> params.Some? && |params.value| >= 1 && params.value[0].Str?
    ensures r.Ok? ==> r.value == ChangeText(Replace(params.value[0].s))
  {
    var text :- StringAt(params, 0);
    Ok(ChangeText(Replace(text)))
  }

  /** The first param names the edge; a missing, non-string or unknown one traps. */
  function ScrollToAction(params: Option<seq<Value>>): (r: Result<Action, Error>)
    ensures Built(ScrollTo, r)
    ensures r.Ok? <==> params.Some? && |params.value| >= 1 && params.value[0].Str? && ParseEdge(params.value[0].s).Some?
    ensures r.Ok? ==> r.value == Action.Scroll(To(ParseEdge(params.value[0].s).value))
  {
    var raw :- StringAt(params, 0);
    var edge := ParseEdge(raw);
    if edge.Some? then Ok(Action.Scroll(To(edge.value))) else Err(Crash)
  }

  /** Four params: a number offset and a direction, both required, then two optional numbers. */
  function ScrollAction(params: Option<seq<Value>>): (r: Result<Action, Error>)
    ensures Built(ActionType.Scroll, r)
    ensures r.Ok? <==>
      params.Some? && |params.value| >= 4 && AsNumber(params.value[0]).Some? &&
      params.value[1].Str? && ParseDirection(params.value[1].s).Some?
    ensures r.Ok? ==>
      var p := params.value;
      r.value.Scroll? && r.value.scroll.WithParams? && Some(r.value.scroll.offset) == AsNumber(p[0]) &&
      Some(r.value.scroll.direction) == ParseDirection(p[1].s) &&
      r.value.scroll.startX == AsNumber(p[2]) && r.value.scroll.startY == AsNumber(p[3])
  {
    var offset :- NumberAt(params, 0);
    var raw :- StringAt(params, 1);
    var direction := ParseDirection(raw);
    if direction.None? || |params.value| < 4 then Err(Crash)
    else
      var p := params.value;
      Ok(Action.Scroll(WithParams(offset, direction.value, AsNumber(p[2]), AsNumber(p[3]))))
  }

  /** A column index that is a non-negative integer and a string value; anything else traps. */
  function SetColumnToValueAction(params: Option<seq<Value>>): (r: Result<Action, Error>)
    ensures Built(ActionType.SetColumnToValue, r)
    ensures r.Ok? <==>
      params.Some? && |params.value| >= 2 && params.value[0].Int? && params.value[0].i >= 0 && params.value[1].Str?
    ensures r.Ok? ==> r.value == Action.SetColumnToValue(params.value[0].i, params.value[1].s)
  {
    var index :- NatAt(params, 0);
    var value :- StringAt(params, 1);
    Ok(Action.SetColumnToValue(index, value))
  }

  /** `parseDate(text, format)` is the date formatter; `nil` traps in the forced unwrap. */
  function SetDatePickerAction(params: Option<seq<Value>>, parseDate: (string, string) -> Option<Date>): (r: Result<Action, Error>)
    ensures Built(SetDatePickerDate, r)
    ensures r.Ok? <==>
      params.Some? && |params.value| >= 2 && params.value[0].Str? && params.value[1].Str? &&
      parseDate(params.value[0].s, params.value[1].s).Some?
    ensures r.Ok? ==> r.value == SetDatePicker(parseDate(params.value[0].s, params.value[1].s).value)
  {
    var text :- StringAt(params, 0);
    var format :- StringAt(params, 1);
    var date := parseDate(text, format);
    if date.Some? then Ok(SetDatePicker(date.value)) else Err(Crash)
  }

  /** A number scale, a speed name and a number angle, all forced; anything else traps. */
  function PinchAction(params: Option<seq<Value>>): (r: Result<Action, Error>)
    ensures Built(ActionType.Pinch, r)
    ensures r.Ok? <==>
      params.Some? && |params.value| >= 3 && AsNumber(params.value[0]).Some? && params.value[1].Str? &&
      ParseSpeed(params.value[1].s).Some? && AsNumber(params.value[2]).Some?
    ensures r.Ok? ==>
      var p := params.value;
      r.value.Pinch? && Some(r.value.scale) == AsNumber(p[0]) && Some(r.value.pinchSpeed) == ParseSpeed(p[1].s) &&
      Some(r.value.angle) == AsNumber(p[2])
  {
    var scale :- NumberAt(params, 0);
    var raw :- StringAt(params, 1);
    var angle :- NumberAt(params, 2);
    var speed := ParseSpeed(raw);
    if speed.Some? then Ok(Action.Pinch(scale, speed.value, angle)) else Err(Crash)
  }

  /** The first param is the position, forced to a number. */
  function AdjustSliderAction(params: Option<seq<Value>>): (r: Result<Action, Error>)
    ensures Built(AdjustSliderToPosition, r)
    ensures r.Ok? <==> params.Some? && |params.value| >= 1 && AsNumber(params.value[0]).Some?
    ensures r.Ok? ==> r.value == AdjustSlider(AsNumber(params.value[0]).value)
  {
    var position :- NumberAt(params, 0);
    Ok(AdjustSlider(position))
  }

  /**
   * `action(type:params:)`: the action of the requested kind, or a trap on malformed
   * params; `getAttributes` is refused here because it never acts on one element.
   */
  function BuildAction(kind: ActionType, params: Option<seq<Value>>, parseDate: (string, string) -> Option<Date>): (r: Result<Action, Error>)
    ensures r.Ok? ==> KindOf(r.value) == kind
    ensures r.Err? ==> r.error == (if kind == ActionType.GetAttributes then InvalidActionHandlingRequest else Crash)
    ensures kind == ActionType.GetAttributes ==> r == Err(InvalidActionHandlingRequest)
    // the kinds that take no params build whatever the params are
    ensures kind == TapBackspaceKey ==> r == Ok(TapKey(BackspaceKey))
    ensures kind == TapReturnKey ==> r == Ok(TapKey(ReturnKey))
    ensures kind == ClearText ==> r == Ok(ChangeText(Clear))
  {
    match kind
    case Tap => TapAction(params)
    case MultiTap => MultiTapAction(params)
    case LongPress => LongPressAction(params)
    case Swipe => SwipeAction(params)
    case TakeScreenshot => ScreenshotAction(params)
    case TapBackspaceKey => Ok(TapKey(BackspaceKey))
    case TapReturnKey => Ok(TapKey(ReturnKey))
    case TypeText => TypeTextAction(params)
    case ReplaceText => ReplaceTextAction(params)
    case ClearText => Ok(ChangeText(Clear))
    case ScrollTo => ScrollToAction(params)
    case Scroll => ScrollAction(params)
    case SetColumnToValue => SetColumnToValueAction(params)
    case SetDatePickerDate => SetDatePickerAction(params, parseDate)
    case Pinch => PinchAction(params)
    case AdjustSliderToPosition => AdjustSliderAction(params)
    case GetAttributes => Err(InvalidActionHandlingRequest)
  }

  function NumberValue(n: Option<real>): Value {
    if n.Some? then Double(n.value) else Null
  }

  /**
   * The actions a message can produce through the single-element path: not
   * `getAttributes`, not a long press with an explicit duration (the builder only
   * makes the default one) and not a date-picker action (date text is parsed by a
   * formatter outside this model).
   */
  predicate Decodable(a: Action) {
    !a.GetAttributes? && !a.SetDatePicker? && !(a.LongPress? && a.duration.Some?)
  }

  /** The positional `params` list test code sends for an action. */
  function Encode(a: Action): (p: Option<seq<Value>>)
    requires Decodable(a)
  {
    match a
    case Tap(times) => if times.None? then None else Some([Int(times.value)])
    case TapOnAxis(x, y) => Some([Dict(map["x" := Int(x), "y" := Int(y)])])
    case LongPress(_) => None
    case LongPressAndDrag(d, px, py, target, tx, ty, sp, hold) =>
      Some([NumberValue(d), NumberValue(px), NumberValue(py), target,
            NumberValue(tx), NumberValue(ty), NumberValue(sp), NumberValue(hold)])
    case Swipe(dir, sp, off, sx, sy) =>
      Some([Str(DirectionRaw(dir)), if sp.Some? then Str(SpeedRaw(sp.value)) else Null,
            NumberValue(off), NumberValue(sx), NumberValue(sy)])
    case Screenshot(name) => if name.None? then None else Some([Str(name.value)])
    case TapKey(_) => None
    case ChangeText(c) => (match c case TypeIn(t) => Some([Str(t)]) case Replace(t) => Some([Str(t)]) case Clear => None)
    case Scroll(s) =>
      (match s
       case To(e) => Some([Str(EdgeRaw(e))])
       case WithParams(off, dir, sx, sy) => Some([Double(off), Str(DirectionRaw(dir)), NumberValue(sx), NumberValue(sy)]))
    case SetColumnToValue(i, v) => Some([Int(i), Str(v)])
    case Pinch(scale, sp, angle) => Some([Double(scale), Str(SpeedRaw(sp)), Double(angle)])
    case AdjustSlider(pos) => Some([Double(pos)])
  }

  /** Decoding what `Encode` lays out gives the action back: the positional layout is a wire contract. */
  lemma DecodeEncode(a: Action, parseDate: (string, string) -> Option<Date>)
    requires Decodable(a)
    ensures BuildAction(KindOf(a), Encode(a), parseDate) == Ok(a)
  {
    match a
    case TapOnAxis(x, y) => TapOnAxisRoundTrip(x, y);
    case Swipe(dir, sp, off, sx, sy) => SwipeRoundTrip(dir, sp, off, sx, sy);
    case Scroll(s) => ScrollRoundTrip(s);
    case Pinch(_, sp, _) => RawValuesRoundTrip(Up, sp, TopEdge);
    case _ =>
  }

  lemma TapOnAxisRoundTrip(x: int, y: int)
    ensures TapAction(Encode(TapOnAxis(x, y))) == Ok(TapOnAxis(x, y))
  {
    var m := map["x" := Int(x), "y" := Int(y)];
    assert forall k :: k in m ==> m[k].Int?;
    var axis := AsIntDict(Dict(m));
    assert "x" in axis.value && "y" in axis.value;
    assert axis.value["x"] == x && axis.value["y"] == y;
  }

  lemma SwipeRoundTrip(dir: Direction, sp: Option<Speed>, off: Option<real>, sx: Option<real>, sy: Option<real>)
    ensures SwipeAction(Encode(Action.Swipe(dir, sp, off, sx, sy))) == Ok(Action.Swipe(dir, sp, off, sx, sy))
  {
    RawValuesRoundTrip(dir, if sp.Some? then sp.value else Fast, TopEdge);
  }

  lemma ScrollRoundTrip(s: ScrollType)
    ensures KindOf(Action.Scroll(s)) == ScrollTo ==> ScrollToAction(Encode(Action.Scroll(s))) == Ok(Action.Scroll(s))
    ensures KindOf(Action.Scroll(s)) == ActionType.Scroll ==> ScrollAction(Encode(Action.Scroll(s))) == Ok(Action.Scroll(s))
  {
    if s.To? {
      RawValuesRoundTrip(Up, Fast, s.edge);
    } else {
      RawValuesRoundTrip(s.direction, Fast, TopEdge);
    }
  }

  /** Conversely, whatever a builder yields is decodable again and of the requested kind. */
  lemma BuiltIsDecodable(kind: ActionType, params: Option<seq<Value>>, parseDate: (string, string) -> Option<Date>)
    requires kind != SetDatePickerDate
    requires BuildAction(kind, params, parseDate).Ok?
    ensures Decodable(BuildAction(kind, params, parseDate).value)
    ensures KindOf(BuildAction(kind, params, parseDate).value) == kind
  {
  }

  // ---- expectations -------------------------------------------------------

  /** The threshold `toBeVisible` uses when no numeric param is given. */
  const DefaultVisibilityThreshold: real := 75.0

  function ExpectationKindOf(e: Expectation): ExpectationType {
    match e
    case ToBeVisible(_) => ExpectationType.ToBeVisible
    case ToBeFocused => ExpectationType.ToBeFocused
    case ToHaveText(_) => ExpectationType.ToHaveText
    case ToHaveId(_) => ExpectationType.ToHaveId
    case ToHaveSliderInPosition(_, _) => ToHaveSliderPosition
    case ToExist => ExpectationType.ToExist
  }

  /** `(params?.first?.value as? NSNumber)?.doubleValue` */
  function FirstNumber(params: Option<seq<Value>>): Option<real> {
    if params.Some? && |params.value| > 0 then AsNumber(params.value[0]) else None
  }

  function VisibilityExpectation(params: Option<seq<Value>>): (r: Expectation)
    ensures r.ToBeVisible?
    ensures FirstNumber(params).None? ==> r.threshold == DefaultVisibilityThreshold
    ensures FirstNumber(params).Some? ==> r.threshold == FirstNumber(params).value
  {
    var threshold := FirstNumber(params);
    Expectation.ToBeVisible(threshold.GetOr(DefaultVisibilityThreshold))
  }

  function SliderPositionExpectation(params: Option<seq<Value>>): (r: Result<Expectation, Error>)
    ensures r.Ok? <==> FirstNumber(params).Some?
    ensures r.Err? ==> r.error == Crash
    ensures r.Ok? ==> r.value.ToHaveSliderInPosition? && r.value.position == FirstNumber(params).value
    ensures r.Ok? ==> (r.value.tolerance.Some? <==> |params.value| == 2 && AsNumber(params.value[1]).Some?)
    ensures r.Ok? && |params.value| != 2 ==> r.value.tolerance == None
  {
    var position :- NumberAt(params, 0);
    var tolerance := if |params.value| == 2 then AsNumber(params.value[1]) else None;
    Ok(ToHaveSliderInPosition(position, tolerance))
  }

  /** `expectation(type:params:)`: never throws; malformed params trap. */
  function BuildExpectation(kind: ExpectationType, params: Option<seq<Value>>): (r: Result<Expectation, Error>)
    ensures r.Ok? ==> ExpectationKindOf(r.value) == kind
    ensures r.Err? ==> r.error == Crash
    ensures kind in {ExpectationType.ToBeVisible, ExpectationType.ToBeFocused, ExpectationType.ToExist} ==> r.Ok?
  {
    match kind
    case ToBeVisible => Ok(VisibilityExpectation(params))
    case ToBeFocused => Ok(Expectation.ToBeFocused)
    case ToHaveText =>
      var text :- StringAt(params, 0);
      Ok(Expectation.ToHaveText(text))
    case ToHaveId =>
      var id :- StringAt(params, 0);
      Ok(Expectation.ToHaveId(id))
    case ToHaveSliderPosition => SliderPositionExpectation(params)
    case ToExist => Ok(Expectation.ToExist)
  }

  /** The `params` list test code sends for an expectation. */
  function EncodeExpectation(e: Expectation): Option<seq<Value>> {
    match e
    case ToBeVisible(t) => Some([Double(t)])
    case ToBeFocused => None
    case ToHaveText(t) => Some([Str(t)])
    case ToHaveId(id) => Some([Str(id)])
    case ToHaveSliderInPosition(p, tol) => if tol.None? then Some([Double(p)]) else Some([Double(p), Double(tol.value)])
    case ToExist => None
  }

  lemma DecodeEncodeExpectation(e: Expectation)
    ensures BuildExpectation(ExpectationKindOf(e), EncodeExpectation(e)) == Ok(e)
  {
  }

  /** With no params at all, `toBeVisible` uses 75 and a slider expectation traps. */
  lemma ExpectationDefaults(params: Option<seq<Value>>)
    ensures params.None? || params == Some([]) ==>
      BuildExpectation(ExpectationType.ToBeVisible, params) == Ok(Expectation.ToBeVisible(DefaultVisibilityThreshold))
    ensures params.None? ==> BuildExpectation(ToHaveSliderPosition, params) == Err(Crash)
  {
  }
}
