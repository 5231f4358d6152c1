/**
 * The expectation objects of the older test runner (DetoxTestRunner's
 * Expectation.swift): the kind-to-class and kind-to-key tables, the factory that
 * builds an expectation from its dictionary representation, its description and
 * what each class evaluates on an element.
 *
 * Traps (`as!`, `!` on a missing value) make the factory return `None`. The
 * element pattern is kept as the dictionary it is parsed from; its own parsing,
 * its description and the element query are not part of this model and appear
 * as parameters.
 */
module RunnerExpectation {
  import opened Wrappers
  import opened Values
  import opened Text

  const KindKey := "expectation"
  const ParamsKey := "params"
  const ModifiersKey := "modifiers"

  const ToBeVisible := "toBeVisible"
  const ToExist := "toExist"
  const ToHaveText := "toHaveText"
  const ToHaveLabel := "toHaveLabel"
  const ToHaveId := "toHaveId"
  const ToHaveValue := "toHaveValue"
  const ToHavePlaceholderValue := "toHavePlaceholderValue"

  /** The raw value of `Modifier.not`. */
  const NotModifier := "not"

  datatype ExpectationClass = ToBeVisibleClass | ToExistClass | ValueClass

  const Mapping: map<string, ExpectationClass> := map[
    ToBeVisible := ToBeVisibleClass,
    ToExist := ToExistClass,
    ToHaveText := ValueClass,
    ToHaveLabel := ValueClass,
    ToHaveId := ValueClass,
    ToHaveValue := ValueClass,
    ToHavePlaceholderValue := ValueClass]

  const KeyMapping: map<string, string> := map[
    ToHaveText := "label",
    ToHaveLabel := "label",
    ToHaveId := "identifier",
    ToHaveValue := "value",
    ToHavePlaceholderValue := "placeholderValue"]

  datatype Expectation =
    | ToBeVisibleExpectation(kind: string, modifiers: set<string>, element: map<string, Value>)
    | ToExistExpectation(kind: string, modifiers: set<string>, element: map<string, Value>)
    | ValueExpectation(kind: string, modifiers: set<string>, element: map<string, Value>, key: string, value: Value)

  function ClassOf(e: Expectation): ExpectationClass {
    match e
    case ToBeVisibleExpectation(_, _, _) => ToBeVisibleClass
    case ToExistExpectation(_, _, _) => ToExistClass
    case ValueExpectation(_, _, _, _, _) => ValueClass
  }

  /** Every kind the table maps to the value class has a key, so `keyMapping[kind]!` cannot trap. */
  lemma KeyMappingCoversValueKinds()
    ensures forall k :: k in Mapping && Mapping[k] == ValueClass <==> k in KeyMapping
    ensures KeyMapping[ToHaveText] == KeyMapping[ToHaveLabel] == "label"
  {
  }

  /** The modifiers: the strings of a string array, and the empty set for anything else. */
  function Modifiers(d: map<string, Value>): (r: set<string>)
    ensures ModifiersKey !in d || AsStrings(d[ModifiersKey]).None? ==> r == {}
    ensures ModifiersKey in d && AsStrings(d[ModifiersKey]).Some? ==>
      forall m :: m in r <==> Str(m) in d[ModifiersKey].items
  {
    if ModifiersKey in d && AsStrings(d[ModifiersKey]).Some? then
      var items := AsStrings(d[ModifiersKey]).value;
      set i | 0 <= i < |items| :: items[i]
    else {}
  }

  /**
   * `params as! [CustomStringConvertible]?`: absent is `nil`, an array is kept,
   * anything else traps (the outer `None`).
   */
  function Params(d: map<string, Value>): (r: Option<Option<seq<Value>>>)
    ensures ParamsKey !in d ==> r == Some(None)
    ensures ParamsKey in d ==> (r.Some? <==> d[ParamsKey].Array?)
    ensures ParamsKey in d && r.Some? ==> r.value == Some(d[ParamsKey].items)
  {
    if ParamsKey !in d then Some(None)
    else if d[ParamsKey].Array? then Some(Some(d[ParamsKey].items))
    else None
  }

  /** `Expectation.with(dictionaryRepresentation:)`; `None` is a trap. */
  function With(d: map<string, Value>): (r: Option<Expectation>)
    ensures r.Some? <==>
      KindKey in d && d[KindKey].Str? && d[KindKey].s in Mapping && Params(d).Some? &&
      (Mapping[d[KindKey].s] == ValueClass ==> Params(d).value.Some? && |Params(d).value.value| > 0)
    ensures r.Some? ==>
      r.value.kind == d[KindKey].s && r.value.modifiers == Modifiers(d) && r.value.element == d &&
      ClassOf(r.value) == Mapping[r.value.kind]
    ensures r.Some? && r.value.ValueExpectation? ==>
      r.value.key == KeyMapping[r.value.kind] && r.value.value == d[ParamsKey].items[0]
  {
    if KindKey !in d || !d[KindKey].Str? then None
    else
      var kind := d[KindKey].s;
      var params := Params(d);
      if params.None? then None
      else
        var modifiers := Modifiers(d);
        if kind !in Mapping then None
        else
          match Mapping[kind]
          case ValueClass =>
            KeyMappingCoversValueKinds();
            if params.value.None? || |params.value.value| == 0 then None
            else Some(ValueExpectation(kind, modifiers, d, KeyMapping[kind], params.value.value[0]))
          case ToBeVisibleClass => Some(ToBeVisibleExpectation(kind, modifiers, d))
          case ToExistClass => Some(ToExistExpectation(kind, modifiers, d))
  }

  function NotPrefix(e: Expectation): string {
    if NotModifier in e.modifiers then "NOT " else ""
  }

  /**
   * `description`: "NOT " when negated, the upper-cased kind, for a value
   * expectation the value in parentheses, then " WITH " and the element.
   */
  function Description(e: Expectation, elementDescription: string, describe: Value -> string): string {
    NotPrefix(e) + Upper(e.kind) +
    (if e.ValueExpectation? then "(" + describe(e.value) + ")" else "") +
    " WITH " + elementDescription
  }

  /** The description of a built expectation is negated exactly when the modifiers hold `not`, and then names the kind. */
  lemma DescriptionNegation(d: map<string, Value>, elementDescription: string, describe: Value -> string)
    requires With(d).Some?
    ensures var e := With(d).value;
      StartsWith(Description(e, elementDescription, describe), "NOT ") <==> NotModifier in e.modifiers
    ensures var e := With(d).value; var s := Description(e, elementDescription, describe);
      |NotPrefix(e)| + |e.kind| <= |s| && s[|NotPrefix(e)|..|NotPrefix(e)| + |e.kind|] == Upper(e.kind)
  {
    KnownKindDescription(With(d).value, elementDescription, describe);
  }

  lemma KnownKindDescription(e: Expectation, elementDescription: string, describe: Value -> string)
    requires e.kind in Mapping
    ensures StartsWith(Description(e, elementDescription, describe), "NOT ") <==> NotModifier in e.modifiers
    ensures var s := Description(e, elementDescription, describe);
      |NotPrefix(e)| + |e.kind| <= |s| && s[|NotPrefix(e)|..|NotPrefix(e)| + |e.kind|] == Upper(e.kind)
  {
    var u := Upper(e.kind);
    var tail := (if e.ValueExpectation? then "(" + describe(e.value) + ")" else "") + " WITH " + elementDescription;
    assert Description(e, elementDescription, describe) == NotPrefix(e) + u + tail;
    // every known kind starts with "to", so its upper-cased form starts with "T", not "N"
    KindStartsWithTo(e.kind);
    assert u[0] == 'T';
    NegatedParts(NotPrefix(e), u, tail, NotModifier in e.modifiers);
  }

  /** A "NOT " or empty prefix before a part that starts with 'T' is seen at the front and keeps the part in place. */
  lemma NegatedParts(p: string, u: string, tail: string, negated: bool)
    requires p == (if negated then "NOT " else "")
    requires |u| >= 1 && u[0] == 'T'
    ensures StartsWith(p + u + tail, "NOT ") <==> negated
    ensures |p| + |u| <= |p + u + tail| && (p + u + tail)[|p|..|p| + |u|] == u
  {
    var s := p + u + tail;
    assert s[..|p|] == p && s[|p|..|p| + |u|] == u;
    if !negated {
      assert s[0] == 'T';
    }
  }

  lemma KindStartsWithTo(k: string)
    requires k in Mapping
    ensures |k| >= 2 && k[0] == 't' && k[1] == 'o'
  {
    assert k in {ToBeVisible, ToExist, ToHaveText, ToHaveLabel, ToHaveId, ToHaveValue, ToHavePlaceholderValue};
  }

  /** What an element offers to the evaluations: visibility, existence and key-value lookup. */
  datatype ElementState = ElementState(isVisible: bool, isPresent: bool, valueForKey: string -> Value)

  datatype Comparison = EqualTo | NotEqualTo

  /** The comparison a value expectation makes. */
  function ComparisonOf(e: Expectation): (c: Comparison)
    ensures c == NotEqualTo <==> NotModifier in e.modifiers
  {
    if NotModifier in e.modifiers then NotEqualTo else EqualTo
  }

  /** `evaluate(with:)`: visibility, existence, or the key compared with the value. */
  function Evaluate(e: Expectation, element: ElementState): bool {
    match e
    case ToBeVisibleExpectation(_, _, _) => element.isVisible
    case ToExistExpectation(_, _, _) => element.isPresent
    case ValueExpectation(_, _, _, key, value) =>
      if ComparisonOf(e) == EqualTo then element.valueForKey(key) == value else element.valueForKey(key) != value
  }

  /**
   * `not` inverts a value expectation, and the visibility and existence
   * expectations do not look at their modifiers at all.
   */
  lemma NotInvertsValueOnly(e: Expectation, element: ElementState)
    ensures e.ValueExpectation? ==>
      Evaluate(e.(modifiers := e.modifiers + {NotModifier}), element) ==
      !Evaluate(e.(modifiers := e.modifiers - {NotModifier}), element)
    ensures e.ValueExpectation? ==>
      Evaluate(e, element) == (NotModifier !in e.modifiers <==> element.valueForKey(e.key) == e.value)
    ensures !e.ValueExpectation? ==>
      forall m :: Evaluate(e.(modifiers := m), element) == Evaluate(e, element)
  {
  }
}
