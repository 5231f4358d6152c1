/**
 * Untyped payload values. `Value` stands for Swift's `AnyCodable` / `AnyHashable`
 * and for the JSON-like values a message or a notification dictionary carries.
 * `Element(id)` is a live XCUIElement handle; `Handle(id)` is any other opaque
 * hashable object (not an XCUIElement).
 */
module Values {
  import opened Wrappers

  datatype Value =
    | Null
    | Bool(b: bool)
    | Int(i: int)
    | Double(d: real)
    | Str(s: string)
    | Array(items: seq<Value>)
    | Dict(entries: map<string, Value>)
    | Element(id: nat)
    | Handle(id: nat)

  /** `value as? String` */
  function AsString(v: Value): (r: Option<string>)
    ensures r.Some? <==> v.Str?
    ensures r.Some? ==> v == Str(r.value)
  {
    if v.Str? then Some(v.s) else None
  }

  /**
   * `(value as? NSNumber)?.doubleValue`: integers, doubles and booleans all bridge
   * to a number, a boolean to 1 or 0.
   */
  function AsNumber(v: Value): (r: Option<real>)
    ensures r.Some? <==> (v.Int? || v.Double? || v.Bool?)
    ensures v.Double? ==> r == Some(v.d)
    ensures v.Int? ==> r == Some(v.i as real)
    ensures v.Bool? ==> r == Some(if v.b then 1.0 else 0.0)
  {
    match v
    case Int(i) => Some(i as real)
    case Double(d) => Some(d)
    case Bool(b) => Some(if b then 1.0 else 0.0)
    case _ => None
  }

  /** `value as? [String: Int]`: a dictionary whose every value is an integer. */
  function AsIntDict(v: Value): (r: Option<map<string, int>>)
    ensures r.Some? <==> (v.Dict? && forall k :: k in v.entries ==> v.entries[k].Int?)
    ensures r.Some? ==> r.value.Keys == v.entries.Keys
    ensures r.Some? ==> forall k :: k in r.value ==> v.entries[k] == Int(r.value[k])
  {
    if v.Dict? && forall k :: k in v.entries ==> v.entries[k].Int? then
      Some(map k | k in v.entries :: v.entries[k].i)
    else
      None
  }

  /** `value as? [String]`: an array whose every item is a string. */
  function AsStrings(v: Value): (r: Option<seq<string>>)
    ensures r.Some? <==> (v.Array? && forall i :: 0 <= i < |v.items| ==> v.items[i].Str?)
    ensures r.Some? ==> |r.value| == |v.items|
    ensures r.Some? ==> forall i :: 0 <= i < |r.value| ==> v.items[i] == Str(r.value[i])
  {
    if v.Array? && forall i :: 0 <= i < |v.items| ==> v.items[i].Str? then
      Some(seq(|v.items|, i requires 0 <= i < |v.items| => v.items[i].s))
    else
      None
  }
}
