/**
 * `DetoxUserNotificationParser.parseUserNotification(dict:)`: checks that a
 * user-notification dictionary carries a trigger of a supported type and copies
 * that type to the top level under the absolute-trigger-type key.
 *
 * The three key names and the set of supported trigger types are defined
 * outside this file, so they are parameters here.
 */
module NotificationParser {
  import opened Wrappers
  import opened Values

  datatype NotificationKeys = NotificationKeys(trigger: string, triggerType: string, absoluteTriggerType: string)

  /** `fatalError` in the parser. */
  datatype ParseError = Fatal

  /** The trigger's type, when the trigger is a dictionary holding a string there. */
  function TriggerType(d: map<string, Value>, keys: NotificationKeys): (r: Option<string>)
    ensures r.Some? <==>
      keys.trigger in d && d[keys.trigger].Dict? && keys.triggerType in d[keys.trigger].entries &&
      d[keys.trigger].entries[keys.triggerType].Str?
    ensures r.Some? ==> d[keys.trigger].entries[keys.triggerType] == Str(r.value)
  {
    if keys.trigger in d && d[keys.trigger].Dict? && keys.triggerType in d[keys.trigger].entries then
      AsString(d[keys.trigger].entries[keys.triggerType])
    else None
  }

  /** `parseUserNotification(dict:)` */
  function Parse(dict: Option<map<string, Value>>, keys: NotificationKeys, supported: set<string>)
    : (r: Result<Option<map<string, Value>>, ParseError>)
    ensures dict.None? ==> r == Ok(None)
    ensures dict.Some? ==>
      (r.Err? <==> TriggerType(dict.value, keys).None? || TriggerType(dict.value, keys).value !in supported)
    ensures r.Ok? && dict.Some? ==> r.value.Some?
    ensures r.Ok? && r.value.Some? ==>
      var out := r.value.value;
      out.Keys == dict.value.Keys + {keys.absoluteTriggerType} &&
      out[keys.absoluteTriggerType] == Str(TriggerType(dict.value, keys).value) &&
      forall k :: k in dict.value && k != keys.absoluteTriggerType ==> out[k] == dict.value[k]
  {
    if dict.None? then Ok(None)
    else
      var triggerType := TriggerType(dict.value, keys);
      if triggerType.None? || triggerType.value !in supported then Err(Fatal)
      else Ok(Some(dict.value[keys.absoluteTriggerType := Str(triggerType.value)]))
  }

  /**
   * Parsing is idempotent when the absolute-trigger-type key is not the trigger
   * key; were they the same, the first parse would overwrite the trigger with a
   * string and a second parse would trap.
   */
  lemma ParseIdempotent(d: map<string, Value>, keys: NotificationKeys, supported: set<string>)
    requires keys.absoluteTriggerType != keys.trigger
    requires Parse(Some(d), keys, supported).Ok?
    ensures Parse(Parse(Some(d), keys, supported).value, keys, supported) == Parse(Some(d), keys, supported)
  {
    var out := Parse(Some(d), keys, supported).value.value;
    assert out == d[keys.absoluteTriggerType := Str(TriggerType(d, keys).value)];
    assert TriggerType(out, keys) == TriggerType(d, keys);
    assert out[keys.absoluteTriggerType := Str(TriggerType(d, keys).value)] == out;
  }

  /** With the two keys equal, a successful parse cannot be repeated. */
  lemma ParseNotIdempotentOnSharedKey(d: map<string, Value>, keys: NotificationKeys, supported: set<string>)
    requires keys.absoluteTriggerType == keys.trigger
    requires Parse(Some(d), keys, supported).Ok?
    ensures Parse(Parse(Some(d), keys, supported).value, keys, supported) == Err(Fatal)
  {
  }
}
