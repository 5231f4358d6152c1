/**
 * The invocation dispatcher (InvokeHandler.swift). It resolves the message's
 * elements through the matcher, selects one by index, and either fetches the
 * attributes of all matched elements, runs an action (once, or in a
 * check-then-act polling loop), or evaluates an expectation.
 *
 * The matcher and the two delegates are oracles: each answers from its request
 * and the log of every call made so far, so element state may change as actions
 * run. `Handler.calls` is that log; every method appends what it asked and what
 * it was told, and is proved equal to a specification function on the log.
 */
module InvokeHandler {
  import opened Wrappers
  import opened Values
  import opened InvokeTypes
  import opened InvokeDecode

  /** One call to the matcher or a delegate, with its outcome (`None` = success). */
  datatype Call =
    | Matched(pattern: Predicate, found: Result<seq<Value>, Error>)
    | Acted(action: Action, on: Value, failure: Option<Error>)
    | Expected(expectation: Expectation, isTruthy: bool, on: Value, timeout: Option<real>, failure: Option<Error>)
    | AttributesRead(elements: seq<Value>, attributes: Result<Value, Error>)

  /** The element matcher, the action delegate, the expectation delegate and the date formatter. */
  datatype Delegates = Delegates(
    matcher: (Predicate, seq<Call>) -> Result<seq<Value>, Error>,
    act: (Action, Value, seq<Call>) -> Option<Error>,
    evaluate: (Expectation, bool, Value, Option<real>, seq<Call>) -> Option<Error>,
    getAttributes: (seq<Value>, seq<Call>) -> Result<Value, Error>,
    parseDate: (string, string) -> Option<Date>)

  /** The outcome of a step together with the call log after it. */
  datatype Run<T> = Run(result: Result<T, Error>, calls: seq<Call>)

  predicate Extends(t: seq<Call>, u: seq<Call>) {
    |t| <= |u| && u[..|t|] == t
  }

  /** The number of actions dispatched in a log. */
  function Acts(s: seq<Call>): nat {
    if |s| == 0 then 0 else Acts(s[..|s| - 1]) + (if s[|s| - 1].Acted? then 1 else 0)
  }

  lemma {:induction false} ActsAppend(t: seq<Call>, u: seq<Call>)
    ensures Acts(t + u) == Acts(t) + Acts(u)
    decreases |u|
  {
    if |u| > 0 {
      var v := u[..|u| - 1];
      assert (t + u)[..|t + u| - 1] == t + v;
      assert u[..|u| - 1] == v;
      ActsAppend(t, v);
    } else {
      assert t + u == t;
    }
  }

  /** `element(from:at:)`: the element at `index`, 0 when absent. */
  function ElementAt(elements: seq<Value>, index: Option<int>): (r: Result<Value, Error>)
    ensures r.Ok? <==> 0 <= index.GetOr(0) < |elements|
    ensures r.Ok? ==> r.value == elements[index.GetOr(0)]
    ensures r.Err? ==> r.error == NoElementAtIndex
  {
    var i := index.GetOr(0);
    if i >= 0 && |elements| > i then Ok(elements[i]) else Err(NoElementAtIndex)
  }

  lemma DefaultIndexIsZero(elements: seq<Value>)
    ensures ElementAt(elements, None) == ElementAt(elements, Some(0))
    ensures elements == [] ==> ElementAt(elements, None) == Err(NoElementAtIndex)
  {
  }

  /** `isTruthy`: false exactly when the modifiers hold `not`. */
  function IsTruthy(modifiers: Option<seq<Modifier>>): (r: bool)
    ensures !r <==> modifiers.Some? && Not in modifiers.value
    ensures modifiers.None? ==> r
  {
    !(modifiers.Some? && Not in modifiers.value)
  }

  /** `findElements`: the matcher's answer for the predicate, recorded in the log. */
  function FindSpec(d: Delegates, p: Predicate, t: seq<Call>): (r: Run<seq<Value>>)
    ensures r.result == d.matcher(p, t)
    ensures r.calls == t + [Matched(p, r.result)]
  {
    var found := d.matcher(p, t);
    Run(found, t + [Matched(p, found)])
  }

  /** `handleExpectation`: build the expectation, then ask the delegate once. */
  function ExpectSpec(d: Delegates, el: Value, kind: ExpectationType, params: Option<seq<Value>>,
                      modifiers: Option<seq<Modifier>>, timeout: Option<real>, t: seq<Call>): Run<()>
  {
    var e := BuildExpectation(kind, params);
    if e.Err? then Run(Err(e.error), t)
    else
      var truthy := IsTruthy(modifiers);
      var failure := d.evaluate(e.value, truthy, el, timeout, t);
      Run(if failure.None? then Ok(()) else Err(failure.value),
          t + [Expected(e.value, truthy, el, timeout, failure)])
  }

  /**
   * An expectation that does not build traps with nothing asked; one that builds is
   * asked exactly once, with the truthiness the modifiers give, and its failure is the result.
   */
  lemma ExpectLogs(d: Delegates, el: Value, kind: ExpectationType, params: Option<seq<Value>>,
                   modifiers: Option<seq<Modifier>>, timeout: Option<real>, t: seq<Call>)
    ensures var r := ExpectSpec(d, el, kind, params, modifiers, timeout, t);
      BuildExpectation(kind, params).Err? ==> r == Run(Err(Crash), t)
    ensures var r := ExpectSpec(d, el, kind, params, modifiers, timeout, t);
      BuildExpectation(kind, params).Ok? ==>
        |r.calls| == |t| + 1 && r.calls[..|t|] == t && r.calls[|t|].Expected? &&
        r.calls[|t|] == Expected(BuildExpectation(kind, params).value, IsTruthy(modifiers), el, timeout, r.calls[|t|].failure) &&
        r.calls[|t|].failure == d.evaluate(BuildExpectation(kind, params).value, IsTruthy(modifiers), el, timeout, t) &&
        (r.result.Ok? <==> r.calls[|t|].failure.None?) &&
        (r.result.Err? ==> r.result.error == r.calls[|t|].failure.value)
  {
  }

  /** `handleWhileMessage`: resolve the nested predicate and index, then check with no timeout. */
  function CheckSpec(d: Delegates, w: WhileMessage, t: seq<Call>): Run<()>
  {
    var found := FindSpec(d, w.pattern, t);
    if found.result.Err? then Run(Err(found.result.error), found.calls)
    else
      var el := ElementAt(found.result.value, w.atIndex);
      if el.Err? then Run(Err(el.error), found.calls)
      else ExpectSpec(d, el.value, w.expectation, w.params, w.modifiers, None, found.calls)
  }

  /** `handleAction(on:type:params:)`: build the action, then dispatch it once. */
  function ActOnceSpec(d: Delegates, el: Value, kind: ActionType, params: Option<seq<Value>>, t: seq<Call>): Run<()>
  {
    var a := BuildAction(kind, params, d.parseDate);
    if a.Err? then Run(Err(a.error), t)
    else
      var failure := d.act(a.value, el, t);
      Run(if failure.None? then Ok(()) else Err(failure.value), t + [Acted(a.value, el, failure)])
  }

  /**
   * A request that does not build becomes its error with nothing dispatched;
   * one that builds is dispatched exactly once, and the delegate's failure is the result.
   */
  lemma ActOnceLogs(d: Delegates, el: Value, kind: ActionType, params: Option<seq<Value>>, t: seq<Call>)
    ensures var r := ActOnceSpec(d, el, kind, params, t);
      BuildAction(kind, params, d.parseDate).Err? ==> r == Run(Err(BuildAction(kind, params, d.parseDate).error), t)
    ensures var r := ActOnceSpec(d, el, kind, params, t);
      BuildAction(kind, params, d.parseDate).Ok? ==>
        |r.calls| == |t| + 1 && r.calls[..|t|] == t && r.calls[|t|].Acted? &&
        r.calls[|t|] == Acted(BuildAction(kind, params, d.parseDate).value, el, r.calls[|t|].failure) &&
        r.calls[|t|].failure == d.act(BuildAction(kind, params, d.parseDate).value, el, t) &&
        (r.result.Ok? <==> r.calls[|t|].failure.None?) &&
        (r.result.Err? ==> r.result.error == r.calls[|t|].failure.value)
  {
  }

  /**
   * The polling loop over a check and an action, each a step on the call log:
   * check; stop on success; on a thrown failure act once and go round again. A
   * trap in the check is not caught, and a failing action ends the loop with its
   * error. `None` means the loop did not stop within `fuel` rounds.
   */
  function Loop(check: seq<Call> -> Run<()>, act: seq<Call> -> Run<()>, t: seq<Call>, fuel: nat): Option<Run<()>>
    decreases fuel
  {
    if fuel == 0 then None
    else
      var c := check(t);
      if c.result.Ok? || c.result.error == Crash then Some(c)
      else
        var a := act(c.calls);
        if a.result.Err? then Some(a)
        else Loop(check, act, a.calls, fuel - 1)
  }

  /** The loop of `handleAction`: the nested check of the while message, and the action on the element. */
  function LoopSpec(d: Delegates, w: WhileMessage, el: Value, kind: ActionType, params: Option<seq<Value>>,
                    t: seq<Call>, fuel: nat): Option<Run<()>>
  {
    Loop(s => CheckSpec(d, w, s), s => ActOnceSpec(d, el, kind, params, s), t, fuel)
  }

  /**
   * Whatever the check and the action, a loop that stops has only appended to the
   * log, made its first call through the check, and, when it succeeds, ends with
   * the last call of a passing check (`last` is what such a call satisfies).
   */
  lemma {:induction false} LoopExtends(check: seq<Call> -> Run<()>, act: seq<Call> -> Run<()>, last: Call -> bool,
                                       t: seq<Call>, fuel: nat)
    requires forall s {:trigger check(s)} :: Extends(s, check(s).calls) && |check(s).calls| > |s|
    requires forall s {:trigger check(s)} :: check(s).result.Ok? ==> last(check(s).calls[|check(s).calls| - 1])
    requires forall s {:trigger act(s)} :: Extends(s, act(s).calls)
    requires Loop(check, act, t, fuel).Some?
    ensures var r := Loop(check, act, t, fuel).value;
      Extends(t, r.calls) && |r.calls| > |t| && r.calls[|t|] == check(t).calls[|t|]
    ensures var r := Loop(check, act, t, fuel).value;
      r.result.Ok? ==> last(r.calls[|r.calls| - 1])
    decreases fuel
  {
    var c := check(t);
    if c.result.Err? && c.result.error != Crash {
      var a := act(c.calls);
      if a.result.Ok? {
        LoopExtends(check, act, last, a.calls, fuel - 1);
        var u := Loop(check, act, a.calls, fuel - 1).value.calls;
        assert u[..|a.calls|] == a.calls;
        assert a.calls[..|c.calls|] == c.calls;
        assert u[..|t|] == t by {
          assert u[..|a.calls|][..|c.calls|][..|t|] == t;
        }
        assert u[|t|] == c.calls[|t|] by {
          assert u[|t|] == u[..|a.calls|][|t|] == a.calls[..|c.calls|][|t|];
        }
      }
    }
  }

  /**
   * The loop of `handleAction` checks before anything else, and when it succeeds
   * the last call it made is a passing check without a timeout: it never acts after
   * the check passed.
   */
  lemma LoopShape(d: Delegates, w: WhileMessage, el: Value, kind: ActionType,
                  params: Option<seq<Value>>, t: seq<Call>, fuel: nat)
    requires LoopSpec(d, w, el, kind, params, t, fuel).Some?
    ensures var r := LoopSpec(d, w, el, kind, params, t, fuel).value;
      Extends(t, r.calls) && |r.calls| > |t| && r.calls[|t|] == Matched(w.pattern, d.matcher(w.pattern, t))
    ensures var r := LoopSpec(d, w, el, kind, params, t, fuel).value;
      r.result.Ok? ==>
        r.calls[|r.calls| - 1].Expected? && r.calls[|r.calls| - 1].failure.None? && r.calls[|r.calls| - 1].timeout.None?
  {
    var check := s => CheckSpec(d, w, s);
    var act := s => ActOnceSpec(d, el, kind, params, s);
    var last := (c: Call) => c.Expected? && c.failure.None? && c.timeout.None?;
    forall s ensures Extends(s, check(s).calls) && |check(s).calls| > |s| &&
                     (check(s).result.Ok? ==> last(check(s).calls[|check(s).calls| - 1])) {
      CheckCalls(d, w, s);
    }
    forall s ensures Extends(s, act(s).calls) {
      ActOnceLogs(d, el, kind, params, s);
    }
    LoopExtends(check, act, last, t, fuel);
    CheckCalls(d, w, t);
  }

  function HandleActionSpec(d: Delegates, el: Value, kind: ActionType, params: Option<seq<Value>>,
                            whileMessage: Option<WhileMessage>, t: seq<Call>, fuel: nat): Option<Run<()>>
  {
    if whileMessage.None? then Some(ActOnceSpec(d, el, kind, params, t))
    else LoopSpec(d, whileMessage.value, el, kind, params, t, fuel)
  }

  /** An action or expectation outcome as `handle` returns it: no value. */
  function NoValue(r: Run<()>): Run<Option<Value>> {
    Run(if r.result.Ok? then Ok(None) else Err(r.result.error), r.calls)
  }

  /**
   * `handle(parsedMessage:)`. Resolution and index selection come first, for every
   * kind of message; only `getAttributes` returns a value, computed from all the
   * matched elements.
   */
  function HandleSpec(d: Delegates, m: Message, t: seq<Call>, fuel: nat): (r: Option<Run<Option<Value>>>)
    ensures d.matcher(m.pattern, t).Err? ==>
      r == Some(Run(Err(d.matcher(m.pattern, t).error), t + [Matched(m.pattern, d.matcher(m.pattern, t))]))
    ensures d.matcher(m.pattern, t).Ok? && ElementAt(d.matcher(m.pattern, t).value, m.atIndex).Err? ==>
      r == Some(Run(Err(NoElementAtIndex), t + [Matched(m.pattern, d.matcher(m.pattern, t))]))
    ensures r.Some? && r.value.result.Ok? && r.value.result.value.Some? ==>
      m.kind == ActionMessage && m.action == Some(ActionType.GetAttributes)
    ensures m.kind == ActionMessage && m.action == Some(ActionType.GetAttributes) && d.matcher(m.pattern, t).Ok? &&
            ElementAt(d.matcher(m.pattern, t).value, m.atIndex).Ok? ==>
      var all := d.matcher(m.pattern, t).value;
      var t1 := t + [Matched(m.pattern, d.matcher(m.pattern, t))];
      var attrs := d.getAttributes(all, t1);
      r == Some(Run(if attrs.Ok? then Ok(Some(attrs.value)) else Err(attrs.error), t1 + [AttributesRead(all, attrs)]))
    ensures m.kind == ActionMessage && m.action.None? && d.matcher(m.pattern, t).Ok? &&
            ElementAt(d.matcher(m.pattern, t).value, m.atIndex).Ok? ==>
      r == Some(Run(Err(InvalidActionType), t + [Matched(m.pattern, d.matcher(m.pattern, t))]))
  {
    var found := FindSpec(d, m.pattern, t);
    if found.result.Err? then Some(Run(Err(found.result.error), found.calls))
    else
      var el := ElementAt(found.result.value, m.atIndex);
      if el.Err? then Some(Run(Err(el.error), found.calls))
      else
        match m.kind
        case ActionMessage =>
          if m.action.None? then Some(Run(Err(InvalidActionType), found.calls))
          else if m.action.value == ActionType.GetAttributes then
            var attrs := d.getAttributes(found.result.value, found.calls);
            Some(Run(if attrs.Ok? then Ok(Some(attrs.value)) else Err(attrs.error),
                     found.calls + [AttributesRead(found.result.value, attrs)]))
          else
            var acted := HandleActionSpec(d, el.value, m.action.value, m.params, m.whileMessage, found.calls, fuel);
            if acted.None? then None else Some(NoValue(acted.value))
        case ExpectationMessage =>
          if m.expectation.None? then Some(Run(Err(Crash), found.calls))
          else Some(NoValue(ExpectSpec(d, el.value, m.expectation.value, m.params, m.modifiers, m.timeout, found.calls)))
  }

  /** Every message, whatever its kind, is first resolved through the matcher; the log only grows. */
  lemma HandleShape(d: Delegates, m: Message, t: seq<Call>, fuel: nat)
    requires HandleSpec(d, m, t, fuel).Some?
    ensures var r := HandleSpec(d, m, t, fuel).value;
      Extends(t, r.calls) && |r.calls| > |t| && r.calls[|t|] == Matched(m.pattern, d.matcher(m.pattern, t))
  {
    var found := FindSpec(d, m.pattern, t);
    if found.result.Ok? && ElementAt(found.result.value, m.atIndex).Ok? && m.kind == ActionMessage &&
       m.action.Some? && m.action.value != ActionType.GetAttributes {
      var el := ElementAt(found.result.value, m.atIndex).value;
      var u := HandleSpec(d, m, t, fuel).value.calls;
      if m.whileMessage.None? {
        ActOnceLogs(d, el, m.action.value, m.params, found.calls);
      } else {
        LoopShape(d, m.whileMessage.value, el, m.action.value, m.params, found.calls, fuel);
        assert u[..|found.calls|][..|t|] == t;
      }
    }
  }

  /** More fuel never changes the outcome of a loop that has stopped. */
  lemma {:induction false} LoopFuelMonotone(check: seq<Call> -> Run<()>, act: seq<Call> -> Run<()>,
                                            t: seq<Call>, n: nat, m: nat)
    requires Loop(check, act, t, n).Some?
    requires n <= m
    ensures Loop(check, act, t, m) == Loop(check, act, t, n)
    decreases n
  {
    var c := check(t);
    if c.result.Err? && c.result.error != Crash {
      var a := act(c.calls);
      if a.result.Ok? {
        LoopFuelMonotone(check, act, a.calls, n - 1, m - 1);
      }
    }
  }

  /**
   * The nested check resolves its predicate first, never dispatches an action and
   * always evaluates without a timeout; when it passes, its last call is a passing evaluation.
   */
  lemma CheckCalls(d: Delegates, w: WhileMessage, t: seq<Call>)
    ensures var r := CheckSpec(d, w, t);
      Extends(t, r.calls) && |r.calls| > |t| && r.calls[|t|] == Matched(w.pattern, d.matcher(w.pattern, t))
    ensures var r := CheckSpec(d, w, t);
      r.result.Ok? ==> r.calls[|r.calls| - 1].Expected? && r.calls[|r.calls| - 1].failure.None?
    ensures var u := CheckSpec(d, w, t).calls;
      forall i :: |t| <= i < |u| ==> !u[i].Acted? && (u[i].Expected? ==> u[i].timeout == None)
  {
    var found := FindSpec(d, w.pattern, t);
    if found.result.Ok? && ElementAt(found.result.value, w.atIndex).Ok? {
      var el := ElementAt(found.result.value, w.atIndex).value;
      ExpectLogs(d, el, w.expectation, w.params, w.modifiers, None, found.calls);
      var u := CheckSpec(d, w, t).calls;
      assert u[..|found.calls|][..|t|] == t;
    }
  }

  lemma CheckKeepsActs(d: Delegates, w: WhileMessage, t: seq<Call>)
    ensures Acts(CheckSpec(d, w, t).calls) == Acts(t)
  {
    CheckCalls(d, w, t);
    var u := CheckSpec(d, w, t).calls;
    assert t + u[|t|..] == u;
    ActsAppend(t, u[|t|..]);
    NoActsCounted(u[|t|..]);
  }

  /** A successful single dispatch adds exactly one action to the log. */
  lemma ActOnceAddsOne(d: Delegates, el: Value, kind: ActionType, params: Option<seq<Value>>, t: seq<Call>)
    requires ActOnceSpec(d, el, kind, params, t).result.Ok?
    ensures Acts(ActOnceSpec(d, el, kind, params, t).calls) == Acts(t) + 1
  {
    ActOnceLogs(d, el, kind, params, t);
    var u := ActOnceSpec(d, el, kind, params, t).calls;
    assert u[..|u| - 1] == t;
  }

  /** One round of the loop whose check threw and whose action succeeded. */
  lemma LoopRetries(d: Delegates, w: WhileMessage, el: Value, kind: ActionType, params: Option<seq<Value>>,
                    t: seq<Call>, fuel: nat)
    requires fuel > 0
    requires CheckSpec(d, w, t).result.Err? && CheckSpec(d, w, t).result.error != Crash
    requires ActOnceSpec(d, el, kind, params, CheckSpec(d, w, t).calls).result.Ok?
    ensures LoopSpec(d, w, el, kind, params, t, fuel) ==
            LoopSpec(d, w, el, kind, params, ActOnceSpec(d, el, kind, params, CheckSpec(d, w, t).calls).calls, fuel - 1)
  {
  }

  /** A round that ends the loop: the check passed or trapped, or the action failed. */
  lemma LoopEnds(d: Delegates, w: WhileMessage, el: Value, kind: ActionType, params: Option<seq<Value>>,
                 t: seq<Call>, fuel: nat)
    requires fuel > 0
    ensures CheckSpec(d, w, t).result.Ok? || CheckSpec(d, w, t).result == Err(Crash) ==>
            LoopSpec(d, w, el, kind, params, t, fuel) == Some(CheckSpec(d, w, t))
    ensures CheckSpec(d, w, t).result.Err? && CheckSpec(d, w, t).result.error != Crash &&
            ActOnceSpec(d, el, kind, params, CheckSpec(d, w, t).calls).result.Err? ==>
            LoopSpec(d, w, el, kind, params, t, fuel) == Some(ActOnceSpec(d, el, kind, params, CheckSpec(d, w, t).calls))
  {
  }

  /**
   * Check-then-act, for any check and action: when the check leaves the action
   * count alone and passes exactly once `k` actions have run, never traps, and
   * every action succeeds and is counted once, the loop acts until the count
   * reaches `k` and then stops without acting again.
   */
  lemma {:induction false} LoopCounts(check: seq<Call> -> Run<()>, act: seq<Call> -> Run<()>,
                                      t: seq<Call>, fuel: nat, k: nat)
    requires forall s {:trigger act(s)} :: act(s).result.Ok? && Acts(act(s).calls) == Acts(s) + 1
    requires forall s {:trigger check(s)} :: Acts(check(s).calls) == Acts(s)
    requires forall s {:trigger check(s)} :: check(s).result.Ok? <==> Acts(s) >= k
    requires forall s {:trigger check(s)} :: check(s).result != Err(Crash)
    requires Acts(t) <= k < Acts(t) + fuel
    ensures Loop(check, act, t, fuel).Some?
    ensures Loop(check, act, t, fuel).value.result.Ok?
    ensures Acts(Loop(check, act, t, fuel).value.calls) == k
    decreases k - Acts(t)
  {
    if Acts(t) < k {
      LoopCounts(check, act, act(check(t).calls).calls, fuel - 1, k);
    }
  }

  /**
   * The same for the loop of `handleAction`: when the nested check succeeds exactly
   * once `k` actions have run (counting from the log's start), never traps, and every
   * dispatch succeeds, the loop dispatches `k` actions in all and stops.
   */
  lemma LoopActsUntilCheckPasses(d: Delegates, w: WhileMessage, el: Value, kind: ActionType,
                                 params: Option<seq<Value>>, t: seq<Call>, fuel: nat, k: nat)
    requires forall s {:trigger ActOnceSpec(d, el, kind, params, s)} :: ActOnceSpec(d, el, kind, params, s).result.Ok?
    requires forall s {:trigger CheckSpec(d, w, s)} :: CheckSpec(d, w, s).result.Ok? <==> Acts(s) >= k
    requires forall s :: CheckSpec(d, w, s).result != Err(Crash)
    requires Acts(t) <= k < Acts(t) + fuel
    ensures LoopSpec(d, w, el, kind, params, t, fuel).Some?
    ensures LoopSpec(d, w, el, kind, params, t, fuel).value.result.Ok?
    ensures Acts(LoopSpec(d, w, el, kind, params, t, fuel).value.calls) == k
  {
    var check := s => CheckSpec(d, w, s);
    var act := s => ActOnceSpec(d, el, kind, params, s);
    forall s ensures act(s).result.Ok? && Acts(act(s).calls) == Acts(s) + 1 {
      ActOnceAddsOne(d, el, kind, params, s);
    }
    forall s ensures Acts(check(s).calls) == Acts(s) {
      CheckKeepsActs(d, w, s);
    }
    LoopCounts(check, act, t, fuel, k);
  }

  lemma {:induction false} NoActsCounted(s: seq<Call>)
    requires forall i :: 0 <= i < |s| ==> !s[i].Acted?
    ensures Acts(s) == 0
    decreases |s|
  {
    if |s| > 0 {
      NoActsCounted(s[..|s| - 1]);
    }
  }

  /** InvokeHandler: the delegates it was built with and the log of the calls it made. */
  class Handler {
    const delegates: Delegates
    var calls: seq<Call>

    constructor (delegates: Delegates)
      ensures this.delegates == delegates && calls == []
    {
      this.delegates := delegates;
      calls := [];
    }

    method FindElements(p: Predicate) returns (r: Result<seq<Value>, Error>)
      modifies this
      ensures Run(r, calls) == FindSpec(delegates, p, old(calls))
    {
      r := delegates.matcher(p, calls);
      calls := calls + [Matched(p, r)];
    }

    method GetAttributes(elements: seq<Value>) returns (r: Result<Value, Error>)
      modifies this
      ensures r == delegates.getAttributes(elements, old(calls))
      ensures calls == old(calls) + [AttributesRead(elements, r)]
    {
      r := delegates.getAttributes(elements, calls);
      calls := calls + [AttributesRead(elements, r)];
    }

    method HandleExpectation(el: Value, kind: ExpectationType, params: Option<seq<Value>>,
                             modifiers: Option<seq<Modifier>>, timeout: Option<real>) returns (r: Result<(), Error>)
      modifies this
      ensures Run(r, calls) == ExpectSpec(delegates, el, kind, params, modifiers, timeout, old(calls))
    {
      var isTruthy := IsTruthy(modifiers);
      var expectation := BuildExpectation(kind, params);
      if expectation.Err? {
        r := Err(expectation.error);
        return;
      }
      var failure := delegates.evaluate(expectation.value, isTruthy, el, timeout, calls);
      calls := calls + [Expected(expectation.value, isTruthy, el, timeout, failure)];
      r := if failure.None? then Ok(()) else Err(failure.value);
    }

    method HandleWhileMessage(w: WhileMessage) returns (r: Result<(), Error>)
      modifies this
      ensures Run(r, calls) == CheckSpec(delegates, w, old(calls))
    {
      var elements := FindElements(w.pattern);
      if elements.Err? {
        r := Err(elements.error);
        return;
      }
      var el := ElementAt(elements.value, w.atIndex);
      if el.Err? {
        r := Err(el.error);
        return;
      }
      r := HandleExpectation(el.value, w.expectation, w.params, w.modifiers, None);
    }

    method HandleActionOnce(el: Value, kind: ActionType, params: Option<seq<Value>>) returns (r: Result<(), Error>)
      modifies this
      ensures Run(r, calls) == ActOnceSpec(delegates, el, kind, params, old(calls))
    {
      var action := BuildAction(kind, params, delegates.parseDate);
      if action.Err? {
        r := Err(action.error);
        return;
      }
      var failure := delegates.act(action.value, el, calls);
      calls := calls + [Acted(action.value, el, failure)];
      r := if failure.None? then Ok(()) else Err(failure.value);
    }

    /**
     * `handleAction(on:type:params:whileMessage:)`: one dispatch, or the polling loop
     * when the message carries a nested expectation.
     */
    method HandleAction(el: Value, kind: ActionType, params: Option<seq<Value>>,
                        whileMessage: Option<WhileMessage>, ghost fuel: nat) returns (r: Result<(), Error>)
      requires HandleActionSpec(delegates, el, kind, params, whileMessage, calls, fuel).Some?
      modifies this
      ensures Some(Run(r, calls)) == HandleActionSpec(delegates, el, kind, params, whileMessage, old(calls), fuel)
    {
      if whileMessage.None? {
        r := HandleActionOnce(el, kind, params);
      } else {
        r := Poll(el, kind, params, whileMessage.value, fuel);
      }
    }

    /**
     * The `while (true)` loop of `handleAction`: check, and act only when the
     * check threw. The source loop has no cap of its own; the ghost `fuel` only
     * names a number of rounds within which it stops.
     */
    method Poll(el: Value, kind: ActionType, params: Option<seq<Value>>, w: WhileMessage, ghost fuel: nat)
      returns (r: Result<(), Error>)
      requires LoopSpec(delegates, w, el, kind, params, calls, fuel).Some?
      modifies this
      ensures Some(Run(r, calls)) == LoopSpec(delegates, w, el, kind, params, old(calls), fuel)
    {
      ghost var left := fuel;
      ghost var target := LoopSpec(delegates, w, el, kind, params, calls, fuel);
      while true
        invariant LoopSpec(delegates, w, el, kind, params, calls, left) == target
        decreases left
      {
        ghost var before := calls;
        LoopEnds(delegates, w, el, kind, params, before, left);
        var check := HandleWhileMessage(w);
        if check.Err? && check.error != Crash {
          // the check threw: run the action once, then check again
          r := HandleActionOnce(el, kind, params);
          if r.Err? {
            return;
          }
          LoopRetries(delegates, w, el, kind, params, before, left);
          left := left - 1;
          continue;
        }
        if check.Err? {
          r := check;
          return;
        }
        break;
      }
      r := Ok(());
    }

    method Handle(m: Message, ghost fuel: nat) returns (r: Result<Option<Value>, Error>)
      requires HandleSpec(delegates, m, calls, fuel).Some?
      modifies this
      ensures Some(Run(r, calls)) == HandleSpec(delegates, m, old(calls), fuel)
    {
      var elements := FindElements(m.pattern);
      if elements.Err? {
        r := Err(elements.error);
        return;
      }
      var el := ElementAt(elements.value, m.atIndex);
      if el.Err? {
        r := Err(el.error);
        return;
      }
      match m.kind
      case ActionMessage =>
        if m.action.None? {
          r := Err(InvalidActionType);
          return;
        }
        if m.action.value == ActionType.GetAttributes {
          var attributes := GetAttributes(elements.value);
          r := if attributes.Ok? then Ok(Some(attributes.value)) else Err(attributes.error);
          return;
        }
        var acted := HandleAction(el.value, m.action.value, m.params, m.whileMessage, fuel);
        r := if acted.Ok? then Ok(None) else Err(acted.error);
      case ExpectationMessage =>
        if m.expectation.None? {
          r := Err(Crash);
          return;
        }
        var checked := HandleExpectation(el.value, m.expectation.value, m.params, m.modifiers, m.timeout);
        r := if checked.Ok? then Ok(None) else Err(checked.error);
    }
  }
}
