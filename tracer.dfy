/**
 * The operation span decorator `withSpan` and the two helpers that annotate
 * whichever span is active: `addSpanAttributes` and `recordSpanEvent`.
 *
 * The wrapped function is a pure function from its arguments to a `Run`: the
 * writes it makes to the span active while it runs, and its outcome. The
 * decorated call is modelled by invoking it once with given arguments.
 */
module Tracer {
  import opened JsValues
  import opened Spans

  /**
   * One run of a wrapped function: the attributes its `addSpanAttributes`
   * calls write to the active span (merged in call order), the events its
   * `recordSpanEvent` calls append there (in call order), and its outcome.
   */
  datatype Run = Run(attributes: Attributes, events: seq<SpanEvent>, outcome: Outcome)

  /** Two attribute writes in a row leave the same attributes as one write of their merge. */
  lemma MergesCompose(attributes: Attributes, first: Attributes, second: Attributes)
    ensures (attributes + first) + second == attributes + (first + second)
  {
  }

  /** `Array.isArray(result) ? result.length : 1`. */
  function ResultCount(result: Value): nat
  {
    if result.Arr? then |result.elems| else 1
  }

  /**
   * The attributes the decorator adds after a call: the result count and the
   * success flag, only when `options.setResult` and the result are both truthy.
   */
  function ResultAttributes(setResult: Value, outcome: Outcome): (m: Attributes)
    ensures m != map[] <==> outcome.Returned? && Truthy(setResult) && Truthy(outcome.value)
    ensures m != map[] ==>
      && m.Keys == {"operation.result.count", "operation.success"}
      && m["operation.success"] == Bool(true)
      && (outcome.value.Arr? ==> m["operation.result.count"] == Int(|outcome.value.elems|))
      && (!outcome.value.Arr? ==> m["operation.result.count"] == Int(1))
  {
    if outcome.Returned? && Truthy(setResult) && Truthy(outcome.value) then
      var m := map["operation.result.count" := Int(ResultCount(outcome.value)),
                   "operation.success" := Bool(true)];
      assert "operation.success" in m;
      m
    else
      map[]
  }

  /** The status the decorator leaves: OK after a return, ERROR with the message after a throw. */
  function StatusAfter(outcome: Outcome): (s: SpanStatus)
    ensures s.code == Ok <==> outcome.Returned?
    ensures s.code == Error <==> outcome.Threw?
    ensures outcome.Threw? ==> s.message == Some(outcome.error.message)
  {
    match outcome
    case Returned(_) => SpanStatus(Ok, None)
    case Threw(e) => SpanStatus(Error, Some(e.message))
  }

  /**
   * What the decorator does to its span once the wrapped call has produced
   * `outcome`: the rest of the `try`, or the `catch`, then the `finally`.
   */
  method SettleSpan(span: Span, options: SpanOptions, outcome: Outcome)
    modifies span
    ensures span.attributes == old(span.attributes) + ResultAttributes(options.setResult, outcome)
    ensures span.events == old(span.events)
    ensures span.status == StatusAfter(outcome)
    ensures span.exceptions == old(span.exceptions) + (if outcome.Threw? then [outcome.error] else [])
    ensures span.endCount == old(span.endCount) + 1
  {
    match outcome {
      case Returned(result) =>
        if Truthy(options.setResult) && Truthy(result) {
          span.SetAttributes(ResultAttributes(options.setResult, outcome));
        }
        span.SetStatus(SpanStatus(Ok, None));
      case Threw(error) =>
        span.RecordException(error);
        span.SetStatus(SpanStatus(Error, Some(error.message)));
    }
    span.End();
  }

  /**
   * One call of `withSpan(spanName, fn, options)(...args)`: a new span is
   * started with `options` and is the active span while `fn` runs on the same
   * arguments, so `fn`'s writes land on it; `fn`'s result or error is passed
   * back unchanged while the span records it and is ended exactly once.
   */
  method WithSpan(spanName: string, fn: seq<Value> -> Run, options: SpanOptions, args: seq<Value>)
    returns (span: Span, r: Outcome)
    ensures fresh(span)
    ensures r == fn(args).outcome
    ensures span.name == spanName && span.options == options
    ensures span.attributes == options.attributes + fn(args).attributes + ResultAttributes(options.setResult, r)
    ensures span.events == fn(args).events
    ensures span.status == StatusAfter(r)
    ensures span.exceptions == (if r.Threw? then [r.error] else [])
    ensures span.endCount == 1
  {
    span := new Span.Start(spanName, options);
    var run := fn(args);
    AddSpanAttributes(Some(span), run.attributes);
    RecordSpanEvents(Some(span), run.events);
    r := run.outcome;
    SettleSpan(span, options, r);
  }

  /** The `recordSpanEvent` calls of one run, in order. */
  method RecordSpanEvents(active: Option<Span>, events: seq<SpanEvent>)
    modifies Frame(active)
    ensures active.Some? ==> active.value.events == old(active.value.events) + events
    ensures active.Some? ==> active.value.attributes == old(active.value.attributes)
    ensures active.Some? ==> active.value.status == old(active.value.status)
    ensures active.Some? ==> active.value.exceptions == old(active.value.exceptions)
    ensures active.Some? ==> active.value.endCount == old(active.value.endCount)
  {
    for i := 0 to |events|
      invariant active.Some? ==> active.value.events == old(active.value.events) + events[..i]
      invariant active.Some? ==> active.value.attributes == old(active.value.attributes)
      invariant active.Some? ==> active.value.status == old(active.value.status)
      invariant active.Some? ==> active.value.exceptions == old(active.value.exceptions)
      invariant active.Some? ==> active.value.endCount == old(active.value.endCount)
    {
      RecordSpanEvent(active, events[i].name, events[i].attributes);
      assert events[..i + 1] == events[..i] + [events[i]];
    }
    assert events[..|events|] == events;
  }

  /** `addSpanAttributes(attributes)`: merges into the active span, if there is one. */
  method AddSpanAttributes(active: Option<Span>, attributes: Attributes)
    modifies Frame(active)
    ensures active.Some? ==> active.value.attributes == old(active.value.attributes) + attributes
    ensures active.Some? ==> active.value.events == old(active.value.events)
    ensures active.Some? ==> active.value.status == old(active.value.status)
    ensures active.Some? ==> active.value.exceptions == old(active.value.exceptions)
    ensures active.Some? ==> active.value.endCount == old(active.value.endCount)
  {
    if active.Some? {
      active.value.SetAttributes(attributes);
    }
  }

  /** `recordSpanEvent(name, attributes = {})`: appends one event to the active span, if there is one. */
  method RecordSpanEvent(active: Option<Span>, name: string, attributes: Attributes := map[])
    modifies Frame(active)
    ensures active.Some? ==> active.value.events == old(active.value.events) + [SpanEvent(name, attributes)]
    ensures active.Some? ==> active.value.attributes == old(active.value.attributes)
    ensures active.Some? ==> active.value.status == old(active.value.status)
    ensures active.Some? ==> active.value.exceptions == old(active.value.exceptions)
    ensures active.Some? ==> active.value.endCount == old(active.value.endCount)
  {
    if active.Some? {
      active.value.AddEvent(name, attributes);
    }
  }
}
