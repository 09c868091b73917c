/**
 * The database span decorator `withDatabaseSpan` and `createDatabaseWrappers`,
 * which wraps each data-access method of a model with it.
 *
 * The two `Date.now()` readings are parameters: `startTime` before the call,
 * `endTime` after it returns or throws.
 */
module Database {
  import opened JsValues
  import opened Spans
  import opened Tracer

  /** The rows a result stands for: an array's length, else 1 if truthy, else 0. */
  function RowsAffected(result: Value): (n: nat)
    ensures result.Arr? ==> n == |result.elems|
    ensures !result.Arr? ==> n <= 1 && (n == 1 <==> Truthy(result))
  {
    if result.Arr? then |result.elems| else if Truthy(result) then 1 else 0
  }

  function SpanName(operation: string): string
  {
    "db." + operation
  }

  /** The attributes the span is created with. */
  function CreationAttributes(operation: string, tableName: string): (m: Attributes)
    ensures m.Keys == {"db.operation", "db.table", "db.system"}
    ensures m["db.operation"] == Str(operation) && m["db.table"] == Str(tableName)
    ensures m["db.system"] == Str("mysql")
  {
    map["db.operation" := Str(operation), "db.table" := Str(tableName), "db.system" := Str("mysql")]
  }

  function SuccessAttributes(duration: int, result: Value): (m: Attributes)
    ensures m.Keys == {"db.duration_ms", "db.success", "db.rows_affected"}
    ensures m["db.success"] == Bool(true)
    ensures m["db.duration_ms"] == Int(duration) && m["db.rows_affected"] == Int(RowsAffected(result))
  {
    map["db.duration_ms" := Int(duration),
        "db.success" := Bool(true),
        "db.rows_affected" := Int(RowsAffected(result))]
  }

  function ErrorAttributes(duration: int, message: string): (m: Attributes)
    ensures m.Keys == {"db.duration_ms", "db.success", "db.error"}
    ensures m["db.success"] == Bool(false) && m["db.error"] == Str(message)
    ensures m["db.duration_ms"] == Int(duration)
  {
    map["db.duration_ms" := Int(duration), "db.success" := Bool(false), "db.error" := Str(message)]
  }

  /** The start event names the operation's span and carries the table and the start time. */
  function StartEvent(operation: string, tableName: string, startTime: int): (e: SpanEvent)
    ensures e.name == SpanName(operation) + ".start"
    ensures e.attributes.Keys == {"table", "timestamp"}
    ensures e.attributes["table"] == Str(tableName) && e.attributes["timestamp"] == Int(startTime)
  {
    SpanEvent(SpanName(operation) + ".start", map["table" := Str(tableName), "timestamp" := Int(startTime)])
  }

  /** The completion event repeats the duration and the rows-affected count of the attributes. */
  function CompleteEvent(operation: string, duration: int, result: Value): (e: SpanEvent)
    ensures e.name == SpanName(operation) + ".complete"
    ensures e.attributes.Keys == {"duration_ms", "rows_affected"}
    ensures e.attributes["duration_ms"] == SuccessAttributes(duration, result)["db.duration_ms"]
    ensures e.attributes["rows_affected"] == SuccessAttributes(duration, result)["db.rows_affected"]
  {
    SpanEvent(SpanName(operation) + ".complete",
              map["duration_ms" := Int(duration), "rows_affected" := Int(RowsAffected(result))])
  }

  /** The error event repeats the duration and the message of the attributes. */
  function ErrorEvent(operation: string, duration: int, message: string): (e: SpanEvent)
    ensures e.name == SpanName(operation) + ".error"
    ensures e.attributes.Keys == {"duration_ms", "error"}
    ensures e.attributes["duration_ms"] == ErrorAttributes(duration, message)["db.duration_ms"]
    ensures e.attributes["error"] == ErrorAttributes(duration, message)["db.error"]
  {
    SpanEvent(SpanName(operation) + ".error", map["duration_ms" := Int(duration), "error" := Str(message)])
  }

  /** The start, complete and error events of one operation can never be confused. */
  lemma EventNamesDistinct(operation: string, tableName: string, startTime: int, duration: int,
                           result: Value, message: string)
    ensures StartEvent(operation, tableName, startTime).name != CompleteEvent(operation, duration, result).name
    ensures StartEvent(operation, tableName, startTime).name != ErrorEvent(operation, duration, message).name
    ensures CompleteEvent(operation, duration, result).name != ErrorEvent(operation, duration, message).name
  {
    var p := SpanName(operation);
    var start, complete, error := p + ".start", p + ".complete", p + ".error";
    assert start[|p| + 1] == 's' && complete[|p| + 1] == 'c' && error[|p| + 1] == 'e';
  }

  /**
   * One call of `withDatabaseSpan(operation, tableName, fn)(...args)`: a span
   * named `db.<operation>` records a start event, then exactly one complete or
   * error event, and is ended exactly once; the result or error of `fn` is
   * passed back unchanged.
   */
  method WithDatabaseSpan(operation: string, tableName: string, fn: seq<Value> -> Outcome,
                          args: seq<Value>, startTime: int, endTime: int)
    returns (span: Span, r: Outcome)
    ensures fresh(span)
    ensures r == fn(args)
    ensures span.name == SpanName(operation)
    ensures span.options == SpanOptions(CreationAttributes(operation, tableName), Undefined)
    ensures span.events == [StartEvent(operation, tableName, startTime),
                            if r.Returned? then CompleteEvent(operation, endTime - startTime, r.value)
                            else ErrorEvent(operation, endTime - startTime, r.error.message)]
    ensures r.Returned? ==>
              span.attributes == CreationAttributes(operation, tableName) + SuccessAttributes(endTime - startTime, r.value)
    ensures r.Threw? ==>
              span.attributes == CreationAttributes(operation, tableName) + ErrorAttributes(endTime - startTime, r.error.message)
    ensures span.status == StatusAfter(r)
    ensures span.exceptions == (if r.Threw? then [r.error] else [])
    ensures span.endCount == 1
  {
    span := OpenSpan(operation, tableName, startTime);
    r := fn(args);
    var duration := endTime - startTime;
    ghost var start := StartEvent(operation, tableName, startTime);
    match r {
      case Returned(result) =>
        RecordSuccess(span, operation, duration, result);
        assert span.events == [start] + [CompleteEvent(operation, duration, result)];
      case Threw(error) =>
        RecordFailure(span, operation, duration, error);
        assert span.events == [start] + [ErrorEvent(operation, duration, error.message)];
    }
    span.End();
  }

  /** The span as `fn` finds it: created with its attributes and holding only the start event. */
  method OpenSpan(operation: string, tableName: string, startTime: int) returns (span: Span)
    ensures fresh(span)
    ensures span.name == SpanName(operation)
    ensures span.options == SpanOptions(CreationAttributes(operation, tableName), Undefined)
    ensures span.attributes == CreationAttributes(operation, tableName)
    ensures span.events == [StartEvent(operation, tableName, startTime)]
    ensures span.status == SpanStatus(Unset, None) && span.exceptions == [] && span.endCount == 0
  {
    span := new Span.Start(SpanName(operation), SpanOptions(CreationAttributes(operation, tableName), Undefined));
    var start := StartEvent(operation, tableName, startTime);
    RecordSpanEvent(Some(span), start.name, start.attributes);
  }

  /** The rest of the `try` block once `fn` has returned `result`. */
  method RecordSuccess(span: Span, operation: string, duration: int, result: Value)
    modifies span
    ensures span.attributes == old(span.attributes) + SuccessAttributes(duration, result)
    ensures span.events == old(span.events) + [CompleteEvent(operation, duration, result)]
    ensures span.status == SpanStatus(Ok, None)
    ensures span.exceptions == old(span.exceptions) && span.endCount == old(span.endCount)
  {
    AddSpanAttributes(Some(span), SuccessAttributes(duration, result));
    var complete := CompleteEvent(operation, duration, result);
    RecordSpanEvent(Some(span), complete.name, complete.attributes);
    span.SetStatus(SpanStatus(Ok, None));  // `{ code: 1 }` is SpanStatusCode.OK
  }

  /** The `catch` block once `fn` has thrown `error`, up to the rethrow. */
  method RecordFailure(span: Span, operation: string, duration: int, error: JsError)
    modifies span
    ensures span.attributes == old(span.attributes) + ErrorAttributes(duration, error.message)
    ensures span.events == old(span.events) + [ErrorEvent(operation, duration, error.message)]
    ensures span.status == SpanStatus(Error, Some(error.message))
    ensures span.exceptions == old(span.exceptions) + [error] && span.endCount == old(span.endCount)
  {
    AddSpanAttributes(Some(span), ErrorAttributes(duration, error.message));
    var failed := ErrorEvent(operation, duration, error.message);
    RecordSpanEvent(Some(span), failed.name, failed.attributes);
    span.RecordException(error);
    span.SetStatus(SpanStatus(Error, Some(error.message)));  // `{ code: 2 }` is SpanStatusCode.ERROR
  }

  /** A wrapped data-access entry point: its operation kind, its table and the model method it calls. */
  datatype DbWrapper = DbWrapper(operation: string, tableName: string, modelMethod: string)

  const ReadMethods: set<string> := {"findAll", "findOne", "findByPk"}

  /** `createDatabaseWrappers(model, tableName)`: every model method wrapped with its operation kind. */
  function CreateDatabaseWrappers(tableName: string): (w: map<string, DbWrapper>)
    ensures w.Keys == ReadMethods + {"create", "update", "destroy", "count"}
    ensures forall m :: m in w ==> w[m].tableName == tableName && w[m].modelMethod == m
    ensures forall m :: m in w ==> (w[m].operation == "select" <==> m in ReadMethods)
    ensures w["create"].operation == "insert" && w["update"].operation == "update"
    ensures w["destroy"].operation == "delete" && w["count"].operation == "count"
  {
    map["findAll" := DbWrapper("select", tableName, "findAll"),
        "findOne" := DbWrapper("select", tableName, "findOne"),
        "findByPk" := DbWrapper("select", tableName, "findByPk"),
        "create" := DbWrapper("insert", tableName, "create"),
        "update" := DbWrapper("update", tableName, "update"),
        "destroy" := DbWrapper("delete", tableName, "destroy"),
        "count" := DbWrapper("count", tableName, "count")]
  }
}
