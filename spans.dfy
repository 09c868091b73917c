/**
 * The tracing span the helpers write to. The span object belongs to the
 * tracing runtime; it is modelled by the state the helpers observe through
 * its methods: the attribute mapping (later writes overwrite), the ordered
 * events, the status, the recorded exceptions and how many times it was ended.
 */
module Spans {
  import opened JsValues

  type Attributes = map<string, Value>

  /** `SpanStatusCode`: UNSET is 0, OK is 1, ERROR is 2. */
  datatype StatusCode = Unset | Ok | Error

  datatype SpanStatus = SpanStatus(code: StatusCode, message: Option<string>)

  datatype SpanEvent = SpanEvent(name: string, attributes: Attributes)

  /** The options object handed to span creation: its creation attributes and `setResult`. */
  datatype SpanOptions = SpanOptions(attributes: Attributes, setResult: Value)

  /** The default `options = {}`. */
  const NoOptions := SpanOptions(map[], Undefined)

  class Span {
    const name: string
    const options: SpanOptions
    var attributes: Attributes
    var events: seq<SpanEvent>
    var status: SpanStatus
    var exceptions: seq<JsError>
    var endCount: nat

    /** A span just started: it carries only its creation attributes. */
    constructor Start(name: string, options: SpanOptions)
      ensures this.name == name && this.options == options
      ensures attributes == options.attributes && events == []
      ensures status == SpanStatus(Unset, None) && exceptions == [] && endCount == 0
    {
      this.name := name;
      this.options := options;
      attributes := options.attributes;
      events := [];
      status := SpanStatus(Unset, None);
      exceptions := [];
      endCount := 0;
    }

    /** `span.setAttributes(m)`: merges `m`, overwriting keys already present. */
    method SetAttributes(m: Attributes)
      modifies this`attributes
      ensures attributes == old(attributes) + m
    {
      attributes := attributes + m;
    }

    /** `span.addEvent(name, attributes)`: appends one event. */
    method AddEvent(eventName: string, eventAttributes: Attributes)
      modifies this`events
      ensures events == old(events) + [SpanEvent(eventName, eventAttributes)]
    {
      events := events + [SpanEvent(eventName, eventAttributes)];
    }

    /** `span.setStatus(s)`: replaces the status. */
    method SetStatus(s: SpanStatus)
      modifies this`status
      ensures status == s
    {
      status := s;
    }

    /** `span.recordException(e)`: appends the exception. */
    method RecordException(e: JsError)
      modifies this`exceptions
      ensures exceptions == old(exceptions) + [e]
    {
      exceptions := exceptions + [e];
    }

    /** `span.end()`. */
    method End()
      modifies this`endCount
      ensures endCount == old(endCount) + 1
    {
      endCount := endCount + 1;
    }
  }

  /** The objects a helper acting on the active span may change: none when no span is active. */
  function Frame(active: Option<Span>): set<Span>
  {
    if active.Some? then {active.value} else {}
  }
}
