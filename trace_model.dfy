/**
 * Values the tracing core passes around (annotations, span events, method
 * descriptors, trace identifiers, the inbound request) and the two objects the
 * entry interceptors drive: the synchronous Trace and the TraceContext that
 * binds it to the current thread. DefaultTrace and TraceContext themselves are
 * not part of this model: a Trace here keeps the log of calls made on it, and
 * the context keeps the log of attach/detach events, which is all the
 * interceptors can observe.
 */
module TraceModel {
  import opened Wrappers
  import opened JavaText

  /** The annotation keys the core records (AnnotationKey). */
  datatype AnnotationKey = Api | ApiDid | Exception | HttpUrl | HttpParam

  /** A recorded annotation value: a string or a boxed number. */
  datatype AnnotationValue = Text(text: string) | Number(number: int)

  datatype Annotation = Annotation(key: AnnotationKey, value: AnnotationValue)

  /** The ServiceType tags the interceptors use, and any other one. */
  datatype ServiceType = Tomcat | Bloc | OtherService(code: int)

  /** One timed unit of work with its annotations in record order. */
  datatype SpanEvent = SpanEvent(
    serviceType: ServiceType,
    rpc: string,
    endPoint: string,
    destinationId: string,
    startTime: int,
    endTime: int,
    annotations: seq<Annotation>)

  /** MethodDescriptor: apiId 0 means "not cached, record the full name". */
  datatype MethodDescriptor = MethodDescriptor(apiId: Int32, fullName: string)

  /** The `Object result` an intercepted call hands back: a Throwable or anything else. */
  datatype CallResult = NonThrowable | Throwable(message: string)

  /** SpanID.NULL, the "no span" sentinel. */
  const SPAN_ID_NULL: Int32 := -1

  datatype Uuid = Uuid(mostSigBits: int, leastSigBits: int)

  /** DefaultTraceID as built from propagated headers. */
  datatype TraceId = TraceId(
    transactionId: Uuid,
    parentSpanId: Int32,
    spanId: Int32,
    sampled: bool,
    flags: Int16)

  /** The five propagation headers (Header.HTTP_TRACE_ID, ...). */
  datatype HeaderName = TraceIdHeader | ParentSpanIdHeader | SpanIdHeader | SampledHeader | FlagsHeader

  /**
   * An inbound request as the interceptors read it: headers by name, parameter
   * names in enumeration order with what getParameter returns for each (None
   * for null), and the server name, port and protocol.
   */
  datatype Request = Request(
    requestUri: string,
    headers: map<HeaderName, string>,
    parameters: seq<(string, Option<string>)>,
    serverName: string,
    serverPort: Int32,
    protocol: string)

  function Header(r: Request, h: HeaderName): (v: Option<string>)
    ensures v.Some? <==> h in r.headers
  {
    if h in r.headers then Some(r.headers[h]) else None
  }

  /** How a bound trace was started. */
  datatype Origin = NewTrace | Continued(id: TraceId)

  /** One call an interceptor makes on a Trace. */
  datatype TraceCall =
    | MarkBeforeTime(time: int)
    | RecordServiceType(serviceType: ServiceType)
    | RecordRpcName(rpc: string)
    | RecordEndPoint(endPoint: string)
    | RecordDestinationId(destinationId: string)
    | RecordAttribute(key: AnnotationKey, value: AnnotationValue)
    | RecordApi(descriptor: Option<MethodDescriptor>)
    | RecordException(result: CallResult)
    | MarkAfterTime(time: int)
    | TraceBlockEnd
    | TraceRootBlockEnd

  /** One event on the TraceContext's thread binding. */
  datatype ContextEvent = Attach(origin: Origin) | Detach

  /** The synchronous trace, seen through the calls made on it. */
  class Trace {
    const origin: Origin
    var stackFrameId: int
    var calls: seq<TraceCall>

    constructor (origin: Origin)
      ensures this.origin == origin && stackFrameId == 0 && calls == []
    {
      this.origin := origin;
      stackFrameId := 0;
      calls := [];
    }

    method GetStackFrameId() returns (id: int)
      ensures id == stackFrameId
    {
      id := stackFrameId;
    }

    method Call(c: TraceCall)
      modifies this`calls
      ensures calls == old(calls) + [c]
    {
      calls := calls + [c];
    }
  }

  /** The per-thread binding of the current trace. */
  class TraceContext {
    var current: Trace?
    var events: seq<ContextEvent>

    constructor ()
      ensures current == null && events == []
    {
      current := null;
      events := [];
    }

    method CurrentTraceObject() returns (t: Trace?)
      ensures t == current
    {
      t := current;
    }

    /**
     * newTraceObject / continueTraceObject: binds a fresh trace. Binding while a
     * trace is already bound throws IllegalStateException("already Trace
     * Object exist"); null stands for that exception and nothing changes.
     */
    method AttachTraceObject(origin: Origin) returns (t: Trace?)
      modifies this
      ensures old(current) != null ==> t == null && current == old(current) && events == old(events)
      ensures old(current) == null ==>
        t != null && fresh(t) && current == t
        && t.origin == origin && t.calls == [] && t.stackFrameId == 0
        && events == old(events) + [Attach(origin)]
    {
      if current != null {
        t := null;
      } else {
        t := new Trace(origin);
        current := t;
        events := events + [Attach(origin)];
      }
    }

    method NewTraceObject() returns (t: Trace?)
      modifies this
      ensures old(current) != null ==> t == null && current == old(current) && events == old(events)
      ensures old(current) == null ==>
        t != null && fresh(t) && current == t
        && t.origin == NewTrace && t.calls == [] && t.stackFrameId == 0
        && events == old(events) + [Attach(NewTrace)]
    {
      t := AttachTraceObject(NewTrace);
    }

    method ContinueTraceObject(id: TraceId) returns (t: Trace?)
      modifies this
      ensures old(current) != null ==> t == null && current == old(current) && events == old(events)
      ensures old(current) == null ==>
        t != null && fresh(t) && current == t
        && t.origin == Continued(id) && t.calls == [] && t.stackFrameId == 0
        && events == old(events) + [Attach(Continued(id))]
    {
      t := AttachTraceObject(Continued(id));
    }

    /** Unbinds the current trace; with none bound it only logs the event. */
    method DetachTraceObject()
      modifies this
      ensures current == null && events == old(events) + [Detach]
    {
      current := null;
      events := events + [Detach];
    }
  }
}
