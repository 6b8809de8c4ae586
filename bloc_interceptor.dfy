/**
 * ExecuteMethodInterceptor, the bloc/coyote entry interceptor. Same shape as
 * the servlet one, with these differences: the parameters are concatenated
 * with no separator and recorded in `before`; the port is always part of the
 * end point and destination; the root block is ended with traceRootBlockEnd.
 */
module BlocInterceptor {
  import opened Wrappers
  import opened JavaText
  import opened TraceModel
  import opened RequestParams
  import opened Propagation

  function Destination(r: Request): string {
    r.serverName + ":" + IntToString(r.serverPort)
  }

  function EndPoint(r: Request): string {
    r.protocol + ":" + r.serverName + ":" + IntToString(r.serverPort)
  }

  /**
   * The end point is the protocol, a colon and the destination, and the
   * destination always ends with ":" and the port, readable back as a number
   * whatever its sign.
   */
  lemma EndPointCarriesPort(r: Request)
    ensures EndPoint(r) == r.protocol + ":" + Destination(r)
    ensures |Destination(r)| > |r.serverName| + 1
    ensures Destination(r)[..|r.serverName| + 1] == r.serverName + ":"
    ensures ParseDecimal(Destination(r)[|r.serverName| + 1..], INT_MIN, INT_MAX) == Some(r.serverPort as int)
  {
    var digits := IntToString(r.serverPort);
    ParseIntToString(r.serverPort, INT_MIN, INT_MAX);
    assert Destination(r) == (r.serverName + ":") + digits;
    assert Destination(r)[|r.serverName| + 1..] == digits;
  }

  /** The bloc parameter string: the entries of the non-null parameters, back to back. */
  function ParameterString(ps: seq<(string, Option<string>)>): string {
    Concat(ValuedEntries(ps))
  }

  /**
   * getRequestParameter: appends `key=value` for every value that is not null
   * and 0 < length < 100, with nothing in between.
   */
  method GetRequestParameter(request: Request) returns (params: string)
    ensures params == ParameterString(request.parameters)
  {
    var ps := request.parameters;
    params := "";
    var i := 0;
    while i < |ps|
      invariant 0 <= i <= |ps|
      invariant params == Concat(ValuedEntries(ps[..i]))
    {
      var (key, value) := ps[i];
      assert ps[..i + 1][..i] == ps[..i];
      if value.Some? {
        var valueString := value.value;
        ghost var before := params;
        var length := Utf16Length(valueString);
        if 0 < length < 100 {
          params := params + key + "=" + valueString;
        }
        assert Kept(valueString) <==> 0 < length < 100;
        assert params == before + Entry(key, valueString);
        var front := ValuedEntries(ps[..i]);
        assert ValuedEntries(ps[..i + 1]) == front + [Entry(key, valueString)];
        assert (front + [Entry(key, valueString)])[..|front|] == front;
      } else {
        assert ValuedEntries(ps[..i + 1]) == ValuedEntries(ps[..i]);
      }
      i := i + 1;
    }
    assert ps[..|ps|] == ps;
  }

  /**
   * The parameter string is empty, so that `before` records no HTTP_PARAM,
   * exactly when every parameter value is null or filtered out by its length.
   */
  lemma ParameterStringEmpty(ps: seq<(string, Option<string>)>)
    ensures ParameterString(ps) == "" <==>
      forall i :: 0 <= i < |ps| && ps[i].1.Some? ==> !Kept(ps[i].1.value)
  {
    var es := ValuedEntries(ps);
    ConcatEmpty(es);
    ValuedEntriesEmpty(ps);
    assert ParameterString(ps) == Concat(es);
  }

  /** The calls `before` makes on the trace it binds. */
  function BeforeCalls(r: Request, now: int): seq<TraceCall> {
    var params := ParameterString(r.parameters);
    [ MarkBeforeTime(now),
      RecordServiceType(Bloc),
      RecordRpcName(r.requestUri),
      RecordEndPoint(EndPoint(r)),
      RecordDestinationId(Destination(r)),
      RecordAttribute(HttpUrl, Text(r.requestUri)) ]
    + (if |params| > 0 then [RecordAttribute(HttpParam, Text(params))] else [])
  }

  /** The calls `after` makes on the trace it unbinds. */
  function AfterCalls(descriptor: Option<MethodDescriptor>, result: CallResult, now: int): seq<TraceCall> {
    [RecordApi(descriptor), RecordException(result), MarkAfterTime(now), TraceRootBlockEnd]
  }

  /**
   * before: as for the servlet, a missing trace-id header starts a new trace
   * and a present one continues it; a malformed trace id or an already bound
   * trace is caught and nothing is bound or recorded. On the new-trace path a
   * scratch DefaultTrace is built and dropped: the trace recorded on is the one
   * newTraceObject binds.
   */
  method Before(ctx: TraceContext, request: Request, parseUuid: string -> Option<Uuid>, now: int)
    modifies ctx
    ensures var populated := PopulateTraceId(request, parseUuid);
      if populated.Failure? || old(ctx.current) != null then
        ctx.current == old(ctx.current) && ctx.events == old(ctx.events)
      else
        && ctx.current != null && fresh(ctx.current)
        && ctx.current.origin == OriginOf(populated.value)
        && ctx.events == old(ctx.events) + [Attach(OriginOf(populated.value))]
        && ctx.current.calls == BeforeCalls(request, now)
  {
    var parameters := GetRequestParameter(request);
    var populated := PopulateTraceId(request, parseUuid);
    if populated.Failure? {
      return;
    }
    var trace: Trace?;
    if populated.value.Some? {
      trace := ctx.ContinueTraceObject(populated.value.value);
    } else {
      trace := new Trace(NewTrace);
      trace := ctx.NewTraceObject();
    }
    if trace == null {
      return;
    }
    trace.Call(MarkBeforeTime(now));
    trace.Call(RecordServiceType(Bloc));
    trace.Call(RecordRpcName(request.requestUri));
    trace.Call(RecordEndPoint(request.protocol + ":" + request.serverName + ":" + IntToString(request.serverPort)));
    trace.Call(RecordDestinationId(request.serverName + ":" + IntToString(request.serverPort)));
    trace.Call(RecordAttribute(HttpUrl, Text(request.requestUri)));
    if |parameters| > 0 {
      trace.Call(RecordAttribute(HttpParam, Text(parameters)));
    }
  }

  /**
   * after: with no bound trace, nothing. Otherwise detach once, then record
   * the API, the outcome and the end time and end the root block, in that
   * order; a stack frame id other than 0 is only reported.
   */
  method After(ctx: TraceContext, descriptor: Option<MethodDescriptor>, result: CallResult, now: int)
    returns (corrupted: bool)
    modifies ctx, ctx.current
    ensures old(ctx.current) == null ==> !corrupted && ctx.current == null && ctx.events == old(ctx.events)
    ensures old(ctx.current) != null ==>
      && ctx.current == null
      && ctx.events == old(ctx.events) + [Detach]
      && old(ctx.current).calls == old(ctx.current.calls) + AfterCalls(descriptor, result, now)
      && corrupted == (old(ctx.current).stackFrameId != 0)
  {
    var trace := ctx.CurrentTraceObject();
    if trace == null {
      return false;
    }
    ctx.DetachTraceObject();
    var frameId := trace.GetStackFrameId();
    corrupted := frameId != 0;
    trace.Call(RecordApi(descriptor));
    trace.Call(RecordException(result));
    trace.Call(MarkAfterTime(now));
    trace.Call(TraceRootBlockEnd);
  }
}
