/**
 * DoXXXInterceptor, the servlet entry interceptor: `before` starts or
 * continues a trace from the request headers and records the request; `after`
 * unbinds the trace, records the request parameters, the API, the outcome and
 * the end time, and ends the root block.
 */
module ServletInterceptor {
  import opened Wrappers
  import opened JavaText
  import opened TraceModel
  import opened RequestParams
  import opened Propagation

  /** ":" + port when the port is positive, else nothing. */
  function PortSuffix(port: Int32): string {
    if port > 0 then ":" + IntToString(port) else ""
  }

  function Destination(r: Request): string {
    r.serverName + PortSuffix(r.serverPort)
  }

  function EndPoint(r: Request): string {
    r.protocol + ":" + r.serverName + PortSuffix(r.serverPort)
  }

  /**
   * The end point is the protocol, a colon and the destination; the destination
   * carries the port, readable back as a number, exactly when it is positive.
   */
  lemma EndPointCarriesPort(r: Request)
    ensures EndPoint(r) == r.protocol + ":" + Destination(r)
    ensures r.serverPort > 0 ==>
      && |Destination(r)| > |r.serverName| + 1
      && Destination(r)[..|r.serverName| + 1] == r.serverName + ":"
      && ParseDecimal(Destination(r)[|r.serverName| + 1..], INT_MIN, INT_MAX) == Some(r.serverPort as int)
    ensures r.serverPort <= 0 ==> Destination(r) == r.serverName
  {
    if r.serverPort > 0 {
      var digits := IntToString(r.serverPort);
      ParseIntToString(r.serverPort, INT_MIN, INT_MAX);
      assert Destination(r) == (r.serverName + ":") + digits;
      assert Destination(r)[|r.serverName| + 1..] == digits;
    }
  }

  /**
   * What the servlet parameter loop appends for the parameter at index i: its
   * entry, and ", " after any non-null value while more names remain.
   */
  function Piece(ps: seq<(string, Option<string>)>, i: nat): string
    requires i < |ps|
  {
    match ps[i].1
    case None => ""
    case Some(v) => Entry(ps[i].0, v) + (if i + 1 < |ps| then ", " else "")
  }

  /** The string after the loop has handled the first n parameters. */
  function Pieces(ps: seq<(string, Option<string>)>, n: nat): string
    requires n <= |ps|
  {
    if n == 0 then "" else Pieces(ps, n - 1) + Piece(ps, n - 1)
  }

  /**
   * The servlet parameter string: the entries of the non-null parameters
   * joined by ", ", plus a trailing ", " when the last parameter name has a
   * null value (the separator after the last non-null value is decided by
   * "more names remain", not "more values remain").
   */
  function ParameterString(ps: seq<(string, Option<string>)>): string {
    Join(", ", ValuedEntries(ps))
      + (if ValuedEntries(ps) != [] && ps[|ps| - 1].1.None? then ", " else "")
  }

  lemma {:induction false} PiecesBeforeLast(ps: seq<(string, Option<string>)>, n: nat)
    requires n < |ps|
    ensures Pieces(ps, n) == Terminated(", ", ValuedEntries(ps[..n]))
  {
    if n > 0 {
      PiecesBeforeLast(ps, n - 1);
      var prefix := ps[..n];
      assert prefix[..n - 1] == ps[..n - 1];
      assert prefix[n - 1] == ps[n - 1];
      var front := ValuedEntries(ps[..n - 1]);
      match ps[n - 1].1
      case None =>
        assert ValuedEntries(prefix) == front;
      case Some(v) =>
        var e := Entry(ps[n - 1].0, v);
        assert ValuedEntries(prefix) == front + [e];
        assert (front + [e])[..|front|] == front;
        assert Piece(ps, n - 1) == e + ", ";
        assert Terminated(", ", front + [e]) == Terminated(", ", front) + e + ", ";
    }
  }

  /** The loop-shaped definition agrees with the join-shaped one. */
  lemma {:induction false} PiecesIsParameterString(ps: seq<(string, Option<string>)>)
    ensures Pieces(ps, |ps|) == ParameterString(ps)
  {
    if ps != [] {
      var n := |ps| - 1;
      PiecesBeforeLast(ps, n);
      var front := ValuedEntries(ps[..n]);
      assert ps[..|ps|][..n] == ps[..n];
      TerminatedIsJoinPlusSeparator(", ", front);
      assert Pieces(ps, |ps|) == Terminated(", ", front) + Piece(ps, n);
      match ps[n].1
      case None =>
        assert ValuedEntries(ps) == front;
        assert Piece(ps, n) == "";
      case Some(v) =>
        var e := Entry(ps[n].0, v);
        assert ValuedEntries(ps) == front + [e];
        assert Piece(ps, n) == e;
        JoinAppend(", ", front, e);
    }
  }

  /**
   * getRequestParameter: walks the parameter names, appending `key=value` for
   * each value that is not null and 0 < length < 100, and ", " after every
   * non-null value while more names follow.
   */
  method GetRequestParameter(request: Request) returns (params: string)
    ensures params == ParameterString(request.parameters)
  {
    var ps := request.parameters;
    params := "";
    var i := 0;
    while i < |ps|
      invariant 0 <= i <= |ps|
      invariant params == Pieces(ps, i)
    {
      ghost var before := params;
      var (key, value) := ps[i];
      i := i + 1;
      if value.Some? {
        var valueString := value.value;
        var length := Utf16Length(valueString);
        if 0 < length < 100 {
          params := params + key + "=" + valueString;
        }
        assert params == before + Entry(key, valueString);
        if i < |ps| {
          params := params + ", ";
        }
      }
      assert params == before + Piece(ps, i - 1);
    }
    PiecesIsParameterString(ps);
  }

  /**
   * The parameter string is empty, so that `after` records no HTTP_PARAM,
   * exactly when no parameter has a non-null value, or the only one is the
   * last name and the length filter drops it.
   */
  lemma {:induction false} ParameterStringEmpty(ps: seq<(string, Option<string>)>)
    ensures ParameterString(ps) == "" <==>
      (forall i :: 0 <= i < |ps| ==> ps[i].1.None?)
      || (|ValuedEntries(ps)| == 1 && ps[|ps| - 1].1.Some? && !Kept(ps[|ps| - 1].1.value))
  {
    var es := ValuedEntries(ps);
    JoinEmpty(", ", es);
    NoValuedEntries(ps);
    if |es| == 1 && ps[|ps| - 1].1.Some? {
      assert es == ValuedEntries(ps[..|ps| - 1]) + [Entry(ps[|ps| - 1].0, ps[|ps| - 1].1.value)];
    }
  }

  lemma {:induction false} NoValuedEntries(ps: seq<(string, Option<string>)>)
    ensures ValuedEntries(ps) == [] <==> forall i :: 0 <= i < |ps| ==> ps[i].1.None?
    decreases |ps|
  {
    if ps != [] {
      var init := ps[..|ps| - 1];
      NoValuedEntries(init);
      assert forall i :: 0 <= i < |init| ==> init[i] == ps[i];
    }
  }

  /**
   * The separator rule on two small inputs: a value followed only by a null
   * value keeps its ", ", and a value dropped by the length filter still
   * gets one.
   */
  lemma SeparatorExamples()
    ensures ParameterString([("a", Some("1")), ("b", None)]) == "a=1, "
    ensures ParameterString([("a", Some("1")), ("b", Some("")), ("c", Some("2"))]) == "a=1, , c=2"
  {
    var one: seq<(string, Option<string>)> := [("a", Some("1"))];
    assert one[..0] == [];
    assert Entry("a", "1") == "a=1";
    assert ValuedEntries(one) == ["a=1"];
    var ps1: seq<(string, Option<string>)> := one + [("b", None)];
    assert ps1[..1] == one;
    assert ValuedEntries(ps1) == ["a=1"];
    var ps2: seq<(string, Option<string>)> := one + [("b", Some(""))] + [("c", Some("2"))];
    assert ps2[..2] == one + [("b", Some(""))];
    assert ps2[..2][..1] == one;
    assert Entry("b", "") == "";
    assert ValuedEntries(ps2[..2]) == ["a=1", ""];
    assert Entry("c", "2") == "c=2";
    assert ValuedEntries(ps2) == ["a=1", "", "c=2"];
    assert ["a=1", "", "c=2"][..2] == ["a=1", ""];
    assert ["a=1", ""][..1] == ["a=1"];
    assert Join(", ", ["a=1", ""]) == "a=1, ";
    assert Join(", ", ["a=1", "", "c=2"]) == "a=1, , c=2";
    assert ps2 == [("a", Some("1")), ("b", Some("")), ("c", Some("2"))];
  }

  /** The calls `before` makes on the trace it binds. */
  function BeforeCalls(r: Request, now: int): seq<TraceCall> {
    [ MarkBeforeTime(now),
      RecordServiceType(Tomcat),
      RecordRpcName(r.requestUri),
      RecordEndPoint(EndPoint(r)),
      RecordDestinationId(Destination(r)),
      RecordAttribute(HttpUrl, Text(r.requestUri)) ]
  }

  /** The calls `after` makes on the trace it unbinds. */
  function AfterCalls(r: Request, descriptor: Option<MethodDescriptor>, result: CallResult, now: int): seq<TraceCall> {
    var params := ParameterString(r.parameters);
    (if |params| > 0 then [RecordAttribute(HttpParam, Text(params))] else [])
    + [RecordApi(descriptor), RecordException(result), MarkAfterTime(now), TraceBlockEnd]
  }

  /**
   * before: no trace-id header starts a new trace, a present one continues it.
   * A malformed trace id (UUID.fromString throws) or a trace already bound
   * (attaching throws) is caught: nothing is bound and nothing recorded.
   */
  method Before(ctx: TraceContext, request: Request, parseUuid: string -> Option<Uuid>, now: int)
    modifies ctx
    ensures var populated := PopulateTraceId(request, parseUuid);
      if populated.Failure? || old(ctx.current) != null then
        ctx.current == old(ctx.current) && ctx.events == old(ctx.events)
      else
        && ctx.current != null && fresh(ctx.current)
        && ctx.current.origin == OriginOf(populated.value)
        && ctx.events == old(ctx.events) + [Attach(OriginOf(populated.value))]
        && ctx.current.calls == BeforeCalls(request, now)
  {
    var populated := PopulateTraceId(request, parseUuid);
    if populated.Failure? {
      return;
    }
    var trace: Trace?;
    if populated.value.Some? {
      trace := ctx.ContinueTraceObject(populated.value.value);
    } else {
      trace := ctx.NewTraceObject();
    }
    if trace == null {
      return;
    }
    trace.Call(MarkBeforeTime(now));
    trace.Call(RecordServiceType(Tomcat));
    trace.Call(RecordRpcName(request.requestUri));
    var port := request.serverPort;
    trace.Call(RecordEndPoint(request.protocol + ":" + request.serverName + (if port > 0 then ":" + IntToString(port) else "")));
    trace.Call(RecordDestinationId(request.serverName + (if port > 0 then ":" + IntToString(port) else "")));
    trace.Call(RecordAttribute(HttpUrl, Text(request.requestUri)));
  }

  /**
   * after: with no bound trace, nothing. Otherwise detach once, record the
   * parameters if there are any, then the API, the outcome, the end time and
   * the end of the block, in that order. A stack frame id other than the root
   * (0) is only reported as a corrupted call stack.
   */
  method After(ctx: TraceContext, request: Request, descriptor: Option<MethodDescriptor>, result: CallResult, now: int)
    returns (corrupted: bool)
    modifies ctx, ctx.current
    ensures old(ctx.current) == null ==> !corrupted && ctx.current == null && ctx.events == old(ctx.events)
    ensures old(ctx.current) != null ==>
      && ctx.current == null
      && ctx.events == old(ctx.events) + [Detach]
      && old(ctx.current).calls == old(ctx.current.calls) + AfterCalls(request, descriptor, result, now)
      && corrupted == (old(ctx.current).stackFrameId != 0)
  {
    var trace := ctx.CurrentTraceObject();
    if trace == null {
      return false;
    }
    ctx.DetachTraceObject();
    var parameters := GetRequestParameter(request);
    if |parameters| > 0 {
      trace.Call(RecordAttribute(HttpParam, Text(parameters)));
    }
    var frameId := trace.GetStackFrameId();
    corrupted := frameId != 0;
    trace.Call(RecordApi(descriptor));
    trace.Call(RecordException(result));
    trace.Call(MarkAfterTime(now));
    trace.Call(TraceBlockEnd);
  }
}
