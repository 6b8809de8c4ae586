/**
 * populateTraceIdFromRequest, which the servlet and the bloc entry
 * interceptors implement identically: read the five propagation headers and
 * build the identifier of a continued trace, or nothing for a new trace.
 */
module Propagation {
  import opened Wrappers
  import opened JavaText
  import opened TraceModel

  /** UUID.fromString threw IllegalArgumentException on this trace-id header. */
  datatype PopulateError = MalformedTraceId(text: string)

  /**
   * No trace-id header: None, start a new trace. A trace-id header UUID.fromString
   * rejects: the exception. Otherwise the continued identifier, each other
   * field parsed leniently on its own (span ids default to SpanID.NULL, flags
   * to 0, sampled to false).
   */
  function PopulateTraceId(r: Request, parseUuid: string -> Option<Uuid>): (res: Result<Option<TraceId>, PopulateError>)
    ensures (res.Success? && res.value.None?) <==> TraceIdHeader !in r.headers
    ensures res.Failure? <==> TraceIdHeader in r.headers && parseUuid(r.headers[TraceIdHeader]).None?
    ensures res.Success? && res.value.Some? ==>
      Some(res.value.value.transactionId) == parseUuid(r.headers[TraceIdHeader])
  {
    match Header(r, TraceIdHeader)
    case None => Success(None)
    case Some(text) =>
      match parseUuid(text)
      case None => Failure(MalformedTraceId(text))
      case Some(uuid) =>
        Success(Some(TraceId(
          uuid,
          ParseInteger(Header(r, ParentSpanIdHeader), SPAN_ID_NULL),
          ParseInteger(Header(r, SpanIdHeader), SPAN_ID_NULL),
          ParseBoolean(Header(r, SampledHeader)),
          ParseShort(Header(r, FlagsHeader), 0))))
  }

  /** The origin of the trace an interceptor binds for a populated identifier. */
  function OriginOf(id: Option<TraceId>): (o: Origin)
    ensures o.NewTrace? <==> id.None?
  {
    match id
    case None => NewTrace
    case Some(t) => Continued(t)
  }

  /**
   * Lenient parsing, field by field: an absent or unparsable span id becomes
   * SpanID.NULL and a parsable one its value, an absent or unparsable flags
   * value 0 and a parsable one its value, and sampled is true exactly when the
   * header equals "true" ignoring case. Each field depends on its own header
   * only, so one bad field never spoils the others.
   */
  lemma MalformedFieldsFallBack(r: Request, parseUuid: string -> Option<Uuid>)
    requires PopulateTraceId(r, parseUuid).Success? && PopulateTraceId(r, parseUuid).value.Some?
    ensures var id := PopulateTraceId(r, parseUuid).value.value;
      && ((ParentSpanIdHeader !in r.headers || ParseDecimal(r.headers[ParentSpanIdHeader], INT_MIN, INT_MAX).None?)
          ==> id.parentSpanId == SPAN_ID_NULL)
      && (ParentSpanIdHeader in r.headers && ParseDecimal(r.headers[ParentSpanIdHeader], INT_MIN, INT_MAX).Some?
          ==> id.parentSpanId == ParseDecimal(r.headers[ParentSpanIdHeader], INT_MIN, INT_MAX).value)
      && ((SpanIdHeader !in r.headers || ParseDecimal(r.headers[SpanIdHeader], INT_MIN, INT_MAX).None?)
          ==> id.spanId == SPAN_ID_NULL)
      && (SpanIdHeader in r.headers && ParseDecimal(r.headers[SpanIdHeader], INT_MIN, INT_MAX).Some?
          ==> id.spanId == ParseDecimal(r.headers[SpanIdHeader], INT_MIN, INT_MAX).value)
      && ((FlagsHeader !in r.headers || ParseDecimal(r.headers[FlagsHeader], SHORT_MIN, SHORT_MAX).None?)
          ==> id.flags == 0)
      && (FlagsHeader in r.headers && ParseDecimal(r.headers[FlagsHeader], SHORT_MIN, SHORT_MAX).Some?
          ==> id.flags == ParseDecimal(r.headers[FlagsHeader], SHORT_MIN, SHORT_MAX).value)
      && (id.sampled <==> SampledHeader in r.headers && EqualsIgnoreCaseAscii(r.headers[SampledHeader], "true"))
  {
  }

  /**
   * The malformed-header case: parent span id "notanumber", no span id header,
   * sampled "true" give NULL, NULL and true.
   */
  lemma MalformedHeaderScenario(r: Request, parseUuid: string -> Option<Uuid>)
    requires TraceIdHeader in r.headers && parseUuid(r.headers[TraceIdHeader]).Some?
    requires ParentSpanIdHeader in r.headers && r.headers[ParentSpanIdHeader] == "notanumber"
    requires SpanIdHeader !in r.headers
    requires SampledHeader in r.headers && r.headers[SampledHeader] == "true"
    ensures PopulateTraceId(r, parseUuid).Success?
    ensures PopulateTraceId(r, parseUuid).value.Some?
    ensures PopulateTraceId(r, parseUuid).value.value.parentSpanId == SPAN_ID_NULL
    ensures PopulateTraceId(r, parseUuid).value.value.spanId == SPAN_ID_NULL
    ensures PopulateTraceId(r, parseUuid).value.value.sampled
  {
    NonNumericFallsBack("notanumber", SPAN_ID_NULL);
  }

  /** The headers a producing trace writes for an identifier. */
  function ToHeaders(id: TraceId, formatUuid: Uuid -> string): map<HeaderName, string> {
    map[
      TraceIdHeader := formatUuid(id.transactionId),
      ParentSpanIdHeader := IntToString(id.parentSpanId),
      SpanIdHeader := IntToString(id.spanId),
      SampledHeader := if id.sampled then "true" else "false",
      FlagsHeader := IntToString(id.flags)]
  }

  /**
   * Round trip: whatever identifier a producer encodes into the headers, the
   * consuming side parses back exactly, given a UUID text form that
   * UUID.fromString reads back.
   */
  lemma PropagationRoundTrip(r: Request, id: TraceId, formatUuid: Uuid -> string, parseUuid: string -> Option<Uuid>)
    requires parseUuid(formatUuid(id.transactionId)) == Some(id.transactionId)
    requires r.headers == ToHeaders(id, formatUuid)
    ensures PopulateTraceId(r, parseUuid) == Success(Some(id))
  {
    ParseIntToString(id.parentSpanId, INT_MIN, INT_MAX);
    ParseIntToString(id.spanId, INT_MIN, INT_MAX);
    ParseIntToString(id.flags, SHORT_MIN, SHORT_MAX);
  }
}
