/**
 * The inbound HTTP middleware of logging/http/http.go: how one request's
 * tracing headers become log fields and the outgoing correlation ID.
 *
 * The structured logger is a value: `Logger(context)` is the list of fields a
 * zerolog logger carries, and `With` is `logger.With().Str(name, value).Logger()`,
 * which builds a new logger with one more field. The request context is a value
 * too: the outgoing gRPC metadata pairs already appended to it and the logger it
 * carries. The UUID the source would generate is a parameter.
 */
module HttpLogging {
  import opened Wrappers

  /** Inbound request headers; a header is present exactly when its name is a key. */
  type Headers = map<string, string>

  const CorrelationIdHeader: string := "Correlation-Id"
  const RequestIdHeader: string := "Request-Id"
  const AtbRequestIdHeader: string := "Atb-Request-Id"
  const InstallIdHeader: string := "Install-Id"
  const AtbInstallIdHeader: string := "Atb-Install-Id"

  const CorrelationIdField: string := "correlationId"
  const RequestIdField: string := "requestId"
  const InstallIdField: string := "installId"

  /** The outgoing gRPC metadata key that carries the correlation ID. */
  const CorrelationMetadataKey: string := "x-correlation-id"

  /** One string field bound into a logger's context. */
  datatype Field = Field(name: string, value: string)

  /** A structured logger, reduced to the fields it adds to every line. */
  datatype Logger = Logger(context: seq<Field>)

  /** One key/value pair of outgoing gRPC metadata. */
  datatype MetadataEntry = MetadataEntry(key: string, value: string)

  /** The part of a request's context the middleware reads and writes. */
  datatype RequestContext = RequestContext(outgoing: seq<MetadataEntry>, logger: Option<Logger>)

  /** What the middleware hands on: the context `next` is served with, the chosen
      outgoing correlation ID, and whether the "no tracing ID" debug line was requested
      (whether it is written depends on the logger's level, which is not modelled). */
  datatype Handled = Handled(ctx: RequestContext, outgoingCorrelationId: string, debugRequested: bool)

  /** `Header.Get`: the header's value, or the empty string when it is absent. */
  function HeaderGet(h: Headers, name: string): string {
    if name in h then h[name] else ""
  }

  /** `logger.With().Str(name, value).Logger()`. */
  function With(logger: Logger, name: string, value: string): Logger {
    Logger(logger.context + [Field(name, value)])
  }

  // ---------------------------------------------------------------------------
  // Reference definitions the middleware is specified against
  // ---------------------------------------------------------------------------

  /** The request ID: `Request-Id`, or `Atb-Request-Id` when that is empty. */
  function ResolvedRequestId(h: Headers): (id: string)
    ensures RequestIdHeader in h && h[RequestIdHeader] != "" ==> id == h[RequestIdHeader]
    ensures !(RequestIdHeader in h && h[RequestIdHeader] != "") ==>
              id == (if AtbRequestIdHeader in h then h[AtbRequestIdHeader] else "")
    ensures id != "" <==> (RequestIdHeader in h && h[RequestIdHeader] != "") || (AtbRequestIdHeader in h && h[AtbRequestIdHeader] != "")
  {
    if HeaderGet(h, RequestIdHeader) != "" then HeaderGet(h, RequestIdHeader)
    else HeaderGet(h, AtbRequestIdHeader)
  }

  /** The install ID: `Install-Id`, or `Atb-Install-Id` when that is empty. */
  function ResolvedInstallId(h: Headers): (id: string)
    ensures InstallIdHeader in h && h[InstallIdHeader] != "" ==> id == h[InstallIdHeader]
    ensures !(InstallIdHeader in h && h[InstallIdHeader] != "") ==>
              id == (if AtbInstallIdHeader in h then h[AtbInstallIdHeader] else "")
    ensures id != "" <==> (InstallIdHeader in h && h[InstallIdHeader] != "") || (AtbInstallIdHeader in h && h[AtbInstallIdHeader] != "")
  {
    if HeaderGet(h, InstallIdHeader) != "" then HeaderGet(h, InstallIdHeader)
    else HeaderGet(h, AtbInstallIdHeader)
  }

  /** Some field in `fs` is named `name`. */
  predicate HasField(fs: seq<Field>, name: string) {
    exists i :: 0 <= i < |fs| && fs[i].name == name
  }

  /** Every field in `fs` named `name` holds `value`. */
  predicate FieldValueIs(fs: seq<Field>, name: string, value: string) {
    forall i :: 0 <= i < |fs| && fs[i].name == name ==> fs[i].value == value
  }

  /** Position of a tracing field in the order the middleware binds them. */
  function BindingRank(name: string): nat {
    if name == CorrelationIdField then 0
    else if name == RequestIdField then 1
    else if name == InstallIdField then 2
    else 3
  }

  /** Only tracing fields, each at most once, in the order correlationId, requestId, installId. */
  predicate InBindingOrder(fs: seq<Field>) {
    && (forall i :: 0 <= i < |fs| ==> BindingRank(fs[i].name) < 3)
    && (forall i, j :: 0 <= i < j < |fs| ==> BindingRank(fs[i].name) < BindingRank(fs[j].name))
  }

  /** How many entries of `md` have key `key`. */
  function CountKey(md: seq<MetadataEntry>, key: string): nat {
    if md == [] then 0
    else (if md[0].key == key then 1 else 0) + CountKey(md[1..], key)
  }

  // ---------------------------------------------------------------------------
  // The middleware
  // ---------------------------------------------------------------------------

  /** The fields bound on top of `base` to give `logger`, when `logger` extends `base`. */
  function Added(base: Logger, logger: Logger): seq<Field>
    requires |base.context| <= |logger.context|
  {
    logger.context[|base.context|..]
  }

  /** The fields the handler binds, listed in one piece. */
  function TracingFields(correlationId: string, requestId: string, installId: string): seq<Field> {
    (if correlationId != "" then [Field(CorrelationIdField, correlationId), Field(RequestIdField, requestId)] else [])
    + (if installId != "" then [Field(InstallIdField, requestId)] else [])
  }

  /** Which fields `TracingFields` holds, with which values, and in what order. */
  lemma TracingFieldsShape(correlationId: string, requestId: string, installId: string)
    ensures var fs := TracingFields(correlationId, requestId, installId);
      && (HasField(fs, CorrelationIdField) <==> correlationId != "")
      && FieldValueIs(fs, CorrelationIdField, correlationId)
      && (HasField(fs, RequestIdField) <==> correlationId != "")
      && FieldValueIs(fs, RequestIdField, requestId)
      && (HasField(fs, InstallIdField) <==> installId != "")
      && FieldValueIs(fs, InstallIdField, requestId)
      && InBindingOrder(fs)
      && |fs| == (if correlationId != "" then 2 else 0) + (if installId != "" then 1 else 0)
  {
    var fs := TracingFields(correlationId, requestId, installId);
    if correlationId != "" {
      assert fs[0].name == CorrelationIdField && fs[1].name == RequestIdField;
    }
    if installId != "" {
      assert fs[|fs| - 1].name == InstallIdField;
    }
  }

  /**
   * The field binding of the handler: `correlationId` under its own name when
   * non-empty; then the request ID under `requestId`, but only when the
   * correlation ID is non-empty; then, when the install ID is non-empty, the
   * request ID (not the install ID) under `installId`.
   */
  function BindTracingFields(base: Logger, correlationId: string, requestId: string, installId: string): (logger: Logger)
    ensures |base.context| <= |logger.context|
    ensures logger.context[..|base.context|] == base.context
    ensures HasField(Added(base, logger), CorrelationIdField) <==> correlationId != ""
    ensures FieldValueIs(Added(base, logger), CorrelationIdField, correlationId)
    ensures HasField(Added(base, logger), RequestIdField) <==> correlationId != ""
    ensures FieldValueIs(Added(base, logger), RequestIdField, requestId)
    ensures HasField(Added(base, logger), InstallIdField) <==> installId != ""
    ensures FieldValueIs(Added(base, logger), InstallIdField, requestId)
    ensures InBindingOrder(Added(base, logger))
    ensures |Added(base, logger)| == (if correlationId != "" then 2 else 0) + (if installId != "" then 1 else 0)
  {
    var logger1 := if correlationId != "" then With(base, CorrelationIdField, correlationId) else base;
    var logger2 := if correlationId != "" then With(logger1, RequestIdField, requestId) else logger1;
    var logger3 := if installId != "" then With(logger2, InstallIdField, requestId) else logger2;
    assert Added(base, logger3) == TracingFields(correlationId, requestId, installId);
    TracingFieldsShape(correlationId, requestId, installId);
    logger3
  }

  /**
   * The outgoing correlation ID, by priority: the correlation ID, else the
   * request ID, else the generated one; the second component says whether the
   * "no tracing ID" debug line is requested, which happens exactly in the last case.
   */
  function SelectOutgoingCorrelationId(correlationId: string, requestId: string, generatedId: string): (r: (string, bool))
    ensures correlationId != "" ==> r.0 == correlationId
    ensures correlationId == "" && requestId != "" ==> r.0 == requestId
    ensures correlationId == "" && requestId == "" ==> r.0 == generatedId
    ensures r.1 <==> correlationId == "" && requestId == ""
    ensures generatedId != "" ==> r.0 != ""
  {
    if correlationId != "" then (correlationId, false)
    else if requestId != "" then (requestId, false)
    else (generatedId, true)
  }

  /**
   * The handler closure of `RequestLoggingMiddleware`, up to the call of
   * `next.ServeHTTP`: starting from `defaultLogger` (the global `log.Logger`),
   * it resolves the three IDs, binds the tracing fields, picks the outgoing
   * correlation ID, appends it to the outgoing metadata of `ctx` (the request's
   * context) and attaches the new logger to that context. `generatedId` stands
   * for `uuid.New().String()`.
   *
   * Two behaviours of the source are kept as they are: `requestId` is bound
   * only when `correlationId` is, and the `installId` field holds the request ID.
   */
  function HandleRequest(h: Headers, generatedId: string, defaultLogger: Logger, ctx: RequestContext): (r: Handled)
    // the new logger extends the default one and is what the context carries
    ensures r.ctx.logger.Some?
    ensures |defaultLogger.context| <= |r.ctx.logger.value.context|
    ensures r.ctx.logger.value.context[..|defaultLogger.context|] == defaultLogger.context
    // correlationId: bound exactly when the header is non-empty, with the header's value
    ensures HasField(Added(defaultLogger, r.ctx.logger.value), CorrelationIdField) <==> HeaderGet(h, CorrelationIdHeader) != ""
    ensures FieldValueIs(Added(defaultLogger, r.ctx.logger.value), CorrelationIdField, HeaderGet(h, CorrelationIdHeader))
    // requestId: bound exactly when correlationId is non-empty, with the resolved request ID (possibly "")
    ensures HasField(Added(defaultLogger, r.ctx.logger.value), RequestIdField) <==> HeaderGet(h, CorrelationIdHeader) != ""
    ensures FieldValueIs(Added(defaultLogger, r.ctx.logger.value), RequestIdField, ResolvedRequestId(h))
    // installId: bound exactly when the resolved install ID is non-empty, holding the resolved request ID
    ensures HasField(Added(defaultLogger, r.ctx.logger.value), InstallIdField) <==> ResolvedInstallId(h) != ""
    ensures FieldValueIs(Added(defaultLogger, r.ctx.logger.value), InstallIdField, ResolvedRequestId(h))
    // nothing else, each at most once, in binding order
    ensures InBindingOrder(Added(defaultLogger, r.ctx.logger.value))
    ensures |Added(defaultLogger, r.ctx.logger.value)| ==
              (if HeaderGet(h, CorrelationIdHeader) != "" then 2 else 0) + (if ResolvedInstallId(h) != "" then 1 else 0)
    // the outgoing correlation ID, by priority
    ensures HeaderGet(h, CorrelationIdHeader) != "" ==> r.outgoingCorrelationId == HeaderGet(h, CorrelationIdHeader)
    ensures HeaderGet(h, CorrelationIdHeader) == "" && ResolvedRequestId(h) != "" ==> r.outgoingCorrelationId == ResolvedRequestId(h)
    ensures HeaderGet(h, CorrelationIdHeader) == "" && ResolvedRequestId(h) == "" ==> r.outgoingCorrelationId == generatedId
    ensures generatedId != "" ==> r.outgoingCorrelationId != ""
    // the debug line is requested exactly when neither ID was found
    ensures r.debugRequested <==> HeaderGet(h, CorrelationIdHeader) == "" && ResolvedRequestId(h) == ""
    // one metadata entry is appended, carrying the outgoing correlation ID; the rest is kept
    ensures r.ctx.outgoing == ctx.outgoing + [MetadataEntry(CorrelationMetadataKey, r.outgoingCorrelationId)]
  {
    var correlationId := HeaderGet(h, CorrelationIdHeader);

    var requestId := HeaderGet(h, RequestIdHeader);
    var requestId := if requestId == "" then HeaderGet(h, AtbRequestIdHeader) else requestId;

    var installId := HeaderGet(h, InstallIdHeader);
    var installId := if installId == "" then HeaderGet(h, AtbInstallIdHeader) else installId;

    var logger := BindTracingFields(defaultLogger, correlationId, requestId, installId);
    var (outgoingCorrelationId, debugRequested) := SelectOutgoingCorrelationId(correlationId, requestId, generatedId);
    var outgoing := ctx.outgoing + [MetadataEntry(CorrelationMetadataKey, outgoingCorrelationId)];
    Handled(RequestContext(outgoing, Some(logger)), outgoingCorrelationId, debugRequested)
  }

  // ---------------------------------------------------------------------------
  // Properties relating several requests or calls
  // ---------------------------------------------------------------------------

  /** Appending one entry adds one to the count of its key and leaves other keys' counts alone. */
  lemma {:induction false} CountKeyAppend(md: seq<MetadataEntry>, e: MetadataEntry, key: string)
    ensures CountKey(md + [e], key) == CountKey(md, key) + (if e.key == key then 1 else 0)
  {
    if md != [] {
      assert (md + [e])[1..] == md[1..] + [e];
      CountKeyAppend(md[1..], e, key);
    }
  }

  /** Each request adds exactly one `x-correlation-id` entry to the outgoing metadata,
      and no entry under any other key. */
  lemma ExactlyOneCorrelationEntry(h: Headers, generatedId: string, defaultLogger: Logger, ctx: RequestContext, key: string)
    ensures var r := HandleRequest(h, generatedId, defaultLogger, ctx);
            CountKey(r.ctx.outgoing, key) == CountKey(ctx.outgoing, key) + (if key == CorrelationMetadataKey then 1 else 0)
  {
    var r := HandleRequest(h, generatedId, defaultLogger, ctx);
    CountKeyAppend(ctx.outgoing, MetadataEntry(CorrelationMetadataKey, r.outgoingCorrelationId), key);
  }

  /** A request that carries only `Atb-Request-Id` is handled exactly as if that
      value had come in `Request-Id`. */
  lemma RequestIdFallbackIsTransparent(h: Headers, generatedId: string, defaultLogger: Logger, ctx: RequestContext)
    requires HeaderGet(h, RequestIdHeader) == ""
    ensures HandleRequest(h, generatedId, defaultLogger, ctx)
         == HandleRequest(h[RequestIdHeader := HeaderGet(h, AtbRequestIdHeader)], generatedId, defaultLogger, ctx)
  {
  }

  /** A request that carries only `Atb-Install-Id` is handled exactly as if that
      value had come in `Install-Id`. */
  lemma InstallIdFallbackIsTransparent(h: Headers, generatedId: string, defaultLogger: Logger, ctx: RequestContext)
    requires HeaderGet(h, InstallIdHeader) == ""
    ensures HandleRequest(h, generatedId, defaultLogger, ctx)
         == HandleRequest(h[InstallIdHeader := HeaderGet(h, AtbInstallIdHeader)], generatedId, defaultLogger, ctx)
  {
  }

  /** The generated UUID matters only when no tracing ID came in: otherwise two
      requests with the same headers are handled identically whatever UUID was drawn. */
  lemma GeneratedIdUsedOnlyWithoutTracing(h: Headers, g1: string, g2: string, defaultLogger: Logger, ctx: RequestContext)
    requires HeaderGet(h, CorrelationIdHeader) != "" || ResolvedRequestId(h) != ""
    ensures HandleRequest(h, g1, defaultLogger, ctx) == HandleRequest(h, g2, defaultLogger, ctx)
  {
  }
}
