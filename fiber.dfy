/** The Fiber adapter: the configuration mapping and the per-request
    middleware, whose normal path and panic barrier each build one payload
    and attach it to the span. The barrier is given twice: as written, where
    a panic value that is neither an error nor a string breaks the barrier
    itself, and as evidently intended, where every panic value is converted. */
module Fiber {
  import opened Apt

  const STATUS_INTERNAL_SERVER_ERROR := 500

  /** The adapter's own configuration, field for field as the adapter declares it. */
  datatype Config = Config(
    debug: bool,
    serviceVersion: string,
    serviceName: string,
    redactHeaders: seq<string>,
    redactRequestBody: seq<string>,
    redactResponseBody: seq<string>,
    tags: seq<string>,
    captureRequestBody: bool,
    captureResponseBody: bool)

  /** Each of the nine fields goes to the same-named field, unchanged. */
  function GetAptConfig(config: Config): (r: Apt.Config)
    ensures r.serviceName == config.serviceName && r.serviceVersion == config.serviceVersion
    ensures r.tags == config.tags && r.debug == config.debug
    ensures r.captureRequestBody == config.captureRequestBody
    ensures r.captureResponseBody == config.captureResponseBody
    ensures r.redactHeaders == config.redactHeaders
    ensures r.redactRequestBody == config.redactRequestBody
    ensures r.redactResponseBody == config.redactResponseBody
  {
    Apt.Config(
      serviceName := config.serviceName,
      serviceVersion := config.serviceVersion,
      tags := config.tags,
      debug := config.debug,
      captureRequestBody := config.captureRequestBody,
      captureResponseBody := config.captureResponseBody,
      redactHeaders := config.redactHeaders,
      redactRequestBody := config.redactRequestBody,
      redactResponseBody := config.redactResponseBody)
  }

  /** No adapter setting is lost on the way to the payload builder. */
  lemma GetAptConfigInjective(a: Config, b: Config)
    ensures GetAptConfig(a) == GetAptConfig(b) ==> a == b
  {
  }

  // ---------------------------------------------------------------------
  // Panic values and their conversion to an error

  /** What a handler may panic with: an error, a string, or a value of any
      other dynamic type (shown here by its printed form). */
  datatype PanicValue = PanicError(err: Error) | PanicString(s: string) | PanicOther(shown: string)

  /** The conversion at the head of the deferred barrier, as written: an
      error passes, anything else is asserted to be a string. None stands for
      that assertion failing, which panics inside the barrier itself, before
      the error is reported and before any payload is built. */
  function RecoverAsWritten(v: PanicValue): (r: Option<Error>)
    ensures r.None? <==> v.PanicOther?
    ensures v.PanicError? ==> r == Some(v.err)
    ensures v.PanicString? ==> r == Some(Error(v.s))
  {
    match v
    case PanicError(e) => Some(e)
    case PanicString(s) => Some(Error(s))
    case PanicOther(_) => None
  }

  /** The conversion the barrier evidently intends: every panic value becomes
      an error, an error unchanged, a string wrapped as a new error. */
  function PanicToError(v: PanicValue): (e: Error)
    ensures v.PanicError? ==> e == v.err
    ensures v.PanicString? ==> e == Error(v.s)
    ensures v.PanicOther? ==> e == Error(v.shown)
    ensures RecoverAsWritten(v).Some? ==> RecoverAsWritten(v).value == e
  {
    match v
    case PanicError(e) => e
    case PanicString(s) => Error(s)
    case PanicOther(shown) => Error(shown)
  }

  // ---------------------------------------------------------------------
  // The request context and the handler

  /** The parts of a Fiber request context the middleware touches. */
  class Ctx {
    var userContext: Context
    var locals: map<CtxKey, CtxValue>
    var statusCode: int
    var respHeaders: map<string, seq<string>>
    var respBody: seq<Byte>
    const reqBody: seq<Byte>
    const params: map<string, string>
    const routePath: string
    const referer: string

    constructor (userContext: Context, statusCode: int, respHeaders: map<string, seq<string>>,
                 reqBody: seq<Byte>, params: map<string, string>, routePath: string, referer: string)
      ensures this.userContext == userContext && locals == map[]
      ensures this.statusCode == statusCode && this.respHeaders == respHeaders && respBody == []
      ensures this.reqBody == reqBody && this.params == params
      ensures this.routePath == routePath && this.referer == referer
    {
      this.userContext := userContext;
      locals := map[];
      this.statusCode := statusCode;
      this.respHeaders := respHeaders;
      respBody := [];
      this.reqBody := reqBody;
      this.params := params;
      this.routePath := routePath;
      this.referer := referer;
    }
  }

  /** One thing the downstream handler does to the context. */
  datatype Effect =
    | SetStatus(code: int)
    | SetHeader(name: string, values: seq<string>)
    | AppendBody(data: seq<Byte>)
    | Report(err: Error)

  /** How the downstream handler ends. */
  datatype HandlerOutcome = Return(err: Option<Error>) | Panic(value: PanicValue)

  datatype Handler = Handler(effects: seq<Effect>, outcome: HandlerOutcome)

  /** How the middleware ends: it returns an error (or none), panics with an
      error, or its barrier's own type assertion panics on `value`, in which
      case that runtime error replaces the handler's panic. */
  datatype Outcome =
    | Returned(returned: Option<Error>)
    | Panicked(raised: Error)
    | BarrierFailed(value: PanicValue)

  /** The status after the effects: the last one set, else the initial one. */
  function StatusAfter(status: int, effects: seq<Effect>): int {
    if effects == [] then status
    else match effects[|effects| - 1]
      case SetStatus(code) => code
      case _ => StatusAfter(status, effects[..|effects| - 1])
  }

  function HeadersAfter(headers: map<string, seq<string>>, effects: seq<Effect>): map<string, seq<string>> {
    if effects == [] then headers
    else
      var before := HeadersAfter(headers, effects[..|effects| - 1]);
      match effects[|effects| - 1]
      case SetHeader(name, values) => before[name := values]
      case _ => before
  }

  function BodyAfter(body: seq<Byte>, effects: seq<Effect>): seq<Byte> {
    if effects == [] then body
    else
      var before := BodyAfter(body, effects[..|effects| - 1]);
      match effects[|effects| - 1]
      case AppendBody(data) => before + data
      case _ => before
  }

  /** The errors reported by the effects, in order. */
  function ReportedBy(effects: seq<Effect>): seq<ErrorRecord> {
    if effects == [] then []
    else
      var before := ReportedBy(effects[..|effects| - 1]);
      match effects[|effects| - 1]
      case Report(err) => before + [ErrorRecord(err)]
      case _ => before
  }

  /** A handler that sets no status leaves the response's status as it was. */
  lemma {:induction false} StatusUnsetKeepsInitial(status: int, effects: seq<Effect>)
    requires forall i :: 0 <= i < |effects| ==> !effects[i].SetStatus?
    ensures StatusAfter(status, effects) == status
  {
    if effects != [] {
      StatusUnsetKeepsInitial(status, effects[..|effects| - 1]);
    }
  }

  /** Whether some effect sets the header `name`. */
  predicate SetsHeader(effects: seq<Effect>, name: string) {
    exists i :: 0 <= i < |effects| && effects[i].SetHeader? && effects[i].name == name
  }

  /** A header the handler never sets keeps its entry, present or absent. */
  lemma {:induction false} HeaderUntouched(headers: map<string, seq<string>>, effects: seq<Effect>, name: string)
    requires !SetsHeader(effects, name)
    ensures (name in HeadersAfter(headers, effects)) == (name in headers)
    ensures name in headers ==> HeadersAfter(headers, effects)[name] == headers[name]
  {
    if effects != [] {
      HeaderUntouched(headers, effects[..|effects| - 1], name);
    }
  }

  /** Reporting through a context, as the adapter exposes it to handlers. */
  method ReportError(ctx: Context, err: Error)
    modifies ctx.ReportTargets()
    ensures ctx.ErrorListOf().Some? ==>
      ctx.ErrorListOf().value.errors == old(ctx.ErrorListOf().value.errors) + [ErrorRecord(err)]
  {
    Apt.ReportError(ctx, err);
  }

  /** Runs the handler's effects; its reports reach `list` through the user context. */
  method Next(ctx: Ctx, effects: seq<Effect>, list: ErrorList)
    requires ctx.userContext.ErrorListOf() == Some(list)
    modifies ctx, list
    ensures ctx.userContext == old(ctx.userContext) && ctx.locals == old(ctx.locals)
    ensures ctx.statusCode == StatusAfter(old(ctx.statusCode), effects)
    ensures ctx.respHeaders == HeadersAfter(old(ctx.respHeaders), effects)
    ensures ctx.respBody == BodyAfter(old(ctx.respBody), effects)
    ensures list.errors == old(list.errors) + ReportedBy(effects)
  {
    var i := 0;
    while i < |effects|
      invariant 0 <= i <= |effects|
      invariant ctx.userContext == old(ctx.userContext) && ctx.locals == old(ctx.locals)
      invariant ctx.statusCode == StatusAfter(old(ctx.statusCode), effects[..i])
      invariant ctx.respHeaders == HeadersAfter(old(ctx.respHeaders), effects[..i])
      invariant ctx.respBody == BodyAfter(old(ctx.respBody), effects[..i])
      invariant list.errors == old(list.errors) + ReportedBy(effects[..i])
    {
      assert effects[..i + 1][..i] == effects[..i];
      match effects[i] {
        case SetStatus(code) =>
          ctx.statusCode := code;
        case SetHeader(name, values) =>
          ctx.respHeaders := ctx.respHeaders[name := values];
        case AppendBody(data) =>
          ctx.respBody := ctx.respBody + data;
        case Report(err) =>
          ReportError(ctx.userContext, err);
      }
      i := i + 1;
    }
    assert effects[..i] == effects;
  }

  /** The key-by-key copy of the response headers. */
  method CopyHeaders(source: map<string, seq<string>>) returns (copy: map<string, seq<string>>)
    ensures copy == source
  {
    copy := map[];
    var pending := source.Keys;
    while pending != {}
      invariant pending <= source.Keys
      invariant copy.Keys == source.Keys - pending
      invariant forall k :: k in copy ==> copy[k] == source[k]
      decreases pending
    {
      var k :| k in pending;
      copy := copy[k := source[k]];
      pending := pending - {k};
    }
  }

  // ---------------------------------------------------------------------
  // The middleware

  /** The payload built from the context after the handler: `respHeaders` is
      the snapshot, `status` and `errors` differ between the two paths. */
  function FiberPayload(config: Config, msgId: Uuid, ctx: Ctx, respHeaders: map<string, seq<string>>,
                        status: int, errors: seq<ErrorRecord>): Payload
    reads ctx
  {
    Payload(
      GoFiber, status, ctx.reqBody, ctx.respBody, respHeaders, ctx.params, ctx.routePath,
      config.redactHeaders, config.redactRequestBody, config.redactResponseBody,
      errors, msgId, None, Some(ctx.referer), GetAptConfig(config))
  }

  /** Everything up to the handler's return: the span, the correlation state
      in the locals and the user context, the header snapshot, and the handler. */
  method Enter(msgId: Uuid, ctx: Ctx, effects: seq<Effect>)
    returns (span: Span, errorList: ErrorList, respHeaders: map<string, seq<string>>)
    modifies ctx
    ensures fresh(span) && span.name == SPAN_NAME && span.kind == Server
    ensures span.attached == [] && !span.ended
    ensures fresh(errorList) && errorList.errors == ReportedBy(effects)
    ensures ctx.locals == old(ctx.locals)
      [CurrentRequestMessageId := MessageId(msgId)]
      [ErrorListCtxKey := ErrorListRef(errorList)]
    ensures ctx.userContext.values == old(ctx.userContext.values)
      [ErrorListCtxKey := ErrorListRef(errorList)]
      [CurrentRequestMessageId := MessageId(msgId)]
    ensures ctx.userContext.ErrorListOf() == Some(errorList)
    ensures respHeaders == old(ctx.respHeaders)
    ensures ctx.statusCode == StatusAfter(old(ctx.statusCode), effects)
    ensures ctx.respHeaders == HeadersAfter(old(ctx.respHeaders), effects)
    ensures ctx.respBody == BodyAfter(old(ctx.respBody), effects)
  {
    var baseCtx := ctx.userContext;
    span := new Span.Start(SPAN_NAME, Server);
    var newCtx := baseCtx;
    ctx.locals := ctx.locals[CurrentRequestMessageId := MessageId(msgId)];
    errorList := new ErrorList();
    ctx.locals := ctx.locals[ErrorListCtxKey := ErrorListRef(errorList)];

    newCtx := newCtx.WithValue(ErrorListCtxKey, ErrorListRef(errorList));
    newCtx := newCtx.WithValue(CurrentRequestMessageId, MessageId(msgId));
    ctx.userContext := newCtx;
    assert ctx.userContext.ErrorListOf() == Some(errorList);

    respHeaders := CopyHeaders(ctx.respHeaders);
    Next(ctx, effects, errorList);
  }

  /** One request through the middleware, with the barrier converting every
      panic value. `msgId` stands for the generated UUID. Panics are values:
      the handler's outcome says whether it panicked, and the middleware's
      outcome whether it panics in turn. */
  method Middleware(config: Config, msgId: Uuid, ctx: Ctx, handler: Handler)
    returns (outcome: Outcome, span: Span)
    modifies ctx
    // the correlation state, reachable both from the locals and from the user
    // context, and through the very same error list
    ensures ErrorListCtxKey in ctx.locals && ctx.locals[ErrorListCtxKey].ErrorListRef?
    ensures fresh(ctx.locals[ErrorListCtxKey].list)
    ensures ctx.locals == old(ctx.locals)
      [CurrentRequestMessageId := MessageId(msgId)]
      [ErrorListCtxKey := ctx.locals[ErrorListCtxKey]]
    ensures ctx.userContext.values == old(ctx.userContext.values)
      [ErrorListCtxKey := ctx.locals[ErrorListCtxKey]]
      [CurrentRequestMessageId := MessageId(msgId)]
    // the handler's effects on the response stay in place
    ensures ctx.statusCode == StatusAfter(old(ctx.statusCode), handler.effects)
    ensures ctx.respHeaders == HeadersAfter(old(ctx.respHeaders), handler.effects)
    ensures ctx.respBody == BodyAfter(old(ctx.respBody), handler.effects)
    // exactly one payload, on a fresh server span that has ended
    ensures fresh(span) && span.name == SPAN_NAME && span.kind == Server && span.ended
    ensures |span.attached| == 1
    ensures span.attached[0].sdk == GoFiber
    ensures span.attached[0].requestBody == ctx.reqBody
    ensures span.attached[0].responseBody == ctx.respBody
    // headers as they were before the handler ran, which on every header the
    // handler never set are the response's headers afterwards
    ensures span.attached[0].responseHeaders == old(ctx.respHeaders)
    ensures forall name :: !SetsHeader(handler.effects, name) ==>
      && (name in span.attached[0].responseHeaders <==> name in ctx.respHeaders)
      && (name in ctx.respHeaders ==> span.attached[0].responseHeaders[name] == ctx.respHeaders[name])
    ensures span.attached[0].pathParams == ctx.params
    ensures span.attached[0].routePath == ctx.routePath
    ensures span.attached[0].redactHeaders == config.redactHeaders
    ensures span.attached[0].redactRequestBody == config.redactRequestBody
    ensures span.attached[0].redactResponseBody == config.redactResponseBody
    ensures span.attached[0].errors == ctx.locals[ErrorListCtxKey].list.errors
    ensures span.attached[0].messageId == msgId
    ensures span.attached[0].parentId == None
    ensures span.attached[0].referer == Some(ctx.referer)
    ensures span.attached[0].config == GetAptConfig(config)
    // normal return: the response's own status, the handler's error unchanged
    ensures handler.outcome.Return? ==>
      && outcome == Returned(handler.outcome.err)
      && span.attached[0].statusCode == ctx.statusCode
      && span.attached[0].errors == ReportedBy(handler.effects)
    // panic: reported before the payload is built, status 500, panics on
    ensures handler.outcome.Panic? ==>
      && outcome == Panicked(PanicToError(handler.outcome.value))
      && span.attached[0].statusCode == STATUS_INTERNAL_SERVER_ERROR
      && span.attached[0].errors ==
           ReportedBy(handler.effects) + [ErrorRecord(PanicToError(handler.outcome.value))]
  {
    var errorList, respHeaders;
    span, errorList, respHeaders := Enter(msgId, ctx, handler.effects);
    forall name | !SetsHeader(handler.effects, name)
      ensures (name in respHeaders <==> name in ctx.respHeaders)
      ensures name in ctx.respHeaders ==> respHeaders[name] == ctx.respHeaders[name]
    {
      HeaderUntouched(respHeaders, handler.effects, name);
    }
    var aptConfig := GetAptConfig(config);
    match handler.outcome {
      case Panic(value) =>
        // the deferred barrier
        var err := PanicToError(value);
        Apt.ReportError(ctx.userContext, err);
        var payload := FiberPayload(config, msgId, ctx, respHeaders,
                                    STATUS_INTERNAL_SERVER_ERROR, errorList.errors);
        CreateSpan(payload, aptConfig, span);
        span.End();
        outcome := Panicked(err);
      case Return(err) =>
        var payload := FiberPayload(config, msgId, ctx, respHeaders, ctx.statusCode, errorList.errors);
        CreateSpan(payload, aptConfig, span);
        span.End();
        outcome := Returned(err);
    }
  }

  /** The middleware exactly as written: the barrier asserts that a panic
      value which is not an error is a string. For any other value that
      assertion panics inside the barrier, so nothing is reported, no payload
      is built or attached, the deferred `span.End()` still runs, and the
      assertion's runtime error goes on in place of the handler's panic. */
  method MiddlewareAsWritten(config: Config, msgId: Uuid, ctx: Ctx, handler: Handler)
    returns (outcome: Outcome, span: Span)
    modifies ctx
    ensures ErrorListCtxKey in ctx.locals && ctx.locals[ErrorListCtxKey].ErrorListRef?
    ensures fresh(ctx.locals[ErrorListCtxKey].list)
    ensures ctx.locals == old(ctx.locals)
      [CurrentRequestMessageId := MessageId(msgId)]
      [ErrorListCtxKey := ctx.locals[ErrorListCtxKey]]
    ensures ctx.userContext.values == old(ctx.userContext.values)
      [ErrorListCtxKey := ctx.locals[ErrorListCtxKey]]
      [CurrentRequestMessageId := MessageId(msgId)]
    ensures ctx.statusCode == StatusAfter(old(ctx.statusCode), handler.effects)
    ensures ctx.respHeaders == HeadersAfter(old(ctx.respHeaders), handler.effects)
    ensures ctx.respBody == BodyAfter(old(ctx.respBody), handler.effects)
    ensures fresh(span) && span.name == SPAN_NAME && span.kind == Server && span.ended
    // normal return: the same single payload as with the corrected barrier
    ensures handler.outcome.Return? ==>
      && outcome == Returned(handler.outcome.err)
      && span.attached == [FiberPayload(config, msgId, ctx, old(ctx.respHeaders),
                                        ctx.statusCode, ReportedBy(handler.effects))]
    // an error or a string: converted, reported, one payload of status 500
    ensures handler.outcome.Panic? && RecoverAsWritten(handler.outcome.value).Some? ==>
      var err := RecoverAsWritten(handler.outcome.value).value;
      && outcome == Panicked(err)
      && span.attached == [FiberPayload(config, msgId, ctx, old(ctx.respHeaders),
                                        STATUS_INTERNAL_SERVER_ERROR,
                                        ReportedBy(handler.effects) + [ErrorRecord(err)])]
    // any other value: the barrier fails, no report and no payload
    ensures handler.outcome.Panic? && handler.outcome.value.PanicOther? ==>
      && outcome == BarrierFailed(handler.outcome.value)
      && span.attached == []
      && ctx.locals[ErrorListCtxKey].list.errors == ReportedBy(handler.effects)
  {
    var errorList, respHeaders;
    span, errorList, respHeaders := Enter(msgId, ctx, handler.effects);
    var aptConfig := GetAptConfig(config);
    match handler.outcome {
      case Panic(value) =>
        match RecoverAsWritten(value) {
          case None =>
            span.End();
            outcome := BarrierFailed(value);
          case Some(err) =>
            Apt.ReportError(ctx.userContext, err);
            var payload := FiberPayload(config, msgId, ctx, respHeaders,
                                        STATUS_INTERNAL_SERVER_ERROR, errorList.errors);
            CreateSpan(payload, aptConfig, span);
            span.End();
            outcome := Panicked(err);
        }
      case Return(err) =>
        var payload := FiberPayload(config, msgId, ctx, respHeaders, ctx.statusCode, errorList.errors);
        CreateSpan(payload, aptConfig, span);
        span.End();
        outcome := Returned(err);
    }
  }

  /** `panic(42)` in a handler, through the middleware as written: the
      barrier itself fails and the span ends without a payload. */
  method IntegerPanicEscapesBarrier(config: Config, msgId: Uuid)
    returns (outcome: Outcome, attached: seq<Payload>, reported: seq<ErrorRecord>)
    ensures outcome == BarrierFailed(PanicOther("42"))
    ensures attached == [] && reported == []
  {
    var ctx := new Ctx(Context(map[]), 200, map[], [], map[], "/", "");
    var span;
    outcome, span := MiddlewareAsWritten(config, msgId, ctx, Handler([], Panic(PanicOther("42"))));
    attached := span.attached;
    reported := ctx.locals[ErrorListCtxKey].list.errors;
  }

  /** The same `panic(42)` through the corrected barrier: reported, and sent
      in one payload of status 500 before the panic goes on. */
  method IntegerPanicReported(config: Config, msgId: Uuid)
    returns (outcome: Outcome, attached: seq<Payload>)
    ensures outcome == Panicked(Error("42"))
    ensures |attached| == 1 && attached[0].statusCode == STATUS_INTERNAL_SERVER_ERROR
    ensures attached[0].errors == [ErrorRecord(Error("42"))]
  {
    var ctx := new Ctx(Context(map[]), 200, map[], [], map[], "/", "");
    var span;
    outcome, span := Middleware(config, msgId, ctx, Handler([], Panic(PanicOther("42"))));
    attached := span.attached;
  }
}
