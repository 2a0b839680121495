/** The gorilla/mux adapter's per-request middleware: it opens a server span,
    stores the message identifier and a fresh error list in the request's
    context, optionally captures the request body and puts an identical copy
    back for the handler, runs the handler behind a response recorder, and
    attaches one payload to the span. */
module Gorilla {
  import opened Apt
  import opened Recorder

  /** The adapter's own configuration, field for field as the adapter declares it. */
  datatype Config = Config(
    debug: bool,
    serviceVersion: string,
    serviceName: string,
    redactHeaders: seq<string>,
    redactRequestBody: seq<string>,
    redactResponseBody: seq<string>,
    tags: seq<string>,
    captureRequestBody: bool,
    captureResponseBody: bool)

  /** The configuration handed to the payload builder: every field copied unchanged. */
  function AptConfigOf(config: Config): (r: Apt.Config)
    ensures r.serviceName == config.serviceName && r.serviceVersion == config.serviceVersion
    ensures r.tags == config.tags && r.debug == config.debug
    ensures r.captureRequestBody == config.captureRequestBody
    ensures r.captureResponseBody == config.captureResponseBody
    ensures r.redactHeaders == config.redactHeaders
    ensures r.redactRequestBody == config.redactRequestBody
    ensures r.redactResponseBody == config.redactResponseBody
  {
    Apt.Config(
      serviceName := config.serviceName,
      serviceVersion := config.serviceVersion,
      tags := config.tags,
      debug := config.debug,
      captureRequestBody := config.captureRequestBody,
      captureResponseBody := config.captureResponseBody,
      redactHeaders := config.redactHeaders,
      redactRequestBody := config.redactRequestBody,
      redactResponseBody := config.redactResponseBody)
  }

  /** No adapter setting is lost on the way to the payload builder. */
  lemma AptConfigOfInjective(a: Config, b: Config)
    ensures AptConfigOf(a) == AptConfigOf(b) ==> a == b
  {
  }

  /** Reporting through a context, as the adapter exposes it to handlers. */
  method ReportError(ctx: Context, err: Error)
    modifies ctx.ReportTargets()
    ensures ctx.ErrorListOf().Some? ==>
      ctx.ErrorListOf().value.errors == old(ctx.ErrorListOf().value.errors) + [ErrorRecord(err)]
  {
    Apt.ReportError(ctx, err);
  }

  /** A request as the handler sees it; `body` is what is left to read. */
  datatype Request = Request(httpMethod: string, path: string, body: seq<Byte>, ctx: Context)

  /** What the router resolved for the request. */
  datatype Route = Route(pathTemplate: string, vars: map<string, string>)

  /** The downstream handler: the errors it reports through the request's
      context, then the calls it makes on the response writer. */
  datatype Handler = Handler(reported: seq<Error>, calls: seq<Call>)

  /** Runs the handler: its reports go to the error list in `req.ctx`, its
      calls to the recorder. */
  method ServeHttp(handler: Handler, rec: ResponseRecorder, req: Request)
    requires rec.Valid()
    modifies rec, rec.writer, req.ctx.ReportTargets()
    ensures rec.Valid() && rec.history == old(rec.history) + handler.calls
    ensures rec.writer.header == old(rec.writer.header)
    ensures req.ctx.ErrorListOf().Some? ==>
      req.ctx.ErrorListOf().value.errors ==
        old(req.ctx.ErrorListOf().value.errors) + Records(handler.reported)
  {
    Report(handler.reported, req.ctx);
    Perform(handler.calls, rec);
  }

  method Report(errs: seq<Error>, ctx: Context)
    modifies ctx.ReportTargets()
    ensures ctx.ErrorListOf().Some? ==>
      ctx.ErrorListOf().value.errors == old(ctx.ErrorListOf().value.errors) + Records(errs)
  {
    var i := 0;
    while i < |errs|
      invariant 0 <= i <= |errs|
      invariant ctx.ErrorListOf().Some? ==>
        ctx.ErrorListOf().value.errors == old(ctx.ErrorListOf().value.errors) + Records(errs[..i])
    {
      ReportError(ctx, errs[i]);
      assert errs[..i + 1][..i] == errs[..i];
      i := i + 1;
    }
    assert errs[..i] == errs;
  }

  /** One call of the handler on the recorder. */
  method Apply(c: Call, rec: ResponseRecorder)
    requires rec.Valid()
    modifies rec, rec.writer
    ensures rec.Valid() && rec.history == old(rec.history) + [c]
    ensures rec.writer.header == old(rec.writer.header)
  {
    match c {
      case WriteHeaderCall(code) =>
        rec.WriteHeader(code);
      case WriteCall(data) =>
        var _ := rec.Write(data);
    }
  }

  method Perform(calls: seq<Call>, rec: ResponseRecorder)
    requires rec.Valid()
    modifies rec, rec.writer
    ensures rec.Valid() && rec.history == old(rec.history) + calls
    ensures rec.writer.header == old(rec.writer.header)
    decreases |calls|
  {
    if calls != [] {
      ConsStep(rec.history, calls);
      Apply(calls[0], rec);
      Perform(calls[1..], rec);
    }
  }

  lemma ConsStep(before: seq<Call>, calls: seq<Call>)
    requires calls != []
    ensures before + calls == (before + [calls[0]]) + calls[1..]
  {
    assert calls == [calls[0]] + calls[1..];
  }

  /** The handler behind a fresh recorder: the status the recorder reports
      and its buffer, taken only when response capture is on. */
  method RunRecorded(handler: Handler, res: ResponseWriter, r: Request, capture: bool,
                     list: ErrorList)
    returns (statusCode: int, resBody: seq<Byte>)
    requires r.ctx.ErrorListOf() == Some(list)
    modifies res, list
    ensures statusCode == ReportedStatus(handler.calls)
    ensures resBody == Captured(handler.calls, capture)
    ensures res.log == old(res.log) + Wire(handler.calls) && res.header == old(res.header)
    ensures list.errors == old(list.errors) + Records(handler.reported)
  {
    var rec := new ResponseRecorder(res, capture);
    ServeHttp(handler, rec, r);
    assert rec.history == handler.calls;
    resBody := [];
    if capture {
      resBody := rec.body;
    }
    statusCode := rec.StatusCode();
  }

  /** One request through the middleware. The message identifier stands for
      the generated UUID, `route` for what the router reports afterwards. */
  method Middleware(config: Config, msgId: Uuid, route: Route, res: ResponseWriter,
                    req: Request, handler: Handler)
    returns (seen: Request, span: Span)
    modifies res
    // the handler reads the request exactly as it arrived, capture or not
    ensures seen.httpMethod == req.httpMethod && seen.path == req.path && seen.body == req.body
    // and finds the correlation state in its context
    ensures seen.ctx.values.Keys == req.ctx.values.Keys + {CurrentRequestMessageId, ErrorListCtxKey}
    ensures forall k :: k in req.ctx.values && k != CurrentRequestMessageId && k != ErrorListCtxKey ==>
      seen.ctx.values[k] == req.ctx.values[k]
    ensures seen.ctx.values[CurrentRequestMessageId] == MessageId(msgId)
    ensures seen.ctx.ErrorListOf().Some? && fresh(seen.ctx.ErrorListOf().value)
    // everything the handler sent reaches the client unchanged
    ensures res.log == old(res.log) + Wire(handler.calls)
    ensures res.header == old(res.header)
    // exactly one payload, on a fresh server span that has ended
    ensures fresh(span) && span.name == SPAN_NAME && span.kind == Server && span.ended
    ensures |span.attached| == 1
    ensures span.attached[0].sdk == GoGorillaMux
    ensures span.attached[0].statusCode == ReportedStatus(handler.calls)
    ensures span.attached[0].requestBody == (if config.captureRequestBody then req.body else [])
    ensures span.attached[0].responseBody == Captured(handler.calls, config.captureResponseBody)
    ensures span.attached[0].responseHeaders == res.header
    ensures span.attached[0].pathParams == route.vars
    ensures span.attached[0].routePath == route.pathTemplate
    ensures span.attached[0].redactHeaders == config.redactHeaders
    ensures span.attached[0].redactRequestBody == config.redactRequestBody
    ensures span.attached[0].redactResponseBody == config.redactResponseBody
    ensures span.attached[0].errors == Records(handler.reported)
    ensures span.attached[0].errors == seen.ctx.ErrorListOf().value.errors
    ensures span.attached[0].messageId == msgId
    ensures span.attached[0].parentId == None && span.attached[0].referer == None
    ensures span.attached[0].config == AptConfigOf(config)
  {
    span := new Span.Start(SPAN_NAME, Server);
    var newCtx := req.ctx;
    newCtx := newCtx.WithValue(CurrentRequestMessageId, MessageId(msgId));
    var errorList := new ErrorList();
    newCtx := newCtx.WithValue(ErrorListCtxKey, ErrorListRef(errorList));
    var r := req.(ctx := newCtx);
    assert r.ctx.ErrorListOf() == Some(errorList);

    var reqBuf: seq<Byte> := [];
    if config.captureRequestBody {
      reqBuf := r.body;            // read to the end: the stream is drained
      r := r.(body := []);
      r := r.(body := reqBuf);     // an unread copy is put back for the handler
    }

    var statusCode, resBody := RunRecorded(handler, res, r, config.captureResponseBody, errorList);

    var aptConfig := AptConfigOf(config);
    var payload := Payload(
      GoGorillaMux, statusCode, reqBuf, resBody, res.header, route.vars, route.pathTemplate,
      config.redactHeaders, config.redactRequestBody, config.redactResponseBody,
      errorList.errors, msgId, None, None, aptConfig);
    CreateSpan(payload, aptConfig, span);
    span.End();
    seen := r;
  }
}
