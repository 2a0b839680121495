/** The collaborators both adapters call into: request-scoped context values,
    the per-request error list, the telemetry payload and the trace span.
    Their internals (redaction, payload layout, export) are not modelled: each
    one is reduced to what an adapter hands over and what it can observe. */
module Apt {

  datatype Option<T> = None | Some(value: T)

  newtype Byte = b: int | 0 <= b < 256

  /** A 128-bit message identifier; how it is generated is not modelled. */
  newtype Uuid = x: int | 0 <= x < 0x1_0000_0000_0000_0000_0000_0000_0000_0000

  datatype Error = Error(message: string)

  /** One entry of the per-request error list; the classification and stack
      context that the reporting side adds are not modelled. */
  datatype ErrorRecord = ErrorRecord(error: Error)

  /** The request-local, append-only list that the context holds by reference. */
  class ErrorList {
    var errors: seq<ErrorRecord>

    constructor ()
      ensures errors == []
    {
      errors := [];
    }
  }

  /** The two keys under which an adapter stores its correlation state. */
  datatype CtxKey = CurrentRequestMessageId | ErrorListCtxKey

  datatype CtxValue = MessageId(id: Uuid) | ErrorListRef(list: ErrorList)

  /** A propagation context: a later value stored under a key shadows an
      earlier one, as a chain of context.WithValue wrappers does. */
  datatype Context = Context(values: map<CtxKey, CtxValue>) {

    function WithValue(key: CtxKey, value: CtxValue): Context {
      Context(values[key := value])
    }

    /** The error list reachable from this context, if any. */
    function ErrorListOf(): Option<ErrorList> {
      if ErrorListCtxKey in values && values[ErrorListCtxKey].ErrorListRef?
      then Some(values[ErrorListCtxKey].list)
      else None
    }

    /** The objects a report through this context may change. */
    function ReportTargets(): set<object> {
      match ErrorListOf()
      case Some(list) => {list}
      case None => {}
    }
  }

  function Records(errs: seq<Error>): (r: seq<ErrorRecord>)
    ensures |r| == |errs|
  {
    if errs == [] then [] else Records(errs[..|errs| - 1]) + [ErrorRecord(errs[|errs| - 1])]
  }

  /** Reporting appends to the list the context refers to; without one the
      error is dropped and nothing changes. */
  method ReportError(ctx: Context, err: Error)
    modifies ctx.ReportTargets()
    ensures ctx.ErrorListOf().Some? ==>
      ctx.ErrorListOf().value.errors == old(ctx.ErrorListOf().value.errors) + [ErrorRecord(err)]
  {
    match ctx.ErrorListOf()
    case Some(list) =>
      list.errors := list.errors + [ErrorRecord(err)];
    case None =>
  }

  /** Configuration as the payload builder receives it. */
  datatype Config = Config(
    serviceName: string,
    serviceVersion: string,
    tags: seq<string>,
    debug: bool,
    captureRequestBody: bool,
    captureResponseBody: bool,
    redactHeaders: seq<string>,
    redactRequestBody: seq<string>,
    redactResponseBody: seq<string>)

  /** The producing-SDK tag. */
  datatype SdkType = GoGorillaMux | GoFiber

  /** What a payload is built from: the arguments an adapter passes to the
      builder, in the builder's order. The request object itself (method, URL,
      request headers), from which the builder reads more, is not part of the
      record. `parentId` is the pointer argument that both adapters pass as nil.
      Only the Fiber builder takes a referer; the gorilla builder has no such
      argument, which the record shows as None. */
  datatype Payload = Payload(
    sdk: SdkType,
    statusCode: int,
    requestBody: seq<Byte>,
    responseBody: seq<Byte>,
    responseHeaders: map<string, seq<string>>,
    pathParams: map<string, string>,
    routePath: string,
    redactHeaders: seq<string>,
    redactRequestBody: seq<string>,
    redactResponseBody: seq<string>,
    errors: seq<ErrorRecord>,
    messageId: Uuid,
    parentId: Option<string>,
    referer: Option<string>,
    config: Config)

  datatype SpanKind = Server

  /** A trace span: the payloads attached to it, in order, and whether it ended. */
  class Span {
    const name: string
    const kind: SpanKind
    var attached: seq<Payload>
    var ended: bool

    constructor Start(name: string, kind: SpanKind)
      ensures this.name == name && this.kind == kind
      ensures attached == [] && !ended
    {
      this.name := name;
      this.kind := kind;
      attached := [];
      ended := false;
    }

    method End()
      modifies this
      ensures ended && attached == old(attached)
    {
      ended := true;
    }
  }

  /** Attaching a payload to a span. */
  method CreateSpan(payload: Payload, config: Config, span: Span)
    modifies span
    ensures span.attached == old(span.attached) + [payload]
    ensures span.ended == old(span.ended)
  {
    span.attached := span.attached + [payload];
  }

  /** The name both adapters give the server span. */
  const SPAN_NAME := "monoscope.http"
}
