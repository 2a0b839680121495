# Monoscope Go adapters for gorilla/mux and Fiber, in Dafny

This project models two HTTP telemetry middlewares: the ones for gorilla/mux and for Fiber. Each
one wraps a request's handler, records what the handler does to the response, and attaches
one telemetry payload to a server span named `monoscope.http` whenever the request
completes. A gorilla handler that panics gets no payload, since that adapter has no barrier.
Nor does a Fiber handler whose panic value is neither an error nor a string: the barrier
as written fails on such a value (see Findings).

- `apt.dfy` (module `Apt`) holds the collaborators both adapters call. These are:
  - context values keyed by message id and error list;
  - the request-local error list, held by reference;
  - `ReportError`, which appends to the list found in the context and drops the error when
    there is none;
  - the payload, as the record of the arguments an adapter passes to its builder, in the
    builder's order. The request object is left out. The pointer argument that both adapters
    pass as nil is `parentId`, always None. Only Fiber's builder takes a referer; gorilla's
    call passes none, which the record shows as None;
  - the span, with the payloads attached to it and whether it has ended.
- `recorder.dfy` (module `Recorder`) holds the gorilla response recorder.
  - `RecordedCode`, `Wire` and `Captured` are functions of the sequence of calls made on the
    recorder. They give its status, what the real writer receives, and its buffer.
  - The class `ResponseRecorder` keeps its fields equal to those functions.
  - The real `http.ResponseWriter` is a log of `Header(code)` and `Data(bytes)` events.
  - The handler scenarios of the adapter's tests are stated as methods on the class and
    verified.
- `gorilla.dfy` (module `Gorilla`) holds the gorilla middleware:
  - the correlation state in the request context;
  - request-body capture, with an identical copy put back for the handler;
  - the handler run through the recorder;
  - the one payload.
- `fiber.dfy` (module `Fiber`) holds the Fiber side:
  - `getAptConfig`;
  - the header snapshot taken before the handler runs;
  - locals and a user context that hold the same error list;
  - the normal path and the panic barrier, both as written (`MiddlewareAsWritten`) and with
    the conversion corrected (`Middleware`). A panic is a value here. The handler model ends
    in `Return(err)` or `Panic(value)`. The middleware ends in `Returned(err)`,
    `Panicked(err)`, or `BarrierFailed(value)`, the last when the barrier's own type
    assertion panics.

Some inputs are parameters rather than computed. The message id stands for the generated
UUID, and `Route` stands for what the router reports. The gorilla handler is the errors it
reports plus its `WriteHeader`/`Write` calls. The Fiber handler is a list of effects plus its
outcome.

Two behaviours of the code are worth knowing:
- The Fiber barrier re-panics the converted error, not the original value. A string panic
  reaches outer layers as an error made from that string.
- The gorilla adapter has no panic barrier.

## Model

| member | source | states |
|---|---|---|
| `Recorder.ResponseRecorder.constructor` | gorilla/gorilla.go:68 | a new recorder wraps the writer with an empty buffer, no status and code 0, and the capture flag as given |
| `Recorder.ResponseRecorder.WriteHeader` | gorilla/gorilla.go:121-127 | the first call records and forwards the code; a later call changes neither field and forwards nothing |
| `Recorder.ResponseRecorder.Write` | gorilla/gorilla.go:130-138 | bytes are buffered only when capture is on; a write before any status records 200 and forwards one header of 200; the bytes are always forwarded; the count returned is the length |
| `Recorder.ResponseRecorder.StatusCode` | gorilla/gorilla.go:141-146 | never 0, and equal to the status the call history determines: 200 before any call, after a leading write, or after an explicit 0; otherwise the first explicit code |
| `Recorder.FirstWriteHeaderWins` | gorilla/gorilla.go:121-127 | once any call was made, a further WriteHeader changes neither the recorded nor the reported status, nor what the real writer received |
| `Recorder.WireAppend` | gorilla/gorilla.go:121-138 | once any call was made, a call adds only its own data to the wire and keeps the recorded status |
| `Recorder.WireAfterWrite` | gorilla/gorilla.go:130-138 | a write adds the implied 200 header when it is the first call, then its bytes |
| `Recorder.WriteBeforeHeaderImplies200` | gorilla/gorilla.go:130-138 | a handler that writes first reports 200, and the wire starts with exactly one 200 header followed by those bytes |
| `Recorder.ExplicitStatusKept` | gorilla/gorilla.go:121-138 | an explicit non-zero status followed by any calls is the status reported, so 201 stays 201 |
| `Recorder.StatusDefault` | gorilla/gorilla.go:141-146 | 200 is reported if and only if nothing was called, the first call was a write, or the first explicit code was 0 or 200 |
| `Recorder.WireHasOneHeader` | gorilla/gorilla.go:121-138 | the real writer gets exactly one header when any call was made and none otherwise; it comes first, carries the recorded status, and everything after it is data |
| `Recorder.WireForwardsEveryChunk` | gorilla/gorilla.go:130-138 | the bytes reaching the real writer are all written chunks, in order, with or without capture |
| `Recorder.DataEventsAppend` | gorilla/gorilla.go:130-138 | a write appends exactly its own data event; a WriteHeader appends none |
| `Recorder.ChunksAppend` | gorilla/gorilla.go:131-133 | the buffer grows by exactly the bytes of a write and not at all on WriteHeader |
| `Recorder.WriteWithoutStatus` | gorilla/gorilla_test.go:116-131 | a handler writing without a status gets 200; the writer sees one 200 header and then the bytes; the buffer holds them |
| `Recorder.CreatedThenWrite` | gorilla/gorilla_test.go:81-92 | an explicit 201 followed by a write stays 201 and is sent once |
| `Recorder.EmptyHandler` | gorilla/gorilla_test.go:172-186 | a handler that does nothing is reported as 200, sends nothing, and leaves the buffer empty |
| `Recorder.TwoWrites` | gorilla/gorilla_test.go:238-252 | after an explicit 200, two writes are both forwarded behind one header, and buffered as one concatenation when capture is on and not at all when it is off |
| `Gorilla.AptConfigOf` | gorilla/gorilla.go:81-91 | every adapter setting reaches the builder's configuration unchanged |
| `Gorilla.AptConfigOfInjective` | gorilla/gorilla.go:81-91 | two adapter configurations that give the same builder configuration are equal, so nothing is lost |
| `Gorilla.ReportError` | gorilla/gorilla.go:33-36 | the error is appended to the list the context refers to, and dropped when there is none |
| `Gorilla.ServeHttp` | gorilla/gorilla.go:68-69 | the handler's calls go through the recorder in order, and its reports reach the error list in the request's context |
| `Gorilla.RunRecorded` | gorilla/gorilla.go:67-74 | behind a fresh recorder, the status read afterwards is the one the handler's calls determine; the buffer is taken only when response capture is on and then holds every written byte; the client receives the wire image of the calls; the handler's reports reach the error list |
| `Gorilla.Middleware` | gorilla/gorilla.go:43-107 | the handler reads the original body, capture or not; its context holds the message id and a fresh error list; every call reaches the client unchanged; one payload on an ended span carries: the reported status; the request body only when its capture is on; the recorder buffer only when response capture is on; the reported errors; the id; the route data; the copied configuration |
| `Fiber.GetAptConfig` | fiber/fiber.go:28-40 | each of the nine fields goes to the builder's same-named field, unchanged |
| `Fiber.GetAptConfigInjective` | fiber/fiber.go:28-40 | the mapping loses no setting |
| `Fiber.RecoverAsWritten` | fiber/fiber.go:63-66 | as written: an error panic passes through and a string panic becomes an error; any other panic makes the conversion itself fail |
| `Fiber.IntegerPanicEscapesBarrier` | fiber/fiber.go:62-81 | `panic(42)` through the middleware as written: the barrier fails, nothing is reported and no payload is attached |
| `Fiber.IntegerPanicReported` | fiber/fiber.go:62-81 | the same `panic(42)` with the corrected conversion: reported as the error "42" and sent in one payload of status 500 |
| `Fiber.PanicToError` | fiber/fiber.go:64-66 | every panic value becomes an error: an error unchanged, a string as an error with that text; it agrees with the as-written conversion wherever that one succeeds |
| `Fiber.ReportError` | fiber/fiber.go:102-104 | the error is appended to the list the context refers to, and dropped when there is none |
| `Fiber.CopyHeaders` | fiber/fiber.go:57-60 | the key-by-key copy equals the response headers it was taken from |
| `Fiber.StatusUnsetKeepsInitial` | fiber/fiber.go:86 | a handler that sets no status leaves the response's own status as the one read afterwards |
| `Fiber.HeaderUntouched` | fiber/fiber.go:84 | in the handler model, a header the handler never sets keeps its entry across `ctx.Next()`, present or absent |
| `Fiber.Next` | fiber/fiber.go:84 | the handler's effects are applied in order, and its reports reach the error list in the user context |
| `Fiber.Enter` | fiber/fiber.go:44-84 | a fresh unended span with nothing attached; the message id and one fresh error list in both the locals and the user context; the header snapshot equal to the headers before the handler; the handler's effects applied and its reports in the list |
| `Fiber.Middleware` | fiber/fiber.go:42-100 | detailed below the table |
| `Fiber.MiddlewareAsWritten` | fiber/fiber.go:42-100 | as written: a normal return, an error panic or a string panic gives one payload, as with the corrected barrier; any other panic value gives `BarrierFailed`, an ended span with no payload, and only the handler's own reports in the list |

`Fiber.Middleware` states:
- The locals and the user context hold the message id and the very same fresh error list.
- Exactly one payload is attached to the span, and the span ends.
- The payload's headers are the snapshot taken before the handler ran. On every header name
  the handler never set, they agree with the response's headers afterwards.
- On a normal return, the payload carries the response's own status and the reported errors,
  and the handler's error is returned unchanged.
- On a panic, the converted error is in the payload's errors, after those the handler
  reported. The status is 500, and the middleware panics on with that error.

## Findings

| source | as written | input that shows it | evidently intended | confidence | as-written member | corrected member |
|---|---|---|---|---|---|---|
| fiber/fiber.go:64-66 | a panic value that is not an `error` is asserted to be a `string` | `panic(42)` in a handler makes the assertion panic inside the deferred function. The error is not reported, no payload is built or attached, the deferred `span.End()` still runs, and a runtime type-assertion error replaces the original panic (`Fiber.IntegerPanicEscapesBarrier`) | every panic value is converted to an error, reported, and sent in exactly one payload before the panic goes on (`Fiber.IntegerPanicReported`) | not executed; read from the code | `Fiber.MiddlewareAsWritten` | `Fiber.Middleware` |

`Fiber.MiddlewareAsWritten` uses the conversion as written, `Fiber.RecoverAsWritten`.
`Fiber.Middleware` uses the corrected one, `Fiber.PanicToError`, which agrees with it wherever
it succeeds. For a panic value that is neither an error nor a string, the corrected middleware
therefore emits the payload that the code as written does not.

## Left out

- Redaction, the payload's real layout, span export and the classification that error
  reporting adds all live in the `apt` package, which is not part of this model. The payload
  is the record of the builder's arguments. The request object the builder also reads
  (method, URL, request headers) is not in that record.
- Errors from reading the request body in the gorilla adapter, and `Close`, are stream I/O.
  The body is always read fully. The error path that reports a read failure is not modelled.
- UUID generation, the tracer, span context propagation, `mux.CurrentRoute`, `mux.Vars`,
  `GetPathTemplate` errors, and Fiber's `Ctx` internals are not modelled. This includes how
  fasthttp defaults a status of 0. Their results are inputs.
- Response headers set by a gorilla handler through `Header()` are not modelled. The writer's
  header map passes through unchanged.
- A panic in a gorilla handler is not modelled: that adapter has no barrier, so the handler
  model there cannot panic.
- Concurrent appends to the error list from goroutines the handler spawns are concurrency.
- `ConfigureOpenTelemetry`, the option and redaction aliases, and `HTTPClient` re-export
  library functions and wrap a network client.
- The errors that the real writer's `Write` may return are not modelled: it accepts every
  byte.
- The real writer model accepts every status code. The writers the adapter wraps in practice
  (net/http's server response and `httptest.ResponseRecorder`) panic in `WriteHeader` for a
  code outside 100..999. So a handler's `WriteHeader(0)` panics at gorilla/gorilla.go:125, and
  with no barrier no payload is built. The rows about an explicit 0 (`StatusCode`,
  `StatusDefault`) describe the recorder's logic alone, which such a writer never lets
  finish.
- `panic(nil)` is not modelled. Before Go 1.21, `recover()` at fiber/fiber.go:63 returns nil
  for it, so the barrier does nothing: the panic is swallowed and no payload is built. From
  Go 1.21 on, the value is a runtime error and falls under `PanicError`.
