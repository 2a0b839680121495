/** The gorilla adapter's response recorder: it wraps the real response
    writer, remembers the first status it sees (200 when the handler writes
    without one), optionally buffers the body, and forwards every call's
    effect to the real writer.

    The recorder's state is specified by functions of the sequence of calls
    made on it so far; the class keeps its fields equal to those functions. */
module Recorder {
  import opened Apt

  const STATUS_OK := 200

  /** A call the handler makes on the recorder. */
  datatype Call = WriteHeaderCall(code: int) | WriteCall(data: seq<Byte>)

  /** What reaches the real response writer. */
  datatype Event = Header(code: int) | Data(data: seq<Byte>)

  // ---------------------------------------------------------------------
  // Specification: the recorder's state as a function of the call history

  /** The status the recorder holds: decided by the first call alone, which
      is either an explicit status or a write (implying 200); 0 before any call. */
  function RecordedCode(calls: seq<Call>): int {
    if calls == [] then 0
    else match calls[0]
      case WriteHeaderCall(code) => code
      case WriteCall(_) => STATUS_OK
  }

  /** The status reported for the request: 0 is reported as 200. */
  function ReportedStatus(calls: seq<Call>): int {
    var code := RecordedCode(calls);
    if code == 0 then STATUS_OK else code
  }

  /** The data events for the writes among the calls, in order. */
  function DataEvents(calls: seq<Call>): seq<Event> {
    if calls == [] then []
    else
      (match calls[0] case WriteCall(data) => [Data(data)] case WriteHeaderCall(_) => [])
      + DataEvents(calls[1..])
  }

  /** What the real writer receives: one header carrying the recorded status,
      then every written chunk unchanged, in order. */
  function Wire(calls: seq<Call>): seq<Event> {
    if calls == [] then [] else [Header(RecordedCode(calls))] + DataEvents(calls)
  }

  /** All written bytes, concatenated in order. */
  function Chunks(calls: seq<Call>): seq<Byte> {
    if calls == [] then []
    else
      (match calls[0] case WriteCall(data) => data case WriteHeaderCall(_) => [])
      + Chunks(calls[1..])
  }

  /** The buffered body: every chunk when capture is on, nothing otherwise. */
  function Captured(calls: seq<Call>, capture: bool): seq<Byte> {
    if capture then Chunks(calls) else []
  }

  /** The bytes carried by a sequence of events. */
  function Forwarded(events: seq<Event>): seq<Byte> {
    if events == [] then []
    else
      (match events[0] case Data(data) => data case Header(_) => [])
      + Forwarded(events[1..])
  }

  /** The number of header events among the events. */
  function HeaderCount(events: seq<Event>): nat {
    if events == [] then 0
    else (if events[0].Header? then 1 else 0) + HeaderCount(events[1..])
  }

  // ---------------------------------------------------------------------
  // Properties of the specification

  lemma {:induction false} DataEventsAppend(calls: seq<Call>, c: Call)
    ensures DataEvents(calls + [c]) ==
      DataEvents(calls) + (if c.WriteCall? then [Data(c.data)] else [])
  {
    if calls == [] {
      assert [c][1..] == [];
    } else {
      assert (calls + [c])[1..] == calls[1..] + [c];
      DataEventsAppend(calls[1..], c);
    }
  }

  lemma {:induction false} ChunksAppend(calls: seq<Call>, c: Call)
    ensures Chunks(calls + [c]) == Chunks(calls) + (if c.WriteCall? then c.data else [])
  {
    if calls == [] {
      assert [c][1..] == [];
    } else {
      assert (calls + [c])[1..] == calls[1..] + [c];
      ChunksAppend(calls[1..], c);
    }
  }

  /** Once any call has been made, a further call never changes the recorded
      status, and adds at most its own data to the wire. */
  lemma WireAppend(calls: seq<Call>, c: Call)
    requires calls != []
    ensures RecordedCode(calls + [c]) == RecordedCode(calls)
    ensures Wire(calls + [c]) == Wire(calls) + (if c.WriteCall? then [Data(c.data)] else [])
  {
    assert (calls + [c])[0] == calls[0];
    DataEventsAppend(calls, c);
  }

  lemma WireOfFirstCall(c: Call)
    ensures Wire([c]) == [Header(RecordedCode([c]))] + (if c.WriteCall? then [Data(c.data)] else [])
  {
    var one := [c];
    assert one[1..] == [];
    assert DataEvents(one[1..]) == [];
    assert DataEvents(one) == (if c.WriteCall? then [Data(c.data)] else []) + DataEvents(one[1..]);
  }

  /** What a write adds to the wire: the implied 200 header if it is the
      first call, then its bytes. */
  lemma WireAfterWrite(calls: seq<Call>, data: seq<Byte>)
    ensures RecordedCode(calls + [WriteCall(data)]) ==
      if calls == [] then STATUS_OK else RecordedCode(calls)
    ensures Wire(calls + [WriteCall(data)]) ==
      Wire(calls) + (if calls == [] then [Header(STATUS_OK)] else []) + [Data(data)]
  {
    if calls == [] {
      assert calls + [WriteCall(data)] == [WriteCall(data)];
      WireOfFirstCall(WriteCall(data));
    } else {
      WireAppend(calls, WriteCall(data));
    }
  }

  /** The first WriteHeader wins: a later one changes neither the recorded
      status nor what reaches the real writer. */
  lemma FirstWriteHeaderWins(calls: seq<Call>, code: int)
    requires calls != []
    ensures RecordedCode(calls + [WriteHeaderCall(code)]) == RecordedCode(calls)
    ensures ReportedStatus(calls + [WriteHeaderCall(code)]) == ReportedStatus(calls)
    ensures Wire(calls + [WriteHeaderCall(code)]) == Wire(calls)
  {
    WireAppend(calls, WriteHeaderCall(code));
  }

  /** A write before any status records 200 and sends exactly one header of
      200 ahead of the written bytes. */
  lemma {:induction false} WriteBeforeHeaderImplies200(data: seq<Byte>, rest: seq<Call>)
    ensures ReportedStatus([WriteCall(data)] + rest) == STATUS_OK
    ensures Wire([WriteCall(data)] + rest) == [Header(STATUS_OK), Data(data)] + DataEvents(rest)
    ensures HeaderCount(Wire([WriteCall(data)] + rest)) == 1
  {
    var calls := [WriteCall(data)] + rest;
    assert calls[1..] == rest;
    WireHasOneHeader(calls);
  }

  /** An explicit non-zero status followed by anything is the status reported. */
  lemma ExplicitStatusKept(code: int, rest: seq<Call>)
    requires code != 0
    ensures ReportedStatus([WriteHeaderCall(code)] + rest) == code
  {
  }

  /** 200 is reported exactly when nothing was called, the first call was a
      write, or the first explicit status was 0 or 200. */
  lemma StatusDefault(calls: seq<Call>)
    ensures ReportedStatus(calls) == STATUS_OK <==>
      calls == [] || calls[0].WriteCall? || calls[0].code == 0 || calls[0].code == STATUS_OK
    ensures (forall i :: 0 <= i < |calls| ==> calls[i].WriteCall?) ==> ReportedStatus(calls) == STATUS_OK
  {
  }

  lemma {:induction false} DataEventsHaveNoHeader(calls: seq<Call>)
    ensures HeaderCount(DataEvents(calls)) == 0
    ensures forall i :: 0 <= i < |DataEvents(calls)| ==> DataEvents(calls)[i].Data?
  {
    if calls != [] {
      DataEventsHaveNoHeader(calls[1..]);
      var head: seq<Event> := match calls[0] case WriteCall(d) => [Data(d)] case WriteHeaderCall(_) => [];
      HeaderCountConcat(head, DataEvents(calls[1..]));
    }
  }

  lemma {:induction false} HeaderCountConcat(a: seq<Event>, b: seq<Event>)
    ensures HeaderCount(a + b) == HeaderCount(a) + HeaderCount(b)
  {
    if a == [] {
      assert a + b == b;
    } else {
      assert (a + b)[1..] == a[1..] + b;
      HeaderCountConcat(a[1..], b);
    }
  }

  /** The real writer receives exactly one header when any call was made,
      none otherwise, and it comes first and carries the recorded status. */
  lemma WireHasOneHeader(calls: seq<Call>)
    ensures HeaderCount(Wire(calls)) == (if calls == [] then 0 else 1)
    ensures calls != [] ==> Wire(calls)[0] == Header(RecordedCode(calls))
    ensures forall i :: 0 < i < |Wire(calls)| ==> Wire(calls)[i].Data?
  {
    if calls != [] {
      DataEventsHaveNoHeader(calls);
      HeaderCountConcat([Header(RecordedCode(calls))], DataEvents(calls));
      assert forall i :: 0 < i < |Wire(calls)| ==> Wire(calls)[i] == DataEvents(calls)[i - 1];
    }
  }

  /** Every written byte reaches the real writer, unchanged and in order,
      whether or not the body is captured. */
  lemma {:induction false} WireForwardsEveryChunk(calls: seq<Call>)
    ensures Forwarded(Wire(calls)) == Chunks(calls)
  {
    if calls != [] {
      var w := Wire(calls);
      assert w[1..] == DataEvents(calls);
      DataEventsForwardChunks(calls);
    }
  }

  lemma {:induction false} DataEventsForwardChunks(calls: seq<Call>)
    ensures Forwarded(DataEvents(calls)) == Chunks(calls)
  {
    if calls != [] {
      DataEventsForwardChunks(calls[1..]);
      var d := DataEvents(calls);
      match calls[0]
      case WriteCall(data) =>
        assert d[0] == Data(data) && d[1..] == DataEvents(calls[1..]);
      case WriteHeaderCall(_) =>
        assert d == DataEvents(calls[1..]);
    }
  }

  // ---------------------------------------------------------------------
  // The real response writer and the recorder around it

  /** The wrapped http.ResponseWriter, as the log of what it was sent. */
  class ResponseWriter {
    var log: seq<Event>
    var header: map<string, seq<string>>

    constructor (header: map<string, seq<string>>)
      ensures log == [] && this.header == header
    {
      log := [];
      this.header := header;
    }

    method WriteHeader(code: int)
      modifies this
      ensures log == old(log) + [Header(code)] && header == old(header)
    {
      log := log + [Header(code)];
    }

    method Write(data: seq<Byte>) returns (n: int)
      modifies this
      ensures log == old(log) + [Data(data)] && header == old(header)
      ensures n == |data|
    {
      log := log + [Data(data)];
      n := |data|;
    }
  }

  class ResponseRecorder {
    const writer: ResponseWriter
    var body: seq<Byte>
    var statusCode: int
    var status: bool
    const captureBody: bool

    /** The calls made on this recorder so far. */
    ghost var history: seq<Call>
    /** What the real writer had received before it was wrapped. */
    ghost const priorLog: seq<Event>

    /** The status fields and the real writer agree with the history. */
    ghost predicate HeaderValid()
      reads this, writer
    {
      && status == (history != [])
      && statusCode == RecordedCode(history)
      && writer.log == priorLog + Wire(history)
    }

    ghost predicate Valid()
      reads this, writer
    {
      HeaderValid() && body == Captured(history, captureBody)
    }

    constructor (writer: ResponseWriter, captureBody: bool)
      ensures Valid() && history == []
      ensures this.writer == writer && this.captureBody == captureBody
      ensures body == [] && statusCode == 0 && !status
      ensures priorLog == writer.log
    {
      this.writer := writer;
      this.captureBody := captureBody;
      body := [];
      statusCode := 0;
      status := false;
      history := [];
      priorLog := writer.log;
    }

    /** Records and forwards the status only if no status was recorded yet. */
    method WriteHeader(code: int)
      requires HeaderValid()
      modifies this, writer
      ensures HeaderValid() && history == old(history) + [WriteHeaderCall(code)]
      ensures old(Valid()) ==> Valid()
      ensures status && body == old(body) && writer.header == old(writer.header)
      ensures old(status) ==> statusCode == old(statusCode) && writer.log == old(writer.log)
      ensures !old(status) ==> statusCode == code && writer.log == old(writer.log) + [Header(code)]
    {
      if !status {
        status := true;
        statusCode := code;
        writer.WriteHeader(code);
        assert history + [WriteHeaderCall(code)] == [WriteHeaderCall(code)];
        WireOfFirstCall(WriteHeaderCall(code));
      } else {
        WireAppend(history, WriteHeaderCall(code));
      }
      ChunksAppend(history, WriteHeaderCall(code));
      history := history + [WriteHeaderCall(code)];
    }

    /** Buffers the bytes when capture is on, sends 200 first if no status was
      recorded yet, and forwards the bytes unchanged. */
    method Write(data: seq<Byte>) returns (n: int)
      requires Valid()
      modifies this, writer
      ensures Valid() && history == old(history) + [WriteCall(data)]
      ensures body == old(body) + (if captureBody then data else [])
      ensures status && statusCode == (if old(status) then old(statusCode) else STATUS_OK)
      ensures writer.log == old(writer.log) + (if old(status) then [] else [Header(STATUS_OK)]) + [Data(data)]
      ensures writer.header == old(writer.header)
      ensures n == |data|
    {
      ghost var calls := history;
      if captureBody {
        body := body + data;
      }
      if !status {
        WriteHeader(STATUS_OK);
      }
      n := writer.Write(data);
      WireAfterWrite(calls, data);
      ChunksAppend(calls, WriteCall(data));
      history := calls + [WriteCall(data)];
    }

    /** The status to report: 200 when nothing, or 0, was recorded. */
    function StatusCode(): (code: int)
      reads this, writer
      requires Valid()
      ensures code != 0 && code == ReportedStatus(history)
      ensures history == [] ==> code == STATUS_OK
      ensures history != [] && history[0].WriteCall? ==> code == STATUS_OK
      ensures history != [] && history[0].WriteHeaderCall? && history[0].code != 0 ==>
        code == history[0].code
    {
      if statusCode == 0 then STATUS_OK else statusCode
    }
  }

  // ---------------------------------------------------------------------
  // The handler scenarios of gorilla/gorilla_test.go, stated as methods on
  // the class and verified

  /** "No status set", as bytes. */
  const NO_STATUS: seq<Byte> := [78, 111, 32, 115, 116, 97, 116, 117, 115]

  /** A handler that writes without a status gets 200, sent once before the bytes. */
  method WriteWithoutStatus() returns (code: int, log: seq<Event>, body: seq<Byte>)
    ensures code == STATUS_OK
    ensures log == [Header(STATUS_OK), Data(NO_STATUS)]
    ensures body == NO_STATUS
  {
    var w := new ResponseWriter(map[]);
    var rec := new ResponseRecorder(w, true);
    var _ := rec.Write(NO_STATUS);
    code := rec.StatusCode();
    log := w.log;
    body := rec.body;
  }

  /** An explicit 201 followed by a write stays 201. */
  method CreatedThenWrite(data: seq<Byte>) returns (code: int, log: seq<Event>)
    ensures code == 201
    ensures log == [Header(201), Data(data)]
  {
    var w := new ResponseWriter(map[]);
    var rec := new ResponseRecorder(w, true);
    rec.WriteHeader(201);
    var _ := rec.Write(data);
    code := rec.StatusCode();
    log := w.log;
  }

  /** A handler that does nothing is reported as 200 and sends nothing. */
  method EmptyHandler() returns (code: int, log: seq<Event>, body: seq<Byte>)
    ensures code == STATUS_OK && log == [] && body == []
  {
    var w := new ResponseWriter(map[]);
    var rec := new ResponseRecorder(w, true);
    code := rec.StatusCode();
    log := w.log;
    body := rec.body;
  }

  lemma AppendTwice<T>(a: seq<T>, b: seq<T>, c: seq<T>)
    ensures (a + b) + c == a + (b + c)
  {
  }

  /** Two writes once a status was recorded: both chunks forwarded, nothing else. */
  method WriteTwice(rec: ResponseRecorder, first: seq<Byte>, second: seq<Byte>)
    requires rec.Valid() && rec.status
    modifies rec, rec.writer
    ensures rec.Valid() && rec.status && rec.statusCode == old(rec.statusCode)
    ensures rec.writer.log == old(rec.writer.log) + [Data(first), Data(second)]
    ensures rec.body == old(rec.body) + (if rec.captureBody then first + second else [])
  {
    ghost var log, body := rec.writer.log, rec.body;
    var _ := rec.Write(first);
    var _ := rec.Write(second);
    AppendTwice(log, [Data(first)], [Data(second)]);
    AppendTwice(body, first, second);
  }

  /** Two writes after an explicit 200 are buffered as one concatenation and
      both forwarded behind a single header. */
  method TwoWrites(first: seq<Byte>, second: seq<Byte>, capture: bool)
    returns (code: int, log: seq<Event>, body: seq<Byte>)
    ensures code == STATUS_OK
    ensures log == [Header(STATUS_OK), Data(first), Data(second)]
    ensures body == if capture then first + second else []
  {
    var w := new ResponseWriter(map[]);
    var rec := new ResponseRecorder(w, capture);
    rec.WriteHeader(STATUS_OK);
    WriteTwice(rec, first, second);
    code := rec.StatusCode();
    log := w.log;
    body := rec.body;
  }
}
