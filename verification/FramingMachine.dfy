/** Incremental framing of requests and responses, as functions on the fields of a connection. */
module FramingMachine {
  import opened Sockets

  datatype ProcessState = ReadingHeader | ReadingPayload | WritingResponse | FinishProcess

  datatype RequestMode = Fast | Slow | ReadStream | WriteStream

  /** A completed request frame. */
  datatype Request = Request(header: seq<Byte>, payload: seq<Byte>, mode: RequestMode)

  /**
   * The user's handler. `process` is onProcessed: it sees the header, the whole payload buffer with the
   * declared size, and the output buffer it writes into, and answers the buffer it leaves and *output_size.
   * It may also depend on the earlier requests of the connection, so stateful handlers are covered.
   */
  datatype Handler = Handler(
    headerSize: nat,
    pduSize: nat,
    payloadSize: seq<Byte> -> nat,
    classify: seq<Byte> -> RequestMode,
    process: (seq<Request>, seq<Byte>, seq<Byte>, nat, seq<Byte>) -> (seq<Byte>, nat))
  {
    /** The contract every handler must respect: sizes fit the buffers and the output buffer keeps its length. */
    ghost predicate Valid() {
      && headerSize > 0
      && (forall header :: payloadSize(header) <= pduSize)
      && (forall past, header, payload, size, output ::
            var (out, n) := process(past, header, payload, size, output);
            |output| == pduSize ==> |out| == pduSize && n <= pduSize)
    }
  }

  /** What a non-blocking recv answers: an error (bytes < 0), the peer's close (bytes == 0), or data. */
  datatype Received = ReadFailed | PeerClosed | Data(bytes: seq<Byte>)

  /** The fields of a connection; the last three record the frames completed and the bytes moved so far. */
  datatype Conn = Conn(
    state: ProcessState,
    header: seq<Byte>, headerRead: nat,
    payload: seq<Byte>, payloadSize: nat, payloadRead: nat,
    mode: RequestMode,
    output: seq<Byte>, responseSize: nat, written: nat,
    requests: seq<Request>, consumed: seq<Byte>, emitted: seq<Byte>)

  function Initial(h: Handler): Conn {
    Conn(ReadingHeader, Zeros(h.headerSize), 0, Zeros(h.pduSize), 0, 0, Fast, Zeros(h.pduSize), 0, 0, [], [], [])
  }

  /** Counters stay within their buffers, and the counters of later phases are still zero. */
  ghost predicate WellSized(h: Handler, c: Conn) {
    && |c.header| == h.headerSize && |c.payload| == |c.output| == h.pduSize
    && c.headerRead <= h.headerSize
    && c.payloadRead <= c.payloadSize <= h.pduSize
    && c.written <= c.responseSize <= h.pduSize
    && (c.state.ReadingHeader? ==> c.payloadSize == 0)
    && (!c.state.WritingResponse? ==> c.responseSize == 0)
  }

  // The process functions: each answers the connection it leaves and the state it returns.

  type Outcome = (Conn, ProcessState)

  function Fill(buffer: seq<Byte>, at: nat, bytes: seq<Byte>): (b: seq<Byte>)
    requires at + |bytes| <= |buffer|
    ensures |b| == |buffer|
    ensures b[..at + |bytes|] == buffer[..at] + bytes
    ensures b[at + |bytes|..] == buffer[at + |bytes|..]
  {
    buffer[..at] + bytes + buffer[at + |bytes|..]
  }

  function BytesOf(r: Received): seq<Byte> {
    if r.Data? then r.bytes else []
  }

  /** recv fills at most the space it is given, and data means at least one byte. */
  ghost predicate FitsHeader(c: Conn, r: Received) {
    |BytesOf(r)| <= |c.header| - c.headerRead && (r.Data? ==> r.bytes != [])
  }

  ghost predicate FitsPayload(c: Conn, r: Received) {
    |BytesOf(r)| <= c.payloadSize - c.payloadRead && (r.Data? ==> r.bytes != [])
  }

  /** send takes at most what it is given; -1 is an error, and 0 the answer to an empty buffer. */
  ghost predicate FitsResponse(c: Conn, n: int) {
    -1 <= n <= c.responseSize - c.written
  }

  function RunTask(h: Handler, c: Conn): Outcome
    requires c.payloadSize <= |c.payload|
  {
    var done := c.(requests := c.requests + [Request(c.header, c.payload[..c.payloadSize], c.mode)]);
    match c.mode
    case Fast | ReadStream =>
      var (out, n) := h.process(c.requests, c.header, c.payload, c.payloadSize, c.output);
      (done.(output := out, responseSize := n), WritingResponse)
    case Slow => (done, WritingResponse)
    case WriteStream => (done, FinishProcess)
  }

  /** The connection after received bytes have filled the header buffer further. */
  function HeaderTaken(c: Conn, bytes: seq<Byte>): Conn
    requires c.headerRead + |bytes| <= |c.header|
  {
    c.(header := Fill(c.header, c.headerRead, bytes), headerRead := c.headerRead + |bytes|,
      consumed := c.consumed + bytes)
  }

  /** A full header announces the payload size and the mode. */
  function Announced(h: Handler, c: Conn): Conn {
    c.(payloadSize := h.payloadSize(c.header), mode := h.classify(c.header))
  }

  function PayloadTaken(c: Conn, bytes: seq<Byte>): Conn
    requires c.payloadRead + |bytes| <= |c.payload|
  {
    c.(payload := Fill(c.payload, c.payloadRead, bytes), payloadRead := c.payloadRead + |bytes|,
      consumed := c.consumed + bytes)
  }

  function ReadHeader(h: Handler, c: Conn, r: Received): Outcome
    requires WellSized(h, c) && FitsHeader(c, r)
  {
    if r.ReadFailed? then (c, ReadingHeader)
    else
      var taken := HeaderTaken(c, BytesOf(r));
      if taken.headerRead != |taken.header| then (taken, ReadingHeader)
      else
        var announced := Announced(h, taken);
        if announced.payloadSize == 0 then RunTask(h, announced) else (announced, ReadingPayload)
  }

  function ReadPayload(h: Handler, c: Conn, r: Received): Outcome
    requires WellSized(h, c) && FitsPayload(c, r)
  {
    if r.ReadFailed? then (c, ReadingPayload)
    else
      var taken := PayloadTaken(c, BytesOf(r));
      if taken.payloadRead == taken.payloadSize then RunTask(h, taken) else (taken, ReadingPayload)
  }

  function WriteResponse(h: Handler, c: Conn, n: int): Outcome
    requires WellSized(h, c) && FitsResponse(c, n)
  {
    if n < 0 then (c, WritingResponse)
    else
      var c := c.(emitted := c.emitted + c.output[c.written..c.written + n], written := c.written + n);
      (c, if c.written == c.responseSize then FinishProcess else WritingResponse)
  }

  function Flush(c: Conn): Conn {
    c.(state := ReadingHeader,
       header := Zeros(|c.header|), payload := Zeros(|c.payload|), output := Zeros(|c.output|),
       headerRead := 0, payloadSize := 0, payloadRead := 0, responseSize := 0, written := 0)
  }

  // The arms of the event loop: run the process function, store the state, flush when finished.

  function Settle(o: Outcome): Conn {
    if o.1.FinishProcess? then Flush(o.0) else o.0.(state := o.1)
  }

  ghost predicate Fits(c: Conn, r: Received) {
    && (c.state.ReadingHeader? ==> FitsHeader(c, r))
    && (c.state.ReadingPayload? ==> FitsPayload(c, r))
  }

  function OnReadable(h: Handler, c: Conn, r: Received): (c': Conn)
    requires h.Valid() && WellSized(h, c) && Fits(c, r)
    ensures WellSized(h, c')
  {
    match c.state
    case ReadingHeader => Settle(ReadHeader(h, c, r))
    case ReadingPayload => Settle(ReadPayload(h, c, r))
    case _ => c
  }

  function OnWritable(h: Handler, c: Conn, n: int): (c': Conn)
    requires WellSized(h, c) && (c.state.WritingResponse? ==> FitsResponse(c, n))
    ensures WellSized(h, c')
  {
    if c.state.WritingResponse? then Settle(WriteResponse(h, c, n)) else c
  }

  // One readiness event of the connection, with what the socket call answered.

  datatype IoEvent = Readable(r: Received) | Writable(n: int)

  ghost predicate FitsEvent(c: Conn, e: IoEvent) {
    match e
    case Readable(r) => Fits(c, r)
    case Writable(n) => c.state.WritingResponse? ==> FitsResponse(c, n)
  }

  function OnIo(h: Handler, c: Conn, e: IoEvent): (c': Conn)
    requires h.Valid() && WellSized(h, c) && FitsEvent(c, e)
    ensures WellSized(h, c')
  {
    match e
    case Readable(r) => OnReadable(h, c, r)
    case Writable(n) => OnWritable(h, c, n)
  }

  /** Every answer respects what recv and send were asked for. */
  ghost predicate LegalIo(h: Handler, es: seq<IoEvent>)
    requires h.Valid()
    decreases |es|, 0
  {
    es == [] || (LegalIo(h, es[..|es| - 1]) && FitsEvent(Replay(h, es[..|es| - 1]), es[|es| - 1]))
  }

  /** The connection after its whole history of events. */
  ghost function Replay(h: Handler, es: seq<IoEvent>): (c: Conn)
    requires h.Valid() && LegalIo(h, es)
    ensures WellSized(h, c)
    decreases |es|, 1
  {
    if es == [] then Initial(h) else OnIo(h, Replay(h, es[..|es| - 1]), es[|es| - 1])
  }
}
