/** The framing machine refines a parser that reads the whole stream at once. */
module Framing {
  import opened Sockets
  import opened FramingMachine

  // The reference: parse and answer whole requests from the front of a stream.

  /** The requests completed, the response bytes they produce, and the unparsed tail. */
  datatype Served = Served(requests: seq<Request>, output: seq<Byte>, rest: seq<Byte>)

  function Padded(payload: seq<Byte>, size: nat): (b: seq<Byte>)
    requires |payload| <= size
    ensures |b| == size
  {
    payload + Zeros(size - |payload|)
  }

  /** The response to a request, from a payload buffer and an output buffer that are otherwise zero. */
  function Respond(h: Handler, past: seq<Request>, q: Request): seq<Byte>
    requires h.Valid() && |q.payload| <= h.pduSize
  {
    match q.mode
    case Fast | ReadStream =>
      var (out, n) := h.process(past, q.header, Padded(q.payload, h.pduSize), |q.payload|, Zeros(h.pduSize));
      out[..n]
    case Slow | WriteStream => []
  }

  predicate HasFrame(h: Handler, s: seq<Byte>) {
    |s| >= h.headerSize && |s| >= h.headerSize + h.payloadSize(s[..h.headerSize])
  }

  function FirstFrame(h: Handler, s: seq<Byte>): Request
    requires HasFrame(h, s)
  {
    var header := s[..h.headerSize];
    Request(header, s[h.headerSize..][..h.payloadSize(header)], h.classify(header))
  }

  function AfterFrame(h: Handler, s: seq<Byte>): (rest: seq<Byte>)
    requires HasFrame(h, s)
    ensures h.headerSize > 0 ==> |rest| < |s|
  {
    s[h.headerSize..][h.payloadSize(s[..h.headerSize])..]
  }

  /** One served frame in front of another result. */
  function Before(q: Request, response: seq<Byte>, tail: Served): Served {
    Served([q] + tail.requests, response + tail.output, tail.rest)
  }

  function Serve(h: Handler, past: seq<Request>, stream: seq<Byte>): Served
    requires h.Valid()
    decreases |stream|
  {
    if !HasFrame(h, stream) then Served([], [], stream)
    else
      var q := FirstFrame(h, stream);
      Before(q, Respond(h, past, q), Serve(h, past + [q], AfterFrame(h, stream)))
  }

  lemma FrameAppend(h: Handler, s: seq<Byte>, t: seq<Byte>)
    requires HasFrame(h, s)
    ensures HasFrame(h, s + t)
    ensures FirstFrame(h, s + t) == FirstFrame(h, s)
    ensures AfterFrame(h, s + t) == AfterFrame(h, s) + t
  {
    assert (s + t)[..h.headerSize] == s[..h.headerSize];
    assert (s + t)[h.headerSize..] == s[h.headerSize..] + t;
  }

  function Then(a: Served, b: Served): Served {
    Served(a.requests + b.requests, a.output + b.output, b.rest)
  }

  lemma BeforeThen(q: Request, response: seq<Byte>, a: Served, b: Served)
    ensures Before(q, response, Then(a, b)) == Then(Before(q, response, a), b)
  {
    assert [q] + (a.requests + b.requests) == [q] + a.requests + b.requests;
    assert response + (a.output + b.output) == response + a.output + b.output;
  }

  lemma ServeFirst(h: Handler, past: seq<Request>, s: seq<Byte>, t: seq<Byte>)
    requires h.Valid() && HasFrame(h, s)
    ensures var q := FirstFrame(h, s);
            Serve(h, past, s + t) == Before(q, Respond(h, past, q), Serve(h, past + [q], AfterFrame(h, s) + t))
  {
    FrameAppend(h, s, t);
  }

  /** The first frame in front of what is known of the rest. */
  lemma ServeAppendFirst(h: Handler, past: seq<Request>, s: seq<Byte>, t: seq<Byte>, tail: Served, later: Served)
    requires h.Valid() && HasFrame(h, s)
    requires Serve(h, past + [FirstFrame(h, s)], AfterFrame(h, s) + t) == Then(tail, later)
    ensures Serve(h, past, s + t) == Then(Before(FirstFrame(h, s), Respond(h, past, FirstFrame(h, s)), tail), later)
  {
    ServeFirst(h, past, s, t);
    BeforeThen(FirstFrame(h, s), Respond(h, past, FirstFrame(h, s)), tail, later);
  }

  /** Serving a longer stream continues where the shorter one stopped. */
  lemma {:induction false} ServeAppend(h: Handler, past: seq<Request>, s: seq<Byte>, t: seq<Byte>)
    requires h.Valid()
    ensures var a := Serve(h, past, s);
            Serve(h, past, s + t) == Then(a, Serve(h, past + a.requests, a.rest + t))
    decreases |s|
  {
    var a := Serve(h, past, s);
    if !HasFrame(h, s) {
      assert past + a.requests == past;
    } else {
      var q := FirstFrame(h, s);
      var tail := Serve(h, past + [q], AfterFrame(h, s));
      assert past + a.requests == past + [q] + tail.requests && a.rest == tail.rest;
      ServeAppend(h, past + [q], AfterFrame(h, s), t);
      ServeAppendFirst(h, past, s, t, tail, Serve(h, past + a.requests, a.rest + t));
    }
  }

  // The bytes of a request list, and the round trip through the parser.

  function Flatten(qs: seq<Request>): seq<Byte> {
    if qs == [] then [] else qs[0].header + qs[0].payload + Flatten(qs[1..])
  }

  /** A frame whose header announces its own payload and mode. */
  ghost predicate WellFormed(h: Handler, q: Request) {
    |q.header| == h.headerSize && |q.payload| == h.payloadSize(q.header) && q.mode == h.classify(q.header)
  }

  lemma FlattenBefore(q: Request, qs: seq<Request>)
    ensures Flatten([q] + qs) == q.header + q.payload + Flatten(qs)
  {
    assert ([q] + qs)[1..] == qs;
  }

  lemma FrameSplit(h: Handler, s: seq<Byte>)
    requires HasFrame(h, s)
    ensures s == FirstFrame(h, s).header + FirstFrame(h, s).payload + AfterFrame(h, s)
    ensures WellFormed(h, FirstFrame(h, s))
  {
  }

  lemma Associate(a: seq<Byte>, b: seq<Byte>, c: seq<Byte>)
    ensures a + (b + c) == a + b + c
  {
  }

  /** The parser loses no byte and invents none. */
  lemma {:induction false} ServeConserves(h: Handler, past: seq<Request>, s: seq<Byte>)
    requires h.Valid()
    ensures s == Flatten(Serve(h, past, s).requests) + Serve(h, past, s).rest
    decreases |s|
  {
    if HasFrame(h, s) {
      var q, t := FirstFrame(h, s), AfterFrame(h, s);
      var tail := Serve(h, past + [q], t);
      ServeConserves(h, past + [q], t);
      FlattenBefore(q, tail.requests);
      FrameSplit(h, s);
      Associate(q.header + q.payload, Flatten(tail.requests), tail.rest);
    }
  }

  /** It stops only where no whole frame is left, and every frame it yields announces its own size and mode. */
  lemma {:induction false} ServeIsMaximal(h: Handler, past: seq<Request>, s: seq<Byte>)
    requires h.Valid()
    ensures !HasFrame(h, Serve(h, past, s).rest)
    ensures forall q :: q in Serve(h, past, s).requests ==> WellFormed(h, q)
    decreases |s|
  {
    if HasFrame(h, s) {
      ServeIsMaximal(h, past + [FirstFrame(h, s)], AfterFrame(h, s));
      FrameSplit(h, s);
    }
  }

  /** A frame at the front of a stream is the first one parsed. */
  lemma FramePrefix(h: Handler, q: Request, s: seq<Byte>)
    requires WellFormed(h, q)
    ensures var t := q.header + q.payload + s;
            HasFrame(h, t) && FirstFrame(h, t) == q && AfterFrame(h, t) == s
  {
    var t := q.header + q.payload + s;
    assert t[..h.headerSize] == q.header;
    assert t[h.headerSize..] == q.payload + s;
  }

  /** Any list of well-formed frames sent as bytes is parsed back into the same list. */
  lemma {:induction false} ServeRoundTrip(h: Handler, past: seq<Request>, qs: seq<Request>)
    requires h.Valid() && forall k :: 0 <= k < |qs| ==> WellFormed(h, qs[k])
    ensures Serve(h, past, Flatten(qs)).requests == qs && Serve(h, past, Flatten(qs)).rest == []
    decreases |qs|
  {
    if qs != [] {
      FramePrefix(h, qs[0], Flatten(qs[1..]));
      ServeRoundTrip(h, past + [qs[0]], qs[1..]);
      assert qs == [qs[0]] + qs[1..];
    }
  }

  // The invariant of a connection between two events.

  ghost predicate ZeroFrom(buffer: seq<Byte>, from: nat) {
    forall i :: from <= i < |buffer| ==> buffer[i] == 0
  }

  ghost predicate Framed(h: Handler, c: Conn)
    requires h.Valid()
  {
    && WellSized(h, c)
    && var a := Serve(h, [], c.consumed);
    && a.requests == c.requests
    && match c.state
       case ReadingHeader =>
         && c.headerRead < h.headerSize && c.payloadRead == 0
         && ZeroFrom(c.header, c.headerRead) && ZeroFrom(c.payload, 0) && ZeroFrom(c.output, 0)
         && a.output == c.emitted
         && a.rest == c.header[..c.headerRead]
       case ReadingPayload =>
         && c.headerRead == h.headerSize
         && c.payloadRead < c.payloadSize == h.payloadSize(c.header) && c.mode == h.classify(c.header)
         && ZeroFrom(c.payload, c.payloadRead) && ZeroFrom(c.output, 0)
         && a.output == c.emitted
         && a.rest == c.header + c.payload[..c.payloadRead]
       case WritingResponse =>
         && a.output == c.emitted + c.output[c.written..c.responseSize]
         && a.rest == []
       case FinishProcess => false
  }

  /** Bytes that leave the stream short of a frame only lengthen the tail. */
  lemma ServeTail(h: Handler, s: seq<Byte>, t: seq<Byte>)
    requires h.Valid() && !HasFrame(h, Serve(h, [], s).rest + t)
    ensures Serve(h, [], s + t) == Serve(h, [], s).(rest := Serve(h, [], s).rest + t)
  {
    ServeAppend(h, [], s, t);
  }

  /** Bytes that complete exactly one frame add that request and its response. */
  lemma ServeFrame(h: Handler, s: seq<Byte>, t: seq<Byte>, q: Request)
    requires h.Valid() && WellFormed(h, q)
    requires Serve(h, [], s).rest + t == q.header + q.payload
    ensures var a := Serve(h, [], s);
            Serve(h, [], s + t) == Served(a.requests + [q], a.output + Respond(h, a.requests, q), [])
  {
    var a := Serve(h, [], s);
    ServeAppend(h, [], s, t);
    FramePrefix(h, q, []);
    assert a.rest + t == q.header + q.payload + [];
    assert [] + a.requests == a.requests;
    assert Serve(h, a.requests + [q], []) == Served([], [], []);
    assert Serve(h, a.requests, a.rest + t) == Served([q], Respond(h, a.requests, q), []);
  }

  /** Running the task on a complete request whose buffers are clean gives the reference response. */
  lemma TaskAnswers(h: Handler, c: Conn)
    requires h.Valid()
    requires |c.payload| == |c.output| == h.pduSize && c.payloadSize <= h.pduSize && c.responseSize == c.written == 0
    requires ZeroFrom(c.payload, c.payloadSize) && ZeroFrom(c.output, 0)
    ensures var q := Request(c.header, c.payload[..c.payloadSize], c.mode);
            var (c', next) := RunTask(h, c);
            && c'.requests == c.requests + [q] && c'.consumed == c.consumed && c'.emitted == c.emitted
            && c'.written == 0 && c'.responseSize <= |c'.output|
            && c'.output[..c'.responseSize] == Respond(h, c.requests, q)
            && next == if c.mode.WriteStream? then FinishProcess else WritingResponse
  {
    assert c.payload == Padded(c.payload[..c.payloadSize], h.pduSize);
    assert c.output == Zeros(h.pduSize);
  }

  lemma FlushIsFramed(h: Handler, c: Conn)
    requires h.Valid() && |c.header| == h.headerSize && |c.payload| == |c.output| == h.pduSize
    requires Serve(h, [], c.consumed) == Served(c.requests, c.emitted, [])
    ensures Framed(h, Flush(c))
  {
  }

  /** A task run on clean buffers leaves a framed connection. */
  lemma TaskIsFramed(h: Handler, c: Conn, s: seq<Byte>, t: seq<Byte>)
    requires h.Valid() && |c.header| == h.headerSize == c.headerRead
    requires |c.payload| == |c.output| == h.pduSize && c.responseSize == c.written == 0
    requires c.payloadRead == c.payloadSize == h.payloadSize(c.header) && c.mode == h.classify(c.header)
    requires ZeroFrom(c.payload, c.payloadSize) && ZeroFrom(c.output, 0)
    requires c.consumed == s + t && Serve(h, [], s).requests == c.requests && Serve(h, [], s).output == c.emitted
    requires Serve(h, [], s).rest + t == c.header + c.payload[..c.payloadSize]
    ensures Framed(h, Settle(RunTask(h, c)))
  {
    var q := Request(c.header, c.payload[..c.payloadSize], c.mode);
    TaskAnswers(h, c);
    ServeFrame(h, s, t, q);
    var (c', next) := RunTask(h, c);
    if next.FinishProcess? {
      assert c'.emitted == c.emitted + Respond(h, c.requests, q);
      FlushIsFramed(h, c');
    }
  }

  lemma HeaderKeepsFramed(h: Handler, c: Conn, r: Received)
    requires h.Valid() && Framed(h, c) && c.state.ReadingHeader? && FitsHeader(c, r)
    ensures Framed(h, OnReadable(h, c, r))
  {
    var bytes := BytesOf(r);
    if !r.ReadFailed? {
      var s := c.consumed;
      var c1 := c.(header := Fill(c.header, c.headerRead, bytes), headerRead := c.headerRead + |bytes|,
                consumed := s + bytes);
      assert c1.header[..c1.headerRead] == Serve(h, [], s).rest + bytes;
      if c1.headerRead < h.headerSize {
        ServeTail(h, s, bytes);
      } else {
        var c2 := c1.(payloadSize := h.payloadSize(c1.header), mode := h.classify(c1.header));
        assert c1.header == c1.header[..c1.headerRead];
        if c2.payloadSize == 0 {
          assert c2.payload[..0] == [];
          assert c2.header + c2.payload[..0] == c2.header;
          TaskIsFramed(h, c2, s, bytes);
        } else {
          assert (c1.header)[..h.headerSize] == c1.header;
          ServeTail(h, s, bytes);
        }
      }
    }
  }

  lemma PayloadKeepsFramed(h: Handler, c: Conn, r: Received)
    requires h.Valid() && Framed(h, c) && c.state.ReadingPayload? && FitsPayload(c, r)
    ensures Framed(h, OnReadable(h, c, r))
  {
    var bytes := BytesOf(r);
    if !r.ReadFailed? {
      var s := c.consumed;
      var c1 := c.(payload := Fill(c.payload, c.payloadRead, bytes), payloadRead := c.payloadRead + |bytes|,
                consumed := s + bytes);
      var tail := c1.header + c1.payload[..c1.payloadRead];
      assert tail == Serve(h, [], s).rest + bytes;
      if c1.payloadRead == c1.payloadSize {
        TaskIsFramed(h, c1, s, bytes);
      } else {
        assert tail[..h.headerSize] == c1.header;
        ServeTail(h, s, bytes);
      }
    }
  }

  lemma WriteKeepsFramed(h: Handler, c: Conn, n: int)
    requires h.Valid() && Framed(h, c) && c.state.WritingResponse? && FitsResponse(c, n)
    ensures Framed(h, OnWritable(h, c, n))
  {
    if n >= 0 {
      var c1 := WriteResponse(h, c, n).0;
      assert c.output[c.written..c.responseSize]
             == c.output[c.written..c.written + n] + c.output[c.written + n..c.responseSize];
      assert c1.emitted + c1.output[c1.written..c1.responseSize] == c.emitted + c.output[c.written..c.responseSize];
      if c1.written == c1.responseSize {
        assert c1.output[c1.written..c1.responseSize] == [];
        FlushIsFramed(h, c1);
      }
    }
  }

  lemma IoKeepsFramed(h: Handler, c: Conn, e: IoEvent)
    requires h.Valid() && Framed(h, c) && FitsEvent(c, e)
    ensures Framed(h, OnIo(h, c, e))
  {
    match e
    case Readable(r) =>
      if c.state.ReadingHeader? { HeaderKeepsFramed(h, c, r); }
      else if c.state.ReadingPayload? { PayloadKeepsFramed(h, c, r); }
    case Writable(n) =>
      if c.state.WritingResponse? { WriteKeepsFramed(h, c, n); }
  }

  /** Every history of events, however the socket chops the bytes, leaves the connection framed. */
  lemma {:induction false} ReplayIsFramed(h: Handler, es: seq<IoEvent>)
    requires h.Valid() && LegalIo(h, es)
    ensures Framed(h, Replay(h, es))
    decreases |es|
  {
    if es != [] {
      ReplayIsFramed(h, es[..|es| - 1]);
      IoKeepsFramed(h, Replay(h, es[..|es| - 1]), es[|es| - 1]);
    }
  }

  // What the socket delivered and took, read off the events alone.

  predicate Reading(c: Conn) { c.state.ReadingHeader? || c.state.ReadingPayload? }

  /** The bytes recv delivered: every event that carried data while the connection was reading. */
  ghost function Delivered(h: Handler, es: seq<IoEvent>): seq<Byte>
    requires h.Valid() && LegalIo(h, es)
    decreases |es|
  {
    if es == [] then []
    else
      var front, e := es[..|es| - 1], es[|es| - 1];
      Delivered(h, front) + if Reading(Replay(h, front)) && e.Readable? && e.r.Data? then e.r.bytes else []
  }

  /** How many bytes send said it took. */
  ghost function SentCount(h: Handler, es: seq<IoEvent>): nat
    requires h.Valid() && LegalIo(h, es)
    decreases |es|
  {
    if es == [] then 0
    else
      var front, e := es[..|es| - 1], es[|es| - 1];
      SentCount(h, front) + if Replay(h, front).state.WritingResponse? && e.Writable? && e.n > 0 then e.n else 0
  }

  lemma SettledTaskMovesNothing(h: Handler, c: Conn)
    requires c.payloadSize <= |c.payload|
    ensures Settle(RunTask(h, c)).consumed == c.consumed && Settle(RunTask(h, c)).emitted == c.emitted
  {
  }

  lemma HeaderMovesBytes(h: Handler, c: Conn, r: Received)
    requires h.Valid() && WellSized(h, c) && c.state.ReadingHeader? && FitsHeader(c, r)
    ensures var c' := Settle(ReadHeader(h, c, r));
            c'.consumed == c.consumed + (if r.Data? then r.bytes else []) && c'.emitted == c.emitted
  {
    if !r.ReadFailed? { SettledTaskMovesNothing(h, Announced(h, HeaderTaken(c, BytesOf(r)))); }
  }

  lemma PayloadMovesBytes(h: Handler, c: Conn, r: Received)
    requires h.Valid() && WellSized(h, c) && c.state.ReadingPayload? && FitsPayload(c, r)
    ensures var c' := Settle(ReadPayload(h, c, r));
            c'.consumed == c.consumed + (if r.Data? then r.bytes else []) && c'.emitted == c.emitted
  {
    if !r.ReadFailed? { SettledTaskMovesNothing(h, PayloadTaken(c, BytesOf(r))); }
  }

  lemma ReadMovesBytes(h: Handler, c: Conn, r: Received)
    requires h.Valid() && WellSized(h, c) && Fits(c, r)
    ensures OnReadable(h, c, r).consumed == c.consumed + (if Reading(c) && r.Data? then r.bytes else [])
    ensures OnReadable(h, c, r).emitted == c.emitted
  {
    match c.state
    case ReadingHeader => HeaderMovesBytes(h, c, r);
    case ReadingPayload => PayloadMovesBytes(h, c, r);
    case _ =>
  }

  lemma IoMovesBytes(h: Handler, c: Conn, e: IoEvent)
    requires h.Valid() && WellSized(h, c) && FitsEvent(c, e)
    ensures OnIo(h, c, e).consumed == c.consumed + (if Reading(c) && e.Readable? && e.r.Data? then e.r.bytes else [])
    ensures |OnIo(h, c, e).emitted|
            == |c.emitted| + (if c.state.WritingResponse? && e.Writable? && e.n > 0 then e.n else 0)
  {
    if e.Readable? { ReadMovesBytes(h, c, e.r); }
  }

  /** The connection has consumed exactly what was delivered, and sent exactly as much as was taken. */
  lemma {:induction false} ConsumedIsDelivered(h: Handler, es: seq<IoEvent>)
    requires h.Valid() && LegalIo(h, es)
    ensures Replay(h, es).consumed == Delivered(h, es) && |Replay(h, es).emitted| == SentCount(h, es)
    decreases |es|
  {
    if es != [] {
      ConsumedIsDelivered(h, es[..|es| - 1]);
      IoMovesBytes(h, Replay(h, es[..|es| - 1]), es[|es| - 1]);
    }
  }

  /**
   * One write event: the bytes taken are sent from where the last send stopped; the connection goes back to reading a
   * header exactly when a send that is not an error reaches the response size, and stays as it is otherwise.
   */
  lemma WriteEventSends(h: Handler, c: Conn, n: int)
    requires h.Valid() && WellSized(h, c) && c.state.WritingResponse? && FitsResponse(c, n)
    ensures var c', taken := OnWritable(h, c, n), if n > 0 then n else 0;
            && c'.emitted == c.emitted + c.output[c.written..c.written + taken]
            && c'.requests == c.requests && c'.consumed == c.consumed
            && (c'.state.ReadingHeader? <==> n >= 0 && c.written + taken == c.responseSize)
            && (!c'.state.ReadingHeader? ==> c'.state.WritingResponse? && c'.written == c.written + taken
                                             && c'.responseSize == c.responseSize && c'.output == c.output)
  {
  }

  lemma ConsumedPrefixServed(h: Handler, es: seq<IoEvent>, stream: seq<Byte>)
    requires h.Valid() && LegalIo(h, es) && Replay(h, es).consumed <= stream
    ensures var c := Replay(h, es);
            var reference := Serve(h, [], stream);
            && c.requests <= reference.requests
            && c.emitted <= reference.output
            && (c.consumed == stream ==> c.requests == reference.requests)
            && (c.consumed == stream && !c.state.WritingResponse? ==> c.emitted == reference.output)
  {
    var c := Replay(h, es);
    ReplayIsFramed(h, es);
    var a := Serve(h, [], c.consumed);
    var t := stream[|c.consumed|..];
    assert stream == c.consumed + t;
    ServeAppend(h, [], c.consumed, t);
    assert c.emitted <= a.output;
    assert a.output <= Serve(h, [], stream).output;
  }

  /**
   * Refinement: on any stream that starts with the bytes delivered so far, the requests handled are a prefix of the
   * reference's, and the bytes emitted are the first SentCount bytes of its output; the requests are all of them once
   * the stream is delivered, and so is the output when no response is pending.
   */
  lemma FramingRefinement(h: Handler, es: seq<IoEvent>, stream: seq<Byte>)
    requires h.Valid() && LegalIo(h, es) && Delivered(h, es) <= stream
    ensures var c := Replay(h, es);
            var reference := Serve(h, [], stream);
            && c.requests <= reference.requests
            && SentCount(h, es) <= |reference.output| && c.emitted == reference.output[..SentCount(h, es)]
            && (Delivered(h, es) == stream ==> c.requests == reference.requests)
            && (Delivered(h, es) == stream && !c.state.WritingResponse? ==> SentCount(h, es) == |reference.output|)
  {
    ConsumedIsDelivered(h, es);
    ConsumedPrefixServed(h, es, stream);
  }

  /**
   * Byte conservation: what the socket delivered is the completed frames and the filled prefixes, nothing more.
   */
  lemma ReplayConserves(h: Handler, es: seq<IoEvent>)
    requires h.Valid() && LegalIo(h, es)
    ensures var c := Replay(h, es);
            Delivered(h, es) == Flatten(c.requests) + match c.state
                                                      case ReadingHeader => c.header[..c.headerRead]
                                                      case ReadingPayload => c.header + c.payload[..c.payloadRead]
                                                      case _ => []
    ensures forall q :: q in Replay(h, es).requests ==> WellFormed(h, q)
  {
    var c := Replay(h, es);
    ConsumedIsDelivered(h, es);
    ReplayIsFramed(h, es);
    ServeConserves(h, [], c.consumed);
    ServeIsMaximal(h, [], c.consumed);
  }

  /** A client whose delivered bytes are whole frames gets exactly those frames handled, in order. */
  lemma FramesAreHandled(h: Handler, es: seq<IoEvent>, qs: seq<Request>)
    requires h.Valid() && LegalIo(h, es)
    requires forall k :: 0 <= k < |qs| ==> WellFormed(h, qs[k])
    requires Delivered(h, es) == Flatten(qs)
    ensures Replay(h, es).requests == qs
  {
    FramingRefinement(h, es, Flatten(qs));
    ServeRoundTrip(h, [], qs);
  }

  /** The connection handed to runTask by a read event that completes a request. */
  function TaskInput(h: Handler, c: Conn, r: Received): Conn
    requires WellSized(h, c) && Fits(c, r)
  {
    match c.state
    case ReadingHeader => Announced(h, HeaderTaken(c, BytesOf(r)))
    case ReadingPayload => PayloadTaken(c, BytesOf(r))
    case _ => c
  }

  /** Nothing but the payload read so far is left in the two buffers a handler sees. */
  ghost predicate Clean(h: Handler, c: Conn) {
    WellSized(h, c) && ZeroFrom(c.payload, c.payloadRead) && ZeroFrom(c.output, 0)
      && (c.state.ReadingHeader? ==> c.payloadRead == 0)
  }

  lemma FramedIsClean(h: Handler, c: Conn)
    requires h.Valid() && Framed(h, c) && !c.state.WritingResponse?
    ensures Clean(h, c)
  {
  }

  /** What a handler finds when a read event completes a request. */
  ghost predicate RunsClean(h: Handler, c: Conn, r: Received)
    requires h.Valid() && WellSized(h, c) && Fits(c, r)
  {
    var task := TaskInput(h, c, r);
    && task.payloadSize <= |task.payload| && OnReadable(h, c, r) == Settle(RunTask(h, task))
    && task.requests == c.requests
    && ZeroFrom(task.payload, task.payloadSize) && task.output == Zeros(h.pduSize)
  }

  lemma CompletingReadIsClean(h: Handler, c: Conn, r: Received)
    requires h.Valid() && Clean(h, c) && Fits(c, r) && OnReadable(h, c, r).requests != c.requests
    ensures RunsClean(h, c, r)
  {
    assert c.output == Zeros(h.pduSize);
    if c.state.ReadingPayload? {
      var end := c.payloadRead + |BytesOf(r)|;
      assert forall i :: end <= i < |c.payload| ==> PayloadTaken(c, BytesOf(r)).payload[i] == c.payload[end..][i - end];
    }
  }

  /**
   * No byte of an earlier request is left when a handler runs, in any mode: a read event that completes a request is
   * runTask on a payload buffer that is zero beyond the declared size and an output buffer that is zero throughout.
   */
  lemma NoCarryOver(h: Handler, es: seq<IoEvent>, r: Received)
    requires h.Valid() && LegalIo(h, es) && Fits(Replay(h, es), r)
    requires OnReadable(h, Replay(h, es), r).requests != Replay(h, es).requests
    ensures RunsClean(h, Replay(h, es), r)
  {
    ReplayIsFramed(h, es);
    FramedIsClean(h, Replay(h, es));
    CompletingReadIsClean(h, Replay(h, es), r);
  }

  // Progress.

  /** Requests received and, where there is a response, fully answered. */
  function Completed(c: Conn): int {
    |c.requests| - if c.state.WritingResponse? then 1 else 0
  }

  /** An event whose socket call moves a byte, or finishes an empty response. */
  predicate Productive(c: Conn, e: IoEvent) {
    match e
    case Readable(r) => (c.state.ReadingHeader? || c.state.ReadingPayload?) && r.Data?
    case Writable(n) => c.state.WritingResponse? && (n > 0 || (n == 0 && c.responseSize == 0))
  }

  function Phase(c: Conn): nat {
    match c.state
    case ReadingHeader => 2
    case ReadingPayload => 1
    case _ => 0
  }

  function BytesLeft(h: Handler, c: Conn): int {
    match c.state
    case ReadingHeader => h.headerSize - c.headerRead
    case ReadingPayload => c.payloadSize - c.payloadRead
    case _ => c.responseSize - c.written
  }

  /** Bytes already moved for the current request. */
  function Moved(c: Conn): nat {
    c.headerRead + c.payloadRead + c.written
  }

  /** The request is finished, or the measure (phase, bytes left in the phase) is lower and a byte has moved. */
  ghost predicate Progresses(h: Handler, c: Conn, c': Conn) {
    if Completed(c') != Completed(c) then
      Completed(c') == Completed(c) + 1 && c'.state.ReadingHeader? && Moved(c') == 0
    else
      && (Phase(c') < Phase(c) || (Phase(c') == Phase(c) && 0 <= BytesLeft(h, c') < BytesLeft(h, c)))
      && Moved(c') > Moved(c)
  }

  /** Between events something is left to read in a reading phase, and the counters of later phases are zero. */
  ghost predicate Unfinished(h: Handler, c: Conn) {
    && WellSized(h, c) && !c.state.FinishProcess?
    && (c.state.ReadingHeader? ==> c.headerRead < h.headerSize && c.payloadRead == 0)
    && (c.state.ReadingPayload? ==> c.payloadRead < c.payloadSize)
  }

  lemma ReadProgresses(h: Handler, c: Conn, r: Received)
    requires h.Valid() && Unfinished(h, c) && Fits(c, r) && Productive(c, Readable(r))
    ensures Progresses(h, c, OnReadable(h, c, r))
  {
  }

  lemma WriteProgresses(h: Handler, c: Conn, n: int)
    requires h.Valid() && Unfinished(h, c) && c.state.WritingResponse? && FitsResponse(c, n)
             && Productive(c, Writable(n))
    ensures Progresses(h, c, OnWritable(h, c, n))
  {
  }

  /** A productive event finishes the request, or lowers (phase, bytes left in the phase) and moves a byte. */
  lemma ProductiveEventProgresses(h: Handler, c: Conn, e: IoEvent)
    requires h.Valid() && Framed(h, c) && FitsEvent(c, e) && Productive(c, e)
    ensures Progresses(h, c, OnIo(h, c, e))
  {
    if e.Readable? { ReadProgresses(h, c, e.r); } else { WriteProgresses(h, c, e.n); }
  }

  /** No event ever takes a completed request back. */
  lemma CompletedNeverDrops(h: Handler, c: Conn, e: IoEvent)
    requires h.Valid() && WellSized(h, c) && FitsEvent(c, e)
    ensures Completed(c) <= Completed(OnIo(h, c, e))
  {
  }

  lemma {:induction false} PrefixIsLegal(h: Handler, es: seq<IoEvent>, k: nat)
    requires h.Valid() && LegalIo(h, es) && k <= |es|
    ensures LegalIo(h, es[..k])
    ensures Completed(Replay(h, es[..k])) <= Completed(Replay(h, es))
    decreases |es|
  {
    if k == |es| {
      assert es[..k] == es;
    } else {
      var front := es[..|es| - 1];
      PrefixIsLegal(h, front, k);
      assert front[..k] == es[..k];
      ReplayIsFramed(h, front);
      CompletedNeverDrops(h, Replay(h, front), es[|es| - 1]);
    }
  }

  /** The productive events after event number k. */
  ghost function ProductiveCount(h: Handler, es: seq<IoEvent>, k: nat): nat
    requires h.Valid() && LegalIo(h, es)
    decreases |es|
  {
    if |es| <= k then 0
    else
      var front := es[..|es| - 1];
      ProductiveCount(h, front, k) + if Productive(Replay(h, front), es[|es| - 1]) then 1 else 0
  }

  /** A would-block, an idle wake-up or a close moves nothing, unless it completes a request. */
  lemma UnproductiveMovesNothing(h: Handler, c: Conn, e: IoEvent)
    requires h.Valid() && Unfinished(h, c) && FitsEvent(c, e) && !Productive(c, e)
    requires Completed(OnIo(h, c, e)) == Completed(c)
    ensures Moved(OnIo(h, c, e)) == Moved(c)
  {
  }

  /**
   * A request finishes within header + payload + response + 1 productive events, whatever unproductive ones come in
   * between: as long as none is completed, the productive events since event k are at most the bytes moved since
   * then, which never exceed the three sizes.
   */
  lemma {:induction false} RequestFinishes(h: Handler, es: seq<IoEvent>, k: nat)
    requires h.Valid() && LegalIo(h, es) && k <= |es| && LegalIo(h, es[..k])
    requires Completed(Replay(h, es)) == Completed(Replay(h, es[..k]))
    ensures var c := Replay(h, es);
            ProductiveCount(h, es, k) <= Moved(c) - Moved(Replay(h, es[..k])) <= h.headerSize + c.payloadSize
              + c.responseSize
    decreases |es|
  {
    ReplayIsFramed(h, es);
    if k == |es| {
      assert es[..k] == es;
    } else {
      var front, e := es[..|es| - 1], es[|es| - 1];
      assert front[..k] == es[..k];
      PrefixIsLegal(h, front, k);
      ReplayIsFramed(h, front);
      CompletedNeverDrops(h, Replay(h, front), e);
      RequestFinishes(h, front, k);
      if Productive(Replay(h, front), e) {
        ProductiveEventProgresses(h, Replay(h, front), e);
      } else {
        UnproductiveMovesNothing(h, Replay(h, front), e);
      }
    }
  }

  /** So more productive events than a header, a payload and a response can hold complete a request. */
  lemma EnoughEventsFinish(h: Handler, es: seq<IoEvent>, k: nat)
    requires h.Valid() && LegalIo(h, es) && k <= |es| && LegalIo(h, es[..k])
    requires ProductiveCount(h, es, k) > h.headerSize + h.pduSize + h.pduSize
    ensures Completed(Replay(h, es)) > Completed(Replay(h, es[..k]))
  {
    PrefixIsLegal(h, es, k);
    if Completed(Replay(h, es)) == Completed(Replay(h, es[..k])) { RequestFinishes(h, es, k); }
  }
}
