/** One accepted client of the request server, with its buffers filled in place. */
module Connection {
  import opened Sockets
  import opened FramingMachine
  import Machine = FramingMachine

  /** recv into the buffer behind `at`. */
  method Receive(buffer: array<Byte>, at: nat, bytes: seq<Byte>)
    requires at + |bytes| <= buffer.Length
    modifies buffer
    ensures buffer[..] == Fill(old(buffer[..]), at, bytes)
  {
    forall i | 0 <= i < |bytes| {
      buffer[at + i] := bytes[i];
    }
  }

  /** memset to zero. */
  method Clear(buffer: array<Byte>)
    modifies buffer
    ensures buffer[..] == Zeros(buffer.Length)
  {
    forall i | 0 <= i < buffer.Length {
      buffer[i] := 0;
    }
  }

  class SocketConnection {
    const handler: Handler
    var state: ProcessState
    const inputHeaderBuffer: array<Byte>
    var totalInputHeaderReadSize: nat
    const inputPayloadBuffer: array<Byte>
    var payloadSize: nat
    var totalInputPayloadReadSize: nat
    var mode: RequestMode
    const outputBuffer: array<Byte>
    var responseSize: nat
    var totalOutputWriteSize: nat

    // What the handler and the peer have seen of this connection.
    var requests: seq<Request>
    ghost var consumed: seq<Byte>
    ghost var emitted: seq<Byte>

    ghost function Repr(): set<object> {
      {this, inputHeaderBuffer, inputPayloadBuffer, outputBuffer}
    }

    ghost function Value(): Conn
      reads Repr()
    {
      Conn(state, inputHeaderBuffer[..], totalInputHeaderReadSize,
           inputPayloadBuffer[..], payloadSize, totalInputPayloadReadSize, mode,
           outputBuffer[..], responseSize, totalOutputWriteSize,
           requests, consumed, emitted)
    }

    ghost predicate Separate() {
      inputHeaderBuffer != inputPayloadBuffer && inputHeaderBuffer != outputBuffer && inputPayloadBuffer != outputBuffer
    }

    ghost predicate Valid()
      reads Repr()
    {
      Separate() && handler.Valid() && WellSized(handler, Value())
    }

    constructor (h: Handler)
      requires h.Valid()
      ensures Valid() && fresh(Repr()) && handler == h && Value() == Initial(h)
    {
      handler := h;
      state := ReadingHeader;
      inputHeaderBuffer := new Byte[h.headerSize](i => 0);
      totalInputHeaderReadSize := 0;
      inputPayloadBuffer := new Byte[h.pduSize](i => 0);
      payloadSize, totalInputPayloadReadSize := 0, 0;
      mode := Fast;
      outputBuffer := new Byte[h.pduSize](i => 0);
      responseSize, totalOutputWriteSize := 0, 0;
      requests, consumed, emitted := [], [], [];
    }

    method RunTask() returns (next: ProcessState)
      requires Separate() && handler.Valid() && payloadSize <= inputPayloadBuffer.Length
      requires outputBuffer.Length == handler.pduSize
      modifies this, outputBuffer
      ensures (Value(), next) == Machine.RunTask(handler, old(Value()))
    {
      var past := requests;
      requests := requests + [Request(inputHeaderBuffer[..], inputPayloadBuffer[..payloadSize], mode)];
      match mode {
        case Fast | ReadStream =>
          var (out, size) :=
            handler.process(past, inputHeaderBuffer[..], inputPayloadBuffer[..], payloadSize, outputBuffer[..]);
          forall i | 0 <= i < outputBuffer.Length {
            outputBuffer[i] := out[i];
          }
          assert outputBuffer[..] == out;
          responseSize := size;
          assert inputHeaderBuffer[..] == old(inputHeaderBuffer[..])
                 && inputPayloadBuffer[..] == old(inputPayloadBuffer[..]);
          return WritingResponse;
        case Slow =>
        case WriteStream =>
          return FinishProcess;
      }
      return WritingResponse;
    }

    method ReadHeader(r: Received) returns (next: ProcessState)
      requires Valid() && state.ReadingHeader? && FitsHeader(Value(), r)
      modifies Repr()
      ensures (Value(), next) == Machine.ReadHeader(handler, old(Value()), r)
    {
      if r.ReadFailed? {
        return ReadingHeader;
      }
      var bytes := BytesOf(r);
      Receive(inputHeaderBuffer, totalInputHeaderReadSize, bytes);
      totalInputHeaderReadSize := totalInputHeaderReadSize + |bytes|;
      consumed := consumed + bytes;
      if totalInputHeaderReadSize == inputHeaderBuffer.Length {
        payloadSize := handler.payloadSize(inputHeaderBuffer[..]);
        mode := handler.classify(inputHeaderBuffer[..]);
        if payloadSize == 0 {
          next := RunTask();
          return;
        }
        return ReadingPayload;
      }
      return ReadingHeader;
    }

    method ReadPayload(r: Received) returns (next: ProcessState)
      requires Valid() && state.ReadingPayload? && FitsPayload(Value(), r)
      modifies Repr()
      ensures (Value(), next) == Machine.ReadPayload(handler, old(Value()), r)
    {
      if r.ReadFailed? {
        return ReadingPayload;
      }
      var bytes := BytesOf(r);
      Receive(inputPayloadBuffer, totalInputPayloadReadSize, bytes);
      totalInputPayloadReadSize := totalInputPayloadReadSize + |bytes|;
      consumed := consumed + bytes;
      if totalInputPayloadReadSize == payloadSize {
        next := RunTask();
        return;
      }
      return ReadingPayload;
    }

    method WriteResponse(n: int) returns (next: ProcessState)
      requires Valid() && FitsResponse(Value(), n)
      modifies this
      ensures (Value(), next) == Machine.WriteResponse(handler, old(Value()), n)
    {
      if n < 0 {
        return WritingResponse;
      }
      emitted := emitted + outputBuffer[totalOutputWriteSize..totalOutputWriteSize + n];
      totalOutputWriteSize := totalOutputWriteSize + n;
      if totalOutputWriteSize == responseSize {
        return FinishProcess;
      }
      return WritingResponse;
    }

    method Flush()
      requires Separate()
      modifies Repr()
      ensures Value() == Machine.Flush(old(Value()))
    {
      Clear(inputHeaderBuffer);
      Clear(inputPayloadBuffer);
      Clear(outputBuffer);
      state := ReadingHeader;
      totalInputHeaderReadSize := 0;
      payloadSize := 0;
      totalInputPayloadReadSize := 0;
      responseSize := 0;
      totalOutputWriteSize := 0;
    }

    /**
     * The Read arm of the event loop: run the process function of the state, store the next state, flush when finished.
     */
    method OnReadable(r: Received)
      requires Valid() && Fits(Value(), r)
      modifies Repr()
      ensures Valid() && Value() == Machine.OnReadable(handler, old(Value()), r)
    {
      var next: ProcessState;
      match state {
        case ReadingHeader => next := ReadHeader(r);
        case ReadingPayload => next := ReadPayload(r);
        case _ => return;
      }
      state := next;
      if next.FinishProcess? {
        Flush();
      }
    }

    /** The Write arm. */
    method OnWritable(n: int)
      requires Valid() && (state.WritingResponse? ==> FitsResponse(Value(), n))
      modifies Repr()
      ensures Valid() && Value() == Machine.OnWritable(handler, old(Value()), n)
    {
      if !state.WritingResponse? {
        return;
      }
      var next := WriteResponse(n);
      state := next;
      if next.FinishProcess? {
        Flush();
      }
    }
  }
}
