/** The broadcast retry loop: one buffer to every client of the snapshot, whatever the sockets answer. */
module BroadcastWrite {
  import opened Sockets

  /**
   * What one client's socket answers during the call: the k-th wait for writability, and the k-th send when it is
   * asked to take n bytes.
   */
  datatype Channel = Channel(waits: nat -> SocketCode, sends: (nat, nat) -> SocketResult) {
    /** A successful send took at least one byte, at most those offered, and reports them in 32 bits. */
    ghost predicate Valid() {
      forall k, n :: sends(k, n).code.Success? ==> 1 <= sends(k, n).bytes <= n && sends(k, n).bytes < TWO_TO_THE_31
    }
  }

  /**
   * What writing to one client comes to: the code, whether the result carries the written size, the bytes its socket
   * took, and the calls made.
   */
  datatype Delivery = Delivery(code: SocketCode, sized: bool, handed: seq<Byte>, timeouts: nat, waits: nat,
    sends: nat) {
    /** The size goes through a signed 32-bit cast. */
    function Result(): SocketResult {
      SocketResult(code, if sized then Int32(|handed|) else -1)
    }
  }

  /** One turn of the loop: a timeout, another answer that stops it, or n more bytes taken. */
  datatype Turn = Retry(sends: nat) | Stop(code: SocketCode, sends: nat) | Progress(n: nat)

  /** Either call may time out or fail; would-block is a failure like any other. */
  function TurnOf(c: Channel, left: nat, waits: nat, sends: nat): (t: Turn)
    requires c.Valid()
    ensures t.Progress? ==> 1 <= t.n <= left
    ensures t.Stop? ==> !t.code.Success? && !t.code.SocketTimeout?
  {
    if c.waits(waits).SocketTimeout? then Retry(sends)
    else if !c.waits(waits).Success? then Stop(c.waits(waits), sends)
    else
      var inner := c.sends(sends, left);
      if inner.code.SocketTimeout? then Retry(sends + 1)
      else if !inner.code.Success? then Stop(inner.code, sends + 1)
      else Progress(inner.bytes)
  }

  function TimedOut(d: Delivery): Delivery {
    d.(timeouts := d.timeouts + 1)
  }

  /** The loop from the point where `written` bytes are gone and `retries` timeouts are still allowed. */
  function Transmit(c: Channel, buffer: seq<Byte>, retries: nat, written: nat, waits: nat, sends: nat): Delivery
    requires c.Valid() && written <= |buffer|
    decreases retries + |buffer| - written
  {
    if retries == 0 then Delivery(Success, false, [], 0, waits, sends)
    else
      match TurnOf(c, |buffer| - written, waits, sends)
      case Retry(tried) => TimedOut(Transmit(c, buffer, retries - 1, written, waits + 1, tried))
      case Stop(code, tried) => Delivery(code, true, [], 0, waits + 1, tried)
      case Progress(n) =>
        var chunk := buffer[written..written + n];
        if written + n == |buffer| then Delivery(Success, true, chunk, 0, waits + 1, sends + 1)
        else
          var rest := Transmit(c, buffer, retries, written + n, waits + 1, sends + 1);
          rest.(handed := chunk + rest.handed)
  }

  function DeliveryTo(c: Channel, buffer: seq<Byte>, maxRetries: nat): Delivery
    requires c.Valid()
  {
    Transmit(c, buffer, maxRetries, 0, 0, 0)
  }

  /** d is what was handed over so far, then the rest. */
  ghost predicate Continues(d: Delivery, handed: seq<Byte>, rest: Delivery) {
    d.code == rest.code && d.sized == rest.sized && d.handed == handed + rest.handed
  }

  /** What one turn means for the delivery. */
  lemma TransmitTurns(c: Channel, buffer: seq<Byte>, retries: nat, written: nat, waits: nat, sends: nat,
                      d: Delivery, handed: seq<Byte>)
    requires c.Valid() && written <= |buffer| && retries > 0
    requires Continues(d, handed, Transmit(c, buffer, retries, written, waits, sends))
    ensures match TurnOf(c, |buffer| - written, waits, sends)
            case Retry(tried) => Continues(d, handed, Transmit(c, buffer, retries - 1, written, waits + 1, tried))
            case Stop(code, _) => d.code == code && d.sized && d.handed == handed
            case Progress(n) =>
              var taken := handed + buffer[written..written + n];
              if written + n == |buffer| then d.code.Success? && d.sized && d.handed == taken
              else Continues(d, taken, Transmit(c, buffer, retries, written + n, waits + 1, sends + 1))
  {
    var turn := TurnOf(c, |buffer| - written, waits, sends);
    if turn.Progress? && written + turn.n < |buffer| {
      var chunk, rest := buffer[written..written + turn.n],
                         Transmit(c, buffer, retries, written + turn.n, waits + 1, sends + 1);
      assert handed + (chunk + rest.handed) == handed + chunk + rest.handed;
    }
  }

  /** Wait for writability, then send what is left. */
  method TakeTurn(c: Channel, left: nat, waits: nat, sends: nat) returns (turn: Turn)
    requires c.Valid()
    ensures turn == TurnOf(c, left, waits, sends)
  {
    var code := c.waits(waits);
    if code.SocketTimeout? {
      return Retry(sends);
    }
    if !code.Success? {
      return Stop(code, sends);
    }
    var inner := c.sends(sends, left);
    if inner.code.SocketTimeout? {
      return Retry(sends + 1);
    }
    if !inner.code.Success? {
      return Stop(inner.code, sends + 1);
    }
    return Progress(inner.bytes);
  }

  /** The inner loop of write, for one client whose delivery is d. */
  method RetryLoop(c: Channel, buffer: seq<Byte>, maxRetries: nat, ghost d: Delivery)
    returns (result: SocketResult, handed: seq<Byte>)
    requires c.Valid() && Continues(d, [], Transmit(c, buffer, maxRetries, 0, 0, 0))
    ensures result == d.Result() && handed == d.handed
  {
    result, handed := SocketResult(Success, -1), [];
    var written: nat, i: nat, waits: nat, sends: nat := 0, 0, 0, 0;
    ghost var left: nat := maxRetries;
    while i < maxRetries
      invariant i + left == maxRetries && |handed| == written <= |buffer|
      invariant result == SocketResult(Success, -1)
      invariant Continues(d, handed, Transmit(c, buffer, left, written, waits, sends))
      decreases left + |buffer| - written
    {
      TransmitTurns(c, buffer, left, written, waits, sends, d, handed);
      var turn := TakeTurn(c, |buffer| - written, waits, sends);
      waits := waits + 1;
      match turn {
        case Retry(tried) =>
          i, sends, left := i + 1, tried, left - 1;
        case Stop(code, _) =>
          return SocketResult(code, Int32(written)), handed;
        case Progress(n) =>
          handed := handed + buffer[written..written + n];
          written, sends := written + n, sends + 1;
          if written >= |buffer| {
            return SocketResult(Success, Int32(written)), handed;
          }
      }
    }
  }

  /** What one client receives: a contiguous prefix of the buffer, no gap and no repeat. */
  lemma {:induction false} TransmitIsContiguous(c: Channel, buffer: seq<Byte>, retries: nat, written: nat, waits: nat,
                                                sends: nat)
    requires c.Valid() && written <= |buffer|
    ensures var d := Transmit(c, buffer, retries, written, waits, sends);
            && written + |d.handed| <= |buffer|
            && d.handed == buffer[written..written + |d.handed|]
    decreases retries + |buffer| - written
  {
    if retries > 0 {
      match TurnOf(c, |buffer| - written, waits, sends) {
        case Retry(tried) =>
          TransmitIsContiguous(c, buffer, retries - 1, written, waits + 1, tried);
        case Stop(_, _) =>
        case Progress(n) =>
          if written + n < |buffer| { TransmitIsContiguous(c, buffer, retries, written + n, waits + 1, sends + 1); }
      }
    }
  }

  method WriteClient(c: Channel, buffer: seq<Byte>, maxRetries: nat) returns (result: SocketResult, handed: seq<Byte>)
    requires c.Valid()
    ensures result == DeliveryTo(c, buffer, maxRetries).Result()
    ensures handed == DeliveryTo(c, buffer, maxRetries).handed
    ensures handed <= buffer
  {
    TransmitIsContiguous(c, buffer, maxRetries, 0, 0, 0);
    result, handed := RetryLoop(c, buffer, maxRetries, DeliveryTo(c, buffer, maxRetries));
  }

  /** The three ways the loop ends, told apart by what was delivered and how often it timed out. */
  ghost predicate EndsProperly(c: Channel, size: nat, retries: nat, start: nat, d: Delivery) {
    var reached := start + |d.handed|;
    && d.timeouts <= retries
    && if d.timeouts == retries then
         d.code.Success? && !d.sized && (reached < size || d.handed == [])
       else if d.handed != [] && reached == size then
         d.code.Success? && d.sized
       else
         && !d.code.Success? && !d.code.SocketTimeout? && d.sized
         && d.waits > 0 && reached <= size
         && (if c.waits(d.waits - 1).Success? then d.sends > 0 && d.code == c.sends(d.sends - 1, size - reached).code
             else d.code == c.waits(d.waits - 1))
  }

  lemma TimeoutEndsProperly(c: Channel, size: nat, retries: nat, start: nat, d: Delivery)
    requires EndsProperly(c, size, retries, start, d)
    ensures EndsProperly(c, size, retries + 1, start, TimedOut(d))
  {
  }

  lemma ChunkEndsProperly(c: Channel, size: nat, retries: nat, start: nat, chunk: seq<Byte>, d: Delivery)
    requires chunk != [] && start + |chunk| < size && EndsProperly(c, size, retries, start + |chunk|, d)
    ensures EndsProperly(c, size, retries, start, d.(handed := chunk + d.handed))
  {
  }

  lemma {:induction false} TransmitEndsProperly(c: Channel, buffer: seq<Byte>, retries: nat, written: nat, waits: nat,
                                                sends: nat)
    requires c.Valid() && written <= |buffer| && (written == |buffer| ==> buffer == [])
    ensures EndsProperly(c, |buffer|, retries, written, Transmit(c, buffer, retries, written, waits, sends))
    decreases retries + |buffer| - written
  {
    if retries > 0 {
      match TurnOf(c, |buffer| - written, waits, sends) {
        case Retry(tried) =>
          TransmitEndsProperly(c, buffer, retries - 1, written, waits + 1, tried);
          TimeoutEndsProperly(c, |buffer|, retries - 1, written,
            Transmit(c, buffer, retries - 1, written, waits + 1, tried));
        case Stop(_, _) =>
        case Progress(n) =>
          var chunk := buffer[written..written + n];
          assert |chunk| == n;
          if written + n < |buffer| {
            TransmitEndsProperly(c, buffer, retries, written + n, waits + 1, sends + 1);
            ChunkEndsProperly(c, |buffer|, retries, written, chunk,
              Transmit(c, buffer, retries, written + n, waits + 1, sends + 1));
          }
      }
    }
  }

  lemma {:induction false} TransmitIsBounded(c: Channel, buffer: seq<Byte>, retries: nat, written: nat, waits: nat,
                                             sends: nat)
    requires c.Valid() && written <= |buffer| && (written == |buffer| ==> buffer == [])
    ensures var d := Transmit(c, buffer, retries, written, waits, sends);
            d.sends - sends <= d.waits - waits <= retries + |buffer| - written
    decreases retries + |buffer| - written
  {
    if retries > 0 {
      match TurnOf(c, |buffer| - written, waits, sends) {
        case Retry(tried) => TransmitIsBounded(c, buffer, retries - 1, written, waits + 1, tried);
        case Stop(_, _) =>
        case Progress(n) =>
          if written + n < |buffer| { TransmitIsBounded(c, buffer, retries, written + n, waits + 1, sends + 1); }
      }
    }
  }

  /**
   * One client, every pattern of partial sends and timeouts: a prefix of the buffer is handed over; the retries are
   * used up exactly when the result is an unsized success; the whole of a non-empty buffer is handed over exactly
   * when the loop stops for that reason, with the size as a 32-bit result; any other answer is returned with the
   * bytes handed over so far. The waits are at most the retries plus the size.
   */
  lemma DeliveryIsPrefixAndBounded(c: Channel, buffer: seq<Byte>, maxRetries: nat)
    requires c.Valid()
    ensures var d := DeliveryTo(c, buffer, maxRetries);
            && d.handed <= buffer
            && EndsProperly(c, |buffer|, maxRetries, 0, d)
            && d.sends <= d.waits <= maxRetries + |buffer|
  {
    TransmitIsContiguous(c, buffer, maxRetries, 0, 0, 0);
    TransmitEndsProperly(c, buffer, maxRetries, 0, 0, 0);
    TransmitIsBounded(c, buffer, maxRetries, 0, 0, 0);
  }

  // The same call read off the channel's own answers: turn j waits for the j-th time, and sends if that succeeds.

  /** The books of a call: sends made, bytes taken, and calls that timed out. */
  datatype Ledger = Ledger(sends: nat, taken: nat, timeouts: nat)

  /** How turn j goes after the turns in the books: the code of its wait, or of its send when the wait succeeded. */
  function TurnCode(c: Channel, size: nat, j: nat, l: Ledger): SocketCode
    requires l.taken <= size
  {
    if c.waits(j).Success? then c.sends(l.sends, size - l.taken).code else c.waits(j)
  }

  /** The books after the first turns. */
  ghost function BooksAfter(c: Channel, size: nat, turns: nat): (l: Ledger)
    requires c.Valid()
    ensures l.taken <= size
  {
    if turns == 0 then Ledger(0, 0, 0)
    else
      var l := BooksAfter(c, size, turns - 1);
      var code := TurnCode(c, size, turns - 1, l);
      Ledger(if c.waits(turns - 1).Success? then l.sends + 1 else l.sends,
             if c.waits(turns - 1).Success? && code.Success? then l.taken + c.sends(l.sends, size - l.taken).bytes
                else l.taken,
             if code.SocketTimeout? then l.timeouts + 1 else l.timeouts)
  }

  ghost function TurnAnswer(c: Channel, size: nat, j: nat): SocketCode
    requires c.Valid()
  {
    TurnCode(c, size, j, BooksAfter(c, size, j))
  }

  predicate GoesOn(code: SocketCode) { code.Success? || code.SocketTimeout? }

  /** The delivery d, entered at turn `from`, against the channel's answers. */
  ghost predicate FollowsChannel(c: Channel, size: nat, from: nat, d: Delivery)
    requires c.Valid()
  {
    var before, after := BooksAfter(c, size, from), BooksAfter(c, size, d.waits);
    && from <= d.waits
    && after == Ledger(d.sends, before.taken + |d.handed|, before.timeouts + d.timeouts)
    && (forall j :: from <= j < d.waits - 1 ==> GoesOn(TurnAnswer(c, size, j)))
    && (if d.code.Success? then from < d.waits ==> GoesOn(TurnAnswer(c, size, d.waits - 1))
        else from < d.waits && d.code == TurnAnswer(c, size, d.waits - 1) && !GoesOn(d.code))
  }

  /** What a turn does is what the channel answers in it. */
  lemma TurnFollows(c: Channel, size: nat, j: nat)
    requires c.Valid()
    ensures var l, next := BooksAfter(c, size, j), BooksAfter(c, size, j + 1);
            match TurnOf(c, size - l.taken, j, l.sends)
            case Retry(tried) => TurnAnswer(c, size, j).SocketTimeout? && next == Ledger(tried, l.taken, l.timeouts + 1)
            case Stop(code, tried) => TurnAnswer(c, size, j) == code && next == Ledger(tried, l.taken, l.timeouts)
            case Progress(n) => TurnAnswer(c, size, j).Success? && next == Ledger(l.sends + 1, l.taken + n, l.timeouts)
  {
  }

  /** One turn in front of a delivery that follows the channel from the next turn on. */
  lemma TurnThenFollows(c: Channel, size: nat, j: nat, d: Delivery, longer: Delivery)
    requires c.Valid() && FollowsChannel(c, size, j + 1, d) && GoesOn(TurnAnswer(c, size, j))
    requires var l, next := BooksAfter(c, size, j), BooksAfter(c, size, j + 1);
             && |longer.handed| == next.taken - l.taken + |d.handed|
             && longer == d.(handed := longer.handed, timeouts := next.timeouts - l.timeouts + d.timeouts)
    ensures FollowsChannel(c, size, j, longer)
  {
  }

  /** A delivery of one turn. */
  lemma LastTurnFollows(c: Channel, size: nat, j: nat, d: Delivery)
    requires c.Valid() && d.waits == j + 1 && d.code == TurnAnswer(c, size, j) && !d.code.SocketTimeout?
    requires var l, next := BooksAfter(c, size, j), BooksAfter(c, size, j + 1);
             next == Ledger(d.sends, l.taken + |d.handed|, l.timeouts) && d.timeouts == 0
    ensures FollowsChannel(c, size, j, d)
  {
  }

  /** The delivery from turn j on, after the books so far. */
  ghost function DeliveryFrom(c: Channel, buffer: seq<Byte>, retries: nat, j: nat): Delivery
    requires c.Valid()
  {
    var l := BooksAfter(c, |buffer|, j);
    Transmit(c, buffer, retries, l.taken, j, l.sends)
  }

  lemma DeliveryTurns(c: Channel, buffer: seq<Byte>, retries: nat, j: nat)
    requires c.Valid() && retries > 0
    ensures var d, code := DeliveryFrom(c, buffer, retries, j), TurnAnswer(c, |buffer|, j);
            var l, next := BooksAfter(c, |buffer|, j), BooksAfter(c, |buffer|, j + 1);
            if code.SocketTimeout? then
              next.taken == l.taken && next.timeouts == l.timeouts + 1
                && d == TimedOut(DeliveryFrom(c, buffer, retries - 1, j + 1))
            else if code.Success? && next.taken < |buffer| then
              var rest := DeliveryFrom(c, buffer, retries, j + 1);
              && next.taken > l.taken && next.timeouts == l.timeouts
              && d == rest.(handed := buffer[l.taken..next.taken] + rest.handed)
            else
              d.code == code && d.waits == j + 1 && d.timeouts == 0
              && next == Ledger(d.sends, l.taken + |d.handed|, l.timeouts)
  {
    var l := BooksAfter(c, |buffer|, j);
    TurnFollows(c, |buffer|, j);
    var turn := TurnOf(c, |buffer| - l.taken, j, l.sends);
    if turn.Progress? { assert |buffer[l.taken..l.taken + turn.n]| == turn.n; }
  }

  lemma {:induction false} TransmitFollows(c: Channel, buffer: seq<Byte>, retries: nat, j: nat)
    requires c.Valid()
    ensures FollowsChannel(c, |buffer|, j, DeliveryFrom(c, buffer, retries, j))
    decreases retries + |buffer| - BooksAfter(c, |buffer|, j).taken
  {
    if retries > 0 {
      var d, code := DeliveryFrom(c, buffer, retries, j), TurnAnswer(c, |buffer|, j);
      DeliveryTurns(c, buffer, retries, j);
      if code.SocketTimeout? {
        TransmitFollows(c, buffer, retries - 1, j + 1);
        TurnThenFollows(c, |buffer|, j, DeliveryFrom(c, buffer, retries - 1, j + 1), d);
      } else if code.Success? && BooksAfter(c, |buffer|, j + 1).taken < |buffer| {
        TransmitFollows(c, buffer, retries, j + 1);
        TurnThenFollows(c, |buffer|, j, DeliveryFrom(c, buffer, retries, j + 1), d);
      } else {
        LastTurnFollows(c, |buffer|, j, d);
      }
    }
  }

  /**
   * The call against the channel's own answers: every turn before the last answered success or a timeout; the first
   * other answer ends the loop with that code and the bytes taken so far; the sends, the bytes and the timeouts are
   * those of the channel, and using up the retries is what ends the loop otherwise, unless all is taken.
   */
  lemma DeliveryFollowsChannel(c: Channel, buffer: seq<Byte>, maxRetries: nat)
    requires c.Valid()
    ensures var d := DeliveryTo(c, buffer, maxRetries);
            && BooksAfter(c, |buffer|, d.waits) == Ledger(d.sends, |d.handed|, d.timeouts)
            && (forall j :: 0 <= j < d.waits - 1 ==> GoesOn(TurnAnswer(c, |buffer|, j)))
            && (if d.waits > 0 && !GoesOn(TurnAnswer(c, |buffer|, d.waits - 1))
                then d.Result() == SocketResult(TurnAnswer(c, |buffer|, d.waits - 1), Int32(|d.handed|))
                else d.code.Success? && (d.timeouts == maxRetries || |d.handed| == |buffer| > 0))
  {
    TransmitFollows(c, buffer, maxRetries, 0);
    TransmitEndsProperly(c, buffer, maxRetries, 0, 0, 0);
  }

  // Whether the result of one client tells a complete delivery from used-up retries.

  /** A socket that always takes as much as it can report. */
  function Eager(): (c: Channel)
    ensures c.Valid()
  {
    Channel(k => Success,
            (k, n) => if n == 0 then SocketResult(SocketClosed, 0)
                      else SocketResult(Success, if n < TWO_TO_THE_31 then n else TWO_TO_THE_31 - 1))
  }

  lemma {:induction false} EagerCompletes(buffer: seq<Byte>, retries: nat, written: nat, waits: nat, sends: nat)
    requires retries > 0 && written < |buffer|
    ensures var d := Transmit(Eager(), buffer, retries, written, waits, sends);
            written + |d.handed| == |buffer| && d.code.Success? && d.sized
    decreases |buffer| - written
  {
    var n := Eager().sends(sends, |buffer| - written).bytes;
    if written + n < |buffer| { EagerCompletes(buffer, retries, written + n, waits + 1, sends + 1); }
  }

  /** A socket that never gets ready. */
  function Silent(): (c: Channel)
    ensures c.Valid()
  {
    Channel(k => SocketTimeout, (k, n) => SocketResult(SocketTimeout, -1))
  }

  lemma {:induction false} SilentTakesNothing(buffer: seq<Byte>, retries: nat, waits: nat)
    ensures var d := Transmit(Silent(), buffer, retries, 0, waits, 0);
            d.code.Success? && !d.sized && d.handed == []
    decreases retries
  {
    if retries > 0 { SilentTakesNothing(buffer, retries - 1, waits + 1); }
  }

  /** The 32-bit size of a buffer of 2^32 - 1 bytes, or of any size congruent to it, is -1. */
  lemma Minus1Sizes(n: nat)
    ensures Int32(n) == -1 <==> n % TWO_TO_THE_32 == TWO_TO_THE_32 - 1
  {
  }

  ghost predicate UnsizedMeansIncomplete(c: Channel, buffer: seq<Byte>, maxRetries: nat)
    requires c.Valid()
  {
    var d := DeliveryTo(c, buffer, maxRetries);
    d.Result() == SocketResult(Success, -1) ==> d.handed < buffer
  }

  /**
   * An unsized success always means an incomplete delivery exactly when there is something to deliver and, if a send
   * is ever tried, the size does not itself cast to -1.
   */
  lemma UnsizedSuccessIsIncompleteIff(buffer: seq<Byte>, maxRetries: nat)
    ensures (forall c: Channel :: c.Valid() ==> UnsizedMeansIncomplete(c, buffer, maxRetries))
            <==> buffer != [] && (maxRetries == 0 || |buffer| % TWO_TO_THE_32 != TWO_TO_THE_32 - 1)
  {
    Minus1Sizes(|buffer|);
    if buffer == [] {
      SilentTakesNothing(buffer, maxRetries, 0);
      assert !UnsizedMeansIncomplete(Silent(), buffer, maxRetries);
    } else if maxRetries > 0 && Int32(|buffer|) == -1 {
      EagerCompletes(buffer, maxRetries, 0, 0, 0);
      DeliveryIsPrefixAndBounded(Eager(), buffer, maxRetries);
      assert !UnsizedMeansIncomplete(Eager(), buffer, maxRetries);
    } else {
      forall c: Channel | c.Valid()
        ensures UnsizedMeansIncomplete(c, buffer, maxRetries)
      {
        DeliveryIsPrefixAndBounded(c, buffer, maxRetries);
      }
    }
  }

  // The whole snapshot.

  ghost predicate AllValid(snapshot: seq<Channel>) {
    forall k :: 0 <= k < |snapshot| ==> snapshot[k].Valid()
  }

  /** The result of write: that of the last client of the snapshot. */
  function Broadcast(snapshot: seq<Channel>, buffer: seq<Byte>, maxRetries: nat): SocketResult
    requires AllValid(snapshot)
  {
    if snapshot == [] then SocketResult(Success, 0)
       else DeliveryTo(snapshot[|snapshot| - 1], buffer, maxRetries).Result()
  }

  method Write(snapshot: seq<Channel>, buffer: seq<Byte>, maxRetries: nat)
    returns (result: SocketResult, handed: seq<seq<Byte>>)
    requires AllValid(snapshot)
    ensures result == Broadcast(snapshot, buffer, maxRetries)
    ensures |handed| == |snapshot|
    ensures forall k :: 0 <= k < |snapshot| ==>
            handed[k] == DeliveryTo(snapshot[k], buffer, maxRetries).handed && handed[k] <= buffer
  {
    handed := [];
    if |snapshot| == 0 {
      return SocketResult(Success, 0), handed;
    }
    result := SocketResult(Success, -1);
    for k := 0 to |snapshot|
      invariant |handed| == k
      invariant forall l :: 0 <= l < k ==>
                handed[l] == DeliveryTo(snapshot[l], buffer, maxRetries).handed && handed[l] <= buffer
      invariant k > 0 ==> result == DeliveryTo(snapshot[k - 1], buffer, maxRetries).Result()
    {
      var bytes: seq<Byte>;
      result, bytes := WriteClient(snapshot[k], buffer, maxRetries);
      handed := handed + [bytes];
    }
  }

  /**
   * A success with the full size tells that the last client of the snapshot got a non-empty buffer whole, or that its
   * retries are used up and the size casts to -1.
   */
  lemma FullSuccessReachesTheLast(snapshot: seq<Channel>, buffer: seq<Byte>, maxRetries: nat)
    requires AllValid(snapshot) && snapshot != []
    ensures var d := DeliveryTo(snapshot[|snapshot| - 1], buffer, maxRetries);
            Broadcast(snapshot, buffer, maxRetries) == SocketResult(Success, Int32(|buffer|))
            <==> (buffer != [] && d.handed == buffer) || (d.timeouts == maxRetries && Int32(|buffer|) == -1)
  {
    DeliveryIsPrefixAndBounded(snapshot[|snapshot| - 1], buffer, maxRetries);
  }

  /** A socket whose peer is gone. */
  function Gone(): (c: Channel)
    ensures c.Valid()
  {
    Channel(k => SocketClosed, (k, n) => SocketResult(SocketClosed, 0))
  }

  ghost predicate ReachesAll(snapshot: seq<Channel>, buffer: seq<Byte>, maxRetries: nat)
    requires AllValid(snapshot)
  {
    forall k :: 0 <= k < |snapshot| ==> DeliveryTo(snapshot[k], buffer, maxRetries).handed == buffer
  }

  ghost predicate SuccessReachesAll(snapshot: seq<Channel>, buffer: seq<Byte>, maxRetries: nat)
    requires AllValid(snapshot)
  {
    Broadcast(snapshot, buffer, maxRetries) == SocketResult(Success, Int32(|buffer|)) ==>
      ReachesAll(snapshot, buffer, maxRetries)
  }

  /** Clients that never get ready look like a full success when the size casts to -1. */
  lemma SilentLooksComplete(clients: nat, buffer: seq<Byte>, maxRetries: nat) returns (snapshot: seq<Channel>)
    requires clients > 0 && buffer != [] && Int32(|buffer|) == -1
    ensures |snapshot| == clients && AllValid(snapshot) && !SuccessReachesAll(snapshot, buffer, maxRetries)
  {
    snapshot := seq(clients, k => Silent());
    SilentTakesNothing(buffer, maxRetries, 0);
    assert DeliveryTo(snapshot[0], buffer, maxRetries).handed == [];
  }

  /** The last client hides that the first one is gone. */
  lemma LastHidesTheFirst(clients: nat, buffer: seq<Byte>, maxRetries: nat) returns (snapshot: seq<Channel>)
    requires clients > 1 && buffer != [] && maxRetries > 0
    ensures |snapshot| == clients && AllValid(snapshot) && !SuccessReachesAll(snapshot, buffer, maxRetries)
  {
    snapshot := [Gone()] + seq(clients - 1, k => Eager());
    forall k | 0 <= k < clients
      ensures snapshot[k] == (if k == 0 then Gone() else Eager()) && snapshot[k].Valid()
    {
    }
    EagerCompletes(buffer, maxRetries, 0, 0, 0);
    assert DeliveryTo(snapshot[0], buffer, maxRetries).handed == [];
  }

  /** Where it is told truthfully. */
  lemma SuccessIsTruthful(snapshot: seq<Channel>, buffer: seq<Byte>, maxRetries: nat)
    requires AllValid(snapshot)
    requires snapshot == [] || buffer == [] || (Int32(|buffer|) != -1 && (|snapshot| == 1 || maxRetries == 0))
    ensures SuccessReachesAll(snapshot, buffer, maxRetries)
  {
    forall k | 0 <= k < |snapshot|
      ensures DeliveryTo(snapshot[k], buffer, maxRetries).handed <= buffer
    {
      DeliveryIsPrefixAndBounded(snapshot[k], buffer, maxRetries);
    }
    if snapshot != [] { FullSuccessReachesTheLast(snapshot, buffer, maxRetries); }
  }

  /**
   * A full success means that every client got the whole buffer, whatever their sockets answer, exactly when there is
   * no client or nothing to send, or the size does not cast to -1 and there is one client or no send is ever tried.
   */
  lemma FullSuccessReachesAllIff(clients: nat, buffer: seq<Byte>, maxRetries: nat)
    ensures (forall snapshot: seq<Channel> ::
               |snapshot| == clients && AllValid(snapshot) ==> SuccessReachesAll(snapshot, buffer, maxRetries))
            <==> clients == 0 || buffer == [] || (Int32(|buffer|) != -1 && (clients == 1 || maxRetries == 0))
  {
    if clients == 0 || buffer == [] || (Int32(|buffer|) != -1 && (clients == 1 || maxRetries == 0)) {
      forall snapshot: seq<Channel> | |snapshot| == clients && AllValid(snapshot)
        ensures SuccessReachesAll(snapshot, buffer, maxRetries)
      {
        SuccessIsTruthful(snapshot, buffer, maxRetries);
      }
    } else if Int32(|buffer|) == -1 {
      var snapshot := SilentLooksComplete(clients, buffer, maxRetries);
    } else {
      var snapshot := LastHidesTheFirst(clients, buffer, maxRetries);
    }
  }
}
