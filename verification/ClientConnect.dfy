/** SocketClient::connect: the TCP, handshake and probe retry loops, whatever the socket and poll answer. */
module ClientConnect {
  import opened Sockets

  /** The three loops: around connect, around reconnect(false), around reconnect(true). */
  datatype Phase = Tcp | Handshake | Probe

  /** A call made by a loop and its answer: an attempt, or the wait that follows a pending attempt. */
  datatype Record = Record(phase: Phase, wait: bool, answer: SocketCode)

  /** How a loop ends; `Starved` when the environment gives no further answer, so connect is still waiting. */
  datatype End = Proceed | Stop(code: SocketCode) | Starved

  datatype Run = Run(trace: seq<Record>, end: End)

  datatype Outcome = Returned(code: SocketCode) | StillWaiting

  predicate Pending(c: SocketCode) {
    c.ConnectionInProgress? || c.ConnectionNeedToBeBlocked?
  }

  /** One turn of a loop: it ends the loop, or leaves a counter and a result for the next turn. */
  datatype Turn = Done(records: seq<Record>, end: End) | Again(records: seq<Record>, i: nat, result: SocketCode)

  /**
   * After a pending attempt. A timeout costs the TCP loop two of its retries (one here, one at the end of the body),
   * costs the handshake loop one, and ends the probe loop well: no rejection has come.
   */
  function WaitTurn(phase: Phase, tried: Record, answer: SocketCode, i: nat): (t: Turn)
    ensures |t.records| == 2
  {
    var records := [tried, Record(phase, true, answer)];
    match answer
    case SocketTimeout =>
      if phase.Probe? then Done(records, Proceed) else Again(records, if phase.Tcp? then i + 2 else i + 1, answer)
    case Success =>
      if phase.Tcp? then Done(records, Proceed) else Again(records, i, answer)
    case _ => Done(records, Stop(answer))
  }

  /** A hard error is retried by the TCP loop and returned by the others. */
  function TurnOf(phase: Phase, answers: seq<SocketCode>, i: nat): (t: Turn)
    ensures |t.records| <= |answers| && (t.Again? ==> 0 < |t.records|)
  {
    if answers == [] then Done([], Starved)
    else
      var tried := Record(phase, false, answers[0]);
      if answers[0].Success? then Done([tried], Proceed)
      else if !Pending(answers[0]) then
        if phase.Tcp? then Again([tried], i + 1, answers[0]) else Done([tried], Stop(answers[0]))
      else if |answers| == 1 then Done([tried], Starved)
      else WaitTurn(phase, tried, answers[1], i)
  }

  function After(records: seq<Record>, rest: Run): Run {
    Run(records + rest.trace, rest.end)
  }

  function Loop(phase: Phase, maxRetries: nat, answers: seq<SocketCode>, i: nat, result: SocketCode): (r: Run)
    ensures |r.trace| <= |answers|
    decreases |answers|
  {
    if i >= maxRetries then Run([], if result.Success? then Proceed else Stop(result))
    else
      match TurnOf(phase, answers, i)
      case Done(records, end) => Run(records, end)
      case Again(records, i', result') => After(records, Loop(phase, maxRetries, answers[|records|..], i', result'))
  }

  // The whole call: a loop that does not proceed leaves the later ones unvisited.

  datatype Connection = Connection(tcp: seq<Record>, handshake: seq<Record>, probe: seq<Record>, outcome: Outcome)

  function OutcomeOf(end: End): Outcome {
    match end
    case Proceed => Returned(Success)
    case Stop(code) => Returned(code)
    case Starved => StillWaiting
  }

  function ConnectionOf(maxRetries: nat, answers: seq<SocketCode>): Connection {
    var tcp := Loop(Tcp, maxRetries, answers, 0, Success);
    if !tcp.end.Proceed? then Connection(tcp.trace, [], [], OutcomeOf(tcp.end))
    else
      var rest := answers[|tcp.trace|..];
      var handshake := Loop(Handshake, maxRetries, rest, 0, Success);
      if !handshake.end.Proceed? then Connection(tcp.trace, handshake.trace, [], OutcomeOf(handshake.end))
      else
        var probe := Loop(Probe, maxRetries, rest[|handshake.trace|..], 0, Success);
        Connection(tcp.trace, handshake.trace, probe.trace, OutcomeOf(probe.end))
  }

  /** After the records so far, a loop that turns again is the loop from its next turn. */
  lemma LoopTurns(phase: Phase, maxRetries: nat, answers: seq<SocketCode>, i: nat, result: SocketCode,
                  trace: seq<Record>)
    requires i < maxRetries
    ensures var turn := TurnOf(phase, answers, i);
            After(trace, Loop(phase, maxRetries, answers, i, result)) ==
            match turn
            case Done(records, end) => Run(trace + records, end)
            case Again(records, i', result') =>
              After(trace + records, Loop(phase, maxRetries, answers[|records|..], i', result'))
  {
    var turn := TurnOf(phase, answers, i);
    if turn.Again? {
      var rest := Loop(phase, maxRetries, answers[|turn.records|..], turn.i, turn.result);
      assert trace + (turn.records + rest.trace) == trace + turn.records + rest.trace;
    }
  }

  method RunTcp(maxRetries: nat, answers: seq<SocketCode>) returns (trace: seq<Record>, end: End)
    ensures Run(trace, end) == Loop(Tcp, maxRetries, answers, 0, Success)
  {
    trace := [];
    var result := Success;
    var i, rest := 0, answers;
    ghost var whole := Loop(Tcp, maxRetries, answers, 0, Success);
    while i < maxRetries
      invariant 0 <= i
      invariant whole == After(trace, Loop(Tcp, maxRetries, rest, i, result))
      decreases |rest|
    {
      if |rest| == 0 {
        return trace, Starved;
      }
      ghost var before, past, turn := rest, trace, TurnOf(Tcp, rest, i);
      LoopTurns(Tcp, maxRetries, rest, i, result, trace);
      result, rest := rest[0], rest[1..];
      trace := trace + [Record(Tcp, false, result)];
      if result.Success? {
        break;
      } else if Pending(result) {
        if |rest| == 0 {
          return trace, Starved;
        }
        result, rest := rest[0], rest[1..];
        trace := trace + [Record(Tcp, true, result)];
        assert rest == before[2..] && trace == past + [Record(Tcp, false, before[0]), Record(Tcp, true, result)];
        if result.SocketTimeout? {
          i := i + 1;
        } else if !result.Success? {
          return trace, Stop(result);
        } else {
          break;
        }
      }
      i := i + 1;
      assert turn == Again(turn.records, i, result) && trace == past + turn.records && rest == before[|turn.records|..];
    }
    return trace, if result.Success? then Proceed else Stop(result);
  }

  method RunHandshake(maxRetries: nat, answers: seq<SocketCode>) returns (trace: seq<Record>, end: End)
    ensures Run(trace, end) == Loop(Handshake, maxRetries, answers, 0, Success)
  {
    trace := [];
    var result := Success;
    var i, rest := 0, answers;
    ghost var whole := Loop(Handshake, maxRetries, answers, 0, Success);
    while i < maxRetries
      invariant 0 <= i
      invariant whole == After(trace, Loop(Handshake, maxRetries, rest, i, result))
      decreases |rest|
    {
      if |rest| == 0 {
        return trace, Starved;
      }
      ghost var before, past, turn := rest, trace, TurnOf(Handshake, rest, i);
      LoopTurns(Handshake, maxRetries, rest, i, result, trace);
      result, rest := rest[0], rest[1..];
      trace := trace + [Record(Handshake, false, result)];
      if result.Success? {
        break;
      } else if Pending(result) {
        if |rest| == 0 {
          return trace, Starved;
        }
        result, rest := rest[0], rest[1..];
        trace := trace + [Record(Handshake, true, result)];
        assert rest == before[2..]
               && trace == past + [Record(Handshake, false, before[0]), Record(Handshake, true, result)];
        if result.SocketTimeout? {
          i := i + 1;
        } else if !result.Success? {
          return trace, Stop(result);
        }
        assert turn == Again(turn.records, i, result) && trace == past + turn.records
               && rest == before[|turn.records|..];
        continue;
      } else {
        return trace, Stop(result);
      }
    }
    return trace, if result.Success? then Proceed else Stop(result);
  }

  /** The counter of this loop is never advanced. */
  method RunProbe(maxRetries: nat, answers: seq<SocketCode>) returns (trace: seq<Record>, end: End)
    ensures Run(trace, end) == Loop(Probe, maxRetries, answers, 0, Success)
  {
    trace := [];
    var result := Success;
    var i, rest := 0, answers;
    ghost var whole := Loop(Probe, maxRetries, answers, 0, Success);
    while i < maxRetries
      invariant i == 0
      invariant whole == After(trace, Loop(Probe, maxRetries, rest, i, result))
      decreases |rest|
    {
      if |rest| == 0 {
        return trace, Starved;
      }
      ghost var before, past, turn := rest, trace, TurnOf(Probe, rest, i);
      LoopTurns(Probe, maxRetries, rest, i, result, trace);
      result, rest := rest[0], rest[1..];
      trace := trace + [Record(Probe, false, result)];
      if result.Success? {
        break;
      } else if Pending(result) {
        if |rest| == 0 {
          return trace, Starved;
        }
        result, rest := rest[0], rest[1..];
        trace := trace + [Record(Probe, true, result)];
        assert rest == before[2..] && trace == past + [Record(Probe, false, before[0]), Record(Probe, true, result)];
        if result.SocketTimeout? {
          return trace, Proceed;
        } else if !result.Success? {
          return trace, Stop(result);
        }
        assert turn == Again(turn.records, i, result) && trace == past + turn.records
               && rest == before[|turn.records|..];
        continue;
      } else {
        return trace, Stop(result);
      }
    }
    return trace, if result.Success? then Proceed else Stop(result);
  }

  /** connect: the answers are those of the calls it makes, in order, for as long as the environment gives any. */
  method Connect(maxRetries: nat, answers: seq<SocketCode>) returns (c: Connection)
    ensures c == ConnectionOf(maxRetries, answers)
  {
    var tcp, end := RunTcp(maxRetries, answers);
    if !end.Proceed? {
      return Connection(tcp, [], [], OutcomeOf(end));
    }
    var rest := answers[|tcp|..];
    var handshake;
    handshake, end := RunHandshake(maxRetries, rest);
    if !end.Proceed? {
      return Connection(tcp, handshake, [], OutcomeOf(end));
    }
    var probe;
    probe, end := RunProbe(maxRetries, rest[|handshake|..]);
    c := Connection(tcp, handshake, probe, OutcomeOf(end));
  }

  // What each loop guarantees.

  /** A trace of one loop: a wait follows each pending attempt, and nothing else. */
  ghost predicate WaitsFollowPending(phase: Phase, t: seq<Record>)
    decreases |t|
  {
    t != [] ==>
      && t[0].phase == phase && !t[0].wait
      && if !Pending(t[0].answer) then WaitsFollowPending(phase, t[1..])
         else |t| > 1 ==> t[1].phase == phase && t[1].wait && WaitsFollowPending(phase, t[2..])
  }

  ghost function Attempts(t: seq<Record>): nat {
    if t == [] then 0 else (if t[0].wait then 0 else 1) + Attempts(t[1..])
  }

  ghost function Timeouts(t: seq<Record>): nat {
    if t == [] then 0 else (if t[0].wait && t[0].answer.SocketTimeout? then 1 else 0) + Timeouts(t[1..])
  }

  function Last<T>(s: seq<T>): T
    requires s != []
  {
    s[|s| - 1]
  }

  /** The answers of a trace are those the environment gave, in order. */
  ghost predicate Consumes(t: seq<Record>, answers: seq<SocketCode>) {
    |t| <= |answers| && forall j :: 0 <= j < |t| ==> t[j].answer == answers[j]
  }

  lemma {:induction false} CountsAdd(a: seq<Record>, b: seq<Record>)
    ensures Attempts(a + b) == Attempts(a) + Attempts(b) && Timeouts(a + b) == Timeouts(a) + Timeouts(b)
  {
    if a == [] {
      assert a + b == b;
    } else {
      CountsAdd(a[1..], b);
      assert (a + b)[1..] == a[1..] + b;
    }
  }

  /** A turn that goes on puts one attempt, and its wait if it was pending, before the rest. */
  lemma TurnWaits(phase: Phase, answers: seq<SocketCode>, i: nat, rest: seq<Record>)
    requires TurnOf(phase, answers, i).Again? && WaitsFollowPending(phase, rest)
    ensures WaitsFollowPending(phase, TurnOf(phase, answers, i).records + rest)
  {
    var records := TurnOf(phase, answers, i).records;
    assert (records + rest)[|records|..] == rest;
  }

  lemma ConsumesThen(a: seq<Record>, b: seq<Record>, answers: seq<SocketCode>)
    requires Consumes(a, answers) && Consumes(b, answers[|a|..])
    ensures Consumes(a + b, answers)
  {
    forall j | 0 <= j < |a + b|
      ensures (a + b)[j].answer == answers[j]
    {
      if j >= |a| { assert answers[|a|..][j - |a|] == answers[j]; }
    }
  }

  /** A loop consumes the answers in order, and all of them when it is still waiting. */
  lemma {:induction false} LoopConsumes(phase: Phase, maxRetries: nat, answers: seq<SocketCode>, i: nat,
                                        result: SocketCode)
    ensures var r := Loop(phase, maxRetries, answers, i, result);
            Consumes(r.trace, answers) && (r.end.Starved? ==> |r.trace| == |answers|)
    decreases |answers|
  {
    if i < maxRetries && TurnOf(phase, answers, i).Again? {
      var turn := TurnOf(phase, answers, i);
      LoopConsumes(phase, maxRetries, answers[|turn.records|..], turn.i, turn.result);
      ConsumesThen(turn.records, Loop(phase, maxRetries, answers[|turn.records|..], turn.i, turn.result).trace,
        answers);
    }
  }

  /** In every loop a wait follows each pending attempt, and nothing else. */
  lemma {:induction false} LoopWaits(phase: Phase, maxRetries: nat, answers: seq<SocketCode>, i: nat,
                                     result: SocketCode)
    ensures WaitsFollowPending(phase, Loop(phase, maxRetries, answers, i, result).trace)
    decreases |answers|
  {
    if i < maxRetries && TurnOf(phase, answers, i).Again? {
      var turn := TurnOf(phase, answers, i);
      LoopWaits(phase, maxRetries, answers[|turn.records|..], turn.i, turn.result);
      TurnWaits(phase, answers, i, Loop(phase, maxRetries, answers[|turn.records|..], turn.i, turn.result).trace);
    }
  }

  /** The answers after which a loop makes no further call, whatever its counter. */
  predicate Final(r: Record) {
    match r.phase
    case Tcp => r.answer.Success? || (r.wait && !r.answer.SocketTimeout?)
    case Handshake => if r.wait then !r.answer.SocketTimeout? && !r.answer.Success? else !Pending(r.answer)
    case Probe => if r.wait then !r.answer.Success? else !Pending(r.answer)
  }

  /** The answers after which the next loop is entered, or the call succeeds. */
  predicate Passes(r: Record) {
    match r.phase
    case Tcp => r.answer.Success?
    case Handshake => !r.wait && r.answer.Success?
    case Probe => if r.wait then r.answer.SocketTimeout? else r.answer.Success?
  }

  /** A loop stops at its first final answer or at the end of its retries, and its last answer says how. */
  ghost predicate EndsWell(phase: Phase, maxRetries: nat, i: nat, r: Run) {
    && (r.trace == [] ==> r.end.Starved?)
    && (forall j :: 0 <= j < |r.trace| - 1 ==> !Final(r.trace[j]))
    && (r.trace != [] ==>
          var last := Last(r.trace);
          && (Final(last) ==> !r.end.Starved?)
          && (!last.wait && Pending(last.answer) ==> r.end.Starved?)
          && (r.end.Proceed? <==> Passes(last))
          && (r.end.Stop? ==> r.end.code == last.answer && !r.end.code.Success?)
          && (!r.end.Starved? && !Final(last) ==>
                && (phase.Tcp? ==> i + Attempts(r.trace) + Timeouts(r.trace) >= maxRetries)
                && (phase.Handshake? ==> last.wait && last.answer.SocketTimeout? && i + Timeouts(r.trace) >= maxRetries)
                && !phase.Probe?))
  }

  lemma SingleCounts(r: Record)
    ensures Attempts([r]) == (if r.wait then 0 else 1)
    ensures Timeouts([r]) == (if r.wait && r.answer.SocketTimeout? then 1 else 0)
  {
  }

  lemma TurnCost(phase: Phase, answers: seq<SocketCode>, i: nat)
    ensures var t := TurnOf(phase, answers, i);
            && Attempts(t.records) <= 1 && Timeouts(t.records) <= Attempts(t.records)
            && (t.Again? ==> Attempts(t.records) == 1)
            && (t.Again? && phase.Tcp? ==> t.i == i + 1 + Timeouts(t.records))
            && (t.Again? && phase.Handshake? ==> t.i == i + Timeouts(t.records))
            && (t.Done? && !phase.Probe? ==> Timeouts(t.records) == 0)
            && (t.Again? && phase.Probe? ==> t.i == i && Timeouts(t.records) == 0)
  {
    var records := TurnOf(phase, answers, i).records;
    if records != [] { SingleCounts(records[0]); }
    if |records| == 2 {
      SingleCounts(records[1]);
      CountsAdd([records[0]], [records[1]]);
      assert records == [records[0]] + [records[1]];
    } else if |records| == 1 {
      assert records == [records[0]];
    }
  }

  /**
   * Every attempt of the TCP loop takes a retry and every timeout another one; in the handshake loop only timeouts do.
   */
  lemma {:induction false} LoopCost(phase: Phase, maxRetries: nat, answers: seq<SocketCode>, i: nat, result: SocketCode)
    requires i < maxRetries
    ensures var t := Loop(phase, maxRetries, answers, i, result).trace;
            && (phase.Tcp? ==> i + Attempts(t) <= maxRetries && i + Attempts(t) + Timeouts(t) <= maxRetries + 1)
            && (phase.Handshake? ==> i + Timeouts(t) <= maxRetries)
            && (phase.Probe? ==> Timeouts(t) <= 1)
    decreases |answers|
  {
    TurnCost(phase, answers, i);
    var turn := TurnOf(phase, answers, i);
    if turn.Again? {
      if turn.i < maxRetries {
        LoopCost(phase, maxRetries, answers[|turn.records|..], turn.i, turn.result);
      }
      CountsAdd(turn.records, Loop(phase, maxRetries, answers[|turn.records|..], turn.i, turn.result).trace);
    }
  }

  lemma TurnEndsWell(phase: Phase, maxRetries: nat, answers: seq<SocketCode>, i: nat, rest: Run)
    requires TurnOf(phase, answers, i).Again?
    requires var turn := TurnOf(phase, answers, i);
             if turn.i >= maxRetries then rest == Run([], if turn.result.Success? then Proceed else Stop(turn.result))
             else EndsWell(phase, maxRetries, turn.i, rest)
    requires i < maxRetries
    ensures EndsWell(phase, maxRetries, i, After(TurnOf(phase, answers, i).records, rest))
  {
    var turn := TurnOf(phase, answers, i);
    TurnCost(phase, answers, i);
    CountsAdd(turn.records, rest.trace);
    assert forall j :: 0 <= j < |turn.records| ==> !Final(turn.records[j]);
  }

  lemma {:induction false} LoopEndsWell(phase: Phase, maxRetries: nat, answers: seq<SocketCode>, i: nat,
                                        result: SocketCode)
    requires i < maxRetries
    ensures EndsWell(phase, maxRetries, i, Loop(phase, maxRetries, answers, i, result))
    decreases |answers|
  {
    var turn := TurnOf(phase, answers, i);
    if turn.Again? {
      if turn.i < maxRetries { LoopEndsWell(phase, maxRetries, answers[|turn.records|..], turn.i, turn.result); }
      TurnEndsWell(phase, maxRetries, answers, i,
        Loop(phase, maxRetries, answers[|turn.records|..], turn.i, turn.result));
    }
  }

  // Theorems about the whole call.

  function TraceOf(c: Connection): seq<Record> {
    c.tcp + c.handshake + c.probe
  }

  /** Where each loop of the call ran, and that it ran properly. */
  lemma LoopsOf(maxRetries: nat, answers: seq<SocketCode>) returns (tcp: Run, handshake: Run, probe: Run)
    requires maxRetries > 0
    ensures var c := ConnectionOf(maxRetries, answers);
            && tcp.trace == c.tcp && EndsWell(Tcp, maxRetries, 0, tcp)
            && (if !tcp.end.Proceed? then c == Connection(tcp.trace, [], [], OutcomeOf(tcp.end))
                else handshake.trace == c.handshake && EndsWell(Handshake, maxRetries, 0, handshake)
                     && if !handshake.end.Proceed?
                        then c == Connection(tcp.trace, handshake.trace, [], OutcomeOf(handshake.end))
                        else probe.trace == c.probe && EndsWell(Probe, maxRetries, 0, probe)
                             && c.outcome == OutcomeOf(probe.end))
  {
    tcp := Loop(Tcp, maxRetries, answers, 0, Success);
    var rest := answers[|tcp.trace|..];
    handshake := Loop(Handshake, maxRetries, rest, 0, Success);
    probe := Loop(Probe, maxRetries, rest[|handshake.trace|..], 0, Success);
    LoopEndsWell(Tcp, maxRetries, answers, 0, Success);
    LoopEndsWell(Handshake, maxRetries, rest, 0, Success);
    LoopEndsWell(Probe, maxRetries, rest[|handshake.trace|..], 0, Success);
  }

  /** The calls of connect consume the answers in order, loop after loop, and all of them while it is still waiting. */
  lemma ConnectConsumes(maxRetries: nat, answers: seq<SocketCode>)
    ensures var c := ConnectionOf(maxRetries, answers);
            Consumes(TraceOf(c), answers) && (c.outcome.StillWaiting? ==> |TraceOf(c)| == |answers|)
  {
    var c := ConnectionOf(maxRetries, answers);
    var tcp := Loop(Tcp, maxRetries, answers, 0, Success);
    LoopConsumes(Tcp, maxRetries, answers, 0, Success);
    if !tcp.end.Proceed? {
      assert TraceOf(c) == tcp.trace;
    } else {
      var rest := answers[|tcp.trace|..];
      var handshake := Loop(Handshake, maxRetries, rest, 0, Success);
      var probe := Loop(Probe, maxRetries, rest[|handshake.trace|..], 0, Success);
      LoopConsumes(Handshake, maxRetries, rest, 0, Success);
      ConsumesThen(tcp.trace, handshake.trace, answers);
      if !handshake.end.Proceed? {
        assert TraceOf(c) == tcp.trace + handshake.trace;
      } else {
        assert answers[|tcp.trace + handshake.trace|..] == rest[|handshake.trace|..];
        LoopConsumes(Probe, maxRetries, rest[|handshake.trace|..], 0, Success);
        ConsumesThen(tcp.trace + handshake.trace, probe.trace, answers);
      }
    }
  }

  lemma ConnectWaits(maxRetries: nat, answers: seq<SocketCode>)
    ensures var c := ConnectionOf(maxRetries, answers);
            WaitsFollowPending(Tcp, c.tcp) && WaitsFollowPending(Handshake, c.handshake)
              && WaitsFollowPending(Probe, c.probe)
  {
    var tcp := Loop(Tcp, maxRetries, answers, 0, Success);
    var rest := answers[|tcp.trace|..];
    var handshake := Loop(Handshake, maxRetries, rest, 0, Success);
    LoopWaits(Tcp, maxRetries, answers, 0, Success);
    LoopWaits(Handshake, maxRetries, rest, 0, Success);
    LoopWaits(Probe, maxRetries, rest[|handshake.trace|..], 0, Success);
  }

  /**
   * The last TCP answer was a success, then a handshake attempt succeeded, then a probe succeeded or waited in vain.
   */
  ghost predicate Established(c: Connection) {
    && c.tcp != [] && Last(c.tcp).answer.Success?
    && c.handshake != [] && !Last(c.handshake).wait && Last(c.handshake).answer.Success?
    && c.probe != []
       && (if Last(c.probe).wait then Last(c.probe).answer.SocketTimeout? else Last(c.probe).answer.Success?)
  }

  lemma {:induction false} PhaseOf(phase: Phase, t: seq<Record>, j: nat)
    requires WaitsFollowPending(phase, t) && j < |t|
    ensures t[j].phase == phase
    decreases |t|
  {
    if Pending(t[0].answer) {
      if j > 1 { PhaseOf(phase, t[2..], j - 2); }
    } else {
      if j > 0 { PhaseOf(phase, t[1..], j - 1); }
    }
  }

  lemma LoopPhases(maxRetries: nat, answers: seq<SocketCode>)
    ensures var c := ConnectionOf(maxRetries, answers);
            && (forall j :: 0 <= j < |c.tcp| ==> c.tcp[j].phase.Tcp?)
            && (forall j :: 0 <= j < |c.handshake| ==> c.handshake[j].phase.Handshake?)
            && (forall j :: 0 <= j < |c.probe| ==> c.probe[j].phase.Probe?)
  {
    ConnectWaits(maxRetries, answers);
    var c := ConnectionOf(maxRetries, answers);
    forall j | 0 <= j < |c.tcp| ensures c.tcp[j].phase.Tcp? { PhaseOf(Tcp, c.tcp, j); }
    forall j | 0 <= j < |c.handshake| ensures c.handshake[j].phase.Handshake? { PhaseOf(Handshake, c.handshake, j); }
    forall j | 0 <= j < |c.probe| ensures c.probe[j].phase.Probe? { PhaseOf(Probe, c.probe, j); }
  }

  /** With at least one retry, connect succeeds exactly when the connection is established. */
  lemma ConnectSucceedsIff(maxRetries: nat, answers: seq<SocketCode>)
    requires maxRetries > 0
    ensures var c := ConnectionOf(maxRetries, answers);
            c.outcome == Returned(Success) <==> Established(c)
  {
    var tcp, handshake, probe := LoopsOf(maxRetries, answers);
    LoopPhases(maxRetries, answers);
  }

  /** The result is the last answer given, unchanged, except for a probe wait that times out. */
  lemma ConnectReturnsLastAnswer(maxRetries: nat, answers: seq<SocketCode>)
    requires maxRetries > 0 && ConnectionOf(maxRetries, answers).outcome.Returned?
    ensures var c := ConnectionOf(maxRetries, answers);
            && TraceOf(c) != []
            && c.outcome.code == if c.probe != [] && Last(c.probe).wait && Last(c.probe).answer.SocketTimeout?
               then Success
                                 else Last(TraceOf(c)).answer
  {
    var tcp, handshake, probe := LoopsOf(maxRetries, answers);
    LoopPhases(maxRetries, answers);
  }

  lemma HardErrorEnds(maxRetries: nat, run: Run, r: Record)
    requires r in run.trace && !r.phase.Tcp? && EndsWell(r.phase, maxRetries, 0, run)
    requires !r.wait && !r.answer.Success? && !Pending(r.answer)
    ensures run.end == Stop(r.answer) && Last(run.trace) == r
  {
    var j :| 0 <= j < |run.trace| && run.trace[j] == r;
    assert Final(run.trace[j]);
  }

  /** A hard error of a handshake or probe attempt ends the call with that error. */
  lemma HardErrorIsReturned(maxRetries: nat, answers: seq<SocketCode>, r: Record)
    requires maxRetries > 0 && !r.wait && !r.answer.Success? && !Pending(r.answer)
    requires r in ConnectionOf(maxRetries, answers).handshake || r in ConnectionOf(maxRetries, answers).probe
    ensures ConnectionOf(maxRetries, answers).outcome == Returned(r.answer)
    ensures r == Last(TraceOf(ConnectionOf(maxRetries, answers)))
  {
    var tcp, handshake, probe := LoopsOf(maxRetries, answers);
    LoopPhases(maxRetries, answers);
    HardErrorEnds(maxRetries, if r.phase.Handshake? then handshake else probe, r);
  }

  /** The two codes that ask to wait, by name. */
  predicate AsksToWait(c: SocketCode) {
    c == ConnectionInProgress || c == ConnectionNeedToBeBlocked
  }

  lemma {:induction false} WaitFollows(phase: Phase, t: seq<Record>, j: nat)
    requires WaitsFollowPending(phase, t) && j < |t|
    ensures t[j].wait <==> j > 0 && !t[j - 1].wait && AsksToWait(t[j - 1].answer)
    decreases |t|
  {
    if Pending(t[0].answer) {
      if j > 1 {
        WaitFollows(phase, t[2..], j - 2);
        assert t[2..][j - 2] == t[j] && (j > 2 ==> t[2..][j - 3] == t[j - 1]);
      }
    } else if j > 0 {
      WaitFollows(phase, t[1..], j - 1);
      assert t[1..][j - 1] == t[j] && (j > 1 ==> t[1..][j - 2] == t[j - 1]);
    }
  }

  lemma PendingIsWaitedFor(maxRetries: nat, answers: seq<SocketCode>)
    requires maxRetries > 0 && ConnectionOf(maxRetries, answers).outcome.Returned?
    ensures var c := ConnectionOf(maxRetries, answers);
            AsksToWait(c.outcome.code) ==> TraceOf(c) != [] && Last(TraceOf(c)).wait
  {
    var tcp, handshake, probe := LoopsOf(maxRetries, answers);
    LoopPhases(maxRetries, answers);
  }

  /**
   * In-progress and need-to-be-blocked are never the result of an attempt: in every loop a call is a wait exactly when
   * the one before it was an attempt that answered one of the two, so the result of connect is one of them only when
   * a wait itself answers it.
   */
  lemma AskingToWaitIsNotReturned(maxRetries: nat, answers: seq<SocketCode>)
    requires maxRetries > 0
    ensures var c := ConnectionOf(maxRetries, answers);
            && (forall j :: 0 <= j < |c.tcp| ==>
                  (c.tcp[j].wait <==> j > 0 && !c.tcp[j - 1].wait && AsksToWait(c.tcp[j - 1].answer)))
            && (forall j :: 0 <= j < |c.handshake| ==>
                  (c.handshake[j].wait <==> j > 0 && !c.handshake[j - 1].wait && AsksToWait(c.handshake[j - 1].answer)))
            && (forall j :: 0 <= j < |c.probe| ==>
                  (c.probe[j].wait <==> j > 0 && !c.probe[j - 1].wait && AsksToWait(c.probe[j - 1].answer)))
            && (c.outcome.Returned? && AsksToWait(c.outcome.code) ==> TraceOf(c) != [] && Last(TraceOf(c)).wait)
  {
    ConnectWaits(maxRetries, answers);
    var c := ConnectionOf(maxRetries, answers);
    forall j | 0 <= j < |c.tcp|
      ensures c.tcp[j].wait <==> j > 0 && !c.tcp[j - 1].wait && AsksToWait(c.tcp[j - 1].answer)
    {
      WaitFollows(Tcp, c.tcp, j);
    }
    forall j | 0 <= j < |c.handshake|
      ensures c.handshake[j].wait <==> j > 0 && !c.handshake[j - 1].wait && AsksToWait(c.handshake[j - 1].answer)
    {
      WaitFollows(Handshake, c.handshake, j);
    }
    forall j | 0 <= j < |c.probe|
      ensures c.probe[j].wait <==> j > 0 && !c.probe[j - 1].wait && AsksToWait(c.probe[j - 1].answer)
    {
      WaitFollows(Probe, c.probe, j);
    }
    if c.outcome.Returned? { PendingIsWaitedFor(maxRetries, answers); }
  }

  /** The retries bound the TCP attempts, and the timeouts of every loop. */
  lemma ConnectIsBounded(maxRetries: nat, answers: seq<SocketCode>)
    ensures var c := ConnectionOf(maxRetries, answers);
            && Attempts(c.tcp) <= maxRetries && Attempts(c.tcp) + Timeouts(c.tcp) <= maxRetries + 1
            && Timeouts(c.handshake) <= maxRetries && Timeouts(c.probe) <= 1
  {
    if maxRetries > 0 {
      var tcp := Loop(Tcp, maxRetries, answers, 0, Success);
      var rest := answers[|tcp.trace|..];
      var handshake := Loop(Handshake, maxRetries, rest, 0, Success);
      LoopCost(Tcp, maxRetries, answers, 0, Success);
      LoopCost(Handshake, maxRetries, rest, 0, Success);
      LoopCost(Probe, maxRetries, rest[|handshake.trace|..], 0, Success);
    }
  }

  /** An answer of a TCP attempt that is retried at once: neither a success nor pending. */
  predicate RetriedAtOnce(c: SocketCode) {
    !c.Success? && !Pending(c)
  }

  lemma {:induction false} TcpAttempts(maxRetries: nat, answers: seq<SocketCode>, i: nat, result: SocketCode)
    requires i < maxRetries
    ensures Attempts(Loop(Tcp, maxRetries, answers, i, result).trace) + i == maxRetries
            <==> |answers| >= maxRetries - i && forall j :: 0 <= j < maxRetries - i - 1 ==> RetriedAtOnce(answers[j])
    decreases |answers|
  {
    var turn := TurnOf(Tcp, answers, i);
    var rest := answers[|turn.records|..];
    TurnCost(Tcp, answers, i);
    if turn.Again? {
      CountsAdd(turn.records, Loop(Tcp, maxRetries, rest, turn.i, turn.result).trace);
      if turn.i < maxRetries {
        TcpAttempts(maxRetries, rest, turn.i, turn.result);
        LoopCost(Tcp, maxRetries, rest, turn.i, turn.result);
        if turn.i == i + 1 { assert forall j :: 0 <= j < |rest| ==> rest[j] == answers[j + 1]; }
      }
    }
  }

  /** connect makes all the TCP attempts it is configured for exactly when every attempt but the last fails hard. */
  lemma AllAttemptsMadeIff(maxRetries: nat, answers: seq<SocketCode>)
    requires maxRetries > 0
    ensures Attempts(ConnectionOf(maxRetries, answers).tcp) == maxRetries
            <==> |answers| >= maxRetries && forall j :: 0 <= j < maxRetries - 1 ==> RetriedAtOnce(answers[j])
  {
    TcpAttempts(maxRetries, answers, 0, Success);
  }

  /** With its default of three retries connect gives up after two attempts when both wait in vain. */
  lemma ThreeRetriesTwoAttempts()
    ensures var c := ConnectionOf(3, [ConnectionInProgress, SocketTimeout, ConnectionInProgress, SocketTimeout]);
            c.outcome == Returned(SocketTimeout) && Attempts(c.tcp) == 2
  {
    var late := [ConnectionInProgress, SocketTimeout];
    var answers := late + late;
    assert answers == [ConnectionInProgress, SocketTimeout, ConnectionInProgress, SocketTimeout];
    assert answers[2..] == late && late[2..] == [];
    var waited := [Record(Tcp, false, ConnectionInProgress), Record(Tcp, true, SocketTimeout)];
    assert Loop(Tcp, 3, late, 2, SocketTimeout) == Run(waited, Stop(SocketTimeout));
    assert Loop(Tcp, 3, answers, 0, Success) == Run(waited + waited, Stop(SocketTimeout));
    TurnCost(Tcp, late, 2);
    CountsAdd(waited, waited);
  }

  /**
   * When the TCP loop gives up for lack of retries, attempts and timeouts together are the retries, or one more
   * exactly when the loop ends on a timeout that only one retry was left for.
   */
  lemma {:induction false} GivingUpCosts(maxRetries: nat, answers: seq<SocketCode>, i: nat, result: SocketCode)
    requires i < maxRetries
    requires var r := Loop(Tcp, maxRetries, answers, i, result);
             r.end.Stop? && r.trace != [] && !Final(Last(r.trace))
    ensures var t := Loop(Tcp, maxRetries, answers, i, result).trace;
            && (i + Attempts(t) + Timeouts(t) == maxRetries || i + Attempts(t) + Timeouts(t) == maxRetries + 1)
            && (i + Attempts(t) + Timeouts(t) == maxRetries + 1 ==> Last(t).wait && Last(t).answer.SocketTimeout?)
    decreases |answers|
  {
    var turn := TurnOf(Tcp, answers, i);
    TurnCost(Tcp, answers, i);
    if turn.Again? {
      var rest := Loop(Tcp, maxRetries, answers[|turn.records|..], turn.i, turn.result);
      CountsAdd(turn.records, rest.trace);
      if turn.i < maxRetries {
        LoopEndsWell(Tcp, maxRetries, answers[|turn.records|..], turn.i, turn.result);
        GivingUpCosts(maxRetries, answers[|turn.records|..], turn.i, turn.result);
      }
    }
  }

  lemma LastTimeoutCounts(t: seq<Record>)
    requires t != []
    ensures Last(t).wait && Last(t).answer.SocketTimeout? ==> Timeouts(t) > 0
  {
    CountsAdd(t[..|t| - 1], [Last(t)]);
    SingleCounts(Last(t));
    assert t == t[..|t| - 1] + [Last(t)];
  }

  /**
   * The price of giving up: attempts plus timeouts are max_retries, or one more with the timed-out wait last. So all
   * the attempts are made exactly when no wait timed out, or only the last one did and took the extra retry.
   */
  lemma GivingUp(maxRetries: nat, answers: seq<SocketCode>)
    requires maxRetries > 0
    requires var c := ConnectionOf(maxRetries, answers);
             c.outcome.Returned? && c.tcp != [] && !Final(Last(c.tcp))
    ensures var t := ConnectionOf(maxRetries, answers).tcp;
            var spent := Attempts(t) + Timeouts(t);
            && (spent == maxRetries || (spent == maxRetries + 1 && Last(t).wait && Last(t).answer.SocketTimeout?))
            && (Attempts(t) == maxRetries <==> Timeouts(t) == 0 || (Timeouts(t) == 1 && spent == maxRetries + 1))
            && (Timeouts(t) == Attempts(t) ==> Attempts(t) == (maxRetries + 1) / 2)
  {
    var tcp, handshake, probe := LoopsOf(maxRetries, answers);
    LoopPhases(maxRetries, answers);
    GivingUpCosts(maxRetries, answers, 0, Success);
    LastTimeoutCounts(ConnectionOf(maxRetries, answers).tcp);
  }

  /** A success always stands for an established connection exactly when at least one retry is configured. */
  lemma SuccessMeansConnectedIff(maxRetries: nat)
    ensures (forall answers ::
               ConnectionOf(maxRetries, answers).outcome == Returned(Success) ==>
                 Established(ConnectionOf(maxRetries, answers)))
            <==> maxRetries > 0
  {
    if maxRetries == 0 {
      assert ConnectionOf(0, []).outcome == Returned(Success) && ConnectionOf(0, []).tcp == [];
    } else {
      forall answers | ConnectionOf(maxRetries, answers).outcome == Returned(Success)
        ensures Established(ConnectionOf(maxRetries, answers))
      {
        ConnectSucceedsIff(maxRetries, answers);
      }
    }
  }
}
