/** The steps of one thread, with whatever the other threads do in between, as runs of the broadcast server. */
module BroadcastThreads {
  import opened BroadcastProtocol
  import opened BroadcastHolders
  import opened BroadcastSafety
  import opened BroadcastRuns

  /** The monitor thread, or a thread that calls dropAll. */
  datatype Thread = MonitorThread | DropThread(t: ThreadId)

  /** The step is taken by this thread; inside the critical section that is the holder of the client mutex. */
  predicate Takes(s: State, thread: Thread, e: Step) {
    match thread
    case MonitorThread => e.ByMonitor?
    case DropThread(t) =>
      e.ByCaller? &&
      match e.c
      case Swap(u) => u == t
      case RemoveNext => s.section.Detaching? && s.section.t == t
      case HandOff => s.section.Detaching? && s.section.t == t
      case CloseNext(u) => u == t
      case CallbackNext(u) => u == t
      case ReturnFromDropAll(u) => u == t
      case _ => false
  }

  /** None of the steps is taken by this thread. */
  ghost predicate ByOthers(s: State, thread: Thread, others: seq<Step>)
    requires CanRun(s, others)
    decreases others
  {
    others == [] || (!Takes(s, thread, others[0]) && ByOthers(Next(s, others[0]), thread, others[1..]))
  }

  /** One turn of a thread: the other threads run, then it takes a step. */
  datatype Turn = Turn(others: seq<Step>, own: Step)

  ghost predicate TurnFits(s: State, thread: Thread, turn: Turn) {
    && CanRun(s, turn.others) && ByOthers(s, thread, turn.others)
    && Enabled(After(s, turn.others), turn.own) && Takes(After(s, turn.others), thread, turn.own)
  }

  ghost function AfterTurn(s: State, thread: Thread, turn: Turn): State
    requires TurnFits(s, thread, turn)
  {
    Next(After(s, turn.others), turn.own)
  }

  ghost predicate Follows(s: State, thread: Thread, schedule: seq<Turn>)
    decreases schedule
  {
    schedule == []
      || (TurnFits(s, thread, schedule[0]) && Follows(AfterTurn(s, thread, schedule[0]), thread, schedule[1..]))
  }

  ghost function Finish(s: State, thread: Thread, schedule: seq<Turn>): State
    requires Follows(s, thread, schedule)
    decreases schedule
  {
    if schedule == [] then s else Finish(AfterTurn(s, thread, schedule[0]), thread, schedule[1..])
  }

  /** All the steps of a schedule, in order. */
  function StepsOf(schedule: seq<Turn>): seq<Step> {
    if schedule == [] then [] else schedule[0].others + ([schedule[0].own] + StepsOf(schedule[1..]))
  }

  lemma {:induction false} RunThen(s: State, a: seq<Step>, b: seq<Step>)
    requires CanRun(s, a) && CanRun(After(s, a), b)
    ensures CanRun(s, a + b) && After(s, a + b) == After(After(s, a), b)
    decreases a
  {
    if a == [] {
      assert a + b == b;
    } else {
      assert (a + b)[0] == a[0] && (a + b)[1..] == a[1..] + b;
      RunThen(Next(s, a[0]), a[1..], b);
    }
  }

  /** A schedule of one thread is a run of the whole server, so the theorems about every session hold of it. */
  lemma {:induction false} ScheduleIsARun(s: State, thread: Thread, schedule: seq<Turn>)
    requires Follows(s, thread, schedule)
    ensures CanRun(s, StepsOf(schedule)) && After(s, StepsOf(schedule)) == Finish(s, thread, schedule)
    decreases schedule
  {
    if schedule != [] {
      var turn, rest := schedule[0], StepsOf(schedule[1..]);
      ScheduleIsARun(AfterTurn(s, thread, turn), thread, schedule[1..]);
      assert ([turn.own] + rest)[1..] == rest;
      RunThen(s, turn.others, [turn.own] + rest);
    }
  }

  lemma OtherThenOthers(s: State, thread: Thread, e: Step, others: seq<Step>)
    requires Enabled(s, e) && !Takes(s, thread, e) && CanRun(Next(s, e), others) && ByOthers(Next(s, e), thread, others)
    ensures CanRun(s, [e] + others) && ByOthers(s, thread, [e] + others)
            && After(s, [e] + others) == After(Next(s, e), others)
  {
    assert ([e] + others)[1..] == others;
  }

  /** The schedule with one more step of another thread before its first turn. */
  function Delayed(e: Step, schedule: seq<Turn>): seq<Turn>
    requires schedule != []
  {
    [Turn([e] + schedule[0].others, schedule[0].own)] + schedule[1..]
  }

  lemma DelayedSteps(e: Step, schedule: seq<Turn>)
    requires schedule != []
    ensures StepsOf(Delayed(e, schedule)) == [e] + StepsOf(schedule)
  {
    assert Delayed(e, schedule)[1..] == schedule[1..];
    var others, rest := schedule[0].others, [schedule[0].own] + StepsOf(schedule[1..]);
    assert [e] + others + rest == [e] + (others + rest);
  }

  lemma DelayedTurn(s: State, thread: Thread, e: Step, turn: Turn)
    requires Enabled(s, e) && !Takes(s, thread, e) && TurnFits(Next(s, e), thread, turn)
    ensures TurnFits(s, thread, Turn([e] + turn.others, turn.own))
    ensures AfterTurn(s, thread, Turn([e] + turn.others, turn.own)) == AfterTurn(Next(s, e), thread, turn)
  {
    OtherThenOthers(s, thread, e, turn.others);
  }

  lemma OtherStepFirst(s: State, thread: Thread, e: Step, schedule: seq<Turn>)
    requires Enabled(s, e) && !Takes(s, thread, e) && schedule != [] && Follows(Next(s, e), thread, schedule)
    ensures Follows(s, thread, Delayed(e, schedule))
    ensures Finish(s, thread, Delayed(e, schedule)) == Finish(Next(s, e), thread, schedule)
    ensures StepsOf(Delayed(e, schedule)) == [e] + StepsOf(schedule)
  {
    DelayedTurn(s, thread, e, schedule[0]);
    DelayedSteps(e, schedule);
    assert Delayed(e, schedule)[1..] == schedule[1..];
  }

  lemma OwnStepFirst(s: State, thread: Thread, e: Step, schedule: seq<Turn>)
    requires Enabled(s, e) && Takes(s, thread, e) && Follows(Next(s, e), thread, schedule)
    ensures var longer := [Turn([], e)] + schedule;
            && Follows(s, thread, longer) && Finish(s, thread, longer) == Finish(Next(s, e), thread, schedule)
            && StepsOf(longer) == [e] + StepsOf(schedule)
  {
    var longer := [Turn([], e)] + schedule;
    assert longer[1..] == schedule;
  }

  /** A step in front of a schedule, when it is the thread's own or the schedule has a turn to put it into. */
  lemma StepBeforeTurns(s: State, thread: Thread, e: Step, schedule: seq<Turn>, tail: seq<Step>)
    returns (longer: seq<Turn>, later: seq<Step>)
    requires Enabled(s, e) && Follows(Next(s, e), thread, schedule) && (Takes(s, thread, e) || schedule != [])
    ensures Follows(s, thread, longer) && Finish(s, thread, longer) == Finish(Next(s, e), thread, schedule)
    ensures later == tail && StepsOf(longer) + later == [e] + (StepsOf(schedule) + tail)
  {
    later := tail;
    if Takes(s, thread, e) {
      OwnStepFirst(s, thread, e, schedule);
      longer := [Turn([], e)] + schedule;
    } else {
      OtherStepFirst(s, thread, e, schedule);
      longer := Delayed(e, schedule);
    }
    assert [e] + StepsOf(schedule) + tail == [e] + (StepsOf(schedule) + tail);
  }

  lemma StepFirst(s: State, thread: Thread, e: Step, schedule: seq<Turn>, tail: seq<Step>)
    returns (longer: seq<Turn>, later: seq<Step>)
    requires Enabled(s, e) && Follows(Next(s, e), thread, schedule)
    requires CanRun(Finish(Next(s, e), thread, schedule), tail)
             && ByOthers(Finish(Next(s, e), thread, schedule), thread, tail)
    ensures Follows(s, thread, longer)
    ensures CanRun(Finish(s, thread, longer), later) && ByOthers(Finish(s, thread, longer), thread, later)
    ensures StepsOf(longer) + later == [e] + (StepsOf(schedule) + tail)
  {
    if Takes(s, thread, e) || schedule != [] {
      longer, later := StepBeforeTurns(s, thread, e, schedule, tail);
    } else {
      OtherThenOthers(s, thread, e, tail);
      longer, later := [], [e] + tail;
      assert StepsOf(longer) + later == later && StepsOf(schedule) + tail == tail;
    }
  }

  /** And every run is such a schedule, followed by steps the thread takes no part in. */
  lemma {:induction false} RunIsASchedule(s: State, thread: Thread, steps: seq<Step>)
    returns (schedule: seq<Turn>, tail: seq<Step>)
    requires CanRun(s, steps)
    ensures Follows(s, thread, schedule) && steps == StepsOf(schedule) + tail
    ensures CanRun(Finish(s, thread, schedule), tail) && ByOthers(Finish(s, thread, schedule), thread, tail)
    decreases steps
  {
    if steps == [] {
      schedule, tail := [], [];
    } else {
      schedule, tail := RunIsASchedule(Next(s, steps[0]), thread, steps[1..]);
      schedule, tail := StepFirst(s, thread, steps[0], schedule, tail);
      assert steps == [steps[0]] + steps[1..];
    }
  }

  lemma FinishKeepsInv(s: State, thread: Thread, schedule: seq<Turn>)
    requires Inv(s) && Follows(s, thread, schedule)
    ensures Inv(Finish(s, thread, schedule))
  {
    ScheduleIsARun(s, thread, schedule);
    RunKeepsInv(s, StepsOf(schedule));
  }

  // What a thread holds on its stack is left alone by the others.

  /** Callers never move the monitor; only close takes it, after it has exited. */
  lemma {:induction false} OthersKeepMonitor(s: State, others: seq<Step>)
    requires CanRun(s, others) && ByOthers(s, MonitorThread, others)
    ensures After(s, others).monitor == s.monitor || After(s, others).monitor.Joined?
    decreases others
  {
    if others != [] {
      OthersKeepMonitor(Next(s, others[0]), others[1..]);
      if others[0] != ByCaller(CloseRest) { CallerKeepsMonitor(s, others[0].c); }
    }
  }

  /** The program text of the monitor: which section can come where it stands. */
  predicate ComesNext(monitor: Monitor, m: MonitorStep) {
    match monitor
    case LoopTop => m.Enter?
    case Entering => m.Clear?
    case Cleared => m.Snapshot?
    case Polling(_) => m.Poll?
    case Dispatching(rest) =>
      if rest == [] then m.EndBatch?
      else if rest[0].kind.Accept? then m.AcceptFails? || m.AcceptClient?
      else if rest[0].kind.Disconnected? then m.Unregister?
      else m.Ignore?
    case Accepted(_, _) => m.Register?
    case Registering(_, _) => m.Push?
    case Announcing(_, _) => m.ConnectCallback?
    case Removed(_, _) => m.Erase?
    case Erased(_, _) => m.CloseClient?
    case Closing(_, _) => m.DisconnectCallback?
    case Exited => false
    case Joined => false
  }

  lemma EnabledComesNext(s: State, m: MonitorStep)
    requires MonitorEnabled(s, m)
    ensures ComesNext(s.monitor, m)
  {
  }

  /** At its turn the monitor stands where it stood, and takes the section its program has there. */
  lemma MonitorStands(s: State, turn: Turn)
    requires TurnFits(s, MonitorThread, turn)
    ensures After(s, turn.others).monitor == s.monitor && turn.own.ByMonitor? && ComesNext(s.monitor, turn.own.m)
  {
    OthersKeepMonitor(s, turn.others);
    EnabledComesNext(After(s, turn.others), turn.own.m);
  }

  lemma ExitedTakesNoTurn(s: State, turn: Turn)
    requires s.monitor.Exited?
    ensures !TurnFits(s, MonitorThread, turn)
  {
    if TurnFits(s, MonitorThread, turn) { MonitorStands(s, turn); }
  }

  /** The event at the head of a batch has its context when its turn comes. */
  lemma HeadHasEntry(s: State, turn: Turn)
    requires TurnFits(s, MonitorThread, turn) && s.monitor.Dispatching? && s.monitor.rest != []
    ensures s.monitor.rest[0].entry.Some?
  {
    MonitorStands(s, turn);
  }

  /** Where a dropAll stands: outside, inside its critical section, or closing and reporting its clients. */
  datatype Stand = Outside | Inside(all: seq<ClientId>, removed: nat) | Notifying(n: Notify)

  function StandOf(s: State, t: ThreadId): Stand {
    if s.section.Detaching? && s.section.t == t then Inside(s.section.all, s.section.removed)
    else if t in s.notifying then Notifying(s.notifying[t])
    else Outside
  }

  /** A thread is not in two places of dropAll at once. */
  predicate StandsOnce(s: State, t: ThreadId) {
    s.section.Detaching? && s.section.t == t ==> t !in s.notifying
  }

  /** The program text of dropAll. */
  predicate DropComesNext(stand: Stand, t: ThreadId, c: CallerStep) {
    match stand
    case Outside => c == Swap(t)
    case Inside(all, removed) => if removed < |all| then c == RemoveNext else c == HandOff
    case Notifying(n) =>
      if n.rest == [] then c == ReturnFromDropAll(t) else if n.headClosed then c == CallbackNext(t)
         else c == CloseNext(t)
  }

  lemma MonitorKeepsSection(s: State, m: MonitorStep)
    requires MonitorEnabled(s, m)
    ensures MonitorNext(s, m).section == s.section && MonitorNext(s, m).notifying == s.notifying
  {
  }

  lemma CallerKeepsStand(s: State, t: ThreadId, c: CallerStep)
    requires CallerEnabled(s, c) && !Takes(s, DropThread(t), ByCaller(c)) && StandsOnce(s, t)
    ensures StandOf(CallerNext(s, c), t) == StandOf(s, t) && StandsOnce(CallerNext(s, c), t)
  {
    match c
    case Swap(u) => case RemoveNext => case HandOff => case CloseNext(u) => case CallbackNext(u) =>
    case ReturnFromDropAll(u) => case SnapshotForWrite(u) => case ReturnFromWrite(u) =>
    case StopMonitoring => case CloseRest =>
  }

  lemma OtherKeepsStand(s: State, t: ThreadId, e: Step)
    requires Enabled(s, e) && !Takes(s, DropThread(t), e) && StandsOnce(s, t)
    ensures StandOf(Next(s, e), t) == StandOf(s, t) && StandsOnce(Next(s, e), t)
  {
    match e
    case ByMonitor(m) => MonitorKeepsSection(s, m);
    case ByCaller(c) => CallerKeepsStand(s, t, c);
  }

  lemma {:induction false} OthersKeepStand(s: State, t: ThreadId, others: seq<Step>)
    requires CanRun(s, others) && ByOthers(s, DropThread(t), others) && StandsOnce(s, t)
    ensures StandOf(After(s, others), t) == StandOf(s, t) && StandsOnce(After(s, others), t)
    decreases others
  {
    if others != [] {
      OtherKeepsStand(s, t, others[0]);
      OthersKeepStand(Next(s, others[0]), t, others[1..]);
    }
  }

  lemma OwnStepKeepsStandsOnce(s: State, t: ThreadId, c: CallerStep)
    requires CallerEnabled(s, c) && Takes(s, DropThread(t), ByCaller(c)) && StandsOnce(s, t)
    ensures DropComesNext(StandOf(s, t), t, c) && StandsOnce(CallerNext(s, c), t)
  {
  }

  /** At its turn a dropAll stands where it stood, and takes the section its program has there. */
  lemma DropStands(s: State, t: ThreadId, turn: Turn)
    requires TurnFits(s, DropThread(t), turn) && StandsOnce(s, t)
    ensures var s' := After(s, turn.others);
            && StandOf(s', t) == StandOf(s, t) && turn.own.ByCaller? && DropComesNext(StandOf(s, t), t, turn.own.c)
            && StandsOnce(CallerNext(s', turn.own.c), t)
  {
    OthersKeepStand(s, t, turn.others);
    OwnStepKeepsStandsOnce(After(s, turn.others), t, turn.own.c);
  }

  lemma {:induction false} RunSplits(s: State, steps: seq<Step>, last: Step)
    requires CanRun(s, steps + [last])
    ensures CanRun(s, steps) && Enabled(After(s, steps), last)
            && After(s, steps + [last]) == Next(After(s, steps), last)
    decreases steps
  {
    if steps == [] {
      assert steps + [last] == [last] && [last][1..] == [];
    } else {
      assert (steps + [last])[0] == steps[0] && (steps + [last])[1..] == steps[1..] + [last];
      RunSplits(Next(s, steps[0]), steps[1..], last);
    }
  }

  /** The three parts of close. */
  lemma CloseRuns(s: State, others: seq<Step>)
    requires CanRun(s, [ByCaller(StopMonitoring)] + others + [ByCaller(CloseRest)])
    ensures var stopped := CallerNext(s, StopMonitoring);
            && CanRun(stopped, others) && CallerEnabled(After(stopped, others), CloseRest)
            && After(s, [ByCaller(StopMonitoring)] + others + [ByCaller(CloseRest)])
               == CallerNext(After(stopped, others), CloseRest)
  {
    var steps := [ByCaller(StopMonitoring)] + others + [ByCaller(CloseRest)];
    assert steps[0] == ByCaller(StopMonitoring) && steps[1..] == others + [ByCaller(CloseRest)];
    RunSplits(CallerNext(s, StopMonitoring), others, ByCaller(CloseRest));
  }

  lemma JoinedClosedAll(s: State)
    requires Inv(s) && s.monitor.Joined?
    ensures forall id :: id in s.fds ==> s.closes[id] == 1
  {
    forall id | id in s.fds
      ensures s.closes[id] == 1
    {
      assert CountsAgree(s, id);
    }
  }
}
