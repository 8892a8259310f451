/** When the monitor runs, what it polls, which events it handles, and what it keeps for the next round. */
module BroadcastRounds {
  import opened Sockets
  import opened EventListener
  import opened BroadcastProtocol
  import opened BroadcastSafety
  import opened BroadcastRuns
  import opened BroadcastOutcomes
  import opened BroadcastThreads
  import opened BroadcastAlignment

  // What a step leaves alone.

  lemma MonitorFrame(s: State, m: MonitorStep)
    requires MonitorEnabled(s, m)
    ensures MonitorNext(s, m).monitoring == s.monitoring && MonitorNext(s, m).writing == s.writing
    ensures MonitorNext(s, m).pending == if m.Clear? then [] else s.pending
  {
  }

  lemma CallerFrame(s: State, c: CallerStep)
    requires CallerEnabled(s, c)
    ensures CallerNext(s, c).monitor == if c.CloseRest? then Joined else s.monitor
    ensures c.CloseRest? ==> s.monitor.Exited? && !s.monitoring
    ensures CallerNext(s, c).monitoring == (s.monitoring && !c.StopMonitoring?)
  {
  }

  lemma CallerPending(s: State, c: CallerStep)
    requires CallerEnabled(s, c)
    ensures CallerNext(s, c).pending ==
            if c.CloseRest? then [] else if c.HandOff? then s.pending + s.section.all else s.pending
  {
  }

  // Leaving the loop.

  lemma MonitorExitsIff(s: State, m: MonitorStep)
    requires MonitorEnabled(s, m)
    ensures !s.monitor.Exited? && !s.monitor.Joined? && !MonitorNext(s, m).monitor.Joined?
    ensures MonitorNext(s, m).monitor.Exited? <==> m == Poll(Failure) || (m == Enter && !s.monitoring)
  {
  }

  /** The monitor leaves its loop exactly when a poll fails, or when it finds monitoring off at the top. */
  lemma ExitsIff(s: State, e: Step)
    requires Enabled(s, e) && !s.monitor.Exited?
    ensures Next(s, e).monitor.Exited? <==> e == ByMonitor(Poll(Failure)) || (e == ByMonitor(Enter) && !s.monitoring)
  {
    match e
    case ByMonitor(m) => MonitorExitsIff(s, m);
    case ByCaller(c) => CallerFrame(s, c);
  }

  /** Monitoring goes off at a stop, and nothing else changes it. */
  lemma MonitoringStopsIff(s: State, e: Step)
    requires Enabled(s, e)
    ensures Next(s, e).monitoring <==> s.monitoring && e != ByCaller(StopMonitoring)
  {
    match e
    case ByMonitor(m) => MonitorFrame(s, m);
    case ByCaller(c) => CallerFrame(s, c);
  }

  lemma {:induction false} MonitoringWasOn(s: State, steps: seq<Step>)
    requires CanRun(s, steps)
    ensures After(s, steps).monitoring <==> s.monitoring && ByCaller(StopMonitoring) !in steps
    decreases steps
  {
    if steps != [] {
      MonitoringStopsIff(s, steps[0]);
      MonitoringWasOn(Next(s, steps[0]), steps[1..]);
      assert steps == [steps[0]] + steps[1..];
    }
  }

  lemma ExitedStays(s: State, e: Step)
    requires Enabled(s, e) && s.monitoring
    ensures s.monitor.Exited? ==> Next(s, e).monitor.Exited?
    ensures Next(s, e).monitor.Joined? ==> s.monitor.Joined?
  {
    match e
    case ByMonitor(m) => MonitorExitsIff(s, m);
    case ByCaller(c) => CallerFrame(s, c);
  }

  lemma {:induction false} RunExitsIff(s: State, steps: seq<Step>)
    requires CanRun(s, steps) && After(s, steps).monitoring && !s.monitor.Joined?
    ensures After(s, steps).monitor.Exited? <==> s.monitor.Exited? || ByMonitor(Poll(Failure)) in steps
    ensures !After(s, steps).monitor.Joined?
    decreases steps
  {
    if steps != [] {
      var next := Next(s, steps[0]);
      MonitoringWasOn(s, steps);
      ExitedStays(s, steps[0]);
      if !s.monitor.Exited? { ExitsIff(s, steps[0]); }
      RunExitsIff(next, steps[1..]);
      assert steps == [steps[0]] + steps[1..];
    }
  }

  /** While the server is monitoring, its monitor thread has exited exactly when some poll has failed. */
  lemma MonitorStaysUp(serverFd: int, steps: seq<Step>)
    requires CanRun(Init(serverFd), steps) && ByCaller(StopMonitoring) !in steps
    ensures After(Init(serverFd), steps).monitor.Exited? <==> ByMonitor(Poll(Failure)) in steps
  {
    MonitoringWasOn(Init(serverFd), steps);
    RunExitsIff(Init(serverFd), steps);
  }

  ghost function Snapshots(steps: seq<Step>): nat {
    if steps == [] then 0 else (if steps[0] == ByMonitor(Snapshot) then 1 else 0) + Snapshots(steps[1..])
  }

  /** Whether the monitor is already past its test of the flag and still before its snapshot. */
  function SnapshotsLeft(monitor: Monitor): nat {
    if monitor.Entering? || monitor.Cleared? then 1 else 0
  }

  lemma StoppedMonitorStep(s: State, m: MonitorStep)
    requires MonitorEnabled(s, m) && !s.monitoring
    ensures (if m.Snapshot? then 1 else 0) + SnapshotsLeft(MonitorNext(s, m).monitor) <= SnapshotsLeft(s.monitor)
  {
  }

  /** After monitoring is stopped the monitor takes at most the one snapshot it was already about to take. */
  lemma {:induction false} StopEndsPolling(s: State, steps: seq<Step>)
    requires CanRun(s, steps) && !s.monitoring
    ensures Snapshots(steps) <= SnapshotsLeft(s.monitor)
    decreases steps
  {
    if steps != [] {
      MonitoringStopsIff(s, steps[0]);
      match steps[0] {
        case ByMonitor(m) => StoppedMonitorStep(s, m);
        case ByCaller(c) => CallerFrame(s, c);
      }
      StopEndsPolling(Next(s, steps[0]), steps[1..]);
    }
  }

  // The order of the monitor's sections.

  /** The steps of the monitor thread in a run. */
  function OwnSteps(steps: seq<Step>): seq<MonitorStep> {
    if steps == [] then []
    else (if steps[0].ByMonitor? then [steps[0].m] else []) + OwnSteps(steps[1..])
  }

  /** The step ends the handling of an event, or starts a batch. */
  predicate LeavesToBatch(m: MonitorStep) {
    || (m.Poll? && m.result.Readiness?)
    || m.Ignore? || m.AcceptFails? || m.ConnectCallback? || m.DisconnectCallback? || m.Erase?
  }

  /** What the monitor did just before a step. */
  predicate MayFollow(prev: Option<MonitorStep>, m: MonitorStep) {
    match m
    case Enter => prev.None? || prev.value.EndBatch? || prev.value == Poll(Timeout)
    case Clear => prev == Some(Enter)
    case Snapshot => prev == Some(Clear)
    case Poll(_) => prev == Some(Snapshot)
    case Register => prev.Some? && prev.value.AcceptClient?
    case Push => prev == Some(Register)
    case ConnectCallback => prev == Some(Push)
    case Erase => prev == Some(Unregister)
    case CloseClient => prev == Some(Erase)
    case DisconnectCallback => prev == Some(CloseClient)
    case _ => prev.Some? && LeavesToBatch(prev.value)
  }

  /** Where the monitor stands says what it did last. */
  predicate StandsAfter(monitor: Monitor, prev: Option<MonitorStep>) {
    match monitor
    case LoopTop => prev.None? || prev.value.EndBatch? || prev.value == Poll(Timeout)
    case Entering => prev == Some(Enter)
    case Cleared => prev == Some(Clear)
    case Polling(_) => prev == Some(Snapshot)
    case Dispatching(_) => prev.Some? && LeavesToBatch(prev.value)
    case Accepted(_, _) => prev.Some? && prev.value.AcceptClient?
    case Registering(_, _) => prev == Some(Register)
    case Announcing(_, _) => prev == Some(Push)
    case Removed(_, _) => prev == Some(Unregister)
    case Erased(_, _) => prev == Some(Erase)
    case Closing(_, _) => prev == Some(CloseClient)
    case Exited => true
    case Joined => true
  }

  lemma MonitorMayFollow(s: State, m: MonitorStep, prev: Option<MonitorStep>)
    requires MonitorEnabled(s, m) && StandsAfter(s.monitor, prev)
    ensures MayFollow(prev, m) && StandsAfter(MonitorNext(s, m).monitor, Some(m))
  {
  }

  lemma CallerLeavesStanding(s: State, c: CallerStep, prev: Option<MonitorStep>)
    requires CallerEnabled(s, c) && StandsAfter(s.monitor, prev)
    ensures StandsAfter(CallerNext(s, c).monitor, prev)
  {
    CallerFrame(s, c);
  }

  /** Each step may follow the one before it. */
  predicate InOrder(prev: Option<MonitorStep>, own: seq<MonitorStep>)
    decreases own
  {
    own == [] || (MayFollow(prev, own[0]) && InOrder(Some(own[0]), own[1..]))
  }

  lemma {:induction false} RunInOrder(s: State, steps: seq<Step>, prev: Option<MonitorStep>)
    requires CanRun(s, steps) && StandsAfter(s.monitor, prev)
    ensures InOrder(prev, OwnSteps(steps))
    decreases steps
  {
    if steps != [] {
      match steps[0] {
        case ByMonitor(m) =>
          MonitorMayFollow(s, m, prev);
          RunInOrder(Next(s, steps[0]), steps[1..], Some(m));
          assert OwnSteps(steps)[1..] == OwnSteps(steps[1..]);
        case ByCaller(c) =>
          CallerLeavesStanding(s, c, prev);
          RunInOrder(Next(s, steps[0]), steps[1..], prev);
          assert OwnSteps(steps) == OwnSteps(steps[1..]);
      }
    }
  }

  /**
   * In every session the monitor's sections come in the order of its program: a snapshot only after a clear, a clear
   * only after the test of the flag, that test only at the start, after a whole batch or after a poll that timed out,
   * and the sections of an arrival or a departure one after the other.
   */
  lemma MonitorFollowsProgram(serverFd: int, steps: seq<Step>)
    requires CanRun(Init(serverFd), steps)
    ensures InOrder(None, OwnSteps(steps))
  {
    RunInOrder(Init(serverFd), steps, None);
  }

  // What a round polls and handles.

  /** Every registered descriptor is polled for input, and for nothing else. */
  ghost predicate AllForReading(r: Registry) {
    forall i :: 0 <= i < |r.handle| ==> r.handle[i].interest == Interest(true, false)
  }

  lemma RemoveKeepsReading(r: Registry, e: Entry)
    requires AllForReading(r)
    ensures AllForReading(Remove(r, e))
  {
    ErasedAt(r.handle, FindFd(r.handle, e.fd, 0));
  }

  lemma MonitorKeepsReading(s: State, m: MonitorStep)
    requires MonitorEnabled(s, m) && AllForReading(s.registry)
    ensures AllForReading(MonitorNext(s, m).registry)
  {
    if m.Unregister? { RemoveKeepsReading(s.registry, EntryOf(s, HeadClient(s.monitor))); }
    else if !m.Register? { MonitorKeepsRegistry(s, m); }
  }

  lemma CallerKeepsReading(s: State, c: CallerStep)
    requires CallerEnabled(s, c) && AllForReading(s.registry)
    ensures AllForReading(CallerNext(s, c).registry)
  {
    if c.RemoveNext? { RemoveKeepsReading(s.registry, EntryOf(s, s.section.all[s.section.removed])); }
    else { CallerKeepsRegistry(s, c); }
  }

  lemma {:induction false} RunKeepsReading(s: State, steps: seq<Step>)
    requires CanRun(s, steps) && AllForReading(s.registry)
    ensures AllForReading(After(s, steps).registry)
    decreases steps
  {
    if steps != [] {
      match steps[0] {
        case ByMonitor(m) => MonitorKeepsReading(s, m);
        case ByCaller(c) => CallerKeepsReading(s, c);
      }
      RunKeepsReading(Next(s, steps[0]), steps[1..]);
    }
  }

  lemma EveryoneIsPolledForInput(serverFd: int, steps: seq<Step>)
    requires CanRun(Init(serverFd), steps)
    ensures AllForReading(After(Init(serverFd), steps).registry)
  {
    RunKeepsReading(Init(serverFd), steps);
  }

  /**
   * A round handles what was registered when its snapshot was taken: whatever the callers do before poll answers, the
   * batch holds one event for each descriptor of that registry that poll reports ready, in order.
   */
  lemma RoundPollsSnapshot(s: State, others: seq<Step>, revents: seq<Revents>)
    requires MonitorEnabled(s, Snapshot)
    requires CanRun(MonitorNext(s, Snapshot), others) && ByOthers(MonitorNext(s, Snapshot), MonitorThread, others)
    requires MonitorEnabled(After(MonitorNext(s, Snapshot), others), Poll(Readiness(revents)))
    ensures |revents| == |s.registry.handle|
    ensures var batch := MonitorNext(After(MonitorNext(s, Snapshot), others), Poll(Readiness(revents))).monitor;
            && batch.Dispatching? && |batch.rest| == |ReadyIndices(revents, |revents|)|
            && forall k :: 0 <= k < |batch.rest| ==>
                 batch.rest[k] == EventAt(s.registry, revents, ReadyIndices(revents, |revents|)[k])
  {
    OthersKeepMonitor(MonitorNext(s, Snapshot), others);
    CollectsReady(s.registry, revents, |revents|);
  }

  /** The step takes up the next event of the batch. */
  predicate Starts(m: MonitorStep) { m.Ignore? || m.AcceptFails? || m.AcceptClient? || m.Unregister? }

  /** How many events of the batch were taken up. */
  ghost function Started(steps: seq<Step>): nat {
    if steps == [] then 0 else (if steps[0].ByMonitor? && Starts(steps[0].m) then 1 else 0) + Started(steps[1..])
  }

  lemma MonitorTakesUp(s: State, m: MonitorStep)
    requires MonitorEnabled(s, m) && HoldsBatch(s.monitor) && !m.EndBatch?
    ensures HoldsBatch(MonitorNext(s, m).monitor)
    ensures if Starts(m) then s.monitor.rest != [] && MonitorNext(s, m).monitor.rest == s.monitor.rest[1..]
            else MonitorNext(s, m).monitor.rest == s.monitor.rest
  {
  }

  /** No event of a batch is skipped or taken up twice: what is left is the batch without the events taken up so far. */
  lemma {:induction false} BatchIsTakenUpInOrder(s: State, steps: seq<Step>)
    requires CanRun(s, steps) && HoldsBatch(s.monitor) && ByMonitor(EndBatch) !in steps
    ensures var monitor := After(s, steps).monitor;
            && HoldsBatch(monitor) && Started(steps) <= |s.monitor.rest|
            && monitor.rest == s.monitor.rest[Started(steps)..]
    decreases steps
  {
    if steps != [] {
      match steps[0] {
        case ByMonitor(m) => MonitorTakesUp(s, m);
        case ByCaller(c) => CallerFrame(s, c);
      }
      assert steps == [steps[0]] + steps[1..];
      BatchIsTakenUpInOrder(Next(s, steps[0]), steps[1..]);
    }
  }

  /** The step that takes up an event is the one for its kind. */
  lemma StepFitsEvent(s: State, m: MonitorStep)
    requires MonitorEnabled(s, m) && s.monitor.Dispatching? && s.monitor.rest != []
    ensures var event := s.monitor.rest[0];
            && (m.AcceptFails? || m.AcceptClient? <==> event.kind.Accept?)
            && (m.Unregister? <==> event.kind.Disconnected?)
            && (m.Unregister? ==> event.entry.Some? && MonitorNext(s, m).monitor.Removed?
                                  && event.entry.value.context == ClientContext(MonitorNext(s, m).monitor.id))
  {
  }

  lemma StartsFromDispatching(s: State, m: MonitorStep)
    requires MonitorEnabled(s, m) && (Starts(m) || m.EndBatch?)
    ensures s.monitor.Dispatching? && (m.EndBatch? <==> s.monitor.rest == [])
  {
  }

  /**
   * The next step on a batch is the one for the kind of the next event: an accept for an accept event, a removal of
   * the event's own client for a disconnect, nothing for any other; the batch ends only when every event was taken up.
   */
  lemma BatchIsHandled(s: State, steps: seq<Step>, m: MonitorStep)
    requires CanRun(s, steps) && s.monitor.Dispatching? && ByMonitor(EndBatch) !in steps
    requires MonitorEnabled(After(s, steps), m) && (Starts(m) || m.EndBatch?)
    ensures m.EndBatch? <==> Started(steps) == |s.monitor.rest|
    ensures Started(steps) < |s.monitor.rest| ==>
              var event := s.monitor.rest[Started(steps)];
              && (m.AcceptFails? || m.AcceptClient? <==> event.kind.Accept?)
              && (m.Unregister? <==> event.kind.Disconnected?)
              && (m.Unregister? ==>
                    && event.entry.Some? && MonitorNext(After(s, steps), m).monitor.Removed?
                    && event.entry.value.context == ClientContext(MonitorNext(After(s, steps), m).monitor.id))
  {
    BatchIsTakenUpInOrder(s, steps);
    StartsFromDispatching(After(s, steps), m);
    if Started(steps) < |s.monitor.rest| { StepFitsEvent(After(s, steps), m); }
  }

  // The pending list.

  predicate NoClear(steps: seq<Step>) {
    ByMonitor(Clear) !in steps && ByCaller(CloseRest) !in steps
  }

  /** Some dropAll handed the client over, and the monitor has not cleared the list since. */
  ghost predicate HandedOverSince(s: State, steps: seq<Step>, id: ClientId)
    requires CanRun(s, steps)
    decreases steps
  {
    steps != [] &&
    ((steps[0] == ByCaller(HandOff) && id in s.section.all && NoClear(steps[1..]))
      || HandedOverSince(Next(s, steps[0]), steps[1..], id))
  }

  lemma StepKeepsBack(s: State, e: Step, id: ClientId)
    requires Enabled(s, e)
    ensures id in Next(s, e).pending <==>
              (id in s.pending && e != ByMonitor(Clear) && e != ByCaller(CloseRest))
              || (e == ByCaller(HandOff) && id in s.section.all)
  {
    match e
    case ByMonitor(m) => MonitorFrame(s, m);
    case ByCaller(c) => CallerPending(s, c);
  }

  lemma {:induction false} RunKeepsBack(s: State, steps: seq<Step>, id: ClientId)
    requires CanRun(s, steps)
    ensures id in After(s, steps).pending <==> (id in s.pending && NoClear(steps)) || HandedOverSince(s, steps, id)
    decreases steps
  {
    if steps != [] {
      StepKeepsBack(s, steps[0], id);
      RunKeepsBack(Next(s, steps[0]), steps[1..], id);
      assert NoClear(steps)
             <==> steps[0] != ByMonitor(Clear) && steps[0] != ByCaller(CloseRest) && NoClear(steps[1..]) by {
        assert steps == [steps[0]] + steps[1..];
      }
    }
  }

  /** The pending list holds exactly the clients that a dropAll handed over since the monitor last cleared it. */
  lemma PendingSinceClear(serverFd: int, steps: seq<Step>, id: ClientId)
    requires CanRun(Init(serverFd), steps)
    ensures id in After(Init(serverFd), steps).pending <==> HandedOverSince(Init(serverFd), steps, id)
  {
    RunKeepsBack(Init(serverFd), steps, id);
  }

  // The targets of a write.

  lemma StepKeepsTargets(s: State, e: Step, t: ThreadId)
    requires Enabled(s, e) && t in s.writing && e != ByCaller(ReturnFromWrite(t))
    ensures t in Next(s, e).writing && Next(s, e).writing[t] == s.writing[t]
  {
    if e.ByMonitor? { MonitorFrame(s, e.m); }
  }

  lemma {:induction false} RunKeepsTargets(s: State, steps: seq<Step>, t: ThreadId)
    requires CanRun(s, steps) && t in s.writing && ByCaller(ReturnFromWrite(t)) !in steps
    ensures t in After(s, steps).writing && After(s, steps).writing[t] == s.writing[t]
    decreases steps
  {
    if steps != [] {
      StepKeepsTargets(s, steps[0], t);
      assert steps == [steps[0]] + steps[1..];
      RunKeepsTargets(Next(s, steps[0]), steps[1..], t);
    }
  }

  /** Until it returns, a write targets exactly the clients that were active when it took its snapshot, each once. */
  lemma WriteTargetsActive(serverFd: int, before: seq<Step>, later: seq<Step>, t: ThreadId, id: ClientId)
    requires CanRun(Init(serverFd), before) && CallerEnabled(After(Init(serverFd), before), SnapshotForWrite(t))
    requires CanRun(CallerNext(After(Init(serverFd), before), SnapshotForWrite(t)), later)
    requires ByCaller(ReturnFromWrite(t)) !in later
    ensures var s := After(CallerNext(After(Init(serverFd), before), SnapshotForWrite(t)), later);
            && t in s.writing && NoDup(s.writing[t])
            && (id in s.writing[t] <==> id in ActiveClients(After(Init(serverFd), before)))
  {
    SessionKeepsInv(serverFd, before);
    ActiveListIsActiveClients(After(Init(serverFd), before));
    RunKeepsTargets(CallerNext(After(Init(serverFd), before), SnapshotForWrite(t)), later, t);
  }
}
