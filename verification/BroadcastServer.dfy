/**
 * The broadcast server object. The first methods are the single sections: one section of the client mutex or of the
 * listener's mutex, or one socket or handler call. The last ones are the threads, built from sections with anything
 * the other threads do in between. `monitor`, `section`, `notifying` and `writing` are what the threads hold on their
 * stacks between two sections.
 */
module BroadcastServer {
  import opened Sockets
  import opened EventListener
  import opened BroadcastProtocol
  import opened BroadcastSafety
  import opened BroadcastRuns
  import opened BroadcastOutcomes
  import opened BroadcastThreads

  class SocketBroadcastServer {
    var isMonitoring: bool
    const listener: SocketMultiEventListener
    var activeClients: seq<ClientId>
    var pendingDestruction: seq<ClientId>
    var contextFds: map<ClientId, int>

    var monitor: Monitor
    var section: Section
    var notifying: map<ThreadId, Notify>
    var writing: map<ThreadId, seq<ClientId>>

    ghost var place: map<ClientId, Place>
    ghost var connects: multiset<ClientId>
    ghost var disconnects: multiset<ClientId>
    ghost var closes: multiset<ClientId>

    ghost function Model(): State
      reads this, listener
    {
      State(isMonitoring, listener.Model(), activeClients, pendingDestruction, monitor, section, notifying, writing,
            contextFds, place, connects, disconnects, closes)
    }

    ghost predicate Valid()
      reads this, listener
    {
      Inv(Model())
    }

    /** open: the accept descriptor is registered before the monitor thread starts. */
    constructor (serverFd: int)
      ensures Valid() && Model() == Init(serverFd) && fresh(listener)
    {
      var l := new SocketMultiEventListener();
      l.AddEvent(Entry(ServerContext, serverFd), SocketEventType.Accept);
      listener := l;
      isMonitoring := true;
      activeClients, pendingDestruction, contextFds := [], [], map[];
      monitor, section, notifying, writing := LoopTop, Unlocked, map[], map[];
      place, connects, disconnects, closes := map[], multiset{}, multiset{}, multiset{};
      new;
      InitHolds(serverFd);
    }

    // The monitor thread.

    method TestMonitoring()
      requires MonitorEnabled(Model(), Enter)
      modifies this
      ensures Model() == MonitorNext(old(Model()), Enter)
    {
      monitor := if isMonitoring then Entering else Exited;
    }

    method ClearPending()
      requires MonitorEnabled(Model(), Clear)
      modifies this
      ensures Model() == MonitorNext(old(Model()), Clear)
    {
      pendingDestruction := [];
      monitor := Cleared;
    }

    method StartWait()
      requires MonitorEnabled(Model(), Snapshot)
      modifies this
      ensures Model() == MonitorNext(old(Model()), Snapshot)
    {
      var snapshot := listener.Snapshot();
      monitor := Polling(snapshot);
    }

    method FinishWait(result: PollResult)
      requires MonitorEnabled(Model(), Poll(result))
      modifies this
      ensures Model() == MonitorNext(old(Model()), Poll(result))
    {
      match result
      case Timeout => monitor := LoopTop;
      case Failure => monitor := Exited;
      case Readiness(revents) =>
        var events := SocketMultiEventListener.Classification(monitor.snapshot, revents);
        monitor := Dispatching(events);
    }

    method SkipEvent(m: MonitorStep)
      requires (m == Ignore || m == AcceptFails) && MonitorEnabled(Model(), m)
      modifies this
      ensures Model() == MonitorNext(old(Model()), m)
    {
      monitor := Dispatching(monitor.rest[1..]);
    }

    method AcceptPeer(id: ClientId, fd: int)
      requires MonitorEnabled(Model(), AcceptClient(id, fd))
      modifies this
      ensures Model() == MonitorNext(old(Model()), AcceptClient(id, fd))
    {
      contextFds := contextFds[id := fd];
      place := place[id := Local];
      monitor := Accepted(id, monitor.rest[1..]);
    }

    method RegisterPeer()
      requires MonitorEnabled(Model(), Register)
      modifies this, listener
      ensures Model() == MonitorNext(old(Model()), Register)
    {
      listener.AddEvent(Entry(ClientContext(monitor.id), contextFds[monitor.id]), Read);
      monitor := Registering(monitor.id, monitor.rest);
    }

    method PushPeer()
      requires MonitorEnabled(Model(), Push)
      modifies this
      ensures Model() == MonitorNext(old(Model()), Push)
    {
      activeClients := activeClients + [monitor.id];
      place := place[monitor.id := Active];
      monitor := Announcing(monitor.id, monitor.rest);
    }

    method OnClientConnected()
      requires MonitorEnabled(Model(), ConnectCallback)
      modifies this
      ensures Model() == MonitorNext(old(Model()), ConnectCallback)
    {
      connects := connects + multiset{monitor.id};
      monitor := Dispatching(monitor.rest);
    }

    method UnregisterPeer()
      requires MonitorEnabled(Model(), Unregister)
      modifies this, listener
      ensures Model() == MonitorNext(old(Model()), Unregister)
    {
      var id := HeadClient(monitor);
      listener.RemoveEvent(Entry(ClientContext(id), contextFds[id]));
      monitor := Removed(id, monitor.rest[1..]);
    }

    /** find_if over the active list, then erase. */
    method ErasePeer()
      requires MonitorEnabled(Model(), Erase)
      modifies this
      ensures Model() == MonitorNext(old(Model()), Erase)
    {
      var client := monitor.id;
      var i := 0;
      while i < |activeClients| && activeClients[i] != client
        invariant i <= |activeClients|
        invariant IndexFrom(activeClients, client, i) == IndexOf(activeClients, client)
        modifies {}
      {
        i := i + 1;
      }
      if i < |activeClients| {
        activeClients := activeClients[..i] + activeClients[i + 1..];
        place := place[client := Detached(MonitorArm)];
        monitor := Erased(client, monitor.rest);
      } else {
        monitor := Dispatching(monitor.rest);
      }
    }

    method ClosePeer()
      requires MonitorEnabled(Model(), CloseClient)
      modifies this
      ensures Model() == MonitorNext(old(Model()), CloseClient)
    {
      closes := closes + multiset{monitor.id};
      place := place[monitor.id := Closed(MonitorArm)];
      monitor := Closing(monitor.id, monitor.rest);
    }

    method OnClientDisconnected()
      requires MonitorEnabled(Model(), DisconnectCallback)
      modifies this
      ensures Model() == MonitorNext(old(Model()), DisconnectCallback)
    {
      disconnects := disconnects + multiset{monitor.id};
      place := place[monitor.id := Departed];
      monitor := Dispatching(monitor.rest);
    }

    method FinishBatch()
      requires MonitorEnabled(Model(), EndBatch)
      modifies this
      ensures Model() == MonitorNext(old(Model()), EndBatch)
    {
      monitor := LoopTop;
    }

    // dropAll.

    method SwapOut(t: ThreadId)
      requires CallerEnabled(Model(), Swap(t))
      modifies this
      ensures Model() == CallerNext(old(Model()), Swap(t))
    {
      place := Relocate(place, activeClients, Detached(DropAll(t)));
      section := Detaching(t, activeClients, 0);
      activeClients := [];
    }

    method RemoveDropped()
      requires CallerEnabled(Model(), RemoveNext)
      modifies this, listener
      ensures Model() == CallerNext(old(Model()), RemoveNext)
    {
      var id := section.all[section.removed];
      listener.RemoveEvent(Entry(ClientContext(id), contextFds[id]));
      section := section.(removed := section.removed + 1);
    }

    method HandOffDropped()
      requires CallerEnabled(Model(), HandOff)
      modifies this
      ensures Model() == CallerNext(old(Model()), HandOff)
    {
      pendingDestruction := pendingDestruction + section.all;
      notifying := notifying[section.t := Notify(section.all, false)];
      section := Unlocked;
    }

    method CloseDropped(t: ThreadId)
      requires CallerEnabled(Model(), CloseNext(t))
      modifies this
      ensures Model() == CallerNext(old(Model()), CloseNext(t))
    {
      var client := notifying[t].rest[0];
      closes := closes + multiset{client};
      place := place[client := Closed(DropAll(t))];
      notifying := notifying[t := notifying[t].(headClosed := true)];
    }

    method ReportDropped(t: ThreadId)
      requires CallerEnabled(Model(), CallbackNext(t))
      modifies this
      ensures Model() == CallerNext(old(Model()), CallbackNext(t))
    {
      var client := notifying[t].rest[0];
      disconnects := disconnects + multiset{client};
      place := place[client := Departed];
      notifying := notifying[t := Notify(notifying[t].rest[1..], false)];
    }

    method FinishDropAll(t: ThreadId)
      requires CallerEnabled(Model(), ReturnFromDropAll(t))
      modifies this
      ensures Model() == CallerNext(old(Model()), ReturnFromDropAll(t))
    {
      notifying := notifying - {t};
    }

    // write and close.

    method StartWrite(t: ThreadId) returns (snapshot: seq<ClientId>)
      requires CallerEnabled(Model(), SnapshotForWrite(t))
      modifies this
      ensures Model() == CallerNext(old(Model()), SnapshotForWrite(t)) && snapshot == activeClients
    {
      snapshot := activeClients;
      writing := writing[t := snapshot];
    }

    method FinishWrite(t: ThreadId)
      requires CallerEnabled(Model(), ReturnFromWrite(t))
      modifies this
      ensures Model() == CallerNext(old(Model()), ReturnFromWrite(t))
    {
      writing := writing - {t};
    }

    method StopMonitor()
      modifies this
      ensures Model() == CallerNext(old(Model()), StopMonitoring)
    {
      isMonitoring := false;
    }

    /** Close the descriptor of every remaining client, in order. */
    static method CloseEach(clients: seq<ClientId>) returns (closed: multiset<ClientId>)
      ensures closed == multiset(clients)
    {
      closed := multiset{};
      for i := 0 to |clients|
        invariant closed == multiset(clients[..i])
      {
        closed := closed + multiset{clients[i]};
        assert clients[..i + 1] == clients[..i] + [clients[i]];
      }
      assert clients[..|clients|] == clients;
    }

    /** The rest of close, after the monitor has been joined. */
    method ReleaseAll()
      requires CallerEnabled(Model(), CloseRest)
      modifies this
      ensures Model() == CallerNext(old(Model()), CloseRest)
    {
      ghost var target := CallerNext(Model(), CloseRest);
      assert target == Model().(monitor := Joined, active := [], pending := [],
             closes := closes + multiset(activeClients),
                                place := Relocate(place, activeClients, Abandoned));
      var closed := CloseEach(activeClients);
      closes := closes + closed;
      place := Relocate(place, activeClients, Abandoned);
      activeClients, pendingDestruction := [], [];
      monitor := Joined;
    }

    // Any step of any thread.

    method PerformMonitor(m: MonitorStep)
      requires MonitorEnabled(Model(), m)
      modifies this, listener
      ensures Model() == MonitorNext(old(Model()), m)
    {
      match m
      case Enter => TestMonitoring();
      case Clear => ClearPending();
      case Snapshot => StartWait();
      case Poll(result) => FinishWait(result);
      case Ignore => SkipEvent(m);
      case AcceptFails => SkipEvent(m);
      case AcceptClient(id, fd) => AcceptPeer(id, fd);
      case Register => RegisterPeer();
      case Push => PushPeer();
      case ConnectCallback => OnClientConnected();
      case Unregister => UnregisterPeer();
      case Erase => ErasePeer();
      case CloseClient => ClosePeer();
      case DisconnectCallback => OnClientDisconnected();
      case EndBatch => FinishBatch();
    }

    method PerformCaller(c: CallerStep)
      requires CallerEnabled(Model(), c)
      modifies this, listener
      ensures Model() == CallerNext(old(Model()), c)
    {
      match c
      case Swap(t) => SwapOut(t);
      case RemoveNext => RemoveDropped();
      case HandOff => HandOffDropped();
      case CloseNext(t) => CloseDropped(t);
      case CallbackNext(t) => ReportDropped(t);
      case ReturnFromDropAll(t) => FinishDropAll(t);
      case SnapshotForWrite(t) => var snapshot := StartWrite(t);
      case ReturnFromWrite(t) => FinishWrite(t);
      case StopMonitoring => StopMonitor();
      case CloseRest => ReleaseAll();
    }

    /** Whatever the threads do, in any order. */
    method Interleave(steps: seq<Step>)
      requires CanRun(Model(), steps)
      modifies this, listener
      ensures Model() == After(old(Model()), steps)
    {
      ghost var goal := After(Model(), steps);
      for i := 0 to |steps|
        invariant CanRun(Model(), steps[i..]) && After(Model(), steps[i..]) == goal
      {
        assert steps[i..][0] == steps[i] && steps[i..][1..] == steps[i + 1..];
        match steps[i] {
          case ByMonitor(m) => PerformMonitor(m);
          case ByCaller(c) => PerformCaller(c);
        }
      }
    }

    // The monitor thread as a program: `rest` is the part of the schedule still to come.

    ghost predicate OnTrack(thread: Thread, rest: seq<Turn>, goal: State)
      reads this, listener
    {
      Follows(Model(), thread, rest) && Finish(Model(), thread, rest) == goal
    }

    /** The other threads run until it is the monitor's turn to take step m. */
    method AwaitMonitorTurn(schedule: seq<Turn>, ghost goal: State) returns (m: MonitorStep, rest: seq<Turn>)
      requires schedule != [] && OnTrack(MonitorThread, schedule, goal)
      modifies this, listener
      ensures schedule[0].own == ByMonitor(m) && rest == schedule[1..] && monitor == old(monitor)
      ensures MonitorEnabled(Model(), m) && ComesNext(monitor, m)
      ensures Follows(MonitorNext(Model(), m), MonitorThread, rest)
              && Finish(MonitorNext(Model(), m), MonitorThread, rest) == goal
    {
      MonitorStands(Model(), schedule[0]);
      Interleave(schedule[0].others);
      m, rest := schedule[0].own.m, schedule[1..];
    }

    /** The Accept arm after accept: register, push onto the active list, announce. */
    method Enlist(schedule: seq<Turn>, ghost goal: State) returns (rest: seq<Turn>)
      requires OnTrack(MonitorThread, schedule, goal) && monitor.Accepted?
      modifies this, listener
      ensures OnTrack(MonitorThread, rest, goal) && |rest| <= |schedule| && (rest == [] || monitor.Dispatching?)
    {
      rest := schedule;
      var m;
      if |rest| == 0 { return; }
      m, rest := AwaitMonitorTurn(rest, goal);
      RegisterPeer();
      if |rest| == 0 { return; }
      m, rest := AwaitMonitorTurn(rest, goal);
      PushPeer();
      if |rest| == 0 { return; }
      m, rest := AwaitMonitorTurn(rest, goal);
      OnClientConnected();
    }

    /** The Accept arm. */
    method Arrive(schedule: seq<Turn>, ghost goal: State) returns (rest: seq<Turn>)
      requires schedule != [] && OnTrack(MonitorThread, schedule, goal) && HeadIs(monitor, SocketEventType.Accept)
      modifies this, listener
      ensures OnTrack(MonitorThread, rest, goal) && |rest| < |schedule| && (rest == [] || monitor.Dispatching?)
    {
      var m;
      m, rest := AwaitMonitorTurn(schedule, goal);
      if m.AcceptFails? {
        SkipEvent(AcceptFails);
      } else {
        AcceptPeer(m.id, m.fd);
        rest := Enlist(rest, goal);
      }
    }

    method Retire(schedule: seq<Turn>, ghost goal: State) returns (rest: seq<Turn>)
      requires OnTrack(MonitorThread, schedule, goal) && monitor.Erased?
      modifies this, listener
      ensures OnTrack(MonitorThread, rest, goal) && |rest| <= |schedule| && (rest == [] || monitor.Dispatching?)
    {
      rest := schedule;
      var m;
      if |rest| == 0 { return; }
      m, rest := AwaitMonitorTurn(rest, goal);
      ClosePeer();
      if |rest| == 0 { return; }
      m, rest := AwaitMonitorTurn(rest, goal);
      OnClientDisconnected();
    }

    /** The Disconnected arm: only the thread that finds the client on the active list closes and reports it. */
    method Depart(schedule: seq<Turn>, ghost goal: State) returns (rest: seq<Turn>)
      requires schedule != [] && OnTrack(MonitorThread, schedule, goal) && HeadIs(monitor, Disconnected)
      modifies this, listener
      ensures OnTrack(MonitorThread, rest, goal) && |rest| < |schedule| && (rest == [] || monitor.Dispatching?)
    {
      var m;
      m, rest := AwaitMonitorTurn(schedule, goal);
      UnregisterPeer();
      if |rest| == 0 { return; }
      m, rest := AwaitMonitorTurn(rest, goal);
      ErasePeer();
      if monitor.Erased? {
        rest := Retire(rest, goal);
      }
    }

    /** The switch on the kind of one event. */
    method DispatchEvent(schedule: seq<Turn>, ghost goal: State) returns (rest: seq<Turn>)
      requires schedule != [] && OnTrack(MonitorThread, schedule, goal)
      requires monitor.Dispatching? && monitor.rest != [] && monitor.rest[0].entry.Some?
      modifies this, listener
      ensures OnTrack(MonitorThread, rest, goal) && |rest| < |schedule| && (rest == [] || monitor.Dispatching?)
    {
      match monitor.rest[0].kind {
        case Accept => rest := Arrive(schedule, goal);
        case Disconnected => rest := Depart(schedule, goal);
        case _ =>
          var m;
          m, rest := AwaitMonitorTurn(schedule, goal);
          SkipEvent(Ignore);
      }
    }

    /** The loop over the events of one batch. */
    method DispatchBatch(schedule: seq<Turn>, ghost goal: State) returns (rest: seq<Turn>)
      requires OnTrack(MonitorThread, schedule, goal) && monitor.Dispatching?
      modifies this, listener
      ensures OnTrack(MonitorThread, rest, goal) && |rest| <= |schedule| && (rest == [] || monitor.LoopTop?)
    {
      rest := schedule;
      var m;
      while |rest| > 0 && |monitor.rest| > 0
        invariant OnTrack(MonitorThread, rest, goal) && |rest| <= |schedule| && (rest == [] || monitor.Dispatching?)
        decreases |rest|
      {
        HeadHasEntry(Model(), rest[0]);
        rest := DispatchEvent(rest, goal);
        if |rest| == 0 { return; }
      }
      if |rest| == 0 { return; }
      m, rest := AwaitMonitorTurn(rest, goal);
      FinishBatch();
    }

    method PollOnce(schedule: seq<Turn>, ghost goal: State) returns (rest: seq<Turn>)
      requires schedule != [] && OnTrack(MonitorThread, schedule, goal) && monitor.Cleared?
      modifies this, listener
      ensures OnTrack(MonitorThread, rest, goal) && |rest| < |schedule|
      ensures rest == [] || monitor.LoopTop? || monitor.Exited? || monitor.Dispatching?
    {
      var m;
      m, rest := AwaitMonitorTurn(schedule, goal);
      StartWait();
      if |rest| == 0 { return; }
      m, rest := AwaitMonitorTurn(rest, goal);
      FinishWait(m.result);
    }

    /** One round of the monitor loop, up to the batch of its poll. */
    method StartRound(schedule: seq<Turn>, ghost goal: State) returns (rest: seq<Turn>)
      requires schedule != [] && OnTrack(MonitorThread, schedule, goal) && monitor.LoopTop?
      modifies this, listener
      ensures OnTrack(MonitorThread, rest, goal) && |rest| < |schedule|
      ensures rest == [] || monitor.LoopTop? || monitor.Exited? || monitor.Dispatching?
    {
      var m;
      m, rest := AwaitMonitorTurn(schedule, goal);
      TestMonitoring();
      if |rest| == 0 || monitor.Exited? { return; }
      m, rest := AwaitMonitorTurn(rest, goal);
      ClearPending();
      if |rest| == 0 { return; }
      rest := PollOnce(rest, goal);
    }

    /**
     * The monitor thread, from the top of its loop, with anything the callers do between its sections: every schedule
     * of the step system is one that this program performs, and it leaves a valid server.
     */
    method MonitorClient(schedule: seq<Turn>)
      requires Valid() && monitor.LoopTop? && Follows(Model(), MonitorThread, schedule)
      modifies this, listener
      ensures Valid() && Model() == Finish(old(Model()), MonitorThread, schedule)
    {
      ghost var goal := Finish(Model(), MonitorThread, schedule);
      FinishKeepsInv(Model(), MonitorThread, schedule);
      var rest := schedule;
      while |rest| > 0 && monitor.LoopTop?
        invariant OnTrack(MonitorThread, rest, goal) && (rest == [] || monitor.LoopTop? || monitor.Exited?)
        decreases |rest|
      {
        rest := StartRound(rest, goal);
        if |rest| > 0 && monitor.Dispatching? {
          rest := DispatchBatch(rest, goal);
        }
      }
      if |rest| > 0 { ExitedTakesNoTurn(Model(), rest[0]); }
    }

    // dropAll as a program.

    ghost predicate DropOnTrack(t: ThreadId, rest: seq<Turn>, goal: State)
      reads this, listener
    {
      OnTrack(DropThread(t), rest, goal) && StandsOnce(Model(), t)
    }

    /** The other threads, the monitor among them, run until it is this dropAll's turn to take step c. */
    method AwaitDropTurn(t: ThreadId, schedule: seq<Turn>, ghost goal: State) returns (c: CallerStep, rest: seq<Turn>)
      requires schedule != [] && DropOnTrack(t, schedule, goal)
      modifies this, listener
      ensures schedule[0].own == ByCaller(c) && rest == schedule[1..]
      ensures StandOf(Model(), t) == old(StandOf(Model(), t)) && DropComesNext(StandOf(Model(), t), t, c)
      ensures CallerEnabled(Model(), c) && StandsOnce(CallerNext(Model(), c), t)
      ensures Follows(CallerNext(Model(), c), DropThread(t), rest)
              && Finish(CallerNext(Model(), c), DropThread(t), rest) == goal
    {
      DropStands(Model(), t, schedule[0]);
      Interleave(schedule[0].others);
      c, rest := schedule[0].own.c, schedule[1..];
    }

    /** The critical section: everyone off the listener, then onto the pending list. */
    method DetachAll(t: ThreadId, schedule: seq<Turn>, ghost goal: State) returns (rest: seq<Turn>)
      requires DropOnTrack(t, schedule, goal) && StandOf(Model(), t).Inside?
      modifies this, listener
      ensures DropOnTrack(t, rest, goal) && |rest| <= |schedule| && (rest == [] || StandOf(Model(), t).Notifying?)
    {
      rest := schedule;
      var c;
      while |rest| > 0 && section.removed < |section.all|
        invariant DropOnTrack(t, rest, goal) && |rest| <= |schedule| && StandOf(Model(), t).Inside?
        decreases |rest|
      {
        c, rest := AwaitDropTurn(t, rest, goal);
        RemoveDropped();
      }
      if |rest| == 0 { return; }
      c, rest := AwaitDropTurn(t, rest, goal);
      HandOffDropped();
    }

    /** Outside the mutex: each detached client is closed, then reported. */
    method ReportAll(t: ThreadId, schedule: seq<Turn>, ghost goal: State) returns (rest: seq<Turn>)
      requires DropOnTrack(t, schedule, goal) && StandOf(Model(), t).Notifying?
      modifies this, listener
      ensures DropOnTrack(t, rest, goal) && |rest| <= |schedule| && (rest == [] || StandOf(Model(), t).Outside?)
    {
      rest := schedule;
      var c;
      while |rest| > 0 && |notifying[t].rest| > 0
        invariant DropOnTrack(t, rest, goal) && |rest| <= |schedule| && StandOf(Model(), t).Notifying?
        decreases |rest|
      {
        c, rest := AwaitDropTurn(t, rest, goal);
        if notifying[t].headClosed {
          ReportDropped(t);
        } else {
          CloseDropped(t);
        }
      }
      if |rest| == 0 { return; }
      c, rest := AwaitDropTurn(t, rest, goal);
      FinishDropAll(t);
    }

    /** One call of dropAll, with anything the monitor and the other callers do between its sections. */
    method DropAllOnce(t: ThreadId, schedule: seq<Turn>, ghost goal: State) returns (rest: seq<Turn>)
      requires schedule != [] && DropOnTrack(t, schedule, goal) && StandOf(Model(), t).Outside?
      modifies this, listener
      ensures DropOnTrack(t, rest, goal) && |rest| < |schedule| && (rest == [] || StandOf(Model(), t).Outside?)
    {
      var c;
      c, rest := AwaitDropTurn(t, schedule, goal);
      SwapOut(t);
      rest := DetachAll(t, rest, goal);
      if |rest| == 0 { return; }
      rest := ReportAll(t, rest, goal);
    }

    /**
     * A thread that calls dropAll again and again: every schedule of the step system is one that this program
     * performs, and it leaves a valid server.
     */
    method CallDropAll(t: ThreadId, schedule: seq<Turn>)
      requires Valid() && StandOf(Model(), t).Outside? && Follows(Model(), DropThread(t), schedule)
      modifies this, listener
      ensures Valid() && Model() == Finish(old(Model()), DropThread(t), schedule)
    {
      ghost var goal := Finish(Model(), DropThread(t), schedule);
      FinishKeepsInv(Model(), DropThread(t), schedule);
      var rest := schedule;
      while |rest| > 0
        invariant DropOnTrack(t, rest, goal) && (rest == [] || StandOf(Model(), t).Outside?)
        decreases |rest|
      {
        rest := DropAllOnce(t, rest, goal);
      }
    }

    // close.

    /**
     * close: stop the monitor, wait until it has left its loop, then close and release what is left. After it every
     * client that was ever accepted has been closed exactly once.
     */
    method Close(others: seq<Step>)
      requires Valid() && CanRun(Model(), [ByCaller(StopMonitoring)] + others + [ByCaller(CloseRest)])
      modifies this, listener
      ensures Valid() && Model() == After(old(Model()), [ByCaller(StopMonitoring)] + others + [ByCaller(CloseRest)])
      ensures monitor.Joined? && activeClients == [] && pendingDestruction == []
      ensures forall id :: id in contextFds ==> closes[id] == 1
    {
      ghost var steps := [ByCaller(StopMonitoring)] + others + [ByCaller(CloseRest)];
      RunKeepsInv(Model(), steps);
      CloseRuns(Model(), others);
      StopMonitor();
      Interleave(others);
      ReleaseAll();
      JoinedClosedAll(Model());
    }

    // await and awaitClose: the answers are given under the client mutex, after whatever happened while waiting.

    method AwaitClients(waiting: seq<Step>, between: seq<Step>) returns (result: SocketResult)
      requires CanRun(Model(), waiting) && After(Model(), waiting).section.Unlocked?
      requires CanRun(After(Model(), waiting), between) && After(After(Model(), waiting), between).section.Unlocked?
      modifies this, listener
      ensures var first := After(old(Model()), waiting);
              && result == AwaitAnswer(first, After(first, between))
              && Model() == if first.monitoring && first.active != [] then After(first, between) else first
    {
      Interleave(waiting);
      if !isMonitoring {
        return SocketResult(SocketClosed, -1);
      }
      if |activeClients| == 0 {
        return SocketResult(SocketTimeout, -1);
      }
      Interleave(between);
      if !isMonitoring {
        return SocketResult(SocketClosed, -1);
      }
      result := SocketResult(Success, Int32(|activeClients|));
    }

    method AwaitClose(waiting: seq<Step>) returns (result: SocketResult)
      requires CanRun(Model(), waiting) && After(Model(), waiting).section.Unlocked?
      modifies this, listener
      ensures Model() == After(old(Model()), waiting) && result == AwaitCloseAnswer(Model())
    {
      Interleave(waiting);
      if !isMonitoring {
        return SocketResult(SocketClosed, -1);
      }
      if |activeClients| > 0 {
        return SocketResult(SocketTimeout, Int32(|activeClients|));
      }
      result := SocketResult(Success, 0);
    }
  }
}
