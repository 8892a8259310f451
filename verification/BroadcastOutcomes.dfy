/** Departures, callbacks, the round barrier and await over whole sessions. */
module BroadcastOutcomes {
  import opened Sockets
  import opened BroadcastProtocol
  import opened BroadcastHolders
  import opened BroadcastSafety
  import opened BroadcastRuns

  // Exactly-once departure.

  /** Off the active list, with its descriptor still to be closed, by the Disconnected arm or by some dropAll. */
  ghost predicate DetachedOpen(s: State, id: ClientId) {
    || (s.monitor.Erased? && s.monitor.id == id)
    || (s.section.Detaching? && id in s.section.all)
    || (exists t ::
       t in s.notifying && id in s.notifying[t].rest && !(s.notifying[t].headClosed && s.notifying[t].rest[0] == id))
  }

  /** How many of the four stages hold the client: arriving, active, detached with its fd open, closed. */
  ghost function Stages(s: State, id: ClientId): nat {
    (if (s.monitor.Accepted? || s.monitor.Registering?) && s.monitor.id == id then 1 else 0)
    + (if id in s.active then 1 else 0)
    + (if DetachedOpen(s, id) then 1 else 0)
    + s.closes[id]
  }

  lemma DetachedOpenIsPlace(s: State, id: ClientId)
    requires Inv(s)
    ensures DetachedOpen(s, id) <==> id in s.place && s.place[id].Detached?
  {
    forall t | t in s.notifying && id in s.notifying[t].rest
      ensures At(s, id, if s.notifying[t].headClosed && s.notifying[t].rest[0] == id then Closed(DropAll(t))
              else Detached(DropAll(t)))
    {
      assert NotifyAgrees(s, t, s.notifying[t]);
    }
    if id in s.place && s.place[id].Detached? {
      assert Held(s, id, s.place[id]);
    }
  }

  /**
   * In every state each accepted client is in exactly one stage, so its descriptor is closed at most once; it is
   * reported disconnected at most once, and only after its close. Once close has returned, every client was closed
   * exactly once.
   */
  lemma ExactlyOnceDeparture(serverFd: int, steps: seq<Step>, id: ClientId)
    requires CanRun(Init(serverFd), steps)
    ensures var s := After(Init(serverFd), steps);
            && Stages(s, id) == (if id in s.fds then 1 else 0)
            && s.disconnects[id] <= s.closes[id] <= 1
            && (s.monitor.Joined? && id in s.fds ==> s.closes[id] == 1)
  {
    SessionKeepsInv(serverFd, steps);
    var s := After(Init(serverFd), steps);
    assert CountsAgree(s, id);
    DetachedOpenIsPlace(s, id);
    if id in s.place { assert Held(s, id, s.place[id]); }
    if id in s.active {
      var k :| 0 <= k < |s.active| && s.active[k] == id;
      assert At(s, s.active[k], Active);
    }
  }

  /** The step takes the client off the active list, in the Disconnected arm or in dropAll. */
  ghost predicate Leaves(s: State, e: Step, id: ClientId)
    requires Enabled(s, e)
  {
    id in s.active && id !in Next(s, e).active && e != ByCaller(CloseRest)
  }

  predicate OnItsWay(p: Place) { p.Detached? || p.Closed? || p.Departed? }

  lemma MonitorKeepsActive(s: State, m: MonitorStep)
    requires MonitorEnabled(s, m) && !m.Erase?
    ensures forall id :: id in s.active ==> id in MonitorNext(s, m).active
  {
  }

  lemma CallerKeepsActive(s: State, c: CallerStep)
    requires CallerEnabled(s, c) && !c.Swap? && !c.CloseRest?
    ensures CallerNext(s, c).active == s.active
  {
  }

  lemma LeavingDetaches(s: State, e: Step, id: ClientId)
    requires Inv(s) && Enabled(s, e) && Leaves(s, e, id)
    ensures id in Next(s, e).place && OnItsWay(Next(s, e).place[id])
  {
    var k :| 0 <= k < |s.active| && s.active[k] == id;
    assert At(s, s.active[k], Active);
    match e
    case ByMonitor(m) =>
      if m.Erase? { WithoutMembers(s.active, s.monitor.id); } else { MonitorKeepsActive(s, m); }
    case ByCaller(c) =>
      if !c.Swap? { CallerKeepsActive(s, c); }
  }

  lemma MonitorKeepsWay(s: State, m: MonitorStep, id: ClientId)
    requires HoldersAgree(s) && MonitorEnabled(s, m) && id in s.place && OnItsWay(s.place[id])
    ensures id in MonitorNext(s, m).place && OnItsWay(MonitorNext(s, m).place[id])
  {
  }

  lemma CallerKeepsWay(s: State, c: CallerStep, id: ClientId)
    requires HoldersAgree(s) && CallerEnabled(s, c) && id in s.place && OnItsWay(s.place[id])
    ensures id in CallerNext(s, c).place && OnItsWay(CallerNext(s, c).place[id])
  {
  }

  lemma {:induction false} RunKeepsWay(s: State, steps: seq<Step>, id: ClientId)
    requires Inv(s) && CanRun(s, steps) && id in s.place && OnItsWay(s.place[id])
    ensures var s' := After(s, steps);
            Inv(s') && id in s'.place && OnItsWay(s'.place[id])
    decreases steps
  {
    if steps != [] {
      StepKeepsInv(s, steps[0]);
      match steps[0] {
        case ByMonitor(m) => MonitorKeepsWay(s, m, id);
        case ByCaller(c) => CallerKeepsWay(s, c, id);
      }
      RunKeepsWay(Next(s, steps[0]), steps[1..], id);
    }
  }

  /**
   * A client that leaves the active list through the Disconnected arm or through dropAll has, by the end of the
   * session, exactly one close and exactly one disconnect callback, whatever raced with it.
   */
  lemma LeaversAreReportedOnce(serverFd: int, before: seq<Step>, e: Step, rest: seq<Step>, id: ClientId)
    requires CanRun(Init(serverFd), before) && Enabled(After(Init(serverFd), before), e)
    requires Leaves(After(Init(serverFd), before), e, id)
    requires CanRun(Next(After(Init(serverFd), before), e), rest)
    ensures var s := After(Next(After(Init(serverFd), before), e), rest);
            s.monitor.Joined? ==> s.disconnects[id] == 1 && s.closes[id] == 1
  {
    SessionKeepsInv(serverFd, before);
    var s := After(Init(serverFd), before);
    LeavingDetaches(s, e, id);
    StepKeepsInv(s, e);
    RunKeepsWay(Next(s, e), rest, id);
    assert CountsAgree(After(Next(s, e), rest), id);
  }

  lemma MonitorKeepsAbandoned(s: State, m: MonitorStep, id: ClientId)
    requires HoldersAgree(s) && MonitorEnabled(s, m) && At(s, id, Abandoned)
    ensures At(MonitorNext(s, m), id, Abandoned)
  {
  }

  lemma CallerKeepsAbandoned(s: State, c: CallerStep, id: ClientId)
    requires HoldersAgree(s) && CallerEnabled(s, c) && At(s, id, Abandoned)
    ensures At(CallerNext(s, c), id, Abandoned)
  {
  }

  lemma {:induction false} RunKeepsAbandoned(s: State, steps: seq<Step>, id: ClientId)
    requires Inv(s) && CanRun(s, steps) && At(s, id, Abandoned)
    ensures Inv(After(s, steps)) && At(After(s, steps), id, Abandoned)
    decreases steps
  {
    if steps != [] {
      StepKeepsInv(s, steps[0]);
      match steps[0] {
        case ByMonitor(m) => MonitorKeepsAbandoned(s, m, id);
        case ByCaller(c) => CallerKeepsAbandoned(s, c, id);
      }
      RunKeepsAbandoned(Next(s, steps[0]), steps[1..], id);
    }
  }

  /** A client still active when close runs is closed once and never reported. */
  lemma RestIsClosedSilently(serverFd: int, before: seq<Step>, rest: seq<Step>, id: ClientId)
    requires CanRun(Init(serverFd), before) && CallerEnabled(After(Init(serverFd), before), CloseRest)
    requires id in After(Init(serverFd), before).active
    requires CanRun(CallerNext(After(Init(serverFd), before), CloseRest), rest)
    ensures var s := After(CallerNext(After(Init(serverFd), before), CloseRest), rest);
            s.closes[id] == 1 && s.disconnects[id] == 0
  {
    SessionKeepsInv(serverFd, before);
    var s := After(Init(serverFd), before);
    var k :| 0 <= k < |s.active| && s.active[k] == id;
    assert At(s, s.active[k], Active);
    CallerKeepsInv(s, CloseRest);
    RunKeepsAbandoned(CallerNext(s, CloseRest), rest, id);
    assert CountsAgree(After(CallerNext(s, CloseRest), rest), id);
  }

  /**
   * Callbacks of one client: at most one of each kind, and the disconnect callback overtakes the connect callback
   * exactly while the monitor has not yet announced a client that a dropAll has already reported.
   */
  lemma CallbackOrder(serverFd: int, steps: seq<Step>, id: ClientId)
    requires CanRun(Init(serverFd), steps)
    ensures var s := After(Init(serverFd), steps);
            && s.connects[id] <= 1 && s.disconnects[id] <= 1
            && (s.disconnects[id] > s.connects[id]
               <==> At(s, id, Departed) && s.monitor.Announcing? && s.monitor.id == id)
  {
    SessionKeepsInv(serverFd, steps);
    assert CountsAgree(After(Init(serverFd), steps), id);
  }

  // The round barrier.

  /** What awaitClose answers from its final check, made under the client mutex. */
  function AwaitCloseAnswer(s: State): SocketResult {
    if !s.monitoring then SocketResult(SocketClosed, -1)
    else if s.active != [] then SocketResult(SocketTimeout, Int32(|s.active|))
    else SocketResult(Success, 0)
  }

  ghost function ActiveClients(s: State): set<ClientId> {
    set id | id in s.place && s.place[id].Active?
  }

  /** The active list holds the active clients, each once. */
  lemma ActiveListIsActiveClients(s: State)
    requires Inv(s)
    ensures |ActiveClients(s)| == |s.active|
    ensures forall id :: id in s.active <==> id in ActiveClients(s)
  {
    forall id
      ensures id in s.active <==> id in ActiveClients(s)
    {
      if id in s.active {
        var k :| 0 <= k < |s.active| && s.active[k] == id;
        assert At(s, s.active[k], Active);
      }
      if id in ActiveClients(s) { assert Held(s, id, s.place[id]); }
    }
    NoDupSize(s.active, ActiveClients(s));
  }

  /** While the server is open awaitClose answers exactly how many clients are active, and Success only for none. */
  lemma AwaitCloseCountsActive(serverFd: int, steps: seq<Step>)
    requires CanRun(Init(serverFd), steps) && After(Init(serverFd), steps).monitoring
    ensures var s := After(Init(serverFd), steps);
            && AwaitCloseAnswer(s).bytes == Int32(|ActiveClients(s)|)
            && AwaitCloseAnswer(s).code == (if ActiveClients(s) == {} then Success else SocketTimeout)
  {
    SessionKeepsInv(serverFd, steps);
    ActiveListIsActiveClients(After(Init(serverFd), steps));
  }

  /** What awaitClose answers, open or not. */
  lemma AwaitCloseAnswersIff(serverFd: int, steps: seq<Step>)
    requires CanRun(Init(serverFd), steps)
    ensures var s := After(Init(serverFd), steps);
            var code := AwaitCloseAnswer(s).code;
            && (code.SocketClosed? <==> !s.monitoring)
            && (code.SocketTimeout? <==> s.monitoring && ActiveClients(s) != {})
            && (code.Success? <==> s.monitoring && ActiveClients(s) == {})
  {
    SessionKeepsInv(serverFd, steps);
    ActiveListIsActiveClients(After(Init(serverFd), steps));
  }

  /** The client has been on the active list, now or earlier. */
  predicate HasEntered(s: State, id: ClientId) { id in s.place && !s.place[id].Local? }

  lemma MonitorAddsOnlyLocal(s: State, m: MonitorStep, id: ClientId)
    requires HoldersAgree(s) && MonitorEnabled(s, m) && !m.Erase? && HasEntered(s, id) && id !in s.active
    ensures id !in MonitorNext(s, m).active
  {
  }

  lemma CallerAddsNone(s: State, c: CallerStep, id: ClientId)
    requires HoldersAgree(s) && CallerEnabled(s, c) && HasEntered(s, id) && id !in s.active
    ensures HasEntered(CallerNext(s, c), id) && id !in CallerNext(s, c).active
  {
  }

  lemma StepNeverReactivates(s: State, e: Step, id: ClientId)
    requires Inv(s) && Enabled(s, e) && HasEntered(s, id) && id !in s.active
    ensures HasEntered(Next(s, e), id) && id !in Next(s, e).active
  {
    match e
    case ByMonitor(m) =>
      MonitorKeepsPlaced(s, m, id);
      if m.Erase? { WithoutMembers(s.active, s.monitor.id); } else { MonitorAddsOnlyLocal(s, m, id); }
    case ByCaller(c) => CallerAddsNone(s, c, id);
  }

  lemma {:induction false} RunNeverReactivates(s: State, steps: seq<Step>, id: ClientId)
    requires Inv(s) && CanRun(s, steps) && HasEntered(s, id) && id !in s.active
    ensures HasEntered(After(s, steps), id) && id !in After(s, steps).active
    decreases steps
  {
    if steps != [] {
      StepKeepsInv(s, steps[0]);
      StepNeverReactivates(s, steps[0], id);
      RunNeverReactivates(Next(s, steps[0]), steps[1..], id);
    }
  }

  /**
   * Once awaitClose has answered Success, no client that had entered the active list before is in the snapshot
   * of any write that starts later.
   */
  lemma RoundBarrier(serverFd: int, before: seq<Step>, later: seq<Step>, t: ThreadId, id: ClientId)
    requires CanRun(Init(serverFd), before) && CanRun(After(Init(serverFd), before), later)
    requires AwaitCloseAnswer(After(Init(serverFd), before)).code.Success?
    requires HasEntered(After(Init(serverFd), before), id)
    requires CallerEnabled(After(After(Init(serverFd), before), later), SnapshotForWrite(t))
    ensures id !in CallerNext(After(After(Init(serverFd), before), later), SnapshotForWrite(t)).writing[t]
  {
    SessionKeepsInv(serverFd, before);
    RunNeverReactivates(After(Init(serverFd), before), later, id);
  }

  /**
   * awaitClose answers Success as soon as the active list is empty. A client that had entered before then is still
   * open exactly while the Disconnected arm or a dropAll has detached it and not yet closed it.
   */
  lemma AwaitCloseLeavesOpenIff(serverFd: int, steps: seq<Step>, id: ClientId)
    requires CanRun(Init(serverFd), steps)
    requires AwaitCloseAnswer(After(Init(serverFd), steps)).code.Success?
    requires HasEntered(After(Init(serverFd), steps), id)
    ensures After(Init(serverFd), steps).closes[id] == 0 <==> DetachedOpen(After(Init(serverFd), steps), id)
  {
    SessionKeepsInv(serverFd, steps);
    var s := After(Init(serverFd), steps);
    assert Held(s, id, s.place[id]);
    ExactlyOnceDeparture(serverFd, steps, id);
  }

  // await.

  /** What await answers from its two critical sections; the mutex is released in between. */
  function AwaitAnswer(first: State, second: State): SocketResult {
    if !first.monitoring then SocketResult(SocketClosed, -1)
    else if first.active == [] then SocketResult(SocketTimeout, -1)
    else if !second.monitoring then SocketResult(SocketClosed, -1)
    else SocketResult(Success, Int32(|second.active|))
  }

  lemma CallerKeepsEntered(s: State, c: CallerStep, id: ClientId)
    requires CallerEnabled(s, c) && HasEntered(s, id)
    ensures HasEntered(CallerNext(s, c), id)
  {
  }

  /**
   * await answers closed exactly when a section it reached found monitoring off, a timeout exactly when its first
   * section was open with nobody active, and success otherwise.
   */
  lemma AwaitAnswersIff(serverFd: int, before: seq<Step>, between: seq<Step>)
    requires CanRun(Init(serverFd), before) && CanRun(After(Init(serverFd), before), between)
    ensures var first := After(Init(serverFd), before);
            var second := After(first, between);
            var code := AwaitAnswer(first, second).code;
            && (code.SocketClosed? <==> !first.monitoring || (ActiveClients(first) != {} && !second.monitoring))
            && (code.SocketTimeout? <==> first.monitoring && ActiveClients(first) == {})
            && (code.Success? <==> first.monitoring && ActiveClients(first) != {} && second.monitoring)
  {
    SessionKeepsInv(serverFd, before);
    ActiveListIsActiveClients(After(Init(serverFd), before));
  }

  lemma {:induction false} RunKeepsEntered(s: State, steps: seq<Step>, id: ClientId)
    requires Inv(s) && CanRun(s, steps) && HasEntered(s, id)
    ensures HasEntered(After(s, steps), id)
    decreases steps
  {
    if steps != [] {
      StepKeepsInv(s, steps[0]);
      match steps[0] {
        case ByMonitor(m) => MonitorKeepsPlaced(s, m, id);
        case ByCaller(c) => CallerKeepsEntered(s, c, id);
      }
      RunKeepsEntered(Next(s, steps[0]), steps[1..], id);
    }
  }

  /** The steps that can leave the active list empty: dropAll's swap, close, and the erase of the only active client. */
  ghost predicate Empties(s: State, e: Step) {
    match e
    case ByMonitor(m) => m.Erase? && s.monitor.Removed? && s.active == [s.monitor.id]
    case ByCaller(c) => c.Swap? || c.CloseRest?
  }

  predicate NoPush(steps: seq<Step>) {
    ByMonitor(Push) !in steps
  }

  /** Some step empties the active list and no client is pushed after it. */
  ghost predicate EmptiedForGood(s: State, steps: seq<Step>)
    requires CanRun(s, steps)
    decreases steps
  {
    steps != [] && ((Empties(s, steps[0]) && NoPush(steps[1..])) || EmptiedForGood(Next(s, steps[0]), steps[1..]))
  }

  lemma EraseEmptiesIff(s: State)
    requires MonitorEnabled(s, Erase) && NoDup(s.active)
    ensures MonitorNext(s, Erase).active == [] <==> s.active == [s.monitor.id] || s.active == []
  {
    WithoutMembers(s.active, s.monitor.id);
  }

  lemma MonitorKeepsActiveList(s: State, m: MonitorStep)
    requires MonitorEnabled(s, m) && !m.Erase? && !m.Push?
    ensures MonitorNext(s, m).active == s.active
  {
  }

  /** After a step nobody is active exactly when it empties the list, or the list was empty and nobody is pushed. */
  lemma StepEmptiesIff(s: State, e: Step)
    requires Inv(s) && Enabled(s, e)
    ensures Next(s, e).active == [] <==> Empties(s, e) || (s.active == [] && e != ByMonitor(Push))
  {
    match e
    case ByMonitor(m) =>
      if m.Erase? { EraseEmptiesIff(s); } else if !m.Push? { MonitorKeepsActiveList(s, m); }
    case ByCaller(c) =>
      if !c.Swap? && !c.CloseRest? { CallerKeepsActive(s, c); }
  }

  lemma {:induction false} RunEmptiesIff(s: State, steps: seq<Step>)
    requires Inv(s) && CanRun(s, steps)
    ensures After(s, steps).active == [] <==> (s.active == [] && NoPush(steps)) || EmptiedForGood(s, steps)
    decreases steps
  {
    if steps != [] {
      StepKeepsInv(s, steps[0]);
      StepEmptiesIff(s, steps[0]);
      RunEmptiesIff(Next(s, steps[0]), steps[1..]);
      assert NoPush(steps) <==> steps[0] != ByMonitor(Push) && NoPush(steps[1..]) by {
        assert steps == [steps[0]] + steps[1..];
      }
    }
  }

  /** A step that takes nobody off the active list: no swap, no close, no erase of an active client. */
  ghost predicate KeepsEveryone(s: State, e: Step) {
    match e
    case ByMonitor(m) => m.Erase? && s.monitor.Removed? ==> s.monitor.id !in s.active
    case ByCaller(c) => !c.Swap? && !c.CloseRest?
  }

  ghost predicate NobodyLeaves(s: State, steps: seq<Step>)
    requires CanRun(s, steps)
    decreases steps
  {
    steps == [] || (KeepsEveryone(s, steps[0]) && NobodyLeaves(Next(s, steps[0]), steps[1..]))
  }

  lemma NobodyLeavesIn(s: State, e: Step)
    requires Enabled(s, e) && KeepsEveryone(s, e)
    ensures s.active <= Next(s, e).active
  {
    match e
    case ByMonitor(m) => if !m.Erase? && !m.Push? { MonitorKeepsActiveList(s, m); }
    case ByCaller(c) => CallerKeepsActive(s, c);
  }

  lemma {:induction false} ActiveListGrows(s: State, steps: seq<Step>)
    requires CanRun(s, steps) && NobodyLeaves(s, steps)
    ensures s.active <= After(s, steps).active
    decreases steps
  {
    if steps != [] {
      assert s.active <= Next(s, steps[0]).active by { NobodyLeavesIn(s, steps[0]); }
      ActiveListGrows(Next(s, steps[0]), steps[1..]);
    }
  }

  /**
   * A successful await saw at least one active client at its first section and carries the number of active clients at
   * its second. That number is zero exactly when some step in between emptied the active list and nobody was pushed
   * after it, and it is no lower than at the first section when nobody left.
   */
  lemma AwaitIsLinearizable(serverFd: int, before: seq<Step>, between: seq<Step>)
    requires CanRun(Init(serverFd), before) && CanRun(After(Init(serverFd), before), between)
    requires AwaitAnswer(After(Init(serverFd), before), After(After(Init(serverFd), before), between)).code.Success?
    ensures var first := After(Init(serverFd), before);
            var second := After(first, between);
            && ActiveClients(first) != {}
            && AwaitAnswer(first, second).bytes == Int32(|ActiveClients(second)|)
            && (ActiveClients(second) == {} <==> EmptiedForGood(first, between))
            && (NobodyLeaves(first, between) ==> |ActiveClients(first)| <= |ActiveClients(second)|)
  {
    SessionKeepsInv(serverFd, before);
    var first := After(Init(serverFd), before);
    var second := After(first, between);
    RunKeepsInv(first, between);
    ActiveListIsActiveClients(first);
    ActiveListIsActiveClients(second);
    RunEmptiesIff(first, between);
    if NobodyLeaves(first, between) { ActiveListGrows(first, between); }
  }

  /** A client that await saw at its first section and that is gone at its second is never active again. */
  lemma AwaitedClientsDoNotReturn(serverFd: int, before: seq<Step>, between: seq<Step>, later: seq<Step>, id: ClientId)
    requires CanRun(Init(serverFd), before) && CanRun(After(Init(serverFd), before), between)
    requires CanRun(After(After(Init(serverFd), before), between), later)
    requires id in ActiveClients(After(Init(serverFd), before))
    requires id !in ActiveClients(After(After(Init(serverFd), before), between))
    ensures id !in ActiveClients(After(After(After(Init(serverFd), before), between), later))
  {
    SessionKeepsInv(serverFd, before);
    var first := After(Init(serverFd), before);
    var second := After(first, between);
    RunKeepsInv(first, between);
    RunKeepsInv(second, later);
    ActiveListIsActiveClients(second);
    ActiveListIsActiveClients(After(second, later));
    RunKeepsEntered(first, between, id);
    RunNeverReactivates(second, later, id);
  }
}
