/** Who holds each broadcast client, which descriptors are open, and how often each client was closed and reported. */
module BroadcastHolders {
  import opened Sockets
  import opened BroadcastProtocol

  // Who holds which client.

  ghost predicate At(s: State, id: ClientId, p: Place) { id in s.place && s.place[id] == p }

  /** A dropAll past its critical section holds the rest of its list, the head possibly closed already. */
  ghost predicate NotifyAgrees(s: State, t: ThreadId, n: Notify) {
    && NoDup(n.rest)
    && (n.headClosed ==> n.rest != [])
    && (forall i :: 0 <= i < |n.rest| ==>
          At(s, n.rest[i], if i == 0 && n.headClosed then Closed(DropAll(t)) else Detached(DropAll(t))))
  }

  ghost predicate SectionAgrees(s: State) {
    s.section.Detaching? ==>
      && s.section.t !in s.notifying && s.active == []
      && s.section.removed <= |s.section.all| && NoDup(s.section.all)
      && (forall i :: 0 <= i < |s.section.all| ==> At(s, s.section.all[i], Detached(DropAll(s.section.t))))
  }

  ghost predicate MonitorAgrees(s: State) {
    match s.monitor
    case Accepted(id, _) => At(s, id, Local)
    case Registering(id, _) => At(s, id, Local)
    case Announcing(id, _) => id in s.place && !s.place[id].Local?
    case Removed(id, _) => id in s.place && !s.place[id].Local?
    case Erased(id, _) => At(s, id, Detached(MonitorArm))
    case Closing(id, _) => At(s, id, Closed(MonitorArm))
    case _ => true
  }

  /** Whoever holds a client agrees with the place recorded for it. */
  ghost predicate HoldersAgree(s: State) {
    && s.place.Keys == s.fds.Keys
    && NoDup(s.active)
    && (forall i :: 0 <= i < |s.active| ==> At(s, s.active[i], Active))
    && SectionAgrees(s)
    && (forall t :: t in s.notifying ==> NotifyAgrees(s, t, s.notifying[t]))
    && MonitorAgrees(s)
  }

  /** And every client not yet gone is held where its place says. */
  ghost predicate Held(s: State, id: ClientId, p: Place) {
    match p
    case Local => (s.monitor.Accepted? || s.monitor.Registering?) && s.monitor.id == id
    case Active => id in s.active
    case Detached(agent) =>
      if agent.MonitorArm? then s.monitor.Erased? && s.monitor.id == id
      else (s.section.Detaching? && s.section.t == agent.t && id in s.section.all)
           || (agent.t in s.notifying && id in s.notifying[agent.t].rest)
    case Closed(agent) =>
      if agent.MonitorArm? then s.monitor.Closing? && s.monitor.id == id
      else agent.t in s.notifying && s.notifying[agent.t].headClosed
           && s.notifying[agent.t].rest != [] && s.notifying[agent.t].rest[0] == id
    case Departed => true
    case Abandoned => true
  }

  predicate HeldByDropAll(p: Place) { (p.Detached? || p.Closed?) && p.agent.DropAll? }

  /** The clients of the dropAlls past their critical sections stay put when no place of theirs changes. */
  lemma NotifiersStay(s: State, s': State)
    requires forall t :: t in s.notifying ==> NotifyAgrees(s, t, s.notifying[t])
    requires forall id :: id in s.place && HeldByDropAll(s.place[id]) ==> At(s', id, s.place[id])
    ensures forall t :: t in s.notifying ==> NotifyAgrees(s', t, s.notifying[t])
  {
    forall t | t in s.notifying
      ensures NotifyAgrees(s', t, s.notifying[t])
    {
      assert NotifyAgrees(s, t, s.notifying[t]);
    }
  }

  /** Nothing about holders changes when the lists stay and the monitor still agrees. */
  lemma SameListsKeepHolders(s: State, s': State)
    requires HoldersAgree(s) && MonitorAgrees(s')
    requires s'.place == s.place && s'.fds == s.fds && s'.active == s.active
    requires s'.section == s.section && s'.notifying == s.notifying
    ensures HoldersAgree(s')
  {
    NotifiersStay(s, s');
  }

  /** A client held only by the monitor moves, and every other holder is untouched. */
  lemma MonitorMovesOne(s: State, s': State, id: ClientId, to: Place)
    requires HoldersAgree(s) && MonitorAgrees(s')
    requires id in s.place ==>
             s.place[id].Local? || s.place[id] == Detached(MonitorArm) || s.place[id] == Closed(MonitorArm)
    requires s'.place == s.place[id := to] && s'.fds.Keys == s'.place.Keys
    requires s'.section == s.section && s'.notifying == s.notifying && s'.active == s.active
    ensures HoldersAgree(s')
  {
    NotifiersStay(s, s');
  }

  lemma PushKeepsHolders(s: State)
    requires HoldersAgree(s) && MonitorEnabled(s, Push)
    ensures HoldersAgree(MonitorNext(s, Push))
  {
    NotifiersStay(s, MonitorNext(s, Push));
  }

  lemma EraseKeepsHolders(s: State)
    requires HoldersAgree(s) && MonitorEnabled(s, Erase)
    ensures HoldersAgree(MonitorNext(s, Erase))
  {
    var s' := MonitorNext(s, Erase);
    WithoutMembers(s.active, s.monitor.id);
    forall i | 0 <= i < |s'.active|
      ensures At(s', s'.active[i], Active)
    {
      assert s'.active[i] in s.active;
    }
    NotifiersStay(s, s');
  }

  lemma MonitorKeepsHolders(s: State, m: MonitorStep)
    requires HoldersAgree(s) && MonitorEnabled(s, m)
    requires m.Unregister? ==> !s.place[HeadClient(s.monitor)].Local?
    ensures HoldersAgree(MonitorNext(s, m))
  {
    match m
    case Push => PushKeepsHolders(s);
    case Erase => EraseKeepsHolders(s);
    case AcceptClient(id, _) => MonitorMovesOne(s, MonitorNext(s, m), id, Local);
    case CloseClient => MonitorMovesOne(s, MonitorNext(s, m), s.monitor.id, Closed(MonitorArm));
    case DisconnectCallback => MonitorMovesOne(s, MonitorNext(s, m), s.monitor.id, Departed);
    case Enter | Clear | Snapshot | Poll(_) | Ignore | AcceptFails
       | Register | ConnectCallback | Unregister | EndBatch =>
      SameListsKeepHolders(s, MonitorNext(s, m));
  }

  lemma SwapKeepsHolders(s: State, t: ThreadId)
    requires HoldersAgree(s) && CallerEnabled(s, Swap(t))
    ensures HoldersAgree(CallerNext(s, Swap(t)))
  {
    NotifiersStay(s, CallerNext(s, Swap(t)));
  }

  lemma HandOffKeepsHolders(s: State)
    requires HoldersAgree(s) && CallerEnabled(s, HandOff)
    ensures HoldersAgree(CallerNext(s, HandOff))
  {
    NotifiersStay(s, CallerNext(s, HandOff));
  }

  lemma CloseRestKeepsHolders(s: State)
    requires HoldersAgree(s) && CallerEnabled(s, CloseRest)
    ensures HoldersAgree(CallerNext(s, CloseRest))
  {
  }

  /** The next client of a dropAll moves on. */
  lemma NotifierMovesHead(s: State, c: CallerStep)
    requires HoldersAgree(s) && CallerEnabled(s, c) && (c.CloseNext? || c.CallbackNext?)
    ensures HoldersAgree(CallerNext(s, c))
  {
    var s' := CallerNext(s, c);
    var rest := s.notifying[c.t].rest;
    assert NotifyAgrees(s, c.t, s.notifying[c.t]);
    forall t | t in s'.notifying
      ensures NotifyAgrees(s', t, s'.notifying[t])
    {
      assert NotifyAgrees(s, t, s.notifying[t]);
      if t != c.t { assert rest[0] !in s.notifying[t].rest; }
    }
  }

  lemma CallerKeepsHolders(s: State, c: CallerStep)
    requires HoldersAgree(s) && CallerEnabled(s, c)
    ensures HoldersAgree(CallerNext(s, c))
  {
    match c
    case Swap(t) => SwapKeepsHolders(s, t);
    case HandOff => HandOffKeepsHolders(s);
    case CloseRest => CloseRestKeepsHolders(s);
    case CloseNext(_) => NotifierMovesHead(s, c);
    case CallbackNext(_) => NotifierMovesHead(s, c);
    case RemoveNext => NotifiersStay(s, CallerNext(s, c));
    case ReturnFromDropAll(_) => NotifiersStay(s, CallerNext(s, c));
    case SnapshotForWrite(_) | ReturnFromWrite(_) | StopMonitoring => SameListsKeepHolders(s, CallerNext(s, c));
  }

  lemma MonitorKeepsHeld(s: State, m: MonitorStep, id: ClientId)
    requires HoldersAgree(s) && MonitorEnabled(s, m)
    requires id in s.place ==> Held(s, id, s.place[id])
    requires id in MonitorNext(s, m).place
    ensures Held(MonitorNext(s, m), id, MonitorNext(s, m).place[id])
  {
    match m
    case Enter => case Clear => case Snapshot => case Poll(_) => case Ignore => case AcceptFails =>
    case AcceptClient(_, _) => case Register => case Push => case ConnectCallback => case Unregister =>
    case Erase => WithoutMembers(s.active, s.monitor.id);
    case CloseClient => case DisconnectCallback => case EndBatch =>
  }

  lemma NotifierKeepsHeld(s: State, c: CallerStep, id: ClientId)
    requires HoldersAgree(s) && CallerEnabled(s, c) && (c.CloseNext? || c.CallbackNext? || c.ReturnFromDropAll?)
    requires id in s.place && Held(s, id, s.place[id])
    ensures id in CallerNext(s, c).place && Held(CallerNext(s, c), id, CallerNext(s, c).place[id])
  {
    if c.CallbackNext? {
      var rest := s.notifying[c.t].rest;
      assert rest == [rest[0]] + rest[1..];
    }
  }

  lemma CallerKeepsHeld(s: State, c: CallerStep, id: ClientId)
    requires HoldersAgree(s) && CallerEnabled(s, c)
    requires id in s.place && Held(s, id, s.place[id])
    ensures id in CallerNext(s, c).place && Held(CallerNext(s, c), id, CallerNext(s, c).place[id])
  {
    match c
    case CloseNext(_) | CallbackNext(_) | ReturnFromDropAll(_) => NotifierKeepsHeld(s, c, id);
    case Swap(t) => case RemoveNext => case HandOff => case SnapshotForWrite(t) => case ReturnFromWrite(t) =>
    case StopMonitoring => case CloseRest =>
  }

  // Descriptors.

  ghost predicate OpenFdsDiffer(s: State) {
    && (forall id :: id in s.place && id in s.fds && IsOpen(s.place[id]) ==> s.fds[id] != s.registry.serverSocket)
    && (forall id, other ::
          (id in s.place && id in s.fds && other in s.place && other in s.fds && id != other
           && IsOpen(s.place[id]) && IsOpen(s.place[other])) ==> s.fds[id] != s.fds[other])
  }

  /** Descriptors are only ever added, and only accept adds one. */
  ghost predicate FdsGrow(s: State, s': State) {
    && s'.registry.serverSocket == s.registry.serverSocket
    && (forall id :: id in s.fds ==> id in s'.fds && s'.fds[id] == s.fds[id])
  }

  ghost predicate NotOpened(s: State, s': State, id: ClientId) {
    && (id in s'.place <==> id in s.place)
    && (id in s.place && IsOpen(s'.place[id]) ==> IsOpen(s.place[id]))
  }

  lemma NoneOpenedKeepsFds(s: State, s': State)
    requires OpenFdsDiffer(s) && s'.fds == s.fds && s'.registry.serverSocket == s.registry.serverSocket
    requires forall id :: NotOpened(s, s', id)
    ensures OpenFdsDiffer(s') && FdsGrow(s, s')
  {
    forall id | id in s'.place && IsOpen(s'.place[id])
      ensures id in s.place && IsOpen(s.place[id])
    {
      assert NotOpened(s, s', id);
    }
  }

  lemma MonitorOpensNone(s: State, m: MonitorStep, id: ClientId)
    requires HoldersAgree(s) && MonitorEnabled(s, m) && !m.AcceptClient?
    ensures MonitorNext(s, m).fds == s.fds && MonitorNext(s, m).registry.serverSocket == s.registry.serverSocket
    ensures NotOpened(s, MonitorNext(s, m), id)
  {
    match m
    case Enter => case Clear => case Snapshot => case Poll(_) => case Ignore => case AcceptFails =>
    case Register => case Push => case ConnectCallback => case Unregister =>
    case Erase => case CloseClient => case DisconnectCallback => case EndBatch =>
  }

  lemma MonitorKeepsFds(s: State, m: MonitorStep)
    requires HoldersAgree(s) && OpenFdsDiffer(s) && MonitorEnabled(s, m)
    ensures OpenFdsDiffer(MonitorNext(s, m)) && FdsGrow(s, MonitorNext(s, m))
  {
    if !m.AcceptClient? {
      forall id
        ensures NotOpened(s, MonitorNext(s, m), id)
      {
        MonitorOpensNone(s, m, id);
      }
      MonitorOpensNone(s, m, 0);
      NoneOpenedKeepsFds(s, MonitorNext(s, m));
    }
  }

  lemma CallerOpensNone(s: State, c: CallerStep, id: ClientId)
    requires HoldersAgree(s) && CallerEnabled(s, c)
    ensures CallerNext(s, c).fds == s.fds && CallerNext(s, c).registry.serverSocket == s.registry.serverSocket
    ensures NotOpened(s, CallerNext(s, c), id)
  {
    match c
    case Swap(t) => case RemoveNext => case HandOff => case CloseNext(t) => case CallbackNext(t) =>
    case ReturnFromDropAll(t) => case SnapshotForWrite(t) => case ReturnFromWrite(t) =>
    case StopMonitoring => case CloseRest =>
  }

  lemma CallerKeepsFds(s: State, c: CallerStep)
    requires HoldersAgree(s) && OpenFdsDiffer(s) && CallerEnabled(s, c)
    ensures OpenFdsDiffer(CallerNext(s, c)) && FdsGrow(s, CallerNext(s, c))
  {
    forall id
      ensures NotOpened(s, CallerNext(s, c), id)
    {
      CallerOpensNone(s, c, id);
    }
    CallerOpensNone(s, c, 0);
    NoneOpenedKeepsFds(s, CallerNext(s, c));
  }

  // Callbacks and closes.

  ghost predicate CountsAgree(s: State, id: ClientId) {
    && s.closes[id]
       == (if id in s.place && (s.place[id].Closed? || s.place[id].Departed? || s.place[id].Abandoned?) then 1 else 0)
    && s.disconnects[id] == (if id in s.place && s.place[id].Departed? then 1 else 0)
    && s.connects[id]
       == (if id in s.place && !s.place[id].Local? && !(s.monitor.Announcing? && s.monitor.id == id) then 1 else 0)
  }

  lemma {:induction false} NoDupCount<T>(s: seq<T>, x: T)
    requires NoDup(s)
    ensures multiset(s)[x] == if x in s then 1 else 0
  {
    if s != [] {
      NoDupCount(s[1..], x);
      assert s == [s[0]] + s[1..];
    }
  }

  lemma MonitorKeepsCounts(s: State, m: MonitorStep, id: ClientId)
    requires HoldersAgree(s) && CountsAgree(s, id) && MonitorEnabled(s, m)
    requires m.Unregister? ==> !s.place[HeadClient(s.monitor)].Local?
    ensures CountsAgree(MonitorNext(s, m), id)
  {
    match m
    case Enter => case Clear => case Snapshot => case Poll(_) => case Ignore => case AcceptFails =>
    case AcceptClient(_, _) => case Register => case Push => case ConnectCallback => case Unregister =>
    case Erase => case CloseClient => case DisconnectCallback => case EndBatch =>
  }

  lemma CallerKeepsCounts(s: State, c: CallerStep, id: ClientId)
    requires HoldersAgree(s) && CountsAgree(s, id) && CallerEnabled(s, c)
    ensures CountsAgree(CallerNext(s, c), id)
  {
    match c
    case CloseRest => NoDupCount(s.active, id);
    case Swap(t) => case RemoveNext => case HandOff => case CloseNext(t) => case CallbackNext(t) =>
    case ReturnFromDropAll(t) => case SnapshotForWrite(t) => case ReturnFromWrite(t) => case StopMonitoring =>
  }

  // The pending list.

  /** Handed over by a dropAll: apart from the active list and from the list of a later dropAll. */
  ghost predicate PendingIsApart(s: State, id: ClientId) {
    id in s.pending ==>
      && id in s.place
      && (s.place[id].Departed? || HeldByDropAll(s.place[id]))
      && (s.section.Detaching? ==> id !in s.section.all)
  }

  lemma MonitorKeepsPending(s: State, m: MonitorStep, id: ClientId)
    requires HoldersAgree(s) && PendingIsApart(s, id) && MonitorEnabled(s, m)
    ensures PendingIsApart(MonitorNext(s, m), id)
  {
    match m
    case Enter => case Clear => case Snapshot => case Poll(_) => case Ignore => case AcceptFails =>
    case AcceptClient(_, _) => case Register => case Push => case ConnectCallback => case Unregister =>
    case Erase => case CloseClient => case DisconnectCallback => case EndBatch =>
  }

  lemma CallerKeepsPending(s: State, c: CallerStep, id: ClientId)
    requires HoldersAgree(s) && PendingIsApart(s, id) && CallerEnabled(s, c)
    ensures PendingIsApart(CallerNext(s, c), id)
  {
  }
}
