/** Reclamation safety and the whole invariant of the broadcast protocol. */
module BroadcastSafety {
  import opened Sockets
  import opened EventListener
  import opened BroadcastProtocol
  import opened BroadcastHolders
  import opened BroadcastLists

  /** Owned by the active list, the pending list, or a dropAll inside its critical section. */
  ghost predicate Owned(s: State, id: ClientId) {
    id in s.active || id in s.pending || (s.section.Detaching? && id in s.section.all)
  }

  /** Ownership ends only when the pending list is cleared, when this arm erases the client, or at close. */
  lemma MonitorKeepsOwned(s: State, m: MonitorStep, id: ClientId)
    requires HoldersAgree(s) && MonitorEnabled(s, m) && Owned(s, id)
    requires !m.Clear? && !(m.Erase? && s.monitor.id == id)
    ensures Owned(MonitorNext(s, m), id)
  {
    match m
    case Enter => case Snapshot => case Poll(_) => case Ignore => case AcceptFails =>
    case AcceptClient(_, _) => case Register => case Push => case ConnectCallback => case Unregister =>
    case Erase => WithoutMembers(s.active, s.monitor.id);
    case CloseClient => case DisconnectCallback => case EndBatch =>
  }

  lemma CallerKeepsOwned(s: State, c: CallerStep, id: ClientId)
    requires HoldersAgree(s) && CallerEnabled(s, c) && Owned(s, id) && !c.CloseRest?
    ensures Owned(CallerNext(s, c), id)
  {
  }

  // The raw pointers the monitor can still follow.

  ghost predicate EntryIsSafe(s: State, e: Entry) {
    match e.context
    case ServerContext => e.fd == s.registry.serverSocket
    case ClientContext(id) => id in s.fds && id in s.place && e.fd == s.fds[id] && !s.place[id].Local? && Owned(s, id)
  }

  ghost predicate EventIsSafe(s: State, e: Event) {
    && e.entry.Some? && EntryIsSafe(s, e.entry.value)
    && (e.kind.Disconnected? ==> e.entry.value.context.ClientContext?)
  }

  ghost predicate SnapshotIsSafe(s: State, r: Registry) {
    && Sound(r) && r.serverSocket == s.registry.serverSocket
    && (forall k :: 0 <= k < |r.contexts| ==> EntryIsSafe(s, r.contexts[k]))
  }

  ghost predicate BatchIsSafe(s: State, rest: seq<Event>) {
    && (forall k :: 0 <= k < |rest| ==> EventIsSafe(s, rest[k]))
    && (forall k, l :: 0 <= k < l < |rest| ==> rest[k].entry != rest[l].entry)
  }

  predicate HoldsBatch(m: Monitor) {
    !m.LoopTop? && !m.Entering? && !m.Cleared? && !m.Polling? && !m.Exited? && !m.Joined?
  }

  ghost predicate MonitorIsSafe(s: State) {
    && (s.monitor.Polling? ==> SnapshotIsSafe(s, s.monitor.snapshot))
    && (HoldsBatch(s.monitor) ==> BatchIsSafe(s, s.monitor.rest))
    && (s.monitor.Removed? ==>
          && Owned(s, s.monitor.id) && s.monitor.id in s.fds
          && forall k :: 0 <= k < |s.monitor.rest| ==> s.monitor.rest[k].entry != Some(EntryOf(s, s.monitor.id)))
  }

  lemma MonitorKeepsConstants(s: State, m: MonitorStep)
    requires MonitorEnabled(s, m)
    ensures MonitorNext(s, m).registry.serverSocket == s.registry.serverSocket
    ensures forall id :: id in s.fds ==> id in MonitorNext(s, m).fds && MonitorNext(s, m).fds[id] == s.fds[id]
  {
  }

  lemma MonitorKeepsPlaced(s: State, m: MonitorStep, id: ClientId)
    requires MonitorEnabled(s, m) && id in s.place && !s.place[id].Local?
    ensures id in MonitorNext(s, m).place && !MonitorNext(s, m).place[id].Local?
  {
  }

  lemma MonitorKeepsEntry(s: State, m: MonitorStep, e: Entry)
    requires HoldersAgree(s) && MonitorEnabled(s, m) && EntryIsSafe(s, e)
    requires !m.Clear? && !(m.Erase? && ClientContext(s.monitor.id) == e.context)
    ensures EntryIsSafe(MonitorNext(s, m), e)
  {
    MonitorKeepsConstants(s, m);
    if e.context.ClientContext? {
      MonitorKeepsOwned(s, m, e.context.id);
      MonitorKeepsPlaced(s, m, e.context.id);
    }
  }

  lemma CallerKeepsEntry(s: State, c: CallerStep, e: Entry)
    requires HoldersAgree(s) && CallerEnabled(s, c) && EntryIsSafe(s, e) && !c.CloseRest?
    ensures EntryIsSafe(CallerNext(s, c), e)
  {
    if e.context.ClientContext? {
      CallerKeepsOwned(s, c, e.context.id);
    }
    match c
    case Swap(t) => case RemoveNext => case HandOff => case CloseNext(t) => case CallbackNext(t) =>
    case ReturnFromDropAll(t) => case SnapshotForWrite(t) => case ReturnFromWrite(t) => case StopMonitoring =>
  }

  lemma BatchStays(s: State, s': State, rest: seq<Event>)
    requires BatchIsSafe(s, rest)
    requires forall k :: 0 <= k < |rest| ==> EntryIsSafe(s', rest[k].entry.value)
    ensures BatchIsSafe(s', rest)
  {
    forall k | 0 <= k < |rest|
      ensures EventIsSafe(s', rest[k])
    {
      assert EventIsSafe(s, rest[k]);
    }
  }

  lemma BatchTail(s: State, rest: seq<Event>)
    requires BatchIsSafe(s, rest) && rest != []
    ensures BatchIsSafe(s, rest[1..])
    ensures forall k :: 0 <= k < |rest[1..]| ==> rest[1..][k].entry != rest[0].entry
  {
  }

  /**
   * The snapshot holds only registered clients, and those are active or in the hands of a dropAll holding the mutex.
   */
  lemma SnapshotTakenIsSafe(s: State)
    requires HoldersAgree(s) && ListsAgree(s) && Sound(s.registry) && MonitorEnabled(s, Snapshot)
    ensures SnapshotIsSafe(s, s.registry)
  {
    forall k | 0 <= k < |s.registry.contexts|
      ensures EntryIsSafe(s, s.registry.contexts[k])
    {
      if k > 0 {
        RegisteredAreOpen(s, k);
        var id := s.registry.contexts[k].context.id;
        var i :| 0 <= i < |Listed(s)| && Listed(s)[i] == id;
        if s.section.Detaching? {
          assert At(s, s.section.all[s.section.removed + i], Detached(DropAll(s.section.t)));
        } else {
          assert At(s, s.active[i], Active);
        }
      }
    }
  }

  /** The batch that wait returns from a safe snapshot is safe. */
  lemma BatchCollectedIsSafe(s: State, r: Registry, revents: seq<Revents>)
    requires SnapshotIsSafe(s, r) && PollAnswer(r, revents)
    ensures BatchIsSafe(s, Collect(r, revents, |r.handle|))
  {
    var rest := Collect(r, revents, |r.handle|);
    WaitIsSound(r, revents);
    CollectsReady(r, revents, |r.handle|);
    forall k | 0 <= k < |rest|
      ensures EventIsSafe(s, rest[k])
    {
      var i := ReadyIndices(revents, |r.handle|)[k];
      assert rest[k] == EventAt(r, revents, i);
      var j :| 0 <= j < |r.contexts| && r.contexts[j] == rest[k].entry.value;
      assert EntryIsSafe(s, r.contexts[j]);
      assert rest[k].entry.value.fd == r.handle[i].fd;
    }
    forall k, l | 0 <= k < l < |rest|
      ensures rest[k].entry != rest[l].entry
    {
      assert rest[k].entry.value.context != rest[l].entry.value.context;
    }
  }

  /** A step that keeps every entry keeps the batch the monitor holds. */
  lemma HeldBatchStays(s: State, m: MonitorStep, rest: seq<Event>)
    requires HoldersAgree(s) && MonitorEnabled(s, m) && BatchIsSafe(s, rest) && !m.Clear? && !m.Erase?
    ensures BatchIsSafe(MonitorNext(s, m), rest)
  {
    forall k | 0 <= k < |rest|
      ensures EntryIsSafe(MonitorNext(s, m), rest[k].entry.value)
    {
      assert EventIsSafe(s, rest[k]);
      MonitorKeepsEntry(s, m, rest[k].entry.value);
    }
    BatchStays(s, MonitorNext(s, m), rest);
  }

  lemma EraseKeepsSafe(s: State)
    requires HoldersAgree(s) && MonitorIsSafe(s) && MonitorEnabled(s, Erase)
    ensures MonitorIsSafe(MonitorNext(s, Erase))
  {
    var rest := s.monitor.rest;
    forall k | 0 <= k < |rest|
      ensures EntryIsSafe(MonitorNext(s, Erase), rest[k].entry.value)
    {
      assert EventIsSafe(s, rest[k]);
      assert rest[k].entry != Some(EntryOf(s, s.monitor.id));
      MonitorKeepsEntry(s, Erase, rest[k].entry.value);
    }
    BatchStays(s, MonitorNext(s, Erase), rest);
  }

  lemma UnregisterKeepsSafe(s: State)
    requires HoldersAgree(s) && MonitorIsSafe(s) && MonitorEnabled(s, Unregister)
    ensures MonitorIsSafe(MonitorNext(s, Unregister))
  {
    var rest := s.monitor.rest;
    assert EventIsSafe(s, rest[0]);
    BatchTail(s, rest);
    HeldBatchStays(s, Unregister, rest[1..]);
    MonitorKeepsEntry(s, Unregister, rest[0].entry.value);
  }

  lemma MonitorKeepsSafe(s: State, m: MonitorStep)
    requires HoldersAgree(s) && MonitorIsSafe(s) && MonitorEnabled(s, m)
    requires m.Snapshot? ==> ListsAgree(s) && Sound(s.registry)
    ensures MonitorIsSafe(MonitorNext(s, m))
  {
    match m
    case Enter => case Clear =>
    case Snapshot => SnapshotTakenIsSafe(s);
    case Poll(result) =>
      if result.Readiness? {
        BatchCollectedIsSafe(s, s.monitor.snapshot, result.revents);
        HeldBatchStays(s, m, Collect(s.monitor.snapshot, result.revents, |s.monitor.snapshot.handle|));
      }
    case Ignore | AcceptFails | AcceptClient(_, _) =>
      BatchTail(s, s.monitor.rest); HeldBatchStays(s, m, s.monitor.rest[1..]);
    case Unregister => UnregisterKeepsSafe(s);
    case Register | Push | ConnectCallback | CloseClient | DisconnectCallback => HeldBatchStays(s, m, s.monitor.rest);
    case Erase => EraseKeepsSafe(s);
    case EndBatch =>
  }

  lemma CallerKeepsMonitor(s: State, c: CallerStep)
    requires CallerEnabled(s, c) && !c.CloseRest?
    ensures CallerNext(s, c).monitor == s.monitor && CallerNext(s, c).fds == s.fds
    ensures CallerNext(s, c).registry.serverSocket == s.registry.serverSocket
  {
  }

  lemma CallerKeepsSafe(s: State, c: CallerStep)
    requires HoldersAgree(s) && MonitorIsSafe(s) && CallerEnabled(s, c)
    ensures MonitorIsSafe(CallerNext(s, c))
  {
    if !c.CloseRest? {
      var s' := CallerNext(s, c);
      forall e | EntryIsSafe(s, e)
        ensures EntryIsSafe(s', e)
      {
        CallerKeepsEntry(s, c, e);
      }
      CallerKeepsMonitor(s, c);
      if HoldsBatch(s.monitor) {
        assert forall k :: 0 <= k < |s.monitor.rest| ==> EventIsSafe(s, s.monitor.rest[k]);
        BatchStays(s, s', s.monitor.rest);
      }
      if s.monitor.Removed? { CallerKeepsOwned(s, c, s.monitor.id); }
    }
  }

  // The invariant.

  /** Once close has joined the monitor, every client is gone. */
  ghost predicate SessionOver(s: State) {
    s.monitor.Joined? ==> forall id :: id in s.place ==> s.place[id].Departed? || s.place[id].Abandoned?
  }

  ghost predicate Inv(s: State) {
    && HoldersAgree(s)
    && (forall id :: id in s.place ==> Held(s, id, s.place[id]))
    && OpenFdsDiffer(s)
    && (forall id :: CountsAgree(s, id))
    && (forall id :: PendingIsApart(s, id))
    && Sound(s.registry)
    && MonitorIsSafe(s)
    && SessionOver(s)
    && (!s.monitor.Joined? ==> ListsAgree(s))
  }

  lemma InitHolds(serverFd: int)
    ensures Inv(Init(serverFd))
  {
  }

  lemma NotJoinedByMonitor(s: State, m: MonitorStep)
    requires MonitorEnabled(s, m)
    ensures !s.monitor.Joined? && !MonitorNext(s, m).monitor.Joined?
  {
  }

  lemma MonitorKeepsInv(s: State, m: MonitorStep)
    requires Inv(s) && MonitorEnabled(s, m)
    ensures Inv(MonitorNext(s, m))
  {
    var s' := MonitorNext(s, m);
    if m.Unregister? { assert EventIsSafe(s, s.monitor.rest[0]); }
    MonitorKeepsHolders(s, m);
    forall id | id in s'.place
      ensures Held(s', id, s'.place[id])
    {
      MonitorKeepsHeld(s, m, id);
    }
    forall id
      ensures CountsAgree(s', id) && PendingIsApart(s', id)
    {
      MonitorKeepsCounts(s, m, id);
      MonitorKeepsPending(s, m, id);
    }
    MonitorKeepsFds(s, m);
    MonitorKeepsSound(s, m);
    MonitorKeepsSafe(s, m);
    MonitorKeepsLists(s, m);
    NotJoinedByMonitor(s, m);
  }

  lemma CallerKeepsSessionOver(s: State, c: CallerStep)
    requires HoldersAgree(s) && (forall id :: id in s.place ==> Held(s, id, s.place[id])) && SessionOver(s)
             && CallerEnabled(s, c)
    ensures SessionOver(CallerNext(s, c))
    ensures s.monitor.Joined? ==> !c.RemoveNext?
  {
  }

  lemma CallerKeepsInv(s: State, c: CallerStep)
    requires Inv(s) && CallerEnabled(s, c)
    ensures Inv(CallerNext(s, c))
  {
    var s' := CallerNext(s, c);
    CallerKeepsHolders(s, c);
    forall id | id in s'.place
      ensures Held(s', id, s'.place[id])
    {
      CallerOpensNone(s, c, id);
      CallerKeepsHeld(s, c, id);
    }
    forall id
      ensures CountsAgree(s', id) && PendingIsApart(s', id)
    {
      CallerKeepsCounts(s, c, id);
      CallerKeepsPending(s, c, id);
    }
    CallerKeepsFds(s, c);
    CallerKeepsSessionOver(s, c);
    CallerKeepsSafe(s, c);
    if !s.monitor.Joined? {
      CallerKeepsSound(s, c);
      if !c.CloseRest? { CallerKeepsLists(s, c); }
    }
  }

  lemma StepKeepsInv(s: State, e: Step)
    requires Inv(s) && Enabled(s, e)
    ensures Inv(Next(s, e))
  {
    match e
    case ByMonitor(m) => MonitorKeepsInv(s, m);
    case ByCaller(c) => CallerKeepsInv(s, c);
  }
}
