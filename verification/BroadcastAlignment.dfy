/** When the poll vector and the context vector of the broadcast server stay in step, and when they do not. */
module BroadcastAlignment {
  import opened EventListener
  import opened BroadcastProtocol
  import opened BroadcastHolders
  import opened BroadcastLists
  import opened BroadcastSafety
  import opened BroadcastRuns

  /**
   * The Disconnected arm is about to remove a client that is no longer registered while its descriptor number is
   * polled for another client: removeEvent finds the poll entry by descriptor and takes the other client's.
   */
  ghost predicate StaleHit(s: State, e: Step) {
    && e == ByMonitor(Unregister) && Enabled(s, e)
    && !Registered(s.registry, ClientContext(HeadClient(s.monitor)))
    && Polled(s.registry, s.fds[HeadClient(s.monitor)])
  }

  lemma MonitorKeepsRegistry(s: State, m: MonitorStep)
    requires MonitorEnabled(s, m) && !m.Register? && !m.Unregister?
    ensures MonitorNext(s, m).registry == s.registry
  {
  }

  lemma CallerKeepsRegistry(s: State, c: CallerStep)
    requires CallerEnabled(s, c) && !c.RemoveNext?
    ensures CallerNext(s, c).registry == s.registry
  {
  }

  /** An open client that is not registered has a descriptor nobody polls. */
  lemma OpenUnregisteredIsUnpolled(s: State, id: ClientId)
    requires Inv(s) && !s.monitor.Joined? && id in s.place && IsOpen(s.place[id])
    requires !Registered(s.registry, ClientContext(id))
    ensures !Polled(s.registry, s.fds[id])
  {
    var i := FindFd(s.registry.handle, s.fds[id], 0);
    if i < |s.registry.handle| {
      var j := FindEntry(s.registry.contexts, s.fds[id], 0);
      assert FindEntry(s.registry.contexts, s.registry.handle[i].fd, 0) == j;
      if j > 0 { RegisteredAreOpen(s, j); }
    }
  }

  lemma RegisteredIsPolled(s: State, id: ClientId)
    requires Inv(s) && !s.monitor.Joined? && id in s.fds && Aligned(s.registry)
             && Registered(s.registry, ClientContext(id))
    ensures Polled(s.registry, s.fds[id])
  {
    KnowsClient(s, id);
    var j := FindContext(s.registry.contexts, ClientContext(id), 0);
    assert s.registry.handle[j].fd == s.fds[id];
  }

  /** removeEvent of an open client keeps the vectors in step. */
  lemma OpenRemovalKeepsAligned(s: State, id: ClientId)
    requires Inv(s) && !s.monitor.Joined? && id in s.place && IsOpen(s.place[id]) && Aligned(s.registry)
    ensures Aligned(Remove(s.registry, EntryOf(s, id)))
  {
    KnowsClient(s, id);
    if Registered(s.registry, ClientContext(id)) {
      RegisteredIsPolled(s, id);
    } else {
      OpenUnregisteredIsUnpolled(s, id);
    }
    RemoveKeepsAlignmentIff(s.registry, EntryOf(s, id));
  }

  /** From aligned vectors, a step breaks the alignment exactly when it is a stale hit. */
  lemma AlignmentBreaksIff(s: State, e: Step)
    requires Inv(s) && Enabled(s, e) && Aligned(s.registry)
    ensures Aligned(Next(s, e).registry) <==> !StaleHit(s, e)
  {
    match e
    case ByMonitor(m) =>
      if m.Unregister? {
        var id := HeadClient(s.monitor);
        KnowsClient(s, id);
        if Registered(s.registry, ClientContext(id)) { RegisteredIsPolled(s, id); }
        RemoveKeepsAlignmentIff(s.registry, EntryOf(s, id));
      } else if !m.Register? {
        MonitorKeepsRegistry(s, m);
      }
    case ByCaller(c) =>
      if c.RemoveNext? {
        CallerKeepsSessionOver(s, c);
        assert At(s, s.section.all[s.section.removed], Detached(DropAll(s.section.t)));
        OpenRemovalKeepsAligned(s, s.section.all[s.section.removed]);
      } else {
        CallerKeepsRegistry(s, c);
      }
  }

  ghost predicate AlwaysAligned(s: State, steps: seq<Step>)
    requires CanRun(s, steps)
    decreases steps
  {
    Aligned(s.registry) && (steps == [] || AlwaysAligned(Next(s, steps[0]), steps[1..]))
  }

  ghost predicate NeverStaleHit(s: State, steps: seq<Step>)
    requires CanRun(s, steps)
    decreases steps
  {
    steps == [] || (!StaleHit(s, steps[0]) && NeverStaleHit(Next(s, steps[0]), steps[1..]))
  }

  lemma {:induction false} RunAlignedIff(s: State, steps: seq<Step>)
    requires Inv(s) && Aligned(s.registry) && CanRun(s, steps)
    ensures AlwaysAligned(s, steps) <==> NeverStaleHit(s, steps)
    decreases steps
  {
    if steps != [] {
      StepKeepsInv(s, steps[0]);
      AlignmentBreaksIff(s, steps[0]);
      if Aligned(Next(s, steps[0]).registry) { RunAlignedIff(Next(s, steps[0]), steps[1..]); }
    }
  }

  /** Over a whole session the vectors are index-aligned in every state exactly when no stale hit occurs. */
  lemma SessionAlignedIff(serverFd: int, steps: seq<Step>)
    requires CanRun(Init(serverFd), steps)
    ensures AlwaysAligned(Init(serverFd), steps) <==> NeverStaleHit(Init(serverFd), steps)
  {
    InitHolds(serverFd);
    RunAlignedIff(Init(serverFd), steps);
  }

  // A sufficient condition on the kernel: no descriptor of the current batch is reused before the batch ends.

  ghost predicate Reuses(s: State, e: Step) {
    && e.ByMonitor? && e.m.AcceptClient? && s.monitor.Dispatching?
    && exists k ::
       0 <= k < |s.monitor.rest| && s.monitor.rest[k].entry.Some? && s.monitor.rest[k].entry.value.fd == e.m.fd
  }

  ghost predicate NeverReuses(s: State, steps: seq<Step>)
    requires CanRun(s, steps)
    decreases steps
  {
    steps == [] || (!Reuses(s, steps[0]) && NeverReuses(Next(s, steps[0]), steps[1..]))
  }

  /** No open client other than its own shares the descriptor of an entry the monitor holds. */
  ghost predicate EntryIsApart(s: State, e: Entry) {
    e.context.ClientContext? ==>
      && e.fd != s.registry.serverSocket
      && (forall id :: id in s.place && id in s.fds && id != e.context.id && IsOpen(s.place[id]) ==> s.fds[id] != e.fd)
  }

  ghost predicate SnapshotIsApart(s: State, r: Registry) {
    forall k :: 0 <= k < |r.contexts| ==> EntryIsApart(s, r.contexts[k])
  }

  ghost predicate BatchIsApart(s: State, rest: seq<Event>) {
    forall k :: 0 <= k < |rest| && rest[k].entry.Some? ==> EntryIsApart(s, rest[k].entry.value)
  }

  ghost predicate HeldAreApart(s: State) {
    && (s.monitor.Polling? ==> SnapshotIsApart(s, s.monitor.snapshot))
    && (HoldsBatch(s.monitor) ==> BatchIsApart(s, s.monitor.rest))
  }

  lemma EntryStaysApart(s: State, s': State, e: Entry)
    requires EntryIsApart(s, e) && s'.fds == s.fds && s'.registry.serverSocket == s.registry.serverSocket
    requires forall id :: NotOpened(s, s', id)
    ensures EntryIsApart(s', e)
  {
    forall id | e.context.ClientContext? && id in s'.place && id in s'.fds && id != e.context.id && IsOpen(s'.place[id])
      ensures s'.fds[id] != e.fd
    {
      assert NotOpened(s, s', id);
    }
  }

  /** Entries stay apart while no descriptor is opened. */
  lemma StaysApart(s: State, s': State)
    requires s'.fds == s.fds && s'.registry.serverSocket == s.registry.serverSocket
    requires forall id :: NotOpened(s, s', id)
    ensures forall e :: EntryIsApart(s, e) ==> EntryIsApart(s', e)
  {
    forall e | EntryIsApart(s, e)
      ensures EntryIsApart(s', e)
    {
      EntryStaysApart(s, s', e);
    }
  }

  lemma RegisteredAreApart(s: State)
    requires Inv(s) && !s.monitor.Joined?
    ensures SnapshotIsApart(s, s.registry)
  {
    forall k | 0 <= k < |s.registry.contexts|
      ensures EntryIsApart(s, s.registry.contexts[k])
    {
      if k > 0 { RegisteredAreOpen(s, k); }
    }
  }

  lemma CollectedAreApart(s: State, r: Registry, revents: seq<Revents>)
    requires Sound(r) && |revents| == |r.handle| && SnapshotIsApart(s, r)
    ensures BatchIsApart(s, Collect(r, revents, |r.handle|))
  {
    WaitIsSound(r, revents);
  }

  lemma MonitorKeepsRest(s: State, m: MonitorStep)
    requires HeldAreApart(s) && MonitorEnabled(s, m) && !m.AcceptClient? && !m.Poll? && !m.Snapshot?
    ensures var m' := MonitorNext(s, m).monitor;
            !m'.Polling? && (HoldsBatch(m') ==> BatchIsApart(s, m'.rest))
  {
    match m
    case Ignore | AcceptFails | Unregister =>
      assert forall k :: 0 <= k < |s.monitor.rest[1..]| ==> s.monitor.rest[1..][k] == s.monitor.rest[k + 1];
    case Enter | Clear | Register | Push | ConnectCallback | Erase | CloseClient | DisconnectCallback | EndBatch =>
  }

  /** What the monitor holds after a step other than accept was held, or registered, before. */
  lemma MonitorHoldsLess(s: State, m: MonitorStep)
    requires Inv(s) && HeldAreApart(s) && MonitorEnabled(s, m) && !m.AcceptClient?
    ensures var m' := MonitorNext(s, m).monitor;
            && (m'.Polling? ==> SnapshotIsApart(s, m'.snapshot))
            && (HoldsBatch(m') ==> BatchIsApart(s, m'.rest))
  {
    if m.Poll? {
      if m.result.Readiness? { CollectedAreApart(s, s.monitor.snapshot, m.result.revents); }
    } else if m.Snapshot? {
      NotJoinedByMonitor(s, m);
      RegisteredAreApart(s);
    } else {
      MonitorKeepsRest(s, m);
    }
  }

  lemma AcceptKeepsApart(s: State, id: ClientId, fd: int)
    requires Inv(s) && HeldAreApart(s) && MonitorEnabled(s, AcceptClient(id, fd))
             && !Reuses(s, ByMonitor(AcceptClient(id, fd)))
    ensures HeldAreApart(MonitorNext(s, AcceptClient(id, fd)))
  {
    var s' := MonitorNext(s, AcceptClient(id, fd));
    forall k | 0 <= k < |s'.monitor.rest| && s'.monitor.rest[k].entry.Some?
      ensures EntryIsApart(s', s'.monitor.rest[k].entry.value)
    {
      assert s'.monitor.rest[k] == s.monitor.rest[k + 1];
      assert s.monitor.rest[k + 1].entry.value.fd != fd;
    }
  }

  lemma MonitorKeepsApart(s: State, m: MonitorStep)
    requires Inv(s) && HeldAreApart(s) && MonitorEnabled(s, m) && !Reuses(s, ByMonitor(m))
    ensures HeldAreApart(MonitorNext(s, m))
  {
    if m.AcceptClient? {
      AcceptKeepsApart(s, m.id, m.fd);
    } else {
      var s' := MonitorNext(s, m);
      forall id
        ensures NotOpened(s, s', id)
      {
        MonitorOpensNone(s, m, id);
      }
      MonitorOpensNone(s, m, 0);
      StaysApart(s, s');
      MonitorHoldsLess(s, m);
    }
  }

  lemma CallerKeepsApart(s: State, c: CallerStep)
    requires Inv(s) && HeldAreApart(s) && CallerEnabled(s, c)
    ensures HeldAreApart(CallerNext(s, c))
  {
    var s' := CallerNext(s, c);
    forall id
      ensures NotOpened(s, s', id)
    {
      CallerOpensNone(s, c, id);
    }
    CallerOpensNone(s, c, 0);
    StaysApart(s, s');
    if !c.CloseRest? { CallerKeepsMonitor(s, c); }
  }

  lemma ApartMeansNoStaleHit(s: State, e: Step)
    requires Inv(s) && HeldAreApart(s) && Enabled(s, e)
    ensures !StaleHit(s, e)
  {
    if StaleHit(s, e) {
      var entry := s.monitor.rest[0].entry.value;
      assert EventIsSafe(s, s.monitor.rest[0]);
      var i := FindFd(s.registry.handle, entry.fd, 0);
      var j := FindEntry(s.registry.contexts, entry.fd, 0);
      assert FindEntry(s.registry.contexts, s.registry.handle[i].fd, 0) == j;
      if j > 0 { RegisteredAreOpen(s, j); }
      assert false;
    }
  }

  lemma {:induction false} RunWithoutReuse(s: State, steps: seq<Step>)
    requires Inv(s) && HeldAreApart(s) && CanRun(s, steps) && NeverReuses(s, steps)
    ensures NeverStaleHit(s, steps)
    decreases steps
  {
    if steps != [] {
      ApartMeansNoStaleHit(s, steps[0]);
      StepKeepsInv(s, steps[0]);
      match steps[0] {
        case ByMonitor(m) => MonitorKeepsApart(s, m);
        case ByCaller(c) => CallerKeepsApart(s, c);
      }
      RunWithoutReuse(Next(s, steps[0]), steps[1..]);
    }
  }

  /** When no descriptor of a batch is reused before the batch ends, the vectors are always in step. */
  lemma SessionWithoutReuseIsAligned(serverFd: int, steps: seq<Step>)
    requires CanRun(Init(serverFd), steps) && NeverReuses(Init(serverFd), steps)
    ensures AlwaysAligned(Init(serverFd), steps)
  {
    InitHolds(serverFd);
    RunWithoutReuse(Init(serverFd), steps);
    SessionAlignedIff(serverFd, steps);
  }
}
