/** Concrete sessions that show which natural expectations of the broadcast server fail, and where exactly. */
module BroadcastWitnesses {
  import opened Sockets
  import opened EventListener
  import opened BroadcastProtocol
  import opened BroadcastRuns
  import opened BroadcastOutcomes

  const LISTEN_FD: int := 3
  const CLIENT_FD: int := 7

  const READABLE: Revents := Revents(true, false, false, false, false)
  const HUNG_UP: Revents := Revents(false, false, false, true, false)

  const ACCEPT_ENTRY: Entry := Entry(ServerContext, LISTEN_FD)
  const ACCEPT_POLL: PollFd := PollFd(LISTEN_FD, Interest(true, false))
  const CLIENT_POLL: PollFd := PollFd(CLIENT_FD, Interest(true, false))

  function ClientEntry(id: ClientId): Entry { Entry(ClientContext(id), CLIENT_FD) }

  /** The session so far reaches s; extend it by one step. */
  lemma {:induction false} Extend(start: State, steps: seq<Step>, s: State, e: Step)
    requires CanRun(start, steps) && After(start, steps) == s && Enabled(s, e)
    ensures CanRun(start, steps + [e]) && After(start, steps + [e]) == Next(s, e)
    decreases steps
  {
    if steps == [] {
      assert [] + [e] == [e];
      assert [e][1..] == [];
    } else {
      Extend(Next(start, steps[0]), steps[1..], s, e);
      assert (steps + [e])[1..] == steps[1..] + [e];
    }
  }

  lemma Take(start: State, steps: seq<Step>, s: State, e: Step) returns (steps': seq<Step>, s': State)
    requires CanRun(start, steps) && After(start, steps) == s && Enabled(s, e)
    ensures steps' == steps + [e] && s' == Next(s, e)
    ensures CanRun(start, steps') && After(start, steps') == s'
  {
    Extend(start, steps, s, e);
    steps', s' := steps + [e], Next(s, e);
  }

  lemma CollectOne(r: Registry, revents: seq<Revents>)
    requires |r.handle| == 1 && |revents| == 1
    ensures Collect(r, revents, 1) == if revents[0].Ready() then [EventAt(r, revents, 0)] else []
  {
    assert Collect(r, revents, 0) == [];
  }

  /** A round of the monitor from the top of the loop to the batch of a poll. */
  lemma PollRound(start: State, steps: seq<Step>, s: State, revents: seq<Revents>)
    returns (steps': seq<Step>, s': State)
    requires CanRun(start, steps) && After(start, steps) == s
    requires s.monitoring && s.monitor.LoopTop? && s.section.Unlocked? && PollAnswer(s.registry, revents)
    ensures CanRun(start, steps') && After(start, steps') == s'
    ensures s' == s.(pending := [], monitor := Dispatching(Collect(s.registry, revents, |s.registry.handle|)))
  {
    steps', s' := Take(start, steps, s, ByMonitor(Enter));
    steps', s' := Take(start, steps', s', ByMonitor(Clear));
    steps', s' := Take(start, steps', s', ByMonitor(Snapshot));
    steps', s' := Take(start, steps', s', ByMonitor(Poll(Readiness(revents))));
  }

  /** The Accept arm up to the push onto the active list. */
  lemma ArriveRound(start: State, steps: seq<Step>, s: State, id: ClientId, rest: seq<Event>)
    returns (steps': seq<Step>, s': State)
    requires CanRun(start, steps) && After(start, steps) == s
    requires s.monitor == Dispatching([Event(Some(ACCEPT_ENTRY), SocketEventType.Accept)] + rest) && s.section.Unlocked?
    requires id !in s.fds && id !in s.place && FdIsFree(s, CLIENT_FD)
    ensures CanRun(start, steps') && After(start, steps') == s'
    ensures s' == s.(registry := Add(s.registry, ClientEntry(id), Read), active := s.active + [id],
            monitor := Announcing(id, rest),
                     fds := s.fds[id := CLIENT_FD], place := s.place[id := Active])
  {
    assert HeadIs(s.monitor, SocketEventType.Accept);
    steps', s' := Take(start, steps, s, ByMonitor(AcceptClient(id, CLIENT_FD)));
    assert s'.monitor == Accepted(id, rest);
    steps', s' := Take(start, steps', s', ByMonitor(Register));
    steps', s' := Take(start, steps', s', ByMonitor(Push));
    assert s'.place == s.place[id := Active];
  }

  const ONE_CLIENT: Registry := Registry([ACCEPT_POLL, CLIENT_POLL], [ACCEPT_ENTRY, ClientEntry(0)], LISTEN_FD)
  const NO_CLIENT: Registry := Registry([ACCEPT_POLL], [ACCEPT_ENTRY], LISTEN_FD)

  /** The first client arrives: everything up to and including the push onto the active list. */
  lemma FirstArrival() returns (steps: seq<Step>, s: State)
    ensures CanRun(Init(LISTEN_FD), steps) && After(Init(LISTEN_FD), steps) == s
    ensures s == State(true, ONE_CLIENT, [0], [], Announcing(0, []), Unlocked, map[], map[], map[0 := CLIENT_FD],
            map[0 := Active],
                       multiset{}, multiset{}, multiset{})
  {
    var start := Init(LISTEN_FD);
    assert start.registry == NO_CLIENT;
    steps, s := PollRound(start, [], start, [READABLE]);
    CollectOne(NO_CLIENT, [READABLE]);
    assert s.monitor.rest == [Event(Some(ACCEPT_ENTRY), SocketEventType.Accept)] + [];
    steps, s := ArriveRound(start, steps, s, 0, []);
  }

  ghost predicate OnlyClientIsActive(s: State) {
    && s.section.Unlocked? && s.notifying == map[] && s.active == [0] && s.place == map[0 := Active]
    && s.fds == map[0 := CLIENT_FD] && s.registry == ONE_CLIENT
  }

  lemma RemovesOnly()
    ensures Remove(ONE_CLIENT, ClientEntry(0)) == NO_CLIENT
  {
    assert FindFd(ONE_CLIENT.handle, CLIENT_FD, 0) == 1;
    assert FindContext(ONE_CLIENT.contexts, ClientContext(0), 0) == 1;
  }

  /** The critical section of a dropAll of the only active client. */
  lemma DetachOnly(start: State, steps: seq<Step>, s: State) returns (steps': seq<Step>, s': State)
    requires CanRun(start, steps) && After(start, steps) == s && OnlyClientIsActive(s)
    ensures steps <= steps' && CanRun(start, steps') && After(start, steps') == s'
    ensures s' == s.(registry := NO_CLIENT, active := [], pending := s.pending + [0],
                     notifying := map[1 := Notify([0], false)], place := map[0 := Detached(DropAll(1))])
  {
    steps', s' := Take(start, steps, s, ByCaller(Swap(1)));
    assert s'.place == map[0 := Detached(DropAll(1))];
    RemovesOnly();
    steps', s' := Take(start, steps', s', ByCaller(RemoveNext));
    steps', s' := Take(start, steps', s', ByCaller(HandOff));
  }

  /** dropAll of the only active client, up to the close of its descriptor. */
  lemma DropOnly(start: State, steps: seq<Step>, s: State) returns (steps': seq<Step>, s': State)
    requires CanRun(start, steps) && After(start, steps) == s && OnlyClientIsActive(s)
    ensures steps <= steps' && CanRun(start, steps') && After(start, steps') == s'
    ensures s' == s.(registry := NO_CLIENT, active := [], pending := s.pending + [0],
                     notifying := map[1 := Notify([0], true)], place := map[0 := Closed(DropAll(1))],
                      closes := s.closes + multiset{0})
  {
    steps', s' := DetachOnly(start, steps, s);
    steps', s' := Take(start, steps', s', ByCaller(CloseNext(1)));
    assert s'.place == map[0 := Closed(DropAll(1))];
  }

  /** onClientDisconnected can precede onClientConnected: dropAll runs between the push and the connect callback. */
  lemma DisconnectMayOvertakeConnect() returns (steps: seq<Step>)
    ensures CanRun(Init(LISTEN_FD), steps)
    ensures After(Init(LISTEN_FD), steps).disconnects[0] == 1 && After(Init(LISTEN_FD), steps).connects[0] == 0
  {
    var s: State;
    steps, s := FirstArrival();
    steps, s := DropOnly(Init(LISTEN_FD), steps, s);
    steps, s := Take(Init(LISTEN_FD), steps, s, ByCaller(CallbackNext(1)));
  }

  /** await can answer Success with 0 clients: dropAll runs between its two critical sections. */
  lemma AwaitMayReportZero() returns (before: seq<Step>, after: seq<Step>)
    ensures CanRun(Init(LISTEN_FD), before) && CanRun(Init(LISTEN_FD), after) && before <= after
    ensures AwaitAnswer(After(Init(LISTEN_FD), before), After(Init(LISTEN_FD), after)) == SocketResult(Success, 0)
  {
    var s: State;
    before, s := FirstArrival();
    after, s := DropOnly(Init(LISTEN_FD), before, s);
  }

  /** awaitClose can answer Success before the descriptor of a dropped client is closed. */
  lemma AwaitCloseMayPrecedeClose() returns (steps: seq<Step>)
    ensures CanRun(Init(LISTEN_FD), steps)
    ensures var s := After(Init(LISTEN_FD), steps);
            AwaitCloseAnswer(s) == SocketResult(Success, 0) && HasEntered(s, 0) && s.closes[0] == 0
  {
    var s: State;
    steps, s := FirstArrival();
    steps, s := DetachOnly(Init(LISTEN_FD), steps, s);
  }

  const HANG_UP_EVENT: Event := Event(Some(ClientEntry(0)), Disconnected)

  lemma CollectBoth()
    ensures Collect(ONE_CLIENT, [READABLE, HUNG_UP], 2)
            == [Event(Some(ACCEPT_ENTRY), SocketEventType.Accept)] + [HANG_UP_EVENT]
  {
    var r, revents := ONE_CLIENT, [READABLE, HUNG_UP];
    assert Collect(r, revents, 0) == [];
    assert EventAt(r, revents, 0) == Event(Some(ACCEPT_ENTRY), SocketEventType.Accept);
    assert FindEntry(r.contexts, CLIENT_FD, 0) == 1;
    assert EventAt(r, revents, 1) == HANG_UP_EVENT;
    assert Collect(r, revents, 1) == [EventAt(r, revents, 0)];
  }

  /** Client 0 is active and its hang-up waits in a batch behind an accept. */
  lemma HangUpBehindAccept() returns (steps: seq<Step>, s: State)
    ensures CanRun(Init(LISTEN_FD), steps) && After(Init(LISTEN_FD), steps) == s
    ensures s.monitor == Dispatching([Event(Some(ACCEPT_ENTRY), SocketEventType.Accept)] + [HANG_UP_EVENT])
    ensures OnlyClientIsActive(s) && s.pending == []
  {
    var start := Init(LISTEN_FD);
    steps, s := FirstArrival();
    steps, s := Take(start, steps, s, ByMonitor(ConnectCallback));
    steps, s := Take(start, steps, s, ByMonitor(EndBatch));
    steps, s := PollRound(start, steps, s, [READABLE, HUNG_UP]);
    CollectBoth();
  }

  /** Meanwhile dropAll closes the descriptor, and the accept gets the same number for client 1. */
  lemma DescriptorReused() returns (steps: seq<Step>, s: State)
    ensures CanRun(Init(LISTEN_FD), steps) && After(Init(LISTEN_FD), steps) == s
    ensures s.monitor == Announcing(1, [HANG_UP_EVENT]) && s.active == [1]
            && s.fds == map[0 := CLIENT_FD, 1 := CLIENT_FD]
    ensures s.registry == Add(NO_CLIENT, ClientEntry(1), Read)
  {
    steps, s := HangUpBehindAccept();
    steps, s := DropOnly(Init(LISTEN_FD), steps, s);
    steps, s := ArriveRound(Init(LISTEN_FD), steps, s, 1, [HANG_UP_EVENT]);
  }

  lemma StaleRemoval()
    ensures var r := Remove(Add(NO_CLIENT, ClientEntry(1), Read), ClientEntry(0));
            r == Registry([ACCEPT_POLL], [ACCEPT_ENTRY, ClientEntry(1)], LISTEN_FD)
            && Registered(r, ClientContext(1)) && !Polled(r, CLIENT_FD)
  {
    var r := Add(NO_CLIENT, ClientEntry(1), Read);
    assert FindFd(r.handle, CLIENT_FD, 0) == 1;
    assert FindContext(r.contexts, ClientContext(0), 0) == 2;
  }

  /**
   * A reused descriptor misaligns the vectors: dropAll closes the descriptor of client 0 while client 0's hang-up
   * waits in the batch behind an accept that gets the same number. The stale removal then takes the poll entry of
   * client 1, which stays active and registered but is never polled again.
   */
  lemma ReuseLeavesClientUnpolled() returns (steps: seq<Step>)
    ensures CanRun(Init(LISTEN_FD), steps)
    ensures var s := After(Init(LISTEN_FD), steps);
            && s.active == [1] && Registered(s.registry, ClientContext(1))
            && 1 in s.fds && !Polled(s.registry, s.fds[1]) && !Aligned(s.registry)
  {
    var s: State;
    steps, s := DescriptorReused();
    steps, s := Take(Init(LISTEN_FD), steps, s, ByMonitor(ConnectCallback));
    StaleRemoval();
    steps, s := Take(Init(LISTEN_FD), steps, s, ByMonitor(Unregister));
  }
}
