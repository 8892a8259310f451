/** The event loop of the request server, one step per poll and per dispatched event. */
module RequestLoop {
  import opened Sockets
  import opened EventListener
  import opened ObjectPool
  import opened FramingMachine

  const CAPACITY: nat := 32

  /** What a pool slot holds: `id` counts the accepted clients, so it is never used twice. */
  datatype Client = Client(id: nat, fd: int, conn: Conn)

  datatype Server = Server(
    pool: Pool<Client>,
    registry: Registry,
    batch: seq<Event>,
    accepted: nat,
    departed: map<nat, Conn>,
    connects: multiset<nat>,
    disconnects: multiset<nat>,
    crashed: bool)

  function Start(serverFd: int): Server {
    Server(Fresh(CAPACITY), Add(Registry([], [], 0), Entry(ServerContext, serverFd), Accept), [], 0, map[],
      multiset{}, multiset{}, false)
  }

  /** What the socket calls made while dispatching one event answer. */
  datatype Answer = Accepted(fd: int) | AcceptFailed | Received(r: FramingMachine.Received) | Sent(n: int) | Nothing

  datatype LoopStep = Wait(revents: seq<Revents>) | Dispatch(a: Answer)

  predicate LiveAt(s: Server, k: nat) { k < |s.pool.slots| && s.pool.slots[k].Some? }

  function ClientAt(s: Server, k: nat): Client
    requires LiveAt(s, k)
  {
    s.pool.slots[k].value
  }

  function WithConn(s: Server, k: nat, c: Conn): Server
    requires LiveAt(s, k)
  {
    s.(pool := s.pool.(slots := s.pool.slots[k := Some(ClientAt(s, k).(conn := c))]))
  }

  /** The kernel never hands out a descriptor that is still open. */
  ghost predicate FdIsFree(s: Server, fd: int) {
    fd != s.registry.serverSocket && forall k :: LiveAt(s, k) ==> ClientAt(s, k).fd != fd
  }

  predicate HeadIsLive(s: Server) {
    && s.batch != [] && s.batch[0].entry.Some? && s.batch[0].entry.value.context.ClientContext?
    && LiveAt(s, s.batch[0].entry.value.context.id)
  }

  function HeadSlot(s: Server): nat
    requires HeadIsLive(s)
  {
    s.batch[0].entry.value.context.id
  }

  function HeadConn(s: Server): Conn
    requires HeadIsLive(s)
  {
    ClientAt(s, HeadSlot(s)).conn
  }

  ghost predicate Enabled(h: Handler, s: Server, e: LoopStep)
    requires h.Valid()
  {
    && !s.crashed
    && match e
       case Wait(revents) => s.batch == [] && PollAnswer(s.registry, revents)
       case Dispatch(a) =>
         && s.batch != []
         && match s.batch[0].kind
            case Accept => a == AcceptFailed || (a.Accepted? && FdIsFree(s, a.fd))
            case Disconnected => a == Nothing && HeadIsLive(s)
            case Read => a.Received? && HeadIsLive(s) && WellSized(h, HeadConn(s)) && Fits(HeadConn(s), a.r)
            case Write => a.Sent? && HeadIsLive(s) && WellSized(h, HeadConn(s))
                          && (HeadConn(s).state.WritingResponse? ==> FitsResponse(HeadConn(s), a.n))
            case _ => a == Nothing
  }

  /** acquire answers null when the pool is exhausted, and the loop dereferences it. */
  function OnAccept(h: Handler, s: Server, fd: int): Server {
    match AcquiredSlot(s.pool)
    case None => s.(crashed := true)
    case Some(slot) =>
      s.(pool := AfterAcquire(s.pool, Client(s.accepted, fd, Initial(h))),
         connects := s.connects + multiset{s.accepted},
         accepted := s.accepted + 1,
         registry := Add(s.registry, Entry(ClientContext(slot), fd), SocketEventType.Read))
  }

  function OnDisconnected(s: Server, e: Entry, k: nat): Server
    requires LiveAt(s, k)
  {
    var c := ClientAt(s, k);
    s.(disconnects := s.disconnects + multiset{c.id},
       departed := s.departed[c.id := c.conn],
       registry := Remove(s.registry, e),
       pool := AfterRelease(s.pool, k))
  }

  function OnRead(h: Handler, s: Server, e: Entry, k: nat, r: FramingMachine.Received): Server
    requires h.Valid() && LiveAt(s, k) && WellSized(h, ClientAt(s, k).conn) && Fits(ClientAt(s, k).conn, r)
  {
    var c := ClientAt(s, k).conn;
    var c' := OnReadable(h, c, r);
    var s' := WithConn(s, k, c');
    if !c.state.WritingResponse? && c'.state.WritingResponse?
       then s'.(registry := Modify(s.registry, e, SocketEventType.Write)) else s'
  }

  function OnWrite(h: Handler, s: Server, e: Entry, k: nat, n: int): Server
    requires LiveAt(s, k) && WellSized(h, ClientAt(s, k).conn)
    requires ClientAt(s, k).conn.state.WritingResponse? ==> FitsResponse(ClientAt(s, k).conn, n)
  {
    var c := ClientAt(s, k).conn;
    var c' := OnWritable(h, c, n);
    var s' := WithConn(s, k, c');
    if c.state.WritingResponse? && !c'.state.WritingResponse?
       then s'.(registry := Modify(s.registry, e, SocketEventType.Read)) else s'
  }

  function Handle(h: Handler, s: Server, a: Answer): Server
    requires h.Valid() && Enabled(h, s, Dispatch(a))
  {
    var event := s.batch[0];
    match event.kind
    case Accept => if a.Accepted? then OnAccept(h, s, a.fd) else s
    case Disconnected => OnDisconnected(s, event.entry.value, HeadSlot(s))
    case Read => OnRead(h, s, event.entry.value, HeadSlot(s), a.r)
    case Write => OnWrite(h, s, event.entry.value, HeadSlot(s), a.n)
    case _ => s
  }

  function AfterStep(h: Handler, s: Server, e: LoopStep): Server
    requires h.Valid() && Enabled(h, s, e)
  {
    match e
    case Wait(revents) => s.(batch := Collect(s.registry, revents, |s.registry.handle|))
    case Dispatch(a) => Handle(h, s, a).(batch := s.batch[1..])
  }

  // The invariant.

  function InterestFor(c: Conn): Interest {
    if c.state.WritingResponse? then Interest(false, true) else Interest(true, false)
  }

  /**
   * A registered context is the accept context, or a live slot with its own descriptor and the interest of its state.
   */
  ghost predicate EntryAgrees(s: Server, e: Entry, p: PollFd) {
    && e.fd == p.fd
    && match e.context
       case ServerContext => e.fd == s.registry.serverSocket && p.interest == Interest(true, false)
       case ClientContext(k) =>
         LiveAt(s, k) && e.fd == ClientAt(s, k).fd && e.fd != s.registry.serverSocket
           && p.interest == InterestFor(ClientAt(s, k).conn)
  }

  ghost predicate RegistryAgrees(s: Server) {
    && Aligned(s.registry) && DistinctFds(s.registry)
    && (forall i :: 0 <= i < |s.registry.contexts| ==> EntryAgrees(s, s.registry.contexts[i], s.registry.handle[i]))
    && Registered(s.registry, ServerContext)
    && (forall k :: LiveAt(s, k) ==> Registered(s.registry, ClientContext(k)))
  }

  ghost predicate PoolAgrees(h: Handler, s: Server)
    requires h.Valid()
  {
    && Consistent(s.pool) && |s.pool.slots| == CAPACITY
    && (forall k :: LiveAt(s, k) ==> WellSized(h, ClientAt(s, k).conn) && !ClientAt(s, k).conn.state.FinishProcess?)
  }

  /** An undispatched event still has its slot, its descriptor, and an interest that matches the state. */
  ghost predicate EventAgrees(s: Server, e: Event) {
    && e.entry.Some?
    && match e.entry.value.context
       case ServerContext => e.kind.Accept?
       case ClientContext(k) =>
         && LiveAt(s, k) && e.entry.value.fd == ClientAt(s, k).fd
         && (e.kind.Disconnected? || (e.kind.Read? && !ClientAt(s, k).conn.state.WritingResponse?)
             || (e.kind.Write? && ClientAt(s, k).conn.state.WritingResponse?))
  }

  ghost predicate BatchAgrees(s: Server) {
    && (forall j :: 0 <= j < |s.batch| ==> EventAgrees(s, s.batch[j]))
    && (forall j, l :: 0 <= j < l < |s.batch| ==> s.batch[j].entry.value.context != s.batch[l].entry.value.context)
  }

  /** Every accepted client is live in exactly one slot or departed, with its callbacks counted. */
  ghost predicate IdsAgree(s: Server) {
    && (forall k :: LiveAt(s, k) ==> ClientAt(s, k).id < s.accepted && ClientAt(s, k).id !in s.departed)
    && (forall k, l :: LiveAt(s, k) && LiveAt(s, l) && k != l ==> ClientAt(s, k).id != ClientAt(s, l).id)
    && (forall id :: id in s.departed ==> id < s.accepted)
    && (forall id: nat :: id < s.accepted ==> id in s.departed || exists k :: LiveAt(s, k) && ClientAt(s, k).id == id)
    && (forall id: nat :: s.connects[id] == (if id < s.accepted then 1 else 0))
    && (forall id: nat :: s.disconnects[id] == (if id in s.departed then 1 else 0))
  }

  ghost predicate Inv(h: Handler, s: Server)
    requires h.Valid()
  {
    PoolAgrees(h, s) && RegistryAgrees(s) && BatchAgrees(s) && IdsAgree(s)
  }

  lemma StartHolds(h: Handler, serverFd: int)
    requires h.Valid()
    ensures Inv(h, Start(serverFd))
  {
    FreshIsConsistent<Client>(CAPACITY);
  }

  // The registry.

  lemma RegisteredIsLive(s: Server, k: nat)
    requires RegistryAgrees(s) && Registered(s.registry, ClientContext(k))
    ensures LiveAt(s, k)
    ensures var i := FindContext(s.registry.contexts, ClientContext(k), 0);
            s.registry.contexts[i].fd == ClientAt(s, k).fd == s.registry.handle[i].fd
  {
    var i := FindContext(s.registry.contexts, ClientContext(k), 0);
    assert EntryAgrees(s, s.registry.contexts[i], s.registry.handle[i]);
  }

  lemma LiveEntryIsKnown(s: Server, k: nat, e: Entry)
    requires RegistryAgrees(s) && LiveAt(s, k) && e == Entry(ClientContext(k), ClientAt(s, k).fd)
    ensures Knows(s.registry, e) && Registered(s.registry, e.context) && Polled(s.registry, e.fd)
  {
    RegisteredIsLive(s, k);
    forall i | 0 <= i < |s.registry.contexts| && s.registry.contexts[i].context == e.context
      ensures s.registry.contexts[i].fd == e.fd
    {
      assert EntryAgrees(s, s.registry.contexts[i], s.registry.handle[i]);
    }
    var i := FindContext(s.registry.contexts, e.context, 0);
    assert s.registry.handle[i].fd == e.fd;
  }

  lemma FreeFdIsUnpolled(s: Server, fd: int)
    requires RegistryAgrees(s) && FdIsFree(s, fd)
    ensures !Polled(s.registry, fd)
  {
    forall i | 0 <= i < |s.registry.handle|
      ensures s.registry.handle[i].fd != fd
    {
      assert EntryAgrees(s, s.registry.contexts[i], s.registry.handle[i]);
    }
  }

  /** Adding the entry of a slot that just became live. */
  lemma AddKeepsRegistry(s: Server, s': Server, k: nat, kind: PollKind)
    requires Aligned(s.registry) && DistinctFds(s.registry) && Registered(s.registry, ServerContext)
    requires LiveAt(s', k) && !kind.Accept?
    requires var e := Entry(ClientContext(k), ClientAt(s', k).fd);
             && s'.registry == Add(s.registry, e, kind) && !Polled(s.registry, e.fd)
                && !Registered(s.registry, e.context)
             && e.fd != s.registry.serverSocket && InterestOf(kind) == InterestFor(ClientAt(s', k).conn)
    requires forall i :: 0 <= i < |s.registry.contexts| ==>
             EntryAgrees(s', s.registry.contexts[i], s.registry.handle[i])
    requires forall l :: LiveAt(s', l) && l != k ==> Registered(s.registry, ClientContext(l))
    ensures RegistryAgrees(s')
  {
    var e := Entry(ClientContext(k), ClientAt(s', k).fd);
    AddRefinesMap(s.registry, e, kind);
    var n := |s.registry.contexts|;
    assert s'.registry.contexts[n] == e;
    forall c | Registered(s.registry, c) || c == e.context
      ensures Registered(s'.registry, c)
    {
      var i := if c == e.context then n else FindContext(s.registry.contexts, c, 0);
      assert s'.registry.contexts[i].context == c;
    }
  }

  lemma AcceptKeepsRegistry(h: Handler, s: Server, fd: int)
    requires h.Valid() && Inv(h, s) && FdIsFree(s, fd) && AcquiredSlot(s.pool).Some?
    ensures RegistryAgrees(OnAccept(h, s, fd))
  {
    var s' := OnAccept(h, s, fd);
    var slot := AcquiredSlot(s.pool).value;
    assert !LiveAt(s, slot) by { assert slot in s.pool.free; }
    if Registered(s.registry, ClientContext(slot)) { RegisteredIsLive(s, slot); }
    FreeFdIsUnpolled(s, fd);
    forall i | 0 <= i < |s.registry.contexts|
      ensures EntryAgrees(s', s.registry.contexts[i], s.registry.handle[i])
    {
      assert EntryAgrees(s, s.registry.contexts[i], s.registry.handle[i]);
    }
    assert forall l :: LiveAt(s', l) && l != slot ==> LiveAt(s, l);
    AddKeepsRegistry(s, s', slot, SocketEventType.Read);
  }

  lemma NotRegisteredAt(r: Registry, c: Context, i: nat)
    requires !Registered(r, c) && i < |r.contexts|
    ensures r.contexts[i].context != c
  {
  }

  lemma DisconnectKeepsRegistry(s: Server, e: Entry, k: nat)
    requires RegistryAgrees(s) && LiveAt(s, k) && e == Entry(ClientContext(k), ClientAt(s, k).fd)
    ensures RegistryAgrees(OnDisconnected(s, e, k))
  {
    var s' := OnDisconnected(s, e, k);
    LiveEntryIsKnown(s, k, e);
    RemoveKeepsShape(s.registry, e);
    forall l | LiveAt(s', l)
      ensures LiveAt(s, l) && l != k && Registered(s'.registry, ClientContext(l))
    {
      OtherStaysRegistered(s.registry, e, ClientContext(l));
    }
    OtherStaysRegistered(s.registry, e, ServerContext);
    forall i | 0 <= i < |s'.registry.contexts|
      ensures EntryAgrees(s', s'.registry.contexts[i], s'.registry.handle[i])
    {
      var j := RemovedOrigin(s.registry, e, i);
      assert EntryAgrees(s, s.registry.contexts[j], s.registry.handle[j]);
      NotRegisteredAt(s'.registry, e.context, i);
    }
  }

  /** modifyEvent after the connection of slot k changed between reading and writing. */
  lemma ModifyKeepsRegistry(s: Server, e: Entry, k: nat, c: Conn, kind: PollKind)
    requires RegistryAgrees(s) && LiveAt(s, k) && e == Entry(ClientContext(k), ClientAt(s, k).fd)
    requires !kind.Accept? && InterestOf(kind) == InterestFor(c)
    ensures RegistryAgrees(WithConn(s, k, c).(registry := Modify(s.registry, e, kind)))
  {
    var removed := s.(registry := Remove(s.registry, e));
    var s' := WithConn(s, k, c).(registry := Modify(s.registry, e, kind));
    LiveEntryIsKnown(s, k, e);
    RemoveKeepsShape(s.registry, e);
    OtherStaysRegistered(s.registry, e, ServerContext);
    forall l | LiveAt(s', l) && l != k
      ensures Registered(removed.registry, ClientContext(l))
    {
      assert LiveAt(s, l);
      OtherStaysRegistered(s.registry, e, ClientContext(l));
    }
    var at := FindContext(s.registry.contexts, e.context, 0);
    assert EntryAgrees(s, s.registry.contexts[at], s.registry.handle[at]);
    forall i | 0 <= i < |removed.registry.contexts|
      ensures EntryAgrees(s', removed.registry.contexts[i], removed.registry.handle[i])
    {
      var j := RemovedOrigin(s.registry, e, i);
      assert EntryAgrees(s, s.registry.contexts[j], s.registry.handle[j]);
      NotRegisteredAt(removed.registry, e.context, i);
    }
    AddKeepsRegistry(removed, s', k, kind);
  }

  lemma SameInterestKeepsRegistry(s: Server, k: nat, c: Conn)
    requires RegistryAgrees(s) && LiveAt(s, k) && c.state.WritingResponse? == ClientAt(s, k).conn.state.WritingResponse?
    ensures RegistryAgrees(WithConn(s, k, c))
  {
    var s' := WithConn(s, k, c);
    forall i | 0 <= i < |s'.registry.contexts|
      ensures EntryAgrees(s', s'.registry.contexts[i], s'.registry.handle[i])
    {
      assert EntryAgrees(s, s.registry.contexts[i], s.registry.handle[i]);
    }
    assert forall l :: LiveAt(s', l) ==> LiveAt(s, l);
  }

  // The batch.

  lemma EventAtAgrees(s: Server, revents: seq<Revents>, i: nat)
    requires RegistryAgrees(s) && PollAnswer(s.registry, revents) && i < |revents| && revents[i].Ready()
    ensures EventAgrees(s, EventAt(s.registry, revents, i))
  {
    AlignedIsSound(s.registry);
    assert EntryAgrees(s, s.registry.contexts[i], s.registry.handle[i]);
  }

  lemma EventStays(s: Server, s': Server, e: Event)
    requires EventAgrees(s, e)
    requires e.entry.value.context.ClientContext? ==>
               var k := e.entry.value.context.id;
               LiveAt(s', k) && ClientAt(s', k) == ClientAt(s, k)
    ensures EventAgrees(s', e)
  {
  }

  /** The events of a poll match the slots they point at. */
  lemma CollectedBatchAgrees(s: Server, revents: seq<Revents>)
    requires RegistryAgrees(s) && PollAnswer(s.registry, revents)
    ensures BatchAgrees(s.(batch := Collect(s.registry, revents, |s.registry.handle|)))
  {
    var r := s.registry;
    var events := Collect(r, revents, |r.handle|);
    AlignedIsSound(r);
    WaitIsSound(r, revents);
    CollectsReady(r, revents, |r.handle|);
    var s' := s.(batch := events);
    forall j | 0 <= j < |events|
      ensures EventAgrees(s', s'.batch[j])
    {
      var i := ReadyIndices(revents, |r.handle|)[j];
      assert events[j] == EventAt(r, revents, i);
      EventAtAgrees(s, revents, i);
      EventStays(s, s', events[j]);
    }
  }

  /** Dispatching the head changes no slot that a later event of the batch points at. */
  lemma DispatchLeavesOthers(h: Handler, s: Server, a: Answer, k: nat)
    requires h.Valid() && Consistent(s.pool) && Enabled(h, s, Dispatch(a)) && LiveAt(s, k)
    requires s.batch[0].entry.Some? && s.batch[0].entry.value.context != ClientContext(k)
    ensures LiveAt(AfterStep(h, s, Dispatch(a)), k) && ClientAt(AfterStep(h, s, Dispatch(a)), k) == ClientAt(s, k)
  {
    if a.Accepted? {
      AcquireKeepsConsistent(s.pool, Client(s.accepted, a.fd, Initial(h)));
      assert k in Live(s.pool);
    }
  }

  lemma DispatchKeepsBatch(h: Handler, s: Server, a: Answer)
    requires h.Valid() && Inv(h, s) && Enabled(h, s, Dispatch(a))
    ensures BatchAgrees(AfterStep(h, s, Dispatch(a)))
  {
    var s' := AfterStep(h, s, Dispatch(a));
    forall j | 0 <= j < |s'.batch|
      ensures EventAgrees(s', s'.batch[j])
    {
      var e := s.batch[j + 1];
      assert s'.batch[j] == e && EventAgrees(s, e);
      assert s.batch[0].entry.value.context != e.entry.value.context;
      if e.entry.value.context.ClientContext? { DispatchLeavesOthers(h, s, a, e.entry.value.context.id); }
      EventStays(s, s', e);
    }
    assert forall j :: 0 <= j < |s'.batch| ==> s'.batch[j] == s.batch[j + 1];
  }

  // The slots.

  lemma ReadNeverFinishes(h: Handler, c: Conn, r: FramingMachine.Received)
    requires h.Valid() && WellSized(h, c) && Fits(c, r) && !c.state.FinishProcess?
    ensures !OnReadable(h, c, r).state.FinishProcess?
  {
  }

  lemma WriteNeverFinishes(h: Handler, c: Conn, n: int)
    requires h.Valid() && WellSized(h, c) && !c.state.FinishProcess?
             && (c.state.WritingResponse? ==> FitsResponse(c, n))
    ensures !OnWritable(h, c, n).state.FinishProcess?
  {
  }

  lemma WithConnKeepsPool(h: Handler, s: Server, k: nat, c: Conn)
    requires h.Valid() && PoolAgrees(h, s) && LiveAt(s, k) && WellSized(h, c) && !c.state.FinishProcess?
    ensures PoolAgrees(h, WithConn(s, k, c))
  {
    var s' := WithConn(s, k, c);
    assert forall i :: 0 <= i < |s.pool.slots| ==> (s'.pool.slots[i].None? <==> s.pool.slots[i].None?);
    forall l | LiveAt(s', l)
      ensures WellSized(h, ClientAt(s', l).conn) && !ClientAt(s', l).conn.state.FinishProcess?
    {
      assert LiveAt(s, l);
    }
  }

  lemma AcceptKeepsPool(h: Handler, s: Server, fd: int)
    requires h.Valid() && PoolAgrees(h, s) && AcquiredSlot(s.pool).Some?
    ensures PoolAgrees(h, OnAccept(h, s, fd))
  {
    AcquireKeepsConsistent(s.pool, Client(s.accepted, fd, Initial(h)));
    var s' := OnAccept(h, s, fd);
    assert forall l :: LiveAt(s', l) && l != AcquiredSlot(s.pool).value ==>
           LiveAt(s, l) && ClientAt(s', l) == ClientAt(s, l);
  }

  lemma DisconnectKeepsPool(h: Handler, s: Server, e: Entry, k: nat)
    requires h.Valid() && PoolAgrees(h, s) && LiveAt(s, k)
    ensures PoolAgrees(h, OnDisconnected(s, e, k))
  {
    ReleaseKeepsConsistentIff(s.pool, k);
    var s' := OnDisconnected(s, e, k);
    assert k in Live(s.pool);
    assert forall l :: LiveAt(s', l) ==> LiveAt(s, l) && ClientAt(s', l) == ClientAt(s, l);
  }

  // The clients.

  lemma AcceptKeepsIds(h: Handler, s: Server, fd: int)
    requires h.Valid() && PoolAgrees(h, s) && IdsAgree(s) && AcquiredSlot(s.pool).Some?
    ensures IdsAgree(OnAccept(h, s, fd))
  {
    var s' := OnAccept(h, s, fd);
    var slot := AcquiredSlot(s.pool).value;
    AcquireKeepsConsistent(s.pool, Client(s.accepted, fd, Initial(h)));
    assert ClientAt(s', slot).id == s.accepted;
    forall l | LiveAt(s, l)
      ensures LiveAt(s', l) && ClientAt(s', l) == ClientAt(s, l) && l != slot
    {
      assert l in Live(s.pool);
    }
    assert forall l :: LiveAt(s', l) && l != slot ==> LiveAt(s, l);
  }

  lemma DisconnectKeepsIds(s: Server, e: Entry, k: nat)
    requires IdsAgree(s) && LiveAt(s, k)
    ensures IdsAgree(OnDisconnected(s, e, k))
  {
    var s' := OnDisconnected(s, e, k);
    assert forall l :: LiveAt(s', l) ==> LiveAt(s, l) && l != k && ClientAt(s', l) == ClientAt(s, l);
    assert forall l :: LiveAt(s, l) && l != k ==> LiveAt(s', l);
  }

  lemma WithConnKeepsIds(s: Server, k: nat, c: Conn)
    requires IdsAgree(s) && LiveAt(s, k)
    ensures IdsAgree(WithConn(s, k, c))
  {
    var s' := WithConn(s, k, c);
    forall l
      ensures LiveAt(s', l) <==> LiveAt(s, l)
      ensures LiveAt(s, l) ==> ClientAt(s', l).id == ClientAt(s, l).id
    {
    }
  }

  // One step.

  /** The batch and the crash flag do not matter to the other agreements. */
  lemma SameSlotsAgree(h: Handler, s: Server, s': Server)
    requires h.Valid() && PoolAgrees(h, s) && RegistryAgrees(s) && IdsAgree(s)
    requires s'.pool == s.pool && s'.registry == s.registry && s'.accepted == s.accepted && s'.departed == s.departed
    requires s'.connects == s.connects && s'.disconnects == s.disconnects
    ensures PoolAgrees(h, s') && RegistryAgrees(s') && IdsAgree(s')
  {
    assert forall l :: LiveAt(s', l) <==> LiveAt(s, l);
    assert forall l :: LiveAt(s, l) ==> ClientAt(s', l) == ClientAt(s, l);
    assert forall i :: 0 <= i < |s.registry.contexts| ==>
                         EntryAgrees(s, s.registry.contexts[i], s.registry.handle[i])
                         && EntryAgrees(s', s.registry.contexts[i], s.registry.handle[i]);
  }

  lemma AcceptHandled(h: Handler, s: Server, a: Answer)
    requires h.Valid() && Inv(h, s) && Enabled(h, s, Dispatch(a)) && s.batch[0].kind.Accept?
    ensures PoolAgrees(h, Handle(h, s, a)) && RegistryAgrees(Handle(h, s, a)) && IdsAgree(Handle(h, s, a))
  {
    if a.Accepted? && AcquiredSlot(s.pool).Some? {
      AcceptKeepsRegistry(h, s, a.fd);
      AcceptKeepsPool(h, s, a.fd);
      AcceptKeepsIds(h, s, a.fd);
    } else {
      SameSlotsAgree(h, s, Handle(h, s, a));
    }
  }

  lemma OtherRegistrySameSlots(h: Handler, s: Server, s': Server)
    requires h.Valid() && PoolAgrees(h, s) && IdsAgree(s) && s' == s.(registry := s'.registry)
    ensures PoolAgrees(h, s') && IdsAgree(s')
  {
    assert forall l :: LiveAt(s', l) <==> LiveAt(s, l);
    assert forall l :: LiveAt(s, l) ==> ClientAt(s', l) == ClientAt(s, l);
  }

  lemma ReadHandled(h: Handler, s: Server, e: Entry, k: nat, r: FramingMachine.Received)
    requires h.Valid() && PoolAgrees(h, s) && RegistryAgrees(s) && IdsAgree(s)
    requires LiveAt(s, k) && e == Entry(ClientContext(k), ClientAt(s, k).fd)
    requires !ClientAt(s, k).conn.state.WritingResponse? && Fits(ClientAt(s, k).conn, r)
    ensures PoolAgrees(h, OnRead(h, s, e, k, r)) && RegistryAgrees(OnRead(h, s, e, k, r))
            && IdsAgree(OnRead(h, s, e, k, r))
  {
    var c := ClientAt(s, k).conn;
    var c' := OnReadable(h, c, r);
    var s' := WithConn(s, k, c');
    ReadNeverFinishes(h, c, r);
    WithConnKeepsPool(h, s, k, c');
    WithConnKeepsIds(s, k, c');
    if c'.state.WritingResponse? {
      ModifyKeepsRegistry(s, e, k, c', SocketEventType.Write);
      OtherRegistrySameSlots(h, s', OnRead(h, s, e, k, r));
    } else {
      SameInterestKeepsRegistry(s, k, c');
    }
  }

  lemma WriteHandled(h: Handler, s: Server, e: Entry, k: nat, n: int)
    requires h.Valid() && PoolAgrees(h, s) && RegistryAgrees(s) && IdsAgree(s)
    requires LiveAt(s, k) && e == Entry(ClientContext(k), ClientAt(s, k).fd)
    requires ClientAt(s, k).conn.state.WritingResponse? && FitsResponse(ClientAt(s, k).conn, n)
    ensures PoolAgrees(h, OnWrite(h, s, e, k, n)) && RegistryAgrees(OnWrite(h, s, e, k, n))
            && IdsAgree(OnWrite(h, s, e, k, n))
  {
    var c := ClientAt(s, k).conn;
    var c' := OnWritable(h, c, n);
    var s' := WithConn(s, k, c');
    WriteNeverFinishes(h, c, n);
    WithConnKeepsPool(h, s, k, c');
    WithConnKeepsIds(s, k, c');
    if c'.state.WritingResponse? {
      SameInterestKeepsRegistry(s, k, c');
    } else {
      ModifyKeepsRegistry(s, e, k, c', SocketEventType.Read);
      OtherRegistrySameSlots(h, s', OnWrite(h, s, e, k, n));
    }
  }

  lemma ClientEventHandled(h: Handler, s: Server, a: Answer)
    requires h.Valid() && Inv(h, s) && Enabled(h, s, Dispatch(a)) && !s.batch[0].kind.Accept?
    ensures PoolAgrees(h, Handle(h, s, a)) && RegistryAgrees(Handle(h, s, a)) && IdsAgree(Handle(h, s, a))
  {
    assert EventAgrees(s, s.batch[0]);
    var e, k := s.batch[0].entry.value, HeadSlot(s);
    match s.batch[0].kind {
      case Disconnected =>
        DisconnectKeepsRegistry(s, e, k);
        DisconnectKeepsPool(h, s, e, k);
        DisconnectKeepsIds(s, e, k);
      case Read => ReadHandled(h, s, e, k, a.r);
      case Write => WriteHandled(h, s, e, k, a.n);
    }
  }

  lemma StepKeepsInv(h: Handler, s: Server, e: LoopStep)
    requires h.Valid() && Inv(h, s) && Enabled(h, s, e)
    ensures Inv(h, AfterStep(h, s, e))
  {
    match e
    case Wait(revents) =>
      CollectedBatchAgrees(s, revents);
      SameSlotsAgree(h, s, AfterStep(h, s, e));
    case Dispatch(a) =>
      if s.batch[0].kind.Accept? { AcceptHandled(h, s, a); } else { ClientEventHandled(h, s, a); }
      DispatchKeepsBatch(h, s, a);
      SameSlotsAgree(h, Handle(h, s, a), AfterStep(h, s, e));
  }
}
