/** Theorems about every run of the request server, over any number of interleaved clients. */
module RequestRuns {
  import opened Sockets
  import opened EventListener
  import opened ObjectPool
  import opened FramingMachine
  import opened Framing
  import opened RequestLoop

  /** A script of polls and dispatches that the server can follow from its start. */
  ghost predicate CanServe(h: Handler, serverFd: int, script: seq<LoopStep>)
    requires h.Valid()
    decreases |script|, 0
  {
    script == [] || (CanServe(h, serverFd, script[..|script| - 1])
                     && Enabled(h, ServerAfter(h, serverFd, script[..|script| - 1]), script[|script| - 1]))
  }

  ghost function ServerAfter(h: Handler, serverFd: int, script: seq<LoopStep>): Server
    requires h.Valid() && CanServe(h, serverFd, script)
    decreases |script|, 1
  {
    if script == [] then Start(serverFd)
    else AfterStep(h, ServerAfter(h, serverFd, script[..|script| - 1]), script[|script| - 1])
  }

  lemma {:induction false} ServedKeepsInv(h: Handler, serverFd: int, script: seq<LoopStep>)
    requires h.Valid() && CanServe(h, serverFd, script)
    ensures Inv(h, ServerAfter(h, serverFd, script))
    decreases |script|
  {
    if script == [] {
      StartHolds(h, serverFd);
    } else {
      var front := script[..|script| - 1];
      ServedKeepsInv(h, serverFd, front);
      StepKeepsInv(h, ServerAfter(h, serverFd, front), script[|script| - 1]);
    }
  }

  /**
   * Between events every live connection is registered, with write interest exactly while it writes a response and
   * read interest otherwise, and is never left in FinishProcess.
   */
  lemma InterestAgreesWithState(h: Handler, serverFd: int, script: seq<LoopStep>, k: nat)
    requires h.Valid() && CanServe(h, serverFd, script) && LiveAt(ServerAfter(h, serverFd, script), k)
    ensures var s := ServerAfter(h, serverFd, script);
            var i := FindContext(s.registry.contexts, ClientContext(k), 0);
            && i < |s.registry.contexts| == |s.registry.handle|
            && s.registry.handle[i].fd == ClientAt(s, k).fd
            && s.registry.handle[i].interest.pollOut == ClientAt(s, k).conn.state.WritingResponse?
            && s.registry.handle[i].interest.pollIn == !ClientAt(s, k).conn.state.WritingResponse?
            && !ClientAt(s, k).conn.state.FinishProcess?
  {
    ServedKeepsInv(h, serverFd, script);
    var s := ServerAfter(h, serverFd, script);
    var i := FindContext(s.registry.contexts, ClientContext(k), 0);
    assert EntryAgrees(s, s.registry.contexts[i], s.registry.handle[i]);
  }

  /** So the arms that ignore an event are unreachable: an event always finds its slot live and its state fitting. */
  lemma NoEventIsIgnored(h: Handler, serverFd: int, script: seq<LoopStep>, j: nat)
    requires h.Valid() && CanServe(h, serverFd, script) && j < |ServerAfter(h, serverFd, script).batch|
    ensures var s := ServerAfter(h, serverFd, script);
            var e := s.batch[j];
            && e.entry.Some?
            && (e.kind.Accept? || e.kind.Disconnected? || e.kind.Read? || e.kind.Write?)
            && (!e.kind.Accept? ==> e.entry.value.context.ClientContext? && LiveAt(s, e.entry.value.context.id))
            && (e.kind.Read? ==>
               var c := ClientAt(s, e.entry.value.context.id).conn; c.state.ReadingHeader? || c.state.ReadingPayload?)
            && (e.kind.Write? ==> ClientAt(s, e.entry.value.context.id).conn.state.WritingResponse?)
  {
    ServedKeepsInv(h, serverFd, script);
    var s := ServerAfter(h, serverFd, script);
    assert EventAgrees(s, s.batch[j]);
  }

  lemma SlotIsRegistered(h: Handler, s: Server, k: nat)
    requires h.Valid() && PoolAgrees(h, s) && RegistryAgrees(s) && IdsAgree(s)
    ensures |s.pool.free| + |Live(s.pool)| == CAPACITY
    ensures k in Live(s.pool) <==> Registered(s.registry, ClientContext(k))
    ensures k in Live(s.pool) ==> s.connects[ClientAt(s, k).id] == 1 && s.disconnects[ClientAt(s, k).id] == 0
  {
    Conservation(s.pool);
    if Registered(s.registry, ClientContext(k)) { RegisteredIsLive(s, k); }
    if k in Live(s.pool) { assert LiveAt(s, k); }
  }

  lemma LiveClientsDiffer(s: Server, k: nat, l: nat)
    requires RegistryAgrees(s) && IdsAgree(s) && LiveAt(s, k) && LiveAt(s, l) && k != l
    ensures ClientAt(s, k).fd != ClientAt(s, l).fd && ClientAt(s, k).id != ClientAt(s, l).id
  {
    RegisteredIsLive(s, k);
    RegisteredIsLive(s, l);
  }

  /**
   * The live slots are exactly the registered client contexts, free and live slots together are the 32 of the pool,
   * no two connections share a slot, a descriptor or an identity, and a live connection has been announced but not
   * yet reported gone.
   */
  lemma PoolRegistryBijection(h: Handler, serverFd: int, script: seq<LoopStep>, k: nat, l: nat)
    requires h.Valid() && CanServe(h, serverFd, script)
    ensures var s := ServerAfter(h, serverFd, script);
            && |s.pool.free| + |Live(s.pool)| == 32
            && (k in Live(s.pool) <==> Registered(s.registry, ClientContext(k)))
            && (k in Live(s.pool) ==> s.connects[ClientAt(s, k).id] == 1 && s.disconnects[ClientAt(s, k).id] == 0)
            && (k in Live(s.pool) && l in Live(s.pool) && k != l ==>
                  ClientAt(s, k).fd != ClientAt(s, l).fd && ClientAt(s, k).id != ClientAt(s, l).id)
  {
    ServedKeepsInv(h, serverFd, script);
    var s := ServerAfter(h, serverFd, script);
    SlotIsRegistered(h, s, k);
    if k in Live(s.pool) && l in Live(s.pool) && k != l { LiveClientsDiffer(s, k, l); }
  }

  /**
   * Every accepted client is live or departed, and got one connect callback, and one disconnect callback if departed.
   */
  lemma EveryClientIsAccounted(h: Handler, serverFd: int, script: seq<LoopStep>, id: nat)
    requires h.Valid() && CanServe(h, serverFd, script)
    ensures var s := ServerAfter(h, serverFd, script);
            && (id < s.accepted <==> id in s.departed || exists k :: LiveAt(s, k) && ClientAt(s, k).id == id)
            && !(id in s.departed && exists k :: LiveAt(s, k) && ClientAt(s, k).id == id)
            && s.connects[id] == (if id < s.accepted then 1 else 0)
            && s.disconnects[id] == (if id in s.departed then 1 else 0)
  {
    ServedKeepsInv(h, serverFd, script);
  }

  /** An accept dereferences a null connection exactly when all 32 slots are live. */
  lemma AcceptCrashesIff(h: Handler, serverFd: int, script: seq<LoopStep>, fd: int)
    requires h.Valid() && CanServe(h, serverFd, script)
    requires Enabled(h, ServerAfter(h, serverFd, script), Dispatch(Accepted(fd)))
    ensures var s := ServerAfter(h, serverFd, script);
            AfterStep(h, s, Dispatch(Accepted(fd))).crashed <==> |Live(s.pool)| == 32
  {
    ServedKeepsInv(h, serverFd, script);
    var s := ServerAfter(h, serverFd, script);
    Conservation(s.pool);
    AcquireKeepsConsistent(s.pool, Client(s.accepted, fd, Initial(h)));
  }

  /** Nothing changed for the clients in the slots other than k. */
  ghost predicate SameElsewhere(s: Server, s': Server, k: nat) {
    forall l :: l != k ==> (LiveAt(s', l) <==> LiveAt(s, l)) && (LiveAt(s, l) ==> ClientAt(s', l) == ClientAt(s, l))
  }

  /** An accept that does not crash serves the client: in a free slot, from the beginning, and polled for input. */
  lemma AcceptedIsServed(h: Handler, serverFd: int, script: seq<LoopStep>, fd: int)
    requires h.Valid() && CanServe(h, serverFd, script)
    requires Enabled(h, ServerAfter(h, serverFd, script), Dispatch(Accepted(fd)))
    requires |Live(ServerAfter(h, serverFd, script).pool)| < 32
    ensures var s := ServerAfter(h, serverFd, script);
            var s' := AfterStep(h, s, Dispatch(Accepted(fd)));
            && s'.accepted == s.accepted + 1 && s'.departed == s.departed
            && exists k :: !LiveAt(s, k) && LiveAt(s', k) && ClientAt(s', k) == Client(s.accepted, fd, Initial(h))
                           && SameElsewhere(s, s', k) && Registered(s'.registry, ClientContext(k))
  {
    ServedKeepsInv(h, serverFd, script);
    var s := ServerAfter(h, serverFd, script);
    var s' := AfterStep(h, s, Dispatch(Accepted(fd)));
    StepKeepsInv(h, s, Dispatch(Accepted(fd)));
    Conservation(s.pool);
    AcquireKeepsConsistent(s.pool, Client(s.accepted, fd, Initial(h)));
    var k := AcquiredSlot(s.pool).value;
    assert !LiveAt(s, k) by { assert k !in Live(s.pool); }
    assert LiveAt(s', k) && SameElsewhere(s, s', k);
  }

  /** A disconnect takes its client out: the slot is free, the descriptor is not polled, and the others stay. */
  lemma DisconnectedIsReleased(h: Handler, serverFd: int, script: seq<LoopStep>, a: Answer)
    requires h.Valid() && CanServe(h, serverFd, script) && Enabled(h, ServerAfter(h, serverFd, script), Dispatch(a))
    requires ServerAfter(h, serverFd, script).batch[0].kind.Disconnected?
    ensures var s := ServerAfter(h, serverFd, script);
            var s', k := AfterStep(h, s, Dispatch(a)), HeadSlot(s);
            && LiveAt(s, k) && !LiveAt(s', k) && SameElsewhere(s, s', k)
            && s'.departed == s.departed[ClientAt(s, k).id := ClientAt(s, k).conn]
            && !Polled(s'.registry, ClientAt(s, k).fd) && !Registered(s'.registry, ClientContext(k))
  {
    ServedKeepsInv(h, serverFd, script);
    var s := ServerAfter(h, serverFd, script);
    var k := HeadSlot(s);
    assert EventAgrees(s, s.batch[0]);
    LiveEntryIsKnown(s, k, s.batch[0].entry.value);
    RemoveKeepsShape(s.registry, s.batch[0].entry.value);
  }

  /** An accept that fails changes nothing. */
  lemma FailedAcceptIsIgnored(h: Handler, s: Server)
    requires h.Valid() && Enabled(h, s, Dispatch(AcceptFailed))
    ensures AfterStep(h, s, Dispatch(AcceptFailed)) == s.(batch := s.batch[1..])
  {
  }

  // Projection on one client.

  /** What one dispatch means to client `id`. */
  ghost function StepIo(s: Server, e: LoopStep, id: nat): seq<IoEvent> {
    if e.Dispatch? && HeadIsLive(s) && ClientAt(s, HeadSlot(s)).id == id then
      if s.batch[0].kind.Read? && e.a.Received? then [Readable(e.a.r)]
      else if s.batch[0].kind.Write? && e.a.Sent? then [Writable(e.a.n)]
      else []
    else []
  }

  /** The script of the server as client `id` sees it. */
  ghost function Projected(h: Handler, serverFd: int, script: seq<LoopStep>, id: nat): seq<IoEvent>
    requires h.Valid() && CanServe(h, serverFd, script)
    decreases |script|
  {
    if script == [] then []
    else Projected(h, serverFd, script[..|script| - 1], id)
         + StepIo(ServerAfter(h, serverFd, script[..|script| - 1]), script[|script| - 1], id)
  }

  ghost predicate IsReplay(h: Handler, es: seq<IoEvent>, c: Conn)
    requires h.Valid()
  {
    LegalIo(h, es) && Replay(h, es) == c
  }

  lemma ReplayExtends(h: Handler, es: seq<IoEvent>, c: Conn, e: IoEvent)
    requires h.Valid() && IsReplay(h, es, c) && FitsEvent(c, e)
    ensures WellSized(h, c) && IsReplay(h, es + [e], OnIo(h, c, e))
  {
    assert (es + [e])[..|es + [e]| - 1] == es;
  }

  /**
   * The connection of client `id`, live or departed, is the replay of es; a client not yet accepted has seen nothing.
   */
  ghost predicate RunsAlone(h: Handler, s: Server, id: nat, es: seq<IoEvent>)
    requires h.Valid()
  {
    && (forall k :: LiveAt(s, k) && ClientAt(s, k).id == id ==> IsReplay(h, es, ClientAt(s, k).conn))
    && (id in s.departed ==> IsReplay(h, es, s.departed[id]))
    && (id >= s.accepted ==> es == [])
  }

  lemma SameSlotsRunAlone(h: Handler, s: Server, s': Server, id: nat, es: seq<IoEvent>)
    requires h.Valid() && RunsAlone(h, s, id, es)
    requires s'.pool == s.pool && s'.departed == s.departed && s'.accepted == s.accepted
    ensures RunsAlone(h, s', id, es)
  {
    assert forall k :: LiveAt(s', k) ==> LiveAt(s, k) && ClientAt(s', k) == ClientAt(s, k);
  }

  lemma AcceptRunsAlone(h: Handler, s: Server, fd: int, id: nat, es: seq<IoEvent>)
    requires h.Valid() && Inv(h, s) && RunsAlone(h, s, id, es)
    ensures RunsAlone(h, OnAccept(h, s, fd), id, es)
  {
    var s' := OnAccept(h, s, fd);
    if AcquiredSlot(s.pool).Some? {
      var slot := AcquiredSlot(s.pool).value;
      assert forall k :: LiveAt(s', k) && k != slot ==> LiveAt(s, k) && ClientAt(s', k) == ClientAt(s, k);
    } else {
      SameSlotsRunAlone(h, s, s', id, es);
    }
  }

  lemma DisconnectRunsAlone(h: Handler, s: Server, e: Entry, k: nat, id: nat, es: seq<IoEvent>)
    requires h.Valid() && RunsAlone(h, s, id, es) && IdsAgree(s) && LiveAt(s, k)
    ensures RunsAlone(h, OnDisconnected(s, e, k), id, es)
  {
    var s' := OnDisconnected(s, e, k);
    assert forall l :: LiveAt(s', l) ==> LiveAt(s, l) && l != k && ClientAt(s', l) == ClientAt(s, l);
  }

  /** Storing a connection in slot k matters only to the client in slot k. */
  lemma WithConnRunsAlone(h: Handler, s: Server, s': Server, k: nat, c: Conn, id: nat, es: seq<IoEvent>,
                          es': seq<IoEvent>)
    requires h.Valid() && RunsAlone(h, s, id, es) && IdsAgree(s) && LiveAt(s, k)
    requires s'.pool == WithConn(s, k, c).pool && s'.departed == s.departed && s'.accepted == s.accepted
    requires if ClientAt(s, k).id == id then IsReplay(h, es', c) else es' == es
    ensures RunsAlone(h, s', id, es')
  {
    assert forall l :: LiveAt(s', l) ==> LiveAt(s, l) && ClientAt(s', l).id == ClientAt(s, l).id;
    assert forall l :: LiveAt(s', l) && l != k ==> ClientAt(s', l) == ClientAt(s, l);
  }

  lemma ReadRunsAlone(h: Handler, s: Server, a: Answer, id: nat, es: seq<IoEvent>)
    requires h.Valid() && Inv(h, s) && Enabled(h, s, Dispatch(a)) && s.batch[0].kind.Read?
    requires RunsAlone(h, s, id, es)
    ensures RunsAlone(h, Handle(h, s, a), id, es + StepIo(s, Dispatch(a), id))
  {
    var k := HeadSlot(s);
    var c := ClientAt(s, k).conn;
    assert es + [] == es;
    if ClientAt(s, k).id == id { ReplayExtends(h, es, c, Readable(a.r)); }
    WithConnRunsAlone(h, s, Handle(h, s, a), k, OnReadable(h, c, a.r), id, es, es + StepIo(s, Dispatch(a), id));
  }

  lemma WriteRunsAlone(h: Handler, s: Server, a: Answer, id: nat, es: seq<IoEvent>)
    requires h.Valid() && Inv(h, s) && Enabled(h, s, Dispatch(a)) && s.batch[0].kind.Write?
    requires RunsAlone(h, s, id, es)
    ensures RunsAlone(h, Handle(h, s, a), id, es + StepIo(s, Dispatch(a), id))
  {
    var k := HeadSlot(s);
    var c := ClientAt(s, k).conn;
    assert es + [] == es;
    if ClientAt(s, k).id == id { ReplayExtends(h, es, c, Writable(a.n)); }
    WithConnRunsAlone(h, s, Handle(h, s, a), k, OnWritable(h, c, a.n), id, es, es + StepIo(s, Dispatch(a), id));
  }

  lemma ClientEventRunsAlone(h: Handler, s: Server, a: Answer, id: nat, es: seq<IoEvent>)
    requires h.Valid() && Inv(h, s) && Enabled(h, s, Dispatch(a)) && !s.batch[0].kind.Accept?
    requires RunsAlone(h, s, id, es)
    ensures RunsAlone(h, Handle(h, s, a), id, es + StepIo(s, Dispatch(a), id))
  {
    assert EventAgrees(s, s.batch[0]);
    match s.batch[0].kind {
      case Disconnected =>
        assert es + [] == es;
        DisconnectRunsAlone(h, s, s.batch[0].entry.value, HeadSlot(s), id, es);
      case Read => ReadRunsAlone(h, s, a, id, es);
      case Write => WriteRunsAlone(h, s, a, id, es);
    }
  }

  lemma StepRunsAlone(h: Handler, s: Server, e: LoopStep, id: nat, es: seq<IoEvent>)
    requires h.Valid() && Inv(h, s) && Enabled(h, s, e) && RunsAlone(h, s, id, es)
    ensures RunsAlone(h, AfterStep(h, s, e), id, es + StepIo(s, e, id))
  {
    assert es + [] == es;
    match e
    case Wait(_) => SameSlotsRunAlone(h, s, AfterStep(h, s, e), id, es);
    case Dispatch(a) =>
      if s.batch[0].kind.Accept? {
        assert EventAgrees(s, s.batch[0]);
        assert StepIo(s, e, id) == [];
        if a.Accepted? { AcceptRunsAlone(h, s, a.fd, id, es); }
      } else {
        ClientEventRunsAlone(h, s, a, id, es);
      }
      SameSlotsRunAlone(h, Handle(h, s, a), AfterStep(h, s, e), id, es + StepIo(s, e, id));
  }

  /**
   * Projection: in any interleaved run, the connection of each client is the one the client's own events produce
   * when nobody else is served.
   */
  lemma {:induction false} ClientsRunAlone(h: Handler, serverFd: int, script: seq<LoopStep>, id: nat)
    requires h.Valid() && CanServe(h, serverFd, script)
    ensures RunsAlone(h, ServerAfter(h, serverFd, script), id, Projected(h, serverFd, script, id))
    decreases |script|
  {
    if script != [] {
      var front := script[..|script| - 1];
      ClientsRunAlone(h, serverFd, front, id);
      ServedKeepsInv(h, serverFd, front);
      StepRunsAlone(h, ServerAfter(h, serverFd, front), script[|script| - 1], id, Projected(h, serverFd, front, id));
    }
  }

  /** The connection of client `id`, in its slot or as it was when the client left. */
  ghost predicate IsConnOf(s: Server, id: nat, c: Conn) {
    || (id in s.departed && s.departed[id] == c)
    || (exists k :: LiveAt(s, k) && ClientAt(s, k).id == id && ClientAt(s, k).conn == c)
  }

  /** The step reads data for client `id` while its connection is reading: those bytes; any other step: none. */
  ghost function StepDelivers(s: Server, e: LoopStep, id: nat): seq<Byte> {
    if e.Dispatch? && e.a.Received? && e.a.r.Data? && HeadIsLive(s) && s.batch[0].kind.Read?
       && ClientAt(s, HeadSlot(s)).id == id && Reading(HeadConn(s))
    then e.a.r.bytes
    else []
  }

  ghost function StepSends(s: Server, e: LoopStep, id: nat): nat {
    if e.Dispatch? && e.a.Sent? && e.a.n > 0 && HeadIsLive(s) && s.batch[0].kind.Write?
       && ClientAt(s, HeadSlot(s)).id == id && HeadConn(s).state.WritingResponse?
    then e.a.n
    else 0
  }

  /** What the sockets delivered to client `id` over the whole script, and how much they took from it. */
  ghost function DeliveredTo(h: Handler, serverFd: int, script: seq<LoopStep>, id: nat): seq<Byte>
    requires h.Valid() && CanServe(h, serverFd, script)
    decreases |script|
  {
    if script == [] then []
    else DeliveredTo(h, serverFd, script[..|script| - 1], id)
         + StepDelivers(ServerAfter(h, serverFd, script[..|script| - 1]), script[|script| - 1], id)
  }

  ghost function SentTo(h: Handler, serverFd: int, script: seq<LoopStep>, id: nat): nat
    requires h.Valid() && CanServe(h, serverFd, script)
    decreases |script|
  {
    if script == [] then 0
    else SentTo(h, serverFd, script[..|script| - 1], id)
         + StepSends(ServerAfter(h, serverFd, script[..|script| - 1]), script[|script| - 1], id)
  }

  /** The projected events of a client are legal, and carry what its socket delivered and took. */
  ghost predicate CarriesBytes(h: Handler, es: seq<IoEvent>, bytes: seq<Byte>, sent: nat)
    requires h.Valid()
  {
    LegalIo(h, es) && Delivered(h, es) == bytes && SentCount(h, es) == sent
  }

  lemma ExtendCarries(h: Handler, es: seq<IoEvent>, c: Conn, e: IoEvent, bytes: seq<Byte>, sent: nat)
    requires h.Valid() && IsReplay(h, es, c) && CarriesBytes(h, es, bytes, sent) && FitsEvent(c, e)
    ensures CarriesBytes(h, es + [e], bytes + (if Reading(c) && e.Readable? && e.r.Data? then e.r.bytes else []),
                         sent + (if c.state.WritingResponse? && e.Writable? && e.n > 0 then e.n else 0))
  {
    assert (es + [e])[..|es + [e]| - 1] == es;
  }

  lemma StepCarries(h: Handler, s: Server, e: LoopStep, id: nat, es: seq<IoEvent>, bytes: seq<Byte>, sent: nat)
    requires h.Valid() && Enabled(h, s, e) && RunsAlone(h, s, id, es) && CarriesBytes(h, es, bytes, sent)
    ensures CarriesBytes(h, es + StepIo(s, e, id), bytes + StepDelivers(s, e, id), sent + StepSends(s, e, id))
  {
    var io := StepIo(s, e, id);
    if io == [] {
      assert es + io == es && bytes + [] == bytes;
    } else {
      ExtendCarries(h, es, HeadConn(s), io[0], bytes, sent);
      assert io == [io[0]];
    }
  }

  lemma {:induction false} ProjectedCarries(h: Handler, serverFd: int, script: seq<LoopStep>, id: nat)
    requires h.Valid() && CanServe(h, serverFd, script)
    ensures CarriesBytes(h, Projected(h, serverFd, script, id), DeliveredTo(h, serverFd, script, id),
                         SentTo(h, serverFd, script, id))
    decreases |script|
  {
    if script != [] {
      var front := script[..|script| - 1];
      ProjectedCarries(h, serverFd, front, id);
      ClientsRunAlone(h, serverFd, front, id);
      StepCarries(h, ServerAfter(h, serverFd, front), script[|script| - 1], id, Projected(h, serverFd, front, id),
                  DeliveredTo(h, serverFd, front, id), SentTo(h, serverFd, front, id));
    }
  }

  /**
   * The connection against the reference parser on a stream: its requests are a prefix of the reference's, the bytes
   * sent are the first ones of the reference's output, as many as the socket took, and both are all of it once the
   * stream is delivered and no response is pending.
   */
  ghost predicate MatchesReference(h: Handler, c: Conn, stream: seq<Byte>, delivered: seq<Byte>, sent: nat)
    requires h.Valid()
  {
    var reference := Serve(h, [], stream);
    && c.requests <= reference.requests
    && sent <= |reference.output| && c.emitted == reference.output[..sent]
    && (delivered == stream ==> c.requests == reference.requests)
    && (delivered == stream && !c.state.WritingResponse? ==> sent == |reference.output|)
  }

  /**
   * End to end: whatever other clients do, the connection of a client, live or departed, matches the reference parser
   * on every stream that starts with what its socket delivered.
   */
  lemma ServerRefinesReference(h: Handler, serverFd: int, script: seq<LoopStep>, id: nat)
    requires h.Valid() && CanServe(h, serverFd, script)
    ensures forall c, stream ::
              IsConnOf(ServerAfter(h, serverFd, script), id, c) && DeliveredTo(h, serverFd, script, id) <= stream ==>
                MatchesReference(h, c, stream, DeliveredTo(h, serverFd, script, id), SentTo(h, serverFd, script, id))
  {
    ClientsRunAlone(h, serverFd, script, id);
    ProjectedCarries(h, serverFd, script, id);
    var es := Projected(h, serverFd, script, id);
    forall c, stream |
      IsConnOf(ServerAfter(h, serverFd, script), id, c) && DeliveredTo(h, serverFd, script, id) <= stream
      ensures MatchesReference(h, c, stream, DeliveredTo(h, serverFd, script, id), SentTo(h, serverFd, script, id))
    {
      assert IsReplay(h, es, c);
      FramingRefinement(h, es, stream);
    }
  }

  // The crash is reachable: 33 clients connect and none leaves.

  lemma TakeStep(h: Handler, serverFd: int, script: seq<LoopStep>, s: Server, e: LoopStep)
    returns (script': seq<LoopStep>, s': Server)
    requires h.Valid() && CanServe(h, serverFd, script) && ServerAfter(h, serverFd, script) == s && Enabled(h, s, e)
    ensures script' == script + [e] && s' == AfterStep(h, s, e)
    ensures CanServe(h, serverFd, script') && ServerAfter(h, serverFd, script') == s'
  {
    script', s' := script + [e], AfterStep(h, s, e);
    assert script'[..|script'| - 1] == script;
  }

  /** Only the accept descriptor is ready. */
  function OnlyAccept(n: nat): seq<Revents> {
    seq(n, i => Revents(i == 0, false, false, false, false))
  }

  lemma {:induction false} CollectOnlyAccept(r: Registry, n: nat)
    requires 0 < n <= |r.handle|
    ensures Collect(r, OnlyAccept(|r.handle|), n) == [EventAt(r, OnlyAccept(|r.handle|), 0)]
    decreases n
  {
    if n == 1 {
      assert Collect(r, OnlyAccept(|r.handle|), 0) == [];
    } else {
      CollectOnlyAccept(r, n - 1);
    }
  }

  /** After n accepts of fresh descriptors: n live slots, the accept entry still first. */
  ghost predicate Filled(s: Server, n: nat) {
    && !s.crashed && s.batch == [] && |Live(s.pool)| == n
    && |s.registry.handle| > 0 && |s.registry.contexts| > 0
    && s.registry.handle[0] == PollFd(0, Interest(true, false)) && s.registry.contexts[0] == Entry(ServerContext, 0)
    && s.registry.serverSocket == 0
    && (forall k :: LiveAt(s, k) ==> 0 < ClientAt(s, k).fd <= n)
  }

  /** The poll that reports just one more connection. */
  lemma OfferConnection(h: Handler, script: seq<LoopStep>, s: Server, n: nat)
    returns (script': seq<LoopStep>, s': Server)
    requires h.Valid() && CanServe(h, 0, script) && ServerAfter(h, 0, script) == s && Filled(s, n)
    ensures CanServe(h, 0, script') && ServerAfter(h, 0, script') == s'
    ensures s' == s.(batch := [Event(Some(Entry(ServerContext, 0)), SocketEventType.Accept)])
    ensures Enabled(h, s', Dispatch(Accepted(n + 1)))
  {
    ServedKeepsInv(h, 0, script);
    var revents := OnlyAccept(|s.registry.handle|);
    script', s' := TakeStep(h, 0, script, s, Wait(revents));
    CollectOnlyAccept(s.registry, |s.registry.handle|);
    assert forall k :: LiveAt(s', k) ==> LiveAt(s, k) && ClientAt(s', k) == ClientAt(s, k);
  }

  lemma AcceptFills(h: Handler, s: Server, n: nat, s': Server)
    requires h.Valid() && Inv(h, s) && n < CAPACITY && |Live(s.pool)| == n
    requires Filled(s.(batch := []), n) && s.batch == [Event(Some(Entry(ServerContext, 0)), SocketEventType.Accept)]
    requires Enabled(h, s, Dispatch(Accepted(n + 1))) && s' == AfterStep(h, s, Dispatch(Accepted(n + 1)))
    ensures Filled(s', n + 1)
  {
    Conservation(s.pool);
    AcquireKeepsConsistent(s.pool, Client(s.accepted, n + 1, Initial(h)));
    var slot := AcquiredSlot(s.pool).value;
    forall k | LiveAt(s', k)
      ensures 0 < ClientAt(s', k).fd <= n + 1
    {
      if k != slot { assert LiveAt(s.(batch := []), k); }
    }
  }

  lemma StartIsFilled()
    ensures Filled(Start(0), 0)
  {
    FreshIsConsistent<Client>(CAPACITY);
  }

  lemma FillOne(h: Handler, script: seq<LoopStep>, s: Server, n: nat) returns (script': seq<LoopStep>, s': Server)
    requires h.Valid() && CanServe(h, 0, script) && ServerAfter(h, 0, script) == s && Filled(s, n) && n < CAPACITY
    ensures CanServe(h, 0, script') && ServerAfter(h, 0, script') == s' && Filled(s', n + 1)
  {
    var t: Server;
    script', t := OfferConnection(h, script, s, n);
    assert t.(batch := []) == s;
    ServedKeepsInv(h, 0, script');
    script', s' := TakeStep(h, 0, script', t, Dispatch(Accepted(n + 1)));
    AcceptFills(h, t, n, s');
  }

  lemma {:induction false} FillPool(h: Handler, n: nat) returns (script: seq<LoopStep>, s: Server)
    requires h.Valid() && n <= CAPACITY
    ensures CanServe(h, 0, script) && ServerAfter(h, 0, script) == s && Filled(s, n)
    decreases n
  {
    if n == 0 {
      script, s := [], Start(0);
      StartIsFilled();
    } else {
      var t: Server;
      script, t := FillPool(h, n - 1);
      script, s := FillOne(h, script, t, n - 1);
    }
  }

  /** With any handler there is a run of 33 connections that crashes the server. */
  lemma CrashIsReachable(h: Handler) returns (script: seq<LoopStep>)
    requires h.Valid()
    ensures CanServe(h, 0, script) && ServerAfter(h, 0, script).crashed
  {
    var s: Server;
    script, s := FillPool(h, CAPACITY);
    script, s := OfferConnection(h, script, s, CAPACITY);
    AcceptCrashesIff(h, 0, script, CAPACITY + 1);
    script, s := TakeStep(h, 0, script, s, Dispatch(Accepted(CAPACITY + 1)));
  }
}
