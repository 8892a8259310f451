/** The request server object: run() over a listener, a pool of connection objects, and their buffers. */
module RequestServer {
  import opened Sockets
  import opened EventListener
  import opened ObjectPool
  import opened FramingMachine
  import opened Connection
  import opened RequestLoop
  import opened RequestRounds

  /** A pool slot in use: the accepted client's number and descriptor, and its connection object. */
  datatype Peer = Peer(id: nat, fd: int, connection: SocketConnection)

  ghost function FootprintOf(slot: Option<Peer>): set<object> {
    if slot.Some? then slot.value.connection.Repr() else {}
  }

  ghost function ValueOf(slot: Option<Peer>): Option<Client>
    reads FootprintOf(slot)
  {
    if slot.Some? then Some(Client(slot.value.id, slot.value.fd, slot.value.connection.Value())) else None
  }

  class SocketRequestServer {
    const handler: Handler
    const listener: SocketMultiEventListener
    const pool: ObjectPool<Peer>
    var batch: seq<Event>
    var accepted: nat

    // Set where the source dereferences the null pointer of an exhausted pool.
    var crashed: bool

    // What the handler has been told, the connections that have left, and every connection object made so far.
    ghost var departed: map<nat, Conn>
    ghost var connects: multiset<nat>
    ghost var disconnects: multiset<nat>
    ghost var Repr: set<object>

    ghost function Own(): set<object> {
      {this, listener, pool, pool.objects}
    }

    ghost predicate Contained()
      reads this, pool.objects
    {
      forall k :: 0 <= k < pool.objects.Length ==> FootprintOf(pool.objects[k]) <= Repr
    }

    ghost function SlotsUpTo(n: nat): (slots: seq<Option<Client>>)
      requires n <= pool.objects.Length && Contained()
      reads this, pool.objects, Repr
      ensures |slots| == n
      ensures forall k :: 0 <= k < n ==> slots[k] == ValueOf(pool.objects[k])
    {
      if n == 0 then [] else SlotsUpTo(n - 1) + [ValueOf(pool.objects[n - 1])]
    }

    ghost function Slots(): (slots: seq<Option<Client>>)
      requires Contained()
      reads this, pool.objects, Repr
      ensures |slots| == pool.objects.Length
      ensures forall k :: 0 <= k < |slots| ==> slots[k] == ValueOf(pool.objects[k])
    {
      SlotsUpTo(pool.objects.Length)
    }

    ghost function Model(): Server
      requires Contained()
      reads this, listener, pool, pool.objects, Repr
    {
      Server(Pool(Slots(), pool.availables), listener.Model(), batch, accepted, departed, connects, disconnects,
        crashed)
    }

    /** The connections own disjoint buffers, apart from the server's own objects. */
    ghost predicate Separated()
      reads this, pool.objects
    {
      && Contained() && Repr !! Own()
      && (forall k, l :: 0 <= k < l < pool.objects.Length ==>
         FootprintOf(pool.objects[k]) !! FootprintOf(pool.objects[l]))
    }

    ghost predicate SlotValid(k: nat)
      requires k < pool.objects.Length
      reads pool.objects, FootprintOf(pool.objects[k])
    {
      pool.objects[k].Some? ==>
        pool.objects[k].value.connection.Valid() && pool.objects[k].value.connection.handler == handler
    }

    ghost predicate SlotsValid()
      requires Contained()
      reads this, pool.objects, Repr
    {
      forall k :: 0 <= k < pool.objects.Length ==> SlotValid(k)
    }

    ghost predicate Sound()
      reads this, pool.objects, Repr
    {
      handler.Valid() && Separated() && SlotsValid()
    }

    ghost predicate Valid()
      reads this, listener, pool, pool.objects, Repr
    {
      Sound() && Inv(handler, Model())
    }

    constructor (h: Handler, serverFd: int)
      requires h.Valid()
      ensures Valid() && handler == h && Model() == Start(serverFd)
      ensures fresh(Own() + Repr)
    {
      handler := h;
      var l := new SocketMultiEventListener();
      l.AddEvent(Entry(ServerContext, serverFd), SocketEventType.Accept);
      listener := l;
      pool := new ObjectPool<Peer>(CAPACITY);
      batch, accepted, crashed := [], 0, false;
      departed, connects, disconnects, Repr := map[], multiset{}, multiset{}, {};
      new;
      assert Slots() == Fresh<Client>(CAPACITY).slots;
      StartHolds(h, serverFd);
    }

    /** The pool of connection objects and the pool of the model have the same raw slots. */
    lemma SameRawSlots()
      requires Contained()
      ensures Consistent(pool.Model()) <==> Consistent(Model().pool)
      ensures AcquiredSlot(pool.Model()) == AcquiredSlot(Model().pool)
    {
      assert forall k :: 0 <= k < pool.objects.Length ==> (Slots()[k].None? <==> pool.objects[k].None?);
    }

    lemma FirstFree()
      requires Consistent(pool.Model()) && pool.availables != []
      ensures AcquiredSlot(pool.Model()).Some?
    {
      assert pool.Model().free[0] in pool.Model().free;
    }

    /** Only slot k was filled or emptied, or had its connection moved; a new connection is new. */
    twostate predicate OnlySlot(k: nat)
      requires k < pool.objects.Length
      reads this, pool.objects, Repr
    {
      && Contained() && old(Repr) <= Repr && fresh(Repr - old(Repr))
      && pool.objects[..] == old(pool.objects[..])[k := pool.objects[k]]
      && fresh(FootprintOf(pool.objects[k]) - old(FootprintOf(pool.objects[k])))
      && forall l :: 0 <= l < pool.objects.Length && l != k ==> unchanged(FootprintOf(pool.objects[l]))
    }

    /** Then only slot k of the model changed, and the connections stay apart and valid. */
    twostate lemma SlotReplaced(k: nat)
      requires k < pool.objects.Length && OnlySlot(k) && old(Sound()) && SlotValid(k)
      ensures Sound() && Slots() == old(Slots())[k := ValueOf(pool.objects[k])]
    {
      forall l | 0 <= l < pool.objects.Length && l != k
        ensures pool.objects[l] == old(pool.objects[l]) && SlotValid(l)
                && ValueOf(pool.objects[l]) == old(ValueOf(pool.objects[l]))
      {
        assert pool.objects[..][l] == old(pool.objects[..])[l];
        assert old(SlotValid(l));
      }
    }

    /** The server's own fields and its listener do not matter to the slots. */
    twostate lemma SlotsUntouched()
      requires Repr == old(Repr) && unchanged(pool.objects) && unchanged(old(Repr)) && old(Sound())
      ensures Sound() && Slots() == old(Slots())
    {
      assert forall k :: 0 <= k < pool.objects.Length ==> old(SlotValid(k)) && SlotValid(k);
    }

    /** accept: build a connection in a free slot. */
    method FillSlot(fd: int) returns (slot: nat)
      requires Sound() && Consistent(pool.Model()) && AcquiredSlot(pool.Model()).Some?
      modifies this`Repr, pool, pool.objects
      ensures AcquiredSlot(old(pool.Model())) == Some(slot) && slot < pool.objects.Length
      ensures Sound() && fresh(Repr - old(Repr)) && old(Repr) <= Repr
      ensures Slots() == old(Slots())[slot := Some(Client(accepted, fd, Initial(handler)))]
      ensures pool.availables == old(pool.availables[1..])
    {
      var c := new SocketConnection(handler);
      var pos := pool.Acquire(Peer(accepted, fd, c));
      slot := pos.value;
      Repr := Repr + c.Repr();
      assert pool.objects[slot] == Some(Peer(accepted, fd, c)) by {
        assert pool.Model().slots[slot] == Some(Peer(accepted, fd, c));
      }
      assert pool.objects[..] == pool.Model().slots;
      SlotReplaced(slot);
    }

    /** release: the slot is raw storage again. */
    method EmptySlot(k: nat)
      requires Sound() && k < pool.objects.Length
      modifies pool, pool.objects
      ensures Sound()
      ensures Slots() == old(Slots())[k := None]
      ensures pool.availables == old(pool.availables) + [k]
    {
      pool.Release(k);
      assert pool.objects[..] == pool.Model().slots;
      assert pool.objects[k] == None by { assert pool.Model().slots[k] == None; }
      SlotReplaced(k);
    }

    /** The connection of a live slot is the one in the model. */
    lemma LiveSlot(k: nat)
      requires Sound() && LiveAt(Model(), k)
      ensures k < pool.objects.Length && pool.objects[k].Some? && SlotValid(k)
      ensures ClientAt(Model(), k).conn == pool.objects[k].value.connection.Value()
      ensures WellSized(handler, ClientAt(Model(), k).conn)
    {
      assert SlotValid(k);
    }

    /** The Accept arm: acquire answers null when no slot is free. */
    method HandleAccept(fd: int)
      requires Sound() && Consistent(Model().pool)
      modifies Own()
      ensures Sound() && fresh(Repr - old(Repr)) && old(Repr) <= Repr
      ensures Model() == OnAccept(handler, old(Model()), fd)
    {
      SameRawSlots();
      if |pool.availables| == 0 {
        crashed := true;
        SlotsUntouched();
        return;
      }
      FirstFree();
      var slot := FillSlot(fd);
      label Filled:
      connects := connects + multiset{accepted};
      accepted := accepted + 1;
      listener.AddEvent(Entry(ClientContext(slot), fd), SocketEventType.Read);
      SlotsUntouched@Filled();
    }

    /** The Disconnected arm. */
    method HandleDisconnected(e: Entry, k: nat)
      requires Sound() && LiveAt(Model(), k)
      modifies Own()
      ensures Sound() && Repr == old(Repr)
      ensures Model() == OnDisconnected(old(Model()), e, k)
    {
      var peer := pool.objects[k].value;
      disconnects := disconnects + multiset{peer.id};
      departed := departed[peer.id := peer.connection.Value()];
      listener.RemoveEvent(e);
      SlotsUntouched();
      EmptySlot(k);
    }

    /** The Read arm: the connection may go over to writing; every other connection keeps its buffers. */
    method HandleRead(e: Entry, k: nat, r: FramingMachine.Received)
      requires Sound() && LiveAt(Model(), k) && WellSized(handler, ClientAt(Model(), k).conn)
               && Fits(ClientAt(Model(), k).conn, r)
      modifies listener, Repr
      ensures Sound()
      ensures Model() == OnRead(handler, old(Model()), e, k, r)
    {
      LiveSlot(k);
      var c := pool.objects[k].value.connection;
      var before := c.state;
      c.OnReadable(r);
      SlotReplaced(k);
      if !before.WritingResponse? && c.state.WritingResponse? {
        listener.ModifyEvent(e, SocketEventType.Write);
      }
    }

    /** The Write arm: a finished response goes back to reading. */
    method HandleWrite(e: Entry, k: nat, n: int)
      requires Sound() && LiveAt(Model(), k) && WellSized(handler, ClientAt(Model(), k).conn)
      requires ClientAt(Model(), k).conn.state.WritingResponse? ==> FitsResponse(ClientAt(Model(), k).conn, n)
      modifies listener, Repr
      ensures Sound()
      ensures Model() == OnWrite(handler, old(Model()), e, k, n)
    {
      LiveSlot(k);
      var c := pool.objects[k].value.connection;
      var before := c.state;
      c.OnWritable(n);
      SlotReplaced(k);
      if before.WritingResponse? && !c.state.WritingResponse? {
        listener.ModifyEvent(e, SocketEventType.Read);
      }
    }

    /** The outer switch, and on to the next event. */
    method HandleEvent(a: Answer)
      requires Sound() && Enabled(handler, Model(), LoopStep.Dispatch(a))
      requires Consistent(Model().pool)
      modifies Own(), Repr
      ensures Sound() && fresh(Repr - old(Repr)) && old(Repr) <= Repr
      ensures Model() == AfterStep(handler, old(Model()), LoopStep.Dispatch(a))
    {
      var event := batch[0];
      match event.kind {
        case Accept =>
          if a.Accepted? {
            HandleAccept(a.fd);
          }
        case Disconnected => HandleDisconnected(event.entry.value, event.entry.value.context.id);
        case Read => HandleRead(event.entry.value, event.entry.value.context.id, a.r);
        case Write => HandleWrite(event.entry.value, event.entry.value.context.id, a.n);
        case _ =>
      }
      label Handled:
      batch := batch[1..];
      SlotsUntouched@Handled();
    }

    /** One turn of the dispatch loop keeps the server valid. */
    method Dispatch(a: Answer)
      requires Valid() && Enabled(handler, Model(), LoopStep.Dispatch(a))
      modifies Own(), Repr
      ensures Valid() && fresh(Repr - old(Repr)) && old(Repr) <= Repr
      ensures Model() == AfterStep(handler, old(Model()), LoopStep.Dispatch(a))
    {
      StepKeepsInv(handler, Model(), LoopStep.Dispatch(a));
      HandleEvent(a);
    }

    /** The top of the loop: poll on a copy of the registry, and the ready events become the batch. */
    method Poll(revents: seq<Revents>)
      requires Valid() && Enabled(handler, Model(), LoopStep.Wait(revents))
      modifies `batch
      ensures Valid()
      ensures Model() == AfterStep(handler, old(Model()), LoopStep.Wait(revents))
    {
      StepKeepsInv(handler, Model(), LoopStep.Wait(revents));
      var registry := listener.Snapshot();
      batch := SocketMultiEventListener.Classification(registry, revents);
      SlotsUntouched();
    }

    /** The inner loop: every event of the batch, in order. */
    method DispatchAll(answers: seq<Answer>)
      requires Valid() && CanContinue(handler, Model(), Dispatches(answers))
      modifies Own(), Repr
      ensures Valid() && fresh(Repr - old(Repr)) && old(Repr) <= Repr
      ensures Model() == Continued(handler, old(Model()), Dispatches(answers))
    {
      ghost var whole := Continued(handler, Model(), Dispatches(answers));
      for j := 0 to |answers|
        invariant Valid() && fresh(Repr - old(Repr)) && old(Repr) <= Repr
        invariant CanContinue(handler, Model(), Dispatches(answers)[j..])
        invariant Continued(handler, Model(), Dispatches(answers)[j..]) == whole
      {
        assert Dispatches(answers)[j..][1..] == Dispatches(answers)[j + 1..];
        Dispatch(answers[j]);
      }
    }

    /** One turn of the outer loop: poll, and dispatch what is ready; a timeout does nothing. */
    method RunRound(round: Round)
      requires Valid() && RoundFits(handler, Model(), round)
      modifies Own(), Repr
      ensures Valid() && fresh(Repr - old(Repr)) && old(Repr) <= Repr
      ensures Model() == AfterRound(handler, old(Model()), round)
    {
      if round.Ready? {
        Poll(round.revents);
        DispatchAll(round.answers);
      }
    }

    /** run(): a failed wait leaves the loop. */
    method Run(rounds: seq<Round>)
      requires Valid() && Feasible(handler, Model(), rounds)
      modifies Own(), Repr
      ensures Valid() && fresh(Repr - old(Repr)) && old(Repr) <= Repr
      ensures Model() == AfterRounds(handler, old(Model()), rounds)
    {
      ghost var whole := AfterRounds(handler, Model(), rounds);
      for r := 0 to |rounds|
        invariant Valid() && fresh(Repr - old(Repr)) && old(Repr) <= Repr
        invariant Feasible(handler, Model(), rounds[r..]) && AfterRounds(handler, Model(), rounds[r..]) == whole
      {
        if rounds[r].Failed? {
          return;
        }
        assert rounds[r..][1..] == rounds[r + 1..];
        RunRound(rounds[r]);
      }
    }
  }
}
