/** The poll registry: two parallel vectors, guarded by the listener's own mutex. */
module EventListener {
  import opened Sockets

  datatype SocketEventType = Undefined | Accept | Connect | Disconnected | Read | Write | ReadWrite

  /** A pointer to an event context: the server's accept context, or the context of one client. */
  datatype Context = ServerContext | ClientContext(id: nat)

  /** A registered context pointer together with the descriptor stored behind it, which never changes. */
  datatype Entry = Entry(context: Context, fd: int)

  datatype Interest = Interest(pollIn: bool, pollOut: bool)

  datatype PollFd = PollFd(fd: int, interest: Interest)

  datatype Revents = Revents(pollIn: bool, pollOut: bool, pollErr: bool, pollHup: bool, pollNval: bool) {
    predicate Broken() { pollErr || pollHup || pollNval }

    predicate Ready() { pollIn || pollOut || Broken() }
  }

  /** A dispatched context; `None` is the null pointer of a descriptor without a context. */
  datatype Event = Event(entry: Option<Entry>, kind: SocketEventType)

  datatype Registry = Registry(handle: seq<PollFd>, contexts: seq<Entry>, serverSocket: int)

  /** The kinds addEvent is written for: it leaves the requested bits unset for the other two. */
  type PollKind = kind: SocketEventType | !kind.Undefined? && !kind.Disconnected? witness Read

  function InterestOf(kind: PollKind): Interest {
    match kind
    case Accept => Interest(true, false)
    case Connect => Interest(true, true)
    case Read => Interest(true, false)
    case Write => Interest(false, true)
    case ReadWrite => Interest(true, true)
  }

  // Searching: each is std::find_if over one of the vectors.

  function FindFd(handle: seq<PollFd>, fd: int, from: nat): (i: nat)
    requires from <= |handle|
    ensures from <= i <= |handle|
    ensures i < |handle| ==> handle[i].fd == fd
    ensures forall j :: from <= j < i ==> handle[j].fd != fd
    decreases |handle| - from
  {
    if from == |handle| || handle[from].fd == fd then from else FindFd(handle, fd, from + 1)
  }

  function FindContext(contexts: seq<Entry>, context: Context, from: nat): (i: nat)
    requires from <= |contexts|
    ensures from <= i <= |contexts|
    ensures i < |contexts| ==> contexts[i].context == context
    ensures forall j :: from <= j < i ==> contexts[j].context != context
    decreases |contexts| - from
  {
    if from == |contexts| || contexts[from].context == context then from else FindContext(contexts, context, from + 1)
  }

  function FindEntry(contexts: seq<Entry>, fd: int, from: nat): (i: nat)
    requires from <= |contexts|
    ensures from <= i <= |contexts|
    ensures i < |contexts| ==> contexts[i].fd == fd
    ensures forall j :: from <= j < i ==> contexts[j].fd != fd
    decreases |contexts| - from
  {
    if from == |contexts| || contexts[from].fd == fd then from else FindEntry(contexts, fd, from + 1)
  }

  predicate Polled(r: Registry, fd: int) { FindFd(r.handle, fd, 0) < |r.handle| }

  predicate Registered(r: Registry, context: Context) { FindContext(r.contexts, context, 0) < |r.contexts| }

  // The three updates.

  function Add(r: Registry, e: Entry, kind: PollKind): Registry {
    Registry(r.handle + [PollFd(e.fd, InterestOf(kind))], r.contexts + [e],
             if kind.Accept? then e.fd else r.serverSocket)
  }

  /** The poll entry is found by descriptor, the context by pointer. */
  function Remove(r: Registry, e: Entry): Registry {
    r.(handle := EraseAt(r.handle, FindFd(r.handle, e.fd, 0)),
       contexts := EraseAt(r.contexts, FindContext(r.contexts, e.context, 0)))
  }

  function Modify(r: Registry, e: Entry, kind: PollKind): Registry {
    Add(Remove(r, e), e, kind)
  }

  // Waiting: poll answers one revents per entry of the snapshot.

  /** Disconnected is tested first, then Accept, then Read, then Write. */
  function Classify(r: Registry, fd: int, revents: Revents): SocketEventType {
    if revents.Broken() then Disconnected
    else if r.serverSocket == fd && revents.pollIn then Accept
    else if revents.pollIn then Read
    else if revents.pollOut then Write
    else Undefined
  }

  function EventAt(r: Registry, revents: seq<Revents>, i: nat): Event
    requires |revents| == |r.handle| && i < |r.handle|
  {
    var fd := r.handle[i].fd;
    var k := FindEntry(r.contexts, fd, 0);
    Event(if k < |r.contexts| then Some(r.contexts[k]) else None, Classify(r, fd, revents[i]))
  }

  /** The events among the first `n` poll entries. */
  function Collect(r: Registry, revents: seq<Revents>, n: nat): seq<Event>
    requires |revents| == |r.handle| && n <= |r.handle|
  {
    if n == 0 then []
    else Collect(r, revents, n - 1) + if revents[n - 1].Ready() then [EventAt(r, revents, n - 1)] else []
  }

  /** poll reports only requested bits plus the error bits, and no error on the accept descriptor. */
  ghost predicate PollAnswer(r: Registry, revents: seq<Revents>) {
    && |revents| == |r.handle|
    && (forall i :: 0 <= i < |revents| ==>
          && (revents[i].pollIn ==> r.handle[i].interest.pollIn)
          && (revents[i].pollOut ==> r.handle[i].interest.pollOut)
          && (r.handle[i].fd == r.serverSocket ==> !revents[i].Broken()))
  }

  // What the two vectors must agree on.

  ghost predicate DistinctFds(r: Registry) {
    && (forall i, j :: 0 <= i < j < |r.handle| ==> r.handle[i].fd != r.handle[j].fd)
    && (forall i, j :: 0 <= i < j < |r.contexts| ==> r.contexts[i].fd != r.contexts[j].fd)
    && (forall i, j :: 0 <= i < j < |r.contexts| ==> r.contexts[i].context != r.contexts[j].context)
  }

  /** Every poll entry has a context, so `wait` never dereferences null. */
  ghost predicate Sound(r: Registry) {
    && DistinctFds(r)
    && (forall i :: 0 <= i < |r.handle| ==> FindEntry(r.contexts, r.handle[i].fd, 0) < |r.contexts|)
  }

  ghost predicate Aligned(r: Registry) {
    && |r.handle| == |r.contexts|
    && (forall i :: 0 <= i < |r.handle| ==> r.handle[i].fd == r.contexts[i].fd)
  }

  /** The same entry under two descriptors, or the same descriptor under two pointers, never mix. */
  ghost predicate Knows(r: Registry, e: Entry) {
    forall i :: 0 <= i < |r.contexts| && r.contexts[i].context == e.context ==> r.contexts[i].fd == e.fd
  }

  lemma AlignedIsSound(r: Registry)
    requires Aligned(r) && DistinctFds(r)
    ensures Sound(r)
    ensures forall i :: 0 <= i < |r.handle| ==> FindEntry(r.contexts, r.handle[i].fd, 0) == i
  {
    forall i | 0 <= i < |r.handle|
      ensures FindEntry(r.contexts, r.handle[i].fd, 0) == i
    {
      assert r.contexts[i].fd == r.handle[i].fd;
    }
  }

  // wait

  /** The ready positions in ascending order. */
  ghost function ReadyIndices(revents: seq<Revents>, n: nat): (idx: seq<nat>)
    requires n <= |revents|
    ensures forall k :: 0 <= k < |idx| ==> idx[k] < n && revents[idx[k]].Ready()
    ensures forall k, l :: 0 <= k < l < |idx| ==> idx[k] < idx[l]
    ensures forall i :: 0 <= i < n && revents[i].Ready() ==> i in idx
  {
    if n == 0 then []
    else ReadyIndices(revents, n - 1) + if revents[n - 1].Ready() then [n - 1] else []
  }

  lemma CollectsReady(r: Registry, revents: seq<Revents>, n: nat)
    requires |revents| == |r.handle| && n <= |r.handle|
    ensures |Collect(r, revents, n)| == |ReadyIndices(revents, n)|
    ensures forall k :: 0 <= k < |Collect(r, revents, n)| ==>
                          Collect(r, revents, n)[k] == EventAt(r, revents, ReadyIndices(revents, n)[k])
  {
    if n > 0 { CollectsReady(r, revents, n - 1); }
  }

  /** The entries wait reports are those for which poll set any bit. */
  lemma ReadyBits(revents: seq<Revents>, n: nat, i: nat)
    requires i < n <= |revents|
    ensures var v := revents[i];
            i in ReadyIndices(revents, n) <==> v.pollIn || v.pollOut || v.pollErr || v.pollHup || v.pollNval
  {
    if i in ReadyIndices(revents, n) {
      var k :| 0 <= k < |ReadyIndices(revents, n)| && ReadyIndices(revents, n)[k] == i;
    }
  }

  /**
   * The kind of the k-th event, bit by bit: an error, a hang-up or an invalid descriptor is a disconnect, whatever else
   * is set; else input on the accept descriptor is an accept and on any other a read; output alone is a write.
   */
  lemma EventKinds(r: Registry, revents: seq<Revents>, k: nat)
    requires |revents| == |r.handle| && k < |Collect(r, revents, |r.handle|)|
    ensures k < |ReadyIndices(revents, |r.handle|)|
    ensures var i := ReadyIndices(revents, |r.handle|)[k];
            var v := revents[i];
            var kind := Collect(r, revents, |r.handle|)[k].kind;
            var broken := v.pollErr || v.pollHup || v.pollNval;
            && (kind.Disconnected? <==> broken)
            && (kind.Accept? <==> !broken && v.pollIn && r.handle[i].fd == r.serverSocket)
            && (kind.Read? <==> !broken && v.pollIn && r.handle[i].fd != r.serverSocket)
            && (kind.Write? <==> !broken && !v.pollIn && v.pollOut)
  {
    CollectsReady(r, revents, |r.handle|);
    assert Collect(r, revents, |r.handle|)[k] == EventAt(r, revents, ReadyIndices(revents, |r.handle|)[k]);
  }

  lemma CollectedIsKnown(r: Registry, revents: seq<Revents>, k: nat)
    requires Sound(r) && |revents| == |r.handle| && k < |Collect(r, revents, |r.handle|)|
    ensures var e := Collect(r, revents, |r.handle|)[k].entry;
            && k < |ReadyIndices(revents, |r.handle|)|
            && e.Some? && e.value in r.contexts && e.value.fd == r.handle[ReadyIndices(revents, |r.handle|)[k]].fd
  {
    CollectsReady(r, revents, |r.handle|);
    assert Collect(r, revents, |r.handle|)[k] == EventAt(r, revents, ReadyIndices(revents, |r.handle|)[k]);
  }

  lemma CollectedDiffer(r: Registry, revents: seq<Revents>, k: nat, l: nat)
    requires Sound(r) && |revents| == |r.handle| && k < l < |Collect(r, revents, |r.handle|)|
    ensures var events := Collect(r, revents, |r.handle|);
            events[k].entry.Some? && events[l].entry.Some?
              && events[k].entry.value.context != events[l].entry.value.context
  {
    CollectedIsKnown(r, revents, k);
    CollectedIsKnown(r, revents, l);
    var events, idx := Collect(r, revents, |r.handle|), ReadyIndices(revents, |r.handle|);
    assert r.handle[idx[k]].fd != r.handle[idx[l]].fd;
    var i :| 0 <= i < |r.contexts| && r.contexts[i] == events[k].entry.value;
    var j :| 0 <= j < |r.contexts| && r.contexts[j] == events[l].entry.value;
  }

  lemma ReadyIsCollected(r: Registry, revents: seq<Revents>, i: nat)
    requires |revents| == |r.handle| && i < |r.handle| && revents[i].Ready()
    ensures EventAt(r, revents, i) in Collect(r, revents, |r.handle|)
  {
    CollectsReady(r, revents, |r.handle|);
    var idx := ReadyIndices(revents, |r.handle|);
    var k :| 0 <= k < |idx| && idx[k] == i;
    assert Collect(r, revents, |r.handle|)[k] == EventAt(r, revents, i);
  }

  /** Every ready descriptor yields its context once; no context is null or repeated. */
  lemma WaitIsSound(r: Registry, revents: seq<Revents>)
    requires Sound(r) && |revents| == |r.handle|
    ensures var events := Collect(r, revents, |r.handle|);
            && (forall k :: 0 <= k < |events| ==> events[k].entry.Some? && events[k].entry.value in r.contexts)
            && (forall k, l :: 0 <= k < l < |events| ==>
                   events[k].entry.value.context != events[l].entry.value.context)
            && (forall i :: 0 <= i < |r.handle| && revents[i].Ready() ==> EventAt(r, revents, i) in events)
  {
    var n := |r.handle|;
    var events := Collect(r, revents, n);
    forall k | 0 <= k < |events|
      ensures events[k].entry.Some? && events[k].entry.value in r.contexts
    {
      CollectedIsKnown(r, revents, k);
    }
    forall k, l | 0 <= k < l < |events|
      ensures events[k].entry.value.context != events[l].entry.value.context
    {
      CollectedDiffer(r, revents, k, l);
    }
    forall i | 0 <= i < n && revents[i].Ready()
      ensures EventAt(r, revents, i) in events
    {
      ReadyIsCollected(r, revents, i);
    }
  }

  lemma RemoveKeepsDistinct(r: Registry, e: Entry)
    requires DistinctFds(r)
    ensures DistinctFds(Remove(r, e))
  {
    ErasedAt(r.handle, FindFd(r.handle, e.fd, 0));
    ErasedAt(r.contexts, FindContext(r.contexts, e.context, 0));
  }

  /** The context of a descriptor other than `fd` survives the erasure of an entry with `fd`. */
  lemma EntrySurvives(contexts: seq<Entry>, j: nat, fd: int)
    requires FindEntry(contexts, fd, 0) < |contexts|
    requires j < |contexts| ==> contexts[j].fd != fd
    ensures FindEntry(EraseAt(contexts, j), fd, 0) < |EraseAt(contexts, j)|
  {
    var m := FindEntry(contexts, fd, 0);
    ErasedAt(contexts, j);
    assert EraseAt(contexts, j)[if m < j then m else if j < |contexts| then m - 1 else m].fd == fd;
  }

  /** A removal never leaves a poll entry without its context, even when it takes the entry of another context. */
  lemma RemoveKeepsSound(r: Registry, e: Entry)
    requires Sound(r) && Knows(r, e)
    ensures Sound(Remove(r, e))
  {
    var r' := Remove(r, e);
    var i, j := FindFd(r.handle, e.fd, 0), FindContext(r.contexts, e.context, 0);
    RemoveKeepsDistinct(r, e);
    forall k | 0 <= k < |r'.handle|
      ensures FindEntry(r'.contexts, r'.handle[k].fd, 0) < |r'.contexts|
    {
      ErasedAt(r.handle, i);
      assert r'.handle[k].fd == r.handle[if k < i then k else k + 1].fd != e.fd;
      EntrySurvives(r.contexts, j, r'.handle[k].fd);
    }
  }

  lemma AddKeepsSound(r: Registry, e: Entry, kind: PollKind)
    requires Sound(r)
    requires forall i :: 0 <= i < |r.contexts| ==> r.contexts[i].fd != e.fd && r.contexts[i].context != e.context
    ensures Sound(Add(r, e, kind))
  {
    var r' := Add(r, e, kind);
    forall k | 0 <= k < |r'.handle|
      ensures FindEntry(r'.contexts, r'.handle[k].fd, 0) < |r'.contexts|
      ensures k < |r.handle| ==> r'.handle[k].fd != e.fd
    {
      if k < |r.handle| {
        var m := FindEntry(r.contexts, r.handle[k].fd, 0);
        assert r'.contexts[m].fd == r.handle[k].fd;
      } else {
        assert r'.contexts[|r.contexts|].fd == e.fd;
      }
    }
  }

  /** What a new entry asks poll for: output for a write interest, else input, and both for connect and read-write. */
  lemma AddRequests(r: Registry, e: Entry, kind: PollKind)
    ensures Add(r, e, kind).contexts == r.contexts + [e]
    ensures Add(r, e, kind).serverSocket == if kind == Accept then e.fd else r.serverSocket
    ensures |Add(r, e, kind).handle| == |r.handle| + 1 && Add(r, e, kind).handle[..|r.handle|] == r.handle
    ensures var asked := Add(r, e, kind).handle[|r.handle|];
            && asked.fd == e.fd
            && (asked.interest.pollIn <==> kind in {Accept, Connect, Read, ReadWrite})
            && (asked.interest.pollOut <==> kind in {Connect, Write, ReadWrite})
  {
  }

  // The registry as one map from descriptor to context and interest.

  type FdMap = map<int, (Context, Interest)>

  /** The map held by the first `n` entries of the two vectors. */
  ghost function MapOf(r: Registry, n: nat): FdMap
    requires n <= |r.handle| && n <= |r.contexts|
  {
    if n == 0 then map[]
       else MapOf(r, n - 1)[r.handle[n - 1].fd := (r.contexts[n - 1].context, r.handle[n - 1].interest)]
  }

  ghost function ToMap(r: Registry): FdMap
    requires Aligned(r)
  {
    MapOf(r, |r.handle|)
  }

  /** A descriptor is a key exactly when it is polled, and its value is its own context and interest. */
  lemma {:induction false} MapLookup(r: Registry, n: nat, fd: int)
    requires Aligned(r) && DistinctFds(r) && n <= |r.handle|
    ensures fd in MapOf(r, n) <==> FindFd(r.handle, fd, 0) < n
    ensures forall i :: 0 <= i < n && r.handle[i].fd == fd ==>
                          MapOf(r, n)[fd] == (r.contexts[i].context, r.handle[i].interest)
  {
    if n > 0 {
      MapLookup(r, n - 1, fd);
    }
  }

  lemma {:induction false} MapOfPrefix(r: Registry, r': Registry, n: nat)
    requires n <= |r.handle| && n <= |r.contexts| && n <= |r'.handle| && n <= |r'.contexts|
    requires r.handle[..n] == r'.handle[..n] && r.contexts[..n] == r'.contexts[..n]
    ensures MapOf(r, n) == MapOf(r', n)
  {
    if n > 0 {
      assert r.handle[n - 1] == r.handle[..n][n - 1] == r'.handle[n - 1];
      assert r.contexts[n - 1] == r.contexts[..n][n - 1] == r'.contexts[n - 1];
      assert r.handle[..n - 1] == r.handle[..n][..n - 1];
      assert r.contexts[..n - 1] == r.contexts[..n][..n - 1];
      MapOfPrefix(r, r', n - 1);
    }
  }

  lemma AddRefinesMap(r: Registry, e: Entry, kind: PollKind)
    requires Aligned(r) && DistinctFds(r)
    requires !Polled(r, e.fd) && !Registered(r, e.context)
    ensures Aligned(Add(r, e, kind)) && DistinctFds(Add(r, e, kind))
    ensures ToMap(Add(r, e, kind)) == ToMap(r)[e.fd := (e.context, InterestOf(kind))]
  {
    MapOfPrefix(r, Add(r, e, kind), |r.handle|);
  }

  /** removeEvent keeps the vectors in step exactly when pointer and descriptor are both known or both unknown. */
  lemma RemoveKeepsAlignmentIff(r: Registry, e: Entry)
    requires Aligned(r) && DistinctFds(r) && Knows(r, e)
    ensures Aligned(Remove(r, e)) <==> (Registered(r, e.context) <==> Polled(r, e.fd))
  {
    var i, j := FindFd(r.handle, e.fd, 0), FindContext(r.contexts, e.context, 0);
    if j < |r.contexts| {
      assert r.handle[j].fd == e.fd;
      assert i == j;
    }
  }

  /** Where the entries that survive a removal come from. */
  lemma RemoveAt(r: Registry, e: Entry, k: nat)
    requires Aligned(r) && DistinctFds(r) && Knows(r, e)
    requires Registered(r, e.context) <==> Polled(r, e.fd)
    requires k == FindFd(r.handle, e.fd, 0)
    ensures var r' := Remove(r, e);
            && |r'.handle| == |r'.contexts| == (if k < |r.handle| then |r.handle| - 1 else |r.handle|)
            && (forall i :: 0 <= i < |r'.handle| ==> r'.handle[i] == r.handle[if i < k then i else i + 1])
            && (forall i :: 0 <= i < |r'.contexts| ==> r'.contexts[i] == r.contexts[if i < k then i else i + 1])
  {
    RemoveKeepsAlignmentIff(r, e);
    var j := FindContext(r.contexts, e.context, 0);
    if j < |r.contexts| {
      assert r.handle[j].fd == e.fd;
      assert j == k;
    }
  }

  lemma RemoveKeepsShape(r: Registry, e: Entry)
    requires Aligned(r) && DistinctFds(r) && Knows(r, e)
    requires Registered(r, e.context) <==> Polled(r, e.fd)
    ensures Aligned(Remove(r, e)) && DistinctFds(Remove(r, e))
    ensures !Registered(Remove(r, e), e.context) && !Polled(Remove(r, e), e.fd)
  {
    var k := FindFd(r.handle, e.fd, 0);
    RemoveAt(r, e, k);
    if k < |r.handle| {
      var j := FindContext(r.contexts, e.context, 0);
      assert r.handle[j].fd == e.fd;
      assert j == k;
    }
  }

  /** Entry k of r is gone in r', and the later ones moved down by one. */
  ghost predicate Shifted(r: Registry, r': Registry, k: nat) {
    && |r.handle| == |r.contexts| && k < |r.handle|
    && |r'.handle| == |r'.contexts| == |r.handle| - 1
    && (forall i :: 0 <= i < |r'.handle| ==> r'.handle[i] == r.handle[if i < k then i else i + 1])
    && (forall i :: 0 <= i < |r'.contexts| ==> r'.contexts[i] == r.contexts[if i < k then i else i + 1])
  }

  lemma {:induction false} MapOfShifted(r: Registry, r': Registry, k: nat, n: nat)
    requires Shifted(r, r', k) && k < n <= |r.handle|
    requires forall i :: 0 <= i < |r.handle| && i != k ==> r.handle[i].fd != r.handle[k].fd
    requires r.handle[k].fd !in MapOf(r, k)
    ensures MapOf(r', n - 1) == MapOf(r, n) - {r.handle[k].fd}
  {
    if n == k + 1 {
      MapOfPrefix(r, r', k);
    } else {
      MapOfShifted(r, r', k, n - 1);
      assert r'.handle[n - 2] == r.handle[n - 1] && r'.contexts[n - 2] == r.contexts[n - 1];
    }
  }

  lemma RemoveRefinesMap(r: Registry, e: Entry)
    requires Aligned(r) && DistinctFds(r) && Knows(r, e)
    requires Registered(r, e.context) <==> Polled(r, e.fd)
    ensures Aligned(Remove(r, e)) && DistinctFds(Remove(r, e))
    ensures !Registered(Remove(r, e), e.context) && !Polled(Remove(r, e), e.fd)
    ensures ToMap(Remove(r, e)) == ToMap(r) - {e.fd}
  {
    var k := FindFd(r.handle, e.fd, 0);
    RemoveKeepsShape(r, e);
    RemoveAt(r, e, k);
    MapLookup(r, |r.handle|, e.fd);
    assert k < |r.handle| ==> Shifted(r, Remove(r, e), k);
    if k < |r.handle| {
      MapLookup(r, k, e.fd);
      MapOfShifted(r, Remove(r, e), k, |r.handle|);
    } else {
      assert Remove(r, e) == r;
    }
  }

  /** Every other context stays registered. */
  lemma OtherStaysRegistered(r: Registry, e: Entry, c: Context)
    requires Registered(r, c) && c != e.context
    ensures Registered(Remove(r, e), c)
  {
    var k, j := FindContext(r.contexts, e.context, 0), FindContext(r.contexts, c, 0);
    ErasedAt(r.contexts, k);
    assert Remove(r, e).contexts[if j < k then j else j - 1].context == c;
  }

  /** And nothing new appears. */
  lemma RemovedOrigin(r: Registry, e: Entry, i: nat) returns (j: nat)
    requires Aligned(r) && DistinctFds(r) && Knows(r, e)
    requires Registered(r, e.context) <==> Polled(r, e.fd)
    requires i < |Remove(r, e).contexts| && i < |Remove(r, e).handle|
    ensures j < |r.contexts| && j < |r.handle|
    ensures Remove(r, e).contexts[i] == r.contexts[j] && Remove(r, e).handle[i] == r.handle[j]
  {
    var k := FindFd(r.handle, e.fd, 0);
    RemoveAt(r, e, k);
    j := if i < k then i else i + 1;
  }

  // Any sequence of updates.

  datatype Update =
    | Adding(e: Entry, kind: PollKind)
    | Modifying(e: Entry, kind: PollKind)
    | Removing(e: Entry)

  function Apply(r: Registry, u: Update): Registry
  {
    match u
    case Adding(e, kind) => Add(r, e, kind)
    case Modifying(e, kind) => Modify(r, e, kind)
    case Removing(e) => Remove(r, e)
  }

  /** The same update on a map; a modify of an unknown context adds it, as the source does. */
  function ApplyToMap(m: FdMap, u: Update): FdMap
  {
    match u
    case Adding(e, kind) => m[e.fd := (e.context, InterestOf(kind))]
    case Modifying(e, kind) => m[e.fd := (e.context, InterestOf(kind))]
    case Removing(e) => m - {e.fd}
  }

  /** What the callers respect: live pointers have live, distinct descriptors. */
  ghost predicate Legal(r: Registry, u: Update) {
    && Knows(r, u.e)
    && (u.Adding? ==> !Polled(r, u.e.fd) && !Registered(r, u.e.context))
    && (!u.Adding? ==> (Registered(r, u.e.context) <==> Polled(r, u.e.fd)))
  }

  ghost predicate LegalRun(r: Registry, us: seq<Update>)
    decreases us
  {
    us == [] || (Legal(r, us[0]) && LegalRun(Apply(r, us[0]), us[1..]))
  }

  ghost function RunUpdates(r: Registry, us: seq<Update>): Registry
    requires LegalRun(r, us)
    decreases us
  {
    if us == [] then r else RunUpdates(Apply(r, us[0]), us[1..])
  }

  ghost function RunOnMap(m: FdMap, us: seq<Update>): FdMap
    decreases us
  {
    if us == [] then m else RunOnMap(ApplyToMap(m, us[0]), us[1..])
  }

  lemma UpdateRefinesMap(r: Registry, u: Update)
    requires Aligned(r) && DistinctFds(r) && Legal(r, u)
    ensures Aligned(Apply(r, u)) && DistinctFds(Apply(r, u))
    ensures ToMap(Apply(r, u)) == ApplyToMap(ToMap(r), u)
  {
    match u
    case Adding(e, kind) => AddRefinesMap(r, e, kind);
    case Modifying(e, kind) =>
      RemoveRefinesMap(r, e);
      AddRefinesMap(Remove(r, e), e, kind);
      assert (ToMap(r) - {e.fd})[e.fd := (e.context, InterestOf(kind))]
             == ToMap(r)[e.fd := (e.context, InterestOf(kind))];
    case Removing(e) => RemoveRefinesMap(r, e);
  }

  /** Any sequence of updates leaves the two vectors in step and equal to the map the same updates build. */
  lemma {:induction false} RegistryRefinesMap(r: Registry, us: seq<Update>)
    requires Aligned(r) && DistinctFds(r) && LegalRun(r, us)
    ensures Aligned(RunUpdates(r, us)) && DistinctFds(RunUpdates(r, us))
    ensures ToMap(RunUpdates(r, us)) == RunOnMap(ToMap(r), us)
    decreases us
  {
    if us != [] {
      UpdateRefinesMap(r, us[0]);
      RegistryRefinesMap(Apply(r, us[0]), us[1..]);
    }
  }

  /**
   * What wait observes of the map: each ready descriptor is a key, and its event carries the context the map holds
   * for it, classified by what poll reported.
   */
  lemma WaitReadsMap(r: Registry, revents: seq<Revents>, i: nat)
    requires Aligned(r) && DistinctFds(r) && |revents| == |r.handle| && i < |r.handle| && revents[i].Ready()
    ensures var fd := r.handle[i].fd;
            && fd in ToMap(r) && ToMap(r)[fd].1 == r.handle[i].interest
            && Event(Some(Entry(ToMap(r)[fd].0, fd)), Classify(r, fd, revents[i])) in Collect(r, revents, |r.handle|)
  {
    AlignedIsSound(r);
    MapLookup(r, |r.handle|, r.handle[i].fd);
    ReadyIsCollected(r, revents, i);
  }

  /** And nothing else: the k-th event of wait is the map's entry for the k-th ready descriptor. */
  lemma WaitReadsOnlyMap(r: Registry, revents: seq<Revents>, k: nat)
    requires Aligned(r) && DistinctFds(r) && |revents| == |r.handle| && k < |Collect(r, revents, |r.handle|)|
    ensures k < |ReadyIndices(revents, |r.handle|)|
    ensures var i := ReadyIndices(revents, |r.handle|)[k];
            var fd := r.handle[i].fd;
            && fd in ToMap(r)
            && Collect(r, revents, |r.handle|)[k] == Event(Some(Entry(ToMap(r)[fd].0, fd)), Classify(r, fd, revents[i]))
  {
    AlignedIsSound(r);
    CollectsReady(r, revents, |r.handle|);
    var i := ReadyIndices(revents, |r.handle|)[k];
    MapLookup(r, |r.handle|, r.handle[i].fd);
    assert Collect(r, revents, |r.handle|)[k] == EventAt(r, revents, i);
  }

  /**
   * The listener object. Each method body is one section of its mutex, except Classification, which polls outside it.
   */
  class SocketMultiEventListener {
    var handle: seq<PollFd>
    var contexts: seq<Entry>
    var serverSocket: int

    ghost function Model(): Registry
      reads this
    {
      Registry(handle, contexts, serverSocket)
    }

    constructor ()
      ensures Model() == Registry([], [], 0)
    {
      handle, contexts, serverSocket := [], [], 0;
    }

    method AddEvent(e: Entry, kind: PollKind)
      modifies this
      ensures Model() == Add(old(Model()), e, kind)
    {
      var fd := PollFd(e.fd, InterestOf(kind));
      if kind.Accept? {
        serverSocket := e.fd;
      }
      handle := handle + [fd];
      contexts := contexts + [e];
    }

    method RemoveEvent(e: Entry)
      modifies this
      ensures Model() == Remove(old(Model()), e)
    {
      var i := 0;
      while i < |handle| && handle[i].fd != e.fd
        invariant i <= |handle| && Model() == old(Model())
        invariant FindFd(handle, e.fd, i) == FindFd(handle, e.fd, 0)
      {
        i := i + 1;
      }
      if i < |handle| {
        handle := handle[..i] + handle[i + 1..];
      }
      var j := 0;
      while j < |contexts| && contexts[j].context != e.context
        invariant j <= |contexts| && contexts == old(contexts) && serverSocket == old(serverSocket)
        invariant handle == Remove(old(Model()), e).handle
        invariant FindContext(contexts, e.context, j) == FindContext(contexts, e.context, 0)
      {
        j := j + 1;
      }
      if j < |contexts| {
        contexts := contexts[..j] + contexts[j + 1..];
      }
    }

    method ModifyEvent(e: Entry, kind: PollKind)
      modifies this
      ensures Model() == Modify(old(Model()), e, kind)
    {
      RemoveEvent(e);
      AddEvent(e, kind);
    }

    /** The copy taken under the mutex at the start of wait. */
    method Snapshot() returns (r: Registry)
      ensures r == Model()
    {
      r := Registry(handle, contexts, serverSocket);
    }

    /** The rest of wait, on the snapshot and the answer of poll. */
    static method Classification(r: Registry, revents: seq<Revents>) returns (events: seq<Event>)
      requires |revents| == |r.handle|
      ensures events == Collect(r, revents, |r.handle|)
    {
      events := [];
      for i := 0 to |r.handle|
        invariant events == Collect(r, revents, i)
      {
        if !revents[i].Ready() {
          continue;
        }
        var fd := r.handle[i].fd;
        var k := 0;
        while k < |r.contexts| && r.contexts[k].fd != fd
          invariant k <= |r.contexts|
          invariant FindEntry(r.contexts, fd, k) == FindEntry(r.contexts, fd, 0)
        {
          k := k + 1;
        }
        var entry := if k < |r.contexts| then Some(r.contexts[k]) else None;
        var kind := Undefined;
        if revents[i].Broken() {
          kind := Disconnected;
        } else if r.serverSocket == fd && revents[i].pollIn {
          kind := Accept;
        } else if revents[i].pollIn {
          kind := Read;
        } else if revents[i].pollOut {
          kind := Write;
        }
        events := events + [Event(entry, kind)];
      }
    }
  }
}
