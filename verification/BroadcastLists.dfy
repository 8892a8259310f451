/** The listener's registered contexts follow the client lists at every step. */
module BroadcastLists {
  import opened Sockets
  import opened EventListener
  import opened BroadcastProtocol
  import opened BroadcastHolders

  // The listener's contexts against the client lists.

  /** The clients that are registered according to the client lists: those not yet detached, then the one arriving. */
  function Listed(s: State): seq<ClientId>
    requires s.section.Detaching? ==> s.section.removed <= |s.section.all|
  {
    (if s.section.Detaching? then s.section.all[s.section.removed..] else s.active)
    + if s.monitor.Registering? then [s.monitor.id] else []
  }

  /** The same without the one client that the Disconnected arm has already taken off the listener. */
  function Expected(s: State): seq<ClientId>
    requires s.section.Detaching? ==> s.section.removed <= |s.section.all|
  {
    if s.monitor.Removed? then Without(Listed(s), s.monitor.id) else Listed(s)
  }

  /** The context vector is the accept context followed by these clients, in this order. */
  ghost predicate Contexts(s: State, contexts: seq<Entry>, ids: seq<ClientId>) {
    && |contexts| == |ids| + 1
    && contexts[0] == Entry(ServerContext, s.registry.serverSocket)
    && (forall i :: 0 <= i < |ids| ==> ids[i] in s.fds)
    && (forall i :: 0 <= i < |ids| ==> contexts[i + 1] == EntryOf(s, ids[i]))
  }

  ghost predicate ListsAgree(s: State)
    requires SectionAgrees(s)
  {
    Contexts(s, s.registry.contexts, Expected(s))
  }

  lemma ListedAreOpen(s: State)
    requires HoldersAgree(s)
    ensures NoDup(Listed(s))
    ensures forall id :: id in Listed(s) ==> id in s.fds && IsOpen(s.place[id])
  {
    var front := if s.section.Detaching? then s.section.all[s.section.removed..] else s.active;
    forall i | 0 <= i < |front|
      ensures front[i] in s.place && IsOpen(s.place[front[i]]) && !s.place[front[i]].Local?
    {
      if s.section.Detaching? {
        assert At(s, s.section.all[s.section.removed + i], Detached(DropAll(s.section.t)));
      } else {
        assert At(s, s.active[i], Active);
      }
    }
  }

  /** removeEvent of a client erases it from the context vector, wherever it stands. */
  lemma ContextsErased(s: State, contexts: seq<Entry>, ids: seq<ClientId>, id: ClientId)
    requires Contexts(s, contexts, ids) && NoDup(ids)
    ensures Contexts(s, EraseAt(contexts, FindContext(contexts, ClientContext(id), 0)), Without(ids, id))
    ensures FindContext(contexts, ClientContext(id), 0) == IndexOf(ids, id) + 1
  {
    var k := IndexOf(ids, id);
    var j := FindContext(contexts, ClientContext(id), 0);
    if k < |ids| {
      assert contexts[k + 1].context == ClientContext(id);
      assert forall i :: 1 <= i <= k ==> contexts[i] == EntryOf(s, ids[i - 1]);
    } else {
      assert forall i :: 1 <= i < |contexts| ==> contexts[i] == EntryOf(s, ids[i - 1]);
    }
    assert j == k + 1;
    ErasedAt(contexts, j);
    ErasedAt(ids, k);
    var w := Without(ids, id);
    forall i | 0 <= i < |w|
      ensures w[i] in s.fds && EraseAt(contexts, j)[i + 1] == EntryOf(s, w[i])
    {
      assert w[i] == ids[if i < k then i else i + 1];
    }
  }

  lemma ContextsStay(s: State, s': State, contexts: seq<Entry>, ids: seq<ClientId>)
    requires Contexts(s, contexts, ids) && FdsGrow(s, s')
    ensures Contexts(s', contexts, ids)
  {
    forall i | 0 <= i < |ids|
      ensures ids[i] in s'.fds && contexts[i + 1] == EntryOf(s', ids[i])
    {
      assert contexts[i + 1] == EntryOf(s, ids[i]);
    }
  }

  /** Erasing the head and erasing another client commute. */
  lemma WithoutTail(ids: seq<ClientId>, id: ClientId)
    requires NoDup(ids) && ids != []
    ensures Without(ids, id) == if id == ids[0] then ids[1..] else [ids[0]] + Without(ids[1..], id)
    ensures id == ids[0] ==> Without(ids[1..], id) == ids[1..]
  {
    var k := IndexOf(ids, id);
    var m := IndexOf(ids[1..], id);
    if m < |ids[1..]| { assert ids[m + 1] == id; }
    if id != ids[0] {
      if k < |ids| { assert ids[1..][k - 1] == id; }
      assert k == m + 1;
    }
  }

  lemma RemoveNextKeepsLists(s: State)
    requires HoldersAgree(s) && ListsAgree(s) && CallerEnabled(s, RemoveNext)
    ensures SectionAgrees(CallerNext(s, RemoveNext)) && ListsAgree(CallerNext(s, RemoveNext))
  {
    var s' := CallerNext(s, RemoveNext);
    var x := s.section.all[s.section.removed];
    var listed := Listed(s);
    ListedAreOpen(s);
    assert listed[0] == x && listed != [];
    assert Listed(s') == listed[1..];
    assert NoDup(Expected(s)) by { if s.monitor.Removed? { WithoutMembers(listed, s.monitor.id); } }
    ContextsErased(s, s.registry.contexts, Expected(s), x);
    if s.monitor.Removed? {
      WithoutTail(listed, s.monitor.id);
      if x == s.monitor.id {
        WithoutMembers(listed[1..], x);
      } else {
        WithoutTail(Expected(s), x);
      }
    } else {
      WithoutTail(listed, x);
    }
    assert Without(Expected(s), x) == Expected(s');
    ContextsStay(s, s', s'.registry.contexts, Expected(s'));
  }

  lemma RegisterKeepsLists(s: State)
    requires HoldersAgree(s) && ListsAgree(s) && MonitorEnabled(s, Register)
    ensures SectionAgrees(MonitorNext(s, Register)) && ListsAgree(MonitorNext(s, Register))
  {
    var s' := MonitorNext(s, Register);
    assert Expected(s') == Expected(s) + [s.monitor.id];
  }

  lemma UnregisterKeepsLists(s: State)
    requires HoldersAgree(s) && ListsAgree(s) && MonitorEnabled(s, Unregister)
    ensures SectionAgrees(MonitorNext(s, Unregister)) && ListsAgree(MonitorNext(s, Unregister))
  {
    var s' := MonitorNext(s, Unregister);
    ListedAreOpen(s);
    assert Listed(s') == Listed(s) == Expected(s);
    ContextsErased(s, s.registry.contexts, Listed(s), HeadClient(s.monitor));
    ContextsStay(s, s', s'.registry.contexts, Expected(s'));
  }

  lemma EraseKeepsLists(s: State)
    requires HoldersAgree(s) && ListsAgree(s) && MonitorEnabled(s, Erase)
    ensures SectionAgrees(MonitorNext(s, Erase)) && ListsAgree(MonitorNext(s, Erase))
  {
    var s' := MonitorNext(s, Erase);
    WithoutMembers(s.active, s.monitor.id);
    assert Listed(s) == s.active;
    assert Expected(s') == Expected(s);
    ContextsStay(s, s', s'.registry.contexts, Expected(s'));
  }

  lemma PushKeepsLists(s: State)
    requires HoldersAgree(s) && ListsAgree(s) && MonitorEnabled(s, Push)
    ensures SectionAgrees(MonitorNext(s, Push)) && ListsAgree(MonitorNext(s, Push))
  {
    var s' := MonitorNext(s, Push);
    assert Expected(s') == Expected(s);
    ContextsStay(s, s', s'.registry.contexts, Expected(s'));
  }

  lemma SameListsAgree(s: State, s': State)
    requires SectionAgrees(s) && ListsAgree(s) && FdsGrow(s, s') && SectionAgrees(s')
    requires s'.section == s.section && s'.active == s.active && s'.registry == s.registry
    requires !s.monitor.Registering? && !s'.monitor.Registering? && !s.monitor.Removed? && !s'.monitor.Removed?
    ensures ListsAgree(s')
  {
    ContextsStay(s, s', s.registry.contexts, Expected(s));
  }

  lemma MonitorKeepsLists(s: State, m: MonitorStep)
    requires HoldersAgree(s) && ListsAgree(s) && MonitorEnabled(s, m)
    requires m.Unregister? ==> !s.place[HeadClient(s.monitor)].Local?
    ensures SectionAgrees(MonitorNext(s, m)) && ListsAgree(MonitorNext(s, m))
  {
    MonitorKeepsHolders(s, m);
    match m
    case Register => RegisterKeepsLists(s);
    case Unregister => UnregisterKeepsLists(s);
    case Erase => EraseKeepsLists(s);
    case Push => PushKeepsLists(s);
    case AcceptClient(_, _) => SameListsAgree(s, MonitorNext(s, m));
    case Enter | Clear | Snapshot | Poll(_) | Ignore | AcceptFails
       | ConnectCallback | CloseClient | DisconnectCallback | EndBatch =>
      SameListsAgree(s, MonitorNext(s, m));
  }

  lemma CallerKeepsLists(s: State, c: CallerStep)
    requires HoldersAgree(s) && ListsAgree(s) && CallerEnabled(s, c) && !c.CloseRest?
    ensures SectionAgrees(CallerNext(s, c)) && ListsAgree(CallerNext(s, c))
  {
    CallerKeepsHolders(s, c);
    match c
    case RemoveNext => RemoveNextKeepsLists(s);
    case Swap(_) =>
      assert Listed(CallerNext(s, c)) == Listed(s);
      ContextsStay(s, CallerNext(s, c), s.registry.contexts, Expected(s));
    case HandOff =>
      assert Listed(CallerNext(s, c)) == Listed(s);
      ContextsStay(s, CallerNext(s, c), s.registry.contexts, Expected(s));
    case CloseNext(_) => ContextsStay(s, CallerNext(s, c), s.registry.contexts, Expected(s));
    case CallbackNext(_) => ContextsStay(s, CallerNext(s, c), s.registry.contexts, Expected(s));
    case ReturnFromDropAll(_) | SnapshotForWrite(_) | ReturnFromWrite(_) | StopMonitoring =>
      ContextsStay(s, CallerNext(s, c), s.registry.contexts, Expected(s));
  }

  // The poll entries.

  lemma RegisteredAreOpen(s: State, i: nat)
    requires HoldersAgree(s) && ListsAgree(s) && 0 < i < |s.registry.contexts|
    ensures s.registry.contexts[i].context.ClientContext?
    ensures var id := s.registry.contexts[i].context.id;
            && id in Listed(s) && id in s.place && id in s.fds && IsOpen(s.place[id])
            && s.registry.contexts[i] == EntryOf(s, id)
            && (s.monitor.Removed? ==> id != s.monitor.id)
  {
    ListedAreOpen(s);
    if s.monitor.Removed? { WithoutMembers(Listed(s), s.monitor.id); }
    assert s.registry.contexts[i] == EntryOf(s, Expected(s)[i - 1]);
    assert Expected(s)[i - 1] in Listed(s);
  }

  lemma KnowsClient(s: State, id: ClientId)
    requires HoldersAgree(s) && ListsAgree(s) && id in s.fds
    ensures Knows(s.registry, EntryOf(s, id))
  {
    forall i | 0 <= i < |s.registry.contexts| && s.registry.contexts[i].context == ClientContext(id)
      ensures s.registry.contexts[i].fd == s.fds[id]
    {
      RegisteredAreOpen(s, i);
    }
  }

  /** While a client is only a local of the monitor, the registered ones are not. */
  lemma NotLocal(s: State, i: nat)
    requires HoldersAgree(s) && ListsAgree(s) && 0 < i < |s.registry.contexts| && s.monitor.Accepted?
    ensures s.registry.contexts[i].context.ClientContext?
    ensures s.registry.contexts[i].context.id in s.place && !s.place[s.registry.contexts[i].context.id].Local?
  {
    RegisteredAreOpen(s, i);
    var id := s.registry.contexts[i].context.id;
    if s.section.Detaching? {
      var k :| 0 <= k < |Listed(s)| && Listed(s)[k] == id;
      assert At(s, s.section.all[s.section.removed + k], Detached(DropAll(s.section.t)));
    } else {
      var k :| 0 <= k < |s.active| && s.active[k] == id;
      assert At(s, s.active[k], Active);
    }
  }

  lemma MonitorKeepsSound(s: State, m: MonitorStep)
    requires HoldersAgree(s) && ListsAgree(s) && OpenFdsDiffer(s) && Sound(s.registry) && MonitorEnabled(s, m)
    ensures Sound(MonitorNext(s, m).registry)
  {
    match m
    case Register =>
      var e := EntryOf(s, s.monitor.id);
      forall i | 0 <= i < |s.registry.contexts|
        ensures s.registry.contexts[i].fd != e.fd && s.registry.contexts[i].context != e.context
      {
        if i > 0 {
          RegisteredAreOpen(s, i);
          assert s.registry.contexts[i].context.id != s.monitor.id by {
            assert !s.place[s.registry.contexts[i].context.id].Local? by { NotLocal(s, i); }
          }
        }
      }
      AddKeepsSound(s.registry, e, Read);
    case Unregister =>
      KnowsClient(s, HeadClient(s.monitor));
      RemoveKeepsSound(s.registry, EntryOf(s, HeadClient(s.monitor)));
    case Enter | Clear | Snapshot | Poll(_) | Ignore | AcceptFails | AcceptClient(_, _) | Push | ConnectCallback
       | Erase | CloseClient | DisconnectCallback | EndBatch =>
  }

  lemma CallerKeepsSound(s: State, c: CallerStep)
    requires HoldersAgree(s) && ListsAgree(s) && Sound(s.registry) && CallerEnabled(s, c)
    ensures Sound(CallerNext(s, c).registry)
  {
    match c
    case RemoveNext =>
      KnowsClient(s, s.section.all[s.section.removed]);
      RemoveKeepsSound(s.registry, EntryOf(s, s.section.all[s.section.removed]));
    case Swap(_) | HandOff | CloseNext(_) | CallbackNext(_) | ReturnFromDropAll(_) | SnapshotForWrite(_)
       | ReturnFromWrite(_) | StopMonitoring | CloseRest =>
  }
}
