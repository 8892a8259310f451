/** Theorems about every run of the broadcast server, from open to close. */
module BroadcastRuns {
  import opened EventListener
  import opened BroadcastProtocol
  import opened BroadcastHolders
  import opened BroadcastLists
  import opened BroadcastSafety

  /** The steps can be taken one after the other from s. */
  ghost predicate CanRun(s: State, steps: seq<Step>)
    decreases steps
  {
    steps == [] || (Enabled(s, steps[0]) && CanRun(Next(s, steps[0]), steps[1..]))
  }

  ghost function After(s: State, steps: seq<Step>): State
    requires CanRun(s, steps)
    decreases steps
  {
    if steps == [] then s else After(Next(s, steps[0]), steps[1..])
  }

  lemma {:induction false} RunKeepsInv(s: State, steps: seq<Step>)
    requires Inv(s) && CanRun(s, steps)
    ensures Inv(After(s, steps))
    decreases steps
  {
    if steps != [] {
      StepKeepsInv(s, steps[0]);
      RunKeepsInv(Next(s, steps[0]), steps[1..]);
    }
  }

  /** Every state of every session satisfies the invariant. */
  lemma SessionKeepsInv(serverFd: int, steps: seq<Step>)
    requires CanRun(Init(serverFd), steps)
    ensures Inv(After(Init(serverFd), steps))
  {
    InitHolds(serverFd);
    RunKeepsInv(Init(serverFd), steps);
  }

  // Reclamation safety.

  /** Client `id` is behind a raw pointer the monitor holds: in its snapshot, its batch, or the Disconnected arm. */
  ghost predicate Reaches(m: Monitor, id: ClientId) {
    || (m.Polling? && exists k :: 0 <= k < |m.snapshot.contexts| && m.snapshot.contexts[k].context == ClientContext(id))
    || (HoldsBatch(m) && exists k ::
       0 <= k < |m.rest| && m.rest[k].entry.Some? && m.rest[k].entry.value.context == ClientContext(id))
    || (m.Removed? && m.id == id)
  }

  /**
   * No owner is left: neither a list, nor a dropAll, nor a write snapshot, nor a shared pointer local to the monitor.
   */
  ghost predicate Freed(s: State, id: ClientId) {
    && id in s.place && !Owned(s, id)
    && (forall t :: t in s.notifying ==> id !in s.notifying[t].rest)
    && (forall t :: t in s.writing ==> id !in s.writing[t])
    && !((s.monitor.Accepted? || s.monitor.Registering? || s.monitor.Erased? || s.monitor.Closing?)
       && s.monitor.id == id)
  }

  /**
   * In every interleaving, whatever the monitor can still dereference is owned by the active list, the pending
   * list or a dropAll inside its critical section, so it is never freed.
   */
  lemma ReclamationSafety(serverFd: int, steps: seq<Step>, id: ClientId)
    requires CanRun(Init(serverFd), steps)
    ensures var s := After(Init(serverFd), steps);
            Reaches(s.monitor, id) ==> Owned(s, id) && !Freed(s, id)
  {
    SessionKeepsInv(serverFd, steps);
    var s := After(Init(serverFd), steps);
    if HoldsBatch(s.monitor) {
      forall k | 0 <= k < |s.monitor.rest|
        ensures EventIsSafe(s, s.monitor.rest[k])
      {
      }
    }
  }

  /** wait never yields a null context, and the accept context is never taken for a disconnected client. */
  lemma NoNullContext(serverFd: int, steps: seq<Step>)
    requires CanRun(Init(serverFd), steps) && HoldsBatch(After(Init(serverFd), steps).monitor)
    ensures var rest := After(Init(serverFd), steps).monitor.rest;
            && (forall k :: 0 <= k < |rest| ==> rest[k].entry.Some?)
            && (forall k :: 0 <= k < |rest| && rest[k].kind.Disconnected? ==>
               rest[k].entry.value.context.ClientContext?)
            && (forall k, l :: 0 <= k < l < |rest| ==> rest[k].entry != rest[l].entry)
  {
    SessionKeepsInv(serverFd, steps);
    var s := After(Init(serverFd), steps);
    forall k | 0 <= k < |s.monitor.rest|
      ensures EventIsSafe(s, s.monitor.rest[k])
    {
    }
  }

  // List agreement.

  /** The monitor is in the Accept or the Disconnected window, where one client is in transit. */
  predicate InTransit(m: Monitor) { m.Registering? || m.Removed? }

  lemma PendingIsNowhereElse(s: State, id: ClientId)
    requires Inv(s) && !s.monitor.Joined? && id in s.pending
    ensures id !in s.active && id !in Listed(s) && !Registered(s.registry, ClientContext(id))
  {
    assert PendingIsApart(s, id);
    var j := FindContext(s.registry.contexts, ClientContext(id), 0);
    if 0 < j < |s.registry.contexts| { RegisteredAreOpen(s, j); }
    assert forall k :: 0 <= k < |s.active| ==> s.active[k] != id by {
      assert forall k :: 0 <= k < |s.active| ==> At(s, s.active[k], Active);
    }
  }

  /**
   * The registered contexts are the accept context and then the listed clients, in order; outside the windows
   * and outside dropAll's critical section those are exactly the active clients. Pending clients are apart from both.
   */
  lemma ListAgreement(serverFd: int, steps: seq<Step>)
    requires CanRun(Init(serverFd), steps) && !After(Init(serverFd), steps).monitor.Joined?
    ensures var s := After(Init(serverFd), steps);
            && (s.section.Detaching? ==> s.section.removed <= |s.section.all|)
            && Contexts(s, s.registry.contexts, Expected(s))
            && (s.section.Unlocked? && !InTransit(s.monitor) ==> Contexts(s, s.registry.contexts, s.active))
            && (forall id :: id in s.pending ==>
               id !in s.active && id !in Listed(s) && !Registered(s.registry, ClientContext(id)))
  {
    SessionKeepsInv(serverFd, steps);
    var s := After(Init(serverFd), steps);
    if s.section.Unlocked? && !InTransit(s.monitor) { assert Expected(s) == s.active; }
    forall id | id in s.pending
      ensures id !in s.active && id !in Listed(s) && !Registered(s.registry, ClientContext(id))
    {
      PendingIsNowhereElse(s, id);
    }
  }
}
