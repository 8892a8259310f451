/**
 * The broadcast server as a step system: the monitor thread and any number of dropAll and write callers,
 * one step per section of the client mutex or of the listener's mutex, or per socket or handler call.
 */
module BroadcastProtocol {
  import opened Sockets
  import opened EventListener

  type ClientId = nat
  type ThreadId = nat

  /** Where the monitor thread stands; each `rest` is the undispatched part of the batch it holds. */
  datatype Monitor =
    | LoopTop
    | Entering                                     // saw _is_monitoring set, about to clear _pending_destruction
    | Cleared                                      // about to take the poll snapshot
    | Polling(snapshot: Registry)
    | Dispatching(rest: seq<Event>)
    | Accepted(id: ClientId, rest: seq<Event>)     // accept returned; the client is a local of the monitor
    | Registering(id: ClientId, rest: seq<Event>)  // added to the listener, not yet to the active list
    | Announcing(id: ClientId, rest: seq<Event>)   // active; onClientConnected still to run
    | Removed(id: ClientId, rest: seq<Event>)      // taken off the listener by the Disconnected arm
    | Erased(id: ClientId, rest: seq<Event>)       // this arm took it off the active list; fd still open
    | Closing(id: ClientId, rest: seq<Event>)      // fd closed; onClientDisconnected still to run
    | Exited                                       // left the loop
    | Joined                                       // close() has joined the thread and released the lists

  /** The client mutex, as far as a dropAll holds it: `all` swapped out, the first `removed` off the listener. */
  datatype Section = Unlocked | Detaching(t: ThreadId, all: seq<ClientId>, removed: nat)

  /** A dropAll past its critical section: clients still to be closed and reported. */
  datatype Notify = Notify(rest: seq<ClientId>, headClosed: bool)

  datatype Agent = MonitorArm | DropAll(t: ThreadId)

  /** The life of an accepted client. */
  datatype Place =
    | Local                    // about to be active
    | Active
    | Detached(agent: Agent)   // off the active list, fd open
    | Closed(agent: Agent)     // fd closed, callback pending
    | Departed                 // fd closed, disconnect callback done
    | Abandoned                // closed by close(), no callback

  datatype State = State(
    monitoring: bool,
    registry: Registry,
    active: seq<ClientId>,
    pending: seq<ClientId>,
    monitor: Monitor,
    section: Section,
    notifying: map<ThreadId, Notify>,
    writing: map<ThreadId, seq<ClientId>>,
    fds: map<ClientId, int>,
    place: map<ClientId, Place>,
    connects: multiset<ClientId>,
    disconnects: multiset<ClientId>,
    closes: multiset<ClientId>)

  /** The server right after open, listening on `serverFd`. */
  function Init(serverFd: int): State {
    State(true, Add(Registry([], [], 0), Entry(ServerContext, serverFd), Accept), [], [], LoopTop, Unlocked,
          map[], map[], map[], map[], multiset{}, multiset{}, multiset{})
  }

  datatype PollResult = Timeout | Failure | Readiness(revents: seq<Revents>)

  /** Steps of the monitor thread. */
  datatype MonitorStep =
    | Enter                               // test _is_monitoring
    | Clear                               // _pending_destruction.clear()
    | Snapshot                            // the copy at the start of wait
    | Poll(result: PollResult)
    | Ignore                              // the default arm
    | AcceptFails
    | AcceptClient(id: ClientId, fd: int)
    | Register                            // _listener.addEvent
    | Push                                // onto _active_clients
    | ConnectCallback
    | Unregister                          // _listener.removeEvent
    | Erase                               // from _active_clients
    | CloseClient
    | DisconnectCallback
    | EndBatch

  /** Steps of the threads that call dropAll, write and close. */
  datatype CallerStep =
    | Swap(t: ThreadId)                   // lock the mutex, swap _active_clients out
    | RemoveNext                          // _listener.removeEvent of the next one
    | HandOff                             // append to _pending_destruction, unlock
    | CloseNext(t: ThreadId)
    | CallbackNext(t: ThreadId)
    | ReturnFromDropAll(t: ThreadId)
    | SnapshotForWrite(t: ThreadId)
    | ReturnFromWrite(t: ThreadId)
    | StopMonitoring                      // close: _is_monitoring = false
    | CloseRest                           // close, after the join

  datatype Step = ByMonitor(m: MonitorStep) | ByCaller(c: CallerStep)

  function EntryOf(s: State, id: ClientId): Entry
    requires id in s.fds
  {
    Entry(ClientContext(id), s.fds[id])
  }

  predicate IsOpen(p: Place) { p.Local? || p.Active? || p.Detached? }

  /** The kernel never hands out a descriptor that is still open. */
  ghost predicate FdIsFree(s: State, fd: int) {
    fd != s.registry.serverSocket && forall id :: id in s.place && IsOpen(s.place[id]) && id in s.fds ==>
      s.fds[id] != fd
  }

  predicate HeadIs(m: Monitor, kind: SocketEventType) {
    m.Dispatching? && m.rest != [] && m.rest[0].entry.Some? && m.rest[0].kind == kind
  }

  predicate HeadIsClient(m: Monitor) {
    m.Dispatching? && m.rest != [] && m.rest[0].entry.Some? && m.rest[0].entry.value.context.ClientContext?
  }

  function HeadClient(m: Monitor): ClientId
    requires HeadIsClient(m)
  {
    m.rest[0].entry.value.context.id
  }

  ghost predicate Answers(snapshot: Registry, result: PollResult) {
    result.Readiness? ==> PollAnswer(snapshot, result.revents)
  }

  function AfterPoll(snapshot: Registry, result: PollResult): Monitor
    requires Answers(snapshot, result)
  {
    match result
    case Timeout => LoopTop
    case Failure => Exited
    case Readiness(revents) => Dispatching(Collect(snapshot, revents, |snapshot.handle|))
  }

  ghost predicate MonitorEnabled(s: State, m: MonitorStep) {
    match m
    case Enter => s.monitor.LoopTop?
    case Clear => s.monitor.Entering? && s.section.Unlocked?
    case Snapshot => s.monitor.Cleared?
    case Poll(result) => s.monitor.Polling? && Answers(s.monitor.snapshot, result)
    case Ignore => s.monitor.Dispatching? && s.monitor.rest != [] && s.monitor.rest[0].entry.Some?
                   && !s.monitor.rest[0].kind.Accept? && !s.monitor.rest[0].kind.Disconnected?
    case AcceptFails => HeadIs(s.monitor, SocketEventType.Accept)
    case AcceptClient(id, fd) => HeadIs(s.monitor, SocketEventType.Accept) && id !in s.fds && id !in s.place
                                 && FdIsFree(s, fd)
    case Register => s.monitor.Accepted? && s.monitor.id in s.fds
    case Push => s.monitor.Registering? && s.section.Unlocked?
    case ConnectCallback => s.monitor.Announcing?
    case Unregister => HeadIs(s.monitor, Disconnected) && HeadIsClient(s.monitor) && HeadClient(s.monitor) in s.fds
    case Erase => s.monitor.Removed? && s.section.Unlocked?
    case CloseClient => s.monitor.Erased?
    case DisconnectCallback => s.monitor.Closing?
    case EndBatch => s.monitor.Dispatching? && s.monitor.rest == []
  }

  function MonitorNext(s: State, m: MonitorStep): State
    requires MonitorEnabled(s, m)
  {
    match m
    case Enter => s.(monitor := if s.monitoring then Entering else Exited)
    case Clear => s.(pending := [], monitor := Cleared)
    case Snapshot => s.(monitor := Polling(s.registry))
    case Poll(result) => s.(monitor := AfterPoll(s.monitor.snapshot, result))
    case Ignore => s.(monitor := Dispatching(s.monitor.rest[1..]))
    case AcceptFails => s.(monitor := Dispatching(s.monitor.rest[1..]))
    case AcceptClient(id, fd) =>
      s.(monitor := Accepted(id, s.monitor.rest[1..]), fds := s.fds[id := fd], place := s.place[id := Local])
    case Register =>
      s.(monitor := Registering(s.monitor.id, s.monitor.rest),
        registry := Add(s.registry, EntryOf(s, s.monitor.id), Read))
    case Push =>
      s.(monitor := Announcing(s.monitor.id, s.monitor.rest), active := s.active + [s.monitor.id],
         place := s.place[s.monitor.id := Active])
    case ConnectCallback =>
      s.(monitor := Dispatching(s.monitor.rest), connects := s.connects + multiset{s.monitor.id})
    case Unregister =>
      var id := HeadClient(s.monitor);
      s.(monitor := Removed(id, s.monitor.rest[1..]), registry := Remove(s.registry, EntryOf(s, id)))
    case Erase =>
      var id := s.monitor.id;
      if id in s.active then
        s.(monitor := Erased(id, s.monitor.rest), active := Without(s.active, id),
          place := s.place[id := Detached(MonitorArm)])
      else
        s.(monitor := Dispatching(s.monitor.rest))
    case CloseClient =>
      s.(monitor := Closing(s.monitor.id, s.monitor.rest), closes := s.closes + multiset{s.monitor.id},
         place := s.place[s.monitor.id := Closed(MonitorArm)])
    case DisconnectCallback =>
      s.(monitor := Dispatching(s.monitor.rest), disconnects := s.disconnects + multiset{s.monitor.id},
         place := s.place[s.monitor.id := Departed])
    case EndBatch => s.(monitor := LoopTop)
  }

  ghost predicate CallerEnabled(s: State, c: CallerStep) {
    match c
    case Swap(t) => s.section.Unlocked? && t !in s.notifying
    case RemoveNext => s.section.Detaching? && s.section.removed < |s.section.all|
                       && s.section.all[s.section.removed] in s.fds
    case HandOff => s.section.Detaching? && s.section.removed == |s.section.all|
    case CloseNext(t) => t in s.notifying && s.notifying[t].rest != [] && !s.notifying[t].headClosed
    case CallbackNext(t) => t in s.notifying && s.notifying[t].rest != [] && s.notifying[t].headClosed
    case ReturnFromDropAll(t) => t in s.notifying && s.notifying[t].rest == []
    case SnapshotForWrite(t) => s.section.Unlocked? && t !in s.writing
    case ReturnFromWrite(t) => t in s.writing
    case StopMonitoring => true
    case CloseRest => !s.monitoring && s.monitor.Exited? && s.section.Unlocked? && s.notifying == map[]
  }

  /** The clients of a list move to a place. */
  function Relocate(place: map<ClientId, Place>, ids: seq<ClientId>, to: Place): map<ClientId, Place> {
    map id | id in place :: if id in ids then to else place[id]
  }

  function CallerNext(s: State, c: CallerStep): State
    requires CallerEnabled(s, c)
  {
    match c
    case Swap(t) =>
      s.(section := Detaching(t, s.active, 0), active := [], place := Relocate(s.place, s.active, Detached(DropAll(t))))
    case RemoveNext =>
      var id := s.section.all[s.section.removed];
      s.(section := s.section.(removed := s.section.removed + 1), registry := Remove(s.registry, EntryOf(s, id)))
    case HandOff =>
      s.(section := Unlocked, pending := s.pending + s.section.all,
         notifying := s.notifying[s.section.t := Notify(s.section.all, false)])
    case CloseNext(t) =>
      var id := s.notifying[t].rest[0];
      s.(notifying := s.notifying[t := s.notifying[t].(headClosed := true)], closes := s.closes + multiset{id},
         place := s.place[id := Closed(DropAll(t))])
    case CallbackNext(t) =>
      var id := s.notifying[t].rest[0];
      s.(notifying := s.notifying[t := Notify(s.notifying[t].rest[1..], false)],
        disconnects := s.disconnects + multiset{id},
         place := s.place[id := Departed])
    case ReturnFromDropAll(t) => s.(notifying := s.notifying - {t})
    case SnapshotForWrite(t) => s.(writing := s.writing[t := s.active])
    case ReturnFromWrite(t) => s.(writing := s.writing - {t})
    case StopMonitoring => s.(monitoring := false)
    case CloseRest =>
      s.(monitor := Joined, active := [], pending := [], closes := s.closes + multiset(s.active),
         place := Relocate(s.place, s.active, Abandoned))
  }

  ghost predicate Enabled(s: State, e: Step) {
    match e
    case ByMonitor(m) => MonitorEnabled(s, m)
    case ByCaller(c) => CallerEnabled(s, c)
  }

  function Next(s: State, e: Step): State
    requires Enabled(s, e)
  {
    match e
    case ByMonitor(m) => MonitorNext(s, m)
    case ByCaller(c) => CallerNext(s, c)
  }
}
