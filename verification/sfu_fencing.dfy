/** The SFU manager under interleaving: every await is a step boundary, and a worker may die
    between any two steps. */
module SfuFencing {
  import opened Wrappers
  import opened SessionHash
  import opened MapCount
  import opened SfuState
  import opened SfuRegistry

  type CallId = nat

  /** A call that is suspended at an await, with what it read before it. `process` is the
      generation at which the worker process it talks to was started. */
  datatype Call =
    | AwaitRouter(sid: SessionId, conn: ConnectionId, user: UserId, dir: Direction, worker: nat, process: nat)
    | AwaitTransport(transport: Transport, process: nat)
    | AwaitProduce(producer: Producer)
    | AwaitConsume(consumer: Consumer)
    | AwaitSpawn(worker: nat, epoch: nat, affected: set<SessionId>)
    | AwaitRouters(worker: nat, epoch: nat, left: set<SessionId>)
    | AwaitTeardown(conn: ConnectionId, todo: set<TransportId>, picked: Option<(TransportId, Transport)>)

  /** `processes[w]` is the generation at which the process behind worker `w` was started,
      `routerOn` and `madeOn` say on which process a session's router and a transport were made. */
  datatype World = World(
    s: State,
    calls: map<CallId, Call>,
    processes: seq<nat>,
    routerOn: map<SessionId, nat>,
    madeOn: map<TransportId, nat>)

  datatype Event =
    | BeginTransport(id: CallId, sid: SessionId, conn: ConnectionId, user: UserId, dir: Direction, routerClosed: bool)
    | RouterDone(id: CallId, ok: bool)
    | TransportDone(id: CallId, transportMade: Option<TransportId>)
    | Connect(tid: TransportId, closed: bool)
    | StartProduce(id: CallId, sid: SessionId, tid: TransportId, closed: bool, kind: Kind, track: TrackType,
                   conn: ConnectionId, user: UserId)
    | ProduceDone(id: CallId, producerMade: Option<ProducerId>)
    | StartConsume(id: CallId, sid: SessionId, tid: TransportId, pid: ProducerId, answer: ConsumeAnswer,
                   conn: ConnectionId, user: UserId)
    | ConsumeDone(id: CallId, consumerMade: Option<ConsumerId>, current: bool)
    | Died(id: CallId, worker: nat)
    | Spawned(id: CallId, ok: bool)
    | SessionRouted(id: CallId, sid: SessionId, ok: bool)
    | RecoveryDone(id: CallId)
    | DropTransport(tid: TransportId)
    | DropProducer(pid: ProducerId)
    | StartTeardown(id: CallId, conn: ConnectionId)
    | PickTransport(id: CallId, tid: TransportId)
    | TeardownProducer(id: CallId, pid: ProducerId)
    | FinishTransport(id: CallId)
    | TeardownDone(id: CallId)

  function Start(n: nat): World {
    World(Initial(n), map[], seq(n, _ => 1), map[], map[])
  }

  /** The consumers on a transport leave, then the transport itself; the gauge is lowered even if
      the transport is no longer registered. */
  function FinishTransportOf(s: State, tid: TransportId, t: Transport): State {
    var on := ConsumerOn({tid});
    s.(consumers := Without(s.consumers, on),
       consumerGauge := DropConsumers(s.consumerGauge, s.consumers, on),
       transports := s.transports - {tid},
       transportGauge := BumpTransport(s.transportGauge, t.direction, -1),
       sessions := map sid | sid in s.sessions ::
         var x := s.sessions[sid];
         x.(transports := if sid == t.sessionId then x.transports - {tid} else x.transports,
            consumers := x.consumers - KeysWhere(s.consumers, on) * KeysWhere(s.consumers, ConsumerIn(sid))))
  }

  /** What mediasoup, Redis and the event loop may do next. Ids are fresh; a call resumes once.
      The bounds on worker indices hold in every reachable world. */
  ghost predicate Enabled(w: World, e: Event) {
    match e
    case BeginTransport(id, _, _, _, _, _) => id !in w.calls && |w.processes| == |w.s.workers|
    case RouterDone(id, _) => id in w.calls && w.calls[id].AwaitRouter? && w.calls[id].worker < |w.s.workers|
    case TransportDone(id, made) =>
      id in w.calls && w.calls[id].AwaitTransport? && (made.Some? ==> FreshTransport(w.s, made.value))
    case Connect(_, _) => true
    case StartProduce(id, _, _, _, _, _, _, _) => id !in w.calls
    case ProduceDone(id, made) =>
      id in w.calls && w.calls[id].AwaitProduce? && (made.Some? ==> made.value !in w.s.producers)
    case StartConsume(id, _, _, _, _, _, _) => id !in w.calls
    case ConsumeDone(id, made, _) =>
      id in w.calls && w.calls[id].AwaitConsume? && (made.Some? ==> made.value !in w.s.consumers)
    case Died(id, worker) => id !in w.calls && worker < |w.s.workers|
    case Spawned(id, _) =>
      id in w.calls && w.calls[id].AwaitSpawn? && w.calls[id].worker < |w.s.workers| == |w.processes|
    case SessionRouted(id, sid, _) => id in w.calls && w.calls[id].AwaitRouters? && sid in w.calls[id].left
    case RecoveryDone(id) =>
      id in w.calls && w.calls[id].AwaitRouters? && w.calls[id].left == {} && w.calls[id].worker < |w.s.workers|
    case DropTransport(_) => true
    case DropProducer(_) => true
    case StartTeardown(id, _) => id !in w.calls
    case PickTransport(id, tid) =>
      id in w.calls && w.calls[id].AwaitTeardown? && w.calls[id].picked == None && tid in w.calls[id].todo
    case TeardownProducer(id, pid) =>
      id in w.calls && w.calls[id].AwaitTeardown? && w.calls[id].picked.Some?
      && pid in w.s.producers && w.s.producers[pid].transportId == w.calls[id].picked.value.0
    case FinishTransport(id) => id in w.calls && w.calls[id].AwaitTeardown? && w.calls[id].picked.Some?
    case TeardownDone(id) => id in w.calls && w.calls[id].AwaitTeardown? && w.calls[id].picked == None && w.calls[id].todo == {}
  }

  function Next(w: World, e: Event): World
    requires Enabled(w, e)
  {
    var s := w.s;
    match e
    case BeginTransport(id, sid, conn, user, dir, routerClosed) =>
      (match PlanRouter(s, sid, routerClosed)
       case Err(_) => w
       case Ok(Reuse(info)) =>
         w.(calls := w.calls[id := AwaitTransport(Transport(sid, info.worker, info.generation, conn, user, dir),
                                                  if sid in w.routerOn then w.routerOn[sid] else 0)])
       case Ok(Create(worker)) => w.(calls := w.calls[id := AwaitRouter(sid, conn, user, dir, worker, w.processes[worker])]))
    case RouterDone(id, ok) =>
      var c := w.calls[id];
      if !ok then w.(calls := w.calls - {id}) else
      var t := Transport(c.sid, c.worker, s.workers[c.worker].generation, c.conn, c.user, c.dir);
      w.(s := InstallRouter(s, c.sid, c.worker),
         calls := w.calls[id := AwaitTransport(t, c.process)],
         routerOn := w.routerOn[c.sid := c.process])
    case TransportDone(id, made) =>
      var c := w.calls[id];
      if made == None then w.(calls := w.calls - {id}) else
      w.(s := InstallTransport(s, made.value, c.transport),
         calls := w.calls - {id},
         madeOn := w.madeOn[made.value := c.process])
    case Connect(_, _) => w
    case StartProduce(id, sid, tid, closed, kind, track, conn, user) =>
      var b := BeginProduce(s, sid, tid, closed, user, track);
      (match b.result
       case Err(_) => w.(s := b.state)
       case Ok(t) =>
         w.(s := b.state,
            calls := w.calls[id := AwaitProduce(Producer(sid, tid, t.worker, t.generation, track, kind, conn, user))]))
    case ProduceDone(id, made) =>
      w.(s := if made.Some? then InstallProducer(s, made.value, w.calls[id].producer) else s, calls := w.calls - {id})
    case StartConsume(id, sid, tid, pid, answer, conn, user) =>
      (match BeginConsume(s, sid, tid, pid, answer)
       case Err(_) => w
       case Ok(t) =>
         w.(calls := w.calls[id := AwaitConsume(
              Consumer(sid, tid, pid, t.worker, t.generation, s.producers[pid].trackType, conn, user))]))
    case ConsumeDone(id, made, current) =>
      w.(s := if made.Some? then InstallConsumer(s, made.value, w.calls[id].consumer, current) else s,
         calls := w.calls - {id})
    case Died(id, worker) =>
      w.(s := CrashMark(s, worker),
         calls := w.calls[id := AwaitSpawn(worker, s.workers[worker].generation + 1, s.workers[worker].assignedSessions)])
    case Spawned(id, ok) =>
      var c := w.calls[id];
      if ok then w.(calls := w.calls[id := AwaitRouters(c.worker, c.epoch, c.affected)],
                    processes := w.processes[c.worker := c.epoch])
      else w.(s := SetWorkerStatus(s, c.worker, WorkerDead), calls := w.calls - {id})
    case SessionRouted(id, sid, ok) =>
      var c := w.calls[id];
      var w' := w.(calls := w.calls[id := c.(left := c.left - {sid})]);
      if ok then w'.(s := RecoverSession(s, sid, c.worker, c.epoch), routerOn := w.routerOn[sid := c.epoch]) else w'
    case RecoveryDone(id) =>
      w.(s := SetWorkerStatus(s, w.calls[id].worker, WorkerActive), calls := w.calls - {id})
    case DropTransport(tid) => w.(s := CloseTransport(s, tid).0)
    case DropProducer(pid) => w.(s := CloseProducer(s, pid))
    case StartTeardown(id, conn) =>
      if Get(s.connections, conn) == {} then w.(s := s.(connections := s.connections - {conn}))
      else w.(calls := w.calls[id := AwaitTeardown(conn, s.connections[conn], None)])
    case PickTransport(id, tid) =>
      var c := w.calls[id];
      var picked := if tid in s.transports then Some((tid, s.transports[tid])) else None;
      w.(calls := w.calls[id := c.(todo := c.todo - {tid}, picked := picked)])
    case TeardownProducer(_, pid) => w.(s := CloseProducer(s, pid))
    case FinishTransport(id) =>
      var (tid, t) := w.calls[id].picked.value;
      w.(s := FinishTransportOf(s, tid, t), calls := w.calls[id := w.calls[id].(picked := None)])
    case TeardownDone(id) =>
      w.(s := s.(connections := s.connections - {w.calls[id].conn}), calls := w.calls - {id})
  }

  // ----- what every interleaving keeps -----

  ghost predicate CallPlaced(ws: seq<Worker>, sessions: map<SessionId, Session>, c: Call) {
    match c
    case AwaitRouter(sid, _, _, _, worker, process) => At(ws, sid, worker, process)
    case AwaitTransport(t, _) => At(ws, t.sessionId, t.worker, t.generation)
    case AwaitProduce(p) => At(ws, p.sessionId, p.worker, p.generation)
    case AwaitConsume(c) => At(ws, c.sessionId, c.worker, c.generation)
    case AwaitSpawn(worker, epoch, affected) => RecoveryPlaced(ws, sessions, worker, epoch, affected)
    case AwaitRouters(worker, epoch, left) => RecoveryPlaced(ws, sessions, worker, epoch, left)
    case AwaitTeardown(_, _, _) => true
  }

  ghost predicate RecoveryPlaced(ws: seq<Worker>, sessions: map<SessionId, Session>, worker: nat, epoch: nat, sids: set<SessionId>) {
    worker < |ws| && epoch <= ws[worker].generation
    && forall sid | sid in sids :: sid in sessions && At(ws, sid, worker, epoch)
  }

  ghost predicate CallsPlaced(ws: seq<Worker>, sessions: map<SessionId, Session>, calls: map<CallId, Call>) {
    forall id | id in calls :: CallPlaced(ws, sessions, calls[id])
  }

  ghost predicate ProcessesPlaced(ws: seq<Worker>, processes: seq<nat>) {
    |processes| == |ws| && forall i | 0 <= i < |ws| :: processes[i] <= ws[i].generation
  }

  ghost predicate WellFormed(w: World) {
    Placed(w.s) && CallsPlaced(w.s.workers, w.s.sessions, w.calls) && ProcessesPlaced(w.s.workers, w.processes)
  }

  /** The index bounds that `Enabled` names hold in every well-formed world. */
  lemma BoundsHold(w: World, id: CallId)
    requires WellFormed(w)
    ensures |w.processes| == |w.s.workers|
    ensures id in w.calls && (w.calls[id].AwaitRouter? || w.calls[id].AwaitSpawn? || w.calls[id].AwaitRouters?) ==>
            w.calls[id].worker < |w.s.workers|
  {
    if id in w.calls {
      assert CallPlaced(w.s.workers, w.s.sessions, w.calls[id]);
    }
  }

  /** A step with which a suspended call goes on, whatever the answer to it is. */
  ghost predicate GoesOn(c: Call, e: Event) {
    match c
    case AwaitRouter(_, _, _, _, _, _) => e.RouterDone?
    case AwaitTransport(_, _) => e.TransportDone? && e.transportMade == None
    case AwaitProduce(_) => e.ProduceDone? && e.producerMade == None
    case AwaitConsume(_) => e.ConsumeDone? && e.consumerMade == None
    case AwaitSpawn(_, _, _) => e.Spawned?
    case AwaitRouters(_, _, left) => if left == {} then e.RecoveryDone? else e.SessionRouted? && e.sid in left
    case AwaitTeardown(_, todo, picked) =>
      if picked.Some? then e.FinishTransport? else if todo == {} then e.TeardownDone? else e.PickTransport? && e.tid in todo
  }

  /** No suspended call is stuck in a well-formed world, and what is made elsewhere needs only a fresh
      id: the bounds that `Enabled` names exclude no step of the code. */
  lemma EveryCallGoesOn(w: World, id: CallId, e: Event)
    requires WellFormed(w) && id in w.calls && GoesOn(w.calls[id], e) && e.id == id
    ensures Enabled(w, e)
  {
    hide WellFormed, Placed, FreshTransport;
    BoundsHold(w, id);
    match w.calls[id]
    case AwaitRouter(_, _, _, _, _, _) =>
    case AwaitTransport(_, _) =>
    case AwaitProduce(_) =>
    case AwaitConsume(_) =>
    case AwaitSpawn(_, _, _) =>
    case AwaitRouters(_, _, _) =>
    case AwaitTeardown(_, _, _) =>
  }

  lemma StartWellFormed(n: nat)
    ensures WellFormed(Start(n))
  {}

  lemma CallsPlacedLater(ws: seq<Worker>, ws': seq<Worker>, m: map<SessionId, Session>, m': map<SessionId, Session>,
                         calls: map<CallId, Call>)
    requires CallsPlaced(ws, m, calls) && NoOlder(ws, ws') && m.Keys <= m'.Keys
    ensures CallsPlaced(ws', m', calls)
  {}

  lemma PlacedFinishTransport(s: State, tid: TransportId, t: Transport)
    requires Placed(s)
    ensures Placed(FinishTransportOf(s, tid, t))
  {
    var s' := FinishTransportOf(s, tid, t);
    SessionsAtLater(s.workers, s'.workers, s.sessions, s'.sessions);
    AssignedLater(s.workers, s'.workers, s.sessions, s'.sessions);
  }

  /** A step that leaves workers and calls alone keeps the world well formed if it keeps `Placed`. */
  lemma QuietStep(w: World, s': State, calls': map<CallId, Call>)
    requires WellFormed(w) && Placed(s') && s'.workers == w.s.workers && w.s.sessions.Keys <= s'.sessions.Keys
    requires forall id | id in calls' :: id in w.calls && calls'[id] == w.calls[id]
    ensures WellFormed(w.(s := s', calls := calls'))
  {
    CallsPlacedLater(w.s.workers, s'.workers, w.s.sessions, s'.sessions, w.calls);
  }

  /** A step that adds or replaces one call and may advance generations. */
  lemma CallStep(w: World, s': State, id: CallId, c: Call)
    requires WellFormed(w) && Placed(s') && NoOlder(w.s.workers, s'.workers) && w.s.sessions.Keys <= s'.sessions.Keys
    requires CallPlaced(s'.workers, s'.sessions, c)
    ensures WellFormed(w.(s := s', calls := w.calls[id := c]))
  {
    CallsPlacedLater(w.s.workers, s'.workers, w.s.sessions, s'.sessions, w.calls);
  }

  /** A step that ends a call and may advance generations. */
  lemma EndStep(w: World, s': State, id: CallId)
    requires WellFormed(w) && Placed(s') && NoOlder(w.s.workers, s'.workers) && w.s.sessions.Keys <= s'.sessions.Keys
    ensures WellFormed(w.(s := s', calls := w.calls - {id}))
  {
    CallsPlacedLater(w.s.workers, s'.workers, w.s.sessions, s'.sessions, w.calls);
  }

  lemma NoOlderRefl(ws: seq<Worker>)
    ensures NoOlder(ws, ws)
  {}

  lemma BeginTransportStep(w: World, e: Event)
    requires WellFormed(w) && Enabled(w, e) && e.BeginTransport?
    ensures WellFormed(Next(w, e))
  {
    NoOlderRefl(w.s.workers);
    if PlanRouter(w.s, e.sid, e.routerClosed).Ok? {
      CallStep(w, w.s, e.id, Next(w, e).calls[e.id]);
    }
  }

  lemma RouterDoneStep(w: World, id: CallId, ok: bool)
    requires WellFormed(w) && Enabled(w, RouterDone(id, ok))
    ensures WellFormed(Next(w, RouterDone(id, ok)))
  {
    var s, c := w.s, w.calls[id];
    NoOlderRefl(s.workers);
    assert CallPlaced(s.workers, s.sessions, c);
    if ok {
      PlacedInstallRouter(s, c.sid, c.worker);
      CallStep(w, InstallRouter(s, c.sid, c.worker), id, Next(w, RouterDone(id, ok)).calls[id]);
    } else {
      EndStep(w, s, id);
    }
  }

  lemma TransportDoneStep(w: World, id: CallId, made: Option<TransportId>)
    requires WellFormed(w) && Enabled(w, TransportDone(id, made))
    ensures WellFormed(Next(w, TransportDone(id, made)))
  {
    hide Placed;
    var s, c := w.s, w.calls[id];
    NoOlderRefl(s.workers);
    assert CallPlaced(s.workers, s.sessions, c);
    if made.Some? {
      PlacedInstallTransport(s, made.value, c.transport);
      EndStep(w, InstallTransport(s, made.value, c.transport), id);
    } else {
      EndStep(w, s, id);
    }
  }

  /** What the guards of a produce call establish about the track that it will register. */
  lemma BegunProduce(s: State, sid: SessionId, tid: TransportId, closed: bool, user: UserId, track: TrackType)
    requires Placed(s)
    ensures var b := BeginProduce(s, sid, tid, closed, user, track);
            && b.state.workers == s.workers && b.state.sessions == s.sessions
            && (b.result.Ok? ==> At(s.workers, sid, b.result.value.worker, b.result.value.generation))
  {
    var b := BeginProduce(s, sid, tid, closed, user, track);
    if b.result.Ok? {
      GuardedTransport(s, sid, b.result.value);
    }
  }

  lemma StartProduceStep(w: World, e: Event)
    requires WellFormed(w) && Enabled(w, e) && e.StartProduce?
    ensures WellFormed(Next(w, e))
  {
    hide Placed, BeginProduce, At;
    var s := w.s;
    NoOlderRefl(s.workers);
    var b := BeginProduce(s, e.sid, e.tid, e.closed, e.user, e.track);
    PlacedBeginProduce(s, e.sid, e.tid, e.closed, e.user, e.track);
    BegunProduce(s, e.sid, e.tid, e.closed, e.user, e.track);
    if b.result.Ok? {
      CallStep(w, b.state, e.id, Next(w, e).calls[e.id]);
    } else {
      QuietStep(w, b.state, w.calls);
    }
  }

  lemma ProduceDoneStep(w: World, id: CallId, made: Option<ProducerId>)
    requires WellFormed(w) && Enabled(w, ProduceDone(id, made))
    ensures WellFormed(Next(w, ProduceDone(id, made)))
  {
    hide Placed;
    var s := w.s;
    NoOlderRefl(s.workers);
    assert CallPlaced(s.workers, s.sessions, w.calls[id]);
    if made.Some? {
      PlacedInstallProducer(s, made.value, w.calls[id].producer);
      EndStep(w, InstallProducer(s, made.value, w.calls[id].producer), id);
    } else {
      EndStep(w, s, id);
    }
  }

  lemma StartConsumeStep(w: World, e: Event)
    requires WellFormed(w) && Enabled(w, e) && e.StartConsume?
    ensures WellFormed(Next(w, e))
  {
    var s := w.s;
    NoOlderRefl(s.workers);
    var b := BeginConsume(s, e.sid, e.tid, e.pid, e.answer);
    if b.Ok? {
      GuardedTransport(s, e.sid, b.value);
      CallStep(w, s, e.id, Next(w, e).calls[e.id]);
    }
  }

  lemma ConsumeDoneStep(w: World, id: CallId, made: Option<ConsumerId>, current: bool)
    requires WellFormed(w) && Enabled(w, ConsumeDone(id, made, current))
    ensures WellFormed(Next(w, ConsumeDone(id, made, current)))
  {
    hide Placed;
    var s := w.s;
    NoOlderRefl(s.workers);
    assert CallPlaced(s.workers, s.sessions, w.calls[id]);
    if made.Some? {
      PlacedInstallConsumer(s, made.value, w.calls[id].consumer, current);
      EndStep(w, InstallConsumer(s, made.value, w.calls[id].consumer, current), id);
    } else {
      EndStep(w, s, id);
    }
  }

  lemma CrashRecoveryPlaced(s: State, w: nat)
    requires Placed(s) && w < |s.workers|
    ensures var s' := CrashMark(s, w);
            RecoveryPlaced(s'.workers, s'.sessions, w, s.workers[w].generation + 1, s.workers[w].assignedSessions)
  {}

  lemma DiedStep(w: World, id: CallId, worker: nat)
    requires WellFormed(w) && Enabled(w, Died(id, worker))
    ensures WellFormed(Next(w, Died(id, worker)))
  {
    hide Placed;
    var s := w.s;
    PlacedCrashMark(s, worker);
    var s' := CrashMark(s, worker);
    var c := AwaitSpawn(worker, s.workers[worker].generation + 1, s.workers[worker].assignedSessions);
    CrashRecoveryPlaced(s, worker);
    CallStep(w, s', id, c);
  }

  lemma RecoveryStep(w: World, e: Event)
    requires WellFormed(w) && Enabled(w, e) && (e.Spawned? || e.SessionRouted? || e.RecoveryDone?)
    ensures WellFormed(Next(w, e))
  {
    hide Placed;
    var s, c := w.s, w.calls[e.id];
    NoOlderRefl(s.workers);
    assert CallPlaced(s.workers, s.sessions, c);
    match e
    case Spawned(id, ok) =>
      if ok {
        var w' := w.(processes := w.processes[c.worker := c.epoch]);
        CallStep(w', s, id, AwaitRouters(c.worker, c.epoch, c.affected));
      } else {
        PlacedSetWorkerStatus(s, c.worker, WorkerDead);
        EndStep(w, SetWorkerStatus(s, c.worker, WorkerDead), id);
      }
    case SessionRouted(id, sid, ok) =>
      if ok {
        PlacedRecoverSession(s, sid, c.worker, c.epoch);
        CallStep(w, RecoverSession(s, sid, c.worker, c.epoch), id, c.(left := c.left - {sid}));
      } else {
        CallStep(w, s, id, c.(left := c.left - {sid}));
      }
    case RecoveryDone(id) =>
      PlacedSetWorkerStatus(s, c.worker, WorkerActive);
      EndStep(w, SetWorkerStatus(s, c.worker, WorkerActive), id);
  }

  lemma RemovalStep(w: World, e: Event)
    requires WellFormed(w) && Enabled(w, e)
    requires e.Connect? || e.DropTransport? || e.DropProducer? || e.TeardownProducer?
    ensures WellFormed(Next(w, e))
  {
    hide Placed;
    match e
    case Connect(_, _) =>
    case DropTransport(tid) =>
      if tid in w.s.transports {
        PlacedForgetTransport(w.s, tid);
        QuietStep(w, ForgetTransport(w.s, tid), w.calls);
      }
    case DropProducer(pid) =>
      PlacedCloseProducer(w.s, pid);
      QuietStep(w, CloseProducer(w.s, pid), w.calls);
    case TeardownProducer(_, pid) =>
      PlacedCloseProducer(w.s, pid);
      QuietStep(w, CloseProducer(w.s, pid), w.calls);
  }

  lemma TeardownStep(w: World, e: Event)
    requires WellFormed(w) && Enabled(w, e)
    requires e.StartTeardown? || e.PickTransport? || e.FinishTransport? || e.TeardownDone?
    ensures WellFormed(Next(w, e))
  {
    var s := w.s;
    NoOlderRefl(s.workers);
    match e
    case StartTeardown(id, conn) =>
      if Get(s.connections, conn) == {} {
        QuietStep(w, s.(connections := s.connections - {conn}), w.calls);
      } else {
        CallStep(w, s, id, AwaitTeardown(conn, s.connections[conn], None));
      }
    case PickTransport(id, tid) =>
      CallStep(w, s, id, Next(w, e).calls[id]);
    case FinishTransport(id) =>
      var (tid, t) := w.calls[id].picked.value;
      PlacedFinishTransport(s, tid, t);
      CallStep(w, FinishTransportOf(s, tid, t), id, w.calls[id].(picked := None));
    case TeardownDone(id) =>
      EndStep(w, s.(connections := s.connections - {w.calls[id].conn}), id);
  }

  lemma StepWellFormed(w: World, e: Event)
    requires WellFormed(w) && Enabled(w, e)
    ensures WellFormed(Next(w, e))
  {
    hide WellFormed;
    match e
    case BeginTransport(_, _, _, _, _, _) => BeginTransportStep(w, e);
    case RouterDone(id, ok) => RouterDoneStep(w, id, ok);
    case TransportDone(id, made) => TransportDoneStep(w, id, made);
    case StartProduce(_, _, _, _, _, _, _, _) => StartProduceStep(w, e);
    case ProduceDone(id, made) => ProduceDoneStep(w, id, made);
    case StartConsume(_, _, _, _, _, _, _) => StartConsumeStep(w, e);
    case ConsumeDone(id, made, current) => ConsumeDoneStep(w, id, made, current);
    case Died(id, worker) => DiedStep(w, id, worker);
    case Spawned(_, _) => RecoveryStep(w, e);
    case SessionRouted(_, _, _) => RecoveryStep(w, e);
    case RecoveryDone(_) => RecoveryStep(w, e);
    case Connect(_, _) => RemovalStep(w, e);
    case DropTransport(_) => RemovalStep(w, e);
    case DropProducer(_) => RemovalStep(w, e);
    case TeardownProducer(_, _) => RemovalStep(w, e);
    case StartTeardown(_, _) => TeardownStep(w, e);
    case PickTransport(_, _) => TeardownStep(w, e);
    case FinishTransport(_) => TeardownStep(w, e);
    case TeardownDone(_) => TeardownStep(w, e);
  }
}
