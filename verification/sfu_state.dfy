/** The SFU manager's registries as values, and what each stretch of its code between two
    awaits does to them. An answer that mediasoup gives is a parameter. */
module SfuState {
  import opened Wrappers
  import opened SessionHash
  import opened MapCount

  type TransportId = nat
  type ProducerId = nat
  type ConsumerId = nat
  type ConnectionId = nat
  type UserId = nat

  datatype Direction = Send | Recv
  datatype TrackType = Webcam | Microphone | Screen
  datatype Kind = Audio | Video

  datatype Transport = Transport(
    sessionId: SessionId, worker: nat, generation: nat,
    connectionId: ConnectionId, userId: UserId, direction: Direction)

  datatype Producer = Producer(
    sessionId: SessionId, transportId: TransportId, worker: nat, generation: nat,
    trackType: TrackType, kind: Kind, connectionId: ConnectionId, userId: UserId)

  datatype Consumer = Consumer(
    sessionId: SessionId, transportId: TransportId, producerId: ProducerId, worker: nat, generation: nat,
    trackType: TrackType, connectionId: ConnectionId, userId: UserId)

  datatype SessionStatus = SessionActive | SessionResetting

  datatype Session = Session(
    worker: nat, generation: nat, status: SessionStatus,
    transports: map<TransportId, Transport>,
    producers: map<ProducerId, Producer>,
    consumers: map<ConsumerId, Consumer>)

  datatype WorkerStatus = WorkerActive | WorkerResetting | WorkerDead

  datatype Worker = Worker(generation: nat, status: WorkerStatus, assignedSessions: set<SessionId>)

  datatype TransportGauge = TransportGauge(send: int, recv: int)
  datatype ConsumerGauge = ConsumerGauge(webcam: int, microphone: int, screen: int)

  datatype State = State(
    workers: seq<Worker>,
    sessions: map<SessionId, Session>,
    transports: map<TransportId, Transport>,
    producers: map<ProducerId, Producer>,
    consumers: map<ConsumerId, Consumer>,
    connections: map<ConnectionId, set<TransportId>>,
    transportGauge: TransportGauge,
    consumerGauge: ConsumerGauge)

  datatype ErrorCode =
    | NoWorkers
    | MediaSfuUnavailable
    | MediaSessionResetting(worker: nat, epoch: nat)
    | MediaWorkerMismatch
    | ServerBusy
    | TransportNotFound
    | InvalidDirection
    | MaxProducersExceeded
    | SessionNotFound
    | ProducerNotFound
    | CannotConsume
    | MaxViewersExceeded
    | MediasoupFailure

  /** A state together with what the caller is told. */
  datatype Outcome<+T> = Outcome(state: State, result: Result<T, ErrorCode>)

  const MAX_TRANSPORTS_PER_WORKER := 250
  const MAX_PRODUCERS := 3
  const MAX_VIEWERS := 5

  function Initial(workerCount: nat): State {
    State(seq(workerCount, _ => Worker(1, WorkerActive, {})),
          map[], map[], map[], map[], map[], TransportGauge(0, 0), ConsumerGauge(0, 0, 0))
  }

  // ----- gauges -----

  function BumpTransport(g: TransportGauge, d: Direction, delta: int): TransportGauge {
    match d
    case Send => g.(send := g.send + delta)
    case Recv => g.(recv := g.recv + delta)
  }

  function BumpConsumer(g: ConsumerGauge, t: TrackType, delta: int): ConsumerGauge {
    match t
    case Webcam => g.(webcam := g.webcam + delta)
    case Microphone => g.(microphone := g.microphone + delta)
    case Screen => g.(screen := g.screen + delta)
  }

  function TransportOf(w: nat): Transport -> bool {
    (t: Transport) => t.worker == w
  }

  function Directed(d: Direction): Transport -> bool {
    (t: Transport) => t.direction == d
  }

  function Tracked(k: TrackType): Consumer -> bool {
    (c: Consumer) => c.trackType == k
  }

  function ViewersOf(p: ProducerId): Consumer -> bool {
    (c: Consumer) => c.producerId == p
  }

  function DropTransports(g: TransportGauge, m: map<TransportId, Transport>, gone: Transport -> bool): TransportGauge {
    TransportGauge(g.send - CountBoth(m, gone, Directed(Send)), g.recv - CountBoth(m, gone, Directed(Recv)))
  }

  function DropConsumers(g: ConsumerGauge, m: map<ConsumerId, Consumer>, gone: Consumer -> bool): ConsumerGauge {
    ConsumerGauge(g.webcam - CountBoth(m, gone, Tracked(Webcam)),
                  g.microphone - CountBoth(m, gone, Tracked(Microphone)),
                  g.screen - CountBoth(m, gone, Tracked(Screen)))
  }

  // ----- the guard -----

  /** `assertWorkerAndSession`: the pinned worker's index, or why the call is refused. */
  function Guard(s: State, sid: SessionId, clientWorker: Option<nat>, clientGeneration: Option<nat>)
    : (r: Result<nat, ErrorCode>)
    ensures r.Ok? ==> |s.workers| > 0 && r.value == Pin(sid, |s.workers|)
  {
    if |s.workers| == 0 then Err(NoWorkers) else
    var w := Pin(sid, |s.workers|);
    var ctx := s.workers[w];
    if ctx.status == WorkerDead then Err(MediaSfuUnavailable)
    else if ctx.status == WorkerResetting then Err(MediaSessionResetting(w, ctx.generation))
    else if sid in s.sessions && s.sessions[sid].status == SessionResetting then
      Err(MediaSessionResetting(w, ctx.generation))
    else if clientWorker.Some? && clientWorker.value != w then Err(MediaWorkerMismatch)
    else if clientGeneration.Some? && clientGeneration.value < ctx.generation then
      Err(MediaSessionResetting(w, ctx.generation))
    else Ok(w)
  }

  /** The guard as `connectTransport`, `produce` and `consume` use it. */
  function TransportGuard(s: State, sid: SessionId, t: Transport): Result<nat, ErrorCode> {
    Guard(s, sid, Some(t.worker), Some(t.generation))
  }

  // ----- routers and transports -----

  datatype RouterInfo = RouterInfo(worker: nat, generation: nat)

  datatype RouterPlan = Reuse(info: RouterInfo) | Create(worker: nat)

  /** `getOrCreateRouter` up to its await. */
  function PlanRouter(s: State, sid: SessionId, routerClosed: bool): (r: Result<RouterPlan, ErrorCode>)
    ensures r.Ok? && r.value.Reuse? ==> sid in s.sessions
    ensures r.Ok? && r.value.Create? ==> |s.workers| > 0 && r.value.worker == Pin(sid, |s.workers|)
  {
    match Guard(s, sid, None, None)
    case Err(e) => Err(e)
    case Ok(w) =>
      if sid in s.sessions && !routerClosed then Ok(Reuse(RouterInfo(w, s.sessions[sid].generation)))
      else if CountWhere(s.transports, TransportOf(w)) >= MAX_TRANSPORTS_PER_WORKER then Err(ServerBusy)
      else Ok(Create(w))
  }

  function FreshSession(w: nat, generation: nat): Session {
    Session(w, generation, SessionActive, map[], map[], map[])
  }

  /** `getOrCreateRouter` after its await: the session gets a new object at the worker's present generation. */
  function InstallRouter(s: State, sid: SessionId, w: nat): State
    requires w < |s.workers|
  {
    s.(workers := s.workers[w := s.workers[w].(assignedSessions := s.workers[w].assignedSessions + {sid})],
       sessions := s.sessions[sid := FreshSession(w, s.workers[w].generation)])
  }

  function Get<K, V>(m: map<K, set<V>>, k: K): set<V> {
    if k in m then m[k] else {}
  }

  /** `createTransport` after its last await. */
  function InstallTransport(s: State, tid: TransportId, t: Transport): State {
    s.(transports := s.transports[tid := t],
       sessions := if t.sessionId in s.sessions
                   then s.sessions[t.sessionId := s.sessions[t.sessionId].(
                          transports := s.sessions[t.sessionId].transports[tid := t])]
                   else s.sessions,
       connections := s.connections[t.connectionId := Get(s.connections, t.connectionId) + {tid}],
       transportGauge := BumpTransport(s.transportGauge, t.direction, 1))
  }

  /** What mediasoup answers to one `createTransport` call. */
  datatype TransportAnswer = TransportAnswer(routerClosed: bool, routerCreated: bool, created: Option<TransportId>)

  function GetOrCreateRouter(s: State, sid: SessionId, routerClosed: bool, routerCreated: bool): Outcome<RouterInfo> {
    match PlanRouter(s, sid, routerClosed)
    case Err(e) => Outcome(s, Err(e))
    case Ok(Reuse(info)) => Outcome(s, Ok(info))
    case Ok(Create(w)) =>
      if !routerCreated then Outcome(s, Err(MediasoupFailure))
      else Outcome(InstallRouter(s, sid, w), Ok(RouterInfo(w, s.workers[w].generation)))
  }

  function CreateTransport(s: State, sid: SessionId, conn: ConnectionId, user: UserId, dir: Direction,
                           answer: TransportAnswer): Outcome<TransportId>
  {
    var routed := GetOrCreateRouter(s, sid, answer.routerClosed, answer.routerCreated);
    match routed.result
    case Err(e) => Outcome(routed.state, Err(e))
    case Ok(info) =>
      match answer.created
      case None => Outcome(routed.state, Err(MediasoupFailure))
      case Some(tid) =>
        var t := Transport(sid, info.worker, info.generation, conn, user, dir);
        Outcome(InstallTransport(routed.state, tid, t), Ok(tid))
  }

  /** `connectTransport`: the state does not change. */
  function ConnectTransport(s: State, tid: TransportId, closed: bool, connected: bool): Result<(), ErrorCode> {
    if tid !in s.transports || closed then Err(TransportNotFound)
    else match TransportGuard(s, s.transports[tid].sessionId, s.transports[tid])
      case Err(e) => Err(e)
      case Ok(_) => if connected then Ok(()) else Err(MediasoupFailure)
  }

  function ForgetTransport(s: State, tid: TransportId): State
    requires tid in s.transports
  {
    var t := s.transports[tid];
    s.(transports := s.transports - {tid},
       transportGauge := BumpTransport(s.transportGauge, t.direction, -1),
       sessions := if t.sessionId in s.sessions
                   then s.sessions[t.sessionId := s.sessions[t.sessionId].(
                          transports := s.sessions[t.sessionId].transports - {tid})]
                   else s.sessions)
  }

  function CloseTransport(s: State, tid: TransportId): (State, bool) {
    if tid !in s.transports then (s, false) else (ForgetTransport(s, tid), true)
  }

  // ----- producers -----

  function SameSlot(sid: SessionId, user: UserId, track: TrackType): Producer -> bool {
    (p: Producer) => p.sessionId == sid && p.userId == user && p.trackType == track
  }

  function OtherTracks(sid: SessionId, user: UserId, track: TrackType): Producer -> bool {
    (p: Producer) => p.sessionId == sid && p.userId == user && p.trackType != track
  }

  /** `produce` up to its await: the guards, and the removal of the user's track of the same type,
      which also happens when the call is then refused. */
  function BeginProduce(s: State, sid: SessionId, tid: TransportId, closed: bool, user: UserId, track: TrackType)
    : Outcome<Transport>
  {
    if tid !in s.transports || closed then Outcome(s, Err(TransportNotFound)) else
    var t := s.transports[tid];
    if t.direction != Send then Outcome(s, Err(InvalidDirection)) else
    match TransportGuard(s, sid, t)
    case Err(e) => Outcome(s, Err(e))
    case Ok(_) =>
      var s' := s.(producers := Without(s.producers, SameSlot(sid, user, track)));
      if CountWhere(s.producers, OtherTracks(sid, user, track)) >= MAX_PRODUCERS
      then Outcome(s', Err(MaxProducersExceeded))
      else Outcome(s', Ok(t))
  }

  /** `produce` after its await. */
  function InstallProducer(s: State, pid: ProducerId, p: Producer): State {
    s.(producers := s.producers[pid := p],
       sessions := if p.sessionId in s.sessions
                   then s.sessions[p.sessionId := s.sessions[p.sessionId].(
                          producers := s.sessions[p.sessionId].producers[pid := p])]
                   else s.sessions)
  }

  function Produce(s: State, sid: SessionId, tid: TransportId, closed: bool, kind: Kind, track: TrackType,
                   conn: ConnectionId, user: UserId, created: Option<ProducerId>): Outcome<ProducerId>
  {
    var begun := BeginProduce(s, sid, tid, closed, user, track);
    match begun.result
    case Err(e) => Outcome(begun.state, Err(e))
    case Ok(t) =>
      match created
      case None => Outcome(begun.state, Err(MediasoupFailure))
      case Some(pid) =>
        var p := Producer(sid, tid, t.worker, t.generation, track, kind, conn, user);
        Outcome(InstallProducer(begun.state, pid, p), Ok(pid))
  }

  function CloseProducer(s: State, pid: ProducerId): State {
    if pid !in s.producers then s else
    var sid := s.producers[pid].sessionId;
    s.(producers := s.producers - {pid},
       sessions := if sid in s.sessions
                   then s.sessions[sid := s.sessions[sid].(producers := s.sessions[sid].producers - {pid})]
                   else s.sessions)
  }

  // ----- consumers -----

  /** What mediasoup answers to one `consume` call. */
  datatype ConsumeAnswer = ConsumeAnswer(
    transportClosed: bool, producerClosed: bool, canConsume: bool, created: Option<ConsumerId>)

  /** `consume` up to its await. */
  function BeginConsume(s: State, sid: SessionId, tid: TransportId, pid: ProducerId, answer: ConsumeAnswer)
    : (r: Result<Transport, ErrorCode>)
    ensures r.Ok? ==> tid in s.transports && s.transports[tid] == r.value
    ensures r.Ok? ==> pid in s.producers && sid in s.sessions
  {
    if tid !in s.transports || answer.transportClosed then Err(TransportNotFound) else
    var t := s.transports[tid];
    if t.direction != Recv then Err(InvalidDirection) else
    match TransportGuard(s, sid, t)
    case Err(e) => Err(e)
    case Ok(_) =>
      if sid !in s.sessions then Err(SessionNotFound)
      else if pid !in s.producers || answer.producerClosed then Err(ProducerNotFound)
      else if !answer.canConsume then Err(CannotConsume)
      else if CountWhere(s.consumers, ViewersOf(pid)) >= MAX_VIEWERS then Err(MaxViewersExceeded)
      else Ok(t)
  }

  /** `consume` after its await. The session object was read before the await; `current` says
      whether it is still the registered one. */
  function InstallConsumer(s: State, cid: ConsumerId, c: Consumer, current: bool): State {
    s.(consumers := s.consumers[cid := c],
       sessions := if current && c.sessionId in s.sessions
                   then s.sessions[c.sessionId := s.sessions[c.sessionId].(
                          consumers := s.sessions[c.sessionId].consumers[cid := c])]
                   else s.sessions,
       consumerGauge := BumpConsumer(s.consumerGauge, c.trackType, 1))
  }

  function Consume(s: State, sid: SessionId, tid: TransportId, pid: ProducerId,
                   conn: ConnectionId, user: UserId, answer: ConsumeAnswer): Outcome<ConsumerId>
  {
    match BeginConsume(s, sid, tid, pid, answer)
    case Err(e) => Outcome(s, Err(e))
    case Ok(t) =>
      match answer.created
      case None => Outcome(s, Err(MediasoupFailure))
      case Some(cid) =>
        var c := Consumer(sid, tid, pid, t.worker, t.generation, s.producers[pid].trackType, conn, user);
        Outcome(InstallConsumer(s, cid, c, true), Ok(cid))
  }

  // ----- worker crash -----

  function ProducerOf(w: nat): Producer -> bool { (p: Producer) => p.worker == w }
  function ConsumerOf(w: nat): Consumer -> bool { (c: Consumer) => c.worker == w }

  /** `_handleWorkerDied` up to its first await: the worker's generation moves on, its sessions are
      marked, and its objects leave the registries. */
  function CrashMark(s: State, w: nat): State
    requires w < |s.workers|
  {
    var affected := s.workers[w].assignedSessions;
    s.(workers := s.workers[w := s.workers[w].(status := WorkerResetting, generation := s.workers[w].generation + 1)],
       sessions := map sid | sid in s.sessions ::
                     if sid in affected then s.sessions[sid].(status := SessionResetting) else s.sessions[sid],
       transports := Without(s.transports, TransportOf(w)),
       producers := Without(s.producers, ProducerOf(w)),
       consumers := Without(s.consumers, ConsumerOf(w)),
       transportGauge := DropTransports(s.transportGauge, s.transports, TransportOf(w)),
       consumerGauge := DropConsumers(s.consumerGauge, s.consumers, ConsumerOf(w)))
  }

  /** One session gets its router back after a crash. */
  function RecoverSession(s: State, sid: SessionId, w: nat, epoch: nat): State {
    s.(sessions := s.sessions[sid := FreshSession(w, epoch)])
  }

  function RecoverSessions(s: State, sids: set<SessionId>, w: nat, epoch: nat): State {
    s.(sessions := map sid | sid in s.sessions.Keys + sids ::
                     if sid in sids then FreshSession(w, epoch) else s.sessions[sid])
  }

  function SetWorkerStatus(s: State, w: nat, status: WorkerStatus): State
    requires w < |s.workers|
  {
    s.(workers := s.workers[w := s.workers[w].(status := status)])
  }

  /** What mediasoup answers during one recovery: whether the process starts again, and which
      sessions get a router. */
  datatype RecoveryAnswer = RecoveryAnswer(spawned: bool, routed: set<SessionId>)

  function WorkerDied(s: State, w: nat, answer: RecoveryAnswer): State {
    if w >= |s.workers| then s else
    var marked := CrashMark(s, w);
    if !answer.spawned then SetWorkerStatus(marked, w, WorkerDead) else
    var recovered := RecoverSessions(marked, s.workers[w].assignedSessions * answer.routed, w, s.workers[w].generation + 1);
    SetWorkerStatus(recovered, w, WorkerActive)
  }

  // ----- connection teardown -----

  /** The registered transports of a connection that are still in the transport registry. */
  function Owned(s: State, conn: ConnectionId): set<TransportId> {
    Get(s.connections, conn) * s.transports.Keys
  }

  function ProducerOn(ts: set<TransportId>): Producer -> bool { (p: Producer) => p.transportId in ts }
  function ConsumerOn(ts: set<TransportId>): Consumer -> bool { (c: Consumer) => c.transportId in ts }

  function TransportIn(sid: SessionId): Transport -> bool { (t: Transport) => t.sessionId == sid }
  function ProducerIn(sid: SessionId): Producer -> bool { (p: Producer) => p.sessionId == sid }
  function ConsumerIn(sid: SessionId): Consumer -> bool { (c: Consumer) => c.sessionId == sid }

  /** A session object without the given transports and without the registered producers and
      consumers that sit on them. */
  function Stripped(s: State, sid: SessionId, ts: set<TransportId>): Session
    requires sid in s.sessions
  {
    var x := s.sessions[sid];
    x.(transports := x.transports - ts * KeysWhere(s.transports, TransportIn(sid)),
       producers := x.producers - KeysWhere(s.producers, ProducerOn(ts)) * KeysWhere(s.producers, ProducerIn(sid)),
       consumers := x.consumers - KeysWhere(s.consumers, ConsumerOn(ts)) * KeysWhere(s.consumers, ConsumerIn(sid)))
  }

  function StrippedSessions(s: State, ts: set<TransportId>): map<SessionId, Session> {
    map sid | sid in s.sessions :: Stripped(s, sid, ts)
  }

  /** Removes the given transports with everything on them. */
  function Strip(s: State, ts: set<TransportId>): State {
    s.(transports := s.transports - ts,
       producers := Without(s.producers, ProducerOn(ts)),
       consumers := Without(s.consumers, ConsumerOn(ts)),
       sessions := StrippedSessions(s, ts),
       transportGauge := TransportGauge(s.transportGauge.send - CountIn(s.transports, ts, Directed(Send)),
                                        s.transportGauge.recv - CountIn(s.transports, ts, Directed(Recv))),
       consumerGauge := DropConsumers(s.consumerGauge, s.consumers, ConsumerOn(ts)))
  }

  function Teardown(s: State, conn: ConnectionId): State {
    if Get(s.connections, conn) == {} then s.(connections := s.connections - {conn}) else
    var stripped := Strip(s, Owned(s, conn));
    stripped.(connections := stripped.connections - {conn})
  }
}
