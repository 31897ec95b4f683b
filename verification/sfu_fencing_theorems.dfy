/** Safety over every interleaving of SFU calls and worker deaths, and where it needs an assumption. */
module SfuFencingTheorems {
  import opened Wrappers
  import opened SessionHash
  import opened MapCount
  import opened SfuState
  import opened SfuRegistry
  import opened SfuFencing

  /** The events `es`, one after the other, lead from `w` to `w'`. */
  ghost predicate Reaches(w: World, es: seq<Event>, w': World)
    decreases es
  {
    if es == [] then w' == w
    else Enabled(w, es[0]) && Reaches(Next(w, es[0]), es[1..], w')
  }

  lemma {:induction false} ReachesWellFormed(w: World, es: seq<Event>, w': World)
    requires WellFormed(w) && Reaches(w, es, w')
    ensures WellFormed(w')
    decreases es
  {
    if es != [] {
      StepWellFormed(w, es[0]);
      ReachesWellFormed(Next(w, es[0]), es[1..], w');
    }
  }

  // ----- generations -----

  function Deaths(es: seq<Event>, w: nat): nat {
    if es == [] then 0 else (if es[0].Died? && es[0].worker == w then 1 else 0) + Deaths(es[1..], w)
  }

  predicate AboutTracks(e: Event) {
    e.StartProduce? || e.ProduceDone? || e.StartConsume? || e.ConsumeDone?
  }

  predicate Removal(e: Event) {
    e.Connect? || e.DropTransport? || e.DropProducer? || e.StartTeardown? || e.PickTransport?
    || e.TeardownProducer? || e.FinishTransport? || e.TeardownDone?
  }

  /** Nothing that fencing rests on changes, except that transports may leave. */
  ghost predicate Framed(s: State, s': State) {
    && s'.workers == s.workers && s'.sessions.Keys == s.sessions.Keys
    && (forall sid | sid in s.sessions :: s'.sessions[sid].generation == s.sessions[sid].generation)
    && (forall t | t in s'.transports :: t in s.transports && s'.transports[t] == s.transports[t])
  }

  ghost predicate CallsFramed(m: map<CallId, Call>, m': map<CallId, Call>) {
    forall id | id in m' && m'[id].AwaitTransport? :: id in m && m'[id] == m[id]
  }

  ghost predicate WorldFramed(w: World, w': World) {
    && w'.routerOn == w.routerOn && w'.madeOn == w.madeOn
    && Framed(w.s, w'.s) && CallsFramed(w.calls, w'.calls)
  }

  lemma ProducerOpsFramed(s: State, pid: ProducerId, p: Producer)
    ensures Framed(s, InstallProducer(s, pid, p)) && Framed(s, CloseProducer(s, pid))
  {}

  lemma BeginProduceFramed(s: State, sid: SessionId, tid: TransportId, closed: bool, user: UserId, track: TrackType)
    ensures Framed(s, BeginProduce(s, sid, tid, closed, user, track).state)
  {}

  lemma InstallConsumerFramed(s: State, cid: ConsumerId, c: Consumer, current: bool)
    ensures Framed(s, InstallConsumer(s, cid, c, current))
  {}

  lemma CloseTransportFramed(s: State, tid: TransportId)
    ensures Framed(s, CloseTransport(s, tid).0)
  {}

  lemma FinishTransportFramed(s: State, tid: TransportId, t: Transport)
    ensures Framed(s, FinishTransportOf(s, tid, t))
  {}

  lemma ProduceFramed(w: World, e: Event)
    requires Enabled(w, e) && (e.StartProduce? || e.ProduceDone?)
    ensures WorldFramed(w, Next(w, e))
  {
    match e
    case StartProduce(_, sid, tid, closed, _, track, _, user) => BeginProduceFramed(w.s, sid, tid, closed, user, track);
    case ProduceDone(id, made) =>
      if made.Some? {
        ProducerOpsFramed(w.s, made.value, w.calls[id].producer);
      }
  }

  lemma ConsumeFramed(w: World, e: Event)
    requires Enabled(w, e) && (e.StartConsume? || e.ConsumeDone?)
    ensures WorldFramed(w, Next(w, e))
  {
    match e
    case StartConsume(_, _, _, _, _, _, _) =>
    case ConsumeDone(id, made, current) =>
      if made.Some? {
        InstallConsumerFramed(w.s, made.value, w.calls[id].consumer, current);
      }
  }

  lemma TracksFramed(w: World, e: Event)
    requires Enabled(w, e) && AboutTracks(e)
    ensures WorldFramed(w, Next(w, e))
  {
    if e.StartProduce? || e.ProduceDone? {
      ProduceFramed(w, e);
    } else {
      ConsumeFramed(w, e);
    }
  }

  lemma DropFramed(w: World, e: Event)
    requires Enabled(w, e) && (e.Connect? || e.DropTransport? || e.DropProducer? || e.TeardownProducer?)
    ensures WorldFramed(w, Next(w, e))
  {
    match e
    case Connect(_, _) =>
    case DropTransport(tid) => CloseTransportFramed(w.s, tid);
    case DropProducer(pid) =>
      if pid in w.s.producers {
        ProducerOpsFramed(w.s, pid, w.s.producers[pid]);
      }
    case TeardownProducer(_, pid) => ProducerOpsFramed(w.s, pid, w.s.producers[pid]);
  }

  lemma TeardownFramed(w: World, e: Event)
    requires Enabled(w, e)
    requires e.StartTeardown? || e.PickTransport? || e.FinishTransport? || e.TeardownDone?
    ensures WorldFramed(w, Next(w, e))
  {
    if e.FinishTransport? {
      var (tid, t) := w.calls[e.id].picked.value;
      FinishTransportFramed(w.s, tid, t);
    }
  }

  lemma RemovalFramed(w: World, e: Event)
    requires Enabled(w, e) && Removal(e)
    ensures WorldFramed(w, Next(w, e))
  {
    if e.Connect? || e.DropTransport? || e.DropProducer? || e.TeardownProducer? {
      DropFramed(w, e);
    } else {
      TeardownFramed(w, e);
    }
  }

  lemma RecoveryGeneration(w: World, e: Event, i: nat)
    requires Enabled(w, e) && i < |w.s.workers|
    requires e.Died? || e.Spawned? || e.SessionRouted? || e.RecoveryDone?
    ensures |Next(w, e).s.workers| == |w.s.workers|
    ensures Next(w, e).s.workers[i].generation == w.s.workers[i].generation + (if e.Died? && e.worker == i then 1 else 0)
  {}

  lemma BeginTransportGeneration(w: World, e: Event)
    requires Enabled(w, e) && (e.BeginTransport? || e.TransportDone?)
    ensures Next(w, e).s.workers == w.s.workers
  {}

  lemma RouterDoneGeneration(w: World, e: Event, i: nat)
    requires Enabled(w, e) && i < |w.s.workers| && e.RouterDone?
    ensures |Next(w, e).s.workers| == |w.s.workers|
    ensures Next(w, e).s.workers[i].generation == w.s.workers[i].generation
  {
  }

  lemma StepGeneration(w: World, e: Event, i: nat)
    requires Enabled(w, e) && i < |w.s.workers|
    ensures |Next(w, e).s.workers| == |w.s.workers|
    ensures Next(w, e).s.workers[i].generation ==
            w.s.workers[i].generation + (if e.Died? && e.worker == i then 1 else 0)
  {
    if AboutTracks(e) {
      TracksFramed(w, e);
    } else if Removal(e) {
      RemovalFramed(w, e);
    } else if e.BeginTransport? || e.TransportDone? {
      BeginTransportGeneration(w, e);
    } else if e.RouterDone? {
      RouterDoneGeneration(w, e, i);
    } else {
      RecoveryGeneration(w, e, i);
    }
  }

  /** In every interleaving a worker's generation moves by exactly one per death of its own. */
  lemma {:induction false} GenerationCountsDeaths(w: World, es: seq<Event>, w': World, i: nat)
    requires Reaches(w, es, w') && i < |w.s.workers|
    ensures |w'.s.workers| == |w.s.workers|
    ensures w'.s.workers[i].generation == w.s.workers[i].generation + Deaths(es, i)
    decreases es
  {
    if es != [] {
      StepGeneration(w, es[0], i);
      GenerationCountsDeaths(Next(w, es[0]), es[1..], w', i);
    }
  }

  // ----- fencing -----

  /** `connectTransport`, `produce` or `consume` gets past its generation guard on transport `tid`
      in the name of session `sid`. */
  ghost predicate Passes(s: State, sid: SessionId, tid: TransportId) {
    tid in s.transports && TransportGuard(s, sid, s.transports[tid]).Ok?
  }

  /** Whenever a call passes its guard, in any interleaving, the transport's recorded generation
      is its worker's present one. */
  lemma FenceHolds(n: nat, es: seq<Event>, w: World, sid: SessionId, tid: TransportId)
    requires Reaches(Start(n), es, w) && Passes(w.s, sid, tid)
    ensures var t := w.s.transports[tid];
            |w.s.workers| > 0 && t.worker == Pin(sid, |w.s.workers|) && t.worker == Pin(t.sessionId, |w.s.workers|)
            && t.generation == w.s.workers[t.worker].generation
  {
    StartWellFormed(n);
    ReachesWellFormed(Start(n), es, w);
    GuardedTransport(w.s, sid, w.s.transports[tid]);
  }

  /** Transport records that exist in `w`, registered or still held by a suspended call. */
  ghost predicate RecordedIn(w: World, t: Transport) {
    (exists tid :: tid in w.s.transports && w.s.transports[tid] == t) ||
    (exists id :: id in w.calls && w.calls[id].AwaitTransport? && w.calls[id].transport == t)
  }

  lemma RecordedPlaced(w: World, t: Transport)
    requires WellFormed(w) && RecordedIn(w, t)
    ensures At(w.s.workers, t.sessionId, t.worker, t.generation)
  {
    if id :| id in w.calls && w.calls[id].AwaitTransport? && w.calls[id].transport == t {
      assert CallPlaced(w.s.workers, w.s.sessions, w.calls[id]);
    }
  }

  /** A transport recorded before a death of its worker never passes a guard again, in the name of
      any session, however the calls and recoveries interleave afterwards. */
  lemma FencedForever(n: nat, before: seq<Event>, w: World, after: seq<Event>, w': World, t: Transport, sid: SessionId)
    requires Reaches(Start(n), before, w) && Reaches(w, after, w')
    requires RecordedIn(w, t) && Deaths(after, t.worker) > 0
    ensures TransportGuard(w'.s, sid, t).Err?
  {
    hide Next, Enabled, Reaches, Deaths, WellFormed, RecordedIn;
    StartWellFormed(n);
    ReachesWellFormed(Start(n), before, w);
    RecordedPlaced(w, t);
    GenerationCountsDeaths(w, after, w', t.worker);
  }

  // ----- fencing against the process itself -----

  /** The recorded generation of every router and transport is that of the process it was made on. */
  ghost predicate Honest(w: World) {
    RoutersHonest(w.s.sessions, w.routerOn) && TransportsHonest(w.s.transports, w.madeOn) && CallsHonest(w.calls)
  }

  ghost predicate RoutersHonest(m: map<SessionId, Session>, on: map<SessionId, nat>) {
    forall sid | sid in m :: sid in on && on[sid] == m[sid].generation
  }

  ghost predicate TransportsHonest(m: map<TransportId, Transport>, on: map<TransportId, nat>) {
    forall t | t in m :: t in on && on[t] == m[t].generation
  }

  ghost predicate CallsHonest(calls: map<CallId, Call>) {
    forall id | id in calls && calls[id].AwaitTransport? :: calls[id].process == calls[id].transport.generation
  }

  /** Mediasoup answers no router request of a process that has died since it was sent. */
  ghost predicate Prompt(w: World, e: Event)
    requires Enabled(w, e)
  {
    e.RouterDone? && e.ok ==>
      var c := w.calls[e.id];
      c.process == w.s.workers[c.worker].generation
  }

  lemma RouterHonest(w: World, id: CallId)
    requires Honest(w) && Enabled(w, RouterDone(id, true))
    ensures Honest(Next(w, RouterDone(id, true))) <==> Prompt(w, RouterDone(id, true))
  {
    var w' := Next(w, RouterDone(id, true));
    var c := w.calls[id];
    assert w'.routerOn[c.sid] == c.process && w'.s.sessions[c.sid].generation == w.s.workers[c.worker].generation;
  }

  lemma FramedHonest(w: World, w': World)
    requires Honest(w) && WorldFramed(w, w')
    ensures Honest(w')
  {}

  lemma BuildingHonest(w: World, e: Event)
    requires Honest(w) && Enabled(w, e)
    requires e.BeginTransport? || (e.RouterDone? && !e.ok) || e.TransportDone?
    ensures Honest(Next(w, e))
  {}

  lemma RecoveryHonest(w: World, e: Event)
    requires Honest(w) && Enabled(w, e)
    requires e.Died? || e.Spawned? || e.SessionRouted? || e.RecoveryDone?
    ensures Honest(Next(w, e))
  {
    hide DropTransports, DropConsumers, Without;
    match e
    case Died(id, worker) => DiedHonest(w, id, worker);
    case _ =>
  }

  lemma DiedHonest(w: World, id: CallId, worker: nat)
    requires Honest(w) && Enabled(w, Died(id, worker))
    ensures Honest(Next(w, Died(id, worker)))
  {
    hide DropTransports, DropConsumers;
  }

  /** A step keeps recorded generations honest exactly when it is prompt: a router that a dead
      process still delivers is the only thing recorded as newer than it is. */
  lemma HonestExactly(w: World, e: Event)
    requires Honest(w) && Enabled(w, e)
    ensures Honest(Next(w, e)) <==> Prompt(w, e)
  {
    if e.RouterDone? && e.ok {
      RouterHonest(w, e.id);
    } else if AboutTracks(e) {
      TracksFramed(w, e);
      FramedHonest(w, Next(w, e));
    } else if Removal(e) {
      RemovalFramed(w, e);
      FramedHonest(w, Next(w, e));
    } else if e.BeginTransport? || e.RouterDone? || e.TransportDone? {
      BuildingHonest(w, e);
    } else {
      RecoveryHonest(w, e);
    }
  }

  ghost predicate ReachesPromptly(w: World, es: seq<Event>, w': World)
    decreases es
  {
    if es == [] then w' == w
    else Enabled(w, es[0]) && Prompt(w, es[0]) && ReachesPromptly(Next(w, es[0]), es[1..], w')
  }

  lemma {:induction false} PromptlyHonest(w: World, es: seq<Event>, w': World)
    requires WellFormed(w) && Honest(w) && ReachesPromptly(w, es, w')
    ensures WellFormed(w') && Honest(w')
    decreases es
  {
    if es != [] {
      StepWellFormed(w, es[0]);
      HonestExactly(w, es[0]);
      PromptlyHonest(Next(w, es[0]), es[1..], w');
    }
  }

  /** With prompt answers, a transport that passes a guard lives on the worker process that is
      running now: no death separates its making from the call. */
  lemma GuardMeansAlive(n: nat, es: seq<Event>, w: World, sid: SessionId, tid: TransportId)
    requires ReachesPromptly(Start(n), es, w) && Passes(w.s, sid, tid)
    ensures tid in w.madeOn && w.s.transports[tid].worker < |w.s.workers|
    ensures w.madeOn[tid] == w.s.workers[w.s.transports[tid].worker].generation
  {
    StartWellFormed(n);
    PromptlyHonest(Start(n), es, w);
    GuardedTransport(w.s, sid, w.s.transports[tid]);
  }

  // ----- the process that runs now -----

  /** A process that starts does not take the place of one that started for a later death: only a
      process that has started can die, so its successor is not asked for before. */
  predicate InOrder(w: World, e: Event) {
    e.Spawned? && e.ok && e.id in w.calls && w.calls[e.id].AwaitSpawn? && w.calls[e.id].worker < |w.processes| ==>
      w.processes[w.calls[e.id].worker] <= w.calls[e.id].epoch
  }

  ghost predicate AllInOrder(w: World, es: seq<Event>)
    decreases es
  {
    es == [] || (Enabled(w, es[0]) ==> InOrder(w, es[0]) && AllInOrder(Next(w, es[0]), es[1..]))
  }

  /** Nothing was made on a process newer than the one its worker runs on. */
  ghost predicate MadeBefore(w: World) {
    && |w.processes| == |w.s.workers|
    && (forall sid | sid in w.routerOn :: |w.processes| > 0 && w.routerOn[sid] <= w.processes[Pin(sid, |w.processes|)])
    && (forall t | t in w.s.transports && t in w.madeOn ::
          w.s.transports[t].worker < |w.processes| && w.madeOn[t] <= w.processes[w.s.transports[t].worker])
    && CallsBefore(w.calls, w.processes)
  }

  ghost predicate CallBefore(c: Call, processes: seq<nat>) {
    match c
    case AwaitRouter(sid, _, _, _, worker, process) =>
      |processes| > 0 && worker == Pin(sid, |processes|) && process <= processes[worker]
    case AwaitTransport(t, process) => t.worker < |processes| && process <= processes[t.worker]
    case AwaitSpawn(worker, _, affected) =>
      worker < |processes| && forall sid | sid in affected :: Pin(sid, |processes|) == worker
    case AwaitRouters(worker, epoch, left) =>
      worker < |processes| && epoch <= processes[worker] && forall sid | sid in left :: Pin(sid, |processes|) == worker
    case _ => true
  }

  ghost predicate CallsBefore(calls: map<CallId, Call>, processes: seq<nat>) {
    forall id | id in calls :: CallBefore(calls[id], processes)
  }

  lemma BeginBefore(w: World, e: Event)
    requires MadeBefore(w) && Enabled(w, e) && e.BeginTransport?
    ensures MadeBefore(Next(w, e))
  {
    hide Guard, CountWhere;
  }

  lemma RouterBefore(w: World, id: CallId, ok: bool)
    requires MadeBefore(w) && Enabled(w, RouterDone(id, ok))
    ensures MadeBefore(Next(w, RouterDone(id, ok)))
  {
    assert CallBefore(w.calls[id], w.processes);
  }

  lemma TransportBefore(w: World, id: CallId, made: Option<TransportId>)
    requires MadeBefore(w) && Enabled(w, TransportDone(id, made))
    ensures MadeBefore(Next(w, TransportDone(id, made)))
  {
    assert CallBefore(w.calls[id], w.processes);
  }

  lemma DiedBefore(w: World, id: CallId, worker: nat)
    requires MadeBefore(w) && AssignedAgree(w.s.workers, w.s.sessions) && Enabled(w, Died(id, worker))
    ensures MadeBefore(Next(w, Died(id, worker)))
  {
    hide DropTransports, DropConsumers;
  }

  lemma NewerProcess(w: World, worker: nat, epoch: nat)
    requires MadeBefore(w) && worker < |w.processes| && w.processes[worker] <= epoch
    ensures MadeBefore(w.(processes := w.processes[worker := epoch]))
  {
    forall c: Call | CallBefore(c, w.processes) ensures CallBefore(c, w.processes[worker := epoch]) {}
  }

  lemma SpawnedBefore(w: World, id: CallId, ok: bool)
    requires MadeBefore(w) && Enabled(w, Spawned(id, ok)) && InOrder(w, Spawned(id, ok))
    ensures MadeBefore(Next(w, Spawned(id, ok)))
  {
    var c := w.calls[id];
    assert CallBefore(c, w.processes);
    if ok {
      NewerProcess(w, c.worker, c.epoch);
    }
  }

  lemma RoutedBefore(w: World, id: CallId, sid: SessionId, ok: bool)
    requires MadeBefore(w) && Enabled(w, SessionRouted(id, sid, ok))
    ensures MadeBefore(Next(w, SessionRouted(id, sid, ok)))
  {
    assert CallBefore(w.calls[id], w.processes);
  }

  lemma RecoveredBefore(w: World, id: CallId)
    requires MadeBefore(w) && Enabled(w, RecoveryDone(id))
    ensures MadeBefore(Next(w, RecoveryDone(id)))
  {}

  lemma QuietBefore(w: World, e: Event)
    requires MadeBefore(w) && Enabled(w, e) && (AboutTracks(e) || Removal(e))
    ensures MadeBefore(Next(w, e))
  {
    hide Next, Enabled;
    if AboutTracks(e) {
      TracksFramed(w, e);
    } else {
      RemovalFramed(w, e);
    }
    QuietCalls(w, e);
  }

  lemma QuietCalls(w: World, e: Event)
    requires Enabled(w, e) && (AboutTracks(e) || Removal(e))
    ensures Next(w, e).processes == w.processes
    ensures forall id | id in Next(w, e).calls && !(id in w.calls && Next(w, e).calls[id] == w.calls[id]) ::
              var c := Next(w, e).calls[id]; c.AwaitProduce? || c.AwaitConsume? || c.AwaitTeardown?
  {
    hide BeginProduce, BeginConsume, InstallProducer, InstallConsumer, CloseProducer, CloseTransport, FinishTransportOf;
  }

  lemma StepBefore(w: World, e: Event)
    requires WellFormed(w) && MadeBefore(w) && Enabled(w, e) && InOrder(w, e)
    ensures MadeBefore(Next(w, e))
  {
    hide Next, Enabled, MadeBefore, InOrder;
    match e
    case BeginTransport(_, _, _, _, _, _) => BeginBefore(w, e);
    case RouterDone(id, ok) => RouterBefore(w, id, ok);
    case TransportDone(id, made) => TransportBefore(w, id, made);
    case Died(id, worker) => DiedBefore(w, id, worker);
    case Spawned(id, ok) => SpawnedBefore(w, id, ok);
    case SessionRouted(id, sid, ok) => RoutedBefore(w, id, sid, ok);
    case RecoveryDone(id) => RecoveredBefore(w, id);
    case _ => QuietBefore(w, e);
  }

  lemma {:induction false} ReachesBefore(w: World, es: seq<Event>, w': World)
    requires WellFormed(w) && MadeBefore(w) && ReachesPromptly(w, es, w') && AllInOrder(w, es)
    ensures MadeBefore(w')
    decreases es
  {
    hide Next, Enabled, WellFormed, MadeBefore, InOrder, Prompt;
    if es != [] {
      StepWellFormed(w, es[0]);
      StepBefore(w, es[0]);
      ReachesBefore(Next(w, es[0]), es[1..], w');
    }
  }

  /** And if processes start in the order of the deaths they answer, the process that made the transport
      is the very one that its worker runs on. */
  lemma GuardMeansRunning(n: nat, es: seq<Event>, w: World, sid: SessionId, tid: TransportId)
    requires ReachesPromptly(Start(n), es, w) && AllInOrder(Start(n), es) && Passes(w.s, sid, tid)
    ensures var worker := w.s.transports[tid].worker;
            tid in w.madeOn && worker < |w.processes| && w.madeOn[tid] == w.processes[worker]
  {
    hide ReachesPromptly, AllInOrder, TransportGuard, Placed;
    StartWellFormed(n);
    PromptlyHonest(Start(n), es, w);
    ReachesBefore(Start(n), es, w);
    GuardMeansAlive(n, es, w, sid, tid);
  }

  /** The run in which a router request is sent, its worker dies and recovers, and the dead process
      still answers. */
  function LateRouter(sid: SessionId, worker: nat, tid: TransportId): seq<Event> {
    [BeginTransport(0, sid, 0, 0, Send, false), Died(1, worker), Spawned(1, true), RecoveryDone(1),
     RouterDone(0, true), TransportDone(0, Some(tid))]
  }

  /** Nothing is registered, a router request to the first process of `sid`'s worker is open, and
      perhaps a recovery of that worker. */
  ghost predicate Requested(w: World, n: nat, sid: SessionId, generation: nat, status: WorkerStatus, recovery: map<CallId, Call>) {
    && |w.s.workers| == n > 0 && |w.processes| == n
    && w.s.sessions == map[] && w.s.transports == map[] && w.s.connections == map[]
    && w.s.workers[Pin(sid, n)] == Worker(generation, status, {})
    && w.calls == recovery[0 := AwaitRouter(sid, 0, 0, Send, Pin(sid, n), 1)]
  }

  lemma LateRequest(w: World, n: nat, sid: SessionId, e: Event) returns (w': World)
    requires n > 0 && w == Start(n) && e == BeginTransport(0, sid, 0, 0, Send, false)
    ensures Enabled(w, e) && w' == Next(w, e) && Requested(w', n, sid, 1, WorkerActive, map[])
  {
    assert KeysWhere(w.s.transports, TransportOf(Pin(sid, n))) == {};
    w' := Next(w, e);
  }

  lemma LateDeath(w: World, n: nat, sid: SessionId, e: Event) returns (w': World)
    requires Requested(w, n, sid, 1, WorkerActive, map[]) && e == Died(1, Pin(sid, n))
    ensures Enabled(w, e) && w' == Next(w, e)
    ensures Requested(w', n, sid, 2, WorkerResetting, map[1 := AwaitSpawn(Pin(sid, n), 2, {})])
  {
    w' := Next(w, e);
  }

  lemma LateSpawn(w: World, n: nat, sid: SessionId, e: Event) returns (w': World)
    requires n > 0 && Requested(w, n, sid, 2, WorkerResetting, map[1 := AwaitSpawn(Pin(sid, n), 2, {})]) && e == Spawned(1, true)
    ensures Enabled(w, e) && w' == Next(w, e)
    ensures Requested(w', n, sid, 2, WorkerResetting, map[1 := AwaitRouters(Pin(sid, n), 2, {})])
  {
    assert w.calls[1] == AwaitSpawn(Pin(sid, n), 2, {});
    w' := Next(w, e);
  }

  lemma LateRecovery(w: World, n: nat, sid: SessionId, e: Event) returns (w': World)
    requires n > 0 && Requested(w, n, sid, 2, WorkerResetting, map[1 := AwaitRouters(Pin(sid, n), 2, {})]) && e == RecoveryDone(1)
    ensures Enabled(w, e) && w' == Next(w, e) && Requested(w', n, sid, 2, WorkerActive, map[])
  {
    assert w.calls[1] == AwaitRouters(Pin(sid, n), 2, {});
    w' := Next(w, e);
    assert w'.calls == map[0 := AwaitRouter(sid, 0, 0, Send, Pin(sid, n), 1)];
  }

  lemma LateAnswer(w: World, n: nat, sid: SessionId, tid: TransportId, e: Event, f: Event) returns (w': World, w'': World)
    requires Requested(w, n, sid, 2, WorkerActive, map[]) && e == RouterDone(0, true) && f == TransportDone(0, Some(tid))
    ensures Enabled(w, e) && w' == Next(w, e) && Enabled(w', f) && w'' == Next(w', f)
    ensures |w''.s.workers| == n && Passes(w''.s, sid, tid)
    ensures tid in w''.madeOn && w''.madeOn[tid] < w''.s.workers[Pin(sid, n)].generation
  {
    w' := Next(w, e);
    w'' := Next(w', f);
  }

  /** Without prompt answers the guard lets a transport of a dead process through: the router is
      recorded at the generation that is current when the answer arrives. */
  lemma LateRouterPassesGuard(n: nat, sid: SessionId, tid: TransportId) returns (w: World)
    requires n > 0
    ensures Reaches(Start(n), LateRouter(sid, Pin(sid, n), tid), w)
    ensures |w.s.workers| == n && Passes(w.s, sid, tid)
    ensures tid in w.madeOn && w.madeOn[tid] < w.s.workers[Pin(sid, n)].generation
  {
    hide Next, Enabled, Reaches, Requested, Passes;
    var es := LateRouter(sid, Pin(sid, n), tid);
    var w1 := LateRequest(Start(n), n, sid, es[0]);
    var w2 := LateDeath(w1, n, sid, es[1]);
    var w3 := LateSpawn(w2, n, sid, es[2]);
    var w4 := LateRecovery(w3, n, sid, es[3]);
    var w5, w6 := LateAnswer(w4, n, sid, tid, es[4], es[5]);
    SixSteps(Start(n), es, w1, w2, w3, w4, w5, w6);
    w := w6;
  }

  lemma SixSteps(w0: World, es: seq<Event>, w1: World, w2: World, w3: World, w4: World, w5: World, w6: World)
    requires |es| == 6
    requires Enabled(w0, es[0]) && w1 == Next(w0, es[0]) && Enabled(w1, es[1]) && w2 == Next(w1, es[1])
    requires Enabled(w2, es[2]) && w3 == Next(w2, es[2]) && Enabled(w3, es[3]) && w4 == Next(w3, es[3])
    requires Enabled(w4, es[4]) && w5 == Next(w4, es[4]) && Enabled(w5, es[5]) && w6 == Next(w5, es[5])
    ensures Reaches(w0, es, w6)
  {
    assert Reaches(w6, es[6..], w6);
    assert es[5..][1..] == es[6..] && Reaches(w5, es[5..], w6);
    assert es[4..][1..] == es[5..] && Reaches(w4, es[4..], w6);
    assert es[3..][1..] == es[4..] && Reaches(w3, es[3..], w6);
    assert es[2..][1..] == es[3..] && Reaches(w2, es[2..], w6);
    assert es[1..][1..] == es[2..] && Reaches(w1, es[1..], w6);
  }

  // ----- what straddles an await -----

  /** Whether the step registers a consumer of a producer that has its five viewers by now. */
  predicate OverfillsProducer(w: World, e: Event)
    requires e.ConsumeDone? ==> e.id in w.calls && w.calls[e.id].AwaitConsume?
  {
    e.ConsumeDone? && e.consumerMade.Some? &&
    CountWhere(w.s.consumers, ViewersOf(w.calls[e.id].consumer.producerId)) >= MAX_VIEWERS
  }

  /** Of all steps only the late registration of a consumer can break the viewer cap, and it does so
      exactly when the producer has filled up since the call counted its viewers. */
  lemma StepKeepsCapExactly(w: World, e: Event)
    requires ViewersCapped(w.s.consumers) && Enabled(w, e)
    ensures ViewersCapped(Next(w, e).s.consumers) <==> !OverfillsProducer(w, e)
  {
    hide ViewersCapped, CountWhere;
    match e
    case ConsumeDone(id, made, _) =>
      if made.Some? {
        ViewersCappedInsert(w.s.consumers, made.value, w.calls[id].consumer);
      }
    case Died(_, worker) => ViewersCappedWithout(w.s.consumers, ConsumerOf(worker));
    case FinishTransport(id) => ViewersCappedWithout(w.s.consumers, ConsumerOn({w.calls[id].picked.value.0}));
    case _ => ConsumersUntouched(w, e);
  }

  lemma ConsumersUntouched(w: World, e: Event)
    requires Enabled(w, e) && !e.ConsumeDone? && !e.Died? && !e.FinishTransport?
    ensures Next(w, e).s.consumers == w.s.consumers
  {
    hide CrashMark, FinishTransportOf, InstallConsumer, PlanRouter, BeginConsume, BeginProduce;
    if e.StartProduce? {
      BeginProduceConsumers(w.s, e.sid, e.tid, e.closed, e.user, e.track);
    }
  }

  lemma BeginProduceConsumers(s: State, sid: SessionId, tid: TransportId, closed: bool, user: UserId, track: TrackType)
    ensures BeginProduce(s, sid, tid, closed, user, track).state.consumers == s.consumers
  {
    hide TransportGuard, CountWhere, Without;
  }

  /** Whether the step registers a producer in a slot that a registered one holds by now. */
  ghost predicate SharesSlot(w: World, e: Event)
    requires e.ProduceDone? ==> e.id in w.calls && w.calls[e.id].AwaitProduce?
  {
    e.ProduceDone? && e.producerMade.Some? &&
    var p := w.calls[e.id].producer;
    exists q :: q in w.s.producers && SameSlot(p.sessionId, p.userId, p.trackType)(w.s.producers[q])
  }

  /** Of all steps only the late registration of a producer can put two in one slot, and it does so
      exactly when the slot has been taken since the call emptied it. */
  lemma StepKeepsSlotsExactly(w: World, e: Event)
    requires SlotsUnique(w.s.producers) && Enabled(w, e)
    ensures SlotsUnique(Next(w, e).s.producers) <==> !SharesSlot(w, e)
  {
    hide SlotsUnique;
    if e.ProduceDone? {
      if e.producerMade.Some? {
        SlotsUniqueInsert(w.s.producers, e.producerMade.value, w.calls[e.id].producer);
      }
    } else {
      ProducersOnlyLeave(w, e);
      FewerSlots(w.s.producers, Next(w, e).s.producers);
    }
  }

  lemma FewerSlots(m: map<ProducerId, Producer>, m': map<ProducerId, Producer>)
    requires SlotsUnique(m) && forall p | p in m' :: p in m && m'[p] == m[p]
    ensures SlotsUnique(m')
  {}

  lemma ProducersOnlyLeave(w: World, e: Event)
    requires Enabled(w, e) && !e.ProduceDone?
    ensures forall p | p in Next(w, e).s.producers :: p in w.s.producers && Next(w, e).s.producers[p] == w.s.producers[p]
  {
    hide Guard, CountWhere, KeysWhere, DropConsumers, DropTransports;
  }

  lemma ProduceSuspends(w: World, e: Event)
    requires e.StartProduce? && e.id !in w.calls
    requires BeginProduce(w.s, e.sid, e.tid, e.closed, e.user, e.track).result.Ok?
    ensures Enabled(w, e)
    ensures Next(w, e).s == w.s.(producers := Without(w.s.producers, SameSlot(e.sid, e.user, e.track)))
    ensures exists p: Producer :: SameSlot(e.sid, e.user, e.track)(p) && Next(w, e).calls == w.calls[e.id := AwaitProduce(p)]
  {
    hide TransportGuard, CountWhere;
    var p := Next(w, e).calls[e.id].producer;
    assert SameSlot(e.sid, e.user, e.track)(p) && Next(w, e).calls == w.calls[e.id := AwaitProduce(p)];
  }

  lemma ProduceRegisters(w: World, id: CallId, a: ProducerId)
    requires id in w.calls && w.calls[id].AwaitProduce? && a !in w.s.producers
    ensures Enabled(w, ProduceDone(id, Some(a)))
    ensures Next(w, ProduceDone(id, Some(a))).s.producers == w.s.producers[a := w.calls[id].producer]
    ensures Next(w, ProduceDone(id, Some(a))).calls == w.calls - {id}
  {}

  lemma ConsumeSuspends(w: World, e: Event)
    requires e.StartConsume? && e.id !in w.calls && BeginConsume(w.s, e.sid, e.tid, e.pid, e.answer).Ok?
    ensures Enabled(w, e) && Next(w, e).s == w.s
    ensures exists c: Consumer :: ViewersOf(e.pid)(c) && Next(w, e).calls == w.calls[e.id := AwaitConsume(c)]
  {
    hide TransportGuard, CountWhere;
    var c := Next(w, e).calls[e.id].consumer;
    assert ViewersOf(e.pid)(c) && Next(w, e).calls == w.calls[e.id := AwaitConsume(c)];
  }

  lemma ConsumeRegisters(w: World, id: CallId, a: ConsumerId, current: bool)
    requires id in w.calls && w.calls[id].AwaitConsume? && a !in w.s.consumers
    ensures Enabled(w, ConsumeDone(id, Some(a), current))
    ensures Next(w, ConsumeDone(id, Some(a), current)).s.consumers == w.s.consumers[a := w.calls[id].consumer]
    ensures Next(w, ConsumeDone(id, Some(a), current)).calls == w.calls - {id}
  {}

  /** Two `produce` calls of one user for one track type, both past their guards before either
      resumes, leave two producers in the slot. */
  lemma StraddledProducesShareSlot(w: World, e: Event, f: Event, a: ProducerId, b: ProducerId)
    requires e.StartProduce? && f.StartProduce? && e.id != f.id && e.id !in w.calls && f.id !in w.calls
    requires e.sid == f.sid && e.user == f.user && e.track == f.track
    requires BeginProduce(w.s, e.sid, e.tid, e.closed, e.user, e.track).result.Ok?
    requires BeginProduce(w.s, f.sid, f.tid, f.closed, f.user, f.track).result.Ok?
    requires a != b && a !in w.s.producers && b !in w.s.producers
    ensures Enabled(w, e) && Enabled(Next(w, e), f)
    ensures var both := Next(Next(w, e), f);
            && Enabled(both, ProduceDone(e.id, Some(a)))
            && Enabled(Next(both, ProduceDone(e.id, Some(a))), ProduceDone(f.id, Some(b)))
            && !SlotsUnique(Next(Next(both, ProduceDone(e.id, Some(a))), ProduceDone(f.id, Some(b))).s.producers)
  {
    hide Next, Enabled, BeginProduce, Without;
    ProduceSuspends(w, e);
    SecondProduceBegins(w.s, f.sid, f.tid, f.closed, f.user, f.track);
    ProduceSuspends(Next(w, e), f);
    FewerProducers(w.s.producers, SameSlot(e.sid, e.user, e.track));
    var both := Next(Next(w, e), f);
    ProduceRegisters(both, e.id, a);
    ProduceRegisters(Next(both, ProduceDone(e.id, Some(a))), f.id, b);
    var m := Next(Next(both, ProduceDone(e.id, Some(a))), ProduceDone(f.id, Some(b))).s.producers;
    assert a in m && b in m && SameSlot(e.sid, e.user, e.track)(m[a]) && SameSlot(e.sid, e.user, e.track)(m[b]);
  }

  lemma FewerProducers(m: map<ProducerId, Producer>, gone: Producer -> bool)
    ensures Without(m, gone).Keys <= m.Keys && Without(Without(m, gone), gone) == Without(m, gone)
  {}

  /** The closing of same-type tracks does not change whether a call of that slot begins. */
  lemma SecondProduceBegins(s: State, sid: SessionId, tid: TransportId, closed: bool, user: UserId, track: TrackType)
    requires BeginProduce(s, sid, tid, closed, user, track).result.Ok?
    ensures var s' := s.(producers := Without(s.producers, SameSlot(sid, user, track)));
            && BeginProduce(s', sid, tid, closed, user, track).result.Ok?
            && BeginProduce(s', sid, tid, closed, user, track).state == s'
  {
    var m := s.producers;
    assert KeysWhere(Without(m, SameSlot(sid, user, track)), OtherTracks(sid, user, track)) == KeysWhere(m, OtherTracks(sid, user, track));
    assert Without(Without(m, SameSlot(sid, user, track)), SameSlot(sid, user, track)) == Without(m, SameSlot(sid, user, track));
  }

  /** Two `consume` calls that both count four viewers before either resumes leave six. */
  lemma StraddledConsumesExceedCap(w: World, e: Event, f: Event, a: ConsumerId, b: ConsumerId, current: bool)
    requires e.StartConsume? && f.StartConsume? && e.id != f.id && e.id !in w.calls && f.id !in w.calls && e.pid == f.pid
    requires BeginConsume(w.s, e.sid, e.tid, e.pid, e.answer).Ok? && BeginConsume(w.s, f.sid, f.tid, f.pid, f.answer).Ok?
    requires CountWhere(w.s.consumers, ViewersOf(e.pid)) == MAX_VIEWERS - 1
    requires a != b && a !in w.s.consumers && b !in w.s.consumers
    ensures Enabled(w, e) && Enabled(Next(w, e), f)
    ensures var both := Next(Next(w, e), f);
            && Enabled(both, ConsumeDone(e.id, Some(a), current))
            && Enabled(Next(both, ConsumeDone(e.id, Some(a), current)), ConsumeDone(f.id, Some(b), current))
            && var after := Next(Next(both, ConsumeDone(e.id, Some(a), current)), ConsumeDone(f.id, Some(b), current));
               CountWhere(after.s.consumers, ViewersOf(e.pid)) == MAX_VIEWERS + 1 && !ViewersCapped(after.s.consumers)
  {
    hide Next, Enabled, BeginConsume, CountWhere;
    ConsumeSuspends(w, e);
    ConsumeSuspends(Next(w, e), f);
    var both := Next(Next(w, e), f);
    var c, d := both.calls[e.id].consumer, both.calls[f.id].consumer;
    ConsumeRegisters(both, e.id, a, current);
    ConsumeRegisters(Next(both, ConsumeDone(e.id, Some(a), current)), f.id, b, current);
    CountInsert(w.s.consumers, a, c, ViewersOf(e.pid));
    CountInsert(w.s.consumers[a := c], b, d, ViewersOf(e.pid));
  }

  lemma FinishTransportCounts(s: State, tid: TransportId, t: Transport, d: Direction)
    ensures CountWhere(FinishTransportOf(s, tid, t).transports, Directed(d)) ==
            CountWhere(s.transports, Directed(d)) - (if tid in s.transports && s.transports[tid].direction == d then 1 else 0)
  {
    if tid in s.transports {
      CountDelete(s.transports, tid, Directed(d));
    } else {
      assert s.transports - {tid} == s.transports;
    }
  }

  /** Teardown reads a transport, awaits Redis for each of its producers, and then lowers the
      gauge. The gauge stays right exactly when the transport is still registered by then. */
  lemma TeardownGaugeExactly(s: State, tid: TransportId, t: Transport)
    requires GaugesAgree(s) && (tid in s.transports ==> s.transports[tid] == t)
    ensures GaugesAgree(FinishTransportOf(s, tid, t)) <==> tid in s.transports
  {
    FinishTransportCounts(s, tid, t, Send);
    FinishTransportCounts(s, tid, t, Recv);
    DroppedConsumersCounted(s, ConsumerOn({tid}));
  }
}
