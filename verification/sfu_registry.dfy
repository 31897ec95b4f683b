/** What the SFU manager's registries keep. `Placed` survives every stretch of code between two
    awaits, so it holds in every interleaving; `Agreeing` is what whole operations keep when none
    runs inside another. */
module SfuRegistry {
  import opened Wrappers
  import opened SessionHash
  import opened MapCount
  import opened SfuState

  // ----- what holds in every interleaving -----

  /** An object of session `sid` belongs on worker `w`, made no later than the worker's present generation. */
  predicate At(ws: seq<Worker>, sid: SessionId, w: nat, generation: nat) {
    |ws| > 0 && w == Pin(sid, |ws|) && generation <= ws[w].generation
  }

  ghost predicate AssignedAgree(ws: seq<Worker>, sessions: map<SessionId, Session>) {
    (|ws| == 0 ==> sessions == map[]) &&
    forall i, sid | 0 <= i < |ws| :: sid in ws[i].assignedSessions <==> sid in sessions && Pin(sid, |ws|) == i
  }

  ghost predicate SessionsAt(ws: seq<Worker>, m: map<SessionId, Session>) {
    forall sid | sid in m :: At(ws, sid, m[sid].worker, m[sid].generation)
  }

  ghost predicate TransportsAt(ws: seq<Worker>, m: map<TransportId, Transport>) {
    forall t | t in m :: At(ws, m[t].sessionId, m[t].worker, m[t].generation)
  }

  ghost predicate ProducersAt(ws: seq<Worker>, m: map<ProducerId, Producer>) {
    forall p | p in m :: At(ws, m[p].sessionId, m[p].worker, m[p].generation)
  }

  ghost predicate ConsumersAt(ws: seq<Worker>, m: map<ConsumerId, Consumer>) {
    forall c | c in m :: At(ws, m[c].sessionId, m[c].worker, m[c].generation)
  }

  ghost predicate GaugesAgree(s: State) {
    && s.transportGauge.send == CountWhere(s.transports, Directed(Send))
    && s.transportGauge.recv == CountWhere(s.transports, Directed(Recv))
    && s.consumerGauge.webcam == CountWhere(s.consumers, Tracked(Webcam))
    && s.consumerGauge.microphone == CountWhere(s.consumers, Tracked(Microphone))
    && s.consumerGauge.screen == CountWhere(s.consumers, Tracked(Screen))
  }

  ghost predicate Placed(s: State) {
    && AssignedAgree(s.workers, s.sessions)
    && SessionsAt(s.workers, s.sessions)
    && TransportsAt(s.workers, s.transports)
    && ProducersAt(s.workers, s.producers)
    && ConsumersAt(s.workers, s.consumers)
  }

  /** Generations never go back. */
  predicate NoOlder(ws: seq<Worker>, ws': seq<Worker>) {
    |ws'| == |ws| && forall i | 0 <= i < |ws| :: ws[i].generation <= ws'[i].generation
  }

  lemma PlacedInitial(n: nat)
    ensures Placed(Initial(n)) && GaugesAgree(Initial(n))
  {}

  lemma PlacedInstallRouter(s: State, sid: SessionId, w: nat)
    requires Placed(s) && |s.workers| > 0 && w == Pin(sid, |s.workers|)
    ensures Placed(InstallRouter(s, sid, w)) && NoOlder(s.workers, InstallRouter(s, sid, w).workers)
    ensures GaugesAgree(s) ==> GaugesAgree(InstallRouter(s, sid, w))
  {}

  lemma PlacedInstallTransport(s: State, tid: TransportId, t: Transport)
    requires Placed(s) && tid !in s.transports && At(s.workers, t.sessionId, t.worker, t.generation)
    ensures Placed(InstallTransport(s, tid, t))
    ensures GaugesAgree(s) ==> GaugesAgree(InstallTransport(s, tid, t))
  {
    CountInsert(s.transports, tid, t, Directed(Send));
    CountInsert(s.transports, tid, t, Directed(Recv));
  }

  lemma PlacedForgetTransport(s: State, tid: TransportId)
    requires Placed(s) && tid in s.transports
    ensures Placed(ForgetTransport(s, tid))
    ensures GaugesAgree(s) ==> GaugesAgree(ForgetTransport(s, tid))
  {
    CountDelete(s.transports, tid, Directed(Send));
    CountDelete(s.transports, tid, Directed(Recv));
  }

  lemma PlacedDropProducers(s: State, gone: Producer -> bool)
    requires Placed(s)
    ensures Placed(s.(producers := Without(s.producers, gone)))
    ensures GaugesAgree(s) ==> GaugesAgree(s.(producers := Without(s.producers, gone)))
  {}

  lemma PlacedBeginProduce(s: State, sid: SessionId, tid: TransportId, closed: bool, user: UserId, track: TrackType)
    requires Placed(s)
    ensures var b := BeginProduce(s, sid, tid, closed, user, track);
            Placed(b.state) && (GaugesAgree(s) ==> GaugesAgree(b.state))
  {
    PlacedDropProducers(s, SameSlot(sid, user, track));
  }

  lemma PlacedInstallProducer(s: State, pid: ProducerId, p: Producer)
    requires Placed(s) && At(s.workers, p.sessionId, p.worker, p.generation)
    ensures Placed(InstallProducer(s, pid, p))
    ensures GaugesAgree(s) ==> GaugesAgree(InstallProducer(s, pid, p))
  {}

  lemma PlacedCloseProducer(s: State, pid: ProducerId)
    requires Placed(s)
    ensures Placed(CloseProducer(s, pid))
    ensures GaugesAgree(s) ==> GaugesAgree(CloseProducer(s, pid))
  {}

  lemma PlacedInstallConsumer(s: State, cid: ConsumerId, c: Consumer, current: bool)
    requires Placed(s) && cid !in s.consumers && At(s.workers, c.sessionId, c.worker, c.generation)
    ensures Placed(InstallConsumer(s, cid, c, current))
    ensures GaugesAgree(s) ==> GaugesAgree(InstallConsumer(s, cid, c, current))
  {
    CountInsert(s.consumers, cid, c, Tracked(Webcam));
    CountInsert(s.consumers, cid, c, Tracked(Microphone));
    CountInsert(s.consumers, cid, c, Tracked(Screen));
  }

  lemma DroppedTransportsCounted(s: State, gone: Transport -> bool)
    requires GaugesAgree(s)
    ensures DropTransports(s.transportGauge, s.transports, gone) ==
            TransportGauge(CountWhere(Without(s.transports, gone), Directed(Send)),
                           CountWhere(Without(s.transports, gone), Directed(Recv)))
  {
    CountWithout(s.transports, gone, Directed(Send));
    CountWithout(s.transports, gone, Directed(Recv));
  }

  lemma DroppedConsumersCounted(s: State, gone: Consumer -> bool)
    requires GaugesAgree(s)
    ensures DropConsumers(s.consumerGauge, s.consumers, gone) ==
            ConsumerGauge(CountWhere(Without(s.consumers, gone), Tracked(Webcam)),
                          CountWhere(Without(s.consumers, gone), Tracked(Microphone)),
                          CountWhere(Without(s.consumers, gone), Tracked(Screen)))
  {
    CountWithout(s.consumers, gone, Tracked(Webcam));
    CountWithout(s.consumers, gone, Tracked(Microphone));
    CountWithout(s.consumers, gone, Tracked(Screen));
  }

  lemma SessionsAtLater(ws: seq<Worker>, ws': seq<Worker>, m: map<SessionId, Session>, m': map<SessionId, Session>)
    requires SessionsAt(ws, m) && NoOlder(ws, ws')
    requires forall sid | sid in m' :: sid in m && m'[sid].worker == m[sid].worker && m'[sid].generation == m[sid].generation
    ensures SessionsAt(ws', m')
  {}

  lemma ObjectsAtLater(s: State, ws': seq<Worker>, w: nat)
    requires Placed(s) && NoOlder(s.workers, ws')
    ensures TransportsAt(ws', Without(s.transports, TransportOf(w)))
    ensures ProducersAt(ws', Without(s.producers, ProducerOf(w)))
    ensures ConsumersAt(ws', Without(s.consumers, ConsumerOf(w)))
  {}

  lemma AssignedLater(ws: seq<Worker>, ws': seq<Worker>, m: map<SessionId, Session>, m': map<SessionId, Session>)
    requires AssignedAgree(ws, m) && |ws'| == |ws| && m'.Keys == m.Keys
    requires forall i | 0 <= i < |ws| :: ws'[i].assignedSessions == ws[i].assignedSessions
    ensures AssignedAgree(ws', m')
  {}

  lemma GaugesCrashMark(s: State, w: nat)
    requires GaugesAgree(s) && w < |s.workers|
    ensures GaugesAgree(CrashMark(s, w))
  {
    DroppedTransportsCounted(s, TransportOf(w));
    DroppedConsumersCounted(s, ConsumerOf(w));
  }

  lemma PlacedCrashMark(s: State, w: nat)
    requires Placed(s) && w < |s.workers|
    ensures Placed(CrashMark(s, w)) && NoOlder(s.workers, CrashMark(s, w).workers)
  {
    var s' := CrashMark(s, w);
    ObjectsAtLater(s, s'.workers, w);
    SessionsAtLater(s.workers, s'.workers, s.sessions, s'.sessions);
    AssignedLater(s.workers, s'.workers, s.sessions, s'.sessions);
  }

  lemma PlacedRecoverSession(s: State, sid: SessionId, w: nat, epoch: nat)
    requires Placed(s) && sid in s.sessions && At(s.workers, sid, w, epoch)
    ensures Placed(RecoverSession(s, sid, w, epoch))
    ensures GaugesAgree(s) ==> GaugesAgree(RecoverSession(s, sid, w, epoch))
  {}

  lemma PlacedRecoverSessions(s: State, sids: set<SessionId>, w: nat, epoch: nat)
    requires Placed(s) && forall sid | sid in sids :: sid in s.sessions && At(s.workers, sid, w, epoch)
    ensures Placed(RecoverSessions(s, sids, w, epoch))
    ensures GaugesAgree(s) ==> GaugesAgree(RecoverSessions(s, sids, w, epoch))
  {}

  lemma PlacedSetWorkerStatus(s: State, w: nat, status: WorkerStatus)
    requires Placed(s) && w < |s.workers|
    ensures Placed(SetWorkerStatus(s, w, status)) && NoOlder(s.workers, SetWorkerStatus(s, w, status).workers)
    ensures GaugesAgree(s) ==> GaugesAgree(SetWorkerStatus(s, w, status))
  {}

  lemma GaugesStrip(s: State, ts: set<TransportId>)
    requires GaugesAgree(s)
    ensures GaugesAgree(Strip(s, ts))
  {
    hide StrippedSessions;
    CountMinus(s.transports, ts, Directed(Send));
    CountMinus(s.transports, ts, Directed(Recv));
    DroppedConsumersCounted(s, ConsumerOn(ts));
  }

  lemma PlacedStrip(s: State, ts: set<TransportId>)
    requires Placed(s)
    ensures Placed(Strip(s, ts))
    ensures GaugesAgree(s) ==> GaugesAgree(Strip(s, ts))
  {
    hide GaugesAgree, CountIn, DropConsumers, KeysWhere;
    if GaugesAgree(s) {
      GaugesStrip(s, ts);
    }
  }

  // ----- what whole operations keep -----

  /** Every transport belongs to a known session, and the transports that an ACTIVE session lists
      are the registry's for that session. */
  ghost predicate TransportsMirrored(sessions: map<SessionId, Session>, m: map<TransportId, Transport>) {
    && (forall t | t in m :: m[t].sessionId in sessions)
    && (forall sid | sid in sessions && sessions[sid].status == SessionActive ::
          sessions[sid].transports == Where(m, TransportIn(sid)))
  }

  ghost predicate ConsumersMirrored(sessions: map<SessionId, Session>, m: map<ConsumerId, Consumer>) {
    && (forall c | c in m :: m[c].sessionId in sessions)
    && (forall sid | sid in sessions && sessions[sid].status == SessionActive ::
          sessions[sid].consumers == Where(m, ConsumerIn(sid)))
  }

  ghost predicate Mirrored(s: State) {
    TransportsMirrored(s.sessions, s.transports) && ConsumersMirrored(s.sessions, s.consumers)
  }

  /** No worker is left in mid-recovery, and an ACTIVE session is at its worker's generation. */
  ghost predicate EpochsAgree(ws: seq<Worker>, sessions: map<SessionId, Session>) {
    && (forall i | 0 <= i < |ws| :: ws[i].status != WorkerResetting)
    && (forall sid | sid in sessions && sessions[sid].status == SessionActive :: Now(ws, sid, sessions[sid].generation))
  }

  predicate Now(ws: seq<Worker>, sid: SessionId, generation: nat) {
    |ws| > 0 && generation == ws[Pin(sid, |ws|)].generation
  }

  /** Every registered object carries its worker's present generation: the older ones were scrubbed. */
  ghost predicate TransportsNow(ws: seq<Worker>, m: map<TransportId, Transport>) {
    forall t | t in m :: Now(ws, m[t].sessionId, m[t].generation)
  }

  ghost predicate ProducersNow(ws: seq<Worker>, m: map<ProducerId, Producer>) {
    forall p | p in m :: Now(ws, m[p].sessionId, m[p].generation)
  }

  ghost predicate ConsumersNow(ws: seq<Worker>, m: map<ConsumerId, Consumer>) {
    forall c | c in m :: Now(ws, m[c].sessionId, m[c].generation)
  }

  ghost predicate Settled(s: State) {
    && EpochsAgree(s.workers, s.sessions) && TransportsNow(s.workers, s.transports)
    && ProducersNow(s.workers, s.producers) && ConsumersNow(s.workers, s.consumers)
  }

  ghost predicate SlotsUnique(m: map<ProducerId, Producer>) {
    forall p, q | p in m && q in m && p != q && m[p].sessionId == m[q].sessionId && m[p].userId == m[q].userId ::
      m[p].trackType != m[q].trackType
  }

  ghost predicate ViewersCapped(m: map<ConsumerId, Consumer>) {
    forall pid: ProducerId :: CountWhere(m, ViewersOf(pid)) <= MAX_VIEWERS
  }

  /** The connection index lists every registered transport, under its own connection only. */
  ghost predicate Indexed(m: map<TransportId, Transport>, index: map<ConnectionId, set<TransportId>>) {
    && (forall t | t in m :: t in Get(index, m[t].connectionId))
    && (forall conn, t | conn in index && t in index[conn] && t in m :: m[t].connectionId == conn)
  }

  /** Everything that whole operations keep, whatever mediasoup answers. */
  ghost predicate Sound(s: State) {
    && Placed(s) && GaugesAgree(s) && Settled(s)
    && SlotsUnique(s.producers) && ViewersCapped(s.consumers) && Indexed(s.transports, s.connections)
  }

  lemma SoundInitial(n: nat)
    ensures Sound(Initial(n)) && Mirrored(Initial(n))
  {
    PlacedInitial(n);
  }

  lemma SettledInstallRouter(s: State, sid: SessionId, w: nat)
    requires Settled(s) && |s.workers| > 0 && w == Pin(sid, |s.workers|)
    ensures Settled(InstallRouter(s, sid, w))
  {
    var s' := InstallRouter(s, sid, w);
    assert forall i | 0 <= i < |s.workers| :: s'.workers[i].generation == s.workers[i].generation;
  }

  lemma RouterObjects(s: State, sid: SessionId, routerClosed: bool, routerCreated: bool)
    ensures var s' := GetOrCreateRouter(s, sid, routerClosed, routerCreated).state;
            && s'.transports == s.transports && s'.producers == s.producers && s'.consumers == s.consumers
            && s'.connections == s.connections
  {}

  /** The router a transport is made on belongs to the pinned worker at its present generation. */
  lemma SoundGetOrCreateRouter(s: State, sid: SessionId, routerClosed: bool, routerCreated: bool)
    requires Sound(s)
    ensures var r := GetOrCreateRouter(s, sid, routerClosed, routerCreated);
            && Sound(r.state) && r.state.transports == s.transports && r.state.connections == s.connections
            && (r.result.Ok? ==> At(r.state.workers, sid, r.result.value.worker, r.result.value.generation)
                                 && Now(r.state.workers, sid, r.result.value.generation))
  {
    var plan := PlanRouter(s, sid, routerClosed);
    if plan.Ok? && plan.value.Create? && routerCreated {
      PlacedInstallRouter(s, sid, plan.value.worker);
      SettledInstallRouter(s, sid, plan.value.worker);
    }
  }

  ghost predicate FreshTransport(s: State, tid: TransportId) {
    tid !in s.transports && forall conn | conn in s.connections :: tid !in s.connections[conn]
  }

  lemma IndexedInsert(m: map<TransportId, Transport>, index: map<ConnectionId, set<TransportId>>, tid: TransportId, t: Transport)
    requires Indexed(m, index) && tid !in m && forall conn | conn in index :: tid !in index[conn]
    ensures Indexed(m[tid := t], index[t.connectionId := Get(index, t.connectionId) + {tid}])
  {}

  lemma SettledInstallTransport(s: State, tid: TransportId, t: Transport)
    requires Settled(s) && Now(s.workers, t.sessionId, t.generation)
    ensures Settled(InstallTransport(s, tid, t))
  {}

  lemma SoundInstallTransport(s: State, tid: TransportId, t: Transport)
    requires Sound(s) && FreshTransport(s, tid)
    requires At(s.workers, t.sessionId, t.worker, t.generation) && Now(s.workers, t.sessionId, t.generation)
    ensures Sound(InstallTransport(s, tid, t))
  {
    PlacedInstallTransport(s, tid, t);
    SettledInstallTransport(s, tid, t);
    IndexedInsert(s.transports, s.connections, tid, t);
  }

  lemma SoundCreateTransport(s: State, sid: SessionId, conn: ConnectionId, user: UserId, dir: Direction, answer: TransportAnswer)
    requires Sound(s) && (answer.created.Some? ==> FreshTransport(s, answer.created.value))
    ensures Sound(CreateTransport(s, sid, conn, user, dir, answer).state)
  {
    SoundGetOrCreateRouter(s, sid, answer.routerClosed, answer.routerCreated);
    var r := GetOrCreateRouter(s, sid, answer.routerClosed, answer.routerCreated);
    if r.result.Ok? && answer.created.Some? {
      SoundInstallTransport(r.state, answer.created.value,
                            Transport(sid, r.result.value.worker, r.result.value.generation, conn, user, dir));
    }
  }

  lemma SoundCloseTransport(s: State, tid: TransportId)
    requires Sound(s)
    ensures Sound(CloseTransport(s, tid).0)
  {
    hide Placed, GaugesAgree, Settled, Indexed, ViewersCapped, SlotsUnique;
    if tid in s.transports {
      PlacedForgetTransport(s, tid);
      SettledForgetTransport(s, tid);
    }
  }

  lemma SettledForgetTransport(s: State, tid: TransportId)
    requires tid in s.transports && Settled(s) && Indexed(s.transports, s.connections)
    ensures Settled(ForgetTransport(s, tid)) && Indexed(s.transports - {tid}, s.connections)
  {}

  lemma SoundDropProducers(s: State, gone: Producer -> bool)
    requires Sound(s)
    ensures Sound(s.(producers := Without(s.producers, gone)))
  {
    PlacedDropProducers(s, gone);
  }

  /** A new producer keeps its slot unique exactly when no registered one holds the slot. */
  lemma SlotsUniqueInsert(m: map<ProducerId, Producer>, pid: ProducerId, p: Producer)
    requires SlotsUnique(m) && pid !in m
    ensures SlotsUnique(m[pid := p]) <==>
            forall q | q in m :: !SameSlot(p.sessionId, p.userId, p.trackType)(m[q])
  {
    var m' := m[pid := p];
    if q :| q in m && SameSlot(p.sessionId, p.userId, p.trackType)(m[q]) {
      assert pid in m' && q in m' && m'[q] == m[q] && m'[pid] == p;
    }
  }

  lemma SoundInstallProducer(s: State, pid: ProducerId, p: Producer)
    requires Sound(s) && pid !in s.producers
    requires At(s.workers, p.sessionId, p.worker, p.generation) && Now(s.workers, p.sessionId, p.generation)
    requires forall q | q in s.producers :: !SameSlot(p.sessionId, p.userId, p.trackType)(s.producers[q])
    ensures Sound(InstallProducer(s, pid, p))
  {
    PlacedInstallProducer(s, pid, p);
    SlotsUniqueInsert(s.producers, pid, p);
    assert Settled(InstallProducer(s, pid, p));
  }

  /** A transport that passes the guard sits where the named session's objects belong. */
  lemma GuardedTransport(s: State, sid: SessionId, t: Transport)
    requires TransportGuard(s, sid, t).Ok?
    ensures |s.workers| > 0 && t.worker == Pin(sid, |s.workers|) && t.generation >= s.workers[t.worker].generation
  {}

  lemma SoundProduce(s: State, sid: SessionId, tid: TransportId, closed: bool, kind: Kind, track: TrackType,
                     conn: ConnectionId, user: UserId, created: Option<ProducerId>)
    requires Sound(s) && (created.Some? ==> created.value !in s.producers)
    ensures Sound(Produce(s, sid, tid, closed, kind, track, conn, user, created).state)
  {
    hide InstallProducer, CountWhere;
    var b := BeginProduce(s, sid, tid, closed, user, track);
    SoundDropProducers(s, SameSlot(sid, user, track));
    if b.result.Ok? && created.Some? {
      var t := b.result.value;
      GuardedTransport(s, sid, t);
      SoundInstallProducer(b.state, created.value, Producer(sid, tid, t.worker, t.generation, track, kind, conn, user));
    }
  }

  lemma SoundCloseProducer(s: State, pid: ProducerId)
    requires Sound(s)
    ensures Sound(CloseProducer(s, pid))
  {
    PlacedCloseProducer(s, pid);
    assert Settled(CloseProducer(s, pid));
  }

  /** A new consumer keeps the viewer cap exactly when its producer has fewer than five. */
  lemma ViewersCappedInsert(m: map<ConsumerId, Consumer>, cid: ConsumerId, c: Consumer)
    requires ViewersCapped(m) && cid !in m
    ensures ViewersCapped(m[cid := c]) <==> CountWhere(m, ViewersOf(c.producerId)) < MAX_VIEWERS
  {
    CountInsert(m, cid, c, ViewersOf(c.producerId));
    forall pid: ProducerId | pid != c.producerId ensures CountWhere(m[cid := c], ViewersOf(pid)) <= MAX_VIEWERS {
      CountInsert(m, cid, c, ViewersOf(pid));
    }
  }

  lemma ViewersCappedWithout(m: map<ConsumerId, Consumer>, gone: Consumer -> bool)
    requires ViewersCapped(m)
    ensures ViewersCapped(Without(m, gone))
  {
    forall pid: ProducerId ensures CountWhere(Without(m, gone), ViewersOf(pid)) <= MAX_VIEWERS {
      CountWithout(m, gone, ViewersOf(pid));
    }
  }

  lemma SoundInstallConsumer(s: State, cid: ConsumerId, c: Consumer)
    requires Sound(s) && cid !in s.consumers
    requires At(s.workers, c.sessionId, c.worker, c.generation) && Now(s.workers, c.sessionId, c.generation)
    requires CountWhere(s.consumers, ViewersOf(c.producerId)) < MAX_VIEWERS
    ensures Sound(InstallConsumer(s, cid, c, true))
  {
    PlacedInstallConsumer(s, cid, c, true);
    ViewersCappedInsert(s.consumers, cid, c);
    assert Settled(InstallConsumer(s, cid, c, true));
  }

  lemma SoundConsume(s: State, sid: SessionId, tid: TransportId, pid: ProducerId,
                     conn: ConnectionId, user: UserId, answer: ConsumeAnswer)
    requires Sound(s) && (answer.created.Some? ==> answer.created.value !in s.consumers)
    ensures Sound(Consume(s, sid, tid, pid, conn, user, answer).state)
  {
    var b := BeginConsume(s, sid, tid, pid, answer);
    if b.Ok? && answer.created.Some? {
      GuardedTransport(s, sid, b.value);
      SoundInstallConsumer(s, answer.created.value,
                           Consumer(sid, tid, pid, b.value.worker, b.value.generation, s.producers[pid].trackType, conn, user));
    }
  }

  lemma SettledStrip(s: State, ts: set<TransportId>)
    requires Settled(s)
    ensures Settled(Strip(s, ts))
  {
    var s' := Strip(s, ts);
    assert EpochsAgree(s'.workers, s'.sessions);
  }

  lemma IndexedTeardown(m: map<TransportId, Transport>, index: map<ConnectionId, set<TransportId>>, conn: ConnectionId)
    requires Indexed(m, index)
    ensures Indexed(m - Get(index, conn) * m.Keys, index - {conn})
  {}

  lemma IndexedForget(m: map<TransportId, Transport>, index: map<ConnectionId, set<TransportId>>, conn: ConnectionId)
    requires Indexed(m, index) && Get(index, conn) == {}
    ensures Indexed(m, index - {conn})
  {}

  lemma SoundStrip(s: State, ts: set<TransportId>, index: map<ConnectionId, set<TransportId>>)
    requires Sound(s) && Indexed(s.transports - ts, index)
    ensures Sound(Strip(s, ts).(connections := index))
  {
    PlacedStrip(s, ts);
    SettledStrip(s, ts);
    ViewersCappedWithout(s.consumers, ConsumerOn(ts));
    assert SlotsUnique(Without(s.producers, ProducerOn(ts)));
  }

  lemma SoundTeardown(s: State, conn: ConnectionId)
    requires Sound(s)
    ensures Sound(Teardown(s, conn))
  {
    if Get(s.connections, conn) == {} {
      IndexedForget(s.transports, s.connections, conn);
    } else {
      IndexedTeardown(s.transports, s.connections, conn);
      SoundStrip(s, Owned(s, conn), s.connections - {conn});
    }
  }

  /** Two worker tables that differ at most at `w`. */
  predicate OnlyAt(ws: seq<Worker>, ws': seq<Worker>, w: nat) {
    |ws'| == |ws| && forall i | 0 <= i < |ws| && i != w :: ws'[i] == ws[i]
  }

  lemma NowElsewhere(ws: seq<Worker>, ws': seq<Worker>, w: nat, sid: SessionId, generation: nat)
    requires OnlyAt(ws, ws', w) && Now(ws, sid, generation) && Pin(sid, |ws|) != w
    ensures Now(ws', sid, generation)
  {}

  lemma ObjectsNowElsewhere(s: State, ws: seq<Worker>, w: nat)
    requires Placed(s) && Settled(s) && OnlyAt(s.workers, ws, w)
    ensures TransportsNow(ws, Without(s.transports, TransportOf(w)))
    ensures ProducersNow(ws, Without(s.producers, ProducerOf(w)))
    ensures ConsumersNow(ws, Without(s.consumers, ConsumerOf(w)))
  {}

  lemma SessionsNowAfter(s: State, w: nat, answer: RecoveryAnswer)
    requires Placed(s) && Settled(s) && w < |s.workers|
    ensures var s' := WorkerDied(s, w, answer); EpochsAgree(s'.workers, s'.sessions)
  {
    var s' := WorkerDied(s, w, answer);
    forall sid | sid in s'.sessions && s'.sessions[sid].status == SessionActive
      ensures Now(s'.workers, sid, s'.sessions[sid].generation)
    {
      if Pin(sid, |s.workers|) != w {
        assert sid !in s.workers[w].assignedSessions;
        NowElsewhere(s.workers, s'.workers, w, sid, s'.sessions[sid].generation);
      } else {
        assert sid in s.workers[w].assignedSessions;
      }
    }
  }

  lemma SettledWorkerDied(s: State, w: nat, answer: RecoveryAnswer)
    requires Placed(s) && Settled(s) && w < |s.workers|
    ensures Settled(WorkerDied(s, w, answer))
  {
    ObjectsNowElsewhere(s, WorkerDied(s, w, answer).workers, w);
    SessionsNowAfter(s, w, answer);
  }

  /** The sessions of a crashed worker are still known, and on it. */
  lemma AffectedPlaced(s: State, w: nat)
    requires Placed(s) && w < |s.workers|
    ensures var marked := CrashMark(s, w);
            |marked.workers| == |s.workers| && forall sid | sid in s.workers[w].assignedSessions ::
              sid in marked.sessions && At(marked.workers, sid, w, s.workers[w].generation + 1)
  {}

  lemma RecoverKeepsPool(s: State, sids: set<SessionId>, worker: nat, epoch: nat)
    ensures RecoverSessions(s, sids, worker, epoch).workers == s.workers
  {}

  lemma PlacedWorkerDied(s: State, w: nat, answer: RecoveryAnswer)
    requires Placed(s) && GaugesAgree(s) && w < |s.workers|
    ensures Placed(WorkerDied(s, w, answer)) && GaugesAgree(WorkerDied(s, w, answer))
  {
    hide Placed, GaugesAgree, CrashMark, RecoverSessions, SetWorkerStatus, At;
    PlacedCrashMark(s, w);
    GaugesCrashMark(s, w);
    AffectedPlaced(s, w);
    var marked := CrashMark(s, w);
    if answer.spawned {
      var sids := s.workers[w].assignedSessions * answer.routed;
      var epoch := s.workers[w].generation + 1;
      PlacedRecoverSessions(marked, sids, w, epoch);
      RecoverKeepsPool(marked, sids, w, epoch);
      PlacedSetWorkerStatus(RecoverSessions(marked, sids, w, epoch), w, WorkerActive);
    } else {
      PlacedSetWorkerStatus(marked, w, WorkerDead);
    }
  }

  lemma SoundWorkerDied(s: State, w: nat, answer: RecoveryAnswer)
    requires Sound(s)
    ensures Sound(WorkerDied(s, w, answer))
  {
    if w < |s.workers| {
      PlacedWorkerDied(s, w, answer);
      SettledWorkerDied(s, w, answer);
      ViewersCappedWithout(s.consumers, ConsumerOf(w));
    }
  }
}
