/** What the SFU manager serves and what it refuses, said over workers, sessions and transports, and
    not over the order in which the code asks. */
module SfuService {
  import opened Wrappers
  import opened SessionHash
  import opened MapCount
  import opened SfuState
  import opened SfuRegistry
  import opened SfuTheorems
  import opened SfuRuns
  import opened SfuFencing
  import opened SfuFencingTheorems

  /** The session's worker runs, and the session does not wait for a recovery. */
  predicate Serving(s: State, sid: SessionId) {
    |s.workers| > 0 && s.workers[Pin(sid, |s.workers|)].status == WorkerActive
    && (sid in s.sessions ==> s.sessions[sid].status == SessionActive)
  }

  /** The generation at which the session's worker runs now. */
  function PresentGeneration(s: State, sid: SessionId): nat
    requires |s.workers| > 0
  {
    s.workers[Pin(sid, |s.workers|)].generation
  }

  /** The transport was recorded on the session's worker at its present generation. */
  predicate Present(s: State, sid: SessionId, t: Transport)
    requires |s.workers| > 0
  {
    t.worker == Pin(sid, |s.workers|) && t.generation == PresentGeneration(s, sid)
  }

  /** When the guard gives which of its answers. */
  lemma GuardAnswers(s: State, sid: SessionId, worker: Option<nat>, generation: Option<nat>)
    ensures var r := Guard(s, sid, worker, generation);
            && (r == Err(NoWorkers) <==> |s.workers| == 0)
            && (|s.workers| > 0 ==>
                  var pin, present := Pin(sid, |s.workers|), PresentGeneration(s, sid);
                  var right, current := (worker.Some? ==> worker.value == pin), (generation.Some? ==> generation.value >= present);
                  && (r.Ok? <==> Serving(s, sid) && right && current) && (r.Ok? ==> r.value == pin)
                  && (r == Err(MediaSfuUnavailable) <==> s.workers[pin].status == WorkerDead)
                  && (r == Err(MediaWorkerMismatch) <==> Serving(s, sid) && !right)
                  && (r == Err(MediaSessionResetting(pin, present)) <==>
                        s.workers[pin].status != WorkerDead && (!Serving(s, sid) || (right && !current))))
  {}

  lemma GuardsExactly(s: State, sid: SessionId, t: Transport)
    requires At(s.workers, t.sessionId, t.worker, t.generation)
    ensures TransportGuard(s, sid, t).Ok? <==> Serving(s, sid) && Present(s, sid, t)
  {
    GuardAnswers(s, sid, Some(t.worker), Some(t.generation));
  }

  // ----- every interleaving -----

  lemma RegisteredPlaced(n: nat, es: seq<Event>, w: World, tid: TransportId)
    requires Reaches(Start(n), es, w) && tid in w.s.transports
    ensures var t := w.s.transports[tid]; At(w.s.workers, t.sessionId, t.worker, t.generation)
  {
    StartWellFormed(n);
    ReachesWellFormed(Start(n), es, w);
  }

  /** `connectTransport` in every interleaving: served exactly for a registered, open transport of the
      running process of a worker and session in service; otherwise refused with the reason. */
  lemma ConnectExactly(n: nat, es: seq<Event>, w: World, tid: TransportId, closed: bool, connected: bool)
    requires Reaches(Start(n), es, w)
    ensures var s, r := w.s, ConnectTransport(w.s, tid, closed, connected);
            && (r == Err(TransportNotFound) <==> tid !in s.transports || closed)
            && (tid in s.transports ==>
                  var t := s.transports[tid];
                  && |s.workers| > 0 && t.worker == Pin(t.sessionId, |s.workers|)
                  && (r.Ok? <==> !closed && connected && Serving(s, t.sessionId) && Present(s, t.sessionId, t))
                  && (r == Err(MediasoupFailure) <==> !closed && !connected && Serving(s, t.sessionId) && Present(s, t.sessionId, t))
                  && (r == Err(MediaSfuUnavailable) <==> !closed && s.workers[t.worker].status == WorkerDead)
                  && (r == Err(MediaSessionResetting(t.worker, PresentGeneration(s, t.sessionId))) <==>
                        !closed && s.workers[t.worker].status != WorkerDead
                        && (!Serving(s, t.sessionId) || t.generation < PresentGeneration(s, t.sessionId))))
  {
    hide Guard, Reaches, Serving;
    if tid in w.s.transports {
      var t := w.s.transports[tid];
      RegisteredPlaced(n, es, w, tid);
      GuardAnswers(w.s, t.sessionId, Some(t.worker), Some(t.generation));
    }
  }

  /** `produce` up to its await, in every interleaving: when it is let through, and what it has closed
      by then. */
  lemma ProduceExactly(n: nat, es: seq<Event>, w: World, sid: SessionId, tid: TransportId, closed: bool, user: UserId, track: TrackType)
    requires Reaches(Start(n), es, w)
    ensures var s, b := w.s, BeginProduce(w.s, sid, tid, closed, user, track);
            var guarded := tid in s.transports && !closed && s.transports[tid].direction == Send
                           && Serving(s, sid) && Present(s, sid, s.transports[tid]);
            && (b.result.Ok? <==> guarded && CountWhere(s.producers, OtherTracks(sid, user, track)) < MAX_PRODUCERS)
            && (b.result.Ok? ==> b.result.value == s.transports[tid])
            && (b.result == Err(InvalidDirection) <==> tid in s.transports && !closed && s.transports[tid].direction != Send)
            && (b.result == Err(MaxProducersExceeded) <==>
                  guarded && CountWhere(s.producers, OtherTracks(sid, user, track)) >= MAX_PRODUCERS)
            && b.state == s.(producers := b.state.producers)
            && (forall p ::
                  p in b.state.producers <==> (p in s.producers && !(guarded && SameSlot(sid, user, track)(s.producers[p]))))
            && forall p | p in b.state.producers :: b.state.producers[p] == s.producers[p]
  {
    hide Guard, Reaches, Serving, CountWhere;
    if tid in w.s.transports {
      RegisteredPlaced(n, es, w, tid);
      GuardsExactly(w.s, sid, w.s.transports[tid]);
      GuardAnswers(w.s, sid, Some(w.s.transports[tid].worker), Some(w.s.transports[tid].generation));
    }
  }

  /** `consume` up to its await, in every interleaving. */
  lemma ConsumeExactly(n: nat, es: seq<Event>, w: World, sid: SessionId, tid: TransportId, pid: ProducerId, answer: ConsumeAnswer)
    requires Reaches(Start(n), es, w)
    ensures var s, r := w.s, BeginConsume(w.s, sid, tid, pid, answer);
            var guarded := tid in s.transports && !answer.transportClosed && s.transports[tid].direction == Recv
                           && Serving(s, sid) && Present(s, sid, s.transports[tid]);
            var found := guarded && sid in s.sessions && pid in s.producers && !answer.producerClosed;
            var full := CountWhere(s.consumers, ViewersOf(pid)) >= MAX_VIEWERS;
            && (r.Ok? <==> found && answer.canConsume && !full) && (r.Ok? ==> r.value == s.transports[tid])
            && (r == Err(InvalidDirection) <==>
                  tid in s.transports && !answer.transportClosed && s.transports[tid].direction != Recv)
            && (r == Err(SessionNotFound) <==> guarded && sid !in s.sessions)
            && (r == Err(ProducerNotFound) <==> guarded && sid in s.sessions && (pid !in s.producers || answer.producerClosed))
            && (r == Err(CannotConsume) <==> found && !answer.canConsume)
            && (r == Err(MaxViewersExceeded) <==> found && answer.canConsume && full)
  {
    hide Guard, Reaches, Serving, CountWhere;
    if tid in w.s.transports {
      RegisteredPlaced(n, es, w, tid);
      GuardsExactly(w.s, sid, w.s.transports[tid]);
      GuardAnswers(w.s, sid, Some(w.s.transports[tid].worker), Some(w.s.transports[tid].generation));
    }
  }

  /** A transport recorded before a death of its worker is connected, published on and watched through
      never again, in whatever session's name, however calls and recoveries interleave. */
  lemma NeverServedAgain(n: nat, before: seq<Event>, w: World, after: seq<Event>, w': World, t: Transport, tid: TransportId,
                         sid: SessionId, closed: bool, connected: bool, user: UserId, track: TrackType, pid: ProducerId,
                         answer: ConsumeAnswer)
    requires Reaches(Start(n), before, w) && Reaches(w, after, w')
    requires RecordedIn(w, t) && Deaths(after, t.worker) > 0
    requires tid in w'.s.transports && w'.s.transports[tid] == t
    ensures ConnectTransport(w'.s, tid, closed, connected).Err?
    ensures BeginProduce(w'.s, sid, tid, closed, user, track).result.Err?
    ensures BeginConsume(w'.s, sid, tid, pid, answer).Err?
  {
    hide Guard, Reaches, Deaths, RecordedIn, CountWhere;
    FencedForever(n, before, w, after, w', t, sid);
    FencedForever(n, before, w, after, w', t, t.sessionId);
  }

  // ----- whole operations on a sound state -----

  /** The router of a session: when there is one, and that it is at the worker's present generation. */
  lemma RouterExactly(s: State, sid: SessionId, routerClosed: bool, routerCreated: bool)
    requires Sound(s)
    ensures var r := GetOrCreateRouter(s, sid, routerClosed, routerCreated);
            var kept := sid in s.sessions && !routerClosed;
            && (r.result.Ok? <==>
                  Serving(s, sid)
                  && (kept || (routerCreated && CountWhere(s.transports, TransportOf(Pin(sid, |s.workers|))) < MAX_TRANSPORTS_PER_WORKER)))
            && (r.result.Ok? ==> r.result.value == RouterInfo(Pin(sid, |s.workers|), PresentGeneration(s, sid))
                                 && sid in r.state.sessions && Serving(r.state, sid)
                                 && PresentGeneration(r.state, sid) == PresentGeneration(s, sid))
            && (r.result.Err? || kept ==> r.state == s)
  {
    hide CountWhere;
    GuardAnswers(s, sid, None, None);
    SoundGetOrCreateRouter(s, sid, routerClosed, routerCreated);
  }

  /** `createTransport`: when it succeeds, and that the transport it registers is at once usable. */
  lemma CreateTransportExactly(s: State, sid: SessionId, conn: ConnectionId, user: UserId, dir: Direction, answer: TransportAnswer)
    requires Sound(s)
    ensures var r := CreateTransport(s, sid, conn, user, dir, answer);
            && (r.result.Ok? <==>
                  GetOrCreateRouter(s, sid, answer.routerClosed, answer.routerCreated).result.Ok? && answer.created.Some?)
            && (r.result.Err? ==> r.state.transports == s.transports && r.state.connections == s.connections)
            && (r.result.Ok? ==>
                  var tid, s' := r.result.value, r.state;
                  && answer.created == Some(tid) && Serving(s', sid) && sid in s'.sessions
                  && s'.transports == s.transports[tid := Transport(sid, Pin(sid, |s.workers|), PresentGeneration(s, sid), conn, user, dir)]
                  && Present(s', sid, s'.transports[tid])
                  && tid in s'.sessions[sid].transports && s'.sessions[sid].transports[tid] == s'.transports[tid]
                  && conn in s'.connections && s'.connections[conn] == Get(s.connections, conn) + {tid}
                  && ConnectTransport(s', tid, false, true).Ok?)
  {
    hide CountWhere, Guard;
    RouterExactly(s, sid, answer.routerClosed, answer.routerCreated);
    SoundGetOrCreateRouter(s, sid, answer.routerClosed, answer.routerCreated);
    var r := CreateTransport(s, sid, conn, user, dir, answer);
    if r.result.Ok? {
      var t := r.state.transports[r.result.value];
      GuardAnswers(r.state, sid, Some(t.worker), Some(t.generation));
    }
  }

  /** `produce` on a usable send transport: the limit on other tracks cannot stop it, and afterwards the
      user's track of this type is the new producer and no other. */
  lemma ProduceServes(s: State, sid: SessionId, tid: TransportId, kind: Kind, track: TrackType,
                      conn: ConnectionId, user: UserId, pid: ProducerId)
    requires Sound(s) && Serving(s, sid) && pid !in s.producers
    requires tid in s.transports && s.transports[tid].direction == Send && Present(s, sid, s.transports[tid])
    ensures var r := Produce(s, sid, tid, false, kind, track, conn, user, Some(pid));
            var made := Producer(sid, tid, Pin(sid, |s.workers|), PresentGeneration(s, sid), track, kind, conn, user);
            && r.result == Ok(pid) && pid in r.state.producers && r.state.producers[pid] == made
            && (forall p | p in r.state.producers && SameSlot(sid, user, track)(r.state.producers[p]) :: p == pid)
            && (forall p | p in s.producers && !SameSlot(sid, user, track)(s.producers[p]) ::
                  p in r.state.producers && r.state.producers[p] == s.producers[p])
            && (sid in s.sessions ==> sid in r.state.sessions && pid in r.state.sessions[sid].producers
                                      && r.state.sessions[sid].producers[pid] == made)
            && r.state == s.(producers := r.state.producers, sessions := r.state.sessions)
            && r.state.sessions.Keys == s.sessions.Keys
            && (forall x | x in s.sessions :: r.state.sessions[x].status == s.sessions[x].status)
  {
    hide CountWhere, Placed, GaugesAgree, Settled, ViewersCapped, Indexed;
    TrackLimitUnreachable(s, sid, tid, false, user, track);
    GuardAnswers(s, sid, Some(s.transports[tid].worker), Some(s.transports[tid].generation));
  }

  /** `consume` on a usable receive transport: served exactly while the producer has fewer than five
      viewers and mediasoup agrees, and then registered. */
  lemma ConsumeServes(s: State, sid: SessionId, tid: TransportId, pid: ProducerId, conn: ConnectionId, user: UserId, cid: ConsumerId)
    requires Serving(s, sid) && sid in s.sessions && pid in s.producers
    requires tid in s.transports && s.transports[tid].direction == Recv && Present(s, sid, s.transports[tid])
    ensures var r := Consume(s, sid, tid, pid, conn, user, ConsumeAnswer(false, false, true, Some(cid)));
            var made := Consumer(sid, tid, pid, Pin(sid, |s.workers|), PresentGeneration(s, sid), s.producers[pid].trackType, conn, user);
            && (r.result == Ok(cid) <==> CountWhere(s.consumers, ViewersOf(pid)) < MAX_VIEWERS)
            && (r.result == Err(MaxViewersExceeded) <==> CountWhere(s.consumers, ViewersOf(pid)) >= MAX_VIEWERS)
            && (r.result.Ok? ==>
                  && r.state.consumers == s.consumers[cid := made]
                  && sid in r.state.sessions && cid in r.state.sessions[sid].consumers
                  && r.state.sessions[sid].consumers[cid] == made)
  {
    hide CountWhere;
    GuardAnswers(s, sid, Some(s.transports[tid].worker), Some(s.transports[tid].generation));
  }

  /** Who publishes and who watches a track. */
  datatype Party = Party(conn: ConnectionId, user: UserId, tid: TransportId)

  /** A router that exists or can be made answers with a transport. */
  function Answered(p: Party): TransportAnswer {
    TransportAnswer(false, true, Some(p.tid))
  }

  /** The whole way of a track: in any sound state whose worker is in service and has room, a publisher
      gets a transport, connects it and produces, and then a viewer gets one, connects it and consumes. */
  lemma PublishAndWatch(s: State, sid: SessionId, a: Party, b: Party, kind: Kind, track: TrackType, pid: ProducerId, cid: ConsumerId)
    requires Sound(s) && Serving(s, sid)
    requires sid in s.sessions || CountWhere(s.transports, TransportOf(Pin(sid, |s.workers|))) < MAX_TRANSPORTS_PER_WORKER
    requires FreshTransport(s, a.tid) && FreshTransport(s, b.tid) && a.tid != b.tid
    requires pid !in s.producers && CountWhere(s.consumers, ViewersOf(pid)) == 0
    ensures var s1 := CreateTransport(s, sid, a.conn, a.user, Send, Answered(a));
            var s2 := Produce(s1.state, sid, a.tid, false, kind, track, a.conn, a.user, Some(pid));
            var s3 := CreateTransport(s2.state, sid, b.conn, b.user, Recv, Answered(b));
            var s4 := Consume(s3.state, sid, b.tid, pid, b.conn, b.user, ConsumeAnswer(false, false, true, Some(cid)));
            && s1.result == Ok(a.tid) && ConnectTransport(s1.state, a.tid, false, true).Ok? && s2.result == Ok(pid)
            && s3.result == Ok(b.tid) && ConnectTransport(s3.state, b.tid, false, true).Ok? && s4.result == Ok(cid)
            && pid in s4.state.producers && s4.state.producers[pid].userId == a.user
            && cid in s4.state.consumers && s4.state.consumers[cid].producerId == pid && s4.state.consumers[cid].userId == b.user
  {
    hide Sound, CountWhere, Serving, Present, CreateTransport, Produce, Consume, ConnectTransport, GetOrCreateRouter;
    RouterExactly(s, sid, false, true);
    CreateTransportExactly(s, sid, a.conn, a.user, Send, Answered(a));
    SoundCreateTransport(s, sid, a.conn, a.user, Send, Answered(a));
    CreateTransportFrame(s, sid, a.conn, a.user, Send, Answered(a));
    var s1 := CreateTransport(s, sid, a.conn, a.user, Send, Answered(a)).state;
    ProduceServes(s1, sid, a.tid, kind, track, a.conn, a.user, pid);
    SoundProduce(s1, sid, a.tid, false, kind, track, a.conn, a.user, Some(pid));
    var s2 := Produce(s1, sid, a.tid, false, kind, track, a.conn, a.user, Some(pid)).state;
    SameService(s1, s2, sid);
    RouterExactly(s2, sid, false, true);
    CreateTransportExactly(s2, sid, b.conn, b.user, Recv, Answered(b));
    CreateTransportFrame(s2, sid, b.conn, b.user, Recv, Answered(b));
    var s3 := CreateTransport(s2, sid, b.conn, b.user, Recv, Answered(b)).state;
    ConsumeServes(s3, sid, b.tid, pid, b.conn, b.user, cid);
    ConsumeFrame(s3, sid, b.tid, pid, b.conn, b.user, ConsumeAnswer(false, false, true, Some(cid)));
  }

  lemma CreateTransportFrame(s: State, sid: SessionId, conn: ConnectionId, user: UserId, dir: Direction, answer: TransportAnswer)
    ensures var s' := CreateTransport(s, sid, conn, user, dir, answer).state;
            s'.producers == s.producers && s'.consumers == s.consumers
  {
    hide Guard, CountWhere;
  }

  lemma SameService(s: State, s': State, sid: SessionId)
    requires s' == s.(producers := s'.producers, sessions := s'.sessions) && s'.sessions.Keys == s.sessions.Keys
    requires forall x | x in s.sessions :: s'.sessions[x].status == s.sessions[x].status
    ensures Serving(s', sid) <==> Serving(s, sid)
  {}

  // ----- what closing undoes -----

  /** The session's own maps do not know the id yet. */
  predicate Unlisted(s: State, sid: SessionId, id: nat) {
    sid in s.sessions ==> id !in s.sessions[sid].producers && id !in s.sessions[sid].transports
  }

  /** Closing a producer takes back what registering it did, and nobody consumes it afterwards. */
  lemma CloseUndoesProduce(s: State, p: Producer, pid: ProducerId, sid: SessionId, tid: TransportId, answer: ConsumeAnswer)
    requires pid !in s.producers && Unlisted(s, p.sessionId, pid)
    ensures CloseProducer(InstallProducer(s, pid, p), pid) == s
    ensures pid !in CloseProducer(s, pid).producers
    ensures BeginConsume(CloseProducer(InstallProducer(s, pid, p), pid), sid, tid, pid, answer).Err?
  {
    hide Guard, CountWhere;
    var made := InstallProducer(s, pid, p);
    assert made.producers - {pid} == s.producers;
    if p.sessionId in s.sessions {
      var x := s.sessions[p.sessionId];
      assert x.producers[pid := p] - {pid} == x.producers;
      assert CloseProducer(made, pid).sessions == s.sessions;
    }
  }

  /** Closing a transport takes back what registering it did, but for its entry under its connection,
      which a later teardown skips; nobody connects it afterwards. */
  lemma CloseUndoesTransport(s: State, tid: TransportId, t: Transport, closed: bool, connected: bool)
    requires tid !in s.transports && Unlisted(s, t.sessionId, tid)
    ensures var (s', found) := CloseTransport(InstallTransport(s, tid, t), tid);
            && found && s' == s.(connections := s.connections[t.connectionId := Get(s.connections, t.connectionId) + {tid}])
            && Owned(s', t.connectionId) == Owned(s, t.connectionId)
            && ConnectTransport(s', tid, closed, connected) == Err(TransportNotFound)
  {
    hide Guard;
    var made := InstallTransport(s, tid, t);
    assert made.transports - {tid} == s.transports;
    if t.sessionId in s.sessions {
      var x := s.sessions[t.sessionId];
      assert x.transports[tid := t] - {tid} == x.transports;
      assert CloseTransport(made, tid).0.sessions == s.sessions;
    }
  }
}
