/** Results about whole SFU operations and about every run of them. */
module SfuTheorems {
  import opened Wrappers
  import opened SessionHash
  import opened MapCount
  import opened SfuState
  import opened SfuRegistry

  // ----- sub-maps mirror the registries -----

  ghost predicate HasObjects(s: State, sid: SessionId) {
    (exists t :: t in s.transports && s.transports[t].sessionId == sid) ||
    (exists c :: c in s.consumers && s.consumers[c].sessionId == sid)
  }

  /** The call gives a session that still has objects a new router, because mediasoup reports
      the old one closed. */
  ghost predicate Orphans(s: State, sid: SessionId, routerClosed: bool, routerCreated: bool) {
    var plan := PlanRouter(s, sid, routerClosed);
    plan.Ok? && plan.value.Create? && routerCreated && HasObjects(s, sid)
  }

  lemma EmptyWhere(s: State, sid: SessionId)
    ensures !HasObjects(s, sid) <==>
            Where(s.transports, TransportIn(sid)) == map[] && Where(s.consumers, ConsumerIn(sid)) == map[]
  {
    if t :| t in s.transports && s.transports[t].sessionId == sid {
      assert t in Where(s.transports, TransportIn(sid));
    } else if c :| c in s.consumers && s.consumers[c].sessionId == sid {
      assert c in Where(s.consumers, ConsumerIn(sid));
    }
  }

  /** Asking for a router keeps the mirror exactly when it does not orphan objects. */
  lemma RouterKeepsMirror(s: State, sid: SessionId, routerClosed: bool, routerCreated: bool)
    requires Mirrored(s)
    ensures Mirrored(GetOrCreateRouter(s, sid, routerClosed, routerCreated).state)
            <==> !Orphans(s, sid, routerClosed, routerCreated)
  {
    EmptyWhere(s, sid);
    var s' := GetOrCreateRouter(s, sid, routerClosed, routerCreated).state;
    if Orphans(s, sid, routerClosed, routerCreated) {
      assert s'.sessions[sid].status == SessionActive && s'.sessions[sid].transports == map[];
    }
  }

  lemma MirrorInstallTransport(s: State, tid: TransportId, t: Transport)
    requires Mirrored(s) && tid !in s.transports && t.sessionId in s.sessions
    ensures Mirrored(InstallTransport(s, tid, t))
  {
    forall sid | sid in s.sessions
      ensures Where(s.transports[tid := t], TransportIn(sid)) ==
              if sid == t.sessionId then Where(s.transports, TransportIn(sid))[tid := t] else Where(s.transports, TransportIn(sid))
    {
      WhereInsert(s.transports, tid, t, TransportIn(sid));
    }
    var s' := InstallTransport(s, tid, t);
    assert ConsumersMirrored(s'.sessions, s'.consumers);
  }

  lemma MirrorCreateTransport(s: State, sid: SessionId, conn: ConnectionId, user: UserId, dir: Direction, answer: TransportAnswer)
    requires Mirrored(s) && (answer.created.Some? ==> FreshTransport(s, answer.created.value))
    requires !Orphans(s, sid, answer.routerClosed, answer.routerCreated)
    ensures Mirrored(CreateTransport(s, sid, conn, user, dir, answer).state)
  {
    RouterKeepsMirror(s, sid, answer.routerClosed, answer.routerCreated);
    var r := GetOrCreateRouter(s, sid, answer.routerClosed, answer.routerCreated);
    if r.result.Ok? && answer.created.Some? {
      MirrorInstallTransport(r.state, answer.created.value,
                             Transport(sid, r.result.value.worker, r.result.value.generation, conn, user, dir));
    }
  }

  lemma MirrorForgetTransport(s: State, tid: TransportId)
    requires TransportsMirrored(s.sessions, s.transports) && tid in s.transports
    ensures var s' := ForgetTransport(s, tid); TransportsMirrored(s'.sessions, s'.transports)
  {
    var s' := ForgetTransport(s, tid);
    forall sid | sid in s'.sessions && s'.sessions[sid].status == SessionActive
      ensures s'.sessions[sid].transports == Where(s'.transports, TransportIn(sid))
    {
      WhereMinus(s.transports, {tid}, TransportIn(sid));
    }
  }

  lemma MirrorCloseTransport(s: State, tid: TransportId)
    requires Mirrored(s)
    ensures Mirrored(CloseTransport(s, tid).0)
  {
    if tid in s.transports {
      MirrorForgetTransport(s, tid);
      var s' := ForgetTransport(s, tid);
      assert ConsumersMirrored(s'.sessions, s'.consumers);
    }
  }

  lemma MirrorProduce(s: State, sid: SessionId, tid: TransportId, closed: bool, kind: Kind, track: TrackType,
                      conn: ConnectionId, user: UserId, created: Option<ProducerId>)
    requires Mirrored(s)
    ensures Mirrored(Produce(s, sid, tid, closed, kind, track, conn, user, created).state)
  {
    var b := BeginProduce(s, sid, tid, closed, user, track);
    assert Mirrored(b.state);
  }

  lemma MirrorCloseProducer(s: State, pid: ProducerId)
    requires Mirrored(s)
    ensures Mirrored(CloseProducer(s, pid))
  {}

  lemma MirrorInstallConsumer(s: State, cid: ConsumerId, c: Consumer)
    requires Mirrored(s) && cid !in s.consumers && c.sessionId in s.sessions
    ensures Mirrored(InstallConsumer(s, cid, c, true))
  {
    hide Where, BumpConsumer, TransportsMirrored;
    MirrorOwnConsumer(s, cid, c);
    SameTransportsMirrored(s.sessions, InstallConsumer(s, cid, c, true).sessions, s.transports);
  }

  lemma SameTransportsMirrored(m: map<SessionId, Session>, m': map<SessionId, Session>, all: map<TransportId, Transport>)
    requires TransportsMirrored(m, all) && m'.Keys == m.Keys
    requires forall sid | sid in m :: m'[sid].transports == m[sid].transports && m'[sid].status == m[sid].status
    ensures TransportsMirrored(m', all)
  {}

  lemma MirrorOwnConsumer(s: State, cid: ConsumerId, c: Consumer)
    requires ConsumersMirrored(s.sessions, s.consumers) && cid !in s.consumers && c.sessionId in s.sessions
    ensures var s' := InstallConsumer(s, cid, c, true); ConsumersMirrored(s'.sessions, s'.consumers)
  {
    hide Where, BumpConsumer;
    forall sid | sid in s.sessions
      ensures Where(s.consumers[cid := c], ConsumerIn(sid)) ==
              if sid == c.sessionId then Where(s.consumers, ConsumerIn(sid))[cid := c] else Where(s.consumers, ConsumerIn(sid))
    {
      WhereInsert(s.consumers, cid, c, ConsumerIn(sid));
    }
  }

  lemma MirrorConsume(s: State, sid: SessionId, tid: TransportId, pid: ProducerId,
                      conn: ConnectionId, user: UserId, answer: ConsumeAnswer)
    requires Mirrored(s) && (answer.created.Some? ==> answer.created.value !in s.consumers)
    ensures Mirrored(Consume(s, sid, tid, pid, conn, user, answer).state)
  {
    var b := BeginConsume(s, sid, tid, pid, answer);
    if b.Ok? && answer.created.Some? {
      MirrorInstallConsumer(s, answer.created.value,
                            Consumer(sid, tid, pid, b.value.worker, b.value.generation, s.producers[pid].trackType, conn, user));
    }
  }

  lemma MirrorStripTransports(s: State, ts: set<TransportId>)
    requires TransportsMirrored(s.sessions, s.transports)
    ensures TransportsMirrored(Strip(s, ts).sessions, Strip(s, ts).transports)
  {
    var s' := Strip(s, ts);
    forall sid | sid in s'.sessions && s'.sessions[sid].status == SessionActive
      ensures s'.sessions[sid].transports == Where(s'.transports, TransportIn(sid))
    {
      assert s'.sessions[sid] == Stripped(s, sid, ts);
      WhereMinus(s.transports, ts, TransportIn(sid));
    }
  }

  lemma MirrorStripConsumers(s: State, ts: set<TransportId>)
    requires ConsumersMirrored(s.sessions, s.consumers)
    ensures ConsumersMirrored(Strip(s, ts).sessions, Strip(s, ts).consumers)
  {
    var s' := Strip(s, ts);
    forall sid | sid in s'.sessions && s'.sessions[sid].status == SessionActive
      ensures s'.sessions[sid].consumers == Where(s'.consumers, ConsumerIn(sid))
    {
      assert s'.sessions[sid] == Stripped(s, sid, ts);
      WhereWithout(s.consumers, ConsumerOn(ts), ConsumerIn(sid));
    }
  }

  lemma MirrorTeardown(s: State, conn: ConnectionId)
    requires Mirrored(s)
    ensures Mirrored(Teardown(s, conn))
  {
    MirrorStripTransports(s, Owned(s, conn));
    MirrorStripConsumers(s, Owned(s, conn));
  }

  lemma WhereElsewhere(s: State, w: nat, sid: SessionId)
    requires Placed(s) && |s.workers| > 0 && Pin(sid, |s.workers|) != w
    ensures Where(Without(s.transports, TransportOf(w)), TransportIn(sid)) == Where(s.transports, TransportIn(sid))
    ensures Where(Without(s.consumers, ConsumerOf(w)), ConsumerIn(sid)) == Where(s.consumers, ConsumerIn(sid))
  {}

  lemma WhereScrubbed(s: State, w: nat, sid: SessionId)
    requires Placed(s) && |s.workers| > 0 && Pin(sid, |s.workers|) == w
    ensures Where(Without(s.transports, TransportOf(w)), TransportIn(sid)) == map[]
    ensures Where(Without(s.consumers, ConsumerOf(w)), ConsumerIn(sid)) == map[]
  {}

  lemma MirrorWorkerDied(s: State, w: nat, answer: RecoveryAnswer)
    requires Placed(s) && Mirrored(s)
    ensures Mirrored(WorkerDied(s, w, answer))
  {
    if w < |s.workers| {
      var s' := WorkerDied(s, w, answer);
      forall sid | sid in s'.sessions && s'.sessions[sid].status == SessionActive
        ensures s'.sessions[sid].transports == Where(s'.transports, TransportIn(sid))
        ensures s'.sessions[sid].consumers == Where(s'.consumers, ConsumerIn(sid))
      {
        if Pin(sid, |s.workers|) != w {
          assert sid !in s.workers[w].assignedSessions;
          WhereElsewhere(s, w, sid);
        } else {
          assert sid in s.workers[w].assignedSessions;
          WhereScrubbed(s, w, sid);
        }
      }
    }
  }

  // ----- caps -----

  function HeldBy(sid: SessionId, user: UserId): Producer -> bool {
    (p: Producer) => p.sessionId == sid && p.userId == user
  }

  lemma SlotHoldsAtMostOne(m: map<ProducerId, Producer>, sid: SessionId, user: UserId, track: TrackType)
    requires SlotsUnique(m)
    ensures CountWhere(m, SameSlot(sid, user, track)) <= 1
  {
    var ids := KeysWhere(m, SameSlot(sid, user, track));
    if p :| p in ids {
      assert ids == {p};
    }
  }

  lemma OthersAreTwoSlots(m: map<ProducerId, Producer>, sid: SessionId, user: UserId, track: TrackType, x: TrackType, y: TrackType)
    requires track != x && track != y && x != y
    ensures CountWhere(m, OtherTracks(sid, user, track)) ==
            CountWhere(m, SameSlot(sid, user, x)) + CountWhere(m, SameSlot(sid, user, y))
  {
    CountSplit(m, OtherTracks(sid, user, track), SameSlot(sid, user, x), SameSlot(sid, user, y));
  }

  /** A user publishes at most three tracks per session. */
  lemma AtMostThreeTracks(m: map<ProducerId, Producer>, sid: SessionId, user: UserId)
    requires SlotsUnique(m)
    ensures CountWhere(m, HeldBy(sid, user)) <= MAX_PRODUCERS
  {
    CountSplit(m, HeldBy(sid, user), OtherTracks(sid, user, Webcam), SameSlot(sid, user, Webcam));
    OthersAreTwoSlots(m, sid, user, Webcam, Microphone, Screen);
    SlotHoldsAtMostOne(m, sid, user, Webcam);
    SlotHoldsAtMostOne(m, sid, user, Microphone);
    SlotHoldsAtMostOne(m, sid, user, Screen);
  }

  /** The explicit limit of three never fires: at most two other tracks are ever found. */
  lemma TrackLimitUnreachable(s: State, sid: SessionId, tid: TransportId, closed: bool, user: UserId, track: TrackType)
    requires SlotsUnique(s.producers)
    ensures BeginProduce(s, sid, tid, closed, user, track).result != Err(MaxProducersExceeded)
  {
    var x := if track == Webcam then Microphone else Webcam;
    var y := if track == Screen then Microphone else Screen;
    OthersAreTwoSlots(s.producers, sid, user, track, x, y);
    SlotHoldsAtMostOne(s.producers, sid, user, x);
    SlotHoldsAtMostOne(s.producers, sid, user, y);
  }

  // ----- crash isolation -----

  /** What the recovery of worker `w` leaves of a session. */
  ghost predicate RecoveredSession(s: State, s': State, w: nat, answer: RecoveryAnswer, sid: SessionId)
    requires w < |s.workers| && sid in s.sessions && sid in s'.sessions
  {
    if Pin(sid, |s.workers|) != w then s'.sessions[sid] == s.sessions[sid]
    else if answer.spawned && sid in answer.routed then
      s'.sessions[sid] == Session(w, s.workers[w].generation + 1, SessionActive, map[], map[], map[])
    else s'.sessions[sid] == s.sessions[sid].(status := SessionResetting)
  }

  /** What a session whose worker `w` has crashed gets from then on: an answered recovery serves it
      again, at the new generation, unless its own router did not come back; without one there is no
      service. */
  ghost predicate ServiceAfter(s: State, s': State, w: nat, answer: RecoveryAnswer, sid: SessionId)
    requires w < |s.workers|
  {
    Guard(s', sid, None, None) ==
      if !answer.spawned then Err(MediaSfuUnavailable)
      else if sid in s.sessions && sid !in answer.routed then Err(MediaSessionResetting(w, s.workers[w].generation + 1))
      else Ok(w)
  }

  lemma RecoveryOfSession(s: State, w: nat, answer: RecoveryAnswer, sid: SessionId)
    requires AssignedAgree(s.workers, s.sessions) && w < |s.workers| && sid in s.sessions
    ensures sid in WorkerDied(s, w, answer).sessions
    ensures RecoveredSession(s, WorkerDied(s, w, answer), w, answer, sid)
  {
    assert sid in s.workers[w].assignedSessions <==> Pin(sid, |s.workers|) == w;
  }

  /** After the recovery of worker `w`, nothing of `w` is registered, its routed sessions are empty,
      at the new epoch and served again, its other sessions wait, and the rest is untouched. If the
      process did not start again, none of its sessions is served. */
  lemma CrashIsolation(s: State, w: nat, answer: RecoveryAnswer)
    requires AssignedAgree(s.workers, s.sessions) && w < |s.workers|
    ensures var s' := WorkerDied(s, w, answer);
            && OnlyAt(s.workers, s'.workers, w)
            && s'.workers[w].generation == s.workers[w].generation + 1
            && s'.transports == Without(s.transports, TransportOf(w))
            && s'.producers == Without(s.producers, ProducerOf(w))
            && s'.consumers == Without(s.consumers, ConsumerOf(w))
            && s'.connections == s.connections
            && s'.sessions.Keys == s.sessions.Keys
            && (forall sid | sid in s.sessions :: RecoveredSession(s, s', w, answer, sid))
            && s'.workers[w].status == (if answer.spawned then WorkerActive else WorkerDead)
            && (forall sid | Pin(sid, |s.workers|) == w :: ServiceAfter(s, s', w, answer, sid))
  {
    var s' := WorkerDied(s, w, answer);
    forall sid | sid in s.sessions
      ensures sid in s'.sessions && RecoveredSession(s, s', w, answer, sid)
    {
      RecoveryOfSession(s, w, answer, sid);
    }
    assert s.workers[w].assignedSessions <= s.sessions.Keys;
    assert s'.sessions.Keys == s.sessions.Keys;
  }

  // ----- teardown -----

  function OfConnection(conn: ConnectionId): Transport -> bool {
    (t: Transport) => t.connectionId == conn
  }

  lemma OwnedAreTheConnections(m: map<TransportId, Transport>, index: map<ConnectionId, set<TransportId>>, conn: ConnectionId)
    requires Indexed(m, index)
    ensures Get(index, conn) * m.Keys == KeysWhere(m, OfConnection(conn))
  {}

  /** What a teardown that removes the transports `mine` leaves in the registries. */
  ghost predicate Removed(s: State, s': State, conn: ConnectionId, mine: set<TransportId>) {
    && s'.transports == Without(s.transports, OfConnection(conn))
    && s'.producers == Without(s.producers, ProducerOn(mine))
    && s'.consumers == Without(s.consumers, ConsumerOn(mine))
    && s'.connections == s.connections - {conn}
    && s'.workers == s.workers && s'.sessions.Keys == s.sessions.Keys
  }

  lemma RemovesNothing(s: State, conn: ConnectionId, mine: set<TransportId>)
    requires mine == {} && Without(s.transports, OfConnection(conn)) == s.transports
    ensures Removed(s, s.(connections := s.connections - {conn}), conn, mine)
  {
    assert Without(s.producers, ProducerOn(mine)) == s.producers;
    assert Without(s.consumers, ConsumerOn(mine)) == s.consumers;
  }

  /** Teardown removes exactly the connection's own transports, and the producers and consumers
      that sit on them, whoever made those; workers, other transports and other connections stay. */
  lemma TeardownExact(s: State, conn: ConnectionId)
    requires Indexed(s.transports, s.connections)
    ensures Removed(s, Teardown(s, conn), conn, KeysWhere(s.transports, OfConnection(conn)))
  {
    var mine := KeysWhere(s.transports, OfConnection(conn));
    OwnedAreTheConnections(s.transports, s.connections, conn);
    assert s.transports - mine == Without(s.transports, OfConnection(conn));
    if Get(s.connections, conn) == {} {
      RemovesNothing(s, conn, mine);
    }
  }

  /** Each session loses exactly the removed objects that were its own. */
  lemma TeardownSessions(s: State, conn: ConnectionId, sid: SessionId)
    requires Indexed(s.transports, s.connections) && sid in s.sessions
    requires KeysWhere(s.transports, OfConnection(conn)) != {}
    ensures sid in Teardown(s, conn).sessions
    ensures Teardown(s, conn).sessions[sid] == Stripped(s, sid, KeysWhere(s.transports, OfConnection(conn)))
  {
    OwnedAreTheConnections(s.transports, s.connections, conn);
  }

  lemma TeardownIdempotent(s: State, conn: ConnectionId)
    ensures Teardown(Teardown(s, conn), conn) == Teardown(s, conn)
  {
    var s' := Teardown(s, conn);
    assert conn !in s'.connections && s'.connections - {conn} == s'.connections;
  }
}
