/** The SFU manager as an object: the registries are its fields, and each method is proved to take
    the abstract state where the specification function of the same operation takes it. */
module SfuManagers {
  import opened Wrappers
  import opened SessionHash
  import opened MapCount
  import opened SfuState
  import opened SfuRegistry
  import opened SfuRuns
  import opened SfuStrip

  class SfuManager {
    var workers: seq<Worker>
    var sessions: map<SessionId, Session>
    var transports: map<TransportId, Transport>
    var producers: map<ProducerId, Producer>
    var consumers: map<ConsumerId, Consumer>
    var connections: map<ConnectionId, set<TransportId>>
    var transportGauge: TransportGauge
    var consumerGauge: ConsumerGauge

    ghost function View(): State
      reads this
    {
      State(workers, sessions, transports, producers, consumers, connections, transportGauge, consumerGauge)
    }

    constructor ()
      ensures View() == Initial(0)
    {
      workers, sessions, transports, producers, consumers, connections := [], map[], map[], map[], map[], map[];
      transportGauge, consumerGauge := TransportGauge(0, 0), ConsumerGauge(0, 0, 0);
    }

    /** Starts the pool of a new manager, if the media plane is enabled. `started` processes start
        before the first one that fails, if one fails; the workers before it stay. */
    method Init(enabled: bool, workerCount: nat, started: nat) returns (ok: bool)
      requires View() == Initial(0) && started <= workerCount
      modifies this
      ensures ok == (!enabled || started == workerCount)
      ensures View() == Initial(if enabled then started else 0)
      ensures Sound(View()) && Mirrored(View())
    {
      SoundInitial(0);
      if !enabled {
        return true;
      }
      workers := [];
      var i := 0;
      while i < workerCount
        invariant 0 <= i <= started && View() == Initial(i)
      {
        if i == started {
          SoundInitial(i);
          return false;
        }
        workers := workers + [Worker(1, WorkerActive, {})];
        i := i + 1;
      }
      SoundInitial(workerCount);
      ok := true;
    }

    method GetWorkerIndexForSession(sid: SessionId) returns (r: Result<nat, ErrorCode>)
      ensures r == if |workers| == 0 then Err(NoWorkers) else Ok(Pin(sid, |workers|))
    {
      if |workers| == 0 {
        return Err(NoWorkers);
      }
      var h := DeterministicHash(sid);
      r := Ok(h % |workers|);
    }

    method AssertWorkerAndSession(sid: SessionId, clientWorker: Option<nat>, clientGeneration: Option<nat>)
      returns (r: Result<nat, ErrorCode>)
      ensures r == Guard(View(), sid, clientWorker, clientGeneration)
    {
      var index := GetWorkerIndexForSession(sid);
      if index.Err? {
        return Err(index.error);
      }
      var w := index.value;
      var ctx := workers[w];
      if ctx.status == WorkerDead {
        return Err(MediaSfuUnavailable);
      }
      if ctx.status == WorkerResetting {
        return Err(MediaSessionResetting(w, ctx.generation));
      }
      if sid in sessions && sessions[sid].status == SessionResetting {
        return Err(MediaSessionResetting(w, ctx.generation));
      }
      if clientWorker.Some? && clientWorker.value != w {
        return Err(MediaWorkerMismatch);
      }
      if clientGeneration.Some? && clientGeneration.value < ctx.generation {
        return Err(MediaSessionResetting(w, ctx.generation));
      }
      r := Ok(w);
    }

    /** Counts the transports of a worker by going through all of them. */
    method ActiveTransportsOn(w: nat) returns (n: nat)
      ensures n == CountWhere(transports, TransportOf(w))
    {
      n := 0;
      var left := transports.Keys;
      while left != {}
        invariant left <= transports.Keys
        invariant n == |KeysWhere(transports, TransportOf(w)) - left|
        decreases left
      {
        var t :| t in left;
        SetStep(KeysWhere(transports, TransportOf(w)), left, t);
        if transports[t].worker == w {
          n := n + 1;
        }
        left := left - {t};
      }
    }

    method GetOrCreateRouter(sid: SessionId, routerClosed: bool, routerCreated: bool)
      returns (r: Result<RouterInfo, ErrorCode>)
      modifies this
      ensures Outcome(View(), r) == SfuState.GetOrCreateRouter(old(View()), sid, routerClosed, routerCreated)
    {
      var checked := AssertWorkerAndSession(sid, None, None);
      if checked.Err? {
        return Err(checked.error);
      }
      var w := checked.value;
      if sid in sessions && !routerClosed {
        return Ok(RouterInfo(w, sessions[sid].generation));
      }
      var active := ActiveTransportsOn(w);
      if active >= MAX_TRANSPORTS_PER_WORKER {
        return Err(ServerBusy);
      }
      if !routerCreated {
        return Err(MediasoupFailure);
      }
      workers := workers[w := workers[w].(assignedSessions := workers[w].assignedSessions + {sid})];
      sessions := sessions[sid := Session(w, workers[w].generation, SessionActive, map[], map[], map[])];
      r := Ok(RouterInfo(w, workers[w].generation));
    }

    method RegisterTransport(tid: TransportId, t: Transport)
      modifies this
      ensures View() == InstallTransport(old(View()), tid, t)
    {
      transports := transports[tid := t];
      if t.sessionId in sessions {
        sessions := sessions[t.sessionId := sessions[t.sessionId].(transports := sessions[t.sessionId].transports[tid := t])];
      }
      if t.connectionId !in connections {
        connections := connections[t.connectionId := {}];
      }
      connections := connections[t.connectionId := connections[t.connectionId] + {tid}];
      transportGauge := BumpTransport(transportGauge, t.direction, 1);
    }

    method CreateTransport(sid: SessionId, conn: ConnectionId, user: UserId, dir: Direction, answer: TransportAnswer)
      returns (r: Result<TransportId, ErrorCode>)
      modifies this
      ensures Outcome(View(), r) == SfuState.CreateTransport(old(View()), sid, conn, user, dir, answer)
    {
      var routed := GetOrCreateRouter(sid, answer.routerClosed, answer.routerCreated);
      if routed.Err? {
        return Err(routed.error);
      }
      if answer.created.None? {
        return Err(MediasoupFailure);
      }
      RegisterTransport(answer.created.value,
                        Transport(sid, routed.value.worker, routed.value.generation, conn, user, dir));
      r := Ok(answer.created.value);
    }

    method ConnectTransport(tid: TransportId, closed: bool, connected: bool) returns (r: Result<(), ErrorCode>)
      ensures r == SfuState.ConnectTransport(View(), tid, closed, connected)
    {
      if tid !in transports || closed {
        return Err(TransportNotFound);
      }
      var t := transports[tid];
      var checked := AssertWorkerAndSession(t.sessionId, Some(t.worker), Some(t.generation));
      if checked.Err? {
        return Err(checked.error);
      }
      r := if connected then Ok(()) else Err(MediasoupFailure);
    }

    method CloseTransport(tid: TransportId) returns (found: bool)
      modifies this
      ensures (View(), found) == SfuState.CloseTransport(old(View()), tid)
    {
      if tid !in transports {
        return false;
      }
      var t := transports[tid];
      transports := transports - {tid};
      transportGauge := BumpTransport(transportGauge, t.direction, -1);
      if t.sessionId in sessions {
        var x := sessions[t.sessionId];
        sessions := sessions[t.sessionId := x.(transports := x.transports - {tid})];
      }
      found := true;
    }

    /** The loop of `produce` over the producers, its counting half. */
    method CountOtherTracks(sid: SessionId, user: UserId, track: TrackType) returns (others: nat)
      ensures others == CountWhere(producers, OtherTracks(sid, user, track))
    {
      others := 0;
      ghost var counted := KeysWhere(producers, OtherTracks(sid, user, track));
      var left := producers.Keys;
      while left != {}
        invariant left <= producers.Keys
        invariant others == |counted - left|
        decreases left
      {
        var id :| id in left;
        SetStep(counted, left, id);
        var p := producers[id];
        if p.sessionId == sid && p.userId == user && p.trackType != track {
          others := others + 1;
        }
        left := left - {id};
      }
    }

    /** The same loop, its closing half: a track of the same type leaves the registry. */
    method CloseSameTrack(sid: SessionId, user: UserId, track: TrackType)
      modifies this`producers
      ensures producers == Without(old(producers), SameSlot(sid, user, track))
    {
      ghost var all := producers;
      ghost var same := KeysWhere(all, SameSlot(sid, user, track));
      var left := producers.Keys;
      while left != {}
        invariant left <= all.Keys
        invariant producers == all - (same - left)
        decreases left
      {
        var id :| id in left;
        MinusStep(all, same, left, id);
        var p := producers[id];
        if p.sessionId == sid && p.userId == user && p.trackType == track {
          producers := producers - {id};
        }
        left := left - {id};
      }
      WithoutIsMinus(all, SameSlot(sid, user, track));
    }

    method Produce(sid: SessionId, tid: TransportId, closed: bool, kind: Kind, track: TrackType,
                   conn: ConnectionId, user: UserId, created: Option<ProducerId>)
      returns (r: Result<ProducerId, ErrorCode>)
      modifies this
      ensures Outcome(View(), r) == SfuState.Produce(old(View()), sid, tid, closed, kind, track, conn, user, created)
    {
      if tid !in transports || closed {
        return Err(TransportNotFound);
      }
      var t := transports[tid];
      if t.direction != Send {
        return Err(InvalidDirection);
      }
      var checked := AssertWorkerAndSession(sid, Some(t.worker), Some(t.generation));
      if checked.Err? {
        return Err(checked.error);
      }
      var others := CountOtherTracks(sid, user, track);
      CloseSameTrack(sid, user, track);
      if others >= MAX_PRODUCERS {
        return Err(MaxProducersExceeded);
      }
      if created.None? {
        return Err(MediasoupFailure);
      }
      var pid := created.value;
      var p := Producer(sid, tid, t.worker, t.generation, track, kind, conn, user);
      producers := producers[pid := p];
      if sid in sessions {
        sessions := sessions[sid := sessions[sid].(producers := sessions[sid].producers[pid := p])];
      }
      r := Ok(pid);
    }

    method CloseProducer(pid: ProducerId)
      modifies this
      ensures View() == SfuState.CloseProducer(old(View()), pid)
    {
      if pid !in producers {
        return;
      }
      var sid := producers[pid].sessionId;
      producers := producers - {pid};
      if sid in sessions {
        sessions := sessions[sid := sessions[sid].(producers := sessions[sid].producers - {pid})];
      }
    }

    method ViewerCount(pid: ProducerId) returns (n: nat)
      ensures n == CountWhere(consumers, ViewersOf(pid))
    {
      n := 0;
      var left := consumers.Keys;
      ghost var viewers := KeysWhere(consumers, ViewersOf(pid));
      while left != {}
        invariant left <= consumers.Keys
        invariant n == |viewers - left|
        decreases left
      {
        var c :| c in left;
        SetStep(viewers, left, c);
        if consumers[c].producerId == pid {
          n := n + 1;
        }
        left := left - {c};
      }
    }

    method Consume(sid: SessionId, tid: TransportId, pid: ProducerId,
                   conn: ConnectionId, user: UserId, answer: ConsumeAnswer)
      returns (r: Result<ConsumerId, ErrorCode>)
      modifies this
      ensures Outcome(View(), r) == SfuState.Consume(old(View()), sid, tid, pid, conn, user, answer)
    {
      if tid !in transports || answer.transportClosed {
        return Err(TransportNotFound);
      }
      var t := transports[tid];
      if t.direction != Recv {
        return Err(InvalidDirection);
      }
      var checked := AssertWorkerAndSession(sid, Some(t.worker), Some(t.generation));
      if checked.Err? {
        return Err(checked.error);
      }
      if sid !in sessions {
        return Err(SessionNotFound);
      }
      if pid !in producers || answer.producerClosed {
        return Err(ProducerNotFound);
      }
      if !answer.canConsume {
        return Err(CannotConsume);
      }
      var viewers := ViewerCount(pid);
      if viewers >= MAX_VIEWERS {
        return Err(MaxViewersExceeded);
      }
      if answer.created.None? {
        return Err(MediasoupFailure);
      }
      var cid := answer.created.value;
      var c := Consumer(sid, tid, pid, t.worker, t.generation, producers[pid].trackType, conn, user);
      consumers := consumers[cid := c];
      sessions := sessions[sid := sessions[sid].(consumers := sessions[sid].consumers[cid := c])];
      consumerGauge := BumpConsumer(consumerGauge, c.trackType, 1);
      r := Ok(cid);
    }

    /** The ids in order of first occurrence. */
    method Deduplicate(ids: seq<ProducerId>) returns (unique: seq<ProducerId>)
      ensures unique == Distinct(ids)
    {
      unique := [];
      for i := 0 to |ids|
        invariant unique == Distinct(ids[..i])
      {
        assert ids[..i + 1][..i] == ids[..i];
        if ids[i] !in unique {
          unique := unique + [ids[i]];
        }
      }
      assert ids[..|ids|] == ids;
    }

    method ConsumeBatch(sid: SessionId, tid: TransportId, ids: seq<ProducerId>,
                        conn: ConnectionId, user: UserId, answers: Answers)
      returns (results: seq<(ProducerId, Result<ConsumerId, ErrorCode>)>)
      modifies this
      ensures BatchOutcome(View(), results) == ConsumeEach(old(View()), sid, tid, Distinct(ids), conn, user, answers)
    {
      var unique := Deduplicate(ids);
      results := [];
      for i := 0 to |unique|
        invariant BatchOutcome(View(), results) == ConsumeEach(old(View()), sid, tid, unique[..i], conn, user, answers)
      {
        assert unique[..i + 1][..i] == unique[..i];
        var one := Consume(sid, tid, unique[i], conn, user, answers(unique[i]));
        results := results + [(unique[i], one)];
      }
      assert unique[..|unique|] == unique;
    }

    // ----- worker crash -----

    method MarkResetting(affected: set<SessionId>)
      modifies this`sessions
      ensures sessions == Marked(old(sessions), affected)
    {
      ghost var was := sessions;
      var left := affected;
      while left != {}
        invariant left <= affected
        invariant sessions == Marked(was, affected - left)
        decreases left
      {
        var sid :| sid in left;
        if sid in sessions {
          sessions := sessions[sid := sessions[sid].(status := SessionResetting)];
        }
        left := left - {sid};
      }
      assert affected - left == affected;
    }

    method ScrubTransports(w: nat)
      modifies this`transports, this`transportGauge
      ensures transports == Without(old(transports), TransportOf(w))
      ensures transportGauge == DropTransports(old(transportGauge), old(transports), TransportOf(w))
    {
      hide LessTransportGauge, DropTransports;
      ghost var all, g := transports, transportGauge;
      ghost var done: set<TransportId> := {};
      NoTransportsGone(g, all, done);
      var left := transports.Keys;
      while left != {}
        invariant left <= all.Keys
        invariant done == KeysWhere(all, TransportOf(w)) - left
        invariant transports == all - done
        invariant transportGauge == LessTransportGauge(g, all, done)
        decreases left
      {
        var id :| id in left;
        var t := transports[id];
        if t.worker == w {
          LessTransportGaugeStep(g, all, done, id);
          transports := transports - {id};
          transportGauge := BumpTransport(transportGauge, t.direction, -1);
          done := done + {id};
        }
        left := left - {id};
      }
      assert done == KeysWhere(all, TransportOf(w));
      WithoutIsMinus(all, TransportOf(w));
      AllTransportsGone(g, all, TransportOf(w));
    }

    method ScrubProducers(w: nat)
      modifies this`producers
      ensures producers == Without(old(producers), ProducerOf(w))
    {
      ghost var all := producers;
      ghost var lost := KeysWhere(all, ProducerOf(w));
      var left := producers.Keys;
      while left != {}
        invariant left <= all.Keys
        invariant producers == all - (lost - left)
        decreases left
      {
        var id :| id in left;
        MinusStep(all, lost, left, id);
        if producers[id].worker == w {
          producers := producers - {id};
        }
        left := left - {id};
      }
      WithoutIsMinus(all, ProducerOf(w));
    }

    method ScrubConsumers(w: nat)
      modifies this`consumers, this`consumerGauge
      ensures consumers == Without(old(consumers), ConsumerOf(w))
      ensures consumerGauge == DropConsumers(old(consumerGauge), old(consumers), ConsumerOf(w))
    {
      hide LessGauge, DropConsumers;
      ghost var all, g := consumers, consumerGauge;
      ghost var done: set<ConsumerId> := {};
      NoConsumersGone(g, all, done);
      var left := consumers.Keys;
      while left != {}
        invariant left <= all.Keys
        invariant done == KeysWhere(all, ConsumerOf(w)) - left
        invariant consumers == all - done
        invariant consumerGauge == LessGauge(g, all, done)
        decreases left
      {
        var id :| id in left;
        var c := consumers[id];
        if c.worker == w {
          LessGaugeStep(g, all, done, id);
          consumers := consumers - {id};
          consumerGauge := BumpConsumer(consumerGauge, c.trackType, -1);
          done := done + {id};
        }
        left := left - {id};
      }
      assert done == KeysWhere(all, ConsumerOf(w));
      WithoutIsMinus(all, ConsumerOf(w));
      AllConsumersGone(g, all, ConsumerOf(w));
    }

    method RecreateRouters(affected: set<SessionId>, w: nat, epoch: nat, routed: set<SessionId>)
      modifies this`sessions
      ensures sessions == Recreated(old(sessions), affected * routed, w, epoch)
    {
      ghost var was := sessions;
      var left := affected;
      while left != {}
        invariant left <= affected
        invariant sessions == Recreated(was, (affected - left) * routed, w, epoch)
        decreases left
      {
        var sid :| sid in left;
        if sid in routed {
          sessions := sessions[sid := Session(w, epoch, SessionActive, map[], map[], map[])];
        }
        left := left - {sid};
      }
      assert (affected - left) * routed == affected * routed;
    }

    /** The part of the recovery before its first await. */
    method MarkAndScrub(w: nat)
      requires w < |workers|
      modifies this
      ensures View() == CrashMark(old(View()), w)
    {
      hide Without, DropTransports, DropConsumers;
      workers := workers[w := workers[w].(status := WorkerResetting, generation := workers[w].generation + 1)];
      MarkResetting(workers[w].assignedSessions);
      ScrubTransports(w);
      ScrubProducers(w);
      ScrubConsumers(w);
    }

    method HandleWorkerDied(w: nat, answer: RecoveryAnswer)
      modifies this
      ensures View() == WorkerDied(old(View()), w, answer)
    {
      if w >= |workers| {
        return;
      }
      MarkAndScrub(w);
      if answer.spawned {
        RecreateRouters(workers[w].assignedSessions, w, workers[w].generation, answer.routed);
        workers := workers[w := workers[w].(status := WorkerActive)];
      } else {
        workers := workers[w := workers[w].(status := WorkerDead)];
      }
    }

    // ----- connection teardown -----

    method CloseProducersOn(tid: TransportId)
      modifies this`producers, this`sessions
      ensures producers == Without(old(producers), ProducerOn({tid}))
      ensures sessions == LessProducers(old(sessions), old(producers), KeysWhere(old(producers), ProducerOn({tid})))
    {
      ghost var all, was := producers, sessions;
      ghost var done: set<ProducerId> := {};
      NoneGone(was, all, consumers, done);
      var left := producers.Keys;
      while left != {}
        invariant left <= all.Keys
        invariant done == KeysWhere(all, ProducerOn({tid})) - left
        invariant producers == all - done
        invariant sessions == LessProducers(was, all, done)
        decreases left
      {
        var id :| id in left;
        var p := producers[id];
        if p.transportId == tid {
          LessProducersStep(was, all, done, id);
          producers := producers - {id};
          if p.sessionId in sessions {
            sessions := sessions[p.sessionId := sessions[p.sessionId].(producers := sessions[p.sessionId].producers - {id})];
          }
          done := done + {id};
        }
        left := left - {id};
      }
      assert done == KeysWhere(all, ProducerOn({tid}));
      WithoutIsMinus(all, ProducerOn({tid}));
    }

    method CloseConsumersOn(tid: TransportId)
      modifies this`consumers, this`sessions, this`consumerGauge
      ensures consumers == Without(old(consumers), ConsumerOn({tid}))
      ensures sessions == LessConsumers(old(sessions), old(consumers), KeysWhere(old(consumers), ConsumerOn({tid})))
      ensures consumerGauge == DropConsumers(old(consumerGauge), old(consumers), ConsumerOn({tid}))
    {
      hide LessGauge, DropConsumers, LessConsumers;
      ghost var all, was, g := consumers, sessions, consumerGauge;
      ghost var done: set<ConsumerId> := {};
      NoneGone(was, producers, all, done);
      NoConsumersGone(g, all, done);
      var left := consumers.Keys;
      while left != {}
        invariant left <= all.Keys
        invariant done == KeysWhere(all, ConsumerOn({tid})) - left
        invariant consumers == all - done
        invariant sessions == LessConsumers(was, all, done)
        invariant consumerGauge == LessGauge(g, all, done)
        decreases left
      {
        var id :| id in left;
        var c := consumers[id];
        if c.transportId == tid {
          LessConsumersStep(was, all, done, id);
          LessGaugeStep(g, all, done, id);
          consumers := consumers - {id};
          if c.sessionId in sessions {
            sessions := sessions[c.sessionId := sessions[c.sessionId].(consumers := sessions[c.sessionId].consumers - {id})];
          }
          consumerGauge := BumpConsumer(consumerGauge, c.trackType, -1);
          done := done + {id};
        }
        left := left - {id};
      }
      assert done == KeysWhere(all, ConsumerOn({tid}));
      WithoutIsMinus(all, ConsumerOn({tid}));
      AllConsumersGone(g, all, ConsumerOn({tid}));
    }

    /** One round of the teardown loop. */
    method CloseWithContents(tid: TransportId)
      requires tid in transports
      modifies this
      ensures View() == Strip(old(View()), {tid})
    {
      hide LessProducers, LessConsumers, Without, StrippedSessions, DropConsumers, BumpTransport, KeysWhere, CountIn;
      CloseProducersOn(tid);
      CloseConsumersOn(tid);
      var t := transports[tid];
      transports := transports - {tid};
      transportGauge := BumpTransport(transportGauge, t.direction, -1);
      if t.sessionId in sessions {
        var x := sessions[t.sessionId];
        sessions := sessions[t.sessionId := x.(transports := x.transports - {tid})];
      }
      StripOneSessions(old(View()), tid);
      StripOneGauge(old(View()), tid);
    }

    /** The teardown loop over the connection's transports. */
    method CloseAll(ids: set<TransportId>)
      modifies this
      ensures View() == Strip(old(View()), ids * old(transports).Keys)
    {
      hide Strip;
      ghost var was := View();
      var left := ids;
      StripNone(was, (ids - left) * was.transports.Keys);
      while left != {}
        invariant left <= ids
        invariant View() == Strip(was, (ids - left) * was.transports.Keys)
        decreases left
      {
        var tid :| tid in left;
        ghost var done := (ids - left) * was.transports.Keys;
        StripKeeps(was, done);
        VisitStep(ids, left, tid, was.transports.Keys);
        if tid in transports {
          StripStep(was, done, tid);
          CloseWithContents(tid);
        }
        left := left - {tid};
      }
      assert ids - left == ids;
    }

    method CloseTransportsForConnection(conn: ConnectionId)
      modifies this
      ensures View() == Teardown(old(View()), conn)
    {
      hide Strip;
      if conn !in connections || connections[conn] == {} {
        connections := connections - {conn};
        return;
      }
      StripKeeps(View(), Owned(View(), conn));
      CloseAll(connections[conn]);
      connections := connections - {conn};
    }
  }
}
