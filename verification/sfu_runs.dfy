/** Runs of whole SFU operations, from a started worker pool, under any answers of mediasoup. */
module SfuRuns {
  import opened Wrappers
  import opened SessionHash
  import opened MapCount
  import opened SfuState
  import opened SfuRegistry
  import opened SfuTheorems

  datatype Command =
    | NewTransport(sid: SessionId, conn: ConnectionId, user: UserId, dir: Direction, transportAnswer: TransportAnswer)
    | DropTransport(tid: TransportId)
    | NewProducer(psid: SessionId, ptid: TransportId, closed: bool, kind: Kind, track: TrackType,
                  pconn: ConnectionId, puser: UserId, created: Option<ProducerId>)
    | DropProducer(pid: ProducerId)
    | NewConsumer(csid: SessionId, ctid: TransportId, source: ProducerId,
                  cconn: ConnectionId, cuser: UserId, consumeAnswer: ConsumeAnswer)
    | EndConnection(gone: ConnectionId)
    | Crash(worker: nat, recovery: RecoveryAnswer)

  function Apply(s: State, c: Command): State {
    match c
    case NewTransport(sid, conn, user, dir, answer) => CreateTransport(s, sid, conn, user, dir, answer).state
    case DropTransport(tid) => CloseTransport(s, tid).0
    case NewProducer(sid, tid, closed, kind, track, conn, user, created) =>
      Produce(s, sid, tid, closed, kind, track, conn, user, created).state
    case DropProducer(pid) => CloseProducer(s, pid)
    case NewConsumer(sid, tid, pid, conn, user, answer) => Consume(s, sid, tid, pid, conn, user, answer).state
    case EndConnection(conn) => Teardown(s, conn)
    case Crash(w, answer) => WorkerDied(s, w, answer)
  }

  /** Mediasoup never hands out an id twice. */
  ghost predicate FreshIds(s: State, c: Command) {
    match c
    case NewTransport(_, _, _, _, answer) => answer.created.Some? ==> FreshTransport(s, answer.created.value)
    case NewProducer(_, _, _, _, _, _, _, created) => created.Some? ==> created.value !in s.producers
    case NewConsumer(_, _, _, _, _, answer) => answer.created.Some? ==> answer.created.value !in s.consumers
    case _ => true
  }

  /** No router of a session that still has objects is reported closed. */
  ghost predicate KeepsRouters(s: State, c: Command) {
    c.NewTransport? ==> !Orphans(s, c.sid, c.transportAnswer.routerClosed, c.transportAnswer.routerCreated)
  }

  function Run(s: State, cs: seq<Command>): State
    decreases cs
  {
    if cs == [] then s else Run(Apply(s, cs[0]), cs[1..])
  }

  ghost predicate RunFresh(s: State, cs: seq<Command>)
    decreases cs
  {
    cs == [] || (FreshIds(s, cs[0]) && RunFresh(Apply(s, cs[0]), cs[1..]))
  }

  ghost predicate RunKeepsRouters(s: State, cs: seq<Command>)
    decreases cs
  {
    cs == [] || (KeepsRouters(s, cs[0]) && RunKeepsRouters(Apply(s, cs[0]), cs[1..]))
  }

  lemma SoundApply(s: State, c: Command)
    requires Sound(s) && FreshIds(s, c)
    ensures Sound(Apply(s, c))
  {
    match c
    case NewTransport(sid, conn, user, dir, answer) => SoundCreateTransport(s, sid, conn, user, dir, answer);
    case DropTransport(tid) => SoundCloseTransport(s, tid);
    case NewProducer(sid, tid, closed, kind, track, conn, user, created) =>
      SoundProduce(s, sid, tid, closed, kind, track, conn, user, created);
    case DropProducer(pid) => SoundCloseProducer(s, pid);
    case NewConsumer(sid, tid, pid, conn, user, answer) => SoundConsume(s, sid, tid, pid, conn, user, answer);
    case EndConnection(conn) => SoundTeardown(s, conn);
    case Crash(w, answer) => SoundWorkerDied(s, w, answer);
  }

  lemma MirroredApply(s: State, c: Command)
    requires Sound(s) && Mirrored(s) && FreshIds(s, c) && KeepsRouters(s, c)
    ensures Mirrored(Apply(s, c))
  {
    match c
    case NewTransport(sid, conn, user, dir, answer) => MirrorCreateTransport(s, sid, conn, user, dir, answer);
    case DropTransport(tid) => MirrorCloseTransport(s, tid);
    case NewProducer(sid, tid, closed, kind, track, conn, user, created) =>
      MirrorProduce(s, sid, tid, closed, kind, track, conn, user, created);
    case DropProducer(pid) => MirrorCloseProducer(s, pid);
    case NewConsumer(sid, tid, pid, conn, user, answer) => MirrorConsume(s, sid, tid, pid, conn, user, answer);
    case EndConnection(conn) => MirrorTeardown(s, conn);
    case Crash(w, answer) => MirrorWorkerDied(s, w, answer);
  }

  /** Every run keeps the registries sound: pinning and assignment, gauges, generations, caps and
      the connection index. */
  lemma {:induction false} RunSound(s: State, cs: seq<Command>)
    requires Sound(s) && RunFresh(s, cs)
    ensures Sound(Run(s, cs))
    decreases cs
  {
    if cs != [] {
      SoundApply(s, cs[0]);
      RunSound(Apply(s, cs[0]), cs[1..]);
    }
  }

  /** Every run in which routers outlive their objects also keeps each ACTIVE session's own maps
      equal to the registries restricted to it. */
  lemma {:induction false} RunMirrored(s: State, cs: seq<Command>)
    requires Sound(s) && Mirrored(s) && RunFresh(s, cs) && RunKeepsRouters(s, cs)
    ensures Mirrored(Run(s, cs))
    decreases cs
  {
    if cs != [] {
      SoundApply(s, cs[0]);
      MirroredApply(s, cs[0]);
      RunMirrored(Apply(s, cs[0]), cs[1..]);
    }
  }

  /** The state after any run of a pool of `n` workers that was just started. */
  lemma EveryRunSound(n: nat, cs: seq<Command>)
    requires RunFresh(Initial(n), cs)
    ensures Sound(Run(Initial(n), cs))
    ensures RunKeepsRouters(Initial(n), cs) ==> Mirrored(Run(Initial(n), cs))
  {
    SoundInitial(n);
    RunSound(Initial(n), cs);
    if RunKeepsRouters(Initial(n), cs) {
      RunMirrored(Initial(n), cs);
    }
  }

  function Crashes(cs: seq<Command>, w: nat): nat {
    if cs == [] then 0 else (if cs[0].Crash? && cs[0].worker == w then 1 else 0) + Crashes(cs[1..], w)
  }

  lemma OthersKeepWorkers(s: State, c: Command)
    requires !c.NewTransport? && !c.Crash?
    ensures Apply(s, c).workers == s.workers
  {
    hide Guard, CountWhere, KeysWhere, Without, StrippedSessions, DropConsumers;
  }

  lemma NewTransportKeepsGenerations(s: State, c: Command, w: nat)
    requires c.NewTransport? && w < |s.workers|
    ensures |Apply(s, c).workers| == |s.workers| && Apply(s, c).workers[w].generation == s.workers[w].generation
  {}

  lemma CrashRaisesGeneration(s: State, c: Command, w: nat)
    requires c.Crash? && w < |s.workers|
    ensures |Apply(s, c).workers| == |s.workers|
    ensures Apply(s, c).workers[w].generation == s.workers[w].generation + (if c.worker == w then 1 else 0)
  {}

  lemma ApplyGeneration(s: State, c: Command, w: nat)
    requires w < |s.workers|
    ensures |Apply(s, c).workers| == |s.workers|
    ensures Apply(s, c).workers[w].generation == s.workers[w].generation + (if c.Crash? && c.worker == w then 1 else 0)
  {
    if c.NewTransport? {
      NewTransportKeepsGenerations(s, c, w);
    } else if c.Crash? {
      CrashRaisesGeneration(s, c, w);
    } else {
      OthersKeepWorkers(s, c);
    }
  }

  /** A worker's generation counts its own crashes and no others. */
  lemma {:induction false} GenerationCountsCrashes(s: State, cs: seq<Command>, w: nat)
    requires w < |s.workers|
    ensures |Run(s, cs).workers| == |s.workers|
    ensures Run(s, cs).workers[w].generation == s.workers[w].generation + Crashes(cs, w)
    decreases cs
  {
    if cs != [] {
      ApplyGeneration(s, cs[0], w);
      GenerationCountsCrashes(Apply(s, cs[0]), cs[1..], w);
    }
  }

  /** After any run: at most one producer per user and track type of a session, at most three per
      user, and at most five viewers per producer. */
  lemma EveryRunCapped(n: nat, cs: seq<Command>, sid: SessionId, user: UserId, track: TrackType, pid: ProducerId)
    requires RunFresh(Initial(n), cs)
    ensures CountWhere(Run(Initial(n), cs).producers, SameSlot(sid, user, track)) <= 1
    ensures CountWhere(Run(Initial(n), cs).producers, HeldBy(sid, user)) <= MAX_PRODUCERS
    ensures CountWhere(Run(Initial(n), cs).consumers, ViewersOf(pid)) <= MAX_VIEWERS
  {
    EveryRunSound(n, cs);
    SlotHoldsAtMostOne(Run(Initial(n), cs).producers, sid, user, track);
    AtMostThreeTracks(Run(Initial(n), cs).producers, sid, user);
  }

  // ----- batches -----

  /** The distinct ids of a batch in order of first occurrence: `[...new Set(ids)]`. */
  function Distinct(ids: seq<ProducerId>): (r: seq<ProducerId>)
    ensures forall p :: p in r <==> p in ids
    ensures forall i, j | 0 <= i < j < |r| :: r[i] != r[j]
  {
    if ids == [] then [] else
    var front := Distinct(ids[..|ids| - 1]);
    var last := ids[|ids| - 1];
    assert ids == ids[..|ids| - 1] + [last];
    if last in front then front else front + [last]
  }

  function FirstAt(ids: seq<ProducerId>, p: ProducerId): (i: nat)
    ensures i <= |ids| && (i < |ids| ==> ids[i] == p) && (i == |ids| <==> p !in ids)
  {
    if ids == [] || ids[0] == p then 0 else 1 + FirstAt(ids[1..], p)
  }

  lemma {:induction false} FirstInFront(ids: seq<ProducerId>, last: ProducerId, p: ProducerId)
    ensures FirstAt(ids + [last], p) == if p in ids then FirstAt(ids, p) else if p == last then |ids| else |ids| + 1
  {
    if ids == [] {
      assert ids + [last] == [last];
    } else {
      assert (ids + [last])[0] == ids[0] && (ids + [last])[1..] == ids[1..] + [last];
      FirstInFront(ids[1..], last, p);
    }
  }

  /** The distinct ids stand in the order in which they first occur. */
  lemma {:induction false} DistinctInOrder(ids: seq<ProducerId>, i: nat, j: nat)
    requires i < j < |Distinct(ids)|
    ensures FirstAt(ids, Distinct(ids)[i]) < FirstAt(ids, Distinct(ids)[j])
  {
    hide FirstAt;
    var front, last := ids[..|ids| - 1], ids[|ids| - 1];
    assert ids == front + [last];
    FirstInFront(front, last, Distinct(ids)[i]);
    FirstInFront(front, last, Distinct(ids)[j]);
    if j < |Distinct(front)| {
      DistinctInOrder(front, i, j);
    }
  }

  type Answers = ProducerId -> ConsumeAnswer

  datatype BatchOutcome = BatchOutcome(state: State, results: seq<(ProducerId, Result<ConsumerId, ErrorCode>)>)

  /** Consuming a list of ids one after the other; a refused id does not stop the others. */
  function ConsumeEach(s: State, sid: SessionId, tid: TransportId, ids: seq<ProducerId>,
                       conn: ConnectionId, user: UserId, answers: Answers): BatchOutcome
  {
    if ids == [] then BatchOutcome(s, []) else
    var before := ConsumeEach(s, sid, tid, ids[..|ids| - 1], conn, user, answers);
    var pid := ids[|ids| - 1];
    var one := Consume(before.state, sid, tid, pid, conn, user, answers(pid));
    BatchOutcome(one.state, before.results + [(pid, one.result)])
  }

  function Fulfilled(results: seq<(ProducerId, Result<ConsumerId, ErrorCode>)>): seq<ProducerId> {
    if results == [] then [] else
    var front := Fulfilled(results[..|results| - 1]);
    var last := results[|results| - 1];
    if last.1.Ok? then front + [last.0] else front
  }

  /** A refused consume changes nothing, and none touches more than consumers and their session. */
  lemma ConsumeFrame(s: State, sid: SessionId, tid: TransportId, pid: ProducerId,
                     conn: ConnectionId, user: UserId, answer: ConsumeAnswer)
    ensures var r := Consume(s, sid, tid, pid, conn, user, answer);
            && (r.result.Err? ==> r.state == s)
            && r.state.workers == s.workers && r.state.transports == s.transports && r.state.producers == s.producers
            && r.state.connections == s.connections && r.state.sessions.Keys == s.sessions.Keys
  {}

  /** One result per id, in order. */
  lemma {:induction false} BatchResults(s: State, sid: SessionId, tid: TransportId, ids: seq<ProducerId>,
                                        conn: ConnectionId, user: UserId, answers: Answers)
    ensures var b := ConsumeEach(s, sid, tid, ids, conn, user, answers);
            && |b.results| == |ids|
            && forall i | 0 <= i < |ids| :: b.results[i].0 == ids[i]
    decreases ids
  {
    if ids != [] {
      BatchResults(s, sid, tid, ids[..|ids| - 1], conn, user, answers);
    }
  }

  /** The state after a batch is that of consuming the fulfilled ids alone. */
  lemma {:induction false} BatchIsItsFulfilledPart(s: State, sid: SessionId, tid: TransportId, ids: seq<ProducerId>,
                                                   conn: ConnectionId, user: UserId, answers: Answers)
    ensures var b := ConsumeEach(s, sid, tid, ids, conn, user, answers);
            b.state == ConsumeEach(s, sid, tid, Fulfilled(b.results), conn, user, answers).state
    decreases ids
  {
    if ids != [] {
      var front, pid := ids[..|ids| - 1], ids[|ids| - 1];
      BatchIsItsFulfilledPart(s, sid, tid, front, conn, user, answers);
      var f := ConsumeEach(s, sid, tid, front, conn, user, answers);
      var one := Consume(f.state, sid, tid, pid, conn, user, answers(pid));
      ConsumeFrame(f.state, sid, tid, pid, conn, user, answers(pid));
      FulfilledAppend(f.results, (pid, one.result));
      if one.result.Ok? {
        var done := Fulfilled(f.results) + [pid];
        assert done[..|done| - 1] == Fulfilled(f.results);
      }
    }
  }

  lemma FulfilledAppend(results: seq<(ProducerId, Result<ConsumerId, ErrorCode>)>, last: (ProducerId, Result<ConsumerId, ErrorCode>))
    ensures Fulfilled(results + [last]) == if last.1.Ok? then Fulfilled(results) + [last.0] else Fulfilled(results)
  {
    var all := results + [last];
    assert all[..|all| - 1] == results;
  }
}
