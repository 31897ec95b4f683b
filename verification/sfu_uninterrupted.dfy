/** Every whole SFU operation is a run of the interleaving that nothing interrupts: its steps from one
    await to the next add up to the operation. */
module SfuUninterrupted {
  import opened Wrappers
  import opened SessionHash
  import opened MapCount
  import opened SfuState
  import opened SfuRegistry
  import opened SfuStrip
  import opened SfuRuns
  import opened SfuFencing
  import opened SfuFencingTheorems

  lemma {:induction false} ReachesOn(w: World, es: seq<Event>, w': World, fs: seq<Event>, w'': World)
    requires Reaches(w, es, w') && Reaches(w', fs, w'')
    ensures Reaches(w, es + fs, w'')
    decreases es
  {
    hide Next, Enabled;
    if es == [] {
      assert es + fs == fs;
    } else {
      assert (es + fs)[0] == es[0] && (es + fs)[1..] == es[1..] + fs;
      ReachesOn(Next(w, es[0]), es[1..], w', fs, w'');
    }
  }

  lemma OneStep(w: World, e: Event)
    requires Enabled(w, e)
    ensures Reaches(w, [e], Next(w, e))
  {
    hide Next, Enabled;
    assert [e][1..] == [];
    assert Reaches(Next(w, e), [], Next(w, e));
  }

  lemma TwoSteps(w: World, e: Event, f: Event)
    requires Enabled(w, e) && Enabled(Next(w, e), f)
    ensures Reaches(w, [e, f], Next(Next(w, e), f))
  {
    hide Next, Enabled, Reaches;
    OneStep(w, e);
    OneStep(Next(w, e), f);
    ReachesOn(w, [e], Next(w, e), [f], Next(Next(w, e), f));
    assert [e] + [f] == [e, f];
  }

  /** Between two operations no call is suspended. */
  predicate Idle(w: World) {
    w.calls == map[]
  }

  // ----- transports and tracks -----

  /** A request for a transport up to the moment when it waits for the transport itself, or is refused. */
  lemma RouterIsRun(w: World, c: Command) returns (es: seq<Event>, w': World)
    requires WellFormed(w) && Idle(w) && c.NewTransport?
    ensures var routed := GetOrCreateRouter(w.s, c.sid, c.transportAnswer.routerClosed, c.transportAnswer.routerCreated);
            && Reaches(w, es, w') && w'.s == routed.state
            && match routed.result
               case Err(_) => Idle(w')
               case Ok(info) =>
                 w'.calls.Keys == {0} && w'.calls[0].AwaitTransport?
                 && w'.calls[0].transport == Transport(c.sid, info.worker, info.generation, c.conn, c.user, c.dir)
  {
    hide Reaches, Placed, CountWhere, Guard, InstallRouter;
    var answer := c.transportAnswer;
    var begin, routed := BeginTransport(0, c.sid, c.conn, c.user, c.dir, answer.routerClosed), RouterDone(0, answer.routerCreated);
    OneStep(w, begin);
    es, w' := [begin], Next(w, begin);
    var plan := PlanRouter(w.s, c.sid, answer.routerClosed);
    if plan.Ok? && plan.value.Create? {
      TwoSteps(w, begin, routed);
      es, w' := [begin, routed], Next(w', routed);
    }
  }

  lemma TransportIsRun(w: World, c: Command) returns (es: seq<Event>, w': World)
    requires WellFormed(w) && Idle(w) && FreshIds(w.s, c) && c.NewTransport?
    ensures Reaches(w, es, w') && Idle(w') && w'.s == Apply(w.s, c)
  {
    hide Reaches, WellFormed, GetOrCreateRouter, InstallTransport, Next, Enabled;
    es, w' := RouterIsRun(w, c);
    RouterObjects(w.s, c.sid, c.transportAnswer.routerClosed, c.transportAnswer.routerCreated);
    if w'.calls != map[] {
      var made := TransportDone(0, c.transportAnswer.created);
      TransportAnswered(w', c.transportAnswer.created);
      OneStep(w', made);
      ReachesOn(w, es, w', [made], Next(w', made));
      es, w' := es + [made], Next(w', made);
    }
  }

  lemma TransportAnswered(w: World, made: Option<TransportId>)
    requires w.calls.Keys == {0} && w.calls[0].AwaitTransport? && (made.Some? ==> FreshTransport(w.s, made.value))
    ensures var e := TransportDone(0, made);
            && Enabled(w, e) && Idle(Next(w, e))
            && Next(w, e).s == if made.Some? then InstallTransport(w.s, made.value, w.calls[0].transport) else w.s
  {
    hide InstallTransport, FreshTransport;
  }

  lemma TrackIsRun(w: World, c: Command) returns (es: seq<Event>, w': World)
    requires Idle(w) && FreshIds(w.s, c) && (c.NewProducer? || c.NewConsumer?)
    ensures Reaches(w, es, w') && Idle(w') && w'.s == Apply(w.s, c)
  {
    hide Reaches, CountWhere, Guard, InstallProducer, InstallConsumer;
    var begin, done := if c.NewProducer?
      then StartProduce(0, c.psid, c.ptid, c.closed, c.kind, c.track, c.pconn, c.puser)
      else StartConsume(0, c.csid, c.ctid, c.source, c.consumeAnswer, c.cconn, c.cuser),
      if c.NewProducer? then ProduceDone(0, c.created) else ConsumeDone(0, c.consumeAnswer.created, true);
    OneStep(w, begin);
    es, w' := [begin], Next(w, begin);
    if 0 in w'.calls {
      TwoSteps(w, begin, done);
      es, w' := [begin, done], Next(w', done);
    }
  }

  // ----- recovery -----

  lemma RecoverOneMore(s: State, sid: SessionId, left: set<SessionId>, routed: set<SessionId>, worker: nat, epoch: nat)
    requires sid in left
    ensures var s' := if sid in routed then RecoverSession(s, sid, worker, epoch) else s;
            RecoverSessions(s', (left - {sid}) * routed, worker, epoch) == RecoverSessions(s, left * routed, worker, epoch)
  {}

  /** The sessions of a crashed worker get their routers one after the other. */
  lemma {:induction false} RoutersAreRun(w: World, routed: set<SessionId>) returns (es: seq<Event>, w': World)
    requires w.calls.Keys == {0} && w.calls[0].AwaitRouters?
    ensures var c := w.calls[0];
            && Reaches(w, es, w') && w'.calls == map[0 := c.(left := {})]
            && w'.s == RecoverSessions(w.s, c.left * routed, c.worker, c.epoch)
    decreases w.calls[0].left
  {
    hide Reaches, RecoverSessions;
    var c := w.calls[0];
    if c.left == {} {
      es, w' := [], w;
      RecoverNobody(w.s, c.left * routed, c.worker, c.epoch);
      assert Reaches(w, es, w) by { NoSteps(w); }
      assert w.calls == map[0 := c];
    } else {
      var sid :| sid in c.left;
      var e := SessionRouted(0, sid, sid in routed);
      OneStep(w, e);
      RecoverOneMore(w.s, sid, c.left, routed, c.worker, c.epoch);
      var rest;
      rest, w' := RoutersAreRun(Next(w, e), routed);
      ReachesOn(w, [e], Next(w, e), rest, w');
      es := [e] + rest;
    }
  }

  lemma NoSteps(w: World)
    ensures Reaches(w, [], w)
  {}

  lemma RecoverNobody(s: State, sids: set<SessionId>, worker: nat, epoch: nat)
    requires sids == {}
    ensures RecoverSessions(s, sids, worker, epoch) == s
  {
    assert RecoverSessions(s, sids, worker, epoch).sessions == s.sessions;
  }

  /** A crash and the answer about the new process. */
  lemma SpawnIsRun(w: World, worker: nat, ok: bool)
    requires WellFormed(w) && Idle(w) && worker < |w.s.workers|
    ensures var died, spawned := Died(0, worker), Spawned(0, ok);
            && Enabled(w, died) && Enabled(Next(w, died), spawned)
            && var w' := Next(Next(w, died), spawned);
               if ok then
                 w'.s == CrashMark(w.s, worker)
                 && w'.calls == map[0 := AwaitRouters(worker, w.s.workers[worker].generation + 1, w.s.workers[worker].assignedSessions)]
               else Idle(w') && w'.s == WorkerDied(w.s, worker, RecoveryAnswer(false, {}))
  {
    hide Placed, CrashMark, SetWorkerStatus;
    CrashKeepsPool(w.s, worker);
  }

  lemma RecoveryEnds(w: World)
    requires w.calls.Keys == {0} && w.calls[0].AwaitRouters? && w.calls[0].left == {} && w.calls[0].worker < |w.s.workers|
    ensures Enabled(w, RecoveryDone(0)) && Idle(Next(w, RecoveryDone(0)))
    ensures Next(w, RecoveryDone(0)).s == SetWorkerStatus(w.s, w.calls[0].worker, WorkerActive)
  {}

  lemma CrashIsRun(w: World, worker: nat, answer: RecoveryAnswer) returns (es: seq<Event>, w': World)
    requires WellFormed(w) && Idle(w)
    ensures Reaches(w, es, w') && Idle(w') && w'.s == WorkerDied(w.s, worker, answer)
  {
    hide Reaches, WellFormed, CrashMark, RecoverSessions, SetWorkerStatus, Next, Enabled;
    if worker >= |w.s.workers| {
      NoSteps(w);
      return [], w;
    }
    CrashKeepsPool(w.s, worker);
    var died, spawned := Died(0, worker), Spawned(0, answer.spawned);
    SpawnIsRun(w, worker, answer.spawned);
    TwoSteps(w, died, spawned);
    es, w' := [died, spawned], Next(Next(w, died), spawned);
    if answer.spawned {
      var routes, w1 := RoutersAreRun(w', answer.routed);
      ReachesOn(w, es, w', routes, w1);
      RecoverKeepsPool(w'.s, w'.calls[0].left * answer.routed, worker, w'.calls[0].epoch);
      RecoveryEnds(w1);
      OneStep(w1, RecoveryDone(0));
      ReachesOn(w, es + routes, w1, [RecoveryDone(0)], Next(w1, RecoveryDone(0)));
      es, w' := es + routes + [RecoveryDone(0)], Next(w1, RecoveryDone(0));
    }
  }

  lemma CrashKeepsPool(s: State, worker: nat)
    requires worker < |s.workers|
    ensures |CrashMark(s, worker).workers| == |s.workers|
  {}

  // ----- teardown -----

  /** After the given producers were closed. */
  function ProducersClosed(s: State, done: set<ProducerId>): State {
    s.(producers := s.producers - done, sessions := LessProducers(s.sessions, s.producers, done))
  }

  lemma ProducersClosedStep(s: State, done: set<ProducerId>, pid: ProducerId)
    requires pid in s.producers && pid !in done
    ensures CloseProducer(ProducersClosed(s, done), pid) == ProducersClosed(s, done + {pid})
  {
    LessProducersStep(s.sessions, s.producers, done, pid);
    assert s.producers - done - {pid} == s.producers - (done + {pid});
  }

  lemma NoneClosed(s: State, none: set<ProducerId>)
    requires none == {}
    ensures ProducersClosed(s, none) == s
  {
    NoneGone(s.sessions, s.producers, s.consumers, none);
    MinusNothing(s.producers, none);
  }

  /** The producers on a picked transport are closed one after the other. */
  lemma {:induction false} ProducersAreRun(w: World, tid: TransportId, done: set<ProducerId>) returns (es: seq<Event>)
    requires 0 in w.calls && w.calls[0].AwaitTeardown? && w.calls[0].picked.Some? && w.calls[0].picked.value.0 == tid
    requires done <= KeysWhere(w.s.producers, ProducerOn({tid}))
    ensures Reaches(w.(s := ProducersClosed(w.s, done)), es,
                    w.(s := ProducersClosed(w.s, KeysWhere(w.s.producers, ProducerOn({tid})))))
    decreases KeysWhere(w.s.producers, ProducerOn({tid})) - done
  {
    hide Reaches, ProducersClosed;
    var all, here := KeysWhere(w.s.producers, ProducerOn({tid})), w.(s := ProducersClosed(w.s, done));
    if pid :| pid in all - done {
      var e := TeardownProducer(0, pid);
      StillRegistered(w.s, done, pid);
      OneStep(here, e);
      ProducersClosedStep(w.s, done, pid);
      var rest := ProducersAreRun(w, tid, done + {pid});
      ReachesOn(here, [e], Next(here, e), rest, w.(s := ProducersClosed(w.s, all)));
      es := [e] + rest;
    } else {
      forall pid | pid in all ensures pid in done {
        assert pid in all - done <==> pid !in done;
      }
      assert done == all;
      NoSteps(here);
      es := [];
    }
  }

  lemma StillRegistered(s: State, done: set<ProducerId>, pid: ProducerId)
    requires pid in s.producers && pid !in done
    ensures var m := ProducersClosed(s, done).producers; pid in m && m[pid] == s.producers[pid]
  {}

  /** Closing the producers and then finishing the transport removes it with everything on it. */
  lemma ClosedThenFinished(s: State, tid: TransportId)
    requires tid in s.transports
    ensures FinishTransportOf(ProducersClosed(s, KeysWhere(s.producers, ProducerOn({tid}))), tid, s.transports[tid]) == Strip(s, {tid})
  {
    hide KeysWhere, DropConsumers, BumpTransport, Without, CountIn;
    StripOneGauge(s, tid);
    WithoutIsMinus(s.producers, ProducerOn({tid}));
    FinishedSessions(s, tid);
  }

  lemma FinishedSessions(s: State, tid: TransportId)
    requires tid in s.transports
    ensures FinishTransportOf(ProducersClosed(s, KeysWhere(s.producers, ProducerOn({tid}))), tid, s.transports[tid]).sessions
            == StrippedSessions(s, {tid})
  {
    var closed := ProducersClosed(s, KeysWhere(s.producers, ProducerOn({tid})));
    var finished := FinishTransportOf(closed, tid, s.transports[tid]).sessions;
    forall sid | sid in s.sessions ensures finished[sid] == Stripped(s, sid, {tid}) {
      StrippedOne(s, tid, sid);
    }
  }

  /** One round of a teardown. */
  lemma RoundIsRun(w: World, tid: TransportId) returns (es: seq<Event>, w': World)
    requires w.calls.Keys == {0} && w.calls[0].AwaitTeardown? && w.calls[0].picked == None && tid in w.calls[0].todo
    ensures var c := w.calls[0];
            && Reaches(w, es, w') && w'.calls == map[0 := c.(todo := c.todo - {tid})]
            && w'.s == if tid in w.s.transports then Strip(w.s, {tid}) else w.s
  {
    hide Reaches, Strip, FinishTransportOf, ProducersClosed, KeysWhere;
    var c, pick := w.calls[0], PickTransport(0, tid);
    OneStep(w, pick);
    es, w' := [pick], Next(w, pick);
    if tid in w.s.transports {
      var none: set<ProducerId> := {};
      NoneClosed(w'.s, none);
      var closes := ProducersAreRun(w', tid, none);
      var all := KeysWhere(w'.s.producers, ProducerOn({tid}));
      var closed, finish := w'.(s := ProducersClosed(w'.s, all)), FinishTransport(0);
      ReachesOn(w, [pick], w', closes, closed);
      OneStep(closed, finish);
      ReachesOn(w, [pick] + closes, closed, [finish], Next(closed, finish));
      ClosedThenFinished(w.s, tid);
      es, w' := [pick] + closes + [finish], Next(closed, finish);
    }
  }

  lemma OneMoreStripped(s: State, ids: set<TransportId>, todo: set<TransportId>, tid: TransportId)
    requires tid in todo && todo <= ids
    ensures var before := Strip(s, (ids - todo) * s.transports.Keys);
            (if tid in before.transports then Strip(before, {tid}) else before) ==
            Strip(s, (ids - (todo - {tid})) * s.transports.Keys)
  {
    hide Strip, LessTransportGauge;
    var done := (ids - todo) * s.transports.Keys;
    StripKeeps(s, done);
    VisitStep(ids, todo, tid, s.transports.Keys);
    if tid in s.transports {
      StripStep(s, done, tid);
    }
  }

  /** The rounds over the transports left to do, from a state in which the others are gone. */
  lemma {:induction false} RoundsAreRun(s: State, ids: set<TransportId>, w: World) returns (es: seq<Event>, w': World)
    requires w.calls.Keys == {0} && w.calls[0].AwaitTeardown? && w.calls[0].picked == None && w.calls[0].todo <= ids
    requires w.s == Strip(s, (ids - w.calls[0].todo) * s.transports.Keys)
    ensures Reaches(w, es, w') && w'.s == Strip(s, ids * s.transports.Keys)
    ensures w'.calls == map[0 := w.calls[0].(todo := {})]
    decreases w.calls[0].todo
  {
    hide Reaches, Strip, Next, Enabled;
    var todo := w.calls[0].todo;
    if todo == {} {
      NoSteps(w);
      assert ids - todo == ids;
      assert w.calls == map[0 := w.calls[0]];
      es, w' := [], w;
    } else {
      var tid :| tid in todo;
      OneMoreStripped(s, ids, todo, tid);
      var first, w1 := RoundIsRun(w, tid);
      var rest;
      rest, w' := RoundsAreRun(s, ids, w1);
      ReachesOn(w, first, w1, rest, w');
      es := first + rest;
    }
  }

  lemma TeardownIsRun(w: World, conn: ConnectionId) returns (es: seq<Event>, w': World)
    requires Idle(w)
    ensures Reaches(w, es, w') && Idle(w') && w'.s == Teardown(w.s, conn)
  {
    hide Reaches, Strip;
    var start := StartTeardown(0, conn);
    OneStep(w, start);
    es, w' := [start], Next(w, start);
    var ids := Get(w.s.connections, conn);
    if ids != {} {
      StripNone(w.s, (ids - ids) * w.s.transports.Keys);
      var rounds, w1 := RoundsAreRun(w.s, ids, w');
      ReachesOn(w, es, w', rounds, w1);
      var done := TeardownDone(0);
      OneStep(w1, done);
      ReachesOn(w, es + rounds, w1, [done], Next(w1, done));
      es, w' := es + rounds + [done], Next(w1, done);
    }
  }

  // ----- every run -----

  lemma DropIsRun(w: World, c: Command) returns (es: seq<Event>, w': World)
    requires Idle(w) && (c.DropTransport? || c.DropProducer?)
    ensures Reaches(w, es, w') && Idle(w') && w'.s == Apply(w.s, c)
  {
    hide Reaches, CloseTransport, CloseProducer;
    var e := if c.DropTransport? then Event.DropTransport(c.tid) else Event.DropProducer(c.pid);
    OneStep(w, e);
    es, w' := [e], Next(w, e);
  }

  lemma OperationIsRun(w: World, c: Command) returns (es: seq<Event>, w': World)
    requires WellFormed(w) && Idle(w) && FreshIds(w.s, c)
    ensures Reaches(w, es, w') && Idle(w') && w'.s == Apply(w.s, c)
  {
    hide Reaches, WellFormed;
    match c
    case NewTransport(_, _, _, _, _) => es, w' := TransportIsRun(w, c);
    case NewProducer(_, _, _, _, _, _, _, _) => es, w' := TrackIsRun(w, c);
    case NewConsumer(_, _, _, _, _, _) => es, w' := TrackIsRun(w, c);
    case DropTransport(_) => es, w' := DropIsRun(w, c);
    case DropProducer(_) => es, w' := DropIsRun(w, c);
    case EndConnection(conn) => es, w' := TeardownIsRun(w, conn);
    case Crash(worker, answer) => es, w' := CrashIsRun(w, worker, answer);
  }

  lemma {:induction false} RunIsRun(w: World, cs: seq<Command>) returns (es: seq<Event>, w': World)
    requires WellFormed(w) && Idle(w) && RunFresh(w.s, cs)
    ensures Reaches(w, es, w') && Idle(w') && w'.s == Run(w.s, cs)
    decreases cs
  {
    hide Reaches, WellFormed, Apply, FreshIds;
    if cs == [] {
      NoSteps(w);
      es, w' := [], w;
    } else {
      var first, w1 := OperationIsRun(w, cs[0]);
      ReachesWellFormed(w, first, w1);
      var rest;
      rest, w' := RunIsRun(w1, cs[1..]);
      ReachesOn(w, first, w1, rest, w');
      es := first + rest;
    }
  }

  /** The interleaving includes every run of whole operations: what holds of all its reachable worlds
      holds of them, and its steps leave nothing out. */
  lemma EveryRunInterleaves(n: nat, cs: seq<Command>)
    requires RunFresh(Initial(n), cs)
    ensures exists es, w :: Reaches(Start(n), es, w) && Idle(w) && w.s == Run(Initial(n), cs)
  {
    hide Reaches;
    StartWellFormed(n);
    var es, w := RunIsRun(Start(n), cs);
  }
}
