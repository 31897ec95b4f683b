/** Direction separation when the SFU's calls interleave at their awaits: a request is authorised on
    rows and roles read earlier, suspends, and registers its object when other calls have gone on. */
module SignalingInterleaved {
  import opened Wrappers
  import opened SessionHash
  import opened MapCount
  import opened SfuState
  import opened SfuRegistry
  import opened SfuFencing
  import opened SfuFencingTheorems
  import opened MediaSignaling

  /** The direction in which a step begins a call, and for which connection. */
  function Begins(e: Event): Option<(ConnectionId, Direction)> {
    match e
    case BeginTransport(_, _, conn, _, dir, _) => Some((conn, dir))
    case StartProduce(_, _, _, _, _, _, conn, _) => Some((conn, Send))
    case StartConsume(_, _, _, _, _, conn, _) => Some((conn, Recv))
    case _ => None
  }

  /** A step, with the roles the connection had and the rows the database held when it was authorised. */
  datatype Asked = Asked(event: Event, roles: seq<Role>, rows: Rows)

  /** The handler lets a step through. */
  predicate Admitted(a: Asked) {
    Begins(a.event).Some? ==> Authorize(a.roles, a.rows, Begins(a.event).value.1).Authorized?
  }

  /** The step's roles permit the direction that the connection's first roles permit. */
  predicate SameDirection(a: Asked, first: ConnectionId -> seq<Role>) {
    Begins(a.event).Some? ==> Permitted(a.roles) == Permitted(first(Begins(a.event).value.0))
  }

  ghost predicate CallSeparated(c: Call, first: ConnectionId -> seq<Role>) {
    match c
    case AwaitRouter(_, conn, _, dir, _, _) => Permitted(first(conn)) == Some(dir)
    case AwaitTransport(t, _) => Permitted(first(t.connectionId)) == Some(t.direction)
    case AwaitProduce(p) => Permitted(first(p.connectionId)) == Some(Send)
    case AwaitConsume(c) => Permitted(first(c.connectionId)) == Some(Recv)
    case _ => true
  }

  ghost predicate CallsSeparated(calls: map<CallId, Call>, first: ConnectionId -> seq<Role>) {
    forall id | id in calls :: CallSeparated(calls[id], first)
  }

  /** Every registered object and every suspended call is in its connection's own direction. */
  ghost predicate WorldSeparated(w: World, first: ConnectionId -> seq<Role>) {
    Separated(w.s, first) && CallsSeparated(w.calls, first)
  }

  /** The guards let the step's call through to its await. */
  predicate PassesGuards(w: World, e: Event) {
    match e
    case BeginTransport(_, sid, _, _, _, routerClosed) => PlanRouter(w.s, sid, routerClosed).Ok?
    case StartProduce(_, sid, tid, closed, _, track, _, user) => BeginProduce(w.s, sid, tid, closed, user, track).result.Ok?
    case StartConsume(_, sid, tid, pid, answer, _, _) => BeginConsume(w.s, sid, tid, pid, answer).Ok?
    case _ => false
  }

  /** The step suspends a call against the direction of its connection. */
  predicate Crosses(w: World, e: Event, first: ConnectionId -> seq<Role>) {
    Begins(e).Some? && PassesGuards(w, e) && Permitted(first(Begins(e).value.0)) != Some(Begins(e).value.1)
  }

  /** No registered object is new. */
  ghost predicate ObjectsOnlyLeave(s: State, s': State) {
    && (forall t | t in s'.transports :: t in s.transports && s'.transports[t] == s.transports[t])
    && (forall p | p in s'.producers :: p in s.producers && s'.producers[p] == s.producers[p])
    && (forall c | c in s'.consumers :: c in s.consumers && s'.consumers[c] == s.consumers[c])
  }

  lemma LeavingSeparated(s: State, s': State, first: ConnectionId -> seq<Role>)
    requires Separated(s, first) && ObjectsOnlyLeave(s, s')
    ensures Separated(s', first)
  {}

  lemma BeginProduceLeaves(s: State, sid: SessionId, tid: TransportId, closed: bool, user: UserId, track: TrackType)
    ensures ObjectsOnlyLeave(s, BeginProduce(s, sid, tid, closed, user, track).state)
  {
    hide Guard, CountWhere;
  }

  lemma BeginLeaves(w: World, e: Event)
    requires Enabled(w, e) && Begins(e).Some?
    ensures ObjectsOnlyLeave(w.s, Next(w, e).s)
    ensures !PassesGuards(w, e) ==> Next(w, e).calls == w.calls
  {
    hide PlanRouter, BeginProduce, BeginConsume;
    if e.StartProduce? {
      BeginProduceLeaves(w.s, e.sid, e.tid, e.closed, e.user, e.track);
    }
  }

  /** What a call that passes its guards suspends. */
  lemma Suspends(w: World, e: Event, first: ConnectionId -> seq<Role>)
    requires Enabled(w, e) && Begins(e).Some? && PassesGuards(w, e)
    ensures var calls := Next(w, e).calls;
            e.id in calls && calls == w.calls[e.id := calls[e.id]]
            && (CallSeparated(calls[e.id], first) <==> Permitted(first(Begins(e).value.0)) == Some(Begins(e).value.1))
  {
    hide Guard, CountWhere, Permitted;
  }

  lemma BeginSeparatedExactly(w: World, e: Event, first: ConnectionId -> seq<Role>)
    requires WorldSeparated(w, first) && Enabled(w, e) && Begins(e).Some?
    ensures WorldSeparated(Next(w, e), first) <==> !Crosses(w, e, first)
  {
    hide Next, Enabled, Permitted, PassesGuards, CallSeparated, ObjectsOnlyLeave, Separated;
    BeginLeaves(w, e);
    LeavingSeparated(w.s, Next(w, e).s, first);
    if PassesGuards(w, e) {
      Suspends(w, e, first);
    }
  }

  /** A call that is done registers the object it carried, in the direction it carried. */
  lemma DoneSeparated(w: World, e: Event, first: ConnectionId -> seq<Role>)
    requires WorldSeparated(w, first) && Enabled(w, e)
    requires e.RouterDone? || e.TransportDone? || e.ProduceDone? || e.ConsumeDone?
    ensures WorldSeparated(Next(w, e), first)
  {
    hide Permitted;
    assert CallSeparated(w.calls[e.id], first);
  }

  /** No suspended call is new, but for those of a recovery or a teardown, which carry no object. */
  ghost predicate CallsCarryNothingNew(w: World, w': World) {
    forall id | id in w'.calls ::
      (id in w.calls && w'.calls[id] == w.calls[id])
      || w'.calls[id].AwaitSpawn? || w'.calls[id].AwaitRouters? || w'.calls[id].AwaitTeardown?
  }

  lemma RecoveryLeaves(w: World, e: Event)
    requires Enabled(w, e) && (e.Died? || e.Spawned? || e.SessionRouted? || e.RecoveryDone?)
    ensures ObjectsOnlyLeave(w.s, Next(w, e).s) && CallsCarryNothingNew(w, Next(w, e))
  {
    hide DropTransports, DropConsumers;
  }

  lemma DropLeaves(w: World, e: Event)
    requires Enabled(w, e) && (e.Connect? || e.DropTransport? || e.DropProducer?)
    ensures ObjectsOnlyLeave(w.s, Next(w, e).s) && CallsCarryNothingNew(w, Next(w, e))
  {
    hide CloseTransport, CloseProducer;
    match e
    case Connect(_, _) =>
    case DropTransport(tid) => CloseTransportLeaves(w.s, tid);
    case DropProducer(pid) => CloseProducerLeaves(w.s, pid);
  }

  lemma TeardownLeaves(w: World, e: Event)
    requires Enabled(w, e)
    requires e.StartTeardown? || e.PickTransport? || e.TeardownProducer? || e.FinishTransport? || e.TeardownDone?
    ensures ObjectsOnlyLeave(w.s, Next(w, e).s) && CallsCarryNothingNew(w, Next(w, e))
  {
    hide CloseProducer, FinishTransportOf;
    match e
    case TeardownProducer(_, pid) => CloseProducerLeaves(w.s, pid);
    case FinishTransport(id) => FinishTransportLeaves(w.s, w.calls[id].picked.value.0, w.calls[id].picked.value.1);
    case _ =>
  }

  lemma CloseTransportLeaves(s: State, tid: TransportId)
    ensures ObjectsOnlyLeave(s, CloseTransport(s, tid).0)
  {}

  lemma CloseProducerLeaves(s: State, pid: ProducerId)
    ensures ObjectsOnlyLeave(s, CloseProducer(s, pid))
  {}

  lemma FinishTransportLeaves(s: State, tid: TransportId, t: Transport)
    ensures ObjectsOnlyLeave(s, FinishTransportOf(s, tid, t))
  {
    hide DropConsumers;
  }

  /** A step keeps every object and every suspended call in its connection's direction exactly when
      it does not suspend a call against it: what registers later cannot change that. */
  lemma StepSeparatedExactly(w: World, e: Event, first: ConnectionId -> seq<Role>)
    requires WorldSeparated(w, first) && Enabled(w, e)
    ensures WorldSeparated(Next(w, e), first) <==> !Crosses(w, e, first)
  {
    hide Next, Enabled, Permitted, PassesGuards, ObjectsOnlyLeave, Separated;
    if Begins(e).Some? {
      BeginSeparatedExactly(w, e, first);
    } else if e.RouterDone? || e.TransportDone? || e.ProduceDone? || e.ConsumeDone? {
      DoneSeparated(w, e, first);
    } else {
      if e.Connect? || e.DropTransport? || e.DropProducer? {
        DropLeaves(w, e);
      } else if Removal(e) {
        TeardownLeaves(w, e);
      } else {
        RecoveryLeaves(w, e);
      }
      LeavingSeparated(w.s, Next(w, e).s, first);
    }
  }

  /** An authorised request crosses exactly when its guards pass and the connection's roles by then
      permit another direction than its first ones. */
  lemma AdmittedCrossesExactly(w: World, a: Asked, first: ConnectionId -> seq<Role>)
    requires Enabled(w, a.event) && Admitted(a)
    ensures Crosses(w, a.event, first) <==> PassesGuards(w, a.event) && !SameDirection(a, first)
  {
    hide Permitted, Authorize, PassesGuards;
    if Begins(a.event).Some? {
      AuthorizedExactly(a.roles, a.rows, Begins(a.event).value.1);
    }
  }

  /** The steps lead from `w` to `w'`, each let through by the handler, and no connection's roles
      ever change the direction they permit. */
  ghost predicate ReachesAdmitted(w: World, steps: seq<Asked>, w': World, first: ConnectionId -> seq<Role>)
    decreases steps
  {
    if steps == [] then w' == w
    else Enabled(w, steps[0].event) && Admitted(steps[0]) && SameDirection(steps[0], first)
         && ReachesAdmitted(Next(w, steps[0].event), steps[1..], w', first)
  }

  lemma {:induction false} AdmittedSeparated(w: World, steps: seq<Asked>, w': World, first: ConnectionId -> seq<Role>)
    requires WorldSeparated(w, first) && ReachesAdmitted(w, steps, w', first)
    ensures WorldSeparated(w', first)
    decreases steps
  {
    hide Next, Enabled, Admitted, SameDirection, WorldSeparated, Crosses;
    if steps != [] {
      AdmittedCrossesExactly(w, steps[0], first);
      StepSeparatedExactly(w, steps[0].event, first);
      AdmittedSeparated(Next(w, steps[0].event), steps[1..], w', first);
    }
  }

  /** In every interleaving of signalling requests, worker deaths, recoveries and teardowns, a
      connection's transports share one direction and nobody both publishes and watches. */
  lemma InterleavedSeparated(n: nat, steps: seq<Asked>, w: World, first: ConnectionId -> seq<Role>)
    requires ReachesAdmitted(Start(n), steps, w, first)
    ensures forall t, u | t in w.s.transports && u in w.s.transports
                          && w.s.transports[t].connectionId == w.s.transports[u].connectionId ::
              w.s.transports[t].direction == w.s.transports[u].direction
    ensures forall p, c | p in w.s.producers && c in w.s.consumers ::
              w.s.producers[p].connectionId != w.s.consumers[c].connectionId
    ensures forall p, t | p in w.s.producers && t in w.s.transports
                          && w.s.producers[p].connectionId == w.s.transports[t].connectionId ::
              w.s.transports[t].direction == Send
    ensures forall c, t | c in w.s.consumers && t in w.s.transports
                          && w.s.consumers[c].connectionId == w.s.transports[t].connectionId ::
              w.s.transports[t].direction == Recv
  {
    hide ReachesAdmitted, Permitted;
    AdmittedSeparated(Start(n), steps, w, first);
  }
}
