/** Who may publish and who may watch: the authorisation in front of the SFU, and what it gives
    for every run of signalling messages. */
module MediaSignaling {
  import opened Wrappers
  import opened SessionHash
  import opened MapCount
  import opened SfuState
  import opened SfuRegistry
  import opened SfuRuns

  datatype Role = Admin | Student | Invigilator | Faculty | OtherRole

  /** What the three queries find for a user and a session at one moment. */
  datatype Rows = Rows(activeAttempt: Option<nat>, invigilates: bool, ownsExam: bool)

  datatype Denial =
    | NoRoles
    | AdminCannotPublish
    | CandidateCannotConsume
    | NoActiveAttemptInSession
    | InvigilatorCannotPublish
    | InvigilatorNotAssigned
    | FacultyCannotPublish
    | FacultyNotOwner
    | RoleUnauthorized

  datatype Authorization = Authorized(attempt: Option<nat>) | Denied(reason: Denial)

  /** `authorizeParticipant`: roles are examined in order of rank, not of listing. */
  function Authorize(roles: seq<Role>, rows: Rows, direction: Direction): Authorization {
    if roles == [] then Denied(NoRoles)
    else if Admin in roles then
      if direction == Send then Denied(AdminCannotPublish) else Authorized(None)
    else if Student in roles then
      if direction == Recv then Denied(CandidateCannotConsume)
      else if rows.activeAttempt == None then Denied(NoActiveAttemptInSession)
      else Authorized(rows.activeAttempt)
    else if Invigilator in roles then
      if direction == Send then Denied(InvigilatorCannotPublish)
      else if !rows.invigilates then Denied(InvigilatorNotAssigned)
      else Authorized(None)
    else if Faculty in roles then
      if direction == Send then Denied(FacultyCannotPublish)
      else if !rows.ownsExam then Denied(FacultyNotOwner)
      else Authorized(None)
    else Denied(RoleUnauthorized)
  }

  /** The one direction a role set can ever be allowed. */
  function Permitted(roles: seq<Role>): Option<Direction> {
    if Student in roles && Admin !in roles then Some(Send)
    else if exists r :: r in roles && r != OtherRole then Some(Recv)
    else None
  }

  /** The record in the database that a role set's permission rests on. */
  predicate Supported(roles: seq<Role>, rows: Rows) {
    Admin in roles ||
    (if Student in roles then rows.activeAttempt.Some?
     else if Invigilator in roles then rows.invigilates
     else rows.ownsExam)
  }

  lemma AuthorizedExactly(roles: seq<Role>, rows: Rows, d: Direction)
    ensures Authorize(roles, rows, d).Authorized? <==> Permitted(roles) == Some(d) && Supported(roles, rows)
    ensures Authorize(roles, rows, d).Authorized? ==>
              Authorize(roles, rows, d).attempt == if d == Send then rows.activeAttempt else None
  {
    if r :| r in roles && r != OtherRole {
      assert r == Admin || r == Student || r == Invigilator || r == Faculty;
    }
  }

  /** No role set is authorised in both directions, whatever the database says at either time. */
  lemma NeverBothDirections(roles: seq<Role>, early: Rows, late: Rows)
    ensures !(Authorize(roles, early, Send).Authorized? && Authorize(roles, late, Recv).Authorized?)
  {
    AuthorizedExactly(roles, early, Send);
    AuthorizedExactly(roles, late, Recv);
  }

  // ----- signalling messages -----

  /** A message of connection `conn`, with the rows its authorisation reads and mediasoup's
      answers; the last three are events of the server itself. */
  datatype Message =
    | AskTransport(conn: ConnectionId, user: UserId, sid: SessionId, dir: Direction, rows: Rows, transportAnswer: TransportAnswer)
    | AskProduce(conn: ConnectionId, user: UserId, tid: TransportId, kind: Kind, track: TrackType, rows: Rows,
                 closed: bool, created: Option<ProducerId>)
    | AskConsume(conn: ConnectionId, user: UserId, tid: TransportId, pid: ProducerId, rows: Rows, consumeAnswer: ConsumeAnswer)
    | AskCloseProducer(conn: ConnectionId, pid: ProducerId)
    | Disconnected(conn: ConnectionId)
    | TransportClosed(tid: TransportId)
    | WorkerCrashed(worker: nat, recovery: RecoveryAnswer)

  /** The SFU operation that `handleMediaSignaling` performs for a message, if it gets that far. */
  function Dispatch(s: State, roles: ConnectionId -> seq<Role>, m: Message): Option<Command> {
    match m
    case AskTransport(conn, user, sid, dir, rows, answer) =>
      if Authorize(roles(conn), rows, dir).Authorized? then Some(NewTransport(sid, conn, user, dir, answer)) else None
    case AskProduce(conn, user, tid, kind, track, rows, closed, created) =>
      if tid in s.transports && Authorize(roles(conn), rows, Send).Authorized?
      then Some(NewProducer(s.transports[tid].sessionId, tid, closed, kind, track, conn, user, created)) else None
    case AskConsume(conn, user, tid, pid, rows, answer) =>
      if tid in s.transports && Authorize(roles(conn), rows, Recv).Authorized?
      then Some(NewConsumer(s.transports[tid].sessionId, tid, pid, conn, user, answer)) else None
    case AskCloseProducer(_, pid) => Some(DropProducer(pid))
    case Disconnected(conn) => Some(EndConnection(conn))
    case TransportClosed(tid) => Some(DropTransport(tid))
    case WorkerCrashed(w, answer) => Some(Crash(w, answer))
  }

  /** The direction a message asks for, if it asks for one: that of its transport, to send, or to receive. */
  function Wanted(m: Message): Option<(ConnectionId, Direction, Rows)> {
    match m
    case AskTransport(conn, _, _, dir, rows, _) => Some((conn, dir, rows))
    case AskProduce(conn, _, _, _, _, rows, _, _) => Some((conn, Send, rows))
    case AskConsume(conn, _, _, _, rows, _) => Some((conn, Recv, rows))
    case _ => None
  }

  /** A message reaches the SFU exactly if it asks for no direction, or for the one its connection's roles
      permit, with the rows to support it, and any transport it names is registered; produce and consume
      then act in the name of that transport's own session, and for the connection that asked. */
  lemma DispatchedExactly(s: State, roles: ConnectionId -> seq<Role>, m: Message)
    ensures Dispatch(s, roles, m).Some? <==>
              && (Wanted(m).Some? ==> Permitted(roles(Wanted(m).value.0)) == Some(Wanted(m).value.1)
                                      && Supported(roles(Wanted(m).value.0), Wanted(m).value.2))
              && (m.AskProduce? || m.AskConsume? ==> m.tid in s.transports)
    ensures Dispatch(s, roles, m).Some? ==>
              match Dispatch(s, roles, m).value
              case NewTransport(sid, conn, user, dir, answer) =>
                m.AskTransport? && (sid, conn, user, dir, answer) == (m.sid, m.conn, m.user, m.dir, m.transportAnswer)
              case NewProducer(sid, tid, closed, kind, track, conn, user, created) =>
                m.AskProduce? && tid == m.tid && tid in s.transports && sid == s.transports[tid].sessionId
                && (closed, kind, track, conn, user, created) == (m.closed, m.kind, m.track, m.conn, m.user, m.created)
              case NewConsumer(sid, tid, pid, conn, user, answer) =>
                m.AskConsume? && tid == m.tid && tid in s.transports && sid == s.transports[tid].sessionId
                && (pid, conn, user, answer) == (m.pid, m.conn, m.user, m.consumeAnswer)
              case DropProducer(pid) => m.AskCloseProducer? && pid == m.pid
              case EndConnection(conn) => m == Disconnected(conn)
              case DropTransport(tid) => m == TransportClosed(tid)
              case Crash(w, answer) => m == WorkerCrashed(w, answer)
  {
    hide Authorize, Permitted, Supported;
    if Wanted(m).Some? {
      AuthorizedExactly(roles(Wanted(m).value.0), Wanted(m).value.2, Wanted(m).value.1);
    }
  }

  function Handle(s: State, roles: ConnectionId -> seq<Role>, m: Message): State {
    match Dispatch(s, roles, m)
    case None => s
    case Some(c) => Apply(s, c)
  }

  function HandleAll(s: State, roles: ConnectionId -> seq<Role>, ms: seq<Message>): State
    decreases ms
  {
    if ms == [] then s else HandleAll(Handle(s, roles, ms[0]), roles, ms[1..])
  }

  // ----- direction separation -----

  ghost predicate TransportsSeparated(m: map<TransportId, Transport>, roles: ConnectionId -> seq<Role>) {
    forall t | t in m :: Permitted(roles(m[t].connectionId)) == Some(m[t].direction)
  }

  ghost predicate ProducersSeparated(m: map<ProducerId, Producer>, roles: ConnectionId -> seq<Role>) {
    forall p | p in m :: Permitted(roles(m[p].connectionId)) == Some(Send)
  }

  ghost predicate ConsumersSeparated(m: map<ConsumerId, Consumer>, roles: ConnectionId -> seq<Role>) {
    forall c | c in m :: Permitted(roles(m[c].connectionId)) == Some(Recv)
  }

  ghost predicate Separated(s: State, roles: ConnectionId -> seq<Role>) {
    TransportsSeparated(s.transports, roles) && ProducersSeparated(s.producers, roles) && ConsumersSeparated(s.consumers, roles)
  }

  lemma CreateTransportObjects(s: State, sid: SessionId, conn: ConnectionId, user: UserId, dir: Direction, answer: TransportAnswer)
    ensures var s' := CreateTransport(s, sid, conn, user, dir, answer).state;
            && s'.producers == s.producers && s'.consumers == s.consumers
            && forall t | t in s'.transports ::
                 (t in s.transports && s'.transports[t] == s.transports[t])
                 || (s'.transports[t].connectionId == conn && s'.transports[t].direction == dir)
  {
    RouterObjects(s, sid, answer.routerClosed, answer.routerCreated);
  }

  lemma ProduceObjects(s: State, sid: SessionId, tid: TransportId, closed: bool, kind: Kind, track: TrackType,
                       conn: ConnectionId, user: UserId, created: Option<ProducerId>)
    ensures var s' := Produce(s, sid, tid, closed, kind, track, conn, user, created).state;
            && s'.transports == s.transports && s'.consumers == s.consumers
            && forall p | p in s'.producers ::
                 (p in s.producers && s'.producers[p] == s.producers[p]) || s'.producers[p].connectionId == conn
  {
    hide Guard, CountWhere, KeysWhere;
  }

  /** The transports after an operation: old ones, and one that a `NewTransport` may have added. */
  lemma TransportsAfter(s: State, c: Command, roles: ConnectionId -> seq<Role>)
    requires TransportsSeparated(s.transports, roles)
    requires c.NewTransport? ==> Permitted(roles(c.conn)) == Some(c.dir)
    ensures TransportsSeparated(Apply(s, c).transports, roles)
  {
    hide CreateTransport, Produce, Consume, Permitted;
    match c
    case NewTransport(sid, conn, user, dir, answer) => CreateTransportObjects(s, sid, conn, user, dir, answer);
    case NewProducer(sid, tid, closed, kind, track, conn, user, created) =>
      ProduceObjects(s, sid, tid, closed, kind, track, conn, user, created);
    case NewConsumer(sid, tid, pid, conn, user, answer) => ConsumeFrame(s, sid, tid, pid, conn, user, answer);
    case _ =>
  }

  lemma ProducersAfter(s: State, c: Command, roles: ConnectionId -> seq<Role>)
    requires ProducersSeparated(s.producers, roles)
    requires c.NewProducer? ==> Permitted(roles(c.pconn)) == Some(Send)
    ensures ProducersSeparated(Apply(s, c).producers, roles)
  {
    hide CreateTransport, Produce, Consume, Permitted;
    match c
    case NewTransport(sid, conn, user, dir, answer) => CreateTransportObjects(s, sid, conn, user, dir, answer);
    case NewProducer(sid, tid, closed, kind, track, conn, user, created) =>
      ProduceObjects(s, sid, tid, closed, kind, track, conn, user, created);
    case NewConsumer(sid, tid, pid, conn, user, answer) => ConsumeFrame(s, sid, tid, pid, conn, user, answer);
    case _ =>
  }

  lemma ConsumersAfter(s: State, c: Command, roles: ConnectionId -> seq<Role>)
    requires ConsumersSeparated(s.consumers, roles)
    requires c.NewConsumer? ==> Permitted(roles(c.cconn)) == Some(Recv)
    ensures ConsumersSeparated(Apply(s, c).consumers, roles)
  {
    hide CreateTransport, Produce, Guard, Permitted;
    match c
    case NewTransport(sid, conn, user, dir, answer) => CreateTransportObjects(s, sid, conn, user, dir, answer);
    case NewProducer(sid, tid, closed, kind, track, conn, user, created) =>
      ProduceObjects(s, sid, tid, closed, kind, track, conn, user, created);
    case _ =>
  }

  lemma {:induction false} HandleAllSeparated(s: State, roles: ConnectionId -> seq<Role>, ms: seq<Message>)
    requires Separated(s, roles)
    ensures Separated(HandleAll(s, roles, ms), roles)
    decreases ms
  {
    if ms != [] {
      var d := Dispatch(s, roles, ms[0]);
      if d.Some? {
        DispatchedExactly(s, roles, ms[0]);
        TransportsAfter(s, d.value, roles);
        ProducersAfter(s, d.value, roles);
        ConsumersAfter(s, d.value, roles);
      }
      HandleAllSeparated(Handle(s, roles, ms[0]), roles, ms[1..]);
    }
  }

  /** In every run with fixed roles, a connection's transports all point the same way, and no
      connection owns both a producer and a consumer. */
  lemma DirectionsSeparated(n: nat, roles: ConnectionId -> seq<Role>, ms: seq<Message>)
    ensures var s := HandleAll(Initial(n), roles, ms);
            && (forall t, u | t in s.transports && u in s.transports
                             && s.transports[t].connectionId == s.transports[u].connectionId ::
                  s.transports[t].direction == s.transports[u].direction)
            && (forall p, c | p in s.producers && c in s.consumers ::
                  s.producers[p].connectionId != s.consumers[c].connectionId)
            && (forall p, t | p in s.producers && t in s.transports
                             && s.producers[p].connectionId == s.transports[t].connectionId ::
                  s.transports[t].direction == Send)
  {
    HandleAllSeparated(Initial(n), roles, ms);
  }
}
