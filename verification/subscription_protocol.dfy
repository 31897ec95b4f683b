/** The client and the server together. The frames of one socket arrive in order; a subscription is
    granted or denied some time after it arrives, an unsubscription takes effect as it arrives. */
module SubscriptionProtocol {
  import opened Wrappers
  import opened ChannelRegistry
  import opened RealtimeClients

  datatype Phase = Opening | Opened | Closing | Shut

  /** One socket: the browser's view of it, whether the server registered it and whether the server
      is closing it, the frames under way, and the subscriptions that wait for authorisation. */
  datatype Link = Link(phase: Phase, accepted: bool, stopped: bool, inflight: seq<Frame>, pending: multiset<Room>)

  datatype World = World(client: Client, links: map<Socket, Link>, server: Registry)

  datatype Event =
    // the browser
    | ConnectCalled(token: bool, next: Socket, made: bool)
    | OpenFired(ws: Socket, order: seq<Room>)
    | CloseFired(ws: Socket, token: bool)
    | SubscribeCalled(room: Room)
    | UnsubscribeCalled(room: Room)
    | DisconnectCalled
    // the server
    | Accepted(ws: Socket, user: User)
    | Arrived(ws: Socket)
    | Rejected(ws: Socket)
    | Stopped(ws: Socket)
    | Granted(ws: Socket, room: Room)
    | Denied(ws: Socket, room: Room)
    | Revoked(ws: Socket, room: Room)
    | Gone(ws: Socket)

  function Start(): World {
    World(Idle(), map[], Empty())
  }

  predicate CurrentOpen(w: World) {
    w.client.ws.Some? && w.client.ws.value in w.links && w.links[w.client.ws.value].phase == Opened
  }

  /** The frames go to the current socket, if it is open. */
  function Send(w: World, frames: seq<Frame>): World {
    if !CurrentOpen(w) then w else
    var k := w.client.ws.value;
    w.(links := w.links[k := w.links[k].(inflight := w.links[k].inflight + frames)])
  }

  ghost predicate Enabled(w: World, e: Event) {
    match e
    case ConnectCalled(token, next, made) => Connects(w.client, token) && made ==> next !in w.links
    case OpenFired(k, order) => k in w.links && w.links[k].phase == Opening && w.links[k].accepted && Lists(order, w.client.counts)
    case CloseFired(k, _) => k in w.links && w.links[k].phase != Shut
    case Accepted(k, _) => k in w.links && w.links[k].phase == Opening && !w.links[k].accepted
    case Arrived(k) => k in w.links && w.links[k].inflight != []
    case Rejected(k) => k in w.links && w.links[k].inflight != []
    case Stopped(k) => k in w.links && w.links[k].inflight != []
    case Granted(k, room) => k in w.links && room in w.links[k].pending
    case Denied(k, room) => k in w.links && room in w.links[k].pending
    case _ => true
  }

  function Next(w: World, e: Event, cap: nat): World {
    match e
    case ConnectCalled(token, next, made) =>
      w.(client := ConnectCall(w.client, token, next, made),
         links := if Connects(w.client, token) && made then w.links[next := Link(Opening, false, false, [], multiset{})] else w.links)
    case OpenFired(k, order) =>
      if k !in w.links then w else
      var w' := w.(links := w.links[k := w.links[k].(phase := Opened)]);
      var (client, frames) := OpenedCall(w.client, CurrentOpen(w'), order);
      Send(w'.(client := client), frames)
    case CloseFired(k, token) =>
      if k !in w.links then w else
      w.(client := ClosedCall(w.client, token), links := w.links[k := w.links[k].(phase := Shut)])
    case SubscribeCalled(room) =>
      var (client, frames) := SubscribeCall(w.client, CurrentOpen(w), room);
      Send(w.(client := client), frames)
    case UnsubscribeCalled(room) =>
      var (client, frames) := UnsubscribeCall(w.client, CurrentOpen(w), room);
      Send(w.(client := client), frames)
    case DisconnectCalled =>
      w.(client := DisconnectCall(w.client),
         links := if w.client.ws.Some? && w.client.ws.value in w.links
                  then w.links[w.client.ws.value := w.links[w.client.ws.value].(phase := Closing)] else w.links)
    case Accepted(k, user) =>
      if k !in w.links then w else
      w.(server := Register(w.server, k, user, cap), links := w.links[k := w.links[k].(accepted := true)])
    case Arrived(k) =>
      if k !in w.links || w.links[k].inflight == [] then w else
      var (frame, rest) := (w.links[k].inflight[0], w.links[k].inflight[1..]);
      (match frame
       case Sub(room) =>
         w.(links := w.links[k := w.links[k].(inflight := rest, pending := w.links[k].pending + multiset{room})])
       case Unsub(room) =>
         w.(links := w.links[k := w.links[k].(inflight := rest)], server := Unsubscribe(w.server, k, room)))
    case Rejected(k) =>
      if k !in w.links || w.links[k].inflight == [] then w else
      w.(links := w.links[k := w.links[k].(inflight := w.links[k].inflight[1..])])
    case Stopped(k) =>
      if k !in w.links || w.links[k].inflight == [] then w else
      w.(links := w.links[k := w.links[k].(inflight := w.links[k].inflight[1..], stopped := true)])
    case Granted(k, room) =>
      if k !in w.links then w else
      w.(links := w.links[k := w.links[k].(pending := w.links[k].pending - multiset{room})],
         server := Subscribe(w.server, k, room))
    case Denied(k, room) =>
      if k !in w.links then w else
      w.(links := w.links[k := w.links[k].(pending := w.links[k].pending - multiset{room})])
    case Revoked(k, room) => w.(server := Unsubscribe(w.server, k, room))
    case Gone(k) => w.(server := Unregister(w.server, k))
  }

  // ----- what the frames under way will do to one room -----

  predicate Mentions(frames: seq<Frame>, room: Room) {
    exists i :: 0 <= i < |frames| && frames[i].room == room
  }

  /** Whether the room is joined after the frames, if `now` says whether it is before them. */
  function After(now: bool, frames: seq<Frame>, room: Room): bool
    decreases frames
  {
    if frames == [] then now
    else After(if frames[0].room == room then frames[0].Sub? else now, frames[1..], room)
  }

  lemma {:induction false} AfterAppend(now: bool, frames: seq<Frame>, more: seq<Frame>, room: Room)
    ensures After(now, frames + more, room) == After(After(now, frames, room), more, room)
    decreases frames
  {
    if frames == [] {
      assert frames + more == more;
    } else {
      assert (frames + more)[0] == frames[0] && (frames + more)[1..] == frames[1..] + more;
      AfterAppend(if frames[0].room == room then frames[0].Sub? else now, frames[1..], more, room);
    }
  }

  /** What was joined before matters exactly when no frame names the room. */
  lemma {:induction false} AfterMentions(now: bool, frames: seq<Frame>, room: Room)
    ensures Mentions(frames, room) ==> After(now, frames, room) == After(!now, frames, room)
    ensures !Mentions(frames, room) ==> After(now, frames, room) == now
    decreases frames
  {
    if frames != [] {
      AfterMentions(if frames[0].room == room then frames[0].Sub? else now, frames[1..], room);
      AfterMentions(now, frames[1..], room);
      if Mentions(frames[1..], room) {
        var i :| 0 <= i < |frames[1..]| && frames[1..][i].room == room;
        assert frames[i + 1].room == room;
      }
      if Mentions(frames, room) && frames[0].room != room {
        var i :| 0 <= i < |frames| && frames[i].room == room;
        assert frames[1..][i - 1].room == room;
      }
    }
  }

  lemma {:induction false} AfterReplay(now: bool, order: seq<Room>, counts: map<Room, nat>, room: Room)
    ensures After(now, Replay(order, counts), room) <==> now || (room in order && room in counts && counts[room] > 0)
  {
    if order != [] {
      var front, last := order[..|order| - 1], order[|order| - 1];
      assert order == front + [last];
      AfterReplay(now, front, counts, room);
      AfterAppend(now, Replay(front, counts), if last in counts && counts[last] > 0 then [Sub(last)] else [], room);
    }
  }

  // ----- the agreement -----

  /** The current socket is open at both ends. */
  predicate Live(w: World) {
    && CurrentOpen(w)
    && w.client.status == Connected
    && !w.links[w.client.ws.value].stopped
    && w.client.ws.value in w.server.owners
  }

  /** Whether the server will have the current socket in the room once it has taken what was sent. */
  predicate WillHear(w: World, room: Room)
    requires Live(w)
  {
    var k := w.client.ws.value;
    After(room in RoomsOf(w.server, k) || room in w.links[k].pending, w.links[k].inflight, room)
  }

  predicate Agrees(w: World, room: Room) {
    Live(w) ==> (WillHear(w, room) <==> room in w.client.counts)
  }

  /** What the server does that sets the room apart from what the client asked for, when no later
      frame under way names it: an unsubscription overtakes a subscription that still waits for its
      authorisation, a frame is rejected that would have changed something, the only waiting
      subscription is denied, or a membership is revoked. */
  predicate Breaks(w: World, e: Event, room: Room)
    requires Live(w)
  {
    var k := w.client.ws.value;
    var link, joined := w.links[k], room in RoomsOf(w.server, k);
    match e
    case Arrived(x) =>
      x == k && link.inflight != [] && link.inflight[0] == Unsub(room) && room in link.pending && !Mentions(link.inflight[1..], room)
    case Rejected(x) =>
      x == k && link.inflight != [] && link.inflight[0].room == room &&
      link.inflight[0].Sub? != (joined || room in link.pending) && !Mentions(link.inflight[1..], room)
    case Denied(x, r) =>
      x == k && r == room && !joined && link.pending[room] == 1 && !Mentions(link.inflight, room)
    case Revoked(x, r) =>
      x == k && r == room && joined && room !in link.pending && !Mentions(link.inflight, room)
    case _ => false
  }

  // ----- what every reachable world keeps -----

  ghost predicate Fits(w: World) {
    && (w.client.ws.Some? ==> w.client.ws.value in w.links)
    && (forall room :: room in w.client.counts ==> w.client.counts[room] > 0 && room != "")
    && (forall k :: k in w.server.owners || k in w.server.joined ==> k in w.links && w.links[k].accepted)
    && (forall k :: k in w.links && w.links[k].phase == Opening ==>
          w.links[k].inflight == [] && w.links[k].pending == multiset{} && RoomsOf(w.server, k) == {})
  }

  lemma RegisterRooms(s: Registry, ws: Socket, user: User, cap: nat, k: Socket)
    ensures RoomsOf(Register(s, ws, user, cap), k) <= RoomsOf(s, k)
    ensures Register(s, ws, user, cap).owners.Keys <= s.owners.Keys + {ws}
    ensures Register(s, ws, user, cap).joined.Keys <= s.joined.Keys + {ws}
    ensures k != ws && k in Register(s, ws, user, cap).owners ==> RoomsOf(Register(s, ws, user, cap), k) == RoomsOf(s, k)
    ensures ws in Register(s, ws, user, cap).joined && RoomsOf(Register(s, ws, user, cap), ws) == {}
  {}

  lemma FitsServer(w: World, server: Registry)
    requires Fits(w)
    requires server.owners.Keys <= w.server.owners.Keys && server.joined.Keys <= w.server.joined.Keys
    requires forall k :: k in w.links && w.links[k].phase == Opening ==> RoomsOf(server, k) == {}
    ensures Fits(w.(server := server))
  {}

  lemma FitsLink(w: World, k: Socket, link: Link)
    requires Fits(w) && k in w.links
    requires w.links[k].accepted ==> link.accepted
    requires link.phase == Opening ==> w.links[k].phase == Opening && link.inflight == [] && link.pending == multiset{}
    ensures Fits(w.(links := w.links[k := link]))
  {}

  lemma FitsClient(w: World, client: Client)
    requires Fits(w)
    requires client.ws.Some? ==> client.ws.value in w.links
    requires forall room :: room in client.counts ==> client.counts[room] > 0 && room != ""
    ensures Fits(w.(client := client))
  {}

  lemma FitsSend(w: World, frames: seq<Frame>)
    requires Fits(w)
    ensures Fits(Send(w, frames))
  {}

  lemma FitsConnect(w: World, token: bool, next: Socket, made: bool, cap: nat)
    requires Fits(w) && Enabled(w, ConnectCalled(token, next, made))
    ensures Fits(Next(w, ConnectCalled(token, next, made), cap))
  {}

  lemma FitsBrowser(w: World, e: Event, cap: nat)
    requires Fits(w) && Enabled(w, e)
    requires e.ConnectCalled? || e.OpenFired? || e.CloseFired? || e.SubscribeCalled? || e.UnsubscribeCalled? || e.DisconnectCalled?
    ensures Fits(Next(w, e, cap))
  {
    hide Fits, Send;
    match e
    case ConnectCalled(token, next, made) => FitsConnect(w, token, next, made, cap);
    case OpenFired(k, order) =>
      var w' := w.(links := w.links[k := w.links[k].(phase := Opened)]);
      FitsLink(w, k, w'.links[k]);
      var (client, frames) := OpenedCall(w.client, CurrentOpen(w'), order);
      FitsCounts(w');
      FitsClient(w', client);
      FitsSend(w'.(client := client), frames);
    case CloseFired(k, token) =>
      var link := w.links[k].(phase := Shut);
      FitsLink(w, k, link);
      FitsCounts(w);
      FitsClient(w.(links := w.links[k := link]), ClosedCall(w.client, token));
    case SubscribeCalled(room) =>
      var (client, frames) := SubscribeCall(w.client, CurrentOpen(w), room);
      FitsCounts(w);
      FitsClient(w, client);
      FitsSend(w.(client := client), frames);
    case UnsubscribeCalled(room) =>
      var (client, frames) := UnsubscribeCall(w.client, CurrentOpen(w), room);
      FitsCounts(w);
      FitsClient(w, client);
      FitsSend(w.(client := client), frames);
    case DisconnectCalled =>
      FitsClient(w, DisconnectCall(w.client));
      FitsCounts(w);
      if w.client.ws.Some? {
        FitsLink(w.(client := DisconnectCall(w.client)), w.client.ws.value, w.links[w.client.ws.value].(phase := Closing));
      }
  }

  lemma FitsCounts(w: World)
    requires Fits(w)
    ensures w.client.ws.Some? ==> w.client.ws.value in w.links
    ensures forall room :: room in w.client.counts ==> w.client.counts[room] > 0 && room != ""
  {}

  lemma FitsArrived(w: World, k: Socket, cap: nat)
    requires Fits(w) && Enabled(w, Arrived(k))
    ensures Fits(Next(w, Arrived(k), cap))
  {
    hide Fits, Unregister, Subscribe, Unsubscribe, RoomsOf;
    FitsOpening(w);
    var link := w.links[k];
    match link.inflight[0]
    case Sub(room) => FitsLink(w, k, link.(inflight := link.inflight[1..], pending := link.pending + multiset{room}));
    case Unsub(room) =>
      FitsLink(w, k, link.(inflight := link.inflight[1..]));
      FitsUnsubscribe(w.(links := w.links[k := link.(inflight := link.inflight[1..])]), k, room);
  }

  lemma FitsUnsubscribe(w: World, k: Socket, room: Room)
    requires Fits(w)
    ensures Fits(w.(server := Unsubscribe(w.server, k, room)))
  {
    hide Fits, Unsubscribe;
    ServerShrinks(w.server, k, room);
    FitsOpening(w);
    FitsServer(w, Unsubscribe(w.server, k, room));
  }

  lemma FitsServerSide(w: World, e: Event, cap: nat)
    requires Fits(w) && Enabled(w, e) && (e.Granted? || e.Revoked? || e.Gone?)
    ensures Fits(Next(w, e, cap))
  {
    hide Fits, Unregister, Subscribe, Unsubscribe;
    FitsOpening(w);
    match e
    case Granted(k, room) =>
      var link := w.links[k].(pending := w.links[k].pending - multiset{room});
      FitsLink(w, k, link);
      ServerShrinks(w.server, k, room);
      FitsServer(w.(links := w.links[k := link]), Subscribe(w.server, k, room));
    case Revoked(k, room) => FitsUnsubscribe(w, k, room);
    case Gone(k) =>
      ServerShrinks(w.server, k, "");
      FitsServer(w, Unregister(w.server, k));
  }

  lemma FitsOpening(w: World)
    requires Fits(w)
    ensures forall k :: k in w.links && w.links[k].phase == Opening ==>
              w.links[k].inflight == [] && w.links[k].pending == multiset{} && RoomsOf(w.server, k) == {}
  {}

  lemma ServerShrinks(s: Registry, k: Socket, room: Room)
    ensures Subscribe(s, k, room).owners == s.owners && Subscribe(s, k, room).joined.Keys == s.joined.Keys
    ensures Unsubscribe(s, k, room).owners == s.owners && Unsubscribe(s, k, room).joined.Keys == s.joined.Keys
    ensures Unregister(s, k).owners.Keys <= s.owners.Keys && Unregister(s, k).joined.Keys <= s.joined.Keys
    ensures forall x :: RoomsOf(Unsubscribe(s, k, room), x) <= RoomsOf(s, x)
    ensures forall x :: RoomsOf(Unregister(s, k), x) <= RoomsOf(s, x)
    ensures forall x :: x != k ==> RoomsOf(Subscribe(s, k, room), x) == RoomsOf(s, x)
  {}

  lemma FitsAccepted(w: World, k: Socket, user: User, cap: nat)
    requires Fits(w) && Enabled(w, Accepted(k, user))
    ensures Fits(Next(w, Accepted(k, user), cap))
  {
    hide Register;
    forall x ensures RoomsOf(Next(w, Accepted(k, user), cap).server, x) <= RoomsOf(w.server, x) {
      RegisterRooms(w.server, k, user, cap, x);
    }
    RegisterRooms(w.server, k, user, cap, k);
  }

  lemma FitsNext(w: World, e: Event, cap: nat)
    requires Fits(w) && Enabled(w, e)
    ensures Fits(Next(w, e, cap))
  {
    hide Fits;
    match e
    case Accepted(k, user) => FitsAccepted(w, k, user, cap);
    case Rejected(k) => FitsOpening(w); FitsLink(w, k, w.links[k].(inflight := w.links[k].inflight[1..]));
    case Stopped(k) => FitsOpening(w); FitsLink(w, k, w.links[k].(inflight := w.links[k].inflight[1..], stopped := true));
    case Denied(k, room) => FitsOpening(w); FitsLink(w, k, w.links[k].(pending := w.links[k].pending - multiset{room}));
    case ConnectCalled(_, _, _) => FitsBrowser(w, e, cap);
    case OpenFired(_, _) => FitsBrowser(w, e, cap);
    case CloseFired(_, _) => FitsBrowser(w, e, cap);
    case SubscribeCalled(_) => FitsBrowser(w, e, cap);
    case UnsubscribeCalled(_) => FitsBrowser(w, e, cap);
    case DisconnectCalled => FitsBrowser(w, e, cap);
    case Arrived(k) => FitsArrived(w, k, cap);
    case _ => FitsServerSide(w, e, cap);
  }

  // ----- the current socket -----

  /** What a step leaves of the current socket's membership of a room. */
  lemma ArrivedAgrees(w: World, k: Socket, cap: nat, room: Room)
    requires Live(w) && Agrees(w, room) && Enabled(w, Arrived(k)) && RoomsMirrored(w.server)
    ensures Live(Next(w, Arrived(k), cap))
    ensures Agrees(Next(w, Arrived(k), cap), room) <==> !Breaks(w, Arrived(k), room)
  {
    if w.client.ws == Some(k) {
      AfterMentions(false, w.links[k].inflight[1..], room);
      AfterMentions(true, w.links[k].inflight[1..], room);
    }
  }

  lemma FrameLost(w: World, k: Socket, cap: nat, room: Room)
    requires Live(w) && Agrees(w, room) && Enabled(w, Rejected(k))
    ensures Live(Next(w, Rejected(k), cap))
    ensures Agrees(Next(w, Rejected(k), cap), room) <==> !Breaks(w, Rejected(k), room)
  {
    if w.client.ws == Some(k) {
      AfterMentions(false, w.links[k].inflight[1..], room);
      AfterMentions(true, w.links[k].inflight[1..], room);
    }
  }

  lemma DecisionAgrees(w: World, k: Socket, r: Room, granted: bool, cap: nat, room: Room)
    requires Live(w) && Agrees(w, room) && Enabled(w, Granted(k, r)) && RoomsMirrored(w.server)
    ensures var e := if granted then Granted(k, r) else Denied(k, r);
            Live(Next(w, e, cap)) && (Agrees(Next(w, e, cap), room) <==> !Breaks(w, e, room))
  {
    if w.client.ws == Some(k) {
      AfterMentions(false, w.links[k].inflight, room);
      AfterMentions(true, w.links[k].inflight, room);
    }
  }

  lemma RevokedAgrees(w: World, k: Socket, r: Room, cap: nat, room: Room)
    requires Live(w) && Agrees(w, room) && Enabled(w, Revoked(k, r)) && RoomsMirrored(w.server)
    ensures Live(Next(w, Revoked(k, r), cap))
    ensures Agrees(Next(w, Revoked(k, r), cap), room) <==> !Breaks(w, Revoked(k, r), room)
  {
    var c := w.client.ws.value;
    if k == c {
      AfterMentions(false, w.links[k].inflight, room);
      AfterMentions(true, w.links[k].inflight, room);
    }
  }

  /** Frames sent now are the last to take effect. */
  lemma SendAgrees(w: World, client: Client, frames: seq<Frame>, room: Room)
    requires Live(w) && client.ws == w.client.ws && client.status == Connected
    ensures var w' := Send(w.(client := client), frames);
            Live(w') && (WillHear(w', room) == After(WillHear(w, room), frames, room))
  {
    var k := w.client.ws.value;
    AfterAppend(room in RoomsOf(w.server, k) || room in w.links[k].pending, w.links[k].inflight, frames, room);
  }

  lemma BrowserAgrees(w: World, e: Event, cap: nat, room: Room)
    requires Fits(w) && Enabled(w, e) && Live(w) && Agrees(w, room) && Live(Next(w, e, cap))
    requires e.ConnectCalled? || e.OpenFired? || e.CloseFired? || e.SubscribeCalled? || e.UnsubscribeCalled? || e.DisconnectCalled?
    ensures Agrees(Next(w, e, cap), room)
  {
    match e
    case SubscribeCalled(r) =>
      var (client, frames) := SubscribeCall(w.client, true, r);
      SendAgrees(w, client, frames, room);
    case UnsubscribeCalled(r) =>
      var (client, frames) := UnsubscribeCall(w.client, true, r);
      SendAgrees(w, client, frames, room);
    case OpenFired(k, order) =>
      var w' := w.(links := w.links[k := w.links[k].(phase := Opened)]);
      var (client, frames) := OpenedCall(w.client, true, order);
      SendAgrees(w', client, frames, room);
      AfterReplay(WillHear(w', room), order, w.client.counts, room);
    case _ =>
  }

  /** A step between two live worlds keeps the agreement on a room exactly when it does not break it. */
  lemma StepAgreesExactly(w: World, e: Event, cap: nat, room: Room)
    requires Fits(w) && Enabled(w, e) && RoomsMirrored(w.server)
    requires Live(w) && Agrees(w, room) && Live(Next(w, e, cap))
    ensures Agrees(Next(w, e, cap), room) <==> !Breaks(w, e, room)
  {
    match e
    case Arrived(k) => ArrivedAgrees(w, k, cap, room);
    case Rejected(k) => FrameLost(w, k, cap, room);
    case Granted(k, r) => DecisionAgrees(w, k, r, true, cap, room);
    case Denied(k, r) => DecisionAgrees(w, k, r, false, cap, room);
    case Revoked(k, r) => RevokedAgrees(w, k, r, cap, room);
    case Accepted(k, user) => RegisterRooms(w.server, k, user, cap, w.client.ws.value);
    case Stopped(k) =>
    case Gone(k) =>
    case _ => BrowserAgrees(w, e, cap, room);
  }

  /** A socket that just opened agrees on every room, whatever happened on the ones before it. */
  lemma OpenAgrees(w: World, e: Event, cap: nat, room: Room)
    requires Fits(w) && Enabled(w, e)
    requires e.OpenFired? && w.client.ws == Some(e.ws)
    ensures Agrees(Next(w, e, cap), room)
  {
    var k := e.ws;
    assert RoomsOf(w.server, k) == {} && w.links[k].inflight == [] && w.links[k].pending == multiset{};
    var frames := Replay(e.order, w.client.counts);
    assert w.links[k].inflight + frames == frames;
    AfterReplay(false, e.order, w.client.counts, room);
  }

  // ----- runs -----

  lemma RoomsNext(w: World, e: Event, cap: nat)
    requires Fits(w) && Enabled(w, e) && RoomsMirrored(w.server)
    ensures RoomsMirrored(Next(w, e, cap).server)
  {
    hide RoomsMirrored, Register, Unregister, Subscribe, Unsubscribe;
    match e
    case Accepted(k, user) => RegisterKeepsRooms(w.server, k, user, cap);
    case Arrived(k) => UnsubscribeKeepsRooms(w.server, k, w.links[k].inflight[0].room);
    case Granted(k, room) => SubscribeKeepsRooms(w.server, k, room);
    case Revoked(k, room) => UnsubscribeKeepsRooms(w.server, k, room);
    case Gone(k) => UnregisterKeepsRooms(w.server, k);
    case _ =>
  }

  function Run(es: seq<Event>, cap: nat): World {
    if es == [] then Start() else Next(Run(es[..|es| - 1], cap), es[|es| - 1], cap)
  }

  ghost predicate Possible(es: seq<Event>, cap: nat) {
    es == [] || (Possible(es[..|es| - 1], cap) && Enabled(Run(es[..|es| - 1], cap), es[|es| - 1]))
  }

  lemma {:induction false} RunFits(es: seq<Event>, cap: nat)
    requires Possible(es, cap)
    ensures Fits(Run(es, cap)) && RoomsMirrored(Run(es, cap).server)
  {
    if es != [] {
      RunFits(es[..|es| - 1], cap);
      FitsNext(Run(es[..|es| - 1], cap), es[|es| - 1], cap);
      RoomsNext(Run(es[..|es| - 1], cap), es[|es| - 1], cap);
    }
  }

  // ----- what the components asked for, from the history alone -----

  /** How many uses of a room are outstanding: one more for each subscription, one less for each
      unsubscription while there is one, none after a disconnection. The empty name is no room. */
  function Uses(es: seq<Event>, room: Room): nat {
    if es == [] || room == "" then 0 else
    var before := Uses(es[..|es| - 1], room);
    match es[|es| - 1]
    case SubscribeCalled(r) => if r == room then before + 1 else before
    case UnsubscribeCalled(r) => if r == room && before > 0 then before - 1 else before
    case DisconnectCalled => 0
    case _ => before
  }

  /** The client's count of a room is the number of uses asked for, whatever its sockets go through. */
  lemma {:induction false} CountsAreUses(es: seq<Event>, room: Room, cap: nat)
    ensures CountOf(Run(es, cap).client, room) == Uses(es, room)
    ensures room in Run(es, cap).client.counts <==> Uses(es, room) > 0
  {
    if es != [] {
      CountsAreUses(es[..|es| - 1], room, cap);
      CountStep(Run(es[..|es| - 1], cap), es[|es| - 1], room, cap);
    }
  }

  lemma CountStep(w: World, e: Event, room: Room, cap: nat)
    requires room in w.client.counts <==> CountOf(w.client, room) > 0
    requires room == "" ==> CountOf(w.client, room) == 0
    ensures var before, after := CountOf(w.client, room), CountOf(Next(w, e, cap).client, room);
            && (room in Next(w, e, cap).client.counts <==> after > 0)
            && after ==
               match e
               case SubscribeCalled(r) => if r == room != "" then before + 1 else before
               case UnsubscribeCalled(r) => if r == room && before > 0 then before - 1 else before
               case DisconnectCalled => 0
               case _ => before
  {
    hide Register, Unregister, Subscribe, Unsubscribe;
  }

  // ----- how often it tries again -----

  /** The closings since the last opening or disconnection after which the client set out to reconnect. */
  function Failures(es: seq<Event>, cap: nat): nat {
    if es == [] then 0 else
    var front, before := es[..|es| - 1], Failures(es[..|es| - 1], cap);
    match es[|es| - 1]
    case CloseFired(k, token) =>
      if k in Run(front, cap).links && token && Run(front, cap).client.status != Disconnected then before + 1 else before
    case OpenFired(k, _) => if k in Run(front, cap).links then 0 else before
    case DisconnectCalled => 0
    case _ => before
  }

  /** The delay before the next attempt is that of the number of failures since the last success, and a
      closing that is to be made good leaves a timer. */
  lemma {:induction false} AttemptsAreFailures(es: seq<Event>, cap: nat)
    ensures Run(es, cap).client.attempts == Failures(es, cap)
    ensures es != [] && Failures(es, cap) > Failures(es[..|es| - 1], cap) ==>
              Run(es, cap).client.timer && Run(es, cap).client.status == Reconnecting && Run(es, cap).client.ws == None
  {
    hide Register, Unregister, Subscribe, Unsubscribe;
    if es != [] {
      AttemptsAreFailures(es[..|es| - 1], cap);
    }
  }

  /** No step of the run breaks the room, and no socket opens that is not the client's current one. */
  predicate Faithful(es: seq<Event>, room: Room, cap: nat) {
    es == [] ||
    (var w, e := Run(es[..|es| - 1], cap), es[|es| - 1];
     && Faithful(es[..|es| - 1], room, cap)
     && (Live(w) ==> !Breaks(w, e, room))
     && (e.OpenFired? ==> w.client.ws == Some(e.ws)))
  }

  /** Only the opening of the current socket makes a world live. */
  lemma BecomesLive(w: World, e: Event, cap: nat)
    requires Fits(w) && Enabled(w, e) && !Live(w) && Live(Next(w, e, cap))
    ensures e.OpenFired?
  {
    match e
    case Accepted(k, user) => RegisterRooms(w.server, k, user, cap, k);
    case Gone(k) => UnregisterOwners(w.server, k);
    case _ =>
  }

  lemma {:induction false} AgreesThroughout(es: seq<Event>, room: Room, cap: nat)
    requires Possible(es, cap) && Faithful(es, room, cap)
    ensures Agrees(Run(es, cap), room)
  {
    if es != [] {
      hide Next, Breaks;
      var w, e := Run(es[..|es| - 1], cap), es[|es| - 1];
      AgreesThroughout(es[..|es| - 1], room, cap);
      RunFits(es[..|es| - 1], cap);
      if Live(Next(w, e, cap)) {
        if Live(w) {
          StepAgreesExactly(w, e, cap, room);
        } else {
          BecomesLive(w, e, cap);
          OpenAgrees(w, e, cap, room);
        }
      }
    }
  }

  /** In every run in which the server breaks nothing, the server will have the live socket in a room
      exactly if a use of it is outstanding, through any number of drops and reconnections. */
  lemma SubscriptionsConverge(es: seq<Event>, room: Room, cap: nat)
    requires Possible(es, cap) && Faithful(es, room, cap) && Live(Run(es, cap))
    ensures WillHear(Run(es, cap), room) <==> Uses(es, room) > 0
  {
    hide Next, Possible, Faithful, Live, WillHear, Uses;
    AgreesThroughout(es, room, cap);
    CountsAreUses(es, room, cap);
  }

  /** Once nothing is under way and nothing waits, the room's broadcasts reach the live socket
      exactly if a use of it is outstanding. */
  lemma QuietSubscribers(es: seq<Event>, room: Room, cap: nat)
    requires Possible(es, cap) && Faithful(es, room, cap) && Live(Run(es, cap))
    requires var w := Run(es, cap); w.links[w.client.ws.value].inflight == [] && room !in w.links[w.client.ws.value].pending
    ensures var w := Run(es, cap); w.client.ws.value in Subscribers(w.server, room) <==> Uses(es, room) > 0
  {
    hide Next, Fits, Breaks, Enabled, Uses;
    RunFits(es, cap);
    SubscriptionsConverge(es, room, cap);
  }

  /** A socket that is gone hears no room and has no owner, until it is accepted again. */
  lemma {:induction false} GoneHearsNothing(es: seq<Event>, k: Socket, more: seq<Event>, room: Room, cap: nat)
    requires Possible(es + [Gone(k)] + more, cap)
    requires forall i :: 0 <= i < |more| ==> !(more[i].Accepted? && more[i].ws == k)
    ensures var w := Run(es + [Gone(k)] + more, cap); k !in w.server.owners && k !in Subscribers(w.server, room)
    decreases more
  {
    hide Next, Enabled, Fits;
    var all := es + [Gone(k)] + more;
    assert Run(all, cap) == Next(Run(all[..|all| - 1], cap), all[|all| - 1], cap);
    if more == [] {
      assert all[..|all| - 1] == es && all[|all| - 1] == Gone(k);
      RunFits(es, cap);
      GoneStep(Run(es, cap), k, room, cap);
    } else {
      var front := more[..|more| - 1];
      assert all[..|all| - 1] == es + [Gone(k)] + front && all[|all| - 1] == more[|more| - 1];
      GoneHearsNothing(es, k, front, room, cap);
      RunFits(es + [Gone(k)] + front, cap);
      StaysGone(Run(es + [Gone(k)] + front, cap), more[|more| - 1], k, room, cap);
    }
  }

  lemma GoneStep(w: World, k: Socket, room: Room, cap: nat)
    requires RoomsMirrored(w.server)
    ensures var s := Next(w, Gone(k), cap).server; k !in s.owners && k !in Subscribers(s, room)
  {
    UnregisteredHearers(w.server, k, room);
  }

  lemma StaysGone(w: World, e: Event, k: Socket, room: Room, cap: nat)
    requires RoomsMirrored(w.server) && k !in w.server.owners && k !in Subscribers(w.server, room)
    requires !(e.Accepted? && e.ws == k)
    ensures var s := Next(w, e, cap).server; k !in s.owners && k !in Subscribers(s, room)
  {
    hide Register, Unregister;
    match e
    case Accepted(x, user) =>
      RegisterRooms(w.server, x, user, cap, k);
      RegisteredHearers(w.server, x, user, cap, room);
    case Gone(x) => UnregisteredHearers(w.server, x, room);
    case _ =>
  }

  lemma RegisteredHearers(s: Registry, ws: Socket, user: User, cap: nat, room: Room)
    requires RoomsMirrored(s)
    ensures Subscribers(Register(s, ws, user, cap), room) <= Subscribers(s, room)
  {
    var filed, oldest := Filed(s, user), SocketsOf(s, user);
    if oldest != [] {
      UnregisteredHearers(filed, oldest[0], room);
    }
  }

  /** A world with one socket, open at both ends. */
  function OneSocket(counts: map<Room, nat>, inflight: seq<Frame>, pending: multiset<Room>, server: Registry): World {
    World(Client(Connected, Some(0), 0, false, counts), map[0 := Link(Opened, true, false, inflight, pending)], server)
  }

  function OneServer(rooms: map<Room, set<Socket>>, joined: set<Room>): Registry {
    Registry(rooms, map[0 := joined], map[7 := [0]], map[0 := 7])
  }

  lemma OneSocketOpens(cap: nat)
    ensures var es := [ConnectCalled(true, 0, true), Accepted(0, 7), OpenFired(0, [])];
            Possible(es, cap) && Run(es, cap) == OneSocket(map[], [], multiset{}, OneServer(map[], {}))
  {
    var es := [ConnectCalled(true, 0, true), Accepted(0, 7), OpenFired(0, [])];
    FirstRegistration(Empty(), 0, 7, cap);
    assert es[..0] == [] && es[..3] == es;
    RunStep(es, 0, cap);
    var made := World(Client(Connecting, Some(0), 0, false, map[]), map[0 := Link(Opening, false, false, [], multiset{})], Empty());
    assert Run(es[..1], cap) == made;
    RunStep(es, 1, cap);
    var accepted := made.(links := map[0 := Link(Opening, true, false, [], multiset{})], server := OneServer(map[], {}));
    assert Run(es[..2], cap) == accepted;
    RunStep(es, 2, cap);
    var none: seq<Frame> := [];
    assert none + Replay([], map[]) == none;
  }

  lemma SubscribeArrives(cap: nat)
    ensures var w := OneSocket(map[], [], multiset{}, OneServer(map[], {}));
            Next(Next(w, SubscribeCalled("r"), cap), Arrived(0), cap) ==
            OneSocket(map["r" := 1], [], multiset{"r"}, OneServer(map[], {}))
  {
    var none: seq<Frame> := [];
    assert none + [Sub("r")] == [Sub("r")] && [Sub("r")][1..] == none;
    var w := OneSocket(map[], [], multiset{}, OneServer(map[], {}));
    var sent := OneSocket(map["r" := 1], [Sub("r")], multiset{}, w.server);
    assert Next(w, SubscribeCalled("r"), cap) == sent;
    assert multiset{} + multiset{"r"} == multiset{"r"};
    assert sent.links[0].(inflight := none, pending := multiset{"r"}) == Link(Opened, true, false, none, multiset{"r"});
    assert Next(sent, Arrived(0), cap) == OneSocket(map["r" := 1], none, multiset{"r"}, w.server);
  }

  lemma UnsubscribeArrives(cap: nat)
    ensures var w := OneSocket(map["r" := 1], [], multiset{"r"}, OneServer(map[], {}));
            Next(Next(w, UnsubscribeCalled("r"), cap), Arrived(0), cap) ==
            OneSocket(map[], [], multiset{"r"}, OneServer(map[], {}))
  {
    var none: seq<Frame> := [];
    assert none + [Unsub("r")] == [Unsub("r")] && [Unsub("r")][1..] == none;
    assert map["r" := 1 as nat] - {"r"} == map[];
    var w := OneSocket(map["r" := 1], [], multiset{"r"}, OneServer(map[], {}));
    assert Next(w, UnsubscribeCalled("r"), cap) == OneSocket(map[], [Unsub("r")], multiset{"r"}, w.server);
    var empty: set<Room> := {};
    assert empty - {"r"} == empty;
    assert Unsubscribe(w.server, 0, "r") == w.server;
  }

  lemma GrantJoins(cap: nat)
    ensures Next(OneSocket(map[], [], multiset{"r"}, OneServer(map[], {})), Granted(0, "r"), cap) ==
            OneSocket(map[], [], multiset{}, OneServer(map["r" := {0}], {"r"}))
  {
    var s := OneServer(map[], {});
    var sockets: set<Socket>, rooms: set<Room> := {}, {};
    assert sockets + {0} == {0} && rooms + {"r"} == {"r"};
    assert Subscribe(s, 0, "r").joined == map[0 := {"r"}];
    assert Subscribe(s, 0, "r").rooms == map["r" := {0}];
  }

  function Overtaken(): seq<Event> {
    [ConnectCalled(true, 0, true), Accepted(0, 7), OpenFired(0, []), SubscribeCalled("r"), Arrived(0), UnsubscribeCalled("r"),
     Arrived(0), Granted(0, "r")]
  }

  /** An unsubscription that overtakes the authorisation leaves the socket in a room nobody counts. */
  lemma OvertakingLeavesRoom(cap: nat)
    ensures Possible(Overtaken(), cap)
    ensures Run(Overtaken(), cap) == OneSocket(map[], [], multiset{}, OneServer(map["r" := {0}], {"r"}))
  {
    hide Next, Possible;
    var es := Overtaken();
    OneSocketOpens(cap);
    assert es[..3] == [ConnectCalled(true, 0, true), Accepted(0, 7), OpenFired(0, [])] && es[..8] == es;
    RunStep(es, 3, cap);
    RunStep(es, 4, cap);
    SubscribeArrives(cap);
    RunStep(es, 5, cap);
    RunStep(es, 6, cap);
    UnsubscribeArrives(cap);
    RunStep(es, 7, cap);
    GrantJoins(cap);
    Deliverable(cap);
  }

  lemma Deliverable(cap: nat)
    ensures Enabled(Next(OneSocket(map[], [], multiset{}, OneServer(map[], {})), SubscribeCalled("r"), cap), Arrived(0))
    ensures Enabled(Next(OneSocket(map["r" := 1], [], multiset{"r"}, OneServer(map[], {})), UnsubscribeCalled("r"), cap), Arrived(0))
  {}

  lemma RunStep(es: seq<Event>, i: nat, cap: nat)
    requires i < |es|
    ensures Run(es[..i + 1], cap) == Next(Run(es[..i], cap), es[i], cap)
    ensures Possible(es[..i + 1], cap) == (Possible(es[..i], cap) && Enabled(Run(es[..i], cap), es[i]))
  {
    assert es[..i + 1][..i] == es[..i];
  }
}
