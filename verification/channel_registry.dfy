/** The server's room and connection indexes as values, and what every run of their operations keeps. */
module ChannelRegistry {
  import opened Sequences

  type Socket = nat
  type User = nat
  type Room = string

  /** `users` lists a user's sockets in the order in which they were added. */
  datatype Registry = Registry(
    rooms: map<Room, set<Socket>>,
    joined: map<Socket, set<Room>>,
    users: map<User, seq<Socket>>,
    owners: map<Socket, User>)

  function Empty(): Registry {
    Registry(map[], map[], map[], map[])
  }

  function Added(xs: seq<Socket>, x: Socket): seq<Socket> {
    if x in xs then xs else xs + [x]
  }

  function Remove(xs: seq<Socket>, x: Socket): (r: seq<Socket>)
    ensures |r| <= |xs|
    ensures forall y :: y in r <==> y in xs && y != x
  {
    if xs == [] then [] else if xs[0] == x then Remove(xs[1..], x) else [xs[0]] + Remove(xs[1..], x)
  }

  function SocketsOf(s: Registry, user: User): seq<Socket> {
    if user in s.users then s.users[user] else []
  }

  function RoomsOf(s: Registry, ws: Socket): set<Room> {
    if ws in s.joined then s.joined[ws] else {}
  }

  function Subscribers(s: Registry, room: Room): set<Socket> {
    if room in s.rooms then s.rooms[room] else {}
  }

  /** A socket leaves some rooms; a room that it leaves empty is forgotten. */
  function Leave(rooms: map<Room, set<Socket>>, ws: Socket, left: set<Room>): map<Room, set<Socket>> {
    map r | r in rooms && !(r in left && rooms[r] - {ws} == {}) :: if r in left then rooms[r] - {ws} else rooms[r]
  }

  /** A socket leaves its user; a user with no socket left is forgotten. */
  function Drop(users: map<User, seq<Socket>>, user: User, ws: Socket): map<User, seq<Socket>> {
    if user !in users then users else
    var remaining := Remove(users[user], ws);
    if remaining == [] then users - {user} else users[user := remaining]
  }

  function Unregister(s: Registry, ws: Socket): Registry {
    if ws !in s.owners then s else
    s.(users := Drop(s.users, s.owners[ws], ws),
       rooms := Leave(s.rooms, ws, RoomsOf(s, ws)),
       joined := s.joined - {ws},
       owners := s.owners - {ws})
  }

  /** The user gets an entry. */
  function Filed(s: Registry, user: User): Registry {
    s.(users := s.users[user := SocketsOf(s, user)])
  }

  /** A user at the cap loses the oldest socket first. When that was the only one, the user's entry
      goes with it and the new socket is not filed under the user. */
  function Register(s: Registry, ws: Socket, user: User, cap: nat): Registry {
    var present := SocketsOf(s, user);
    var filed := Filed(s, user);
    var kept := if |present| >= cap && present != [] && present[0] != ws then Unregister(filed, present[0]) else filed;
    kept.(users := if user in kept.users then kept.users[user := Added(kept.users[user], ws)] else kept.users,
          joined := kept.joined[ws := {}],
          owners := kept.owners[ws := user])
  }

  function Subscribe(s: Registry, ws: Socket, room: Room): Registry {
    if ws !in s.owners then s else
    s.(rooms := s.rooms[room := Subscribers(s, room) + {ws}],
       joined := if ws in s.joined then s.joined[ws := s.joined[ws] + {room}] else s.joined)
  }

  function Unsubscribe(s: Registry, ws: Socket, room: Room): Registry {
    s.(rooms := Leave(s.rooms, ws, {room}),
       joined := if ws in s.joined then s.joined[ws := s.joined[ws] - {room}] else s.joined)
  }

  // ----- what the operations keep -----

  ghost predicate Mirror(rooms: map<Room, set<Socket>>, joined: map<Socket, set<Room>>) {
    && (forall room :: room in rooms ==> rooms[room] != {})
    && (forall room, ws :: room in rooms && ws in rooms[room] ==> ws in joined && room in joined[ws])
    && (forall ws, room :: ws in joined && room in joined[ws] ==> room in rooms && ws in rooms[room])
  }

  ghost predicate RoomsMirrored(s: Registry) {
    s.joined.Keys == s.owners.Keys && Mirror(s.rooms, s.joined)
  }

  ghost predicate UserMirror(users: map<User, seq<Socket>>, owners: map<Socket, User>) {
    && (forall u :: u in users ==> users[u] != [] && NoDuplicates(users[u]))
    && (forall u, ws :: u in users && ws in users[u] ==> ws in owners && owners[ws] == u)
    && (forall ws :: ws in owners ==> owners[ws] in users && ws in users[owners[ws]])
  }

  ghost predicate UsersMirrored(s: Registry) {
    UserMirror(s.users, s.owners)
  }

  ghost predicate Capped(s: Registry, cap: nat) {
    forall u :: u in s.users ==> |s.users[u]| <= cap
  }

  ghost predicate Agree(s: Registry, cap: nat) {
    RoomsMirrored(s) && UsersMirrored(s) && Capped(s, cap)
  }

  lemma {:induction false} RemoveKeepsOrder(xs: seq<Socket>, x: Socket)
    requires NoDuplicates(xs)
    ensures NoDuplicates(Remove(xs, x))
    ensures x in xs ==> |Remove(xs, x)| == |xs| - 1
    ensures x !in xs ==> Remove(xs, x) == xs
  {
    if xs != [] {
      assert NoDuplicates(xs[1..]);
      RemoveKeepsOrder(xs[1..], x);
      var rest := Remove(xs[1..], x);
      assert xs[0] !in xs[1..];
      forall j | 0 <= j < |rest| ensures rest[j] != xs[0] {
        assert rest[j] in rest;
      }
    }
  }

  lemma RemoveHead(xs: seq<Socket>)
    requires xs != [] && NoDuplicates(xs)
    ensures Remove(xs, xs[0]) == xs[1..]
  {
    assert NoDuplicates(xs[1..]);
    RemoveKeepsOrder(xs[1..], xs[0]);
  }

  lemma UnregisterKeepsRooms(s: Registry, ws: Socket)
    requires RoomsMirrored(s)
    ensures RoomsMirrored(Unregister(s, ws))
  {}

  lemma UnregisterKeepsUsers(s: Registry, ws: Socket)
    requires UsersMirrored(s)
    ensures UsersMirrored(Unregister(s, ws))
  {
    if ws in s.owners {
      RemoveKeepsOrder(s.users[s.owners[ws]], ws);
    }
  }

  lemma UnregisterKeeps(s: Registry, ws: Socket, cap: nat)
    requires Agree(s, cap)
    ensures Agree(Unregister(s, ws), cap)
  {
    UnregisterKeepsRooms(s, ws);
    UnregisterKeepsUsers(s, ws);
  }

  lemma MirrorJoin(rooms: map<Room, set<Socket>>, joined: map<Socket, set<Room>>, ws: Socket, room: Room)
    requires Mirror(rooms, joined) && ws in joined
    ensures Mirror(rooms[room := (if room in rooms then rooms[room] else {}) + {ws}], joined[ws := joined[ws] + {room}])
  {
    var rooms', joined' := rooms[room := (if room in rooms then rooms[room] else {}) + {ws}], joined[ws := joined[ws] + {room}];
    forall r, x | r in rooms' && x in rooms'[r] ensures x in joined' && r in joined'[x] {
      assert (r == room && x == ws) || (r in rooms && x in rooms[r]);
    }
    forall x, r | x in joined' && r in joined'[x] ensures r in rooms' && x in rooms'[r] {
      assert (r == room && x == ws) || (x in joined && r in joined[x]);
    }
  }

  lemma MirrorPart(rooms: map<Room, set<Socket>>, joined: map<Socket, set<Room>>, ws: Socket, room: Room)
    requires Mirror(rooms, joined)
    ensures Mirror(Leave(rooms, ws, {room}), if ws in joined then joined[ws := joined[ws] - {room}] else joined)
  {
    var rooms' := Leave(rooms, ws, {room});
    var joined' := if ws in joined then joined[ws := joined[ws] - {room}] else joined;
    forall r, x | r in rooms' && x in rooms'[r] ensures x in joined' && r in joined'[x] {
      assert r in rooms && x in rooms[r];
    }
    forall x, r | x in joined' && r in joined'[x] ensures r in rooms' && x in rooms'[r] {
      assert x in joined && r in joined[x] && !(x == ws && r == room);
      assert x in rooms[r] - {ws} || r != room;
    }
  }

  lemma SubscribeKeepsRooms(s: Registry, ws: Socket, room: Room)
    requires RoomsMirrored(s)
    ensures RoomsMirrored(Subscribe(s, ws, room))
  {
    hide Mirror;
    if ws in s.owners {
      MirrorJoin(s.rooms, s.joined, ws, room);
    }
  }

  lemma SubscribeKeeps(s: Registry, ws: Socket, room: Room, cap: nat)
    requires Agree(s, cap)
    ensures Agree(Subscribe(s, ws, room), cap)
  {
    SubscribeKeepsRooms(s, ws, room);
  }

  lemma UnsubscribeKeepsRooms(s: Registry, ws: Socket, room: Room)
    requires RoomsMirrored(s)
    ensures RoomsMirrored(Unsubscribe(s, ws, room))
  {
    hide Mirror;
    MirrorPart(s.rooms, s.joined, ws, room);
  }

  lemma UnsubscribeKeeps(s: Registry, ws: Socket, room: Room, cap: nat)
    requires Agree(s, cap)
    ensures Agree(Unsubscribe(s, ws, room), cap)
  {
    UnsubscribeKeepsRooms(s, ws, room);
  }

  /** The indexes after the eviction that a registration may start with. */
  function Evicted(s: Registry, user: User, cap: nat): Registry {
    if user in s.users && |s.users[user]| >= cap && s.users[user] != [] then Unregister(s, s.users[user][0]) else s
  }

  lemma EvictedKeeps(s: Registry, user: User, cap: nat)
    requires RoomsMirrored(s) && UsersMirrored(s)
    ensures RoomsMirrored(Evicted(s, user, cap)) && UsersMirrored(Evicted(s, user, cap))
    ensures Evicted(s, user, cap).owners.Keys <= s.owners.Keys
    ensures forall u :: u != user ==> SocketsOf(Evicted(s, user, cap), u) == SocketsOf(s, u)
    ensures SocketsOf(Evicted(s, user, cap), user) ==
            if |SocketsOf(s, user)| >= cap && user in s.users then s.users[user][1..] else SocketsOf(s, user)
  {
    if user in s.users && |s.users[user]| >= cap {
      UnregisterKeepsRooms(s, s.users[user][0]);
      UnregisterKeepsUsers(s, s.users[user][0]);
      RemoveHead(s.users[user]);
    }
  }

  /** Whether a registration files the new socket under its user. */
  predicate Files(s: Registry, user: User, cap: nat) {
    user !in s.users || cap > |s.users[user]| || |s.users[user]| > 1
  }

  lemma RegisterForm(s: Registry, ws: Socket, user: User, cap: nat)
    requires UsersMirrored(s) && ws !in s.owners
    ensures var e := Evicted(s, user, cap);
            Register(s, ws, user, cap) ==
            e.(users := if Files(s, user, cap) then e.users[user := SocketsOf(e, user) + [ws]] else e.users,
               joined := e.joined[ws := {}],
               owners := e.owners[ws := user])
  {
    var present := SocketsOf(s, user);
    if user in s.users {
      assert s.users[user := present] == s.users;
      assert present[0] in s.owners;
      RemoveHead(present);
      EvictedUsers(s, user, cap);
    } else {
      FirstRegistration(s, ws, user, cap);
    }
  }

  lemma EvictedUsers(s: Registry, user: User, cap: nat)
    requires UsersMirrored(s) && (user in s.users || !Files(s, user, cap))
    ensures user in Evicted(s, user, cap).users <==> Files(s, user, cap)
    ensures Evicted(s, user, cap).owners.Keys <= s.owners.Keys
  {
    RemoveHead(s.users[user]);
  }

  lemma MirrorOpen(rooms: map<Room, set<Socket>>, joined: map<Socket, set<Room>>, ws: Socket)
    requires Mirror(rooms, joined) && ws !in joined
    ensures Mirror(rooms, joined[ws := {}])
  {}

  /** The rooms stay mirrored even where the users do not. */
  lemma RegisterKeepsRooms(s: Registry, ws: Socket, user: User, cap: nat)
    requires RoomsMirrored(s) && ws !in s.owners
    ensures RoomsMirrored(Register(s, ws, user, cap))
  {
    hide Mirror, Unregister;
    var filed := Filed(s, user);
    var oldest := SocketsOf(s, user);
    assert RoomsMirrored(filed);
    if oldest != [] {
      UnregisterKeepsRooms(filed, oldest[0]);
      UnregisterOwners(filed, oldest[0]);
      MirrorOpen(Unregister(filed, oldest[0]).rooms, Unregister(filed, oldest[0]).joined, ws);
    }
    MirrorOpen(s.rooms, s.joined, ws);
  }

  lemma UnregisterOwners(s: Registry, ws: Socket)
    ensures Unregister(s, ws).owners.Keys <= s.owners.Keys
  {}

  lemma UserMirrorAdd(users: map<User, seq<Socket>>, owners: map<Socket, User>, user: User, ws: Socket, present: seq<Socket>)
    requires UserMirror(users, owners) && ws !in owners
    requires present == if user in users then users[user] else []
    ensures UserMirror(users[user := present + [ws]], owners[ws := user])
  {
    assert ws !in present;
    assert NoDuplicates(present + [ws]);
  }

  lemma UserMirrorMiss(users: map<User, seq<Socket>>, owners: map<Socket, User>, user: User, ws: Socket)
    requires user !in users
    ensures !UserMirror(users, owners[ws := user])
  {
    assert ws in owners[ws := user];
  }

  lemma RegisterMirrors(s: Registry, ws: Socket, user: User, cap: nat)
    requires RoomsMirrored(s) && UsersMirrored(s) && ws !in s.owners
    ensures RoomsMirrored(Register(s, ws, user, cap))
    ensures UsersMirrored(Register(s, ws, user, cap)) <==> Files(s, user, cap)
  {
    hide Evicted, Register, Mirror, UserMirror, Files;
    RegisterForm(s, ws, user, cap);
    EvictedKeeps(s, user, cap);
    var e := Evicted(s, user, cap);
    assert ws !in e.joined && ws !in e.owners;
    MirrorOpen(e.rooms, e.joined, ws);
    if Files(s, user, cap) {
      UserMirrorAdd(e.users, e.owners, user, ws, SocketsOf(e, user));
    } else {
      EvictedUsers(s, user, cap);
      UserMirrorMiss(e.users, e.owners, user, ws);
    }
  }

  /** A registration of a fresh socket keeps the indexes in agreement exactly when the cap is at
      least two, or is one and the user has no socket yet. */
  lemma RegisterKeepsExactly(s: Registry, ws: Socket, user: User, cap: nat)
    requires Agree(s, cap) && ws !in s.owners
    ensures Agree(Register(s, ws, user, cap), cap) <==> cap >= 2 || (cap == 1 && user !in s.users)
  {
    RegisterForm(s, ws, user, cap);
    EvictedKeeps(s, user, cap);
    RegisterMirrors(s, ws, user, cap);
    var e, r := Evicted(s, user, cap), Register(s, ws, user, cap);
    if cap == 0 {
      assert user !in s.users;
      assert |r.users[user]| == 1;
    } else if cap >= 2 || user !in s.users {
      forall u | u in r.users ensures |r.users[u]| <= cap {
        assert u != user ==> r.users[u] == SocketsOf(s, u);
      }
    }
  }

  /** An evicted socket is in no room and has no owner. */
  lemma EvictedHearsNothing(s: Registry, ws: Socket, user: User, cap: nat, room: Room)
    requires Agree(s, cap) && ws !in s.owners && user in s.users && |s.users[user]| == cap
    ensures var oldest, r := s.users[user][0], Register(s, ws, user, cap);
            oldest !in r.owners && oldest !in Subscribers(r, room)
  {
    RegisterForm(s, ws, user, cap);
    EvictedKeeps(s, user, cap);
    assert s.users[user][0] in s.owners;
  }

  /** The socket that a registration evicts, if any: the user's oldest, at the cap. */
  function Victim(s: Registry, user: User, cap: nat): set<Socket> {
    if |SocketsOf(s, user)| >= cap && SocketsOf(s, user) != [] then {SocketsOf(s, user)[0]} else {}
  }

  /** Who hears a room: a subscription adds a registered socket to it, an unsubscription and an
      unregistration take a socket out, a registration takes out the evicted one; no other room, socket
      or user notices. */
  lemma HearersExactly(s: Registry, c: Command, cap: nat, room: Room)
    requires RoomsMirrored(s) && UsersMirrored(s) && (c.Connect? ==> c.ws !in s.owners)
    ensures Subscribers(Apply(s, c, cap), room) ==
            match c
            case Connect(ws, user) => Subscribers(s, room) - Victim(s, user, cap)
            case Disconnect(ws) => Subscribers(s, room) - {ws}
            case Join(ws, r) => if r == room && ws in s.owners then Subscribers(s, room) + {ws} else Subscribers(s, room)
            case Part(ws, r) => if r == room then Subscribers(s, room) - {ws} else Subscribers(s, room)
    ensures Apply(s, c, cap).owners ==
            match c
            case Connect(ws, user) => (s.owners - Victim(s, user, cap))[ws := user]
            case Disconnect(ws) => s.owners - {ws}
            case _ => s.owners
  {
    match c
    case Connect(ws, user) => RegisterForm(s, ws, user, cap); EvictedHearers(s, user, cap, room);
    case Disconnect(ws) => UnregisteredHearers(s, ws, room);
    case Join(_, _) =>
    case Part(_, _) =>
  }

  lemma UnregisteredHearers(s: Registry, ws: Socket, room: Room)
    requires RoomsMirrored(s)
    ensures Subscribers(Unregister(s, ws), room) == Subscribers(s, room) - {ws}
    ensures Unregister(s, ws).owners == s.owners - {ws}
  {
    if ws !in s.owners {
      assert ws !in s.joined && s.owners - {ws} == s.owners;
    }
  }

  lemma EvictedHearers(s: Registry, user: User, cap: nat, room: Room)
    requires RoomsMirrored(s) && UsersMirrored(s)
    ensures Subscribers(Evicted(s, user, cap), room) == Subscribers(s, room) - Victim(s, user, cap)
    ensures Evicted(s, user, cap).owners == s.owners - Victim(s, user, cap)
  {
    if user in s.users && |s.users[user]| >= cap {
      UnregisteredHearers(s, s.users[user][0], room);
    } else {
      assert Victim(s, user, cap) == {};
      assert s.owners - {} == s.owners;
    }
  }

  /** A user's sockets in the order in which they connected: a registration appends the new one after
      the oldest has gone at the cap, an unregistration takes out its own. */
  lemma SocketsExactly(s: Registry, c: Command, cap: nat, user: User)
    requires Agree(s, cap) && cap >= 2 && (c.Connect? ==> c.ws !in s.owners)
    ensures SocketsOf(Apply(s, c, cap), user) ==
            if c.Connect? && c.user == user then
              (if |SocketsOf(s, user)| >= cap then SocketsOf(s, user)[1..] else SocketsOf(s, user)) + [c.ws]
            else if c.Disconnect? then Remove(SocketsOf(s, user), c.ws)
            else SocketsOf(s, user)
  {
    match c
    case Connect(ws, u) => RegisterSockets(s, ws, u, cap, user);
    case Disconnect(ws) => UnregisteredSockets(s, ws, user);
    case Join(_, _) =>
    case Part(_, _) =>
  }

  lemma UnregisteredSockets(s: Registry, ws: Socket, user: User)
    requires UsersMirrored(s)
    ensures SocketsOf(Unregister(s, ws), user) == Remove(SocketsOf(s, user), ws)
  {
    if user in s.users {
      RemoveKeepsOrder(s.users[user], ws);
    }
  }

  // ----- runs -----

  datatype Command =
    | Connect(ws: Socket, user: User)
    | Disconnect(ws: Socket)
    | Join(ws: Socket, room: Room)
    | Part(ws: Socket, room: Room)

  function Apply(s: Registry, c: Command, cap: nat): Registry {
    match c
    case Connect(ws, user) => Register(s, ws, user, cap)
    case Disconnect(ws) => Unregister(s, ws)
    case Join(ws, room) => Subscribe(s, ws, room)
    case Part(ws, room) => Unsubscribe(s, ws, room)
  }

  function Run(cs: seq<Command>, cap: nat): Registry {
    if cs == [] then Empty() else Apply(Run(cs[..|cs| - 1], cap), cs[|cs| - 1], cap)
  }

  /** No socket is connected while it is registered. */
  ghost predicate FreshSockets(cs: seq<Command>, cap: nat) {
    forall i :: 0 <= i < |cs| && cs[i].Connect? ==> cs[i].ws !in Run(cs[..i], cap).owners
  }

  lemma FreshPrefix(cs: seq<Command>, cap: nat)
    requires FreshSockets(cs, cap) && cs != []
    ensures FreshSockets(cs[..|cs| - 1], cap)
    ensures cs[|cs| - 1].Connect? ==> cs[|cs| - 1].ws !in Run(cs[..|cs| - 1], cap).owners
  {
    forall i | 0 <= i < |cs| - 1 ensures cs[..|cs| - 1][..i] == cs[..i] {}
  }

  lemma {:induction false} RunAgrees(cs: seq<Command>, cap: nat)
    requires cap >= 2 && FreshSockets(cs, cap)
    ensures Agree(Run(cs, cap), cap)
  {
    if cs != [] {
      var before, c := Run(cs[..|cs| - 1], cap), cs[|cs| - 1];
      FreshPrefix(cs, cap);
      RunAgrees(cs[..|cs| - 1], cap);
      match c
      case Connect(ws, user) => RegisterKeepsExactly(before, ws, user, cap);
      case Disconnect(ws) => UnregisterKeeps(before, ws, cap);
      case Join(ws, room) => SubscribeKeeps(before, ws, room, cap);
      case Part(ws, room) => UnsubscribeKeeps(before, ws, room, cap);
    }
  }

  /** The sockets that a run connects for a user, in order. */
  function Arrivals(cs: seq<Command>, user: User): seq<Socket> {
    if cs == [] then [] else
    var before, c := Arrivals(cs[..|cs| - 1], user), cs[|cs| - 1];
    if c.Connect? && c.user == user then before + [c.ws] else before
  }

  /** No disconnect in the run takes a socket that the user still has. */
  ghost predicate StaysConnected(cs: seq<Command>, user: User, cap: nat) {
    forall i :: 0 <= i < |cs| && cs[i].Disconnect? ==> cs[i].ws !in SocketsOf(Run(cs[..i], cap), user)
  }

  lemma StaysPrefix(cs: seq<Command>, user: User, cap: nat)
    requires StaysConnected(cs, user, cap) && cs != []
    ensures StaysConnected(cs[..|cs| - 1], user, cap)
    ensures cs[|cs| - 1].Disconnect? ==> cs[|cs| - 1].ws !in SocketsOf(Run(cs[..|cs| - 1], cap), user)
  {
    forall i | 0 <= i < |cs| - 1 ensures cs[..|cs| - 1][..i] == cs[..i] {}
  }

  lemma LastOfSnoc<T>(xs: seq<T>, x: T, n: nat)
    requires n > 0
    ensures LastOf(xs + [x], n) == (if |LastOf(xs, n)| >= n then LastOf(xs, n)[1..] else LastOf(xs, n)) + [x]
  {}

  lemma DisconnectSpares(s: Registry, ws: Socket, user: User)
    requires UsersMirrored(s) && ws !in SocketsOf(s, user)
    ensures SocketsOf(Unregister(s, ws), user) == SocketsOf(s, user)
  {}

  lemma RegisterSockets(s: Registry, ws: Socket, u: User, cap: nat, user: User)
    requires Agree(s, cap) && cap >= 2 && ws !in s.owners
    ensures SocketsOf(Register(s, ws, u, cap), user) ==
            if u != user then SocketsOf(s, user)
            else (if |SocketsOf(s, user)| >= cap then SocketsOf(s, user)[1..] else SocketsOf(s, user)) + [ws]
  {
    RegisterForm(s, ws, u, cap);
    EvictedKeeps(s, u, cap);
  }

  /** However the other users come and go, a user who never disconnects keeps exactly the last `cap`
      sockets that connected, in order. */
  lemma {:induction false} SurvivorsAreTheLatest(cs: seq<Command>, user: User, cap: nat)
    requires cap >= 2 && FreshSockets(cs, cap) && StaysConnected(cs, user, cap)
    ensures SocketsOf(Run(cs, cap), user) == LastOf(Arrivals(cs, user), cap)
  {
    if cs != [] {
      var front, c := cs[..|cs| - 1], cs[|cs| - 1];
      var before := Run(front, cap);
      FreshPrefix(cs, cap);
      StaysPrefix(cs, user, cap);
      SurvivorsAreTheLatest(front, user, cap);
      RunAgrees(front, cap);
      hide Register, Unregister, FreshSockets, StaysConnected, LastOf;
      match c
      case Connect(ws, u) =>
        RegisterSockets(before, ws, u, cap, user);
        LastOfSnoc(Arrivals(front, user), ws, cap);
      case Disconnect(ws) => DisconnectSpares(before, ws, user);
      case Join(ws, room) =>
      case Part(ws, room) =>
    }
  }

  lemma FirstRegistration(s: Registry, ws: Socket, user: User, cap: nat)
    requires user !in s.users
    ensures Register(s, ws, user, cap) ==
            Registry(s.rooms, s.joined[ws := {}], s.users[user := [ws]], s.owners[ws := user])
  {
    var none: seq<Socket> := [];
    assert Added(none, ws) == [ws];
    assert s.users[user := none][user := [ws]] == s.users[user := [ws]];
  }

  /** With a cap of one, a user's second socket is registered but not filed under the user, so a
      third one evicts nobody: two sockets stay open. */
  lemma CapOneLosesCount()
    ensures var cs := [Connect(1, 7), Connect(2, 7), Connect(3, 7)];
            && FreshSockets(cs, 1)
            && Run(cs, 1).owners == map[2 := 7, 3 := 7]
            && SocketsOf(Run(cs, 1), 7) == [3]
  {
    var cs := [Connect(1, 7), Connect(2, 7), Connect(3, 7)];
    var one, two := Register(Empty(), 1, 7, 1), Register(Register(Empty(), 1, 7, 1), 2, 7, 1);
    assert Remove([1], 1) == [];
    FirstRegistration(Empty(), 1, 7, 1);
    assert two == Registry(map[], map[2 := {}], map[], map[2 := 7]);
    FirstRegistration(two, 3, 7, 1);
    assert cs[..0] == [] && cs[..1] == [cs[0]] && cs[..2] == [cs[0], cs[1]] && cs[..2][..1] == cs[..1];
    assert cs[..1][..0] == [];
    assert Run(cs[..1], 1) == one;
    assert Run(cs[..2], 1) == two;
    assert Run(cs, 1) == Register(two, 3, 7, 1);
  }
}
