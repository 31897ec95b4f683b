/** The channel manager as an object. A user's sockets are a set object of their own, which a
    registration holds on to while an eviction may drop it from the index. */
module ChannelManagers {
  import opened ChannelRegistry

  /** An insertion-ordered set of sockets. */
  class SocketSet {
    var items: seq<Socket>

    constructor ()
      ensures items == []
    {
      items := [];
    }

    method Add(x: Socket)
      modifies this
      ensures items == Added(old(items), x)
    {
      if x !in items {
        items := items + [x];
      }
    }

    method Delete(x: Socket)
      modifies this
      ensures items == Remove(old(items), x)
    {
      items := Remove(items, x);
    }
  }

  class ChannelManager {
    const cap: nat
    var roomToSockets: map<Room, set<Socket>>
    var socketToRooms: map<Socket, set<Room>>
    var userToSockets: map<User, SocketSet>
    var socketContexts: map<Socket, User>
    ghost var users: map<User, seq<Socket>>

    ghost function Sets(): set<SocketSet>
      reads this
    {
      set u | u in userToSockets :: userToSockets[u]
    }

    /** `users` is what the users' set objects hold, and no two users share one. */
    ghost predicate Valid()
      reads this, Sets()
    {
      && users.Keys == userToSockets.Keys
      && (forall u :: u in userToSockets ==> userToSockets[u].items == users[u])
      && (forall u, v :: u in userToSockets && v in userToSockets && u != v ==> userToSockets[u] != userToSockets[v])
    }

    ghost function View(): Registry
      reads this
    {
      Registry(roomToSockets, socketToRooms, users, socketContexts)
    }

    constructor (cap: nat)
      ensures this.cap == cap && Valid() && View() == Empty() && Sets() == {}
    {
      this.cap := cap;
      roomToSockets, socketToRooms, userToSockets, socketContexts, users := map[], map[], map[], map[], map[];
    }

    /** Takes a socket out of its owner's set, and the owner's entry away with the last one. */
    method DropFromUser(ws: Socket, user: User)
      requires Valid()
      modifies this`userToSockets, this`users, Sets()
      ensures Valid() && userToSockets.Keys <= old(userToSockets).Keys
      ensures forall u :: u in userToSockets ==> userToSockets[u] == old(userToSockets)[u]
      ensures users == Drop(old(users), user, ws)
    {
      if user in userToSockets {
        var userSockets := userToSockets[user];
        userSockets.Delete(ws);
        if userSockets.items == [] {
          userToSockets := userToSockets - {user};
        }
        users := Drop(users, user, ws);
      }
    }

    /** Takes a socket out of a room, and the room away with its last socket. */
    method LeaveRoom(ws: Socket, room: Room)
      modifies this`roomToSockets
      ensures roomToSockets == Leave(old(roomToSockets), ws, {room})
    {
      if room in roomToSockets {
        roomToSockets := roomToSockets[room := roomToSockets[room] - {ws}];
        if roomToSockets[room] == {} {
          roomToSockets := roomToSockets - {room};
        }
      }
    }

    method LeaveRooms(ws: Socket, rooms: set<Room>)
      modifies this`roomToSockets
      ensures roomToSockets == Leave(old(roomToSockets), ws, rooms)
    {
      ghost var was := roomToSockets;
      var left := rooms;
      while left != {}
        invariant left <= rooms
        invariant roomToSockets == Leave(was, ws, rooms - left)
        decreases left
      {
        var room :| room in left;
        LeaveStep(was, ws, rooms - left, room);
        assert rooms - (left - {room}) == rooms - left + {room};
        LeaveRoom(ws, room);
        left := left - {room};
      }
      assert rooms - left == rooms;
    }

    method UnregisterConnection(ws: Socket)
      requires Valid()
      modifies this, Sets()
      ensures Valid() && userToSockets.Keys <= old(userToSockets).Keys
      ensures forall u :: u in userToSockets ==> userToSockets[u] == old(userToSockets)[u]
      ensures View() == Unregister(old(View()), ws)
    {
      if ws !in socketContexts {
        return;
      }
      DropFromUser(ws, socketContexts[ws]);
      LeaveNothing(roomToSockets, ws);
      if ws in socketToRooms {
        LeaveRooms(ws, socketToRooms[ws]);
        socketToRooms := socketToRooms - {ws};
      }
      socketContexts := socketContexts - {ws};
    }

    /** The user's set, made and filed if there is none. */
    method SetOf(user: User) returns (userSockets: SocketSet)
      requires Valid()
      modifies this`userToSockets, this`users
      ensures Valid() && View() == Filed(old(View()), user)
      ensures user in userToSockets && userToSockets[user] == userSockets
      ensures fresh(userSockets) || (user in old(userToSockets) && old(userToSockets)[user] == userSockets)
      ensures forall u :: u in userToSockets && u != user ==> u in old(userToSockets) && userToSockets[u] == old(userToSockets)[u]
    {
      if user in userToSockets {
        userSockets := userToSockets[user];
      } else {
        userSockets := new SocketSet();
        userToSockets := userToSockets[user := userSockets];
      }
      users := Filed(View(), user).users;
    }

    /** Adds to the set that was the user's, which by now may no longer be in the index, and opens
        the socket's context. */
    method Open(userSockets: SocketSet, ws: Socket, user: User)
      requires Valid()
      requires forall u :: u in userToSockets ==> (userToSockets[u] == userSockets <==> u == user)
      modifies this`users, this`socketToRooms, this`socketContexts, userSockets
      ensures Valid()
      ensures users == if user in old(users) then old(users)[user := Added(old(users)[user], ws)] else old(users)
      ensures socketToRooms == old(socketToRooms)[ws := {}]
      ensures socketContexts == old(socketContexts)[ws := user]
    {
      userSockets.Add(ws);
      if user in users {
        users := users[user := Added(users[user], ws)];
      }
      socketToRooms := socketToRooms[ws := {}];
      socketContexts := socketContexts[ws := user];
    }

    method RegisterConnection(ws: Socket, user: User)
      requires Valid()
      modifies this, Sets()
      ensures Valid() && fresh(Sets() - old(Sets()))
      ensures View() == Register(old(View()), ws, user, cap)
    {
      hide Added, Unregister;
      var userSockets := SetOf(user);
      var items := userSockets.items;
      assert items == SocketsOf(old(View()), user);
      if |items| >= cap && items != [] && items[0] != ws {
        UnregisterConnection(items[0]);
      }
      Open(userSockets, ws, user);
    }

    method Subscribe(ws: Socket, room: Room) returns (joined: bool)
      modifies this`roomToSockets, this`socketToRooms
      ensures joined == (ws in socketContexts)
      ensures View() == ChannelRegistry.Subscribe(old(View()), ws, room)
    {
      if ws !in socketContexts {
        return false;
      }
      if room !in roomToSockets {
        roomToSockets := roomToSockets[room := {}];
      }
      roomToSockets := roomToSockets[room := roomToSockets[room] + {ws}];
      if ws in socketToRooms {
        socketToRooms := socketToRooms[ws := socketToRooms[ws] + {room}];
      }
      joined := true;
    }

    method Unsubscribe(ws: Socket, room: Room)
      modifies this`roomToSockets, this`socketToRooms
      ensures View() == ChannelRegistry.Unsubscribe(old(View()), ws, room)
    {
      LeaveRoom(ws, room);
      if ws in socketToRooms {
        socketToRooms := socketToRooms[ws := socketToRooms[ws] - {room}];
      }
    }
  }

  lemma LeaveNothing(rooms: map<Room, set<Socket>>, ws: Socket)
    ensures Leave(rooms, ws, {}) == rooms
  {}

  lemma LeaveStep(rooms: map<Room, set<Socket>>, ws: Socket, left: set<Room>, room: Room)
    requires room !in left
    ensures Leave(Leave(rooms, ws, left), ws, {room}) == Leave(rooms, ws, left + {room})
  {}
}
