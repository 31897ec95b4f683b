/** The browser's realtime client: its state as a value, and the object whose methods change it. */
module RealtimeClients {
  import opened Wrappers
  import opened ChannelRegistry

  datatype Status = Disconnected | Connecting | Connected | Reconnecting

  datatype Frame = Sub(room: Room) | Unsub(room: Room)

  /** `ws` is the current socket; `counts` has an entry for every room in use. */
  datatype Client = Client(status: Status, ws: Option<Socket>, attempts: nat, timer: bool, counts: map<Room, nat>)

  const BASE_DELAY := 1000
  const MAX_DELAY := 30000

  function Idle(): Client {
    Client(Disconnected, None, 0, false, map[])
  }

  function CountOf(c: Client, room: Room): nat {
    if room in c.counts then c.counts[room] else 0
  }

  /** `subscribe`; `open` says that the current socket exists and is open. */
  function SubscribeCall(c: Client, open: bool, room: Room): (Client, seq<Frame>) {
    if room == "" then (c, []) else
    (c.(counts := c.counts[room := CountOf(c, room) + 1]),
     if CountOf(c, room) == 0 && c.status == Connected && open then [Sub(room)] else [])
  }

  function UnsubscribeCall(c: Client, open: bool, room: Room): (Client, seq<Frame>) {
    if room == "" then (c, [])
    else if CountOf(c, room) <= 1 then
      (c.(counts := c.counts - {room}), if c.status == Connected && open then [Unsub(room)] else [])
    else (c.(counts := c.counts[room := CountOf(c, room) - 1]), [])
  }

  /** `connect`; `next` is the socket it makes, if it makes one, and `made` is false when the socket's
      constructor throws. */
  function ConnectCall(c: Client, token: bool, next: Socket, made: bool): Client {
    if !token then c.(status := Disconnected)
    else if c.ws.Some? && (c.status == Connected || c.status == Connecting) then c
    else if !made then c.(timer := false, status := Disconnected)
    else c.(timer := false, status := if c.attempts > 0 then Reconnecting else Connecting, ws := Some(next))
  }

  predicate Connects(c: Client, token: bool) {
    token && !(c.ws.Some? && (c.status == Connected || c.status == Connecting))
  }

  /** What `connect` does: without a token the client is disconnected; with a socket that connects or is
      connected nothing changes; otherwise no reconnection is pending any more, and either there is a new
      socket, and the status tells a first attempt from a repeated one, or making it failed. */
  lemma ConnectExactly(c: Client, token: bool, next: Socket, made: bool)
    ensures var r := ConnectCall(c, token, next, made);
            && r.counts == c.counts && r.attempts == c.attempts
            && (r.ws != c.ws ==> Connects(c, token) && made && r.ws == Some(next))
            && (Connects(c, token) ==> !r.timer && (r.ws == if made then Some(next) else c.ws))
            && (r.status == Disconnected <==> !token || (Connects(c, token) && !made))
            && (Connects(c, token) && made ==> (r.status == Connecting <==> c.attempts == 0) && (r.status == Reconnecting <==> c.attempts > 0))
            && (!Connects(c, token) ==> r == if token then c else c.(status := Disconnected))
  {}

  /** The frames that bring a new socket's rooms back. */
  function Replay(order: seq<Room>, counts: map<Room, nat>): seq<Frame> {
    if order == [] then [] else
    var room := order[|order| - 1];
    Replay(order[..|order| - 1], counts) + if room in counts && counts[room] > 0 then [Sub(room)] else []
  }

  lemma ReplayNone(counts: map<Room, nat>)
    ensures Replay([], counts) == []
  {}

  lemma ReplayNext(order: seq<Room>, i: nat, counts: map<Room, nat>)
    requires i < |order|
    ensures Replay(order[..i + 1], counts) ==
            Replay(order[..i], counts) + if order[i] in counts && counts[order[i]] > 0 then [Sub(order[i])] else []
  {
    assert order[..i + 1][..i] == order[..i];
  }

  /** `onopen`; `order` lists the client's rooms, each once. */
  function OpenedCall(c: Client, open: bool, order: seq<Room>): (Client, seq<Frame>) {
    (c.(status := Connected, attempts := 0), if open then Replay(order, c.counts) else [])
  }

  function ClosedCall(c: Client, token: bool): Client {
    if c.status == Disconnected || !token then c.(ws := None, status := Disconnected)
    else c.(ws := None, status := Reconnecting, attempts := c.attempts + 1, timer := true)
  }

  function DisconnectCall(c: Client): Client {
    Idle()
  }

  /** The rooms in use in the order of the client's map. */
  ghost predicate Lists(order: seq<Room>, counts: map<Room, nat>) {
    && (forall room :: room in order <==> room in counts)
    && (forall i, j :: 0 <= i < j < |order| ==> order[i] != order[j])
  }

  // ----- reconnection delay -----

  function Pow2(n: nat): nat {
    if n == 0 then 1 else 2 * Pow2(n - 1)
  }

  function Backoff(attempts: nat): nat {
    if BASE_DELAY * Pow2(attempts) > MAX_DELAY then MAX_DELAY else BASE_DELAY * Pow2(attempts)
  }

  /** The delay doubles with every failed attempt until it reaches its bound, at the fifth. */
  lemma {:induction false} BackoffDoubles(n: nat)
    ensures Backoff(n + 1) == (if 2 * Backoff(n) > MAX_DELAY then MAX_DELAY else 2 * Backoff(n))
    ensures Backoff(n) == MAX_DELAY <==> n >= 5
  {
    if n > 5 {
      BackoffDoubles(n - 1);
    } else {
      assert Pow2(1) == 2 && Pow2(2) == 4 && Pow2(3) == 8 && Pow2(4) == 16 && Pow2(5) == 32 && Pow2(6) == 64;
    }
  }

  /** The delay with its jitter, in whole milliseconds; `random` is in the half-open unit interval. */
  function Delay(attempts: nat, random: real): int {
    (Backoff(attempts) as real * (0.8 + random * 0.4) + 0.5).Floor
  }

  lemma {:induction false} BackoffAtLeast(n: nat)
    ensures BASE_DELAY <= Backoff(n) <= MAX_DELAY
  {
    if n > 0 {
      BackoffAtLeast(n - 1);
      BackoffDoubles(n - 1);
    }
  }

  /** The jitter moves the delay by at most a fifth, rounded: it is never under 0.8 nor over 36 seconds. */
  lemma DelayBounds(attempts: nat, random: real)
    requires 0.0 <= random < 1.0
    ensures 4 * Backoff(attempts) <= 5 * Delay(attempts, random) <= 6 * Backoff(attempts)
    ensures 800 <= Delay(attempts, random) <= 36000
  {
    hide Backoff;
    BackoffAtLeast(attempts);
    BackoffMultiple(attempts);
    var k := Backoff(attempts) / 5;
    Scaled(Backoff(attempts) as real, 0.8 + random * 0.4);
    RoundedBetween(Backoff(attempts) as real * (0.8 + random * 0.4), 4 * k, 6 * k);
  }

  lemma Scaled(b: real, f: real)
    requires b >= 0.0 && 0.8 <= f <= 1.2
    ensures b * 0.8 <= b * f <= b * 1.2
  {}

  lemma RoundedBetween(x: real, lo: int, hi: int)
    requires lo as real <= x <= hi as real
    ensures lo <= (x + 0.5).Floor <= hi
  {}

  /** Every whole number of milliseconds within a fifth of the doubled delay is the delay for some draw,
      and no other is. */
  lemma DelayReachesExactly(attempts: nat, d: int)
    ensures (exists random :: 0.0 <= random < 1.0 && Delay(attempts, random) == d)
            <==> 4 * Backoff(attempts) <= 5 * d <= 6 * Backoff(attempts)
  {
    hide Backoff;
    BackoffAtLeast(attempts);
    var b := Backoff(attempts);
    if random :| 0.0 <= random < 1.0 && Delay(attempts, random) == d {
      DelayBounds(attempts, random);
    }
    if 4 * b <= 5 * d <= 6 * b {
      var x := if 5 * d < 6 * b then d as real else d as real - 0.5;
      var random := Draw(b as real, x);
      assert Delay(attempts, random) == d;
    }
  }

  /** The draw that scales `b` to `x`. */
  lemma Draw(b: real, x: real) returns (random: real)
    requires b >= 1000.0 && 0.8 * b <= x < 1.2 * b
    ensures 0.0 <= random < 1.0 && b * (0.8 + random * 0.4) == x
  {
    var f := x / b;
    assert b * f == x;
    random := (f - 0.8) / 0.4;
    assert 0.8 + random * 0.4 == f;
    Between(b, f, x);
  }

  lemma Between(b: real, f: real, x: real)
    requires b > 0.0 && b * f == x && 0.8 * b <= x < 1.2 * b
    ensures 0.8 <= f < 1.2
  {
    Grows(b, f, 0.8);
    Grows(b, 1.2, f);
  }

  lemma Grows(b: real, f: real, g: real)
    requires b > 0.0
    ensures f <= g ==> b * f <= b * g
    ensures f < g ==> b * f < b * g
  {
    var d := g - f;
    assert b * g == b * f + b * d;
    assert d >= 0.0 ==> b * d >= 0.0;
    assert d > 0.0 ==> b * d > 0.0;
  }

  lemma {:induction false} BackoffMultiple(n: nat)
    ensures Backoff(n) % 5 == 0
  {
    if n > 0 {
      BackoffMultiple(n - 1);
      BackoffDoubles(n - 1);
    }
  }

  // ----- the object -----

  /** A browser socket: whether it is open and what was sent on it. */
  class WebSocket {
    const id: Socket
    var open: bool
    var sent: seq<Frame>

    constructor (id: Socket)
      ensures this.id == id && !open && sent == []
    {
      this.id, open, sent := id, false, [];
    }
  }

  class RealtimeClient {
    var status: Status
    var ws: WebSocket?
    var reconnectAttempts: nat
    var reconnectTimer: bool
    var roomRefCounts: map<Room, nat>

    ghost function View(): Client
      reads this
    {
      Client(status, if ws == null then None else Some(ws.id), reconnectAttempts, reconnectTimer, roomRefCounts)
    }

    ghost function Ready(): bool
      reads this, ws
    {
      ws != null && ws.open
    }

    constructor ()
      ensures View() == Idle()
    {
      status, ws, reconnectAttempts, reconnectTimer, roomRefCounts := Disconnected, null, 0, false, map[];
    }

    method SendFrame(frame: Frame)
      modifies ws
      ensures ws != null ==> ws.open == old(ws.open)
      ensures ws != null ==> ws.sent == if ws.open then old(ws.sent) + [frame] else old(ws.sent)
    {
      if ws != null && ws.open {
        ws.sent := ws.sent + [frame];
      }
    }

    method Connect(token: bool, next: Socket, made: bool)
      modifies this
      ensures View() == ConnectCall(old(View()), token, next, made)
      ensures Connects(old(View()), token) && made ==> fresh(ws) && !ws.open && ws.sent == []
      ensures !(Connects(old(View()), token) && made) ==> ws == old(ws)
    {
      if !token {
        if status != Disconnected {
          status := Disconnected;
        }
        return;
      }
      if ws != null && (status == Connected || status == Connecting) {
        return;
      }
      if reconnectTimer {
        reconnectTimer := false;
      }
      status := if reconnectAttempts > 0 then Reconnecting else Connecting;
      if made {
        ws := new WebSocket(next);
      } else {
        status := Disconnected;
      }
    }

    /** `onopen`: every room in use is subscribed again on the current socket. */
    method OnOpen(order: seq<Room>)
      requires Lists(order, roomRefCounts)
      modifies this, ws
      ensures ws == old(ws) && Ready() == old(Ready())
      ensures View() == OpenedCall(old(View()), old(Ready()), order).0
      ensures ws != null ==> ws.sent == old(ws.sent) + OpenedCall(old(View()), old(Ready()), order).1
    {
      hide Replay;
      ReplayNone(roomRefCounts);
      assert order[..0] == [];
      status := Connected;
      reconnectAttempts := 0;
      for i := 0 to |order|
        invariant View() == OpenedCall(old(View()), old(Ready()), order).0
        invariant ws == old(ws) && Ready() == old(Ready())
        invariant ws != null ==> ws.sent == old(ws.sent) + OpenedCall(old(View()), old(Ready()), order[..i]).1
      {
        ReplayNext(order, i, roomRefCounts);
        if roomRefCounts[order[i]] > 0 {
          SendFrame(Sub(order[i]));
        }
      }
      assert order[..|order|] == order;
    }

    /** `onclose`: the delay before the next attempt, if there will be one. */
    method OnClose(token: bool, random: real) returns (delay: Option<int>)
      modifies this
      ensures View() == ClosedCall(old(View()), token)
      ensures delay == if old(status) == Disconnected || !token then None else Some(Delay(old(reconnectAttempts), random))
    {
      ws := null;
      if status == Disconnected || !token {
        status := Disconnected;
        return None;
      }
      status := Reconnecting;
      delay := Some(Delay(reconnectAttempts, random));
      reconnectAttempts := reconnectAttempts + 1;
      reconnectTimer := true;
    }

    method Subscribe(room: Room)
      modifies this, ws
      ensures ws == old(ws) && Ready() == old(Ready())
      ensures View() == SubscribeCall(old(View()), old(Ready()), room).0
      ensures ws != null ==> ws.sent == old(ws.sent) + SubscribeCall(old(View()), old(Ready()), room).1
    {
      if room == "" {
        return;
      }
      var currentCount := if room in roomRefCounts then roomRefCounts[room] else 0;
      roomRefCounts := roomRefCounts[room := currentCount + 1];
      if currentCount == 0 && status == Connected && ws != null && ws.open {
        SendFrame(Sub(room));
      }
    }

    method Unsubscribe(room: Room)
      modifies this, ws
      ensures ws == old(ws) && Ready() == old(Ready())
      ensures View() == UnsubscribeCall(old(View()), old(Ready()), room).0
      ensures ws != null ==> ws.sent == old(ws.sent) + UnsubscribeCall(old(View()), old(Ready()), room).1
    {
      if room == "" {
        return;
      }
      var currentCount := if room in roomRefCounts then roomRefCounts[room] else 0;
      if currentCount <= 1 {
        roomRefCounts := roomRefCounts - {room};
        if status == Connected && ws != null && ws.open {
          SendFrame(Unsub(room));
        }
      } else {
        roomRefCounts := roomRefCounts[room := currentCount - 1];
      }
    }

    method Disconnect()
      modifies this, ws
      ensures View() == DisconnectCall(old(View()))
      ensures old(ws) != null ==> !old(ws).open && old(ws).sent == old(ws.sent)
    {
      status, reconnectAttempts, reconnectTimer := Disconnected, 0, false;
      if ws != null {
        ws.open := false;
        ws := null;
      }
      roomRefCounts := map[];
    }
  }
}
