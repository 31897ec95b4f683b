/** The sliding-window limiter three times: the script on a sorted set, the list in memory, and a
    reference that keeps every admitted call and counts those inside the window. */
module SlidingWindow {
  type Key = string
  type Member = int

  /** A `Retry-After` in seconds; `NotANumber` is what the list in memory computes without a stamp. */
  datatype Retry = Seconds(n: int) | NotANumber

  datatype Answer = Answer(allowed: bool, remaining: int, retryAfter: Retry)

  function CeilSeconds(ms: int): int {
    (ms + 999) / 1000
  }

  function Max(a: int, b: int): int {
    if a >= b then a else b
  }

  /** The stamps younger than the window. */
  function Live(stamps: seq<int>, now: int, window: int): (r: seq<int>)
    ensures |r| <= |stamps|
    ensures forall t :: t in r <==> t in stamps && now - t < window
  {
    if stamps == [] then []
    else (if now - stamps[0] < window then [stamps[0]] else []) + Live(stamps[1..], now, window)
  }

  // ----- the reference -----

  type History = map<Key, seq<int>>

  function Stamps(h: History, key: Key): seq<int> {
    if key in h then h[key] else []
  }

  /** The answer to a call, from the stamps inside its window. */
  function Verdict(live: seq<int>, now: int, window: int, max: int): Answer {
    if |live| < max then Answer(true, max - |live| - 1, Seconds(0))
    else if live == [] then Answer(false, 0, Seconds(1))
    else Answer(false, 0, Seconds(Max(1, CeilSeconds(live[0] + window - now))))
  }

  function Reference(h: History, key: Key, now: int, window: int, max: int): (History, Answer) {
    var live := Live(Stamps(h, key), now, window);
    (if |live| < max then h[key := Stamps(h, key) + [now]] else h, Verdict(live, now, window, max))
  }

  // ----- the list in memory -----

  const MAX_MAP_ENTRIES := 5000

  function Prune(h: History, now: int, window: int): History {
    if |h| <= MAX_MAP_ENTRIES then h
    else map k | k in h && Live(h[k], now, 2 * window) != [] :: Live(h[k], now, 2 * window)
  }

  /** The map when the pruning loop still has the keys in `left` before it. */
  function PrunedExcept(h: History, now: int, window: int, left: set<Key>): History {
    map k | k in h && (k in left || Live(h[k], now, 2 * window) != []) ::
      if k in left then h[k] else Live(h[k], now, 2 * window)
  }

  lemma PruneOne(h: History, now: int, window: int, left: set<Key>, key: Key)
    requires key in left && key in h
    ensures var before, valid := PrunedExcept(h, now, window, left), Live(h[key], now, 2 * window);
            && key in before && before[key] == h[key]
            && PrunedExcept(h, now, window, left - {key}) == if valid == [] then before - {key} else before[key := valid]
  {
    hide Live;
  }

  lemma PruneAll(h: History, now: int, window: int, all: set<Key>, none: set<Key>)
    requires |h| > MAX_MAP_ENTRIES && all == h.Keys && none == {}
    ensures PrunedExcept(h, now, window, all) == h
    ensures PrunedExcept(h, now, window, none) == Prune(h, now, window)
  {
    hide Live;
  }

  function InMemory(h: History, key: Key, now: int, window: int, max: int): (History, Answer) {
    var pruned := Prune(h, now, window);
    var live := Live(Stamps(pruned, key), now, window);
    if |live| >= max then
      (pruned, Answer(false, 0, if live == [] then NotANumber else Seconds(Max(1, CeilSeconds(live[0] + window - now)))))
    else
      (pruned[key := live + [now]], Answer(true, max - (|live| + 1), Seconds(0)))
  }

  // ----- the script on a sorted set -----

  datatype Entry = Entry(score: int, member: Member)

  /** Sorted sets in ascending order of score, then member, and when each key expires. */
  datatype Redis = Redis(sets: map<Key, seq<Entry>>, expiry: map<Key, int>)

  predicate Before(a: Entry, b: Entry) {
    a.score < b.score || (a.score == b.score && a.member < b.member)
  }

  function ZRem(z: seq<Entry>, member: Member): seq<Entry> {
    if z == [] then [] else (if z[0].member == member then [] else [z[0]]) + ZRem(z[1..], member)
  }

  function ZInsert(z: seq<Entry>, e: Entry): seq<Entry> {
    if z == [] || Before(e, z[0]) then [e] + z else [z[0]] + ZInsert(z[1..], e)
  }

  function ZAdd(z: seq<Entry>, e: Entry): seq<Entry> {
    ZInsert(ZRem(z, e.member), e)
  }

  function ZRemRangeByScore(z: seq<Entry>, min: int, max: int): seq<Entry> {
    if z == [] then []
    else (if min <= z[0].score <= max then [] else [z[0]]) + ZRemRangeByScore(z[1..], min, max)
  }

  function Set(r: Redis, key: Key): seq<Entry> {
    if key in r.sets then r.sets[key] else []
  }

  /** One run of the script; `expired` says that the key's time was up and the server dropped it. */
  function Script(r: Redis, key: Key, now: int, window: int, limit: int, member: Member, expired: bool): (Redis, Answer) {
    var found := if expired then [] else Set(r, key);
    var z := ZRemRangeByScore(found, 0, now - window);
    if |z| < limit then
      (Redis(r.sets[key := ZAdd(z, Entry(now, member))], r.expiry[key := now + 1000 * CeilSeconds(window)]),
       Answer(true, limit - |z| - 1, Seconds(0)))
    else
      var retryAfter := if z == [] then 0 else CeilSeconds(z[0].score + window - now);
      (r.(sets := r.sets[key := z]), Answer(false, 0, Seconds(if retryAfter <= 0 then 1 else retryAfter)))
  }

  predicate MayExpire(r: Redis, key: Key, now: int) {
    key in r.expiry && now >= r.expiry[key]
  }

  function Scores(z: seq<Entry>): (r: seq<int>)
    ensures |r| == |z| && forall i :: 0 <= i < |z| ==> r[i] == z[i].score
  {
    if z == [] then [] else [z[0].score] + Scores(z[1..])
  }

  // ----- live stamps -----

  lemma {:induction false} LiveAppend(a: seq<int>, b: seq<int>, now: int, window: int)
    ensures Live(a + b, now, window) == Live(a, now, window) + Live(b, now, window)
  {
    if a == [] {
      assert a + b == b;
    } else {
      assert (a + b)[0] == a[0] && (a + b)[1..] == a[1..] + b;
      LiveAppend(a[1..], b, now, window);
    }
  }

  /** Dropping the stamps outside one window changes no later and no narrower one. */
  lemma {:induction false} LiveLater(stamps: seq<int>, now: int, wide: int, later: int, window: int)
    requires now - wide <= later - window
    ensures Live(Live(stamps, now, wide), later, window) == Live(stamps, later, window)
  {
    if stamps != [] {
      LiveLater(stamps[1..], now, wide, later, window);
      LiveAppend(if now - stamps[0] < wide then [stamps[0]] else [], Live(stamps[1..], now, wide), later, window);
    }
  }

  lemma {:induction false} LiveAll(stamps: seq<int>, now: int, window: int)
    requires forall t :: t in stamps ==> now - t < window
    ensures Live(stamps, now, window) == stamps
  {
    if stamps != [] {
      assert stamps[0] in stamps;
      forall t | t in stamps[1..] ensures now - t < window { assert t in stamps; }
      LiveAll(stamps[1..], now, window);
    }
  }

  lemma {:induction false} LiveNone(stamps: seq<int>, now: int, window: int)
    requires forall t :: t in stamps ==> now - t >= window
    ensures Live(stamps, now, window) == []
  {
    if stamps != [] {
      assert stamps[0] in stamps;
      forall t | t in stamps[1..] ensures now - t >= window { assert t in stamps; }
      LiveNone(stamps[1..], now, window);
    }
  }

  /** Above its size the map keeps exactly the keys with a stamp inside twice the caller's window, and of
      each exactly those stamps; up to its size it is left alone. */
  lemma PruneExactly(h: History, now: int, window: int, key: Key)
    ensures |h| <= MAX_MAP_ENTRIES ==> Prune(h, now, window) == h
    ensures |h| > MAX_MAP_ENTRIES ==>
              && (key in Prune(h, now, window) <==> key in h && exists t :: t in h[key] && now - t < 2 * window)
              && Stamps(Prune(h, now, window), key) == Live(Stamps(h, key), now, 2 * window)
  {
    if key in h {
      var live := Live(h[key], now, 2 * window);
      assert live != [] ==> live[0] in live;
    }
  }

  /** The history after `n` calls at one moment. */
  function CallsAt(h: History, key: Key, now: int, window: int, max: int, n: nat): History {
    if n == 0 then h else Reference(CallsAt(h, key, now, window, max, n - 1), key, now, window, max).0
  }

  lemma {:induction false} LiveAfterCalls(h: History, key: Key, now: int, window: int, max: int, n: nat)
    requires window > 0
    ensures var before, after := |Live(Stamps(h, key), now, window)|, |Live(Stamps(CallsAt(h, key, now, window, max, n), key), now, window)|;
            after == if before + n <= max then before + n else Max(before, max)
  {
    if n > 0 {
      LiveAfterCalls(h, key, now, window, max, n - 1);
      var stamps := Stamps(CallsAt(h, key, now, window, max, n - 1), key);
      LiveAppend(stamps, [now], now, window);
      assert Live([now], now, window) == [now] by {
        LiveAll([now], now, window);
      }
    }
  }

  /** What an admitted call is told remains is exact: that many more calls at the same moment are
      admitted, and not one more. */
  lemma RemainingIsExact(h: History, key: Key, now: int, window: int, max: int, n: nat)
    requires window > 0 && Reference(h, key, now, window, max).1.allowed
    ensures Reference(CallsAt(h, key, now, window, max, n), key, now, window, max).1.allowed
            <==> n <= Reference(h, key, now, window, max).1.remaining
  {
    LiveAfterCalls(h, key, now, window, max, n);
  }

  /** Pruning for a caller's window is harmless to the stamps of a key, whatever they are, exactly
      when the key's window is at most twice the caller's. */
  lemma PruneHarmlessExactly(now: int, caller: nat, window: nat)
    ensures (forall stamps :: Live(Live(stamps, now, 2 * caller), now, window) == Live(stamps, now, window)) <==> window <= 2 * caller
  {
    if window <= 2 * caller {
      forall stamps: seq<int> ensures Live(Live(stamps, now, 2 * caller), now, window) == Live(stamps, now, window) {
        LiveLater(stamps, now, 2 * caller, now, window);
      }
    } else {
      var s := [now - 2 * caller];
      assert s[1..] == [];
      assert Live(s, now, 2 * caller) == [];
      assert Live(s, now, window) == s;
    }
  }

  // ----- the sorted set holds the stamps in order -----

  predicate Ascending(stamps: seq<int>) {
    forall i, j :: 0 <= i < j < |stamps| ==> stamps[i] <= stamps[j]
  }

  lemma {:induction false} ScoresAppend(a: seq<Entry>, b: seq<Entry>)
    ensures Scores(a + b) == Scores(a) + Scores(b)
  {}

  lemma {:induction false} RangeIsLive(z: seq<Entry>, now: int, window: int)
    requires forall i :: 0 <= i < |z| ==> z[i].score >= 0
    ensures Scores(ZRemRangeByScore(z, 0, now - window)) == Live(Scores(z), now, window)
    ensures forall e :: e in ZRemRangeByScore(z, 0, now - window) ==> e in z
  {
    if z != [] {
      RangeIsLive(z[1..], now, window);
      var kept := if 0 <= z[0].score <= now - window then [] else [z[0]];
      ScoresAppend(kept, ZRemRangeByScore(z[1..], 0, now - window));
      assert Scores(z)[1..] == Scores(z[1..]);
      forall e | e in ZRemRangeByScore(z, 0, now - window) ensures e in z {
        assert e in kept || e in ZRemRangeByScore(z[1..], 0, now - window);
        assert e in z[1..] ==> e in z;
      }
    }
  }

  lemma {:induction false} RemoveAbsent(z: seq<Entry>, member: Member)
    requires forall e :: e in z ==> e.member != member
    ensures ZRem(z, member) == z
  {
    if z != [] {
      RemoveAbsent(z[1..], member);
    }
  }

  /** A new member with the highest score goes among the entries of that score, so the scores just
      get one more at their end. */
  lemma {:induction false} InsertLatest(z: seq<Entry>, e: Entry)
    requires Ascending(Scores(z)) && forall i :: 0 <= i < |z| ==> z[i].score <= e.score
    ensures Scores(ZInsert(z, e)) == Scores(z) + [e.score]
    ensures forall x :: x in ZInsert(z, e) <==> x in z || x == e
  {
    if z != [] {
      if Before(e, z[0]) {
        forall i | 0 <= i < |z| ensures Scores(z)[i] == e.score {
          assert Scores(z)[0] <= Scores(z)[i];
        }
        ScoresAppend([e], z);
      } else {
        assert Scores(z)[1..] == Scores(z[1..]);
        InsertLatest(z[1..], e);
        ScoresAppend([z[0]], ZInsert(z[1..], e));
        assert Scores(z) == [z[0].score] + Scores(z[1..]);
        forall x ensures x in ZInsert(z, e) <==> x in z || x == e {
          assert x in ZInsert(z, e) <==> x == z[0] || x in ZInsert(z[1..], e);
          assert x in z <==> x == z[0] || x in z[1..];
        }
      }
    } else {
      assert [e] + z == [e];
    }
  }

  // ----- one step of each keeps them together -----

  type Windows = Key -> nat

  /** Both histories have the same live stamps for every key. */
  ghost predicate SameLive(a: History, b: History, windows: Windows, now: int) {
    forall k :: Live(Stamps(a, k), now, windows(k)) == Live(Stamps(b, k), now, windows(k))
  }

  lemma SameLiveLater(a: History, b: History, windows: Windows, now: int, later: int)
    requires SameLive(a, b, windows, now) && now <= later
    ensures SameLive(a, b, windows, later)
  {
    forall k ensures Live(Stamps(a, k), later, windows(k)) == Live(Stamps(b, k), later, windows(k)) {
      LiveLater(Stamps(a, k), now, windows(k), later, windows(k));
      LiveLater(Stamps(b, k), now, windows(k), later, windows(k));
    }
  }

  lemma PrunedLive(h: History, now: int, caller: nat, key: Key, window: nat)
    requires window <= 2 * caller
    ensures Live(Stamps(Prune(h, now, caller), key), now, window) == Live(Stamps(h, key), now, window)
  {
    LiveLater(Stamps(h, key), now, 2 * caller, now, window);
  }

  /** The list in memory stays with the reference, and answers as it does exactly when the limit is
      positive or a stamp is live. */
  lemma InMemoryStep(mem: History, ref: History, windows: Windows, key: Key, now: int, max: int)
    requires SameLive(mem, ref, windows, now)
    requires forall k :: windows(k) <= 2 * windows(key)
    ensures var m, r := InMemory(mem, key, now, windows(key), max), Reference(ref, key, now, windows(key), max);
            && SameLive(m.0, r.0, windows, now)
            && (m.1 == r.1 <==> max >= 1 || Live(Stamps(ref, key), now, windows(key)) != [])
  {
    var w := windows(key);
    PrunedLive(mem, now, w, key, w);
    var m, r := InMemory(mem, key, now, w, max).0, Reference(ref, key, now, w, max).0;
    var live := Live(Stamps(ref, key), now, w);
    forall k ensures Live(Stamps(m, k), now, windows(k)) == Live(Stamps(r, k), now, windows(k)) {
      PrunedLive(mem, now, w, k, windows(k));
      if k == key && |live| < max {
        LiveAppend(live, [now], now, w);
        LiveAppend(Stamps(ref, key), [now], now, w);
        LiveLater(Stamps(ref, key), now, w, now, w);
      }
    }
  }

  /** The sorted set of a key: ordered, not from the future, with the reference's live stamps, and
      expiring no sooner than its last stamp leaves the window. */
  ghost predicate SetFits(z: seq<Entry>, expiry: int, stamps: seq<int>, window: nat, now: int) {
    && Ascending(Scores(z))
    && (forall i :: 0 <= i < |z| ==> 0 <= z[i].score <= now && z[i].score + window <= expiry)
    && Live(Scores(z), now, window) == Live(stamps, now, window)
  }

  ghost predicate SetsFit(r: Redis, ref: History, windows: Windows, now: int) {
    && (forall k :: k in r.expiry || Set(r, k) == [])
    && forall k :: if k in r.expiry then SetFits(Set(r, k), r.expiry[k], Stamps(ref, k), windows(k), now)
                   else Live(Stamps(ref, k), now, windows(k)) == []
  }

  lemma SetFitsLater(z: seq<Entry>, expiry: int, stamps: seq<int>, window: nat, now: int, later: int)
    requires SetFits(z, expiry, stamps, window, now) && now <= later
    ensures SetFits(z, expiry, stamps, window, later)
  {
    LiveLater(Scores(z), now, window, later, window);
    LiveLater(stamps, now, window, later, window);
  }

  /** When a key's time is up, none of its stamps is live. */
  lemma ExpiredIsStale(z: seq<Entry>, expiry: int, stamps: seq<int>, window: nat, now: int)
    requires SetFits(z, expiry, stamps, window, now) && now >= expiry
    ensures Live(stamps, now, window) == []
  {
    forall t | t in Scores(z) ensures now - t >= window {
      var i :| 0 <= i < |z| && Scores(z)[i] == t;
    }
    LiveNone(Scores(z), now, window);
  }

  /** What the script leaves of a set before it decides. */
  lemma TrimmedSet(z: seq<Entry>, expiry: int, stamps: seq<int>, window: nat, now: int)
    requires SetFits(z, expiry, stamps, window, now)
    ensures var kept := ZRemRangeByScore(z, 0, now - window);
            && SetFits(kept, expiry, stamps, window, now)
            && Scores(kept) == Live(stamps, now, window)
            && (forall e :: e in kept ==> e in z)
  {
    var kept := ZRemRangeByScore(z, 0, now - window);
    RangeIsLive(z, now, window);
    LiveLater(Scores(z), now, window, now, window);
    LiveAscending(Scores(z), now, window);
    forall i | 0 <= i < |kept| ensures 0 <= kept[i].score <= now && kept[i].score + window <= expiry {
      assert kept[i] in z;
    }
  }

  lemma {:induction false} LiveAscending(stamps: seq<int>, now: int, window: int)
    requires Ascending(stamps)
    ensures Ascending(Live(stamps, now, window))
  {
    if stamps != [] {
      LiveAscending(stamps[1..], now, window);
      var rest := Live(stamps[1..], now, window);
      forall j | 0 <= j < |rest| ensures stamps[0] <= rest[j] {
        assert rest[j] in stamps[1..];
      }
    }
  }

  /** An admitted call's stamp goes to the end of both. */
  lemma AdmittedSet(z: seq<Entry>, expiry: int, stamps: seq<int>, window: nat, now: int, member: Member)
    requires SetFits(z, expiry, stamps, window, now) && now >= 0
    requires Scores(z) == Live(stamps, now, window)
    requires forall e :: e in z ==> e.member != member
    ensures SetFits(ZAdd(z, Entry(now, member)), now + 1000 * CeilSeconds(window), stamps + [now], window, now)
  {
    RemoveAbsent(z, member);
    InsertLatest(z, Entry(now, member));
    var z' := ZAdd(z, Entry(now, member));
    LiveAppend(stamps, [now], now, window);
    LiveAppend(Scores(z), [now], now, window);
    LiveLater(stamps, now, window, now, window);
    forall i | 0 <= i < |z'| ensures 0 <= z'[i].score <= now && z'[i].score + window <= now + 1000 * CeilSeconds(window) {
      assert z'[i] in z || z'[i] == Entry(now, member);
    }
  }

  lemma FoundFits(redis: Redis, stamps: seq<int>, key: Key, now: int, window: nat, expired: bool)
    requires key in redis.expiry || Set(redis, key) == []
    requires key in redis.expiry ==> SetFits(Set(redis, key), redis.expiry[key], stamps, window, now)
    requires key !in redis.expiry ==> Live(stamps, now, window) == []
    requires expired ==> MayExpire(redis, key, now)
    ensures SetFits(if expired then [] else Set(redis, key), if key in redis.expiry then redis.expiry[key] else 0, stamps, window, now)
  {
    if expired {
      ExpiredIsStale(Set(redis, key), redis.expiry[key], stamps, window, now);
    }
  }

  lemma SetAfter(redis: Redis, key: Key, z: seq<Entry>, expiry: map<Key, int>)
    ensures Set(Redis(redis.sets[key := z], expiry), key) == z
  {}

  /** The script on one key's set. */
  lemma ScriptOnSet(redis: Redis, ref: History, key: Key, now: int, window: nat, max: int, member: Member, expired: bool)
    requires now >= 0 && (key in redis.expiry || Set(redis, key) == [])
    requires key in redis.expiry ==> SetFits(Set(redis, key), redis.expiry[key], Stamps(ref, key), window, now)
    requires key !in redis.expiry ==> Live(Stamps(ref, key), now, window) == []
    requires forall e :: e in Set(redis, key) ==> e.member != member
    requires expired ==> MayExpire(redis, key, now)
    ensures var s, r := Script(redis, key, now, window, max, member, expired), Reference(ref, key, now, window, max);
            && s.1 == r.1
            && (if key in s.0.expiry then SetFits(Set(s.0, key), s.0.expiry[key], Stamps(r.0, key), window, now)
                else Live(Stamps(r.0, key), now, window) == [])
            && (key in s.0.expiry || Set(s.0, key) == [])
  {
    hide SetFits, ZAdd, Live, ZRemRangeByScore, CeilSeconds, Set, MayExpire;
    var stamps := Stamps(ref, key);
    var found := if expired then [] else Set(redis, key);
    var expiry := if key in redis.expiry then redis.expiry[key] else 0;
    FoundFits(redis, stamps, key, now, window, expired);
    TrimmedSet(found, expiry, stamps, window, now);
    SetAfter(redis, key, ZAdd(ZRemRangeByScore(found, 0, now - window), Entry(now, member)),
             redis.expiry[key := now + 1000 * CeilSeconds(window)]);
    SetAfter(redis, key, ZRemRangeByScore(found, 0, now - window), redis.expiry);
    var z := ZRemRangeByScore(found, 0, now - window);
    if |z| < max {
      AdmittedSet(z, expiry, stamps, window, now, member);
    }
  }

  /** The script stays with the reference and always answers as it does. */
  lemma ScriptStep(redis: Redis, ref: History, windows: Windows, key: Key, now: int, max: int, member: Member, expired: bool)
    requires SetsFit(redis, ref, windows, now) && now >= 0
    requires forall e :: e in Set(redis, key) ==> e.member != member
    requires expired ==> MayExpire(redis, key, now)
    ensures var s, r := Script(redis, key, now, windows(key), max, member, expired), Reference(ref, key, now, windows(key), max);
            SetsFit(s.0, r.0, windows, now) && s.1 == r.1
  {
    hide SetFits, Live, Set, Stamps, MayExpire;
    ScriptOnSet(redis, ref, key, now, windows(key), max, member, expired);
    ScriptKeeps(redis, ref, windows, key, now, max, member, expired);
    hide Script, Reference;
  }

  /** The other keys. */
  lemma ScriptKeeps(redis: Redis, ref: History, windows: Windows, key: Key, now: int, max: int, member: Member, expired: bool)
    ensures var s, r := Script(redis, key, now, windows(key), max, member, expired), Reference(ref, key, now, windows(key), max);
            && s.0.expiry.Keys - {key} == redis.expiry.Keys - {key}
            && forall k :: k != key ==> Stamps(r.0, k) == Stamps(ref, k) && Set(s.0, k) == Set(redis, k) &&
                                        (k in redis.expiry <==> k in s.0.expiry) &&
                                        (k in redis.expiry ==> s.0.expiry[k] == redis.expiry[k])
  {}

  // ----- runs -----

  datatype Call = Call(key: Key, now: int, max: int, member: Member, expired: bool)

  function RunReference(cs: seq<Call>, windows: Windows): History {
    if cs == [] then map[] else
    var c := cs[|cs| - 1];
    Reference(RunReference(cs[..|cs| - 1], windows), c.key, c.now, windows(c.key), c.max).0
  }

  function RunInMemory(cs: seq<Call>, windows: Windows): History {
    if cs == [] then map[] else
    var c := cs[|cs| - 1];
    InMemory(RunInMemory(cs[..|cs| - 1], windows), c.key, c.now, windows(c.key), c.max).0
  }

  function RunScript(cs: seq<Call>, windows: Windows): Redis {
    if cs == [] then Redis(map[], map[]) else
    var c := cs[|cs| - 1];
    Script(RunScript(cs[..|cs| - 1], windows), c.key, c.now, windows(c.key), c.max, c.member, c.expired).0
  }

  /** The clock never goes back, members are new to their set, and keys vanish only when their time is up. */
  ghost predicate Regular(cs: seq<Call>, windows: Windows) {
    cs == [] ||
    (var front, c := cs[..|cs| - 1], cs[|cs| - 1];
     && Regular(front, windows)
     && (if front == [] then 0 else front[|front| - 1].now) <= c.now
     && (forall e :: e in Set(RunScript(front, windows), c.key) ==> e.member != c.member)
     && (c.expired ==> MayExpire(RunScript(front, windows), c.key, c.now)))
  }

  /** No key's window is more than twice that of a limiter that may prune it. */
  ghost predicate Comparable(cs: seq<Call>, windows: Windows) {
    forall c, k :: c in cs ==> windows(k) <= 2 * windows(c.key)
  }

  function Clock(cs: seq<Call>): int {
    if cs == [] then 0 else cs[|cs| - 1].now
  }

  lemma {:induction false} ScriptRun(cs: seq<Call>, windows: Windows)
    requires Regular(cs, windows)
    ensures Clock(cs) >= 0 && SetsFit(RunScript(cs, windows), RunReference(cs, windows), windows, Clock(cs))
  {
    if cs != [] {
      var front, c := cs[..|cs| - 1], cs[|cs| - 1];
      ScriptRun(front, windows);
      var redis, ref := RunScript(front, windows), RunReference(front, windows);
      SetsFitLater(redis, ref, windows, Clock(front), c.now);
      ScriptStep(redis, ref, windows, c.key, c.now, c.max, c.member, c.expired);
    }
  }

  lemma SetsFitLater(redis: Redis, ref: History, windows: Windows, now: int, later: int)
    requires SetsFit(redis, ref, windows, now) && now <= later
    ensures SetsFit(redis, ref, windows, later)
  {
    forall k
      ensures if k in redis.expiry then SetFits(Set(redis, k), redis.expiry[k], Stamps(ref, k), windows(k), later)
              else Live(Stamps(ref, k), later, windows(k)) == []
    {
      if k in redis.expiry {
        SetFitsLater(Set(redis, k), redis.expiry[k], Stamps(ref, k), windows(k), now, later);
      } else {
        LiveLater(Stamps(ref, k), now, windows(k), later, windows(k));
      }
    }
  }

  lemma {:induction false} InMemoryRun(cs: seq<Call>, windows: Windows)
    requires Regular(cs, windows) && Comparable(cs, windows)
    ensures SameLive(RunInMemory(cs, windows), RunReference(cs, windows), windows, Clock(cs))
  {
    if cs != [] {
      var front, c := cs[..|cs| - 1], cs[|cs| - 1];
      assert Comparable(front, windows) by {
        forall d | d in front ensures d in cs {}
      }
      InMemoryRun(front, windows);
      var mem, ref := RunInMemory(front, windows), RunReference(front, windows);
      SameLiveLater(mem, ref, windows, Clock(front), c.now);
      assert c in cs;
      InMemoryStep(mem, ref, windows, c.key, c.now, c.max);
    }
  }

  /** After any run the script, which expires keys, and the list in memory, which prunes them, give the
      next call the same answer as the reference, which forgets nothing: the script always, the list
      exactly when the limit is positive or a stamp is live. */
  lemma LimitersAgreeExactly(cs: seq<Call>, c: Call, windows: Windows)
    requires Regular(cs + [c], windows) && Comparable(cs + [c], windows)
    ensures var ref := Reference(RunReference(cs, windows), c.key, c.now, windows(c.key), c.max).1;
            && Script(RunScript(cs, windows), c.key, c.now, windows(c.key), c.max, c.member, c.expired).1 == ref
            && (InMemory(RunInMemory(cs, windows), c.key, c.now, windows(c.key), c.max).1 == ref <==>
                c.max >= 1 || Live(Stamps(RunReference(cs, windows), c.key), c.now, windows(c.key)) != [])
  {
    assert (cs + [c])[..|cs|] == cs;
    assert Comparable(cs, windows) by {
      forall d | d in cs ensures d in cs + [c] {}
    }
    assert c in cs + [c];
    ScriptRun(cs, windows);
    InMemoryRun(cs, windows);
    var redis, mem, ref := RunScript(cs, windows), RunInMemory(cs, windows), RunReference(cs, windows);
    SetsFitLater(redis, ref, windows, Clock(cs), c.now);
    ScriptStep(redis, ref, windows, c.key, c.now, c.max, c.member, c.expired);
    SameLiveLater(mem, ref, windows, Clock(cs), c.now);
    InMemoryStep(mem, ref, windows, c.key, c.now, c.max);
  }

  // ----- what the window bounds -----

  /** Any `max + 1` admitted calls in a row span at least the window. */
  ghost predicate Spaced(stamps: seq<int>, window: int, max: nat) {
    forall i :: 0 <= i && i + max < |stamps| ==> stamps[i + max] - stamps[i] >= window
  }

  lemma {:induction false} LiveIsSuffix(stamps: seq<int>, now: int, window: int)
    requires Ascending(stamps)
    ensures var live := Live(stamps, now, window);
            live == stamps[|stamps| - |live|..]
    ensures forall i :: 0 <= i < |stamps| - |Live(stamps, now, window)| ==> now - stamps[i] >= window
  {
    if stamps != [] {
      LiveIsSuffix(stamps[1..], now, window);
      if now - stamps[0] < window {
        forall t | t in stamps[1..] ensures now - t < window {
          var i :| 0 <= i < |stamps[1..]| && stamps[1..][i] == t;
          assert stamps[0] <= stamps[i + 1];
        }
        LiveAll(stamps[1..], now, window);
      } else {
        forall i | 0 <= i < |stamps| - |Live(stamps, now, window)| ensures now - stamps[i] >= window {
          if i > 0 {
            assert stamps[i] == stamps[1..][i - 1];
          }
        }
      }
    }
  }

  lemma AdmissionKeepsSpacing(stamps: seq<int>, now: int, window: nat, max: nat)
    requires Ascending(stamps) && (stamps != [] ==> stamps[|stamps| - 1] <= now)
    requires Spaced(stamps, window, max) && |Live(stamps, now, window)| < max
    ensures Ascending(stamps + [now]) && Spaced(stamps + [now], window, max)
  {
    LiveIsSuffix(stamps, now, window);
  }

  /** The calls of a key all have the same limit. */
  ghost predicate FixedLimit(cs: seq<Call>, key: Key, max: nat) {
    forall c :: c in cs && c.key == key ==> c.max == max
  }

  ghost predicate SpacedUntil(stamps: seq<int>, now: int, window: nat, max: nat) {
    Ascending(stamps) && (stamps != [] ==> stamps[|stamps| - 1] <= now) && Spaced(stamps, window, max)
  }

  lemma ReferenceKeepsSpacing(h: History, called: Key, now: int, limit: int, windows: Windows, last: int, key: Key, max: nat)
    requires SpacedUntil(Stamps(h, key), last, windows(key), max) && last <= now
    requires called == key ==> limit == max
    ensures SpacedUntil(Stamps(Reference(h, called, now, windows(called), limit).0, key), now, windows(key), max)
  {
    if called == key && |Live(Stamps(h, key), now, windows(key))| < max {
      AdmissionKeepsSpacing(Stamps(h, key), now, windows(key), max);
    }
  }

  lemma {:induction false} AdmissionsSpaced(cs: seq<Call>, windows: Windows, key: Key, max: nat)
    requires Regular(cs, windows) && FixedLimit(cs, key, max)
    ensures SpacedUntil(Stamps(RunReference(cs, windows), key), Clock(cs), windows(key), max)
  {
    hide SpacedUntil, Reference;
    if cs == [] {
      NothingSpaced(windows(key), max);
    } else {
      var front, c := cs[..|cs| - 1], cs[|cs| - 1];
      assert FixedLimit(front, key, max) by {
        forall d | d in front ensures d in cs {}
      }
      AdmissionsSpaced(front, windows, key, max);
      assert c in cs;
      ReferenceKeepsSpacing(RunReference(front, windows), c.key, c.now, c.max, windows, Clock(front), key, max);
    }
  }

  lemma NothingSpaced(window: nat, max: nat)
    ensures SpacedUntil([], 0, window, max)
  {}

  /** The positions whose stamps lie in the half-open interval from `from`, as long as the window. */
  function Within(stamps: seq<int>, from: int, window: int): set<int> {
    set i | 0 <= i < |stamps| && from <= stamps[i] < from + window
  }

  function Range(lo: int, n: nat): (r: set<int>)
    ensures |r| == n && forall i :: i in r <==> lo <= i < lo + n
  {
    if n == 0 then {} else Range(lo, n - 1) + {lo + n - 1}
  }

  lemma SubsetSize<T>(a: set<T>, b: set<T>)
    requires a <= b
    ensures |a| <= |b|
  {
    assert b == a + (b - a);
  }

  lemma FirstFrom(stamps: seq<int>, from: int) returns (lo: nat)
    requires Ascending(stamps)
    ensures lo <= |stamps| && forall i :: 0 <= i < |stamps| ==> (i < lo <==> stamps[i] < from)
  {
    lo := 0;
    while lo < |stamps| && stamps[lo] < from
      invariant lo <= |stamps| && forall i :: 0 <= i < lo ==> stamps[i] < from
    {
      lo := lo + 1;
    }
  }

  lemma AtMostMaxWithin(stamps: seq<int>, window: nat, max: nat, from: int)
    requires Ascending(stamps) && Spaced(stamps, window, max)
    ensures |Within(stamps, from, window)| <= max
  {
    var lo := FirstFrom(stamps, from);
    if lo + max < |stamps| {
      assert stamps[lo + max] - stamps[lo] >= window;
    }
    SubsetSize(Within(stamps, from, window), Range(lo, max));
  }

  /** In every run, every half-open interval as long as a key's window holds at most the key's limit
      of admitted calls. */
  lemma WindowBound(cs: seq<Call>, windows: Windows, key: Key, max: nat, from: int)
    requires Regular(cs, windows) && FixedLimit(cs, key, max)
    ensures |Within(Stamps(RunReference(cs, windows), key), from, windows(key))| <= max
  {
    AdmissionsSpaced(cs, windows, key, max);
    AtMostMaxWithin(Stamps(RunReference(cs, windows), key), windows(key), max, from);
  }

  /** A call is admitted exactly when fewer than the limit of the last admissions are live; with the
      limit reached, exactly from the oldest live stamp's leaving on. */
  lemma DeniedUntilOldestLeaves(stamps: seq<int>, now: int, later: int, window: nat, max: nat)
    requires Ascending(stamps) && now <= later && max >= 1
    requires |Live(stamps, now, window)| == max
    ensures |Live(stamps, later, window)| < max <==> later >= Live(stamps, now, window)[0] + window
  {
    var live := Live(stamps, now, window);
    LiveLater(stamps, now, window, later, window);
    if later < live[0] + window {
      LiveAscending(stamps, now, window);
      LiveAll(live, later, window);
    } else {
      assert Live(live, later, window) == Live(live[1..], later, window);
    }
  }

  /** A denied call's `retryAfter` is exact to the second when the limit is just reached. */
  lemma RetryFromStamps(h: History, key: Key, now: int, window: nat, max: nat)
    requires Ascending(Stamps(h, key)) && max >= 1 && |Live(Stamps(h, key), now, window)| == max
    ensures var retry := Reference(h, key, now, window, max).1.retryAfter;
            && retry.Seconds? && retry.n >= 1
            && Reference(h, key, now + 1000 * retry.n, window, max).1.allowed
            && forall t :: now <= t <= now + 1000 * (retry.n - 1) ==> !Reference(h, key, t, window, max).1.allowed
  {
    var stamps := Stamps(h, key);
    var live := Live(stamps, now, window);
    assert live[0] in live;
    var n := CeilSeconds(live[0] + window - now);
    assert 1 <= n && 1000 * (n - 1) < live[0] + window - now <= 1000 * n;
    DeniedUntilOldestLeaves(stamps, now, now + 1000 * n, window, max);
    hide Live;
    forall t | now <= t <= now + 1000 * (n - 1) ensures |Live(stamps, t, window)| >= max {
      DeniedUntilOldestLeaves(stamps, now, t, window, max);
    }
  }

  /** In every run of a fixed limit a denied call's `retryAfter` is exact to the second: with nothing
      admitted in between, a call is admitted after that many seconds and not one second earlier. */
  lemma RetryIsExact(cs: seq<Call>, windows: Windows, key: Key, now: int, max: nat)
    requires Regular(cs, windows) && FixedLimit(cs, key, max) && max >= 1 && now >= Clock(cs)
    requires !Reference(RunReference(cs, windows), key, now, windows(key), max).1.allowed
    ensures var h, w := RunReference(cs, windows), windows(key);
            var retry := Reference(h, key, now, w, max).1.retryAfter;
            && retry.Seconds? && retry.n >= 1
            && Reference(h, key, now + 1000 * retry.n, w, max).1.allowed
            && forall t :: now <= t <= now + 1000 * (retry.n - 1) ==> !Reference(h, key, t, w, max).1.allowed
  {
    var h := RunReference(cs, windows);
    AdmissionsSpaced(cs, windows, key, max);
    AtMostMaxLive(Stamps(h, key), now, windows(key), max);
    RetryFromStamps(h, key, now, windows(key), max);
  }

  lemma SpanFrom(stamps: seq<int>, window: nat, max: nat, i: nat)
    requires Ascending(stamps) && Spaced(stamps, window, max)
    ensures i + max < |stamps| ==> stamps[i] + window <= stamps[|stamps| - 1]
  {
    if i + max < |stamps| {
      assert stamps[i + max] - stamps[i] >= window;
    }
  }

  lemma AtMostMaxLive(stamps: seq<int>, now: int, window: nat, max: nat)
    requires Ascending(stamps) && Spaced(stamps, window, max)
    requires stamps != [] ==> stamps[|stamps| - 1] <= now
    ensures |Live(stamps, now, window)| <= max
  {
    hide Live;
    LiveIsSuffix(stamps, now, window);
    var live := Live(stamps, now, window);
    if live != [] {
      var i := |stamps| - |live|;
      assert stamps[i] == live[0];
      assert live[0] in live;
      SpanFrom(stamps, window, max, i);
    }
  }
}
