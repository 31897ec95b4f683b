/** The candidate's telemetry buffer and the server's table: every event has one fate, and every
    acknowledged event one row. */
module Telemetry {
  import opened Sequences
  import opened Wrappers

  type EventId = nat
  type AttemptId = nat

  const BATCH := 50
  const MAX_BUFFER_CAP := 100

  /** One request under way. */
  datatype Flight = Flight(attempt: AttemptId, batch: seq<EventId>)

  datatype Hook = Hook(buffer: seq<EventId>, flight: Option<Flight>, active: bool, attempt: Option<AttemptId>)

  /** How a request ends for the client: acknowledged, refused for good (status 403 or 422, or an
      expired attempt), or failed in any other way. */
  datatype Outcome = Acknowledged | Refused | Failed

  function Take(s: seq<EventId>, n: nat): seq<EventId> {
    if |s| <= n then s else s[..n]
  }

  /** The events that are not in the batch. */
  function Unsent(buffer: seq<EventId>, batch: seq<EventId>): seq<EventId> {
    if buffer == [] then []
    else (if buffer[0] in batch then [] else [buffer[0]]) + Unsent(buffer[1..], batch)
  }

  function BeginFlush(h: Hook): Hook {
    if h.flight.Some? || h.attempt.None? || !h.active || h.buffer == [] then h
    else h.(flight := Some(Flight(h.attempt.value, Take(h.buffer, BATCH))))
  }

  function Accepts(h: Hook): bool {
    h.active && h.attempt.Some?
  }

  function Enqueue(h: Hook, e: EventId, maxBufferSize: nat): Hook {
    if !Accepts(h) then h else
    var h' := h.(buffer := h.buffer + [e]);
    if |h'.buffer| >= maxBufferSize then BeginFlush(h') else h'
  }

  function Settle(h: Hook, outcome: Outcome): Hook
    requires h.flight.Some?
  {
    match outcome
    case Acknowledged => h.(buffer := Unsent(h.buffer, h.flight.value.batch), flight := None)
    case Refused => h.(buffer := [], active := false, flight := None)
    case Failed => h.(buffer := LastOf(h.buffer, MAX_BUFFER_CAP), flight := None)
  }

  // ----- the hook as an object -----

  class TelemetryBuffer {
    var buffer: seq<EventId>
    var isFlushing: bool
    var batch: seq<EventId>
    var batchAttempt: AttemptId
    var isActive: bool
    var attemptId: Option<AttemptId>

    ghost function View(): Hook
      reads this
    {
      Hook(buffer, if isFlushing then Some(Flight(batchAttempt, batch)) else None, isActive, attemptId)
    }

    constructor (attemptId: Option<AttemptId>, isActive: bool)
      ensures View() == Hook([], None, isActive, attemptId)
    {
      this.attemptId, this.isActive, buffer, isFlushing, batch, batchAttempt := attemptId, isActive, [], false, [], 0;
    }

    /** `flushBuffer` up to its await. */
    method StartFlush()
      modifies this
      ensures View() == BeginFlush(old(View()))
    {
      if isFlushing || attemptId.None? || !isActive || buffer == [] {
        return;
      }
      isFlushing := true;
      batch := if |buffer| <= BATCH then buffer else buffer[..BATCH];
      batchAttempt := attemptId.value;
    }

    method EnqueueEvent(e: EventId, maxBufferSize: nat)
      modifies this
      ensures View() == Enqueue(old(View()), e, maxBufferSize)
    {
      if !isActive || attemptId.None? {
        return;
      }
      buffer := buffer + [e];
      if |buffer| >= maxBufferSize {
        StartFlush();
      }
    }

    /** `flushBuffer` after its await. */
    method FinishFlush(outcome: Outcome)
      requires isFlushing
      modifies this
      ensures View() == Settle(old(View()), outcome)
    {
      match outcome {
        case Acknowledged =>
          var kept := [];
          for i := 0 to |buffer|
            invariant View() == old(View())
            invariant kept == Unsent(buffer[..i], batch)
          {
            assert buffer[..i + 1] == buffer[..i] + [buffer[i]];
            UnsentAppend(buffer[..i], [buffer[i]], batch);
            if buffer[i] !in batch {
              kept := kept + [buffer[i]];
            }
          }
          assert buffer[..|buffer|] == buffer;
          buffer := kept;
        case Refused =>
          buffer := [];
          isActive := false;
        case Failed =>
          if |buffer| > MAX_BUFFER_CAP {
            buffer := buffer[|buffer| - MAX_BUFFER_CAP..];
          }
      }
      isFlushing := false;
    }
  }

  lemma {:induction false} UnsentAppend(a: seq<EventId>, b: seq<EventId>, batch: seq<EventId>)
    ensures Unsent(a + b, batch) == Unsent(a, batch) + Unsent(b, batch)
  {
    if a == [] {
      assert a + b == b;
    } else {
      assert a + b == [a[0]] + (a[1..] + b);
      UnsentAppend(a[1..], b, batch);
    }
  }

  lemma {:induction false} UnsentAll(s: seq<EventId>, batch: seq<EventId>)
    ensures (forall e :: e in s ==> e in batch) ==> Unsent(s, batch) == []
    ensures (forall e :: e in s ==> e !in batch) ==> Unsent(s, batch) == s
  {
    if s != [] {
      assert s[0] in s && forall e :: e in s[1..] ==> e in s;
      UnsentAll(s[1..], batch);
    }
  }

  /** Removing a sent prefix by id removes exactly the prefix when no id occurs twice. */
  lemma RemovalDropsPrefix(buffer: seq<EventId>, n: nat)
    requires n <= |buffer| && NoDuplicates(buffer)
    ensures Unsent(buffer, buffer[..n]) == buffer[n..]
  {
    hide Unsent;
    assert buffer == buffer[..n] + buffer[n..];
    UnsentAppend(buffer[..n], buffer[n..], buffer[..n]);
    UnsentAll(buffer[..n], buffer[..n]);
    forall e | e in buffer[n..] ensures e !in buffer[..n] {
      var j :| 0 <= j < |buffer[n..]| && buffer[n..][j] == e;
      assert buffer[n + j] == e;
    }
    UnsentAll(buffer[n..], buffer[..n]);
  }

  // ----- the server -----

  datatype Row = Row(attempt: AttemptId, event: EventId)

  /** `INSERT … ON CONFLICT DO NOTHING` on the unique index of attempt and event. */
  function Insert(table: seq<Row>, attempt: AttemptId, batch: seq<EventId>): seq<Row>
    decreases batch
  {
    if batch == [] then table
    else
      var row := Row(attempt, batch[0]);
      Insert(if row in table then table else table + [row], attempt, batch[1..])
  }

  lemma {:induction false} InsertStores(table: seq<Row>, attempt: AttemptId, batch: seq<EventId>)
    requires NoDuplicates(table)
    ensures NoDuplicates(Insert(table, attempt, batch))
    ensures forall r :: r in Insert(table, attempt, batch) <==> r in table || (r.attempt == attempt && r.event in batch)
    decreases batch
  {
    if batch != [] {
      var row := Row(attempt, batch[0]);
      var next := if row in table then table else table + [row];
      InsertStores(next, attempt, batch[1..]);
      forall r ensures r in Insert(table, attempt, batch) <==> r in table || (r.attempt == attempt && r.event in batch) {
        assert r.event in batch <==> r.event == batch[0] || r.event in batch[1..];
        assert r in next <==> r in table || r == row;
      }
    }
  }

  // ----- the client, the network and the server together -----

  datatype Fate = Stored(attempt: AttemptId) | Dropped | Discarded

  /** `enqueued` is every event the hook ever took, and `fates` what became of the first of them.
      `sent` is every request made, `delivered` which of them the server has carried out. */
  datatype World = World(hook: Hook, enqueued: seq<EventId>, fates: seq<Fate>,
                         sent: seq<Flight>, delivered: set<nat>, table: seq<Row>)

  datatype Event =
    | Enqueued(e: EventId)
    | TimerFired
    | Settled(outcome: Outcome)
    | Rendered(attempt: Option<AttemptId>, active: bool)
    | Delivered(request: nat)

  function Start(attempt: Option<AttemptId>, active: bool): World {
    World(Hook([], None, active, attempt), [], [], [], {}, [])
  }

  /** A request is delivered any number of times, also after the client gave up on it; it is
      acknowledged only if it was delivered. */
  predicate Enabled(w: World, e: Event) {
    match e
    case Enqueued(id) => id !in w.enqueued
    case Settled(outcome) => w.hook.flight.Some? && (outcome.Acknowledged? ==> |w.sent| > 0 && |w.sent| - 1 in w.delivered)
    case Delivered(i) => i < |w.sent|
    case _ => true
  }

  /** Notes a request that a step of the hook has just begun. */
  function Note(w: World, hook: Hook): World {
    w.(hook := hook,
       sent := if w.hook.flight.None? && hook.flight.Some? then w.sent + [hook.flight.value] else w.sent)
  }

  function Repeat(f: Fate, n: nat): (r: seq<Fate>)
    ensures |r| == n && forall i :: 0 <= i < n ==> r[i] == f
  {
    seq(n, _ => f)
  }

  function Gone(before: Hook, after: Hook): nat {
    if |before.buffer| >= |after.buffer| then |before.buffer| - |after.buffer| else 0
  }

  function FateOf(h: Hook, outcome: Outcome): Fate
    requires h.flight.Some?
  {
    match outcome
    case Acknowledged => Stored(h.flight.value.attempt)
    case Refused => Discarded
    case Failed => Dropped
  }

  function Next(w: World, e: Event, maxBufferSize: nat): World {
    match e
    case Enqueued(id) =>
      Note(w, Enqueue(w.hook, id, maxBufferSize)).(enqueued := if Accepts(w.hook) then w.enqueued + [id] else w.enqueued)
    case TimerFired => Note(w, BeginFlush(w.hook))
    case Settled(outcome) =>
      if w.hook.flight.None? then w else
      var hook := Settle(w.hook, outcome);
      w.(hook := hook, fates := w.fates + Repeat(FateOf(w.hook, outcome), Gone(w.hook, hook)))
    case Rendered(attempt, active) => w.(hook := w.hook.(attempt := attempt, active := active))
    case Delivered(i) =>
      if i >= |w.sent| then w else
      w.(delivered := w.delivered + {i}, table := Insert(w.table, w.sent[i].attempt, w.sent[i].batch))
  }

  // ----- what every reachable world keeps -----

  /** The events with a fate are the first ones enqueued, and the buffer holds the others in order. */
  ghost predicate Conserved(w: World) {
    && NoDuplicates(w.enqueued)
    && |w.fates| <= |w.enqueued|
    && w.hook.buffer == w.enqueued[|w.fates|..]
  }

  /** A request under way is the last one made, and sends a prefix of the buffer. */
  ghost predicate FlightFits(w: World) {
    w.hook.flight.Some? ==>
      && w.sent != [] && w.sent[|w.sent| - 1] == w.hook.flight.value
      && 0 < |w.hook.flight.value.batch| <= BATCH && w.hook.flight.value.batch <= w.hook.buffer
  }

  ghost predicate TableFits(w: World) {
    && NoDuplicates(w.table)
    && (forall i :: 0 <= i < |w.sent| ==> forall e :: e in w.sent[i].batch ==> e in w.enqueued)
    && (forall r :: r in w.table ==> r.event in w.enqueued)
    && (forall i :: i in w.delivered ==> i < |w.sent| && forall e :: e in w.sent[i].batch ==> Row(w.sent[i].attempt, e) in w.table)
    && |w.fates| <= |w.enqueued|
    && (forall i :: 0 <= i < |w.fates| && w.fates[i].Stored? ==> Row(w.fates[i].attempt, w.enqueued[i]) in w.table)
  }

  ghost predicate Fits(w: World) {
    Conserved(w) && FlightFits(w) && TableFits(w)
  }

  lemma BegunFits(w: World)
    requires Fits(w)
    ensures Fits(Note(w, BeginFlush(w.hook)))
  {
    var w' := Note(w, BeginFlush(w.hook));
    if w.hook.flight.None? && w'.hook.flight.Some? {
      forall e | e in w'.hook.flight.value.batch ensures e in w.enqueued {
        assert e in w.hook.buffer;
      }
    }
  }

  lemma PushedFits(w: World, id: EventId)
    requires Fits(w) && id !in w.enqueued
    ensures Fits(w.(hook := w.hook.(buffer := w.hook.buffer + [id]), enqueued := w.enqueued + [id]))
  {
    assert (w.enqueued + [id])[|w.fates|..] == w.enqueued[|w.fates|..] + [id];
  }

  lemma SettledConserved(w: World, outcome: Outcome)
    requires Fits(w) && w.hook.flight.Some?
    ensures Conserved(Next(w, Settled(outcome), 0))
    ensures outcome.Acknowledged? ==> Gone(w.hook, Settle(w.hook, outcome)) == |w.hook.flight.value.batch|
  {
    hide Unsent, NoDuplicates, TableFits, Repeat;
    var batch, buffer, n := w.hook.flight.value.batch, w.hook.buffer, |w.fates|;
    DistinctSuffix(w.enqueued, n);
    if outcome.Acknowledged? {
      assert buffer[..|batch|] == batch;
      RemovalDropsPrefix(buffer, |batch|);
      assert w.enqueued[n + |batch|..] == buffer[|batch|..];
    } else if outcome.Failed? && |buffer| > MAX_BUFFER_CAP {
      assert w.enqueued[n + (|buffer| - MAX_BUFFER_CAP)..] == buffer[|buffer| - MAX_BUFFER_CAP..];
    }
  }

  lemma DistinctSuffix(s: seq<EventId>, n: nat)
    requires NoDuplicates(s) && n <= |s|
    ensures NoDuplicates(s[n..])
  {}

  lemma SettledStored(w: World, outcome: Outcome)
    requires Fits(w) && Enabled(w, Settled(outcome))
    ensures TableFits(Next(w, Settled(outcome), 0))
  {
    SettledConserved(w, outcome);
    var w' := Next(w, Settled(outcome), 0);
    var flight, n := w.hook.flight.value, |w.fates|;
    forall i | 0 <= i < |w'.fates| && w'.fates[i].Stored? ensures Row(w'.fates[i].attempt, w'.enqueued[i]) in w'.table {
      if i >= n {
        assert outcome.Acknowledged?;
        assert w.enqueued[i] == w.hook.buffer[i - n] == flight.batch[i - n];
        assert w.enqueued[i] in flight.batch;
      }
    }
  }

  lemma DeliveredFits(w: World, i: nat)
    requires Fits(w) && i < |w.sent|
    ensures Fits(Next(w, Delivered(i), 0))
  {
    InsertStores(w.table, w.sent[i].attempt, w.sent[i].batch);
  }

  lemma FitsNext(w: World, e: Event, maxBufferSize: nat)
    requires Fits(w) && Enabled(w, e)
    ensures Fits(Next(w, e, maxBufferSize))
  {
    match e
    case Enqueued(id) =>
      if Accepts(w.hook) {
        PushedFits(w, id);
        BegunFits(w.(hook := w.hook.(buffer := w.hook.buffer + [id]), enqueued := w.enqueued + [id]));
      }
    case TimerFired => BegunFits(w);
    case Settled(outcome) =>
      SettledConserved(w, outcome);
      SettledStored(w, outcome);
    case Rendered(attempt, active) =>
    case Delivered(i) => DeliveredFits(w, i);
  }

  // ----- runs -----

  function Run(start: World, es: seq<Event>, maxBufferSize: nat): World
    decreases es
  {
    if es == [] then start else Next(Run(start, es[..|es| - 1], maxBufferSize), es[|es| - 1], maxBufferSize)
  }

  predicate Possible(start: World, es: seq<Event>, maxBufferSize: nat)
    decreases es
  {
    es == [] ||
    (Possible(start, es[..|es| - 1], maxBufferSize) && Enabled(Run(start, es[..|es| - 1], maxBufferSize), es[|es| - 1]))
  }

  lemma {:induction false} RunFits(attempt: Option<AttemptId>, active: bool, es: seq<Event>, maxBufferSize: nat)
    requires Possible(Start(attempt, active), es, maxBufferSize)
    ensures Fits(Run(Start(attempt, active), es, maxBufferSize))
    decreases es
  {
    if es != [] {
      RunFits(attempt, active, es[..|es| - 1], maxBufferSize);
      FitsNext(Run(Start(attempt, active), es[..|es| - 1], maxBufferSize), es[|es| - 1], maxBufferSize);
    }
  }

  function Copies(table: seq<Row>, r: Row): nat {
    if table == [] then 0 else (if table[0] == r then 1 else 0) + Copies(table[1..], r)
  }

  lemma {:induction false} CopiesOfUnique(table: seq<Row>, r: Row)
    requires NoDuplicates(table)
    ensures Copies(table, r) == if r in table then 1 else 0
  {
    if table != [] {
      CopiesOfUnique(table[1..], r);
      assert r in table <==> r == table[0] || r in table[1..];
    }
  }

  /** In every run, with requests lost, delayed and repeated: the events enqueued are those with a
      fate, followed by the buffer, in order and none twice; and each event whose fate is to be stored
      has exactly one row. */
  lemma EveryEventAccounted(attempt: Option<AttemptId>, active: bool, es: seq<Event>, maxBufferSize: nat)
    requires Possible(Start(attempt, active), es, maxBufferSize)
    ensures var w := Run(Start(attempt, active), es, maxBufferSize);
            && |w.fates| <= |w.enqueued| && w.enqueued == w.enqueued[..|w.fates|] + w.hook.buffer && NoDuplicates(w.enqueued)
            && (forall i :: 0 <= i < |w.fates| && w.fates[i].Stored? ==>
                  Copies(w.table, Row(w.fates[i].attempt, w.enqueued[i])) == 1)
            && (forall r :: r in w.table ==> r.event in w.enqueued && Copies(w.table, r) == 1)
  {
    hide Copies;
    RunFits(attempt, active, es, maxBufferSize);
    var w := Run(Start(attempt, active), es, maxBufferSize);
    forall r ensures Copies(w.table, r) == if r in w.table then 1 else 0 {
      CopiesOfUnique(w.table, r);
    }
  }

  /** An event is dropped only when a flush fails with more than the cap in the buffer; then the
      oldest go and exactly the cap remains. It is discarded only when the server refuses for good,
      and then the buffer is empty. */
  lemma LossOnlyOnFailure(w: World, e: Event, maxBufferSize: nat)
    requires Fits(w) && Enabled(w, e)
    ensures var w' := Next(w, e, maxBufferSize);
            var lost := |w'.fates| - |w.fates|;
            && lost >= 0 && w'.fates[..|w.fates|] == w.fates
            && (lost > 0 && w'.fates[|w.fates|].Dropped? <==> e == Settled(Failed) && |w.hook.buffer| > MAX_BUFFER_CAP)
            && (lost > 0 && w'.fates[|w.fates|].Dropped? ==>
                  |w'.hook.buffer| == MAX_BUFFER_CAP && lost == |w.hook.buffer| - MAX_BUFFER_CAP)
            && (lost > 0 && w'.fates[|w.fates|].Discarded? ==> e == Settled(Refused) && w'.hook.buffer == [])
            && (e == Settled(Failed) ==> |w'.hook.buffer| <= MAX_BUFFER_CAP && w'.hook.active == w.hook.active)
            && (e == Settled(Refused) ==> !w'.hook.active && w'.hook.buffer == [])
            && (e.Settled? ==> w'.hook.flight == None)
  {
    if e.Settled? {
      SettledConserved(w, e.outcome);
    }
  }

  // ----- requests are made -----

  /** The buffer that a flush in this step would see. */
  function Pending(w: World, e: Event): seq<EventId> {
    if e.Enqueued? && w.hook.active && w.hook.attempt.Some? then w.hook.buffer + [e.e] else w.hook.buffer
  }

  /** The step asks for a flush: the timer fires, or an event fills the batch. */
  predicate Asks(w: World, e: Event, maxBufferSize: nat) {
    e.TimerFired? || (e.Enqueued? && w.hook.active && w.hook.attempt.Some? && |w.hook.buffer| + 1 >= maxBufferSize)
  }

  /** A request is made exactly in a step that asks for one while none is under way, the hook is active
      for an attempt and something is buffered; it carries the first fifty buffered events, or all, in
      the name of that attempt, and takes none of them out of the buffer. */
  lemma RequestMadeExactly(w: World, e: Event, maxBufferSize: nat)
    requires Fits(w) && Enabled(w, e)
    ensures var w', pending := Next(w, e, maxBufferSize), Pending(w, e);
            && (w'.sent != w.sent <==>
                  Asks(w, e, maxBufferSize) && w.hook.flight.None? && w.hook.active && w.hook.attempt.Some? && pending != [])
            && (w'.sent != w.sent ==>
                  && |w'.sent| == |w.sent| + 1 && w'.sent[..|w.sent|] == w.sent
                  && var request := w'.sent[|w.sent|];
                     && w'.hook.flight == Some(request) && w.hook.attempt == Some(request.attempt)
                     && |request.batch| == (if |pending| < BATCH then |pending| else BATCH) && request.batch <= pending)
            && (!e.Settled? ==> w'.hook.buffer == pending)
  {}

  /** Rounds in which a request is made, carried out and acknowledged; `sent` requests came before. */
  function Rounds(sent: nat, k: nat): seq<Event> {
    if k == 0 then [] else Rounds(sent, k - 1) + [TimerFired, Delivered(sent + k - 1), Settled(Acknowledged)]
  }

  function AtMost(n: nat, bound: nat): nat {
    if n < bound then n else bound
  }

  /** Ready to send for attempt `a`. */
  ghost predicate Ready(w: World, a: AttemptId) {
    Fits(w) && w.hook.active && w.hook.attempt == Some(a) && w.hook.flight.None?
  }

  /** In `w'` the first `n` events that wait in `w` are stored for attempt `a`, by `k` requests, and the
      others wait. */
  ghost predicate FirstStored(w: World, w': World, a: AttemptId, n: nat, k: nat)
    requires n <= |w.hook.buffer|
  {
    && Ready(w', a) && w'.enqueued == w.enqueued && |w'.sent| == |w.sent| + k
    && w'.hook.buffer == w.hook.buffer[n..]
    && w'.fates == w.fates + Repeat(Stored(a), n)
  }

  lemma NoneStored(w: World, a: AttemptId)
    requires Ready(w, a)
    ensures FirstStored(w, w, a, 0, 0)
  {}

  lemma MoreStored(w: World, w': World, w'': World, a: AttemptId, n: nat, m: nat, k: nat)
    requires n <= |w.hook.buffer| && FirstStored(w, w', a, n, k)
    requires m <= |w'.hook.buffer| && FirstStored(w', w'', a, m, 1)
    ensures n + m <= |w.hook.buffer| && FirstStored(w, w'', a, n + m, k + 1)
  {
    hide Ready;
    assert Repeat(Stored(a), n) + Repeat(Stored(a), m) == Repeat(Stored(a), n + m);
  }

  lemma OneRound(w: World, a: AttemptId, maxBufferSize: nat)
    requires Ready(w, a) && w.hook.buffer != []
    ensures var w1 := Next(w, TimerFired, maxBufferSize);
            var w2 := Next(w1, Delivered(|w.sent|), maxBufferSize);
            && Enabled(w, TimerFired) && Enabled(w1, Delivered(|w.sent|)) && Enabled(w2, Settled(Acknowledged))
            && FirstStored(w, Next(w2, Settled(Acknowledged), maxBufferSize), a, AtMost(|w.hook.buffer|, BATCH), 1)
  {
    hide Fits, Unsent, Insert;
    var w1 := Next(w, TimerFired, maxBufferSize);
    var w2 := Next(w1, Delivered(|w.sent|), maxBufferSize);
    FitsNext(w, TimerFired, maxBufferSize);
    FitsNext(w1, Delivered(|w.sent|), maxBufferSize);
    FitsNext(w2, Settled(Acknowledged), maxBufferSize);
    BatchAcknowledged(w2);
  }

  lemma BatchAcknowledged(w: World)
    requires Fits(w) && w.hook.flight.Some?
    ensures var n := |w.hook.flight.value.batch|;
            n <= |w.hook.buffer| && Unsent(w.hook.buffer, w.hook.flight.value.batch) == w.hook.buffer[n..]
  {
    hide Unsent;
    DistinctSuffix(w.enqueued, |w.fates|);
    RemovalDropsPrefix(w.hook.buffer, |w.hook.flight.value.batch|);
    assert w.hook.buffer[..|w.hook.flight.value.batch|] == w.hook.flight.value.batch;
  }

  lemma RunStep(w: World, es: seq<Event>, e: Event, maxBufferSize: nat)
    ensures Run(w, es + [e], maxBufferSize) == Next(Run(w, es, maxBufferSize), e, maxBufferSize)
    ensures Possible(w, es + [e], maxBufferSize) == (Possible(w, es, maxBufferSize) && Enabled(Run(w, es, maxBufferSize), e))
  {
    hide Next, Enabled;
    assert (es + [e])[..|es + [e]| - 1] == es;
  }

  lemma RunRound(w: World, es: seq<Event>, e: Event, f: Event, g: Event, maxBufferSize: nat)
    ensures var w1 := Next(Run(w, es, maxBufferSize), e, maxBufferSize);
            var w2 := Next(w1, f, maxBufferSize);
            && Run(w, es + [e, f, g], maxBufferSize) == Next(w2, g, maxBufferSize)
            && (Possible(w, es, maxBufferSize) && Enabled(Run(w, es, maxBufferSize), e) && Enabled(w1, f) && Enabled(w2, g)
                ==> Possible(w, es + [e, f, g], maxBufferSize))
  {
    hide Next, Enabled, Run, Possible;
    RunStep(w, es, e, maxBufferSize);
    RunStep(w, es + [e], f, maxBufferSize);
    RunStep(w, es + [e] + [f], g, maxBufferSize);
    assert es + [e] + [f] + [g] == es + [e, f, g];
  }

  lemma RoundStores(w: World, es: seq<Event>, a: AttemptId, k: nat, maxBufferSize: nat)
    requires BATCH * k < |w.hook.buffer| && Possible(w, es, maxBufferSize)
    requires FirstStored(w, Run(w, es, maxBufferSize), a, BATCH * k, k)
    ensures var fs := es + [TimerFired, Delivered(|w.sent| + k), Settled(Acknowledged)];
            && Possible(w, fs, maxBufferSize)
            && FirstStored(w, Run(w, fs, maxBufferSize), a, AtMost(BATCH * k + BATCH, |w.hook.buffer|), k + 1)
  {
    hide Next, Enabled, Run, Possible, Ready, Repeat;
    var before := Run(w, es, maxBufferSize);
    OneRound(before, a, maxBufferSize);
    RunRound(w, es, TimerFired, Delivered(|w.sent| + k), Settled(Acknowledged), maxBufferSize);
    hide FirstStored;
    MoreStored(w, before, Run(w, es + [TimerFired, Delivered(|w.sent| + k), Settled(Acknowledged)], maxBufferSize), a, BATCH * k,
               AtMost(|before.hook.buffer|, BATCH), k);
  }

  /** After `k` such rounds, while there was still something to send in each: the first `50 * k` events
      are stored, in order, and the others wait. */
  lemma {:induction false} RoundsStore(w: World, a: AttemptId, k: nat, maxBufferSize: nat)
    requires Ready(w, a) && (k > 0 ==> BATCH * (k - 1) < |w.hook.buffer|)
    ensures Possible(w, Rounds(|w.sent|, k), maxBufferSize)
    ensures FirstStored(w, Run(w, Rounds(|w.sent|, k), maxBufferSize), a, AtMost(BATCH * k, |w.hook.buffer|), k)
  {
    hide Next, Enabled, Ready, Repeat, FirstStored;
    if k == 0 {
      NoneStored(w, a);
    } else {
      hide Run, Possible;
      RoundsStore(w, a, k - 1, maxBufferSize);
      RoundStores(w, Rounds(|w.sent|, k - 1), a, k - 1, maxBufferSize);
    }
  }

  /** The rounds that `n` buffered events take. */
  function Needed(n: nat): nat {
    (n + BATCH - 1) / BATCH
  }

  /** With nothing but deliveries and acknowledgements every buffered event is stored, once, after a
      request for every fifty of them, and not all of them sooner. */
  lemma AllStoredExactly(w: World, a: AttemptId, k: nat, maxBufferSize: nat)
    requires Ready(w, a) && k <= Needed(|w.hook.buffer|)
    ensures Possible(w, Rounds(|w.sent|, k), maxBufferSize)
    ensures var w' := Run(w, Rounds(|w.sent|, k), maxBufferSize);
            && (w'.hook.buffer == [] <==> k == Needed(|w.hook.buffer|))
            && (w'.hook.buffer == [] ==> forall e :: e in w.hook.buffer ==> Copies(w'.table, Row(a, e)) == 1)
  {
    RoundsStore(w, a, k, maxBufferSize);
    var w' := Run(w, Rounds(|w.sent|, k), maxBufferSize);
    if w'.hook.buffer == [] {
      forall e | e in w.hook.buffer ensures Copies(w'.table, Row(a, e)) == 1 {
        var i :| 0 <= i < |w.hook.buffer| && w.hook.buffer[i] == e;
        assert w'.enqueued[|w.fates| + i] == e && w'.fates[|w.fates| + i] == Stored(a);
        CopiesOfUnique(w'.table, Row(a, e));
      }
    }
  }
}
