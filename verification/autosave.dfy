/** The browser's autosave hook against the answer store. The hook reads the server's revision from a
    field that the server's replies do not have; `carries` says whether it gets one. */
module Autosave {
  import opened Wrappers
  import opened AttemptStates
  import opened AnswerStore

  /** What the page shows for a question; the revision is undefined where a reply had none. */
  datatype Local = Local(value: Payload, revision: Option<nat>)

  datatype Edit = Edit(value: Payload, expected: nat)

  /** `stored` is the copy of the dirty queue in the browser's storage. */
  datatype Hook = Hook(answers: map<QuestionId, Local>, dirty: map<QuestionId, Edit>, timers: map<QuestionId, Edit>,
                       stored: map<QuestionId, Edit>)

  /** How a save ends: acknowledged, with what the hook reads as the revision; refused because the
      attempt is over; refused as stale, with the server's answers if they could be fetched; or lost. */
  datatype SaveOutcome =
    | Acknowledged(revision: Option<nat>)
    | Over
    | Stale(server: Option<map<QuestionId, Local>>)
    | Lost

  datatype FlushOutcome = FlushAcknowledged | FlushOver | FlushFailed

  function Blank(): Hook {
    Hook(map[], map[], map[], map[])
  }

  function CurrentRevision(h: Hook, q: QuestionId): nat {
    if q in h.answers && h.answers[q].revision.Some? then h.answers[q].revision.value else 0
  }

  function SetAnswer(h: Hook, q: QuestionId, value: Payload): (r: Hook)
    ensures q in r.timers
  {
    var edit := Edit(value, CurrentRevision(h, q));
    var dirty := h.dirty[q := edit];
    Hook(h.answers[q := Local(value, Some(edit.expected))], dirty, h.timers[q := edit], dirty)
  }

  function FireTimer(h: Hook, q: QuestionId): Hook {
    h.(timers := h.timers - {q})
  }

  function SettleSave(h: Hook, q: QuestionId, value: Payload, outcome: SaveOutcome): Hook {
    var dirty := h.dirty - {q};
    match outcome
    case Acknowledged(revision) => h.(answers := h.answers[q := Local(value, revision)], dirty := dirty, stored := dirty)
    case Over => h.(dirty := dirty, stored := dirty)
    case Stale(server) => if server.Some? then h.(answers := server.value, dirty := dirty, stored := dirty) else h
    case Lost => h
  }

  function SettleFlush(h: Hook, outcome: FlushOutcome): Hook {
    if outcome.FlushFailed? then h else h.(dirty := map[], stored := map[])
  }

  function RecoverOne(h: Hook, q: QuestionId, edit: Edit): Hook {
    h.(dirty := h.dirty[q := edit],
       answers := h.answers[q := Local(edit.value, Some(if edit.expected == 0 then 1 else edit.expected))])
  }

  function Recover(h: Hook, entries: seq<(QuestionId, Edit)>): Hook {
    if entries == [] then h
    else RecoverOne(Recover(h, entries[..|entries| - 1]), entries[|entries| - 1].0, entries[|entries| - 1].1)
  }

  // ----- reloading the page -----

  datatype Step =
    | Typed(q: QuestionId, value: Payload)
    | TimerFired(q: QuestionId)
    | SaveSettled(q: QuestionId, value: Payload, outcome: SaveOutcome)
    | FlushSettled(flush: FlushOutcome)

  function Next(h: Hook, s: Step): Hook {
    match s
    case Typed(q, value) => SetAnswer(h, q, value)
    case TimerFired(q) => FireTimer(h, q)
    case SaveSettled(q, value, outcome) => SettleSave(h, q, value, outcome)
    case FlushSettled(outcome) => SettleFlush(h, outcome)
  }

  function Steps(h: Hook, ss: seq<Step>): Hook
    decreases ss
  {
    if ss == [] then h else Next(Steps(h, ss[..|ss| - 1]), ss[|ss| - 1])
  }

  lemma {:induction false} StorageFollows(h: Hook, ss: seq<Step>)
    requires h.stored == h.dirty
    ensures Steps(h, ss).stored == Steps(h, ss).dirty
    decreases ss
  {
    if ss != [] {
      StorageFollows(h, ss[..|ss| - 1]);
    }
  }

  /** The step settles question `q`: its own save is acknowledged, or refused because the attempt is over,
      or as stale with the server's answers at hand; or a flush is acknowledged or refused for good. */
  predicate Settles(s: Step, q: QuestionId) {
    (s.SaveSettled? && s.q == q && (s.outcome.Acknowledged? || s.outcome.Over? || (s.outcome.Stale? && s.outcome.server.Some?)))
    || (s.FlushSettled? && !s.flush.FlushFailed?)
  }

  /** An unsaved edit leaves the queue exactly when the step settles it, and it changes exactly when its
      own question is typed again: a failure keeps it. */
  lemma EditKeptExactly(h: Hook, s: Step, q: QuestionId)
    ensures q in h.dirty ==> (q !in Next(h, s).dirty <==> Settles(s, q))
    ensures q !in h.dirty ==> (q in Next(h, s).dirty <==> s.Typed? && s.q == q)
    ensures q in Next(h, s).dirty ==>
              Next(h, s).dirty[q] == if s.Typed? && s.q == q then Edit(s.value, CurrentRevision(h, q)) else h.dirty[q]
    ensures q in Next(h, s).timers <==> (if s.Typed? && s.q == q then true else q in h.timers && s != TimerFired(q))
  {}

  /** What was typed for a question and not settled since, if anything. */
  function Unsettled(ss: seq<Step>, q: QuestionId): Option<Payload> {
    if ss == [] then None else
    var last := ss[|ss| - 1];
    if last.Typed? && last.q == q then Some(last.value)
    else if Settles(last, q) then None
    else Unsettled(ss[..|ss| - 1], q)
  }

  /** Over any course of events the queue holds, for each question, the last value typed unless that was
      settled since: nothing typed is lost to a failure. */
  lemma {:induction false} QueueIsUnsettled(ss: seq<Step>, q: QuestionId)
    ensures var h := Steps(Blank(), ss);
            (q in h.dirty <==> Unsettled(ss, q).Some?) && (q in h.dirty ==> Unsettled(ss, q) == Some(h.dirty[q].value))
    decreases ss
  {
    if ss != [] {
      hide Next, Settles, CurrentRevision;
      QueueIsUnsettled(ss[..|ss| - 1], q);
      EditKeptExactly(Steps(Blank(), ss[..|ss| - 1]), ss[|ss| - 1], q);
    }
  }

  /** What the page shows for a question after a course of events: the last value typed, at the revision
      known before, or acknowledged, at the acknowledged one; a conflict shows the server's answers. */
  function Displayed(ss: seq<Step>, q: QuestionId): Option<Local> {
    if ss == [] then None else
    var before := Displayed(ss[..|ss| - 1], q);
    match ss[|ss| - 1]
    case Typed(x, value) =>
      if x != q then before
      else Some(Local(value, Some(if before.Some? && before.value.revision.Some? then before.value.revision.value else 0)))
    case SaveSettled(x, value, Acknowledged(revision)) => if x == q then Some(Local(value, revision)) else before
    case SaveSettled(_, _, Stale(Some(server))) => if q in server then Some(server[q]) else None
    case _ => before
  }

  lemma {:induction false} PageShows(ss: seq<Step>, q: QuestionId)
    ensures var h := Steps(Blank(), ss);
            (q in h.answers <==> Displayed(ss, q).Some?) && (q in h.answers ==> Displayed(ss, q) == Some(h.answers[q]))
    decreases ss
  {
    if ss != [] {
      PageShows(ss[..|ss| - 1], q);
    }
  }

  ghost predicate Lists(entries: seq<(QuestionId, Edit)>, q: QuestionId) {
    exists i :: 0 <= i < |entries| && entries[i].0 == q
  }

  /** A list of all entries of a queue. */
  ghost predicate Enumerates(entries: seq<(QuestionId, Edit)>, queue: map<QuestionId, Edit>) {
    && (forall i :: 0 <= i < |entries| ==> entries[i].0 in queue && queue[entries[i].0] == entries[i].1)
    && (forall q :: q in queue ==> Lists(entries, q))
  }

  lemma {:induction false} RecoveredKeys(h: Hook, entries: seq<(QuestionId, Edit)>, queue: map<QuestionId, Edit>, q: QuestionId)
    requires forall i :: 0 <= i < |entries| ==> entries[i].0 in queue && queue[entries[i].0] == entries[i].1
    ensures q in Recover(h, entries).dirty <==> q in h.dirty || Lists(entries, q)
    ensures q in Recover(h, entries).dirty ==> Recover(h, entries).dirty[q] == if Lists(entries, q) then queue[q] else h.dirty[q]
  {
    if entries != [] {
      var front, n := entries[..|entries| - 1], |entries| - 1;
      RecoveredKeys(h, front, queue, q);
      if Lists(entries, q) && entries[n].0 != q {
        var i :| 0 <= i < |entries| && entries[i].0 == q;
        assert front[i].0 == q;
      }
      if Lists(front, q) {
        var i :| 0 <= i < |front| && front[i].0 == q;
        assert entries[i].0 == q;
      }
    }
  }

  lemma ListedIn(entries: seq<(QuestionId, Edit)>, queue: map<QuestionId, Edit>, q: QuestionId)
    requires Enumerates(entries, queue)
    ensures Lists(entries, q) <==> q in queue
  {
    if Lists(entries, q) {
      var i :| 0 <= i < |entries| && entries[i].0 == q;
    }
  }

  /** A page with the given storage, after the recovery at its start. */
  function Opened(stored: map<QuestionId, Edit>, entries: seq<(QuestionId, Edit)>): Hook {
    Recover(Blank().(stored := stored), entries)
  }

  lemma {:induction false} RecoverKeepsStorage(h: Hook, entries: seq<(QuestionId, Edit)>)
    ensures Recover(h, entries).stored == h.stored
  {
    if entries != [] {
      RecoverKeepsStorage(h, entries[..|entries| - 1]);
    }
  }

  /** Recovery restores the stored queue, all of it and nothing else. */
  lemma OpenedRestores(stored: map<QuestionId, Edit>, entries: seq<(QuestionId, Edit)>)
    requires Enumerates(entries, stored)
    ensures Opened(stored, entries).dirty == stored && Opened(stored, entries).stored == stored
  {
    var h := Blank().(stored := stored);
    RecoverKeepsStorage(h, entries);
    hide Recover, Lists;
    forall q ensures q in Recover(h, entries).dirty <==> q in stored
             ensures q in stored ==> Recover(h, entries).dirty[q] == stored[q] {
      RecoveredKeys(h, entries, stored, q);
      ListedIn(entries, stored, q);
    }
  }

  /** One life of the page: what it recovers from storage and what happens until it is closed. */
  datatype Life = Life(entries: seq<(QuestionId, Edit)>, steps: seq<Step>)

  /** The page after some lives, the first on an empty storage. */
  function Lived(lives: seq<Life>): Hook
    decreases lives
  {
    if lives == [] then Blank() else
    var last := lives[|lives| - 1];
    Steps(Opened(Lived(lives[..|lives| - 1]).stored, last.entries), last.steps)
  }

  ghost predicate Reads(lives: seq<Life>)
    decreases lives
  {
    lives == [] ||
    (Reads(lives[..|lives| - 1]) && Enumerates(lives[|lives| - 1].entries, Lived(lives[..|lives| - 1]).stored))
  }

  lemma {:induction false} LivedInStep(lives: seq<Life>)
    requires Reads(lives)
    ensures Lived(lives).stored == Lived(lives).dirty
    decreases lives
  {
    if lives != [] {
      var last, stored := lives[|lives| - 1], Lived(lives[..|lives| - 1]).stored;
      LivedInStep(lives[..|lives| - 1]);
      OpenedRestores(stored, last.entries);
      StorageFollows(Opened(stored, last.entries), last.steps);
    }
  }

  /** A page that is reloaded at any moment, and any number of times, has the same unsaved answers as
      before. */
  lemma ReloadKeepsQueue(lives: seq<Life>, entries: seq<(QuestionId, Edit)>)
    requires Reads(lives) && Enumerates(entries, Lived(lives).stored)
    ensures Opened(Lived(lives).stored, entries).dirty == Lived(lives).dirty
  {
    LivedInStep(lives);
    OpenedRestores(Lived(lives).stored, entries);
  }

  // ----- one writer who waits for each answer -----

  /** What the hook reads from a reply that carries row `row`. */
  function Seen(row: Row, carries: bool): Option<nat> {
    if carries then Some(row.revision) else None
  }

  function ServerAnswers(rows: Rows, carries: bool): map<QuestionId, Local> {
    map q | q in rows :: Local(rows[q].value, Seen(rows[q], carries))
  }

  datatype Typing = Typing(value: Payload, now: int)

  datatype Round = Round(hook: Hook, attempt: Attempt, accepted: bool)

  /** A value is typed, the timer fires, the server decides, and the hook takes the reply. */
  function OneRound(h: Hook, a: Attempt, q: QuestionId, t: Typing, carries: bool, valid: Validity): Round {
    var typed := SetAnswer(h, q, t.value);
    var (edit, sent) := (typed.timers[q], FireTimer(typed, q));
    var effect := Save(a, t.now, q, edit.value, edit.expected, valid);
    var outcome := match effect.result
      case Ok(row) => Acknowledged(Seen(row, carries))
      case Err(StaleRevision) => Stale(Some(ServerAnswers(effect.attempt.rows, carries)))
      case Err(_) => Over;
    Round(SettleSave(sent, q, t.value, outcome), effect.attempt, effect.result.Ok?)
  }

  function Rounds(h: Hook, a: Attempt, q: QuestionId, ts: seq<Typing>, carries: bool, valid: Validity): Round
    decreases ts
  {
    if ts == [] then Round(h, a, true) else
    var before := Rounds(h, a, q, ts[..|ts| - 1], carries, valid);
    var last := OneRound(before.hook, before.attempt, q, ts[|ts| - 1], carries, valid);
    last.(accepted := before.accepted && last.accepted)
  }

  /** Every value suits the question and is typed before the deadline of an active attempt. */
  predicate Writable(a: Attempt, q: QuestionId, ts: seq<Typing>, valid: Validity) {
    && a.status == ACTIVE && q in a.questions
    && forall i :: 0 <= i < |ts| ==> valid(q, ts[i].value) && ts[i].now < a.expiresAt
  }

  lemma {:induction false} CarriedRevisions(h: Hook, a: Attempt, q: QuestionId, ts: seq<Typing>, valid: Validity)
    requires Writable(a, q, ts, valid) && q !in a.rows && q !in h.answers
    ensures var r := Rounds(h, a, q, ts, true, valid);
            && r.accepted && r.attempt == a.(rows := r.attempt.rows)
            && CurrentRevision(r.hook, q) == |ts|
            && (if ts == [] then q !in r.attempt.rows
                else q in r.attempt.rows && r.attempt.rows[q] == Row(|ts|, ts[|ts| - 1].value))
    decreases ts
  {
    if ts != [] {
      CarriedRevisions(h, a, q, ts[..|ts| - 1], valid);
    }
  }

  predicate AllAlike(ts: seq<Typing>) {
    forall i :: 0 < i < |ts| ==> PayloadEqual(ts[0].value, ts[i].value)
  }

  lemma UncarriedRound(h: Hook, a: Attempt, q: QuestionId, first: Payload, t: Typing, valid: Validity)
    requires Writable(a, q, [t], valid) && CurrentRevision(h, q) == 0
    requires q in a.rows && a.rows[q] == Row(1, first)
    ensures var r := OneRound(h, a, q, t, false, valid);
            r.attempt == a && CurrentRevision(r.hook, q) == 0 && (r.accepted <==> PayloadEqual(first, t.value))
  {
    assert [t][0] == t;
  }

  lemma UncarriedStart(h: Hook, a: Attempt, q: QuestionId, t: Typing, valid: Validity)
    requires Writable(a, q, [t], valid) && CurrentRevision(h, q) == 0 && q !in a.rows
    ensures var r := OneRound(h, a, q, t, false, valid);
            r.attempt == a.(rows := a.rows[q := Row(1, t.value)]) && CurrentRevision(r.hook, q) == 0 && r.accepted
  {
    assert [t][0] == t;
  }

  lemma {:induction false} UncarriedRevisions(h: Hook, a: Attempt, q: QuestionId, ts: seq<Typing>, valid: Validity)
    requires Writable(a, q, ts, valid) && q !in a.rows && q !in h.answers
    ensures var r := Rounds(h, a, q, ts, false, valid);
            && r.attempt == a.(rows := r.attempt.rows)
            && CurrentRevision(r.hook, q) == 0
            && (r.accepted <==> AllAlike(ts))
            && (if ts == [] then q !in r.attempt.rows
                else q in r.attempt.rows && r.attempt.rows[q] == Row(1, ts[0].value))
    decreases ts
  {
    hide OneRound, PayloadEqual;
    if ts != [] {
      var front, last := ts[..|ts| - 1], ts[|ts| - 1];
      UncarriedRevisions(h, a, q, front, valid);
      var before := Rounds(h, a, q, front, false, valid);
      assert Writable(before.attempt, q, [last], valid);
      if front == [] {
        UncarriedStart(before.hook, before.attempt, q, last, valid);
      } else {
        UncarriedRound(before.hook, before.attempt, q, ts[0].value, last, valid);
        assert AllAlike(ts) <==> AllAlike(front) && PayloadEqual(ts[0].value, last.value) by {
          assert forall i :: 0 <= i < |front| ==> front[i] == ts[i];
        }
      }
    }
  }

  /** A sole writer who waits for every acknowledgement never conflicts exactly when the replies carry
      the revision under the name the hook reads, or every value typed is the same answer as the
      first. Without the revision the first value stays. */
  lemma SoleWriterExactly(h: Hook, a: Attempt, q: QuestionId, ts: seq<Typing>, carries: bool, valid: Validity)
    requires Writable(a, q, ts, valid) && q !in a.rows && q !in h.answers && ts != []
    ensures var r := Rounds(h, a, q, ts, carries, valid);
            && (r.accepted <==> carries || AllAlike(ts))
            && q in r.attempt.rows
            && r.attempt.rows[q] == (if carries then Row(|ts|, ts[|ts| - 1].value) else Row(1, ts[0].value))
  {
    if carries {
      CarriedRevisions(h, a, q, ts, valid);
    } else {
      UncarriedRevisions(h, a, q, ts, valid);
    }
  }

  /** A flush leaves the local revision as it was, so the next value typed is accepted exactly if it is
      the same answer again, whatever the replies carry. */
  lemma FlushLeavesRevisionBehind(h: Hook, a: Attempt, q: QuestionId, sent: Payload, t: Typing, carries: bool, valid: Validity)
    requires Writable(a, q, [t], valid) && valid(q, sent)
    requires CurrentRevision(h, q) == RevisionOf(a.rows, q)
    ensures var edited := SetAnswer(h, q, sent);
            var flushed := BatchSave(a, t.now, [Item(q, sent, edited.dirty[q].expected)], valid);
            && flushed.result.Ok?
            && (OneRound(SettleFlush(edited, FlushAcknowledged), flushed.attempt, q, t, carries, valid).accepted
                <==> PayloadEqual(sent, t.value))
  {
    var expected := CurrentRevision(h, q);
    assert [t][0] == t;
    OneItem(a.rows, Item(q, sent, expected), valid);
  }

  lemma OneItem(rows: Rows, item: Item, valid: Validity)
    requires valid(item.q, item.value)
    ensures SaveItems(rows, [item], valid, BATCH_FIRSTS) == SaveRow(rows, item.q, item.value, item.expected, BATCH_FIRSTS)
  {
    assert [item][..0] == [];
    assert SaveItems(rows, [], valid, BATCH_FIRSTS) == Ok(rows);
  }

  // ----- after a reload with the server's answers -----

  /** The hook on answers that the server listed; a missing revision counts as one. */
  function Loaded(rows: Rows, carries: bool): Hook {
    Blank().(answers := map q | q in rows ::
      Local(rows[q].value, Some(if carries && rows[q].revision != 0 then rows[q].revision else 1)))
  }

  /** The first value typed after a reload is accepted exactly when the list carried the revision, or
      the stored revision is one, or it is two and the same answer is typed again. */
  lemma ReloadedEditExactly(a: Attempt, q: QuestionId, t: Typing, carries: bool, valid: Validity)
    requires Writable(a, q, [t], valid) && q in a.rows && a.rows[q].revision >= 1
    ensures OneRound(Loaded(a.rows, carries), a, q, t, carries, valid).accepted
            <==> carries || a.rows[q].revision == 1 || (a.rows[q].revision == 2 && PayloadEqual(a.rows[q].value, t.value))
  {
    assert [t][0] == t;
  }

  /** What a reloaded page shows: every stored edit, and nothing else; at the revision the edit named,
      but one in place of zero. */
  lemma RecoveredExactly(stored: map<QuestionId, Edit>, entries: seq<(QuestionId, Edit)>, q: QuestionId)
    requires Enumerates(entries, stored)
    ensures var h := Opened(stored, entries);
            && (q in h.answers <==> q in stored)
            && (q in stored ==>
                  h.answers[q] == Local(stored[q].value, Some(if stored[q].expected == 0 then 1 else stored[q].expected)))
  {
    RecoveredAnswer(Blank().(stored := stored), entries, stored, q);
    ListedIn(entries, stored, q);
  }

  lemma {:induction false} RecoveredAnswer(h: Hook, entries: seq<(QuestionId, Edit)>, queue: map<QuestionId, Edit>, q: QuestionId)
    requires forall i :: 0 <= i < |entries| ==> entries[i].0 in queue && queue[entries[i].0] == entries[i].1
    ensures var m := Recover(h, entries).answers;
            if Lists(entries, q) then
              q in queue && q in m
              && m[q] == Local(queue[q].value, Some(if queue[q].expected == 0 then 1 else queue[q].expected))
            else (q in m <==> q in h.answers) && (q in m ==> m[q] == h.answers[q])
  {
    if entries != [] {
      var front, last := entries[..|entries| - 1], entries[|entries| - 1];
      RecoveredAnswer(h, front, queue, q);
      if last.0 == q {
        assert entries[|front|].0 == q;
      } else {
        if Lists(entries, q) {
          var i :| 0 <= i < |entries| && entries[i].0 == q;
          assert front[i].0 == q;
        }
        if Lists(front, q) {
          var i :| 0 <= i < |front| && front[i].0 == q;
          assert entries[i].0 == q;
        }
      }
    }
  }

  /** The value typed after a recovery is accepted exactly when the server takes it under that revision. */
  lemma RecoveredEditExactly(stored: map<QuestionId, Edit>, entries: seq<(QuestionId, Edit)>, a: Attempt, q: QuestionId, t: Typing,
                             carries: bool, valid: Validity)
    requires Enumerates(entries, stored) && q in stored && Writable(a, q, [t], valid)
    ensures var named := if stored[q].expected == 0 then 1 else stored[q].expected;
            OneRound(Opened(stored, entries), a, q, t, carries, valid).accepted <==> Takes(a.rows, Item(q, t.value, named), valid, SINGLE_FIRSTS)
  {
    RecoveredExactly(stored, entries, q);
    assert [t][0] == t;
    SaveExactly(a, t.now, q, t.value, CurrentRevision(Opened(stored, entries), q), valid);
  }

  /** The hook reads its list only at mount. On a page that mounts it before the list arrives, the first
      value typed over a stored answer is accepted exactly when it is the first answer again. */
  lemma MountedEarlyEditExactly(h: Hook, a: Attempt, q: QuestionId, t: Typing, carries: bool, valid: Validity)
    requires q !in h.answers
    requires Writable(a, q, [t], valid) && q in a.rows && a.rows[q].revision >= 1
    ensures OneRound(h, a, q, t, carries, valid).accepted
            <==> a.rows[q].revision == 1 && PayloadEqual(a.rows[q].value, t.value)
  {
    assert [t][0] == t;
  }
}
