/** The answers of one attempt under optimistic concurrency control. Every operation locks the
    attempt's row, so operations on an attempt happen one after the other. */
module AnswerStore {
  import opened Wrappers
  import opened AttemptStates

  type QuestionId = nat

  /** An answer as the comparison of retries sees it: the chosen option, the number, and the text of
      the whole value. */
  datatype Payload = Payload(option: Option<nat>, numeric: Option<real>, text: string)

  datatype Row = Row(revision: nat, value: Payload)

  type Rows = map<QuestionId, Row>

  /** `valid` says which values suit which question; a question that is not mapped suits none.
      `recorded` says whether a submission of the attempt is on record, `pausedAt` since when a paused
      attempt is. */
  datatype Attempt = Attempt(status: Status, expiresAt: int, questions: set<QuestionId>, rows: Rows, recorded: bool,
                             pausedAt: Option<int>)

  type Validity = (QuestionId, Payload) -> bool

  datatype Refusal = Inactive | DeadlinePassed | NoSuchQuestion | InvalidValue | StaleRevision | Duplicates | Unlawful | OnRecord

  datatype Effect<+T> = Effect(attempt: Attempt, result: Result<T, Refusal>)

  /** `isPayloadEqual` */
  predicate PayloadEqual(a: Payload, b: Payload) {
    if a.option.Some? || b.option.Some? then a.option == b.option
    else if a.numeric.Some? || b.numeric.Some? then a.numeric == b.numeric
    else a.text == b.text
  }

  /** What an answer says: the option that was chosen, or else the number, or else the whole text. */
  datatype Said = Chosen(option: nat) | Number(value: real) | Wrote(text: string)

  function Says(p: Payload): Said {
    match (p.option, p.numeric)
    case (Some(o), _) => Chosen(o)
    case (None, Some(x)) => Number(x)
    case (None, None) => Wrote(p.text)
  }

  /** A value counts as a repetition exactly when it says the same, so repetition is an equivalence. */
  lemma PayloadEqualExactly(a: Payload, b: Payload)
    ensures PayloadEqual(a, b) <==> Says(a) == Says(b)
  {}

  datatype Decision = Insert | Update | Replay | Reject

  /** What a save of one answer does to the row of its question; an unanswered question takes the
      expected revisions in `firsts`. */
  function Decide(rows: Rows, q: QuestionId, value: Payload, expected: nat, firsts: set<nat>): Decision {
    if q !in rows then if expected in firsts then Insert else Reject
    else if expected == rows[q].revision then Update
    else if expected + 1 == rows[q].revision && PayloadEqual(rows[q].value, value) then Replay
    else Reject
  }

  function SaveRow(rows: Rows, q: QuestionId, value: Payload, expected: nat, firsts: set<nat>): Result<Rows, Refusal> {
    match Decide(rows, q, value, expected, firsts)
    case Insert => Ok(rows[q := Row(1, value)])
    case Update => if q in rows then Ok(rows[q := Row(rows[q].revision + 1, value)]) else Err(StaleRevision)
    case Replay => Ok(rows)
    case Reject => Err(StaleRevision)
  }

  const SINGLE_FIRSTS: set<nat> := {0, 1}
  const BATCH_FIRSTS: set<nat> := {0}

  /** The guard of every write: an attempt past its deadline expires instead. */
  function Guard(a: Attempt, now: int): Effect<()> {
    if a.status != ACTIVE then Effect(a, Err(Inactive))
    else if now >= a.expiresAt then Effect(a.(status := EXPIRED), Err(DeadlinePassed))
    else Effect(a, Ok(()))
  }

  function Save(a: Attempt, now: int, q: QuestionId, value: Payload, expected: nat, valid: Validity): Effect<Row> {
    var g := Guard(a, now);
    if g.result.Err? then Effect(g.attempt, Err(g.result.error))
    else if q !in a.questions then Effect(a, Err(NoSuchQuestion))
    else if !valid(q, value) then Effect(a, Err(InvalidValue))
    else match SaveRow(a.rows, q, value, expected, SINGLE_FIRSTS)
      case Err(e) => Effect(a, Err(e))
      case Ok(rows) => if q in rows then Effect(a.(rows := rows), Ok(rows[q])) else Effect(a, Err(StaleRevision))
  }

  function Clear(a: Attempt, now: int, q: QuestionId, expected: nat): Effect<()> {
    var g := Guard(a, now);
    if g.result.Err? then Effect(g.attempt, Err(g.result.error))
    else if q !in a.questions then Effect(a, Err(NoSuchQuestion))
    else if q in a.rows then
      if expected != a.rows[q].revision then Effect(a, Err(StaleRevision)) else Effect(a.(rows := a.rows - {q}), Ok(()))
    else if expected == 0 then Effect(a, Ok(()))
    else Effect(a, Err(StaleRevision))
  }

  datatype Item = Item(q: QuestionId, value: Payload, expected: nat)

  predicate DistinctQuestions(items: seq<Item>) {
    forall i, j :: 0 <= i < j < |items| ==> items[i].q != items[j].q
  }

  /** Saves one answer after the other; the first refusal refuses them all. */
  function SaveItems(rows: Rows, items: seq<Item>, valid: Validity, firsts: set<nat>): Result<Rows, Refusal> {
    if items == [] then Ok(rows) else
    match SaveItems(rows, items[..|items| - 1], valid, firsts)
    case Err(e) => Err(e)
    case Ok(before) =>
      var last := items[|items| - 1];
      if !valid(last.q, last.value) then Err(InvalidValue) else SaveRow(before, last.q, last.value, last.expected, firsts)
  }

  predicate AllMapped(a: Attempt, items: seq<Item>) {
    forall i :: 0 <= i < |items| ==> items[i].q in a.questions
  }

  /** The items come in the order in which the server sorts them, which decides only which refusal is
      reported. */
  function BatchSave(a: Attempt, now: int, items: seq<Item>, valid: Validity): Effect<Rows> {
    if !DistinctQuestions(items) then Effect(a, Err(Duplicates)) else
    var g := Guard(a, now);
    if g.result.Err? then Effect(g.attempt, Err(g.result.error))
    else if !AllMapped(a, items) then Effect(a, Err(NoSuchQuestion))
    else match SaveItems(a.rows, items, valid, BATCH_FIRSTS)
      case Err(e) => Effect(a, Err(e))
      case Ok(rows) => Effect(a.(rows := rows), Ok(rows))
  }

  /** Submission with the answers not saved so far. It is refused as a whole, answers included, when
      its final transition is. Of several faults it does not matter here which is reported. */
  function Submit(a: Attempt, now: int, finals: seq<Item>, autoExpired: bool, valid: Validity): Effect<Status> {
    if a.recorded then Effect(a, Err(OnRecord))
    else if a.status == SUBMITTED then Effect(a, Ok(SUBMITTED))
    else if a.status != ACTIVE && a.status != EXPIRED then Effect(a, Err(Inactive))
    else if !DistinctQuestions(finals) then Effect(a, Err(Duplicates))
    else if !AllMapped(a, finals) then Effect(a, Err(NoSuchQuestion))
    else match SaveItems(a.rows, finals, valid, SINGLE_FIRSTS)
      case Err(e) => Effect(a, Err(e))
      case Ok(rows) =>
        match Transition(a.status, if now >= a.expiresAt || autoExpired then EXPIRED else SUBMITTED)
        case Err(_) => Effect(a, Err(Unlawful))
        case Ok(status) => Effect(a.(rows := rows, status := status, recorded := true), Ok(status))
  }

  /** Start, pause, resume and terminate: each changes the status only where the table allows it. A
      resumption moves the deadline by the time of the pause and an extension. */
  function Intervene(a: Attempt, to: Status, now: int, extension: int): Attempt {
    if !(to in {ACTIVE, PAUSED, TERMINATED} && CanTransition(a.status, to)) then a
    else if to == PAUSED then a.(status := PAUSED, pausedAt := Some(now))
    else if to == ACTIVE && a.status == PAUSED && a.pausedAt.Some? then
      a.(status := ACTIVE, expiresAt := a.expiresAt + (now - a.pausedAt.value) + extension, pausedAt := None)
    else a.(status := to)
  }

  /** Reading the answers expires an attempt past its deadline. */
  function ReadAnswers(a: Attempt, now: int): Attempt {
    if a.status == ACTIVE && now >= a.expiresAt then a.(status := EXPIRED) else a
  }

  // ----- the batch loop -----

  method SaveBatch(rows: Rows, items: seq<Item>, valid: Validity) returns (r: Result<Rows, Refusal>)
    requires DistinctQuestions(items)
    ensures r == SaveItems(rows, items, valid, BATCH_FIRSTS)
  {
    hide SaveItems;
    NoItems(rows, valid, BATCH_FIRSTS);
    assert items[..0] == [];
    var saved := rows;
    for i := 0 to |items|
      invariant SaveItems(rows, items[..i], valid, BATCH_FIRSTS) == Ok(saved)
    {
      var item := items[i];
      NextItem(rows, items, i, valid, BATCH_FIRSTS);
      UntouchedRows(rows, items[..i], item.q, valid, BATCH_FIRSTS);
      if !valid(item.q, item.value) {
        ItemsFailed(rows, items, i + 1, valid, BATCH_FIRSTS);
        return Err(InvalidValue);
      }
      // the existing answers were all fetched before the first write
      if item.q !in rows {
        if item.expected != 0 {
          ItemsFailed(rows, items, i + 1, valid, BATCH_FIRSTS);
          return Err(StaleRevision);
        }
        saved := saved[item.q := Row(1, item.value)];
      } else if item.expected == rows[item.q].revision {
        saved := saved[item.q := Row(item.expected + 1, item.value)];
      } else if item.expected + 1 == rows[item.q].revision && PayloadEqual(rows[item.q].value, item.value) {
      } else {
        ItemsFailed(rows, items, i + 1, valid, BATCH_FIRSTS);
        return Err(StaleRevision);
      }
    }
    assert items[..|items|] == items;
    r := Ok(saved);
  }

  lemma NoItems(rows: Rows, valid: Validity, firsts: set<nat>)
    ensures SaveItems(rows, [], valid, firsts) == Ok(rows)
  {}

  lemma NextItem(rows: Rows, items: seq<Item>, i: nat, valid: Validity, firsts: set<nat>)
    requires i < |items|
    ensures SaveItems(rows, items[..i + 1], valid, firsts) ==
            match SaveItems(rows, items[..i], valid, firsts)
            case Err(e) => Err(e)
            case Ok(before) =>
              if !valid(items[i].q, items[i].value) then Err(InvalidValue)
              else SaveRow(before, items[i].q, items[i].value, items[i].expected, firsts)
  {
    assert items[..i + 1][..i] == items[..i];
  }

  lemma {:induction false} ItemsFailed(rows: Rows, items: seq<Item>, n: nat, valid: Validity, firsts: set<nat>)
    requires n <= |items| && SaveItems(rows, items[..n], valid, firsts).Err?
    ensures SaveItems(rows, items, valid, firsts) == SaveItems(rows, items[..n], valid, firsts)
    decreases |items| - n
  {
    if n == |items| {
      assert items[..n] == items;
    } else {
      assert items[..n + 1][..n] == items[..n];
      ItemsFailed(rows, items, n + 1, valid, firsts);
    }
  }

  // ----- one save -----

  /** An accepted write makes the revision after the one it names, except that an unanswered question
      also takes an expected revision of one. */
  lemma WriteNamesPredecessor(rows: Rows, q: QuestionId, value: Payload, expected: nat, firsts: set<nat>)
    requires firsts == SINGLE_FIRSTS || firsts == BATCH_FIRSTS
    requires Decide(rows, q, value, expected, firsts) in {Insert, Update}
    ensures var after := SaveRow(rows, q, value, expected, firsts).value;
            q in after && after[q].value == value &&
            (after[q].revision == expected + 1 <==> !(q !in rows && expected == 1))
  {}

  /** Sending an accepted save again changes nothing and gives the same row, exactly unless it was the
      first save of the question and expected revision one. */
  lemma RetryExactly(a: Attempt, now: int, q: QuestionId, value: Payload, expected: nat, valid: Validity)
    requires Save(a, now, q, value, expected, valid).result.Ok?
    ensures var first := Save(a, now, q, value, expected, valid);
            Save(first.attempt, now, q, value, expected, valid) == Effect(first.attempt, first.result)
            <==> !(q !in a.rows && expected == 1)
  {
    var first := Save(a, now, q, value, expected, valid);
    var again := Save(first.attempt, now, q, value, expected, valid);
    if q !in a.rows && expected == 1 {
      assert first.attempt.rows[q] == Row(1, value);
      assert again.attempt.rows[q] == Row(2, value);
    }
  }

  /** A batch of distinct questions is accepted exactly when its answers would be accepted one by one
      and none is a first save that expects revision one; it then leaves the same rows. */
  lemma {:induction false} BatchIsSinglesExactly(rows: Rows, items: seq<Item>, valid: Validity)
    requires DistinctQuestions(items)
    ensures var batch, singles := SaveItems(rows, items, valid, BATCH_FIRSTS), SaveItems(rows, items, valid, SINGLE_FIRSTS);
            && (batch.Ok? <==> singles.Ok? && forall i :: 0 <= i < |items| ==> !(items[i].q !in rows && items[i].expected == 1))
            && (batch.Ok? ==> batch == singles)
  {
    if items != [] {
      var front, last := items[..|items| - 1], items[|items| - 1];
      BatchIsSinglesExactly(rows, front, valid);
      UntouchedRows(rows, front, last.q, valid, SINGLE_FIRSTS);
      UntouchedRows(rows, front, last.q, valid, BATCH_FIRSTS);
      assert forall i :: 0 <= i < |front| ==> items[i] == front[i];
      assert items[|items| - 1] == last;
    }
  }

  lemma {:induction false} UntouchedRows(rows: Rows, items: seq<Item>, q: QuestionId, valid: Validity, firsts: set<nat>)
    requires forall i :: 0 <= i < |items| ==> items[i].q != q
    ensures var after := SaveItems(rows, items, valid, firsts);
            after.Ok? ==> (q in after.value <==> q in rows) && (q in rows ==> after.value[q] == rows[q])
  {
    if items != [] {
      UntouchedRows(rows, items[..|items| - 1], q, valid, firsts);
    }
  }

  // ----- runs -----

  datatype Op =
    | DoSave(now: int, q: QuestionId, value: Payload, expected: nat)
    | DoClear(now: int, q: QuestionId, expected: nat)
    | DoBatch(now: int, items: seq<Item>)
    | DoSubmit(now: int, finals: seq<Item>, autoExpired: bool)
    | DoIntervene(to: Status, now: int, extension: int)
    | DoRead(now: int)

  function Do(a: Attempt, op: Op, valid: Validity): Attempt {
    match op
    case DoSave(now, q, value, expected) => Save(a, now, q, value, expected, valid).attempt
    case DoClear(now, q, expected) => Clear(a, now, q, expected).attempt
    case DoBatch(now, items) => BatchSave(a, now, items, valid).attempt
    case DoSubmit(now, finals, autoExpired) => Submit(a, now, finals, autoExpired, valid).attempt
    case DoIntervene(to, now, extension) => Intervene(a, to, now, extension)
    case DoRead(now) => ReadAnswers(a, now)
  }

  function DoAll(a: Attempt, ops: seq<Op>, valid: Validity): Attempt
    decreases ops
  {
    if ops == [] then a else Do(DoAll(a, ops[..|ops| - 1], valid), ops[|ops| - 1], valid)
  }

  /** The answers change only while the attempt is active. */
  lemma ChangesOnlyWhileActive(a: Attempt, op: Op, valid: Validity)
    requires a.status != ACTIVE
    ensures Do(a, op, valid).rows == a.rows
  {
    if op.DoSubmit? && a.status == EXPIRED {
      TransitionExactly(a.status, EXPIRED);
      TransitionExactly(a.status, SUBMITTED);
    }
  }

  /** Every step moves the status as the table allows, or not at all. */
  lemma StatusMovesLawfully(a: Attempt, op: Op, valid: Validity)
    ensures Do(a, op, valid).status == a.status || CanTransition(a.status, Do(a, op, valid).status)
  {
    if op.DoSubmit? {
      TransitionExactly(a.status, EXPIRED);
      TransitionExactly(a.status, SUBMITTED);
    }
  }

  /** Once the attempt has ended, no run of operations changes its answers or its status. */
  lemma {:induction false} EndedForGood(a: Attempt, ops: seq<Op>, valid: Validity)
    requires IsTerminal(a.status)
    ensures DoAll(a, ops, valid).rows == a.rows && DoAll(a, ops, valid).status == a.status
    decreases ops
  {
    if ops != [] {
      var before := DoAll(a, ops[..|ops| - 1], valid);
      EndedForGood(a, ops[..|ops| - 1], valid);
      ChangesOnlyWhileActive(before, ops[|ops| - 1], valid);
      StatusMovesLawfully(before, ops[|ops| - 1], valid);
      TerminalExactly(before.status);
    }
  }

  // ----- what each operation takes and what it leaves -----

  /** The server takes a value for a question: it suits, and it names the stored revision, or repeats
      the last save, or is a first answer that names one of `firsts`. */
  predicate Takes(rows: Rows, item: Item, valid: Validity, firsts: set<nat>) {
    valid(item.q, item.value) &&
    if item.q !in rows then item.expected in firsts
    else item.expected == rows[item.q].revision
         || (item.expected + 1 == rows[item.q].revision && PayloadEqual(rows[item.q].value, item.value))
  }

  /** The row of a question after a value was taken for it: the new value at the next revision, or the
      row as it was if the value repeats the last save. */
  predicate Took(rows: Rows, after: Rows, item: Item) {
    item.q in after &&
    if item.q !in rows then after[item.q] == Row(1, item.value)
    else if item.expected == rows[item.q].revision then after[item.q] == Row(rows[item.q].revision + 1, item.value)
    else after[item.q] == rows[item.q]
  }

  predicate Asked(items: seq<Item>, q: QuestionId) {
    exists i :: 0 <= i < |items| && items[i].q == q
  }

  /** Only the row of question `q` may differ. */
  predicate SameElsewhere(rows: Rows, after: Rows, q: QuestionId) {
    forall x :: x in rows.Keys + after.Keys && x != q ==> x in rows && x in after && after[x] == rows[x]
  }

  /** Each item's question holds its value, and every other row is as before. */
  predicate Answered(rows: Rows, after: Rows, items: seq<Item>) {
    && (forall i :: 0 <= i < |items| ==> Took(rows, after, items[i]))
    && (forall q :: q in rows.Keys + after.Keys && !Asked(items, q) ==> q in rows && q in after && after[q] == rows[q])
  }

  lemma RowExactly(rows: Rows, item: Item, valid: Validity, firsts: set<nat>)
    requires valid(item.q, item.value)
    ensures var r := SaveRow(rows, item.q, item.value, item.expected, firsts);
            && (r.Ok? <==> Takes(rows, item, valid, firsts))
            && (r.Ok? ==> Took(rows, r.value, item) && SameElsewhere(rows, r.value, item.q))
  {}

  lemma AnsweredMore(rows: Rows, before: Rows, after: Rows, items: seq<Item>, last: Item)
    requires Answered(rows, before, items) && Took(before, after, last) && SameElsewhere(before, after, last.q)
    requires !Asked(items, last.q)
    ensures Answered(rows, after, items + [last])
  {
    var all := items + [last];
    forall i | 0 <= i < |all| ensures Took(rows, after, all[i]) {
      if i < |items| {
        assert Asked(items, items[i].q) && Took(rows, before, items[i]);
      }
    }
    forall q | q in rows.Keys + after.Keys && !Asked(all, q) ensures q in rows && q in after && after[q] == rows[q] {
      assert all[|items|].q == last.q;
      assert forall i :: 0 <= i < |items| ==> all[i] == items[i];
      assert !Asked(items, q);
    }
  }

  /** Items for distinct questions are saved exactly when each would be taken as things stand; then each
      question holds its own item's value, and no other row changes. */
  lemma {:induction false} ItemsExactly(rows: Rows, items: seq<Item>, valid: Validity, firsts: set<nat>)
    requires DistinctQuestions(items)
    ensures var r := SaveItems(rows, items, valid, firsts);
            && (r.Ok? <==> forall i :: 0 <= i < |items| ==> Takes(rows, items[i], valid, firsts))
            && (r.Ok? ==> Answered(rows, r.value, items))
  {
    if items != [] {
      hide Takes, Took, SaveRow, Answered;
      var front, last := items[..|items| - 1], items[|items| - 1];
      assert items == front + [last];
      ItemsExactly(rows, front, valid, firsts);
      assert forall i :: 0 <= i < |front| ==> items[i] == front[i];
      var before := SaveItems(rows, front, valid, firsts);
      if before.Ok? {
        UntouchedRows(rows, front, last.q, valid, firsts);
        SameTaking(rows, before.value, last, valid, firsts);
        if valid(last.q, last.value) {
          RowExactly(before.value, last, valid, firsts);
          var r := SaveItems(rows, items, valid, firsts);
          if r.Ok? {
            AnsweredMore(rows, before.value, r.value, front, last);
          }
        }
      }
    }
  }

  lemma SameTaking(rows: Rows, after: Rows, item: Item, valid: Validity, firsts: set<nat>)
    requires (item.q in after <==> item.q in rows) && (item.q in rows ==> after[item.q] == rows[item.q])
    ensures Takes(after, item, valid, firsts) <==> Takes(rows, item, valid, firsts)
    ensures Takes(rows, item, valid, firsts) ==> valid(item.q, item.value)
  {}

  /** A write may go ahead. */
  predicate Open(a: Attempt, now: int) {
    a.status == ACTIVE && now < a.expiresAt
  }

  /** What a refused write leaves: the attempt as it was, but expired if its deadline has passed. */
  function Untouched(a: Attempt, now: int): Attempt {
    if a.status == ACTIVE && now >= a.expiresAt then a.(status := EXPIRED) else a
  }

  lemma SaveExactly(a: Attempt, now: int, q: QuestionId, value: Payload, expected: nat, valid: Validity)
    ensures var r := Save(a, now, q, value, expected, valid);
            && (r.result.Ok? <==> Open(a, now) && q in a.questions && Takes(a.rows, Item(q, value, expected), valid, SINGLE_FIRSTS))
            && (r.result.Err? ==> r.attempt == Untouched(a, now))
            && (r.result.Ok? ==>
                  && Took(a.rows, r.attempt.rows, Item(q, value, expected)) && r.result.value == r.attempt.rows[q]
                  && r.attempt == a.(rows := r.attempt.rows) && SameElsewhere(a.rows, r.attempt.rows, q))
  {}

  /** A clear needs the stored revision, or zero where there is no answer; it removes that answer alone. */
  lemma ClearExactly(a: Attempt, now: int, q: QuestionId, expected: nat)
    ensures var r := Clear(a, now, q, expected);
            && (r.result.Ok? <==> Open(a, now) && q in a.questions && expected == RevisionOf(a.rows, q)
                                  && (q in a.rows || expected == 0))
            && (r.result.Err? ==> r.attempt == Untouched(a, now))
            && (r.result.Ok? ==> r.attempt == a.(rows := a.rows - {q}))
  {
    if q !in a.rows {
      assert a.rows - {q} == a.rows;
    }
  }

  lemma BatchExactly(a: Attempt, now: int, items: seq<Item>, valid: Validity)
    ensures var r := BatchSave(a, now, items, valid);
            && (r.result.Ok? <==> Open(a, now) && DistinctQuestions(items) && AllMapped(a, items)
                                  && forall i :: 0 <= i < |items| ==> Takes(a.rows, items[i], valid, BATCH_FIRSTS))
            && (r.result.Err? ==> r.attempt == if DistinctQuestions(items) then Untouched(a, now) else a)
            && (r.result.Ok? ==> r.attempt == a.(rows := r.attempt.rows)
                                 && Answered(a.rows, r.attempt.rows, items))
  {
    hide SaveItems, Takes, Took;
    if DistinctQuestions(items) {
      ItemsExactly(a.rows, items, valid, BATCH_FIRSTS);
    }
  }

  /** A submission that is not yet on record is carried out exactly for an active attempt whose final
      answers are all taken; it ends the attempt as submitted exactly if it comes in time and is the
      candidate's own, as expired otherwise, and leaves each final answer stored, every other answer as
      it was and the submission on record. Every other one changes nothing. */
  lemma SubmitExactly(a: Attempt, now: int, finals: seq<Item>, autoExpired: bool, valid: Validity)
    ensures var r := Submit(a, now, finals, autoExpired, valid);
            var carried := !a.recorded && a.status == ACTIVE && DistinctQuestions(finals) && AllMapped(a, finals)
                           && forall i :: 0 <= i < |finals| ==> Takes(a.rows, finals[i], valid, SINGLE_FIRSTS);
            && (r.attempt.recorded && !a.recorded <==> carried)
            && (carried ==>
                  && (r.attempt.status == SUBMITTED <==> now < a.expiresAt && !autoExpired)
                  && (r.attempt.status == EXPIRED <==> now >= a.expiresAt || autoExpired)
                  && r.result == Ok(r.attempt.status)
                  && Answered(a.rows, r.attempt.rows, finals)
                  && r.attempt == a.(status := r.attempt.status, rows := r.attempt.rows, recorded := true))
            && (!carried ==> r.attempt == a && (r.result.Ok? <==> !a.recorded && a.status == SUBMITTED))
  {
    hide SaveItems, Takes, Took;
    TransitionExactly(a.status, EXPIRED);
    TransitionExactly(a.status, SUBMITTED);
    if DistinctQuestions(finals) {
      ItemsExactly(a.rows, finals, valid, SINGLE_FIRSTS);
    }
  }

  /** Where the status changes without a write, and that nothing but status, deadline and the time of
      the pause ever does. */
  lemma InterveneExactly(a: Attempt, to: Status, now: int, extension: int)
    ensures var b := Intervene(a, to, now, extension);
            && (b.status != a.status <==>
                  (to == ACTIVE && a.status in {READY, PAUSED}) || (to == PAUSED && a.status == ACTIVE)
                  || (to == TERMINATED && a.status in {ACTIVE, PAUSED}))
            && (b.status != a.status ==> b.status == to)
            && (b.expiresAt != a.expiresAt ==> a.status == PAUSED && to == ACTIVE)
            && b == a.(status := b.status, expiresAt := b.expiresAt, pausedAt := b.pausedAt)
  {}

  /** The operation neither resumes nor terminates the attempt. */
  predicate LeavesPaused(op: Op) {
    op.DoIntervene? ==> op.to != ACTIVE && op.to != TERMINATED
  }

  lemma {:induction false} PausedStays(a: Attempt, ops: seq<Op>, valid: Validity)
    requires a.status == PAUSED && forall i :: 0 <= i < |ops| ==> LeavesPaused(ops[i])
    ensures DoAll(a, ops, valid) == a
    decreases ops
  {
    if ops != [] {
      PausedStays(a, ops[..|ops| - 1], valid);
      assert LeavesPaused(ops[|ops| - 1]);
    }
  }

  /** A pause costs no time: whatever is tried meanwhile, a resumed attempt has the time left that it had
      when it was paused, plus the extension granted, and its answers are as they were. */
  lemma PauseCostsNoTime(a: Attempt, from: int, meanwhile: seq<Op>, until: int, extension: int, valid: Validity)
    requires a.status == ACTIVE && forall i :: 0 <= i < |meanwhile| ==> LeavesPaused(meanwhile[i])
    ensures var resumed := Intervene(DoAll(Intervene(a, PAUSED, from, 0), meanwhile, valid), ACTIVE, until, extension);
            && resumed.expiresAt - until == a.expiresAt - from + extension
            && resumed == a.(expiresAt := resumed.expiresAt, pausedAt := None)
  {
    hide DoAll, CanTransition;
    EntryExactly(a.status);
    EntryExactly(PAUSED);
    PausedStays(Intervene(a, PAUSED, from, 0), meanwhile, valid);
  }

  /** Saves, clears and batches are refused from the deadline on; a submission still takes its answers.
      Whatever comes first then ends the attempt: a write or a look at the answers, accepted or not. */
  lemma DeadlineBindsExactly(a: Attempt, op: Op, valid: Validity)
    requires a.status == ACTIVE
    requires !op.DoIntervene? && op.now >= a.expiresAt
    ensures Do(a, op, valid).rows != a.rows ==> op.DoSubmit?
    ensures op.DoSubmit? && !a.recorded && DistinctQuestions(op.finals) && AllMapped(a, op.finals) ==>
              match SaveItems(a.rows, op.finals, valid, SINGLE_FIRSTS)
              case Ok(rows) => Do(a, op, valid).rows == rows && Do(a, op, valid).status == EXPIRED
              case Err(_) => Do(a, op, valid) == a
    ensures op.DoSave? || op.DoClear? || op.DoRead? || (op.DoBatch? && DistinctQuestions(op.items)) ==>
              Do(a, op, valid) == a.(status := EXPIRED)
  {
    if op.DoSubmit? {
      TransitionExactly(a.status, EXPIRED);
    }
  }

  // ----- the chain of revisions -----

  /** A row that keeps its place in the chain of revisions: it is the same row, or a later one. */
  predicate NotBehind(before: Rows, after: Rows, q: QuestionId) {
    q in before ==> q in after && (after[q] == before[q] || after[q].revision > before[q].revision)
  }

  predicate ClearsIt(a: Attempt, op: Op, q: QuestionId) {
    op.DoClear? && op.q == q && Clear(a, op.now, op.q, op.expected).result.Ok?
  }

  lemma {:induction false} ItemsNotBehind(rows: Rows, items: seq<Item>, q: QuestionId, valid: Validity, firsts: set<nat>)
    ensures var after := SaveItems(rows, items, valid, firsts); after.Ok? ==> NotBehind(rows, after.value, q)
  {
    if items != [] {
      ItemsNotBehind(rows, items[..|items| - 1], q, valid, firsts);
    }
  }

  lemma StepNotBehind(a: Attempt, op: Op, q: QuestionId, valid: Validity)
    ensures NotBehind(a.rows, Do(a, op, valid).rows, q) || ClearsIt(a, op, q)
  {
    match op
    case DoBatch(now, items) => ItemsNotBehind(a.rows, items, q, valid, BATCH_FIRSTS);
    case DoSubmit(now, finals, autoExpired) => ItemsNotBehind(a.rows, finals, q, valid, SINGLE_FIRSTS);
    case _ =>
  }

  predicate NeverClears(a: Attempt, ops: seq<Op>, q: QuestionId, valid: Validity)
    decreases ops
  {
    ops == [] ||
    (NeverClears(a, ops[..|ops| - 1], q, valid) && !ClearsIt(DoAll(a, ops[..|ops| - 1], valid), ops[|ops| - 1], q))
  }

  lemma {:induction false} RunNotBehind(a: Attempt, ops: seq<Op>, q: QuestionId, valid: Validity)
    requires NeverClears(a, ops, q, valid)
    ensures NotBehind(a.rows, DoAll(a, ops, valid).rows, q)
    decreases ops
  {
    if ops != [] {
      RunNotBehind(a, ops[..|ops| - 1], q, valid);
      StepNotBehind(DoAll(a, ops[..|ops| - 1], valid), ops[|ops| - 1], q, valid);
    }
  }

  /** No lost update: a client that read a row and whose save is accepted over that revision, after
      any run in which nobody cleared the answer, overwrites the very row it read. */
  lemma NoLostUpdate(a: Attempt, ops: seq<Op>, q: QuestionId, value: Payload, valid: Validity)
    requires q in a.rows && NeverClears(a, ops, q, valid)
    requires Decide(DoAll(a, ops, valid).rows, q, value, a.rows[q].revision, SINGLE_FIRSTS) == Update
    ensures DoAll(a, ops, valid).rows[q] == a.rows[q]
  {
    RunNotBehind(a, ops, q, valid);
  }

  // ----- the lost update and when it can happen -----

  /** The client that read `a`'s row has its save accepted, after the run, over a row it never read. */
  predicate OverwritesUnread(a: Attempt, ops: seq<Op>, now: int, q: QuestionId, mine: Payload, valid: Validity)
    requires q in a.rows
  {
    var b := DoAll(a, ops, valid);
    && q in b.rows && b.rows[q] != a.rows[q]
    && Decide(b.rows, q, mine, a.rows[q].revision, SINGLE_FIRSTS) == Update
    && Save(b, now, q, mine, a.rows[q].revision, valid).result.Ok?
  }

  /** Another client's saves, each naming the revision before. */
  function Refill(q: QuestionId, other: Payload, now: int, n: nat): (ops: seq<Op>)
    ensures |ops| == n
  {
    if n == 0 then [] else Refill(q, other, now, n - 1) + [DoSave(now, q, other, n - 1)]
  }

  /** They bring a cleared question to any revision at all. */
  lemma {:induction false} RefillReaches(a: Attempt, q: QuestionId, other: Payload, now: int, n: nat, valid: Validity)
    requires a.status == ACTIVE && now < a.expiresAt && q in a.questions && valid(q, other) && q !in a.rows
    ensures DoAll(a, Refill(q, other, now, n), valid) == if n == 0 then a else a.(rows := a.rows[q := Row(n, other)])
  {
    if n > 0 {
      hide Save;
      var before := Refill(q, other, now, n - 1);
      RefillReaches(a, q, other, now, n - 1, valid);
      RefillStep(a, q, other, now, n - 1, valid);
      assert (before + [DoSave(now, q, other, n - 1)])[..n - 1] == before;
    }
  }

  lemma RefillStep(a: Attempt, q: QuestionId, other: Payload, now: int, n: nat, valid: Validity)
    requires a.status == ACTIVE && now < a.expiresAt && q in a.questions && valid(q, other) && q !in a.rows
    ensures var b := if n == 0 then a else a.(rows := a.rows[q := Row(n, other)]);
            Save(b, now, q, other, n, valid).attempt == a.(rows := a.rows[q := Row(n + 1, other)])
  {
    if n > 0 {
      assert a.rows[q := Row(n, other)][q := Row(n + 1, other)] == a.rows[q := Row(n + 1, other)];
    }
  }

  lemma {:induction false} DoAllAppend(a: Attempt, ops: seq<Op>, more: seq<Op>, valid: Validity)
    ensures DoAll(a, ops + more, valid) == DoAll(DoAll(a, ops, valid), more, valid)
    decreases more
  {
    if more == [] {
      assert ops + more == ops;
    } else {
      assert (ops + more)[..|ops + more| - 1] == ops + more[..|more| - 1];
      DoAllAppend(a, ops, more[..|more| - 1], valid);
    }
  }

  /** A clear restarts the count: whatever the revision that a client read, an accepted clear followed
      by as many saves of another value brings it back, and the client's save is then accepted over an
      answer it never saw. */
  lemma ClearRestartsRevisions(a: Attempt, now: int, q: QuestionId, other: Payload, mine: Payload, valid: Validity)
    requires q in a.rows && a.rows[q].revision >= 1 && other != a.rows[q].value && valid(q, other) && valid(q, mine)
    requires Clear(a, now, q, a.rows[q].revision).result.Ok?
    ensures var r := a.rows[q].revision;
            var ops := [DoClear(now, q, r)] + Refill(q, other, now, r);
            && q in DoAll(a, ops, valid).rows && DoAll(a, ops, valid).rows[q] == Row(r, other)
            && OverwritesUnread(a, ops, now, q, mine, valid)
            && Save(DoAll(a, ops, valid), now, q, mine, r, valid).result == Ok(Row(r + 1, mine))
  {
    var r := a.rows[q].revision;
    var clear := [DoClear(now, q, r)];
    var cleared := Clear(a, now, q, r).attempt;
    assert clear[..0] == [];
    assert DoAll(a, clear, valid) == cleared;
    RefillReaches(cleared, q, other, now, r, valid);
    DoAllAppend(a, clear, Refill(q, other, now, r), valid);
    var b := DoAll(a, clear + Refill(q, other, now, r), valid);
    assert b.rows[q] == Row(r, other);
    assert Save(b, now, q, mine, r, valid).attempt.rows[q] == Row(r + 1, mine);
  }

  /** A row that is new since `a` holds a value that suits its question. */
  predicate ValuesFrom(before: Rows, after: Rows, q: QuestionId, valid: Validity) {
    q in after ==> (q in before && after[q].value == before[q].value) || valid(q, after[q].value)
  }

  lemma {:induction false} ItemValuesFrom(rows: Rows, items: seq<Item>, q: QuestionId, valid: Validity, firsts: set<nat>)
    ensures var after := SaveItems(rows, items, valid, firsts); after.Ok? ==> ValuesFrom(rows, after.value, q, valid)
  {
    if items != [] {
      ItemValuesFrom(rows, items[..|items| - 1], q, valid, firsts);
    }
  }

  lemma StepValuesFrom(a: Attempt, op: Op, q: QuestionId, valid: Validity)
    ensures ValuesFrom(a.rows, Do(a, op, valid).rows, q, valid) && Do(a, op, valid).questions == a.questions
  {
    match op
    case DoBatch(now, items) => ItemValuesFrom(a.rows, items, q, valid, BATCH_FIRSTS);
    case DoSubmit(now, finals, autoExpired) => ItemValuesFrom(a.rows, finals, q, valid, SINGLE_FIRSTS);
    case _ =>
  }

  lemma {:induction false} RunValuesFrom(a: Attempt, ops: seq<Op>, q: QuestionId, valid: Validity)
    ensures ValuesFrom(a.rows, DoAll(a, ops, valid).rows, q, valid) && DoAll(a, ops, valid).questions == a.questions
    decreases ops
  {
    if ops != [] {
      RunValuesFrom(a, ops[..|ops| - 1], q, valid);
      StepValuesFrom(DoAll(a, ops[..|ops| - 1], valid), ops[|ops| - 1], q, valid);
    }
  }

  /** Whether the attempt is running or may still be made to. */
  predicate MayRun(a: Attempt) {
    a.status in {READY, ACTIVE, PAUSED}
  }

  lemma {:induction false} StoppedForGood(a: Attempt, ops: seq<Op>, valid: Validity)
    requires !MayRun(a)
    ensures !MayRun(DoAll(a, ops, valid))
    decreases ops
  {
    if ops != [] {
      StoppedForGood(a, ops[..|ops| - 1], valid);
      StatusMovesLawfully(DoAll(a, ops[..|ops| - 1], valid), ops[|ops| - 1], valid);
    }
  }

  /** Some run brings the attempt to a moment at which a clear of the row as it is would be accepted. */
  lemma Reactivated(a: Attempt, valid: Validity) returns (ops: seq<Op>)
    requires MayRun(a)
    ensures var b := DoAll(a, ops, valid);
            b == a.(status := ACTIVE, pausedAt := b.pausedAt)
  {
    ops := if a.status == ACTIVE then [] else [DoIntervene(ACTIVE, if a.pausedAt.Some? then a.pausedAt.value else 0, 0)];
    assert ops != [] ==> ops[..0] == [];
    assert DoAll(a, [], valid) == a;
  }

  /** A clear of the answer is accepted in some run exactly if the attempt may run and has the question. */
  lemma ClearPossibleExactly(a: Attempt, q: QuestionId, valid: Validity)
    requires q in a.rows
    ensures (exists ops :: !NeverClears(a, ops, q, valid)) <==> MayRun(a) && q in a.questions
  {
    if MayRun(a) && q in a.questions {
      var start := Reactivated(a, valid);
      var clear := DoClear(a.expiresAt - 1, q, a.rows[q].revision);
      assert (start + [clear])[..|start|] == start;
      assert !NeverClears(a, start + [clear], q, valid);
    }
    if ops :| !NeverClears(a, ops, q, valid) {
      ClearMeansRunning(a, ops, q, valid);
    }
  }

  lemma {:induction false} ClearMeansRunning(a: Attempt, ops: seq<Op>, q: QuestionId, valid: Validity)
    requires !NeverClears(a, ops, q, valid)
    ensures MayRun(a) && q in a.questions
    decreases ops
  {
    var front := ops[..|ops| - 1];
    if NeverClears(a, front, q, valid) {
      RunValuesFrom(a, front, q, valid);
      if !MayRun(a) {
        StoppedForGood(a, front, valid);
      }
    } else {
      ClearMeansRunning(a, front, q, valid);
    }
  }

  /** The lost update, exactly: some run lets the save of a client that read the row be accepted over a
      row it never read if and only if a clear of the answer may be accepted in between, the client's
      value suits the question, and so does some value other than the one it read. By
      `ClearPossibleExactly` the first of these is a check of the attempt's status and questions. */
  lemma LostUpdateExactly(a: Attempt, q: QuestionId, mine: Payload, valid: Validity)
    requires q in a.rows && a.rows[q].revision >= 1
    ensures (exists ops, now :: OverwritesUnread(a, ops, now, q, mine, valid))
            <==> (exists ops :: !NeverClears(a, ops, q, valid)) && valid(q, mine)
                 && exists other :: valid(q, other) && other != a.rows[q].value
    ensures (exists ops, now :: OverwritesUnread(a, ops, now, q, mine, valid))
            <==> MayRun(a) && q in a.questions && valid(q, mine)
                 && exists other :: valid(q, other) && other != a.rows[q].value
  {
    ClearPossibleExactly(a, q, valid);
    if ops, now :| OverwritesUnread(a, ops, now, q, mine, valid) {
      OverwritingNeedsClear(a, ops, now, q, mine, valid);
    }
    if MayRun(a) && q in a.questions && valid(q, mine) {
      if other :| valid(q, other) && other != a.rows[q].value {
        ClearedOverwrite(a, q, other, mine, valid);
      }
    }
  }

  lemma OverwritingNeedsClear(a: Attempt, ops: seq<Op>, now: int, q: QuestionId, mine: Payload, valid: Validity)
    requires q in a.rows && OverwritesUnread(a, ops, now, q, mine, valid)
    ensures !NeverClears(a, ops, q, valid) && valid(q, mine)
    ensures exists other :: valid(q, other) && other != a.rows[q].value
  {
    var b := DoAll(a, ops, valid);
    RunValuesFrom(a, ops, q, valid);
    assert b.rows[q].revision == a.rows[q].revision && b.rows[q].value != a.rows[q].value;
    assert valid(q, b.rows[q].value);
    if NeverClears(a, ops, q, valid) {
      NoLostUpdate(a, ops, q, mine, valid);
    }
  }

  lemma ClearedOverwrite(a: Attempt, q: QuestionId, other: Payload, mine: Payload, valid: Validity)
    requires MayRun(a) && q in a.questions && q in a.rows && a.rows[q].revision >= 1
    requires valid(q, mine) && valid(q, other) && other != a.rows[q].value
    ensures exists ops, now :: OverwritesUnread(a, ops, now, q, mine, valid)
  {
    var start := Reactivated(a, valid);
    var b, now, r := DoAll(a, start, valid), a.expiresAt - 1, a.rows[q].revision;
    ClearRestartsRevisions(b, now, q, other, mine, valid);
    var ops := [DoClear(now, q, r)] + Refill(q, other, now, r);
    DoAllAppend(a, start, ops, valid);
    assert OverwritesUnread(a, start + ops, now, q, mine, valid);
  }

  // ----- the revision counts the writes -----

  /** How many writes a list of items makes to a question. */
  function WritesIn(rows: Rows, items: seq<Item>, q: QuestionId, valid: Validity, firsts: set<nat>): nat {
    if items == [] then 0 else
    var before, last := SaveItems(rows, items[..|items| - 1], valid, firsts), items[|items| - 1];
    WritesIn(rows, items[..|items| - 1], q, valid, firsts) +
    if before.Ok? && last.q == q && valid(q, last.value) &&
       Decide(before.value, q, last.value, last.expected, firsts) in {Insert, Update}
    then 1 else 0
  }

  /** The accepted writes of a question since it was last cleared, or since the attempt began. */
  function Writes(a: Attempt, ops: seq<Op>, q: QuestionId, valid: Validity): nat
    decreases ops
  {
    if ops == [] then 0 else
    var before, op := DoAll(a, ops[..|ops| - 1], valid), ops[|ops| - 1];
    var earlier := Writes(a, ops[..|ops| - 1], q, valid);
    match op
    case DoSave(now, x, value, expected) =>
      if x == q && Save(before, now, x, value, expected, valid).result.Ok? &&
         Decide(before.rows, q, value, expected, SINGLE_FIRSTS) != Replay
      then earlier + 1 else earlier
    case DoClear(_, _, _) => if ClearsIt(before, op, q) then 0 else earlier
    case DoBatch(now, items) =>
      if BatchSave(before, now, items, valid).result.Ok?
      then earlier + WritesIn(before.rows, items, q, valid, BATCH_FIRSTS) else earlier
    case DoSubmit(now, finals, autoExpired) =>
      if Submit(before, now, finals, autoExpired, valid).result.Ok? && before.status != SUBMITTED
      then earlier + WritesIn(before.rows, finals, q, valid, SINGLE_FIRSTS) else earlier
    case _ => earlier
  }

  function RevisionOf(rows: Rows, q: QuestionId): nat {
    if q in rows then rows[q].revision else 0
  }

  lemma {:induction false} ItemsCount(rows: Rows, items: seq<Item>, q: QuestionId, valid: Validity, firsts: set<nat>)
    ensures var after := SaveItems(rows, items, valid, firsts);
            after.Ok? ==> RevisionOf(after.value, q) == RevisionOf(rows, q) + WritesIn(rows, items, q, valid, firsts)
  {
    if items != [] {
      ItemsCount(rows, items[..|items| - 1], q, valid, firsts);
    }
  }

  /** In every run from a new attempt the stored revision is the number of accepted writes since the
      last clear. */
  lemma {:induction false} RevisionCountsWrites(a: Attempt, ops: seq<Op>, q: QuestionId, valid: Validity)
    requires a.rows == map[]
    ensures RevisionOf(DoAll(a, ops, valid).rows, q) == Writes(a, ops, q, valid)
    decreases ops
  {
    if ops != [] {
      var before, op := DoAll(a, ops[..|ops| - 1], valid), ops[|ops| - 1];
      RevisionCountsWrites(a, ops[..|ops| - 1], q, valid);
      match op
      case DoBatch(now, items) => ItemsCount(before.rows, items, q, valid, BATCH_FIRSTS);
      case DoSubmit(now, finals, autoExpired) => ItemsCount(before.rows, finals, q, valid, SINGLE_FIRSTS);
      case _ =>
    }
  }
}
