/** The autosave hook as an object. */
module AutosaveHooks {
  import opened Wrappers
  import opened AnswerStore
  import opened Autosave

  class AutosaveHook {
    var answers: map<QuestionId, Local>
    var dirtyQueue: map<QuestionId, Edit>
    var debounceTimers: map<QuestionId, Edit>
    var storage: map<QuestionId, Edit>

    ghost function View(): Hook
      reads this
    {
      Hook(answers, dirtyQueue, debounceTimers, storage)
    }

    constructor (storage: map<QuestionId, Edit>)
      ensures View() == Blank().(stored := storage)
    {
      answers, dirtyQueue, debounceTimers, this.storage := map[], map[], map[], storage;
    }

    method RecoverQueue(entries: seq<(QuestionId, Edit)>)
      modifies this
      ensures View() == Recover(old(View()), entries)
    {
      for i := 0 to |entries|
        invariant View() == Recover(old(View()), entries[..i])
      {
        assert entries[..i + 1][..i] == entries[..i];
        var (questionId, data) := entries[i];
        dirtyQueue := dirtyQueue[questionId := data];
        answers := answers[questionId := Local(data.value, Some(if data.expected == 0 then 1 else data.expected))];
      }
      assert entries[..|entries|] == entries;
    }

    method SetAnswer(q: QuestionId, value: Payload)
      modifies this
      ensures View() == Autosave.SetAnswer(old(View()), q, value)
    {
      var currentRev := if q in answers && answers[q].revision.Some? then answers[q].revision.value else 0;
      answers := answers[q := Local(value, Some(currentRev))];
      dirtyQueue := dirtyQueue[q := Edit(value, currentRev)];
      storage := dirtyQueue;
      if q in debounceTimers {
        debounceTimers := debounceTimers - {q};
      }
      debounceTimers := debounceTimers[q := Edit(value, currentRev)];
    }

    /** The debounce timer of a question: the request it sends. */
    method FireTimer(q: QuestionId) returns (request: Edit)
      requires q in debounceTimers
      modifies this
      ensures View() == Autosave.FireTimer(old(View()), q) && request == old(debounceTimers)[q]
    {
      request := debounceTimers[q];
      debounceTimers := debounceTimers - {q};
    }

    method SettleSave(q: QuestionId, value: Payload, outcome: SaveOutcome)
      modifies this
      ensures View() == Autosave.SettleSave(old(View()), q, value, outcome)
    {
      match outcome {
        case Acknowledged(revision) =>
          answers := answers[q := Local(value, revision)];
          dirtyQueue := dirtyQueue - {q};
          storage := dirtyQueue;
        case Over =>
          dirtyQueue := dirtyQueue - {q};
          storage := dirtyQueue;
        case Stale(server) =>
          if server.Some? {
            answers := server.value;
            dirtyQueue := dirtyQueue - {q};
            storage := dirtyQueue;
          }
        case Lost =>
      }
    }

    /** The items of a flush, one for every dirty question. */
    method BeginFlush() returns (payload: seq<Item>)
      modifies this`debounceTimers
      ensures debounceTimers == map[]
      ensures |payload| == |dirtyQueue| && DistinctQuestions(payload)
      ensures forall q :: q in dirtyQueue ==> Item(q, dirtyQueue[q].value, dirtyQueue[q].expected) in payload
      ensures forall i :: 0 <= i < |payload| ==>
                payload[i].q in dirtyQueue &&
                payload[i] == Item(payload[i].q, dirtyQueue[payload[i].q].value, dirtyQueue[payload[i].q].expected)
    {
      debounceTimers := map[];
      payload := [];
      var left := dirtyQueue.Keys;
      while left != {}
        invariant left <= dirtyQueue.Keys && |payload| + |left| == |dirtyQueue|
        invariant forall i :: 0 <= i < |payload| ==>
                    payload[i].q in dirtyQueue.Keys - left &&
                    payload[i] == Item(payload[i].q, dirtyQueue[payload[i].q].value, dirtyQueue[payload[i].q].expected)
        invariant DistinctQuestions(payload)
        invariant forall q :: q in dirtyQueue.Keys - left ==> Item(q, dirtyQueue[q].value, dirtyQueue[q].expected) in payload
        decreases left
      {
        var q :| q in left;
        payload := payload + [Item(q, dirtyQueue[q].value, dirtyQueue[q].expected)];
        left := left - {q};
      }
    }

    method SettleFlush(outcome: FlushOutcome)
      modifies this
      ensures View() == Autosave.SettleFlush(old(View()), outcome)
    {
      if !outcome.FlushFailed? {
        dirtyQueue := map[];
        storage := map[];
      }
    }
  }
}
