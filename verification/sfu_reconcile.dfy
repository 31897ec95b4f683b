/** The producer registry that the SFU manager shares through Redis, and its reconciliation. */
module SfuReconcile {
  import opened Wrappers
  import opened SessionHash
  import opened SfuState
  import opened SfuRegistry

  /** A stored entry: a text that is no JSON object, or an object with or without a generation. */
  datatype Entry = Unreadable | Readable(generation: Option<int>)

  type Shared = map<SessionId, map<ProducerId, Entry>>

  /** Whether the entry of a producer stays: it names a registered producer that is not of an older
      generation than the entry says. */
  predicate Keeps(producers: map<ProducerId, Producer>, pid: ProducerId, e: Entry) {
    && e.Readable?
    && pid in producers
    && (e.generation.Some? ==> producers[pid].generation >= e.generation.value)
  }

  function Kept(producers: map<ProducerId, Producer>, entries: map<ProducerId, Entry>): map<ProducerId, Entry> {
    map pid | pid in entries && Keeps(producers, pid, entries[pid]) :: entries[pid]
  }

  function Reconcile(s: State, shared: Shared): Shared {
    map sid | sid in shared ::
      if sid in s.sessions && s.sessions[sid].status == SessionActive then Kept(s.producers, shared[sid]) else shared[sid]
  }

  method ReconcileSession(producers: map<ProducerId, Producer>, entries: map<ProducerId, Entry>)
    returns (after: map<ProducerId, Entry>)
    ensures after == Kept(producers, entries)
  {
    after := entries;
    var left := entries.Keys;
    while left != {}
      invariant left <= entries.Keys
      invariant after == map pid | pid in entries && (pid in left || Keeps(producers, pid, entries[pid])) :: entries[pid]
      decreases left
    {
      var pid :| pid in left;
      match entries[pid] {
        case Unreadable =>
          after := after - {pid};
        case Readable(generation) =>
          if pid !in producers || (generation.Some? && producers[pid].generation < generation.value) {
            after := after - {pid};
          }
      }
      left := left - {pid};
    }
  }

  method ReconcileWithRedis(sessions: map<SessionId, Session>, producers: map<ProducerId, Producer>, shared: Shared)
    returns (after: Shared)
    ensures forall s: State :: s.sessions == sessions && s.producers == producers ==> after == Reconcile(s, shared)
  {
    after := shared;
    var left := sessions.Keys;
    while left != {}
      invariant left <= sessions.Keys
      invariant after.Keys == shared.Keys
      invariant forall sid :: sid in shared ==>
                  after[sid] == if sid in sessions && sid !in left && sessions[sid].status == SessionActive
                                then Kept(producers, shared[sid]) else shared[sid]
      decreases left
    {
      var sid :| sid in left;
      if sid in shared && sessions[sid].status != SessionResetting {
        var entries := ReconcileSession(producers, after[sid]);
        after := after[sid := entries];
      }
      left := left - {sid};
    }
  }

  /** Every entry that names a registered producer stands under that producer's session. */
  predicate Filed(producers: map<ProducerId, Producer>, shared: Shared) {
    forall sid, pid :: sid in shared && pid in shared[sid] && pid in producers ==> producers[pid].sessionId == sid
  }

  lemma KeptNone(producers: map<ProducerId, Producer>, entries: map<ProducerId, Entry>)
    requires forall pid :: pid in entries ==> pid !in producers
    ensures Kept(producers, entries) == map[]
  {}

  lemma ReconciledTwice(s: State, shared: Shared)
    ensures Reconcile(s, Reconcile(s, shared)) == Reconcile(s, shared)
  {
    forall entries: map<ProducerId, Entry> ensures Kept(s.producers, Kept(s.producers, entries)) == Kept(s.producers, entries) {}
  }

  /** The entry that a producer's registration writes. */
  function Written(p: Producer): Entry {
    Readable(Some(p.generation))
  }

  /** The entry that a producer's own registration wrote goes with it and not before: a reconciliation by
      the manager that serves the session keeps it exactly while the producer is registered, at any
      generation not older; entries of other managers' sessions it does not touch. */
  lemma WrittenEntryStaysExactly(s: State, shared: Shared, sid: SessionId, pid: ProducerId, p: Producer)
    requires sid in shared && pid in shared[sid] && shared[sid][pid] == Written(p)
    ensures sid in Reconcile(s, shared)
    ensures sid in s.sessions && s.sessions[sid].status == SessionActive ==>
              (pid in Reconcile(s, shared)[sid] <==> pid in s.producers && p.generation <= s.producers[pid].generation)
    ensures !(sid in s.sessions && s.sessions[sid].status == SessionActive) ==> Reconcile(s, shared)[sid] == shared[sid]
    ensures pid in Reconcile(s, shared)[sid] ==> Reconcile(s, shared)[sid][pid] == Written(p)
  {}

  /** After a worker's recovery a reconciliation empties the entries of every session that came back. */
  lemma ReconciledAfterCrash(s: State, w: nat, answer: RecoveryAnswer, shared: Shared, sid: SessionId)
    requires Sound(s) && Filed(s.producers, shared)
    requires w < |s.workers| && answer.spawned && sid in s.workers[w].assignedSessions * answer.routed
    requires sid in shared
    ensures Reconcile(WorkerDied(s, w, answer), shared)[sid] == map[]
  {
    hide Sound, Kept;
    var left := WorkerDied(s, w, answer).producers;
    Scrubbed(s, w, answer, sid);
    KeptNone(left, shared[sid]);
  }

  lemma Scrubbed(s: State, w: nat, answer: RecoveryAnswer, sid: SessionId)
    requires Sound(s)
    requires w < |s.workers| && answer.spawned && sid in s.workers[w].assignedSessions * answer.routed
    ensures var s' := WorkerDied(s, w, answer);
            && sid in s'.sessions && s'.sessions[sid].status == SessionActive
            && forall pid :: pid in s'.producers ==> pid in s.producers && s'.producers[pid] == s.producers[pid] &&
                                                     s.producers[pid].sessionId != sid
  {
    assert Placed(s);
  }
}
