/** The life of an exam attempt: the table of transitions, and the functions that read it. */
module AttemptStates {
  import opened Wrappers

  type Status = string

  const READY: Status := "READY"
  const ACTIVE: Status := "ACTIVE"
  const PAUSED: Status := "PAUSED"
  const SUBMITTED: Status := "SUBMITTED"
  const TERMINATED: Status := "TERMINATED"
  const EXPIRED: Status := "EXPIRED"

  const ALL_STATUSES: set<Status> := {READY, ACTIVE, PAUSED, SUBMITTED, TERMINATED, EXPIRED}
  const TERMINAL_STATUSES: set<Status> := {SUBMITTED, TERMINATED, EXPIRED}

  const TRANSITIONS: map<Status, set<Status>> := map[
    READY := {ACTIVE},
    ACTIVE := {PAUSED, SUBMITTED, TERMINATED, EXPIRED},
    PAUSED := {ACTIVE, TERMINATED, EXPIRED},
    SUBMITTED := {},
    TERMINATED := {},
    EXPIRED := {}]

  datatype DomainError = UnknownStatus(status: Status) | IllegalTransition(from: Status, to: Status)

  predicate IsValid(s: Status) {
    s in ALL_STATUSES
  }

  predicate IsTerminal(s: Status) {
    s in TERMINAL_STATUSES
  }

  predicate CanTransition(current: Status, requested: Status) {
    IsValid(current) && IsValid(requested) && current in TRANSITIONS && requested in TRANSITIONS[current]
  }

  function Transition(current: Status, requested: Status): Result<Status, DomainError> {
    if !IsValid(current) then Err(UnknownStatus(current))
    else if !IsValid(requested) then Err(UnknownStatus(requested))
    else if IsTerminal(current) then Err(IllegalTransition(current, requested))
    else if current !in TRANSITIONS || requested !in TRANSITIONS[current] then Err(IllegalTransition(current, requested))
    else Ok(requested)
  }

  /** The throwing function and the predicate agree on every pair of texts, known or not. */
  lemma TransitionExactly(current: Status, requested: Status)
    ensures Transition(current, requested) == Ok(requested) <==> CanTransition(current, requested)
    ensures Transition(current, requested).Ok? ==> Transition(current, requested).value == requested
  {
    if IsTerminal(current) {
      assert TRANSITIONS[current] == {};
    }
  }

  /** The list of terminal statuses is exactly those the table lets nothing out of. */
  lemma TerminalExactly(s: Status)
    requires IsValid(s)
    ensures IsTerminal(s) <==> forall t :: !CanTransition(s, t)
  {
    if !IsTerminal(s) {
      assert CanTransition(s, if s == READY then ACTIVE else TERMINATED);
    }
  }

  /** From where each status may be entered: nothing becomes ready again, only an active attempt is
      submitted or paused, and one that has begun and not ended may end by termination or by time. */
  lemma EntryExactly(current: Status)
    ensures !CanTransition(current, READY)
    ensures CanTransition(current, ACTIVE) <==> current in {READY, PAUSED}
    ensures CanTransition(current, PAUSED) <==> current == ACTIVE
    ensures CanTransition(current, SUBMITTED) <==> current == ACTIVE
    ensures CanTransition(current, TERMINATED) <==> current in {ACTIVE, PAUSED}
    ensures CanTransition(current, EXPIRED) <==> current in {ACTIVE, PAUSED}
  {}

  /** A history of statuses, each step one that the table allows. */
  ghost predicate Lawful(history: seq<Status>) {
    forall i :: 0 <= i && i + 1 < |history| ==> CanTransition(history[i], history[i + 1])
  }

  /** A lawful history has nothing after a terminal status, and comes back to no status other than
      active and paused. */
  lemma {:induction false} LawfulEnds(history: seq<Status>, i: nat, j: nat)
    requires Lawful(history) && i < j < |history|
    ensures !IsTerminal(history[i])
    ensures history[j] != READY
    ensures history[i] == history[j] ==> history[i] in {ACTIVE, PAUSED}
  {
    assert CanTransition(history[i], history[i + 1]);
    if i + 1 < j {
      LawfulEnds(history, i, j - 1);
    }
    assert CanTransition(history[j - 1], history[j]);
  }
}
