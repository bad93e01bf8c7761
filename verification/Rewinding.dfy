/** Reading the log back after a restart, to see how far an interrupted recovery got. */
module Rewinding {
  import opened Options
  import opened Session

  predicate Counts(e: Event, turn: int) { e.turn == turn && !e.late && (Final(e) || FromModel(e)) }

  /** It is the last event that counts that decides, and nothing before it matters. */
  lemma {:induction false} FailureInIs(log: seq<Event>, from: nat, to: nat, turn: int, failure: Failure)
    requires from <= to <= |log|
    ensures FailureIn(log, from, to, turn) == Some(failure) <==>
              exists k :: from <= k < to && Counts(log[k], turn) && Final(log[k]) && log[k].failure == failure
                          && forall j :: k < j < to ==> !Counts(log[j], turn)
  {
    if from < to {
      FailureInIs(log, from, to - 1, turn, failure);
    }
  }

  /** The turn that took the message first ended there. */
  ghost predicate EndedAt(log: seq<Event>, opening: nat, end: nat)
    requires opening < |log|
  {
    opening < end < |log| && Ends(log[end], log[opening].turn) && forall j :: opening < j < end ==>
        !Ends(log[j], log[opening].turn)
  }

  /**
   Exactly how far a message got that is on record once, where recovery can see
   it: its turn is over if that turn first ended on its own, and was cut short if
   it has not ended since or was interrupted.
   */
  lemma HowFarIs(log: seq<Event>, start: nat, id: Id, k: nat)
    requires start <= k < |log| && log[k].msg == Some(id)
    requires forall j :: start <= j < |log| && log[j].msg == Some(id) ==> j == k
    ensures !HowFar(log, start, id).NotTaken?
    ensures HowFar(log, start, id).CutShort? <==> forall end: nat :: EndedAt(log, k, end) ==> log[end].interrupted
    ensures forall end: nat, failure :: HowFar(log, start, id) == Over(end, failure) <==>
              EndedAt(log, k, end) && !log[end].interrupted && failure == FailureIn(log, k + 1, end, log[k].turn)
  {
    var found := EndOf(log, k + 1, log[k].turn);
    forall end: nat | EndedAt(log, k, end) ensures found == Some(end) { }
    if found.Some? { assert EndedAt(log, k, found.value); }
  }
}
