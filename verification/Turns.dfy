/** Turn numbers over every legal journal, and so across crashes and reopens. */
module Turns {
  import opened Options
  import opened Session

  function Starts(log: seq<Event>): nat {
    if log == [] then 0
    else Starts(log[..|log| - 1]) + (if log[|log| - 1].kind.Start? then 1 else 0)
  }

  /**
   The n-th START carries turn n; everything else that is not late carries the
   turn of the last START before it, and late output no more than that.
   */
  ghost predicate Numbered(log: seq<Event>) {
    && LogTurn(log) == Starts(log) - 1
    && forall k :: 0 <= k < |log| ==> NumberedAt(log, k)
  }

  ghost predicate NumberedAt(log: seq<Event>, k: nat)
    requires k < |log|
  {
    && (log[k].kind.Start? ==> log[k].turn == Starts(log[..k]))
    && (!log[k].late ==> log[k].turn == Starts(log[..k + 1]) - 1)
    && (log[k].late ==> log[k].turn <= Starts(log[..k]) - 1 && !log[k].kind.Start?)
  }

  lemma Kept(log: seq<Event>, e: Event, k: nat)
    requires k < |log| && NumberedAt(log, k)
    ensures NumberedAt(log + [e], k)
  {
    var more := log + [e];
    assert more[..k] == log[..k] && more[..k + 1] == log[..k + 1] && more[k] == log[k];
  }

  lemma Counted(log: seq<Event>, e: Event)
    ensures LogTurn(log + [e]) == if e.turn >= 0 then Max(LogTurn(log), e.turn)
                                  else if e.kind.Start? then LogTurn(log) + 1 else LogTurn(log)
    ensures Starts(log + [e]) == Starts(log) + (if e.kind.Start? then 1 else 0)
  {
    assert (log + [e])[..|log|] == log;
  }

  lemma AppendStep(d: Disk, e: Event)
    requires Numbered(d.log) && Allowed(d, Append(e))
    ensures Numbered(d.log + [e])
  {
    var more := d.log + [e];
    Counted(d.log, e);
    forall k | 0 <= k < |more| ensures NumberedAt(more, k) {
      if k < |d.log| {
        Kept(d.log, e, k);
      } else {
        assert more[..k] == d.log && more[..k + 1] == more && more[k] == e;
      }
    }
  }

  lemma Step(d: Disk, w: Write)
    requires Numbered(d.log) && Allowed(d, w)
    ensures Numbered(Apply(d, w).log)
  {
    if w.Append? {
      AppendStep(d, w.event);
    }
  }

  lemma {:induction false} Always(journal: seq<Write>)
    requires Legal(journal)
    ensures Numbered(Replay(journal).log)
  {
    if journal != [] {
      Always(journal[..|journal| - 1]);
      Step(Replay(journal[..|journal| - 1]), journal[|journal| - 1]);
    }
  }

  lemma {:induction false} StartsGrow(log: seq<Event>, i: nat, j: nat)
    requires i <= j <= |log|
    ensures Starts(log[..i]) <= Starts(log[..j])
    decreases j
  {
    if i < j {
      StartsGrow(log, i, j - 1);
      assert log[..j][..j - 1] == log[..j - 1];
    }
  }

  lemma StartsNext(log: seq<Event>, k: nat)
    requires k < |log|
    ensures Starts(log[..k + 1]) == Starts(log[..k]) + (if log[k].kind.Start? then 1 else 0)
  {
    assert log[..k + 1][..k] == log[..k];
  }

  lemma Ordered(log: seq<Event>, i: nat, j: nat)
    requires i < j < |log| && NumberedAt(log, i) && NumberedAt(log, j) && !log[j].late
    ensures log[i].turn <= log[j].turn
    ensures log[i].kind.Start? && log[j].kind.Start? ==> log[i].turn < log[j].turn
  {
    StartsNext(log, i);
    StartsGrow(log, i + 1, j);
    StartsNext(log, j);
  }

  /** Turns never run backwards: apart from late output, a later record has no smaller turn. */
  lemma NeverBackwards(journal: seq<Write>, i: nat, j: nat)
    requires Legal(journal)
    requires i < j < |Replay(journal).log|
    requires !Replay(journal).log[j].late
    ensures var log := Replay(journal).log;
            && log[i].turn <= log[j].turn
            && (log[i].kind.Start? && log[j].kind.Start? ==> log[i].turn < log[j].turn)
  {
    Always(journal);
    Ordered(Replay(journal).log, i, j);
  }
}
