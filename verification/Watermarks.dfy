/**
 What is owed to a provider that comes back. A watermark is sound when the
 native session it belongs to really holds every piece of history up to it, and
 everything the provider itself produced since.
 */
module Watermarks {
  import opened Options
  import opened Session

  // ---------------------------------------------------------- over journals

  ghost predicate Sound(d: Disk) {
    && (forall p: string {:trigger Synced(d.meta, p)} :: -1 <= Synced(d.meta, p) < |d.log|)
    && Covered(d)
  }

  lemma AppendStep(d: Disk, e: Event)
    requires Sound(d)
    ensures Sound(Apply(d, Append(e)))
  {
    var d' := Apply(d, Append(e));
    forall p: string ensures -1 <= Synced(d'.meta, p) < |d'.log| { assert Synced(d'.meta, p) == Synced(d.meta, p); }
    forall p | p !in d'.broken && BoundId(d'.meta, p) != "" ensures Covers(d', p, BoundId(d'.meta, p)) {
      var n := BoundId(d.meta, p);
      assert Covers(d, p, n) && Synced(d.meta, p) < |d.log|;
      forall k: nat | Presumed(d', p, k) ensures k in Told(d', p, n) {
        if k < |d.log| {
          assert d'.log[k] == d.log[k];
          assert Presumed(d, p, k);
        }
      }
    }
  }

  lemma BindStep(d: Disk, p: string, native: string, seeded: bool)
    requires Sound(d) && Allowed(d, Bind(p, native, seeded))
    ensures Sound(Apply(d, Bind(p, native, seeded)))
  {
    var d' := Apply(d, Bind(p, native, seeded));
    forall q: string ensures Synced(d'.meta, q) == Synced(d.meta, q) { }
    forall q | q !in d'.broken && BoundId(d'.meta, q) != "" ensures Covers(d', q, BoundId(d'.meta, q)) {
      var n := BoundId(d'.meta, q);
      if q != p {
        assert BoundId(d.meta, q) == n;
      }
      assert Covers(d, q, n);
      forall k: nat | Presumed(d', q, k) ensures k in Told(d', q, n) {
        assert Presumed(d, q, k);
      }
    }
  }

  /** One provider's mark moved to `s`; what is known of everyone else is as it was. */
  lemma MarkStep(d: Disk, d': Disk, p: string, s: int)
    requires Sound(d) && -1 <= s < |d.log|
    requires d' == d.(meta := d.meta.(natives := d.meta.natives[p := Native(BoundId(d.meta, p), s)]),
                      broken := d'.broken)
    requires d'.broken == d.broken || (d'.broken == d.broken - {p} && BoundId(d.meta, p) == "")
    requires p !in d.broken && BoundId(d.meta, p) != "" ==> Covers(d', p, BoundId(d.meta, p))
    ensures Sound(d')
  {
    forall q: string ensures -1 <= Synced(d'.meta, q) < |d'.log| {
      assert q != p ==> Synced(d'.meta, q) == Synced(d.meta, q);
    }
    forall q | q !in d'.broken && BoundId(d'.meta, q) != "" ensures Covers(d', q, BoundId(d'.meta, q)) {
      assert BoundId(d.meta, q) == BoundId(d'.meta, q);
      if q != p {
        assert Covers(d, q, BoundId(d.meta, q));
        forall k: nat | Presumed(d', q, k) ensures k in Told(d', q, BoundId(d'.meta, q)) {
          assert Presumed(d, q, k);
        }
      }
    }
  }

  lemma UnmarkStep(d: Disk, p: string)
    requires Sound(d)
    ensures Sound(Apply(d, Unmark(p)))
  {
    var d' := Apply(d, Unmark(p));
    if p !in d.broken && BoundId(d.meta, p) != "" {
      assert Covers(d, p, BoundId(d.meta, p));
      assert -1 <= Synced(d.meta, p);
      forall k: nat | Presumed(d', p, k) ensures k in Told(d', p, BoundId(d.meta, p)) { assert Presumed(d, p, k); }
    }
    assert -1 <= Synced(d.meta, p) < |d.log|;
    MarkStep(d, d', p, -1);
  }

  lemma OvermarkStep(d: Disk, p: string, s: int)
    requires Sound(d) && -1 <= s < |d.log|
    ensures Sound(Apply(d, Overmark(p, s)))
  {
    var d' := Apply(d, Overmark(p, s));
    forall q: string ensures -1 <= Synced(d'.meta, q) < |d'.log| {
      assert q != p ==> Synced(d'.meta, q) == Synced(d.meta, q);
    }
    forall q | q !in d'.broken && BoundId(d'.meta, q) != "" ensures Covers(d', q, BoundId(d'.meta, q)) {
      assert BoundId(d.meta, q) == BoundId(d'.meta, q) && Covers(d, q, BoundId(d.meta, q));
      forall k: nat | Presumed(d', q, k) ensures k in Told(d', q, BoundId(d'.meta, q)) { assert Presumed(d, q, k); }
    }
  }

  /**
   Writes that leave the log, the natives and the history start alone cost nothing as long
   as nothing is forgotten.
   */
  lemma QuietStep(d: Disk, d': Disk)
    requires Sound(d)
    requires d'.log == d.log && d'.meta.natives == d.meta.natives && d'.meta.historyStart == d.meta.historyStart
    requires d.broken <= d'.broken
    requires forall p: string :: BoundId(d.meta, p) != "" ==>
              Told(d, p, BoundId(d.meta, p)) <= Told(d', p, BoundId(d.meta, p))
    ensures Sound(d')
  {
    forall q: string ensures -1 <= Synced(d'.meta, q) < |d'.log| { assert Synced(d'.meta, q) == Synced(d.meta, q); }
    forall p | p !in d'.broken && BoundId(d'.meta, p) != "" ensures Covers(d', p, BoundId(d'.meta, p)) {
      assert BoundId(d'.meta, p) == BoundId(d.meta, p);
      assert Covers(d, p, BoundId(d.meta, p));
      forall k: nat | Presumed(d', p, k) ensures k in Told(d', p, BoundId(d'.meta, p)) {
        assert Presumed(d, p, k);
      }
    }
  }

  lemma SeededStep(d: Disk, p: string)
    requires Sound(d) && Covers(d, p, BoundId(d.meta, p))
    ensures Sound(Apply(d, Seeded(p)))
  {
    var d' := Apply(d, Seeded(p));
    forall q: string ensures -1 <= Synced(d'.meta, q) < |d'.log| { assert Synced(d'.meta, q) == Synced(d.meta, q); }
    forall q | q !in d'.broken && BoundId(d'.meta, q) != "" ensures Covers(d', q, BoundId(d'.meta, q)) {
      assert Covers(d, q, BoundId(d.meta, q));
      forall k: nat | Presumed(d', q, k) ensures k in Told(d', q, BoundId(d'.meta, q)) { assert Presumed(d, q, k); }
    }
  }

  lemma Step(d: Disk, w: Write)
    requires Sound(d) && Allowed(d, w)
    ensures Sound(Apply(d, w))
  {
    match w
    case Append(e) => AppendStep(d, e);
    case Bind(p, native, seeded) => BindStep(d, p, native, seeded);
    case MarkSynced(p, s) => MarkStep(d, Apply(d, w), p, s);
    case Unmark(p) => UnmarkStep(d, p);
    case Overmark(p, s) =>
      assert -1 <= Synced(d.meta, p);
      OvermarkStep(d, p, s);
    case Seeded(p) => SeededStep(d, p);
    case Recover(next, since, message, superseded) =>
      if since.Some? {
        var d' := Apply(d, w);
        forall q: string ensures BoundId(d'.meta, q) == "" && Synced(d'.meta, q) == -1 { }
      } else {
        QuietStep(d, Apply(d, w));
      }
    case _ => QuietStep(d, Apply(d, w));
  }

  /** At every durable-write boundary of every run, the watermark of every provider that is not broken is sound. */
  lemma {:induction false} Always(journal: seq<Write>)
    requires Legal(journal)
    ensures Sound(Replay(journal))
  {
    if journal != [] {
      Always(journal[..|journal| - 1]);
      Step(Replay(journal[..|journal| - 1]), journal[|journal| - 1]);
    } else {
      forall p: string ensures BoundId(EMPTY.meta, p) == "" && Synced(EMPTY.meta, p) == -1 { }
    }
  }

  // ----------------------------------------------- which watermarks to trust

  /** Does this write cost provider `p` its watermark? A session bound before its seed, or one let go by half. */
  predicate Breaks(d: Disk, w: Write, p: string) {
    || (w.Bind? && w.provider == p && !w.seeded && w.native != BoundId(d.meta, p))
    || (w.Overmark? && w.provider == p)
    || (w.Reopen? && p in Unreleased(d.meta))
  }

  /**
   Does it give provider `p` a fresh start? The history is restarted, or the session let go,
   mark and all, or one opened anew has taken in all there is.
   */
  predicate Renews(d: Disk, w: Write, p: string) {
    || (w.Recover? && w.since.Some?)
    || (w.MarkSynced? && w.provider == p && w.mark == -1 && BoundId(d.meta, p) == "")
    || w == Seeded(p)
  }

  ghost predicate BrokenAt(journal: seq<Write>, k: nat, p: string) {
    k < |journal| && Breaks(Replay(journal[..k]), journal[k], p)
  }

  ghost predicate RenewedAfter(journal: seq<Write>, k: nat, p: string) {
    exists j: nat :: k < j < |journal| && Renews(Replay(journal[..j]), journal[j], p)
  }

  /**
   A provider's watermark can be trusted if and only if every time it was broken
   the provider was given a fresh start since.
   */
  lemma {:induction false} TrustedIff(journal: seq<Write>, p: string)
    ensures p !in Replay(journal).broken <==> forall k: nat :: BrokenAt(journal, k, p) ==> RenewedAfter(journal, k, p)
  {
    if journal != [] {
      var last := |journal| - 1;
      var init := journal[..last];
      TrustedIff(init, p);
      forall k: nat | k < last ensures init[..k] == journal[..k] && init[k] == journal[k] { }
      forall k: nat | k < last ensures BrokenAt(init, k, p) <==> BrokenAt(journal, k, p) { }
      forall k: nat | k < last
        ensures RenewedAfter(journal, k, p) <==> RenewedAfter(init, k, p) || Renews(Replay(init), journal[last], p)
      {
        RenewedMore(journal, k, p);
      }
      assert !RenewedAfter(journal, last, p);
      assert BrokenAt(journal, last, p) <==> Breaks(Replay(init), journal[last], p);
      BrokenStep(Replay(init), journal[last], p);
    }
  }

  lemma RenewedMore(journal: seq<Write>, k: nat, p: string)
    requires k < |journal| - 1
    ensures var init := journal[..|journal| - 1];
            RenewedAfter(journal, k, p) <==> RenewedAfter(init, k, p) || Renews(Replay(init), journal[|journal| - 1], p)
  {
    hide Replay, Apply, Renews;
    var last := |journal| - 1;
    var init := journal[..last];
    forall j: nat | j < last ensures init[..j] == journal[..j] && init[j] == journal[j] { }
    if RenewedAfter(init, k, p) {
      var j: nat :| k < j < |init| && Renews(Replay(init[..j]), init[j], p);
      assert Renews(Replay(journal[..j]), journal[j], p);
    }
    if RenewedAfter(journal, k, p) {
      var j: nat :| k < j < |journal| && Renews(Replay(journal[..j]), journal[j], p);
      if j < last { assert Renews(Replay(init[..j]), init[j], p); }
    }
  }

  lemma BrokenStep(d: Disk, w: Write, p: string)
    ensures p in Apply(d, w).broken <==> Breaks(d, w, p) || (p in d.broken && !Renews(d, w, p))
  {
  }

  /** While one process has the session, its watermark can be broken by that process only. */
  lemma {:induction false} TrustKept(before: seq<Write>, journal: seq<Write>, p: string)
    requires before <= journal && Unbroken(journal, |before|)
    requires p !in Replay(before).broken && p in Replay(journal).broken
    ensures exists k: nat :: |before| <= k && BrokenAt(journal, k, p) && !journal[k].Reopen?
    decreases |journal|
  {
    hide Breaks;
    assert |journal| == |before| ==> before == journal;
    if |journal| > |before| {
      var init := journal[..|journal| - 1];
      if p in Replay(init).broken {
        TrustKept(before, init, p);
        var k: nat :| |before| <= k && BrokenAt(init, k, p) && !init[k].Reopen?;
        assert journal[..k] == init[..k] && journal[k] == init[k];
        assert BrokenAt(journal, k, p);
      } else {
        BrokenStep(Replay(init), journal[|journal| - 1], p);
        assert BrokenAt(journal, |journal| - 1, p);
        assert !journal[|journal| - 1].Reopen?;
      }
    }
  }

  /** Does this write leave provider `p` without a session, or say that its mark is all that could be given up? */
  predicate LetsGo(d: Disk, w: Write, p: string) { BoundId(Apply(d, w).meta, p) == "" || w == Unmark(p) }

  ghost predicate LetGoBetween(journal: seq<Write>, n: nat, m: nat, p: string)
    requires m <= |journal|
  {
    exists k: nat :: n <= k < m && LetsGo(Replay(journal[..k]), journal[k], p)
  }

  lemma MarkFalls(d: Disk, w: Write, p: string)
    requires Allowed(d, w) && -1 <= Synced(d.meta, p) && Synced(Apply(d, w).meta, p) < Synced(d.meta, p)
    ensures LetsGo(d, w, p)
  {
  }

  lemma NoLower(journal: seq<Write>, p: string)
    requires Legal(journal)
    ensures -1 <= Synced(Replay(journal).meta, p)
  {
    Always(journal);
  }

  /** Over any stretch of any run, across crashes, a provider's mark falls only if its session was let go in between. */
  lemma {:induction false} FallsOnlyLetGo(journal: seq<Write>, n: nat, m: nat, p: string)
    requires Legal(journal) && n <= m <= |journal|
    requires Synced(Replay(journal[..m]).meta, p) < Synced(Replay(journal[..n]).meta, p)
    ensures LetGoBetween(journal, n, m, p)
    decreases m
  {
    hide Apply, Allowed, LetsGo, Sound;
    assert n < m;
    Prefix(journal, m - 1);
    Prefix(journal, m);
    assert journal[..m][..m - 1] == journal[..m - 1];
    if Synced(Replay(journal[..m - 1]).meta, p) < Synced(Replay(journal[..n]).meta, p) {
      FallsOnlyLetGo(journal, n, m - 1, p);
      var k: nat :| n <= k < m - 1 && LetsGo(Replay(journal[..k]), journal[k], p);
      assert n <= k < m && LetsGo(Replay(journal[..k]), journal[k], p);
    } else {
      NoLower(journal[..m - 1], p);
      MarkFalls(Replay(journal[..m - 1]), journal[m - 1], p);
    }
  }

  lemma {:induction false} Prefix(journal: seq<Write>, n: nat)
    requires Legal(journal) && n <= |journal|
    ensures Legal(journal[..n])
    ensures n > 0 ==> Allowed(Replay(journal[..n - 1]), journal[n - 1])
    decreases |journal|
  {
    if n == |journal| {
      assert journal[..n] == journal;
      if n > 0 { assert journal[..n - 1] == journal[..|journal| - 1]; }
    } else {
      var init := journal[..|journal| - 1];
      Prefix(init, n);
      assert init[..n] == journal[..n];
      if n > 0 { assert init[..n - 1] == journal[..n - 1] && init[n - 1] == journal[n - 1]; }
    }
  }

  // ------------------------------------------------------------ what is owed

  /** A resumed session, once handed what it missed, has everything a fresh one would be told. */
  lemma ResumeCompletes(d: Disk, p: string, since: int, k: nat)
    requires Covered(d) && p !in d.broken && BoundId(d.meta, p) != "" && InScope(d, k)
    requires since <= Synced(d.meta, p) + 1
    ensures k in Told(d, p, BoundId(d.meta, p)) || k in HistoryFor(d, p, since, true)
  {
    if k <= Synced(d.meta, p) || Own(d, p, k) {
      assert Covers(d, p, BoundId(d.meta, p));
      assert Presumed(d, p, k);
    }
  }

  /** Whatever a session's past, resuming completes it if and only if it holds all it is presumed to hold. */
  lemma ResumeCompletesIff(d: Disk, p: string)
    requires BoundId(d.meta, p) != ""
    ensures var native := BoundId(d.meta, p);
            (forall k: nat :: InScope(d, k) ==>
             k in Told(d, p, native) || k in HistoryFor(d, p, Synced(d.meta, p) + 1, true))
            <==> Covers(d, p, native)
  {
    var owed := HistoryFor(d, p, Synced(d.meta, p) + 1, true);
    forall k: nat | InScope(d, k) ensures k in owed <==> !Presumed(d, p, k) { }
  }

  /**
   So a session bound before it holds anything, as one that takes its seed with
   the next message is, is completed by resuming if and only if no history lies at
   or under its provider's mark and none of it is the provider's own.
   */
  lemma UnseededCompletesIff(d: Disk, p: string)
    requires BoundId(d.meta, p) != "" && Told(d, p, BoundId(d.meta, p)) == {}
    ensures (forall k: nat :: InScope(d, k) ==> k in HistoryFor(d, p, Synced(d.meta, p) + 1, true))
            <==> (forall k: nat :: InScope(d, k) ==> k > Synced(d.meta, p) && !Own(d, p, k))
  {
    var owed := HistoryFor(d, p, Synced(d.meta, p) + 1, true);
    forall k: nat | InScope(d, k) ensures k in owed <==> k > Synced(d.meta, p) && !Own(d, p, k) { }
  }

  /**
   A provider that has caught up is never handed any of that again, whatever
   happens next and however often it crashes, unless its session is let go.
   */
  lemma NeverToldTwice(journal: seq<Write>, n: nat, p: string, k: nat)
    requires Legal(journal) && n <= |journal|
    requires var caught := Replay(journal[..n]); Synced(caught.meta, p) == |caught.log| - 1
    requires !LetGoBetween(journal, n, |journal|, p)
    requires var now := Replay(journal); k in HistoryFor(now, p, Synced(now.meta, p) + 1, true)
    ensures |Replay(journal[..n]).log| <= k && !Own(Replay(journal), p, k)
  {
    assert journal[..|journal|] == journal;
    if Synced(Replay(journal).meta, p) < Synced(Replay(journal[..n]).meta, p) {
      FallsOnlyLetGo(journal, n, |journal|, p);
    }
  }

  /**
   A provider with no native session is handed everything if and only if no
   history lies at or under the mark it starts from.
   */
  lemma FreshCompletesIff(d: Disk, p: string)
    ensures (forall k: nat :: InScope(d, k) ==> k in HistoryFor(d, p, Synced(d.meta, p) + 1, false))
            <==> (forall k: nat :: InScope(d, k) ==> k > Synced(d.meta, p))
  {
    var h := HistoryFor(d, p, Synced(d.meta, p) + 1, false);
    forall k: nat | InScope(d, k) ensures k in h <==> k > Synced(d.meta, p) { }
  }
}
