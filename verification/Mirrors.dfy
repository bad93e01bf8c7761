/**
 The queue in memory against the queue on disk. They always hold the same
 messages, and every message but the ones recovery wrote in the same order.
 */
module Mirrors {
  import opened Session
  import opened Queues

  ghost predicate Mirror(pending: seq<Msg>, live: seq<Msg>, synth: set<Id>) {
    && multiset(pending) == multiset(live)
    && Distinct(live)
    && Without(pending, synth) == Without(live, synth)
  }

  lemma Members(pending: seq<Msg>, live: seq<Msg>, synth: set<Id>)
    requires Mirror(pending, live, synth)
    ensures forall m :: m in live <==> m in pending
  {
    forall m ensures m in live <==> m in pending {
      assert m in live <==> m in multiset(live);
      assert m in pending <==> m in multiset(pending);
    }
  }

  /** Accepting a message at the back. */
  lemma Push(pending: seq<Msg>, live: seq<Msg>, synth: set<Id>, m: Msg)
    requires Mirror(pending, live, synth)
    requires forall x :: x in live ==> x.id != m.id
    ensures Mirror(pending + [m], live + [m], synth)
  {
    JoinDistinct(live, [m]);
    WithoutConcat(pending, [m], synth);
    WithoutConcat(live, [m], synth);
  }

  /** Dropping ids from both. */
  lemma Drop(pending: seq<Msg>, live: seq<Msg>, synth: set<Id>, gone: set<Id>)
    requires Mirror(pending, live, synth)
    ensures Mirror(Without(pending, gone), Without(live, gone), synth)
  {
    WithoutSame(pending, live, gone);
    WithoutDistinct(live, gone);
    WithoutCommutes(pending, gone, synth);
    WithoutCommutes(live, gone, synth);
  }

  /** Retiring the message at one place of the live queue. */
  lemma Retire(pending: seq<Msg>, a: seq<Msg>, m: Msg, b: seq<Msg>, synth: set<Id>)
    requires Mirror(pending, a + [m] + b, synth)
    ensures Mirror(Without(pending, {m.id}), a + b, synth)
  {
    Drop(pending, a + [m] + b, synth, {m.id});
    WithoutMiddle(a, m, b);
  }

  /** Putting messages in front of both. */
  lemma Prepend(ms: seq<Msg>, pending: seq<Msg>, live: seq<Msg>, synth: set<Id>)
    requires Mirror(pending, live, synth) && Distinct(ms)
    requires forall x, y :: x in ms && y in live ==> x.id != y.id
    ensures Mirror(ms + pending, ms + live, synth)
  {
    JoinDistinct(ms, live);
    WithoutConcat(ms, pending, synth);
    WithoutConcat(ms, live, synth);
  }

  lemma {:induction false} WithoutUnused(ms: seq<Msg>, gone: set<Id>, id: Id)
    requires forall m :: m in ms ==> m.id != id
    ensures Without(ms, gone + {id}) == Without(ms, gone)
  {
    if ms != [] {
      assert ms[0] in ms;
      forall m | m in ms[1..] ensures m.id != id { assert m in ms; }
      WithoutUnused(ms[1..], gone, id);
    }
  }

  lemma InsertDistinct(a: seq<Msg>, m: Msg, b: seq<Msg>)
    requires Distinct(a + b)
    requires forall x :: x in a + b ==> x.id != m.id
    ensures Distinct(a + ([m] + b))
  {
    var all := a + ([m] + b);
    forall i, j | 0 <= i < j < |all| ensures all[i].id != all[j].id {
      var i' := if i <= |a| then i else i - 1;
      var j' := if j <= |a| then j else j - 1;
      if i != |a| { assert (a + b)[i'] == all[i] && all[i] in a + b; }
      if j != |a| { assert (a + b)[j'] == all[j] && all[j] in a + b; }
    }
  }

  lemma InsertOrder(pending: seq<Msg>, a: seq<Msg>, b: seq<Msg>, synth: set<Id>, m: Msg)
    requires Without(pending, synth) == Without(a + b, synth)
    requires forall x :: x in pending || x in a + b ==> x.id != m.id
    ensures Without([m] + pending, synth + {m.id}) == Without(a + ([m] + b), synth + {m.id})
  {
    var s := synth + {m.id};
    WithoutUnused(pending, synth, m.id);
    WithoutUnused(a + b, synth, m.id);
    WithoutConcat([m], pending, s);
    WithoutConcat(a, [m] + b, s);
    WithoutConcat([m], b, s);
    WithoutConcat(a, b, s);
  }

  /** Recovery's own message goes to the front of the disk, but in memory behind the echoes still awaited. */
  lemma Synthesize(pending: seq<Msg>, a: seq<Msg>, b: seq<Msg>, synth: set<Id>, m: Msg)
    requires Mirror(pending, a + b, synth)
    requires forall x :: x in a + b ==> x.id != m.id
    ensures Mirror([m] + pending, a + ([m] + b), synth + {m.id})
  {
    Members(pending, a + b, synth);
    InsertDistinct(a, m, b);
    InsertOrder(pending, a, b, synth, m);
    assert multiset(a + ([m] + b)) == multiset([m]) + multiset(a + b);
  }

  /**
   That is the only way the two orders part: with the disk mirrored exactly, the
   front of one is the front of the other just when no echo is awaited.
   */
  lemma SynthesizeAligns(a: seq<Msg>, b: seq<Msg>, m: Msg)
    requires forall x :: x in a ==> x.id != m.id
    ensures [m] + (a + b) == a + ([m] + b) <==> a == []
  {
    if a != [] {
      assert ([m] + (a + b))[0] == m;
      assert (a + ([m] + b))[0] == a[0];
      assert a[0] in a;
    }
  }
}
