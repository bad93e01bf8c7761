/** Facts about message queues: removal by id, and what a removal leaves of a concatenation. */
module Queues {
  import opened Session

  ghost predicate Distinct(ms: seq<Msg>) {
    forall i, j :: 0 <= i < j < |ms| ==> ms[i].id != ms[j].id
  }

  lemma {:induction false} WithoutConcat(a: seq<Msg>, b: seq<Msg>, gone: set<Id>)
    ensures Without(a + b, gone) == Without(a, gone) + Without(b, gone)
  {
    if a == [] {
      assert a + b == b;
    } else {
      assert (a + b)[1..] == a[1..] + b;
      WithoutConcat(a[1..], b, gone);
    }
  }

  /** Removal keeps exactly the messages with other ids. */
  lemma {:induction false} WithoutMembers(ms: seq<Msg>, gone: set<Id>)
    ensures forall m :: m in Without(ms, gone) <==> m in ms && m.id !in gone
  {
    if ms != [] {
      WithoutMembers(ms[1..], gone);
      assert ms == [ms[0]] + ms[1..];
    }
  }

  lemma {:induction false} WithoutDistinct(ms: seq<Msg>, gone: set<Id>)
    requires Distinct(ms)
    ensures Distinct(Without(ms, gone))
  {
    if ms != [] {
      var rest := Without(ms[1..], gone);
      WithoutDistinct(ms[1..], gone);
      WithoutMembers(ms[1..], gone);
      forall j | 0 <= j < |rest| ensures rest[j].id != ms[0].id {
        assert rest[j] in rest;
      }
    }
  }

  lemma {:induction false} WithoutNone(ms: seq<Msg>, gone: set<Id>)
    requires forall m :: m in ms ==> m.id !in gone
    ensures Without(ms, gone) == ms
  {
    if ms != [] {
      assert ms[0] in ms;
      forall m | m in ms[1..] ensures m.id !in gone { assert m in ms; }
      WithoutNone(ms[1..], gone);
    }
  }

  lemma {:induction false} WithoutCommutes(ms: seq<Msg>, a: set<Id>, b: set<Id>)
    ensures Without(Without(ms, a), b) == Without(Without(ms, b), a)
  {
    if ms != [] {
      WithoutCommutes(ms[1..], a, b);
      WithoutStep(ms, a);
      WithoutStep(ms, b);
      WithoutConcat(Without([ms[0]], a), Without(ms[1..], a), b);
      WithoutConcat(Without([ms[0]], b), Without(ms[1..], b), a);
    }
  }

  lemma {:induction false} WithoutBoth(ms: seq<Msg>, a: set<Id>, b: set<Id>)
    ensures Without(Without(ms, a), b) == Without(ms, a + b)
  {
    if ms != [] {
      WithoutBoth(ms[1..], a, b);
      if ms[0].id !in a { assert Without(ms, a)[1..] == Without(ms[1..], a); }
    }
  }

  lemma WithoutStep(ms: seq<Msg>, gone: set<Id>)
    requires ms != []
    ensures Without(ms, gone) == Without([ms[0]], gone) + Without(ms[1..], gone)
  {
    assert ms == [ms[0]] + ms[1..];
    WithoutConcat([ms[0]], ms[1..], gone);
  }

  /** Where ids are distinct, removing the id in the middle removes that message alone. */
  lemma WithoutMiddle(a: seq<Msg>, m: Msg, b: seq<Msg>)
    requires Distinct(a + [m] + b)
    ensures Without(a + [m] + b, {m.id}) == a + b
  {
    var all := a + [m] + b;
    assert all[|a|] == m;
    forall x | x in a ensures x.id !in {m.id} {
      var i :| 0 <= i < |a| && a[i] == x;
      assert all[i] == x;
    }
    forall x | x in b ensures x.id !in {m.id} {
      var i :| 0 <= i < |b| && b[i] == x;
      assert all[|a| + 1 + i] == x;
    }
    WithoutConcat(a + [m], b, {m.id});
    WithoutConcat(a, [m], {m.id});
    WithoutNone(a, {m.id});
    WithoutNone(b, {m.id});
  }

  lemma JoinDistinct(a: seq<Msg>, b: seq<Msg>)
    requires Distinct(a) && Distinct(b)
    requires forall x, y :: x in a && y in b ==> x.id != y.id
    ensures Distinct(a + b)
  {
    forall i, j | 0 <= i < j < |a + b| ensures (a + b)[i].id != (a + b)[j].id {
      if i < |a| <= j {
        assert a[i] in a && b[j - |a|] in b;
      }
    }
  }

  lemma {:induction false} WithoutCounts(ms: seq<Msg>, gone: set<Id>, m: Msg)
    ensures multiset(Without(ms, gone))[m] == if m.id in gone then 0 else multiset(ms)[m]
  {
    if ms != [] {
      WithoutCounts(ms[1..], gone, m);
      assert ms == [ms[0]] + ms[1..];
    }
  }

  /** Removal does not depend on the order of what is left. */
  lemma WithoutSame(a: seq<Msg>, b: seq<Msg>, gone: set<Id>)
    requires multiset(a) == multiset(b)
    ensures multiset(Without(a, gone)) == multiset(Without(b, gone))
  {
    forall m ensures multiset(Without(a, gone))[m] == multiset(Without(b, gone))[m] {
      WithoutCounts(a, gone, m);
      WithoutCounts(b, gone, m);
    }
  }

  lemma PendingIdsOf(ms: seq<Msg>, id: Id)
    ensures id in PendingIds(ms) <==> exists m :: m in ms && m.id == id
  {
    if m :| m in ms && m.id == id {
      var k :| 0 <= k < |ms| && ms[k] == m;
    }
    if id in PendingIds(ms) {
      var k :| 0 <= k < |ms| && ms[k].id == id;
      assert ms[k] in ms;
    }
  }

  lemma OpenedAfter(log: seq<Event>, e: Event)
    ensures OpenedIds(log + [e]) == OpenedIds(log) + (if e.msg.Some? then {e.msg.value} else {})
  {
    var more := log + [e];
    forall id | id in OpenedIds(log) ensures id in OpenedIds(more) {
      var k :| 0 <= k < |log| && log[k].msg.Some? && log[k].msg.value == id;
      assert more[k] == log[k];
    }
    if e.msg.Some? { assert more[|log|] == e; }
    forall id | id in OpenedIds(more) ensures id in OpenedIds(log) || (e.msg.Some? && id == e.msg.value) {
      var k :| 0 <= k < |more| && more[k].msg.Some? && more[k].msg.value == id;
      if k < |log| { assert more[k] == log[k]; }
    }
  }
}
