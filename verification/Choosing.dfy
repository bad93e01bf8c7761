/**
 Turning a pile of scored models into one answer: the frontier of the board, and
 the 0 to 10 dial spread over it.
 */
module Choosing {

  datatype Pick = Pick(provider: string, model: string, effort: string, fast: bool)

  /** A model that can be run and plotted, on the benchmark in question. */
  datatype Model = Model(pick: Pick, score: real, price: real)

  // --------------------------------------------------------------- domination

  predicate AsGood(one: Model, other: Model) { one.score >= other.score && one.price <= other.price }

  /** Does `one` match `other` in score and price, and surpass it in either? */
  predicate Beats(one: Model, other: Model) {
    AsGood(one, other) && (one.score > other.score || one.price < other.price)
  }

  predicate SameSpot(one: Model, other: Model) { one.score == other.score && one.price == other.price }

  ghost predicate Beaten(models: seq<Model>, m: Model) { exists k :: 0 <= k < |models| && Beats(models[k], m) }

  /** The models at least as good as `m`, of which a better one always has fewer. */
  function Rivals(models: seq<Model>, m: Model): (rivals: set<nat>)
    ensures forall k :: k in rivals <==> 0 <= k < |models| && Beats(models[k], m)
  {
    set k: nat | k < |models| && Beats(models[k], m)
  }

  lemma FewerRivals(models: seq<Model>, k: nat, m: Model)
    requires k < |models| && Beats(models[k], m)
    ensures |Rivals(models, models[k])| < |Rivals(models, m)|
  {
    var better, rivals := Rivals(models, models[k]), Rivals(models, m);
    assert better <= rivals && k in rivals && k !in better;
    assert rivals == better + (rivals - better);
    assert k in rivals - better;
  }

  /** Domination is well founded: climbing from any model ends at one nothing beats. */
  lemma {:induction false} ClimbEnds(models: seq<Model>, at: nat) returns (top: nat)
    requires at < |models|
    ensures top < |models| && AsGood(models[top], models[at]) && !Beaten(models, models[top])
    decreases |Rivals(models, models[at])|
  {
    if Beaten(models, models[at]) {
      var k :| 0 <= k < |models| && Beats(models[k], models[at]);
      FewerRivals(models, k, models[at]);
      top := ClimbEnds(models, k);
    } else {
      top := at;
    }
  }

  // ------------------------------------------------------------------ sorting

  /** Best score first, and the cheaper first among equals. */
  predicate Before(a: Model, b: Model) { a.score > b.score || (a.score == b.score && a.price < b.price) }

  function Insert(m: Model, sorted: seq<Model>): seq<Model> {
    if sorted == [] || !Before(sorted[0], m) then [m] + sorted else [sorted[0]] + Insert(m, sorted[1..])
  }

  /** A stable sort. */
  function Sorted(models: seq<Model>): seq<Model> {
    if models == [] then [] else Insert(models[0], Sorted(models[1..]))
  }

  predicate InOrder(models: seq<Model>) {
    forall i, j :: 0 <= i < j < |models| ==> !Before(models[j], models[i])
  }

  /** The first of the models on the same spot as `m`. */
  function FirstOn(models: seq<Model>, m: Model): seq<Model> {
    if models == [] then [] else if SameSpot(models[0], m) then [models[0]] else FirstOn(models[1..], m)
  }

  lemma {:induction false} InsertSorts(m: Model, sorted: seq<Model>)
    requires InOrder(sorted)
    ensures InOrder(Insert(m, sorted)) && multiset(Insert(m, sorted)) == multiset(sorted) + multiset{m}
  {
    if sorted != [] && Before(sorted[0], m) {
      var rest := Insert(m, sorted[1..]);
      InsertSorts(m, sorted[1..]);
      assert sorted == [sorted[0]] + sorted[1..];
      forall j | 0 <= j < |rest| ensures !Before(rest[j], sorted[0]) {
        assert rest[j] in multiset(rest);
        assert rest[j] in multiset(sorted[1..]) + multiset{m};
      }
    }
  }

  lemma {:induction false} SortedIs(models: seq<Model>)
    ensures InOrder(Sorted(models)) && multiset(Sorted(models)) == multiset(models)
  {
    if models != [] {
      SortedIs(models[1..]);
      InsertSorts(models[0], Sorted(models[1..]));
      assert models == [models[0]] + models[1..];
    }
  }

  lemma {:induction false} InsertIsStable(x: Model, sorted: seq<Model>, m: Model)
    ensures FirstOn(Insert(x, sorted), m) == if SameSpot(x, m) then [x] else FirstOn(sorted, m)
  {
    if sorted != [] && Before(sorted[0], x) {
      InsertIsStable(x, sorted[1..], m);
      assert Insert(x, sorted)[1..] == Insert(x, sorted[1..]);
    } else {
      assert ([x] + sorted)[1..] == sorted;
    }
  }

  /** Sorting does not change which model comes first on a spot. */
  lemma {:induction false} SortedIsStable(models: seq<Model>, m: Model)
    ensures FirstOn(Sorted(models), m) == FirstOn(models, m)
  {
    if models != [] {
      SortedIsStable(models[1..], m);
      InsertIsStable(models[0], Sorted(models[1..]), m);
    }
  }

  // ----------------------------------------------------------------- frontier

  predicate Dominated(models: seq<Model>, m: Model)
    ensures Dominated(models, m) <==> Beaten(models, m)
  {
    exists q | q in models :: Beats(q, m)
  }

  function Undominated(candidates: seq<Model>, models: seq<Model>): (kept: seq<Model>)
    ensures forall m :: m in kept <==> m in candidates && !Beaten(models, m)
  {
    if candidates == [] then []
    else if Dominated(models, candidates[0]) then Undominated(candidates[1..], models)
    else [candidates[0]] + Undominated(candidates[1..], models)
  }

  lemma {:induction false} SpotsKept(candidates: seq<Model>, models: seq<Model>, m: Model)
    requires !Beaten(models, m)
    ensures FirstOn(Undominated(candidates, models), m) == FirstOn(candidates, m)
  {
    if candidates != [] {
      SpotsKept(candidates[1..], models, m);
      var rest := Undominated(candidates[1..], models);
      assert ([candidates[0]] + rest)[1..] == rest;
    }
  }

  predicate Descending(walk: seq<Model>) {
    forall i, j :: 0 <= i < j < |walk| ==> walk[i].score > walk[j].score && walk[i].price > walk[j].price
  }

  /** One model for every undominated spot, each the first listed there. */
  ghost predicate Represents(walk: seq<Model>, models: seq<Model>) {
    && (forall k :: 0 <= k < |walk| ==> !Beaten(models, walk[k]) && FirstOn(models, walk[k]) == [walk[k]])
    && (forall m :: m in models && !Beaten(models, m) ==> exists k :: 0 <= k < |walk| && SameSpot(walk[k], m))
  }

  /**
   The undominated spots, falling in score and price, each with the first model that
   is on it.
   */
  method Edge(models: seq<Model>) returns (walk: seq<Model>)
    ensures Descending(walk)
    ensures Represents(walk, models)
    ensures forall m :: m in models ==> exists k :: 0 <= k < |walk| && AsGood(walk[k], m)
  {
    var kept := Undominated(models, models);
    var sorted := Sorted(kept);
    SortedIs(kept);
    forall m | m in sorted ensures m in models && !Beaten(models, m) { SortedMembers(kept, m); }
    var seen: set<(real, real)> := {};
    walk := [];
    for k := 0 to |sorted|
      invariant Walked(sorted, k, seen, walk)
    {
      var spot := (sorted[k].score, sorted[k].price);
      WalkOn(models, sorted, k, seen, walk);
      if spot !in seen {
        walk := walk + [sorted[k]];
      }
      seen := seen + {spot};
    }
    assert sorted[..|sorted|] == sorted;
    EdgeRepresents(models, kept, sorted, walk);
    EdgeCovers(models, walk);
  }

  /** The first `k` models, reduced to the first on each spot. */
  ghost predicate Walked(sorted: seq<Model>, k: nat, seen: set<(real, real)>, walk: seq<Model>) {
    && k <= |sorted|
    && (forall i :: 0 <= i < k ==> (sorted[i].score, sorted[i].price) in seen)
    && Spots(seen, walk) && Firsts(sorted[..k], walk) && Descending(walk)
  }

  ghost predicate Spots(seen: set<(real, real)>, walk: seq<Model>) {
    forall spot :: spot in seen ==> exists j :: 0 <= j < |walk| && (walk[j].score, walk[j].price) == spot
  }

  lemma OneMoreSpot(seen: set<(real, real)>, walk: seq<Model>, next: Model)
    requires Spots(seen, walk)
    ensures Spots(seen + {(next.score, next.price)}, walk + [next])
  {
    var more := walk + [next];
    forall at | at in seen + {(next.score, next.price)}
      ensures exists j :: 0 <= j < |more| && (more[j].score, more[j].price) == at {
      if at in seen {
        var j :| 0 <= j < |walk| && (walk[j].score, walk[j].price) == at;
        assert more[j] == walk[j];
      } else {
        assert more[|walk|] == next;
      }
    }
  }

  ghost predicate Firsts(models: seq<Model>, walk: seq<Model>) {
    forall j :: 0 <= j < |walk| ==> FirstOn(models, walk[j]) == [walk[j]] && walk[j] in models
  }

  lemma FirstsStay(models: seq<Model>, walk: seq<Model>, next: Model)
    requires Firsts(models, walk)
    ensures Firsts(models + [next], walk)
    ensures (forall m :: m in models ==> !SameSpot(m, next)) ==> Firsts(models + [next], walk + [next])
  {
    hide FirstOn, SameSpot;
    forall j | 0 <= j < |walk| ensures FirstOn(models + [next], walk[j]) == [walk[j]] && walk[j] in models + [next] {
      FirstOnMore(models, next, walk[j]);
    }
    if forall m :: m in models ==> !SameSpot(m, next) {
      NotOn(models, next);
      FirstOnMore(models, next, next) by { assert SameSpot(next, next) by { OnItsOwnSpot(next); } }
      OnItsOwnSpot(next);
    }
  }

  lemma OnItsOwnSpot(m: Model)
    ensures SameSpot(m, m)
  {
  }

  lemma WalkLower(models: seq<Model>, sorted: seq<Model>, k: nat, walk: seq<Model>)
    requires InOrder(sorted) && k < |sorted| && Descending(walk) && Firsts(sorted[..k], walk)
    requires forall m :: m in sorted ==> m in models && !Beaten(models, m)
    requires forall m :: m in sorted[..k] ==> !SameSpot(m, sorted[k])
    ensures Descending(walk + [sorted[k]])
  {
    hide FirstOn, InOrder, Beaten, SameSpot;
    forall j | 0 <= j < |walk| ensures walk[j].score > sorted[k].score && walk[j].price > sorted[k].price {
      NextIsLower(models, sorted, k, walk[j]);
    }
  }

  lemma WalkOn(models: seq<Model>, sorted: seq<Model>, k: nat, seen: set<(real, real)>, walk: seq<Model>)
    requires InOrder(sorted) && k < |sorted| && Walked(sorted, k, seen, walk)
    requires forall m :: m in sorted ==> m in models && !Beaten(models, m)
    ensures var spot := (sorted[k].score, sorted[k].price);
            Walked(sorted, k + 1, seen + {spot}, if spot in seen then walk else walk + [sorted[k]])
  {
    hide Before, InOrder, Beaten, FirstOn, Spots, Firsts, Descending;
    var next, spot := sorted[k], (sorted[k].score, sorted[k].price);
    assert sorted[..k + 1] == sorted[..k] + [next];
    if spot in seen {
      assert seen + {spot} == seen;
      FirstsStay(sorted[..k], walk, next);
    } else {
      forall m | m in sorted[..k] ensures !SameSpot(m, next) {
        var i :| 0 <= i < k && sorted[i] == m;
      }
      FirstsStay(sorted[..k], walk, next);
      WalkLower(models, sorted, k, walk);
      OneMoreSpot(seen, walk, next);
    }
  }

  lemma SortedMembers(kept: seq<Model>, m: Model)
    requires multiset(Sorted(kept)) == multiset(kept)
    ensures m in Sorted(kept) <==> m in kept
  {
    assert m in Sorted(kept) <==> m in multiset(Sorted(kept));
    assert m in kept <==> m in multiset(kept);
  }

  lemma {:induction false} FirstOnMore(models: seq<Model>, next: Model, m: Model)
    ensures FirstOn(models, m) != [] ==> FirstOn(models + [next], m) == FirstOn(models, m)
    ensures FirstOn(models, m) == [] && SameSpot(next, m) ==> FirstOn(models + [next], m) == [next]
  {
    if models == [] {
      assert [] + [next] == [next];
    } else {
      assert (models + [next])[1..] == models[1..] + [next];
      FirstOnMore(models[1..], next, m);
    }
  }

  lemma {:induction false} NotOn(models: seq<Model>, m: Model)
    requires forall i :: 0 <= i < |models| ==> !SameSpot(models[i], m)
    ensures FirstOn(models, m) == []
  {
    if models != [] {
      forall i | 0 <= i < |models[1..]| ensures !SameSpot(models[1..][i], m) { assert models[1..][i] == models[i + 1]; }
      NotOn(models[1..], m);
    }
  }

  /** Among models nothing beats, the next in order on a new spot is worse and cheaper than all before it. */
  lemma NextIsLower(models: seq<Model>, sorted: seq<Model>, k: nat, m: Model)
    requires InOrder(sorted) && k < |sorted| && m in sorted[..k] && !SameSpot(m, sorted[k])
    requires m in models && sorted[k] in models && !Beaten(models, m) && !Beaten(models, sorted[k])
    ensures m.score > sorted[k].score && m.price > sorted[k].price
  {
    var i :| 0 <= i < k && sorted[i] == m;
    assert !Before(sorted[k], sorted[i]);
    var a :| 0 <= a < |models| && models[a] == m;
    assert !Beats(models[a], sorted[k]);
  }

  lemma EdgeRepresents(models: seq<Model>, kept: seq<Model>, sorted: seq<Model>, walk: seq<Model>)
    requires kept == Undominated(models, models) && sorted == Sorted(kept) && multiset(sorted) == multiset(kept)
    requires exists seen :: Walked(sorted, |sorted|, seen, walk)
    ensures Represents(walk, models)
  {
    var seen :| Walked(sorted, |sorted|, seen, walk);
    assert sorted[..|sorted|] == sorted;
    forall k | 0 <= k < |walk| ensures !Beaten(models, walk[k]) && FirstOn(models, walk[k]) == [walk[k]] {
      SortedMembers(kept, walk[k]);
      SortedIsStable(kept, walk[k]);
      SpotsKept(models, models, walk[k]);
    }
    forall m | m in models && !Beaten(models, m) ensures exists k :: 0 <= k < |walk| && SameSpot(walk[k], m) {
      SortedMembers(kept, m);
      var i :| 0 <= i < |sorted| && sorted[i] == m;
      var j :| 0 <= j < |walk| && (walk[j].score, walk[j].price) == (m.score, m.price);
      assert SameSpot(walk[j], m);
    }
  }

  lemma EdgeCovers(models: seq<Model>, walk: seq<Model>)
    requires Represents(walk, models)
    ensures forall m :: m in models ==> exists k :: 0 <= k < |walk| && AsGood(walk[k], m)
  {
    forall m | m in models ensures exists k :: 0 <= k < |walk| && AsGood(walk[k], m) {
      var at :| 0 <= at < |models| && models[at] == m;
      var top := ClimbEnds(models, at);
      assert models[top] in models;
      var k :| 0 <= k < |walk| && SameSpot(walk[k], models[top]);
      assert AsGood(walk[k], m);
    }
  }

  lemma NotEarlier(a: seq<Model>, b: seq<Model>, k: nat, i: nat)
    requires Descending(a) && k < |a| && k <= |b| && a[..k] == b[..k] && i < |b| && SameSpot(b[i], a[k])
    ensures k <= i
  {
    forall j | 0 <= j < k ensures a[j] == b[j] { assert a[..k][j] == b[..k][j]; }
  }

  lemma SameNext(models: seq<Model>, a: seq<Model>, b: seq<Model>, k: nat)
    requires Descending(a) && Represents(a, models) && Descending(b) && Represents(b, models)
    requires k < |a| && k <= |b| && a[..k] == b[..k]
    ensures k < |b| && a[k] == b[k] && a[..k + 1] == b[..k + 1]
  {
    FirstOnMember(models, a[k]);
    var i :| 0 <= i < |b| && SameSpot(b[i], a[k]);
    NotEarlier(a, b, k, i);
    FirstOnMember(models, b[k]);
    var j :| 0 <= j < |a| && SameSpot(a[j], b[k]);
    NotEarlier(b, a, k, j);
    assert a[k].score >= a[j].score == b[k].score >= b[i].score == a[k].score;
    SameFirst(models, a[k], b[k]);
  }

  /** What the frontier holds, and in which order, leaves nothing open: there is only one. */
  lemma {:induction false} FrontierIsUnique(models: seq<Model>, a: seq<Model>, b: seq<Model>, k: nat)
    requires Descending(a) && Represents(a, models) && Descending(b) && Represents(b, models)
    requires k <= |a| && k <= |b| && a[..k] == b[..k]
    ensures a == b
    decreases |a| - k
  {
    if k < |a| {
      SameNext(models, a, b, k);
      FrontierIsUnique(models, a, b, k + 1);
    } else if k < |b| {
      SameNext(models, b, a, k);
    }
  }

  lemma {:induction false} FirstOnMember(models: seq<Model>, m: Model)
    requires FirstOn(models, m) == [m]
    ensures m in models
  {
    if !SameSpot(models[0], m) {
      FirstOnMember(models[1..], m);
    }
  }

  lemma {:induction false} SameFirst(models: seq<Model>, m: Model, n: Model)
    requires SameSpot(m, n)
    ensures FirstOn(models, m) == FirstOn(models, n)
  {
    if models != [] {
      SameFirst(models[1..], m, n);
    }
  }

  // --------------------------------------------------------------------- dial

  const LEVELS: nat := 11

  /** Which frontier member a level stands for: `(10 - level) * steps / 10`, rounded half up. */
  function Rung(level: nat, steps: nat): nat
    requires level < LEVELS
  {
    ((LEVELS - 1 - level) * steps * 2 + (LEVELS - 1)) / (2 * (LEVELS - 1))
  }

  /** Level 10 is the best of the frontier, level 0 the cheapest, and the levels between never step back. */
  lemma RungEnds(level: nat, steps: nat)
    requires level < LEVELS
    ensures Rung(10, steps) == 0 && Rung(0, steps) == steps && Rung(level, steps) <= steps
    ensures level > 0 ==> Rung(level, steps) <= Rung(level - 1, steps)
  {
    assert (LEVELS - 1 - level) * steps <= 10 * steps;
    if level > 0 { assert (LEVELS - 1 - (level - 1)) * steps == (LEVELS - 1 - level) * steps + steps; }
  }

  lemma {:induction false} RungFalls(low: nat, high: nat, steps: nat)
    requires low <= high < LEVELS
    ensures Rung(high, steps) <= Rung(low, steps)
    decreases high
  {
    if low < high {
      RungEnds(high, steps);
      RungFalls(low, high - 1, steps);
    }
  }

  /** One level up moves by less than one rung or by at least one, as the frontier is short or long. */
  lemma RungStep(level: nat, steps: nat)
    requires 0 < level < LEVELS
    ensures steps <= 10 ==> Rung(level - 1, steps) <= Rung(level, steps) + 1
    ensures steps >= 10 ==> Rung(level - 1, steps) >= Rung(level, steps) + 1
  {
    assert (LEVELS - 1 - (level - 1)) * steps == (LEVELS - 1 - level) * steps + steps;
  }

  /** With at most eleven on the frontier, every one of them has a level. */
  lemma {:induction false} EveryoneHasALevel(k: nat, steps: nat, from: nat) returns (level: nat)
    requires steps <= 10 && from < LEVELS && k <= Rung(from, steps)
    ensures from <= level < LEVELS && Rung(level, steps) == k
    decreases LEVELS - from
  {
    if Rung(from, steps) == k {
      level := from;
    } else {
      RungEnds(from, steps);
      RungStep(from + 1, steps);
      level := EveryoneHasALevel(k, steps, from + 1);
    }
  }

  /** With at least eleven, no two levels are the same. */
  lemma LevelsDiffer(low: nat, high: nat, steps: nat)
    requires low < high < LEVELS && steps >= 10
    ensures Rung(high, steps) < Rung(low, steps)
  {
    RungStep(high, steps);
    RungFalls(low, high - 1, steps);
  }

  /** Spread the frontier over 0 to 10, 10 at the top. */
  method LadderOf(walk: seq<Model>) returns (ladder: map<nat, Pick>)
    ensures walk == [] ==> ladder == map[]
    ensures walk != [] ==> forall level: nat :: level in ladder <==> level < LEVELS
    ensures walk != [] ==> ladder[10] == walk[0].pick && ladder[0] == walk[|walk| - 1].pick
    ensures walk != [] ==> forall level: nat :: level < LEVELS ==>
              Rung(level, |walk| - 1) < |walk| && ladder[level] == walk[Rung(level, |walk| - 1)].pick
  {
    ladder := map[];
    if walk == [] {
      return;
    }
    var steps := |walk| - 1;
    RungEnds(0, steps);
    for level := 0 to LEVELS
      invariant forall l: nat :: l in ladder <==> l < level
      invariant forall l: nat :: l < level ==> Rung(l, steps) < |walk| && ladder[l] == walk[Rung(l, steps)].pick
    {
      RungEnds(level, steps);
      ladder := ladder[level := walk[Rung(level, steps)].pick];
    }
  }

  /** Turning the dial up over a frontier never loses score, and never saves money. */
  lemma DialIsMonotone(walk: seq<Model>, low: nat, high: nat)
    requires Descending(walk) && walk != [] && low <= high < LEVELS
    ensures Rung(high, |walk| - 1) <= Rung(low, |walk| - 1) < |walk|
    ensures var a, b := walk[Rung(high, |walk| - 1)], walk[Rung(low, |walk| - 1)];
            a.score >= b.score && a.price >= b.price
  {
    RungFalls(low, high, |walk| - 1);
    RungEnds(low, |walk| - 1);
  }
}
