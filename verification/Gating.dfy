/**
 One lifecycle operation at a time per session id, with gates made on demand and
 thrown away again by reference count.
 */
module Gating {

  /**
   Where a thread is in a lifecycle operation: it holds a clone of the gate while
   waiting for its lock, while operating, while sweeping the gate away if nobody
   else refers to it, and for a moment after unlocking.
   */
  datatype Phase =
    | Idle
    | Waiting(name: string, gate: nat)
    | Operating(name: string, gate: nat)
    | Swept(name: string, gate: nat)
    | Released(name: string, gate: nat)

  /** `gates` maps a session id to its gate; gates are numbered as they are made. */
  datatype State = State(gates: map<string, nat>, made: nat, threads: seq<Phase>)

  datatype Step = Ask(thread: nat,
                      name: string) | Lock(thread: nat) | Sweep(thread: nat) | Unlock(thread: nat) | Forget(thread: nat)

  function Quiet(threads: nat): State { State(map[], 0, seq(threads, _ => Idle)) }

  predicate Holds(p: Phase, gate: nat) { !p.Idle? && p.gate == gate }

  predicate Locks(p: Phase, gate: nat) { (p.Operating? || p.Swept?) && p.gate == gate }

  function Holders(s: State, gate: nat): set<nat> {
    set t: nat | t < |s.threads| && Holds(s.threads[t], gate)
  }

  /** What a reference count of the gate reads: its holders, and the map while it is there. */
  function StrongCount(s: State, name: string, gate: nat): nat {
    |Holders(s, gate)| + if name in s.gates && s.gates[name] == gate then 1 else 0
  }

  predicate Enabled(s: State, step: Step) {
    && step.thread < |s.threads|
    && match step
       case Ask(t, _) => s.threads[t].Idle?
       case Lock(t) => s.threads[t].Waiting? && forall u :: 0 <= u < |s.threads| ==>
           !Locks(s.threads[u], s.threads[t].gate)
       case Sweep(t) => s.threads[t].Operating?
       case Unlock(t) => s.threads[t].Swept?
       case Forget(t) => s.threads[t].Released?
  }

  function Do(s: State, step: Step): State
    requires Enabled(s, step)
  {
    match step
    case Ask(t, name) =>
      if name in s.gates then s.(threads := s.threads[t := Waiting(name, s.gates[name])])
      else State(s.gates[name := s.made], s.made + 1, s.threads[t := Waiting(name, s.made)])
    case Lock(t) => s.(threads := s.threads[t := Operating(s.threads[t].name, s.threads[t].gate)])
    case Sweep(t) =>
      var p := s.threads[t];
      s.(gates := if p.name in s.gates && s.gates[p.name] == p.gate
         && StrongCount(s, p.name, p.gate) == 2 then s.gates - {p.name} else s.gates,
         threads := s.threads[t := Swept(p.name, p.gate)])
    case Unlock(t) => s.(threads := s.threads[t := Released(s.threads[t].name, s.threads[t].gate)])
    case Forget(t) => s.(threads := s.threads[t := Idle])
  }

  function Run(threads: nat, steps: seq<Step>): State {
    if steps == [] then Quiet(threads)
    else
      var before := Run(threads, steps[..|steps| - 1]);
      if Enabled(before, steps[|steps| - 1]) then Do(before, steps[|steps| - 1]) else before
  }

  // ---------------------------------------------------------------- invariant

  /** Whoever waits at a gate or operates behind it finds it still on the map. */
  predicate Kept(s: State) {
    forall t :: 0 <= t < |s.threads| && (s.threads[t].Waiting? || s.threads[t].Operating?) ==>
      s.threads[t].name in s.gates && s.gates[s.threads[t].name] == s.threads[t].gate
  }

  /** No gate serves two session ids, and new gates are new. */
  predicate Apart(s: State) {
    && (forall a, b | a in s.gates && b in s.gates :: s.gates[a] == s.gates[b] ==> a == b)
    && (forall a | a in s.gates :: s.gates[a] < s.made)
    && (forall t :: 0 <= t < |s.threads| && !s.threads[t].Idle? ==> s.threads[t].gate < s.made)
    && (forall t, a | 0 <= t < |s.threads| && a in s.gates :: Holds(s.threads[t], s.gates[a]) ==>
        s.threads[t].name == a)
  }

  ghost predicate Locked(s: State) {
    forall t, u, gate: nat :: 0 <= t < |s.threads| && 0 <= u < |s.threads| ==>
        Locks(s.threads[t], gate) && Locks(s.threads[u], gate) ==> t == u
  }

  ghost predicate Inv(s: State) { Kept(s) && Apart(s) && Locked(s) }

  /** A count of two is the map and the one who asks: nobody else is waiting. */
  lemma LastHolder(s: State, t: nat, u: nat)
    requires Inv(s) && t < |s.threads| && u < |s.threads| && s.threads[t].Operating?
    requires StrongCount(s, s.threads[t].name, s.threads[t].gate) == 2
    requires Holds(s.threads[u], s.threads[t].gate)
    ensures u == t
  {
    var holders := Holders(s, s.threads[t].gate);
    assert t in holders && u in holders;
    if u != t {
      assert {t, u} <= holders;
      Smaller({t, u}, holders);
    }
  }

  lemma Smaller(a: set<nat>, b: set<nat>)
    requires a <= b
    ensures |a| <= |b|
  {
    assert b == a + (b - a);
  }

  lemma SweepKeeps(s: State, t: nat)
    requires Inv(s) && Enabled(s, Sweep(t))
    ensures Inv(Do(s, Sweep(t)))
  {
    var p, after := s.threads[t], Do(s, Sweep(t));
    forall u | 0 <= u < |after.threads| && (after.threads[u].Waiting? || after.threads[u].Operating?)
      ensures after.threads[u].name in after.gates && after.gates[after.threads[u].name] == after.threads[u].gate
    {
      assert u != t && after.threads[u] == s.threads[u];
      if StrongCount(s, p.name, p.gate) == 2 && s.threads[u].name == p.name {
        LastHolder(s, t, u);
      }
    }
    forall u, gate: nat | 0 <= u < |s.threads| ensures Locks(after.threads[u], gate) <==> Locks(s.threads[u], gate) { }
  }

  lemma LockKeeps(s: State, t: nat)
    requires Inv(s) && Enabled(s, Lock(t))
    ensures Inv(Do(s, Lock(t)))
  {
    var after := Do(s, Lock(t));
    forall u, gate: nat | 0 <= u < |s.threads| && u != t
      ensures Locks(after.threads[u], gate) <==> Locks(s.threads[u], gate) { }
  }

  lemma AskKeeps(s: State, t: nat, name: string)
    requires Inv(s) && Enabled(s, Ask(t, name))
    ensures Inv(Do(s, Ask(t, name)))
  {
    var after := Do(s, Ask(t, name));
    forall u, gate: nat | 0 <= u < |s.threads| && u != t
      ensures Locks(after.threads[u], gate) <==> Locks(s.threads[u], gate) { }
  }

  lemma LetGoKeeps(s: State, step: Step)
    requires Inv(s) && Enabled(s, step) && (step.Unlock? || step.Forget?)
    ensures Inv(Do(s, step))
  {
    var after := Do(s, step);
    forall u, gate: nat | 0 <= u < |s.threads| && u != step.thread
      ensures Locks(after.threads[u], gate) <==> Locks(s.threads[u], gate) { }
  }

  lemma {:induction false} Always(threads: nat, steps: seq<Step>)
    ensures Inv(Run(threads, steps))
  {
    if steps != [] {
      Always(threads, steps[..|steps| - 1]);
      var before, step := Run(threads, steps[..|steps| - 1]), steps[|steps| - 1];
      if Enabled(before, step) {
        match step
        case Ask(t, name) => AskKeeps(before, t, name);
        case Lock(t) => LockKeeps(before, t);
        case Sweep(t) => SweepKeeps(before, t);
        case Unlock(_) => LetGoKeeps(before, step);
        case Forget(_) => LetGoKeeps(before, step);
      }
    }
  }

  // ------------------------------------------------------------ what it means

  /** Two operations on one session never overlap, however gates come and go. */
  lemma NeverTogether(threads: nat, steps: seq<Step>, t: nat, u: nat)
    requires var s := Run(threads, steps);
             t < |s.threads| && u < |s.threads| && s.threads[t].Operating? && s.threads[u].Operating?
    requires Run(threads, steps).threads[t].name == Run(threads, steps).threads[u].name
    ensures t == u
  {
    Always(threads, steps);
    var s := Run(threads, steps);
    assert Locks(s.threads[t], s.threads[t].gate) && Locks(s.threads[u], s.threads[t].gate);
  }

  /** Different sessions do not hold each other up: a gate shared is a session shared. */
  lemma NeverInTheWay(threads: nat, steps: seq<Step>, t: nat, u: nat)
    requires var s := Run(threads, steps);
             t < |s.threads| && u < |s.threads| && s.threads[t].Waiting? && Locks(s.threads[u], s.threads[t].gate)
    ensures Run(threads, steps).threads[u].name == Run(threads, steps).threads[t].name
  {
    Always(threads, steps);
    var s := Run(threads, steps);
    assert Holds(s.threads[u], s.gates[s.threads[t].name]);
  }

  /** Does anybody but `t` still hold the gate `t` holds? */
  ghost predicate Shared(s: State, t: nat)
    requires t < |s.threads| && !s.threads[t].Idle?
  {
    exists u: nat :: u < |s.threads| && u != t && Holds(s.threads[u], s.threads[t].gate)
  }

  /** A sweep leaves the gate if and only if somebody else holds it; otherwise nothing is left under that name. */
  lemma SweepLeavesIff(s: State, t: nat)
    requires Inv(s) && Enabled(s, Sweep(t))
    ensures s.threads[t].name in Do(s, Sweep(t)).gates <==> Shared(s, t)
  {
    if Shared(s, t) {
      var u: nat :| u < |s.threads| && u != t && Holds(s.threads[u], s.threads[t].gate);
      Counted(s, t, u);
    } else {
      assert Holders(s, s.threads[t].gate) == {t};
    }
  }

  /** Did the last sweep of a gate of this name find somebody else holding it? */
  ghost predicate LastSweepShared(threads: nat, steps: seq<Step>, name: string) {
    steps != [] &&
    var init, step := steps[..|steps| - 1], steps[|steps| - 1];
    var before := Run(threads, init);
    if Enabled(before, step) && step.Sweep? && before.threads[step.thread].name == name then Shared(before, step.thread)
    else LastSweepShared(threads, init, name)
  }

  ghost predicate Wanted(s: State, name: string) {
    exists t :: 0 <= t < |s.threads| && (s.threads[t].Waiting? || s.threads[t].Operating?) && s.threads[t].name == name
  }

  /**
   After any interleaving, a session id has a gate on the map if and only if
   somebody waits for it or operates under it, or the last sweep of that name came
   while another thread still held its clone. With everybody gone, only such a
   sweep leaves a gate behind.
   */
  lemma {:induction false} LeftBehindIff(threads: nat, steps: seq<Step>, name: string)
    ensures name in Run(threads, steps).gates <==>
              Wanted(Run(threads, steps), name) || LastSweepShared(threads, steps, name)
  {
    if steps != [] {
      var init, step := steps[..|steps| - 1], steps[|steps| - 1];
      LeftBehindIff(threads, init, name);
      Always(threads, init);
      Always(threads, steps);
      var before := Run(threads, init);
      if Enabled(before, step) {
        if step.Sweep? && before.threads[step.thread].name == name {
          SweepLeavesIff(before, step.thread);
        } else {
          NotSwept(before, step, name);
        }
      }
    }
  }

  /** Any other step makes a gate of that name only for somebody who wants it, and takes none away. */
  lemma NotSwept(s: State, step: Step, name: string)
    requires Inv(s) && Enabled(s, step) && !(step.Sweep? && s.threads[step.thread].name == name)
    ensures var made := step.Ask? && step.name == name;
            && (name in Do(s, step).gates <==> name in s.gates || made)
            && (Wanted(Do(s, step), name) <==> Wanted(s, name) || made)
  {
    var after := Do(s, step);
    if step.Ask? && step.name == name { assert after.threads[step.thread].Waiting?; }
    if Wanted(s, name) {
      var t :| 0 <= t < |s.threads| && (s.threads[t].Waiting? || s.threads[t].Operating?) && s.threads[t].name == name;
      assert after.threads[t].name == name;
    }
    if Wanted(after, name) {
      var t :| 0 <= t < |s.threads| && (after.threads[t].Waiting? || after.threads[t].Operating?)
          && after.threads[t].name == name;
      assert t == step.thread || s.threads[t] == after.threads[t];
    }
  }

  /**
   Two that overlap may be enough: the second sweeps while the first, already unlocked,
   still holds its clone, so neither sees a count of two and the gate stays.
   */
  lemma GateLeftBehind() returns (steps: seq<Step>)
    ensures Run(2, steps) == State(map["s" := 0], 1, [Idle, Idle])
  {
    steps := [];
    var s := Quiet(2);
    assert s.threads == [Idle, Idle];
    steps, s := Went(2, steps, s, Ask(0, "s"));
    steps, s := Went(2, steps, s, Ask(1, "s"));
    steps, s := Went(2, steps, s, Lock(0));
    Counted(s, 0, 1);
    steps, s := Went(2, steps, s, Sweep(0));
    steps, s := Went(2, steps, s, Unlock(0));
    steps, s := Went(2, steps, s, Lock(1));
    Counted(s, 0, 1);
    steps, s := Went(2, steps, s, Sweep(1));
    steps, s := Went(2, steps, s, Forget(0));
    steps, s := Went(2, steps, s, Unlock(1));
    steps, s := Went(2, steps, s, Forget(1));
    assert s.threads == [Idle, Idle];
  }

  lemma Went(threads: nat, steps: seq<Step>, s: State, step: Step) returns (more: seq<Step>, after: State)
    requires Run(threads, steps) == s && Enabled(s, step)
    ensures after == Do(s, step) && Run(threads, more) == after
  {
    more, after := steps + [step], Do(s, step);
    assert more[..|more| - 1] == steps;
  }

  lemma Counted(s: State, t: nat, u: nat)
    requires t < |s.threads| && u < |s.threads| && t != u && !s.threads[t].Idle?
              && Holds(s.threads[u], s.threads[t].gate)
    requires s.threads[t].name in s.gates && s.gates[s.threads[t].name] == s.threads[t].gate
    ensures StrongCount(s, s.threads[t].name, s.threads[t].gate) > 2
  {
    Smaller({t, u}, Holders(s, s.threads[t].gate));
  }
}
