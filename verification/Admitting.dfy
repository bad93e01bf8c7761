/**
 How the daemon runs its clients' requests: ticket lanes that keep one session's
 requests in the order they were written, under one daemon-wide bound that is
 also the barrier a shutdown waits at.
 */
module Admitting {
  import opened Options

  /**
   Where a request is. Its reader waits with it at the gate (`Waiting`); once
   admitted it has a thread, which waits for its turn in the lane, runs, gives up
   the lane, and only then its place. A request refused at the gate ends its reader.
   */
  datatype Phase = Waiting | Admitted | Running | Leaving | Gone | Refused

  /** One request. Tickets are handed out as a connection's requests are read, lane by lane. */
  datatype Task = Task(conn: nat, lane: Option<string>, ticket: nat, phase: Phase)

  type LaneKey = (nat, string)

  datatype State = State(
    limit: nat, tasks: seq<Task>, turns: map<LaneKey, nat>, next: map<LaneKey, nat>, active: nat, accepting: bool)

  datatype Step =
    | Read(conn: nat, lane: Option<string>)
    | Begin(task: nat)
    | Refuse(task: nat)
    | Enter(task: nat)
    | Leave(task: nat)
    | Drop(task: nat)
    | Close

  function Begun(limit: nat): State { State(limit, [], map[], map[], 0, true) }

  function Turn(s: State, key: LaneKey): nat { if key in s.turns then s.turns[key] else 0 }

  function NextTicket(s: State, key: LaneKey): nat { if key in s.next then s.next[key] else 0 }

  predicate HasPlace(p: Phase) { p.Admitted? || p.Running? || p.Leaving? }

  /** A reader handles one request at a time: it is blocked at the gate with one, or gone after a refusal. */
  predicate Reading(s: State, conn: nat) {
    forall k :: 0 <= k < |s.tasks| && s.tasks[k].conn == conn ==>
        !s.tasks[k].phase.Waiting? && !s.tasks[k].phase.Refused?
  }

  predicate ItsTurn(s: State, t: Task) { t.lane.Some? ==> t.ticket == Turn(s, (t.conn, t.lane.value)) }

  predicate Enabled(s: State, step: Step) {
    match step
    case Read(conn, _) => Reading(s, conn)
    case Begin(k) => k < |s.tasks| && s.tasks[k].phase.Waiting? && s.accepting && s.active < s.limit
    case Refuse(k) => k < |s.tasks| && s.tasks[k].phase.Waiting? && !s.accepting
    case Enter(k) => k < |s.tasks| && s.tasks[k].phase.Admitted? && ItsTurn(s, s.tasks[k])
    case Leave(k) => k < |s.tasks| && s.tasks[k].phase.Running?
    case Drop(k) => k < |s.tasks| && s.tasks[k].phase.Leaving? && s.active > 0
    case Close => true
  }

  function Moved(s: State, k: nat, phase: Phase): State
    requires k < |s.tasks|
  {
    s.(tasks := s.tasks[k := s.tasks[k].(phase := phase)])
  }

  function Do(s: State, step: Step): State
    requires Enabled(s, step)
  {
    match step
    case Read(conn, lane) =>
      if lane.None? then s.(tasks := s.tasks + [Task(conn, None, 0, Waiting)])
      else
        var key := (conn, lane.value);
        s.(tasks := s.tasks + [Task(conn, lane, NextTicket(s, key), Waiting)],
           next := s.next[key := NextTicket(s, key) + 1])
    case Begin(k) => Moved(s, k, Admitted).(active := s.active + 1)
    case Refuse(k) => Moved(s, k, Refused)
    case Enter(k) => Moved(s, k, Running)
    case Leave(k) =>
      var t := s.tasks[k];
      if t.lane.None? then Moved(s, k, Leaving)
      else
        var key := (t.conn, t.lane.value);
        Moved(s, k, Leaving).(turns := s.turns[key := Turn(s, key) + 1])
    case Drop(k) => Moved(s, k, Gone).(active := s.active - 1)
    case Close => s.(accepting := false)
  }

  // ---------------------------------------------------------------- invariant

  function Places(tasks: seq<Task>): nat {
    if tasks == [] then 0 else Places(tasks[..|tasks| - 1]) + if HasPlace(tasks[|tasks| - 1].phase) then 1 else 0
  }

  predicate SameLane(a: Task, b: Task) { a.conn == b.conn && a.lane.Some? && a.lane == b.lane }

  function KeyOf(t: Task): LaneKey
    requires t.lane.Some?
  {
    (t.conn, t.lane.value)
  }

  /** Tickets are given out in order, and where a request is says where its ticket stands. */
  predicate Ticketed(s: State, t: Task) {
    t.lane.Some? ==>
      && t.ticket < NextTicket(s, KeyOf(t))
      && (match t.phase
          case Running => t.ticket == Turn(s, KeyOf(t))
          case Leaving => t.ticket < Turn(s, KeyOf(t))
          case Gone => t.ticket < Turn(s, KeyOf(t))
          case _ => t.ticket >= Turn(s, KeyOf(t)))
  }

  predicate Holds(s: State, key: LaneKey, ticket: nat, k: nat) {
    k < |s.tasks| && s.tasks[k].lane.Some? && KeyOf(s.tasks[k]) == key && s.tasks[k].ticket == ticket
  }

  ghost predicate Ordered(s: State) {
    && (forall k :: 0 <= k < |s.tasks| ==> Ticketed(s, s.tasks[k]))
    && (forall i, j :: 0 <= i < j < |s.tasks| && SameLane(s.tasks[i], s.tasks[j]) ==>
        s.tasks[i].ticket < s.tasks[j].ticket)
    && (forall i, j :: 0 <= i < j < |s.tasks| && s.tasks[i].conn == s.tasks[j].conn ==>
          !s.tasks[i].phase.Waiting? && !s.tasks[i].phase.Refused?)
    && (forall key: LaneKey, ticket: nat {:trigger Issued(s, key, ticket)} :: ticket < NextTicket(s, key) ==>
        Issued(s, key, ticket))
  }

  ghost predicate Issued(s: State, key: LaneKey, ticket: nat) { exists k: nat :: Holds(s, key, ticket, k) }

  ghost predicate Inv(s: State) {
    Ordered(s) && Bounded(s) && s.active == Places(s.tasks) && s.active <= s.limit
  }

  lemma {:induction false} PlacesMoved(tasks: seq<Task>, k: nat, t: Task)
    requires k < |tasks|
    ensures Places(tasks[k := t]) + (if HasPlace(tasks[k].phase) then 1 else 0) ==
              Places(tasks) + (if HasPlace(t.phase) then 1 else 0)
  {
    var last := |tasks| - 1;
    if k == last {
      assert tasks[k := t][..last] == tasks[..last];
    } else {
      PlacesMoved(tasks[..last], k, t);
      assert tasks[k := t][..last] == tasks[..last][k := t];
    }
  }

  /** A request changing phase keeps its ticket, and so everyone's. */
  lemma MovedKeeps(s: State, t: State, k: nat, phase: Phase)
    requires Ordered(s) && k < |s.tasks| && t.tasks == s.tasks[k := s.tasks[k].(phase := phase)] && t.next == s.next
    requires (phase.Waiting? || phase.Refused?) ==> s.tasks[k].phase.Waiting? || s.tasks[k].phase.Refused?
    requires forall j :: 0 <= j < |t.tasks| ==> Ticketed(t, t.tasks[j])
    ensures Ordered(t)
  {
    forall key: LaneKey, ticket: nat | ticket < NextTicket(t, key) ensures Issued(t, key, ticket) {
      assert Issued(s, key, ticket);
      var j: nat :| Holds(s, key, ticket, j);
      assert Holds(t, key, ticket, j);
    }
  }

  lemma ReadKeeps(s: State, conn: nat, lane: Option<string>)
    requires Inv(s) && Reading(s, conn)
    ensures Inv(Do(s, Read(conn, lane)))
  {
    var t := Do(s, Read(conn, lane));
    assert t.tasks[..|s.tasks|] == s.tasks;
    ReadTickets(s, conn, lane);
    ReadIssues(s, conn, lane);
  }

  lemma ReadTickets(s: State, conn: nat, lane: Option<string>)
    requires Inv(s) && Reading(s, conn)
    ensures var t := Do(s, Read(conn, lane));
            && Bounded(t) && (forall k :: 0 <= k < |t.tasks| ==> Ticketed(t, t.tasks[k]))
            && (forall i, j :: 0 <= i < j < |t.tasks| && SameLane(t.tasks[i], t.tasks[j]) ==>
                t.tasks[i].ticket < t.tasks[j].ticket)
  {
    hide Issued, Places;
    var t := Do(s, Read(conn, lane));
    forall k | 0 <= k < |t.tasks| ensures Ticketed(t, t.tasks[k]) {
      if k < |s.tasks| { assert Ticketed(s, s.tasks[k]); } else if lane.Some? { TurnNotAhead(s, (conn, lane.value)); }
    }
    forall i, j | 0 <= i < j < |t.tasks| && SameLane(t.tasks[i], t.tasks[j])
      ensures t.tasks[i].ticket < t.tasks[j].ticket
    {
      assert Ticketed(s, s.tasks[i]);
    }
    forall key: LaneKey ensures Turn(t, key) <= NextTicket(t, key) { assert Turn(s, key) <= NextTicket(s, key); }
  }

  lemma ReadIssues(s: State, conn: nat, lane: Option<string>)
    requires Ordered(s) && Reading(s, conn)
    ensures var t := Do(s, Read(conn, lane));
            forall key: LaneKey, ticket: nat {:trigger Issued(t, key, ticket)} :: ticket < NextTicket(t, key) ==>
                Issued(t, key, ticket)
  {
    hide Ticketed;
    var t := Do(s, Read(conn, lane));
    forall key: LaneKey, ticket: nat | ticket < NextTicket(t, key) ensures Issued(t, key, ticket) {
      if ticket < NextTicket(s, key) {
        assert Issued(s, key, ticket);
        var k: nat :| Holds(s, key, ticket, k);
        assert Holds(t, key, ticket, k);
      } else {
        assert Holds(t, key, ticket, |s.tasks|);
      }
    }
  }

  /** A lane's turn is never ahead of the tickets it has given out. */
  lemma TurnNotAhead(s: State, key: LaneKey)
    requires Ordered(s) && Bounded(s)
    ensures Turn(s, key) <= NextTicket(s, key)
  {
  }

  ghost predicate Bounded(s: State) {
    forall key: LaneKey {:trigger Turn(s, key)} :: Turn(s, key) <= NextTicket(s, key)
  }

  lemma LeaveTickets(s: State, k: nat)
    requires Ordered(s) && Bounded(s) && k < |s.tasks| && s.tasks[k].phase.Running?
    ensures var t := Do(s, Leave(k));
            Bounded(t) && forall j :: 0 <= j < |t.tasks| ==> Ticketed(t, t.tasks[j])
  {
    var t := Do(s, Leave(k));
    assert Ticketed(s, s.tasks[k]);
    forall j | 0 <= j < |t.tasks| ensures Ticketed(t, t.tasks[j]) {
      assert Ticketed(s, s.tasks[j]);
      if j < k && SameLane(s.tasks[j], s.tasks[k]) { assert s.tasks[j].ticket < s.tasks[k].ticket; }
      if k < j && SameLane(s.tasks[k], s.tasks[j]) { assert s.tasks[k].ticket < s.tasks[j].ticket; }
    }
    forall key: LaneKey ensures Turn(t, key) <= NextTicket(t, key) { assert Turn(s, key) <= NextTicket(s, key); }
  }

  lemma StepKeeps(s: State, step: Step)
    requires Inv(s) && Enabled(s, step)
    ensures Inv(Do(s, step))
  {
    hide Ordered, Places, Ticketed;
    var t := Do(s, step);
    match step
    case Read(conn, lane) => ReadKeeps(s, conn, lane);
    case Begin(k) => PhaseKeeps(s, t, k, Admitted); PlacesMoved(s.tasks, k, t.tasks[k]);
    case Refuse(k) => PhaseKeeps(s, t, k, Refused); PlacesMoved(s.tasks, k, t.tasks[k]);
    case Enter(k) => PhaseKeeps(s, t, k, Running); PlacesMoved(s.tasks, k, t.tasks[k]);
    case Leave(k) =>
      LeaveTickets(s, k);
      MovedKeeps(s, t, k, Leaving);
      PlacesMoved(s.tasks, k, t.tasks[k]);
    case Drop(k) => PhaseKeeps(s, t, k, Gone); PlacesMoved(s.tasks, k, t.tasks[k]);
    case Close => ClosedKeeps(s);
  }

  lemma ClosedKeeps(s: State)
    requires Inv(s)
    ensures Inv(s.(accepting := false))
  {
    var t := s.(accepting := false);
    forall k | 0 <= k < |t.tasks| ensures Ticketed(t, t.tasks[k]) { assert Ticketed(s, s.tasks[k]); }
    forall key: LaneKey, ticket: nat | ticket < NextTicket(t, key) ensures Issued(t, key, ticket) {
      assert Issued(s, key, ticket);
      var k: nat :| Holds(s, key, ticket, k);
      assert Holds(t, key, ticket, k);
    }
    forall key: LaneKey ensures Turn(t, key) <= NextTicket(t, key) { assert Turn(s, key) <= NextTicket(s, key); }
  }

  /** Changing phase without moving the lane on. */
  lemma PhaseKeeps(s: State, t: State, k: nat, phase: Phase)
    requires Ordered(s) && Bounded(s) && k < |s.tasks|
    requires t.tasks == s.tasks[k := s.tasks[k].(phase := phase)] && t.next == s.next && t.turns == s.turns
    requires match s.tasks[k].phase
             case Waiting => phase.Admitted? || phase.Refused?
             case Admitted => phase.Running? && ItsTurn(s, s.tasks[k])
             case Leaving => phase.Gone?
             case _ => false
    ensures Ordered(t) && Bounded(t)
  {
    forall j | 0 <= j < |t.tasks| ensures Ticketed(t, t.tasks[j]) { assert Ticketed(s, s.tasks[j]); }
    MovedKeeps(s, t, k, phase);
    forall key: LaneKey ensures Turn(t, key) <= NextTicket(t, key) { assert Turn(s, key) <= NextTicket(s, key); }
  }

  // -------------------------------------------------------------------- runs

  /** What a daemon with this bound comes to, when these things happen in this order; what cannot happen does not. */
  function Run(limit: nat, steps: seq<Step>): State {
    if steps == [] then Begun(limit)
    else
      var before := Run(limit, steps[..|steps| - 1]);
      if Enabled(before, steps[|steps| - 1]) then Do(before, steps[|steps| - 1]) else before
  }

  lemma {:induction false} Always(limit: nat, steps: seq<Step>)
    ensures Inv(Run(limit, steps))
  {
    if steps == [] {
      assert Places([]) == 0;
    } else {
      Always(limit, steps[..|steps| - 1]);
      var before := Run(limit, steps[..|steps| - 1]);
      if Enabled(before, steps[|steps| - 1]) {
        StepKeeps(before, steps[|steps| - 1]);
      }
    }
  }

  // ------------------------------------------------------------ what it means

  /** In one lane a request runs only after every earlier one has left it. */
  lemma LanesAreFifo(limit: nat, steps: seq<Step>, i: nat, j: nat)
    requires i < j < |Run(limit, steps).tasks| && SameLane(Run(limit, steps).tasks[i], Run(limit, steps).tasks[j])
    requires var later := Run(limit, steps).tasks[j].phase; later.Running? || later.Leaving? || later.Gone?
    ensures var earlier := Run(limit, steps).tasks[i].phase; earlier.Leaving? || earlier.Gone?
  {
    Always(limit, steps);
    var s := Run(limit, steps);
    assert Ticketed(s, s.tasks[i]) && Ticketed(s, s.tasks[j]);
  }

  /** Never more requests in hand than the bound. */
  lemma NeverOverfull(limit: nat, steps: seq<Step>)
    ensures var s := Run(limit, steps); Places(s.tasks) == s.active <= limit
  {
    Always(limit, steps);
    SameLimit(limit, steps);
  }

  lemma {:induction false} SameLimit(limit: nat, steps: seq<Step>)
    ensures Run(limit, steps).limit == limit
  {
    if steps != [] {
      SameLimit(limit, steps[..|steps| - 1]);
    }
  }

  /** Can this request go on without waiting for another one's turn? */
  predicate Able(s: State, k: nat) {
    && k < |s.tasks|
    && (s.tasks[k].phase.Running? || s.tasks[k].phase.Leaving?
        || (s.tasks[k].phase.Admitted? && ItsTurn(s, s.tasks[k])))
  }

  lemma {:induction false} SomePlace(tasks: seq<Task>) returns (k: nat)
    requires Places(tasks) > 0
    ensures k < |tasks| && HasPlace(tasks[k].phase)
  {
    var last := |tasks| - 1;
    if HasPlace(tasks[last].phase) {
      k := last;
    } else {
      k := SomePlace(tasks[..last]);
    }
  }

  /**
   No deadlock, even with the gate full: while any request has a place, one that
   has a place can go on. The holder of a lane's turn is never stuck outside the
   gate behind requests waiting for it, for a reader takes its next ticket only
   once its last request is through.
   */
  lemma SomeoneIsAble(s: State) returns (k: nat)
    requires Inv(s) && s.active > 0
    ensures Able(s, k)
  {
    var a := SomePlace(s.tasks);
    var t := s.tasks[a];
    if !t.phase.Admitted? || ItsTurn(s, t) {
      return a;
    }
    assert Ticketed(s, t);
    var key := KeyOf(t);
    assert Issued(s, key, Turn(s, key));
    k :| Holds(s, key, Turn(s, key), k);
    assert Ticketed(s, s.tasks[k]);
    assert SameLane(t, s.tasks[k]);
  }

  /** Once the gate is closed and the last place given up, none is ever taken again. */
  lemma ClosedStaysEmpty(s: State, step: Step)
    requires Inv(s) && !s.accepting && s.active == 0 && Enabled(s, step)
    ensures !Do(s, step).accepting && Do(s, step).active == 0
  {
  }

  // ------------------------------------------------------------- a clean stop

  /** How much the requests in hand have still to go through. */
  function Ahead(p: Phase): nat {
    match p
    case Admitted => 3
    case Running => 2
    case Leaving => 1
    case _ => 0
  }

  function Work(tasks: seq<Task>): nat {
    if tasks == [] then 0 else Work(tasks[..|tasks| - 1]) + Ahead(tasks[|tasks| - 1].phase)
  }

  lemma {:induction false} WorkMoved(tasks: seq<Task>, k: nat, t: Task)
    requires k < |tasks|
    ensures Work(tasks[k := t]) + Ahead(tasks[k].phase) == Work(tasks) + Ahead(t.phase)
  {
    var last := |tasks| - 1;
    if k == last {
      assert tasks[k := t][..last] == tasks[..last];
    } else {
      WorkMoved(tasks[..last], k, t);
      assert tasks[k := t][..last] == tasks[..last][k := t];
    }
  }

  function NextFor(s: State, k: nat): Step
    requires k < |s.tasks|
  {
    if s.tasks[k].phase.Admitted? then Enter(k) else if s.tasks[k].phase.Running? then Leave(k) else Drop(k)
  }

  lemma AbleIsEnabled(s: State, k: nat)
    requires Inv(s) && s.active > 0 && Able(s, k)
    ensures Enabled(s, NextFor(s, k))
  {
  }

  /** What comes of these attempts, in this order, from here. */
  function Going(s: State, steps: seq<Step>): State {
    if steps == [] then s
    else
      var before := Going(s, steps[..|steps| - 1]);
      if Enabled(before, steps[|steps| - 1]) then Do(before, steps[|steps| - 1]) else before
  }

  /** Is this request's own next step attempted at some point? */
  ghost predicate Tried(s: State, steps: seq<Step>, k: nat) {
    exists i: nat :: i < |steps| && k < |Going(s, steps[..i]).tasks| && steps[i] == NextFor(Going(s, steps[..i]), k)
  }

  /** A round of a fair schedule: whoever has a place gets to try, whatever else is scheduled in between. */
  ghost predicate Fair(s: State, steps: seq<Step>) {
    forall k: nat :: k < |s.tasks| && HasPlace(s.tasks[k].phase) ==> Tried(s, steps, k)
  }

  ghost predicate FairRounds(s: State, rounds: seq<seq<Step>>)
    decreases |rounds|
  {
    rounds == [] || (Fair(s, rounds[0]) && FairRounds(Going(s, rounds[0]), rounds[1..]))
  }

  function After(s: State, rounds: seq<seq<Step>>): State
    decreases |rounds|
  {
    if rounds == [] then s else After(Going(s, rounds[0]), rounds[1..])
  }

  /** Nothing has happened to anyone who has a place. */
  ghost predicate Still(s: State, t: State) {
    && t.turns == s.turns && t.active == s.active && |s.tasks| <= |t.tasks|
    && forall k :: 0 <= k < |s.tasks| && HasPlace(s.tasks[k].phase) ==> t.tasks[k] == s.tasks[k]
  }

  /**
   With the gate closed, each step either takes work off someone who has a place, or
   leaves them all where they are.
   */
  lemma ClosedStep(s: State, step: Step)
    requires Inv(s) && !s.accepting && Enabled(s, step)
    ensures var t := Do(s, step);
            && Inv(t) && !t.accepting
            && (if step.Enter? || step.Leave? || step.Drop? then Work(t.tasks) == Work(s.tasks) - 1
                else Work(t.tasks) == Work(s.tasks) && Still(s, t))
  {
    hide Inv, ItsTurn, Work;
    StepKeeps(s, step);
    var t := Do(s, step);
    match step
    case Read(conn, lane) => WorkMore(s.tasks, t.tasks[|s.tasks|]);
    case Begin(_) =>
    case Close =>
    case Refuse(k) => WorkMoved(s.tasks, k, t.tasks[k]);
    case Enter(k) => WorkMoved(s.tasks, k, t.tasks[k]);
    case Leave(k) => WorkMoved(s.tasks, k, t.tasks[k]);
    case Drop(k) => WorkMoved(s.tasks, k, t.tasks[k]);
  }

  lemma WorkMore(tasks: seq<Task>, t: Task)
    ensures Work(tasks + [t]) == Work(tasks) + Ahead(t.phase)
  {
    assert (tasks + [t])[..|tasks|] == tasks;
  }

  lemma {:induction false} ClosedGoing(s: State, steps: seq<Step>)
    requires Inv(s) && !s.accepting
    ensures var t := Going(s, steps);
            Inv(t) && !t.accepting && (Work(t.tasks) < Work(s.tasks) || (Work(t.tasks) == Work(s.tasks) && Still(s, t)))
    decreases |steps|
  {
    hide Inv, Do, Enabled, Work;
    if steps != [] {
      var init := steps[..|steps| - 1];
      ClosedGoing(s, init);
      if Enabled(Going(s, init), steps[|steps| - 1]) {
        ClosedStep(Going(s, init), steps[|steps| - 1]);
      }
    }
  }

  lemma {:induction false} GoingOn(s: State, steps: seq<Step>, more: seq<Step>)
    ensures Going(s, steps + more) == Going(Going(s, steps), more)
    decreases |more|
  {
    if more == [] {
      assert steps + more == steps;
    } else {
      GoingOn(s, steps, more[..|more| - 1]);
      assert (steps + more)[..|steps + more| - 1] == steps + more[..|more| - 1];
    }
  }

  /** Whoever could go on still can, and goes on when it tries. */
  lemma TriedGoesOn(s: State, t: State, k: nat)
    requires Able(s, k) && s.active > 0 && Still(s, t) && Inv(t) && !t.accepting
    ensures k < |t.tasks| && Enabled(t, NextFor(t, k)) && Work(Do(t, NextFor(t, k)).tasks) < Work(t.tasks)
  {
    hide Inv, Work, Do;
    assert Able(t, k);
    AbleIsEnabled(t, k);
    ClosedStep(t, NextFor(t, k));
  }

  /** Every fair round gets some request further. */
  lemma FairRound(s: State, steps: seq<Step>)
    requires Inv(s) && !s.accepting && s.active > 0 && Fair(s, steps)
    ensures Work(Going(s, steps).tasks) < Work(s.tasks)
  {
    hide Inv, Work, Do, Still, Going, Able, Enabled, NextFor;
    var k := SomeoneIsAble(s);
    assert Tried(s, steps, k) by { AblePlace(s, k); }
    var i: nat :| i < |steps| && k < |Going(s, steps[..i]).tasks| && steps[i] == NextFor(Going(s, steps[..i]), k);
    var before := Going(s, steps[..i]);
    var after := Going(before, [steps[i]]);
    ClosedGoing(s, steps[..i]);
    if Work(before.tasks) == Work(s.tasks) {
      TriedGoesOn(s, before, k);
    }
    GoingOnce(before, steps[i]);
    ClosedGoing(before, [steps[i]]);
    ClosedGoing(after, steps[i + 1..]);
    GoingBy(s, steps, i);
  }

  lemma GoingBy(s: State, steps: seq<Step>, i: nat)
    requires i < |steps|
    ensures Going(s, steps) == Going(Going(Going(s, steps[..i]), [steps[i]]), steps[i + 1..])
  {
    hide Going;
    GoingOn(s, steps[..i], [steps[i]]);
    assert steps[..i] + [steps[i]] == steps[..i + 1];
    GoingOn(s, steps[..i + 1], steps[i + 1..]);
    assert steps[..i + 1] + steps[i + 1..] == steps;
  }

  lemma GoingOnce(s: State, step: Step)
    ensures Going(s, [step]) == if Enabled(s, step) then Do(s, step) else s
  {
    assert [step][..0] == [];
  }

  lemma AblePlace(s: State, k: nat)
    requires Able(s, k)
    ensures k < |s.tasks| && HasPlace(s.tasks[k].phase)
  {
  }

  lemma {:induction false} NoWork(tasks: seq<Task>)
    ensures Work(tasks) == 0 <==> Places(tasks) == 0
  {
    if tasks != [] {
      NoWork(tasks[..|tasks| - 1]);
    }
  }

  /**
   A shutdown never waits forever: under every fair schedule, with requests still
   being read and refused meanwhile, the daemon is empty after as many rounds as
   there were steps left to take when the gate closed.
   */
  lemma {:induction false} BarrierIsReached(s: State, rounds: seq<seq<Step>>)
    requires Inv(s) && !s.accepting && FairRounds(s, rounds) && |rounds| >= Work(s.tasks)
    ensures Inv(After(s, rounds)) && !After(s, rounds).accepting && After(s, rounds).active == 0
    decreases |rounds|
  {
    hide Work, Fair, Ordered;
    NoWork(s.tasks);
    if rounds != [] {
      ClosedGoing(s, rounds[0]);
      if s.active > 0 {
        FairRound(s, rounds[0]);
      }
      BarrierIsReached(Going(s, rounds[0]), rounds[1..]);
    }
  }

  /** So whatever happens after the barrier, the daemon stays empty. */
  lemma {:induction false} StaysEmpty(limit: nat, steps: seq<Step>, more: seq<Step>)
    requires !Run(limit, steps).accepting && Run(limit, steps).active == 0
    ensures !Run(limit, steps + more).accepting && Run(limit, steps + more).active == 0
    decreases |more|
  {
    if more == [] {
      assert steps + more == steps;
    } else {
      var init := more[..|more| - 1];
      StaysEmpty(limit, steps, init);
      assert (steps + more)[..|steps + more| - 1] == steps + init;
      Always(limit, steps + init);
      var before := Run(limit, steps + init);
      if Enabled(before, more[|more| - 1]) {
        ClosedStaysEmpty(before, more[|more| - 1]);
      }
    }
  }
}
