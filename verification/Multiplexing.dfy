/**
 Many callers on one connection to the daemon: replies come back in any order,
 calls time out, and the connection may be lost at any moment, by the reader or
 by a caller whose write fails.
 */
module Multiplexing {
  import opened Options

  /** What a call ends with. A reply is numbered by its place on the wire and names the call it answers. */
  datatype Outcome = Answered(place: nat, id: nat) | Disconnected | TimedOut | WriteFailed

  /**
   Where a call is. It registers, then looks whether the connection is alive, then
   writes, then waits. A call whose write broke disconnects first (`Broken`), and
   whoever gives up takes its registration back before returning (`Leaving`).
   */
  datatype Phase =
    | Fresh
    | Registered
    | Writing
    | Waiting
    | Broken
    | Leaving(why: Outcome)
    | Done(outcome: Outcome)

  /** A call is known by its id; `inbox` is its channel. */
  datatype Call = Call(phase: Phase, inbox: Option<Outcome>)

  /**
   `pending` are the calls still registered. A disconnect first marks the
   connection dead, then takes the whole map (`drained`), then notifies those it
   took one by one. The reader holds at most one call it has just looked up.
   */
  datatype State = State(
    calls: seq<Call>, pending: set<nat>, alive: bool, drained: bool, notifying: set<nat>, reading: Option<(nat,
        nat)>, read: nat)

  datatype Step =
    | Register(id: nat)
    | Check(id: nat)
    | Write(id: nat, fails: bool)
    | Receive(id: nat)
    | Expire(id: nat)
    | Leave(id: nat)
    | Disconnect(broken: Option<nat>)
    | Drain
    | Notify(id: nat)
    | Reply(id: nat)
    | Hand

  function Connected(calls: nat): State {
    State(seq(calls, _ => Call(Fresh, None)), {}, true, false, {}, None, 0)
  }

  predicate Enabled(s: State, step: Step) {
    match step
    case Register(id) => id < |s.calls| && s.calls[id].phase.Fresh?
    case Check(id) => id < |s.calls| && s.calls[id].phase.Registered?
    case Write(id, _) => id < |s.calls| && s.calls[id].phase.Writing?
    case Receive(id) => id < |s.calls| && s.calls[id].phase.Waiting? && s.calls[id].inbox.Some?
    case Expire(id) => id < |s.calls| && s.calls[id].phase.Waiting?
    case Leave(id) => id < |s.calls| && s.calls[id].phase.Leaving?
    case Disconnect(broken) => broken.Some? ==> broken.value < |s.calls| && s.calls[broken.value].phase.Broken?
    case Drain => !s.alive && !s.drained
    case Notify(id) => id in s.notifying && id < |s.calls|
    case Reply(id) => s.reading.None?
    case Hand => s.reading.Some? && s.reading.value.1 < |s.calls|
  }

  function Moved(s: State, id: nat, phase: Phase): State
    requires id < |s.calls|
  {
    s.(calls := s.calls[id := s.calls[id].(phase := phase)])
  }

  /** A channel keeps what was put on it first. */
  function Posted(s: State, id: nat, what: Outcome): State
    requires id < |s.calls|
  {
    if s.calls[id].inbox.Some? then s else s.(calls := s.calls[id := s.calls[id].(inbox := Some(what))])
  }

  function Do(s: State, step: Step): State
    requires Enabled(s, step)
  {
    match step
    case Register(id) => Moved(s, id, Registered).(pending := s.pending + {id})
    case Check(id) => if s.alive then Moved(s, id, Writing) else Moved(s, id, Leaving(Disconnected))
    case Write(id, fails) => Moved(s, id, if fails then Broken else Waiting)
    case Receive(id) => Moved(s, id, Done(s.calls[id].inbox.value))
    case Expire(id) => Moved(s, id, Leaving(TimedOut))
    case Leave(id) => Moved(s, id, Done(s.calls[id].phase.why)).(pending := s.pending - {id})
    case Disconnect(broken) =>
      var dead := s.(alive := false);
      if broken.Some? then Moved(dead, broken.value, Leaving(WriteFailed)) else dead
    case Drain => s.(drained := true, notifying := s.notifying + s.pending, pending := {})
    case Notify(id) => Posted(s, id, Disconnected).(notifying := s.notifying - {id})
    case Reply(id) =>
      // Every reply read has the next place on the wire; one nobody waits for is dropped.
      var next := s.(read := s.read + 1);
      if id in s.pending then next.(pending := s.pending - {id}, reading := Some((s.read, id))) else next
    case Hand => Posted(s, s.reading.value.1, Answered(s.reading.value.0, s.reading.value.1)).(reading := None)
  }

  function Run(calls: nat, steps: seq<Step>): State {
    if steps == [] then Connected(calls)
    else
      var before := Run(calls, steps[..|steps| - 1]);
      if Enabled(before, steps[|steps| - 1]) then Do(before, steps[|steps| - 1]) else before
  }

  // ---------------------------------------------------------------- invariant

  predicate Calling(p: Phase) { !p.Fresh? && !p.Done? }

  predicate InHand(s: State, id: nat) { s.reading.Some? && s.reading.value.1 == id }

  /** Someone still has this call's end of the channel, or has used it. */
  predicate Reachable(s: State, id: nat)
    requires id < |s.calls|
  {
    id in s.pending || id in s.notifying || InHand(s, id) || s.calls[id].inbox.Some?
  }

  predicate Mine(what: Outcome, id: nat, s: State) {
    what.Answered? ==> what.id == id && what.place < s.read
  }

  predicate Tracked(s: State, id: nat)
    requires id < |s.calls|
  {
    var c := s.calls[id];
    && (id in s.pending ==> Calling(c.phase) && c.inbox.None? && id !in s.notifying && !InHand(s, id))
    && (id in s.notifying ==> c.inbox.None? && !InHand(s, id) && !c.phase.Fresh?)
    && (InHand(s, id) ==> c.inbox.None? && s.reading.value.0 < s.read && !c.phase.Fresh?)
    && (c.phase.Fresh? ==> c.inbox.None?)
    && (Calling(c.phase) ==> Reachable(s, id))
    && (c.inbox.Some? ==> Mine(c.inbox.value, id, s) && (c.inbox.value.Answered? || c.inbox.value.Disconnected?))
    && (c.phase.Done? && c.phase.outcome.Answered? ==> c.inbox == Some(c.phase.outcome))
    && (c.phase.Leaving? ==> !c.phase.why.Answered?)
    // After the map was drained, a registration still on it is one that will find the connection dead.
    && (s.drained && id in s.pending ==> c.phase.Registered? || c.phase.Leaving?)
  }

  ghost predicate Inv(s: State) {
    && (s.drained ==> !s.alive)
    && (forall id :: 0 <= id < |s.calls| ==> Tracked(s, id))
    && (forall id | id in s.pending || id in s.notifying :: id < |s.calls|)
    && (s.reading.Some? ==> s.reading.value.1 < |s.calls|)
    && Distinct(s)
  }

  /** The place on the wire a call has had its answer from, if it has. */
  function Place(s: State, id: nat): Option<nat>
    requires id < |s.calls|
  {
    var c := s.calls[id];
    if c.inbox.Some? && c.inbox.value.Answered? then Some(c.inbox.value.place)
    else if InHand(s, id) then Some(s.reading.value.0)
    else None
  }

  /** No reply has gone to two calls. */
  ghost predicate Distinct(s: State) {
    forall i, j :: 0 <= i < j < |s.calls| && Place(s, i).Some? ==> Place(s, i) != Place(s, j)
  }

  lemma StepKeeps(s: State, step: Step)
    requires Inv(s) && Enabled(s, step)
    ensures Inv(Do(s, step))
  {
    match step
    case Reply(id) => ReplyKeeps(s, id);
    case Hand => HandKeeps(s);
    case Drain => DrainKeeps(s);
    case Notify(id) => NotifyKeeps(s, id);
    case Leave(id) => LeaveKeeps(s, id);
    case _ => CallKeeps(s, step);
  }

  /** Steps a call takes on its own change nobody's place on the wire. */
  lemma CallKeeps(s: State, step: Step)
    requires Inv(s) && Enabled(s, step)
    requires step.Register? || step.Check? || step.Write? || step.Receive? || step.Expire? || step.Disconnect?
    ensures Inv(Do(s, step))
  {
    hide Distinct;
    var t := Do(s, step);
    forall id | 0 <= id < |t.calls| ensures Tracked(t, id) { assert Tracked(s, id); }
    SamePlaces(s, t);
  }

  lemma SamePlaces(s: State, t: State)
    requires Distinct(s) && |t.calls| == |s.calls| && t.reading == s.reading
    requires forall id :: 0 <= id < |s.calls| ==> t.calls[id].inbox == s.calls[id].inbox
    ensures Distinct(t)
  {
    forall id | 0 <= id < |s.calls| ensures Place(t, id) == Place(s, id) { }
  }

  lemma LeaveKeeps(s: State, id: nat)
    requires Inv(s) && Enabled(s, Leave(id))
    ensures Inv(Do(s, Leave(id)))
  {
    hide Distinct;
    var t := Do(s, Leave(id));
    forall k | 0 <= k < |t.calls| ensures Tracked(t, k) { assert Tracked(s, k); }
    SamePlaces(s, t);
  }

  lemma DrainKeeps(s: State)
    requires Inv(s) && Enabled(s, Drain)
    ensures Inv(Do(s, Drain))
  {
    hide Distinct;
    var t := Do(s, Drain);
    forall k | 0 <= k < |t.calls| ensures Tracked(t, k) { assert Tracked(s, k); }
    SamePlaces(s, t);
  }

  lemma NotifyKeeps(s: State, id: nat)
    requires Inv(s) && Enabled(s, Notify(id))
    ensures Inv(Do(s, Notify(id)))
  {
    var t := Do(s, Notify(id));
    forall k | 0 <= k < |t.calls| ensures Tracked(t, k) { assert Tracked(s, k); }
    forall k | 0 <= k < |t.calls| ensures Place(t, k) == Place(s, k) { assert Tracked(s, k); }
  }

  lemma ReplyKeeps(s: State, id: nat)
    requires Inv(s) && Enabled(s, Reply(id))
    ensures Inv(Do(s, Reply(id)))
  {
    var t := Do(s, Reply(id));
    forall k | 0 <= k < |t.calls| ensures Tracked(t, k) { assert Tracked(s, k); }
    forall k | 0 <= k < |t.calls| ensures Place(t, k) == Place(s, k) || (k == id && Place(t, k) == Some(s.read)) {
      assert Tracked(s, k);
    }
    forall k | 0 <= k < |s.calls| && Place(s, k).Some? ensures Place(s, k).value < s.read { assert Tracked(s, k); }
  }

  lemma HandKeeps(s: State)
    requires Inv(s) && Enabled(s, Hand)
    ensures Inv(Do(s, Hand))
  {
    var t := Do(s, Hand);
    assert Tracked(s, s.reading.value.1);
    forall k | 0 <= k < |t.calls| ensures Tracked(t, k) { assert Tracked(s, k); }
    forall k | 0 <= k < |t.calls| ensures Place(t, k) == Place(s, k) { assert Tracked(s, k); }
  }

  lemma {:induction false} Always(calls: nat, steps: seq<Step>)
    ensures Inv(Run(calls, steps))
  {
    if steps != [] {
      Always(calls, steps[..|steps| - 1]);
      var before := Run(calls, steps[..|steps| - 1]);
      if Enabled(before, steps[|steps| - 1]) {
        StepKeeps(before, steps[|steps| - 1]);
      }
    }
  }

  // ------------------------------------------------------------ what it means

  /** A call that succeeds got the reply with its own id, and no other call got that one. */
  lemma OwnReplyOnly(calls: nat, steps: seq<Step>, i: nat, j: nat)
    requires var s := Run(calls, steps);
             i < |s.calls| && j < |s.calls| && s.calls[i].phase.Done? && s.calls[i].phase.outcome.Answered?
    ensures var s := Run(calls, steps);
            && s.calls[i].phase.outcome.id == i
            && (j != i && s.calls[j].phase.Done? && s.calls[j].phase.outcome.Answered? ==>
                  s.calls[j].phase.outcome.place != s.calls[i].phase.outcome.place)
  {
    Always(calls, steps);
    var s := Run(calls, steps);
    assert Tracked(s, i) && Tracked(s, j);
    assert Place(s, i).Some?;
    if i < j { assert Place(s, i) != Place(s, j); }
    if j < i && Place(s, j).Some? { assert Place(s, j) != Place(s, i); }
  }

  /**
   Once a disconnect has taken the map, nobody is stranded: a call that waits has
   its answer, or it is on its way; one that has not written yet finds the
   connection dead.
   */
  lemma NobodyIsStranded(calls: nat, steps: seq<Step>, id: nat)
    requires var s := Run(calls, steps); s.drained && id < |s.calls| && s.calls[id].phase.Waiting?
    ensures var s := Run(calls, steps);
            s.calls[id].inbox.Some? || id in s.notifying || InHand(s, id)
  {
    Always(calls, steps);
    assert Tracked(Run(calls, steps), id);
  }

  ghost predicate Leads(s: State, steps: seq<Step>, end: State)
    decreases |steps|
  {
    if steps == [] then s == end else Enabled(s, steps[0]) && Leads(Do(s, steps[0]), steps[1..], end)
  }

  /** What brings a call nearer its end. */
  function Ahead(s: State, id: nat): Step
    requires id < |s.calls|
  {
    match s.calls[id].phase
    case Registered => Check(id)
    case Writing => Write(id, false)
    case Broken => Disconnect(Some(id))
    case Leaving(_) => Leave(id)
    case _ => if s.calls[id].inbox.Some? then Receive(id) else if InHand(s, id) then Hand else Notify(id)
  }

  function Distance(s: State, id: nat): nat
    requires id < |s.calls|
  {
    match s.calls[id].phase
    case Registered => 2
    case Writing => 3
    case Waiting => if s.calls[id].inbox.Some? then 1 else 2
    case Broken => 2
    case Leaving(_) => 1
    case _ => 0
  }

  lemma Nearer(s: State, id: nat)
    requires Inv(s) && s.drained && id < |s.calls| && Calling(s.calls[id].phase) && Enabled(s, Ahead(s, id))
    ensures Distance(Do(s, Ahead(s, id)), id) < Distance(s, id)
  {
    assert Tracked(s, id);
  }

  /**
   And each is a few steps from its end, none of them a timeout: what is left is the
   disconnect and the reader finishing, and its own.
   */
  lemma EveryCallEnds(s: State, id: nat) returns (steps: seq<Step>, end: State)
    requires Inv(s) && s.drained && id < |s.calls| && Calling(s.calls[id].phase)
    ensures Leads(s, steps, end) && |steps| <= Distance(s, id) <= 3
              && (forall k :: 0 <= k < |steps| ==> !steps[k].Expire?)
    ensures id < |end.calls| && end.calls[id].phase.Done?
    decreases Distance(s, id)
  {
    assert Tracked(s, id);
    var step := Ahead(s, id);
    StepKeeps(s, step);
    var t := Do(s, step);
    if t.calls[id].phase.Done? {
      steps, end := [step], t;
    } else {
      Nearer(s, id);
      steps, end := EveryCallEnds(t, id);
      steps := [step] + steps;
    }
  }
}
