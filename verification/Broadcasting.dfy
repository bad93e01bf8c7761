/**
 How a session's events reach the clients listening to it: a replay of the log
 joined to the live stream, with neither a gap nor a repeat, under every
 interleaving of the conductor, attaching and detaching clients, and
 connections that close.
 */
module Broadcasting {
  import opened Options

  /** A durable event is its log position; an unpersisted notice has no position, and is negative. */
  type Frame = int

  function Range(low: nat, high: nat): seq<int> {
    if low >= high then [] else seq(high - low, i requires 0 <= i < high - low => low + i)
  }

  /** The durable part of what was sent. */
  function Durables(frames: seq<Frame>): seq<Frame> {
    if frames == [] then []
    else Durables(frames[..|frames| - 1]) + if frames[|frames| - 1] >= 0 then [frames[|frames| - 1]] else []
  }

  lemma DurablesMore(frames: seq<Frame>, f: Frame)
    ensures Durables(frames + [f]) == Durables(frames) + if f >= 0 then [f] else []
  {
    assert (frames + [f])[..|frames|] == frames;
  }

  lemma RangeMore(low: nat, high: nat)
    requires low <= high
    ensures Range(low, high + 1) == Range(low, high) + [high]
  {
  }

  // ------------------------------------------------------- one listener's side

  /** Where a listener started, the next position it is due, and what it put on its connection. */
  datatype Ear = Ear(conn: nat, from: nat, next: nat, out: seq<Frame>)

  predicate Due(e: Ear, f: Frame) { f < 0 || f >= e.next }

  /** Told of a frame: the cursor moves past every durable one it has not had, whether or not the frame goes out. */
  function Told(e: Ear, f: Frame, sent: bool): Ear {
    if !Due(e, f) then e
    else
      var moved := if f >= 0 then e.(next := f + 1) else e;
      if sent then moved.(out := moved.out + [f]) else moved
  }

  /** A client's connection: a bounded queue in front of a socket, shut for good when it overflows. */
  class Connection {
    var open: bool
    var outbox: seq<Frame>

    constructor ()
      ensures open && outbox == []
    {
      open, outbox := true, [];
    }

    method Close()
      modifies `open
      ensures !open
    {
      open := false;
    }

    /** Live delivery never waits: a full queue closes the connection. */
    method Write(f: Frame) returns (sent: bool)
      modifies this
      ensures sent ==> open && old(open) && outbox == old(outbox) + [f]
      ensures !sent ==> !open && outbox == old(outbox)
    {
      if !open {
        return false;
      }
      var full: bool := *;
      if full {
        Close();
        return false;
      }
      outbox := outbox + [f];
      sent := true;
    }

    /** Replay waits for room, up to a deadline: `patience` retries. The frame goes out once or not at all. */
    method WriteReplay(f: Frame, patience: nat) returns (sent: bool)
      modifies this
      ensures sent ==> open && old(open) && outbox == old(outbox) + [f]
      ensures !sent ==> !open && outbox == old(outbox)
    {
      if !open {
        return false;
      }
      var left := patience;
      while true
        invariant outbox == old(outbox) && old(open)
        decreases left
      {
        var closed: bool := *; // someone else may close it meanwhile
        if closed {
          Close();
        }
        if !open {
          return false;
        }
        var full: bool := *;
        if !full {
          outbox := outbox + [f];
          return true;
        }
        if left == 0 {
          Close();
          return false;
        }
        left := left - 1;
      }
    }
  }

  /** What one connection follows of a session. */
  class Listener {
    const conn: Connection
    var next: nat
    ghost var ear: Ear

    ghost predicate Valid()
      reads this
    {
      ear.next == next
    }

    constructor (c: Connection, from: nat)
      ensures Valid() && conn == c && ear == Ear(0, from, from, [])
    {
      conn, next, ear := c, from, Ear(0, from, from, []);
    }

    /** A frame that is due goes to the connection, and any other nowhere; the cursor passes durable ones. */
    method Deliver(f: Frame) returns (ok: bool)
      requires Valid()
      modifies this, conn
      ensures Valid() && ear == Told(old(ear), f, Due(old(ear), f) && ok)
      ensures conn.outbox == old(conn.outbox) + if Due(old(ear), f) && ok then [f] else []
      ensures !ok ==> !conn.open
    {
      if f >= 0 {
        if f < next {
          return true; // nothing to send, so nothing failed
        }
        next := f + 1;
      }
      ok := conn.Write(f);
      ear := Told(ear, f, ok);
    }

    method Replay(f: Frame, patience: nat) returns (ok: bool)
      requires Valid()
      modifies this, conn
      ensures Valid() && ear == Told(old(ear), f, Due(old(ear), f) && ok)
      ensures conn.outbox == old(conn.outbox) + if Due(old(ear), f) && ok then [f] else []
      ensures !ok ==> !conn.open
    {
      if f >= 0 {
        if f < next {
          return true;
        }
        next := f + 1;
      }
      ok := conn.WriteReplay(f, patience);
      ear := Told(ear, f, ok);
    }
  }

  // ------------------------------------------------------ the session's threads

  /** The event being published, and the listeners it has still to go to. */
  datatype Publishing = Publishing(frame: Frame, left: set<nat>)

  /** The listener being attached, under the listener lock, and what it has still to be replayed. */
  datatype Attaching = Attaching(id: nat, backlog: seq<Frame>)

  /**
   `log` events are durable, of which `taken` have been handed to the sink;
   `pending` is what the conductor has recorded and not yet handed on. Listeners
   are numbered as they come; `closed` connections stay closed.
   */
  datatype State = State(
    log: nat, taken: nat, pending: seq<Frame>, publishing: Option<Publishing>,
    ears: seq<Ear>, subscribed: set<nat>, attaching: Option<Attaching>, closed: set<nat>)

  const START: State := State(0, 0, [], None, [], {}, None, {})

  /** Everything that can happen, in any order. A step that is not enabled does nothing. */
  datatype Step =
    | Append
    | Notify
    | Take
    | Deliver(id: nat, room: bool)
    | Attach(conn: nat, from: nat)
    | Replay(room: bool)
    | Subscribe
    | Detach(conn: nat)
    | Close(conn: nat)

  function OtherThan(s: State, conn: nat): set<nat> {
    set id | id in s.subscribed && id < |s.ears| && s.ears[id].conn != conn
  }

  /** A listener puts a frame on its connection, which is closed if that fails. */
  function Telling(s: State, id: nat, f: Frame, room: bool): State
    requires id < |s.ears|
  {
    var ear := s.ears[id];
    var sent := room && ear.conn !in s.closed;
    s.(ears := s.ears[id := Told(ear, f, sent)],
       closed := if Due(ear, f) && !sent then s.closed + {ear.conn} else s.closed)
  }

  function Do(s: State, step: Step): State {
    match step
    case Append => s.(log := s.log + 1, pending := s.pending + [s.log])
    case Notify => s.(pending := s.pending + [-1])
    case Take =>
      // The sink copies the listener list under its lock, so never during an attach.
      if s.publishing.Some? || s.pending == [] || s.attaching.Some? then s
      else s.(pending := s.pending[1..],
              taken := if s.pending[0] >= 0 then s.taken + 1 else s.taken,
              publishing := if s.subscribed == {} then None else Some(Publishing(s.pending[0], s.subscribed)))
    case Deliver(id, room) =>
      if s.publishing.None? || id !in s.publishing.value.left || id >= |s.ears| then s
      else
        var left := s.publishing.value.left - {id};
        Telling(s, id, s.publishing.value.frame, room)
          .(publishing := if left == {} then None else Some(s.publishing.value.(left := left)))
    case Attach(conn, from) =>
      // Replaces the connection's earlier listener, and reads the log as it is now.
      if s.attaching.Some? || conn in s.closed then s
      else s.(ears := s.ears + [Ear(conn, from, from, [])],
              subscribed := OtherThan(s, conn),
              attaching := Some(Attaching(|s.ears|, Range(from, s.log))))
    case Replay(room) =>
      if s.attaching.None? || s.attaching.value.backlog == [] || s.attaching.value.id >= |s.ears| then s
      else
        var a := s.attaching.value;
        var told := Telling(s, a.id, a.backlog[0], room);
        // A frame that did not go out ends the replay.
        told.(attaching := Some(a.(backlog := if s.ears[a.id].conn in told.closed then [] else a.backlog[1..])))
    case Subscribe =>
      if s.attaching.None? || s.attaching.value.id >= |s.ears| then s
      else
        var a := s.attaching.value;
        if s.ears[a.id].conn in s.closed then s.(attaching := None)
        else if a.backlog == [] then s.(attaching := None, subscribed := s.subscribed + {a.id})
        else s
    case Detach(conn) => if s.attaching.Some? then s else s.(subscribed := OtherThan(s, conn))
    case Close(conn) => s.(closed := s.closed + {conn})
  }

  function Run(steps: seq<Step>): State {
    if steps == [] then START else Do(Run(steps[..|steps| - 1]), steps[|steps| - 1])
  }

  // ---------------------------------------------------------------- invariant

  /** Durable frames go out in log order: these are the ones from `low` up to `high`, with notices between. */
  predicate Trail(frames: seq<Frame>, low: nat, high: nat) {
    if frames == [] then low == high
    else if frames[0] < 0 then Trail(frames[1..], low, high)
    else frames[0] == low < high && Trail(frames[1..], low + 1, high)
  }

  lemma {:induction false} TrailMore(frames: seq<Frame>, low: nat, high: nat, f: Frame)
    requires Trail(frames, low, high) && (f < 0 || f == high)
    ensures Trail(frames + [f], low, if f < 0 then high else high + 1)
  {
    if frames == [] {
      assert [] + [f] == [f];
      assert [f][1..] == [];
    } else {
      assert (frames + [f])[1..] == frames[1..] + [f];
      TrailMore(frames[1..], if frames[0] < 0 then low else low + 1, high, f);
    }
  }

  lemma {:induction false} TrailBounds(frames: seq<Frame>, low: nat, high: nat)
    requires Trail(frames, low, high)
    ensures low <= high
  {
    if frames != [] {
      TrailBounds(frames[1..], if frames[0] < 0 then low else low + 1, high);
    }
  }

  /**
   What a listener has sent is the log from where it started, without gap or repeat, cut
   short only by a closed connection.
   */
  predicate Faithful(e: Ear, log: nat, closed: bool) {
    && e.from <= e.next
    && (e.from < e.next ==> e.next <= log)
    && Durables(e.out) <= Range(e.from, e.next)
    && (!closed ==> Durables(e.out) == Range(e.from, e.next))
  }

  /** The position of the next durable frame the stream has for this listener. */
  function Position(s: State, id: nat): nat {
    if s.publishing.Some? && id in s.publishing.value.left && s.publishing.value.frame >= 0
        && s.taken > 0 then s.taken - 1 else s.taken
  }

  predicate Streaming(s: State) {
    && Trail(s.pending, s.taken, s.log)
    && (s.publishing.Some? ==>
          var p := s.publishing.value;
          && (p.frame >= 0 ==> s.taken > 0 && p.frame == s.taken - 1)
          && (forall id | id in p.left :: id < |s.ears|))
    && (forall id | id in s.subscribed :: id < |s.ears|)
  }

  predicate Caught(s: State) {
    && (forall id | id in s.subscribed :: id < |s.ears| && Position(s, id) <= s.ears[id].next)
    && (s.publishing.Some? ==> forall id | id in s.publishing.value.left ::
        id < |s.ears| && Position(s, id) <= s.ears[id].next)
  }

  predicate Attached(s: State) {
    s.attaching.Some? ==>
      var a := s.attaching.value;
      && a.id < |s.ears| && a.id !in s.subscribed
      && (s.publishing.Some? ==> a.id !in s.publishing.value.left)
      && ((a.backlog == [] && s.ears[a.id].conn in s.closed)
          || exists n: nat :: n <= s.log && s.taken <= n && Backlog(a.backlog, s.ears[a.id].next, n))
  }

  predicate Backlog(backlog: seq<Frame>, next: nat, n: nat) {
    if backlog == [] then n <= next else next < n && backlog == Range(next, n)
  }

  predicate Inv(s: State) {
    && Streaming(s) && Caught(s) && Attached(s)
    && forall id :: 0 <= id < |s.ears| ==> Faithful(s.ears[id], s.log, s.ears[id].conn in s.closed)
  }

  lemma ToldIsFaithful(e: Ear, f: Frame, log: nat, closed: bool, sent: bool)
    requires Faithful(e, log, closed) && (sent ==> !closed) && f < log
    requires f >= 0 ==> f <= e.next
    ensures Faithful(Told(e, f, sent), log, if Due(e, f) && !sent then true else closed)
  {
    if Due(e, f) {
      DurablesMore(e.out, f);
      if f >= 0 {
        RangeMore(e.from, e.next);
      }
    }
  }

  lemma Closing(e: Ear, log: nat, closed: bool)
    requires Faithful(e, log, closed)
    ensures Faithful(e, log, true) && Faithful(e, log + 1, closed)
  {
  }

  lemma TellingKeeps(s: State, id: nat, f: Frame, room: bool)
    requires forall k :: 0 <= k < |s.ears| ==> Faithful(s.ears[k], s.log, s.ears[k].conn in s.closed)
    requires id < |s.ears| && f < s.log && (f >= 0 ==> f <= s.ears[id].next)
    ensures var t := Telling(s, id, f, room);
            && |t.ears| == |s.ears| && s.closed <= t.closed
            && (forall k :: 0 <= k < |t.ears| ==> Faithful(t.ears[k], t.log, t.ears[k].conn in t.closed))
            && (forall k :: 0 <= k < |t.ears| && k != id ==> t.ears[k] == s.ears[k])
            && t.ears[id].next == (if f >= 0 && f == s.ears[id].next then f + 1 else s.ears[id].next)
            && t.ears[id].conn == s.ears[id].conn
  {
    var ear := s.ears[id];
    ToldIsFaithful(ear, f, s.log, ear.conn in s.closed, room && ear.conn !in s.closed);
    var t := Telling(s, id, f, room);
    forall k | 0 <= k < |t.ears| ensures Faithful(t.ears[k], t.log, t.ears[k].conn in t.closed) {
      if k != id { Closing(s.ears[k], s.log, s.ears[k].conn in s.closed); }
    }
  }

  lemma AppendKeeps(s: State)
    requires Inv(s)
    ensures Inv(Do(s, Append)) && Inv(Do(s, Notify))
  {
    TrailMore(s.pending, s.taken, s.log, s.log);
    TrailMore(s.pending, s.taken, s.log, -1);
    forall k | 0 <= k < |s.ears| ensures Faithful(s.ears[k], s.log + 1, s.ears[k].conn in s.closed) {
      Closing(s.ears[k], s.log, s.ears[k].conn in s.closed);
    }
  }

  lemma TakeKeeps(s: State)
    requires Inv(s)
    ensures Inv(Do(s, Take))
  {
    if s.publishing.None? && s.pending != [] && s.attaching.None? {
      var t := Do(s, Take);
      assert s.pending == [s.pending[0]] + s.pending[1..];
      forall id | id in t.subscribed ensures id < |t.ears| && Position(t, id) <= t.ears[id].next {
        assert Position(s, id) <= s.ears[id].next;
      }
    }
  }

  predicate Listening(s: State, id: nat) { id in s.subscribed || (s.publishing.Some? && id in s.publishing.value.left) }

  lemma DeliveredPosition(s: State, id: nat, room: bool, other: nat)
    requires Streaming(s) && Caught(s) && s.publishing.Some? && id in s.publishing.value.left && id < |s.ears|
              && Listening(s, other)
    ensures var t := Do(s, Deliver(id, room));
            other < |t.ears| && (Listening(t, other) ==> Position(t, other) <= t.ears[other].next)
  {
    hide Trail;
    var p, t := s.publishing.value, Do(s, Deliver(id, room));
    assert Position(s, other) <= s.ears[other].next;
    assert Position(s, id) <= s.ears[id].next;
    if other == id {
      assert t.ears[id] == Told(s.ears[id], p.frame, room && s.ears[id].conn !in s.closed);
      assert t.publishing.Some? ==> id !in t.publishing.value.left;
      assert Position(t, id) == s.taken;
    } else {
      assert t.ears[other] == s.ears[other];
      assert other in p.left ==> other in p.left - {id};
      assert Position(t, other) == Position(s, other);
    }
  }

  lemma DeliverKeeps(s: State, id: nat, room: bool)
    requires Inv(s)
    ensures Inv(Do(s, Deliver(id, room)))
  {
    if s.publishing.Some? && id in s.publishing.value.left && id < |s.ears| {
      hide Faithful, Trail, Position;
      var p := s.publishing.value;
      TrailBounds(s.pending, s.taken, s.log);
      OldEnough(s, id);
      TellingKeeps(s, id, p.frame, room);
      var t := Do(s, Deliver(id, room));
      forall other: nat | Listening(t, other) ensures other < |t.ears| && Position(t, other) <= t.ears[other].next {
        assert Listening(s, other);
        DeliveredPosition(s, id, room, other);
      }
      assert forall other: nat | other in t.subscribed :: Listening(t, other);
      if t.publishing.Some? { assert forall other: nat | other in t.publishing.value.left :: Listening(t, other); }
      assert Attached(t);
    }
  }

  lemma OldEnough(s: State, id: nat)
    requires Streaming(s) && Caught(s) && s.publishing.Some? && id in s.publishing.value.left
    ensures id < |s.ears| && (s.publishing.value.frame >= 0 ==>
                              s.publishing.value.frame <= s.ears[id].next && s.publishing.value.frame < s.taken)
  {
    hide Trail;
    assert Position(s, id) <= s.ears[id].next;
  }

  lemma AttachKeeps(s: State, conn: nat, from: nat)
    requires Inv(s)
    ensures Inv(Do(s, Attach(conn, from)))
  {
    if s.attaching.None? && conn !in s.closed {
      TrailBounds(s.pending, s.taken, s.log);
      var t := Do(s, Attach(conn, from));
      var ear := Ear(conn, from, from, []);
      assert Range(from, from) == [];
      assert Faithful(ear, s.log, false);
      forall k | 0 <= k < |t.ears| ensures Faithful(t.ears[k], t.log, t.ears[k].conn in t.closed) {
        if k < |s.ears| { assert t.ears[k] == s.ears[k]; }
      }
      assert Range(from, s.log) == [] <==> s.log <= from;
      assert t.ears[|s.ears|] == ear;
      assert Backlog(t.attaching.value.backlog, t.ears[t.attaching.value.id].next, s.log);
      assert Attached(t);
      forall id | id in t.subscribed ensures id < |t.ears| && Position(t, id) <= t.ears[id].next {
        assert Position(s, id) <= s.ears[id].next;
      }
      if t.publishing.Some? {
        forall id | id in t.publishing.value.left ensures id < |t.ears| && Position(t, id) <= t.ears[id].next {
          assert Position(s, id) <= s.ears[id].next;
        }
      }
    }
  }

  lemma BacklogNext(backlog: seq<Frame>, next: nat, n: nat)
    requires backlog != [] && Backlog(backlog, next, n)
    ensures backlog[0] == next < n && Backlog(backlog[1..], next + 1, n)
  {
    assert backlog[1..] == Range(next + 1, n);
  }

  /** Replaying to a listener that is not subscribed yet leaves everyone else where they were. */
  lemma OthersCaught(s: State, t: State, id: nat)
    requires Caught(s) && id !in s.subscribed && (s.publishing.Some? ==> id !in s.publishing.value.left)
    requires t.publishing == s.publishing && t.subscribed == s.subscribed && t.taken == s.taken && |t.ears| == |s.ears|
    requires forall k :: 0 <= k < |t.ears| && k != id ==> t.ears[k] == s.ears[k]
    ensures Caught(t)
  {
    forall other | other in t.subscribed ensures other < |t.ears| && Position(t, other) <= t.ears[other].next {
      assert Position(s, other) <= s.ears[other].next;
    }
    if t.publishing.Some? {
      forall other | other in t.publishing.value.left
        ensures other < |t.ears| && Position(t, other) <= t.ears[other].next
      {
        assert Position(s, other) <= s.ears[other].next;
      }
    }
  }

  lemma ReplayKeeps(s: State, room: bool)
    requires Inv(s)
    ensures Inv(Do(s, Replay(room)))
  {
    if s.attaching.Some? && s.attaching.value.backlog != [] {
      hide Faithful, Trail, Backlog, Caught, Told;
      var a := s.attaching.value;
      var t := Do(s, Replay(room));
      var n: nat :| n <= s.log && s.taken <= n && Backlog(a.backlog, s.ears[a.id].next, n);
      BacklogNext(a.backlog, s.ears[a.id].next, n);
      TellingKeeps(s, a.id, a.backlog[0], room);
      assert Backlog(a.backlog[1..], s.ears[a.id].next + 1, n);
      OthersCaught(s, t, a.id);
    }
  }

  lemma SubscribeKeeps(s: State)
    requires Inv(s)
    ensures Inv(Do(s, Subscribe))
  {
    hide Faithful, Trail;
    var t := Do(s, Subscribe);
    forall id | id in t.subscribed ensures id < |t.ears| && Position(t, id) <= t.ears[id].next {
      if id in s.subscribed { assert Position(s, id) <= s.ears[id].next; }
    }
  }

  lemma LeaveKeeps(s: State, conn: nat)
    requires Inv(s)
    ensures Inv(Do(s, Detach(conn))) && Inv(Do(s, Close(conn)))
  {
    hide Faithful, Trail, Backlog;
    var t := Do(s, Close(conn));
    forall k | 0 <= k < |t.ears| ensures Faithful(t.ears[k], t.log, t.ears[k].conn in t.closed) {
      Closing(s.ears[k], s.log, s.ears[k].conn in s.closed);
    }
    forall id | id in t.subscribed ensures id < |t.ears| && Position(t, id) <= t.ears[id].next {
      assert Position(s, id) <= s.ears[id].next;
    }
    var u := Do(s, Detach(conn));
    forall id | id in u.subscribed ensures id < |u.ears| && Position(u, id) <= u.ears[id].next {
      assert Position(s, id) <= s.ears[id].next;
    }
  }

  lemma StepKeeps(s: State, step: Step)
    requires Inv(s)
    ensures Inv(Do(s, step))
  {
    hide Inv, Do;
    match step
    case Append => AppendKeeps(s);
    case Notify => AppendKeeps(s);
    case Take => TakeKeeps(s);
    case Deliver(id, room) => DeliverKeeps(s, id, room);
    case Attach(conn, from) => AttachKeeps(s, conn, from);
    case Replay(room) => ReplayKeeps(s, room);
    case Subscribe => SubscribeKeeps(s);
    case Detach(conn) => LeaveKeeps(s, conn);
    case Close(conn) => LeaveKeeps(s, conn);
  }

  lemma {:induction false} Always(steps: seq<Step>)
    ensures Inv(Run(steps))
  {
    if steps != [] {
      Always(steps[..|steps| - 1]);
      StepKeeps(Run(steps[..|steps| - 1]), steps[|steps| - 1]);
    }
  }

  // ------------------------------------------------------------ what it means

  /**
   Under every interleaving, what a listener puts on its connection is the log
   from where it asked to start: consecutive, in order, each position once.
   */
  lemma NoGapNoRepeat(steps: seq<Step>, id: nat)
    requires id < |Run(steps).ears|
    ensures var s := Run(steps);
            var sent := Durables(s.ears[id].out);
            |sent| <= (if s.log > s.ears[id].from then s.log - s.ears[id].from else 0)
            && forall k :: 0 <= k < |sent| ==> sent[k] == s.ears[id].from + k
  {
    Always(steps);
    var s := Run(steps);
    assert Faithful(s.ears[id], s.log, s.ears[id].conn in s.closed);
  }

  /** And nothing is missing: once the conductor has published everything, an open subscriber has had it all. */
  lemma NothingMissing(steps: seq<Step>, id: nat)
    requires var s := Run(steps);
             id in s.subscribed && id < |s.ears| && s.ears[id].conn !in s.closed && s.pending == []
                 && s.publishing.None?
    ensures var s := Run(steps);
            Durables(s.ears[id].out) == Range(s.ears[id].from, s.log)
  {
    Always(steps);
    var s := Run(steps);
    assert Position(s, id) == s.log <= s.ears[id].next;
    assert Faithful(s.ears[id], s.log, false);
  }

  lemma ClosedIsFinal(s: State, step: Step, id: nat)
    requires id < |s.ears| && s.ears[id].conn in s.closed
    ensures var t := Do(s, step);
            id < |t.ears| && t.ears[id].out == s.ears[id].out && t.ears[id].conn == s.ears[id].conn
                && s.ears[id].conn in t.closed
  {
  }

  /** The first frame that is dropped is the end: nothing ever follows it on that connection. */
  lemma {:induction false} NothingAfterADrop(steps: seq<Step>, more: seq<Step>, id: nat)
    requires id < |Run(steps).ears| && Run(steps).ears[id].conn in Run(steps).closed
    ensures id < |Run(steps + more).ears| && Run(steps + more).ears[id].out == Run(steps).ears[id].out
    ensures Run(steps + more).ears[id].conn in Run(steps + more).closed
    decreases |more|
  {
    if more == [] {
      assert steps + more == steps;
    } else {
      var init := more[..|more| - 1];
      NothingAfterADrop(steps, init, id);
      assert (steps + more)[..|steps + more| - 1] == steps + init;
      ClosedIsFinal(Run(steps + init), more[|more| - 1], id);
    }
  }

  // ------------------------------------------------------------ without notices

  function MutedEar(e: Ear): Ear { e.(out := Durables(e.out)) }

  /** The same state, had there been no notices. */
  function Muted(s: State): State {
    s.(pending := Durables(s.pending),
       publishing := if s.publishing.Some? && s.publishing.value.frame < 0 then None else s.publishing,
       ears := seq(|s.ears|, i requires 0 <= i < |s.ears| => MutedEar(s.ears[i])))
  }

  predicate Delivers(s: State, id: nat) { s.publishing.Some? && id in s.publishing.value.left && id < |s.ears| }

  predicate Takes(s: State) { s.publishing.None? && s.pending != [] && s.attaching.None? }

  /**
   What is left of a step without notices. Passing one on is nothing at all, unless
   its connection had no room for it: then what is left is that connection closing.
   */
  function MutedStep(s: State, step: Step): seq<Step> {
    match step
    case Notify => []
    case Take => if Takes(s) && s.pending[0] >= 0 then [Take] else []
    case Deliver(id, room) =>
      if !Delivers(s, id) then []
      else if s.publishing.value.frame >= 0 then [step]
      else if room && s.ears[id].conn !in s.closed then []
      else [Close(s.ears[id].conn)]
    case _ => [step]
  }

  function MutedSteps(steps: seq<Step>): seq<Step> {
    if steps == [] then []
    else
      var init := steps[..|steps| - 1];
      MutedSteps(init) + MutedStep(Run(init), steps[|steps| - 1])
  }

  lemma {:induction false} DurablesFront(frames: seq<Frame>)
    requires frames != []
    ensures Durables(frames) == (if frames[0] >= 0 then [frames[0]] else []) + Durables(frames[1..])
  {
    if |frames| > 1 {
      var init := frames[..|frames| - 1];
      DurablesFront(init);
      assert frames[1..][..|frames| - 2] == init[1..];
    }
  }

  lemma MutedTelling(s: State, id: nat, f: Frame, room: bool)
    requires id < |s.ears| && f >= 0
    ensures Muted(Telling(s, id, f, room)) == Telling(Muted(s), id, f, room)
  {
    DurablesMore(s.ears[id].out, f);
    assert Muted(Telling(s, id, f, room)).ears == Telling(Muted(s), id, f, room).ears;
  }

  lemma MutedNotice(s: State, id: nat, room: bool)
    requires Delivers(s, id) && s.publishing.value.frame < 0
    ensures var t := Do(s, Deliver(id, room));
            Muted(t) == if room && s.ears[id].conn !in s.closed then Muted(s) else Do(Muted(s), Close(s.ears[id].conn))
  {
    var f, t := s.publishing.value.frame, Do(s, Deliver(id, room));
    var sent := room && s.ears[id].conn !in s.closed;
    DurablesMore(s.ears[id].out, f);
    assert Durables(s.ears[id].out + [f]) == Durables(s.ears[id].out);
    assert t.ears[id] == Told(s.ears[id], f, sent) && MutedEar(t.ears[id]) == MutedEar(s.ears[id]);
    assert Muted(t).ears == Muted(s).ears;
  }

  lemma MutedTake(s: State)
    requires Takes(s)
    ensures Muted(Do(s, Take)) == if s.pending[0] >= 0 then Do(Muted(s), Take) else Muted(s)
  {
    DurablesFront(s.pending);
    assert Muted(Do(s, Take)).ears == Muted(s).ears;
    assert s.pending[0] >= 0 ==> ([s.pending[0]] + Durables(s.pending[1..]))[1..] == Durables(s.pending[1..]);
  }

  lemma MutedReplay(s: State, room: bool)
    requires s.attaching.Some? && s.attaching.value.id < |s.ears|
    requires s.attaching.value.backlog != [] && s.attaching.value.backlog[0] >= 0
    ensures Muted(Do(s, Replay(room))) == Do(Muted(s), Replay(room))
  {
    var a := s.attaching.value;
    MutedTelling(s, a.id, a.backlog[0], room);
  }

  lemma MutedAlike(s: State, step: Step)
    requires Inv(s)
    ensures var muted := MutedStep(s, step);
            Muted(Do(s, step)) == if muted == [] then Muted(s) else Do(Muted(s), muted[0])
  {
    hide Trail, Faithful, Backlog, Durables;
    match step
    case Append => DurablesMore(s.pending, s.log);
    case Notify => DurablesMore(s.pending, -1);
    case Take => if Takes(s) { MutedTake(s); }
    case Deliver(id, room) =>
      if Delivers(s, id) {
        if s.publishing.value.frame >= 0 {
          MutedTelling(s, id, s.publishing.value.frame, room);
        } else {
          MutedNotice(s, id, room);
        }
      }
    case Attach(conn, from) =>
      assert OtherThan(Muted(s), conn) == OtherThan(s, conn);
      MutedAttach(s, conn, from);
    case Replay(room) =>
      if s.attaching.Some? && s.attaching.value.backlog != [] {
        BacklogDurable(s);
        MutedReplay(s, room);
      }
    case Subscribe =>
    case Detach(conn) => assert OtherThan(Muted(s), conn) == OtherThan(s, conn);
    case Close(conn) =>
  }

  lemma MutedAttach(s: State, conn: nat, from: nat)
    requires OtherThan(Muted(s), conn) == OtherThan(s, conn)
    ensures Muted(Do(s, Attach(conn, from))) == Do(Muted(s), Attach(conn, from))
  {
    assert Durables([]) == [];
    assert Muted(Do(s, Attach(conn, from))).ears == Do(Muted(s), Attach(conn, from)).ears;
  }

  lemma BacklogDurable(s: State)
    requires Attached(s) && s.attaching.Some? && s.attaching.value.backlog != []
    ensures s.attaching.value.id < |s.ears| && s.attaching.value.backlog[0] >= 0
  {
    var a := s.attaching.value;
    var n: nat :| n <= s.log && s.taken <= n && Backlog(a.backlog, s.ears[a.id].next, n);
  }

  /**
   Notices never get between a listener and the log: whatever the interleaving,
   every listener's cursor, every connection and all durable output are what they
   would have been without notices, but that a notice a connection had no room for
   has closed it.
   */
  lemma {:induction false} NoticesMoveNothing(steps: seq<Step>)
    ensures Run(MutedSteps(steps)) == Muted(Run(steps))
    ensures Notify !in MutedSteps(steps)
    ensures |Run(MutedSteps(steps)).ears| == |Run(steps).ears|
    ensures forall id :: 0 <= id < |Run(steps).ears| ==>
              var with, without := Run(steps).ears[id], Run(MutedSteps(steps)).ears[id];
              without.next == with.next && without.out == Durables(with.out)
  {
    hide Do, Inv, Muted, Durables, MutedStep;
    if steps == [] {
      MutedStart();
    } else {
      var init, step := steps[..|steps| - 1], steps[|steps| - 1];
      NoticesMoveNothing(init);
      Always(init);
      MutedAlike(Run(init), step);
      OneAtMost(Run(init), step);
      OnceMore(MutedSteps(init), MutedStep(Run(init), step));
    }
    MutedEars(Run(steps));
  }

  lemma MutedStart()
    ensures Muted(START) == START
  {
    assert Muted(START).ears == START.ears;
  }

  lemma MutedEars(s: State)
    ensures |Muted(s).ears| == |s.ears|
    ensures forall id :: 0 <= id < |s.ears| ==>
              Muted(s).ears[id].next == s.ears[id].next && Muted(s).ears[id].out == Durables(s.ears[id].out)
  {
  }

  lemma OneAtMost(s: State, step: Step)
    ensures |MutedStep(s, step)| <= 1 && Notify !in MutedStep(s, step)
  {
  }

  lemma OnceMore(steps: seq<Step>, more: seq<Step>)
    requires |more| <= 1
    ensures Run(steps + more) == if more == [] then Run(steps) else Do(Run(steps), more[0])
  {
    if more == [] {
      assert steps + more == steps;
    } else {
      assert (steps + more)[..|steps + more| - 1] == steps;
    }
  }
}
