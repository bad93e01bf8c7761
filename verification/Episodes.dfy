/** Context recovery is bounded: what one episode may do before it is over. */
module Episodes {
  import opened Options
  import opened Session
  import opened Queues
  import opened Delivery
  import Mirrors
  import Watermarks

  function Compactions(ws: seq<Write>): nat {
    if ws == [] then 0
    else Compactions(ws[..|ws| - 1]) + (if Compacts(ws[|ws| - 1]) then 1 else 0)
  }

  predicate Compacts(w: Write) { w.Recover? && w.next.Some? && w.next.value.stage.Compacting? }

  /** A fresh native session is opened exactly where history is restarted. */
  function Rotations(ws: seq<Write>): nat {
    if ws == [] then 0 else Rotations(ws[..|ws| - 1]) + Rotation(ws[|ws| - 1])
  }

  function Rotation(w: Write): nat { if w.Recover? && w.since.Some? then 1 else 0 }

  /** How far an episode has come. */
  function Progress(r: Option<Recovery>): nat {
    if r.None? then 0 else
      match r.value.stage
      case Compacting => 1
      case Retrying => 2
      case Handoff => 3
      case Continuing => 4
      case Resuming => 5
  }

  function RotationsBy(r: Option<Recovery>): nat {
    if r.None? || r.value.stage.Compacting? || r.value.stage.Retrying? then 0
    else if r.value.stage.Handoff? then 1
    else 2
  }

  /** How often a launch found recovery's own message cut short. */
  function Relaunches(ws: seq<Write>): nat {
    if ws == [] then 0
    else Relaunches(ws[..|ws| - 1]) + (if ws[|ws| - 1] == Launched(true) then 1 else 0)
  }

  /** How often a process opened the session. */
  function Openings(ws: seq<Write>): nat {
    if ws == [] then 0 else Openings(ws[..|ws| - 1]) + (if ws[|ws| - 1].Reopen? then 1 else 0)
  }

  /** A stretch of a journal, however many processes wrote it, in which no recovery is brought to its end. */
  ghost predicate OneEpisode(journal: seq<Write>, from: nat) {
    && Legal(journal) && from <= |journal|
    && forall k :: from <= k < |journal| ==> !(journal[k].Recover? && journal[k].next.None?)
  }

  /** Does this write start a handoff where one was made already? */
  predicate MovesBack(d: Disk, w: Write) { HandsOff(w) && Progress(d.meta.recovery) >= 3 }

  predicate HandsOff(w: Write) { w.Recover? && w.next.Some? && w.next.value.stage.Handoff? }

  /** One write moves an episode on without spending more than the stage it reaches allows, or moves it back. */
  lemma Step(d: Disk, w: Write)
    requires Allowed(d, w) && !(w.Recover? && w.next.None?)
    ensures var was, now := d.meta.recovery, Apply(d, w).meta.recovery;
            && (Compacts(w) <==> was.None? && now.Some?) && (was.Some? ==> now.Some?)
            && (MovesBack(d, w) ==> d.again && Progress(now) == 3)
            && (MovesBack(d, w) ==> RotationsBy(now) == 1 && w.Recover? && w.since.Some?)
            && (!MovesBack(d, w) ==> Progress(was) <= Progress(now)
                                     && RotationsBy(now) == RotationsBy(was) + Rotation(w))
            && (Apply(d, w).cold ==> d.cold || w.Reopen?) && (w.Launched? ==> d.cold && !Apply(d, w).cold)
            && (Apply(d, w).again ==> w == Launched(true) || (d.again && !w.Recover? && !w.Reopen? && !w.Launched?))
  {
  }

  /** How often an episode may be handed off again: once for each launch that found its message cut short. */
  function Chances(d: Disk, ws: seq<Write>): nat { Relaunches(ws) + if d.again then 1 else 0 }

  /**
   From anywhere to anywhere within one episode, across every crash and reopening:
   at most one compaction, and as many fresh sessions as the stages in between say.
   Only a launch that finds recovery's own message cut short adds to that, each by
   no more than the two there can have been before it.
   */
  lemma {:induction false} Bounded(journal: seq<Write>, from: nat)
    requires OneEpisode(journal, from)
    ensures var first, last := Replay(journal[..from]), Replay(journal);
            var was, now := first.meta.recovery, last.meta.recovery;
            var spent, chances := RotationsBy(was) + Rotations(journal[from..]), Chances(first, journal[from..]);
            && Compactions(journal[from..]) == (if was.None? && now.Some? then 1 else 0) && (was.Some? ==> now.Some?)
            && RotationsBy(now) <= spent <= RotationsBy(now) + 2 * chances
            && (last.again ==> chances > 0 && spent <= RotationsBy(now) + 2 * (chances - 1))
    decreases |journal|
  {
    hide Apply, Allowed, MovesBack;
    if from == |journal| {
      assert journal[..from] == journal;
    } else {
      Shorter(journal, from);
      var init := journal[..|journal| - 1];
      Bounded(init, from);
      ColdNotAgain(init);
      Step(Replay(init), journal[|journal| - 1]);
      assert init[..from] == journal[..from];
      assert journal[from..][..|journal[from..]| - 1] == init[from..];
    }
  }

  /** Each process launches once at most, so each adds one such chance at most. */
  lemma {:induction false} RelaunchedOnce(journal: seq<Write>, from: nat)
    requires Legal(journal) && from <= |journal|
    ensures var first, last := Replay(journal[..from]), Replay(journal);
            Chances(first, journal[from..]) + (if last.cold then 1 else 0) <=
              Openings(journal[from..]) + (if first.cold || first.again then 1 else 0)
    decreases |journal|
  {
    hide Apply, Allowed;
    if from == |journal| {
      assert journal[..from] == journal;
      ColdNotAgain(journal);
    } else {
      var init := journal[..|journal| - 1];
      RelaunchedOnce(init, from);
      ColdStep(Replay(init), journal[|journal| - 1]);
      assert init[..from] == journal[..from];
      assert journal[from..][..|journal[from..]| - 1] == init[from..];
    }
  }

  /** While one process has the session there is one such chance at most. */
  lemma {:induction false} OnceByOneProcess(journal: seq<Write>, from: nat)
    requires Legal(journal) && Unbroken(journal, from)
    ensures Relaunches(journal[from..]) <= Chances(Replay(journal[..from]), journal[from..]) <= 1
  {
    forall w | w in journal[from..] ensures !w.Reopen? {
      var k :| from <= k < |journal| && journal[k] == w;
    }
    NoOpenings(journal[from..]);
    RelaunchedOnce(journal, from);
  }

  lemma {:induction false} NoOpenings(ws: seq<Write>)
    requires forall w | w in ws :: !w.Reopen?
    ensures Openings(ws) == 0
  {
    if ws != [] {
      NoOpenings(ws[..|ws| - 1]);
    }
  }

  lemma ColdStep(d: Disk, w: Write)
    requires Allowed(d, w)
    ensures var cold := Apply(d, w).cold;
            && (w.Reopen? ==> cold) && (w.Launched? ==> d.cold && !cold)
            && (!w.Reopen? && !w.Launched? ==> cold == d.cold)
            && (Apply(d, w).again ==> w == Launched(true) || (d.again && !w.Reopen? && !w.Launched?))
  {
  }

  /** Before the launch nothing has been found yet. */
  lemma {:induction false} ColdNotAgain(journal: seq<Write>)
    requires Legal(journal)
    ensures Replay(journal).cold ==> !Replay(journal).again
  {
    hide Apply, Allowed;
    if journal != [] {
      ColdNotAgain(journal[..|journal| - 1]);
      ColdStep(Replay(journal[..|journal| - 1]), journal[|journal| - 1]);
    }
  }

  lemma Shorter(journal: seq<Write>, from: nat)
    requires OneEpisode(journal, from) && from < |journal|
    ensures OneEpisode(journal[..|journal| - 1], from)
  {
    var init := journal[..|journal| - 1];
    forall k | from <= k < |init| ensures !(init[k].Recover? && init[k].next.None?) { assert init[k] == journal[k]; }
  }

  ghost predicate MovedBackBetween(journal: seq<Write>, n: nat, m: nat)
    requires m <= |journal|
  {
    exists k: nat :: n <= k < m && MovesBack(Replay(journal[..k]), journal[k])
  }

  /** ... and it never moves back a stage but where it hands off again. */
  lemma {:induction false} Forward(journal: seq<Write>, from: nat, n: nat, m: nat)
    requires OneEpisode(journal, from) && from <= n <= m <= |journal|
    requires !MovedBackBetween(journal, n, m)
    ensures Progress(Replay(journal[..n]).meta.recovery) <= Progress(Replay(journal[..m]).meta.recovery)
    decreases m
  {
    hide Apply, Allowed, MovesBack;
    if n < m {
      Watermarks.Prefix(journal, m);
      assert journal[..m][..m - 1] == journal[..m - 1];
      forall k: nat | n <= k < m - 1 ensures !MovesBack(Replay(journal[..k]), journal[k]) { assert n <= k < m; }
      Forward(journal, from, n, m - 1);
      assert n <= m - 1 < m;
      Step(Replay(journal[..m - 1]), journal[m - 1]);
    }
  }

  /** The launch of this process found recovery's message cut short, and nothing came of that yet. */
  ghost predicate FoundCutShort(journal: seq<Write>, k: nat) {
    && k < |journal| && journal[k] == Launched(true) && RecoveryCutShort(Replay(journal[..k]))
    && forall j :: k < j < |journal| ==> !journal[j].Recover? && !journal[j].Reopen? && !journal[j].Launched?
  }

  /** An episode is handed off again only by a launch that found its message taken and its turn cut short. */
  lemma {:induction false} AgainIff(journal: seq<Write>)
    requires Legal(journal)
    ensures Replay(journal).again <==> exists k: nat :: FoundCutShort(journal, k)
  {
    hide Apply, Allowed, RecoveryCutShort;
    if journal != [] {
      var last := |journal| - 1;
      var init := journal[..last];
      AgainIff(init);
      AgainStep(Replay(init), journal[last]);
      forall k: nat | k < last ensures init[..k] == journal[..k] && init[k] == journal[k] { }
      if k: nat :| FoundCutShort(journal, k) {
        if k < last { assert FoundCutShort(init, k); }
      }
      if Replay(journal).again {
        if journal[last] == Launched(true) {
          assert FoundCutShort(journal, last);
        } else {
          var k: nat :| FoundCutShort(init, k);
          assert FoundCutShort(journal, k);
        }
      }
    }
  }

  lemma AgainStep(d: Disk, w: Write)
    requires Allowed(d, w)
    ensures Apply(d, w).again <==> w == Launched(true) || (d.again && !w.Recover? && !w.Reopen? && !w.Launched?)
    ensures w == Launched(true) ==> RecoveryCutShort(d)
  {
  }

  /**
   So a handoff is made again only where a launch found recovery's message cut
   short; and there a handoff is one made again, unless it replaces a retry.
   */
  lemma MovesBackIff(journal: seq<Write>, w: Write)
    requires Legal(journal) && HandsOff(w) && Allowed(Replay(journal), w)
    ensures MovesBack(Replay(journal), w) ==> exists k: nat :: FoundCutShort(journal, k)
    ensures (exists k: nat :: FoundCutShort(journal, k)) ==>
              MovesBack(Replay(journal), w) || Replay(journal).meta.recovery.value.stage.Retrying?
  {
    hide Replay, Legal, Allowed, FoundCutShort, MovesBack, HandsOff;
    AgainIff(journal);
    AgainPast(journal);
    AgainHandsOff(Replay(journal), w);
  }

  lemma AgainHandsOff(d: Disk, w: Write)
    requires HandsOff(w) && Allowed(d, w) && (d.again ==> Progress(d.meta.recovery) >= 2)
    ensures MovesBack(d, w) ==> d.again
    ensures d.again ==> d.meta.recovery.Some? && (MovesBack(d, w) || d.meta.recovery.value.stage.Retrying?)
  {
  }

  /** A message can only be cut short once there is one. */
  lemma {:induction false} AgainPast(journal: seq<Write>)
    requires Legal(journal)
    ensures Replay(journal).again ==> Progress(Replay(journal).meta.recovery) >= 2
  {
    hide Apply, Allowed, QueueSound, OpeningsSound, FateSound;
    if journal != [] {
      var init := journal[..|journal| - 1];
      AgainPast(init);
      Always(init);
      AgainPastStep(Replay(init), journal[|journal| - 1]);
    }
  }

  lemma AgainPastStep(d: Disk, w: Write)
    requires Allowed(d, w) && RecoverySound(d)
    requires d.again ==> Progress(d.meta.recovery) >= 2
    ensures Apply(d, w).again ==> Progress(Apply(d, w).meta.recovery) >= 2
  {
  }

  // ------------------------------------------------------------ never wedged

  /** The messages still to be delivered: the queue a process finds when it opens the session. */
  function Left(d: Disk): seq<Msg> { Without(d.meta.pending, OpenedIds(d.log)) }

  /** Delivery resumes from the front, so the message recovery waits for has to be there or be delivered. */
  predicate AtFront(d: Disk) {
    d.meta.recovery.Some? && d.meta.recovery.value.messageId.Some? ==>
      var id := d.meta.recovery.value.messageId.value;
      id in OpenedIds(d.log) || (Left(d) != [] && Left(d)[0].id == id)
  }

  /** Does this write make recovery wait for a message that is queued already? */
  predicate Names(w: Write) { w.Recover? && w.next.Some? && w.next.value.messageId.Some? && w.message.None? }

  /** ... and one that is not the first to be delivered? */
  predicate NamesBehind(d: Disk, w: Write) {
    && Names(w) && w.next.value.messageId.value !in OpenedIds(d.log)
    && (Left(d) == [] || Left(d)[0].id != w.next.value.messageId.value)
  }

  lemma LeftAfter(d: Disk, w: Write)
    requires Sound(d) && Allowed(d, w) && !w.Recover? && !w.Retry?
    ensures Left(d) == Left(Apply(d, w))
              || (w.Append? && w.event.msg.Some? && Left(Apply(d, w)) == Without(Left(d), {w.event.msg.value}))
            || (w.Enqueue? && Left(Apply(d, w)) == Left(d) + [Msg(|d.issued|, w.text)])
  {
    hide RecoverySound, FateSound;
    var taken := OpenedIds(d.log);
    match w
    case Append(e) =>
      OpenedAfter(d.log, e);
      if e.msg.Some? {
        WithoutBoth(d.meta.pending, taken, {e.msg.value});
      } else {
        assert taken + {} == taken;
      }
    case Complete(id) =>
      WithoutCommutes(d.meta.pending, {id}, taken);
      WithoutBoth(d.meta.pending, taken, {id});
      assert taken + {id} == taken;
    case Reconcile =>
      WithoutBoth(d.meta.pending, taken, taken);
      assert taken + taken == taken;
    case Enqueue(text) =>
      WithoutConcat(d.meta.pending, [Msg(|d.issued|, text)], taken);
      assert |d.issued| !in taken;
    case _ =>
  }

  /** Only naming a message that queues behind another can leave a recovery that a restart cannot deliver. */
  lemma FrontKept(d: Disk, w: Write)
    requires Sound(d) && Allowed(d, w) && AtFront(d) && !NamesBehind(d, w)
    ensures AtFront(Apply(d, w))
  {
    if w.Recover? {
      FrontNamed(d, w);
    } else if !w.Retry? {
      hide QueueSound, OpeningsSound, RecoverySound, FateSound, Without;
      LeftAfter(d, w);
      if w.Append? {
        OpenedAfter(d.log, w.event);
        if w.event.msg.Some? && Left(d) != [] && Left(d)[0].id != w.event.msg.value {
          HeadStays(Left(d), w.event.msg.value);
        }
      }
    }
  }

  lemma HeadStays(ms: seq<Msg>, gone: Id)
    requires ms != [] && ms[0].id != gone
    ensures Without(ms, {gone}) != [] && Without(ms, {gone})[0] == ms[0]
  {
  }

  lemma FrontNamed(d: Disk, w: Write)
    requires Sound(d) && Allowed(d, w) && w.Recover?
    ensures !NamesBehind(d, w) <==> AtFront(Apply(d, w))
  {
    hide RecoverySound, FateSound;
    var d' := Apply(d, w);
    if w.message.Some? {
      assert |d.issued| !in OpenedIds(d.log);
      assert d'.meta.pending[0].id == |d.issued|;
    } else if w.superseded.None? {
      WithoutNone(d.meta.pending, {});
    }
  }

  /** No message of recovery's own is queued: those alone have another place on disk than in memory. */
  ghost predicate NoneOwn(d: Disk) { forall m :: m in d.meta.pending ==> m.id !in d.synth }

  /** Memory has the messages in the order of the disk. It has, unless one of recovery's own went ahead of an echo. */
  ghost predicate Straight(d: Disk, live: seq<Msg>) { NoneOwn(d) || d.meta.pending == live }

  /** Where no message of recovery's own is queued, the mirror is exact. */
  lemma StraightIs(d: Disk, live: seq<Msg>)
    requires Straight(d, live) && Mirrors.Mirror(d.meta.pending, live, d.synth)
    ensures d.meta.pending == live
  {
    if NoneOwn(d) {
      Mirrors.Members(d.meta.pending, live, d.synth);
      WithoutNone(d.meta.pending, d.synth);
      forall m | m in live ensures m.id !in d.synth { assert m in d.meta.pending; }
      WithoutNone(live, d.synth);
    }
  }

  /**
   Recovery that goes on with the head of the outbox can be taken up after a crash
   if and only if no echo is awaited then: an unconfirmed write is ahead of it on
   disk. That is so wherever memory has the order of the disk.
   */
  lemma NamedAtFrontIff(d: Disk, w: Write, awaiting: seq<Msg>, outbox: seq<Msg>)
    requires Sound(d) && Allowed(d, w) && Names(w) && outbox != [] && w.next.value.messageId.value == outbox[0].id
    requires Mirrors.Mirror(d.meta.pending, awaiting + outbox, d.synth) && Straight(d, awaiting + outbox)
    requires forall m :: m in d.meta.pending ==> m.id !in OpenedIds(d.log)
    ensures AtFront(Apply(d, w)) <==> awaiting == []
  {
    hide RecoverySound, FateSound, OpeningsSound, QueueSound, Straight, Mirrors.Mirror;
    var live := awaiting + outbox;
    StraightIs(d, live);
    WithoutNone(d.meta.pending, OpenedIds(d.log));
    FrontNamed(d, w);
    NothingTwice(d, live, |awaiting|);
    assert live[|awaiting|] == outbox[0];
    if awaiting != [] { assert live[0] == awaiting[0]; }
  }

  lemma NothingTwice(d: Disk, live: seq<Msg>, k: nat)
    requires Sound(d) && d.meta.pending == live && k < |live|
    ensures live[0].id == live[k].id <==> k == 0
  {
  }

  /**
   What a process opening the session finds: nothing can be let through exactly if the
   message waited for is not in front.
   */
  lemma ReopenedIff(d: Disk)
    requires Sound(d) && d.meta.recovery.Some? && d.meta.recovery.value.messageId.Some?
    requires d.meta.recovery.value.messageId.value !in OpenedIds(d.log)
    ensures var found := Apply(Apply(d, Reopen), Reconcile);
            && found.meta.pending == Left(d)
            && (AtFront(d) <==>
                && found.meta.pending != []
                && found.meta.recovery.value.messageId == Some(found.meta.pending[0].id))
  {
  }
}
