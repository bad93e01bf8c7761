/**
 How providers go about taking messages, and what that means for the order they
 are taken in. A provider that keeps to one way, confirms no new turn while an
 earlier one is unanswered, and is not replaced in the middle of a turn cannot
 make the conductor record one message ahead of another.
 */
module Manners {
  import opened Options
  import opened Session
  import opened Runners
  import opened Conducting
  import Delivery
  import Episodes
  import Mirrors
  import Queues

  /**
   What a runner does with a message: it opens a turn with it, or in the middle of
   one joins it to that turn or keeps it for a later one; or it only writes the
   message, and confirms it when it is read.
   */
  datatype Way = Direct | Joins | Keeps | Echoes

  /**
   What can go wrong with the order: a runner changed its way, was replaced with
   its turn still on, or confirmed a turn open while another was unanswered; or
   recovery named a message that queues behind another on disk.
   */
  datatype Slip = Mixed | Abandoned | Doubled | NamedBehind

  /** The way of each runner, by epoch, whether any of them echoes, and every slip so far. */
  datatype Habits = Habits(ways: map<nat, Way>, echoed: bool, slips: set<Slip>)

  const STRANGERS: Habits := Habits(map[], false, {})

  function WayOf(how: Runners.Delivery, inTurn: bool): Way {
    if how.Echoed? then Echoes else if !inTurn then Direct else if how.NextTurn? then Keeps else Joins
  }

  /** A turn opened says nothing yet about what will be done with the next message. */
  function Blended(was: Way, now: Way): Option<Way> {
    if was == now || (now.Direct? && !was.Echoes?) then Some(was)
    else if was.Direct? && !now.Echoes? then Some(now)
    else None
  }

  function AfterTaking(h: Habits, epoch: nat, now: Way): Habits {
    var way := if epoch in h.ways then Blended(h.ways[epoch], now) else Some(now);
    Habits(if way.Some? then h.ways[epoch := way.value] else h.ways,
           h.echoed || now.Echoes?,
           if way.Some? then h.slips else h.slips + {Mixed})
  }

  function AfterConfirming(h: Habits, l: Line, opens: bool): Habits {
    if opens && l.unanswered != [] then h.(slips := h.slips + {Doubled}) else h
  }

  function AfterParting(h: Habits, inTurn: bool): Habits {
    if inTurn then h.(slips := h.slips + {Abandoned}) else h
  }

  function AfterNaming(h: Habits, behind: bool): Habits {
    if behind then h.(slips := h.slips + {NamedBehind}) else h
  }

  function WayNow(h: Habits, epoch: Option<nat>): Option<Way> {
    if epoch.Some? && epoch.value in h.ways then Some(h.ways[epoch.value]) else None
  }

  predicate Orderly(h: Habits) { h.slips <= {NamedBehind} }

  /** Between turns nothing is outstanding; in one, the queues are as the runner's way leaves them. */
  predicate Tidy(l: Line, inTurn: bool, way: Option<Way>) {
    if !inTurn then l.awaiting == [] && l.unanswered == [] && l.nextTurns == 0
    else
      way.Some? &&
      if way.value.Echoes? then l.nextTurns == 0 && |l.unanswered| <= 1
      else l.awaiting == [] && |l.unanswered| == l.nextTurns + 1 && (!way.value.Keeps? ==> l.nextTurns == 0)
  }

  /**
   Outside recovery, as long as there was no slip, the queues are tidy and no
   message has overtaken another; and while no provider echoes, memory has
   the order of the disk and recovery never names a message behind another.
   */
  ghost predicate Mannered(rewritten: bool, h: Habits, l: Line, inTurn: bool, epoch: Option<nat>, t: Tally,
                           stopping: bool) {
    && (!rewritten && Orderly(h) ==>
          && Overtook !in t.lapses
          && (l.awaiting == [] || |l.unanswered| <= 1)
          && (!stopping ==> Tidy(l, inTurn, WayNow(h, epoch))))
    && (!h.echoed ==> l.awaiting == [] && t.aligned && NamedBehind !in h.slips)
  }

  // -------------------------------------------------------- what keeps it so

  /** What becomes of the outbox and of the accepted texts is of no concern here. */
  lemma Joined(rewritten: bool, h: Habits, l: Line, inTurn: bool, epoch: Option<nat>, t: Tally, stopping: bool, m: Msg)
    requires Mannered(rewritten, h, l, inTurn, epoch, t, stopping)
    ensures Mannered(rewritten, h, Joining(l, m), inTurn, epoch, AfterJoining(t, m), stopping)
  {
  }

  lemma Taken(rewritten: bool, h: Habits, l: Line, inTurn: bool, epoch: nat, t: Tally, how: Runners.Delivery)
    requires Mannered(rewritten, h, l, inTurn, Some(epoch), t, false) && l.outbox != [] && !how.Echoed?
    ensures var later := how.NextTurn? && inTurn;
            Mannered(rewritten, AfterTaking(h, epoch, WayOf(how, inTurn)), Delivered(l, later), true, Some(epoch),
                     AfterDelivered(t, l, later), false)
  {
  }

  /** Slips are not forgiven, and how a runner takes messages leaves what recovery named alone. */
  lemma SlipsGrow(h: Habits, epoch: nat, now: Way)
    ensures var h' := AfterTaking(h, epoch, now);
            && h.slips <= h'.slips && epoch in h'.ways && (h.echoed ==> h'.echoed)
            && (NamedBehind in h'.slips <==> NamedBehind in h.slips)
  {
  }

  lemma SlipsStay(h: Habits, l: Line, opens: bool)
    ensures NamedBehind in AfterConfirming(h, l, opens).slips <==> NamedBehind in h.slips
  {
  }

  lemma NamingSlips(h: Habits, behind: bool)
    ensures NamedBehind in AfterNaming(h, behind).slips <==> behind || NamedBehind in h.slips
  {
  }

  lemma WrittenOut(rewritten: bool, h: Habits, l: Line, inTurn: bool, epoch: nat, t: Tally)
    requires Mannered(rewritten, h, l, inTurn, Some(epoch), t, false) && l.outbox != []
    ensures Mannered(rewritten, AfterTaking(h, epoch, Echoes), Written(l), true, Some(epoch), t, false)
  {
  }

  lemma Confirmed(rewritten: bool, h: Habits, l: Line, inTurn: bool, epoch: Option<nat>, t: Tally, stopping: bool,
                  opens: bool)
    requires Mannered(rewritten, h, l, inTurn, epoch, t, stopping) && l.awaiting != []
    ensures Mannered(rewritten, AfterConfirming(h, l, opens), Echo(l, opens), true, epoch, AfterEcho(t, l, opens),
                     stopping)
  {
  }

  /** An END answers the oldest turn; what is left says whether another is on. */
  lemma TurnOver(rewritten: bool, h: Habits, l: Line, inTurn: bool, epoch: Option<nat>, t: Tally)
    requires Mannered(rewritten, h, l, inTurn, epoch, t, false)
    ensures l.nextTurns > 0 ==>
              Mannered(rewritten, h, Answered(l).(nextTurns := l.nextTurns - 1), true, epoch, AfterAnswered(t, l),
                       false)
    ensures l.nextTurns == 0 ==> Mannered(rewritten, h, Answered(l), l.awaiting != [], epoch, AfterAnswered(t, l),
                                          false)
  {
  }

  lemma Closed(rewritten: bool, h: Habits, l: Line, inTurn: bool, epoch: Option<nat>, t: Tally, stopping: bool,
          back: seq<Msg>, retry: bool, recovering: bool)
    requires Mannered(rewritten, h, l, inTurn, epoch, t, stopping)
    ensures Mannered(rewritten, h, Requeued(l, back), false, None, AfterClose(t, l, retry, recovering), stopping)
  {
  }

  /** A runner is let go: between turns nothing is outstanding, and in the middle of one that is a slip. */
  lemma Parted(rewritten: bool, h: Habits, l: Line, inTurn: bool, epoch: Option<nat>, t: Tally)
    requires Mannered(rewritten, h, l, inTurn, epoch, t, false)
    ensures Mannered(rewritten, AfterParting(h, inTurn), l, inTurn, None, t, false)
    ensures Mannered(rewritten, AfterParting(h, inTurn), l, inTurn, epoch, t, false)
  {
  }

  lemma PartedAlready(h: Habits, inTurn: bool)
    ensures (inTurn ==> Abandoned in h.slips) ==> AfterParting(h, inTurn) == h
  {
    if Abandoned in h.slips { assert h.slips + {Abandoned} == h.slips; }
  }

  lemma PartedTwice(h: Habits, inTurn: bool)
    ensures AfterParting(h, false) == h
    ensures AfterParting(AfterParting(h, inTurn), inTurn) == AfterParting(h, inTurn)
  {
    assert h.slips + {Abandoned} + {Abandoned} == h.slips + {Abandoned};
  }

  /** With nobody in charge no turn is on, so anyone may take charge. */
  lemma InCharge(rewritten: bool, h: Habits, l: Line, inTurn: bool, epoch: Option<nat>, t: Tally)
    requires Mannered(rewritten, h, l, inTurn, None, t, false)
    ensures Mannered(rewritten, h, l, inTurn, epoch, t, false)
  {
  }

  /** Once the session is stopping, or rewritten by recovery, there is less to ask. */
  lemma Relaxed(rewritten: bool, h: Habits, l: Line, inTurn: bool, epoch: Option<nat>, t: Tally, stopping: bool)
    requires Mannered(rewritten, h, l, inTurn, epoch, t, stopping)
    ensures forall on, e :: Mannered(rewritten, h, l, on, e, t, true) && Mannered(true, h, l, on, e, t, stopping)
    ensures forall n :: Mannered(rewritten, h, l.(nextTurns := n), false, epoch, t, true)
    ensures forall s :: Mannered(rewritten, h, Stopped(l), inTurn, epoch, t.(steady := s), true)
    ensures Mannered(true, h, l.(unanswered := []), false, epoch, t, stopping)
  {
  }

  /** What naming the head of the outbox, or writing a message of recovery's own, does. */
  lemma RecoveryMoved(d: Disk, h: Habits, l: Line, inTurn: bool, epoch: Option<nat>, t: Tally, stopping: bool,
                      w: Write, message: Option<Msg>)
    requires Queued(d.meta.pending, d.synth, d.log, d.meta.recovery, d.rewritten, l, t)
    requires Mannered(d.rewritten, h, l, inTurn, epoch, t, stopping)
    requires w.Recover? && (Episodes.Names(w) ==> l.outbox != [] && w.next.value.messageId == Some(l.outbox[0].id))
    ensures var h' := AfterNaming(h, Episodes.NamesBehind(d, w));
            Mannered(true, h', Recovering(l, w.superseded, message), inTurn, epoch,
                     AfterRecovering(t, l, w.superseded, message), stopping)
  {
    hide InOrder, Held, OpenedIds, Mirrors.Mirror;
    if !h.echoed {
      assert Without(l.awaiting, Gone(w.superseded)) == [];
      if Episodes.Names(w) {
        assert [] + l.outbox == l.outbox && d.meta.pending == l.outbox;
        Queues.WithoutNone(d.meta.pending, OpenedIds(d.log));
        assert !Episodes.NamesBehind(d, w);
      }
    }
  }

  /** What a process starts with. */
  lemma Begun(d: Disk)
    ensures Mannered(d.rewritten, STRANGERS, OpeningLine(d.meta.pending), false, None, OpeningTally(d), false)
  {
  }

  // ------------------------------------------------------------- the whole of it

  /** The rest of what the conductor knows: what it read from disk, how far its launch came, and the turn it is in. */
  datatype Flags = Flags(
    recovery: Option<Recovery>, historyStart: nat, providers: seq<string>, launched: bool, relaunching: bool,
    inTurn: bool, turnRecorded: bool, stopping: bool)

  /** Memory agrees with the disk, and queues, crew and manners are as they should be. */
  ghost predicate Sane(d: Disk, f: Flags, c: Crew, turn: int, l: Line, t: Tally, h: Habits) {
    && f.recovery == d.meta.recovery
    && f.historyStart == d.meta.historyStart
    && d.meta.active == Some(f.providers) && d.cold == !f.launched && d.again == f.relaunching
    && (f.turnRecorded ==> f.inTurn)
    && (c.epoch.Some? && !f.stopping ==> c.runner.Some?)
    && Queued(d.meta.pending, d.synth, d.log, d.meta.recovery, d.rewritten, l, t)
    && Mannered(d.rewritten, h, l, f.inTurn, c.epoch, t, f.stopping)
    && Crewed(d, c, turn)
  }

  lemma SaneClear(d: Disk, f: Flags, c: Crew, turn: int, l: Line, t: Tally, h: Habits)
    requires Sane(d, f, c, turn, l, t, h)
    ensures !h.echoed ==> NamedBehind !in h.slips
  {
  }

  /** What a session holds when it has just been opened. */
  lemma Reopened(journal: seq<Write>, d: Disk, names: seq<string>)
    requires Stored(journal, d)
    ensures var d1 := Apply(d, Reopen);
            var d2 := Apply(d1, Reconcile);
            var d3 := Apply(d2, SetActive(names));
            && Allowed(d1, Reconcile) && Allowed(d2, SetActive(names))
            && d3.log == d.log && d3.meta.pending == Episodes.Left(d)
            && (Episodes.AtFront(d) <==> Episodes.AtFront(d1)) && (OpeningTally(d3).steady <==> Episodes.AtFront(d))
            && Sane(d3, Flags(d3.meta.recovery, d3.meta.historyStart, names, false, false, false, false, false), NOBODY,
                    LogTurn(d.log), OpeningLine(d3.meta.pending), OpeningTally(d3), STRANGERS)
  {
    hide Apply, Allowed, Stored, Queued, Crewed, Mannered, LogTurn, OpeningLine, OpeningTally, Episodes.AtFront,
        Episodes.Left;
    Reopening(journal, d, names);
    Begun(Apply(Apply(Apply(d, Reopen), Reconcile), SetActive(names)));
  }

  /** A turn is closed: its texts are written again if they are to be retried, and everything is back in line. */
  lemma TakenBack(journal: seq<Write>, d: Disk, f: Flags, c: Crew, turn: int, l: Line, t: Tally, h: Habits, retry: bool)
    requires Stored(journal, d) && Sane(d, f, c, turn, l, t, h) && (retry ==> f.recovery.None?)
    ensures var w := Retry(Flat(l.unanswered));
            var back := Back(l, retry, |d.issued|);
            var d' := if retry && l.unanswered != [] then Apply(d, w) else d;
            && (retry && l.unanswered != [] ==> Allowed(d, w))
            && Requeued(l, back) == Line(back + (l.awaiting + l.outbox), [], [], 0)
            && (!retry || l.unanswered == [] ==> Requeued(l, back) == Line(l.awaiting + l.outbox, [], [], 0))
            && d'.log == d.log && d'.meta == d.meta.(pending := back + d.meta.pending)
            && Sane(d', f.(inTurn := false, turnRecorded := false), c.(runner := None, epoch := None), turn,
                    Requeued(l, back),
                    AfterClose(t, l, retry, f.recovery.Some?), h)
  {
    hide Apply, Allowed, Stored, Queued, Crewed, Mannered, LogTurn, Stamp, Flat, AfterClose;
    Closed(d.rewritten, h, l, f.inTurn, c.epoch, t, f.stopping, Back(l, retry, |d.issued|), retry, f.recovery.Some?);
    if retry && l.unanswered != [] {
      TurnsRetried(journal, d, l, t, c, turn);
      AfterRetry(d, Flat(l.unanswered));
    } else {
      AwaitingReturned(d, l, t, c, turn, retry);
    }
  }

  /** The head of the outbox is taken there and then, in two writes. */
  lemma TakenAtOnce(journal: seq<Write>, d: Disk, f: Flags, c: Crew, turn: int, l: Line, t: Tally, h: Habits,
                    nextTurn: bool)
    requires Stored(journal, d) && Sane(d, f, c, turn, l, t, h) && !f.stopping
    requires l.outbox != [] && c.runner.Some?
              && (f.recovery.Some? ==> f.recovery.value.messageId == Some(l.outbox[0].id))
    ensures var e := Fill(Opening(l.outbox[0], f.inTurn, turn), c, turn);
            var turn' := if f.inTurn then turn else turn + 1;
            var d1 := Apply(d, Append(e));
            var d2 := Apply(d1, Complete(l.outbox[0].id));
            var how := if nextTurn then NextTurn else Immediate;
            && Allowed(d, Append(e)) && Allowed(d1, Complete(l.outbox[0].id)) && Max(turn, e.turn) == turn'
            && c.epoch.Some?
            && Sane(d2, f.(inTurn := true, turnRecorded := true), Owning(c, turn'), turn',
                    Delivered(l, nextTurn && f.inTurn),
                    AfterDelivered(t, l, nextTurn && f.inTurn), AfterTaking(h, c.epoch.value, WayOf(how, f.inTurn)))
  {
    hide Apply, Allowed, Stored, Queued, Crewed, Mannered, LogTurn, Delivered, AfterDelivered, Owning, Opening, Fill,
        AfterTaking;
    RunnerKnown(d, c, turn);
    DirectDelivery(journal, d, l, t, c, turn, f.inTurn, nextTurn && f.inTurn);
    Taken(d.rewritten, h, l, f.inTurn, c.epoch.value, t, if nextTurn then NextTurn else Immediate);
  }

  /** The oldest unconfirmed write is confirmed, in two writes. */
  lemma TakenByEcho(journal: seq<Write>, d: Disk, f: Flags, c: Crew, turn: int, l: Line, t: Tally, h: Habits,
                    opens: bool,
                    provider: string)
    requires Stored(journal, d) && Sane(d, f, c, turn, l, t, h)
    requires l.awaiting != [] && (c.runner.Some? ==> provider == "" || provider == c.runner.value.name)
    ensures var e := Fill(Confirmation(l.awaiting[0], opens, provider, turn), c, turn);
            var turn' := if opens then turn + 1 else turn;
            var d1 := Apply(d, Append(e));
            var d2 := Apply(d1, Complete(l.awaiting[0].id));
            && Allowed(d, Append(e)) && Allowed(d1, Complete(l.awaiting[0].id)) && Max(turn, e.turn) == turn'
            && Sane(d2, f.(inTurn := true, turnRecorded := true), Owning(c, turn'), turn', Echo(l, opens),
                    AfterEcho(t, l, opens),
                    AfterConfirming(h, l, opens))
  {
    hide Apply, Allowed, Stored, Queued, Crewed, Mannered, LogTurn, Echo, AfterEcho, Owning, Confirmation, Fill,
        AfterConfirming;
    EchoedDelivery(journal, d, l, t, c, turn, opens, provider);
    Confirmed(d.rewritten, h, l, f.inTurn, c.epoch, t, f.stopping, opens);
  }

  /** A recovery record is written. */
  lemma RecoveryKept(journal: seq<Write>, d: Disk, f: Flags, c: Crew, turn: int, l: Line, t: Tally, h: Habits,
                     next: Option<Recovery>, since: Option<nat>, message: Option<string>)
    requires Stored(journal, d) && Sane(d, f, c, turn, l, t, h)
    requires StageStep(f.recovery, next, f.relaunching) && RecoverFits(d, next, since, message)
    requires since.Some? ==> c.runner.None? && c.parked == map[]
    requires message.None? && next.Some? && next.value.messageId.Some? ==>
               l.outbox != [] && next.value.messageId == Some(l.outbox[0].id)
    ensures var superseded := Superseded(f.recovery, next);
            var w := Recover(next, since, message, superseded);
            var d' := Apply(d, w);
            var minted := Minted(d, message);
            && Allowed(d, w) && d'.rewritten
            && (message.Some? ==> AtHead(Recovering(l, superseded, minted), |d.issued|, message.value))
            && Sane(d', f.(recovery := next, relaunching := false,
                           historyStart := if since.Some? then since.value else f.historyStart),
                    c, turn, Recovering(l, superseded, minted), AfterRecovering(t, l, superseded, minted),
                    AfterNaming(h, Episodes.NamesBehind(d, w)))
  {
    hide Apply, Allowed, Stored, Queued, Crewed, Mannered, LogTurn, StageStep, RecoverFits, Superseded, Recovering,
        AfterRecovering, Minted, AtHead, Episodes.NamesBehind, AfterNaming;
    var superseded := Superseded(f.recovery, next);
    RecoveryWritten(journal, d, l, t, c, turn, next, since, message);
    RecoveryMoved(d, h, l, f.inTurn, c.epoch, t, f.stopping, Recover(next, since, message, superseded),
                  Minted(d, message));
  }

  /** An END has been heard: the oldest turn is answered, and the mark moves up if none is left. */
  lemma TurnClosed(journal: seq<Write>, d: Disk, f: Flags, c: Crew, turn: int, l: Line, t: Tally, h: Habits)
    requires Stored(journal, d) && Sane(d, f, c, turn, l, t, h) && !f.stopping
    ensures var left := Answered(l).(nextTurns := if l.nextTurns > 0 then l.nextTurns - 1 else 0);
            var f' := f.(inTurn := l.nextTurns > 0 || l.awaiting != [], turnRecorded := l.nextTurns > 0);
            && Answered(l).awaiting == l.awaiting && Answered(l).outbox == l.outbox
            && Answered(l).nextTurns == l.nextTurns
            && Sane(d, f', c, turn, left, AfterAnswered(t, l), h)
            && (c.runner.Some? ==>
                  var w := Marking(c, d.log);
                  Allowed(d, w) && Sane(Apply(d, w), f', c, turn, left, AfterAnswered(t, l), h))
  {
    hide Apply, Allowed, Stored, Queued, Crewed, Mannered, LogTurn, AfterAnswered, Ceiling;
    TurnAnswered(journal, d, l, t, c, turn, if l.nextTurns > 0 then l.nextTurns - 1 else 0);
    TurnOver(d.rewritten, h, l, f.inTurn, c.epoch, t);
    assert l.nextTurns == 0 ==> Answered(l).(nextTurns := 0) == Answered(l);
  }

  /** The runner in charge takes its seed in. */
  lemma Seeded(journal: seq<Write>, d: Disk, f: Flags, c: Crew, turn: int, l: Line, t: Tally, h: Habits)
    requires Stored(journal, d) && Sane(d, f, c, turn, l, t, h) && c.runner.Some? && !c.runner.value.seed.Absorbed?
    ensures var r := c.runner.value;
            && Allowed(d, Seeds(d, c)) && (r.seed.Whole? ==> Allowed(Apply(d, Seeds(d, c)), Write.Seeded(r.name)))
            && (r.seed.Whole? ==> r.name !in TakenIn(d, c).broken)
            && Sane(TakenIn(d, c), f, Settled(c), turn, l, t, h)
  {
    hide Allowed, Stored, Queued, Crewed, Mannered, LogTurn, Seeds;
    SeedHeard(journal, d, c, turn);
  }

  /** A runner is put in charge, bound, and marked if it holds everything. */
  lemma Adopted(journal: seq<Write>, d: Disk, f: Flags, c: Crew, turn: int, l: Line, t: Tally, h: Habits,
                runner: Runner, epoch: nat, signature: Signature)
    requires Stored(journal, d) && Sane(d, f, c, turn, l, t, h) && !f.stopping && Adoptable(c, runner, epoch, signature)
    requires Trusted(d, runner) ==> HoldsUpTo(d, runner.name, runner.native, |d.log|)
    ensures var d1 := Apply(d, Bind(runner.name, runner.native, runner.seed.Absorbed?));
            var d2 := Apply(d1, MarkSynced(runner.name, |d.log| - 1));
            var d' := if runner.seed.Absorbed? then d2 else d1;
            && Allowed(d, Bind(runner.name, runner.native, runner.seed.Absorbed?))
            && (runner.seed.Absorbed? ==> Allowed(d1, MarkSynced(runner.name, |d.log| - 1)))
            && d'.log == d.log && BoundId(d'.meta, runner.name) == runner.native
            && (runner.seed.Absorbed? ==> Synced(d'.meta, runner.name) == |d.log| - 1)
            && (HoldsUpTo(d, runner.name, runner.native, |d.log|) ==>
                HoldsUpTo(d', runner.name, runner.native, |d.log| - 1))
            && Sane(d', f, Manned(c, runner, epoch, signature, turn), turn, l, t, h)
  {
    hide Apply, Allowed, Stored, Queued, Crewed, Mannered, LogTurn, HoldsUpTo, Adoptable, Manned, BoundId, Synced,
        Released;
    AdoptionWrites(journal, d, c, turn, runner, epoch, signature);
    AdoptableNow(c, runner, epoch, signature);
    InCharge(d.rewritten, h, l, f.inTurn, Some(epoch), t);
    AdoptedHolds(d, runner);
  }

  lemma AdoptedHolds(d: Disk, runner: Runner)
    ensures var d1 := Apply(d, Bind(runner.name, runner.native, runner.seed.Absorbed?));
            var d2 := Apply(d1, MarkSynced(runner.name, |d.log| - 1));
            && d1.log == d.log && d2.log == d.log
            && (HoldsUpTo(d, runner.name, runner.native, |d.log|) ==>
                  HoldsUpTo(d1, runner.name, runner.native, |d.log| - 1)
                      && HoldsUpTo(d2, runner.name, runner.native, |d.log| - 1))
  {
    if HoldsUpTo(d, runner.name, runner.native, |d.log|) {
      HoldsLess(d, runner.name, runner.native, |d.log|, |d.log| - 1);
      var d1 := Apply(d, Bind(runner.name, runner.native, runner.seed.Absorbed?));
      HoldsOn(d, Bind(runner.name, runner.native, runner.seed.Absorbed?), runner.name, runner.native, |d.log| - 1);
      HoldsOn(d1, MarkSynced(runner.name, |d.log| - 1), runner.name, runner.native, |d.log| - 1);
    }
  }
}
