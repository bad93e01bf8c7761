/**
 What holds of a chat between any two things that happen to it, said of its
 values rather than of the object that carries them.
 */
module Conducting {
  import opened Options
  import opened Session
  import opened Runners
  import Queues
  import Mirrors
  import Delivery
  import Watermarks
  import Turns
  import Episodes
  import Transcripts

  /** A message handed to a runner, and the recovery that was active at the time. */
  datatype Hand = Hand(id: Id, recovery: Option<Recovery>)

  /**
   What a runner reports. A confirmation says a message was consumed, and as
   what; anything else is an event for the log, unnumbered and unlabelled.
   `otherServer` is set when the shared server that produced it was replaced.
   */
  datatype Heard =
    | Confirmed(text: string, opening: Option<Kind>, provider: string, epoch: nat, otherServer: bool)
    | Reported(event: Event, provider: string, epoch: nat, otherServer: bool)

  predicate Unnumbered(e: Event) {
    !Opens(e) && e.msg.None? && e.turn == -1 && !e.late
  }

  predicate WellFormed(h: Heard) {
    h.Reported? ==> Unnumbered(h.event) && h.event.provider == h.provider
  }

  function Plain(kind: Kind, provider: string, text: string): Event {
    Event(kind, text, provider, -1, false, None, Other, false, false, false)
  }

  function Failed(why: Failure, provider: string, text: string): Event {
    Plain(Error, provider, text).(failure := why)
  }

  /** An event with what the conductor knows filled in: who is running, and which turn it is. */
  function Fill(e: Event, c: Crew, turn: int): Event {
    var named := if e.provider == "" && c.runner.Some? then e.(provider := c.runner.value.name) else e;
    if named.turn < 0 then named.(turn := turn) else named
  }

  /** Is the sender not the runner in charge, but one replaced? */
  predicate Straggles(c: Crew, provider: string, epoch: nat, otherServer: bool) {
    || c.epoch != Some(epoch)
    || (c.runner.Some? && ((provider != "" && provider != c.runner.value.name) || otherServer))
  }

  /** The provider an event is laid to: by name, or by being in charge. */
  function Blamed(c: Crew, provider: string): string {
    if provider != "" then provider else if c.runner.Some? then c.runner.value.name else ""
  }

  /** The disk once an event is logged, filled in. */
  function Recorded(d: Disk, e: Event, c: Crew, turn: int): Disk { Apply(d, Append(Fill(e, c, turn))) }

  function Flat(groups: seq<seq<string>>): seq<string> {
    if groups == [] then [] else groups[0] + Flat(groups[1..])
  }

  function Texts(ms: seq<Msg>): seq<string> {
    if ms == [] then [] else [ms[0].text] + Texts(ms[1..])
  }

  lemma {:induction false} FlatConcat(a: seq<seq<string>>, b: seq<seq<string>>)
    ensures Flat(a + b) == Flat(a) + Flat(b)
  {
    if a == [] {
      assert a + b == b;
    } else {
      assert (a + b)[1..] == a[1..] + b;
      FlatConcat(a[1..], b);
    }
  }

  lemma {:induction false} TextsConcat(a: seq<Msg>, b: seq<Msg>)
    ensures Texts(a + b) == Texts(a) + Texts(b)
  {
    if a == [] {
      assert a + b == b;
    } else {
      assert (a + b)[1..] == a[1..] + b;
      TextsConcat(a[1..], b);
    }
  }

  lemma {:induction false} TextsOfStamp(texts: seq<string>, next: Id)
    ensures Texts(Stamp(texts, next)) == texts
  {
    if texts != [] {
      TextsOfStamp(texts[1..], next + 1);
    }
  }

  /** The one rule of delivery during recovery: nothing while compacting, then only recovery's own message. */
  predicate Permitted(h: Hand) {
    h.recovery.Some? ==> !h.recovery.value.stage.Compacting? && h.recovery.value.messageId == Some(h.id)
  }

  /** How much recovery is still to come, for termination: a handoff cannot lead to another one. */
  function Rank(r: Option<Recovery>): nat {
    if r.None? then 3
    else if r.value.stage.Compacting? || r.value.stage.Retrying? then 2
    else 1
  }

  // --------------------------------------------------------------- invariants

  /**
   The queues. `awaiting` was written to an echoing provider and is not confirmed
   yet; `unanswered` holds delivered texts by unfinished native turn, and
   `nextTurns` counts the later native turns a provider has accepted.
   */
  datatype Line = Line(outbox: seq<Msg>, awaiting: seq<Msg>, unanswered: seq<seq<string>>, nextTurns: nat)

  /**
   The ways messages lose their order outside recovery: a turn closed without a
   retry gave its messages up, or a message was recorded ahead of one written
   before it, or under an earlier turn than the last.
   */
  datatype Lapse = GaveUp | Overtook

  /**
   What is known of the order kept so far: the texts this process accepted, those
   whose turn has ended, the lapses there have been, whether memory matches the
   disk order and all (`aligned`), and whether the message recovery waits for was
   in reach when this process took over (`steady`).
   */
  datatype Tally = Tally(accepted: seq<string>, closed: seq<string>, lapses: set<Lapse>, aligned: bool, steady: bool)

  /**
   Nothing accepted is forgotten, no lapse is forgiven, with failover on no turn is
   given up, and the message recovery waits for stays in reach until it is `over`.
   */
  predicate Kept(was: Tally, now: Tally, autoremove: bool, over: bool) {
    && now.accepted == was.accepted && was.closed <= now.closed
    && was.lapses <= now.lapses
    && (autoremove && GaveUp in now.lapses ==> GaveUp in was.lapses)
    && (was.steady ==> over || now.steady)
  }

  /** A turn closed in the middle of recovery loses sight of recovery's message until the next one is written. */
  function Loose(t: Tally): Tally { t.(steady := false) }

  /** The runner in charge, every epoch given out, the parked runners, and how far marks may rise. */
  datatype Crew = Crew(
    runner: Option<Runner>, epoch: Option<nat>, next: nat, turns: map<nat, int>,
    ceiling: Option<int>, parked: map<string, Parked>, current: Option<Signature>)

  ghost predicate AllPermitted(handed: seq<Hand>) {
    forall k :: 0 <= k < |handed| ==> Permitted(handed[k])
  }

  /** The queue in memory mirrors the one on disk. */
  ghost predicate QueuesAgree(pending: seq<Msg>, synth: set<Id>, l: Line, t: Tally) {
    && Mirrors.Mirror(pending, l.awaiting + l.outbox, synth)
    && (t.aligned ==> pending == l.awaiting + l.outbox)
  }

  /** Every accepted text, in order: answered, being answered, awaiting its echo, or queued. */
  ghost predicate InOrder(recovery: Option<Recovery>, rewritten: bool, l: Line, t: Tally) {
    && (!rewritten && t.lapses == {} ==>
        t.accepted == t.closed + Flat(l.unanswered) + Texts(l.awaiting) + Texts(l.outbox))
    && (recovery.Some? ==> rewritten)
  }

  /** The message recovery waits for is delivered, awaiting its echo, or next in line. */
  ghost predicate Held(recovery: Option<Recovery>, log: seq<Event>, l: Line, t: Tally) {
    t.steady && recovery.Some? && recovery.value.messageId.Some? ==> Reachable(recovery.value.messageId.value, log, l)
  }

  ghost predicate Reachable(id: Id, log: seq<Event>, l: Line) {
    || id in OpenedIds(log)
    || (exists m :: m in l.awaiting && m.id == id)
    || (l.outbox != [] && l.outbox[0].id == id)
  }

  /** No queued message is in the log already. */
  ghost predicate Undelivered(pending: seq<Msg>, log: seq<Event>) {
    forall m :: m in pending ==> m.id !in OpenedIds(log)
  }

  ghost predicate Queued(pending: seq<Msg>, synth: set<Id>, log: seq<Event>, recovery: Option<Recovery>,
                         rewritten: bool, l: Line,
          t: Tally) {
    QueuesAgree(pending, synth, l, t) && Undelivered(pending, log) && InOrder(recovery, rewritten, l, t)
        && Held(recovery, log, l, t)
  }

  /**
   With no echo outstanding and no lapse, what was accepted is what ended, what is being
   answered, and what is in line.
   */
  lemma NothingAwaited(pending: seq<Msg>, synth: set<Id>, log: seq<Event>, recovery: Option<Recovery>, rewritten: bool,
          l: Line, t: Tally)
    requires Queued(pending, synth, log, recovery, rewritten, l, t) && l.awaiting == []
    ensures !rewritten && t.lapses == {} ==> t.accepted == t.closed + Flat(l.unanswered) + Texts(l.outbox)
  {
    hide QueuesAgree, Undelivered, Held;
    assert t.closed + Flat(l.unanswered) + Texts([]) == t.closed + Flat(l.unanswered);
  }

  /** The runner in charge is the conversation its provider is bound to, and is not parked as well. */
  predicate RunnerBound(meta: Meta, c: Crew) {
    c.runner.Some? ==>
      && c.epoch.Some?
      && c.runner.value.native != "" && BoundId(meta, c.runner.value.name) == c.runner.value.native
      && c.current.Some? && c.current.value.provider == c.runner.value.name
      && c.runner.value.name !in c.parked
  }

  /** Its provider's watermark can be trusted, and what it was handed has reached its conversation. */
  predicate Trusted(d: Disk, r: Runner) { r.name !in d.broken && r.seed.Absorbed? }

  /** The running conversation, if it can be trusted, holds the history up to the ceiling. */
  ghost predicate MarksAgree(d: Disk, c: Crew) {
    && Released(d)
    && (c.ceiling.Some? ==> -1 <= c.ceiling.value < |d.log|)
    && (c.runner.Some? ==>
          && Synced(d.meta, c.runner.value.name) <= Ceiling(c.ceiling, d.log)
          && (Trusted(d, c.runner.value) ==>
              HoldsUpTo(d, c.runner.value.name, c.runner.value.native, Ceiling(c.ceiling, d.log))))
  }

  ghost predicate Crewed(d: Disk, c: Crew, turn: int) {
    && turn == LogTurn(d.log)
    && EpochsApart(c.epoch, c.next, c.turns, c.parked, turn)
    && ParkedBound(d.meta, c.parked)
    && RunnerBound(d.meta, c)
    && MarksAgree(d, c)
  }

  lemma TurnKnown(d: Disk, c: Crew, turn: int)
    requires Crewed(d, c, turn)
    ensures turn == LogTurn(d.log) && turn >= -1
  {
    LogTurnAtLeast(d.log);
  }

  // ---------------------------------------------------- appending to the log

  lemma AppendQueued(d: Disk, e: Event, l: Line, t: Tally)
    requires e.msg.None?
    requires Queued(d.meta.pending, d.synth, d.log, d.meta.recovery, d.rewritten, l, t)
    ensures var d' := Apply(d, Append(e));
            Queued(d'.meta.pending, d'.synth, d'.log, d'.meta.recovery, d'.rewritten, l, t)
  {
    Queues.OpenedAfter(d.log, e);
  }

  /** A record that opens nothing keeps the crew, if the running provider said it or it is not conversation. */
  lemma AppendCrewed(d: Disk, e: Event, c: Crew, turn: int)
    requires Crewed(d, c, turn)
    requires !e.kind.Start? && !e.late && e.turn == turn
    requires IsHistory(e) && c.runner.Some? ==> e.provider == c.runner.value.name
    ensures Crewed(Apply(d, Append(e)), c, turn)
  {
    Turns.Counted(d.log, e);
    if c.runner.Some? && Trusted(d, c.runner.value) {
      AppendHolds(d, e, c.runner.value.name, c.runner.value.native, Ceiling(c.ceiling, d.log));
    }
  }

  // ------------------------------------------------ what each write changes

  predicate SameWorld(d: Disk, d': Disk) {
    && d'.log == d.log && d'.told == d.told && d'.broken == d.broken
    && d'.meta.natives == d.meta.natives && d'.meta.historyStart == d.meta.historyStart
  }

  lemma AfterAppend(d: Disk, e: Event)
    ensures e.msg.None? && !Opens(e) && !e.late && e.turn == LogTurn(d.log) ==> Allowed(d, Append(e))
    ensures var d' := Apply(d, Append(e));
            && d'.log == d.log + [e] && d'.meta == d.meta && d'.issued == d.issued && d'.synth == d.synth
            && d'.broken == d.broken && SamePhase(d, d')
  {
  }

  lemma AfterRetry(d: Disk, texts: seq<string>)
    requires d.meta.recovery.None?
    ensures Allowed(d, Retry(texts))
    ensures var d' := Apply(d, Retry(texts));
            && SameWorld(d, d')
            && d'.meta == d.meta.(pending := Stamp(texts, |d.issued|) + d.meta.pending)
            && d'.issued == d.issued + texts && d'.synth == d.synth && SamePhase(d, d')
  {
  }

  // --------------------------------------------------------- closing a turn

  /** What `close_turn` makes of the queues: unfinished turns first, then unconfirmed writes, then the rest. */
  function Requeued(l: Line, retried: seq<Msg>): Line {
    Line(retried + (l.awaiting + l.outbox), [], [], 0)
  }

  /** Giving an unfinished turn up costs order; so does losing sight of recovery's own message. */
  function AfterClose(t: Tally, l: Line, retry: bool, recovering: bool): Tally {
    t.(lapses := t.lapses + (if retry || recovering || l.unanswered == [] then {} else {GaveUp}),
       steady := t.steady && !recovering)
  }

  lemma Regroup<T>(closed: seq<T>, flat: seq<T>, a: seq<T>, b: seq<T>)
    ensures closed + flat + a + b == closed + [] + [] + (flat + (a + b))
  {
  }

  lemma TextsRequeued(retried: seq<Msg>, a: seq<Msg>, b: seq<Msg>)
    ensures Texts(retried + (a + b)) == Texts(retried) + (Texts(a) + Texts(b))
    ensures Texts([]) == [] && Flat([]) == []
  {
    TextsConcat(retried, a + b);
    TextsConcat(a, b);
  }

  lemma OrderRequeued(recovery: Option<Recovery>, rewritten: bool, l: Line, t: Tally, retried: seq<Msg>, retry: bool)
    requires InOrder(recovery, rewritten, l, t)
    requires Texts(retried) == if retry then Flat(l.unanswered) else []
    ensures InOrder(recovery, rewritten, Requeued(l, retried), AfterClose(t, l, retry, recovery.Some?))
  {
    hide Texts, Flat;
    TextsRequeued(retried, l.awaiting, l.outbox);
    Regroup(t.closed, Flat(l.unanswered), Texts(l.awaiting), Texts(l.outbox));
  }

  /** What a retry brings back under new ids. */
  function Back(l: Line, retry: bool, next: Id): seq<Msg> {
    if retry then Stamp(Flat(l.unanswered), next) else []
  }

  lemma AwaitingRequeued(pending: seq<Msg>, synth: set<Id>, log: seq<Event>, recovery: Option<Recovery>,
                         rewritten: bool, l: Line,
          t: Tally, retry: bool, next: Id)
    requires Queued(pending, synth, log, recovery, rewritten, l, t)
    requires !retry || l.unanswered == []
    ensures Back(l, retry, next) == []
    ensures Requeued(l, []).outbox == l.awaiting + l.outbox
    ensures Queued(pending, synth, log, recovery, rewritten, Requeued(l, []), AfterClose(t, l, retry, recovery.Some?))
  {
    assert [] + ([] + (l.awaiting + l.outbox)) == l.awaiting + l.outbox;
    OrderRequeued(recovery, rewritten, l, t, [], retry);
  }

  /** An id not issued yet opens nothing. */
  lemma Unopened(log: seq<Event>, issued: seq<string>, id: Id)
    requires Delivery.OpeningsSound(log, issued) && id >= |issued|
    ensures id !in OpenedIds(log)
  {
  }

  lemma StampedUndelivered(d: Disk, texts: seq<string>)
    requires Delivery.OpeningsSound(d.log, d.issued) && Undelivered(d.meta.pending, d.log)
    ensures Undelivered(Stamp(texts, |d.issued|) + d.meta.pending, d.log)
  {
    hide OpenedIds, Stamp;
    Stamped(texts, |d.issued|);
    forall m: Msg | m in Stamp(texts, |d.issued|) ensures m.id !in OpenedIds(d.log) {
      Unopened(d.log, d.issued, m.id);
    }
  }

  /** Retried messages come back under ids no queue has seen. */
  lemma StampedMirror(d: Disk, live: seq<Msg>, texts: seq<string>)
    requires Delivery.Sound(d) && Mirrors.Mirror(d.meta.pending, live, d.synth)
    ensures Mirrors.Mirror(Stamp(texts, |d.issued|) + d.meta.pending, Stamp(texts, |d.issued|) + live, d.synth)
  {
    Mirrors.Members(d.meta.pending, live, d.synth);
    Stamped(texts, |d.issued|);
    Mirrors.Prepend(Stamp(texts, |d.issued|), d.meta.pending, live, d.synth);
  }

  lemma QueueRetried(d: Disk, l: Line, t: Tally)
    requires Queued(d.meta.pending, d.synth, d.log, d.meta.recovery, d.rewritten, l, t)
    requires Delivery.Sound(d) && d.meta.recovery.None?
    ensures var retried := Back(l, true, |d.issued|);
            Queued(retried + d.meta.pending, d.synth, d.log, d.meta.recovery, d.rewritten, Requeued(l, retried),
                   AfterClose(t, l, true, false))
  {
    hide Delivery.OpeningsSound, Delivery.QueueSound, Delivery.FateSound, Delivery.RecoverySound,
        Mirrors.Mirror, Texts, Flat, InOrder, Undelivered, OpenedIds, Stamp;
    var retried := Back(l, true, |d.issued|);
    StampedUndelivered(d, Flat(l.unanswered));
    StampedMirror(d, l.awaiting + l.outbox, Flat(l.unanswered));
    TextsOfStamp(Flat(l.unanswered), |d.issued|);
    OrderRequeued(d.meta.recovery, d.rewritten, l, t, retried, true);
    assert [] + (retried + (l.awaiting + l.outbox)) == retried + (l.awaiting + l.outbox);
  }

  /** Writing the retries keeps everything, once the queues in memory follow. */
  lemma TurnsRetried(journal: seq<Write>, d: Disk, l: Line, t: Tally, c: Crew, turn: int)
    requires Stored(journal, d) && Crewed(d, c, turn)
    requires Queued(d.meta.pending, d.synth, d.log, d.meta.recovery, d.rewritten, l, t) && d.meta.recovery.None?
    ensures var w := Retry(Flat(l.unanswered));
            var d' := Apply(d, w);
            var retried := Back(l, true, |d.issued|);
            && Allowed(d, w)
            && Queued(d'.meta.pending, d'.synth, d'.log, d'.meta.recovery, d'.rewritten, Requeued(l, retried),
                      AfterClose(t, l, true, false))
            && Crewed(d', c.(runner := None, epoch := None), turn)
            && d'.log == d.log && d'.meta == d.meta.(pending := retried + d.meta.pending) && SamePhase(d, d')
            && Requeued(l, retried) == Line(retried + (l.awaiting + l.outbox), [], [], 0)
  {
    hide Crewed, Queued, Delivery.Sound, Watermarks.Sound, Stored;
    StoredIsSound(journal, d);
    QueueRetried(d, l, t);
    AfterRetry(d, Flat(l.unanswered));
    CrewUnmoved(d, Apply(d, Retry(Flat(l.unanswered))), c, turn);
    CrewStoodDown(Apply(d, Retry(Flat(l.unanswered))), c, turn);
  }

  /** What every legal journal has taught about the disk it left. */
  lemma StoredIsSound(journal: seq<Write>, disk: Disk)
    requires Stored(journal, disk)
    ensures Delivery.Sound(disk) && Watermarks.Sound(disk)
  {
    Delivery.Always(journal);
    Watermarks.Always(journal);
  }

  lemma RecoveryRewrites(d: Disk, l: Line, t: Tally)
    requires Queued(d.meta.pending, d.synth, d.log, d.meta.recovery, d.rewritten, l, t)
    ensures d.meta.recovery.Some? ==> d.rewritten
  {
  }

  /** What is still in line was never recorded. */
  lemma InLineNotTaken(d: Disk, l: Line, t: Tally, start: nat, id: Id)
    requires Queued(d.meta.pending, d.synth, d.log, d.meta.recovery, d.rewritten, l, t)
    ensures id in PendingIds(l.outbox) ==> HowFar(d.log, start, id).NotTaken?
  {
    hide InOrder, Held;
    if id in PendingIds(l.outbox) {
      var k :| 0 <= k < |l.outbox| && l.outbox[k].id == id;
      Mirrors.Members(d.meta.pending, l.awaiting + l.outbox, d.synth);
      assert l.outbox[k] in l.awaiting + l.outbox;
      assert id !in OpenedIds(d.log);
    }
  }

  /** With nobody in charge there is less to keep. */
  lemma CrewStoodDown(d: Disk, c: Crew, turn: int)
    requires Crewed(d, c, turn)
    ensures Crewed(d, c.(runner := None, epoch := None), turn)
    ensures Crewed(d, c.(runner := None), turn)
  {
  }

  /** Writes that touch neither the log nor the native sessions mean nothing to the crew. */
  lemma CrewUnmoved(d: Disk, d': Disk, c: Crew, turn: int)
    requires Crewed(d, c, turn)
    requires SameWorld(d, d')
    ensures Crewed(d', c, turn)
  {
    assert forall k: nat :: InScope(d', k) <==> InScope(d, k);
  }

  // ------------------------------------------------------ accepting a message

  function Joining(l: Line, m: Msg): Line { l.(outbox := l.outbox + [m]) }

  function AfterJoining(t: Tally, m: Msg): Tally { t.(accepted := t.accepted + [m.text]) }

  lemma MessageJoins(journal: seq<Write>, d: Disk, l: Line, t: Tally, c: Crew, turn: int, text: string)
    requires Stored(journal, d) && Crewed(d, c, turn)
    requires Queued(d.meta.pending, d.synth, d.log, d.meta.recovery, d.rewritten, l, t)
    ensures var w := Enqueue(text);
            var d' := Apply(d, w);
            var m := Msg(|d.issued|, text);
            && Allowed(d, w)
            && Queued(d'.meta.pending, d'.synth, d'.log, d'.meta.recovery, d'.rewritten, Joining(l, m),
                      AfterJoining(t, m))
            && Crewed(d', c, turn)
            && d'.log == d.log && d'.meta == d.meta.(pending := d.meta.pending + [m]) && SamePhase(d, d')
            && d'.issued == d.issued + [text]
  {
    hide Crewed, Stored, Delivery.FateSound, Delivery.RecoverySound, Delivery.OpeningsSound, Watermarks.Sound,
        OpenedIds;
    Unopened(d.log, d.issued, |d.issued|) by { StoredIsSound(journal, d); }
    var m := Msg(|d.issued|, text);
    StoredIsSound(journal, d);
    CrewUnmoved(d, Apply(d, Enqueue(text)), c, turn);
    Mirrors.Members(d.meta.pending, l.awaiting + l.outbox, d.synth);
    Mirrors.Push(d.meta.pending, l.awaiting + l.outbox, d.synth, m);
    assert l.awaiting + (l.outbox + [m]) == (l.awaiting + l.outbox) + [m];
    JoiningInOrder(d.meta.recovery, d.rewritten, l, t, m);
    if l.outbox != [] { assert (l.outbox + [m])[0] == l.outbox[0]; }
  }

  lemma JoiningInOrder(recovery: Option<Recovery>, rewritten: bool, l: Line, t: Tally, m: Msg)
    requires InOrder(recovery, rewritten, l, t)
    ensures InOrder(recovery, rewritten, Joining(l, m), AfterJoining(t, m))
  {
    TextsConcat(l.outbox, [m]);
    assert Texts([m]) == [m.text];
    if t.lapses == {} {
      var before := t.closed + Flat(l.unanswered) + Texts(l.awaiting);
      assert (before + Texts(l.outbox)) + [m.text] == before + (Texts(l.outbox) + [m.text]);
    }
  }

  // ---------------------------------------------------- delivering a message

  /** A delivered text joins the current turn, or opens a later one. */
  function Remembered(unanswered: seq<seq<string>>, text: string, later: bool): seq<seq<string>> {
    if later || unanswered == [] then unanswered + [[text]] else unanswered[0 := unanswered[0] + [text]]
  }

  lemma {:induction false} FlatRemembered(unanswered: seq<seq<string>>, text: string, later: bool)
    requires later || |unanswered| <= 1
    ensures Flat(Remembered(unanswered, text, later)) == Flat(unanswered) + [text]
  {
    FlatConcat(unanswered, [[text]]);
    assert Flat([[text]]) == [text] + Flat([]);
  }

  /** The head of the outbox, taken by a runner there and then. */
  function Delivered(l: Line, later: bool): Line
    requires l.outbox != []
  {
    Line(l.outbox[1..], l.awaiting, Remembered(l.unanswered, l.outbox[0].text, later),
         if later then l.nextTurns + 1 else l.nextTurns)
  }

  /** Taking a message while an earlier one awaits its echo, or into the wrong group, costs order. */
  function AfterDelivered(t: Tally, l: Line, later: bool): Tally {
    t.(lapses := t.lapses + if l.awaiting == [] && (later || |l.unanswered| <= 1) then {} else {Overtook})
  }

  /** The head of the outbox, written but not confirmed. */
  function Written(l: Line): Line
    requires l.outbox != []
  {
    l.(outbox := l.outbox[1..], awaiting := l.awaiting + [l.outbox[0]])
  }

  /** The oldest unconfirmed write, confirmed. */
  function Echo(l: Line, opens: bool): Line
    requires l.awaiting != []
  {
    l.(awaiting := l.awaiting[1..], unanswered := Remembered(l.unanswered, l.awaiting[0].text, opens))
  }

  function AfterEcho(t: Tally, l: Line, opens: bool): Tally {
    t.(lapses := t.lapses + if opens || |l.unanswered| <= 1 then {} else {Overtook})
  }

  /** Does `e` record the taking of `m`, by the runner in charge and in its proper turn? */
  predicate Takes(e: Event, m: Msg, c: Crew, turn: int) {
    && Opens(e) && e.msg == Some(m.id) && e.text == m.text && !e.late
    && e.turn == (if e.kind.Start? then turn + 1 else turn)
    && (c.runner.Some? ==> e.provider == c.runner.value.name)
  }

  /** The event that records `m`: a START opens the next turn, an INJECTED joins the one that is on. */
  function Opening(m: Msg, joining: bool, turn: int): Event {
    Plain(if joining then Injected else Start, "", m.text).(msg := Some(m.id), turn := if joining then -1 else turn + 1)
  }

  /** The event that confirms `m`, as the provider that read it reports it. */
  function Confirmation(m: Msg, opens: bool, provider: string, turn: int): Event {
    Opening(m, !opens, turn).(provider := provider)
  }

  /** The runner in charge now owns turn `turn`. */
  function Owning(c: Crew, turn: int): Crew {
    if c.epoch.Some? then c.(turns := c.turns[c.epoch.value := turn]) else c
  }

  lemma OpeningCrewed(d: Disk, e: Event, m: Msg, c: Crew, turn: int)
    requires Crewed(d, c, turn) && Takes(e, m, c, turn)
    ensures Crewed(Apply(d, Append(e)), Owning(c, Max(turn, e.turn)), Max(turn, e.turn))
  {
    hide HoldsUpTo, LogTurn, ParkedBound, Unreleased, OpenedIds;
    Turns.Counted(d.log, e);
    LogTurnAtLeast(d.log);
    if c.runner.Some? && Trusted(d, c.runner.value) {
      AppendHolds(d, e, c.runner.value.name, c.runner.value.native, Ceiling(c.ceiling, d.log));
    }
  }

  lemma {:induction false} LogTurnAtLeast(log: seq<Event>)
    ensures LogTurn(log) >= -1
  {
    if log != [] {
      LogTurnAtLeast(log[..|log| - 1]);
    }
  }

  /** The message leaves both queues, wherever in the live one it was. */
  lemma QueueDelivered(d: Disk, e: Event, a: seq<Msg>, m: Msg, b: seq<Msg>, aligned: bool)
    requires Mirrors.Mirror(d.meta.pending, a + [m] + b, d.synth)
    requires aligned ==> d.meta.pending == a + [m] + b
    requires Undelivered(d.meta.pending, d.log) && e.msg == Some(m.id)
    ensures var pending := Without(d.meta.pending, {m.id});
            && Mirrors.Mirror(pending, a + b, d.synth)
            && (aligned ==> pending == a + b)
            && Undelivered(pending, d.log + [e])
            && OpenedIds(d.log + [e]) == OpenedIds(d.log) + {m.id}
  {
    hide OpenedIds;
    Mirrors.Retire(d.meta.pending, a, m, b, d.synth);
    if aligned { Queues.WithoutMiddle(a, m, b); }
    Queues.OpenedAfter(d.log, e);
    Queues.WithoutMembers(d.meta.pending, {m.id});
  }

  lemma DeliveredInOrder(recovery: Option<Recovery>, rewritten: bool, l: Line, t: Tally, later: bool)
    requires InOrder(recovery, rewritten, l, t) && l.outbox != []
    ensures InOrder(recovery, rewritten, Delivered(l, later), AfterDelivered(t, l, later))
  {
    if AfterDelivered(t, l, later).lapses == {} {
      FlatRemembered(l.unanswered, l.outbox[0].text, later);
      var rest := Texts(l.outbox[1..]);
      var before := t.closed + Flat(l.unanswered);
      assert before + [] + ([l.outbox[0].text] + rest) ==
          t.closed + (Flat(l.unanswered) + [l.outbox[0].text]) + [] + rest;
    }
  }

  lemma Shifted<T>(closed: seq<T>, flat: seq<T>, m: T, rest: seq<T>, tail: seq<T>)
    ensures closed + flat + ([m] + rest) + tail == closed + (flat + [m]) + rest + tail
  {
  }

  lemma EchoInOrder(recovery: Option<Recovery>, rewritten: bool, l: Line, t: Tally, opens: bool)
    requires InOrder(recovery, rewritten, l, t) && l.awaiting != []
    ensures InOrder(recovery, rewritten, Echo(l, opens), AfterEcho(t, l, opens))
  {
    hide Flat, Remembered;
    if AfterEcho(t, l, opens).lapses == {} {
      FlatRemembered(l.unanswered, l.awaiting[0].text, opens);
      Shifted(t.closed, Flat(l.unanswered), l.awaiting[0].text, Texts(l.awaiting[1..]), Texts(l.outbox));
    }
  }

  lemma WrittenInOrder(recovery: Option<Recovery>, rewritten: bool, l: Line, t: Tally)
    requires InOrder(recovery, rewritten, l, t) && l.outbox != []
    ensures InOrder(recovery, rewritten, Written(l), t)
  {
    TextsConcat(l.awaiting, [l.outbox[0]]);
    assert Texts([l.outbox[0]]) == [l.outbox[0].text];
    var before := t.closed + Flat(l.unanswered);
    var rest := Texts(l.outbox[1..]);
    assert before + Texts(l.awaiting) + ([l.outbox[0].text] + rest) ==
        before + (Texts(l.awaiting) + [l.outbox[0].text]) + rest;
  }

  lemma QueueWritten(pending: seq<Msg>, synth: set<Id>, log: seq<Event>, recovery: Option<Recovery>, rewritten: bool,
                     l: Line, t: Tally)
    requires Queued(pending, synth, log, recovery, rewritten, l, t) && l.outbox != []
    requires recovery.Some? ==> recovery.value.messageId == Some(l.outbox[0].id)
    ensures Queued(pending, synth, log, recovery, rewritten, Written(l), t)
  {
    hide Texts, Flat, OpenedIds;
    WrittenInOrder(recovery, rewritten, l, t);
    assert Written(l).awaiting + Written(l).outbox == l.awaiting + l.outbox;
    assert Written(l).awaiting[|l.awaiting|] == l.outbox[0];
  }

  /** Logging the opening and completing the message: the outbox side of a direct delivery. */
  lemma QueueTaken(d: Disk, e: Event, l: Line, t: Tally, later: bool)
    requires Queued(d.meta.pending, d.synth, d.log, d.meta.recovery, d.rewritten, l, t) && l.outbox != []
    requires e.msg == Some(l.outbox[0].id)
    requires d.meta.recovery.Some? ==> d.meta.recovery.value.messageId == Some(l.outbox[0].id)
    ensures Queued(Without(d.meta.pending, {l.outbox[0].id}), d.synth, d.log + [e], d.meta.recovery, d.rewritten,
                   Delivered(l, later), AfterDelivered(t, l, later))
  {
    hide Mirrors.Mirror, Undelivered, InOrder, OpenedIds, Without;
    assert l.awaiting + l.outbox == l.awaiting + [l.outbox[0]] + l.outbox[1..];
    QueueDelivered(d, e, l.awaiting, l.outbox[0], l.outbox[1..], t.aligned);
    DeliveredInOrder(d.meta.recovery, d.rewritten, l, t, later);
  }

  /** ... and of a confirmation. */
  lemma QueueEchoed(d: Disk, e: Event, l: Line, t: Tally, opens: bool)
    requires Queued(d.meta.pending, d.synth, d.log, d.meta.recovery, d.rewritten, l, t) && l.awaiting != []
    requires e.msg == Some(l.awaiting[0].id)
    ensures Queued(Without(d.meta.pending, {l.awaiting[0].id}), d.synth, d.log + [e], d.meta.recovery, d.rewritten,
                   Echo(l, opens), AfterEcho(t, l, opens))
  {
    hide Mirrors.Mirror, Undelivered, InOrder, OpenedIds, Without;
    assert l.awaiting + l.outbox == [] + [l.awaiting[0]] + (l.awaiting[1..] + l.outbox);
    assert [] + (l.awaiting[1..] + l.outbox) == l.awaiting[1..] + l.outbox;
    QueueDelivered(d, e, [], l.awaiting[0], l.awaiting[1..] + l.outbox, t.aligned);
    EchoInOrder(d.meta.recovery, d.rewritten, l, t, opens);
    forall m | m in l.awaiting && m != l.awaiting[0] ensures m in l.awaiting[1..] { }
  }

  /** The two writes of a delivery are allowed, and end up where the queues do. */
  lemma TakingWrites(journal: seq<Write>, d: Disk, e: Event, m: Msg, l: Line, t: Tally, c: Crew, turn: int)
    requires Stored(journal, d) && Crewed(d, c, turn) && Takes(e, m, c, turn)
    requires Queued(d.meta.pending, d.synth, d.log, d.meta.recovery, d.rewritten, l, t) && m in l.awaiting + l.outbox
    ensures var d1 := Apply(d, Append(e));
            var d2 := Apply(d1, Complete(m.id));
            && Allowed(d, Append(e)) && Allowed(d1, Complete(m.id))
            && d1.log == d.log + [e] && d1.meta == d.meta && SamePhase(d, d1) && d1.issued == d.issued
            && d2.log == d.log + [e] && d2.meta == d.meta.(pending := Without(d.meta.pending, {m.id}))
            && d2.synth == d.synth && SamePhase(d, d2) && d2.issued == d.issued
            && Crewed(d2, Owning(c, Max(turn, e.turn)), Max(turn, e.turn))
  {
    hide Crewed, Mirrors.Mirror;
    TurnKnown(d, c, turn);
    OpeningCrewed(d, e, m, c, turn);
    Mirrors.Members(d.meta.pending, l.awaiting + l.outbox, d.synth);
    Queues.OpenedAfter(d.log, e);
    CrewUnmoved(Apply(d, Append(e)), Apply(Apply(d, Append(e)), Complete(m.id)), Owning(c, Max(turn, e.turn)),
                Max(turn, e.turn));
  }

  // ------------------------------------------------------- context recovery

  /** Recovery's own message goes to the head of the outbox; the one it replaces leaves both queues. */
  function Recovering(l: Line, superseded: Option<Id>, message: Option<Msg>): Line {
    var kept := Without(l.outbox, Gone(superseded));
    l.(outbox := if message.Some? then [message.value] + kept else kept,
       awaiting := Without(l.awaiting, Gone(superseded)))
  }

  /**
   Writing recovery's message while echoes are awaited costs alignment; either way the
   message waited for is in reach.
   */
  function AfterRecovering(t: Tally, l: Line, superseded: Option<Id>, message: Option<Msg>): Tally {
    t.(aligned := t.aligned && (message.None? || Without(l.awaiting, Gone(superseded)) == []),
       steady := true)
  }

  function Minted(d: Disk, message: Option<string>): Option<Msg> {
    if message.Some? then Some(Msg(|d.issued|, message.value)) else None
  }

  lemma RecoveryDrops(pending: seq<Msg>, a: seq<Msg>, b: seq<Msg>, synth: set<Id>, gone: set<Id>, aligned: bool)
    requires Mirrors.Mirror(pending, a + b, synth) && (aligned ==> pending == a + b)
    ensures Mirrors.Mirror(Without(pending, gone), Without(a, gone) + Without(b, gone), synth)
    ensures aligned ==> Without(pending, gone) == Without(a, gone) + Without(b, gone)
  {
    hide Mirrors.Mirror, Without;
    Queues.WithoutConcat(a, b, gone);
    Mirrors.Drop(pending, a + b, synth, gone);
  }

  lemma RecoveryMints(pending: seq<Msg>, a: seq<Msg>, b: seq<Msg>, synth: set<Id>, m: Msg, aligned: bool)
    requires Mirrors.Mirror(pending, a + b, synth) && (aligned ==> pending == a + b)
    requires forall x :: x in pending ==> x.id != m.id
    ensures Mirrors.Mirror([m] + pending, a + ([m] + b), synth + {m.id})
    ensures aligned && a == [] ==> [m] + pending == a + ([m] + b)
  {
    hide Mirrors.Mirror;
    Mirrors.Members(pending, a + b, synth);
    Mirrors.Synthesize(pending, a, b, synth, m);
  }

  /** Recovery writes a message of its own. */
  lemma MessageMinted(d: Disk, l: Line, t: Tally, next: Option<Recovery>, superseded: Option<Id>, text: string)
    requires Queued(d.meta.pending, d.synth, d.log, d.meta.recovery, d.rewritten, l, t)
    requires Delivery.QueueSound(d.meta.pending, d.issued) && Delivery.OpeningsSound(d.log, d.issued)
    requires next.Some? && next.value.messageId == Some(|d.issued|)
    ensures var m := Msg(|d.issued|, text);
            Queued([m] + Without(d.meta.pending, Gone(superseded)), d.synth + {m.id}, d.log, next, true,
                   Recovering(l, superseded, Some(m)), AfterRecovering(t, l, superseded, Some(m)))
  {
    hide OpenedIds, Mirrors.Mirror, Texts, Flat, Without, Delivery.OpeningsSound;
    var m, kept := Msg(|d.issued|, text), Without(d.meta.pending, Gone(superseded));
    RecoveryDrops(d.meta.pending, l.awaiting, l.outbox, d.synth, Gone(superseded), t.aligned);
    Queues.WithoutMembers(d.meta.pending, Gone(superseded));
    RecoveryMints(kept, Without(l.awaiting, Gone(superseded)), Without(l.outbox, Gone(superseded)), d.synth, m,
                  t.aligned);
    Unopened(d.log, d.issued, m.id);
    assert Undelivered([m] + kept, d.log);
  }

  /** Recovery names the head of the outbox, or ends. */
  lemma HeadNamed(d: Disk, l: Line, t: Tally, next: Option<Recovery>)
    requires Queued(d.meta.pending, d.synth, d.log, d.meta.recovery, d.rewritten, l, t)
    requires next.Some? && next.value.messageId.Some? ==> l.outbox != [] && next.value.messageId == Some(l.outbox[0].id)
    ensures Queued(Without(d.meta.pending, {}), d.synth, d.log, next, true,
                   Recovering(l, None, None), AfterRecovering(t, l, None, None))
  {
    hide OpenedIds, Mirrors.Mirror, Texts, Flat;
    Queues.WithoutNone(d.meta.pending, {});
    Queues.WithoutNone(l.outbox, {});
    Queues.WithoutNone(l.awaiting, {});
  }

  lemma CrewForgotten(d: Disk, d': Disk, c: Crew, turn: int)
    requires Crewed(d, c, turn) && c.runner.None? && c.parked == map[]
    requires d'.log == d.log && d'.meta.natives == map[]
    ensures Crewed(d', c, turn)
  {
  }

  /** The message under this id comes next. */
  predicate AtHead(l: Line, id: Id, text: string) { l.outbox != [] && l.outbox[0] == Msg(id, text) }

  lemma RecoveryWritten(journal: seq<Write>, d: Disk, l: Line, t: Tally, c: Crew, turn: int,
                        next: Option<Recovery>, since: Option<nat>, message: Option<string>)
    requires Stored(journal, d) && Crewed(d, c, turn)
    requires Queued(d.meta.pending, d.synth, d.log, d.meta.recovery, d.rewritten, l, t)
    requires StageStep(d.meta.recovery, next, d.again) && RecoverFits(d, next, since, message)
    requires since.Some? ==> c.runner.None? && c.parked == map[]
    requires message.None? && next.Some? && next.value.messageId.Some? ==>
               l.outbox != [] && next.value.messageId == Some(l.outbox[0].id)
    ensures var superseded := Superseded(d.meta.recovery, next);
            var w := Recover(next, since, message, superseded);
            var d' := Apply(d, w);
            && Allowed(d, w)
            && Queued(d'.meta.pending, d'.synth, d'.log, d'.meta.recovery, d'.rewritten,
                      Recovering(l, superseded, Minted(d, message)), AfterRecovering(t, l, superseded,
                                                                                     Minted(d, message)))
            && Crewed(d', c, turn)
            && d'.log == d.log && d'.meta.recovery == next && d'.meta.active == d.meta.active
            && d'.cold == d.cold && !d'.again && d'.rewritten && (message.None? ==> d'.issued == d.issued)
            && d'.meta.historyStart == (if since.Some? then since.value else d.meta.historyStart)
            && (message.Some? ==> AtHead(Recovering(l, superseded, Minted(d, message)), |d.issued|, message.value))
  {
    hide Crewed, Queued, OpenedIds, CarriedTexts, AskedTexts, Joined, Delivery.QueueSound,
        Delivery.OpeningsSound, Delivery.FateSound, Delivery.RecoverySound, Watermarks.Sound, Stored;
    StoredIsSound(journal, d);
    var superseded := Superseded(d.meta.recovery, next);
    if message.Some? {
      MessageMinted(d, l, t, next, superseded, message.value);
    } else {
      HeadNamed(d, l, t, next);
    }
    var d' := Apply(d, Recover(next, since, message, superseded));
    if since.Some? {
      CrewForgotten(d, d', c, turn);
    } else {
      CrewUnmoved(d, d', c, turn);
    }
  }

  // -------------------------------------------------------------- the runners

  /** Nothing but what is known of one provider's native sessions has changed. */
  predicate OnlyNative(d: Disk, d': Disk, provider: string) {
    && d'.log == d.log && d'.issued == d.issued && d'.synth == d.synth && SamePhase(d, d')
    && d'.meta == d.meta.(natives := d'.meta.natives)
    && d'.meta.natives - {provider} == d.meta.natives - {provider}
    && d'.broken - {provider} == d.broken - {provider}
  }

  lemma OthersUntouched(d: Disk, d': Disk, provider: string, other: string)
    requires OnlyNative(d, d', provider) && other != provider
    ensures BoundId(d'.meta, other) == BoundId(d.meta, other) && Synced(d'.meta, other) == Synced(d.meta, other)
  {
    var rest, rest' := d.meta.natives - {provider}, d'.meta.natives - {provider};
    assert other in d.meta.natives <==> other in rest;
    assert other in d'.meta.natives <==> other in rest';
    if other in rest { assert rest[other] == rest'[other]; }
  }

  /** With nobody in charge, a provider that is not parked may be bound and marked at will. */
  lemma CrewAside(d: Disk, d': Disk, c: Crew, turn: int, provider: string)
    requires Crewed(d, c, turn) && c.runner.None? && provider !in c.parked
    requires OnlyNative(d, d', provider) && Released(d')
    ensures Crewed(d', c, turn)
  {
    hide Released;
    forall q | q in c.parked
      ensures BoundId(d'.meta, q) == BoundId(d.meta, q) && Synced(d'.meta, q) == Synced(d.meta, q)
    {
      OthersUntouched(d, d', provider, q);
    }
  }

  /** Letting a native session go: the id, then the mark. Either write may fail on its own. */
  lemma ReleaseWritten(d: Disk, c: Crew, turn: int, provider: string)
    requires Crewed(d, c, turn) && c.runner.None? && provider !in c.parked && BoundId(d.meta, provider) != ""
    ensures var d1 := Apply(d, Bind(provider, "", true));
            var d2 := Apply(d1, MarkSynced(provider, -1));
            && Allowed(d, Bind(provider, "", true)) && Allowed(d1, MarkSynced(provider, -1))
            && Allowed(d, Unmark(provider))
            && BoundId(d2.meta, provider) == "" && Synced(d2.meta, provider) == -1 && provider !in d2.broken
            && d2.rewritten == d.rewritten
            && OnlyNative(d, d2, provider) && Crewed(d2, c, turn)
  {
    hide Crewed, LogTurn;
    assert c.(parked := c.parked - {provider}) == c;
    var d1 := Apply(d, Bind(provider, "", true));
    var d2 := Apply(d1, MarkSynced(provider, -1));
    ReleasedAgain(d, c, turn, provider);
    CrewAside(d, d2, c, turn, provider);
    CrewUnparked(d2, c, turn, provider);
  }

  lemma ReleasedAgain(d: Disk, c: Crew, turn: int, provider: string)
    requires Crewed(d, c, turn)
    ensures var d2 := Apply(Apply(d, Bind(provider, "", true)), MarkSynced(provider, -1));
            OnlyNative(d, d2, provider) && Released(d2)
  {
  }

  /** Binding a provider to the session its runner holds already changes nothing. */
  lemma KeptBound(journal: seq<Write>, d: Disk, c: Crew, turn: int)
    requires Stored(journal, d) && Crewed(d, c, turn) && c.runner.Some?
    ensures var w := Bind(c.runner.value.name, c.runner.value.native, true);
            Allowed(d, w) && Apply(d, w) == d
  {
    hide Stored, LogTurn, Delivery.Sound;
    StoredIsSound(journal, d);
    var r := c.runner.value;
    assert r.name !in d.broken ==> Covers(d, r.name, r.native);
    assert d.meta.natives[r.name := Native(r.native, Synced(d.meta, r.name))] == d.meta.natives;
  }

  /** Nobody in charge. */
  function StoodDown(c: Crew): Crew { c.(runner := None, epoch := None) }

  /** Nobody in charge, and the one who was, set aside. */
  function Aside(c: Crew, signature: Signature, synced: int): Crew
    requires c.runner.Some? && c.epoch.Some?
  {
    c.(runner := None, epoch := None,
       parked := c.parked[c.runner.value.name := Parked(c.runner.value, c.epoch.value, signature, synced)])
  }

  lemma CrewParked(d: Disk, c: Crew, turn: int, signature: Signature)
    requires Crewed(d, c, turn) && c.runner.Some?
    ensures c.epoch.Some?
    ensures Crewed(d, Aside(c, signature, Synced(d.meta, c.runner.value.name)), turn)
    ensures Crewed(d, c.(runner := None, epoch := None), turn)
  {
    hide HoldsUpTo, Released, LogTurn;
    CrewStoodDown(d, c, turn);
  }

  lemma CrewUnparked(d: Disk, c: Crew, turn: int, provider: string)
    requires Crewed(d, c, turn)
    ensures Crewed(d, c.(parked := c.parked - {provider}), turn)
  {
    hide HoldsUpTo, Released, LogTurn;
  }

  /** A new runner is numbered after every one before it. */
  function Numbering(c: Crew, turn: int): Crew { c.(next := c.next + 1, turns := c.turns[c.next := turn]) }

  lemma CrewNumbered(d: Disk, c: Crew, turn: int)
    requires Crewed(d, c, turn)
    ensures Crewed(d, Numbering(c, turn), turn)
    ensures forall p | p in c.parked :: c.parked[p].epoch != c.next
  {
    hide HoldsUpTo, Released, LogTurn;
  }

  /** A session resumed and told what it missed holds everything, if what it was presumed to hold it did. */
  lemma ResumeHeard(journal: seq<Write>, d: Disk, c: Crew, turn: int, provider: string, native: string, since: int)
    requires Stored(journal, d) && Crewed(d, c, turn) && c.runner.None?
    requires native != "" && BoundId(d.meta, provider) == native && since <= Synced(d.meta, provider) + 1
    ensures var w := Hear(provider, native, false, HistoryFor(d, provider, since, true));
            var d' := Apply(d, w);
            && Allowed(d, w) && OnlyNative(d, d', provider) && d'.meta == d.meta && Crewed(d', c, turn)
            && (provider !in d.broken ==> HoldsUpTo(d', provider, native, |d.log|)) && d'.broken == d.broken
  {
    hide Stored, LogTurn, Delivery.Sound, HistoryFor;
    StoredIsSound(journal, d);
    if provider !in d.broken { ResumedHolds(d, provider, since); }
    HistoryInLog(d, provider, since, true);
  }

  lemma HistoryInLog(d: Disk, provider: string, since: int, continuing: bool)
    ensures forall k | k in HistoryFor(d, provider, since, continuing) :: k < |d.log|
  {
  }

  /** So does one opened anew and told everything. */
  lemma OpenHeard(d: Disk, c: Crew, turn: int, provider: string, native: string, since: int)
    requires Crewed(d, c, turn) && c.runner.None?
    requires native != BoundId(d.meta, provider)
    ensures var w := Hear(provider, native, true, HistoryFor(d, provider, since, false));
            var d' := Apply(d, w);
            && Allowed(d, w) && OnlyNative(d, d', provider) && d'.meta == d.meta && Crewed(d', c, turn)
            && (since <= 0 ==> HoldsUpTo(d', provider, native, |d.log|)) && d'.broken == d.broken
  {
    hide LogTurn, HistoryFor;
    if since <= 0 { OpenedHolds(d, provider, native, since); }
    HistoryInLog(d, provider, since, false);
  }

  /** A recovery still compacting has no message that could have been taken. */
  lemma CutShortOf(d: Disk)
    ensures d.meta.recovery.Some? && d.meta.recovery.value.messageId.Some? ==>
              (RecoveryCutShort(d) <==> HowFar(d.log, d.meta.historyStart,
                                               d.meta.recovery.value.messageId.value).CutShort?)
    ensures RecoveryCutShort(d) ==> d.meta.recovery.Some? && d.meta.recovery.value.messageId.Some?
  {
  }

  lemma CutShortStill(d: Disk, d': Disk)
    requires d'.meta == d.meta && d'.log == d.log
    ensures RecoveryCutShort(d') == RecoveryCutShort(d)
  {
  }

  /** The runner adopted is in charge from here, with no hole in what it was told. */
  function Manned(c: Crew, runner: Runner, epoch: nat, signature: Signature, turn: int): Crew {
    c.(runner := Some(runner), epoch := Some(epoch), turns := c.turns[epoch := turn], ceiling := None,
       current := Some(signature))
  }

  /** The disk once a provider's session is let go, id and mark. */
  function LetGo(d: Disk, c: Crew, turn: int, name: string): Disk {
    Recorded(Apply(Apply(d, Bind(name, "", true)), MarkSynced(name, -1)), Plain(Config, name, "reopening"), c, turn)
  }

  /** The disk once a provider was said to be up. */
  function Announced(d: Disk, c: Crew, turn: int, name: string, anew: bool): Disk {
    var up := Recorded(d, Plain(Config, name, "launch"), c, turn);
    if anew then Recorded(up, Plain(NewSession, name, ""), c, turn) else up
  }

  /** The disk once the runner now in charge is bound, marked if it has its seed, and announced. */
  function Adopted(d: Disk, c: Crew, turn: int, runner: Runner, anew: bool): Disk {
    var bound := Apply(d, Bind(runner.name, runner.native, runner.seed.Absorbed?));
    var marked := if runner.seed.Absorbed? then Apply(bound, MarkSynced(runner.name, |d.log| - 1)) else bound;
    Announced(marked, c, turn, runner.name, anew)
  }

  predicate Adoptable(c: Crew, runner: Runner, epoch: nat, signature: Signature) {
    && c.runner.None? && runner.native != "" && signature.provider == runner.name
    && runner.name !in c.parked && epoch in c.turns
    && (forall p | p in c.parked :: c.parked[p].epoch != epoch)
  }

  lemma CrewManned(d: Disk, d': Disk, c: Crew, turn: int, runner: Runner, epoch: nat, signature: Signature)
    requires Crewed(d, c, turn) && Adoptable(c, runner, epoch, signature)
    requires OnlyNative(d, d', runner.name) && BoundId(d'.meta, runner.name) == runner.native
    requires Synced(d'.meta, runner.name) < |d.log|
    requires Released(d') && (Trusted(d', runner) ==> HoldsUpTo(d', runner.name, runner.native, |d.log|))
    ensures Crewed(d', Manned(c, runner, epoch, signature, turn), turn)
  {
    hide Released, LogTurn;
    CrewAside(d, d', c, turn, runner.name);
    if Trusted(d', runner) {
      forall k: nat | InScope(d', k) ensures k in Told(d', runner.name, runner.native) { }
    }
  }

  lemma AdoptableNow(c: Crew, runner: Runner, epoch: nat, signature: Signature)
    ensures Adoptable(c, runner, epoch, signature) ==> c.runner.None?
  {
  }

  lemma AdoptionWrites(journal: seq<Write>, d: Disk, c: Crew, turn: int, runner: Runner, epoch: nat,
          signature: Signature)
    requires Stored(journal, d) && Crewed(d, c, turn) && Adoptable(c, runner, epoch, signature)
    requires Trusted(d, runner) ==> HoldsUpTo(d, runner.name, runner.native, |d.log|)
    ensures var d1 := Apply(d, Bind(runner.name, runner.native, runner.seed.Absorbed?));
            var d2 := Apply(d1, MarkSynced(runner.name, |d.log| - 1));
            && Allowed(d, Bind(runner.name, runner.native, runner.seed.Absorbed?))
            && d1.log == d.log
            && Manned(c, runner, epoch, signature, turn).runner == Some(runner)
            && Manned(c, runner, epoch, signature, turn).epoch == Some(epoch)
            && OnlyNative(d, d1, runner.name) && OnlyNative(d, d2, runner.name)
            && BoundId(d1.meta, runner.name) == BoundId(d2.meta, runner.name) == runner.native
            && Synced(d2.meta, runner.name) == |d.log| - 1
            && (runner.seed.Absorbed? ==>
                && Allowed(d1, MarkSynced(runner.name, |d.log| - 1))
                && Crewed(d2, Manned(c, runner, epoch, signature, turn), turn))
            && (!runner.seed.Absorbed? ==> Crewed(d1, Manned(c, runner, epoch, signature, turn), turn))
  {
    hide Stored, LogTurn, Crewed, HoldsUpTo, Delivery.Sound;
    StoredIsSound(journal, d);
    AdoptionAllowed(d, c, turn, runner);
    var d1 := Apply(d, Bind(runner.name, runner.native, runner.seed.Absorbed?));
    var d2 := Apply(d1, MarkSynced(runner.name, |d.log| - 1));
    if runner.seed.Absorbed? {
      CrewManned(d, d2, c, turn, runner, epoch, signature);
    } else {
      CrewManned(d, d1, c, turn, runner, epoch, signature);
    }
  }

  lemma AdoptionAllowed(d: Disk, c: Crew, turn: int, runner: Runner)
    requires Crewed(d, c, turn) && Watermarks.Sound(d) && runner.native != ""
    requires Trusted(d, runner) ==> HoldsUpTo(d, runner.name, runner.native, |d.log|)
    ensures var d1 := Apply(d, Bind(runner.name, runner.native, runner.seed.Absorbed?));
            var d2 := Apply(d1, MarkSynced(runner.name, |d.log| - 1));
            && Allowed(d, Bind(runner.name, runner.native, runner.seed.Absorbed?))
            && OnlyNative(d, d1, runner.name) && OnlyNative(d, d2, runner.name)
            && BoundId(d2.meta, runner.name) == BoundId(d1.meta, runner.name) == runner.native
            && Synced(d2.meta, runner.name) == |d.log| - 1
            && Synced(d1.meta, runner.name) < |d.log| && Synced(d2.meta, runner.name) < |d.log|
            && (runner.seed.Absorbed? ==> Allowed(d1, MarkSynced(runner.name, |d.log| - 1)))
            && Released(d2) && (Trusted(d2, runner) ==> HoldsUpTo(d2, runner.name, runner.native, |d.log|))
            && Released(d1) && (Trusted(d1, runner) ==> HoldsUpTo(d1, runner.name, runner.native, |d.log|))
  {
    var d1 := Apply(d, Bind(runner.name, runner.native, runner.seed.Absorbed?));
    var d2 := Apply(d1, MarkSynced(runner.name, |d.log| - 1));
    if Trusted(d1, runner) {
      HoldingCovers(d, runner.name, runner.native);
      forall k: nat | InScope(d1, k) ensures k in Told(d1, runner.name, runner.native) { assert InScope(d, k); }
      forall k: nat | InScope(d2, k) ensures k in Told(d2, runner.name, runner.native) { assert InScope(d, k); }
      HoldingCovers(d2, runner.name, runner.native);
    }
  }

  lemma HoldsLess(d: Disk, provider: string, native: string, c: int, less: int)
    requires HoldsUpTo(d, provider, native, c) && less <= c
    ensures HoldsUpTo(d, provider, native, less)
  {
    forall k: nat | InScope(d, k) && k <= less ensures k in Told(d, provider, native) { }
  }

  /** What a conversation holds it goes on holding, whatever is bound, marked or logged. */
  lemma HoldsOn(d: Disk, w: Write, provider: string, native: string, c: int)
    requires HoldsUpTo(d, provider, native, c) && c < |d.log| && (w.Bind? || w.MarkSynced? || w.Append?)
    ensures HoldsUpTo(Apply(d, w), provider, native, c)
  {
    var d' := Apply(d, w);
    forall k: nat | InScope(d', k) && k <= c ensures k in Told(d', provider, native) {
      assert d'.log[k] == d.log[k];
      assert InScope(d, k);
    }
  }

  /** What a turn's end does to the mark: it is raised, even where the runner has still to take its seed. */
  function Marking(c: Crew, log: seq<Event>): Write
    requires c.runner.Some?
  {
    var r := c.runner.value;
    if r.seed.Absorbed? then MarkSynced(r.name, Ceiling(c.ceiling, log)) else Overmark(r.name, Ceiling(c.ceiling, log))
  }

  /** A turn that ends moves its provider's mark to the ceiling, or to the end of the log. */
  lemma TurnMarked(journal: seq<Write>, d: Disk, c: Crew, turn: int)
    requires Stored(journal, d) && Crewed(d, c, turn) && c.runner.Some?
    ensures var w := Marking(c, d.log);
            Allowed(d, w) && OnlyNative(d, Apply(d, w), c.runner.value.name) && Crewed(Apply(d, w), c, turn)
  {
    hide Stored, LogTurn, Delivery.Sound;
    StoredIsSound(journal, d);
    var r := c.runner.value;
    if r.seed.Absorbed? {
      SeededMarked(d, c, turn);
    } else {
      UnseededMarked(d, c, turn);
    }
  }

  lemma SeededMarked(d: Disk, c: Crew, turn: int)
    requires Watermarks.Sound(d) && Crewed(d, c, turn) && c.runner.Some? && c.runner.value.seed.Absorbed?
    ensures var w := MarkSynced(c.runner.value.name, Ceiling(c.ceiling, d.log));
            Allowed(d, w) && OnlyNative(d, Apply(d, w), c.runner.value.name) && Crewed(Apply(d, w), c, turn)
  {
    hide LogTurn;
    var r, s := c.runner.value, Ceiling(c.ceiling, d.log);
    var d' := Apply(d, MarkSynced(r.name, s));
    if Trusted(d, r) {
      MarkIsSound(d, r.name, s);
      forall k: nat | InScope(d', k) && k <= s ensures k in Told(d', r.name, r.native) { assert InScope(d, k); }
    }
  }

  lemma UnseededMarked(d: Disk, c: Crew, turn: int)
    requires Crewed(d, c, turn) && c.runner.Some? && !c.runner.value.seed.Absorbed?
    ensures var w := Overmark(c.runner.value.name, Ceiling(c.ceiling, d.log));
            Allowed(d, w) && OnlyNative(d, Apply(d, w), c.runner.value.name) && Crewed(Apply(d, w), c, turn)
  {
    hide LogTurn, HoldsUpTo;
  }

  /** What the runner in charge was handed and has yet to take in. */
  function Seeds(d: Disk, c: Crew): Write
    requires c.runner.Some?
  {
    Hear(c.runner.value.name, c.runner.value.native, false, Owed(d, c.runner.value, Ceiling(c.ceiling, d.log)))
  }

  /** With that taken in, a session opened anew makes good whatever became of the ones before it. */
  function TakenIn(d: Disk, c: Crew): Disk
    requires c.runner.Some?
  {
    if c.runner.value.seed.Absorbed? then d
    else if c.runner.value.seed.Missed? then Apply(d, Seeds(d, c))
    else Apply(Apply(d, Seeds(d, c)), Write.Seeded(c.runner.value.name))
  }

  function Settled(c: Crew): Crew
    requires c.runner.Some?
  {
    c.(runner := Some(c.runner.value.(seed := Absorbed)))
  }

  /** The runner in charge takes in what it was handed when it came up, along with a message. */
  lemma SeedHeard(journal: seq<Write>, d: Disk, c: Crew, turn: int)
    requires Stored(journal, d) && Crewed(d, c, turn) && c.runner.Some? && !c.runner.value.seed.Absorbed?
    ensures var r := c.runner.value;
            && Allowed(d, Seeds(d, c)) && (r.seed.Whole? ==> Allowed(Apply(d, Seeds(d, c)), Write.Seeded(r.name)))
            && (r.seed.Whole? ==> r.name !in TakenIn(d, c).broken)
            && var d' := TakenIn(d, c);
               d' == d.(told := d'.told, broken := d'.broken) && Crewed(d', Settled(c), turn)
  {
    hide Stored, LogTurn, Delivery.Sound, Owed, Covers, HoldsUpTo;
    StoredIsSound(journal, d);
    SeedAllowed(d, c);
    var r, ceiling := c.runner.value, Ceiling(c.ceiling, d.log);
    if r.seed.Whole? || r.name !in d.broken {
      SeedHolds(d, r, ceiling);
      HoldsThough(Apply(d, Seeds(d, c)), r.name, r.native, ceiling);
    }
    assert r.name !in Unreleased(d.meta);
  }

  lemma SeedAllowed(d: Disk, c: Crew)
    requires RunnerBound(d.meta, c) && MarksAgree(d, c) && c.runner.Some? && !c.runner.value.seed.Absorbed?
    ensures Allowed(d, Seeds(d, c))
    ensures c.runner.value.seed.Whole? ==> Allowed(Apply(d, Seeds(d, c)), Write.Seeded(c.runner.value.name))
  {
    hide Covers, HoldsUpTo, HistoryFor;
    var r := c.runner.value;
    if r.seed.Whole? { WholeSeedCovers(d, r, Ceiling(c.ceiling, d.log)); }
    HistoryInLog(d, r.name, if r.seed.Whole? then 0 else Synced(d.meta, r.name) + 1, !r.seed.Whole?);
  }

  /** What a conversation holds does not depend on whether that is trusted. */
  lemma HoldsThough(d: Disk, provider: string, native: string, c: int)
    requires HoldsUpTo(d, provider, native, c)
    ensures HoldsUpTo(Apply(d, Write.Seeded(provider)), provider, native, c)
  {
    var d' := Apply(d, Write.Seeded(provider));
    forall k: nat | InScope(d', k) && k <= c ensures k in Told(d', provider, native) { assert InScope(d, k); }
  }

  /** Late output the running conversation has not seen is a hole its mark may not cross. */
  function Holed(c: Crew, position: nat): Crew {
    c.(ceiling := Some(if c.ceiling.Some? && c.ceiling.value < position - 1 then c.ceiling.value else position - 1))
  }

  lemma LateCrewed(d: Disk, e: Event, c: Crew, turn: int)
    requires Crewed(d, c, turn) && e.late && !e.kind.Start? && e.turn <= turn
    ensures Crewed(Apply(d, Append(e)), if IsHistory(e) && c.runner.Some? then Holed(c, |d.log|) else c, turn)
  {
    Turns.Counted(d.log, e);
    LogTurnAtLeast(d.log);
    if c.runner.Some? && Trusted(d, c.runner.value) {
      AppendHolds(d, e, c.runner.value.name, c.runner.value.native, Ceiling(c.ceiling, d.log));
    }
  }

  /** Unless its watermark is broken, a provider without a session starts from nothing. */
  lemma NothingBound(d: Disk, c: Crew, turn: int, provider: string)
    requires Crewed(d, c, turn) && provider !in d.broken && BoundId(d.meta, provider) == ""
    ensures Synced(d.meta, provider) == -1
  {
  }

  lemma ParkedKnown(d: Disk, c: Crew, turn: int, provider: string)
    requires Crewed(d, c, turn) && provider in c.parked
    ensures var p := c.parked[provider];
            && p.runner.name == provider && p.runner.native != "" && p.runner.native == BoundId(d.meta, provider)
            && p.synced == Synced(d.meta, provider)
            && p.epoch in c.turns && (forall q | q in c.parked && q != provider :: c.parked[q].epoch != p.epoch)
  {
  }

  /** A parked runner told what it missed can be marked up to date. */
  lemma CaughtUp(journal: seq<Write>, d: Disk, c: Crew, turn: int, provider: string)
    requires Stored(journal, d) && Crewed(d, c, turn) && c.runner.None? && provider !in c.parked
    requires BoundId(d.meta, provider) != ""
    requires provider !in d.broken ==> HoldsUpTo(d, provider, BoundId(d.meta, provider), |d.log|)
    ensures var w := MarkSynced(provider, |d.log| - 1);
            var d' := Apply(d, w);
            && Allowed(d, w) && OnlyNative(d, d', provider) && BoundId(d'.meta, provider) == BoundId(d.meta, provider)
            && Synced(d.meta, provider) <= Synced(d'.meta, provider)
            && Crewed(d', c, turn)
            && (provider !in d.broken ==> HoldsUpTo(d', provider, BoundId(d'.meta, provider), |d.log|))
            && d'.broken == d.broken
  {
    hide Stored, LogTurn, Delivery.Sound;
    StoredIsSound(journal, d);
    var d' := Apply(d, MarkSynced(provider, |d.log| - 1));
    if provider !in d.broken {
      forall k: nat | InScope(d', k)
        ensures k in Told(d', provider, BoundId(d.meta, provider))
      {
        assert InScope(d, k);
      }
      HoldingCovers(d', provider, BoundId(d.meta, provider));
    }
    CrewAside(d, d', c, turn, provider);
  }

  lemma RunnerKnown(d: Disk, c: Crew, turn: int)
    requires Crewed(d, c, turn) && c.runner.Some?
    ensures c.runner.value.name !in c.parked && c.epoch.Some?
    ensures c.current.Some? && c.current.value.provider == c.runner.value.name
    ensures BoundId(d.meta, c.runner.value.name) == c.runner.value.native != ""
  {
  }

  lemma CrewRetuned(d: Disk, c: Crew, turn: int, signature: Signature)
    requires Crewed(d, c, turn) && c.runner.Some? && signature.provider == c.runner.value.name
    ensures Crewed(d, c.(current := Some(signature)), turn)
  {
    hide HoldsUpTo, Released, LogTurn;
  }

  // ------------------------------------------------------------ late output

  /** Output of a runner that has been replaced is logged against the turn that runner last worked on. */
  function Dated(e: Event, c: Crew, epoch: nat): Event {
    if e.turn < 0 && epoch in c.turns then e.(turn := c.turns[epoch]) else e
  }

  lemma DatedInRange(d: Disk, e: Event, c: Crew, turn: int, epoch: nat)
    requires Crewed(d, c, turn) && Unnumbered(e)
    ensures Dated(e, c, epoch).turn <= turn
    ensures c.epoch == Some(epoch) ==> Dated(e, c, epoch).turn == turn
  {
    LogTurnAtLeast(d.log);
  }

  lemma LateAllowed(d: Disk, e: Event, c: Crew, turn: int)
    requires Crewed(d, c, turn) && e.late && e.msg.None? && !Opens(e) && e.turn <= turn
    ensures Allowed(d, Append(e))
    ensures Apply(d, Append(e)).meta == d.meta && Apply(d, Append(e)).log == d.log + [e]
              && SamePhase(d, Apply(d, Append(e)))
  {
    hide LogTurn;
  }

  // -------------------------------------------------------- closing a turn

  /** The oldest unfinished native turn has ended. */
  function Answered(l: Line): Line {
    if l.unanswered == [] then l else l.(unanswered := l.unanswered[1..])
  }

  function AfterAnswered(t: Tally, l: Line): Tally {
    if l.unanswered == [] then t else t.(closed := t.closed + l.unanswered[0])
  }

  lemma QueueAnswered(pending: seq<Msg>, synth: set<Id>, log: seq<Event>, recovery: Option<Recovery>, rewritten: bool,
                      l: Line,
          t: Tally, next: nat)
    requires Queued(pending, synth, log, recovery, rewritten, l, t)
    ensures Queued(pending, synth, log, recovery, rewritten, Answered(l), AfterAnswered(t, l))
    ensures Queued(pending, synth, log, recovery, rewritten, Answered(l).(nextTurns := next), AfterAnswered(t, l))
  {
    hide Mirrors.Mirror, OpenedIds;
    if l.unanswered != [] {
      assert t.closed + Flat(l.unanswered) == (t.closed + l.unanswered[0]) + Flat(l.unanswered[1..]);
    }
  }

  /** During recovery no order is kept, so what was unanswered can be dropped. */
  lemma QueueDropped(pending: seq<Msg>, synth: set<Id>, log: seq<Event>, recovery: Option<Recovery>, rewritten: bool,
                     l: Line, t: Tally)
    requires Queued(pending, synth, log, recovery, rewritten, l, t) && recovery.Some?
    ensures Queued(pending, synth, log, recovery, rewritten, l.(unanswered := []), t)
  {
    hide Mirrors.Mirror, OpenedIds, Texts;
  }

  lemma CrewScattered(d: Disk, c: Crew, turn: int)
    requires Crewed(d, c, turn)
    ensures Crewed(d, c.(parked := map[]), turn)
  {
    hide HoldsUpTo, Released, LogTurn;
  }

  // ------------------------------------------------- whole deliveries, by value

  /** What two writes of a delivery leave alone. */
  predicate SameSettings(d: Disk, d': Disk) {
    && d'.meta.recovery == d.meta.recovery && d'.meta.historyStart == d.meta.historyStart
    && d'.meta.active == d.meta.active
    && SamePhase(d, d') && d'.issued == d.issued
  }

  lemma OpeningTakes(m: Msg, joining: bool, provider: string, c: Crew, turn: int)
    requires c.runner.Some? ==> provider == "" || provider == c.runner.value.name
    requires turn >= -1
    ensures var e := Fill(Opening(m, joining, turn).(provider := provider), c, turn);
            && Takes(e, m, c, turn) && e.msg == Some(m.id)
            && e.turn == if joining then turn else turn + 1
  {
  }

  predicate OwningKeeps(c: Crew, turn: int) {
    Owning(c, turn) == c.(turns := Owning(c, turn).turns)
  }

  lemma OwningKept(c: Crew, turn: int)
    ensures OwningKeeps(c, turn)
  {
  }

  lemma DirectDelivery(journal: seq<Write>, d: Disk, l: Line, t: Tally, c: Crew, turn: int, joining: bool, later: bool)
    requires Stored(journal, d) && Crewed(d, c, turn)
              && Queued(d.meta.pending, d.synth, d.log, d.meta.recovery, d.rewritten, l, t)
    requires l.outbox != [] && (d.meta.recovery.Some? ==> d.meta.recovery.value.messageId == Some(l.outbox[0].id))
    ensures var e := Fill(Opening(l.outbox[0], joining, turn), c, turn);
            var turn' := if joining then turn else turn + 1;
            var d1 := Apply(d, Append(e));
            var d2 := Apply(d1, Complete(l.outbox[0].id));
            && Allowed(d, Append(e)) && Allowed(d1, Complete(l.outbox[0].id))
            && Queued(d2.meta.pending, d2.synth, d2.log, d2.meta.recovery, d2.rewritten, Delivered(l, later),
                      AfterDelivered(t, l, later))
            && Crewed(d2, Owning(c, turn'), turn') && SameSettings(d, d2)
            && Max(turn, e.turn) == turn' && Owning(c, turn').runner == c.runner && Owning(c, turn').epoch == c.epoch
  {
    hide Apply, Allowed, Stored, Queued, Crewed, LogTurn, Delivered, AfterDelivered, Owning, Opening, Fill,
        Takes, Without;
    var m := l.outbox[0];
    TurnKnown(d, c, turn);
    OwningKept(c, if joining then turn else turn + 1);
    OpeningTakes(m, joining, "", c, turn);
    assert Opening(m, joining, turn).(provider := "") == Opening(m, joining, turn) by {
      OpeningUnnamed(m, joining, turn);
    }
    TakingWrites(journal, d, Fill(Opening(m, joining, turn), c, turn), m, l, t, c, turn);
    QueueTaken(d, Fill(Opening(m, joining, turn), c, turn), l, t, later);
  }

  lemma OpeningUnnamed(m: Msg, joining: bool, turn: int)
    ensures Opening(m, joining, turn).provider == ""
    ensures Opening(m, joining, turn).(provider := "") == Opening(m, joining, turn)
  {
  }

  lemma EchoedDelivery(journal: seq<Write>, d: Disk, l: Line, t: Tally, c: Crew, turn: int, opens: bool,
          provider: string)
    requires Stored(journal, d) && Crewed(d, c, turn)
              && Queued(d.meta.pending, d.synth, d.log, d.meta.recovery, d.rewritten, l, t)
    requires l.awaiting != [] && (c.runner.Some? ==> provider == "" || provider == c.runner.value.name)
    ensures var e := Fill(Confirmation(l.awaiting[0], opens, provider, turn), c, turn);
            var turn' := if opens then turn + 1 else turn;
            var d1 := Apply(d, Append(e));
            var d2 := Apply(d1, Complete(l.awaiting[0].id));
            && Allowed(d, Append(e)) && Allowed(d1, Complete(l.awaiting[0].id))
            && Queued(d2.meta.pending, d2.synth, d2.log, d2.meta.recovery, d2.rewritten, Echo(l, opens),
                      AfterEcho(t, l, opens))
            && Crewed(d2, Owning(c, turn'), turn') && SameSettings(d, d2)
            && Max(turn, e.turn) == turn' && Owning(c, turn').runner == c.runner && Owning(c, turn').epoch == c.epoch
  {
    hide Apply, Allowed, Stored, Queued, Crewed, LogTurn, Echo, AfterEcho, Owning, Fill, Takes, Without;
    var m := l.awaiting[0];
    TurnKnown(d, c, turn);
    OwningKept(c, if opens then turn + 1 else turn);
    OpeningTakes(m, !opens, provider, c, turn);
    TakingWrites(journal, d, Fill(Confirmation(m, opens, provider, turn), c, turn), m, l, t, c, turn);
    QueueEchoed(d, Fill(Confirmation(m, opens, provider, turn), c, turn), l, t, opens);
  }

  lemma LateOutput(d: Disk, l: Line, t: Tally, c: Crew, turn: int, e: Event, epoch: nat)
    requires Crewed(d, c, turn) && Queued(d.meta.pending, d.synth, d.log, d.meta.recovery, d.rewritten, l, t)
              && Unnumbered(e)
    ensures var late := Fill(Dated(e, c, epoch).(late := true), c, turn);
            var d' := Apply(d, Append(late));
            && Allowed(d, Append(late))
            && Queued(d'.meta.pending, d'.synth, d'.log, d'.meta.recovery, d'.rewritten, l, t)
            && Crewed(d', if IsHistory(e) && c.runner.Some? then Holed(c, |d.log|) else c, turn)
            && Holed(c, |d.log|).runner == c.runner && Holed(c, |d.log|).epoch == c.epoch
            && d'.log == d.log + [late] && d'.meta == d.meta && SamePhase(d, d') && late.late && late.text == e.text
            && late.kind == e.kind
  {
    hide Crewed, Queued, LogTurn, OpenedIds;
    var late := Fill(Dated(e, c, epoch).(late := true), c, turn);
    DatedInRange(d, e, c, turn, epoch);
    LateAllowed(d, late, c, turn);
    LateCrewed(d, late, c, turn);
    AppendQueued(d, late, l, t);
  }

  /** Without anything to retry, only the unconfirmed writes go back in line. */
  lemma AwaitingReturned(d: Disk, l: Line, t: Tally, c: Crew, turn: int, retry: bool)
    requires Crewed(d, c, turn) && Queued(d.meta.pending, d.synth, d.log, d.meta.recovery, d.rewritten, l, t)
    requires !retry || l.unanswered == []
    ensures var back := Back(l, retry, |d.issued|);
            && back == [] && Requeued(l, back) == Line(l.awaiting + l.outbox, [], [], 0)
            && Queued(d.meta.pending, d.synth, d.log, d.meta.recovery, d.rewritten, Requeued(l, back),
                      AfterClose(t, l, retry, d.meta.recovery.Some?))
            && Crewed(d, c.(runner := None, epoch := None), turn)
            && d.meta == d.meta.(pending := back + d.meta.pending)
  {
    hide Crewed, Queued, LogTurn;
    AwaitingRequeued(d.meta.pending, d.synth, d.log, d.meta.recovery, d.rewritten, l, t, retry, |d.issued|);
    CrewStoodDown(d, c, turn);
    assert [] + d.meta.pending == d.meta.pending;
  }

  /** A record that opens nothing and is not late changes only the log. */
  lemma Noting(d: Disk, l: Line, t: Tally, c: Crew, turn: int, e: Event)
    requires Crewed(d, c, turn) && Queued(d.meta.pending, d.synth, d.log, d.meta.recovery, d.rewritten, l, t)
    requires !Opens(e) && e.msg.None? && !e.late && (e.turn < 0 || e.turn == turn)
    requires IsHistory(e) && c.runner.Some? ==> Fill(e, c, turn).provider == c.runner.value.name
    ensures var noted := Fill(e, c, turn);
            var d' := Apply(d, Append(noted));
            && Allowed(d, Append(noted))
            && Queued(d'.meta.pending, d'.synth, d'.log, d'.meta.recovery, d'.rewritten, l, t)
            && Crewed(d', c, turn)
            && d'.log == d.log + [noted] && d'.meta == d.meta && d'.issued == d.issued && SamePhase(d, d')
            && d'.broken == d.broken
  {
    hide Crewed, Queued, LogTurn, OpenedIds;
    var noted := Fill(e, c, turn);
    TurnKnown(d, c, turn);
    AppendQueued(d, noted, l, t);
    AfterAppend(d, noted);
    AppendCrewed(d, noted, c, turn);
  }

  // --------------------------------------------- recovery records, by stage

  /** The questions of the turn that overflowed, to be asked again once there is room. */
  function Questions(d: Disk, turn: int, delivered: bool): string {
    if delivered then Joined(AskedTexts(d.log, d.meta.historyStart, turn)) else ""
  }

  lemma CompactingFits(d: Disk, c: Crew, turn: int, delivered: bool)
    requires Crewed(d, c, turn) && d.meta.recovery.None?
    ensures var next := Some(Recovery(Compacting, None, Questions(d, turn, delivered)));
            RecoverFits(d, next, None, None) && StageStep(d.meta.recovery, next, d.again)
  {
    TurnKnown(d, c, turn);
  }

  /** The record that goes with a message of recovery's own. */
  function WithMessage(d: Disk, stage: Stage, text: string): Option<Recovery> {
    Some(Recovery(stage, Some(|d.issued|), if stage.Retrying? then text else ""))
  }

  predicate Rotates(stage: Stage) { stage.Handoff? || stage.Continuing? }

  lemma MessageFits(d: Disk, stage: Stage, text: string)
    requires d.meta.recovery.Some? && StageStep(d.meta.recovery, Some(Recovery(stage, None, "")), d.again)
    requires Rotates(stage) || (stage.Retrying? && text == d.meta.recovery.value.retry != "")
    requires stage.Handoff? ==> ContainsAll(text, CarriedTexts(d.log, d.meta.historyStart))
    ensures var next := WithMessage(d, stage, text);
            RecoverFits(d, next, if Rotates(stage) then Some(|d.log|) else None, Some(text))
                && StageStep(d.meta.recovery, next, d.again)
  {
  }

  /** The record that goes with the next message already in line. */
  function Heading(stage: Stage, l: Line): Option<Recovery>
    requires l.outbox != []
  {
    Some(Recovery(stage, Some(l.outbox[0].id), ""))
  }

  lemma HeadFits(d: Disk, l: Line, t: Tally, stage: Stage)
    requires Queued(d.meta.pending, d.synth, d.log, d.meta.recovery, d.rewritten, l, t) && l.outbox != []
    requires d.meta.recovery.Some? && StageStep(d.meta.recovery, Some(Recovery(stage, None, "")), d.again)
    requires stage.Retrying? || stage.Resuming?
    ensures RecoverFits(d, Heading(stage, l), None, None) && StageStep(d.meta.recovery, Heading(stage, l), d.again)
  {
    hide Mirrors.Mirror, InOrder, Held, Undelivered;
    Mirrors.Members(d.meta.pending, l.awaiting + l.outbox, d.synth);
    assert l.outbox[0] in l.awaiting + l.outbox;
    Queues.PendingIdsOf(d.meta.pending, l.outbox[0].id);
  }

  /** Naming the head of the outbox puts it where a restart finds it exactly if no echo is awaited. */
  lemma HeadInFrontIff(journal: seq<Write>, d: Disk, l: Line, t: Tally, stage: Stage)
    requires Stored(journal, d) && Queued(d.meta.pending, d.synth, d.log, d.meta.recovery, d.rewritten, l, t)
    requires l.outbox != [] && (stage.Retrying? || stage.Resuming?)
    requires StageStep(d.meta.recovery, Heading(stage, l), d.again) && RecoverFits(d, Heading(stage, l), None, None)
    ensures Superseded(d.meta.recovery, Heading(stage, l)).None?
    ensures var w := Recover(Heading(stage, l), None, None, None);
            Episodes.Straight(d, l.awaiting + l.outbox) ==> (!Episodes.NamesBehind(d, w) <==> l.awaiting == [])
  {
    hide Watermarks.Sound, Delivery.Sound, Mirrors.Mirror, InOrder, Held, StageStep, RecoverFits, Episodes.AtFront,
        Episodes.NamesBehind, Episodes.Straight;
    StoredIsSound(journal, d);
    var w := Recover(Heading(stage, l), None, None, None);
    if Episodes.Straight(d, l.awaiting + l.outbox) {
      Episodes.NamedAtFrontIff(d, w, l.awaiting, l.outbox);
      Episodes.FrontNamed(d, w);
    }
  }

  /** At this point of the journal the message recovery waits for is in front exactly under this condition. */
  ghost predicate FrontAfterIff(journal: seq<Write>, k: nat, condition: bool) {
    k < |journal| && (Episodes.AtFront(Replay(journal[..k + 1])) <==> condition)
  }

  lemma FrontAfter(before: seq<Write>, d: Disk, journal: seq<Write>, k: nat)
    requires Stored(before, d) && before <= journal && |before| == k + 1
    ensures FrontAfterIff(journal, k, Episodes.AtFront(d))
  {
    assert journal[..k + 1] == before;
  }

  /** The head of the outbox is another message than recovery waited for exactly if that one has left the outbox. */
  lemma NamesAnewIff(d: Disk, l: Line, t: Tally)
    requires Queued(d.meta.pending, d.synth, d.log, d.meta.recovery, d.rewritten, l, t)
    requires d.meta.recovery.Some? && l.outbox != []
    ensures var named := d.meta.recovery.value.messageId;
            t.steady ==> (named != Some(l.outbox[0].id) <==> forall m :: m in l.outbox ==> named != Some(m.id))
  {
    hide InOrder;
    var named := d.meta.recovery.value.messageId;
    if m :| m in l.outbox && named == Some(m.id) {
      if t.steady {
        var live := l.awaiting + l.outbox;
        Mirrors.Members(d.meta.pending, live, d.synth);
        var i :| 0 <= i < |l.outbox| && l.outbox[i] == m;
        assert live[|l.awaiting| + i] == m && m in d.meta.pending;
        forall x | x in l.awaiting ensures x.id != m.id {
          var j :| 0 <= j < |l.awaiting| && l.awaiting[j] == x;
          assert live[j] == x;
        }
        assert live[|l.awaiting|] == l.outbox[0];
      }
    }
  }

  lemma EndFits(d: Disk)
    requires d.meta.recovery.Some?
    ensures RecoverFits(d, None, None, None) && StageStep(d.meta.recovery, None, d.again)
  {
  }

  /** Past the retry there is nothing left to ask again. */
  lemma NothingToRetry(journal: seq<Write>, d: Disk)
    requires Stored(journal, d) && d.meta.recovery.Some?
    ensures var r := d.meta.recovery.value;
            && (r.stage.Handoff? || r.stage.Continuing? || r.stage.Resuming? ==> r.retry == "")
            && (r.stage.Compacting? <==> r.messageId.None?)
  {
    hide Watermarks.Sound, Delivery.QueueSound, Delivery.OpeningsSound, Delivery.FateSound;
    StoredIsSound(journal, d);
  }

  // ----------------------------------------------------------- whole steps

  lemma OneMorePermitted(handed: seq<Hand>, hand: Hand)
    requires AllPermitted(handed) && Permitted(hand)
    ensures AllPermitted(handed + [hand])
  {
  }

  /** A turn whose last group was answered, with `next` native turns still accepted. */
  lemma TurnAnswered(journal: seq<Write>, d: Disk, l: Line, t: Tally, c: Crew, turn: int, next: nat)
    requires Stored(journal, d) && Crewed(d, c, turn)
              && Queued(d.meta.pending, d.synth, d.log, d.meta.recovery, d.rewritten, l, t)
    ensures Queued(d.meta.pending, d.synth, d.log, d.meta.recovery, d.rewritten, Answered(l), AfterAnswered(t, l))
    ensures Queued(d.meta.pending, d.synth, d.log, d.meta.recovery, d.rewritten, Answered(l).(nextTurns := next),
                   AfterAnswered(t, l))
    ensures Answered(l).awaiting == l.awaiting && Answered(l).outbox == l.outbox && Answered(l).nextTurns == l.nextTurns
    ensures c.runner.Some? ==>
              var w := Marking(c, d.log);
              var d' := Apply(d, w);
              Allowed(d, w) && SameQueues(d, d') && d'.log == d.log && Crewed(d', c, turn)
  {
    hide Stored, Crewed, Queued, LogTurn;
    QueueAnswered(d.meta.pending, d.synth, d.log, d.meta.recovery, d.rewritten, l, t, next);
    if c.runner.Some? {
      TurnMarked(journal, d, c, turn);
    }
  }

  predicate SameQueues(d: Disk, d': Disk) {
    SameSettings(d, d') && d'.meta.pending == d.meta.pending && d'.synth == d.synth
  }

  lemma ProvidersWritten(d: Disk, l: Line, t: Tally, c: Crew, turn: int, names: seq<string>)
    requires Crewed(d, c, turn) && Queued(d.meta.pending, d.synth, d.log, d.meta.recovery, d.rewritten, l, t)
    ensures var d' := Apply(d, SetActive(names));
            && Allowed(d, SetActive(names)) && d' == d.(meta := d.meta.(active := Some(names)))
            && Crewed(d', c, turn)
  {
    hide Crewed, Queued;
    CrewUnmoved(d, Apply(d, SetActive(names)), c, turn);
  }

  lemma RetryFollows(d: Disk)
    requires d.meta.recovery.Some? && d.meta.recovery.value.stage.Compacting?
    ensures StageStep(d.meta.recovery, Some(Recovery(Retrying, None, "")), d.again)
  {
  }

  lemma ContinuationFollows(d: Disk)
    requires d.meta.recovery.Some? && d.meta.recovery.value.stage.Handoff?
    ensures StageStep(d.meta.recovery, Some(Recovery(Continuing, None, "")), d.again)
  {
  }

  lemma ResumingFollows(d: Disk)
    requires d.meta.recovery.Some? && (d.meta.recovery.value.stage.Continuing? || d.meta.recovery.value.stage.Resuming?)
    ensures StageStep(d.meta.recovery, Some(Recovery(Resuming, None, "")), d.again)
  {
  }

  // --------------------------------------------- what each step does to the order

  lemma ClosedKeeps(t: Tally, l: Line, retry: bool, recovering: bool, autoremove: bool)
    ensures var base := if recovering then Loose(t) else t;
            && Kept(base, t, autoremove, true) && Kept(base, t, autoremove, false)
            && ((autoremove ==> retry || recovering) ==>
                  && Kept(base, AfterClose(t, l, retry, recovering), autoremove, true)
                  && Kept(base, AfterClose(t, l, retry, recovering), autoremove, false))
  {
  }

  lemma DeliveringKeeps(t: Tally, l: Line, later: bool, autoremove: bool, over: bool)
    ensures Kept(t, AfterDelivered(t, l, later), autoremove, over) && Kept(t, AfterEcho(t, l, later), autoremove, over)
  {
  }

  lemma AnsweringKeeps(t: Tally, l: Line, autoremove: bool, over: bool)
    ensures t.closed + (if l.unanswered == [] then [] else l.unanswered[0]) == AfterAnswered(t, l).closed
    ensures Kept(t, AfterAnswered(t, l), autoremove, over)
  {
  }

  /** Once recovery's next message is written, or recovery is over, the message waited for is in reach again. */
  lemma RecoveringKeeps(t: Tally, l: Line, superseded: Option<Id>, message: Option<Msg>, autoremove: bool, over: bool)
    ensures Kept(t, AfterRecovering(t, l, superseded, message), autoremove, over)
    ensures AfterRecovering(t, l, superseded, message).steady
  {
  }

  lemma KeptOver(a: Tally, b: Tally, autoremove: bool)
    ensures Kept(a, b, autoremove, false) ==> Kept(a, b, autoremove, true)
    ensures Kept(a, b, autoremove, false) ==>
              Kept(Loose(a), b, autoremove, false) && Kept(Loose(a), b, autoremove, true)
    ensures Kept(Loose(a), b, autoremove, false) ==> Kept(a, b, autoremove, true)
  {
  }

  lemma KeptLost(a: Tally, b: Tally, autoremove: bool)
    ensures Kept(Loose(a), b, autoremove, true) ==> Kept(a, b, autoremove, true)
  {
  }

  lemma KeptAgain(a: Tally, b: Tally, c: Tally, autoremove: bool, over: bool)
    requires Kept(Loose(a), b, autoremove, false) && Kept(b, c, autoremove, over) && (over || c.steady)
    ensures Kept(a, c, autoremove, over)
  {
  }

  /** How many later turns were accepted is no part of the queues. */
  lemma TurnsForgotten(pending: seq<Msg>, synth: set<Id>, log: seq<Event>, recovery: Option<Recovery>, rewritten: bool,
                       l: Line,
          t: Tally, next: nat)
    requires Queued(pending, synth, log, recovery, rewritten, l, t)
    ensures Queued(pending, synth, log, recovery, rewritten, l.(nextTurns := next), t)
  {
    hide Mirrors.Mirror, OpenedIds, Texts, Flat;
  }

  /** What the runner in charge reports belongs to the current turn and, if conversation, to its own provider. */
  lemma OwnOutput(d: Disk, c: Crew, turn: int, h: Heard)
    requires Crewed(d, c, turn) && h.Reported? && WellFormed(h) && c.epoch == Some(h.epoch)
    requires c.runner.Some? ==> h.provider == "" || h.provider == c.runner.value.name
    ensures var e := Dated(h.event, c, h.epoch);
            && !Opens(e) && e.msg.None? && !e.late && (e.turn < 0 || e.turn == turn)
            && (c.runner.Some? ==> Fill(e, c, turn).provider == c.runner.value.name)
  {
    DatedInRange(d, h.event, c, turn, h.epoch);
  }

  lemma HoledKeeps(c: Crew, position: nat)
    ensures Holed(c, position) == c.(ceiling := Holed(c, position).ceiling)
  {
  }

  lemma SettingWritten(d: Disk)
    ensures Allowed(d, SetSetting) && Apply(d, SetSetting) == d
  {
  }

  // ------------------------------------------------- opening and stopping

  /** A session opened again: everything on disk is in line, nobody is running. */
  function OpeningLine(pending: seq<Msg>): Line { Line(pending, [], [], 0) }

  const NOBODY: Crew := Crew(None, None, 1, map[], None, map[], None)

  ghost function OpeningTally(d: Disk): Tally {
    var r := d.meta.recovery;
    Tally(Texts(d.meta.pending), [], {}, true,
          r.None? || r.value.messageId.None? || Reachable(r.value.messageId.value, d.log, OpeningLine(d.meta.pending)))
  }

  /** The queue found on disk, less what the log already holds, is the queue in memory. */
  lemma OpeningQueued(d: Disk)
    requires Queues.Distinct(d.meta.pending) && Undelivered(d.meta.pending, d.log)
              && (d.meta.recovery.Some? ==> d.rewritten)
    ensures Queued(d.meta.pending, d.synth, d.log, d.meta.recovery, d.rewritten, OpeningLine(d.meta.pending),
                   OpeningTally(d))
  {
    hide OpenedIds, Without;
    assert [] + d.meta.pending == d.meta.pending;
    assert [] + [] + [] + Texts(d.meta.pending) == Texts(d.meta.pending);
  }

  lemma Reconciled(d: Disk)
    requires Delivery.QueueSound(d.meta.pending, d.issued)
    ensures var left := Without(d.meta.pending, OpenedIds(d.log));
            Queues.Distinct(left) && Undelivered(left, d.log)
  {
    hide OpenedIds, Without;
    Queues.WithoutDistinct(d.meta.pending, OpenedIds(d.log));
    Queues.WithoutMembers(d.meta.pending, OpenedIds(d.log));
  }

  lemma Reopening(journal: seq<Write>, d: Disk, names: seq<string>)
    requires Stored(journal, d)
    ensures var d2 := Apply(Apply(d, Reopen), Reconcile);
            var d3 := Apply(d2, SetActive(names));
            && Allowed(Apply(d, Reopen), Reconcile) && Allowed(d2, SetActive(names))
            && d3.meta.active == Some(names) && d2.meta.active == d.meta.active && d3.cold
            && d2.log == d.log && d3.log == d.log && d3.meta.pending == Episodes.Left(d) && !d3.again
            && (Episodes.AtFront(d) <==> Episodes.AtFront(Apply(d, Reopen)))
            && (OpeningTally(d3).steady <==> Episodes.AtFront(d))
            && Queued(d3.meta.pending, d3.synth, d3.log, d3.meta.recovery, d3.rewritten, OpeningLine(d3.meta.pending),
                      OpeningTally(d3))
            && Crewed(d3, NOBODY, LogTurn(d.log))
  {
    hide Stored, LogTurn, Queued, Watermarks.Sound, Delivery.QueueSound, Delivery.OpeningsSound,
        Delivery.FateSound, Delivery.RecoverySound, OpenedIds, Queues.Distinct, Undelivered, OpeningLine,
        OpeningTally;
    StoredIsSound(journal, d);
    Reconciled(d);
    var d3 := Apply(Apply(Apply(d, Reopen), Reconcile), SetActive(names));
    OpeningQueued(d3);
    SteadyIff(d, d3);
  }

  /**
   The message recovery waits for is in reach from the start exactly if it was in front
   when the session was opened.
   */
  lemma SteadyIff(d: Disk, found: Disk)
    requires found.meta.recovery == d.meta.recovery && found.log == d.log && found.meta.pending == Episodes.Left(d)
    ensures OpeningTally(found).steady <==> Episodes.AtFront(d)
  {
    hide OpenedIds, Without;
  }

  lemma ReopenedIsStored(journal: seq<Write>, d: Disk)
    requires Stored(journal, d)
    ensures Stored(journal + [Reopen], Apply(d, Reopen)) && Unbroken(journal + [Reopen], |journal| + 1)
  {
    Extend(journal, Reopen);
  }

  lemma NobodyPermitted()
    ensures AllPermitted([])
  {
  }

  /** A stop puts unconfirmed writes back where the next opening will find them. */
  function Stopped(l: Line): Line { Line(l.awaiting + l.outbox, [], l.unanswered, 0) }

  ghost predicate SameMessages(a: seq<Msg>, b: seq<Msg>) { forall m :: m in a <==> m in b }

  lemma StoppedInOrder(recovery: Option<Recovery>, rewritten: bool, l: Line, t: Tally, steady: bool)
    requires InOrder(recovery, rewritten, l, t)
    ensures InOrder(recovery, rewritten, Stopped(l), t.(steady := steady))
  {
    hide Flat;
    TextsConcat(l.awaiting, l.outbox);
    if t.lapses == {} {
      var before := t.closed + Flat(l.unanswered);
      assert before + Texts(l.awaiting) + Texts(l.outbox) == before + [] + (Texts(l.awaiting) + Texts(l.outbox));
    }
  }

  lemma QueueStopped(pending: seq<Msg>, synth: set<Id>, log: seq<Event>, recovery: Option<Recovery>, rewritten: bool,
                     l: Line, t: Tally)
    requires Queued(pending, synth, log, recovery, rewritten, l, t)
    ensures Queued(pending, synth, log, recovery, rewritten, Stopped(l), t.(steady := t.steady && recovery.None?))
    ensures t.aligned ==> pending == Stopped(l).outbox
    ensures SameMessages(pending, Stopped(l).outbox)
  {
    hide OpenedIds, Mirrors.Mirror, InOrder, Undelivered;
    assert [] + (l.awaiting + l.outbox) == l.awaiting + l.outbox;
    StoppedInOrder(recovery, rewritten, l, t, t.steady && recovery.None?);
    Mirrors.Members(pending, l.awaiting + l.outbox, synth);
  }

  lemma EndIsNotice(provider: string)
    ensures var e := Plain(End, provider, "").(interrupted := true);
            !Opens(e) && !IsHistory(e) && e.msg.None? && !e.late && e.turn < 0
  {
  }

  lemma KeptAsIs(t: Tally, autoremove: bool)
    ensures Kept(t, t, autoremove, false) && Kept(t, t, autoremove, true)
  {
  }

  lemma NothingYet()
    ensures Stored([], EMPTY)
  {
  }

  lemma Surviving(journal: seq<Write>, d: Disk)
    requires Stored(journal, d)
    ensures forall n :: 0 <= n < |journal| && journal[n].Enqueue? ==> Delivery.Safe(journal, n)
  {
    hide Delivery.Safe, Replay;
    forall n | 0 <= n < |journal| && journal[n].Enqueue? ensures Delivery.Safe(journal, n) {
      Delivery.AcceptedIsNeverLost(journal, n);
    }
  }

  // ------------------------------------------------- exactly when order is lost

  /** The order everything accepted and not yet answered is in. */
  function Order(l: Line): seq<string> { Flat(l.unanswered) + Texts(l.awaiting) + Texts(l.outbox) }

  /** The texts a direct delivery is recorded ahead of, though they came first. */
  function Overtaken(l: Line, later: bool): seq<string> {
    (if later || l.unanswered == [] then [] else Flat(l.unanswered[1..])) + Texts(l.awaiting)
  }

  lemma Swapped<T>(head: seq<T>, x: seq<T>, m: T, tail: seq<T>)
    ensures head + x + [m] + tail == head + [m] + x + tail <==> x + [m] == [m] + x
  {
    var a, b := head + x + [m] + tail, head + [m] + x + tail;
    assert a[|head|..|head| + |x| + 1] == x + [m];
    assert b[|head|..|head| + |x| + 1] == [m] + x;
    if x + [m] == [m] + x {
      assert a == head + (x + [m]) + tail;
      assert b == head + ([m] + x) + tail;
    }
  }

  lemma RememberedInFront(unanswered: seq<seq<string>>, text: string)
    requires unanswered != []
    ensures Flat(unanswered) == unanswered[0] + Flat(unanswered[1..])
    ensures Flat(Remembered(unanswered, text, false)) == unanswered[0] + [text] + Flat(unanswered[1..])
  {
    assert Remembered(unanswered, text, false)[1..] == unanswered[1..];
  }

  lemma Gathered<T>(a: seq<T>, x: seq<T>, y: seq<T>, m: T, rest: seq<T>)
    ensures (a + x) + y + ([m] + rest) == a + (x + y) + [m] + rest
    ensures (a + [m] + x) + y + rest == a + [m] + (x + y) + rest
    ensures (a + x) + ([m] + y) + rest == a + x + [m] + (y + rest)
    ensures (a + [m] + x) + y + rest == a + [m] + x + (y + rest)
  {
  }

  /** Taking the head of the outbox keeps the order if and only if it makes no difference to what it overtakes. */
  lemma DeliveryKeepsOrderIff(l: Line, later: bool)
    requires l.outbox != []
    ensures var x, m := Overtaken(l, later), l.outbox[0].text;
            Order(Delivered(l, later)) == Order(l) <==> x + [m] == [m] + x
  {
    hide Flat, Remembered;
    var x, m, rest := Overtaken(l, later), l.outbox[0].text, Texts(l.outbox[1..]);
    var front := if later || l.unanswered == [] then Flat(l.unanswered) else l.unanswered[0];
    var after := if later || l.unanswered == [] then [] else Flat(l.unanswered[1..]);
    if later || l.unanswered == [] {
      FlatRemembered(l.unanswered, m, later);
      assert front + [] == front && front + [m] + [] == front + [m];
    } else {
      RememberedInFront(l.unanswered, m);
    }
    Gathered(front, after, Texts(l.awaiting), m, rest);
    Swapped(front, x, m, rest);
  }

  /** So does a confirmation, which only an earlier turn's group can be in the way of. */
  lemma EchoKeepsOrderIff(l: Line, opens: bool)
    requires l.awaiting != []
    ensures var x, m := if opens || l.unanswered == [] then [] else Flat(l.unanswered[1..]), l.awaiting[0].text;
            Order(Echo(l, opens)) == Order(l) <==> x + [m] == [m] + x
  {
    hide Flat, Remembered;
    var m, rest := l.awaiting[0].text, Texts(l.awaiting[1..]);
    var front := if opens || l.unanswered == [] then Flat(l.unanswered) else l.unanswered[0];
    var x := if opens || l.unanswered == [] then [] else Flat(l.unanswered[1..]);
    if opens || l.unanswered == [] {
      FlatRemembered(l.unanswered, m, opens);
      assert front + [] == front && front + [m] + [] == front + [m];
    } else {
      RememberedInFront(l.unanswered, m);
    }
    Gathered(front, x, rest, m, Texts(l.outbox));
    Swapped(front, x, m, rest + Texts(l.outbox));
  }

  /** Moving to another provider with a retry loses nothing and permutes nothing. */
  lemma FailoverKeepsOrder(l: Line, next: Id)
    ensures Order(Requeued(l, Back(l, true, next))) == Order(l)
  {
    TextsOfStamp(Flat(l.unanswered), next);
    TextsRequeued(Back(l, true, next), l.awaiting, l.outbox);
    assert [] + [] + (Flat(l.unanswered) + (Texts(l.awaiting) + Texts(l.outbox))) == Order(l);
  }

  /** Without one, exactly the unanswered texts are given up. */
  lemma ClosingGivesUp(l: Line)
    ensures Order(l) == Flat(l.unanswered) + Order(Requeued(l, []))
  {
    TextsRequeued([], l.awaiting, l.outbox);
    assert [] + [] + ([] + (Texts(l.awaiting) + Texts(l.outbox))) == Texts(l.awaiting) + Texts(l.outbox);
    assert Flat(l.unanswered) + (Texts(l.awaiting) + Texts(l.outbox)) == Order(l);
  }

  /**
   A crash between two wakes costs nothing: every watermark that could be trusted
   still can, and every session it belongs to still holds all it is presumed to.
   */
  lemma CrashBetweenWakes(journal: seq<Write>, d: Disk, c: Crew, turn: int)
    requires Stored(journal, d) && Crewed(d, c, turn)
    ensures var d' := Apply(d, Reopen);
            && d'.broken == d.broken && d'.meta == d.meta
            && forall p :: p !in d.broken && BoundId(d.meta, p) != "" ==> Covers(d', p, BoundId(d.meta, p))
  {
    hide Stored, LogTurn, Delivery.Sound;
    StoredIsSound(journal, d);
    Watermarks.Step(d, Reopen);
    assert d.broken + Unreleased(d.meta) == d.broken;
  }

  // ------------------------------------------------- what recovery turns to

  /** The stage a recovery write moves to, if it does not end the recovery. */
  function StageOf(next: Option<Recovery>): Option<Stage> {
    if next.Some? then Some(next.value.stage) else None
  }

  /** From position `from` on, the first recovery write moves to `stage`. */
  ghost predicate TurnsTo(journal: seq<Write>, from: nat, stage: Option<Stage>) {
    exists k :: from <= k < |journal| && journal[k].Recover? && StageOf(journal[k].next) == stage
        && StaysPut(journal, from, k)
  }

  /** No recovery write between the two positions. */
  predicate StaysPut(journal: seq<Write>, from: nat, to: nat) {
    to <= |journal| && forall j :: from <= j < to ==> !journal[j].Recover?
  }

  lemma StaysPutOn(before: seq<Write>, between: seq<Write>, after: seq<Write>)
    requires before <= between <= after && StaysPut(between, |before|, |between|) && StaysPut(after, |between|, |after|)
    ensures StaysPut(after, |before|, |after|)
  {
    forall j | |before| <= j < |after|
      ensures !after[j].Recover?
    {
      if j < |between| { assert after[j] == between[j]; }
    }
  }

  lemma OneQuiet(journal: seq<Write>, w: Write)
    requires !w.Recover?
    ensures StaysPut(journal, |journal|, |journal|) && StaysPut(journal + [w], |journal|, |journal| + 1)
  {
  }

  lemma Turned(before: seq<Write>, between: seq<Write>, after: seq<Write>, w: Write)
    requires before <= between && StaysPut(between, |before|, |between|) && between + [w] <= after && w.Recover?
    ensures TurnsTo(after, |before|, StageOf(w.next))
  {
    assert after[|between|] == w;
    forall j | |before| <= j < |between| ensures !after[j].Recover? { assert after[j] == between[j]; }
  }

  lemma TurnedSince(before: seq<Write>, between: seq<Write>, after: seq<Write>, stage: Option<Stage>)
    requires before <= between <= after && StaysPut(between, |before|, |between|) && TurnsTo(after, |between|, stage)
    ensures TurnsTo(after, |before|, stage)
  {
    var k :| |between| <= k < |after| && after[k].Recover? && StageOf(after[k].next) == stage
        && StaysPut(after, |between|, k);
    forall j | |before| <= j < k ensures !after[j].Recover? { if j < |between| { assert after[j] == between[j]; } }
  }

  lemma StillTurned(journal: seq<Write>, from: nat, stage: Option<Stage>, more: seq<Write>)
    requires TurnsTo(journal, from, stage) && journal <= more
    ensures TurnsTo(more, from, stage)
  {
    var k :| from <= k < |journal| && journal[k].Recover? && StageOf(journal[k].next) == stage
        && StaysPut(journal, from, k);
    forall j | from <= j < k ensures !more[j].Recover? { assert more[j] == journal[j]; }
    assert more[k] == journal[k];
  }

  /**
   What follows the end of a recovery turn that may have failed, or been broken
   off: the stage to move to, or the end of recovery.
   */
  function Follows(r: Recovery, failure: Option<Failure>, broken: bool, waiting: bool): Option<Stage> {
    var failed := failure.Some? || broken;
    match r.stage
    case Compacting => if failed then Some(Handoff) else if r.retry != "" || waiting then Some(Retrying) else None
    case Retrying => if failure == Some(ContextLimit) then Some(Handoff) else None
    case Handoff => if failed then None else Some(Continuing)
    case _ => if failed || !waiting then None else Some(Resuming)
  }

  predicate Broken(end: Event) { end.interrupted || end.unfinished }

  /** Every such move is one an episode may make, and a fresh session that fails is given up rather than replaced. */
  lemma FollowsIsLegal(r: Recovery, failure: Option<Failure>, broken: bool, waiting: bool, again: bool)
    ensures var next := Follows(r, failure, broken, waiting);
            && (next.Some? ==> StageStep(Some(r), Some(Recovery(next.value, None, "")), again))
            && (failure.Some? && (r.stage.Handoff? || r.stage.Continuing? || r.stage.Resuming?) ==> next.None?)
            && (next == Some(Handoff) ==> failure.Some? || r.stage.Compacting?)
  {
  }

  /** The last thing written since position `from` is a failure somebody can read. */
  predicate Complained(journal: seq<Write>, from: nat) {
    from < |journal| && var last := journal[|journal| - 1]; last.Append? && last.event.kind.Error?
  }

  lemma ComplainedSince(journal: seq<Write>, from: nat, later: nat)
    requires from <= later && Complained(journal, later)
    ensures Complained(journal, from)
  {
  }

  predicate Among(now: seq<string>, was: seq<string>) { forall p | p in now :: p in was }

  // ------------------------------------------------------------- handing over

  /** The messages at the front of `queue`, up to `left`, were handed over one after the other. */
  ghost predicate HandedOver(queue: seq<Msg>, left: seq<Msg>, hands: seq<Hand>, recovery: Option<Recovery>) {
    && |queue| == |hands| + |left| && queue[|hands|..] == left
    && forall k :: 0 <= k < |hands| ==> hands[k] == Hand(queue[k].id, recovery)
  }

  /** How a flush ended: nobody to hand to, everything handed over that may be, or a message turned down. */
  datatype Flushed = Unready | Drained | TurnedDown

  /** What a flush that ended so did: `hands` were made, and `left` is what stayed of the queue. */
  ghost predicate Accounts(end: Flushed, queue: seq<Msg>, left: seq<Msg>, hands: seq<Hand>,
                           recovery: Option<Recovery>) {
    match end
    case Unready => left == queue && hands == []
    case Drained => HandedOver(queue, left, hands, recovery) && (left == [] || !Permitted(Hand(left[0].id, recovery)))
    case TurnedDown => queue != [] && [Hand(queue[0].id, recovery)] <= hands
  }

  lemma NoneHanded(queue: seq<Msg>, recovery: Option<Recovery>)
    ensures HandedOver(queue, queue, [], recovery)
  {
  }

  lemma NoneHandedOver(queue: seq<Msg>, handed: seq<Hand>, recovery: Option<Recovery>)
    ensures Accounts(Unready, queue, queue, handed[|handed|..], recovery)
  {
  }

  lemma LaterPermitted(handed: seq<Hand>, start: nat)
    requires AllPermitted(handed) && start <= |handed|
    ensures AllPermitted(handed[start..]) && (start < |handed| ==> Permitted(handed[start..][0]))
  {
    forall k | 0 <= k < |handed| - start
      ensures Permitted(handed[start..][k])
    {
      assert handed[start..][k] == handed[start + k];
    }
  }

  /** A closed gate lets nothing through: unless the message in front may pass, nothing is handed over at all. */
  lemma NothingPasses(end: Flushed, queue: seq<Msg>, left: seq<Msg>, handed: seq<Hand>, start: nat,
                      recovery: Option<Recovery>)
    requires AllPermitted(handed) && start <= |handed| && Accounts(end, queue, left, handed[start..], recovery)
    requires queue != [] && !Permitted(Hand(queue[0].id, recovery))
    ensures handed[start..] == [] && left == queue
  {
    LaterPermitted(handed, start);
    assert queue[0..] == queue;
  }

  /**
   The gate a reopened session finds: the head of its outbox may pass if and only if the
   message waited for was in front.
   */
  lemma GateAfterReopening(d: Disk)
    requires Delivery.Sound(d) && d.meta.recovery.Some? && !d.meta.recovery.value.stage.Compacting?
    requires d.meta.recovery.value.messageId.Some? && d.meta.recovery.value.messageId.value !in OpenedIds(d.log)
    ensures var found := Apply(Apply(d, Reopen), Reconcile);
            var queue := OpeningLine(found.meta.pending).outbox;
            Episodes.AtFront(d) <==> queue != [] && Permitted(Hand(queue[0].id, found.meta.recovery))
  {
    hide Delivery.Sound, OpenedIds;
    Episodes.ReopenedIff(d);
  }

  /** And if it was not, then however long the queue and whoever is up, a reopened session hands nothing over. */
  lemma WedgedAfterReopening(d: Disk, end: Flushed, left: seq<Msg>, handed: seq<Hand>, start: nat)
    requires Delivery.Sound(d) && d.meta.recovery.Some? && !d.meta.recovery.value.stage.Compacting?
    requires d.meta.recovery.value.messageId.Some? && d.meta.recovery.value.messageId.value !in OpenedIds(d.log)
    requires !Episodes.AtFront(d) && AllPermitted(handed) && start <= |handed|
    requires var found := Apply(Apply(d, Reopen), Reconcile);
             Accounts(end, OpeningLine(found.meta.pending).outbox, left, handed[start..], found.meta.recovery)
    ensures handed[start..] == [] && left == OpeningLine(Apply(Apply(d, Reopen), Reconcile).meta.pending).outbox
  {
    hide Delivery.Sound, OpenedIds, Apply, Episodes.AtFront, Permitted, OpeningLine;
    GateAfterReopening(d);
    var found := Apply(Apply(d, Reopen), Reconcile);
    var queue := OpeningLine(found.meta.pending).outbox;
    if queue != [] { NothingPasses(end, queue, left, handed, start, found.meta.recovery); }
  }

  lemma HandedMore(handed: seq<Hand>, hand: Hand, start: nat)
    requires start <= |handed|
    ensures (handed + [hand])[start..] == handed[start..] + [hand]
  {
  }

  lemma FirstOfAll(queue: seq<Msg>, left: seq<Msg>, recovery: Option<Recovery>)
    requires HandedOver(queue, left, [], recovery)
    ensures left == queue
  {
  }

  lemma OneMoreHanded(queue: seq<Msg>, left: seq<Msg>, hands: seq<Hand>, recovery: Option<Recovery>)
    requires HandedOver(queue, left, hands, recovery) && left != []
    ensures HandedOver(queue, left[1..], hands + [Hand(left[0].id, recovery)], recovery)
  {
  }

  lemma KeptOn(a: Tally, b: Tally, c: Tally, autoremove: bool, over: bool)
    requires Kept(a, b, autoremove, false) && Kept(b, c, autoremove, over)
    ensures Kept(a, c, autoremove, over)
  {
  }

  /**
   The launch looks at the recovery it finds; from then on that moves by its own steps
   only, but for a second handoff.
   */
  lemma LaunchNoted(d: Disk, c: Crew, turn: int)
    requires Crewed(d, c, turn) && d.cold
    ensures var w := Launched(RecoveryCutShort(d));
            Allowed(d, w) && Apply(d, w) == d.(cold := false, again := RecoveryCutShort(d))
                && Crewed(Apply(d, w), c, turn)
  {
    hide RecoveryCutShort;
    CrewUnmoved(d, d.(cold := false, again := RecoveryCutShort(d)), c, turn);
  }

  lemma AmongItself(names: seq<string>)
    ensures Among(names, names)
  {
  }

  /** One more write by the same process, and what it may do to the message recovery waits for. */
  lemma Committed(journal: seq<Write>, d: Disk, w: Write, from: nat)
    requires Stored(journal, d) && Unbroken(journal, from) && Allowed(d, w) && !w.Reopen?
    ensures Stored(journal + [w], Apply(d, w)) && Unbroken(journal + [w], from)
    ensures Episodes.AtFront(d) && !Episodes.Names(w) ==> Episodes.AtFront(Apply(d, w))
    ensures w.Recover? ==> (Episodes.AtFront(Apply(d, w)) <==> !Episodes.NamesBehind(d, w))
  {
    hide Apply, Allowed, Delivery.Sound, Watermarks.Sound, Episodes.AtFront, OpenedIds;
    Extend(journal, w);
    StoredIsSound(journal, d);
    if Episodes.AtFront(d) && !Episodes.Names(w) { Episodes.FrontKept(d, w); }
    if w.Recover? { Episodes.FrontNamed(d, w); }
  }

  lemma SameEnd(e: Event, c: Crew, epoch: nat, turn: int)
    ensures var filled := Fill(Dated(e, c, epoch), c, turn);
            && filled.kind == e.kind && filled.text == e.text && Broken(filled) == Broken(e)
            && FromModel(filled) == FromModel(e)
            && filled.failure == e.failure && filled.willRetry == e.willRetry
  {
  }

  lemma WrittenSince(before: seq<Write>, between: seq<Write>, w: Write, after: seq<Write>)
    requires before <= between
    ensures between + [w] <= after ==> w in after[|before|..]
  {
    if between + [w] <= after { assert after[|before|..][|between| - |before|] == w; }
  }

  /** A longer journal leaves a longer log. */
  lemma {:induction false} LogGrows(journal: seq<Write>, more: seq<Write>)
    requires journal <= more
    ensures Replay(journal).log <= Replay(more).log
    decreases |more|
  {
    if |more| == |journal| {
      assert journal == more;
    } else {
      LogGrows(journal, more[..|more| - 1]);
    }
  }

  lemma {:induction false} StartKept(journal: seq<Write>, from: nat, n: nat)
    requires from <= n && StaysPut(journal, from, n)
    ensures Replay(journal[..n]).meta.historyStart == Replay(journal[..from]).meta.historyStart
    decreases n
  {
    hide Apply;
    if n > from {
      StartKept(journal, from, n - 1);
      assert journal[..n][..n - 1] == journal[..n - 1];
      StartStays(Replay(journal[..n - 1]), journal[n - 1]);
    }
  }

  lemma StartStays(d: Disk, w: Write)
    requires !w.Recover?
    ensures Apply(d, w).meta.historyStart == d.meta.historyStart
  {
  }

  /** The next recovery write is a handoff whose message holds all of these texts. */
  ghost predicate HandsOver(journal: seq<Write>, from: nat, carried: seq<string>) {
    exists k :: from <= k < |journal| && journal[k].Recover? && StageOf(journal[k].next) == Some(Handoff)
        && StaysPut(journal, from, k)
                && journal[k].message.Some? && ContainsAll(journal[k].message.value, carried)
  }

  /** A handoff's message holds everything said since the history was last restarted. */
  lemma HandoffHandsOver(journal: seq<Write>, from: nat)
    requires Legal(journal) && TurnsTo(journal, from, Some(Handoff))
    ensures var d := Replay(journal[..from]); HandsOver(journal, from, CarriedTexts(d.log, d.meta.historyStart))
  {
    hide Apply, CarriedTexts, Contains, Allowed, Legal, Replay;
    var k :| from <= k < |journal| && journal[k].Recover? && StageOf(journal[k].next) == Some(Handoff)
        && StaysPut(journal, from, k);
    Watermarks.Prefix(journal, k + 1);
    StartKept(journal, from, k);
    assert journal[..from] == journal[..k][..from];
    LogGrows(journal[..from], journal[..k]);
    HandoffFits(Replay(journal[..from]), Replay(journal[..k]), journal[k]);
  }

  lemma HandoffFits(was: Disk, now: Disk, w: Write)
    requires Allowed(now, w) && w.Recover? && StageOf(w.next) == Some(Handoff)
    requires was.log <= now.log && was.meta.historyStart == now.meta.historyStart
    ensures w.message.Some? && ContainsAll(w.message.value, CarriedTexts(was.log, was.meta.historyStart))
  {
    hide CarriedTexts, Contains;
    Transcripts.CarriedGrows(now.log, |was.log|, now.meta.historyStart);
    assert now.log[..|was.log|] == was.log;
    var carried := CarriedTexts(was.log, was.meta.historyStart);
    forall text | text in carried ensures Contains(w.message.value, text) {
      var i :| 0 <= i < |carried| && carried[i] == text;
      assert CarriedTexts(now.log, now.meta.historyStart)[i] == text;
    }
  }

  lemma HandoffCarries(before: seq<Write>, d: Disk, journal: seq<Write>, d': Disk)
    requires Stored(before, d) && Stored(journal, d') && before <= journal && TurnsTo(journal, |before|, Some(Handoff))
    ensures HandsOver(journal, |before|, CarriedTexts(d.log, d.meta.historyStart))
  {
    hide TurnsTo, HandsOver, CarriedTexts;
    assert journal[..|before|] == before;
    HandoffHandsOver(journal, |before|);
  }

  lemma LogKept(before: seq<Write>, d: Disk, journal: seq<Write>, d': Disk)
    requires Stored(before, d) && Stored(journal, d') && before <= journal
    ensures d.log <= d'.log
  {
    LogGrows(before, journal);
  }

  /** What was reported has reached the log. */
  predicate Heeded(log: seq<Event>, from: nat, e: Event) {
    exists k :: from <= k < |log| && log[k].kind == e.kind && log[k].text == e.text
  }

  lemma HeededHere(log: seq<Event>, k: nat, e: Event)
    requires k < |log| && log[k].kind == e.kind && log[k].text == e.text
    ensures Heeded(log, k, e)
  {
  }

  lemma HeededFirst(before: seq<Write>, d: Disk, journal: seq<Write>, d': Disk, e: Event, filled: Event)
    requires Stored(before, d) && Stored(journal, d') && before + [Append(filled)] <= journal
    requires filled.kind == e.kind && filled.text == e.text
    ensures Heeded(d'.log, |d.log|, e)
  {
    var more := before + [Append(filled)];
    assert more[..|more| - 1] == before;
    LogGrows(more, journal);
    assert Replay(more).log[|d.log|] == filled;
  }

  lemma HeededStill(log: seq<Event>, more: seq<Event>, from: nat, before: nat, e: Event)
    requires Heeded(log, from, e) && log <= more && before <= from
    ensures Heeded(more, before, e)
  {
    var k :| from <= k < |log| && log[k].kind == e.kind && log[k].text == e.text;
    assert more[k] == log[k];
  }

  // --------------------------------------------- what one process's writes come to

  /** The message recovery waits for is delivered, awaiting its echo, or next in line. */
  ghost predicate InReach(recovery: Option<Recovery>, log: seq<Event>, l: Line) {
    recovery.Some? && recovery.value.messageId.Some? ==> Reachable(recovery.value.messageId.value, log, l)
  }

  /** The running conversation, if it can be trusted, holds all history its mark may rise to. */
  ghost predicate RunnerHolds(d: Disk, c: Crew) {
    c.runner.Some? && Trusted(d, c.runner.value) ==>
      HoldsUpTo(d, c.runner.value.name, c.runner.value.native, Ceiling(c.ceiling, d.log))
  }

  /** Since then this provider was bound to a new session, or marked, before it took its seed. */
  ghost predicate BrokenSince(journal: seq<Write>, from: nat, provider: string) {
    exists k: nat :: from <= k && Watermarks.BrokenAt(journal, k, provider) && !journal[k].Reopen?
  }

  ghost predicate RecoversSince(journal: seq<Write>, from: nat) {
    exists k :: from <= k < |journal| && journal[k].Recover?
  }

  /**
   Every watermark that can be trusted is sound; only a session bound or marked before
   its seed can have cost one its trust; and none fell but for a session let go.
   */
  ghost predicate MarksKept(was: Disk, journal: seq<Write>, from: nat, now: Disk) {
    && Covered(now)
    && (forall p :: p in now.broken ==> p in was.broken || BrokenSince(journal, from, p))
    && (forall p {:trigger Synced(now.meta, p)} ::
          Synced(now.meta, p) < Synced(was.meta, p) ==> Watermarks.LetGoBetween(journal, from, |journal|, p))
  }

  lemma {:induction false} RewrittenBy(before: seq<Write>, journal: seq<Write>)
    requires before <= journal && Unbroken(journal, |before|)
    ensures Replay(journal).rewritten ==> Replay(before).rewritten || RecoversSince(journal, |before|)
    decreases |journal|
  {
    hide Legal;
    assert |journal| == |before| ==> before == journal;
    if |journal| > |before| {
      var init, last := journal[..|journal| - 1], journal[|journal| - 1];
      RewrittenBy(before, init);
      if RecoversSince(init, |before|) {
        var k :| |before| <= k < |init| && init[k].Recover?;
        assert journal[k].Recover?;
      }
      assert !last.Reopen?;
    }
  }

  lemma MarksSince(before: seq<Write>, d: Disk, journal: seq<Write>, d': Disk, openedAt: nat)
    requires Stored(before, d) && Stored(journal, d') && before <= journal
    requires Unbroken(before, openedAt) && Unbroken(journal, openedAt)
    ensures MarksKept(d, journal, |before|, d')
    ensures d'.rewritten ==> d.rewritten || RecoversSince(journal, |before|)
  {
    hide Apply, Allowed, Covers, Watermarks.LetsGo;
    Watermarks.Always(journal);
    RewrittenBy(before, journal);
    forall p | p in d'.broken && p !in d.broken
      ensures BrokenSince(journal, |before|, p)
    {
      Watermarks.TrustKept(before, journal, p);
    }
    assert journal[..|before|] == before && journal[..|journal|] == journal;
    forall p {:trigger Synced(d'.meta, p)} | Synced(d'.meta, p) < Synced(d.meta, p)
      ensures Watermarks.LetGoBetween(journal, |before|, |journal|, p)
    {
      Watermarks.FallsOnlyLetGo(journal, |before|, |journal|, p);
    }
  }

  lemma SinceThen(before: seq<Write>, between: seq<Write>, after: seq<Write>)
    requires before <= between <= after && StaysPut(between, |before|, |between|)
    ensures forall stage :: TurnsTo(after, |between|, stage) ==> TurnsTo(after, |before|, stage)
  {
    forall stage | TurnsTo(after, |between|, stage) ensures TurnsTo(after, |before|, stage) {
      TurnedSince(before, between, after, stage);
    }
  }
}
