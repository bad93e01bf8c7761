/**
 Journals that end where one might not expect, each written out as the conductor
 writes it: a launch, a delivery or the end of a turn leaves all its records. The
 providers do what their adapters do.
 */
module Mishaps {
  import opened Options
  import opened Session
  import opened Episodes
  import Conducting
  import Queues
  import Rewinding
  import Transcripts
  import Turns

  const CLAUDE := "claude-code-cli"
  const CODEX := "codex-app-server"
  const AGY := "antigravity-cli"

  // ------------------------------------------------------ what the conductor writes

  /** A record that opens nothing, in turn `turn`. */
  function Noted(kind: Kind, provider: string, text: string, turn: int): Event {
    Conducting.Plain(kind, provider, text).(turn := turn)
  }

  /** The provider is out of room. */
  function Overflow(provider: string, text: string, turn: int): Event {
    Conducting.Failed(ContextLimit, provider, text).(turn := turn)
  }

  function Taken(m: Msg, provider: string, turn: int): Event {
    Noted(Start, provider, m.text, turn).(msg := Some(m.id))
  }

  /** A process opens the session, drops what was delivered, and pins the providers. */
  function Opens(name: string): seq<Write> { [Reopen] + [Reconcile] + [SetActive([name])] }

  /** A provider comes up with a new session, and there is nothing to tell it. */
  function Rises(name: string, native: string, at: nat, turn: int): seq<Write> {
    [Hear(name, native, true, {})] + [Bind(name, native, true)] + [MarkSynced(name, at - 1)]
      + [Append(Noted(Config, name, "launch", turn))] + [Append(Noted(NewSession, name, "", turn))]
  }

  /** A message opens a turn, and is retired. */
  function Delivers(m: Msg, name: string, turn: int): seq<Write> { [Append(Taken(m, name, turn))] + [Complete(m.id)] }

  // --------------------------------------------------------------- and what is left

  /** What the next record depends on. */
  ghost predicate At(journal: seq<Write>, d: Disk, turn: int, seen: set<Id>) {
    && Stored(journal, d)
    && turn >= -1 && LogTurn(d.log) == turn && OpenedIds(d.log) == seen
  }

  lemma AtFirst()
    ensures At([], EMPTY, -1, {})
  {
  }

  lemma Writes(journal: seq<Write>, d: Disk, turn: int, seen: set<Id>, w: Write, d': Disk)
    requires At(journal, d, turn, seen) && Allowed(d, w) && Apply(d, w) == d' && d'.log == d.log
    ensures At(journal + [w], d', turn, seen)
  {
    hide Allowed, OpenedIds, Apply;
    Adding(journal, d, w);
  }

  /** Recovery moves to a stage with a message of its own, in a new session. */
  function Rotated(d: Disk, next: Recovery, text: string): Disk {
    d.(meta := Meta([Msg(|d.issued|, text)] + d.meta.pending, map[], Some(next), |d.log|, d.meta.active),
       issued := d.issued + [text], synth := d.synth + {|d.issued|}, broken := {}, rewritten := true, again := false)
  }

  lemma Rotating(d: Disk, next: Recovery, text: string)
    requires d.meta.recovery.Some? && StageStep(d.meta.recovery, Some(next), d.again)
              && !d.meta.recovery.value.stage.Retrying?
    requires next.messageId == Some(|d.issued|) && next.retry == "" && (next.stage.Handoff? || next.stage.Continuing?)
    requires next.stage.Handoff? ==> ContainsAll(text, CarriedTexts(d.log, d.meta.historyStart))
    ensures var w := Recover(Some(next), Some(|d.log|), Some(text), None);
            Allowed(d, w) && Apply(d, w) == Rotated(d, next, text)
  {
    hide CarriedTexts, Contains;
    Queues.WithoutNone(d.meta.pending, {});
    assert d.retired + {} == d.retired;
  }

  lemma Compaction(d: Disk, retry: string)
    requires d.meta.recovery.None?
    requires retry == "" || retry == Joined(AskedTexts(d.log, d.meta.historyStart, LogTurn(d.log)))
    ensures var w := Recover(Some(Recovery(Compacting, None, retry)), None, None, None);
            && Allowed(d, w)
            && Apply(d, w) == d.(meta := d.meta.(recovery := w.next), rewritten := true, again := false)
  {
    hide LogTurn, AskedTexts;
    Queues.WithoutNone(d.meta.pending, {});
    assert d.retired + {} == d.retired;
  }

  lemma Launching(d: Disk)
    requires d.cold
    ensures var again := RecoveryCutShort(d);
            Allowed(d, Launched(again)) && Apply(d, Launched(again)) == d.(cold := false, again := again)
  {
    hide RecoveryCutShort;
  }

  lemma Queueing(d: Disk, text: string)
    ensures Allowed(d, Enqueue(text))
    ensures Apply(d, Enqueue(text)) ==
            d.(meta := d.meta.(pending := d.meta.pending + [Msg(|d.issued|, text)]), issued := d.issued + [text])
  {
  }

  lemma Notes(journal: seq<Write>, d: Disk, turn: int, seen: set<Id>, e: Event)
    requires At(journal, d, turn, seen) && !IsHistory(e) && e.msg.None? && !e.late && e.turn == turn
    ensures At(journal + [Append(e)], d.(log := d.log + [e]), turn, seen)
  {
    hide OpenedIds, LogTurn;
    Adding(journal, d, Append(e));
    Turns.Counted(d.log, e);
    Queues.OpenedAfter(d.log, e);
    assert seen + {} == seen;
  }

  lemma Opening(journal: seq<Write>, d: Disk, turn: int, seen: set<Id>, name: string)
    requires At(journal, d, turn, seen) && Unreleased(d.meta) == {}
    requires forall m | m in d.meta.pending :: m.id !in seen
    ensures At(journal + Opens(name),
               d.(meta := d.meta.(active := Some([name])), cold := true, again := false,
                  rewritten := d.meta.recovery.Some?),
               turn, seen)
  {
    hide OpenedIds, LogTurn, At;
    var d1 := d.(cold := true, again := false, rewritten := d.meta.recovery.Some?);
    var d2 := d1.(meta := d1.meta.(active := Some([name])));
    AtIs(journal, d, turn, seen);
    assert d.broken + {} == d.broken;
    Queues.WithoutNone(d.meta.pending, seen);
    Writes(journal, d, turn, seen, Reopen, d1);
    Writes(journal + [Reopen], d1, turn, seen, Reconcile, d1);
    Writes(journal + [Reopen] + [Reconcile], d1, turn, seen, SetActive([name]), d2);
    assert journal + [Reopen] + [Reconcile] + [SetActive([name])] == journal + Opens(name);
  }

  /** No conversation is told anything where there is none to tell. */
  lemma NothingMissed(d: Disk, name: string, native: string)
    requires d.meta.historyStart >= |d.log|
    ensures Covers(d, name, native)
  {
  }

  function Risen(d: Disk, name: string, native: string, turn: int): Disk {
    d.(meta := d.meta.(natives := d.meta.natives[name := Native(native, |d.log| - 1)]),
       log := d.log + [Noted(Config, name, "launch", turn)] + [Noted(NewSession, name, "", turn)],
       told := d.told[(name, native) := {}])
  }

  lemma Rising(journal: seq<Write>, d: Disk, turn: int, seen: set<Id>, name: string, native: string)
    requires At(journal, d, turn, seen) && name !in d.meta.natives && native != ""
    requires d.meta.historyStart >= |d.log|
    ensures At(journal + Rises(name, native, |d.log|, turn), Risen(d, name, native, turn), turn, seen)
  {
    hide OpenedIds, LogTurn, At, Allowed, Apply;
    var d1 := d.(told := d.told[(name, native) := {}]);
    var d2 := d1.(meta := d1.meta.(natives := d1.meta.natives[name := Native(native, -1)]));
    var d3 := d1.(meta := d1.meta.(natives := d1.meta.natives[name := Native(native, |d.log| - 1)]));
    RisesAllowed(d, d1, d2, d3, turn, name, native);
    AtIs(journal, d, turn, seen);
    Writes(journal, d, turn, seen, Hear(name, native, true, {}), d1);
    Writes(journal + [Hear(name, native, true, {})], d1, turn, seen, Bind(name, native, true), d2);
    var bound := journal + [Hear(name, native, true, {})] + [Bind(name, native, true)];
    Writes(bound, d2, turn, seen, MarkSynced(name, |d.log| - 1), d3);
    var up := bound + [MarkSynced(name, |d.log| - 1)];
    var launch, begun := Noted(Config, name, "launch", turn), Noted(NewSession, name, "", turn);
    Notes(up, d3, turn, seen, launch);
    Notes(up + [Append(launch)], d3.(log := d3.log + [launch]), turn, seen, begun);
    assert up + [Append(launch)] + [Append(begun)] == journal + Rises(name, native, |d.log|, turn);
  }

  lemma AtIs(journal: seq<Write>, d: Disk, turn: int, seen: set<Id>)
    requires At(journal, d, turn, seen)
    ensures OpenedIds(d.log) == seen && LogTurn(d.log) == turn && Stored(journal, d)
  {
  }

  lemma RisesAllowed(d: Disk, d1: Disk, d2: Disk, d3: Disk, turn: int, name: string, native: string)
    requires name !in d.meta.natives && native != "" && d.meta.historyStart >= |d.log|
    requires d1 == d.(told := d.told[(name, native) := {}])
    requires d2 == d1.(meta := d1.meta.(natives := d1.meta.natives[name := Native(native, -1)]))
    requires d3 == d1.(meta := d1.meta.(natives := d1.meta.natives[name := Native(native, |d.log| - 1)]))
    ensures Allowed(d, Hear(name, native, true, {})) && Apply(d, Hear(name, native, true, {})) == d1
    ensures Allowed(d1, Bind(name, native, true)) && Apply(d1, Bind(name, native, true)) == d2
    ensures Allowed(d2, MarkSynced(name, |d.log| - 1)) && Apply(d2, MarkSynced(name, |d.log| - 1)) == d3
  {
    NothingMissed(d1, name, native);
    NothingMissed(d3, name, native);
    assert d2.meta.natives[name := Native(native, |d.log| - 1)] == d3.meta.natives;
  }

  function Delivered(d: Disk, m: Msg, name: string, native: string, turn: int): Disk {
    d.(meta := d.meta.(pending := Without(d.meta.pending, {m.id})), log := d.log + [Taken(m, name, turn)],
       told := d.told[(name, native) := Told(d, name, native) + {|d.log|}])
  }

  lemma Delivering(journal: seq<Write>, d: Disk, turn: int, seen: set<Id>, m: Msg, name: string, native: string)
    requires At(journal, d, turn, seen) && BoundId(d.meta, name) == native != ""
    requires m in d.meta.pending && m.id !in seen
    ensures At(journal + Delivers(m, name, turn + 1), Delivered(d, m, name, native, turn + 1), turn + 1, seen + {m.id})
  {
    hide OpenedIds, LogTurn;
    var e := Taken(m, name, turn + 1);
    var d1 := d.(log := d.log + [e], told := d.told[(name, native) := Told(d, name, native) + {|d.log|}]);
    Adding(journal, d, Append(e));
    Turns.Counted(d.log, e);
    Queues.OpenedAfter(d.log, e);
    assert At(journal + [Append(e)], d1, turn + 1, seen + {m.id});
    Writes(journal + [Append(e)], d1, turn + 1, seen + {m.id}, Complete(m.id), Delivered(d, m, name, native, turn + 1));
    assert journal + [Append(e)] + [Complete(m.id)] == journal + Delivers(m, name, turn + 1);
  }

  /** A session opened for the first time, with its provider up. */
  function Begins(name: string, native: string): seq<Write> {
    Opens(name) + [Launched(false)] + Rises(name, native, 0, -1)
  }

  function Begun(name: string, native: string): Disk {
    Risen(EMPTY.(meta := EMPTY.meta.(active := Some([name]))), name, native, -1)
  }

  lemma Beginning(name: string, native: string)
    requires native != ""
    ensures At(Begins(name, native), Begun(name, native), -1, {})
  {
    hide LogTurn, OpenedIds, At;
    var empty: seq<Write> := [];
    AtFirst();
    Opening(empty, EMPTY, -1, {}, name);
    assert empty + Opens(name) == Opens(name);
    var d := EMPTY.(meta := EMPTY.meta.(active := Some([name])));
    Writes(Opens(name), d.(cold := true), -1, {}, Launched(false), d);
    Rising(Opens(name) + [Launched(false)], d, -1, {}, name, native);
  }

  const QUESTION := Msg(0, "question")

  /** The provider was asked something, and took it at once. */
  function Asks(name: string, native: string): seq<Write> {
    Begins(name, native) + [Enqueue("question")] + Delivers(QUESTION, name, 0)
  }

  function Asked(name: string, native: string): Disk {
    Begun(name, native).(
      log := [Noted(Config, name, "launch", -1), Noted(NewSession, name, "", -1), Taken(QUESTION, name, 0)],
      issued := ["question"], told := map[(name, native) := {2}])
  }

  lemma Asking(name: string, native: string)
    requires native != ""
    ensures At(Asks(name, native), Asked(name, native), 0, {0})
  {
    hide OpenedIds, LogTurn, At, Allowed, Apply;
    var d0 := Begun(name, native);
    Beginning(name, native);
    var d1 := d0.(meta := d0.meta.(pending := [QUESTION]), issued := ["question"]);
    assert [] + [QUESTION] == [QUESTION] && [] + ["question"] == ["question"];
    Queueing(d0, "question");
    Writes(Begins(name, native), d0, -1, {}, Enqueue("question"), d1);
    Delivering(Begins(name, native) + [Enqueue("question")], d1, -1, {}, QUESTION, name, native);
    assert Delivered(d1, QUESTION, name, native, 0) == Asked(name, native) by {
      assert Told(d1, name, native) + {2} == {2};
      assert Without([QUESTION], {0}) == [];
    }
    assert {} + {QUESTION.id} == {0};
  }

  // ------------------------------------------------------ a session let go by half

  /**
   Codex answers, and then the prompt is changed and something else asked. Its
   session is let go, in two writes, and the process stops between them: the old
   mark is left without the session it measured, and the session opened in its
   place is not told what lies under the mark.
   */
  lemma CrashInsideRelease() returns (journal: seq<Write>)
    ensures Legal(journal)
    ensures journal == Asks(CODEX, "thread") + [Append(Noted(End, CODEX, "", 0))] + [MarkSynced(CODEX, 3)]
                         + [SetSetting] + [Append(Noted(Config, CODEX, "", 0))]
                         + [Enqueue("again")] + [Bind(CODEX, "", true)]
    ensures var d := Replay(journal);
            && InScope(d, 2) && d.log[2].text == "question"
            && BoundId(d.meta, CODEX) == ""
            && 2 !in HistoryFor(d, CODEX, Synced(d.meta, CODEX) + 1, false)
            && CODEX !in d.broken && CODEX in Apply(d, Reopen).broken
  {
    hide OpenedIds, LogTurn, At, Allowed, Apply, Replay, Legal, Asks, InScope, HistoryFor, Covers;
    var end, changed := Noted(End, CODEX, "", 0), Noted(Config, CODEX, "", 0);
    Asking(CODEX, "thread");
    var asked, d0 := Asks(CODEX, "thread"), Asked(CODEX, "thread");
    Notes(asked, d0, 0, {0}, end);
    var d1 := d0.(log := d0.log + [end]);
    var d2 := d1.(meta := d1.meta.(natives := map[CODEX := Native("thread", 3)]));
    MarkedThree(d1, d2);
    Writes(asked + [Append(end)], d1, 0, {0}, MarkSynced(CODEX, 3), d2);
    Setting(d2);
    var marked := asked + [Append(end)] + [MarkSynced(CODEX, 3)];
    Writes(marked, d2, 0, {0}, SetSetting, d2);
    Notes(marked + [SetSetting], d2, 0, {0}, changed);
    assert d2.log[2] == Taken(QUESTION, CODEX, 0);
    journal := LettingGo(marked + [SetSetting] + [Append(changed)], d2.(log := d2.log + [changed]));
  }

  lemma LettingGo(journal: seq<Write>, d: Disk) returns (more: seq<Write>)
    requires At(journal, d, 0, {0}) && |d.log| == 5 && d.log[2] == Taken(QUESTION, CODEX, 0) && d.meta.historyStart == 0
    requires d.meta.natives == map[CODEX := Native("thread", 3)] && d.broken == {}
    ensures more == journal + [Enqueue("again")] + [Bind(CODEX, "", true)] && Legal(more)
    ensures var d' := Replay(more);
            && InScope(d', 2) && d'.log[2].text == "question" && BoundId(d'.meta, CODEX) == ""
            && 2 !in HistoryFor(d', CODEX, Synced(d'.meta, CODEX) + 1, false)
            && CODEX !in d'.broken && CODEX in Apply(d', Reopen).broken
  {
    hide OpenedIds, LogTurn, At, Allowed, Apply, Replay, Legal, HistoryFor;
    Queueing(d, "again");
    var d1 := d.(meta := d.meta.(pending := d.meta.pending + [Msg(|d.issued|, "again")]),
                 issued := d.issued + ["again"]);
    Writes(journal, d, 0, {0}, Enqueue("again"), d1);
    var d2 := HalfReleased(d1);
    Writes(journal + [Enqueue("again")], d1, 0, {0}, Bind(CODEX, "", true), d2);
    more := journal + [Enqueue("again")] + [Bind(CODEX, "", true)];
    AtIs(more, d2, 0, {0});
  }

  lemma Setting(d: Disk)
    ensures Allowed(d, SetSetting) && Apply(d, SetSetting) == d
  {
  }

  lemma HalfReleased(d: Disk) returns (d': Disk)
    requires d.meta.natives == map[CODEX := Native("thread", 3)] && d.broken == {} && d.meta.historyStart == 0
    requires |d.log| == 5 && d.log[2] == Taken(QUESTION, CODEX, 0)
    ensures Allowed(d, Bind(CODEX, "", true)) && Apply(d, Bind(CODEX, "", true)) == d' && d'.log == d.log
    ensures InScope(d', 2) && BoundId(d'.meta, CODEX) == ""
              && 2 !in HistoryFor(d', CODEX, Synced(d'.meta, CODEX) + 1, false)
    ensures d'.broken == {} && CODEX in Apply(d', Reopen).broken
  {
    d' := d.(meta := d.meta.(natives := map[CODEX := Native("", 3)]));
    assert Apply(d, Bind(CODEX, "", true)).meta.natives == d'.meta.natives;
    assert CODEX in Unreleased(d'.meta);
  }

  lemma MarkedThree(d1: Disk, d2: Disk)
    requires d1 == Asked(CODEX, "thread").(log := Asked(CODEX, "thread").log + [Noted(End, CODEX, "", 0)])
    requires d2 == d1.(meta := d1.meta.(natives := map[CODEX := Native("thread", 3)]))
    ensures Allowed(d1, MarkSynced(CODEX, 3)) && Apply(d1, MarkSynced(CODEX, 3)) == d2
  {
    forall k: nat | Presumed(d2, CODEX, k) ensures k in Told(d2, CODEX, "thread") {
      assert k < 4 && IsHistory(d2.log[k]);
    }
    assert Covers(d2, CODEX, "thread");
  }

  // ------------------------------------------------- a session bound before its seed

  /** The conversation this provider is bound to does not hold event `k`, and will not be handed it when resumed. */
  ghost predicate NeverTold(d: Disk, name: string, k: nat) {
    && InScope(d, k) && k !in Told(d, name, BoundId(d.meta, name))
    && k !in HistoryFor(d, name, Synced(d.meta, name) + 1, true)
  }

  /** The provider in charge says something in the turn that is on. */
  lemma Saying(journal: seq<Write>, d: Disk, turn: int, seen: set<Id>, name: string, native: string, text: string)
    requires At(journal, d, turn, seen) && BoundId(d.meta, name) == native != ""
    ensures var e := Noted(Text, name, text, turn);
            At(journal + [Append(e)],
               d.(log := d.log + [e], told := d.told[(name, native) := Told(d, name, native) + {|d.log|}]), turn, seen)
  {
    hide OpenedIds, LogTurn;
    var e := Noted(Text, name, text, turn);
    Adding(journal, d, Append(e));
    Turns.Counted(d.log, e);
    Queues.OpenedAfter(d.log, e);
    assert seen + {} == seen;
  }

  /** What the launch of a session that was lost adds, up to the bind: agy takes its seed only with the next message. */
  function Rebinds(name: string, native: string): seq<Write> {
    [Launched(false)] + [Append(Noted(Config, name, "reseed", 0))] + [Bind(name, native, false)]
  }

  function Announces(name: string): seq<Write> {
    [Append(Noted(Config, name, "launch", 0))] + [Append(Noted(NewSession, name, "", 0))]
  }

  /**
   Agy is asked, answers, and the process stops. The next one finds its
   conversation lost and opens another, which takes the old one in only with the
   next message; before there is one, this process stops too. The conversation is
   resumed then, and what was asked and answered in the lost one is taken to be in
   it: it is agy's own.
   */
  lemma CrashBeforeDeferredSeed() returns (journal: seq<Write>)
    ensures Legal(journal)
    ensures journal == Asks(AGY, "first") + [Append(Noted(Text, AGY, "answer", 0))]
                         + Opens(AGY) + Rebinds(AGY, "another") + Announces(AGY)
    ensures var d := Replay(journal);
            && BoundId(d.meta, AGY) == "another" && Synced(d.meta, AGY) == -1 && AGY in d.broken
            && NeverTold(d, AGY, 2) && NeverTold(d, AGY, 3)
  {
    hide OpenedIds, LogTurn, At, Allowed, Apply, Replay, Legal, NeverTold, Asks, Rebinds, Announces;
    var answer := Noted(Text, AGY, "answer", 0);
    var asked, d0 := Asks(AGY, "first"), Asked(AGY, "first");
    Asking(AGY, "first");
    Saying(asked, d0, 0, {0}, AGY, "first", "answer");
    var answered := asked + [Append(answer)];
    var d1 := d0.(log := d0.log + [answer], told := d0.told[(AGY, "first") := Told(d0, AGY, "first") + {3}]);
    assert Unreleased(d1.meta) == {};
    Opening(answered, d1, 0, {0}, AGY);
    journal := Lost(answered + Opens(AGY), d1.(cold := true));
    assert answered + Opens(AGY) + (Rebinds(AGY, "another") + Announces(AGY)) ==
           answered + Opens(AGY) + Rebinds(AGY, "another") + Announces(AGY);
  }

  lemma Lost(journal: seq<Write>, d: Disk) returns (more: seq<Write>)
    requires At(journal, d, 0, {0}) && d.cold && d.meta.recovery.None? && d.meta.historyStart == 0 && d.broken == {}
    requires |d.log| == 4 && d.log[2] == Taken(QUESTION, AGY, 0) && d.log[3] == Noted(Text, AGY, "answer", 0)
    requires d.meta.natives == map[AGY := Native("first", -1)] && (AGY, "another") !in d.told
    ensures more == journal + (Rebinds(AGY, "another") + Announces(AGY)) && Legal(more)
    ensures var d' := Replay(more);
            && BoundId(d'.meta, AGY) == "another" && Synced(d'.meta, AGY) == -1 && AGY in d'.broken
            && NeverTold(d', AGY, 2) && NeverTold(d', AGY, 3)
  {
    hide OpenedIds, LogTurn, At, Allowed, Apply, Replay, Legal, NeverTold, Announces;
    var lost := Noted(Config, AGY, "reseed", 0);
    Launching(d);
    var d1 := d.(cold := false, again := false);
    Writes(journal, d, 0, {0}, Launched(false), d1);
    Notes(journal + [Launched(false)], d1, 0, {0}, lost);
    var d2 := d1.(log := d1.log + [lost]);
    var before := journal + [Launched(false)] + [Append(lost)];
    more := Rebound(before, d2);
    assert before + [Bind(AGY, "another", false)] + Announces(AGY) ==
        journal + (Rebinds(AGY, "another") + Announces(AGY));
  }

  lemma Rebound(journal: seq<Write>, d: Disk) returns (more: seq<Write>)
    requires At(journal, d, 0, {0}) && d.broken == {} && d.meta.historyStart == 0
    requires |d.log| == 5 && d.log[2] == Taken(QUESTION, AGY, 0) && d.log[3] == Noted(Text, AGY, "answer", 0)
    requires d.meta.natives == map[AGY := Native("first", -1)] && (AGY, "another") !in d.told
    ensures more == journal + [Bind(AGY, "another", false)] + Announces(AGY) && Legal(more)
    ensures var d' := Replay(more);
            && BoundId(d'.meta, AGY) == "another" && Synced(d'.meta, AGY) == -1 && AGY in d'.broken
            && NeverTold(d', AGY, 2) && NeverTold(d', AGY, 3)
  {
    hide LogTurn, OpenedIds, At, Legal, Replay, Allowed, Apply, NeverTold;
    var launch, begun := Noted(Config, AGY, "launch", 0), Noted(NewSession, AGY, "", 0);
    var d1 := d.(meta := d.meta.(natives := map[AGY := Native("another", -1)]), broken := {AGY});
    BoundEarly(d, d1);
    var bound := journal + [Bind(AGY, "another", false)];
    Writes(journal, d, 0, {0}, Bind(AGY, "another", false), d1);
    Notes(bound, d1, 0, {0}, launch);
    var d2 := d1.(log := d1.log + [launch]);
    Notes(bound + [Append(launch)], d2, 0, {0}, begun);
    var d3 := d2.(log := d2.log + [begun]);
    more := bound + [Append(launch)] + [Append(begun)];
    AtIs(more, d3, 0, {0});
    assert more == bound + Announces(AGY);
    assert d3.log[2] == Taken(QUESTION, AGY, 0) && d3.log[3] == Noted(Text, AGY, "answer", 0);
    Unheard(d3);
  }

  lemma BoundEarly(d: Disk, d': Disk)
    requires d.meta.natives == map[AGY := Native("first", -1)] && d.broken == {}
    requires d' == d.(meta := d.meta.(natives := map[AGY := Native("another", -1)]), broken := {AGY})
    ensures var w := Bind(AGY, "another", false); Allowed(d, w) && Apply(d, w) == d'
  {
    assert d.meta.natives[AGY := Native("another", -1)] == d'.meta.natives;
  }

  lemma Unheard(d: Disk)
    requires |d.log| >= 4 && d.meta.historyStart == 0
    requires d.log[2] == Taken(QUESTION, AGY, 0) && d.log[3] == Noted(Text, AGY, "answer", 0)
    requires d.meta.natives == map[AGY := Native("another", -1)] && (AGY, "another") !in d.told
    ensures NeverTold(d, AGY, 2) && NeverTold(d, AGY, 3)
  {
    assert Own(d, AGY, 2) && Own(d, AGY, 3);
  }

  // ------------------------------------------------------- handing off twice

  const LIMIT_TEXT := "the context is full"
  const COMPACT: Write := Recover(Some(Recovery(Compacting, None, "")), None, None, None)

  /**
   The handoff of a recovery in which nothing was said yet, and the one made again after
   its first message was taken.
   */
  const HANDOFF: Write := Recover(Some(Recovery(Handoff, Some(1), "")), Some(4), Some(LIMIT_TEXT), None)

  function AgainText(): string { Transcripts.HandoffText([LIMIT_TEXT], LIMIT_TEXT) }

  function HandoffAgain(): Write { Recover(Some(Recovery(Handoff, Some(2), "")), Some(8), Some(AgainText()), None) }

  /** Codex refuses a message for want of room, and is compacting. */
  function Refuses(): seq<Write> {
    Begins(CODEX, "one") + [Enqueue("question")] + [Append(Overflow(CODEX, "the message was not taken", -1))]
      + [COMPACT] + [Append(Noted(Config, CODEX, "context_compaction", -1))]
  }

  /** The next process finds no time left to wait for that: it hands off at once, and the handoff's message is taken. */
  function HandsOffAtOnce(): seq<Write> {
    [HANDOFF] + Rises(CODEX, "two", 4, -1) + Delivers(Msg(1, LIMIT_TEXT), CODEX, 0)
  }

  /** Its launch finds that message taken and the turn still on, ends the turn, and hands off again. */
  function HandsOffAgain(): seq<Write> {
    [Launched(true)] + [Append(Noted(End, CODEX, "context_limit", 0))] + [HandoffAgain()]
  }

  /**
   A process stops while codex is compacting; and whoever opens the session next
   hands off twice.
   */
  lemma HandoffTwice() returns (journal: seq<Write>)
    ensures journal == Refuses() + Opens(CODEX) + HandsOffAtOnce() + HandsOffAgain()
    ensures Legal(journal) && OneEpisode(journal, 0)
    ensures MovesBack(Replay(journal[..|journal| - 1]), HandoffAgain())
    ensures Rotations(journal) == 2 && RotationsBy(Replay(journal).meta.recovery) == 1
  {
    hide OpenedIds, LogTurn, At, Replay, Legal, Rotations, Refuses, HandsOffAtOnce, HandsOffAgain;
    var d0 := Refusing();
    assert Unreleased(d0.meta) == {};
    Opening(Refuses(), d0, -1, {}, CODEX);
    var d1 := HandingOff(Refuses() + Opens(CODEX), d0.(cold := true));
    journal := HandingOffAgain(Refuses() + Opens(CODEX) + HandsOffAtOnce(), d1);
    TwoRotations();
    NoneEnded();
    forall k | 0 <= k < |journal|
      ensures !(journal[k].Recover? && journal[k].next.None?)
    {
      assert journal[k] in journal;
    }
  }

  lemma NoneEnded()
    ensures forall w | w in Refuses() + Opens(CODEX) + HandsOffAtOnce() + HandsOffAgain() :: w.Recover? ==> w.next.Some?
  {
    assert forall w | w in Refuses() :: w.Recover? ==> w.next.Some?;
    assert forall w | w in HandsOffAtOnce() :: w.Recover? ==> w.next.Some?;
    assert forall w | w in HandsOffAgain() :: w.Recover? ==> w.next.Some?;
  }

  ghost predicate Waiting(d: Disk, cold: bool) {
    && d.cold == cold && !d.again && d.rewritten && d.issued == ["question"]
    && d.synth == {} && d.retired == {} && d.told == map[(CODEX, "one") := {}]
    && d.meta == Meta([QUESTION], map[CODEX := Native("one", -1)], COMPACT.next, 0, Some([CODEX]))
    && |d.log| == 4 && forall k :: 0 <= k < 4 ==> !IsHistory(d.log[k]) && d.log[k].msg.None?
  }

  lemma Refusing() returns (d: Disk)
    ensures At(Refuses(), d, -1, {}) && Waiting(d, false)
  {
    hide OpenedIds, LogTurn, At, Allowed, Apply, Begins;
    var d0 := Begun(CODEX, "one");
    Beginning(CODEX, "one");
    var d1 := d0.(meta := d0.meta.(pending := [QUESTION]), issued := ["question"]);
    assert [] + [QUESTION] == [QUESTION] && [] + ["question"] == ["question"];
    Queueing(d0, "question");
    Writes(Begins(CODEX, "one"), d0, -1, {}, Enqueue("question"), d1);
    var refused := Overflow(CODEX, "the message was not taken", -1);
    var compacts := Noted(Config, CODEX, "context_compaction", -1);
    var asked := Begins(CODEX, "one") + [Enqueue("question")];
    Notes(asked, d1, -1, {}, refused);
    var d2 := d1.(log := d1.log + [refused]);
    Compaction(d2, "");
    var d3 := d2.(meta := d2.meta.(recovery := COMPACT.next), rewritten := true);
    Writes(asked + [Append(refused)], d2, -1, {}, COMPACT, d3);
    Notes(asked + [Append(refused)] + [COMPACT], d3, -1, {}, compacts);
    d := d3.(log := d3.log + [compacts]);
  }

  ghost predicate Handed(d: Disk) {
    && d.cold && !d.again && |d.issued| == 2 && |d.log| == 7
    && d.meta.recovery == HANDOFF.next && d.meta.historyStart == 4
    && d.log[6] == Taken(Msg(1, LIMIT_TEXT), CODEX, 0)
    && forall k :: 0 <= k < 6 ==> !IsHistory(d.log[k]) && d.log[k].msg.None?
  }

  lemma HandingOff(journal: seq<Write>, d: Disk) returns (d': Disk)
    requires At(journal, d, -1, {}) && Waiting(d, true)
    ensures At(journal + HandsOffAtOnce(), d', 0, {1}) && Handed(d')
  {
    hide OpenedIds, LogTurn, At, Allowed, Apply, Rises, Delivers, ContainsAll, Without;
    var limit := Msg(1, LIMIT_TEXT);
    NoneSaid(d.log, 0, 0);
    NothingContained(LIMIT_TEXT);
    Rotating(d, HANDOFF.next.value, LIMIT_TEXT);
    var d1 := Rotated(d, HANDOFF.next.value, LIMIT_TEXT);
    Writes(journal, d, -1, {}, HANDOFF, d1);
    Rising(journal + [HANDOFF], d1, -1, {}, CODEX, "two");
    var d2 := Risen(d1, CODEX, "two", -1);
    assert d2.meta.pending[0] == limit;
    Delivering(journal + [HANDOFF] + Rises(CODEX, "two", 4, -1), d2, -1, {}, limit, CODEX, "two");
    d' := Delivered(d2, limit, CODEX, "two", 0);
    assert {} + {limit.id} == {1};
    AtOnce(journal);
  }

  lemma NothingContained(text: string)
    ensures ContainsAll(text, [])
  {
  }

  lemma AtOnce(journal: seq<Write>)
    ensures journal + [HANDOFF] + Rises(CODEX, "two", 4, -1) + Delivers(Msg(1, LIMIT_TEXT), CODEX, 0) ==
            journal + HandsOffAtOnce()
  {
    hide Rises, Delivers;
  }

  lemma HandingOffAgain(journal: seq<Write>, d: Disk) returns (more: seq<Write>)
    requires At(journal, d, 0, {1}) && Handed(d)
    ensures more == journal + HandsOffAgain() && Legal(more)
    ensures MovesBack(Replay(more[..|more| - 1]), HandoffAgain()) && RotationsBy(Replay(more).meta.recovery) == 1
  {
    hide OpenedIds, LogTurn, At, CarriedTexts, Allowed, Apply, HowFar, Replay, Legal, AgainText;
    var end := Noted(End, CODEX, "context_limit", 0);
    Rewinding.HowFarIs(d.log, 4, 1, 6);
    assert RecoveryCutShort(d);
    Launching(d);
    var d1 := d.(cold := false, again := true);
    AtIs(journal, d, 0, {1});
    Writes(journal, d, 0, {1}, Launched(true), d1);
    Notes(journal + [Launched(true)], d1, 0, {1}, end);
    var d2 := d1.(log := d1.log + [end]);
    var before := journal + [Launched(true)] + [Append(end)];
    SaidOnce(d.log, end);
    SaysAgain();
    Rotating(d2, HandoffAgain().next.value, AgainText());
    var d3 := Rotated(d2, HandoffAgain().next.value, AgainText());
    Writes(before, d2, 0, {1}, HandoffAgain(), d3);
    AtIs(before, d2, 0, {1});
    AtIs(before + [HandoffAgain()], d3, 0, {1});
    more := before + [HandoffAgain()];
    assert more == journal + HandsOffAgain() && more[..|more| - 1] == before;
  }

  lemma SaysAgain()
    ensures ContainsAll(AgainText(), [LIMIT_TEXT])
  {
    Transcripts.HandoffContains([LIMIT_TEXT], LIMIT_TEXT);
  }

  lemma SaidOnce(log: seq<Event>, end: Event)
    requires |log| == 7 && log[6] == Taken(Msg(1, LIMIT_TEXT), CODEX, 0)
    requires forall k :: 0 <= k < 6 ==> !IsHistory(log[k])
    requires end == Noted(End, CODEX, "context_limit", 0)
    ensures CarriedTexts(log + [end], 4) == [LIMIT_TEXT]
  {
    hide CarriedTexts, AskedTexts;
    Transcripts.NothingMoreCarried(log, end, 4);
    OneSaid(log, 6, 4, 0);
  }

  lemma {:induction false} RotationsConcat(a: seq<Write>, b: seq<Write>)
    ensures Rotations(a + b) == Rotations(a) + Rotations(b)
  {
    if b == [] {
      assert a + b == a;
    } else {
      RotationsConcat(a, b[..|b| - 1]);
      assert (a + b)[..|a + b| - 1] == a + b[..|b| - 1];
    }
  }

  lemma {:induction false} NoRotations(ws: seq<Write>)
    requires forall k :: 0 <= k < |ws| ==> Rotation(ws[k]) == 0
    ensures Rotations(ws) == 0
  {
    if ws != [] {
      NoRotations(ws[..|ws| - 1]);
    }
  }

  lemma TwoRotations()
    ensures Rotations(Refuses() + Opens(CODEX) + HandsOffAtOnce() + HandsOffAgain()) == 2
  {
    hide AgainText;
    var before := Refuses() + Opens(CODEX);
    NoRotations(before);
    RotationsConcat(before + HandsOffAtOnce(), HandsOffAgain());
    RotationsConcat(before, HandsOffAtOnce());
    var rest := Rises(CODEX, "two", 4, -1) + Delivers(Msg(1, LIMIT_TEXT), CODEX, 0);
    assert HandsOffAtOnce() == [HANDOFF] + rest;
    NoRotations(rest);
    RotationsConcat([HANDOFF], rest);
    OneRotation(HANDOFF);
    var last := [Launched(true)] + [Append(Noted(End, CODEX, "context_limit", 0))];
    NoRotations(last);
    RotationsConcat(last, [HandoffAgain()]);
    OneRotation(HandoffAgain());
  }

  lemma OneRotation(w: Write)
    requires w.Recover? && w.since.Some?
    ensures Rotations([w]) == 1
  {
    assert [w][..0] == [];
  }

  // -------------------------------------------------- naming one behind an echo

  const MORE := Msg(1, "more")
  const GO_ON_TEXT := "go on"

  function CarryText(): string { Transcripts.HandoffText(["question"], LIMIT_TEXT) }

  /** Claude cannot compact: the question it ran out of room on is carried over to a new session. */
  function CarryOver(): Write { Recover(Some(Recovery(Handoff, Some(2), "")), Some(5), Some(CarryText()), None) }

  const ASK_AGAIN: Write := Recover(Some(Recovery(Compacting, None, "question")), None, None, None)
  const CONTINUE: Write := Recover(Some(Recovery(Continuing, Some(3), "")), Some(9), Some(GO_ON_TEXT), None)
  const RESUME: Write := Recover(Some(Recovery(Resuming, Some(1), "")), None, None, None)

  /** While claude answers one message another is written to it; then it is out of room, and its turn ends. */
  function Overflows(): seq<Write> {
    Asks(CLAUDE, "one") + [Enqueue("more")] + [Append(Overflow(CLAUDE, "prompt too long", 0))]
      + [Append(Noted(End, CLAUDE, "", 0))] + [ASK_AGAIN]
  }

  /** The handoff's message is confirmed and its turn ends well, so the session is continued in another. */
  function CarriesOver(): seq<Write> {
    [CarryOver()] + Rises(CLAUDE, "two", 5, 0) + Delivers(Msg(2, CarryText()), CLAUDE, 1)
      + [Append(Noted(End, CLAUDE, "", 1))] + [CONTINUE]
  }

  /** The message that continues it is written, and its turn ends, but its echo is never recognised. */
  function EndsUnconfirmed(): seq<Write> {
    Rises(CLAUDE, "three", 9, 1) + [Append(Noted(End, CLAUDE, "", 1))] + [RESUME]
  }

  /**
   Recovery goes on with the message in line while the one that continued the
   session, confirmed by nothing but its END, is still awaited. On disk that one is
   ahead. If the process stops here, the next one finds it at the head of its
   outbox, and a recovery that waits for the second.
   */
  lemma WaitsBehindAnEcho() returns (journal: seq<Write>)
    ensures journal == Overflows() + CarriesOver() + EndsUnconfirmed()
    ensures Legal(journal)
    ensures NamesBehind(Replay(journal[..|journal| - 1]), RESUME) && !AtFront(Replay(journal))
    ensures var found := Apply(Apply(Replay(journal), Reopen), Reconcile);
            found.meta.pending == [Msg(3, GO_ON_TEXT), MORE] && found.meta.recovery == RESUME.next
  {
    hide OpenedIds, LogTurn, CarryText;
    var d0 := Overflowing();
    var d1 := CarryingOver(Overflows(), d0);
    journal := EndingUnconfirmed(Overflows() + CarriesOver(), d1);
  }

  /** Only one thing was said in all that time. */
  lemma {:induction false} OneSaid(log: seq<Event>, k: nat, start: nat, turn: int)
    requires start <= k < |log| && log[k].kind.Start? && log[k].turn == turn
    requires forall j :: 0 <= j < |log| && j != k ==> !IsHistory(log[j])
    ensures CarriedTexts(log, start) == [log[k].text] && AskedTexts(log, start, turn) == [log[k].text]
  {
    if k == |log| - 1 {
      NoneSaid(log[..k], start, turn);
    } else {
      OneSaid(log[..|log| - 1], k, start, turn);
    }
  }

  lemma {:induction false} NoneSaid(log: seq<Event>, start: nat, turn: int)
    requires forall k :: 0 <= k < |log| ==> !IsHistory(log[k])
    ensures CarriedTexts(log, start) == [] && AskedTexts(log, start, turn) == []
  {
    if log != [] {
      NoneSaid(log[..|log| - 1], start, turn);
    }
  }

  ghost predicate Overflown(d: Disk) {
    && !d.cold && !d.again && d.issued == ["question", "more"]
    && d.meta == Meta([MORE], map[CLAUDE := Native("one", -1)], ASK_AGAIN.next, 0, Some([CLAUDE]))
    && |d.log| == 5 && d.log[2] == Taken(QUESTION, CLAUDE, 0)
    && forall k :: 0 <= k < 5 && k != 2 ==> !IsHistory(d.log[k])
  }

  lemma Overflowing() returns (d: Disk)
    ensures At(Overflows(), d, 0, {0}) && Overflown(d)
  {
    hide OpenedIds, LogTurn, At, Allowed, Apply, Asks, CarriedTexts, AskedTexts;
    var full, end := Overflow(CLAUDE, "prompt too long", 0), Noted(End, CLAUDE, "", 0);
    var asked, d0 := Asks(CLAUDE, "one"), Asked(CLAUDE, "one");
    Asking(CLAUDE, "one");
    Queueing(d0, "more");
    var d1 := d0.(meta := d0.meta.(pending := [MORE]), issued := ["question", "more"]);
    assert [] + [MORE] == [MORE] && ["question"] + ["more"] == ["question", "more"];
    Writes(asked, d0, 0, {0}, Enqueue("more"), d1);
    Notes(asked + [Enqueue("more")], d1, 0, {0}, full);
    var d2 := d1.(log := d1.log + [full]);
    Notes(asked + [Enqueue("more")] + [Append(full)], d2, 0, {0}, end);
    var d3 := d2.(log := d2.log + [end]);
    var over := asked + [Enqueue("more")] + [Append(full)] + [Append(end)];
    assert d3.log[2] == Taken(QUESTION, CLAUDE, 0);
    OneSaid(d3.log, 2, 0, 0);
    AtIs(over, d3, 0, {0});
    Compaction(d3, "question");
    d := d3.(meta := d3.meta.(recovery := ASK_AGAIN.next), rewritten := true, again := false);
    Writes(over, d3, 0, {0}, ASK_AGAIN, d);
  }

  ghost predicate Carried(d: Disk) {
    && !d.cold && !d.again && |d.log| == 9 && |d.issued| == 4
    && d.meta == Meta([Msg(3, GO_ON_TEXT), MORE], map[], CONTINUE.next, 9, Some([CLAUDE]))
  }

  lemma CarryingOver(journal: seq<Write>, d: Disk) returns (d': Disk)
    requires At(journal, d, 0, {0}) && Overflown(d)
    ensures At(journal + CarriesOver(), d', 1, {0, 2}) && Carried(d')
  {
    hide OpenedIds, LogTurn, At, Allowed, Apply, CarriedTexts, AskedTexts, Without, Rises, Delivers, CarryText;
    hide ContainsAll;
    var carry := Msg(2, CarryText());
    OneSaid(d.log, 2, 0, 0);
    CarriesQuestion();
    Rotating(d, CarryOver().next.value, CarryText());
    var d1 := Rotated(d, CarryOver().next.value, CarryText());
    Writes(journal, d, 0, {0}, CarryOver(), d1);
    assert [carry] + [MORE] == [carry, MORE];
    Rising(journal + [CarryOver()], d1, 0, {0}, CLAUDE, "two");
    var d2 := Risen(d1, CLAUDE, "two", 0);
    var up := journal + [CarryOver()] + Rises(CLAUDE, "two", 5, 0);
    Delivering(up, d2, 0, {0}, carry, CLAUDE, "two");
    var d3 := Delivered(d2, carry, CLAUDE, "two", 1);
    assert {0} + {carry.id} == {0, 2};
    Retired(carry);
    d' := GoesToContinue(up + Delivers(carry, CLAUDE, 1), d3);
    CarriedOver(journal);
  }

  lemma CarriedOver(journal: seq<Write>)
    ensures journal + [CarryOver()] + Rises(CLAUDE, "two", 5, 0) + Delivers(Msg(2, CarryText()), CLAUDE, 1)
              + [Append(Noted(End, CLAUDE, "", 1))] + [CONTINUE] ==
            journal + CarriesOver()
  {
    hide Rises, Delivers, CarryText;
  }

  lemma GoesToContinue(journal: seq<Write>, d: Disk) returns (d': Disk)
    requires At(journal, d, 1, {0, 2}) && !d.cold && !d.again && |d.log| == 8 && |d.issued| == 3
    requires d.meta.pending == [MORE] && d.meta.recovery == CarryOver().next && d.meta.active == Some([CLAUDE])
    ensures At(journal + [Append(Noted(End, CLAUDE, "", 1))] + [CONTINUE], d', 1, {0, 2}) && Carried(d')
  {
    hide OpenedIds, LogTurn, At, Allowed, Apply, CarryText;
    var end := Noted(End, CLAUDE, "", 1);
    Notes(journal, d, 1, {0, 2}, end);
    var d1 := d.(log := d.log + [end]);
    Rotating(d1, CONTINUE.next.value, GO_ON_TEXT);
    d' := Rotated(d1, CONTINUE.next.value, GO_ON_TEXT);
    Writes(journal + [Append(end)], d1, 1, {0, 2}, CONTINUE, d');
    assert [Msg(3, GO_ON_TEXT)] + [MORE] == [Msg(3, GO_ON_TEXT), MORE];
  }

  lemma CarriesQuestion()
    ensures ContainsAll(CarryText(), ["question"])
  {
    Transcripts.HandoffContains(["question"], LIMIT_TEXT);
  }

  lemma Retired(carry: Msg)
    requires carry.id == 2
    ensures Without([carry, MORE], {2}) == [MORE]
  {
    assert [carry, MORE][1..] == [MORE];
    Queues.WithoutNone([MORE], {2});
  }

  lemma EndingUnconfirmed(journal: seq<Write>, d: Disk) returns (more: seq<Write>)
    requires At(journal, d, 1, {0, 2}) && Carried(d)
    ensures more == journal + EndsUnconfirmed() && Legal(more)
    ensures NamesBehind(Replay(more[..|more| - 1]), RESUME) && !AtFront(Replay(more))
    ensures var found := Apply(Apply(Replay(more), Reopen), Reconcile);
            found.meta.pending == [Msg(3, GO_ON_TEXT), MORE] && found.meta.recovery == RESUME.next
  {
    hide OpenedIds, LogTurn, At, Allowed, Apply, Rises, Replay, Legal;
    var end := Noted(End, CLAUDE, "", 1);
    Rising(journal, d, 1, {0, 2}, CLAUDE, "three");
    var d1 := Risen(d, CLAUDE, "three", 1);
    Notes(journal + Rises(CLAUDE, "three", 9, 1), d1, 1, {0, 2}, end);
    var d2 := d1.(log := d1.log + [end]);
    var before := journal + Rises(CLAUDE, "three", 9, 1) + [Append(end)];
    AtIs(before, d2, 1, {0, 2});
    var d3 := GoingOn(d2);
    Writes(before, d2, 1, {0, 2}, RESUME, d3);
    more := before + [RESUME];
    AtIs(more, d3, 1, {0, 2});
    assert more == journal + EndsUnconfirmed() && more[..|more| - 1] == before;
  }

  lemma GoingOn(d: Disk) returns (d': Disk)
    requires d.meta.pending == [Msg(3, GO_ON_TEXT), MORE] && d.meta.recovery == CONTINUE.next
              && OpenedIds(d.log) == {0, 2}
    ensures Allowed(d, RESUME) && Apply(d, RESUME) == d' && d'.log == d.log
    ensures NamesBehind(d, RESUME) && !AtFront(d')
    ensures var found := Apply(Apply(d', Reopen), Reconcile);
            found.meta.pending == [Msg(3, GO_ON_TEXT), MORE] && found.meta.recovery == RESUME.next
  {
    hide OpenedIds, Without;
    var go := Msg(3, GO_ON_TEXT);
    Queues.WithoutNone([go, MORE], {});
    Queues.WithoutNone([go, MORE], {0, 2});
    assert d.meta.pending[1].id == 1;
    d' := Apply(d, RESUME);
  }
}
