/**
 The session conductor: one thread that owns all of a chat's state and handles
 sends, provider output, settings, deadlines and stops one at a time.

 Every durable write goes through `Save` and may fail, which ends the session.
 Everything a provider may do — take or refuse a message, come up or not,
 accept a setting, stay alive — is left open, so the contracts hold whatever it
 does.
 */
module Conductor {
  import opened Options
  import opened Session
  import opened Runners
  import opened Conducting
  import Delivery
  import Episodes
  import Manners
  import Transcripts

  /** What a caller may change about a session. `ToModel` shows in what the dial resolves to from then on. */
  datatype Change =
    | ToProviders(names: seq<string>) | ToModel | ToPrompt(prompt: int) | ToRunnerSettings(rest: int)
    | ToAutoremove(on: bool) | ToRecoveryTexts(limit: string, resumed: string)

  /** What can wake the conductor once it is running. */
  datatype Wake = Launch | Sent(text: string) | Said(heard: Heard) | Asked(change: Change) | TimedOut

  predicate Sensible(w: Wake) { w.Said? ==> WellFormed(w.heard) }

  /** Everything sent, in order. */
  function SentTexts(wakes: seq<Wake>): seq<string> {
    if wakes == [] then []
    else
      var last := wakes[|wakes| - 1];
      SentTexts(wakes[..|wakes| - 1]) + (if last.Sent? then [last.text] else [])
  }

  predicate TurnsFailover(wake: Wake) { wake.Asked? && wake.change.ToAutoremove? }

  /** Nobody turns failover off. */
  predicate KeepsFailover(wakes: seq<Wake>) {
    forall k :: 0 <= k < |wakes| && TurnsFailover(wakes[k]) ==> wakes[k].change.on
  }

  lemma NoLapse(lapses: set<Lapse>)
    ensures GaveUp !in lapses && Overtook !in lapses ==> lapses == {}
  {
    forall l | l in lapses ensures l == GaveUp || l == Overtook { }
  }

  class Chat {
    /** The event log and the metadata file. */
    var disk: Disk
    ghost var journal: seq<Write>
    /**
     How much of the journal earlier processes wrote, and whether the message recovery waits
     for was in front then.
     */
    ghost const openedAt: nat
    ghost const begunInFront: bool

    var providers: seq<string>
    /** Set aside for failing, until the list is set again or the session is opened cold. */
    var benched: set<string>
    var autoremove: bool
    var config: Settings
    var limitMessage: string
    var newSessionMessage: string

    var recovery: Option<Recovery>
    var historyStart: nat
    var crew: Crew
    var line: Line
    ghost var tally: Tally
    ghost var habits: Manners.Habits
    /** The launch found recovery's message cut short, and has still to hand off again. */
    ghost var relaunching: bool
    /** Everything handed to a runner so far. */
    ghost var handed: seq<Hand>

    var turn: int
    var inTurn: bool
    /** Is the opening of the turn that is on in the log? */
    var turnRecorded: bool
    /** What the turn that is on has failed of, unless there was output after that. */
    var turnFailed: Option<Failure>
    var launched: bool
    var stopping: bool
    var terminal: bool

    /** The disk is what all writes so far left there, and nobody else has opened the session meanwhile. */
    ghost predicate Filed()
      reads `journal, `disk
    {
      Stored(journal, disk) && Unbroken(journal, openedAt)
    }

    ghost predicate Valid()
      reads this
    {
      && Filed()
      && AllPermitted(handed)
      && (terminal ==> stopping)
      && (begunInFront && Manners.NamedBehind !in habits.slips ==> Episodes.AtFront(disk))
      && (!habits.echoed ==> Manners.NamedBehind !in habits.slips)
      && (!terminal ==>
            Manners.Sane(disk, Manners.Flags(recovery, historyStart, providers, launched, relaunching, inTurn,
                                             turnRecorded, stopping),
                         crew, turn, line, tally, habits))
    }

    /** What `Valid` says of a session that goes on. */
    lemma Known()
      requires Valid() && !terminal
      ensures recovery == disk.meta.recovery && historyStart == disk.meta.historyStart
      ensures disk.cold == !launched && disk.again == relaunching
      ensures Queued(disk.meta.pending, disk.synth, disk.log, disk.meta.recovery, disk.rewritten, line, tally)
      ensures Manners.Mannered(disk.rewritten, habits, line, inTurn, crew.epoch, tally, stopping)
                && Crewed(disk, crew, turn)
      ensures !stopping ==> (crew.epoch.Some? ==> crew.runner.Some?)
    {
      hide Apply, Allowed, Stored, Unbroken, Episodes.AtFront, Manners.Mannered, AllPermitted, Queued, Crewed;
    }

    ghost function Flags(): Manners.Flags
      reads this
    {
      Manners.Flags(recovery, historyStart, providers, launched, relaunching, inTurn, turnRecorded, stopping)
    }

    /** Open a session cold, from whatever an earlier process — or a crash — left on disk. */
    constructor Open(ghost written: seq<Write>, stored: Disk, names: seq<string>, removes: bool,
            settings: Settings, limit: string, resumed: string)
      requires Stored(written, stored)
      ensures Valid() && !launched && handed == [] && stopping == terminal
      ensures written + [Reopen] <= journal && openedAt == |written| + 1 && habits == Manners.STRANGERS
      ensures begunInFront == Episodes.AtFront(stored)
      ensures !terminal ==>
                && disk.log == stored.log && disk.meta.pending == Episodes.Left(stored) && crew == NOBODY
                && line == OpeningLine(disk.meta.pending) && tally == OpeningTally(disk) && tally.steady == begunInFront
                && providers == if stored.meta.active.Some? then stored.meta.active.value else names
    {
      hide Apply, Allowed, Stored, Unbroken, Episodes.AtFront, Manners.Sane, AllPermitted, Queued, Crewed, OpenedIds,
          LogTurn, Fill, Plain, Conducting.Failed, OpeningLine, OpeningTally;
      var chosen := if stored.meta.active.Some? then stored.meta.active.value else names;
      var reopened := Apply(stored, Reopen);
      disk, journal := reopened, written + [Reopen];
      providers, benched, autoremove, config := chosen, {}, removes, settings;
      limitMessage, newSessionMessage := limit, resumed;
      recovery, historyStart, crew, handed := None, 0, NOBODY, [];
      line, tally := OpeningLine([]), OpeningTally(stored);
      turn, inTurn, turnRecorded, turnFailed := LogTurn(stored.log), false, false, None;
      launched, stopping, terminal, relaunching := false, false, false, false;
      openedAt, begunInFront, habits := |written| + 1, Episodes.AtFront(stored), Manners.STRANGERS;
      new;
      ReopenedIsStored(written, stored);
      NobodyPermitted();
      Restore(written, stored);
    }

    /** Take up what the disk holds. An append that succeeded before its cleanup did is told apart by id. */
    method Restore(ghost written: seq<Write>, ghost stored: Disk)
      requires Stored(written, stored) && Filed() && disk == Apply(stored, Reopen)
      requires AllPermitted(handed) && !terminal && !stopping && !inTurn && !turnRecorded
      requires crew == NOBODY && turn == LogTurn(stored.log) && !launched && !relaunching
      requires habits == Manners.STRANGERS && begunInFront == Episodes.AtFront(stored)
      modifies `disk, `journal, `terminal, `stopping, `recovery, `historyStart, `relaunching, `line, `tally
      ensures Valid() && stopping == terminal && old(journal) <= journal
      ensures !terminal ==>
                && disk.log == stored.log && disk.meta.pending == Episodes.Left(stored)
                && line == OpeningLine(disk.meta.pending) && tally == OpeningTally(disk) && tally.steady == begunInFront
    {
      hide Apply, Allowed, Stored, Unbroken, Episodes.AtFront, Manners.Sane, AllPermitted, Queued, Crewed, OpenedIds,
          LogTurn, Fill, Plain, Conducting.Failed, OpeningLine, OpeningTally, Episodes.Left;
      Manners.Reopened(written, stored, providers);
      var ok := Save(Reconcile);
      if !ok {
        return;
      }
      ok := Save(SetActive(providers));
      if !ok {
        return;
      }
      TakeUp();
    }

    /** Memory starts as the disk was found. */
    method TakeUp()
      requires Filed() && AllPermitted(handed) && !terminal && (!habits.echoed ==> Manners.NamedBehind !in habits.slips)
      requires begunInFront && Manners.NamedBehind !in habits.slips ==> Episodes.AtFront(disk)
      requires Manners.Sane(disk, Flags().(recovery := disk.meta.recovery, historyStart := disk.meta.historyStart),
                            crew, turn,
                            OpeningLine(disk.meta.pending), OpeningTally(disk), habits)
      modifies `recovery, `historyStart, `line, `tally
      ensures Valid() && line == OpeningLine(disk.meta.pending) && tally == OpeningTally(disk)
    {
      hide Apply, Allowed, Stored, Unbroken, Episodes.AtFront, Manners.Sane, AllPermitted, OpeningLine, OpeningTally;
      recovery, historyStart := disk.meta.recovery, disk.meta.historyStart;
      line, tally := OpeningLine(disk.meta.pending), OpeningTally(disk);
    }

    // ----------------------------------------------------------------- storage

    /** Without its disk a session is over: nothing more is written, and nothing handed over. */
    method PersistenceFailed()
      modifies `terminal, `stopping
      ensures terminal && stopping
    {
      terminal, stopping := true, true;
    }

    /** One atomic write, made whole or not at all. */
    method Commit(w: Write) returns (ok: bool)
      requires Filed() && Allowed(disk, w) && !w.Reopen?
      modifies `disk, `journal
      ensures Filed() && (Episodes.AtFront(old(disk)) && !Episodes.Names(w) ==> Episodes.AtFront(disk))
      ensures ok && w.Recover? ==> (Episodes.AtFront(disk) <==> !Episodes.NamesBehind(old(disk), w))
      ensures ok ==> disk == Apply(old(disk), w) && journal == old(journal) + [w]
      ensures !ok ==> disk == old(disk) && journal == old(journal)
    {
      hide Apply, Allowed, Stored, Unbroken, Episodes.AtFront, Episodes.NamesBehind;
      ok := *;
      if ok {
        Committed(journal, disk, w, openedAt);
        disk := Apply(disk, w);
        journal := journal + [w];
      }
    }

    method Save(w: Write) returns (ok: bool)
      requires Filed() && Allowed(disk, w) && !w.Reopen?
      modifies `disk, `journal, `terminal, `stopping
      ensures Filed() && (Episodes.AtFront(old(disk)) && !Episodes.Names(w) ==> Episodes.AtFront(disk))
      ensures ok && w.Recover? ==> (Episodes.AtFront(disk) <==> !Episodes.NamesBehind(old(disk), w))
      ensures ok ==>
                && disk == Apply(old(disk), w) && journal == old(journal) + [w] && terminal == old(terminal)
                && stopping == old(stopping)
      ensures !ok ==> disk == old(disk) && journal == old(journal) && terminal && stopping
    {
      hide Apply, Allowed, Stored, Unbroken, Episodes.AtFront, Episodes.NamesBehind;
      ok := Commit(w);
      if !ok {
        PersistenceFailed();
      }
    }

    /** A native conversation takes history in, or the launch looks at a recovery. The conductor writes nothing. */
    method Heed(w: Write)
      requires Filed() && (w.Hear? || w.Seeded? || w.Launched?) && Allowed(disk, w)
      modifies `disk, `journal
      ensures Filed() && (Episodes.AtFront(old(disk)) ==> Episodes.AtFront(disk))
      ensures disk == Apply(old(disk), w) && journal == old(journal) + [w]
    {
      hide Apply, Allowed, Stored, Unbroken, Episodes.AtFront, Episodes.NamesBehind;
      Committed(journal, disk, w, openedAt);
      disk := Apply(disk, w);
      journal := journal + [w];
    }

    // --------------------------------------------------------------- the record

    function Filled(e: Event): Event
      reads `crew, `turn
    {
      Fill(e, crew, turn)
    }

    method Record(e: Event) returns (recorded: Option<Event>)
      requires Filed() && Allowed(disk, Append(Filled(e)))
      modifies `disk, `journal, `terminal, `stopping
      ensures Filed() && (Episodes.AtFront(old(disk)) ==> Episodes.AtFront(disk))
      ensures recorded.Some? ==>
                && recorded.value == old(Filled(e))
                && disk == Apply(old(disk), Append(recorded.value))
                && journal == old(journal) + [Append(recorded.value)]
                && terminal == old(terminal) && stopping == old(stopping)
      ensures recorded.None? ==> disk == old(disk) && journal == old(journal) && terminal && stopping
    {
      hide Apply, Allowed, Stored, Unbroken, Episodes.AtFront, Fill;
      var filled := Filled(e);
      var ok := Save(Append(filled));
      recorded := if ok then Some(filled) else None;
    }

    /** Log something that changes nothing else: a notice, a failure, an END, or the running model's own output. */
    method Note(e: Event) returns (ok: bool)
      requires Valid() && !terminal && !Opens(e) && e.msg.None? && !e.late && (e.turn < 0 || e.turn == turn)
      requires IsHistory(e) && crew.runner.Some? ==> Filled(e).provider == crew.runner.value.name
      modifies `disk, `journal, `terminal, `stopping
      ensures Valid() && ok == !terminal
      ensures ok ==>
                && disk == Apply(old(disk), Append(old(Filled(e))))
                && journal == old(journal) + [Append(old(Filled(e)))]
                && disk.meta == old(disk.meta) && disk.log == old(disk.log) + [old(Filled(e))]
                && disk.issued == old(disk.issued) && disk.broken == old(disk.broken)
                && terminal == old(terminal) && stopping == old(stopping)
      ensures !ok ==> disk == old(disk) && journal == old(journal)
    {
      hide Apply, Allowed, Stored, Unbroken, Episodes.AtFront, Manners.Mannered, AllPermitted, Queued, Crewed,
          OpenedIds, LogTurn, Stamp, Flat, Fill, IsHistory, Opens;
      Noting(disk, line, tally, crew, turn, e);
      var recorded := Record(e);
      ok := recorded.Some?;
    }

    /** Log a notice: it says something happened and is no part of the conversation. */
    method Announce(kind: Kind, provider: string, text: string) returns (ok: bool)
      requires Valid() && !terminal && (kind.Config? || kind.SwitchProvider? || kind.NewSession? || kind.End?)
      modifies `disk, `journal, `terminal, `stopping
      ensures Valid() && ok == !terminal && old(journal) <= journal
      ensures if ok then stopping == old(stopping) else stopping
      ensures ok ==>
                && disk == Apply(old(disk), Append(old(Filled(Plain(kind, provider, text)))))
                && disk.log == old(disk.log) + [old(Filled(Plain(kind, provider, text)))]
                && disk.meta == old(disk.meta) && disk.issued == old(disk.issued) && disk.broken == old(disk.broken)
      ensures !ok ==> disk == old(disk)
      ensures StaysPut(journal, |old(journal)|, |journal|)
    {
      hide Apply, Allowed, Stored, Unbroken, Episodes.AtFront, Manners.Sane, AllPermitted, Queued, Crewed, OpenedIds,
          LogTurn, Fill, StaysPut;
      OneQuiet(journal, Append(Filled(Plain(kind, provider, text))));
      ok := Note(Plain(kind, provider, text));
    }

    /** Log a failure. */
    method Report(why: Failure, provider: string, text: string) returns (ok: bool)
      requires Valid() && !terminal
      modifies `disk, `journal, `terminal, `stopping
      ensures Valid() && ok == !terminal && old(journal) <= journal
      ensures if ok then stopping == old(stopping) else stopping
      ensures ok ==>
                && disk.log == old(disk.log) + [old(Filled(Conducting.Failed(why, provider, text)))]
                && journal == old(journal) + [Append(old(Filled(Conducting.Failed(why, provider, text))))]
                && disk.meta == old(disk.meta) && disk.issued == old(disk.issued)
      ensures !ok ==> disk == old(disk)
      ensures StaysPut(journal, |old(journal)|, |journal|)
    {
      hide Apply, Allowed, Stored, Unbroken, Episodes.AtFront, Manners.Sane, AllPermitted, Queued, Crewed, OpenedIds,
          LogTurn, Fill, StaysPut;
      OneQuiet(journal, Append(Filled(Conducting.Failed(why, provider, text))));
      ok := Note(Conducting.Failed(why, provider, text));
    }

    /** The last thing logged is a failure, and no message has moved. */
    method Blocked(why: string)
      requires Valid() && !terminal
      modifies `disk, `journal, `terminal, `stopping
      ensures Valid() && old(journal) <= journal
      ensures if terminal then stopping else stopping == old(stopping)
      ensures !terminal ==> disk.meta == old(disk.meta) && disk.issued == old(disk.issued)
      ensures !terminal ==> Complained(journal, |old(journal)|)
    {
      hide Apply, Allowed, Stored, Unbroken, Episodes.AtFront, Manners.Sane, AllPermitted, Queued, Crewed, OpenedIds,
          LogTurn;
      var _ := Report(Crash, "", why);
    }

    // ---------------------------------------------------------- ending a turn

    /** Put messages back ahead of anything newer, last one first. */
    static method PutAhead(messages: seq<Msg>, queue: seq<Msg>) returns (longer: seq<Msg>)
      ensures longer == messages + queue
    {
      var left := messages;
      longer := queue;
      while left != []
        invariant left + longer == messages + queue
        decreases |left|
      {
        var last := |left| - 1;
        left, longer := left[..last], [left[last]] + longer;
      }
    }

    /**
     Nobody is in charge any more and no turn is on: with `retry` unanswered texts are
     first in line under new ids, then come unconfirmed writes, then the rest.
     */
    method CloseTurn(provider: string, extra: string, retry: bool) returns (ok: bool)
      requires Valid() && !terminal
      requires retry ==> recovery.None?
      modifies `disk, `journal, `terminal, `stopping, `crew, `line, `tally, `turnFailed, `inTurn, `turnRecorded
      ensures Valid() && ok == !terminal && old(journal) <= journal
      ensures ok ==>
                && line == Requeued(old(line), Back(old(line), retry, |old(disk.issued)|))
                && tally == AfterClose(old(tally), old(line), retry, recovery.Some?)
                && crew == old(crew).(runner := None, epoch := None)
                && !inTurn && turnFailed.None? && stopping == old(stopping)
      ensures ok ==>
                && disk.log == old(disk.log) + (if old(inTurn && turnRecorded)
                                                then [Fill(Plain(End, provider, extra), crew, turn)] else [])
                && disk.meta == old(disk.meta).(pending :=
                     Back(old(line), retry, |old(disk.issued)|) + old(disk.meta.pending))
      ensures (autoremove ==> retry || recovery.Some?) ==>
                Kept(if recovery.Some? then Loose(old(tally)) else old(tally), tally, autoremove, terminal)
      ensures StaysPut(journal, |old(journal)|, |journal|)
      ensures ok && retry && old(line.unanswered) != [] ==>
                old(journal) + [Retry(old(Flat(line.unanswered)))] <= journal
    {
      hide Apply, Allowed, Stored, Unbroken, Episodes.AtFront, Manners.Sane, AllPermitted, Queued, Crewed, OpenedIds,
          LogTurn, Stamp, Flat, Back, Requeued, AfterClose, Fill, Plain, StaysPut, Kept, Loose;
      ClosedKeeps(tally, line, retry, recovery.Some?, autoremove);
      var on := inTurn && turnRecorded;
      ok := TakeBack(retry);
      if ok {
        ghost var before := journal;
        ok := RecordEnd(provider, extra, on);
        StaysPutOn(old(journal), before, journal);
      }
    }

    /** What went wrong in the turn is settled, and if the turn was on record so is its end. */
    method RecordEnd(provider: string, extra: string, on: bool) returns (ok: bool)
      requires Valid() && !terminal
      modifies `disk, `journal, `terminal, `stopping, `turnFailed
      ensures Valid() && ok == !terminal && old(journal) <= journal && turnFailed.None?
      ensures if ok then stopping == old(stopping) else stopping
      ensures ok ==>
                && disk.log == old(disk.log) + (if on then [Fill(Plain(End, provider, extra), crew, turn)] else [])
                && disk.meta == old(disk.meta)
      ensures StaysPut(journal, |old(journal)|, |journal|)
    {
      hide Apply, Allowed, Stored, Unbroken, Episodes.AtFront, Manners.Sane, AllPermitted, Queued, Crewed, OpenedIds,
          LogTurn, Fill, Plain, StaysPut;
      OneQuiet(journal, SetSetting);
      turnFailed := None;
      ok := true;
      if on {
        ok := Announce(End, provider, extra);
      }
    }

    /** Nobody is in charge and no turn is on; everything that is left waits in line. */
    method PutInLine(outbox: seq<Msg>, ghost counted: Tally)
      requires Filed() && AllPermitted(handed) && !terminal && (!habits.echoed ==> Manners.NamedBehind !in habits.slips)
      requires begunInFront && Manners.NamedBehind !in habits.slips ==> Episodes.AtFront(disk)
      requires Manners.Sane(disk, Flags().(inTurn := false, turnRecorded := false),
                            crew.(runner := None, epoch := None), turn,
                            Line(outbox, [], [], 0), counted, habits)
      modifies `crew, `line, `tally, `inTurn, `turnRecorded
      ensures Valid() && line == Line(outbox, [], [], 0) && tally == counted && !inTurn && !turnRecorded
      ensures crew == old(crew).(runner := None, epoch := None)
    {
      hide Apply, Allowed, Stored, Unbroken, Episodes.AtFront, Manners.Sane, AllPermitted;
      crew := crew.(runner := None, epoch := None);
      line, tally := Line(outbox, [], [], 0), counted;
      inTurn, turnRecorded := false, false;
    }

    /**
     The queues of a turn being closed: what was not confirmed, and on a retry what was not
     answered, goes back in line.
     */
    method TakeBack(retry: bool) returns (ok: bool)
      requires Valid() && !terminal
      requires retry ==> recovery.None?
      modifies `disk, `journal, `terminal, `stopping, `crew, `line, `tally, `inTurn, `turnRecorded
      ensures Valid() && ok == !terminal && old(journal) <= journal
      ensures ok ==>
                && !inTurn && !turnRecorded
                && line == Requeued(old(line), Back(old(line), retry, |old(disk.issued)|))
                && tally == AfterClose(old(tally), old(line), retry, recovery.Some?)
                && crew == old(crew).(runner := None, epoch := None)
                && stopping == old(stopping)
                && disk == (if retry && old(line.unanswered) != []
                            then Apply(old(disk), Retry(old(Flat(line.unanswered)))) else old(disk))
                && disk.log == old(disk.log)
                && disk.meta == old(disk.meta).(pending :=
                     Back(old(line), retry, |old(disk.issued)|) + old(disk.meta.pending))
      ensures !ok ==> tally == old(tally)
      ensures StaysPut(journal, |old(journal)|, |journal|)
      ensures ok && retry && old(line.unanswered) != [] ==>
                old(journal) + [Retry(old(Flat(line.unanswered)))] <= journal
    {
      hide Apply, Allowed, Stored, Unbroken, Episodes.AtFront, Manners.Mannered, AllPermitted, Queued, Crewed,
          OpenedIds, LogTurn, Stamp, Flat, Back, Requeued, AfterClose, StaysPut;
      OneQuiet(journal, Retry(Flat(line.unanswered)));
      Manners.TakenBack(journal, disk, Flags(), crew, turn, line, tally, habits, retry);
      // A write that was never confirmed was never delivered.
      var outbox := PutAhead(line.awaiting, line.outbox);
      if retry && line.unanswered != [] {
        var messages := Back(line, true, |disk.issued|);
        ok := Save(Retry(Flat(line.unanswered)));
        if !ok {
          return;
        }
        outbox := PutAhead(messages, outbox);
      }
      ok := true;
      PutInLine(outbox, AfterClose(tally, line, retry, recovery.Some?));
    }

    // ---------------------------------------------------------------- runners

    /** What the dial resolves to. The catalog and the CLIs decide; only a provider on the dial can come out. */
    method Rung() returns (rung: Option<Pick>)
      ensures rung.Some? ==> rung.value.provider in Usable(providers, benched)
    {
      var wanted: Pick := *;
      rung := if wanted.provider in Usable(providers, benched) then Some(wanted) else None;
    }

    function Wanted(rung: Pick): Signature
      reads `config
    {
      Signature(rung.provider, rung.tuning, config)
    }

    /** Does the runner in charge differ from what the settings and the dial now call for? */
    method Stale() returns (stale: bool)
      ensures crew.current.Some? && !stale ==>
                && crew.current.value.provider in Usable(providers, benched)
                && crew.current.value.config == config
      ensures crew.current.None? ==> !stale
    {
      if crew.current.None? {
        return false;
      }
      var rung := Rung();
      stale := rung.None? || crew.current.value != Wanted(rung.value);
    }

    /** May the runner in charge be kept, with another tuning? Only if it is alive and nothing else differs. */
    method Tunable(rung: Pick) returns (tunable: bool)
      ensures tunable ==> crew.runner.Some? && crew.current.Some? && crew.current.value.provider == rung.provider
    {
      var alive: bool := *;
      var current := crew.current;
      tunable := current.Some? && crew.runner.Some? && alive
        && current.value.provider == rung.provider && current.value.config == config
        && current.value.tuning != rung.tuning;
    }

    predicate PromptsMoved()
      reads `crew, `config
    {
      crew.current.Some? && crew.current.value.config.prompt != config.prompt
    }

    /**
     With a new prompt and one of the providers that never take new instructions, the
     native session is given up: its id and its mark are both cleared, or the session is over.
     */
    method Release() returns (ok: bool)
      requires Valid() && !stopping && crew.runner.Some? && (inTurn ==> Manners.Abandoned in habits.slips)
      modifies `disk, `journal, `terminal, `stopping, `crew
      ensures Valid() && ok == !terminal && stopping == terminal && old(journal) <= journal
      ensures ok ==>
                && crew == StoodDown(old(crew))
                && disk == LetGo(old(disk), crew, turn, old(crew.runner.value.name))
                && BoundId(disk.meta, old(crew.runner.value.name)) == ""
                && Synced(disk.meta, old(crew.runner.value.name)) == -1
    {
      hide Apply, Allowed, Stored, Unbroken, Episodes.AtFront, Manners.Mannered, AllPermitted, Queued, Crewed,
          OpenedIds, LogTurn, BoundId, Synced;
      var name := crew.runner.value.name;
      CrewStoodDown(disk, crew, turn);
      RunnerKnown(disk, crew, turn);
      Manners.Parted(disk.rewritten, habits, line, inTurn, crew.epoch, tally);
      Manners.PartedAlready(habits, inTurn);
      crew := crew.(runner := None, epoch := None);
      ReleaseWritten(disk, crew, turn, name);
      var bound := Commit(Bind(name, "", true));
      // The mark is given up whether or not the session could be; if either could not, that is the end.
      var marked := Commit(if bound then MarkSynced(name, -1) else Unmark(name));
      ok := bound && marked;
      if ok {
        ok := ReopenLater(name);
      } else {
        PersistenceFailed();
      }
    }

    /** A provider with no session of its own is not parked either; whoever comes up next reopens it. */
    method ReopenLater(name: string) returns (ok: bool)
      requires Valid() && !stopping && !terminal && name !in crew.parked
      modifies `disk, `journal, `terminal, `stopping, `crew
      ensures Valid() && ok == !terminal && stopping == terminal && old(journal) <= journal
      ensures ok ==> crew == old(crew) && disk.meta == old(disk.meta)
      ensures ok ==> disk == Recorded(old(disk), Plain(Config, name, "reopening"), crew, turn)
    {
      hide Apply, Allowed, Stored, Unbroken, Episodes.AtFront, Manners.Sane, AllPermitted, Queued, OpenedIds, LogTurn;
      assert crew.parked - {name} == crew.parked;
      crew := crew.(parked := crew.parked - {name});
      ok := Announce(Config, name, "reopening");
    }

    /** Set the runner aside still running, so that coming back costs nothing. */
    method Park() returns (ok: bool)
      requires Valid() && !stopping && crew.runner.Some? && (inTurn ==> Manners.Abandoned in habits.slips)
      modifies `disk, `journal, `terminal, `stopping, `crew
      ensures Valid() && ok == !terminal && stopping == terminal && old(journal) <= journal
      ensures ok ==> crew.runner.None? && crew.epoch.None? && crew.current == old(crew.current)
      ensures ok ==>
                var runner := old(crew.runner.value);
                if !RetunesInstructions(runner.name) && old(PromptsMoved()) then
                  crew == StoodDown(old(crew)) && disk == LetGo(old(disk), crew, turn, runner.name)
                else
                  && disk == Apply(old(disk), Bind(runner.name, runner.native, true))
                  && (crew == StoodDown(old(crew))
                      || (old(crew.current.Some? && crew.epoch.Some?)
                          && crew == Aside(old(crew), old(crew.current.value), Synced(old(disk.meta), runner.name))))
    {
      hide Apply, Allowed, Stored, Unbroken, Episodes.AtFront, Manners.Mannered, AllPermitted, Queued, Crewed,
          OpenedIds, LogTurn;
      var runner := crew.runner.value;
      if !RetunesInstructions(runner.name) && PromptsMoved() {
        ok := Release();
        return;
      }
      KeptBound(journal, disk, crew, turn);
      ok := Save(Bind(runner.name, runner.native, true));
      if !ok {
        return;
      }
      var parkable: bool := *;
      Manners.Parted(disk.rewritten, habits, line, inTurn, crew.epoch, tally);
      Manners.PartedAlready(habits, inTurn);
      CrewParked(disk, crew, turn, if crew.current.Some? then crew.current.value else Signature("", 0, config));
      crew := if parkable && crew.current.Some? then Aside(crew, crew.current.value, Synced(disk.meta, runner.name))
              else StoodDown(crew);
    }

    /** Start a CLI, resuming `native` if there is one, and hand it the history from `since` on. */
    method BringUp(provider: string, native: string, since: int) returns (up: Option<(Runner, nat)>)
      requires Valid() && !stopping && crew.runner.None?
      requires native != "" ==> native == BoundId(disk.meta, provider) && since <= Synced(disk.meta, provider) + 1
      modifies `disk, `journal, `crew
      ensures Valid() && old(journal) <= journal
      ensures disk.log == old(disk.log) && disk.meta == old(disk.meta) && disk.broken == old(disk.broken)
      ensures crew == Numbering(old(crew), turn)
      ensures up.Some? ==>
                var (runner, epoch) := up.value;
                && runner.name == provider && runner.native != "" && epoch in crew.turns
                && (forall p | p in crew.parked :: crew.parked[p].epoch != epoch)
                && (!runner.seed.Absorbed? ==> (runner.seed.Whole? <==> native == "" && since <= 0))
                && (runner.seed.Absorbed? && (native == "" ==> since <= 0)
                    && (native != "" ==> runner.native == native && provider !in disk.broken) ==>
                      HoldsUpTo(disk, provider, runner.native, |disk.log|))
    {
      hide Apply, Allowed, Stored, Unbroken, Episodes.AtFront, Manners.Mannered, AllPermitted, Queued, Crewed,
          OpenedIds, LogTurn, BoundId, Synced, HistoryFor, HoldsUpTo;
      var epoch := crew.next;
      CrewNumbered(disk, crew, turn);
      crew := Numbering(crew, turn);
      var runner: Runner := *;
      // It may not come up; once up it has a session, and one opened anew is not the one already bound.
      if runner.name != provider || runner.native == ""
          || (runner.native != native && runner.native == BoundId(disk.meta, provider)) {
        return None;
      }
      if runner.seed.Absorbed? && native == "" {
        OpenHeard(disk, crew, turn, provider, runner.native, since);
        Heed(Hear(provider, runner.native, true, HistoryFor(disk, provider, since, false)));
      } else if runner.seed.Absorbed? && runner.native == native {
        ResumeHeard(journal, disk, crew, turn, provider, native, since);
        Heed(Hear(provider, native, false, HistoryFor(disk, provider, since, true)));
      }
      up := Some((Started(runner, native, since), epoch));
    }

    /** The parked runner, told what it has missed; it is parked no longer, whether or not that worked. */
    method Unpark(provider: string) returns (kept: Option<(Runner, nat)>)
      requires Valid() && !stopping && crew.runner.None? && provider in crew.parked
      modifies `disk, `journal, `terminal, `stopping, `crew
      ensures Valid() && stopping == terminal && old(journal) <= journal
      ensures crew == old(crew).(parked := old(crew.parked) - {provider})
      ensures disk.log == old(disk.log)
      ensures BoundId(disk.meta, provider) == old(BoundId(disk.meta, provider))
                && Synced(disk.meta, provider) >= old(Synced(disk.meta, provider))
      ensures kept.Some? ==>
                var (runner, epoch) := kept.value;
                && !terminal && runner.name == provider && runner.native == BoundId(disk.meta, provider) != ""
                && epoch in crew.turns
                && (forall p | p in crew.parked :: crew.parked[p].epoch != epoch)
                && (Trusted(disk, runner) ==> HoldsUpTo(disk, provider, runner.native, |disk.log|))
      ensures kept.Some? ==> kept.value.1 == old(crew.parked[provider]).epoch
    {
      hide Apply, Allowed, Stored, Unbroken, Episodes.AtFront, Manners.Mannered, AllPermitted, Queued, Crewed,
          OpenedIds, LogTurn, BoundId, Synced, HistoryFor, HoldsUpTo;
      var parked := crew.parked[provider];
      ParkedKnown(disk, crew, turn, provider);
      CrewUnparked(disk, crew, turn, provider);
      crew := crew.(parked := crew.parked - {provider});
      var alive: bool, told: bool, seeded: bool := *, *, *;
      if !alive || !told {
        return None;
      }
      if seeded {
        ResumeHeard(journal, disk, crew, turn, provider, parked.runner.native, parked.synced + 1);
        Heed(Hear(provider, parked.runner.native, false, HistoryFor(disk, provider, parked.synced + 1, true)));
        assert BoundId(disk.meta, provider) == parked.runner.native;
        CaughtUp(journal, disk, crew, turn, provider);
        var ok := Save(MarkSynced(provider, |disk.log| - 1));
        if !ok {
          return None;
        }
      }
      kept := Some((Refreshed(parked.runner, seeded), parked.epoch));
    }

    /** Put a runner in charge, and make its session and how far it was told durable. */
    method Adopt(runner: Runner, epoch: nat, signature: Signature, anew: bool) returns (ok: bool)
      requires Valid() && !stopping && Adoptable(crew, runner, epoch, signature)
      requires Trusted(disk, runner) ==> HoldsUpTo(disk, runner.name, runner.native, |disk.log|)
      modifies `disk, `journal, `terminal, `stopping, `crew
      ensures Valid() && ok == !terminal && stopping == terminal && old(journal) <= journal
      ensures ok ==>
                && crew == Manned(old(crew), runner, epoch, signature, turn)
                && disk == Conducting.Adopted(old(disk), crew, turn, runner, anew)
                && BoundId(disk.meta, runner.name) == runner.native
                && (runner.seed.Absorbed? ==> Synced(disk.meta, runner.name) == |old(disk.log)| - 1)
      ensures ok && old(HoldsUpTo(disk, runner.name, runner.native, |disk.log|)) ==>
                HoldsUpTo(disk, runner.name, runner.native, |old(disk.log)| - 1)
    {
      hide Apply, Allowed, Stored, Unbroken, Episodes.AtFront, Manners.Sane, AllPermitted, Queued, Crewed, OpenedIds,
          LogTurn, BoundId, Synced, HistoryFor, HoldsUpTo, Manned, Adoptable, Plain, Fill, IsHistory, Released;
      Manners.Adopted(journal, disk, Flags(), crew, turn, line, tally, habits, runner, epoch, signature);
      crew := Manned(crew, runner, epoch, signature, turn);
      var mark := |disk.log| - 1;
      ok := Save(Bind(runner.name, runner.native, runner.seed.Absorbed?));
      if !ok {
        return;
      }
      if runner.seed.Absorbed? {
        ok := Save(MarkSynced(runner.name, mark));
        if !ok {
          return;
        }
      }
      ok := Launching(runner.name, anew, runner.native, mark);
    }

    /** Say that a provider was brought up, and whether with a session of its own. */
    method Launching(name: string, anew: bool, ghost native: string, ghost n: int) returns (ok: bool)
      requires Valid() && !stopping && n < |disk.log|
      modifies `disk, `journal, `terminal, `stopping
      ensures Valid() && ok == !terminal && stopping == terminal && old(journal) <= journal
      ensures ok ==>
                && disk == Announced(old(disk), crew, turn, name, anew) && disk.meta == old(disk.meta)
                && (old(HoldsUpTo(disk, name, native, n)) ==> HoldsUpTo(disk, name, native, n))
    {
      hide Apply, Allowed, Stored, Unbroken, Episodes.AtFront, Manners.Sane, AllPermitted, Queued, Crewed, OpenedIds,
          LogTurn, HoldsUpTo, Plain, Fill;
      ghost var holds, was := HoldsUpTo(disk, name, native, n), disk;
      ok := Announce(Kind.Config, name, "launch");
      if !ok {
        return;
      }
      if holds { HoldsOn(was, Append(Filled(Plain(Kind.Config, name, "launch"))), name, native, n); }
      if anew {
        was := disk;
        ok := Announce(NewSession, name, "");
        if ok && holds { HoldsOn(was, Append(Filled(Plain(NewSession, name, ""))), name, native, n); }
      }
    }

    /** The parked runner is kept only with the wanted configuration; `tuned` says if its tuning is right as well. */
    method TakeParked(provider: string, wanted: Signature) returns (kept: Option<(Runner, nat)>, tuned: bool)
      requires Valid() && !stopping && crew.runner.None?
      modifies `disk, `journal, `terminal, `stopping, `crew
      ensures Valid() && stopping == terminal && old(journal) <= journal
      ensures crew == old(crew).(parked := old(crew.parked) - {provider})
      ensures disk.log == old(disk.log)
      ensures BoundId(disk.meta, provider) == old(BoundId(disk.meta, provider))
                && Synced(disk.meta, provider) >= old(Synced(disk.meta, provider))
      ensures kept.Some? ==>
                var (runner, epoch) := kept.value;
                && !terminal && runner.name == provider && runner.native == BoundId(disk.meta, provider) != ""
                && epoch in crew.turns
                && (forall p | p in crew.parked :: crew.parked[p].epoch != epoch)
                && (Trusted(disk, runner) ==> HoldsUpTo(disk, provider, runner.native, |disk.log|))
      ensures kept.Some? ==>
                provider in old(crew.parked) &&
                var parked := old(crew.parked)[provider];
                parked.signature.config == wanted.config && kept.value.1 == parked.epoch
                    && tuned == (parked.signature.tuning == wanted.tuning)
    {
      hide Apply, Allowed, Stored, Unbroken, Episodes.AtFront, Manners.Mannered, AllPermitted, Queued, Crewed,
          OpenedIds, LogTurn, BoundId, Synced, HistoryFor, HoldsUpTo;
      if provider !in crew.parked {
        assert crew.parked - {provider} == crew.parked;
        return None, false;
      }
      var parked := crew.parked[provider];
      if parked.signature.config != wanted.config {
        CrewUnparked(disk, crew, turn, provider);
        crew := crew.(parked := crew.parked - {provider});
        return None, false;
      }
      kept := Unpark(provider);
      tuned := parked.signature.tuning == wanted.tuning;
    }

    method Launch(rung: Pick) returns (ok: bool)
      requires Valid() && !stopping && crew.runner.None? && crew.epoch.None?
      modifies `disk, `journal, `terminal, `stopping, `crew
      ensures Valid() && stopping == terminal && old(journal) <= journal
      ensures ok ==>
                && !terminal && crew.runner.Some? && crew.runner.value.name == rung.provider
                && crew.current == Some(Wanted(rung))
    {
      hide Apply, Allowed, Stored, Unbroken, Episodes.AtFront, Manners.Sane, AllPermitted, Queued, Crewed, OpenedIds,
          LogTurn, BoundId, Synced, HistoryFor, HoldsUpTo, Conducting.Adopted, Recorded;
      var native, synced := BoundId(disk.meta, rung.provider), Synced(disk.meta, rung.provider);
      // A parked runner that will do saves a launch.
      var kept, tuned := TakeParked(rung.provider, Wanted(rung));
      if kept.Some? {
        var retuned: bool := *;
        if tuned || retuned {
          ok := Adopt(kept.value.0, kept.value.1, Wanted(rung), false);
          return;
        }
      }
      if terminal {
        return false;
      }
      ok := ResumeOrReseed(rung, native, synced + 1);
    }

    /** A runner in the session the provider is bound to; or, where that is lost, in a new one with all history. */
    method ResumeOrReseed(rung: Pick, native: string, since: int) returns (ok: bool)
      requires Valid() && !stopping && crew.runner.None? && crew.epoch.None? && rung.provider !in crew.parked
      requires native == BoundId(disk.meta, rung.provider) && since <= Synced(disk.meta, rung.provider) + 1
      modifies `disk, `journal, `terminal, `stopping, `crew
      ensures Valid() && stopping == terminal && old(journal) <= journal
      ensures ok ==>
                && !terminal && crew.runner.Some? && crew.runner.value.name == rung.provider
                && crew.current == Some(Wanted(rung))
      ensures ok && native != "" && crew.runner.value.native != native && crew.runner.value.seed.Absorbed? ==>
                exists n :: n >= |old(disk.log)| - 1 && HoldsUpTo(disk, rung.provider, crew.runner.value.native, n)
    {
      hide Apply, Allowed, Stored, Unbroken, Episodes.AtFront, Manners.Sane, AllPermitted, Queued, Crewed, OpenedIds,
          LogTurn, BoundId, Synced, HistoryFor, HoldsUpTo, Plain, Fill, Usable, Conducting.Adopted, Recorded;
      Known();
      if native == "" && rung.provider !in disk.broken { NothingBound(disk, crew, turn, rung.provider); }
      var anew := native == "";
      var up := BringUp(rung.provider, native, since);
      if up.None? {
        return false;
      }
      if native != "" && up.value.0.native != native {
        ok := Announce(Kind.Config, rung.provider, "reseed");
        if !ok {
          return;
        }
        up := BringUp(rung.provider, "", 0);
        if up.None? {
          return false;
        }
        anew := true;
      }
      ok := Adopt(up.value.0, up.value.1, Wanted(rung), anew);
    }

    /** A runner is about to be replaced; should its turn still be on, that is worth remembering. */
    ghost method NoteParting()
      requires Valid() && !stopping
      modifies `habits
      ensures Valid() && habits == Manners.AfterParting(old(habits), inTurn)
                && (inTurn ==> Manners.Abandoned in habits.slips)
    {
      hide Apply, Allowed, Stored, Unbroken, Episodes.AtFront, Manners.Mannered, AllPermitted, Queued, Crewed,
          OpenedIds, LogTurn;
      Manners.Parted(disk.rewritten, habits, line, inTurn, crew.epoch, tally);
      habits := Manners.AfterParting(habits, inTurn);
    }

    /** On success the provider in charge is on the dial and has the settings of now. */
    method Rebuild() returns (ok: bool)
      requires Valid() && !stopping
      modifies `disk, `journal, `terminal, `stopping, `crew, `habits
      ensures Valid() && stopping == terminal && old(journal) <= journal
      ensures ok ==>
                && !terminal && crew.runner.Some? && crew.current.Some?
                && crew.current.value.provider in Usable(providers, benched)
      ensures habits == old(habits) || habits == Manners.AfterParting(old(habits), inTurn)
      ensures ok ==> crew.current.value.provider == crew.runner.value.name && crew.current.value.config == config
    {
      hide Apply, Allowed, Stored, Unbroken, Episodes.AtFront, Manners.Sane, AllPermitted, Queued, Crewed, OpenedIds,
          LogTurn, Plain, Fill, Usable, BoundId, Synced, IsHistory, Recorded, Aside, LetGo;
      Known();
      var rung := Rung();
      if rung.None? {
        return false;
      }
      var tunable := Tunable(rung.value);
      var took: bool := *;
      if tunable && took {
        ok := Retune(rung.value);
        return;
      }
      var previous := if crew.runner.Some? then crew.runner.value.name
                      else if crew.current.Some? then crew.current.value.provider else "";
      if crew.runner.Some? {
        NoteParting();
        ok := Park();
        if !ok {
          return;
        }
      }
      if previous != rung.value.provider && previous != "" {
        ok := Announce(SwitchProvider, rung.value.provider, "");
        if !ok {
          return;
        }
      }
      ok := Launch(rung.value);
    }

    /** The running CLI takes the new model or effort where it is. */
    method Retune(rung: Pick) returns (ok: bool)
      requires Valid() && !stopping && crew.runner.Some? && crew.current.Some?
                && crew.current.value.provider == rung.provider
      modifies `disk, `journal, `terminal, `stopping, `crew
      ensures Valid() && ok == !terminal && stopping == terminal && old(journal) <= journal
      ensures crew == old(crew).(current := Some(Wanted(rung)))
      ensures crew.runner.value.name == rung.provider
      ensures ok ==> disk == Recorded(old(disk), Plain(Kind.Config, rung.provider, "retune"), crew, turn)
    {
      hide Apply, Allowed, Stored, Unbroken, Episodes.AtFront, Manners.Mannered, AllPermitted, Queued, Crewed,
          OpenedIds, LogTurn;
      RunnerKnown(disk, crew, turn);
      CrewRetuned(disk, crew, turn, Wanted(rung));
      crew := crew.(current := Some(Wanted(rung)));
      ok := Announce(Kind.Config, rung.provider, "retune");
    }

    // --------------------------------------------------------------- the dial

    /** Nothing of this provider stays parked, and that it is off the dial is logged. */
    method MovedOn(name: string, why: string) returns (ok: bool)
      requires Valid() && !stopping
      modifies `disk, `journal, `terminal, `stopping, `crew
      ensures Valid() && ok == !terminal && stopping == terminal && old(journal) <= journal
      ensures ok ==> crew == old(crew).(parked := old(crew.parked) - {name}) && disk.meta == old(disk.meta)
      ensures ok ==> disk == Recorded(old(disk), Plain(Kind.Config, name, why), crew, turn)
    {
      hide Apply, Allowed, Stored, Unbroken, Episodes.AtFront, Manners.Mannered, AllPermitted, Queued, Crewed,
          OpenedIds, LogTurn;
      CrewUnparked(disk, crew, turn, name);
      crew := crew.(parked := crew.parked - {name});
      ok := Announce(Kind.Config, name, why);
    }

    /** Is the dial not empty? If it is, nobody is benched from now on, and the log says why. */
    method AnyoneLeft() returns (left: bool)
      requires Valid() && !stopping
      modifies `disk, `journal, `terminal, `stopping, `benched
      ensures Valid() && stopping == terminal && old(journal) <= journal
      ensures left ==> !terminal && benched == old(benched)
      ensures left == (Usable(providers, old(benched)) != [])
      ensures !left ==> Usable(providers, benched) == providers && (terminal || Complained(journal, |old(journal)|))
      ensures !terminal ==> disk.meta == old(disk.meta)
    {
      hide Apply, Allowed, Stored, Unbroken, Episodes.AtFront, Manners.Sane, AllPermitted, Queued, Crewed, OpenedIds,
          LogTurn, Complained;
      if Usable(providers, benched) != [] {
        return true;
      }
      if providers == [] {
        Blocked("every provider is unauthenticated; log one back in and send again");
      } else {
        NobodyBenched(providers);
        benched := {};
        Blocked("every provider failed; send again to try them all once more");
      }
      left := false;
    }

    /** Bench a provider: it stays on the list, and the dial has one less, or is full again if that emptied it. */
    method Sideline(name: string, why: string) returns (ok: bool)
      requires Valid() && !stopping
      modifies `disk, `journal, `terminal, `stopping, `crew, `benched
      ensures Valid() && stopping == terminal && old(journal) <= journal
      ensures ok ==> !terminal && benched == old(benched) + {name} && crew.runner == old(crew.runner)
      ensures ok ==> disk.meta == old(disk.meta)
      ensures ok ==> 0 < |Usable(providers, benched)| < |Usable(providers, old(benched))|
      ensures !ok && !terminal && name in Usable(providers, old(benched)) ==>
                Usable(providers, benched) == providers && Complained(journal, |old(journal)|)
      ensures name !in Usable(providers, old(benched)) ==> !ok && journal == old(journal) && benched == old(benched)
    {
      hide Apply, Allowed, Stored, Unbroken, Episodes.AtFront, Manners.Sane, AllPermitted, Queued, Crewed, OpenedIds,
          LogTurn, Usable;
      UsableMembers(providers, benched);
      if name !in providers || name in benched {
        return false;
      }
      BenchShrinks(providers, benched, name);
      benched := benched + {name};
      ok := MovedOn(name, why);
      if ok {
        ok := AnyoneLeft();
      }
    }

    /**
     Ends with a provider of the dial in charge, or with a complaint in the log. Each
     failure to start benches somebody, so the dial bounds how often it is tried.
     */
    method Attempt(why: string) returns (ok: bool)
      requires Valid() && !stopping
      modifies `disk, `journal, `terminal, `stopping, `crew, `habits, `benched
      ensures Valid() && stopping == terminal && old(journal) <= journal
      ensures ok ==>
                && !terminal && crew.runner.Some? && crew.current.Some?
                && crew.current.value.provider in Usable(providers, benched)
      ensures ok ==> |Usable(providers, benched)| <= |Usable(providers, old(benched))|
      ensures !ok ==> terminal || Complained(journal, |old(journal)|)
      ensures habits == old(habits) || habits == Manners.AfterParting(old(habits), inTurn)
    {
      hide Apply, Allowed, Stored, Unbroken, Episodes.AtFront, Manners.Sane, AllPermitted, Queued, Crewed, OpenedIds,
          LogTurn, Usable, Plain, Conducting.Failed, Fill, IsHistory, Complained, Manners.AfterParting;
      Manners.PartedTwice(habits, inTurn);
      var up := Rebuild();
      while !up
        invariant Valid() && stopping == terminal && old(journal) <= journal
        invariant up ==>
                  && !terminal && crew.runner.Some? && crew.current.Some?
                  && crew.current.value.provider in Usable(providers, benched)
        invariant |Usable(providers, benched)| <= |Usable(providers, old(benched))|
        invariant habits == old(habits) || habits == Manners.AfterParting(old(habits), inTurn)
        decreases |Usable(providers, benched)|, !up
      {
        ghost var before := |journal|;
        if terminal {
          return false;
        }
        var another := SetAsideUnstarted();
        if !another {
          if !terminal { ComplainedSince(journal, |old(journal)|, before); }
          return false;
        }
        up := Rebuild();
      }
      ok := true;
    }

    /** Whoever the dial names would not start. With failover on it is set aside, if that leaves anybody to try. */
    method SetAsideUnstarted() returns (another: bool)
      requires Valid() && !stopping
      modifies `disk, `journal, `terminal, `stopping, `crew, `benched
      ensures Valid() && stopping == terminal && old(journal) <= journal
      ensures another ==>
                && !terminal && autoremove
                && 0 < |Usable(providers, benched)| < |Usable(providers, old(benched))|
      ensures !another ==> terminal || Complained(journal, |old(journal)|)
    {
      hide Apply, Allowed, Stored, Unbroken, Episodes.AtFront, Manners.Sane, AllPermitted, Queued, Crewed, OpenedIds,
          LogTurn, Usable, Plain, Conducting.Failed, Fill, IsHistory, Complained;
      var culprit := Rung();
      if culprit.None? || !autoremove {
        Blocked("could not start a provider");
        return false;
      }
      var noted := Report(Crash, culprit.value.provider, "could not start a provider");
      if !noted {
        return false;
      }
      ghost var before := |journal|;
      another := Sideline(culprit.value.provider, "would not start");
      if !another && !terminal { ComplainedSince(journal, |old(journal)|, before); }
    }

    // -------------------------------------------------------------- delivery

    /** One write makes the message durable, last in line, or nothing has changed. */
    method Enqueue(text: string) returns (ok: bool)
      requires Valid() && !stopping
      modifies `disk, `journal, `terminal, `stopping, `line, `tally
      ensures Valid() && ok == !terminal && stopping == terminal
      ensures ok ==>
                && journal == old(journal) + [Write.Enqueue(text)]
                && line == Joining(old(line), Msg(|old(disk.issued)|, text))
                && tally == AfterJoining(old(tally), Msg(|old(disk.issued)|, text))
                && disk.meta == old(disk.meta).(pending := old(disk.meta.pending) + [Msg(|old(disk.issued)|, text)])
      ensures !ok ==> journal == old(journal) && tally == old(tally) && line == old(line)
    {
      hide Apply, Allowed, Stored, Unbroken, Episodes.AtFront, Manners.Mannered, AllPermitted, Queued, Crewed,
          OpenedIds, LogTurn, Stamp, Flat;
      MessageJoins(journal, disk, line, tally, crew, turn, text);
      var message := Msg(|disk.issued|, text);
      Manners.Joined(disk.rewritten, habits, line, inTurn, crew.epoch, tally, stopping, message);
      ok := Save(Write.Enqueue(text));
      if ok {
        line, tally := Joining(line, message), AfterJoining(tally, message);
      }
    }

    /** The event that says a message was consumed becomes durable first; only then is the message retired. */
    method RecordDelivery(opening: Event, id: Id) returns (ok: bool)
      requires Filed() && !terminal
      requires Allowed(disk, Append(Filled(opening))) && Allowed(Apply(disk, Append(Filled(opening))), Complete(id))
      modifies `disk, `journal, `terminal, `stopping, `crew, `turn
      ensures Filed() && ok == !terminal && old(journal) <= journal
      ensures Episodes.AtFront(old(disk)) ==> Episodes.AtFront(disk)
      ensures if ok then stopping == old(stopping) else stopping
      ensures ok ==>
                && disk == Apply(Apply(old(disk), Append(old(Filled(opening)))), Complete(id))
                && journal == old(journal) + [Append(old(Filled(opening)))] + [Complete(id)]
                && turn == Max(old(turn), old(Filled(opening)).turn) && crew == Owning(old(crew), turn)
    {
      hide Apply, Allowed, Stored, Unbroken, Episodes.AtFront, Manners.Mannered, LogTurn;
      var recorded := Record(opening);
      if recorded.None? {
        return false;
      }
      turn := Max(turn, recorded.value.turn);
      crew := Owning(crew, turn);
      ok := Save(Complete(id));
    }

    /** The queues follow what was written, and say whether a turn is on. */
    method Follow(after: Line, ghost counted: Tally, ghost manners: Manners.Habits, on: bool, recorded: bool)
      requires Filed() && AllPermitted(handed) && !terminal
      requires begunInFront && Manners.NamedBehind !in manners.slips ==> Episodes.AtFront(disk)
      requires Manners.Sane(disk, Flags().(inTurn := on, turnRecorded := recorded), crew, turn, after, counted, manners)
      modifies `line, `tally, `habits, `inTurn, `turnRecorded
      ensures Valid() && line == after && tally == counted && habits == manners && inTurn == on
                && turnRecorded == recorded
    {
      hide Apply, Allowed, Stored, Unbroken, Episodes.AtFront, Manners.Sane, AllPermitted;
      Manners.SaneClear(disk, Flags().(inTurn := on, turnRecorded := recorded), crew, turn, after, counted, manners);
      line, tally, habits := after, counted, manners;
      inTurn, turnRecorded := on, recorded;
    }

    /** Record that the runner took the head of the outbox, and only then retire it. */
    method Deliver(nextTurn: bool) returns (ok: bool)
      requires Valid() && !stopping && line.outbox != [] && crew.runner.Some?
      requires recovery.Some? ==> recovery.value.messageId == Some(line.outbox[0].id)
      modifies `disk, `journal, `terminal, `stopping, `crew, `line, `tally, `habits, `turn, `inTurn, `turnRecorded
      ensures Valid() && ok == !terminal && stopping == terminal && old(journal) <= journal
      ensures ok ==>
                && old(crew.epoch.Some?)
                && habits == Manners.AfterTaking(old(habits), old(crew.epoch.value),
                                                 Manners.WayOf(if nextTurn then NextTurn else Immediate, old(inTurn)))
                && line == Delivered(old(line), nextTurn && old(inTurn))
                && tally == AfterDelivered(old(tally), old(line), nextTurn && old(inTurn))
                && inTurn && turnRecorded && turn == (if old(inTurn) then old(turn) else old(turn) + 1)
                && crew == Owning(old(crew), turn)
                && journal == old(journal) + [Append(old(Filled(Opening(line.outbox[0], inTurn,
                                                                        turn))))] + [Complete(old(line.outbox[0].id))]
      ensures !ok ==> tally == old(tally)
    {
      hide Apply, Allowed, Stored, Unbroken, Episodes.AtFront, Manners.Sane, AllPermitted, Queued, Crewed, OpenedIds,
          LogTurn, Stamp, Flat, Without, Fill, Opening, Owning, Delivered, AfterDelivered, Remembered, Echo, AfterEcho,
          Manners.AfterTaking, Manners.WayOf;
      var message, later := line.outbox[0], nextTurn && inTurn;
      Manners.TakenAtOnce(journal, disk, Flags(), crew, turn, line, tally, habits, nextTurn);
      Manners.SlipsGrow(habits, crew.epoch.value, Manners.WayOf(if nextTurn then NextTurn else Immediate, inTurn));
      ghost var after := Manners.AfterTaking(habits, crew.epoch.value,
                                             Manners.WayOf(if nextTurn then NextTurn else Immediate, inTurn));
      ok := RecordDelivery(Opening(message, inTurn, turn), message.id);
      if !ok {
        return;
      }
      Follow(Delivered(line, later), AfterDelivered(tally, line, later), after, true, true);
    }

    /**
     A provider says it has read a message. That counts only for the oldest write not
     confirmed yet, and only word for word.
     */
    method Confirm(text: string, opening: Option<Kind>, provider: string) returns (confirmed: bool)
      requires Valid() && !terminal
      requires crew.runner.Some? ==> provider == "" || provider == crew.runner.value.name
      modifies `disk, `journal, `terminal, `stopping, `crew, `line, `tally, `habits, `turn, `inTurn, `turnRecorded
      ensures Valid() && old(journal) <= journal && stopping == (old(stopping) || terminal)
      ensures Kept(old(tally), tally, autoremove, terminal)
      ensures !terminal ==>
                confirmed == (old(line.awaiting) != [] && old(line.awaiting[0].text) == text
                              && (opening == Some(Start) || opening == Some(Injected)))
      ensures confirmed ==>
                && old(line.awaiting) != [] && line == Echo(old(line), opening == Some(Start))
                && tally == AfterEcho(old(tally), old(line), opening == Some(Start))
                && habits == Manners.AfterConfirming(old(habits), old(line), opening == Some(Start))
      ensures !terminal ==>
                && crew == old(crew).(turns := crew.turns)
                && (!confirmed ==> journal == old(journal) && line == old(line) && habits == old(habits))
    {
      hide Apply, Allowed, Stored, Unbroken, Episodes.AtFront, Manners.Sane, AllPermitted, Queued, Crewed, OpenedIds,
          LogTurn, Fill, Plain, Conducting.Failed, Echo, AfterEcho;
      if line.awaiting == [] || line.awaiting[0].text != text || opening.None?
          || !(opening.value.Start? || opening.value.Injected?) {
        return false;
      }
      DeliveringKeeps(tally, line, opening.value.Start?, autoremove, false);
      KeptAsIs(tally, autoremove);
      confirmed := ConfirmHead(opening.value.Start?, provider);
      OwningKept(old(crew), turn);
    }

    /** The oldest unconfirmed write was read; its opening event becomes durable before it is retired. */
    method ConfirmHead(opens: bool, provider: string) returns (ok: bool)
      requires Valid() && !terminal && line.awaiting != []
      requires crew.runner.Some? ==> provider == "" || provider == crew.runner.value.name
      modifies `disk, `journal, `terminal, `stopping, `crew, `line, `tally, `habits, `turn, `inTurn, `turnRecorded
      ensures Valid() && ok == !terminal && old(journal) <= journal && stopping == (old(stopping) || terminal)
      ensures ok ==>
                && line == Echo(old(line), opens) && tally == AfterEcho(old(tally), old(line), opens)
                && habits == Manners.AfterConfirming(old(habits), old(line), opens)
                && inTurn && turnRecorded && turn == (if opens then old(turn) + 1 else old(turn))
                && crew == Owning(old(crew), turn)
                && journal == old(journal) + [Append(old(Filled(Confirmation(line.awaiting[0], opens, provider,
                                                                             turn))))]
                                           + [Complete(old(line.awaiting[0].id))]
      ensures !ok ==> tally == old(tally)
    {
      hide Apply, Allowed, Stored, Unbroken, Episodes.AtFront, Manners.Sane, AllPermitted, Queued, Crewed, OpenedIds,
          LogTurn, Fill, Plain, Conducting.Failed, Stamp, Flat, Without, Opening, Confirmation, Owning, Remembered,
          Echo, AfterEcho, Manners.AfterConfirming;
      var message := line.awaiting[0];
      Manners.TakenByEcho(journal, disk, Flags(), crew, turn, line, tally, habits, opens, provider);
      Manners.SlipsStay(habits, line, opens);
      ghost var after := Manners.AfterConfirming(habits, line, opens);
      ok := RecordDelivery(Confirmation(message, opens, provider, turn), message.id);
      if !ok {
        return;
      }
      Follow(Echo(line, opens), AfterEcho(tally, line, opens), after, true, true);
    }

    // ---------------------------------------------------------- late output

    /**
     Output of a replaced runner: logged against the turn it belongs to, and
     nothing to react to. The frame is the point: no queue, no turn flag, no
     dial and no running provider can change here.
     */
    method Overhear(event: Event, epoch: nat) returns (ok: bool)
      requires Valid() && !terminal && Unnumbered(event)
      modifies `disk, `journal, `terminal, `stopping, `crew
      ensures Valid() && ok == !terminal && old(journal) <= journal
      ensures if ok then stopping == old(stopping) else stopping
      ensures ok ==>
                && crew == (if IsHistory(event)
                            && old(crew.runner.Some?) then Holed(old(crew), |old(disk.log)|) else old(crew))
                && disk == Apply(old(disk), Append(old(Filled(Dated(event, crew, epoch).(late := true)))))
                && disk.meta == old(disk.meta)
                && |disk.log| == |old(disk.log)| + 1 && disk.log[..|old(disk.log)|] == old(disk.log)
                && disk.log[|old(disk.log)|].late && disk.log[|old(disk.log)|].text == event.text
                && disk.log[|old(disk.log)|].kind == event.kind
    {
      hide Apply, Allowed, Stored, Unbroken, Episodes.AtFront, Manners.Mannered, AllPermitted, Queued, Crewed,
          OpenedIds, LogTurn, Fill, Dated, Holed, IsHistory;
      LateOutput(disk, line, tally, crew, turn, event, epoch);
      var position := |disk.log|;
      var recorded := Record(Dated(event, crew, epoch).(late := true));
      ok := recorded.Some?;
      if ok && IsHistory(event) && crew.runner.Some? {
        crew := Holed(crew, position);
      }
    }

    // ------------------------------------------------------- context recovery

    /** Memory follows a recovery record that was written. */
    method FollowRecovery(next: Option<Recovery>, since: Option<nat>, after: Line, ghost counted: Tally,
                          ghost manners: Manners.Habits)
      requires Filed() && AllPermitted(handed) && !terminal && !stopping
      requires begunInFront && Manners.NamedBehind !in manners.slips ==> Episodes.AtFront(disk)
      requires Manners.Sane(disk, Flags().(recovery := next, relaunching := false,
                                           historyStart := if since.Some? then since.value else historyStart),
                            crew, turn, after, counted, manners)
      modifies `line, `tally, `habits, `recovery, `historyStart, `relaunching
      ensures Valid() && line == after && tally == counted && recovery == next && !relaunching
    {
      hide Apply, Allowed, Stored, Unbroken, Episodes.AtFront, Manners.Sane, AllPermitted;
      Manners.SaneClear(disk, Flags().(recovery := next, relaunching := false,
                                       historyStart := if since.Some? then since.value else historyStart),
                        crew, turn, after, counted, manners);
      line, tally, habits := after, counted, manners;
      recovery, relaunching := next, false;
      if since.Some? {
        historyStart := since.value;
      }
    }

    /** Write a recovery transition, its message and what it supersedes at once, then follow in memory. */
    method SaveRecovery(next: Option<Recovery>, since: Option<nat>, message: Option<string>) returns (ok: bool)
      requires Valid() && !stopping
      requires StageStep(recovery, next, relaunching) && RecoverFits(disk, next, since, message)
      requires since.Some? ==> crew.runner.None? && crew.parked == map[]
      requires message.None? && next.Some? && next.value.messageId.Some? ==>
                 line.outbox != [] && next.value.messageId == Some(line.outbox[0].id)
      modifies `disk, `journal, `terminal, `stopping, `line, `tally, `habits, `recovery, `historyStart, `relaunching
      ensures Valid() && ok == !terminal && stopping == terminal && old(journal) <= journal
      ensures ok ==>
                && recovery == next && !relaunching && disk.rewritten
                && journal == old(journal) + [Recover(next, since, message, Superseded(old(recovery), next))]
                && line == Recovering(old(line), Superseded(old(recovery), next), Minted(old(disk), message))
                && tally == AfterRecovering(old(tally), old(line), Superseded(old(recovery), next),
                                            Minted(old(disk), message))
                && (message.Some? ==> AtHead(line, |old(disk.issued)|, message.value))
                && Episodes.AtFront(disk) ==
                     !Episodes.NamesBehind(old(disk), Recover(next, since, message, Superseded(old(recovery), next)))
      ensures Kept(old(tally), tally, autoremove, terminal) && (ok ==> tally.steady)
      ensures !ok ==> journal == old(journal)
    {
      hide Apply, Allowed, Stored, Unbroken, Episodes.AtFront, Manners.Sane, AllPermitted, Queued, Crewed, OpenedIds,
          LogTurn, StageStep, RecoverFits, Superseded, Recovering, AfterRecovering, Minted, AtHead, Kept,
          Episodes.NamesBehind, Manners.AfterNaming;
      KeptAsIs(tally, autoremove);
      var superseded := Superseded(recovery, next);
      ghost var w := Recover(next, since, message, superseded);
      Manners.RecoveryKept(journal, disk, Flags(), crew, turn, line, tally, habits, next, since, message);
      Manners.NamingSlips(habits, Episodes.NamesBehind(disk, w));
      var minted := Minted(disk, message);
      ghost var behind := Episodes.NamesBehind(disk, w);
      ok := Save(Recover(next, since, message, superseded));
      if !ok {
        return;
      }
      RecoveringKeeps(tally, line, superseded, minted, autoremove, false);
      FollowRecovery(next, since, Recovering(line, superseded, minted),
                     AfterRecovering(tally, line, superseded, minted),
          Manners.AfterNaming(habits, behind));
    }

    /** Recovery is given up: its turn is closed, nobody is in charge, and no recovery follows from it. */
    method RecoveryFailed(why: string)
      requires Valid() && !stopping && recovery.Some?
      modifies `disk, `journal, `terminal, `stopping, `crew, `line, `tally, `habits, `turnFailed, `inTurn,
          `turnRecorded,
          `recovery, `historyStart, `relaunching
      ensures Valid() && stopping == terminal && old(journal) <= journal
      ensures !terminal ==> recovery.None? && !inTurn && crew.runner.None?
      ensures Kept(old(tally), tally, autoremove, terminal)
      ensures !terminal ==> TurnsTo(journal, |old(journal)|, None)
    {
      hide Apply, Allowed, Stored, Unbroken, Episodes.AtFront, Manners.Sane, AllPermitted, Fill, Plain,
          Conducting.Failed, TurnsTo, Kept;
      var provider := Blamed(crew, "");
      var ok := GiveUpRecovery(provider);
      if !ok {
        return;
      }
      ghost var after := journal;
      KeptOver(old(tally), tally, autoremove);
      ok := Report(ContextLimit, provider, why);
      StillTurned(after, |old(journal)|, None, journal);
    }

    /** The turn is closed without a retry, and recovery is over. */
    method GiveUpRecovery(provider: string) returns (ok: bool)
      requires Valid() && !stopping && recovery.Some?
      modifies `disk, `journal, `terminal, `stopping, `crew, `line, `tally, `habits, `turnFailed, `inTurn,
          `turnRecorded,
          `recovery, `historyStart, `relaunching
      ensures Valid() && ok == !terminal && stopping == terminal && old(journal) <= journal
      ensures ok ==> recovery.None? && !inTurn && crew.runner.None?
      ensures Kept(old(tally), tally, autoremove, terminal)
      ensures ok ==> TurnsTo(journal, |old(journal)|, None)
    {
      hide Apply, Allowed, Stored, Unbroken, Episodes.AtFront, Manners.Sane, AllPermitted, Queued, Crewed, OpenedIds,
          LogTurn, Fill, Plain, Conducting.Failed, Back, Requeued, AfterClose, Recovering, AfterRecovering, Minted,
          Superseded, TurnsTo, StaysPut, Kept, Loose, Episodes.NamesBehind;
      ok := CloseTurn(provider, "context_recovery_failed", false);
      if !ok {
        KeptLost(old(tally), tally, autoremove);
        return;
      }
      ghost var before, closed := journal, tally;
      KeptOver(old(tally), closed, autoremove);
      Known();
      EndFits(disk);
      ok := SaveRecovery(None, None, None);
      KeptAgain(old(tally), closed, tally, autoremove, terminal);
      if ok {
        Turned(old(journal), before, journal, journal[|before|]);
      }
    }

    // ------------------------------------------------- the conductor's reactions

    /** The bookkeeping of an END. `idle` says the provider has nothing more of ours on its way. */
    method CloseAnswered() returns (idle: bool)
      requires Valid() && !stopping && !turnRecorded
      modifies `disk, `journal, `terminal, `stopping, `line, `tally, `habits, `inTurn, `turnRecorded
      ensures Valid() && stopping == terminal && old(journal) <= journal
      ensures idle ==> !terminal && line == Answered(old(line)) && line.nextTurns == 0 && line.awaiting == []
      ensures !terminal ==>
                && (idle <==> old(line.nextTurns == 0 && line.awaiting == [])) && inTurn == !idle
                && turnRecorded == (old(line.nextTurns) > 0)
                && tally == AfterAnswered(old(tally), old(line))
                && line == Answered(old(line)).(nextTurns := if old(line.nextTurns) > 0 then old(line.nextTurns) - 1
                                                else 0)
      ensures !terminal ==>
                disk == if old(line.nextTurns) == 0 && crew.runner.Some?
                        then Apply(old(disk), Marking(crew, old(disk.log)))
                        else old(disk)
      ensures Kept(old(tally), tally, autoremove, terminal) && habits == old(habits)
    {
      hide Apply, Allowed, Stored, Unbroken, Episodes.AtFront, Manners.Sane, AllPermitted, Queued, Crewed, OpenedIds,
          LogTurn, Fill, Plain, Conducting.Failed, Answered, AfterAnswered, Ceiling, Kept;
      Manners.TurnClosed(journal, disk, Flags(), crew, turn, line, tally, habits);
      AnsweringKeeps(tally, line, autoremove, false);
      AnsweringKeeps(tally, line, autoremove, true);
      // A mid-flight write may have become a later native turn: then this END is a boundary, not an idle moment.
      var next := line.nextTurns > 0;
      Follow(Answered(line).(nextTurns := if next then line.nextTurns - 1 else 0), AfterAnswered(tally, line), habits,
          next || line.awaiting != [], next);
      if next {
        return false;
      }
      if crew.runner.Some? {
        var ok := Save(Marking(crew, disk.log));
        if !ok {
          return false;
        }
      }
      // A later line may already be on the pipe, its echo still to come.
      idle := line.awaiting == [];
    }

    method FinishTurn() returns (end: Flushed)
      requires Valid() && !stopping && !turnRecorded
      modifies `disk, `journal, `terminal, `stopping, `crew, `line, `tally, `habits, `handed, `turn, `inTurn,
          `turnRecorded, `turnFailed, `recovery, `historyStart, `relaunching, `providers, `benched
      ensures Valid() && stopping == terminal && old(journal) <= journal && old(handed) <= handed
      ensures Kept(old(tally), tally, autoremove, terminal)
      ensures Among(providers, old(providers))
      ensures !terminal ==> old(AfterAnswered(tally, line)).closed <= tally.closed
      ensures !end.Unready? ==> old(line.nextTurns == 0 && line.awaiting == [])
      ensures !end.TurnedDown? && !terminal ==> recovery == old(recovery)
      ensures terminal || Accounts(end, old(line.outbox), line.outbox, handed[|old(handed)|..], old(recovery))
      decreases 4, |Usable(providers, benched)|, 0
    {
      hide Apply, Allowed, Stored, Unbroken, Episodes.AtFront, Manners.Sane, AllPermitted, Queued, Crewed, OpenedIds,
          LogTurn, Fill, Plain, Conducting.Failed, AfterAnswered, Ceiling, Usable, HandedOver, Permitted;
      var idle := CloseAnswered();
      end := Unready;
      if !idle {
        return;
      }
      var stale := Stale();
      if stale {
        var ok := Attempt("settings changed");
        if !ok {
          return;
        }
      }
      end := Flush();
    }

    method DispatchQueued() returns (end: Flushed)
      requires Valid() && !stopping
      modifies `disk, `journal, `terminal, `stopping, `crew, `line, `tally, `habits, `handed, `turn, `inTurn,
          `turnRecorded, `turnFailed, `recovery, `historyStart, `relaunching, `providers, `benched
      ensures Valid() && stopping == terminal && old(journal) <= journal && old(handed) <= handed
      ensures Kept(old(tally), tally, autoremove, terminal)
      ensures Among(providers, old(providers))
      ensures !end.TurnedDown? && !terminal ==> recovery == old(recovery)
      ensures terminal || Accounts(end, old(line.outbox), line.outbox, handed[|old(handed)|..], old(recovery))
      ensures end.Unready? && !terminal && crew.runner.None? ==> Complained(journal, |old(journal)|)
      decreases Rank(recovery), |Usable(providers, benched)|, 6
    {
      hide Apply, Allowed, Stored, Unbroken, Episodes.AtFront, Manners.Sane, AllPermitted, Queued, Crewed, OpenedIds,
          LogTurn, Fill, Plain, Conducting.Failed, Usable, HandedOver, Permitted;
      var alive: bool := *;
      var ready := true;
      if crew.runner.None? || !alive {
        ready := Attempt("no provider is running");
      } else if !inTurn {
        var stale := Stale();
        if stale {
          ready := Attempt("settings changed");
        }
      }
      end := Unready;
      if ready {
        end := Flush();
      }
    }

    /**
     With the message it takes, the runner has taken in whatever it was handed when it came up. If
     that was the whole history, its provider has a fresh start.
     */
    method TakeSeed()
      requires Valid() && !terminal && crew.runner.Some?
      modifies `disk, `journal, `crew
      ensures Valid() && old(journal) <= journal
      ensures crew == Settled(old(crew)) && disk == TakenIn(old(disk), old(crew))
      ensures old(crew.runner.value.seed.Absorbed?) ==> journal == old(journal)
      ensures old(crew.runner.value.seed.Whole?) ==> crew.runner.value.name !in disk.broken
    {
      hide Apply, Allowed, Stored, Unbroken, Episodes.AtFront, Manners.Sane, AllPermitted, Queued, Crewed, OpenedIds,
          LogTurn, Owed, Ceiling;
      var runner := crew.runner.value;
      if !runner.seed.Absorbed? {
        Manners.Seeded(journal, disk, Flags(), crew, turn, line, tally, habits);
        Heed(Seeds(disk, crew));
        if runner.seed.Whole? {
          Heed(Write.Seeded(runner.name));
        }
        crew := Settled(crew);
      }
    }

    /** Write the head of the outbox to a provider that confirms what it reads. */
    method AwaitEcho()
      requires Valid() && !stopping && line.outbox != [] && crew.runner.Some?
      requires recovery.Some? ==> recovery.value.messageId == Some(line.outbox[0].id)
      modifies `line, `habits, `inTurn
      ensures Valid() && line == Written(old(line)) && inTurn
      ensures crew.epoch.Some? && habits == Manners.AfterTaking(old(habits), crew.epoch.value, Manners.Echoes)
    {
      hide Apply, Allowed, Stored, Unbroken, Episodes.AtFront, Manners.Mannered, AllPermitted, Queued, Crewed,
          OpenedIds, LogTurn, Fill, Plain, Conducting.Failed, InOrder;
      QueueWritten(disk.meta.pending, disk.synth, disk.log, disk.meta.recovery, disk.rewritten, line, tally);
      RunnerKnown(disk, crew, turn);
      Manners.WrittenOut(disk.rewritten, habits, line, inTurn, crew.epoch.value, tally);
      Manners.SlipsGrow(habits, crew.epoch.value, Manners.Echoes);
      habits := Manners.AfterTaking(habits, crew.epoch.value, Manners.Echoes);
      line := Written(line);
      inTurn := true;
    }

    /** A runner that is gone, or not the one called for, is handed nothing; any other, all that may pass. */
    method Flush() returns (end: Flushed)
      requires Valid() && !stopping
      modifies `disk, `journal, `terminal, `stopping, `crew, `line, `tally, `habits, `handed, `turn, `inTurn,
          `turnRecorded, `turnFailed, `recovery, `historyStart, `relaunching, `providers, `benched
      ensures Valid() && stopping == terminal && old(journal) <= journal && old(handed) <= handed
      ensures Kept(old(tally), tally, autoremove, terminal)
      ensures Among(providers, old(providers))
      ensures !end.Unready? ==> old(crew.runner.Some? && crew.runner.value.name in Usable(providers, benched))
      ensures !end.TurnedDown? && !terminal ==> recovery == old(recovery)
      ensures terminal || Accounts(end, old(line.outbox), line.outbox, handed[|old(handed)|..], old(recovery))
      ensures end.Unready? && !terminal ==>
                crew == old(crew) && (crew.runner.None? && line.outbox != [] ==> Complained(journal, |old(journal)|))
      decreases Rank(recovery), |Usable(providers, benched)|, 5
    {
      hide Apply, Allowed, Stored, Unbroken, Episodes.AtFront, Manners.Mannered, AllPermitted, Queued, Crewed,
          OpenedIds, LogTurn, Fill, Plain, Conducting.Failed, Usable, Rank, HandedOver, Permitted;
      var alive: bool := *;
      var ready := crew.runner.Some? && alive;
      var stale := Stale();
      if !ready || stale {
        KeptAsIs(tally, autoremove);
        if line.outbox != [] && !ready {
          Blocked("nothing is running; messages still queued");
        }
        return Unready;
      }
      RunnerKnown(disk, crew, turn);
      end := HandAll();
    }

    /**
     To a runner that is up and wanted: hand over everything that may be, in order.
     It ends when the outbox is empty, at a message recovery does not let pass, or
     at one the runner refused.
     */
    method HandAll() returns (end: Flushed)
      requires Valid() && !stopping && crew.runner.Some? && crew.runner.value.name in Usable(providers, benched)
      modifies `disk, `journal, `terminal, `stopping, `crew, `line, `tally, `habits, `handed, `turn, `inTurn,
          `turnRecorded, `turnFailed, `recovery, `historyStart, `relaunching, `providers, `benched
      ensures Valid() && stopping == terminal && old(journal) <= journal && old(handed) <= handed
      ensures Kept(old(tally), tally, autoremove, terminal)
      ensures Among(providers, old(providers))
      ensures !end.Unready? && (end.Drained? ==> !terminal && recovery == old(recovery))
      ensures terminal || Accounts(end, old(line.outbox), line.outbox, handed[|old(handed)|..], old(recovery))
      decreases Rank(recovery), |Usable(providers, benched)|, 4
    {
      hide Apply, Allowed, Stored, Unbroken, Episodes.AtFront, Manners.Sane, AllPermitted, Queued, Crewed, OpenedIds,
          LogTurn, Fill, Plain, Conducting.Failed, Usable, Rank, HandedOver, Permitted, Kept;
      ghost var queue, start := line.outbox, |handed|;
      var more := true;
      NoneHanded(line.outbox, recovery);
      assert handed[start..] == [];
      KeptAsIs(tally, autoremove);
      while more && line.outbox != [] && Permitted(Hand(line.outbox[0].id, recovery))
        invariant Valid() && stopping == terminal && old(journal) <= journal && old(handed) <= handed
        invariant Kept(old(tally), tally, autoremove, terminal) && Among(providers, old(providers))
        invariant more ==>
                    && !stopping && crew.runner.Some? && crew.runner.value.name in Usable(providers, benched)
                    && recovery == old(recovery) && providers == old(providers) && benched == old(benched)
                    && HandedOver(queue, line.outbox, handed[start..], recovery)
        invariant handed == old(handed) || (queue != [] && old(handed) + [Hand(queue[0].id, old(recovery))] <= handed)
        invariant !more ==> handed != old(handed)
        decreases more, |line.outbox|
      {
        ghost var outbox, sofar, was := line.outbox, handed, tally;
        if handed == old(handed) { FirstOfAll(queue, outbox, recovery); }
        more := HandOver();
        KeptOn(old(tally), was, tally, autoremove, terminal);
        if more {
          OneMoreHanded(queue, outbox, sofar[start..], recovery);
          HandedMore(sofar, Hand(outbox[0].id, recovery), start);
        }
      }
      end := if more then Drained else TurnedDown;
    }

    /** The runner took the head of the outbox, in one way or another. */
    method Take(how: Runners.Delivery) returns (ok: bool)
      requires Valid() && !stopping && line.outbox != [] && crew.runner.Some?
      requires recovery.Some? ==> recovery.value.messageId == Some(line.outbox[0].id)
      modifies `disk, `journal, `terminal, `stopping, `crew, `line, `tally, `habits, `turn, `inTurn, `turnRecorded
      ensures Valid() && ok == !terminal && stopping == terminal && old(journal) <= journal
      ensures Kept(old(tally), tally, autoremove, terminal)
      ensures ok ==>
                && line == (if how.Echoed? then Written(old(line))
                            else Delivered(old(line), how.NextTurn? && old(inTurn)))
                && crew.runner == Some(old(crew.runner.value).(seed := Absorbed)) && inTurn
                && old(crew.epoch.Some?)
                && habits == Manners.AfterTaking(old(habits), old(crew.epoch.value), Manners.WayOf(how, old(inTurn)))
    {
      hide Apply, Allowed, Stored, Unbroken, Episodes.AtFront, Manners.Sane, AllPermitted, Queued, Crewed, OpenedIds,
          LogTurn, Fill, Opening, Remembered, AfterDelivered, Manners.AfterTaking, TakenIn, Ceiling, Kept;
      KeptAsIs(tally, autoremove);
      TakeSeed();
      if how.Echoed? {
        AwaitEcho();
        ok := true;
      } else {
        DeliveringKeeps(tally, line, how.NextTurn? && inTurn, autoremove, false);
        assert how == if how.NextTurn? then NextTurn else Immediate;
        ok := Deliver(how.NextTurn?);
      }
    }

    /** Offer the head of the outbox to the runner; `more` says it was taken and the next may follow. */
    method HandOver() returns (more: bool)
      requires Valid() && !stopping && line.outbox != [] && crew.runner.Some?
                && crew.runner.value.name in Usable(providers, benched)
      requires Permitted(Hand(line.outbox[0].id, recovery))
      modifies `disk, `journal, `terminal, `stopping, `crew, `line, `tally, `habits, `handed, `turn, `inTurn,
          `turnRecorded, `turnFailed, `recovery, `historyStart, `relaunching, `providers, `benched
      ensures Valid() && stopping == terminal && old(journal) <= journal && old(handed) <= handed
      ensures Kept(old(tally), tally, autoremove, terminal)
      ensures Among(providers, old(providers))
      ensures more ==>
                && !terminal && line.outbox == old(line.outbox[1..])
                && handed == old(handed) + [Hand(old(line.outbox[0].id), recovery)]
                && crew.runner == Some(old(crew.runner.value).(seed := Absorbed))
                && recovery == old(recovery) && providers == old(providers) && benched == old(benched)
                && old(crew.epoch.Some?)
                && exists how :: habits == Manners.AfterTaking(old(habits), old(crew.epoch.value),
                                                               Manners.WayOf(how, old(inTurn)))
      ensures old(handed) + [Hand(old(line.outbox[0].id), old(recovery))] <= handed
      decreases Rank(recovery), |Usable(providers, benched)|, 3
    {
      hide Apply, Allowed, Stored, Unbroken, Episodes.AtFront, Manners.Sane, AllPermitted, Queued, Crewed, OpenedIds,
          LogTurn, Fill, Plain, Conducting.Failed, Usable, Remembered, AfterDelivered, Rank;
      var hand := Hand(line.outbox[0].id, recovery);
      OneMorePermitted(handed, hand);
      handed := handed + [hand];
      var answer: Answer := *;
      match answer {
        case Refused(why) =>
          Refused(why);
          more := false;
        case Took(how) =>
          more := Take(how);
      }
    }

    /** The runner would not take the message. It stays queued. */
    method Refused(why: Failure)
      requires Valid() && !stopping && crew.runner.Some? && crew.runner.value.name in Usable(providers, benched)
      modifies `disk, `journal, `terminal, `stopping, `crew, `line, `tally, `habits, `handed, `turn, `inTurn,
          `turnRecorded, `turnFailed, `recovery, `historyStart, `relaunching, `providers, `benched
      ensures Valid() && stopping == terminal && old(journal) <= journal && old(handed) <= handed
      ensures Kept(old(tally), tally, autoremove, terminal)
      ensures Among(providers, old(providers))
      ensures !terminal && why.ContextLimit? && old(recovery.Some?) ==>
                TurnsTo(journal, |old(journal)|,
                        old(Follows(recovery.value, Some(ContextLimit), false, line.outbox != [])))
      ensures !terminal && why.ContextLimit? && old(recovery.None? && !inTurn) ==>
                TurnsTo(journal, |old(journal)|, Some(Compacting))
      ensures !terminal && why.ContextLimit? && old(recovery.None? && inTurn) ==>
                turnFailed == Some(ContextLimit) && recovery.None? && line == old(line)
      ensures !terminal && !why.ContextLimit? && old(recovery.Some?) ==> TurnsTo(journal, |old(journal)|, None)
      ensures !terminal && !why.ContextLimit? && old(recovery.None? && autoremove && line.unanswered != []) ==>
                Retry(old(Flat(line.unanswered))) in journal[|old(journal)|..]
      ensures !terminal && why.Auth? && old(recovery.None? && autoremove) ==> old(crew.runner.value.name) !in providers
      decreases Rank(recovery), |Usable(providers, benched)|, 2
    {
      hide Apply, Allowed, Stored, Unbroken, Episodes.AtFront, Manners.Sane, AllPermitted, Queued, Crewed, OpenedIds,
          LogTurn, Fill, Flat, Conducting.Failed, Usable, Follows, TurnsTo, StaysPut;
      var name := crew.runner.value.name;
      ghost var before := journal;
      if why.ContextLimit? || recovery.None? {
        var ok := Report(why, name, "the message was not taken");
        if !ok {
          return;
        }
        before := journal;
      }
      if why.ContextLimit? {
        if recovery.Some? {
          turnFailed := Some(ContextLimit);
          RecoveryEnded(Plain(End, "", ""));
          SinceThen(old(journal), before, journal);
        } else if inTurn {
          turnFailed := Some(ContextLimit); // for the END of the turn that is on to act upon
        } else {
          RecoverContext(false);
          SinceThen(old(journal), before, journal);
        }
      } else if recovery.Some? {
        RecoveryFailed("the message was not taken");
      } else if why.Auth? {
        var _ := Unauthenticated(name);
        WrittenSince(old(journal), before, Retry(old(Flat(line.unanswered))), journal);
      } else {
        var _ := Failed(name);
        WrittenSince(old(journal), before, Retry(old(Flat(line.unanswered))), journal);
      }
    }

    /** How many providers are left to fall back on, counting the one to blame in any case. */
    ghost function Fallbacks(name: string): nat
      reads `providers, `benched
    {
      |Usable(providers, benched)| + (if name in Usable(providers, benched) then 0 else 1)
    }

    /** The turn is closed; with failover on it is retried by whoever comes up once this provider is benched. */
    method Failed(provider: string) returns (end: Flushed)
      requires Valid() && !stopping && recovery.None?
      modifies `disk, `journal, `terminal, `stopping, `crew, `line, `tally, `habits, `handed, `turn, `inTurn,
          `turnRecorded, `turnFailed, `recovery, `historyStart, `relaunching, `providers, `benched
      ensures Valid() && stopping == terminal && old(journal) <= journal && old(handed) <= handed
      ensures Kept(old(tally), tally, autoremove, terminal)
      ensures Among(providers, old(providers))
      ensures !terminal && autoremove && old(line.unanswered) != [] ==>
                old(journal) + [Retry(old(Flat(line.unanswered)))] <= journal
      ensures !terminal && !autoremove ==>
                && line == Requeued(old(line), Back(old(line), false, |old(disk.issued)|))
                && handed == old(handed) && crew.runner.None?
      ensures
        || terminal || !autoremove
        || Accounts(end, old(Requeued(line, Back(line, true, |disk.issued|)).outbox), line.outbox,
                    handed[|old(handed)|..], None)
      decreases 3, Fallbacks(Blamed(crew, provider)), 1
    {
      hide Apply, Allowed, Stored, Unbroken, Episodes.AtFront, Manners.Sane, AllPermitted, Queued, Crewed, OpenedIds,
          LogTurn, Fill, Plain, Conducting.Failed, Usable, Back, Requeued, AfterClose, Accounts;
      end := Unready;
      var name := Blamed(crew, provider);
      var ok := CloseTurn(name, "failed", autoremove);
      if !ok || !autoremove {
        return;
      }
      end := GiveWay(name);
    }

    /** The session goes on without this provider for now. */
    method GiveWay(name: string) returns (end: Flushed)
      requires Valid() && !stopping && recovery.None? && autoremove
      modifies `disk, `journal, `terminal, `stopping, `crew, `line, `tally, `habits, `handed, `turn, `inTurn,
          `turnRecorded, `turnFailed, `recovery, `historyStart, `relaunching, `providers, `benched
      ensures Valid() && stopping == terminal && old(journal) <= journal && old(handed) <= handed
      ensures Kept(old(tally), tally, autoremove, terminal)
      ensures Among(providers, old(providers))
      ensures terminal || Accounts(end, old(line.outbox), line.outbox, handed[|old(handed)|..], None)
      ensures end.Unready? && !terminal && crew.runner.None?
                && old(line.outbox != [] && name in Usable(providers, benched)) ==>
                Complained(journal, |old(journal)|)
      decreases 3, Fallbacks(name), 0
    {
      hide Apply, Allowed, Stored, Unbroken, Episodes.AtFront, Manners.Sane, AllPermitted, Queued, Crewed, OpenedIds,
          LogTurn, Fill, Plain, Conducting.Failed, Usable, Kept, Among, HandedOver, Permitted;
      UsableMembers(providers, benched);
      KeptAsIs(tally, autoremove);
      AmongItself(providers);
      end := Unready;
      if name in providers {
        var ok := Sideline(name, "failed");
        if !ok {
          return;
        }
      }
      var ok := Attempt("provider failed");
      if ok {
        end := Flush();
      }
    }

    /** As for a failure, but the provider leaves the list and not just the dial. */
    method Unauthenticated(provider: string) returns (end: Flushed)
      requires Valid() && !stopping && recovery.None?
      modifies `disk, `journal, `terminal, `stopping, `crew, `line, `tally, `habits, `handed, `turn, `inTurn,
          `turnRecorded, `turnFailed, `recovery, `historyStart, `relaunching, `providers, `benched
      ensures Valid() && stopping == terminal && old(journal) <= journal && old(handed) <= handed
      ensures Kept(old(tally), tally, autoremove, terminal)
      ensures Among(providers, old(providers))
      ensures !terminal && autoremove ==> old(Blamed(crew, provider)) !in providers
      ensures !terminal && autoremove && old(line.unanswered) != [] ==>
                old(journal) + [Retry(old(Flat(line.unanswered)))] <= journal
      ensures !terminal && !autoremove ==>
                && line == Requeued(old(line), Back(old(line), false, |old(disk.issued)|))
                && handed == old(handed) && crew.runner.None?
      ensures
        || terminal || !autoremove
        || Accounts(end, old(Requeued(line, Back(line, true, |disk.issued|)).outbox), line.outbox,
                    handed[|old(handed)|..], None)
      decreases 3, Fallbacks(Blamed(crew, provider)), 1
    {
      hide Apply, Allowed, Stored, Unbroken, Episodes.AtFront, Manners.Sane, AllPermitted, Queued, Crewed, OpenedIds,
          LogTurn, Fill, Plain, Conducting.Failed, Usable, Except, Back, Requeued, AfterClose, Accounts;
      end := Unready;
      var name := Blamed(crew, provider);
      var ok := CloseTurn(name, "unauthenticated", autoremove);
      if ok && autoremove {
        end := MoveOff(name);
      }
    }

    /** The session goes on without this provider, for good if it was on the list. */
    method MoveOff(name: string) returns (end: Flushed)
      requires Valid() && !stopping && recovery.None? && autoremove
      modifies `disk, `journal, `terminal, `stopping, `crew, `line, `tally, `habits, `handed, `turn, `inTurn,
          `turnRecorded, `turnFailed, `recovery, `historyStart, `relaunching, `providers, `benched
      ensures Valid() && stopping == terminal && old(journal) <= journal && old(handed) <= handed
      ensures Kept(old(tally), tally, autoremove, terminal)
      ensures Among(providers, old(providers))
      ensures !terminal ==> name !in providers
      ensures terminal || Accounts(end, old(line.outbox), line.outbox, handed[|old(handed)|..], None)
      decreases 3, Fallbacks(name), 0
    {
      hide Apply, Allowed, Stored, Unbroken, Episodes.AtFront, Manners.Sane, AllPermitted, Queued, Crewed, OpenedIds,
          LogTurn, Fill, Plain, Conducting.Failed, Usable, Except, Kept, HandedOver, Permitted;
      end := Unready;
      UsableMembers(providers, benched);
      KeptAsIs(tally, autoremove);
      if name in providers {
        var ok := Remove(name);
        if !ok {
          return;
        }
      }
      var ok := Attempt("provider lost its login");
      if ok {
        end := Flush();
      }
    }

    method Remove(name: string) returns (ok: bool)
      requires Valid() && !stopping
      modifies `disk, `journal, `terminal, `stopping, `crew, `providers, `benched
      ensures Valid() && stopping == terminal && old(journal) <= journal
      ensures !terminal ==> providers == Except(old(providers), name) && name !in providers
      ensures !terminal ==> old(journal) + [SetActive(Except(old(providers), name))] <= journal
      ensures Among(providers, old(providers)) && (ok ==> !terminal)
      ensures ok ==> Usable(providers, benched) == Except(Usable(old(providers), old(benched)), name)
      ensures ok ==> |Usable(providers, benched)| <= |Usable(old(providers), old(benched))|
      ensures ok && name in Usable(old(providers), old(benched)) ==>
                |Usable(providers, benched)| < |Usable(old(providers), old(benched))|
    {
      hide Apply, Allowed, Stored, Unbroken, Episodes.AtFront, Manners.Sane, AllPermitted, Queued, Crewed, OpenedIds,
          LogTurn, Fill, Plain, Conducting.Failed, Usable, Except;
      ExceptMembers(providers, name);
      BenchShrinks(providers, benched, name);
      RemoveShrinks(providers, benched, name);
      ok := SetProviders(Except(providers, name));
      if !ok {
        return;
      }
      benched := benched - {name};
      ok := MovedOn(name, "unauthenticated");
      if ok {
        ok := AnyoneLeft();
      }
    }

    /** The providers the session is to use, durably. */
    method SetProviders(names: seq<string>) returns (ok: bool)
      requires Valid() && !stopping
      modifies `disk, `journal, `terminal, `stopping, `providers
      ensures Valid() && ok == !terminal && stopping == terminal && old(journal) <= journal
      ensures ok ==>
                && providers == names && journal == old(journal) + [SetActive(names)]
                && disk == old(disk).(meta := old(disk.meta).(active := Some(names)))
      ensures !ok ==> providers == old(providers) && disk == old(disk)
    {
      hide Apply, Allowed, Stored, Unbroken, Episodes.AtFront, Manners.Mannered, AllPermitted, Queued, Crewed,
          OpenedIds, LogTurn, Fill, Plain, Conducting.Failed, Usable;
      ProvidersWritten(disk, line, tally, crew, turn, names);
      ok := Save(SetActive(names));
      if ok {
        providers := names;
      }
    }

    /** Recovery begins with its Compacting record, and goes on to a handoff where nobody compacts. */
    method RecoverContext(delivered: bool)
      requires Valid() && !stopping && recovery.None?
      modifies `disk, `journal, `terminal, `stopping, `crew, `line, `tally, `habits, `handed, `turn, `inTurn,
          `turnRecorded, `turnFailed, `recovery, `historyStart, `relaunching, `providers, `benched
      ensures Valid() && stopping == terminal && old(journal) <= journal && old(handed) <= handed
      ensures Kept(old(tally), tally, autoremove, terminal)
      ensures Among(providers, old(providers))
      ensures !terminal ==> TurnsTo(journal, |old(journal)|, Some(Compacting))
      decreases 3, |Usable(providers, benched)|, 0
    {
      hide Apply, Allowed, Stored, Unbroken, Episodes.AtFront, Manners.Sane, AllPermitted, Queued, Crewed, OpenedIds,
          LogTurn, Fill, Plain, Conducting.Failed, Usable, TurnsTo;
      Known();
      var ok := BeginRecovery(delivered);
      if !ok {
        return;
      }
      ghost var before := journal;
      var compacting: bool := *;
      if crew.runner.Some? && compacting {
        AwaitCompaction();
      } else {
        StartHandoff();
      }
      StillTurned(before, |old(journal)|, Some(Compacting), journal);
    }

    /** The provider is compacting, and will say when it is done. */
    method AwaitCompaction()
      requires Valid() && !stopping && disk.rewritten
      modifies `disk, `journal, `terminal, `stopping, `inTurn
      ensures Valid() && stopping == terminal && old(journal) <= journal
    {
      hide Apply, Allowed, Stored, Unbroken, Episodes.AtFront, Manners.Mannered, AllPermitted, Queued, Crewed,
          OpenedIds, LogTurn, Plain, Fill;
      Manners.Relaxed(disk.rewritten, habits, line, inTurn, crew.epoch, tally, stopping);
      inTurn := true;
      var _ := Announce(Config, "", "context_compaction");
    }

    /**
     A turn that overflowed leaves its questions to be asked again; one that was refused
     leaves its message in line.
     */
    method BeginRecovery(delivered: bool) returns (ok: bool)
      requires Valid() && !stopping && recovery.None?
      modifies `disk, `journal, `terminal, `stopping, `line, `tally, `habits, `turnFailed, `recovery, `historyStart,
          `relaunching
      ensures Valid() && ok == !terminal && stopping == terminal && old(journal) <= journal
      ensures Kept(old(tally), tally, autoremove, terminal)
      ensures ok ==>
                && recovery == Some(Recovery(Compacting, None, Questions(old(disk), turn, delivered)))
                && turnFailed.None?
      ensures ok ==> TurnsTo(journal, |old(journal)|, Some(Compacting)) && disk.rewritten
    {
      hide Apply, Allowed, Stored, Unbroken, Episodes.AtFront, Manners.Sane, AllPermitted, Queued, Crewed, OpenedIds,
          LogTurn, Fill, Plain, Conducting.Failed, Usable, StageStep, RecoverFits, Superseded, Recovering,
          AfterRecovering, Minted, Questions, TurnsTo, StaysPut, Kept, AtHead;
      Known();
      CompactingFits(disk, crew, turn, delivered);
      ok := SaveRecovery(Some(Recovery(Compacting, None, Questions(disk, turn, delivered))), None, None);
      if ok {
        OneQuiet(old(journal), SetSetting);
        Turned(old(journal), old(journal), journal, journal[|old(journal)|]);
        turnFailed := None;
      }
    }

    /** Retries written by recovery are retired with the handoff: their questions are in its transcript. */
    method StartHandoff()
      requires Valid() && !stopping && recovery.Some?
      requires recovery.value.stage.Compacting? || recovery.value.stage.Retrying? || relaunching
      modifies `disk, `journal, `terminal, `stopping, `crew, `line, `tally, `habits, `handed, `turn, `inTurn,
          `turnRecorded, `turnFailed, `recovery, `historyStart, `relaunching, `providers, `benched
      ensures Valid() && stopping == terminal && old(journal) <= journal && old(handed) <= handed
      ensures Kept(old(tally), tally, autoremove, terminal)
      ensures Among(providers, old(providers))
      ensures !terminal ==> TurnsTo(journal, |old(journal)|, Some(Handoff))
      ensures !terminal ==> HandsOver(journal, |old(journal)|, old(CarriedTexts(disk.log, historyStart)))
      decreases 1, |Usable(providers, benched)|, 8
    {
      hide Apply, Allowed, Stored, Unbroken, Episodes.AtFront, Manners.Sane, AllPermitted, Queued, Crewed, OpenedIds,
          LogTurn, Fill, Plain, Conducting.Failed, Usable, CarriedTexts, Joined, TurnsTo, HandsOver, ContainsAll;
      Known();
      var carried := CarriedTexts(disk.log, historyStart);
      Transcripts.HandoffContains(carried, limitMessage);
      RecoveryMessage(Handoff, Transcripts.HandoffText(carried, limitMessage));
      if !terminal { HandoffCarries(old(journal), old(disk), journal, disk); }
    }

    /** Recovery's next message; a handoff or a continuation gets a fresh session to say it in. */
    method RecoveryMessage(stage: Stage, text: string)
      requires Valid() && !stopping && recovery.Some?
      requires StageStep(recovery, Some(Recovery(stage, None, "")), relaunching)
      requires Rotates(stage) || (stage.Retrying? && text == recovery.value.retry != "")
      requires stage.Handoff? ==> ContainsAll(text, CarriedTexts(disk.log, historyStart))
      modifies `disk, `journal, `terminal, `stopping, `crew, `line, `tally, `habits, `handed, `turn, `inTurn,
          `turnRecorded, `turnFailed, `recovery, `historyStart, `relaunching, `providers, `benched
      ensures Valid() && stopping == terminal && old(journal) <= journal && old(handed) <= handed
      ensures Kept(old(tally), tally, autoremove, terminal)
      ensures Among(providers, old(providers))
      ensures !terminal ==> TurnsTo(journal, |old(journal)|, Some(stage))
      decreases if stage.Retrying? then 2 else 1, |Usable(providers, benched)|, 7
    {
      hide Apply, Allowed, Stored, Unbroken, Episodes.AtFront, Manners.Sane, AllPermitted, Queued, Crewed, OpenedIds,
          LogTurn, Fill, Plain, Conducting.Failed, Usable, StageStep, RecoverFits, Superseded, Recovering,
          AfterRecovering, Minted, WithMessage, Back, Requeued, AfterClose, TurnsTo, CarriedTexts, ContainsAll;
      var ok := WriteMessage(stage, text);
      if ok {
        ghost var before := journal;
        var _ := DispatchQueued();
        StillTurned(before, |old(journal)|, Some(stage), journal);
      }
    }

    /** Recovery moves to `stage`, and its message is next in line. */
    method WriteMessage(stage: Stage, text: string) returns (ok: bool)
      requires Valid() && !stopping && recovery.Some?
      requires StageStep(recovery, Some(Recovery(stage, None, "")), relaunching)
      requires Rotates(stage) || (stage.Retrying? && text == recovery.value.retry != "")
      requires stage.Handoff? ==> ContainsAll(text, CarriedTexts(disk.log, historyStart))
      modifies `disk, `journal, `terminal, `stopping, `crew, `line, `tally, `habits, `turnFailed, `inTurn,
          `turnRecorded,
          `recovery, `historyStart, `relaunching
      ensures Valid() && ok == !terminal && stopping == terminal && old(journal) <= journal
      ensures Kept(old(tally), tally, autoremove, terminal)
      ensures ok ==>
                && recovery.Some? && recovery.value.stage == stage && recovery.value.messageId.Some?
                && AtHead(line, recovery.value.messageId.value, text) && turnFailed.None?
      ensures ok && Rotates(stage) ==> crew.runner.None? && crew.parked == map[]
      ensures ok ==> TurnsTo(journal, |old(journal)|, Some(stage))
    {
      hide Apply, Allowed, Stored, Unbroken, Episodes.AtFront, Manners.Sane, AllPermitted, Queued, Crewed, OpenedIds,
          LogTurn, Fill, Plain, Conducting.Failed, StageStep, StaysPut, TurnsTo, AtHead, CarriedTexts, ContainsAll,
          Kept, Loose;
      OneQuiet(journal, SetSetting);
      KeptAsIs(tally, autoremove);
      if Rotates(stage) {
        ok := PutDown();
        if !ok {
          KeptLost(old(tally), tally, autoremove);
          return;
        }
      }
      ghost var before, put := journal, tally;
      ok := PlaceMessage(stage, text);
      if Rotates(stage) { KeptAgain(old(tally), put, tally, autoremove, terminal); }
      if ok {
        Turned(old(journal), before, journal, journal[|before|]);
      }
    }

    /** The stage and its message go to disk in one write, and the message to the head of the outbox. */
    method PlaceMessage(stage: Stage, text: string) returns (ok: bool)
      requires Valid() && !stopping && recovery.Some?
      requires StageStep(recovery, Some(Recovery(stage, None, "")), relaunching)
      requires Rotates(stage) || (stage.Retrying? && text == recovery.value.retry != "")
      requires stage.Handoff? ==> ContainsAll(text, CarriedTexts(disk.log, historyStart))
      requires Rotates(stage) ==> crew.runner.None? && crew.parked == map[]
      modifies `disk, `journal, `terminal, `stopping, `line, `tally, `habits, `turnFailed, `recovery, `historyStart,
          `relaunching
      ensures Valid() && ok == !terminal && stopping == terminal && old(journal) <= journal
      ensures Kept(old(tally), tally, autoremove, terminal) && (ok ==> tally.steady)
      ensures ok ==>
                && recovery.Some? && recovery.value.stage == stage && recovery.value.messageId.Some?
                && AtHead(line, recovery.value.messageId.value, text) && turnFailed.None?
      ensures ok ==>
                && |journal| == |old(journal)| + 1 && journal[|old(journal)|].Recover?
                && StageOf(journal[|old(journal)|].next) == Some(stage)
    {
      hide Apply, Allowed, Stored, Unbroken, Episodes.AtFront, Manners.Sane, AllPermitted, Queued, Crewed, OpenedIds,
          LogTurn, Fill, Plain, Conducting.Failed, StageStep, RecoverFits, Superseded, Recovering, AfterRecovering,
          Minted, AtHead, CarriedTexts, ContainsAll;
      Known();
      MessageFits(disk, stage, text);
      ok := SaveRecovery(WithMessage(disk, stage, text), if Rotates(stage) then Some(|disk.log|) else None, Some(text));
      if ok {
        turnFailed := None;
      }
    }

    /** The session that ran out of room, and every parked one, is let go. */
    method PutDown() returns (ok: bool)
      requires Valid() && !stopping
      modifies `disk, `journal, `terminal, `stopping, `crew, `line, `tally, `turnFailed, `inTurn, `turnRecorded
      ensures Valid() && ok == !terminal && stopping == terminal && old(journal) <= journal
      ensures ok ==> crew.runner.None? && crew.epoch.None? && crew.parked == map[] && !inTurn
      ensures ok ==> line == Line(old(line.awaiting + line.outbox), [], [], 0)
      ensures ok ==> CarriedTexts(disk.log, historyStart) == old(CarriedTexts(disk.log, historyStart))
      ensures recovery.Some? ==> Kept(Loose(old(tally)), tally, autoremove, terminal)
      ensures StaysPut(journal, |old(journal)|, |journal|)
    {
      hide Apply, Allowed, Stored, Unbroken, Episodes.AtFront, Manners.Mannered, AllPermitted, Queued, Crewed,
          OpenedIds, LogTurn, Conducting.Failed, AfterClose, StaysPut, CarriedTexts, Kept;
      var provider := Blamed(crew, "");
      ok := CloseTurn(provider, "context_limit", false);
      if !ok {
        return;
      }
      Transcripts.NothingMoreCarried(old(disk.log), Fill(Plain(End, provider, "context_limit"), crew, turn),
                                     historyStart);
      assert old(disk.log) + [] == old(disk.log)
          && [] + (old(line.awaiting) + old(line.outbox)) == old(line.awaiting + line.outbox);
      CrewScattered(disk, crew, turn);
      crew := crew.(parked := map[]);
    }

    /** The end of a turn that recovery was waiting for, and how it failed if it did. */
    method EndRecoveryTurn() returns (failure: Option<Failure>)
      requires Valid() && !stopping && recovery.Some?
      modifies `line, `inTurn, `turnRecorded, `turnFailed
      ensures Valid() && failure == old(turnFailed) && turnFailed.None? && !inTurn && !turnRecorded
      ensures line == old(line).(unanswered := [])
    {
      hide Apply, Allowed, Stored, Unbroken, Episodes.AtFront, Manners.Mannered, AllPermitted, Queued, Crewed,
          OpenedIds, LogTurn, Fill, Plain, Conducting.Failed, InOrder;
      QueueDropped(disk.meta.pending, disk.synth, disk.log, disk.meta.recovery, disk.rewritten, line, tally);
      RecoveryRewrites(disk, line, tally);
      Manners.Relaxed(disk.rewritten, habits, line, inTurn, crew.epoch, tally, stopping);
      line := line.(unanswered := []);
      inTurn, turnRecorded := false, false;
      failure := turnFailed;
      turnFailed := None;
    }

    /** Where recovery goes from the end of each of its turns. */
    method RecoveryEnded(end: Event)
      requires Valid() && !stopping && recovery.Some?
      modifies `disk, `journal, `terminal, `stopping, `crew, `line, `tally, `habits, `handed, `turn, `inTurn,
          `turnRecorded, `turnFailed, `recovery, `historyStart, `relaunching, `providers, `benched
      ensures Valid() && stopping == terminal && old(journal) <= journal && old(handed) <= handed
      ensures Kept(old(tally), tally, autoremove, terminal)
      ensures Among(providers, old(providers))
      ensures !terminal ==> TurnsTo(journal, |old(journal)|,
                                    old(Follows(recovery.value, turnFailed, Broken(end), line.outbox != [])))
      decreases if turnFailed.Some? then Rank(recovery) else 5, |Usable(providers, benched)|, 0
    {
      hide Apply, Allowed, Stored, Unbroken, Episodes.AtFront, Manners.Sane, AllPermitted, Queued, Crewed, OpenedIds,
          LogTurn, Fill, Plain, Conducting.Failed, Usable, StageStep, RecoverFits, TurnsTo;
      Known();
      var failure := EndRecoveryTurn();
      var failed := failure.Some? || Broken(end);
      var was := recovery.value;
      if was.stage.Compacting? {
        if failed {
          StartHandoff();
        } else {
          Compacted();
        }
      } else if was.stage.Retrying? && failure == Some(ContextLimit) {
        StartHandoff();
      } else if failed {
        RecoveryFailed("recovery turn did not complete");
      } else if was.stage.Handoff? {
        ContinuationFollows(disk);
        RecoveryMessage(Continuing, newSessionMessage);
      } else if (was.stage.Continuing? || was.stage.Resuming?) && line.outbox != [] {
        // What is queued goes into this session; a failure there ends recovery.
        ResumeNext();
      } else {
        RecoveryDone();
      }
    }

    /** Recovery goes on with the message that is next in line. */
    method NameHead(stage: Stage) returns (ok: bool)
      requires Valid() && !stopping && recovery.Some? && line.outbox != [] && (stage.Retrying? || stage.Resuming?)
      requires StageStep(recovery, Some(Recovery(stage, None, "")), relaunching)
      modifies `disk, `journal, `terminal, `stopping, `line, `tally, `habits, `recovery, `historyStart, `relaunching
      ensures Valid() && ok == !terminal && stopping == terminal && old(journal) <= journal
      ensures Kept(old(tally), tally, autoremove, terminal)
      ensures ok ==>
                && recovery == Heading(stage, old(line))
                && journal == old(journal) + [Recover(recovery, None, None, None)]
      ensures ok ==> TurnsTo(journal, |old(journal)|, Some(stage))
      ensures ok && Episodes.Straight(old(disk), old(line.awaiting + line.outbox)) ==>
                (Episodes.AtFront(disk) <==> old(line.awaiting) == [])
    {
      hide Apply, Allowed, Stored, Unbroken, Episodes.AtFront, Manners.Sane, AllPermitted, Queued, Crewed, OpenedIds,
          LogTurn, Fill, Plain, Conducting.Failed, StageStep, RecoverFits, Recovering, AfterRecovering, Minted, TurnsTo,
          StaysPut, Episodes.NamesBehind, Episodes.Straight;
      Known();
      HeadFits(disk, line, tally, stage);
      HeadInFrontIff(journal, disk, line, tally, stage);
      ok := SaveRecovery(Heading(stage, line), None, None);
      if ok {
        OneQuiet(old(journal), SetSetting);
        Turned(old(journal), old(journal), journal, journal[|old(journal)|]);
      }
    }

    /**
     The provider compacted its own context: ask again what overflowed it, or go on
     with the next in line. Going on is safe against a crash exactly if no echo is
     awaited, as long as recovery has no message of its own in line.
     */
    method Compacted()
      requires Valid() && !stopping && !turnRecorded && recovery.Some? && recovery.value.stage.Compacting?
      modifies `disk, `journal, `terminal, `stopping, `crew, `line, `tally, `habits, `handed, `turn, `inTurn,
          `turnRecorded, `turnFailed, `recovery, `historyStart, `relaunching, `providers, `benched
      ensures Valid() && stopping == terminal && old(journal) <= journal && old(handed) <= handed
      ensures Kept(old(tally), tally, autoremove, terminal)
      ensures Among(providers, old(providers))
      ensures !terminal ==> TurnsTo(journal, |old(journal)|,
                                    if old(recovery.value.retry != "" || line.outbox != []) then Some(Retrying)
                                    else None)
      ensures !terminal && old(recovery.value.retry == "" && line.outbox != [])
                && Episodes.Straight(old(disk), old(line.awaiting + line.outbox)) ==>
                FrontAfterIff(journal, |old(journal)|, old(line.awaiting) == [])
      decreases 4, |Usable(providers, benched)|, 1
    {
      hide Apply, Allowed, Stored, Unbroken, Episodes.AtFront, Manners.Sane, AllPermitted, Queued, Crewed, OpenedIds,
          LogTurn, Fill, Plain, Conducting.Failed, Usable, StageStep, RecoverFits, Superseded, Recovering,
          AfterRecovering, Minted, TurnsTo, StaysPut, FrontAfterIff, Episodes.Straight, Accounts, HandedOver;
      Known();
      RetryFollows(disk);
      if recovery.value.retry != "" {
        RecoveryMessage(Retrying, recovery.value.retry);
      } else if line.outbox != [] {
        var ok := NameHead(Retrying);
        if ok {
          ghost var before, named := journal, disk;
          var _ := DispatchQueued();
          StillTurned(before, |old(journal)|, Some(Retrying), journal);
          FrontAfter(before, named, journal, |old(journal)|);
        }
      } else {
        OneQuiet(journal, SetSetting);
        EndFits(disk);
        var ok := SaveRecovery(None, None, None);
        if ok {
          ghost var before := journal;
          Turned(old(journal), old(journal), journal, journal[|old(journal)|]);
          var _ := FinishTurn();
          StillTurned(before, |old(journal)|, None, journal);
        }
      }
    }

    /**
     One further queued message is let through: a new one exactly if the last one
     named has left the outbox.
     */
    method ResumeNext()
      requires Valid() && !stopping && recovery.Some?
                && (recovery.value.stage.Continuing? || recovery.value.stage.Resuming?)
      requires line.outbox != []
      modifies `disk, `journal, `terminal, `stopping, `crew, `line, `tally, `habits, `handed, `turn, `inTurn,
          `turnRecorded, `turnFailed, `recovery, `historyStart, `relaunching, `providers, `benched
      ensures Valid() && stopping == terminal && old(journal) <= journal && old(handed) <= handed
      ensures Kept(old(tally), tally, autoremove, terminal)
      ensures Among(providers, old(providers))
      ensures !terminal ==> TurnsTo(journal, |old(journal)|, Some(Resuming))
      ensures !terminal ==> old(journal) + [Recover(Heading(Resuming, old(line)), None, None, None)] <= journal
      ensures old(tally.steady) ==>
                (old(recovery.value.messageId) != Some(old(line.outbox[0].id)) <==>
                 forall m :: m in old(line.outbox) ==> old(recovery.value.messageId) != Some(m.id))
      ensures !terminal && Episodes.Straight(old(disk), old(line.awaiting + line.outbox)) ==>
                FrontAfterIff(journal, |old(journal)|, old(line.awaiting) == [])
      decreases 4, |Usable(providers, benched)|, 0
    {
      hide Apply, Allowed, Stored, Unbroken, Episodes.AtFront, Manners.Sane, AllPermitted, Queued, Crewed, OpenedIds,
          LogTurn, Fill, Plain, Conducting.Failed, Usable, StageStep, RecoverFits, Superseded, Recovering,
          AfterRecovering, Minted, TurnsTo, StaysPut, FrontAfterIff, Episodes.Straight;
      Known();
      ResumingFollows(disk);
      NamesAnewIff(disk, line, tally);
      var ok := NameHead(Resuming);
      if ok {
        ghost var before, named := journal, disk;
        var _ := DispatchQueued();
        StillTurned(before, |old(journal)|, Some(Resuming), journal);
        FrontAfter(before, named, journal, |old(journal)|);
      }
    }

    /** Recovery is over; the session goes on as before. */
    method RecoveryDone()
      requires Valid() && !stopping && !turnRecorded && recovery.Some?
      modifies `disk, `journal, `terminal, `stopping, `crew, `line, `tally, `habits, `handed, `turn, `inTurn,
          `turnRecorded, `turnFailed, `recovery, `historyStart, `relaunching, `providers, `benched
      ensures Valid() && stopping == terminal && old(journal) <= journal && old(handed) <= handed
      ensures Kept(old(tally), tally, autoremove, terminal)
      ensures Among(providers, old(providers))
      ensures !terminal ==> TurnsTo(journal, |old(journal)|, None)
      decreases 4, |Usable(providers, benched)|, 1
    {
      hide Apply, Allowed, Stored, Unbroken, Episodes.AtFront, Manners.Sane, AllPermitted, Queued, Crewed, OpenedIds,
          LogTurn, Fill, Plain, Conducting.Failed, Usable, StageStep, RecoverFits, Superseded, Recovering,
          AfterRecovering, Minted, TurnsTo, StaysPut, Accounts, HandedOver;
      Known();
      EndFits(disk);
      var ok := SaveRecovery(None, None, None);
      if !ok {
        return;
      }
      ghost var before := journal;
      Turned(old(journal), old(journal), journal, journal[|old(journal)|]) by { OneQuiet(old(journal), SetSetting); }
      var alive: bool := *;
      if crew.runner.None? || !alive {
        ok := Attempt("resuming recovered session");
      }
      if ok {
        var _ := FinishTurn();
      }
      StillTurned(before, |old(journal)|, None, journal);
    }

    // ------------------------------------------------------- provider output

    /**
     Whatever a runner reports. Output of a runner that has been replaced reaches
     the log and lowers the ceiling, and changes nothing else; and once the session
     is stopping nothing it says can start new work.
     */
    method Absorb(h: Heard)
      requires Valid() && !terminal && WellFormed(h)
      modifies `disk, `journal, `terminal, `stopping, `crew, `line, `tally, `habits, `handed, `turn, `inTurn,
          `turnRecorded, `turnFailed, `recovery, `historyStart, `relaunching, `providers, `benched
      ensures Valid() && stopping == (old(stopping) || terminal) && old(journal) <= journal && old(handed) <= handed
      ensures Kept(old(tally), tally, autoremove, terminal)
      ensures old(Straggles(crew, h.provider, h.epoch, h.otherServer)) ==>
                && line == old(line) && tally == old(tally) && recovery == old(recovery)
                && historyStart == old(historyStart)
                && turn == old(turn) && inTurn == old(inTurn) && turnRecorded == old(turnRecorded)
                && turnFailed == old(turnFailed)
                && providers == old(providers) && benched == old(benched) && handed == old(handed)
                && habits == old(habits)
                && (!terminal ==> crew == old(crew).(ceiling := crew.ceiling))
      ensures !terminal ==> old(disk.log) <= disk.log && (h.Reported? ==> Heeded(disk.log, |old(disk.log)|, h.event))
      ensures old(stopping) ==>
                && handed == old(handed) && recovery == old(recovery) && benched == old(benched)
                && (!terminal ==>
                    && crew.runner == old(crew.runner) && crew.parked == old(crew.parked)
                    && crew.epoch == old(crew.epoch))
    {
      hide Apply, Allowed, Stored, Unbroken, Episodes.AtFront, Manners.Sane, AllPermitted, Queued, Crewed, OpenedIds,
          LogTurn, Fill, Plain, Conducting.Failed, Dated, Holed, Echo, AfterEcho, Unnumbered, Heeded,
          Manners.AfterConfirming;
      var late := Straggles(crew, h.provider, h.epoch, h.otherServer);
      match h {
        case Confirmed(text, opening, provider, _, _) =>
          if !late {
            var _ := Confirm(text, opening, provider);
          }
        case Reported(event, _, epoch, _) =>
          if late {
            HoledKeeps(crew, |disk.log|);
            var ok := Overhear(event, epoch);
            if ok { HeededHere(disk.log, |old(disk.log)|, event); }
          } else {
            React(h);
            SameEnd(event, old(crew), epoch, old(turn));
            if !terminal {
              HeededFirst(old(journal), old(disk), journal, disk, event, old(Filled(Dated(event, crew, epoch))));
            }
          }
      }
      LogKept(old(journal), old(disk), journal, disk);
    }

    /** The runner in charge reported an event: log it, then react. */
    method React(h: Heard)
      requires Valid() && !terminal && WellFormed(h) && h.Reported?
                && !Straggles(crew, h.provider, h.epoch, h.otherServer)
      modifies `disk, `journal, `terminal, `stopping, `crew, `line, `tally, `habits, `handed, `turn, `inTurn,
          `turnRecorded, `turnFailed, `recovery, `historyStart, `relaunching, `providers, `benched
      ensures Valid() && stopping == (old(stopping) || terminal) && old(journal) <= journal && old(handed) <= handed
      ensures Kept(old(tally), tally, autoremove, terminal)
      ensures old(stopping) ==>
                && handed == old(handed) && recovery == old(recovery) && benched == old(benched) && crew == old(crew)
      ensures !terminal && !old(stopping) && h.event.kind.End? && old(recovery.Some?) ==>
                TurnsTo(journal, |old(journal)|,
                        old(Follows(recovery.value, turnFailed, Broken(h.event), line.outbox != [])))
      ensures !terminal && !old(stopping) && h.event.kind.End?
                && old(recovery.None? && turnFailed == Some(ContextLimit)) ==>
                TurnsTo(journal, |old(journal)|, Some(Compacting))
      ensures !terminal && !old(stopping) && h.event.kind.End? && old(recovery.None? && turnFailed.None?) ==>
                old(AfterAnswered(tally, line)).closed <= tally.closed
      ensures !terminal && !old(stopping) && FromModel(h.event) ==>
                turnFailed.None? && line == old(line) && crew == old(crew) && recovery == old(recovery)
      ensures !terminal ==> old(journal) + [Append(old(Filled(Dated(h.event, crew, h.epoch))))] <= journal
    {
      hide Apply, Allowed, Stored, Unbroken, Episodes.AtFront, Manners.Sane, AllPermitted, Queued, Crewed, OpenedIds,
          LogTurn, Fill, Plain, Conducting.Failed, Dated, Unnumbered, Opens, IsHistory, FromModel, AfterAnswered,
          Follows, TurnsTo, StaysPut, Kept, Among, Broken;
      Known();
      OwnOutput(disk, crew, turn, h);
      SameEnd(h.event, crew, h.epoch, turn);
      KeptAsIs(tally, autoremove);
      var event := Filled(Dated(h.event, crew, h.epoch));
      var ok := Note(Dated(h.event, crew, h.epoch));
      if !ok {
        return;
      }
      if stopping {
        WindDown(event);
        return;
      }
      ghost var before := journal;
      Respond(event);
      OneQuiet(old(journal), Append(event));
      SinceThen(old(journal), before, journal);
    }

    /** While stopping, an END that is heard closes the turn, so that none is made up for it. */
    method WindDown(event: Event)
      requires Valid() && !terminal && stopping
      modifies `line, `inTurn, `turnRecorded
      ensures Valid() && line == (if event.kind.End? then old(line).(nextTurns := 0) else old(line))
      ensures event.kind.End? ==> !inTurn && !turnRecorded
      ensures !event.kind.End? ==> inTurn == old(inTurn) && turnRecorded == old(turnRecorded)
    {
      hide Apply, Allowed, Stored, Unbroken, Episodes.AtFront, Manners.Mannered, AllPermitted, Queued, Crewed,
          OpenedIds, LogTurn, Fill, Plain, Conducting.Failed, InOrder;
      if event.kind.End? {
        TurnsForgotten(disk.meta.pending, disk.synth, disk.log, disk.meta.recovery, disk.rewritten, line, tally, 0);
        Manners.Relaxed(disk.rewritten, habits, line, inTurn, crew.epoch, tally, stopping);
        line := line.(nextTurns := 0);
        inTurn, turnRecorded := false, false;
      }
    }

    /** What an event of the runner in charge sets off. */
    method Respond(event: Event)
      requires Valid() && !stopping
      modifies `disk, `journal, `terminal, `stopping, `crew, `line, `tally, `habits, `handed, `turn, `inTurn,
          `turnRecorded, `turnFailed, `recovery, `historyStart, `relaunching, `providers, `benched
      ensures Valid() && stopping == terminal && old(journal) <= journal && old(handed) <= handed
      ensures Kept(old(tally), tally, autoremove, terminal)
      ensures Among(providers, old(providers))
      ensures !terminal && event.kind.End? && old(recovery.Some?) ==>
                TurnsTo(journal, |old(journal)|,
                        old(Follows(recovery.value, turnFailed, Broken(event), line.outbox != [])))
      ensures !terminal && event.kind.End? && old(recovery.None? && turnFailed == Some(ContextLimit)) ==>
                TurnsTo(journal, |old(journal)|, Some(Compacting))
      ensures !terminal && event.kind.End? && old(recovery.None? && turnFailed.None?) ==>
                old(AfterAnswered(tally, line)).closed <= tally.closed
      ensures FromModel(event) ==>
                turnFailed.None? && line == old(line) && crew == old(crew) && recovery == old(recovery) && !terminal
    {
      hide Apply, Allowed, Stored, Unbroken, Episodes.AtFront, Manners.Sane, AllPermitted, Queued, Crewed, OpenedIds,
          LogTurn, Fill, Plain, Conducting.Failed, AfterAnswered, Follows, TurnsTo, Kept, Among, Broken;
      KeptAsIs(tally, autoremove);
      AmongItself(providers);
      if FromModel(event) {
        turnFailed := None; // there is output, so the turn goes on
      } else if event.kind.End? {
        Ended(event);
      } else if event.kind.Error? && !event.willRetry {
        Erred(event);
      }
    }

    /** A turn has ended: well, on an error the provider could not get past, or for want of room. */
    method Ended(end: Event)
      requires Valid() && !stopping
      modifies `disk, `journal, `terminal, `stopping, `crew, `line, `tally, `habits, `handed, `turn, `inTurn,
          `turnRecorded, `turnFailed, `recovery, `historyStart, `relaunching, `providers, `benched
      ensures Valid() && stopping == terminal && old(journal) <= journal && old(handed) <= handed
      ensures Kept(old(tally), tally, autoremove, terminal)
      ensures Among(providers, old(providers))
      ensures !terminal && old(recovery.Some?) ==>
                TurnsTo(journal, |old(journal)|,
                        old(Follows(recovery.value, turnFailed, Broken(end), line.outbox != [])))
      ensures !terminal && old(recovery.None? && turnFailed == Some(ContextLimit)) ==>
                TurnsTo(journal, |old(journal)|, Some(Compacting))
      ensures !terminal && old(recovery.None?
                               && (turnFailed.None? || (turnFailed != Some(ContextLimit) && !autoremove))) ==>
                old(AfterAnswered(tally, line)).closed <= tally.closed
      ensures !terminal && autoremove && old(recovery.None? && turnFailed.Some? && turnFailed != Some(ContextLimit))
                && old(line.unanswered) != [] ==>
                old(journal) + [Retry(old(Flat(line.unanswered)))] <= journal
    {
      hide Apply, Allowed, Stored, Unbroken, Episodes.AtFront, Manners.Mannered, AllPermitted, Queued, Crewed,
          OpenedIds, LogTurn, Fill, Plain, Conducting.Failed, Usable, TurnsTo, Follows, AfterAnswered, Flat, Accounts,
          Kept;
      // The turn is over; that none is on is for the queues to say, once they have followed.
      turnRecorded := false;
      if recovery.Some? {
        RecoveryEnded(end);
        return;
      }
      var failure := turnFailed;
      turnFailed := None;
      if failure == Some(ContextLimit) {
        RecoverContext(true);
      } else if failure.Some? && autoremove {
        var _ := Failed(end.provider);
      } else {
        var _ := FinishTurn();
      }
    }

    /** A failure the provider will not retry on its own. */
    method Erred(error: Event)
      requires Valid() && !stopping
      modifies `disk, `journal, `terminal, `stopping, `crew, `line, `tally, `habits, `handed, `turn, `inTurn,
          `turnRecorded, `turnFailed, `recovery, `historyStart, `relaunching, `providers, `benched
      ensures Valid() && stopping == terminal && old(journal) <= journal && old(handed) <= handed
      ensures Kept(old(tally), tally, autoremove, terminal)
      ensures Among(providers, old(providers))
      ensures !terminal && old(recovery.Some?) && (error.failure.Crash? || error.failure.Auth?) ==>
                TurnsTo(journal, |old(journal)|, if old(recovery.value.stage.Compacting?) then Some(Handoff) else None)
      ensures !terminal && autoremove && old(recovery.None?) && (error.failure.Crash? || error.failure.Auth?)
                && old(line.unanswered) != [] ==>
                old(journal) + [Retry(old(Flat(line.unanswered)))] <= journal
      ensures !terminal && autoremove && old(recovery.None?) && error.failure.Auth? ==>
                old(Blamed(crew, error.provider)) !in providers
      ensures !error.failure.Crash? && !error.failure.Auth? ==>
                && journal == old(journal) && line == old(line) && crew == old(crew) && recovery == old(recovery)
                && turnFailed == (if error.failure.Other?
                                  || (old(recovery.None? && !inTurn) && !error.failure.ContextLimit?)
                                  then old(turnFailed) else Some(error.failure))
    {
      hide Apply, Allowed, Stored, Unbroken, Episodes.AtFront, Manners.Sane, AllPermitted, Queued, Crewed, OpenedIds,
          LogTurn, Fill, Plain, Conducting.Failed, Usable, TurnsTo, Flat, Accounts, Kept;
      KeptAsIs(tally, autoremove);
      if recovery.Some? {
        if error.failure.Other? {
          return;
        }
        turnFailed := Some(error.failure);
        if error.failure.Crash? || error.failure.Auth? {
          if recovery.value.stage.Compacting? {
            StartHandoff();
          } else {
            RecoveryFailed(error.text);
          }
        }
        return;
      }
      match error.failure {
        case ContextLimit => turnFailed := Some(ContextLimit);
        case Auth => var _ := Unauthenticated(error.provider);
        case Crash => var _ := Failed(error.provider);
        case Limit => turnFailed := if inTurn then Some(Limit) else turnFailed;
        case Unavailable => turnFailed := if inTurn then Some(Unavailable) else turnFailed;
        case Other =>
      }
    }

    // ------------------------------------------------------------ what callers do

    /** Accepted means durable before any provider is spoken to; what becomes of the queue comes after. */
    method Dispatch(text: string) returns (accepted: bool, end: Flushed)
      requires Valid() && !stopping
      modifies `disk, `journal, `terminal, `stopping, `crew, `line, `tally, `habits, `handed, `turn, `inTurn,
          `turnRecorded, `turnFailed, `recovery, `historyStart, `relaunching, `providers, `benched
      ensures Valid() && stopping == terminal && old(journal) <= journal && old(handed) <= handed
      ensures accepted ==>
                && tally.accepted == old(tally.accepted) + [text] && old(tally.lapses) <= tally.lapses
                && old(journal) + [Write.Enqueue(text)] <= journal
      ensures autoremove && GaveUp in tally.lapses ==> GaveUp in old(tally.lapses)
      ensures !accepted ==> terminal && journal == old(journal) && tally == old(tally)
      ensures old(tally.steady) ==> terminal || tally.steady
      ensures
        || terminal
        || Accounts(end, old(Joining(line, Msg(|disk.issued|, text)).outbox), line.outbox, handed[|old(handed)|..],
            old(recovery))
      ensures end.Unready? && !terminal && crew.runner.None? ==> Complained(journal, |old(journal)|)
    {
      hide Apply, Allowed, Stored, Unbroken, Episodes.AtFront, Manners.Sane, AllPermitted, Queued, Crewed, OpenedIds,
          LogTurn, Fill, Plain, Conducting.Failed, Usable, Joining, Accounts;
      accepted := Enqueue(text);
      end := Unready;
      if accepted {
        end := DispatchQueued();
      }
    }

    /** Compaction has taken too long. */
    method Deadline()
      requires Valid() && !stopping && recovery.Some? && recovery.value.stage.Compacting?
      modifies `disk, `journal, `terminal, `stopping, `crew, `line, `tally, `habits, `handed, `turn, `inTurn,
          `turnRecorded, `turnFailed, `recovery, `historyStart, `relaunching, `providers, `benched
      ensures Valid() && stopping == terminal && old(journal) <= journal && old(handed) <= handed
      ensures Kept(old(tally), tally, autoremove, terminal)
      ensures Among(providers, old(providers))
      ensures !terminal ==> TurnsTo(journal, |old(journal)|, Some(Handoff))
    {
      hide Apply, Allowed, Stored, Unbroken, Episodes.AtFront, Manners.Sane, AllPermitted, Queued, Crewed, OpenedIds,
          LogTurn, Fill, Plain, Conducting.Failed, Usable, TurnsTo;
      StartHandoff();
    }

    /** A change is stored first; only then is it in memory, for whatever is brought up next. */
    method Configure(change: Change) returns (ok: bool)
      requires Valid() && !stopping
      modifies `disk, `journal, `terminal, `stopping, `providers, `benched, `config, `autoremove, `limitMessage,
          `newSessionMessage
      ensures Valid() && ok == !terminal && stopping == terminal && old(journal) <= journal
      ensures disk.broken == old(disk.broken)
      ensures ok && change.ToProviders? ==> providers == change.names && benched == {}
      ensures ok && !change.ToProviders? ==> providers == old(providers) && benched == old(benched)
      ensures ok ==> config == match change
                case ToPrompt(prompt) => old(config).(prompt := prompt)
                case ToRunnerSettings(rest) => old(config).(rest := rest)
                case _ => old(config)
      ensures ok ==> autoremove == (if change.ToAutoremove? then change.on else old(autoremove))
      ensures ok && change.ToRecoveryTexts? ==> limitMessage == change.limit && newSessionMessage == change.resumed
    {
      hide Apply, Allowed, Stored, Unbroken, Episodes.AtFront, Manners.Sane, AllPermitted, Queued, Crewed, OpenedIds,
          LogTurn, Fill, Plain, Conducting.Failed, Usable;
      ok := SaveChange(change);
      if !ok {
        return;
      }
      ApplyChange(change);
      ok := Announce(Config, "", "");
    }

    method ApplyChange(change: Change)
      requires Valid()
      modifies `benched, `config, `autoremove, `limitMessage, `newSessionMessage
      ensures Valid()
      ensures benched == if change.ToProviders? then {} else old(benched)
      ensures config == match change
                case ToPrompt(prompt) => old(config).(prompt := prompt)
                case ToRunnerSettings(rest) => old(config).(rest := rest)
                case _ => old(config)
      ensures autoremove == if change.ToAutoremove? then change.on else old(autoremove)
      ensures limitMessage == if change.ToRecoveryTexts? then change.limit else old(limitMessage)
      ensures newSessionMessage == if change.ToRecoveryTexts? then change.resumed else old(newSessionMessage)
    {
      hide Apply, Allowed, Stored, Unbroken, Episodes.AtFront, Manners.Sane, AllPermitted, Queued, Crewed, OpenedIds,
          LogTurn, Usable;
      match change {
        case ToProviders(names) => benched := {}; // whoever is listed is wanted
        case ToModel =>
        case ToPrompt(prompt) => config := config.(prompt := prompt);
        case ToRunnerSettings(rest) => config := config.(rest := rest);
        case ToAutoremove(on) => autoremove := on;
        case ToRecoveryTexts(limit, resumed) => limitMessage, newSessionMessage := limit, resumed;
      }
    }

    method SaveChange(change: Change) returns (ok: bool)
      requires Valid() && !stopping
      modifies `disk, `journal, `terminal, `stopping, `providers
      ensures Valid() && ok == !terminal && stopping == terminal && old(journal) <= journal
      ensures disk.broken == old(disk.broken)
      ensures ok ==> providers == if change.ToProviders? then change.names else old(providers)
    {
      hide Apply, Allowed, Stored, Unbroken, Episodes.AtFront, Manners.Sane, AllPermitted, Queued, Crewed, OpenedIds,
          LogTurn, Fill, Plain, Conducting.Failed, Usable;
      if change.ToProviders? {
        ok := SetProviders(change.names);
      } else {
        SettingWritten(disk);
        ok := Save(SetSetting);
      }
    }

    // ------------------------------------------------------ opening and stopping

    /** The launch has come, and sees whether an earlier process's recovery was cut short. */
    method MarkLaunched()
      requires Valid() && !stopping && !launched
      modifies `disk, `journal, `launched, `relaunching
      ensures Valid() && launched && journal == old(journal) + [Launched(old(RecoveryCutShort(disk)))]
      ensures relaunching == old(RecoveryCutShort(disk))
      ensures disk.meta == old(disk.meta) && disk.log == old(disk.log) && disk.rewritten == old(disk.rewritten)
      ensures StaysPut(journal, |old(journal)|, |journal|)
    {
      hide Apply, Allowed, Stored, Unbroken, Episodes.AtFront, Manners.Mannered, AllPermitted, Queued, Crewed,
          OpenedIds, LogTurn, Fill, Plain, Conducting.Failed, InOrder, RecoveryCutShort;
      LaunchNoted(disk, crew, turn);
      relaunching := RecoveryCutShort(disk);
      Heed(Launched(RecoveryCutShort(disk)));
      launched := true;
    }

    /** A durable recovery goes on from where the last process left it. */
    method ResumeRecovery() returns (end: Flushed)
      requires Valid() && !stopping && recovery.Some? && launched && relaunching == RecoveryCutShort(disk)
      modifies `disk, `journal, `terminal, `stopping, `crew, `line, `tally, `habits, `handed, `turn, `inTurn,
          `turnRecorded, `turnFailed, `recovery, `historyStart, `relaunching, `providers, `benched
      ensures Valid() && stopping == terminal && old(journal) <= journal && old(handed) <= handed
      ensures Kept(old(tally), tally, autoremove, terminal)
      ensures Among(providers, old(providers))
      ensures !terminal && old(recovery.value.stage.Compacting? || RecoveryCutShort(disk)) ==>
                && TurnsTo(journal, |old(journal)|, Some(Handoff))
                && HandsOver(journal, |old(journal)|, old(CarriedTexts(disk.log, historyStart)))
      ensures !terminal && old(recovery.value.messageId.Some?) ==>
                match old(HowFar(disk.log, historyStart, recovery.value.messageId.value))
                case NotTaken => Accounts(end, old(line.outbox), line.outbox, handed[|old(handed)|..], old(recovery))
                case CutShort => old(RecoveryCutShort(disk))
                case Over(last, failure) =>
                  TurnsTo(journal, |old(journal)|,
                          old(Follows(recovery.value, failure, Broken(disk.log[last]), line.outbox != [])))
    {
      hide Apply, Allowed, Stored, Unbroken, Episodes.AtFront, Manners.Sane, AllPermitted, Queued, Crewed, OpenedIds,
          LogTurn, Fill, Plain, Conducting.Failed, Usable, HowFar, PendingIds, Follows, TurnsTo, StaysPut, Kept, Among,
          Accounts, HandsOver, CarriedTexts;
      Known();
      end := Unready;
      NothingToRetry(journal, disk);
      KeptAsIs(tally, autoremove);
      AmongItself(providers);
      if recovery.value.stage.Compacting? {
        StartHandoff();
        return;
      }
      var id := recovery.value.messageId.value;
      InLineNotTaken(disk, line, tally, historyStart, id);
      var reach := if id in PendingIds(line.outbox) then NotTaken else HowFar(disk.log, historyStart, id);
      match reach {
        case CutShort =>
          // What was said during the interrupted turn is not to be lost by repeating only its opening.
          StartHandoff();
        case Over(last, failure) =>
          turnFailed := failure;
          RecoveryEnded(disk.log[last]);
        case NotTaken =>
          var ok := Attempt("resuming context recovery");
          if ok {
            end := Flush();
          } else if !terminal {
            NoneHandedOver(line.outbox, handed, recovery);
          }
      }
    }

    /**
     The first launch, whichever of those waiting for it asks first. It hands a
     recovery off if it was compacting, or if its message was taken by a turn that
     was cut short; and that it was cut short is on record if and only if it was.
     */
    method LaunchOnce() returns (end: Flushed)
      requires Valid() && !stopping
      modifies `disk, `journal, `terminal, `stopping, `crew, `line, `tally, `habits, `handed, `turn, `inTurn,
          `turnRecorded, `turnFailed, `recovery, `historyStart, `relaunching, `providers, `benched, `launched
      ensures Valid() && stopping == terminal && old(journal) <= journal && old(handed) <= handed
      ensures Kept(old(tally), tally, autoremove, terminal)
      ensures Among(providers, old(providers))
      ensures launched
      ensures old(launched) ==>
                && journal == old(journal) && line == old(line) && crew == old(crew)
                && handed == old(handed)
      ensures !old(launched) ==> old(journal) + [Launched(old(RecoveryCutShort(disk)))] <= journal
      ensures !terminal && !old(launched)
                && old(RecoveryCutShort(disk) || (recovery.Some? && recovery.value.stage.Compacting?)) ==>
                TurnsTo(journal, |old(journal)|, Some(Handoff))
      ensures
        || terminal || old(launched || recovery.Some?)
        || Accounts(end, old(line.outbox), line.outbox, handed[|old(handed)|..], None)
      ensures
        || terminal || old(launched || recovery.None? || recovery.value.messageId.None?)
        || !old(HowFar(disk.log, historyStart, recovery.value.messageId.value)).NotTaken?
        || Accounts(end, old(line.outbox), line.outbox, handed[|old(handed)|..], old(recovery))
    {
      hide Apply, Allowed, Stored, Unbroken, Episodes.AtFront, Manners.Sane, AllPermitted, Queued, Crewed, OpenedIds,
          LogTurn, Fill, Plain, Conducting.Failed, Usable, Kept, Among, HandedOver, Permitted, RecoveryCutShort, HowFar,
          TurnsTo, StaysPut, HandsOver, CarriedTexts, Accounts;
      Known();
      KeptAsIs(tally, autoremove);
      AmongItself(providers);
      end := Unready;
      if launched {
        return;
      }
      CutShortOf(disk);
      MarkLaunched();
      CutShortStill(old(disk), disk);
      ghost var before := journal;
      if recovery.Some? {
        end := ResumeRecovery();
        SinceThen(old(journal), before, journal);
        return;
      }
      NoneHandedOver(line.outbox, handed, None);
      var alive: bool := *;
      var stale := Stale();
      var ready := crew.runner.Some? && alive && !stale;
      if !ready {
        ready := Attempt("starting up");
      }
      if ready {
        end := Flush();
      }
    }

    /** The runner in charge is put down, but what it says on its way out is still heard. */
    method StandDown() returns (ok: bool)
      requires Valid() && !terminal && stopping
      modifies `disk, `journal, `terminal, `stopping, `crew
      ensures Valid() && ok == !terminal && stopping && old(journal) <= journal
      ensures ok ==> crew == old(crew).(runner := None, parked := map[])
    {
      hide Apply, Allowed, Stored, Unbroken, Episodes.AtFront, Manners.Mannered, AllPermitted, Queued, Crewed,
          OpenedIds, LogTurn, Fill, Plain, Conducting.Failed, BoundId;
      ok := true;
      if crew.runner.Some? {
        KeptBound(journal, disk, crew, turn);
        ok := Save(Bind(crew.runner.value.name, crew.runner.value.native, true));
        if !ok {
          return;
        }
      }
      CrewStoodDown(disk, crew, turn);
      CrewScattered(disk, crew.(runner := None), turn);
      crew := crew.(runner := None, parked := map[]);
    }

    /** Each report still in the inbox is logged, and starts nothing. */
    method Drain(inbox: seq<Heard>)
      requires Valid() && !terminal && stopping && forall k :: 0 <= k < |inbox| ==> WellFormed(inbox[k])
      modifies `disk, `journal, `terminal, `stopping, `crew, `line, `tally, `habits, `handed, `turn, `inTurn,
          `turnRecorded, `turnFailed, `recovery, `historyStart, `relaunching, `providers, `benched
      ensures Valid() && stopping && old(journal) <= journal && handed == old(handed)
      ensures Kept(old(tally), tally, autoremove, terminal)
      ensures !terminal ==> crew.runner == old(crew.runner) && crew.parked == old(crew.parked)
      ensures !terminal ==> forall k :: 0 <= k < |inbox| && inbox[k].Reported? ==>
                Heeded(disk.log, |old(disk.log)|, inbox[k].event)
    {
      hide Apply, Allowed, Stored, Unbroken, Episodes.AtFront, Manners.Sane, AllPermitted, Queued, Crewed, OpenedIds,
          LogTurn, Fill, Plain, Conducting.Failed, WellFormed, Heeded, Kept;
      KeptAsIs(tally, autoremove);
      var k := 0;
      while k < |inbox| && !terminal
        invariant 0 <= k <= |inbox|
        invariant Valid() && stopping && old(journal) <= journal && handed == old(handed)
                  && Kept(old(tally), tally, autoremove, terminal)
        invariant !terminal ==>
                  && crew.runner == old(crew.runner) && crew.parked == old(crew.parked)
                  && old(disk.log) <= disk.log
        invariant !terminal ==> forall i :: 0 <= i < k && inbox[i].Reported? ==>
                  Heeded(disk.log, |old(disk.log)|, inbox[i].event)
      {
        ghost var log, was := disk.log, tally;
        Absorb(inbox[k]);
        KeptOn(old(tally), was, tally, autoremove, terminal);
        if !terminal {
          forall i | 0 <= i <= k && inbox[i].Reported? ensures Heeded(disk.log, |old(disk.log)|, inbox[i].event) {
            HeededStill(if i < k then log else disk.log, disk.log, if i < k then |old(disk.log)| else |log|,
                        |old(disk.log)|, inbox[i].event);
          }
        }
        k := k + 1;
      }
    }

    /** Stop: end the turn that is on, and leave every accepted message where the next opening will find it. */
    method Shutdown(inbox: seq<Heard>)
      requires Valid() && forall k :: 0 <= k < |inbox| ==> WellFormed(inbox[k])
      modifies `disk, `journal, `terminal, `stopping, `crew, `line, `tally, `habits, `handed, `turn, `inTurn,
          `turnRecorded, `turnFailed, `recovery, `historyStart, `relaunching, `providers, `benched
      ensures Valid() && stopping && old(journal) <= journal && handed == old(handed)
      ensures old(terminal) ==> terminal
      ensures Kept(Loose(old(tally)), tally, autoremove, terminal)
      ensures !terminal ==>
                && crew.runner.None? && crew.epoch.None? && crew.parked == map[] && !inTurn && !turnRecorded
                && line.awaiting == [] && line.nextTurns == 0
                && SameMessages(disk.meta.pending, line.outbox)
                && (tally.aligned ==> disk.meta.pending == line.outbox)
    {
      hide Apply, Allowed, Stored, Unbroken, Episodes.AtFront, Manners.Sane, AllPermitted, Queued, Crewed, OpenedIds,
          LogTurn, Fill, Plain, Conducting.Failed, WellFormed, SameMessages;
      KeptAsIs(tally, autoremove);
      KeptOver(tally, tally, autoremove);
      if terminal {
        return;
      }
      BeginStopping();
      var ok := StandDown();
      if !ok {
        return;
      }
      Drain(inbox);
      if terminal {
        return;
      }
      Settle();
    }

    method BeginStopping()
      requires Valid() && !terminal
      modifies `stopping
      ensures Valid() && stopping
    {
      hide Apply, Allowed, Stored, Unbroken, Episodes.AtFront, Manners.Mannered, AllPermitted, Queued, Crewed,
          OpenedIds, LogTurn;
      Manners.Relaxed(disk.rewritten, habits, line, inTurn, crew.epoch, tally, stopping);
      stopping := true;
    }

    /** With everyone gone, close the turn and put unconfirmed writes back in line. */
    method Settle()
      requires Valid() && !terminal && stopping && crew.runner.None?
      modifies `disk, `journal, `terminal, `stopping, `crew, `line, `tally, `inTurn, `turnRecorded
      ensures Valid() && stopping && old(journal) <= journal
      ensures Kept(Loose(old(tally)), tally, autoremove, terminal)
      ensures !terminal ==>
                && crew == old(crew).(epoch := None) && !inTurn && !turnRecorded
                && line.awaiting == [] && line.nextTurns == 0
                && SameMessages(disk.meta.pending, line.outbox)
                && (tally.aligned ==> disk.meta.pending == line.outbox)
    {
      hide Apply, Allowed, Stored, Unbroken, Episodes.AtFront, Manners.Sane, AllPermitted, Queued, Crewed, OpenedIds,
          LogTurn, Fill, Plain, Conducting.Failed, SameMessages, Kept;
      KeptAsIs(tally, autoremove);
      KeptOver(tally, tally, autoremove);
      var ok := EndInterrupted();
      if !ok {
        return;
      }
      ReturnWrites();
      KeptOver(old(tally), tally, autoremove);
      KeptOver(Loose(old(tally)), tally, autoremove);
      ok := Announce(Config, "", "stop");
    }

    /** With nobody in charge, a turn that is on record gets its END here. */
    method EndInterrupted() returns (ok: bool)
      requires Valid() && !terminal && stopping && crew.runner.None?
      modifies `disk, `journal, `terminal, `stopping, `crew, `inTurn, `turnRecorded
      ensures Valid() && stopping && ok == !terminal && old(journal) <= journal
      ensures ok ==> crew == old(crew).(epoch := None) && !inTurn && !turnRecorded
    {
      hide Apply, Allowed, Stored, Unbroken, Episodes.AtFront, Manners.Mannered, AllPermitted, Queued, Crewed,
          OpenedIds, LogTurn, Fill, Plain, Conducting.Failed, InOrder;
      CrewStoodDown(disk, crew, turn);
      Manners.Relaxed(disk.rewritten, habits, line, inTurn, crew.epoch, tally, stopping);
      crew := crew.(epoch := None);
      ok := true;
      if inTurn && turnRecorded {
        var provider := if crew.current.Some? then crew.current.value.provider else "";
        EndIsNotice(provider);
        ok := Note(Plain(End, provider, "").(interrupted := true));
        if !ok {
          return;
        }
      }
      Manners.Relaxed(disk.rewritten, habits, line, inTurn, crew.epoch, tally, stopping);
      inTurn, turnRecorded := false, false;
    }

    /** A write nobody confirmed is still an accepted message: put it back, never erase it. */
    method ReturnWrites()
      requires Valid() && !terminal && stopping
      modifies `line, `tally
      ensures Valid() && line == Stopped(old(line))
                && Kept(if recovery.Some? then Loose(old(tally)) else old(tally), tally, autoremove, terminal)
      ensures SameMessages(disk.meta.pending, line.outbox)
      ensures tally.aligned ==> disk.meta.pending == line.outbox
    {
      hide Apply, Allowed, Stored, Unbroken, Episodes.AtFront, Manners.Mannered, AllPermitted, Queued, Crewed,
          OpenedIds, LogTurn, Fill, Plain, Conducting.Failed, InOrder;
      QueueStopped(disk.meta.pending, disk.synth, disk.log, disk.meta.recovery, disk.rewritten, line, tally);
      Manners.Relaxed(disk.rewritten, habits, line, inTurn, crew.epoch, tally, stopping);
      assert [] + (line.awaiting + line.outbox) == line.awaiting + line.outbox;
      var outbox := PutAhead(line.awaiting, line.outbox);
      tally := tally.(steady := tally.steady && recovery.None?);
      line := Line(outbox, [], line.unanswered, 0);
    }

    // ----------------------------------------------------------- the one thread

    /**
     One wake, handled to the end before the next. A deadline only exists while
     compaction is waited for. Whatever the wake and whatever the providers do:
     the message recovery waits for stays in reach; watermarks stay as good as
     they were, but for a provider whose session was bound before its seed, and
     only fall for one that was let go; and without a slip or a recovery, and with
     failover on, no order is lost.
     */
    method Handle(wake: Wake)
      requires Valid() && !stopping && Sensible(wake)
      modifies this
      ensures Valid() && stopping == terminal && old(journal) <= journal && old(handed) <= handed
      ensures if wake.Launch? then terminal || launched else launched == old(launched)
      ensures wake.Sent? && !terminal ==> tally.accepted == old(tally.accepted) + [wake.text]
      ensures !wake.Sent? ==> tally.accepted == old(tally.accepted)
      ensures old(tally.lapses) <= tally.lapses
      ensures old(autoremove) && GaveUp in tally.lapses ==> GaveUp in old(tally.lapses)
      ensures old(tally.steady) ==> terminal || (tally.steady && InReach(recovery, disk.log, line))
      ensures MarksKept(old(disk), journal, |old(journal)|, disk)
      ensures !terminal ==> RunnerHolds(disk, crew)
      ensures disk.rewritten ==> old(disk.rewritten) || RecoversSince(journal, |old(journal)|)
      ensures !terminal && !disk.rewritten && Manners.Orderly(habits) ==> Overtook !in tally.lapses
      ensures wake.Asked? ==>
                disk.broken == old(disk.broken) && habits == old(habits) && tally == old(tally) && line == old(line)
      ensures !terminal ==> autoremove == (if TurnsFailover(wake) then wake.change.on else old(autoremove))
    {
      hide Apply, Allowed, Stored, Unbroken, Episodes.AtFront, Manners.Sane, AllPermitted, Queued, Crewed, OpenedIds,
          LogTurn, Fill, Plain, Conducting.Failed, WellFormed, MarksKept, RunnerHolds, InReach, RecoversSince,
          Manners.Orderly, RecoveryCutShort, HowFar, Accounts;
      match wake {
        case Launch =>
          var _ := LaunchOnce();
        case Sent(text) =>
          var _, _ := Dispatch(text);
        case Said(heard) => Absorb(heard);
        case Asked(change) =>
          var _ := Configure(change);
        case TimedOut =>
          if recovery.Some? && recovery.value.stage.Compacting? {
            Deadline();
          }
      }
      MarksSince(old(journal), old(disk), journal, disk, openedAt);
      if !terminal { Outlook(); }
    }

    /** What `Valid` means for the next message, the next provider and the next crash. */
    lemma Outlook()
      requires Valid() && !terminal
      ensures tally.steady ==> InReach(recovery, disk.log, line)
      ensures RunnerHolds(disk, crew)
      ensures !disk.rewritten && Manners.Orderly(habits) ==> Overtook !in tally.lapses
    {
      hide Apply, Allowed, Stored, Unbroken, Episodes.AtFront, AllPermitted;
      Known();
    }

    /** Wakes in whatever order, the launch among them, until there are no more or storage is lost. */
    method Serve(wakes: seq<Wake>)
      requires Valid() && !stopping
      requires forall k :: 0 <= k < |wakes| ==> Sensible(wakes[k])
      modifies this
      ensures Valid() && stopping == terminal && old(journal) <= journal && old(handed) <= handed
      ensures !terminal ==> tally.accepted == old(tally.accepted) + SentTexts(wakes)
      ensures old(tally.lapses) <= tally.lapses
      ensures old(tally.steady) ==> terminal || (tally.steady && InReach(recovery, disk.log, line))
      ensures MarksKept(old(disk), journal, |old(journal)|, disk)
      ensures !terminal ==> RunnerHolds(disk, crew)
      ensures disk.rewritten ==> old(disk.rewritten) || RecoversSince(journal, |old(journal)|)
      ensures !terminal && old(autoremove) && KeepsFailover(wakes) ==>
                autoremove && (GaveUp in tally.lapses ==> GaveUp in old(tally.lapses))
      ensures !terminal && !disk.rewritten && Manners.Orderly(habits) ==> Overtook !in tally.lapses
    {
      hide Apply, Allowed, Stored, Unbroken, Episodes.AtFront, Manners.Sane, AllPermitted, Queued, Crewed, OpenedIds,
          LogTurn, Fill, Plain, Conducting.Failed, WellFormed, Sensible, MarksKept, RunnerHolds, InReach, RecoversSince,
          Manners.Orderly, HandsOver, TurnsTo;
      // A session opened in the middle of compaction has no deadline left to wait for.
      if recovery.Some? && recovery.value.stage.Compacting? {
        Deadline();
      }
      var k := 0;
      while k < |wakes| && !terminal
        invariant 0 <= k <= |wakes| && Valid() && stopping == terminal && old(journal) <= journal
                  && old(handed) <= handed
        invariant !terminal ==> tally.accepted == old(tally.accepted) + SentTexts(wakes[..k])
        invariant old(tally.lapses) <= tally.lapses && (old(tally.steady) ==> terminal || tally.steady)
        invariant !terminal && old(autoremove) && KeepsFailover(wakes) ==>
                    autoremove && (GaveUp in tally.lapses ==> GaveUp in old(tally.lapses))
      {
        Handle(wakes[k]);
        assert wakes[..k + 1][..k] == wakes[..k];
        k := k + 1;
      }
      assert wakes[..k] == wakes || terminal;
      MarksSince(old(journal), old(disk), journal, disk, openedAt);
      if !terminal { Outlook(); }
    }

    /**
     A whole life. What was sent is accepted in order. Without a recovery, with
     failover on, and without a slip - every provider takes messages in one way,
     confirms no turn open while another is unanswered, and is not replaced in the
     middle of one - what was accepted is, in order, what was answered, what is
     being answered and what is in line.
     */
    method Run(wakes: seq<Wake>, inbox: seq<Heard>)
      requires Valid() && !stopping
      requires forall k :: 0 <= k < |wakes| ==> Sensible(wakes[k])
      requires forall k :: 0 <= k < |inbox| ==> WellFormed(inbox[k])
      modifies this
      ensures Valid() && stopping && old(journal) <= journal
      ensures MarksKept(old(disk), journal, |old(journal)|, disk)
      ensures disk.rewritten ==> old(disk.rewritten) || RecoversSince(journal, |old(journal)|)
      ensures !terminal ==> tally.accepted == old(tally.accepted) + SentTexts(wakes)
      ensures !terminal ==> line.awaiting == [] && SameMessages(disk.meta.pending, line.outbox)
      ensures !terminal && !disk.rewritten && Manners.Orderly(habits) && old(autoremove) && KeepsFailover(wakes)
                && old(tally.lapses) == {} ==>
                && tally.lapses == {}
                && old(tally.accepted) + SentTexts(wakes) == tally.closed + Flat(line.unanswered) + Texts(line.outbox)
    {
      hide Apply, Allowed, Stored, Unbroken, Episodes.AtFront, Manners.Sane, AllPermitted, Queued, Crewed, OpenedIds,
          LogTurn, Fill, Plain, Conducting.Failed, WellFormed, Sensible, MarksKept, RunnerHolds, InReach, RecoversSince,
          Manners.Orderly, SameMessages, InOrder, Flat, Texts, KeepsFailover;
      Serve(wakes);
      Shutdown(inbox);
      MarksSince(old(journal), old(disk), journal, disk, openedAt);
      if !terminal {
        Known();
        Outlook();
        NothingAwaited(disk.meta.pending, disk.synth, disk.log, disk.meta.recovery, disk.rewritten, line, tally);
        NoLapse(tally.lapses);
      }
    }
  }

  /** One process's share of a session: what it was asked and what it heard. */
  datatype Life = Life(
    names: seq<string>, removes: bool, settings: Settings, limit: string, resumed: string,
    wakes: seq<Wake>, inbox: seq<Heard>)

  predicate Livable(life: Life) {
    && (forall k :: 0 <= k < |life.wakes| ==> Sensible(life.wakes[k]))
    && (forall k :: 0 <= k < |life.inbox| ==> WellFormed(life.inbox[k]))
  }

  /**
   A process opens the session, runs, and stops; a crash after any write is that
   write's successor never being made. Unless recovery names a message behind
   another, which takes a provider that echoes, a session the process could go on
   with is one the next can go on with.
   */
  method Live(life: Life, before: Disk, ghost written: seq<Write>)
    returns (disk: Disk, ghost journal: seq<Write>, ghost habits: Manners.Habits)
    requires Stored(written, before) && Livable(life)
    ensures Stored(journal, disk) && written + [Reopen] <= journal
    ensures Episodes.AtFront(before) && Manners.NamedBehind !in habits.slips ==> Episodes.AtFront(disk)
    ensures !habits.echoed ==> Manners.NamedBehind !in habits.slips
  {
    hide Apply, Allowed, Stored, Unbroken, Episodes.AtFront, Manners.Sane, Queued, Crewed, OpenedIds, LogTurn,
        OpeningLine, OpeningTally, AllPermitted, SameMessages, Episodes.Left;
    var chat := new Chat.Open(written, before, life.names, life.removes, life.settings, life.limit, life.resumed);
    if !chat.stopping {
      chat.Run(life.wakes, life.inbox);
    }
    disk, journal, habits := chat.disk, chat.journal, chat.habits;
  }

  /**
   Life after life of one session, each cut off anywhere: what is on disk in the
   end is the outcome of a legal journal, in which every message ever accepted is
   pending or was opened exactly once; and unless recovery ever named a message
   behind another, a recovery under way waits for a message the next process can
   deliver. Without a provider that echoes it never did.
   */
  method Lives(lives: seq<Life>) returns (disk: Disk, ghost journal: seq<Write>, ghost echoed: bool, ghost behind: bool)
    requires forall k :: 0 <= k < |lives| ==> Livable(lives[k])
    ensures Stored(journal, disk)
    ensures forall n :: 0 <= n < |journal| && journal[n].Enqueue? ==> Delivery.Safe(journal, n)
    ensures !behind ==> Episodes.AtFront(disk)
    ensures !echoed ==> !behind
  {
    hide Apply, Allowed, Stored, Queued, Crewed, OpenedIds, LogTurn, Livable, Delivery.Safe;
    NothingYet();
    disk, journal, echoed, behind := EMPTY, [], false, false;
    for k := 0 to |lives|
      invariant Stored(journal, disk) && (!behind ==> Episodes.AtFront(disk)) && (!echoed ==> !behind)
    {
      ghost var habits;
      disk, journal, habits := Live(lives[k], disk, journal);
      echoed := echoed || habits.echoed;
      behind := behind || Manners.NamedBehind in habits.slips;
    }
    Surviving(journal, disk);
  }
}
