/**
 A runner that has been replaced may go on talking. Its output is logged, but no
 decision depends on it: not where a message is queued, not whose turn it is, not
 which provider comes up next.

 That is a statement about two runs, so this module says what the conductor does
 as a function: between recoveries, everything it does follows from the wakes it
 handles and from what the world answers it, one answer at a time.
 */
module Stragglers {
  import opened Options
  import opened Session
  import opened Runners
  import opened Conducting
  import opened Conductor
  import Manners

  /** Where the conductor is in handling a wake. Recovery is where this account ends. */
  datatype Point =
    | Idle
    | Starting | Dispatching | Finishing | Flushing | Handing
    | Attempting | Launching(rung: Pick) | Blaming
    | GivingWay(name: string) | MovingOff(name: string)
    | Recovering

  /**
   What the world may answer, of which each step looks at its own part: whether the
   runner is alive, what the dial resolves to, whether a live setting was `took`en,
   whether a runner can be parked, whether a parked one could be `told` what it
   missed, whether that has reached its conversation, what comes up when a CLI is
   started and when it is started again, and what a runner says to a message.
   */
  datatype Reply = Reply(
    alive: bool, rung: Option<Pick>, took: bool, parkable: bool, told: bool, seeded: bool,
    first: Option<Runner>, second: Option<Runner>, answer: Answer)

  datatype Input = Woken(wake: Wake) | Replied(reply: Reply)

  /** All that the conductor knows and has stored. */
  datatype Desk = Desk(
    disk: Disk, crew: Crew, line: Line, turn: int, inTurn: bool, turnRecorded: bool, turnFailed: Option<Failure>,
    providers: seq<string>, benched: set<string>, autoremove: bool, config: Settings, launched: bool, at: Point)

  // ------------------------------------------------------- what each step does

  function Logged(s: Desk, e: Event): Desk { s.(disk := Recorded(s.disk, e, s.crew, s.turn)) }

  function Accepted(s: Desk, text: string): Desk {
    s.(disk := Apply(s.disk, Enqueue(text)), line := Joining(s.line, Msg(|s.disk.issued|, text)), at := Dispatching)
  }

  /** A message was taken: its opening event first, then the message is retired. */
  function Opened(s: Desk, opening: Event, id: Id, line: Line): Desk {
    var e := Fill(opening, s.crew, s.turn);
    var turn := Max(s.turn, e.turn);
    s.(disk := Apply(Apply(s.disk, Append(e)), Complete(id)), crew := Owning(s.crew, turn), line := line,
       turn := turn, inTurn := true, turnRecorded := true)
  }

  function TakenAtOnce(s: Desk, nextTurn: bool): Desk
    requires s.line.outbox != []
  {
    var m := s.line.outbox[0];
    Opened(s, Opening(m, s.inTurn, s.turn), m.id, Delivered(s.line, nextTurn && s.inTurn))
  }

  function Confirming(s: Desk, text: string, opening: Option<Kind>, provider: string): Desk {
    if s.line.awaiting == [] || s.line.awaiting[0].text != text
        || !(opening == Some(Start) || opening == Some(Injected)) then s
    else
      var m, opens := s.line.awaiting[0], opening == Some(Start);
      Opened(s, Confirmation(m, opens, provider, s.turn), m.id, Echo(s.line, opens))
  }

  /** What closing a turn does before the END is recorded. */
  function Shut(s: Desk): Desk {
    s.(disk := if s.autoremove && s.line.unanswered != [] then Apply(s.disk, Retry(Flat(s.line.unanswered)))
       else s.disk,
       line := Requeued(s.line, Back(s.line, s.autoremove, |s.disk.issued|)), crew := s.crew.(runner := None,
           epoch := None),
       inTurn := false, turnRecorded := false, turnFailed := None)
  }

  function Closed(s: Desk, provider: string, extra: string): Desk {
    if s.inTurn && s.turnRecorded then Logged(Shut(s), Plain(End, provider, extra)) else Shut(s)
  }

  function Complaining(s: Desk, why: string): Desk { Logged(s, Conducting.Failed(Crash, "", why)) }

  function OnDial(s: Desk, rung: Option<Pick>): Option<Pick> {
    if rung.Some? && rung.value.provider in Usable(s.providers, s.benched) then rung else None
  }

  function Wanted(s: Desk, rung: Pick): Signature { Signature(rung.provider, rung.tuning, s.config) }

  predicate Stale(s: Desk, rung: Option<Pick>) {
    s.crew.current.Some? && (OnDial(s, rung).None? || s.crew.current.value != Wanted(s, OnDial(s, rung).value))
  }

  function Fails(s: Desk, provider: string): Desk {
    var name := Blamed(s.crew, provider);
    Closed(s, name, "failed").(at := if s.autoremove then GivingWay(name) else Idle)
  }

  function LosesLogin(s: Desk, provider: string): Desk {
    var name := Blamed(s.crew, provider);
    Closed(s, name, "unauthenticated").(at := if s.autoremove then MovingOff(name) else Idle)
  }

  // -------------------------------------------------------------- the dial

  function MovedFrom(s: Desk, name: string, why: string): Desk {
    Logged(s.(crew := s.crew.(parked := s.crew.parked - {name})), Plain(Config, name, why))
  }

  function Remaining(s: Desk): Desk {
    if Usable(s.providers, s.benched) != [] then s.(at := Attempting)
    else if s.providers == [] then Complaining(s, "every provider is unauthenticated").(at := Idle)
    else Complaining(s.(benched := {}), "every provider failed").(at := Idle)
  }

  function SetAside(s: Desk, name: string, why: string): Desk {
    if name !in s.providers || name in s.benched then s.(at := Idle)
    else Remaining(MovedFrom(s.(benched := s.benched + {name}), name, why))
  }

  function TakenOff(s: Desk, name: string): Desk {
    var left := Except(s.providers, name);
    Remaining(MovedFrom(s.(disk := Apply(s.disk, SetActive(left)), providers := left, benched := s.benched - {name}),
                        name, "unauthenticated"))
  }

  // ------------------------------------------------------------ bringing one up

  predicate PromptsMoved(s: Desk) { s.crew.current.Some? && s.crew.current.value.config.prompt != s.config.prompt }

  /** The runner is put aside, still running if it can be; or its session is let go, mark and all. */
  function PutAside(s: Desk, parkable: bool): Desk
    requires s.crew.runner.Some?
  {
    var runner := s.crew.runner.value;
    if !RetunesInstructions(runner.name) && PromptsMoved(s) then
      var crew := StoodDown(s.crew);
      s.(disk := LetGo(s.disk, crew, s.turn, runner.name), crew := crew)
    else
      s.(disk := Apply(s.disk, Bind(runner.name, runner.native, true)),
         crew := if parkable && s.crew.current.Some? && s.crew.epoch.Some?
                 then Aside(s.crew, s.crew.current.value, Synced(s.disk.meta, runner.name))
                 else StoodDown(s.crew))
  }

  predicate Tunable(s: Desk, rung: Pick, alive: bool) {
    && s.crew.current.Some? && s.crew.runner.Some? && alive
    && s.crew.current.value.provider == rung.provider && s.crew.current.value.config == s.config
    && s.crew.current.value.tuning != rung.tuning
  }

  function Previous(s: Desk): string {
    if s.crew.runner.Some? then s.crew.runner.value.name
    else if s.crew.current.Some? then s.crew.current.value.provider
    else ""
  }

  function Retuning(s: Desk, rung: Pick): Desk {
    Logged(s.(crew := s.crew.(current := Some(Wanted(s, rung)))),
           Plain(Config, rung.provider, "retune")).(at := Flushing)
  }

  function Switching(s: Desk, rung: Pick, parkable: bool): Desk {
    var aside := if s.crew.runner.Some? then PutAside(s, parkable) else s;
    (if Previous(s) != "" && Previous(s) != rung.provider then Logged(aside, Plain(SwitchProvider, rung.provider, ""))
     else aside)
      .(at := Launching(rung))
  }

  function Rebuilding(s: Desk, r: Reply): Desk {
    var rung := OnDial(s, r.rung);
    if rung.None? then s.(at := Blaming)
    else if Tunable(s, rung.value, r.alive) && r.took then Retuning(s, rung.value)
    else Switching(s, rung.value, r.parkable)
  }

  function Numbered(s: Desk): Desk { s.(crew := Numbering(s.crew, s.turn)) }

  predicate ComesUp(s: Desk, runner: Option<Runner>, provider: string, native: string) {
    && runner.Some? && runner.value.name == provider && runner.value.native != ""
    && (runner.value.native == native || runner.value.native != BoundId(s.disk.meta, provider))
  }

  function Hearing(s: Desk, provider: string, native: string, since: int, runner: Runner): Desk {
    if runner.seed.Absorbed? && native == "" then
      s.(disk := Apply(s.disk, Hear(provider, runner.native, true, HistoryFor(s.disk, provider, since, false))))
    else if runner.seed.Absorbed? && runner.native == native then
      s.(disk := Apply(s.disk, Hear(provider, native, false, HistoryFor(s.disk, provider, since, true))))
    else s
  }

  function Adopting(s: Desk, runner: Runner, epoch: nat, signature: Signature, anew: bool): Desk {
    var crew := Manned(s.crew, runner, epoch, signature, s.turn);
    s.(disk := Adopted(s.disk, crew, s.turn, runner, anew), crew := crew, at := Flushing)
  }

  function Reseeding(s: Desk, rung: Pick, r: Reply): Desk {
    var again := Numbered(Logged(s, Plain(Config, rung.provider, "reseed")));
    if !ComesUp(again, r.second, rung.provider, "") then again.(at := Blaming)
    else
      Adopting(Hearing(again, rung.provider, "", 0, r.second.value), Started(r.second.value, "", 0), s.crew.next,
               Wanted(s, rung), true)
  }

  function Resuming(s: Desk, rung: Pick, native: string, since: int, r: Reply): Desk {
    var numbered := Numbered(s);
    if !ComesUp(numbered, r.first, rung.provider, native) then numbered.(at := Blaming)
    else
      var up := Hearing(numbered, rung.provider, native, since, r.first.value);
      if native != "" && r.first.value.native != native then Reseeding(up, rung, r)
      else Adopting(up, Started(r.first.value, native, since), s.crew.next, Wanted(s, rung), native == "")
  }

  function Unparked(s: Desk, provider: string, seeded: bool): Desk
    requires provider in s.crew.parked
  {
    var p := s.crew.parked[provider];
    var told := Apply(s.disk, Hear(provider, p.runner.native, false, HistoryFor(s.disk, provider, p.synced + 1, true)));
    s.(disk := if seeded then Apply(told, MarkSynced(provider, |s.disk.log| - 1)) else s.disk,
       crew := s.crew.(parked := s.crew.parked - {provider}))
  }

  function ComingUp(s: Desk, rung: Pick, r: Reply): Desk {
    var name := rung.provider;
    var native, since := BoundId(s.disk.meta, name), Synced(s.disk.meta, name) + 1;
    if name in s.crew.parked && s.crew.parked[name].signature.config == s.config && r.alive && r.told then
      var p, out := s.crew.parked[name], Unparked(s, name, r.seeded);
      if p.signature.tuning == rung.tuning || r.took
      then Adopting(out, Refreshed(p.runner, r.seeded), p.epoch, Wanted(s, rung), false)
      else Resuming(out, rung, native, since, r)
    else
      Resuming(s.(crew := s.crew.(parked := s.crew.parked - {name})), rung, native, since, r)
  }

  // --------------------------------------------------------- one wake, step by step

  /** With the message it takes, the runner takes in what it was handed when it came up. */
  function Seeding(s: Desk): Desk {
    if s.crew.runner.None? then s else s.(disk := TakenIn(s.disk, s.crew), crew := Settled(s.crew))
  }

  function WrittenOut(s: Desk): Desk
    requires s.line.outbox != []
  {
    s.(line := Written(s.line), inTurn := true)
  }

  function Offering(s: Desk, answer: Answer): Desk
    requires s.line.outbox != []
  {
    match answer
    case Took(how) =>
      if how.Echoed? then WrittenOut(Seeding(s)) else TakenAtOnce(Seeding(s), how.NextTurn?)
    case Refused(why) =>
      var name := Blamed(s.crew, "");
      var t := Logged(s, Conducting.Failed(why, name, "the message was not taken"));
      if why.ContextLimit? then (if s.inTurn then t.(turnFailed := Some(why), at := Idle) else t.(at := Recovering))
      else if why.Auth? then LosesLogin(t, name)
      else Fails(t, name)
  }

  function Accusing(s: Desk, culprit: Option<Pick>): Desk {
    if culprit.None? || !s.autoremove then Complaining(s, "could not start a provider").(at := Idle)
    else
      var name := culprit.value.provider;
      SetAside(Logged(s, Conducting.Failed(Crash, name, "could not start a provider")), name, "would not start")
  }

  /** Nothing is handed to a runner that is gone, or about to be replaced. */
  function Readying(s: Desk, r: Reply): Desk {
    var ready := s.crew.runner.Some? && r.alive;
    if ready && !Stale(s, r.rung) then s.(at := Handing)
    else if !ready && s.line.outbox != [] then Complaining(s, "nothing is running").(at := Idle)
    else s.(at := Idle)
  }

  function Step(s: Desk, r: Reply): Desk {
    match s.at
    case Starting => s.(at := if s.crew.runner.Some? && r.alive && !Stale(s, r.rung) then Flushing else Attempting)
    case Dispatching =>
      s.(at := if s.crew.runner.None? || !r.alive || (!s.inTurn && Stale(s, r.rung)) then Attempting else Flushing)
    case Finishing => s.(at := if Stale(s, r.rung) then Attempting else Flushing)
    case Flushing => Readying(s, r)
    case Handing => if s.line.outbox == [] then s.(at := Idle) else Offering(s, r.answer)
    case Attempting => Rebuilding(s, r)
    case Launching(rung) => ComingUp(s, rung, r)
    case Blaming => Accusing(s, OnDial(s, r.rung))
    case GivingWay(name) => if name in s.providers then SetAside(s, name, "failed") else s.(at := Attempting)
    case MovingOff(name) => if name in s.providers then TakenOff(s, name) else s.(at := Attempting)
    case _ => s
  }

  function Answering(s: Desk): Desk {
    var next := s.line.nextTurns > 0;
    var t := s.(line := Answered(s.line).(nextTurns := if next then s.line.nextTurns - 1 else 0),
                inTurn := next || s.line.awaiting != [], turnRecorded := next);
    if next then t.(at := Idle)
    else
      var marked := if s.crew.runner.None? then t
                    else t.(disk := Apply(s.disk, Marking(s.crew, s.disk.log)));
      marked.(at := if s.line.awaiting == [] then Finishing else Idle)
  }

  function Ending(s: Desk, provider: string): Desk {
    var t := s.(turnRecorded := false, turnFailed := None);
    if s.turnFailed == Some(ContextLimit) then t.(at := Recovering)
    else if s.turnFailed.Some? && s.autoremove then Fails(t, provider)
    else Answering(t)
  }

  function Failing(s: Desk, e: Event): Desk {
    match e.failure
    case ContextLimit => s.(turnFailed := Some(ContextLimit))
    case Auth => LosesLogin(s, e.provider)
    case Crash => Fails(s, e.provider)
    case Other => s
    case _ => if s.inTurn then s.(turnFailed := Some(e.failure)) else s
  }

  function Reacting(s: Desk, e: Event): Desk {
    if FromModel(e) then s.(turnFailed := None)
    else if e.kind.End? then Ending(s, e.provider)
    else if e.kind.Error? && !e.willRetry then Failing(s, e)
    else s
  }

  predicate FromReplaced(c: Crew, h: Heard) { Straggles(c, h.provider, h.epoch, h.otherServer) }

  /** Output of a runner that was replaced: recorded as late, and a hole in what the running one was told. */
  function Overhearing(s: Desk, e: Event, epoch: nat): Desk {
    var t := Logged(s, Dated(e, s.crew, epoch).(late := true));
    if IsHistory(e) && s.crew.runner.Some? then t.(crew := Holed(s.crew, |s.disk.log|)) else t
  }

  function Hears(s: Desk, h: Heard): Desk {
    match h
    case Confirmed(text, opening, provider, _, _) =>
      if FromReplaced(s.crew, h) then s else Confirming(s, text, opening, provider)
    case Reported(event, _, epoch, _) =>
      if FromReplaced(s.crew, h) then Overhearing(s, event, epoch)
      else Reacting(Logged(s, Dated(event, s.crew, epoch)), Fill(Dated(event, s.crew, epoch), s.crew, s.turn))
  }

  /** A setting is stored and taken up, and not yet announced. */
  function Set(s: Desk, change: Change): Desk {
    match change
    case ToProviders(names) => s.(disk := Apply(s.disk, SetActive(names)), providers := names, benched := {})
    case ToPrompt(prompt) => s.(disk := Apply(s.disk, SetSetting), config := s.config.(prompt := prompt))
    case ToRunnerSettings(rest) => s.(disk := Apply(s.disk, SetSetting), config := s.config.(rest := rest))
    case ToAutoremove(on) => s.(disk := Apply(s.disk, SetSetting), autoremove := on)
    case _ => s.(disk := Apply(s.disk, SetSetting))
  }

  function Changed(s: Desk, change: Change): Desk { Logged(Set(s, change), Plain(Config, "", "")) }

  function Waking(s: Desk, wake: Wake): Desk {
    match wake
    case Launch =>
      if s.launched then s
      else s.(disk := Apply(s.disk, Write.Launched(false)), launched := true, at := Starting)
    case Sent(text) => Accepted(s, text)
    case Said(heard) => Hears(s, heard)
    case Asked(change) => Changed(s, change)
    case TimedOut => s
  }

  /** Wakes are handled one at a time, each to its end. */
  function Do(s: Desk, input: Input): Desk {
    match input
    case Woken(wake) => if s.at.Idle? then Waking(s, wake) else s
    case Replied(reply) => if s.at.Idle? then s else Step(s, reply)
  }

  function Play(s: Desk, inputs: seq<Input>): Desk {
    if inputs == [] then s else Do(Play(s, inputs[..|inputs| - 1]), inputs[|inputs| - 1])
  }

  predicate Late(s: Desk, input: Input) { input.Woken? && input.wake.Said? && FromReplaced(s.crew, input.wake.heard) }

  /** The same inputs, less all that came from runners already replaced when it came. */
  function InTime(s: Desk, inputs: seq<Input>): seq<Input> {
    if inputs == [] then []
    else
      var init, last := inputs[..|inputs| - 1], inputs[|inputs| - 1];
      InTime(s, init) + if Late(Play(s, init), last) then [] else [last]
  }

  // --------------------------------------------------------- what may be different

  /** The record, less what replaced runners added to it. */
  function OnTime(log: seq<Event>): seq<Event> {
    if log == [] then []
    else OnTime(log[..|log| - 1]) + if log[|log| - 1].late then [] else [log[|log| - 1]]
  }

  function Ids(natives: map<string, Native>): map<string, string> { map p | p in natives :: natives[p].id }

  /** What is stored, but for late events and watermarks. */
  datatype Seen = Seen(
    pending: seq<Msg>, issued: seq<string>, active: Option<seq<string>>, recovery: Option<Recovery>, start: nat,
    ids: map<string, string>, record: seq<Event>)

  function Glance(d: Disk): Seen {
    Seen(d.meta.pending, d.issued, d.meta.active, d.meta.recovery, d.meta.historyStart, Ids(d.meta.natives),
         OnTime(d.log))
  }

  /** The crew, but for how far marks may rise and where parked ones stood. */
  function Bare(c: Crew): Crew {
    c.(ceiling := None,
       runner := InCharge(c),
       parked := map p | p in c.parked :: Untold(c.parked[p]))
  }

  function InCharge(c: Crew): Option<Runner> { if c.runner.Some? then Some(Lean(c.runner.value)) else None }

  /** A parked runner, but for how far it was told. */
  function Untold(p: Parked): Parked { p.(synced := -1, runner := Lean(p.runner)) }

  /** A runner, but for how much it has yet to take in. */
  function Lean(r: Runner): Runner { r.(seed := if r.seed.Absorbed? then Absorbed else Missed) }

  /** Two desks that differ only in late events, in watermarks, and in what those may rise to. */
  predicate Alike(a: Desk, b: Desk) {
    Glance(a.disk) == Glance(b.disk) && Bare(a.crew) == Bare(b.crew) && b == a.(disk := b.disk, crew := b.crew)
  }

  // ------------------------------------------------------------ one write alike

  lemma OnTimeMore(log: seq<Event>, e: Event)
    ensures OnTime(log + [e]) == OnTime(log) + if e.late then [] else [e]
  {
    assert (log + [e])[..|log|] == log;
  }

  lemma GlanceLogged(d: Disk, e: Event)
    ensures Glance(Apply(d, Append(e))) == Glance(d).(record := Glance(d).record + if e.late then [] else [e])
  {
    OnTimeMore(d.log, e);
  }

  lemma GlanceBound(d: Disk, p: string, native: string, seeded: bool)
    ensures Glance(Apply(d, Bind(p, native, seeded))) == Glance(d).(ids := Glance(d).ids[p := native])
  {
    assert Ids(d.meta.natives[p := Native(native, Synced(d.meta, p))]) == Ids(d.meta.natives)[p := native];
  }

  lemma GlanceMarked(d: Disk, p: string, mark: int)
    ensures Glance(Apply(d, MarkSynced(p, mark))) == Glance(d).(ids := Glance(d).ids[p := BoundId(d.meta, p)])
  {
    assert Ids(d.meta.natives[p := Native(BoundId(d.meta, p), mark)]) == Ids(d.meta.natives)[p := BoundId(d.meta, p)];
  }

  lemma SameIds(d: Disk, e: Disk, p: string)
    requires Glance(d) == Glance(e)
    ensures BoundId(d.meta, p) == BoundId(e.meta, p)
  {
    assert BoundId(d.meta, p) == if p in Ids(d.meta.natives) then Ids(d.meta.natives)[p] else "";
    assert BoundId(e.meta, p) == if p in Ids(e.meta.natives) then Ids(e.meta.natives)[p] else "";
  }

  lemma GlanceHeard(d: Disk, p: string, native: string, anew: bool, positions: set<nat>)
    ensures Glance(Apply(d, Hear(p, native, anew, positions))) == Glance(d)
  {
  }

  lemma BareUnparked(c: Crew, name: string)
    ensures Bare(c.(parked := c.parked - {name})) == Bare(c).(parked := Bare(c).parked - {name})
  {
    assert Bare(c.(parked := c.parked - {name})).parked == Bare(c).parked - {name};
  }

  lemma BareAside(c: Crew, signature: Signature, synced: int)
    requires c.runner.Some? && c.epoch.Some?
    ensures Bare(Aside(c, signature, synced)) == Aside(Bare(c), signature, -1)
  {
    assert Bare(Aside(c, signature, synced)).parked == Aside(Bare(c), signature, -1).parked;
  }

  lemma SameFill(a: Crew, b: Crew, e: Event, turn: int, epoch: nat)
    requires Bare(a) == Bare(b)
    ensures Fill(e, a, turn) == Fill(e, b, turn) && Dated(e, a, epoch) == Dated(e, b, epoch)
    ensures InCharge(a) == InCharge(b)
    ensures a.epoch == b.epoch && a.next == b.next && a.turns == b.turns && a.current == b.current
  {
    assert Bare(a).runner == InCharge(a) && Bare(b).runner == InCharge(b);
    assert Bare(a).turns == a.turns && Bare(b).turns == b.turns;
    assert Bare(a).epoch == a.epoch && Bare(a).next == a.next && Bare(a).current == a.current;
    assert Bare(b).epoch == b.epoch && Bare(b).next == b.next && Bare(b).current == b.current;
  }

  lemma SameParked(a: Crew, b: Crew, name: string)
    requires Bare(a) == Bare(b)
    ensures name in a.parked <==> name in b.parked
    ensures name in a.parked ==> Untold(a.parked[name]) == Untold(b.parked[name])
  {
    assert name in Bare(a).parked <==> name in a.parked;
    assert name in Bare(b).parked <==> name in b.parked;
    if name in a.parked {
      assert Bare(a).parked[name] == Untold(a.parked[name]);
      assert Bare(b).parked[name] == Untold(b.parked[name]);
    }
  }

  // ---------------------------------------------- each step cannot tell them apart

  lemma LoggedAlike(a: Desk, b: Desk, e: Event)
    requires Alike(a, b)
    ensures Alike(Logged(a, e), Logged(b, e))
  {
    SameFill(a.crew, b.crew, e, a.turn, 0);
    GlanceLogged(a.disk, Fill(e, a.crew, a.turn));
    GlanceLogged(b.disk, Fill(e, b.crew, b.turn));
  }

  lemma AcceptedAlike(a: Desk, b: Desk, text: string)
    requires Alike(a, b)
    ensures Alike(Accepted(a, text), Accepted(b, text))
  {
    assert Glance(a.disk).pending == Glance(b.disk).pending && Glance(a.disk).issued == Glance(b.disk).issued;
  }

  lemma OpenedAlike(a: Desk, b: Desk, opening: Event, id: Id, line: Line)
    requires Alike(a, b)
    ensures Alike(Opened(a, opening, id, line), Opened(b, opening, id, line))
  {
    hide OnTime, Without, Ids;
    LoggedAlike(a, b, opening);
    SameFill(a.crew, b.crew, opening, a.turn, 0);
    var turn := Max(a.turn, Fill(opening, a.crew, a.turn).turn);
    assert Bare(Owning(a.crew, turn)) == Owning(Bare(a.crew), turn);
    assert Bare(Owning(b.crew, turn)) == Owning(Bare(b.crew), turn);
  }

  lemma ClosedAlike(a: Desk, b: Desk, provider: string, extra: string)
    requires Alike(a, b)
    ensures Alike(Closed(a, provider, extra), Closed(b, provider, extra))
  {
    hide OnTime, Ids, Flat, Stamp, Requeued, Fill, Plain, Logged;
    assert Glance(a.disk).issued == a.disk.issued && Glance(b.disk).issued == b.disk.issued;
    var t, u := Shut(a), Shut(b);
    assert Bare(t.crew) == Bare(a.crew).(runner := None, epoch := None);
    assert Bare(u.crew) == Bare(b.crew).(runner := None, epoch := None);
    assert Alike(t, u);
    LoggedAlike(t, u, Plain(End, provider, extra));
  }

  lemma FailsAlike(a: Desk, b: Desk, provider: string)
    requires Alike(a, b)
    ensures Alike(Fails(a, provider), Fails(b, provider)) && Alike(LosesLogin(a, provider), LosesLogin(b, provider))
  {
    hide Closed, Glance, Bare;
    SameFill(a.crew, b.crew, Plain(End, "", ""), a.turn, 0);
    ClosedAlike(a, b, Blamed(a.crew, provider), "failed");
    ClosedAlike(a, b, Blamed(a.crew, provider), "unauthenticated");
  }

  lemma MovedAlike(a: Desk, b: Desk, name: string, why: string)
    requires Alike(a, b)
    ensures Alike(MovedFrom(a, name, why), MovedFrom(b, name, why))
  {
    hide Glance, Logged;
    BareUnparked(a.crew, name);
    BareUnparked(b.crew, name);
    LoggedAlike(a.(crew := a.crew.(parked := a.crew.parked - {name})),
                b.(crew := b.crew.(parked := b.crew.parked - {name})),
                Plain(Config, name, why));
  }

  lemma RemainingAlike(a: Desk, b: Desk)
    requires Alike(a, b)
    ensures Alike(Remaining(a), Remaining(b))
  {
    hide Glance, Bare, Logged, Usable;
    LoggedAlike(a, b, Conducting.Failed(Crash, "", "every provider is unauthenticated"));
    LoggedAlike(a.(benched := {}), b.(benched := {}), Conducting.Failed(Crash, "", "every provider failed"));
  }

  lemma SetAsideAlike(a: Desk, b: Desk, name: string, why: string)
    requires Alike(a, b)
    ensures Alike(SetAside(a, name, why), SetAside(b, name, why))
  {
    hide Glance, Bare, MovedFrom, Remaining;
    var t, u := a.(benched := a.benched + {name}), b.(benched := b.benched + {name});
    MovedAlike(t, u, name, why);
    RemainingAlike(MovedFrom(t, name, why), MovedFrom(u, name, why));
  }

  lemma TakenOffAlike(a: Desk, b: Desk, name: string)
    requires Alike(a, b)
    ensures Alike(TakenOff(a, name), TakenOff(b, name))
  {
    hide Bare, MovedFrom, Remaining, Except, OnTime, Ids;
    var left := Except(a.providers, name);
    var t := a.(disk := Apply(a.disk, SetActive(left)), providers := left, benched := a.benched - {name});
    var u := b.(disk := Apply(b.disk, SetActive(left)), providers := left, benched := b.benched - {name});
    MovedAlike(t, u, name, "unauthenticated");
    RemainingAlike(MovedFrom(t, name, "unauthenticated"), MovedFrom(u, name, "unauthenticated"));
  }

  lemma BoundAlike(d: Disk, e: Disk, p: string, native: string, seeded: bool)
    requires Glance(d) == Glance(e)
    ensures Glance(Apply(d, Bind(p, native, seeded))) == Glance(Apply(e, Bind(p, native, seeded)))
  {
    GlanceBound(d, p, native, seeded);
    GlanceBound(e, p, native, seeded);
  }

  lemma MarkedAlike(d: Disk, e: Disk, p: string, mark: int, other: int)
    requires Glance(d) == Glance(e)
    ensures Glance(Apply(d, MarkSynced(p, mark))) == Glance(Apply(e, MarkSynced(p, other)))
  {
    SameIds(d, e, p);
    GlanceMarked(d, p, mark);
    GlanceMarked(e, p, other);
  }

  lemma PutAsideAlike(a: Desk, b: Desk, parkable: bool)
    requires Alike(a, b) && a.crew.runner.Some? && b.crew.runner.Some?
    ensures Alike(PutAside(a, parkable), PutAside(b, parkable))
  {
    hide Glance, Apply, Recorded, Plain, Bare;
    SameFill(a.crew, b.crew, Plain(End, "", ""), a.turn, 0);
    var runner := a.crew.runner.value;
    if !RetunesInstructions(runner.name) && PromptsMoved(a) {
      BoundAlike(a.disk, b.disk, runner.name, "", true);
      MarkedAlike(Apply(a.disk, Bind(runner.name, "", true)), Apply(b.disk, Bind(runner.name, "", true)), runner.name,
                  -1, -1);
      var d := Apply(Apply(a.disk, Bind(runner.name, "", true)), MarkSynced(runner.name, -1));
      var e := Apply(Apply(b.disk, Bind(runner.name, "", true)), MarkSynced(runner.name, -1));
      SameStoodDown(a.crew, b.crew);
      LoggedAlike(a.(disk := d, crew := StoodDown(a.crew)), b.(disk := e, crew := StoodDown(b.crew)),
                  Plain(Config, runner.name, "reopening"));
    } else {
      BoundAlike(a.disk, b.disk, runner.name, runner.native, true);
      SameStoodDown(a.crew, b.crew);
      if parkable && a.crew.current.Some? && a.crew.epoch.Some? {
        BareAside(a.crew, a.crew.current.value, Synced(a.disk.meta, runner.name));
        BareAside(b.crew, a.crew.current.value, Synced(b.disk.meta, runner.name));
      }
    }
  }

  lemma SameStoodDown(a: Crew, b: Crew)
    requires Bare(a) == Bare(b)
    ensures Bare(a.(runner := None, epoch := None)) == Bare(b.(runner := None, epoch := None))
  {
    assert Bare(a.(runner := None, epoch := None)) == Bare(a).(runner := None, epoch := None);
    assert Bare(b.(runner := None, epoch := None)) == Bare(b).(runner := None, epoch := None);
  }

  lemma SameRetuned(a: Crew, b: Crew, signature: Signature)
    requires Bare(a) == Bare(b)
    ensures Bare(a.(current := Some(signature))) == Bare(b.(current := Some(signature)))
  {
    assert Bare(a.(current := Some(signature))) == Bare(a).(current := Some(signature));
    assert Bare(b.(current := Some(signature))) == Bare(b).(current := Some(signature));
  }

  lemma SameDial(a: Desk, b: Desk, rung: Option<Pick>)
    requires Alike(a, b)
    ensures OnDial(a, rung) == OnDial(b, rung) && Stale(a, rung) == Stale(b, rung)
    ensures InCharge(a.crew) == InCharge(b.crew) && a.crew.current == b.crew.current
  {
    hide Glance, Bare, Usable;
    SameFill(a.crew, b.crew, Plain(End, "", ""), a.turn, 0);
  }

  lemma RebuildingAlike(a: Desk, b: Desk, r: Reply)
    requires Alike(a, b)
    ensures Alike(Rebuilding(a, r), Rebuilding(b, r))
  {
    hide Glance, Bare, Retuning, Switching, OnDial;
    SameDial(a, b, r.rung);
    var rung := OnDial(a, r.rung);
    if rung.Some? {
      RetuningAlike(a, b, rung.value);
      SwitchingAlike(a, b, rung.value, r.parkable);
    }
  }

  lemma RetuningAlike(a: Desk, b: Desk, rung: Pick)
    requires Alike(a, b)
    ensures Alike(Retuning(a, rung), Retuning(b, rung))
  {
    hide Glance, Bare, Logged, Plain;
    SameRetuned(a.crew, b.crew, Wanted(a, rung));
    LoggedAlike(a.(crew := a.crew.(current := Some(Wanted(a, rung)))),
                b.(crew := b.crew.(current := Some(Wanted(a, rung)))),
                Plain(Config, rung.provider, "retune"));
  }

  lemma SwitchingAlike(a: Desk, b: Desk, rung: Pick, parkable: bool)
    requires Alike(a, b)
    ensures Alike(Switching(a, rung, parkable), Switching(b, rung, parkable))
  {
    hide Glance, Bare, Logged, PutAside, Plain;
    SameDial(a, b, None);
    if a.crew.runner.Some? { PutAsideAlike(a, b, parkable); }
    LoggedAlike(if a.crew.runner.Some? then PutAside(a, parkable) else a,
                if b.crew.runner.Some? then PutAside(b, parkable) else b,
                Plain(SwitchProvider, rung.provider, ""));
  }

  lemma NumberedAlike(a: Desk, b: Desk)
    requires Alike(a, b)
    ensures Alike(Numbered(a), Numbered(b)) && a.crew.next == b.crew.next
  {
    SameFill(a.crew, b.crew, Plain(End, "", ""), a.turn, 0);
    assert Bare(Numbering(a.crew, a.turn)) == Numbering(Bare(a.crew), a.turn);
    assert Bare(Numbering(b.crew, b.turn)) == Numbering(Bare(b.crew), b.turn);
  }

  lemma HearingAlike(a: Desk, b: Desk, provider: string, native: string, since: int, other: int, runner: Runner)
    requires Alike(a, b)
    ensures Alike(Hearing(a, provider, native, since, runner), Hearing(b, provider, native, other, runner))
  {
    hide Glance, Apply, Bare, HistoryFor;
    GlanceHeard(a.disk, provider, runner.native, true, HistoryFor(a.disk, provider, since, false));
    GlanceHeard(b.disk, provider, runner.native, true, HistoryFor(b.disk, provider, other, false));
    GlanceHeard(a.disk, provider, native, false, HistoryFor(a.disk, provider, since, true));
    GlanceHeard(b.disk, provider, native, false, HistoryFor(b.disk, provider, other, true));
  }

  lemma AdoptingAlike(a: Desk, b: Desk, r: Runner, r': Runner, epoch: nat, signature: Signature, anew: bool)
    requires Alike(a, b) && Lean(r) == Lean(r')
    ensures Alike(Adopting(a, r, epoch, signature, anew), Adopting(b, r', epoch, signature, anew))
  {
    hide Glance, Apply, Recorded, Plain;
    var seeded := r.seed.Absorbed?;
    var d, e := Apply(a.disk, Bind(r.name, r.native, seeded)), Apply(b.disk, Bind(r.name, r.native, seeded));
    BoundAlike(a.disk, b.disk, r.name, r.native, seeded);
    MarkedAlike(d, e, r.name, |a.disk.log| - 1, |b.disk.log| - 1);
    var t := a.(disk := if seeded then Apply(d, MarkSynced(r.name, |a.disk.log| - 1)) else d,
                crew := Manned(a.crew, r, epoch, signature, a.turn));
    var u := b.(disk := if seeded then Apply(e, MarkSynced(r.name, |b.disk.log| - 1)) else e,
                crew := Manned(b.crew, r', epoch, signature, b.turn));
    assert Bare(t.crew) == Manned(Bare(a.crew), Lean(r), epoch, signature, a.turn);
    assert Bare(u.crew) == Manned(Bare(b.crew), Lean(r), epoch, signature, b.turn);
    LoggedAlike(t, u, Plain(Config, r.name, "launch"));
    LoggedAlike(Logged(t, Plain(Config, r.name, "launch")), Logged(u, Plain(Config, r.name, "launch")),
                Plain(NewSession, r.name, ""));
  }

  lemma ReseedingAlike(a: Desk, b: Desk, rung: Pick, r: Reply)
    requires Alike(a, b)
    ensures Alike(Reseeding(a, rung, r), Reseeding(b, rung, r))
  {
    hide Glance, Bare, Logged, Plain, Numbered, Hearing, Adopting;
    var e := Plain(Config, rung.provider, "reseed");
    LoggedAlike(a, b, e);
    NumberedAlike(Logged(a, e), Logged(b, e));
    NumberedAlike(a, b);
    var t, u := Numbered(Logged(a, e)), Numbered(Logged(b, e));
    SameIds(t.disk, u.disk, rung.provider);
    if ComesUp(t, r.second, rung.provider, "") {
      HearingAlike(t, u, rung.provider, "", 0, 0, r.second.value);
      var up := Started(r.second.value, "", 0);
      AdoptingAlike(Hearing(t, rung.provider, "", 0, r.second.value), Hearing(u, rung.provider, "", 0, r.second.value),
                    up, up, a.crew.next, Wanted(a, rung), true);
    }
  }

  lemma ResumingAlike(a: Desk, b: Desk, rung: Pick, native: string, since: int, other: int, r: Reply)
    requires Alike(a, b)
    ensures Alike(Resuming(a, rung, native, since, r), Resuming(b, rung, native, other, r))
  {
    hide Glance, Bare, Logged, Plain, Numbered, Hearing, Adopting, Reseeding;
    NumberedAlike(a, b);
    var t, u := Numbered(a), Numbered(b);
    SameIds(t.disk, u.disk, rung.provider);
    if ComesUp(t, r.first, rung.provider, native) {
      HearingAlike(t, u, rung.provider, native, since, other, r.first.value);
      var up, up' := Hearing(t, rung.provider, native, since, r.first.value), Hearing(u, rung.provider, native, other,
          r.first.value);
      ReseedingAlike(up, up', rung, r);
      AdoptingAlike(up, up', Started(r.first.value, native, since), Started(r.first.value, native, other), a.crew.next,
                    Wanted(a, rung), native == "");
    }
  }

  lemma UnparkedAlike(a: Desk, b: Desk, provider: string, seeded: bool)
    requires Alike(a, b) && provider in a.crew.parked && provider in b.crew.parked
    ensures Alike(Unparked(a, provider, seeded), Unparked(b, provider, seeded))
  {
    hide Glance, Apply, Bare, HistoryFor;
    SameParked(a.crew, b.crew, provider);
    BareUnparked(a.crew, provider);
    BareUnparked(b.crew, provider);
    var p, q := a.crew.parked[provider], b.crew.parked[provider];
    var w := Hear(provider, p.runner.native, false, HistoryFor(a.disk, provider, p.synced + 1, true));
    var w' := Hear(provider, q.runner.native, false, HistoryFor(b.disk, provider, q.synced + 1, true));
    GlanceHeard(a.disk, provider, p.runner.native, false, HistoryFor(a.disk, provider, p.synced + 1, true));
    GlanceHeard(b.disk, provider, q.runner.native, false, HistoryFor(b.disk, provider, q.synced + 1, true));
    MarkedAlike(Apply(a.disk, w), Apply(b.disk, w'), provider, |a.disk.log| - 1, |b.disk.log| - 1);
  }

  lemma ComingUpAlike(a: Desk, b: Desk, rung: Pick, r: Reply)
    requires Alike(a, b)
    ensures Alike(ComingUp(a, rung, r), ComingUp(b, rung, r))
  {
    hide Glance, Bare, Unparked, Adopting, Resuming, Synced, BoundId;
    var name := rung.provider;
    SameIds(a.disk, b.disk, name);
    SameParked(a.crew, b.crew, name);
    var native := BoundId(a.disk.meta, name);
    var since, other := Synced(a.disk.meta, name) + 1, Synced(b.disk.meta, name) + 1;
    if name in a.crew.parked && a.crew.parked[name].signature.config == a.config && r.alive && r.told {
      UnparkedAlike(a, b, name, r.seeded);
      var t, u, p, q := Unparked(a, name, r.seeded), Unparked(b, name, r.seeded), a.crew.parked[name],
          b.crew.parked[name];
      AdoptingAlike(t, u, Refreshed(p.runner, r.seeded), Refreshed(q.runner, r.seeded), p.epoch, Wanted(a, rung),
                    false);
      ResumingAlike(t, u, rung, native, since, other, r);
    } else {
      BareUnparked(a.crew, name);
      BareUnparked(b.crew, name);
      ResumingAlike(a.(crew := a.crew.(parked := a.crew.parked - {name})),
                    b.(crew := b.crew.(parked := b.crew.parked - {name})), rung,
                    native, since, other, r);
    }
  }

  lemma GlanceTaken(d: Disk, c: Crew)
    requires c.runner.Some?
    ensures Glance(TakenIn(d, c)) == Glance(d)
  {
  }

  lemma SeedingAlike(a: Desk, b: Desk)
    requires Alike(a, b)
    ensures Alike(Seeding(a), Seeding(b))
    ensures Seeding(a).line == a.line && Seeding(a).inTurn == a.inTurn && Seeding(a).turn == a.turn
    ensures Seeding(b).line == b.line && Seeding(b).inTurn == b.inTurn && Seeding(b).turn == b.turn
  {
    hide Glance, TakenIn;
    if a.crew.runner.Some? {
      GlanceTaken(a.disk, a.crew);
      GlanceTaken(b.disk, b.crew);
      assert Bare(Settled(a.crew)) == Bare(a.crew).(runner := Some(Lean(a.crew.runner.value).(seed := Absorbed)));
      assert Bare(Settled(b.crew)) == Bare(b.crew).(runner := Some(Lean(b.crew.runner.value).(seed := Absorbed)));
    }
  }

  lemma OfferingAlike(a: Desk, b: Desk, answer: Answer)
    requires Alike(a, b) && a.line.outbox != []
    ensures Alike(Offering(a, answer), Offering(b, answer))
  {
    hide Glance, Bare, Opened, Logged, Fails, LosesLogin, Opening, Delivered, Written, Seeding;
    SameFill(a.crew, b.crew, Plain(End, "", ""), a.turn, 0);
    match answer
    case Took(how) =>
      var m := a.line.outbox[0];
      SeedingAlike(a, b);
      var t, u := Seeding(a), Seeding(b);
      OpenedAlike(t, u, Opening(m, a.inTurn, a.turn), m.id, Delivered(a.line, how.NextTurn? && a.inTurn));
    case Refused(why) =>
      var name := Blamed(a.crew, "");
      var e := Conducting.Failed(why, name, "the message was not taken");
      LoggedAlike(a, b, e);
      FailsAlike(Logged(a, e), Logged(b, e), name);
  }

  lemma AccusingAlike(a: Desk, b: Desk, culprit: Option<Pick>)
    requires Alike(a, b)
    ensures Alike(Accusing(a, culprit), Accusing(b, culprit))
  {
    hide Glance, Bare, SetAside, Logged, Conducting.Failed;
    LoggedAlike(a, b, Conducting.Failed(Crash, "", "could not start a provider"));
    if culprit.Some? {
      var e := Conducting.Failed(Crash, culprit.value.provider, "could not start a provider");
      LoggedAlike(a, b, e);
      SetAsideAlike(Logged(a, e), Logged(b, e), culprit.value.provider, "would not start");
    }
  }

  /** Going on to the same point leaves them alike. */
  lemma AtAlike(a: Desk, b: Desk, at: Point)
    requires Alike(a, b)
    ensures Alike(a.(at := at), b.(at := at)) && a.at == b.at
    ensures a.line == b.line && a.inTurn == b.inTurn && a.providers == b.providers && a.autoremove == b.autoremove
    ensures a.turnFailed == b.turnFailed && a.launched == b.launched
  {
    hide Glance, Bare;
  }

  lemma FlushingAlike(a: Desk, b: Desk, r: Reply)
    requires Alike(a, b)
    ensures Alike(Readying(a, r), Readying(b, r))
  {
    hide Alike, OnDial, Stale, Conducting.Failed, Logged;
    SameDial(a, b, r.rung);
    var e := Conducting.Failed(Crash, "", "nothing is running");
    LoggedAlike(a, b, e);
    AtAlike(Logged(a, e), Logged(b, e), Idle);
    AtAlike(a, b, Handing);
    AtAlike(a, b, Idle);
  }

  lemma StepAlike(a: Desk, b: Desk, r: Reply)
    requires Alike(a, b)
    ensures Alike(Step(a, r), Step(b, r))
  {
    hide Alike, Rebuilding, ComingUp, SetAside, TakenOff, Offering, Accusing, OnDial, Stale, Readying;
    SameDial(a, b, r.rung);
    AtAlike(a, b, Flushing);
    AtAlike(a, b, Attempting);
    match a.at
    case Flushing => FlushingAlike(a, b, r);
    case Handing => if a.line.outbox != [] { OfferingAlike(a, b, r.answer); } else { AtAlike(a, b, Idle); }
    case Attempting => RebuildingAlike(a, b, r);
    case Launching(rung) => ComingUpAlike(a, b, rung, r);
    case Blaming => AccusingAlike(a, b, OnDial(a, r.rung));
    case GivingWay(name) => SetAsideAlike(a, b, name, "failed");
    case MovingOff(name) => TakenOffAlike(a, b, name);
    case _ =>
  }

  lemma AnsweringAlike(a: Desk, b: Desk)
    requires Alike(a, b)
    ensures Alike(Answering(a), Answering(b))
  {
    hide Glance, Bare, Apply, Answered, Marking;
    SameFill(a.crew, b.crew, Plain(End, "", ""), a.turn, 0);
    if a.crew.runner.Some? {
      MarkingAlike(a.disk, b.disk, a.crew, b.crew);
    }
  }

  lemma MarkingAlike(d: Disk, e: Disk, a: Crew, b: Crew)
    requires Glance(d) == Glance(e) && InCharge(a) == InCharge(b) && a.runner.Some?
    ensures Glance(Apply(d, Marking(a, d.log))) == Glance(Apply(e, Marking(b, e.log)))
  {
    hide Glance, Apply;
    var r := a.runner.value;
    MarkedAlike(d, e, r.name, Ceiling(a.ceiling, d.log), Ceiling(b.ceiling, e.log));
    OvermarkedAlike(d, e, r.name, Ceiling(a.ceiling, d.log), Ceiling(b.ceiling, e.log));
  }

  lemma OvermarkedAlike(d: Disk, e: Disk, p: string, mark: int, other: int)
    requires Glance(d) == Glance(e)
    ensures Glance(Apply(d, Overmark(p, mark))) == Glance(Apply(e, Overmark(p, other)))
  {
    hide OnTime;
    SameIds(d, e, p);
    assert Ids(d.meta.natives[p := Native(BoundId(d.meta, p), mark)]) == Ids(d.meta.natives)[p := BoundId(d.meta, p)];
    assert Ids(e.meta.natives[p := Native(BoundId(e.meta, p), other)]) == Ids(e.meta.natives)[p := BoundId(e.meta, p)];
  }

  lemma EndingAlike(a: Desk, b: Desk, provider: string)
    requires Alike(a, b)
    ensures Alike(Ending(a, provider), Ending(b, provider))
  {
    hide Glance, Bare, Fails, Answering;
    var t, u := a.(turnRecorded := false, turnFailed := None), b.(turnRecorded := false, turnFailed := None);
    FailsAlike(t, u, provider);
    AnsweringAlike(t, u);
  }

  lemma FailedAlike(a: Desk, b: Desk, why: Option<Failure>)
    requires Alike(a, b)
    ensures Alike(a.(turnFailed := why), b.(turnFailed := why))
  {
    hide Glance, Bare;
  }

  lemma ReactingAlike(a: Desk, b: Desk, e: Event)
    requires Alike(a, b)
    ensures Alike(Reacting(a, e), Reacting(b, e))
  {
    hide Alike, Fails, LosesLogin, Ending, FromModel;
    AtAlike(a, b, a.at);
    FailedAlike(a, b, None);
    FailedAlike(a, b, Some(e.failure));
    FailsAlike(a, b, e.provider);
    EndingAlike(a, b, e.provider);
  }

  lemma HearsAlike(a: Desk, b: Desk, h: Heard)
    requires Alike(a, b) && !FromReplaced(a.crew, h)
    ensures Alike(Hears(a, h), Hears(b, h))
  {
    hide Glance, Bare, Opened, Reacting, Logged, Fill, Dated, Confirmation, Echo;
    match h
    case Confirmed(text, opening, provider, _, _) =>
      SameFill(a.crew, b.crew, Plain(End, "", ""), a.turn, 0);
      if a.line.awaiting != [] {
        var m, opens := a.line.awaiting[0], opening == Some(Start);
        OpenedAlike(a, b, Confirmation(m, opens, provider, a.turn), m.id, Echo(a.line, opens));
      }
    case Reported(event, _, epoch, _) =>
      SameFill(a.crew, b.crew, event, a.turn, epoch);
      var e := Dated(event, a.crew, epoch);
      SameFill(a.crew, b.crew, e, a.turn, epoch);
      LoggedAlike(a, b, e);
      ReactingAlike(Logged(a, e), Logged(b, e), Fill(e, a.crew, a.turn));
  }

  lemma ChangedAlike(a: Desk, b: Desk, change: Change)
    requires Alike(a, b)
    ensures Alike(Changed(a, change), Changed(b, change))
  {
    hide Bare, Logged, Plain, OnTime, Ids;
    LoggedAlike(Set(a, change), Set(b, change), Plain(Config, "", ""));
  }

  /** What a replaced runner says can only be told from the log and the watermarks. */
  lemma OverheardAlike(s: Desk, h: Heard)
    requires FromReplaced(s.crew, h)
    ensures Alike(Hears(s, h), s)
  {
    hide Glance, Apply, Fill, Dated;
    if h.Reported? {
      var e := Fill(Dated(h.event, s.crew, h.epoch).(late := true), s.crew, s.turn);
      LateFilled(h.event, s.crew, h.epoch, s.turn);
      GlanceLogged(s.disk, e);
      assert Glance(s.disk).record + [] == Glance(s.disk).record;
      assert Bare(Holed(s.crew, |s.disk.log|)) == Bare(s.crew);
    }
  }

  lemma LateFilled(e: Event, c: Crew, epoch: nat, turn: int)
    ensures Fill(Dated(e, c, epoch).(late := true), c, turn).late
  {
  }

  lemma DoAlike(a: Desk, b: Desk, input: Input)
    requires Alike(a, b)
    ensures Late(a, input) <==> Late(b, input)
    ensures Alike(Do(a, input), if Late(a, input) then b else Do(b, input))
  {
    hide Glance, Bare, Step, Hears, Changed, Accepted;
    SameFill(a.crew, b.crew, Plain(End, "", ""), a.turn, 0);
    match input
    case Replied(reply) => StepAlike(a, b, reply);
    case Woken(wake) =>
      match wake
      case Launch => LaunchedAlike(a, b);
      case Sent(text) => AcceptedAlike(a, b, text);
      case Said(heard) => if Late(a, input) { OverheardAlike(a, heard); } else { HearsAlike(a, b, heard); }
      case Asked(change) => ChangedAlike(a, b, change);
      case TimedOut =>
  }

  lemma LaunchedAlike(a: Desk, b: Desk)
    requires Alike(a, b)
    ensures Alike(a.(disk := Apply(a.disk, Write.Launched(false)), launched := true, at := Starting),
                  b.(disk := Apply(b.disk, Write.Launched(false)), launched := true, at := Starting))
  {
  }

  /**
   Wherever in a run replaced runners speak up, and whatever they say, the conductor
   goes on as if they had been silent: it has the same messages in the same queues,
   is in the same turn, has the same provider up, the same ones parked and the same
   ones set aside, has stored the same but for watermarks, and has logged the same
   but for what they said.
   */
  lemma {:induction false} StragglersChangeNothing(s: Desk, inputs: seq<Input>)
    ensures Alike(Play(s, inputs), Play(s, InTime(s, inputs)))
  {
    hide Alike, Do, Late;
    if inputs == [] {
      AlikeItself(s);
    } else {
      var init, last := inputs[..|inputs| - 1], inputs[|inputs| - 1];
      StragglersChangeNothing(s, init);
      DoAlike(Play(s, init), Play(s, InTime(s, init)), last);
      var kept := InTime(s, init);
      assert kept + [] == kept;
      assert (kept + [last])[..|kept + [last]| - 1] == kept;
    }
  }

  lemma AlikeItself(s: Desk)
    ensures Alike(s, s)
  {
  }

  // ------------------------------------------------------- the conductor does the same

  ghost function DeskOf(c: Chat, at: Point): Desk
    reads c
  {
    Desk(c.disk, c.crew, c.line, c.turn, c.inTurn, c.turnRecorded, c.turnFailed, c.providers, c.benched, c.autoremove,
         c.config,
         c.launched, at)
  }

  lemma AfterOne(before: seq<Write>, d: Disk, w: Write, d': Disk)
    requires Stored(before, d) && Stored(before + [w], d')
    ensures d' == Apply(d, w)
  {
    hide Apply, Legal;
    assert (before + [w])[..|before|] == before;
  }

  lemma AfterTwo(before: seq<Write>, d: Disk, v: Write, w: Write, d': Disk)
    requires Stored(before, d) && Stored(before + [v] + [w], d')
    ensures d' == Apply(Apply(d, v), w)
  {
    hide Apply, Allowed;
    assert (before + [v] + [w])[..|before| + 1] == before + [v];
    AfterOne(before, d, v, Replay(before + [v]));
    AfterOne(before + [v], Replay(before + [v]), w, d');
  }

  method AcceptingIsThis(c: Chat, text: string) returns (ok: bool)
    requires c.Valid() && !c.stopping
    modifies c
    ensures ok ==> DeskOf(c, Dispatching) == Accepted(old(DeskOf(c, Idle)), text)
  {
    hide Apply, Stored, Unbroken, Manners.Sane, AllPermitted;
    ok := c.Enqueue(text);
    if ok { AfterOne(old(c.journal), old(c.disk), Enqueue(text), c.disk); }
  }

  lemma OpeningTurn(m: Msg, joining: bool, provider: string, c: Crew, turn: int)
    requires turn >= -1
    ensures Max(turn, Fill(Opening(m, joining, turn), c, turn).turn) == if joining then turn else turn + 1
    ensures Max(turn, Fill(Confirmation(m, !joining, provider, turn), c, turn).turn) == if joining then turn
              else turn + 1
  {
  }

  method TakingIsThis(c: Chat, nextTurn: bool) returns (ok: bool)
    requires c.Valid() && !c.stopping && c.line.outbox != [] && c.crew.runner.Some? && c.recovery.None?
    modifies c
    ensures ok ==> DeskOf(c, Handing) == TakenAtOnce(old(DeskOf(c, Handing)), nextTurn)
  {
    hide Apply, Stored, Unbroken, Manners.Sane, AllPermitted, Crewed, Queued, Manners.Mannered, LogTurn, Fill, Opening,
        Delivered, Owning;
    c.Known();
    TurnKnown(c.disk, c.crew, c.turn);
    OpeningTurn(c.line.outbox[0], c.inTurn, "", c.crew, c.turn);
    ghost var e, m := Fill(Opening(c.line.outbox[0], c.inTurn, c.turn), c.crew, c.turn), c.line.outbox[0];
    ok := c.Deliver(nextTurn);
    if ok { AfterTwo(old(c.journal), old(c.disk), Append(e), Complete(m.id), c.disk); }
  }

  method SeedingIsThis(c: Chat)
    requires c.Valid() && !c.terminal && c.crew.runner.Some?
    modifies c
    ensures DeskOf(c, Handing) == Seeding(old(DeskOf(c, Handing)))
  {
    hide Apply, Stored, Unbroken, Manners.Sane, AllPermitted, TakenIn, Ceiling;
    c.TakeSeed();
  }

  method WritingIsThis(c: Chat)
    requires c.Valid() && !c.stopping && c.line.outbox != [] && c.crew.runner.Some? && c.recovery.None?
    modifies c
    ensures DeskOf(c, Handing) == WrittenOut(old(DeskOf(c, Handing)))
  {
    hide Apply, Stored, Unbroken, Manners.Sane, AllPermitted;
    c.AwaitEcho();
  }

  method ConfirmingIsThis(c: Chat, opens: bool, provider: string) returns (ok: bool)
    requires c.Valid() && !c.terminal && c.line.awaiting != []
    requires c.crew.runner.Some? ==> provider == "" || provider == c.crew.runner.value.name
    modifies c
    ensures ok ==>
              var opening := Some(if opens then Start else Injected);
              DeskOf(c, Idle) == old(Confirming(DeskOf(c, Idle), c.line.awaiting[0].text, opening, provider))
  {
    hide Apply, Stored, Unbroken, Manners.Sane, AllPermitted, Crewed, Queued, Manners.Mannered, LogTurn, Fill,
        Confirmation, Echo, Owning;
    c.Known();
    TurnKnown(c.disk, c.crew, c.turn);
    OpeningTurn(c.line.awaiting[0], !opens, provider, c.crew, c.turn);
    ghost var e, m := Fill(Confirmation(c.line.awaiting[0], opens, provider, c.turn), c.crew,
                           c.turn), c.line.awaiting[0];
    ok := c.ConfirmHead(opens, provider);
    if ok { AfterTwo(old(c.journal), old(c.disk), Append(e), Complete(m.id), c.disk); }
  }

  method RetuningIsThis(c: Chat, rung: Pick) returns (ok: bool)
    requires c.Valid() && !c.stopping && c.crew.runner.Some? && c.crew.current.Some?
    requires c.crew.current.value.provider == rung.provider
    modifies c
    ensures ok ==> DeskOf(c, Flushing) == Retuning(old(DeskOf(c, Attempting)), rung)
  {
    hide Recorded, Manners.Sane, AllPermitted, Stored, Unbroken;
    ok := c.Retune(rung);
  }

  method PuttingAsideIsThis(c: Chat) returns (ok: bool)
    requires c.Valid() && !c.stopping && c.crew.runner.Some? && (c.inTurn ==> Manners.Abandoned in c.habits.slips)
    modifies c
    ensures ok ==> exists parkable :: DeskOf(c, Attempting) == PutAside(old(DeskOf(c, Attempting)), parkable)
  {
    hide Recorded, Apply, Manners.Sane, AllPermitted, Stored, Unbroken, LetGo, Synced;
    ghost var was := DeskOf(c, Attempting);
    ok := c.Park();
    if ok {
      assert DeskOf(c, Attempting) == PutAside(was, true) || DeskOf(c, Attempting) == PutAside(was, false);
    }
  }

  method AdoptingIsThis(c: Chat, runner: Runner, epoch: nat, signature: Signature, anew: bool) returns (ok: bool)
    requires c.Valid() && !c.stopping && Adoptable(c.crew, runner, epoch, signature)
    requires Trusted(c.disk, runner) ==> HoldsUpTo(c.disk, runner.name, runner.native, |c.disk.log|)
    modifies c
    ensures ok ==>
              DeskOf(c, Flushing) == Adopting(old(DeskOf(c, Attempting)), runner, epoch, signature, anew)
  {
    hide Adopted, Manned, HoldsUpTo, Manners.Sane, AllPermitted, Stored, Unbroken;
    ok := c.Adopt(runner, epoch, signature, anew);
  }

  method MovingIsThis(c: Chat, name: string, why: string) returns (ok: bool)
    requires c.Valid() && !c.stopping
    modifies c
    ensures ok ==> DeskOf(c, Idle) == MovedFrom(old(DeskOf(c, Idle)), name, why)
  {
    hide Recorded, Manners.Sane, AllPermitted, Stored, Unbroken;
    ok := c.MovedOn(name, why);
  }

  method TakingBackIsThis(c: Chat) returns (ok: bool)
    requires c.Valid() && !c.terminal && c.recovery.None?
    modifies c
    ensures ok ==> DeskOf(c, Idle) == Shut(old(DeskOf(c, Idle))).(turnFailed := old(c.turnFailed))
  {
    hide Apply, Stored, Unbroken, Manners.Sane, AllPermitted, Flat, Stamp;
    ok := c.TakeBack(c.autoremove);
  }

  method AnsweringIsThis(c: Chat) returns (idle: bool)
    requires c.Valid() && !c.stopping && !c.turnRecorded && c.recovery.None?
    modifies c
    ensures !c.terminal ==> DeskOf(c, if idle then Finishing else Idle) == Answering(old(DeskOf(c, Idle)))
  {
    hide Apply, Stored, Unbroken, Manners.Sane, AllPermitted, Answered, Ceiling;
    idle := c.CloseAnswered();
  }

  method OverhearingIsThis(c: Chat, h: Heard) returns (ok: bool)
    requires c.Valid() && !c.terminal && h.Reported? && Unnumbered(h.event) && FromReplaced(c.crew, h)
    modifies c
    ensures ok ==> DeskOf(c, Idle) == Hears(old(DeskOf(c, Idle)), h)
  {
    hide Apply, Stored, Unbroken, Manners.Sane, AllPermitted, Fill, Dated, IsHistory;
    ok := c.Overhear(h.event, h.epoch);
  }
}
