/**
 The durable side of one session: the append-only event log, the metadata file
 that is replaced whole, and every write the conductor can make to them.

 A session's life is a journal of such writes. `Replay` says what is on disk
 after a journal and `Legal` which journals a conductor may produce; because a
 crash leaves a prefix of the journal behind, whatever holds of every legal
 journal holds at every durable-write boundary.
 */
module Session {
  import opened Options

  // ---------------------------------------------------------------- entities

  /** Delivery ids are drawn once and never again, so they are numbered in order of issue. */
  type Id = nat

  datatype Msg = Msg(id: Id, text: string)

  datatype Kind =
    | Start | Injected | Text | Thinking | ToolCall | ToolResult
    | End | Error | SwitchProvider | NewSession | Config

  datatype Failure = ContextLimit | Crash | Auth | Limit | Unavailable | Other

  /** One log record. Its sequence number is its position in the log. */
  datatype Event = Event(
    kind: Kind, text: string, provider: string, turn: int, late: bool, msg: Option<Id>,
    failure: Failure, willRetry: bool, interrupted: bool, unfinished: bool)

  datatype Stage = Compacting | Retrying | Handoff | Continuing | Resuming

  datatype Recovery = Recovery(stage: Stage, messageId: Option<Id>, retry: string)

  /** The id of a provider's own session, and its watermark: the last position it counts as told. */
  datatype Native = Native(id: string, synced: int)

  datatype Meta = Meta(
    pending: seq<Msg>, natives: map<string, Native>, recovery: Option<Recovery>,
    historyStart: nat, active: Option<seq<string>>)

  /** What one native conversation of one provider is called. */
  type Conversation = (string, string)

  /**
   `log` and `meta` are what is stored. The rest is history the program never
   reads: the text behind each id, which ids recovery made up (`synth`) or gave
   up (`retired`), the log positions each native conversation holds (`told`), the
   providers whose watermark cannot be trusted for now (`broken`), whether a
   recovery was under way since the session was last opened (`rewritten`),
   whether the launch that takes an earlier process's recovery up is still to
   come (`cold`), and whether that launch has still to hand off again (`again`).
   */
  datatype Disk = Disk(
    log: seq<Event>, meta: Meta,
    issued: seq<string>, synth: set<Id>, retired: set<Id>,
    told: map<Conversation, set<nat>>, broken: set<string>,
    rewritten: bool, cold: bool, again: bool)

  const EMPTY: Disk := Disk([], Meta([], map[], None, 0, None), [], {}, {}, map[], {}, false, false, false)

  // ----------------------------------------------------------------- queries

  predicate IsHistory(e: Event) {
    e.kind.Start? || e.kind.Injected? || e.kind.Text? || e.kind.Thinking? || e.kind.ToolCall? || e.kind.ToolResult?
  }

  predicate Opens(e: Event) { e.kind.Start? || e.kind.Injected? }

  predicate FromModel(e: Event) {
    e.kind.Text? || e.kind.Thinking? || e.kind.ToolCall? || e.kind.ToolResult?
  }

  function Max(a: int, b: int): int { if a >= b then a else b }

  /** The newest turn in the log. A record without a turn number counts its START. */
  function LogTurn(log: seq<Event>): int {
    if log == [] then -1 else
      var before := LogTurn(log[..|log| - 1]);
      var e := log[|log| - 1];
      if e.turn >= 0 then Max(before, e.turn)
      else if e.kind.Start? then before + 1
      else before
  }

  function OpenedIds(log: seq<Event>): set<Id> {
    set k | 0 <= k < |log| && log[k].msg.Some? :: log[k].msg.value
  }

  function PendingIds(ms: seq<Msg>): set<Id> {
    set k | 0 <= k < |ms| :: ms[k].id
  }

  /** Queue order kept, every message with one of these ids gone. */
  function Without(ms: seq<Msg>, gone: set<Id>): seq<Msg> {
    if ms == [] then []
    else if ms[0].id in gone then Without(ms[1..], gone)
    else [ms[0]] + Without(ms[1..], gone)
  }

  /** Texts under fresh ids, counted up from `next`. */
  function Stamp(texts: seq<string>, next: Id): seq<Msg> {
    if texts == [] then [] else [Msg(next, texts[0])] + Stamp(texts[1..], next + 1)
  }

  lemma {:induction false} Stamped(texts: seq<string>, next: Id)
    ensures |Stamp(texts, next)| == |texts|
    ensures forall k :: 0 <= k < |texts| ==> Stamp(texts, next)[k] == Msg(next + k, texts[k])
  {
    if texts != [] {
      Stamped(texts[1..], next + 1);
    }
  }

  function BoundId(meta: Meta, provider: string): string {
    if provider in meta.natives then meta.natives[provider].id else ""
  }

  function Synced(meta: Meta, provider: string): int {
    if provider in meta.natives then meta.natives[provider].synced else -1
  }

  function Told(d: Disk, provider: string, native: string): set<nat> {
    if (provider, native) in d.told then d.told[(provider, native)] else {}
  }

  /** Is position `k` conversation that a fresh native session would be told? */
  predicate InScope(d: Disk, k: nat) {
    d.meta.historyStart <= k < |d.log| && IsHistory(d.log[k])
  }

  /** Did this provider produce or take event `k` while it was the one running? */
  predicate Own(d: Disk, provider: string, k: nat)
    requires k < |d.log|
  {
    !d.log[k].late && d.log[k].provider == provider
  }

  /** What the conductor assumes the bound native session of `provider` already holds. */
  predicate Presumed(d: Disk, provider: string, k: nat) {
    InScope(d, k) && (k <= Synced(d.meta, provider) || Own(d, provider, k))
  }

  ghost predicate Covers(d: Disk, provider: string, native: string) {
    forall k: nat {:trigger Presumed(d, provider, k)} :: Presumed(d, provider, k) ==> k in Told(d, provider, native)
  }

  /** Watermark soundness: a bound native session holds all it is presumed to hold. */
  ghost predicate Covered(d: Disk) {
    forall p: string {:trigger BoundId(d.meta, p)} ::
      p !in d.broken && BoundId(d.meta, p) != "" ==> Covers(d, p, BoundId(d.meta, p))
  }

  /** The providers left with a watermark and no native session it could belong to. */
  function Unreleased(meta: Meta): set<string> {
    set p | p in meta.natives && meta.natives[p].id == "" && meta.natives[p].synced != -1
  }

  /** A provider whose watermark can be trusted and that has no native session has no watermark either. */
  predicate Released(d: Disk) { Unreleased(d.meta) <= d.broken }

  /** The history a native session is handed: everything asked for, less what a resumed one produced itself. */
  function HistoryFor(d: Disk, provider: string, since: int, continuing: bool): set<nat> {
    set k: nat | k < |d.log| && since <= k && InScope(d, k) && (!continuing || !Own(d, provider, k))
  }

  // ----------------------------------------------------- text for recovery

  /** What a handoff carries over: what was said, by either side, since history was last restarted. */
  function CarriedTexts(log: seq<Event>, start: nat): seq<string> {
    if log == [] then []
    else
      var e := log[|log| - 1];
      CarriedTexts(log[..|log| - 1], start) +
      if start < |log| && (Opens(e) || e.kind.Text?) then [e.text] else []
  }

  /** The user's part of one turn since history was last restarted. */
  function AskedTexts(log: seq<Event>, start: nat, turn: int): seq<string> {
    if log == [] then []
    else
      var e := log[|log| - 1];
      AskedTexts(log[..|log| - 1], start, turn) +
      if start < |log| && Opens(e) && e.turn == turn then [e.text] else []
  }

  function Joined(texts: seq<string>): string {
    if texts == [] then ""
    else if |texts| == 1 then texts[0]
    else texts[0] + "\n\n" + Joined(texts[1..])
  }

  /** Is `part` in `text`, word for word? */
  ghost predicate Contains(text: string, part: string) { exists before, after :: text == before + part + after }

  ghost predicate ContainsAll(text: string, parts: seq<string>) { forall part | part in parts :: Contains(text, part) }

  // ----------------------------------------------------- reading the log back

  /** Where the message with this id was taken, at or after `from`. */
  function OpeningOf(log: seq<Event>, from: nat, id: Id): (k: Option<nat>)
    ensures k.Some? ==> from <= k.value < |log| && log[k.value].msg == Some(id)
    ensures k.None? ==> forall j :: from <= j < |log| ==> log[j].msg != Some(id)
    ensures k.Some? ==> forall j :: from <= j < k.value ==> log[j].msg != Some(id)
    decreases |log| - from
  {
    if from >= |log| then None
    else if log[from].msg == Some(id) then Some(from)
    else OpeningOf(log, from + 1, id)
  }

  predicate Ends(e: Event, turn: int) { e.kind.End? && e.turn == turn && !e.late }

  /** Where that turn first ended. */
  function EndOf(log: seq<Event>, from: nat, turn: int): (k: Option<nat>)
    ensures k.Some? ==> from <= k.value < |log| && Ends(log[k.value], turn)
    ensures forall j :: from <= j < (if k.Some? then k.value else |log|) ==> !Ends(log[j], turn)
    decreases |log| - from
  {
    if from >= |log| then None
    else if Ends(log[from], turn) then Some(from)
    else EndOf(log, from + 1, turn)
  }

  /** Is this a failure recovery takes to heart? */
  predicate Final(e: Event) { e.kind.Error? && !e.failure.Other? && !e.willRetry }

  /** What one event of a recovery turn does to the failure it will end on. */
  function Noticed(failure: Option<Failure>, e: Event, turn: int): Option<Failure> {
    if e.turn != turn || e.late then failure
    else if Final(e) then Some(e.failure)
    else if FromModel(e) then None
    else failure
  }

  /** The failure a turn ended on, read back from the log. */
  function FailureIn(log: seq<Event>, from: nat, to: nat, turn: int): Option<Failure>
    requires from <= to <= |log|
  {
    if from == to then None else Noticed(FailureIn(log, from, to - 1, turn), log[to - 1], turn)
  }

  /** How far a message got before the process that sent it was gone. */
  datatype Reach = NotTaken | CutShort | Over(end: nat, failure: Option<Failure>)

  function HowFar(log: seq<Event>, start: nat, id: Id): (reach: Reach)
    ensures reach.Over? ==> reach.end < |log|
  {
    match OpeningOf(log, start, id)
    case None => NotTaken
    case Some(opening) =>
      var end := EndOf(log, opening + 1, log[opening].turn);
      // What was said during an interrupted turn is not to be lost by repeating only its opening.
      if end.None? || log[end.value].interrupted then CutShort
      else Over(end.value, FailureIn(log, opening + 1, end.value, log[opening].turn))
  }

  /** Was recovery's own message taken by a turn that never came to its own end? */
  predicate RecoveryCutShort(d: Disk) {
    && d.meta.recovery.Some? && d.meta.recovery.value.messageId.Some?
    && HowFar(d.log, d.meta.historyStart, d.meta.recovery.value.messageId.value).CutShort?
  }

  // ------------------------------------------------------------------ writes

  datatype Write =
    | Append(event: Event)
    | Enqueue(text: string)
    | Complete(id: Id)
    | Reconcile
    | Retry(texts: seq<string>)
    | Recover(next: Option<Recovery>, since: Option<nat>, message: Option<string>, superseded: Option<Id>)
    | Bind(provider: string, native: string, seeded: bool)
    | MarkSynced(provider: string, mark: int)
    // The mark is given up although the session it belongs to could not be.
    | Unmark(provider: string)
    // The mark is raised over history the session has still to take in.
    | Overmark(provider: string, mark: int)
    | SetActive(providers: seq<string>)
    | SetSetting
    // Not writes: a native conversation takes history in, one opened anew has taken in the
    // whole of it, the launch looks at a recovery, a new process opens the session.
    | Hear(provider: string, native: string, anew: bool, positions: set<nat>)
    | Seeded(provider: string)
    | Launched(again: bool)
    | Reopen

  function Gone(superseded: Option<Id>): set<Id> {
    if superseded.Some? then {superseded.value} else {}
  }

  function Apply(d: Disk, w: Write): Disk {
    match w
    case Append(e) =>
      var native := BoundId(d.meta, e.provider);
      // A running provider's own event is in its conversation, and so is a message it took.
      var told := if IsHistory(e) && !e.late && native != ""
                  then d.told[(e.provider, native) := Told(d, e.provider, native) + {|d.log|}]
                  else d.told;
      d.(log := d.log + [e], told := told)
    case Enqueue(text) =>
      d.(meta := d.meta.(pending := d.meta.pending + [Msg(|d.issued|, text)]), issued := d.issued + [text])
    case Complete(id) =>
      d.(meta := d.meta.(pending := Without(d.meta.pending, {id})))
    case Reconcile =>
      d.(meta := d.meta.(pending := Without(d.meta.pending, OpenedIds(d.log))))
    case Retry(texts) =>
      d.(meta := d.meta.(pending := Stamp(texts, |d.issued|) + d.meta.pending), issued := d.issued + texts)
    case Recover(next, since, message, superseded) =>
      var kept := Without(d.meta.pending, Gone(superseded));
      d.(meta := Meta(
           if message.Some? then [Msg(|d.issued|, message.value)] + kept else kept,
           if since.Some? then map[] else d.meta.natives,
           next,
           if since.Some? then since.value else d.meta.historyStart,
           d.meta.active),
         issued := if message.Some? then d.issued + [message.value] else d.issued,
         synth := if message.Some? then d.synth + {|d.issued|} else d.synth,
         retired := d.retired + Gone(superseded),
         broken := if since.Some? then {} else d.broken,
         rewritten := true, again := false)
    case Bind(p, native, seeded) =>
      d.(meta := d.meta.(natives := d.meta.natives[p := Native(native, Synced(d.meta, p))]),
         broken := if seeded || native == BoundId(d.meta, p) then d.broken else d.broken + {p})
    case MarkSynced(p, s) =>
      d.(meta := d.meta.(natives := d.meta.natives[p := Native(BoundId(d.meta, p), s)]),
         broken := if s == -1 && BoundId(d.meta, p) == "" then d.broken - {p} else d.broken)
    case Unmark(p) =>
      d.(meta := d.meta.(natives := d.meta.natives[p := Native(BoundId(d.meta, p), -1)]))
    case Overmark(p, s) =>
      d.(meta := d.meta.(natives := d.meta.natives[p := Native(BoundId(d.meta, p), s)]), broken := d.broken + {p})
    case SetActive(ps) => d.(meta := d.meta.(active := Some(ps)))
    case SetSetting => d
    case Hear(p, native, anew, positions) =>
      d.(told := d.told[(p, native) := if anew then positions else Told(d, p, native) + positions])
    case Seeded(p) => d.(broken := d.broken - {p})
    case Launched(again) => d.(cold := false, again := again)
    case Reopen =>
      d.(cold := true, again := false, rewritten := d.meta.recovery.Some?, broken := d.broken + Unreleased(d.meta))
  }

  /** Neither of the two is nearer its launch or its recovery than the other. */
  predicate SamePhase(d: Disk, d': Disk) { d'.cold == d.cold && d'.again == d.again && d'.rewritten == d.rewritten }

  // ------------------------------------------------------------- legal writes

  /**
   The stages of context recovery, in the order an episode passes through them, but for
   one that is handed off `again`.
   */
  predicate StageStep(was: Option<Recovery>, next: Option<Recovery>, again: bool) {
    match next
    case None => was.Some?
    case Some(n) =>
      match was
      case None => n.stage.Compacting?
      case Some(w) =>
        || (match w.stage
            case Compacting => n.stage.Retrying? || n.stage.Handoff?
            case Retrying => n.stage.Handoff?
            case Handoff => n.stage.Continuing?
            case Continuing => n.stage.Resuming?
            case Resuming => n.stage.Resuming?)
        || (again && n.stage.Handoff?)
  }

  /** A retry that recovery wrote itself is replaced by the handoff that follows it. */
  function Superseded(was: Option<Recovery>, next: Option<Recovery>): Option<Id> {
    if next.Some? && next.value.stage.Handoff? && was.Some? && was.value.stage.Retrying? && was.value.retry != ""
    then was.value.messageId
    else None
  }

  /** What a recovery record has to look like when it is written. */
  ghost predicate RecoverFits(d: Disk, next: Option<Recovery>, since: Option<nat>, message: Option<string>) {
    match next
    case None => since.None? && message.None?
    case Some(n) =>
      if n.stage.Compacting? then
        && since.None? && message.None? && n.messageId.None?
        && (n.retry == "" || n.retry == Joined(AskedTexts(d.log, d.meta.historyStart, LogTurn(d.log))))
      else
        && (since.Some? <==> n.stage.Handoff? || n.stage.Continuing?)
        && (since.Some? ==> message.Some? && since.value == |d.log|)
        && (message.Some? ==>
              && n.messageId == Some(|d.issued|)
              && n.retry == if n.stage.Retrying? then message.value else "")
        && (n.stage.Handoff? ==> ContainsAll(message.value, CarriedTexts(d.log, d.meta.historyStart)))
        && (message.Some? && n.stage.Retrying? ==>
              d.meta.recovery.Some? && message.value == d.meta.recovery.value.retry != "")
        && (message.None? ==> n.messageId.Some? && n.messageId.value in PendingIds(d.meta.pending) && n.retry == "")
  }

  ghost predicate Allowed(d: Disk, w: Write) {
    match w
    case Append(e) =>
      && (Opens(e) <==> e.msg.Some?)
      && (e.msg.Some? ==> !e.late && Msg(e.msg.value, e.text) in d.meta.pending && e.msg.value !in OpenedIds(d.log))
      && (e.kind.Start? ==> e.turn == LogTurn(d.log) + 1)
      && (!e.kind.Start? && !e.late ==> e.turn == LogTurn(d.log))
      && (e.late ==> e.turn <= LogTurn(d.log))
    case Enqueue(_) => true
    case Complete(id) => id in OpenedIds(d.log)
    case Reconcile => true
    case Retry(_) => d.meta.recovery.None?
    case Recover(next, since, message, superseded) =>
      && StageStep(d.meta.recovery, next, d.again)
      && superseded == Superseded(d.meta.recovery, next)
      && RecoverFits(d, next, since, message)
    case Bind(p, native, seeded) =>
      p !in d.broken && seeded && native != "" ==> Covers(d, p, native)
    case MarkSynced(p, s) =>
      && -1 <= s < |d.log|
      && (s >= Synced(d.meta, p) || (s == -1 && BoundId(d.meta, p) == ""))
      && (p !in d.broken && BoundId(d.meta, p) != "" ==>
            Covers(Apply(d, w), p, BoundId(d.meta, p)))
    case Unmark(p) => BoundId(d.meta, p) != ""
    case Overmark(p, s) => Synced(d.meta, p) <= s < |d.log|
    case SetActive(_) => true
    case SetSetting => true
    case Hear(p, native, anew, positions) =>
      && (anew ==> native != BoundId(d.meta, p))
      && (forall k | k in positions :: k < |d.log|)
    case Seeded(p) => BoundId(d.meta, p) != "" && Covers(d, p, BoundId(d.meta, p))
    case Launched(again) => d.cold && (again <==> RecoveryCutShort(d))
    case Reopen => true
  }

  function Replay(journal: seq<Write>): Disk {
    if journal == [] then EMPTY
    else Apply(Replay(journal[..|journal| - 1]), journal[|journal| - 1])
  }

  ghost predicate Legal(journal: seq<Write>) {
    journal == [] ||
    (Legal(journal[..|journal| - 1]) && Allowed(Replay(journal[..|journal| - 1]), journal[|journal| - 1]))
  }

  /** What is on disk is what the journal of writes left there. */
  ghost predicate Stored(journal: seq<Write>, d: Disk) {
    Legal(journal) && d == Replay(journal)
  }

  /** No other process has opened the session since position `from`. */
  predicate Unbroken(journal: seq<Write>, from: nat) {
    from <= |journal| && forall k :: from <= k < |journal| ==> !journal[k].Reopen?
  }

  /** One more allowed write keeps a journal legal. */
  lemma Extend(journal: seq<Write>, w: Write)
    requires Legal(journal) && Allowed(Replay(journal), w)
    ensures Legal(journal + [w]) && Replay(journal + [w]) == Apply(Replay(journal), w)
  {
    assert (journal + [w])[..|journal|] == journal;
  }

  lemma Adding(journal: seq<Write>, d: Disk, w: Write)
    requires Stored(journal, d) && Allowed(d, w)
    ensures Stored(journal + [w], Apply(d, w))
  {
    Extend(journal, w);
  }
}
