/**
 What the conductor knows of the providers it can run: which are on the dial,
 which one is up, which are parked, and which runner an event came from.
 */
module Runners {
  import opened Options
  import opened Session
  import Watermarks

  datatype Pick = Pick(provider: string, tuning: int)

  /** Settings a runner is built with; `prompt` is the part some providers fix for good. */
  datatype Settings = Settings(prompt: int, rest: int)

  datatype Signature = Signature(provider: string, tuning: int, config: Settings)

  /** Has the history a runner was handed reached its conversation, or is it, in part or whole, to come? */
  datatype Seed = Absorbed | Missed | Whole

  /** One live CLI. */
  datatype Runner = Runner(name: string, native: string, seed: Seed)

  /** A runner that was just started, in the session `native` or a new one, and handed the history from `since` on. */
  function Started(r: Runner, native: string, since: int): Runner {
    if r.seed.Absorbed? then r else r.(seed := if native == "" && since <= 0 then Whole else Missed)
  }

  /** A runner that was told what it missed while it was parked, on top of what it may have had to take in still. */
  function Refreshed(r: Runner, seeded: bool): Runner {
    r.(seed := if seeded then Absorbed else if r.seed.Whole? then Whole else Missed)
  }

  datatype Parked = Parked(runner: Runner, epoch: nat, signature: Signature, synced: int)

  datatype Delivery = Immediate | NextTurn | Echoed

  datatype Answer = Took(how: Delivery) | Refused(why: Failure)

  /** The codex app-server fixes a thread's instructions when it opens it. */
  predicate RetunesInstructions(provider: string) { provider != "codex-app-server" }

  // --------------------------------------------------------------------- dial

  /** The dial: whoever is listed and not benched, in the order of the list. */
  function Usable(providers: seq<string>, benched: set<string>): seq<string> {
    if providers == [] then []
    else if providers[0] in benched then Usable(providers[1..], benched)
    else [providers[0]] + Usable(providers[1..], benched)
  }

  function Except(providers: seq<string>, name: string): seq<string> {
    if providers == [] then []
    else if providers[0] == name then Except(providers[1..], name)
    else [providers[0]] + Except(providers[1..], name)
  }

  lemma {:induction false} UsableMembers(providers: seq<string>, benched: set<string>)
    ensures forall p :: p in Usable(providers, benched) <==> p in providers && p !in benched
  {
    if providers != [] {
      UsableMembers(providers[1..], benched);
      assert providers == [providers[0]] + providers[1..];
    }
  }

  lemma {:induction false} ExceptMembers(providers: seq<string>, name: string)
    ensures forall p :: p in Except(providers, name) <==> p in providers && p != name
  {
    if providers != [] {
      ExceptMembers(providers[1..], name);
      assert providers == [providers[0]] + providers[1..];
    }
  }

  lemma {:induction false} NobodyBenched(providers: seq<string>)
    ensures Usable(providers, {}) == providers
  {
    if providers != [] {
      NobodyBenched(providers[1..]);
    }
  }

  /** Setting a provider aside takes it off the dial and leaves the rest in order. */
  lemma {:induction false} BenchShrinks(providers: seq<string>, benched: set<string>, name: string)
    ensures Usable(providers, benched + {name}) == Except(Usable(providers, benched), name)
    ensures |Usable(providers, benched + {name})| <= |Usable(providers, benched)|
    ensures name in Usable(providers, benched) ==> |Usable(providers, benched + {name})| < |Usable(providers, benched)|
  {
    if providers != [] {
      BenchShrinks(providers[1..], benched, name);
      var rest := Usable(providers[1..], benched);
      if providers[0] !in benched {
        assert ([providers[0]] + rest)[1..] == rest;
      }
    }
  }

  /** Removing one for good does the same to the dial. */
  lemma {:induction false} RemoveShrinks(providers: seq<string>, benched: set<string>, name: string)
    ensures Usable(Except(providers, name), benched - {name}) == Usable(providers, benched + {name})
  {
    if providers != [] {
      RemoveShrinks(providers[1..], benched, name);
      if providers[0] != name {
        assert Except(providers, name)[1..] == Except(providers[1..], name);
      }
    }
  }

  // ------------------------------------------------------------------- epochs

  /**
   Every runner has its own epoch, never used before or again, and the turn each
   last worked on is remembered: exactly the current turn for the one in charge.
   */
  predicate EpochsApart(current: Option<nat>, next: nat, turns: map<nat, int>, parked: map<string, Parked>, turn: int) {
    && (forall e | e in turns :: e < next && turns[e] <= turn)
    && (current.Some? ==> current.value in turns && turns[current.value] == turn)
    && (forall p | p in parked :: parked[p].epoch in turns && Some(parked[p].epoch) != current)
    && (forall p, q | p in parked && q in parked && p != q :: parked[p].epoch != parked[q].epoch)
  }

  /** Parked runners hold the native sessions their providers are bound to, and know how far those were told. */
  predicate ParkedBound(meta: Meta, parked: map<string, Parked>) {
    forall p | p in parked ::
      && parked[p].runner.name == p
      && parked[p].runner.native != ""
      && parked[p].runner.native == BoundId(meta, p)
      && parked[p].synced == Synced(meta, p)
  }

  // --------------------------------------------------------------- watermarks

  /** The conversation holds all history in scope up to position `c`. */
  ghost predicate HoldsUpTo(d: Disk, provider: string, native: string, c: int) {
    forall k: nat {:trigger InScope(d, k)} :: InScope(d, k) && k <= c ==> k in Told(d, provider, native)
  }

  function Ceiling(ceiling: Option<int>, log: seq<Event>): int {
    if ceiling.Some? then ceiling.value else |log| - 1
  }

  /** Marking a running provider up to what it holds is a watermark that can be trusted. */
  lemma MarkIsSound(d: Disk, provider: string, c: int)
    requires Covered(d) && provider !in d.broken && BoundId(d.meta, provider) != ""
    requires HoldsUpTo(d, provider, BoundId(d.meta, provider), c)
    ensures Covers(Apply(d, MarkSynced(provider, c)), provider, BoundId(d.meta, provider))
  {
    var native := BoundId(d.meta, provider);
    var d' := Apply(d, MarkSynced(provider, c));
    assert Covers(d, provider, native);
    forall k: nat | Presumed(d', provider, k) ensures k in Told(d', provider, native) {
      assert InScope(d, k);
      if k > c { assert Presumed(d, provider, k); }
    }
  }

  /** Marking past a hole is not. */
  lemma MarkPastHoleIsNot(d: Disk, provider: string, c: int, k: nat)
    requires InScope(d, k) && k <= c && k !in Told(d, provider, BoundId(d.meta, provider))
    ensures !Covers(Apply(d, MarkSynced(provider, c)), provider, BoundId(d.meta, provider))
  {
    assert Presumed(Apply(d, MarkSynced(provider, c)), provider, k);
  }

  /** A conversation that holds everything may be bound. */
  lemma HoldingCovers(d: Disk, provider: string, native: string)
    requires HoldsUpTo(d, provider, native, |d.log|)
    ensures Covers(d, provider, native)
  {
    forall k: nat | Presumed(d, provider, k) ensures k in Told(d, provider, native) {
      assert InScope(d, k);
    }
  }

  /** A resumed conversation that hears what it missed holds everything. */
  lemma ResumedHolds(d: Disk, provider: string, since: int)
    requires Covered(d) && provider !in d.broken && BoundId(d.meta, provider) != ""
              && since <= Synced(d.meta, provider) + 1
    ensures var native := BoundId(d.meta, provider);
            HoldsUpTo(Apply(d, Hear(provider, native, false, HistoryFor(d, provider, since, true))), provider, native,
                      |d.log|)
  {
    var native := BoundId(d.meta, provider);
    var d' := Apply(d, Hear(provider, native, false, HistoryFor(d, provider, since, true)));
    forall k: nat | InScope(d', k) ensures k in Told(d', provider, native) {
      assert InScope(d, k);
      Watermarks.ResumeCompletes(d, provider, since, k);
    }
  }

  /**
   What a runner was handed and has yet to take in: all it missed, or everything, but for
   what it could not be told any more. What it said itself since it came up is in it already.
   */
  function Owed(d: Disk, r: Runner, c: int): set<nat> {
    var owed := HistoryFor(d, r.name, if r.seed.Whole? then 0 else Synced(d.meta, r.name) + 1, !r.seed.Whole?);
    set k | k in owed && (k <= c || (k < |d.log| && Own(d, r.name, k)))
  }

  /** Once it is taken in, with the next message, the conversation holds everything up to there. */
  lemma SeedHolds(d: Disk, r: Runner, c: int)
    requires r.seed.Whole? || (Covered(d) && r.name !in d.broken)
    requires BoundId(d.meta, r.name) == r.native != ""
    ensures HoldsUpTo(Apply(d, Hear(r.name, r.native, false, Owed(d, r, c))), r.name, r.native, c)
  {
    var d' := Apply(d, Hear(r.name, r.native, false, Owed(d, r, c)));
    forall k: nat | InScope(d', k) && k <= c ensures k in Told(d', r.name, r.native) {
      assert InScope(d, k);
      if !r.seed.Whole? { Watermarks.ResumeCompletes(d, r.name, Synced(d.meta, r.name) + 1, k); }
    }
  }

  /** And if that was the whole history, its watermark can be trusted whatever became of earlier ones. */
  lemma WholeSeedCovers(d: Disk, r: Runner, c: int)
    requires r.seed.Whole? && BoundId(d.meta, r.name) == r.native != "" && Synced(d.meta, r.name) <= c
    ensures Covers(Apply(d, Hear(r.name, r.native, false, Owed(d, r, c))), r.name, r.native)
  {
    var d' := Apply(d, Hear(r.name, r.native, false, Owed(d, r, c)));
    forall k: nat | Presumed(d', r.name, k) ensures k in Told(d', r.name, r.native) {
      assert InScope(d, k);
      assert Own(d, r.name, k) <==> Own(d', r.name, k);
    }
  }

  /** So does a new conversation that is handed the whole history. */
  lemma OpenedHolds(d: Disk, provider: string, native: string, since: int)
    requires since <= 0
    ensures HoldsUpTo(Apply(d, Hear(provider, native, true, HistoryFor(d, provider, since, false))), provider, native,
                      |d.log|)
  {
    var d' := Apply(d, Hear(provider, native, true, HistoryFor(d, provider, since, false)));
    forall k: nat | InScope(d', k) ensures k in Told(d', provider, native) {
      assert InScope(d, k);
    }
  }

  /** A running provider keeps holding the log as it grows with its own events, or with none that matter. */
  lemma AppendHolds(d: Disk, e: Event, provider: string, native: string, c: int)
    requires HoldsUpTo(d, provider, native, c) && c < |d.log|
    requires BoundId(d.meta, provider) == native != ""
    ensures HoldsUpTo(Apply(d, Append(e)), provider, native, c)
    ensures c == |d.log| - 1 && (IsHistory(e) ==> !e.late && e.provider == provider) ==>
              HoldsUpTo(Apply(d, Append(e)), provider, native, |d.log|)
  {
    var d' := Apply(d, Append(e));
    assert Told(d, provider, native) <= Told(d', provider, native);
    forall k: nat | InScope(d', k) && k < |d.log| ensures InScope(d, k) {
      assert d'.log[k] == d.log[k];
    }
  }
}
