/**
 The catalog every recommendation comes from, what it takes to be published, and
 what that guarantees about the answers read off it.
 */
module Catalogs {
  import opened Options
  import opened Choosing

  // ---------------------------------------------------------------- providers

  /** The CLIs that can be driven, and the effort words each accepts. */
  const EFFORTS: map<string, set<string>> := map[
    "claude-code-cli" := {"", "low", "medium", "high", "xhigh", "max"},
    "codex-app-server" := {"", "low", "medium", "high", "xhigh", "max", "ultra"},
    "antigravity-cli" := {"", "low", "medium", "high"}]

  const FAST_MODELS: set<string> := {"opus", "claude-opus-5-5", "claude-opus-5", "claude-opus-4-8"}

  predicate Digit(c: char) { '0' <= c <= '9' }

  predicate Alphanumeric(c: char) { 'a' <= c <= 'z' || 'A' <= c <= 'Z' || Digit(c) }

  /** A model name without the eight-digit release date it may end on. */
  function Undated(model: string): string {
    var n := |model|;
    if n >= 9 && model[n - 9] == '-' && (forall k :: n - 8 <= k < n ==> Digit(model[k])) then model[..n - 9] else model
  }

  predicate CanRunFast(provider: string, model: string) {
    if provider == "claude-code-cli" then Undated(model) in FAST_MODELS else provider == "codex-app-server"
  }

  // ------------------------------------------------------------------ entries

  datatype Status = Current | Legacy | Restricted

  /** What the database lists, or a recommendation made of the same parts. */
  datatype Entry = Entry(
    provider: string, model: string, effort: Option<string>, fast: Option<bool>,
    requiresAvailability: Option<bool>, status: Option<Status>,
    scores: map<string, real>, price: Option<real>, secs: Option<real>)

  datatype Key = Key(says: string, picks: seq<Entry>)

  datatype Catalog = Catalog(models: seq<Entry>, keys: map<string, Key>)

  const CATEGORIES: set<string> := {"fast", "code", "design", "research", "cost", "general", "writing"}

  function Effort(e: Entry): string { if e.effort.Some? then e.effort.value else "" }

  predicate Retired(e: Entry) { e.status == Some(Legacy) || e.status == Some(Restricted) }

  predicate Requires(e: Entry) { e.requiresAvailability == Some(true) }

  // ----------------------------------------------------------------- identity

  function ModelIdentity(e: Entry): string { e.provider + "/" + e.model + "/" + Effort(e) }

  predicate Slashless(s: string) { forall k :: 0 <= k < |s| ==> s[k] != '/' }

  lemma SlashBefore(head: string, tail: string, at: nat)
    requires Slashless(head) && at < |head + "/" + tail| && (head + "/" + tail)[at] == '/'
    ensures |head| <= at
  {
  }

  lemma SlashAfter(head: string, tail: string, at: nat)
    requires Slashless(tail) && at < |head + "/" + tail| && (head + "/" + tail)[at] == '/'
    ensures at <= |head|
  {
  }

  /** The first slash tells where a slashless head ends. */
  lemma FirstSlash(a: string, b: string, c: string, d: string)
    requires Slashless(a) && Slashless(b) && a + "/" + c == b + "/" + d
    ensures a == b && c == d
  {
    var s := a + "/" + c;
    assert s[|a|] == '/' && s[|b|] == '/';
    SlashBefore(a, c, |b|);
    SlashBefore(b, d, |a|);
    assert a == s[..|a|] == b && c == s[|a| + 1..] == d;
  }

  /** The last slash tells where a slashless tail begins. */
  lemma LastSlash(a: string, b: string, c: string, d: string)
    requires Slashless(c) && Slashless(d) && a + "/" + c == b + "/" + d
    ensures a == b && c == d
  {
    var s := a + "/" + c;
    assert s[|a|] == '/' && s[|b|] == '/';
    SlashAfter(a, c, |b|);
    SlashAfter(b, d, |a|);
    assert a == s[..|a|] == b && c == s[|a| + 1..] == d;
  }

  /** Joined by slashes, the three parts can be told apart again: model names may hold slashes, the others not. */
  lemma IdentityIsInjective(a: Entry, b: Entry)
    requires Slashless(a.provider) && Slashless(b.provider) && Slashless(Effort(a)) && Slashless(Effort(b))
    requires ModelIdentity(a) == ModelIdentity(b)
    ensures a.provider == b.provider && a.model == b.model && Effort(a) == Effort(b)
  {
    assert ModelIdentity(a) == a.provider + "/" + (a.model + "/" + Effort(a));
    assert ModelIdentity(b) == b.provider + "/" + (b.model + "/" + Effort(b));
    FirstSlash(a.provider, b.provider, a.model + "/" + Effort(a), b.model + "/" + Effort(b));
    LastSlash(a.model, b.model, Effort(a), Effort(b));
  }

  /**
   Nothing weaker will do: with a slash in the provider or in the effort, two
   configurations can share an identity.
   */
  lemma SlashesConfuse(rest: Entry)
    ensures ModelIdentity(rest.(provider := "p", model := "q/r")) ==
              ModelIdentity(rest.(provider := "p/q", model := "r"))
    ensures ModelIdentity(rest.(model := "m/low", effort := Some("high"))) ==
              ModelIdentity(rest.(model := "m", effort := Some("low/high")))
  {
    assert "p" + "/" + "q/r" + "/" == "p/q" + "/" + "r" + "/";
    assert rest.provider + "/" + "m/low" + "/" + "high" == rest.provider + "/" + "m" + "/" + "low/high";
  }

  /** What can be run has neither. */
  lemma RunnableIsSlashless(e: Entry)
    requires e.provider in EFFORTS && Effort(e) in EFFORTS[e.provider]
    ensures Slashless(e.provider) && Slashless(Effort(e))
  {
  }

  // --------------------------------------------------------------- validation

  predicate ModelId(s: string) {
    && 1 <= |s| <= 120 && Alphanumeric(s[0])
    && forall k :: 0 <= k < |s| ==> Alphanumeric(s[k]) || s[k] in ['.', '_', ':', '/', '-']
  }

  predicate SoundRow(e: Entry) {
    && e.provider in EFFORTS && ModelId(e.model)
    && (e.effort.Some? ==> e.effort.value in EFFORTS[e.provider])
    && (e.price.Some? ==> e.price.value >= 0.0) && (e.secs.Some? ==> e.secs.value >= 0.0)
  }

  /**
   A recommendation stands for a row of the catalog: current, fast only where it can be,
   and no freer than the row.
   */
  predicate Endorses(e: Entry, pick: Entry) {
    && ModelIdentity(e) == ModelIdentity(pick) && !Retired(e)
    && (pick.fast == Some(true) ==> CanRunFast(e.provider, e.model))
    && (Requires(e) ==> Requires(pick))
  }

  /** What trimming a string removes. */
  predicate Whitespace(c: char) {
    || c in [' ', '\t', '\n', '\r', '\U{0B}', '\U{0C}', '\U{A0}', '\U{FEFF}', '\U{1680}']
    || '\U{2000}' <= c <= '\U{200A}' || c in ['\U{2028}', '\U{2029}', '\U{202F}', '\U{205F}', '\U{3000}']
  }

  predicate Blank(s: string) { forall k :: 0 <= k < |s| ==> Whitespace(s[k]) }

  predicate Endorsed(models: seq<Entry>, pick: Entry) { exists e | e in models :: Endorses(e, pick) }

  predicate SoundKey(models: seq<Entry>, key: Key) {
    && !Blank(key.says) && key.picks != []
    && forall k :: 0 <= k < |key.picks| ==> Endorsed(models, key.picks[k])
  }

  predicate Distinct(models: seq<Entry>) {
    forall i, j :: 0 <= i < j < |models| ==> ModelIdentity(models[i]) != ModelIdentity(models[j])
  }

  /** What makes a catalog fit to be published. */
  predicate Publishable(c: Catalog) {
    && 1 <= |c.models| <= 2000
    && (forall k :: 0 <= k < |c.models| ==> SoundRow(c.models[k]))
    && Distinct(c.models)
    && c.keys.Keys == CATEGORIES
    && forall id | id in c.keys :: SoundKey(c.models, c.keys[id])
  }

  /** The rows met so far, by identity. */
  ghost predicate Indexes(identities: map<string, Entry>, models: seq<Entry>, n: nat)
    requires n <= |models|
  {
    && (forall k :: 0 <= k < n ==>
        && ModelIdentity(models[k]) in identities
        && identities[ModelIdentity(models[k])] == models[k])
    && (forall id :: id in identities ==> identities[id] in models[..n] && ModelIdentity(identities[id]) == id)
  }

  /** Reject a broken catalog: accepted are exactly the publishable ones. */
  method ValidateCatalog(c: Catalog) returns (accepted: bool)
    ensures accepted <==> Publishable(c)
  {
    if |c.models| < 1 || |c.models| > 2000 {
      return false;
    }
    var identities := IndexRows(c.models);
    if identities.None? || c.keys.Keys != CATEGORIES {
      return false;
    }
    accepted := ValidateKeys(c.models, identities.value, c.keys);
  }

  method IndexRows(models: seq<Entry>) returns (identities: Option<map<string, Entry>>)
    ensures identities.Some? <==> (forall k :: 0 <= k < |models| ==> SoundRow(models[k])) && Distinct(models)
    ensures identities.Some? ==> Indexes(identities.value, models, |models|)
  {
    hide SoundRow, ModelIdentity;
    var seen: map<string, Entry> := map[];
    for n := 0 to |models|
      invariant forall k :: 0 <= k < n ==> SoundRow(models[k])
      invariant Distinct(models[..n])
      invariant Indexes(seen, models, n)
    {
      var id := ModelIdentity(models[n]);
      if !SoundRow(models[n]) {
        return None;
      }
      if id in seen {
        Duplicated(seen, models, n);
        return None;
      }
      OneMore(seen, models, n);
      seen := seen[id := models[n]];
    }
    assert models[..|models|] == models;
    identities := Some(seen);
  }

  lemma Duplicated(seen: map<string, Entry>, models: seq<Entry>, n: nat)
    requires n < |models| && Indexes(seen, models, n) && ModelIdentity(models[n]) in seen
    ensures !Distinct(models)
  {
    var i :| 0 <= i < n && models[..n][i] == seen[ModelIdentity(models[n])];
    assert ModelIdentity(models[i]) == ModelIdentity(models[n]);
  }

  lemma OneMore(seen: map<string, Entry>, models: seq<Entry>, n: nat)
    requires n < |models| && Indexes(seen, models, n) && Distinct(models[..n]) && ModelIdentity(models[n]) !in seen
    ensures Distinct(models[..n + 1])
    ensures Indexes(seen[ModelIdentity(models[n]) := models[n]], models, n + 1)
  {
    hide ModelIdentity;
    assert models[..n + 1] == models[..n] + [models[n]];
    forall i | 0 <= i < n ensures ModelIdentity(models[i]) != ModelIdentity(models[n]) { }
  }

  method ValidateKeys(models: seq<Entry>, identities: map<string, Entry>, keys: map<string, Key>) returns (sound: bool)
    requires Indexes(identities, models, |models|) && Distinct(models)
    ensures sound <==> forall id | id in keys :: SoundKey(models, keys[id])
  {
    hide SoundKey, Indexes, Distinct;
    var left := keys.Keys;
    while left != {}
      invariant left <= keys.Keys
      invariant forall id | id in keys && id !in left :: SoundKey(models, keys[id])
      decreases |left|
    {
      var id :| id in left;
      sound := ValidateKey(models, identities, keys[id]);
      if !sound {
        return;
      }
      left := left - {id};
    }
    sound := true;
  }

  method ValidateKey(models: seq<Entry>, identities: map<string, Entry>, key: Key) returns (sound: bool)
    requires Indexes(identities, models, |models|) && Distinct(models)
    ensures sound <==> SoundKey(models, key)
  {
    if Blank(key.says) || key.picks == [] {
      return false;
    }
    for n := 0 to |key.picks|
      invariant forall k :: 0 <= k < n ==> Endorsed(models, key.picks[k])
    {
      var id := ModelIdentity(key.picks[n]);
      LookedUp(models, identities, key.picks[n]);
      if id !in identities || !Endorses(identities[id], key.picks[n]) {
        return false;
      }
    }
    sound := true;
  }

  /** Looking a recommendation up by identity finds the only row that could endorse it. */
  lemma LookedUp(models: seq<Entry>, identities: map<string, Entry>, pick: Entry)
    requires Indexes(identities, models, |models|) && Distinct(models)
    ensures Endorsed(models, pick) <==>
              ModelIdentity(pick) in identities && Endorses(identities[ModelIdentity(pick)], pick)
  {
    assert models[..|models|] == models;
    forall e | e in models && Endorses(e, pick)
      ensures ModelIdentity(pick) in identities && identities[ModelIdentity(pick)] == e
    {
      var k :| 0 <= k < |models| && models[k] == e;
    }
  }

  // ------------------------------------------------------------------ by key

  predicate Runnable(e: Entry) { e.provider in EFFORTS && Effort(e) in EFFORTS[e.provider] }

  /** The command a row stands for. It is fast only where the model can be. */
  function Run(e: Entry): Pick {
    Pick(e.provider, e.model, Effort(e), e.fast == Some(true) && CanRunFast(e.provider, e.model))
  }

  predicate Eligible(e: Entry, available: map<string, seq<string>>) {
    !Requires(e) || (e.provider in available && e.model in available[e.provider])
  }

  datatype Listed = Listed(pick: Pick, available: bool)

  function Shortlist(picks: seq<Entry>, providers: seq<string>, available: map<string, seq<string>>): seq<Listed> {
    if picks == [] then []
    else
      (if Runnable(picks[0]) then [Listed(Run(picks[0]),
                                          picks[0].provider in providers && Eligible(picks[0], available))] else [])
      + Shortlist(picks[1..], providers, available)
  }

  function FirstAvailable(listed: seq<Listed>): Option<Pick> {
    if listed == [] then None else if listed[0].available then Some(listed[0].pick) else FirstAvailable(listed[1..])
  }

  /** Every runnable entry of a key in its order, and the first of them that is available. */
  function ByKey(keys: map<string, Key>, key: string, providers: seq<string>,
          available: map<string, seq<string>>): Option<(Option<Pick>, seq<Listed>)> {
    if key !in keys then None
    else
      var listed := Shortlist(keys[key].picks, providers, available);
      Some((FirstAvailable(listed), listed))
  }

  /** A command that is a row of the catalog, neither legacy nor restricted, and run hot only if it can be. */
  predicate IsRow(c: Catalog, p: Pick, e: Entry) {
    && e in c.models && !Retired(e)
    && e.provider == p.provider && e.model == p.model && Effort(e) == p.effort
    && (p.fast ==> CanRunFast(p.provider, p.model))
  }

  lemma EndorsedIsRow(c: Catalog, e: Entry, pick: Entry)
    requires e in c.models && SoundRow(e) && Endorses(e, pick) && Runnable(pick)
    ensures IsRow(c, Run(pick), e)
  {
    RunnableIsSlashless(e);
    RunnableIsSlashless(pick);
    IdentityIsInjective(e, pick);
  }

  /** Everything a shortlist holds, and where it comes from. */
  lemma {:induction false} ListedFrom(picks: seq<Entry>, providers: seq<string>,
          available: map<string, seq<string>>, k: nat) returns (from: nat)
    requires k < |Shortlist(picks, providers, available)|
    ensures from < |picks| && Runnable(picks[from])
    ensures Shortlist(picks, providers, available)[k]
         == Listed(Run(picks[from]), picks[from].provider in providers && Eligible(picks[from], available))
  {
    if Runnable(picks[0]) && k == 0 {
      from := 0;
    } else {
      var rest := if Runnable(picks[0]) then k - 1 else k;
      from := ListedFrom(picks[1..], providers, available, rest);
      assert picks[1..][from] == picks[from + 1];
      from := from + 1;
    }
  }

  /**
   What publication promises carries through to every choice: each entry of a
   shortlist is a current row of the catalog under the same provider, model and
   effort, and an available one is on a listed provider and, if its row needs
   availability confirmed, the caller confirmed it.
   */
  lemma ShortlistIsSound(c: Catalog, key: string, providers: seq<string>, available: map<string, seq<string>>,
          k: nat) returns (row: Entry)
    requires Publishable(c) && key in c.keys
    requires k < |Shortlist(c.keys[key].picks, providers, available)|
    ensures var l := Shortlist(c.keys[key].picks, providers, available)[k];
            && IsRow(c, l.pick, row)
            && (l.available ==> l.pick.provider in providers)
            && (l.available && Requires(row) ==>
                l.pick.provider in available && l.pick.model in available[l.pick.provider])
  {
    var from := ListedFrom(c.keys[key].picks, providers, available, k);
    var pick := c.keys[key].picks[from];
    assert SoundKey(c.models, c.keys[key]);
    assert Endorsed(c.models, pick);
    row :| row in c.models && Endorses(row, pick);
    EndorsedIsRow(c, row, pick);
  }

  lemma {:induction false} FirstIs(listed: seq<Listed>)
    ensures FirstAvailable(listed).None? <==> forall k :: 0 <= k < |listed| ==> !listed[k].available
    ensures FirstAvailable(listed).Some? ==> exists k :: 0 <= k < |listed| && FirstOnList(listed, k)
  {
    if listed != [] && !listed[0].available {
      FirstIs(listed[1..]);
      if k :| 0 <= k < |listed[1..]| && FirstOnList(listed[1..], k) {
        assert FirstOnList(listed, k + 1);
      }
      forall k | 0 <= k < |listed[1..]| ensures listed[1..][k] == listed[k + 1] { }
      if FirstAvailable(listed).None? {
        forall k | 0 <= k < |listed| ensures !listed[k].available {
          if k > 0 { assert listed[k] == listed[1..][k - 1]; }
        }
      }
    } else if listed != [] {
      assert FirstOnList(listed, 0);
    }
  }

  predicate FirstOnList(listed: seq<Listed>, k: nat) {
    && k < |listed| && listed[k].available && FirstAvailable(listed) == Some(listed[k].pick)
    && forall j :: 0 <= j < k ==> !listed[j].available
  }

  /** The pick itself: the first available entry, and a row that may be run here and now. */
  lemma PickIsSound(c: Catalog, key: string, providers: seq<string>, available: map<string, seq<string>>)
    returns (row: Entry)
    requires Publishable(c) && key in c.keys && ByKey(c.keys, key, providers, available).value.0.Some?
    ensures var pick := ByKey(c.keys, key, providers, available).value.0.value;
            && IsRow(c, pick, row) && pick.provider in providers
            && (Requires(row) ==> pick.provider in available && pick.model in available[pick.provider])
  {
    var listed := Shortlist(c.keys[key].picks, providers, available);
    FirstIs(listed);
    var k :| 0 <= k < |listed| && FirstOnList(listed, k);
    row := ShortlistIsSound(c, key, providers, available, k);
  }

  // --------------------------------------------------------------- by number

  /** Can this row be run, and plotted on the benchmark? */
  predicate Plottable(e: Entry, bench: string) {
    Runnable(e) && bench in e.scores && e.price.Some? && e.secs.Some?
  }

  function Plotted(e: Entry, bench: string): Model
    requires Plottable(e, bench)
  {
    Model(Run(e), e.scores[bench], e.price.value)
  }

  /** Who is asking: the providers signed in, the benchmark to go by, and the models confirmed available. */
  datatype Ask = Ask(providers: seq<string>, bench: string, available: map<string, seq<string>>)

  /** May the dial offer this row to this caller? */
  predicate Offered(e: Entry, ask: Ask) {
    !Retired(e) && Eligible(e, ask.available) && Plottable(e, ask.bench) && e.provider in ask.providers
  }

  predicate PlotsTo(e: Entry, ask: Ask, m: Model) { Offered(e, ask) && m == Plotted(e, ask.bench) }

  ghost predicate AreOffers(models: seq<Model>, entries: seq<Entry>, ask: Ask) {
    && (forall m :: m in models ==> exists k :: 0 <= k < |entries| && PlotsTo(entries[k], ask, m))
    && (forall k :: 0 <= k < |entries| && Offered(entries[k], ask) ==> Plotted(entries[k], ask.bench) in models)
  }

  method Offers(entries: seq<Entry>, ask: Ask) returns (models: seq<Model>)
    ensures AreOffers(models, entries, ask)
  {
    models := [];
    for n := 0 to |entries|
      invariant forall m :: m in models ==> exists k :: 0 <= k < n && PlotsTo(entries[k], ask, m)
      invariant forall k :: 0 <= k < n && Offered(entries[k], ask) ==> Plotted(entries[k], ask.bench) in models
    {
      if Offered(entries[n], ask) {
        assert PlotsTo(entries[n], ask, Plotted(entries[n], ask.bench));
        models := models + [Plotted(entries[n], ask.bench)];
      }
    }
  }

  /** A number off the dial, rounded half up and kept within it. */
  function Level(intelligence: real): nat {
    var rounded := (intelligence + 0.5).Floor;
    if rounded < 0 then 0 else if rounded > 10 then 10 else rounded
  }

  /** `m` is what an offered row plots to, and no offered row beats it. */
  ghost predicate Leads(m: Model, entries: seq<Entry>, ask: Ask) {
    && (exists k :: 0 <= k < |entries| && PlotsTo(entries[k], ask, m))
    && forall k :: 0 <= k < |entries| && Offered(entries[k], ask) ==> !Beats(Plotted(entries[k], ask.bench), m)
  }

  /** Nothing offered scores higher. */
  ghost predicate Tops(m: Model, entries: seq<Entry>, ask: Ask) {
    forall k :: 0 <= k < |entries| && Offered(entries[k], ask) ==> Plotted(entries[k], ask.bench).score <= m.score
  }

  /** Nothing offered costs less. */
  ghost predicate Undercuts(m: Model, entries: seq<Entry>, ask: Ask) {
    forall k :: 0 <= k < |entries| && Offered(entries[k], ask) ==> Plotted(entries[k], ask.bench).price >= m.price
  }

  /**
   The dial: whatever the number, the answer can be run, is offered to this
   caller, and nothing offered beats it; at the top nothing offered scores
   higher, at the bottom nothing costs less; and there is an answer whenever
   anything is offered at all.
   */
  method ByIntelligence(entries: seq<Entry>, ask: Ask, intelligence: real)
    returns (pick: Option<Pick>, ghost chosen: Model)
    ensures pick.None? <==> forall k :: 0 <= k < |entries| ==> !Offered(entries[k], ask)
    ensures pick.Some? ==> pick.value == chosen.pick && Leads(chosen, entries, ask)
    ensures pick.Some? && Level(intelligence) == 10 ==> Tops(chosen, entries, ask)
    ensures pick.Some? && Level(intelligence) == 0 ==> Undercuts(chosen, entries, ask)
  {
    hide Represents, Descending, Leads, Tops, Undercuts, Offered, Rung;
    var models := Offers(entries, ask);
    var walk := Edge(models);
    var ladder := LadderOf(walk);
    var level := Level(intelligence);
    chosen := Model(Pick("", "", "", false), 0.0, 0.0);
    if walk == [] {
      NothingOffered(models, walk, entries, ask);
      return None, chosen;
    }
    RungEnds(level, |walk| - 1);
    FrontierLeads(models, walk, entries, ask, Rung(level, |walk| - 1));
    chosen := walk[Rung(level, |walk| - 1)];
    pick := Some(ladder[level]);
  }

  lemma NothingOffered(models: seq<Model>, walk: seq<Model>, entries: seq<Entry>, ask: Ask)
    requires AreOffers(models, entries, ask) && walk == []
    requires forall m :: m in models ==> exists k :: 0 <= k < |walk| && AsGood(walk[k], m)
    ensures forall k :: 0 <= k < |entries| ==> !Offered(entries[k], ask)
  {
  }

  lemma FrontierLeads(models: seq<Model>, walk: seq<Model>, entries: seq<Entry>, ask: Ask, at: nat)
    requires AreOffers(models, entries, ask)
    requires Descending(walk) && Represents(walk, models) && at < |walk|
    requires forall m :: m in models ==> exists k :: 0 <= k < |walk| && AsGood(walk[k], m)
    ensures exists k :: 0 <= k < |entries| && Offered(entries[k], ask)
    ensures Leads(walk[at], entries, ask)
    ensures at == 0 ==> Tops(walk[at], entries, ask)
    ensures at == |walk| - 1 ==> Undercuts(walk[at], entries, ask)
  {
    FirstOnMember(models, walk[at]);
    var from :| 0 <= from < |entries| && PlotsTo(entries[from], ask, walk[at]);
    forall k | 0 <= k < |entries| && Offered(entries[k], ask)
      ensures !Beats(Plotted(entries[k], ask.bench), walk[at])
      ensures at == 0 ==> Plotted(entries[k], ask.bench).score <= walk[at].score
      ensures at == |walk| - 1 ==> Plotted(entries[k], ask.bench).price >= walk[at].price
    {
      hide Offered, AreOffers;
      PlaceOf(models, walk, Plotted(entries[k], ask.bench), at);
    }
  }

  lemma PlaceOf(models: seq<Model>, walk: seq<Model>, m: Model, at: nat)
    requires m in models && Descending(walk) && Represents(walk, models) && at < |walk|
    requires exists k :: 0 <= k < |walk| && AsGood(walk[k], m)
    ensures !Beats(m, walk[at])
    ensures at == 0 ==> m.score <= walk[at].score
    ensures at == |walk| - 1 ==> m.price >= walk[at].price
  {
    var i :| 0 <= i < |models| && models[i] == m;
    assert !Beats(models[i], walk[at]);
    var j :| 0 <= j < |walk| && AsGood(walk[j], m);
  }

  // ------------------------------------------------------------------ upgrade

  const WRITING := "Write and edit clear, polished prose."

  /** An older catalog has no `writing` category; it is read as if it had the general one under another description. */
  function Upgraded(c: Catalog): Catalog {
    if "writing" !in c.keys && "general" in c.keys
    then c.(keys := c.keys["writing" := c.keys["general"].(says := WRITING)])
    else c
  }

  /** Upgrading completes exactly the old catalogs that were sound but for that category, and leaves new ones alone. */
  lemma UpgradeIsSound(c: Catalog)
    ensures "writing" in c.keys ==> Upgraded(c) == c
    ensures c.keys.Keys == CATEGORIES - {"writing"} ==>
              (Publishable(Upgraded(c)) <==>
                 && 1 <= |c.models| <= 2000 && (forall k :: 0 <= k < |c.models| ==> SoundRow(c.models[k]))
                 && Distinct(c.models)
                 && forall id | id in c.keys :: SoundKey(c.models, c.keys[id]))
  {
    var u := Upgraded(c);
    if c.keys.Keys == CATEGORIES - {"writing"} {
      assert u.keys.Keys == CATEGORIES;
      assert WRITING[0] == 'W' && !Blank(WRITING);
      assert u.keys["writing"] == c.keys["general"].(says := WRITING);
      assert SoundKey(c.models, c.keys["general"]) ==> SoundKey(u.models, u.keys["writing"]);
      forall id | id in c.keys ensures u.keys[id] == c.keys[id] { }
    }
  }
}
