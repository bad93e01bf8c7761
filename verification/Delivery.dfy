/**
 The transactional outbox, over every legal journal: each issued message is
 still pending, or recorded by exactly one opening event with its own text, or
 a retry that recovery wrote itself and replaced. Prefixes of legal journals
 are legal, so this holds at every durable-write boundary a crash can expose.
 */
module Delivery {
  import opened Options
  import opened Session
  import opened Queues

  ghost predicate Sound(d: Disk) {
    && QueueSound(d.meta.pending, d.issued)
    && OpeningsSound(d.log, d.issued)
    && FateSound(d)
    && RecoverySound(d)
  }

  ghost predicate QueueSound(pending: seq<Msg>, issued: seq<string>) {
    && Distinct(pending)
    && forall m :: m in pending ==> m.id < |issued| && m.text == issued[m.id]
  }

  ghost predicate OpeningsSound(log: seq<Event>, issued: seq<string>) {
    && (forall k :: 0 <= k < |log| && log[k].msg.Some? ==>
          && Opens(log[k])
          && log[k].msg.value < |issued|
          && log[k].text == issued[log[k].msg.value])
    && (forall i, j :: 0 <= i < j < |log| && log[i].msg.Some? ==> log[i].msg != log[j].msg)
  }

  ghost predicate FateSound(d: Disk) {
    && (forall id :: 0 <= id < |d.issued| ==>
          id in PendingIds(d.meta.pending) || id in OpenedIds(d.log) || id in d.retired)
    && d.retired <= d.synth
    && (forall id :: id in d.synth ==> id < |d.issued|)
  }

  ghost predicate RecoverySound(d: Disk) {
    && d.meta.historyStart <= |d.log|
    && (d.meta.recovery.Some? ==>
          var r := d.meta.recovery.value;
          && (r.stage.Compacting? <==> r.messageId.None?)
          && (r.messageId.Some? ==> r.messageId.value < |d.issued|)
          && (r.stage.Handoff? || r.stage.Continuing? || r.stage.Resuming? ==> r.retry == "")
          && (r.stage.Retrying? && r.retry != "" ==> r.messageId.Some? && r.messageId.value in d.synth))
  }

  lemma RemovalStep(d: Disk, gone: set<Id>, retired: set<Id>)
    requires Sound(d)
    requires retired <= d.synth
    requires forall id :: id in gone ==> id in OpenedIds(d.log) || id in retired
    ensures Sound(d.(meta := d.meta.(pending := Without(d.meta.pending, gone)), retired := d.retired + retired))
  {
    var p := d.meta.pending;
    WithoutDistinct(p, gone);
    WithoutMembers(p, gone);
    forall id | 0 <= id < |d.issued|
      ensures id in PendingIds(Without(p, gone)) || id in OpenedIds(d.log) || id in d.retired + retired
    {
      PendingIdsOf(p, id);
      PendingIdsOf(Without(p, gone), id);
    }
  }

  lemma IssueQueue(p: seq<Msg>, issued: seq<string>, texts: seq<string>, front: bool)
    requires QueueSound(p, issued)
    ensures var stamped := Stamp(texts, |issued|);
            QueueSound(if front then stamped + p else p + stamped, issued + texts)
  {
    var stamped := Stamp(texts, |issued|);
    Stamped(texts, |issued|);
    var q := if front then stamped + p else p + stamped;
    if front { JoinDistinct(stamped, p); } else { JoinDistinct(p, stamped); }
    forall m: Msg | m in q ensures m.id < |issued + texts| && m.text == (issued + texts)[m.id] {
      assert m in p || m in stamped;
    }
  }

  /** New messages under the next ids join the queue at either end. */
  lemma IssueStep(d: Disk, texts: seq<string>, front: bool)
    requires Sound(d)
    ensures var stamped := Stamp(texts, |d.issued|);
            Sound(d.(meta := d.meta.(pending := if front then stamped + d.meta.pending else d.meta.pending + stamped),
                     issued := d.issued + texts))
  {
    var stamped := Stamp(texts, |d.issued|);
    var p := d.meta.pending;
    var q := if front then stamped + p else p + stamped;
    IssueQueue(p, d.issued, texts, front);
    Stamped(texts, |d.issued|);
    forall id | 0 <= id < |d.issued + texts|
      ensures id in PendingIds(q) || id in OpenedIds(d.log) || id in d.retired
    {
      PendingIdsOf(p, id);
      PendingIdsOf(q, id);
      if id >= |d.issued| {
        assert stamped[id - |d.issued|] in q;
      }
    }
  }

  lemma AppendStep(d: Disk, e: Event)
    requires Sound(d) && Allowed(d, Append(e))
    ensures Sound(Apply(d, Append(e)))
  {
    OpenedAfter(d.log, e);
    forall i | 0 <= i < |d.log| && d.log[i].msg.Some? && e.msg.Some? ensures d.log[i].msg != e.msg {
      assert d.log[i].msg.value in OpenedIds(d.log);
    }
  }

  lemma RecoverStep(d: Disk, next: Option<Recovery>, since: Option<nat>, message: Option<string>,
          superseded: Option<Id>)
    requires Sound(d) && Allowed(d, Recover(next, since, message, superseded))
    ensures Sound(Apply(d, Recover(next, since, message, superseded)))
  {
    var d1 := d.(meta := d.meta.(pending := Without(d.meta.pending, Gone(superseded))),
                 retired := d.retired + Gone(superseded));
    RemovalStep(d, Gone(superseded), Gone(superseded));
    if message.Some? {
      assert Stamp([message.value], |d.issued|) == [Msg(|d.issued|, message.value)];
      IssueStep(d1, [message.value], true);
    } else if next.Some? && next.value.messageId.Some? {
      PendingIdsOf(d.meta.pending, next.value.messageId.value);
    }
  }

  lemma Step(d: Disk, w: Write)
    requires Sound(d) && Allowed(d, w)
    ensures Sound(Apply(d, w))
  {
    match w
    case Append(e) => AppendStep(d, e);
    case Enqueue(text) =>
      assert Stamp([text], |d.issued|) == [Msg(|d.issued|, text)];
      IssueStep(d, [text], false);
    case Complete(id) =>
      assert d.retired + {} == d.retired;
      RemovalStep(d, {id}, {});
    case Reconcile =>
      assert d.retired + {} == d.retired;
      RemovalStep(d, OpenedIds(d.log), {});
    case Retry(texts) => IssueStep(d, texts, true);
    case Recover(next, since, message, superseded) => RecoverStep(d, next, since, message, superseded);
    case _ =>
  }

  /** Every disk a legal journal leaves behind is sound. */
  lemma {:induction false} Always(journal: seq<Write>)
    requires Legal(journal)
    ensures Sound(Replay(journal))
  {
    if journal != [] {
      Always(journal[..|journal| - 1]);
      Step(Replay(journal[..|journal| - 1]), journal[|journal| - 1]);
    }
  }

  /** A crash leaves a prefix of the journal, and that prefix is a legal journal too. */
  lemma {:induction false} CrashAnywhere(journal: seq<Write>, n: nat)
    requires Legal(journal) && n <= |journal|
    ensures Legal(journal[..n]) && Sound(Replay(journal[..n]))
    decreases |journal|
  {
    if n == |journal| {
      assert journal[..n] == journal;
      Always(journal);
    } else {
      var init := journal[..|journal| - 1];
      CrashAnywhere(init, n);
      assert init[..n] == journal[..n];
    }
  }

  lemma IssuedStep(d: Disk, w: Write)
    ensures d.issued <= Apply(d, w).issued
    ensures forall id :: id < |d.issued| && id in Apply(d, w).synth ==> id in d.synth
  {
  }

  /** Ids are never reissued, their texts never change, and a caller's id never becomes recovery's. */
  lemma {:induction false} IssuedGrows(journal: seq<Write>, n: nat)
    requires Legal(journal) && n <= |journal|
    ensures Replay(journal[..n]).issued <= Replay(journal).issued
    ensures forall id :: id < |Replay(journal[..n]).issued| && id in Replay(journal).synth ==>
              id in Replay(journal[..n]).synth
    decreases |journal|
  {
    if n == |journal| {
      assert journal[..n] == journal;
    } else {
      var init := journal[..|journal| - 1];
      IssuedGrows(init, n);
      assert init[..n] == journal[..n];
      IssuedStep(Replay(init), journal[|journal| - 1]);
    }
  }

  /**
   The message accepted by write `n` is pending under its id or recorded under
   its id, with the accepted text, and recorded at most once.
   */
  ghost predicate Safe(journal: seq<Write>, n: nat)
    requires n < |journal| && journal[n].Enqueue?
  {
    var id := |Replay(journal[..n]).issued|;
    var d := Replay(journal);
    && (Msg(id, journal[n].text) in d.meta.pending
        || exists k :: 0 <= k < |d.log| && Opens(d.log[k]) && d.log[k].msg == Some(id)
            && d.log[k].text == journal[n].text)
    && (forall i, j :: 0 <= i < |d.log| && 0 <= j < |d.log| && d.log[i].msg == Some(id) && d.log[j].msg == Some(id) ==>
        i == j)
  }

  /** The id and text an accepted message was given are its own for good. */
  lemma AcceptedIsRemembered(journal: seq<Write>, n: nat)
    requires Legal(journal) && n < |journal| && journal[n].Enqueue?
    ensures var id, d := |Replay(journal[..n]).issued|, Replay(journal);
            id < |d.issued| && d.issued[id] == journal[n].text && id !in d.synth
  {
    hide Sound;
    var before := Replay(journal[..n]);
    var id := |before.issued|;
    CrashAnywhere(journal, n);
    CrashAnywhere(journal, n + 1);
    assert journal[..n + 1][..n] == journal[..n];
    var after := Replay(journal[..n + 1]);
    assert after == Apply(before, journal[n]);
    IssuedGrows(journal, n + 1);
    SynthIssued(journal[..n]);
    assert Replay(journal).issued[id] == after.issued[id];
  }

  lemma SynthIssued(journal: seq<Write>)
    requires Legal(journal)
    ensures forall id :: id in Replay(journal).synth ==> id < |Replay(journal).issued|
  {
    hide QueueSound, OpeningsSound, RecoverySound;
    Always(journal);
  }

  /** Whatever became of an id, it is accounted for. */
  lemma Accounted(d: Disk, id: Id, text: string)
    requires Sound(d) && id < |d.issued| && d.issued[id] == text && id !in d.synth
    ensures || Msg(id, text) in d.meta.pending
            || exists k :: 0 <= k < |d.log| && Opens(d.log[k]) && d.log[k].msg == Some(id) && d.log[k].text == text
    ensures forall i, j :: 0 <= i < |d.log| && 0 <= j < |d.log| ==>
              d.log[i].msg == Some(id) && d.log[j].msg == Some(id) ==> i == j
  {
    hide RecoverySound;
    PendingIdsOf(d.meta.pending, id);
  }

  /** Wherever a legal journal stops, no message it accepted is lost or recorded twice. */
  lemma AcceptedIsNeverLost(journal: seq<Write>, n: nat)
    requires Legal(journal) && n < |journal| && journal[n].Enqueue?
    ensures Safe(journal, n)
  {
    hide Sound, Replay, Legal;
    AcceptedIsRemembered(journal, n);
    Always(journal);
    Accounted(Replay(journal), |Replay(journal[..n]).issued|, journal[n].text);
  }
}
