/** Nothing that was asked is lost when recovery gives up its own retry for a handoff. */
module Transcripts {
  import opened Options
  import opened Session

  /** The retry under way was written from what the log held at some earlier length. */
  ghost predicate RetrySound(d: Disk) {
    d.meta.recovery.Some? && d.meta.recovery.value.retry != "" ==>
      exists n: nat :: WrittenAt(d, n)
  }

  ghost predicate WrittenAt(d: Disk, n: nat) {
    && d.meta.recovery.Some?
    && n <= |d.log|
    && d.meta.recovery.value.retry == Joined(AskedTexts(d.log[..n], d.meta.historyStart, LogTurn(d.log[..n])))
  }

  lemma Step(d: Disk, w: Write)
    requires RetrySound(d) && Allowed(d, w)
    ensures RetrySound(Apply(d, w))
  {
    var d' := Apply(d, w);
    if d'.meta.recovery.Some? && d'.meta.recovery.value.retry != "" {
      if w.Recover? && w.next.value.stage.Compacting? {
        assert d.log[..|d.log|] == d.log;
        assert WrittenAt(d', |d.log|);
      } else {
        var n: nat :| WrittenAt(d, n);
        assert d'.log[..n] == d.log[..n];
        assert WrittenAt(d', n);
      }
    }
  }

  lemma {:induction false} Always(journal: seq<Write>)
    requires Legal(journal)
    ensures RetrySound(Replay(journal))
  {
    if journal != [] {
      Always(journal[..|journal| - 1]);
      Step(Replay(journal[..|journal| - 1]), journal[|journal| - 1]);
    }
  }

  lemma {:induction false} AskedIsCarried(log: seq<Event>, start: nat, turn: int, text: string)
    requires text in AskedTexts(log, start, turn)
    ensures text in CarriedTexts(log, start)
  {
    var init := log[..|log| - 1];
    if text in AskedTexts(init, start, turn) {
      AskedIsCarried(init, start, turn, text);
    }
  }

  lemma {:induction false} CarriedGrows(log: seq<Event>, n: nat, start: nat)
    requires n <= |log|
    ensures CarriedTexts(log[..n], start) <= CarriedTexts(log, start)
    decreases |log|
  {
    if n == |log| {
      assert log[..n] == log;
    } else {
      var init := log[..|log| - 1];
      CarriedGrows(init, n, start);
      assert init[..n] == log[..n];
    }
  }

  /** Every text that is joined is in the result word for word. */
  lemma {:induction false} JoinedContains(texts: seq<string>, k: nat)
    requires k < |texts|
    ensures Contains(Joined(texts), texts[k])
  {
    if |texts| == 1 {
      assert Joined(texts) == "" + texts[k] + "";
    } else if k == 0 {
      assert Joined(texts) == "" + texts[k] + ("\n\n" + Joined(texts[1..]));
    } else {
      JoinedContains(texts[1..], k - 1);
      var before, after :| Joined(texts[1..]) == before + texts[k] + after;
      assert Joined(texts) == (texts[0] + "\n\n" + before) + texts[k] + after;
    }
  }

  lemma ContainedFurther(text: string, part: string, tail: string)
    requires Contains(text, part)
    ensures Contains(text + tail, part)
  {
    var before, after :| text == before + part + after;
    assert text + tail == before + part + (after + tail);
  }

  /** What a handoff says: the conversation, if there was any, and the closing message. */
  function HandoffText(carried: seq<string>, closing: string): string {
    if Joined(carried) == "" then closing else Joined(carried) + "\n\n" + closing
  }

  /** Whatever it carries over is in it word for word. */
  lemma HandoffContains(carried: seq<string>, closing: string)
    ensures ContainsAll(HandoffText(carried, closing), carried)
  {
    forall part | part in carried ensures Contains(HandoffText(carried, closing), part) {
      var k :| 0 <= k < |carried| && carried[k] == part;
      JoinedContains(carried, k);
      if Joined(carried) == "" {
        assert closing == "" + part + closing;
      } else {
        ContainedFurther(Joined(carried), part, "\n\n" + closing);
        assert HandoffText(carried, closing) == Joined(carried) + ("\n\n" + closing);
      }
    }
  }

  /** An END on the way adds nothing to what is carried over. */
  lemma NothingMoreCarried(log: seq<Event>, e: Event, start: nat)
    requires !Opens(e) && !e.kind.Text?
    ensures CarriedTexts(log + [e], start) == CarriedTexts(log, start)
  {
    assert (log + [e])[..|log|] == log;
  }

  /**
   Whenever a handoff retires recovery's own retry, that retry was exactly the
   questions of one turn joined together, and the message the handoff writes
   holds each of them word for word.
   */
  lemma RetiredIsCarried(journal: seq<Write>, w: Write) returns (asked: seq<string>)
    requires Legal(journal) && w.Recover? && Allowed(Replay(journal), w) && w.superseded.Some?
    ensures Replay(journal).meta.recovery.value.retry == Joined(asked)
    ensures w.message.Some? && ContainsAll(w.message.value, asked)
  {
    var d := Replay(journal);
    Always(journal);
    var n: nat :| WrittenAt(d, n);
    asked := AskedTexts(d.log[..n], d.meta.historyStart, LogTurn(d.log[..n]));
    forall text | text in asked ensures Contains(w.message.value, text) {
      AskedIsCarried(d.log[..n], d.meta.historyStart, LogTurn(d.log[..n]), text);
      CarriedGrows(d.log, n, d.meta.historyStart);
    }
  }
}
