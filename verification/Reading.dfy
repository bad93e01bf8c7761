/**
 How the daemon reads requests off a socket: one line at a time, at most one
 byte more than the limit, however the bytes happen to arrive.
 */
module Reading {
  import opened Options

  newtype byte = x: int | 0 <= x < 256

  const NEWLINE: byte := 10
  const MAX_REQUEST_BYTES: nat := 16 * 1024 * 1024

  datatype BoundedLine = Eof | Line | TooLong

  // ------------------------------------------------------------ specification

  /** Where the first newline is, or the length if there is none. */
  function FirstNewline(s: seq<byte>): (at: nat)
    ensures at <= |s|
  {
    if s == [] || s[0] == NEWLINE then 0 else 1 + FirstNewline(s[1..])
  }

  lemma {:induction false} FirstNewlineIs(s: seq<byte>)
    ensures FirstNewline(s) < |s| ==> s[FirstNewline(s)] == NEWLINE
    ensures forall k :: 0 <= k < FirstNewline(s) ==> s[k] != NEWLINE
  {
    if s != [] && s[0] != NEWLINE {
      FirstNewlineIs(s[1..]);
      forall k | 0 <= k < FirstNewline(s) ensures s[k] != NEWLINE {
        if k > 0 { assert s[k] == s[1..][k - 1]; }
      }
    }
  }

  /** What one read makes of a whole stream: the outcome, and how many bytes it takes. */
  function Next(s: seq<byte>): (BoundedLine, nat) {
    var at := FirstNewline(s);
    if s == [] then (Eof, 0)
    else if at < |s| && at <= MAX_REQUEST_BYTES then (Line, at + 1)
    else if |s| > MAX_REQUEST_BYTES then (TooLong, MAX_REQUEST_BYTES + 1)
    else (Line, |s|)
  }

  lemma {:induction false} FirstNewlineSplits(a: seq<byte>, b: seq<byte>)
    ensures FirstNewline(a) < |a| ==> FirstNewline(a + b) == FirstNewline(a)
    ensures FirstNewline(a) == |a| ==> FirstNewline(a + b) == |a| + FirstNewline(b)
  {
    if a == [] {
      assert a + b == b;
    } else if a[0] != NEWLINE {
      assert (a + b)[1..] == a[1..] + b;
      FirstNewlineSplits(a[1..], b);
    }
  }

  /** Every request in a stream, and the outcome that ended it. */
  function Split(s: seq<byte>): (lines: (seq<seq<byte>>, BoundedLine))
    decreases |s|
  {
    var (kind, n) := Next(s);
    if kind != Line then ([], kind)
    else
      var (more, end) := Split(s[n..]);
      ([s[..n]] + more, end)
  }

  function Glued(lines: seq<seq<byte>>): seq<byte> {
    if lines == [] then [] else lines[0] + Glued(lines[1..])
  }

  predicate OneRequest(line: seq<byte>) {
    && 0 < |line| <= MAX_REQUEST_BYTES + 1
    && forall k :: 0 <= k < |line| - 1 ==> line[k] != NEWLINE
  }

  /** What a split of a stream is worth. */
  ghost predicate Faithful(s: seq<byte>, lines: seq<seq<byte>>, end: BoundedLine) {
    && Glued(lines) <= s
    && (forall k :: 0 <= k < |lines| ==> OneRequest(lines[k]))
    && (forall k :: 0 <= k < |lines| - 1 ==> lines[k][|lines[k]| - 1] == NEWLINE)
    && match end
       case Eof => Glued(lines) == s
       case Line => false
       case TooLong => Endless(s[|Glued(lines)|..])
  }

  /** Too long for any request, and no newline in sight. */
  predicate Endless(s: seq<byte>) {
    |s| > MAX_REQUEST_BYTES && forall k :: 0 <= k <= MAX_REQUEST_BYTES ==> s[k] != NEWLINE
  }

  lemma NextLine(s: seq<byte>)
    requires Next(s).0 == Line
    ensures 0 < Next(s).1 <= |s| && OneRequest(s[..Next(s).1])
    ensures Next(s).1 == |s| || s[Next(s).1 - 1] == NEWLINE
  {
    FirstNewlineIs(s);
  }

  lemma FaithfulStep(s: seq<byte>, n: nat, more: seq<seq<byte>>, end: BoundedLine)
    requires 0 < n <= |s| && OneRequest(s[..n]) && (n == |s| || s[n - 1] == NEWLINE)
    requires Faithful(s[n..], more, end)
    ensures Faithful(s, [s[..n]] + more, end)
  {
    hide OneRequest, Endless;
    var lines := [s[..n]] + more;
    assert lines[0] == s[..n] && lines[1..] == more;
    assert s == s[..n] + s[n..];
    assert s[|Glued(lines)|..] == s[n..][|Glued(more)|..];
    if n == |s| && more != [] {
      EmptyHasNone(more);
    }
  }

  lemma EmptyHasNone(lines: seq<seq<byte>>)
    requires lines != [] && OneRequest(lines[0])
    ensures Glued(lines) != []
  {
  }

  /**
   Nothing is lost or reordered: glued together the requests are the stream
   again, up to its end or up to a stretch with no newline that is too long for
   any request. Each is one line, and only the very last may lack its newline.
   */
  lemma {:induction false} SplitIsFaithful(s: seq<byte>)
    ensures Faithful(s, Split(s).0, Split(s).1)
    decreases |s|
  {
    if Next(s).0 == Line {
      NextLine(s);
      SplitIsFaithful(s[Next(s).1..]);
      FaithfulStep(s, Next(s).1, Split(s[Next(s).1..]).0, Split(s).1);
    } else {
      FirstNewlineIs(s);
      assert s[0..] == s;
    }
  }

  /** What one chunk of the stream settles, after `kept` bytes without a newline. */
  lemma ChunkSettles(kept: seq<byte>, left: seq<byte>, offered: seq<byte>, used: nat)
    requires FirstNewline(kept) == |kept| <= MAX_REQUEST_BYTES && |kept| + |offered| <= MAX_REQUEST_BYTES + 1
    requires offered != [] && offered <= left
    requires used == if FirstNewline(offered) < |offered| then FirstNewline(offered) + 1 else |offered|
    ensures kept + left == (kept + offered[..used]) + left[used..]
    ensures FirstNewline(offered) < |offered| ==> Next(kept + left) == (Line, |kept| + used)
    ensures FirstNewline(offered) == |offered| ==>
              && FirstNewline(kept + offered[..used]) == |kept| + used
              && (|kept| + used == MAX_REQUEST_BYTES + 1 ==> Next(kept + left) == (TooLong, MAX_REQUEST_BYTES + 1))
  {
    hide FirstNewline;
    var rest := left[|offered|..];
    assert left == offered + rest;
    FirstNewlineSplits(kept, left);
    FirstNewlineSplits(offered, rest);
    FirstNewlineSplits(kept, offered);
    assert offered[..|offered|] == offered;
  }

  // ----------------------------------------------------------- implementation

  /** A buffered reader over a socket. Bytes turn up in pieces of any size. */
  class Stream {
    var rest: seq<byte>

    constructor (bytes: seq<byte>)
      ensures rest == bytes
    {
      rest := bytes;
    }

    /** What has arrived: nothing only at the end of the stream. The socket may fail instead. */
    method FillBuf() returns (available: Option<seq<byte>>)
      ensures available.Some? ==> available.value <= rest && (available.value == [] <==> rest == [])
    {
      var failed: bool, size: nat := *, *;
      if failed {
        return None;
      }
      available := Some(if 0 < size <= |rest| then rest[..size] else rest);
    }

    method Consume(used: nat)
      requires used <= |rest|
      modifies this
      ensures rest == old(rest)[used..]
    {
      rest := rest[used..];
    }
  }

  /** The buffer one connection reads its requests into. */
  class Buffer {
    var bytes: seq<byte>
    var capacity: nat

    constructor ()
      ensures bytes == [] && capacity == 0
    {
      bytes, capacity := [], 0;
    }

    /** Room grows geometrically, but never past the bound. */
    method Extend(more: seq<byte>)
      requires |bytes| + |more| <= MAX_REQUEST_BYTES + 1 && capacity <= MAX_REQUEST_BYTES + 1
      modifies this
      ensures bytes == old(bytes) + more
      ensures |bytes| <= capacity || capacity == old(capacity) >= |bytes|
      ensures old(capacity) <= capacity <= MAX_REQUEST_BYTES + 1
    {
      var needed := |bytes| + |more|;
      if needed > capacity {
        var doubled := (if capacity > 1 then capacity else 1) * 2;
        var target := if needed > doubled then needed else doubled;
        capacity := if target < MAX_REQUEST_BYTES + 1 then target else MAX_REQUEST_BYTES + 1;
      }
      bytes := bytes + more;
    }
  }

  /**
   Read one request. `None` is a socket error. However the stream is chunked, the
   outcome is the one the whole stream decides, exactly the bytes kept are
   consumed, and no more than the limit and one byte is ever held.
   */
  method ReadRequestLine(reader: Stream, line: Buffer) returns (outcome: Option<BoundedLine>)
    requires line.capacity <= MAX_REQUEST_BYTES + 1
    modifies reader, line
    ensures |line.bytes| <= MAX_REQUEST_BYTES + 1 && line.capacity <= MAX_REQUEST_BYTES + 1
    ensures line.bytes + reader.rest == old(reader.rest)
    ensures outcome.Some? ==> (outcome.value, |line.bytes|) == Next(old(reader.rest))
  {
    line.bytes := [];
    while true
      invariant |line.bytes| <= MAX_REQUEST_BYTES && line.capacity <= MAX_REQUEST_BYTES + 1
      invariant line.bytes + reader.rest == old(reader.rest)
      invariant FirstNewline(line.bytes) == |line.bytes|
      decreases |reader.rest|
    {
      hide Next, FirstNewline;
      var available := reader.FillBuf();
      if available.None? {
        return None;
      }
      if available.value == [] {
        AtEnd(line.bytes);
        return Some(if line.bytes == [] then Eof else Line);
      }
      var room := MAX_REQUEST_BYTES + 1 - |line.bytes|;
      var offered := if |available.value| < room then available.value else available.value[..room];
      var at := FirstNewline(offered);
      var used := if at < |offered| then at + 1 else |offered|;
      ChunkSettles(line.bytes, reader.rest, offered, used);
      line.Extend(offered[..used]);
      reader.Consume(used);
      if at < |offered| {
        return Some(Line);
      }
      if |line.bytes| == MAX_REQUEST_BYTES + 1 {
        return Some(TooLong);
      }
    }
  }

  lemma AtEnd(kept: seq<byte>)
    requires FirstNewline(kept) == |kept| <= MAX_REQUEST_BYTES
    ensures Next(kept + []) == (if kept == [] then Eof else Line, |kept|)
  {
    assert kept + [] == kept;
  }

  /** Read requests until the stream ends, fails, or offers one that is too long. */
  method ReadRequests(reader: Stream) returns (lines: seq<seq<byte>>, end: Option<BoundedLine>)
    modifies reader
    ensures end.Some? ==> (lines, end.value) == Split(old(reader.rest))
    ensures end.None? ==> Glued(lines) <= old(reader.rest)
  {
    hide Next, FirstNewline, Glued, Split;
    var line := new Buffer();
    lines := [];
    ghost var whole := reader.rest;
    SplitAll(whole);
    while true
      invariant line.capacity <= MAX_REQUEST_BYTES + 1 && fresh(line)
      invariant Read(whole, lines, reader.rest)
      decreases |reader.rest|
    {
      ghost var before := reader.rest;
      var outcome := ReadRequestLine(reader, line);
      if outcome.None? {
        ReadSome(whole, lines, before);
        return lines, None;
      }
      ReadOn(whole, lines, before, line.bytes, reader.rest, outcome.value);
      if outcome.value != Line {
        return lines, outcome;
      }
      lines := lines + [line.bytes];
    }
  }

  /** `lines` have been read from the stream, and `rest` is to come. */
  ghost predicate Read(whole: seq<byte>, lines: seq<seq<byte>>, rest: seq<byte>) {
    && Glued(lines) + rest == whole
    && Split(whole).0 == lines + Split(rest).0 && Split(whole).1 == Split(rest).1
  }

  lemma SplitAll(whole: seq<byte>)
    ensures Read(whole, [], whole)
  {
    assert [] + whole == whole;
    assert [] + Split(whole).0 == Split(whole).0;
  }

  lemma ReadSome(whole: seq<byte>, lines: seq<seq<byte>>, rest: seq<byte>)
    requires Read(whole, lines, rest)
    ensures Glued(lines) <= whole
  {
  }

  lemma SplitFirst(before: seq<byte>, line: seq<byte>, rest: seq<byte>)
    requires line + rest == before && (Line, |line|) == Next(before)
    ensures Split(before) == ([line] + Split(rest).0, Split(rest).1) && line != []
  {
    hide Next, FirstNewline, OneRequest;
    NextLine(before);
    assert before[..|line|] == line && before[|line|..] == rest;
  }

  lemma Regroup<T>(a: seq<T>, b: seq<T>, c: seq<T>)
    ensures a + (b + c) == (a + b) + c
  {
  }

  lemma ReadOn(whole: seq<byte>, lines: seq<seq<byte>>, before: seq<byte>, line: seq<byte>, rest: seq<byte>,
          kind: BoundedLine)
    requires Read(whole, lines, before) && line + rest == before && (kind, |line|) == Next(before)
    ensures kind == Line ==> Read(whole, lines + [line], rest) && |rest| < |before|
    ensures kind != Line ==> (lines, kind) == Split(whole)
  {
    hide Next, FirstNewline, Glued;
    if kind == Line {
      hide Split;
      SplitFirst(before, line, rest);
      GluedMore(lines, line);
      Regroup(Glued(lines), line, rest);
      Regroup(lines, [line], Split(rest).0);
    } else {
      assert lines + [] == lines;
    }
  }

  lemma {:induction false} GluedMore(lines: seq<seq<byte>>, line: seq<byte>)
    ensures Glued(lines + [line]) == Glued(lines) + line
  {
    if lines == [] {
      assert [] + [line] == [line];
      assert [line][1..] == [];
    } else {
      assert (lines + [line])[1..] == lines[1..] + [line];
      GluedMore(lines[1..], line);
    }
  }
}
