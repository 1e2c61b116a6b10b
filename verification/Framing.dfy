/** Framing over a byte stream: `LineBuffer` and `OutBuffer` of src/framing.hpp, the line splitter
    and the byte queue they refine, and what arrives under any chunking. */
module Framing {
  import opened Wrappers

  const MAX_LINE := 65536
  const RECV_SIZE := 4096

  // ------------------------------------------------------------------ the line splitter

  /** Position of the first newline, or the length. */
  function Break(s: string): (n: nat)
    ensures n <= |s|
    ensures '\n' !in s[..n]
    ensures n < |s| ==> s[n] == '\n'
  {
    if s == [] || s[0] == '\n' then 0
    else
      var n := Break(s[1..]);
      assert s[..n + 1] == [s[0]] + s[1..][..n];
      n + 1
  }

  function StripCr(s: string): string {
    if s != [] && s[|s| - 1] == '\r' then s[..|s| - 1] else s
  }

  /** The complete lines of `s`, without terminators. */
  function Lines(s: string): seq<string>
    decreases |s|
  {
    var n := Break(s);
    if n == |s| then [] else [StripCr(s[..n])] + Lines(s[n + 1..])
  }

  /** What follows the last newline. */
  function Rest(s: string): string
    decreases |s|
  {
    var n := Break(s);
    if n == |s| then s else Rest(s[n + 1..])
  }

  lemma {:induction false} BreakIs(s: string, n: nat)
    requires n <= |s| && '\n' !in s[..n] && (n < |s| ==> s[n] == '\n')
    ensures Break(s) == n
  {
    if n > 0 {
      assert s[..n] == [s[0]] + s[1..][..n - 1];
      BreakIs(s[1..], n - 1);
    }
  }

  lemma BreakLater(s: string, t: string)
    requires '\n' !in s
    ensures Break(s + t) == |s| + Break(t)
  {
    var n := |s| + Break(t);
    assert (s + t)[..n] == s + t[..Break(t)];
    BreakIs(s + t, n);
  }

  /** An unfinished line has no lines and is all rest. */
  lemma Unfinished(s: string)
    requires '\n' !in s
    ensures Break(s) == |s| && Lines(s) == [] && Rest(s) == s
  {
    assert s[..|s|] == s;
    BreakIs(s, |s|);
  }

  /** An unfinished line followed by a newline. */
  lemma Finished(s: string, t: string)
    requires '\n' !in s
    ensures Break(s + "\n" + t) == |s|
    ensures Lines(s + "\n" + t) == [StripCr(s)] + Lines(t)
    ensures Rest(s + "\n" + t) == Rest(t)
  {
    var all := s + "\n" + t;
    assert all[..|s|] == s && all[|s| + 1..] == t;
    BreakIs(all, |s|);
  }

  /** Splitting can stop anywhere and go on with what is left over. */
  lemma {:induction false} SplitConcat(s: string, t: string)
    ensures Lines(s + t) == Lines(s) + Lines(Rest(s) + t)
    ensures Rest(s + t) == Rest(Rest(s) + t)
    decreases |s|
  {
    var n := Break(s);
    if n < |s| {
      assert (s + t)[..n] == s[..n] && (s + t)[n + 1..] == s[n + 1..] + t;
      BreakIs(s + t, n);
      SplitConcat(s[n + 1..], t);
    }
  }

  lemma {:induction false} RestClean(s: string)
    ensures '\n' !in Rest(s) && Lines(Rest(s)) == [] && Rest(Rest(s)) == Rest(s)
    decreases |s|
  {
    var n := Break(s);
    if n < |s| {
      RestClean(s[n + 1..]);
    } else {
      assert s[..n] == s;
    }
  }

  /** Text whose lines are `ls`. */
  function Unlines(ls: seq<string>): string {
    if ls == [] then [] else ls[0] + "\n" + Unlines(ls[1..])
  }

  ghost predicate Plain(l: string) {
    '\n' !in l && (l != [] ==> l[|l| - 1] != '\r')
  }

  /** The splitter undoes writing lines out, whatever unfinished line follows. */
  lemma {:induction false} SplitUnlines(ls: seq<string>, tail: string)
    requires forall i :: 0 <= i < |ls| ==> Plain(ls[i])
    requires '\n' !in tail
    ensures Lines(Unlines(ls) + tail) == ls && Rest(Unlines(ls) + tail) == tail
  {
    hide Lines, Rest, Break;
    if ls == [] {
      assert Unlines(ls) + tail == tail;
      Unfinished(tail);
    } else {
      var more := Unlines(ls[1..]) + tail;
      assert Unlines(ls) + tail == ls[0] + "\n" + more;
      Finished(ls[0], more);
      SplitUnlines(ls[1..], tail);
    }
  }

  /** Text whose lines are `ls`, each ended by LF or, where `crs` says so, by CR LF. */
  function Terminated(ls: seq<string>, crs: seq<bool>): string
    requires |crs| == |ls|
  {
    if ls == [] then [] else ls[0] + (if crs[0] then "\r\n" else "\n") + Terminated(ls[1..], crs[1..])
  }

  /** Both line ends are understood, in any mixture: a line may contain anything but LF, and ended by
      LF alone it must not end in CR. */
  lemma {:induction false} SplitTerminated(ls: seq<string>, crs: seq<bool>, tail: string)
    requires |crs| == |ls| && '\n' !in tail
    requires forall i :: 0 <= i < |ls| ==> '\n' !in ls[i] && (crs[i] || Plain(ls[i]))
    ensures Lines(Terminated(ls, crs) + tail) == ls && Rest(Terminated(ls, crs) + tail) == tail
  {
    hide Lines, Rest, Break;
    if ls == [] {
      assert Terminated(ls, crs) + tail == tail;
      Unfinished(tail);
    } else {
      var l := if crs[0] then ls[0] + "\r" else ls[0];
      var more := Terminated(ls[1..], crs[1..]) + tail;
      assert Terminated(ls, crs) + tail == l + "\n" + more;
      assert crs[0] ==> l[..|l| - 1] == ls[0] && "\r\n" == "\r" + "\n";
      Finished(l, more);
      SplitTerminated(ls[1..], crs[1..], tail);
    }
  }

  // ------------------------------------------------------------------ LineBuffer

  datatype LineStatus = Ok(line: string) | NeedMore | TooLong

  /** One `next_line` call on a buffer, and the buffer after it. */
  function NextLine(buf: string): (LineStatus, string) {
    var n := Break(buf);
    if n == |buf| then (if |buf| > MAX_LINE then TooLong else NeedMore, buf)
    else (Ok(StripCr(buf[..n])), buf[n + 1..])
  }

  /** One `next_line` call splits off the first line. */
  lemma NextSplits(buf: string)
    ensures var (st, rest) := NextLine(buf);
            if st.Ok? then Lines(buf) == [st.line] + Lines(rest) && Rest(buf) == Rest(rest) && |rest| < |buf|
            else Lines(buf) == [] && Rest(buf) == buf && rest == buf
  {
  }

  method FindNewline(s: string) returns (pos: nat)
    ensures pos == Break(s)
  {
    pos := 0;
    while pos < |s| && s[pos] != '\n'
      invariant pos <= |s|
      invariant '\n' !in s[..pos]
    {
      pos := pos + 1;
    }
    BreakIs(s, pos);
  }

  /** `next_line`: the first line of a buffer, or why there is none, and the buffer after it. */
  method SplitLine(buf: string) returns (st: LineStatus, rest: string)
    ensures (st, rest) == NextLine(buf)
  {
    var pos := FindNewline(buf);
    if pos == |buf| {
      return if |buf| > MAX_LINE then TooLong else NeedMore, buf;
    }
    var out := buf[..pos];
    if out != [] && out[|out| - 1] == '\r' {
      out := out[..|out| - 1];
    }
    return Ok(out), buf[pos + 1..];
  }

  class LineBuffer {
    var buf: string

    constructor ()
      ensures buf == []
    {
      buf := [];
    }

    method Append(chunk: string)
      modifies this
      ensures buf == old(buf) + chunk
    {
      buf := buf + chunk;
    }

    method Next() returns (st: LineStatus)
      modifies this
      ensures (st, buf) == NextLine(old(buf))
    {
      st, buf := SplitLine(buf);
    }

    /** The client's loop: append a chunk and take lines for as long as there are any. */
    method Drain(chunk: string) returns (lines: seq<string>)
      modifies this
      ensures lines == Lines(old(buf) + chunk)
      ensures buf == Rest(old(buf) + chunk)
    {
      hide Lines, Rest, Break, NextLine;
      Append(chunk);
      lines := [];
      ghost var all := buf;
      var st := NeedMore;
      var more := true;
      while more
        invariant lines + Lines(buf) == Lines(all) && Rest(buf) == Rest(all)
        invariant !more ==> Lines(buf) == [] && Rest(buf) == buf
        decreases more, |buf|
      {
        NextSplits(buf);
        st := Next();
        if st.Ok? {
          lines := lines + [st.line];
        } else {
          more := false;
        }
      }
    }
  }

  // ------------------------------------------------------------------ any chunking

  function Concat(chunks: seq<string>): string {
    if chunks == [] then [] else chunks[0] + Concat(chunks[1..])
  }

  /** What the server's read loop gets out of its buffer, chunk by chunk: the lines handed over,
      the buffer, and whether it gave up because of a long line. */
  datatype Fed = Fed(lines: seq<string>, rest: string, refused: bool)

  function Feed(buf: string, chunks: seq<string>): Fed
    decreases |chunks|
  {
    if chunks == [] then Fed([], buf, false)
    else
      var b := buf + chunks[0];
      if |Rest(b)| > MAX_LINE then Fed(Lines(b), Rest(b), true)
      else
        var f := Feed(Rest(b), chunks[1..]);
        f.(lines := Lines(b) + f.lines)
  }

  /** Every line of `s`, and what follows the last one, is at most `MAX_LINE` bytes. */
  ghost predicate Fits(s: string)
    decreases |s|
  {
    var n := Break(s);
    n <= MAX_LINE && (n < |s| ==> Fits(s[n + 1..]))
  }

  lemma {:induction false} FitsPrefix(s: string, t: string)
    requires Fits(s + t)
    ensures Fits(s)
    decreases |s|
  {
    var n := Break(s);
    if n < |s| {
      assert (s + t)[..n] == s[..n] && (s + t)[n + 1..] == s[n + 1..] + t;
      BreakIs(s + t, n);
      FitsPrefix(s[n + 1..], t);
    } else {
      assert s[..n] == s;
      BreakLater(s, t);
    }
  }

  lemma FitsRest(s: string)
    requires Fits(s)
    ensures |Rest(s)| <= MAX_LINE
  {
    assert s + [] == s;
    FitsConcat(s, []);
  }

  lemma {:induction false} FitsConcat(s: string, t: string)
    requires Fits(s + t)
    ensures |Rest(s)| <= MAX_LINE && Fits(Rest(s) + t)
    decreases |s|
  {
    var n := Break(s);
    if n < |s| {
      assert (s + t)[..n] == s[..n] && (s + t)[n + 1..] == s[n + 1..] + t;
      BreakIs(s + t, n);
      FitsConcat(s[n + 1..], t);
    } else {
      assert s[..n] == s;
      BreakLater(s, t);
    }
  }

  lemma ConcatCons(buf: string, chunks: seq<string>)
    requires chunks != []
    ensures buf + Concat(chunks) == (buf + chunks[0]) + Concat(chunks[1..])
  {
  }

  /** Whatever the chunking, the lines handed over are an initial part of the lines of the whole
      stream, and all of them unless a long line made the server give up. */
  lemma {:induction false} FeedPrefix(buf: string, chunks: seq<string>)
    requires '\n' !in buf
    ensures var f := Feed(buf, chunks);
            var all := buf + Concat(chunks);
            && f.lines <= Lines(all)
            && (!f.refused ==> f.lines == Lines(all) && f.rest == Rest(all))
    decreases |chunks|
  {
    if chunks == [] {
      assert buf + [] == buf;
      BreakIs(buf, |buf|);
    } else {
      var b := buf + chunks[0];
      ConcatCons(buf, chunks);
      SplitConcat(b, Concat(chunks[1..]));
      RestClean(b);
      FeedPrefix(Rest(b), chunks[1..]);
    }
  }

  /** Lines of legal length never make the server give up, however they are cut. */
  lemma {:induction false} FeedFits(buf: string, chunks: seq<string>)
    requires Fits(buf + Concat(chunks))
    ensures !Feed(buf, chunks).refused
    decreases |chunks|
  {
    if chunks != [] {
      var b := buf + chunks[0];
      ConcatCons(buf, chunks);
      FitsConcat(b, Concat(chunks[1..]));
      FeedFits(Rest(b), chunks[1..]);
    }
  }

  function Singles(s: string): (chunks: seq<string>)
    ensures Concat(chunks) == s
    ensures forall i :: 0 <= i < |chunks| ==> |chunks[i]| == 1
  {
    if s == [] then [] else [[s[0]]] + Singles(s[1..])
  }

  /** One byte at a time, a line over the limit is always noticed. */
  lemma {:induction false} SinglesRefused(buf: string, s: string)
    requires '\n' !in buf && |buf| <= MAX_LINE && !Fits(buf + s)
    ensures Feed(buf, Singles(s)).refused
    decreases |s|
  {
    hide Break, Lines, Rest, Feed, Fits;
    if s == [] {
      assert buf + s == buf;
      Unfinished(buf);
      UnfinishedFits(buf);
    } else {
      var b := buf + [s[0]];
      assert buf + s == b + s[1..];
      FeedCons(buf, [s[0]], Singles(s[1..]));
      if s[0] == '\n' {
        assert b + [] == b && [s[0]] == "\n";
        Finished(buf, []);
        Unfinished([]);
        FinishedFits(buf, s[1..]);
        assert [] + s[1..] == s[1..];
        SinglesRefused([], s[1..]);
      } else {
        Unfinished(b);
        if |b| <= MAX_LINE {
          SinglesRefused(b, s[1..]);
        }
      }
    }
  }

  lemma UnfinishedFits(s: string)
    requires '\n' !in s
    ensures Fits(s) <==> |s| <= MAX_LINE
  {
    Unfinished(s);
  }

  lemma FinishedFits(s: string, t: string)
    requires '\n' !in s && |s| <= MAX_LINE
    ensures Fits(s + "\n" + t) <==> Fits(t)
  {
    Finished(s, t);
    assert (s + "\n" + t)[|s| + 1..] == t;
  }

  lemma FeedCons(buf: string, chunk: string, chunks: seq<string>)
    ensures Feed(buf, [chunk] + chunks) ==
            var b := buf + chunk;
            if |Rest(b)| > MAX_LINE then Fed(Lines(b), Rest(b), true)
            else var f := Feed(Rest(b), chunks); f.(lines := Lines(b) + f.lines)
  {
    assert ([chunk] + chunks)[1..] == chunks;
  }

  ghost predicate Chunking(chunks: seq<string>, s: string) {
    Concat(chunks) == s && forall i :: 0 <= i < |chunks| ==> 1 <= |chunks[i]| <= RECV_SIZE
  }

  /** A stream is safe from refusal under every chunking exactly when each of its lines fits. */
  lemma NeverRefused(s: string)
    ensures (forall chunks :: Chunking(chunks, s) ==> !Feed([], chunks).refused) <==> Fits(s)
  {
    assert [] + s == s;
    if Fits(s) {
      forall chunks | Chunking(chunks, s)
        ensures !Feed([], chunks).refused
      {
        FeedFits([], chunks);
      }
    } else {
      SinglesRefused([], s);
      assert Chunking(Singles(s), s);
    }
  }

  // ------------------------------------------------------------------ lines over the limit

  /** Every finished line is less than `MAX_LINE + RECV_SIZE` bytes, and what follows the last one
      at most `MAX_LINE`. */
  ghost predicate Tolerable(s: string)
    decreases |s|
  {
    var n := Break(s);
    if n == |s| then n <= MAX_LINE else n < MAX_LINE + RECV_SIZE && Tolerable(s[n + 1..])
  }

  lemma {:induction false} TolerableConcat(b: string, more: string)
    requires |b| <= MAX_LINE + RECV_SIZE && Tolerable(Rest(b) + more)
    ensures Tolerable(b + more)
    decreases |b|
  {
    var n := Break(b);
    if n < |b| {
      assert (b + more)[..n] == b[..n] && (b + more)[n + 1..] == b[n + 1..] + more;
      BreakIs(b + more, n);
      TolerableConcat(b[n + 1..], more);
    }
  }

  lemma {:induction false} AcceptedTolerable(buf: string, chunks: seq<string>)
    requires '\n' !in buf && |buf| <= MAX_LINE && !Feed(buf, chunks).refused
    requires forall i :: 0 <= i < |chunks| ==> |chunks[i]| <= RECV_SIZE
    ensures Tolerable(buf + Concat(chunks))
    decreases |chunks|
  {
    if chunks == [] {
      assert buf + Concat(chunks) == buf;
      Unfinished(buf);
    } else {
      hide Tolerable;
      var b := buf + chunks[0];
      RestClean(b);
      ConcatCons(buf, chunks);
      AcceptedTolerable(Rest(b), chunks[1..]);
      TolerableConcat(b, Concat(chunks[1..]));
    }
  }

  /** The most patient way to deliver a line: byte by byte, but with everything over the limit in the
      chunk that brings its newline. */
  function LineChunks(l: string): seq<string> {
    var p := if |l| <= MAX_LINE then |l| else MAX_LINE;
    Singles(l[..p]) + [l[p..] + "\n"]
  }

  function Patient(s: string): seq<string>
    decreases |s|
  {
    var n := Break(s);
    if n == |s| then Singles(s) else LineChunks(s[..n]) + Patient(s[n + 1..])
  }

  lemma {:induction false} ConcatAppend(a: seq<string>, b: seq<string>)
    ensures Concat(a + b) == Concat(a) + Concat(b)
  {
    if a == [] {
      assert a + b == b;
    } else {
      assert (a + b)[1..] == a[1..] + b;
      ConcatAppend(a[1..], b);
    }
  }

  lemma {:induction false} FeedAppend(buf: string, a: seq<string>, b: seq<string>)
    requires !Feed(buf, a).refused
    ensures Feed(buf, a + b).refused == Feed(Feed(buf, a).rest, b).refused
    decreases |a|
  {
    if a == [] {
      assert a + b == b;
    } else {
      assert (a + b)[1..] == a[1..] + b;
      FeedAppend(Rest(buf + a[0]), a[1..], b);
    }
  }

  lemma {:induction false} SinglesQuiet(buf: string, s: string)
    requires '\n' !in buf + s && |buf + s| <= MAX_LINE
    ensures Feed(buf, Singles(s)) == Fed([], buf + s, false)
    decreases |s|
  {
    if s == [] {
      assert buf + s == buf;
    } else {
      hide Feed, Lines, Rest;
      var b := buf + [s[0]];
      assert b + s[1..] == buf + s;
      FeedCons(buf, [s[0]], Singles(s[1..]));
      Unfinished(b);
      SinglesQuiet(b, s[1..]);
    }
  }

  lemma LineQuiet(l: string, rest: seq<string>)
    requires '\n' !in l && !Feed([], rest).refused
    ensures !Feed([], LineChunks(l) + rest).refused
  {
    hide Feed, Lines, Rest, Singles;
    var p := if |l| <= MAX_LINE then |l| else MAX_LINE;
    var u, last := l[..p], l[p..] + "\n";
    assert [] + u == u;
    SinglesQuiet([], u);
    assert u + last == l + "\n" + [];
    Finished(l, []);
    Unfinished([]);
    FeedCons(u, last, rest);
    FeedAppend([], Singles(u), [last] + rest);
    assert Singles(u) + ([last] + rest) == LineChunks(l) + rest;
  }

  lemma LineChunking(l: string, rest: seq<string>, t: string)
    requires |l| < MAX_LINE + RECV_SIZE && Chunking(rest, t)
    ensures Chunking(LineChunks(l) + rest, l + "\n" + t)
  {
    hide Concat, Singles;
    var p := if |l| <= MAX_LINE then |l| else MAX_LINE;
    var u, last := l[..p], l[p..] + "\n";
    ConcatAppend(LineChunks(l), rest);
    ConcatAppend(Singles(u), [last]);
    ConcatOne(last, []);
    ConcatNone();
    assert [last] + [] == [last] && last + [] == last;
    assert u + last + t == l + "\n" + t;
  }

  lemma ConcatNone()
    ensures Concat([]) == []
  {
  }

  lemma ConcatOne(c: string, chunks: seq<string>)
    ensures Concat([c] + chunks) == c + Concat(chunks)
  {
    assert ([c] + chunks)[1..] == chunks;
  }

  lemma SinglesChunking(s: string)
    ensures Chunking(Singles(s), s)
  {
  }

  lemma {:induction false} PatientAccepted(s: string)
    requires Tolerable(s)
    ensures Chunking(Patient(s), s) && !Feed([], Patient(s)).refused
    decreases |s|
  {
    hide Feed, Chunking, Break;
    var n := Break(s);
    if n == |s| {
      assert s[..n] == s && [] + s == s;
      SinglesQuiet([], s);
      SinglesChunking(s);
    } else {
      var l, t := s[..n], s[n + 1..];
      PatientAccepted(t);
      LineQuiet(l, Patient(t));
      LineChunking(l, Patient(t), t);
      assert s == l + "\n" + t;
    }
  }

  /** Some way of receiving a stream in chunks of at most 4096 bytes gets it accepted if and only if
      every finished line is below 65536 + 4096 bytes and the unfinished rest at most 65536. */
  lemma SometimesAccepted(s: string)
    ensures (exists chunks :: Chunking(chunks, s) && !Feed([], chunks).refused) <==> Tolerable(s)
  {
    hide Feed, Tolerable;
    if Tolerable(s) {
      PatientAccepted(s);
    }
    if chunks :| Chunking(chunks, s) && !Feed([], chunks).refused {
      AcceptedTolerable([], chunks);
      assert [] + s == s;
    }
  }

  /** So whether a line of 65537 to 69631 bytes is accepted depends on how it arrives: this pair of
      chunkings, both of legal chunks, goes either way. */
  lemma RefusalDependsOnChunking(l: string)
    requires '\n' !in l && 65536 < |l| < 65536 + 4096
    ensures var s := l + "\n";
            && Chunking(Patient(s), s) && !Feed([], Patient(s)).refused
            && Chunking(Singles(s), s) && Feed([], Singles(s)).refused
  {
    var s := l + "\n";
    assert s == l + "\n" + [] && s[|l| + 1..] == [];
    Finished(l, []);
    Unfinished([]);
    PatientAccepted(s);
    assert [] + s == s;
    SinglesRefused([], s);
  }

  /** The client has no limit: it gets the lines of the stream under every chunking. */
  function Receive(buf: string, chunks: seq<string>): (seq<string>, string)
    decreases |chunks|
  {
    if chunks == [] then ([], buf)
    else
      var (ls, r) := Receive(Rest(buf + chunks[0]), chunks[1..]);
      (Lines(buf + chunks[0]) + ls, r)
  }

  lemma {:induction false} ReceiveAll(buf: string, chunks: seq<string>)
    requires '\n' !in buf
    ensures Receive(buf, chunks) == (Lines(buf + Concat(chunks)), Rest(buf + Concat(chunks)))
    decreases |chunks|
  {
    if chunks == [] {
      assert buf + [] == buf && buf[..|buf|] == buf;
      BreakIs(buf, |buf|);
    } else {
      var b := buf + chunks[0];
      ConcatCons(buf, chunks);
      SplitConcat(b, Concat(chunks[1..]));
      RestClean(b);
      ReceiveAll(Rest(b), chunks[1..]);
    }
  }

  // ------------------------------------------------------------------ OutBuffer

  /** The most consumed bytes the buffer keeps in front of what is pending. */
  const SLACK := 4096

  /** Stored bytes, of which the first `off` are already consumed. */
  datatype OutBuf = OutBuf(data: string, off: nat) {
    ghost predicate Valid() {
      off <= |data| && off <= SLACK
    }

    function Pending(): string {
      if off <= |data| then data[off..] else []
    }

    function Push(s: string): OutBuf {
      OutBuf(data + s, off)
    }

    function Consume(n: nat): OutBuf {
      if off + n >= |data| then OutBuf([], 0)
      else if off + n > SLACK then OutBuf(data[off + n..], 0)
      else OutBuf(data, off + n)
    }

    /** Consuming `n` moves the stored bytes: the only costly case. */
    predicate Compacts(n: nat) {
      off + n < |data| && off + n > SLACK
    }
  }

  lemma PushPending(b: OutBuf, s: string)
    requires b.Valid()
    ensures b.Push(s).Valid() && b.Push(s).Pending() == b.Pending() + s
  {
  }

  lemma ConsumePending(b: OutBuf, n: nat)
    requires b.Valid() && n <= |b.Pending()|
    ensures b.Consume(n).Valid() && b.Consume(n).Pending() == b.Pending()[n..]
  {
    assert b.Pending()[n..] == b.data[b.off + n..];
  }

  class OutBuffer {
    var data: string
    var off: nat

    ghost function Model(): OutBuf
      reads this
    {
      OutBuf(data, off)
    }

    constructor ()
      ensures Model() == OutBuf([], 0)
    {
      data, off := [], 0;
    }

    method Push(s: string)
      modifies this
      ensures Model() == old(Model()).Push(s)
    {
      data := data + s;
    }

    method Empty() returns (r: bool)
      ensures r <==> Model().Pending() == []
    {
      r := off >= |data|;
    }

    method Consume(n: nat)
      modifies this
      ensures Model() == old(Model()).Consume(n)
    {
      off := off + n;
      if off >= |data| {
        data, off := [], 0;
      } else if off > SLACK {
        data, off := data[off..], 0;
      }
    }

    method Clear()
      modifies this
      ensures Model() == OutBuf([], 0)
    {
      data, off := [], 0;
    }
  }

  datatype BufOp = Pushed(bytes: string) | Consumed(n: nat)

  /** The buffer next to a plain byte queue, the bytes consumed and the compactions so far. */
  datatype BufRun = BufRun(buf: OutBuf, queue: string, consumed: nat, compactions: nat)

  /** Any sequence of operations that never consumes more than is pending, from an empty buffer. */
  function RunBuf(ops: seq<BufOp>): Option<BufRun> {
    if ops == [] then Some(BufRun(OutBuf([], 0), [], 0, 0))
    else
      match RunBuf(ops[..|ops| - 1])
      case None => None
      case Some(r) =>
        match ops[|ops| - 1]
        case Pushed(s) => Some(r.(buf := r.buf.Push(s), queue := r.queue + s))
        case Consumed(n) =>
          if n > |r.queue| then None
          else Some(BufRun(r.buf.Consume(n), r.queue[n..], r.consumed + n,
                           r.compactions + if r.buf.Compacts(n) then 1 else 0))
  }

  /** The offset buffer is a byte queue: same pending bytes after every run, at most 4096 dead bytes
      stored, and one compaction at most for every 4097 bytes consumed. */
  lemma {:induction false} OutBufferIsQueue(ops: seq<BufOp>)
    ensures match RunBuf(ops)
            case None => true
            case Some(r) =>
              && r.buf.Valid()
              && r.buf.Pending() == r.queue
              && r.buf.off <= SLACK
              && |r.buf.data| <= |r.queue| + SLACK
              && r.compactions * (SLACK + 1) + r.buf.off <= r.consumed
  {
    if ops != [] {
      OutBufferIsQueue(ops[..|ops| - 1]);
      if RunBuf(ops[..|ops| - 1]).Some? {
        var r := RunBuf(ops[..|ops| - 1]).value;
        match ops[|ops| - 1]
        case Pushed(s) => PushPending(r.buf, s);
        case Consumed(n) =>
          if n <= |r.queue| {
            ConsumePending(r.buf, n);
          }
      }
    }
  }
}
