/**
 * Line framing of the byte stream: the buffer is cut at every `\r\n`
 * (lib/parse_stream.js, `parseJSON`). Framing is defined here as pure
 * functions over byte sequences; the class in parse_stream.dfy runs the
 * same cuts in place and is proved against `Frame`.
 */
module Framing {
  import opened Wrappers

  type Byte = b: int | 0 <= b < 256
  type Bytes = seq<Byte>

  const CR: Byte := 13
  const LF: Byte := 10

  /** The 2-byte record terminator `\r\n`. */
  const EOL: Bytes := [CR, LF]

  /** A terminator starts at index `i` of `s`. */
  predicate TerminatorAt(s: Bytes, i: int)
  {
    0 <= i && i + 1 < |s| && s[i] == CR && s[i + 1] == LF
  }

  predicate HasTerminator(s: Bytes)
  {
    exists i | 0 <= i < |s| :: TerminatorAt(s, i)
  }

  /** The first terminator at or after `k`, or -1 (the search of `Buffer.indexOf`). */
  function IndexFrom(s: Bytes, k: nat): (r: int)
    requires k <= |s|
    decreases |s| - k
    ensures r == -1 || (k <= r && TerminatorAt(s, r))
    ensures forall j :: k <= j && (r == -1 || j < r) ==> !TerminatorAt(s, j)
  {
    if k + 1 >= |s| then -1
    else if s[k] == CR && s[k + 1] == LF then k
    else IndexFrom(s, k + 1)
  }

  /** `buffer.indexOf('\r\n')`: the index of the first terminator, -1 when there is none. */
  function IndexOfTerminator(s: Bytes): (r: int)
    ensures r == -1 <==> !HasTerminator(s)
    ensures r != -1 ==> TerminatorAt(s, r) && forall j :: 0 <= j < r ==> !TerminatorAt(s, j)
  {
    var r := IndexFrom(s, 0);
    assert r != -1 ==> TerminatorAt(s, r);
    r
  }

  /** The complete lines cut from a buffer, in order, and the unterminated rest. */
  datatype Framed = Framed(lines: seq<Bytes>, rest: Bytes)

  /**
   * Repeatedly cut `s` at its first terminator: the line before it is
   * emitted, the line and its 2-byte terminator are removed from the front.
   */
  function Frame(s: Bytes): (f: Framed)
    decreases |s|
    ensures !HasTerminator(f.rest)
    ensures |f.rest| <= |s|
  {
    var i := IndexOfTerminator(s);
    if i == -1 then Framed([], s)
    else
      var g := Frame(s[i + 2..]);
      Framed([s[..i]] + g.lines, g.rest)
  }

  /** Each line followed by its terminator, concatenated. */
  function Terminated(lines: seq<Bytes>): Bytes
  {
    if lines == [] then [] else lines[0] + EOL + Terminated(lines[1..])
  }

  /** The bytes `lines` and `rest` were framed from. */
  function Unframe(f: Framed): Bytes
  {
    Terminated(f.lines) + f.rest
  }

  /**
   * Appending chunks one at a time, framing after each: the append-and-frame
   * path of `_transform` over a stream, where the buffer never grows past the
   * 50 MiB guard (the guard itself is in `TweetStreamParser.Transform`). Once
   * a chunk has been fed, the buffer holds no terminator, and it never holds
   * more than what was fed.
   */
  function Feed(buffer: Bytes, chunks: seq<Bytes>): (f: Framed)
    decreases |chunks|
    ensures chunks != [] ==> !HasTerminator(f.rest)
    ensures |f.rest| <= |buffer| + |Concat(chunks)|
  {
    if chunks == [] then Framed([], buffer)
    else
      var first := Frame(buffer + chunks[0]);
      var g := Feed(first.rest, chunks[1..]);
      Framed(first.lines + g.lines, g.rest)
  }

  function Concat(chunks: seq<Bytes>): Bytes
  {
    if chunks == [] then [] else chunks[0] + Concat(chunks[1..])
  }

  /** A buffer is the bytes before a terminator, the terminator, and the bytes after it. */
  lemma SplitAtTerminator(s: Bytes, i: int)
    requires TerminatorAt(s, i)
    ensures s == s[..i] + EOL + s[i + 2..]
  {
    assert s[i..i + 2] == EOL;
    assert s == s[..i] + s[i..i + 2] + s[i + 2..];
  }

  /** A buffer without a terminator frames to no lines and is left as it is. */
  lemma FrameWithoutTerminator(s: Bytes)
    requires !HasTerminator(s)
    ensures Frame(s) == Framed([], s)
  {
  }

  /**
   * One iteration of the framing loop: the first line is the bytes before
   * the first terminator, and framing goes on with what follows the
   * terminator.
   */
  lemma FrameStep(s: Bytes)
    requires HasTerminator(s)
    ensures var i := IndexOfTerminator(s);
      0 <= i && i + 2 <= |s| && Frame(s).lines == [s[..i]] + Frame(s[i + 2..]).lines && Frame(s).rest == Frame(s[i + 2..]).rest
  {
  }

  /** The bytes before the first terminator contain none. */
  lemma PrefixBeforeFirstTerminator(s: Bytes, i: int)
    requires 0 <= i && i + 1 < |s|
    requires forall j :: 0 <= j < i ==> !TerminatorAt(s, j)
    ensures !HasTerminator(s[..i])
  {
    forall j | 0 <= j < |s[..i]|
      ensures !TerminatorAt(s[..i], j)
    {
      if j + 1 < i {
        assert !TerminatorAt(s, j);
        assert s[..i][j] == s[j] && s[..i][j + 1] == s[j + 1];
      }
    }
  }

  /** No line cut from a buffer contains a terminator. */
  lemma {:induction false} FrameLinesHaveNoTerminator(s: Bytes)
    decreases |s|
    ensures forall k :: 0 <= k < |Frame(s).lines| ==> !HasTerminator(Frame(s).lines[k])
  {
    var i := IndexOfTerminator(s);
    if i != -1 {
      PrefixBeforeFirstTerminator(s, i);
      FrameLinesHaveNoTerminator(s[i + 2..]);
    }
  }

  /** Framing drops no byte: the lines, each with its terminator, followed by the rest, are the input. */
  lemma {:induction false} FrameIsLossless(s: Bytes)
    decreases |s|
    ensures Unframe(Frame(s)) == s
  {
    var i := IndexOfTerminator(s);
    if i != -1 {
      var l, t := s[..i], s[i + 2..];
      var g := Frame(t);
      FrameIsLossless(t);
      assert ([l] + g.lines)[1..] == g.lines;
      assert Terminated([l] + g.lines) == l + EOL + Terminated(g.lines);
      AppendAssociates(l + EOL, Terminated(g.lines), g.rest);
      SplitAtTerminator(s, i);
    }
  }

  /** The first terminator of `l + EOL + t`, when `l` has none, is the one after `l`. */
  lemma FirstTerminatorAfterLine(l: Bytes, t: Bytes)
    requires !HasTerminator(l)
    ensures IndexOfTerminator(l + EOL + t) == |l|
  {
    var s := l + EOL + t;
    assert TerminatorAt(s, |l|);
    forall j | 0 <= j < |l|
      ensures !TerminatorAt(s, j)
    {
      if j + 1 < |l| {
        assert s[j] == l[j] && s[j + 1] == l[j + 1];
        assert !TerminatorAt(l, j);
      } else {
        assert s[j + 1] == CR;
      }
    }
  }

  /**
   * The converse of `FrameIsLossless`: framing terminated lines that hold no
   * terminator, followed by a rest that holds none, gives those lines and
   * that rest back.
   */
  lemma {:induction false} UnframeThenFrame(lines: seq<Bytes>, rest: Bytes)
    requires forall k :: 0 <= k < |lines| ==> !HasTerminator(lines[k])
    requires !HasTerminator(rest)
    decreases |lines|
    ensures Frame(Unframe(Framed(lines, rest))) == Framed(lines, rest)
  {
    if lines != [] {
      var l, t := lines[0], Terminated(lines[1..]) + rest;
      var s := Unframe(Framed(lines, rest));
      assert Terminated(lines) == l + EOL + Terminated(lines[1..]);
      AppendAssociates(l + EOL, Terminated(lines[1..]), rest);
      FirstTerminatorAfterLine(l, t);
      assert s[..|l|] == l;
      assert s[|l| + 2..] == t;
      UnframeThenFrame(lines[1..], rest);
      assert [l] + lines[1..] == lines;
    } else {
      assert Unframe(Framed(lines, rest)) == rest;
      FrameWithoutTerminator(rest);
    }
  }

  /** A terminator that lies in `a` is found at the same place in `a + b`. */
  lemma IndexOfAppend(a: Bytes, b: Bytes)
    requires HasTerminator(a)
    ensures IndexOfTerminator(a + b) == IndexOfTerminator(a)
  {
    var i := IndexOfTerminator(a);
    assert TerminatorAt(a + b, i);
    forall j | 0 <= j < i
      ensures !TerminatorAt(a + b, j)
    {
      assert !TerminatorAt(a, j) && j + 1 < |a|;
      assert (a + b)[j] == a[j] && (a + b)[j + 1] == a[j + 1];
    }
  }

  lemma {:induction false} FrameAppendLines(a: Bytes, b: Bytes)
    decreases |a|
    ensures Frame(a + b).lines == Frame(a).lines + Frame(Frame(a).rest + b).lines
  {
    if HasTerminator(a) {
      var i := IndexOfTerminator(a);
      IndexOfAppend(a, b);
      var t := a[i + 2..];
      assert (a + b)[..i] == a[..i];
      assert (a + b)[i + 2..] == t + b;
      FrameAppendLines(t, b);
      AppendAssociates([a[..i]], Frame(t).lines, Frame(Frame(t).rest + b).lines);
    }
  }

  lemma {:induction false} FrameAppendRest(a: Bytes, b: Bytes)
    decreases |a|
    ensures Frame(a + b).rest == Frame(Frame(a).rest + b).rest
  {
    if HasTerminator(a) {
      var i := IndexOfTerminator(a);
      IndexOfAppend(a, b);
      assert (a + b)[i + 2..] == a[i + 2..] + b;
      FrameAppendRest(a[i + 2..], b);
    }
  }

  /**
   * Framing `a + b` is framing `a`, then framing what `a` left unconsumed
   * followed by `b`.
   */
  lemma FrameAppend(a: Bytes, b: Bytes)
    ensures Frame(a + b) == Framed(Frame(a).lines + Frame(Frame(a).rest + b).lines, Frame(Frame(a).rest + b).rest)
  {
    FrameAppendLines(a, b);
    FrameAppendRest(a, b);
  }

  /**
   * Split invariance: feeding chunks one at a time to a buffer that holds
   * no terminator gives the same lines, in the same order, and the same
   * final buffer as feeding their concatenation at once.
   */
  lemma {:induction false} FeedIsSplitInvariant(buffer: Bytes, chunks: seq<Bytes>)
    requires !HasTerminator(buffer)
    decreases |chunks|
    ensures Feed(buffer, chunks) == Frame(buffer + Concat(chunks))
  {
    if chunks == [] {
      assert buffer + Concat(chunks) == buffer;
      FrameWithoutTerminator(buffer);
    } else {
      var c, cs := chunks[0], chunks[1..];
      var f := Frame(buffer + c);
      FeedIsSplitInvariant(f.rest, cs);
      assert Concat(chunks) == c + Concat(cs);
      AppendAssociates(buffer, c, Concat(cs));
      FrameAppend(buffer + c, Concat(cs));
    }
  }
}
