/**
 * `TweetStreamParser` (lib/parse_stream.js): a stream transform that keeps
 * one byte buffer, appends each incoming chunk to it (unless the buffer has
 * already outgrown `MAX_BUFFER_SIZE`), cuts complete `\r\n`-terminated lines
 * off its front and classifies each line as a heartbeat, a tweet, an API
 * error report, some other JSON value, or a malformed record.
 *
 * Parsing is a parameter of the parser: a total function from the line's
 * bytes to a parsed value. It stands for the UTF-8 decoding of the line,
 * `JSON.parse`, and the read of `json.data` that follows it inside the same
 * `try`; it answers `None` wherever one of them throws, so both for text
 * that is not JSON and for the JSON value `null`, whose `data` cannot be
 * read.
 */
module ParseStream {
  import opened Wrappers
  import opened Framing

  /** 50 MiB: a buffer longer than this refuses further chunks. */
  const MAX_BUFFER_SIZE: nat := 1024 * 1024 * 50

  /**
   * A parsed JSON value other than `null`, seen through the two truthiness
   * tests the parser makes on it (`json.data`, `json.errors`); `id` stands for the rest of
   * the object, which is forwarded untouched.
   */
  datatype Json = Json(hasTruthyData: bool, hasTruthyErrors: bool, id: nat)

  /** Which object emits an event: the emitter given to the constructor, or the parser itself. */
  datatype Channel = Injected | Own

  datatype Event =
    | Tweet(json: Json)
    | ApiErrors(json: Json)
    | Other(json: Json)
    | Heartbeat
    | StreamError(source: Bytes)   // a parse failure; `source` is the raw line

  /** What the parser does, in order: emit an event, or push a value downstream. */
  datatype Action =
    | Emit(channel: Channel, event: Event)
    | Push(value: Option<Json>)    // `push(json)`, or `push()` with no value

  /**
   * The message of the error `_transform` hands its callback when the buffer
   * has outgrown the limit. The details object is interpolated into a
   * template string, which renders it as `[object Object]`: the error
   * carries neither the chunk, nor the buffer, nor the limit.
   */
  const OVERPRODUCING_MESSAGE: string := "Stream overproducing tweet data\n[object Object]"

  /** The error `_transform` hands its callback when the buffer has outgrown the limit. */
  datatype Overproducing = Overproducing(message: string)

  /**
   * What the framing loop does with one line cut from the buffer: exactly
   * one event, perhaps followed by one push; a `stream-error` goes to the
   * parser itself, every other event to the sink.
   */
  function LineActions(line: Bytes, parse: Bytes -> Option<Json>, sink: Channel): (acts: seq<Action>)
    ensures 1 <= |acts| <= 2 && acts[0].Emit?
    ensures forall k :: 1 <= k < |acts| ==> acts[k].Push?
    ensures acts[0].channel == (if acts[0].event.StreamError? then Own else sink)
  {
    if |line| == 0 then [Emit(sink, Heartbeat), Push(None)]
    else
      match parse(line)
      case None => [Emit(Own, StreamError(line))]
      case Some(json) =>
        if json.hasTruthyData then [Emit(sink, Tweet(json)), Push(Some(json))]
        else if json.hasTruthyErrors then [Emit(sink, ApiErrors(json))]
        else [Emit(sink, Other(json))]
  }

  /** The actions for a sequence of lines, line after line. */
  function ActionsOf(lines: seq<Bytes>, parse: Bytes -> Option<Json>, sink: Channel): seq<Action>
  {
    if lines == [] then [] else LineActions(lines[0], parse, sink) + ActionsOf(lines[1..], parse, sink)
  }

  predicate IsTweet(a: Action)
  {
    a.Emit? && a.event.Tweet?
  }

  predicate IsHeartbeat(a: Action)
  {
    a.Emit? && a.event.Heartbeat?
  }

  /** A classifying event: a tweet, an API error report or another JSON value. */
  predicate IsRecord(a: Action)
  {
    a.Emit? && (a.event.Tweet? || a.event.ApiErrors? || a.event.Other?)
  }

  /**
   * A zero-length line emits exactly one heartbeat, then pushes nothing
   * downstream, and emits no record; a longer line emits no heartbeat.
   */
  lemma HeartbeatIffEmptyLine(line: Bytes, parse: Bytes -> Option<Json>, sink: Channel)
    ensures (exists k :: 0 <= k < |LineActions(line, parse, sink)| && IsHeartbeat(LineActions(line, parse, sink)[k])) <==> |line| == 0
    ensures |line| == 0 ==>
      LineActions(line, parse, sink) == [Emit(sink, Heartbeat), Push(None)] &&
      forall a :: a in LineActions(line, parse, sink) ==> !IsRecord(a)
  {
    if |line| == 0 {
      assert IsHeartbeat(LineActions(line, parse, sink)[0]);
    }
  }

  /**
   * A non-empty line that parses is classified by truthiness: with `data`
   * it is a tweet and is pushed downstream; otherwise with `errors` it is an
   * API error report; otherwise it is some other value. Only tweets are
   * pushed.
   */
  lemma ParsedLineClassification(line: Bytes, parse: Bytes -> Option<Json>, sink: Channel, json: Json)
    requires |line| > 0 && parse(line) == Some(json)
    ensures var acts := LineActions(line, parse, sink);
      && (Emit(sink, Tweet(json)) in acts <==> json.hasTruthyData)
      && (Emit(sink, ApiErrors(json)) in acts <==> !json.hasTruthyData && json.hasTruthyErrors)
      && (Emit(sink, Other(json)) in acts <==> !json.hasTruthyData && !json.hasTruthyErrors)
      && (Push(Some(json)) in acts <==> json.hasTruthyData)
      && |acts| == (if json.hasTruthyData then 2 else 1)
      && forall a :: a in acts ==> a.Push? || (a.Emit? && a.channel == sink && !a.event.StreamError?)
  {
  }

  /**
   * A non-empty line that fails to parse emits one `stream-error`, on the
   * parser itself whatever emitter was injected, carrying the raw line; it
   * emits no tweet and pushes nothing.
   */
  lemma MalformedLine(line: Bytes, parse: Bytes -> Option<Json>, sink: Channel)
    requires |line| > 0 && parse(line).None?
    ensures LineActions(line, parse, sink) == [Emit(Own, StreamError(line))]
    ensures forall a :: a in LineActions(line, parse, sink) ==> !IsTweet(a) && !a.Push?
  {
  }

  /** The actions of consecutive runs of lines are the runs' actions, in the same order. */
  lemma {:induction false} ActionsOfAppend(xs: seq<Bytes>, ys: seq<Bytes>, parse: Bytes -> Option<Json>, sink: Channel)
    decreases |xs|
    ensures ActionsOf(xs + ys, parse, sink) == ActionsOf(xs, parse, sink) + ActionsOf(ys, parse, sink)
  {
    if xs != [] {
      assert (xs + ys)[1..] == xs[1..] + ys;
      ActionsOfAppend(xs[1..], ys, parse, sink);
      AppendAssociates(LineActions(xs[0], parse, sink), ActionsOf(xs[1..], parse, sink), ActionsOf(ys, parse, sink));
    } else {
      assert xs + ys == ys;
    }
  }

  /**
   * A malformed line does not stop the framing loop: the lines before it
   * and after it are handled as they would be without it, and the bad line
   * contributes only its `stream-error`.
   */
  lemma MalformedLineDoesNotStopFraming(before: seq<Bytes>, bad: Bytes, after: seq<Bytes>, parse: Bytes -> Option<Json>, sink: Channel)
    requires |bad| > 0 && parse(bad).None?
    ensures ActionsOf(before + [bad] + after, parse, sink) ==
      ActionsOf(before, parse, sink) + [Emit(Own, StreamError(bad))] + ActionsOf(after, parse, sink)
  {
    ActionsOfAppend(before + [bad], after, parse, sink);
    ActionsOfAppend(before, [bad], parse, sink);
    assert ActionsOf([bad], parse, sink) == LineActions(bad, parse, sink) + ActionsOf([], parse, sink);
  }

  /**
   * Events follow the order of the terminators in the stream: the actions
   * for a buffer are the actions of its first line followed by those of
   * everything after the first terminator.
   */
  lemma ActionsFollowTerminatorOrder(s: Bytes, parse: Bytes -> Option<Json>, sink: Channel)
    requires HasTerminator(s)
    ensures var i := IndexOfTerminator(s);
      0 <= i && i + 2 <= |s| &&
      ActionsOf(Frame(s).lines, parse, sink) == LineActions(s[..i], parse, sink) + ActionsOf(Frame(s[i + 2..]).lines, parse, sink)
  {
    var i := IndexOfTerminator(s);
    FrameStep(s);
    assert ([s[..i]] + Frame(s[i + 2..]).lines)[1..] == Frame(s[i + 2..]).lines;
  }

  /** Handling one more line appends that line's actions. */
  lemma ActionsOfSnoc(lines: seq<Bytes>, line: Bytes, parse: Bytes -> Option<Json>, sink: Channel)
    ensures ActionsOf(lines + [line], parse, sink) == ActionsOf(lines, parse, sink) + LineActions(line, parse, sink)
  {
    ActionsOfAppend(lines, [line], parse, sink);
    assert ActionsOf([line], parse, sink) == LineActions(line, parse, sink) + ActionsOf([], parse, sink);
  }

  /**
   * One iteration of the framing loop keeps its invariant: moving the first
   * line of `buffer` to the lines already handled leaves the overall
   * framing of `start` unchanged, and the log, which held the actions of the
   * lines handled, now holds those of the one more line at its end.
   */
  lemma FramingLoopStep(start: Bytes, done: seq<Bytes>, buffer: Bytes, before: seq<Action>, parse: Bytes -> Option<Json>, sink: Channel)
    requires HasTerminator(buffer)
    requires Frame(start).lines == done + Frame(buffer).lines
    requires Frame(start).rest == Frame(buffer).rest
    ensures var i := IndexOfTerminator(buffer);
      && 0 <= i && i + 2 <= |buffer|
      && Frame(start).lines == (done + [buffer[..i]]) + Frame(buffer[i + 2..]).lines
      && Frame(start).rest == Frame(buffer[i + 2..]).rest
      && (before + ActionsOf(done, parse, sink)) + LineActions(buffer[..i], parse, sink) == before + ActionsOf(done + [buffer[..i]], parse, sink)
  {
    var i := IndexOfTerminator(buffer);
    FrameStep(buffer);
    AppendAssociates(done, [buffer[..i]], Frame(buffer[i + 2..]).lines);
    ActionsOfSnoc(done, buffer[..i], parse, sink);
    AppendAssociates(before, ActionsOf(done, parse, sink), LineActions(buffer[..i], parse, sink));
  }

  class TweetStreamParser {
    /** The decoded line parsed and its `data` read; `None` where that throws. */
    const parse: Bytes -> Option<Json>
    /** Where tweets, API errors, other values and heartbeats are emitted. */
    const sink: Channel
    /** The period of the liveness timer, when the constructor was given one. */
    const livenessTimeout: Option<nat>

    /** `chunkBuffer`: `None` before the first chunk and after a flush. */
    var chunkBuffer: Option<Bytes>
    /** Everything emitted or pushed so far, in order. */
    var log: seq<Action>
    /** When the liveness timer fires next, if there is a timer. */
    var deadline: Option<int>

    /** The bytes appended to the buffer since it was last empty (`null`). */
    ghost var accepted: Bytes

    /** The buffer is what framing the accepted bytes leaves unconsumed. */
    ghost predicate Valid()
      reads this
    {
      match chunkBuffer
      case None => accepted == []
      case Some(b) => b == Frame(accepted).rest
    }

    /** The buffered bytes, empty when there is no buffer. */
    function Buffered(): Bytes
      reads this
    {
      if chunkBuffer.Some? then chunkBuffer.value else []
    }

    /**
     * `emitter` is the injected emitter's presence: without one the parser
     * emits on itself. A timer, when given, is armed at `now`.
     */
    constructor (parse: Bytes -> Option<Json>, emitter: bool, livenessTimeout: Option<nat>, now: int)
      ensures Valid()
      ensures this.parse == parse && sink == (if emitter then Injected else Own) && this.livenessTimeout == livenessTimeout
      ensures chunkBuffer == None && log == [] && accepted == []
      ensures deadline == if livenessTimeout.Some? then Some(now + livenessTimeout.value) else None
    {
      this.parse := parse;
      sink := if emitter then Injected else Own;
      this.livenessTimeout := livenessTimeout;
      chunkBuffer := None;
      log := [];
      deadline := if livenessTimeout.Some? then Some(now + livenessTimeout.value) else None;
      accepted := [];
    }

    /**
     * The body of the framing loop for one line: a zero-length line is a
     * heartbeat and pushes no value; a line that parses is classified by the
     * truthiness of `data`, then `errors`; a line that does not parse is
     * reported as a `stream-error` on the parser itself.
     */
    method HandleLine(line: Bytes)
      modifies this`log
      ensures log == old(log) + LineActions(line, parse, sink)
    {
      if |line| > 0 {
        match parse(line)
        case Some(json) =>
          if json.hasTruthyData {
            log := log + [Emit(sink, Tweet(json))];
            log := log + [Push(Some(json))];
          } else if json.hasTruthyErrors {
            log := log + [Emit(sink, ApiErrors(json))];
          } else {
            log := log + [Emit(sink, Other(json))];
          }
        case None =>
          log := log + [Emit(Own, StreamError(line))];
      } else {
        log := log + [Emit(sink, Heartbeat)];
        log := log + [Push(None)];
      }
    }

    /**
     * `parseJSON`: while the buffer holds a terminator, cut the line before
     * it, drop the line and the terminator from the buffer and handle the
     * line. The buffer ends up as what framing leaves unconsumed, holding no
     * terminator, and the log grows by the lines' actions in order.
     */
    method ParseJson()
      requires chunkBuffer.Some?
      modifies this`chunkBuffer, this`log
      ensures chunkBuffer == Some(Frame(old(chunkBuffer.value)).rest)
      ensures !HasTerminator(chunkBuffer.value)
      ensures log == old(log) + ActionsOf(Frame(old(chunkBuffer.value)).lines, parse, sink)
    {
      ghost var start := chunkBuffer.value;
      ghost var done: seq<Bytes> := [];
      var index := IndexOfTerminator(chunkBuffer.value);
      while index > -1
        invariant chunkBuffer.Some?
        invariant index == IndexOfTerminator(chunkBuffer.value)
        invariant Frame(start).lines == done + Frame(chunkBuffer.value).lines
        invariant Frame(start).rest == Frame(chunkBuffer.value).rest
        invariant log == old(log) + ActionsOf(done, parse, sink)
        decreases |chunkBuffer.value|
      {
        var buffer := chunkBuffer.value;
        var line := buffer[..index];
        chunkBuffer := Some(buffer[index + 2..]);
        HandleLine(line);
        FramingLoopStep(start, done, buffer, old(log), parse, sink);
        done := done + [line];
        index := IndexOfTerminator(chunkBuffer.value);
      }
      FrameWithoutTerminator(chunkBuffer.value);
      assert done + [] == done;
    }

    /**
     * `_transform`: a buffer already longer than `MAX_BUFFER_SIZE` refuses
     * the chunk and the callback receives an `Overproducing` error; otherwise
     * the chunk is appended (or becomes the buffer when there is none). Then
     * complete lines are framed and the liveness timer is re-armed at `now`.
     */
    method Transform(chunk: Bytes, now: int) returns (error: Option<Overproducing>)
      requires Valid()
      modifies this
      ensures Valid()
      ensures error.Some? <==> |old(Buffered())| > MAX_BUFFER_SIZE
      ensures error.Some? ==>
        && error.value == Overproducing(OVERPRODUCING_MESSAGE)
        && chunkBuffer == old(chunkBuffer) && accepted == old(accepted) && log == old(log)
      ensures error.None? ==>
        && accepted == old(accepted) + chunk
        && chunkBuffer == Some(Frame(old(Buffered()) + chunk).rest)
        && log == old(log) + ActionsOf(Frame(old(Buffered()) + chunk).lines, parse, sink)
        && Frame(accepted).lines == Frame(old(accepted)).lines + Frame(old(Buffered()) + chunk).lines
      ensures deadline == if livenessTimeout.Some? then Some(now + livenessTimeout.value) else old(deadline)
    {
      if chunkBuffer.Some? && |chunkBuffer.value| > MAX_BUFFER_SIZE {
        error := Some(Overproducing(OVERPRODUCING_MESSAGE));
      } else if chunkBuffer.Some? {
        FrameAppend(accepted, chunk);
        chunkBuffer := Some(chunkBuffer.value + chunk);
        accepted := accepted + chunk;
        error := None;
      } else {
        assert accepted + chunk == chunk;
        chunkBuffer := Some(chunk);
        accepted := chunk;
        error := None;
      }
      ghost var before := chunkBuffer.value;
      ParseJson();
      if error.Some? {
        FrameWithoutTerminator(before);
      }
      if livenessTimeout.Some? {
        deadline := Some(now + livenessTimeout.value);
      }
    }

    /**
     * `_flush`: frame whatever complete lines the buffer holds, then discard
     * it. The buffer never holds a terminator between calls, so a trailing
     * partial line is dropped without producing any event.
     */
    method Flush()
      requires Valid()
      modifies this
      ensures Valid()
      ensures chunkBuffer == None && accepted == []
      ensures log == old(log) && deadline == old(deadline)
    {
      if chunkBuffer.Some? {
        FrameWithoutTerminator(chunkBuffer.value);
        ParseJson();
        chunkBuffer := None;
      }
      accepted := [];
    }
  }

  /** Feeding a fresh parser two chunks frames exactly the lines of their concatenation. */
  method FeedTwoChunks(parse: Bytes -> Option<Json>, c1: Bytes, c2: Bytes) returns (p: TweetStreamParser)
    requires |Frame(c1).rest| <= MAX_BUFFER_SIZE
    ensures p.chunkBuffer == Some(Frame(c1 + c2).rest)
    ensures p.log == ActionsOf(Frame(c1 + c2).lines, parse, p.sink)
  {
    p := new TweetStreamParser(parse, false, None, 0);
    assert p.Buffered() == [] && [] + c1 == c1;
    var e1 := p.Transform(c1, 0);
    assert e1.None?;
    ghost var log1 := p.log;
    assert log1 == ActionsOf(Frame(c1).lines, parse, p.sink);
    assert p.Buffered() == Frame(c1).rest;
    var e2 := p.Transform(c2, 0);
    assert e2.None?;
    assert p.log == log1 + ActionsOf(Frame(Frame(c1).rest + c2).lines, parse, p.sink);
    FrameAppend(c1, c2);
    ActionsOfAppend(Frame(c1).lines, Frame(Frame(c1).rest + c2).lines, parse, p.sink);
  }
}
