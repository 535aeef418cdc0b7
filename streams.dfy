/**
 * The data handlers of lines 76-114: one accumulator shared by both
 * streams, prefixed multi-line chunks re-split one level deep, and the
 * calls made on the log sink, recorded as a trace.
 */
module Streams {
  import opened Wrappers
  import opened Js
  import opened Settings
  import opened Lines

  /** What one handled text does besides buffering. */
  datatype Effect =
    | Logged(sink: JsValue, args: seq<JsValue>)   // sink.call(this, ...args)
    | Threw(error: Thrown)                        // the handler throws

  /**
   * `prefix.apply(this, buf)` passes a string primitive as the argument
   * list, which `Function.prototype.apply` refuses with a TypeError.
   */
  const PrefixApplyError := Thrown("TypeError", "CreateListFromArrayLike called on non-object")

  /** `sink.call(this, ...args)`: throws unless the sink is a function. */
  function Call(sink: JsValue, args: seq<JsValue>): (e: Effect)
    ensures e.Logged? <==> sink.Func?
    ensures e.Logged? ==> e.sink == sink && e.args == args
  {
    if sink.Func? then Logged(sink, args)
    else Threw(SinkCallError)
  }

  /** `settings[\`log${suffix}\`].call(...)` on a value that is not a function. */
  const SinkCallError := Thrown("TypeError", "the log setting has no call method")

  /** The exception a throwing dispatch raises. */
  function ThrownBy(c: StreamConfig): Thrown
  {
    if c.prefix.Func? then PrefixApplyError else SinkCallError
  }

  /** Whether the handler throws when it dispatches a text (whatever the text). */
  predicate Throws(c: StreamConfig)
  {
    c.prefix.Func? || ((Truthy(c.prefix) || Truthy(c.log)) && !c.log.Func?)
  }

  /**
   * Lines 99-107: the dispatch of one text.  At most one effect; none when
   * neither prefix nor log is truthy; a successful call goes to the
   * stream's log and ends with the text, after the prefix when one is set.
   */
  function Dispatch(c: StreamConfig, text: string): (effects: seq<Effect>)
    ensures |effects| <= 1
    ensures effects == [] <==> !Truthy(c.prefix) && !Truthy(c.log)
    ensures effects != [] && effects[0].Threw? <==> Throws(c)
    ensures effects != [] && effects[0].Threw? ==> effects[0].error == ThrownBy(c)
    ensures effects != [] && effects[0].Logged? ==>
      && effects[0].sink == c.log
      && effects[0].args == (if Truthy(c.prefix) then [c.prefix, Str(text)] else [Str(text)])
  {
    if c.prefix.Func? then [Threw(PrefixApplyError)]
    else if Truthy(c.prefix) then [Call(c.log, [c.prefix, Str(text)])]
    else if Truthy(c.log) then [Call(c.log, [Str(text)])]
    else []
  }

  /** Line 97: what one text adds to the accumulator. */
  function Buffered(c: StreamConfig, text: string): string
  {
    if Truthy(c.buffer) then text else ""
  }

  /** Lines 86-90: a raw chunk is re-split when prefix and reformat are set and it has a newline. */
  predicate Resplits(c: StreamConfig, chunk: string)
  {
    Truthy(c.prefix) && Truthy(c.reformat) && '\n' in chunk
  }

  /**
   * The texts the handler processes for a raw chunk: the chunk itself, or
   * its pieces up to and including the first one whose dispatch throws
   * (the exception leaves the `forEach`).
   */
  function Units(c: StreamConfig, chunk: string): (units: seq<string>)
    ensures |units| >= 1
  {
    if Resplits(c, chunk) then
      var pieces := SplitLines(chunk);
      if Throws(c) then pieces[..1] else pieces
    else [chunk]
  }

  function BufferedAll(c: StreamConfig, texts: seq<string>): string
  {
    if texts == [] then "" else Buffered(c, texts[0]) + BufferedAll(c, texts[1..])
  }

  function EffectsAll(c: StreamConfig, texts: seq<string>): seq<Effect>
  {
    if texts == [] then [] else Dispatch(c, texts[0]) + EffectsAll(c, texts[1..])
  }

  lemma {:induction false} BufferedAllSnoc(c: StreamConfig, texts: seq<string>, t: string)
    ensures BufferedAll(c, texts + [t]) == BufferedAll(c, texts) + Buffered(c, t)
    decreases |texts|
  {
    if texts == [] {
      assert texts + [t] == [t];
    } else {
      assert (texts + [t])[1..] == texts[1..] + [t];
      BufferedAllSnoc(c, texts[1..], t);
    }
  }

  lemma {:induction false} EffectsAllSnoc(c: StreamConfig, texts: seq<string>, t: string)
    ensures EffectsAll(c, texts + [t]) == EffectsAll(c, texts) + Dispatch(c, t)
    decreases |texts|
  {
    if texts == [] {
      assert texts + [t] == [t];
    } else {
      assert (texts + [t])[1..] == texts[1..] + [t];
      EffectsAllSnoc(c, texts[1..], t);
    }
  }

  lemma {:induction false} BufferedAllIsConcat(c: StreamConfig, texts: seq<string>)
    ensures BufferedAll(c, texts) == if Truthy(c.buffer) then Concat(texts) else ""
    decreases |texts|
  {
    if texts != [] {
      BufferedAllIsConcat(c, texts[1..]);
    }
  }

  lemma {:induction false} ConcatHasNoNewline(texts: seq<string>)
    requires forall i | 0 <= i < |texts| :: '\n' !in texts[i]
    ensures '\n' !in Concat(texts)
    decreases |texts|
  {
    if texts != [] {
      ConcatHasNoNewline(texts[1..]);
    }
  }

  /** A chunk that is not re-split reaches the buffer whole, or not at all. */
  lemma PlainChunk(c: StreamConfig, chunk: string)
    requires !Resplits(c, chunk)
    ensures BufferedAll(c, Units(c, chunk)) == if Truthy(c.buffer) then chunk else ""
    ensures EffectsAll(c, Units(c, chunk)) == Dispatch(c, chunk)
  {
    assert Units(c, chunk) == [chunk];
    assert BufferedAll(c, [chunk]) == Buffered(c, chunk) + "";
    assert EffectsAll(c, [chunk]) == Dispatch(c, chunk) + [];
  }

  /**
   * A re-split chunk is never buffered whole: the buffer receives the
   * pieces only, so it gains no newline and strictly less than the chunk.
   */
  lemma ResplitDropsBreaks(c: StreamConfig, chunk: string)
    requires Resplits(c, chunk)
    ensures '\n' !in BufferedAll(c, Units(c, chunk))
    ensures |BufferedAll(c, Units(c, chunk))| < |chunk|
    ensures Truthy(c.buffer) && !Throws(c) ==> BufferedAll(c, Units(c, chunk)) == Concat(SplitLines(chunk))
  {
    var pieces := SplitLines(chunk);
    var units := Units(c, chunk);
    PiecesHaveNoNewline(chunk);
    SplitDropsText(chunk);
    BufferedAllIsConcat(c, units);
    ConcatHasNoNewline(units);
    if Throws(c) {
      assert units == [pieces[0]];
      assert Concat(pieces) == pieces[0] + Concat(pieces[1..]);
      assert Concat(units) == pieces[0] + Concat([]);
    }
  }

  /** With a prefix that is not a function and a callable log, every text is logged once, after the prefix. */
  lemma {:induction false} EachTextLoggedOnce(c: StreamConfig, texts: seq<string>)
    requires Truthy(c.prefix) && !c.prefix.Func? && c.log.Func?
    ensures |EffectsAll(c, texts)| == |texts|
    ensures forall i | 0 <= i < |texts| :: EffectsAll(c, texts)[i] == Logged(c.log, [c.prefix, Str(texts[i])])
    decreases |texts|
  {
    if texts != [] {
      EachTextLoggedOnce(c, texts[1..]);
      assert Dispatch(c, texts[0]) == [Logged(c.log, [c.prefix, Str(texts[0])])];
    }
  }

  /**
   * Output that arrives as whole trimmed lines joined by newlines, on a
   * stream with a prefix that is not a function and a callable log: each
   * line is logged exactly once, after the prefix, in order, and the
   * buffer receives the lines without their newlines.
   */
  lemma LinesLoggedOnce(c: StreamConfig, lines: seq<string>)
    requires |lines| >= 2
    requires forall i | 0 <= i < |lines| :: Trimmed(lines[i])
    requires Truthy(c.prefix) && !c.prefix.Func? && Truthy(c.reformat) && c.log.Func?
    ensures Units(c, JoinLines(lines)) == lines
    ensures |EffectsAll(c, Units(c, JoinLines(lines)))| == |lines|
    ensures forall i | 0 <= i < |lines| ::
      EffectsAll(c, Units(c, JoinLines(lines)))[i] == Logged(c.log, [c.prefix, Str(lines[i])])
    ensures BufferedAll(c, Units(c, JoinLines(lines))) == if Truthy(c.buffer) then Concat(lines) else ""
  {
    var chunk := JoinLines(lines);
    assert chunk == lines[0] + "\n" + JoinLines(lines[1..]);
    assert chunk[|lines[0]|] == '\n';
    SplitJoinRoundTrip(lines);
    EachTextLoggedOnce(c, lines);
    BufferedAllIsConcat(c, lines);
  }

  /** A data event: a raw chunk read from one of the child's streams. */
  datatype Event = Data(stream: Stream, chunk: string)

  /** Whether an event reaches a handler (lines 113-114) that then throws. */
  predicate Fails(s: Settings, e: Event)
  {
    Listens(s, e.stream) && Throws(Slice(s, e.stream))
  }

  /** The handlers' state after a sequence of data events. */
  datatype Progress = Progress(buffer: string, trace: seq<Effect>, crash: Option<Thrown>)

  /**
   * The events in arrival order, both streams into one accumulator.  An
   * event on a stream without a handler changes nothing; once a handler
   * has thrown, the process is gone and later events change nothing.
   */
  function Replay(s: Settings, events: seq<Event>): Progress
    decreases |events|
  {
    if events == [] then Progress("", [], None)
    else
      var before := Replay(s, events[..|events| - 1]);
      var e := events[|events| - 1];
      var c := Slice(s, e.stream);
      if before.crash.Some? || !Listens(s, e.stream) then before
      else Progress(
        before.buffer + BufferedAll(c, Units(c, e.chunk)),
        before.trace + EffectsAll(c, Units(c, e.chunk)),
        if Throws(c) then Some(ThrownBy(c)) else None)
  }

  /**
   * The call crashes exactly when some event reaches a handler that
   * throws, and the crash is the exception of the first such event.
   */
  lemma {:induction false} ReplayCrashCause(s: Settings, events: seq<Event>)
    ensures Replay(s, events).crash.Some? <==> exists i | 0 <= i < |events| :: Fails(s, events[i])
    ensures Replay(s, events).crash.Some? ==> exists i | 0 <= i < |events| ::
      && Fails(s, events[i])
      && (forall j | 0 <= j < i :: !Fails(s, events[j]))
      && Replay(s, events).crash.value == ThrownBy(Slice(s, events[i].stream))
    decreases |events|
  {
    if events != [] {
      var init := events[..|events| - 1];
      ReplayCrashCause(s, init);
      assert forall i | 0 <= i < |init| :: init[i] == events[i];
    }
  }

  /** The accumulator only ever grows: each event appends to what earlier events left. */
  lemma {:induction false} ReplayOnlyAppends(s: Settings, events: seq<Event>, k: nat)
    requires k <= |events|
    ensures Replay(s, events[..k]).buffer <= Replay(s, events).buffer
    ensures Replay(s, events[..k]).trace <= Replay(s, events).trace
    decreases |events| - k
  {
    if k < |events| {
      ReplayOnlyAppends(s, events, k + 1);
      assert events[..k + 1][..k] == events[..k];
    } else {
      assert events[..k] == events;
    }
  }

  /** A stdout chunk followed by a stderr chunk land in one accumulator, in that order. */
  lemma SharedAccumulator(s: Settings, out: string, err: string)
    requires Listens(s, Stdout) && !Throws(Slice(s, Stdout)) && Listens(s, Stderr)
    ensures Replay(s, [Data(Stdout, out), Data(Stderr, err)]).buffer ==
      BufferedAll(Slice(s, Stdout), Units(Slice(s, Stdout), out)) +
      BufferedAll(Slice(s, Stderr), Units(Slice(s, Stderr), err))
  {
    var first := [Data(Stdout, out)];
    var events := first + [Data(Stderr, err)];
    assert first[..0] == [];
    assert Replay(s, first).buffer == BufferedAll(Slice(s, Stdout), Units(Slice(s, Stdout), out));
    assert Replay(s, first).crash == None;
    assert events[..1] == first;
  }

  /**
   * The handlers' shared state: the closure variable `outputBuffer` and
   * the calls made so far, for one call of exec with the given settings.
   */
  class StreamProcessor {
    const settings: Settings
    var outputBuffer: string
    var trace: seq<Effect>

    constructor (settings: Settings)
      ensures this.settings == settings && outputBuffer == "" && trace == []
    {
      this.settings := settings;
      outputBuffer := "";
      trace := [];
    }

    /**
     * `eventHandler(data)` for a string `data` (lines 82-83 and 96-107):
     * the handler's own call on one piece of a re-split chunk.  The text is
     * buffered when the stream buffers, then dispatched; `threw` says the
     * dispatch threw.
     */
    method HandleText(stream: Stream, text: string) returns (threw: bool)
      modifies this
      ensures outputBuffer == old(outputBuffer) + Buffered(Slice(settings, stream), text)
      ensures trace == old(trace) + Dispatch(Slice(settings, stream), text)
      ensures threw <==> Throws(Slice(settings, stream))
    {
      var c := Slice(settings, stream);
      if Truthy(c.buffer) {
        outputBuffer := outputBuffer + text;
      }
      var effects := Dispatch(c, text);
      trace := trace + effects;
      threw := effects != [] && effects[0].Threw?;
    }

    /**
     * `eventHandler(data)` for a raw chunk from the stream (lines 80-108):
     * a chunk that Resplits is cut with SplitLines and each piece handled
     * as a string, in order, until one throws; any other chunk is handled
     * whole.  Both streams append to the same accumulator.
     */
    method OnData(stream: Stream, chunk: string) returns (threw: bool)
      modifies this
      ensures outputBuffer == old(outputBuffer) + BufferedAll(Slice(settings, stream), Units(Slice(settings, stream), chunk))
      ensures trace == old(trace) + EffectsAll(Slice(settings, stream), Units(Slice(settings, stream), chunk))
      ensures threw <==> Throws(Slice(settings, stream))
    {
      var c := Slice(settings, stream);
      if !Resplits(c, chunk) {
        threw := HandleText(stream, chunk);
        assert BufferedAll(c, [chunk]) == Buffered(c, chunk) + "";
        assert EffectsAll(c, [chunk]) == Dispatch(c, chunk) + [];
      } else {
        threw := HandlePieces(stream, SplitLines(chunk));
      }
    }

    /**
     * `buf.split(...).forEach(line => eventHandler(line))`: the pieces in
     * order, each handled as a string, until one throws.
     */
    method HandlePieces(stream: Stream, pieces: seq<string>) returns (threw: bool)
      requires |pieces| >= 1
      modifies this
      ensures var c := Slice(settings, stream);
        var reached := if Throws(c) then pieces[..1] else pieces;
        && outputBuffer == old(outputBuffer) + BufferedAll(c, reached)
        && trace == old(trace) + EffectsAll(c, reached)
        && (threw <==> Throws(c))
    {
      var c := Slice(settings, stream);
      var i := 0;
      ghost var done: seq<string> := [];
      threw := false;
      while i < |pieces| && !threw
        invariant 0 <= i <= |pieces| && done == pieces[..i]
        invariant outputBuffer == old(outputBuffer) + BufferedAll(c, done)
        invariant trace == old(trace) + EffectsAll(c, done)
        invariant threw == (i > 0 && Throws(c))
        invariant Throws(c) ==> i <= 1
      {
        var piece := pieces[i];
        threw := HandleText(stream, piece);
        BufferedAllSnoc(c, done, piece);
        EffectsAllSnoc(c, done, piece);
        done := done + [piece];
        i := i + 1;
      }
      assert done == if Throws(c) then pieces[..1] else pieces;
    }

    /**
     * A chunk arriving on a stream.  Lines 113-114 attach the handler only
     * when the stream's log, prefix or buffer setting is truthy; without
     * one, the chunk changes nothing.
     */
    method Receive(stream: Stream, chunk: string) returns (threw: bool)
      modifies this
      ensures Listens(settings, stream) ==>
        && outputBuffer == old(outputBuffer) + BufferedAll(Slice(settings, stream), Units(Slice(settings, stream), chunk))
        && trace == old(trace) + EffectsAll(Slice(settings, stream), Units(Slice(settings, stream), chunk))
        && (threw <==> Throws(Slice(settings, stream)))
      ensures !Listens(settings, stream) ==> outputBuffer == old(outputBuffer) && trace == old(trace) && !threw
    {
      if Listens(settings, stream) {
        threw := OnData(stream, chunk);
      } else {
        threw := false;
      }
    }
  }
}
