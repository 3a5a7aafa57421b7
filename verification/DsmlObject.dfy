/** The streaming DSML rewriter as the object that updates its buffers in place, following the specification. */
module DsmlObject {
  import opened Wrappers
  import Sequences
  import opened Utf8
  import opened MessageStream
  import opened Framing
  import opened DsmlText
  import opened DsmlRewriter
  import opened Bytes
  import opened Utf8Text

  /** Output frames: an event written out, or a frame passed on as it came. */
  datatype Emission = Emit(event: Event) | Verbatim(frame: string)

  const TextEnds := Ends('\n', '\r')

  function Emits(es: seq<Event>): seq<Emission> {
    seq(|es|, i requires 0 <= i < |es| => Emit(es[i]))
  }

  /** The frame without the blank line that ends it. */
  ghost function Unended(frame: string): string {
    match NextBoundary(frame, TextEnds) case None => frame case Some(b) => if b.at <= |frame| then frame[..b.at] else frame
  }

  /** Reads a frame; none when it holds no JSON object with a type. */
  type Reader = string -> Option<Event>

  ghost function OnFrame(c: Config, read: Reader, st: Rewriter, frame: string): (Rewriter, seq<Emission>) {
    match read(frame)
    case None => (st, [Verbatim(frame)])
    case Some(e) => (OnEvent(c, st, e).st, Emits(OnEvent(c, st, e).out))
  }

  ghost function OnFrames(c: Config, read: Reader, st: Rewriter, frames: seq<string>): (Rewriter, seq<Emission>) {
    if frames == [] then (st, [])
    else
      var (before, out) := OnFrames(c, read, st, frames[..|frames| - 1]);
      var (after, more) := OnFrame(c, read, before, Unended(frames[|frames| - 1]));
      (after, out + more)
  }

  lemma OnFramesSnoc(c: Config, read: Reader, st: Rewriter, frames: seq<string>, frame: string)
    ensures
      var (before, out) := OnFrames(c, read, st, frames);
      var (after, more) := OnFrame(c, read, before, Unended(frame));
      OnFrames(c, read, st, frames + [frame]) == (after, out + more)
  {
    assert (frames + [frame])[..|frames|] == frames;
  }

  lemma {:induction false} OnFramesConcat(c: Config, read: Reader, st: Rewriter, a: seq<string>, b: seq<string>)
    ensures
      var (mid, out) := OnFrames(c, read, st, a);
      var (end, more) := OnFrames(c, read, mid, b);
      OnFrames(c, read, st, a + b) == (end, out + more)
  {
    var (mid, out) := OnFrames(c, read, st, a);
    if b == [] {
      Sequences.ConcatEmpty(a);
      Sequences.ConcatEmpty(out);
    } else {
      var short, frame := b[..|b| - 1], b[|b| - 1];
      OnFramesConcat(c, read, st, a, short);
      OnFramesSnoc(c, read, st, a + short, frame);
      Sequences.LastMoved(a, b);
      var (before, more) := OnFrames(c, read, mid, short);
      Sequences.Associate(out, more, OnFrame(c, read, before, Unended(frame)).1);
    }
  }

  /** How the text of a stream was cut into chunks makes no difference. */
  lemma FeedingIsChunkIndependent(c: Config, read: Reader, st: Rewriter, held: string, a: string, b: string)
    ensures
      var (mid, out) := OnFrames(c, read, st, Frames(held + a, TextEnds));
      var (end, more) := OnFrames(c, read, mid, Frames(Rest(held + a, TextEnds) + b, TextEnds));
      && OnFrames(c, read, st, Frames(held + (a + b), TextEnds)) == (end, out + more)
      && Rest(held + (a + b), TextEnds) == Rest(Rest(held + a, TextEnds) + b, TextEnds)
  {
    Sequences.Associate(held, a, b);
    ChunksDoNotMatter(held + a, b, TextEnds);
    OnFramesConcat(c, read, st, Frames(held + a, TextEnds), Frames(Rest(held + a, TextEnds) + b, TextEnds));
  }

  // ---------- Bytes ----------

  datatype Session = Session(pending: seq<byte>, frameBuf: string, st: Rewriter, out: seq<Emission>)

  ghost function FeedChunk(c: Config, read: Reader, s: Session, data: seq<byte>): Session {
    var d := Decode(s.pending + data);
    var (st, out) := OnFrames(c, read, s.st, Frames(s.frameBuf + d.text, TextEnds));
    Session(d.rest, Rest(s.frameBuf + d.text, TextEnds), st, s.out + out)
  }

  ghost function FeedChunks(c: Config, read: Reader, chunks: seq<seq<byte>>): Session {
    if chunks == [] then Session([], "", Idle, [])
    else FeedChunk(c, read, FeedChunks(c, read, chunks[..|chunks| - 1]), chunks[|chunks| - 1])
  }

  function JoinedBytes(chunks: seq<seq<byte>>): seq<byte> {
    if chunks == [] then [] else JoinedBytes(chunks[..|chunks| - 1]) + chunks[|chunks| - 1]
  }

  /** What a session has come to after some bytes: the frames of the text decoded so far, handled in order. */
  ghost function AfterBytes(c: Config, read: Reader, bytes: seq<byte>): Session {
    var d := Decode(bytes);
    var (st, out) := OnFrames(c, read, Idle, Frames(d.text, TextEnds));
    Session(d.rest, Rest(d.text, TextEnds), st, out)
  }

  lemma {:induction false} ChunksOfBytesDoNotMatter(c: Config, read: Reader, chunks: seq<seq<byte>>)
    ensures FeedChunks(c, read, chunks) == AfterBytes(c, read, JoinedBytes(chunks))
  {
    if chunks == [] {
      assert Decode([]) == Decoded("", []);
    } else {
      var bytes, data := JoinedBytes(chunks[..|chunks| - 1]), chunks[|chunks| - 1];
      ChunksOfBytesDoNotMatter(c, read, chunks[..|chunks| - 1]);
      DecodeInPieces(bytes, data);
      MoreBytes(c, read, Decode(bytes), data);
    }
  }

  lemma MoreBytes(c: Config, read: Reader, d: Decoded, data: seq<byte>)
    ensures
      var e := Decode(d.rest + data);
      var (mid, out) := OnFrames(c, read, Idle, Frames(d.text, TextEnds));
      var (end, more) := OnFrames(c, read, mid, Frames(Rest(d.text, TextEnds) + e.text, TextEnds));
      && OnFrames(c, read, Idle, Frames(d.text + e.text, TextEnds)) == (end, out + more)
      && Rest(d.text + e.text, TextEnds) == Rest(Rest(d.text, TextEnds) + e.text, TextEnds)
  {
    var e := Decode(d.rest + data);
    Sequences.ConcatEmpty(d.text);
    Sequences.ConcatEmpty(d.text + e.text);
    FeedingIsChunkIndependent(c, read, Idle, "", d.text, e.text);
  }

  /** However the bytes of a text are cut, its frames are handled in order and no byte is left over. */
  lemma ValidBytesAreAllHandled(c: Config, read: Reader, chunks: seq<seq<byte>>, text: string)
    requires JoinedBytes(chunks) == EncodeAll(text)
    ensures
      var s := FeedChunks(c, read, chunks);
      && s.pending == [] && s.frameBuf == Rest(text, TextEnds)
      && (s.st, s.out) == OnFrames(c, read, Idle, Frames(text, TextEnds))
  {
    ChunksOfBytesDoNotMatter(c, read, chunks);
    DecodeOfEncode(text);
  }

  class DsmlStreamRewriter {
    const config: Config
    var pendingBytes: seq<byte>
    var frameBuf: string
    var nextOut: nat
    var curOut: Option<nat>
    var curIsText: bool
    var synthesized: bool
    var toolCount: nat
    var state: Mode
    var scanBuf: string
    var capBuf: string

    constructor (config: Config)
      ensures this.config == config && pendingBytes == [] && frameBuf == "" && View() == Idle
    {
      this.config := config;
      pendingBytes, frameBuf, scanBuf, capBuf := [], "", "", "";
      nextOut, curOut, curIsText := 0, None, false;
      synthesized, toolCount, state := false, 0, Pass;
    }

    ghost function View(): Rewriter
      reads this
    {
      Rewriter(nextOut, curOut, curIsText, synthesized, toolCount, state, scanBuf, capBuf)
    }

    method TextDelta(text: string) returns (out: seq<Event>)
      modifies this`nextOut, this`curOut, this`curIsText
      ensures View() == Say(old(View()), text).st && out == Say(old(View()), text).out
    {
      out := [];
      if curOut.None? {
        curOut, curIsText := Some(nextOut), true;
        out := [BlockStart(nextOut, TextHead(""))];
        nextOut := nextOut + 1;
      }
      out := out + [BlockDelta(curOut.value, MessageStream.TextDelta(text))];
    }

    method TakeOpen() returns (out: seq<Event>)
      modifies this`curOut
      ensures View() == CloseCurrent(old(View())).st && out == CloseCurrent(old(View())).out
    {
      out := if curOut.Some? then [BlockStop(curOut.value)] else [];
      curOut := None;
    }

    method TextAsNewBlock(text: string) returns (out: seq<Event>)
      modifies this`nextOut, this`curOut, this`curIsText
      ensures View() == SayBlock(old(View()), text).st && out == SayBlock(old(View()), text).out
    {
      var said := TextDelta(text);
      var closed := TakeOpen();
      out := said + closed;
    }

    method ToolUseEvents(call: Call) returns (out: seq<Event>)
      modifies this`nextOut, this`toolCount
      ensures View() == old(View()).(nextOut := old(nextOut) + 1, toolCount := old(toolCount) + 1)
      ensures out == CallEvents(config, old(View()), call)
    {
      toolCount := toolCount + 1;
      out := [BlockStart(nextOut, ToolHead(ToolId(config.nonce, toolCount), call.name)),
              BlockDelta(nextOut, InputJsonDelta(config.codec.write(call.input))),
              BlockStop(nextOut)];
      nextOut := nextOut + 1;
    }

    method ResolveRegion(region: string) returns (out: seq<Event>)
      modifies this`nextOut, this`curOut, this`curIsText, this`toolCount, this`synthesized
      ensures View() == Resolve(config, old(View()), region).st && out == Resolve(config, old(View()), region).out
    {
      var calls := config.parse(region);
      if calls == [] {
        out := TextAsNewBlock(region);
      } else {
        out := [];
        for i := 0 to |calls|
          invariant MakeCalls(config, old(View()), calls, i) == (View(), out)
        {
          var made := ToolUseEvents(calls[i]);
          out := out + made;
        }
        synthesized := true;
      }
    }

    method ScanPassing() returns (out: seq<Event>)
      modifies this
      ensures View() == PassScan(config, old(View())).st && out == PassScan(config, old(View())).out
      ensures frameBuf == old(frameBuf)
      decreases 2 * |scanBuf| + 1
    {
      var found := MatchOpen(scanBuf);
      if found.Some? {
        var start := found.value.start;
        var before, captured := scanBuf[..start], scanBuf[start..];
        out := [];
        if before != "" {
          out := TextDelta(before);
        }
        var closed := TakeOpen();
        capBuf, scanBuf, state := captured, "", Capture;
        ghost var begun := Captured(old(View()));
        assert View() == begun.st && out + closed == begun.out;
        var rest := ScanCapture();
        out := out + closed + rest;
      } else {
        var keep := MAX_OPEN - 1;
        out := [];
        if |scanBuf| > keep {
          var split := |scanBuf| - keep;
          var said := scanBuf[..split];
          scanBuf := scanBuf[split..];
          out := TextDelta(said);
        }
      }
    }

    method ScanCapture() returns (out: seq<Event>)
      modifies this
      ensures View() == CaptureScan(config, old(View())).st && out == CaptureScan(config, old(View())).out
      ensures frameBuf == old(frameBuf)
      decreases 2 * |capBuf|
    {
      var found := MatchWrapper(capBuf, 0);
      if found.Some? {
        var w := found.value;
        var rest := capBuf[w.end..];
        out := ResolveRegion(capBuf[w.start..w.end]);
        capBuf, state, curOut := "", Pass, None;
        if rest != "" {
          scanBuf := rest;
          ghost var next := View();
          var more := ScanPassing();
          out := out + more;
          assert (View(), more) == (PassScan(config, next).st, PassScan(config, next).out);
        }
      } else {
        out := GiveUpIfTooLong();
      }
    }

    method GiveUpIfTooLong() returns (out: seq<Event>)
      requires FindWrapper(capBuf, 0).None?
      modifies this`capBuf, this`state, this`nextOut, this`curOut, this`curIsText
      ensures View() == CaptureScan(config, old(View())).st && out == CaptureScan(config, old(View())).out
    {
      out := [];
      var length := Measure(capBuf);
      if length > CAP {
        var text := capBuf;
        capBuf := "";
        out := TextAsNewBlock(text);
        state, curOut := Pass, None;
      }
    }

    method OnTextDelta(text: string) returns (out: seq<Event>)
      modifies this
      ensures View() == OnText(config, old(View()), text).st && out == OnText(config, old(View()), text).out
      ensures frameBuf == old(frameBuf)
    {
      match state {
        case Pass =>
          scanBuf := scanBuf + text;
          out := ScanPassing();
        case Capture =>
          capBuf := capBuf + text;
          out := ScanCapture();
      }
    }

    method StopBlock() returns (out: seq<Event>)
      modifies this
      ensures View() == OnBlockStop(old(View())).st && out == OnBlockStop(old(View())).out
      ensures frameBuf == old(frameBuf)
    {
      out := [];
      if state == Capture {
        if capBuf != "" {
          var text := capBuf;
          capBuf := "";
          out := TextAsNewBlock(text);
        }
        state := Pass;
      } else if scanBuf != "" && curOut.Some? {
        out := [BlockDelta(curOut.value, MessageStream.TextDelta(scanBuf))];
        scanBuf := "";
      }
      var closed := TakeOpen();
      out := out + closed;
    }

    method Flush() returns (out: seq<Event>)
      modifies this
      ensures View() == FlushPending(old(View())).st && out == FlushPending(old(View())).out
      ensures frameBuf == old(frameBuf)
    {
      out := [];
      if state == Capture && capBuf != "" {
        var text := capBuf;
        capBuf := "";
        out := TextAsNewBlock(text);
        state := Pass;
      } else if scanBuf != "" {
        var text := scanBuf;
        scanBuf := "";
        out := TextDelta(text);
      }
      var closed := TakeOpen();
      out := out + closed;
    }

    method HandleEvent(e: Event) returns (out: seq<Event>)
      modifies this
      ensures View() == OnEvent(config, old(View()), e).st && out == OnEvent(config, old(View()), e).out
      ensures frameBuf == old(frameBuf)
    {
      match e {
        case BlockStart(_, head) =>
          curIsText, curOut := head.TextHead?, Some(nextOut);
          out := [BlockStart(nextOut, head)];
          nextOut := nextOut + 1;
        case BlockDelta(index, delta) =>
          if curIsText && delta.TextDelta? {
            out := OnTextDelta(delta.text);
          } else {
            out := [BlockDelta(if curOut.Some? then curOut.value else index, delta)];
          }
        case BlockStop(_) =>
          out := StopBlock();
        case MessageDelta(stopReason, inputTokens, outputTokens) =>
          out := Flush();
          var reason := stopReason;
          if synthesized && (reason.None? || reason.value in {"end_turn", "stop"}) {
            reason := Some("tool_use");
          }
          out := out + [MessageDelta(reason, inputTokens, outputTokens)];
        case MessageStop =>
          out := Flush();
          out := out + [MessageStop];
        case _ =>
          out := [e];
      }
    }

    method HandleFrame(read: Reader, frame: string) returns (out: seq<Emission>)
      modifies this
      ensures (View(), out) == OnFrame(config, read, old(View()), frame)
      ensures frameBuf == old(frameBuf)
    {
      var e := read(frame);
      if e.None? {
        out := [Verbatim(frame)];
      } else {
        var written := HandleEvent(e.value);
        out := Emits(written);
      }
    }

    /** Adds decoded text and handles every frame it completes. */
    method Feed(read: Reader, text: string) returns (out: seq<Emission>)
      modifies this
      ensures (View(), out) == OnFrames(config, read, old(View()), Frames(old(frameBuf) + text, TextEnds))
      ensures frameBuf == Rest(old(frameBuf) + text, TextEnds)
    {
      frameBuf := frameBuf + text;
      ghost var st0, all, handled := View(), frameBuf, [];
      out := [];
      var boundary := LocateBoundary(frameBuf, TextEnds);
      HandlingStarts(config, read, st0, all);
      while boundary.Some?
        invariant boundary == NextBoundary(frameBuf, TextEnds)
        invariant boundary.None? ==> FrameEnd(frameBuf, TextEnds).None?
        invariant boundary.Some? ==>
          && 0 < boundary.value.sep && boundary.value.at + boundary.value.sep <= |frameBuf|
          && FrameEnd(frameBuf, TextEnds) == Some(boundary.value.at + boundary.value.sep)
        invariant Handling(config, read, st0, all, handled, frameBuf, View(), out)
        decreases |frameBuf|
      {
        ghost var buf, st, b := frameBuf, View(), boundary.value;
        var frame := frameBuf[..boundary.value.at];
        frameBuf := frameBuf[boundary.value.at + boundary.value.sep..];
        var written := HandleFrame(read, frame);
        HandlingGoesOn(config, read, st0, all, handled, buf, b, st, out);
        handled := handled + [buf[..b.at + b.sep]];
        out := out + written;
        boundary := LocateBoundary(frameBuf, TextEnds);
      }
      HandlingEnds(config, read, st0, all, handled, frameBuf, View(), out);
    }

    /** Adds bytes: what is complete text of them and of those left over before. */
    method FeedBytes(read: Reader, data: seq<byte>) returns (out: seq<Emission>)
      modifies this
      ensures
        var d := Decode(old(pendingBytes) + data);
        && pendingBytes == d.rest && frameBuf == Rest(old(frameBuf) + d.text, TextEnds)
        && (View(), out) == OnFrames(config, read, old(View()), Frames(old(frameBuf) + d.text, TextEnds))
    {
      var d := Decode(pendingBytes + data);
      out := Feed(read, d.text);
      pendingBytes := d.rest;
    }

    method FinalizeTail() returns (out: seq<Event>)
      modifies this
      ensures View() == FinalizeText(old(View())).st && out == FinalizeText(old(View())).out
    {
      out := [];
      if state == Capture && capBuf != "" {
        var text := capBuf;
        capBuf := "";
        out := TextAsNewBlock(text);
        state := Pass;
      }
      if scanBuf != "" {
        var text := scanBuf;
        scanBuf := "";
        var said := TextDelta(text);
        out := out + said;
      }
      var closed := TakeOpen();
      out := out + closed;
    }
  }

  method Measure(s: string) returns (n: nat)
    ensures n == ByteLen(s)
  {
    n := 0;
    for i := 0 to |s|
      invariant n == ByteLen(s[..i])
    {
      assert s[..i + 1] == s[..i] + [s[i]];
      ByteLenConcat(s[..i], [s[i]]);
      n := n + Width(s[i]);
    }
    assert s[..|s|] == s;
  }

  lemma FrameUnended(buf: string, b: Boundary)
    requires NextBoundary(buf, TextEnds) == Some(b)
    ensures b.at + b.sep <= |buf| && Unended(buf[..b.at + b.sep]) == buf[..b.at]
  {
    RulesAgree(buf, TextEnds);
    FrameEndBounds(buf, TextEnds);
    var frame, rest := buf[..b.at + b.sep], buf[b.at + b.sep..];
    assert buf == frame + rest;
    FindLfStable(frame, rest, TextEnds);
    FindCrlfStable(frame, rest, TextEnds);
    if b.sep == 2 {
      assert LfAt(frame, TextEnds, b.at);
    } else {
      assert CrlfAt(frame, TextEnds, b.at);
    }
    assert NextBoundary(frame, TextEnds) == Some(b);
    assert frame[..b.at] == buf[..b.at];
  }

  /** Midway through the frames of a buffer. */
  ghost predicate Handling(
    c: Config, read: Reader, st0: Rewriter, all: string, handled: seq<string>, buf: string, st: Rewriter, out: seq<Emission>)
  {
    && handled + Frames(buf, TextEnds) == Frames(all, TextEnds)
    && Rest(buf, TextEnds) == Rest(all, TextEnds)
    && OnFrames(c, read, st0, handled) == (st, out)
  }

  lemma HandlingStarts(c: Config, read: Reader, st: Rewriter, all: string)
    ensures Handling(c, read, st, all, [], all, st, [])
  {
    Sequences.ConcatEmpty(Frames(all, TextEnds));
  }

  lemma HandlingGoesOn(
    c: Config, read: Reader, st0: Rewriter, all: string, handled: seq<string>, buf: string, b: Boundary,
    st: Rewriter, out: seq<Emission>)
    requires Handling(c, read, st0, all, handled, buf, st, out)
    requires NextBoundary(buf, TextEnds) == Some(b) && 0 < b.sep && b.at + b.sep <= |buf|
    requires FrameEnd(buf, TextEnds) == Some(b.at + b.sep)
    ensures
      var end, step := b.at + b.sep, OnFrame(c, read, st, buf[..b.at]);
      Handling(c, read, st0, all, handled + [buf[..end]], buf[end..], step.0, out + step.1)
  {
    var end := b.at + b.sep;
    FrameUnended(buf, b);
    OnFramesSnoc(c, read, st0, handled, buf[..end]);
    Sequences.Associate(handled, [buf[..end]], Frames(buf[end..], TextEnds));
  }

  lemma HandlingEnds(
    c: Config, read: Reader, st0: Rewriter, all: string, handled: seq<string>, buf: string, st: Rewriter, out: seq<Emission>)
    requires Handling(c, read, st0, all, handled, buf, st, out) && FrameEnd(buf, TextEnds).None?
    ensures OnFrames(c, read, st0, Frames(all, TextEnds)) == (st, out) && Rest(all, TextEnds) == buf
  {
    Sequences.ConcatEmpty(handled);
  }
}
