/** The Kimi stream filter as the object that updates its counters and buffers in place. */
module KimiObject {
  import opened Wrappers
  import Sequences
  import opened Utf8
  import opened MessageStream
  import opened Bytes
  import opened Framing
  import opened KimiFilter

  const MAX_FRAME_BYTES: nat := 1024 * 1024

  /** Reads a frame without the blank line that ends it. */
  type Reader = seq<byte> -> Frame

  ghost function Unended(frame: seq<byte>): seq<byte> {
    match NextBoundary(frame, ByteEnds)
    case None => frame
    case Some(b) => if b.at <= |frame| then frame[..b.at] else frame
  }

  ghost function ReadAll(read: Reader, frames: seq<seq<byte>>): seq<Sized> {
    seq(|frames|, i requires 0 <= i < |frames| => KimiFilter.Sized(read(Unended(frames[i])), |frames[i]|))
  }

  datatype Fed = Fed(filter: Filter, buf: seq<byte>, out: seq<Frame>)

  /** Adds a chunk, rewrites every frame it completes, and refuses to hold more than a bounded remainder. */
  ghost function FeedChunk(blank: Blank, read: Reader, f: Filter, buf: seq<byte>, chunk: seq<byte>): Result<Fed, string> {
    var passed :- OnFrames(blank, f, ReadAll(read, Framing.Frames(buf + chunk, ByteEnds)));
    var rest := Rest(buf + chunk, ByteEnds);
    if |rest| > MAX_FRAME_BYTES then Err("Kimi SSE frame exceeds the bounded buffer")
    else Ok(Fed(passed.filter, rest, passed.out))
  }

  ghost function FeedChunks(blank: Blank, read: Reader, chunks: seq<seq<byte>>): Result<Fed, string> {
    if chunks == [] then Ok(Fed(Idle, [], []))
    else
      var before :- FeedChunks(blank, read, chunks[..|chunks| - 1]);
      var last :- FeedChunk(blank, read, before.filter, before.buf, chunks[|chunks| - 1]);
      Ok(last.(out := before.out + last.out))
  }

  function Joined(chunks: seq<seq<byte>>): seq<byte> {
    if chunks == [] then [] else Joined(chunks[..|chunks| - 1]) + chunks[|chunks| - 1]
  }

  /** Each frame, and whatever is left over, fits the frame bound. */
  ghost predicate Bounded(bytes: seq<byte>) {
    && (forall frame | frame in Framing.Frames(bytes, ByteEnds) :: |frame| <= MAX_FRAME_BYTES)
    && |Rest(bytes, ByteEnds)| <= MAX_FRAME_BYTES
  }

  lemma {:induction false} OnFramesConcat(blank: Blank, f: Filter, a: seq<Sized>, b: seq<Sized>)
    ensures
      OnFrames(blank, f, a + b)
      == if OnFrames(blank, f, a).Err? then OnFrames(blank, f, a)
         else
           var p := OnFrames(blank, f, a).value;
           var q := OnFrames(blank, p.filter, b);
           if q.Err? then q else Ok(q.value.(out := p.out + q.value.out))
  {
    if b == [] {
      assert a + b == a;
      if OnFrames(blank, f, a).Ok? {
        assert OnFrames(blank, f, a).value.out + [] == OnFrames(blank, f, a).value.out;
      }
    } else {
      OnFramesConcat(blank, f, a, b[..|b| - 1]);
      Sequences.ConcatLast(a, b);
      if OnFrames(blank, f, a).Ok? {
        OnFramesAssociate(blank, f, a, b);
      }
    }
  }

  lemma OnFramesAssociate(blank: Blank, f: Filter, a: seq<Sized>, b: seq<Sized>)
    requires b != [] && OnFrames(blank, f, a).Ok?
    ensures
      var p := OnFrames(blank, f, a).value;
      var q := OnFrames(blank, p.filter, b[..|b| - 1]);
      q.Ok? && OnFrame(blank, q.value.filter, b[|b| - 1]).Ok? ==>
        p.out + q.value.out + OnFrame(blank, q.value.filter, b[|b| - 1]).value.out
        == p.out + (q.value.out + OnFrame(blank, q.value.filter, b[|b| - 1]).value.out)
  {
  }

  /** What is left of a bounded stream's beginning is never more than a frame of it. */
  lemma RestIsBounded(a: seq<byte>, b: seq<byte>)
    requires Bounded(a + b)
    ensures |Rest(a, ByteEnds)| <= MAX_FRAME_BYTES
  {
    var rest := Rest(a, ByteEnds);
    ChunksDoNotMatter(a, b, ByteEnds);
    NothingDropped(a, ByteEnds);
    FrameEndBounds(rest + b, ByteEnds);
    match FrameEnd(rest + b, ByteEnds)
    case None =>
    case Some(end) =>
      if end <= |rest| {
        EndInside(rest, b, end);
      }
      assert Framing.Frames(rest + b, ByteEnds)[0] == (rest + b)[..end];
      assert (rest + b)[..end] in Framing.Frames(a + b, ByteEnds);
  }

  /** A frame that ends within the first part of a buffer ends there without the second. */
  lemma EndInside(a: seq<byte>, b: seq<byte>, end: nat)
    requires FrameEnd(a + b, ByteEnds) == Some(end) && end <= |a|
    ensures FrameEnd(a, ByteEnds).Some?
  {
    if FrameEnd(a, ByteEnds).None? {
      FindLfStable(a, b, ByteEnds);
      FindCrlfStable(a, b, ByteEnds);
    }
  }

  lemma {:induction false} BoundedPrefix(a: seq<byte>, b: seq<byte>)
    requires Bounded(a + b)
    ensures Bounded(a)
  {
    RestIsBounded(a, b);
    ChunksDoNotMatter(a, b, ByteEnds);
  }

  lemma ReadAllConcat(read: Reader, a: seq<seq<byte>>, b: seq<seq<byte>>)
    ensures ReadAll(read, a + b) == ReadAll(read, a) + ReadAll(read, b)
  {
  }

  /** A bounded stream gives the same output, final state or error however it is cut into chunks. */
  lemma {:induction false} ChunkingDoesNotMatter(blank: Blank, read: Reader, chunks: seq<seq<byte>>)
    requires Bounded(Joined(chunks))
    ensures FeedChunks(blank, read, chunks) == FeedChunk(blank, read, Idle, [], Joined(chunks))
    decreases |chunks|
  {
    if chunks == [] {
      assert ReadAll(read, Framing.Frames([] + Joined(chunks), ByteEnds)) == [];
    } else {
      var a, b := Joined(chunks[..|chunks| - 1]), chunks[|chunks| - 1];
      BoundedPrefix(a, b);
      ChunkingDoesNotMatter(blank, read, chunks[..|chunks| - 1]);
      TwoChunks(blank, read, a, b);
    }
  }

  lemma TwoChunks(blank: Blank, read: Reader, a: seq<byte>, b: seq<byte>)
    requires Bounded(a + b)
    ensures
      var first := FeedChunk(blank, read, Idle, [], a);
      FeedChunk(blank, read, Idle, [], a + b)
      == if first.Err? then first
         else
           var second := FeedChunk(blank, read, first.value.filter, first.value.buf, b);
           if second.Err? then second else Ok(second.value.(out := first.value.out + second.value.out))
  {
    Sequences.ConcatEmpty(a);
    Sequences.ConcatEmpty(a + b);
    RestIsBounded(a, b);
    ChunksDoNotMatter(a, b, ByteEnds);
    var frames, more := Framing.Frames(a, ByteEnds), Framing.Frames(Rest(a, ByteEnds) + b, ByteEnds);
    ReadAllConcat(read, frames, more);
    OnFramesConcat(blank, Idle, ReadAll(read, frames), ReadAll(read, more));
  }

  // ---------- The object ----------

  class KimiServerToolFilter {
    const blank: Blank
    const read: Reader
    var buf: seq<byte>
    var nextUpstreamIndex: nat
    var nextOutputIndex: nat
    var activeOutputBlock: Option<(nat, nat)>
    var droppedThinking: nat
    var thinking: Option<Buffered>

    constructor (blank: Blank, read: Reader)
      ensures this.blank == blank && this.read == read && View() == Idle && buf == []
    {
      this.blank, this.read := blank, read;
      buf, nextUpstreamIndex, nextOutputIndex, droppedThinking := [], 0, 0, 0;
      activeOutputBlock, thinking := None, None;
    }

    ghost function View(): Filter
      reads this
    {
      Filter(nextUpstreamIndex, nextOutputIndex, activeOutputBlock, droppedThinking, thinking)
    }

    method CompleteUpstreamBlock() returns (r: Result<(), string>)
      modifies this`nextUpstreamIndex
      ensures r.Ok? <==> old(nextUpstreamIndex) < MAX_INDEX
      ensures r.Ok? ==> nextUpstreamIndex == old(nextUpstreamIndex) + 1
      ensures r.Err? ==> r.error == "Kimi content block index overflow"
    {
      if nextUpstreamIndex >= MAX_INDEX {
        return Err("Kimi content block index overflow");
      }
      nextUpstreamIndex := nextUpstreamIndex + 1;
      r := Ok(());
    }

    method AllocateOutputIndex() returns (r: Result<nat, string>)
      modifies this`nextOutputIndex
      ensures r.Ok? <==> old(nextOutputIndex) < MAX_INDEX
      ensures r.Ok? ==> r.value == old(nextOutputIndex) && nextOutputIndex == old(nextOutputIndex) + 1
      ensures r.Err? ==> r.error == "Kimi output block index overflow"
    {
      if nextOutputIndex >= MAX_INDEX {
        return Err("Kimi output block index overflow");
      }
      r := Ok(nextOutputIndex);
      nextOutputIndex := nextOutputIndex + 1;
    }

    method RewriteFrame(s: Sized) returns (r: Result<seq<Frame>, string>)
      modifies this`nextUpstreamIndex, this`nextOutputIndex, this`activeOutputBlock, this`droppedThinking, this`thinking
      ensures
        match OnFrame(blank, old(View()), s)
        case Err(e) => r == Err(e)
        case Ok(p) => r == Ok(p.out) && View() == p.filter
    {
      match s.frame {
        case Comment(lack, _) =>
          if thinking.Some? {
            return Err(Refusal(lack));
          }
          r := Ok([s.frame]);
        case Mismatched =>
          r := Err("Kimi SSE event and JSON type do not match");
        case Unknown(_, index) =>
          if thinking.Some? {
            if thinking.value.bytes + s.bytes > MAX_THINKING_BLOCK_BYTES {
              return Err("Kimi thinking block exceeds the bounded buffer");
            }
            return Err("Kimi thinking block ended before content_block_stop");
          }
          if activeOutputBlock.Some? {
            if index != Some(activeOutputBlock.value.0) {
              return Err("Kimi content block index changed");
            }
            return Err("Kimi content block ended before content_block_stop");
          }
          r := Ok([s.frame]);
        case Readable(e) =>
          if thinking.Some? {
            r := RewriteThinkingFrame(e, s.bytes);
          } else if activeOutputBlock.Some? {
            r := RewriteOutputBlockFrame(e);
          } else if e.BlockStart? {
            r := StartBlock(e, s.bytes);
          } else {
            r := Ok([s.frame]);
          }
      }
    }

    method StartBlock(e: Event, bytes: nat) returns (r: Result<seq<Frame>, string>)
      requires e.BlockStart? && thinking.None? && activeOutputBlock.None?
      modifies this`activeOutputBlock, this`thinking
      ensures
        match AtStart(blank, old(View()), e, bytes)
        case Err(e) => r == Err(e)
        case Ok(p) => r == Ok(p.out) && View() == p.filter
    {
      if e.index != nextUpstreamIndex {
        return Err("Kimi content block start index is invalid");
      }
      if e.head.ThinkingHead? {
        var signature := e.head.signature;
        if ByteLen(signature) > MAX_SIGNATURE_BYTES {
          return Err("Kimi thinking signature is too large");
        }
        var thinkingBytes := ByteLen(e.head.thinking);
        if thinkingBytes > MAX_THINKING_BYTES || bytes > MAX_THINKING_BLOCK_BYTES {
          return Err("Kimi thinking block exceeds the bounded buffer");
        }
        thinking := Some(Buffered(e.index, [e], bytes, thinkingBytes, signature, FragmentIsValid(blank, signature)));
        return Ok([]);
      }
      var mapped := nextOutputIndex;
      activeOutputBlock := Some((e.index, mapped));
      r := Ok([Readable(AtIndex(e, mapped))]);
    }

    method RewriteOutputBlockFrame(e: Event) returns (r: Result<seq<Frame>, string>)
      requires activeOutputBlock.Some? && thinking.None?
      modifies this`nextUpstreamIndex, this`nextOutputIndex, this`activeOutputBlock
      ensures
        match InBlock(old(View()), old(activeOutputBlock.value), e)
        case Err(e) => r == Err(e)
        case Ok(p) => r == Ok(p.out) && View() == p.filter
    {
      if e.Failure? {
        activeOutputBlock := None;
        return Ok([Readable(e)]);
      }
      if e.Ping? {
        return Ok([Readable(e)]);
      }
      var (upstream, mapped) := activeOutputBlock.value;
      if IndexOf(e) != Some(upstream) {
        return Err("Kimi content block index changed");
      }
      if !e.BlockDelta? && !e.BlockStop? {
        return Err("Kimi content block ended before content_block_stop");
      }
      if e.BlockStop? {
        activeOutputBlock := None;
        var completed := CompleteUpstreamBlock();
        if completed.Err? {
          return Err(completed.error);
        }
        var index := AllocateOutputIndex();
        if index.Err? {
          return Err(index.error);
        }
      }
      r := Ok([Readable(AtIndex(e, mapped))]);
    }

    method RewriteThinkingFrame(e: Event, frameBytes: nat) returns (r: Result<seq<Frame>, string>)
      requires thinking.Some?
      modifies this`nextUpstreamIndex, this`nextOutputIndex, this`droppedThinking, this`thinking
      ensures
        match InThinking(blank, old(View()), old(thinking.value), e, frameBytes)
        case Err(e) => r == Err(e)
        case Ok(p) => r == Ok(p.out) && View() == p.filter
    {
      if e.Failure? {
        thinking := None;
        return Ok([Readable(e)]);
      }
      var t := thinking.value;
      if t.bytes + frameBytes > MAX_THINKING_BLOCK_BYTES {
        return Err("Kimi thinking block exceeds the bounded buffer");
      }
      t := t.(bytes := t.bytes + frameBytes, frames := t.frames + [e]);
      match e {
        case Ping =>
          thinking := Some(t);
          r := Ok([]);
        case BlockDelta(index, delta) =>
          if index != t.index {
            return Err("Kimi thinking block index changed");
          }
          match delta {
            case ThinkingDelta(part) =>
              if t.thinkingBytes + ByteLen(part) > MAX_THINKING_BYTES {
                return Err("Kimi thinking content is too large");
              }
              t := t.(thinkingBytes := t.thinkingBytes + ByteLen(part));
            case SignatureDelta(part) =>
              if ByteLen(t.signature) + ByteLen(part) > MAX_SIGNATURE_BYTES {
                return Err("Kimi thinking signature is too large");
              }
              t := t.(valid := t.valid && FragmentIsValid(blank, part), signature := t.signature + part);
            case _ =>
              return Err("Kimi thinking delta type is unsupported");
          }
          thinking := Some(t);
          r := Ok([]);
        case BlockStop(index) =>
          if index != t.index {
            return Err("Kimi thinking block index changed");
          }
          r := ReleaseThinking(t);
        case _ =>
          r := Err("Kimi thinking block ended before content_block_stop");
      }
    }

    method ReleaseThinking(t: Buffered) returns (r: Result<seq<Frame>, string>)
      modifies this`nextUpstreamIndex, this`nextOutputIndex, this`droppedThinking, this`thinking
      ensures
        match Release(old(View()), t)
        case Err(e) => r == Err(e)
        case Ok(p) => r == Ok(p.out) && View() == p.filter
    {
      thinking := None;
      var completed := CompleteUpstreamBlock();
      if completed.Err? {
        return Err(completed.error);
      }
      if !t.valid || t.signature == "" {
        droppedThinking := droppedThinking + 1;
        return Ok(KimiFilter.Frames(PingsOf(t.frames)));
      }
      var mapped := AllocateOutputIndex();
      if mapped.Err? {
        return Err(mapped.error);
      }
      r := Ok(KimiFilter.Frames(Reindexed(t.frames, mapped.value)));
    }

    method Feed(chunk: seq<byte>) returns (r: Result<seq<Frame>, string>)
      modifies this
      ensures
        match FeedChunk(blank, read, old(View()), old(buf), chunk)
        case Err(e) => r == Err(e)
        case Ok(fed) => r == Ok(fed.out) && View() == fed.filter && buf == fed.buf
    {
      buf := buf + chunk;
      r := DrainFrames();
      if r.Ok? && |buf| > MAX_FRAME_BYTES {
        return Err("Kimi SSE frame exceeds the bounded buffer");
      }
    }

    /** Takes the next frame off the buffer and rewrites it. */
    method RewriteNext(b: Boundary, ghost f0: Filter, ghost all: seq<byte>, ghost handled: seq<seq<byte>>, ghost out: seq<Frame>)
      returns (r: Result<seq<Frame>, string>)
      requires NextBoundary(buf, ByteEnds) == Some(b) && 0 < b.sep && b.at + b.sep <= |buf|
      requires FrameEnd(buf, ByteEnds) == Some(b.at + b.sep)
      requires Handling(blank, read, f0, all, handled, buf, View(), out)
      modifies this
      ensures r.Err? ==> Drained(blank, read, f0, all, r, View(), buf)
      ensures r.Ok? ==>
        && buf == old(buf)[b.at + b.sep..]
        && Handling(blank, read, f0, all, handled + [old(buf)[..b.at + b.sep]], buf, View(), out + r.value)
    {
      var frame, rest := buf[..b.at], buf[b.at + b.sep..];
      var s := KimiFilter.Sized(read(frame), b.at + b.sep);
      ghost var step := OnFrame(blank, View(), s);
      FrameTaken(blank, read, f0, handled, buf, b, View(), out, step);
      HandlingGoesOn(blank, read, f0, all, handled, buf, b.at + b.sep, View(), out, step);
      r := RewriteFrame(s);
      buf := rest;
    }

    /** Rewrites every complete frame of the buffer. */
    method DrainFrames() returns (r: Result<seq<Frame>, string>)
      modifies this
      ensures Drained(blank, read, old(View()), old(buf), r, View(), buf)
    {
      ghost var f0, all, handled: seq<seq<byte>> := View(), buf, [];
      var out := [];
      var boundary := LocateBoundary(buf, ByteEnds);
      HandlingStarts(blank, read, f0, all);
      while boundary.Some?
        invariant boundary == NextBoundary(buf, ByteEnds)
        invariant boundary.None? ==> FrameEnd(buf, ByteEnds).None?
        invariant boundary.Some? ==>
          && 0 < boundary.value.sep && boundary.value.at + boundary.value.sep <= |buf|
          && FrameEnd(buf, ByteEnds) == Some(boundary.value.at + boundary.value.sep)
        invariant Handling(blank, read, f0, all, handled, buf, View(), out)
        decreases |buf|
      {
        ghost var frame := buf[..boundary.value.at + boundary.value.sep];
        var rewritten := RewriteNext(boundary.value, f0, all, handled, out);
        if rewritten.Err? {
          return Err(rewritten.error);
        }
        handled := handled + [frame];
        out := out + rewritten.value;
        boundary := LocateBoundary(buf, ByteEnds);
      }
      HandlingEnds(blank, read, f0, all, handled, buf, View(), out);
      r := Ok(out);
    }

    method Finalize() returns (r: Result<(), string>)
      modifies this`buf
      ensures r.Ok? <==> MayEnd(View()) && IsBlank(old(buf))
      ensures r.Ok? ==> buf == []
    {
      if thinking.Some? {
        return Err("Kimi thinking block ended before content_block_stop");
      }
      if activeOutputBlock.Some? {
        return Err("Kimi content block ended before content_block_stop");
      }
      if IsBlank(buf) {
        buf := [];
        return Ok(());
      }
      r := Err("Kimi SSE stream ended with a partial frame");
    }
  }

  lemma FrameUnended(buf: seq<byte>, b: Boundary)
    requires NextBoundary(buf, ByteEnds) == Some(b)
    ensures b.at + b.sep <= |buf| && Unended(buf[..b.at + b.sep]) == buf[..b.at]
  {
    RulesAgree(buf, ByteEnds);
    FrameEndBounds(buf, ByteEnds);
    var frame, rest := buf[..b.at + b.sep], buf[b.at + b.sep..];
    assert buf == frame + rest;
    FindLfStable(frame, rest, ByteEnds);
    FindCrlfStable(frame, rest, ByteEnds);
    if b.sep == 2 {
      assert LfAt(frame, ByteEnds, b.at);
    } else {
      assert CrlfAt(frame, ByteEnds, b.at);
    }
    assert frame[..b.at] == buf[..b.at];
  }

  /** Midway through the frames of a buffer. */
  ghost predicate Handling(
    blank: Blank, read: Reader, f0: Filter, all: seq<byte>, handled: seq<seq<byte>>, buf: seq<byte>, f: Filter,
    out: seq<Frame>)
  {
    && handled + Framing.Frames(buf, ByteEnds) == Framing.Frames(all, ByteEnds)
    && Rest(buf, ByteEnds) == Rest(all, ByteEnds)
    && OnFrames(blank, f0, ReadAll(read, handled)) == Ok(Passed(f, out))
  }

  lemma HandlingStarts(blank: Blank, read: Reader, f: Filter, all: seq<byte>)
    ensures Handling(blank, read, f, all, [], all, f, [])
  {
    Sequences.ConcatEmpty(Framing.Frames(all, ByteEnds));
    assert ReadAll(read, []) == [];
  }

  function AndThen(out: seq<Frame>, step: Result<Passed, string>): Result<Passed, string> {
    if step.Err? then step else Ok(step.value.(out := out + step.value.out))
  }

  lemma FrameTaken(
    blank: Blank, read: Reader, f0: Filter, handled: seq<seq<byte>>, buf: seq<byte>, b: Boundary, f: Filter,
    out: seq<Frame>, step: Result<Passed, string>)
    requires OnFrames(blank, f0, ReadAll(read, handled)) == Ok(Passed(f, out))
    requires NextBoundary(buf, ByteEnds) == Some(b) && 0 < b.sep && b.at + b.sep <= |buf|
    requires step == OnFrame(blank, f, KimiFilter.Sized(read(buf[..b.at]), b.at + b.sep))
    ensures OnFrames(blank, f0, ReadAll(read, handled + [buf[..b.at + b.sep]])) == AndThen(out, step)
  {
    var frame := buf[..b.at + b.sep];
    FrameUnended(buf, b);
    ReadSnoc(read, handled, frame);
    OnFramesSnoc(blank, f0, ReadAll(read, handled), KimiFilter.Sized(read(Unended(frame)), |frame|));
  }

  /** The next frame is handled in its turn, or decides that the chunk is refused. */
  lemma HandlingGoesOn(
    blank: Blank, read: Reader, f0: Filter, all: seq<byte>, handled: seq<seq<byte>>, buf: seq<byte>, end: nat,
    f: Filter, out: seq<Frame>, step: Result<Passed, string>)
    requires Handling(blank, read, f0, all, handled, buf, f, out)
    requires FrameEnd(buf, ByteEnds) == Some(end) && 0 < end <= |buf|
    requires OnFrames(blank, f0, ReadAll(read, handled + [buf[..end]])) == AndThen(out, step)
    ensures
      if step.Err? then OnFrames(blank, f0, ReadAll(read, Framing.Frames(all, ByteEnds))) == Err(step.error)
      else Handling(blank, read, f0, all, handled + [buf[..end]], buf[end..], step.value.filter, out + step.value.out)
  {
    Sequences.Associate(handled, [buf[..end]], Framing.Frames(buf[end..], ByteEnds));
    if step.Err? {
      FailsAtOnce(blank, read, f0, handled + [buf[..end]], Framing.Frames(buf[end..], ByteEnds));
    }
  }

  /** What all frames of a buffer lead to. */
  ghost predicate Drained(
    blank: Blank, read: Reader, f0: Filter, all: seq<byte>, r: Result<seq<Frame>, string>, f: Filter, rest: seq<byte>)
  {
    match OnFrames(blank, f0, ReadAll(read, Framing.Frames(all, ByteEnds)))
    case Err(e) => r == Err(e)
    case Ok(p) => r == Ok(p.out) && f == p.filter && rest == Rest(all, ByteEnds)
  }

  lemma HandlingEnds(
    blank: Blank, read: Reader, f0: Filter, all: seq<byte>, handled: seq<seq<byte>>, buf: seq<byte>, f: Filter,
    out: seq<Frame>)
    requires Handling(blank, read, f0, all, handled, buf, f, out) && FrameEnd(buf, ByteEnds).None?
    ensures Drained(blank, read, f0, all, Ok(out), f, buf)
  {
    Sequences.ConcatEmpty(handled);
  }

  lemma ReadSnoc(read: Reader, frames: seq<seq<byte>>, frame: seq<byte>)
    ensures ReadAll(read, frames + [frame]) == ReadAll(read, frames) + [KimiFilter.Sized(read(Unended(frame)), |frame|)]
  {
  }

  lemma OnFramesSnoc(blank: Blank, f: Filter, frames: seq<Sized>, s: Sized)
    requires OnFrames(blank, f, frames).Ok?
    ensures
      var p := OnFrames(blank, f, frames).value;
      var last := OnFrame(blank, p.filter, s);
      OnFrames(blank, f, frames + [s])
      == if last.Err? then Err(last.error) else Ok(Passed(last.value.filter, p.out + last.value.out))
  {
    assert (frames + [s])[..|frames|] == frames;
  }

  /** The first frame refused decides. */
  lemma FailsAtOnce(blank: Blank, read: Reader, f: Filter, frames: seq<seq<byte>>, more: seq<seq<byte>>)
    requires OnFrames(blank, f, ReadAll(read, frames)).Err?
    ensures OnFrames(blank, f, ReadAll(read, frames + more)) == OnFrames(blank, f, ReadAll(read, frames))
  {
    ReadAllConcat(read, frames, more);
    OnFramesConcat(blank, f, ReadAll(read, frames), ReadAll(read, more));
  }
}
