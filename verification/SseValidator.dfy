/** The incremental validator over bytes, which copies whole frames. */
module SseValidator {
  import opened Wrappers
  import Sequences
  import opened MessageStream
  import opened Bytes
  import opened Framing

  const MAX_PENDING_BYTES: nat := 1024 * 1024

  /** Reads a frame: none when its text, fields or JSON are not those of a known event; a comment reads as a ping. */
  type Reader = seq<byte> -> Option<Event>

  datatype Problem = AfterTerminal | TooLarge | BadFrame | Partial | Unfinished

  datatype State = State(pending: seq<byte>, life: Life, stop: Option<seq<byte>>)

  const Fresh := State([], Initial, None)

  datatype Fed = Fed(st: State, out: seq<byte>)

  function FrameEvents(read: Reader, frames: seq<seq<byte>>): Option<seq<Event>> {
    if frames == [] then Some([])
    else
      match (FrameEvents(read, frames[..|frames| - 1]), read(frames[|frames| - 1]))
      case (Some(es), Some(e)) => Some(es + [e])
      case _ => None
  }

  /** The lifecycle after some frames; none if one of them cannot be read or comes at the wrong time. */
  function RunFrames(read: Reader, l: Life, frames: seq<seq<byte>>): Option<Life> {
    match FrameEvents(read, frames) case None => None case Some(es) => Run(l, es)
  }

  function IsTerminal(l: Life): bool {
    l.phase in {Complete, Failed}
  }

  /** The frame kept back, if the frames ended with message_stop. */
  function Withheld(l: Life, frames: seq<seq<byte>>): bool {
    frames != [] && l.phase == Complete
  }

  ghost function FeedChunk(read: Reader, st: State, chunk: seq<byte>): Result<Fed, Problem> {
    var buf := st.pending + chunk;
    if IsTerminal(st.life) && chunk != [] then Err(AfterTerminal)
    else if |buf| > MAX_PENDING_BYTES then Err(TooLarge)
    else
      var frames, rest := Frames(buf, ByteEnds), Rest(buf, ByteEnds);
      match RunFrames(read, st.life, frames)
      case None => Err(BadFrame)
      case Some(l) =>
        if l.phase == Failed && frames != [] && rest != [] then Err(AfterTerminal)
        else
          Ok(Fed(State(rest, l, if Withheld(l, frames) then Some(frames[|frames| - 1]) else st.stop),
                 Released(l, frames)))
  }

  /** The bytes of all frames but the one kept back. */
  function Released(l: Life, frames: seq<seq<byte>>): seq<byte> {
    Flatten(if Withheld(l, frames) then frames[..|frames| - 1] else frames)
  }

  function Finish(st: State): Result<seq<byte>, Problem> {
    if !IsBlank(st.pending) then Err(Partial)
    else if st.life.phase == Complete && st.stop.Some? then Ok(st.stop.value)
    else if st.life.phase == Failed then Ok([])
    else Err(Unfinished)
  }

  ghost function FeedChunks(read: Reader, chunks: seq<seq<byte>>): Result<Fed, Problem> {
    if chunks == [] then Ok(Fed(Fresh, []))
    else
      var before :- FeedChunks(read, chunks[..|chunks| - 1]);
      var last :- FeedChunk(read, before.st, chunks[|chunks| - 1]);
      Ok(last.(out := before.out + last.out))
  }

  function Joined(chunks: seq<seq<byte>>): seq<byte> {
    if chunks == [] then [] else Joined(chunks[..|chunks| - 1]) + chunks[|chunks| - 1]
  }

  // ---------- Copying ----------

  lemma {:induction false} FrameEventsConcat(read: Reader, a: seq<seq<byte>>, b: seq<seq<byte>>)
    ensures
      FrameEvents(read, a + b)
      == if FrameEvents(read, a).Some? && FrameEvents(read, b).Some?
         then Some(FrameEvents(read, a).value + FrameEvents(read, b).value) else None
  {
    if b == [] {
      assert a + b == a;
      if FrameEvents(read, a).Some? {
        assert FrameEvents(read, a).value + [] == FrameEvents(read, a).value;
      }
    } else {
      FrameEventsConcat(read, a, b[..|b| - 1]);
      Sequences.ConcatLast(a, b);
      if FrameEvents(read, a).Some? && FrameEvents(read, b).Some? {
        Sequences.Associate(FrameEvents(read, a).value, FrameEvents(read, b[..|b| - 1]).value, [read(b[|b| - 1]).value]);
      }
    }
  }

  lemma RunFramesConcat(read: Reader, l: Life, a: seq<seq<byte>>, b: seq<seq<byte>>)
    ensures
      RunFrames(read, l, a + b)
      == if RunFrames(read, l, a).None? then None else RunFrames(read, RunFrames(read, l, a).value, b)
  {
    FrameEventsConcat(read, a, b);
    if FrameEvents(read, a).Some? && FrameEvents(read, b).Some? {
      RunConcat(l, FrameEvents(read, a).value, FrameEvents(read, b).value);
    }
  }

  lemma {:induction false} FlattenConcat(a: seq<seq<byte>>, b: seq<seq<byte>>)
    ensures Flatten(a + b) == Flatten(a) + Flatten(b)
  {
    if a == [] {
      assert a + b == b;
    } else {
      FlattenConcat(a[1..], b);
      assert (a + b)[1..] == a[1..] + b;
      Sequences.Associate(a[0], Flatten(a[1..]), Flatten(b));
    }
  }

  /** After a terminal event nothing more is accepted. */
  lemma {:induction false} TerminalEndsIt(l: Life, es: seq<Event>)
    requires IsTerminal(l) && Run(l, es).Some?
    ensures es == []
  {
    if es != [] {
      TerminalEndsIt(l, es[..|es| - 1]);
    }
  }

  /** What a session has read, released and kept back. */
  ghost predicate Copies(read: Reader, total: seq<byte>, fed: Fed) {
    var frames := Frames(total, ByteEnds);
    && RunFrames(read, Initial, frames) == Some(fed.st.life)
    && fed.st.pending == Rest(total, ByteEnds)
    && (fed.st.life.phase == Complete ==> frames != [])
    && fed.st.stop == (if fed.st.life.phase == Complete then Some(frames[|frames| - 1]) else None)
    && fed.out == Released(fed.st.life, frames)
    && (fed.st.life.phase == Failed ==> fed.st.pending == [])
  }

  lemma ChunkCopies(read: Reader, total: seq<byte>, before: Fed, chunk: seq<byte>)
    requires Copies(read, total, before) && FeedChunk(read, before.st, chunk).Ok?
    ensures
      var last := FeedChunk(read, before.st, chunk).value;
      Copies(read, total + chunk, last.(out := before.out + last.out))
  {
    ChunksDoNotMatter(total, chunk, ByteEnds);
    RunFramesConcat(read, Initial, Frames(total, ByteEnds), Frames(before.st.pending + chunk, ByteEnds));
    if IsTerminal(before.st.life) {
      NothingMore(total);
      assert before.st.pending + [] == before.st.pending && total + [] == total && before.out + [] == before.out;
    } else {
      if IsTerminal(FeedChunk(read, before.st, chunk).value.st.life) {
        CompleteNeedsFrames(read, before.st.life, Frames(before.st.pending + chunk, ByteEnds));
      }
      ReleasedConcat(before.st.life, FeedChunk(read, before.st, chunk).value.st.life,
                     Frames(total, ByteEnds), Frames(before.st.pending + chunk, ByteEnds));
    }
  }

  lemma NothingMore(total: seq<byte>)
    ensures Frames(Rest(total, ByteEnds), ByteEnds) == [] && Rest(Rest(total, ByteEnds), ByteEnds) == Rest(total, ByteEnds)
  {
    NothingDropped(total, ByteEnds);
  }

  lemma CompleteNeedsFrames(read: Reader, l: Life, frames: seq<seq<byte>>)
    requires !IsTerminal(l) && RunFrames(read, l, frames).Some? && IsTerminal(RunFrames(read, l, frames).value)
    ensures frames != []
  {
  }

  lemma ReleasedConcat(l: Life, l': Life, a: seq<seq<byte>>, b: seq<seq<byte>>)
    requires !IsTerminal(l) && (l'.phase == Complete ==> b != [])
    ensures Released(l, a) + Released(l', b) == Released(l', a + b)
  {
    FlattenConcat(a, b);
    if b != [] {
      FlattenConcat(a, b[..|b| - 1]);
      Sequences.ConcatLast(a, b);
    }
  }

  /** However it was cut: released bytes are a whole-frame prefix of the bytes fed, message_stop never among them. */
  lemma {:induction false} OnlyCopies(read: Reader, chunks: seq<seq<byte>>)
    requires FeedChunks(read, chunks).Ok?
    ensures Copies(read, Joined(chunks), FeedChunks(read, chunks).value)
  {
    if chunks != [] {
      OnlyCopies(read, chunks[..|chunks| - 1]);
      ChunkCopies(read, Joined(chunks[..|chunks| - 1]), FeedChunks(read, chunks[..|chunks| - 1]).value,
                  chunks[|chunks| - 1]);
    }
  }

  /** No frame released so far is message_stop, and with the frame kept back and the rest they are the input. */
  lemma ReleasedIsWholeFrames(read: Reader, chunks: seq<seq<byte>>)
    requires FeedChunks(read, chunks).Ok?
    ensures
      var fed := FeedChunks(read, chunks).value;
      && WholeFrames(read, Frames(Joined(chunks), ByteEnds), fed.out)
      && Joined(chunks) == fed.out + (if fed.st.stop.Some? then fed.st.stop.value else []) + fed.st.pending
  {
    OnlyCopies(read, chunks);
    var fed := FeedChunks(read, chunks).value;
    NothingDropped(Joined(chunks), ByteEnds);
    ReleasedWhole(read, Frames(Joined(chunks), ByteEnds), fed.st.life);
    if fed.st.stop.None? {
      assert fed.out + [] == fed.out;
    }
  }

  /** Some of the first frames, all read, none of them message_stop. */
  ghost predicate WholeFrames(read: Reader, frames: seq<seq<byte>>, out: seq<byte>) {
    exists k | 0 <= k <= |frames| ::
      && out == Flatten(frames[..k])
      && FrameEvents(read, frames[..k]).Some?
      && MessageStop !in FrameEvents(read, frames[..k]).value
  }

  lemma ReleasedWhole(read: Reader, frames: seq<seq<byte>>, l: Life)
    requires RunFrames(read, Initial, frames) == Some(l) && (l.phase == Complete ==> frames != [])
    ensures WholeFrames(read, frames, Released(l, frames))
    ensures Flatten(frames) == Released(l, frames) + (if l.phase == Complete then frames[|frames| - 1] else [])
  {
    var es := FrameEvents(read, frames).value;
    if l.phase == Complete {
      LastFrame(frames);
      var k := |frames| - 1;
      BeforeTheLast(read, frames, l);
      NotYetStopped(Initial, FrameEvents(read, frames[..k]).value);
    } else {
      assert frames[..|frames|] == frames && Flatten(frames) + [] == Flatten(frames);
      NotYetStopped(Initial, es);
    }
  }

  lemma BeforeTheLast(read: Reader, frames: seq<seq<byte>>, l: Life)
    requires RunFrames(read, Initial, frames) == Some(l) && frames != []
    ensures
      var before := FrameEvents(read, frames[..|frames| - 1]);
      before.Some? && Run(Initial, before.value).Some? && Run(Initial, before.value).value.phase != Complete
  {
    var k := |frames| - 1;
    var before, e := FrameEvents(read, frames[..k]).value, read(frames[k]).value;
    RunSnoc(Initial, before, e);
  }

  lemma LastFrame(frames: seq<seq<byte>>)
    requires frames != []
    ensures Flatten(frames) == Flatten(frames[..|frames| - 1]) + frames[|frames| - 1]
  {
    var k := |frames| - 1;
    assert frames == frames[..k] + [frames[k]];
    FlattenConcat(frames[..k], [frames[k]]);
    FlattenOne(frames[k]);
  }

  lemma {:induction false} NotYetStopped(l: Life, es: seq<Event>)
    requires Run(l, es).Some? && Run(l, es).value.phase != Complete
    ensures MessageStop !in es
  {
    if es != [] {
      var before, e := es[..|es| - 1], es[|es| - 1];
      NotYetStopped(l, before);
      assert es == before + [e];
    }
  }

  // ---------- Acceptance ----------

  /** No chunk makes the unfinished frame it is added to outgrow the buffer. */
  ghost predicate WithinBound(chunks: seq<seq<byte>>) {
    forall k | 0 <= k < |chunks| :: |Rest(Joined(chunks[..k]), ByteEnds)| + |chunks[k]| <= MAX_PENDING_BYTES
  }

  ghost predicate Completes(read: Reader, chunks: seq<seq<byte>>) {
    var fed := FeedChunks(read, chunks);
    fed.Ok? && fed.value.st.life.phase == Complete && Finish(fed.value.st).Ok?
  }

  lemma {:induction false} ReadableIsFed(read: Reader, chunks: seq<seq<byte>>)
    requires WithinBound(chunks)
    requires RunFrames(read, Initial, Frames(Joined(chunks), ByteEnds)).Some?
    requires Rest(Joined(chunks), ByteEnds) == []
          || !IsTerminal(RunFrames(read, Initial, Frames(Joined(chunks), ByteEnds)).value)
    ensures FeedChunks(read, chunks).Ok?
  {
    if chunks != [] {
      var short, chunk := chunks[..|chunks| - 1], chunks[|chunks| - 1];
      BoundBefore(chunks);
      ReadableBefore(read, Joined(short), chunk);
      ReadableIsFed(read, short);
      OnlyCopies(read, short);
      ChunksDoNotMatter(Joined(short), chunk, ByteEnds);
    }
  }

  /** The beginning of a readable stream is readable, and nothing follows its end. */
  lemma ReadableBefore(read: Reader, a: seq<byte>, chunk: seq<byte>)
    requires RunFrames(read, Initial, Frames(a + chunk, ByteEnds)).Some?
    requires Rest(a + chunk, ByteEnds) == [] || !IsTerminal(RunFrames(read, Initial, Frames(a + chunk, ByteEnds)).value)
    ensures
      var before := RunFrames(read, Initial, Frames(a, ByteEnds));
      && before.Some?
      && RunFrames(read, Initial, Frames(a + chunk, ByteEnds))
         == RunFrames(read, before.value, Frames(Rest(a, ByteEnds) + chunk, ByteEnds))
      && (IsTerminal(before.value) ==> chunk == [] && Rest(a, ByteEnds) == [])
  {
    ChunksDoNotMatter(a, chunk, ByteEnds);
    var frames, more := Frames(a, ByteEnds), Frames(Rest(a, ByteEnds) + chunk, ByteEnds);
    RunFramesConcat(read, Initial, frames, more);
    var l := RunFrames(read, Initial, frames).value;
    if IsTerminal(l) {
      TerminalEndsIt(l, FrameEvents(read, more).value);
      NoFramesNoEvents(read, more);
      RestOfNothing(Rest(a, ByteEnds), chunk);
    }
  }

  lemma BoundBefore(chunks: seq<seq<byte>>)
    requires WithinBound(chunks) && chunks != []
    ensures WithinBound(chunks[..|chunks| - 1])
    ensures |Rest(Joined(chunks[..|chunks| - 1]), ByteEnds) + chunks[|chunks| - 1]| <= MAX_PENDING_BYTES
  {
    var short := chunks[..|chunks| - 1];
    forall k | 0 <= k < |short| ensures |Rest(Joined(short[..k]), ByteEnds)| + |short[k]| <= MAX_PENDING_BYTES {
      assert short[..k] == chunks[..k];
    }
  }

  lemma NoFramesNoEvents(read: Reader, frames: seq<seq<byte>>)
    requires FrameEvents(read, frames) == Some([])
    ensures frames == []
  {
  }

  lemma RestOfNothing(a: seq<byte>, b: seq<byte>)
    requires Frames(a + b, ByteEnds) == []
    ensures Rest(a + b, ByteEnds) == a + b
  {
    NothingDropped(a + b, ByteEnds);
    assert [] + Rest(a + b, ByteEnds) == Rest(a + b, ByteEnds);
  }

  /**
    For any cut within the buffer bound and with nothing after its last frame, a stream completes exactly when
    its frames read as a message of the grammar; and then everything fed comes out, message_stop at the end.
   */
  lemma CompletesIffMessage(read: Reader, chunks: seq<seq<byte>>)
    requires WithinBound(chunks) && Rest(Joined(chunks), ByteEnds) == []
    ensures
      var es := FrameEvents(read, Frames(Joined(chunks), ByteEnds));
      Completes(read, chunks) <==> es.Some? && IsMessage(es.value)
    ensures
      Completes(read, chunks) ==>
        var fed := FeedChunks(read, chunks).value;
        fed.out + Finish(fed.st).value == Joined(chunks)
  {
    var frames := Frames(Joined(chunks), ByteEnds);
    var es := FrameEvents(read, frames);
    if es.Some? {
      AcceptedIffMessage(es.value);
      if Accepted(es.value) {
        ReadableIsFed(read, chunks);
      }
    }
    if FeedChunks(read, chunks).Ok? {
      OnlyCopies(read, chunks);
      ReleasedIsWholeFrames(read, chunks);
    }
    if Completes(read, chunks) {
      var fed := FeedChunks(read, chunks).value;
      assert fed.out + fed.st.stop.value + [] == fed.out + fed.st.stop.value;
    }
  }

  // ---------- The object ----------

  class Validator {
    const read: Reader
    var pending: seq<byte>
    var phase: Phase
    var openBlock: Option<nat>
    var nextBlock: nat
    var pendingMessageStop: Option<seq<byte>>

    constructor (read: Reader)
      ensures this.read == read && View() == Fresh
    {
      this.read := read;
      pending, phase, openBlock, nextBlock, pendingMessageStop := [], AwaitMessageStart, None, 0, None;
    }

    ghost function View(): State
      reads this
    {
      State(pending, Life(phase, openBlock, nextBlock), pendingMessageStop)
    }

    /** Moves the lifecycle along, or refuses the event. */
    method ValidateEvent(e: Event) returns (ok: bool)
      modifies this`phase, this`openBlock, this`nextBlock
      ensures ok <==> Advance(old(View().life), e).Some?
      ensures ok ==> View().life == Advance(old(View().life), e).value
    {
      match e {
        case Ping =>
          ok := phase != Complete && phase != Failed;
        case MessageStart(_, _, _) =>
          ok := phase == AwaitMessageStart;
          if ok {
            phase := Streaming;
          }
        case BlockStart(index, _) =>
          ok := phase == Streaming && openBlock.None? && index == nextBlock;
          if ok {
            openBlock := Some(index);
          }
        case BlockDelta(index, _) =>
          ok := phase == Streaming && openBlock == Some(index);
        case BlockStop(index) =>
          ok := phase == Streaming && openBlock == Some(index);
          if ok {
            openBlock := None;
            ok := nextBlock < MAX_INDEX;
            if ok {
              nextBlock := nextBlock + 1;
            }
          }
        case MessageDelta(_, _, _) =>
          ok := phase == Streaming && openBlock.None?;
          if ok {
            phase := AfterMessageDelta;
          }
        case MessageStop =>
          ok := phase == AfterMessageDelta;
          if ok {
            phase := Complete;
          }
        case Failure(_) =>
          ok := phase != Complete && phase != Failed;
          if ok {
            phase := Failed;
          }
      }
    }

    method ValidateFrame(frame: seq<byte>) returns (r: Result<Event, Problem>)
      modifies this`phase, this`openBlock, this`nextBlock
      ensures
        var next := match read(frame) case None => None case Some(e) => Advance(old(View().life), e);
        if next.None? then r == Err(BadFrame) else r.Ok? && read(frame) == Some(r.value) && View().life == next.value
    {
      var e := read(frame);
      if e.None? {
        return Err(BadFrame);
      }
      var ok := ValidateEvent(e.value);
      r := if ok then Ok(e.value) else Err(BadFrame);
    }

    /** Takes one frame off the buffer: releases it, keeps it back, or refuses the chunk. */
    method TakeFrame(end: nat, ghost before: State, ghost all: seq<byte>, ghost handled: seq<seq<byte>>, ghost out: seq<byte>)
      returns (r: Result<seq<byte>, Problem>, terminal: bool)
      requires FrameEnd(pending, ByteEnds) == Some(end) && 2 <= end <= |pending|
      requires Handled(read, before, all, handled, View(), out)
      modifies this
      ensures r.Err? ==> Refused(read, before, all)
      ensures r.Ok? && !terminal ==> Handled(read, before, all, handled + [old(pending)[..end]], View(), out + r.value)
      ensures r.Ok? && !terminal ==> |pending| < old(|pending|)
      ensures r.Ok? && terminal ==>
        var frames := Frames(all, ByteEnds);
        && RunFrames(read, before.life, frames) == Some(View().life) && View().life.phase == Failed
        && pending == Rest(all, ByteEnds) == [] && pendingMessageStop == before.stop
        && out + r.value == Released(View().life, frames)
    {
      var frame := pending[..end];
      ghost var st := View();
      pending := pending[end..];
      terminal := false;
      var e := ValidateFrame(frame);
      if e.Err? {
        RefusedFrame(read, before, all, handled, st, out);
        return Err(BadFrame), false;
      }
      OwnEnding(st.life, e.value);
      if e.value.Failure? {
        FailureFrame(read, before, all, handled, st, out);
        if pending != [] {
          return Err(AfterTerminal), false;
        }
        return Ok(frame), true;
      }
      NextFrame(read, before, all, handled, st, out);
      if e.value.MessageStop? {
        pendingMessageStop := Some(frame);
        assert out + [] == out;
        return Ok([]), false;
      }
      return Ok(frame), false;
    }

    method Feed(chunk: seq<byte>) returns (r: Result<seq<byte>, Problem>)
      modifies this
      ensures
        match FeedChunk(read, old(View()), chunk)
        case Err(_) => r.Err?
        case Ok(fed) => r == Ok(fed.out) && View() == fed.st
    {
      if (phase == Complete || phase == Failed) && chunk != [] {
        return Err(AfterTerminal);
      }
      if |pending| + |chunk| > MAX_PENDING_BYTES {
        return Err(TooLarge);
      }
      pending := pending + chunk;
      r := DrainFrames();
    }

    /** Validates every complete frame of the buffer, and releases all but a message_stop. */
    method DrainFrames() returns (r: Result<seq<byte>, Problem>)
      modifies this
      ensures r.Err? ==> Refused(read, old(View()), old(pending))
      ensures r.Ok? ==> Drained(read, old(View()), View(), r.value)
    {
      ghost var before, all, handled: seq<seq<byte>> := View(), pending, [];
      var out := [];
      var end := LocateEnd(pending, ByteEnds);
      NothingHandled(read, before, all);
      while end.Some?
        invariant end == FrameEnd(pending, ByteEnds)
        invariant end.Some? ==> 2 <= end.value <= |pending|
        invariant Handled(read, before, all, handled, View(), out)
        decreases |pending|
      {
        ghost var frame := pending[..end.value];
        var released, terminal := TakeFrame(end.value, before, all, handled, out);
        if released.Err? {
          return released;
        }
        out := out + released.value;
        if terminal {
          return Ok(out);
        }
        handled := handled + [frame];
        end := LocateEnd(pending, ByteEnds);
      }
      AllHandled(read, before, all, handled, View(), out);
      r := Ok(out);
    }

    method FinishStream() returns (r: Result<seq<byte>, Problem>)
      modifies this`pending, this`pendingMessageStop
      ensures r == Finish(old(View()))
    {
      if pending != [] {
        if !IsBlank(pending) {
          return Err(Partial);
        }
        pending := [];
      }
      match phase {
        case Complete =>
          if pendingMessageStop.None? {
            return Err(Unfinished);
          }
          r := Ok(pendingMessageStop.value);
          pendingMessageStop := None;
        case Failed =>
          r := Ok([]);
        case _ =>
          r := Err(Unfinished);
      }
    }
  }

  /** Midway through the frames of a buffer `all`, none of them a failure yet. */
  ghost predicate Handled(
    read: Reader, before: State, all: seq<byte>, handled: seq<seq<byte>>, st: State, out: seq<byte>)
  {
    && handled + Frames(st.pending, ByteEnds) == Frames(all, ByteEnds)
    && Rest(st.pending, ByteEnds) == Rest(all, ByteEnds)
    && RunFrames(read, before.life, handled) == Some(st.life)
    && (st.life.phase == Failed ==> handled == [])
    && st.stop == (if Withheld(st.life, handled) then Some(handled[|handled| - 1]) else before.stop)
    && out == Released(st.life, handled)
  }

  /** Each ending has its own event. */
  lemma OwnEnding(l: Life, e: Event)
    requires Advance(l, e).Some?
    ensures Advance(l, e).value.phase == Complete <==> e.MessageStop?
    ensures Advance(l, e).value.phase == Failed <==> e.Failure?
  {
  }

  /** What a buffer's frames lead to, when they are acceptable. */
  ghost predicate Drained(read: Reader, before: State, st: State, out: seq<byte>) {
    var frames := Frames(before.pending, ByteEnds);
    && RunFrames(read, before.life, frames) == Some(st.life) && Rest(before.pending, ByteEnds) == st.pending
    && (st.life.phase == Failed ==> frames == [] || st.pending == [])
    && st.stop == (if Withheld(st.life, frames) then Some(frames[|frames| - 1]) else before.stop)
    && out == Released(st.life, frames)
  }

  lemma AllHandled(read: Reader, before: State, all: seq<byte>, handled: seq<seq<byte>>, st: State, out: seq<byte>)
    requires Handled(read, before, all, handled, st, out) && FrameEnd(st.pending, ByteEnds).None? && all == before.pending
    ensures Drained(read, before, st, out)
  {
    Sequences.ConcatEmpty(handled);
  }

  /** The frames of a buffer are not all acceptable, or something follows a failure. */
  ghost predicate Refused(read: Reader, before: State, all: seq<byte>) {
    var run := RunFrames(read, before.life, Frames(all, ByteEnds));
    run.None? || (run.value.phase == Failed && Frames(all, ByteEnds) != [] && Rest(all, ByteEnds) != [])
  }

  lemma NothingHandled(read: Reader, before: State, all: seq<byte>)
    requires all == before.pending
    ensures Handled(read, before, all, [], before, [])
  {
    Sequences.ConcatEmpty(Frames(all, ByteEnds));
  }

  ghost function NextLife(read: Reader, st: State): Option<Life>
    requires FrameEnd(st.pending, ByteEnds).Some? && FrameEnd(st.pending, ByteEnds).value <= |st.pending|
  {
    match read(st.pending[..FrameEnd(st.pending, ByteEnds).value]) case None => None case Some(e) => Advance(st.life, e)
  }

  lemma SplitFrame(read: Reader, before: State, all: seq<byte>, handled: seq<seq<byte>>, st: State, out: seq<byte>)
    requires Handled(read, before, all, handled, st, out)
    requires FrameEnd(st.pending, ByteEnds).Some? && 2 <= FrameEnd(st.pending, ByteEnds).value <= |st.pending|
    ensures
      var end := FrameEnd(st.pending, ByteEnds).value;
      var frame, rest := st.pending[..end], st.pending[end..];
      && Frames(all, ByteEnds) == handled + [frame] + Frames(rest, ByteEnds)
      && Rest(all, ByteEnds) == Rest(rest, ByteEnds)
      && RunFrames(read, before.life, handled + [frame]) == NextLife(read, st)
  {
    var end := FrameEnd(st.pending, ByteEnds).value;
    Sequences.Associate(handled, [st.pending[..end]], Frames(st.pending[end..], ByteEnds));
    RunFramesSnoc(read, before.life, handled, st.pending[..end]);
  }

  /** A frame refused decides that the chunk is. */
  lemma RefusedFrame(read: Reader, before: State, all: seq<byte>, handled: seq<seq<byte>>, st: State, out: seq<byte>)
    requires Handled(read, before, all, handled, st, out)
    requires FrameEnd(st.pending, ByteEnds).Some? && 2 <= FrameEnd(st.pending, ByteEnds).value <= |st.pending|
    requires NextLife(read, st).None?
    ensures RunFrames(read, before.life, Frames(all, ByteEnds)).None?
  {
    var end := FrameEnd(st.pending, ByteEnds).value;
    SplitFrame(read, before, all, handled, st, out);
    RunFramesConcat(read, before.life, handled + [st.pending[..end]], Frames(st.pending[end..], ByteEnds));
  }

  lemma FailureFrame(read: Reader, before: State, all: seq<byte>, handled: seq<seq<byte>>, st: State, out: seq<byte>)
    requires Handled(read, before, all, handled, st, out)
    requires FrameEnd(st.pending, ByteEnds).Some? && 2 <= FrameEnd(st.pending, ByteEnds).value <= |st.pending|
    requires NextLife(read, st).Some? && NextLife(read, st).value.phase == Failed
    ensures
      var end := FrameEnd(st.pending, ByteEnds).value;
      var frame, rest := st.pending[..end], st.pending[end..];
      var run := RunFrames(read, before.life, Frames(all, ByteEnds));
      && Frames(all, ByteEnds) != []
      && (rest != [] ==> run.None? || (run.value.phase == Failed && Rest(all, ByteEnds) != []))
      && (rest == [] ==>
            && run == NextLife(read, st) && Rest(all, ByteEnds) == []
            && out + frame == Released(run.value, Frames(all, ByteEnds))
            && !Withheld(run.value, Frames(all, ByteEnds)) && st.stop == before.stop)
  {
    var end := FrameEnd(st.pending, ByteEnds).value;
    var frame, rest := st.pending[..end], st.pending[end..];
    SplitFrame(read, before, all, handled, st, out);
    AfterFailure(read, NextLife(read, st).value, rest);
    StopIsOld(read, before, all, handled, st, out);
    if rest == [] {
      FailedLast(Frames(all, ByteEnds), handled, frame, Frames(rest, ByteEnds), st.life, NextLife(read, st).value);
    } else {
      RunFramesConcat(read, before.life, handled + [frame], Frames(rest, ByteEnds));
    }
  }

  lemma FailedLast(all: seq<seq<byte>>, handled: seq<seq<byte>>, frame: seq<byte>, rest: seq<seq<byte>>, l: Life, l': Life)
    requires all == handled + [frame] + rest && rest == [] && l.phase != Complete && l'.phase == Failed
    ensures all == handled + [frame]
    ensures Released(l, handled) + frame == Released(l', all) && !Withheld(l', all)
  {
    Sequences.ConcatEmpty(handled + [frame]);
    ReleasedSnoc(l, l', handled, frame);
  }

  lemma NextFrame(read: Reader, before: State, all: seq<byte>, handled: seq<seq<byte>>, st: State, out: seq<byte>)
    requires Handled(read, before, all, handled, st, out)
    requires FrameEnd(st.pending, ByteEnds).Some? && 2 <= FrameEnd(st.pending, ByteEnds).value <= |st.pending|
    requires NextLife(read, st).Some? && NextLife(read, st).value.phase != Failed
    ensures
      var end := FrameEnd(st.pending, ByteEnds).value;
      var frame, l := st.pending[..end], NextLife(read, st).value;
      var stops := l.phase == Complete;
      Handled(read, before, all, handled + [frame],
              State(st.pending[end..], l, if stops then Some(frame) else st.stop), if stops then out else out + frame)
  {
    var end := FrameEnd(st.pending, ByteEnds).value;
    var frame, l := st.pending[..end], NextLife(read, st).value;
    SplitFrame(read, before, all, handled, st, out);
    StopIsOld(read, before, all, handled, st, out);
    OneMoreHandled(read, before, all, handled, st.life, out, frame,
                   State(st.pending[end..], l, if l.phase == Complete then Some(frame) else before.stop));
  }

  lemma StopIsOld(read: Reader, before: State, all: seq<byte>, handled: seq<seq<byte>>, st: State, out: seq<byte>)
    requires Handled(read, before, all, handled, st, out)
    requires FrameEnd(st.pending, ByteEnds).Some? && FrameEnd(st.pending, ByteEnds).value <= |st.pending|
    requires NextLife(read, st).Some?
    ensures st.life.phase != Complete && st.stop == before.stop && out == Released(st.life, handled)
  {
  }

  lemma OneMoreHandled(read: Reader, before: State, all: seq<byte>, handled: seq<seq<byte>>, l: Life, out: seq<byte>,
                       frame: seq<byte>, next: State)
    requires Frames(all, ByteEnds) == handled + [frame] + Frames(next.pending, ByteEnds)
    requires Rest(all, ByteEnds) == Rest(next.pending, ByteEnds)
    requires RunFrames(read, before.life, handled + [frame]) == Some(next.life) && next.life.phase != Failed
    requires l.phase != Complete && out == Released(l, handled)
    requires next.stop == if next.life.phase == Complete then Some(frame) else before.stop
    ensures Handled(read, before, all, handled + [frame], next, if next.life.phase == Complete then out else out + frame)
  {
    Sequences.Snoc(handled, frame);
    ReleasedSnoc(l, next.life, handled, frame);
  }

  lemma RunFramesSnoc(read: Reader, l: Life, frames: seq<seq<byte>>, frame: seq<byte>)
    requires RunFrames(read, l, frames).Some?
    ensures
      RunFrames(read, l, frames + [frame])
      == if read(frame).None? then None else Advance(RunFrames(read, l, frames).value, read(frame).value)
  {
    assert (frames + [frame])[..|frames|] == frames;
    if read(frame).Some? {
      RunSnoc(l, FrameEvents(read, frames).value, read(frame).value);
    }
  }

  lemma ReleasedSnoc(l: Life, l': Life, frames: seq<seq<byte>>, frame: seq<byte>)
    requires l.phase != Complete
    ensures Released(l', frames + [frame]) == if l'.phase == Complete then Released(l, frames) else Released(l, frames) + frame
    ensures Withheld(l', frames + [frame]) <==> l'.phase == Complete
  {
    LastFrame(frames + [frame]);
    Sequences.Snoc(frames, frame);
  }

  lemma AfterFailure(read: Reader, l: Life, rest: seq<byte>)
    requires l.phase == Failed
    ensures
      if rest == [] then Frames(rest, ByteEnds) == [] && Rest(rest, ByteEnds) == []
      else RunFrames(read, l, Frames(rest, ByteEnds)).None? || (Frames(rest, ByteEnds) == [] && Rest(rest, ByteEnds) != [])
  {
    NothingDropped(rest, ByteEnds);
    if RunFrames(read, l, Frames(rest, ByteEnds)).Some? {
      TerminalEndsIt(l, FrameEvents(read, Frames(rest, ByteEnds)).value);
      NoFramesNoEvents(read, Frames(rest, ByteEnds));
    }
  }

  lemma FlattenOne(frame: seq<byte>)
    ensures Flatten([frame]) == frame
  {
    assert [frame][1..] == [];
    assert frame + [] == frame;
  }
}
