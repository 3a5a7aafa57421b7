/** What the filter leaves alone: all that is around the blocks comes through in its place. */
module KimiPasses {
  import opened Wrappers
  import Sequences
  import opened MessageStream
  import opened KimiFilter

  predicate OfBlock(f: Frame) {
    f.Readable? && (f.event.BlockStart? || f.event.BlockDelta? || f.event.BlockStop?)
  }

  /** The frames around the blocks: events of the message, pings, errors, comments, and what is not known. */
  function Around(frames: seq<Frame>): seq<Frame> {
    if frames == [] then []
    else Around(frames[..|frames| - 1]) + (if OfBlock(frames[|frames| - 1]) then [] else [frames[|frames| - 1]])
  }

  function Bare(frames: seq<Sized>): seq<Frame> {
    seq(|frames|, i requires 0 <= i < |frames| => frames[i].frame)
  }

  lemma {:induction false} AroundConcat(a: seq<Frame>, b: seq<Frame>)
    ensures Around(a + b) == Around(a) + Around(b)
  {
    if b == [] {
      Sequences.ConcatEmpty(a);
      Sequences.ConcatEmpty(Around(a));
    } else {
      AroundConcat(a, b[..|b| - 1]);
      Sequences.ConcatLast(a, b);
    }
  }

  lemma AroundOne(f: Frame)
    ensures Around([f]) == if OfBlock(f) then [] else [f]
  {
    assert [f][..0] == [];
  }

  predicate PingOrBlock(e: Event) {
    e.Ping? || OfBlock(Readable(e))
  }

  /** What a buffered block owes: its pings. */
  function Owed(f: Filter): seq<Frame> {
    if f.thinking.None? then [] else Frames(PingsOf(f.thinking.value.frames))
  }

  ghost predicate Buffers(f: Filter) {
    f.thinking.Some? ==> forall e | e in f.thinking.value.frames :: PingOrBlock(e)
  }

  lemma FramesConcat(a: seq<Event>, b: seq<Event>)
    ensures Frames(a + b) == Frames(a) + Frames(b)
  {
  }

  lemma PingsSnoc(es: seq<Event>, e: Event)
    ensures Frames(PingsOf(es + [e])) == Frames(PingsOf(es)) + (if e.Ping? then [Readable(e)] else [])
  {
    Sequences.Snoc(es, e);
    if e.Ping? {
      FramesConcat(PingsOf(es), [e]);
      assert Frames([e]) == [Readable(e)];
    } else {
      Sequences.ConcatEmpty(PingsOf(es));
      Sequences.ConcatEmpty(Frames(PingsOf(es)));
    }
  }

  lemma {:induction false} PingsAreAround(es: seq<Event>)
    ensures Around(Frames(PingsOf(es))) == Frames(PingsOf(es))
  {
    if es != [] {
      var front, last := es[..|es| - 1], es[|es| - 1];
      PingsAreAround(front);
      PingsSnoc(front, last);
      Sequences.Unsnoc(es);
      if last.Ping? {
        AroundConcat(Frames(PingsOf(front)), [Readable(last)]);
        AroundOne(Readable(last));
      } else {
        Sequences.ConcatEmpty(Frames(PingsOf(front)));
      }
    }
  }

  lemma OneReindexed(e: Event, index: nat)
    requires PingOrBlock(e)
    ensures Around([Readable(AtIndex(e, index))]) == if e.Ping? then [Readable(e)] else []
  {
    AroundOne(Readable(AtIndex(e, index)));
  }

  lemma ReindexedSnoc(es: seq<Event>, e: Event, index: nat)
    ensures Frames(Reindexed(es + [e], index)) == Frames(Reindexed(es, index)) + [Readable(AtIndex(e, index))]
  {
  }

  /** Numbered again, a block's frames have the same pings between them. */
  lemma {:induction false} ReindexedAround(es: seq<Event>, index: nat)
    requires forall e | e in es :: PingOrBlock(e)
    ensures Around(Frames(Reindexed(es, index))) == Frames(PingsOf(es))
  {
    if es != [] {
      var front, last := es[..|es| - 1], es[|es| - 1];
      assert last in es;
      ReindexedAround(front, index);
      ReindexedNext(front, last, index);
      Sequences.Unsnoc(es);
    }
  }

  lemma ReindexedNext(front: seq<Event>, last: Event, index: nat)
    requires Around(Frames(Reindexed(front, index))) == Frames(PingsOf(front)) && PingOrBlock(last)
    ensures Around(Frames(Reindexed(front + [last], index))) == Frames(PingsOf(front + [last]))
  {
    ReindexedSnoc(front, last, index);
    PingsSnoc(front, last);
    AroundConcat(Frames(Reindexed(front, index)), [Readable(AtIndex(last, index))]);
    OneReindexed(last, index);
  }

  /** What has come through and what is owed, after one more frame. */
  ghost predicate Passes(f: Filter, s: Sized, p: Passed) {
    && Buffers(p.filter)
    && Owed(f) + Around([s.frame]) == Around(p.out) + Owed(p.filter)
  }

  lemma StartPasses(blank: Blank, f: Filter, s: Sized)
    requires f.thinking.None? && s.frame.Readable? && s.frame.event.BlockStart?
    requires AtStart(blank, f, s.frame.event, s.bytes).Ok?
    ensures Passes(f, s, AtStart(blank, f, s.frame.event, s.bytes).value)
  {
    var e := s.frame.event;
    var p := AtStart(blank, f, e, s.bytes).value;
    AroundOne(s.frame);
    PingsSnoc([], e);
    assert [] + [e] == [e];
    if p.out != [] {
      AroundOne(p.out[0]);
      assert p.out == [p.out[0]];
    }
  }

  lemma BlockPasses(f: Filter, s: Sized)
    requires f.thinking.None? && f.active.Some? && s.frame.Readable? && InBlock(f, f.active.value, s.frame.event).Ok?
    ensures Passes(f, s, InBlock(f, f.active.value, s.frame.event).value)
  {
    var p := InBlock(f, f.active.value, s.frame.event).value;
    AroundOne(s.frame);
    AroundOne(p.out[0]);
    assert p.out == [p.out[0]];
  }

  /** A frame is buffered, or it ends the block. */
  lemma InThinkingKeeps(blank: Blank, f: Filter, t: Buffered, e: Event, bytes: nat)
    requires f.thinking == Some(t) && !e.Failure? && InThinking(blank, f, t, e, bytes).Ok?
    ensures PingOrBlock(e)
    ensures
      var p := InThinking(blank, f, t, e, bytes).value;
      if e.BlockStop? then p.filter.thinking.None? && (p.out == Frames(PingsOf(t.frames + [e]))
                                                       || p.out == Frames(Reindexed(t.frames + [e], f.nextOutput)))
      else p.out == [] && p.filter.thinking.Some? && p.filter.thinking.value.frames == t.frames + [e]
  {
  }

  lemma AllPingOrBlock(es: seq<Event>, e: Event)
    requires (forall x | x in es :: PingOrBlock(x)) && PingOrBlock(e)
    ensures forall x | x in es + [e] :: PingOrBlock(x)
  {
  }

  lemma ThinkingPasses(blank: Blank, f: Filter, s: Sized)
    requires Buffers(f) && f.thinking.Some? && s.frame.Readable? && !s.frame.event.Failure?
    requires InThinking(blank, f, f.thinking.value, s.frame.event, s.bytes).Ok?
    ensures Passes(f, s, InThinking(blank, f, f.thinking.value, s.frame.event, s.bytes).value)
  {
    var t, e := f.thinking.value, s.frame.event;
    var p := InThinking(blank, f, t, e, s.bytes).value;
    InThinkingKeeps(blank, f, t, e, s.bytes);
    AllPingOrBlock(t.frames, e);
    KeptPasses(f, t, s, e, p);
  }

  lemma KeptPasses(f: Filter, t: Buffered, s: Sized, e: Event, p: Passed)
    requires f.thinking == Some(t) && s.frame == Readable(e) && forall x | x in t.frames + [e] :: PingOrBlock(x)
    requires
      if e.BlockStop? then p.filter.thinking.None? && (p.out == Frames(PingsOf(t.frames + [e]))
                                                       || p.out == Frames(Reindexed(t.frames + [e], f.nextOutput)))
      else p.out == [] && p.filter.thinking.Some? && p.filter.thinking.value.frames == t.frames + [e]
    ensures Passes(f, s, p)
  {
    assert e in t.frames + [e];
    AroundOne(s.frame);
    PingsSnoc(t.frames, e);
    Sequences.ConcatEmpty(Owed(f));
    Sequences.ConcatEmpty(Owed(p.filter));
    if e.BlockStop? {
      PingsAreAround(t.frames + [e]);
      ReindexedAround(t.frames + [e], f.nextOutput);
      Sequences.ConcatEmpty(Around(p.out));
    }
  }

  lemma FramePasses(blank: Blank, f: Filter, s: Sized)
    requires Buffers(f) && s.frame != Mismatched && !(s.frame.Readable? && s.frame.event.Failure?)
    requires OnFrame(blank, f, s).Ok?
    ensures Passes(f, s, OnFrame(blank, f, s).value)
  {
    if s.frame.Readable? && f.thinking.Some? {
      ThinkingPasses(blank, f, s);
    } else if s.frame.Readable? && f.active.Some? {
      BlockPasses(f, s);
    } else if s.frame.Readable? && s.frame.event.BlockStart? {
      StartPasses(blank, f, s);
    } else {
      Sequences.ConcatEmpty(Around([s.frame]));
    }
  }

  predicate Errs(s: Sized) {
    s.frame.Readable? && s.frame.event.Failure?
  }

  lemma Regroup(a: seq<Frame>, b: seq<Frame>, c: seq<Frame>, d: seq<Frame>, e: seq<Frame>)
    requires b + c == d + e
    ensures (a + b) + c == (a + d) + e
  {
    Sequences.Associate(a, b, c);
    Sequences.Associate(a, d, e);
  }

  lemma NextPasses(bare: seq<Frame>, before: Passed, last: Sized, now: Passed)
    requires Around(bare) == Around(before.out) + Owed(before.filter) && Passes(before.filter, last, now)
    ensures Around(bare + [last.frame]) == Around(before.out + now.out) + Owed(now.filter)
  {
    AroundConcat(bare, [last.frame]);
    AroundConcat(before.out, now.out);
    Regroup(Around(before.out), Owed(before.filter), Around([last.frame]), Around(now.out), Owed(now.filter));
  }

  ghost predicate NoErrors(frames: seq<Sized>) {
    forall i | 0 <= i < |frames| :: !Errs(frames[i])
  }

  lemma RunNext(blank: Blank, f: Filter, frames: seq<Sized>, front: seq<Sized>, last: Sized)
    requires frames == front + [last] && OnFrames(blank, f, frames).Ok?
    ensures OnFrames(blank, f, front).Ok? && OnFrame(blank, OnFrames(blank, f, front).value.filter, last).Ok?
    ensures
      var before := OnFrames(blank, f, front).value;
      var now := OnFrame(blank, before.filter, last).value;
      OnFrames(blank, f, frames).value == Passed(now.filter, before.out + now.out)
  {
    Sequences.Snoc(front, last);
  }

  lemma BareNext(front: seq<Sized>, last: Sized)
    ensures Bare(front + [last]) == Bare(front) + [last.frame]
  {
  }

  lemma MismatchedIsRefused(blank: Blank, f: Filter, s: Sized)
    requires OnFrame(blank, f, s).Ok?
    ensures s.frame != Mismatched
  {
  }

  /**
    Of a stream without errors all frames around the blocks come through, in their order and no more often; those in a
    block that is still buffered are pings, and follow it.
   */
  lemma {:induction false} AroundPasses(blank: Blank, frames: seq<Sized>)
    requires OnFrames(blank, Idle, frames).Ok? && NoErrors(frames)
    ensures
      var p := OnFrames(blank, Idle, frames).value;
      Buffers(p.filter) && Around(Bare(frames)) == Around(p.out) + Owed(p.filter)
  {
    if frames != [] {
      var front, last := frames[..|frames| - 1], frames[|frames| - 1];
      Sequences.Unsnoc(frames);
      RunNext(blank, Idle, frames, front, last);
      BareNext(front, last);
      AroundPasses(blank, front);
      var before := OnFrames(blank, Idle, front).value;
      MismatchedIsRefused(blank, before.filter, last);
      FramePasses(blank, before.filter, last);
      NextPasses(Bare(front), before, last, OnFrame(blank, before.filter, last).value);
    }
  }

  /** An error is passed on at once wherever it comes, and leaves no block open. */
  lemma ErrorsPass(blank: Blank, f: Filter, s: Sized)
    requires Errs(s) && !(f.thinking.Some? && f.active.Some?)
    ensures OnFrame(blank, f, s).Ok? && OnFrame(blank, f, s).value.out == [s.frame] && MayEnd(OnFrame(blank, f, s).value.filter)
  {
  }
}
