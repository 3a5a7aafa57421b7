/** What the rewriter leaves alone: all that is around the blocks comes through in its place. */
module DsmlPasses {
  import opened Wrappers
  import Sequences
  import opened MessageStream
  import opened DsmlText
  import opened DsmlRewriter

  predicate OfBlock(e: Event) {
    e.BlockStart? || e.BlockDelta? || e.BlockStop?
  }

  /** The events around the blocks, up to the reason for stopping. */
  function Around(es: seq<Event>): seq<Event> {
    if es == [] then []
    else
      var last := es[|es| - 1];
      Around(es[..|es| - 1])
      + (if OfBlock(last) then [] else if last.MessageDelta? then [last.(stopReason := None)] else [last])
  }

  lemma {:induction false} AroundConcat(a: seq<Event>, b: seq<Event>)
    ensures Around(a + b) == Around(a) + Around(b)
  {
    if b == [] {
      Sequences.ConcatEmpty(a);
      Sequences.ConcatEmpty(Around(a));
    } else {
      AroundConcat(a, b[..|b| - 1]);
      Sequences.ConcatLast(a, b);
    }
  }

  ghost predicate OnlyBlocks(es: seq<Event>) {
    forall e | e in es :: OfBlock(e)
  }

  lemma {:induction false} NothingAround(es: seq<Event>)
    requires OnlyBlocks(es)
    ensures Around(es) == []
  {
    if es != [] {
      NothingAround(es[..|es| - 1]);
      assert OfBlock(es[|es| - 1]);
    }
  }

  lemma {:induction false} CallsAreBlocks(c: Config, st: Rewriter, calls: seq<Call>, n: nat)
    requires n <= |calls|
    ensures OnlyBlocks(MakeCalls(c, st, calls, n).1)
  {
    if n > 0 {
      CallsAreBlocks(c, st, calls, n - 1);
    }
  }

  lemma RegionIsBlocks(c: Config, st: Rewriter, region: string)
    ensures OnlyBlocks(Resolve(c, st, region).out)
  {
    if c.parse(region) != [] {
      CallsAreBlocks(c, st, c.parse(region), |c.parse(region)|);
    }
  }

  lemma {:induction false} PassingIsBlocks(c: Config, st: Rewriter)
    ensures OnlyBlocks(PassScan(c, st).out)
    decreases 2 * |st.scan| + 1
  {
    if FindOpen(st.scan).Some? {
      CapturingIsBlocks(c, Captured(st).st);
    }
  }

  lemma {:induction false} CapturingIsBlocks(c: Config, st: Rewriter)
    ensures OnlyBlocks(CaptureScan(c, st).out)
    decreases 2 * |st.cap|
  {
    match FindWrapper(st.cap, 0)
    case Some(found) =>
      var region := st.cap[found.start..found.end];
      RegionIsBlocks(c, st, region);
      var rest := st.cap[found.end..];
      if rest != "" {
        PassingIsBlocks(c, Resolve(c, st, region).st.(cap := "", mode := Pass, curOut := None, scan := rest));
      }
    case None =>
  }

  lemma TextPasses(c: Config, st: Rewriter, index: nat, text: string)
    requires st.curIsText
    ensures Around(OnEvent(c, st, BlockDelta(index, TextDelta(text))).out) == []
  {
    PassingIsBlocks(c, st.(scan := st.scan + text));
    CapturingIsBlocks(c, st.(cap := st.cap + text));
    NothingAround(OnText(c, st, text).out);
  }

  lemma FlushIsBlocks(st: Rewriter)
    ensures OnlyBlocks(FlushPending(st).out) && OnlyBlocks(OnBlockStop(st).out)
  {
  }

  lemma EndPasses(st: Rewriter, e: Event)
    ensures Around(FlushPending(st).out + [e]) == Around([e])
  {
    FlushIsBlocks(st);
    NothingAround(FlushPending(st).out);
    AroundConcat(FlushPending(st).out, [e]);
  }

  lemma AroundOne(e: Event)
    ensures Around([e]) == if OfBlock(e) then [] else if e.MessageDelta? then [e.(stopReason := None)] else [e]
  {
    assert [e][..0] == [];
  }

  lemma BlockPasses(c: Config, st: Rewriter, e: Event)
    requires OfBlock(e)
    ensures Around(OnEvent(c, st, e).out) == []
  {
    if e.BlockDelta? && st.curIsText && e.delta.TextDelta? {
      TextPasses(c, st, e.index, e.delta.text);
    } else {
      FlushIsBlocks(st);
      NothingAround(OnEvent(c, st, e).out);
    }
  }

  lemma DeltaPasses(c: Config, st: Rewriter, e: Event)
    requires e.MessageDelta?
    ensures Around(OnEvent(c, st, e).out) == [e.(stopReason := None)]
  {
    var flushed := FlushPending(st);
    var said := MessageDelta(FinalStopReason(flushed.st, e.stopReason), e.inputTokens, e.outputTokens);
    EndPasses(st, said);
    AroundOne(said);
  }

  lemma EventPasses(c: Config, st: Rewriter, e: Event)
    ensures Around(OnEvent(c, st, e).out) == Around([e])
  {
    AroundOne(e);
    if OfBlock(e) {
      BlockPasses(c, st, e);
    } else if e.MessageDelta? {
      DeltaPasses(c, st, e);
    } else if e.MessageStop? {
      EndPasses(st, e);
    }
  }

  /** The start, pings, errors, token counts and the end come through, in their order and no more often. */
  lemma {:induction false} AroundPasses(c: Config, st: Rewriter, es: seq<Event>)
    ensures Around(OnEvents(c, st, es).out) == Around(es)
  {
    if es != [] {
      var front, last := es[..|es| - 1], es[|es| - 1];
      AroundPasses(c, st, front);
      var before := OnEvents(c, st, front);
      EventPasses(c, before.st, last);
      AroundConcat(before.out, OnEvent(c, before.st, last).out);
      AroundConcat(front, [last]);
      Sequences.Unsnoc(es);
    }
  }
}
