/**
  The rewritten stream keeps the lifecycle: contiguous indexes, one open block at a time, the same ending.

  The lemmas follow the scan: saying text opens a block or continues the open one, a wrapper closes it and emits a
  complete block for each call, and the end of an upstream block closes what is still open. Where the output stands
  is a function of the rewriter's state.
 */
module DsmlLifecycle {
  import opened Wrappers
  import opened MessageStream
  import opened DsmlText
  import opened DsmlRewriter
  import opened DsmlRefinement
  import opened DsmlStream
  import opened DsmlMessage

  // ---------- The rewriter's counters as a lifecycle ----------

  predicate Indexed(st: Rewriter) {
    st.curOut.Some? ==> st.nextOut == st.curOut.value + 1
  }

  function LifeOf(st: Rewriter): Life
    requires Indexed(st)
  {
    Life(Streaming, st.curOut, if st.curOut.Some? then st.curOut.value else st.nextOut)
  }

  /** While a message streams, what a step emits moves the lifecycle along with the counters. */
  ghost predicate Follows(st: Rewriter, s: Step)
    requires Indexed(st)
  {
    && Indexed(s.st)
    && st.nextOut <= s.st.nextOut
    && (s.st.nextOut <= MAX_INDEX ==> Run(LifeOf(st), s.out) == Some(LifeOf(s.st)))
  }

  lemma AfterFollows(st: Rewriter, first: Step, second: Step)
    requires Indexed(st) && Follows(st, first) && Follows(first.st, second)
    ensures Follows(st, After(first, second))
  {
    RunConcat(LifeOf(st), first.out, second.out);
  }

  lemma RunOne(l: Life, e: Event)
    ensures Run(l, [e]) == Advance(l, e)
  {
    assert [e][..0] == [];
  }

  lemma SayFollows(st: Rewriter, text: string)
    requires Indexed(st)
    ensures Follows(st, Say(st, text)) && Say(st, text).st.curOut.Some?
  {
    match st.curOut
    case Some(index) =>
      RunOne(LifeOf(st), BlockDelta(index, TextDelta(text)));
    case None =>
      var start, delta := BlockStart(st.nextOut, TextHead("")), BlockDelta(st.nextOut, TextDelta(text));
      RunOne(LifeOf(st), start);
      assert [start] + [delta] == [start, delta];
      RunSnoc(LifeOf(st), [start], delta);
  }

  lemma CloseFollows(st: Rewriter)
    requires Indexed(st)
    ensures Follows(st, CloseCurrent(st)) && CloseCurrent(st).st == st.(curOut := None)
  {
    if st.curOut.Some? {
      RunOne(LifeOf(st), BlockStop(st.curOut.value));
    }
  }

  lemma SayBlockFollows(st: Rewriter, text: string)
    requires Indexed(st)
    ensures Follows(st, SayBlock(st, text)) && SayBlock(st, text).st.curOut.None?
  {
    var said := Say(st, text);
    SayFollows(st, text);
    CloseFollows(said.st);
    AfterFollows(st, said, CloseCurrent(said.st));
  }

  function Between(next: nat): Life {
    Life(Streaming, None, next)
  }

  lemma CallFollows(c: Config, st: Rewriter, call: Call)
    requires st.nextOut < MAX_INDEX
    ensures Run(Between(st.nextOut), CallEvents(c, st, call)) == Some(Between(st.nextOut + 1))
  {
    var es, l := CallEvents(c, st, call), Between(st.nextOut);
    RunOne(l, es[0]);
    assert es[..2] == [es[0]] + [es[1]];
    RunSnoc(l, [es[0]], es[1]);
    assert es == es[..2] + [es[2]];
    RunSnoc(l, es[..2], es[2]);
  }

  lemma {:induction false} CallsFollow(c: Config, st: Rewriter, calls: seq<Call>, n: nat)
    requires n <= |calls| && st.nextOut + n <= MAX_INDEX
    ensures Run(Between(st.nextOut), MakeCalls(c, st, calls, n).1) == Some(Between(st.nextOut + n))
  {
    if n > 0 {
      var (before, out) := MakeCalls(c, st, calls, n - 1);
      MakeCallsKeeps(c, st, calls, n - 1);
      CallsFollow(c, st, calls, n - 1);
      CallFollows(c, before, calls[n - 1]);
      RunConcat(Between(st.nextOut), out, CallEvents(c, before, calls[n - 1]));
    }
  }

  lemma ResolveFollows(c: Config, st: Rewriter, region: string)
    requires st.curOut.None?
    ensures Follows(st, Resolve(c, st, region)) && Resolve(c, st, region).st.curOut.None?
  {
    var calls := c.parse(region);
    if calls == [] {
      SayBlockFollows(st, region);
    } else {
      MakeCallsKeeps(c, st, calls, |calls|);
      if st.nextOut + |calls| <= MAX_INDEX {
        CallsFollow(c, st, calls, |calls|);
      }
    }
  }

  /** Changing the buffers does not show. */
  lemma SameFollows(st: Rewriter, s: Step, st': Rewriter, s': Step)
    requires Indexed(st) && Follows(st, s)
    requires st'.curOut == st.curOut && st'.nextOut == st.nextOut
    requires s'.st.curOut == s.st.curOut && s'.st.nextOut == s.st.nextOut && s'.out == s.out
    ensures Follows(st', s')
  {
  }

  lemma QuietFollows(st: Rewriter)
    requires Indexed(st)
    ensures Follows(st, Step(st, [], []))
  {
  }

  lemma {:induction false} PassFollows(c: Config, st: Rewriter)
    requires Indexed(st) && st.mode == Pass
    ensures var s := PassScan(c, st); Follows(st, s) && (s.st.mode == Capture ==> s.st.curOut.None?)
    decreases 2 * |st.scan| + 1
  {
    match FindOpen(st.scan)
    case Some(_) =>
      var begun := Captured(st);
      CapturedFollows(st);
      CaptureFollows(c, begun.st);
      AfterFollows(st, begun, CaptureScan(c, begun.st));
    case None =>
      var split := |st.scan| - (MAX_OPEN - 1);
      if split > 0 {
        SayFollows(st.(scan := st.scan[split..]), st.scan[..split]);
      } else {
        QuietFollows(st);
      }
  }

  lemma CapturedFollows(st: Rewriter)
    requires Indexed(st) && FindOpen(st.scan).Some?
    ensures
      var begun := Captured(st);
      Follows(st, begun) && begun.st.curOut.None? && begun.st.mode == Capture && |begun.st.cap| <= |st.scan|
  {
    var before := st.scan[..FindOpen(st.scan).value.start];
    var said := if before == "" then Step(st, [], []) else Say(st, before);
    if before == "" {
      QuietFollows(st);
    } else {
      SayFollows(st, before);
    }
    CloseFollows(said.st);
    AfterFollows(st, said, CloseCurrent(said.st));
    SameFollows(st, After(said, CloseCurrent(said.st)), st, Captured(st));
  }

  lemma {:induction false} CaptureFollows(c: Config, st: Rewriter)
    requires st.curOut.None? && st.mode == Capture
    ensures var s := CaptureScan(c, st); Follows(st, s) && (s.st.mode == Capture ==> s.st.curOut.None?)
    decreases 2 * |st.cap|
  {
    match FindWrapper(st.cap, 0)
    case Some(w) =>
      var region, rest := st.cap[w.start..w.end], st.cap[w.end..];
      var resolved := Resolve(c, st, region);
      ResolveFollows(c, st, region);
      var passing := resolved.st.(cap := "", mode := Pass, curOut := None);
      if rest == "" {
        SameFollows(st, resolved, st, resolved.(st := passing));
      } else {
        var next := passing.(scan := rest);
        PassFollows(c, next);
        SameFollows(st, resolved, st, resolved.(st := next));
        AfterFollows(st, resolved.(st := next), PassScan(c, next));
      }
    case None =>
      OverflowFollows(c, st);
  }

  lemma OverflowFollows(c: Config, st: Rewriter)
    requires st.curOut.None? && st.mode == Capture && FindWrapper(st.cap, 0).None?
    ensures var s := CaptureScan(c, st); Follows(st, s) && s.st.curOut.None?
  {
    QuietFollows(st);
    SayBlockFollows(st.(cap := ""), st.cap);
    var said := SayBlock(st.(cap := ""), st.cap);
    SameFollows(st.(cap := ""), said, st, said.(st := said.st.(mode := Pass)));
  }

  lemma StopFollows(st: Rewriter)
    requires Indexed(st) && (st.mode == Capture ==> st.curOut.None?)
    ensures var s := OnBlockStop(st); Follows(st, s) && s.st.curOut.None? && s.st.mode == Pass
  {
    QuietFollows(st);
    SayBlockFollows(st.(cap := ""), st.cap);
    SayFollows(st.(scan := ""), st.scan);
    var emptied :=
      if st.mode == Capture then
        var said := if st.cap == "" then Step(st, [], []) else SayBlock(st.(cap := ""), st.cap);
        said.(st := said.st.(mode := Pass))
      else if st.scan != "" && st.curOut.Some? then Say(st.(scan := ""), st.scan)
      else Step(st, [], []);
    assert Follows(st, emptied);
    CloseFollows(emptied.st);
    AfterFollows(st, emptied, CloseCurrent(emptied.st));
  }

  lemma FlushFollows(st: Rewriter)
    requires Indexed(st) && st.mode == Pass
    ensures
      var s := FlushPending(st);
      Follows(st, s) && s.st.curOut.None? && s.st.mode == Pass && s.st.scan == ""
  {
    QuietFollows(st);
    SayFollows(st.(scan := ""), st.scan);
    var emptied := if st.scan != "" then Say(st.(scan := ""), st.scan) else Step(st, [], []);
    CloseFollows(emptied.st);
    AfterFollows(st, emptied, CloseCurrent(emptied.st));
  }

  // ---------- Whole streams ----------

  /** Text blocks carry text deltas only. */
  ghost predicate TextOnly(blocks: seq<Block>) {
    forall b, d | b in blocks && d in b.deltas && b.head.TextHead? :: d.TextDelta?
  }

  /** The lifecycle of the input, the rewriter, and the lifecycle of the output. */
  ghost predicate Aligned(i: Life, blocks: seq<Block>, st: Rewriter, o: Life) {
    && Indexed(st)
    && o == LifeOf(st).(phase := i.phase)
    && (st.mode == Capture ==> st.curOut.None?)
    && (i.open.Some? ==> blocks != [] && st.curIsText == blocks[|blocks| - 1].head.TextHead?)
    && (i.open.Some? && !st.curIsText ==> st.curOut.Some? && st.mode == Pass)
    && (i.open.None? ==> st.curOut.None? && st.mode == Pass)
    && (i.phase in {AwaitMessageStart, AfterMessageDelta, Complete} ==> i.open.None? && st.scan == "")
  }

  lemma {:induction false} CurIsTextKept(c: Config, st: Rewriter)
    requires st.curIsText
    ensures PassScan(c, st).st.curIsText
    decreases 2 * |st.scan| + 1
  {
    match FindOpen(st.scan)
    case None =>
    case Some(_) =>
      CurIsTextCaptured(c, Captured(st).st);
  }

  lemma {:induction false} CurIsTextCaptured(c: Config, st: Rewriter)
    requires st.curIsText
    ensures CaptureScan(c, st).st.curIsText
    decreases 2 * |st.cap|
  {
    match FindWrapper(st.cap, 0)
    case None =>
    case Some(w) =>
      var region := st.cap[w.start..w.end];
      MakeCallsKeeps(c, st, c.parse(region), |c.parse(region)|);
      var rest := st.cap[w.end..];
      if rest != "" {
        CurIsTextKept(c, Resolve(c, st, region).st.(cap := "", mode := Pass, curOut := None, scan := rest));
      }
  }

  lemma TextAligned(c: Config, i: Life, blocks: seq<Block>, st: Rewriter, o: Life, text: string)
    requires Aligned(i, blocks, st, o) && i.phase == Streaming && i.open.Some? && st.curIsText
    requires OnText(c, st, text).st.nextOut <= MAX_INDEX
    ensures
      var s := OnText(c, st, text);
      && Run(o, s.out).Some? && Aligned(i, blocks, s.st, Run(o, s.out).value)
  {
    match st.mode
    case Pass =>
      PassFollows(c, st.(scan := st.scan + text));
      CurIsTextKept(c, st.(scan := st.scan + text));
    case Capture =>
      CaptureFollows(c, st.(cap := st.cap + text));
      CurIsTextCaptured(c, st.(cap := st.cap + text));
  }

  lemma StopAligned(i: Life, blocks: seq<Block>, st: Rewriter, o: Life)
    requires Aligned(i, blocks, st, o) && i.phase == Streaming && i.open.Some? && i.next < MAX_INDEX
    requires OnBlockStop(st).st.nextOut <= MAX_INDEX
    ensures
      var s := OnBlockStop(st);
      && Run(o, s.out).Some? && Aligned(i.(open := None, next := i.next + 1), blocks, s.st, Run(o, s.out).value)
  {
    StopFollows(st);
  }

  lemma EndAligned(c: Config, i: Life, blocks: seq<Block>, st: Rewriter, o: Life, e: Event)
    requires Aligned(i, blocks, st, o) && i.phase == Streaming && i.open.None? && e.MessageDelta?
    requires OnEvent(c, st, e).st.nextOut <= MAX_INDEX
    ensures
      var s := OnEvent(c, st, e);
      && Run(o, s.out).Some?
      && Aligned(i.(phase := AfterMessageDelta), blocks, s.st, Run(o, s.out).value)
  {
    var flushed := FlushPending(st);
    FlushFollows(st);
    var last := MessageDelta(FinalStopReason(flushed.st, e.stopReason), e.inputTokens, e.outputTokens);
    RunSnoc(o, flushed.out, last);
  }

  lemma StartAligned(c: Config, i: Life, blocks: seq<Block>, st: Rewriter, o: Life, e: Event)
    requires Aligned(i, blocks, st, o) && e.BlockStart? && Advance(i, e).Some?
    requires OnEvent(c, st, e).st.nextOut <= MAX_INDEX
    ensures
      var s := OnEvent(c, st, e);
      && Run(o, s.out).Some?
      && Aligned(Advance(i, e).value, blocks + [Block(e.head, [])], s.st, Run(o, s.out).value)
  {
    RunOne(o, BlockStart(st.nextOut, e.head));
  }

  lemma OtherDeltaAligned(c: Config, i: Life, m: Message, st: Rewriter, o: Life, e: Event)
    requires Aligned(i, m.blocks, st, o) && e.BlockDelta? && Advance(i, e).Some? && !st.curIsText
    ensures
      var s := OnEvent(c, st, e);
      && Run(o, s.out).Some?
      && Aligned(i, Observe(m, e).blocks, s.st, Run(o, s.out).value)
  {
    RunOne(o, BlockDelta(st.curOut.value, e.delta));
  }

  lemma PlainAligned(c: Config, i: Life, m: Message, st: Rewriter, o: Life, e: Event)
    requires Aligned(i, m.blocks, st, o) && Advance(i, e).Some?
    requires e.Ping? || e.MessageStart? || e.MessageStop? || e.Failure?
    ensures
      var s := OnEvent(c, st, e);
      && Run(o, s.out).Some?
      && Aligned(Advance(i, e).value, Observe(m, e).blocks, s.st, Run(o, s.out).value)
  {
    RunOne(o, e);
    if e.MessageStop? {
      NothingLeft(st);
    }
  }

  lemma EventAligned(c: Config, i: Life, m: Message, st: Rewriter, o: Life, e: Event)
    requires Aligned(i, m.blocks, st, o) && Advance(i, e).Some?
    requires TextOnly(Observe(m, e).blocks)
    requires OnEvent(c, st, e).st.nextOut <= MAX_INDEX
    ensures
      var s := OnEvent(c, st, e);
      && Run(o, s.out).Some?
      && Aligned(Advance(i, e).value, Observe(m, e).blocks, s.st, Run(o, s.out).value)
  {
    match e
    case BlockStart(_, _) =>
      StartAligned(c, i, m.blocks, st, o, e);
    case BlockDelta(_, delta) =>
      if st.curIsText {
        OnlyText(m, e);
        TextAligned(c, i, m.blocks, st, o, delta.text);
        TextAlignedLater(i, m, OnEvent(c, st, e).st, Run(o, OnEvent(c, st, e).out).value, e);
      } else {
        OtherDeltaAligned(c, i, m, st, o, e);
      }
    case BlockStop(_) =>
      StopAligned(i, m.blocks, st, o);
    case MessageDelta(_, _, _) =>
      EndAligned(c, i, m.blocks, st, o, e);
    case _ =>
      PlainAligned(c, i, m, st, o, e);
  }

  lemma OnlyText(m: Message, e: Event)
    requires e.BlockDelta? && m.blocks != [] && m.blocks[|m.blocks| - 1].head.TextHead?
    requires TextOnly(Observe(m, e).blocks)
    ensures e.delta.TextDelta?
  {
    var last := Observe(m, e).blocks[|m.blocks| - 1];
    assert last in Observe(m, e).blocks && last.deltas[|last.deltas| - 1] == e.delta;
    assert e.delta in last.deltas;
  }

  lemma TextAlignedLater(i: Life, m: Message, st: Rewriter, o: Life, e: Event)
    requires Aligned(i, m.blocks, st, o) && e.BlockDelta?
    ensures Aligned(i, Observe(m, e).blocks, st, o)
  {
  }

  lemma TextOnlyBefore(m: Message, e: Event)
    requires TextOnly(Observe(m, e).blocks)
    ensures TextOnly(m.blocks)
  {
    forall b, d | b in m.blocks && d in b.deltas && b.head.TextHead? ensures d.TextDelta? {
      var k :| 0 <= k < |m.blocks| && m.blocks[k] == b;
      var b' := Observe(m, e).blocks[k];
      assert b' in Observe(m, e).blocks && b'.head == b.head && d in b'.deltas;
    }
  }

  lemma {:induction false} MonotoneIndexes(c: Config, st: Rewriter)
    ensures PassScan(c, st).st.nextOut >= st.nextOut
    decreases 2 * |st.scan| + 1
  {
    match FindOpen(st.scan)
    case None =>
    case Some(_) =>
      MonotoneCaptured(c, Captured(st).st);
  }

  lemma {:induction false} MonotoneCaptured(c: Config, st: Rewriter)
    ensures CaptureScan(c, st).st.nextOut >= st.nextOut
    decreases 2 * |st.cap|
  {
    match FindWrapper(st.cap, 0)
    case None =>
    case Some(w) =>
      var region := st.cap[w.start..w.end];
      MakeCallsKeeps(c, st, c.parse(region), |c.parse(region)|);
      var rest := st.cap[w.end..];
      if rest != "" {
        MonotoneIndexes(c, Resolve(c, st, region).st.(cap := "", mode := Pass, curOut := None, scan := rest));
      }
  }

  lemma MonotoneEvent(c: Config, st: Rewriter, e: Event)
    ensures OnEvent(c, st, e).st.nextOut >= st.nextOut
  {
    if e.BlockDelta? && e.delta.TextDelta? {
      MonotoneIndexes(c, st.(scan := st.scan + e.delta.text));
      MonotoneCaptured(c, st.(cap := st.cap + e.delta.text));
    }
  }

  /**
    A stream the lifecycle accepts, whose text blocks carry only text deltas, is rewritten to one it accepts:
    same phase, indexes contiguous.
   */
  lemma {:induction false} RewritingKeepsLifecycle(c: Config, es: seq<Event>)
    requires AcceptedSoFar(es)
    requires TextOnly(Assemble(EmptyMessage, es).blocks)
    requires OnEvents(c, Idle, es).st.nextOut <= MAX_INDEX
    ensures
      var s := OnEvents(c, Idle, es);
      && AcceptedSoFar(s.out)
      && Aligned(Run(Initial, es).value, Assemble(EmptyMessage, es).blocks, s.st, Run(Initial, s.out).value)
    ensures Accepted(es) ==> Accepted(OnEvents(c, Idle, es).out) && FinalizeText(OnEvents(c, Idle, es).st).out == []
  {
    if es != [] {
      var before, e := es[..|es| - 1], es[|es| - 1];
      var s, m := OnEvents(c, Idle, before), Assemble(EmptyMessage, before);
      MonotoneEvent(c, s.st, e);
      TextOnlyBefore(m, e);
      RewritingKeepsLifecycle(c, before);
      EventAligned(c, Run(Initial, before).value, m, s.st, Run(Initial, s.out).value, e);
      RunConcat(Initial, s.out, OnEvent(c, s.st, e).out);
    }
    if Accepted(es) {
      NothingLeft(OnEvents(c, Idle, es).st);
    }
  }
}
