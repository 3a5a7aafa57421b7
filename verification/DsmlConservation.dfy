/** No text is lost, made up or moved: what goes in is what comes out, plus the recognised regions, in order. */
module DsmlConservation {
  import opened Wrappers
  import Sequences
  import opened MessageStream
  import opened DsmlText
  import opened DsmlLocality
  import opened DsmlRewriter
  import opened DsmlRefinement
  import opened DsmlStream
  import opened DsmlLifecycle

  /** The text an event carries. */
  function EventText(e: Event): string {
    if e.BlockDelta? && e.delta.TextDelta? then e.delta.text else ""
  }

  function AllText(es: seq<Event>): string {
    if es == [] then "" else AllText(es[..|es| - 1]) + EventText(es[|es| - 1])
  }

  /** The original spelling of what was dealt with, recognised regions included. */
  function Spelled(pieces: seq<Piece>): string {
    if pieces == [] then "" else Spelled(pieces[..|pieces| - 1]) + Spelling(pieces[|pieces| - 1])
  }

  function Spelling(p: Piece): string {
    match p case Said(text) => text case Called(region, _) => region
  }

  /** The same without the recognised regions. */
  function Spoken(pieces: seq<Piece>): string {
    if pieces == [] then ""
    else Spoken(pieces[..|pieces| - 1]) + (if pieces[|pieces| - 1].Said? then pieces[|pieces| - 1].text else "")
  }

  lemma {:induction false} AllTextConcat(a: seq<Event>, b: seq<Event>)
    ensures AllText(a + b) == AllText(a) + AllText(b)
  {
    if b == [] {
      Sequences.ConcatEmpty(a);
    } else {
      AllTextConcat(a, b[..|b| - 1]);
      Sequences.ConcatLast(a, b);
      Sequences.Associate(AllText(a), AllText(b[..|b| - 1]), EventText(b[|b| - 1]));
    }
  }

  lemma {:induction false} SpelledConcat(a: seq<Piece>, b: seq<Piece>)
    ensures Spelled(a + b) == Spelled(a) + Spelled(b)
  {
    if b == [] {
      Sequences.ConcatEmpty(a);
    } else {
      SpelledConcat(a, b[..|b| - 1]);
      Sequences.ConcatLast(a, b);
      Sequences.Associate(Spelled(a), Spelled(b[..|b| - 1]), Spelling(b[|b| - 1]));
    }
  }

  lemma {:induction false} SpokenConcat(a: seq<Piece>, b: seq<Piece>)
    ensures Spoken(a + b) == Spoken(a) + Spoken(b)
  {
    if b == [] {
      Sequences.ConcatEmpty(a);
    } else {
      SpokenConcat(a, b[..|b| - 1]);
      Sequences.ConcatLast(a, b);
      Sequences.Associate(Spoken(a), Spoken(b[..|b| - 1]), if b[|b| - 1].Said? then b[|b| - 1].text else "");
    }
  }

  lemma AllTextOne(e: Event)
    ensures AllText([e]) == EventText(e)
  {
    assert [e][..0] == [];
  }

  lemma SpelledOne(p: Piece)
    ensures Spelled([p]) == Spelling(p)
    ensures Spoken([p]) == if p.Said? then p.text else ""
  {
    assert [p][..0] == [];
  }

  // ---------- Steps ----------

  /** Passing text holds some of it back; capturing holds it all, from an opening tag on. */
  ghost predicate Tidy(st: Rewriter) {
    match st.mode
    case Pass => st.cap == ""
    case Capture => st.scan == "" && FindOpen(st.cap).Some? && FindOpen(st.cap).value.start == 0
  }

  /** The text held before a step is what the step dealt with, then what is held after it. */
  ghost predicate Conserves(before: string, s: Step) {
    && Tidy(s.st)
    && before == Spelled(s.pieces) + Held(s.st)
    && AllText(s.out) == Spoken(s.pieces)
  }

  lemma AfterConserves(before: string, first: Step, mid: string, second: Step)
    requires before == Spelled(first.pieces) + mid && AllText(first.out) == Spoken(first.pieces)
    requires Conserves(mid, second)
    ensures Conserves(before, After(first, second))
  {
    AllTextConcat(first.out, second.out);
    SpelledConcat(first.pieces, second.pieces);
    SpokenConcat(first.pieces, second.pieces);
    Sequences.Associate(Spelled(first.pieces), Spelled(second.pieces), Held(second.st));
  }

  lemma SayText(st: Rewriter, text: string)
    ensures AllText(Say(st, text).out) == text
    ensures Spelled(Say(st, text).pieces) == text && Spoken(Say(st, text).pieces) == text
  {
    SpelledOne(Said(text));
    match st.curOut
    case Some(index) =>
      AllTextOne(BlockDelta(index, TextDelta(text)));
    case None =>
      var start, delta := BlockStart(st.nextOut, TextHead("")), BlockDelta(st.nextOut, TextDelta(text));
      AllTextOne(start);
      AllTextOne(delta);
      AllTextConcat([start], [delta]);
      assert [start] + [delta] == [start, delta];
  }

  lemma ThenClosed(s: Step)
    ensures AllText(After(s, CloseCurrent(s.st)).out) == AllText(s.out)
    ensures After(s, CloseCurrent(s.st)).pieces == s.pieces
  {
    AllTextConcat(s.out, CloseCurrent(s.st).out);
    if s.st.curOut.Some? {
      AllTextOne(BlockStop(s.st.curOut.value));
    }
  }

  lemma {:induction false} CallsSayNothing(c: Config, st: Rewriter, calls: seq<Call>, n: nat)
    requires n <= |calls|
    ensures AllText(MakeCalls(c, st, calls, n).1) == ""
  {
    if n > 0 {
      CallsSayNothing(c, st, calls, n - 1);
      CallsThenOne(c, st, calls, n);
    }
  }

  lemma CallsThenOne(c: Config, st: Rewriter, calls: seq<Call>, n: nat)
    requires 0 < n <= |calls|
    ensures AllText(MakeCalls(c, st, calls, n).1) == AllText(MakeCalls(c, st, calls, n - 1).1)
  {
    var (before, out) := MakeCalls(c, st, calls, n - 1);
    CallSaysNothing(c, before, calls[n - 1]);
    AllTextConcat(out, CallEvents(c, before, calls[n - 1]));
  }

  lemma CallSaysNothing(c: Config, st: Rewriter, call: Call)
    ensures AllText(CallEvents(c, st, call)) == ""
  {
    var es := CallEvents(c, st, call);
    AllTextOne(es[0]);
    AllTextOne(es[1]);
    AllTextOne(es[2]);
    AllTextConcat([es[0]], [es[1]]);
    AllTextConcat([es[0]] + [es[1]], [es[2]]);
    assert es == [es[0]] + [es[1]] + [es[2]];
  }

  lemma ResolveText(c: Config, st: Rewriter, region: string)
    ensures
      var s := Resolve(c, st, region);
      Spelled(s.pieces) == region && AllText(s.out) == Spoken(s.pieces)
  {
    var calls := c.parse(region);
    if calls == [] {
      SayText(st, region);
      ThenClosed(Say(st, region));
    } else {
      CallsSayNothing(c, st, calls, |calls|);
      SpelledOne(Called(region, calls));
    }
  }

  lemma {:induction false} PassConserves(c: Config, st: Rewriter)
    requires st.mode == Pass && st.cap == ""
    ensures Conserves(st.scan, PassScan(c, st))
    decreases 2 * |st.scan| + 1
  {
    match FindOpen(st.scan)
    case Some(_) =>
      var begun := Captured(st);
      CapturedText(st);
      CaptureConserves(c, begun.st);
      AfterConserves(st.scan, begun, begun.st.cap, CaptureScan(c, begun.st));
    case None =>
      HoldBackConserves(c, st);
  }

  lemma HoldBackConserves(c: Config, st: Rewriter)
    requires st.mode == Pass && st.cap == "" && FindOpen(st.scan).None?
    ensures Conserves(st.scan, PassScan(c, st))
  {
    var split := |st.scan| - (MAX_OPEN - 1);
    if split > 0 {
      SayText(st.(scan := st.scan[split..]), st.scan[..split]);
      assert st.scan == st.scan[..split] + st.scan[split..];
    } else {
      assert "" + st.scan == st.scan;
    }
  }

  lemma CapturedText(st: Rewriter)
    requires FindOpen(st.scan).Some?
    ensures
      var begun := Captured(st);
      && begun.st.mode == Capture && begun.st.scan == "" && |begun.st.cap| <= |st.scan|
      && FindOpen(begun.st.cap).Some? && FindOpen(begun.st.cap).value.start == 0
      && st.scan == Spelled(begun.pieces) + begun.st.cap && AllText(begun.out) == Spoken(begun.pieces)
  {
    var start := FindOpen(st.scan).value.start;
    CapturedPieces(st, start);
    CapturedAtTheFront(st.scan);
    Sequences.Cut(st.scan, start);
  }

  lemma CapturedPieces(st: Rewriter, start: nat)
    requires FindOpen(st.scan).Some? && start == FindOpen(st.scan).value.start
    ensures
      var begun := Captured(st);
      && begun.st.cap == st.scan[start..]
      && Spelled(begun.pieces) == st.scan[..start] && AllText(begun.out) == Spoken(begun.pieces)
  {
    var before := st.scan[..start];
    MaybeSaid(st, before);
    ThenClosed(if before == "" then Step(st, [], []) else Say(st, before));
  }

  lemma MaybeSaid(st: Rewriter, text: string)
    ensures
      var said := if text == "" then Step(st, [], []) else Say(st, text);
      Spelled(said.pieces) == text && Spoken(said.pieces) == text && AllText(said.out) == text
  {
    SayText(st, text);
  }

  lemma {:induction false} CaptureConserves(c: Config, st: Rewriter)
    requires st.mode == Capture && Tidy(st)
    ensures Conserves(st.cap, CaptureScan(c, st))
    decreases 2 * |st.cap|
  {
    match FindWrapper(st.cap, 0)
    case Some(w) =>
      var s := FindOpen(st.cap).value;
      FirstTagUnique(st.cap, 0, s.start, s.end, w.start, w.inner, false);
      var region, rest := st.cap[w.start..w.end], st.cap[w.end..];
      assert st.cap == region + rest;
      ResolveText(c, st, region);
      ResolvedThen(c, st, region, rest);
      if rest != "" {
        var next := Resolve(c, st, region).st.(cap := "", mode := Pass, curOut := None, scan := rest);
        PassConserves(c, next);
        AfterConserves(st.cap, Resolve(c, st, region), rest, PassScan(c, next));
      }
    case None =>
      OverflowConserves(c, st);
  }

  lemma ResolvedThen(c: Config, st: Rewriter, region: string, rest: string)
    requires st.scan == "" && st.cap == region + rest && FindWrapper(st.cap, 0).Some?
    requires var w := FindWrapper(st.cap, 0).value; w.start == 0 && w.end == |region|
    ensures Resolve(c, st, region).st.scan == ""
    ensures
      var resolved, s := Resolve(c, st, region), CaptureScan(c, st);
      var passing := resolved.st.(cap := "", mode := Pass, curOut := None);
      if rest == "" then s == resolved.(st := passing) && Held(s.st) == "" && region + Held(s.st) == st.cap
      else s == After(resolved, PassScan(c, passing.(scan := rest)))
  {
    var w := FindWrapper(st.cap, 0).value;
    assert st.cap[w.start..w.end] == region && st.cap[w.end..] == rest;
    MakeCallsKeeps(c, st, c.parse(region), |c.parse(region)|);
    EmptyEnds(region);
  }

  lemma OverflowConserves(c: Config, st: Rewriter)
    requires st.mode == Capture && Tidy(st) && FindWrapper(st.cap, 0).None?
    ensures Conserves(st.cap, CaptureScan(c, st))
  {
    AllSaid(st.(cap := ""), st.cap);
    EmptyEnds(st.cap);
  }

  /** A whole buffer given up as a text block of its own. */
  lemma AllSaid(st: Rewriter, text: string)
    requires st.cap == "" && st.scan == ""
    ensures
      var said := SayBlock(st, text);
      var passed := said.(st := said.st.(mode := Pass));
      Conserves(text, passed) && Held(passed.st) == ""
  {
    SayText(st, text);
    ThenClosed(Say(st, text));
    EmptyEnds(text);
  }

  /** Text held back said as part of the open block or of a new one. */
  lemma ScanSaid(st: Rewriter)
    requires st.mode == Pass && st.cap == ""
    ensures
      var said := Say(st.(scan := ""), st.scan);
      Conserves(st.scan, said) && Held(said.st) == ""
  {
    SayText(st.(scan := ""), st.scan);
    EmptyEnds(st.scan);
  }

  lemma NothingSaid(st: Rewriter)
    requires Tidy(st)
    ensures Conserves(Held(st), Step(st, [], []))
  {
    EmptyEnds(Held(st));
  }

  lemma CloseConserves(before: string, s: Step)
    requires Conserves(before, s) && (s.st.mode == Pass || s.st.curOut.None?)
    ensures Conserves(before, After(s, CloseCurrent(s.st)))
    ensures Held(CloseCurrent(s.st).st) == Held(s.st)
  {
    ThenClosed(s);
  }

  lemma TextConserves(c: Config, st: Rewriter, text: string)
    requires Tidy(st)
    ensures Conserves(Held(st) + text, OnText(c, st, text))
  {
    match st.mode
    case Pass =>
      PassConserves(c, st.(scan := st.scan + text));
    case Capture =>
      FindOpenStable(st.cap, text);
      CaptureConserves(c, st.(cap := st.cap + text));
  }

  lemma StopConserves(st: Rewriter)
    requires Tidy(st)
    ensures Conserves(Held(st), OnBlockStop(st))
  {
    if st.mode == Capture {
      NothingFound();
      AllSaid(st.(cap := ""), st.cap);
      var said := SayBlock(st.(cap := ""), st.cap);
      CloseConserves(st.cap, said.(st := said.st.(mode := Pass)));
    } else if st.scan != "" && st.curOut.Some? {
      ScanSaid(st);
      CloseConserves(st.scan, Say(st.(scan := ""), st.scan));
    } else {
      NothingSaid(st);
      CloseConserves(st.scan, Step(st, [], []));
    }
  }

  lemma FlushConserves(st: Rewriter)
    requires Tidy(st)
    ensures Conserves(Held(st), FlushPending(st)) && Held(FlushPending(st).st) == ""
  {
    if st.mode == Capture {
      NothingFound();
      AllSaid(st.(cap := ""), st.cap);
      var said := SayBlock(st.(cap := ""), st.cap);
      CloseConserves(st.cap, said.(st := said.st.(mode := Pass)));
    } else if st.scan != "" {
      ScanSaid(st);
      CloseConserves(st.scan, Say(st.(scan := ""), st.scan));
    } else {
      NothingSaid(st);
      CloseConserves(st.scan, Step(st, [], []));
    }
  }

  lemma EmptyEnds(t: string)
    ensures t + "" == t && "" + t == t
  {
  }

  // ---------- Whole streams ----------

  /** Text blocks carry text deltas only, and no other block carries any. */
  ghost predicate Typed(blocks: seq<Block>) {
    forall b, d | b in blocks && d in b.deltas :: b.head.TextHead? <==> d.TextDelta?
  }

  lemma TypedDelta(m: Message, e: Event)
    requires e.BlockDelta? && m.blocks != [] && Typed(Observe(m, e).blocks)
    ensures m.blocks[|m.blocks| - 1].head.TextHead? <==> e.delta.TextDelta?
  {
    var last := Observe(m, e).blocks[|m.blocks| - 1];
    assert last in Observe(m, e).blocks && last.deltas[|last.deltas| - 1] == e.delta;
    assert e.delta in last.deltas;
  }

  lemma TypedBefore(m: Message, e: Event)
    requires Typed(Observe(m, e).blocks)
    ensures Typed(m.blocks)
  {
    forall b, d | b in m.blocks && d in b.deltas ensures b.head.TextHead? <==> d.TextDelta? {
      var k :| 0 <= k < |m.blocks| && m.blocks[k] == b;
      var b' := Observe(m, e).blocks[k];
      assert b' in Observe(m, e).blocks && b'.head == b.head && d in b'.deltas;
    }
  }

  lemma EventConserves(c: Config, i: Life, m: Message, st: Rewriter, o: Life, e: Event)
    requires Aligned(i, m.blocks, st, o) && Advance(i, e).Some? && Tidy(st)
    requires Typed(Observe(m, e).blocks)
    ensures Conserves(Held(st) + EventText(e), OnEvent(c, st, e))
  {
    EmptyEnds(Held(st));
    match e
    case BlockStart(_, head) =>
      AllTextOne(BlockStart(st.nextOut, head));
    case BlockDelta(index, delta) =>
      TypedDelta(m, e);
      if st.curIsText {
        TextConserves(c, st, delta.text);
      } else {
        AllTextOne(BlockDelta(st.curOut.value, delta));
      }
    case BlockStop(_) =>
      StopConserves(st);
    case MessageDelta(stopReason, inputTokens, outputTokens) =>
      FlushThen(st, MessageDelta(FinalStopReason(FlushPending(st).st, stopReason), inputTokens, outputTokens));
    case MessageStop =>
      FlushThen(st, MessageStop);
    case _ =>
      AllTextOne(e);
  }

  lemma FlushThen(st: Rewriter, last: Event)
    requires Tidy(st) && EventText(last) == ""
    ensures var flushed := FlushPending(st); Conserves(Held(st), After(flushed, Step(flushed.st, [last], [])))
    ensures Held(FlushPending(st).st) == ""
  {
    FlushConserves(st);
    AllTextOne(last);
    EmptyEnds(Held(FlushPending(st).st));
    AfterConserves(Held(st), FlushPending(st), "", Step(FlushPending(st).st, [last], []));
  }

  /** Whatever was fed so far: what was dealt with and then what is held spells the input text. */
  lemma {:induction false} TextIsConserved(c: Config, es: seq<Event>)
    requires AcceptedSoFar(es)
    requires Typed(Assemble(EmptyMessage, es).blocks)
    requires OnEvents(c, Idle, es).st.nextOut <= MAX_INDEX
    ensures Conserves(AllText(es), OnEvents(c, Idle, es))
  {
    if es != [] {
      var before, e := es[..|es| - 1], es[|es| - 1];
      var s, m := OnEvents(c, Idle, before), Assemble(EmptyMessage, before);
      MonotoneEvent(c, s.st, e);
      TypedBefore(m, e);
      TextIsConserved(c, before);
      RewritingKeepsLifecycle(c, before);
      EventConserves(c, Run(Initial, before).value, m, s.st, Run(Initial, s.out).value, e);
      StepConserves(AllText(before), s, EventText(e), OnEvent(c, s.st, e));
    }
  }

  lemma StepConserves(before: string, s: Step, text: string, next: Step)
    requires Conserves(before, s) && Conserves(Held(s.st) + text, next)
    ensures Conserves(before + text, After(s, next))
  {
    Sequences.Associate(Spelled(s.pieces), Held(s.st), text);
    AfterConserves(before + text, s, Held(s.st) + text, next);
  }

  /** At the end nothing is held: output text plus recognised regions, in order, is exactly the input text. */
  lemma AllTextComesOut(c: Config, es: seq<Event>)
    requires Accepted(es)
    requires Typed(Assemble(EmptyMessage, es).blocks)
    requires OnEvents(c, Idle, es).st.nextOut <= MAX_INDEX
    ensures
      var s := OnEvents(c, Idle, es);
      AllText(es) == Spelled(s.pieces) && AllText(s.out) == Spoken(s.pieces)
  {
    TextIsConserved(c, es);
    RewritingKeepsLifecycle(c, es);
    var s := OnEvents(c, Idle, es);
    EmptyEnds(Spelled(s.pieces));
  }
}
