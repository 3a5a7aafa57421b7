/**
  What a client assembles from the rewritten stream, one text block at a time.

  The rewriter's pieces are texts and tool calls in the order in which it found them; the client sees blocks. A
  block is open while text is still coming, and adjacent texts end up in one block. The lemmas follow the
  assembled message through one scan of the buffer, one delta, and the flush at the end of the block.
 */
module DsmlStream {
  import opened Wrappers
  import Sequences
  import opened MessageStream
  import opened DsmlText
  import opened DsmlRewriter
  import opened DsmlRefinement

  // ---------- Content ----------

  /** A finished content block; a tool's input is its JSON text. */
  datatype Content =
    | TextContent(text: string)
    | ToolContent(id: string, name: string, input: string)
    | OtherContent(block: Block)

  function ContentOf(b: Block): Content {
    match b.head
    case TextHead(text) => TextContent(text + TextOf(b.deltas))
    case ToolHead(id, name) => ToolContent(id, name, JsonOf(b.deltas))
    case _ => OtherContent(b)
  }

  /** Appends a block, joining adjacent texts and dropping empty ones. */
  function Join(acc: seq<Content>, x: Content): seq<Content> {
    if x == TextContent("") then acc
    else if x.TextContent? && acc != [] && acc[|acc| - 1].TextContent? then
      acc[..|acc| - 1] + [TextContent(acc[|acc| - 1].text + x.text)]
    else acc + [x]
  }

  function Joined(content: seq<Content>): seq<Content> {
    if content == [] then [] else Join(Joined(content[..|content| - 1]), content[|content| - 1])
  }

  function Contents(blocks: seq<Block>): seq<Content> {
    seq(|blocks|, i requires 0 <= i < |blocks| => ContentOf(blocks[i]))
  }

  lemma JoinedSnoc(content: seq<Content>, x: Content)
    ensures Joined(content + [x]) == Join(Joined(content), x)
  {
    assert (content + [x])[..|content|] == content;
  }

  lemma ContentsSnoc(blocks: seq<Block>, b: Block)
    ensures Contents(blocks + [b]) == Contents(blocks) + [ContentOf(b)]
  {
  }

  lemma JoinTwice(acc: seq<Content>, a: string, b: string)
    ensures Join(Join(acc, TextContent(a)), TextContent(b)) == Join(acc, TextContent(a + b))
  {
    if a == "" {
      assert a + b == b;
    } else if b == "" {
      assert a + b == a;
    } else if acc != [] && acc[|acc| - 1].TextContent? {
      assert acc[|acc| - 1].text + (a + b) == acc[|acc| - 1].text + a + b;
    }
  }

  // ---------- Numbering the calls ----------

  function CountTools(segments: seq<Segment>): nat {
    if segments == [] then 0
    else CountTools(segments[..|segments| - 1]) + (if segments[|segments| - 1].ToolSegment? then 1 else 0)
  }

  function Tool(c: Config, n: nat, call: Call): Content {
    ToolContent(ToolId(c.nonce, n), call.name, c.codec.write(call.input))
  }

  /** Segments as content, calls numbered from `first`. */
  function Numbered(c: Config, segments: seq<Segment>, first: nat): seq<Content> {
    if segments == [] then []
    else
      var before := segments[..|segments| - 1];
      Numbered(c, before, first) + [Item(c, segments[|segments| - 1], first + CountTools(before))]
  }

  function Item(c: Config, s: Segment, n: nat): Content {
    match s
    case TextSegment(text) => TextContent(text)
    case ToolSegment(call) => Tool(c, n, call)
  }

  lemma NumberedSnoc(c: Config, segments: seq<Segment>, first: nat, s: Segment)
    ensures CountTools(segments + [s]) == CountTools(segments) + (if s.ToolSegment? then 1 else 0)
    ensures Numbered(c, segments + [s], first)
            == Numbered(c, segments, first) + [Item(c, s, first + CountTools(segments))]
  {
    assert (segments + [s])[..|segments|] == segments;
  }

  lemma JoinedEnd(prefix: seq<Content>, more: seq<Content>, x: Content)
    ensures Joined(prefix + (more + [x])) == Join(Joined(prefix + more), x)
  {
    Sequences.Associate(prefix, more, [x]);
    JoinedSnoc(prefix + more, x);
  }

  lemma NumberedPushText(c: Config, segments: seq<Segment>, first: nat, prefix: seq<Content>, text: string)
    ensures CountTools(PushText(segments, text)) == CountTools(segments)
    ensures Joined(prefix + Numbered(c, PushText(segments, text), first))
            == Join(Joined(prefix + Numbered(c, segments, first)), TextContent(text))
  {
    if text != "" {
      if segments != [] && segments[|segments| - 1].TextSegment? {
        var before, last := segments[..|segments| - 1], segments[|segments| - 1];
        var items := Numbered(c, before, first);
        Sequences.Unsnoc(segments);
        NumberedSnoc(c, before, first, last);
        NumberedSnoc(c, before, first, TextSegment(last.text + text));
        JoinedEnd(prefix, items, TextContent(last.text));
        JoinedEnd(prefix, items, TextContent(last.text + text));
        JoinTwice(Joined(prefix + items), last.text, text);
      } else {
        NumberedSnoc(c, segments, first, TextSegment(text));
        JoinedEnd(prefix, Numbered(c, segments, first), TextContent(text));
      }
    }
  }

  lemma NumberedPushTool(c: Config, segments: seq<Segment>, first: nat, prefix: seq<Content>, call: Call, n: nat)
    requires n == first + CountTools(segments)
    ensures CountTools(segments + [ToolSegment(call)]) == CountTools(segments) + 1
    ensures Joined(prefix + Numbered(c, segments + [ToolSegment(call)], first))
            == Join(Joined(prefix + Numbered(c, segments, first)), Tool(c, n, call))
  {
    NumberedSnoc(c, segments, first, ToolSegment(call));
    JoinedEnd(prefix, Numbered(c, segments, first), Tool(c, n, call));
  }

  /** What the blocks up to some point come to: their content, whether a call was recognised, and how many were. */
  datatype Rewriting = Rewriting(content: seq<Content>, changed: bool, tools: nat)

  /** A text's segments after that, calls numbered throughout. */
  function Segmented(c: Config, before: Rewriting, segments: seq<Segment>): Rewriting {
    Rewriting(before.content + Numbered(c, segments, before.tools + 1),
              before.changed || CountTools(segments) > 0,
              before.tools + CountTools(segments))
  }

  lemma SegmentedPushText(c: Config, base: Rewriting, acc: seq<Segment>, text: string)
    ensures
      var r, r' := Segmented(c, base, acc), Segmented(c, base, PushText(acc, text));
      r'.changed == r.changed && r'.tools == r.tools && Joined(r'.content) == Join(Joined(r.content), TextContent(text))
  {
    NumberedPushText(c, acc, base.tools + 1, base.content, text);
    SegmentedIs(c, base, acc);
    SegmentedIs(c, base, PushText(acc, text));
  }

  lemma SegmentedIs(c: Config, base: Rewriting, acc: seq<Segment>)
    ensures
      var r := Segmented(c, base, acc);
      && r.content == base.content + Numbered(c, acc, base.tools + 1)
      && r.tools == base.tools + CountTools(acc) && (r.changed <==> base.changed || CountTools(acc) > 0)
  {
  }

  lemma SegmentedPushTool(c: Config, base: Rewriting, acc: seq<Segment>, call: Call, n: nat)
    requires n == base.tools + CountTools(acc) + 1
    ensures
      var r, r' := Segmented(c, base, acc), Segmented(c, base, acc + [ToolSegment(call)]);
      r'.tools == n && Joined(r'.content) == Join(Joined(r.content), Tool(c, n, call))
  {
    NumberedPushTool(c, acc, base.tools + 1, base.content, call, n);
    SegmentedIs(c, base, acc);
    SegmentedIs(c, base, acc + [ToolSegment(call)]);
  }

  // ---------- The blocks a client holds against the pieces let go ----------

  /** Inside a text block: what a client assembled, against what came before and the segments pushed so far. */
  ghost predicate Shows(c: Config, base: Rewriting, blocks: seq<Block>, acc: seq<Segment>, st: Rewriter) {
    && Holds(Segmented(c, base, acc), blocks, st)
    && st.curIsText
    && (st.curOut.Some? ==> blocks != [] && blocks[|blocks| - 1].head.TextHead?)
  }

  /** The blocks a client holds come to a rewriting, and the rewriter's counters agree with it. */
  ghost predicate Holds(r: Rewriting, blocks: seq<Block>, st: Rewriter) {
    && Joined(Contents(blocks)) == Joined(r.content)
    && st.toolCount == r.tools
    && (st.synthesized <==> r.changed)
  }

  /** A step keeps that up, and touches nothing else of the message. */
  ghost predicate StepShows(c: Config, base: Rewriting, m: Message, acc: seq<Segment>, s: Step) {
    && Shows(c, base, Assemble(m, s.out).blocks, PushPieces(acc, s.pieces), s.st)
    && Assemble(m, s.out) == m.(blocks := Assemble(m, s.out).blocks)
  }

  lemma AfterShows(c: Config, base: Rewriting, m: Message, acc: seq<Segment>, first: Step, second: Step)
    requires StepShows(c, base, m, acc, first)
    requires StepShows(c, base, Assemble(m, first.out), PushPieces(acc, first.pieces), second)
    ensures StepShows(c, base, m, acc, After(first, second))
  {
    AssembleConcat(m, first.out, second.out);
    PushPiecesConcat(acc, first.pieces, second.pieces);
  }

  lemma QuietShows(c: Config, base: Rewriting, m: Message, acc: seq<Segment>, st: Rewriter)
    requires Shows(c, base, m.blocks, acc, st)
    ensures StepShows(c, base, m, acc, Step(st, [], []))
  {
  }

  lemma DeltaJoins(m: Message, index: nat, text: string)
    requires m.blocks != [] && m.blocks[|m.blocks| - 1].head.TextHead?
    ensures
      var m' := Assemble(m, [BlockDelta(index, TextDelta(text))]);
      && m' == m.(blocks := m'.blocks)
      && m'.blocks != [] && m'.blocks[|m'.blocks| - 1].head.TextHead?
      && Joined(Contents(m'.blocks)) == Join(Joined(Contents(m.blocks)), TextContent(text))
  {
    var before, b := m.blocks[..|m.blocks| - 1], m.blocks[|m.blocks| - 1];
    assert m.blocks == before + [b];
    var b' := b.(deltas := b.deltas + [TextDelta(text)]);
    AssembleOne(m, BlockDelta(index, TextDelta(text)));
    assert m.blocks[|m.blocks| - 1 := b'] == before + [b'];
    ContentsSnoc(before, b);
    ContentsSnoc(before, b');
    JoinedSnoc(Contents(before), ContentOf(b));
    JoinedSnoc(Contents(before), ContentOf(b'));
    LongerText(b, text);
    JoinTwice(Joined(Contents(before)), ContentOf(b).text, text);
  }

  lemma AssembleOne(m: Message, e: Event)
    ensures Assemble(m, [e]) == Observe(m, e)
  {
    assert [e][..0] == [];
  }

  lemma DeltaShows(c: Config, base: Rewriting, m: Message, acc: seq<Segment>, index: nat, text: string, st: Rewriter)
    requires m.blocks != [] && m.blocks[|m.blocks| - 1].head.TextHead?
    requires st.curOut.Some? && Shows(c, base, m.blocks, acc, st)
    ensures StepShows(c, base, m, acc, Step(st, [BlockDelta(index, TextDelta(text))], [Said(text)]))
  {
    DeltaJoins(m, index, text);
    SegmentedPushText(c, base, acc, text);
    PushOne(acc, Said(text));
  }

  lemma LongerText(b: Block, text: string)
    requires b.head.TextHead?
    ensures ContentOf(b.(deltas := b.deltas + [TextDelta(text)])) == TextContent(ContentOf(b).text + text)
  {
    assert (b.deltas + [TextDelta(text)])[..|b.deltas|] == b.deltas;
    assert b.head.text + (TextOf(b.deltas) + text) == b.head.text + TextOf(b.deltas) + text;
  }

  lemma OpenShows(c: Config, base: Rewriting, m: Message, acc: seq<Segment>, st: Rewriter)
    requires Shows(c, base, m.blocks, acc, st)
    ensures StepShows(c, base, m, acc,
                      Step(st.(nextOut := st.nextOut + 1, curOut := Some(st.nextOut), curIsText := true),
                           [BlockStart(st.nextOut, TextHead(""))], []))
  {
    var b := Block(TextHead(""), []);
    AssembleOne(m, BlockStart(st.nextOut, TextHead("")));
    ContentsSnoc(m.blocks, b);
    JoinedSnoc(Contents(m.blocks), ContentOf(b));
  }

  lemma SayShows(c: Config, base: Rewriting, m: Message, acc: seq<Segment>, st: Rewriter, text: string)
    requires Shows(c, base, m.blocks, acc, st)
    ensures StepShows(c, base, m, acc, Say(st, text))
    ensures Say(st, text).st.curOut.Some?
  {
    if st.curOut.Some? {
      DeltaShows(c, base, m, acc, st.curOut.value, text, st);
    } else {
      SayOpens(c, base, m, acc, st, text);
    }
  }

  lemma SayOpens(c: Config, base: Rewriting, m: Message, acc: seq<Segment>, st: Rewriter, text: string)
    requires Shows(c, base, m.blocks, acc, st) && st.curOut.None?
    ensures StepShows(c, base, m, acc, Say(st, text))
  {
    OpenShows(c, base, m, acc, st);
    var first := Step(st.(nextOut := st.nextOut + 1, curOut := Some(st.nextOut), curIsText := true),
                      [BlockStart(st.nextOut, TextHead(""))], []);
    DeltaShows(c, base, Assemble(m, first.out), acc, st.nextOut, text, first.st);
    var second := Step(first.st, [BlockDelta(st.nextOut, TextDelta(text))], [Said(text)]);
    AfterShows(c, base, m, acc, first, second);
    SayInTwo(st, text);
  }

  lemma SayInTwo(st: Rewriter, text: string)
    requires st.curOut.None?
    ensures
      var begun := st.(nextOut := st.nextOut + 1, curOut := Some(st.nextOut), curIsText := true);
      After(Step(begun, [BlockStart(st.nextOut, TextHead(""))], []),
            Step(begun, [BlockDelta(st.nextOut, TextDelta(text))], [Said(text)]))
      == Say(st, text)
  {
  }

  lemma CloseShows(c: Config, base: Rewriting, m: Message, acc: seq<Segment>, st: Rewriter)
    requires Shows(c, base, m.blocks, acc, st)
    ensures StepShows(c, base, m, acc, CloseCurrent(st))
  {
    if st.curOut.Some? {
      AssembleOne(m, BlockStop(st.curOut.value));
    }
  }

  lemma SayBlockShows(c: Config, base: Rewriting, m: Message, acc: seq<Segment>, st: Rewriter, text: string)
    requires Shows(c, base, m.blocks, acc, st)
    ensures StepShows(c, base, m, acc, SayBlock(st, text))
    ensures SayBlock(st, text).st.curOut.None?
  {
    SayShows(c, base, m, acc, st, text);
    var said := Say(st, text);
    CloseShows(c, base, Assemble(m, said.out), PushPieces(acc, said.pieces), said.st);
    AfterShows(c, base, m, acc, said, CloseCurrent(said.st));
  }

  lemma OneCallShows(c: Config, base: Rewriting, m: Message, acc: seq<Segment>, st: Rewriter, call: Call)
    requires Joined(Contents(m.blocks)) == Joined(Segmented(c, base, acc).content)
    requires st.toolCount == base.tools + CountTools(acc)
    ensures
      var m' := Assemble(m, CallEvents(c, st, call));
      && m' == m.(blocks := m'.blocks)
      && Joined(Contents(m'.blocks)) == Joined(Segmented(c, base, acc + [ToolSegment(call)]).content)
      && base.tools + CountTools(acc + [ToolSegment(call)]) == st.toolCount + 1
  {
    var b := CallBlock(c, m, st, call);
    ContentsSnoc(m.blocks, b);
    JoinedSnoc(Contents(m.blocks), ContentOf(b));
    SegmentedPushTool(c, base, acc, call, st.toolCount + 1);
  }

  lemma CallBlock(c: Config, m: Message, st: Rewriter, call: Call) returns (b: Block)
    ensures Assemble(m, CallEvents(c, st, call)) == m.(blocks := m.blocks + [b])
    ensures ContentOf(b) == Tool(c, st.toolCount + 1, call)
  {
    var head, delta := ToolHead(ToolId(c.nonce, st.toolCount + 1), call.name), InputJsonDelta(c.codec.write(call.input));
    b := Block(head, [delta]);
    assert [delta][..0] == [];
    assert JsonOf([delta]) == "" + delta.json;
    assert "" + delta.json == delta.json;
    CallAssembles(m, st.nextOut, head, delta);
  }

  lemma CallAssembles(m: Message, index: nat, head: Head, delta: Delta)
    ensures Assemble(m, [BlockStart(index, head), BlockDelta(index, delta), BlockStop(index)])
            == m.(blocks := m.blocks + [Block(head, [delta])])
  {
    var es := [BlockStart(index, head), BlockDelta(index, delta), BlockStop(index)];
    AssembleOne(m, es[0]);
    assert es[..2] == [es[0]] + [es[1]];
    AssembleSnoc(m, [es[0]], es[1]);
    assert [] + [delta] == [delta];
    assert (m.blocks + [Block(head, [])])[|m.blocks| := Block(head, [delta])] == m.blocks + [Block(head, [delta])];
    assert es == es[..2] + [es[2]];
    AssembleSnoc(m, es[..2], es[2]);
  }

  /** Calls made as blocks come to the segments of the calls. */
  ghost predicate CallsHeld(c: Config, base: Rewriting, m: Message, acc: seq<Segment>, m': Message, count: nat) {
    && m' == m.(blocks := m'.blocks)
    && Joined(Contents(m'.blocks)) == Joined(Segmented(c, base, acc).content)
    && count == base.tools + CountTools(acc)
  }

  lemma {:induction false} CallsShow(c: Config, base: Rewriting, m: Message, acc: seq<Segment>, st: Rewriter, calls: seq<Call>, n: nat)
    requires n <= |calls|
    requires Joined(Contents(m.blocks)) == Joined(Segmented(c, base, acc).content)
    requires st.toolCount == base.tools + CountTools(acc)
    ensures
      var (made, out) := MakeCalls(c, st, calls, n);
      CallsHeld(c, base, m, acc + Tools(calls[..n]), Assemble(m, out), made.toolCount)
  {
    if n == 0 {
      assert acc + Tools(calls[..0]) == acc;
    } else {
      CallsShow(c, base, m, acc, st, calls, n - 1);
      OneMoreCallShows(c, base, m, acc, st, calls, n);
    }
  }

  lemma OneMoreCallShows(c: Config, base: Rewriting, m: Message, acc: seq<Segment>, st: Rewriter, calls: seq<Call>, n: nat)
    requires 0 < n <= |calls|
    requires
      var (before, out) := MakeCalls(c, st, calls, n - 1);
      CallsHeld(c, base, m, acc + Tools(calls[..n - 1]), Assemble(m, out), before.toolCount)
    ensures
      var (made, out) := MakeCalls(c, st, calls, n);
      CallsHeld(c, base, m, acc + Tools(calls[..n]), Assemble(m, out), made.toolCount)
  {
    var (before, out) := MakeCalls(c, st, calls, n - 1);
    OneCallShows(c, base, Assemble(m, out), acc + Tools(calls[..n - 1]), before, calls[n - 1]);
    AssembleConcat(m, out, CallEvents(c, before, calls[n - 1]));
    ToolsSnoc(acc, calls, n);
  }

  lemma ToolsSnoc(acc: seq<Segment>, calls: seq<Call>, n: nat)
    requires 0 < n <= |calls|
    ensures acc + Tools(calls[..n - 1]) + [ToolSegment(calls[n - 1])] == acc + Tools(calls[..n])
  {
  }

  lemma ResolveShows(c: Config, base: Rewriting, m: Message, acc: seq<Segment>, st: Rewriter, region: string)
    requires Shows(c, base, m.blocks, acc, st) && st.curOut.None?
    ensures StepShows(c, base, m, acc, Resolve(c, st, region))
    ensures Resolve(c, st, region).st.curOut.None?
  {
    var calls := c.parse(region);
    if calls == [] {
      SayBlockShows(c, base, m, acc, st, region);
    } else {
      CallsShow(c, base, m, acc, st, calls, |calls|);
      MakeCallsKeeps(c, st, calls, |calls|);
      PushOne(acc, Called(region, calls));
      assert calls[..|calls|] == calls;
    }
  }

  lemma SameShows(c: Config, base: Rewriting, m: Message, acc: seq<Segment>, s: Step, st: Rewriter)
    requires StepShows(c, base, m, acc, s)
    requires st == s.st.(mode := st.mode, scan := st.scan, cap := st.cap)
    ensures StepShows(c, base, m, acc, s.(st := st))
  {
  }

  lemma {:induction false} PassShows(c: Config, base: Rewriting, m: Message, acc: seq<Segment>, st: Rewriter)
    requires Shows(c, base, m.blocks, acc, st)
    ensures StepShows(c, base, m, acc, PassScan(c, st))
    decreases 2 * |st.scan| + 1
  {
    match FindOpen(st.scan)
    case Some(_) =>
      var begun := Captured(st);
      CapturedShows(c, base, m, acc, st);
      CaptureShows(c, base, Assemble(m, begun.out), PushPieces(acc, begun.pieces), begun.st);
      AfterShows(c, base, m, acc, begun, CaptureScan(c, begun.st));
    case None =>
      HoldBackShows(c, base, m, acc, st);
  }

  lemma HoldBackShows(c: Config, base: Rewriting, m: Message, acc: seq<Segment>, st: Rewriter)
    requires Shows(c, base, m.blocks, acc, st) && FindOpen(st.scan).None?
    ensures StepShows(c, base, m, acc, PassScan(c, st))
  {
    var split := |st.scan| - (MAX_OPEN - 1);
    if split > 0 {
      SayShows(c, base, m, acc, st.(scan := st.scan[split..]), st.scan[..split]);
    } else {
      QuietShows(c, base, m, acc, st);
    }
  }

  lemma CapturedShows(c: Config, base: Rewriting, m: Message, acc: seq<Segment>, st: Rewriter)
    requires Shows(c, base, m.blocks, acc, st) && FindOpen(st.scan).Some?
    ensures StepShows(c, base, m, acc, Captured(st))
    ensures Captured(st).st.curOut.None? && |Captured(st).st.cap| <= |st.scan|
  {
    var start := FindOpen(st.scan).value.start;
    var before := st.scan[..start];
    if before == "" {
      QuietShows(c, base, m, acc, st);
    } else {
      SayShows(c, base, m, acc, st, before);
    }
    var said := if before == "" then Step(st, [], []) else Say(st, before);
    CloseShows(c, base, Assemble(m, said.out), PushPieces(acc, said.pieces), said.st);
    AfterShows(c, base, m, acc, said, CloseCurrent(said.st));
    SameShows(c, base, m, acc, After(said, CloseCurrent(said.st)), Captured(st).st);
  }

  lemma {:induction false} CaptureShows(c: Config, base: Rewriting, m: Message, acc: seq<Segment>, st: Rewriter)
    requires Shows(c, base, m.blocks, acc, st) && st.curOut.None?
    ensures StepShows(c, base, m, acc, CaptureScan(c, st))
    decreases 2 * |st.cap|
  {
    match FindWrapper(st.cap, 0)
    case Some(w) =>
      var resolved := Resolve(c, st, st.cap[w.start..w.end]);
      ResolveShows(c, base, m, acc, st, st.cap[w.start..w.end]);
      var rest := st.cap[w.end..];
      var passing := resolved.st.(cap := "", mode := Pass, curOut := None);
      if rest == "" {
        SameShows(c, base, m, acc, resolved, passing);
      } else {
        PassShows(c, base, Assemble(m, resolved.out), PushPieces(acc, resolved.pieces), passing.(scan := rest));
        AfterShows(c, base, m, acc, resolved, PassScan(c, passing.(scan := rest)));
      }
    case None =>
      OverflowShows(c, base, m, acc, st);
  }

  lemma OverflowShows(c: Config, base: Rewriting, m: Message, acc: seq<Segment>, st: Rewriter)
    requires Shows(c, base, m.blocks, acc, st) && st.curOut.None? && FindWrapper(st.cap, 0).None?
    ensures StepShows(c, base, m, acc, CaptureScan(c, st))
  {
    SayBlockShows(c, base, m, acc, st.(cap := ""), st.cap);
    var said := SayBlock(st.(cap := ""), st.cap);
    SameShows(c, base, m, acc, said, said.st.(mode := Pass));
    QuietShows(c, base, m, acc, st);
  }

  // ---------- Runs ----------

  lemma OnEventsSnoc(c: Config, st: Rewriter, es: seq<Event>, e: Event)
    ensures OnEvents(c, st, es + [e]) == (var s := OnEvents(c, st, es); After(s, OnEvent(c, s.st, e)))
  {
    RunStepsSnoc(Stepper(c), st, es, e);
  }

  lemma RunStepsSnoc(step: (Rewriter, Event) -> Step, st: Rewriter, es: seq<Event>, e: Event)
    ensures RunSteps(step, st, es + [e]) == (var s := RunSteps(step, st, es); After(s, step(s.st, e)))
  {
    Sequences.Snoc(es, e);
  }

  lemma OnEventsConcat(c: Config, st: Rewriter, a: seq<Event>, b: seq<Event>)
    ensures OnEvents(c, st, a + b) == (var s := OnEvents(c, st, a); After(s, OnEvents(c, s.st, b)))
  {
    RunStepsConcat(Stepper(c), st, a, b);
  }

  lemma {:induction false} RunStepsConcat(step: (Rewriter, Event) -> Step, st: Rewriter, a: seq<Event>, b: seq<Event>)
    ensures RunSteps(step, st, a + b) == (var s := RunSteps(step, st, a); After(s, RunSteps(step, s.st, b)))
  {
    var first := RunSteps(step, st, a);
    if b == [] {
      Sequences.ConcatEmpty(a);
      AfterNothing(first);
    } else {
      var short, e := b[..|b| - 1], b[|b| - 1];
      RunStepsConcat(step, st, a, short);
      Sequences.ConcatLast(a, b);
      var second := RunSteps(step, first.st, short);
      AfterAssociates(first, second, step(second.st, e));
    }
  }

  lemma AfterNothing(s: Step)
    ensures After(s, Step(s.st, [], [])) == s
  {
  }

  lemma AfterAssociates(a: Step, b: Step, c: Step)
    ensures After(After(a, b), c) == After(a, After(b, c))
  {
  }

  /** Both sides of the claim, after part of the text has been fed and `future` is still to come. */
  ghost predicate Midway(c: Config, base: Rewriting, m: Message, s: Step, text: string, future: string) {
    && StepShows(c, base, m, [], s)
    && Settled(s.st)
    && Divide(c.parse, [], text + future) == Divide(c.parse, PushPieces([], s.pieces), Held(s.st) + future)
    && Foreseen(c.parse, Held(s.st), future)
  }

  lemma TextShows(c: Config, base: Rewriting, m: Message, acc: seq<Segment>, st: Rewriter, text: string)
    requires Shows(c, base, m.blocks, acc, st)
    requires st.mode == Capture ==> st.curOut.None?
    ensures StepShows(c, base, m, acc, OnText(c, st, text))
  {
    match st.mode
    case Pass => PassShows(c, base, m, acc, st.(scan := st.scan + text));
    case Capture => CaptureShows(c, base, m, acc, st.(cap := st.cap + text));
  }

  lemma {:induction false} DeltasRun(
    c: Config, base: Rewriting, m: Message, st: Rewriter, index: nat, ds: seq<Delta>, future: string)
    requires Shows(c, base, m.blocks, [], st) && st.mode == Pass && Settled(st)
    requires forall d | d in ds :: d.TextDelta?
    requires Roomy(c.parse, st.scan + TextOf(ds) + future)
    ensures Midway(c, base, m, OnEvents(c, st, Deltas(index, ds)), st.scan + TextOf(ds), future)
  {
    if ds == [] {
      Sequences.ConcatEmpty(st.scan);
      QuietShows(c, base, m, [], st);
    } else {
      var short, text := ds[..|ds| - 1], ds[|ds| - 1].text;
      assert ds[|ds| - 1] in ds;
      Sequences.Associate(st.scan, TextOf(short), text);
      Sequences.Associate(st.scan + TextOf(short), text, future);
      DeltasRun(c, base, m, st, index, short, text + future);
      var s := OnEvents(c, st, Deltas(index, short));
      assert s.st.curIsText;
      LastDelta(c, st, index, ds);
      MidwayStep(c, base, m, s, st.scan + TextOf(short), text, future);
    }
  }

  lemma LastDelta(c: Config, st: Rewriter, index: nat, ds: seq<Delta>)
    requires ds != [] && ds[|ds| - 1].TextDelta?
    requires OnEvents(c, st, Deltas(index, ds[..|ds| - 1])).st.curIsText
    ensures
      var s := OnEvents(c, st, Deltas(index, ds[..|ds| - 1]));
      OnEvents(c, st, Deltas(index, ds)) == After(s, OnText(c, s.st, ds[|ds| - 1].text))
  {
    LastOfDeltas(index, ds);
    OnEventsSnoc(c, st, Deltas(index, ds[..|ds| - 1]), BlockDelta(index, ds[|ds| - 1]));
  }

  lemma LastOfDeltas(index: nat, ds: seq<Delta>)
    requires ds != []
    ensures Deltas(index, ds) == Deltas(index, ds[..|ds| - 1]) + [BlockDelta(index, ds[|ds| - 1])]
  {
  }

  lemma MidwayStep(c: Config, base: Rewriting, m: Message, s: Step, before: string, text: string, future: string)
    requires Midway(c, base, m, s, before, text + future)
    ensures Midway(c, base, m, After(s, OnText(c, s.st, text)), before + text, future)
  {
    var acc := PushPieces([], s.pieces);
    var next := OnText(c, s.st, text);
    Sequences.Associate(before, text, future);
    Sequences.Associate(Held(s.st), text, future);
    assert text + future == "" ==> future == "";
    TextAdvances(c, s.st, acc, text, future);
    TextShows(c, base, Assemble(m, s.out), acc, s.st, text);
    AfterShows(c, base, m, [], s, next);
    PushPiecesConcat([], s.pieces, next.pieces);
  }

  /** What is still held when the block stops is said, unless it is text no block is open for. */
  lemma StopShows(c: Config, base: Rewriting, m: Message, acc: seq<Segment>, st: Rewriter)
    requires Shows(c, base, m.blocks, acc, st) && Settled(st)
    ensures
      var stop := OnBlockStop(st);
      && StepShows(c, base, m, acc, stop)
      && stop.st.cap == "" && stop.st.mode == Pass && stop.st.curOut.None?
      && stop.st.scan == (if st.mode == Pass && st.curOut.None? then st.scan else "")
      && PushText(PushPieces(acc, stop.pieces), stop.st.scan) == PushText(acc, Held(st))
  {
    if st.mode == Capture {
      CaptureStops(c, base, m, acc, st);
    } else if st.curOut.Some? {
      OpenStops(c, base, m, acc, st);
    } else {
      QuietShows(c, base, m, acc, st);
    }
  }

  lemma CaptureStops(c: Config, base: Rewriting, m: Message, acc: seq<Segment>, st: Rewriter)
    requires Shows(c, base, m.blocks, acc, st) && Settled(st) && st.mode == Capture
    ensures
      var stop := OnBlockStop(st);
      && StepShows(c, base, m, acc, stop)
      && PushPieces(acc, stop.pieces) == PushText(acc, st.cap)
      && stop.st.scan == "" && stop.st.cap == "" && stop.st.mode == Pass && stop.st.curOut.None?
  {
    NothingFound();
    var said := SayBlock(st.(cap := ""), st.cap);
    SayBlockShows(c, base, m, acc, st.(cap := ""), st.cap);
    SameShows(c, base, m, acc, said, said.st.(mode := Pass));
    PushOne(acc, Said(st.cap));
    assert OnBlockStop(st) == said.(st := said.st.(mode := Pass));
  }

  lemma OpenStops(c: Config, base: Rewriting, m: Message, acc: seq<Segment>, st: Rewriter)
    requires Shows(c, base, m.blocks, acc, st) && Settled(st) && st.mode == Pass && st.curOut.Some?
    ensures
      var stop := OnBlockStop(st);
      && StepShows(c, base, m, acc, stop)
      && PushPieces(acc, stop.pieces) == PushText(acc, st.scan)
      && stop.st.scan == "" && stop.st.cap == "" && stop.st.mode == Pass && stop.st.curOut.None?
  {
    SaidThenClosed(c, base, m, acc, st);
  }

  /** What is still to be scanned is said, and the block closed. */
  function SaidAndClosed(st: Rewriter): Step {
    var emptied := if st.scan != "" then Say(st.(scan := ""), st.scan) else Step(st, [], []);
    After(emptied, CloseCurrent(emptied.st))
  }

  lemma SaidThenClosed(c: Config, base: Rewriting, m: Message, acc: seq<Segment>, st: Rewriter)
    requires Shows(c, base, m.blocks, acc, st) && st.mode == Pass && st.cap == ""
    ensures
      var s := SaidAndClosed(st);
      && StepShows(c, base, m, acc, s)
      && PushPieces(acc, s.pieces) == PushText(acc, st.scan)
      && s.st.scan == "" && s.st.cap == "" && s.st.mode == Pass && s.st.curOut.None?
  {
    var emptied := if st.scan != "" then Say(st.(scan := ""), st.scan) else Step(st, [], []);
    if st.scan != "" {
      SayShows(c, base, m, acc, st.(scan := ""), st.scan);
      PushOne(acc, Said(st.scan));
    } else {
      QuietShows(c, base, m, acc, st);
    }
    CloseShows(c, base, Assemble(m, emptied.out), PushPieces(acc, emptied.pieces), emptied.st);
    AfterShows(c, base, m, acc, emptied, CloseCurrent(emptied.st));
    Sequences.ConcatEmpty(emptied.pieces);
  }
}
