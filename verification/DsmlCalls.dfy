/** The calls made from texts: which, in which order, and under which ids. */
module DsmlCalls {
  // Each has an id of its own, in the rewritten body as in the stream, and they decide the stop reason.

  import opened Wrappers
  import Sequences
  import opened Decimals
  import opened MessageStream
  import opened DsmlText
  import opened DsmlRewriter
  import opened DsmlStream
  import opened DsmlBody
  import opened DsmlMessage

  // ---------- The calls of a body ----------

  function CallsIn(segments: seq<Segment>): seq<Call> {
    if segments == [] then []
    else
      CallsIn(segments[..|segments| - 1])
      + (if segments[|segments| - 1].ToolSegment? then [segments[|segments| - 1].call] else [])
  }

  ghost function CallsOf(parse: Parser, x: Content): seq<Call> {
    if x.TextContent? then CallsIn(Segments(x.text, parse)) else []
  }

  /** The calls recognised in the texts of a body, in order. */
  ghost function AllCalls(parse: Parser, content: seq<Content>): seq<Call> {
    if content == [] then []
    else AllCalls(parse, content[..|content| - 1]) + CallsOf(parse, content[|content| - 1])
  }

  /** The id of the n-th call that is made. */
  function CallId(nonce: string, n: nat): string {
    "toolu_dsml_" + nonce + "_" + Decimal(n)
  }

  /** The n-th call as content. */
  function Made(c: Config, call: Call, n: nat): Content {
    ToolContent(CallId(c.nonce, n), call.name, c.codec.write(call.input))
  }

  function MadeFrom(c: Config, calls: seq<Call>, first: nat): seq<Content> {
    seq(|calls|, i requires 0 <= i < |calls| => Made(c, calls[i], first + i))
  }

  /** What one block leaves that is not text, after n calls: its calls, or itself. */
  ghost function NotTextOf(c: Config, x: Content, n: nat): seq<Content> {
    if x.TextContent? then MadeFrom(c, CallsOf(c.parse, x), n + 1) else [x]
  }

  /** What is not text in the rewritten body: the calls made, numbered throughout from one, and the other blocks. */
  ghost function NotText(c: Config, content: seq<Content>): seq<Content> {
    if content == [] then []
    else
      var front := content[..|content| - 1];
      NotText(c, front) + NotTextOf(c, content[|content| - 1], |AllCalls(c.parse, front)|)
  }

  /** Two calls never get one id. */
  lemma IdsDiffer(nonce: string, m: nat, n: nat)
    requires CallId(nonce, m) == CallId(nonce, n)
    ensures m == n
  {
    var k := |"toolu_dsml_" + nonce + "_"|;
    assert CallId(nonce, m)[k..] == Decimal(m) && CallId(nonce, n)[k..] == Decimal(n);
    DecimalInjective(m, n);
  }

  // ---------- Leaving out text ----------

  function WithoutText(content: seq<Content>): seq<Content> {
    if content == [] then []
    else
      WithoutText(content[..|content| - 1])
      + (if content[|content| - 1].TextContent? then [] else [content[|content| - 1]])
  }

  lemma WithoutTextSnoc(content: seq<Content>, x: Content)
    ensures WithoutText(content + [x]) == WithoutText(content) + (if x.TextContent? then [] else [x])
  {
    Sequences.Snoc(content, x);
  }

  lemma JoinLeavesOut(acc: seq<Content>, x: Content)
    ensures WithoutText(Join(acc, x)) == WithoutText(acc) + (if x.TextContent? then [] else [x])
  {
    Sequences.ConcatEmpty(WithoutText(acc));
    if x == TextContent("") {
    } else if x.TextContent? && acc != [] && acc[|acc| - 1].TextContent? {
      var front := acc[..|acc| - 1];
      WithoutTextSnoc(front, TextContent(acc[|acc| - 1].text + x.text));
      Sequences.ConcatEmpty(WithoutText(front));
    } else {
      WithoutTextSnoc(acc, x);
    }
  }

  lemma {:induction false} JoinedLeavesOut(content: seq<Content>)
    ensures WithoutText(Joined(content)) == WithoutText(content)
  {
    if content != [] {
      JoinedLeavesOut(content[..|content| - 1]);
      JoinLeavesOut(Joined(content[..|content| - 1]), content[|content| - 1]);
    }
  }

  // ---------- Numbering ----------

  lemma MadeSnoc(c: Config, calls: seq<Call>, call: Call, first: nat)
    ensures MadeFrom(c, calls + [call], first) == MadeFrom(c, calls, first) + [Made(c, call, first + |calls|)]
  {
  }

  lemma {:induction false} NumberedIsMade(c: Config, prefix: seq<Content>, segments: seq<Segment>, first: nat)
    ensures |CallsIn(segments)| == CountTools(segments)
    ensures WithoutText(prefix + Numbered(c, segments, first)) == WithoutText(prefix) + MadeFrom(c, CallsIn(segments), first)
  {
    if segments == [] {
      Sequences.ConcatEmpty(prefix);
      Sequences.ConcatEmpty(WithoutText(prefix));
    } else {
      var front, last := segments[..|segments| - 1], segments[|segments| - 1];
      NumberedIsMade(c, prefix, front, first);
      var items, n := Numbered(c, front, first), first + CountTools(front);
      Sequences.Associate(prefix, items, [Item(c, last, n)]);
      WithoutTextSnoc(prefix + items, Item(c, last, n));
      OneMoreMade(c, WithoutText(prefix), CallsIn(front), last, first);
    }
  }

  lemma OneMoreMade(c: Config, before: seq<Content>, calls: seq<Call>, s: Segment, first: nat)
    ensures
      var x := Item(c, s, first + |calls|);
      before + MadeFrom(c, calls, first) + (if x.TextContent? then [] else [x])
      == before + MadeFrom(c, calls + (if s.ToolSegment? then [s.call] else []), first)
  {
    if s.ToolSegment? {
      MadeSnoc(c, calls, s.call, first);
      Sequences.Associate(before, MadeFrom(c, calls, first), [Made(c, s.call, first + |calls|)]);
    } else {
      Sequences.ConcatEmpty(before + MadeFrom(c, calls, first));
      Sequences.ConcatEmpty(calls);
    }
  }

  lemma TextMakes(c: Config, r: Rewriting, segments: seq<Segment>)
    ensures
      var r' := Segmented(c, r, segments);
      && WithoutText(r'.content) == WithoutText(r.content) + MadeFrom(c, CallsIn(segments), r.tools + 1)
      && r'.tools == r.tools + |CallsIn(segments)| && (r'.changed <==> r.changed || CallsIn(segments) != [])
  {
    NumberedIsMade(c, r.content, segments, r.tools + 1);
    SegmentedIs(c, r, segments);
  }

  /** What a rewriting came to, against the calls made so far. */
  ghost predicate Makes(r: Rewriting, rest: seq<Content>, calls: seq<Call>) {
    WithoutText(r.content) == rest && r.tools == |calls| && (r.changed <==> calls != [])
  }

  lemma BlockMakes(c: Config, r: Rewriting, x: Content, rest: seq<Content>, calls: seq<Call>)
    requires Makes(r, rest, calls)
    ensures Makes(SpreadBlock(c, r, x), rest + NotTextOf(c, x, |calls|), calls + CallsOf(c.parse, x))
  {
    if x.TextContent? {
      TextMakes(c, r, Segments(x.text, c.parse));
    } else {
      WithoutTextSnoc(r.content, x);
      Sequences.ConcatEmpty(calls);
    }
  }

  lemma {:induction false} SpreadMakes(c: Config, content: seq<Content>)
    ensures Makes(Spread(c, content), NotText(c, content), AllCalls(c.parse, content))
  {
    if content != [] {
      var front := content[..|content| - 1];
      SpreadMakes(c, front);
      BlockMakes(c, Spread(c, front), content[|content| - 1], NotText(c, front), AllCalls(c.parse, front));
    }
  }

  /** The calls made, leaving out the other blocks. */
  ghost function MadeOf(c: Config, content: seq<Content>): seq<Content> {
    if content == [] then []
    else
      var front, last := content[..|content| - 1], content[|content| - 1];
      MadeOf(c, front) + (if last.TextContent? then NotTextOf(c, last, |AllCalls(c.parse, front)|) else [])
  }

  lemma MadeConcat(c: Config, a: seq<Call>, b: seq<Call>, first: nat)
    ensures MadeFrom(c, a + b, first) == MadeFrom(c, a, first) + MadeFrom(c, b, first + |a|)
  {
  }

  lemma {:induction false} MadeInOrder(c: Config, content: seq<Content>)
    ensures MadeOf(c, content) == MadeFrom(c, AllCalls(c.parse, content), 1)
  {
    if content != [] {
      var front, last := content[..|content| - 1], content[|content| - 1];
      MadeInOrder(c, front);
      MadeConcat(c, AllCalls(c.parse, front), CallsOf(c.parse, last), 1);
      Sequences.ConcatEmpty(MadeOf(c, front));
    }
  }

  lemma MadeDiffer(c: Config, calls: seq<Call>, i: nat, j: nat)
    requires i < j < |calls|
    ensures MadeFrom(c, calls, 1)[i].id != MadeFrom(c, calls, 1)[j].id
  {
    if CallId(c.nonce, 1 + i) == CallId(c.nonce, 1 + j) {
      IdsDiffer(c.nonce, 1 + i, 1 + j);
    }
  }

  lemma MadeFromOne(c: Config, calls: seq<Call>, made: seq<Content>)
    requires made == MadeFrom(c, calls, 1)
    ensures |made| == |calls|
    ensures forall i: nat | i < |made| :: made[i] == Made(c, calls[i], i + 1)
    ensures forall i: nat, j: nat | i < j < |made| :: made[i].id != made[j].id
  {
    forall i: nat, j: nat | i < j < |calls| ensures made[i].id != made[j].id {
      MadeDiffer(c, calls, i, j);
    }
  }

  /** The i-th call made for a message has number i + 1, and an id that no other call made for the message has. */
  lemma EachCallHasItsId(c: Config, content: seq<Content>)
    ensures
      var made, calls := MadeOf(c, content), AllCalls(c.parse, content);
      && |made| == |calls|
      && (forall i: nat | i < |made| :: made[i] == Made(c, calls[i], i + 1))
      && (forall i: nat, j: nat | i < j < |made| :: made[i].id != made[j].id)
  {
    MadeInOrder(c, content);
    MadeFromOne(c, AllCalls(c.parse, content), MadeOf(c, content));
  }

  // ---------- In the body and in the stream ----------

  function Reason(made: bool, stopReason: Option<string>): Option<string> {
    if made && stopReason in {None, Some("end_turn"), Some("stop")} then Some("tool_use") else stopReason
  }

  /**
    The rewritten body holds, besides text, exactly the calls recognised in its texts, in order, the n-th under an id of
    its own that ends in n, with its name and its input written out, and the other blocks where they were. Without a
    call the body stays as it is; with one, an answer that would have ended waits for results.
   */
  lemma BodyMakesItsCalls(c: Config, body: Body)
    ensures
      var r, calls := RewriteBody(c, body), AllCalls(c.parse, body.content);
      && WithoutText(r.content) == NotText(c, body.content)
      && (calls == [] ==> r == body)
      && r.stopReason == Reason(calls != [], body.stopReason)
  {
    SpreadMakes(c, body.content);
    BodyIsSpread(c, body);
    RewrittenIsSpread(c, body.content);
    JoinedLeavesOut(RewriteBody(c, body).content);
    JoinedLeavesOut(Spread(c, body.content).content);
  }

  /** So does the message a client assembles from the rewritten stream, however its texts were cut. */
  lemma StreamMakesItsCalls(c: Config, start: Event, parts: seq<Part>, blocks: seq<Block>, end: Event)
    requires start.MessageStart? && end.MessageDelta? && CutsOf(parts, blocks) && Safe(c.parse, parts)
    ensures
      var m := Assemble(EmptyMessage, OnEvents(c, Idle, Streamed(start, blocks, end)).out);
      && WithoutText(Contents(m.blocks)) == NotText(c, Contents(blocks))
      && m.stopReason == Reason(AllCalls(c.parse, Contents(blocks)) != [], end.stopReason)
  {
    var m := Assemble(EmptyMessage, OnEvents(c, Idle, Streamed(start, blocks, end)).out);
    StreamHoldsSegments(c, start, parts, blocks, end);
    PlannedIsSpread(c, parts, blocks);
    SpreadMakes(c, Contents(blocks));
    JoinedLeavesOut(Contents(m.blocks));
    JoinedLeavesOut(Planned(c, parts).content);
  }
}
