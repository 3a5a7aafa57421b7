/** Rewriting a whole answer at once. */
module DsmlBody {
  import opened Wrappers
  import Sequences
  import opened MessageStream
  import opened DsmlText
  import opened DsmlRewriter
  import opened DsmlStream

  datatype Body = Body(content: seq<Content>, stopReason: Option<string>)

  /** A text block that holds a recognised call gives way to its segments; calls are numbered throughout. */
  ghost function RewriteBlock(c: Config, before: Rewriting, x: Content): Rewriting {
    Replaced(c, before, x, if x.TextContent? then Segments(x.text, c.parse) else [])
  }

  function Replaced(c: Config, before: Rewriting, x: Content, segments: seq<Segment>): Rewriting {
    if CountTools(segments) > 0 then Segmented(c, before, segments).(changed := true)
    else before.(content := before.content + [x])
  }

  ghost function RewriteContent(c: Config, content: seq<Content>): Rewriting {
    if content == [] then Rewriting([], false, 0)
    else RewriteBlock(c, RewriteContent(c, content[..|content| - 1]), content[|content| - 1])
  }

  ghost function RewriteBody(c: Config, body: Body): Body {
    var r := RewriteContent(c, body.content);
    if r.changed then Body(r.content, FinalReason(true, body.stopReason)) else body
  }

  function FinalReason(synthesized: bool, stopReason: Option<string>): Option<string> {
    if synthesized && (stopReason.None? || stopReason.value in {"end_turn", "stop"}) then Some("tool_use")
    else stopReason
  }

  lemma RewriteContentSnoc(c: Config, content: seq<Content>, x: Content)
    ensures RewriteContent(c, content + [x]) == RewriteBlock(c, RewriteContent(c, content), x)
  {
    assert (content + [x])[..|content|] == content;
  }

  predicate HoldsCall(segments: seq<Segment>) {
    exists i | 0 <= i < |segments| :: segments[i].ToolSegment?
  }

  lemma {:induction false} CountToolsPositive(segments: seq<Segment>)
    ensures CountTools(segments) > 0 <==> HoldsCall(segments)
  {
    if segments != [] {
      CountToolsPositive(segments[..|segments| - 1]);
    }
  }

  lemma NextSegment(c: Config, content: seq<Content>, segments: seq<Segment>, k: nat, tools: nat)
    requires k < |segments|
    ensures
      var done := tools + CountTools(segments[..k]);
      && content + Numbered(c, segments[..k + 1], tools + 1)
         == content + Numbered(c, segments[..k], tools + 1) + [Item(c, segments[k], done + 1)]
      && tools + CountTools(segments[..k + 1]) == (if segments[k].ToolSegment? then done + 1 else done)
  {
    var items := Numbered(c, segments[..k], tools + 1);
    Sequences.NextPrefix(segments, k);
    NumberedSnoc(c, segments[..k], tools + 1, segments[k]);
    Sequences.Associate(content, items, [Item(c, segments[k], tools + 1 + CountTools(segments[..k]))]);
  }

  method PushSegments(c: Config, content: seq<Content>, segments: seq<Segment>, tools: nat)
    returns (content': seq<Content>, tools': nat)
    ensures content' == content + Numbered(c, segments, tools + 1)
    ensures tools' == tools + CountTools(segments)
  {
    content', tools' := content, tools;
    for k := 0 to |segments|
      invariant content' == content + Numbered(c, segments[..k], tools + 1)
      invariant tools' == tools + CountTools(segments[..k])
    {
      NextSegment(c, content, segments, k, tools);
      match segments[k] {
        case TextSegment(text) =>
          content' := content' + [TextContent(text)];
        case ToolSegment(call) =>
          tools' := tools' + 1;
          content' := content' + [Tool(c, tools', call)];
      }
    }
    assert segments[..|segments|] == segments;
  }

  lemma RewriteNext(c: Config, content: seq<Content>, i: nat)
    requires i < |content|
    ensures RewriteContent(c, content[..i + 1]) == RewriteBlock(c, RewriteContent(c, content[..i]), content[i])
  {
    assert content[..i + 1] == content[..i] + [content[i]];
    RewriteContentSnoc(c, content[..i], content[i]);
  }

  method Replace(c: Config, before: Rewriting, x: Content, segments: seq<Segment>) returns (r: Rewriting)
    ensures r == Replaced(c, before, x, segments)
  {
    CountToolsPositive(segments);
    if HoldsCall(segments) {
      var content, tools := PushSegments(c, before.content, segments, before.tools);
      r := Rewriting(content, true, tools);
    } else {
      r := before.(content := before.content + [x]);
    }
  }

  method RewriteNonstreamBody(c: Config, body: Body) returns (r: Body)
    ensures r == RewriteBody(c, body)
  {
    var done := Rewriting([], false, 0);
    for i := 0 to |body.content|
      invariant done == RewriteContent(c, body.content[..i])
    {
      RewriteNext(c, body.content, i);
      var segments := [];
      if body.content[i].TextContent? {
        segments := SegmentDsmlText(body.content[i].text, c.parse);
      }
      done := Replace(c, done, body.content[i], segments);
    }
    assert body.content[..|body.content|] == body.content;
    if !done.changed {
      return body;
    }
    var stopReason := body.stopReason;
    if stopReason.None? || stopReason.value in {"end_turn", "stop"} {
      stopReason := Some("tool_use");
    }
    r := Body(done.content, stopReason);
  }

  // ---------- A body with segments for its texts ----------

  lemma {:induction false} NoToolsNoChange(text: string, parse: Parser, pos: nat, from: nat)
    requires pos <= from <= |text| && CountTools(SegmentsFrom(text, parse, pos, from)) == 0
    ensures SegmentsFrom(text, parse, pos, from) == TextIfAny(text[pos..])
    decreases |text| - from
  {
    match FindWrapper(text, from)
    case None =>
    case Some(w) =>
      var calls := parse(text[w.start..w.end]);
      if calls == [] {
        NoToolsNoChange(text, parse, pos, w.end);
      } else {
        ToolsCounted(TextIfAny(text[pos..w.start]), calls, SegmentsFrom(text, parse, w.end, w.end));
      }
  }

  lemma ToolsCounted(a: seq<Segment>, calls: seq<Call>, b: seq<Segment>)
    requires calls != []
    ensures CountTools(a + Tools(calls) + b) > 0
  {
    CountToolsPositive(a + Tools(calls) + b);
    assert (a + Tools(calls) + b)[|a|] == Tools(calls)[0];
  }

  /** The content of a body with every text given way to its segments, whether they hold a call or not. */
  ghost function Spread(c: Config, content: seq<Content>): Rewriting {
    if content == [] then Rewriting([], false, 0)
    else SpreadBlock(c, Spread(c, content[..|content| - 1]), content[|content| - 1])
  }

  ghost function SpreadBlock(c: Config, before: Rewriting, x: Content): Rewriting {
    if x.TextContent? then Segmented(c, before, Segments(x.text, c.parse)) else before.(content := before.content + [x])
  }

  lemma SpreadSnoc(c: Config, content: seq<Content>, x: Content)
    ensures Spread(c, content + [x]) == SpreadBlock(c, Spread(c, content), x)
  {
    Sequences.Snoc(content, x);
  }

  lemma {:induction false} JoinedSame(a: seq<Content>, b: seq<Content>, more: seq<Content>)
    requires Joined(a) == Joined(b)
    ensures Joined(a + more) == Joined(b + more)
  {
    if more == [] {
      Sequences.ConcatEmpty(a);
      Sequences.ConcatEmpty(b);
    } else {
      var short, x := more[..|more| - 1], more[|more| - 1];
      JoinedSame(a, b, short);
      Sequences.Unsnoc(more);
      JoinedEnd(a, short, x);
      JoinedEnd(b, short, x);
    }
  }

  lemma OneText(c: Config, text: string, first: nat)
    ensures CountTools(TextIfAny(text)) == 0
    ensures Numbered(c, TextIfAny(text), first) == if text == "" then [] else [TextContent(text)]
  {
    if text != "" {
      NumberedSnoc(c, [], first, TextSegment(text));
      Sequences.ConcatEmpty([TextSegment(text)]);
    }
  }

  /** Both hold the same once adjacent texts are joined. */
  ghost predicate SameOnceJoined(r: Rewriting, r': Rewriting) {
    Joined(r.content) == Joined(r'.content) && r.changed == r'.changed && r.tools == r'.tools
  }

  lemma BlockSpread(c: Config, r: Rewriting, r': Rewriting, x: Content)
    requires SameOnceJoined(r, r')
    ensures SameOnceJoined(RewriteBlock(c, r, x), SpreadBlock(c, r', x))
  {
    if x.TextContent? && CountTools(Segments(x.text, c.parse)) == 0 {
      NoToolsNoChange(x.text, c.parse, 0, 0);
      assert x.text[0..] == x.text;
      PlainSpread(c, r, r', x.text);
    } else if x.TextContent? {
      SegmentedSame(c, r, r', Segments(x.text, c.parse));
    } else {
      JoinedSame(r.content, r'.content, [x]);
    }
  }

  lemma SegmentedSame(c: Config, r: Rewriting, r': Rewriting, segments: seq<Segment>)
    requires SameOnceJoined(r, r')
    ensures SameOnceJoined(Segmented(c, r, segments), Segmented(c, r', segments))
  {
    SegmentedIs(c, r, segments);
    SegmentedIs(c, r', segments);
    JoinedSame(r.content, r'.content, Numbered(c, segments, r.tools + 1));
  }

  lemma PlainSpread(c: Config, r: Rewriting, r': Rewriting, text: string)
    requires SameOnceJoined(r, r')
    ensures SameOnceJoined(r.(content := r.content + [TextContent(text)]), Segmented(c, r', TextIfAny(text)))
  {
    OneText(c, text, r'.tools + 1);
    SegmentedIs(c, r', TextIfAny(text));
    JoinedSnoc(r.content, TextContent(text));
    JoinedSnoc(r'.content, TextContent(text));
    Sequences.ConcatEmpty(r'.content);
  }

  /** Where no call is recognised, a block is its own only segment, but for joining. */
  lemma {:induction false} RewrittenIsSpread(c: Config, content: seq<Content>)
    ensures SameOnceJoined(RewriteContent(c, content), Spread(c, content))
  {
    if content != [] {
      var before := content[..|content| - 1];
      RewrittenIsSpread(c, before);
      BlockSpread(c, RewriteContent(c, before), Spread(c, before), content[|content| - 1]);
    }
  }

  lemma {:induction false} UnchangedWithoutCalls(c: Config, content: seq<Content>)
    ensures !RewriteContent(c, content).changed ==> RewriteContent(c, content).content == content
  {
    if content != [] {
      UnchangedWithoutCalls(c, content[..|content| - 1]);
      Sequences.Unsnoc(content);
    }
  }

  /** A rewritten body, once adjacent texts are joined. */
  lemma BodyIsSpread(c: Config, body: Body)
    ensures
      var r, spread := RewriteBody(c, body), Spread(c, body.content);
      Joined(r.content) == Joined(spread.content) && r.stopReason == FinalReason(spread.changed, body.stopReason)
  {
    RewrittenIsSpread(c, body.content);
    UnchangedWithoutCalls(c, body.content);
  }
}
