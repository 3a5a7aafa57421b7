/**
  The capture buffer's limit matters exactly when a region is not harmless: then some cut of the text shows it.

  The cut that shows it delivers the region up to the character that outgrows the buffer, and then the rest.
 */
module DsmlLimit {
  import opened Wrappers
  import Sequences
  import opened Utf8
  import opened DsmlText
  import opened DsmlLocality
  import opened DsmlRewriter
  import opened DsmlRefinement
  import opened DsmlStream
  import opened DsmlStranding

  // ---------- Counting calls ----------

  ghost function Calls(parse: Parser, text: string): nat
    decreases |text|
  {
    match Split(text)
    case None => 0
    case Some(p) => |parse(p.region)| + Calls(parse, p.rest)
  }

  lemma {:induction false} CountToolsAfter(acc: seq<Segment>, calls: seq<Call>)
    ensures CountTools(acc + Tools(calls)) == CountTools(acc) + |calls|
  {
    if calls == [] {
      assert acc + Tools(calls) == acc;
    } else {
      var short := calls[..|calls| - 1];
      CountToolsAfter(acc, short);
      assert (acc + Tools(calls))[..|acc| + |short|] == acc + Tools(short);
    }
  }

  lemma CountPushText(acc: seq<Segment>, text: string)
    ensures CountTools(PushText(acc, text)) == CountTools(acc)
  {
    if text != "" {
      var r := PushText(acc, text);
      if acc != [] && acc[|acc| - 1].TextSegment? {
        assert r[..|r| - 1] == acc[..|acc| - 1];
      } else {
        assert r[..|r| - 1] == acc;
      }
    }
  }

  lemma {:induction false} DivideCounts(parse: Parser, acc: seq<Segment>, text: string)
    ensures CountTools(Divide(parse, acc, text)) == CountTools(acc) + Calls(parse, text)
    decreases |text|
  {
    match Split(text)
    case None =>
      CountPushText(acc, text);
    case Some(p) =>
      var acc' := PushText(acc, p.front);
      CountPushText(acc, p.front);
      CountPushText(acc', p.region);
      CountToolsAfter(acc', parse(p.region));
      DivideCounts(parse, PushRegion(parse, acc', p.region), p.rest);
  }

  // ---------- A cut that shows ----------

  /** A text at whose end the capture buffer, fed all at once, outgrows its limit. */
  ghost predicate Outgrows(text: string)
    decreases |text|
  {
    match Split(text)
    case Some(p) => Outgrows(p.rest)
    case None => FindOpen(text).Some? && ByteLen(text[FindOpen(text).value.start..]) > CAP
  }

  /** A cut into two after which the calls found in the parts are not those of the whole. */
  ghost predicate Shown(parse: Parser, text: string, a: string, b: string) {
    text == a + b && Outgrows(a) && Calls(parse, a) + Calls(parse, b) != Calls(parse, text)
  }

  lemma {:induction false} UnfitIsShown(parse: Parser, text: string) returns (a: string, b: string)
    requires !Roomy(parse, text)
    ensures Shown(parse, text, a, b)
    decreases |text|
  {
    var p := Split(text).value;
    if !Fits(parse, p.region) {
      a, b := UnfitFirst(parse, text);
    } else {
      a, b := UnfitIsShown(parse, p.rest);
      ShownLater(parse, text, p, a, b);
      a := p.front + p.region + a;
    }
  }

  lemma ShownLater(parse: Parser, text: string, p: Parts, a: string, b: string)
    requires Split(text) == Some(p) && Shown(parse, p.rest, a, b)
    ensures Shown(parse, text, p.front + p.region + a, b)
  {
    SplitKeeps(text, p, a, b);
    var w := FindWrapper(text, 0).value;
    PartsOfText(text, w.start, w.end);
    Sequences.Associate(p.front + p.region, a, b);
    ShownAround(parse, text, p, a, b, p.front + p.region + a);
  }

  lemma ShownAround(parse: Parser, text: string, p: Parts, a: string, b: string, a': string)
    requires Split(text) == Some(p) && Shown(parse, p.rest, a, b) && text == a' + b && Split(a') == Some(p.(rest := a))
    ensures Shown(parse, text, a', b)
  {
  }

  /** A text cut after its first wrapper still has it. */
  lemma SplitKeeps(text: string, p: Parts, a: string, b: string)
    requires Split(text) == Some(p) && p.rest == a + b
    ensures Split(p.front + p.region + a) == Some(p.(rest := a))
  {
    var w, t := FindWrapper(text, 0).value, p.front + p.region + a;
    Sequences.Associate(p.front + p.region, a, b);
    PartsOfText(text, w.start, w.end);
    FindWrapperInside(t, b);
    ThreeParts(p.front, p.region, a);
  }

  lemma PartsOfText(text: string, i: nat, j: nat)
    requires i <= j <= |text|
    ensures text == text[..i] + text[i..j] + text[j..]
  {
  }

  lemma ThreeParts(a: string, b: string, c: string)
    ensures
      var t := a + b + c;
      t[..|a|] == a && t[|a|..|a| + |b|] == b && t[|a| + |b|..] == c
  {
  }

  lemma UnfitWitness(parse: Parser, region: string) returns (i: nat, e: nat)
    requires !Fits(parse, region)
    ensures i <= |region| && TagAt(region, i, e, false)
    ensures (i == 0 || ByteLen(region[..i]) > CAP) && parse(region[i..]) != []
  {
    i, e :|
      TagAt(region, i, e, false) && (i == 0 || ByteLen(region[..i]) > CAP) && parse(region[i..]) != [];
  }

  lemma UnfitFirst(parse: Parser, text: string) returns (a: string, b: string)
    requires Split(text).Some? && !Fits(parse, Split(text).value.region)
    ensures Shown(parse, text, a, b)
  {
    var w := FindWrapper(text, 0).value;
    var region := text[w.start..w.end];
    var i, e := UnfitWitness(parse, region);
    if parse(region) != [] {
      a, b := LastCut(parse, text, w);
    } else {
      assert region[0..] == region;
      a, b := InnerCut(parse, text, w, i, e);
    }
  }

  function PartsAt(text: string, w: Wrapper): Parts
    requires w.start <= w.end <= |text|
  {
    Parts(text[..w.start], text[w.start..w.end], text[w.end..])
  }

  lemma CutShown(parse: Parser, text: string, p: Parts, a: string, b: string, found: nat)
    requires Split(text) == Some(p) && text == a + b && Split(a).None? && Outgrows(a)
    requires Calls(parse, b) == found + Calls(parse, p.rest) && found != |parse(p.region)|
    ensures Shown(parse, text, a, b)
  {
  }

  /** Cut inside its first wrapper, after the opening tag, a text has no wrapper but an unfinished one. */
  lemma CutInside(text: string, k: nat)
    requires FindWrapper(text, 0).Some?
    requires var w := FindWrapper(text, 0).value; w.inner <= k < w.end && ByteLen(text[w.start..k]) > CAP
    ensures Outgrows(text[..k]) && Split(text[..k]).None?
  {
    var w := FindWrapper(text, 0).value;
    var t, u := text[..k], text[k..];
    assert t + u == text;
    if FindWrapper(t, 0).Some? {
      FindWrapperStable(t, u);
    }
    FirstTagInside(t, u, 0, w.start, w.inner, false);
    var s := FindOpen(t).value;
    FirstTagUnique(t, 0, w.start, w.inner, s.start, s.end, false);
    assert t[w.start..] == text[w.start..k];
  }

  /** The last character of a recognised region, too big, arrives late. */
  lemma LastCut(parse: Parser, text: string, w: Wrapper) returns (a: string, b: string)
    requires FindWrapper(text, 0) == Some(w)
    requires ByteLen(text[w.start..w.end]) > CAP + 1 && parse(text[w.start..w.end]) != []
    ensures Shown(parse, text, a, b)
  {
    a, b := text[..w.end - 1], text[w.end - 1..];
    Sequences.Cut(text, w.end - 1);
    LastCharacter(text, w);
    CutInside(text, w.end - 1);
    LastCalls(parse, text[w.end..]);
    CutShown(parse, text, PartsAt(text, w), a, b, 0);
  }

  lemma LastCalls(parse: Parser, rest: string)
    ensures Calls(parse, ">" + rest) == Calls(parse, rest)
  {
    BracketPast(rest);
    SplitPast(">", rest);
  }

  lemma LastCharacter(text: string, w: Wrapper)
    requires TagAt(text, w.outer, w.end, true) && w.start <= w.inner <= w.outer
    ensures w.end <= |text| && w.inner <= w.end - 1
    ensures ByteLen(text[w.start..w.end]) == ByteLen(text[w.start..w.end - 1]) + 1
    ensures text[w.end - 1..] == ">" + text[w.end..]
  {
    TagShape(text, w.outer, w.end, true);
    LastBracket(text, w.start, w.end);
  }

  lemma LastBracket(text: string, i: nat, j: nat)
    requires i < j <= |text| && text[j - 1] == '>'
    ensures ByteLen(text[i..j]) == ByteLen(text[i..j - 1]) + 1 && text[j - 1..] == ">" + text[j..]
  {
    assert text[i..j] == text[i..j - 1] + ">";
    ByteLenConcat(text[i..j - 1], ">");
    assert ByteLen(">") == 1;
  }

  lemma BracketPast(rest: string)
    ensures Untagged(">", rest)
  {
    forall i: nat, e: nat | i < 1 ensures !TagAt(">" + rest, i, e, false) {
      if TagAt(">" + rest, i, e, false) {
        TagShape(">" + rest, i, e, false);
      }
    }
  }

  /** A tag inside an unrecognised region arrives first in its delta, the buffer having been given up. */
  lemma InnerCut(parse: Parser, text: string, w: Wrapper, i: nat, e: nat) returns (a: string, b: string)
    requires FindWrapper(text, 0) == Some(w) && i > 0 && TagAt(text[w.start..w.end], i, e, false)
    requires
      var region := text[w.start..w.end];
      parse(region) == [] && ByteLen(region[..i]) > CAP && parse(region[i..]) != []
    ensures Shown(parse, text, a, b)
  {
    a, b := text[..w.start + i], text[w.start + i..];
    var p := PartsAt(text, w);
    TagShape(p.region, i, e, false);
    Sequences.Cut(text, w.start + i);
    SliceSums(text, w.start, i, w.end);
    InnerSplit(text, w, p.region[..i], p.region[i..], e);
    CutInside(text, w.start + i);
    InnerCalls(parse, p.region[i..], p.rest);
    CutShown(parse, text, p, a, b, |parse(p.region[i..])|);
  }

  lemma InnerCalls(parse: Parser, inner: string, rest: string)
    requires Split(inner + rest) == Some(Parts("", inner, rest))
    ensures Calls(parse, inner + rest) == |parse(inner)| + Calls(parse, rest)
  {
  }

  lemma SliceSums(text: string, start: nat, i: nat, end: nat)
    requires start + i <= end <= |text|
    ensures
      var region, rest := text[start..end], text[end..];
      && region[..i] == text[start..start + i]
      && region[i..] + rest == text[start + i..]
      && region[..i] + region[i..] == region
  {
  }

  lemma InnerSplit(text: string, w: Wrapper, t: string, inner: string, e: nat)
    requires FindWrapper(text, 0) == Some(w) && text[w.start..w.end] == t + inner
    requires t != "" && TagAt(t + inner, |t|, e, false)
    ensures Split(inner + text[w.end..]) == Some(Parts("", inner, text[w.end..]))
    ensures w.inner <= w.start + |t| < w.end
  {
    WrapperAtTheFront(text, w);
    TwoSlices(text, w.start, w.end);
    SplitInsideFront(t, inner, text[w.end..], FromStart(w), e);
  }

  lemma SplitInsideFront(t: string, inner: string, rest: string, w: Wrapper, e: nat)
    requires FindWrapper(t + inner + rest, 0) == Some(w) && w.start == 0 && w.end == |t + inner|
    requires t != "" && TagAt(t + inner, |t|, e, false)
    ensures Split(inner + rest) == Some(Parts("", inner, rest))
    ensures w.inner <= |t| < w.end
  {
    TagAtInside(t + inner, rest, |t|, e, false);
    Sequences.Associate(t, inner, rest);
    TagShape(t + inner, |t|, e, false);
    InnerTagBounds(t, inner + rest, w, e);
    SplitInside(t, inner + rest, w);
    TwoParts(inner, rest);
  }

  lemma InnerTagBounds(t: string, u: string, w: Wrapper, e: nat)
    requires FindWrapper(t + u, 0) == Some(w) && w.start == 0 < |t| < w.end
    requires TagAt(t + u, |t|, e, false)
    ensures w.inner <= |t| && FindOpen(u).Some? && FindOpen(u).value.start == 0
  {
    InnerTag(t + u, w, |t|, e);
    OpenAfter(t, u, e);
  }

  lemma OpenAfter(t: string, u: string, e: nat)
    requires TagAt(t + u, |t|, e, false)
    ensures FindOpen(u).Some? && FindOpen(u).value.start == 0
  {
    TagShape(t + u, |t|, e, false);
    TagAtShift(t, u, 0, e - |t|, false);
    OpenHere(u, e - |t|);
  }

  lemma TwoParts(a: string, b: string)
    ensures (a + b)[..0] == "" && (a + b)[0..|a|] == a && (a + b)[|a|..] == b
  {
  }

  lemma OpenHere(u: string, e: nat)
    requires TagAt(u, 0, e, false)
    ensures FindOpen(u).Some? && FindOpen(u).value.start == 0
  {
  }

  function FromStart(w: Wrapper): Wrapper
    requires w.start <= w.inner <= w.outer <= w.end
  {
    Wrapper(0, w.inner - w.start, w.outer - w.start, w.end - w.start)
  }

  lemma WrapperAtTheFront(text: string, w: Wrapper)
    requires FindWrapper(text, 0) == Some(w)
    ensures FindWrapper(text[w.start..], 0) == Some(FromStart(w))
  {
    UntaggedBefore(text, w);
    WrapperPast(text, text[..w.start], text[w.start..], w);
  }

  lemma WrapperPast(text: string, t: string, u: string, w: Wrapper)
    requires text == t + u && Untagged(t, u) && FindWrapper(text, 0) == Some(w) && |t| == w.start
    ensures FindWrapper(u, 0) == Some(FromStart(w))
  {
    FindWrapperPast(t, u);
    Unmoved(FindWrapper(u, 0), w, |t|);
  }

  lemma Unmoved(near: Option<Wrapper>, far: Wrapper, distance: nat)
    requires Moved(near, distance) == Some(far)
    ensures
      && near.Some? && distance <= far.start && distance <= far.inner && distance <= far.outer && distance <= far.end
      && near.value
         == Wrapper(far.start - distance, far.inner - distance, far.outer - distance, far.end - distance)
  {
  }

  lemma TwoSlices(text: string, i: nat, j: nat)
    requires i <= j <= |text|
    ensures text[i..j] + text[j..] == text[i..]
  {
  }

  lemma UntaggedBefore(text: string, w: Wrapper)
    requires FindWrapper(text, 0) == Some(w)
    ensures Untagged(text[..w.start], text[w.start..]) && text[..w.start] + text[w.start..] == text
  {
    Sequences.Cut(text, w.start);
  }

  lemma {:induction false} OutgrowsIsSpent(text: string)
    requires Outgrows(text)
    ensures Spent(text)
    decreases |text|
  {
    if Split(text).Some? {
      OutgrowsIsSpent(Split(text).value.rest);
    }
  }

  /** The calls of the parts, one segmented after the other, are not those of the whole. */
  lemma CallsDiffer(parse: Parser, text: string, a: string, b: string, half: seq<Segment>, final: seq<Segment>)
    requires Shown(parse, text, a, b)
    requires Divide(parse, [], "" + a) == PushText(half, "")
    requires Divide(parse, half, "" + b) == final
    ensures CountTools(final) != CountTools(Segments(text, parse))
  {
    Sequences.ConcatEmpty(a);
    Sequences.ConcatEmpty(b);
    DivideCounts(parse, [], a);
    DivideCounts(parse, half, b);
    DivideCounts(parse, [], text);
    DivideIsSegments(parse, text);
  }
}
