/** The DSML wrapper tags, the leftmost wrapper of a text, and the one-shot segmentation. */
module DsmlText {
  import opened Wrappers
  import opened JsonValues

  const BAR := "\U{FF5C}"

  function Bars(twice: bool): string { if twice then BAR + BAR else BAR }

  function Name(tools: bool): string { if tools then "tool_calls" else "function_calls" }

  function Tag(slash: string, before: bool, after: bool, tools: bool): string {
    "<" + Inner(slash, before, after, tools) + ">"
  }

  function Inner(slash: string, before: bool, after: bool, tools: bool): string {
    (slash + Bars(before)) + ("DSML" + Bars(after)) + Name(tools)
  }

  /** Whether the bars are doubled before and after the word, and which name follows. */
  datatype Form = Form(before: bool, after: bool, tools: bool)

  const FORMS := [
    Form(false, false, false), Form(false, false, true), Form(false, true, false), Form(false, true, true),
    Form(true, false, false), Form(true, false, true), Form(true, true, false), Form(true, true, true)]

  function Spellings(slash: string, forms: seq<Form>): set<string> {
    if forms == [] then {}
    else if |forms| == 1 then {Tag(slash, forms[0].before, forms[0].after, forms[0].tools)}
    else Spellings(slash, forms[..|forms| / 2]) + Spellings(slash, forms[|forms| / 2..])
  }

  const OPEN_TAGS := Spellings("", FORMS)
  const CLOSE_TAGS := Spellings("/", FORMS)

  predicate HasForm(slash: string, forms: seq<Form>, t: string) {
    exists i | 0 <= i < |forms| :: t == Tag(slash, forms[i].before, forms[i].after, forms[i].tools)
  }

  lemma HasFormInHalves(slash: string, forms: seq<Form>, h: nat, t: string)
    requires h <= |forms|
    ensures HasForm(slash, forms, t) <==> HasForm(slash, forms[..h], t) || HasForm(slash, forms[h..], t)
  {
    assert forall i | 0 <= i < h :: forms[..h][i] == forms[i];
    assert forall i | h <= i < |forms| :: forms[h..][i - h] == forms[i];
  }

  /** The spellings are those of the forms, each of them. */
  lemma {:induction false} SpellingsOf(slash: string, forms: seq<Form>, t: string)
    ensures t in Spellings(slash, forms) <==> HasForm(slash, forms, t)
    decreases |forms|
  {
    if |forms| > 1 {
      var h := |forms| / 2;
      HasFormInHalves(slash, forms, h, t);
      SpellingsOf(slash, forms[..h], t);
      SpellingsOf(slash, forms[h..], t);
    }
  }

  /** There are eight of each. */
  lemma AllForms(slash: string, before: bool, after: bool, tools: bool)
    ensures Tag(slash, before, after, tools) in Spellings(slash, FORMS)
  {
    SpellingsOf(slash, FORMS, Tag(slash, before, after, tools));
    var i := (if before then 4 else 0) + (if after then 2 else 0) + (if tools then 1 else 0);
    assert FORMS[i] == Form(before, after, tools);
  }

  const BARS := {"\U{FF5C}", "\U{FF5C}\U{FF5C}"}
  const NAMES := {"tool_calls", "function_calls"}

  lemma TagIs(slash: string, before: bool, after: bool, tools: bool)
    ensures Tag(slash, before, after, tools) == "<" + slash + Bars(before) + "DSML" + Bars(after) + Name(tools) + ">"
    ensures Bars(before) in BARS && Bars(after) in BARS && Name(tools) in NAMES
  {
    Regrouped("<", slash, Bars(before), "DSML", Bars(after), Name(tools), ">");
    assert Bars(true) == "\U{FF5C}\U{FF5C}";
  }

  lemma Regrouped(a: string, b: string, c: string, d: string, e: string, f: string, g: string)
    ensures a + ((b + c) + (d + e) + f) + g == a + b + c + d + e + f + g
  {
  }

  /** The tags are: a slash or none, one bar or two, the word, one bar or two, and one of two names, in brackets. */
  lemma TagsAre(slash: string, t: string)
    ensures
      t in Spellings(slash, FORMS)
      <==> exists a, b, name | a in BARS && b in BARS && name in NAMES :: t == "<" + slash + a + "DSML" + b + name + ">"
  {
    SpellingsOf(slash, FORMS, t);
    if HasForm(slash, FORMS, t) {
      var i :| 0 <= i < |FORMS| && t == Tag(slash, FORMS[i].before, FORMS[i].after, FORMS[i].tools);
      TagIs(slash, FORMS[i].before, FORMS[i].after, FORMS[i].tools);
    }
    if a, b, name :| a in BARS && b in BARS && name in NAMES && t == "<" + slash + a + "DSML" + b + name + ">" {
      var before, after, tools := a != BAR, b != BAR, name == "tool_calls";
      TagIs(slash, before, after, tools);
      AllForms(slash, before, after, tools);
    }
  }

  // The byte length of the longest opening tag.
  const MAX_OPEN: nat := 32

  /** A tag has its angle brackets at its ends only. */
  ghost predicate Bracketed(t: string) {
    && |t| >= 2
    && t[0] == '<' && t[|t| - 1] == '>'
    && (forall i | 0 < i < |t| :: t[i] != '<')
    && (forall i | 0 <= i < |t| - 1 :: t[i] != '>')
  }

  ghost predicate Plain(s: string) {
    '<' !in s && '>' !in s
  }

  lemma BracketedIfPlain(inner: string)
    requires Plain(inner)
    ensures Bracketed("<" + inner + ">")
  {
    var t := "<" + inner + ">";
    forall i | 0 < i < |t| ensures t[i] != '<' {
      if i < |t| - 1 {
        assert t[i] == inner[i - 1];
      }
    }
    forall i | 0 <= i < |t| - 1 ensures t[i] != '>' {
      if i > 0 {
        assert t[i] == inner[i - 1];
      }
    }
  }

  lemma TagBracketed(slash: string, before: bool, after: bool, tools: bool)
    requires slash == "" || slash == "/"
    ensures Bracketed(Tag(slash, before, after, tools))
    ensures |Tag(slash, before, after, tools)| <= MAX_OPEN
  {
    InnerPlain(slash, before, after, tools);
    BracketedIfPlain(Inner(slash, before, after, tools));
  }

  lemma InnerPlain(slash: string, before: bool, after: bool, tools: bool)
    requires slash == "" || slash == "/"
    ensures Plain(Inner(slash, before, after, tools)) && |Inner(slash, before, after, tools)| <= MAX_OPEN - 2
  {
    PlainParts(slash, before, after, tools);
    var bars, bars', name := Bars(before), Bars(after), Name(tools);
    PlainConcat(slash, bars);
    PlainConcat("DSML", bars');
    PlainConcat(slash + bars, "DSML" + bars');
    PlainConcat((slash + bars) + ("DSML" + bars'), name);
  }

  lemma PlainConcat(a: string, b: string)
    requires Plain(a) && Plain(b)
    ensures Plain(a + b)
  {
  }

  lemma PlainParts(slash: string, before: bool, after: bool, tools: bool)
    requires slash == "" || slash == "/"
    ensures Plain(slash) && Plain(Bars(before)) && Plain("DSML") && Plain(Bars(after)) && Plain(Name(tools))
    ensures |slash| <= 1 && |Bars(before)| <= 2 && |Bars(after)| <= 2 && |Name(tools)| <= 14
  {
  }

  lemma TagsBracketed(t: string)
    requires t in OPEN_TAGS || t in CLOSE_TAGS
    ensures Bracketed(t) && |t| <= MAX_OPEN
  {
    var slash := if t in OPEN_TAGS then "" else "/";
    SpellingsOf(slash, FORMS, t);
    var i :| 0 <= i < |FORMS| && t == Tag(slash, FORMS[i].before, FORMS[i].after, FORMS[i].tools);
    TagBracketed(slash, FORMS[i].before, FORMS[i].after, FORMS[i].tools);
  }

  lemma SecondOfTag(slash: string, before: bool, after: bool, tools: bool)
    requires slash == "" || slash == "/"
    ensures
      var t := Tag(slash, before, after, tools);
      |t| > 1 && t[1] == if slash == "" then BAR[0] else '/'
  {
    var opening := slash + Bars(before);
    assert opening[0] == if slash == "" then BAR[0] else '/';
    var inner := opening + ("DSML" + Bars(after)) + Name(tools);
    assert inner[0] == opening[0];
    assert ("<" + inner + ">")[1] == inner[0];
  }

  lemma SecondCharacter(slash: string, t: string)
    requires t in Spellings(slash, FORMS) && (slash == "" || slash == "/")
    ensures |t| > 1 && t[1] == if slash == "" then BAR[0] else '/'
  {
    SpellingsOf(slash, FORMS, t);
    var i :| 0 <= i < |FORMS| && t == Tag(slash, FORMS[i].before, FORMS[i].after, FORMS[i].tools);
    SecondOfTag(slash, FORMS[i].before, FORMS[i].after, FORMS[i].tools);
  }

  lemma TagsDiffer(t: string)
    ensures !(t in OPEN_TAGS && t in CLOSE_TAGS)
  {
    if t in OPEN_TAGS {
      SecondCharacter("", t);
      if t in CLOSE_TAGS {
        SecondCharacter("/", t);
      }
    }
  }

  // ---------- Finding tags ----------

  ghost predicate TagAt(text: string, start: nat, end: nat, closing: bool) {
    start <= end <= |text| && text[start..end] in if closing then CLOSE_TAGS else OPEN_TAGS
  }

  lemma TagShape(text: string, start: nat, end: nat, closing: bool)
    requires TagAt(text, start, end, closing)
    ensures start + 2 <= end <= start + MAX_OPEN
    ensures text[start] == '<' && text[end - 1] == '>'
    ensures forall i | start < i < end :: text[i] != '<'
    ensures forall i | start <= i < end - 1 :: text[i] != '>'
  {
    var t := text[start..end];
    TagsBracketed(t);
    assert forall i | start <= i < end :: text[i] == t[i - start];
  }

  /** The first tag starting at or after `from`. */
  ghost predicate FirstTag(text: string, from: nat, start: nat, end: nat, closing: bool) {
    && from <= start
    && TagAt(text, start, end, closing)
    && forall i: nat, e: nat | from <= i < start :: !TagAt(text, i, e, closing)
  }

  lemma FirstTagUnique(text: string, from: nat, start: nat, end: nat, start': nat, end': nat, closing: bool)
    requires FirstTag(text, from, start, end, closing) && FirstTag(text, from, start', end', closing)
    ensures start == start' && end == end'
  {
    TagShape(text, start, end, closing);
    TagShape(text, start', end', closing);
  }

  datatype Span = Span(start: nat, end: nat)

  ghost function FindOpen(text: string): (r: Option<Span>)
    ensures r.Some? ==>
      FirstTag(text, 0, r.value.start, r.value.end, false) && r.value.start < r.value.end <= |text|
    ensures r.None? ==> forall i: nat, e: nat :: !TagAt(text, i, e, false)
  {
    if exists s: Span :: FirstTag(text, 0, s.start, s.end, false) then
      var s: Span :| FirstTag(text, 0, s.start, s.end, false);
      TagShape(text, s.start, s.end, false);
      Some(s)
    else
      NoFirstNoTag(text, 0, false);
      None
  }

  lemma NoFirstNoTag(text: string, from: nat, closing: bool)
    requires forall s: Span :: !FirstTag(text, from, s.start, s.end, closing)
    ensures forall i: nat, e: nat | from <= i :: !TagAt(text, i, e, closing)
  {
    forall i: nat, e: nat | from <= i ensures !TagAt(text, i, e, closing) {
      if TagAt(text, i, e, closing) {
        var s := Earliest(text, from, i, e, closing);
      }
    }
  }

  lemma Earliest(text: string, from: nat, start: nat, end: nat, closing: bool) returns (s: Span)
    requires from <= start && TagAt(text, start, end, closing)
    ensures s.start <= start && FirstTag(text, from, s.start, s.end, closing)
    decreases start
  {
    if i: nat, e: nat :| from <= i < start && TagAt(text, i, e, closing) {
      s := Earliest(text, from, i, e, closing);
    } else {
      s := Span(start, end);
    }
  }

  /** Where a wrapper's opening tag starts and ends, and where its closing tag does. */
  datatype Wrapper = Wrapper(start: nat, inner: nat, outer: nat, end: nat)

  /** The first opening tag together with the first closing tag after it. */
  ghost predicate FirstWrapper(text: string, from: nat, w: Wrapper) {
    FirstTag(text, from, w.start, w.inner, false) && FirstTag(text, w.inner, w.outer, w.end, true)
  }

  ghost function FindWrapper(text: string, from: nat): (r: Option<Wrapper>)
    ensures r.Some? ==>
      && FirstWrapper(text, from, r.value)
      && from <= r.value.start < r.value.inner <= r.value.outer < r.value.end <= |text|
  {
    if exists w :: FirstWrapper(text, from, w) then
      var w :| FirstWrapper(text, from, w);
      TagShape(text, w.start, w.inner, false);
      TagShape(text, w.outer, w.end, true);
      Some(w)
    else
      None
  }

  lemma FindWrapperIs(text: string, from: nat, w: Wrapper)
    requires FirstWrapper(text, from, w)
    ensures FindWrapper(text, from) == Some(w)
  {
    var found := FindWrapper(text, from).value;
    FirstTagUnique(text, from, w.start, w.inner, found.start, found.inner, false);
    FirstTagUnique(text, w.inner, w.outer, w.end, found.outer, found.end, true);
  }

  /** An opening tag at `start` and a closing tag, after it, ending at `end`. */
  ghost predicate IsWrapper(text: string, start: nat, end: nat) {
    exists mid: nat, close: nat ::
      mid <= close && TagAt(text, start, mid, false) && TagAt(text, close, end, true)
  }

  /**
    What the wrapper pattern matches: the leftmost start that has a closing tag at all and, from there, the
    shortest reach; and nothing exactly when there is no wrapper.
   */
  lemma FindWrapperIsLeftmostShortest(text: string, from: nat, start: nat, end: nat)
    requires from <= start && IsWrapper(text, start, end)
    ensures FindWrapper(text, from).Some?
    ensures var w := FindWrapper(text, from).value;
            && IsWrapper(text, w.start, w.end)
            && w.start <= start && (w.start == start ==> w.end <= end)
  {
    var mid: nat, close: nat :| mid <= close && TagAt(text, start, mid, false) && TagAt(text, close, end, true);
    TagShape(text, start, mid, false);
    TagShape(text, close, end, true);
    var o := Earliest(text, from, start, mid, false);
    TagShape(text, o.start, o.end, false);
    assert o.end <= mid;
    var c := Earliest(text, o.end, close, end, true);
    TagShape(text, c.start, c.end, true);
    FindWrapperIs(text, from, Wrapper(o.start, o.end, c.start, c.end));
  }

  // ---------- The pattern engine ----------

  /** Looks for a tag at one position: it can only end at the first closing bracket. */
  method MatchTag(text: string, start: nat, closing: bool) returns (end: Option<nat>)
    requires start <= |text|
    ensures end.Some? ==> TagAt(text, start, end.value, closing)
    ensures end.None? ==> forall e: nat :: !TagAt(text, start, e, closing)
  {
    var i := start;
    while i < |text| && text[i] != '>'
      invariant start <= i <= |text|
      invariant forall k | start <= k < i :: text[k] != '>'
    {
      i := i + 1;
    }
    var tags := if closing then CLOSE_TAGS else OPEN_TAGS;
    end := if i < |text| && text[start..i + 1] in tags then Some(i + 1) else None;
    forall e: nat | TagAt(text, start, e, closing) ensures end == Some(e) {
      TagShape(text, start, e, closing);
    }
  }

  method MatchFirst(text: string, from: nat, closing: bool) returns (found: Option<Span>)
    requires from <= |text|
    ensures found.Some? ==> FirstTag(text, from, found.value.start, found.value.end, closing)
    ensures found.None? ==> forall i: nat, e: nat | from <= i :: !TagAt(text, i, e, closing)
  {
    for at := from to |text| + 1
      invariant forall i: nat, e: nat | from <= i < at :: !TagAt(text, i, e, closing)
    {
      var end := MatchTag(text, at, closing);
      if end.Some? {
        return Some(Span(at, end.value));
      }
    }
    return None;
  }

  method MatchOpen(text: string) returns (found: Option<Span>)
    ensures found == FindOpen(text)
  {
    found := MatchFirst(text, 0, false);
    if found.Some? && FindOpen(text).Some? {
      var s := FindOpen(text).value;
      FirstTagUnique(text, 0, found.value.start, found.value.end, s.start, s.end, false);
    }
  }

  method MatchWrapper(text: string, from: nat) returns (found: Option<Wrapper>)
    requires from <= |text|
    ensures found == FindWrapper(text, from)
  {
    found := None;
    var start := MatchFirst(text, from, false);
    if start.Some? {
      var shut := MatchFirst(text, start.value.end, true);
      if shut.Some? {
        found := Some(Wrapper(start.value.start, start.value.end, shut.value.start, shut.value.end));
        FindWrapperIs(text, from, found.value);
      } else if FindWrapper(text, from).Some? {
        var w := FindWrapper(text, from).value;
        FirstTagUnique(text, from, w.start, w.inner, start.value.start, start.value.end, false);
        assert false;
      }
    }
  }

  // ---------- One-shot segmentation ----------

  datatype Call = Call(name: string, input: Json)

  datatype Segment = TextSegment(text: string) | ToolSegment(call: Call)

  /** Which calls a wrapper region holds; none when any part of it is not a known, well-formed call. */
  type Parser = string -> seq<Call>

  function Tools(calls: seq<Call>): seq<Segment> {
    seq(|calls|, i requires 0 <= i < |calls| => ToolSegment(calls[i]))
  }

  function TextIfAny(text: string): seq<Segment> {
    if text == "" then [] else [TextSegment(text)]
  }

  /** The segments of text[pos..], when no wrapper that starts before `from` is still to be looked at. */
  ghost function SegmentsFrom(text: string, parse: Parser, pos: nat, from: nat): seq<Segment>
    requires pos <= from <= |text|
    decreases |text| - from
  {
    match FindWrapper(text, from)
    case None => TextIfAny(text[pos..])
    case Some(w) =>
      var calls := parse(text[w.start..w.end]);
      if calls == [] then SegmentsFrom(text, parse, pos, w.end)
      else TextIfAny(text[pos..w.start]) + Tools(calls) + SegmentsFrom(text, parse, w.end, w.end)
  }

  ghost function Segments(text: string, parse: Parser): seq<Segment> {
    SegmentsFrom(text, parse, 0, 0)
  }

  lemma SegmentsStep(done: seq<Segment>, text: string, parse: Parser, pos: nat, from: nat)
    requires pos <= from <= |text| && FindWrapper(text, from).Some?
    ensures
      var w := FindWrapper(text, from).value;
      var calls := parse(text[w.start..w.end]);
      done + SegmentsFrom(text, parse, pos, from)
      == if calls == [] then done + SegmentsFrom(text, parse, pos, w.end)
         else done + TextIfAny(text[pos..w.start]) + Tools(calls) + SegmentsFrom(text, parse, w.end, w.end)
  {
    var w := FindWrapper(text, from).value;
    var calls := parse(text[w.start..w.end]);
    if calls != [] {
      Regroup(done, TextIfAny(text[pos..w.start]), Tools(calls), SegmentsFrom(text, parse, w.end, w.end));
    }
  }

  lemma Regroup<T>(a: seq<T>, b: seq<T>, c: seq<T>, d: seq<T>)
    ensures a + (b + c + d) == a + b + c + d
  {
  }

  method SegmentDsmlText(text: string, parse: Parser) returns (segments: seq<Segment>)
    ensures segments == Segments(text, parse)
  {
    segments := [];
    if text == "" {
      return;
    }
    var pos: nat, from: nat := 0, 0;
    var wrapper := MatchWrapper(text, 0);
    while wrapper.Some?
      invariant pos <= from <= |text| && wrapper == FindWrapper(text, from)
      invariant segments + SegmentsFrom(text, parse, pos, from) == Segments(text, parse)
      invariant segments == [] ==> pos == 0
      decreases |text| - from
    {
      var w := wrapper.value;
      var calls := parse(text[w.start..w.end]);
      SegmentsStep(segments, text, parse, pos, from);
      if calls != [] {
        segments := segments + TextIfAny(text[pos..w.start]) + Tools(calls);
        pos := w.end;
      }
      from := w.end;
      wrapper := MatchWrapper(text, from);
    }
    segments := segments + TextIfAny(text[pos..]);
    if segments == [] {
      segments := [TextSegment(text)];
    }
  }
}
