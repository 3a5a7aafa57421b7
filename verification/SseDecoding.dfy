/** The upstream decoder: a byte at a time into lines, and lines into events between blank lines. */
module SseDecoding {
  import opened Wrappers
  import Sequences
  import opened Bytes
  import opened JsonValues

  const MAX_EVENT_BYTES: nat := 8 * 1024 * 1024
  const COLON: byte := 58

  /** Reads the lines of one event; none if they are not UTF-8, hold no data, or no JSON. */
  type Parser = seq<byte> -> Option<Json>

  datatype Problem = TooLarge | Unreadable

  datatype State = State(pending: seq<byte>, event: seq<byte>)

  const Empty := State([], [])

  function Stripped(line: seq<byte>): seq<byte> {
    if line != [] && line[|line| - 1] == CR then line[..|line| - 1] else line
  }

  /** A line ends an event, is a comment, or belongs to the event. */
  function OnLine(parse: Parser, event: seq<byte>, line: seq<byte>): Result<(seq<byte>, Option<Json>), Problem> {
    if line == [] then
      if event == [] then Ok(([], None))
      else if parse(event).None? then Err(Unreadable)
      else Ok(([], parse(event)))
    else if line[0] == COLON then Ok((event, None))
    else if |event| + |line| + 1 > MAX_EVENT_BYTES then Err(TooLarge)
    else Ok((event + line + [LF], None))
  }

  function OnByte(parse: Parser, st: State, b: byte): Result<(State, Option<Json>), Problem> {
    if b == LF then
      match OnLine(parse, st.event, Stripped(st.pending))
      case Err(e) => Err(e)
      case Ok((event, out)) =>
        if out.None? && |event| > MAX_EVENT_BYTES then Err(TooLarge) else Ok((State([], event), out))
    else if |st.pending| + 1 + |st.event| > MAX_EVENT_BYTES then Err(TooLarge)
    else Ok((st.(pending := st.pending + [b]), None))
  }

  function OutOf(out: Option<Json>): seq<Json> {
    if out.Some? then [out.value] else []
  }

  datatype Progress = Progress(st: State, events: seq<Json>)

  function AndByte(parse: Parser, r: Result<Progress, Problem>, b: byte): Result<Progress, Problem> {
    if r.Err? then r
    else
      match OnByte(parse, r.value.st, b)
      case Err(e) => Err(e)
      case Ok((st, out)) => Ok(Progress(st, r.value.events + OutOf(out)))
  }

  function OnBytes(parse: Parser, st: State, bytes: seq<byte>): Result<Progress, Problem> {
    if bytes == [] then Ok(Progress(st, []))
    else AndByte(parse, OnBytes(parse, st, bytes[..|bytes| - 1]), bytes[|bytes| - 1])
  }

  // ---------- Chunks ----------

  function Prepend(events: seq<Json>, r: Result<Progress, Problem>): Result<Progress, Problem> {
    if r.Err? then r else Ok(r.value.(events := events + r.value.events))
  }

  /** Goes on from where a first piece led. */
  function Resume(parse: Parser, r: Result<Progress, Problem>, bytes: seq<byte>): Result<Progress, Problem> {
    if r.Err? then r else Prepend(r.value.events, OnBytes(parse, r.value.st, bytes))
  }

  lemma OnBytesSnoc(parse: Parser, st: State, bytes: seq<byte>, b: byte)
    ensures OnBytes(parse, st, bytes + [b]) == AndByte(parse, OnBytes(parse, st, bytes), b)
  {
    assert (bytes + [b])[..|bytes|] == bytes;
  }

  lemma PrependByte(parse: Parser, events: seq<Json>, r: Result<Progress, Problem>, b: byte)
    ensures AndByte(parse, Prepend(events, r), b) == Prepend(events, AndByte(parse, r, b))
  {
    if r.Ok? && OnByte(parse, r.value.st, b).Ok? {
      var out := OutOf(OnByte(parse, r.value.st, b).value.1);
      assert events + r.value.events + out == events + (r.value.events + out);
    }
  }

  lemma PrependNothing(r: Result<Progress, Problem>)
    ensures r.Ok? ==> Prepend(r.value.events, Ok(Progress(r.value.st, []))) == r
    ensures Prepend([], r) == r
  {
    if r.Ok? {
      assert r.value.events + [] == r.value.events && [] + r.value.events == r.value.events;
    }
  }

  /** Feeding in two pieces gives the events, state or error of feeding at once. */
  lemma {:induction false} AnySplitAgrees(parse: Parser, st: State, a: seq<byte>, b: seq<byte>)
    ensures OnBytes(parse, st, a + b) == Resume(parse, OnBytes(parse, st, a), b)
  {
    var first := OnBytes(parse, st, a);
    if b == [] {
      assert a + b == a;
      PrependNothing(first);
    } else {
      var short, x := b[..|b| - 1], b[|b| - 1];
      AnySplitAgrees(parse, st, a, short);
      OnBytesSnoc(parse, st, a + short, x);
      Sequences.LastMoved(a, b);
      if first.Ok? {
        PrependByte(parse, first.value.events, OnBytes(parse, first.value.st, short), x);
      }
    }
  }

  /** What is held never exceeds the bound of one event, however much was fed. */
  lemma {:induction false} HeldIsBounded(parse: Parser, st: State, bytes: seq<byte>)
    requires |st.pending| + |st.event| <= MAX_EVENT_BYTES
    ensures
      var r := OnBytes(parse, st, bytes);
      r.Ok? ==> |r.value.st.pending| + |r.value.st.event| <= MAX_EVENT_BYTES
  {
    if bytes != [] {
      HeldIsBounded(parse, st, bytes[..|bytes| - 1]);
    }
  }

  // ---------- The reference: lines, and groups of lines ----------

  /** Complete lines as they came, and what follows the last line feed. */
  function Lines(bytes: seq<byte>): (seq<seq<byte>>, seq<byte>) {
    if bytes == [] then ([], [])
    else
      var (lines, tail) := Lines(bytes[..|bytes| - 1]);
      var b := bytes[|bytes| - 1];
      if b == LF then (lines + [tail], []) else (lines, tail + [b])
  }

  function Unlines(lines: seq<seq<byte>>): seq<byte> {
    if lines == [] then [] else Unlines(lines[..|lines| - 1]) + lines[|lines| - 1] + [LF]
  }

  lemma {:induction false} LinesAreTheBytes(bytes: seq<byte>)
    ensures var (lines, tail) := Lines(bytes); Unlines(lines) + tail == bytes && LF !in tail
    ensures forall line | line in Lines(bytes).0 :: LF !in line
  {
    if bytes != [] {
      var (lines, tail) := Lines(bytes[..|bytes| - 1]);
      var b := bytes[|bytes| - 1];
      LinesAreTheBytes(bytes[..|bytes| - 1]);
      assert bytes == bytes[..|bytes| - 1] + [b];
      if b == LF {
        assert (lines + [tail])[..|lines|] == lines;
        assert Unlines(lines) + tail + [LF] + [] == bytes;
      } else {
        assert Unlines(lines) + (tail + [b]) == bytes;
      }
    }
  }

  predicate IsBlankLine(line: seq<byte>) {
    Stripped(line) == []
  }

  /** What a line that is not blank adds to its event: nothing if it is a comment. */
  function Kept(line: seq<byte>): seq<byte>
    requires !IsBlankLine(line)
  {
    if Stripped(line)[0] == COLON then [] else Stripped(line) + [LF]
  }

  datatype Grouping = Grouping(done: seq<seq<byte>>, last: seq<byte>)

  function AndLine(g: Grouping, line: seq<byte>): Grouping {
    if !IsBlankLine(line) then g.(last := g.last + Kept(line))
    else Grouping(if g.last == [] then g.done else g.done + [g.last], [])
  }

  /** The events that blank lines complete, and the one still open. */
  function Groups(lines: seq<seq<byte>>): Grouping {
    if lines == [] then Grouping([], []) else AndLine(Groups(lines[..|lines| - 1]), lines[|lines| - 1])
  }

  lemma GroupsSnoc(lines: seq<seq<byte>>, line: seq<byte>)
    ensures Groups(lines + [line]) == AndLine(Groups(lines), line)
  {
    assert (lines + [line])[..|lines|] == lines;
  }

  /** A blank line separates what is before it from what is after. */
  lemma {:induction false} BlankLineSeparates(a: seq<seq<byte>>, blank: seq<byte>, b: seq<seq<byte>>)
    requires IsBlankLine(blank)
    ensures
      var before := AndLine(Groups(a), blank).done;
      Groups(a + [blank] + b) == Groups(b).(done := before + Groups(b).done)
  {
    GroupsSnoc(a, blank);
    var before := AndLine(Groups(a), blank).done;
    if b == [] {
      assert a + [blank] + b == a + [blank];
      assert before + [] == before;
    } else {
      var short, line := b[..|b| - 1], b[|b| - 1];
      BlankLineSeparates(a, blank, short);
      GroupsSnoc(a + [blank] + short, line);
      LastMoved(a + [blank], b);
      LaterLine(before, Groups(short), line);
    }
  }

  lemma LastMoved<T>(a: seq<T>, b: seq<T>)
    requires b != []
    ensures a + b[..|b| - 1] + [b[|b| - 1]] == a + b
  {
  }

  lemma LaterLine(before: seq<seq<byte>>, g: Grouping, line: seq<byte>)
    ensures AndLine(g.(done := before + g.done), line) == (var g' := AndLine(g, line); g'.(done := before + g'.done))
  {
    if IsBlankLine(line) && g.last != [] {
      assert before + g.done + [g.last] == before + (g.done + [g.last]);
    }
  }

  /** Without blank lines there is one open event: the lines that are not comments, in order. */
  lemma {:induction false} NoBlankLineNoEvent(lines: seq<seq<byte>>)
    requires forall line | line in lines :: !IsBlankLine(line)
    ensures Groups(lines).done == []
    ensures lines != [] ==> Groups(lines).last == Groups(lines[..|lines| - 1]).last + Kept(lines[|lines| - 1])
  {
    if lines != [] {
      assert lines[|lines| - 1] in lines;
      NoBlankLineNoEvent(lines[..|lines| - 1]);
    }
  }

  /** The events a byte stream completes, and what it leaves open. */
  datatype Reading = Reading(done: seq<seq<byte>>, held: State)

  function Reference(bytes: seq<byte>): Reading {
    var (lines, tail) := Lines(bytes);
    Reading(Groups(lines).done, State(tail, Groups(lines).last))
  }

  function ReadByte(r: Reading, b: byte): Reading {
    if b != LF then r.(held := r.held.(pending := r.held.pending + [b]))
    else
      var g := AndLine(Grouping(r.done, r.held.event), r.held.pending);
      Reading(g.done, State([], g.last))
  }

  ghost predicate AllParse(parse: Parser, groups: seq<seq<byte>>) {
    forall i | 0 <= i < |groups| :: parse(groups[i]).Some?
  }

  function Parsed(parse: Parser, groups: seq<seq<byte>>): seq<Json>
    requires AllParse(parse, groups)
  {
    seq(|groups|, i requires 0 <= i < |groups| => parse(groups[i]).value)
  }

  predicate Bounded(held: State) {
    |held.pending| + |held.event| <= MAX_EVENT_BYTES
  }

  /** At every byte, the open event and the open line together fit the bound. */
  ghost predicate Fits(bytes: seq<byte>) {
    forall k | 0 <= k <= |bytes| :: Bounded(Reference(bytes[..k]).held)
  }

  lemma ReferenceSnoc(bytes: seq<byte>)
    requires bytes != []
    ensures Reference(bytes) == ReadByte(Reference(bytes[..|bytes| - 1]), bytes[|bytes| - 1])
  {
    var (lines, tail) := Lines(bytes[..|bytes| - 1]);
    GroupsSnoc(lines, tail);
  }

  lemma FitsBefore(bytes: seq<byte>)
    requires bytes != []
    ensures Fits(bytes) <==> Fits(bytes[..|bytes| - 1]) && Bounded(Reference(bytes).held)
  {
    var short := bytes[..|bytes| - 1];
    assert bytes[..|bytes|] == bytes;
    forall k | 0 <= k <= |short| ensures short[..k] == bytes[..k] {
    }
    if Fits(bytes) {
      forall k | 0 <= k <= |short| ensures Bounded(Reference(short[..k]).held) {
        assert short[..k] == bytes[..k];
      }
    }
    if Fits(short) && Bounded(Reference(bytes).held) {
      forall k | 0 <= k <= |bytes| ensures Bounded(Reference(bytes[..k]).held) {
        if k < |bytes| {
          assert short[..k] == bytes[..k];
        }
      }
    }
  }

  /** What decoding comes to, by the reference. */
  ghost predicate Decodes(parse: Parser, r: Result<Progress, Problem>, fits: bool, reading: Reading) {
    && (r.Ok? <==> fits && AllParse(parse, reading.done))
    && (r.Ok? ==> r == Ok(Progress(reading.held, Parsed(parse, reading.done))))
  }

  /** The decoder succeeds exactly when everything fits and parses, and then yields the groups of lines, parsed. */
  lemma {:induction false} DecodesGroups(parse: Parser, bytes: seq<byte>)
    ensures Decodes(parse, OnBytes(parse, Empty, bytes), Fits(bytes), Reference(bytes))
  {
    if bytes == [] {
      assert bytes[..0] == [] && Parsed(parse, []) == [];
    } else {
      DecodesGroups(parse, bytes[..|bytes| - 1]);
      ReferenceSnoc(bytes);
      FitsBefore(bytes);
      var short := bytes[..|bytes| - 1];
      DecodeByte(parse, OnBytes(parse, Empty, short), Fits(short), Reference(short), bytes[|bytes| - 1]);
    }
  }

  lemma DecodeByte(parse: Parser, r: Result<Progress, Problem>, fits: bool, reading: Reading, b: byte)
    requires Decodes(parse, r, fits, reading)
    ensures
      var next := ReadByte(reading, b);
      Decodes(parse, AndByte(parse, r, b), fits && Bounded(next.held), next)
  {
    var held, next := reading.held, ReadByte(reading, b);
    if b == LF && IsBlankLine(held.pending) && held.event != [] {
      ParsedSnoc(parse, reading.done, held.event);
    } else {
      assert next.done == reading.done;
      if AllParse(parse, reading.done) {
        assert Parsed(parse, reading.done) + [] == Parsed(parse, reading.done);
      }
      if b == LF {
        QuietLine(parse, held);
      }
    }
  }

  lemma QuietLine(parse: Parser, held: State)
    requires !IsBlankLine(held.pending) || held.event == []
    ensures
      var g := AndLine(Grouping([], held.event), held.pending);
      && (OnByte(parse, held, LF).Ok? <==> |g.last| <= MAX_EVENT_BYTES)
      && (OnByte(parse, held, LF).Ok? ==> OnByte(parse, held, LF) == Ok((State([], g.last), None)))
  {
    if !IsBlankLine(held.pending) {
      var line := Stripped(held.pending);
      assert held.event + line + [LF] == held.event + (line + [LF]);
      assert held.event + [] == held.event;
    }
  }

  lemma ParsedSnoc(parse: Parser, groups: seq<seq<byte>>, g: seq<byte>)
    ensures AllParse(parse, groups + [g]) <==> AllParse(parse, groups) && parse(g).Some?
    ensures AllParse(parse, groups + [g]) ==> Parsed(parse, groups + [g]) == Parsed(parse, groups) + [parse(g).value]
  {
    if AllParse(parse, groups + [g]) {
      assert forall i | 0 <= i < |groups| :: (groups + [g])[i] == groups[i];
      assert (groups + [g])[|groups|] == g;
    }
  }

  /** What is left at the end of the bytes: an open line counts as complete, and an open event as ended. */
  function Ended(parse: Parser, st: State): Result<seq<Json>, Problem> {
    var line: Result<(seq<byte>, Option<Json>), Problem> :=
      if st.pending == [] then Ok((st.event, None)) else OnLine(parse, st.event, st.pending);
    match line
    case Err(e) => Err(e)
    case Ok((last, _)) =>
      if last == [] then Ok([]) else if parse(last).None? then Err(Unreadable) else Ok([parse(last).value])
  }

  // ---------- The object ----------

  class SseDecoder {
    const parse: Parser
    var pending: seq<byte>
    var event: seq<byte>

    constructor (parse: Parser)
      ensures this.parse == parse && View() == Empty
    {
      this.parse, pending, event := parse, [], [];
    }

    ghost function View(): State
      reads this
    {
      State(pending, event)
    }

    method ProcessLine(line: seq<byte>) returns (r: Result<Option<Json>, Problem>)
      modifies this`event
      ensures
        match OnLine(parse, old(event), line)
        case Err(e) => r == Err(e)
        case Ok((after, out)) => r == Ok(out) && event == after
    {
      if line == [] {
        if event == [] {
          return Ok(None);
        }
        var parsed := parse(event);
        if parsed.None? {
          return Err(Unreadable);
        }
        event := [];
        return Ok(parsed);
      }
      if line[0] == COLON {
        return Ok(None);
      }
      if |event| + |line| + 1 > MAX_EVENT_BYTES {
        return Err(TooLarge);
      }
      event := event + line + [LF];
      r := Ok(None);
    }

    /** Reads up to and including the byte that completes an event, or everything. */
    method FeedNext(bytes: seq<byte>) returns (r: Result<(Option<Json>, nat), Problem>)
      modifies this
      ensures r.Err? ==> OnBytes(parse, old(View()), bytes).Err?
      ensures r.Ok? ==>
        var (out, consumed) := r.value;
        && consumed <= |bytes| && (bytes != [] ==> consumed > 0) && (out.None? ==> consumed == |bytes|)
        && OnBytes(parse, old(View()), bytes[..consumed]) == Ok(Progress(View(), OutOf(out)))
    {
      for i := 0 to |bytes|
        invariant OnBytes(parse, old(View()), bytes[..i]) == Ok(Progress(View(), []))
      {
        ByteByByte(parse, old(View()), bytes, i, View());
        if bytes[i] == LF {
          var line := Stripped(pending);
          pending := [];
          var processed := ProcessLine(line);
          if processed.Err? {
            return Err(processed.error);
          }
          assert [] + OutOf(processed.value) == OutOf(processed.value);
          if processed.value.Some? {
            return Ok((processed.value, i + 1));
          }
        } else {
          pending := pending + [bytes[i]];
        }
        if |pending| + |event| > MAX_EVENT_BYTES {
          return Err(TooLarge);
        }
      }
      assert bytes[..|bytes|] == bytes;
      r := Ok((None, |bytes|));
    }

    method Feed(bytes: seq<byte>) returns (r: Result<seq<Json>, Problem>)
      modifies this
      ensures
        match OnBytes(parse, old(View()), bytes)
        case Err(_) => r.Err?
        case Ok(p) => r == Ok(p.events) && View() == p.st
    {
      var out, rest := [], bytes;
      ghost var st0 := View();
      PrependNothing(OnBytes(parse, st0, bytes));
      while rest != []
        invariant Remaining(parse, st0, bytes, View(), out, rest)
        decreases |rest|
      {
        ghost var st := View();
        var next := FeedNext(rest);
        if next.Err? {
          return Err(next.error);
        }
        var (event, consumed) := next.value;
        RemainingLater(parse, st0, bytes, st, out, rest, consumed, View(), OutOf(event));
        rest := rest[consumed..];
        out := out + OutOf(event);
      }
      Sequences.ConcatEmpty(out);
      r := Ok(out);
    }

    /** At the end of the bytes an open line counts as complete, and an open event as ended. */
    method Finish() returns (r: Result<seq<Json>, Problem>)
      modifies this
      ensures r == Ended(parse, old(View()))
    {
      if pending != [] {
        var line := pending;
        pending := [];
        var processed := ProcessLine(line);
        if processed.Err? {
          return Err(processed.error);
        }
      }
      if event == [] {
        return Ok([]);
      }
      var parsed := parse(event);
      if parsed.None? {
        return Err(Unreadable);
      }
      event := [];
      r := Ok([parsed.value]);
    }
  }

  /** Feeding all the bytes comes to what feeding the rest comes to, after the events so far. */
  ghost predicate Remaining(
    parse: Parser, st0: State, bytes: seq<byte>, st: State, out: seq<Json>, rest: seq<byte>)
  {
    OnBytes(parse, st0, bytes) == Prepend(out, OnBytes(parse, st, rest))
  }

  lemma RemainingLater(
    parse: Parser, st0: State, bytes: seq<byte>, st: State, out: seq<Json>, rest: seq<byte>, n: nat, st': State,
    more: seq<Json>)
    requires Remaining(parse, st0, bytes, st, out, rest) && n <= |rest|
    requires OnBytes(parse, st, rest[..n]) == Ok(Progress(st', more))
    ensures Remaining(parse, st0, bytes, st', out + more, rest[n..])
  {
    Sequences.Cut(rest, n);
    AnySplitAgrees(parse, st, rest[..n], rest[n..]);
    PrependTwice(out, more, OnBytes(parse, st', rest[n..]));
  }

  lemma PrependTwice(a: seq<Json>, b: seq<Json>, r: Result<Progress, Problem>)
    ensures Prepend(a, Prepend(b, r)) == Prepend(a + b, r)
  {
    if r.Ok? {
      Sequences.Associate(a, b, r.value.events);
    }
  }

  lemma ByteByByte(parse: Parser, st: State, bytes: seq<byte>, i: nat, mid: State)
    requires i < |bytes| && OnBytes(parse, st, bytes[..i]) == Ok(Progress(mid, []))
    ensures OnBytes(parse, st, bytes[..i + 1]) == AndByte(parse, Ok(Progress(mid, [])), bytes[i])
    ensures OnByte(parse, mid, bytes[i]).Err? ==> OnBytes(parse, st, bytes).Err?
  {
    Sequences.NextPrefix(bytes, i);
    OnBytesSnoc(parse, st, bytes[..i], bytes[i]);
    Sequences.Cut(bytes, i + 1);
    AnySplitAgrees(parse, st, bytes[..i + 1], bytes[i + 1..]);
  }
}
