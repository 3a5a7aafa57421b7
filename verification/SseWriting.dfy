/** Streams as an upstream writes them, and that decoding gives back just the events written. */
module SseWriting {
  // Lines may end in a line feed or in a carriage return and a line feed; comments may stand anywhere.

  import opened Wrappers
  import Sequences
  import opened Bytes
  import opened JsonValues
  import opened SseDecoding

  /** A line of an event, a comment, or the blank line that ends an event; `crlf` if it ends in both characters. */
  datatype Line = Data(text: seq<byte>, crlf: bool) | Remark(text: seq<byte>, crlf: bool) | Blank(crlf: bool)

  function Ending(crlf: bool): seq<byte> {
    if crlf then [CR, LF] else [LF]
  }

  function BodyOf(l: Line): seq<byte> {
    if l.Blank? then [] else l.text
  }

  function Written(l: Line): seq<byte> {
    BodyOf(l) + Ending(l.crlf)
  }

  function WrittenAll(ls: seq<Line>): seq<byte> {
    if ls == [] then [] else WrittenAll(ls[..|ls| - 1]) + Written(ls[|ls| - 1])
  }

  /** No line feed inside; a comment begins with a colon, and a line of an event does not. */
  predicate IsLine(l: Line) {
    !l.Blank? ==>
      && l.text != [] && LF !in l.text && (l.Remark? <==> l.text[0] == 58)
      && (l.text[|l.text| - 1] == CR ==> l.crlf)
  }

  ghost predicate AreLines(ls: seq<Line>) {
    forall i | 0 <= i < |ls| :: IsLine(ls[i])
  }

  /** The events that blank lines end, each its lines with a line feed after each, and what is still open. */
  datatype Said = Said(events: seq<seq<byte>>, open: seq<byte>)

  function Saying(s: Said, l: Line): Said {
    match l
    case Data(text, _) => s.(open := s.open + text + [10])
    case Remark(_, _) => s
    case Blank(_) => if s.open == [] then s else Said(s.events + [s.open], [])
  }

  function SaidBy(ls: seq<Line>): Said {
    if ls == [] then Said([], []) else Saying(SaidBy(ls[..|ls| - 1]), ls[|ls| - 1])
  }

  lemma {:induction false} LinesOn(bytes: seq<byte>, more: seq<byte>)
    requires LF !in more
    ensures Lines(bytes + more) == (Lines(bytes).0, Lines(bytes).1 + more)
  {
    if more == [] {
      Sequences.ConcatEmpty(bytes);
      Sequences.ConcatEmpty(Lines(bytes).1);
    } else {
      var short, last := more[..|more| - 1], more[|more| - 1];
      LinesOn(bytes, short);
      Sequences.ConcatLast(bytes, more);
      Sequences.Snoc(bytes + short, last);
      Sequences.Associate(Lines(bytes).1, short, [last]);
      Sequences.Unsnoc(more);
    }
  }

  lemma LineFeed(bytes: seq<byte>)
    ensures Lines(bytes + [LF]) == (Lines(bytes).0 + [Lines(bytes).1], [])
  {
    Sequences.Snoc(bytes, LF);
  }

  function Raw(l: Line): seq<byte> {
    BodyOf(l) + (if l.crlf then [CR] else [])
  }

  lemma RawIsLine(l: Line)
    requires IsLine(l)
    ensures Written(l) == Raw(l) + [LF] && LF !in Raw(l) && Stripped(Raw(l)) == BodyOf(l)
  {
    var text := BodyOf(l);
    if l.crlf {
      assert text + [CR] + [LF] == text + [CR, LF];
      assert (text + [CR])[..|text|] == text;
    } else {
      Sequences.ConcatEmpty(text);
    }
  }

  lemma WrittenLine(bytes: seq<byte>, l: Line)
    requires IsLine(l) && Lines(bytes).1 == []
    ensures Lines(bytes + Written(l)) == (Lines(bytes).0 + [Raw(l)], [])
  {
    RawIsLine(l);
    LinesOn(bytes, Raw(l));
    LineFeed(bytes + Raw(l));
    Sequences.Associate(bytes, Raw(l), [LF]);
    assert [] + Raw(l) == Raw(l);
  }

  lemma GroupedAsSaid(g: Grouping, s: Said, l: Line)
    requires IsLine(l) && g == Grouping(s.events, s.open)
    ensures var s' := Saying(s, l); AndLine(g, Raw(l)) == Grouping(s'.events, s'.open)
  {
    RawIsLine(l);
    if l.Data? {
      Sequences.Associate(s.open, l.text, [LF]);
    } else if l.Remark? {
      Sequences.ConcatEmpty(s.open);
    }
  }

  /** The reference reads what was written. */
  lemma {:induction false} ReadsAsSaid(ls: seq<Line>)
    requires AreLines(ls)
    ensures Reference(WrittenAll(ls)) == Reading(SaidBy(ls).events, State([], SaidBy(ls).open))
  {
    if ls != [] {
      var short, last := ls[..|ls| - 1], ls[|ls| - 1];
      ReadsAsSaid(short);
      WrittenLine(WrittenAll(short), last);
      GroupsSnoc(Lines(WrittenAll(short)).0, Raw(last));
      GroupedAsSaid(Groups(Lines(WrittenAll(short)).0), SaidBy(short), last);
    }
  }

  /**
    Decoding what was written, cut into bytes as it comes, succeeds exactly if every event that was ended is readable
    and nothing outgrows the bound; then it yields just those events, in order.
   */
  lemma WrittenIsDecoded(parse: Parser, ls: seq<Line>)
    requires AreLines(ls)
    ensures
      var r, said := OnBytes(parse, Empty, WrittenAll(ls)), SaidBy(ls);
      && (r.Ok? <==> Fits(WrittenAll(ls)) && forall i | 0 <= i < |said.events| :: parse(said.events[i]).Some?)
      && (r.Ok? ==>
        && |r.value.events| == |said.events|
        && (forall i | 0 <= i < |said.events| :: Some(r.value.events[i]) == parse(said.events[i]))
        && r.value.st == State([], said.open))
  {
    ReadsAsSaid(ls);
    DecodesGroups(parse, WrittenAll(ls));
  }

  function LineOf(raw: seq<byte>): Line {
    if raw != [] && raw[|raw| - 1] == CR then Bodied(raw[..|raw| - 1], true) else Bodied(raw, false)
  }

  function Bodied(text: seq<byte>, crlf: bool): Line {
    if text == [] then Blank(crlf) else if text[0] == 58 then Remark(text, crlf) else Data(text, crlf)
  }

  lemma LineOfIs(raw: seq<byte>)
    requires LF !in raw
    ensures IsLine(LineOf(raw)) && Written(LineOf(raw)) == raw + [LF]
  {
    if raw != [] && raw[|raw| - 1] == CR {
      var text := raw[..|raw| - 1];
      assert raw == text + [CR];
      assert text + [CR, LF] == raw + [LF];
    }
  }

  /** Any bytes that end in a line feed were written so. */
  lemma {:induction false} AnythingIsWritten(lines: seq<seq<byte>>) returns (ls: seq<Line>)
    requires forall line | line in lines :: LF !in line
    ensures AreLines(ls) && WrittenAll(ls) == Unlines(lines)
  {
    if lines == [] {
      ls := [];
    } else {
      var short, last := lines[..|lines| - 1], lines[|lines| - 1];
      var before := AnythingIsWritten(short);
      LineOfIs(last);
      ls := before + [LineOf(last)];
      Sequences.Snoc(before, LineOf(last));
      Sequences.Associate(Unlines(short), last, [LF]);
    }
  }

  /** At the end of the bytes an open line and event count as if line feeds had ended them. */
  lemma EndIsTwoLineFeeds(parse: Parser, st: State)
    requires st.pending == [] || st.pending[|st.pending| - 1] != CR
    ensures OnBytes(parse, st, [LF, LF]).Ok? ==> Ended(parse, st) == Ok(OnBytes(parse, st, [LF, LF]).value.events)
    ensures Ended(parse, st).Ok? && |st.pending| + |st.event| < MAX_EVENT_BYTES ==> OnBytes(parse, st, [LF, LF]).Ok?
  {
    assert [] + [LF] == [LF] && [LF] + [LF] == [LF, LF];
    OnBytesSnoc(parse, st, [], LF);
    OnBytesSnoc(parse, st, [LF], LF);
    assert OnBytes(parse, st, []) == Ok(Progress(st, []));
    assert Stripped(st.pending) == st.pending;
    var first := OnByte(parse, st, LF);
    if first.Ok? {
      var (mid, out) := first.value;
      assert [] + OutOf(out) == OutOf(out);
      assert OnBytes(parse, st, [LF]) == Ok(Progress(mid, OutOf(out)));
      SecondLineFeed(parse, mid, OutOf(out));
    }
  }

  lemma SecondLineFeed(parse: Parser, mid: State, events: seq<Json>)
    requires mid.pending == []
    ensures
      var r := AndByte(parse, Ok(Progress(mid, events)), LF);
      if mid.event == [] then r == Ok(Progress(mid, events))
      else if parse(mid.event).None? then r.Err?
      else r == Ok(Progress(Empty, events + [parse(mid.event).value]))
    ensures forall x: Json :: [] + [x] == [x]
  {
    Sequences.ConcatEmpty(events);
  }
}
