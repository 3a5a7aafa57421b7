/** Spaced JSON text, token by token. */
module JsonTokens {
  // String literals stay as they are; of the characters outside them, commas and colons get a space after them.

  import Sequences
  import opened JsonSpacing

  /** Inside a string literal: a character, or one after a backslash. */
  datatype Unit = Bare(c: char) | Escape(c: char)

  /** A character outside string literals, or a string literal (section 7 of RFC 8259). */
  datatype Token = Outer(c: char) | Literal(units: seq<Unit>)

  predicate IsUnit(u: Unit) {
    u.Bare? ==> u.c != '"' && u.c != '\\'
  }

  predicate IsToken(t: Token) {
    match t
    case Outer(c) => c != '"'
    case Literal(units) => forall i | 0 <= i < |units| :: IsUnit(units[i])
  }

  function UnitText(u: Unit): string {
    match u case Bare(c) => [c] case Escape(c) => ['\\', c]
  }

  function UnitsText(units: seq<Unit>): string {
    if units == [] then "" else UnitsText(units[..|units| - 1]) + UnitText(units[|units| - 1])
  }

  function TokenText(t: Token): string {
    match t case Outer(c) => [c] case Literal(units) => "\"" + UnitsText(units) + "\""
  }

  function Text(ts: seq<Token>): string {
    if ts == [] then "" else Text(ts[..|ts| - 1]) + TokenText(ts[|ts| - 1])
  }

  /** The same text with spaces. */
  function TokenSpaced(t: Token): string {
    match t
    case Outer(c) => if c == ',' then ", " else if c == ':' then ": " else [c]
    case Literal(_) => TokenText(t)
  }

  function TextSpaced(ts: seq<Token>): string {
    if ts == [] then "" else TextSpaced(ts[..|ts| - 1]) + TokenSpaced(ts[|ts| - 1])
  }

  ghost predicate AreTokens(ts: seq<Token>) {
    forall i | 0 <= i < |ts| :: IsToken(ts[i])
  }

  lemma StepOn(s: string, c: char)
    ensures PlaceAfter(s + [c]) == Step(PlaceAfter(s), c)
    ensures Spaced(s + [c]) == Spaced(s) + (if Separates(PlaceAfter(s), c) then [c, ' '] else [c])
  {
    PlaceSnoc(s, c);
  }

  const Inside := Place(true, false)

  lemma UnitStays(s: string, u: Unit)
    requires PlaceAfter(s) == Inside && IsUnit(u)
    ensures PlaceAfter(s + UnitText(u)) == Inside && Spaced(s + UnitText(u)) == Spaced(s) + UnitText(u)
  {
    match u
    case Bare(c) =>
      StepOn(s, c);
    case Escape(c) =>
      StepOn(s, '\\');
      StepOn(s + ['\\'], c);
      assert s + ['\\'] + [c] == s + ['\\', c];
      assert Spaced(s) + ['\\'] + [c] == Spaced(s) + ['\\', c];
  }

  lemma {:induction false} UnitsStay(s: string, units: seq<Unit>)
    requires PlaceAfter(s) == Inside && forall i | 0 <= i < |units| :: IsUnit(units[i])
    ensures PlaceAfter(s + UnitsText(units)) == Inside && Spaced(s + UnitsText(units)) == Spaced(s) + UnitsText(units)
  {
    if units == [] {
      Sequences.ConcatEmpty(s);
      Sequences.ConcatEmpty(Spaced(s));
    } else {
      var short, last := units[..|units| - 1], units[|units| - 1];
      UnitsStay(s, short);
      UnitStays(s + UnitsText(short), last);
      Sequences.Associate(s, UnitsText(short), UnitText(last));
      Sequences.Associate(Spaced(s), UnitsText(short), UnitText(last));
    }
  }

  lemma LiteralStays(s: string, units: seq<Unit>)
    requires PlaceAfter(s) == Outside && IsToken(Literal(units))
    ensures
      var t := TokenText(Literal(units));
      PlaceAfter(s + t) == Outside && Spaced(s + t) == Spaced(s) + t
  {
    StepOn(s, '"');
    UnitsStay(s + ['"'], units);
    StepOn(s + ['"'] + UnitsText(units), '"');
    Quoted(s, UnitsText(units));
    Quoted(Spaced(s), UnitsText(units));
  }

  lemma Quoted(s: string, body: string)
    ensures s + ['"'] + body + ['"'] == s + ("\"" + body + "\"")
  {
  }

  lemma TokenStays(s: string, t: Token)
    requires PlaceAfter(s) == Outside && IsToken(t)
    ensures PlaceAfter(s + TokenText(t)) == Outside && Spaced(s + TokenText(t)) == Spaced(s) + TokenSpaced(t)
  {
    match t
    case Outer(c) => StepOn(s, c);
    case Literal(units) => LiteralStays(s, units);
  }

  /** Of text in tokens, commas and colons outside literals get a space, and nothing else changes. */
  lemma {:induction false} TokensAreSpaced(ts: seq<Token>)
    requires AreTokens(ts)
    ensures Spaced(Text(ts)) == TextSpaced(ts) && PlaceAfter(Text(ts)) == Outside
  {
    if ts != [] {
      TokensAreSpaced(ts[..|ts| - 1]);
      TokenStays(Text(ts[..|ts| - 1]), ts[|ts| - 1]);
    }
  }

  // ---------- Any text with its literals closed is text in tokens ----------

  /** How far a text has been taken apart: tokens, and an open literal with perhaps a backslash at its end. */
  datatype Apart = Apart(ts: seq<Token>, open: bool, units: seq<Unit>, slash: bool)

  function Spell(a: Apart): string {
    Text(a.ts) + (if a.open then "\"" + UnitsText(a.units) + (if a.slash then "\\" else "") else "")
  }

  ghost predicate IsApart(a: Apart) {
    AreTokens(a.ts) && (forall i | 0 <= i < |a.units| :: IsUnit(a.units[i])) && (a.slash ==> a.open)
  }

  function TakeOne(a: Apart, c: char): Apart {
    if !a.open then if c == '"' then Apart(a.ts, true, [], false) else a.(ts := a.ts + [Outer(c)])
    else if a.slash then a.(units := a.units + [Escape(c)], slash := false)
    else if c == '\\' then a.(slash := true)
    else if c == '"' then Apart(a.ts + [Literal(a.units)], false, [], false)
    else a.(units := a.units + [Bare(c)])
  }

  lemma TextSnoc(ts: seq<Token>, t: Token)
    ensures Text(ts + [t]) == Text(ts) + TokenText(t)
  {
    Sequences.Snoc(ts, t);
  }

  lemma UnitsSnoc(units: seq<Unit>, u: Unit)
    ensures UnitsText(units + [u]) == UnitsText(units) + UnitText(u)
  {
    Sequences.Snoc(units, u);
  }

  lemma OneMore(t: string, u: string, v: string, w: string)
    ensures t + ("\"" + u + v) + w == t + ("\"" + u + (v + w)) == t + ("\"" + (u + (v + w)) + "")
  {
  }

  lemma TakeOuter(a: Apart, c: char)
    requires IsApart(a) && !a.open
    ensures IsApart(TakeOne(a, c)) && Spell(TakeOne(a, c)) == Spell(a) + [c]
  {
    Sequences.ConcatEmpty(Text(a.ts));
    if c == '"' {
      assert UnitsText([]) == "" && "\"" + "" + "" == [c];
    } else {
      TextSnoc(a.ts, Outer(c));
      Sequences.ConcatEmpty(Text(a.ts) + [c]);
    }
  }

  lemma TakeClosing(a: Apart)
    requires IsApart(a) && a.open && !a.slash
    ensures IsApart(TakeOne(a, '"')) && Spell(TakeOne(a, '"')) == Spell(a) + ['"']
  {
    TextSnoc(a.ts, Literal(a.units));
    OneMore(Text(a.ts), UnitsText(a.units), "", "\"");
    assert "" + "\"" == "\"";
    Sequences.ConcatEmpty(Text(a.ts) + TokenText(Literal(a.units)));
  }

  lemma TakeInner(a: Apart, c: char)
    requires IsApart(a) && a.open && (a.slash || c != '"')
    ensures IsApart(TakeOne(a, c)) && Spell(TakeOne(a, c)) == Spell(a) + [c]
  {
    var t, u := Text(a.ts), UnitsText(a.units);
    if a.slash {
      UnitsSnoc(a.units, Escape(c));
      OneMore(t, u, "\\", [c]);
      assert "\\" + [c] == ['\\', c];
    } else {
      OneMore(t, u, "", [c]);
      assert "" + [c] == [c];
      if c != '\\' {
        UnitsSnoc(a.units, Bare(c));
      }
    }
  }

  lemma TakeOneSpells(a: Apart, c: char)
    requires IsApart(a)
    ensures IsApart(TakeOne(a, c)) && Spell(TakeOne(a, c)) == Spell(a) + [c]
  {
    if !a.open {
      TakeOuter(a, c);
    } else if !a.slash && c == '"' {
      TakeClosing(a);
    } else {
      TakeInner(a, c);
    }
  }

  lemma {:induction false} TakenApart(s: string) returns (a: Apart)
    ensures IsApart(a) && Spell(a) == s && a.open == PlaceAfter(s).inString && (a.open ==> a.slash == PlaceAfter(s).escaped)
  {
    if s == "" {
      a := Apart([], false, [], false);
    } else {
      var short, c := s[..|s| - 1], s[|s| - 1];
      var before := TakenApart(short);
      TakeOneSpells(before, c);
      a := TakeOne(before, c);
      assert short + [c] == s;
    }
  }

  /** So every text in which no literal is left open is spaced token by token. */
  lemma EveryTextIsTokens(s: string) returns (ts: seq<Token>)
    requires !PlaceAfter(s).inString
    ensures AreTokens(ts) && Text(ts) == s && Spaced(s) == TextSpaced(ts)
  {
    var a := TakenApart(s);
    ts := a.ts;
    Sequences.ConcatEmpty(Text(ts));
    TokensAreSpaced(ts);
  }
}
