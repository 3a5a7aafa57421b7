/** JSON text with a space after each comma and colon that stands outside strings. */
module JsonSpacing {

  /** Where a prefix of JSON text leaves off: inside a string or not, and right after a backslash or not. */
  datatype Place = Place(inString: bool, escaped: bool)

  const Outside := Place(false, false)

  function Step(p: Place, c: char): Place {
    if !p.inString then Place(c == '"', false)
    else if p.escaped then Place(true, false)
    else if c == '\\' then Place(true, true)
    else Place(c != '"', false)
  }

  function PlaceAfter(s: string): Place {
    if s == "" then Outside else Step(PlaceAfter(s[..|s| - 1]), s[|s| - 1])
  }

  function Separates(p: Place, c: char): bool {
    !p.inString && (c == ':' || c == ',')
  }

  function Spaced(s: string): string {
    if s == "" then ""
    else
      var before, c := s[..|s| - 1], s[|s| - 1];
      Spaced(before) + (if Separates(PlaceAfter(before), c) then [c, ' '] else [c])
  }

  method DumpPythonStyle(compact: string) returns (out: string)
    ensures out == Spaced(compact)
  {
    out := "";
    var inString, escaped := false, false;
    for i := 0 to |compact|
      invariant out == Spaced(compact[..i])
      invariant PlaceAfter(compact[..i]) == Place(inString, escaped) && (escaped ==> inString)
    {
      var c := compact[i];
      assert compact[..i + 1][..i] == compact[..i];
      if inString {
        if escaped {
          escaped := false;
        } else if c == '\\' {
          escaped := true;
        } else if c == '"' {
          inString := false;
        }
        out := out + [c];
        continue;
      }
      if c == '"' {
        inString := true;
      }
      out := out + (if c == ':' || c == ',' then [c, ' '] else [c]);
    }
    assert compact[..|compact|] == compact;
  }

  /**
    Of the reader it is only assumed that a space right after a comma or colon outside strings does not matter
    (section 2 of RFC 8259).
   */
  ghost predicate IgnoresSpacing<T(!new)>(parse: string -> T) {
    forall a: string, b: string | a != "" && Separates(PlaceAfter(a[..|a| - 1]), a[|a| - 1]) ::
      parse(a + " " + b) == parse(a + b)
  }

  lemma PlaceSnoc(s: string, c: char)
    ensures PlaceAfter(s + [c]) == Step(PlaceAfter(s), c)
    ensures Spaced(s + [c]) == Spaced(s) + (if Separates(PlaceAfter(s), c) then [c, ' '] else [c])
  {
    assert (s + [c])[..|s|] == s;
  }

  /** Spaces are added outside strings only, so every prefix leaves off where it did. */
  lemma {:induction false} SpacingKeepsPlace(s: string)
    ensures PlaceAfter(Spaced(s)) == PlaceAfter(s)
  {
    if s != "" {
      var before, c := s[..|s| - 1], s[|s| - 1];
      SpacingKeepsPlace(before);
      PlaceSnoc(Spaced(before), c);
      if Separates(PlaceAfter(before), c) {
        PlaceSnoc(Spaced(before) + [c], ' ');
        assert Spaced(before) + [c, ' '] == Spaced(before) + [c] + [' '];
      }
    }
  }

  /** Spaced text reads as the text itself. */
  lemma SpacedReadsTheSame<T(!new)>(parse: string -> T, s: string)
    requires IgnoresSpacing(parse)
    ensures parse(Spaced(s)) == parse(s)
  {
    SpacedPrefix(parse, s, "");
    assert Spaced(s) + "" == Spaced(s) && s + "" == s;
  }

  lemma {:induction false} SpacedPrefix<T(!new)>(parse: string -> T, s: string, rest: string)
    requires IgnoresSpacing(parse)
    ensures parse(Spaced(s) + rest) == parse(s + rest)
    decreases |s|
  {
    if s == "" {
      assert Spaced(s) == s;
    } else {
      var before, c := s[..|s| - 1], s[|s| - 1];
      SpacedPrefix(parse, before, [c] + rest);
      assert before + ([c] + rest) == s + rest;
      assert Spaced(before) + ([c] + rest) == Spaced(before) + [c] + rest;
      if Separates(PlaceAfter(before), c) {
        SpacingKeepsPlace(before);
        var a := Spaced(before) + [c];
        assert a[..|a| - 1] == Spaced(before);
        assert Spaced(s) + rest == a + " " + rest;
      } else {
        assert Spaced(s) == Spaced(before) + [c];
      }
    }
  }
}
