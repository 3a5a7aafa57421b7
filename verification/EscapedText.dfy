/** Sizes of strings against their bytes: as UTF-8 (RFC 3629), and inside a JSON literal (section 7 of RFC 8259). */
module EscapedText {
  import opened Utf8
  import opened Utf8Text

  const HEX := "0123456789abcdef"

  /** A character inside a JSON string literal. */
  function Escaped(c: char): string {
    if c == '"' then "\\\""
    else if c == '\\' then "\\\\"
    else if c == '\n' then "\\n"
    else if c == '\r' then "\\r"
    else if c == '\t' then "\\t"
    else if c as int == 8 then "\\b"
    else if c as int == 12 then "\\f"
    else if c as int < 0x20 then "\\u00" + [HEX[c as int / 16], HEX[c as int % 16]]
    else [c]
  }

  function AllEscaped(s: string): string {
    if s == "" then "" else Escaped(s[0]) + AllEscaped(s[1..])
  }

  /** The size of a string is that of its bytes. */
  lemma {:induction false} BytesCounted(s: string)
    ensures ByteLen(s) == |EncodeAll(s)|
  {
    if s != "" {
      BytesCounted(s[1..]);
    }
  }

  lemma {:induction false} PlainBytes(s: string)
    requires forall i | 0 <= i < |s| :: s[i] as int < 0x80
    ensures ByteLen(s) == |s|
  {
    if s != "" {
      forall i | 0 <= i < |s[1..]| ensures s[1..][i] as int < 0x80 {
        assert s[1..][i] == s[i + 1];
      }
      PlainBytes(s[1..]);
    }
  }

  lemma EscapedOne(c: char)
    ensures ByteLen(Escaped(c)) == EscapedWidth(c)
  {
    var e := Escaped(c);
    if c as int < 0x20 || c == '"' || c == '\\' {
      HexIsPlain(c);
      PlainBytes(e);
    } else {
      assert e == [c] && e[1..] == "";
    }
  }

  lemma HexIsPlain(c: char)
    requires c as int < 0x20 || c == '"' || c == '\\'
    ensures forall i | 0 <= i < |Escaped(c)| :: Escaped(c)[i] as int < 0x80
  {
    assert forall i | 0 <= i < |HEX| :: HEX[i] as int < 0x80;
  }

  /** What the gateway estimates for a string is the number of bytes it takes inside a JSON literal. */
  lemma {:induction false} EscapesCounted(s: string)
    ensures EscapedJsonLen(s) == |EncodeAll(AllEscaped(s))|
  {
    BytesCounted(AllEscaped(s));
    if s != "" {
      EscapedOne(s[0]);
      EscapesCounted(s[1..]);
      BytesCounted(AllEscaped(s[1..]));
      ByteLenConcat(Escaped(s[0]), AllEscaped(s[1..]));
    }
  }
}
