/** Sizes of strings as the gateway counts them: bytes of UTF-8 (RFC 3629) and bytes of escaped JSON. */
module Utf8 {

  function Width(c: char): nat {
    var code := c as int;
    if code < 0x80 then 1 else if code < 0x800 then 2 else if code < 0x1_0000 then 3 else 4
  }

  function ByteLen(s: string): nat {
    if s == "" then 0 else Width(s[0]) + ByteLen(s[1..])
  }

  lemma {:induction false} ByteLenConcat(a: string, b: string)
    ensures ByteLen(a + b) == ByteLen(a) + ByteLen(b)
  {
    if a == "" {
      assert a + b == b;
    } else {
      ByteLenConcat(a[1..], b);
      assert (a + b)[1..] == a[1..] + b;
    }
  }

  /** Bytes one character takes inside a JSON string literal. */
  function EscapedWidth(c: char): nat {
    if c in {'"', '\\', '\n', '\r', '\t', 8 as char, 12 as char} then 2
    else if c as int <= 0x1f then 6
    else Width(c)
  }

  function EscapedJsonLen(s: string): nat {
    if s == "" then 0 else EscapedWidth(s[0]) + EscapedJsonLen(s[1..])
  }

  lemma {:induction false} EscapedJsonLenConcat(a: string, b: string)
    ensures EscapedJsonLen(a + b) == EscapedJsonLen(a) + EscapedJsonLen(b)
  {
    if a == "" {
      assert a + b == b;
    } else {
      EscapedJsonLenConcat(a[1..], b);
      assert (a + b)[1..] == a[1..] + b;
    }
  }

  lemma {:induction false} ShortBytes(s: string)
    ensures ByteLen(s) <= 4 * |s| && |s| <= ByteLen(s)
  {
    if s != "" { ShortBytes(s[1..]); }
  }

  lemma {:induction false} EscapedBytes(s: string)
    ensures EscapedJsonLen(s) <= 6 * ByteLen(s)
  {
    if s != "" { EscapedBytes(s[1..]); }
  }
}
