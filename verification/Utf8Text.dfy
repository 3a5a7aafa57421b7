/** Text as UTF-8 bytes (RFC 3629), decoded as far as it is complete, chunk by chunk. */
module Utf8Text {
  import opened Wrappers
  import opened Utf8
  import opened Bytes

  function Encode(c: char): (bytes: seq<byte>)
    ensures |bytes| == Width(c)
  {
    var code := c as int;
    if code < 0x80 then [code as byte]
    else if code < 0x800 then [(0xC0 + code / 0x40) as byte, (0x80 + code % 0x40) as byte]
    else if code < 0x1_0000 then
      [(0xE0 + code / 0x1000) as byte, (0x80 + code / 0x40 % 0x40) as byte, (0x80 + code % 0x40) as byte]
    else
      [(0xF0 + code / 0x4_0000) as byte, (0x80 + code / 0x1000 % 0x40) as byte,
       (0x80 + code / 0x40 % 0x40) as byte, (0x80 + code % 0x40) as byte]
  }

  function EncodeAll(s: string): seq<byte> {
    if s == "" then [] else Encode(s[0]) + EncodeAll(s[1..])
  }

  predicate Continues(b: byte) {
    0x80 <= b < 0xC0
  }

  predicate Scalar(code: int) {
    0 <= code < 0xD800 || 0xE000 <= code < 0x11_0000
  }

  /** The character a byte sequence starts with; none if it is cut off or not UTF-8. */
  function DecodeFirst(b: seq<byte>): (r: Option<char>)
    ensures r.Some? ==> Width(r.value) <= |b|
  {
    if b == [] then None
    else if b[0] < 0x80 then Some(b[0] as int as char)
    else if 0xC2 <= b[0] < 0xE0 then
      if |b| < 2 || !Continues(b[1]) then None
      else Some(((b[0] as int - 0xC0) * 0x40 + (b[1] as int - 0x80)) as char)
    else if 0xE0 <= b[0] < 0xF0 then
      if |b| < 3 || !Continues(b[1]) || !Continues(b[2]) then None
      else
        var code := (b[0] as int - 0xE0) * 0x1000 + (b[1] as int - 0x80) * 0x40 + (b[2] as int - 0x80);
        if code < 0x800 || !Scalar(code) then None else Some(code as char)
    else if 0xF0 <= b[0] < 0xF5 then
      if |b| < 4 || !Continues(b[1]) || !Continues(b[2]) || !Continues(b[3]) then None
      else
        var code := (b[0] as int - 0xF0) * 0x4_0000 + (b[1] as int - 0x80) * 0x1000
                    + (b[2] as int - 0x80) * 0x40 + (b[3] as int - 0x80);
        if code < 0x1_0000 || !Scalar(code) then None else Some(code as char)
    else None
  }

  /** A code cut into groups of six bits, and put together again. */
  lemma SixBits(code: nat)
    ensures code == code / 0x40 * 0x40 + code % 0x40
    ensures code / 0x1000 == code / 0x40 / 0x40 && code / 0x4_0000 == code / 0x40 / 0x40 / 0x40
  {
  }

  lemma SixBitsBack(high: nat, low: nat)
    requires low < 0x40
    ensures (high * 0x40 + low) / 0x40 == high && (high * 0x40 + low) % 0x40 == low
  {
  }

  lemma DecodeFirstOfEncode(c: char, rest: seq<byte>)
    ensures DecodeFirst(Encode(c) + rest) == Some(c)
  {
    var code, b := c as int, Encode(c) + rest;
    assert b[..Width(c)] == Encode(c);
    SixBits(code);
    SixBits(code / 0x40);
    SixBits(code / 0x40 / 0x40);
    if code < 0x80 {
    } else if code < 0x800 {
      assert b[0] == Encode(c)[0] && b[1] == Encode(c)[1];
    } else if code < 0x1_0000 {
      ThreeBytes(c, b);
    } else {
      FourBytes(c, b);
    }
  }

  lemma ThreeBytes(c: char, b: seq<byte>)
    requires 0x800 <= c as int < 0x1_0000 && |b| >= 3 && b[..3] == Encode(c)
    ensures DecodeFirst(b) == Some(c)
  {
    var code := c as int;
    assert b[0] == Encode(c)[0] && b[1] == Encode(c)[1] && b[2] == Encode(c)[2];
    SixBits(code);
    SixBits(code / 0x40);
    assert (b[0] as int - 0xE0) * 0x1000 + (b[1] as int - 0x80) * 0x40 + (b[2] as int - 0x80) == code;
  }

  lemma FourBytes(c: char, b: seq<byte>)
    requires 0x1_0000 <= c as int && |b| >= 4 && b[..4] == Encode(c)
    ensures DecodeFirst(b) == Some(c)
  {
    var code := c as int;
    assert b[0] == Encode(c)[0] && b[1] == Encode(c)[1] && b[2] == Encode(c)[2] && b[3] == Encode(c)[3];
    SixBits(code);
    SixBits(code / 0x40);
    SixBits(code / 0x40 / 0x40);
    assert (b[0] as int - 0xF0) * 0x4_0000 + (b[1] as int - 0x80) * 0x1000 + (b[2] as int - 0x80) * 0x40
           + (b[3] as int - 0x80) == code;
  }

  lemma EncodeOfDecodeFirst(b: seq<byte>)
    requires DecodeFirst(b).Some?
    ensures b[..Width(DecodeFirst(b).value)] == Encode(DecodeFirst(b).value)
  {
    if b[0] < 0x80 {
    } else if b[0] < 0xE0 {
      SixBitsBack(b[0] as int - 0xC0, b[1] as int - 0x80);
    } else if b[0] < 0xF0 {
      ThreeBack(b);
    } else {
      FourBack(b);
    }
  }

  lemma ThreeBack(b: seq<byte>)
    requires DecodeFirst(b).Some? && 0xE0 <= b[0] < 0xF0
    ensures |b| >= 3 && Width(DecodeFirst(b).value) == 3 && b[..3] == Encode(DecodeFirst(b).value)
  {
    var h, m, l := b[0] as int - 0xE0, b[1] as int - 0x80, b[2] as int - 0x80;
    var code := DecodeFirst(b).value as int;
    assert code == (h * 0x40 + m) * 0x40 + l;
    SixBitsBack(h * 0x40 + m, l);
    SixBitsBack(h, m);
    SixBits(code);
  }

  lemma FourBack(b: seq<byte>)
    requires DecodeFirst(b).Some? && 0xF0 <= b[0] < 0xF5
    ensures |b| >= 4 && Width(DecodeFirst(b).value) == 4 && b[..4] == Encode(DecodeFirst(b).value)
  {
    var h, m, n, l := b[0] as int - 0xF0, b[1] as int - 0x80, b[2] as int - 0x80, b[3] as int - 0x80;
    var code := DecodeFirst(b).value as int;
    assert code == ((h * 0x40 + m) * 0x40 + n) * 0x40 + l;
    SixBitsBack((h * 0x40 + m) * 0x40 + n, l);
    SixBitsBack(h * 0x40 + m, n);
    SixBitsBack(h, m);
    SixBits(code);
  }

  /** More bytes do not change the first character. */
  lemma DecodeFirstStable(a: seq<byte>, b: seq<byte>)
    requires DecodeFirst(a).Some?
    ensures DecodeFirst(a + b) == DecodeFirst(a)
  {
    EncodeOfDecodeFirst(a);
    var c := DecodeFirst(a).value;
    assert a + b == Encode(c) + (a[Width(c)..] + b);
    DecodeFirstOfEncode(c, a[Width(c)..] + b);
  }

  datatype Decoded = Decoded(text: string, rest: seq<byte>)

  /** All the text that is complete, and the bytes after it. */
  function Decode(b: seq<byte>): Decoded
    decreases |b|
  {
    match DecodeFirst(b)
    case None => Decoded("", b)
    case Some(c) => var d := Decode(b[Width(c)..]); Decoded([c] + d.text, d.rest)
  }

  lemma FirstTaken(b: seq<byte>, c: char)
    requires DecodeFirst(b) == Some(c)
    ensures Width(c) <= |b| && b == Encode(c) + b[Width(c)..]
    ensures var d := Decode(b[Width(c)..]); Decode(b) == Decoded([c] + d.text, d.rest)
  {
    EncodeOfDecodeFirst(b);
    assert b == b[..Width(c)] + b[Width(c)..];
  }

  lemma OneMorePiece(c: char, tail: Decoded, more: Decoded, e: Decoded)
    requires more == Decoded(tail.text + e.text, e.rest)
    ensures Decoded([c] + more.text, more.rest) == Decoded([c] + tail.text + e.text, e.rest)
  {
  }

  lemma TailConcat(a: seq<byte>, b: seq<byte>, n: nat)
    requires n <= |a|
    ensures (a + b)[n..] == a[n..] + b
  {
  }

  lemma FirstInPieces(a: seq<byte>, b: seq<byte>, c: char)
    requires DecodeFirst(a) == Some(c)
    ensures Width(c) <= |a| && Decode(a) == (var d := Decode(a[Width(c)..]); Decoded([c] + d.text, d.rest))
    ensures Decode(a + b) == (var d := Decode(a[Width(c)..] + b); Decoded([c] + d.text, d.rest))
  {
    FirstTaken(a, c);
    TailConcat(a, b, Width(c));
    TakenOf(a + b, c, a[Width(c)..] + b) by {
      DecodeFirstStable(a, b);
    }
  }

  lemma TakenOf(b: seq<byte>, c: char, tail: seq<byte>)
    requires DecodeFirst(b) == Some(c) && b[Width(c)..] == tail
    ensures Decode(b) == Decoded([c] + Decode(tail).text, Decode(tail).rest)
  {
  }

  lemma NothingFirst(a: seq<byte>, b: seq<byte>)
    requires DecodeFirst(a).None?
    ensures Decode(a) == Decoded("", a) && "" + Decode(a + b).text == Decode(a + b).text
  {
  }

  /** Decoding chunk by chunk, each after what the one before left over, is decoding at once. */
  lemma {:induction false} DecodeInPieces(a: seq<byte>, b: seq<byte>)
    ensures var d := Decode(a); Decode(a + b) == (var e := Decode(d.rest + b); Decoded(d.text + e.text, e.rest))
    decreases |a|
  {
    var first := DecodeFirst(a);
    match first
    case None =>
      NothingFirst(a, b);
    case Some(c) =>
      FirstInPieces(a, b, c);
      var tail := a[Width(c)..];
      DecodeInPieces(tail, b);
      OneMorePiece(c, Decode(tail), Decode(tail + b), Decode(Decode(tail).rest + b));
  }

  /** Valid text decodes to itself with nothing left over. */
  lemma {:induction false} DecodeOfEncode(s: string)
    ensures Decode(EncodeAll(s)) == Decoded(s, [])
  {
    if s != "" {
      DecodeFirstOfEncode(s[0], EncodeAll(s[1..]));
      assert EncodeAll(s)[Width(s[0])..] == EncodeAll(s[1..]);
      DecodeOfEncode(s[1..]);
      assert [s[0]] + s[1..] == s;
    }
  }

  lemma OneMore(c: char, text: string, rest: seq<byte>, tail: seq<byte>)
    requires EncodeAll(text) + rest == tail
    ensures EncodeAll([c] + text) + rest == Encode(c) + tail
  {
    assert ([c] + text)[1..] == text;
    assert Encode(c) + EncodeAll(text) + rest == Encode(c) + (EncodeAll(text) + rest);
  }

  ghost predicate Joins(b: seq<byte>, d: Decoded) {
    EncodeAll(d.text) + d.rest == b && DecodeFirst(d.rest).None?
  }

  lemma {:induction false} DecodedJoins(b: seq<byte>)
    ensures Joins(b, Decode(b))
    decreases |b|
  {
    if DecodeFirst(b).Some? {
      var c := DecodeFirst(b).value;
      FirstTaken(b, c);
      var tail := b[Width(c)..];
      DecodedJoins(tail);
      OneMore(c, Decode(tail).text, Decode(tail).rest, tail);
    }
  }

  /** The text and the bytes left over are the bytes, and what is left over does not begin with a character. */
  lemma DecodedIsTheBytes(b: seq<byte>)
    ensures var d := Decode(b); EncodeAll(d.text) + d.rest == b && forall c, more :: d.rest != Encode(c) + more
  {
    DecodedJoins(b);
    var rest := Decode(b).rest;
    forall c, more ensures rest != Encode(c) + more {
      DecodeFirstOfEncode(c, more);
    }
  }
}
