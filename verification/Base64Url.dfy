/** Unpadded base64url, decoded strictly (section 5 of RFC 4648). */
module Base64Url {
  import opened Wrappers

  type Byte = n: nat | n < 256

  function Digit(n: nat): char
    requires n < 64
  {
    if n < 26 then ('A' as int + n) as char
    else if n < 52 then ('a' as int + n - 26) as char
    else if n < 62 then ('0' as int + n - 52) as char
    else if n == 62 then '-' else '_'
  }

  function Value(c: char): (v: Option<nat>)
    ensures v.Some? ==> v.value < 64 && Digit(v.value) == c
  {
    if 'A' <= c <= 'Z' then Some(c as int - 'A' as int)
    else if 'a' <= c <= 'z' then Some(c as int - 'a' as int + 26)
    else if '0' <= c <= '9' then Some(c as int - '0' as int + 52)
    else if c == '-' then Some(62)
    else if c == '_' then Some(63)
    else None
  }

  lemma ValueOfDigit(n: nat)
    requires n < 64
    ensures Value(Digit(n)) == Some(n)
  {
  }

  type Sextet = n: nat | n < 64

  /** Three bytes as four sextets, and back. */
  function Sextets(a: Byte, b: Byte, c: Byte): (Sextet, Sextet, Sextet, Sextet) {
    (a / 4, a % 4 * 16 + b / 16, b % 16 * 4 + c / 64, c % 64)
  }

  function Bytes(u: Sextet, v: Sextet, w: Sextet, x: Sextet): (Byte, Byte, Byte) {
    (u * 4 + v / 16, v % 16 * 16 + w / 4, w % 4 * 64 + x)
  }

  function Group(a: Byte, b: Byte, c: Byte): (g: string)
    ensures |g| == 4 && '.' !in g
  {
    var (u, v, w, x) := Sextets(a, b, c);
    [Digit(u), Digit(v), Digit(w), Digit(x)]
  }

  function Ungroup(g: string): (r: Option<(Byte, Byte, Byte)>)
    requires |g| == 4
  {
    match (Value(g[0]), Value(g[1]), Value(g[2]), Value(g[3]))
    case (Some(u), Some(v), Some(w), Some(x)) => Some(Bytes(u, v, w, x))
    case _ => None
  }

  lemma BytesOfSextets(a: Byte, b: Byte, c: Byte)
    ensures var (u, v, w, x) := Sextets(a, b, c); Bytes(u, v, w, x) == (a, b, c)
  {
    JoinHigh(a, b);
    JoinLow(b, c);
  }

  lemma JoinHigh(a: Byte, b: Byte)
    ensures (a % 4 * 16 + b / 16) / 16 == a % 4 && (a % 4 * 16 + b / 16) % 16 == b / 16
    ensures a / 4 * 4 + a % 4 == a && b / 16 * 16 + b % 16 == b
  {
  }

  lemma JoinLow(b: Byte, c: Byte)
    ensures (b % 16 * 4 + c / 64) / 4 == b % 16 && (b % 16 * 4 + c / 64) % 4 == c / 64
    ensures c / 64 * 64 + c % 64 == c
  {
  }

  lemma SextetsOfBytes(u: Sextet, v: Sextet, w: Sextet, x: Sextet)
    ensures var (a, b, c) := Bytes(u, v, w, x); Sextets(a, b, c) == (u, v, w, x)
  {
    SplitHigh(u, v);
    SplitMiddle(v, w);
  }

  lemma SplitHigh(u: Sextet, v: Sextet)
    ensures (u * 4 + v / 16) / 4 == u && (u * 4 + v / 16) % 4 == v / 16
  {
  }

  lemma SplitMiddle(v: Sextet, w: Sextet)
    ensures (v % 16 * 16 + w / 4) / 16 == v % 16 && (v % 16 * 16 + w / 4) % 16 == w / 4
  {
  }

  lemma GroupRoundTrip(a: Byte, b: Byte, c: Byte)
    ensures Ungroup(Group(a, b, c)) == Some((a, b, c))
  {
    var (u, v, w, x) := Sextets(a, b, c);
    BytesOfSextets(a, b, c);
    ValueOfDigit(u);
    ValueOfDigit(v);
    ValueOfDigit(w);
    ValueOfDigit(x);
  }

  lemma GroupPadding(a: Byte, b: Byte)
    ensures Group(a, 0, 0)[2..] == "AA"
    ensures Group(a, b, 0)[3..] == "A"
  {
    assert Digit(0) == 'A';
  }

  lemma UngroupRoundTrip(g: string)
    requires |g| == 4 && Ungroup(g).Some?
    ensures var (a, b, c) := Ungroup(g).value; Group(a, b, c) == g
  {
    SextetsOfBytes(Value(g[0]).value, Value(g[1]).value, Value(g[2]).value, Value(g[3]).value);
  }

  // One or two leftover bytes are encoded as if followed by zero bytes, without the digits those would add.

  function Encode(b: seq<Byte>): string {
    if |b| == 0 then ""
    else if |b| == 1 then Group(b[0], 0, 0)[..2]
    else if |b| == 2 then Group(b[0], b[1], 0)[..3]
    else Group(b[0], b[1], b[2]) + Encode(b[3..])
  }

  /** Two or three leftover digits have to be what one or two bytes encode to: no stray bits. */
  function Decode(s: string): Option<seq<Byte>> {
    if |s| == 0 then Some([])
    else if |s| == 1 then None
    else if |s| == 2 then
      match Ungroup(s + "AA")
      case Some((a, b, c)) => if b == 0 then Some([a]) else None
      case None => None
    else if |s| == 3 then
      match Ungroup(s + "A")
      case Some((a, b, c)) => if c == 0 then Some([a, b]) else None
      case None => None
    else
      match (Ungroup(s[..4]), Decode(s[4..]))
      case (Some((a, b, c)), Some(rest)) => Some([a, b, c] + rest)
      case _ => None
  }

  lemma DecodeGroup(g: string, rest: string)
    requires |g| == 4 && Ungroup(g).Some? && Decode(rest).Some?
    ensures var (a, b, c) := Ungroup(g).value; Decode(g + rest) == Some([a, b, c] + Decode(rest).value)
  {
    assert (g + rest)[..4] == g && (g + rest)[4..] == rest;
  }

  lemma DecodeOne(a: Byte)
    ensures Decode(Group(a, 0, 0)[..2]) == Some([a])
  {
    var g := Group(a, 0, 0);
    GroupRoundTrip(a, 0, 0);
    GroupPadding(a, 0);
    assert g[..2] + "AA" == g;
  }

  lemma DecodeTwo(a: Byte, b: Byte)
    ensures Decode(Group(a, b, 0)[..3]) == Some([a, b])
  {
    var g := Group(a, b, 0);
    GroupRoundTrip(a, b, 0);
    GroupPadding(a, b);
    assert g[..3] + "A" == g;
  }

  lemma DecodeMore(a: Byte, b: Byte, c: Byte, rest: string)
    requires Decode(rest).Some?
    ensures Decode(Group(a, b, c) + rest) == Some([a, b, c] + Decode(rest).value)
  {
    GroupRoundTrip(a, b, c);
    DecodeGroup(Group(a, b, c), rest);
  }

  /** Decoding undoes encoding. */
  lemma {:induction false} DecodeOfEncode(b: seq<Byte>)
    ensures Decode(Encode(b)) == Some(b)
  {
    if |b| == 1 {
      DecodeOne(b[0]);
      assert b == [b[0]];
    } else if |b| == 2 {
      DecodeTwo(b[0], b[1]);
      assert b == [b[0], b[1]];
    } else if |b| >= 3 {
      DecodeOfEncode(b[3..]);
      DecodeMore(b[0], b[1], b[2], Encode(b[3..]));
      FirstThree(b);
    }
  }

  lemma FirstThree(b: seq<Byte>)
    requires |b| >= 3
    ensures [b[0], b[1], b[2]] + b[3..] == b
  {
  }

  /** Nothing but an encoding decodes, so a tag or payload has one spelling. */
  lemma {:induction false} EncodeOfDecode(s: string)
    requires Decode(s).Some?
    ensures Encode(Decode(s).value) == s
  {
    if |s| == 2 {
      EncodeTwoDigits(s);
    } else if |s| == 3 {
      EncodeThreeDigits(s);
    } else if |s| >= 4 {
      EncodeOfDecode(s[4..]);
      EncodeMoreDigits(s);
    }
  }

  lemma EncodeTwoDigits(s: string)
    requires |s| == 2 && Decode(s).Some?
    ensures Encode(Decode(s).value) == s
  {
    UngroupRoundTrip(s + "AA");
    var (a, b, c) := Ungroup(s + "AA").value;
    assert c == 0;
    assert (s + "AA")[..2] == s;
  }

  lemma EncodeThreeDigits(s: string)
    requires |s| == 3 && Decode(s).Some?
    ensures Encode(Decode(s).value) == s
  {
    UngroupRoundTrip(s + "A");
    assert (s + "A")[..3] == s;
  }

  lemma EncodeMoreDigits(s: string)
    requires |s| >= 4 && Decode(s).Some? && Decode(s[4..]).Some? && Encode(Decode(s[4..]).value) == s[4..]
    ensures Encode(Decode(s).value) == s
  {
    UngroupRoundTrip(s[..4]);
    assert Decode(s).value[3..] == Decode(s[4..]).value;
    assert s == s[..4] + s[4..];
  }

  lemma {:induction false} EncodingHasNoDot(b: seq<Byte>)
    ensures '.' !in Encode(b)
  {
    if |b| >= 3 {
      EncodingHasNoDot(b[3..]);
    }
  }
}
