/**
  Base64url bit by bit (section 5 of RFC 4648): the i-th digit stands for the i-th six bits, counted over the bytes
  from the highest bit of the first, with zeros after the last.
 */
module Base64Digits {
  import opened Base64Url

  const UPPER := "ABCDEFGHIJKLMNOPQRSTUVWXYZ"
  const LOWER := "abcdefghijklmnopqrstuvwxyz"
  const OTHERS := "0123456789-_"
  const ALPHABET := UPPER + LOWER + OTHERS

  function At(b: seq<Byte>, i: nat): Byte {
    if i < |b| then b[i] else 0
  }

  /** Six bits from bit r of two bytes on, for even r. */
  function Window(high: Byte, low: Byte, r: nat): nat {
    (high * 256 + low) / (if r == 0 then 1024 else if r == 2 then 256 else if r == 4 then 64 else 16) % 64
  }

  /** The i-th six bits of a byte string that zeros follow. */
  function SixBits(b: seq<Byte>, i: nat): nat {
    Window(At(b, 6 * i / 8), At(b, 6 * i / 8 + 1), 6 * i % 8)
  }

  lemma UpperDigits(n: nat)
    requires n < 26
    ensures Digit(n) == UPPER[n]
  {
  }

  lemma LowerDigits(n: nat)
    requires n < 26
    ensures Digit(26 + n) == LOWER[n]
  {
  }

  lemma OtherDigits(n: nat)
    requires n < 12
    ensures Digit(52 + n) == OTHERS[n]
  {
  }

  lemma DigitsAreThese(n: nat)
    requires n < 64
    ensures |ALPHABET| == 64 && Digit(n) == ALPHABET[n]
  {
    if n < 26 {
      UpperDigits(n);
    } else if n < 52 {
      LowerDigits(n - 26);
    } else {
      OtherDigits(n - 52);
    }
  }

  lemma Windows(a: Byte, b: Byte, c: Byte, d: Byte)
    ensures Window(a, b, 0) == a / 4 && Window(a, b, 6) == a % 4 * 16 + b / 16
    ensures Window(b, c, 4) == b % 16 * 4 + c / 64 && Window(c, d, 2) == c % 64
  {
    FirstWindow(a, b);
    SecondWindow(a, b);
    ThirdWindow(b, c);
    FourthWindow(c, d);
  }

  lemma FirstWindow(a: Byte, b: Byte)
    ensures (a * 256 + b) / 1024 % 64 == a / 4
  {
  }

  lemma SecondWindow(a: Byte, b: Byte)
    ensures (a * 256 + b) / 16 % 64 == a % 4 * 16 + b / 16
  {
    assert (a * 256 + b) / 16 == a * 16 + b / 16;
    assert a * 16 + b / 16 == 64 * (a / 4) + (a % 4 * 16 + b / 16);
  }

  lemma ThirdWindow(b: Byte, c: Byte)
    ensures (b * 256 + c) / 64 % 64 == b % 16 * 4 + c / 64
  {
    assert (b * 256 + c) / 64 == b * 4 + c / 64;
    assert b * 4 + c / 64 == 64 * (b / 16) + (b % 16 * 4 + c / 64);
  }

  lemma FourthWindow(c: Byte, d: Byte)
    ensures (c * 256 + d) / 256 % 64 == c % 64
  {
  }

  lemma FirstBits(b: seq<Byte>)
    ensures SixBits(b, 0) == Window(At(b, 0), At(b, 1), 0) && SixBits(b, 1) == Window(At(b, 0), At(b, 1), 6)
    ensures SixBits(b, 2) == Window(At(b, 1), At(b, 2), 4) && SixBits(b, 3) == Window(At(b, 2), At(b, 3), 2)
  {
  }

  lemma GroupDigits(a: Byte, b: Byte, c: Byte)
    ensures
      var g := Group(a, b, c);
      && g[0] == Digit(a / 4) && g[1] == Digit(a % 4 * 16 + b / 16)
      && g[2] == Digit(b % 16 * 4 + c / 64) && g[3] == Digit(c % 64)
  {
  }

  lemma GroupSpells(b: seq<Byte>, i: nat)
    requires i < 4
    ensures SixBits(b, i) < 64 && Group(At(b, 0), At(b, 1), At(b, 2))[i] == Digit(SixBits(b, i))
  {
    var x, y, z := At(b, 0), At(b, 1), At(b, 2);
    FirstBits(b);
    Windows(x, y, z, At(b, 3));
    GroupDigits(x, y, z);
  }

  lemma LaterBits(b: seq<Byte>, i: nat)
    requires |b| >= 3 && i >= 4
    ensures SixBits(b, i) == SixBits(b[3..], i - 4)
  {
    assert 6 * i / 8 == 6 * (i - 4) / 8 + 3 && 6 * i % 8 == 6 * (i - 4) % 8;
  }

  /** An encoding has a digit for every six bits that are begun, the digit its alphabet has for them, and no padding. */
  lemma {:induction false} EncodingSpellsBits(b: seq<Byte>)
    ensures |Encode(b)| == (8 * |b| + 5) / 6
    ensures forall i | 0 <= i < |Encode(b)| :: SixBits(b, i) < |ALPHABET| && Encode(b)[i] == ALPHABET[SixBits(b, i)]
  {
    var s := Encode(b);
    if |b| >= 3 {
      EncodingSpellsBits(b[3..]);
    }
    forall i | 0 <= i < |s| ensures SixBits(b, i) < |ALPHABET| && s[i] == ALPHABET[SixBits(b, i)] {
      if i < 4 {
        GroupSpells(b, i);
        DigitsAreThese(SixBits(b, i));
      } else {
        LaterBits(b, i);
      }
    }
  }
}
