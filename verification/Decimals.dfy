/** Decimal spelling of naturals. */
module Decimals {

  function Decimal(n: nat): (s: string)
    ensures s != ""
  {
    (if n < 10 then "" else Decimal(n / 10)) + [('0' as int + n % 10) as char]
  }

  /** Two numbers never share a spelling. */
  lemma {:induction false} DecimalInjective(a: nat, b: nat)
    requires Decimal(a) == Decimal(b)
    ensures a == b
  {
    var s, t := Decimal(a), Decimal(b);
    assert s[|s| - 1] == ('0' as int + a % 10) as char && t[|t| - 1] == ('0' as int + b % 10) as char;
    assert a % 10 == b % 10;
    var p, q := s[..|s| - 1], t[..|t| - 1];
    assert p == (if a < 10 then "" else Decimal(a / 10)) && q == (if b < 10 then "" else Decimal(b / 10));
    if a >= 10 && b >= 10 {
      DecimalInjective(a / 10, b / 10);
    }
  }

  predicate IsDigits(s: string) {
    s != "" && forall i | 0 <= i < |s| :: '0' <= s[i] <= '9'
  }

  function Number(s: string): nat
    requires forall i | 0 <= i < |s| :: '0' <= s[i] <= '9'
  {
    if s == "" then 0 else 10 * Number(s[..|s| - 1]) + (s[|s| - 1] as nat - '0' as nat)
  }

  /** A decimal spelling reads as the number, and has no leading zero. */
  lemma {:induction false} DecimalReads(n: nat)
    ensures IsDigits(Decimal(n)) && Number(Decimal(n)) == n
    ensures Decimal(n)[0] == '0' ==> n == 0
  {
    var s := Decimal(n);
    var last := s[|s| - 1];
    assert last as nat - '0' as nat == n % 10 && '0' <= last <= '9';
    if n < 10 {
      assert s == [last] && s[..|s| - 1] == "";
    } else {
      var front := Decimal(n / 10);
      DecimalReads(n / 10);
      assert s == front + [last] && s[..|s| - 1] == front;
    }
  }

  /** Only the number's own spelling reads as it without a leading zero. */
  lemma {:induction false} ReadsDecimal(s: string)
    requires IsDigits(s) && (s[0] == '0' ==> |s| == 1)
    ensures Decimal(Number(s)) == s
  {
    var front, last := s[..|s| - 1], s[|s| - 1];
    assert s == front + [last];
    if front == "" {
      assert Number(front) == 0;
    } else {
      assert forall i | 0 <= i < |front| :: front[i] == s[i];
      ReadsDecimal(front);
      NotZero(front);
      assert Number(s) / 10 == Number(front) && Number(s) % 10 == last as nat - '0' as nat;
    }
  }

  lemma {:induction false} NotZero(s: string)
    requires IsDigits(s) && s[0] != '0'
    ensures Number(s) > 0
  {
    var front := s[..|s| - 1];
    if front != "" {
      assert forall i | 0 <= i < |front| :: front[i] == s[i];
      NotZero(front);
    }
  }
}
