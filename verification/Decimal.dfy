/** Python's str() of an integer. */
module Decimal {
  const DIGITS := "0123456789"

  function Natural(n: nat): (s: string)
    ensures |s| > 0 && forall c :: c in s ==> c in DIGITS
  {
    if n < 10 then [DIGITS[n]] else Natural(n / 10) + [DIGITS[n % 10]]
  }

  function Str(n: int): (s: string)
    ensures |s| > 0 && forall c :: c in s ==> c in DIGITS || c == '-'
  {
    if n < 0 then "-" + Natural(-n) else Natural(n)
  }

  function Value(s: string): int {
    if s == [] then 0 else Value(s[..|s| - 1]) * 10 + (s[|s| - 1] as int - '0' as int)
  }

  lemma {:induction false} ReadNatural(n: nat)
    ensures Value(Natural(n)) == n
  {
    var s := Natural(n);
    if n < 10 {
      assert s[..|s| - 1] == [];
    } else {
      ReadNatural(n / 10);
      assert s[..|s| - 1] == Natural(n / 10);
    }
  }

  lemma SignFirst(n: int)
    ensures Str(n)[0] == '-' <==> n < 0
  {
    if n >= 0 {
      assert Natural(n)[0] in Natural(n);
    }
  }

  /** The inverse of Str. */
  function Read(s: string): int
    requires s != []
  {
    if s[0] == '-' then -Value(s[1..]) else Value(s)
  }

  lemma ReadStr(n: int)
    ensures Read(Str(n)) == n
  {
    SignFirst(n);
    if n < 0 {
      assert Str(n)[1..] == Natural(-n);
      ReadNatural(-n);
    } else {
      ReadNatural(n);
    }
  }

  /** No leading zeros: Natural is the usual way to write n. */
  lemma {:induction false} NoLeadingZero(n: nat)
    ensures Natural(n)[0] == '0' <==> n == 0
    ensures n < 10 ==> |Natural(n)| == 1
  {
    if n >= 10 { NoLeadingZero(n / 10); }
  }

  /** Different integers are written differently. */
  lemma StrInjective(a: int, b: int)
    requires Str(a) == Str(b)
    ensures a == b
  {
    ReadStr(a);
    ReadStr(b);
  }
}
