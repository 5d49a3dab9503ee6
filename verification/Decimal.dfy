/** Decimal notation: what formatting an integer writes and what parsing digits reads,
    where a parser also takes the decimal digits of other scripts. */
module Decimal {
  import opened Core

  /** The decimal digits outside ASCII and their values. */
  type Scripts = map<char, nat>

  const DIGITS := "0123456789"

  function Digits(n: nat): (s: string)
    ensures s != []
  {
    if n < 10 then [DIGITS[n]] else Digits(n / 10) + [DIGITS[n % 10]]
  }

  function DigitValue(c: char, others: Scripts): Option<nat> {
    if '0' <= c <= '9' then Some(c as int - '0' as int)
    else if c in others then Some(others[c])
    else None
  }

  predicate AllDigits(s: string, others: Scripts) {
    forall i :: 0 <= i < |s| ==> DigitValue(s[i], others).Some?
  }

  function Value(s: string, others: Scripts): nat
    requires AllDigits(s, others)
  {
    if s == [] then 0
    else Value(s[..|s| - 1], others) * 10 + DigitValue(s[|s| - 1], others).value
  }

  /** ASCII digits without a leading zero. */
  predicate Canonical(s: string) {
    s != [] && AllDigits(s, map[]) && '1' <= s[0]
  }

  lemma DigitOf(n: nat)
    requires n < 10
    ensures '0' <= DIGITS[n] <= '9' && DIGITS[n] as int - '0' as int == n
    ensures n > 0 ==> '1' <= DIGITS[n]
  {
  }

  lemma {:induction false} DigitsAreDigits(n: nat, others: Scripts)
    ensures AllDigits(Digits(n), others)
    ensures Value(Digits(n), others) == n
    ensures n > 0 ==> Canonical(Digits(n))
    decreases n
  {
    DigitOf(n % 10);
    if n < 10 {
      DigitOf(n);
      assert [DIGITS[n]][..0] == [];
    } else {
      DigitsAreDigits(n / 10, others);
      assert Digits(n)[..|Digits(n)| - 1] == Digits(n / 10);
    }
  }

  lemma AllDigitsOfPrefix(s: string, k: nat, others: Scripts)
    requires k <= |s| && AllDigits(s, others)
    ensures AllDigits(s[..k], others)
  {
  }

  lemma DigitsOfOne(d: nat)
    requires d < 10
    ensures Digits(d) == [DIGITS[d]]
  {
  }

  lemma DigitsOfMore(q: nat, d: nat)
    requires q > 0 && d < 10
    ensures Digits(q * 10 + d) == Digits(q) + [DIGITS[d]]
  {
    var n := q * 10 + d;
    assert n / 10 == q && n % 10 == d;
  }

  /** A canonical numeral is the one its value is written as. */
  lemma {:induction false} CanonicalIsWritten(s: string)
    requires Canonical(s)
    ensures Value(s, map[]) > 0 && Digits(Value(s, map[])) == s
  {
    hide Digits;
    var last := |s| - 1;
    var d := DigitValue(s[last], map[]).value;
    DigitOf(d);
    assert s[last] == DIGITS[d];
    if last == 0 {
      assert s[..0] == [];
      assert Value(s, map[]) == d;
      DigitsOfOne(d);
    } else {
      var init := s[..last];
      AllDigitsOfPrefix(s, last, map[]);
      CanonicalIsWritten(init);
      var n := Value(s, map[]);
      assert n == Value(init, map[]) * 10 + d;
      DigitsOfMore(Value(init, map[]), d);
      assert s == init + [s[last]];
    }
  }
}
