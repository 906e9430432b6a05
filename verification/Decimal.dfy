/** Decimal text of non-negative integers: what `toString` prints and what a decimal reader reads back. */
module Decimal {
  import opened Common

  predicate IsDigit(ch: char) {
    '0' <= ch <= '9'
  }

  predicate AllDigits(s: string) {
    forall i :: 0 <= i < |s| ==> IsDigit(s[i])
  }

  function Digit(d: nat): (ch: char)
    requires d < 10
    ensures IsDigit(ch)
  {
    ('0' as int + d) as char
  }

  function DigitValue(ch: char): nat {
    if IsDigit(ch) then ch as int - '0' as int else 0
  }

  function Print(n: nat): (s: string)
    ensures s != [] && AllDigits(s)
  {
    if n < 10 then [Digit(n)] else Print(n / 10) + [Digit(n % 10)]
  }

  /** The number a digit string denotes; leading zeros are allowed. */
  function Value(s: string): nat {
    if s == [] then 0 else 10 * Value(s[..|s| - 1]) + DigitValue(s[|s| - 1])
  }

  function Parse(s: string): Option<nat> {
    if s != [] && AllDigits(s) then Some(Value(s)) else None
  }

  lemma {:induction false} ValueOfPrint(n: nat)
    ensures Value(Print(n)) == n
    ensures Parse(Print(n)) == Some(n)
  {
    if n < 10 {
      assert Print(n)[..0] == [];
    } else {
      ValueOfPrint(n / 10);
      var s := Print(n);
      assert s[..|s| - 1] == Print(n / 10);
      assert s[|s| - 1] == Digit(n % 10);
    }
  }

  /** The usual notation: ASCII digits, the last one the remainder by ten, and no leading zero. */
  lemma {:induction false} PrintForm(n: nat)
    ensures var s := Print(n);
      && (forall i :: 0 <= i < |s| ==> '0' <= s[i] <= '9')
      && s[|s| - 1] as int == '0' as int + n % 10
      && (|s| > 1 ==> s[0] != '0') && (|s| == 1 <==> n < 10)
  {
    if n >= 10 {
      PrintForm(n / 10);
      LeadingDigit(n);
    }
  }

  lemma {:induction false} LeadingDigit(n: nat)
    requires n > 0
    ensures Print(n)[0] != '0'
  {
    if n >= 10 {
      LeadingDigit(n / 10);
    }
  }

  function Zeros(k: nat): (s: string)
    ensures |s| == k
    ensures AllDigits(s)
  {
    seq(k, i => '0')
  }

  /** Padding with zeros on the left does not change the number. */
  lemma {:induction false} ValueOfPadded(k: nat, s: string)
    ensures Value(Zeros(k) + s) == Value(s)
  {
    var t := Zeros(k) + s;
    if s != [] {
      assert t[..|t| - 1] == Zeros(k) + s[..|s| - 1];
      ValueOfPadded(k, s[..|s| - 1]);
    } else if k > 0 {
      assert t == Zeros(k);
      assert t[..|t| - 1] == Zeros(k - 1) + [];
      ValueOfPadded(k - 1, []);
    }
  }
}
