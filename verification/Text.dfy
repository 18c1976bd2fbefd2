/** Text as sequences of code points, and decimal numerals.
  Code points are plain integers because a Python string may hold a lone surrogate,
  which Dafny's `char` cannot.
  */
module Text {
  type Text = seq<int>

  datatype Option<+T> = None | Some(value: T)

  const DOT := 46
  const DASH := 45
  const SLASH := 47

  /** The code points of a literal. */
  function Codes(s: string): Text { seq(|s|, i requires 0 <= i < |s| => s[i] as int) }

  predicate IsDigit(c: int) { 48 <= c <= 57 }

  /** The decimal numeral of `n`, most significant digit first. */
  function Digits(n: nat): (d: Text)
    ensures |d| >= 1 && forall i | 0 <= i < |d| :: IsDigit(d[i])
    ensures n > 0 ==> d[0] != 48
    decreases n
  {
    if n < 10 then [48 + n] else Digits(n / 10) + [48 + n % 10]
  }

  /** The number a numeral denotes. */
  function Value(d: Text): (n: nat)
    requires forall i | 0 <= i < |d| :: IsDigit(d[i])
  {
    if d == [] then 0
    else
      assert IsDigit(d[|d| - 1]);
      10 * Value(d[..|d| - 1]) + (d[|d| - 1] - 48)
  }

  lemma {:induction false} ValueOfDigits(n: nat)
    ensures Value(Digits(n)) == n
    decreases n
  {
    if n < 10 {
      assert Digits(n)[..0] == [];
    } else {
      ValueOfDigits(n / 10);
      assert Digits(n)[..|Digits(n)| - 1] == Digits(n / 10);
    }
  }

  /** A numeral without a leading zero is the numeral of the number it denotes. */
  lemma {:induction false} DigitsOfValue(d: Text)
    requires d != [] && d[0] != 48 && forall i | 0 <= i < |d| :: IsDigit(d[i])
    ensures Value(d) > 0 && Digits(Value(d)) == d
  {
    var front := d[..|d| - 1];
    assert IsDigit(d[|d| - 1]);
    assert d == front + [d[|d| - 1]];
    if front != [] {
      DigitsOfValue(front);
    } else {
      assert IsDigit(d[0]) && Value(front) == 0;
    }
  }

  lemma DigitsInjective(m: nat, n: nat)
    requires Digits(m) == Digits(n)
    ensures m == n
  {
    ValueOfDigits(m);
    ValueOfDigits(n);
  }

  lemma Regroup(a: Text, b: Text, c: Text)
    ensures (a + b) + c == a + (b + c)
  {
  }

  predicate EndsWith(t: Text, suffix: Text) {
    |suffix| <= |t| && t[|t| - |suffix|..] == suffix
  }

  /** A numeral followed by a non-digit determines both the numeral and the rest. */
  lemma {:induction false} NumeralSplit(a: Text, x: Text, b: Text, y: Text)
    requires forall i | 0 <= i < |a| :: IsDigit(a[i])
    requires forall i | 0 <= i < |b| :: IsDigit(b[i])
    requires x != [] ==> !IsDigit(x[0])
    requires y != [] ==> !IsDigit(y[0])
    requires a + x == b + y
    ensures a == b && x == y
  {
    var w := a + x;
    assert forall i | 0 <= i < |b| :: IsDigit(w[i]) by {
      assert forall i | 0 <= i < |b| :: w[i] == b[i];
    }
    assert forall i | 0 <= i < |a| :: IsDigit(w[i]);
    assert |a| < |w| ==> w[|a|] == x[0];
    assert |b| < |w| ==> w[|b|] == y[0];
    assert a == (a + x)[..|a|] == (b + y)[..|b|] == b;
    assert x == (a + x)[|a|..] == (b + y)[|b|..] == y;
  }
}
