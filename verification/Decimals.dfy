/** Decimal numbers as the program's library represents them, and the uniqueness of their normal form. */
module Decimals {

  type Digit = d: int | 0 <= d < 10

  /** (-1)^negative * digits * 10^exponent. */
  datatype Decimal = Decimal(negative: bool, digits: seq<Digit>, exponent: int)
  {
    /** The library keeps no leading zeros, and zero as one digit. */
    predicate WellFormed() {
      digits != [] && (|digits| > 1 ==> digits[0] != 0)
    }

    predicate Zero() { forall i :: 0 <= i < |digits| ==> digits[i] == 0 }
  }

  function Coefficient(ds: seq<Digit>): nat {
    if ds == [] then 0 else Coefficient(ds[..|ds| - 1]) * 10 + ds[|ds| - 1]
  }

  function Pow10(n: nat): (r: nat)
    ensures r >= 1
  {
    if n == 0 then 1 else 10 * Pow10(n - 1)
  }

  /** A number in units of 10^low. */
  function Scaled(d: Decimal, low: int): int
    requires low <= d.exponent
  {
    Signed(d.negative, Coefficient(d.digits) * Pow10(d.exponent - low))
  }

  function Signed(negative: bool, n: nat): int { if negative then 0 - n else n }

  function Lower(a: int, b: int): int { if a <= b then a else b }

  /** Equality as numbers: scale and the sign of zero do not matter. */
  predicate SameValue(a: Decimal, b: Decimal) {
    Scaled(a, Lower(a.exponent, b.exponent)) == Scaled(b, Lower(a.exponent, b.exponent))
  }

  // ----- powers and coefficients -----

  lemma {:induction false} Times(a: nat, b: nat, c: nat)
    ensures a * (b * c) == (a * b) * c
  {
  }

  lemma {:induction false} PowAdd(a: nat, b: nat)
    ensures Pow10(a + b) == Pow10(a) * Pow10(b)
  {
    if a > 0 {
      PowAdd(a - 1, b);
      Times(10, Pow10(a - 1), Pow10(b));
    }
  }

  lemma {:induction false} CoefficientJoin(a: seq<Digit>, b: seq<Digit>)
    ensures Coefficient(a + b) == Coefficient(a) * Pow10(|b|) + Coefficient(b)
  {
    if b == [] {
      assert a + b == a;
    } else {
      hide *;
      var front := b[..|b| - 1];
      LastOut(a, b);
      LastOut([], b);
      assert [] + b == b && [] + front == front;
      CoefficientJoin(a, front);
      PowerUp(|front|);
      TenTimes(Coefficient(a), Pow10(|front|));
    }
  }

  lemma {:induction false} LastOut(a: seq<Digit>, b: seq<Digit>)
    requires b != []
    ensures Coefficient(a + b) == Coefficient(a + b[..|b| - 1]) * 10 + b[|b| - 1]
  {
    assert (a + b)[..|a + b| - 1] == a + b[..|b| - 1];
  }

  lemma {:induction false} PowerUp(n: nat)
    ensures Pow10(n + 1) == 10 * Pow10(n)
  {
  }

  lemma {:induction false} TenTimes(x: int, y: int)
    ensures (x * y) * 10 == x * (10 * y)
  {
  }

  lemma {:induction false} CoefficientBound(ds: seq<Digit>)
    ensures Coefficient(ds) < Pow10(|ds|)
  {
    if ds != [] { CoefficientBound(ds[..|ds| - 1]); }
  }

  lemma {:induction false} CoefficientZero(ds: seq<Digit>)
    ensures Coefficient(ds) == 0 <==> forall i :: 0 <= i < |ds| ==> ds[i] == 0
  {
    if ds != [] { CoefficientZero(ds[..|ds| - 1]); }
  }

  lemma {:induction false} LeadingPositive(ds: seq<Digit>)
    requires ds != [] && ds[0] != 0
    ensures Coefficient(ds) > 0
  {
    CoefficientZero(ds);
  }

  /** Digits of one length are determined by their coefficient. */
  lemma {:induction false} DigitsDetermined(a: seq<Digit>, b: seq<Digit>)
    requires |a| == |b| && Coefficient(a) == Coefficient(b)
    ensures a == b
  {
    if a != [] {
      DigitsDetermined(a[..|a| - 1], b[..|b| - 1]);
      assert a == a[..|a| - 1] + [a[|a| - 1]] && b == b[..|b| - 1] + [b[|b| - 1]];
    }
  }

  /** Without leading zeros the coefficient determines the length too. */
  lemma {:induction false} NumeralDetermined(a: seq<Digit>, b: seq<Digit>)
    requires (a == [] || a[0] != 0) && (b == [] || b[0] != 0) && Coefficient(a) == Coefficient(b)
    ensures a == b
  {
    if a == [] || b == [] {
      if a != [] { LeadingPositive(a); }
      if b != [] { LeadingPositive(b); }
    } else {
      NumeralDetermined(a[..|a| - 1], b[..|b| - 1]);
      assert a == a[..|a| - 1] + [a[|a| - 1]] && b == b[..|b| - 1] + [b[|b| - 1]];
    }
  }

  // ----- the unique normal form -----

  /** m * 10^e determines m and e once 10 does not divide m. */
  lemma {:induction false} NormalFormUnique(m: nat, a: nat, n: nat, b: nat)
    requires m % 10 != 0 && n % 10 != 0 && m * Pow10(a) == n * Pow10(b)
    ensures m == n && a == b
  {
    if a < b {
      OnlySmaller(m, a, n, b);
    } else {
      OnlySmaller(n, b, m, a);
    }
  }

  lemma {:induction false} OnlySmaller(m: nat, a: nat, n: nat, b: nat)
    requires a <= b && m % 10 != 0 && m * Pow10(a) == n * Pow10(b)
    ensures m == n && a == b
  {
    PowAdd(a, b - a);
    Regrouped(n, Pow10(b - a), Pow10(a));
    var k := Pow10(b - a);
    Cancel(m, n * k, Pow10(a));
    if a < b {
      Tenfold(n, Pow10(b - a - 1));
    }
  }

  lemma {:induction false} Regrouped(n: int, x: int, y: int)
    ensures n * (y * x) == (n * x) * y
  {
  }

  lemma {:induction false} Tenfold(n: int, x: int)
    ensures (n * (10 * x)) % 10 == 0
  {
    assert n * (10 * x) == 10 * (n * x);
  }

  lemma {:induction false} Cancel(x: int, y: int, c: int)
    requires c >= 1 && x * c == y * c
    ensures x == y
  {
    if x < y { Grows(x, y, c); } else if y < x { Grows(y, x, c); }
  }

  lemma {:induction false} Grows(x: int, y: int, c: int)
    requires x < y && c >= 1
    ensures x * c < y * c
  {
  }

  /** Values compare alike in any common unit. */
  lemma {:induction false} SameValueAt(a: Decimal, b: Decimal, low: int)
    requires low <= a.exponent && low <= b.exponent
    ensures SameValue(a, b) <==> Scaled(a, low) == Scaled(b, low)
  {
    var mid := Lower(a.exponent, b.exponent);
    Rescale(a, mid, low);
    Rescale(b, mid, low);
    var k := Pow10(mid - low);
    var x, y := Coefficient(a.digits) * Pow10(a.exponent - mid), Coefficient(b.digits) * Pow10(b.exponent - mid);
    SignedScale(a.negative, x, b.negative, y, k);
  }

  lemma {:induction false} Rescale(d: Decimal, mid: int, low: int)
    requires low <= mid <= d.exponent
    ensures Coefficient(d.digits) * Pow10(d.exponent - low) == (Coefficient(d.digits) * Pow10(d.exponent - mid)) * Pow10(mid - low)
  {
    PowAdd(d.exponent - mid, mid - low);
    Times(Coefficient(d.digits), Pow10(d.exponent - mid), Pow10(mid - low));
  }

  lemma {:induction false} SignedScale(p: bool, x: nat, q: bool, y: nat, k: nat)
    requires k >= 1
    ensures Signed(p, x) == Signed(q, y) <==> Signed(p, x * k) == Signed(q, y * k)
  {
    if x * k == y * k { Cancel(x, y, k); }
    if x > 0 { Grows(0, x, k); }
    if y > 0 { Grows(0, y, k); }
  }

  // ----- numerals -----

  function DigitChar(d: Digit): char { ('0' as int + d) as char }

  function DigitsText(ds: seq<Digit>): (r: string)
    ensures |r| == |ds|
  {
    seq(|ds|, i requires 0 <= i < |ds| => DigitChar(ds[i]))
  }

  lemma {:induction false} DigitsRead(a: seq<Digit>, b: seq<Digit>)
    requires DigitsText(a) == DigitsText(b)
    ensures a == b
  {
    assert |a| == |DigitsText(a)| == |DigitsText(b)| == |b|;
    forall i | 0 <= i < |a| ensures a[i] == b[i] {
      assert DigitsText(a)[i] == DigitChar(a[i]) && DigitsText(b)[i] == DigitChar(b[i]);
    }
  }

  /** The digits of a natural number. */
  function Numeral(n: nat): (r: seq<Digit>)
    ensures r != [] && Coefficient(r) == n && (|r| > 1 ==> r[0] != 0)
  {
    if n < 10 then
      assert Coefficient([n]) == n by { assert [n][..0] == []; }
      [n]
    else
      var front := Numeral(n / 10);
      assert (front + [n % 10])[..|front|] == front;
      assert front[0] != 0 by { LeadingOf(front, n / 10); }
      front + [n % 10]
  }

  lemma {:induction false} LeadingOf(ds: seq<Digit>, n: nat)
    requires ds != [] && Coefficient(ds) == n && n >= 1 && (|ds| > 1 ==> ds[0] != 0)
    ensures ds[0] != 0
  {
    if |ds| == 1 { assert ds[..0] == []; }
  }

  function IntText(n: int): string {
    if n < 0 then "-" + DigitsText(Numeral(-n)) else DigitsText(Numeral(n))
  }

  lemma {:induction false} IntRead(m: int, n: int)
    requires IntText(m) == IntText(n)
    ensures m == n
  {
    assert m < 0 <==> IntText(m)[0] == '-';
    assert n < 0 <==> IntText(n)[0] == '-';
    if m < 0 {
      assert IntText(m)[1..] == DigitsText(Numeral(-m)) && IntText(n)[1..] == DigitsText(Numeral(-n));
      DigitsRead(Numeral(-m), Numeral(-n));
    } else {
      DigitsRead(Numeral(m), Numeral(n));
    }
  }

  // ----- trailing zeros -----

  /** Digits without their trailing zeros. */
  function Stripped(ds: seq<Digit>): (r: seq<Digit>)
    ensures |r| <= |ds| && r == ds[..|r|]
    ensures forall i :: |r| <= i < |ds| ==> ds[i] == 0
    ensures r != [] ==> r[|r| - 1] != 0
  {
    if ds == [] then []
    else if ds[|ds| - 1] != 0 then ds
    else Stripped(ds[..|ds| - 1])
  }

  /** Stripping keeps the value, and leaves a coefficient 10 does not divide. */
  lemma {:induction false} StrippedValue(ds: seq<Digit>)
    ensures Coefficient(ds) == Coefficient(Stripped(ds)) * Pow10(|ds| - |Stripped(ds)|)
    ensures Coefficient(ds) != 0 ==> Coefficient(Stripped(ds)) % 10 != 0
  {
    if ds != [] && ds[|ds| - 1] == 0 {
      StrippedValue(ds[..|ds| - 1]);
      var r := Stripped(ds);
      Times10(Coefficient(r), Pow10(|ds| - 1 - |r|));
    }
  }

  lemma {:induction false} Times10(a: int, b: int)
    ensures (a * b) * 10 == a * (10 * b)
  {
  }

  // ----- reading digits -----

  predicate IsDigit(c: char) { '0' <= c <= '9' }

  predicate AllDigits(s: string) { forall i :: 0 <= i < |s| ==> IsDigit(s[i]) }

  function DigitsOf(s: string): (r: seq<Digit>)
    requires AllDigits(s)
    ensures |r| == |s|
  {
    seq(|s|, i requires 0 <= i < |s| => assert IsDigit(s[i]); s[i] as int - '0' as int)
  }

  lemma {:induction false} DigitsOnly(ds: seq<Digit>)
    ensures forall c :: c in DigitsText(ds) ==> IsDigit(c)
  {
  }

  lemma {:induction false} DigitsBack(ds: seq<Digit>)
    ensures AllDigits(DigitsText(ds)) && DigitsOf(DigitsText(ds)) == ds
  {
  }
}
