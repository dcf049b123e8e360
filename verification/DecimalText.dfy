/** Printing and reading decimals, and the text a bar fingerprint digests (backtest/dataset.py). */
module DecimalText {
  import opened Wrappers
  import opened Decimals

  // ----- printing -----

  function Zeros(n: nat): (r: seq<Digit>)
    ensures |r| == n && forall i :: 0 <= i < n ==> r[i] == 0
  {
    seq(n, i => 0)
  }

  /** Where the point falls in fixed notation: the digits before and after it. */
  function IntegerPart(d: Decimal): seq<Digit> {
    if d.Zero() && d.exponent > 0 then [0]
    else
      var dot := d.exponent + |d.digits|;
      if dot < 0 then [0]
      else if dot > |d.digits| then d.digits + Zeros(dot - |d.digits|)
      else if dot == 0 then [0]
      else d.digits[..dot]
  }

  function FractionPart(d: Decimal): seq<Digit> {
    if d.Zero() && d.exponent > 0 then []
    else
      var dot := d.exponent + |d.digits|;
      if dot < 0 then Zeros(-dot) + d.digits
      else if dot > |d.digits| then []
      else d.digits[dot..]
  }

  /** The library's fixed notation. */
  function Fixed(d: Decimal): string {
    (if d.negative then "-" else "") + DigitsText(IntegerPart(d)) +
    (if FractionPart(d) == [] then "" else "." + DigitsText(FractionPart(d)))
  }

  /** A text without its trailing occurrences of a character. */
  function WithoutTrailing(s: string, c: char): string {
    if s == "" || s[|s| - 1] != c then s else WithoutTrailing(s[..|s| - 1], c)
  }

  /** Fixed notation with the fraction's trailing zeros, and a bare point, removed. */
  function Print(d: Decimal): string {
    var text := Fixed(d);
    if '.' in text then WithoutTrailing(WithoutTrailing(text, '0'), '.') else text
  }

  // ----- reading -----

  datatype Input = Number(d: Decimal) | NonFinite | Text(s: string) | Other

  function PointAt(s: string): (n: nat)
    ensures n <= |s| && (n < |s| ==> s[n] == '.') && '.' !in s[..n]
  {
    if s == "" || s[0] == '.' then 0
    else
      var n := PointAt(s[1..]);
      assert s[..n + 1] == [s[0]] + s[1..][..n];
      n + 1
  }

  /** One to eighteen digits, starting with a zero only if it is alone, and then optionally a point and one to ten digits. */
  predicate MatchesMoney(s: string) {
    var n := PointAt(s);
    && 1 <= n <= 18 && AllDigits(s[..n]) && (s[0] == '0' ==> n == 1)
    && (n < |s| ==> 1 <= |s| - n - 1 <= 10 && AllDigits(s[n + 1..]))
  }

  function WithoutLeadingZeros(ds: seq<Digit>): (r: seq<Digit>)
    ensures ds != [] ==> r != [] && (|r| > 1 ==> r[0] != 0)
  {
    if |ds| <= 1 || ds[0] != 0 then ds else WithoutLeadingZeros(ds[1..])
  }

  /** The decimal a matching text denotes. */
  function Denoted(s: string): (d: Decimal)
    requires MatchesMoney(s)
    ensures d.WellFormed() && !d.negative
  {
    var n := PointAt(s);
    if n == |s| then Decimal(false, WithoutLeadingZeros(DigitsOf(s[..n])), 0)
    else Decimal(false, WithoutLeadingZeros(DigitsOf(s[..n]) + DigitsOf(s[n + 1..])), -(|s| - n - 1))
  }

  /** The exponent of the leading digit. */
  function Adjusted(d: Decimal): int { d.exponent + |d.digits| - 1 }

  function Read(input: Input): Result<Decimal> {
    match input
    case NonFinite => Err("INVALID_DECIMAL")
    case Other => Err("INVALID_DECIMAL")
    case Text(s) => if MatchesMoney(s) then Ok(Denoted(s)) else Err("INVALID_DECIMAL")
    case Number(d) =>
      if Adjusted(d) > 17 || d.exponent < -10 then Err("INVALID_DECIMAL")
      else if MatchesMoney(Print(d)) then Ok(Denoted(Print(d)))
      else Err("INVALID_DECIMAL")
  }

  // ----- plain numerals: an integer part and a fraction -----

  /** I.F as a decimal. */
  function Joined(whole: seq<Digit>, fraction: seq<Digit>): Decimal { Decimal(false, whole + fraction, -|fraction|) }

  /** No leading zeros before the point, no trailing ones after it. */
  predicate Plain(whole: seq<Digit>, fraction: seq<Digit>) {
    whole != [] && (|whole| > 1 ==> whole[0] != 0) && (fraction != [] ==> fraction[|fraction| - 1] != 0)
  }

  function Written(whole: seq<Digit>, fraction: seq<Digit>): string {
    DigitsText(whole) + if fraction == [] then "" else "." + DigitsText(fraction)
  }

  lemma {:induction false} LeadingZerosValue(ds: seq<Digit>)
    ensures Coefficient(WithoutLeadingZeros(ds)) == Coefficient(ds)
  {
    if |ds| > 1 && ds[0] == 0 {
      LeadingZerosValue(ds[1..]);
      CoefficientJoin([0], ds[1..]);
      assert ds == [0] + ds[1..] && [0][..0] == [];
    }
  }

  /** Plain numerals of one value are one numeral. */
  lemma {:induction false} PlainDetermined(i: seq<Digit>, f: seq<Digit>, j: seq<Digit>, g: seq<Digit>)
    requires Plain(i, f) && Plain(j, g) && SameValue(Joined(i, f), Joined(j, g))
    ensures i == j && f == g
  {
    if |f| == |g| {
      SameLengthDetermined(i, f, j, g);
    } else if |f| < |g| {
      LongerImpossible(i, f, j, g);
    } else {
      LongerImpossible(j, g, i, f);
    }
  }

  lemma {:induction false} SameLengthDetermined(i: seq<Digit>, f: seq<Digit>, j: seq<Digit>, g: seq<Digit>)
    requires Plain(i, f) && Plain(j, g) && SameValue(Joined(i, f), Joined(j, g)) && |f| == |g|
    ensures i == j && f == g
  {
    CoefficientJoin(i, f);
    CoefficientJoin(j, g);
    CoefficientBound(f);
    CoefficientBound(g);
    QuotientsAgree(Coefficient(i), Coefficient(f), Coefficient(j), Coefficient(g), Pow10(|f|));
    DigitsDetermined(f, g);
    WholeDetermined(i, j);
  }

  lemma {:induction false} QuotientsAgree(q: int, r: int, p: int, s: int, k: int)
    requires 0 <= r < k && 0 <= s < k && q * k + r == p * k + s
    ensures q == p && r == s
  {
    if q < p { AtLeastOne(q, p, k); } else if p < q { AtLeastOne(p, q, k); }
  }

  lemma {:induction false} AtLeastOne(q: int, p: int, k: int)
    requires q < p && 0 < k
    ensures q * k + k <= p * k
  {
    assert p * k - q * k == (p - q) * k;
    if p - q > 1 { Grows(1, p - q, k); }
  }

  lemma {:induction false} WholeDetermined(i: seq<Digit>, j: seq<Digit>)
    requires i != [] && j != [] && (|i| > 1 ==> i[0] != 0) && (|j| > 1 ==> j[0] != 0) && Coefficient(i) == Coefficient(j)
    ensures i == j
  {
    assert i[..0] == [] && j[..0] == [];
    if |i| == |j| {
      DigitsDetermined(i, j);
    } else if i[0] == 0 {
      LeadingPositive(j);
    } else if j[0] == 0 {
      LeadingPositive(i);
    } else {
      NumeralDetermined(i, j);
    }
  }

  lemma {:induction false} LongerImpossible(i: seq<Digit>, f: seq<Digit>, j: seq<Digit>, g: seq<Digit>)
    requires Plain(j, g) && |f| < |g|
    ensures !SameValue(Joined(i, f), Joined(j, g))
  {
    hide Coefficient, Pow10;
    LastDigit(j + g);
    PowStep(|g| - |f| - 1);
    Tenfold(Coefficient(i + f), Pow10(|g| - |f| - 1));
  }

  lemma {:induction false} LastDigit(ds: seq<Digit>)
    requires ds != []
    ensures Coefficient(ds) % 10 == ds[|ds| - 1]
  {
  }

  lemma {:induction false} PowStep(k: nat)
    ensures Pow10(k + 1) == 10 * Pow10(k) && Pow10(0) == 1
  {
  }

  // ----- what is printed -----

  lemma {:induction false} ZeroesDropped(head: string, f: seq<Digit>)
    requires head != "" && head[|head| - 1] == '.'
    ensures WithoutTrailing(head + DigitsText(f), '0') == head + DigitsText(Stripped(f))
  {
    var s := head + DigitsText(f);
    if f == [] {
      assert s == head;
    } else {
      var front, last := f[..|f| - 1], f[|f| - 1];
      assert s[|s| - 1] == DigitChar(last);
      assert s[..|s| - 1] == head + DigitsText(front);
      if last == 0 { ZeroesDropped(head, front); }
    }
  }

  /** Printing a decimal that is not negative writes its plain numeral. */
  lemma {:induction false} PrintIsWritten(d: Decimal)
    requires !d.negative
    ensures Print(d) == Written(IntegerPart(d), Stripped(FractionPart(d)))
  {
    var i, f := IntegerPart(d), FractionPart(d);
    hide IntegerPart, FractionPart, Stripped;
    DigitsOnly(i);
    if f == [] {
      assert Fixed(d) == DigitsText(i);
      assert Stripped(f) == [];
    } else {
      var head := DigitsText(i) + ".";
      assert Fixed(d) == head + DigitsText(f);
      assert head[|head| - 1] == '.' && '.' in head;
      ZeroesDropped(head, f);
      PointDropped(i, Stripped(f));
    }
  }

  lemma {:induction false} PointDropped(i: seq<Digit>, g: seq<Digit>)
    ensures WithoutTrailing(DigitsText(i) + "." + DigitsText(g), '.') == Written(i, g)
  {
    var s := DigitsText(i) + "." + DigitsText(g);
    DigitsOnly(i);
    DigitsOnly(g);
    if g == [] {
      assert s[..|s| - 1] == DigitsText(i);
      if i != [] { assert DigitsText(i)[|i| - 1] in DigitsText(i); }
    } else {
      assert s[|s| - 1] == DigitsText(g)[|g| - 1] && DigitsText(g)[|g| - 1] in DigitsText(g);
      assert s == Written(i, g);
    }
  }

  lemma {:induction false} PrintPlain(d: Decimal)
    requires d.WellFormed() && !d.negative
    ensures Plain(IntegerPart(d), Stripped(FractionPart(d)))
  {
  }

  lemma {:induction false} ZerosWorthNothing(n: nat, ds: seq<Digit>)
    ensures Coefficient(Zeros(n)) == 0 && Coefficient(Zeros(n) + ds) == Coefficient(ds)
  {
    CoefficientZero(Zeros(n));
    CoefficientJoin(Zeros(n), ds);
  }

  /** Fixed notation keeps the value. */
  lemma {:induction false} FixedValue(d: Decimal)
    requires d.WellFormed() && !d.negative
    ensures SameValue(Joined(IntegerPart(d), FractionPart(d)), d)
  {
    var i, f, dot := IntegerPart(d), FractionPart(d), d.exponent + |d.digits|;
    CoefficientZero(d.digits);
    assert [0] == Zeros(1);
    if d.Zero() && d.exponent > 0 {
      ZerosWorthNothing(1, []);
      assert i + f == Zeros(1) + [];
    } else if dot < 0 {
      ZerosWorthNothing(1 - dot, d.digits);
      assert i + f == Zeros(1 - dot) + d.digits;
    } else if dot > |d.digits| {
      ZerosWorthNothing(dot - |d.digits|, []);
      CoefficientJoin(d.digits, Zeros(dot - |d.digits|));
      assert i + f == i && Zeros(dot - |d.digits|) + [] == Zeros(dot - |d.digits|);
    } else if dot == 0 {
      ZerosWorthNothing(1, d.digits);
      assert i + f == Zeros(1) + d.digits;
    } else {
      assert i + f == d.digits;
    }
  }

  /** Dropping the fraction's trailing zeros keeps the value. */
  lemma {:induction false} TrimmedValue(i: seq<Digit>, f: seq<Digit>)
    ensures SameValue(Joined(i, Stripped(f)), Joined(i, f))
  {
    var g := Stripped(f);
    var z := f[|g|..];
    assert f == g + z && z == Zeros(|z|);
    assert i + f == (i + g) + z;
    CoefficientJoin(i + g, z);
    ZerosWorthNothing(|z|, []);
    assert Zeros(|z|) + [] == z;
    assert Pow10(0) == 1;
  }

  lemma {:induction false} SameValueChains(a: Decimal, b: Decimal, c: Decimal)
    requires SameValue(a, b) && SameValue(b, c)
    ensures SameValue(a, c)
  {
    var low := Lower(a.exponent, Lower(b.exponent, c.exponent));
    SameValueAt(a, b, low);
    SameValueAt(b, c, low);
    SameValueAt(a, c, low);
  }

  lemma {:induction false} PrintValue(d: Decimal)
    requires d.WellFormed() && !d.negative
    ensures SameValue(Joined(IntegerPart(d), Stripped(FractionPart(d))), d)
  {
    hide SameValue, Stripped, IntegerPart, FractionPart;
    FixedValue(d);
    TrimmedValue(IntegerPart(d), FractionPart(d));
    SameValueChains(Joined(IntegerPart(d), Stripped(FractionPart(d))), Joined(IntegerPart(d), FractionPart(d)), d);
  }

  // ----- what is read -----

  lemma {:induction false} PointAfter(a: string, rest: string)
    requires '.' !in a && (rest == "" || rest[0] == '.')
    ensures PointAt(a + rest) == |a|
  {
    if a == "" {
      assert a + rest == rest;
    } else {
      assert (a + rest)[1..] == a[1..] + rest;
      PointAfter(a[1..], rest);
    }
  }

  lemma {:induction false} PointFound(i: seq<Digit>, f: seq<Digit>)
    ensures PointAt(Written(i, f)) == |i|
  {
    DigitsOnly(i);
    PointAfter(DigitsText(i), if f == [] then "" else "." + DigitsText(f));
  }

  lemma {:induction false} WrittenParts(i: seq<Digit>, f: seq<Digit>)
    requires i != []
    ensures Written(i, f)[..|i|] == DigitsText(i)
    ensures if f == [] then |Written(i, f)| == |i|
            else |Written(i, f)| == |i| + 1 + |f| && Written(i, f)[|i| + 1..] == DigitsText(f)
  {
  }

  lemma {:induction false} WrittenRead(i: seq<Digit>, f: seq<Digit>, j: seq<Digit>, g: seq<Digit>)
    requires i != [] && j != [] && Written(i, f) == Written(j, g)
    ensures i == j && f == g
  {
    PointFound(i, f);
    PointFound(j, g);
    WrittenParts(i, f);
    WrittenParts(j, g);
    DigitsRead(i, j);
    if f != [] { DigitsRead(f, g); }
  }

  /** A plain numeral of at most 18 and 10 digits is accepted, and read as what it says. */
  lemma {:induction false} WrittenAccepted(i: seq<Digit>, f: seq<Digit>)
    requires Plain(i, f)
    ensures MatchesMoney(Written(i, f)) <==> |i| <= 18 && |f| <= 10
    ensures MatchesMoney(Written(i, f)) ==> SameValue(Denoted(Written(i, f)), Joined(i, f))
  {
    PointFound(i, f);
    WrittenParts(i, f);
    DigitsBack(i);
    DigitsBack(f);
    assert Written(i, f)[0] == DigitsText(i)[0] == DigitChar(i[0]);
    hide PointAt, Written, DigitsText;
    WrittenDenotes(i, f);
    hide DigitsOf, WithoutLeadingZeros, Denoted;
  }

  lemma {:induction false} WrittenDenotes(i: seq<Digit>, f: seq<Digit>)
    requires Plain(i, f)
    ensures MatchesMoney(Written(i, f)) ==> SameValue(Denoted(Written(i, f)), Joined(i, f))
  {
    PointFound(i, f);
    WrittenParts(i, f);
    DigitsBack(i);
    DigitsBack(f);
    hide PointAt, Written, DigitsText;
    LeadingZerosValue(i);
    LeadingZerosValue(i + f);
    assert f == [] ==> i + f == i;
    hide Coefficient, Pow10, WithoutLeadingZeros;
  }

  lemma {:induction false} NegativeRefused(d: Decimal)
    requires d.negative
    ensures !MatchesMoney(Print(d))
  {
    assert Fixed(d)[0] == '-';
    var s := Fixed(d);
    KeepsFirst(s, '0');
    var t := WithoutTrailing(s, '0');
    KeepsFirst(t, '.');
    var u := Print(d);
    if MatchesMoney(u) { assert u[..PointAt(u)][0] == u[0]; }
  }

  lemma {:induction false} KeepsFirst(s: string, c: char)
    requires s != "" && s[0] == '-' && c != '-'
    ensures WithoutTrailing(s, c) != "" && WithoutTrailing(s, c)[0] == '-'
  {
    if s[|s| - 1] == c { KeepsFirst(s[..|s| - 1], c); }
  }

  // ----- results -----

  /** Texts are equal exactly when the values are. */
  lemma {:induction false} PrintsExactly(a: Decimal, b: Decimal)
    requires a.WellFormed() && b.WellFormed() && !a.negative && !b.negative
    ensures Print(a) == Print(b) <==> SameValue(a, b)
  {
    hide Print, SameValue, Stripped, IntegerPart, FractionPart, Written;
    var i, f, j, g := IntegerPart(a), Stripped(FractionPart(a)), IntegerPart(b), Stripped(FractionPart(b));
    PrintIsWritten(a);
    PrintIsWritten(b);
    PrintPlain(a);
    PrintPlain(b);
    PrintValue(a);
    PrintValue(b);
    if Print(a) == Print(b) {
      WrittenRead(i, f, j, g);
      Flipped(Joined(i, f), a);
      SameValueChains(a, Joined(i, f), b);
    }
    if SameValue(a, b) {
      SameValueChains(Joined(i, f), a, b);
      Flipped(Joined(j, g), b);
      SameValueChains(Joined(i, f), b, Joined(j, g));
      PlainDetermined(i, f, j, g);
    }
  }

  lemma {:induction false} Flipped(a: Decimal, b: Decimal)
    requires SameValue(a, b)
    ensures SameValue(b, a)
  {
  }

  /** A decimal is accepted exactly when its sign is not negative, its adjusted exponent is at most 17 and its
      exponent at least -10, and then read back as the same number. A signed zero is refused, and so is a zero
      of a high exponent. */
  lemma {:induction false} ReadsExactly(d: Decimal)
    requires d.WellFormed()
    ensures Read(Number(d)).Ok? <==> !d.negative && Adjusted(d) <= 17 && d.exponent >= -10
    ensures Read(Number(d)).Ok? ==> SameValue(Read(Number(d)).value, d)
  {
    if d.negative {
      NegativeRefused(d);
    } else {
      var i, f := IntegerPart(d), Stripped(FractionPart(d));
      PrintIsWritten(d);
      PrintPlain(d);
      PrintValue(d);
      WrittenAccepted(i, f);
      assert Adjusted(d) <= 17 && d.exponent >= -10 ==> |i| <= 18 && |f| <= 10;
      hide Print, SameValue, Stripped, IntegerPart, FractionPart, Written, MatchesMoney, Denoted;
      if MatchesMoney(Print(d)) { SameValueChains(Denoted(Print(d)), Joined(i, f), d); }
    }
  }

  /** Whatever is accepted prints to a text that is accepted and read as the same number. */
  lemma {:induction false} RoundTrips(input: Input)
    requires input.Number? ==> input.d.WellFormed()
    requires Read(input).Ok?
    ensures
      var d := Read(input).value;
      && d.WellFormed() && !d.negative && Adjusted(d) <= 17 && d.exponent >= -10
      && Read(Text(Print(d))).Ok? && SameValue(Read(Text(Print(d))).value, d)
  {
    var s := if input.Number? then Print(input.d) else input.s;
    assert MatchesMoney(s);
    DenotedSmall(s);
    hide Print, Denoted, MatchesMoney, SameValue;
    ReadsExactly(Denoted(s));
  }

  lemma {:induction false} ShorterWithout(ds: seq<Digit>)
    ensures |WithoutLeadingZeros(ds)| <= |ds|
  {
    if |ds| > 1 && ds[0] == 0 { ShorterWithout(ds[1..]); }
  }

  lemma {:induction false} DenotedSmall(s: string)
    requires MatchesMoney(s)
    ensures Adjusted(Denoted(s)) <= 17 && Denoted(s).exponent >= -10
  {
    var n := PointAt(s);
    ShorterWithout(DigitsOf(s[..n]));
    if n < |s| { ShorterWithout(DigitsOf(s[..n]) + DigitsOf(s[n + 1..])); }
  }

  // ----- the text a fingerprint digests -----

  /** A bar as the fingerprint sees it; `at` is the text of its start. */
  datatype Quote = Quote(
    at: string, open: Decimal, high: Decimal, low: Decimal, close: Decimal, volume: int, openInterest: Option<Decimal>)
  {
    predicate Proper() {
      && Accepted(open) && Accepted(high) && Accepted(low) && Accepted(close)
      && (openInterest.Some? ==> Accepted(openInterest.value)) && Clean(at)
    }
  }

  /** What reading leaves of a decimal. */
  predicate Accepted(d: Decimal) { d.WellFormed() && !d.negative }

  predicate Clean(s: string) { '|' !in s && '\n' !in s }

  function Columns(instrument: string, q: Quote): (r: seq<string>)
    ensures |r| == 9
  {
    [instrument, "MINUTE", q.at, Print(q.open), Print(q.high), Print(q.low), Print(q.close), IntText(q.volume),
     InterestText(q.openInterest)]
  }

  function InterestText(interest: Option<Decimal>): string {
    if interest.None? then "ABSENT" else Print(interest.value)
  }

  /** Columns joined by bars, and a newline. */
  function Line(columns: seq<string>): string
    requires columns != []
  {
    if |columns| == 1 then columns[0] + "\n" else columns[0] + "|" + Line(columns[1..])
  }

  function Lines(instrument: string, qs: seq<Quote>): string {
    if qs == [] then "" else Line(Columns(instrument, qs[0])) + Lines(instrument, qs[1..])
  }

  const HEADER := "historical-bars-v1\n"

  function Preimage(instrument: string, qs: seq<Quote>): string { HEADER + Lines(instrument, qs) }

  function Concat(lines: seq<string>): string {
    if lines == [] then "" else lines[0] + Concat(lines[1..])
  }

  lemma {:induction false} ConcatAppend(lines: seq<string>, line: string)
    ensures Concat(lines + [line]) == Concat(lines) + line
  {
    if lines == [] {
      assert lines + [line] == [line] && [line][1..] == [];
    } else {
      assert (lines + [line])[1..] == lines[1..] + [line];
      ConcatAppend(lines[1..], line);
    }
  }

  lemma {:induction false} LinesAppend(instrument: string, qs: seq<Quote>, q: Quote)
    ensures Lines(instrument, qs + [q]) == Lines(instrument, qs) + Line(Columns(instrument, q))
  {
    hide Columns, Line;
    if qs == [] {
      assert qs + [q] == [q] && [q][1..] == [];
    } else {
      assert (qs + [q])[1..] == qs[1..] + [q];
      LinesAppend(instrument, qs[1..], q);
    }
  }

  /** The loop that appends a line for each bar and joins them. */
  method ComputePreimage(instrument: string, qs: seq<Quote>) returns (text: string)
    ensures text == Preimage(instrument, qs)
  {
    hide Columns, Line;
    var lines := [HEADER];
    assert lines[1..] == [];
    for i := 0 to |qs|
      invariant Concat(lines) == Preimage(instrument, qs[..i])
    {
      var line := Line(Columns(instrument, qs[i]));
      ConcatAppend(lines, line);
      LinesAppend(instrument, qs[..i], qs[i]);
      assert qs[..i] + [qs[i]] == qs[..i + 1];
      lines := lines + [line];
    }
    assert qs[..|qs|] == qs;
    text := Concat(lines);
  }

  predicate Separator(c: char) { c == '|' || c == '\n' }

  /** A clean text up to its separator is read off uniquely. */
  lemma {:induction false} FirstRead(a: string, c: char, x: string, b: string, d: char, y: string)
    requires Clean(a) && Clean(b) && Separator(c) && Separator(d) && a + [c] + x == b + [d] + y
    ensures a == b && c == d && x == y
  {
    var s, t := a + [c] + x, b + [d] + y;
    assert s[|a|] == c && t[|b|] == d;
    assert forall k :: 0 <= k < |a| ==> s[k] == a[k] && a[k] in a;
    assert forall k :: 0 <= k < |b| ==> t[k] == b[k] && b[k] in b;
    assert |a| == |b|;
    assert s[..|a|] == a && t[..|b|] == b && s[|a| + 1..] == x && t[|b| + 1..] == y;
  }

  predicate AllClean(columns: seq<string>) { forall i :: 0 <= i < |columns| ==> Clean(columns[i]) }

  /** A line of clean columns is read off uniquely from the front of a text. */
  lemma {:induction false} LineRead(a: seq<string>, x: string, b: seq<string>, y: string)
    requires a != [] && b != [] && AllClean(a) && AllClean(b) && Line(a) + x == Line(b) + y
    ensures a == b && x == y
  {
    hide Clean;
    var c, d := if |a| == 1 then '\n' else '|', if |b| == 1 then '\n' else '|';
    var u, v := if |a| == 1 then x else Line(a[1..]) + x, if |b| == 1 then y else Line(b[1..]) + y;
    assert Line(a) + x == a[0] + [c] + u;
    assert Line(b) + y == b[0] + [d] + v;
    FirstRead(a[0], c, u, b[0], d, v);
    if |a| > 1 { LineRead(a[1..], x, b[1..], y); }
    assert a == [a[0]] + a[1..] && b == [b[0]] + b[1..];
  }

  lemma {:induction false} DigitsClean(ds: seq<Digit>)
    ensures Clean(DigitsText(ds))
  {
    DigitsOnly(ds);
  }

  lemma {:induction false} PrintClean(d: Decimal)
    requires Accepted(d)
    ensures Clean(Print(d)) && Print(d) != "" && IsDigit(Print(d)[0])
  {
    var i, f := IntegerPart(d), Stripped(FractionPart(d));
    PrintIsWritten(d);
    PrintPlain(d);
    hide Print, Stripped, IntegerPart, FractionPart, Decimal.WellFormed;
    DigitsClean(i);
    DigitsClean(f);
    DigitsOnly(i);
    assert Written(i, f)[0] == DigitsText(i)[0] && DigitsText(i)[0] in DigitsText(i);
  }

  lemma {:induction false} IntClean(n: int)
    ensures Clean(IntText(n))
  {
    DigitsClean(Numeral(if n < 0 then -n else n));
  }

  lemma {:induction false} ColumnsClean(instrument: string, q: Quote)
    requires Clean(instrument) && q.Proper()
    ensures AllClean(Columns(instrument, q))
  {
    hide *;
    ProperParts(q);
    WordsClean();
    PrintClean(q.open);
    PrintClean(q.high);
    PrintClean(q.low);
    PrintClean(q.close);
    IntClean(q.volume);
    var interest := if q.openInterest.None? then "ABSENT" else Print(q.openInterest.value);
    if q.openInterest.Some? { PrintClean(q.openInterest.value); }
    ColumnsAre(instrument, q, interest);
    NineClean(instrument, "MINUTE", q.at, Print(q.open), Print(q.high), Print(q.low), Print(q.close), IntText(q.volume), interest);
  }

  lemma {:induction false} ProperParts(q: Quote)
    requires q.Proper()
    ensures Accepted(q.open) && Accepted(q.high) && Accepted(q.low) && Accepted(q.close)
    ensures (q.openInterest.Some? ==> Accepted(q.openInterest.value)) && Clean(q.at)
  {
    hide Accepted, Clean;
  }

  lemma {:induction false} WordsClean()
    ensures Clean("MINUTE") && Clean("ABSENT")
  {
  }

  lemma {:induction false} ColumnsAre(instrument: string, q: Quote, interest: string)
    requires interest == if q.openInterest.None? then "ABSENT" else Print(q.openInterest.value)
    ensures Columns(instrument, q) ==
      [instrument, "MINUTE", q.at, Print(q.open), Print(q.high), Print(q.low), Print(q.close), IntText(q.volume), interest]
  {
    hide Print, IntText;
  }

  lemma {:induction false} NineClean(a: string, b: string, c: string, d: string, e: string, f: string, g: string, h: string, i: string)
    requires Clean(a) && Clean(b) && Clean(c) && Clean(d) && Clean(e) && Clean(f) && Clean(g) && Clean(h) && Clean(i)
    ensures AllClean([a, b, c, d, e, f, g, h, i])
  {
    hide Clean;
  }

  /** Bars that differ in decimal scale at most. */
  predicate SameQuote(p: Quote, q: Quote) {
    && p.at == q.at && SameValue(p.open, q.open) && SameValue(p.high, q.high) && SameValue(p.low, q.low)
    && SameValue(p.close, q.close) && p.volume == q.volume && SameInterest(p.openInterest, q.openInterest)
  }

  predicate SameInterest(a: Option<Decimal>, b: Option<Decimal>) {
    a.Some? == b.Some? && (a.Some? ==> SameValue(a.value, b.value))
  }

  /** Each column is equal exactly when its field is. */
  lemma {:induction false} TextsExact(p: Quote, q: Quote)
    requires p.Proper() && q.Proper()
    ensures Print(p.open) == Print(q.open) <==> SameValue(p.open, q.open)
    ensures Print(p.high) == Print(q.high) <==> SameValue(p.high, q.high)
    ensures Print(p.low) == Print(q.low) <==> SameValue(p.low, q.low)
    ensures Print(p.close) == Print(q.close) <==> SameValue(p.close, q.close)
    ensures IntText(p.volume) == IntText(q.volume) <==> p.volume == q.volume
    ensures InterestText(p.openInterest) == InterestText(q.openInterest) <==> SameInterest(p.openInterest, q.openInterest)
  {
    hide Print, IntText, SameValue, Decimal.WellFormed, Clean;
    PrintsExactly(p.open, q.open);
    PrintsExactly(p.high, q.high);
    PrintsExactly(p.low, q.low);
    PrintsExactly(p.close, q.close);
    if IntText(p.volume) == IntText(q.volume) { IntRead(p.volume, q.volume); }
    if p.openInterest.Some? { PrintClean(p.openInterest.value); }
    if q.openInterest.Some? { PrintClean(q.openInterest.value); }
    if p.openInterest.Some? && q.openInterest.Some? { PrintsExactly(p.openInterest.value, q.openInterest.value); }
  }

  lemma {:induction false} ColumnsExact(i: string, p: Quote, j: string, q: Quote)
    requires p.Proper() && q.Proper()
    ensures Columns(i, p) == Columns(j, q) <==> i == j && SameQuote(p, q)
  {
    hide Print, IntText, SameValue, SameInterest, InterestText;
    TextsExact(p, q);
    var a, b := Columns(i, p), Columns(j, q);
    assert a == b <==> forall k :: 0 <= k < 9 ==> a[k] == b[k];
    assert a == b ==> a[0] == b[0] && a[2] == b[2] && a[3] == b[3] && a[4] == b[4] && a[5] == b[5] && a[6] == b[6] && a[7] == b[7] && a[8] == b[8];
  }

  ghost predicate SameQuotes(ps: seq<Quote>, qs: seq<Quote>) {
    |ps| == |qs| && forall k :: 0 <= k < |ps| ==> SameQuote(ps[k], qs[k])
  }

  /** Two fingerprint texts are equal exactly when the bars agree up to decimal scale and, unless there are
      none, the instruments are the same. */
  lemma {:induction false} PreimageExact(i: string, ps: seq<Quote>, j: string, qs: seq<Quote>)
    requires Clean(i) && Clean(j) && (forall p :: p in ps ==> p.Proper()) && (forall q :: q in qs ==> q.Proper())
    ensures Preimage(i, ps) == Preimage(j, qs) <==> SameQuotes(ps, qs) && (ps != [] ==> i == j)
  {
    LinesExact(i, ps, j, qs);
    var s, t := Preimage(i, ps), Preimage(j, qs);
    assert s[|HEADER|..] == Lines(i, ps) && t[|HEADER|..] == Lines(j, qs);
    hide Lines, SameQuotes;
  }

  lemma {:induction false} LinesExact(i: string, ps: seq<Quote>, j: string, qs: seq<Quote>)
    requires Clean(i) && Clean(j) && (forall p :: p in ps ==> p.Proper()) && (forall q :: q in qs ==> q.Proper())
    ensures Lines(i, ps) == Lines(j, qs) <==> SameQuotes(ps, qs) && (ps != [] ==> i == j)
  {
    hide Clean, Quote.Proper, SameQuote, Columns;
    if ps != [] && qs != [] {
      var p, q, x, y := ps[0], qs[0], Lines(i, ps[1..]), Lines(j, qs[1..]);
      assert p in ps && q in qs;
      ColumnsClean(i, p);
      ColumnsClean(j, q);
      ColumnsExact(i, p, j, q);
      LinesExact(i, ps[1..], j, qs[1..]);
      hide AllClean;
      if Lines(i, ps) == Lines(j, qs) { LineRead(Columns(i, p), x, Columns(j, q), y); }
      assert ps == [p] + ps[1..] && qs == [q] + qs[1..];
      assert SameQuotes(ps, qs) <==> SameQuote(p, q) && SameQuotes(ps[1..], qs[1..]);
    }
    if ps != [] { LineNonempty(Columns(i, ps[0])); }
    if qs != [] { LineNonempty(Columns(j, qs[0])); }
  }

  lemma {:induction false} LineNonempty(columns: seq<string>)
    requires columns != []
    ensures Line(columns) != ""
  {
  }
}
