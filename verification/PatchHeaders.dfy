/** Which lines are hunk headers, and what number they carry. */
module PatchHeaders {
  import opened Wrappers
  import opened Decimals
  import opened Patch

  predicate IsNumber(s: string) { s != "" && AllDigits(s) }

  /** Nothing, or a comma and a number. */
  predicate IsCount(s: string) { s == "" || (s[0] == ',' && IsNumber(s[1..])) }

  /** A header, piece by piece: the first number, the counts, the second number, and whatever follows the second pair of at-signs. */
  predicate HeaderOf(line: string, first: string, firstCount: string, second: string, secondCount: string, tail: string) {
    && IsNumber(first) && IsCount(firstCount) && IsNumber(second) && IsCount(secondCount)
    && line == "@@ -" + (first + (firstCount + (" +" + (second + (secondCount + (" @@" + tail))))))
  }

  lemma {:induction false} RunSplits(s: string)
    ensures s == s[..DigitRun(s)] + s[DigitRun(s)..] && AllDigits(s[..DigitRun(s)])
    ensures s[DigitRun(s)..] == "" || !IsDigit(s[DigitRun(s)..][0])
  {
    if s != "" && IsDigit(s[0]) { RunSplits(s[1..]); }
  }

  lemma {:induction false} RunTaken(number: string, rest: string)
    requires IsNumber(number) && (rest == "" || !IsDigit(rest[0]))
    ensures DigitRun(number + rest) == |number| && (number + rest)[|number|..] == rest && (number + rest)[..|number|] == number
  {
    RunOf(number, rest);
  }

  lemma {:induction false} CountTaken(count: string, rest: string)
    requires IsCount(count) && rest != "" && rest[0] == ' '
    ensures AfterCount(count + rest) == rest
  {
    if count != "" {
      assert (count + rest)[1..] == count[1..] + rest;
      RunTaken(count[1..], rest);
      assert (count + rest)[|count|..] == rest;
    } else {
      assert count + rest == rest;
    }
  }

  lemma {:induction false} CountFound(s: string) returns (count: string)
    ensures IsCount(count) && s == count + AfterCount(s)
  {
    if |s| >= 2 && s[0] == ',' && DigitRun(s[1..]) > 0 {
      count := s[..1 + DigitRun(s[1..])];
      assert count[1..] == s[1..][..DigitRun(s[1..])];
    } else {
      count := "";
    }
  }

  lemma {:induction false} NewPartFound(s: string) returns (number: string, count: string, tail: string)
    requires NewPart(s)
    ensures IsNumber(number) && IsCount(count) && s == " +" + (number + (count + (" @@" + tail)))
  {
    var rest := s[2..];
    number := rest[..DigitRun(rest)];
    RunSplits(rest);
    count := CountFound(rest[DigitRun(rest)..]);
    var after := AfterCount(rest[DigitRun(rest)..]);
    tail := after[3..];
    assert after == " @@" + tail;
    assert s == " +" + rest;
  }

  lemma {:induction false} NewPartTaken(number: string, count: string, tail: string)
    requires IsNumber(number) && IsCount(count)
    ensures NewPart(" +" + (number + (count + (" @@" + tail))))
  {
    var rest := count + (" @@" + tail);
    assert rest[0] == ',' || rest[0] == ' ';
    RunTaken(number, rest);
    CountTaken(count, " @@" + tail);
    hide AfterCount, DigitRun;
    assert (" +" + (number + rest))[2..] == number + rest;
    assert " @@" <= " @@" + tail;
  }

  /** A line carries a number exactly when it is a header whose first number it is. */
  lemma {:induction false} HeadersExactly(line: string, n: nat)
    ensures HunkNumber(line) == Some(n) <==>
      exists first, firstCount, second, secondCount, tail :: HeaderOf(line, first, firstCount, second, secondCount, tail) && n == Coefficient(DigitsOf(first))
  {
    if HunkNumber(line) == Some(n) { var first, firstCount, second, secondCount, tail := HeaderFound(line, n); }
    if first, firstCount, second, secondCount, tail :| HeaderOf(line, first, firstCount, second, secondCount, tail) && n == Coefficient(DigitsOf(first)) {
      HeaderTaken(line, first, firstCount, second, secondCount, tail);
    }
  }

  lemma {:induction false} HeaderFound(line: string, n: nat) returns (first: string, firstCount: string, second: string, secondCount: string, tail: string)
    requires HunkNumber(line) == Some(n)
    ensures HeaderOf(line, first, firstCount, second, secondCount, tail) && n == Coefficient(DigitsOf(first))
  {
    hide *;
    var rest, middle, part := HeaderOpens(line, n);
    first := rest[..DigitRun(rest)];
    firstCount := CountFound(middle);
    second, secondCount, tail := NewPartFound(part);
    assert line == "@@ -" + (first + (firstCount + (" +" + (second + (secondCount + (" @@" + tail))))));
    Headed(line, first, firstCount, second, secondCount, tail);
  }

  lemma {:induction false} HeaderOpens(line: string, n: nat) returns (rest: string, middle: string, part: string)
    requires HunkNumber(line) == Some(n)
    ensures line == "@@ -" + rest && IsNumber(rest[..DigitRun(rest)]) && n == Coefficient(DigitsOf(rest[..DigitRun(rest)]))
    ensures rest == rest[..DigitRun(rest)] + middle && part == AfterCount(middle) && NewPart(part)
  {
    hide *;
    HeaderUnfolds(line, n);
    rest := line[4..];
    PrefixDropped("@@ -", line);
    RunSplits(rest);
    RunNumber(rest);
    middle := rest[DigitRun(rest)..];
    part := AfterCount(middle);
  }

  lemma {:induction false} HeaderUnfolds(line: string, n: nat)
    requires HunkNumber(line) == Some(n)
    ensures "@@ -" <= line && DigitRun(line[4..]) > 0 && NewPart(AfterCount(line[4..][DigitRun(line[4..])..]))
    ensures n == Coefficient(DigitsOf(line[4..][..DigitRun(line[4..])]))
  {
    hide DigitRun, AfterCount, NewPart, Coefficient, DigitsOf;
  }

  lemma {:induction false} PrefixDropped(prefix: string, s: string)
    requires prefix <= s
    ensures s == prefix + s[|prefix|..]
  {
  }

  lemma {:induction false} RunNumber(s: string)
    requires DigitRun(s) > 0
    ensures IsNumber(s[..DigitRun(s)])
  {
    RunSplits(s);
    hide DigitRun;
  }

  lemma {:induction false} Headed(line: string, first: string, firstCount: string, second: string, secondCount: string, tail: string)
    requires IsNumber(first) && IsCount(firstCount) && IsNumber(second) && IsCount(secondCount)
    requires line == "@@ -" + (first + (firstCount + (" +" + (second + (secondCount + (" @@" + tail))))))
    ensures HeaderOf(line, first, firstCount, second, secondCount, tail)
  {
    hide IsNumber, IsCount;
  }

  lemma {:induction false} HeaderTaken(line: string, first: string, firstCount: string, second: string, secondCount: string, tail: string)
    requires HeaderOf(line, first, firstCount, second, secondCount, tail)
    ensures HunkNumber(line) == Some(Coefficient(DigitsOf(first)))
  {
    var part := " +" + (second + (secondCount + (" @@" + tail)));
    var rest := firstCount + part;
    assert rest[0] == ',' || rest[0] == ' ';
    RunTaken(first, rest);
    CountTaken(firstCount, part);
    NewPartTaken(second, secondCount, tail);
    hide AfterCount, DigitRun, NewPart, Coefficient, DigitsOf;
    assert line == "@@ -" + (first + rest) && line[4..] == first + rest;
  }
}
