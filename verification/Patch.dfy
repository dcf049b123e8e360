/** Applying a unified diff in memory (scripts/research/verify_phase1446c.py). */
module Patch {
  import opened Wrappers
  import opened Decimals

  // ----- reading a patch line -----

  datatype PatchLine = HunkAt(number: nat) | BadHunk | Adds(text: string) | Keeps(text: string) | Drops(text: string) | Unknown

  /** The length of a text's leading run of digits. */
  function DigitRun(s: string): (n: nat)
    ensures n <= |s| && AllDigits(s[..n])
  {
    if s == "" || !IsDigit(s[0]) then 0
    else
      var n := DigitRun(s[1..]);
      assert s[..n + 1] == [s[0]] + s[1..][..n];
      n + 1
  }

  /** An optional comma and count. */
  function AfterCount(s: string): string {
    if |s| >= 2 && s[0] == ',' && DigitRun(s[1..]) > 0 then s[1 + DigitRun(s[1..])..] else s
  }

  /** A space and a plus sign, a number, optionally a comma and a count, and then a space and two at-signs; more text may follow. */
  predicate NewPart(s: string) {
    " +" <= s && DigitRun(s[2..]) > 0 && " @@" <= AfterCount(s[2..][DigitRun(s[2..])..])
  }

  /** The number after "@@ -" in a hunk header: digits, optionally a comma and a count, and then the new part. None if the line is not one. */
  function HunkNumber(line: string): Option<nat> {
    if !("@@ -" <= line) then None
    else
      var n := DigitRun(line[4..]);
      if n == 0 || !NewPart(AfterCount(line[4..][n..])) then None
      else Some(Coefficient(DigitsOf(line[4..][..n])))
  }

  function Classify(line: string): PatchLine {
    if "@@ " <= line then
      var n := HunkNumber(line);
      if n.None? then BadHunk else HunkAt(n.value)
    else if "+" <= line then Adds(line[1..])
    else if " " <= line then Keeps(line[1..])
    else if "-" <= line then Drops(line[1..])
    else Unknown
  }

  // ----- applying -----

  function FirstLine(number: nat): nat { if number == 0 then 0 else number - 1 }

  function Rest(lines: seq<string>, cursor: nat): seq<string> { if cursor <= |lines| then lines[cursor..] else [] }

  /** Apply the remaining patch lines, with a cursor into the original and the result so far. */
  function Applying(lines: seq<string>, cursor: nat, result: seq<string>, patch: seq<string>): Result<seq<string>>
    decreases |patch|
  {
    if patch == [] then Ok(result + Rest(lines, cursor))
    else
      match Classify(patch[0])
      case BadHunk => Err("PATCH_HUNK")
      case Unknown => Err("PATCH_LINE")
      case HunkAt(number) =>
        var start := FirstLine(number);
        if start < cursor then Err("PATCH_ORDER")
        else Applying(lines, start, result + Between(lines, cursor, start), patch[1..])
      case Adds(text) => Applying(lines, cursor, result + [text], patch[1..])
      case Keeps(text) =>
        if cursor >= |lines| || lines[cursor] != text then Err("PATCH_CONTEXT")
        else Applying(lines, cursor + 1, result + [text], patch[1..])
      case Drops(text) =>
        if cursor >= |lines| || lines[cursor] != text then Err("PATCH_CONTEXT")
        else Applying(lines, cursor + 1, result, patch[1..])
  }

  /** A slice that, as the program's do, stops at the end of the list. */
  function Between(lines: seq<string>, from: nat, to: nat): seq<string>
    requires from <= to
  {
    if from >= |lines| then [] else if to >= |lines| then lines[from..] else lines[from..to]
  }

  function Applied(lines: seq<string>, patch: seq<string>): Result<seq<string>> {
    if |patch| < 2 then Err("IndexError")
    else if !("--- " <= patch[0] && "+++ " <= patch[1]) then Err("PATCH_HEADER")
    else Applying(lines, 0, [], patch[2..])
  }

  /** The loop over patch lines. */
  method ApplyProposedDiff(lines: seq<string>, patch: seq<string>) returns (out: Result<seq<string>>)
    ensures out == Applied(lines, patch)
  {
    hide Classify;
    if |patch| < 2 { return Err("IndexError"); }
    if !("--- " <= patch[0] && "+++ " <= patch[1]) { return Err("PATCH_HEADER"); }
    var result: seq<string>, cursor: nat := [], 0;
    for i := 2 to |patch|
      invariant Applying(lines, cursor, result, patch[i..]) == Applied(lines, patch)
    {
      assert patch[i..][0] == patch[i] && patch[i..][1..] == patch[i + 1..];
      match Classify(patch[i]) {
        case BadHunk => return Err("PATCH_HUNK");
        case Unknown => return Err("PATCH_LINE");
        case HunkAt(number) =>
          var start := FirstLine(number);
          if start < cursor { return Err("PATCH_ORDER"); }
          result := result + Between(lines, cursor, start);
          cursor := start;
        case Adds(text) =>
          result := result + [text];
        case Keeps(text) =>
          if cursor >= |lines| || lines[cursor] != text { return Err("PATCH_CONTEXT"); }
          result := result + [text];
          cursor := cursor + 1;
        case Drops(text) =>
          if cursor >= |lines| || lines[cursor] != text { return Err("PATCH_CONTEXT"); }
          cursor := cursor + 1;
      }
    }
    out := Ok(result + Rest(lines, cursor));
  }

  // ----- edit scripts -----

  datatype Edit = Keep(text: string) | Delete(text: string) | Insert(text: string)

  /** Edits from line `start` of the original on, counted from 0. */
  datatype Hunk = Hunk(start: nat, edits: seq<Edit>)

  function OldSide(es: seq<Edit>): seq<string> {
    if es == [] then [] else (if es[0].Insert? then [] else [es[0].text]) + OldSide(es[1..])
  }

  function NewSide(es: seq<Edit>): seq<string> {
    if es == [] then [] else (if es[0].Delete? then [] else [es[0].text]) + NewSide(es[1..])
  }

  function End(h: Hunk): nat { h.start + |OldSide(h.edits)| }

  /** A script fits lines from a position on: its hunks come in order and find their old sides. */
  ghost predicate Fits(lines: seq<string>, cursor: nat, hs: seq<Hunk>)
    decreases |hs|
  {
    if hs == [] then cursor <= |lines|
    else cursor <= hs[0].start && End(hs[0]) <= |lines| && lines[hs[0].start..End(hs[0])] == OldSide(hs[0].edits) &&
         Fits(lines, End(hs[0]), hs[1..])
  }

  /** What a script makes of the lines from a position on. */
  function Scripted(lines: seq<string>, cursor: nat, hs: seq<Hunk>): seq<string>
    decreases |hs|
  {
    if hs == [] then Rest(lines, cursor)
    else (if cursor <= hs[0].start then Between(lines, cursor, hs[0].start) else []) + NewSide(hs[0].edits) +
         Scripted(lines, End(hs[0]), hs[1..])
  }

  // ----- scripts as diffs -----

  function EditLine(e: Edit): string {
    match e
    case Keep(text) => " " + text
    case Delete(text) => "-" + text
    case Insert(text) => "+" + text
  }

  function EditLines(es: seq<Edit>): seq<string> {
    if es == [] then [] else [EditLine(es[0])] + EditLines(es[1..])
  }

  function Count(n: nat): string { DigitsText(Numeral(n)) }

  /** The number a diff gives the first line of a side, or the line before an empty side. */
  function SideNumber(start: nat, length: nat): nat { if length == 0 then start else start + 1 }

  function HunkLine(start: nat, lines: nat, newStart: nat, newLines: nat): string {
    "@@ -" + Count(SideNumber(start, lines)) + "," + Count(lines) +
    " +" + Count(SideNumber(newStart, newLines)) + "," + Count(newLines) + " @@\n"
  }

  /** The body of the diff; `shift` is how many more lines the new text has so far. */
  function Body(hs: seq<Hunk>, shift: int): seq<string> {
    if hs == [] then []
    else
      var h := hs[0];
      [HunkLine(h.start, |OldSide(h.edits)|, NewStart(h, shift), |NewSide(h.edits)|)] + EditLines(h.edits) +
      Body(hs[1..], shift + |NewSide(h.edits)| - |OldSide(h.edits)|)
  }

  function Diff(hs: seq<Hunk>): seq<string> { ["--- a\n", "+++ b\n"] + Body(hs, 0) }

  // ----- reading back what is written -----

  lemma {:induction false} RunOf(s: string, rest: string)
    requires AllDigits(s) && (rest == "" || !IsDigit(rest[0]))
    ensures DigitRun(s + rest) == |s|
  {
    if s == "" {
      assert s + rest == rest;
    } else {
      assert (s + rest)[1..] == s[1..] + rest;
      RunOf(s[1..], rest);
    }
  }

  lemma {:induction false} CountRead(n: nat, rest: string)
    requires rest == "" || !IsDigit(rest[0])
    ensures DigitRun(Count(n) + rest) == |Count(n)| > 0 && (Count(n) + rest)[..|Count(n)|] == Count(n)
    ensures (Count(n) + rest)[|Count(n)|..] == rest
    ensures AllDigits(Count(n)) && Coefficient(DigitsOf(Count(n))) == n
  {
    DigitsBack(Numeral(n));
    RunOf(Count(n), rest);
  }

  lemma {:induction false} CountSkipped(n: nat, rest: string)
    requires rest == "" || !IsDigit(rest[0])
    ensures AfterCount("," + Count(n) + rest) == rest
  {
    CountRead(n, rest);
    var s := "," + Count(n) + rest;
    assert s[1..] == Count(n) + rest;
    assert s[1 + |Count(n)|..] == s[1..][|Count(n)|..];
  }

  lemma {:induction false} NewPartRead(p: nat, length: nat)
    ensures NewPart(" +" + Count(p) + "," + Count(length) + " @@\n")
  {
    var last := " @@\n";
    var s := " +" + Count(p) + "," + Count(length) + last;
    hide Count, DigitRun, AfterCount;
    assert s == " +" + (Count(p) + ("," + Count(length) + last));
    assert s[2..] == Count(p) + ("," + Count(length) + last);
    CountRead(p, "," + Count(length) + last);
    CountSkipped(length, last);
    assert " @@" <= last;
  }

  lemma {:induction false} HunkRead(start: nat, length: nat, newStart: nat, newLength: nat)
    ensures Classify(HunkLine(start, length, newStart, newLength)) == HunkAt(SideNumber(start, length))
  {
    var n, p := SideNumber(start, length), SideNumber(newStart, newLength);
    var line := HunkLine(start, length, newStart, newLength);
    hide Count, DigitRun, AfterCount, DigitsOf, Coefficient, NewPart, SideNumber;
    var between := " +" + Count(p) + "," + Count(newLength) + " @@\n";
    NewPartRead(p, newLength);
    assert line == "@@ -" + (Count(n) + ("," + Count(length) + between));
    assert line[4..] == Count(n) + ("," + Count(length) + between);
    CountRead(n, "," + Count(length) + between);
    CountSkipped(length, between);
    assert "@@ -" <= line && "@@ " <= line;
  }

  lemma {:induction false} EditRead(e: Edit)
    ensures Classify(EditLine(e)) ==
      match e case Keep(text) => Keeps(text) case Delete(text) => Drops(text) case Insert(text) => Adds(text)
  {
    var line := EditLine(e);
    assert line[1..] == e.text && line[0] != '@';
  }

  // ----- scripts are applied as scripted -----

  function Moved(e: Edit): nat { if e.Insert? then 0 else 1 }

  function Added(e: Edit): seq<string> { if e.Delete? then [] else [e.text] }

  lemma {:induction false} EditApplies(lines: seq<string>, cursor: nat, result: seq<string>, e: Edit, rest: seq<string>)
    requires !e.Insert? ==> cursor < |lines| && lines[cursor] == e.text
    ensures Applying(lines, cursor, result, [EditLine(e)] + rest) == Applying(lines, cursor + Moved(e), result + Added(e), rest)
  {
    EditRead(e);
    hide Classify, EditLine;
    var patch := [EditLine(e)] + rest;
    assert patch[0] == EditLine(e) && patch[1..] == rest;
    assert result + [] == result;
  }

  lemma {:induction false} EditsOpen(es: seq<Edit>, rest: seq<string>)
    requires es != []
    ensures EditLines(es) + rest == [EditLine(es[0])] + (EditLines(es[1..]) + rest)
    ensures |OldSide(es)| == Moved(es[0]) + |OldSide(es[1..])|
    ensures NewSide(es) == Added(es[0]) + NewSide(es[1..])
  {
    hide EditLine;
  }

  lemma {:induction false} OldOpens(lines: seq<string>, cursor: nat, es: seq<Edit>)
    requires es != [] && cursor + |OldSide(es)| <= |lines| && lines[cursor..cursor + |OldSide(es)|] == OldSide(es)
    ensures !es[0].Insert? ==> cursor < |lines| && lines[cursor] == es[0].text
    ensures cursor + Moved(es[0]) + |OldSide(es[1..])| <= |lines|
    ensures lines[cursor + Moved(es[0])..cursor + Moved(es[0]) + |OldSide(es[1..])|] == OldSide(es[1..])
  {
    var n, k := |OldSide(es)|, Moved(es[0]);
    var found := lines[cursor..cursor + n];
    assert OldSide(es)[k..] == OldSide(es[1..]);
    assert lines[cursor + k..cursor + n] == found[k..];
    if !es[0].Insert? { assert lines[cursor] == found[0]; }
  }

  lemma {:induction false} EditsApply(lines: seq<string>, cursor: nat, result: seq<string>, es: seq<Edit>, rest: seq<string>)
    requires cursor + |OldSide(es)| <= |lines| && lines[cursor..cursor + |OldSide(es)|] == OldSide(es)
    ensures Applying(lines, cursor, result, EditLines(es) + rest) ==
      Applying(lines, cursor + |OldSide(es)|, result + NewSide(es), rest)
    decreases |es|
  {
    hide *;
    if es == [] {
      NoEdits(result, rest);
    } else {
      EditsOpen(es, rest);
      OldOpens(lines, cursor, es);
      EditApplies(lines, cursor, result, es[0], EditLines(es[1..]) + rest);
      EditsApply(lines, cursor + Moved(es[0]), result + Added(es[0]), es[1..], rest);
      assert (result + Added(es[0])) + NewSide(es[1..]) == result + (Added(es[0]) + NewSide(es[1..]));
    }
  }

  lemma {:induction false} NoEdits(result: seq<string>, rest: seq<string>)
    ensures EditLines([]) + rest == rest && result + NewSide([]) == result && OldSide([]) == []
  {
  }

  /** A hunk's header moves the cursor to where its number says. */
  lemma {:induction false} HeaderApplies(lines: seq<string>, cursor: nat, result: seq<string>, start: nat, length: nat, newStart: nat, newLength: nat,
                      rest: seq<string>)
    ensures
      var target := FirstLine(SideNumber(start, length));
      Applying(lines, cursor, result, [HunkLine(start, length, newStart, newLength)] + rest) ==
        if target < cursor then Err("PATCH_ORDER") else Applying(lines, target, result + Between(lines, cursor, target), rest)
  {
    HunkRead(start, length, newStart, newLength);
    hide Classify, HunkLine;
    var patch := [HunkLine(start, length, newStart, newLength)] + rest;
    assert patch[0] == HunkLine(start, length, newStart, newLength) && patch[1..] == rest;
  }

  /** Where a hunk's number sends the cursor: one line early when the old side is empty. */
  function Landed(h: Hunk): nat { FirstLine(SideNumber(h.start, |OldSide(h.edits)|)) }

  /** The lines hold a hunk's old side where the hunk says. */
  ghost predicate Found(lines: seq<string>, h: Hunk) {
    End(h) <= |lines| && lines[h.start..End(h)] == OldSide(h.edits)
  }

  function NewStart(h: Hunk, shift: int): nat { if h.start + shift >= 0 then h.start + shift else 0 }

  lemma {:induction false} LandedFound(lines: seq<string>, h: Hunk)
    requires Found(lines, h)
    ensures Landed(h) + |OldSide(h.edits)| <= |lines|
    ensures lines[Landed(h)..Landed(h) + |OldSide(h.edits)|] == OldSide(h.edits)
  {
    hide OldSide;
  }

  lemma {:induction false} HunkApplies(lines: seq<string>, cursor: nat, result: seq<string>, h: Hunk, newStart: nat, newLength: nat, rest: seq<string>)
    requires Found(lines, h)
    ensures Applying(lines, cursor, result, [HunkLine(h.start, |OldSide(h.edits)|, newStart, newLength)] + (EditLines(h.edits) + rest)) ==
      if Landed(h) < cursor then Err("PATCH_ORDER")
      else Applying(lines, Landed(h) + |OldSide(h.edits)|, result + Between(lines, cursor, Landed(h)) + NewSide(h.edits), rest)
  {
    hide Applying, OldSide, HunkLine, EditLines, NewSide, Between;
    HeaderApplies(lines, cursor, result, h.start, |OldSide(h.edits)|, newStart, newLength, EditLines(h.edits) + rest);
    LandedFound(lines, h);
    hide Found;
    if cursor <= Landed(h) {
      EditsApply(lines, Landed(h), result + Between(lines, cursor, Landed(h)), h.edits, rest);
    }
  }

  /** What applying a script's diff comes to. */
  function DoneBy(lines: seq<string>, cursor: nat, hs: seq<Hunk>): Result<seq<string>>
    decreases |hs|
  {
    if hs == [] then Ok(Rest(lines, cursor))
    else if Landed(hs[0]) < cursor then Err("PATCH_ORDER")
    else
      var rest :- DoneBy(lines, Landed(hs[0]) + |OldSide(hs[0].edits)|, hs[1..]);
      Ok(Between(lines, cursor, Landed(hs[0])) + NewSide(hs[0].edits) + rest)
  }

  function Prefixed(result: seq<string>, r: Result<seq<string>>): Result<seq<string>> {
    if r.Err? then r else Ok(result + r.value)
  }

  lemma {:induction false} BodyOpens(hs: seq<Hunk>, shift: int)
    requires hs != []
    ensures
      var h := hs[0];
      Body(hs, shift) ==
        [HunkLine(h.start, |OldSide(h.edits)|, NewStart(h, shift), |NewSide(h.edits)|)] +
        (EditLines(h.edits) + Body(hs[1..], shift + |NewSide(h.edits)| - |OldSide(h.edits)|))
  {
    hide HunkLine, OldSide, NewSide, EditLines;
  }

  lemma {:induction false} DoneOpens(lines: seq<string>, cursor: nat, hs: seq<Hunk>, result: seq<string>)
    requires hs != [] && cursor <= Landed(hs[0])
    ensures Prefixed(result, DoneBy(lines, cursor, hs)) ==
      Prefixed(result + Between(lines, cursor, Landed(hs[0])) + NewSide(hs[0].edits),
               DoneBy(lines, Landed(hs[0]) + |OldSide(hs[0].edits)|, hs[1..]))
  {
    hide Landed, OldSide, NewSide, Between;
    var x, y := Between(lines, cursor, Landed(hs[0])), NewSide(hs[0].edits);
    var r := DoneBy(lines, Landed(hs[0]) + |OldSide(hs[0].edits)|, hs[1..]);
    assert DoneBy(lines, cursor, hs) == if r.Err? then r else Ok(x + y + r.value);
    hide DoneBy;
    if r.Ok? { assert (result + x + y) + r.value == result + (x + y + r.value); }
  }

  lemma {:induction false} HunkHead(lines: seq<string>, cursor: nat, result: seq<string>, hs: seq<Hunk>, shift: int)
    requires hs != [] && Found(lines, hs[0])
    ensures
      var (size, newer) := (|OldSide(hs[0].edits)|, |NewSide(hs[0].edits)|);
      Applying(lines, cursor, result, Body(hs, shift)) ==
        if Landed(hs[0]) < cursor then Err("PATCH_ORDER")
        else Applying(lines, Landed(hs[0]) + size, result + Between(lines, cursor, Landed(hs[0])) + NewSide(hs[0].edits),
                      Body(hs[1..], shift + newer - size))
  {
    hide *;
    var size, newer := |OldSide(hs[0].edits)|, |NewSide(hs[0].edits)|;
    BodyOpens(hs, shift);
    HunkApplies(lines, cursor, result, hs[0], NewStart(hs[0], shift), newer, Body(hs[1..], shift + newer - size));
  }

  lemma {:induction false} OutOfOrder(lines: seq<string>, cursor: nat, hs: seq<Hunk>, result: seq<string>)
    requires hs != [] && Landed(hs[0]) < cursor
    ensures Prefixed(result, DoneBy(lines, cursor, hs)) == Err("PATCH_ORDER")
  {
    hide Landed;
  }

  lemma {:induction false} HunksApply(lines: seq<string>, cursor: nat, result: seq<string>, hs: seq<Hunk>, shift: int)
    requires forall h :: h in hs ==> Found(lines, h)
    ensures Applying(lines, cursor, result, Body(hs, shift)) == Prefixed(result, DoneBy(lines, cursor, hs))
    decreases |hs|
  {
    hide *;
    if hs == [] {
      NoHunks(lines, cursor, result, shift);
    } else {
      assert hs[0] in hs;
      HunkHead(lines, cursor, result, hs, shift);
      if cursor <= Landed(hs[0]) {
        DoneOpens(lines, cursor, hs, result);
        var size, newer := |OldSide(hs[0].edits)|, |NewSide(hs[0].edits)|;
        HunksApply(lines, Landed(hs[0]) + size, result + Between(lines, cursor, Landed(hs[0])) + NewSide(hs[0].edits), hs[1..],
                   shift + newer - size);
      } else {
        OutOfOrder(lines, cursor, hs, result);
      }
    }
  }

  lemma {:induction false} NoHunks(lines: seq<string>, cursor: nat, result: seq<string>, shift: int)
    ensures Applying(lines, cursor, result, Body([], shift)) == Prefixed(result, DoneBy(lines, cursor, []))
  {
  }

  lemma {:induction false} DiffApplies(lines: seq<string>, hs: seq<Hunk>)
    requires forall h :: h in hs ==> Found(lines, h)
    ensures Applied(lines, Diff(hs)) == DoneBy(lines, 0, hs)
  {
    HunksApply(lines, 0, [], hs, 0);
    var patch := Diff(hs);
    assert patch[2..] == Body(hs, 0);
    var done := DoneBy(lines, 0, hs);
    if done.Ok? { assert [] + done.value == done.value; }
    hide Body, Applying, DoneBy;
  }

  lemma {:induction false} FitsFound(lines: seq<string>, cursor: nat, hs: seq<Hunk>)
    requires Fits(lines, cursor, hs)
    ensures cursor <= |lines| && forall h :: h in hs ==> Found(lines, h) && cursor <= h.start
    decreases |hs|
  {
    if hs != [] {
      FitsFound(lines, End(hs[0]), hs[1..]);
      assert hs == [hs[0]] + hs[1..];
    }
  }

  // ----- where the program meets its purpose -----

  /** A hunk with an old side, or at the very start, or inserting copies of the line before it. */
  ghost predicate Lands(lines: seq<string>, h: Hunk) {
    || OldSide(h.edits) != [] || h.start == 0
    || (h.start <= |lines| && forall text :: text in NewSide(h.edits) ==> text == lines[h.start - 1])
  }

  /** Hunks leave a line between them, as those of a diff do. */
  ghost predicate Apart(hs: seq<Hunk>) {
    forall i :: 0 < i < |hs| ==> End(hs[i - 1]) < hs[i].start
  }

  /** Every hunk has something to find, or stands at the very start. */
  ghost predicate Anchored(hs: seq<Hunk>) {
    forall h :: h in hs ==> OldSide(h.edits) != [] || h.start == 0
  }

  lemma {:induction false} AnchoredDone(lines: seq<string>, cursor: nat, hs: seq<Hunk>)
    requires Fits(lines, cursor, hs) && Anchored(hs)
    ensures DoneBy(lines, cursor, hs) == Ok(Scripted(lines, cursor, hs))
    decreases |hs|
  {
    if hs != [] {
      assert hs[0] in hs && Landed(hs[0]) == hs[0].start;
      hide OldSide, NewSide, Landed;
      AnchoredDone(lines, End(hs[0]), hs[1..]);
    }
  }

  /** The diff of anchored hunks that fit yields exactly the scripted text. */
  lemma {:induction false} AppliesAsScripted(lines: seq<string>, hs: seq<Hunk>)
    requires Fits(lines, 0, hs) && Anchored(hs)
    ensures Applied(lines, Diff(hs)) == Ok(Scripted(lines, 0, hs))
  {
    FitsFound(lines, 0, hs);
    DiffApplies(lines, hs);
    AnchoredDone(lines, 0, hs);
    hide Applied, Diff, Scripted, DoneBy, Fits, Anchored, Found;
  }

  /** Moving one line past some others changes nothing exactly when they all equal it. */
  lemma {:induction false} PassingLine(line: string, added: seq<string>)
    ensures added + [line] == [line] + added <==> forall text :: text in added ==> text == line
  {
    var s, t := added + [line], [line] + added;
    if s == t {
      forall i | 0 <= i < |added| ensures added[i] == line { EqualToFirst(line, added, i); }
    }
    if forall text :: text in added ==> text == line {
      assert forall i :: 0 <= i < |added| ==> added[i] in added;
      assert forall i :: 0 <= i < |s| ==> s[i] == line && t[i] == line;
    }
  }

  lemma {:induction false} EqualToFirst(line: string, added: seq<string>, i: nat)
    requires added + [line] == [line] + added && i < |added|
    ensures added[i] == line
  {
    assert (added + [line])[i] == ([line] + added)[i];
    if i > 0 { EqualToFirst(line, added, i - 1); }
  }

  /** The result goes on with the line at the cursor when the next hunk is further on. */
  lemma {:induction false} DoneStarts(lines: seq<string>, cursor: nat, hs: seq<Hunk>)
    requires DoneBy(lines, cursor, hs).Ok? && cursor < |lines| && (hs != [] ==> cursor < Landed(hs[0]))
    ensures DoneBy(lines, cursor, hs).value != [] && DoneBy(lines, cursor, hs).value[0] == lines[cursor]
  {
    hide Landed, NewSide, OldSide;
  }

  /** The text so far agrees up to `early`; the script is at `cursor`. */
  ghost predicate Yields(lines: seq<string>, early: nat, cursor: nat, hs: seq<Hunk>)
    requires early <= cursor <= |lines|
  {
    DoneBy(lines, early, hs) == Ok(lines[early..cursor] + Scripted(lines, cursor, hs))
  }

  ghost predicate AllLand(lines: seq<string>, hs: seq<Hunk>) { forall h :: h in hs ==> Lands(lines, h) }

  /** A script whose diff may be one line behind. */
  ghost predicate Poised(lines: seq<string>, early: nat, cursor: nat, hs: seq<Hunk>) {
    && Fits(lines, cursor, hs) && Apart(hs) && early <= cursor <= |lines|
    && (hs != [] ==> early <= Landed(hs[0]) && (early < cursor ==> cursor < hs[0].start))
  }

  lemma {:induction false} PoisedNext(lines: seq<string>, early: nat, cursor: nat, hs: seq<Hunk>)
    requires hs != [] && Poised(lines, early, cursor, hs)
    ensures Poised(lines, Landed(hs[0]) + |OldSide(hs[0].edits)|, End(hs[0]), hs[1..])
  {
    FitsFound(lines, cursor, hs);
    assert hs[0] in hs;
    FitsFound(lines, End(hs[0]), hs[1..]);
    hide OldSide, Found;
    if |hs| > 1 { assert End(hs[1 - 1]) < hs[1].start; }
    forall i | 0 < i < |hs[1..]| ensures End(hs[1..][i - 1]) < hs[1..][i].start { assert End(hs[i + 1 - 1]) < hs[i + 1].start; }
  }

  lemma {:induction false} DoneHead(lines: seq<string>, early: nat, hs: seq<Hunk>)
    requires hs != [] && early <= Landed(hs[0]) <= |lines|
    requires DoneBy(lines, Landed(hs[0]) + |OldSide(hs[0].edits)|, hs[1..]).Ok?
    ensures DoneBy(lines, early, hs) ==
      Ok(lines[early..Landed(hs[0])] + NewSide(hs[0].edits) + DoneBy(lines, Landed(hs[0]) + |OldSide(hs[0].edits)|, hs[1..]).value)
  {
    hide OldSide, NewSide, Landed, Between;
    BetweenIs(lines, early, Landed(hs[0]));
  }

  lemma {:induction false} BetweenIs(lines: seq<string>, from: nat, to: nat)
    requires from <= to <= |lines|
    ensures Between(lines, from, to) == lines[from..to]
  {
  }

  lemma {:induction false} ScriptHead(lines: seq<string>, early: nat, cursor: nat, hs: seq<Hunk>)
    requires hs != [] && early <= cursor <= hs[0].start <= |lines|
    ensures lines[early..cursor] + Scripted(lines, cursor, hs) ==
      lines[early..hs[0].start] + NewSide(hs[0].edits) + Scripted(lines, End(hs[0]), hs[1..])
  {
    ScriptOpens(lines, cursor, hs);
    hide *;
    SlicesJoin(lines, early, cursor, hs[0].start, NewSide(hs[0].edits), Scripted(lines, End(hs[0]), hs[1..]));
  }

  lemma {:induction false} ScriptOpens(lines: seq<string>, cursor: nat, hs: seq<Hunk>)
    requires hs != [] && cursor <= hs[0].start <= |lines|
    ensures Scripted(lines, cursor, hs) ==
      lines[cursor..hs[0].start] + NewSide(hs[0].edits) + Scripted(lines, End(hs[0]), hs[1..])
  {
    hide OldSide, NewSide, Between;
    BetweenIs(lines, cursor, hs[0].start);
  }

  lemma {:induction false} SlicesJoin(lines: seq<string>, early: nat, cursor: nat, s: nat, x: seq<string>, y: seq<string>)
    requires early <= cursor <= s <= |lines|
    ensures lines[early..cursor] + (lines[cursor..s] + x + y) == lines[early..s] + x + y
  {
    assert lines[early..s] == lines[early..cursor] + lines[cursor..s];
  }

  lemma {:induction false} SamePrefix(a: seq<string>, x: seq<string>, y: seq<string>)
    ensures a + x == a + y <==> x == y
  {
    assert (a + x)[|a|..] == x && (a + y)[|a|..] == y;
  }

  /** An added block that lands one line early, before `line`. */
  lemma {:induction false} EarlyExactly(head: seq<string>, line: string, added: seq<string>, rest: seq<string>, script: seq<string>)
    requires rest != [] && rest[0] == line
    ensures head + added + rest == head + [line] + added + script <==>
      (forall text :: text in added ==> text == line) && rest == [line] + script
  {
    assert head + added + rest == head + (added + rest);
    assert head + [line] + added + script == head + (([line] + added) + script);
    SamePrefix(head, added + rest, ([line] + added) + script);
    PassingLine(line, added);
    Displaced(line, added, rest, script);
  }

  lemma {:induction false} Displaced(line: string, added: seq<string>, rest: seq<string>, script: seq<string>)
    requires rest != [] && rest[0] == line
    ensures added + rest == ([line] + added) + script <==> added + [line] == [line] + added && rest == [line] + script
  {
    var n := |added|;
    assert (added + rest)[..n + 1] == added + [line] && (added + rest)[n + 1..] == rest[1..];
    assert (([line] + added) + script)[..n + 1] == [line] + added && (([line] + added) + script)[n + 1..] == script;
    assert rest == [line] + rest[1..];
    if added + [line] == [line] + added && rest == [line] + script {
      assert added + ([line] + script) == (added + [line]) + script;
    }
  }

  lemma {:induction false} LandedExactly(lines: seq<string>, early: nat, cursor: nat, hs: seq<Hunk>)
    requires hs != [] && early <= cursor <= hs[0].start && End(hs[0]) <= |lines| && Landed(hs[0]) == hs[0].start
    requires DoneBy(lines, End(hs[0]), hs[1..]).Ok?
    ensures DoneBy(lines, early, hs).Ok?
    ensures Yields(lines, early, cursor, hs) <==> Yields(lines, End(hs[0]), End(hs[0]), hs[1..])
  {
    hide DoneBy, Scripted, OldSide, NewSide, Landed, Between;
    DoneHead(lines, early, hs);
    ScriptHead(lines, early, cursor, hs);
    var e := End(hs[0]);
    NothingBefore(lines, e, Scripted(lines, e, hs[1..]));
    SamePrefix(lines[early..hs[0].start] + NewSide(hs[0].edits), DoneBy(lines, e, hs[1..]).value, Scripted(lines, e, hs[1..]));
  }

  lemma {:induction false} NothingBefore(lines: seq<string>, e: nat, x: seq<string>)
    requires e <= |lines|
    ensures lines[e..e] + x == x
  {
  }

  lemma {:induction false} LastOfSlice(lines: seq<string>, early: nat, s: nat)
    requires early < s <= |lines|
    ensures lines[early..s] == lines[early..s - 1] + [lines[s - 1]] && lines[s - 1..s] == [lines[s - 1]]
  {
  }

  lemma {:induction false} InsertedExactly(lines: seq<string>, early: nat, cursor: nat, hs: seq<Hunk>)
    requires hs != [] && early <= cursor <= hs[0].start <= |lines| && early < hs[0].start && OldSide(hs[0].edits) == []
    requires Landed(hs[0]) == hs[0].start - 1 && (|hs| > 1 ==> hs[0].start < hs[1].start)
    requires DoneBy(lines, hs[0].start - 1, hs[1..]).Ok?
    ensures DoneBy(lines, early, hs).Ok?
    ensures Yields(lines, early, cursor, hs) <==> Lands(lines, hs[0]) && Yields(lines, hs[0].start - 1, hs[0].start, hs[1..])
  {
    hide DoneBy, Scripted, OldSide, NewSide, Landed, Between;
    var h, s := hs[0], hs[0].start;
    LandsNear(hs);
    DoneStarts(lines, s - 1, hs[1..]);
    DoneHead(lines, early, hs);
    ScriptHead(lines, early, cursor, hs);
    LastOfSlice(lines, early, s);
    EarlyExactly(lines[early..s - 1], lines[s - 1], NewSide(h.edits), DoneBy(lines, s - 1, hs[1..]).value, Scripted(lines, s, hs[1..]));
  }

  lemma {:induction false} LandsNear(hs: seq<Hunk>)
    ensures |hs| > 1 ==> Landed(hs[1]) >= hs[1].start - 1
  {
  }

  /** For hunks that fit and lie apart, the diff yields the scripted text exactly when every hunk lands:
      a hunk that only inserts goes in one line too early, which shows unless it is at the start or copies
      that line. */
  lemma {:induction false} LandsExactly(lines: seq<string>, early: nat, cursor: nat, hs: seq<Hunk>)
    requires Poised(lines, early, cursor, hs)
    ensures DoneBy(lines, early, hs).Ok?
    ensures Yields(lines, early, cursor, hs) <==> AllLand(lines, hs)
    decreases |hs|
  {
    hide *;
    if hs == [] {
      YieldsNothing(lines, early, cursor);
    } else {
      var h := hs[0];
      PoisedHead(lines, early, cursor, hs);
      PoisedNext(lines, early, cursor, hs);
      AllLandHead(lines, hs);
      LandsExactly(lines, Landed(h) + |OldSide(h.edits)|, End(h), hs[1..]);
      if OldSide(h.edits) != [] || h.start == 0 {
        LandedExactly(lines, early, cursor, hs);
      } else {
        InsertedExactly(lines, early, cursor, hs);
      }
    }
  }

  lemma {:induction false} YieldsNothing(lines: seq<string>, early: nat, cursor: nat)
    requires Poised(lines, early, cursor, [])
    ensures DoneBy(lines, early, []).Ok? && early <= cursor <= |lines| && Yields(lines, early, cursor, []) && AllLand(lines, [])
  {
    assert lines[early..] == lines[early..cursor] + lines[cursor..];
  }

  lemma {:induction false} AllLandHead(lines: seq<string>, hs: seq<Hunk>)
    requires hs != []
    ensures AllLand(lines, hs) <==> Lands(lines, hs[0]) && AllLand(lines, hs[1..])
    ensures OldSide(hs[0].edits) != [] || hs[0].start == 0 ==> Lands(lines, hs[0])
  {
    hide OldSide, NewSide;
    assert hs == [hs[0]] + hs[1..];
    assert forall h :: h in hs <==> h == hs[0] || h in hs[1..];
  }

  lemma {:induction false} PoisedHead(lines: seq<string>, early: nat, cursor: nat, hs: seq<Hunk>)
    requires hs != [] && Poised(lines, early, cursor, hs)
    ensures early <= cursor <= hs[0].start && End(hs[0]) <= |lines| && early <= Landed(hs[0])
    ensures |hs| > 1 ==> End(hs[0]) < hs[1].start
    ensures End(hs[0]) == hs[0].start + |OldSide(hs[0].edits)|
    ensures if OldSide(hs[0].edits) != [] || hs[0].start == 0 then Landed(hs[0]) == hs[0].start
            else Landed(hs[0]) == hs[0].start - 1
  {
    if |hs| > 1 { assert End(hs[1 - 1]) < hs[1].start; }
  }

  /** For hunks that fit and lie apart, applying the diff yields the scripted text exactly when every hunk
      has an old side, stands at the start, or inserts copies of the line before it. */
  lemma {:induction false} AppliesExactlyWhenHunksLand(lines: seq<string>, hs: seq<Hunk>)
    requires Fits(lines, 0, hs) && Apart(hs)
    ensures Applied(lines, Diff(hs)).Ok?
    ensures Applied(lines, Diff(hs)) == Ok(Scripted(lines, 0, hs)) <==> forall h :: h in hs ==> Lands(lines, h)
  {
    FitsFound(lines, 0, hs);
    DiffApplies(lines, hs);
    LandsExactly(lines, 0, 0, hs);
    assert lines[0..0] + Scripted(lines, 0, hs) == Scripted(lines, 0, hs);
    hide Applied, Diff, DoneBy, Scripted, Fits, Lands, Found;
  }

  /** Inserting "b" between "a" and "c" by a diff without context puts it before "a". */
  lemma {:induction false} InsertionMisplaced()
    ensures
      var hs := [Hunk(1, [Insert("b")])];
      && Fits(["a", "c"], 0, hs) && Apart(hs)
      && Scripted(["a", "c"], 0, hs) == ["a", "b", "c"]
      && Applied(["a", "c"], Diff(hs)) == Ok(["b", "a", "c"])
  {
    hide Diff, Applied, OldSide, NewSide, DoneBy, Scripted;
    var lines, hs := ["a", "c"], [Hunk(1, [Insert("b")])];
    OneInsert();
    assert hs[1..] == [] && Fits(lines, 1, []);
    FitsFound(lines, 0, hs);
    DiffApplies(lines, hs);
    NoMore(lines);
    assert Landed(hs[0]) == 0 && End(hs[0]) == 1;
    DoneHead(lines, 0, hs);
    ScriptOpens(lines, 0, hs);
    assert lines[0..0] == [] && lines[0..1] == ["a"];
    assert [] + ["b"] + lines == ["b", "a", "c"];
  }

  lemma {:induction false} OneInsert()
    ensures OldSide([Insert("b")]) == [] && NewSide([Insert("b")]) == ["b"]
  {
    assert [Insert("b")][1..] == [];
  }

  lemma {:induction false} NoMore(lines: seq<string>)
    requires |lines| == 2
    ensures DoneBy(lines, 0, []) == Ok(lines) && Scripted(lines, 1, []) == [lines[1]]
  {
  }

  // ----- reversing a diff -----

  function Flip(e: Edit): Edit {
    match e
    case Keep(text) => e
    case Delete(text) => Insert(text)
    case Insert(text) => Delete(text)
  }

  function Flipped(es: seq<Edit>): seq<Edit> {
    if es == [] then [] else [Flip(es[0])] + Flipped(es[1..])
  }

  /** The script that undoes another: sides exchanged, starts shifted by the lines gained before them. */
  function Reversed(hs: seq<Hunk>, shift: int): seq<Hunk> {
    if hs == [] then []
    else
      var h := hs[0];
      [Hunk(NewStart(h, shift), Flipped(h.edits))] + Reversed(hs[1..], shift + |NewSide(h.edits)| - |OldSide(h.edits)|)
  }

  lemma {:induction false} SidesExchanged(es: seq<Edit>)
    ensures OldSide(Flipped(es)) == NewSide(es) && NewSide(Flipped(es)) == OldSide(es)
  {
    if es != [] {
      SidesExchanged(es[1..]);
      assert Flipped(es)[0] == Flip(es[0]) && Flipped(es)[1..] == Flipped(es[1..]);
    }
  }

  /** The reversed script finds its place in the new text, from wherever the two texts run in step, and
      brings back the rest of the original. */
  lemma {:induction false} ReversedFits(lines: seq<string>, cursor: nat, hs: seq<Hunk>, text: seq<string>, at: nat)
    requires Fits(lines, cursor, hs) && at <= |text| && text[at..] == Scripted(lines, cursor, hs)
    ensures Fits(text, at, Reversed(hs, at - cursor))
    ensures Scripted(text, at, Reversed(hs, at - cursor)) == lines[cursor..]
    decreases |hs|
  {
    hide *;
    FitsFound(lines, cursor, hs);
    if hs == [] {
      NothingReversed(lines, cursor, text, at);
    } else {
      var h, shift := hs[0], at - cursor;
      FitsHead(lines, cursor, hs);
      var start, size, newer := h.start + shift, |OldSide(h.edits)|, |NewSide(h.edits)|;
      ScriptOpens(lines, cursor, hs);
      SuffixParts(text, at, lines[cursor..h.start], NewSide(h.edits), Scripted(lines, End(h), hs[1..]));
      ReversedFits(lines, End(h), hs[1..], text, start + newer);
      ReversedHead(hs, shift);
      SidesExchanged(h.edits);
      var back := Reversed(hs, shift);
      FitsBuilt(text, at, back);
      ScriptOpens(text, at, back);
      Rejoined(lines, cursor, h.start, End(h));
    }
  }

  lemma {:induction false} NothingReversed(lines: seq<string>, cursor: nat, text: seq<string>, at: nat)
    requires cursor <= |lines| && at <= |text| && text[at..] == Scripted(lines, cursor, [])
    ensures Fits(text, at, Reversed([], at - cursor)) && Scripted(text, at, Reversed([], at - cursor)) == lines[cursor..]
  {
  }

  lemma {:induction false} FitsHead(lines: seq<string>, cursor: nat, hs: seq<Hunk>)
    requires hs != [] && Fits(lines, cursor, hs)
    ensures cursor <= hs[0].start <= End(hs[0]) <= |lines| && End(hs[0]) == hs[0].start + |OldSide(hs[0].edits)|
    ensures lines[hs[0].start..End(hs[0])] == OldSide(hs[0].edits) && Fits(lines, End(hs[0]), hs[1..])
  {
    hide OldSide;
  }

  lemma {:induction false} FitsBuilt(lines: seq<string>, cursor: nat, hs: seq<Hunk>)
    requires hs != [] && cursor <= hs[0].start && End(hs[0]) <= |lines|
    requires lines[hs[0].start..hs[0].start + |OldSide(hs[0].edits)|] == OldSide(hs[0].edits) && Fits(lines, End(hs[0]), hs[1..])
    ensures Fits(lines, cursor, hs)
    ensures End(hs[0]) == hs[0].start + |OldSide(hs[0].edits)|
  {
    hide OldSide;
  }

  /** A suffix made of three parts, cut up. */
  lemma {:induction false} SuffixParts(text: seq<string>, at: nat, a: seq<string>, b: seq<string>, c: seq<string>)
    requires at <= |text| && text[at..] == a + b + c
    ensures at + |a| + |b| + |c| == |text|
    ensures text[at..at + |a|] == a && text[at + |a|..at + |a| + |b|] == b && text[at + |a| + |b|..] == c
  {
    var s := text[at..];
    assert s[..|a|] == a && s[|a|..|a| + |b|] == b && s[|a| + |b|..] == c;
  }

  lemma {:induction false} ReversedHead(hs: seq<Hunk>, shift: int)
    requires hs != [] && hs[0].start + shift >= 0
    ensures
      var back := Reversed(hs, shift);
      && back != [] && back[0] == Hunk(hs[0].start + shift, Flipped(hs[0].edits))
      && back[1..] == Reversed(hs[1..], shift + |NewSide(hs[0].edits)| - |OldSide(hs[0].edits)|)
      && End(back[0]) == hs[0].start + shift + |OldSide(Flipped(hs[0].edits))|
  {
    hide OldSide, NewSide, Flipped;
  }

  lemma {:induction false} Rejoined(lines: seq<string>, cursor: nat, start: nat, end: nat)
    requires cursor <= start <= end <= |lines|
    ensures lines[cursor..start] + lines[start..end] + lines[end..] == lines[cursor..]
  {
  }

  /** Both sides of every hunk hold lines. */
  ghost predicate TwoSided(hs: seq<Hunk>) {
    forall h :: h in hs ==> OldSide(h.edits) != [] && NewSide(h.edits) != []
  }

  lemma {:induction false} ReversedTwoSided(hs: seq<Hunk>, shift: int)
    requires TwoSided(hs)
    ensures Anchored(Reversed(hs, shift))
    decreases |hs|
  {
    if hs != [] {
      assert hs[0] in hs;
      SidesExchanged(hs[0].edits);
      hide OldSide, NewSide, Flipped;
      ReversedTwoSided(hs[1..], shift + |NewSide(hs[0].edits)| - |OldSide(hs[0].edits)|);
    }
  }

  lemma {:induction false} TwoSidedAnchored(hs: seq<Hunk>)
    requires TwoSided(hs)
    ensures Anchored(hs)
  {
    hide OldSide, NewSide;
  }

  /** Patching is reversible: applying a diff of two-sided hunks that fit yields the scripted text, and applying
      the reversed diff to that restores the original. */
  lemma {:induction false} PatchingReverses(lines: seq<string>, hs: seq<Hunk>)
    requires Fits(lines, 0, hs) && TwoSided(hs)
    ensures Applied(lines, Diff(hs)) == Ok(Scripted(lines, 0, hs))
    ensures Applied(Scripted(lines, 0, hs), Diff(Reversed(hs, 0))) == Ok(lines)
  {
    hide *;
    var text := Scripted(lines, 0, hs);
    TwoSidedAnchored(hs);
    ReversedTwoSided(hs, 0);
    AppliesAsScripted(lines, hs);
    assert text[0..] == text;
    ReversedFits(lines, 0, hs, text, 0);
    AppliesAsScripted(text, Reversed(hs, 0));
  }

  function Gain(hs: seq<Hunk>): int {
    if hs == [] then 0 else Inserts(hs[0].edits) - Deletes(hs[0].edits) + Gain(hs[1..])
  }

  function Inserts(es: seq<Edit>): nat {
    if es == [] then 0 else (if es[0].Insert? then 1 else 0) + Inserts(es[1..])
  }

  function Deletes(es: seq<Edit>): nat {
    if es == [] then 0 else (if es[0].Delete? then 1 else 0) + Deletes(es[1..])
  }

  lemma {:induction false} SidesDiffer(es: seq<Edit>)
    ensures |NewSide(es)| - |OldSide(es)| == Inserts(es) - Deletes(es)
  {
    if es != [] { SidesDiffer(es[1..]); }
  }

  /** A script changes the length by its insertions less its deletions. */
  lemma {:induction false} LengthChanges(lines: seq<string>, cursor: nat, hs: seq<Hunk>)
    requires Fits(lines, cursor, hs)
    ensures cursor <= |lines| && |Scripted(lines, cursor, hs)| == |lines| - cursor + Gain(hs)
    decreases |hs|
  {
    FitsFound(lines, cursor, hs);
    if hs != [] {
      hide OldSide, NewSide, Inserts, Deletes;
      FitsHead(lines, cursor, hs);
      ScriptOpens(lines, cursor, hs);
      SidesDiffer(hs[0].edits);
      LengthChanges(lines, End(hs[0]), hs[1..]);
    }
  }
}
