/** The fingerprint's text read back: cut at newlines and bars, it tells each bar, field by field. */
module FingerprintLaws {
  import opened Wrappers
  import opened Texts
  import opened Decimals
  import opened DecimalText
  import CanonicalMeaning

  /** A text that is read as the decimal's number. */
  predicate Says(text: string, d: Decimal) {
    var read := Read(Text(text));
    read.Ok? && SameValue(read.value, d)
  }

  /** The decimals that reading can yield. */
  predicate Legible(d: Decimal) { d.WellFormed() && !d.negative && Adjusted(d) <= 17 && d.exponent >= -10 }

  predicate LegibleQuote(q: Quote) {
    && Legible(q.open) && Legible(q.high) && Legible(q.low) && Legible(q.close)
    && (q.openInterest.Some? ==> Legible(q.openInterest.value)) && Clean(q.at)
  }

  /** A line that tells an instrument's bar: nine columns between bars. */
  ghost predicate Tells(row: string, instrument: string, q: Quote) {
    var cs := Split(row, '|');
    && |cs| == 9 && cs[0] == instrument && cs[1] == "MINUTE" && cs[2] == q.at
    && Says(cs[3], q.open) && Says(cs[4], q.high) && Says(cs[5], q.low) && Says(cs[6], q.close)
    && CanonicalMeaning.IntegerReads(cs[7], q.volume)
    && if q.openInterest.None? then cs[8] == "ABSENT" else Says(cs[8], q.openInterest.value)
  }

  lemma {:induction false} PrintSays(d: Decimal)
    requires Legible(d)
    ensures Says(Print(d), d)
  {
    hide Print, SameValue, MatchesMoney, Denoted, Decimal.WellFormed;
    ReadsExactly(d);
    assert MatchesMoney(Print(d));
  }

  /** A line without its newline. */
  function Bare(columns: seq<string>): string
    requires columns != []
  {
    if |columns| == 1 then columns[0] else columns[0] + "|" + Bare(columns[1..])
  }

  lemma {:induction false} BareSplits(columns: seq<string>)
    requires columns != [] && AllClean(columns)
    ensures Line(columns) == Bare(columns) + "\n" && Split(Bare(columns), '|') == columns && '\n' !in Bare(columns)
  {
    if |columns| == 1 {
      SplitWhole(columns[0], '|');
    } else {
      BareSplits(columns[1..]);
      SplitFirst(columns[0], '|', Bare(columns[1..]));
    }
  }

  lemma {:induction false} RowTells(instrument: string, q: Quote)
    requires Clean(instrument) && LegibleQuote(q)
    ensures Line(Columns(instrument, q)) == Bare(Columns(instrument, q)) + "\n" && '\n' !in Bare(Columns(instrument, q))
    ensures Tells(Bare(Columns(instrument, q)), instrument, q)
  {
    hide Bare, Print, Says, IntText, Legible, Clean, Line, Split, Accepted, CanonicalMeaning.IntegerReads;
    QuoteProper(q);
    ColumnsClean(instrument, q);
    BareSplits(Columns(instrument, q));
    PrintSays(q.open);
    PrintSays(q.high);
    PrintSays(q.low);
    PrintSays(q.close);
    CanonicalMeaning.IntTextReads(q.volume);
    if q.openInterest.Some? { PrintSays(q.openInterest.value); }
  }

  lemma {:induction false} QuoteProper(q: Quote)
    requires LegibleQuote(q)
    ensures q.Proper()
  {
    hide Decimal.WellFormed, Clean;
  }

  /** The rows of a text of bars. */
  function Rows(instrument: string, qs: seq<Quote>): (r: seq<string>)
    ensures |r| == |qs|
  {
    if qs == [] then [] else [Bare(Columns(instrument, qs[0]))] + Rows(instrument, qs[1..])
  }

  lemma {:induction false} RowsTell(instrument: string, qs: seq<Quote>)
    requires Clean(instrument) && forall q :: q in qs ==> LegibleQuote(q)
    ensures Split(Lines(instrument, qs), '\n') == Rows(instrument, qs) + [""]
    ensures forall k :: 0 <= k < |qs| ==> Tells(Rows(instrument, qs)[k], instrument, qs[k])
  {
    hide Tells, Bare, Columns, LegibleQuote, Clean, Line;
    if qs != [] {
      RowTells(instrument, qs[0]);
      RowsTell(instrument, qs[1..]);
      SplitFirst(Bare(Columns(instrument, qs[0])), '\n', Lines(instrument, qs[1..]));
      assert Lines(instrument, qs) == Bare(Columns(instrument, qs[0])) + ['\n'] + Lines(instrument, qs[1..]);
      forall k | 0 <= k < |qs| ensures Tells(Rows(instrument, qs)[k], instrument, qs[k]) {
        if k > 0 { assert Rows(instrument, qs)[k] == Rows(instrument, qs[1..])[k - 1] && qs[k] == qs[1..][k - 1]; }
      }
    }
  }

  /** The fingerprinted text cut at its newlines is the header and one line for each bar; a line cut at its bars is the
      instrument, the interval, the instant, the four prices, the volume and the open interest, each read as its own number. */
  lemma {:induction false} PreimageReads(instrument: string, qs: seq<Quote>)
    requires Clean(instrument) && forall q :: q in qs ==> LegibleQuote(q)
    ensures
      var rows := Split(Preimage(instrument, qs), '\n');
      && |rows| == |qs| + 2 && rows[0] == "historical-bars-v1" && rows[|rows| - 1] == ""
      && forall k :: 0 <= k < |qs| ==> Tells(rows[k + 1], instrument, qs[k])
  {
    hide *;
    RowsTell(instrument, qs);
    var name := HeaderLine(instrument, qs);
    SplitFirst(name, '\n', Lines(instrument, qs));
  }

  lemma {:induction false} HeaderLine(instrument: string, qs: seq<Quote>) returns (name: string)
    ensures name == "historical-bars-v1" && '\n' !in name
    ensures Preimage(instrument, qs) == name + ['\n'] + Lines(instrument, qs)
  {
    hide Lines;
    name := "historical-bars-v1";
    assert HEADER == name + ['\n'];
  }
}
