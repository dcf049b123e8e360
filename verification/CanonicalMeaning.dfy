/** What a canonical node says: the value it was made from can be read off it. */
module CanonicalMeaning {
  import opened Wrappers
  import opened Decimals
  import opened CanonicalPolicy

  // ----- numbers -----

  /** A sign of 0 or 1, digits without a leading or trailing zero, and an exponent, of the number's own value; zero has
      sign 0, the digit 0 and exponent 0. */
  ghost predicate NumberReads(n: Node, d: Decimal) {
    && n.DecimalNode? && n.digits != "" && AllDigits(n.digits) && (n.sign == 0 || n.sign == 1)
    && SameValue(Decimal(n.sign == 1, DigitsOf(n.digits), n.exponent), d)
    && (n.digits[0] == '0' || n.digits[|n.digits| - 1] == '0' ==> n.digits == "0")
    && (n.digits == "0" ==> n.sign == 0 && n.exponent == 0)
  }

  /** The decimal text of an integer, with a minus sign if it is negative and no leading zeros. */
  ghost predicate IntegerReads(text: string, n: int) {
    var digits := if n < 0 && text != "" then text[1..] else text;
    && (n < 0 ==> text != "" && text[0] == '-')
    && digits != "" && AllDigits(digits) && Coefficient(DigitsOf(digits)) == (if n < 0 then -n else n)
    && (|digits| > 1 ==> digits[0] != '0')
  }

  lemma {:induction false} DecimalFormReads(d: Decimal)
    requires d.WellFormed()
    ensures NumberReads(DecimalForm(d), d)
  {
    if d.Zero() {
      ZeroReads(d);
    } else {
      NonzeroReads(d);
    }
  }

  lemma {:induction false} ZeroReads(d: Decimal)
    requires d.WellFormed() && d.Zero()
    ensures NumberReads(DecimalNode(0, "0", 0), d)
  {
    CoefficientZero(d.digits);
    CoefficientZero(DigitsOf("0"));
  }

  lemma {:induction false} NonzeroReads(d: Decimal)
    requires d.WellFormed() && !d.Zero()
    ensures NumberReads(DecimalForm(d), d)
  {
    var ds := Stripped(d.digits);
    var node := DecimalForm(d);
    StrippedLeads(d);
    DigitsBack(ds);
    Ends(ds);
    StrippedValue(d.digits);
    var read := Decimal(d.negative, ds, d.exponent + |d.digits| - |ds|);
    assert Scaled(read, d.exponent) == Signed(d.negative, Coefficient(ds) * Pow10(|d.digits| - |ds|));
    assert Scaled(d, d.exponent) == Signed(d.negative, Coefficient(d.digits)) by { Unit(Coefficient(d.digits)); }
    SameValueAt(read, d, d.exponent);
    hide Scaled, SameValue, Coefficient, Stripped, Decimal.Zero;
  }

  lemma {:induction false} Unit(n: nat)
    ensures n * Pow10(0) == n
  {
  }

  lemma {:induction false} Ends(ds: seq<Digit>)
    requires ds != [] && ds[0] != 0 && ds[|ds| - 1] != 0
    ensures DigitsText(ds) != "" && DigitsText(ds)[0] != '0' && DigitsText(ds)[|ds| - 1] != '0'
  {
    assert DigitsText(ds)[0] == DigitChar(ds[0]) && DigitsText(ds)[|ds| - 1] == DigitChar(ds[|ds| - 1]);
  }

  lemma {:induction false} IntTextReads(n: int)
    ensures IntegerReads(IntText(n), n)
  {
    var k: nat := if n < 0 then -n else n;
    var ds := Numeral(k);
    DigitsBack(ds);
    if |ds| > 1 { Leads(ds); }
    if n < 0 { assert IntText(n)[1..] == DigitsText(ds); }
  }

  lemma {:induction false} Leads(ds: seq<Digit>)
    requires |ds| > 1 && ds[0] != 0
    ensures DigitsText(ds)[0] != '0'
  {
    assert DigitsText(ds)[0] == DigitChar(ds[0]);
  }

  // ----- whole values -----

  /** The node tells its value: its kind, its text or number, its items in order, and its fields, one for each key, in the
      order of their names. */
  ghost predicate Reads(n: Node, v: Value)
    decreases v
  {
    match v
    case Null => n == NullNode
    case Bool(b) => n == BoolNode(b)
    case Int(k) => n.IntNode? && IntegerReads(n.text, k)
    case Str(s) => n == StrNode(s)
    case Number(d) => NumberReads(n, d)
    case Mapping(es) =>
      && n.MapNode? && |n.fields| == |es|
      && (forall i, j :: 0 <= i < j < |n.fields| ==> Below(n.fields[i].name, n.fields[j].name))
      && (forall i :: 0 <= i < |n.fields| ==> Keyed(es, n.fields[i].name))
      && (forall i, k :: 0 <= i < |n.fields| && 0 <= k < |es| && es[k].key == Text(n.fields[i].name) ==> Reads(n.fields[i].node, es[k].value))
    case ListOf(vs) => n.SequenceNode? && |n.items| == |vs| && forall i :: 0 <= i < |vs| ==> Reads(n.items[i], vs[i])
    case TupleOf(vs) => n.SequenceNode? && |n.items| == |vs| && forall i :: 0 <= i < |vs| ==> Reads(n.items[i], vs[i])
    case _ => false
  }

  /** The canonical node of every supported value tells that value. */
  lemma {:induction false} FormReads(v: Value)
    requires WellFormed(v) && Normalize(v).Ok?
    ensures Reads(Normalize(v).value, v)
    decreases v
  {
    match v
    case Int(n) => IntTextReads(n);
    case Number(d) => DecimalFormReads(d);
    case Mapping(_) => MapReads(v);
    case ListOf(vs) => ItemsRead(v, vs);
    case TupleOf(vs) => ItemsRead(v, vs);
    case _ =>
  }

  lemma {:induction false} ItemsRead(owner: Value, vs: seq<Value>)
    requires (forall i :: 0 <= i < |vs| ==> vs[i] < owner && WellFormed(vs[i])) && NormalizeAll(owner, vs).Ok?
    ensures forall i :: 0 <= i < |vs| ==> Reads(NormalizeAll(owner, vs).value[i], vs[i])
    decreases owner, 0
  {
    EachNormalized(owner, vs);
    hide Normalize, NormalizeAll, Reads;
    forall i | 0 <= i < |vs| ensures Reads(NormalizeAll(owner, vs).value[i], vs[i]) { FormReads(vs[i]); }
  }

  lemma {:induction false} MapReads(v: Value)
    requires v.Mapping? && WellFormed(v) && Normalize(v).Ok?
    ensures Reads(Normalize(v).value, v)
    decreases v, 1
  {
    var es := v.entries;
    var keys := Sorted(KeyTexts(es));
    assert forall i :: 0 <= i < |es| ==> es[i].key.Text?;
    EntryKeys(es) by { KeysApart(v); }
    SortedSize(KeyTexts(es));
    hide Sorted, KeyTexts;
    ValuesWellFormed(v, keys);
    MappingOpens(v, keys);
    hide Normalize, NormalizeAll;
    ItemsRead(v, ValuesAt(es, keys));
    var nodes := NormalizeAll(v, ValuesAt(es, keys)).value;
    assert Normalize(v).value == MapNode(Fields(keys, nodes));
    KeysApart(v);
    FieldsRead(es, keys, nodes);
    hide ValuesAt, WellFormed;
  }

  lemma {:induction false} KeysApart(v: Value)
    requires v.Mapping? && WellFormed(v)
    ensures DistinctKeys(v.entries)
  {
  }

  lemma {:induction false} SortedSize(ks: seq<string>)
    ensures |Sorted(ks)| == |ks|
  {
    if ks != [] {
      SortedSize(ks[1..]);
      InsertedSize(ks[0], Sorted(ks[1..]));
    }
  }

  lemma {:induction false} InsertedSize(k: string, ks: seq<string>)
    ensures |Inserted(k, ks)| == |ks| + 1
  {
    if ks != [] && !Below(k, ks[0]) { InsertedSize(k, ks[1..]); }
  }

  lemma {:induction false} FieldsRead(es: seq<Entry>, keys: seq<string>, nodes: seq<Node>)
    requires DistinctKeys(es) && Covers(es, keys) && Ascending(keys) && |keys| == |nodes| == |es|
    requires forall j :: 0 <= j < |keys| ==> Reads(nodes[j], ValuesAt(es, keys)[j])
    ensures Reads(MapNode(Fields(keys, nodes)), Mapping(es))
  {
    hide ValuesAt, Below, Keyed;
    var fields := Fields(keys, nodes);
    forall i | 0 <= i < |fields| ensures Keyed(es, fields[i].name) { KeyedAt(es, keys, i); }
    forall i, k | 0 <= i < |fields| && 0 <= k < |es| && es[k].key == Text(fields[i].name) ensures Reads(fields[i].node, es[k].value) {
      ValueHere(es, keys, i, k);
      assert Reads(nodes[i], ValuesAt(es, keys)[i]);
    }
  }
}
