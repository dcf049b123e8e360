/** The canonical form of risk policies (phase1418/canonical_policy.py). */
module CanonicalPolicy {
  import opened Wrappers
  import opened Decimals

  // ----- policy values and canonical nodes -----

  datatype Key = Text(text: string) | NotText(id: int)

  datatype Entry = Entry(key: Key, value: Value)

  /** A policy value; `Other` stands for every type the canonical form does not know. */
  datatype Value =
    | Null | Bool(b: bool) | Int(n: int) | Str(s: string)
    | Number(d: Decimal) | NonFinite
    | Mapping(entries: seq<Entry>) | ListOf(items: seq<Value>) | TupleOf(members: seq<Value>)
    | Other(typeName: string)

  datatype Field = Field(name: string, node: Node)

  datatype Node =
    | NullNode | BoolNode(b: bool) | IntNode(text: string) | StrNode(s: string)
    | DecimalNode(sign: int, digits: string, exponent: int)
    | MapNode(fields: seq<Field>) | SequenceNode(items: seq<Node>)

  /** What the language guarantees: decimals in their representation, map keys distinct. */
  predicate WellFormed(v: Value) {
    match v
    case Number(d) => d.WellFormed()
    case Mapping(es) =>
      (forall i, j :: 0 <= i < j < |es| ==> es[i].key != es[j].key) && (forall i :: 0 <= i < |es| ==> WellFormed(es[i].value))
    case ListOf(vs) => forall i :: 0 <= i < |vs| ==> WellFormed(vs[i])
    case TupleOf(vs) => forall i :: 0 <= i < |vs| ==> WellFormed(vs[i])
    case _ => true
  }

  /** Values the canonical form accepts. */
  predicate Supported(v: Value) {
    match v
    case NonFinite => false
    case Other(_) => false
    case Mapping(es) => forall i :: 0 <= i < |es| ==> es[i].key.Text? && Supported(es[i].value)
    case ListOf(vs) => forall i :: 0 <= i < |vs| ==> Supported(vs[i])
    case TupleOf(vs) => forall i :: 0 <= i < |vs| ==> Supported(vs[i])
    case _ => true
  }

  // ----- decimals -----

  function DecimalForm(d: Decimal): Node {
    if d.Zero() then DecimalNode(0, "0", 0)
    else
      var ds := Stripped(d.digits);
      DecimalNode(if d.negative then 1 else 0, DigitsText(ds), d.exponent + |d.digits| - |ds|)
  }

  /** The loop that pops trailing zeros and raises the exponent for each. */
  method NormalizeDecimal(d: Decimal) returns (node: Node)
    requires d.WellFormed()
    ensures node == DecimalForm(d)
  {
    if d.Zero() { return DecimalNode(0, "0", 0); }
    var digits, exponent := d.digits, d.exponent;
    while digits[|digits| - 1] == 0
      invariant 0 < |digits| <= |d.digits| && digits == d.digits[..|digits|]
      invariant exponent == d.exponent + |d.digits| - |digits|
      invariant Stripped(digits) == Stripped(d.digits)
      invariant exists i :: 0 <= i < |digits| && digits[i] != 0
      decreases |digits|
    {
      assert digits != [0];
      digits := digits[..|digits| - 1];
      exponent := exponent + 1;
    }
    node := DecimalNode(if d.negative then 1 else 0, DigitsText(digits), exponent);
  }

  /** A nonzero decimal in units of 10^low, from its stripped digits. */
  lemma {:induction false} StrippedScale(d: Decimal, low: int)
    requires d.WellFormed() && !d.Zero() && low <= d.exponent
    ensures
      var ds := Stripped(d.digits);
      && Coefficient(ds) % 10 != 0
      && Scaled(d, low) == Signed(d.negative, Coefficient(ds) * Pow10(d.exponent + |d.digits| - |ds| - low))
  {
    var ds := Stripped(d.digits);
    var k := |d.digits| - |ds|;
    CoefficientZero(d.digits);
    StrippedValue(d.digits);
    PowAdd(k, d.exponent - low);
    Times(Coefficient(ds), Pow10(k), Pow10(d.exponent - low));
  }

  /** Two decimals have one canonical node exactly when they are equal as numbers. */
  lemma {:induction false} DecimalFormExact(a: Decimal, b: Decimal)
    requires a.WellFormed() && b.WellFormed()
    ensures DecimalForm(a) == DecimalForm(b) <==> SameValue(a, b)
  {
    var low := Lower(a.exponent, b.exponent);
    CoefficientZero(a.digits);
    CoefficientZero(b.digits);
    if a.Zero() || b.Zero() {
      ZeroForm(a, low);
      ZeroForm(b, low);
    } else {
      StrippedScale(a, low);
      StrippedScale(b, low);
      NonzeroFormExact(a, b, low);
    }
  }

  /** Zero, and nothing else, has the zero node and scales to zero. */
  lemma {:induction false} ZeroForm(d: Decimal, low: int)
    requires d.WellFormed() && low <= d.exponent
    ensures d.Zero() <==> Scaled(d, low) == 0
    ensures d.Zero() <==> DecimalForm(d) == DecimalNode(0, "0", 0)
  {
    CoefficientZero(d.digits);
    if !d.Zero() {
      Grows(0, Coefficient(d.digits), Pow10(d.exponent - low));
      StrippedValue(d.digits);
      var ds := Stripped(d.digits);
      if DigitsText(ds) == "0" {
        assert DigitsText([0]) == "0";
        DigitsRead(ds, [0]);
      }
    }
  }

  lemma {:induction false} NonzeroFormExact(a: Decimal, b: Decimal, low: int)
    requires a.WellFormed() && b.WellFormed() && !a.Zero() && !b.Zero() && low == Lower(a.exponent, b.exponent)
    requires Coefficient(Stripped(a.digits)) % 10 != 0 && Coefficient(Stripped(b.digits)) % 10 != 0
    requires Scaled(a, low) == Signed(a.negative, Coefficient(Stripped(a.digits)) * Pow10(a.exponent + |a.digits| - |Stripped(a.digits)| - low))
    requires Scaled(b, low) == Signed(b.negative, Coefficient(Stripped(b.digits)) * Pow10(b.exponent + |b.digits| - |Stripped(b.digits)| - low))
    ensures DecimalForm(a) == DecimalForm(b) <==> SameValue(a, b)
  {
    hide Scaled, Coefficient, Pow10, Stripped, Decimal.Zero, Decimal.WellFormed;
    var x, y := Stripped(a.digits), Stripped(b.digits);
    var m, n := a.exponent + |a.digits| - |x|, b.exponent + |b.digits| - |y|;
    SignedExact(a.negative, Coefficient(x), m - low, b.negative, Coefficient(y), n - low);
    if SameValue(a, b) {
      StrippedLeads(a);
      StrippedLeads(b);
      NumeralDetermined(x, y);
    }
    if DecimalForm(a) == DecimalForm(b) { DigitsRead(x, y); }
  }

  lemma {:induction false} SignedExact(p: bool, m: nat, a: nat, q: bool, n: nat, b: nat)
    requires m % 10 != 0 && n % 10 != 0
    ensures Signed(p, m * Pow10(a)) == Signed(q, n * Pow10(b)) <==> p == q && m == n && a == b
  {
    Grows(0, m, Pow10(a));
    Grows(0, n, Pow10(b));
    hide Pow10;
    if m * Pow10(a) == n * Pow10(b) { NormalFormUnique(m, a, n, b); }
  }

  lemma {:induction false} StrippedLeads(d: Decimal)
    requires d.WellFormed() && !d.Zero()
    ensures Stripped(d.digits) != [] && Stripped(d.digits)[0] != 0
  {
  }

  // ----- sorted keys -----

  /** Text order, character by character. */
  predicate Below(a: string, b: string) {
    if b == "" then false
    else if a == "" then true
    else if a[0] != b[0] then a[0] < b[0]
    else Below(a[1..], b[1..])
  }

  lemma {:induction false} OneIsBelow(a: string, b: string)
    ensures a != b ==> Below(a, b) || Below(b, a)
    ensures Below(a, b) ==> !Below(b, a) && a != b
  {
    if a != "" && b != "" && a[0] == b[0] {
      OneIsBelow(a[1..], b[1..]);
      assert a == [a[0]] + a[1..] && b == [b[0]] + b[1..];
    }
  }

  lemma {:induction false} BelowChains(a: string, b: string, c: string)
    requires Below(a, b) && Below(b, c)
    ensures Below(a, c)
  {
    if a != "" && a[0] == b[0] == c[0] { BelowChains(a[1..], b[1..], c[1..]); }
  }

  predicate Ascending(ks: seq<string>) {
    forall i, j :: 0 <= i < j < |ks| ==> Below(ks[i], ks[j])
  }

  function Inserted(k: string, ks: seq<string>): seq<string> {
    if ks == [] then [k]
    else if Below(k, ks[0]) then [k] + ks
    else [ks[0]] + Inserted(k, ks[1..])
  }

  function Sorted(ks: seq<string>): seq<string> {
    if ks == [] then [] else Inserted(ks[0], Sorted(ks[1..]))
  }

  lemma {:induction false} InsertedKeys(k: string, ks: seq<string>)
    ensures forall x :: x in Inserted(k, ks) <==> x == k || x in ks
  {
    if ks != [] && !Below(k, ks[0]) {
      InsertedKeys(k, ks[1..]);
      assert ks == [ks[0]] + ks[1..];
    }
  }

  lemma {:induction false} InsertedAscends(k: string, ks: seq<string>)
    requires Ascending(ks) && k !in ks
    ensures Ascending(Inserted(k, ks))
  {
    if ks != [] {
      OneIsBelow(k, ks[0]);
      if Below(k, ks[0]) {
        forall j | 0 < j < |ks| ensures Below(k, ks[j]) { BelowChains(k, ks[0], ks[j]); }
      } else {
        InsertedAscends(k, ks[1..]);
        InsertedKeys(k, ks[1..]);
        var rest := Inserted(k, ks[1..]);
        forall j | 0 <= j < |rest| ensures Below(ks[0], rest[j]) {
          assert rest[j] in rest;
        }
      }
    }
  }

  lemma {:induction false} SortedKeys(ks: seq<string>)
    requires forall i, j :: 0 <= i < j < |ks| ==> ks[i] != ks[j]
    ensures Ascending(Sorted(ks)) && forall x :: x in Sorted(ks) <==> x in ks
  {
    if ks != [] {
      SortedKeys(ks[1..]);
      InsertedKeys(ks[0], Sorted(ks[1..]));
      InsertedAscends(ks[0], Sorted(ks[1..]));
      assert ks == [ks[0]] + ks[1..];
    }
  }

  /** Ascending keys are determined by which keys they are. */
  lemma {:induction false} AscendingDetermined(a: seq<string>, b: seq<string>)
    requires Ascending(a) && Ascending(b) && forall x :: x in a <==> x in b
    ensures a == b
  {
    assert (a != [] ==> a[0] in b) && (b != [] ==> b[0] in a);
    if a != [] {
      FirstsAgree(a, b);
      RestsAgree(a, b);
      RestsAgree(b, a);
      AscendingDetermined(a[1..], b[1..]);
      assert a == [a[0]] + a[1..] && b == [b[0]] + b[1..];
    }
  }

  lemma {:induction false} FirstsAgree(a: seq<string>, b: seq<string>)
    requires Ascending(a) && Ascending(b) && a != [] && b != [] && a[0] in b && b[0] in a
    ensures a[0] == b[0]
  {
    OneIsBelow(a[0], b[0]);
  }

  lemma {:induction false} RestsAgree(a: seq<string>, b: seq<string>)
    requires Ascending(a) && a != [] && b != [] && a[0] == b[0] && forall x :: x in a ==> x in b
    ensures forall x :: x in a[1..] ==> x in b[1..]
  {
    forall x | x in a[1..] ensures x in b[1..] {
      var i :| 0 < i < |a| && a[i] == x;
      OneIsBelow(a[0], a[i]);
      assert x in b && x != b[0];
    }
  }

  // ----- the canonical form -----

  function KeyTexts(es: seq<Entry>): (r: seq<string>)
    requires forall i :: 0 <= i < |es| ==> es[i].key.Text?
    ensures |r| == |es| && forall i :: 0 <= i < |es| ==> r[i] == es[i].key.text
  {
    seq(|es|, i requires 0 <= i < |es| => es[i].key.text)
  }

  predicate Keyed(es: seq<Entry>, k: string) { exists i :: 0 <= i < |es| && es[i].key == Text(k) }

  /** The value a mapping holds under a key. */
  function At(es: seq<Entry>, k: string): (r: Value)
    requires Keyed(es, k)
    ensures exists i :: 0 <= i < |es| && es[i].key == Text(k) && es[i].value == r
  {
    if es[0].key == Text(k) then es[0].value else At(es[1..], k)
  }

  /** These are the keys of the entries. */
  ghost predicate Covers(es: seq<Entry>, ks: seq<string>) {
    (forall k :: k in ks ==> Keyed(es, k)) && (forall i :: 0 <= i < |es| ==> es[i].key.Text? && es[i].key.text in ks)
  }

  lemma {:induction false} KeyedAt(es: seq<Entry>, ks: seq<string>, i: nat)
    requires Covers(es, ks) && i < |ks|
    ensures Keyed(es, ks[i])
  {
  }

  function ValuesAt(es: seq<Entry>, ks: seq<string>): (r: seq<Value>)
    requires Covers(es, ks)
    ensures |r| == |ks|
  {
    seq(|ks|, i requires 0 <= i < |ks| => KeyedAt(es, ks, i); At(es, ks[i]))
  }

  function Fields(ks: seq<string>, nodes: seq<Node>): (r: seq<Field>)
    requires |ks| == |nodes|
    ensures |r| == |ks| && forall i :: 0 <= i < |r| ==> r[i] == Field(ks[i], nodes[i])
  {
    seq(|ks|, i requires 0 <= i < |ks| => Field(ks[i], nodes[i]))
  }

  lemma {:induction false} SortedCovers(es: seq<Entry>)
    requires forall i :: 0 <= i < |es| ==> es[i].key.Text?
    ensures Covers(es, Sorted(KeyTexts(es)))
  {
    var ks := KeyTexts(es);
    forall k | k in Sorted(ks) ensures Keyed(es, k) {
      SortedOnly(ks, k);
      var i :| 0 <= i < |es| && ks[i] == k;
    }
    forall i | 0 <= i < |es| ensures es[i].key.text in Sorted(ks) {
      assert ks[i] in ks;
      SortedAll(ks, ks[i]);
    }
  }

  lemma {:induction false} SortedAll(ks: seq<string>, k: string)
    requires k in ks
    ensures k in Sorted(ks)
  {
    InsertedKeys(ks[0], Sorted(ks[1..]));
    if k != ks[0] { SortedAll(ks[1..], k); }
  }

  lemma {:induction false} SortedOnly(ks: seq<string>, k: string)
    requires k in Sorted(ks)
    ensures k in ks
  {
    InsertedKeys(ks[0], Sorted(ks[1..]));
    if k != ks[0] { SortedOnly(ks[1..], k); }
  }

  /** The canonical node of a value, or the error the program raises. */
  function Normalize(v: Value): Result<Node>
    decreases v, 1, 0
  {
    match v
    case Null => Ok(NullNode)
    case Bool(b) => Ok(BoolNode(b))
    case Int(n) => Ok(IntNode(IntText(n)))
    case Str(s) => Ok(StrNode(s))
    case NonFinite => Err("NONFINITE_POLICY_NUMBER")
    case Number(d) => Ok(DecimalForm(d))
    case Mapping(es) =>
      if exists i :: 0 <= i < |es| && !es[i].key.Text? then Err("POLICY_MAPPING_KEYS_MUST_BE_STRINGS")
      else
        SortedCovers(es);
        var keys := Sorted(KeyTexts(es));
        var nodes :- NormalizeAll(v, ValuesAt(es, keys));
        Ok(MapNode(Fields(keys, nodes)))
    case ListOf(vs) =>
      var nodes :- NormalizeAll(v, vs);
      Ok(SequenceNode(nodes))
    case TupleOf(vs) =>
      var nodes :- NormalizeAll(v, vs);
      Ok(SequenceNode(nodes))
    case Other(typeName) => Err("UNSUPPORTED_POLICY_VALUE:" + typeName)
  }

  function NormalizeAll(owner: Value, vs: seq<Value>): (r: Result<seq<Node>>)
    requires forall i :: 0 <= i < |vs| ==> vs[i] < owner
    decreases owner, 0, |vs|
    ensures r.Ok? ==> |r.value| == |vs|
  {
    if vs == [] then Ok([])
    else
      var first :- Normalize(vs[0]);
      var rest :- NormalizeAll(owner, vs[1..]);
      Ok([first] + rest)
  }

  // ----- what the form identifies -----

  function KeySet(es: seq<Entry>): set<Key> { set e | e in es :: e.key }

  /** Equal up to decimal scale, the sign of zero, the order of a map, and list against tuple; other
      types are kept apart. */
  ghost predicate Equivalent(a: Value, b: Value)
    decreases a
  {
    match (a, b)
    case (Number(d), Number(e)) => SameValue(d, e)
    case (Mapping(es), Mapping(fs)) =>
      && KeySet(es) == KeySet(fs)
      && forall i, j :: 0 <= i < |es| && 0 <= j < |fs| && es[i].key == fs[j].key ==> Equivalent(es[i].value, fs[j].value)
    case (ListOf(vs), ListOf(ws)) => |vs| == |ws| && forall i :: 0 <= i < |vs| ==> Equivalent(vs[i], ws[i])
    case (ListOf(vs), TupleOf(ws)) => |vs| == |ws| && forall i :: 0 <= i < |vs| ==> Equivalent(vs[i], ws[i])
    case (TupleOf(vs), ListOf(ws)) => |vs| == |ws| && forall i :: 0 <= i < |vs| ==> Equivalent(vs[i], ws[i])
    case (TupleOf(vs), TupleOf(ws)) => |vs| == |ws| && forall i :: 0 <= i < |vs| ==> Equivalent(vs[i], ws[i])
    case (_, _) => a == b
  }

  /** Each value of a list is normalised on its own, and one failure fails them all. */
  lemma {:induction false} EachNormalized(owner: Value, vs: seq<Value>)
    requires forall i :: 0 <= i < |vs| ==> vs[i] < owner
    ensures NormalizeAll(owner, vs).Ok? <==> forall i :: 0 <= i < |vs| ==> Normalize(vs[i]).Ok?
    ensures NormalizeAll(owner, vs).Ok? ==>
      forall i :: 0 <= i < |vs| ==> Normalize(vs[i]) == Ok(NormalizeAll(owner, vs).value[i])
  {
    hide Normalize;
    if vs != [] {
      EachNormalized(owner, vs[1..]);
      assert forall i :: 1 <= i < |vs| ==> vs[i] == vs[1..][i - 1];
    }
  }

  ghost predicate DistinctKeys(es: seq<Entry>) {
    forall i, j :: 0 <= i < j < |es| ==> es[i].key != es[j].key
  }

  lemma {:induction false} AtEntry(es: seq<Entry>, i: nat)
    requires DistinctKeys(es) && i < |es| && es[i].key.Text?
    ensures Keyed(es, es[i].key.text) && At(es, es[i].key.text) == es[i].value
  {
  }

  lemma {:induction false} EntryKeys(es: seq<Entry>)
    requires DistinctKeys(es) && forall i :: 0 <= i < |es| ==> es[i].key.Text?
    ensures Ascending(Sorted(KeyTexts(es))) && Covers(es, Sorted(KeyTexts(es)))
  {
    SortedKeys(KeyTexts(es));
    SortedCovers(es);
  }

  /** The form is defined exactly for supported values. */
  lemma {:induction false} SupportedExactly(v: Value)
    requires WellFormed(v)
    ensures Normalize(v).Ok? <==> Supported(v)
    decreases v
  {
    match v
    case Mapping(es) => MappingSupported(v);
    case ListOf(vs) => EachSupported(v, vs);
    case TupleOf(vs) => EachSupported(v, vs);
    case _ =>
  }

  lemma {:induction false} EachSupported(owner: Value, vs: seq<Value>)
    requires forall i :: 0 <= i < |vs| ==> vs[i] < owner && WellFormed(vs[i])
    ensures NormalizeAll(owner, vs).Ok? <==> forall i :: 0 <= i < |vs| ==> Supported(vs[i])
    decreases owner, 0
  {
    EachNormalized(owner, vs);
    forall i | 0 <= i < |vs| ensures Normalize(vs[i]).Ok? <==> Supported(vs[i]) { SupportedExactly(vs[i]); }
    hide Normalize, NormalizeAll, Supported;
  }

  lemma {:induction false} MappingOpens(v: Value, keys: seq<string>)
    requires v.Mapping? && (forall i :: 0 <= i < |v.entries| ==> v.entries[i].key.Text?)
    requires keys == Sorted(KeyTexts(v.entries)) && Covers(v.entries, keys)
    requires forall j :: 0 <= j < |keys| ==> ValuesAt(v.entries, keys)[j] < v
    ensures Normalize(v).Ok? <==> NormalizeAll(v, ValuesAt(v.entries, keys)).Ok?
    ensures Normalize(v).Ok? ==> Normalize(v) == Ok(MapNode(Fields(keys, NormalizeAll(v, ValuesAt(v.entries, keys)).value)))
  {
    hide Sorted, KeyTexts, ValuesAt, Fields;
  }

  lemma {:induction false} MappingSupported(v: Value)
    requires v.Mapping? && WellFormed(v)
    ensures Normalize(v).Ok? <==> Supported(v)
    decreases v, 1
  {
    hide KeyTexts, Sorted, At, Keyed;
    var es := v.entries;
    if forall i :: 0 <= i < |es| ==> es[i].key.Text? {
      EntryKeys(es);
      var keys := Sorted(KeyTexts(es));
      hide Sorted, KeyTexts;
      ValuesWellFormed(v, keys);
      MappingOpens(v, keys);
      hide Normalize, NormalizeAll;
      EachSupported(v, ValuesAt(es, keys));
      ValuesSupported(es, keys);
      hide WellFormed, ValuesAt, Covers, At, Keyed;
    }
  }

  lemma {:induction false} ValuesWellFormed(v: Value, keys: seq<string>)
    requires v.Mapping? && WellFormed(v) && Covers(v.entries, keys)
    ensures forall j :: 0 <= j < |keys| ==> ValuesAt(v.entries, keys)[j] < v && WellFormed(ValuesAt(v.entries, keys)[j])
  {
    forall j | 0 <= j < |keys|
      ensures ValuesAt(v.entries, keys)[j] < v && WellFormed(ValuesAt(v.entries, keys)[j])
    {
      var i := EntryOf(v.entries, keys, j);
      assert WellFormed(v.entries[i].value);
    }
  }

  lemma {:induction false} EntryOf(es: seq<Entry>, keys: seq<string>, j: nat) returns (i: nat)
    requires Covers(es, keys) && j < |keys|
    ensures i < |es| && es[i].key == Text(keys[j]) && es[i].value == ValuesAt(es, keys)[j]
  {
    KeyedAt(es, keys, j);
    var n: nat :| n < |es| && es[n].key == Text(keys[j]) && es[n].value == At(es, keys[j]);
    i := n;
  }

  lemma {:induction false} ValueOf(es: seq<Entry>, keys: seq<string>, i: nat) returns (j: nat)
    requires DistinctKeys(es) && Covers(es, keys) && i < |es|
    ensures j < |keys| && keys[j] == es[i].key.text && es[i].value == ValuesAt(es, keys)[j]
  {
    AtEntry(es, i);
    var n: nat :| n < |keys| && keys[n] == es[i].key.text;
    j := n;
  }

  lemma {:induction false} ValueHere(es: seq<Entry>, keys: seq<string>, n: nat, i: nat)
    requires DistinctKeys(es) && Covers(es, keys) && i < |es| && n < |keys| && es[i].key == Text(keys[n])
    ensures ValuesAt(es, keys)[n] == es[i].value
  {
    AtEntry(es, i);
  }

  lemma {:induction false} ValuesSupported(es: seq<Entry>, keys: seq<string>)
    requires DistinctKeys(es) && Covers(es, keys)
    ensures (forall j :: 0 <= j < |keys| ==> Supported(ValuesAt(es, keys)[j])) <==> forall i :: 0 <= i < |es| ==> Supported(es[i].value)
  {
    hide Supported, At, Keyed, ValuesAt, Covers, DistinctKeys;
    if forall j :: 0 <= j < |keys| ==> Supported(ValuesAt(es, keys)[j]) {
      forall i | 0 <= i < |es| ensures Supported(es[i].value) {
        var j := ValueOf(es, keys, i);
        assert Supported(ValuesAt(es, keys)[j]);
      }
    }
    if forall i :: 0 <= i < |es| ==> Supported(es[i].value) {
      forall j | 0 <= j < |keys| ensures Supported(ValuesAt(es, keys)[j]) {
        var i := EntryOf(es, keys, j);
        assert Supported(es[i].value);
      }
    }
  }

  // ----- completeness of the form -----

  /** Two supported values have the same canonical node exactly when they are equivalent. */
  lemma {:induction false} FormIsComplete(a: Value, b: Value)
    requires WellFormed(a) && WellFormed(b) && Supported(a) && Supported(b)
    ensures Normalize(a) == Normalize(b) <==> Equivalent(a, b)
    decreases a
  {
    if a.Mapping? && b.Mapping? {
      MappingsComplete(a, b);
    } else if (a.ListOf? || a.TupleOf?) && (b.ListOf? || b.TupleOf?) {
      hide DecimalForm, SameValue;
      SequencesComplete(a, if a.ListOf? then a.items else a.members, b, if b.ListOf? then b.items else b.members);
    } else {
      SupportedExactly(a);
      SupportedExactly(b);
      hide Supported, WellFormed;
      OthersComplete(a, b);
    }
  }

  lemma {:induction false} OthersComplete(a: Value, b: Value)
    requires a.Number? ==> a.d.WellFormed()
    requires b.Number? ==> b.d.WellFormed()
    requires Normalize(a).Ok? && Normalize(b).Ok?
    requires !(a.Mapping? && b.Mapping?) && !((a.ListOf? || a.TupleOf?) && (b.ListOf? || b.TupleOf?))
    ensures Normalize(a) == Normalize(b) <==> Equivalent(a, b)
  {
    hide Sorted, KeyTexts, IntText, DecimalForm, SameValue, NormalizeAll, Fields, KeySet, Decimal.WellFormed;
    if a.Number? && b.Number? {
      DecimalFormExact(a.d, b.d);
    } else if a.Int? && b.Int? {
      if IntText(a.n) == IntText(b.n) { IntRead(a.n, b.n); }
    } else {
      if a.Number? { NodeOfDecimal(a.d); }
      if b.Number? { NodeOfDecimal(b.d); }
    }
  }

  lemma {:induction false} NodeOfDecimal(d: Decimal)
    ensures DecimalForm(d).DecimalNode?
  {
  }

  lemma {:induction false} SequencesComplete(a: Value, vs: seq<Value>, b: Value, ws: seq<Value>)
    requires forall i :: 0 <= i < |vs| ==> vs[i] < a && WellFormed(vs[i]) && Supported(vs[i])
    requires forall i :: 0 <= i < |ws| ==> ws[i] < b && WellFormed(ws[i]) && Supported(ws[i])
    ensures NormalizeAll(a, vs).Ok? && NormalizeAll(b, ws).Ok?
    ensures NormalizeAll(a, vs).value == NormalizeAll(b, ws).value <==>
      |vs| == |ws| && forall i :: 0 <= i < |vs| ==> Equivalent(vs[i], ws[i])
    decreases a, 0
  {
    EachNormalized(a, vs);
    EachNormalized(b, ws);
    EachSupported(a, vs);
    EachSupported(b, ws);
    if |vs| == |ws| {
      forall i | 0 <= i < |vs| ensures Normalize(vs[i]) == Normalize(ws[i]) <==> Equivalent(vs[i], ws[i]) {
        FormIsComplete(vs[i], ws[i]);
      }
    }
    hide Normalize, NormalizeAll, Equivalent, Supported, WellFormed;
    if |vs| == |ws| {
      var x, y := NormalizeAll(a, vs).value, NormalizeAll(b, ws).value;
      assert x == y <==> forall i :: 0 <= i < |vs| ==> x[i] == y[i];
    }
  }

  lemma {:induction false} MappingsComplete(a: Value, b: Value)
    requires a.Mapping? && b.Mapping? && WellFormed(a) && WellFormed(b) && Supported(a) && Supported(b)
    ensures Normalize(a) == Normalize(b) <==> Equivalent(a, b)
    decreases a, 1
  {
    var es, fs := a.entries, b.entries;
    EntryKeys(es);
    EntryKeys(fs);
    var ks, ls := Sorted(KeyTexts(es)), Sorted(KeyTexts(fs));
    hide Sorted, KeyTexts, Normalize, NormalizeAll, Equivalent, At, Keyed, Fields;
    SameKeysSameOrder(es, ks, fs, ls);
    ValuesWellFormed(a, ks);
    ValuesWellFormed(b, ls);
    ValuesSupported(es, ks);
    ValuesSupported(fs, ls);
    hide KeySet;
    SequencesComplete(a, ValuesAt(es, ks), b, ValuesAt(fs, ls));
    MappingNodes(a, ks, b, ls);
    EquivalentOpens(a, b);
    if ks == ls { ValuesEquivalent(a, b, ks); }
    hide Supported, WellFormed, Covers, Ascending, ValuesAt;
  }

  lemma {:induction false} EquivalentOpens(a: Value, b: Value)
    requires a.Mapping? && b.Mapping?
    ensures Equivalent(a, b) <==> KeySet(a.entries) == KeySet(b.entries) && EntriesEquivalent(a, b)
  {
    hide KeySet;
  }

  ghost predicate EntriesEquivalent(a: Value, b: Value)
    requires a.Mapping? && b.Mapping?
  {
    forall i, j :: 0 <= i < |a.entries| && 0 <= j < |b.entries| && a.entries[i].key == b.entries[j].key ==>
      Equivalent(a.entries[i].value, b.entries[j].value)
  }

  lemma {:induction false} MappingNodes(a: Value, ks: seq<string>, b: Value, ls: seq<string>)
    requires a.Mapping? && (forall i :: 0 <= i < |a.entries| ==> a.entries[i].key.Text?)
    requires b.Mapping? && (forall i :: 0 <= i < |b.entries| ==> b.entries[i].key.Text?)
    requires ks == Sorted(KeyTexts(a.entries)) && Covers(a.entries, ks)
    requires ls == Sorted(KeyTexts(b.entries)) && Covers(b.entries, ls)
    requires forall j :: 0 <= j < |ks| ==> ValuesAt(a.entries, ks)[j] < a
    requires forall j :: 0 <= j < |ls| ==> ValuesAt(b.entries, ls)[j] < b
    requires NormalizeAll(a, ValuesAt(a.entries, ks)).Ok? && NormalizeAll(b, ValuesAt(b.entries, ls)).Ok?
    ensures Normalize(a) == Normalize(b) <==>
      ks == ls && NormalizeAll(a, ValuesAt(a.entries, ks)).value == NormalizeAll(b, ValuesAt(b.entries, ls)).value
  {
    hide Normalize, NormalizeAll, Sorted, KeyTexts;
    MappingOpens(a, ks);
    MappingOpens(b, ls);
    hide Covers, ValuesAt, Fields;
    FieldsDetermined(ks, NormalizeAll(a, ValuesAt(a.entries, ks)).value, ls, NormalizeAll(b, ValuesAt(b.entries, ls)).value);
  }

  lemma {:induction false} SameKeysSameOrder(es: seq<Entry>, ks: seq<string>, fs: seq<Entry>, ls: seq<string>)
    requires Ascending(ks) && Ascending(ls) && Covers(es, ks) && Covers(fs, ls)
    ensures ks == ls <==> KeySet(es) == KeySet(fs)
  {
    KeysAsSet(es, ks);
    KeysAsSet(fs, ls);
    hide Covers, KeySet;
    if KeySet(es) == KeySet(fs) {
      forall k: string ensures k in ks <==> k in ls {
        assert Text(k) in KeySet(es) <==> k in ks;
        assert Text(k) in KeySet(fs) <==> k in ls;
      }
      AscendingDetermined(ks, ls);
    }
    if ks == ls {
      assert forall key :: key in KeySet(es) <==> key in KeySet(fs);
    }
  }

  lemma {:induction false} KeysAsSet(es: seq<Entry>, ks: seq<string>)
    requires Covers(es, ks)
    ensures forall key :: key in KeySet(es) <==> key.Text? && key.text in ks
  {
    forall key ensures key in KeySet(es) <==> key.Text? && key.text in ks {
      if key.Text? && key.text in ks {
        assert Keyed(es, key.text);
        var i :| 0 <= i < |es| && es[i].key == Text(key.text);
        assert es[i] in es;
      }
    }
  }

  lemma {:induction false} FieldsDetermined(ks: seq<string>, x: seq<Node>, ls: seq<string>, y: seq<Node>)
    requires |ks| == |x| && |ls| == |y|
    ensures Fields(ks, x) == Fields(ls, y) <==> ks == ls && x == y
  {
    var f, g := Fields(ks, x), Fields(ls, y);
    if f == g {
      assert |ks| == |f| == |ls|;
      forall i | 0 <= i < |ks| ensures ks[i] == ls[i] && x[i] == y[i] { assert f[i] == g[i]; }
    }
  }

  lemma {:induction false} ValuesEquivalent(a: Value, b: Value, ks: seq<string>)
    requires a.Mapping? && b.Mapping? && DistinctKeys(a.entries) && DistinctKeys(b.entries)
    requires Covers(a.entries, ks) && Covers(b.entries, ks)
    ensures (forall i :: 0 <= i < |ks| ==> Equivalent(ValuesAt(a.entries, ks)[i], ValuesAt(b.entries, ks)[i])) <==>
      EntriesEquivalent(a, b)
  {
    hide Equivalent, At, Keyed, ValuesAt, DistinctKeys;
    var es, fs := a.entries, b.entries;
    if forall i :: 0 <= i < |ks| ==> Equivalent(ValuesAt(es, ks)[i], ValuesAt(fs, ks)[i]) {
      forall i, j | 0 <= i < |es| && 0 <= j < |fs| && es[i].key == fs[j].key ensures Equivalent(es[i].value, fs[j].value) {
        var n := ValueOf(es, ks, i);
        ValueHere(fs, ks, n, j);
        assert Equivalent(ValuesAt(es, ks)[n], ValuesAt(fs, ks)[n]);
      }
    }
    if forall i, j :: 0 <= i < |es| && 0 <= j < |fs| && es[i].key == fs[j].key ==> Equivalent(es[i].value, fs[j].value) {
      forall n | 0 <= n < |ks| ensures Equivalent(ValuesAt(es, ks)[n], ValuesAt(fs, ks)[n]) {
        var i := EntryOf(es, ks, n);
        var j := EntryOf(fs, ks, n);
        assert es[i].key == fs[j].key;
      }
    }
  }
}
