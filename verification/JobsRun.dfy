/** One undisturbed run: the loops, what they amount to, and exactly when they complete. */
module JobsRun {
  import opened Wrappers
  import opened Jobs
  import opened JobsSafety

  // ----- what an undisturbed run amounts to -----

  /** One pair on the directory: use the checkpoint on file, or file one. */
  function Settle(tools: Tools, files: Files, t: Terms, u: Unit, dataset: Option<Dataset>): (Files, Result<Report>) {
    var key := KeyOf(tools, t, u);
    match Judge(tools, t, u, dataset, Lookup(files, CheckpointFile(key)))
    case Refuse(error) => (files, Err(error))
    case Use(r) => (files, Ok(r))
    case File(r) =>
      if PendingFile(key) in files then (files, Err("FileExistsError"))
      else (files[CheckpointFile(key) := CheckpointText(tools, dataset, r)], Ok(r))
  }

  datatype Progress = Progress(files: Files, yielded: seq<Report>, failure: Option<string>)

  /** The first k pairs, or as far as a failure lets them come. */
  function SettledTo(tools: Tools, files: Files, t: Terms, load: Inputs, k: nat): Progress
    requires k <= |Units(t)|
  {
    if k == 0 then Progress(files, [], None)
    else
      var p := SettledTo(tools, files, t, load, k - 1);
      if p.failure.Some? then p
      else
        var u := Units(t)[k - 1];
        var (files', r) := Settle(tools, p.files, t, u, load(u.symbol, u.window.months));
        if r.Err? then Progress(files', p.yielded, Some(r.error)) else Progress(files', p.yielded + [r.value], None)
  }

  /** A whole run: the directory it leaves, its outcome and its results. */
  function Performed(tools: Tools, files: Files, t: Terms, load: Inputs): (Files, Outcome, seq<Report>) {
    var text := tools.configText(t);
    if LockFile in files then (files, Failed("FileExistsError"), [])
    else if ConfigurationFile in files && files[ConfigurationFile] != text then
      (files, Failed("CHECKPOINT_CONFIGURATION_CONFLICT"), [])
    else
      var p := SettledTo(tools, files[LockFile := ""][ConfigurationFile := text], t, load, |Units(t)|);
      (p.files - {LockFile}, if p.failure.Some? then Failed(p.failure.value) else Completed, p.yielded)
  }

  // ----- the loops -----

  /** Where the pairs of a member and a window start. */
  function Offset(t: Terms, i: nat, j: nat): nat
    requires i < |t.members| && j <= |t.windows|
  {
    |ForMembers(t.members[..i], t.windows, t.definitions)| + |ForWindows(t.members[i], t.windows[..j], t.definitions)|
  }

  lemma {:induction false} DefinitionAt(symbol: string, window: Window, definitions: seq<Definition>, d: nat)
    ensures |ForDefinitions(symbol, window, definitions)| == |definitions|
    ensures d < |definitions| ==> ForDefinitions(symbol, window, definitions)[d] == Unit(symbol, window, definitions[d])
  {
    if definitions != [] { DefinitionAt(symbol, window, definitions[..|definitions| - 1], d); }
  }

  lemma {:induction false} WindowsPrefix(symbol: string, windows: seq<Window>, definitions: seq<Definition>, j: nat)
    requires j <= |windows|
    ensures ForWindows(symbol, windows[..j], definitions) <= ForWindows(symbol, windows, definitions)
  {
    if j < |windows| {
      var rest := windows[..|windows| - 1];
      assert rest[..j] == windows[..j];
      WindowsPrefix(symbol, rest, definitions, j);
    } else {
      assert windows[..j] == windows;
    }
  }

  lemma {:induction false} MembersPrefix(members: seq<string>, windows: seq<Window>, definitions: seq<Definition>, i: nat)
    requires i <= |members|
    ensures ForMembers(members[..i], windows, definitions) <= ForMembers(members, windows, definitions)
  {
    if i < |members| {
      var rest := members[..|members| - 1];
      assert rest[..i] == members[..i];
      MembersPrefix(rest, windows, definitions, i);
    } else {
      assert members[..i] == members;
    }
  }

  lemma {:induction false} WindowAt(symbol: string, windows: seq<Window>, definitions: seq<Definition>, j: nat, d: nat)
    requires j < |windows| && d < |definitions|
    ensures
      var k := |ForWindows(symbol, windows[..j], definitions)| + d;
      k < |ForWindows(symbol, windows, definitions)| &&
      ForWindows(symbol, windows, definitions)[k] == Unit(symbol, windows[j], definitions[d])
  {
    var ws := windows[..j + 1];
    assert ws[..j] == windows[..j];
    WindowsPrefix(symbol, windows, definitions, j + 1);
    DefinitionAt(symbol, windows[j], definitions, d);
    assert ForWindows(symbol, ws, definitions) == ForWindows(symbol, windows[..j], definitions) + ForDefinitions(symbol, windows[j], definitions);
    hide ForWindows, ForDefinitions;
  }

  /** The nested loops meet the pairs in order. */
  lemma {:induction false} UnitAt(t: Terms, i: nat, j: nat, d: nat)
    requires i < |t.members| && j < |t.windows| && d < |t.definitions|
    ensures Offset(t, i, j) + d < |Units(t)| && Units(t)[Offset(t, i, j) + d] == Unit(t.members[i], t.windows[j], t.definitions[d])
  {
    hide ForMembers, ForWindows, Units;
    MembersSplit(t, i);
    WindowAt(t.members[i], t.windows, t.definitions, j, d);
    var k := |ForWindows(t.members[i], t.windows[..j], t.definitions)| + d;
    PrefixAt(ForMembers(t.members[..i], t.windows, t.definitions), ForWindows(t.members[i], t.windows, t.definitions), Units(t), k);
  }

  lemma {:induction false} PrefixAt<T>(a: seq<T>, b: seq<T>, all: seq<T>, k: nat)
    requires a + b <= all && k < |b|
    ensures |a| + k < |all| && all[|a| + k] == b[k]
  {
    assert (a + b)[|a| + k] == b[k];
  }

  lemma {:induction false} MembersSplit(t: Terms, i: nat)
    requires i < |t.members|
    ensures ForMembers(t.members[..i], t.windows, t.definitions) + ForWindows(t.members[i], t.windows, t.definitions) <= Units(t)
  {
    var ms := t.members[..i + 1];
    assert ms[..i] == t.members[..i];
    MembersPrefix(t.members, t.windows, t.definitions, i + 1);
  }

  lemma {:induction false} OffsetNext(t: Terms, i: nat, j: nat)
    requires i < |t.members| && j <= |t.windows|
    ensures j < |t.windows| ==> Offset(t, i, j + 1) == Offset(t, i, j) + |t.definitions|
    ensures j == |t.windows| && i + 1 < |t.members| ==> Offset(t, i + 1, 0) == Offset(t, i, j)
    ensures j == |t.windows| && i + 1 == |t.members| ==> |Units(t)| == Offset(t, i, j)
    ensures Offset(t, 0, 0) == 0
  {
    if j < |t.windows| {
      assert t.windows[..j + 1][..j] == t.windows[..j];
      DefinitionAt(t.members[i], t.windows[j], t.definitions, 0);
    } else {
      assert t.windows[..j] == t.windows && t.members[..i + 1][..i] == t.members[..i];
      if i + 1 == |t.members| { assert t.members[..i + 1] == t.members; }
    }
  }

  lemma {:induction false} FailureLasts(tools: Tools, files: Files, t: Terms, load: Inputs, k: nat, n: nat)
    requires k <= n <= |Units(t)| && SettledTo(tools, files, t, load, k).failure.Some?
    ensures SettledTo(tools, files, t, load, n) == SettledTo(tools, files, t, load, k)
  {
    hide Settle;
    if k < n { FailureLasts(tools, files, t, load, k, n - 1); }
  }

  lemma {:induction false} SettledNothing(tools: Tools, files: Files, t: Terms, load: Inputs)
    ensures SettledTo(tools, files, t, load, 0) == Progress(files, [], None)
  {
  }

  /** One more pair. */
  lemma {:induction false} SettledNext(tools: Tools, files: Files, t: Terms, load: Inputs, k: nat)
    requires k < |Units(t)| && SettledTo(tools, files, t, load, k).failure.None?
    ensures
      var p, u := SettledTo(tools, files, t, load, k), Units(t)[k];
      var (files', r) := Settle(tools, p.files, t, u, load(u.symbol, u.window.months));
      SettledTo(tools, files, t, load, k + 1) ==
      if r.Err? then Progress(files', p.yielded, Some(r.error)) else Progress(files', p.yielded + [r.value], None)
  {
    hide Settle, Units;
  }

  /** The directory a run works in. */
  class Store {
    var files: Files

    constructor ()
      ensures files == map[]
    {
      files := map[];
    }

    /** One pair: read its checkpoint, or evaluate, write a pending file and move it into place. */
    method SettlePair(tools: Tools, t: Terms, u: Unit, dataset: Option<Dataset>) returns (result: Result<Report>)
      modifies this
      ensures (files, result) == Settle(tools, old(files), t, u, dataset)
    {
      hide Evaluate, Bind, Identified;
      var path, temporary := CheckpointFile(KeyOf(tools, t, u)), PendingFile(KeyOf(tools, t, u));
      if path in files {
        var record := tools.readRecord(files[path]);
        if record.None? { return Err("MALFORMED_CHECKPOINT"); }
        if record.value.input != tools.digest(tools.sourceText(dataset))
           || tools.digest(record.value.result) != record.value.sha256 {
          return Err("CHECKPOINT_DATA_OR_CONTENT_CONFLICT");
        }
        var report := tools.readResult(record.value.result);
        if report.None? { return Err("MALFORMED_RESULT"); }
        if !Identified(tools, t, u, dataset, report.value) { return Err("CHECKPOINT_IDENTITY_CONFLICT"); }
        result := Ok(report.value);
      } else {
        var bound := Bind(tools, t.family, Evaluate(tools, t, u, dataset));
        if bound.Err? { return bound; }
        var encoded := CheckpointText(tools, dataset, bound.value);
        hide CheckpointText;
        if temporary in files { return Err("FileExistsError"); }
        files := files[temporary := encoded];
        files := (files - {temporary})[path := files[temporary]];
        assert files == old(files)[path := encoded];
        result := bound;
      }
    }

    /** The loops over members, windows and definitions. */
    method SettleAll(tools: Tools, t: Terms, load: Inputs) returns (results: seq<Report>, failure: Option<string>)
      requires t.members != []
      modifies this
      ensures Progress(files, results, failure) == SettledTo(tools, old(files), t, load, |Units(t)|)
    {
      hide Settle, Units, Offset, SettledTo;
      results := [];
      OffsetNext(t, 0, 0);
      SettledNothing(tools, files, t, load);
      for i := 0 to |t.members|
        invariant i < |t.members| ==>
                    (Offset(t, i, 0) <= |Units(t)| &&
                     SettledTo(tools, old(files), t, load, Offset(t, i, 0)) == Progress(files, results, None))
        invariant i == |t.members| ==>
                    SettledTo(tools, old(files), t, load, |Units(t)|) == Progress(files, results, None)
      {
        for j := 0 to |t.windows|
          invariant Offset(t, i, j) <= |Units(t)| &&
                    SettledTo(tools, old(files), t, load, Offset(t, i, j)) == Progress(files, results, None)
        {
          var dataset := load(t.members[i], t.windows[j].months);
          for d := 0 to |t.definitions|
            invariant Offset(t, i, j) + d <= |Units(t)| &&
                      SettledTo(tools, old(files), t, load, Offset(t, i, j) + d) == Progress(files, results, None)
          {
            UnitAt(t, i, j, d);
            SettledNext(tools, old(files), t, load, Offset(t, i, j) + d);
            var result := SettlePair(tools, t, Unit(t.members[i], t.windows[j], t.definitions[d]), dataset);
            if result.Err? {
              FailureLasts(tools, old(files), t, load, Offset(t, i, j) + d + 1, |Units(t)|);
              return results, Some(result.error);
            }
            results := results + [result.value];
          }
          OffsetNext(t, i, j);
        }
        OffsetNext(t, i, |t.windows|);
      }
      failure := None;
    }

    /** A run from its lock to its release, left to itself. */
    method Run(tools: Tools, t: Terms, load: Inputs) returns (outcome: Outcome, results: seq<Report>)
      modifies this
      ensures !Accepted(tools, t) ==> outcome == Failed("PARTITION_CONFLICT") && results == [] && files == old(files)
      ensures Accepted(tools, t) ==> (files, outcome, results) == Performed(tools, old(files), t, load)
    {
      hide SettledTo, Units;
      if !Accepted(tools, t) { return Failed("PARTITION_CONFLICT"), []; }
      assert t.members != [];
      hide Accepted;
      var text := tools.configText(t);
      if LockFile in files { return Failed("FileExistsError"), []; }
      files := files[LockFile := ""];
      if ConfigurationFile in files && files[ConfigurationFile] != text {
        files := files - {LockFile};
        assert files == old(files);
        return Failed("CHECKPOINT_CONFIGURATION_CONFLICT"), [];
      }
      if ConfigurationFile !in files { files := files[ConfigurationFile := text]; }
      assert files == old(files)[LockFile := ""][ConfigurationFile := text];
      var failure;
      results, failure := SettleAll(tools, t, load);
      files := files - {LockFile};
      outcome := if failure.Some? then Failed(failure.value) else Completed;
    }
  }

  // ----- keys -----

  /** The position of a text's first brace. */
  function Brace(text: string): nat {
    if text == [] || text[0] == '{' then 0 else 1 + Brace(text[1..])
  }

  lemma {:induction false} BraceAfter(s: string, rest: string)
    requires '{' !in s && rest != [] && rest[0] == '{'
    ensures Brace(s + rest) == |s|
  {
    if s == [] {
      assert s + rest == rest;
    } else {
      assert (s + rest)[1..] == s[1..] + rest;
      BraceAfter(s[1..], rest);
    }
  }

  lemma {:induction false} WindowRead(tools: Tools, v: Window, x: string, w: Window, y: string)
    requires tools.WindowsDelimited() && tools.windowText(v) + x == tools.windowText(w) + y
    ensures v == w && x == y
  {
    var (shorter, longer) := if |tools.windowText(v)| <= |tools.windowText(w)| then (v, w) else (w, v);
    var both, n := tools.windowText(v) + x, |tools.windowText(shorter)|;
    assert both[..n] == tools.windowText(shorter) && both[..n] == tools.windowText(longer)[..n];
    assert tools.windowText(shorter) <= tools.windowText(longer);
    assert both[|tools.windowText(v)|..] == x && both[|tools.windowText(w)|..] == y;
  }

  /** Keys tell pairs apart when no symbol contains the brace that opens a window's text. */
  lemma {:induction false} KeysDistinct(tools: Tools, t: Terms, u: Unit, v: Unit)
    requires tools.Faithful() && tools.WindowsDelimited() && '{' !in u.symbol && '{' !in v.symbol
    ensures KeyOf(tools, t, u) == KeyOf(tools, t, v) <==> u == v
  {
    if KeyOf(tools, t, u) == KeyOf(tools, t, v) {
      var c, wu, wv := tools.configText(t), tools.windowText(u.window), tools.windowText(v.window);
      var fu, fv := tools.Fingerprint(u.definition), tools.Fingerprint(v.definition);
      hide Tools.Fingerprint;
      var x, y := c + u.symbol + wu + fu, c + v.symbol + wv + fv;
      Same(tools.digest, x, y);
      assert x == c + (u.symbol + (wu + fu)) && y == c + (v.symbol + (wv + fv));
      assert x[|c|..] == u.symbol + (wu + fu) && y[|c|..] == v.symbol + (wv + fv);
      BraceAfter(u.symbol, wu + fu);
      BraceAfter(v.symbol, wv + fv);
      var n := |u.symbol|;
      assert x[|c|..][..n] == u.symbol && y[|c|..][..n] == v.symbol;
      assert x[|c|..][n..] == wu + fu && y[|c|..][n..] == wv + fv;
      WindowRead(tools, u.window, fu, v.window, fv);
      FingerprintRead(tools, u.definition, v.definition);
    }
  }

  lemma {:induction false} FingerprintRead(tools: Tools, d: Definition, e: Definition)
    requires tools.Faithful() && tools.Fingerprint(d) == tools.Fingerprint(e)
    ensures d == e
  {
    Same(tools.digest, tools.definitionText(d), tools.definitionText(e));
    Same(tools.definitionText, d, e);
  }

  // ----- pairs are met once -----

  lemma {:induction false} DefinitionsDistinct(symbol: string, window: Window, definitions: seq<Definition>)
    requires forall i, j :: 0 <= i < j < |definitions| ==> definitions[i].identifier != definitions[j].identifier
    ensures Distinct(ForDefinitions(symbol, window, definitions))
  {
    if definitions != [] {
      var rest, d := definitions[..|definitions| - 1], definitions[|definitions| - 1];
      DefinitionsDistinct(symbol, window, rest);
      if Unit(symbol, window, d) in ForDefinitions(symbol, window, rest) {
        DefinitionsDrawn(symbol, window, rest, Unit(symbol, window, d));
        assert false;
      }
    }
  }

  lemma {:induction false} DistinctJoin<T>(a: seq<T>, b: seq<T>)
    requires Distinct(a) && Distinct(b) && forall x :: x in b ==> x !in a
    ensures Distinct(a + b)
  {
    forall i, j | 0 <= i < j < |a + b| ensures (a + b)[i] != (a + b)[j] {
      if i < |a| <= j { assert b[j - |a|] in b && a[i] in a; }
    }
  }

  lemma {:induction false} WindowsDistinct(symbol: string, windows: seq<Window>, definitions: seq<Definition>)
    requires forall i, j :: 0 <= i < j < |windows| ==> windows[i].months != windows[j].months
    requires forall i, j :: 0 <= i < j < |definitions| ==> definitions[i].identifier != definitions[j].identifier
    ensures Distinct(ForWindows(symbol, windows, definitions))
  {
    if windows != [] {
      var rest, w := windows[..|windows| - 1], windows[|windows| - 1];
      WindowsDistinct(symbol, rest, definitions);
      DefinitionsDistinct(symbol, w, definitions);
      var before, here := ForWindows(symbol, rest, definitions), ForDefinitions(symbol, w, definitions);
      forall u | u in here ensures u !in before {
        DefinitionsDrawn(symbol, w, definitions, u);
        if u in before { WindowsDrawn(symbol, rest, definitions, u); }
      }
      DistinctJoin(before, here);
    }
  }

  lemma {:induction false} MembersDistinct(members: seq<string>, windows: seq<Window>, definitions: seq<Definition>)
    requires Distinct(members)
    requires forall i, j :: 0 <= i < j < |windows| ==> windows[i].months != windows[j].months
    requires forall i, j :: 0 <= i < j < |definitions| ==> definitions[i].identifier != definitions[j].identifier
    ensures Distinct(ForMembers(members, windows, definitions))
  {
    if members != [] {
      var rest, m := members[..|members| - 1], members[|members| - 1];
      MembersDistinct(rest, windows, definitions);
      WindowsDistinct(m, windows, definitions);
      var before, here := ForMembers(rest, windows, definitions), ForWindows(m, windows, definitions);
      forall u | u in here ensures u !in before {
        WindowsDrawn(m, windows, definitions, u);
        if u in before { MembersDrawn(rest, windows, definitions, u); }
      }
      DistinctJoin(before, here);
    }
  }

  // ----- exactly when a run completes -----

  /** What the keys rely on: a window's text is one JSON object, and symbols contain no brace. */
  ghost predicate KeyedApart(tools: Tools, t: Terms) {
    tools.Faithful() && tools.WindowsDelimited() && forall m :: m in t.members ==> '{' !in m
  }

  /** Nothing in the directory stands in the way of a pair: its checkpoint was filed for the dataset at hand,
      or it has none, and no pending file is in the way. */
  ghost predicate Settleable(tools: Tools, files: Files, t: Terms, u: Unit, load: Inputs) {
    if CheckpointFile(KeyOf(tools, t, u)) in files then
      Judge(tools, t, u, load(u.symbol, u.window.months), Some(files[CheckpointFile(KeyOf(tools, t, u))])).Use?
    else PendingFile(KeyOf(tools, t, u)) !in files
  }

  ghost predicate Resumable(tools: Tools, files: Files, t: Terms, load: Inputs) {
    && LockFile !in files
    && (ConfigurationFile in files ==> files[ConfigurationFile] == tools.configText(t))
    && forall u :: u in Units(t) ==> Settleable(tools, files, t, u, load)
  }

  /** A pair's own files are as they were. */
  ghost predicate Untouched(tools: Tools, before: Files, after: Files, t: Terms, u: Unit) {
    && Lookup(after, CheckpointFile(KeyOf(tools, t, u))) == Lookup(before, CheckpointFile(KeyOf(tools, t, u)))
    && Lookup(after, PendingFile(KeyOf(tools, t, u))) == Lookup(before, PendingFile(KeyOf(tools, t, u)))
  }

  lemma {:induction false} SettlesWhenSettleable(tools: Tools, before: Files, files: Files, t: Terms, u: Unit, load: Inputs)
    requires Accepted(tools, t) && u in Units(t) && Untouched(tools, before, files, t, u)
    ensures
      var (files', r) := Settle(tools, files, t, u, load(u.symbol, u.window.months));
      && (r.Ok? <==> Settleable(tools, before, t, u, load))
      && (forall path: Path :: path != CheckpointFile(KeyOf(tools, t, u)) ==> Lookup(files', path) == Lookup(files, path))
  {
    var dataset := load(u.symbol, u.window.months);
    BindingSucceeds(tools, t, u, dataset);
    assert Judge(tools, t, u, dataset, None) == Verdict.File(Owed(tools, t, u, dataset));
    JudgeOnFile(tools, t, u, dataset, files);
    hide Judge, KeyOf, Accepted, Units, Owed, CheckpointText;
  }

  lemma {:induction false} JudgeOnFile(tools: Tools, t: Terms, u: Unit, dataset: Option<Dataset>, files: Files)
    ensures CheckpointFile(KeyOf(tools, t, u)) in files ==>
      !Judge(tools, t, u, dataset, Some(files[CheckpointFile(KeyOf(tools, t, u))])).File?
  {
    hide KeyOf, Identified;
  }

  lemma {:induction false} KeysApart(tools: Tools, t: Terms, i: nat, j: nat)
    requires KeyedApart(tools, t) && Accepted(tools, t) && i < j < |Units(t)|
    ensures KeyOf(tools, t, Units(t)[i]) != KeyOf(tools, t, Units(t)[j])
  {
    MembersDistinct(t.members, t.windows, t.definitions);
    UnitsDrawn(t, Units(t)[i]);
    UnitsDrawn(t, Units(t)[j]);
    hide Units, KeyOf;
    KeysDistinct(tools, t, Units(t)[i], Units(t)[j]);
  }

  /** Settling one pair leaves the files of a pair with another key alone. */
  lemma {:induction false} SettleLeaves(tools: Tools, before: Files, files: Files, t: Terms, u: Unit, dataset: Option<Dataset>, v: Unit)
    requires KeyOf(tools, t, u) != KeyOf(tools, t, v) && Untouched(tools, before, files, t, v)
    ensures Untouched(tools, before, Settle(tools, files, t, u, dataset).0, t, v)
  {
    hide KeyOf, Judge, CheckpointText;
  }

  /** Settling some pairs leaves the files of every other pair alone. */
  lemma {:induction false} SettledLeaves(tools: Tools, files: Files, t: Terms, load: Inputs, k: nat, n: nat)
    requires KeyedApart(tools, t) && Accepted(tools, t) && k <= n < |Units(t)|
    ensures Untouched(tools, files, SettledTo(tools, files, t, load, k).files, t, Units(t)[n])
  {
    hide Settle, KeyOf, Units, Accepted, KeyedApart;
    if k > 0 {
      SettledLeaves(tools, files, t, load, k - 1, n);
      KeysApart(tools, t, k - 1, n);
      hide Untouched;
      var u := Units(t)[k - 1];
      SettleLeaves(tools, files, SettledTo(tools, files, t, load, k - 1).files, t, u, load(u.symbol, u.window.months), Units(t)[n]);
    }
  }

  /** The run gets through k pairs exactly when each of them is settleable to begin with. */
  lemma {:induction false} SettledExactly(tools: Tools, files: Files, t: Terms, load: Inputs, k: nat)
    requires KeyedApart(tools, t) && Accepted(tools, t) && k <= |Units(t)|
    ensures SettledTo(tools, files, t, load, k).failure.None? <==>
      forall j :: 0 <= j < k ==> Settleable(tools, files, t, Units(t)[j], load)
  {
    hide Settle, Settleable, Untouched, Units, Accepted, KeyedApart;
    if k > 0 {
      SettledExactly(tools, files, t, load, k - 1);
      SettledLeaves(tools, files, t, load, k - 1, k - 1);
      var u := Units(t)[k - 1];
      assert u in Units(t);
      var p := SettledTo(tools, files, t, load, k - 1);
      SettlesWhenSettleable(tools, files, p.files, t, u, load);
      var (_, r) := Settle(tools, p.files, t, u, load(u.symbol, u.window.months));
      assert r.Ok? <==> Settleable(tools, files, t, u, load);
      assert p.failure.None? ==> (SettledTo(tools, files, t, load, k).failure.None? <==> r.Ok?);
      assert p.failure.Some? ==> SettledTo(tools, files, t, load, k) == p;
      hide SettledTo;
    }
  }

  lemma {:induction false} OpeningSettles(tools: Tools, files: Files, t: Terms, u: Unit, load: Inputs, text: string)
    ensures Settleable(tools, files[LockFile := ""][ConfigurationFile := text], t, u, load) <==> Settleable(tools, files, t, u, load)
  {
    hide Judge, KeyOf;
  }

  /** An undisturbed run completes exactly when nothing stands in its way: no lock, no other configuration,
      and for each pair a checkpoint of the current dataset or neither checkpoint nor pending file. */
  lemma {:induction false} CompletesExactlyWhenResumable(tools: Tools, files: Files, t: Terms, load: Inputs)
    requires KeyedApart(tools, t) && Accepted(tools, t)
    ensures Performed(tools, files, t, load).1 == Completed <==> Resumable(tools, files, t, load)
  {
    var text := tools.configText(t);
    var opening := files[LockFile := ""][ConfigurationFile := text];
    SettledExactly(tools, opening, t, load, |Units(t)|);
    forall u | u in Units(t) ensures Settleable(tools, opening, t, u, load) <==> Settleable(tools, files, t, u, load) {
      OpeningSettles(tools, files, t, u, load, text);
    }
    assert forall u :: u in Units(t) ==> exists j :: 0 <= j < |Units(t)| && Units(t)[j] == u;
    hide Settleable, Units, SettledTo, Accepted, KeyedApart;
  }

  /** Recovery: however often runs crashed, once the lock and the pending files are gone and the
      configuration is whole or absent, a run under it completes, as long as the inputs never changed. */
  lemma {:induction false} RecoversAfterCrashes(tools: Tools, inputs: Inputs, actions: seq<Action>, t: Terms)
    requires KeyedApart(tools, t) && Accepted(tools, t) && forall a :: a in actions ==> !a.Supply?
    requires
      var files := After(tools, Fresh(inputs), actions).files;
      && LockFile !in files && (forall key :: PendingFile(key) !in files)
      && (ConfigurationFile in files ==> files[ConfigurationFile] == tools.configText(t))
    ensures Performed(tools, After(tools, Fresh(inputs), actions).files, t, inputs).1 == Completed
  {
    var files := After(tools, Fresh(inputs), actions).files;
    SteadyDirectory(tools, inputs, actions);
    forall u | u in Units(t) ensures Settleable(tools, files, t, u, inputs) {
      var key := KeyOf(tools, t, u);
      if CheckpointFile(key) in files {
        FiledIsUsed(tools, files, t, u, inputs);
      }
    }
    hide After, Settleable, Accepted, Units, Performed, KeyedApart, FiledCurrent;
    CompletesExactlyWhenResumable(tools, files, t, inputs);
  }

  lemma {:induction false} FiledIsUsed(tools: Tools, files: Files, t: Terms, u: Unit, inputs: Inputs)
    requires KeyedApart(tools, t) && Accepted(tools, t) && u in Units(t) && FiledCurrent(tools, files, inputs)
    requires CheckpointFile(KeyOf(tools, t, u)) in files && ConfigurationFile in files
    requires files[ConfigurationFile] == tools.configText(t)
    ensures Settleable(tools, files, t, u, inputs)
  {
    var key := KeyOf(tools, t, u);
    var t', u' :| AuthenticNow(tools, files[ConfigurationFile], key, files[CheckpointFile(key)], t', u', inputs);
    Same(tools.configText, t', t);
    UnitsDrawn(t, u);
    UnitsDrawn(t, u');
    KeysDistinct(tools, t, u, u');
    CheckpointUsedExactly(tools, t, u, inputs(u.symbol, u.window.months), u, inputs(u.symbol, u.window.months));
    hide Judge, KeyOf, Accepted, Units, CheckpointText, Owed;
  }

  // ----- an undisturbed run is a history of the machine -----

  /** A directory with one run, number 0, in it. */
  function Alone(files: Files, p: Process, load: Inputs): State { State(files, map[0 := p], load) }

  lemma {:induction false} Advances(tools: Tools, from: State, actions: seq<Action>, files: Files, p: Process, load: Inputs, choice: Choice)
    requires After(tools, from, actions) == Alone(files, p, load) && Formed(p)
    ensures
      var (files', p') := Act(tools, files, load, p, choice);
      After(tools, from, actions + [Advance(0, choice)]) == Alone(files', p', load)
  {
    hide Act, Formed;
    var next := actions + [Advance(0, choice)];
    assert next[..|next| - 1] == actions;
    var (files', p') := Act(tools, files, load, p, choice);
    assert map[0 := p][0 := p'] == map[0 := p'];
  }

  function Plainly(chunk: nat): Choice { Choice(chunk, false, false) }

  lemma {:induction false} WritesWhole(tools: Tools, from: State, actions: seq<Action>, files: Files, p: Process, load: Inputs) returns (all: seq<Action>)
    requires After(tools, from, actions) == Alone(files, p, load) && Formed(p)
    requires p.phase.WritingCheckpoint? && p.phase.written == 0
    requires Lookup(files, PendingFile(KeyOf(tools, p.terms, Units(p.terms)[|p.yielded|]))) == Some("")
    ensures
      var key, text := KeyOf(tools, p.terms, Units(p.terms)[|p.yielded|]), CheckpointText(tools, p.loads[|p.yielded|], p.phase.filing);
      After(tools, from, all) ==
        Alone((files - {PendingFile(key)})[CheckpointFile(key) := text], p.(phase := Yielding(p.phase.filing)), load)
  {
    hide After, KeyOf, CheckpointText, Units;
    var key, text := KeyOf(tools, p.terms, Units(p.terms)[|p.yielded|]), CheckpointText(tools, p.loads[|p.yielded|], p.phase.filing);
    all := actions;
    var files1, p1 := files, p;
    if text != [] {
      Advances(tools, from, all, files, p, load, Plainly(|text|));
      all := all + [Advance(0, Plainly(|text|))];
      files1, p1 := files[PendingFile(key) := text], p.(phase := WritingCheckpoint(p.phase.filing, |text|));
      assert text[..|text|] == text;
      assert Act(tools, files, load, p, Plainly(|text|)) == (files1, p1);
    }
    Advances(tools, from, all, files1, p1, load, Plainly(0));
    all := all + [Advance(0, Plainly(0))];
    assert (files1 - {PendingFile(key)})[CheckpointFile(key) := text] == (files - {PendingFile(key)})[CheckpointFile(key) := text];
  }

  /** The machine settles a pair as the loops do. */
  lemma {:induction false} PairHistory(tools: Tools, from: State, actions: seq<Action>, files: Files, p: Process, load: Inputs)
    returns (all: seq<Action>)
    requires After(tools, from, actions) == Alone(files, p, load)
    requires p.phase.Inspecting? && Current(p, load) && |p.yielded| < |Units(p.terms)|
    ensures
      var u := Units(p.terms)[|p.yielded|];
      var (files', r) := Settle(tools, files, p.terms, u, load(u.symbol, u.window.months));
      var loads := p.loads + [load(u.symbol, u.window.months)];
      After(tools, from, all) == Alone(files', Reflecting(p, loads, r), load)
  {
    hide After, KeyOf, CheckpointText, Units, Judge;
    var k, u := |p.yielded|, Units(p.terms)[|p.yielded|];
    var dataset, key := load(u.symbol, u.window.months), KeyOf(tools, p.terms, u);
    assert Loaded(load, p) == dataset;
    var verdict := Judge(tools, p.terms, u, dataset, Lookup(files, CheckpointFile(key)));
    Advances(tools, from, actions, files, p, load, Plainly(0));
    all := actions + [Advance(0, Plainly(0))];
    var (files1, p1) := Take(tools, files, p, dataset, verdict);
    assert Act(tools, files, load, p, Plainly(0)) == (files1, p1);
    if verdict.File? && PendingFile(key) !in files {
      hide Loaded;
      all := WritesWhole(tools, from, all, files1, p1, load);
      files1 := files[CheckpointFile(key) := CheckpointText(tools, dataset, verdict.report)];
      assert (files[PendingFile(key) := ""] - {PendingFile(key)})[CheckpointFile(key) := CheckpointText(tools, dataset, verdict.report)] == files1;
      p1 := p1.(phase := Yielding(verdict.report));
    }
    if p1.phase.Yielding? {
      hide Loaded;
      Advances(tools, from, all, files1, p1, load, Plainly(0));
      all := all + [Advance(0, Plainly(0))];
    }
  }

  /** A run after a pair: on to the next, or giving up. */
  function Reflecting(p: Process, loads: seq<Option<Dataset>>, r: Result<Report>): Process {
    match r
    case Ok(report) => Process(p.terms, Inspecting, loads, p.yielded + [report])
    case Err(error) => Process(p.terms, Releasing(Failed(error)), loads, p.yielded)
  }

  /** A run in its loops, as the settled pairs leave it. */
  ghost predicate Mirrors(t: Terms, p: Process, progress: Progress, load: Inputs) {
    && p.terms == t && p.yielded == progress.yielded && Current(p, load)
    && p.phase == match progress.failure case None => Inspecting case Some(e) => Releasing(Failed(e))
  }

  lemma {:induction false} PairsHistory(tools: Tools, from: State, actions: seq<Action>, files: Files, t: Terms, load: Inputs, k: nat)
    returns (all: seq<Action>, p: Process)
    requires After(tools, from, actions) == Alone(files, Process(t, Inspecting, [], []), load) && k <= |Units(t)|
    ensures Mirrors(t, p, SettledTo(tools, files, t, load, k), load)
    ensures SettledTo(tools, files, t, load, k).failure.None? ==> |p.yielded| == k
    ensures After(tools, from, all) == Alone(SettledTo(tools, files, t, load, k).files, p, load)
  {
    hide After, Settle, Units;
    if k == 0 {
      all, p := actions, Process(t, Inspecting, [], []);
    } else {
      all, p := PairsHistory(tools, from, actions, files, t, load, k - 1);
      var progress := SettledTo(tools, files, t, load, k - 1);
      if progress.failure.None? {
        all := PairHistory(tools, from, all, progress.files, p, load);
        var u := Units(t)[k - 1];
        var dataset := load(u.symbol, u.window.months);
        p := Reflecting(p, p.loads + [dataset], Settle(tools, progress.files, t, u, dataset).1);
      }
    }
  }

  /** Take the lock and see to the configuration. */
  lemma {:induction false} OpeningHistory(tools: Tools, files: Files, t: Terms, load: Inputs) returns (all: seq<Action>)
    requires LockFile !in files
    requires ConfigurationFile in files ==> files[ConfigurationFile] == tools.configText(t)
    ensures
      After(tools, Alone(files, Process(t, Starting, [], []), load), all) ==
        Alone(files[LockFile := ""][ConfigurationFile := tools.configText(t)], Process(t, Inspecting, [], []), load)
  {
    hide Units;
    var from, text := Alone(files, Process(t, Starting, [], []), load), tools.configText(t);
    assert After(tools, from, []) == from;
    hide After;
    Advances(tools, from, [], files, Process(t, Starting, [], []), load, Plainly(0));
    all := [] + [Advance(0, Plainly(0))];
    var locked := files[LockFile := ""];
    Advances(tools, from, all, locked, Process(t, Configuring, [], []), load, Plainly(0));
    all := all + [Advance(0, Plainly(0))];
    if ConfigurationFile in files {
      assert locked[ConfigurationFile := text] == locked;
    } else {
      var files1, n := locked[ConfigurationFile := ""], 0;
      if text != [] {
        Advances(tools, from, all, files1, Process(t, WritingConfiguration(0), [], []), load, Plainly(|text|));
        all := all + [Advance(0, Plainly(|text|))];
        assert text[..|text|] == text;
        assert files1[ConfigurationFile := text] == locked[ConfigurationFile := text];
        files1, n := locked[ConfigurationFile := text], |text|;
      }
      Advances(tools, from, all, files1, Process(t, WritingConfiguration(n), [], []), load, Plainly(0));
      all := all + [Advance(0, Plainly(0))];
    }
  }

  ghost predicate LoadedFrom(t: Terms, loads: seq<Option<Dataset>>, load: Inputs)
    requires |loads| <= |Units(t)|
  {
    forall i :: 0 <= i < |loads| ==> loads[i] == load(Units(t)[i].symbol, Units(t)[i].window.months)
  }

  /** What an undisturbed run does is one history of the machine, so everything proved of all histories
      holds of it. */
  lemma {:induction false} RunIsAHistory(tools: Tools, files: Files, t: Terms, load: Inputs) returns (all: seq<Action>, loads: seq<Option<Dataset>>)
    ensures
      var (files', outcome, results) := Performed(tools, files, t, load);
      After(tools, Alone(files, Process(t, Starting, [], []), load), all) ==
        Alone(files', Process(t, Stopped(outcome), loads, results), load)
    ensures |loads| <= |Units(t)| && LoadedFrom(t, loads, load)
  {
    hide SettledTo, Units;
    var from, text := Alone(files, Process(t, Starting, [], []), load), tools.configText(t);
    assert After(tools, from, []) == from;
    hide After;
    if LockFile in files {
      Advances(tools, from, [], files, Process(t, Starting, [], []), load, Plainly(0));
      all, loads := [] + [Advance(0, Plainly(0))], [];
    } else if ConfigurationFile in files && files[ConfigurationFile] != text {
      all := ConflictHistory(tools, files, t, load);
      loads := [];
    } else {
      all, loads := WorkingHistory(tools, files, t, load);
    }
  }

  /** Another configuration: take the lock, compare, and give it back. */
  lemma {:induction false} ConflictHistory(tools: Tools, files: Files, t: Terms, load: Inputs) returns (all: seq<Action>)
    requires LockFile !in files && ConfigurationFile in files && files[ConfigurationFile] != tools.configText(t)
    ensures
      After(tools, Alone(files, Process(t, Starting, [], []), load), all) ==
        Alone(files, Process(t, Stopped(Failed("CHECKPOINT_CONFIGURATION_CONFLICT")), [], []), load)
  {
    hide Units;
    var from := Alone(files, Process(t, Starting, [], []), load);
    assert After(tools, from, []) == from;
    hide After;
    Advances(tools, from, [], files, Process(t, Starting, [], []), load, Plainly(0));
    all := [] + [Advance(0, Plainly(0))];
    var locked := files[LockFile := ""];
    Advances(tools, from, all, locked, Process(t, Configuring, [], []), load, Plainly(0));
    all := all + [Advance(0, Plainly(0))];
    var failing := Process(t, Releasing(Failed("CHECKPOINT_CONFIGURATION_CONFLICT")), [], []);
    Advances(tools, from, all, locked, failing, load, Plainly(0));
    all := all + [Advance(0, Plainly(0))];
    assert locked - {LockFile} == files;
  }

  lemma {:induction false} WorkingHistory(tools: Tools, files: Files, t: Terms, load: Inputs) returns (all: seq<Action>, loads: seq<Option<Dataset>>)
    requires LockFile !in files
    requires ConfigurationFile in files ==> files[ConfigurationFile] == tools.configText(t)
    ensures
      var (files', outcome, results) := Performed(tools, files, t, load);
      After(tools, Alone(files, Process(t, Starting, [], []), load), all) ==
        Alone(files', Process(t, Stopped(outcome), loads, results), load)
    ensures |loads| <= |Units(t)| && LoadedFrom(t, loads, load)
  {
    hide After, SettledTo, Units;
    var from, opening := Alone(files, Process(t, Starting, [], []), load), files[LockFile := ""][ConfigurationFile := tools.configText(t)];
    all := OpeningHistory(tools, files, t, load);
    var p;
    all, p := PairsHistory(tools, from, all, opening, t, load, |Units(t)|);
    var progress := SettledTo(tools, opening, t, load, |Units(t)|);
    if progress.failure.None? {
      Advances(tools, from, all, progress.files, p, load, Plainly(0));
      all, p := all + [Advance(0, Plainly(0))], p.(phase := Releasing(Completed));
    }
    Advances(tools, from, all, progress.files, p, load, Plainly(0));
    all, loads := all + [Advance(0, Plainly(0))], p.loads;
  }

  /** On any directory whose checkpoints are genuine, a run yields pair by pair the evaluation of the
      current dataset, all of them when it completes, and leaves genuine checkpoints and no lock. */
  lemma {:induction false} RunYieldsWhatIsOwed(tools: Tools, files: Files, t: Terms, load: Inputs)
    requires tools.Faithful() && Accepted(tools, t) && Genuine(tools, files) && LockFile !in files
    ensures
      var (files', outcome, results) := Performed(tools, files, t, load);
      && Genuine(tools, files') && LockFile !in files' && |results| <= |Units(t)|
      && (forall i :: 0 <= i < |results| ==>
            results[i] == Owed(tools, t, Units(t)[i], load(Units(t)[i].symbol, Units(t)[i].window.months)))
      && (outcome == Completed ==> |results| == |Units(t)|)
  {
    hide *;
    var from := Alone(files, Process(t, Starting, [], []), load);
    FreshRunSafe(tools, files, t, load);
    var (files', outcome, results) := Performed(tools, files, t, load);
    var all, loads := RunIsAHistory(tools, files, t, load);
    HistorySafe(tools, from, all);
    FinishedRun(tools, files', t, load, outcome, loads, results);
    LockReleased(tools, files, t, load);
  }

  lemma {:induction false} FreshRunSafe(tools: Tools, files: Files, t: Terms, load: Inputs)
    requires Accepted(tools, t) && Genuine(tools, files)
    ensures Safe(tools, Alone(files, Process(t, Starting, [], []), load))
  {
    hide Genuine, Accepted, Units;
  }

  lemma {:induction false} FinishedRun(tools: Tools, files: Files, t: Terms, load: Inputs, outcome: Outcome, loads: seq<Option<Dataset>>, results: seq<Report>)
    requires Safe(tools, Alone(files, Process(t, Stopped(outcome), loads, results), load))
    requires |loads| <= |Units(t)| && LoadedFrom(t, loads, load)
    ensures Genuine(tools, files) && |results| <= |Units(t)| && (outcome == Completed ==> |results| == |Units(t)|)
    ensures forall i :: 0 <= i < |results| ==>
      results[i] == Owed(tools, t, Units(t)[i], load(Units(t)[i].symbol, Units(t)[i].window.months))
  {
    hide Genuine, Accepted, Units, Owed;
    var s := Alone(files, Process(t, Stopped(outcome), loads, results), load);
    assert 0 in s.processes && Consistent(tools, s.files, s.processes[0]);
  }

  lemma {:induction false} LockReleased(tools: Tools, files: Files, t: Terms, load: Inputs)
    requires LockFile !in files
    ensures LockFile !in Performed(tools, files, t, load).0
  {
    hide SettledTo, Units;
  }
}
