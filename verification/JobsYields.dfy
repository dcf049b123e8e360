/** What a run yields, pair by pair, told without its loops; and exactly which checkpoint it accepts for a pair. */
module JobsYields {
  import opened Wrappers
  import opened Jobs
  import opened JobsSafety

  // ----- the order of the pairs -----

  lemma {:induction false} DefinitionsInOrder(symbol: string, window: Window, ds: seq<Definition>, i: nat)
    requires i < |ds|
    ensures |ForDefinitions(symbol, window, ds)| == |ds| && ForDefinitions(symbol, window, ds)[i] == Unit(symbol, window, ds[i])
  {
    DefinitionsCount(symbol, window, ds[..|ds| - 1]);
    if i < |ds| - 1 { DefinitionsInOrder(symbol, window, ds[..|ds| - 1], i); }
  }

  lemma {:induction false} DefinitionsCount(symbol: string, window: Window, ds: seq<Definition>)
    ensures |ForDefinitions(symbol, window, ds)| == |ds|
  {
    if ds != [] { DefinitionsCount(symbol, window, ds[..|ds| - 1]); }
  }

  lemma {:induction false} WindowsCount(symbol: string, ws: seq<Window>, ds: seq<Definition>)
    ensures |ForWindows(symbol, ws, ds)| == Rounds(|ws|, |ds|)
  {
    if ws != [] {
      WindowsCount(symbol, ws[..|ws| - 1], ds);
      DefinitionsCount(symbol, ws[|ws| - 1], ds);
      OneMore(|ws| - 1, |ds|);
      hide Rounds, ForDefinitions;
    }
  }

  /** So many steps in so many rounds of a size. */
  function Rounds(n: nat, size: nat): nat { n * size }

  lemma {:induction false} OneMore(n: nat, size: nat)
    ensures Rounds(n + 1, size) == Rounds(n, size) + size
  {
  }

  lemma {:induction false} MembersCount(ms: seq<string>, ws: seq<Window>, ds: seq<Definition>)
    ensures |ForMembers(ms, ws, ds)| == Rounds(|ms|, Rounds(|ws|, |ds|))
  {
    if ms != [] {
      MembersCount(ms[..|ms| - 1], ws, ds);
      WindowsCount(ms[|ms| - 1], ws, ds);
      OneMore(|ms| - 1, Rounds(|ws|, |ds|));
      hide Rounds, ForWindows;
    }
  }

  /** The pair of window j and definition k comes j rounds of definitions and k steps in. */
  lemma {:induction false} WindowsInOrder(symbol: string, ws: seq<Window>, ds: seq<Definition>, j: nat, k: nat)
    requires j < |ws| && k < |ds|
    ensures Rounds(j, |ds|) + k < |ForWindows(symbol, ws, ds)|
    ensures ForWindows(symbol, ws, ds)[Rounds(j, |ds|) + k] == Unit(symbol, ws[j], ds[k])
  {
    hide Rounds, ForDefinitions;
    var front := ws[..|ws| - 1];
    WindowsCount(symbol, front, ds);
    DefinitionsInOrder(symbol, ws[|ws| - 1], ds, k);
    if j < |front| { WindowsInOrder(symbol, front, ds, j, k); }
  }

  /** The pair of member i, window j and definition k comes after i rounds of windows, j of definitions and k steps. */
  lemma {:induction false} MembersInOrder(ms: seq<string>, ws: seq<Window>, ds: seq<Definition>, i: nat, j: nat, k: nat)
    requires i < |ms| && j < |ws| && k < |ds|
    ensures Rounds(i, Rounds(|ws|, |ds|)) + (Rounds(j, |ds|) + k) < |ForMembers(ms, ws, ds)|
    ensures ForMembers(ms, ws, ds)[Rounds(i, Rounds(|ws|, |ds|)) + (Rounds(j, |ds|) + k)] == Unit(ms[i], ws[j], ds[k])
  {
    hide Rounds, ForWindows;
    var front := ms[..|ms| - 1];
    MembersCount(front, ws, ds);
    WindowsInOrder(ms[|ms| - 1], ws, ds, j, k);
    if i < |front| { MembersInOrder(front, ws, ds, i, j, k); }
  }

  /** Where the pair of member i, window j and definition k stands. */
  function Place(t: Terms, i: nat, j: nat, k: nat): nat {
    Rounds(i, Rounds(|t.windows|, |t.definitions|)) + (Rounds(j, |t.definitions|) + k)
  }

  // ----- results -----

  /** In every history of launches, steps, crashes and repairs, what a run has yielded for member i, window j and definition k is
      the evaluation of that member, definition and window on the dataset it loaded, under its family and policy; and a run that
      completed has yielded so for every member, window and definition. */
  lemma {:induction false} YieldsTold(tools: Tools, inputs: Inputs, actions: seq<Action>, id: nat, i: nat, j: nat, k: nat)
    requires tools.Faithful()
    ensures
      var s := After(tools, Fresh(inputs), actions);
      id in s.processes ==>
        var p, t, at := s.processes[id], s.processes[id].terms, Place(s.processes[id].terms, i, j, k);
        && (p.phase == Stopped(Completed) ==> |p.yielded| == Rounds(|t.members|, Rounds(|t.windows|, |t.definitions|)))
        && (i < |t.members| && j < |t.windows| && k < |t.definitions| && at < |p.yielded| ==>
              at < |p.loads| &&
              var m, w, d, dataset := t.members[i], t.windows[j], t.definitions[k], p.loads[at];
              p.yielded[at] ==
              Report(Some(t.family.runId), Some(t.family.hypotheses), m, d.identifier, d.version, tools.digest(tools.definitionText(d)), w,
                     t.family.policyHash, if dataset.Some? then Some(dataset.value.sha256) else None, tools.findings(t, m, d, w, dataset)))
  {
    CheckpointsAreTransparent(tools, inputs, actions, id);
    hide After, Units, ForMembers, Place;
    var s := After(tools, Fresh(inputs), actions);
    if id in s.processes {
      var p, t := s.processes[id], s.processes[id].terms;
      PairAt(t, i, j, k);
      if i < |t.members| && j < |t.windows| && k < |t.definitions| && Place(t, i, j, k) < |p.yielded| {
        BoundTold(tools, t, Units(t)[Place(t, i, j, k)], p.loads[Place(t, i, j, k)], p.yielded[Place(t, i, j, k)]);
      }
    }
  }

  lemma {:induction false} PairAt(t: Terms, i: nat, j: nat, k: nat)
    ensures |Units(t)| == Rounds(|t.members|, Rounds(|t.windows|, |t.definitions|))
    ensures i < |t.members| && j < |t.windows| && k < |t.definitions| ==>
      Place(t, i, j, k) < |Units(t)| && Units(t)[Place(t, i, j, k)] == Unit(t.members[i], t.windows[j], t.definitions[k])
  {
    MembersCount(t.members, t.windows, t.definitions);
    if i < |t.members| && j < |t.windows| && k < |t.definitions| { MembersInOrder(t.members, t.windows, t.definitions, i, j, k); }
  }

  lemma {:induction false} BoundTold(tools: Tools, t: Terms, u: Unit, dataset: Option<Dataset>, r: Report)
    requires Bind(tools, t.family, Evaluate(tools, t, u, dataset)) == Ok(r)
    ensures r ==
      Report(Some(t.family.runId), Some(t.family.hypotheses), u.symbol, u.definition.identifier, u.definition.version,
             tools.digest(tools.definitionText(u.definition)), u.window, t.family.policyHash,
             if dataset.Some? then Some(dataset.value.sha256) else None, tools.findings(t, u.symbol, u.definition, u.window, dataset))
  {
  }

  /** A checkpoint is used for a pair exactly when its text is a record of the pair's dataset whose digest is that of its result,
      and the result is the report the pair owes, whatever its findings. */
  lemma {:induction false} UsedExactly(tools: Tools, t: Terms, u: Unit, dataset: Option<Dataset>, text: string, r: Report)
    requires Accepted(tools, t)
    ensures Judge(tools, t, u, dataset, Some(text)) == Use(r) <==>
      exists record :: tools.readRecord(text) == Some(record) && record.input == tools.digest(tools.sourceText(dataset)) &&
        record.sha256 == tools.digest(record.result) && tools.readResult(record.result) == Some(r) &&
        r == Owed(tools, t, u, dataset).(findings := r.findings)
  {
  }
}
