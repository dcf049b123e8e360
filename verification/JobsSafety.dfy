/** What every history of runs, crashes and repairs over one directory keeps. */
module JobsSafety {
  import opened Wrappers
  import opened Jobs

  // ----- one pair -----

  lemma {:induction false} UnitsDrawn(t: Terms, u: Unit)
    requires u in Units(t)
    ensures u.symbol in t.members && u.window in t.windows && u.definition in t.definitions
  {
    MembersDrawn(t.members, t.windows, t.definitions, u);
  }

  lemma {:induction false} MembersDrawn(members: seq<string>, windows: seq<Window>, definitions: seq<Definition>, u: Unit)
    requires u in ForMembers(members, windows, definitions)
    ensures u.symbol in members && u.window in windows && u.definition in definitions
  {
    var n := |members| - 1;
    if u in ForWindows(members[n], windows, definitions) {
      WindowsDrawn(members[n], windows, definitions, u);
    } else {
      MembersDrawn(members[..n], windows, definitions, u);
    }
  }

  lemma {:induction false} WindowsDrawn(symbol: string, windows: seq<Window>, definitions: seq<Definition>, u: Unit)
    requires u in ForWindows(symbol, windows, definitions)
    ensures u.symbol == symbol && u.window in windows && u.definition in definitions
  {
    var n := |windows| - 1;
    if u in ForDefinitions(symbol, windows[n], definitions) {
      DefinitionsDrawn(symbol, windows[n], definitions, u);
    } else {
      WindowsDrawn(symbol, windows[..n], definitions, u);
    }
  }

  lemma {:induction false} DefinitionsDrawn(symbol: string, window: Window, definitions: seq<Definition>, u: Unit)
    requires u in ForDefinitions(symbol, window, definitions)
    ensures u.symbol == symbol && u.window == window && u.definition in definitions
  {
    var n := |definitions| - 1;
    if u != Unit(symbol, window, definitions[n]) { DefinitionsDrawn(symbol, window, definitions[..n], u); }
  }

  /** A run never evaluates a pair it cannot bind: RESULT_FAMILY_CONFLICT is unreachable. */
  lemma {:induction false} BindingSucceeds(tools: Tools, t: Terms, u: Unit, dataset: Option<Dataset>)
    requires Accepted(tools, t) && u in Units(t)
    ensures Bind(tools, t.family, Evaluate(tools, t, u, dataset)) == Ok(Owed(tools, t, u, dataset))
  {
    UnitsDrawn(t, u);
    hide Units;
  }

  /** A checkpoint some run under a configuration filed, under the pair's key, for a pair and a dataset. */
  ghost predicate Authentic(tools: Tools, config: string, key: string, text: string, t: Terms, u: Unit, dataset: Option<Dataset>) {
    && Accepted(tools, t) && u in Units(t) && tools.configText(t) == config && key == KeyOf(tools, t, u)
    && text == CheckpointText(tools, dataset, Owed(tools, t, u, dataset))
  }

  ghost predicate Filed(tools: Tools, config: string, key: string, text: string) {
    exists t, u, dataset :: Authentic(tools, config, key, text, t, u, dataset)
  }

  /** A checkpoint is used exactly when it was filed for this pair on this very dataset; any other refuses. */
  lemma {:induction false} CheckpointUsedExactly(tools: Tools, t: Terms, u: Unit, now: Option<Dataset>, filedFor: Unit, earlier: Option<Dataset>)
    requires tools.Faithful() && Accepted(tools, t)
    ensures
      var text := CheckpointText(tools, earlier, Owed(tools, t, filedFor, earlier));
      Judge(tools, t, u, now, Some(text)) ==
        if now != earlier then Refuse("CHECKPOINT_DATA_OR_CONTENT_CONFLICT")
        else if u != filedFor then Refuse("CHECKPOINT_IDENTITY_CONFLICT")
        else Use(Owed(tools, t, u, now))
  {
    hide Accepted;
    PolicyOf(tools, t);
    var r := Owed(tools, t, filedFor, earlier);
    var record := Record(tools.digest(tools.sourceText(earlier)), tools.resultText(r), tools.digest(tools.resultText(r)));
    assert tools.readRecord(tools.recordText(record)) == Some(record);
    assert tools.readResult(tools.resultText(r)) == Some(r);
    if record.input == tools.digest(tools.sourceText(now)) {
      Same(tools.digest, tools.sourceText(earlier), tools.sourceText(now));
      Same(tools.sourceText, earlier, now);
    }
    if tools.Fingerprint(filedFor.definition) == tools.Fingerprint(u.definition) {
      Same(tools.digest, tools.definitionText(filedFor.definition), tools.definitionText(u.definition));
      Same(tools.definitionText, filedFor.definition, u.definition);
    }
  }

  lemma {:induction false} PolicyOf(tools: Tools, t: Terms)
    requires Accepted(tools, t)
    ensures t.family.policyHash == tools.digest(t.policy)
  {
  }

  /** Whatever the directory holds, a pair yields what it owes or nothing. */
  lemma {:induction false} JudgedExactly(tools: Tools, t: Terms, u: Unit, dataset: Option<Dataset>, key: string, onFile: Option<string>)
    requires tools.Faithful() && Accepted(tools, t) && u in Units(t)
    requires onFile.Some? ==> Filed(tools, tools.configText(t), key, onFile.value)
    ensures onFile.None? ==> Judge(tools, t, u, dataset, onFile) == Verdict.File(Owed(tools, t, u, dataset))
    ensures onFile.Some? ==>
      Judge(tools, t, u, dataset, onFile).Refuse? || Judge(tools, t, u, dataset, onFile) == Use(Owed(tools, t, u, dataset))
  {
    if onFile.None? {
      BindingSucceeds(tools, t, u, dataset);
    } else {
      var t', u', d' :| Authentic(tools, tools.configText(t), key, onFile.value, t', u', d');
      Same(tools.configText, t', t);
      CheckpointUsedExactly(tools, t, u, dataset, u', d');
    }
    hide Judge, Units, Accepted;
  }

  // ----- the invariant -----

  /** Every checkpoint was filed under the configuration on file. */
  ghost predicate Genuine(tools: Tools, files: Files) {
    forall key :: CheckpointFile(key) in files ==>
      ConfigurationFile in files && Filed(tools, files[ConfigurationFile], key, files[CheckpointFile(key)])
  }

  /** A run has yielded what it owes for the datasets it loaded, and is about to yield no other. */
  ghost predicate Exact(tools: Tools, p: Process) {
    && Accepted(tools, p.terms) && Formed(p)
    && (forall i :: 0 <= i < |p.yielded| ==> p.yielded[i] == Owed(tools, p.terms, Units(p.terms)[i], p.loads[i]))
    && (p.phase.WritingCheckpoint? ==> p.phase.filing == Owed(tools, p.terms, Units(p.terms)[|p.yielded|], p.loads[|p.yielded|]))
    && (p.phase.Yielding? ==> p.phase.report == Owed(tools, p.terms, Units(p.terms)[|p.yielded|], p.loads[|p.yielded|]))
    && (p.phase == Stopped(Completed) || p.phase == Releasing(Completed) ==> |p.yielded| == |Units(p.terms)|)
  }

  predicate Pins(p: Process) {
    p.yielded != [] || p.phase.Inspecting? || p.phase.WritingCheckpoint? || p.phase.Yielding?
  }

  /** A run that got past the configuration found or left its own there. */
  ghost predicate Pinned(tools: Tools, files: Files, p: Process) {
    Pins(p) ==> ConfigurationFile in files && files[ConfigurationFile] == tools.configText(p.terms)
  }

  ghost predicate Unfiled(files: Files) { forall key :: CheckpointFile(key) !in files }

  /** What the directory looks like under a live run. */
  ghost predicate Held(tools: Tools, files: Files, p: Process) {
    && (p.Holding() ==> LockFile in files)
    && (p.phase.WritingConfiguration? ==>
          p.phase.written <= |tools.configText(p.terms)| && ConfigurationFile in files && Unfiled(files) &&
          files[ConfigurationFile] == tools.configText(p.terms)[..p.phase.written])
    && (p.phase.WritingCheckpoint? && Formed(p) ==>
          var key := KeyOf(tools, p.terms, Units(p.terms)[|p.yielded|]);
          var text := CheckpointText(tools, p.loads[|p.yielded|], p.phase.filing);
          p.phase.written <= |text| && PendingFile(key) in files && files[PendingFile(key)] == text[..p.phase.written])
  }

  ghost predicate Consistent(tools: Tools, files: Files, p: Process) {
    Exact(tools, p) && Pinned(tools, files, p) && Held(tools, files, p)
  }

  ghost predicate Safe(tools: Tools, s: State) {
    && Genuine(tools, s.files)
    && (forall id :: id in s.processes ==> Consistent(tools, s.files, s.processes[id]))
    && (forall i, j :: i in s.processes && j in s.processes && s.processes[i].Holding() && s.processes[j].Holding() ==> i == j)
    && (forall i, j :: i in s.processes && j in s.processes && s.processes[i].phase.WritingConfiguration? ==> s.processes[j].yielded == [])
  }

  // ----- one step of the run that holds the directory -----

  ghost predicate Keeps(tools: Tools, files: Files, p: Process, files': Files, p': Process) {
    && Genuine(tools, files') && Consistent(tools, files', p')
    && p'.terms == p.terms && !p'.phase.Starting? && !p'.phase.Crashed?
    && (p'.phase.WritingConfiguration? ==> p.phase.WritingConfiguration? || ConfigurationFile !in files)
    && (ConfigurationFile in files ==>
          ConfigurationFile in files' && (p.phase.WritingConfiguration? || files'[ConfigurationFile] == files[ConfigurationFile]))
    && (p.phase.WritingConfiguration? || ConfigurationFile !in files ==> p'.yielded == [])
  }

  lemma {:induction false} ConfiguringKeeps(tools: Tools, files: Files, inputs: Inputs, p: Process, choice: Choice)
    requires Genuine(tools, files) && Consistent(tools, files, p)
    requires p.phase.Configuring? || p.phase.WritingConfiguration? || p.phase.Releasing?
    ensures Keeps(tools, files, p, Act(tools, files, inputs, p, choice).0, Act(tools, files, inputs, p, choice).1)
  {
    hide Accepted, Owed, Units, KeyOf, CheckpointText, Filed;
    var text := tools.configText(p.terms);
    var (files', p') := Act(tools, files, inputs, p, choice);
    assert forall key :: CheckpointFile(key) in files' <==> CheckpointFile(key) in files;
    if p.phase.WritingConfiguration? && p.phase.written == |text| { assert text[..|text|] == text; }
  }

  /** A change that touches neither the configuration nor a checkpoint. */
  ghost predicate Spares(files: Files, files': Files) {
    forall path: Path :: path.ConfigurationFile? || path.CheckpointFile? ==>
      (path in files' <==> path in files) && (path in files ==> files'[path] == files[path])
  }

  lemma {:induction false} SparedGenuine(tools: Tools, files: Files, files': Files)
    requires Genuine(tools, files) && Spares(files, files')
    ensures Genuine(tools, files')
  {
    hide Filed;
  }

  /** What inspecting a pair leads to. */
  ghost predicate Turned(tools: Tools, files: Files, p: Process, files': Files, p': Process) {
    && Spares(files, files') && Exact(tools, p') && (LockFile in files ==> LockFile in files')
    && p'.terms == p.terms && p'.yielded == p.yielded
    && (p'.phase.Releasing? || p'.phase.Yielding? || p'.phase.WritingCheckpoint?)
    && (p'.phase.WritingCheckpoint? ==>
          p'.phase.written == 0 && Formed(p') &&
          Lookup(files', PendingFile(KeyOf(tools, p.terms, Units(p.terms)[|p.yielded|]))) == Some(""))
  }

  lemma {:induction false} TakeOutcome(tools: Tools, files: Files, p: Process, dataset: Option<Dataset>, verdict: Verdict)
    requires Exact(tools, p) && p.phase.Inspecting? && |p.yielded| < |Units(p.terms)|
    requires verdict.Refuse? || verdict.report == Owed(tools, p.terms, Units(p.terms)[|p.yielded|], dataset)
    ensures Turned(tools, files, p, Take(tools, files, p, dataset, verdict).0, Take(tools, files, p, dataset, verdict).1)
  {
    hide Accepted, Owed, Units, KeyOf;
  }

  lemma {:induction false} InspectOutcome(tools: Tools, files: Files, inputs: Inputs, p: Process)
    requires tools.Faithful() && Genuine(tools, files) && Exact(tools, p) && Pinned(tools, files, p) && p.phase.Inspecting?
    ensures Turned(tools, files, p, Inspect(tools, files, inputs, p).0, Inspect(tools, files, inputs, p).1)
  {
    var us, k := Units(p.terms), |p.yielded|;
    if k < |us| {
      var dataset, key := Loaded(inputs, p), KeyOf(tools, p.terms, us[k]);
      var onFile := Lookup(files, CheckpointFile(key));
      JudgedExactly(tools, p.terms, us[k], dataset, key, onFile);
      TakeOutcome(tools, files, p, dataset, Judge(tools, p.terms, us[k], dataset, onFile));
    }
    hide Accepted, Owed, Units, KeyOf, Judge, Loaded, Filed, Tools.Faithful, Genuine, Take;
  }

  lemma {:induction false} InspectingKeeps(tools: Tools, files: Files, inputs: Inputs, p: Process, choice: Choice)
    requires tools.Faithful() && Genuine(tools, files) && Consistent(tools, files, p) && p.phase.Inspecting?
    ensures Keeps(tools, files, p, Act(tools, files, inputs, p, choice).0, Act(tools, files, inputs, p, choice).1)
  {
    IsFormed(tools, files, p);
    var (files', p') := Act(tools, files, inputs, p, choice);
    if choice.fault {
      FaultKeeps(tools, files, p);
    } else {
      InspectOutcome(tools, files, inputs, p);
      TurnedKeeps(tools, files, p, files', p');
    }
    hide Consistent, Genuine, Keeps, Formed, Inspect, WriteCheckpoint;
  }

  /** A step that raises leaves the directory alone and goes on to give it up. */
  lemma {:induction false} FaultKeeps(tools: Tools, files: Files, p: Process)
    requires Genuine(tools, files) && Consistent(tools, files, p) && p.Holding()
    ensures Keeps(tools, files, p, files, p.(phase := Releasing(Failed("FAULT"))))
  {
    hide Genuine, Accepted, Owed, Units, KeyOf, CheckpointText;
  }

  lemma {:induction false} TurnedKeeps(tools: Tools, files: Files, p: Process, files': Files, p': Process)
    requires Genuine(tools, files) && Consistent(tools, files, p) && p.phase.Inspecting?
    requires Turned(tools, files, p, files', p')
    ensures Keeps(tools, files, p, files', p')
  {
    SparedGenuine(tools, files, files');
    hide Genuine, Exact, CheckpointText, KeyOf, Units;
  }

  lemma {:induction false} FilingKeeps(tools: Tools, files: Files, inputs: Inputs, p: Process, choice: Choice)
    requires Genuine(tools, files) && Consistent(tools, files, p) && p.phase.WritingCheckpoint?
    ensures Keeps(tools, files, p, Act(tools, files, inputs, p, choice).0, Act(tools, files, inputs, p, choice).1)
  {
    hide Accepted, Owed, Units, KeyOf, CheckpointText;
    var us, k := Units(p.terms), |p.yielded|;
    var key, text := KeyOf(tools, p.terms, us[k]), CheckpointText(tools, p.loads[k], p.phase.filing);
    var (files', p') := Act(tools, files, inputs, p, choice);
    if p'.phase.Yielding? {
      assert text[..|text|] == text && files'[CheckpointFile(key)] == text;
      assert Authentic(tools, files[ConfigurationFile], key, text, p.terms, us[k], p.loads[k]);
      assert Filed(tools, files[ConfigurationFile], key, text);
    }
    hide Filed;
    assert forall other :: other != key ==>
      (CheckpointFile(other) in files' <==> CheckpointFile(other) in files) &&
      (CheckpointFile(other) in files ==> files'[CheckpointFile(other)] == files[CheckpointFile(other)]);
  }

  lemma {:induction false} YieldingKeeps(tools: Tools, files: Files, inputs: Inputs, p: Process, choice: Choice)
    requires Genuine(tools, files) && Consistent(tools, files, p) && p.phase.Yielding?
    ensures Keeps(tools, files, p, Act(tools, files, inputs, p, choice).0, Act(tools, files, inputs, p, choice).1)
  {
    hide Accepted, Owed, Units, KeyOf, CheckpointText, Filed;
  }

  lemma {:induction false} HolderKeeps(tools: Tools, files: Files, inputs: Inputs, p: Process, choice: Choice)
    requires tools.Faithful() && Genuine(tools, files) && Consistent(tools, files, p) && p.Holding()
    ensures Keeps(tools, files, p, Act(tools, files, inputs, p, choice).0, Act(tools, files, inputs, p, choice).1)
  {
    hide Genuine, Consistent, Keeps, Act, Tools.Faithful;
    match p.phase
    case Inspecting => InspectingKeeps(tools, files, inputs, p, choice);
    case WritingCheckpoint(_, _) => FilingKeeps(tools, files, inputs, p, choice);
    case Yielding(_) => YieldingKeeps(tools, files, inputs, p, choice);
    case _ => ConfiguringKeeps(tools, files, inputs, p, choice);
  }

  // ----- every action -----

  lemma {:induction false} IsFormed(tools: Tools, files: Files, p: Process)
    requires Consistent(tools, files, p)
    ensures Formed(p)
  {
  }

  /** The directory under a step by its holder: other runs are left as they were. */
  lemma {:induction false} OthersKept(tools: Tools, s: State, id: nat, files': Files, p': Process)
    requires Safe(tools, s) && id in s.processes && s.processes[id].Holding()
    requires Keeps(tools, s.files, s.processes[id], files', p')
    ensures Safe(tools, s.(files := files', processes := s.processes[id := p']))
  {
    hide Genuine, Exact, Formed;
    forall other | other in s.processes && other != id
      ensures Consistent(tools, files', s.processes[other])
    {
      var q := s.processes[other];
      assert Consistent(tools, s.files, q) && !q.Holding();
    }
  }

  /** One run changes and writes no configuration: what must be seen to. */
  lemma {:induction false} Replaced(tools: Tools, s: State, id: nat, files': Files, p': Process)
    requires Safe(tools, s) && Genuine(tools, files') && Consistent(tools, files', p')
    requires forall other :: other in s.processes && other != id ==> Consistent(tools, files', s.processes[other])
    requires p'.Holding() ==> forall other :: other in s.processes && other != id ==> !s.processes[other].Holding()
    requires !p'.phase.WritingConfiguration?
    requires p'.yielded == if id in s.processes then s.processes[id].yielded else []
    ensures Safe(tools, s.(files := files', processes := s.processes[id := p']))
  {
    hide Genuine, Consistent;
  }

  lemma {:induction false} StartKeeps(tools: Tools, files: Files, inputs: Inputs, p: Process, choice: Choice)
    requires Consistent(tools, files, p) && p.phase.Starting?
    ensures
      var (files', p') := Act(tools, files, inputs, p, choice);
      && Spares(files, files') && Consistent(tools, files', p') && p'.yielded == p.yielded
      && !p'.phase.WritingConfiguration? && (p'.Holding() ==> LockFile !in files) && (LockFile in files ==> files' == files)
  {
    hide Accepted, Owed, Units, KeyOf, CheckpointText;
  }

  /** A run that holds nothing stays consistent when the configuration and the checkpoints stay. */
  lemma {:induction false} IdleKept(tools: Tools, files: Files, files': Files, q: Process)
    requires Consistent(tools, files, q) && Spares(files, files') && (LockFile in files ==> files' == files)
    ensures Consistent(tools, files', q) && (LockFile !in files ==> !q.Holding())
  {
    hide Exact, Formed;
  }

  lemma {:induction false} SafeAt(tools: Tools, s: State, id: nat)
    requires Safe(tools, s) && id in s.processes
    ensures Genuine(tools, s.files) && Consistent(tools, s.files, s.processes[id])
  {
    hide Genuine, Consistent;
  }

  lemma {:induction false} DoAdvance(tools: Tools, s: State, id: nat, choice: Choice)
    requires id in s.processes && Formed(s.processes[id])
    ensures
      var (files', p') := Act(tools, s.files, s.inputs, s.processes[id], choice);
      Do(tools, s, Advance(id, choice)) == s.(files := files', processes := s.processes[id := p'])
  {
    hide Act, Formed;
  }

  lemma {:induction false} StartSafe(tools: Tools, s: State, id: nat, choice: Choice)
    requires Safe(tools, s) && id in s.processes && s.processes[id].phase.Starting?
    ensures Safe(tools, Do(tools, s, Advance(id, choice)))
  {
    hide *;
    var p := s.processes[id];
    SafeAt(tools, s, id);
    IsFormed(tools, s.files, p);
    StartKeeps(tools, s.files, s.inputs, p, choice);
    var (files', p') := Act(tools, s.files, s.inputs, p, choice);
    SparedGenuine(tools, s.files, files');
    forall other | other in s.processes && other != id
      ensures Consistent(tools, files', s.processes[other])
      ensures p'.Holding() ==> !s.processes[other].Holding()
    {
      SafeAt(tools, s, other);
      IdleKept(tools, s.files, files', s.processes[other]);
    }
    Replaced(tools, s, id, files', p');
    DoAdvance(tools, s, id, choice);
  }

  lemma {:induction false} AdvanceSafe(tools: Tools, s: State, id: nat, choice: Choice)
    requires tools.Faithful() && Safe(tools, s)
    ensures Safe(tools, Do(tools, s, Advance(id, choice)))
  {
    hide *;
    if id in s.processes {
      var p := s.processes[id];
      SafeAt(tools, s, id);
      IsFormed(tools, s.files, p);
      DoAdvance(tools, s, id, choice);
      if p.Holding() {
        HolderKeeps(tools, s.files, s.inputs, p, choice);
        var (files', p') := Act(tools, s.files, s.inputs, p, choice);
        OthersKept(tools, s, id, files', p');
      } else if p.phase.Starting? {
        StartSafe(tools, s, id, choice);
      } else {
        IdleStays(tools, s.files, s.inputs, p, choice);
        assert s.processes[id := p] == s.processes;
      }
    } else {
      assert Do(tools, s, Advance(id, choice)) == s by { NoSuchRun(tools, s, id, choice); }
    }
  }

  lemma {:induction false} IdleStays(tools: Tools, files: Files, inputs: Inputs, p: Process, choice: Choice)
    requires Formed(p) && !p.Holding() && !p.phase.Starting?
    ensures Act(tools, files, inputs, p, choice) == (files, p)
  {
  }

  lemma {:induction false} NoSuchRun(tools: Tools, s: State, id: nat, choice: Choice)
    requires id !in s.processes
    ensures Do(tools, s, Advance(id, choice)) == s
  {
  }

  lemma {:induction false} CrashConsistent(tools: Tools, files: Files, p: Process)
    requires Consistent(tools, files, p)
    ensures Consistent(tools, files, p.(phase := Crashed))
  {
    hide Accepted, Owed, Units, KeyOf, CheckpointText;
  }

  lemma {:induction false} CrashSafe(tools: Tools, s: State, id: nat)
    requires Safe(tools, s)
    ensures Safe(tools, Do(tools, s, Crash(id)))
  {
    hide Genuine, Consistent;
    if id in s.processes {
      CrashConsistent(tools, s.files, s.processes[id]);
      Replaced(tools, s, id, s.files, s.processes[id].(phase := Crashed));
      assert s.(files := s.files) == s;
    }
  }

  lemma {:induction false} LaunchSafe(tools: Tools, s: State, id: nat, terms: Terms)
    requires Safe(tools, s)
    ensures Safe(tools, Do(tools, s, Launch(id, terms)))
  {
    var p := Process(terms, Starting, [], []);
    if Accepted(tools, terms) {
      assert Consistent(tools, s.files, p);
      hide Genuine, Consistent, Accepted;
      if id !in s.processes { Replaced(tools, s, id, s.files, p); }
    }
  }

  /** The operator's repairs: with no run alive, a lock or a pending file may go. */
  lemma {:induction false} RepairSafe(tools: Tools, s: State, path: Path)
    requires Safe(tools, s) && Quiet(s) && (path.LockFile? || path.PendingFile?)
    ensures Safe(tools, s.(files := s.files - {path}))
  {
    hide Filed, Accepted, Owed, Units, KeyOf, CheckpointText, Exact;
    var files := s.files - {path};
    assert forall key :: CheckpointFile(key) in files <==> CheckpointFile(key) in s.files;
    forall other | other in s.processes
      ensures Consistent(tools, files, s.processes[other])
    {
      assert Consistent(tools, s.files, s.processes[other]);
    }
  }

  lemma {:induction false} ActionSafe(tools: Tools, s: State, a: Action)
    requires tools.Faithful() && Safe(tools, s)
    ensures Safe(tools, Do(tools, s, a))
  {
    match a
    case Launch(id, terms) => LaunchSafe(tools, s, id, terms);
    case Advance(id, choice) => AdvanceSafe(tools, s, id, choice);
    case Crash(id) => CrashSafe(tools, s, id);
    case Supply(_) =>
    case Unlock => if Quiet(s) { RepairSafe(tools, s, LockFile); }
    case Clear(key) => if Quiet(s) { RepairSafe(tools, s, PendingFile(key)); }
  }

  lemma {:induction false} HistorySafe(tools: Tools, s: State, actions: seq<Action>)
    requires tools.Faithful() && Safe(tools, s)
    ensures Safe(tools, After(tools, s, actions))
  {
    hide Safe, Do;
    if actions != [] {
      HistorySafe(tools, s, actions[..|actions| - 1]);
      ActionSafe(tools, After(tools, s, actions[..|actions| - 1]), actions[|actions| - 1]);
    }
  }

  /** A directory nobody has used yet. */
  function Fresh(inputs: Inputs): State { State(map[], map[], inputs) }

  lemma {:induction false} Reached(tools: Tools, inputs: Inputs, actions: seq<Action>)
    requires tools.Faithful()
    ensures Safe(tools, After(tools, Fresh(inputs), actions))
  {
    assert Safe(tools, Fresh(inputs));
    hide Safe;
    HistorySafe(tools, Fresh(inputs), actions);
  }

  // ----- results -----

  /** Two live runs never both hold the directory, and the one that does has its lock file there. */
  lemma {:induction false} MutualExclusion(tools: Tools, inputs: Inputs, actions: seq<Action>, i: nat, j: nat)
    requires tools.Faithful()
    ensures
      var s := After(tools, Fresh(inputs), actions);
      i in s.processes && j in s.processes && s.processes[i].Holding() && s.processes[j].Holding() ==>
        i == j && LockFile in s.files
  {
    Reached(tools, inputs, actions);
    hide After, Genuine, Exact, Pinned;
    var s := After(tools, Fresh(inputs), actions);
    if i in s.processes { assert Consistent(tools, s.files, s.processes[i]); }
  }

  /** However many runs crashed before, however the inputs changed: what a run yields is, pair by pair, the
      bound evaluation of the dataset it loaded, and a run that completes yields every pair. */
  lemma {:induction false} CheckpointsAreTransparent(tools: Tools, inputs: Inputs, actions: seq<Action>, id: nat)
    requires tools.Faithful()
    ensures
      var s := After(tools, Fresh(inputs), actions);
      id in s.processes ==>
        var p := s.processes[id];
        && |p.yielded| <= |Units(p.terms)| && |p.yielded| <= |p.loads|
        && (forall i :: 0 <= i < |p.yielded| ==>
              Bind(tools, p.terms.family, Evaluate(tools, p.terms, Units(p.terms)[i], p.loads[i])) == Ok(p.yielded[i]))
        && (p.phase == Stopped(Completed) ==> |p.yielded| == |Units(p.terms)|)
  {
    Reached(tools, inputs, actions);
    hide After, Genuine, Pinned, Held;
    var s := After(tools, Fresh(inputs), actions);
    if id in s.processes {
      var p := s.processes[id];
      assert Consistent(tools, s.files, p);
      forall i | 0 <= i < |p.yielded|
        ensures Bind(tools, p.terms.family, Evaluate(tools, p.terms, Units(p.terms)[i], p.loads[i])) == Ok(p.yielded[i])
      {
        BindingSucceeds(tools, p.terms, Units(p.terms)[i], p.loads[i]);
      }
    }
  }

  /** Runs that yielded anything from one directory were configured alike: a changed configuration
      yields nothing. */
  lemma {:induction false} OneConfigurationPerDirectory(tools: Tools, inputs: Inputs, actions: seq<Action>, i: nat, j: nat)
    requires tools.Faithful()
    ensures
      var s := After(tools, Fresh(inputs), actions);
      i in s.processes && j in s.processes && s.processes[i].yielded != [] && s.processes[j].yielded != [] ==>
        s.processes[i].terms == s.processes[j].terms
  {
    Reached(tools, inputs, actions);
    hide After, Genuine, Exact, Held;
    var s := After(tools, Fresh(inputs), actions);
    if i in s.processes && j in s.processes && s.processes[i].yielded != [] && s.processes[j].yielded != [] {
      assert Consistent(tools, s.files, s.processes[i]) && Consistent(tools, s.files, s.processes[j]);
      Same(tools.configText, s.processes[i].terms, s.processes[j].terms);
    }
  }

  // ----- the current datasets -----

  /** The datasets a run loaded are those the loader has for its pairs. */
  ghost predicate Current(p: Process, inputs: Inputs) {
    && Formed(p) && |p.loads| <= |Units(p.terms)|
    && forall i :: 0 <= i < |p.loads| ==> p.loads[i] == inputs(Units(p.terms)[i].symbol, Units(p.terms)[i].window.months)
  }

  lemma {:induction false} ActCurrent(tools: Tools, files: Files, inputs: Inputs, p: Process, choice: Choice)
    requires Current(p, inputs)
    ensures Current(Act(tools, files, inputs, p, choice).1, inputs)
  {
    if p.phase.Inspecting? && !choice.fault {
      hide *;
      CurrentFormed(p, inputs);
      InspectCurrent(tools, files, inputs, p);
      ActInspects(tools, files, inputs, p, choice);
    } else {
      hide Units, KeyOf, CheckpointText, Inspect;
    }
  }

  lemma {:induction false} CurrentFormed(p: Process, inputs: Inputs)
    requires Current(p, inputs)
    ensures Formed(p) && (p.phase.Inspecting? ==> |p.loads| == |p.yielded| <= |Units(p.terms)|)
  {
    hide Units;
  }

  lemma {:induction false} ActInspects(tools: Tools, files: Files, inputs: Inputs, p: Process, choice: Choice)
    requires Formed(p) && p.phase.Inspecting? && !choice.fault
    ensures Act(tools, files, inputs, p, choice) == Inspect(tools, files, inputs, p)
  {
    hide Units, Inspect;
  }

  lemma {:induction false} InspectCurrent(tools: Tools, files: Files, inputs: Inputs, p: Process)
    requires Current(p, inputs) && p.phase.Inspecting?
    ensures Current(Inspect(tools, files, inputs, p).1, inputs)
  {
    hide Units, Judge, KeyOf;
  }

  /** While the inputs stay put, a run launched in that time works on the current datasets. */
  lemma {:induction false} SteadyInputs(tools: Tools, s: State, actions: seq<Action>, id: nat)
    requires id !in s.processes && forall a :: a in actions ==> !a.Supply?
    ensures
      var t := After(tools, s, actions);
      t.inputs == s.inputs && (id in t.processes ==> Current(t.processes[id], s.inputs))
  {
    if actions != [] {
      var prior, a := actions[..|actions| - 1], actions[|actions| - 1];
      SteadyInputs(tools, s, prior, id);
      var t := After(tools, s, prior);
      assert a in actions && !a.Supply?;
      hide *;
      AfterNext(tools, s, actions);
      StepCurrent(tools, t, a, id);
    }
  }

  lemma {:induction false} AfterNext(tools: Tools, s: State, actions: seq<Action>)
    requires actions != []
    ensures After(tools, s, actions) == Do(tools, After(tools, s, actions[..|actions| - 1]), actions[|actions| - 1])
  {
    hide Do;
  }

  lemma {:induction false} StepCurrent(tools: Tools, t: State, a: Action, id: nat)
    requires !a.Supply? && (id in t.processes ==> Current(t.processes[id], t.inputs))
    ensures Do(tools, t, a).inputs == t.inputs
    ensures id in Do(tools, t, a).processes ==> Current(Do(tools, t, a).processes[id], t.inputs)
  {
    hide Units, Accepted, Quiet, Act;
    if a.Advance? && id in t.processes {
      CurrentFormed(t.processes[id], t.inputs);
      ActCurrent(tools, t.files, t.inputs, t.processes[id], a.choice);
    }
  }

  /** Every checkpoint on file was filed for the dataset the loader has now. */
  ghost predicate FiledCurrent(tools: Tools, files: Files, inputs: Inputs) {
    forall key :: CheckpointFile(key) in files ==>
      ConfigurationFile in files && FiledNow(tools, files[ConfigurationFile], key, files[CheckpointFile(key)], inputs)
  }

  ghost predicate FiledNow(tools: Tools, config: string, key: string, text: string, inputs: Inputs) {
    exists t, u :: AuthenticNow(tools, config, key, text, t, u, inputs)
  }

  ghost predicate AuthenticNow(tools: Tools, config: string, key: string, text: string, t: Terms, u: Unit, inputs: Inputs) {
    Authentic(tools, config, key, text, t, u, inputs(u.symbol, u.window.months))
  }

  lemma {:induction false} SparedCurrent(tools: Tools, files: Files, files': Files, inputs: Inputs)
    requires FiledCurrent(tools, files, inputs) && (Spares(files, files') || Unfiled(files'))
    ensures FiledCurrent(tools, files', inputs)
  {
    hide FiledNow;
  }

  lemma {:induction false} ActFilesCurrent(tools: Tools, files: Files, inputs: Inputs, p: Process, choice: Choice)
    requires Consistent(tools, files, p) && Current(p, inputs) && Genuine(tools, files) && FiledCurrent(tools, files, inputs)
    ensures FiledCurrent(tools, Act(tools, files, inputs, p, choice).0, inputs)
  {
    hide Accepted, Owed, Units, KeyOf, CheckpointText, Filed, FiledNow, Judge, Loaded;
    var us, k := Units(p.terms), |p.yielded|;
    var (files', p') := Act(tools, files, inputs, p, choice);
    if p.phase.WritingCheckpoint? && p'.phase.Yielding? {
      var key, text := KeyOf(tools, p.terms, us[k]), CheckpointText(tools, p.loads[k], p.phase.filing);
      assert text[..|text|] == text && files'[CheckpointFile(key)] == text;
      assert us[k] in Units(p.terms) && p.loads[k] == inputs(us[k].symbol, us[k].window.months);
      FiledNowBy(tools, files[ConfigurationFile], key, text, p.terms, us[k], inputs);
    } else {
      assert Spares(files, files') || Unfiled(files');
      SparedCurrent(tools, files, files', inputs);
    }
  }

  lemma {:induction false} FiledNowBy(tools: Tools, config: string, key: string, text: string, t: Terms, u: Unit, inputs: Inputs)
    requires Authentic(tools, config, key, text, t, u, inputs(u.symbol, u.window.months))
    ensures FiledNow(tools, config, key, text, inputs)
  {
    assert AuthenticNow(tools, config, key, text, t, u, inputs);
  }

  ghost predicate AllCurrent(s: State) {
    forall id :: id in s.processes ==> Current(s.processes[id], s.inputs)
  }

  lemma {:induction false} AdvanceCurrent(tools: Tools, s: State, id: nat, choice: Choice)
    requires Safe(tools, s) && AllCurrent(s) && FiledCurrent(tools, s.files, s.inputs) && id in s.processes
    ensures AllCurrent(Do(tools, s, Advance(id, choice))) && FiledCurrent(tools, Do(tools, s, Advance(id, choice)).files, s.inputs)
  {
    var p := s.processes[id];
    assert Consistent(tools, s.files, p) && Current(p, s.inputs);
    hide Safe, Current, Consistent, FiledCurrent, Formed;
    IsFormed(tools, s.files, p);
    assert Genuine(tools, s.files) by { SafeGenuine(tools, s); }
    hide Genuine;
    ActCurrent(tools, s.files, s.inputs, p, choice);
    ActFilesCurrent(tools, s.files, s.inputs, p, choice);
    hide Act;
  }

  lemma {:induction false} SafeGenuine(tools: Tools, s: State)
    requires Safe(tools, s)
    ensures Genuine(tools, s.files)
  {
  }

  lemma {:induction false} ActionCurrent(tools: Tools, s: State, a: Action)
    requires Safe(tools, s) && AllCurrent(s) && FiledCurrent(tools, s.files, s.inputs) && !a.Supply?
    ensures AllCurrent(Do(tools, s, a)) && FiledCurrent(tools, Do(tools, s, a).files, s.inputs)
  {
    hide Safe, FiledCurrent, Units, Accepted, Quiet, Act;
    match a
    case Advance(id, choice) => if id in s.processes { AdvanceCurrent(tools, s, id, choice); }
    case Unlock => SparedCurrent(tools, s.files, Do(tools, s, a).files, s.inputs);
    case Clear(_) => SparedCurrent(tools, s.files, Do(tools, s, a).files, s.inputs);
    case _ =>
  }

  /** While the inputs stay as they were when the directory was new, so does what is on file. */
  lemma {:induction false} SteadyDirectory(tools: Tools, inputs: Inputs, actions: seq<Action>)
    requires tools.Faithful() && forall a :: a in actions ==> !a.Supply?
    ensures
      var s := After(tools, Fresh(inputs), actions);
      s.inputs == inputs && AllCurrent(s) && FiledCurrent(tools, s.files, inputs)
  {
    if actions != [] {
      var prior, a := actions[..|actions| - 1], actions[|actions| - 1];
      SteadyDirectory(tools, inputs, prior);
      Reached(tools, inputs, prior);
      assert a in actions && !a.Supply?;
      hide Safe, AllCurrent, FiledCurrent;
      ActionCurrent(tools, After(tools, Fresh(inputs), prior), a);
      hide Act, Accepted, Quiet;
    }
  }
}
