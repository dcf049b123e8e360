/** The checkpointed job runner (phase1415/jobs.py) as a machine: several runs over one directory,
    each advancing by file-system steps, any of which may be its last. */
module Jobs {
  import opened Wrappers

  // ----- what a run works on -----

  datatype Window = Window(months: nat, bounds: string)

  datatype Definition = Definition(identifier: string, version: string, rules: string)

  datatype Dataset = Dataset(content: string, sha256: string)

  datatype Family = Family(runId: string, hypotheses: int, policyHash: string, symbols: seq<string>, windows: seq<Window>)

  /** Everything a run is configured with; `rest` stands for the settings, tariff and engine versions. */
  datatype Terms = Terms(
    members: seq<string>, windows: seq<Window>, definitions: seq<Definition>, family: Family, policy: string, rest: string)

  /** A result: its identity, and what the evaluation found. */
  datatype Report = Report(
    runId: Option<string>, hypotheses: Option<int>, symbol: string, strategyId: string, strategyVersion: string,
    strategyHash: string, window: Window, policyHash: string, datasetHash: Option<string>, findings: string)

  datatype Record = Record(input: string, result: string, sha256: string)

  /** The functions a run is built from: the digest, the JSON texts, the registry and the evaluation. */
  datatype Tools = Tools(
    digest: string -> string,
    configText: Terms -> string,
    sourceText: Option<Dataset> -> string,
    windowText: Window -> string,
    definitionText: Definition -> string,
    resultText: Report -> string,
    readResult: string -> Option<Report>,
    recordText: Record -> string,
    readRecord: string -> Option<Record>,
    registry: seq<Definition>,
    findings: (Terms, string, Definition, Window, Option<Dataset>) -> string)
  {
    /** Digests do not collide and texts determine what they were written from. */
    ghost predicate Faithful() {
      && Injective(digest) && Injective(configText) && Injective(sourceText) && Injective(definitionText)
      && (forall r :: readResult(resultText(r)) == Some(r))
      && (forall r :: readRecord(recordText(r)) == Some(r))
    }

    /** A window's text is one JSON object, so no such text begins another. */
    ghost predicate WindowsDelimited() {
      && (forall w :: |windowText(w)| > 0 && windowText(w)[0] == '{')
      && (forall v, w :: windowText(v) <= windowText(w) ==> v == w)
    }

    function Fingerprint(d: Definition): string { digest(definitionText(d)) }
  }

  ghost predicate Injective<A(!new), B(!new)>(f: A -> B) {
    forall a, b :: f(a) == f(b) ==> a == b
  }

  lemma {:induction false} Same<A(!new), B(!new)>(f: A -> B, a: A, b: A)
    requires Injective(f) && f(a) == f(b)
    ensures a == b
  {
  }

  datatype Unit = Unit(symbol: string, window: Window, definition: Definition)

  function ForDefinitions(symbol: string, window: Window, definitions: seq<Definition>): (r: seq<Unit>) {
    if definitions == [] then []
    else ForDefinitions(symbol, window, definitions[..|definitions| - 1]) + [Unit(symbol, window, definitions[|definitions| - 1])]
  }

  function ForWindows(symbol: string, windows: seq<Window>, definitions: seq<Definition>): (r: seq<Unit>) {
    if windows == [] then []
    else ForWindows(symbol, windows[..|windows| - 1], definitions) + ForDefinitions(symbol, windows[|windows| - 1], definitions)
  }

  function ForMembers(members: seq<string>, windows: seq<Window>, definitions: seq<Definition>): (r: seq<Unit>) {
    if members == [] then []
    else ForMembers(members[..|members| - 1], windows, definitions) + ForWindows(members[|members| - 1], windows, definitions)
  }

  /** The pairs of a run, in the order of its loops. */
  function Units(t: Terms): seq<Unit> { ForMembers(t.members, t.windows, t.definitions) }

  predicate Distinct<T(==)>(s: seq<T>) { forall i, j :: 0 <= i < j < |s| ==> s[i] != s[j] }

  /** The checks a run makes before it touches the directory. */
  predicate Accepted(tools: Tools, t: Terms) {
    && t.members != [] && Distinct(t.members) && (forall m :: m in t.members ==> m in t.family.symbols)
    && t.definitions != [] && (forall i, j :: 0 <= i < j < |t.definitions| ==> t.definitions[i].identifier != t.definitions[j].identifier)
    && (forall d :: d in t.definitions ==> Registered(tools.registry, d.identifier) == Some(d))
    && t.windows != [] && (forall i, j :: 0 <= i < j < |t.windows| ==> t.windows[i].months != t.windows[j].months)
    && (forall w :: w in t.windows ==> w in t.family.windows)
    && t.family.policyHash == tools.digest(t.policy)
  }

  /** The registry's first definition of an identifier. */
  function Registered(registry: seq<Definition>, identifier: string): Option<Definition> {
    if registry == [] then None
    else if registry[0].identifier == identifier then Some(registry[0])
    else Registered(registry[1..], identifier)
  }

  // ----- one pair -----

  function Evaluate(tools: Tools, t: Terms, u: Unit, dataset: Option<Dataset>): Report {
    Report(None, None, u.symbol, u.definition.identifier, u.definition.version, tools.Fingerprint(u.definition), u.window,
           tools.digest(t.policy), if dataset.Some? then Some(dataset.value.sha256) else None,
           tools.findings(t, u.symbol, u.definition, u.window, dataset))
  }

  function Bind(tools: Tools, f: Family, r: Report): Result<Report> {
    var reference := Registered(tools.registry, r.strategyId);
    if r.policyHash != f.policyHash || r.window !in f.windows then Err("RESULT_FAMILY_CONFLICT")
    else if r.symbol !in f.symbols || reference.None? || r.strategyHash != tools.Fingerprint(reference.value)
         || r.strategyVersion != reference.value.version then Err("RESULT_FAMILY_CONFLICT")
    else Ok(r.(runId := Some(f.runId), hypotheses := Some(f.hypotheses)))
  }

  /** What a run owes for a pair on a dataset. */
  function Owed(tools: Tools, t: Terms, u: Unit, dataset: Option<Dataset>): Report {
    Evaluate(tools, t, u, dataset).(runId := Some(t.family.runId), hypotheses := Some(t.family.hypotheses))
  }

  function KeyOf(tools: Tools, t: Terms, u: Unit): string {
    tools.digest(tools.configText(t) + u.symbol + tools.windowText(u.window) + tools.Fingerprint(u.definition))
  }

  function CheckpointText(tools: Tools, dataset: Option<Dataset>, r: Report): string {
    tools.recordText(Record(tools.digest(tools.sourceText(dataset)), tools.resultText(r), tools.digest(tools.resultText(r))))
  }

  predicate Identified(tools: Tools, t: Terms, u: Unit, dataset: Option<Dataset>, r: Report) {
    && r.runId == Some(t.family.runId) && r.hypotheses == Some(t.family.hypotheses) && r.policyHash == t.family.policyHash
    && r.strategyId == u.definition.identifier && r.strategyVersion == u.definition.version
    && r.datasetHash == (if dataset.Some? then Some(dataset.value.sha256) else None)
    && r.symbol == u.symbol && r.strategyHash == tools.Fingerprint(u.definition) && r.window == u.window
  }

  /** What a run makes of a pair: the report on file, one to be filed, or a failure. */
  datatype Verdict = Use(report: Report) | File(report: Report) | Refuse(error: string)

  function Judge(tools: Tools, t: Terms, u: Unit, dataset: Option<Dataset>, onFile: Option<string>): Verdict {
    match onFile
    case None =>
      var bound := Bind(tools, t.family, Evaluate(tools, t, u, dataset));
      if bound.Err? then Refuse(bound.error) else File(bound.value)
    case Some(text) =>
      match tools.readRecord(text)
      case None => Refuse("MALFORMED_CHECKPOINT")
      case Some(record) =>
        if record.input != tools.digest(tools.sourceText(dataset)) || tools.digest(record.result) != record.sha256 then
          Refuse("CHECKPOINT_DATA_OR_CONTENT_CONFLICT")
        else
          match tools.readResult(record.result)
          case None => Refuse("MALFORMED_RESULT")
          case Some(r) => if Identified(tools, t, u, dataset, r) then Use(r) else Refuse("CHECKPOINT_IDENTITY_CONFLICT")
  }

  // ----- runs over a directory -----

  datatype Path = LockFile | ConfigurationFile | CheckpointFile(key: string) | PendingFile(key: string)

  type Files = map<Path, string>

  type Inputs = (string, nat) -> Option<Dataset>

  datatype Outcome = Completed | Abandoned | Failed(error: string)

  datatype Phase =
    | Starting | Configuring | WritingConfiguration(written: nat) | Inspecting
    | WritingCheckpoint(filing: Report, written: nat) | Yielding(report: Report)
    | Releasing(outcome: Outcome) | Stopped(result: Outcome) | Crashed

  /** A run: where it is, the dataset it loaded for each pair, and what it has yielded. */
  datatype Process = Process(terms: Terms, phase: Phase, loads: seq<Option<Dataset>>, yielded: seq<Report>)
  {
    predicate Holding() { !phase.Starting? && !phase.Stopped? && !phase.Crashed? }
  }

  /** How much a write manages, whether the step raises, whether the consumer closes the generator. */
  datatype Choice = Choice(chunk: nat, fault: bool, close: bool)

  function Lookup(files: Files, path: Path): Option<string> {
    if path in files then Some(files[path]) else None
  }

  function Shorter(a: nat, b: nat): nat { if a <= b then a else b }

  /** The loader is asked once for each member and window. */
  function Loaded(inputs: Inputs, p: Process): Option<Dataset>
    requires |p.yielded| < |Units(p.terms)| && |p.loads| == |p.yielded|
  {
    var us, k := Units(p.terms), |p.yielded|;
    if k > 0 && us[k - 1].symbol == us[k].symbol && us[k - 1].window == us[k].window then p.loads[k - 1]
    else inputs(us[k].symbol, us[k].window.months)
  }

  /** Act on what the run makes of its next pair. */
  function Take(tools: Tools, files: Files, p: Process, dataset: Option<Dataset>, verdict: Verdict): (r: (Files, Process))
    requires |p.yielded| < |Units(p.terms)|
  {
    var key := KeyOf(tools, p.terms, Units(p.terms)[|p.yielded|]);
    var q := p.(loads := p.loads + [dataset]);
    match verdict
    case Refuse(error) => (files, q.(phase := Releasing(Failed(error))))
    case Use(report) => (files, q.(phase := Yielding(report)))
    case File(report) =>
      if PendingFile(key) in files then (files, q.(phase := Releasing(Failed("FileExistsError"))))
      else (files[PendingFile(key) := ""], q.(phase := WritingCheckpoint(report, 0)))
  }

  function Inspect(tools: Tools, files: Files, inputs: Inputs, p: Process): (r: (Files, Process))
    requires |p.loads| == |p.yielded| <= |Units(p.terms)|
  {
    var us, k := Units(p.terms), |p.yielded|;
    if k == |us| then (files, p.(phase := Releasing(Completed)))
    else
      var dataset := Loaded(inputs, p);
      Take(tools, files, p, dataset,
           Judge(tools, p.terms, us[k], dataset, Lookup(files, CheckpointFile(KeyOf(tools, p.terms, us[k])))))
  }

  function WriteCheckpoint(tools: Tools, files: Files, p: Process, chunk: nat): (Files, Process)
    requires p.phase.WritingCheckpoint? && |p.loads| == |p.yielded| + 1 && |p.yielded| < |Units(p.terms)|
  {
    var key := KeyOf(tools, p.terms, Units(p.terms)[|p.yielded|]);
    var text := CheckpointText(tools, p.loads[|p.yielded|], p.phase.filing);
    if p.phase.written < |text| then
      var n := Shorter(p.phase.written + chunk, |text|);
      (files[PendingFile(key) := text[..n]], p.(phase := WritingCheckpoint(p.phase.filing, n)))
    else if PendingFile(key) in files then
      ((files - {PendingFile(key)})[CheckpointFile(key) := files[PendingFile(key)]], p.(phase := Yielding(p.phase.filing)))
    else (files, p.(phase := Releasing(Failed("FileNotFoundError"))))
  }

  /** A process is well formed: what each phase relies on. */
  predicate Formed(p: Process) {
    && |p.yielded| <= |Units(p.terms)|
    && (p.phase.WritingCheckpoint? || p.phase.Yielding? ==> |p.yielded| < |Units(p.terms)| && |p.loads| == |p.yielded| + 1)
    && (p.phase.Inspecting? ==> |p.loads| == |p.yielded|)
    && (p.phase.Starting? || p.phase.Configuring? || p.phase.WritingConfiguration? ==> p.loads == [] && p.yielded == [])
    && |p.yielded| <= |p.loads|
  }

  /** One step of a run. */
  function Act(tools: Tools, files: Files, inputs: Inputs, p: Process, choice: Choice): (Files, Process)
    requires Formed(p)
  {
    var text := tools.configText(p.terms);
    match p.phase
    case Starting =>
      if LockFile in files then (files, p.(phase := Stopped(Failed("FileExistsError"))))
      else if choice.fault then (files, p.(phase := Stopped(Failed("FAULT"))))
      else (files[LockFile := ""], p.(phase := Configuring))
    case Releasing(outcome) => (files - {LockFile}, p.(phase := Stopped(outcome)))
    case Stopped(_) => (files, p)
    case Crashed => (files, p)
    case Yielding(report) =>
      (files, p.(yielded := p.yielded + [report], phase := if choice.close then Releasing(Abandoned) else Inspecting))
    case Configuring =>
      if choice.fault then (files, p.(phase := Releasing(Failed("FAULT"))))
      else if ConfigurationFile !in files then (files[ConfigurationFile := ""], p.(phase := WritingConfiguration(0)))
      else if files[ConfigurationFile] != text then (files, p.(phase := Releasing(Failed("CHECKPOINT_CONFIGURATION_CONFLICT"))))
      else (files, p.(phase := Inspecting))
    case WritingConfiguration(n) =>
      if choice.fault then (files, p.(phase := Releasing(Failed("FAULT"))))
      else if n < |text| then
        var m := Shorter(n + choice.chunk, |text|);
        (files[ConfigurationFile := text[..m]], p.(phase := WritingConfiguration(m)))
      else (files, p.(phase := Inspecting))
    case Inspecting =>
      if choice.fault then (files, p.(phase := Releasing(Failed("FAULT")))) else Inspect(tools, files, inputs, p)
    case WritingCheckpoint(_, _) =>
      if choice.fault then (files, p.(phase := Releasing(Failed("FAULT")))) else WriteCheckpoint(tools, files, p, choice.chunk)
  }

  datatype State = State(files: Files, processes: map<nat, Process>, inputs: Inputs)

  /** What can happen: a run is launched, advances or dies; the inputs change; the operator removes a
      stale lock or a stale pending file while no run is alive. */
  datatype Action =
    | Launch(id: nat, terms: Terms) | Advance(id: nat, choice: Choice) | Crash(id: nat)
    | Supply(inputs: Inputs) | Unlock | Clear(key: string)

  predicate Quiet(s: State) { forall id :: id in s.processes ==> !s.processes[id].Holding() }

  /** The state after an action; an action that is not possible changes nothing. */
  function Do(tools: Tools, s: State, a: Action): State {
    match a
    case Launch(id, terms) =>
      if id in s.processes || !Accepted(tools, terms) then s
      else s.(processes := s.processes[id := Process(terms, Starting, [], [])])
    case Advance(id, choice) =>
      if id !in s.processes || !Formed(s.processes[id]) then s
      else
        var (files, p) := Act(tools, s.files, s.inputs, s.processes[id], choice);
        s.(files := files, processes := s.processes[id := p])
    case Crash(id) =>
      if id !in s.processes || s.processes[id].phase.Stopped? then s
      else s.(processes := s.processes[id := s.processes[id].(phase := Crashed)])
    case Supply(inputs) => s.(inputs := inputs)
    case Unlock => if Quiet(s) then s.(files := s.files - {LockFile}) else s
    case Clear(key) => if Quiet(s) then s.(files := s.files - {PendingFile(key)}) else s
  }

  function After(tools: Tools, s: State, actions: seq<Action>): State {
    if actions == [] then s else Do(tools, After(tools, s, actions[..|actions| - 1]), actions[|actions| - 1])
  }
}
