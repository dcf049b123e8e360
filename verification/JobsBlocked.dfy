/** A directory whose configuration file nobody wrote whole: it refuses every later run. */
module JobsBlocked {
  import opened Wrappers
  import opened Jobs
  import opened JobsSafety
  import opened JobsRun

  // ----- the refusal -----

  /** No run is configured like this. */
  ghost predicate Nobodys(tools: Tools, text: string) { forall t :: tools.configText(t) != text }

  lemma {:induction false} PairErrors(tools: Tools, files: Files, t: Terms, load: Inputs, k: nat)
    requires k <= |Units(t)|
    ensures SettledTo(tools, files, t, load, k).failure != Some("CHECKPOINT_CONFIGURATION_CONFLICT")
  {
    hide Units, Settle;
    if k > 0 {
      PairErrors(tools, files, t, load, k - 1);
      var u := Units(t)[k - 1];
      SettleErrors(tools, SettledTo(tools, files, t, load, k - 1).files, t, u, load(u.symbol, u.window.months));
    }
  }

  lemma {:induction false} SettleErrors(tools: Tools, files: Files, t: Terms, u: Unit, dataset: Option<Dataset>)
    ensures
      var r := Settle(tools, files, t, u, dataset).1;
      r.Err? ==> r.error != "CHECKPOINT_CONFIGURATION_CONFLICT"
  {
    hide KeyOf, CheckpointText, Evaluate, Identified, Registered;
  }

  /** With the lock free, an undisturbed run reports a configuration conflict exactly when the text on file
      is not its own. */
  lemma {:induction false} ConflictsExactly(tools: Tools, files: Files, t: Terms, load: Inputs)
    requires LockFile !in files
    ensures
      Performed(tools, files, t, load).1 == Failed("CHECKPOINT_CONFIGURATION_CONFLICT") <==>
        ConfigurationFile in files && files[ConfigurationFile] != tools.configText(t)
  {
    PairErrors(tools, files[LockFile := ""][ConfigurationFile := tools.configText(t)], t, load, |Units(t)|);
    hide SettledTo, Units;
  }

  // ----- every history -----

  /** A run that is not past the configuration, or is over. */
  predicate Outside(p: Process) {
    p.phase.Starting? || p.phase.Configuring? || p.phase.Releasing? || p.phase.Stopped? || p.phase.Crashed?
  }

  /** A run that got nowhere and will not. */
  predicate Barren(p: Process) {
    p.yielded == [] && p.phase != Releasing(Completed) && p.phase != Stopped(Completed)
  }

  /** The text stays on file, and no run gets past it. */
  ghost predicate Blocked(s: State, text: string, id: nat) {
    && Lookup(s.files, ConfigurationFile) == Some(text)
    && (forall other :: other in s.processes ==> Outside(s.processes[other]))
    && (id in s.processes ==> Barren(s.processes[id]))
  }

  lemma {:induction false} ActBlocked(tools: Tools, files: Files, inputs: Inputs, p: Process, choice: Choice, text: string)
    requires Formed(p) && Outside(p) && Lookup(files, ConfigurationFile) == Some(text) && Nobodys(tools, text)
    ensures
      var (files', p') := Act(tools, files, inputs, p, choice);
      Lookup(files', ConfigurationFile) == Some(text) && Outside(p') && (Barren(p) ==> Barren(p'))
  {
    hide Formed;
  }

  lemma {:induction false} ActionBlocked(tools: Tools, s: State, a: Action, text: string, id: nat)
    requires Blocked(s, text, id) && Nobodys(tools, text)
    ensures Blocked(Do(tools, s, a), text, id)
  {
    hide Act, Formed, Accepted, Nobodys, Outside, Barren, Quiet;
    match a
    case Launch(_, terms) =>
      var p := Process(terms, Starting, [], []);
      assert Outside(p) && Barren(p) by { LaunchOutside(terms); }
    case Advance(other, choice) =>
      if other in s.processes && Formed(s.processes[other]) {
        ActBlocked(tools, s.files, s.inputs, s.processes[other], choice, text);
      }
    case Crash(other) =>
      if other in s.processes { CrashOutside(s.processes[other]); }
    case _ =>
  }

  lemma {:induction false} LaunchOutside(terms: Terms)
    ensures Outside(Process(terms, Starting, [], [])) && Barren(Process(terms, Starting, [], []))
  {
  }

  lemma {:induction false} CrashOutside(p: Process)
    ensures Outside(p.(phase := Crashed)) && (Barren(p) ==> Barren(p.(phase := Crashed)))
  {
  }

  lemma {:induction false} StaysBlocked(tools: Tools, s: State, actions: seq<Action>, text: string, id: nat)
    requires Blocked(s, text, id) && Nobodys(tools, text)
    ensures Blocked(After(tools, s, actions), text, id)
  {
    hide Blocked, Nobodys, Do;
    if actions != [] {
      StaysBlocked(tools, s, actions[..|actions| - 1], text, id);
      ActionBlocked(tools, After(tools, s, actions[..|actions| - 1]), actions[|actions| - 1], text, id);
    }
  }

  /** While no run is alive, a configuration that is nobody's is final: it stays, whatever is launched, crashes,
      is unlocked or cleared afterwards, and no run launched from then on ever yields or completes. */
  lemma {:induction false} NobodysConfigurationIsFinal(tools: Tools, s: State, actions: seq<Action>, id: nat)
    requires Quiet(s) && id !in s.processes
    requires ConfigurationFile in s.files && Nobodys(tools, s.files[ConfigurationFile])
    ensures
      var later := After(tools, s, actions);
      && Lookup(later.files, ConfigurationFile) == Some(s.files[ConfigurationFile])
      && (id in later.processes ==> later.processes[id].yielded == [] && later.processes[id].phase != Stopped(Completed))
  {
    var text := s.files[ConfigurationFile];
    assert Blocked(s, text, id);
    StaysBlocked(tools, s, actions, text, id);
    hide After, Nobodys;
  }

  // ----- how a directory comes to this -----

  /** A configuration's text is one JSON object, so no such text begins another. */
  ghost predicate ConfigurationsDelimited(tools: Tools) {
    forall t, u :: tools.configText(t) <= tools.configText(u) ==> t == u
  }

  lemma {:induction false} PartIsNobodys(tools: Tools, t: Terms, n: nat)
    requires ConfigurationsDelimited(tools) && n < |tools.configText(t)|
    ensures Nobodys(tools, tools.configText(t)[..n])
  {
    var part := tools.configText(t)[..n];
    assert part <= tools.configText(t);
  }

  /** Whatever happened before, a run that dies before it has written its configuration to the end leaves a
      directory in which no run launched afterwards ever yields or completes. */
  lemma {:induction false} DyingWhileConfiguringIsFinal(tools: Tools, inputs: Inputs, before: seq<Action>, id: nat, actions: seq<Action>, other: nat)
    requires tools.Faithful() && ConfigurationsDelimited(tools)
    requires
      var s := After(tools, Fresh(inputs), before);
      && id in s.processes && other !in s.processes && s.processes[id].phase.WritingConfiguration?
      && s.processes[id].phase.written < |tools.configText(s.processes[id].terms)|
    ensures
      var s := After(tools, Fresh(inputs), before);
      var later := After(tools, Do(tools, s, Crash(id)), actions);
      && Lookup(later.files, ConfigurationFile) == Some(tools.configText(s.processes[id].terms)[..s.processes[id].phase.written])
      && (other in later.processes ==> later.processes[other].yielded == [] && later.processes[other].phase != Stopped(Completed))
  {
    var s := After(tools, Fresh(inputs), before);
    Reached(tools, inputs, before);
    hide After, Tools.Faithful;
    WriterAlone(tools, s, id);
    PartIsNobodys(tools, s.processes[id].terms, s.processes[id].phase.written);
    hide Safe, Nobodys, ConfigurationsDelimited;
    NobodysConfigurationIsFinal(tools, Do(tools, s, Crash(id)), actions, other);
  }

  /** A run that writes its configuration is the only live one, and what it has written is on file. */
  lemma {:induction false} WriterAlone(tools: Tools, s: State, id: nat)
    requires Safe(tools, s) && id in s.processes && s.processes[id].phase.WritingConfiguration?
    ensures Quiet(Do(tools, s, Crash(id)))
    ensures Lookup(s.files, ConfigurationFile) == Some(tools.configText(s.processes[id].terms)[..s.processes[id].phase.written])
  {
    hide Genuine, Exact, Pinned;
    assert Consistent(tools, s.files, s.processes[id]);
  }

  /** Take the lock, open the configuration, write its first n characters and die; the operator removes the lock. */
  function Interrupted(t: Terms, n: nat): seq<Action> {
    [Launch(0, t), Advance(0, Plainly(0)), Advance(0, Plainly(0)), Advance(0, Plainly(n)), Crash(0), Unlock]
  }

  lemma {:induction false} WritingReached(tools: Tools, t: Terms, n: nat, inputs: Inputs, actions: seq<Action>)
    requires Accepted(tools, t) && n < |tools.configText(t)|
    requires actions == [Launch(0, t), Advance(0, Plainly(0)), Advance(0, Plainly(0)), Advance(0, Plainly(n))]
    ensures
      After(tools, Fresh(inputs), actions) ==
      Alone(map[LockFile := "", ConfigurationFile := tools.configText(t)[..n]], Process(t, WritingConfiguration(n), [], []), inputs)
  {
    hide Accepted, Units;
    var p, from := Process(t, Starting, [], []), Fresh(inputs);
    var launched: seq<Action> := [Launch(0, t)];
    assert launched[..0] == [];
    assert After(tools, from, launched) == Alone(map[], p, inputs);
    Advances(tools, from, launched, map[], p, inputs, Plainly(0));
    var locked := launched + [Advance(0, Plainly(0))];
    Advances(tools, from, locked, map[LockFile := ""], p.(phase := Configuring), inputs, Plainly(0));
    var opening := locked + [Advance(0, Plainly(0))];
    Advances(tools, from, opening, map[LockFile := "", ConfigurationFile := ""], p.(phase := WritingConfiguration(0)), inputs, Plainly(n));
    assert actions == opening + [Advance(0, Plainly(n))];
  }

  /** A lone run dies, and the operator removes the lock. */
  lemma {:induction false} DiesAndUnlocks(tools: Tools, from: State, actions: seq<Action>, files: Files, p: Process, load: Inputs)
    requires After(tools, from, actions) == Alone(files, p, load) && !p.phase.Stopped?
    ensures After(tools, from, actions + [Crash(0), Unlock]) == Alone(files - {LockFile}, p.(phase := Crashed), load)
  {
    var died := actions + [Crash(0)];
    assert died[..|died| - 1] == actions;
    var all := actions + [Crash(0), Unlock];
    assert all[..|all| - 1] == died;
    assert map[0 := p][0 := p.(phase := Crashed)] == map[0 := p.(phase := Crashed)];
  }

  lemma {:induction false} OtherTextConflicts(tools: Tools, files: Files, t: Terms, load: Inputs)
    requires LockFile !in files && ConfigurationFile in files && files[ConfigurationFile] != tools.configText(t)
    ensures Performed(tools, files, t, load).1 == Failed("CHECKPOINT_CONFIGURATION_CONFLICT")
  {
    hide SettledTo, Units;
  }

  lemma {:induction false} LoneAndDead(files: Files, p: Process, load: Inputs)
    requires p.phase.Crashed?
    ensures Quiet(Alone(files, p, load)) && forall id :: id in Alone(files, p, load).processes <==> id == 0
  {
  }

  /** It can happen at any character, to any accepted run, on a directory nobody has used: what is left
      is the first part of the configuration, and the same run conflicts with it. */
  lemma {:induction false} ConfigurationInterrupted(tools: Tools, t: Terms, n: nat, inputs: Inputs)
    requires Accepted(tools, t) && n < |tools.configText(t)|
    ensures
      var s := After(tools, Fresh(inputs), Interrupted(t, n));
      && s.files == map[ConfigurationFile := tools.configText(t)[..n]] && Quiet(s)
      && (forall id :: id in s.processes <==> id == 0)
      && Performed(tools, s.files, t, inputs).1 == Failed("CHECKPOINT_CONFIGURATION_CONFLICT")
  {
    hide Accepted, Units, SettledTo, Performed, After, Quiet, Act;
    var text, p := tools.configText(t), Process(t, WritingConfiguration(n), [], []);
    var writing: seq<Action> := [Launch(0, t), Advance(0, Plainly(0)), Advance(0, Plainly(0)), Advance(0, Plainly(n))];
    var files := map[LockFile := "", ConfigurationFile := text[..n]];
    WritingReached(tools, t, n, inputs, writing);
    DiesAndUnlocks(tools, Fresh(inputs), writing, files, p, inputs);
    assert Interrupted(t, n) == writing + [Crash(0), Unlock];
    assert files - {LockFile} == map[ConfigurationFile := text[..n]];
    LoneAndDead(files - {LockFile}, p.(phase := Crashed), inputs);
    OtherTextConflicts(tools, files - {LockFile}, t, inputs);
  }
}
