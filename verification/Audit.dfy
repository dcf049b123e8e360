/** The paper simulator's hash-chained audit log (phase1417/paper.py). */
module Audit {
  import opened Wrappers

  // ----- the lifecycle of one signal -----

  datatype Phase =
    | SIGNAL_RECEIVED | ELIGIBILITY_CHECKED | RISK_APPROVED
    | PAPER_ORDER_CREATED | PAPER_ORDER_ACCEPTED | PAPER_ORDER_REJECTED | PAPER_CANCELLED
    | PAPER_FILLED | PAPER_POSITION_OPEN | PAPER_EXIT_PENDING | PAPER_POSITION_CLOSED | PAPER_HALTED

  /** The phases that may follow one; a new signal starts with its receipt. */
  function Transitions(previous: Option<Phase>): set<Phase> {
    match previous
    case None => {SIGNAL_RECEIVED}
    case Some(p) =>
      match p
      case SIGNAL_RECEIVED => {ELIGIBILITY_CHECKED, PAPER_HALTED}
      case ELIGIBILITY_CHECKED => {RISK_APPROVED, PAPER_ORDER_REJECTED, PAPER_HALTED}
      case RISK_APPROVED => {PAPER_ORDER_CREATED}
      case PAPER_ORDER_CREATED => {PAPER_ORDER_ACCEPTED, PAPER_ORDER_REJECTED, PAPER_CANCELLED}
      case PAPER_ORDER_ACCEPTED => {PAPER_FILLED, PAPER_CANCELLED, PAPER_HALTED}
      case PAPER_FILLED => {PAPER_POSITION_OPEN}
      case PAPER_POSITION_OPEN => {PAPER_EXIT_PENDING, PAPER_HALTED}
      case PAPER_EXIT_PENDING => {PAPER_POSITION_CLOSED, PAPER_HALTED}
      case _ => {}
  }

  function Name(p: Phase): string {
    match p
    case SIGNAL_RECEIVED => "SIGNAL_RECEIVED"
    case ELIGIBILITY_CHECKED => "ELIGIBILITY_CHECKED"
    case RISK_APPROVED => "RISK_APPROVED"
    case PAPER_ORDER_CREATED => "PAPER_ORDER_CREATED"
    case PAPER_ORDER_ACCEPTED => "PAPER_ORDER_ACCEPTED"
    case PAPER_ORDER_REJECTED => "PAPER_ORDER_REJECTED"
    case PAPER_CANCELLED => "PAPER_CANCELLED"
    case PAPER_FILLED => "PAPER_FILLED"
    case PAPER_POSITION_OPEN => "PAPER_POSITION_OPEN"
    case PAPER_EXIT_PENDING => "PAPER_EXIT_PENDING"
    case PAPER_POSITION_CLOSED => "PAPER_POSITION_CLOSED"
    case PAPER_HALTED => "PAPER_HALTED"
  }

  /** Steps from the start of the lifecycle: every transition climbs, so the graph has no cycle. */
  function Rank(p: Phase): nat {
    match p
    case SIGNAL_RECEIVED => 1
    case ELIGIBILITY_CHECKED => 2
    case RISK_APPROVED => 3
    case PAPER_ORDER_CREATED => 4
    case PAPER_ORDER_ACCEPTED => 5
    case PAPER_ORDER_REJECTED => 6
    case PAPER_CANCELLED => 6
    case PAPER_FILLED => 6
    case PAPER_POSITION_OPEN => 7
    case PAPER_EXIT_PENDING => 8
    case PAPER_POSITION_CLOSED => 9
    case PAPER_HALTED => 9
  }

  lemma {:induction false} TransitionsClimb(previous: Option<Phase>, next: Phase)
    requires next in Transitions(previous)
    ensures previous.Some? ==> Rank(previous.value) < Rank(next)
    ensures 1 <= Rank(next) <= 9
  {
  }

  // ----- rows -----

  /** The columns the log fills itself. */
  datatype Columns = Columns(
    eventId: string, runId: string, signal: string, qualification: string, risk: string,
    executionVersion: string, executionPolicy: string, symbol: string, strategyId: string, strategyVersion: string,
    scope: string, orderId: string, timestamp: int, previousState: Option<Phase>, state: Phase, previousHash: string)

  /** The columns callers supply; the first six have defaults. */
  datatype Column = PRICE | QUANTITY | FEES | CASH | POSITION | REJECTION | TIMING | Other(name: string)

  datatype Value = Null | Text(text: string) | Number(n: int) | Amount(r: real) | Timing(at: int, liquidityStart: int)

  const DEFAULTS: map<Column, Value> := map[
    PRICE := Null, QUANTITY := Number(0), FEES := Null, CASH := Null, POSITION := Number(0), REJECTION := Null]

  /** What is hashed, and the row recorded: a body sealed by its hash. A recorded file may also hold
      rows that lack a column of the log or give it a value of the wrong kind. */
  datatype Body = Body(columns: Columns, values: map<Column, Value>)

  datatype Row = Row(body: Body, currentHash: string) | Malformed(text: string)

  /** What a run is bound to. The two functions stand for SHA-256 of a text and of a canonical row. */
  datatype Binding = Binding(
    runId: string, qualification: string, risk: string, executionVersion: string, executionPolicy: string,
    symbol: string, strategyId: string, strategyVersion: string, scope: string,
    digest: string -> string, sha: Body -> string)

  const GENESIS: string := "0000000000000000000000000000000000000000000000000000000000000000"

  /** Different texts have different digests. */
  ghost predicate CollisionFree(b: Binding) {
    forall x, y :: b.digest(x) == b.digest(y) ==> x == y
  }

  /** No two different rows of two logs share a hash, and none has the genesis value. */
  ghost predicate NoForgery(b: Binding, xs: seq<Row>, ys: seq<Row>) {
    && (forall x, y :: x in xs && y in ys && x.Row? && y.Row? && b.sha(x.body) == b.sha(y.body) ==> x.body == y.body)
    && (forall x :: x in xs && x.Row? ==> b.sha(x.body) != GENESIS)
    && (forall y :: y in ys && y.Row? ==> b.sha(y.body) != GENESIS)
  }

  // ----- the log as a value -----

  datatype Log = Log(events: seq<Row>, states: map<string, Phase>, keys: set<string>)

  const EMPTY: Log := Log([], map[], {})

  const LIMIT := 200000

  /** The hash a log ends in; an empty one ends in the genesis value. */
  function Head(events: seq<Row>): string {
    if events == [] || events[|events| - 1].Malformed? then GENESIS else events[|events| - 1].currentHash
  }

  function EventKey(b: Binding, signal: string, state: Phase): string {
    b.digest(b.runId + signal + Name(state))
  }

  function PhaseOf(log: Log, signal: string): Option<Phase> {
    if signal in log.states then Some(log.states[signal]) else None
  }

  /** The row's body: the log's own columns, and the caller's values over the defaults. */
  function BodyOf(b: Binding, log: Log, signal: string, state: Phase, at: int, values: map<Column, Value>): Body {
    Body(Columns(EventKey(b, signal, state), b.runId, signal, b.qualification, b.risk, b.executionVersion,
                 b.executionPolicy, b.symbol, b.strategyId, b.strategyVersion, b.scope,
                 b.digest(b.runId + signal), at, PhaseOf(log, signal), state, Head(log.events)),
         DEFAULTS + values)
  }

  function Sealed(b: Binding, body: Body): Row {
    Row(body, b.sha(body))
  }

  /** Is the event no earlier than the last one recorded? */
  predicate InTime(events: seq<Row>, at: int) {
    events == [] || (events[|events| - 1].Row? && events[|events| - 1].body.columns.timestamp <= at)
  }

  function Emitted(b: Binding, log: Log, signal: string, state: Phase, at: int, values: map<Column, Value>): Result<Log> {
    var key := EventKey(b, signal, state);
    if state !in Transitions(PhaseOf(log, signal)) then Err("INVALID_OR_REPEATED_PAPER_TRANSITION")
    else if key in log.keys || |log.events| >= LIMIT then Err("PAPER_IDEMPOTENCY_OR_RESOURCE_LIMIT")
    else if !InTime(log.events, at) then Err("NON_CHRONOLOGICAL_PAPER_EVENT")
    else Ok(Log(log.events + [Sealed(b, BodyOf(b, log, signal, state, at, values))],
                log.states[signal := state], log.keys + {key}))
  }

  /** Re-emitting one recorded row, and insisting on getting the same row. */
  function Reemitted(b: Binding, log: Log, row: Row): Result<Log> {
    if row.Malformed? then Err("MALFORMED_PAPER_EVENT")
    else
      var c := row.body.columns;
      var next :- Emitted(b, log, c.signal, c.state, c.timestamp, row.body.values);
      if next.events[|next.events| - 1] != row then Err("PAPER_AUDIT_TAMPERED") else Ok(next)
  }

  function Replayed(b: Binding, events: seq<Row>): Result<Log> {
    if events == [] then Ok(EMPTY)
    else
      var log :- Replayed(b, events[..|events| - 1]);
      Reemitted(b, log, events[|events| - 1])
  }

  /** A log is genuine when its own replay reproduces it. */
  ghost predicate Genuine(b: Binding, log: Log) {
    Replayed(b, log.events) == Ok(log)
  }

  // ----- round trip: replay accepts whatever was emitted -----

  /** Emitting to a genuine log leaves a genuine log. */
  lemma {:induction false} EmittedStaysGenuine(b: Binding, log: Log, signal: string, state: Phase, at: int, values: map<Column, Value>)
    requires Genuine(b, log)
    requires Emitted(b, log, signal, state, at, values).Ok?
    ensures Genuine(b, Emitted(b, log, signal, state, at, values).value)
  {
    hide Emitted, Reemitted;
    var next := Emitted(b, log, signal, state, at, values).value;
    EmittedReemits(b, log, signal, state, at, values);
    assert next.events[..|next.events| - 1] == log.events;
  }

  /** Re-emitting the row just emitted gives the same log. */
  lemma {:induction false} EmittedReemits(b: Binding, log: Log, signal: string, state: Phase, at: int, values: map<Column, Value>)
    requires Emitted(b, log, signal, state, at, values).Ok?
    ensures
      var next := Emitted(b, log, signal, state, at, values).value;
      && |next.events| == |log.events| + 1 && next.events[..|log.events|] == log.events
      && Reemitted(b, log, next.events[|log.events|]) == Ok(next)
  {
    DefaultsTwice(values);
    hide EventKey, Transitions, DEFAULTS, Head;
  }

  lemma {:induction false} DefaultsTwice(values: map<Column, Value>)
    ensures DEFAULTS + (DEFAULTS + values) == DEFAULTS + values
  {
  }

  // ----- tamper evidence -----

  /** An accepted log is its accepted beginning and a row sealed over the beginning's hash. */
  lemma {:induction false} AcceptedRowsChain(b: Binding, events: seq<Row>)
    requires events != [] && Replayed(b, events).Ok?
    ensures Replayed(b, events[..|events| - 1]).Ok?
    ensures
      var row := events[|events| - 1];
      row.Row? && row.currentHash == b.sha(row.body) && row.body.columns.previousHash == Head(events[..|events| - 1])
  {
    hide Emitted, Head;
    var before := events[..|events| - 1];
    ReplayedEvents(b, before);
    ReemittedRow(b, Replayed(b, before).value, events[|events| - 1]);
  }

  lemma {:induction false} ReemittedRow(b: Binding, log: Log, row: Row)
    requires Reemitted(b, log, row).Ok?
    ensures row.Row? && row.currentHash == b.sha(row.body) && row.body.columns.previousHash == Head(log.events)
    ensures Reemitted(b, log, row).value.events == log.events + [row]
  {
    hide EventKey, Transitions;
  }

  lemma {:induction false} ReplayedEvents(b: Binding, events: seq<Row>)
    requires Replayed(b, events).Ok?
    ensures Replayed(b, events).value.events == events
  {
    hide EventKey, Transitions, BodyOf;
    if events != [] { ReplayedEvents(b, events[..|events| - 1]); }
  }

  /** Two accepted logs that end in the same hash are the same log: nothing can be altered, dropped,
      added or reordered anywhere without changing the final hash. */
  lemma {:induction false} FinalHashDeterminesLog(b: Binding, xs: seq<Row>, ys: seq<Row>)
    requires NoForgery(b, xs, ys)
    requires Replayed(b, xs).Ok? && Replayed(b, ys).Ok?
    requires Head(xs) == Head(ys)
    ensures xs == ys
  {
    hide Replayed;
    if xs != [] { AcceptedRowsChain(b, xs); }
    if ys != [] { AcceptedRowsChain(b, ys); }
    if xs != [] && ys != [] {
      var x, y := xs[|xs| - 1], ys[|ys| - 1];
      assert x in xs && y in ys && b.sha(x.body) == b.sha(y.body);
      FinalHashDeterminesLog(b, xs[..|xs| - 1], ys[..|ys| - 1]);
      assert xs == xs[..|xs| - 1] + [x] && ys == ys[..|ys| - 1] + [y];
    }
  }

  // ----- the idempotency check is implied by the transitions -----

  /** Three characters near the end tell the phases' names apart. */
  function Mark(p: Phase): seq<char> {
    match p
    case SIGNAL_RECEIVED => ['E', 'I', 'V']
    case ELIGIBILITY_CHECKED => ['E', 'C', 'K']
    case RISK_APPROVED => ['R', 'O', 'V']
    case PAPER_ORDER_CREATED => ['E', 'A', 'T']
    case PAPER_ORDER_ACCEPTED => ['E', 'P', 'T']
    case PAPER_ORDER_REJECTED => ['E', 'C', 'T']
    case PAPER_CANCELLED => ['E', 'L', 'L']
    case PAPER_FILLED => ['I', 'L', 'L']
    case PAPER_POSITION_OPEN => ['_', 'O', 'P']
    case PAPER_EXIT_PENDING => ['N', 'D', 'I']
    case PAPER_POSITION_CLOSED => ['L', 'O', 'S']
    case PAPER_HALTED => ['A', 'L', 'T']
  }

  lemma {:induction false} NameMark(p: Phase)
    ensures |Name(p)| >= 5
    ensures Name(p)[|Name(p)| - 5] == Mark(p)[0] && Name(p)[|Name(p)| - 4] == Mark(p)[1] && Name(p)[|Name(p)| - 3] == Mark(p)[2]
  {
  }

  /** No name is the tail of another, so a text decodes into at most one signal and phase. */
  lemma {:induction false} NamesAreSuffixFree(p: Phase, q: Phase, x: string, y: string)
    requires x + Name(p) == y + Name(q)
    ensures p == q && x == y
  {
    NameMark(p);
    NameMark(q);
    var s, t := x + Name(p), y + Name(q);
    assert p == q by {
      hide Name;
      assert s[|s| - 5] == Name(p)[|Name(p)| - 5] && t[|t| - 5] == Name(q)[|Name(q)| - 5];
      assert s[|s| - 4] == Name(p)[|Name(p)| - 4] && t[|t| - 4] == Name(q)[|Name(q)| - 4];
      assert s[|s| - 3] == Name(p)[|Name(p)| - 3] && t[|t| - 3] == Name(q)[|Name(q)| - 3];
    }
    hide Name, Mark;
    assert x == s[..|x|] && y == t[..|y|];
  }

  /** Every key was issued for a phase its signal has since reached or passed. */
  ghost predicate KeysExplained(b: Binding, log: Log) {
    forall key :: key in log.keys ==> Explained(b, log, key)
  }

  ghost predicate Explained(b: Binding, log: Log, key: string) {
    exists signal, state :: Issued(b, log, key, signal, state)
  }

  ghost predicate Issued(b: Binding, log: Log, key: string, signal: string, state: Phase) {
    key == EventKey(b, signal, state) && signal in log.states && Rank(state) <= Rank(log.states[signal])
  }

  lemma {:induction false} EventKeysDiffer(b: Binding, s: string, t: string, p: Phase, q: Phase)
    requires CollisionFree(b) && EventKey(b, s, p) == EventKey(b, t, q)
    ensures s == t && p == q
  {
    assert b.runId + s + Name(p) == b.runId + t + Name(q);
    NamesAreSuffixFree(p, q, b.runId + s, b.runId + t);
    assert s == (b.runId + s)[|b.runId|..] && t == (b.runId + t)[|b.runId|..];
  }

  /** A permitted transition never meets its own key: the idempotency test cannot fire. */
  lemma {:induction false} IdempotencyImplied(b: Binding, log: Log, signal: string, state: Phase)
    requires CollisionFree(b) && KeysExplained(b, log)
    requires state in Transitions(PhaseOf(log, signal))
    ensures EventKey(b, signal, state) !in log.keys
  {
    var key := EventKey(b, signal, state);
    TransitionsClimb(PhaseOf(log, signal), state);
    forall s, p | Issued(b, log, key, s, p) ensures false {
      EventKeysDiffer(b, s, signal, p, state);
    }
    assert !Explained(b, log, key);
  }

  lemma {:induction false} EmittedKeepsKeys(b: Binding, log: Log, signal: string, state: Phase, at: int, values: map<Column, Value>)
    requires KeysExplained(b, log) && Emitted(b, log, signal, state, at, values).Ok?
    ensures KeysExplained(b, Emitted(b, log, signal, state, at, values).value)
  {
    hide BodyOf, Sealed, EventKey;
    var next := Emitted(b, log, signal, state, at, values).value;
    TransitionsClimb(PhaseOf(log, signal), state);
    forall key | key in next.keys ensures Explained(b, next, key) {
      if key in log.keys {
        assert Explained(b, log, key);
        var s, p :| Issued(b, log, key, s, p);
        assert Issued(b, next, key, s, p);
      } else {
        assert Issued(b, next, key, signal, state);
      }
    }
  }

  /** Genuine logs explain all their keys. */
  lemma {:induction false} ReplayedKeys(b: Binding, events: seq<Row>)
    requires Replayed(b, events).Ok?
    ensures KeysExplained(b, Replayed(b, events).value)
  {
    hide KeysExplained, EventKey, BodyOf, Transitions;
    if events == [] {
      NoKeys(b);
    } else {
      var log, c := Replayed(b, events[..|events| - 1]).value, events[|events| - 1].body;
      ReplayedKeys(b, events[..|events| - 1]);
      EmittedKeepsKeys(b, log, c.columns.signal, c.columns.state, c.columns.timestamp, c.values);
    }
  }

  lemma {:induction false} NoKeys(b: Binding)
    ensures KeysExplained(b, EMPTY)
  {
  }

  /** An emission succeeds exactly when its transition is allowed, room is left and time moves on:
      the idempotency test never decides. */
  lemma {:induction false} EmissionSucceedsExactly(b: Binding, log: Log, signal: string, state: Phase, at: int, values: map<Column, Value>)
    requires CollisionFree(b) && Genuine(b, log)
    ensures Emitted(b, log, signal, state, at, values).Ok? <==>
      state in Transitions(PhaseOf(log, signal)) && |log.events| < LIMIT && InTime(log.events, at)
  {
    hide KeysExplained, EventKey, BodyOf, Transitions, Replayed;
    ReplayedKeys(b, log.events);
    if state in Transitions(PhaseOf(log, signal)) { IdempotencyImplied(b, log, signal, state); }
  }

  // ----- the log as an object whose fields grow -----

  class AuditLog {
    const b: Binding
    var events: seq<Row>
    var states: map<string, Phase>
    var keys: set<string>

    function Contents(): Log
      reads this
    {
      Log(events, states, keys)
    }

    ghost predicate Valid()
      reads this
    {
      Genuine(b, Contents())
    }

    constructor (binding: Binding)
      ensures b == binding && Contents() == EMPTY && Valid()
    {
      b, events, states, keys := binding, [], map[], {};
    }

    /** The row to append: the log's own columns, and the caller's values over the defaults. */
    method Compose(signal: string, state: Phase, at: int, values: map<Column, Value>, key: string, previous: Option<Phase>)
      returns (body: Body)
      requires key == EventKey(b, signal, state) && previous == PhaseOf(Contents(), signal)
      ensures body == BodyOf(b, Contents(), signal, state, at, values)
    {
      body := Body(
        Columns(key, b.runId, signal, b.qualification, b.risk, b.executionVersion, b.executionPolicy, b.symbol,
                b.strategyId, b.strategyVersion, b.scope, b.digest(b.runId + signal), at, previous, state,
                if events == [] || events[|events| - 1].Malformed? then GENESIS else events[|events| - 1].currentHash),
        DEFAULTS + values);
    }

    /** Append one event, or refuse it with the error raised and change nothing. */
    method Emit(signal: string, state: Phase, at: int, values: map<Column, Value>) returns (error: Option<string>)
      requires Valid()
      modifies this
      ensures Valid()
      ensures
        match Emitted(b, old(Contents()), signal, state, at, values)
        case Ok(log) => error.None? && Contents() == log
        case Err(e) => error == Some(e) && Contents() == old(Contents())
    {
      hide Replayed, Transitions, Genuine, BodyOf, Name;
      var previous := if signal in states then Some(states[signal]) else None;
      if state !in Transitions(previous) { return Some("INVALID_OR_REPEATED_PAPER_TRANSITION"); }
      var key := b.digest(b.runId + signal + Name(state));
      if key in keys || |events| >= LIMIT { return Some("PAPER_IDEMPOTENCY_OR_RESOURCE_LIMIT"); }
      if !InTime(events, at) { return Some("NON_CHRONOLOGICAL_PAPER_EVENT"); }
      EmittedStaysGenuine(b, Contents(), signal, state, at, values);
      var body := Compose(signal, state, at, values, key, previous);
      events := events + [Row(body, b.sha(body))];
      states := states[signal := state];
      keys := keys + {key};
      error := None;
    }

    /** Rebuild a log from recorded rows, refusing any row that re-emission does not reproduce. */
    static method Replay(binding: Binding, recorded: seq<Row>) returns (error: Option<string>, audit: AuditLog)
      ensures fresh(audit) && audit.b == binding && audit.Valid()
      ensures
        match Replayed(binding, recorded)
        case Ok(log) => error.None? && audit.Contents() == log && audit.events == recorded
        case Err(e) => error == Some(e)
    {
      hide Emitted, Replayed;
      audit := new AuditLog(binding);
      ReplayedNothing(binding);
      for i := 0 to |recorded|
        invariant audit.b == binding && audit.Valid() && fresh(audit)
        invariant Replayed(binding, recorded[..i]) == Ok(audit.Contents())
      {
        ReplayedStep(binding, recorded, i);
        var row := recorded[i];
        if row.Malformed? { return Some("MALFORMED_PAPER_EVENT"), audit; }
        var c := row.body.columns;
        ghost var before := audit.Contents();
        error := audit.Emit(c.signal, c.state, c.timestamp, row.body.values);
        if error.Some? { return; }
        EmittedAppends(binding, before, c.signal, c.state, c.timestamp, row.body.values);
        if audit.events[|audit.events| - 1] != row { return Some("PAPER_AUDIT_TAMPERED"), audit; }
      }
      assert recorded[..|recorded|] == recorded;
      ReplayedEvents(binding, recorded);
      error := None;
    }
  }

  lemma {:induction false} ReplayedNothing(b: Binding)
    ensures Replayed(b, []) == Ok(EMPTY)
  {
  }

  lemma {:induction false} EmittedAppends(b: Binding, log: Log, signal: string, state: Phase, at: int, values: map<Column, Value>)
    requires Emitted(b, log, signal, state, at, values).Ok?
    ensures |Emitted(b, log, signal, state, at, values).value.events| == |log.events| + 1
  {
    hide BodyOf, Transitions;
  }

  /** One more row: its re-emission decides, and an error is final. */
  lemma {:induction false} ReplayedStep(b: Binding, events: seq<Row>, i: nat)
    requires i < |events| && Replayed(b, events[..i]).Ok?
    ensures Replayed(b, events[..i + 1]) == Reemitted(b, Replayed(b, events[..i]).value, events[i])
    ensures Reemitted(b, Replayed(b, events[..i]).value, events[i]).Err? ==>
      Replayed(b, events) == Err(Reemitted(b, Replayed(b, events[..i]).value, events[i]).error)
  {
    hide Reemitted;
    assert events[..i + 1][..i] == events[..i];
    if Replayed(b, events[..i + 1]).Err? { ReplayFails(b, events, i + 1); }
  }

  lemma {:induction false} ReplayFails(b: Binding, events: seq<Row>, i: nat)
    requires i <= |events| && Replayed(b, events[..i]).Err?
    ensures Replayed(b, events) == Err(Replayed(b, events[..i]).error)
  {
    hide Reemitted;
    if i == |events| {
      assert events[..i] == events;
    } else {
      var before := events[..|events| - 1];
      assert before[..i] == events[..i];
      ReplayFails(b, before, i);
    }
  }
}
