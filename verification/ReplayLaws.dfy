/** Which recorded logs replay accepts, told row by row without replaying. */
module ReplayLaws {
  import opened Wrappers
  import opened Audit
  import opened Lifecycles

  /** The event is named and bound as the log names and binds its events. */
  ghost predicate Bound(b: Binding, c: Columns) {
    && c.eventId == b.digest(b.runId + c.signal + Name(c.state)) && c.orderId == b.digest(b.runId + c.signal)
    && c.runId == b.runId && c.qualification == b.qualification && c.risk == b.risk
    && c.executionVersion == b.executionVersion && c.executionPolicy == b.executionPolicy && c.symbol == b.symbol
    && c.strategyId == b.strategyId && c.strategyVersion == b.strategyVersion && c.scope == b.scope
  }

  /** The event follows on those before it: a permitted step of its signal, no earlier than the last, of a new name, and
      linked to the hash of the last. */
  ghost predicate Continues(events: seq<Row>, c: Columns) {
    && c.previousState == LastOf(PathOf(events, c.signal)) && c.state in Transitions(c.previousState)
    && |events| < 200000
    && (forall row :: row in events ==> row.Row? && row.body.columns.eventId != c.eventId)
    && (if events == [] then c.previousHash == GENESIS
        else var last := events[|events| - 1];
             last.Row? && last.body.columns.timestamp <= c.timestamp && c.previousHash == last.currentHash)
  }

  /** A row that may follow: sealed by its own hash, with every column that has a default. */
  ghost predicate MayFollow(b: Binding, events: seq<Row>, row: Row) {
    && row.Row? && Bound(b, row.body.columns) && Continues(events, row.body.columns)
    && row.currentHash == b.sha(row.body)
    && {PRICE, QUANTITY, FEES, CASH, POSITION, REJECTION} <= row.body.values.Keys
  }

  ghost predicate Keyed(events: seq<Row>, keys: set<string>) {
    && (forall row :: row in events ==> row.Row? && row.body.columns.eventId in keys)
    && (forall key :: key in keys ==> exists row :: row in events && row.Row? && row.body.columns.eventId == key)
  }

  lemma {:induction false} KeysAre(b: Binding, events: seq<Row>)
    requires Replayed(b, events).Ok?
    ensures Keyed(events, Replayed(b, events).value.keys)
  {
    if events != [] {
      var before, row := events[..|events| - 1], events[|events| - 1];
      KeysAre(b, before);
      ReplayUnfolds(b, events);
      RowKey(b, Replayed(b, before).value, row);
      hide Replayed, Reemitted;
      assert events == before + [row];
      var keys, next := Replayed(b, before).value.keys, Replayed(b, events).value.keys;
      forall key | key in next ensures exists r :: r in events && r.Row? && r.body.columns.eventId == key {
        if key in keys {
          var r :| r in before && r.Row? && r.body.columns.eventId == key;
          assert r in events;
        } else {
          assert row in events;
        }
      }
    }
  }

  lemma {:induction false} ReplayUnfolds(b: Binding, events: seq<Row>)
    requires events != []
    ensures
      var before := Replayed(b, events[..|events| - 1]);
      Replayed(b, events).Ok? <==> before.Ok? && Reemitted(b, before.value, events[|events| - 1]).Ok?
    ensures Replayed(b, events).Ok? ==> Replayed(b, events) == Reemitted(b, Replayed(b, events[..|events| - 1]).value, events[|events| - 1])
  {
    hide Reemitted;
  }

  lemma {:induction false} RowKey(b: Binding, log: Log, row: Row)
    requires Reemitted(b, log, row).Ok?
    ensures row.Row? && Reemitted(b, log, row).value.keys == log.keys + {row.body.columns.eventId}
  {
    hide EventKey, Transitions;
  }

  /** Re-emission gives the row back exactly when the row may follow. */
  lemma {:induction false} ReemitsExactly(b: Binding, log: Log, row: Row)
    requires Keyed(log.events, log.keys)
    requires forall signal :: PhaseOf(log, signal) == LastOf(PathOf(log.events, signal))
    ensures Reemitted(b, log, row).Ok? <==> MayFollow(b, log.events, row)
  {
    if row.Row? {
      var c := row.body.columns;
      NewKey(log.events, log.keys, EventKey(b, c.signal, c.state));
      SameValues(row.body.values);
      InTimeExactly(log.events, c);
      HeadOf(log.events);
      hide PathOf, Transitions, Name, DEFAULTS, Keyed, InTime, Head, PhaseOf, LastOf;
      if Reemitted(b, log, row).Ok? { Follows(b, log, row); }
      if MayFollow(b, log.events, row) { Followed(b, log, row); }
    }
  }

  lemma {:induction false} NewKey(events: seq<Row>, keys: set<string>, key: string)
    requires Keyed(events, keys)
    ensures key !in keys <==> forall row :: row in events ==> row.Row? && row.body.columns.eventId != key
  {
  }

  lemma {:induction false} SameValues(values: map<Column, Value>)
    ensures DEFAULTS + values == values <==> {PRICE, QUANTITY, FEES, CASH, POSITION, REJECTION} <= values.Keys
  {
    assert DEFAULTS.Keys == {PRICE, QUANTITY, FEES, CASH, POSITION, REJECTION};
    if DEFAULTS + values == values { assert (DEFAULTS + values).Keys == DEFAULTS.Keys + values.Keys; }
  }

  lemma {:induction false} InTimeExactly(events: seq<Row>, c: Columns)
    ensures InTime(events, c.timestamp) <==> events == [] || (events[|events| - 1].Row? && events[|events| - 1].body.columns.timestamp <= c.timestamp)
  {
  }

  lemma {:induction false} HeadOf(events: seq<Row>)
    ensures events == [] ==> Head(events) == GENESIS
    ensures events != [] && events[|events| - 1].Row? ==> Head(events) == events[|events| - 1].currentHash
  {
  }

  lemma {:induction false} Follows(b: Binding, log: Log, row: Row)
    requires row.Row? && Reemitted(b, log, row).Ok?
    ensures
      var c := row.body.columns;
      && c.state in Transitions(PhaseOf(log, c.signal)) && EventKey(b, c.signal, c.state) !in log.keys && |log.events| < 200000
      && InTime(log.events, c.timestamp)
      && row.body.columns == BodyOf(b, log, c.signal, c.state, c.timestamp, row.body.values).columns
      && DEFAULTS + row.body.values == row.body.values && row.currentHash == b.sha(row.body)
  {
    hide Transitions, EventKey, DEFAULTS, Head, InTime, PhaseOf;
  }

  lemma {:induction false} Followed(b: Binding, log: Log, row: Row)
    requires row.Row? && MayFollow(b, log.events, row)
    requires PhaseOf(log, row.body.columns.signal) == LastOf(PathOf(log.events, row.body.columns.signal))
    requires EventKey(b, row.body.columns.signal, row.body.columns.state) !in log.keys
    requires DEFAULTS + row.body.values == row.body.values && InTime(log.events, row.body.columns.timestamp)
    requires log.events == [] ==> Head(log.events) == GENESIS
    requires log.events != [] ==> Head(log.events) == log.events[|log.events| - 1].currentHash
    ensures Reemitted(b, log, row).Ok?
  {
    hide Transitions, DEFAULTS, Head, InTime, PhaseOf, PathOf, Name, LastOf;
    var c := row.body.columns;
    assert BodyOf(b, log, c.signal, c.state, c.timestamp, row.body.values) == row.body;
  }

  /** A recorded log is accepted exactly when every row may follow the rows before it. */
  lemma {:induction false} AcceptedExactly(b: Binding, events: seq<Row>)
    ensures Replayed(b, events).Ok? <==> forall n :: 0 <= n < |events| ==> MayFollow(b, events[..n], events[n])
  {
    hide *;
    if events == [] {
      NothingRefused(b);
    } else {
      var before, row := events[..|events| - 1], events[|events| - 1];
      AcceptedExactly(b, before);
      forall n | 0 <= n < |before| ensures before[..n] == events[..n] && before[n] == events[n] { }
      ReplayUnfolds(b, events);
      if Replayed(b, before).Ok? {
        KeysAre(b, before);
        ReplayedEvents(b, before);
        forall signal ensures PhaseOf(Replayed(b, before).value, signal) == LastOf(PathOf(before, signal)) { SignalsLive(b, before, signal); }
        ReemitsExactly(b, Replayed(b, before).value, row);
      }
    }
  }

  lemma {:induction false} NothingRefused(b: Binding)
    ensures Replayed(b, []).Ok?
  {
  }
}
