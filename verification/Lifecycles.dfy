/** The lives a signal can have in the paper log. */
module Lifecycles {
  import opened Wrappers
  import opened Audit

  /** Every way a signal's life can end: a position is opened only by way of approval, creation, acceptance and a fill. */
  function Lifecycle(k: nat): seq<Phase>
    requires k < 10
  {
    var checked := [SIGNAL_RECEIVED, ELIGIBILITY_CHECKED];
    var created := [SIGNAL_RECEIVED, ELIGIBILITY_CHECKED, RISK_APPROVED, PAPER_ORDER_CREATED];
    var accepted := created + [PAPER_ORDER_ACCEPTED];
    var holding := accepted + [PAPER_FILLED, PAPER_POSITION_OPEN];
    if k == 0 then [SIGNAL_RECEIVED, PAPER_HALTED]
    else if k == 1 then checked + [PAPER_ORDER_REJECTED]
    else if k == 2 then checked + [PAPER_HALTED]
    else if k == 3 then created + [PAPER_ORDER_REJECTED]
    else if k == 4 then created + [PAPER_CANCELLED]
    else if k == 5 then accepted + [PAPER_CANCELLED]
    else if k == 6 then accepted + [PAPER_HALTED]
    else if k == 7 then holding + [PAPER_HALTED]
    else if k == 8 then holding + [PAPER_EXIT_PENDING, PAPER_POSITION_CLOSED]
    else holding + [PAPER_EXIT_PENDING, PAPER_HALTED]
  }

  /** The beginning of some life. */
  predicate Lives(path: seq<Phase>) { exists k: nat :: k < 10 && path <= Lifecycle(k) }

  function LastOf(path: seq<Phase>): Option<Phase> { if path == [] then None else Some(path[|path| - 1]) }

  /** The phases of a signal's rows, in order. */
  function PathOf(events: seq<Row>, signal: string): seq<Phase> {
    if events == [] then []
    else
      var row := events[|events| - 1];
      PathOf(events[..|events| - 1], signal) + if row.Row? && row.body.columns.signal == signal then [row.body.columns.state] else []
  }

  /** A life goes on exactly by the permitted transitions. */
  lemma {:induction false} LivesByTransitions(path: seq<Phase>, next: Phase)
    requires Lives(path)
    ensures next in Transitions(LastOf(path)) <==> Lives(path + [next])
  {
    var k: nat :| k < 10 && path <= Lifecycle(k);
    if next in Transitions(LastOf(path)) { GoesOn(path, k, next); }
    if Lives(path + [next]) {
      var j: nat :| j < 10 && path + [next] <= Lifecycle(j);
      Permitted(j, |path|);
      assert path == Lifecycle(j)[..|path|] && next == Lifecycle(j)[|path|];
    }
  }

  /** Every step of every life is permitted. */
  lemma {:induction false} Permitted(k: nat, n: nat)
    requires k < 10 && n < |Lifecycle(k)|
    ensures Lifecycle(k)[n] in Transitions(LastOf(Lifecycle(k)[..n]))
  {
    assert n > 0 ==> LastOf(Lifecycle(k)[..n]) == Some(Lifecycle(k)[n - 1]);
  }

  /** Every permitted step continues into some life. */
  lemma {:induction false} GoesOn(path: seq<Phase>, k: nat, next: Phase)
    requires k < 10 && path <= Lifecycle(k) && next in Transitions(LastOf(path))
    ensures Lives(path + [next])
  {
    var j := Into(path, k, next);
    assert path + [next] <= Lifecycle(j);
  }

  /** A life that reaches the phase next after a beginning of life k. */
  lemma {:induction false} Into(path: seq<Phase>, k: nat, next: Phase) returns (j: nat)
    requires k < 10 && path <= Lifecycle(k) && next in Transitions(LastOf(path))
    ensures j < 10 && path + [next] <= Lifecycle(j)
  {
    hide *;
    if path == [] {
      NothingBefore();
      j := 0;
    } else if |path| <= 2 {
      j := IntoEarly(path, k, next);
    } else if |path| <= 4 {
      j := IntoOrder(path, k, next);
    } else if |path| == 5 {
      j := IntoAccepted(path, k, next);
    } else {
      j := IntoLate(path, k, next);
    }
  }

  lemma {:induction false} NothingBefore()
    ensures Transitions(LastOf([])) == {SIGNAL_RECEIVED} && [SIGNAL_RECEIVED] <= Lifecycle(0)
  {
  }

  lemma {:induction false} IntoEarly(path: seq<Phase>, k: nat, next: Phase) returns (j: nat)
    requires k < 10 && path <= Lifecycle(k) && next in Transitions(LastOf(path)) && 1 <= |path| <= 2
    ensures j < 10 && path + [next] <= Lifecycle(j)
  {
    assert LastOf(path) == Some(Lifecycle(k)[|path| - 1]);
    j := if next == PAPER_HALTED then (if |path| == 1 then 0 else 2) else if next == ELIGIBILITY_CHECKED || next == PAPER_ORDER_REJECTED then 1 else 8;
  }

  lemma {:induction false} IntoOrder(path: seq<Phase>, k: nat, next: Phase) returns (j: nat)
    requires k < 10 && path <= Lifecycle(k) && next in Transitions(LastOf(path)) && 3 <= |path| <= 4
    ensures j < 10 && path + [next] <= Lifecycle(j)
  {
    assert LastOf(path) == Some(Lifecycle(k)[|path| - 1]);
    j := if next == PAPER_ORDER_REJECTED then 3 else if next == PAPER_CANCELLED then 4 else 8;
  }

  lemma {:induction false} IntoAccepted(path: seq<Phase>, k: nat, next: Phase) returns (j: nat)
    requires k < 10 && path <= Lifecycle(k) && next in Transitions(LastOf(path)) && |path| == 5
    ensures j < 10 && path + [next] <= Lifecycle(j)
  {
    assert LastOf(path) == Some(Lifecycle(k)[|path| - 1]);
    j := if next == PAPER_HALTED then 6 else if next == PAPER_CANCELLED then 5 else 8;
  }

  lemma {:induction false} IntoLate(path: seq<Phase>, k: nat, next: Phase) returns (j: nat)
    requires k < 10 && path <= Lifecycle(k) && next in Transitions(LastOf(path)) && 6 <= |path|
    ensures j < 10 && path + [next] <= Lifecycle(j)
  {
    assert LastOf(path) == Some(Lifecycle(k)[|path| - 1]);
    j := if next == PAPER_HALTED then (if |path| == 7 then 7 else 9) else 8;
  }

  /** In every accepted log each signal's rows are the beginning of a life, and the state kept for it is the last of them. */
  lemma {:induction false} SignalsLive(b: Binding, events: seq<Row>, signal: string)
    requires Replayed(b, events).Ok?
    ensures Lives(PathOf(events, signal)) && PhaseOf(Replayed(b, events).value, signal) == LastOf(PathOf(events, signal))
  {
    hide *;
    if events == [] {
      BirthLives();
      NothingReplayed(b, signal);
    } else {
      var before, row := events[..|events| - 1], events[|events| - 1];
      LogOpens(b, events, signal);
      SignalsLive(b, before, signal);
      RowMoves(b, Replayed(b, before).value, row, signal);
      if row.body.columns.signal == signal {
        LivesByTransitions(PathOf(before, signal), row.body.columns.state);
        LastAdded(PathOf(before, signal), row.body.columns.state);
      }
    }
  }

  lemma {:induction false} NothingReplayed(b: Binding, signal: string)
    ensures PathOf([], signal) == [] && PhaseOf(Replayed(b, []).value, signal) == LastOf([])
  {
  }

  lemma {:induction false} LastAdded(path: seq<Phase>, p: Phase)
    ensures LastOf(path + [p]) == Some(p)
  {
  }

  lemma {:induction false} LogOpens(b: Binding, events: seq<Row>, signal: string)
    requires events != [] && Replayed(b, events).Ok?
    ensures
      var before, row := events[..|events| - 1], events[|events| - 1];
      && Replayed(b, before).Ok? && Reemitted(b, Replayed(b, before).value, row) == Replayed(b, events)
      && PathOf(events, signal) ==
         if row.Row? && row.body.columns.signal == signal then PathOf(before, signal) + [row.body.columns.state] else PathOf(before, signal)
  {
    hide Reemitted;
  }

  lemma {:induction false} BirthLives()
    ensures Lives([])
  {
    assert [] <= Lifecycle(0);
  }

  lemma {:induction false} RowMoves(b: Binding, log: Log, row: Row, signal: string)
    requires Reemitted(b, log, row).Ok?
    ensures row.Row?
    ensures
      var c, next := row.body.columns, Reemitted(b, log, row).value;
      if c.signal == signal then c.state in Transitions(PhaseOf(log, signal)) && PhaseOf(next, signal) == Some(c.state)
      else PhaseOf(next, signal) == PhaseOf(log, signal)
  {
    hide EventKey, Transitions, BodyOf;
  }
}
