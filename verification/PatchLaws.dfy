/** When a diff is refused: exactly when some hunk's old side does not stand where it lands, or lands too early. */
module PatchLaws {
  import opened Wrappers
  import opened Patch

  /** The lines hold a text from a position on. */
  ghost predicate Stands(lines: seq<string>, at: nat, side: seq<string>) {
    side == [] || (at + |side| <= |lines| && lines[at..at + |side|] == side)
  }

  /** Each hunk lands at or after the end of the one before, on its old side. */
  ghost predicate LandInOrder(lines: seq<string>, cursor: nat, hs: seq<Hunk>)
    decreases |hs|
  {
    hs == [] ||
    (cursor <= Landed(hs[0]) && Stands(lines, Landed(hs[0]), OldSide(hs[0].edits)) &&
     LandInOrder(lines, Landed(hs[0]) + |OldSide(hs[0].edits)|, hs[1..]))
  }

  lemma {:induction false} StandsOpens(lines: seq<string>, at: nat, es: seq<Edit>)
    requires es != []
    ensures Stands(lines, at, OldSide(es)) <==>
      (es[0].Insert? || (at < |lines| && lines[at] == es[0].text)) && Stands(lines, at + Moved(es[0]), OldSide(es[1..]))
  {
    var side, rest := OldSide(es), OldSide(es[1..]);
    if !es[0].Insert? {
      assert side == [es[0].text] + rest && side[1..] == rest;
      if Stands(lines, at, side) {
        assert lines[at] == lines[at..at + |side|][0];
        assert lines[at + 1..at + 1 + |rest|] == lines[at..at + |side|][1..];
      }
      if at < |lines| && lines[at] == es[0].text && Stands(lines, at + 1, rest) {
        assert lines[at..at + |side|] == [lines[at]] + lines[at + 1..at + |side|];
      }
    }
  }

  lemma {:induction false} EditRefused(lines: seq<string>, cursor: nat, result: seq<string>, e: Edit, rest: seq<string>)
    requires !e.Insert? && !(cursor < |lines| && lines[cursor] == e.text)
    ensures Applying(lines, cursor, result, [EditLine(e)] + rest) == Err("PATCH_CONTEXT")
  {
    EditRead(e);
    hide Classify, EditLine;
    var patch := [EditLine(e)] + rest;
    assert patch[0] == EditLine(e);
  }

  /** The lines of a hunk are accepted exactly when its old side stands at the cursor. */
  lemma {:induction false} EditsDecide(lines: seq<string>, cursor: nat, result: seq<string>, es: seq<Edit>, rest: seq<string>)
    ensures Applying(lines, cursor, result, EditLines(es) + rest) ==
      if Stands(lines, cursor, OldSide(es)) then Applying(lines, cursor + |OldSide(es)|, result + NewSide(es), rest)
      else Err("PATCH_CONTEXT")
    decreases |es|
  {
    hide *;
    if es == [] {
      NoEdits(result, rest);
      NothingStands(lines, cursor);
    } else {
      EditsOpen(es, rest);
      StandsOpens(lines, cursor, es);
      if es[0].Insert? || (cursor < |lines| && lines[cursor] == es[0].text) {
        EditApplies(lines, cursor, result, es[0], EditLines(es[1..]) + rest);
        EditsDecide(lines, cursor + Moved(es[0]), result + Added(es[0]), es[1..], rest);
        assert (result + Added(es[0])) + NewSide(es[1..]) == result + (Added(es[0]) + NewSide(es[1..]));
      } else {
        EditRefused(lines, cursor, result, es[0], EditLines(es[1..]) + rest);
      }
    }
  }

  lemma {:induction false} NothingStands(lines: seq<string>, at: nat)
    ensures Stands(lines, at, [])
  {
  }

  lemma {:induction false} HunkDecides(lines: seq<string>, cursor: nat, result: seq<string>, hs: seq<Hunk>, shift: int)
    requires hs != []
    ensures
      var (size, newer) := (|OldSide(hs[0].edits)|, |NewSide(hs[0].edits)|);
      Applying(lines, cursor, result, Body(hs, shift)) ==
        if Landed(hs[0]) < cursor then Err("PATCH_ORDER")
        else if !Stands(lines, Landed(hs[0]), OldSide(hs[0].edits)) then Err("PATCH_CONTEXT")
        else Applying(lines, Landed(hs[0]) + size, result + Between(lines, cursor, Landed(hs[0])) + NewSide(hs[0].edits),
                      Body(hs[1..], shift + newer - size))
  {
    hide *;
    var h, size, newer := hs[0], |OldSide(hs[0].edits)|, |NewSide(hs[0].edits)|;
    var rest := Body(hs[1..], shift + newer - size);
    BodyOpens(hs, shift);
    HeaderApplies(lines, cursor, result, h.start, size, NewStart(h, shift), newer, EditLines(h.edits) + rest);
    LandedIs(h);
    if cursor <= Landed(h) { EditsDecide(lines, Landed(h), result + Between(lines, cursor, Landed(h)), h.edits, rest); }
  }

  lemma {:induction false} LandedIs(h: Hunk)
    ensures Landed(h) == FirstLine(SideNumber(h.start, |OldSide(h.edits)|))
  {
  }

  lemma {:induction false} HunksDecide(lines: seq<string>, cursor: nat, result: seq<string>, hs: seq<Hunk>, shift: int)
    ensures Applying(lines, cursor, result, Body(hs, shift)).Ok? <==> LandInOrder(lines, cursor, hs)
    ensures Applying(lines, cursor, result, Body(hs, shift)).Err? ==>
      Applying(lines, cursor, result, Body(hs, shift)).error in {"PATCH_ORDER", "PATCH_CONTEXT"}
    decreases |hs|
  {
    hide *;
    LandsOpens(lines, cursor, hs);
    if hs == [] {
      NothingRefused(lines, cursor, result, shift);
    } else {
      HunkDecides(lines, cursor, result, hs, shift);
      if cursor <= Landed(hs[0]) && Stands(lines, Landed(hs[0]), OldSide(hs[0].edits)) {
        var size, newer := |OldSide(hs[0].edits)|, |NewSide(hs[0].edits)|;
        HunksDecide(lines, Landed(hs[0]) + size, result + Between(lines, cursor, Landed(hs[0])) + NewSide(hs[0].edits), hs[1..],
                    shift + newer - size);
      }
    }
  }

  lemma {:induction false} LandsOpens(lines: seq<string>, cursor: nat, hs: seq<Hunk>)
    ensures LandInOrder(lines, cursor, hs) <==>
      hs == [] ||
      (cursor <= Landed(hs[0]) && Stands(lines, Landed(hs[0]), OldSide(hs[0].edits)) &&
       LandInOrder(lines, Landed(hs[0]) + |OldSide(hs[0].edits)|, hs[1..]))
  {
    hide Stands, Landed, OldSide;
  }

  lemma {:induction false} NothingRefused(lines: seq<string>, cursor: nat, result: seq<string>, shift: int)
    ensures Applying(lines, cursor, result, Body([], shift)).Ok?
  {
  }

  /** The diff of a script is accepted exactly when its hunks land in order, each on its old side; otherwise it is refused
      for its order or its context. */
  lemma {:induction false} AcceptedExactly(lines: seq<string>, hs: seq<Hunk>)
    ensures Applied(lines, Diff(hs)).Ok? <==> LandInOrder(lines, 0, hs)
    ensures Applied(lines, Diff(hs)).Err? ==> Applied(lines, Diff(hs)).error in {"PATCH_ORDER", "PATCH_CONTEXT"}
  {
    HunksDecide(lines, 0, [], hs, 0);
    assert Diff(hs)[2..] == Body(hs, 0);
    hide Applying, Body, LandInOrder;
  }
}
