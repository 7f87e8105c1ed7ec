// The width arithmetic shared by insertBeside and setSpan: taking columns off
// the widest neighbour, off the inserted tile itself, and handing slack out.
module Squeeze {
  import opened Common
  import opened Tiles

  // ---------- taking width off the neighbours ----------

  predicate CanShave(row: seq<Tile>, p: int, k: int)
    requires 0 <= k < |row|
  {
    k != p && row[k].span > MIN_SPAN
  }

  /**
   * The first of the widest tiles among the first n that may be shaved, -1 if
   * there is none: what filtering, stably sorting by falling span and taking
   * the head gives. Tile p is protected.
   */
  function Widest(row: seq<Tile>, p: int, n: nat): (w: int)
    requires n <= |row|
    ensures -1 <= w < n
    ensures w == -1 <==> forall k :: 0 <= k < n ==> !CanShave(row, p, k)
    ensures w >= 0 ==> CanShave(row, p, w)
    ensures w >= 0 ==> forall k :: 0 <= k < n && CanShave(row, p, k) ==> row[k].span <= row[w].span
    ensures w >= 0 ==> forall k :: 0 <= k < w && CanShave(row, p, k) ==> row[k].span < row[w].span
  {
    if n == 0 then -1
    else
      var w := Widest(row, p, n - 1);
      if CanShave(row, p, n - 1) && (w == -1 || row[n-1].span > row[w].span) then n - 1 else w
  }

  function Grow(row: seq<Tile>, k: nat, d: int): seq<Tile>
    requires k < |row|
  {
    row[k := row[k].(span := row[k].span + d)]
  }

  /** At most g rounds of shaving the widest neighbour of tile p. */
  function ShaveN(row: seq<Tile>, p: int, g: nat): (r: seq<Tile>)
    ensures |r| == |row|
    decreases g
  {
    var w := Widest(row, p, |row|);
    if Width(row) <= COLUMNS || g == 0 || w == -1 then row
    else ShaveN(Grow(row, w, -1), p, g - 1)
  }

  const SHAVE_CAP := 200

  /** The shaving loop of insertBeside and setSpan. */
  method ShaveNeighbours(row0: seq<Tile>, p: int) returns (row: seq<Tile>)
    ensures row == ShaveN(row0, p, SHAVE_CAP)
  {
    row := row0;
    var g := 0;
    while Width(row) > COLUMNS && g < 200
      invariant 0 <= g <= 200 && |row| == |row0|
      invariant ShaveN(row, p, 200 - g) == ShaveN(row0, p, SHAVE_CAP)
      decreases 200 - g
    {
      var w := Widest(row, p, |row|);
      if w == -1 {
        break;
      }
      row := Grow(row, w, -1);
      g := g + 1;
    }
  }

  /** The same without a cap. */
  ghost function Shave(row: seq<Tile>, p: int): (r: seq<Tile>)
    decreases Max(0, Width(row) - COLUMNS)
  {
    var w := Widest(row, p, |row|);
    if Width(row) <= COLUMNS || w == -1 then row
    else
      WidthUpdate(row, w, Grow(row, w, -1)[w]);
      Shave(Grow(row, w, -1), p)
  }

  lemma {:induction false} ShaveCap(row: seq<Tile>, p: int, g: nat)
    requires Width(row) <= COLUMNS + g
    ensures ShaveN(row, p, g) == Shave(row, p)
    decreases g
  {
    var w := Widest(row, p, |row|);
    if !(Width(row) <= COLUMNS || w == -1) {
      WidthUpdate(row, w, Grow(row, w, -1)[w]);
      ShaveCap(Grow(row, w, -1), p, g - 1);
    }
  }

  /**
   * Shaving stops at exactly twelve columns, or with every neighbour at the
   * minimum; it never pushes a neighbour below the minimum.
   */
  lemma {:induction false} ShaveFacts(row: seq<Tile>, p: nat)
    requires p < |row|
    ensures var r := Shave(row, p);
      && |r| == |row| && r[p] == row[p]
      && (forall k :: 0 <= k < |row| ==> r[k].id == row[k].id && r[k].height == row[k].height)
      && (forall k :: 0 <= k < |row| ==> Min(row[k].span, MIN_SPAN) <= r[k].span <= row[k].span)
      && (Width(row) <= COLUMNS ==> r == row)
      && (Width(row) >= COLUMNS ==> Width(r) >= COLUMNS)
      && (Width(r) > COLUMNS ==> forall k :: 0 <= k < |row| && k != p ==> r[k].span <= MIN_SPAN)
    decreases Max(0, Width(row) - COLUMNS)
  {
    var w := Widest(row, p, |row|);
    if !(Width(row) <= COLUMNS || w == -1) {
      var next := Grow(row, w, -1);
      WidthUpdate(row, w, next[w]);
      ShaveFacts(next, p);
    } else if w == -1 {
      forall k | 0 <= k < |row| && k != p
        ensures row[k].span <= MIN_SPAN
      {
        assert !CanShave(row, p, k);
      }
    }
  }

  lemma {:induction false} WidthOfThrees(row: seq<Tile>)
    requires forall k :: 0 <= k < |row| ==> row[k].span == MIN_SPAN
    ensures Width(row) == MIN_SPAN * |row|
  {
    if row != [] {
      WidthOfThrees(row[1..]);
    }
  }

  lemma {:induction false} WidthAroundOne(row: seq<Tile>, p: nat)
    requires p < |row|
    requires forall k :: 0 <= k < |row| && k != p ==> row[k].span == MIN_SPAN
    ensures Width(row) == row[p].span + MIN_SPAN * (|row| - 1)
  {
    WidthSplit(row, p);
    WidthOfThrees(row[..p]);
    WidthOfThrees(row[p+1..]);
  }

  /**
   * From a row at or over twelve whose tiles are all at least three wide,
   * shaving ends at twelve exactly when tile p leaves the others room for three
   * columns each; otherwise all the others end at three.
   */
  lemma {:induction false} ShaveOutcome(row: seq<Tile>, p: nat)
    requires p < |row| && Spans(row, MIN_SPAN) && Width(row) >= COLUMNS
    ensures var r := Shave(row, p); var least := row[p].span + MIN_SPAN * (|row| - 1);
      && |r| == |row| && Spans(r, MIN_SPAN)
      && (least <= COLUMNS ==> Width(r) == COLUMNS)
      && (least > COLUMNS ==> Width(r) == least && forall k :: 0 <= k < |row| && k != p ==> r[k].span == MIN_SPAN)
  {
    ShaveFacts(row, p);
    var r := Shave(row, p);
    if Width(r) > COLUMNS {
      WidthAroundOne(r, p);
    } else {
      WidthSplit(r, p);
      WidthBounds(r[..p], MIN_SPAN);
      WidthBounds(r[p+1..], MIN_SPAN);
    }
  }

  /** Beside tile q nobody grew, and who gave columns ends at most one below any other. */
  ghost predicate GaveEvenly(was: seq<Tile>, q: nat, row: seq<Tile>)
    requires |was| == |row|
  {
    forall k, j :: 0 <= k < |row| && 0 <= j < |row| && k != q && j != q ==>
      row[k].span <= was[k].span && (row[k].span < was[k].span ==> row[j].span <= row[k].span + 1)
  }

  /**
   * The loop keeps the row even: a neighbour that lost columns ends at most one
   * below any other neighbour.
   */
  lemma {:induction false} ShaveStaysEven(row: seq<Tile>, p: nat)
    requires p < |row|
    ensures var r := Shave(row, p);
      |r| == |row| && GaveEvenly(row, p, r)
    decreases Max(0, Width(row) - COLUMNS)
  {
    ShaveFacts(row, p);
    var w := Widest(row, p, |row|);
    if !(Width(row) <= COLUMNS || w == -1) {
      var next := Grow(row, w, -1);
      WidthUpdate(row, w, next[w]);
      ShaveStaysEven(next, p);
      EvenStep(row, p, w, Shave(row, p));
    }
  }

  lemma {:induction false} EvenStep(row: seq<Tile>, p: nat, w: nat, r: seq<Tile>)
    requires w < |row| == |r| && w == Widest(row, p, |row|) && GaveEvenly(Grow(row, w, -1), p, r)
    ensures GaveEvenly(row, p, r)
  {
    var next := Grow(row, w, -1);
    forall k, j | 0 <= k < |row| && 0 <= j < |row| && k != p && j != p && r[k].span < row[k].span
      ensures r[j].span <= r[k].span + 1
    {
      if r[k].span == next[k].span {
        assert CanShave(row, p, j) || row[j].span <= MIN_SPAN;
      }
    }
  }

  // ---------- taking width off the inserted tile ----------

  function NarrowN(row: seq<Tile>, p: nat, g: nat): (r: seq<Tile>)
    requires p < |row|
    ensures |r| == |row|
    decreases g
  {
    if Width(row) <= COLUMNS || row[p].span <= MIN_SPAN || g == 0 then row
    else NarrowN(Grow(row, p, -1), p, g - 1)
  }

  /** What the loop is after: give up columns until the row fits, but keep three. */
  ghost function Narrow(row: seq<Tile>, p: nat): seq<Tile>
    requires p < |row|
  {
    Grow(row, p, -Max(0, Min(Width(row) - COLUMNS, row[p].span - MIN_SPAN)))
  }

  /** Squeezing changes spans only. */
  ghost predicate SameContents(a: seq<Tile>, b: seq<Tile>) {
    |a| == |b| && forall k :: 0 <= k < |a| ==> a[k].id == b[k].id && a[k].height == b[k].height
  }

  lemma {:induction false} ShaveKeepsContents(row: seq<Tile>, p: int, g: nat)
    ensures SameContents(ShaveN(row, p, g), row)
    decreases g
  {
    var w := Widest(row, p, |row|);
    if !(Width(row) <= COLUMNS || g == 0 || w == -1) {
      ShaveKeepsContents(Grow(row, w, -1), p, g - 1);
    }
  }

  lemma {:induction false} NarrowKeepsContents(row: seq<Tile>, p: nat, g: nat)
    requires p < |row|
    ensures SameContents(NarrowN(row, p, g), row)
    decreases g
  {
    if !(Width(row) <= COLUMNS || row[p].span <= MIN_SPAN || g == 0) {
      NarrowKeepsContents(Grow(row, p, -1), p, g - 1);
    }
  }

  lemma {:induction false} NarrowCap(row: seq<Tile>, p: nat, g: nat)
    requires p < |row| && row[p].span <= MIN_SPAN + g
    ensures NarrowN(row, p, g) == Narrow(row, p)
    decreases g
  {
    if Width(row) <= COLUMNS || row[p].span <= MIN_SPAN {
      assert row[p := row[p]] == row;
    } else {
      var next := Grow(row, p, -1);
      WidthUpdate(row, p, next[p]);
      NarrowCap(next, p, g - 1);
    }
  }

  // ---------- handing out slack ----------

  /** Insert t in front of the first tile at least as wide. */
  function InsertSorted(t: Tile, row: seq<Tile>): (r: seq<Tile>)
    ensures |r| == |row| + 1
  {
    if row == [] || t.span <= row[0].span then [t] + row
    else [row[0]] + InsertSorted(t, row[1..])
  }

  /** The in-place sort by rising span; equal spans keep their order. */
  function StableSort(row: seq<Tile>): (r: seq<Tile>)
    ensures |r| == |row|
  {
    if row == [] then [] else InsertSorted(row[0], StableSort(row[1..]))
  }

  ghost predicate Rising(row: seq<Tile>) {
    forall i, j :: 0 <= i < j < |row| ==> row[i].span <= row[j].span
  }

  ghost function OfSpan(row: seq<Tile>, sp: int): seq<Tile> {
    if row == [] then []
    else (if row[0].span == sp then [row[0]] else []) + OfSpan(row[1..], sp)
  }

  lemma {:induction false} ConsFacts(t: Tile, row: seq<Tile>)
    ensures multiset(Ids([t] + row)) == multiset{t.id} + multiset(Ids(row))
    ensures Width([t] + row) == t.span + Width(row)
  {
    assert ([t] + row)[1..] == row;
    assert Ids([t] + row) == [t.id] + Ids(row);
  }

  lemma {:induction false} InsertSortedFacts(t: Tile, row: seq<Tile>)
    ensures multiset(Ids(InsertSorted(t, row))) == multiset{t.id} + multiset(Ids(row))
    ensures Width(InsertSorted(t, row)) == t.span + Width(row)
  {
    if row == [] || t.span <= row[0].span {
      ConsFacts(t, row);
    } else {
      InsertSortedFacts(t, row[1..]);
      ConsFacts(row[0], InsertSorted(t, row[1..]));
      ConsFacts(row[0], row[1..]);
      assert [row[0]] + row[1..] == row;
    }
  }

  lemma {:induction false} InsertSortedSpans(t: Tile, row: seq<Tile>, lo: int)
    requires Spans(row, lo) && lo <= t.span <= COLUMNS
    ensures Spans(InsertSorted(t, row), lo)
  {
    if row != [] {
      InsertSortedSpans(t, row[1..], lo);
    }
  }

  lemma {:induction false} SortFacts(row: seq<Tile>)
    ensures multiset(Ids(StableSort(row))) == multiset(Ids(row))
    ensures Width(StableSort(row)) == Width(row)
  {
    if row != [] {
      SortFacts(row[1..]);
      InsertSortedFacts(row[0], StableSort(row[1..]));
      assert Ids(row) == [row[0].id] + Ids(row[1..]);
    }
  }

  lemma {:induction false} SortSpans(row: seq<Tile>, lo: int)
    requires Spans(row, lo)
    ensures Spans(StableSort(row), lo)
  {
    if row != [] {
      SortSpans(row[1..], lo);
      InsertSortedSpans(row[0], StableSort(row[1..]), lo);
    }
  }

  lemma {:induction false} InsertKeepsRising(t: Tile, row: seq<Tile>)
    requires Rising(row)
    ensures Rising(InsertSorted(t, row))
    ensures forall k :: 0 <= k < |InsertSorted(t, row)| ==>
      InsertSorted(t, row)[k].span >= Min(t.span, if row == [] then t.span else row[0].span)
  {
    if row != [] && t.span > row[0].span {
      assert Rising(row[1..]);
      InsertKeepsRising(t, row[1..]);
    }
  }

  lemma {:induction false} OfSpanCons(t: Tile, row: seq<Tile>, sp: int)
    ensures OfSpan([t] + row, sp) == (if t.span == sp then [t] else []) + OfSpan(row, sp)
  {
    assert ([t] + row)[1..] == row;
  }

  lemma {:induction false} InsertIsStable(t: Tile, row: seq<Tile>, sp: int)
    ensures OfSpan(InsertSorted(t, row), sp) == (if t.span == sp then [t] else []) + OfSpan(row, sp)
  {
    if row == [] || t.span <= row[0].span {
      OfSpanCons(t, row, sp);
    } else {
      InsertIsStable(t, row[1..], sp);
      OfSpanCons(row[0], InsertSorted(t, row[1..]), sp);
      StableStep(row[0], t, row[1..], sp);
    }
  }

  /** A narrower tile in front does not come between tiles of one span. */
  lemma {:induction false} StableStep(head: Tile, t: Tile, rest: seq<Tile>, sp: int)
    requires head.span < t.span
    ensures var own := if t.span == sp then [t] else [];
      (if head.span == sp then [head] else []) + (own + OfSpan(rest, sp)) == own + OfSpan([head] + rest, sp)
  {
    OfSpanCons(head, rest, sp);
  }

  /** The sort orders by span and keeps tiles of equal span in their order. */
  lemma {:induction false} SortIsStable(row: seq<Tile>, sp: int)
    ensures Rising(StableSort(row))
    ensures OfSpan(StableSort(row), sp) == OfSpan(row, sp)
  {
    if row != [] {
      SortIsStable(row[1..], sp);
      InsertKeepsRising(row[0], StableSort(row[1..]));
      InsertIsStable(row[0], StableSort(row[1..]), sp);
    }
  }

  /** One round: sort the row in place and widen its narrowest tile. */
  function SlackStep(row: seq<Tile>): seq<Tile>
    requires row != []
  {
    Grow(StableSort(row), 0, 1)
  }

  function SlackN(row: seq<Tile>, g: nat): (r: seq<Tile>)
    requires row != []
    decreases g
  {
    if Width(row) >= COLUMNS || g == 0 then row
    else SlackN(SlackStep(row), g - 1)
  }

  ghost function Slack(row: seq<Tile>): seq<Tile>
    requires row != []
    decreases Max(0, COLUMNS - Width(row))
  {
    if Width(row) >= COLUMNS then row
    else
      SlackStepFacts(row);
      Slack(SlackStep(row))
  }

  lemma {:induction false} SlackStepFacts(row: seq<Tile>)
    requires row != []
    ensures |SlackStep(row)| == |row|
    ensures Width(SlackStep(row)) == Width(row) + 1
    ensures multiset(Ids(SlackStep(row))) == multiset(Ids(row))
  {
    SortFacts(row);
    var s := StableSort(row);
    WidthUpdate(s, 0, SlackStep(row)[0]);
    assert Ids(SlackStep(row)) == Ids(s);
  }

  lemma {:induction false} SlackStepSpans(row: seq<Tile>, lo: nat)
    requires row != [] && Spans(row, lo) && Width(row) < COLUMNS
    ensures Spans(SlackStep(row), lo)
  {
    var s := StableSort(row);
    SortFacts(row);
    SortSpans(row, lo);
    WidthSplit(s, 0);
    assert s[..0] == [];
    WidthBounds(s[1..], 0);
  }

  lemma {:induction false} SlackCap(row: seq<Tile>, g: nat)
    requires row != [] && COLUMNS <= Width(row) + g
    ensures SlackN(row, g) == Slack(row)
    decreases g
  {
    if Width(row) < COLUMNS {
      SlackStepFacts(row);
      SlackCap(SlackStep(row), g - 1);
    }
  }

  lemma {:induction false} SlackFacts(row: seq<Tile>)
    requires row != []
    ensures var r := Slack(row);
      && |r| == |row|
      && multiset(Ids(r)) == multiset(Ids(row))
      && Width(r) == Max(Width(row), COLUMNS)
    decreases Max(0, COLUMNS - Width(row))
  {
    if Width(row) < COLUMNS {
      SlackStepFacts(row);
      SlackFacts(SlackStep(row));
    }
  }

  lemma {:induction false} SlackSpans(row: seq<Tile>, lo: nat)
    requires row != [] && Spans(row, lo)
    ensures Spans(Slack(row), lo)
    decreases Max(0, COLUMNS - Width(row))
  {
    if Width(row) < COLUMNS {
      SlackStepFacts(row);
      SlackStepSpans(row, lo);
      SlackSpans(SlackStep(row), lo);
    }
  }

  ghost predicate Between(row: seq<Tile>, lo: int, hi: int) {
    forall k :: 0 <= k < |row| ==> lo <= row[k].span <= hi
  }

  lemma {:induction false} InsertSortedBetween(t: Tile, row: seq<Tile>, lo: int, hi: int)
    requires Between(row, lo, hi) && lo <= t.span <= hi
    ensures Between(InsertSorted(t, row), lo, hi)
  {
    if row != [] {
      InsertSortedBetween(t, row[1..], lo, hi);
    }
  }

  lemma {:induction false} SortBetween(row: seq<Tile>, lo: int, hi: int)
    requires Between(row, lo, hi)
    ensures Between(StableSort(row), lo, hi)
  {
    if row != [] {
      SortBetween(row[1..], lo, hi);
      InsertSortedBetween(row[0], StableSort(row[1..]), lo, hi);
    }
  }

  lemma {:induction false} SlackNeverNarrows(row: seq<Tile>, lo: int, hi: int)
    requires row != [] && Between(row, lo, hi)
    ensures forall k :: 0 <= k < |Slack(row)| ==> lo <= Slack(row)[k].span
    decreases Max(0, COLUMNS - Width(row))
  {
    if Width(row) < COLUMNS {
      SlackStepFacts(row);
      SortBetween(row, lo, hi);
      SlackNeverNarrows(SlackStep(row), lo, hi + 1);
    }
  }

  lemma {:induction false} StepBetween(row: seq<Tile>, lo: int, hi: int)
    requires row != [] && Between(row, lo, hi)
    ensures var s := StableSort(row);
      Between(SlackStep(row), if s[0].span < hi then lo else hi, if s[0].span < hi then hi else hi + 1)
  {
    SortBetween(row, lo, hi);
    SortIsStable(row, 0);
  }

  /** No tile is both wider than hi and more than one wider than any other. */
  ghost predicate NoTower(row: seq<Tile>, hi: int) {
    forall j, k :: 0 <= j < |row| && 0 <= k < |row| && row[j].span > hi ==> row[j].span <= row[k].span + 1
  }

  /** Slack goes to the narrowest: none ends wider than the widest was while another stays behind. */
  lemma {:induction false} SlackStaysEven(row: seq<Tile>, lo: int, hi: int)
    requires row != [] && Between(row, lo, hi)
    ensures NoTower(Slack(row), hi)
    decreases Max(0, COLUMNS - Width(row))
  {
    if Width(row) < COLUMNS {
      SlackStepFacts(row);
      StepBetween(row, lo, hi);
      var next := SlackStep(row);
      if StableSort(row)[0].span < hi {
        SlackStaysEven(next, lo, hi);
        assert Slack(row) == Slack(next);
      } else {
        SlackStaysEven(next, hi, hi + 1);
        SlackNeverNarrows(next, hi, hi + 1);
        assert Slack(row) == Slack(next);
      }
    }
  }
}
