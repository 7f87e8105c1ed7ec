// Where a dropped widget lands in the order of the board, and why the slack loop
// of insertBeside, which sorts the row in place, has nothing to do on a drop.
module Landing {
  import opened Common
  import opened Tiles
  import opened Packing
  import opened Normalise
  import opened Squeeze
  import opened Insert

  lemma {:induction false} FlatLength(rows: seq<seq<Tile>>)
    requires rows != []
    ensures |Flat(rows)| == |rows[0]| + |Flat(rows[1..])|
    ensures |rows| == 1 ==> |Flat(rows[1..])| == 0
  {
  }

  lemma {:induction false} FrontLength(rows: seq<seq<Tile>>, k: nat)
    requires 1 <= k <= |rows|
    ensures |Flat(rows[..k])| == |rows[0]| + |Flat(rows[1..][..k-1])|
  {
    assert rows[..k][0] == rows[0] && rows[..k][1..] == rows[1..][..k-1];
  }

  lemma {:induction false} LocateStep(rows: seq<seq<Tile>>, i: nat)
    requires |rows| > 1 && i >= |rows[0]|
    ensures var deeper := Locate(rows[1..], i - |rows[0]|); Locate(rows, i) == (deeper.0 + 1, deeper.1)
  {
  }

  /** The located row and place are list index i. */
  lemma {:induction false} LocateIsIndex(rows: seq<seq<Tile>>, i: nat)
    requires rows != [] && i <= |Flat(rows)|
    ensures |Flat(rows[..Locate(rows, i).0])| + Locate(rows, i).1 == i
  {
    FlatLength(rows);
    if i < |rows[0]| || |rows| == 1 {
      assert rows[..0] == [];
    } else {
      LocateStep(rows, i);
      LocateIsIndex(rows[1..], i - |rows[0]|);
      FrontLength(rows, Locate(rows[1..], i - |rows[0]|).0 + 1);
    }
  }

  lemma {:induction false} LocateInside(rows: seq<seq<Tile>>, i: nat)
    requires rows != [] && i < |Flat(rows)|
    ensures Locate(rows, i).1 < |rows[Locate(rows, i).0]|
  {
    FlatLength(rows);
    if i >= |rows[0]| && |rows| > 1 {
      LocateInside(rows[1..], i - |rows[0]|);
    }
  }

  /** Where in a row a widget dropped at place p ends: behind four it comes to stand fourth. */
  function Settled(row: seq<Tile>, p: nat): nat {
    if |row| == 4 && p == 4 then 3 else p
  }

  lemma {:induction false} FullRowOrder(row: seq<Tile>, p: nat, item: Tile, fit: (seq<Tile>, seq<Tile>))
    requires p <= 3 && |row| == 4 && SameContents(fit.0, InsertAt(row[..3], p, item)) && fit.1 == [row[3]]
    ensures Ids(fit.0) + Ids(fit.1) == Ids(InsertAt(row, p, item))
  {
    var front := InsertAt(row[..3], p, item);
    IdsOfSame(fit.0, front);
    IdsConcat(front, [row[3]]);
    assert InsertAt(row, p, item) == front + [row[3]];
  }

  lemma {:induction false} RoomyRowOrder(row: seq<Tile>, p: nat, item: Tile)
    requires p <= |row| && 1 <= |row| <= 3 && Spans(row, MIN_SPAN) && Width(row) <= COLUMNS
    requires MIN_SPAN <= item.span <= COLUMNS && Width(row) + item.span >= COLUMNS
    ensures var fit := FitRow(InsertAt(row, p, item), p);
      fit.1 == [] && Ids(fit.0) == Ids(InsertAt(row, p, item))
  {
    WidthInsert(row, p, item);
    SqueezeToFit(InsertAt(row, p, item), p);
    SqueezeKeepsIds(InsertAt(row, p, item), p);
  }

  /** With no slack to close, the squeezed row and what it spills are in the order asked for. */
  lemma {:induction false} FitRowOrder(row: seq<Tile>, p: nat, item: Tile)
    requires p <= |row| && row != [] && Spans(row, MIN_SPAN) && Width(row) <= COLUMNS
    requires MIN_SPAN <= item.span <= COLUMNS && Width(row) + item.span >= COLUMNS
    ensures var fit := FitRow(InsertAt(row, p, item), p);
      Ids(fit.0) + Ids(fit.1) == InsertAt(Ids(row), Settled(row, p), item.id)
  {
    WidthBounds(row, MIN_SPAN);
    IdsOfInsert(row, Settled(row, p), item);
    if |row| == 4 {
      FitRowFull(row, p, item);
      FullRowOrder(row, Settled(row, p), item, FitRow(InsertAt(row, p, item), p));
    } else {
      RoomyRowOrder(row, p, item);
      assert Ids([]) == [];
    }
  }

  lemma {:induction false} IdsOfInsert(row: seq<Tile>, p: nat, item: Tile)
    requires p <= |row|
    ensures Ids(InsertAt(row, p, item)) == InsertAt(Ids(row), p, item.id)
  {
  }

  lemma {:induction false} InsertInMiddle<T>(a: seq<T>, b: seq<T>, c: seq<T>, p: nat, x: T)
    requires p <= |b|
    ensures InsertAt(a + b + c, |a| + p, x) == a + InsertAt(b, p, x) + c
  {
    assert (a + b + c)[..|a| + p] == a + b[..p];
    assert (a + b + c)[|a| + p..] == b[p..] + c;
  }

  /** The list index a widget dropped at index i ends at, if its row has no slack. */
  function LandsAt(rows: seq<seq<Tile>>, i: nat): (r: int)
    requires rows != []
    ensures i - 1 <= r <= i
  {
    var at := Locate(rows, i);
    i - at.1 + Settled(rows[at.0], at.1)
  }

  lemma {:induction false} InsertRowsOrder(rows: seq<seq<Tile>>, item: Tile, i: nat, ri: nat, p: nat)
    requires rows != [] && i <= |Flat(rows)| && (ri, p) == Locate(rows, i) && rows[ri] != []
    requires Spans(rows[ri], MIN_SPAN) && Width(rows[ri]) <= COLUMNS && MIN_SPAN <= item.span <= COLUMNS
    requires Width(rows[ri]) + item.span >= COLUMNS
    ensures 0 <= LandsAt(rows, i) <= |Flat(rows)|
    ensures Ids(InsertRows(rows, item, i)) == InsertAt(Ids(Flat(rows)), LandsAt(rows, i), item.id)
  {
    LocateIsIndex(rows, i);
    FitRowOrder(rows[ri], p, item);
    var fit := InsertFit(rows, item, i);
    ReassembleOrder(rows, ri, fit.0, fit.1, Settled(rows[ri], p), item.id, LandsAt(rows, i));
  }

  lemma {:induction false} ReassembleOrder(
      rows: seq<seq<Tile>>, ri: nat, row: seq<Tile>, spilled: seq<Tile>, p: nat, id: Widget, i: nat)
    requires ri < |rows| && p <= |rows[ri]| && i == |Flat(rows[..ri])| + p
    requires Ids(row) + Ids(spilled) == InsertAt(Ids(rows[ri]), p, id)
    ensures i <= |Flat(rows)|
    ensures Ids(Reassemble(rows, ri, row, spilled)) == InsertAt(Ids(Flat(rows)), i, id)
  {
    SplitAtRow(rows, ri);
    MiddleIds(Flat(rows[..ri]), rows[ri], Flat(rows[ri+1..]), row, spilled, p, id);
  }

  lemma {:induction false} MiddleIds(
      a: seq<Tile>, hit: seq<Tile>, c: seq<Tile>, row: seq<Tile>, spilled: seq<Tile>, p: nat, id: Widget)
    requires p <= |hit| && Ids(row) + Ids(spilled) == InsertAt(Ids(hit), p, id)
    ensures Ids(a + row + spilled + c) == InsertAt(Ids(a + hit + c), |a| + p, id)
  {
    IdsConcat(a + hit, c);
    IdsConcat(a, hit);
    IdsConcat(a + row + spilled, c);
    IdsConcat(a + row, spilled);
    IdsConcat(a, row);
    Assoc(Ids(a), Ids(row), Ids(spilled));
    InsertInMiddle(Ids(a), Ids(hit), Ids(c), p, id);
  }

  /** The row that list index i falls on has no slack once the item is in it. */
  predicate Snug(list: seq<Tile>, item: Tile, i: nat)
    requires list != []
  {
    RowsAreNotEmpty(list);
    Width(Rows(list)[Locate(Rows(list), i).0]) + item.span >= COLUMNS
  }

  /** Then the item lands at its index and all others keep their order. */
  lemma {:induction false} InsertLandsAt(list: seq<Tile>, item: Tile, i: nat)
    requires list != [] && i <= |list|
    requires Spans(list, MIN_SPAN) && MIN_SPAN <= item.span <= COLUMNS && Snug(list, item, i)
    ensures Rows(list) != [] && 0 <= LandsAt(Rows(list), i) <= |list|
    ensures Ids(Inserted(list, item, i)) == InsertAt(Ids(list), LandsAt(Rows(list), i), item.id)
  {
    RowsAreNotEmpty(list);
    AdmitFacts(list);
    RowsFacts(list, MIN_SPAN);
    RowsKeepIds(list);
    assert |Ids(Flat(Rows(list)))| == |Ids(list)|;
    var at := Locate(Rows(list), i);
    InsertRowsOrder(Rows(list), item, i, at.0, at.1);
  }

  // ---------- a board short of one widget has no slack for it ----------

  /** Taking a tile out of a split leaves a split of the rest with as many rows. */
  lemma {:induction false} SplitWithout(rows: seq<seq<Tile>>, k: nat) returns (split: seq<seq<Tile>>)
    requires k < |Flat(rows)|
    requires forall r :: 0 <= r < |rows| ==> Spans(rows[r], 0) && Width(rows[r]) <= COLUMNS
    ensures |split| == |rows| && Flat(split) == RemoveAt(Flat(rows), k)
    ensures forall r :: 0 <= r < |split| ==> Width(split[r]) <= COLUMNS
  {
    var head, tail := rows[0], Flat(rows[1..]);
    assert Flat(rows) == head + tail;
    if k < |head| {
      WidthRemove(head, k);
      split := [RemoveAt(head, k)] + rows[1..];
      assert split[1..] == rows[1..];
      assert RemoveAt(head + tail, k) == RemoveAt(head, k) + tail;
    } else {
      var rest := SplitWithout(rows[1..], k - |head|);
      split := [head] + rest;
      assert split[1..] == rest;
      assert RemoveAt(head + tail, k) == head + RemoveAt(tail, k - |head|);
    }
  }

  lemma {:induction false} FullWidth(rows: seq<seq<Tile>>)
    requires forall r :: 0 <= r < |rows| ==> Width(rows[r]) == COLUMNS
    ensures Width(Flat(rows)) == COLUMNS * |rows|
  {
    if rows != [] {
      WidthConcat(rows[0], Flat(rows[1..]));
      FullWidth(rows[1..]);
    }
  }

  lemma {:induction false} WidthAtMost(rows: seq<seq<Tile>>)
    requires forall r :: 0 <= r < |rows| ==> Width(rows[r]) <= COLUMNS
    ensures Width(Flat(rows)) <= COLUMNS * |rows|
  {
    if rows != [] {
      WidthConcat(rows[0], Flat(rows[1..]));
      WidthAtMost(rows[1..]);
    }
  }

  /** What all other rows can hold at most. */
  lemma {:induction false} WidthOfOthers(rows: seq<seq<Tile>>, r: nat)
    requires r < |rows| && forall q :: 0 <= q < |rows| ==> Width(rows[q]) <= COLUMNS
    ensures Width(Flat(rows)) <= Width(rows[r]) + COLUMNS * (|rows| - 1)
  {
    WidthConcat(rows[0], Flat(rows[1..]));
    if r == 0 {
      WidthAtMost(rows[1..]);
    } else {
      WidthOfOthers(rows[1..], r - 1);
    }
  }

  lemma {:induction false} RestIsAdmitted(list: seq<Tile>, k: nat)
    requires Banded(list) && k < |list|
    ensures AdmitAll(RemoveAt(list, k)) == RemoveAt(list, k) && Spans(RemoveAt(list, k), MIN_SPAN)
  {
    TiledIsAdmitted(list);
    AdmitFacts(RemoveAt(list, k));
  }

  /**
   * Since packing uses the fewest rows, a tiled board without one of its tiles
   * packs into no more rows than before, so no row of it is short by more than
   * that tile's width.
   */
  lemma {:induction false} GapsAreNoWider(list: seq<Tile>, k: nat, r: nat)
    requires Banded(list) && k < |list| && r < |Rows(RemoveAt(list, k))|
    ensures Width(Rows(RemoveAt(list, k))[r]) + list[k].span >= COLUMNS
  {
    var rest := RemoveAt(list, k);
    BandedRows(list);
    RestIsAdmitted(list, k);
    var split := SplitWithout(Rows(list), k);
    FewestRows(rest, split);
    RowsFacts(rest, MIN_SPAN);
    WidthOfOthers(Rows(rest), r);
    FullWidth(Rows(list));
    WidthRemove(list, k);
  }
}
