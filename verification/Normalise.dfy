// normalise: pack into rows of twelve, stretch each row's last widget over any
// gap and give the whole row one height.
module Normalise {
  import opened Common
  import opened Tiles
  import opened Packing

  // ---------- as coded ----------

  function MaxHeight(row: seq<Tile>): int
    requires row != []
  {
    if |row| == 1 then row[0].height else Max(row[0].height, MaxHeight(row[1..]))
  }

  function WithHeight(row: seq<Tile>, h: int): (r: seq<Tile>)
    ensures |r| == |row|
    ensures forall k :: 0 <= k < |row| ==> r[k] == row[k].(height := h)
  {
    seq(|row|, k requires 0 <= k < |row| => row[k].(height := h))
  }

  /** The remainder loop: hand single columns round the row, at most 8 rounds. */
  function Spread(row: seq<Tile>, sum: int, i: nat): seq<Tile>
    requires row != []
    decreases |row| * 8 - i
  {
    if sum == COLUMNS || i >= |row| * 8 then row
    else
      var k := i % |row|;
      var d := if sum < COLUMNS then 1 else -1;
      if 2 <= row[k].span + d <= COLUMNS then
        Spread(row[k := row[k].(span := row[k].span + d)], sum + d, i + 1)
      else
        Spread(row, sum, i + 1)
  }

  /** The clamped stretch of the last tile. */
  function StretchLast(row: seq<Tile>): seq<Tile>
    requires row != []
  {
    var last := row[|row| - 1];
    row[|row| - 1 := last.(span := ClampSpan(last.span + (COLUMNS - Width(row))))]
  }

  function Close(row: seq<Tile>): seq<Tile>
    requires row != []
  {
    if Width(row) == COLUMNS then row
    else Spread(StretchLast(row), Width(StretchLast(row)), 0)
  }

  lemma {:induction false} SpreadLength(row: seq<Tile>, sum: int, i: nat)
    requires row != []
    ensures |Spread(row, sum, i)| == |row|
    decreases |row| * 8 - i
  {
    if !(sum == COLUMNS || i >= |row| * 8) {
      var k := i % |row|;
      var d := if sum < COLUMNS then 1 else -1;
      if 2 <= row[k].span + d <= COLUMNS {
        SpreadLength(row[k := row[k].(span := row[k].span + d)], sum + d, i + 1);
      } else {
        SpreadLength(row, sum, i + 1);
      }
    }
  }

  /** What flush pushes for one row. */
  function LevelRow(row: seq<Tile>): seq<Tile> {
    if row == [] then [] else WithHeight(Close(row), MaxHeight(row))
  }

  function LevelRows(rows: seq<seq<Tile>>): (r: seq<seq<Tile>>)
    ensures |r| == |rows|
    ensures forall k :: 0 <= k < |rows| ==> r[k] == LevelRow(rows[k])
  {
    seq(|rows|, k requires 0 <= k < |rows| => LevelRow(rows[k]))
  }

  function Normalised(list: seq<Tile>): seq<Tile> {
    Flat(LevelRows(Rows(list)))
  }

  method Flush(pending: seq<Tile>) returns (row: seq<Tile>)
    ensures row == LevelRow(pending)
  {
    row := pending;
    if row == [] {
      return;
    }
    var sum := Width(row);
    if sum != COLUMNS {
      var last := row[|row| - 1];
      row := row[|row| - 1 := last.(span := Max(2, Min(COLUMNS, last.span + (COLUMNS - sum))))];
      sum := Width(row);
      var n, i := |row|, 0;
      while sum != COLUMNS && i < n * 8
        invariant |row| == n && 0 <= i <= n * 8
        invariant Spread(row, sum, i) == Close(pending)
      {
        var k := i % n;
        var d := if sum < COLUMNS then 1 else -1;
        if 2 <= row[k].span + d <= COLUMNS {
          row, sum := row[k := row[k].(span := row[k].span + d)], sum + d;
        }
        i := i + 1;
      }
    }
    SpreadLength(StretchLast(pending), Width(StretchLast(pending)), 0);
    CloseKeepsHeights(pending);
    MaxHeightOfSame(row, pending);
    row := WithHeight(row, MaxHeight(row));
  }

  /** What is still to be pushed when `row` is open and `list` is to come. */
  ghost function Pending(row: seq<Tile>, list: seq<Tile>): seq<Tile> {
    Flat(LevelRows(PackFrom(row, list)))
  }

  lemma {:induction false} PendingStep(row: seq<Tile>, it: Tile, rest: seq<Tile>)
    ensures Pending(row, [it] + rest) ==
      if Width(row) + it.span > COLUMNS then LevelRow(row) + Pending([it], rest) else Pending(row + [it], rest)
  {
    assert ([it] + rest)[0] == it && ([it] + rest)[1..] == rest;
    FlatLevelFirst(row, PackFrom([it], rest));
  }

  lemma {:induction false} PendingEnd(row: seq<Tile>)
    ensures Pending(row, []) == LevelRow(row)
  {
    FlatLevelFirst(row, []);
    assert [row] + [] == [row];
    assert LevelRows([]) == [];
  }

  method NormaliseList(list: seq<Tile>) returns (out: seq<Tile>)
    ensures out == Normalised(list)
  {
    ghost var all := AdmitAll(list);
    out := [];
    var row, w := [], 0;
    for k := 0 to |list|
      invariant w == Width(row)
      invariant out + Pending(row, all[k..]) == Pending([], all)
    {
      var it := Admit(list[k]);
      ghost var rest := all[k+1..];
      assert all[k..] == [it] + rest;
      PendingStep(row, it, rest);
      if w + it.span > COLUMNS {
        var level := Flush(row);
        Assoc(out, level, Pending([it], rest));
        out := out + level;
        row, w := [], 0;
      }
      WidthConcat(row, [it]);
      assert [] + [it] == [it];
      row := row + [it];
      w := w + it.span;
    }
    assert all[|list|..] == [];
    PendingEnd(row);
    var level := Flush(row);
    out := out + level;
  }

  // ---------- helpers ----------

  lemma {:induction false} FlatLevelFirst(row: seq<Tile>, rows: seq<seq<Tile>>)
    ensures Flat(LevelRows([row] + rows)) == LevelRow(row) + Flat(LevelRows(rows))
  {
    assert LevelRows([row] + rows) == [LevelRow(row)] + LevelRows(rows);
    assert ([LevelRow(row)] + LevelRows(rows))[1..] == LevelRows(rows);
  }

  ghost predicate SameHeights(a: seq<Tile>, b: seq<Tile>) {
    |a| == |b| && forall k :: 0 <= k < |a| ==> a[k].height == b[k].height && a[k].id == b[k].id
  }

  lemma {:induction false} SpreadKeepsHeights(row: seq<Tile>, sum: int, i: nat)
    requires row != []
    ensures SameHeights(Spread(row, sum, i), row)
    decreases |row| * 8 - i
  {
    if !(sum == COLUMNS || i >= |row| * 8) {
      var k := i % |row|;
      var d := if sum < COLUMNS then 1 else -1;
      if 2 <= row[k].span + d <= COLUMNS {
        SpreadKeepsHeights(row[k := row[k].(span := row[k].span + d)], sum + d, i + 1);
      } else {
        SpreadKeepsHeights(row, sum, i + 1);
      }
    }
  }

  lemma {:induction false} CloseKeepsHeights(row: seq<Tile>)
    requires row != []
    ensures SameHeights(Close(row), row)
  {
    SpreadKeepsHeights(StretchLast(row), Width(StretchLast(row)), 0);
  }

  lemma {:induction false} MaxHeightOfSame(a: seq<Tile>, b: seq<Tile>)
    requires a != [] && SameHeights(a, b)
    ensures MaxHeight(a) == MaxHeight(b)
  {
    if |a| > 1 {
      MaxHeightOfSame(a[1..], b[1..]);
    }
  }

  lemma {:induction false} MaxHeightIsMember(row: seq<Tile>)
    requires row != []
    ensures exists k :: 0 <= k < |row| && row[k].height == MaxHeight(row)
    ensures forall k :: 0 <= k < |row| ==> row[k].height <= MaxHeight(row)
  {
    if |row| > 1 {
      MaxHeightIsMember(row[1..]);
      var k :| 0 <= k < |row[1..]| && row[1..][k].height == MaxHeight(row[1..]);
      assert row[if row[0].height < MaxHeight(row[1..]) then k + 1 else 0].height == MaxHeight(row);
    } else {
      assert row[0].height == MaxHeight(row);
    }
  }

  lemma {:induction false} WidthIgnoresHeight(row: seq<Tile>, h: int)
    ensures Width(WithHeight(row, h)) == Width(row)
  {
    WidthOfSameButHeight(WithHeight(row, h), row);
  }

  // ---------- what normalise promises ----------

  /** A row with no hole and one height. */
  ghost predicate FullRow(row: seq<Tile>) {
    && row != []
    && Width(row) == COLUMNS
    && forall k :: 0 <= k < |row| ==> row[k].height == row[0].height != 0
  }

  /** A board that tiles: packed greedily, every row is full and of one height. */
  ghost predicate Tiled(list: seq<Tile>) {
    && Spans(list, 2)
    && forall r :: 0 <= r < |PackFrom([], list)| ==> FullRow(PackFrom([], list)[r])
  }

  /**
   * On a row that fits, the stretch alone closes the gap: the clamp does not
   * bite and the remainder loop never runs.
   */
  lemma {:induction false} CloseIsOneStretch(row: seq<Tile>)
    requires row != [] && Spans(row, 2) && Width(row) <= COLUMNS
    ensures Width(StretchLast(row)) == COLUMNS
    ensures Close(row) == StretchLast(row)
    ensures StretchLast(row)[|row| - 1].span == row[|row| - 1].span + (COLUMNS - Width(row))
    ensures Width(row) == COLUMNS ==> StretchLast(row) == row
  {
    var n := |row| - 1;
    WidthSplit(row, n);
    WidthBounds(row[..n], 2);
    assert row[n+1..] == [];
    WidthUpdate(row, n, StretchLast(row)[n]);
    assert row[n := row[n]] == row;
  }

  /** normalise of one packed row: same widgets, only the last one grows, one height. */
  lemma {:induction false} LevelRowFacts(row: seq<Tile>, lo: int)
    requires row != [] && lo >= 2 && Spans(row, lo) && Width(row) <= COLUMNS
    requires forall k :: 0 <= k < |row| ==> row[k].height != 0
    ensures FullRow(LevelRow(row)) && Spans(LevelRow(row), lo)
    ensures |LevelRow(row)| == |row| && Ids(LevelRow(row)) == Ids(row)
    ensures forall k :: 0 <= k < |row| - 1 ==> LevelRow(row)[k].span == row[k].span
    ensures LevelRow(row)[|row| - 1].span == row[|row| - 1].span + (COLUMNS - Width(row))
    ensures forall k :: 0 <= k < |row| ==> LevelRow(row)[k].height == MaxHeight(row)
  {
    CloseIsOneStretch(row);
    WidthIgnoresHeight(Close(row), MaxHeight(row));
    MaxHeightIsMember(row);
    var n := |row| - 1;
    WidthSplit(row, n);
    WidthBounds(row[..n], 2);
    assert row[n+1..] == [];
    assert Ids(LevelRow(row)) == Ids(row);
  }

  lemma {:induction false} AdmitFacts(list: seq<Tile>)
    ensures Spans(AdmitAll(list), 2)
    ensures forall k :: 0 <= k < |list| ==> AdmitAll(list)[k].height != 0
    ensures Ids(AdmitAll(list)) == Ids(list)
    ensures Spans(list, 3) ==> Spans(AdmitAll(list), 3)
    ensures Spans(list, 2) && (forall k :: 0 <= k < |list| ==> list[k].height != 0) ==> AdmitAll(list) == list
  {
    assert Ids(AdmitAll(list)) == Ids(list);
  }

  lemma {:induction false} HeightsOfRows(rows: seq<seq<Tile>>)
    requires forall k :: 0 <= k < |Flat(rows)| ==> Flat(rows)[k].height != 0
    ensures forall r, k :: 0 <= r < |rows| && 0 <= k < |rows[r]| ==> rows[r][k].height != 0
  {
    if rows != [] {
      forall k | 0 <= k < |rows[0]|
        ensures rows[0][k].height != 0
      {
        assert rows[0][k] == Flat(rows)[k];
      }
      forall k | 0 <= k < |Flat(rows[1..])|
        ensures Flat(rows[1..])[k].height != 0
      {
        assert Flat(rows[1..])[k] == Flat(rows)[|rows[0]| + k];
      }
      HeightsOfRows(rows[1..]);
      forall r, k | 0 <= r < |rows| && 0 <= k < |rows[r]|
        ensures rows[r][k].height != 0
      {
        if r > 0 {
          assert rows[r] == rows[1..][r-1];
        }
      }
    }
  }

  lemma {:induction false} FlatIds(a: seq<seq<Tile>>, b: seq<seq<Tile>>)
    requires |a| == |b|
    requires forall r :: 0 <= r < |a| ==> Ids(a[r]) == Ids(b[r])
    ensures Ids(Flat(a)) == Ids(Flat(b))
  {
    if a != [] {
      FlatIds(a[1..], b[1..]);
      IdsConcat(a[0], Flat(a[1..]));
      IdsConcat(b[0], Flat(b[1..]));
    }
  }

  /** The rows of any board are fit to be levelled. */
  lemma {:induction false} RowsFacts(list: seq<Tile>, lo: int)
    requires lo >= 2 && Spans(AdmitAll(list), lo)
    ensures Greedy(Rows(list)) && Flat(Rows(list)) == AdmitAll(list)
    ensures forall r :: 0 <= r < |Rows(list)| ==> Spans(Rows(list)[r], lo)
    ensures forall r, k :: 0 <= r < |Rows(list)| && 0 <= k < |Rows(list)[r]| ==> Rows(list)[r][k].height != 0
  {
    AdmitFacts(list);
    PackedFacts(AdmitAll(list), lo);
  }

  lemma {:induction false} PackedFacts(list: seq<Tile>, lo: int)
    requires lo >= 2 && Spans(list, lo) && forall k :: 0 <= k < |list| ==> list[k].height != 0
    ensures Greedy(PackFrom([], list)) && Flat(PackFrom([], list)) == list
    ensures forall r :: 0 <= r < |PackFrom([], list)| ==> Spans(PackFrom([], list)[r], lo)
    ensures forall r, k :: 0 <= r < |PackFrom([], list)| && 0 <= k < |PackFrom([], list)[r]| ==>
      PackFrom([], list)[r][k].height != 0
  {
    var rows := PackFrom([], list);
    PackIsGreedy([], list);
    PackKeepsList([], list);
    HeightsOfRows(rows);
    forall r | 0 <= r < |rows|
      ensures Spans(rows[r], lo)
    {
      SpansOfRows(rows, lo, r);
    }
  }

  /**
   * normalise refines toRows: same row boundaries, same widgets in the same
   * order, and the result tiles, whatever list it is given.
   */
  lemma {:induction false} NormaliseTiles(list: seq<Tile>, lo: int)
    requires lo >= 2 && Spans(AdmitAll(list), lo)
    ensures Tiled(Normalised(list)) && Spans(Normalised(list), lo)
    ensures PackFrom([], Normalised(list)) == LevelRows(Rows(list))
    ensures Ids(Normalised(list)) == Ids(list)
  {
    RowsFacts(list, lo);
    var rows := Rows(list);
    var level := LevelRows(rows);
    forall r | 0 <= r < |rows|
      ensures FullRow(level[r]) && Spans(level[r], lo) && Ids(level[r]) == Ids(rows[r])
    {
      LevelRowFacts(rows[r], lo);
    }
    SpansOfFlat(level, lo);
    FullRowsStay(level, []);
    assert Flat(level) + [] == Flat(level);
    FlatIds(level, rows);
    AdmitFacts(list);
  }

  /** Only the last widget of a row ever grows, and exactly over the row's gap. */
  lemma {:induction false} OnlyLastGrows(list: seq<Tile>, r: nat)
    requires r < |Rows(list)|
    ensures var row, out := Rows(list)[r], PackFrom([], Normalised(list));
      && |out| == |Rows(list)| && |out[r]| == |row| > 0 && Ids(out[r]) == Ids(row)
      && (forall k :: 0 <= k < |row| - 1 ==> out[r][k].span == row[k].span)
      && out[r][|row| - 1].span == row[|row| - 1].span + (COLUMNS - Width(row))
      && (forall k :: 0 <= k < |row| ==> out[r][k].height == MaxHeight(row))
  {
    AdmitFacts(list);
    NormaliseTiles(list, 2);
    RowsFacts(list, 2);
    LevelRowFacts(Rows(list)[r], 2);
  }

  /** A row as it is saved: the same widgets, the last one closing the gap, one height. */
  ghost predicate Closed(row: seq<Tile>, out: seq<Tile>) {
    && |out| == |row|
    && forall q :: 0 <= q < |row| ==>
         && out[q].id == row[q].id && out[q].height == MaxHeight(row)
         && out[q].span == row[q].span + if q == |row| - 1 then COLUMNS - Width(row) else 0
  }

  ghost predicate AllClosed(rows: seq<seq<Tile>>, board: seq<seq<Tile>>) {
    |board| == |rows| && forall r :: 0 <= r < |rows| ==> Closed(rows[r], board[r])
  }

  lemma {:induction false} RowCloses(list: seq<Tile>, r: nat)
    requires r < |Rows(list)|
    ensures |PackFrom([], Normalised(list))| == |Rows(list)|
    ensures Closed(Rows(list)[r], PackFrom([], Normalised(list))[r])
  {
    OnlyLastGrows(list, r);
    var row, out := Rows(list)[r], PackFrom([], Normalised(list))[r];
    forall q | 0 <= q < |row|
      ensures out[q].id == row[q].id
    {
      assert Ids(out)[q] == Ids(row)[q];
    }
  }

  lemma {:induction false} NormalisedCloses(list: seq<Tile>)
    ensures AllClosed(Rows(list), PackFrom([], Normalised(list)))
  {
    AdmitFacts(list);
    NormaliseTiles(list, 2);
    forall r | 0 <= r < |Rows(list)|
      ensures Closed(Rows(list)[r], PackFrom([], Normalised(list))[r])
    {
      RowCloses(list, r);
    }
  }

  lemma {:induction false} TiledIsAdmitted(list: seq<Tile>)
    requires Tiled(list)
    ensures AdmitAll(list) == list && Rows(list) == PackFrom([], list)
    ensures forall k :: 0 <= k < |list| ==> list[k].height != 0
  {
    assert Flat(PackFrom([], list)) == list by {
      PackKeepsList([], list);
    }
    HeightsFromRows(PackFrom([], list));
    AdmitFacts(list);
  }

  lemma {:induction false} HeightsFromRows(rows: seq<seq<Tile>>)
    requires forall r :: 0 <= r < |rows| ==> FullRow(rows[r])
    ensures forall k :: 0 <= k < |Flat(rows)| ==> Flat(rows)[k].height != 0
  {
    if rows != [] {
      HeightsFromRows(rows[1..]);
    }
  }

  /** A full row is left exactly as it is. */
  lemma {:induction false} FullRowIsLevel(row: seq<Tile>)
    requires FullRow(row) && Spans(row, 2)
    ensures LevelRow(row) == row
  {
    MaxHeightIsMember(row);
    assert WithHeight(row, MaxHeight(row)) == row;
  }

  /** normalise leaves a list alone exactly when it already tiles. */
  lemma {:induction false} UnchangedIffTiled(list: seq<Tile>)
    ensures Normalised(list) == list <==> Tiled(list)
  {
    AdmitFacts(list);
    NormaliseTiles(list, 2);
    if Tiled(list) {
      TiledIsAdmitted(list);
      RowsFacts(list, 2);
      var rows := Rows(list);
      forall r | 0 <= r < |rows|
        ensures LevelRow(rows[r]) == rows[r]
      {
        FullRowIsLevel(rows[r]);
      }
      assert LevelRows(rows) == rows;
    }
  }

  lemma {:induction false} NormaliseTwice(list: seq<Tile>)
    ensures Normalised(Normalised(list)) == Normalised(list)
  {
    AdmitFacts(list);
    NormaliseTiles(list, 2);
    UnchangedIffTiled(Normalised(list));
  }
}
