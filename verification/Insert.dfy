// insertBeside: squeeze a widget into the row it is dropped on.
module Insert {
  import opened Common
  import opened Tiles
  import opened Packing
  import opened Normalise
  import opened Squeeze

  const NARROW_CAP := 12
  const SLACK_CAP := 24

  /** The row and the place in it that list index i falls on; past the end, the end of the last row. */
  function Locate(rows: seq<seq<Tile>>, i: int): (at: (nat, int))
    requires rows != []
    ensures at.0 < |rows| && at.1 <= |rows[at.0]|
    ensures i >= 0 ==> at.1 >= 0
  {
    if i < |rows[0]| then (0, i)
    else if |rows| == 1 then (0, |rows[0]|)
    else
      var at := Locate(rows[1..], i - |rows[0]|);
      (at.0 + 1, at.1)
  }

  function InsertAt<T>(s: seq<T>, p: nat, x: T): seq<T>
    requires p <= |s|
  {
    s[..p] + [x] + s[p..]
  }

  function RemoveAt<T>(s: seq<T>, j: nat): seq<T>
    requires j < |s|
  {
    s[..j] + s[j+1..]
  }

  /** The last tile of a row other than tile p. */
  function LastNeighbour(n: int, p: int): int { if p == n - 1 then n - 2 else n - 1 }

  /** The row after both squeezing loops. */
  function Squeezed(row: seq<Tile>, p: nat): (r: seq<Tile>)
    requires p < |row|
    ensures |r| == |row|
  {
    NarrowN(ShaveN(row, p, SHAVE_CAP), p, NARROW_CAP)
  }

  /** The row that stays, and the neighbour it had to give up, if any. */
  function FitRow(row: seq<Tile>, p: nat): (seq<Tile>, seq<Tile>)
    requires p < |row| && |row| >= 2
  {
    var r := Squeezed(row, p);
    if Width(r) > COLUMNS then
      var j := LastNeighbour(|r|, p);
      (SlackN(RemoveAt(r, j), SLACK_CAP), [r[j]])
    else
      (SlackN(r, SLACK_CAP), [])
  }

  function Clip(pos: int, n: nat): nat { Max(0, Min(pos, n)) }

  /** The list with row ri replaced by a row and what spilled from it. */
  function Reassemble(rows: seq<seq<Tile>>, ri: nat, row: seq<Tile>, spilled: seq<Tile>): seq<Tile>
    requires ri < |rows|
  {
    Flat(rows[..ri]) + row + spilled + Flat(rows[ri+1..])
  }

  /** The squeeze that inserting at list index i performs. */
  function InsertFit(rows: seq<seq<Tile>>, item: Tile, i: int): (seq<Tile>, seq<Tile>)
    requires rows != [] && rows[Locate(rows, i).0] != []
  {
    var row := rows[Locate(rows, i).0];
    var p := Clip(Locate(rows, i).1, |row|);
    FitRow(InsertAt(row, p, item), p)
  }

  function InsertRows(rows: seq<seq<Tile>>, item: Tile, i: int): seq<Tile>
    requires rows != [] && rows[Locate(rows, i).0] != []
  {
    var fit := InsertFit(rows, item, i);
    Reassemble(rows, Locate(rows, i).0, fit.0, fit.1)
  }

  function Inserted(list: seq<Tile>, item: Tile, i: int): seq<Tile> {
    RowsAreNotEmpty(list);
    if Rows(list) == [] then [item] else InsertRows(Rows(list), item, i)
  }

  lemma {:induction false} RowsAreNotEmpty(list: seq<Tile>)
    ensures forall r :: 0 <= r < |Rows(list)| ==> Rows(list)[r] != []
    ensures list == [] <==> Rows(list) == []
  {
    AdmitFacts(list);
    PackIsGreedy([], AdmitAll(list));
    PackKeepsList([], AdmitAll(list));
  }

  /** The loop that takes width off the dropped widget at p. */
  method NarrowDropped(row0: seq<Tile>, p: nat) returns (row: seq<Tile>)
    requires p < |row0|
    ensures row == NarrowN(row0, p, NARROW_CAP)
  {
    row := row0;
    var g := 0;
    while Width(row) > COLUMNS && row[p].span > MIN_SPAN && g < 12
      invariant 0 <= g <= 12 && |row| == |row0|
      invariant NarrowN(row, p, 12 - g) == NarrowN(row0, p, NARROW_CAP)
      decreases 12 - g
    {
      row := row[p := row[p].(span := row[p].span - 1)];
      g := g + 1;
    }
  }

  method SqueezeRow(row0: seq<Tile>, p: nat) returns (row: seq<Tile>)
    requires p < |row0|
    ensures row == Squeezed(row0, p)
  {
    row := ShaveNeighbours(row0, p);
    row := NarrowDropped(row, p);
  }

  /** The closing loop: hand the slack to the narrowest, sorting the row each time. */
  method CloseSlack(row0: seq<Tile>) returns (row: seq<Tile>)
    requires row0 != []
    ensures row == SlackN(row0, SLACK_CAP)
  {
    row := row0;
    var g := 0;
    while Width(row) < COLUMNS && g < 24
      invariant 0 <= g <= 24 && row != []
      invariant SlackN(row, 24 - g) == SlackN(row0, SLACK_CAP)
      decreases 24 - g
    {
      row := StableSort(row);
      row := row[0 := row[0].(span := row[0].span + 1)];
      g := g + 1;
    }
  }

  /** Locate, continued from row r with `seen` entries passed. */
  function LocateFrom(rows: seq<seq<Tile>>, i: int, r: nat, seen: int): (nat, int)
    requires rows != []
    decreases |rows| - r
  {
    if r >= |rows| then (|rows| - 1, |rows[|rows| - 1]|)
    else if i < seen + |rows[r]| then (r, i - seen)
    else LocateFrom(rows, i, r + 1, seen + |rows[r]|)
  }

  lemma {:induction false} LocateFromFront(rows: seq<seq<Tile>>, i: int, r: nat, seen: int)
    requires r < |rows|
    ensures LocateFrom(rows, i, r, seen) == (Locate(rows[r..], i - seen).0 + r, Locate(rows[r..], i - seen).1)
    decreases |rows| - r
  {
    var rest := rows[r..];
    assert rest[0] == rows[r] && rest[1..] == rows[r+1..];
    if i >= seen + |rows[r]| && r + 1 < |rows| {
      LocateFromFront(rows, i, r + 1, seen + |rows[r]|);
    }
  }

  /** Which row and place list index i falls on. */
  method FindPlace(rows: seq<seq<Tile>>, i: int) returns (ri: nat, pos: int)
    requires rows != []
    ensures (ri, pos) == Locate(rows, i)
  {
    LocateFromFront(rows, i, 0, 0);
    assert rows[0..] == rows;
    var seen := 0;
    ri, pos := |rows| - 1, |rows[|rows| - 1]|;
    var r := 0;
    while r < |rows|
      invariant 0 <= r <= |rows|
      invariant (ri, pos) == (|rows| - 1, |rows[|rows| - 1]|)
      invariant LocateFrom(rows, i, r, seen) == LocateFrom(rows, i, 0, 0)
    {
      if i < seen + |rows[r]| {
        return r, i - seen;
      }
      seen := seen + |rows[r]|;
      r := r + 1;
    }
  }

  /** Squeeze a row; when it is genuinely full, its last neighbour leaves. */
  method FitInto(row0: seq<Tile>, p: nat) returns (row: seq<Tile>, spilled: seq<Tile>)
    requires p < |row0| && |row0| >= 2
    ensures (row, spilled) == FitRow(row0, p)
  {
    row := SqueezeRow(row0, p);
    spilled := [];
    if Width(row) > COLUMNS {
      var j := if |row| - 1 == p then |row| - 2 else |row| - 1;
      row, spilled := row[..j] + row[j+1..], [row[j]];
    }
    row := CloseSlack(row);
  }

  method InsertBeside(list: seq<Tile>, item: Tile, i: int) returns (out: seq<Tile>)
    ensures out == Inserted(list, item, i)
  {
    var packed := ToRows(list);
    RowsAreNotEmpty(list);
    if |packed| == 0 {
      return [item];
    }
    var ri, pos := FindPlace(packed, i);
    var p := Max(0, Min(pos, |packed[ri]|));
    var row, spilled := FitInto(packed[ri][..p] + [item] + packed[ri][p..], p);
    var rows := packed[..ri] + [row] + packed[ri+1..];
    if spilled != [] {
      rows := packed[..ri] + [row] + [spilled] + packed[ri+1..];
    }
    FlatReassembled(packed, ri, row, spilled);
    out := Flat(rows);
  }

  lemma {:induction false} FlatReassembled(rows: seq<seq<Tile>>, ri: nat, row: seq<Tile>, spilled: seq<Tile>)
    requires ri < |rows|
    ensures Flat(rows[..ri] + [row] + [spilled] + rows[ri+1..]) == Reassemble(rows, ri, row, spilled)
    ensures Flat(rows[..ri] + [row] + rows[ri+1..]) == Reassemble(rows, ri, row, [])
  {
    FlatAround(rows[..ri] + [row], spilled, rows[ri+1..]);
    FlatConcat(rows[..ri], [row]);
    FlatOne(row);
    FlatAround(rows[..ri], row, rows[ri+1..]);
  }

  lemma {:induction false} FlatAround(before: seq<seq<Tile>>, row: seq<Tile>, after: seq<seq<Tile>>)
    ensures Flat(before + [row] + after) == Flat(before) + row + Flat(after)
  {
    FlatConcat(before + [row], after);
    FlatConcat(before, [row]);
    FlatOne(row);
  }

  // ---------- nothing lost, nothing doubled ----------

  lemma {:induction false} IdsOfSame(a: seq<Tile>, b: seq<Tile>)
    requires SameContents(a, b)
    ensures Ids(a) == Ids(b)
  {
  }

  lemma {:induction false} SqueezeKeepsIds(row: seq<Tile>, p: nat)
    requires p < |row|
    ensures SameContents(Squeezed(row, p), row)
    ensures Ids(Squeezed(row, p)) == Ids(row)
  {
    ShaveKeepsContents(row, p, SHAVE_CAP);
    NarrowKeepsContents(ShaveN(row, p, SHAVE_CAP), p, NARROW_CAP);
    IdsOfSame(Squeezed(row, p), row);
  }

  lemma {:induction false} FitRowKeepsIds(row: seq<Tile>, p: nat)
    requires p < |row| && |row| >= 2
    ensures var fit := FitRow(row, p);
      multiset(Ids(fit.0)) + multiset(Ids(fit.1)) == multiset(Ids(row))
  {
    SqueezeKeepsIds(row, p);
    var r := Squeezed(row, p);
    if Width(r) > COLUMNS {
      var j := LastNeighbour(|r|, p);
      SlackKeepsIds(RemoveAt(r, j), SLACK_CAP);
      IdsWithout(r, j);
      assert Ids([r[j]]) == [r[j].id];
    } else {
      SlackKeepsIds(r, SLACK_CAP);
      assert Ids([]) == [];
    }
  }

  lemma {:induction false} SlackKeepsIds(row: seq<Tile>, g: nat)
    requires row != []
    ensures |SlackN(row, g)| == |row|
    ensures multiset(Ids(SlackN(row, g))) == multiset(Ids(row))
    decreases g
  {
    if Width(row) < COLUMNS && g > 0 {
      SlackStepFacts(row);
      SlackKeepsIds(SlackStep(row), g - 1);
    }
  }

  lemma {:induction false} IdsAround(a: seq<Tile>, b: seq<Tile>, c: seq<Tile>, d: seq<Tile>)
    ensures multiset(Ids(a + b + c + d)) == multiset(Ids(a)) + multiset(Ids(b)) + multiset(Ids(c)) + multiset(Ids(d))
  {
    IdsConcat(a + b + c, d);
    IdsConcat(a + b, c);
    IdsConcat(a, b);
  }

  lemma {:induction false} SplitAtRow(rows: seq<seq<Tile>>, ri: nat)
    requires ri < |rows|
    ensures Flat(rows) == Flat(rows[..ri]) + rows[ri] + Flat(rows[ri+1..])
  {
    assert rows == rows[..ri] + [rows[ri]] + rows[ri+1..];
    FlatAround(rows[..ri], rows[ri], rows[ri+1..]);
  }

  lemma {:induction false} ReassembleIds(rows: seq<seq<Tile>>, ri: nat, row: seq<Tile>, spilled: seq<Tile>)
    requires ri < |rows|
    ensures multiset(Ids(Reassemble(rows, ri, row, spilled))) + multiset(Ids(rows[ri]))
         == multiset(Ids(Flat(rows))) + multiset(Ids(row)) + multiset(Ids(spilled))
  {
    SplitAtRow(rows, ri);
    var a, c := Flat(rows[..ri]), Flat(rows[ri+1..]);
    IdsAround(a, rows[ri], [], c);
    IdsAround(a, row, spilled, c);
    assert a + rows[ri] + [] + c == Flat(rows);
    assert Ids([]) == [];
  }

  lemma {:induction false} InsertFitIds(rows: seq<seq<Tile>>, item: Tile, i: int)
    requires rows != [] && rows[Locate(rows, i).0] != []
    ensures var fit := InsertFit(rows, item, i);
      multiset(Ids(fit.0)) + multiset(Ids(fit.1)) == multiset(Ids(rows[Locate(rows, i).0])) + multiset{item.id}
  {
    var row := rows[Locate(rows, i).0];
    var p := Clip(Locate(rows, i).1, |row|);
    IdsWith(row, p, item);
    FitRowKeepsIds(InsertAt(row, p, item), p);
  }

  lemma {:induction false} CancelCommon<T>(
      a: multiset<T>, b: multiset<T>, c: multiset<T>, d: multiset<T>, e: multiset<T>)
    requires a + b == c + d && d == b + e
    ensures a == c + e
  {
    forall x
      ensures a[x] == (c + e)[x]
    {
      assert (a + b)[x] == (c + d)[x];
    }
  }

  lemma {:induction false} InsertRowsIds(rows: seq<seq<Tile>>, item: Tile, i: int)
    requires rows != [] && rows[Locate(rows, i).0] != []
    ensures multiset(Ids(InsertRows(rows, item, i))) == multiset(Ids(Flat(rows))) + multiset{item.id}
  {
    var fit := InsertFit(rows, item, i);
    var ri := Locate(rows, i).0;
    InsertFitIds(rows, item, i);
    ReassembleIds(rows, ri, fit.0, fit.1);
    CancelCommon(multiset(Ids(Reassemble(rows, ri, fit.0, fit.1))), multiset(Ids(rows[ri])),
                 multiset(Ids(Flat(rows))), multiset(Ids(fit.0)) + multiset(Ids(fit.1)), multiset{item.id});
  }

  /**
   * Whatever is shaved, spilled or sorted on the way, the widgets of the result
   * are the old ones plus the dropped one.
   */
  lemma {:induction false} InsertKeepsWidgets(list: seq<Tile>, item: Tile, i: int)
    ensures multiset(Ids(Inserted(list, item, i))) == multiset(Ids(list)) + multiset{item.id}
  {
    RowsAreNotEmpty(list);
    if list == [] {
      assert Ids([item]) == [item.id];
      assert Ids(list) == [];
    } else {
      InsertRowsIds(Rows(list), item, i);
      RowsKeepIds(list);
    }
  }

  lemma {:induction false} RowsKeepIds(list: seq<Tile>)
    ensures Ids(Flat(Rows(list))) == Ids(list)
  {
    PackKeepsList([], AdmitAll(list));
    AdmitFacts(list);
  }

  // ---------- the caps never cut a loop short ----------

  /** The squeezing loops without caps. */
  ghost function SqueezedUncapped(row: seq<Tile>, p: nat): (r: seq<Tile>)
    requires p < |row|
    ensures |r| == |row|
  {
    ShaveFacts(row, p);
    Narrow(Shave(row, p), p)
  }

  ghost function FitRowUncapped(row: seq<Tile>, p: nat): (seq<Tile>, seq<Tile>)
    requires p < |row| && |row| >= 2
  {
    var r := SqueezedUncapped(row, p);
    if Width(r) > COLUMNS then
      var j := LastNeighbour(|r|, p);
      (Slack(RemoveAt(r, j)), [r[j]])
    else
      (Slack(r), [])
  }

  lemma {:induction false} SqueezeCaps(row: seq<Tile>, p: nat, lo: int)
    requires p < |row| && 2 <= lo <= MIN_SPAN && Spans(row, lo) && Width(row) <= 2 * COLUMNS
    ensures Squeezed(row, p) == SqueezedUncapped(row, p)
    ensures Spans(Squeezed(row, p), lo)
  {
    ShaveCap(row, p, SHAVE_CAP);
    ShaveFacts(row, p);
    NarrowCap(Shave(row, p), p, NARROW_CAP);
  }

  lemma {:induction false} FitRowCaps(row: seq<Tile>, p: nat)
    requires p < |row| && |row| >= 2 && Spans(row, 2) && Width(row) <= 2 * COLUMNS
    ensures FitRow(row, p) == FitRowUncapped(row, p)
  {
    SqueezeCaps(row, p, 2);
    var r := Squeezed(row, p);
    WidthBounds(r, 2);
    if Width(r) > COLUMNS {
      var j := LastNeighbour(|r|, p);
      WidthBounds(RemoveAt(r, j), 2);
      SlackCap(RemoveAt(r, j), SLACK_CAP);
    } else {
      SlackCap(r, SLACK_CAP);
    }
  }

  /** For spans 2..12 the capped insert computes the uncapped one, on every board. */
  lemma {:induction false} InsertCapsNeverBite(list: seq<Tile>, item: Tile, i: int)
    requires list != [] && 2 <= item.span <= COLUMNS
    ensures var rows := Rows(list);
      && rows != []
      && var at := Locate(rows, i);
      && rows[at.0] != []
      && var p := Clip(at.1, |rows[at.0]|);
      && var fit := FitRowUncapped(InsertAt(rows[at.0], p, item), p);
      Inserted(list, item, i) == Reassemble(rows, at.0, fit.0, fit.1)
  {
    RowsAreNotEmpty(list);
    AdmitFacts(list);
    RowsFacts(list, 2);
    var rows := Rows(list);
    var row := rows[Locate(rows, i).0];
    var p := Clip(Locate(rows, i).1, |row|);
    WidthInsert(row, p, item);
    FitRowCaps(InsertAt(row, p, item), p);
  }

  // ---------- spans stay at three or more ----------

  lemma {:induction false} FitRowSpans(row: seq<Tile>, p: nat)
    requires p < |row| && |row| >= 2 && Spans(row, MIN_SPAN) && Width(row) <= 2 * COLUMNS
    ensures Spans(FitRow(row, p).0, MIN_SPAN) && Spans(FitRow(row, p).1, MIN_SPAN)
  {
    FitRowCaps(row, p);
    SqueezeCaps(row, p, MIN_SPAN);
    var r := Squeezed(row, p);
    if Width(r) > COLUMNS {
      var j := LastNeighbour(|r|, p);
      SlackSpans(RemoveAt(r, j), MIN_SPAN);
    } else {
      SlackSpans(r, MIN_SPAN);
    }
  }

  lemma {:induction false} SpansConcat(a: seq<Tile>, b: seq<Tile>, lo: int)
    requires Spans(a, lo) && Spans(b, lo)
    ensures Spans(a + b, lo)
  {
  }

  lemma {:induction false} ReassembleSpans(rows: seq<seq<Tile>>, ri: nat, row: seq<Tile>, spilled: seq<Tile>, lo: int)
    requires ri < |rows| && Spans(row, lo) && Spans(spilled, lo)
    requires forall r :: 0 <= r < |rows| ==> Spans(rows[r], lo)
    ensures Spans(Reassemble(rows, ri, row, spilled), lo)
  {
    SpansOfFlat(rows[..ri], lo);
    SpansOfFlat(rows[ri+1..], lo);
    SpansConcat(Flat(rows[..ri]), row, lo);
    SpansConcat(Flat(rows[..ri]) + row, spilled, lo);
    SpansConcat(Flat(rows[..ri]) + row + spilled, Flat(rows[ri+1..]), lo);
  }

  lemma {:induction false} InsertKeepsMinimum(list: seq<Tile>, item: Tile, i: int)
    requires Spans(list, MIN_SPAN) && MIN_SPAN <= item.span <= COLUMNS
    ensures Spans(Inserted(list, item, i), MIN_SPAN)
  {
    RowsAreNotEmpty(list);
    var rows := Rows(list);
    if rows != [] {
      AdmitFacts(list);
      RowsFacts(list, MIN_SPAN);
      var row := rows[Locate(rows, i).0];
      var p := Clip(Locate(rows, i).1, |row|);
      WidthInsert(row, p, item);
      FitRowSpans(InsertAt(row, p, item), p);
      var fit := InsertFit(rows, item, i);
      ReassembleSpans(rows, Locate(rows, i).0, fit.0, fit.1, MIN_SPAN);
    }
  }

  // ---------- an insert into a tiled board is local ----------

  /** Width the dropped tile ends with, next to n others of at least three columns. */
  function RoomFor(want: int, n: nat): int { Max(MIN_SPAN, Min(want, COLUMNS - MIN_SPAN * n)) }

  lemma {:induction false} NarrowOutcome(row: seq<Tile>, p: nat)
    requires p < |row|
    ensures var d := Max(0, Min(Width(row) - COLUMNS, row[p].span - MIN_SPAN));
      && Width(Narrow(row, p)) == Width(row) - d
      && |Narrow(row, p)| == |row| && Narrow(row, p)[p].span == row[p].span - d
      && forall k :: 0 <= k < |row| && k != p ==> Narrow(row, p)[k] == row[k]
  {
    WidthUpdate(row, p, Narrow(row, p)[p]);
  }

  /** Up to four tiles of at least three columns always squeeze to exactly twelve. */
  lemma {:induction false} SqueezeToFit(row: seq<Tile>, p: nat)
    requires p < |row| <= 4 && Spans(row, MIN_SPAN) && COLUMNS <= Width(row) <= 2 * COLUMNS
    ensures Width(Squeezed(row, p)) == COLUMNS && Spans(Squeezed(row, p), MIN_SPAN)
    ensures Squeezed(row, p)[p].span == RoomFor(row[p].span, |row| - 1)
  {
    SqueezeCaps(row, p, MIN_SPAN);
    ShaveFacts(row, p);
    ShaveOutcome(row, p);
    NarrowOutcome(Shave(row, p), p);
  }

  /** Five tiles, four of them three wide: the fifth shrinks to three and the row is still over. */
  lemma {:induction false} SqueezeFive(row: seq<Tile>, p: nat)
    requires p < |row| == 5 && MIN_SPAN <= row[p].span <= COLUMNS
    requires forall k :: 0 <= k < 5 && k != p ==> row[k].span == MIN_SPAN
    ensures |Squeezed(row, p)| == 5 && Width(Squeezed(row, p)) > COLUMNS
    ensures forall k :: 0 <= k < 5 ==> Squeezed(row, p)[k].span == MIN_SPAN
  {
    WidthAroundOne(row, p);
    SqueezeCaps(row, p, MIN_SPAN);
    ShaveFacts(row, p);
    NarrowOutcome(Shave(row, p), p);
  }

  /** In a full row of at most three widgets: full again, the order as asked, nothing spilled. */
  lemma {:induction false} FitRowWithRoom(row: seq<Tile>, p: nat, item: Tile)
    requires p <= |row| && 1 <= |row| <= 3 && Spans(row, MIN_SPAN) && Width(row) == COLUMNS
    requires MIN_SPAN <= item.span <= COLUMNS
    ensures var fit := FitRow(InsertAt(row, p, item), p);
      && fit.1 == []
      && Width(fit.0) == COLUMNS && Spans(fit.0, MIN_SPAN)
      && SameContents(fit.0, InsertAt(row, p, item))
      && fit.0[p].span == RoomFor(item.span, |row|)
  {
    WidthInsert(row, p, item);
    SqueezeToFit(InsertAt(row, p, item), p);
    SqueezeKeepsIds(InsertAt(row, p, item), p);
  }

  lemma {:induction false} InsertThenRemove(row: seq<Tile>, p: nat, item: Tile)
    requires p <= |row| == 4
    ensures RemoveAt(InsertAt(row, p, item), LastNeighbour(5, p)) == InsertAt(row[..3], Min(p, 3), item)
  {
    if p == 4 {
      assert InsertAt(row, p, item) == row + [item];
      assert InsertAt(row[..3], 3, item) == row[..3] + [item];
    } else {
      assert InsertAt(row, p, item) == InsertAt(row[..3], p, item) + [row[3]];
    }
  }

  /** Of five threes the last neighbour leaves, and it is the old fourth. */
  lemma {:induction false} SpillOfFive(row: seq<Tile>, p: nat, item: Tile, r: seq<Tile>)
    requires p <= |row| == 4 && SameContents(r, InsertAt(row, p, item))
    requires forall k :: 0 <= k < 4 ==> row[k].span == MIN_SPAN
    requires forall k :: 0 <= k < 5 ==> r[k].span == MIN_SPAN
    ensures r[LastNeighbour(5, p)] == row[3]
    ensures var left := RemoveAt(r, LastNeighbour(5, p));
      && SameContents(left, InsertAt(row[..3], Min(p, 3), item))
      && (forall k :: 0 <= k < 4 ==> left[k].span == MIN_SPAN)
      && Width(left) == COLUMNS
  {
    var j := LastNeighbour(5, p);
    var ins := InsertAt(row, p, item);
    assert ins[j] == row[3];
    var left := RemoveAt(r, j);
    assert RemoveAt(ins, j) == InsertAt(row[..3], Min(p, 3), item) by {
      InsertThenRemove(row, p, item);
    }
    forall k | 0 <= k < 4
      ensures left[k] == r[if k < j then k else k + 1] && RemoveAt(ins, j)[k] == ins[if k < j then k else k + 1]
    {
    }
    WidthOfThrees(left);
  }

  /** In a full row of four (all three wide): the item takes three columns, the last neighbour leaves. */
  lemma {:induction false} FitRowFull(row: seq<Tile>, p: nat, item: Tile)
    requires p <= |row| && |row| == 4 && Spans(row, MIN_SPAN) && Width(row) == COLUMNS
    requires MIN_SPAN <= item.span <= COLUMNS
    ensures var fit := FitRow(InsertAt(row, p, item), p);
      && fit.1 == [row[3]] && |fit.0| == 4
      && SameContents(fit.0, InsertAt(row[..3], Min(p, 3), item))
      && (forall k :: 0 <= k < 4 ==> fit.0[k].span == MIN_SPAN)
  {
    FourThrees(row);
    var ins := InsertAt(row, p, item);
    FiveWithThrees(row, p, item);
    SqueezeFive(ins, p);
    SqueezeKeepsIds(ins, p);
    SpillOfFive(row, p, item, Squeezed(ins, p));
  }

  lemma {:induction false} FitRowShort(row: seq<Tile>, p: nat)
    requires p < |row| && |row| >= 2 && Spans(row, MIN_SPAN) && Width(row) < COLUMNS
    ensures FitRow(row, p).1 == [] && Width(FitRow(row, p).0) == COLUMNS
  {
    FitRowCaps(row, p);
    SqueezeCaps(row, p, MIN_SPAN);
    ShaveFacts(row, p);
    assert Squeezed(row, p) == row;
    SlackFacts(row);
  }

  lemma {:induction false} FitRowFills(row: seq<Tile>, p: nat, item: Tile)
    requires p <= |row| && row != [] && Spans(row, MIN_SPAN) && Width(row) <= COLUMNS
    requires MIN_SPAN <= item.span <= COLUMNS
    ensures var fit := FitRow(InsertAt(row, p, item), p);
      Width(fit.0) == COLUMNS && (fit.1 == [] <==> |row| < 4)
  {
    var ins := InsertAt(row, p, item);
    WidthInsert(row, p, item);
    WidthBounds(row, MIN_SPAN);
    if |row| == 4 {
      FitRowFull(row, p, item);
      WidthOfThrees(FitRow(ins, p).0);
    } else if Width(ins) < COLUMNS {
      FitRowShort(ins, p);
    } else {
      SqueezeToFit(ins, p);
    }
  }

  /**
   * The row a widget is dropped on always ends at exactly twelve, also on a
   * board with gaps; a neighbour has to leave exactly when the row held four.
   */
  lemma {:induction false} InsertFillsItsRow(list: seq<Tile>, item: Tile, i: int)
    requires list != [] && Spans(list, MIN_SPAN) && MIN_SPAN <= item.span <= COLUMNS
    ensures var rows := Rows(list);
      && rows != []
      && var hit := rows[Locate(rows, i).0];
      && hit != []
      && Width(InsertFit(rows, item, i).0) == COLUMNS
      && (InsertFit(rows, item, i).1 == [] <==> |hit| < 4)
  {
    RowsAreNotEmpty(list);
    AdmitFacts(list);
    RowsFacts(list, MIN_SPAN);
    var rows := Rows(list);
    var hit := rows[Locate(rows, i).0];
    FitRowFills(hit, Clip(Locate(rows, i).1, |hit|), item);
  }

  lemma {:induction false} FiveWithThrees(row: seq<Tile>, p: nat, item: Tile)
    requires p <= |row| == 4 && forall k :: 0 <= k < 4 ==> row[k].span == MIN_SPAN
    ensures var ins := InsertAt(row, p, item);
      |ins| == 5 && ins[p] == item && forall k :: 0 <= k < 5 && k != p ==> ins[k].span == MIN_SPAN
  {
  }

  lemma {:induction false} WidthOfFour(row: seq<Tile>)
    requires |row| == 4
    ensures Width(row) == row[0].span + row[1].span + row[2].span + row[3].span
  {
    assert row[3..][1..] == [];
    assert Width(row[3..]) == row[3].span;
    assert row[2..][1..] == row[3..];
    assert Width(row[2..]) == row[2].span + row[3].span;
    assert row[1..][1..] == row[2..];
    assert Width(row[1..]) == row[1].span + Width(row[2..]);
    assert Width(row) == row[0].span + Width(row[1..]);
  }

  lemma {:induction false} FourThrees(row: seq<Tile>)
    requires |row| == 4 && Spans(row, MIN_SPAN) && Width(row) == COLUMNS
    ensures forall k :: 0 <= k < 4 ==> row[k].span == MIN_SPAN
  {
    WidthOfFour(row);
    var a, b, c, d := row[0].span, row[1].span, row[2].span, row[3].span;
    assert a >= 3 && b >= 3 && c >= 3 && d >= 3 && a + b + c + d == 12;
    assert a == 3 && b == 3 && c == 3 && d == 3;
  }

  lemma {:induction false} FullRowHoldsFour(row: seq<Tile>)
    requires FullRow(row) && Spans(row, MIN_SPAN)
    ensures 1 <= |row| <= 4
  {
    WidthBounds(row, MIN_SPAN);
  }

  /** A board that tiles, with every widget at least three columns wide. */
  ghost predicate Banded(list: seq<Tile>) {
    Tiled(list) && Spans(list, MIN_SPAN)
  }

  lemma {:induction false} BandedRows(list: seq<Tile>)
    requires Banded(list)
    ensures Rows(list) == PackFrom([], list) && Flat(Rows(list)) == list
    ensures forall r :: 0 <= r < |Rows(list)| ==>
      FullRow(Rows(list)[r]) && Spans(Rows(list)[r], MIN_SPAN) && 1 <= |Rows(list)[r]| <= 4
  {
    TiledIsAdmitted(list);
    AdmitFacts(list);
    RowsFacts(list, MIN_SPAN);
    forall r | 0 <= r < |Rows(list)|
      ensures 1 <= |Rows(list)[r]| <= 4
    {
      FullRowHoldsFour(Rows(list)[r]);
    }
  }

  lemma {:induction false} FullRowsAreTheirOwnRows(rows: seq<seq<Tile>>)
    requires forall r :: 0 <= r < |rows| ==> Width(rows[r]) == COLUMNS && Spans(rows[r], 1)
    ensures PackFrom([], Flat(rows)) == rows
  {
    FullRowsStay(rows, []);
    assert Flat(rows) + [] == Flat(rows);
  }

  lemma {:induction false} HeightsWith(row: seq<Tile>, p: nat, item: Tile, fit: seq<Tile>)
    requires p <= |row| && SameContents(fit, InsertAt(row, p, item)) && item.height != 0
    requires forall k :: 0 <= k < |row| ==> row[k].height != 0
    ensures forall k :: 0 <= k < |fit| ==> fit[k].height != 0
  {
  }

  lemma {:induction false} InsertRowsLocal(rows: seq<seq<Tile>>, item: Tile, i: nat)
    requires rows != [] && forall r :: 0 <= r < |rows| ==> FullRow(rows[r]) && Spans(rows[r], MIN_SPAN)
    requires MIN_SPAN <= item.span <= COLUMNS && item.height != 0
    requires 1 <= |rows[Locate(rows, i).0]| <= 3
    ensures var at := Locate(rows, i); var row := InsertFit(rows, item, i).0;
      && SameContents(row, InsertAt(rows[at.0], at.1, item))
      && Width(row) == COLUMNS && Spans(row, MIN_SPAN)
      && row[at.1].span == RoomFor(item.span, |rows[at.0]|)
      && (forall k :: 0 <= k < |row| ==> row[k].height != 0)
      && InsertRows(rows, item, i) == Flat(rows[at.0 := row])
  {
    var at := Locate(rows, i);
    FitRowWithRoom(rows[at.0], at.1, item);
    var row := InsertFit(rows, item, i).0;
    HeightsWith(rows[at.0], at.1, item, row);
    OneRowReplaced(rows, at.0, row);
  }

  lemma {:induction false} OneRowReplaced(rows: seq<seq<Tile>>, ri: nat, row: seq<Tile>)
    requires ri < |rows|
    ensures Reassemble(rows, ri, row, []) == Flat(rows[ri := row])
  {
    FlatReassembled(rows, ri, row, []);
    assert rows[ri := row] == rows[..ri] + [row] + rows[ri+1..];
  }

  /**
   * Dropping a new widget on a row of at most three: it lands at the requested
   * place of that row with as much of its width as three columns each leave, the
   * row is full, every other row is untouched, and normalise then only evens out
   * the heights of that one row.
   */
  lemma {:induction false} InsertIsLocal(list: seq<Tile>, item: Tile, i: nat)
    requires Banded(list) && list != []
    requires MIN_SPAN <= item.span <= COLUMNS && item.height != 0
    requires Rows(list) != [] && 1 <= |Rows(list)[Locate(Rows(list), i).0]| <= 3
    ensures var rows := Rows(list); var at := Locate(rows, i);
      var row := InsertFit(rows, item, i).0; var out := Inserted(list, item, i);
      && SameContents(row, InsertAt(rows[at.0], at.1, item))
      && Width(row) == COLUMNS && Spans(row, MIN_SPAN)
      && row[at.1].span == RoomFor(item.span, |rows[at.0]|)
      && PackFrom([], out) == rows[at.0 := row]
      && PackFrom([], Normalised(out)) == rows[at.0 := WithHeight(row, MaxHeight(row))]
  {
    BandedRows(list);
    var rows := Rows(list);
    var ri := Locate(rows, i).0;
    InsertRowsLocal(rows, item, i);
    var row := InsertFit(rows, item, i).0;
    ReplaceRow(rows, ri, row);
  }

  /** Replacing one full row by another of the same width touches nothing else. */
  lemma {:induction false} ReplaceRow(rows: seq<seq<Tile>>, ri: nat, row: seq<Tile>)
    requires ri < |rows| && forall r :: 0 <= r < |rows| ==> FullRow(rows[r]) && Spans(rows[r], MIN_SPAN)
    requires row != [] && Width(row) == COLUMNS && Spans(row, MIN_SPAN)
    requires forall k :: 0 <= k < |row| ==> row[k].height != 0
    ensures PackFrom([], Flat(rows[ri := row])) == rows[ri := row]
    ensures PackFrom([], Normalised(Flat(rows[ri := row]))) == rows[ri := WithHeight(row, MaxHeight(row))]
  {
    var after := rows[ri := row];
    FullRowsAreTheirOwnRows(after);
    SpansOfFlat(after, MIN_SPAN);
    HeightsOfFlat(after);
    AdmitFacts(Flat(after));
    NormaliseTiles(Flat(after), MIN_SPAN);
    forall r | 0 <= r < |after|
      ensures LevelRow(after[r]) == rows[ri := WithHeight(row, MaxHeight(row))][r]
    {
      if r != ri {
        FullRowIsLevel(rows[r]);
      }
    }
    assert LevelRows(after) == rows[ri := WithHeight(row, MaxHeight(row))];
  }

  lemma {:induction false} HeightsOfFlat(rows: seq<seq<Tile>>)
    requires forall r, k :: 0 <= r < |rows| && 0 <= k < |rows[r]| ==> rows[r][k].height != 0
    ensures forall k :: 0 <= k < |Flat(rows)| ==> Flat(rows)[k].height != 0
  {
    if rows != [] {
      forall r, k | 0 <= r < |rows[1..]| && 0 <= k < |rows[1..][r]|
        ensures rows[1..][r][k].height != 0
      {
        assert rows[1..][r] == rows[r+1];
      }
      HeightsOfFlat(rows[1..]);
    }
  }

  /**
   * Dropping onto a row of four: the widget takes three columns in that row (as
   * the fourth at the latest), the rows before are untouched, and the old
   * fourth widget moves on to the front of what follows, which is repacked.
   */
  lemma {:induction false} InsertIntoFullRow(list: seq<Tile>, item: Tile, i: nat)
    requires Banded(list) && list != []
    requires MIN_SPAN <= item.span <= COLUMNS && item.height != 0
    requires Rows(list) != [] && |Rows(list)[Locate(Rows(list), i).0]| == 4
    ensures var rows := Rows(list); var at := Locate(rows, i); var hit := rows[at.0];
      var row := InsertFit(rows, item, i).0;
      && SameContents(row, InsertAt(hit[..3], Min(at.1, 3), item))
      && (forall k :: 0 <= k < |row| ==> row[k].span == MIN_SPAN)
      && PackFrom([], Inserted(list, item, i))
           == rows[..at.0] + [row] + PackFrom([], [hit[3]] + Flat(rows[at.0+1..]))
  {
    BandedRows(list);
    InsertRowsFull(Rows(list), item, i);
  }

  lemma {:induction false} InsertRowsFull(rows: seq<seq<Tile>>, item: Tile, i: nat)
    requires rows != [] && forall r :: 0 <= r < |rows| ==> FullRow(rows[r]) && Spans(rows[r], MIN_SPAN)
    requires MIN_SPAN <= item.span <= COLUMNS
    requires |rows[Locate(rows, i).0]| == 4
    ensures var at := Locate(rows, i); var hit := rows[at.0]; var row := InsertFit(rows, item, i).0;
      && SameContents(row, InsertAt(hit[..3], Min(at.1, 3), item))
      && (forall k :: 0 <= k < |row| ==> row[k].span == MIN_SPAN)
      && PackFrom([], InsertRows(rows, item, i))
           == rows[..at.0] + [row] + PackFrom([], [hit[3]] + Flat(rows[at.0+1..]))
  {
    var at := Locate(rows, i);
    var hit := rows[at.0];
    FitRowFull(hit, at.1, item);
    var row := InsertFit(rows, item, i).0;
    WidthOfThrees(row);
    SpilledBehind(rows[..at.0], row, hit[3], rows[at.0+1..]);
    assert InsertRows(rows, item, i) == Flat(rows[..at.0]) + row + [hit[3]] + Flat(rows[at.0+1..]);
  }

  lemma {:induction false} SpilledBehind(before: seq<seq<Tile>>, row: seq<Tile>, t: Tile, after: seq<seq<Tile>>)
    requires forall r :: 0 <= r < |before| ==> Width(before[r]) == COLUMNS && Spans(before[r], 1)
    requires forall r :: 0 <= r < |after| ==> Spans(after[r], 1)
    requires Width(row) == COLUMNS && Spans(row, 1) && 1 <= t.span <= COLUMNS
    ensures PackFrom([], Flat(before) + row + [t] + Flat(after)) == before + [row] + PackFrom([], [t] + Flat(after))
  {
    var rest := [t] + Flat(after);
    SpansOfFlat(after, 1);
    FullRowsStay(before + [row], rest);
    FlatConcat(before, [row]);
    FlatOne(row);
    Assoc(Flat(before) + row, [t], Flat(after));
  }

  // ---------- and with spans of two ----------

  /** What a row comes down to when every tile wider than three gives up the rest. */
  function Least(row: seq<Tile>): int {
    if row == [] then 0 else Min(row[0].span, MIN_SPAN) + Least(row[1..])
  }

  lemma {:induction false} LeastBelow(row: seq<Tile>, r: seq<Tile>)
    requires |row| == |r| && forall k :: 0 <= k < |row| ==> Min(row[k].span, MIN_SPAN) <= r[k].span
    ensures Least(row) <= Width(r)
  {
    if row != [] {
      LeastBelow(row[1..], r[1..]);
    }
  }

  lemma {:induction false} LeastExact(row: seq<Tile>, r: seq<Tile>)
    requires |row| == |r| && forall k :: 0 <= k < |row| ==> r[k].span == Min(row[k].span, MIN_SPAN)
    ensures Width(r) == Least(row)
  {
    if row != [] {
      LeastExact(row[1..], r[1..]);
    }
  }

  lemma {:induction false} SqueezedSpans(row: seq<Tile>, p: nat)
    requires p < |row| && Spans(row, 2) && Width(row) <= 2 * COLUMNS
    ensures var r := Squeezed(row, p);
      && (forall k :: 0 <= k < |row| ==> Min(row[k].span, MIN_SPAN) <= r[k].span)
      && (Width(r) > COLUMNS ==> forall k :: 0 <= k < |row| ==> r[k].span == Min(row[k].span, MIN_SPAN))
  {
    SqueezeCaps(row, p, 2);
    ShaveFacts(row, p);
    NarrowOutcome(Shave(row, p), p);
  }

  /**
   * The row that stays is exactly twelve wide unless it cannot come down to
   * twelve even without the neighbour that leaves.
   */
  lemma {:induction false} FitRowWidth(row: seq<Tile>, p: nat)
    requires p < |row| && |row| >= 2 && Spans(row, 2) && Width(row) <= 2 * COLUMNS
    ensures FitRow(row, p).1 == [] <==> Least(row) <= COLUMNS
    ensures Width(FitRow(row, p).0) ==
      if Least(row) <= COLUMNS then COLUMNS
      else Max(COLUMNS, Least(RemoveAt(row, LastNeighbour(|row|, p))))
  {
    SqueezedSpans(row, p);
    FitRowCaps(row, p);
    SqueezeCaps(row, p, 2);
    var r := Squeezed(row, p);
    LeastBelow(row, r);
    if Width(r) > COLUMNS {
      var j := LastNeighbour(|r|, p);
      LeastExact(row, r);
      LeastExact(RemoveAt(row, j), RemoveAt(r, j));
      SlackFacts(RemoveAt(r, j));
    } else {
      SlackFacts(r);
    }
  }

  /** Only boards with spans of two can be left with a row over twelve, and exactly these are. */
  lemma {:induction false} InsertFitsIff(list: seq<Tile>, item: Tile, i: int)
    requires list != [] && 2 <= item.span <= COLUMNS
    ensures var rows := Rows(list);
      && rows != []
      && var hit := rows[Locate(rows, i).0];
      && hit != []
      && var p := Clip(Locate(rows, i).1, |hit|);
      && var ins := InsertAt(hit, p, item);
      (Width(InsertFit(rows, item, i).0) == COLUMNS <==>
        Least(ins) <= COLUMNS || Least(RemoveAt(ins, LastNeighbour(|ins|, p))) <= COLUMNS)
  {
    RowsAreNotEmpty(list);
    AdmitFacts(list);
    RowsFacts(list, 2);
    var rows := Rows(list);
    var hit := rows[Locate(rows, i).0];
    var p := Clip(Locate(rows, i).1, |hit|);
    WidthInsert(hit, p, item);
    FitRowWidth(InsertAt(hit, p, item), p);
  }

  lemma {:induction false} LeastOfTwos(twos: seq<Tile>, t: Tile)
    requires (forall k :: 0 <= k < |twos| ==> twos[k].span == 2) && t.span >= MIN_SPAN
    ensures Least(twos + [t]) == 2 * |twos| + MIN_SPAN
  {
    if twos == [] {
      assert [t][1..] == [] && twos + [t] == [t];
    } else {
      LeastOfTwos(twos[1..], t);
      assert (twos + [t])[0] == twos[0] && (twos + [t])[1..] == twos[1..] + [t];
    }
  }

  /** A widget dropped at the end of a row of six twos: one leaves, and the row is still one over. */
  lemma {:induction false} TwosOverflow(twos: seq<Tile>, item: Tile)
    requires |twos| == 6 && (forall k :: 0 <= k < |twos| ==> twos[k].span == 2)
    requires MIN_SPAN <= item.span <= COLUMNS
    ensures var fit := FitRow(twos + [item], 6); Width(fit.0) == COLUMNS + 1 && fit.1 != []
  {
    var row := twos + [item];
    WidthBounds(twos, 2);
    WidthOfTwos(twos);
    WidthConcat(twos, [item]);
    assert Width([item]) == item.span;
    LeastOfTwos(twos, item);
    LeastOfTwos(twos[..5], item);
    assert RemoveAt(row, 5) == twos[..5] + [item];
    FitRowWidth(row, 6);
  }

  lemma {:induction false} WidthOfTwos(row: seq<Tile>)
    requires forall k :: 0 <= k < |row| ==> row[k].span == 2
    ensures Width(row) == 2 * |row|
  {
    if row != [] {
      WidthOfTwos(row[1..]);
    }
  }
}
