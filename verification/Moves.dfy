// Where a moved widget ends, with what width, and in what company.
module Moves {
  import opened Common
  import opened Tiles
  import opened Packing
  import opened Normalise
  import opened Squeeze
  import opened Insert
  import opened Landing
  import opened Resize
  import opened ResizeSticks
  import opened Presets
  import opened Editor
  import opened Drops

  // ---------- the row that is hit ----------

  /** The width a widget of that width ends with, dropped on a row of n. */
  function Wanted(span: int, n: nat): int { if n <= 3 then RoomFor(span, n) else MIN_SPAN }

  /** The widgets of a row of n that stay when one more is dropped on it. */
  function Staying(row: seq<Tile>): seq<Tile> { if |row| <= 3 then row else row[..3] }

  /**
   * A row as it must come out when item is dropped at place p of hit: full, the
   * item at its place with the wanted width, the staying neighbours beside it in
   * order and with their heights, none wider than before, and one that gave columns
   * at most one below any other.
   */
  ghost predicate TakesIn(hit: seq<Tile>, p: nat, item: Tile, row: seq<Tile>) {
    var q := Settled(hit, p);
    && q <= |Staying(hit)| && SameContents(row, InsertAt(Staying(hit), q, item))
    && Width(row) == COLUMNS && Spans(row, MIN_SPAN)
    && row[q].span == Wanted(item.span, |hit|)
    && GaveEvenly(InsertAt(Staying(hit), q, item), q, row)
  }

  lemma {:induction false} SqueezedEvenly(row: seq<Tile>, p: nat)
    requires p < |row| && Spans(row, 2) && Width(row) <= 2 * COLUMNS
    ensures GaveEvenly(row, p, Squeezed(row, p))
  {
    SqueezeCaps(row, p, 2);
    ShaveFacts(row, p);
    ShaveStaysEven(row, p);
    NarrowOutcome(Shave(row, p), p);
  }

  lemma {:induction false} RoomyFit(row: seq<Tile>, p: nat, item: Tile)
    requires p <= |row| && 1 <= |row| <= 3 && Spans(row, MIN_SPAN) && Width(row) <= COLUMNS
    requires MIN_SPAN <= item.span <= COLUMNS && Width(row) + item.span >= COLUMNS
    ensures var fit := FitRow(InsertAt(row, p, item), p); TakesIn(row, p, item, fit.0) && fit.1 == []
  {
    WidthInsert(row, p, item);
    SqueezeToFit(InsertAt(row, p, item), p);
    SqueezeKeepsIds(InsertAt(row, p, item), p);
    SqueezedEvenly(InsertAt(row, p, item), p);
  }

  lemma {:induction false} FullFit(row: seq<Tile>, p: nat, item: Tile)
    requires p <= |row| == 4 && Spans(row, MIN_SPAN) && Width(row) == COLUMNS
    requires MIN_SPAN <= item.span <= COLUMNS
    ensures var fit := FitRow(InsertAt(row, p, item), p); TakesIn(row, p, item, fit.0) && fit.1 == [row[3]]
  {
    FitRowFull(row, p, item);
    FourThrees(row);
    WidthOfThrees(FitRow(InsertAt(row, p, item), p).0);
  }

  /** Dropped on a row that has no slack with it, a tile is taken in, and the fourth of four moves on. */
  lemma {:induction false} FitIsExact(row: seq<Tile>, p: nat, item: Tile)
    requires p <= |row| && row != [] && Spans(row, MIN_SPAN) && Width(row) <= COLUMNS
    requires MIN_SPAN <= item.span <= COLUMNS && Width(row) + item.span >= COLUMNS
    ensures var fit := FitRow(InsertAt(row, p, item), p);
      TakesIn(row, p, item, fit.0) && fit.1 == row[|Staying(row)|..]
  {
    WidthBounds(row, MIN_SPAN);
    if |row| == 4 {
      FullFit(row, p, item);
      assert row[3..] == [row[3]];
    } else {
      RoomyFit(row, p, item);
      assert row[|row|..] == [];
    }
  }

  // ---------- packing behind rows with gaps ----------

  lemma {:induction false} GreedyTail(rows: seq<seq<Tile>>)
    requires Greedy(rows) && rows != []
    ensures Greedy(rows[1..])
  {
    forall r | 0 <= r < |rows[1..]| - 1
      ensures Width(rows[1..][r]) + rows[1..][r+1][0].span > COLUMNS
    {
      assert rows[1..][r] == rows[r+1] && rows[1..][r+1] == rows[r+2];
      assert Width(rows[r+1]) + rows[r+1+1][0].span > COLUMNS;
    }
  }

  /** Packed rows stay in front of whatever does not fit into the last one's gap. */
  lemma {:induction false} GreedyFrontStays(front: seq<seq<Tile>>, rest: seq<Tile>)
    requires Greedy(front) && (forall r :: 0 <= r < |front| ==> Spans(front[r], 1)) && Spans(rest, 1)
    requires front != [] && rest != [] ==> Width(front[|front|-1]) + rest[0].span > COLUMNS
    ensures PackFrom([], Flat(front) + rest) == front + PackFrom([], rest)
  {
    if front == [] {
      assert Flat(front) + rest == rest;
    } else {
      GreedyTail(front);
      GreedyFrontStays(front[1..], rest);
      SpansOfFlat(front[1..], 1);
      SpansConcat(Flat(front[1..]), rest, 1);
      if Flat(front[1..]) + rest != [] {
        FrontBreak(front, rest);
      }
      OneRowFirst(front[0], Flat(front[1..]), rest);
      FirstAgain(front, PackFrom([], rest));
    }
  }

  lemma {:induction false} FirstAgain<T>(a: seq<T>, b: seq<T>)
    requires a != []
    ensures [a[0]] + (a[1..] + b) == a + b
  {
    assert [a[0]] + a[1..] == a;
    Assoc([a[0]], a[1..], b);
  }

  lemma {:induction false} FrontBreak(front: seq<seq<Tile>>, rest: seq<Tile>)
    requires front != [] && Greedy(front) && Flat(front[1..]) + rest != []
    requires rest != [] ==> Width(front[|front|-1]) + rest[0].span > COLUMNS
    ensures Width(front[0]) + (Flat(front[1..]) + rest)[0].span > COLUMNS
  {
    if |front| > 1 {
      assert front[1..][0] == front[0+1];
      assert (Flat(front[1..]) + rest)[0] == front[1][0];
    } else {
      assert Flat(front[1..]) + rest == rest;
    }
  }

  lemma {:induction false} OneRowFirst(row: seq<Tile>, a: seq<Tile>, b: seq<Tile>)
    requires row != [] && Spans(row, 1) && Width(row) <= COLUMNS && Spans(a + b, 1)
    requires a + b != [] ==> Width(row) + (a + b)[0].span > COLUMNS
    ensures PackFrom([], row + a + b) == [row] + PackFrom([], a + b)
  {
    Assoc(row, a, b);
    assert [] + row == row;
    PackOneRow([], row, a + b);
  }

  lemma {:induction false} GreedyPrefix(rows: seq<seq<Tile>>, r: nat)
    requires Greedy(rows) && r <= |rows|
    ensures Greedy(rows[..r])
  {
    forall q | 0 <= q < r - 1
      ensures Width(rows[..r][q]) + rows[..r][q+1][0].span > COLUMNS
    {
      assert rows[q+1] == rows[..r][q+1];
    }
  }

  /** The squeezed row stands by itself: no tile of it moves up into a gap of the row above. */
  predicate Stands(rows: seq<seq<Tile>>, r: nat, row: seq<Tile>)
    requires r < |rows|
  {
    r == 0 || row == [] || Width(rows[r-1]) + row[0].span > COLUMNS
  }

  lemma {:induction false} StandingRow(rows: seq<seq<Tile>>, r: nat, row: seq<Tile>, more: seq<Tile>)
    requires r < |rows| && Greedy(rows) && forall k :: 0 <= k < |rows| ==> Spans(rows[k], 1)
    requires row != [] && Spans(row, 1) && Width(row) == COLUMNS && Spans(more, 1) && Stands(rows, r, row)
    ensures PackFrom([], Flat(rows[..r]) + row + more) == rows[..r] + [row] + PackFrom([], more)
  {
    GreedyPrefix(rows, r);
    SpansConcat(row, more, 1);
    GreedyFrontStays(rows[..r], row + more);
    Assoc(Flat(rows[..r]), row, more);
    assert [] + row == row;
    PackOneRow([], row, more);
    Assoc(rows[..r], [row], PackFrom([], more));
  }

  // ---------- the moved widget on the final board ----------

  /** Inserting a tile into the rows of a board, seen in the list before it is saved. */
  lemma {:induction false} TakenList(rows: seq<seq<Tile>>, item: Tile, j: nat, r: nat, p: nat)
      returns (row: seq<Tile>, more: seq<Tile>)
    requires rows != [] && forall q :: 0 <= q < |rows| ==> rows[q] != [] && Spans(rows[q], MIN_SPAN)
    requires (r, p) == Locate(rows, j) && Width(rows[r]) <= COLUMNS && Width(rows[r]) + item.span >= COLUMNS
    requires MIN_SPAN <= item.span <= COLUMNS
    ensures InsertRows(rows, item, j) == Flat(rows[..r]) + row + more
    ensures Spans(more, MIN_SPAN) && TakesIn(rows[r], p, item, row)
    ensures more == rows[r][|Staying(rows[r])|..] + Flat(rows[r+1..])
  {
    InsertRowsAt(rows, item, j, p);
    row, more := TakenAt(rows, r, p, item);
  }

  lemma {:induction false} InsertRowsAt(rows: seq<seq<Tile>>, item: Tile, j: nat, p: nat)
    requires rows != [] && rows[Locate(rows, j).0] != [] && p == Locate(rows, j).1
    ensures var fit := FitRow(InsertAt(rows[Locate(rows, j).0], p, item), p);
      InsertRows(rows, item, j) == Reassemble(rows, Locate(rows, j).0, fit.0, fit.1)
  {
  }

  lemma {:induction false} TakenAt(rows: seq<seq<Tile>>, r: nat, p: nat, item: Tile)
      returns (row: seq<Tile>, more: seq<Tile>)
    requires r < |rows| && forall q :: 0 <= q < |rows| ==> rows[q] != [] && Spans(rows[q], MIN_SPAN)
    requires p <= |rows[r]| && Width(rows[r]) <= COLUMNS && Width(rows[r]) + item.span >= COLUMNS
    requires MIN_SPAN <= item.span <= COLUMNS
    ensures var fit := FitRow(InsertAt(rows[r], p, item), p);
      Reassemble(rows, r, fit.0, fit.1) == Flat(rows[..r]) + row + more
    ensures Spans(more, MIN_SPAN) && TakesIn(rows[r], p, item, row)
    ensures more == rows[r][|Staying(rows[r])|..] + Flat(rows[r+1..])
  {
    FitIsExact(rows[r], p, item);
    var moved := rows[r][|Staying(rows[r])|..];
    row, more := FitRow(InsertAt(rows[r], p, item), p).0, moved + Flat(rows[r+1..]);
    SpansOfFlat(rows[r+1..], MIN_SPAN);
    SpansConcat(moved, Flat(rows[r+1..]), MIN_SPAN);
    Assoc(Flat(rows[..r]) + row, moved, Flat(rows[r+1..]));
  }

  /** The rows of a board without one of its tiles. */
  lemma {:induction false} RestRows(list: seq<Tile>, at: nat)
    requires Banded(list) && at < |list| && RemoveAt(list, at) != []
    ensures var rows := Rows(RemoveAt(list, at));
      && rows != [] && Greedy(rows) && Flat(rows) == RemoveAt(list, at)
      && (forall r :: 0 <= r < |rows| ==> rows[r] != [] && Spans(rows[r], MIN_SPAN) && Width(rows[r]) <= COLUMNS)
      && (forall r :: 0 <= r < |rows| ==> Width(rows[r]) + list[at].span >= COLUMNS)
      && (forall r, k :: 0 <= r < |rows| && 0 <= k < |rows[r]| ==> rows[r][k].height != 0)
      && list[at].height != 0
  {
    RestIsAdmitted(list, at);
    RowsFacts(RemoveAt(list, at), MIN_SPAN);
    RowsAreNotEmpty(RemoveAt(list, at));
    TiledIsAdmitted(list);
    forall r | 0 <= r < |Rows(RemoveAt(list, at))|
      ensures Width(Rows(RemoveAt(list, at))[r]) + list[at].span >= COLUMNS
    {
      GapsAreNoWider(list, at, r);
    }
  }

  lemma {:induction false} HighestOfInsert(row: seq<Tile>, q: nat, item: Tile)
    requires q <= |row| && row != []
    ensures MaxHeight(InsertAt(row, q, item)) == Max(item.height, MaxHeight(row))
  {
    var ins := InsertAt(row, q, item);
    MaxHeightIsMember(ins);
    MaxHeightIsMember(row);
    forall k | 0 <= k < |row|
      ensures row[k].height <= MaxHeight(ins)
    {
      assert ins[if k < q then k else k + 1] == row[k];
    }
    assert ins[q] == item;
    var k :| 0 <= k < |ins| && ins[k].height == MaxHeight(ins);
    assert k == q || ins[k] == row[if k < q then k else k - 1];
  }

  lemma {:induction false} TakenHeight(hit: seq<Tile>, p: nat, item: Tile, row: seq<Tile>)
    requires hit != [] && TakesIn(hit, p, item, row)
    ensures row != [] && MaxHeight(row) == Max(item.height, MaxHeight(Staying(hit)))
  {
    var q := Settled(hit, p);
    HighestOfInsert(Staying(hit), q, item);
    MaxHeightOfSame(row, InsertAt(Staying(hit), q, item));
  }

  lemma {:induction false} AdmitParts(a: seq<Tile>, b: seq<Tile>, c: seq<Tile>)
    requires Spans(a, 2) && Spans(b, 2)
    requires (forall k :: 0 <= k < |a| ==> a[k].height != 0) && forall k :: 0 <= k < |b| ==> b[k].height != 0
    ensures AdmitAll(a + b + c) == a + b + AdmitAll(c)
  {
    AdmitFacts(a);
    AdmitFacts(b);
    assert AdmitAll(a + b + c) == AdmitAll(a) + AdmitAll(b) + AdmitAll(c);
  }

  /** A standing full row on the final board. */
  lemma {:induction false} StandingOnBoard(rows: seq<seq<Tile>>, r: nat, row: seq<Tile>, more: seq<Tile>)
    requires r < |rows| && Greedy(rows) && forall q :: 0 <= q < |rows| ==> Spans(rows[q], MIN_SPAN)
    requires forall q, k :: 0 <= q < |rows| && 0 <= k < |rows[q]| ==> rows[q][k].height != 0
    requires row != [] && Width(row) == COLUMNS && Spans(row, MIN_SPAN) && Stands(rows, r, row)
    requires forall k :: 0 <= k < |row| ==> row[k].height != 0
    ensures var board := PackFrom([], Normalised(Flat(rows[..r]) + row + more));
      r < |board| && board[r] == WithHeight(row, MaxHeight(row))
  {
    var list := Flat(rows[..r]) + row + more;
    SpansOfFlat(rows[..r], MIN_SPAN);
    HeightsOfFlat(rows[..r]);
    AdmitParts(Flat(rows[..r]), row, more);
    AdmitFacts(more);
    StandingRow(rows, r, row, AdmitAll(more));
    assert Rows(list)[r] == row;
    AdmitFacts(list);
    NormaliseTiles(list, 2);
  }

  lemma {:induction false} TakenHeights(hit: seq<Tile>, p: nat, item: Tile, row: seq<Tile>)
    requires TakesIn(hit, p, item, row) && item.height != 0
    requires forall k :: 0 <= k < |hit| ==> hit[k].height != 0
    ensures forall k :: 0 <= k < |row| ==> row[k].height != 0
  {
    HeightsWith(Staying(hit), Settled(hit, p), item, row);
  }

  /** Taking a tile of a tiled board out and inserting it at index j of the rest, through normalise. */
  lemma {:induction false} MovedOnBoard(list: seq<Tile>, at: nat, j: nat) returns (row: seq<Tile>)
    requires Banded(list) && at < |list| && RemoveAt(list, at) != []
    ensures Rows(RemoveAt(list, at)) != []
    ensures var rows := Rows(RemoveAt(list, at)); var hit := Locate(rows, j);
      && rows[hit.0] != [] && hit.1 >= 0 && TakesIn(rows[hit.0], hit.1, list[at], row)
      && (Stands(rows, hit.0, row) ==>
            var board := PackFrom([], Normalised(Inserted(RemoveAt(list, at), list[at], j)));
            && hit.0 < |board|
            && board[hit.0] == WithHeight(row, Max(list[at].height, MaxHeight(Staying(rows[hit.0])))))
  {
    RestRows(list, at);
    RowsAreNotEmpty(RemoveAt(list, at));
    var rows := Rows(RemoveAt(list, at));
    var hit := Locate(rows, j);
    var more;
    row, more := TakenList(rows, list[at], j, hit.0, hit.1);
    TakenHeight(rows[hit.0], hit.1, list[at], row);
    TakenHeights(rows[hit.0], hit.1, list[at], row);
    if Stands(rows, hit.0, row) {
      StandingOnBoard(rows, hit.0, row, more);
    }
  }

  /**
   * A move through saving: the row that is hit takes the widget's own tile in, with
   * the width that its old one and the row's company leave it; and if that row
   * stands by itself it is a row of the final board, all of it as high as the
   * highest of the company and the widget.
   */
  lemma {:induction false} MoveIsExact(b: Board, id: Widget, i: nat) returns (row: seq<Tile>)
    requires Sound(b) && FindTile(Shown(b), id) >= 0 && RemoveAt(Shown(b), FindTile(Shown(b), id)) != []
    ensures var list := Shown(b); var at := FindTile(list, id); var rows := Rows(RemoveAt(list, at));
      && rows != []
      && var hit := Locate(rows, DropPlace(list, id, i));
      && rows[hit.0] != [] && hit.1 >= 0 && TakesIn(rows[hit.0], hit.1, list[at], row)
      && (Stands(rows, hit.0, row) ==>
            var board := PackFrom([], Shown(Step(b, Drop(id, i))));
            && hit.0 < |board|
            && board[hit.0] == WithHeight(row, Max(list[at].height, MaxHeight(Staying(rows[hit.0])))))
  {
    ShownIsGood(b);
    row := MovedOnBoard(Shown(b), FindTile(Shown(b), id), DropPlace(Shown(b), id, i));
    MovedShows(b, id, i);
  }

  lemma {:induction false} TakenIsAdmitted(rows: seq<seq<Tile>>, r: nat, row: seq<Tile>, more: seq<Tile>)
    requires r < |rows| && forall q :: 0 <= q < |rows| ==> Spans(rows[q], MIN_SPAN)
    requires forall q, k :: 0 <= q < |rows| && 0 <= k < |rows[q]| ==> rows[q][k].height != 0
    requires Spans(row, MIN_SPAN) && Width(row) == COLUMNS && forall k :: 0 <= k < |row| ==> row[k].height != 0
    requires more == rows[r][|Staying(rows[r])|..] + Flat(rows[r+1..])
    ensures var list := Flat(rows[..r]) + row + more; AdmitAll(list) == list
  {
    SpansOfFlat(rows[..r], MIN_SPAN);
    HeightsOfFlat(rows[..r]);
    SpansOfFlat(rows[r+1..], MIN_SPAN);
    HeightsOfFlat(rows[r+1..]);
    AdmitParts(Flat(rows[..r]), row, more);
    AdmitFacts(more);
  }

  lemma {:induction false} MovedShows(b: Board, id: Widget, i: nat)
    requires Sound(b) && FindTile(Shown(b), id) >= 0
    ensures var list := Shown(b); var at := FindTile(list, id);
      Shown(Step(b, Drop(id, i))) == Normalised(Inserted(RemoveAt(list, at), list[at], DropPlace(list, id, i)))
  {
    MoveShows(b, id, i);
  }

  // ---------- the whole board after a drop ----------

  /**
   * What dropping item at index j of packed rows makes, naming no part of the
   * handler: the row that is hit takes it in, and of a row of four the last tile
   * goes on in front of the rows below.
   */
  ghost predicate Hosted(rows: seq<seq<Tile>>, item: Tile, j: nat, row: seq<Tile>, list: seq<Tile>) {
    && rows != []
    && var (r, p) := Locate(rows, j);
    && rows[r] != [] && p >= 0 && TakesIn(rows[r], p, item, row)
    && list == Flat(rows[..r]) + row + (rows[r][|Staying(rows[r])|..] + Flat(rows[r+1..]))
  }

  /** Rows with a height everywhere, and no gap into which the item would fit without filling it. */
  ghost predicate Receives(rows: seq<seq<Tile>>, item: Tile) {
    && rows != [] && MIN_SPAN <= item.span <= COLUMNS && item.height != 0
    && (forall r :: 0 <= r < |rows| ==> rows[r] != [] && Spans(rows[r], MIN_SPAN) && Width(rows[r]) <= COLUMNS)
    && (forall r :: 0 <= r < |rows| ==> Width(rows[r]) + item.span >= COLUMNS)
    && (forall r, k :: 0 <= r < |rows| && 0 <= k < |rows[r]| ==> rows[r][k].height != 0)
  }

  lemma {:induction false} HostedRow(rows: seq<seq<Tile>>, item: Tile, j: nat) returns (row: seq<Tile>)
    requires Receives(rows, item)
    ensures Hosted(rows, item, j, row, InsertRows(rows, item, j))
  {
    var (r, p) := Locate(rows, j);
    var list := InsertRows(rows, item, j);
    var more;
    row, more := TakenList(rows, item, j, r, p);
    HostedIs(rows, item, j, row, more, list);
  }

  lemma {:induction false} HostedIs(
      rows: seq<seq<Tile>>, item: Tile, j: nat, row: seq<Tile>, more: seq<Tile>, list: seq<Tile>)
    requires rows != [] && rows[Locate(rows, j).0] != [] && Locate(rows, j).1 >= 0
    requires var (r, p) := Locate(rows, j);
      && TakesIn(rows[r], p, item, row) && list == Flat(rows[..r]) + row + more
      && more == rows[r][|Staying(rows[r])|..] + Flat(rows[r+1..])
    ensures Hosted(rows, item, j, row, list)
  {
  }

  lemma {:induction false} HostedCloses(rows: seq<seq<Tile>>, item: Tile, j: nat, row: seq<Tile>, list: seq<Tile>)
    requires Receives(rows, item) && Hosted(rows, item, j, row, list)
    ensures AllClosed(PackFrom([], list), PackFrom([], Normalised(list)))
  {
    var (r, p) := Locate(rows, j);
    TakenHeights(rows[r], p, item, row);
    TakenIsAdmitted(rows, r, row, rows[r][|Staying(rows[r])|..] + Flat(rows[r+1..]));
    NormalisedCloses(list);
  }

  lemma {:induction false} HostedList(rest: seq<Tile>, item: Tile, j: nat) returns (row: seq<Tile>, list: seq<Tile>)
    requires Receives(Rows(rest), item)
    ensures Hosted(Rows(rest), item, j, row, list) && list == Inserted(rest, item, j)
    ensures AllClosed(PackFrom([], list), PackFrom([], Normalised(list)))
  {
    row := HostedRow(Rows(rest), item, j);
    list := InsertRows(Rows(rest), item, j);
    HostedCloses(Rows(rest), item, j, row, list);
  }

  /**
   * The whole board after a move: the widget is taken out as it is, the rest packed
   * and made to host it, and the list this makes is packed, each row closed and
   * levelled.
   */
  lemma {:induction false} MoveIsWhole(b: Board, id: Widget, i: nat) returns (row: seq<Tile>, list: seq<Tile>)
    requires Sound(b) && FindTile(Shown(b), id) >= 0 && RemoveAt(Shown(b), FindTile(Shown(b), id)) != []
    ensures var at := FindTile(Shown(b), id);
      Hosted(Rows(RemoveAt(Shown(b), at)), Shown(b)[at], DropPlace(Shown(b), id, i), row, list)
    ensures AllClosed(PackFrom([], list), PackFrom([], Shown(Step(b, Drop(id, i)))))
  {
    ShownIsGood(b);
    var at := FindTile(Shown(b), id);
    RestRows(Shown(b), at);
    row, list := HostedList(RemoveAt(Shown(b), at), Shown(b)[at], DropPlace(Shown(b), id, i));
    MovedShows(b, id, i);
  }

  /** And after a widget is added from the palette, to a row of any length. */
  lemma {:induction false} AddIsWhole(b: Board, id: Widget, i: nat) returns (row: seq<Tile>, list: seq<Tile>)
    requires Sound(b) && id !in Ids(Shown(b)) && i <= |Shown(b)|
    ensures Hosted(Rows(Shown(b)), Tile(id, PaletteSpan(id), DefaultHeight(id)), i, row, list)
    ensures AllClosed(PackFrom([], list), PackFrom([], Shown(Step(b, Drop(id, i)))))
  {
    ShownIsGood(b);
    BoardReceives(Shown(b), Fresh(id));
    row, list := HostedList(Shown(b), Fresh(id), i);
    AddShows(b, id, i);
  }

  lemma {:induction false} BoardReceives(list: seq<Tile>, item: Tile)
    requires Banded(list) && list != [] && MIN_SPAN <= item.span <= COLUMNS && item.height != 0
    ensures Receives(Rows(list), item)
  {
    BandedRows(list);
    RowsAreNotEmpty(list);
    RowsFacts(list, MIN_SPAN);
    HeightsOfRows(Rows(list));
  }

  /** A move towards the front always hits a row that stands by itself: all rows above are full. */
  lemma {:induction false} UpwardStands(list: seq<Tile>, at: nat, j: nat, row: seq<Tile>)
    requires Banded(list) && at < |list| && RemoveAt(list, at) != [] && Spans(row, MIN_SPAN)
    requires Rows(list) != [] && Rows(RemoveAt(list, at)) != []
    requires Locate(Rows(RemoveAt(list, at)), j).0 <= Locate(Rows(list), at).0
    ensures Stands(Rows(RemoveAt(list, at)), Locate(Rows(RemoveAt(list, at)), j).0, row)
  {
    RestKeepsRowsAbove(list, at);
    BandedRows(list);
    var r := Locate(Rows(RemoveAt(list, at)), j).0;
    if r > 0 {
      assert Rows(RemoveAt(list, at))[r-1] == Rows(list)[r-1];
    }
  }

  // ---------- when the width does not stay ----------

  /** Where in the packed rows a tile of the list stands. */
  lemma {:induction false} PackedPlace(list: seq<Tile>, n: nat) returns (r: nat, q: nat)
    requires n < |list|
    ensures r < |PackFrom([], list)| && q < |PackFrom([], list)[r]| && PackFrom([], list)[r][q] == list[n]
  {
    var rows := PackFrom([], list);
    PackKeepsList([], list);
    assert [] + list == list;
    assert rows != [];
    LocateIsIndex(rows, n);
    LocateInside(rows, n);
    r, q := Locate(rows, n).0, Locate(rows, n).1;
    TileOfRow(rows, r, q);
  }

  lemma {:induction false} TakenTile(
      front: seq<Tile>, hit: seq<Tile>, p: nat, item: Tile, row: seq<Tile>, more: seq<Tile>)
    requires TakesIn(hit, p, item, row)
    ensures var n := |front| + Settled(hit, p);
      && n < |front + row + more|
      && (front + row + more)[n] == item.(span := Wanted(item.span, |hit|))
  {
    assert row[Settled(hit, p)].id == item.id && row[Settled(hit, p)].height == item.height;
  }

  /** Wherever in the packing a widget of the list ends up, this is its final width. */
  lemma {:induction false} FinalWidth(list: seq<Tile>, n: nat) returns (gap: nat)
    requires n < |list| && Spans(list, MIN_SPAN) && Distinct(Ids(Normalised(list)))
    ensures forall k :: 0 <= k < |Normalised(list)| && Normalised(list)[k].id == list[n].id ==>
      Normalised(list)[k].span == list[n].span + gap
    ensures gap > 0 <==>
      exists r :: 0 <= r < |PackFrom([], list)| && EndsShort(PackFrom([], list)[r], list[n])
  {
    var r, q := PackedPlace(list, n);
    BoardTile(list, r, q);
    var row := PackFrom([], list)[r];
    PackIsGreedy([], list);
    gap := if q == |row| - 1 then COLUMNS - Width(row) else 0;
    OnlyOneEnds(list, r, q);
  }

  /** The tile is the last of a row with a gap. */
  ghost predicate EndsShort(row: seq<Tile>, t: Tile) {
    row != [] && row[|row|-1] == t && Width(row) < COLUMNS
  }

  lemma {:induction false} OnlyOneEnds(list: seq<Tile>, r: nat, q: nat)
    requires Distinct(Ids(Normalised(list)))
    requires r < |PackFrom([], list)| && q < |PackFrom([], list)[r]|
    ensures (exists s :: 0 <= s < |PackFrom([], list)| && EndsShort(PackFrom([], list)[s], PackFrom([], list)[r][q]))
      <==> q == |PackFrom([], list)[r]| - 1 && Width(PackFrom([], list)[r]) < COLUMNS
  {
    AdmitFacts(list);
    NormaliseTiles(list, 2);
    PackKeepsList([], list);
    assert [] + list == list;
    OneEnds(PackFrom([], list), r, q);
  }

  lemma {:induction false} OneEnds(rows: seq<seq<Tile>>, r: nat, q: nat)
    requires Distinct(Ids(Flat(rows))) && r < |rows| && q < |rows[r]|
    ensures (exists s :: 0 <= s < |rows| && EndsShort(rows[s], rows[r][q]))
      <==> q == |rows[r]| - 1 && Width(rows[r]) < COLUMNS
  {
    forall s | 0 <= s < |rows| && EndsShort(rows[s], rows[r][q])
      ensures s == r && q == |rows[r]| - 1
    {
      SamePlace(rows, r, q, s, |rows[s]| - 1);
    }
    if q == |rows[r]| - 1 && Width(rows[r]) < COLUMNS {
      assert EndsShort(rows[r], rows[r][q]);
    }
  }

  lemma {:induction false} SamePlace(rows: seq<seq<Tile>>, r: nat, q: nat, s: nat, k: nat)
    requires Distinct(Ids(Flat(rows)))
    requires r < |rows| && q < |rows[r]| && s < |rows| && k < |rows[s]| && rows[r][q].id == rows[s][k].id
    ensures r == s && q == k
  {
    TileOfRow(rows, r, q);
    TileOfRow(rows, s, k);
    var a, b := |Flat(rows[..r])| + q, |Flat(rows[..s])| + k;
    assert Ids(Flat(rows))[a] == rows[r][q].id && Ids(Flat(rows))[b] == rows[s][k].id;
    assert a == b;
    if r < s {
      RowsBefore(rows, r, s, q);
    } else if s < r {
      RowsBefore(rows, s, r, k);
    }
  }

  /** The widget is on the board, with that width. */
  ghost predicate HasWidth(list: seq<Tile>, id: Widget, w: int) {
    id in Ids(list) && forall k :: 0 <= k < |list| && list[k].id == id ==> list[k].span == w
  }

  /** The tile stands last in some row with a gap, as the list is packed. */
  ghost predicate EndsAShortRow(list: seq<Tile>, t: Tile) {
    exists r :: 0 <= r < |PackFrom([], list)| && EndsShort(PackFrom([], list)[r], t)
  }

  /** A tile of a tiled board, taken out and inserted at index j of the rest, through normalise. */
  lemma {:induction false} MovedWidth(list: seq<Tile>, at: nat, j: nat) returns (gap: nat)
    requires Banded(list) && at < |list| && RemoveAt(list, at) != []
    requires var out := Inserted(RemoveAt(list, at), list[at], j);
      Spans(out, MIN_SPAN) && Distinct(Ids(Normalised(out))) && Ids(Normalised(out)) == Ids(out)
    ensures Rows(RemoveAt(list, at)) != []
    ensures var rows := Rows(RemoveAt(list, at)); var out := Inserted(RemoveAt(list, at), list[at], j);
      var want := Wanted(list[at].span, |rows[Locate(rows, j).0]|);
      && HasWidth(Normalised(out), list[at].id, want + gap)
      && (gap > 0 <==> EndsAShortRow(out, list[at].(span := want)))
  {
    var n := MovedTile(list, at, j);
    gap := TakenWidth(Inserted(RemoveAt(list, at), list[at], j), n);
  }

  /** It stands in the list to be saved with the width its row leaves it. */
  lemma {:induction false} MovedTile(list: seq<Tile>, at: nat, j: nat) returns (n: nat)
    requires Banded(list) && at < |list| && RemoveAt(list, at) != []
    ensures Rows(RemoveAt(list, at)) != []
    ensures var rows := Rows(RemoveAt(list, at)); var out := Inserted(RemoveAt(list, at), list[at], j);
      n < |out| && out[n] == list[at].(span := Wanted(list[at].span, |rows[Locate(rows, j).0]|))
  {
    RestRows(list, at);
    RowsAreNotEmpty(RemoveAt(list, at));
    var rows := Rows(RemoveAt(list, at));
    var hit := Locate(rows, j);
    var row, more := TakenList(rows, list[at], j, hit.0, hit.1);
    TakenTile(Flat(rows[..hit.0]), rows[hit.0], hit.1, list[at], row, more);
    n := |Flat(rows[..hit.0])| + Settled(rows[hit.0], hit.1);
  }

  lemma {:induction false} TakenWidth(out: seq<Tile>, n: nat) returns (gap: nat)
    requires n < |out| && Spans(out, MIN_SPAN) && Distinct(Ids(Normalised(out))) && Ids(Normalised(out)) == Ids(out)
    ensures HasWidth(Normalised(out), out[n].id, out[n].span + gap)
    ensures gap > 0 <==> EndsAShortRow(out, out[n])
  {
    gap := FinalWidth(out, n);
    IdAt(out, n);
    forall k | 0 <= k < |Normalised(out)| && Normalised(out)[k].id == out[n].id
      ensures Normalised(out)[k].span == out[n].span + gap
    {
    }
  }

  lemma {:induction false} IdAt(list: seq<Tile>, n: nat)
    requires n < |list|
    ensures list[n].id in Ids(list)
  {
    assert Ids(list)[n] == list[n].id;
  }

  /**
   * A moved widget ends with exactly the width its row leaves it, unless, in the
   * list before it is saved, it comes to stand last in a row with a gap; then it
   * ends wider by that gap.
   */
  lemma {:induction false} MoveKeepsWidthIff(b: Board, id: Widget, i: nat) returns (gap: nat)
    requires Sound(b) && FindTile(Shown(b), id) >= 0 && RemoveAt(Shown(b), FindTile(Shown(b), id)) != []
    ensures var list := Shown(b); var at := FindTile(list, id); var rows := Rows(RemoveAt(list, at));
      && rows != []
      && var want := Wanted(list[at].span, |rows[Locate(rows, DropPlace(list, id, i)).0]|);
      && HasWidth(Shown(Step(b, Drop(id, i))), id, want + gap)
      && (gap > 0 <==>
            EndsAShortRow(Inserted(RemoveAt(list, at), list[at], DropPlace(list, id, i)), list[at].(span := want)))
  {
    ShownIsGood(b);
    DropWidgets(Shown(b), id, i);
    NormalisedIsGood(DropList(Shown(b), id, i));
    gap := MovedWidth(Shown(b), FindTile(Shown(b), id), DropPlace(Shown(b), id, i));
    MovedShows(b, id, i);
  }

  // ---------- a moved widget that ends wider ----------

  lemma {:induction false} PackTwo(a: Tile, b: Tile)
    ensures Width([a, b]) == a.span + b.span && Width([a]) == a.span
  {
    assert [a, b][1..] == [b] && [b][1..] == [] && [a][1..] == [];
    assert Width([b]) == b.span;
  }

  lemma {:induction false} PackOneThenTwo(b: Tile, c: Tile, d: Tile)
    requires 0 < b.span <= COLUMNS < b.span + c.span && c.span + d.span <= COLUMNS && c.span <= COLUMNS
    ensures PackFrom([], [b, c, d]) == [[b], [c, d]]
  {
    PackTwo(b, c);
    PackTwo(c, d);
    assert [b, c, d][1..] == [c, d] && [c, d][1..] == [d] && [d][1..] == [];
    assert [] + [b] == [b] && [c] + [d] == [c, d];
    assert PackFrom([c, d], []) == [[c, d]];
    assert PackFrom([c], [d]) == [[c, d]];
    assert PackFrom([b], [c, d]) == [[b]] + [[c, d]];
  }

  lemma {:induction false} PackTwoTwos(a: Tile, b: Tile, c: Tile, d: Tile)
    requires a.span + b.span == COLUMNS && 0 < a.span && 0 < b.span && 0 < c.span <= COLUMNS
    requires c.span + d.span <= COLUMNS && 0 < d.span
    ensures PackFrom([], [a, b, c, d]) == [[a, b], [c, d]]
  {
    PackTwo(a, b);
    PackTwo(c, d);
    assert [a, b, c, d][1..] == [b, c, d] && [b, c, d][1..] == [c, d] && [c, d][1..] == [d] && [d][1..] == [];
    assert [] + [a] == [a] && [a] + [b] == [a, b] && [c] + [d] == [c, d];
    assert PackFrom([c, d], []) == [[c, d]];
    assert PackFrom([c], [d]) == [[c, d]];
    assert PackFrom([a, b], [c, d]) == [[a, b]] + [[c, d]];
    assert PackFrom([a], [b, c, d]) == [[a, b]] + [[c, d]];
  }

  lemma {:induction false} LocateEnd(y: Tile, c: Tile, d: Tile)
    ensures Locate([[y], [c, d]], 3) == (1, 2)
  {
    assert [[y], [c, d]][1..] == [[c, d]];
    assert Locate([[c, d]], 2) == (0, 2);
  }

  lemma {:induction false} FrontAndRow(y: Tile, c: Tile, d: Tile, row: seq<Tile>, more: seq<Tile>)
    requires |row| == 3 && more == [c, d][|Staying([c, d])|..] + Flat([[y], [c, d]][2..])
    ensures Flat([[y], [c, d]][..1]) + row + more == [y, row[0], row[1], row[2]]
  {
    assert [[y], [c, d]][..1] == [[y]] && [[y], [c, d]][2..] == [] && [c, d][2..] == [];
    FlatOne([y]);
  }

  /** What is inserted at the end, seen before it is saved. */
  lemma {:induction false} InsertedAtEnd(x: Tile, y: Tile, c: Tile, d: Tile)
    requires Rows([y, c, d]) == [[y], [c, d]]
    requires x.span == 4 && y.span == 8 && c.span == 6 && d.span == 6
    ensures EndsAShortRow(Inserted([y, c, d], x, 3), x)
  {
    LocateEnd(y, c, d);
    PackTwo(c, d);
    assert Spans([y], MIN_SPAN) && Spans([c, d], MIN_SPAN);
    var row, more := TakenList([[y], [c, d]], x, 3, 1, 2);
    EvenThree(c, d, x, row);
    FrontAndRow(y, c, d, row, more);
    EndOfFour(y, row[0], row[1], row[2]);
  }

  lemma {:induction false} EndOfFour(y: Tile, c: Tile, d: Tile, x: Tile)
    requires y.span == 8 && c.span == d.span == x.span == 4
    ensures EndsAShortRow([y, c, d, x], x)
  {
    PackTwoTwos(y, c, d, x);
    PackTwo(d, x);
    assert EndsShort(PackFrom([], [y, c, d, x])[1], x);
  }

  lemma {:induction false} RestOfFour(list: seq<Tile>, x: Tile, y: Tile, c: Tile, d: Tile)
    requires Banded(list) && list == [x, y, c, d]
    requires y.span == 8 && c.span == 6 && d.span == 6
    ensures FindTile(list, x.id) == 0 && RemoveAt(list, 0) == [y, c, d] && DropPlace(list, x.id, 4) == 3
    ensures Rows([y, c, d]) == [[y], [c, d]]
  {
    assert RemoveAt(list, 0) == [y, c, d];
    RestIsAdmitted(list, 0);
    PackOneThenTwo(y, c, d);
  }

  /** Two rows of 4 + 8 and 6 + 6; the first widget is dropped at the very end and ends wider. */
  lemma {:induction false} MovedToEndGrows(b: Board, x: Tile, y: Tile, c: Tile, d: Tile) returns (gap: nat)
    requires Sound(b) && Shown(b) == [x, y, c, d]
    requires x.span == 4 && y.span == 8 && c.span == 6 && d.span == 6
    ensures gap > 0 && HasWidth(Shown(Step(b, Drop(x.id, 4))), x.id, x.span + gap)
  {
    ShownIsGood(b);
    RestOfFour(Shown(b), x, y, c, d);
    LocateEnd(y, c, d);
    InsertedAtEnd(x, y, c, d);
    gap := MoveKeepsWidthIff(b, x.id, 4);
    assert x.(span := 4) == x;
  }

  lemma {:induction false} EvenThree(c: Tile, d: Tile, x: Tile, row: seq<Tile>)
    requires TakesIn([c, d], 2, x, row) && c.span == d.span == 6 && x.span == 4
    ensures |row| == 3 && row[0].span == row[1].span == 4 && row[2] == x
  {
    var ins := InsertAt([c, d], 2, x);
    assert ins == [c, d, x];
    assert row[1..][1..] == [row[2]] && [row[2]][1..] == [];
    assert Width(row[1..][1..]) == row[2].span;
    assert Width(row[1..]) == row[1].span + row[2].span;
    assert row[0].span + row[1].span == 8;
  }

  // ---------- and how a board comes to that ----------

  /** The widgets of a list and their widths. */
  ghost predicate Spells(list: seq<Tile>, ids: seq<Widget>, spans: seq<int>) {
    && |list| == |ids| == |spans|
    && forall k :: 0 <= k < |list| ==> list[k].id == ids[k] && list[k].span == spans[k]
  }

  lemma {:induction false} FullPair(row: seq<Tile>)
    requires |row| == 2
    ensures Width(row) == row[0].span + row[1].span
  {
    assert row == [row[0], row[1]];
    PackTwo(row[0], row[1]);
  }

  lemma {:induction false} FlatPairs(a: seq<Tile>, b: seq<Tile>)
    requires |a| == |b| == 2
    ensures Flat([a, b]) == [a[0], a[1], b[0], b[1]]
  {
    assert [a, b][1..] == [b];
    FlatOne(b);
  }

  lemma {:induction false} PackPairAndOne(a: Tile, b: Tile, t: Tile)
    requires 0 < a.span && 0 < b.span && a.span + b.span == COLUMNS == t.span
    ensures PackFrom([], [a, b, t]) == [[a, b], [t]]
  {
    PackTwo(a, b);
    assert [a, b, t][1..] == [b, t] && [b, t][1..] == [t] && [t][1..] == [];
    assert [] + [a] == [a] && [a] + [b] == [a, b];
    assert PackFrom([t], []) == [[t]];
    assert PackFrom([a, b], [t]) == [[a, b]] + [[t]];
    assert PackFrom([a], [b, t]) == [[a, b]] + [[t]];
  }

  /** A row of two, by widgets and widths. */
  ghost predicate IsPair(row: seq<Tile>, x: Widget, xs: int, y: Widget, ys: int) {
    |row| == 2 && row[0].id == x && row[0].span == xs && row[1].id == y && row[1].span == ys
  }

  lemma {:induction false} PairsSpell(list: seq<Tile>, a: Tile, b: Tile, last: seq<Tile>)
    requires PackFrom([], list) == [[a, b], last] && |last| == 2
    ensures Spells(list, [a.id, b.id, last[0].id, last[1].id], [a.span, b.span, last[0].span, last[1].span])
  {
    FlatPairs([a, b], last);
    PackKeepsList([], list);
    assert [] + list == list;
  }

  lemma {:induction false} PairAndOneRows(list: seq<Tile>, a: Tile, b: Tile, t: Tile)
    requires Banded(list) && list == [a, b, t] && a.span == 4 && b.span == 8 && t.span == 12
    ensures Rows(list) == [[a, b], [t]] && Locate(Rows(list), 2) == (1, 0)
  {
    BandedRows(list);
    PackPairAndOne(a, b, t);
    assert [[a, b], [t]][1..] == [[t]];
    assert Locate([[t]], 0) == (0, 0);
  }

  lemma {:induction false} FourAndEight(row: seq<Tile>, item: Tile, t: Tile)
    requires SameContents(row, InsertAt([t], 0, item)) && Width(row) == COLUMNS && row[0].span == 4
    ensures IsPair(row, item.id, 4, t.id, 8)
  {
    assert InsertAt([t], 0, item) == [item, t];
    FullPair(row);
  }

  lemma {:induction false} AddedRows(list: seq<Tile>, item: Tile, a: Tile, b: Tile, t: Tile) returns (last: seq<Tile>)
    requires Banded(list) && list == [a, b, t] && a.span == 4 && b.span == 8 && t.span == 12
    requires item.span == 4 && item.height != 0
    ensures PackFrom([], Normalised(Inserted(list, item, 2))) == [[a, b], last]
    ensures IsPair(last, item.id, 4, t.id, 8)
  {
    PairAndOneRows(list, a, b, t);
    InsertIsLocal(list, item, 2);
    var row := InsertFit(Rows(list), item, 2).0;
    FourAndEight(row, item, t);
    last := WithHeight(row, MaxHeight(row));
  }

  /** A widget of four columns is added in front of one of twelve. */
  lemma {:induction false} AddedInFront(list: seq<Tile>, item: Tile)
    requires Banded(list) && |list| == 3 && list[0].span == 4 && list[1].span == 8 && list[2].span == 12
    requires item.span == 4 && item.height != 0
    ensures Spells(Normalised(Inserted(list, item, 2)), [list[0].id, list[1].id, item.id, list[2].id], [4, 8, 4, 8])
  {
    assert list == [list[0], list[1], list[2]];
    var last := AddedRows(list, item, list[0], list[1], list[2]);
    PairsSpell(Normalised(Inserted(list, item, 2)), list[0], list[1], last);
  }

  lemma {:induction false} WidenedRows(list: seq<Tile>, a: Tile, b: Tile, c: Tile, d: Tile) returns (row: seq<Tile>)
    requires Banded(list) && Distinct(Ids(list)) && list == [a, b, c, d]
    requires a.span == 4 && b.span == 8 && c.span == 4 && d.span == 8
    ensures PackFrom([], Normalised(SpanSet(list, c.id, 6))) == [[a, b], row] && IsPair(row, c.id, 6, d.id, 6)
  {
    BandedRows(list);
    PackTwoTwos(a, b, c, d);
    FindsSecond(list, a, b, c, d);
    assert Ids(list)[2] == c.id;
    WideningIsLocal(list, c.id, 6);
    row := Resized([c, d], 0, 6).row;
    FullPair(row);
  }

  /** It is made half wide. */
  lemma {:induction false} AddedIsWidened(list: seq<Tile>)
    requires Banded(list) && Distinct(Ids(list)) && |list| == 4
    requires list[0].span == 4 && list[1].span == 8 && list[2].span == 4 && list[3].span == 8
    ensures Spells(Normalised(SpanSet(list, list[2].id, 6)), Ids(list), [4, 8, 6, 6])
  {
    assert list == [list[0], list[1], list[2], list[3]];
    var row := WidenedRows(list, list[0], list[1], list[2], list[3]);
    PairsSpell(Normalised(SpanSet(list, list[2].id, 6)), list[0], list[1], row);
  }

  lemma {:induction false} FindsSecond(list: seq<Tile>, a: Tile, b: Tile, c: Tile, d: Tile)
    requires list == [a, b, c, d] && Distinct(Ids(list))
    ensures FindRow([[a, b], [c, d]], c.id) == 1 && FindTile([c, d], c.id) == 0
  {
    assert Ids(list)[0] == a.id && Ids(list)[1] == b.id && Ids(list)[2] == c.id;
    assert [a, b][1..] == [b] && [b][1..] == [];
    assert FindTile([b], c.id) == -1 && FindTile([a, b], c.id) == -1;
    assert [[a, b], [c, d]][1..] == [[c, d]];
    assert FindRow([[c, d]], c.id) == 0;
  }

  const GROWN := [Pick(Compact)] + [Drop(Summary, 2)] + [Widen(Summary, Half)]

  lemma {:induction false} GrownRun()
    ensures Run(START, GROWN) == Step(Step(Step(START, Pick(Compact)), Drop(Summary, 2)), Widen(Summary, Half))
    ensures Sound(Run(START, GROWN))
  {
    var first := [Pick(Compact)];
    RunSnoc(START, [], Pick(Compact));
    assert [] + first == first;
    RunSnoc(START, first, Drop(Summary, 2));
    RunSnoc(START, first + [Drop(Summary, 2)], Widen(Summary, Half));
    StartIsSound();
    RunKeepsGood(START, GROWN);
  }

  lemma {:induction false} SummaryAdded()
    ensures var b := Step(Step(START, Pick(Compact)), Drop(Summary, 2));
      Sound(b) && Spells(Shown(b), [Pulse, Chart, Summary, Table], [4, 8, 4, 8])
  {
    CompactPicked();
    var b1 := Step(START, Pick(Compact));
    var list := Preset(Compact);
    assert Shown(b1) == list;
    ShownIsGood(b1);
    AddedInFront(list, Fresh(Summary));
    AddShows(b1, Summary, 2);
    StepKeepsSound(b1, Drop(Summary, 2));
  }

  lemma {:induction false} SummaryWidened(b: Board)
    requires Sound(b) && Spells(Shown(b), [Pulse, Chart, Summary, Table], [4, 8, 4, 8])
    ensures Spells(Shown(Step(b, Widen(Summary, Half))), [Pulse, Chart, Summary, Table], [4, 8, 6, 6])
  {
    ShownIsGood(b);
    AddedIsWidened(Shown(b));
    assert Ids(Shown(b)) == [Pulse, Chart, Summary, Table];
    WidenShows(b, Summary, Half);
  }

  lemma {:induction false} WidenShows(b: Board, id: Widget, w: WidthButton)
    requires Sound(b)
    ensures Shown(Step(b, Widen(id, w))) == Normalised(SpanSet(Shown(b), id, Columns(w)))
  {
    ShownIsGood(b);
    WidenWidgets(Shown(b), id, Columns(w));
    CountIsSize(Shown(b));
    CountIsSize(SpanSet(Shown(b), id, Columns(w)));
    SavedShows(SpanSet(Shown(b), id, Columns(w)));
  }

  lemma {:induction false} GrownBoard()
    ensures Sound(Run(START, GROWN))
    ensures Spells(Shown(Run(START, GROWN)), [Pulse, Chart, Summary, Table], [4, 8, 6, 6])
  {
    GrownRun();
    SummaryAdded();
    SummaryWidened(Step(Step(START, Pick(Compact)), Drop(Summary, 2)));
  }

  lemma {:induction false} FirstGrows(b: Board) returns (gap: nat)
    requires Sound(b) && Spells(Shown(b), [Pulse, Chart, Summary, Table], [4, 8, 6, 6])
    ensures gap > 0 && HasWidth(Shown(Step(b, Drop(Pulse, 4))), Pulse, 4 + gap)
  {
    var list := Shown(b);
    assert list == [list[0], list[1], list[2], list[3]];
    gap := MovedToEndGrows(b, list[0], list[1], list[2], list[3]);
  }

  /** From the page as it opens, after three clicks a move of Pulse to the end makes it wider than its four columns. */
  lemma {:induction false} MoveCanWiden() returns (gap: nat)
    ensures gap > 0 && HasWidth(Shown(Step(Run(START, GROWN), Drop(Pulse, 4))), Pulse, 4 + gap)
  {
    GrownBoard();
    gap := FirstGrows(Run(START, GROWN));
  }
}
