// When a resize is seen on the board as asked, and what it becomes otherwise.
module ResizeSticks {
  import opened Common
  import opened Tiles
  import opened Packing
  import opened Normalise
  import opened Squeeze
  import opened Insert
  import opened Resize
  import opened ResizeFacts

  /**
   * By how many columns normalise overshoots the width asked for, read off the
   * board before the call. Narrowing the last widget of a row snaps back when
   * nothing can be pulled up (no next row, or a gap under three columns);
   * widening past what the neighbours can give leaves a gap of one or two that
   * the widget itself takes if all the neighbours left in the row precede it.
   */
  function Overshoot(rows: seq<seq<Tile>>, ri: nat, p: nat, sp: int): int
    requires ri < |rows| && p < |rows[ri]|
  {
    var cur, n := rows[ri][p].span, |rows[ri]| - 1;
    if sp < cur then
      if p == n && (ri == |rows| - 1 || cur - sp < MIN_SPAN) then cur - sp else 0
    else if sp > cur && sp + MIN_SPAN * n > COLUMNS && (COLUMNS - sp) / MIN_SPAN <= p then
      (COLUMNS - sp) % MIN_SPAN
    else 0
  }

  // ---------- the row after shaving and spilling ----------

  ghost predicate OthersAreThree(row: seq<Tile>, p: nat) {
    forall k :: 0 <= k < |row| && k != p ==> row[k].span == MIN_SPAN
  }

  /** Among neighbours of three columns, the first (12 - sp) / 3 of them stay. */
  lemma {:induction false} SpillOfThrees(s: Spill, m: nat)
    requires s.p < |s.row| && OthersAreThree(s.row, s.p)
    requires MIN_SPAN <= s.row[s.p].span <= COLUMNS
    requires m == (COLUMNS - s.row[s.p].span) / MIN_SPAN && m <= |s.row| - 1
    requires s.out != [] ==> s.out[0].span == MIN_SPAN
    ensures var r := SpillOver(s);
      && |r.row| == m + 1 && r.p == Min(s.p, m) && r.row[r.p] == s.row[s.p]
      && Width(r.row) == s.row[s.p].span + MIN_SPAN * m
      && (r.out != [] ==> r.out[0].span == MIN_SPAN)
      && (s.out != [] || m < |s.row| - 1 ==> r.out != [])
    decreases |s.row|
  {
    WidthAroundOne(s.row, s.p);
    if !(Width(s.row) <= COLUMNS || |s.row| <= 1) {
      SpillOfThrees(SpillStep(s), m);
    }
  }

  lemma {:induction false} NothingToSpill(s: Spill)
    requires s.p < |s.row| && Width(s.row) <= COLUMNS
    ensures SpillOver(s) == s
  {
  }

  /** Narrower or unchanged: the row is only short, nothing is shaved or spilled. */
  lemma {:induction false} ResizedNarrow(row: seq<Tile>, p: nat, sp: int)
    requires p < |row| && Spans(row, MIN_SPAN) && Width(row) == COLUMNS
    requires MIN_SPAN <= sp <= row[p].span
    ensures Resized(row, p, sp) == Spill(row[p := row[p].(span := sp)], p, [])
    ensures Width(row[p := row[p].(span := sp)]) == COLUMNS - (row[p].span - sp)
  {
    var r := row[p := row[p].(span := sp)];
    WidthUpdate(row, p, r[p]);
    NothingToSpill(Spill(r, p, []));
  }

  /** Wider, and the neighbours can give enough: the row stays full. */
  lemma {:induction false} ResizedWithin(row: seq<Tile>, p: nat, sp: int)
    requires p < |row| && Spans(row, MIN_SPAN) && Width(row) == COLUMNS
    requires row[p].span <= sp <= COLUMNS && sp + MIN_SPAN * (|row| - 1) <= COLUMNS
    ensures var s := Resized(row, p, sp);
      && s == Spill(ShaveN(row[p := row[p].(span := sp)], p, SHAVE_CAP), p, []) && |s.row| == |row|
      && s.row[p] == row[p].(span := sp) && Width(s.row) == COLUMNS
  {
    var wide := row[p := row[p].(span := sp)];
    WidthUpdate(row, p, wide[p]);
    ShaveCap(wide, p, SHAVE_CAP);
    ShaveFacts(wide, p);
    ShaveOutcome(wide, p);
    NothingToSpill(Spill(Shave(wide, p), p, []));
  }

  /** Wider than the neighbours can give: they all end at three and the last ones leave. */
  lemma {:induction false} ResizedBeyond(row: seq<Tile>, p: nat, sp: int)
    requires p < |row| && Spans(row, MIN_SPAN) && Width(row) == COLUMNS
    requires row[p].span <= sp <= COLUMNS && sp + MIN_SPAN * (|row| - 1) > COLUMNS
    ensures var s := Resized(row, p, sp); var m := (COLUMNS - sp) / MIN_SPAN;
      && |s.row| == m + 1 && s.p == Min(p, m)
      && s.row[s.p] == row[p].(span := sp) && Width(s.row) == sp + MIN_SPAN * m
      && s.out != [] && s.out[0].span == MIN_SPAN
  {
    var wide := row[p := row[p].(span := sp)];
    WidthUpdate(row, p, wide[p]);
    ShaveCap(wide, p, SHAVE_CAP);
    ShaveFacts(wide, p);
    ShaveOutcome(wide, p);
    SpillOfThrees(Spill(Shave(wide, p), p, []), (COLUMNS - sp) / MIN_SPAN);
  }

  // ---------- pulling up ----------

  /** Pulling stops with a full row or with a tile that does not fit in the gap. */
  lemma {:induction false} PullOutcome(row: seq<Tile>, next: seq<Tile>)
    requires Spans(next, MIN_SPAN) && Width(row) <= COLUMNS
    ensures var pull := PullUp(row, next);
      && row <= pull.0 && Width(pull.0) <= COLUMNS
      && (Width(pull.0) < COLUMNS ==> Width(pull.0) + Width(pull.1) == Width(row) + Width(next))
      && (Width(pull.0) < COLUMNS && pull.1 != [] ==> Width(pull.0) + pull.1[0].span > COLUMNS)
      && (next != [] && Width(row) <= COLUMNS - MIN_SPAN ==> |row| < |pull.0|)
      && (Width(row) > COLUMNS - MIN_SPAN ==> pull == (row, next))
    decreases |next|
  {
    if !(Width(row) >= COLUMNS || next == []) {
      var room := COLUMNS - Width(row);
      if next[0].span <= room {
        WidthConcat(row, [next[0]]);
        PullOutcome(row + [next[0]], next[1..]);
      } else if room >= MIN_SPAN {
        var t := next[0].(span := room);
        WidthConcat(row, [t]);
        assert Width([t]) == room;
        PullOutcome(row + [t], next[1..]);
      }
    }
  }

  /** The rebalanced row closes off: what follows does not fit in its gap. */
  ghost predicate ClosesOff(row: seq<Tile>, more: seq<Tile>) {
    Width(row) <= COLUMNS && (more != [] ==> Width(row) + more[0].span > COLUMNS)
  }

  /** A row of at most twelve, followed by full rows. */
  lemma {:induction false} RebalanceFull(row: seq<Tile>, tail: seq<seq<Tile>>)
    requires row != [] && Width(row) <= COLUMNS && Spans(row, MIN_SPAN)
    requires forall r :: 0 <= r < |tail| ==> FullRow(tail[r]) && Spans(tail[r], MIN_SPAN)
    ensures var done := Rebalanced(row, tail);
      && row <= done.0 && ClosesOff(done.0, done.1)
      && (tail == [] || Width(row) > COLUMNS - MIN_SPAN ==> done.0 == row)
      && (tail != [] && Width(row) <= COLUMNS - MIN_SPAN ==> |row| < |done.0|)
  {
    WidthBounds(row, MIN_SPAN);
    if tail != [] {
      PullOutcome(row, tail[0]);
      var pull := PullUp(row, tail[0]);
      SpansOfFlat(tail[1..], MIN_SPAN);
      PullSpans(row, tail[0]);
      assert Width([]) == 0;
      if pull.1 != [] {
        assert (pull.1 + Flat(tail[1..]))[0] == pull.1[0];
      } else {
        assert pull.1 + Flat(tail[1..]) == Flat(tail[1..]);
      }
    }
  }

  /** A row with a gap under three columns, followed first by a spilled tile of three. */
  lemma {:induction false} RebalanceSpilled(row: seq<Tile>, out: seq<Tile>, after: seq<seq<Tile>>)
    requires COLUMNS - MIN_SPAN < Width(row) <= COLUMNS && out != [] && out[0].span == MIN_SPAN
    ensures var done := Rebalanced(row, Singles(out) + after);
      done.0 == row && ClosesOff(done.0, done.1)
  {
    var tail := Singles(out) + after;
    assert tail[0] == [out[0]];
    PullOutcome(row, tail[0]);
  }

  // ---------- the resized widget in the final board ----------

  /** The rebalanced row of a resize that spills nothing. */
  lemma {:induction false} KeptRow(rows: seq<seq<Tile>>, ri: nat, p: nat, sp: int, row: seq<Tile>)
      returns (done: (seq<Tile>, seq<Tile>))
    requires ri < |rows| && p < |rows[ri]| && Resized(rows[ri], p, sp) == Spill(row, p, [])
    requires row != [] && Width(row) <= COLUMNS && Spans(row, MIN_SPAN)
    requires forall r :: 0 <= r < |rows| ==> FullRow(rows[r]) && Spans(rows[r], MIN_SPAN)
    ensures ResizeRows(rows, ri, p, sp) == Flat(rows[..ri]) + done.0 + done.1
    ensures row <= done.0 && ClosesOff(done.0, done.1)
    ensures ri == |rows| - 1 || Width(row) > COLUMNS - MIN_SPAN ==> done.0 == row
    ensures ri < |rows| - 1 && Width(row) <= COLUMNS - MIN_SPAN ==> |row| < |done.0|
  {
    var after := rows[ri+1..];
    assert Singles([]) + after == after;
    done := Rebalanced(row, after);
    RebalanceFull(row, after);
  }

  lemma {:induction false} SpilledRow(rows: seq<seq<Tile>>, ri: nat, p: nat, sp: int)
      returns (done: (seq<Tile>, seq<Tile>))
    requires ri < |rows| && p < |rows[ri]| && Spans(rows[ri], MIN_SPAN) && Width(rows[ri]) == COLUMNS
    requires rows[ri][p].span <= sp <= COLUMNS && sp + MIN_SPAN * (|rows[ri]| - 1) > COLUMNS
    ensures ResizeRows(rows, ri, p, sp) == Flat(rows[..ri]) + done.0 + done.1
    ensures done.0 == Resized(rows[ri], p, sp).row && ClosesOff(done.0, done.1)
  {
    var s := Resized(rows[ri], p, sp);
    ResizedBeyond(rows[ri], p, sp);
    done := Rebalanced(s.row, Singles(s.out) + rows[ri+1..]);
    RebalanceSpilled(s.row, s.out, rows[ri+1..]);
  }

  /** The resized widget is tile q of the row done.0, and the row's gap is what the widget will overshoot by. */
  ghost predicate Placed(rows: seq<seq<Tile>>, ri: nat, p: nat, sp: int, done: (seq<Tile>, seq<Tile>), q: nat)
    requires ri < |rows| && p < |rows[ri]|
  {
    && ResizeRows(rows, ri, p, sp) == Flat(rows[..ri]) + done.0 + done.1
    && q < |done.0| && done.0[q] == rows[ri][p].(span := sp) && ClosesOff(done.0, done.1)
    && Overshoot(rows, ri, p, sp) == if q == |done.0| - 1 then COLUMNS - Width(done.0) else 0
  }

  lemma {:induction false} NarrowedRow(rows: seq<seq<Tile>>, ri: nat, p: nat, sp: int)
      returns (done: (seq<Tile>, seq<Tile>))
    requires forall r :: 0 <= r < |rows| ==> FullRow(rows[r]) && Spans(rows[r], MIN_SPAN)
    requires ri < |rows| && p < |rows[ri]| && MIN_SPAN <= sp <= rows[ri][p].span
    ensures Placed(rows, ri, p, sp, done, p)
  {
    var row := rows[ri][p := rows[ri][p].(span := sp)];
    ResizedNarrow(rows[ri], p, sp);
    done := KeptRow(rows, ri, p, sp, row);
    assert done.0[p] == row[p];
  }

  lemma {:induction false} WithinRow(rows: seq<seq<Tile>>, ri: nat, p: nat, sp: int)
      returns (done: (seq<Tile>, seq<Tile>))
    requires forall r :: 0 <= r < |rows| ==> FullRow(rows[r]) && Spans(rows[r], MIN_SPAN)
    requires ri < |rows| && p < |rows[ri]| && rows[ri][p].span < sp <= COLUMNS
    requires sp + MIN_SPAN * (|rows[ri]| - 1) <= COLUMNS
    ensures Placed(rows, ri, p, sp, done, p)
  {
    ResizedSpans(rows[ri], p, sp);
    ResizedWithin(rows[ri], p, sp);
    done := KeptRow(rows, ri, p, sp, Resized(rows[ri], p, sp).row);
  }

  lemma {:induction false} BeyondRow(rows: seq<seq<Tile>>, ri: nat, p: nat, sp: int)
      returns (done: (seq<Tile>, seq<Tile>), q: nat)
    requires ri < |rows| && p < |rows[ri]| && Spans(rows[ri], MIN_SPAN) && Width(rows[ri]) == COLUMNS
    requires rows[ri][p].span < sp <= COLUMNS && sp + MIN_SPAN * (|rows[ri]| - 1) > COLUMNS
    ensures Placed(rows, ri, p, sp, done, q)
  {
    ResizedBeyond(rows[ri], p, sp);
    done := SpilledRow(rows, ri, p, sp);
    q := Resized(rows[ri], p, sp).p;
  }

  /** Where the resized widget stands before normalise, and how wide its row is. */
  lemma {:induction false} ResizedRow(rows: seq<seq<Tile>>, ri: nat, p: nat, sp: int)
      returns (done: (seq<Tile>, seq<Tile>), q: nat)
    requires ri < |rows| && p < |rows[ri]| && MIN_SPAN <= sp <= COLUMNS
    requires forall r :: 0 <= r < |rows| ==> FullRow(rows[r]) && Spans(rows[r], MIN_SPAN)
    ensures Placed(rows, ri, p, sp, done, q)
  {
    if sp <= rows[ri][p].span {
      done := NarrowedRow(rows, ri, p, sp);
      q := p;
    } else if sp + MIN_SPAN * (|rows[ri]| - 1) <= COLUMNS {
      done := WithinRow(rows, ri, p, sp);
      q := p;
    } else {
      done, q := BeyondRow(rows, ri, p, sp);
    }
  }

  /** After normalise every packed tile has its place, and its width unless it ends a short row. */
  lemma {:induction false} NormalisedTile(list: seq<Tile>, r: nat, q: nat)
    requires Spans(list, 2) && r < |PackFrom([], list)| && q < |PackFrom([], list)[r]|
    ensures var row := PackFrom([], list)[r]; var board := PackFrom([], Normalised(list));
      && r < |board| && |board[r]| == |row| && board[r][q].id == row[q].id
      && board[r][q].span == row[q].span + if q == |row| - 1 then COLUMNS - Width(row) else 0
  {
    PackingReadsOnlySpans([], list, [], AdmitAll(list));
    var row, admitted := PackFrom([], list)[r], Rows(list)[r];
    assert SameButHeight(row, admitted);
    WidthOfSameButHeight(row, admitted);
    OnlyLastGrows(list, r);
    assert Ids(PackFrom([], Normalised(list))[r])[q] == Ids(admitted)[q];
  }

  /** A row that closes off is packed as it is, behind the full rows before it. */
  lemma {:induction false} PackedBehindFull(full: seq<seq<Tile>>, row: seq<Tile>, more: seq<Tile>)
    requires forall r :: 0 <= r < |full| ==> Width(full[r]) == COLUMNS && Spans(full[r], MIN_SPAN)
    requires row != [] && Spans(row, MIN_SPAN) && Spans(more, MIN_SPAN) && ClosesOff(row, more)
    ensures var packed := PackFrom([], Flat(full) + row + more);
      |full| < |packed| && packed[|full|] == row
  {
    assert Flat(full) + row + more == Flat(full) + (row + more);
    FullRowsStay(full, row + more);
    assert [] + row == row;
    PackOneRow([], row, more);
  }

  /** A tile of a row is a tile of the board. */
  lemma {:induction false} TileOfRow(rows: seq<seq<Tile>>, r: nat, k: nat)
    requires r < |rows| && k < |rows[r]|
    ensures |Flat(rows[..r])| + k < |Flat(rows)| && Flat(rows)[|Flat(rows[..r])| + k] == rows[r][k]
  {
    SplitAtRow(rows, r);
  }

  lemma {:induction false} DistinctTile(list: seq<Tile>, n: nat, id: Widget)
    requires Distinct(Ids(list)) && n < |list| && list[n].id == id
    ensures forall k :: 0 <= k < |list| && list[k].id == id ==> list[k] == list[n]
  {
    forall k | 0 <= k < |list| && list[k].id == id
      ensures list[k] == list[n]
    {
      assert Ids(list)[k] == Ids(list)[n];
    }
  }

  lemma {:induction false} ResizeKeepsDistinct(list: seq<Tile>, id: Widget, sp: int)
    requires Distinct(Ids(list))
    ensures Distinct(Ids(Normalised(SpanSet(list, id, sp))))
  {
    ResizeKeepsOrder(list, id, sp);
    AdmitFacts(SpanSet(list, id, sp));
    NormaliseTiles(SpanSet(list, id, sp), 2);
    DistinctByCount(Ids(list));
    DistinctByCount(Ids(SpanSet(list, id, sp)));
  }

  /**
   * A resize sticks exactly when Overshoot is 0, and otherwise the widget ends
   * wider by exactly that many columns.
   */
  lemma {:induction false} ResizeSticks(list: seq<Tile>, id: Widget, sp: int)
    requires Banded(list) && Distinct(Ids(list)) && id in Ids(list) && MIN_SPAN <= sp <= COLUMNS
    ensures var rows := Rows(list); var ri := FindRow(rows, id);
      && ri >= 0
      && var p := FindTile(rows[ri], id);
      && var out := Normalised(SpanSet(list, id, sp));
      && id in Ids(out)
      && (forall k :: 0 <= k < |out| && out[k].id == id ==> out[k].span == sp + Overshoot(rows, ri, p, sp))
  {
    RowsKeepIds(list);
    FindRowIff(Rows(list), id);
    BandedRows(list);
    var rows := Rows(list);
    var ri := FindRow(rows, id);
    var p := FindTile(rows[ri], id);
    ResizeKeepsMinimum(list, id, sp);
    var row, q := ResizedPlace(rows, ri, p, sp);
    ResizeKeepsDistinct(list, id, sp);
    BoardTile(SpanSet(list, id, sp), ri, q);
  }

  /** The row of the resized widget as it is packed before normalise. */
  lemma {:induction false} ResizedPlace(
      rows: seq<seq<Tile>>, ri: nat, p: nat, sp: int) returns (row: seq<Tile>, q: nat)
    requires ri < |rows| && p < |rows[ri]| && MIN_SPAN <= sp <= COLUMNS
    requires forall r :: 0 <= r < |rows| ==> FullRow(rows[r]) && Spans(rows[r], MIN_SPAN)
    requires Spans(ResizeRows(rows, ri, p, sp), MIN_SPAN)
    ensures var packed := PackFrom([], ResizeRows(rows, ri, p, sp)); ri < |packed| && packed[ri] == row
    ensures q < |row| && row[q] == rows[ri][p].(span := sp)
    ensures Overshoot(rows, ri, p, sp) == if q == |row| - 1 then COLUMNS - Width(row) else 0
  {
    var done;
    done, q := ResizedRow(rows, ri, p, sp);
    row := done.0;
    PartSpans(Flat(rows[..ri]), row, done.1);
    PackedBehindFull(rows[..ri], row, done.1);
  }

  /** A packed tile, seen on the normalised board. */
  lemma {:induction false} BoardTile(list: seq<Tile>, r: nat, q: nat)
    requires Spans(list, 2) && r < |PackFrom([], list)| && q < |PackFrom([], list)[r]|
    requires Distinct(Ids(Normalised(list)))
    ensures var row := PackFrom([], list)[r]; var out := Normalised(list);
      && row[q].id in Ids(out)
      && (forall k :: 0 <= k < |out| && out[k].id == row[q].id ==>
            out[k].span == row[q].span + if q == |row| - 1 then COLUMNS - Width(row) else 0)
  {
    NormalisedTile(list, r, q);
    TileSeen(Normalised(list), r, q);
  }

  lemma {:induction false} TileSeen(out: seq<Tile>, r: nat, q: nat)
    requires Distinct(Ids(out)) && r < |PackFrom([], out)| && q < |PackFrom([], out)[r]|
    ensures var t := PackFrom([], out)[r][q];
      t.id in Ids(out) && forall k :: 0 <= k < |out| && out[k].id == t.id ==> out[k] == t
  {
    var board := PackFrom([], out);
    assert Flat(board) == out by {
      PackKeepsList([], out);
    }
    TileOfRow(board, r, q);
    var n := |Flat(board[..r])| + q;
    assert Ids(out)[n] == board[r][q].id;
    DistinctTile(out, n, board[r][q].id);
  }

  lemma {:induction false} PartSpans(a: seq<Tile>, b: seq<Tile>, c: seq<Tile>)
    requires Spans(a + b + c, MIN_SPAN)
    ensures Spans(b, MIN_SPAN) && Spans(c, MIN_SPAN)
  {
    forall k | 0 <= k < |b|
      ensures MIN_SPAN <= b[k].span <= COLUMNS
    {
      assert b[k] == (a + b + c)[|a| + k];
    }
    forall k | 0 <= k < |c|
      ensures MIN_SPAN <= c[k].span <= COLUMNS
    {
      assert c[k] == (a + b + c)[|a| + |b| + k];
    }
  }

  lemma {:induction false} FoundTile(list: seq<Tile>, id: Widget) returns (k: nat)
    requires Banded(list) && id in Ids(list)
    ensures var rows := Rows(list); var ri := FindRow(rows, id);
      && ri >= 0 && k < |list| && list[k] == rows[ri][FindTile(rows[ri], id)] && list[k].id == id
  {
    RowsKeepIds(list);
    FindRowIff(Rows(list), id);
    BandedRows(list);
    var rows := Rows(list);
    var ri := FindRow(rows, id);
    TileOfRow(rows, ri, FindTile(rows[ri], id));
    k := |Flat(rows[..ri])| + FindTile(rows[ri], id);
  }

  /** The half and full width buttons always stick when they do not narrow. */
  lemma {:induction false} WideButtonsStick(list: seq<Tile>, id: Widget, sp: int)
    requires Banded(list) && Distinct(Ids(list)) && id in Ids(list) && (sp == 6 || sp == 12)
    requires forall k :: 0 <= k < |list| && list[k].id == id ==> list[k].span <= sp
    ensures var out := Normalised(SpanSet(list, id, sp));
      id in Ids(out) && forall k :: 0 <= k < |out| && out[k].id == id ==> out[k].span == sp
  {
    var k := FoundTile(list, id);
    NoOvershoot(Rows(list), FindRow(Rows(list), id), FindTile(Rows(list)[FindRow(Rows(list), id)], id), sp);
    ResizeSticks(list, id, sp);
  }

  lemma {:induction false} NoOvershoot(rows: seq<seq<Tile>>, ri: nat, p: nat, sp: int)
    requires ri < |rows| && p < |rows[ri]| && rows[ri][p].span <= sp && (sp == 6 || sp == 12)
    ensures Overshoot(rows, ri, p, sp) == 0
  {
  }

  // ---------- a last row of one widget ----------

  lemma {:induction false} LevelOfOne(t: Tile)
    requires 2 <= t.span <= COLUMNS && t.height != 0
    ensures LevelRow([t]) == [t.(span := COLUMNS)]
  {
    assert Width([t]) == t.span + Width([t][1..]);
  }

  /** A narrowed widget alone on the last row is stretched back: the board stays as it was. */
  lemma {:induction false} LastAloneSnapsBack(full: seq<seq<Tile>>, t: Tile, sp: int)
    requires forall r :: 0 <= r < |full| ==> FullRow(full[r]) && Spans(full[r], MIN_SPAN)
    requires t.span == COLUMNS && t.height != 0 && 2 <= sp <= COLUMNS
    ensures Normalised(Flat(full) + [t.(span := sp)]) == Flat(full) + [t]
  {
    var x := t.(span := sp);
    var list := Flat(full) + [x];
    AdmitBehindFull(full, [x]);
    assert AdmitAll([x]) == [x];
    FullRowsStay(full, [x]);
    assert PackFrom([], [x]) == [[x]] by {
      assert [] + [x] == [x] && [x][1..] == [];
    }
    LevelOfOne(x);
    forall r | 0 <= r < |full|
      ensures LevelRow(full[r]) == full[r]
    {
      FullRowIsLevel(full[r]);
    }
    assert Rows(list) == full + [[x]];
    assert LevelRows(Rows(list)) == full + [[t]];
    FlatConcat(full, [[t]]);
    FlatOne([t]);
  }

  /** The last row of a tiled board that ends in a widget of full width is that widget alone. */
  lemma {:induction false} WideLastRow(list: seq<Tile>)
    requires Banded(list) && list != [] && list[|list|-1].span == COLUMNS
    ensures var rows := Rows(list); rows != [] && rows[|rows|-1] == [list[|list|-1]]
  {
    BandedRows(list);
    RowsAreNotEmpty(list);
    var rows := Rows(list);
    var r := |rows| - 1;
    var n := |rows[r]| - 1;
    SplitAtRow(rows, r);
    assert rows[r+1..] == [];
    assert rows[r][n] == list[|list|-1];
    WidthSplit(rows[r], n);
    WidthBounds(rows[r][..n], MIN_SPAN);
    assert rows[r][n+1..] == [];
  }

  lemma {:induction false} FindsLast(rows: seq<seq<Tile>>, t: Tile)
    requires rows != [] && rows[|rows|-1] == [t] && Distinct(Ids(Flat(rows)))
    ensures FindRow(rows, t.id) == |rows| - 1 && FindTile([t], t.id) == 0
  {
    var r := FindRow(rows, t.id);
    var last := |rows| - 1;
    TileOfRow(rows, last, 0);
    FindRowIff(rows, t.id);
    assert Ids(Flat(rows))[|Flat(rows[..last])|] == t.id;
    if r < last {
      var p := FindTile(rows[r], t.id);
      TileOfRow(rows, r, p);
      RowsBefore(rows, r, last, p);
      assert false;
    }
  }

  lemma {:induction false} RowsBefore(rows: seq<seq<Tile>>, r: nat, q: nat, p: nat)
    requires r < q < |rows| && p < |rows[r]|
    ensures |Flat(rows[..r])| + p < |Flat(rows[..q])|
  {
    assert rows[..q][..r] == rows[..r];
    TileOfRow(rows[..q], r, p);
  }

  /**
   * On a tiled board that ends in a widget of full width, no width button of that
   * widget changes anything.
   */
  lemma {:induction false} WideLastIsStuck(list: seq<Tile>, sp: int)
    requires Banded(list) && Distinct(Ids(list)) && list != [] && list[|list|-1].span == COLUMNS
    requires 2 <= sp <= COLUMNS
    ensures Normalised(SpanSet(list, list[|list|-1].id, sp)) == list
  {
    var t := list[|list|-1];
    BandedRows(list);
    WideLastRow(list);
    TiledIsAdmitted(list);
    FindsLast(Rows(list), t);
    WideLastRows(Rows(list)[..|Rows(list)|-1], Rows(list), t, sp);
    LastAloneSnapsBack(Rows(list)[..|Rows(list)|-1], t, sp);
  }

  lemma {:induction false} WideLastRows(full: seq<seq<Tile>>, rows: seq<seq<Tile>>, t: Tile, sp: int)
    requires rows != [] && full == rows[..|rows|-1] && rows[|rows|-1] == [t] && 2 <= sp <= COLUMNS
    ensures Flat(rows) == Flat(full) + [t]
    ensures ResizeRows(rows, |rows| - 1, 0, sp) == Flat(full) + [t.(span := sp)]
  {
    SplitAtRow(rows, |rows| - 1);
    assert rows[|rows|..] == [];
    OnlyTile(t, sp);
    assert Flat(full) + [t.(span := sp)] + [] == Flat(full) + [t.(span := sp)];
  }

  lemma {:induction false} OnlyTile(t: Tile, sp: int)
    requires 2 <= sp <= COLUMNS
    ensures Resized([t], 0, sp) == Spill([t.(span := sp)], 0, [])
    ensures Singles([]) + [] == []
  {
    var x := t.(span := sp);
    assert [t][0 := x] == [x];
    assert Width([x]) == sp by {
      assert [x][1..] == [];
    }
  }

  // ---------- what a resize leaves alone ----------

  lemma {:induction false} AdmitBehindFull(full: seq<seq<Tile>>, more: seq<Tile>)
    requires forall r :: 0 <= r < |full| ==> FullRow(full[r]) && Spans(full[r], MIN_SPAN)
    ensures AdmitAll(Flat(full) + more) == Flat(full) + AdmitAll(more)
  {
    HeightsFromRows(full);
    SpansOfFlat(full, 2);
    AdmitFacts(Flat(full));
    assert AdmitAll(Flat(full) + more) == AdmitAll(Flat(full)) + AdmitAll(more);
  }

  lemma {:induction false} FullFrontStays(full: seq<seq<Tile>>, more: seq<Tile>)
    requires forall r :: 0 <= r < |full| ==> FullRow(full[r]) && Spans(full[r], MIN_SPAN)
    ensures full <= PackFrom([], Normalised(Flat(full) + more))
  {
    var list := Flat(full) + more;
    AdmitBehindFull(full, more);
    AdmitFacts(more);
    FullRowsStay(full, AdmitAll(more));
    AdmitFacts(list);
    NormaliseTiles(list, 2);
    forall r | 0 <= r < |full|
      ensures LevelRows(Rows(list))[r] == full[r]
    {
      assert Rows(list)[r] == full[r];
      FullRowIsLevel(full[r]);
    }
  }

  /** Whatever the width asked for, the rows above the resized widget stay as they are. */
  lemma {:induction false} RowsAboveStay(list: seq<Tile>, id: Widget, sp: int)
    requires Banded(list) && id in Ids(list)
    ensures var rows := Rows(list); var ri := FindRow(rows, id);
      ri >= 0 && rows[..ri] <= PackFrom([], Normalised(SpanSet(list, id, sp)))
  {
    RowsKeepIds(list);
    FindRowIff(Rows(list), id);
    BandedRows(list);
    var rows := Rows(list);
    var ri := FindRow(rows, id);
    FrontOfResize(rows, ri, FindTile(rows[ri], id), sp);
  }

  lemma {:induction false} FrontOfResize(rows: seq<seq<Tile>>, ri: nat, p: nat, sp: int)
    requires forall r :: 0 <= r < |rows| ==> FullRow(rows[r]) && Spans(rows[r], MIN_SPAN)
    requires ri < |rows| && p < |rows[ri]|
    ensures rows[..ri] <= PackFrom([], Normalised(ResizeRows(rows, ri, p, sp)))
  {
    var more := BehindFront(rows, ri, p, sp);
    FullFrontStays(rows[..ri], more);
  }

  /** A resize rewrites the board from the widget's row on. */
  lemma {:induction false} BehindFront(rows: seq<seq<Tile>>, ri: nat, p: nat, sp: int) returns (more: seq<Tile>)
    requires ri < |rows| && p < |rows[ri]|
    ensures ResizeRows(rows, ri, p, sp) == Flat(rows[..ri]) + more
  {
    var s := Resized(rows[ri], p, sp);
    var done := Rebalanced(s.row, Singles(s.out) + rows[ri+1..]);
    more := done.0 + done.1;
    Assoc(Flat(rows[..ri]), done.0, done.1);
  }

  /**
   * Widening within what the neighbours can give changes that one row only: it
   * keeps its widgets and heights, is full again, and shows the width asked for.
   */
  lemma {:induction false} WideningIsLocal(list: seq<Tile>, id: Widget, sp: int)
    requires Banded(list) && id in Ids(list)
    requires var rows := Rows(list); var ri := FindRow(rows, id);
      ri >= 0 ==>
        && rows[ri][FindTile(rows[ri], id)].span <= sp <= COLUMNS
        && sp + MIN_SPAN * (|rows[ri]| - 1) <= COLUMNS
    ensures var rows := Rows(list); var ri := FindRow(rows, id);
      && ri >= 0
      && var p := FindTile(rows[ri], id); var row := Resized(rows[ri], p, sp).row;
      && SameContents(row, rows[ri]) && |row| > p && row[p].span == sp && Width(row) == COLUMNS
      && PackFrom([], Normalised(SpanSet(list, id, sp))) == rows[ri := row]
  {
    RowsKeepIds(list);
    FindRowIff(Rows(list), id);
    BandedRows(list);
    var rows := Rows(list);
    var ri := FindRow(rows, id);
    var p := FindTile(rows[ri], id);
    WidenedRow(rows, ri, p, sp);
    var row := Resized(rows[ri], p, sp).row;
    ReplaceRow(rows, ri, row);
    FullRowIsLevel(row);
    MaxHeightIsMember(row);
    assert WithHeight(row, MaxHeight(row)) == row;
  }

  lemma {:induction false} WidenedRow(rows: seq<seq<Tile>>, ri: nat, p: nat, sp: int)
    requires forall r :: 0 <= r < |rows| ==> FullRow(rows[r]) && Spans(rows[r], MIN_SPAN)
    requires ri < |rows| && p < |rows[ri]|
    requires rows[ri][p].span <= sp <= COLUMNS && sp + MIN_SPAN * (|rows[ri]| - 1) <= COLUMNS
    ensures var row := Resized(rows[ri], p, sp).row;
      && SameContents(row, rows[ri]) && row[p].span == sp && FullRow(row) && Spans(row, MIN_SPAN)
      && ResizeRows(rows, ri, p, sp) == Flat(rows[ri := row])
  {
    var row, after := rows[ri], rows[ri+1..];
    ResizedWithin(row, p, sp);
    ResizedSpans(row, p, sp);
    var wide := row[p := row[p].(span := sp)];
    ShaveKeepsContents(wide, p, SHAVE_CAP);
    WidthUpdate(row, p, wide[p]);
    var s := Resized(row, p, sp);
    assert Singles(s.out) + after == after;
    RebalanceFull(s.row, after);
    assert Rebalanced(s.row, after) == (s.row, Flat(after));
    OneRowReplaced(rows, ri, s.row);
    assert Flat(rows[..ri]) + s.row + [] + Flat(after) == Flat(rows[..ri]) + s.row + Flat(after);
  }
}
