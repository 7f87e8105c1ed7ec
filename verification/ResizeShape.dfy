// What a resize makes of the other widgets: which are pulled up beside a narrowed
// one, which leave the row of a widened one, and with what width.
module ResizeShape {
  import opened Common
  import opened Tiles
  import opened Packing
  import opened Normalise
  import opened Squeeze
  import opened Insert
  import opened Resize
  import opened ResizeFacts
  import opened ResizeSticks

  // ---------- pulling up ----------

  /**
   * The first k tiles of next have joined row: all but the last with their own
   * width, the last with its own or, if that does not fit, with exactly the gap;
   * and the rest stays where it was, since the row is full or the next tile does
   * not fit into a gap under three columns.
   */
  ghost predicate Joined(row: seq<Tile>, next: seq<Tile>, full: seq<Tile>, rest: seq<Tile>, k: nat) {
    && k <= |next| && rest == next[k..] && |full| == |row| + k && full[..|row|] == row
    && (forall j :: 0 <= j < k - 1 ==> full[|row| + j] == next[j])
    && (k > 0 ==>
          var gap := COLUMNS - Width(row + next[..k-1]);
          && gap > 0 && (next[k-1].span <= gap || gap >= MIN_SPAN)
          && full[|row| + k - 1] == next[k-1].(span := Min(next[k-1].span, gap)))
    && (k < |next| ==>
          var gap := COLUMNS - Width(full);
          gap <= 0 || (gap < MIN_SPAN && next[k].span > gap))
  }

  lemma {:induction false} OneMoreTile(row: seq<Tile>, next: seq<Tile>, full: seq<Tile>, k: nat)
    requires next != [] && k < |next| && |full| == |row| + 1 + k && full[..|row| + 1] == row + [next[0]]
    requires forall j :: 0 <= j < k - 1 ==> full[|row| + 1 + j] == next[1..][j]
    ensures full[..|row|] == row
    ensures forall j :: 0 <= j < k ==> full[|row| + j] == next[j]
    ensures k > 0 ==> row + [next[0]] + next[1..][..k-1] == row + next[..k] && next[1..][k-1] == next[k]
    ensures next[1..][k..] == next[k+1..] && full[|row| + k] == if k > 0 then full[|row| + 1 + (k - 1)] else next[0]
  {
    assert full[..|row|] == full[..|row| + 1][..|row|] == row;
    assert full[|row|] == full[..|row| + 1][|row|] == next[0];
    forall j | 0 < j < k
      ensures full[|row| + j] == next[j]
    {
      assert full[|row| + 1 + (j - 1)] == next[1..][j-1];
    }
  }

  lemma {:induction false} JoinedOneMore(row: seq<Tile>, next: seq<Tile>, full: seq<Tile>, rest: seq<Tile>, k: nat)
    requires next != [] && Joined(row + [next[0]], next[1..], full, rest, k) && Width(row) < COLUMNS
    requires next[0].span <= COLUMNS - Width(row)
    ensures Joined(row, next, full, rest, k + 1)
  {
    OneMoreTile(row, next, full, k);
    if k == 0 {
      assert row + next[..0] == row;
    }
  }

  lemma {:induction false} PullIsExact(row: seq<Tile>, next: seq<Tile>) returns (k: nat)
    ensures Joined(row, next, PullUp(row, next).0, PullUp(row, next).1, k)
    decreases |next|
  {
    k := 0;
    if Width(row) < COLUMNS && next != [] {
      var room := COLUMNS - Width(row);
      if next[0].span <= room {
        var n := PullIsExact(row + [next[0]], next[1..]);
        JoinedOneMore(row, next, PullUp(row, next).0, PullUp(row, next).1, n);
        k := n + 1;
      } else if room >= MIN_SPAN {
        CutFillsUp(row, next[0], room, next[1..]);
        assert row + next[..0] == row;
        k := 1;
      }
    }
  }

  lemma {:induction false} CutFillsUp(row: seq<Tile>, t: Tile, room: int, rest: seq<Tile>)
    requires room == COLUMNS - Width(row)
    ensures Width(row + [t.(span := room)]) == COLUMNS
    ensures PullUp(row + [t.(span := room)], rest) == (row + [t.(span := room)], rest)
  {
    WidthConcat(row, [t.(span := room)]);
    assert [t.(span := room)][1..] == [];
  }

  // ---------- from the resized list to the final board ----------

  /** Every tile has a height of its own. */
  ghost predicate High(list: seq<Tile>) { forall k :: 0 <= k < |list| ==> list[k].height != 0 }

  lemma {:induction false} PullKeepsHigh(row: seq<Tile>, next: seq<Tile>)
    requires High(row) && High(next)
    ensures High(PullUp(row, next).0) && High(PullUp(row, next).1)
    decreases |next|
  {
    if Width(row) < COLUMNS && next != [] {
      var room := COLUMNS - Width(row);
      PullKeepsHigh(row + [next[0].(span := Min(next[0].span, room))], next[1..]);
      assert next[0].span <= room ==> next[0].(span := next[0].span) == next[0];
    }
  }

  lemma {:induction false} SpillKeepsHigh(s: Spill)
    requires s.p < |s.row| && High(s.row) && High(s.out)
    ensures High(SpillOver(s).row) && High(SpillOver(s).out)
    decreases |s.row|
  {
    if !(Width(s.row) <= COLUMNS || |s.row| <= 1) {
      SpillKeepsHigh(SpillStep(s));
    }
  }

  lemma {:induction false} RebalanceKeepsHigh(row: seq<Tile>, tail: seq<seq<Tile>>)
    requires High(row) && High(Flat(tail))
    ensures High(Rebalanced(row, tail).0) && High(Rebalanced(row, tail).1)
  {
    if tail != [] {
      assert Flat(tail)[..|tail[0]|] == tail[0] && Flat(tail)[|tail[0]|..] == Flat(tail[1..]);
      PullKeepsHigh(row, tail[0]);
    }
  }

  lemma {:induction false} ResizedIsHigh(row: seq<Tile>, p: nat, sp: int)
    requires p < |row| && High(row)
    ensures High(Resized(row, p, sp).row) && High(Resized(row, p, sp).out)
  {
    var wide := row[p := row[p].(span := ClampSpan(sp))];
    ShaveKeepsContents(wide, p, SHAVE_CAP);
    SpillKeepsHigh(Spill(ShaveN(wide, p, SHAVE_CAP), p, []));
  }

  lemma {:induction false} HighParts(a: seq<Tile>, b: seq<Tile>, c: seq<Tile>)
    requires High(a + b + c)
    ensures High(a) && High(b) && High(c)
  {
    var all := a + b + c;
    assert forall k :: 0 <= k < |a| ==> all[k] == a[k];
    assert forall k :: 0 <= k < |b| ==> all[|a| + k] == b[k];
    assert forall k :: 0 <= k < |c| ==> all[|a| + |b| + k] == c[k];
  }

  lemma {:induction false} ResizeRowsKeepHigh(rows: seq<seq<Tile>>, ri: nat, p: nat, sp: int)
    requires ri < |rows| && p < |rows[ri]| && High(Flat(rows))
    ensures High(ResizeRows(rows, ri, p, sp))
  {
    SplitAtRow(rows, ri);
    HighParts(Flat(rows[..ri]), rows[ri], Flat(rows[ri+1..]));
    ResizedIsHigh(rows[ri], p, sp);
    var s := Resized(rows[ri], p, sp);
    FlatConcat(Singles(s.out), rows[ri+1..]);
    FlatSingles(s.out);
    RebalanceKeepsHigh(s.row, Singles(s.out) + rows[ri+1..]);
  }

  /** A resized list is saved as it is packed, each row closed and levelled, whatever the resize. */
  lemma {:induction false} ResizeCloses(list: seq<Tile>, id: Widget, sp: int)
    requires Banded(list) && sp >= MIN_SPAN
    ensures AllClosed(PackFrom([], SpanSet(list, id, sp)), PackFrom([], Normalised(SpanSet(list, id, sp))))
  {
    TiledIsAdmitted(list);
    BandedRows(list);
    var out := SpanSet(list, id, sp);
    ResizeKeepsMinimum(list, id, sp);
    if FindRow(Rows(list), id) >= 0 {
      ResizeRowsKeepHigh(Rows(list), FindRow(Rows(list), id), FindTile(Rows(list)[FindRow(Rows(list), id)], id), sp);
    }
    AdmitFacts(out);
    NormalisedCloses(out);
  }

  /**
   * After narrowing a widget on a tiled board: its row is the old one with the new
   * width and the first tiles of the row below, joined as described; below stand
   * the others as they were, packed anew.
   * ResizeCloses says how that is saved.
   */
  lemma {:induction false} NarrowingJoins(list: seq<Tile>, id: Widget, sp: int)
      returns (row: seq<Tile>, rest: seq<Tile>, k: nat)
    requires Banded(list) && 0 <= FindRow(Rows(list), id) < |Rows(list)| - 1
    requires var row := Rows(list)[FindRow(Rows(list), id)];
      MIN_SPAN <= sp < row[FindTile(row, id)].span
    ensures var rows := Rows(list); var ri := FindRow(rows, id); var p := FindTile(rows[ri], id);
      && Joined(rows[ri][p := rows[ri][p].(span := sp)], rows[ri+1], row, rest, k)
      && PackFrom([], SpanSet(list, id, sp)) == rows[..ri] + [row] + PackFrom([], rest + Flat(rows[ri+2..]))
  {
    BandedRows(list);
    var rows := Rows(list);
    var ri := FindRow(rows, id);
    var p := FindTile(rows[ri], id);
    row, rest, k := NarrowingRows(rows, ri, p, sp);
    assert row[..|rows[ri]|] == rows[ri][p := rows[ri][p].(span := sp)];
  }

  /** Narrowing in the last row, with nothing below to pull up, leaves the gap. */
  lemma {:induction false} NarrowingLast(list: seq<Tile>, id: Widget, sp: int)
    requires Banded(list) && FindRow(Rows(list), id) == |Rows(list)| - 1 >= 0
    requires var row := Rows(list)[|Rows(list)| - 1];
      MIN_SPAN <= sp < row[FindTile(row, id)].span
    ensures var rows := Rows(list); var ri := |rows| - 1; var p := FindTile(rows[ri], id);
      PackFrom([], SpanSet(list, id, sp)) == rows[..ri] + [rows[ri][p := rows[ri][p].(span := sp)]]
  {
    BandedRows(list);
    var rows := Rows(list);
    var ri := |rows| - 1;
    var p := FindTile(rows[ri], id);
    var narrow := rows[ri][p := rows[ri][p].(span := sp)];
    ResizedNarrow(rows[ri], p, sp);
    assert Singles([]) + rows[ri+1..] == [];
    ClosedRowStands(rows[..ri], narrow, []);
  }

  lemma {:induction false} NarrowingRows(rows: seq<seq<Tile>>, ri: nat, p: nat, sp: int)
      returns (row: seq<Tile>, rest: seq<Tile>, k: nat)
    requires forall r :: 0 <= r < |rows| ==> FullRow(rows[r]) && Spans(rows[r], MIN_SPAN)
    requires ri + 1 < |rows| && p < |rows[ri]| && MIN_SPAN <= sp < rows[ri][p].span
    ensures Joined(rows[ri][p := rows[ri][p].(span := sp)], rows[ri+1], row, rest, k)
    ensures PackFrom([], ResizeRows(rows, ri, p, sp)) == rows[..ri] + [row] + PackFrom([], rest + Flat(rows[ri+2..]))
  {
    var narrow := rows[ri][p := rows[ri][p].(span := sp)];
    var after := rows[ri+1..];
    ResizedNarrow(rows[ri], p, sp);
    assert Singles([]) + after == after;
    RebalanceFull(narrow, after);
    assert after[0] == rows[ri+1] && after[1..] == rows[ri+2..];
    var pull := PullUp(narrow, after[0]);
    row, rest := pull.0, pull.1;
    k := PullIsExact(narrow, after[0]);
    PullSpans(narrow, after[0]);
    SpansOfFlat(after[1..], MIN_SPAN);
    SpansConcat(rest, Flat(after[1..]), MIN_SPAN);
    ClosedRowStands(rows[..ri], row, rest + Flat(after[1..]));
  }

  lemma {:induction false} ClosedRowStands(full: seq<seq<Tile>>, row: seq<Tile>, more: seq<Tile>)
    requires forall r :: 0 <= r < |full| ==> Width(full[r]) == COLUMNS && Spans(full[r], MIN_SPAN)
    requires row != [] && Spans(row, MIN_SPAN) && Spans(more, MIN_SPAN) && ClosesOff(row, more)
    ensures PackFrom([], Flat(full) + row + more) == full + [row] + PackFrom([], more)
  {
    Assoc(Flat(full), row, more);
    SpansConcat(row, more, MIN_SPAN);
    FullRowsStay(full, row + more);
    assert [] + row == row;
    PackOneRow([], row, more);
    Assoc(full, [row], PackFrom([], more));
  }

  // ---------- spilling ----------

  /** The row without its tile p. */
  function Beside(row: seq<Tile>, p: nat): seq<Tile>
    requires p < |row|
  {
    row[..p] + row[p+1..]
  }

  lemma {:induction false} SpillStepIsExact(row: seq<Tile>, p: nat, out: seq<Tile>)
    requires p < |row| && |row| >= 2
    ensures var s := SpillStep(Spill(row, p, out)); Beside(s.row, s.p) + s.out == Beside(row, p) + out
  {
    var j := LastNeighbour(|row|, p);
    var s := SpillStep(Spill(row, p, out));
    if p == |row| - 1 {
      assert Beside(row, p) == row[..j] + [row[j]];
      assert Beside(s.row, s.p) == row[..j];
    } else {
      assert Beside(row, p) == Beside(s.row, s.p) + [row[j]];
    }
    Assoc(Beside(s.row, s.p), [row[j]], out);
  }

  /** Spilling changes no tile: those left and those that left are the neighbours, in order. */
  lemma {:induction false} SpillIsExact(s: Spill)
    requires s.p < |s.row|
    ensures var r := SpillOver(s);
      r.row[r.p] == s.row[s.p] && Beside(r.row, r.p) + r.out == Beside(s.row, s.p) + s.out
    decreases |s.row|
  {
    if !(Width(s.row) <= COLUMNS || |s.row| <= 1) {
      SpillStepIsExact(s.row, s.p, s.out);
      SpillIsExact(SpillStep(s));
    }
  }

  /** Widening within what the neighbours can give takes the columns from them evenly. */
  lemma {:induction false} WideningIsEven(row: seq<Tile>, p: nat, sp: int)
    requires p < |row| && Spans(row, MIN_SPAN) && Width(row) == COLUMNS
    requires row[p].span <= sp <= COLUMNS && sp + MIN_SPAN * (|row| - 1) <= COLUMNS
    ensures var s := Resized(row, p, sp);
      s.p == p && s.out == [] && SameContents(s.row, row) && GaveEvenly(row, p, s.row)
  {
    var wide := row[p := row[p].(span := sp)];
    ResizedWithin(row, p, sp);
    WidthUpdate(row, p, wide[p]);
    ShaveCap(wide, p, SHAVE_CAP);
    ShaveStaysEven(wide, p);
    ShaveKeepsContents(wide, p, SHAVE_CAP);
  }

  /** All tiles cut to three columns. */
  function Thin(row: seq<Tile>): (r: seq<Tile>)
    ensures |r| == |row| && forall k :: 0 <= k < |row| ==> r[k] == row[k].(span := MIN_SPAN)
  {
    seq(|row|, k requires 0 <= k < |row| => row[k].(span := MIN_SPAN))
  }

  lemma {:induction false} BesideIsThin(row: seq<Tile>, was: seq<Tile>, p: nat)
    requires p < |row| && SameContents(row, was)
    requires forall k :: 0 <= k < |row| && k != p ==> row[k].span == MIN_SPAN
    ensures Beside(row, p) == Thin(Beside(was, p))
  {
    var a, b := Beside(row, p), Thin(Beside(was, p));
    assert |a| == |b|;
    forall k | 0 <= k < |a|
      ensures a[k] == b[k]
    {
      var i := if k < p then k else k + 1;
      assert a[k] == row[i] && Beside(was, p)[k] == was[i];
    }
  }

  /** Widening beyond what the neighbours can give, in the row itself. */
  lemma {:induction false} BeyondIsExact(row: seq<Tile>, p: nat, sp: int)
    requires p < |row| && Spans(row, MIN_SPAN) && Width(row) == COLUMNS
    requires row[p].span <= sp <= COLUMNS && sp + MIN_SPAN * (|row| - 1) > COLUMNS
    ensures var s := Resized(row, p, sp);
      && |s.row| == (COLUMNS - sp) / MIN_SPAN + 1 && s.row[s.p] == row[p].(span := sp)
      && Beside(s.row, s.p) + s.out == Thin(Beside(row, p))
  {
    var wide := row[p := row[p].(span := sp)];
    var shaved := ShaveN(wide, p, SHAVE_CAP);
    ResizedBeyond(row, p, sp);
    WidthUpdate(row, p, wide[p]);
    ShaveCap(wide, p, SHAVE_CAP);
    ShaveFacts(wide, p);
    ShaveOutcome(wide, p);
    ShaveKeepsContents(wide, p, SHAVE_CAP);
    BesideIsThin(shaved, row, p);
    SpillIsExact(Spill(shaved, p, []));
    var s := Resized(row, p, sp);
    assert Beside(shaved, p) + [] == Beside(shaved, p);
  }

  /**
   * After widening a widget on a tiled board beyond what its neighbours can give:
   * its row, packed, is the widget and as many of the neighbours, in order and
   * three columns wide, as fit; the others, three wide too, stand in front of what
   * was below, packed anew with it.
   */
  lemma {:induction false} WideningSpills(rows: seq<seq<Tile>>, ri: nat, p: nat, sp: int)
      returns (row: seq<Tile>, q: nat, out: seq<Tile>)
    requires forall r :: 0 <= r < |rows| ==> FullRow(rows[r]) && Spans(rows[r], MIN_SPAN)
    requires ri < |rows| && p < |rows[ri]| && rows[ri][p].span < sp <= COLUMNS
    requires sp + MIN_SPAN * (|rows[ri]| - 1) > COLUMNS
    ensures |row| == (COLUMNS - sp) / MIN_SPAN + 1 && q < |row| && row[q] == rows[ri][p].(span := sp)
    ensures Beside(row, q) + out == Thin(Beside(rows[ri], p))
    ensures PackFrom([], ResizeRows(rows, ri, p, sp)) == rows[..ri] + [row] + PackFrom([], out + Flat(rows[ri+1..]))
  {
    var s := Resized(rows[ri], p, sp);
    BeyondIsExact(rows[ri], p, sp);
    ResizedSpans(rows[ri], p, sp);
    var done := SpilledRow(rows, ri, p, sp);
    row, q, out := s.row, s.p, s.out;
    SpilledRest(rows, ri, p, sp, done);
    SpansOfFlat(rows[ri+1..], MIN_SPAN);
    SpansConcat(out, Flat(rows[ri+1..]), MIN_SPAN);
    ClosedRowStands(rows[..ri], row, out + Flat(rows[ri+1..]));
  }

  /** What follows the row is the spilled tiles and the rows below. */
  lemma {:induction false} SpilledRest(
      rows: seq<seq<Tile>>, ri: nat, p: nat, sp: int, done: (seq<Tile>, seq<Tile>))
    requires ri < |rows| && p < |rows[ri]| && Spans(rows[ri], MIN_SPAN) && Width(rows[ri]) == COLUMNS
    requires rows[ri][p].span <= sp <= COLUMNS && sp + MIN_SPAN * (|rows[ri]| - 1) > COLUMNS
    requires ResizeRows(rows, ri, p, sp) == Flat(rows[..ri]) + done.0 + done.1
    requires done.0 == Resized(rows[ri], p, sp).row && ClosesOff(done.0, done.1)
    ensures done.1 == Resized(rows[ri], p, sp).out + Flat(rows[ri+1..])
  {
    var s := Resized(rows[ri], p, sp);
    ResizedBeyond(rows[ri], p, sp);
    var tail := Singles(s.out) + rows[ri+1..];
    assert tail[0] == [s.out[0]];
    PullOutcome(s.row, tail[0]);
    FlatConcat(Singles(s.out), rows[ri+1..]);
    FlatSingles(s.out);
    assert tail == [tail[0]] + tail[1..];
    assert Flat(tail) == tail[0] + Flat(tail[1..]);
    var full := Flat(rows[..ri]) + s.row;
    assert ResizeRows(rows, ri, p, sp) == full + Flat(tail);
    assert (full + done.1)[|full|..] == done.1 && (full + Flat(tail))[|full|..] == Flat(tail);
  }

  /** The same from the board as it is shown. */
  lemma {:induction false} WideningLeaves(list: seq<Tile>, id: Widget, sp: int)
      returns (row: seq<Tile>, q: nat, out: seq<Tile>)
    requires Banded(list) && FindRow(Rows(list), id) >= 0
    requires var row := Rows(list)[FindRow(Rows(list), id)];
      row[FindTile(row, id)].span < sp <= COLUMNS && sp + MIN_SPAN * (|row| - 1) > COLUMNS
    ensures var rows := Rows(list); var ri := FindRow(rows, id); var p := FindTile(rows[ri], id);
      && |row| == (COLUMNS - sp) / MIN_SPAN + 1 && q < |row| && row[q] == rows[ri][p].(span := sp)
      && Beside(row, q) + out == Thin(Beside(rows[ri], p))
      && PackFrom([], SpanSet(list, id, sp)) == rows[..ri] + [row] + PackFrom([], out + Flat(rows[ri+1..]))
  {
    BandedRows(list);
    var rows := Rows(list);
    var ri := FindRow(rows, id);
    row, q, out := WideningSpills(rows, ri, FindTile(rows[ri], id), sp);
  }
}
