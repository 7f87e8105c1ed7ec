// What setSpan followed by normalise guarantees.
module ResizeFacts {
  import opened Common
  import opened Tiles
  import opened Packing
  import opened Normalise
  import opened Squeeze
  import opened Insert
  import opened Resize

  // ---------- nothing lost, the others keep their order ----------

  /** The widgets other than id, in order. */
  function Others(ids: seq<Widget>, id: Widget): seq<Widget> {
    if ids == [] then []
    else (if ids[0] == id then [] else [ids[0]]) + Others(ids[1..], id)
  }

  lemma {:induction false} OthersConcat(a: seq<Widget>, b: seq<Widget>, id: Widget)
    ensures Others(a + b, id) == Others(a, id) + Others(b, id)
  {
    if a == [] {
      assert a + b == b;
    } else {
      OthersConcat(a[1..], b, id);
      assert (a + b)[0] == a[0] && (a + b)[1..] == a[1..] + b;
      Assoc(if a[0] == id then [] else [a[0]], Others(a[1..], id), Others(b, id));
    }
  }

  lemma {:induction false} OthersCount(a: seq<Widget>, id: Widget, x: Widget)
    ensures |Others(a, id)| <= |a|
    ensures multiset(a)[x] == if x == id then |a| - |Others(a, id)| else multiset(Others(a, id))[x]
  {
    if a != [] {
      OthersCount(a[1..], id, x);
      assert a == [a[0]] + a[1..];
    }
  }

  lemma {:induction false} SameWidgets(a: seq<Widget>, b: seq<Widget>, id: Widget)
    requires |a| == |b| && Others(a, id) == Others(b, id)
    ensures multiset(a) == multiset(b)
  {
    forall x
      ensures multiset(a)[x] == multiset(b)[x]
    {
      OthersCount(a, id, x);
      OthersCount(b, id, x);
    }
  }

  /** The other widgets of a list of tiles. */
  function Rest(list: seq<Tile>, id: Widget): seq<Widget> { Others(Ids(list), id) }

  lemma {:induction false} RestConcat(a: seq<Tile>, b: seq<Tile>, id: Widget)
    ensures Rest(a + b, id) == Rest(a, id) + Rest(b, id)
  {
    IdsConcat(a, b);
    OthersConcat(Ids(a), Ids(b), id);
  }

  lemma {:induction false} RestOfOne(t: Tile, id: Widget)
    ensures Rest([t], id) == if t.id == id then [] else [t.id]
  {
    assert Ids([t]) == [t.id];
    assert [t.id][1..] == [] && Others([], id) == [];
  }

  /** Moving the last neighbour out of the row keeps row-then-spill in order. */
  lemma {:induction false} SpillStepKeeps(row: seq<Tile>, p: nat, out: seq<Tile>, id: Widget)
    requires p < |row| && |row| >= 2 && row[p].id == id
    ensures var j := LastNeighbour(|row|, p);
      Rest(RemoveAt(row, j), id) + Rest([row[j]] + out, id) == Rest(row, id) + Rest(out, id)
  {
    var j := LastNeighbour(|row|, p);
    var front, back := row[..j], row[j+1..];
    assert row == front + ([row[j]] + back);
    RestConcat(front, [row[j]] + back, id);
    RestConcat([row[j]], back, id);
    RestConcat(front, back, id);
    RestConcat([row[j]], out, id);
    RestOfTail(row, p, id);
    Assoc(Rest(front, id), Rest([row[j]], id), Rest(out, id));
  }

  /** Behind the last neighbour there is at most the resized widget itself. */
  lemma {:induction false} RestOfTail(row: seq<Tile>, p: nat, id: Widget)
    requires p < |row| && |row| >= 2 && row[p].id == id
    ensures Rest(row[LastNeighbour(|row|, p)+1..], id) == []
  {
    if p == |row| - 1 {
      assert row[p..] == [row[p]];
      RestOfOne(row[p], id);
    } else {
      assert row[|row|..] == [];
    }
  }

  lemma {:induction false} SpillKeeps(s: Spill, id: Widget)
    requires s.p < |s.row| && s.row[s.p].id == id
    ensures var r := SpillOver(s);
      && r.row[r.p] == s.row[s.p]
      && |r.row| + |r.out| == |s.row| + |s.out|
      && Rest(r.row, id) + Rest(r.out, id) == Rest(s.row, id) + Rest(s.out, id)
    decreases |s.row|
  {
    if !(Width(s.row) <= COLUMNS || |s.row| <= 1) {
      SpillStepKeeps(s.row, s.p, s.out, id);
      SpillKeeps(SpillStep(s), id);
    }
  }

  lemma {:induction false} PullStepKeeps(row: seq<Tile>, next: seq<Tile>, t: Tile)
    requires next != [] && t.id == next[0].id
    ensures Ids(row + [t]) + Ids(next[1..]) == Ids(row) + Ids(next)
  {
  }

  lemma {:induction false} PullKeeps(row: seq<Tile>, next: seq<Tile>)
    ensures var pull := PullUp(row, next);
      && row <= pull.0
      && |pull.0| + |pull.1| == |row| + |next|
      && Ids(pull.0) + Ids(pull.1) == Ids(row) + Ids(next)
    decreases |next|
  {
    if !(Width(row) >= COLUMNS || next == []) {
      var room := COLUMNS - Width(row);
      var t := if next[0].span <= room then next[0] else next[0].(span := room);
      PullStepKeeps(row, next, t);
      if next[0].span <= room || room >= MIN_SPAN {
        PullKeeps(row + [t], next[1..]);
      }
    }
  }

  lemma {:induction false} FlatSingles(tiles: seq<Tile>)
    ensures Flat(Singles(tiles)) == tiles
  {
    if tiles != [] {
      FlatSingles(tiles[1..]);
      assert Singles(tiles)[0] == [tiles[0]] && Singles(tiles)[1..] == Singles(tiles[1..]);
    }
  }

  lemma {:induction false} RebalanceKeeps(row: seq<Tile>, tail: seq<seq<Tile>>)
    ensures var done := Rebalanced(row, tail);
      && row <= done.0
      && |done.0| + |done.1| == |row| + |Flat(tail)|
      && Ids(done.0 + done.1) == Ids(row + Flat(tail))
  {
    if tail == [] {
      assert Flat(tail) == [];
    } else {
      PullKeeps(row, tail[0]);
      var pull := PullUp(row, tail[0]);
      var more := Flat(tail[1..]);
      IdsConcat(pull.0, pull.1 + more);
      IdsConcat(pull.1, more);
      IdsConcat(row, tail[0] + more);
      IdsConcat(tail[0], more);
      var a, b, c, d := Ids(pull.0), Ids(pull.1), Ids(row), Ids(tail[0]);
      Assoc(a, b, Ids(more));
      Assoc(c, d, Ids(more));
    }
  }

  lemma {:induction false} ShavedRow(row: seq<Tile>, p: nat, sp: int)
    requires p < |row|
    ensures var r := ShaveN(row[p := row[p].(span := ClampSpan(sp))], p, SHAVE_CAP);
      |r| == |row| && Ids(r) == Ids(row)
  {
    var wide := row[p := row[p].(span := ClampSpan(sp))];
    ShaveKeepsContents(wide, p, SHAVE_CAP);
    IdsOfSame(ShaveN(wide, p, SHAVE_CAP), row);
  }

  lemma {:induction false} ResizedKeeps(row: seq<Tile>, p: nat, sp: int)
    requires p < |row|
    ensures var s := Resized(row, p, sp); var id := row[p].id;
      && |s.row| + |s.out| == |row|
      && Rest(s.row + s.out, id) == Rest(row, id)
  {
    ShavedRow(row, p, sp);
    var shaved := ShaveN(row[p := row[p].(span := ClampSpan(sp))], p, SHAVE_CAP);
    var id := row[p].id;
    assert Ids(shaved)[p] == id;
    SpillKeeps(Spill(shaved, p, []), id);
    var s := Resized(row, p, sp);
    RestConcat(s.row, s.out, id);
    assert Rest([], id) == [];
  }

  lemma {:induction false} RestAround(
      before: seq<Tile>, d: seq<Tile>, s: seq<Tile>, row: seq<Tile>, after: seq<Tile>, id: Widget)
    requires Rest(d, id) == Rest(s + after, id) && Rest(s, id) == Rest(row, id)
    ensures Rest(before + d, id) == Rest(before + row + after, id)
  {
    RestConcat(before, d, id);
    RestConcat(s, after, id);
    RestConcat(before, row, id);
    RestConcat(before + row, after, id);
    Assoc(Rest(before, id), Rest(row, id), Rest(after, id));
  }

  lemma {:induction false} RebalanceRest(row: seq<Tile>, out: seq<Tile>, after: seq<seq<Tile>>, id: Widget)
    ensures var done := Rebalanced(row, Singles(out) + after);
      && |done.0 + done.1| == |row| + |out| + |Flat(after)|
      && Rest(done.0 + done.1, id) == Rest(row + out + Flat(after), id)
  {
    FlatConcat(Singles(out), after);
    FlatSingles(out);
    RebalanceKeeps(row, Singles(out) + after);
    assert row + (out + Flat(after)) == row + out + Flat(after);
  }

  lemma {:induction false} ResizeRowsKeeps(rows: seq<seq<Tile>>, ri: nat, p: nat, sp: int)
    requires ri < |rows| && p < |rows[ri]|
    ensures var id := rows[ri][p].id; var out := ResizeRows(rows, ri, p, sp);
      |out| == |Flat(rows)| && Rest(out, id) == Rest(Flat(rows), id)
  {
    var id := rows[ri][p].id;
    var s := Resized(rows[ri], p, sp);
    var before, after := Flat(rows[..ri]), Flat(rows[ri+1..]);
    ResizedKeeps(rows[ri], p, sp);
    RebalanceRest(s.row, s.out, rows[ri+1..], id);
    SplitAtRow(rows, ri);
    var done := Rebalanced(s.row, Singles(s.out) + rows[ri+1..]);
    RestAround(before, done.0 + done.1, s.row + s.out, rows[ri], after, id);
    assert ResizeRows(rows, ri, p, sp) == before + (done.0 + done.1);
  }

  /** setSpan loses no widget and keeps every other widget's order, on any list. */
  lemma {:induction false} ResizeKeepsOrder(list: seq<Tile>, id: Widget, sp: int)
    ensures Others(Ids(SpanSet(list, id, sp)), id) == Others(Ids(list), id)
    ensures multiset(Ids(SpanSet(list, id, sp))) == multiset(Ids(list))
  {
    var rows := Rows(list);
    RowsKeepIds(list);
    var ri := FindRow(rows, id);
    if ri >= 0 {
      ResizeRowsKeeps(rows, ri, FindTile(rows[ri], id), sp);
      assert |Ids(Flat(rows))| == |Ids(list)|;
    }
    SameWidgets(Ids(SpanSet(list, id, sp)), Ids(list), id);
  }

  // ---------- the minimum width is kept ----------

  lemma {:induction false} SpillSpans(s: Spill, lo: int)
    requires s.p < |s.row| && Spans(s.row, lo) && Spans(s.out, lo)
    ensures Spans(SpillOver(s).row, lo) && Spans(SpillOver(s).out, lo)
    decreases |s.row|
  {
    if !(Width(s.row) <= COLUMNS || |s.row| <= 1) {
      SpillSpans(SpillStep(s), lo);
    }
  }

  lemma {:induction false} PullSpans(row: seq<Tile>, next: seq<Tile>)
    requires Spans(row, MIN_SPAN) && Spans(next, MIN_SPAN)
    ensures Spans(PullUp(row, next).0, MIN_SPAN) && Spans(PullUp(row, next).1, MIN_SPAN)
    decreases |next|
  {
    if !(Width(row) >= COLUMNS || next == []) {
      var room := COLUMNS - Width(row);
      WidthBounds(row, MIN_SPAN);
      if next[0].span <= room {
        PullSpans(row + [next[0]], next[1..]);
      } else if room >= MIN_SPAN {
        PullSpans(row + [next[0].(span := room)], next[1..]);
      }
    }
  }

  lemma {:induction false} ResizedSpans(row: seq<Tile>, p: nat, sp: int)
    requires p < |row| && Spans(row, MIN_SPAN) && Width(row) <= COLUMNS && sp >= MIN_SPAN
    ensures Spans(Resized(row, p, sp).row, MIN_SPAN) && Spans(Resized(row, p, sp).out, MIN_SPAN)
  {
    var wide := row[p := row[p].(span := ClampSpan(sp))];
    WidthUpdate(row, p, wide[p]);
    ShaveCap(wide, p, SHAVE_CAP);
    ShaveFacts(wide, p);
    SpillSpans(Spill(ShaveN(wide, p, SHAVE_CAP), p, []), MIN_SPAN);
  }

  lemma {:induction false} SinglesSpans(tiles: seq<Tile>, lo: int)
    requires Spans(tiles, lo)
    ensures forall r :: 0 <= r < |Singles(tiles)| ==> Spans(Singles(tiles)[r], lo)
  {
    if tiles != [] {
      SinglesSpans(tiles[1..], lo);
    }
  }

  lemma {:induction false} ResizeRowsSpans(rows: seq<seq<Tile>>, ri: nat, p: nat, sp: int)
    requires ri < |rows| && p < |rows[ri]| && Width(rows[ri]) <= COLUMNS && sp >= MIN_SPAN
    requires forall r :: 0 <= r < |rows| ==> Spans(rows[r], MIN_SPAN)
    ensures Spans(ResizeRows(rows, ri, p, sp), MIN_SPAN)
  {
    ResizedSpans(rows[ri], p, sp);
    var s := Resized(rows[ri], p, sp);
    var tail := Singles(s.out) + rows[ri+1..];
    SinglesSpans(s.out, MIN_SPAN);
    if tail != [] {
      PullSpans(s.row, tail[0]);
      SpansOfFlat(tail[1..], MIN_SPAN);
      SpansConcat(PullUp(s.row, tail[0]).1, Flat(tail[1..]), MIN_SPAN);
    }
    var done := Rebalanced(s.row, tail);
    SpansOfFlat(rows[..ri], MIN_SPAN);
    SpansConcat(Flat(rows[..ri]), done.0, MIN_SPAN);
    SpansConcat(Flat(rows[..ri]) + done.0, done.1, MIN_SPAN);
  }

  lemma {:induction false} ResizeKeepsMinimum(list: seq<Tile>, id: Widget, sp: int)
    requires Spans(list, MIN_SPAN) && sp >= MIN_SPAN
    ensures Spans(SpanSet(list, id, sp), MIN_SPAN)
  {
    AdmitFacts(list);
    RowsFacts(list, MIN_SPAN);
    var rows := Rows(list);
    var ri := FindRow(rows, id);
    if ri >= 0 {
      ResizeRowsSpans(rows, ri, FindTile(rows[ri], id), sp);
    }
  }

  /** The cap on the shaving loop never cuts it short, on any board and for any width asked for. */
  lemma {:induction false} ResizeCapNeverBites(list: seq<Tile>, ri: nat, p: nat, sp: int)
    requires ri < |Rows(list)| && p < |Rows(list)[ri]|
    ensures var row := Rows(list)[ri]; var wide := row[p := row[p].(span := ClampSpan(sp))];
      ShaveN(wide, p, SHAVE_CAP) == Shave(wide, p)
  {
    AdmitFacts(list);
    RowsFacts(list, 2);
    var row := Rows(list)[ri];
    var wide := row[p := row[p].(span := ClampSpan(sp))];
    WidthUpdate(row, p, wide[p]);
    ShaveCap(wide, p, SHAVE_CAP);
  }
}
