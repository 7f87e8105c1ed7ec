// Greedy packing of a list into rows of twelve columns (toRows, and the same
// packing repeated by the height handler and by the layout thumbnail).
module Packing {
  import opened Tiles

  /** The rows a forward scan produces when `row` is open and `list` is still to come. */
  function PackFrom(row: seq<Tile>, list: seq<Tile>): seq<seq<Tile>>
    decreases |list|
  {
    if list == [] then
      if row == [] then [] else [row]
    else if Width(row) + list[0].span > COLUMNS then
      [row] + PackFrom([list[0]], list[1..])
    else
      PackFrom(row + [list[0]], list[1..])
  }

  /** The rows of a board. */
  function Rows(list: seq<Tile>): seq<seq<Tile>> {
    PackFrom([], AdmitAll(list))
  }

  /** toRows: pack the admitted entries, keeping them as rows. */
  method ToRows(list: seq<Tile>) returns (rows: seq<seq<Tile>>)
    ensures rows == Rows(list)
  {
    ghost var all := AdmitAll(list);
    rows := [];
    var row, w := [], 0;
    for k := 0 to |list|
      invariant w == Width(row)
      invariant rows + PackFrom(row, all[k..]) == PackFrom([], all)
    {
      var it := Admit(list[k]);
      assert all[k..] == [it] + all[k+1..];
      if w + it.span > COLUMNS {
        rows := rows + [row];
        row, w := [], 0;
      }
      WidthConcat(row, [it]);
      assert [] + [it] == [it];
      row := row + [it];
      w := w + it.span;
    }
    assert all[|list|..] == [];
    if row != [] {
      rows := rows + [row];
    }
  }

  /** The height handler's packing: the stored entries as they are, not admitted again. */
  method PackStored(list: seq<Tile>) returns (rows: seq<seq<Tile>>)
    ensures rows == PackFrom([], list)
  {
    rows := [];
    var row, w := [], 0;
    for k := 0 to |list|
      invariant w == Width(row)
      invariant rows + PackFrom(row, list[k..]) == PackFrom([], list)
    {
      var it := list[k];
      assert list[k..] == [it] + list[k+1..];
      if w + it.span > COLUMNS {
        rows := rows + [row];
        row, w := [], 0;
      }
      WidthConcat(row, [it]);
      assert [] + [it] == [it];
      row := row + [it];
      w := w + it.span;
    }
    if row != [] {
      rows := rows + [row];
    }
  }

  /** What the thumbnail packs: the span untouched, a missing height filled in. */
  function Preview(list: seq<Tile>): (r: seq<Tile>)
    ensures |r| == |list|
    ensures forall k :: 0 <= k < |list| ==>
      r[k] == list[k].(height := HeightOr(list[k].id, list[k].height))
  {
    seq(|list|, k requires 0 <= k < |list| => list[k].(height := HeightOr(list[k].id, list[k].height)))
  }

  /** layoutThumb: the miniature's rows. */
  method ThumbRows(list: seq<Tile>) returns (rows: seq<seq<Tile>>)
    ensures rows == PackFrom([], Preview(list))
  {
    ghost var all := Preview(list);
    rows := [];
    var cur, w := [], 0;
    for k := 0 to |list|
      invariant w == Width(cur)
      invariant rows + PackFrom(cur, all[k..]) == PackFrom([], all)
    {
      var it := list[k].(height := HeightOr(list[k].id, list[k].height));
      assert all[k..] == [it] + all[k+1..];
      if w + it.span > COLUMNS {
        rows := rows + [cur];
        cur, w := [], 0;
      }
      WidthConcat(cur, [it]);
      assert [] + [it] == [it];
      cur := cur + [it];
      w := w + it.span;
    }
    assert all[|list|..] == [];
    if cur != [] {
      rows := rows + [cur];
    }
  }

  // ---------- what packing means ----------

  /** A reference definition: rows fit, none is empty, and every break was forced. */
  ghost predicate Greedy(rows: seq<seq<Tile>>) {
    && (forall r :: 0 <= r < |rows| ==> rows[r] != [] && Width(rows[r]) <= COLUMNS)
    && (forall r :: 0 <= r < |rows| - 1 ==> Width(rows[r]) + rows[r+1][0].span > COLUMNS)
  }

  lemma {:induction false} PackKeepsList(row: seq<Tile>, list: seq<Tile>)
    ensures Flat(PackFrom(row, list)) == row + list
    decreases |list|
  {
    if list == [] {
      if row != [] {
        FlatOne(row);
      }
    } else if Width(row) + list[0].span > COLUMNS {
      PackKeepsList([list[0]], list[1..]);
      FlatConcat([row], PackFrom([list[0]], list[1..]));
      FlatOne(row);
      assert [list[0]] + list[1..] == list;
    } else {
      PackKeepsList(row + [list[0]], list[1..]);
      assert row + [list[0]] + list[1..] == row + list;
    }
  }

  lemma {:induction false} PackStartsWith(row: seq<Tile>, list: seq<Tile>)
    requires row != []
    ensures PackFrom(row, list) != [] && row <= PackFrom(row, list)[0]
    decreases |list|
  {
    if list != [] && Width(row) + list[0].span <= COLUMNS {
      PackStartsWith(row + [list[0]], list[1..]);
    }
  }

  lemma {:induction false} PackIsGreedy(row: seq<Tile>, list: seq<Tile>)
    requires Width(row) <= COLUMNS && Spans(list, 1)
    ensures Greedy(PackFrom(row, list))
    decreases |list|
  {
    if list != [] {
      var x := list[0];
      if Width(row) + x.span > COLUMNS {
        PackIsGreedy([x], list[1..]);
        PackStartsWith([x], list[1..]);
        var rest := PackFrom([x], list[1..]);
        assert rest[0][0] == x;
        assert row != [];
        var rows := [row] + rest;
        forall r | 0 <= r < |rows| - 1
          ensures Width(rows[r]) + rows[r+1][0].span > COLUMNS
        {
          if r > 0 {
            assert rows[r] == rest[r-1] && rows[r+1] == rest[r];
          }
        }
      } else {
        WidthConcat(row, [x]);
        PackIsGreedy(row + [x], list[1..]);
      }
    }
  }

  /** A row that ends exactly where the next tile no longer fits is packed as one row. */
  lemma {:induction false} PackOneRow(a: seq<Tile>, b: seq<Tile>, rest: seq<Tile>)
    requires a + b != [] && Spans(b, 0) && Width(a + b) <= COLUMNS
    requires rest != [] ==> Width(a + b) + rest[0].span > COLUMNS >= rest[0].span
    ensures PackFrom(a, b + rest) == [a + b] + PackFrom([], rest)
    decreases |b|
  {
    if b == [] {
      assert a + b == a && b + rest == rest;
      if rest != [] {
        assert [] + [rest[0]] == [rest[0]];
      }
    } else {
      assert (b + rest)[1..] == b[1..] + rest;
      assert a + [b[0]] + b[1..] == a + b;
      WidthConcat(a + [b[0]], b[1..]);
      WidthConcat(a, [b[0]]);
      WidthBounds(b[1..], 0);
      PackOneRow(a + [b[0]], b[1..], rest);
    }
  }

  lemma {:induction false} GreedyIsPacked(rows: seq<seq<Tile>>)
    requires Greedy(rows) && Spans(Flat(rows), 1)
    ensures PackFrom([], Flat(rows)) == rows
  {
    if rows != [] {
      var rest := Flat(rows[1..]);
      assert Flat(rows) == rows[0] + rest;
      forall k | 0 <= k < |rest|
        ensures 1 <= rest[k].span <= COLUMNS
      {
        assert rest[k] == Flat(rows)[|rows[0]| + k];
      }
      forall k | 0 <= k < |rows[0]|
        ensures 0 <= rows[0][k].span <= COLUMNS
      {
        assert rows[0][k] == Flat(rows)[k];
      }
      GreedyIsPacked(rows[1..]);
      if |rows| > 1 {
        assert rest == rows[1] + Flat(rows[1..][1..]);
        assert rest[0] == rows[1][0];
      }
      assert [] + rows[0] == rows[0];
      PackOneRow([], rows[0], rest);
    }
  }

  /** Packing is the one split of the list whose rows fit and whose breaks are all forced. */
  lemma {:induction false} PackingIsTheGreedySplit(list: seq<Tile>, rows: seq<seq<Tile>>)
    ensures rows == Rows(list) <==> Greedy(rows) && Flat(rows) == AdmitAll(list)
  {
    PackIsGreedy([], AdmitAll(list));
    PackKeepsList([], AdmitAll(list));
    if Greedy(rows) && Flat(rows) == AdmitAll(list) {
      GreedyIsPacked(rows);
    }
  }

  /** Rows that are already full stay as they are in front of whatever follows. */
  lemma {:induction false} FullRowsStay(full: seq<seq<Tile>>, rest: seq<Tile>)
    requires forall r :: 0 <= r < |full| ==> Width(full[r]) == COLUMNS && Spans(full[r], 1)
    requires Spans(rest, 1)
    ensures PackFrom([], Flat(full) + rest) == full + PackFrom([], rest)
  {
    if full == [] {
      assert Flat(full) + rest == rest;
    } else {
      var tail := Flat(full[1..]) + rest;
      FullRowsStay(full[1..], rest);
      assert Flat(full) + rest == full[0] + tail;
      assert [] + full[0] == full[0];
      SpansOfFlat(full[1..], 1);
      PackOneRow([], full[0], tail);
    }
  }

  lemma {:induction false} SpansOfFlat(rows: seq<seq<Tile>>, lo: int)
    requires forall r :: 0 <= r < |rows| ==> Spans(rows[r], lo)
    ensures Spans(Flat(rows), lo)
  {
    if rows != [] {
      SpansOfFlat(rows[1..], lo);
    }
  }

  lemma {:induction false} SpansOfRows(rows: seq<seq<Tile>>, lo: int, r: nat)
    requires Spans(Flat(rows), lo) && r < |rows|
    ensures Spans(rows[r], lo)
  {
    if r == 0 {
      forall k | 0 <= k < |rows[0]|
        ensures lo <= rows[0][k].span <= COLUMNS
      {
        assert rows[0][k] == Flat(rows)[k];
      }
    } else {
      var rest := Flat(rows[1..]);
      forall k | 0 <= k < |rest|
        ensures lo <= rest[k].span <= COLUMNS
      {
        assert rest[k] == Flat(rows)[|rows[0]| + k];
      }
      SpansOfRows(rows[1..], lo, r - 1);
    }
  }

  // ---------- greedy packing uses the fewest rows ----------

  /** How many times the scan opens another row after one of width w. */
  ghost function Breaks(w: int, list: seq<Tile>): nat
    decreases |list|
  {
    if list == [] then 0
    else if w + list[0].span > COLUMNS then 1 + Breaks(list[0].span, list[1..])
    else Breaks(w + list[0].span, list[1..])
  }

  lemma {:induction false} CountRows(row: seq<Tile>, list: seq<Tile>)
    requires row != []
    ensures |PackFrom(row, list)| == 1 + Breaks(Width(row), list)
    decreases |list|
  {
    if list != [] {
      WidthConcat(row, [list[0]]);
      assert Width([list[0]]) == list[0].span;
      if Width(row) + list[0].span > COLUMNS {
        CountRows([list[0]], list[1..]);
      } else {
        CountRows(row + [list[0]], list[1..]);
      }
    }
  }

  /** Any two scans of the same list stay within one row of each other, the emptier one ahead. */
  lemma {:induction false} BreaksCompare(w: nat, v: nat, list: seq<Tile>)
    requires Spans(list, 1)
    ensures w <= v ==> Breaks(w, list) <= Breaks(v, list)
    ensures Breaks(v, list) <= 1 + Breaks(w, list)
    decreases |list|
  {
    if list != [] {
      var x := list[0].span;
      BreaksCompare(w + x, v + x, list[1..]);
      BreaksCompare(x, v + x, list[1..]);
      BreaksCompare(x, w + x, list[1..]);
      BreaksCompare(w + x, x, list[1..]);
    }
  }

  lemma {:induction false} BreaksWithinRow(w: int, row: seq<Tile>, rest: seq<Tile>)
    requires Spans(row, 0) && w + Width(row) <= COLUMNS
    ensures Breaks(w, row + rest) == Breaks(w + Width(row), rest)
    decreases |row|
  {
    if row == [] {
      assert row + rest == rest;
    } else {
      WidthBounds(row[1..], 0);
      assert (row + rest)[1..] == row[1..] + rest;
      BreaksWithinRow(w + row[0].span, row[1..], rest);
    }
  }

  lemma {:induction false} BreaksOfSplit(split: seq<seq<Tile>>)
    requires split != [] && Spans(Flat(split), 1)
    requires forall r :: 0 <= r < |split| ==> Width(split[r]) <= COLUMNS
    ensures Breaks(0, Flat(split)) <= |split| - 1
  {
    var rest := Flat(split[1..]);
    assert Flat(split) == split[0] + rest;
    SpansOfRows(split, 1, 0);
    forall k | 0 <= k < |rest|
      ensures 1 <= rest[k].span <= COLUMNS
    {
      assert rest[k] == Flat(split)[|split[0]| + k];
    }
    BreaksWithinRow(0, split[0], rest);
    if |split| > 1 {
      BreaksOfSplit(split[1..]);
      WidthBounds(split[0], 1);
      BreaksCompare(0, Width(split[0]), rest);
    }
  }

  /** Among all order-preserving splits into rows that fit, toRows uses the fewest rows. */
  lemma {:induction false} FewestRows(list: seq<Tile>, split: seq<seq<Tile>>)
    requires Flat(split) == AdmitAll(list)
    requires forall r :: 0 <= r < |split| ==> Width(split[r]) <= COLUMNS
    ensures |Rows(list)| <= |split|
  {
    var l := AdmitAll(list);
    if l != [] {
      assert [] + [l[0]] == [l[0]];
      CountRows([l[0]], l[1..]);
      assert Rows(list) == PackFrom([l[0]], l[1..]);
      BreaksOfSplit(split);
    }
  }

  // ---------- the three packings agree ----------

  ghost predicate SameButHeight(a: seq<Tile>, b: seq<Tile>) {
    |a| == |b| && forall k :: 0 <= k < |a| ==> a[k].id == b[k].id && a[k].span == b[k].span
  }

  /** Same rows up to the heights. */
  ghost predicate SameBoundaries(a: seq<seq<Tile>>, b: seq<seq<Tile>>) {
    |a| == |b| && forall r :: 0 <= r < |a| ==> SameButHeight(a[r], b[r])
  }

  lemma {:induction false} WidthOfSameButHeight(a: seq<Tile>, b: seq<Tile>)
    requires SameButHeight(a, b)
    ensures Width(a) == Width(b)
  {
    if a != [] {
      WidthOfSameButHeight(a[1..], b[1..]);
    }
  }

  lemma {:induction false} PackingReadsOnlySpans(ra: seq<Tile>, a: seq<Tile>, rb: seq<Tile>, b: seq<Tile>)
    requires SameButHeight(ra, rb) && SameButHeight(a, b)
    ensures SameBoundaries(PackFrom(ra, a), PackFrom(rb, b))
    decreases |a|
  {
    WidthOfSameButHeight(ra, rb);
    if a != [] {
      if Width(ra) + a[0].span > COLUMNS {
        PackingReadsOnlySpans([a[0]], a[1..], [b[0]], b[1..]);
      } else {
        PackingReadsOnlySpans(ra + [a[0]], a[1..], rb + [b[0]], b[1..]);
      }
    }
  }

  /**
   * The thumbnail and the height handler pack without clamping; for spans 2..12
   * their rows still break exactly where the board's rows break.
   */
  lemma {:induction false} PackingsAgree(list: seq<Tile>)
    requires Spans(list, 2)
    ensures SameBoundaries(PackFrom([], list), Rows(list))
    ensures SameBoundaries(PackFrom([], Preview(list)), Rows(list))
  {
    PackingReadsOnlySpans([], list, [], AdmitAll(list));
    PackingReadsOnlySpans([], Preview(list), [], AdmitAll(list));
  }
}
