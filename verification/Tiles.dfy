// A dashboard board is a list of widgets, each with a column span and a row
// height (platform/src/parts/p4-markets.js). This module holds the entities,
// the fixed tables, and the arithmetic of spans that every later module uses.
module Tiles {
  import opened Common

  /** The known widgets; any other name the page might carry is Other. */
  datatype Widget =
    | Pulse | Index | Chart | Summary | Portfolio | Social | Active | Gainers | Losers
    | Sectors | Radar | Pipeline | Weight | VolShare | Hist | RetSince | Table
    | Other(name: string)

  /** One entry [widget, columns, rows] of a layout. */
  datatype Tile = Tile(id: Widget, span: int, height: int)

  const COLUMNS := 12
  const MIN_SPAN := 3

  /** The span a widget has when it is dragged in from the palette (absent: 4). */
  function PaletteSpan(id: Widget): int {
    match id
    case Pulse => 5
    case Index => 7
    case Chart => 8
    case Table => 12
    case _ => 4
  }

  /** The height the widget table gives (absent: 4). */
  function DefaultHeight(id: Widget): int {
    match id
    case Pulse => 5
    case Index => 2
    case Chart => 5
    case Portfolio => 5
    case Active => 3
    case Gainers => 3
    case Losers => 3
    case Sectors => 3
    case Radar => 5
    case Table => 9
    case _ => 4
  }

  /** A height of 0 counts as missing. */
  function HeightOr(id: Widget, h: int): int {
    if h != 0 then h else DefaultHeight(id)
  }

  function ClampSpan(sp: int): int { Max(2, Min(COLUMNS, sp)) }

  /** What packing makes of one listed entry: a missing span is 4, then clamped. */
  function Admit(t: Tile): Tile {
    Tile(t.id, ClampSpan(if t.span != 0 then t.span else 4), HeightOr(t.id, t.height))
  }

  function AdmitAll(list: seq<Tile>): (r: seq<Tile>)
    ensures |r| == |list|
    ensures forall k :: 0 <= k < |list| ==> r[k] == Admit(list[k])
  {
    seq(|list|, k requires 0 <= k < |list| => Admit(list[k]))
  }

  /** Total columns a row takes. */
  function Width(row: seq<Tile>): int {
    if row == [] then 0 else row[0].span + Width(row[1..])
  }

  function Flat(rows: seq<seq<Tile>>): seq<Tile> {
    if rows == [] then [] else rows[0] + Flat(rows[1..])
  }

  function Ids(list: seq<Tile>): (r: seq<Widget>)
    ensures |r| == |list|
    ensures forall k :: 0 <= k < |list| ==> r[k] == list[k].id
  {
    seq(|list|, k requires 0 <= k < |list| => list[k].id)
  }

  /** Every span lies between lo and the full width. */
  ghost predicate Spans(list: seq<Tile>, lo: int) {
    forall k :: 0 <= k < |list| ==> lo <= list[k].span <= COLUMNS
  }

  // ---------- arithmetic of rows ----------

  lemma {:induction false} WidthConcat(a: seq<Tile>, b: seq<Tile>)
    ensures Width(a + b) == Width(a) + Width(b)
  {
    if a == [] {
      assert a + b == b;
    } else {
      WidthConcat(a[1..], b);
      assert (a + b)[1..] == a[1..] + b;
    }
  }

  lemma {:induction false} WidthSplit(row: seq<Tile>, k: nat)
    requires k < |row|
    ensures Width(row) == Width(row[..k]) + row[k].span + Width(row[k+1..])
  {
    assert row == row[..k] + ([row[k]] + row[k+1..]);
    WidthConcat(row[..k], [row[k]] + row[k+1..]);
    assert ([row[k]] + row[k+1..])[1..] == row[k+1..];
  }

  lemma {:induction false} WidthUpdate(row: seq<Tile>, k: nat, t: Tile)
    requires k < |row|
    ensures Width(row[k := t]) == Width(row) - row[k].span + t.span
  {
    WidthSplit(row, k);
    WidthSplit(row[k := t], k);
    assert row[k := t][..k] == row[..k] && row[k := t][k+1..] == row[k+1..];
  }

  lemma {:induction false} WidthRemove(row: seq<Tile>, k: nat)
    requires k < |row|
    ensures Width(row[..k] + row[k+1..]) == Width(row) - row[k].span
  {
    WidthSplit(row, k);
    WidthConcat(row[..k], row[k+1..]);
  }

  lemma {:induction false} WidthInsert(row: seq<Tile>, k: nat, t: Tile)
    requires k <= |row|
    ensures Width(row[..k] + [t] + row[k..]) == Width(row) + t.span
  {
    var r := row[..k] + [t] + row[k..];
    WidthSplit(r, k);
    assert r[..k] == row[..k] && r[k+1..] == row[k..] && row[..k] + row[k..] == row;
    WidthConcat(row[..k], row[k..]);
  }

  lemma {:induction false} WidthBounds(row: seq<Tile>, lo: int)
    requires Spans(row, lo)
    ensures lo * |row| <= Width(row) <= COLUMNS * |row|
  {
    if row != [] {
      WidthBounds(row[1..], lo);
    }
  }

  lemma {:induction false} FlatConcat(a: seq<seq<Tile>>, b: seq<seq<Tile>>)
    ensures Flat(a + b) == Flat(a) + Flat(b)
  {
    if a == [] {
      assert a + b == b;
    } else {
      FlatConcat(a[1..], b);
      assert (a + b)[0] == a[0] && (a + b)[1..] == a[1..] + b;
      Assoc(a[0], Flat(a[1..]), Flat(b));
    }
  }

  lemma {:induction false} FlatOne(row: seq<Tile>)
    ensures Flat([row]) == row
  {
    assert [row][1..] == [];
  }

  lemma {:induction false} IdsConcat(a: seq<Tile>, b: seq<Tile>)
    ensures Ids(a + b) == Ids(a) + Ids(b)
  {
  }

  lemma {:induction false} IdsWithout(row: seq<Tile>, k: nat)
    requires k < |row|
    ensures multiset(Ids(row)) == multiset(Ids(row[..k] + row[k+1..])) + multiset{row[k].id}
  {
    assert Ids(row) == Ids(row[..k]) + [row[k].id] + Ids(row[k+1..]);
    assert Ids(row[..k] + row[k+1..]) == Ids(row[..k]) + Ids(row[k+1..]);
  }

  lemma {:induction false} IdsWith(row: seq<Tile>, k: nat, t: Tile)
    requires k <= |row|
    ensures multiset(Ids(row[..k] + [t] + row[k..])) == multiset(Ids(row)) + multiset{t.id}
  {
    assert Ids(row[..k] + [t] + row[k..]) == Ids(row[..k]) + [t.id] + Ids(row[k..]);
    assert Ids(row) == Ids(row[..k]) + Ids(row[k..]);
  }

  /** A sequence has no repetition exactly when its multiset has none. */
  lemma {:induction false} DistinctByCount<T>(s: seq<T>)
    ensures Distinct(s) <==> forall x :: multiset(s)[x] <= 1
  {
    if |s| > 0 {
      var front, last := s[..|s|-1], s[|s|-1];
      DistinctByCount(front);
      assert s == front + [last];
      assert multiset(s) == multiset(front) + multiset{last};
      if Distinct(s) {
        assert forall i :: 0 <= i < |front| ==> s[i] != s[|s|-1];
        assert last !in front;
      }
      if forall x :: multiset(s)[x] <= 1 {
        assert forall x :: multiset(front)[x] <= multiset(s)[x];
        assert multiset(front)[last] == multiset(s)[last] - 1;
        assert last !in multiset(front);
      }
    }
  }
}
