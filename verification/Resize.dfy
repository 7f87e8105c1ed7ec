// setSpan: give one widget a new width and rebalance its row.
module Resize {
  import opened Common
  import opened Tiles
  import opened Packing
  import opened Squeeze
  import opened Insert

  // ---------- as coded ----------

  /** The first tile of the widget, -1 if there is none. */
  function FindTile(row: seq<Tile>, id: Widget): (k: int)
    ensures -1 <= k < |row|
    ensures k >= 0 ==> row[k].id == id
  {
    if row == [] then -1
    else if row[0].id == id then 0
    else
      var k := FindTile(row[1..], id);
      if k == -1 then -1 else k + 1
  }

  /** The first row that has the widget, -1 if there is none. */
  function FindRow(rows: seq<seq<Tile>>, id: Widget): (r: int)
    ensures -1 <= r < |rows|
    ensures r >= 0 ==> FindTile(rows[r], id) >= 0
  {
    if rows == [] then -1
    else if FindTile(rows[0], id) >= 0 then 0
    else
      var r := FindRow(rows[1..], id);
      if r == -1 then -1 else r + 1
  }

  lemma {:induction false} FindTileIff(row: seq<Tile>, id: Widget)
    ensures FindTile(row, id) >= 0 <==> id in Ids(row)
  {
    if row != [] {
      FindTileIff(row[1..], id);
      assert Ids(row) == [row[0].id] + Ids(row[1..]);
    }
  }

  lemma {:induction false} FindRowIff(rows: seq<seq<Tile>>, id: Widget)
    ensures FindRow(rows, id) >= 0 <==> id in Ids(Flat(rows))
  {
    if rows == [] {
      assert Ids(Flat(rows)) == [];
    } else {
      FindTileIff(rows[0], id);
      FindRowIff(rows[1..], id);
      IdsConcat(rows[0], Flat(rows[1..]));
    }
  }

  /** A row being spilled: the tiles that stay, where the resized one is, what left. */
  datatype Spill = Spill(row: seq<Tile>, p: nat, out: seq<Tile>)

  /** The last neighbour leaves. */
  function SpillStep(s: Spill): (r: Spill)
    requires s.p < |s.row| && |s.row| >= 2
    ensures r.p < |r.row| == |s.row| - 1 && r.row[r.p] == s.row[s.p] && |r.out| == |s.out| + 1
  {
    var j := LastNeighbour(|s.row|, s.p);
    Spill(RemoveAt(s.row, j), if j < s.p then s.p - 1 else s.p, [s.row[j]] + s.out)
  }

  function SpillOver(s: Spill): (r: Spill)
    requires s.p < |s.row|
    ensures r.p < |r.row|
    decreases |s.row|
  {
    if Width(s.row) <= COLUMNS || |s.row| <= 1 then s else SpillOver(SpillStep(s))
  }

  function PullUp(row: seq<Tile>, next: seq<Tile>): (seq<Tile>, seq<Tile>)
    decreases |next|
  {
    if Width(row) >= COLUMNS || next == [] then (row, next)
    else
      var room := COLUMNS - Width(row);
      if next[0].span <= room then PullUp(row + [next[0]], next[1..])
      else if room < MIN_SPAN then (row, next)
      else PullUp(row + [next[0].(span := room)], next[1..])
  }

  /** Spilled tiles each stand on a row of their own. */
  function Singles(tiles: seq<Tile>): seq<seq<Tile>> {
    if tiles == [] then [] else [[tiles[0]]] + Singles(tiles[1..])
  }

  /** The resized row after shaving and spilling. */
  function Resized(row: seq<Tile>, p: nat, sp: int): (r: Spill)
    requires p < |row|
    ensures r.p < |r.row|
  {
    SpillOver(Spill(ShaveN(row[p := row[p].(span := ClampSpan(sp))], p, SHAVE_CAP), p, []))
  }

  /** What stands after the rebalanced row `row`, pulling from the row that follows it. */
  function Rebalanced(row: seq<Tile>, tail: seq<seq<Tile>>): (seq<Tile>, seq<Tile>) {
    if tail == [] then (row, [])
    else
      var pull := PullUp(row, tail[0]);
      (pull.0, pull.1 + Flat(tail[1..]))
  }

  function ResizeRows(rows: seq<seq<Tile>>, ri: nat, p: nat, sp: int): seq<Tile>
    requires ri < |rows| && p < |rows[ri]|
  {
    var s := Resized(rows[ri], p, sp);
    var done := Rebalanced(s.row, Singles(s.out) + rows[ri+1..]);
    Flat(rows[..ri]) + done.0 + done.1
  }

  function SpanSet(list: seq<Tile>, id: Widget, sp: int): seq<Tile> {
    var rows := Rows(list);
    var ri := FindRow(rows, id);
    if ri < 0 then list else ResizeRows(rows, ri, FindTile(rows[ri], id), sp)
  }

  method SpillNeighbours(row0: seq<Tile>, p0: nat) returns (row: seq<Tile>, ghost p: nat, out: seq<seq<Tile>>)
    requires p0 < |row0|
    ensures row == SpillOver(Spill(row0, p0, [])).row && p == SpillOver(Spill(row0, p0, [])).p
    ensures out == Singles(SpillOver(Spill(row0, p0, [])).out)
  {
    row, out := row0, [];
    var q: nat := p0;
    ghost var left: seq<Tile> := [];
    while Width(row) > COLUMNS && |row| > 1
      invariant q < |row| && out == Singles(left)
      invariant SpillOver(Spill(row, q, left)) == SpillOver(Spill(row0, p0, []))
      decreases |row|
    {
      var j := if |row| - 1 == q then |row| - 2 else |row| - 1;
      var last := row[j];
      left := [last] + left;
      out := [[last]] + out;
      row := row[..j] + row[j+1..];
      if j < q {
        q := q - 1;
      }
    }
    p := q;
  }

  method PullNext(row0: seq<Tile>, next0: seq<Tile>) returns (row: seq<Tile>, next: seq<Tile>)
    ensures (row, next) == PullUp(row0, next0)
  {
    row, next := row0, next0;
    while Width(row) < COLUMNS && next != []
      invariant PullUp(row, next) == PullUp(row0, next0)
      decreases |next|
    {
      var nxt, room := next[0], COLUMNS - Width(row);
      if nxt.span > room {
        if room < MIN_SPAN {
          break;
        }
        nxt := nxt.(span := room);
      }
      row, next := row + [nxt], next[1..];
    }
  }

  method SetSpan(list: seq<Tile>, id: Widget, sp: int) returns (out: seq<Tile>)
    ensures out == SpanSet(list, id, sp)
  {
    var rows := ToRows(list);
    var ri := FindRow(rows, id);
    if ri < 0 {
      return list;
    }
    var p := FindTile(rows[ri], id);
    var row := ShaveNeighbours(rows[ri][p := rows[ri][p].(span := Max(2, Min(COLUMNS, sp)))], p);
    ghost var q;
    var spilled;
    row, q, spilled := SpillNeighbours(row, p);
    var tail := spilled + rows[ri+1..];
    if tail != [] {
      var next;
      row, next := PullNext(row, tail[0]);
      tail := [next] + tail[1..];
    }
    FlatAround(rows[..ri], row, tail);
    out := Flat(rows[..ri] + [row] + tail);
    if tail == [] {
      assert Flat(tail) == [];
    }
  }
}
