// What a removal leaves of the board, tile by tile.
module Removals {
  import opened Common
  import opened Tiles
  import opened Packing
  import opened Normalise
  import opened Insert
  import opened Landing
  import opened Resize
  import opened ResizeSticks
  import opened Editor
  import opened Drops

  lemma {:induction false} WithoutNobody(list: seq<Tile>, id: Widget)
    requires forall k :: 0 <= k < |list| ==> list[k].id != id
    ensures Without(list, id) == list
  {
    if list != [] {
      WithoutNobody(list[1..], id);
    }
  }

  lemma {:induction false} WithoutOne(list: seq<Tile>, at: nat, id: Widget)
    requires at < |list| && list[at].id == id
    requires forall k :: 0 <= k < |list| && k != at ==> list[k].id != id
    ensures Without(list, id) == RemoveAt(list, at)
  {
    if at == 0 {
      WithoutNobody(list[1..], id);
    } else {
      WithoutOne(list[1..], at - 1, id);
      assert [list[0]] + RemoveAt(list[1..], at - 1) == RemoveAt(list, at);
    }
  }

  /** Removing takes out the widget's own tile and hands on the others as they are. */
  lemma {:induction false} WithoutIsRemoveAt(list: seq<Tile>, id: Widget)
    requires Distinct(Ids(list)) && id in Ids(list)
    ensures 0 <= FindTile(list, id) < |list| && Without(list, id) == RemoveAt(list, FindTile(list, id))
  {
    FindTileIff(list, id);
    var at := FindTile(list, id);
    forall k | 0 <= k < |list| && k != at
      ensures list[k].id != id
    {
      assert Ids(list)[k] != Ids(list)[at];
    }
    WithoutOne(list, at, id);
  }

  /**
   * A removal leaves alone the rows above the widget's; the tiles that stay are
   * packed anew as they are, and only the gaps this leaves are closed.
   */
  lemma {:induction false} RemoveIsExact(b: Board, id: Widget)
    requires Sound(b) && id in Ids(Shown(b)) && |Shown(b)| > 1
    ensures var list := Shown(b); var at := FindTile(list, id); var rows := PackFrom([], list);
      var after := PackFrom([], Shown(Step(b, Remove(id))));
      && 0 <= at < |list| && rows != []
      && AllClosed(PackFrom([], RemoveAt(list, at)), after) && rows[..Locate(rows, at).0] <= after
  {
    ShownIsGood(b);
    RemoveShows(b, id);
    RestCloses(Shown(b), FindTile(Shown(b), id));
  }

  lemma {:induction false} RemoveShows(b: Board, id: Widget)
    requires Sound(b) && id in Ids(Shown(b)) && |Shown(b)| > 1
    ensures 0 <= FindTile(Shown(b), id) < |Shown(b)|
    ensures Shown(Step(b, Remove(id))) == Normalised(RemoveAt(Shown(b), FindTile(Shown(b), id)))
  {
    ShownIsGood(b);
    WithoutIsRemoveAt(Shown(b), id);
    SavedShows(Without(Shown(b), id));
  }

  lemma {:induction false} RestCloses(list: seq<Tile>, at: nat)
    requires Banded(list) && at < |list|
    ensures var board := PackFrom([], Normalised(RemoveAt(list, at))); var rows := PackFrom([], list);
      rows != [] && AllClosed(PackFrom([], RemoveAt(list, at)), board) && rows[..Locate(rows, at).0] <= board
  {
    RestIsAdmitted(list, at);
    BandedRows(list);
    NormalisedCloses(RemoveAt(list, at));
    RestFrontStays(list, at);
  }

  lemma {:induction false} RestFrontStays(list: seq<Tile>, at: nat)
    requires Banded(list) && at < |list|
    ensures Rows(list) != []
    ensures Rows(list)[..Locate(Rows(list), at).0] <= PackFrom([], Normalised(RemoveAt(list, at)))
  {
    BandedRows(list);
    RowsAreNotEmpty(list);
    var rows := Rows(list);
    var r := Locate(rows, at).0;
    LocateIsIndex(rows, at);
    FrontIsPrefix(rows, r);
    CutFront(Flat(rows[..r]), list, at);
    FullFrontStays(rows[..r], RemoveAt(list, at)[|Flat(rows[..r])|..]);
  }
}
