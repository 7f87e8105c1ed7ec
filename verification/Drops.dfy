// What a drop does on the boards the editor can reach: where the widget lands,
// and which rows change.
module Drops {
  import opened Common
  import opened Tiles
  import opened Packing
  import opened Normalise
  import opened Insert
  import opened Landing
  import opened Resize
  import opened ResizeFacts
  import opened ResizeSticks
  import opened Presets
  import opened Editor

  lemma {:induction false} OthersSkip(a: seq<Widget>, id: Widget, b: seq<Widget>)
    requires id !in a && id !in b
    ensures Others(a + [id] + b, id) == a + b
  {
    assert Others(a + [id], id) == a by {
      OthersConcat(a, [id], id);
      OthersKeep(a, id);
      OthersOfOne(id);
    }
    OthersConcat(a + [id], b, id);
    OthersKeep(b, id);
  }

  lemma {:induction false} OthersOfOne(id: Widget)
    ensures Others([id], id) == []
  {
    assert [id][1..] == [];
  }

  lemma {:induction false} InsertBetween(a: seq<Widget>, c: seq<Widget>, id: Widget)
    ensures InsertAt(a + c, |a|, id) == a + [id] + c
  {
    assert (a + c)[..|a|] == a && (a + c)[|a|..] == c;
  }

  /** A widget between a and m, moved behind m. */
  lemma {:induction false} MoveBack(a: seq<Widget>, id: Widget, m: seq<Widget>, c: seq<Widget>)
    requires id !in a && id !in m && id !in c
    ensures InsertAt(a + m + c, |a| + |m|, id) == Others(a + [id] + m, id) + [id] + Others(c, id)
  {
    OthersSkip(a, id, m);
    OthersKeep(c, id);
    InsertBetween(a + m, c, id);
  }

  /** A widget between m and c, moved in front of m. */
  lemma {:induction false} MoveFront(a: seq<Widget>, m: seq<Widget>, id: Widget, c: seq<Widget>)
    requires id !in a && id !in m && id !in c
    ensures InsertAt(a + (m + c), |a|, id) == Others(a, id) + [id] + Others(m + [id] + c, id)
  {
    OthersSkip(m, id, c);
    OthersKeep(a, id);
    InsertBetween(a, m + c, id);
  }

  lemma {:induction false} DistinctAround(ids: seq<Widget>, at: nat)
    requires Distinct(ids) && at < |ids|
    ensures ids[at] !in ids[..at] && ids[at] !in ids[at+1..]
  {
  }

  /**
   * Inserting at the adjusted place of the board without the widget is inserting
   * between what stood on either side of i.
   */
  lemma {:induction false} PlaceOfNew(list: seq<Tile>, id: Widget, i: nat)
    requires FindTile(list, id) < 0 && i <= |list|
    ensures DropRest(list, id) == list && DropPlace(list, id, i) == i
  {
  }

  lemma {:induction false} PlaceOfMoved(list: seq<Tile>, id: Widget, i: nat)
    requires FindTile(list, id) >= 0 && i <= |list|
    ensures var at := FindTile(list, id);
      DropRest(list, id) == RemoveAt(list, at) && DropPlace(list, id, i) == if at < i then i - 1 else i
  {
  }

  lemma {:induction false} PlaceMeansGap(list: seq<Tile>, id: Widget, i: nat)
    requires Distinct(Ids(list)) && i <= |list|
    ensures DropPlace(list, id, i) <= |DropRest(list, id)|
    ensures InsertAt(Ids(DropRest(list, id)), DropPlace(list, id, i), id)
         == Others(Ids(list)[..i], id) + [id] + Others(Ids(list)[i..], id)
  {
    FindTileIff(list, id);
    if FindTile(list, id) < 0 {
      PlaceOfNew(list, id, i);
      GapOfNew(Ids(list), id, i);
    } else {
      PlaceOfMoved(list, id, i);
      IdsRemoved(list, FindTile(list, id));
      GapOfMove(Ids(list), FindTile(list, id), i);
    }
  }

  lemma {:induction false} GapOfNew(ids: seq<Widget>, id: Widget, i: nat)
    requires id !in ids && i <= |ids|
    ensures InsertAt(ids, i, id) == Others(ids[..i], id) + [id] + Others(ids[i..], id)
  {
    OthersKeep(ids[..i], id);
    OthersKeep(ids[i..], id);
  }

  lemma {:induction false} IdsRemoved(list: seq<Tile>, at: nat)
    requires at < |list|
    ensures Ids(RemoveAt(list, at)) == Ids(list)[..at] + Ids(list)[at+1..]
  {
  }

  lemma {:induction false} GapOfMove(ids: seq<Widget>, at: nat, i: nat)
    requires Distinct(ids) && at < |ids| && i <= |ids|
    ensures InsertAt(ids[..at] + ids[at+1..], if at < i then i - 1 else i, ids[at])
         == Others(ids[..i], ids[at]) + [ids[at]] + Others(ids[i..], ids[at])
  {
    DistinctAround(ids, at);
    if at < i {
      CutBehind(ids, at, i);
      MoveBack(ids[..at], ids[at], ids[at+1..i], ids[i..]);
    } else {
      CutBefore(ids, at, i);
      MoveFront(ids[..i], ids[i..at], ids[at], ids[at+1..]);
    }
  }

  lemma {:induction false} CutBehind<T>(s: seq<T>, at: nat, i: nat)
    requires at < i <= |s|
    ensures s[..i] == s[..at] + [s[at]] + s[at+1..i]
    ensures s[..at] + s[at+1..] == s[..at] + s[at+1..i] + s[i..]
  {
    assert s[at+1..] == s[at+1..i] + s[i..];
    Assoc(s[..at], s[at+1..i], s[i..]);
  }

  lemma {:induction false} CutBefore<T>(s: seq<T>, at: nat, i: nat)
    requires i <= at < |s|
    ensures s[i..] == s[i..at] + [s[at]] + s[at+1..]
    ensures s[..at] + s[at+1..] == s[..i] + (s[i..at] + s[at+1..])
  {
    assert s[..at] == s[..i] + s[i..at];
    Assoc(s[..i], s[i..at], s[at+1..]);
  }

  /** A drop never has slack to close: a moved widget fills its own gap at least, a new one meets full rows. */
  lemma {:induction false} DropsAreSnug(list: seq<Tile>, id: Widget, i: nat)
    requires Good(list) && DropRest(list, id) != []
    ensures Snug(DropRest(list, id), DropTile(list, id), i)
  {
    var rest := DropRest(list, id);
    RowsAreNotEmpty(rest);
    var r := Locate(Rows(rest), i).0;
    if FindTile(list, id) >= 0 {
      GapsAreNoWider(list, FindTile(list, id), r);
    } else {
      BandedRows(list);
    }
  }

  /** The place a drop at index i falls on, in the rows of the board without the widget, is behind a row of four. */
  predicate BehindFour(list: seq<Tile>, id: Widget, i: int) {
    var rest := DropRest(list, id);
    rest != [] &&
      (RowsAreNotEmpty(rest);
       var at := Locate(Rows(rest), DropPlace(list, id, i));
       |Rows(rest)[at.0]| == 4 && at.1 == 4)
  }

  lemma {:induction false} RestSpans(list: seq<Tile>, id: Widget)
    requires Spans(list, MIN_SPAN)
    ensures Spans(DropRest(list, id), MIN_SPAN) && MIN_SPAN <= DropTile(list, id).span <= COLUMNS
    ensures DropTile(list, id).id == id
  {
    if FindTile(list, id) >= 0 {
      RemoveAtSpans(list, FindTile(list, id));
    }
  }

  lemma {:induction false} DropOrder(list: seq<Tile>, id: Widget, i: nat)
    requires Good(list) && DropRest(list, id) != []
    ensures Rows(DropRest(list, id)) != []
    ensures var k := LandsAt(Rows(DropRest(list, id)), DropPlace(list, id, i));
      && 0 <= k <= |DropRest(list, id)|
      && Ids(DropList(list, id, i)) == InsertAt(Ids(DropRest(list, id)), k, id)
  {
    RestSpans(list, id);
    DropsAreSnug(list, id, DropPlace(list, id, i));
    InsertLandsAt(DropRest(list, id), DropTile(list, id), DropPlace(list, id, i));
  }

  lemma {:induction false} Place(list: seq<Tile>, id: Widget, i: nat)
    requires DropRest(list, id) != []
    ensures Rows(DropRest(list, id)) != []
    ensures LandsAt(Rows(DropRest(list, id)), DropPlace(list, id, i))
         == if BehindFour(list, id, i) then DropPlace(list, id, i) - 1 else DropPlace(list, id, i)
  {
    RowsAreNotEmpty(DropRest(list, id));
  }

  lemma {:induction false} DropShows(b: Board, id: Widget, i: nat)
    requires Sound(b)
    ensures Ids(Shown(Step(b, Drop(id, i)))) == Ids(DropList(Shown(b), id, i))
  {
    ShownIsGood(b);
    DropWidgets(Shown(b), id, i);
    CountIsSize(Shown(b));
    CountIsSize(DropList(Shown(b), id, i));
    SavedShows(DropList(Shown(b), id, i));
  }

  lemma {:induction false} OrderInFront(list: seq<Tile>, id: Widget, i: nat)
    requires Good(list) && i <= |list| && !BehindFour(list, id, i)
    ensures Ids(DropList(list, id, i)) == Others(Ids(list)[..i], id) + [id] + Others(Ids(list)[i..], id)
  {
    PlaceMeansGap(list, id, i);
    if DropRest(list, id) == [] {
      RestSpans(list, id);
      OnlyOne(DropTile(list, id));
      assert Ids([]) == [];
    } else {
      DropOrder(list, id, i);
      Place(list, id, i);
    }
  }

  lemma {:induction false} OnlyOne(t: Tile)
    ensures Ids(Inserted([], t, 0)) == InsertAt([], 0, t.id)
  {
    RowsAreNotEmpty([]);
    assert Ids([t]) == [t.id];
  }

  lemma {:induction false} OrderBehind(list: seq<Tile>, id: Widget, i: nat)
    requires Good(list) && BehindFour(list, id, i)
    ensures var rest := Others(Ids(list), id);
      |rest| > 0 && Ids(DropList(list, id, i)) == InsertAt(rest, |rest| - 1, id)
  {
    RestOrder(list, id);
    BehindIsEnd(list, id, i);
    Place(list, id, i);
    assert |Ids(DropRest(list, id))| == |DropRest(list, id)| > 0;
    DropOrder(list, id, i);
  }

  /**
   * On any reachable board a drop, moved or new, lands between exactly the
   * widgets that stood before and after the place it was dropped at, and all
   * others keep their order; only behind a row of four it ends one place earlier.
   */
  lemma {:induction false} DropLands(b: Board, id: Widget, i: nat)
    requires Sound(b) && i <= |Shown(b)|
    ensures var list := Shown(b); var ids := Ids(Shown(Step(b, Drop(id, i))));
      if BehindFour(list, id, i) then
        var rest := Others(Ids(list), id);
        |rest| > 0 && ids == InsertAt(rest, |rest| - 1, id)
      else ids == Others(Ids(list)[..i], id) + [id] + Others(Ids(list)[i..], id)
  {
    ShownIsGood(b);
    DropShows(b, id, i);
    if BehindFour(Shown(b), id, i) {
      OrderBehind(Shown(b), id, i);
    } else {
      OrderInFront(Shown(b), id, i);
    }
  }

  lemma {:induction false} RestOrder(list: seq<Tile>, id: Widget)
    requires Distinct(Ids(list))
    ensures Ids(DropRest(list, id)) == Others(Ids(list), id)
  {
    FindTileIff(list, id);
    var at, ids := FindTile(list, id), Ids(list);
    if at < 0 {
      OthersKeep(ids, id);
    } else {
      IdsRemoved(list, at);
      DistinctAround(ids, at);
      OthersSkip(ids[..at], id, ids[at+1..]);
      assert ids == ids[..at] + [id] + ids[at+1..];
    }
  }

  /** Only the end of the board lies behind a row. */
  lemma {:induction false} BehindIsEnd(list: seq<Tile>, id: Widget, i: int)
    requires BehindFour(list, id, i)
    ensures DropPlace(list, id, i) == |DropRest(list, id)|
  {
    var rest := DropRest(list, id);
    RowsAreNotEmpty(rest);
    RowsKeepIds(rest);
    assert |Ids(Flat(Rows(rest)))| == |Flat(Rows(rest))| && |Ids(rest)| == |rest|;
    if DropPlace(list, id, i) < |rest| {
      LocateInside(Rows(rest), DropPlace(list, id, i));
    }
  }

  /** The palette's tile for a widget. */
  function Fresh(id: Widget): Tile { Tile(id, PaletteSpan(id), DefaultHeight(id)) }

  lemma {:induction false} AddIsInsert(list: seq<Tile>, id: Widget, i: nat)
    requires id !in Ids(list) && i <= |list|
    ensures DropList(list, id, i) == Inserted(list, Fresh(id), i)
  {
    FindTileIff(list, id);
  }

  lemma {:induction false} InsertedNotEmpty(list: seq<Tile>, item: Tile, i: int)
    ensures Inserted(list, item, i) != []
  {
    InsertKeepsWidgets(list, item, i);
    CountIsSize(list);
    CountIsSize(Inserted(list, item, i));
  }

  lemma {:induction false} AddShows(b: Board, id: Widget, i: nat)
    requires Sound(b) && id !in Ids(Shown(b)) && i <= |Shown(b)|
    ensures Shown(Step(b, Drop(id, i))) == Normalised(Inserted(Shown(b), Fresh(id), i))
  {
    AddIsInsert(Shown(b), id, i);
    InsertedNotEmpty(Shown(b), Fresh(id), i);
    SavedShows(DropList(Shown(b), id, i));
  }

  lemma {:induction false} AddedRow(list: seq<Tile>, item: Tile, i: nat)
    requires Banded(list) && list != [] && MIN_SPAN <= item.span <= COLUMNS && item.height != 0
    requires Rows(list) != [] && 1 <= |Rows(list)[Locate(Rows(list), i).0]| <= 3
    ensures var rows := Rows(list); var at := Locate(rows, i); var row := InsertFit(rows, item, i).0;
      && Ids(row) == InsertAt(Ids(rows[at.0]), at.1, item.id) && Width(row) == COLUMNS
      && PackFrom([], Normalised(Inserted(list, item, i))) == rows[at.0 := WithHeight(row, MaxHeight(row))]
  {
    var rows := Rows(list);
    var at := Locate(rows, i);
    InsertIsLocal(list, item, i);
    IdsOfSame(InsertFit(rows, item, i).0, InsertAt(rows[at.0], at.1, item));
    IdsOfInsert(rows[at.0], at.1, item);
  }

  /**
   * Adding a widget to a row of at most three: it stands at the place asked for,
   * the row is full and of one height, and no other row changes.
   */
  lemma {:induction false} AddIsLocal(b: Board, id: Widget, i: nat)
    requires Sound(b) && id !in Ids(Shown(b)) && i <= |Shown(b)|
    requires var rows := PackFrom([], Shown(b)); rows == [] || |rows[Locate(rows, i).0]| <= 3
    ensures var rows := PackFrom([], Shown(b));
      && rows != []
      && var at := Locate(rows, i);
      && rows[at.0] != []
      && var row := InsertFit(rows, Fresh(id), i).0;
      && Ids(row) == InsertAt(Ids(rows[at.0]), at.1, id) && Width(row) == COLUMNS
      && PackFrom([], Shown(Step(b, Drop(id, i)))) == rows[at.0 := WithHeight(row, MaxHeight(row))]
  {
    ShownIsGood(b);
    BandedRows(Shown(b));
    RowsAreNotEmpty(Shown(b));
    AddedRow(Shown(b), Fresh(id), i);
    AddShows(b, id, i);
  }

  // ---------- which rows a move leaves alone ----------

  lemma {:induction false} CutFront<T>(front: seq<T>, list: seq<T>, at: nat)
    requires front <= list && |front| <= at < |list|
    ensures RemoveAt(list, at) == front + RemoveAt(list, at)[|front|..]
  {
    assert RemoveAt(list, at)[..|front|] == list[..|front|] == front;
  }

  /** A list that starts with some of the full rows is packed into them first. */
  lemma {:induction false} PackedFront(full: seq<seq<Tile>>, rest: seq<Tile>)
    requires forall r :: 0 <= r < |full| ==> Width(full[r]) == COLUMNS && Spans(full[r], MIN_SPAN)
    requires Flat(full) <= rest && Spans(rest, 1)
    ensures full <= PackFrom([], rest)
  {
    var tail := rest[|Flat(full)|..];
    assert rest == Flat(full) + tail;
    FullRowsStay(full, tail);
  }

  lemma {:induction false} FrontIsPrefix(rows: seq<seq<Tile>>, r: nat)
    requires r < |rows|
    ensures Flat(rows[..r]) <= Flat(rows)
  {
    SplitAtRow(rows, r);
  }

  /** Taking a tile out leaves the rows above its own. */
  lemma {:induction false} RestKeepsRowsAbove(list: seq<Tile>, at: nat)
    requires Banded(list) && at < |list|
    ensures Rows(list) != [] && Rows(list)[..Locate(Rows(list), at).0] <= Rows(RemoveAt(list, at))
  {
    BandedRows(list);
    RowsAreNotEmpty(list);
    var rows := Rows(list);
    var r := Locate(rows, at).0;
    LocateIsIndex(rows, at);
    FrontIsPrefix(rows, r);
    CutFront(Flat(rows[..r]), list, at);
    RestIsAdmitted(list, at);
    PackedFront(rows[..r], RemoveAt(list, at));
  }

  /** An insert rewrites a board from the row it hits on. */
  lemma {:induction false} InsertKeepsFront(rows: seq<seq<Tile>>, item: Tile, i: int, m: nat) returns (more: seq<Tile>)
    requires rows != [] && rows[Locate(rows, i).0] != [] && m <= Locate(rows, i).0
    ensures InsertRows(rows, item, i) == Flat(rows[..m]) + more
  {
    var r := Locate(rows, i).0;
    var fit := InsertFit(rows, item, i);
    assert rows[..r] == rows[..m] + rows[m..r];
    FlatConcat(rows[..m], rows[m..r]);
    more := Flat(rows[m..r]) + fit.0 + fit.1 + Flat(rows[r+1..]);
    Regrouped(Flat(rows[..m]), Flat(rows[m..r]), fit.0, fit.1, Flat(rows[r+1..]));
  }

  lemma {:induction false} Regrouped<T>(a: seq<T>, b: seq<T>, c: seq<T>, d: seq<T>, e: seq<T>)
    ensures a + b + c + d + e == a + (b + c + d + e)
  {
    Assoc(a, b, c);
    Assoc(a, b + c, d);
    Assoc(a, b + c + d, e);
  }

  lemma {:induction false} MovedBehindFront(list: seq<Tile>, at: nat, j: nat, m: nat)
    requires Banded(list) && at < |list| && RemoveAt(list, at) != []
    requires m <= |Rows(list)| && Rows(list)[..m] <= Rows(RemoveAt(list, at))
    requires Rows(RemoveAt(list, at)) != [] && m <= Locate(Rows(RemoveAt(list, at)), j).0
    ensures Rows(list)[..m] <= PackFrom([], Normalised(Inserted(RemoveAt(list, at), list[at], j)))
  {
    var rest := RemoveAt(list, at);
    BandedRows(list);
    RowsAreNotEmpty(rest);
    var more := InsertKeepsFront(Rows(rest), list[at], j, m);
    assert Rows(rest)[..m] == Rows(list)[..m];
    FullFrontStays(Rows(list)[..m], more);
  }

  /**
   * A move leaves alone the rows above both the row the widget comes from and the
   * row, packed without it, that it is dropped on.
   */
  lemma {:induction false} MoveKeepsRowsAbove(b: Board, id: Widget, i: nat)
    requires Sound(b) && id in Ids(Shown(b)) && DropRest(Shown(b), id) != []
    ensures var rows := PackFrom([], Shown(b)); var rest := Rows(DropRest(Shown(b), id));
      && FindTile(Shown(b), id) >= 0 && rows != [] && rest != []
      && var m := Min(Locate(rows, FindTile(Shown(b), id)).0, Locate(rest, DropPlace(Shown(b), id, i)).0);
      rows[..m] <= PackFrom([], Shown(Step(b, Drop(id, i))))
  {
    ShownIsGood(b);
    var list := Shown(b);
    FindTileIff(list, id);
    var at := FindTile(list, id);
    BandedRows(list);
    RestKeepsRowsAbove(list, at);
    RowsAreNotEmpty(DropRest(list, id));
    var rows, rest := Rows(list), Rows(DropRest(list, id));
    var m := Min(Locate(rows, at).0, Locate(rest, DropPlace(list, id, i)).0);
    assert rows[..m] <= rows[..Locate(rows, at).0];
    MovedBehindFront(list, at, DropPlace(list, id, i), m);
    MoveShows(b, id, i);
  }

  lemma {:induction false} MoveShows(b: Board, id: Widget, i: nat)
    requires Sound(b) && FindTile(Shown(b), id) >= 0
    ensures Shown(Step(b, Drop(id, i)))
         == Normalised(Inserted(DropRest(Shown(b), id), DropTile(Shown(b), id), DropPlace(Shown(b), id, i)))
  {
    InsertedNotEmpty(DropRest(Shown(b), id), DropTile(Shown(b), id), DropPlace(Shown(b), id, i));
    SavedShows(DropList(Shown(b), id, i));
  }
}
