// The preset arrangements a board starts from.
module Presets {
  import opened Common
  import opened Tiles
  import opened Packing
  import opened Normalise
  import opened Insert

  /** A layout key; Custom is the user's own, Unknown any other stored name. */
  datatype Layout =
    | Overview | Trading | ChartSpot | Positions | Discovery | Monitoring | PreIpo | Compact
    | Custom | Unknown(name: string)

  predicate Listed(l: Layout) {
    !l.Custom? && !l.Unknown?
  }

  /** The entries of a layout; a key that is not listed means the default, Overview. */
  function Preset(l: Layout): seq<Tile> {
    match l
    case Trading => [
      Tile(Chart, 8, 5), Tile(Summary, 4, 5),
      Tile(Pulse, 4, 4), Tile(Active, 4, 4), Tile(Index, 4, 4),
      Tile(Gainers, 4, 3), Tile(Losers, 4, 3), Tile(Sectors, 4, 3),
      Tile(Table, 12, 9)]
    case ChartSpot => [
      Tile(Chart, 12, 6),
      Tile(Portfolio, 4, 4), Tile(Pulse, 4, 4), Tile(Radar, 4, 4),
      Tile(Table, 12, 9)]
    case Positions => [
      Tile(Portfolio, 5, 5), Tile(Chart, 7, 5),
      Tile(RetSince, 4, 4), Tile(Summary, 4, 4), Tile(Pulse, 4, 4),
      Tile(Radar, 6, 4), Tile(Pipeline, 6, 4),
      Tile(Table, 12, 9)]
    case Discovery => [
      Tile(Pulse, 4, 4), Tile(Active, 4, 4), Tile(Social, 4, 4),
      Tile(Gainers, 4, 3), Tile(Losers, 4, 3), Tile(Sectors, 4, 3),
      Tile(Radar, 4, 4), Tile(Pipeline, 4, 4), Tile(Index, 4, 4),
      Tile(Table, 12, 9)]
    case Monitoring => [
      Tile(Pulse, 4, 4), Tile(Index, 8, 4),
      Tile(Sectors, 4, 4), Tile(Radar, 4, 4), Tile(Active, 4, 4),
      Tile(Weight, 6, 4), Tile(VolShare, 6, 4),
      Tile(Table, 12, 9)]
    case PreIpo => [
      Tile(Pipeline, 8, 4), Tile(Portfolio, 4, 4),
      Tile(Pulse, 4, 4), Tile(Social, 4, 4), Tile(Active, 4, 4),
      Tile(Table, 12, 9)]
    case Compact => [
      Tile(Pulse, 4, 5), Tile(Chart, 8, 5),
      Tile(Table, 12, 9)]
    case _ => [
      Tile(Chart, 6, 5), Tile(Pulse, 3, 5), Tile(Portfolio, 3, 5),
      Tile(Weight, 3, 4), Tile(Radar, 3, 4), Tile(Social, 6, 4),
      Tile(Pipeline, 3, 4), Tile(Index, 6, 4), Tile(Hist, 3, 4),
      Tile(Table, 12, 9)]
  }

  /** What the editor promises of a board: no holes, bands of one height, spans 3..12, no widget twice. */
  ghost predicate Good(list: seq<Tile>) {
    Banded(list) && Distinct(Ids(list))
  }

  // ---------- the presets are good boards ----------

  /** A good board together with the list of its widgets. */
  ghost predicate Shows(list: seq<Tile>, ids: seq<Widget>) {
    && Spans(list, MIN_SPAN)
    && (forall r :: 0 <= r < |PackFrom([], list)| ==> FullRow(PackFrom([], list)[r]))
    && Ids(list) == ids && NoRepeat(ids)
  }

  ghost predicate NoRepeat(ids: seq<Widget>) {
    ids == [] || (ids[0] !in ids[1..] && NoRepeat(ids[1..]))
  }

  lemma {:induction false} NoRepeatIsDistinct(ids: seq<Widget>)
    requires NoRepeat(ids)
    ensures Distinct(ids)
  {
    if ids != [] {
      NoRepeatIsDistinct(ids[1..]);
      forall i, j | 0 <= i < j < |ids|
        ensures ids[i] != ids[j]
      {
        assert ids[j] == ids[1..][j-1];
        if i > 0 {
          assert ids[i] == ids[1..][i-1];
        }
      }
    }
  }

  lemma {:induction false} ShownIsGoodBoard(list: seq<Tile>, ids: seq<Widget>, preset: seq<Tile>)
    requires Shows(list, ids) && list == preset
    ensures Good(preset)
  {
    NoRepeatIsDistinct(ids);
  }

  lemma {:induction false} EmptyShows()
    ensures Shows([], [])
  {
    assert Ids([]) == [];
  }

  /** Put one more full band in front. */
  lemma {:induction false} AddBand(band: seq<Tile>, rest: seq<Tile>, ids: seq<Widget>)
    requires Shows(rest, ids) && FullRow(band) && Spans(band, MIN_SPAN)
    requires NoRepeat(Ids(band) + ids)
    ensures Shows(band + rest, Ids(band) + ids)
  {
    assert [] + band == band;
    PackOneRow([], band, rest);
    IdsConcat(band, rest);
  }

  lemma {:induction false} Band1(a: Tile)
    requires a.span == COLUMNS && a.height != 0
    ensures FullRow([a]) && Spans([a], MIN_SPAN) && Ids([a]) == [a.id]
  {
    assert [a][1..] == [];
  }

  lemma {:induction false} Band2(a: Tile, b: Tile)
    requires a.span + b.span == COLUMNS && a.span >= MIN_SPAN && b.span >= MIN_SPAN
    requires a.height == b.height != 0
    ensures FullRow([a, b]) && Spans([a, b], MIN_SPAN) && Ids([a, b]) == [a.id, b.id]
  {
    assert [a, b][1..] == [b] && [b][1..] == [];
    assert Width([b]) == b.span;
    assert Ids([a, b]) == [a.id, b.id];
  }

  lemma {:induction false} Band2Width(a: Tile, b: Tile)
    ensures Width([a, b]) == a.span + b.span
  {
    assert [a, b][1..] == [b] && [b][1..] == [];
    assert Width([b]) == b.span;
  }

  lemma {:induction false} Band3(a: Tile, b: Tile, c: Tile)
    requires a.span + b.span + c.span == COLUMNS
    requires a.span >= MIN_SPAN && b.span >= MIN_SPAN && c.span >= MIN_SPAN
    requires a.height == b.height == c.height != 0
    ensures FullRow([a, b, c]) && Spans([a, b, c], MIN_SPAN) && Ids([a, b, c]) == [a.id, b.id, c.id]
  {
    assert [a, b, c][1..] == [b, c] && [b, c][1..] == [c] && [c][1..] == [];
    Band2Width(b, c);
    assert Ids([a, b, c]) == [a.id, b.id, c.id];
  }

  lemma {:induction false} Push1(a: Tile, rest: seq<Tile>, ids: seq<Widget>)
    returns (list: seq<Tile>, shown: seq<Widget>)
    requires Shows(rest, ids)
    requires a.span == COLUMNS && a.height != 0 && a.id !in ids
    ensures Shows(list, shown) && list == [a] + rest && shown == [a.id] + ids
  {
    Band1(a);
    assert ([a.id] + ids)[1..] == ids;
    list, shown := [a] + rest, [a.id] + ids;
    AddBand([a], rest, ids);
  }

  lemma {:induction false} Push2(a: Tile, b: Tile, rest: seq<Tile>, ids: seq<Widget>)
    returns (list: seq<Tile>, shown: seq<Widget>)
    requires Shows(rest, ids)
    requires a.span + b.span == COLUMNS && a.span >= MIN_SPAN && b.span >= MIN_SPAN
    requires a.height == b.height != 0
    requires a.id !in ids && b.id !in ids && a.id != b.id
    ensures Shows(list, shown) && list == [a, b] + rest && shown == [a.id, b.id] + ids
  {
    Band2(a, b);
    var all := [a.id, b.id] + ids;
    assert all[1..] == [b.id] + ids && all[1..][1..] == ids;
    assert NoRepeat(all[1..]);
    list, shown := [a, b] + rest, [a.id, b.id] + ids;
    AddBand([a, b], rest, ids);
  }

  lemma {:induction false} Push3(a: Tile, b: Tile, c: Tile, rest: seq<Tile>, ids: seq<Widget>)
    returns (list: seq<Tile>, shown: seq<Widget>)
    requires Shows(rest, ids)
    requires a.span + b.span + c.span == COLUMNS
    requires a.span >= MIN_SPAN && b.span >= MIN_SPAN && c.span >= MIN_SPAN
    requires a.height == b.height == c.height != 0
    requires a.id !in ids && b.id !in ids && c.id !in ids && a.id != b.id && a.id != c.id && b.id != c.id
    ensures Shows(list, shown) && list == [a, b, c] + rest && shown == [a.id, b.id, c.id] + ids
  {
    Band3(a, b, c);
    var all := [a.id, b.id, c.id] + ids;
    assert all[1..] == [b.id, c.id] + ids && all[1..][1..] == [c.id] + ids && all[1..][1..][1..] == ids;
    assert NoRepeat(all[1..][1..]);
    assert NoRepeat(all[1..]);
    list, shown := [a, b, c] + rest, [a.id, b.id, c.id] + ids;
    AddBand([a, b, c], rest, ids);
  }

  const TABLE := Tile(Table, 12, 9)

  /** A band of three over the table, as most presets end. */
  lemma {:induction false} Foot3(a: Tile, b: Tile, c: Tile)
    returns (list: seq<Tile>, shown: seq<Widget>)
    requires a.span + b.span + c.span == COLUMNS
    requires a.span >= MIN_SPAN && b.span >= MIN_SPAN && c.span >= MIN_SPAN
    requires a.height == b.height == c.height != 0
    requires Table != a.id && Table != b.id && Table != c.id && a.id != b.id && a.id != c.id && b.id != c.id
    ensures Shows(list, shown) && list == [a, b, c, TABLE] && shown == [a.id, b.id, c.id, Table]
  {
    EmptyShows();
    list, shown := Push1(TABLE, [], []);
    list, shown := Push3(a, b, c, list, shown);
  }

  lemma {:induction false} Foot2(a: Tile, b: Tile)
    returns (list: seq<Tile>, shown: seq<Widget>)
    requires a.span + b.span == COLUMNS && a.span >= MIN_SPAN && b.span >= MIN_SPAN
    requires a.height == b.height != 0
    requires Table != a.id && Table != b.id && a.id != b.id
    ensures Shows(list, shown) && list == [a, b, TABLE] && shown == [a.id, b.id, Table]
  {
    EmptyShows();
    list, shown := Push1(TABLE, [], []);
    list, shown := Push2(a, b, list, shown);
  }

  lemma {:induction false} TradingIsGood()
    ensures Good(Preset(Trading))
  {
    var list, ids := Foot3(Tile(Gainers, 4, 3), Tile(Losers, 4, 3), Tile(Sectors, 4, 3));
    list, ids := Push3(Tile(Pulse, 4, 4), Tile(Active, 4, 4), Tile(Index, 4, 4), list, ids);
    list, ids := Push2(Tile(Chart, 8, 5), Tile(Summary, 4, 5), list, ids);
    ShownIsGoodBoard(list, ids, Preset(Trading));
  }

  lemma {:induction false} ChartSpotIsGood()
    ensures Good(Preset(ChartSpot))
  {
    var list, ids := Foot3(Tile(Portfolio, 4, 4), Tile(Pulse, 4, 4), Tile(Radar, 4, 4));
    var all, names := Push1(Tile(Chart, 12, 6), list, ids);
    assert all == Preset(ChartSpot);
    ShownIsGoodBoard(all, names, all);
  }

  lemma {:induction false} PositionsIsGood()
    ensures Good(Preset(Positions))
  {
    var list, ids := Foot2(Tile(Radar, 6, 4), Tile(Pipeline, 6, 4));
    list, ids := Push3(Tile(RetSince, 4, 4), Tile(Summary, 4, 4), Tile(Pulse, 4, 4), list, ids);
    list, ids := Push2(Tile(Portfolio, 5, 5), Tile(Chart, 7, 5), list, ids);
    ShownIsGoodBoard(list, ids, Preset(Positions));
  }

  lemma {:induction false} DiscoveryIsGood()
    ensures Good(Preset(Discovery))
  {
    var list, ids := Foot3(Tile(Radar, 4, 4), Tile(Pipeline, 4, 4), Tile(Index, 4, 4));
    list, ids := Push3(Tile(Gainers, 4, 3), Tile(Losers, 4, 3), Tile(Sectors, 4, 3), list, ids);
    list, ids := Push3(Tile(Pulse, 4, 4), Tile(Active, 4, 4), Tile(Social, 4, 4), list, ids);
    ShownIsGoodBoard(list, ids, Preset(Discovery));
  }

  lemma {:induction false} MonitoringIsGood()
    ensures Good(Preset(Monitoring))
  {
    var list, ids := Foot2(Tile(Weight, 6, 4), Tile(VolShare, 6, 4));
    list, ids := Push3(Tile(Sectors, 4, 4), Tile(Radar, 4, 4), Tile(Active, 4, 4), list, ids);
    list, ids := Push2(Tile(Pulse, 4, 4), Tile(Index, 8, 4), list, ids);
    ShownIsGoodBoard(list, ids, Preset(Monitoring));
  }

  lemma {:induction false} PreIpoIsGood()
    ensures Good(Preset(PreIpo))
  {
    var list, ids := Foot3(Tile(Pulse, 4, 4), Tile(Social, 4, 4), Tile(Active, 4, 4));
    list, ids := Push2(Tile(Pipeline, 8, 4), Tile(Portfolio, 4, 4), list, ids);
    ShownIsGoodBoard(list, ids, Preset(PreIpo));
  }

  lemma {:induction false} CompactIsGood()
    ensures Good(Preset(Compact))
  {
    var list, ids := Foot2(Tile(Pulse, 4, 5), Tile(Chart, 8, 5));
    ShownIsGoodBoard(list, ids, Preset(Compact));
  }

  lemma {:induction false} OverviewIsGood()
    ensures Good(Preset(Overview))
  {
    var list, ids := Foot3(Tile(Pipeline, 3, 4), Tile(Index, 6, 4), Tile(Hist, 3, 4));
    list, ids := Push3(Tile(Weight, 3, 4), Tile(Radar, 3, 4), Tile(Social, 6, 4), list, ids);
    list, ids := Push3(Tile(Chart, 6, 5), Tile(Pulse, 3, 5), Tile(Portfolio, 3, 5), list, ids);
    ShownIsGoodBoard(list, ids, Preset(Overview));
  }

  /** Every preset tiles and shows no widget twice. */
  lemma {:induction false} PresetsAreGood(l: Layout)
    ensures Good(Preset(l)) && Preset(l) != []
  {
    match l
    case Trading => TradingIsGood();
    case ChartSpot => ChartSpotIsGood();
    case Positions => PositionsIsGood();
    case Discovery => DiscoveryIsGood();
    case Monitoring => MonitoringIsGood();
    case PreIpo => PreIpoIsGood();
    case Compact => CompactIsGood();
    case _ => OverviewIsGood();
  }
}
