// The layout editor: the handlers that drive the board, and what every run of
// them keeps.
module Editor {
  import opened Common
  import opened Tiles
  import opened Packing
  import opened Normalise
  import opened Insert
  import opened Resize
  import opened ResizeFacts
  import opened ResizeSticks
  import opened Presets

  /**
   * The layout state, what local storage holds, and what the page displays; a
   * custom or savedCustom of [] stands for no own layout.
   */
  datatype Board = Board(
    custom: seq<Tile>, layout: Layout, savedCustom: seq<Tile>, savedLayout: Layout, page: seq<Tile>)

  datatype WidthButton = Third | Half | Full
  datatype HeightButton = Short | Mid | Tall

  function Columns(b: WidthButton): int {
    match b
    case Third => 4
    case Half => 6
    case Full => 12
  }

  function GridRows(b: HeightButton): int {
    match b
    case Short => 3
    case Mid => 5
    case Tall => 8
  }

  datatype Op =
    | Drop(id: Widget, i: int)
    | Widen(id: Widget, w: WidthButton)
    | Raise(id: Widget, h: HeightButton)
    | Remove(id: Widget)
    | Pick(key: Layout)
    | PickCustom
    | OpenEditor
    | Render                   // the markets page is drawn anew
    | Reload
    | Reset

  const START := Board([], Overview, [], Overview, Preset(Overview))

  /** The widgets every handler starts from: the own layout, or the preset when there is none. */
  function Shown(b: Board): seq<Tile> {
    if b.custom != [] then b.custom else Preset(b.layout)
  }

  /** The page is given the list just saved, even when that is empty. */
  function Saved(list: seq<Tile>): Board {
    Board(Normalised(list), Custom, Normalised(list), Custom, Normalised(list))
  }

  function Drawn(b: Board): Board { b.(page := Shown(b)) }

  /** The board without the dragged widget. */
  function DropRest(list: seq<Tile>, id: Widget): seq<Tile> {
    var at := FindTile(list, id);
    if at >= 0 then RemoveAt(list, at) else list
  }

  /** The dragged tile: the board's own, or a new one from the palette. */
  function DropTile(list: seq<Tile>, id: Widget): Tile {
    var at := FindTile(list, id);
    if at >= 0 then list[at] else Tile(id, PaletteSpan(id), DefaultHeight(id))
  }

  /** Where it goes: taking it off the board moves later places down by one. */
  function DropPlace(list: seq<Tile>, id: Widget, i: int): nat {
    var at := FindTile(list, id);
    Clip(if 0 <= at < i then i - 1 else i, |DropRest(list, id)|)
  }

  /** The list after a drop at index i: a move if the widget is shown, an addition otherwise. */
  function DropList(list: seq<Tile>, id: Widget, i: int): seq<Tile> {
    Inserted(DropRest(list, id), DropTile(list, id), DropPlace(list, id, i))
  }

  /** The list with the height of the widget's whole band set; None if it is not on the board. */
  function BandRaised(list: seq<Tile>, id: Widget, h: int): (seq<Tile>, bool) {
    var rows := PackFrom([], list);
    var r := FindRow(rows, id);
    if r < 0 then (list, false) else (Flat(rows[r := WithHeight(rows[r], h)]), true)
  }

  function Without(list: seq<Tile>, id: Widget): seq<Tile> {
    if list == [] then []
    else (if list[0].id == id then [] else [list[0]]) + Without(list[1..], id)
  }

  function Step(b: Board, op: Op): Board {
    var list := Shown(b);
    match op
    case Drop(id, i) => Saved(DropList(list, id, i))
    case Widen(id, w) => Saved(SpanSet(list, id, Columns(w)))
    case Raise(id, h) =>
      var raised := BandRaised(list, id, GridRows(h));
      if raised.1 then Saved(raised.0) else b
    case Remove(id) => Saved(Without(list, id))
    case Pick(key) =>
      var l := if Listed(key) then key else Overview;
      Drawn(Board([], l, [], l, []))
    case PickCustom => if b.custom == [] then b else Drawn(b.(layout := Custom, savedLayout := Custom))
    case OpenEditor => Drawn(if b.custom == [] then b.(custom := list) else b)
    case Render => Drawn(b)
    case Reload => Drawn(Board(b.savedCustom, b.savedLayout, b.savedCustom, b.savedLayout, []))
    case Reset => START.(page := b.page)
  }

  function Run(b: Board, ops: seq<Op>): Board
    decreases |ops|
  {
    if ops == [] then b else Run(Step(b, ops[0]), ops[1..])
  }

  /** The drop handler's own part: take the tile off the board or make a new one, and insert it. */
  method Dropped(list0: seq<Tile>, id: Widget, i: int) returns (list: seq<Tile>)
    ensures list == DropList(list0, id, i)
  {
    list := list0;
    var at := FindTile(list, id);
    var item := Tile(id, PaletteSpan(id), DefaultHeight(id));
    if at >= 0 {
      item := list[at];
      list := list[..at] + list[at+1..];
    }
    var idx := if at >= 0 && at < i then i - 1 else i;
    list := InsertBeside(list, item, Max(0, Min(idx, |list|)));
  }

  class LayoutEditor {
    var custom: seq<Tile>
    var layout: Layout
    var savedCustom: seq<Tile>
    var savedLayout: Layout
    var page: seq<Tile>

    function State(): Board
      reads this
    {
      Board(custom, layout, savedCustom, savedLayout, page)
    }

    constructor ()
      ensures State() == START
    {
      custom, layout, savedCustom, savedLayout := [], Overview, [], Overview;
      page := Preset(Overview);
    }

    method CurrentWidgets() returns (list: seq<Tile>)
      ensures list == Shown(State())
    {
      if |custom| > 0 {
        return custom;
      }
      return Preset(layout);
    }

    method SaveCustom(list0: seq<Tile>)
      modifies this
      ensures State() == Saved(list0)
    {
      var list := NormaliseList(list0);
      custom, layout := list, Custom;
      savedCustom, savedLayout := list, Custom;
      page := list;
    }

    method OnDrop(id: Widget, i: int)
      modifies this
      ensures State() == Step(old(State()), Drop(id, i))
    {
      var list := CurrentWidgets();
      list := Dropped(list, id, i);
      SaveCustom(list);
    }

    method OnWidth(id: Widget, w: WidthButton)
      modifies this
      ensures State() == Step(old(State()), Widen(id, w))
    {
      var list := CurrentWidgets();
      list := SetSpan(list, id, Columns(w));
      SaveCustom(list);
    }

    method OnHeight(id: Widget, h: HeightButton)
      modifies this
      ensures State() == Step(old(State()), Raise(id, h))
    {
      var list := CurrentWidgets();
      var rows := PackStored(list);
      var r := FindRow(rows, id);
      if r < 0 {
        return;
      }
      rows := rows[r := WithHeight(rows[r], GridRows(h))];
      SaveCustom(Flat(rows));
    }

    method OnRemove(id: Widget)
      modifies this
      ensures State() == Step(old(State()), Remove(id))
    {
      var list := CurrentWidgets();
      SaveCustom(Without(list, id));
    }

    method ApplyLayout(key: Layout)
      modifies this
      ensures State() == Step(old(State()), Pick(key))
    {
      layout := if Listed(key) then key else Overview;
      custom := [];
      savedLayout, savedCustom := layout, [];
      page := Preset(layout);
    }

    method OnPickCustom()
      modifies this
      ensures State() == Step(old(State()), PickCustom)
    {
      if |custom| > 0 {
        layout, savedLayout := Custom, Custom;
        page := CurrentWidgets();
      }
    }

    method StartEditing()
      modifies this
      ensures State() == Step(old(State()), OpenEditor)
    {
      if |custom| == 0 {
        custom := CurrentWidgets();
      }
      page := CurrentWidgets();
    }

    method OnRender()
      modifies this
      ensures State() == Step(old(State()), Render)
    {
      page := CurrentWidgets();
    }

    method OnReload()
      modifies this
      ensures State() == Step(old(State()), Reload)
    {
      custom, layout := savedCustom, savedLayout;
      page := CurrentWidgets();
    }

    method ClearLocalData()
      modifies this
      ensures State() == Step(old(State()), Reset)
    {
      custom, layout, savedCustom, savedLayout := [], Overview, [], Overview;
    }
  }

  // ---------- every edit keeps a good board ----------

  ghost predicate Sound(b: Board) {
    && (b.custom != [] ==> Good(b.custom))
    && (b.savedCustom != [] ==> Good(b.savedCustom))
    && (b.page != [] ==> Good(b.page))
  }

  lemma {:induction false} ShownIsGood(b: Board)
    requires Sound(b)
    ensures Good(Shown(b)) && Shown(b) != []
  {
    PresetsAreGood(b.layout);
  }

  lemma {:induction false} NormalisedIsGood(list: seq<Tile>)
    requires Spans(list, MIN_SPAN) && Distinct(Ids(list))
    ensures Good(Normalised(list)) && Ids(Normalised(list)) == Ids(list)
  {
    AdmitFacts(list);
    NormaliseTiles(list, MIN_SPAN);
  }

  lemma {:induction false} RemoveAtSpans(list: seq<Tile>, at: nat)
    requires at < |list| && Spans(list, MIN_SPAN)
    ensures Spans(RemoveAt(list, at), MIN_SPAN)
  {
  }

  /** Taking a tile out and inserting it anywhere keeps the widgets. */
  lemma {:induction false} Reinserted(list: seq<Tile>, at: nat, j: int)
    requires Spans(list, MIN_SPAN) && at < |list|
    ensures var out := Inserted(RemoveAt(list, at), list[at], j);
      Spans(out, MIN_SPAN) && multiset(Ids(out)) == multiset(Ids(list))
  {
    RemoveAtSpans(list, at);
    InsertKeepsMinimum(RemoveAt(list, at), list[at], j);
    InsertKeepsWidgets(RemoveAt(list, at), list[at], j);
    IdsWithout(list, at);
  }

  lemma {:induction false} MoveWidgets(list: seq<Tile>, id: Widget, i: int)
    requires Spans(list, MIN_SPAN) && FindTile(list, id) >= 0
    ensures Spans(DropList(list, id, i), MIN_SPAN)
    ensures multiset(Ids(DropList(list, id, i))) == multiset(Ids(list))
  {
    Reinserted(list, FindTile(list, id), DropPlace(list, id, i));
  }

  lemma {:induction false} AddWidget(list: seq<Tile>, id: Widget, i: int)
    requires Spans(list, MIN_SPAN) && FindTile(list, id) < 0
    ensures Spans(DropList(list, id, i), MIN_SPAN)
    ensures multiset(Ids(DropList(list, id, i))) == multiset(Ids(list)) + multiset{id}
  {
    var item := Tile(id, PaletteSpan(id), DefaultHeight(id));
    InsertKeepsMinimum(list, item, Clip(i, |list|));
    InsertKeepsWidgets(list, item, Clip(i, |list|));
  }

  /** A drop keeps the widgets of the board and adds the dropped one if it was not there. */
  lemma {:induction false} DropWidgets(list: seq<Tile>, id: Widget, i: int)
    requires Good(list)
    ensures Spans(DropList(list, id, i), MIN_SPAN)
    ensures multiset(Ids(DropList(list, id, i)))
         == multiset(Ids(list)) + if id in Ids(list) then multiset{} else multiset{id}
    ensures Distinct(Ids(DropList(list, id, i)))
  {
    FindTileIff(list, id);
    if FindTile(list, id) >= 0 {
      MoveWidgets(list, id, i);
    } else {
      AddWidget(list, id, i);
    }
    DistinctAfter(Ids(list), Ids(DropList(list, id, i)), if id in Ids(list) then multiset{} else multiset{id});
  }

  lemma {:induction false} DistinctAfter(ids: seq<Widget>, now: seq<Widget>, added: multiset<Widget>)
    requires Distinct(ids) && multiset(now) == multiset(ids) + added
    requires forall x :: added[x] <= 1 && (x in ids ==> added[x] == 0)
    ensures Distinct(now)
  {
    DistinctByCount(ids);
    DistinctByCount(now);
    forall x
      ensures multiset(now)[x] <= 1
    {
      assert x in ids <==> x in multiset(ids);
    }
  }

  lemma {:induction false} WidenWidgets(list: seq<Tile>, id: Widget, sp: int)
    requires Good(list) && sp >= MIN_SPAN
    ensures Spans(SpanSet(list, id, sp), MIN_SPAN)
    ensures multiset(Ids(SpanSet(list, id, sp))) == multiset(Ids(list))
    ensures Distinct(Ids(SpanSet(list, id, sp)))
  {
    ResizeKeepsMinimum(list, id, sp);
    ResizeKeepsOrder(list, id, sp);
    DistinctByCount(Ids(list));
    DistinctByCount(Ids(SpanSet(list, id, sp)));
  }

  lemma {:induction false} WithoutFacts(list: seq<Tile>, id: Widget)
    requires Spans(list, MIN_SPAN)
    ensures Spans(Without(list, id), MIN_SPAN)
    ensures Ids(Without(list, id)) == Others(Ids(list), id)
  {
    if list != [] {
      WithoutFacts(list[1..], id);
      assert Ids(list) == [list[0].id] + Ids(list[1..]);
      var head := if list[0].id == id then [] else [list[0]];
      assert Ids(head) == if list[0].id == id then [] else [list[0].id];
      IdsConcat(head, Without(list[1..], id));
    } else {
      assert Ids(list) == [];
    }
  }

  lemma {:induction false} OthersDistinct(ids: seq<Widget>, id: Widget)
    requires Distinct(ids)
    ensures Distinct(Others(ids, id))
  {
    DistinctByCount(ids);
    forall x
      ensures multiset(Others(ids, id))[x] <= 1
    {
      OthersCount(ids, id, x);
      OthersCountOwn(ids, id);
    }
    DistinctByCount(Others(ids, id));
  }

  lemma {:induction false} OthersCountOwn(ids: seq<Widget>, id: Widget)
    ensures id !in Others(ids, id)
  {
    if ids != [] {
      OthersCountOwn(ids[1..], id);
    }
  }

  lemma {:induction false} RaisedBand(list: seq<Tile>, id: Widget, h: int)
    requires Good(list) && BandRaised(list, id, h).1
    ensures Spans(BandRaised(list, id, h).0, MIN_SPAN)
    ensures Ids(BandRaised(list, id, h).0) == Ids(list) && |BandRaised(list, id, h).0| == |list|
  {
    var rows := PackFrom([], list);
    PackKeepsList([], list);
    assert Flat(rows) == list;
    var r := FindRow(rows, id);
    var after := rows[r := WithHeight(rows[r], h)];
    forall k | 0 <= k < |rows|
      ensures Spans(after[k], MIN_SPAN) && Ids(after[k]) == Ids(rows[k])
    {
      SpansOfRows(rows, MIN_SPAN, k);
      assert Ids(after[k]) == Ids(rows[k]);
    }
    SpansOfFlat(after, MIN_SPAN);
    FlatIds(after, rows);
    assert |Ids(Flat(after))| == |Ids(list)|;
  }

  lemma {:induction false} SavedIsSound(list: seq<Tile>)
    requires Spans(list, MIN_SPAN) && Distinct(Ids(list))
    ensures Sound(Saved(list))
  {
    NormalisedIsGood(list);
  }

  lemma {:induction false} DrawnIsSound(b: Board)
    requires (b.custom != [] ==> Good(b.custom)) && (b.savedCustom != [] ==> Good(b.savedCustom))
    ensures Sound(Drawn(b))
  {
    PresetsAreGood(b.layout);
  }

  /** A height change saves a board with the same widgets, or does nothing. */
  lemma {:induction false} RaiseStep(b: Board, id: Widget, h: HeightButton) returns (list: seq<Tile>, hit: bool)
    requires Sound(b)
    ensures Step(b, Raise(id, h)) == if hit then Saved(list) else b
    ensures hit ==> Spans(list, MIN_SPAN) && Ids(list) == Ids(Shown(b)) && list != [] && Distinct(Ids(list))
  {
    ShownIsGood(b);
    var raised := BandRaised(Shown(b), id, GridRows(h));
    list, hit := raised.0, raised.1;
    if hit {
      RaisedBand(Shown(b), id, GridRows(h));
    }
  }

  lemma {:induction false} RaiseIsSound(b: Board, id: Widget, h: HeightButton)
    requires Sound(b)
    ensures Sound(Step(b, Raise(id, h)))
  {
    var list, hit := RaiseStep(b, id, h);
    if hit {
      SavedIsSound(list);
    }
  }

  lemma {:induction false} RemoveIsSound(b: Board, id: Widget)
    requires Sound(b)
    ensures Sound(Step(b, Remove(id)))
  {
    ShownIsGood(b);
    WithoutFacts(Shown(b), id);
    OthersDistinct(Ids(Shown(b)), id);
    SavedIsSound(Without(Shown(b), id));
  }

  /** One handler, from any sound state, leaves a sound state. */
  lemma {:induction false} StepKeepsSound(b: Board, op: Op)
    requires Sound(b)
    ensures Sound(Step(b, op))
  {
    ShownIsGood(b);
    match op
    case Drop(id, i) =>
      DropWidgets(Shown(b), id, i);
      SavedIsSound(DropList(Shown(b), id, i));
    case Widen(id, w) =>
      WidenWidgets(Shown(b), id, Columns(w));
      SavedIsSound(SpanSet(Shown(b), id, Columns(w)));
    case Raise(id, h) => RaiseIsSound(b, id, h);
    case Remove(id) => RemoveIsSound(b, id);
    case Pick(key) =>
      var l := if Listed(key) then key else Overview;
      DrawnIsSound(Board([], l, [], l, []));
    case PickCustom => DrawnIsSound(b.(layout := Custom, savedLayout := Custom));
    case OpenEditor => DrawnIsSound(if b.custom == [] then b.(custom := Shown(b)) else b);
    case Render => DrawnIsSound(b);
    case Reload => DrawnIsSound(Board(b.savedCustom, b.savedLayout, b.savedCustom, b.savedLayout, []));
    case Reset =>
  }

  /**
   * From any sound state, after every finite run of drops, resizes, height
   * changes, removals, template picks, renders, reloads and resets, what the next
   * edit starts from is a non-empty board whose rows each sum to twelve with one
   * height, every span 3..12, no widget twice; so is what the page displays,
   * unless that is blank.
   */
  lemma {:induction false} RunKeepsGood(b: Board, ops: seq<Op>)
    requires Sound(b)
    ensures Sound(Run(b, ops)) && Good(Shown(Run(b, ops))) && Shown(Run(b, ops)) != []
    ensures Run(b, ops).page != [] ==> Good(Run(b, ops).page)
    decreases |ops|
  {
    if ops == [] {
      ShownIsGood(b);
    } else {
      StepKeepsSound(b, ops[0]);
      RunKeepsGood(Step(b, ops[0]), ops[1..]);
    }
  }

  lemma {:induction false} StartIsSound()
    ensures Sound(START)
  {
    PresetsAreGood(Overview);
  }

  /** From the page as it first opens, every run of edits leaves a good board to go on from. */
  lemma {:induction false} EveryRunIsGood(ops: seq<Op>)
    ensures Good(Shown(Run(START, ops))) && Shown(Run(START, ops)) != []
    ensures Run(START, ops).page != [] ==> Good(Run(START, ops).page)
  {
    StartIsSound();
    RunKeepsGood(START, ops);
  }

  // ---------- what each edit does to the set of widgets ----------

  ghost function Widgets(b: Board): multiset<Widget> { multiset(Ids(Shown(b))) }

  lemma {:induction false} SavedShows(list: seq<Tile>)
    requires list != []
    ensures Shown(Saved(list)) == Saved(list).page == Normalised(list)
    ensures Ids(Shown(Saved(list))) == Ids(list)
  {
    AdmitFacts(list);
    NormaliseTiles(list, 2);
    assert |Ids(Normalised(list))| == |Ids(list)|;
  }

  lemma {:induction false} SavedEmpty()
    ensures Shown(Saved([])) == Preset(Overview) && Saved([]).page == []
  {
    assert LevelRows(Rows([])) == [];
  }

  lemma {:induction false} CountIsSize(a: seq<Tile>)
    ensures |multiset(Ids(a))| == |a|
  {
  }

  /** A drop moves a widget that is shown and adds one that is not; no other widget comes or goes. */
  lemma {:induction false} DropAccounts(b: Board, id: Widget, i: int)
    requires Sound(b)
    ensures Widgets(Step(b, Drop(id, i))) == Widgets(b) + if id in Ids(Shown(b)) then multiset{} else multiset{id}
  {
    ShownIsGood(b);
    DropWidgets(Shown(b), id, i);
    var out := DropList(Shown(b), id, i);
    CountIsSize(Shown(b));
    CountIsSize(out);
    SavedShows(out);
  }

  /** Resizing and height changes keep the widgets. */
  lemma {:induction false} WidenAccounts(b: Board, id: Widget, w: WidthButton)
    requires Sound(b)
    ensures Widgets(Step(b, Widen(id, w))) == Widgets(b)
  {
    ShownIsGood(b);
    WidenWidgets(Shown(b), id, Columns(w));
    var out := SpanSet(Shown(b), id, Columns(w));
    CountIsSize(Shown(b));
    CountIsSize(out);
    SavedShows(out);
  }

  lemma {:induction false} RaiseAccounts(b: Board, id: Widget, h: HeightButton)
    requires Sound(b)
    ensures Ids(Shown(Step(b, Raise(id, h)))) == Ids(Shown(b))
  {
    var list, hit := RaiseStep(b, id, h);
    if hit {
      SavedShows(list);
    }
  }

  lemma {:induction false} RemoveStep(b: Board, id: Widget) returns (list: seq<Tile>)
    requires Sound(b)
    ensures Step(b, Remove(id)) == Saved(list) && Ids(list) == Others(Ids(Shown(b)), id)
  {
    ShownIsGood(b);
    WithoutFacts(Shown(b), id);
    list := Without(Shown(b), id);
  }

  /**
   * A removal keeps the order of what stays. After the last one the page is
   * blank, while the next edit or render starts from the default preset.
   */
  lemma {:induction false} RemoveAccounts(b: Board, id: Widget)
    requires Sound(b)
    ensures var left := Others(Ids(Shown(b)), id);
      && (left != [] ==> Ids(Shown(Step(b, Remove(id)))) == left)
      && Ids(Step(b, Remove(id)).page) == left
      && (left == [] ==> Shown(Step(b, Remove(id))) == Preset(Overview))
  {
    var list := RemoveStep(b, id);
    assert |Ids(list)| == |list|;
    if list != [] {
      SavedShows(list);
    } else {
      SavedEmpty();
      assert Ids([]) == [];
    }
  }

  // ---------- the page and the layout state ----------

  /**
   * The page displays what the next edit starts from after every operation but
   * two: removing the last widget, and clearing the local data of a layout that
   * is not the default. A render brings them together again.
   */
  lemma {:induction false} PageFollowsIff(b: Board, op: Op)
    requires Sound(b) && b.page == Shown(b)
    ensures var after := Step(b, op);
      && (after.page == Shown(after) <==>
            && (op.Remove? ==> Others(Ids(Shown(b)), op.id) != [])
            && (op.Reset? ==> Shown(b) == Preset(Overview)))
      && Step(after, Render).page == Shown(after)
  {
    ShownIsGood(b);
    match op
    case Drop(id, i) =>
      DropWidgets(Shown(b), id, i);
      CountIsSize(Shown(b));
      CountIsSize(DropList(Shown(b), id, i));
      SavedShows(DropList(Shown(b), id, i));
    case Widen(id, w) =>
      WidenWidgets(Shown(b), id, Columns(w));
      CountIsSize(Shown(b));
      CountIsSize(SpanSet(Shown(b), id, Columns(w)));
      SavedShows(SpanSet(Shown(b), id, Columns(w)));
    case Raise(id, h) => RaisePage(b, id, h);
    case Remove(id) => RemovePage(b, id);
    case _ =>
  }

  lemma {:induction false} RunSnoc(b: Board, ops: seq<Op>, op: Op)
    ensures Run(b, ops + [op]) == Step(Run(b, ops), op)
    decreases |ops|
  {
    if ops == [] {
      assert [] + [op] == [op] && [op][1..] == [];
    } else {
      assert (ops + [op])[0] == ops[0] && (ops + [op])[1..] == ops[1..] + [op];
      RunSnoc(Step(b, ops[0]), ops[1..], op);
    }
  }

  lemma {:induction false} RemoveFirst(b: Board, id: Widget, rest: seq<Widget>)
    requires Sound(b) && Ids(Shown(b)) == [id] + rest && id !in rest
    ensures var after := Step(b, Remove(id));
      && Sound(after) && Ids(after.page) == rest
      && (rest != [] ==> Ids(Shown(after)) == rest) && (rest == [] ==> Shown(after) == Preset(Overview))
  {
    RemoveIsSound(b, id);
    RemoveAccounts(b, id);
    OthersKeep(rest, id);
    assert ([id] + rest)[1..] == rest;
  }

  lemma {:induction false} OthersKeep(ids: seq<Widget>, id: Widget)
    requires id !in ids
    ensures Others(ids, id) == ids
  {
    if ids != [] {
      OthersKeep(ids[1..], id);
    }
  }

  const EMPTIED := [Pick(Compact)] + [Remove(Pulse)] + [Remove(Chart)] + [Remove(Table)]

  lemma {:induction false} RemoveThree(b: Board, x: Widget, y: Widget, z: Widget)
    requires Sound(b) && Ids(Shown(b)) == [x, y, z] && x != y && x != z && y != z
    ensures var after := Step(Step(Step(b, Remove(x)), Remove(y)), Remove(z));
      Ids(after.page) == [] && Shown(after) == Preset(Overview)
  {
    assert [x, y, z] == [x] + [y, z] && [y, z] == [y] + [z] && [z] == [z] + [];
    RemoveFirst(b, x, [y, z]);
    RemoveFirst(Step(b, Remove(x)), y, [z]);
    RemoveFirst(Step(Step(b, Remove(x)), Remove(y)), z, []);
  }

  lemma {:induction false} EmptiedRun()
    ensures Run(START, EMPTIED) ==
      Step(Step(Step(Step(START, Pick(Compact)), Remove(Pulse)), Remove(Chart)), Remove(Table))
  {
    var first := [Pick(Compact)];
    RunSnoc(START, [], Pick(Compact));
    assert [] + first == first;
    RunSnoc(START, first, Remove(Pulse));
    RunSnoc(START, first + [Remove(Pulse)], Remove(Chart));
    RunSnoc(START, first + [Remove(Pulse)] + [Remove(Chart)], Remove(Table));
  }

  lemma {:induction false} CompactPicked()
    ensures var b := Step(START, Pick(Compact)); Sound(b) && Ids(Shown(b)) == [Pulse, Chart, Table]
  {
    StartIsSound();
    StepKeepsSound(START, Pick(Compact));
    assert Ids(Preset(Compact)) == [Pulse, Chart, Table];
  }

  /** Three removals from the compact preset: the page is blank, the next edit starts from the default. */
  lemma {:induction false} PageGoesBlank()
    ensures Run(START, EMPTIED).page == [] && Shown(Run(START, EMPTIED)) == Preset(Overview)
  {
    EmptiedRun();
    CompactPicked();
    RemoveThree(Step(START, Pick(Compact)), Pulse, Chart, Table);
    assert |Ids(Run(START, EMPTIED).page)| == |Run(START, EMPTIED).page|;
  }

  /** Clearing the local data under the trading preset leaves it on the page. */
  lemma {:induction false} ResetLeavesPage()
    ensures var after := Run(START, [Pick(Trading)] + [Reset]);
      after.page == Preset(Trading) && Shown(after) == Preset(Overview) != Preset(Trading)
  {
    var first := [Pick(Trading)];
    RunSnoc(START, [], Pick(Trading));
    assert [] + first == first;
    RunSnoc(START, first, Reset);
    assert Preset(Overview)[0] != Preset(Trading)[0];
  }

  lemma {:induction false} RaisePage(b: Board, id: Widget, h: HeightButton)
    requires Sound(b) && b.page == Shown(b)
    ensures Step(b, Raise(id, h)).page == Shown(Step(b, Raise(id, h)))
  {
    var list, hit := RaiseStep(b, id, h);
    if hit {
      SavedShows(list);
    }
  }

  lemma {:induction false} RemovePage(b: Board, id: Widget)
    requires Sound(b)
    ensures var after := Step(b, Remove(id));
      after.page == Shown(after) <==> Others(Ids(Shown(b)), id) != []
  {
    var list := RemoveStep(b, id);
    assert |Ids(list)| == |list|;
    if list != [] {
      SavedShows(list);
    } else {
      SavedEmpty();
      PresetsAreGood(Overview);
    }
  }

  // ---------- a height change is local ----------

  lemma {:induction false} RaisedRow(rows: seq<seq<Tile>>, r: nat, h: int)
    requires r < |rows| && h != 0 && forall q :: 0 <= q < |rows| ==> FullRow(rows[q]) && Spans(rows[q], MIN_SPAN)
    ensures var row := WithHeight(rows[r], h);
      PackFrom([], Normalised(Flat(rows[r := row]))) == rows[r := row]
  {
    var row := WithHeight(rows[r], h);
    WidthIgnoresHeight(rows[r], h);
    ReplaceRow(rows, r, row);
    MaxHeightIsMember(row);
    assert WithHeight(row, MaxHeight(row)) == row;
  }

  lemma {:induction false} RaisedList(list: seq<Tile>, id: Widget, h: int)
    requires Good(list) && id in Ids(list) && h != 0
    ensures var rows := PackFrom([], list); var r := FindRow(rows, id); var raised := BandRaised(list, id, h);
      && r >= 0 && raised.1
      && PackFrom([], Normalised(raised.0)) == rows[r := WithHeight(rows[r], h)]
  {
    BandedRows(list);
    FindRowIff(Rows(list), id);
    RaisedRow(Rows(list), FindRow(Rows(list), id), h);
  }

  /** Setting a height changes the heights of one band to exactly it, and nothing else. */
  lemma {:induction false} RaiseIsLocal(b: Board, id: Widget, h: HeightButton)
    requires Sound(b) && id in Ids(Shown(b))
    ensures var rows := PackFrom([], Shown(b)); var r := FindRow(rows, id);
      && r >= 0
      && PackFrom([], Shown(Step(b, Raise(id, h)))) == rows[r := WithHeight(rows[r], GridRows(h))]
  {
    ShownIsGood(b);
    RaisedList(Shown(b), id, GridRows(h));
    RaisedBand(Shown(b), id, GridRows(h));
    SavedShows(BandRaised(Shown(b), id, GridRows(h)).0);
  }

  // ---------- a button that does nothing ----------

  lemma {:induction false} PresetsEndInTable(l: Layout)
    ensures Preset(l) != [] && Preset(l)[|Preset(l)|-1] == Tile(Table, COLUMNS, 9)
  {
  }

  /** On every preset the width buttons of the table leave the board as it is. */
  lemma {:induction false} TableIsStuck(l: Layout, w: WidthButton)
    ensures Shown(Step(Drawn(Board([], l, [], l, [])), Widen(Table, w))) == Preset(l)
  {
    PresetsAreGood(l);
    PresetsEndInTable(l);
    WideLastIsStuck(Preset(l), Columns(w));
  }

  // ---------- reloading the page ----------

  /** A reload would show what is shown now. */
  ghost predicate Durable(b: Board) {
    Shown(Step(b, Reload)) == Shown(b)
  }

  /**
   * Every edit leaves the board as a reload would show it, with one exception:
   * picking "Your layout" stores the layout's name but not its arrangement.
   */
  lemma {:induction false} EditsAreDurable(b: Board, op: Op)
    requires Durable(b) && !op.PickCustom?
    ensures Durable(Step(b, op))
  {
    match op
    case Drop(id, i) => SavedIsDurable(DropList(Shown(b), id, i));
    case Widen(id, w) => SavedIsDurable(SpanSet(Shown(b), id, Columns(w)));
    case Raise(id, h) => SavedIsDurable(BandRaised(Shown(b), id, GridRows(h)).0);
    case Remove(id) => SavedIsDurable(Without(Shown(b), id));
    case _ =>
  }

  /** Opening the editor, drawing the page and reloading it: looking without editing. */
  predicate Looks(op: Op) { op.OpenEditor? || op.Render? || op.Reload? }

  /**
   * Looking at the board in any way and any number of times, reloads included,
   * never changes it, and the page displays it.
   */
  lemma {:induction false} LookingKeepsBoard(b: Board, ops: seq<Op>)
    requires Durable(b) && forall k :: 0 <= k < |ops| ==> Looks(ops[k])
    ensures var after := Run(b, ops);
      Durable(after) && Shown(after) == Shown(b) && (ops != [] ==> after.page == Shown(b))
    decreases |ops|
  {
    if ops != [] {
      LookingKeepsBoard(Step(b, ops[0]), ops[1..]);
    }
  }

  /** Whatever was there before, a picked layout is what is shown from then on, until the next edit. */
  lemma {:induction false} PickShowsLayout(b: Board, key: Layout, ops: seq<Op>)
    requires forall k :: 0 <= k < |ops| ==> Looks(ops[k])
    ensures var after := Run(Step(b, Pick(key)), ops);
      Shown(after) == Preset(key) && after.page == Shown(after)
  {
    LookingKeepsBoard(Step(b, Pick(key)), ops);
  }

  lemma {:induction false} SavedIsDurable(list: seq<Tile>)
    ensures Durable(Saved(list))
  {
  }

  /** After that pick a reload shows the same board exactly when an arrangement is stored or it equals the default. */
  lemma {:induction false} PickCustomDurableIff(b: Board)
    requires Durable(b) && b.custom != []
    ensures Durable(Step(b, PickCustom)) <==> b.savedCustom != [] || b.custom == Preset(Overview)
  {
  }

  lemma {:induction false} RunThree(b: Board, x: Op, y: Op, z: Op)
    ensures Run(b, [x, y, z]) == Step(Step(Step(b, x), y), z)
  {
    assert [x, y, z][1..] == [y, z] && [y, z][1..] == [z] && [z][1..] == [];
    assert Run(Step(Step(b, x), y), [z]) == Step(Step(Step(b, x), y), z);
  }

  /** Opening the editor on a preset, then picking "Your layout", loses the preset at the next reload. */
  lemma {:induction false} PickCustomForgets()
    ensures var b := Run(START, [Pick(Trading), OpenEditor, PickCustom]);
      Shown(b) == Preset(Trading) && Shown(Step(b, Reload)) == Preset(Overview) != Preset(Trading)
  {
    RunThree(START, Pick(Trading), OpenEditor, PickCustom);
    assert Preset(Overview)[0] != Preset(Trading)[0];
  }
}
