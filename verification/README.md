# Verified model of the Marco dashboard, operator and client logic

A Dafny 4.11 model of five parts of the Marco repository, with proofs.

* **The dashboard layout editor** (`platform/src/parts/p4-markets.js`). A board is a
  list of `[widget, columns, rows]`, packed into rows of twelve columns. `Packing`,
  `Normalise`, `Squeeze`, `Insert` and `Resize` hold its loops as methods over rows
  of tiles, each proved equal to a function of its input; `Editor` holds the
  handlers as a class with the page's state and local storage. The results:
  every run of edits keeps the board tiled, nothing is lost or doubled, a drop lands
  where it was made, inserts and height changes are local, packing is optimal, and a
  resize sticks except in one exactly described family of cases. `Landing`,
  `Drops` and `Moves` prove where a dropped widget ends, with what width and in what
  company; `ResizeShape` and `Removals` what a resize and a removal leave, tile by tile.
* **The devnet auto-operator** (`platform/orchestrator/scripts/auto-operator-devnet.ts`).
  `Sweep` is the single-flight scheduler, interleaved at its awaits; `Watch` the
  order-counter poll that triggers it; `Fills` the integer fill arithmetic together
  with the on-chain checks and the app's own orders; `Funding` the mint-the-shortfall
  funding of sells against the market account, with traders, sweeps and crashes in
  between, `FundingRuns` runs from an empty market; `Pass` the loop over one
  market's orders, `PassTotals` what it hands over, `Orders` what becomes of an order
  and what traders are given over every run. `TopUp` is the retried top-up of `prove-devnet.ts`.
* **The browser client** (`platform/src/chain/index.js`). `Pace` is the shared RPC
  cursor, `Feed` the worker pool with its persistent cache.
* **Books** (`platform/src/parts/p3b-chain.js`, `p5-trade.js`). `Book` is the
  optimistic overlay over balances read from chain, `Trade` the simulated trades,
  both over the reals.
* **Webhook ingest** (`platform/orchestrator/src/api/webhooks.ts`). `Webhooks` has the
  ingest loop as a class and, for concurrent ingests, as a state machine that stops
  at every await.

Where code is concurrent, a step runs from one await to the next and the theorems
quantify over every sequence of steps. `dafny verify dfyconfig.toml` checks it all.

## What the proofs found

Where the code and its comments disagree the model follows the code.

* *A resize does not always stick.* The comment on `setSpan` says a narrowed capsule
  will not snap back. It does when it is last in its row and there is no next row or
  the gap is under three columns; and widening past what the neighbours can give may
  leave one or two columns that the widget itself takes. `ResizeSticks.Overshoot`
  computes the excess before the call; `ResizeSticks.ResizeSticks` proves it exact. On
  every preset the width buttons of the table do nothing (`Editor.TableIsStuck`).
* *A moved widget can end wider.* It ends with exactly the width its new row leaves it,
  except when it comes to stand last in a row with a gap: saving closes the gap with it
  (`Moves.MoveKeepsWidthIff`; from the page as it opens, `Moves.MoveCanWiden`). Moves
  to the front cannot do that (`Moves.UpwardStands`).
* *A board emptied in the editor is blank, and is not.* The page shows nothing while
  the next edit or render starts from the default preset (`Editor.PageGoesBlank`);
  clearing local data, on the settings page, leaves the cards of the markets page as they
  were too (`Editor.ResetLeavesPage`; exact condition in `Editor.PageFollowsIff`), unseen
  until the return to that page draws it anew.
* *"Your layout" can be forgotten.* Picking it stores the layout's name but not the
  arrangement, so a reload may show the default (`Editor.PickCustomForgets`, and the
  exact condition in `Editor.PickCustomDurableIff`).
* *The slack loop has nothing to do on a drop.* `insertBeside` closes slack by sorting
  the row itself, which may reorder it (the widgets are kept as a multiset). No drop
  gets there: because packing uses the fewest rows, a tiled board without the dragged
  widget has no gap wider than it (`Landing.GapsAreNoWider`), so every drop lands in
  exactly the order asked for, except one place early behind a last row of four
  (`Drops.DropLands`).
* *Spans of two*, which no edit makes, can leave a row over twelve until it is packed
  again (`Insert.TwosOverflow`; exact condition in `Insert.InsertFitsIff`).
* *A sell worth less than one base unit stops its market* for the operator until somebody
  cancels it, which its trader, the admin and the operator may do, or settles it by hand
  on other terms. Its settlement is refused on every pass, the exception leaves the loop,
  and no pass changes an order placed after it, whatever others do between passes
  (`Pass.PassesStopAtBlock`); unless the admin deploys and confirms by hand, none of those
  orders is deployed, filled or settled (`Pass.BlockedUntilCancelled`). An offer of one
  share unit at no limit is enough (`Pass.OneUnitBlocks`). A buy that cannot be filled
  stops one pass only: it is left deployed, and without a blocking sell in front every
  order's turn comes (`Pass.TurnComesInTime`).
* *Funding is restart-safe but not retry-safe.* A crash never funds a sell twice
  (`Funding.RestartsDoNotDoubleFund`); the retry inside the mint does not recompute the
  shortfall, so each lost confirmation mints it again
  (`Funding.LostConfirmationsOverfund`; from an empty market in
  `FundingRuns.RetryMintsTwice`). The top-up in `prove-devnet.ts` does recompute, and
  is exact.
* *A failed buy leg refunded between the operator's read and its settlement* can take
  the proceeds (`FundingRuns.RefundCanTakeProceeds`). It does exactly when it passes the
  program's check and leaves less unreserved than the sell in hand needs
  (`Funding.RefundKeepsFundedIff`), and the sell stays funded at every point of a run
  exactly when no refund of the run does that (`Funding.StaysFundedIff`). Money paid in
  later can make it good before the settlement (`Funding.SettlementIsFundedIff`).
* *"Fills at the price it quoted"* is exact or one base unit low (`Fills.FillsAtQuote`);
  at a quote of one base unit the price is zero and there is no fill
  (`Fills.QuoteOfOne`). On a market without a least order, buys of a few base units can
  ask for more than the deployed amount buys (`Fills.DustBuyIsRefused`; exact condition
  in `Fills.FillIsConfirmedIff`); with the app's least order of ten USDC a buy at
  any limit up to 300,000 USDC is fillable exactly when its limit is at least two base
  units (`Fills.MarketBuysAreFillable`).
* *The order watcher relies on answers in order.* Its polls can overlap; a late answer
  makes one order look like three (`Watch.LateAnswerRepeats`), and a poll that throws
  after storing a counter hides that market's order (`Watch.BrokenHidesOrder`). The
  full sweep every poll interval is the backstop. `Watch.ReportsAreChanges` is exact
  for every order of answers; `Watch.ReportedIffMoved` assumes rising readings and no
  throw.
* *A wake can be lost.* The delivery is claimed before the intent is saved. When another
  writer wins the version race, the redelivery is dropped, and the wake is lost in effect
  exactly when that writer left the intent not due (`Webhooks.WakeIsLostIff`): the runner
  that puts a waiting intent off to a later time does (`Webhooks.WakeCanBeLost`, a run
  from an empty store).
* *The optimistic book counts an order exactly once* except in two cases: twice when it
  had landed by the balance read and its status read failed or did not list it
  (`Book.FailedReadCountsTwice`), and not at all, until the next load, when it landed
  between the two reads (`Book.LandedBetweenReads`, `Book.NextLoadCountsOnce`). The exact condition is
  `Book.CountedOnceIff`.

## Model

| member | source | states |
|---|---|---|
| Packing.ToRows | platform/src/parts/p4-markets.js:782-791 | the packing loop computes the rows that the lemmas below characterise |
| Packing.PackStored | platform/src/parts/p4-markets.js:915-917 | the height handler's own packing loop computes the same scan of the stored entries |
| Packing.ThumbRows | platform/src/parts/p4-markets.js:631-637 | the thumbnail's packing loop computes the same scan with heights filled in |
| Packing.PackingIsTheGreedySplit | platform/src/parts/p4-markets.js:782-791 | rows are the result of packing iff they concatenate to the admitted list, each fits in twelve columns and every break was forced |
| Packing.PackKeepsList | platform/src/parts/p4-markets.js:782-791 | packing loses, adds and reorders nothing |
| Packing.FullRowsStay | platform/src/parts/p4-markets.js:782-791 | rows that sum to twelve stay rows of their own in front of anything |
| Packing.FewestRows | platform/src/parts/p4-markets.js:782-791 | no order-preserving split into rows of at most twelve has fewer rows |
| Packing.PackingsAgree | platform/src/parts/p4-markets.js:631-637 | for spans 2..12 the thumbnail and the height handler, which do not clamp, break rows exactly where the board does |
| Normalise.Flush | platform/src/parts/p4-markets.js:856-872 | stretch, remainder loop and height levelling of one row equal the row function below |
| Normalise.NormaliseList | platform/src/parts/p4-markets.js:854-879 | the single-scan loop equals levelling every packed row |
| Normalise.CloseIsOneStretch | platform/src/parts/p4-markets.js:859-868 | on a row that fits, the clamped stretch alone reaches twelve: the remainder loop never runs and the clamp never bites |
| Normalise.LevelRowFacts | platform/src/parts/p4-markets.js:856-872 | a levelled row keeps its widgets, only its last span grows and by exactly the gap, and all heights are the maximum |
| Normalise.NormaliseTiles | platform/src/parts/p4-markets.js:854-879 | for any list the result tiles: greedy rows of exactly twelve and one height, same widgets in the same order, same row boundaries as toRows, minimum span kept |
| Normalise.OnlyLastGrows | platform/src/parts/p4-markets.js:780-781 | row by row, a row that does not sum to twelve grows its last widget by exactly the gap and nothing else |
| Normalise.UnchangedIffTiled | platform/src/parts/p4-markets.js:854-879 | normalise changes nothing iff the list already tiles |
| Normalise.NormaliseTwice | platform/src/parts/p4-markets.js:854-879 | normalise is idempotent on every list |
| Squeeze.Widest | platform/src/parts/p4-markets.js:808-809 | the neighbour shaved is the first of the widest ones over three columns, and there is none iff all are at three or less |
| Squeeze.ShaveNeighbours | platform/src/parts/p4-markets.js:807-811 | the capped shaving loop of both editors equals its specification |
| Squeeze.ShaveCap | platform/src/parts/p4-markets.js:807-811 | a cap at least the excess width never cuts the shaving short |
| Squeeze.ShaveFacts | platform/src/parts/p4-markets.js:807-811 | shaving never narrows below three, never touches the protected tile, and ends at twelve or with all neighbours at three |
| Squeeze.ShaveOutcome | platform/src/parts/p4-markets.js:832-836 | with spans from three up it ends at exactly twelve if the protected tile leaves the others three columns each, and otherwise with all others at three |
| Squeeze.ShaveStaysEven | platform/src/parts/p4-markets.js:806-811 | no neighbour grows, and one that lost columns ends at most one below any other: the row stays even |
| Squeeze.NarrowCap | platform/src/parts/p4-markets.js:812 | the second squeezing loop takes exactly the columns missing, down to three |
| Squeeze.SortIsStable | platform/src/parts/p4-markets.js:819 | the in-place sort orders by span and keeps equal spans in order |
| Squeeze.SlackCap | platform/src/parts/p4-markets.js:818-820 | a cap at least the slack never cuts the closing loop short |
| Squeeze.SlackFacts | platform/src/parts/p4-markets.js:818-820 | closing slack keeps the widgets as a multiset and ends at exactly twelve |
| Squeeze.SlackStaysEven | platform/src/parts/p4-markets.js:818-820 | slack goes to the narrowest: a tile that ends wider than the widest was is at most one wider than any other |
| Insert.FindPlace | platform/src/parts/p4-markets.js:798-802 | the scan finds the row and place a list index falls on |
| Insert.NarrowDropped | platform/src/parts/p4-markets.js:812 | the loop on the dropped widget equals its capped specification |
| Insert.SqueezeRow | platform/src/parts/p4-markets.js:806-812 | both squeezing loops in turn |
| Insert.CloseSlack | platform/src/parts/p4-markets.js:818-820 | the sorting and widening loop equals its capped specification |
| Insert.FitInto | platform/src/parts/p4-markets.js:806-820 | squeeze, spill the last neighbour of a row still over twelve, close slack |
| Insert.InsertBeside | platform/src/parts/p4-markets.js:795-822 | the whole insert equals its specification on every list and index |
| Insert.InsertKeepsWidgets | platform/src/parts/p4-markets.js:795-822 | for any list the widgets afterwards are the old ones plus the inserted one, as a multiset |
| Insert.InsertCapsNeverBite | platform/src/parts/p4-markets.js:807-820 | for spans 2..12 the caps 200, 12 and 24 never end a loop early |
| Insert.InsertKeepsMinimum | platform/src/parts/p4-markets.js:795-822 | spans of at least three stay at least three |
| Insert.InsertFillsItsRow | platform/src/parts/p4-markets.js:813-820 | the row hit ends at exactly twelve, also on boards with gaps, and a neighbour leaves iff the row held four |
| Insert.InsertIsLocal | platform/src/parts/p4-markets.js:792-822 | on a tiled board, into a row of at most three: exactly the requested place and the width that room allows, the row full, every other row untouched, and normalise then changes only that row's heights |
| Insert.InsertIntoFullRow | platform/src/parts/p4-markets.js:813-817 | into a row of four: the widget gets three columns there, the old fourth moves to the front of what follows, rows above untouched |
| Insert.FitRowWidth | platform/src/parts/p4-markets.js:806-820 | exact width of the row and exact condition for a spill, for spans from two up |
| Insert.InsertFitsIff | platform/src/parts/p4-markets.js:813-820 | with spans of two, the row ends at twelve iff its tiles cut down to three fit, with or without the neighbour that leaves |
| Insert.TwosOverflow | platform/src/parts/p4-markets.js:813-817 | six twos and a drop at their end: one spills and the row is left at thirteen |
| Landing.LocateIsIndex | platform/src/parts/p4-markets.js:798-802 | the row and place found are list index i |
| Landing.FitRowOrder | platform/src/parts/p4-markets.js:806-817 | with no slack to close, the row and what it spills are in the order asked for |
| Landing.InsertLandsAt | platform/src/parts/p4-markets.js:795-817 | on any board with spans from three up whose hit row has no slack, the item lands at its list index (one earlier behind four) and all others keep their order |
| Landing.GapsAreNoWider | platform/src/parts/p4-markets.js:782-791 | a tiled board without one tile packs into rows none of which is short by more than that tile |
| Resize.SpillNeighbours | platform/src/parts/p4-markets.js:839-843 | the spilling loop, each spilled tile a row of its own in order |
| Resize.PullNext | platform/src/parts/p4-markets.js:844-851 | the pulling loop, with its cut to the gap and its stop under three columns |
| Resize.SetSpan | platform/src/parts/p4-markets.js:827-853 | the whole resize equals its specification on every list, width and widget, present or not |
| ResizeFacts.ResizeKeepsOrder | platform/src/parts/p4-markets.js:827-853 | any resize keeps the widgets and the relative order of all other widgets |
| ResizeFacts.ResizeKeepsMinimum | platform/src/parts/p4-markets.js:827-853 | spans of at least three stay at least three |
| ResizeFacts.ResizeCapNeverBites | platform/src/parts/p4-markets.js:834-838 | the cap of 200 never cuts the shaving short, on any board and for any width |
| ResizeSticks.SpillOfThrees | platform/src/parts/p4-markets.js:839-843 | among neighbours of three exactly the first (12 - width) / 3 stay |
| ResizeSticks.PullOutcome | platform/src/parts/p4-markets.js:844-851 | pulling ends with a full row or in front of a tile that does not fit the gap |
| ResizeSticks.ResizedRow | platform/src/parts/p4-markets.js:827-853 | where the resized widget stands before normalise and how wide its row is, against the predicted overshoot |
| ResizeSticks.ResizeSticks | platform/src/parts/p4-markets.js:823-879 | after resize and normalise on a tiled board the widget is exactly the asked width plus the predicted overshoot; it sticks iff that is zero |
| ResizeSticks.WideButtonsStick | platform/src/parts/p4-markets.js:721-721 | after the half or full width button, when it does not narrow, the widget has exactly that width on the final board |
| ResizeSticks.WideLastIsStuck | platform/src/parts/p4-markets.js:854-879 | on a tiled board that ends in a widget of full width, resizing that widget and normalising gives back the same board |
| ResizeSticks.RowsAboveStay | platform/src/parts/p4-markets.js:827-853 | rows above the resized widget's row are untouched, for any width |
| ResizeSticks.WideningIsLocal | platform/src/parts/p4-markets.js:834-838 | widening within what the neighbours can give changes only that row's spans |
| ResizeShape.PullIsExact | platform/src/parts/p4-markets.js:844-851 | the pulled tiles are the first of the next row, as they are, the last one cut to exactly the gap if it does not fit; pulling stops only at twelve, at the end of that row, or at a gap under three that the next tile does not fit |
| ResizeShape.NarrowingJoins | platform/src/parts/p4-markets.js:839-853 | narrowing on a tiled board: the widget's row is the old one with the new width and the tiles pulled up as above, and what stays of the next row stands in front of the rows below, packed anew |
| ResizeShape.NarrowingLast | platform/src/parts/p4-markets.js:844-853 | narrowing in the last row changes that width and nothing else |
| ResizeShape.WideningIsEven | platform/src/parts/p4-markets.js:834-838 | widening within what the neighbours can give takes the columns from them evenly |
| ResizeShape.SpillIsExact | platform/src/parts/p4-markets.js:839-843 | spilling changes no tile: those left and those that left are the neighbours, in order |
| ResizeShape.WideningLeaves | platform/src/parts/p4-markets.js:834-843 | widening beyond what the neighbours can give: they all end three columns wide, as many of the first as fit stay beside the widget, the others stand in order in front of the rows below, packed anew |
| ResizeShape.ResizeCloses | platform/src/parts/p4-markets.js:854-879 | after any resize each packed row is saved with its last tile over the gap and its greatest height |
| Presets.PresetsAreGood | platform/src/parts/p4-markets.js:587-624 | every preset tiles, with spans 3..12 and no widget twice |
| Editor.Dropped | platform/src/parts/p4-markets.js:1042-1048 | the drop handler's list: move with index shift, or palette addition with default span and height |
| Editor.LayoutEditor.CurrentWidgets | platform/src/parts/p4-markets.js:774-777 | own layout, or the preset (default preset for an unknown name) when there is none |
| Editor.LayoutEditor.SaveCustom | platform/src/parts/p4-markets.js:880-886 | normalises and stores arrangement and name, on the page and in storage |
| Editor.LayoutEditor.OnDrop | platform/src/parts/p4-markets.js:1039-1050 | whole new state after a drop |
| Editor.LayoutEditor.OnWidth | platform/src/parts/p4-markets.js:922-924 | whole new state after a width button |
| Editor.LayoutEditor.OnHeight | platform/src/parts/p4-markets.js:913-921 | whole new state after a height button; nothing changes for a widget not on the board |
| Editor.LayoutEditor.OnRemove | platform/src/parts/p4-markets.js:925-926 | whole new state after a removal |
| Editor.LayoutEditor.ApplyLayout | platform/src/parts/p4-markets.js:689-696 | template pick: own layout dropped, name stored |
| Editor.LayoutEditor.OnPickCustom | platform/src/parts/p4-markets.js:662-667 | "Your layout" pick: only the name is stored |
| Editor.LayoutEditor.StartEditing | platform/src/parts/p4-markets.js:980-988 | opening the editor copies the preset into the own layout, unsaved |
| Editor.LayoutEditor.OnRender | platform/src/parts/p4-markets.js:291-293 | drawing the markets page displays what the next edit starts from |
| Editor.LayoutEditor.OnReload | platform/src/parts/p9-boot.html:3-4 | the page starts from what storage holds |
| Editor.LayoutEditor.ClearLocalData | platform/src/parts/p8-settings.js:209-213 | page and storage are back to the default |
| Editor.StepKeepsSound | platform/src/parts/p4-markets.js:774-926 | every handler keeps shown and stored arrangements tiled with spans 3..12 and no widget twice |
| Editor.RunKeepsGood | platform/src/parts/p4-markets.js:581-586 | over every finite run of drops, resizes, heights, removals, picks, renders, reloads and resets, what edits start from is tiled with spans 3..12, no widget twice and never empty, and so is the page unless it is blank |
| Editor.EveryRunIsGood | platform/src/parts/p4-markets.js:581-586 | the same from the page as it first opens |
| Editor.DropAccounts | platform/src/parts/p4-markets.js:1039-1050 | through saving, a drop moves a shown widget or adds one that was not, and no other widget comes or goes |
| Editor.WidenAccounts | platform/src/parts/p4-markets.js:922-924 | through saving, a resize keeps the widgets |
| Editor.RaiseAccounts | platform/src/parts/p4-markets.js:913-921 | through saving, a height change keeps the widgets and their order |
| Editor.RemoveAccounts | platform/src/parts/p4-markets.js:925-926 | exactly the removed widget goes and the rest keep their order, on the page too; after the last one the page is blank and the next edit starts from the default preset |
| Editor.RaiseIsLocal | platform/src/parts/p4-markets.js:913-921 | a height change sets one band's heights to exactly the asked one and changes nothing else |
| Editor.PageFollowsIff | platform/src/parts/p4-markets.js:885-896 | after every operation the page displays what the next edit starts from, except exactly after removing the last widget and after clearing the data of a layout that is not the default; a render repairs both |
| Editor.PageGoesBlank | platform/src/parts/p4-markets.js:774-777 | a run of four clicks after which the page is blank and the next edit starts from the default preset |
| Editor.ResetLeavesPage | platform/src/parts/p8-settings.js:209-213 | a run of two clicks after which the page shows a preset that the layout state has left |
| Editor.TableIsStuck | platform/src/parts/p4-markets.js:922-924 | on every preset, each width button of the table leaves the board unchanged |
| Editor.EditsAreDurable | platform/src/parts/p4-markets.js:880-885 | after any edit but one a reload shows the same board |
| Editor.LookingKeepsBoard | platform/src/parts/p4-markets.js:980-988 | opening the editor, drawing and reloading, any number of times, never change a board that is stored, and the page displays it |
| Editor.PickShowsLayout | platform/src/parts/p4-markets.js:689-696 | a picked layout is what is shown from then on, through reloads too, until the next edit |
| Editor.PickCustomDurableIff | platform/src/parts/p4-markets.js:662-667 | after "Your layout" a reload shows the same board iff an arrangement is stored or it equals the default |
| Editor.PickCustomForgets | platform/src/parts/p4-markets.js:662-667 | a run of three clicks after which a reload shows another board |
| Drops.DropsAreSnug | platform/src/parts/p4-markets.js:818-820 | on a good board the row a drop hits is never short of twelve with the widget in it: the slack loop does not run |
| Drops.DropLands | platform/src/parts/p4-markets.js:1041-1049 | on every reachable board a drop, moved or new, lands between exactly the widgets that stood on either side, all others in order; behind a last row of four one place earlier |
| Drops.AddIsLocal | platform/src/parts/p4-markets.js:792-822 | through saving, a palette widget added to a row of at most three stands at the place asked for, its row full, no other row changed |
| Drops.MoveKeepsRowsAbove | platform/src/parts/p4-markets.js:1041-1049 | through saving, a move leaves alone the rows above both the row the widget comes from and the row it is dropped on |
| Moves.FitIsExact | platform/src/parts/p4-markets.js:803-820 | a tile dropped on a row with no slack for it stands at its place with the width that room allows; the neighbours keep order and heights, none grows, and columns are taken evenly; of four the last moves on |
| Moves.MoveIsExact | platform/src/parts/p4-markets.js:1041-1049 | a move through saving takes the board's own tile; if the row it is dropped on stands by itself it is a row of the final board, all of it as high as the highest tile in it |
| Moves.MoveIsWhole | platform/src/parts/p4-markets.js:1041-1049 | the whole final board of a move: taken out, taken in by the row hit, packed, each row closed and levelled |
| Moves.AddIsWhole | platform/src/parts/p4-markets.js:1041-1049 | the whole final board of a palette addition, to a row of any length |
| Moves.UpwardStands | platform/src/parts/p4-markets.js:1041-1049 | a move towards the front always hits a row that stands by itself |
| Moves.MoveKeepsWidthIff | platform/src/parts/p4-markets.js:1041-1049 | a moved widget ends with exactly the width its row leaves it, and wider exactly when it comes to stand last in a row with a gap |
| Moves.MoveCanWiden | platform/src/parts/p4-markets.js:1041-1049 | a run of three clicks after which a move makes a widget wider than it was |
| Removals.WithoutIsRemoveAt | platform/src/parts/p4-markets.js:925-926 | a removal takes out the widget's own tile and hands on the others as they are |
| Removals.RemoveIsExact | platform/src/parts/p4-markets.js:925-926 | the whole final board of a removal: rows above the widget's untouched, the tiles that stay packed anew, each row closed and levelled |
| Sweep.Operator.Drain | platform/orchestrator/scripts/auto-operator-devnet.ts:204-207 | the queue loop up to its next await |
| Sweep.Operator.BeginPass | platform/orchestrator/scripts/auto-operator-devnet.ts:207-209 | a pass begins and the call waits for it with the rest of its round |
| Sweep.Operator.Sweep | platform/orchestrator/scripts/auto-operator-devnet.ts:199-204 | a trigger queues; it starts passes only if none is in flight |
| Sweep.Operator.Resume | platform/orchestrator/scripts/auto-operator-devnet.ts:207-217 | a finished or failed pass moves the call on to the next ticker, the next round or the end |
| Sweep.NeverTwoPasses | platform/orchestrator/scripts/auto-operator-devnet.ts:191-218 | under every interleaving at most one pass is in flight, and nothing is queued without one |
| Sweep.DueUntilServed | platform/orchestrator/scripts/auto-operator-devnet.ts:194-218 | a due ticker stays due until a pass of it begins |
| Sweep.TriggerIsNotLost | platform/orchestrator/scripts/auto-operator-devnet.ts:194-218 | after a trigger for a listed ticker, at any later point, a pass of it has begun since or is still due |
| Sweep.PassesAtMostTriggers | platform/orchestrator/scripts/auto-operator-devnet.ts:191-193 | passes begun plus passes due of a ticker never exceed its triggers |
| Sweep.Drains | platform/orchestrator/scripts/auto-operator-devnet.ts:204-217 | without new triggers exactly the rest of the round and one pass of each queued ticker follow, then the scheduler is idle |
| Sweep.RoundOnlyQueues | platform/orchestrator/scripts/auto-operator-devnet.ts:191-205 | within one round, triggers of any number and at any time only queue, and the round's passes run in order |
| Sweep.RoundAddsOneRound | platform/orchestrator/scripts/auto-operator-devnet.ts:191-193 | triggers anywhere within one round, mixed with its pass completions, add exactly one further round with each asked listed ticker once |
| Sweep.RoundKeepsOrder | platform/orchestrator/scripts/auto-operator-devnet.ts:205 | a round serves queued tickers in the order in which they are listed |
| Watch.Watcher.NewOrders | platform/orchestrator/scripts/auto-operator-devnet.ts:226-237 | the poll loop equals its specification: missing accounts skipped, counters remembered, a decode that throws ends it with nothing reported |
| Watch.ReportsWhatMoved | platform/orchestrator/scripts/auto-operator-devnet.ts:226-237 | a poll remembers exactly the counters read before a throw, and reports a market once iff nothing threw and its known counter moved |
| Watch.ReportsAreChanges | platform/orchestrator/scripts/auto-operator-devnet.ts:226-237 | over any run of polls, in any order of answers, a market is reported exactly as often as a reading differs from the one before in a poll that did not throw |
| Watch.ReportedIffMoved | platform/orchestrator/scripts/auto-operator-devnet.ts:220-237 | if answers come in order and none throws, a known market is reported iff its counter moved by the last reading, at most once per new order |
| Watch.LateAnswerRepeats | platform/orchestrator/scripts/auto-operator-devnet.ts:258-264 | three answers out of order report one new order three times |
| Watch.BrokenHidesOrder | platform/orchestrator/scripts/auto-operator-devnet.ts:229-235 | a counter stored by a poll that then throws is never reported |
| Watch.ReportIsSwept | platform/orchestrator/scripts/auto-operator-devnet.ts:258-264 | a reported market's pass has begun since or is still due, whatever happens next |
| Fills.BuyFillExistsIff | platform/orchestrator/scripts/auto-operator-devnet.ts:132-133 | the fill exists iff the limit is at least 2; below, the division is by zero |
| Fills.BuyFillIsTight | platform/orchestrator/scripts/auto-operator-devnet.ts:129-133 | price within the limit, cost within the deployed amount, and one more share unit would not fit |
| Fills.BuyFillAtLeast | platform/orchestrator/scripts/auto-operator-devnet.ts:129-133 | the fill reaches any minimum that fits the deployed amount at the limit over 1.02 |
| Fills.ConfirmAcceptsFill | spot/programs/marco-spot/src/instructions/confirm_buy.rs:41-63 | confirm_buy accepts the fill of every order whose minimum is within 0.98 of the deployed amount at the limit |
| Fills.FillIsConfirmedIff | spot/programs/marco-spot/src/instructions/confirm_buy.rs:43-63 | confirm_buy accepts the operator's fill iff the limit is at least 2 and the deployed amount covers one share unit and the minimum at the fill price |
| Fills.SellFillIsFair | platform/orchestrator/scripts/auto-operator-devnet.ts:151-155 | a sell fills at the limit or better and pays at least the limit's worth |
| Fills.SettleAcceptsIff | spot/programs/marco-spot/src/instructions/settle_sell.rs:28-45 | the program accepts price and proceeds iff the shares are worth at least one base unit |
| Fills.FillsAtQuote | platform/orchestrator/scripts/auto-operator-devnet.ts:131-154 | for quotes in whole base units the fill price is the quote or one unit less, and which of the two |
| Fills.QuoteOfOne | platform/orchestrator/scripts/auto-operator-devnet.ts:131-133 | at a quote of one base unit the fill price is zero and there is no fill |
| Fills.DeployableAtLeast | spot/programs/marco-spot/src/instructions/deploy_buy.rs:29-37 | after rounding and the floored spread at most half a base unit of the app's net amount is missing |
| Fills.AppBuyIsFillableIff | platform/src/parts/p5-trade.js:235-236 | for every amount, limit and spread, the app's buy is fillable iff the price does not round to zero and the amount sent on covers one share unit and the app's own minimum at it |
| Fills.MinimumIsClose | platform/src/parts/p5-trade.js:235 | the app's minimum is 0.98 of what the net amount buys at the limit, to half a share unit |
| Fills.AppBuysAreFillable | platform/src/parts/p5-trade.js:235-236 | a buy above a few base units, with the limit and minimum the app derives and rounds, is one the operator fills and confirm_buy accepts iff its limit is at least two base units |
| Fills.MarketBuysAreFillable | platform/scripts/devnet/init-spot-markets-devnet.js:59-61 | with a least order of ten USDC and a spread of at most five per cent, every buy at a limit up to 300,000 USDC is fillable iff its limit is at least two base units |
| Fills.DustBuyIsRefused | spot/programs/marco-spot/src/instructions/place_buy.rs:37-46 | a buy of 52 base units at limit 100 is let in iff the market's least order is at most that, and then cannot be filled |
| Funding.SlicesAgree | spot/programs/marco-spot/src/state.rs:205-221 | on a solvent market the operator's unreserved slice, the program's, and the true free balance are one number |
| Funding.StepKeepsSolvent | spot/programs/marco-spot/src/instructions/cancel_buy.rs:41-68 | every event keeps escrow equal to the pending buys and the account covering escrow and unswept spread, and moves the free balance by exactly what was minted, settled, sent or refunded |
| Funding.FundingConserved | platform/orchestrator/scripts/auto-operator-devnet.ts:157-176 | over every run: minted = settled + free now - free at the start, up to money from outside and failed-leg refunds |
| Funding.OpenedIsSound | spot/programs/marco-spot/src/instructions/initialize_market.rs:48-58 | a market nobody has used is solvent and its shares are backed |
| Funding.SharesConserved | spot/programs/marco-spot/src/instructions/place_sell.rs:30-34 | over every run the escrowed shares are exactly those of the pending sells, never more than are outstanding, and outstanding moves by shares bought less shares burned |
| Funding.RefundKeepsFundedIff | spot/programs/marco-spot/src/instructions/cancel_buy.rs:47-68 | a failed-leg refund keeps the sell in hand funded iff the program refuses it or what it leaves unreserved still covers the sell |
| Funding.StepKeepsFundedIff | platform/orchestrator/scripts/auto-operator-devnet.ts:162-175 | any event keeps the sell in hand funded iff it is not such a harmful refund |
| Funding.StaysFundedIff | platform/orchestrator/scripts/auto-operator-devnet.ts:157-189 | in a run the sell in hand stays funded at every point iff every failed-leg refund of the run is harmless when it comes |
| Funding.SettlementIsFundedIff | platform/orchestrator/scripts/auto-operator-devnet.ts:162-189 | after anything others do since the operator was ready, the settlement finds its proceeds unreserved iff what was free then, plus payments in, less refunds, covers them |
| FundingRuns.RefundCanTakeProceeds | spot/programs/marco-spot/src/instructions/cancel_buy.rs:47-68 | a run from an empty market, buying ten USDC of shares and selling them, in which a refund takes wired proceeds and the settlement is refused |
| FundingRuns.RetryMintsTwice | platform/orchestrator/scripts/auto-operator-devnet.ts:171-175 | a run from an empty market, buying ten USDC of shares and selling them, in which one lost confirmation makes the sell cost twice its proceeds |
| Funding.RestartsDoNotDoubleFund | platform/orchestrator/scripts/auto-operator-devnet.ts:157-161 | over every run, with any number of crashes, payments and lost confirmations, minted exceeds settled and refunded by at most one sell's worth plus the wires whose confirmation was lost |
| Funding.LostConfirmationsOverfund | platform/orchestrator/scripts/auto-operator-devnet.ts:171-175 | whatever happens between the attempts, n lost confirmations mint the shortfall n + 1 times, and the surplus stays in the free balance |
| Funding.FundedExactlyIff | platform/orchestrator/scripts/auto-operator-devnet.ts:171-175 | whatever happens between the attempts, a sell is funded by exactly its shortfall iff no confirmation is lost |
| Pass.Passer.ServeOrder | platform/orchestrator/scripts/auto-operator-devnet.ts:117-189 | one order's turn: deploy, price, confirm a pending buy; read, wire, settle a pending sell; an exception when the program refuses |
| Pass.Passer.Pass | platform/orchestrator/scripts/auto-operator-devnet.ts:112-191 | the loop over the order ids, left at the first exception |
| Pass.ServeFacts | platform/orchestrator/scripts/auto-operator-devnet.ts:117-189 | a turn throws iff the order is not servable, told from the order alone, and changes no other order |
| Pass.PassReachesIff | platform/orchestrator/scripts/auto-operator-devnet.ts:112-191 | a pass gives an order its turn iff all earlier orders are servable, changes nothing else, and ends normally iff all are |
| Pass.BlockedForever | platform/orchestrator/scripts/auto-operator-devnet.ts:177-187 | behind a pending sell that cannot settle no number of passes changes an order |
| Pass.ReachedInTime | platform/orchestrator/scripts/auto-operator-devnet.ts:117-189 | otherwise an order has its turn after at most one pass per unservable buy before it |
| Pass.BlocksIff | spot/programs/marco-spot/src/instructions/settle_sell.rs:30-45 | a sell blocks iff its shares at the fill price come to less than one base unit |
| Pass.ServedIffNotBlocked | platform/orchestrator/scripts/auto-operator-devnet.ts:112-191 | while nobody else acts, a pending order is served after some number of passes iff neither it nor an earlier order is a blocking sell |
| Pass.OneUnitBlocks | spot/programs/marco-spot/src/instructions/place_sell.rs:18-36 | a run from an empty market after which an offer of one share unit at no limit keeps a servable buy behind it from being served by any number of passes |
| Pass.PassesStopAtBlock | platform/orchestrator/scripts/auto-operator-devnet.ts:112-191 | over every run of passes with anything others do between them, deployments and confirmations by hand included, until a blocking sell is cancelled no pass changes an order behind it |
| Pass.BlockedUntilCancelled | platform/orchestrator/scripts/auto-operator-devnet.ts:112-191 | with nobody deploying or confirming by hand, until a blocking sell is cancelled no order behind it, old or new, is deployed, filled or settled |
| Pass.TurnComesInTime | platform/orchestrator/scripts/auto-operator-devnet.ts:112-191 | over every run of passes with anything others do between them, an order with no blocking sell at or in front of it has had its turn or was taken out after one pass more than there were orders in front that make a pass throw |
| PassTotals.TurnMoves | platform/orchestrator/scripts/auto-operator-devnet.ts:120-187 | a turn gives a servable buy as many shares as its net amount pays at the operator's price, no fewer and no more; burns a servable sell's shares, pays their worth and mints exactly what of it is not free; and any other order moves no total |
| PassTotals.TurnKeepsSpread | spot/programs/marco-spot/src/instructions/settle_sell.rs:40-47 | of a deployed buy's amount and of a sell's proceeds the market keeps the floored basis points of the order, and nothing else |
| PassTotals.PassMoves | platform/orchestrator/scripts/auto-operator-devnet.ts:112-190 | a whole pass buys, pays and burns exactly the sums over the orders it reaches, and mints exactly what of all the proceeds was not free at its start |
| Orders.OrdersGoForward | spot/programs/marco-spot/src/state.rs:50-80 | over every run an order keeps its terms and its status goes forward only |
| Orders.HistoryIsForward | platform/src/parts/p3b-chain.js:161-171 | every order's history on chain is one that the results about the wallet's book assume |
| Orders.TradersGetTheirs | spot/programs/marco-spot/src/instructions/confirm_buy.rs:22-29 | over every run, crashes included, shares handed out are at least the minimums of all filled buys, and proceeds paid at least the worth at their limits of all settled sells |
| TopUp.Account.MintTo | platform/orchestrator/scripts/prove-devnet.ts:223 | balance and total minted rise together |
| TopUp.Account.AttemptTopUp | platform/orchestrator/scripts/prove-devnet.ts:220-224 | one attempt: throws, finds enough, or mints exactly what is missing |
| TopUp.Account.ReturnProceeds | platform/orchestrator/scripts/prove-devnet.ts:58-74 | the retry loop with its doubling delay equals its specification |
| TopUp.RetryIsExact | platform/orchestrator/scripts/prove-devnet.ts:218-224 | from any point of the loop the missing amount is minted at most once, and once if the call returns |
| TopUp.TopUpIsExact | platform/orchestrator/scripts/prove-devnet.ts:218-224 | for every schedule of failures and lost confirmations a return leaves max(initial, gross) and mints exactly the difference; a throw mints it once or not at all |
| TopUp.ReturnsWhenConfirmed | platform/orchestrator/scripts/prove-devnet.ts:58-74 | one confirmed attempt after transient failures is enough |
| TopUp.EndsExactly | platform/orchestrator/scripts/prove-devnet.ts:58-74 | every call ends at the first attempt that gets through, the first failure that is not transient, or the seventh; it returns in the first case alone, has waited for the attempts up to there and no more, and has minted what was missing iff it returns or a wire up to there landed |
| TopUp.WaitIsBounded | platform/orchestrator/scripts/prove-devnet.ts:58-74 | the call waits at most 28 seconds in all |
| Pace.Pacer.Pace | platform/src/chain/index.js:134-140 | the wait granted and the moved cursor |
| Pace.Pacer.PaceAll | platform/src/chain/index.js:134-140 | calls in a row get the starts of the specification |
| Pace.StartsAreSpaced | platform/src/chain/index.js:134-140 | starts never precede their call and are at least 115 ms apart, in call order |
| Pace.StartsAreEarliest | platform/src/chain/index.js:134-140 | no schedule that keeps the gap starts any call earlier |
| Pace.AtMostNinePerSecond | platform/src/chain/index.js:126-132 | any half-open second holds at most nine starts, whatever the clock readings |
| Feed.WorkerPool.Work | platform/src/chain/index.js:586-590 | one worker from the top of its loop to its next fetch or its end |
| Feed.WorkerPool.StartWorkers | platform/src/chain/index.js:602 | the start of up to five workers |
| Feed.WorkerPool.Land | platform/src/chain/index.js:591-600 | a fetch resolves or fails: record, cache, next |
| Feed.StepIsSound | platform/src/chain/index.js:584-602 | each signature's slot is assigned once by one worker and never changed, and every landing leaves fewer to do |
| Feed.FeedIsDetermined | platform/src/chain/index.js:153-169 | for every schedule and every truthful cache, nulls included, a finished pool holds exactly the chain's answers, and the cache stays truthful |
| Feed.FailuresAreLocal | platform/src/chain/index.js:592-599 | for every schedule, exactly the entries whose fetch failed are null for it, every other entry handled holds the chain's answer, and nothing is newly cached but for an entry whose fetch succeeded |
| Feed.FailureIsNotCached | platform/src/chain/index.js:592-599 | a failed fetch leaves the cache as it was |
| Feed.IdleIsFinished | platform/src/chain/index.js:584-602 | at most five fetches in flight; when none is left every signature has been handled |
| Feed.FeedIsNewestFirst | platform/src/chain/index.js:604-606 | the feed is sorted by falling time and has exactly the records found |
| Feed.FeedIsWhatWasRead | platform/src/chain/index.js:606 | the feed holds each record as often as some slot holds it, and nothing else |
| Feed.SameFeed | platform/src/chain/index.js:153-169 | two complete reads show the same feed whatever their caches and schedules |
| Feed.SecondReadIsFree | platform/src/chain/index.js:153-158 | after a finished read whose decodes were all stored, nulls included, reading any of its signatures again fetches nothing |
| Book.ChainBook.CollectStill | platform/src/parts/p3b-chain.js:164-171 | the ticker-by-ticker loop equals its specification |
| Book.ChainBook.SetPositions | platform/src/parts/p3b-chain.js:158-160 | the loop equals the positions characterised by SpotIsOwned |
| Book.ChainBook.LayOver | platform/src/parts/p3b-chain.js:173-177 | the overlay loop equals its specification |
| Book.ChainBook.Load | platform/src/parts/p3b-chain.js:151-177 | whole new book from the reads; a failed balance read changes nothing |
| Book.SpotIsOwned | platform/src/parts/p3b-chain.js:158-160 | a market has a position iff the wallet holds tokens of it; the size is the tokens, the average their cost, or the mark when no cost is known |
| Book.StillIsKept | platform/src/parts/p3b-chain.js:164-172 | what stays pending is exactly the trades not known to have landed, each as often as before |
| Book.StaysIff | platform/src/parts/p3b-chain.js:164-172 | a trade leaves pending iff its order was read and is filled, settled or cancelled, and is then in no later overlay |
| Book.OverlayAdds | platform/src/parts/p3b-chain.js:173-177 | the overlay adds exactly the pending sizes, exactly the pending usdc to size x average cost, and exactly the pending proceeds to cash |
| Book.OverlayIgnoresOrder | platform/src/parts/p3b-chain.js:173-177 | the book does not depend on the order of the pending trades |
| Book.DoubleCountedIff | platform/src/parts/p3b-chain.js:161-171 | an order already in the balances is laid over them iff its status read failed or did not find it |
| Book.CountedOnceIff | platform/src/parts/p3b-chain.js:154-172 | an order not cancelled is counted exactly once iff it did not land between the balance read and its status read, or, with that read failed, had not landed by the balance read |
| Book.FailedReadCountsTwice | platform/src/parts/p3b-chain.js:167-176 | a filled buy with a failed status read doubles its position |
| Book.LandedBetweenReads | platform/src/parts/p3b-chain.js:154-172 | a buy pending at the balance read and filled at its status read is counted not at all |
| Book.NextLoadCountsOnce | platform/src/parts/p3b-chain.js:164-172 | a trade dropped because it was found landed is in no later overlay and in the balances of every later snapshot |
| Book.NoDoubleCounting | platform/src/parts/p3b-chain.js:161-171 | with forward-only statuses and successful reads no order is in the balances and in the overlay, under any interleaving of fills |
| Trade.SimBook.Execute | platform/src/parts/p5-trade.js:208-279 | the simulated trade equals its specification; refused amounts change nothing |
| Trade.RefusedIff | platform/src/parts/p5-trade.js:210 | an order leaves the book as it was iff it is for nothing or for more than the cash or the holding is worth, give or take a billionth |
| Trade.BuysWithinCash | platform/src/parts/p5-trade.js:208-279 | a buy that cash covers pays its whole amount and brings what is left after a quarter of a per cent at 7.5 basis points above the mid; no buy takes cash below zero by more than a billionth |
| Trade.SellsWithinHolding | platform/src/parts/p5-trade.js:208-279 | a sell within the holding pays its whole amount less a quarter of a per cent and takes the size worth it at 7.5 basis points below the mid |
| Trade.ExecIsLocal | platform/src/parts/p5-trade.js:274-279 | no other position changes and sizes stay non-negative |
| Trade.TradeCosts | platform/src/parts/p5-trade.js:274-279 | at a fixed mid a trade lowers cash plus mark value by exactly fee, spread on the traded size, and dropped dust |
| Trade.TicketIsHonestIff | platform/src/parts/p5-trade.js:138-149 | the spread charged is the ticket's iff a sell does not ask for more than is held |
| Trade.ExecConserves | platform/src/parts/p5-trade.js:274-279 | one order conserves cash + cost basis + fees - realised profit + dropped basis |
| Trade.TradingConserves | platform/src/parts/p5-trade.js:208-279 | so does any sequence of orders at any prices, refused ones included |
| Webhooks.WebhookIngest.Claim | platform/orchestrator/src/adapters/store/memory.ts:321-325 | a claim succeeds once per key |
| Webhooks.WebhookIngest.Wake | platform/orchestrator/src/api/webhooks.ts:104-131 | which intent is woken, and that it alone changes |
| Webhooks.WebhookIngest.Ingest | platform/orchestrator/src/api/webhooks.ts:70-99 | the batch loop equals its specification: counters, woken ids, store, with a clock reading of its own for each wake |
| Webhooks.WakeIsLocal | platform/orchestrator/src/api/webhooks.ts:108-131 | a wake sets the next attempt and raises the version of its target, if that waits or runs; its state and the rest, and every other intent, stay |
| Webhooks.IngestOneIsLocal | platform/orchestrator/src/api/webhooks.ts:75-95 | a claimed key counts as a duplicate and changes nothing; a new one is claimed and accepted, and its intent alone woken and listed |
| Webhooks.StemIsBeforeDot | platform/orchestrator/src/api/webhooks.ts:108 | an id without a dot, alone or with a dot and anything behind it, comes back whole |
| Webhooks.KeysAreExact | platform/orchestrator/src/domain/ids.ts:150-152 | two deliveries share a key iff source and delivery id agree |
| Webhooks.ReplayIsInert | platform/orchestrator/src/api/webhooks.ts:75-91 | replaying a batch changes nothing and counts every event as a duplicate |
| Webhooks.AloneIsSequential | platform/orchestrator/src/api/webhooks.ts:70-131 | a call that is never interrupted equals the sequential ingest |
| Webhooks.StepIsSound | platform/orchestrator/src/api/webhooks.ts:70-131 | every step of any call or other writer keeps each key accepted at most once, counters equal to events processed, and versions rising |
| Webhooks.AcceptedOnce | platform/orchestrator/src/api/webhooks.ts:75-99 | the same over every interleaving of concurrent and replayed ingests |
| Webhooks.CountsAddUp | platform/orchestrator/src/api/webhooks.ts:71-99 | a call that ran through has accepted + duplicates equal to its batch |
| Webhooks.WakesAreCompareAndSwap | platform/orchestrator/src/adapters/store/memory.ts:128-141 | a call changes intents only by waking one, waiting or running, that is exactly the one it read: next attempt now, version one higher, state and rest as they were, every other intent equal |
| Webhooks.WakeIsStoredIff | platform/orchestrator/src/api/webhooks.ts:113-126 | a wake that has read its intent is stored iff nobody saved the intent since; otherwise the call throws and nothing changes |
| Webhooks.WakeIsLostIff | platform/orchestrator/src/adapters/store/memory.ts:150-154 | after a wake that has read its intent, the intent is not due at a later time iff another writer saved it first and left it not due |
| Webhooks.LostRaceLosesWake | platform/orchestrator/src/api/webhooks.ts:76-126 | after a lost version race the redelivery is a duplicate |
| Webhooks.WakeCanBeLost | platform/orchestrator/src/api/webhooks.ts:76-126 | a run from an empty store, with an intent as the watcher and the runner write it, that ends with the intent put off, not due when the wake would have made it so, and the redelivery dropped |

## Left out

- Rendering, drag geometry (`dropIndex`), the DOM and animation of the editor: user interface; a drop is a widget and an index.
- Storage that throws and malformed stored layouts: a stored arrangement is one the editor wrote, or none.
- Aliasing inside the editor's nested arrays: rows are sequences of values; "this tile" is a position, which the methods track where the code compares objects.
- The u64 overflow checks, roles and eligibility of the spot program: environment; its amounts are unbounded naturals.
- Which trader holds which shares: a sell is refused above the shares not in escrow, whoever holds them.
- Funding and the concurrent part of Webhooks are state machines on values, not classes: several actors act on one account or store, and the point is their interleaving.
- The operator's two reads before funding are taken as one consistent read, and its order and signature documents are not modelled.
- Retry classification around the operator's other RPC calls, and an order left deployed by a crash: the code does not resume it, so only safety is claimed.
- Pass.PassReachesIff: takes a pass with nobody else acting on the market, so orders placed, cancelled or read as missing while it runs are not part of it; others act between passes, and in Funding between the steps of a sell.
- Orders.TradersGetTheirs: leaves out a settlement made by hand on other terms, which the program does not compare with the shares' price.
- Pass.BlockedUntilCancelled: leaves out a settlement made by hand on other terms, which the program does not compare with the shares' price, and acts inside a pass.
- The websocket trigger and the timers of the operator: each is a trigger that may come at any time.
- `myHistory`'s worker pool: the same shape as `recentDeposits`. Vault synchronisation and account subscriptions: plumbing.
- Sleeping exactly as long as asked, and a fixed answer per signature, are assumed of the browser and the chain.
- IEEE rounding in Book, Trade and the app's order amounts: reals are used; rounding to base units is modelled.
- The chain branch of `exec`, order rows and toasts, and `exec` running while the book loads.
- A blank board's palette, and decorations of cards that are not displayed: user interface.
- The webhook's signature and replay-window gates, logging, and the `updatedAt` field of a saved intent.
- Price feeds, gauges, order book art and other illustrative data: nothing to prove.
