// Runs of the funded market from its very start, within the limits of the
// markets the app trades, that end in the ways a sell can go wrong.
module FundingRuns {
  import opened Fills
  import opened Funding

  /** Ten USDC at a quote of one, on a market without spread and with the smallest minimum, and its fill. */
  const PLACE := PlaceBuy(10 * UNIT, 1_020_000, 1, 0)
  const BUY := Order(true, 10 * UNIT, 1_020_000, 1, 0, Pending, 0)

  /** The ten shares sold again at the same quote. */
  const OFFER := PlaceSell(10 * UNIT, 980_000, 0)
  const SELL := Order(false, 10 * UNIT, 980_000, 0, 0, Pending, 0)

  /** A buy placed, deployed and confirmed. */
  const FILLED := [PLACE] + [DeployBuy(0)] + [ConfirmBuy(0, 10 * UNIT, UNIT)]

  /** An idle market with nothing in its account. */
  function Quiet(shares: nat, sharesEscrowed: nat, bought: nat, orders: seq<Order>): World {
    World(EMPTY.m.(shares := shares, sharesEscrowed := sharesEscrowed, orders := orders), Idle,
          EMPTY.t.(bought := bought))
  }

  /** Placing and deploying a buy leaves the account as it was: all of it is sent on. */
  lemma {:induction false} BuyGoesOut(shares: nat, bought: nat, orders: seq<Order>)
    ensures var w := Quiet(shares, 0, bought, orders);
      Step(Step(w, PLACE), DeployBuy(|orders|)) == Quiet(shares, 0, bought, orders + [BUY.(status := Deployed)])
  {
    var w := Quiet(shares, 0, bought, orders);
    var placed := Step(w, PLACE);
    assert placed.m.orders == orders + [BUY] && placed.m.balance == placed.m.escrowed == 10 * UNIT;
    assert SpreadOn(10 * UNIT, 0) == 0;
    assert (orders + [BUY])[|orders| := BUY.(status := Deployed)] == orders + [BUY.(status := Deployed)];
  }

  lemma {:induction false} BuyIsFilled(orders: seq<Order>)
    requires orders == [BUY.(status := Deployed)]
    ensures Step(Quiet(0, 0, 0, orders), ConfirmBuy(0, 10 * UNIT, UNIT))
         == Quiet(10 * UNIT, 0, 10 * UNIT, [BUY.(status := Filled)])
    ensures FillBuy(10 * UNIT, 1_020_000) == BuyFill(UNIT, 10 * UNIT)
  {
    assert orders[0 := BUY.(status := Filled)] == [BUY.(status := Filled)];
  }

  lemma {:induction false} FilledWorld()
    ensures Run(EMPTY, FILLED) == Quiet(10 * UNIT, 0, 10 * UNIT, [BUY.(status := Filled)])
  {
    var first := [PLACE];
    RunSnoc(EMPTY, [], PLACE);
    assert [] + first == first;
    RunSnoc(EMPTY, first, DeployBuy(0));
    RunSnoc(EMPTY, first + [DeployBuy(0)], ConfirmBuy(0, 10 * UNIT, UNIT));
    assert EMPTY == Quiet(0, 0, 0, []);
    BuyGoesOut(0, 0, []);
    assert [] + [BUY.(status := Deployed)] == [BUY.(status := Deployed)];
    BuyIsFilled([BUY.(status := Deployed)]);
  }

  /** Selling the shares on a market that holds nothing: the whole ten USDC are short. */
  lemma {:induction false} SellIsShort(orders: seq<Order>)
    ensures var w := Quiet(10 * UNIT, 0, 10 * UNIT, orders);
      var listed := Quiet(10 * UNIT, 10 * UNIT, 10 * UNIT, orders + [SELL]);
      && Step(w, OFFER) == listed
      && Step(listed, Read(|orders|)) == listed.(phase := Minting(|orders|, 10 * UNIT, 10 * UNIT))
  {
    assert ProceedsOf(SELL) == 10 * UNIT;
    assert (orders + [SELL])[|orders|] == SELL;
  }

  // ---------- a refund takes the proceeds ----------

  /** A second buy goes out, then the shares of the first are sold and the proceeds wired. */
  const WIRED := FILLED + [PLACE] + [DeployBuy(1)] + [OFFER] + [Read(2)] + [MintConfirmed]

  const TRADED := [BUY.(status := Filled), BUY.(status := Deployed), SELL]

  lemma {:induction false} TwoBuys()
    ensures Run(EMPTY, FILLED + [PLACE] + [DeployBuy(1)])
         == Quiet(10 * UNIT, 0, 10 * UNIT, [BUY.(status := Filled), BUY.(status := Deployed)])
  {
    FilledWorld();
    RunSnoc(EMPTY, FILLED, PLACE);
    RunSnoc(EMPTY, FILLED + [PLACE], DeployBuy(1));
    var orders := [BUY.(status := Filled)];
    BuyGoesOut(10 * UNIT, 10 * UNIT, orders);
    assert orders + [BUY.(status := Deployed)] == [BUY.(status := Filled), BUY.(status := Deployed)];
  }

  lemma {:induction false} WiredWorld()
    ensures var quiet := Quiet(10 * UNIT, 10 * UNIT, 10 * UNIT, TRADED);
      Run(EMPTY, WIRED) == World(quiet.m.(balance := 10 * UNIT), Settling(2, 10 * UNIT),
                                 quiet.t.(minted := 10 * UNIT))
  {
    TwoBuys();
    var es := FILLED + [PLACE] + [DeployBuy(1)];
    var orders := [BUY.(status := Filled), BUY.(status := Deployed)];
    SellIsShort(orders);
    assert orders + [SELL] == TRADED;
    RunSnoc(EMPTY, es, OFFER);
    RunSnoc(EMPTY, es + [OFFER], Read(2));
    RunSnoc(EMPTY, es + [OFFER] + [Read(2)], MintConfirmed);
  }

  lemma {:induction false} RefundTakes(w: World)
    requires w.m.balance == 10 * UNIT && w.m.escrowed == w.m.collected == w.m.swept == 0
    requires w.m.orders == TRADED && w.phase == Settling(2, 10 * UNIT)
    ensures Funded(w) && !RefundIsHarmless(w, 1)
    ensures var after := Step(w, CancelDeployed(1));
      && !Funded(after) && after.phase == w.phase
      && Step(after, Settle) == after.(phase := Idle) && Is(after.m, 2, false, Pending)
  {
    var after := Step(w, CancelDeployed(1));
    assert after.m.balance == 0;
    assert after.m.orders[2] == SELL;
  }

  /** Refunding the second buy now takes the wired proceeds: the program refuses to settle, the sell stays pending. */
  lemma {:induction false} RefundCanTakeProceeds()
    ensures var wired := Run(EMPTY, WIRED);
      && wired.phase == Settling(2, 10 * UNIT) && Funded(wired) && !RefundIsHarmless(wired, 1)
    ensures var after := Run(EMPTY, WIRED + [CancelDeployed(1)]);
      var end := Run(EMPTY, WIRED + [CancelDeployed(1)] + [Settle]);
      !Funded(after) && end == after.(phase := Idle) && Is(end.m, 2, false, Pending)
  {
    WiredWorld();
    RefundTakes(Run(EMPTY, WIRED));
    RunSnoc(EMPTY, WIRED, CancelDeployed(1));
    RunSnoc(EMPTY, WIRED + [CancelDeployed(1)], Settle);
  }

  // ---------- a retry mints twice ----------

  /** The shares are sold, and the wire is confirmed only at the second try. */
  const RETRIED := FILLED + [OFFER] + [Read(1)] + [MintUnconfirmed] + [MintConfirmed]

  lemma {:induction false} ShortWorld()
    ensures Run(EMPTY, FILLED + [OFFER] + [Read(1)])
         == Quiet(10 * UNIT, 10 * UNIT, 10 * UNIT, [BUY.(status := Filled), SELL])
              .(phase := Minting(1, 10 * UNIT, 10 * UNIT))
  {
    FilledWorld();
    SellIsShort([BUY.(status := Filled)]);
    assert [BUY.(status := Filled)] + [SELL] == [BUY.(status := Filled), SELL];
    RunSnoc(EMPTY, FILLED, OFFER);
    RunSnoc(EMPTY, FILLED + [OFFER], Read(1));
  }

  lemma {:induction false} RetriedWorld()
    ensures var quiet := Quiet(10 * UNIT, 10 * UNIT, 10 * UNIT, [BUY.(status := Filled), SELL]);
      Run(EMPTY, RETRIED) == World(quiet.m.(balance := 20 * UNIT), Settling(1, 10 * UNIT),
                                   quiet.t.(minted := 20 * UNIT))
  {
    ShortWorld();
    var es := FILLED + [OFFER] + [Read(1)];
    RunSnoc(EMPTY, es, MintUnconfirmed);
    RunSnoc(EMPTY, es + [MintUnconfirmed], MintConfirmed);
  }

  lemma {:induction false} SellSettles(w: World)
    requires w.m.balance == 20 * UNIT && w.m.escrowed == w.m.collected == w.m.swept == 0
    requires w.m.orders == [BUY.(status := Filled), SELL] && w.phase == Settling(1, 10 * UNIT)
    ensures var end := Step(w, Settle);
      && end.m.balance == Unreserved(end.m) == 10 * UNIT && end.phase == Idle
      && Is(end.m, 1, false, Settled) && end.t.minted == w.t.minted && end.t.settled == w.t.settled + 10 * UNIT
  {
    assert SellPrice(980_000) == UNIT && SpreadOn(10 * UNIT, 0) == 0;
    assert w.m.orders[1] == SELL;
  }

  /** The sell of ten USDC has cost twenty; the other ten stay in the account. */
  lemma {:induction false} RetryMintsTwice()
    ensures var end := Run(EMPTY, RETRIED + [Settle]);
      && end.t.minted == 20 * UNIT && end.t.settled == 10 * UNIT && end.phase == Idle
      && end.m.balance == Unreserved(end.m) == 10 * UNIT && Is(end.m, 1, false, Settled)
  {
    RetriedWorld();
    SellSettles(Run(EMPTY, RETRIED));
    RunSnoc(EMPTY, RETRIED, Settle);
  }

  // ---------- one share unit for nothing ----------

  /** A holder offers one share unit at no limit, and somebody buys after that. */
  const OFFERED := FILLED + [PlaceSell(1, 0, 0)] + [PLACE]

  lemma {:induction false} OfferedWorld()
    ensures var w := Run(EMPTY, OFFERED);
      && w.phase == Idle && Solvent(w.m)
      && w.m.orders == [BUY.(status := Filled), Order(false, 1, 0, 0, 0, Pending, 0), BUY]
  {
    FilledWorld();
    OpenedIsSound(EMPTY.m.minOrder, EMPTY.m.maxOrder);
    FundingConserved(EMPTY, OFFERED);
    RunSnoc(EMPTY, FILLED, PlaceSell(1, 0, 0));
    RunSnoc(EMPTY, FILLED + [PlaceSell(1, 0, 0)], PLACE);
    var one := [BUY.(status := Filled)] + [Order(false, 1, 0, 0, 0, Pending, 0)];
    assert Run(EMPTY, FILLED + [PlaceSell(1, 0, 0)]).m.orders == one;
    assert one + [BUY] == [BUY.(status := Filled), Order(false, 1, 0, 0, 0, Pending, 0), BUY];
  }
}
