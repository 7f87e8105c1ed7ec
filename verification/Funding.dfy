// How the auto-operator funds sells: it reads the market, mints only what is
// missing, and settles. The market's USDC account pools pending buys' escrow,
// unswept spread and returned proceeds; traders, the admin and crashes may act
// between any two of the operator's steps.
module Funding {
  import opened Fills

  datatype Status = Pending | Deployed | Filled | Settled | Cancelled

  /** amount is the gross USDC of a buy, the share units of a sell; only a buy has a minimum. */
  datatype Order = Order(isBuy: bool, amount: nat, limit: nat, minShares: nat, bps: nat, status: Status, feePaid: nat)

  /**
   * balance is the pooled account; shares is total_shares_outstanding, of which
   * sharesEscrowed stand in pending sells and the rest are in the traders' hands.
   */
  datatype Market = Market(
    balance: nat, escrowed: nat, collected: nat, swept: nat, shares: nat, sharesEscrowed: nat,
    minOrder: nat, maxOrder: nat, orders: seq<Order>)

  /** Where the operator stands with one sell. */
  datatype Phase =
    | Idle
    | Minting(id: nat, proceeds: nat, shortfall: nat)  // market and balance read, wire not yet confirmed
    | Settling(id: nat, proceeds: nat)                 // proceeds believed present

  /** Running totals, for the statements only. */
  datatype Totals = Totals(minted: nat, settled: nat, sent: nat, refunded: int, bought: nat, burned: nat)

  datatype World = World(m: Market, phase: Phase, t: Totals)

  /** A market nobody has used yet, with its least and greatest order. */
  function Opened(minOrder: nat, maxOrder: nat): World {
    World(Market(0, 0, 0, 0, 0, 0, minOrder, maxOrder, []), Idle, Totals(0, 0, 0, 0, 0, 0))
  }

  /** With the limits of the markets the app trades. */
  const EMPTY := Opened(MIN_ORDER, 500_000 * UNIT)

  datatype Event =
    | PlaceBuy(gross: nat, limit: nat, minShares: nat, bps: nat)
    | PlaceSell(shares: nat, limit: nat, bps: nat)
    | DeployBuy(id: nat)
    | ConfirmBuy(id: nat, shares: nat, price: nat)
    | CancelPending(id: nat)
    | CancelDeployed(id: nat)
    | CancelSell(id: nat)
    | SweepFee(amount: nat)
    | SendUsdc(amount: nat)        // anyone can pay into the account
    | Read(id: nat)                // the operator turns to a pending sell and reads
    | MintConfirmed
    | MintUnconfirmed              // the wire lands but its confirmation is lost; the same amount is retried
    | Settle
    | Crash
    | CrashAfterWire               // the wire lands, the operator dies before it learns so

  function SatSub(a: nat, b: nat): nat { if a > b then a - b else 0 }

  function Outstanding(m: Market): nat { SatSub(m.collected, m.swept) }

  /** The program's unreserved_usdc. */
  function Unreserved(m: Market): nat { SatSub(SatSub(m.balance, m.escrowed), Outstanding(m)) }

  /** The operator's own computation of the same slice, from the raw fields. */
  function OperatorUnreserved(m: Market): nat {
    var reserved: int := m.escrowed + m.collected - m.swept;
    if m.balance > reserved then m.balance - reserved else 0
  }

  function Shortfall(m: Market, proceeds: nat): nat {
    if proceeds > OperatorUnreserved(m) then proceeds - OperatorUnreserved(m) else 0
  }

  predicate Is(m: Market, id: nat, isBuy: bool, status: Status) {
    id < |m.orders| && m.orders[id].isBuy == isBuy && m.orders[id].status == status
  }

  function WithStatus(m: Market, id: nat, status: Status): Market
    requires id < |m.orders|
  {
    m.(orders := m.orders[id := m.orders[id].(status := status)])
  }

  /** Proceeds of a sell at the operator's price. */
  function ProceedsOf(o: Order): nat { SellProceeds(o.amount, o.limit) }

  /** confirm_buy's checks. */
  predicate CanConfirm(m: Market, id: nat, shares: nat, price: nat) {
    && Is(m, id, true, Deployed)
    && m.orders[id].feePaid <= m.orders[id].amount
    && ConfirmAccepts(shares, price, m.orders[id].limit, m.orders[id].minShares,
                      m.orders[id].amount - m.orders[id].feePaid)
  }

  /** The spread a refund gives back: what was taken, as far as it is not swept. */
  function Reversed(m: Market, o: Order): (back: nat)
    ensures back <= m.collected
  {
    if Outstanding(m) < o.feePaid then Outstanding(m) else o.feePaid
  }

  /** settle_sell's checks at the operator's price. */
  predicate CanSettle(m: Market, id: nat, proceeds: nat) {
    && Is(m, id, false, Pending)
    && SettleAccepts(proceeds, SellPrice(m.orders[id].limit), m.orders[id].limit, m.orders[id].bps)
    && Unreserved(m) >= proceeds
  }

  /** A refused instruction leaves everything as it was; the operator's pass then gives up the sell. */
  function Step(w: World, e: Event): World {
    var m, t := w.m, w.t;
    match e
    case PlaceBuy(gross, limit, minShares, bps) =>
      if !PlaceAccepts(gross, limit, minShares, m.minOrder, m.maxOrder) || bps > 500 then w
      else w.(m := m.(balance := m.balance + gross, escrowed := m.escrowed + gross,
                      orders := m.orders + [Order(true, gross, limit, minShares, bps, Pending, 0)]))
    case PlaceSell(shares, limit, bps) =>
      if shares == 0 || m.sharesEscrowed + shares > m.shares || bps > 500 then w
      else w.(m := m.(sharesEscrowed := m.sharesEscrowed + shares,
                      orders := m.orders + [Order(false, shares, limit, 0, bps, Pending, 0)]))
    case DeployBuy(id) =>
      if !Is(m, id, true, Pending) then w
      else
        var o := m.orders[id];
        var fee := SpreadOn(o.amount, o.bps);
        if fee >= o.amount || o.amount - fee > m.balance then w
        else w.(m := m.(balance := m.balance - (o.amount - fee), escrowed := SatSub(m.escrowed, o.amount),
                        collected := m.collected + fee,
                        orders := m.orders[id := o.(status := Deployed, feePaid := fee)]))
    case ConfirmBuy(id, shares, price) =>
      if !CanConfirm(m, id, shares, price) then w
      else w.(m := WithStatus(m.(shares := m.shares + shares), id, Filled), t := t.(bought := t.bought + shares))
    case CancelPending(id) =>
      if !Is(m, id, true, Pending) then w
      else
        var released := m.(escrowed := SatSub(m.escrowed, m.orders[id].amount));
        if Unreserved(released) < m.orders[id].amount then w
        else w.(m := WithStatus(released.(balance := m.balance - m.orders[id].amount), id, Cancelled))
    case CancelDeployed(id) =>
      if !Is(m, id, true, Deployed) then w
      else
        var o := m.orders[id];
        var released := m.(collected := m.collected - Reversed(m, o));
        if Unreserved(released) < o.amount then w
        else w.(m := released.(balance := m.balance - o.amount,
                               orders := m.orders[id := o.(status := Cancelled, feePaid := 0)]),
                t := t.(refunded := t.refunded + o.amount - Reversed(m, o)))
    case CancelSell(id) =>
      if !Is(m, id, false, Pending) then w
      else w.(m := WithStatus(m.(sharesEscrowed := SatSub(m.sharesEscrowed, m.orders[id].amount)), id, Cancelled))
    case SweepFee(amount) =>
      if amount == 0 || amount > Outstanding(m) || amount > m.balance then w
      else w.(m := m.(balance := m.balance - amount, swept := m.swept + amount))
    case SendUsdc(amount) =>
      w.(m := m.(balance := m.balance + amount), t := t.(sent := t.sent + amount))
    case Read(id) =>
      if !w.phase.Idle? || !Is(m, id, false, Pending) then w
      else
        var proceeds := ProceedsOf(m.orders[id]);
        if Shortfall(m, proceeds) > 0 then w.(phase := Minting(id, proceeds, Shortfall(m, proceeds)))
        else w.(phase := Settling(id, proceeds))
    case MintConfirmed =>
      if !w.phase.Minting? then w
      else World(m.(balance := m.balance + w.phase.shortfall), Settling(w.phase.id, w.phase.proceeds),
                 t.(minted := t.minted + w.phase.shortfall))
    case MintUnconfirmed =>
      if !w.phase.Minting? then w
      else w.(m := m.(balance := m.balance + w.phase.shortfall), t := t.(minted := t.minted + w.phase.shortfall))
    case Settle =>
      if !w.phase.Settling? then w
      else if !CanSettle(m, w.phase.id, w.phase.proceeds) then w.(phase := Idle)
      else
        var o := m.orders[w.phase.id];
        var fee := SpreadOn(w.phase.proceeds, o.bps);
        World(WithStatus(m.(balance := m.balance - (w.phase.proceeds - fee), collected := m.collected + fee,
                            shares := SatSub(m.shares, o.amount),
                            sharesEscrowed := SatSub(m.sharesEscrowed, o.amount)),
                         w.phase.id, Settled),
              Idle, t.(settled := t.settled + w.phase.proceeds, burned := t.burned + o.amount))
    case Crash => w.(phase := Idle)
    case CrashAfterWire =>
      if !w.phase.Minting? then w
      else World(m.(balance := m.balance + w.phase.shortfall), Idle, t.(minted := t.minted + w.phase.shortfall))
  }

  function Run(w: World, es: seq<Event>): World
    decreases |es|
  {
    if es == [] then w else Run(Step(w, es[0]), es[1..])
  }

  /** Only placing an order adds one. */
  lemma {:induction false} StepKeepsCount(w: World, e: Event)
    requires !e.PlaceBuy? && !e.PlaceSell?
    ensures |Step(w, e).m.orders| == |w.m.orders|
  {
  }

  // ---------- the pool stays solvent ----------

  /** The amounts of all pending orders of one side: gross USDC of buys, or shares of sells. */
  ghost function PendingSum(orders: seq<Order>, isBuy: bool): nat {
    if orders == [] then 0
    else
      (if orders[0].isBuy == isBuy && orders[0].status == Pending then orders[0].amount else 0)
        + PendingSum(orders[1..], isBuy)
  }

  /** Escrow is exactly the pending buys, sweeps never pass what was earned, and both are covered. */
  ghost predicate Solvent(m: Market) {
    && m.escrowed == PendingSum(m.orders, true)
    && m.swept <= m.collected
    && m.balance >= m.escrowed + (m.collected - m.swept)
    && forall k :: 0 <= k < |m.orders| ==>
         m.orders[k].amount > 0 && m.orders[k].bps <= 500 && m.orders[k].feePaid <= m.orders[k].amount
  }

  /** What the account holds beyond its obligations. */
  ghost function Free(m: Market): int { m.balance - m.escrowed - (m.collected - m.swept) }

  lemma {:induction false} PendingPlus(orders: seq<Order>, o: Order, isBuy: bool)
    ensures PendingSum(orders + [o], isBuy) == PendingSum(orders, isBuy) + PendingSum([o], isBuy)
  {
    if orders == [] {
      assert orders + [o] == [o];
    } else {
      assert (orders + [o])[1..] == orders[1..] + [o];
      PendingPlus(orders[1..], o, isBuy);
    }
  }

  lemma {:induction false} PendingUpdate(orders: seq<Order>, id: nat, o: Order, isBuy: bool)
    requires id < |orders|
    ensures PendingSum(orders[id := o], isBuy) + PendingSum([orders[id]], isBuy)
         == PendingSum(orders, isBuy) + PendingSum([o], isBuy)
  {
    assert [orders[id]][1..] == [] && [o][1..] == [];
    if id == 0 {
      assert orders[0 := o][1..] == orders[1..];
    } else {
      assert orders[id := o][1..] == orders[1..][id-1 := o];
      PendingUpdate(orders[1..], id - 1, o, isBuy);
    }
  }

  lemma {:induction false} PendingOne(o: Order, isBuy: bool)
    ensures PendingSum([o], isBuy) == if o.isBuy == isBuy && o.status == Pending then o.amount else 0
  {
    assert [o][1..] == [];
  }

  lemma {:induction false} PendingHas(orders: seq<Order>, id: nat, isBuy: bool)
    requires id < |orders|
    ensures PendingSum([orders[id]], isBuy) <= PendingSum(orders, isBuy)
  {
    PendingUpdate(orders, id, orders[id].(isBuy := !isBuy), isBuy);
    PendingOne(orders[id].(isBuy := !isBuy), isBuy);
  }

  /** On a solvent market the program's and the operator's slices are the same, and are the free balance. */
  lemma {:induction false} SlicesAgree(m: Market)
    requires Solvent(m)
    ensures Unreserved(m) == OperatorUnreserved(m) == Free(m)
  {
  }

  /** How one event moves the free balance. */
  ghost function Moved(before: Totals, after: Totals): int {
    (after.minted - before.minted) - (after.settled - before.settled)
      + (after.sent - before.sent) - (after.refunded - before.refunded)
  }

  lemma {:induction false} OrderStep(w: World, id: nat, o: Order, isBuy: bool)
    requires id < |w.m.orders|
    ensures var was := w.m.orders[id];
      && PendingSum(w.m.orders[id := o], isBuy) == PendingSum(w.m.orders, isBuy)
           - (if was.isBuy == isBuy && was.status == Pending then was.amount else 0)
           + (if o.isBuy == isBuy && o.status == Pending then o.amount else 0)
      && (was.isBuy == isBuy && was.status == Pending ==> was.amount <= PendingSum(w.m.orders, isBuy))
  {
    PendingUpdate(w.m.orders, id, o, isBuy);
    PendingOne(w.m.orders[id], isBuy);
    PendingOne(o, isBuy);
    PendingHas(w.m.orders, id, isBuy);
  }

  lemma {:induction false} SpreadBelow(amount: nat, bps: nat)
    requires bps <= 500
    ensures SpreadOn(amount, bps) <= amount
  {
    assert amount * bps <= amount * 10_000;
    FloorIsGreatest(amount * bps, 10_000, SpreadOn(amount, bps));
  }

  ghost predicate StepSound(w: World, e: Event) {
    Solvent(Step(w, e).m) && Free(Step(w, e).m) == Free(w.m) + Moved(w.t, Step(w, e).t)
  }

  lemma {:induction false} PlaceIsSound(w: World, e: Event)
    requires Solvent(w.m) && (e.PlaceBuy? || e.PlaceSell?)
    ensures StepSound(w, e)
  {
    var o := if e.PlaceBuy? then Order(true, e.gross, e.limit, e.minShares, e.bps, Pending, 0)
             else Order(false, e.shares, e.limit, 0, e.bps, Pending, 0);
    PendingPlus(w.m.orders, o, true);
    PendingOne(o, true);
  }

  lemma {:induction false} DeployIsSound(w: World, id: nat)
    requires Solvent(w.m)
    ensures StepSound(w, DeployBuy(id))
  {
    if Is(w.m, id, true, Pending) {
      var o := w.m.orders[id];
      SpreadBelow(o.amount, o.bps);
      OrderStep(w, id, o.(status := Deployed, feePaid := SpreadOn(o.amount, o.bps)), true);
    }
  }

  lemma {:induction false} ConfirmIsSound(w: World, id: nat, shares: nat, price: nat)
    requires Solvent(w.m)
    ensures StepSound(w, ConfirmBuy(id, shares, price))
  {
    if CanConfirm(w.m, id, shares, price) {
      OrderStep(w, id, w.m.orders[id].(status := Filled), true);
    }
  }

  lemma {:induction false} CancelIsSound(w: World, id: nat)
    requires Solvent(w.m)
    ensures StepSound(w, CancelPending(id))
  {
    if Is(w.m, id, true, Pending) {
      OrderStep(w, id, w.m.orders[id].(status := Cancelled), true);
    }
  }

  lemma {:induction false} CancelSellIsSound(w: World, id: nat)
    requires Solvent(w.m)
    ensures StepSound(w, CancelSell(id))
  {
    if Is(w.m, id, false, Pending) {
      OrderStep(w, id, w.m.orders[id].(status := Cancelled), true);
    }
  }

  /** The operator's read and its wires leave the orders alone. */
  lemma {:induction false} WireIsSound(w: World, e: Event)
    requires Solvent(w.m) && (e.MintConfirmed? || e.MintUnconfirmed? || e.CrashAfterWire?)
    ensures StepSound(w, e)
  {
  }

  lemma {:induction false} ReadIsSound(w: World, e: Event)
    requires Solvent(w.m) && (e.Read? || e.Crash?)
    ensures StepSound(w, e)
  {
    assert Step(w, e).m == w.m && Step(w, e).t == w.t;
  }

  lemma {:induction false} TransferIsSound(w: World, e: Event)
    requires Solvent(w.m) && (e.SweepFee? || e.SendUsdc?)
    ensures StepSound(w, e)
  {
  }

  lemma {:induction false} RefundIsSound(w: World, id: nat)
    requires Solvent(w.m)
    ensures StepSound(w, CancelDeployed(id))
    ensures Step(w, CancelDeployed(id)).t.refunded >= w.t.refunded
  {
    if Is(w.m, id, true, Deployed) {
      OrderStep(w, id, w.m.orders[id].(status := Cancelled, feePaid := 0), true);
    }
  }

  lemma {:induction false} SettleIsSound(w: World)
    requires Solvent(w.m)
    ensures StepSound(w, Settle)
  {
    if w.phase.Settling? && CanSettle(w.m, w.phase.id, w.phase.proceeds) {
      OrderStep(w, w.phase.id, w.m.orders[w.phase.id].(status := Settled), true);
      SpreadBelow(w.phase.proceeds, w.m.orders[w.phase.id].bps);
      SlicesAgree(w.m);
    }
  }

  /**
   * Every event keeps the pool solvent, and moves the free balance by exactly
   * what was minted, settled, sent in, or refunded for a failed leg.
   */
  lemma {:induction false} StepKeepsSolvent(w: World, e: Event)
    requires Solvent(w.m)
    ensures Solvent(Step(w, e).m)
    ensures Free(Step(w, e).m) == Free(w.m) + Moved(w.t, Step(w, e).t)
  {
    match e
    case PlaceBuy(_, _, _, _) => PlaceIsSound(w, e);
    case PlaceSell(_, _, _) => PlaceIsSound(w, e);
    case DeployBuy(id) => DeployIsSound(w, id);
    case ConfirmBuy(id, shares, price) => ConfirmIsSound(w, id, shares, price);
    case CancelPending(id) => CancelIsSound(w, id);
    case CancelSell(id) => CancelSellIsSound(w, id);
    case CancelDeployed(id) => RefundIsSound(w, id);
    case Settle => SettleIsSound(w);
    case SweepFee(_) => TransferIsSound(w, e);
    case SendUsdc(_) => TransferIsSound(w, e);
    case Read(_) => ReadIsSound(w, e);
    case Crash => ReadIsSound(w, e);
    case _ => WireIsSound(w, e);
  }

  /**
   * Conservation over every run, crashes and lost confirmations included:
   * minted = settled + free now - free at the start, up to money sent in from
   * outside and refunds of failed legs.
   */
  lemma {:induction false} FundingConserved(w: World, es: seq<Event>)
    requires Solvent(w.m)
    ensures Solvent(Run(w, es).m)
    ensures Free(Run(w, es).m) == Free(w.m) + Moved(w.t, Run(w, es).t)
    decreases |es|
  {
    if es != [] {
      StepKeepsSolvent(w, es[0]);
      FundingConserved(Step(w, es[0]), es[1..]);
    }
  }

  lemma {:induction false} OpenedIsSound(minOrder: nat, maxOrder: nat)
    ensures Solvent(Opened(minOrder, maxOrder).m) && Backed(Opened(minOrder, maxOrder).m)
  {
  }

  // ---------- the shares are backed ----------

  /** The escrowed shares are exactly those of the pending sells, and there are as many. */
  ghost predicate Backed(m: Market) {
    m.sharesEscrowed == PendingSum(m.orders, false) <= m.shares
  }

  ghost predicate StepBacked(w: World, e: Event) {
    var next := Step(w, e);
    && Backed(next.m)
    && next.m.shares - w.m.shares == (next.t.bought - w.t.bought) - (next.t.burned - w.t.burned)
  }

  lemma {:induction false} PlaceIsBacked(w: World, e: Event)
    requires Backed(w.m) && (e.PlaceBuy? || e.PlaceSell?)
    ensures StepBacked(w, e)
  {
    var o := if e.PlaceBuy? then Order(true, e.gross, e.limit, e.minShares, e.bps, Pending, 0)
             else Order(false, e.shares, e.limit, 0, e.bps, Pending, 0);
    PendingPlus(w.m.orders, o, false);
    PendingOne(o, false);
  }

  /** A buy's progress leaves the sells alone. */
  lemma {:induction false} BuyIsBacked(w: World, e: Event)
    requires Backed(w.m) && (e.DeployBuy? || e.ConfirmBuy? || e.CancelPending? || e.CancelDeployed?)
    ensures StepBacked(w, e)
  {
    if e.id < |w.m.orders| && w.m.orders[e.id].isBuy {
      var o := Step(w, e).m.orders[e.id];
      OrderStep(w, e.id, o, false);
      assert Step(w, e).m.orders == w.m.orders[e.id := o];
    }
  }

  lemma {:induction false} CancelIsBacked(w: World, id: nat)
    requires Backed(w.m)
    ensures StepBacked(w, CancelSell(id))
  {
    if Is(w.m, id, false, Pending) {
      OrderStep(w, id, w.m.orders[id].(status := Cancelled), false);
    }
  }

  lemma {:induction false} SettleIsBacked(w: World)
    requires Backed(w.m)
    ensures StepBacked(w, Settle)
  {
    if w.phase.Settling? && CanSettle(w.m, w.phase.id, w.phase.proceeds) {
      OrderStep(w, w.phase.id, w.m.orders[w.phase.id].(status := Settled), false);
    }
  }

  lemma {:induction false} StepKeepsBacked(w: World, e: Event)
    requires Backed(w.m)
    ensures StepBacked(w, e)
  {
    match e
    case PlaceBuy(_, _, _, _) => PlaceIsBacked(w, e);
    case PlaceSell(_, _, _) => PlaceIsBacked(w, e);
    case CancelSell(id) => CancelIsBacked(w, id);
    case Settle => SettleIsBacked(w);
    case DeployBuy(_) => BuyIsBacked(w, e);
    case ConfirmBuy(_, _, _) => BuyIsBacked(w, e);
    case CancelPending(_) => BuyIsBacked(w, e);
    case CancelDeployed(_) => BuyIsBacked(w, e);
    case _ =>
  }

  /**
   * Over every run no sell is ever placed on shares that are not there, and the
   * shares outstanding move by exactly what was bought less what was burned.
   */
  lemma {:induction false} SharesConserved(w: World, es: seq<Event>)
    requires Backed(w.m)
    ensures var end := Run(w, es);
      && Backed(end.m)
      && end.m.shares - w.m.shares == (end.t.bought - w.t.bought) - (end.t.burned - w.t.burned)
    decreases |es|
  {
    if es != [] {
      StepKeepsBacked(w, es[0]);
      SharesConserved(Step(w, es[0]), es[1..]);
    }
  }

  // ---------- a settlement finds its proceeds ----------

  /** What the free balance must still hold, between the operator's read and its settlement. */
  function Needed(phase: Phase): int {
    match phase
    case Idle => 0
    case Minting(_, proceeds, shortfall) => proceeds - shortfall
    case Settling(_, proceeds) => proceeds
  }

  /** The proceeds are there, or will be once the wire lands. */
  ghost predicate Funded(w: World) { Free(w.m) >= Needed(w.phase) }

  /**
   * What an admin can check before refunding a failed leg: the program will
   * refuse it, or it leaves the operator's sell its proceeds.
   */
  predicate RefundIsHarmless(w: World, id: nat) {
    Is(w.m, id, true, Deployed) ==>
      var rest := Unreserved(w.m) + Reversed(w.m, w.m.orders[id]) - w.m.orders[id].amount;
      rest < 0 || rest >= Needed(w.phase)
  }

  lemma {:induction false} RefundMoves(w: World, id: nat)
    requires Solvent(w.m) && Is(w.m, id, true, Deployed)
    ensures var rest := Free(w.m) + Reversed(w.m, w.m.orders[id]) - w.m.orders[id].amount;
      && Step(w, CancelDeployed(id)).phase == w.phase
      && Free(Step(w, CancelDeployed(id)).m) == if rest < 0 then Free(w.m) else rest
  {
    SlicesAgree(w.m);
    var back := Reversed(w.m, w.m.orders[id]);
    var released := w.m.(collected := w.m.collected - back);
    SlicesAgree(released);
    assert Free(released) == Free(w.m) + back;
  }

  /** A failed-leg refund keeps a funded sell funded exactly when it is harmless. */
  lemma {:induction false} RefundKeepsFundedIff(w: World, id: nat)
    requires Solvent(w.m) && Funded(w)
    ensures Funded(Step(w, CancelDeployed(id))) <==> RefundIsHarmless(w, id)
  {
    SlicesAgree(w.m);
    if Is(w.m, id, true, Deployed) {
      RefundMoves(w, id);
    }
  }

  /** No other event takes funded proceeds away. */
  lemma {:induction false} StepKeepsFundedIff(w: World, e: Event)
    requires Solvent(w.m) && Funded(w)
    ensures Funded(Step(w, e)) <==> (e.CancelDeployed? ==> RefundIsHarmless(w, e.id))
  {
    if e.CancelDeployed? {
      RefundKeepsFundedIff(w, e.id);
    } else {
      StepKeepsSolvent(w, e);
      SlicesAgree(w.m);
    }
  }

  /** Every refund of the run is harmless when it comes. */
  predicate RefundsAreHarmless(w: World, es: seq<Event>)
    decreases |es|
  {
    es != [] ==>
      && (es[0].CancelDeployed? ==> RefundIsHarmless(w, es[0].id))
      && RefundsAreHarmless(Step(w, es[0]), es[1..])
  }

  /** At every point of the run the sell in hand is funded. */
  ghost predicate AlwaysFunded(w: World, es: seq<Event>)
    decreases |es|
  {
    && Funded(w)
    && (w.phase.Settling? ==> Unreserved(w.m) >= w.phase.proceeds)
    && (es != [] ==> AlwaysFunded(Step(w, es[0]), es[1..]))
  }

  /**
   * Whatever traders, sweeps, refunds, crashes and lost confirmations do in
   * between, the sell in hand stays funded at every point exactly in the runs
   * whose failed-leg refunds are harmless.
   */
  lemma {:induction false} StaysFundedIff(w: World, es: seq<Event>)
    requires Solvent(w.m) && Funded(w)
    ensures AlwaysFunded(w, es) <==> RefundsAreHarmless(w, es)
    decreases |es|
  {
    SlicesAgree(w.m);
    if es != [] {
      StepKeepsSolvent(w, es[0]);
      StepKeepsFundedIff(w, es[0]);
      if Funded(Step(w, es[0])) {
        StaysFundedIff(Step(w, es[0]), es[1..]);
      }
    }
  }

  /** Nothing that ends the operator's turn at the sell it has funded. */
  ghost predicate Waits(es: seq<Event>) {
    forall k :: 0 <= k < |es| ==> !es[k].Settle? && !es[k].Crash? && !es[k].CrashAfterWire?
  }

  lemma {:induction false} SettlingWaits(w: World, es: seq<Event>)
    requires w.phase.Settling? && Waits(es)
    ensures var end := Run(w, es);
      end.phase == w.phase && end.t.minted == w.t.minted && end.t.settled == w.t.settled
    decreases |es|
  {
    if es != [] {
      SettlingWaits(Step(w, es[0]), es[1..]);
    }
  }

  /**
   * When the operator comes to settle, after anything others have done since it
   * was ready: the proceeds are unreserved exactly when refunds in between took no
   * more than was free beyond them and was paid in. A refund can be made good.
   */
  lemma {:induction false} SettlementIsFundedIff(w: World, es: seq<Event>)
    requires Solvent(w.m) && w.phase.Settling? && Waits(es)
    ensures var end := Run(w, es);
      && end.phase == w.phase
      && (Unreserved(end.m) >= w.phase.proceeds <==>
            Free(w.m) + (end.t.sent - w.t.sent) - (end.t.refunded - w.t.refunded) >= w.phase.proceeds)
  {
    SettlingWaits(w, es);
    FundingConserved(w, es);
    SlicesAgree(Run(w, es).m);
  }

  // ---------- a restart does not double-fund ----------

  /** No sell is worth more than p. */
  ghost predicate SellsAtMost(m: Market, p: nat) {
    forall k :: 0 <= k < |m.orders| && !m.orders[k].isBuy ==> ProceedsOf(m.orders[k]) <= p
  }

  /** The operator's own wires never lift the free balance above the larger of the start and one sell. */
  ghost predicate Bounded(w: World, cap: int) {
    && Free(w.m) <= cap
    && (w.phase.Minting? ==> Free(w.m) + w.phase.shortfall <= cap)
  }

  ghost predicate SmallSell(e: Event, p: nat) {
    e.PlaceSell? ==> SellProceeds(e.shares, e.limit) <= p
  }

  /** What wires whose confirmation is lost bring in. */
  function LostBy(w: World, e: Event): nat {
    if e.MintUnconfirmed? && w.phase.Minting? then w.phase.shortfall else 0
  }

  function Lost(w: World, es: seq<Event>): nat
    decreases |es|
  {
    if es == [] then 0 else LostBy(w, es[0]) + Lost(Step(w, es[0]), es[1..])
  }

  lemma {:induction false} StepKeepsBounded(w: World, e: Event, cap: int, p: nat)
    requires Solvent(w.m) && Bounded(w, cap) && SellsAtMost(w.m, p) && p <= cap
    ensures var next := Step(w, e);
      Bounded(next, cap + (next.t.sent - w.t.sent) + LostBy(w, e)) && next.t.sent >= w.t.sent
  {
    StepKeepsSolvent(w, e);
    SlicesAgree(w.m);
    if e.CancelDeployed? {
      RefundIsSound(w, e.id);
    }
  }

  lemma {:induction false} StepKeepsSellsAtMost(w: World, e: Event, p: nat)
    requires SellsAtMost(w.m, p) && SmallSell(e, p)
    ensures SellsAtMost(Step(w, e).m, p)
  {
  }

  lemma {:induction false} RunKeepsBounded(w: World, es: seq<Event>, cap: int, p: nat)
    requires Solvent(w.m) && Bounded(w, cap) && SellsAtMost(w.m, p) && p <= cap
    requires forall k :: 0 <= k < |es| ==> SmallSell(es[k], p)
    ensures Bounded(Run(w, es), cap + (Run(w, es).t.sent - w.t.sent) + Lost(w, es))
    decreases |es|
  {
    if es != [] {
      var next := Step(w, es[0]);
      StepKeepsSolvent(w, es[0]);
      StepKeepsBounded(w, es[0], cap, p);
      StepKeepsSellsAtMost(w, es[0], p);
      RunKeepsBounded(next, es[1..], cap + (next.t.sent - w.t.sent) + LostBy(w, es[0]), p);
    }
  }

  /**
   * However often the operator crashes and restarts, also right after a wire it
   * never saw confirmed, what it mints exceeds what it settles and refunds by at
   * most one sell's worth and the wires whose confirmation was lost: no settlement
   * is funded twice. Money paid in from outside does not count against it.
   */
  lemma {:induction false} RestartsDoNotDoubleFund(w: World, es: seq<Event>, p: nat)
    requires Solvent(w.m) && w.phase == Idle && SellsAtMost(w.m, p)
    requires forall k :: 0 <= k < |es| ==> SmallSell(es[k], p)
    ensures var t := Run(w, es).t;
      t.minted - w.t.minted <= (t.settled - w.t.settled) + (t.refunded - w.t.refunded)
        + Lost(w, es) + SatSub(p, OperatorUnreserved(w.m))
  {
    SlicesAgree(w.m);
    var cap := if p > Free(w.m) then p else Free(w.m);
    RunKeepsBounded(w, es, cap, p);
    FundingConserved(w, es);
  }

  // ---------- lost confirmations ----------

  /** The wire is still being tried: anything but its confirmation or the operator's end. */
  ghost predicate Retrying(es: seq<Event>) {
    forall k :: 0 <= k < |es| ==> !es[k].MintConfirmed? && !es[k].Crash? && !es[k].CrashAfterWire?
  }

  /** How many wires landed unconfirmed. */
  ghost function Wires(es: seq<Event>): nat {
    if es == [] then 0 else (if es[0].MintUnconfirmed? then 1 else 0) + Wires(es[1..])
  }

  lemma {:induction false} MintingRun(w: World, es: seq<Event>)
    requires w.phase.Minting? && Retrying(es)
    ensures var end := Run(w, es);
      && end.phase == w.phase && end.t.settled == w.t.settled
      && end.t.minted == w.t.minted + Wires(es) * w.phase.shortfall
    decreases |es|
  {
    if es != [] {
      MintingRun(Step(w, es[0]), es[1..]);
      OneMore(Wires(es[1..]), w.phase.shortfall);
    }
  }

  lemma {:induction false} RunSnoc(w: World, es: seq<Event>, e: Event)
    ensures Run(w, es + [e]) == Step(Run(w, es), e)
    decreases |es|
  {
    if es == [] {
      assert [] + [e] == [e] && [e][1..] == [];
    } else {
      assert (es + [e])[0] == es[0] && (es + [e])[1..] == es[1..] + [e];
      RunSnoc(Step(w, es[0]), es[1..], e);
    }
  }

  /**
   * The wire's own retry does not recompute the shortfall: whatever happens
   * between its attempts, each lost confirmation mints it once more. The surplus
   * stays in the free balance.
   */
  lemma {:induction false} LostConfirmationsOverfund(w: World, es: seq<Event>)
    requires Solvent(w.m) && w.phase.Minting? && Retrying(es)
    ensures var end := Run(w, es + [MintConfirmed]); var wired := (Wires(es) + 1) * w.phase.shortfall;
      && end.phase == Settling(w.phase.id, w.phase.proceeds)
      && end.t.minted == w.t.minted + wired
      && Free(end.m) == Free(w.m) + wired + (end.t.sent - w.t.sent) - (end.t.refunded - w.t.refunded)
  {
    MintingRun(w, es);
    RunSnoc(w, es, MintConfirmed);
    OneMore(Wires(es), w.phase.shortfall);
    FundingConserved(w, es + [MintConfirmed]);
  }

  /** The sell is funded by exactly its shortfall exactly when no confirmation is lost. */
  lemma {:induction false} FundedExactlyIff(w: World, es: seq<Event>)
    requires Solvent(w.m) && w.phase.Minting? && Retrying(es)
    ensures Run(w, es + [MintConfirmed]).t.minted == w.t.minted + w.phase.shortfall
      <==> Wires(es) == 0 || w.phase.shortfall == 0
  {
    LostConfirmationsOverfund(w, es);
    OneMore(Wires(es), w.phase.shortfall);
    if Wires(es) > 0 {
      MulMono(1, Wires(es), w.phase.shortfall);
    }
  }
}
