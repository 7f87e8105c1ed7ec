// What becomes of one order of a market, and what the traders are given, over
// every run of the program, the operator and the traders.
module Orders {
  import opened Fills
  import opened Funding
  import Book

  // ---------- one order ----------

  predicate SameTerms(a: Order, b: Order) {
    a.isBuy == b.isBuy && a.amount == b.amount && a.limit == b.limit && a.minShares == b.minShares && a.bps == b.bps
  }

  /** An order's way: a buy is deployed and then filled, a sell settled, and before that either may be cancelled. */
  predicate OneStepOn(a: Order, b: Order) {
    && SameTerms(a, b)
    && (a.status != b.status ==>
          || (a.status == Pending && b.status == Cancelled)
          || (a.isBuy && a.status == Pending && b.status == Deployed)
          || (a.isBuy && a.status == Deployed && (b.status == Filled || b.status == Cancelled))
          || (!a.isBuy && a.status == Pending && b.status == Settled))
  }

  lemma {:induction false} StepTakesOneStep(w: World, e: Event, k: nat)
    requires k < |w.m.orders|
    ensures |w.m.orders| <= |Step(w, e).m.orders| && OneStepOn(w.m.orders[k], Step(w, e).m.orders[k])
  {
  }

  function Named(s: Status): Book.Status {
    match s
    case Pending => Book.Pending
    case Deployed => Book.Deployed
    case Filled => Book.Filled
    case Settled => Book.Settled
    case Cancelled => Book.Cancelled
  }

  predicate GoesForward(a: Status, b: Status) {
    Book.Rank(Named(a)) <= Book.Rank(Named(b)) && (Book.Rank(Named(a)) == 2 ==> b == a)
  }

  /** Over every run an order keeps its terms, and its status goes forward only. */
  lemma {:induction false} OrdersGoForward(w: World, es: seq<Event>, k: nat)
    requires k < |w.m.orders|
    ensures k < |Run(w, es).m.orders| && SameTerms(w.m.orders[k], Run(w, es).m.orders[k])
    ensures GoesForward(w.m.orders[k].status, Run(w, es).m.orders[k].status)
    decreases |es|
  {
    if es != [] {
      StepTakesOneStep(w, es[0], k);
      OrdersGoForward(Step(w, es[0]), es[1..], k);
    }
  }

  lemma {:induction false} RunConcat(w: World, a: seq<Event>, b: seq<Event>)
    ensures Run(w, a + b) == Run(Run(w, a), b)
    decreases |a|
  {
    if a == [] {
      assert a + b == b;
    } else {
      assert (a + b)[0] == a[0] && (a + b)[1..] == a[1..] + b;
      RunConcat(Step(w, a[0]), a[1..], b);
    }
  }

  function FirstOf(es: seq<Event>, n: nat): seq<Event> { if n <= |es| then es[..n] else es }

  /** What a read of the order's status finds after so many events of a run. */
  function StatusAfter(w: World, es: seq<Event>, k: nat): nat -> Book.Status
    requires k < |w.m.orders|
  {
    (n: nat) =>
      var orders := Run(w, FirstOf(es, n)).m.orders;
      if k < |orders| then Named(orders[k].status) else Book.Pending
  }

  /** So every order's history is as the wallet's book takes it to be. */
  lemma {:induction false} HistoryIsForward(w: World, es: seq<Event>, k: nat)
    requires k < |w.m.orders|
    ensures Book.Forward(StatusAfter(w, es, k))
  {
    forall i: int, j: int | 0 <= i <= j
      ensures var s := StatusAfter(w, es, k);
        Book.Rank(s(i)) <= Book.Rank(s(j)) && (Book.Rank(s(i)) == 2 ==> s(j) == s(i))
    {
      var a, b := FirstOf(es, i), FirstOf(es, j);
      assert b == a + b[|a|..];
      RunConcat(w, a, b[|a|..]);
      OrdersGoForward(w, a, k);
      OrdersGoForward(Run(w, a), b[|a|..], k);
    }
  }

  // ---------- what the traders are given ----------

  /** The least a filled buy was to bring in share units, and a settled sell in base units. */
  function Due(o: Order, isBuy: bool): nat {
    if o.isBuy != isBuy then 0
    else if isBuy then (if o.status == Filled then o.minShares else 0)
    else if o.status == Settled then o.amount * o.limit / UNIT else 0
  }

  ghost function AllDue(orders: seq<Order>, isBuy: bool): nat {
    if orders == [] then 0 else Due(orders[0], isBuy) + AllDue(orders[1..], isBuy)
  }

  lemma {:induction false} DuePlus(orders: seq<Order>, o: Order, isBuy: bool)
    ensures AllDue(orders + [o], isBuy) == AllDue(orders, isBuy) + Due(o, isBuy)
  {
    if orders == [] {
      assert orders + [o] == [o] && [o][1..] == [];
    } else {
      assert (orders + [o])[0] == orders[0] && (orders + [o])[1..] == orders[1..] + [o];
      DuePlus(orders[1..], o, isBuy);
    }
  }

  lemma {:induction false} DueUpdate(orders: seq<Order>, id: nat, o: Order, isBuy: bool)
    requires id < |orders|
    ensures AllDue(orders[id := o], isBuy) == AllDue(orders, isBuy) - Due(orders[id], isBuy) + Due(o, isBuy)
  {
    if id == 0 {
      assert orders[0 := o][1..] == orders[1..];
    } else {
      assert orders[id := o][1..] == orders[1..][id-1 := o];
      DueUpdate(orders[1..], id - 1, o, isBuy);
    }
  }

  /** The operator settles with the proceeds of the sell it read. */
  predicate Reading(w: World) {
    w.phase.Idle?
    || (w.phase.id < |w.m.orders| && !w.m.orders[w.phase.id].isBuy
        && w.phase.proceeds == ProceedsOf(w.m.orders[w.phase.id]))
  }

  ghost predicate StepGives(w: World, e: Event) {
    var next := Step(w, e);
    && Reading(next)
    && next.t.bought - w.t.bought >= AllDue(next.m.orders, true) - AllDue(w.m.orders, true)
    && next.t.settled - w.t.settled >= AllDue(next.m.orders, false) - AllDue(w.m.orders, false)
  }

  lemma {:induction false} PlaceGives(w: World, e: Event)
    requires Reading(w) && (e.PlaceBuy? || e.PlaceSell?)
    ensures StepGives(w, e)
  {
    var o := if e.PlaceBuy? then Order(true, e.gross, e.limit, e.minShares, e.bps, Pending, 0)
             else Order(false, e.shares, e.limit, 0, e.bps, Pending, 0);
    DuePlus(w.m.orders, o, true);
    DuePlus(w.m.orders, o, false);
  }

  /** Deploying or cancelling an order gives nothing and leaves nothing due. */
  lemma {:induction false} MoveOnGives(w: World, e: Event)
    requires Reading(w) && (e.DeployBuy? || e.CancelPending? || e.CancelDeployed? || e.CancelSell?)
    ensures StepGives(w, e)
  {
    if e.id < |w.m.orders| {
      OneMoved(w.m.orders, e.id, Step(w, e).m.orders[e.id], Step(w, e).m.orders);
    }
  }

  lemma {:induction false} OneMoved(orders: seq<Order>, id: nat, o: Order, after: seq<Order>)
    requires id < |orders| && after == orders[id := o]
    requires o == orders[id] || (Due(orders[id], true) == Due(o, true) && Due(orders[id], false) == Due(o, false))
    ensures AllDue(after, true) == AllDue(orders, true) && AllDue(after, false) == AllDue(orders, false)
  {
    DueUpdate(orders, id, o, true);
    DueUpdate(orders, id, o, false);
  }

  lemma {:induction false} ConfirmGives(w: World, id: nat, shares: nat, price: nat)
    requires Reading(w)
    ensures StepGives(w, ConfirmBuy(id, shares, price))
  {
    if CanConfirm(w.m, id, shares, price) {
      DueUpdate(w.m.orders, id, w.m.orders[id].(status := Filled), true);
      DueUpdate(w.m.orders, id, w.m.orders[id].(status := Filled), false);
    }
  }

  lemma {:induction false} SettleGives(w: World)
    requires Reading(w)
    ensures StepGives(w, Settle)
  {
    if w.phase.Settling? {
      var o := w.m.orders[w.phase.id];
      SellFillIsFair(o.amount, o.limit);
      DueUpdate(w.m.orders, w.phase.id, o.(status := Settled), true);
      DueUpdate(w.m.orders, w.phase.id, o.(status := Settled), false);
    }
  }

  lemma {:induction false} StepIsFair(w: World, e: Event)
    requires Reading(w)
    ensures StepGives(w, e)
  {
    match e
    case PlaceBuy(_, _, _, _) => PlaceGives(w, e);
    case PlaceSell(_, _, _) => PlaceGives(w, e);
    case DeployBuy(_) => MoveOnGives(w, e);
    case ConfirmBuy(id, shares, price) => ConfirmGives(w, id, shares, price);
    case CancelPending(_) => MoveOnGives(w, e);
    case CancelDeployed(_) => MoveOnGives(w, e);
    case CancelSell(_) => MoveOnGives(w, e);
    case Settle => SettleGives(w);
    case _ =>
  }

  /**
   * Over every run, whoever acts and whatever crashes: the shares handed out are at
   * least the minimums of all buys that were filled, and the proceeds paid at least
   * the worth, at their limits, of all sells that were settled.
   */
  lemma {:induction false} TradersGetTheirs(w: World, es: seq<Event>)
    requires Reading(w)
    ensures var end := Run(w, es);
      && Reading(end)
      && end.t.bought - w.t.bought >= AllDue(end.m.orders, true) - AllDue(w.m.orders, true)
      && end.t.settled - w.t.settled >= AllDue(end.m.orders, false) - AllDue(w.m.orders, false)
    decreases |es|
  {
    if es != [] {
      StepIsFair(w, es[0]);
      TradersGetTheirs(Step(w, es[0]), es[1..]);
    }
  }
}
