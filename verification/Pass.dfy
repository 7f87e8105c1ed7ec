// pass(): the loop over one market's orders. An instruction the program refuses
// throws, and the exception leaves the loop. One pass is taken with nobody else
// acting on the market meanwhile.
module Pass {
  import opened Common
  import opened Fills
  import opened Funding
  import opened FundingRuns

  /** One pending buy: deploy, price, confirm. False when that throws. */
  function ServeBuy(w: World, id: nat): (s: (World, bool))
    requires id < |w.m.orders|
    ensures |s.0.m.orders| == |w.m.orders|
  {
    var d := Step(w, DeployBuy(id));
    StepKeepsCount(w, DeployBuy(id));
    if !Is(d.m, id, true, Deployed) || d.m.orders[id].feePaid > d.m.orders[id].amount then (d, false)
    else
      var o := d.m.orders[id];
      match FillBuy(o.amount - o.feePaid, o.limit)
      case NoFill => (d, false)
      case BuyFill(price, shares) =>
        var c := Step(d, ConfirmBuy(id, shares, price));
        StepKeepsCount(d, ConfirmBuy(id, shares, price));
        (c, Is(c.m, id, true, Filled))
  }

  /** One pending sell: read, wire what is missing, settle. */
  function ServeSell(w: World, id: nat): (s: (World, bool))
    ensures |s.0.m.orders| == |w.m.orders|
  {
    var read := Step(w, Read(id));
    var wired := Step(read, MintConfirmed);
    var c := Step(wired, Settle);
    StepKeepsCount(w, Read(id));
    StepKeepsCount(read, MintConfirmed);
    StepKeepsCount(wired, Settle);
    (c, Is(c.m, id, false, Settled))
  }

  function Serve(w: World, id: nat): (s: (World, bool))
    requires id < |w.m.orders|
    ensures |s.0.m.orders| == |w.m.orders|
  {
    if Is(w.m, id, true, Pending) then ServeBuy(w, id)
    else if Is(w.m, id, false, Pending) then ServeSell(w, id)
    else (w, true)
  }

  /** The loop from order id on; false when it was left by an exception. */
  function PassFrom(w: World, id: nat): (World, bool)
    decreases |w.m.orders| - id
  {
    if id >= |w.m.orders| then (w, true)
    else
      var s := Serve(w, id);
      if !s.1 then s else PassFrom(s.0, id + 1)
  }

  class Passer {
    var w: World

    constructor (w: World)
      ensures this.w == w
    {
      this.w := w;
    }

    method ServeOrder(id: nat) returns (ok: bool)
      requires id < |w.m.orders|
      modifies this
      ensures (w, ok) == Serve(old(w), id)
    {
      if Is(w.m, id, true, Pending) {
        w := Step(w, DeployBuy(id));
        if !Is(w.m, id, true, Deployed) || w.m.orders[id].feePaid > w.m.orders[id].amount {
          return false;
        }
        var fill := FillBuy(w.m.orders[id].amount - w.m.orders[id].feePaid, w.m.orders[id].limit);
        if fill.NoFill? {
          return false;
        }
        w := Step(w, ConfirmBuy(id, fill.shares, fill.price));
        return Is(w.m, id, true, Filled);
      }
      if Is(w.m, id, false, Pending) {
        w := Step(w, Read(id));
        w := Step(w, MintConfirmed);
        w := Step(w, Settle);
        return Is(w.m, id, false, Settled);
      }
      return true;
    }

    method Pass() returns (ok: bool)
      requires Solvent(w.m) && w.phase == Idle
      modifies this
      ensures (w, ok) == PassFrom(old(w), 0)
    {
      var n := |w.m.orders|;
      var id := 0;
      while id < n
        invariant 0 <= id <= n == |w.m.orders| && Solvent(w.m) && w.phase == Idle
        invariant PassFrom(w, id) == PassFrom(old(w), 0)
      {
        ServeFacts(w, id);
        ok := ServeOrder(id);
        if !ok {
          return;
        }
        id := id + 1;
      }
      ok := true;
    }
  }

  // ---------- what one order's turn does ----------

  /** The amount a buy would be filled with. */
  function Net(o: Order): int { o.amount - SpreadOn(o.amount, o.bps) }

  /** An order whose turn does not throw, told from the order alone. */
  predicate Servable(o: Order) {
    if o.status != Pending then true
    else if o.isBuy then
      && 0 < Net(o)
      && var f := FillBuy(Net(o), o.limit);
      f.BuyFill? && ConfirmAccepts(f.shares, f.price, o.limit, o.minShares, Net(o))
    else SettleAccepts(ProceedsOf(o), SellPrice(o.limit), o.limit, o.bps)
  }

  /** What its turn makes of an order. */
  function Turn(o: Order): Order {
    if o.status != Pending then o
    else if o.isBuy then
      if Net(o) <= 0 then o
      else o.(feePaid := SpreadOn(o.amount, o.bps), status := if Servable(o) then Filled else Deployed)
    else if Servable(o) then o.(status := Settled)
    else o
  }

  /** Deploying a pending buy on a solvent market. */
  lemma {:induction false} Deploys(w: World, id: nat)
    requires Solvent(w.m) && Is(w.m, id, true, Pending)
    ensures var d := Step(w, DeployBuy(id)); var o := w.m.orders[id];
      && Solvent(d.m) && d.phase == w.phase
      && d.m.orders == w.m.orders[id := if Net(o) <= 0 then o
                                        else o.(status := Deployed, feePaid := SpreadOn(o.amount, o.bps))]
  {
    var o := w.m.orders[id];
    StepKeepsSolvent(w, DeployBuy(id));
    SpreadBelow(o.amount, o.bps);
    PendingHas(w.m.orders, id, true);
    PendingOne(o, true);
    assert w.m.orders[id := o] == w.m.orders;
  }

  lemma {:induction false} Confirms(w: World, id: nat, shares: nat, price: nat)
    requires Solvent(w.m) && Is(w.m, id, true, Deployed)
    ensures var c := Step(w, ConfirmBuy(id, shares, price)); var o := w.m.orders[id];
      && Solvent(c.m) && c.phase == w.phase
      && c.m.orders == w.m.orders[id := o.(status := if CanConfirm(w.m, id, shares, price) then Filled else Deployed)]
  {
    StepKeepsSolvent(w, ConfirmBuy(id, shares, price));
    assert w.m.orders[id := w.m.orders[id]] == w.m.orders;
  }

  lemma {:induction false} BuyFacts(w: World, id: nat)
    requires Solvent(w.m) && w.phase == Idle && Is(w.m, id, true, Pending)
    ensures var s := ServeBuy(w, id);
      && s.1 == Servable(w.m.orders[id]) && Solvent(s.0.m) && s.0.phase == Idle
      && s.0.m.orders == w.m.orders[id := Turn(w.m.orders[id])]
  {
    var o := w.m.orders[id];
    Deploys(w, id);
    var d := Step(w, DeployBuy(id));
    if Net(o) > 0 {
      var f := FillBuy(Net(o), o.limit);
      if f.BuyFill? {
        Confirms(d, id, f.shares, f.price);
      }
    }
  }

  /** Reading a pending sell and wiring what is missing leaves its proceeds unreserved. */
  lemma {:induction false} ProceedsAreWired(w: World, id: nat)
    requires Solvent(w.m) && w.phase == Idle && Is(w.m, id, false, Pending)
    ensures var m := Step(Step(w, Read(id)), MintConfirmed);
      && Solvent(m.m) && m.phase == Settling(id, ProceedsOf(w.m.orders[id]))
      && m.m.orders == w.m.orders && Unreserved(m.m) >= m.phase.proceeds
  {
    var r := Step(w, Read(id));
    StepKeepsSolvent(w, Read(id));
    StepKeepsFundedIff(w, Read(id));
    StepKeepsSolvent(r, MintConfirmed);
    StepKeepsFundedIff(r, MintConfirmed);
    SlicesAgree(Step(r, MintConfirmed).m);
  }

  lemma {:induction false} Settles(w: World, id: nat)
    requires Solvent(w.m) && Is(w.m, id, false, Pending) && w.phase == Settling(id, ProceedsOf(w.m.orders[id]))
    requires Unreserved(w.m) >= w.phase.proceeds
    ensures var s := Step(w, Settle);
      && Solvent(s.m) && s.phase == Idle
      && s.m.orders == w.m.orders[id := Turn(w.m.orders[id])]
  {
    StepKeepsSolvent(w, Settle);
    assert w.m.orders[id := w.m.orders[id]] == w.m.orders;
  }

  lemma {:induction false} SellFacts(w: World, id: nat)
    requires Solvent(w.m) && w.phase == Idle && Is(w.m, id, false, Pending)
    ensures var s := ServeSell(w, id);
      && s.1 == Servable(w.m.orders[id]) && Solvent(s.0.m) && s.0.phase == Idle
      && s.0.m.orders == w.m.orders[id := Turn(w.m.orders[id])]
  {
    ProceedsAreWired(w, id);
    Settles(Step(Step(w, Read(id)), MintConfirmed), id);
  }

  lemma {:induction false} ServeFacts(w: World, id: nat)
    requires Solvent(w.m) && w.phase == Idle && id < |w.m.orders|
    ensures var s := Serve(w, id);
      && s.1 == Servable(w.m.orders[id]) && Solvent(s.0.m) && s.0.phase == Idle
      && s.0.m.orders == w.m.orders[id := Turn(w.m.orders[id])]
  {
    if Is(w.m, id, true, Pending) {
      BuyFacts(w, id);
    } else if Is(w.m, id, false, Pending) {
      SellFacts(w, id);
    } else {
      assert w.m.orders[id := w.m.orders[id]] == w.m.orders;
    }
  }

  // ---------- which orders a pass reaches ----------

  predicate AllServable(orders: seq<Order>) {
    forall k :: 0 <= k < |orders| ==> Servable(orders[k])
  }

  /** Every order up to the first that is not servable has its turn; the rest is untouched. */
  function Passed(orders: seq<Order>): seq<Order> {
    if orders == [] then []
    else [Turn(orders[0])] + if Servable(orders[0]) then Passed(orders[1..]) else orders[1..]
  }

  lemma {:induction false} PassFromFacts(w: World, id: nat)
    requires Solvent(w.m) && w.phase == Idle && id <= |w.m.orders|
    ensures var p := PassFrom(w, id);
      && p.1 == AllServable(w.m.orders[id..]) && Solvent(p.0.m) && p.0.phase == Idle
      && p.0.m.orders == w.m.orders[..id] + Passed(w.m.orders[id..])
    decreases |w.m.orders| - id
  {
    var orders := w.m.orders;
    if id < |orders| {
      ServeFacts(w, id);
      TurnInPlace(orders, id, Turn(orders[id]));
      AllServableStep(orders[id..]);
      assert orders[id..][0] == orders[id] && orders[id..][1..] == orders[id+1..];
      if Serve(w, id).1 {
        PassFromFacts(Serve(w, id).0, id + 1);
        Assoc(orders[..id], [Turn(orders[id])], Passed(orders[id+1..]));
      }
    }
  }

  lemma {:induction false} TurnInPlace(orders: seq<Order>, id: nat, o: Order)
    requires id < |orders|
    ensures var now := orders[id := o];
      && now[id+1..] == orders[id+1..] && now[..id+1] == orders[..id] + [o]
      && now == orders[..id] + ([o] + orders[id+1..])
  {
  }

  lemma {:induction false} WholePass(w: World)
    requires Solvent(w.m) && w.phase == Idle
    ensures var p := PassFrom(w, 0);
      && p.1 == AllServable(w.m.orders) && Solvent(p.0.m) && p.0.phase == Idle
      && p.0.m.orders == Passed(w.m.orders)
  {
    PassFromFacts(w, 0);
    assert w.m.orders[0..] == w.m.orders && w.m.orders[..0] == [];
  }

  lemma {:induction false} AllServableStep(orders: seq<Order>)
    requires orders != []
    ensures AllServable(orders) <==> Servable(orders[0]) && AllServable(orders[1..])
  {
    if Servable(orders[0]) && AllServable(orders[1..]) {
      forall k | 0 <= k < |orders|
        ensures Servable(orders[k])
      {
        if k > 0 {
          assert orders[k] == orders[1..][k-1];
        }
      }
    }
    if AllServable(orders) {
      assert forall k :: 0 <= k < |orders| - 1 ==> orders[1..][k] == orders[k+1];
    }
  }

  /**
   * A pass gives order j its turn exactly when every earlier order is servable,
   * changes no other order, and ends without an exception exactly when all are.
   */
  lemma {:induction false} PassReachesIff(w: World, j: nat)
    requires Solvent(w.m) && w.phase == Idle && j < |w.m.orders|
    ensures var p := PassFrom(w, 0); var o := w.m.orders[j];
      && |p.0.m.orders| == |w.m.orders| && (p.1 <==> AllServable(w.m.orders))
      && p.0.m.orders[j] == if AllServable(w.m.orders[..j]) then Turn(o) else o
  {
    WholePass(w);
    PassedAt(w.m.orders, j);
  }

  lemma {:induction false} PassedAt(orders: seq<Order>, j: nat)
    requires j < |orders|
    ensures |Passed(orders)| == |orders|
    ensures Passed(orders)[j] == if AllServable(orders[..j]) then Turn(orders[j]) else orders[j]
  {
    if j > 0 {
      AllServableStep(orders[..j]);
      assert orders[..j][1..] == orders[1..][..j-1];
      if Servable(orders[0]) {
        PassedAt(orders[1..], j - 1);
      }
    } else if |orders| > 1 && Servable(orders[0]) {
      PassedAt(orders[1..], 0);
    }
  }

  // ---------- over many passes ----------

  /** n passes, with nobody else acting. */
  function Passes(orders: seq<Order>, n: nat): seq<Order>
    decreases n
  {
    if n == 0 then orders else Passes(Passed(orders), n - 1)
  }

  /** A pending sell that is worth less than one base unit at the operator's price. */
  predicate Blocks(o: Order) { !o.isBuy && o.status == Pending && !Servable(o) }

  ghost predicate Blocked(orders: seq<Order>, j: nat) {
    exists k :: 0 <= k < |orders| && k < j && Blocks(orders[k])
  }

  lemma {:induction false} PassedKeepsBlocks(orders: seq<Order>, k: nat)
    requires k < |orders|
    ensures |Passed(orders)| == |orders|
    ensures Blocks(Passed(orders)[k]) <==> Blocks(orders[k])
  {
    PassedAt(orders, k);
  }

  /** Behind a blocking sell no pass ever changes an order. */
  lemma {:induction false} BlockedForever(orders: seq<Order>, j: nat, n: nat)
    requires j < |orders| && Blocked(orders, j)
    ensures |Passes(orders, n)| == |orders| && Passes(orders, n)[j] == orders[j]
    decreases n
  {
    if n > 0 {
      var k :| 0 <= k < j && Blocks(orders[k]);
      assert orders[..j][k] == orders[k];
      PassedAt(orders, j);
      PassedKeepsBlocks(orders, k);
      BlockedForever(Passed(orders), j, n - 1);
    }
  }

  /** What the program sees to when an order is placed. */
  ghost predicate WellPlaced(orders: seq<Order>) {
    forall k :: 0 <= k < |orders| ==> orders[k].amount > 0 && orders[k].bps <= 500
  }

  /** The spread never takes all of a buy. */
  lemma {:induction false} NetIsPositive(o: Order)
    requires o.amount > 0 && o.bps <= 500
    ensures Net(o) > 0
  {
    FloorBounds(o.amount * o.bps, 10_000);
    MulMono(o.bps, 500, o.amount);
  }

  lemma {:induction false} PassedIsWellPlaced(orders: seq<Order>)
    requires WellPlaced(orders)
    ensures WellPlaced(Passed(orders))
  {
    forall k | 0 <= k < |Passed(orders)|
      ensures Passed(orders)[k].amount > 0 && Passed(orders)[k].bps <= 500
    {
      if orders != [] {
        PassedAt(orders, 0);
      }
      PassedAt(orders, k);
    }
  }

  /** How many of the orders would make a pass throw. */
  function Stuck(orders: seq<Order>): nat {
    if orders == [] then 0 else (if Servable(orders[0]) then 0 else 1) + Stuck(orders[1..])
  }

  /** A buy that threw is left deployed, and no later pass trips over it. */
  lemma {:induction false} PassedUnsticks(orders: seq<Order>)
    requires !Blocked(orders, |orders|)
    requires WellPlaced(orders)
    ensures |Passed(orders)| == |orders|
    ensures Stuck(Passed(orders)) == if Stuck(orders) == 0 then 0 else Stuck(orders) - 1
  {
    if orders != [] {
      var rest := orders[1..];
      forall k | 0 <= k < |rest|
        ensures !Blocks(rest[k]) && rest[k] == orders[k+1]
      {
      }
      assert !Blocks(orders[0]);
      NetIsPositive(orders[0]);
      assert Passed(orders)[1..] == if Servable(orders[0]) then Passed(rest) else rest;
      PassedUnsticks(rest);
    }
  }

  lemma {:induction false} StuckIff(orders: seq<Order>)
    ensures Stuck(orders) == 0 <==> AllServable(orders)
  {
    if orders != [] {
      StuckIff(orders[1..]);
      AllServableStep(orders);
    }
  }

  lemma {:induction false} PassedPrefix(orders: seq<Order>, j: nat)
    requires j <= |orders|
    ensures |Passed(orders)| == |orders| && Passed(orders)[..j] == Passed(orders[..j])
  {
    if j > 0 {
      assert orders[..j][1..] == orders[1..][..j-1];
      PassedPrefix(orders[1..], j - 1);
      assert orders[..j][0] == orders[0];
    } else if orders != [] {
      PassedAt(orders, 0);
    }
  }

  /** Without a blocking sell in front, an order gets its turn after at most one pass per stuck order before it. */
  lemma {:induction false} ReachedInTime(orders: seq<Order>, j: nat)
    requires j < |orders| && WellPlaced(orders) && !Blocked(orders, j)
    ensures var n := Stuck(orders[..j]);
      |Passes(orders, n + 1)| == |orders| && Passes(orders, n + 1)[j] == Turn(orders[j])
    decreases Stuck(orders[..j])
  {
    var front := orders[..j];
    StuckIff(front);
    PassedAt(orders, j);
    if Stuck(front) == 0 {
      assert Passes(Passed(orders), 0) == Passed(orders);
    } else {
      assert forall k :: 0 <= k < j ==> front[k] == orders[k];
      PassedUnsticks(front);
      PassedPrefix(orders, j);
      PassedIsWellPlaced(orders);
      forall k | 0 <= k < j
        ensures !Blocks(Passed(orders)[k])
      {
        PassedKeepsBlocks(orders, k);
      }
      ReachedInTime(Passed(orders), j);
    }
  }

  /** The market after one pass. */
  function OnePass(w: World): World { PassFrom(w, 0).0 }

  /** The market after n passes with nobody else acting. */
  function PassesOn(w: World, n: nat): World
    decreases n
  {
    if n == 0 then w else PassesOn(OnePass(w), n - 1)
  }

  lemma {:induction false} PassOrders(w: World)
    requires Solvent(w.m) && w.phase == Idle
    ensures Solvent(OnePass(w).m) && OnePass(w).phase == Idle && OnePass(w).m.orders == Passed(w.m.orders)
  {
    WholePass(w);
  }

  lemma {:induction false} PassesOnOrders(w: World, n: nat)
    requires Solvent(w.m) && w.phase == Idle
    ensures PassesOn(w, n).m.orders == Passes(w.m.orders, n)
    decreases n
  {
    if n > 0 {
      PassOrders(w);
      PassesOnOrders(OnePass(w), n - 1);
      FirstPass(w.m.orders, n);
    }
  }

  lemma {:induction false} FirstPass(orders: seq<Order>, n: nat)
    requires n > 0
    ensures Passes(orders, n) == Passes(Passed(orders), n - 1)
  {
  }

  lemma {:induction false} OwnBlock(orders: seq<Order>, j: nat, n: nat)
    requires j < |orders| && Blocks(orders[j])
    ensures |Passes(orders, n)| == |orders| && Passes(orders, n)[j] == orders[j]
    decreases n
  {
    if n > 0 {
      PassedAt(orders, j);
      OwnBlock(Passed(orders), j, n - 1);
    }
  }

  /** Behind a blocking sell, or being one, an order is never served. */
  lemma {:induction false} NeverServed(w: World, j: nat, n: nat)
    requires Solvent(w.m) && w.phase == Idle && j < |w.m.orders|
    requires Blocked(w.m.orders, j) || Blocks(w.m.orders[j])
    ensures j < |PassesOn(w, n).m.orders| && PassesOn(w, n).m.orders[j] == w.m.orders[j]
  {
    PassesOnOrders(w, n);
    if Blocks(w.m.orders[j]) {
      OwnBlock(w.m.orders, j, n);
    } else {
      BlockedForever(w.m.orders, j, n);
    }
  }

  lemma {:induction false} ServedInTime(w: World, j: nat)
    requires Solvent(w.m) && w.phase == Idle && j < |w.m.orders| && w.m.orders[j].status == Pending
    requires !Blocked(w.m.orders, j) && !Blocks(w.m.orders[j])
    ensures var n := Stuck(w.m.orders[..j]) + 1;
      j < |PassesOn(w, n).m.orders| && PassesOn(w, n).m.orders[j].status != Pending
  {
    PassesOnOrders(w, Stuck(w.m.orders[..j]) + 1);
    ReachedInTime(w.m.orders, j);
    NetIsPositive(w.m.orders[j]);
  }

  /** The order has had its turn, and it took, after n passes. */
  predicate ServedBy(w: World, j: nat, n: nat) {
    j < |PassesOn(w, n).m.orders| && PassesOn(w, n).m.orders[j].status != Pending
  }

  /**
   * While nobody else acts, a pending order is served at some time exactly when
   * neither it nor any order before it is a sell worth less than one base unit;
   * one such sell shuts out all orders placed after it. Cancelling that sell, which
   * its trader, the admin and the operator may do, opens the way again.
   */
  lemma {:induction false} ServedIffNotBlocked(w: World, j: nat)
    requires Solvent(w.m) && w.phase == Idle && j < |w.m.orders| && w.m.orders[j].status == Pending
    ensures (exists n: nat :: ServedBy(w, j, n)) <==> !Blocked(w.m.orders, j) && !Blocks(w.m.orders[j])
  {
    if Blocked(w.m.orders, j) || Blocks(w.m.orders[j]) {
      forall n: nat
        ensures !ServedBy(w, j, n)
      {
        NeverServed(w, j, n);
      }
    } else {
      ServedInTime(w, j);
      assert ServedBy(w, j, Stuck(w.m.orders[..j]) + 1);
    }
  }

  /** A sell blocks exactly when its shares at the operator's price come to less than one base unit. */
  lemma {:induction false} BlocksIff(o: Order)
    requires !o.isBuy && o.status == Pending && o.bps <= 500
    ensures Blocks(o) <==> o.amount * SellPrice(o.limit) < UNIT
  {
    SettleAcceptsIff(o.amount, o.limit, o.bps);
  }

  /** The buy of ten USDC placed behind an offer of one share unit for nothing is never served. */
  lemma {:induction false} OneUnitBlocks(n: nat)
    ensures var w := Run(EMPTY, OFFERED);
      && Solvent(w.m) && w.phase == Idle && Is(w.m, 2, true, Pending) && Servable(w.m.orders[2])
      && !ServedBy(w, 2, n)
  {
    OfferedWorld();
    var w := Run(EMPTY, OFFERED);
    var offer := w.m.orders[1];
    assert SellPrice(0) == 0 && offer.amount * SellPrice(offer.limit) == 0;
    BlocksIff(offer);
    assert Blocked(w.m.orders, 2);
    NeverServed(w, 2, n);
    assert SpreadOn(10 * UNIT, 0) == 0 && w.m.orders[2] == BUY;
  }

  // ---------- passes among the acts of others ----------

  /** A pass of the operator, or something a trader or the admin does between two passes. */
  datatype Act = FullPass | Other(e: Event)

  /** What traders do, and the admin short of doing the operator's work by hand. */
  predicate ByOthers(e: Event) {
    e.PlaceBuy? || e.PlaceSell? || e.CancelPending? || e.CancelDeployed? || e.CancelSell? || e.SweepFee? || e.SendUsdc?
  }

  /** The same, with buys that the admin deploys or confirms by hand. */
  predicate ByHand(e: Event) { ByOthers(e) || e.DeployBuy? || e.ConfirmBuy? }

  function After(w: World, act: Act): World {
    match act
    case FullPass => OnePass(w)
    case Other(e) => if ByHand(e) then Step(w, e) else w
  }

  function Acts(w: World, acts: seq<Act>): World
    decreases |acts|
  {
    if acts == [] then w else Acts(After(w, acts[0]), acts[1..])
  }

  /**
   * Behind order k the operator has done nothing: an old order is as it was or has
   * been cancelled by somebody, a new one is still pending or cancelled.
   */
  ghost predicate UntouchedBehind(before: seq<Order>, after: seq<Order>, k: nat) {
    && |before| <= |after|
    && (forall j :: k < j < |before| ==>
          after[j] == before[j]
          || (after[j].status == Cancelled && (before[j].status == Pending || before[j].status == Deployed
                                               || before[j].status == Cancelled)))
    && (forall j :: k < j < |after| && |before| <= j ==> after[j].status == Pending || after[j].status == Cancelled)
  }

  lemma {:induction false} UntouchedTwice(a: seq<Order>, b: seq<Order>, c: seq<Order>, k: nat)
    requires UntouchedBehind(a, b, k) && UntouchedBehind(b, c, k)
    ensures UntouchedBehind(a, c, k)
  {
  }

  ghost predicate UntouchedBy(before: seq<Order>, after: seq<Order>, k: nat) {
    |before| == |after| && forall j :: k < j < |before| ==> after[j] == before[j]
  }

  lemma {:induction false} PassLeavesBehind(w: World, k: nat)
    requires Solvent(w.m) && w.phase == Idle && k < |w.m.orders| && Blocks(w.m.orders[k])
    ensures var p := OnePass(w);
      && Solvent(p.m) && p.phase == Idle && k < |p.m.orders| && Blocks(p.m.orders[k])
      && UntouchedBy(w.m.orders, p.m.orders, k)
  {
    var orders := w.m.orders;
    PassOrders(w);
    PassedKeepsBlocks(orders, k);
    forall j | k < j < |orders|
      ensures Passed(orders)[j] == orders[j]
    {
      assert orders[..j][k] == orders[k];
      PassedAt(orders, j);
    }
  }

  lemma {:induction false} HandKeepsBlocks(w: World, e: Event, k: nat)
    requires Solvent(w.m) && w.phase == Idle && k < |w.m.orders| && Blocks(w.m.orders[k])
    requires ByHand(e) && e != CancelSell(k)
    ensures var next := Step(w, e);
      Solvent(next.m) && next.phase == Idle && k < |next.m.orders| && Blocks(next.m.orders[k])
  {
    StepKeepsSolvent(w, e);
  }

  lemma {:induction false} OtherLeavesBehind(w: World, e: Event, k: nat)
    requires k < |w.m.orders| && ByOthers(e)
    ensures UntouchedBehind(w.m.orders, Step(w, e).m.orders, k)
  {
  }

  /** Every pass of the run leaves all orders behind order k as they are. */
  ghost predicate PassesLeaveAlone(w: World, acts: seq<Act>, k: nat)
    decreases |acts|
  {
    acts != [] ==>
      && (acts[0].FullPass? ==> UntouchedBy(w.m.orders, OnePass(w).m.orders, k))
      && PassesLeaveAlone(After(w, acts[0]), acts[1..], k)
  }

  /**
   * Over every run of passes and of what others do in between, deployments and
   * confirmations by hand included: until a blocking sell is cancelled, no pass
   * changes an order behind it.
   */
  lemma {:induction false} PassesStopAtBlock(w: World, acts: seq<Act>, k: nat)
    requires Solvent(w.m) && w.phase == Idle && k < |w.m.orders| && Blocks(w.m.orders[k])
    requires forall i :: 0 <= i < |acts| ==> acts[i] != Other(CancelSell(k))
    ensures PassesLeaveAlone(w, acts, k)
    decreases |acts|
  {
    if acts != [] {
      if acts[0].FullPass? {
        PassLeavesBehind(w, k);
      } else if ByHand(acts[0].e) {
        HandKeepsBlocks(w, acts[0].e, k);
      }
      PassesStopAtBlock(After(w, acts[0]), acts[1..], k);
    }
  }

  /**
   * And when nobody does the operator's work by hand, no order behind it, old or
   * new, is ever deployed, filled or settled.
   */
  lemma {:induction false} BlockedUntilCancelled(w: World, acts: seq<Act>, k: nat)
    requires Solvent(w.m) && w.phase == Idle && k < |w.m.orders| && Blocks(w.m.orders[k])
    requires forall i :: 0 <= i < |acts| ==> acts[i] != Other(CancelSell(k))
    requires forall i :: 0 <= i < |acts| && acts[i].Other? ==> !acts[i].e.DeployBuy? && !acts[i].e.ConfirmBuy?
    ensures var end := Acts(w, acts);
      k < |end.m.orders| && Blocks(end.m.orders[k]) && UntouchedBehind(w.m.orders, end.m.orders, k)
    decreases |acts|
  {
    if acts != [] {
      var next := After(w, acts[0]);
      if acts[0].FullPass? {
        PassLeavesBehind(w, k);
      } else if ByHand(acts[0].e) {
        HandKeepsBlocks(w, acts[0].e, k);
        OtherLeavesBehind(w, acts[0].e, k);
      }
      BlockedUntilCancelled(next, acts[1..], k);
      UntouchedTwice(w.m.orders, next.m.orders, Acts(w, acts).m.orders, k);
    }
  }

  // ---------- an order's turn comes among the acts of others ----------

  function FullPasses(acts: seq<Act>): nat {
    if acts == [] then 0 else (if acts[0].FullPass? then 1 else 0) + FullPasses(acts[1..])
  }

  /** Orders are as they were or no longer pending. */
  ghost predicate OnlyMovesOn(a: seq<Order>, b: seq<Order>) {
    |a| <= |b| && forall i :: 0 <= i < |a| ==> b[i] == a[i] || b[i].status != Pending
  }

  lemma {:induction false} HandMovesOn(w: World, e: Event)
    requires Solvent(w.m) && w.phase == Idle && ByHand(e)
    ensures var next := Step(w, e);
      Solvent(next.m) && next.phase == Idle && OnlyMovesOn(w.m.orders, next.m.orders)
  {
    StepKeepsSolvent(w, e);
  }

  lemma {:induction false} StuckFalls(a: seq<Order>, b: seq<Order>)
    requires |a| == |b| && OnlyMovesOn(a, b)
    ensures Stuck(b) <= Stuck(a)
  {
    if a != [] {
      StuckFalls(a[1..], b[1..]);
    }
  }

  lemma {:induction false} NotBlockedStays(a: seq<Order>, b: seq<Order>, j: nat)
    requires OnlyMovesOn(a, b) && j < |a| && !Blocked(a, j)
    ensures !Blocked(b, j) && Stuck(b[..j]) <= Stuck(a[..j])
  {
    StuckFalls(a[..j], b[..j]);
  }

  /** A pass serves order j or unsticks one order in front of it. */
  lemma {:induction false} PassMovesOn(w: World, j: nat)
    requires Solvent(w.m) && w.phase == Idle && j < |w.m.orders|
    requires !Blocked(w.m.orders, j) && !Blocks(w.m.orders[j])
    ensures var p := OnePass(w); var front := w.m.orders[..j];
      && Solvent(p.m) && p.phase == Idle && |p.m.orders| == |w.m.orders|
      && !Blocked(p.m.orders, j) && !Blocks(p.m.orders[j])
      && (Stuck(front) == 0 ==> p.m.orders[j].status != Pending)
      && (Stuck(front) > 0 ==> Stuck(p.m.orders[..j]) == Stuck(front) - 1)
      && (w.m.orders[j].status != Pending ==> p.m.orders[j].status != Pending)
  {
    var orders := w.m.orders;
    var front := orders[..j];
    PassOrders(w);
    PassedAt(orders, j);
    PassedPrefix(orders, j);
    StuckIff(front);
    NetIsPositive(orders[j]);
    assert forall k :: 0 <= k < j ==> front[k] == orders[k];
    PassedUnsticks(front);
    forall k | 0 <= k <= j
      ensures !Blocks(Passed(orders)[k])
    {
      PassedKeepsBlocks(orders, k);
    }
  }

  /**
   * Over every run of passes and of what others place, cancel, refund, sweep, pay
   * in or do by hand in between: without a blocking sell at or in front of it, an
   * order has had its turn, or was taken out by somebody, as soon as the run has one
   * pass more than there were orders in front that make a pass throw.
   */
  lemma {:induction false} TurnComesInTime(w: World, acts: seq<Act>, j: nat)
    requires Solvent(w.m) && w.phase == Idle && j < |w.m.orders|
    requires !Blocked(w.m.orders, j) && !Blocks(w.m.orders[j])
    requires w.m.orders[j].status == Pending ==> FullPasses(acts) > Stuck(w.m.orders[..j])
    ensures j < |Acts(w, acts).m.orders| && Acts(w, acts).m.orders[j].status != Pending
    decreases |acts|
  {
    if acts != [] {
      var next := After(w, acts[0]);
      if acts[0].FullPass? {
        PassMovesOn(w, j);
      } else if ByHand(acts[0].e) {
        HandMovesOn(w, acts[0].e);
        NotBlockedStays(w.m.orders, next.m.orders, j);
      }
      TurnComesInTime(next, acts[1..], j);
    }
  }
}
