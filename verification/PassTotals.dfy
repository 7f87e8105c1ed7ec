// What a pass hands over: shares to buyers, proceeds to sellers, and the money
// it mints for that.
module PassTotals {
  import opened Common
  import opened Fills
  import opened Funding
  import opened Pass

  /** The turn of a pending order that is servable. */
  predicate Traded(o: Order, isBuy: bool) { o.status == Pending && o.isBuy == isBuy && Servable(o) }

  /** How the totals move when an order has its turn on a market with that much free. */
  ghost predicate Moves(o: Order, free: int, t: Totals, u: Totals) {
    && t.bought <= u.bought && t.settled <= u.settled && u.sent == t.sent && u.refunded == t.refunded
    && var n, p := u.bought - t.bought, u.settled - t.settled;
    && (if Traded(o, true) then n * BuyPrice(o.limit) <= Net(o) * UNIT < (n + 1) * BuyPrice(o.limit) else n == 0)
    && (if Traded(o, false) then p * UNIT <= o.amount * SellPrice(o.limit) < (p + 1) * UNIT else p == 0)
    && u.burned == t.burned + (if Traded(o, false) then o.amount else 0)
    && u.minted == t.minted + (if p > free then p - free else 0)
  }

  lemma {:induction false} BuyMoves(w: World, id: nat)
    requires Solvent(w.m) && w.phase == Idle && Is(w.m, id, true, Pending)
    ensures Moves(w.m.orders[id], Free(w.m), w.t, Serve(w, id).0.t)
  {
    var o := w.m.orders[id];
    Deploys(w, id);
    BuyFillExistsIff(o.amount, o.limit);
    if Servable(o) {
      BuyFillIsTight(Net(o), o.limit);
    }
  }

  lemma {:induction false} SellMoves(w: World, id: nat)
    requires Solvent(w.m) && w.phase == Idle && Is(w.m, id, false, Pending)
    ensures Moves(w.m.orders[id], Free(w.m), w.t, Serve(w, id).0.t)
  {
    var o := w.m.orders[id];
    SlicesAgree(w.m);
    ProceedsAreWired(w, id);
    SettleAcceptsIff(o.amount, o.limit, o.bps);
    FloorBounds(o.amount * SellPrice(o.limit), UNIT);
    OneMore(ProceedsOf(o), UNIT);
    FloorIsGreatest(o.amount * SellPrice(o.limit), UNIT, 1);
  }

  /**
   * A turn gives a buy that can be served as many shares as its net amount pays at
   * the operator's price, no more and no fewer; burns a sell's shares, pays their
   * worth in whole base units and mints exactly what of it is missing; and any
   * other order moves no total.
   */
  lemma {:induction false} TurnMoves(w: World, id: nat)
    requires Solvent(w.m) && w.phase == Idle && id < |w.m.orders|
    ensures Moves(w.m.orders[id], Free(w.m), w.t, Serve(w, id).0.t)
  {
    if Is(w.m, id, true, Pending) {
      BuyMoves(w, id);
    } else if Is(w.m, id, false, Pending) {
      SellMoves(w, id);
    }
  }

  /** The amount a turn takes the spread on: a buy's gross amount once it is deployed, a sell's proceeds. */
  ghost function Charged(o: Order, paid: int): int {
    if o.status != Pending then 0 else if !o.isBuy then paid else if Net(o) > 0 then o.amount else 0
  }

  ghost predicate KeepsSpread(w: World, o: Order, s: World) {
    var kept, on := s.m.collected - w.m.collected, Charged(o, s.t.settled - w.t.settled);
    s.m.swept == w.m.swept && kept * 10_000 <= on * o.bps < (kept + 1) * 10_000
  }

  lemma {:induction false} BuyKeepsSpread(w: World, id: nat)
    requires Solvent(w.m) && Is(w.m, id, true, Pending)
    ensures KeepsSpread(w, w.m.orders[id], ServeBuy(w, id).0)
  {
    var o := w.m.orders[id];
    Deploys(w, id);
    FloorBounds(o.amount * o.bps, 10_000);
  }

  lemma {:induction false} SettleKeepsSpread(w: World, id: nat)
    requires Is(w.m, id, false, Pending) && w.phase == Settling(id, ProceedsOf(w.m.orders[id]))
    ensures KeepsSpread(w, w.m.orders[id], Step(w, Settle))
  {
    FloorBounds(ProceedsOf(w.m.orders[id]) * w.m.orders[id].bps, 10_000);
  }

  lemma {:induction false} SellKeepsSpread(w: World, id: nat)
    requires Solvent(w.m) && w.phase == Idle && Is(w.m, id, false, Pending)
    ensures KeepsSpread(w, w.m.orders[id], ServeSell(w, id).0)
  {
    ProceedsAreWired(w, id);
    var m := Step(Step(w, Read(id)), MintConfirmed);
    assert m.m.collected == w.m.collected && m.m.swept == w.m.swept && m.t.settled == w.t.settled;
    SettleKeepsSpread(m, id);
  }

  /** And of that it keeps the order's basis points, floored, for the sweep. */
  lemma {:induction false} TurnKeepsSpread(w: World, id: nat)
    requires Solvent(w.m) && w.phase == Idle && id < |w.m.orders|
    ensures KeepsSpread(w, w.m.orders[id], Serve(w, id).0)
  {
    if Is(w.m, id, true, Pending) {
      BuyKeepsSpread(w, id);
    } else if Is(w.m, id, false, Pending) {
      SellKeepsSpread(w, id);
    }
  }

  // ---------- over a pass ----------

  datatype Kind = Shares | Proceeds | Burned

  /** What the turn of an order gives: whole share units, or whole base units. */
  function Gives(o: Order, kind: Kind): nat {
    match kind
    case Shares => if Traded(o, true) then Net(o) * UNIT / BuyPrice(o.limit) else 0
    case Proceeds => if Traded(o, false) then o.amount * SellPrice(o.limit) / UNIT else 0
    case Burned => if Traded(o, false) then o.amount else 0
  }

  /** The sum over the orders a pass reaches: all up to the first that is not servable. */
  function Reached(orders: seq<Order>, kind: Kind): nat {
    if orders == [] then 0
    else Gives(orders[0], kind) + if Servable(orders[0]) then Reached(orders[1..], kind) else 0
  }

  lemma {:induction false} OneFloor(q: nat, a: nat, b: nat)
    requires b > 0 && q * b <= a < (q + 1) * b
    ensures q == a / b
  {
    OneMore(q, b);
    Greatest(q, a, b, a / b);
    FloorIsGreatest(a, b, q);
    FloorBounds(a, b);
  }

  lemma {:induction false} MovesGives(o: Order, free: int, t: Totals, u: Totals)
    requires Moves(o, free, t, u)
    ensures u.bought == t.bought + Gives(o, Shares) && u.settled == t.settled + Gives(o, Proceeds)
    ensures u.burned == t.burned + Gives(o, Burned)
  {
    if Traded(o, true) {
      OneFloor(u.bought - t.bought, Net(o) * UNIT, BuyPrice(o.limit));
    } else if Traded(o, false) {
      OneFloor(u.settled - t.settled, o.amount * SellPrice(o.limit), UNIT);
    }
  }

  /** A turn leaves free what was free, plus what it minted, less what it paid. */
  lemma {:induction false} TurnFree(w: World, id: nat)
    requires Solvent(w.m) && w.phase == Idle && id < |w.m.orders|
    ensures Free(Serve(w, id).0.m) == Free(w.m) + Moved(w.t, Serve(w, id).0.t)
  {
    if Is(w.m, id, true, Pending) {
      BuyFree(w, id);
    } else if Is(w.m, id, false, Pending) {
      SellFree(w, id);
    }
  }

  lemma {:induction false} BuyFree(w: World, id: nat)
    requires Solvent(w.m) && Is(w.m, id, true, Pending)
    ensures Free(ServeBuy(w, id).0.m) == Free(w.m) + Moved(w.t, ServeBuy(w, id).0.t)
  {
    var d := Step(w, DeployBuy(id));
    StepKeepsSolvent(w, DeployBuy(id));
    if Is(d.m, id, true, Deployed) && d.m.orders[id].feePaid <= d.m.orders[id].amount {
      var f := FillBuy(d.m.orders[id].amount - d.m.orders[id].feePaid, d.m.orders[id].limit);
      if f.BuyFill? {
        StepKeepsSolvent(d, ConfirmBuy(id, f.shares, f.price));
      }
    }
  }

  lemma {:induction false} SellFree(w: World, id: nat)
    requires Solvent(w.m)
    ensures Free(ServeSell(w, id).0.m) == Free(w.m) + Moved(w.t, ServeSell(w, id).0.t)
  {
    var read := Step(w, Read(id));
    StepKeepsSolvent(w, Read(id));
    StepKeepsSolvent(read, MintConfirmed);
    StepKeepsSolvent(Step(read, MintConfirmed), Settle);
  }

  /** Totals that moved by these amounts, money minted for what was not free. */
  ghost predicate Rose(t: Totals, u: Totals, free: int, shares: nat, paid: nat, burned: nat) {
    && u.bought == t.bought + shares && u.settled == t.settled + paid && u.burned == t.burned + burned
    && u.sent == t.sent && u.refunded == t.refunded && u.minted == t.minted + Max(0, paid - free)
  }

  /** A turn in the numbers of the order alone. */
  lemma {:induction false} TurnGives(w: World, id: nat)
    requires Solvent(w.m) && w.phase == Idle && id < |w.m.orders|
    ensures var o := w.m.orders[id]; var s := Serve(w, id).0;
      && Rose(w.t, s.t, Free(w.m), Gives(o, Shares), Gives(o, Proceeds), Gives(o, Burned))
      && Free(s.m) == Max(0, Free(w.m) - Gives(o, Proceeds))
  {
    TurnMoves(w, id);
    MovesGives(w.m.orders[id], Free(w.m), w.t, Serve(w, id).0.t);
    TurnFree(w, id);
  }

  /** What the second part mints besides the first is what the first left missing. */
  lemma {:induction false} RoseTwice(
      t: Totals, u: Totals, v: Totals, free: int, a: nat, b: nat, c: nat, x: nat, y: nat, z: nat)
    requires free >= 0 && Rose(t, u, free, a, b, c) && Rose(u, v, Max(0, free - b), x, y, z)
    ensures Rose(t, v, free, a + x, b + y, c + z)
  {
  }

  lemma {:induction false} ReachedStep(orders: seq<Order>, id: nat, kind: Kind)
    requires id < |orders|
    ensures Reached(orders[id..], kind)
      == Gives(orders[id], kind) + if Servable(orders[id]) then Reached(orders[id+1..], kind) else 0
  {
    assert orders[id..][0] == orders[id] && orders[id..][1..] == orders[id+1..];
  }

  ghost predicate LoopRose(w: World, id: nat, orders: seq<Order>) {
    Rose(w.t, PassFrom(w, id).0.t, Free(w.m),
         Reached(orders, Shares), Reached(orders, Proceeds), Reached(orders, Burned))
  }

  lemma {:induction false} LoopStep(w: World, id: nat)
    requires Solvent(w.m) && w.phase == Idle && id < |w.m.orders|
    requires var s := Serve(w, id); s.1 ==> LoopRose(s.0, id + 1, w.m.orders[id+1..])
    ensures LoopRose(w, id, w.m.orders[id..])
  {
    var o, rest, s := w.m.orders[id], w.m.orders[id+1..], Serve(w, id);
    ServeFacts(w, id);
    TurnGives(w, id);
    ReachedStep(w.m.orders, id, Shares);
    ReachedStep(w.m.orders, id, Proceeds);
    ReachedStep(w.m.orders, id, Burned);
    if s.1 {
      RoseTwice(w.t, s.0.t, PassFrom(s.0, id + 1).0.t, Free(w.m),
                Gives(o, Shares), Gives(o, Proceeds), Gives(o, Burned),
                Reached(rest, Shares), Reached(rest, Proceeds), Reached(rest, Burned));
    }
  }

  /** The loop from order id on. */
  lemma {:induction false} LoopTotals(w: World, id: nat)
    requires Solvent(w.m) && w.phase == Idle && id <= |w.m.orders|
    ensures LoopRose(w, id, w.m.orders[id..])
    decreases |w.m.orders| - id
  {
    if id < |w.m.orders| {
      var s := Serve(w, id);
      ServeFacts(w, id);
      if s.1 {
        TurnInPlace(w.m.orders, id, Turn(w.m.orders[id]));
        LoopTotals(s.0, id + 1);
      }
      LoopStep(w, id);
    }
  }

  /**
   * A whole pass buys, pays and burns exactly the sums over the orders it reaches,
   * and mints what of all the proceeds together was not free at its start, no more.
   */
  lemma {:induction false} PassMoves(w: World)
    requires Solvent(w.m) && w.phase == Idle
    ensures var u := PassFrom(w, 0).0.t; var orders := w.m.orders; var paid := Reached(orders, Proceeds);
      && u.bought == w.t.bought + Reached(orders, Shares) && u.settled == w.t.settled + paid
      && u.burned == w.t.burned + Reached(orders, Burned) && u.sent == w.t.sent && u.refunded == w.t.refunded
      && u.minted == w.t.minted + Max(0, paid - Free(w.m))
  {
    assert w.m.orders[0..] == w.m.orders;
    LoopTotals(w, 0);
  }
}
