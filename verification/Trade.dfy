// Simulated trading (no chain): the ticket's arithmetic and what exec does to
// the demo book. Amounts and prices are real numbers.
module Trade {
  import opened Common

  const SPREAD := 15.0    // basis points, half on each side
  const FEE := 25.0       // basis points of the amount
  const DUST := 0.00000001
  const SLACK := 0.000000001

  datatype Pos = Pos(sz: real, avg: real)

  datatype Book = Book(cash: real, pos: map<string, Pos>)

  /** An order at a mid price px for a USDC amount. */
  datatype Order = Order(market: string, px: real, isBuy: bool, amt: real)

  function FillPx(o: Order): real {
    var h := o.px * SPREAD / 2.0 / 10000.0;
    if o.isBuy then o.px + h else o.px - h
  }

  function Fee(o: Order): real { o.amt * FEE / 10000.0 }

  function PosOf(b: Book, market: string): Pos {
    if market in b.pos then b.pos[market] else Pos(0.0, 0.0)
  }

  function MaxAmount(b: Book, o: Order): real {
    if o.isBuy then b.cash else PosOf(b, o.market).sz * FillPx(o)
  }

  predicate Accepted(b: Book, o: Order) {
    o.amt > 0.0 && o.amt <= MaxAmount(b, o) + SLACK
  }

  /** The size, spread and fee the ticket shows. */
  function TicketSize(o: Order): real
    requires FillPx(o) > 0.0
  {
    (if o.isBuy then o.amt - Fee(o) else o.amt) / FillPx(o)
  }

  function Abs(x: real): real { if x < 0.0 then -x else x }

  function TicketSpread(o: Order): real
    requires FillPx(o) > 0.0
  {
    Abs(FillPx(o) - o.px) * TicketSize(o)
  }

  /** The size exec trades: a sell never sells more than is held. */
  function TradedSize(b: Book, o: Order): real
    requires FillPx(o) > 0.0
  {
    var sz := TicketSize(o);
    if !o.isBuy && PosOf(b, o.market).sz < sz then PosOf(b, o.market).sz else sz
  }

  function BuyInto(p: Pos, sz: real, cost: real): Pos
    requires p.sz + sz > 0.0
  {
    Pos(p.sz + sz, (p.avg * p.sz + cost) / (p.sz + sz))
  }

  ghost predicate Held(b: Book) {
    forall m :: m in b.pos ==> b.pos[m].sz >= 0.0
  }

  lemma {:induction false} BuySizePositive(o: Order)
    requires o.isBuy && o.px > 0.0 && o.amt > 0.0
    ensures FillPx(o) > 0.0 && TicketSize(o) > 0.0
  {
    QuotientPositive(o.amt - Fee(o), FillPx(o));
  }

  lemma {:induction false} QuotientPositive(x: real, y: real)
    requires x > 0.0 && y > 0.0
    ensures x / y > 0.0
  {
  }

  /** exec, simulated branch. */
  function Exec(b: Book, o: Order): Book
    requires o.px > 0.0 && Held(b)
  {
    if !Accepted(b, o) then b
    else
      var p := PosOf(b, o.market);
      if o.isBuy then
        BuySizePositive(o);
        Book(b.cash - o.amt, b.pos[o.market := BuyInto(p, TicketSize(o), o.amt - Fee(o))])
      else
        var sz := TradedSize(b, o);
        var left := p.sz - sz;
        Book(b.cash + sz * FillPx(o) - Fee(o),
             if left < DUST then b.pos - {o.market} else b.pos[o.market := p.(sz := left)])
  }

  class SimBook {
    var cash: real
    var pos: map<string, Pos>

    function Now(): Book
      reads this
    {
      Book(cash, pos)
    }

    constructor (cash: real, pos: map<string, Pos>)
      ensures Now() == Book(cash, pos)
    {
      this.cash, this.pos := cash, pos;
    }

    method Execute(o: Order)
      requires o.px > 0.0 && Held(Now())
      modifies this
      ensures Now() == Exec(old(Now()), o)
    {
      var f, fee := FillPx(o), Fee(o);
      if !(o.amt > 0.0) || o.amt > MaxAmount(Now(), o) + SLACK {
        return;
      }
      var p := PosOf(Now(), o.market);
      if o.isBuy {
        BuySizePositive(o);
        var sz := (o.amt - fee) / f;
        pos := pos[o.market := BuyInto(p, sz, o.amt - fee)];
        cash := cash - o.amt;
      } else {
        var sz := o.amt / f;
        if p.sz < sz {
          sz := p.sz;
        }
        p := p.(sz := p.sz - sz);
        pos := pos[o.market := p];
        cash := cash + (sz * f - fee);
        if p.sz < DUST {
          pos := pos - {o.market};
        }
      }
    }
  }

  // ---------- which orders are taken ----------

  /**
   * An order leaves the book as it was exactly when it is for nothing, or for more
   * than the cash or the holding is worth, give or take a billionth.
   */
  lemma {:induction false} RefusedIff(b: Book, o: Order)
    requires o.px > 0.0 && Held(b)
    ensures Exec(b, o) == b <==>
      || o.amt <= 0.0
      || o.amt - SLACK > if o.isBuy then b.cash else PosOf(b, o.market).sz * (o.px * 0.99925)
  {
    assert !o.isBuy ==> FillPx(o) == o.px * 0.99925;
    if Accepted(b, o) && !o.isBuy {
      SellTakes(b, o);
    }
  }

  /** Even the smallest sell that is taken shows: in the cash, or in the position. */
  lemma {:induction false} SellTakes(b: Book, o: Order)
    requires o.px > 0.0 && Held(b) && Accepted(b, o) && !o.isBuy
    ensures Exec(b, o) != b
  {
    var sold := TradedSize(b, o);
    if sold * FillPx(o) == Fee(o) {
      assert sold > 0.0;
      assert o.market in b.pos;
    }
  }

  /**
   * A buy that cash covers is taken: the whole amount is paid, and what is left of
   * it after a quarter of a per cent buys at 7.5 basis points above the mid. No buy
   * leaves cash below zero by more than a billionth.
   */
  lemma {:induction false} BuysWithinCash(b: Book, o: Order)
    requires o.px > 0.0 && Held(b) && o.isBuy
    ensures b.cash >= -SLACK ==> Exec(b, o).cash >= -SLACK
    ensures 0.0 < o.amt <= b.cash ==> Exec(b, o).cash == b.cash - o.amt
    ensures 0.0 < o.amt <= b.cash ==>
      (PosOf(Exec(b, o), o.market).sz - PosOf(b, o.market).sz) * (o.px * 1.00075) == o.amt * 0.9975
  {
    if o.amt > 0.0 {
      BuySizePositive(o);
      QuotientTimes(o.amt - Fee(o), FillPx(o));
    }
  }

  /**
   * A sell within what is held is taken: the whole amount less a quarter of a per
   * cent is paid, and the size it takes is worth the amount at 7.5 basis points
   * below the mid; a rest smaller than a dust threshold goes with it.
   */
  lemma {:induction false} SellsWithinHolding(b: Book, o: Order)
    requires o.px > 0.0 && Held(b) && !o.isBuy && 0.0 < o.amt <= PosOf(b, o.market).sz * (o.px * 0.99925)
    ensures Exec(b, o).cash == b.cash + o.amt * 0.9975
    ensures FillPx(o) > 0.0
    ensures (PosOf(b, o.market).sz - PosOf(Exec(b, o), o.market).sz - Dropped(b, o)) * (o.px * 0.99925) == o.amt
  {
    PriceSides(o);
    var f := FillPx(o);
    QuotientTimes(o.amt, f);
    AtMostHeld(o.amt / f, PosOf(b, o.market).sz, f);
    ExecSize(b, o);
  }

  lemma {:induction false} AtMostHeld(x: real, y: real, f: real)
    requires f > 0.0 && x * f <= y * f
    ensures x <= y
  {
  }

  // ---------- value at a fixed mid ----------

  /** What a sell that leaves less than the dust threshold drops from the book. */
  function Dropped(b: Book, o: Order): real
    requires FillPx(o) > 0.0
  {
    var left := PosOf(b, o.market).sz - TradedSize(b, o);
    if Accepted(b, o) && !o.isBuy && left < DUST then left else 0.0
  }

  lemma {:induction false} PriceSides(o: Order)
    requires o.px > 0.0
    ensures FillPx(o) > 0.0
    ensures Abs(FillPx(o) - o.px) == o.px * 0.00075
    ensures if o.isBuy then FillPx(o) > o.px else FillPx(o) < o.px
  {
  }

  /** No other position changes, and sizes stay non-negative. */
  lemma {:induction false} ExecIsLocal(b: Book, o: Order, m: string)
    requires o.px > 0.0 && Held(b)
    ensures Held(Exec(b, o))
    ensures m != o.market ==> PosOf(Exec(b, o), m) == PosOf(b, m)
  {
    PriceSides(o);
    if Accepted(b, o) && o.isBuy {
      BuySizePositive(o);
    }
  }

  /** The size change of the traded market. */
  lemma {:induction false} ExecSize(b: Book, o: Order)
    requires o.px > 0.0 && Held(b) && Accepted(b, o) && FillPx(o) > 0.0
    ensures PosOf(Exec(b, o), o.market).sz == PosOf(b, o.market).sz
      + (if o.isBuy then TicketSize(o) else 0.0 - TradedSize(b, o)) - Dropped(b, o)
  {
    if o.isBuy {
      BuySizePositive(o);
    }
  }

  /**
   * At a fixed mid, an accepted trade lowers cash plus mark value by exactly the
   * fee and the spread on the traded size, plus any dust dropped.
   */
  lemma {:induction false} TradeCosts(b: Book, o: Order)
    requires o.px > 0.0 && Held(b) && Accepted(b, o) && FillPx(o) > 0.0
    ensures var after := Exec(b, o);
      after.cash + PosOf(after, o.market).sz * o.px
        == b.cash + PosOf(b, o.market).sz * o.px
           - Fee(o) - Abs(FillPx(o) - o.px) * TradedSize(b, o) - Dropped(b, o) * o.px
  {
    PriceSides(o);
    ExecSize(b, o);
    var f, p, x := FillPx(o), PosOf(b, o.market).sz, TradedSize(b, o);
    if o.isBuy {
      QuotientTimes(o.amt - Fee(o), f);
      BuyBalance(p, x, f, o.px, o.amt, Fee(o));
    } else {
      SellBalance(p, x, Dropped(b, o), f, o.px);
    }
  }

  lemma {:induction false} BuyBalance(p: real, x: real, f: real, px: real, amt: real, fee: real)
    requires x * f == amt - fee
    ensures (p + x) * px - amt == p * px - fee - (f - px) * x
  {
    assert (f - px) * x == x * f - x * px;
    assert (p + x) * px == p * px + x * px;
  }

  lemma {:induction false} SellBalance(p: real, x: real, dropped: real, f: real, px: real)
    ensures x * f + (p + (0.0 - x) - dropped) * px == p * px - (px - f) * x - dropped * px
  {
    assert (p + (0.0 - x) - dropped) * px == p * px - x * px - dropped * px;
    assert (px - f) * x == x * px - x * f;
  }

  /** The spread charged is the one the ticket shows, except when a sell asks for more than is held. */
  lemma {:induction false} TicketIsHonestIff(b: Book, o: Order)
    requires o.px > 0.0 && FillPx(o) > 0.0
    ensures Abs(FillPx(o) - o.px) * TradedSize(b, o) == TicketSpread(o)
      <==> o.isBuy || TicketSize(o) <= PosOf(b, o.market).sz
  {
    PriceSides(o);
    var a := Abs(FillPx(o) - o.px);
    if TradedSize(b, o) != TicketSize(o) {
      LessTimes(TradedSize(b, o), TicketSize(o), a);
    }
  }

  lemma {:induction false} LessTimes(x: real, y: real, a: real)
    requires x < y && a > 0.0
    ensures a * x < a * y
  {
  }

  // ---------- conservation over a run ----------

  function CostBasis(p: Pos): real { p.avg * p.sz }

  /** Cost basis of the listed markets. */
  function Basis(b: Book, markets: seq<string>): real {
    if markets == [] then 0.0 else CostBasis(PosOf(b, markets[0])) + Basis(b, markets[1..])
  }

  /** Fees paid, profit realised and cost basis dropped with dust. */
  datatype Tally = Tally(fees: real, realised: real, dropped: real)

  function Charge(b: Book, o: Order, t: Tally): Tally
    requires o.px > 0.0 && FillPx(o) > 0.0
  {
    if !Accepted(b, o) then t
    else if o.isBuy then t.(fees := t.fees + Fee(o))
    else
      var p := PosOf(b, o.market);
      Tally(t.fees + Fee(o),
            t.realised + TradedSize(b, o) * (FillPx(o) - p.avg),
            t.dropped + Dropped(b, o) * p.avg)
  }

  /** The quantity every trade conserves. */
  function Total(b: Book, markets: seq<string>, t: Tally): real {
    b.cash + Basis(b, markets) + t.fees - t.realised + t.dropped
  }

  lemma {:induction false} BasisElsewhere(a: Book, b: Book, markets: seq<string>, m: string)
    requires m !in markets
    requires forall x :: x != m ==> PosOf(a, x) == PosOf(b, x)
    ensures Basis(a, markets) == Basis(b, markets)
  {
    if markets != [] {
      BasisElsewhere(a, b, markets[1..], m);
    }
  }

  lemma {:induction false} BasisChange(a: Book, b: Book, markets: seq<string>, m: string)
    requires m in markets && Distinct(markets)
    requires forall x :: x != m ==> PosOf(a, x) == PosOf(b, x)
    ensures Basis(b, markets) - Basis(a, markets) == CostBasis(PosOf(b, m)) - CostBasis(PosOf(a, m))
  {
    if markets[0] == m {
      assert m !in markets[1..];
      BasisElsewhere(a, b, markets[1..], m);
    } else {
      BasisChange(a, b, markets[1..], m);
    }
  }

  lemma {:induction false} BuyIntoBasis(p: Pos, sz: real, cost: real)
    requires p.sz + sz > 0.0
    ensures CostBasis(BuyInto(p, sz, cost)) == CostBasis(p) + cost
  {
    QuotientTimes(p.avg * p.sz + cost, p.sz + sz);
  }

  /** What a sell leaves of a position. */
  function SellFrom(p: Pos, sold: real): Pos {
    if p.sz - sold < DUST then Pos(0.0, 0.0) else p.(sz := p.sz - sold)
  }

  lemma {:induction false} SellFromBasis(p: Pos, sold: real)
    ensures CostBasis(SellFrom(p, sold))
         == CostBasis(p) - sold * p.avg - (if p.sz - sold < DUST then p.sz - sold else 0.0) * p.avg
  {
    SplitBasis(p.avg, p.sz, sold, if p.sz - sold < DUST then p.sz - sold else 0.0);
  }

  lemma {:induction false} BoughtPosition(b: Book, o: Order)
    requires o.px > 0.0 && Held(b) && Accepted(b, o) && o.isBuy
    ensures FillPx(o) > 0.0 && PosOf(b, o.market).sz + TicketSize(o) > 0.0
    ensures PosOf(Exec(b, o), o.market) == BuyInto(PosOf(b, o.market), TicketSize(o), o.amt - Fee(o))
  {
    BuySizePositive(o);
  }

  lemma {:induction false} SoldPosition(b: Book, o: Order)
    requires o.px > 0.0 && Held(b) && Accepted(b, o) && !o.isBuy && FillPx(o) > 0.0
    ensures PosOf(Exec(b, o), o.market) == SellFrom(PosOf(b, o.market), TradedSize(b, o))
  {
  }

  /** How the traded position's cost basis moves on a buy. */
  lemma {:induction false} BuyBasis(b: Book, o: Order)
    requires o.px > 0.0 && Held(b) && Accepted(b, o) && o.isBuy
    ensures CostBasis(PosOf(Exec(b, o), o.market)) == CostBasis(PosOf(b, o.market)) + (o.amt - Fee(o))
  {
    BoughtPosition(b, o);
    BuyIntoBasis(PosOf(b, o.market), TicketSize(o), o.amt - Fee(o));
  }

  /** And on a sell. */
  lemma {:induction false} SellBasis(b: Book, o: Order)
    requires o.px > 0.0 && Held(b) && Accepted(b, o) && !o.isBuy && FillPx(o) > 0.0
    ensures var p := PosOf(b, o.market);
      CostBasis(PosOf(Exec(b, o), o.market)) == CostBasis(p) - TradedSize(b, o) * p.avg - Dropped(b, o) * p.avg
  {
    SoldPosition(b, o);
    SellFromBasis(PosOf(b, o.market), TradedSize(b, o));
  }

  lemma {:induction false} SplitBasis(avg: real, sz: real, sold: real, dropped: real)
    ensures avg * (sz - sold - dropped) == avg * sz - sold * avg - dropped * avg
    ensures sz - sold == dropped ==> avg * sz - sold * avg - dropped * avg == 0.0
  {
    assert avg * (sz - sold - dropped) == avg * sz - avg * sold - avg * dropped;
  }

  lemma {:induction false} BasisMoves(b: Book, o: Order, markets: seq<string>)
    requires o.px > 0.0 && Held(b) && o.market in markets
    requires Distinct(markets)
    ensures Basis(Exec(b, o), markets) - Basis(b, markets)
         == CostBasis(PosOf(Exec(b, o), o.market)) - CostBasis(PosOf(b, o.market))
  {
    forall m | m != o.market
      ensures PosOf(b, m) == PosOf(Exec(b, o), m)
    {
      ExecIsLocal(b, o, m);
    }
    BasisChange(b, Exec(b, o), markets, o.market);
  }

  lemma {:induction false} CashMoves(b: Book, o: Order)
    requires o.px > 0.0 && Held(b) && Accepted(b, o) && FillPx(o) > 0.0
    ensures Exec(b, o).cash == b.cash + if o.isBuy then 0.0 - o.amt else TradedSize(b, o) * FillPx(o) - Fee(o)
  {
  }

  /** What a trade adds to fees - realised + dropped. */
  lemma {:induction false} ChargeMoves(b: Book, o: Order, t: Tally)
    requires o.px > 0.0 && FillPx(o) > 0.0 && Accepted(b, o)
    ensures var u := Charge(b, o, t); var avg := PosOf(b, o.market).avg;
      u.fees - u.realised + u.dropped == t.fees - t.realised + t.dropped + Fee(o)
        + if o.isBuy then 0.0
          else TradedSize(b, o) * avg - TradedSize(b, o) * FillPx(o) + Dropped(b, o) * avg
  {
    if !o.isBuy {
      Profit(TradedSize(b, o), FillPx(o), PosOf(b, o.market).avg);
    }
  }

  /** The moves of cash, basis and tally cancel. */
  lemma {:induction false} Balanced(
      a: Book, b: Book, markets: seq<string>, t: Tally, u: Tally, cash: real, basis: real)
    requires b.cash == a.cash + cash && Basis(b, markets) - Basis(a, markets) == basis
    requires u.fees - u.realised + u.dropped == t.fees - t.realised + t.dropped - cash - basis
    ensures Total(b, markets, u) == Total(a, markets, t)
  {
  }

  lemma {:induction false} BuyConserves(b: Book, o: Order, markets: seq<string>, t: Tally)
    requires o.px > 0.0 && Held(b) && FillPx(o) > 0.0 && o.market in markets && Distinct(markets)
    requires Accepted(b, o) && o.isBuy
    ensures Total(Exec(b, o), markets, Charge(b, o, t)) == Total(b, markets, t)
  {
    BasisMoves(b, o, markets);
    CashMoves(b, o);
    ChargeMoves(b, o, t);
    BuyBasis(b, o);
    Balanced(b, Exec(b, o), markets, t, Charge(b, o, t), 0.0 - o.amt, o.amt - Fee(o));
  }

  lemma {:induction false} SellConserves(b: Book, o: Order, markets: seq<string>, t: Tally)
    requires o.px > 0.0 && Held(b) && FillPx(o) > 0.0 && o.market in markets && Distinct(markets)
    requires Accepted(b, o) && !o.isBuy
    ensures Total(Exec(b, o), markets, Charge(b, o, t)) == Total(b, markets, t)
  {
    BasisMoves(b, o, markets);
    CashMoves(b, o);
    ChargeMoves(b, o, t);
    SellBasis(b, o);
    var cash := TradedSize(b, o) * FillPx(o) - Fee(o);
    var basis := 0.0 - TradedSize(b, o) * PosOf(b, o.market).avg - Dropped(b, o) * PosOf(b, o.market).avg;
    Balanced(b, Exec(b, o), markets, t, Charge(b, o, t), cash, basis);
  }

  lemma {:induction false} ExecConserves(b: Book, o: Order, markets: seq<string>, t: Tally)
    requires o.px > 0.0 && Held(b) && FillPx(o) > 0.0 && o.market in markets && Distinct(markets)
    ensures Total(Exec(b, o), markets, Charge(b, o, t)) == Total(b, markets, t)
  {
    if Accepted(b, o) {
      if o.isBuy {
        BuyConserves(b, o, markets, t);
      } else {
        SellConserves(b, o, markets, t);
      }
    }
  }

  lemma {:induction false} Profit(x: real, f: real, avg: real)
    ensures x * (f - avg) == x * f - x * avg
  {
  }

  ghost predicate Priced(os: seq<Order>, markets: seq<string>) {
    forall k :: 0 <= k < |os| ==> os[k].px > 0.0 && os[k].market in markets
  }

  function Run(b: Book, os: seq<Order>, markets: seq<string>): (r: Book)
    requires Held(b) && Priced(os, markets)
    ensures Held(r)
    decreases |os|
  {
    if os == [] then b
    else
      ExecIsLocal(b, os[0], "");
      Run(Exec(b, os[0]), os[1..], markets)
  }

  function RunTally(b: Book, os: seq<Order>, markets: seq<string>, t: Tally): Tally
    requires Held(b) && Priced(os, markets)
    decreases |os|
  {
    if os == [] then t
    else
      ExecIsLocal(b, os[0], "");
      PriceSides(os[0]);
      RunTally(Exec(b, os[0]), os[1..], markets, Charge(b, os[0], t))
  }

  /**
   * Over any sequence of orders at any prices, refused ones included, cash plus
   * cost basis plus fees less realised profit, plus dropped dust, never changes.
   */
  lemma {:induction false} TradingConserves(b: Book, os: seq<Order>, markets: seq<string>, t: Tally)
    requires Held(b) && Priced(os, markets)
    requires Distinct(markets)
    ensures Total(Run(b, os, markets), markets, RunTally(b, os, markets, t)) == Total(b, markets, t)
    decreases |os|
  {
    if os != [] {
      ExecIsLocal(b, os[0], "");
      PriceSides(os[0]);
      ExecConserves(b, os[0], markets, t);
      TradingConserves(Exec(b, os[0]), os[1..], markets, Charge(b, os[0], t));
    }
  }
}
