// loadChainBook: the wallet's balances and positions, read from chain, with the
// trades whose custodian leg has not landed laid over them.
module Book {
  import opened Common

  datatype Status = Pending | Deployed | Filled | Settled | Cancelled

  /** A trade shown as executed: what a buy will bring (size, for its usdc) or a sell will pay. */
  datatype Pend = Pend(ticker: string, market: string, orderId: nat, isBuy: bool, sz: real, usdc: real, proceeds: real)

  datatype Pos = Pos(sz: real, avg: real)

  datatype Market = Market(id: string, ticker: Option<string>, px: real)

  datatype Holding = Holding(tokens: real, avgCost: real)

  /** getMyOrders for one ticker: failed, or the status of each order found. */
  datatype Read = Failed | Orders(status: map<nat, Status>)

  datatype Ledger = Ledger(cash: real, pos: map<string, Pos>)

  // ---------- which trades are still pending ----------

  /** A trade stays while its order cannot be read, is not found, or has not landed. */
  predicate Kept(p: Pend, read: Read) {
    match read
    case Failed => true
    case Orders(status) =>
      p.orderId !in status || status[p.orderId] == Pending || status[p.orderId] == Deployed
  }

  /** The tickers of the pending trades, each once, in order of first appearance. */
  function Tickers(ps: seq<Pend>): seq<string> {
    if ps == [] then []
    else
      var front := Tickers(ps[..|ps|-1]);
      var t := ps[|ps|-1].ticker;
      if t in front then front else front + [t]
  }

  function KeptOf(ps: seq<Pend>, t: string, read: Read): seq<Pend> {
    if ps == [] then []
    else (if ps[0].ticker == t && Kept(ps[0], read) then [ps[0]] else []) + KeptOf(ps[1..], t, read)
  }

  /** Ticker by ticker, the trades that stay. */
  function StillBy(ts: seq<string>, ps: seq<Pend>, answers: string -> Read): seq<Pend> {
    if ts == [] then [] else KeptOf(ps, ts[0], answers(ts[0])) + StillBy(ts[1..], ps, answers)
  }

  function Still(ps: seq<Pend>, answers: string -> Read): seq<Pend> {
    StillBy(Tickers(ps), ps, answers)
  }

  // ---------- the book ----------

  function SpotPositions(ms: seq<Market>, spot: map<string, Holding>): map<string, Pos> {
    if ms == [] then map[]
    else
      var m, rest := ms[|ms|-1], SpotPositions(ms[..|ms|-1], spot);
      if m.ticker.Some? && m.ticker.value in spot && spot[m.ticker.value].tokens > 0.0 then
        var h := spot[m.ticker.value];
        rest[m.id := Pos(h.tokens, if h.avgCost != 0.0 then h.avgCost else m.px)]
      else rest
  }

  function PosOf(pos: map<string, Pos>, market: string): Pos {
    if market in pos then pos[market] else Pos(0.0, 0.0)
  }

  /** Buys carry a positive size, as the app only records those; positions are not negative. */
  ghost predicate Sized(ps: seq<Pend>) {
    forall k :: 0 <= k < |ps| && ps[k].isBuy ==> ps[k].sz > 0.0
  }

  ghost predicate Held(pos: map<string, Pos>) {
    forall m :: m in pos ==> pos[m].sz >= 0.0
  }

  /** A position after buying sz more for usdc in all. */
  function Bigger(q: Pos, sz: real, usdc: real): Pos
    requires q.sz >= 0.0 && sz > 0.0
  {
    Pos(q.sz + sz, (q.avg * q.sz + usdc) / (q.sz + sz))
  }

  function AddOne(b: Ledger, p: Pend): (r: Ledger)
    requires p.isBuy ==> p.sz > 0.0 && PosOf(b.pos, p.market).sz >= 0.0
    ensures Held(b.pos) ==> Held(r.pos)
  {
    if p.isBuy then
      b.(pos := b.pos[p.market := Bigger(PosOf(b.pos, p.market), p.sz, p.usdc)])
    else
      b.(cash := b.cash + p.proceeds)
  }

  function Overlay(b: Ledger, ps: seq<Pend>): (r: Ledger)
    requires Sized(ps) && Held(b.pos)
    ensures Held(r.pos)
    decreases |ps|
  {
    if ps == [] then b else AddOne(Overlay(b, ps[..|ps|-1]), ps[|ps|-1])
  }

  class ChainBook {
    var cash: real
    var chainUsdc: real
    var pos: map<string, Pos>
    var pending: seq<Pend>

    constructor ()
      ensures cash == 0.0 && chainUsdc == 0.0 && pos == map[] && pending == []
    {
      cash, chainUsdc, pos, pending := 0.0, 0.0, map[], [];
    }

    method CollectStill(answers: string -> Read) returns (still: seq<Pend>)
      ensures still == Still(pending, answers)
    {
      still := [];
      var ts := Tickers(pending);
      for k := 0 to |ts|
        invariant still + StillBy(ts[k..], pending, answers) == Still(pending, answers)
      {
        assert ts[k..][0] == ts[k] && ts[k..][1..] == ts[k+1..];
        still := still + KeptOf(pending, ts[k], answers(ts[k]));
      }
    }

    method SetPositions(ms: seq<Market>, spot: map<string, Holding>)
      modifies this`pos
      ensures pos == SpotPositions(ms, spot)
    {
      pos := map[];
      for k := 0 to |ms|
        invariant pos == SpotPositions(ms[..k], spot)
      {
        assert ms[..k+1][..k] == ms[..k];
        var m := ms[k];
        if m.ticker.Some? && m.ticker.value in spot && spot[m.ticker.value].tokens > 0.0 {
          var h := spot[m.ticker.value];
          pos := pos[m.id := Pos(h.tokens, if h.avgCost != 0.0 then h.avgCost else m.px)];
        }
      }
      assert ms[..|ms|] == ms;
    }

    method LayOver(still: seq<Pend>)
      requires Sized(still) && Held(pos)
      modifies this`pos, this`cash
      ensures Ledger(cash, pos) == Overlay(old(Ledger(cash, pos)), still)
    {
      for k := 0 to |still|
        invariant Sized(still[..k]) && Held(pos)
        invariant Ledger(cash, pos) == Overlay(old(Ledger(cash, pos)), still[..k])
      {
        assert still[..k+1][..k] == still[..k];
        var p := still[k];
        if p.isBuy {
          pos := pos[p.market := Bigger(PosOf(pos, p.market), p.sz, p.usdc)];
        } else {
          cash := cash + p.proceeds;
        }
      }
      assert still[..|still|] == still;
    }

    /** The whole load, given what its reads answer; false leaves the book as it was. */
    method Load(ms: seq<Market>, usdc: Option<real>, spot: Option<map<string, Holding>>, answers: string -> Read)
      returns (ok: bool)
      requires Sized(pending)
      modifies this
      ensures ok == (usdc.Some? && spot.Some?)
      ensures !ok ==> unchanged(this)
      ensures ok ==>
        && pending == Still(old(pending), answers) && Sized(pending) && chainUsdc == usdc.value
        && Held(SpotPositions(ms, spot.value))
        && Ledger(cash, pos) == Overlay(Ledger(usdc.value, SpotPositions(ms, spot.value)), pending)
    {
      if usdc.None? || spot.None? {
        return false;
      }
      cash, chainUsdc := usdc.value, usdc.value;
      SetPositions(ms, spot.value);
      SpotIsHeld(ms, spot.value);
      StillIsKept(pending, answers);
      pending := CollectStill(answers);
      LayOver(pending);
      return true;
    }
  }

  lemma {:induction false} SpotIsHeld(ms: seq<Market>, spot: map<string, Holding>)
    ensures Held(SpotPositions(ms, spot))
  {
    if ms != [] {
      SpotIsHeld(ms[..|ms|-1], spot);
    }
  }

  /** The wallet holds tokens of the market. */
  ghost predicate Owned(m: Market, spot: map<string, Holding>) {
    m.ticker.Some? && m.ticker.value in spot && spot[m.ticker.value].tokens > 0.0
  }

  /** The market's position: its tokens, at their average cost, or at the mark when no cost is known. */
  ghost predicate IsPositionOf(q: Pos, m: Market, spot: map<string, Holding>)
    requires Owned(m, spot)
  {
    && q.sz == spot[m.ticker.value].tokens
    && (spot[m.ticker.value].avgCost != 0.0 ==> q.avg == spot[m.ticker.value].avgCost)
    && (spot[m.ticker.value].avgCost == 0.0 ==> q.avg == m.px)
  }

  /** The positions are exactly those of the markets the wallet holds tokens of. */
  lemma {:induction false} SpotIsOwned(ms: seq<Market>, spot: map<string, Holding>)
    requires forall i, j :: 0 <= i < j < |ms| ==> ms[i].id != ms[j].id
    ensures forall x :: x in SpotPositions(ms, spot) <==>
      exists k :: 0 <= k < |ms| && ms[k].id == x && Owned(ms[k], spot)
    ensures forall k :: 0 <= k < |ms| && Owned(ms[k], spot) ==>
      ms[k].id in SpotPositions(ms, spot) && IsPositionOf(SpotPositions(ms, spot)[ms[k].id], ms[k], spot)
  {
    if ms != [] {
      var front, last := ms[..|ms|-1], ms[|ms|-1];
      SpotIsOwned(front, spot);
      forall x
        ensures x in SpotPositions(ms, spot) <==> exists k :: 0 <= k < |ms| && ms[k].id == x && Owned(ms[k], spot)
      {
        if k :| 0 <= k < |front| && front[k].id == x && Owned(front[k], spot) {
          assert ms[k] == front[k];
        }
        if k :| 0 <= k < |ms| && ms[k].id == x && Owned(ms[k], spot) {
          assert k < |front| ==> front[k] == ms[k];
        }
      }
      forall k | 0 <= k < |ms| && Owned(ms[k], spot)
        ensures ms[k].id in SpotPositions(ms, spot) && IsPositionOf(SpotPositions(ms, spot)[ms[k].id], ms[k], spot)
      {
        assert k < |front| ==> front[k] == ms[k];
      }
    }
  }

  // ---------- exactly the kept trades, each once ----------

  function KeptIn(ps: seq<Pend>, answers: string -> Read): seq<Pend> {
    if ps == [] then []
    else (if Kept(ps[0], answers(ps[0].ticker)) then [ps[0]] else []) + KeptIn(ps[1..], answers)
  }

  lemma {:induction false} KeptOfCount(ps: seq<Pend>, t: string, answers: string -> Read, x: Pend)
    ensures multiset(KeptOf(ps, t, answers(t)))[x] == if x.ticker == t then multiset(KeptIn(ps, answers))[x] else 0
  {
    if ps != [] {
      KeptOfCount(ps[1..], t, answers, x);
    }
  }

  lemma {:induction false} StillByCount(ts: seq<string>, ps: seq<Pend>, answers: string -> Read, x: Pend)
    requires Distinct(ts)
    ensures multiset(StillBy(ts, ps, answers))[x] == if x.ticker in ts then multiset(KeptIn(ps, answers))[x] else 0
  {
    if ts != [] {
      KeptOfCount(ps, ts[0], answers, x);
      StillByCount(ts[1..], ps, answers, x);
      assert x.ticker in ts <==> x.ticker == ts[0] || x.ticker in ts[1..];
    }
  }

  lemma {:induction false} TickersFacts(ps: seq<Pend>)
    ensures var ts := Tickers(ps);
      && Distinct(ts)
      && (forall k :: 0 <= k < |ps| ==> ps[k].ticker in ts)
    decreases |ps|
  {
    if ps != [] {
      TickersFacts(ps[..|ps|-1]);
      forall k | 0 <= k < |ps|
        ensures ps[k].ticker in Tickers(ps)
      {
        if k < |ps| - 1 {
          assert ps[k] == ps[..|ps|-1][k];
        }
      }
    }
  }

  lemma {:induction false} KeptInSubset(ps: seq<Pend>, answers: string -> Read, x: Pend)
    ensures x in KeptIn(ps, answers) <==> x in ps && Kept(x, answers(x.ticker))
  {
    if ps != [] {
      KeptInSubset(ps[1..], answers, x);
      assert x in ps <==> x == ps[0] || x in ps[1..];
    }
  }

  /** What stays pending is exactly the kept trades, each as often as before. */
  lemma {:induction false} StillIsKept(ps: seq<Pend>, answers: string -> Read)
    ensures multiset(Still(ps, answers)) == multiset(KeptIn(ps, answers))
    ensures Sized(ps) ==> Sized(Still(ps, answers))
  {
    TickersFacts(ps);
    forall x
      ensures multiset(Still(ps, answers))[x] == multiset(KeptIn(ps, answers))[x]
    {
      StillByCount(Tickers(ps), ps, answers, x);
      KeptInSubset(ps, answers, x);
    }
    forall k | 0 <= k < |Still(ps, answers)|
      ensures Still(ps, answers)[k] in ps
    {
      assert Still(ps, answers)[k] in multiset(Still(ps, answers));
      KeptInSubset(ps, answers, Still(ps, answers)[k]);
    }
  }

  /**
   * A trade stays exactly when its order could not be read, was not found, or was
   * found neither landed nor cancelled; one found final is in no later overlay.
   */
  lemma {:induction false} StaysIff(ps: seq<Pend>, p: Pend, answers: string -> Read, later: string -> Read)
    requires p in ps
    ensures var read := answers(p.ticker);
      p !in Still(ps, answers) <==>
        read.Orders? && p.orderId in read.status && read.status[p.orderId] in {Filled, Settled, Cancelled}
    ensures p !in Still(ps, answers) ==> p !in Still(Still(ps, answers), later)
  {
    StillIsKept(ps, answers);
    KeptInSubset(ps, answers, p);
    assert p in Still(ps, answers) <==> p in multiset(Still(ps, answers));
    StillIsKept(Still(ps, answers), later);
    KeptInSubset(Still(ps, answers), later, p);
    assert p in Still(Still(ps, answers), later) <==> p in multiset(Still(Still(ps, answers), later));
  }

  // ---------- what the overlay adds ----------

  /** The three things a trade can add: size, usdc spent, or proceeds. */
  datatype Kind = Size(market: string) | Cost(market: string) | Proceeds

  function Adds(p: Pend, kind: Kind): real {
    match kind
    case Size(m) => if p.isBuy && p.market == m then p.sz else 0.0
    case Cost(m) => if p.isBuy && p.market == m then p.usdc else 0.0
    case Proceeds => if p.isBuy then 0.0 else p.proceeds
  }

  function Sum(kind: Kind, ps: seq<Pend>): real {
    if ps == [] then 0.0 else Sum(kind, ps[..|ps|-1]) + Adds(ps[|ps|-1], kind)
  }

  function CostBasis(q: Pos): real { q.avg * q.sz }

  lemma {:induction false} BiggerFacts(q: Pos, sz: real, usdc: real)
    requires q.sz >= 0.0 && sz > 0.0
    ensures Bigger(q, sz, usdc).sz == q.sz + sz
    ensures CostBasis(Bigger(q, sz, usdc)) == CostBasis(q) + usdc
  {
    QuotientTimes(q.avg * q.sz + usdc, q.sz + sz);
  }

  /** What one trade adds to a market's position and to cash. */
  lemma {:induction false} AddOneFacts(b: Ledger, p: Pend, market: string)
    requires Held(b.pos) && (p.isBuy ==> p.sz > 0.0)
    ensures var r := AddOne(b, p);
      && r.cash == b.cash + Adds(p, Proceeds)
      && PosOf(r.pos, market).sz == PosOf(b.pos, market).sz + Adds(p, Size(market))
      && CostBasis(PosOf(r.pos, market)) == CostBasis(PosOf(b.pos, market)) + Adds(p, Cost(market))
  {
    if p.isBuy {
      BiggerFacts(PosOf(b.pos, p.market), p.sz, p.usdc);
    }
  }

  /**
   * The overlay adds exactly the pending sizes to each position, exactly the
   * pending usdc to its size x average cost, and exactly the pending proceeds to cash.
   */
  lemma {:induction false} OverlayAdds(b: Ledger, ps: seq<Pend>, market: string)
    requires Sized(ps) && Held(b.pos)
    ensures var r := Overlay(b, ps);
      && r.cash == b.cash + Sum(Proceeds, ps)
      && PosOf(r.pos, market).sz == PosOf(b.pos, market).sz + Sum(Size(market), ps)
      && CostBasis(PosOf(r.pos, market)) == CostBasis(PosOf(b.pos, market)) + Sum(Cost(market), ps)
    decreases |ps|
  {
    if ps != [] {
      OverlayAdds(b, ps[..|ps|-1], market);
      AddOneFacts(Overlay(b, ps[..|ps|-1]), ps[|ps|-1], market);
    }
  }

  lemma {:induction false} SumSplit(kind: Kind, a: seq<Pend>, x: Pend, b: seq<Pend>)
    ensures Sum(kind, a + [x] + b) == Sum(kind, a + b) + Adds(x, kind)
    decreases |b|
  {
    if b == [] {
      assert a + [x] + b == a + [x] && (a + [x])[..|a|] == a && a + b == a;
    } else {
      var n := |b| - 1;
      assert (a + [x] + b)[..|a| + 1 + n] == a + [x] + b[..n];
      assert (a + b)[..|a| + n] == a + b[..n];
      SumSplit(kind, a, x, b[..n]);
    }
  }

  lemma {:induction false} MultisetWithout(a: seq<Pend>, c: seq<Pend>, x: Pend, d: seq<Pend>)
    requires a != [] && a[|a|-1] == x && multiset(a) == multiset(c + [x] + d)
    ensures multiset(a[..|a|-1]) == multiset(c + d)
  {
    var front := a[..|a|-1];
    assert a == front + [x];
    forall y
      ensures multiset(front)[y] == multiset(c + d)[y]
    {
      assert multiset(front + [x])[y] == multiset(front)[y] + multiset([x])[y];
      assert multiset(c + [x] + d)[y] == multiset(c)[y] + multiset([x])[y] + multiset(d)[y];
    }
  }

  lemma {:induction false} SumIgnoresOrder(kind: Kind, a: seq<Pend>, b: seq<Pend>)
    requires multiset(a) == multiset(b)
    ensures Sum(kind, a) == Sum(kind, b)
    decreases |a|
  {
    if a == [] {
      assert |multiset(b)| == 0;
    } else {
      var x := a[|a|-1];
      assert x in multiset(b);
      var k :| 0 <= k < |b| && b[k] == x;
      var c, d := b[..k], b[k+1..];
      assert b == c + [x] + d;
      MultisetWithout(a, c, x, d);
      SumSplit(kind, c, x, d);
      SumIgnoresOrder(kind, a[..|a|-1], c + d);
    }
  }

  ghost predicate Bought(ps: seq<Pend>, market: string) {
    exists k :: 0 <= k < |ps| && ps[k].isBuy && ps[k].market == market
  }

  lemma {:induction false} BoughtSnoc(ps: seq<Pend>, market: string)
    requires ps != []
    ensures Bought(ps, market) <==>
      Bought(ps[..|ps|-1], market) || (ps[|ps|-1].isBuy && ps[|ps|-1].market == market)
  {
    var front := ps[..|ps|-1];
    if Bought(front, market) {
      var k :| 0 <= k < |front| && front[k].isBuy && front[k].market == market;
      assert ps[k] == front[k];
    }
  }

  lemma {:induction false} OverlayKeys(b: Ledger, ps: seq<Pend>, market: string)
    requires Sized(ps) && Held(b.pos)
    ensures market in Overlay(b, ps).pos <==> market in b.pos || Bought(ps, market)
    ensures Bought(ps, market) ==> Overlay(b, ps).pos[market].sz > 0.0
    ensures !Bought(ps, market) ==> PosOf(Overlay(b, ps).pos, market) == PosOf(b.pos, market)
    decreases |ps|
  {
    if ps != [] {
      var front, p := ps[..|ps|-1], ps[|ps|-1];
      OverlayKeys(b, front, market);
      BoughtSnoc(ps, market);
      if p.isBuy && p.market == market {
        BiggerFacts(PosOf(Overlay(b, front).pos, market), p.sz, p.usdc);
      }
    }
  }

  lemma {:induction false} BoughtIgnoresOrder(a: seq<Pend>, b: seq<Pend>, market: string)
    requires multiset(a) == multiset(b) && Bought(a, market)
    ensures Bought(b, market)
  {
    var k :| 0 <= k < |a| && a[k].isBuy && a[k].market == market;
    assert a[k] in multiset(b);
    var j :| 0 <= j < |b| && b[j] == a[k];
  }

  lemma {:induction false} SameQuotient(x: Pos, y: Pos)
    requires x.sz == y.sz > 0.0 && CostBasis(x) == CostBasis(y)
    ensures x == y
  {
    FactorOut(x.avg, y.avg, x.sz);
  }

  lemma {:induction false} FactorOut(a: real, b: real, c: real)
    requires c > 0.0 && a * c == b * c
    ensures a == b
  {
  }

  /** The book does not depend on the order of the pending trades. */
  lemma {:induction false} OverlayIgnoresOrder(b: Ledger, ps: seq<Pend>, qs: seq<Pend>)
    requires Sized(ps) && Sized(qs) && Held(b.pos) && multiset(ps) == multiset(qs)
    ensures Overlay(b, ps) == Overlay(b, qs)
  {
    var r, s := Overlay(b, ps), Overlay(b, qs);
    OverlayAdds(b, ps, "");
    OverlayAdds(b, qs, "");
    SumIgnoresOrder(Proceeds, ps, qs);
    forall m
      ensures (m in r.pos <==> m in s.pos) && PosOf(r.pos, m) == PosOf(s.pos, m)
    {
      SamePosition(b, ps, qs, m);
    }
    assert forall m :: m in r.pos ==> r.pos[m] == PosOf(r.pos, m) == PosOf(s.pos, m) == s.pos[m];
    assert r.pos == s.pos;
  }

  lemma {:induction false} SamePosition(b: Ledger, ps: seq<Pend>, qs: seq<Pend>, m: string)
    requires Sized(ps) && Sized(qs) && Held(b.pos) && multiset(ps) == multiset(qs)
    ensures m in Overlay(b, ps).pos <==> m in Overlay(b, qs).pos
    ensures PosOf(Overlay(b, ps).pos, m) == PosOf(Overlay(b, qs).pos, m)
  {
    OverlayKeys(b, ps, m);
    OverlayKeys(b, qs, m);
    if Bought(ps, m) {
      BoughtIgnoresOrder(ps, qs, m);
      OverlayAdds(b, ps, m);
      OverlayAdds(b, qs, m);
      SumIgnoresOrder(Size(m), ps, qs);
      SumIgnoresOrder(Cost(m), ps, qs);
      SameQuotient(PosOf(Overlay(b, ps).pos, m), PosOf(Overlay(b, qs).pos, m));
    } else if Bought(qs, m) {
      BoughtIgnoresOrder(qs, ps, m);
    }
  }

  // ---------- no order is counted twice ----------

  /** How an order's status may change over time: forward only, and final ones stay. */
  function Rank(s: Status): nat {
    match s
    case Pending => 0
    case Deployed => 1
    case _ => 2
  }

  ghost predicate Forward(status: nat -> Status) {
    forall i, j :: 0 <= i <= j ==>
      Rank(status(i)) <= Rank(status(j)) && (Rank(status(i)) == 2 ==> status(j) == status(i))
  }

  /** The order's tokens or proceeds are in the wallet at that time. */
  predicate Landed(s: Status) { s == Filled || s == Settled }

  /** The read reports the order's status of some time not before the balance snapshot. */
  ghost predicate Faithful(read: Read, id: nat, status: nat -> Status, at: nat) {
    read.Orders? && id in read.status ==> read.status[id] == status(at)
  }

  /**
   * With balances read at time `snap` and statuses later, an order that is in
   * the balances is also laid over them exactly when its own status read failed
   * or did not find it.
   */
  lemma {:induction false} DoubleCountedIff(p: Pend, read: Read, status: nat -> Status, snap: nat, at: nat)
    requires Forward(status) && snap <= at && Faithful(read, p.orderId, status, at)
    requires Landed(status(snap))
    ensures Kept(p, read) <==> read.Failed? || p.orderId !in read.status
  {
    assert Rank(status(snap)) <= Rank(status(at));
  }

  /** How often an order's tokens or proceeds are in the loaded book. */
  function TimesCounted(p: Pend, read: Read, atSnap: Status): nat {
    (if Landed(atSnap) then 1 else 0) + (if Kept(p, read) then 1 else 0)
  }

  /**
   * An order that is not cancelled is counted exactly once, unless it landed
   * between the balance snapshot and its status read (then not at all, until the
   * next load), or was in the balances already and its read failed or missed it
   * (then twice).
   */
  lemma {:induction false} CountedOnceIff(p: Pend, read: Read, status: nat -> Status, snap: nat, at: nat)
    requires Forward(status) && snap <= at && Faithful(read, p.orderId, status, at) && status(at) != Cancelled
    ensures TimesCounted(p, read, status(snap)) == 1 <==>
      if read.Failed? || p.orderId !in read.status then !Landed(status(snap))
      else Landed(status(snap)) || !Landed(status(at))
  {
    assert Rank(status(snap)) <= Rank(status(at));
  }

  /** A buy pending at the balance read and filled by its status read: in neither, and no longer pending. */
  lemma {:induction false} LandedBetweenReads()
    ensures var p := Pend("T", "m", 0, true, 1.0, 2.0, 0.0);
      var status := (t: nat) => if t == 0 then Pending else Filled;
      var read := Orders(map[0 := Filled]);
      && Forward(status) && Faithful(read, p.orderId, status, 1)
      && TimesCounted(p, read, status(0)) == 0
      && Still([p], _ => read) == []
  {
    var p := Pend("T", "m", 0, true, 1.0, 2.0, 0.0);
    var read := Orders(map[0 := Filled]);
    assert [p][..0] == [] && [p][1..] == [];
    assert Tickers([p]) == ["T"] && ["T"][1..] == [];
    assert StillBy([], [p], _ => read) == [];
    assert KeptOf([], "T", read) == [];
  }

  /**
   * The trade a load drops because it was found landed is in no later overlay, and
   * in the balances of every snapshot not before that: counted exactly once from
   * the next load on.
   */
  lemma {:induction false} NextLoadCountsOnce(
      ps: seq<Pend>, p: Pend, answers: string -> Read, later: string -> Read,
      status: nat -> Status, at: nat, snap: nat)
    requires Forward(status) && at <= snap && Landed(status(at))
    requires answers(p.ticker).Orders? && p.orderId in answers(p.ticker).status
    requires Faithful(answers(p.ticker), p.orderId, status, at)
    ensures p !in Still(ps, answers) && p !in Still(Still(ps, answers), later) && Landed(status(snap))
  {
    StillIsKept(ps, answers);
    KeptInSubset(ps, answers, p);
    assert p in Still(ps, answers) <==> p in multiset(Still(ps, answers));
    StillIsKept(Still(ps, answers), later);
    KeptInSubset(Still(ps, answers), later, p);
    assert p in Still(Still(ps, answers), later) <==> p in multiset(Still(Still(ps, answers), later));
  }

  /** A buy filled before the balances were read, its status read failed: counted twice. */
  lemma {:induction false} FailedReadCountsTwice()
    ensures var p := Pend("T", "m", 0, true, 1.0, 2.0, 0.0);
      && TimesCounted(p, Failed, Filled) == 2
      && Still([p], _ => Failed) == [p]
      && var spot := SpotPositions([Market("m", Some("T"), 2.0)], map["T" := Holding(1.0, 2.0)]);
      && Held(spot)
      && Overlay(Ledger(0.0, spot), [p]).pos == map["m" := Pos(2.0, 2.0)]
  {
    var p := Pend("T", "m", 0, true, 1.0, 2.0, 0.0);
    assert [p][..0] == [] && [p][1..] == [];
    assert Tickers([p]) == ["T"] && ["T"][1..] == [];
    assert StillBy([], [p], _ => Failed) == [];
    assert KeptOf([p], "T", Failed) == [p] + KeptOf([], "T", Failed);
    var ms := [Market("m", Some("T"), 2.0)];
    assert ms[..0] == [];
    var spot := SpotPositions(ms, map["T" := Holding(1.0, 2.0)]);
    assert spot == map["m" := Pos(1.0, 2.0)];
    assert Overlay(Ledger(0.0, spot), []) == Ledger(0.0, spot);
    assert Bigger(Pos(1.0, 2.0), 1.0, 2.0) == Pos(2.0, 2.0);
  }

  /** When every status read finds its order, no order is both in the snapshot and among the trades laid over it. */
  lemma {:induction false} NoDoubleCounting(
      ps: seq<Pend>, answers: string -> Read, history: Pend -> (nat -> Status), snap: nat, at: string -> nat)
    requires forall p :: p in ps ==>
      && Forward(history(p)) && snap <= at(p.ticker)
      && Faithful(answers(p.ticker), p.orderId, history(p), at(p.ticker))
      && answers(p.ticker).Orders? && p.orderId in answers(p.ticker).status
    ensures forall p :: p in Still(ps, answers) ==> !Landed(history(p)(snap))
  {
    StillIsKept(ps, answers);
    forall p | p in Still(ps, answers)
      ensures !Landed(history(p)(snap))
    {
      assert p in multiset(Still(ps, answers));
      KeptInSubset(ps, answers, p);
      if Landed(history(p)(snap)) {
        DoubleCountedIff(p, answers(p.ticker), history(p), snap, at(p.ticker));
      }
    }
  }
}
