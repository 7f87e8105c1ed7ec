// The auto-operator's fill arithmetic (BigInt, all quantities non-negative) and
// the checks the spot program makes on it. Amounts, shares and prices carry six
// decimals. The app asks for a limit of quote x 1.02 on a buy and x 0.98 on a sell.
module Fills {
  import opened Common

  const UNIT := 1_000_000

  /** BigInt division of non-negative operands truncates; by zero it throws (no result). */
  datatype Division = Quotient(value: nat) | DivisionByZero

  function Div(a: nat, b: nat): Division {
    if b == 0 then DivisionByZero else Quotient(a / b)
  }

  datatype BuyFill = BuyFill(price: nat, shares: nat) | NoFill

  function BuyPrice(limit: nat): nat { limit * 100 / 102 }

  /** pass(), buy branch: price just inside the limit, as many shares as the deployed amount buys. */
  function FillBuy(deployed: nat, limit: nat): BuyFill {
    match Div(deployed * UNIT, BuyPrice(limit))
    case Quotient(shares) => BuyFill(BuyPrice(limit), shares)
    case DivisionByZero => NoFill
  }

  function SellPrice(limit: nat): nat { limit * 100 / 98 }

  function SellProceeds(shares: nat, limit: nat): nat { shares * SellPrice(limit) / UNIT }

  /** The spot program's notional and spread. */
  function Notional(shares: nat, price: nat): nat { shares * price / UNIT }

  function SpreadOn(amount: nat, bps: nat): nat { amount * bps / 10_000 }

  /** What confirm_buy requires of a fill, besides the attestation. */
  predicate ConfirmAccepts(shares: nat, price: nat, limit: nat, minShares: nat, deployed: nat) {
    shares > 0 && price > 0 && price <= limit && shares >= minShares && Notional(shares, price) <= deployed
  }

  /** What settle_sell requires of price and proceeds, besides the funds and the attestation. */
  predicate SettleAccepts(proceeds: nat, price: nat, limit: nat, bps: nat) {
    proceeds > 0 && price > 0 && price >= limit && SpreadOn(proceeds, bps) < proceeds
  }

  // ---------- floors ----------

  lemma {:induction false} FloorBounds(a: nat, b: nat)
    requires b > 0
    ensures a / b * b <= a < a / b * b + b
  {
  }

  lemma {:induction false} MulMono(a: nat, b: nat, c: nat)
    requires a <= b
    ensures a * c <= b * c
  {
  }

  lemma {:induction false} OneMore(q: nat, b: nat)
    ensures (q + 1) * b == q * b + b
  {
  }

  /** From the two bounds of a floor alone. */
  lemma {:induction false} Greatest(q: nat, a: nat, b: nat, m: nat)
    requires q * b <= a < q * b + b
    ensures m <= q <==> m * b <= a
  {
    if m <= q {
      MulMono(m, q, b);
    } else {
      OneMore(q, b);
      MulMono(q + 1, m, b);
    }
  }

  lemma {:induction false} FloorIsGreatest(a: nat, b: nat, m: nat)
    requires b > 0
    ensures m <= a / b <==> m * b <= a
  {
    FloorBounds(a, b);
    Greatest(a / b, a, b, m);
  }

  // ---------- buys ----------

  /** The one limit at which the operator cannot fill: below 2 the price rounds to zero. */
  lemma {:induction false} BuyFillExistsIff(deployed: nat, limit: nat)
    ensures FillBuy(deployed, limit).BuyFill? <==> limit >= 2
  {
  }

  /**
   * A buy fill never pays above the limit, spends at most what was deployed with
   * a remainder below one share-unit's price, and no larger fill at that price would fit.
   */
  lemma {:induction false} BuyFillIsTight(deployed: nat, limit: nat)
    requires limit >= 2
    ensures var f := FillBuy(deployed, limit);
      && 0 < f.price <= limit
      && f.shares * f.price <= deployed * UNIT < (f.shares + 1) * f.price
      && Notional(f.shares, f.price) <= deployed
  {
    var f := FillBuy(deployed, limit);
    FloorBounds(deployed * UNIT, f.price);
    assert (f.shares + 1) * f.price == f.shares * f.price + f.price;
  }

  /** The fill is at least any minimum that fits the deployed amount at 1/1.02 of the limit. */
  lemma {:induction false} BuyFillAtLeast(deployed: nat, limit: nat, min: nat)
    requires limit >= 2 && min * limit * 100 <= 102 * (deployed * UNIT)
    ensures FillBuy(deployed, limit).shares >= min
  {
    var p := BuyPrice(limit);
    assert p * 102 <= limit * 100;
    assert min * (p * 102) <= min * (limit * 100);
    assert min * p * 102 == min * (p * 102);
    assert min * limit * 100 == min * (limit * 100);
    FloorIsGreatest(deployed * UNIT, p, min);
  }

  /**
   * confirm_buy accepts the operator's fill for every order with a minimum of at
   * most 0.98 of what the deployed amount buys at the limit.
   */
  lemma {:induction false} ConfirmAcceptsFill(deployed: nat, limit: nat, min: nat)
    requires limit >= 2 && min > 0 && min * limit * 100 <= 98 * (deployed * UNIT)
    ensures var f := FillBuy(deployed, limit); ConfirmAccepts(f.shares, f.price, limit, min, deployed)
  {
    BuyFillIsTight(deployed, limit);
    BuyFillAtLeast(deployed, limit, min);
  }

  /**
   * Exactly when the operator's fill passes confirm_buy: the price does not round
   * to zero, and the deployed amount covers one share unit and the minimum at it.
   */
  lemma {:induction false} FillIsConfirmedIff(deployed: nat, limit: nat, min: nat)
    ensures var f := FillBuy(deployed, limit); var cash := deployed * UNIT;
      f.BuyFill? && ConfirmAccepts(f.shares, f.price, limit, min, deployed)
      <==> limit >= 2 && BuyPrice(limit) <= cash && min * BuyPrice(limit) <= cash
  {
    if limit >= 2 {
      BuyFillIsTight(deployed, limit);
      FloorIsGreatest(deployed * UNIT, BuyPrice(limit), 1);
      FloorIsGreatest(deployed * UNIT, BuyPrice(limit), min);
    }
  }

  // ---------- sells ----------

  /** A sell fills at the limit or better, and pays at least the limit's worth of the shares. */
  lemma {:induction false} SellFillIsFair(shares: nat, limit: nat)
    ensures SellPrice(limit) >= limit
    ensures SellProceeds(shares, limit) >= shares * limit / UNIT
    ensures limit * 100 - 98 < SellPrice(limit) * 98 <= limit * 100
  {
    MulMono(limit, SellPrice(limit), shares);
    FloorBounds(shares * limit, UNIT);
    FloorIsGreatest(shares * SellPrice(limit), UNIT, shares * limit / UNIT);
  }

  /** settle_sell accepts it exactly when the proceeds exceed their spread, in particular are positive. */
  lemma {:induction false} SettleAcceptsIff(shares: nat, limit: nat, bps: nat)
    requires bps < 10_000
    ensures var p := SellProceeds(shares, limit);
      SettleAccepts(p, SellPrice(limit), limit, bps) <==> shares * SellPrice(limit) >= UNIT
  {
    var p := SellProceeds(shares, limit);
    FloorIsGreatest(shares * SellPrice(limit), UNIT, 1);
    if p > 0 {
      assert p * bps < p * 10_000;
      FloorBounds(p * bps, 10_000);
      assert SellPrice(limit) > 0 by {
        if SellPrice(limit) == 0 {
          assert shares * 0 == 0;
        }
      }
    }
  }

  // ---------- quote, limit, execution ----------

  /** The limit in base units that the app's 1.02 and 0.98 factors round to, for a quote in base units. */
  function BuyLimit(quote: nat): nat { (quote * 102 + 50) / 100 }

  function SellLimit(quote: nat): nat { (quote * 98 + 50) / 100 }

  /**
   * "Fills at the price it quoted": on a quote of whole base units the operator's
   * price is the quote or one base unit less, and it is the quote exactly when the
   * limit was not rounded down.
   */
  lemma {:induction false} FillsAtQuote(quote: nat)
    ensures quote - 1 <= BuyPrice(BuyLimit(quote)) <= quote
    ensures BuyPrice(BuyLimit(quote)) == quote <==> BuyLimit(quote) * 100 >= quote * 102
    ensures quote - 1 <= SellPrice(SellLimit(quote)) <= quote
    ensures SellPrice(SellLimit(quote)) == quote <==> SellLimit(quote) * 100 >= quote * 98
  {
  }

  /** At a quote of one base unit the operator's price is zero and there is no fill at all. */
  lemma {:induction false} QuoteOfOne(deployed: nat)
    ensures BuyLimit(1) == 1 && BuyPrice(BuyLimit(1)) == 0 && FillBuy(deployed, BuyLimit(1)).NoFill?
  {
  }

  // ---------- the app's own orders ----------

  /** Math.round of a non-negative number. */
  function Round(x: real): int { (x + 0.5).Floor }

  /** The base units the app sends for a limit price, an amount, and the minimum it derives from both. */
  function LimitUnits(limit: real): int { Round(limit * 1000000.0) }

  function AmountUnits(amount: real): int { Round(amount * 1000000.0) }

  function MinUnits(net: real, limit: real): int
    requires limit > 0.0
  {
    Round(net / limit * 0.98 * 1000000.0)
  }

  /** What deploy_buy sends on: the amount less the floored spread. */
  function Deployable(amount: nat, bps: nat): int { amount - SpreadOn(amount, bps) }

  function NetOf(amount: real, bps: nat): real { amount * (1.0 - bps as real / 10000.0) }

  lemma {:induction false} RoundBounds(x: real)
    ensures x - 0.5 <= Round(x) as real <= x + 0.5
  {
    var r := x + 0.5;
    assert r.Floor as real <= r < r.Floor as real + 1.0;
  }

  /** The app's minimum is 0.98 of what the net amount buys at the limit, to half a share unit. */
  lemma {:induction false} MinimumIsClose(net: real, limit: real)
    requires limit > 0.0
    ensures var m := MinUnits(net, limit) as real;
      (m - 0.5) * limit <= 980000.0 * net <= (m + 0.5) * limit
  {
    var r := net / limit;
    QuotientTimes(net, limit);
    RoundBounds(r * 0.98 * 1000000.0);
    Scaled(r, limit, 980000.0);
    var m := MinUnits(net, limit) as real;
    Bracketed(m - 0.5, 980000.0 * r, m + 0.5, net, limit);
  }

  lemma {:induction false} Bracketed(low: real, x: real, high: real, net: real, limit: real)
    requires limit > 0.0 && x * limit == 980000.0 * net && low <= x <= high
    ensures low * limit <= 980000.0 * net <= high * limit
  {
    RealMulMono(low, x, limit);
    RealMulMono(x, high, limit);
  }

  lemma {:induction false} Scaled(r: real, limit: real, k: real)
    ensures k * r * limit == k * (r * limit)
  {
  }

  lemma {:induction false} SpreadAtMost(a: nat, bps: nat)
    ensures SpreadOn(a, bps) as real <= a as real * (bps as real / 10000.0)
  {
    FloorBounds(a * bps, 10_000);
    ProductAsReal(a, bps);
    DivideBoth(SpreadOn(a, bps), a as real, bps as real);
  }

  lemma {:induction false} DivideBoth(s: nat, a: real, b: real)
    requires (s * 10_000) as real <= a * b
    ensures s as real <= a * (b / 10000.0)
  {
    assert (s * 10_000) as real == s as real * 10000.0;
    assert a * (b / 10000.0) * 10000.0 == a * b;
  }

  lemma {:induction false} KeptShare(a: real, x: real, cut: real, k: real, s: real)
    requires 0.0 <= cut <= 1.0 && k == 1.0 - cut && a >= x - 0.5 && s <= a * cut
    ensures a - s >= x * k - 0.5
  {
    RealMulMono(x - 0.5, a, k);
    Complement(a, cut, k);
    Shift(x, k);
    Linear(a - s, a * k, x * k, k);
  }

  lemma {:induction false} Linear(kept: real, ak: real, xk: real, k: real)
    requires kept >= ak && ak >= xk - 0.5 * k && k <= 1.0
    ensures kept >= xk - 0.5
  {
  }

  lemma {:induction false} Shift(x: real, k: real)
    ensures (x - 0.5) * k == x * k - 0.5 * k
  {
  }

  lemma {:induction false} Complement(a: real, cut: real, k: real)
    requires k == 1.0 - cut
    ensures a * k == a - a * cut
  {
  }

  lemma {:induction false} DeployableAtLeast(amount: real, bps: nat)
    requires amount >= 0.0 && bps <= 10_000
    ensures AmountUnits(amount) >= 0
    ensures Deployable(AmountUnits(amount), bps) as real >= NetOf(amount, bps) * 1000000.0 - 0.5
  {
    RoundBounds(amount * 1000000.0);
    var a := AmountUnits(amount);
    var cut := bps as real / 10000.0;
    SpreadAtMost(a, bps);
    KeptShare(a as real, amount * 1000000.0, cut, 1.0 - cut, SpreadOn(a, bps) as real);
    Regroup(amount, 1.0 - cut);
  }

  lemma {:induction false} Regroup(a: real, k: real)
    ensures a * 1000000.0 * k == a * k * 1000000.0
  {
  }

  lemma {:induction false} RealMulMono(a: real, b: real, c: real)
    requires a <= b && c >= 0.0
    ensures a * c <= b * c
  {
  }

  lemma {:induction false} ProductAsReal(a: int, b: int)
    ensures (a * b) as real == a as real * b as real
  {
  }

  /** The operator's price is below the limit before it was rounded. */
  lemma {:induction false} PriceBelowLimit(l: nat, x: real)
    requires l >= 1 && l as real <= x + 0.5
    ensures BuyPrice(l) <= l - 1 && BuyPrice(l) as real <= x - 0.5
  {
  }

  /**
   * The rounded minimum at a price not above the limit, against the deployed
   * units: for a net amount worth at least 0.000025 of a share plus 0.000025 USDC,
   * rounding never eats the two per cent.
   */
  lemma {:induction false} MinimumFits(m: real, p: real, d: real, net: real, limit: real)
    requires limit > 0.0 && net >= 0.000025 * (limit + 1.0)
    requires 0.0 <= m <= net / limit * 0.98 * 1000000.0 + 0.5
    requires 0.0 <= p <= limit * 1000000.0
    requires d >= net * 1000000.0 - 0.5
    ensures m * p <= d * 1000000.0
  {
    var r := net / limit;
    QuotientTimes(net, limit);
    ProductBound(m, p, r * 980000.0 + 0.5, limit * 1000000.0);
    Expand(r, limit, net);
    SlackCovers(m * p, d, net, limit);
  }

  lemma {:induction false} SlackCovers(product: real, d: real, net: real, limit: real)
    requires net >= 0.000025 * (limit + 1.0) && d >= net * 1000000.0 - 0.5
    requires product <= 980000000000.0 * net + 500000.0 * limit
    ensures product <= d * 1000000.0
  {
  }

  lemma {:induction false} ProductBound(m: real, l: real, mm: real, ll: real)
    requires 0.0 <= m <= mm && 0.0 <= l <= ll
    ensures m * l <= mm * ll
  {
    RealMulMono(m, mm, l);
    RealMulMono(l, ll, mm);
  }

  lemma {:induction false} Expand(r: real, limit: real, net: real)
    requires r * limit == net
    ensures (r * 980000.0 + 0.5) * (limit * 1000000.0) == 980000000000.0 * net + 500000.0 * limit
  {
    assert (r * 980000.0 + 0.5) * (limit * 1000000.0) == r * 980000.0 * (limit * 1000000.0) + 0.5 * (limit * 1000000.0);
    assert r * 980000.0 * (limit * 1000000.0) == 980000000000.0 * (r * limit);
  }

  /** What becomes of a buy with these inputs: the operator has a fill and confirm_buy accepts it. */
  predicate Fillable(deployed: nat, limit: nat, minShares: nat) {
    var f := FillBuy(deployed, limit);
    f.BuyFill? && ConfirmAccepts(f.shares, f.price, limit, minShares, deployed)
  }

  /**
   * Every buy the app places above a few base units (limit, derived minimum,
   * rounded to base units) is one the operator can fill, at every limit at which
   * it has a price at all. Below, FillIsConfirmedIff decides.
   */
  lemma {:induction false} AppBuysAreFillable(amount: real, limit: real, bps: nat)
    requires amount >= 0.0 && bps <= 10_000 && limit > 0.0
    requires NetOf(amount, bps) >= 0.000025 * (limit + 1.0)
    requires MinUnits(NetOf(amount, bps), limit) > 0
    ensures AmountUnits(amount) >= 0 && Deployable(AmountUnits(amount), bps) >= 0 && LimitUnits(limit) >= 0
    ensures Fillable(Deployable(AmountUnits(amount), bps), LimitUnits(limit), MinUnits(NetOf(amount, bps), limit))
      <==> LimitUnits(limit) >= 2
  {
    var net := NetOf(amount, bps);
    var m, l := MinUnits(net, limit), LimitUnits(limit);
    RoundBounds(limit * 1000000.0);
    RoundBounds(net / limit * 0.98 * 1000000.0);
    DeployableAtLeast(amount, bps);
    RoundedIsFillable(m, l, Deployable(AmountUnits(amount), bps), net, limit);
  }

  /** From the bounds that rounding leaves. */
  lemma {:induction false} RoundedIsFillable(m: nat, l: nat, d: nat, net: real, limit: real)
    requires limit > 0.0 && net >= 0.000025 * (limit + 1.0) && m > 0
    requires m as real <= net / limit * 0.98 * 1000000.0 + 0.5
    requires l as real <= limit * 1000000.0 + 0.5
    requires d as real >= net * 1000000.0 - 0.5
    ensures Fillable(d, l, m) <==> l >= 2
  {
    FillIsConfirmedIff(d, l, m);
    if l >= 2 {
      var p := BuyPrice(l);
      PriceBelowLimit(l, limit * 1000000.0);
      MinimumFits(m as real, p as real, d as real, net, limit);
      InWholeUnits(m, p, d);
      MulMono(1, m, p);
    }
  }

  lemma {:induction false} InWholeUnits(m: nat, p: nat, d: nat)
    requires m as real * p as real <= d as real * 1000000.0
    ensures m * p <= d * UNIT
  {
    ProductAsReal(m, p);
    assert (m * p) as real <= (d * UNIT) as real;
  }

  /**
   * For every amount, limit and spread: the operator can fill the app's buy exactly
   * when the price does not round to zero and the amount sent on covers one share
   * unit and the app's own minimum at it.
   */
  lemma {:induction false} AppBuyIsFillableIff(amount: real, limit: real, bps: nat)
    requires amount >= 0.0 && bps <= 10_000 && limit > 0.0
    ensures AmountUnits(amount) >= 0 && Deployable(AmountUnits(amount), bps) >= 0 && LimitUnits(limit) >= 0
    ensures MinUnits(NetOf(amount, bps), limit) >= 0
    ensures var l := LimitUnits(limit); var m := MinUnits(NetOf(amount, bps), limit);
      var cash := Deployable(AmountUnits(amount), bps) * UNIT;
      Fillable(Deployable(AmountUnits(amount), bps), l, m)
      <==> l >= 2 && BuyPrice(l) <= cash && m * BuyPrice(l) <= cash
  {
    RoundBounds(limit * 1000000.0);
    RoundBounds(amount * 1000000.0);
    SpreadWithin(AmountUnits(amount), bps);
    MinimumIsNatural(amount, limit, bps);
    FillIsConfirmedIff(Deployable(AmountUnits(amount), bps), LimitUnits(limit), MinUnits(NetOf(amount, bps), limit));
  }

  lemma {:induction false} SpreadWithin(a: nat, bps: nat)
    requires bps <= 10_000
    ensures SpreadOn(a, bps) <= a
  {
    MulMono(bps, 10_000, a);
    FloorIsGreatest(a * bps, 10_000, SpreadOn(a, bps));
  }

  lemma {:induction false} MinimumIsNatural(amount: real, limit: real, bps: nat)
    requires amount >= 0.0 && bps <= 10_000 && limit > 0.0
    ensures MinUnits(NetOf(amount, bps), limit) >= 0
  {
    var net := NetOf(amount, bps);
    RealMulMono(0.0, amount, 1.0 - bps as real / 10000.0);
    QuotientTimes(net, limit);
    SignOfFactor(net / limit, limit);
    RoundBounds(net / limit * 0.98 * 1000000.0);
  }

  /** The least order of the markets the app trades. */
  const MIN_ORDER := 10 * UNIT

  lemma {:induction false} NetAtLeast(amount: real, cut: real)
    requires amount >= 9.9 && 0.0 <= cut <= 0.05
    ensures amount * (1.0 - cut) >= 9.4
  {
    RealMulMono(0.95, 1.0 - cut, amount);
  }

  lemma {:induction false} QuotientAtLeast(net: real, limit: real)
    requires net >= 9.4 && 0.0 < limit <= 300000.0
    ensures net / limit >= 0.00003
  {
    var r := net / limit;
    QuotientTimes(net, limit);
    SignOfFactor(r, limit);
    RealMulMono(limit, 300000.0, r);
  }

  lemma {:induction false} SignOfFactor(r: real, k: real)
    requires k > 0.0 && r * k >= 0.0
    ensures r >= 0.0
  {
  }

  /**
   * On a market with the app's least order and at most five per cent of spread,
   * every buy place_buy lets in, at any limit up to 300,000 USDC, is one the
   * operator can fill exactly when its limit is at least two base units.
   */
  lemma {:induction false} MarketBuysAreFillable(amount: real, limit: real, bps: nat)
    requires AmountUnits(amount) >= MIN_ORDER && bps <= 500 && 0.0 < limit <= 300000.0
    ensures Deployable(AmountUnits(amount), bps) >= 0 && LimitUnits(limit) >= 0
    ensures MinUnits(NetOf(amount, bps), limit) > 0
    ensures Fillable(Deployable(AmountUnits(amount), bps), LimitUnits(limit), MinUnits(NetOf(amount, bps), limit))
      <==> LimitUnits(limit) >= 2
  {
    RoundBounds(amount * 1000000.0);
    NetAtLeast(amount, bps as real / 10000.0);
    var net := NetOf(amount, bps);
    QuotientAtLeast(net, limit);
    RoundBounds(net / limit * 0.98 * 1000000.0);
    AppBuysAreFillable(amount, limit, bps);
  }

  /** What place_buy requires of the numbers; a greatest order of zero means none. */
  predicate PlaceAccepts(gross: nat, limit: nat, minShares: nat, minOrder: nat, maxOrder: nat) {
    && gross > 0 && gross >= minOrder && (maxOrder > 0 ==> gross <= maxOrder)
    && limit > 0 && minShares > 0
  }

  /**
   * A buy of 52 base units at a limit of 100 asks for one share unit and cannot
   * have it. Markets with a least order above that refuse it at once; only one
   * without takes it and leaves it unfilled.
   */
  lemma {:induction false} DustBuyIsRefused(minOrder: nat)
    ensures AmountUnits(0.000052) == 52 && LimitUnits(100.0) == 100_000_000
    ensures MinUnits(NetOf(0.000052, 0), 100.0) == 1
    ensures PlaceAccepts(52, 100_000_000, 1, minOrder, 0) <==> minOrder <= 52
    ensures Deployable(52, 0) == 52 && !Fillable(52, 100_000_000, 1)
  {
    assert NetOf(0.000052, 0) / 100.0 * 0.98 * 1000000.0 == 0.5096;
    FillIsConfirmedIff(52, 100_000_000, 1);
  }
}
