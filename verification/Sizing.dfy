/** What every order satisfies, and why no cap can make a favourable bet unfavourable. */
module Sizing {
  import opened Prelude
  import opened Kelly
  import opened Hub
  import opened Signal
  import opened Risk

  /** Every limit an order respects at the moment it is quoted. */
  ghost predicate WithinLimits(cfg: ManagerConfig, a: Account, o: Order) {
    && PriceAccepted(cfg, o.price)
    && o.kellyFrac == KellyFraction(o.modelProb, o.price)
    && o.price < o.modelProb < 1.0
    && 0.0 < o.kellyFrac < 1.0
    && o.cost == Risk.Value(o.price, o.size)
    && cfg.minBet <= o.cost <= cfg.maxPosition
    && o.cost <= Stake(o.kellyFrac, cfg.fractionalKelly, a.bankroll)
    && Exposure(a.positions) + o.cost <= cfg.maxExposure
    && o.market !in a.positions
  }

  /** A position as the manager opens it. */
  predicate PositionWithin(cfg: ManagerConfig, p: Position) {
    && PriceAccepted(cfg, p.price) && p.price < p.modelProb < 1.0
    && p.cost == Risk.Value(p.price, p.size) && cfg.minBet <= p.cost <= cfg.maxPosition
  }

  lemma QuoteWithinLimits(cfg: ManagerConfig, a: Account, dec: Decision, hs: HubState)
    requires Quote(cfg, a, dec, hs).Some?
    ensures WithinLimits(cfg, a, Quote(cfg, a, dec, hs).value)
    ensures Quote(cfg, a, dec, hs).value.market == dec.market && dec.shouldTrade
  {
    var o := Quote(cfg, a, dec, hs).value;
    KellyPositive(o.modelProb, o.price);
    SharesTimesPrice(o.cost, o.price);
  }

  // ---- exactly when there is an order, and of which size ----

  /** What the decision is to buy, with which probability, and the best price asked for it. */
  ghost predicate Asked(dec: Decision, hs: HubState, token: string, p: real, price: real) {
    && dec.market in hs.markets
    && (match dec.dir
        case BuyUp => token == hs.markets[dec.market].upToken && p == dec.modelProb
        case BuyDown => token == hs.markets[dec.market].downToken && p == 1.0 - dec.modelProb
        case Hold => false)
    && token in hs.books && hs.books[token].BestAsk() == Some(price)
  }

  /** The price is within the entry band, both ends let through, and below the model's probability. */
  predicate WorthBuying(cfg: ManagerConfig, p: real, price: real) {
    && 0.0 < price < p < 1.0
    && cfg.minEntryPrice <= price && (cfg.maxEntryPrice > 0.0 ==> price <= cfg.maxEntryPrice)
  }

  /** The three bounds on a bet: the Kelly stake, the position cap, and the room the exposure leaves. */
  ghost function Bounds(cfg: ManagerConfig, a: Account, p: real, price: real): seq<real> {
    [Stake(KellyFraction(p, price), cfg.fractionalKelly, a.bankroll), cfg.maxPosition,
     cfg.maxExposure - Exposure(a.positions)]
  }

  ghost predicate IsLeast(x: real, bounds: seq<real>) {
    x in bounds && forall i | 0 <= i < |bounds| :: x <= bounds[i]
  }

  /** None of the bounds lies below the minimum bet. */
  ghost predicate LeavesRoom(cfg: ManagerConfig, bounds: seq<real>) {
    forall i | 0 <= i < |bounds| :: cfg.minBet <= bounds[i]
  }

  /** The bet is the least of stake, position cap and room left, and placed exactly when that reaches the minimum. */
  lemma BetIsLeast(cfg: ManagerConfig, stake: real, exposure: real)
    ensures var bet := BetCost(cfg, stake, exposure);
      var bounds := [stake, cfg.maxPosition, cfg.maxExposure - exposure];
      && (bet.Some? <==> LeavesRoom(cfg, bounds))
      && (bet.Some? ==> IsLeast(bet.value, bounds))
  {
    var bounds := [stake, cfg.maxPosition, cfg.maxExposure - exposure];
    assert bounds[0] == stake && bounds[1] == cfg.maxPosition && bounds[2] == cfg.maxExposure - exposure;
  }

  /** The decision asks for something worth buying, and none of the bounds on the bet is in the way. */
  ghost predicate Fillable(cfg: ManagerConfig, a: Account, dec: Decision, hs: HubState) {
    exists token, p, price | Asked(dec, hs, token, p, price) ::
      WorthBuying(cfg, p, price) && LeavesRoom(cfg, Bounds(cfg, a, p, price))
  }

  /** An order for what was asked, of the least of the three bounds. */
  ghost predicate Fills(cfg: ManagerConfig, a: Account, dec: Decision, hs: HubState, o: Order) {
    && o.market == dec.market && o.dir == dec.dir && Asked(dec, hs, o.token, o.modelProb, o.price)
    && o.kellyFrac * (1.0 - o.price) == o.modelProb - o.price
    && IsLeast(o.cost, Bounds(cfg, a, o.modelProb, o.price)) && o.size * o.price == o.cost
  }

  /**
   An unhalted account answers a decision with an order exactly when it is to trade a market not held yet, the price
   asked is worth buying at, and none of the three bounds lies below the minimum bet; the order then buys what was
   asked for, for the least of the three.
   */
  lemma OrderedExactlyWhen(cfg: ManagerConfig, a: Account, dec: Decision, hs: HubState)
    ensures Quote(cfg, a, dec, hs).Some? <==>
            dec.shouldTrade && dec.market !in a.positions && Fillable(cfg, a, dec, hs)
    ensures Quote(cfg, a, dec, hs).Some? ==> Fills(cfg, a, dec, hs, Quote(cfg, a, dec, hs).value)
  {
    if Quote(cfg, a, dec, hs).Some? {
      QuoteFills(cfg, a, dec, hs);
    }
    if dec.shouldTrade && dec.market !in a.positions && Fillable(cfg, a, dec, hs) {
      var token, p, price :| Asked(dec, hs, token, p, price)
        && WorthBuying(cfg, p, price) && LeavesRoom(cfg, Bounds(cfg, a, p, price));
      QuoteIsSized(cfg, a, dec, hs, token, p, price);
      SizedExactlyWhen(cfg, a, dec, token, p, price);
    }
  }

  lemma QuoteIsSized(cfg: ManagerConfig, a: Account, dec: Decision, hs: HubState, token: string, p: real, price: real)
    requires dec.shouldTrade && dec.market !in a.positions && Asked(dec, hs, token, p, price)
    requires WorthBuying(cfg, p, price)
    ensures Quote(cfg, a, dec, hs) == SizeOrder(cfg, a, dec, token, p, price)
  {
  }

  lemma QuoteFills(cfg: ManagerConfig, a: Account, dec: Decision, hs: HubState)
    requires Quote(cfg, a, dec, hs).Some?
    ensures dec.shouldTrade && dec.market !in a.positions && Fillable(cfg, a, dec, hs)
    ensures Fills(cfg, a, dec, hs, Quote(cfg, a, dec, hs).value)
  {
    var o := Quote(cfg, a, dec, hs).value;
    assert Asked(dec, hs, o.token, o.modelProb, o.price);
    SizedExactlyWhen(cfg, a, dec, o.token, o.modelProb, o.price);
  }

  lemma SizedExactlyWhen(cfg: ManagerConfig, a: Account, dec: Decision, token: string, p: real, price: real)
    requires price != 0.0
    ensures var o := SizeOrder(cfg, a, dec, token, p, price); var bounds := Bounds(cfg, a, p, price);
      && (o.Some? <==> 0.0 < price < p < 1.0 && LeavesRoom(cfg, bounds))
      && (o.Some? ==>
            && o.value == Order(dec.market, dec.dir, token, price, o.value.size, o.value.cost, o.value.kellyFrac, p)
            && IsLeast(o.value.cost, bounds) && o.value.size * price == o.value.cost
            && o.value.kellyFrac * (1.0 - price) == p - price)
  {
    var stake := Stake(KellyFraction(p, price), cfg.fractionalKelly, a.bankroll);
    KellySign(p, price);
    BetIsLeast(cfg, stake, Exposure(a.positions));
    var bet := BetCost(cfg, stake, Exposure(a.positions));
    if bet.Some? {
      OverTimes(bet.value, price);
    }
  }

  /** The fraction is positive exactly between the price and certainty, and is the edge over the odds there. */
  lemma KellySign(p: real, price: real)
    ensures KellyFraction(p, price) > 0.0 <==> 0.0 < price < p < 1.0
    ensures 0.0 < price < p < 1.0 ==> KellyFraction(p, price) * (1.0 - price) == p - price
  {
    if KellyFraction(p, price) > 0.0 {
      KellyPositive(p, price);
    }
    if 0.0 < price < p < 1.0 {
      var f := (p - price) / (1.0 - price);
      assert f * (1.0 - price) == p - price;
      ProductSign(1.0 - price, f);
    }
  }

  lemma KellyPositive(p: real, price: real)
    requires KellyFraction(p, price) > 0.0
    ensures 0.0 < price < p < 1.0 && KellyFraction(p, price) < 1.0
  {
    var f := (p - price) / (1.0 - price);
    assert f * (1.0 - price) == p - price;
    if p <= price {
      ProductSign(f, 1.0 - price);
    }
    if f >= 1.0 {
      ProductSign(f - 1.0, 1.0 - price);
    }
  }

  lemma SharesTimesPrice(cost: real, price: real)
    requires price != 0.0
    ensures Risk.Value(price, Shares(cost, price)) == cost
  {
  }

  /** The fraction of the bankroll an order stakes never exceeds the Kelly fraction. */
  lemma StakeBelowKelly(cfg: ManagerConfig, a: Account, o: Order)
    requires WithinLimits(cfg, a, o) && cfg.fractionalKelly <= 1.0 && a.bankroll > 0.0 && cfg.minBet > 0.0
    ensures 0.0 < o.cost <= o.kellyFrac * a.bankroll
    ensures 0.0 < Shares(o.cost, a.bankroll) <= o.kellyFrac
  {
    StakeAtMost(o.kellyFrac, cfg.fractionalKelly, a.bankroll);
    var f := Shares(o.cost, a.bankroll);
    assert f * a.bankroll == o.cost;
    ProductSign(a.bankroll, f);
    ProductSign(a.bankroll, o.kellyFrac - f);
  }

  lemma StakeAtMost(kelly: real, fraction: real, bankroll: real)
    requires kelly > 0.0 && bankroll > 0.0 && fraction <= 1.0
    ensures Stake(kelly, fraction, bankroll) <= kelly * bankroll
  {
    var whole := kelly * bankroll;
    ProductSign(kelly, bankroll);
    ProductSign(whole, 1.0 - fraction);
    assert kelly * fraction * bankroll == fraction * whole;
  }

  /** The bankroll after a series of bets at one price, each staking the fraction f, settled as the manager settles. */
  function PlayOut(bankroll: real, f: real, price: real, outcomes: seq<bool>): real
    requires price != 0.0
  {
    if outcomes == [] then bankroll
    else
      var before := PlayOut(bankroll, f, price, outcomes[..|outcomes| - 1]);
      var cost := Scaled(f, before);
      before + Pnl(Position("", BuyUp, "", price, Shares(cost, price), cost, 0.0, 0.0, 0), outcomes[|outcomes| - 1])
  }

  function Count(outcomes: seq<bool>, won: bool): nat {
    if outcomes == [] then 0
    else Count(outcomes[..|outcomes| - 1], won) + if outcomes[|outcomes| - 1] == won then 1 else 0
  }

  lemma {:induction false} CountsAddUp(outcomes: seq<bool>)
    ensures Count(outcomes, true) + Count(outcomes, false) == |outcomes|
  {
    if outcomes != [] {
      CountsAddUp(outcomes[..|outcomes| - 1]);
    }
  }

  lemma OneBet(before: real, f: real, price: real, won: bool)
    requires 0.0 < price < 1.0
    ensures var cost := Scaled(f, before);
      before + Pnl(Position("", BuyUp, "", price, Shares(cost, price), cost, 0.0, 0.0, 0), won)
      == Scaled(before, if won then WinFactor(f, price) else LossFactor(f))
  {
    var cost := f * before;
    var size := cost / price;
    assert size * price == cost;
    if won {
      var w := WinFactor(f, price);
      assert w * price == price + f * (1.0 - price);
      assert (before * w) * price == before * price + before * (f * (1.0 - price));
      assert before * (f * (1.0 - price)) == cost * (1.0 - price);
      assert ((1.0 - price) * size) * price == (1.0 - price) * cost;
      Cancel(price, before + (1.0 - price) * size, before * w);
    } else {
      assert before * (1.0 - f) == before - f * before;
    }
  }

  /**
   The order of wins and losses does not matter: the bankroll is multiplied by the wealth function of their counts.
   */
  lemma {:induction false} PlayOutIsWealth(bankroll: real, f: real, price: real, outcomes: seq<bool>)
    requires 0.0 < price < 1.0
    ensures PlayOut(bankroll, f, price, outcomes)
         == Scaled(bankroll, Wealth(f, price, Count(outcomes, true), Count(outcomes, false)))
  {
    if outcomes == [] {
      assert Wealth(f, price, 0, 0) == 1.0;
    } else {
      var rest, won := outcomes[..|outcomes| - 1], outcomes[|outcomes| - 1];
      PlayOutIsWealth(bankroll, f, price, rest);
      OneBet(PlayOut(bankroll, f, price, rest), f, price, won);
      var i, j := Count(rest, true), Count(rest, false);
      if won {
        PowersStepLeft(WinFactor(f, price), LossFactor(f), i, j);
        Associate(bankroll, Wealth(f, price, i, j), WinFactor(f, price), Wealth(f, price, i + 1, j),
                  PlayOut(bankroll, f, price, rest));
      } else {
        PowersStepRight(WinFactor(f, price), LossFactor(f), i, j);
        Associate(bankroll, Wealth(f, price, i, j), LossFactor(f), Wealth(f, price, i, j + 1),
                  PlayOut(bankroll, f, price, rest));
      }
    }
  }

  lemma Associate(b: real, w: real, factor: real, w': real, before: real)
    requires w' == factor * w && before == Scaled(b, w)
    ensures Scaled(before, factor) == Scaled(b, w')
  {
    assert (b * w) * factor == b * (factor * w);
  }

  /**
   Replaying an order's stake at the model's own win rate never shrinks the bankroll, however
   the fractional Kelly factor, the position cap and the exposure cap cut it down.
   */
  lemma CapsStayFavourable(cfg: ManagerConfig, a: Account, o: Order, outcomes: seq<bool>)
    requires WithinLimits(cfg, a, o) && cfg.fractionalKelly <= 1.0 && a.bankroll > 0.0 && cfg.minBet > 0.0
    requires outcomes != [] && o.modelProb == Count(outcomes, true) as real / |outcomes| as real
    ensures PlayOut(a.bankroll, Shares(o.cost, a.bankroll), o.price, outcomes) > a.bankroll
  {
    var f := Shares(o.cost, a.bankroll);
    var wins, losses := Count(outcomes, true), Count(outcomes, false);
    CountsAddUp(outcomes);
    StakeBelowKelly(cfg, a, o);
    GrowsUpToKelly(0.0, f, o.price, wins, losses);
    PlayOutIsWealth(a.bankroll, f, o.price, outcomes);
    ProductSign(a.bankroll, Wealth(f, o.price, wins, losses) - 1.0);
    assert a.bankroll * Wealth(f, o.price, wins, losses) > a.bankroll;
  }
}
