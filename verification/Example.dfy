/**
 The default gates can all be open at once: on a steady climb the bot does trade, whatever tanh, sigmoid and square
 root compute elsewhere, as long as they are right where they are asked.
 */
module Example {
  import opened Prelude
  import opened Regression
  import opened PriceBuf
  import opened Book
  import opened Hub
  import opened Signal
  import opened Kelly
  import opened Risk
  import opened SignalLaws

  /** Forty-eight Bitcoin prices climbing by 0.40 a tick from 60000. */
  function Climb(): seq<PriceEntry> {
    seq(48, i requires 0 <= i < 48 => PriceEntry(60000.0 + 0.4 * i as real, 0))
  }

  /** Bid 0.50, ask 0.51. */
  const FAIR_BOOK := BookValue([Level(0.50, 1.0)], [Level(0.51, 1.0)])

  /** Right about the root of 31.36 and, within a hundredth, about tanh 0.4 = 0.3799... and sigmoid 0.4 = 0.5987... */
  ghost predicate RightOnClimb(c: Curves) {
    Lawful(c) && IsRoot(c.sqrt(31.36), 31.36) && 0.37 <= c.tanh(0.4) && 0.59 <= c.sigmoid(0.4) <= 0.60
  }

  // ---- slope and deviation of the climb ----

  lemma ClimbWindow()
    ensures |WindowPrices(Climb(), 60)| == 48
    ensures forall j | 0 <= j < 48 :: WindowPrices(Climb(), 60)[j] == 60000.0 + 0.4 * j as real
  {
    WindowSize(Climb(), 60);
    forall j | 0 <= j < 48
      ensures WindowPrices(Climb(), 60)[j] == 60000.0 + 0.4 * j as real
    {
      WindowPriceAt(Climb(), 60, j);
    }
  }

  lemma ClimbSlope()
    ensures SlopeOver(Climb(), 60) == Some(0.4)
  {
    ClimbWindow();
    SlopeKnown(Climb(), 60, 0.4, 0.4);
  }

  lemma {:induction false} ClimbSums(y: seq<real>, k: nat)
    requires k <= |y| && forall j | 0 <= j < |y| :: y[j] == 60000.0 + 0.4 * j as real
    ensures SumY(y, k) == 60000.0 * k as real + 0.4 * SumX(k)
    ensures SumYY(y, k) == 3600000000.0 * k as real + 48000.0 * SumX(k) + 0.16 * SumXX(k)
  {
    if k > 0 {
      ClimbSums(y, k - 1);
      ClimbSquare((k - 1) as real, y[k - 1]);
    }
  }

  lemma ClimbSquare(x: real, price: real)
    requires price == 60000.0 + 0.4 * x
    ensures price * price == 3600000000.0 + 48000.0 * x + 0.16 * (x * x)
  {
  }

  lemma ClimbVariance()
    ensures VarianceOver(Climb(), 60) == Some(31.36)
  {
    ClimbWindow();
    var w := WindowPrices(Climb(), 60);
    ClimbSpread(w);
  }

  lemma ClimbSpread(w: seq<real>)
    requires |w| == 48 && forall j | 0 <= j < |w| :: w[j] == 60000.0 + 0.4 * j as real
    ensures Average(SumSquares(w, Mean(w), 48), 47) == 31.36
  {
    ClimbSums(w, 48);
    SumXClosed(48);
    SumXXClosed(48);
    SpreadAboutMean(w);
    assert Mean(w) == 60009.4;
  }

  lemma RootOfVariance(r: real)
    requires IsRoot(r, 31.36)
    ensures 0.0 <= r <= 6.0
  {
    ProductSign(r - 6.0, r);
    assert (r - 6.0) * r == Square(r) - 6.0 * r;
  }

  lemma OverAtMost(a: real, b: real, limit: real)
    requires b > 0.0 && a <= limit * b
    ensures Over(a, b) <= limit
  {
    OverTimes(a, b);
    ProductSign(b, Over(a, b) - limit);
    assert b * (Over(a, b) - limit) == a - limit * b;
  }

  /** The climb is calm: its deviation is less than a ten-thousandth of the price. */
  lemma ClimbIsCalm(hs: HubState, c: Curves)
    requires hs.prices == Climb() && RightOnClimb(c)
    ensures Volatility(DEFAULT_CONFIG, hs, c).Some? && Volatility(DEFAULT_CONFIG, hs, c).value <= 0.003
  {
    ClimbVariance();
    var r, price := c.sqrt(31.36), Climb()[47].price;
    RootOfVariance(r);
    assert price == 60018.8;
    OverAtMost(r, price, 0.003);
  }

  // ---- the decision ----

  /** The climb, a fair book for the market's Up token, and no trades. */
  predicate Climbing(hs: HubState, m: Market) {
    hs.prices == Climb() && hs.trades == map[] && m.upToken in hs.books && hs.books[m.upToken] == FAIR_BOOK
  }

  /** A time well within the market's window and outside the hours to skip. */
  predicate GoodTime(m: Market, now: Time) {
    30 * SECOND <= TimeLeft(m.endTime, now) <= 270 * SECOND && HourUTC(now) !in DEFAULT_CONFIG.skipHours
  }

  lemma ClimbScores(hs: HubState, m: Market, now: Time, c: Curves)
    requires Climbing(hs, m) && RightOnClimb(c)
    ensures DEFAULT_EDGE.ModelProbability(hs, c) == Some(c.sigmoid(0.4)) && hs.Mid(m.upToken) == Some(0.505)
    ensures var scores := DEFAULT_ENGINE.Scores(3, hs, m, now, c);
      scores[0].value >= 0.37 && scores[1].value == c.sigmoid(0.4) - 0.505 && scores[2].value == 0.0
  {
    ClimbSlope();
    ScaledByOne(0.4);
    ThreeScores(hs, m, now, c);
    NoTradesNoVolume(hs, m.upToken, now, 60 * SECOND);
    NoTradesNoVolume(hs, m.downToken, now, 60 * SECOND);
  }

  lemma NoTradesNoVolume(hs: HubState, token: string, now: Time, window: Time)
    requires hs.trades == map[]
    ensures TotalVolume(hs, token, now, window) == 0.0
  {
  }

  lemma ClimbComposite(hs: HubState, m: Market, now: Time, c: Curves)
    requires Climbing(hs, m) && RightOnClimb(c)
    ensures DEFAULT_ENGINE.TotalWeight(3) == 1.0
    ensures Over(DEFAULT_ENGINE.WeightedSum(DEFAULT_ENGINE.Scores(3, hs, m, now, c)), 1.0) >= 0.20
  {
    ClimbScores(hs, m, now, c);
    DefaultWeights();
    DefaultSum(DEFAULT_ENGINE.Scores(3, hs, m, now, c));
    OverOne(DEFAULT_ENGINE.WeightedSum(DEFAULT_ENGINE.Scores(3, hs, m, now, c)));
  }

  /** On the climb the default engine buys Up, with the probability the logistic curve gives. */
  lemma ClimbDecision(hs: HubState, m: Market, now: Time, c: Curves)
    requires Climbing(hs, m) && RightOnClimb(c) && GoodTime(m, now)
    ensures var d := DEFAULT_ENGINE.Decide(hs, Some(m), now, c);
      d.shouldTrade && d.dir == BuyUp && d.modelProb == c.sigmoid(0.4) && d.market == m.slug
  {
    assert |DEFAULT_ENGINE.signals| == 3;
    ClimbIsCalm(hs, c);
    ClimbScores(hs, m, now, c);
    ClimbComposite(hs, m, now, c);
    assert DataGatesOpen(DEFAULT_CONFIG, hs, m, now, c);
    TradesIffGatesOpen(DEFAULT_ENGINE, hs, m, now, c);
    TradeableMeansGated(DEFAULT_ENGINE, hs, Some(m), now, c);
  }

  /** What the default manager stakes on it. */
  function ClimbStake(c: Curves, bankroll: real): real {
    Stake(KellyFraction(c.sigmoid(0.4), 0.51), 0.25, bankroll)
  }

  lemma ClimbKelly(p: real)
    requires 0.59 <= p <= 0.60
    ensures 8.0 / 49.0 <= KellyFraction(p, 0.51) <= 9.0 / 49.0
  {
  }

  lemma ClimbStakeBounds(c: Curves, bankroll: real)
    requires RightOnClimb(c) && bankroll > 0.0
    ensures bankroll * 2.0 / 49.0 <= ClimbStake(c, bankroll) <= bankroll * 9.0 / 196.0
  {
    var k := KellyFraction(c.sigmoid(0.4), 0.51);
    ClimbKelly(c.sigmoid(0.4));
    ProductSign(bankroll, k - 8.0 / 49.0);
    ProductSign(bankroll, 9.0 / 49.0 - k);
    assert Stake(k, 0.25, bankroll) == bankroll * k * 0.25;
  }

  /** An account with enough in the bank, room for the bet and no such position gets the order. */
  lemma ClimbOrder(hs: HubState, m: Market, now: Time, c: Curves, a: Account)
    requires Climbing(hs, m) && RightOnClimb(c) && GoodTime(m, now)
    requires m.slug in hs.markets && hs.markets[m.slug] == m && m.slug !in a.positions
    requires 12.25 <= a.bankroll <= 200.0 && Exposure(a.positions) + ClimbStake(c, a.bankroll) <= 25.0
    ensures var o := Quote(DEFAULT_MANAGER, a, DEFAULT_ENGINE.Decide(hs, Some(m), now, c), hs);
      o.Some? && o.value.market == m.slug && o.value.dir == BuyUp && o.value.cost == ClimbStake(c, a.bankroll)
  {
    ClimbDecision(hs, m, now, c);
    ClimbKelly(c.sigmoid(0.4));
    ClimbStakeBounds(c, a.bankroll);
    assert PriceAccepted(DEFAULT_MANAGER, 0.51);
  }

  // ---- there are orders ----

  const MARKET := Market("m", "u", "d", 0, 100 * SECOND, Trading, "", 0)

  function ClimbingHub(): HubState {
    HubState(map["m" := MARKET], Climb(), map["u" := FAIR_BOOK], map[])
  }

  /** Nothing about the defaults is contradictory: there are orders, and the bounds on them are about something. */
  lemma TradesDoHappen(c: Curves)
    requires RightOnClimb(c)
    ensures exists hs: HubState, m: Market, now: Time ::
      && hs.MayBeCurrent(Some(m), now) && FairlyQuoted(hs, m, DEFAULT_ENGINE.Decide(hs, Some(m), now, c).dir)
      && Quote(DEFAULT_MANAGER, NewAccount(DEFAULT_MANAGER), DEFAULT_ENGINE.Decide(hs, Some(m), now, c), hs).Some?
  {
    var hs, a := ClimbingHub(), NewAccount(DEFAULT_MANAGER);
    assert HourUTC(0) == 0;
    ClimbDecision(hs, MARKET, 0, c);
    assert Costs(a.positions) == map[];
    ClimbStakeBounds(c, a.bankroll);
    ClimbOrder(hs, MARKET, 0, c, a);
    assert hs.MayBeCurrent(Some(MARKET), 0);
    assert FairlyQuoted(hs, MARKET, BuyUp);
  }

  // ---- and there are such curves ----

  function SteepSign(x: real): real {
    SoftSign(2.0 * x)
  }

  function GentleStep(x: real): real {
    0.5 + 0.22 * SoftSign(2.0 * x)
  }

  function FivePointSix(x: real): real {
    5.6
  }

  lemma SomeCurvesAreRight()
    ensures RightOnClimb(Curves(SteepSign, GentleStep, FivePointSix))
  {
    forall x: real, y: real | x < y
      ensures SteepSign(x) < SteepSign(y) && GentleStep(x) < GentleStep(y)
    {
      SoftSignRises(2.0 * x, 2.0 * y);
    }
    forall x: real
      ensures -1.0 < SteepSign(x) < 1.0 && SteepSign(-x) == -SteepSign(x)
      ensures 0.0 < GentleStep(x) < 1.0 && GentleStep(-x) == 1.0 - GentleStep(x)
    {
      SoftSignBounded(2.0 * x);
      assert 2.0 * -x == -(2.0 * x);
    }
    assert SoftSign(0.8) == 4.0 / 9.0;
  }
}
