/** What the default constants imply for every decision and every order that gets through. */
module SignalLaws {
  import opened Prelude
  import opened Regression
  import opened PriceBuf
  import opened TradeBuf
  import opened Hub
  import opened Signal
  import opened Kelly
  import opened Risk
  import opened Sizing

  // ---- the laws have a model ----

  function SoftSign(x: real): real {
    x / (1.0 + Abs(x))
  }

  lemma SoftSignBounded(x: real)
    ensures -1.0 < SoftSign(x) < 1.0 && SoftSign(-x) == -SoftSign(x)
  {
    var u, p := 1.0 + Abs(x), SoftSign(x);
    assert p * u == x;
    assert (-p) * u == -x;
    ProductSign(u, p - 1.0);
    ProductSign(u, -1.0 - p);
  }

  lemma SoftSignRises(x: real, y: real)
    requires x < y
    ensures SoftSign(x) < SoftSign(y)
  {
    var u, v, p, q := 1.0 + Abs(x), 1.0 + Abs(y), SoftSign(x), SoftSign(y);
    assert p * u == x && q * v == y;
    CrossOrder(x, y);
    CompareQuotients(x, u, y, v, p, q);
  }

  lemma CompareQuotients(x: real, u: real, y: real, v: real, p: real, q: real)
    requires u > 0.0 && v > 0.0 && p * u == x && q * v == y && y * u - x * v > 0.0
    ensures p < q
  {
    ProductSign(u, v);
    assert (q - p) * (u * v) == (q * v) * u - (p * u) * v;
    ProductSign(u * v, p - q);
    assert (q - p) * (u * v) == -((u * v) * (p - q));
  }

  lemma CrossOrder(x: real, y: real)
    requires x < y
    ensures y * (1.0 + Abs(x)) - x * (1.0 + Abs(y)) > 0.0
  {
    if x >= 0.0 || y <= 0.0 {
      assert y * Abs(x) == x * Abs(y);
    } else {
      ProductSign(y, -x);
      assert y * Abs(x) == y * (-x);
      assert x * Abs(y) == x * y;
    }
  }

  function SoftStep(x: real): real {
    (1.0 + SoftSign(x)) / 2.0
  }

  /** The laws assumed of the curves are consistent: soft-sign curves satisfy them. */
  lemma LawsAreConsistent()
    ensures Lawful(Curves(SoftSign, SoftStep, SoftSign))
  {
    forall x: real, y: real | x < y
      ensures SoftSign(x) < SoftSign(y) && SoftStep(x) < SoftStep(y)
    {
      SoftSignRises(x, y);
    }
    forall x: real
      ensures -1.0 < SoftSign(x) < 1.0 && SoftSign(-x) == -SoftSign(x)
      ensures 0.0 < SoftStep(x) < 1.0 && SoftStep(-x) == 1.0 - SoftStep(x)
    {
      SoftSignBounded(x);
      assert SoftStep(-x) == 1.0 - SoftStep(x);
    }
  }

  lemma CurvesAtZero(c: Curves)
    requires Lawful(c)
    ensures c.tanh(0.0) == 0.0 && c.sigmoid(0.0) == 0.5
  {
    assert -0.0 == 0.0;
    assert c.tanh(-0.0) == -c.tanh(0.0) && c.sigmoid(-0.0) == 1.0 - c.sigmoid(0.0);
  }

  // ---- the default engine ----

  lemma DefaultWeights()
    ensures DEFAULT_ENGINE.TotalWeight(3) == 1.0
  {
    assert DEFAULT_ENGINE.TotalWeight(1) == 0.60;
    assert DEFAULT_ENGINE.TotalWeight(2) == 0.90;
  }

  lemma DefaultSum(scores: seq<Score>)
    requires |scores| == 3
    ensures DEFAULT_ENGINE.WeightedSum(scores)
         == 0.60 * scores[0].value + 0.30 * scores[1].value + 0.10 * scores[2].value
  {
    var eng := DEFAULT_ENGINE;
    assert scores[..2][..1] == scores[..1] && scores[..1][..0] == [];
    assert eng.WeightedSum(scores[..1]) == Scaled(scores[0].value, 0.60);
    assert eng.WeightedSum(scores[..2]) == eng.WeightedSum(scores[..1]) + Scaled(scores[1].value, 0.30);
  }

  lemma ThreeScores(hs: HubState, m: Market, now: Time, c: Curves)
    ensures DEFAULT_ENGINE.Scores(3, hs, m, now, c)
         == [DEFAULT_ENGINE.ScoreAt(0, hs, m, now, c), DEFAULT_ENGINE.ScoreAt(1, hs, m, now, c),
             DEFAULT_ENGINE.ScoreAt(2, hs, m, now, c)]
  {
    assert DEFAULT_ENGINE.Scores(1, hs, m, now, c) == [DEFAULT_ENGINE.ScoreAt(0, hs, m, now, c)];
    assert DEFAULT_ENGINE.Scores(2, hs, m, now, c)
        == [DEFAULT_ENGINE.ScoreAt(0, hs, m, now, c), DEFAULT_ENGINE.ScoreAt(1, hs, m, now, c)];
  }

  lemma FlowBounded(up: real, down: real)
    ensures -1.0 <= FlowValue(up, down) <= 1.0
  {
  }

  /** A stronger trend, or a more sensitive score, means strictly more momentum. */
  lemma MomentumRisesWithTrend(c: Curves, hs: HubState, hs': HubState, m: Market, now: Time, window: int, s: real,
                               s': real)
    requires Lawful(c) && SlopeOver(hs.prices, window).Some? && SlopeOver(hs'.prices, window).Some?
    ensures Momentum(window, s).Value(hs, m, now, c) < Momentum(window, s').Value(hs', m, now, c)
       <==> SlopeOver(hs.prices, window).value * s < SlopeOver(hs'.prices, window).value * s'
  {
    MomentumOnCurve(c, hs, m, now, window, s);
    MomentumOnCurve(c, hs', m, now, window, s');
    CurvesOrder(c, SlopeOver(hs.prices, window).value * s, SlopeOver(hs'.prices, window).value * s');
  }

  lemma MomentumOnCurve(c: Curves, hs: HubState, m: Market, now: Time, window: int, s: real)
    requires Lawful(c) && SlopeOver(hs.prices, window).Some?
    ensures Momentum(window, s).Value(hs, m, now, c) == c.tanh(SlopeOver(hs.prices, window).value * s)
  {
    assert -1.0 < c.tanh(SlopeOver(hs.prices, window).value * s) < 1.0;
  }

  lemma CurvesOrder(c: Curves, x: real, y: real)
    requires Lawful(c)
    ensures (c.tanh(x) < c.tanh(y) <==> x < y) && (c.sigmoid(x) < c.sigmoid(y) <==> x < y)
  {
    if y < x {
      assert c.tanh(y) < c.tanh(x) && c.sigmoid(y) < c.sigmoid(x);
    }
  }

  /** So does the model's probability, except where it stays at one of its caps. */
  lemma ModelRisesWithTrend(c: Curves, hs: HubState, hs': HubState, window: int, s: real, s': real, cap: real)
    requires Lawful(c) && cap >= 0.5
    requires SlopeOver(hs.prices, window).Some? && SlopeOver(hs'.prices, window).Some?
    ensures var p := Edge(window, s, cap).ModelProbability(hs, c).value;
      var p' := Edge(window, s', cap).ModelProbability(hs', c).value;
      && 1.0 - cap <= p <= cap
      && (p < p' <==> SlopeOver(hs.prices, window).value * s < SlopeOver(hs'.prices, window).value * s'
                      && p < cap && 1.0 - cap < p')
  {
    var x, x' := SlopeOver(hs.prices, window).value * s, SlopeOver(hs'.prices, window).value * s';
    CurvesOrder(c, x, x');
    ModelOnCurve(c, hs, window, s, cap);
    ModelOnCurve(c, hs', window, s', cap);
    ClampRises(c.sigmoid(x), c.sigmoid(x'), 1.0 - cap, cap);
  }

  lemma ModelOnCurve(c: Curves, hs: HubState, window: int, s: real, cap: real)
    requires SlopeOver(hs.prices, window).Some?
    ensures Edge(window, s, cap).ModelProbability(hs, c)
         == Some(Clamp(c.sigmoid(SlopeOver(hs.prices, window).value * s), 1.0 - cap, cap))
  {
  }

  lemma ClampRises(u: real, v: real, lo: real, hi: real)
    requires lo <= hi
    ensures lo <= Clamp(u, lo, hi) <= hi
    ensures Clamp(u, lo, hi) < Clamp(v, lo, hi) <==> u < v && Clamp(u, lo, hi) < hi && lo < Clamp(v, lo, hi)
  {
  }

  /** The edge signal is how far the model is above the market: its sign is the side the model thinks too cheap. */
  lemma EdgeIsDisagreement(c: Curves, hs: HubState, m: Market, now: Time, window: int, s: real, cap: real)
    requires Lawful(c) && 0.5 <= cap <= 1.0
    requires hs.Mid(m.upToken).Some? ==> 0.0 <= hs.Mid(m.upToken).value <= 1.0
    ensures var e := Edge(window, s, cap); var p := e.ModelProbability(hs, c); var mid := hs.Mid(m.upToken);
      && Abs(e.Value(hs, m, now, c)) == EdgeOf(p, mid)
      && (e.Value(hs, m, now, c) > 0.0 <==> p.Some? && mid.Some? && p.value > mid.value)
      && (e.Value(hs, m, now, c) < 0.0 <==> p.Some? && mid.Some? && p.value < mid.value)
  {
  }

  /** The hour gate reads the hour of the day. */
  lemma HourOfDay(day: int, hour: int, rest: Time)
    requires 0 <= hour < 24 && 0 <= rest < 3600 * SECOND
    ensures HourUTC((24 * day + hour) * (3600 * SECOND) + rest) == hour
  {
    var t := (24 * day + hour) * (3600 * SECOND) + rest;
    assert t / (3600 * SECOND) == 24 * day + hour;
  }

  /** The volatility gate lets a window pass exactly when its variance is at most the square of the allowed spread. */
  lemma VolatilityBoundsVariance(cfg: EngineConfig, hs: HubState, c: Curves)
    requires TakesRoots(c.sqrt) && cfg.maxVolatility >= 0.0 && Volatility(cfg, hs, c).Some?
    ensures VarianceOver(hs.prices, cfg.volWindow).Some? && hs.prices != []
    ensures Volatility(cfg, hs, c).value <= cfg.maxVolatility
       <==> VarianceOver(hs.prices, cfg.volWindow).value
            <= Square(cfg.maxVolatility * hs.prices[|hs.prices| - 1].price)
  {
    var v, price := VarianceOver(hs.prices, cfg.volWindow).value, hs.prices[|hs.prices| - 1].price;
    VarianceNotNegative(hs.prices, cfg.volWindow);
    var root, allowed := c.sqrt(v), cfg.maxVolatility * price;
    ProductSign(cfg.maxVolatility, price);
    SquareOrder(root, allowed);
    OverTimes(root, price);
    ProductSign(price, Over(root, price) - cfg.maxVolatility);
    ProductSign(price, cfg.maxVolatility - Over(root, price));
  }

  lemma SquareOrder(x: real, y: real)
    requires x >= 0.0 && y >= 0.0
    ensures x <= y <==> Square(x) <= Square(y)
  {
    ProductSign(x + y, y - x);
    assert (x + y) * (y - x) == y * y - x * x;
  }

  /** When only buys and sells are retained, a token's volume is the size of its trades that the window reaches. */
  lemma VolumeIsTraded(hs: HubState, token: string, now: Time, window: Time)
    requires token in hs.trades
    requires forall t | t in hs.trades[token] :: Spelled(t.side, "buy", "BUY") || Spelled(t.side, "sell", "SELL")
    ensures TotalVolume(hs, token, now, window) == SizeSum(ScanSince(hs.trades[token], WindowStart(now, window)))
  {
    ScanIsPart(hs.trades[token], WindowStart(now, window));
    SidesAddUp(ScanSince(hs.trades[token], WindowStart(now, window)));
  }

  /** A composite is a weighted mean: it lies between any bounds of the scores. */
  lemma {:induction false} SumWithinScores(eng: Engine, scores: seq<Score>, lo: real, hi: real)
    requires |scores| <= |eng.signals| && forall i | 0 <= i < |scores| :: lo <= scores[i].value <= hi
    requires forall w | w in eng.signals :: w.weight >= 0.0
    ensures Within(lo, hi, eng.WeightedSum(scores), eng.TotalWeight(|scores|)) && eng.TotalWeight(|scores|) >= 0.0
  {
    if scores != [] {
      var n := |scores| - 1;
      SumWithinScores(eng, scores[..n], lo, hi);
      assert eng.signals[n] in eng.signals;
      var w, v, total := eng.signals[n].weight, scores[n].value, eng.TotalWeight(n);
      ProductSign(w, v - lo);
      ProductSign(w, hi - v);
      assert lo * (total + w) == lo * total + lo * w && hi * (total + w) == hi * total + hi * w;
    }
  }

  lemma ConfidenceWithinScores(eng: Engine, hs: HubState, m: Market, now: Time, c: Curves, lo: real, hi: real)
    requires eng.edge.Edge? && forall w | w in eng.signals :: w.weight >= 0.0
    requires EarlyRefusal(eng.cfg, hs, m, now, c).None? && eng.TotalWeight(|eng.signals|) > 0.0
    requires forall i | 0 <= i < |eng.signals| :: lo <= eng.Scores(|eng.signals|, hs, m, now, c)[i].value <= hi
    ensures var d := eng.Decide(hs, Some(m), now, c);
      lo <= (if d.dir == BuyDown then -d.confidence else d.confidence) <= hi
  {
    var scores := eng.Scores(|eng.signals|, hs, m, now, c);
    SumWithinScores(eng, scores, lo, hi);
    QuotientBetween(eng.WeightedSum(scores), eng.TotalWeight(|eng.signals|), lo, hi);
  }

  /** A decision to trade has passed every final gate. */
  lemma TradeableMeansGated(eng: Engine, hs: HubState, current: Option<Market>, now: Time, c: Curves)
    requires eng.edge.Edge? && eng.Decide(hs, current, now, c).shouldTrade && eng.cfg.minEdge > 0.0
    ensures current.Some? && eng.TotalWeight(|eng.signals|) != 0.0
    ensures var m := current.value; var d := eng.Decide(hs, current, now, c);
      var composite := Over(eng.WeightedSum(eng.Scores(|eng.signals|, hs, m, now, c)), eng.TotalWeight(|eng.signals|));
      && EarlyRefusal(eng.cfg, hs, m, now, c).None?
      && d.market == m.slug && d.signals == eng.Scores(|eng.signals|, hs, m, now, c)
      && composite != 0.0 && d.dir == (if composite > 0.0 then BuyUp else BuyDown)
      && d.confidence == Abs(composite) >= eng.cfg.minConfidence
      && eng.edge.ModelProbability(hs, c) == Some(d.modelProb) && hs.Mid(m.upToken).Some?
      && d.edge == Abs(d.modelProb - hs.Mid(m.upToken).value)
      && eng.cfg.minEdge <= d.edge && (eng.cfg.maxEdge > 0.0 ==> d.edge <= eng.cfg.maxEdge)
  {
  }

  /** The gates tried before any signal is computed, whatever their order; both ends of the window are let through. */
  predicate DataGatesOpen(cfg: EngineConfig, hs: HubState, m: Market, now: Time, c: Curves) {
    && cfg.minExpiry <= TimeLeft(m.endTime, now) <= cfg.maxExpiry
    && hs.prices != [] && |hs.prices| >= cfg.minDataPoints && HourUTC(now) !in cfg.skipHours
    && (Volatility(cfg, hs, c).Some? ==> Volatility(cfg, hs, c).value <= cfg.maxVolatility)
  }

  /** How far the model disagrees with the market; 0 when either is unknown. */
  function EdgeOf(model: Option<real>, mid: Option<real>): real {
    if model.Some? && mid.Some? then Abs(model.value - mid.value) else 0.0
  }

  /** The gates on the composite score and the edge; again both ends are let through. */
  predicate ScoreGatesOpen(cfg: EngineConfig, composite: real, edge: real) {
    && composite != 0.0 && Abs(composite) >= cfg.minConfidence
    && cfg.minEdge <= edge && (cfg.maxEdge > 0.0 ==> edge <= cfg.maxEdge)
  }

  lemma NoRefusalIffDataGatesOpen(cfg: EngineConfig, hs: HubState, m: Market, now: Time, c: Curves)
    ensures EarlyRefusal(cfg, hs, m, now, c).None? <==> DataGatesOpen(cfg, hs, m, now, c)
  {
  }

  lemma ConfirmedIffScoreGatesOpen(eng: Engine, scored: Decision, composite: real, model: Option<real>,
                                   mid: Option<real>)
    requires !scored.shouldTrade
    ensures eng.Conclude(scored, composite, model, mid).shouldTrade
       <==> ScoreGatesOpen(eng.cfg, composite, EdgeOf(model, mid))
  {
  }

  /** Only the decision to trade is reported as confirmed. */
  lemma ConfirmedIsReported(eng: Engine, hs: HubState, current: Option<Market>, now: Time, c: Curves)
    requires eng.edge.Edge?
    ensures var d := eng.Decide(hs, current, now, c); var vol := Volatility(eng.cfg, hs, c);
      && (d.shouldTrade <==> d.reason == "signal confirmed") && (d.shouldTrade ==> d.dir != Hold)
      && (d.shouldTrade && vol.Some? ==> d.volatilityCV == vol.value)
  {
    if current.Some? {
      ConfirmedIsVerdict(eng, current.value, now, EarlyRefusal(eng.cfg, hs, current.value, now, c),
        Volatility(eng.cfg, hs, c), eng.Scores(|eng.signals|, hs, current.value, now, c),
        eng.edge.ModelProbability(hs, c), hs.Mid(current.value.upToken));
    }
  }

  lemma ConfirmedIsVerdict(eng: Engine, m: Market, now: Time, refusal: Option<string>, vol: Option<real>,
                           scores: seq<Score>, model: Option<real>, mid: Option<real>)
    requires |scores| == |eng.signals| && (refusal.Some? ==> refusal.value != "signal confirmed")
    ensures var d := eng.Assemble(m, now, refusal, vol, scores, model, mid);
      && (d.shouldTrade <==> d.reason == "signal confirmed") && (d.shouldTrade ==> d.dir != Hold)
      && (d.shouldTrade && vol.Some? ==> d.volatilityCV == vol.value)
  {
    assert "signal confirmed"[1] == 'i' && "confidence below threshold"[1] == 'o' && "edge below threshold"[1] == 'd';
    assert "edge too high (overconfident)"[1] == 'd' && "signals cancel out"[6] == 's' && "signal confirmed"[6] == ' ';
    assert "no signal weights"[1] == 'o';
  }

  /** A decision is tradeable exactly when every gate is open, in whatever order they are tried. */
  lemma TradesIffGatesOpen(eng: Engine, hs: HubState, m: Market, now: Time, c: Curves)
    requires eng.edge.Edge?
    ensures !eng.Decide(hs, None, now, c).shouldTrade
    ensures eng.Decide(hs, Some(m), now, c).shouldTrade <==>
      && DataGatesOpen(eng.cfg, hs, m, now, c) && eng.TotalWeight(|eng.signals|) != 0.0
      && ScoreGatesOpen(eng.cfg,
                        Over(eng.WeightedSum(eng.Scores(|eng.signals|, hs, m, now, c)), eng.TotalWeight(|eng.signals|)),
                        EdgeOf(eng.edge.ModelProbability(hs, c), hs.Mid(m.upToken)))
  {
    NoRefusalIffDataGatesOpen(eng.cfg, hs, m, now, c);
    AssembledIffGatesOpen(eng, m, now, EarlyRefusal(eng.cfg, hs, m, now, c), Volatility(eng.cfg, hs, c),
      eng.Scores(|eng.signals|, hs, m, now, c), eng.edge.ModelProbability(hs, c), hs.Mid(m.upToken));
  }

  lemma AssembledIffGatesOpen(eng: Engine, m: Market, now: Time, refusal: Option<string>, vol: Option<real>,
                              scores: seq<Score>,
                              model: Option<real>, mid: Option<real>)
    requires |scores| == |eng.signals|
    ensures eng.Assemble(m, now, refusal, vol, scores, model, mid).shouldTrade <==>
      && refusal.None? && eng.TotalWeight(|eng.signals|) != 0.0
      && ScoreGatesOpen(eng.cfg, Over(eng.WeightedSum(scores), eng.TotalWeight(|eng.signals|)), EdgeOf(model, mid))
  {
    if refusal.None? && eng.TotalWeight(|eng.signals|) != 0.0 {
      ConfirmedIffScoreGatesOpen(eng, Named(m, now, refusal, vol).(signals := scores),
                                 Over(eng.WeightedSum(scores), eng.TotalWeight(|eng.signals|)), model, mid);
    }
  }

  /** Which way the momentum score points, and how far. */
  lemma MomentumFollowsSlope(c: Curves, slope: real)
    requires Lawful(c)
    ensures var v := Clamp(Clamp(c.tanh(slope), -1.0, 1.0), -0.50, 0.50);
      -0.50 <= v <= 0.50 && (v > 0.0 <==> slope > 0.0) && (v < 0.0 <==> slope < 0.0)
    ensures var p := Clamp(c.sigmoid(slope), 1.0 - 0.80, 0.80);
      0.20 <= p <= 0.80 && (p > 0.5 <==> slope > 0.0) && (p < 0.5 <==> slope < 0.0)
  {
    CurvesAtZero(c);
    if slope > 0.0 {
      assert c.tanh(0.0) < c.tanh(slope) && c.sigmoid(0.0) < c.sigmoid(slope);
    } else if slope < 0.0 {
      assert c.tanh(slope) < c.tanh(0.0) && c.sigmoid(slope) < c.sigmoid(0.0);
    }
  }

  lemma ScaledByOne(x: real)
    ensures Scaled(x, 1.0) == x
  {
  }

  /** The trend a tradeable decision of the default engine follows, in numbers. */
  ghost predicate FollowsTrend(d: Decision, slope: real) {
    && |d.signals| == 3 && d.signals[0].name == "momentum"
    && 0.20 <= d.confidence <= 0.43
    && (d.dir == BuyUp ==> slope > 0.0 && 7.0 / 60.0 <= d.signals[0].value && 0.5 < d.modelProb <= 0.80)
    && (d.dir == BuyDown ==> slope < 0.0 && d.signals[0].value <= -7.0 / 60.0 && 0.20 <= d.modelProb < 0.5)
    && d.dir != Hold
  }

  /**
   Neither the edge nor the trade flow can reach the confidence threshold without momentum:
   every tradeable decision bets with the trend of the last minute.
   */
  lemma TradesFollowTrend(hs: HubState, current: Option<Market>, now: Time, c: Curves)
    requires Lawful(c) && DEFAULT_ENGINE.Decide(hs, current, now, c).shouldTrade
    ensures SlopeOver(hs.prices, 60).Some?
    ensures FollowsTrend(DEFAULT_ENGINE.Decide(hs, current, now, c), SlopeOver(hs.prices, 60).value)
  {
    TradeableMeansGated(DEFAULT_ENGINE, hs, current, now, c);
    var m := current.value;
    var d := DEFAULT_ENGINE.Decide(hs, current, now, c);
    assert |DEFAULT_ENGINE.signals| == 3;
    DefaultWeights();
    var scores := DEFAULT_ENGINE.Scores(3, hs, m, now, c);
    ThreeScores(hs, m, now, c);
    DefaultSum(scores);
    var slope := SlopeOver(hs.prices, 60).value;
    ScaledByOne(slope);
    MomentumFollowsSlope(c, slope);
    FlowBounded(TotalVolume(hs, m.upToken, now, 60 * SECOND), TotalVolume(hs, m.downToken, now, 60 * SECOND));
    CompositeBounds(scores[0].value, scores[1].value, scores[2].value, DEFAULT_ENGINE.WeightedSum(scores));
    OverOne(DEFAULT_ENGINE.WeightedSum(scores));
  }

  lemma OverOne(x: real)
    ensures Over(x, 1.0) == x
  {
  }

  lemma CompositeBounds(mom: real, edge: real, flow: real, sum: real)
    requires -0.50 <= mom <= 0.50 && -0.10 <= edge <= 0.10 && -1.0 <= flow <= 1.0
    requires sum == 0.60 * mom + 0.30 * edge + 0.10 * flow
    ensures Abs(sum) <= 0.43
    ensures sum >= 0.20 ==> mom >= 7.0 / 60.0
    ensures sum <= -0.20 ==> mom <= -7.0 / 60.0
  {
  }

  // ---- from the order book to the stake ----

  /**
   Kelly over a price at least the mid, when the probability is at most 0.10 above that mid and the price at most
   0.55.
   */
  lemma KellyAtMostTwoNinths(p: real, price: real)
    requires 0.0 < price <= 0.55 && p <= price + 0.10
    ensures 9.0 * KellyFraction(p, price) <= 2.0
  {
    var k := KellyFraction(p, price);
    if k > 0.0 {
      var unit := 1.0 - price;
      assert k * unit == p - price;
      assert (9.0 * k) * unit == 9.0 * (p - price);
      FactorAtMost(9.0 * k, unit, 2.0);
    }
  }

  lemma FactorAtMost(k: real, unit: real, bound: real)
    requires unit > 0.0 && k * unit <= bound * unit
    ensures k <= bound
  {
    ProductSign(unit, k - bound);
    assert unit * (k - bound) == k * unit - bound * unit;
  }

  lemma StakeAtMostEighteenth(kelly: real, bankroll: real)
    requires 0.0 < kelly && 9.0 * kelly <= 2.0 && bankroll >= 0.0
    ensures Stake(kelly, 0.25, bankroll) <= bankroll / 18.0
  {
    ProductSign(bankroll, 2.0 - 9.0 * kelly);
    assert bankroll * (2.0 - 9.0 * kelly) == 2.0 * bankroll - 9.0 * (kelly * bankroll);
    assert kelly * 0.25 * bankroll == 0.25 * (kelly * bankroll);
  }

  /** The book the bet is priced against quotes no better than the model was compared with. */
  ghost predicate FairlyQuoted(hs: HubState, m: Market, dir: Direction) {
    && hs.Mid(m.upToken).Some?
    && match dir
       case BuyUp => hs.books[m.upToken].BestBid().value <= hs.books[m.upToken].BestAsk().value
       case BuyDown => m.downToken in hs.books && hs.books[m.downToken].BestAsk().Some?
                       && 1.0 - hs.Mid(m.upToken).value <= hs.books[m.downToken].BestAsk().value
       case Hold => false
  }

  /**
   Engine, order book and manager together, under the default constants and one reading of
   the hub: an order stakes at most an eighteenth of the bankroll, and so needs nine dollars.
   */
  lemma OrdersAreSmall(hs: HubState, current: Option<Market>, now: Time, c: Curves, a: Account)
    requires Lawful(c) && current.Some? && hs.MayBeCurrent(current, now)
    requires var d := DEFAULT_ENGINE.Decide(hs, current, now, c);
      FairlyQuoted(hs, current.value, d.dir) && Quote(DEFAULT_MANAGER, a, d, hs).Some?
    ensures var d := DEFAULT_ENGINE.Decide(hs, current, now, c); var o := Quote(DEFAULT_MANAGER, a, d, hs).value;
      var mid := hs.Mid(current.value.upToken).value;
      && (d.dir == BuyUp ==> d.modelProb > mid) && (d.dir == BuyDown ==> d.modelProb < mid)
      && 9.0 * o.kellyFrac <= 2.0 && o.cost <= a.bankroll / 18.0 && a.bankroll >= 9.0
  {
    var d := DEFAULT_ENGINE.Decide(hs, current, now, c);
    QuoteWithinLimits(DEFAULT_MANAGER, a, d, hs);
    TradeableMeansGated(DEFAULT_ENGINE, hs, current, now, c);
    var o := Quote(DEFAULT_MANAGER, a, d, hs).value;
    KellyAtMostTwoNinths(o.modelProb, o.price);
    StakeAtMostEighteenth(o.kellyFrac, a.bankroll);
  }
}
