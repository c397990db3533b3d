/**
 Up and Down are the same game seen in a mirror: reflect the price history about its latest
 price, swap the two tokens' books and trades, and every decision and every order is mirrored.
 */
module Mirror {
  import opened Prelude
  import opened Regression
  import opened PriceBuf
  import opened TradeBuf
  import opened Book
  import opened Hub
  import opened Signal
  import opened Risk

  function BookOf(hs: HubState, token: string): Option<BookValue> {
    if token in hs.books then Some(hs.books[token]) else None
  }

  function TradesOf(hs: HubState, token: string): seq<TradeEntry> {
    if token in hs.trades then hs.trades[token] else []
  }

  /** The tokens' mid prices add up to one, or neither has one. */
  predicate Complementary(hs: HubState, m: Market) {
    || (hs.Mid(m.upToken).None? && hs.Mid(m.downToken).None?)
    || (&& hs.Mid(m.upToken).Some? && hs.Mid(m.downToken).Some?
        && hs.Mid(m.upToken).value + hs.Mid(m.downToken).value == 1.0)
  }

  ghost predicate PricesMirrored(p: seq<PriceEntry>, q: seq<PriceEntry>) {
    && |p| == |q|
    && forall i | 0 <= i < |p| :: q[i].price == 2.0 * p[|p| - 1].price - p[i].price
  }

  ghost predicate Mirrored(hs: HubState, hs': HubState, m: Market) {
    && hs'.markets == hs.markets
    && PricesMirrored(hs.prices, hs'.prices)
    && BookOf(hs', m.upToken) == BookOf(hs, m.downToken) && BookOf(hs', m.downToken) == BookOf(hs, m.upToken)
    && TradesOf(hs', m.upToken) == TradesOf(hs, m.downToken) && TradesOf(hs', m.downToken) == TradesOf(hs, m.upToken)
    && Complementary(hs, m)
  }

  function FlipDir(d: Direction): Direction {
    match d
    case BuyUp => BuyDown
    case BuyDown => BuyUp
    case Hold => Hold
  }

  lemma WindowMirrored(p: seq<PriceEntry>, q: seq<PriceEntry>, window: int)
    requires PricesMirrored(p, q)
    ensures p != [] ==> Reflected(WindowPrices(p, window), WindowPrices(q, window), 2.0 * p[|p| - 1].price)
    ensures |WindowPrices(p, window)| == |WindowPrices(q, window)|
    ensures p != [] ==> q[|q| - 1].price == p[|p| - 1].price
  {
    WindowSize(p, window);
    WindowSize(q, window);
    var n := |WindowPrices(p, window)|;
    forall j | 0 <= j < n
      ensures p != [] && WindowPrices(q, window)[j] == 2.0 * p[|p| - 1].price - WindowPrices(p, window)[j]
    {
      WindowPriceAt(p, window, j);
      WindowPriceAt(q, window, j);
    }
  }

  lemma SlopeMirrored(p: seq<PriceEntry>, q: seq<PriceEntry>, window: int)
    requires PricesMirrored(p, q)
    ensures SlopeOver(p, window).Some? <==> SlopeOver(q, window).Some?
    ensures SlopeOver(p, window).Some? ==> SlopeOver(q, window).value == -SlopeOver(p, window).value
  {
    WindowMirrored(p, q, window);
    var w, w' := WindowPrices(p, window), WindowPrices(q, window);
    if |w| >= 2 {
      ReflectedSlope(w, w', 2.0 * p[|p| - 1].price);
    }
  }

  lemma VarianceMirrored(p: seq<PriceEntry>, q: seq<PriceEntry>, window: int)
    requires PricesMirrored(p, q)
    ensures VarianceOver(p, window) == VarianceOver(q, window)
  {
    WindowMirrored(p, q, window);
    if |WindowPrices(p, window)| >= 2 {
      ReflectedSpread(WindowPrices(p, window), WindowPrices(q, window), 2.0 * p[|p| - 1].price);
    }
  }

  lemma VolatilityMirrored(cfg: EngineConfig, hs: HubState, hs': HubState, c: Curves)
    requires PricesMirrored(hs.prices, hs'.prices)
    ensures Volatility(cfg, hs', c) == Volatility(cfg, hs, c)
  {
    VarianceMirrored(hs.prices, hs'.prices, cfg.volWindow);
    WindowMirrored(hs.prices, hs'.prices, cfg.volWindow);
  }

  lemma ScaledNegated(x: real, factor: real)
    ensures Scaled(-x, factor) == -Scaled(x, factor)
  {
  }

  lemma ModelMirrored(e: Evaluator, hs: HubState, hs': HubState, c: Curves)
    requires e.Edge? && Lawful(c) && PricesMirrored(hs.prices, hs'.prices)
    ensures e.ModelProbability(hs, c).Some? <==> e.ModelProbability(hs', c).Some?
    ensures e.maxModelProb >= 0.5 && e.ModelProbability(hs, c).Some? ==>
      e.ModelProbability(hs', c).value == 1.0 - e.ModelProbability(hs, c).value
  {
    SlopeMirrored(hs.prices, hs'.prices, e.slopeWindow);
    if SlopeOver(hs.prices, e.slopeWindow).Some? {
      ScaledNegated(SlopeOver(hs.prices, e.slopeWindow).value, e.edgeSensitivity);
      var x := Scaled(SlopeOver(hs.prices, e.slopeWindow).value, e.edgeSensitivity);
      assert c.sigmoid(-x) == 1.0 - c.sigmoid(x);
    }
  }

  lemma MidMirrored(hs: HubState, hs': HubState, m: Market)
    requires Mirrored(hs, hs', m)
    ensures hs'.Mid(m.upToken) == hs.Mid(m.downToken)
    ensures hs.Mid(m.upToken).Some? <==> hs'.Mid(m.upToken).Some?
    ensures hs.Mid(m.upToken).Some? ==> hs'.Mid(m.upToken).value == 1.0 - hs.Mid(m.upToken).value
  {
    assert BookOf(hs', m.upToken) == BookOf(hs, m.downToken);
  }

  lemma FlowSwapped(up: real, down: real)
    ensures FlowValue(down, up) == -FlowValue(up, down)
  {
    if up + down != 0.0 {
      SharesAddUp(Over(up, up + down), Over(down, down + up), up, down, up + down);
    }
  }

  lemma SharesAddUp(r: real, r': real, up: real, down: real, total: real)
    requires total != 0.0 && total == up + down && r == Over(up, total) && r' == Over(down, total)
    ensures r + r' == 1.0
  {
    OverTimes(up, total);
    OverTimes(down, total);
    SumTimes(r, r', up, down, total);
    Cancel(total, r + r', 1.0);
  }

  lemma SumTimes(r: real, r': real, up: real, down: real, total: real)
    requires r * total == up && r' * total == down
    ensures (r + r') * total == up + down
  {
  }

  lemma VolumeMirrored(hs: HubState, hs': HubState, m: Market, now: Time, window: Time)
    requires Mirrored(hs, hs', m)
    ensures TotalVolume(hs', m.upToken, now, window) == TotalVolume(hs, m.downToken, now, window)
    ensures TotalVolume(hs', m.downToken, now, window) == TotalVolume(hs, m.upToken, now, window)
  {
    VolumeOf(hs, m.upToken, now, window);
    VolumeOf(hs, m.downToken, now, window);
    VolumeOf(hs', m.upToken, now, window);
    VolumeOf(hs', m.downToken, now, window);
  }

  lemma VolumeOf(hs: HubState, token: string, now: Time, window: Time)
    ensures TotalVolume(hs, token, now, window)
         == SideSum(ScanSince(TradesOf(hs, token), WindowStart(now, window)), "buy")
          + SideSum(ScanSince(TradesOf(hs, token), WindowStart(now, window)), "sell")
  {
    if token !in hs.trades {
      assert ScanSince([], WindowStart(now, window)) == [];
    }
  }

  /** Every evaluator is an odd function of the world. */
  lemma ValueMirrored(e: Evaluator, hs: HubState, hs': HubState, m: Market, now: Time, c: Curves)
    requires Mirrored(hs, hs', m) && Lawful(c) && (e.Edge? ==> e.maxModelProb >= 0.5)
    ensures e.Value(hs', m, now, c) == -e.Value(hs, m, now, c)
  {
    match e
    case Momentum(window, sensitivity) =>
      SlopeMirrored(hs.prices, hs'.prices, window);
      if SlopeOver(hs.prices, window).Some? {
        ScaledNegated(SlopeOver(hs.prices, window).value, sensitivity);
        var x := Scaled(SlopeOver(hs.prices, window).value, sensitivity);
        assert c.tanh(-x) == -c.tanh(x);
      }
    case Edge(_, _, _) =>
      ModelMirrored(e, hs, hs', c);
      MidMirrored(hs, hs', m);
    case TradeFlow(window) =>
      VolumeMirrored(hs, hs', m, now, window);
      FlowSwapped(TotalVolume(hs, m.upToken, now, window), TotalVolume(hs, m.downToken, now, window));
  }

  predicate Symmetric(eng: Engine) {
    && eng.edge.Edge? && eng.edge.maxModelProb >= 0.5
    && forall w | w in eng.signals :: w.eval.Edge? ==> w.eval.maxModelProb >= 0.5
  }

  function Negated(scores: seq<Score>): seq<Score> {
    seq(|scores|, i requires 0 <= i < |scores| => Score(scores[i].name, -scores[i].value))
  }

  lemma ScoreMirrored(eng: Engine, i: nat, hs: HubState, hs': HubState, m: Market, now: Time, c: Curves)
    requires Symmetric(eng) && i < |eng.signals| && Mirrored(hs, hs', m) && Lawful(c)
    ensures eng.ScoreAt(i, hs', m, now, c)
         == Score(eng.ScoreAt(i, hs, m, now, c).name, -eng.ScoreAt(i, hs, m, now, c).value)
  {
    assert eng.signals[i] in eng.signals;
    ValueMirrored(eng.signals[i].eval, hs, hs', m, now, c);
  }

  lemma {:induction false} ScoresMirrored(eng: Engine, k: nat, hs: HubState, hs': HubState, m: Market, now: Time,
                                          c: Curves)
    requires Symmetric(eng) && k <= |eng.signals| && Mirrored(hs, hs', m) && Lawful(c)
    ensures eng.Scores(k, hs', m, now, c) == Negated(eng.Scores(k, hs, m, now, c))
  {
    if k > 0 {
      ScoresMirrored(eng, k - 1, hs, hs', m, now, c);
      ScoreMirrored(eng, k - 1, hs, hs', m, now, c);
      NegatedAppend(eng.Scores(k - 1, hs, m, now, c), eng.ScoreAt(k - 1, hs, m, now, c));
    }
  }

  lemma NegatedAppend(scores: seq<Score>, s: Score)
    ensures Negated(scores + [s]) == Negated(scores) + [Score(s.name, -s.value)]
  {
  }

  lemma {:induction false} SumMirrored(eng: Engine, scores: seq<Score>)
    requires |scores| <= |eng.signals|
    ensures eng.WeightedSum(Negated(scores)) == -eng.WeightedSum(scores)
  {
    if scores != [] {
      var rest := scores[..|scores| - 1];
      SumMirrored(eng, rest);
      assert Negated(scores)[..|scores| - 1] == Negated(rest);
      ScaledNegated(scores[|scores| - 1].value, eng.signals[|scores| - 1].weight);
    }
  }

  /** What becomes of a decision in the mirror. */
  predicate MirrorDecision(d: Decision, d': Decision, modelKnown: bool) {
    d' == d.(dir := FlipDir(d.dir), signals := Negated(d.signals),
             modelProb := if d.dir != Hold && modelKnown then 1.0 - d.modelProb else d.modelProb)
  }

  lemma OverNegated(a: real, b: real)
    requires b != 0.0
    ensures Over(-a, b) == -Over(a, b)
  {
    var q := Over(a, b);
    assert (-q) * b == -a;
  }

  /** Negated scores, a reflected model and a reflected mid make the mirrored decision. */
  lemma AssembleMirrored(eng: Engine, m: Market, now: Time, refusal: Option<string>, vol: Option<real>,
                         scores: seq<Score>,
                         model: Option<real>, mid: Option<real>, model': Option<real>, mid': Option<real>)
    requires eng.edge.Edge? && |scores| == |eng.signals|
    requires (model.Some? <==> model'.Some?) && (model.Some? ==> model'.value == 1.0 - model.value)
    requires (mid.Some? <==> mid'.Some?) && (mid.Some? ==> mid'.value == 1.0 - mid.value)
    ensures MirrorDecision(eng.Assemble(m, now, refusal, vol, scores, model, mid),
                           eng.Assemble(m, now, refusal, vol, Negated(scores), model', mid'), model.Some?)
  {
    SumMirrored(eng, scores);
    assert Negated([]) == [];
    if refusal.None? && eng.TotalWeight(|eng.signals|) != 0.0 {
      OverNegated(eng.WeightedSum(scores), eng.TotalWeight(|eng.signals|));
      ConcludeMirrored(eng, Named(m, now, refusal, vol), scores,
                       Over(eng.WeightedSum(scores), eng.TotalWeight(|eng.signals|)),
                       model, mid, model', mid');
    }
  }

  lemma ConcludeMirrored(eng: Engine, named: Decision, scores: seq<Score>, composite: real,
                         model: Option<real>, mid: Option<real>, model': Option<real>, mid': Option<real>)
    requires named.dir == Hold && named.modelProb == 0.0
    requires (model.Some? <==> model'.Some?) && (model.Some? ==> model'.value == 1.0 - model.value)
    requires (mid.Some? <==> mid'.Some?) && (mid.Some? ==> mid'.value == 1.0 - mid.value)
    ensures MirrorDecision(eng.Conclude(named.(signals := scores), composite, model, mid),
                           eng.Conclude(named.(signals := Negated(scores)), -composite, model', mid'), model.Some?)
  {
  }

  /** The mirrored hub gets the opposite decision with the same confidence, edge, volatility and verdict. */
  lemma DecisionMirrored(eng: Engine, hs: HubState, hs': HubState, m: Market, now: Time, c: Curves)
    requires Symmetric(eng) && Mirrored(hs, hs', m) && Lawful(c)
    ensures MirrorDecision(eng.Decide(hs, Some(m), now, c), eng.Decide(hs', Some(m), now, c),
                           eng.edge.ModelProbability(hs, c).Some?)
  {
    VolatilityMirrored(eng.cfg, hs, hs', c);
    ScoresMirrored(eng, |eng.signals|, hs, hs', m, now, c);
    ModelMirrored(eng.edge, hs, hs', c);
    MidMirrored(hs, hs', m);
    AssembleMirrored(eng, m, now, EarlyRefusal(eng.cfg, hs, m, now, c), Volatility(eng.cfg, hs, c),
      eng.Scores(|eng.signals|, hs, m, now, c), eng.edge.ModelProbability(hs, c), hs.Mid(m.upToken),
      eng.edge.ModelProbability(hs', c), hs'.Mid(m.upToken));
    assert EarlyRefusal(eng.cfg, hs', m, now, c) == EarlyRefusal(eng.cfg, hs, m, now, c);
  }

  lemma QuoteMirrored(cfg: ManagerConfig, a: Account, d: Decision, d': Decision, hs: HubState, hs': HubState, m: Market)
    requires Mirrored(hs, hs', m) && m.slug in hs.markets && hs.markets[m.slug] == m
    requires d.market == d'.market == m.slug && d.shouldTrade == d'.shouldTrade
    requires d'.dir == FlipDir(d.dir) && (d.shouldTrade ==> d'.modelProb == 1.0 - d.modelProb)
    ensures var o, o' := Quote(cfg, a, d, hs), Quote(cfg, a, d', hs');
      && (o.Some? <==> o'.Some?)
      && (o.Some? ==>
            o'.value == o.value.(dir := FlipDir(d.dir), token := if d.dir == BuyUp then m.downToken else m.upToken))
  {
    assert BookOf(hs', m.upToken) == BookOf(hs, m.downToken) && BookOf(hs', m.downToken) == BookOf(hs, m.upToken);
  }

  /** And the mirrored order buys the other token at the same price, in the same size, for the same cost. */
  lemma OrderMirrored(eng: Engine, hs: HubState, hs': HubState, m: Market, now: Time, c: Curves, cfg: ManagerConfig,
                      a: Account)
    requires Symmetric(eng) && Mirrored(hs, hs', m) && Lawful(c) && eng.cfg.minEdge > 0.0
    requires m.slug in hs.markets && hs.markets[m.slug] == m
    ensures var d := eng.Decide(hs, Some(m), now, c);
      var o, o' := Quote(cfg, a, d, hs), Quote(cfg, a, eng.Decide(hs', Some(m), now, c), hs');
      && (o.Some? <==> o'.Some?)
      && (o.Some? ==>
            o'.value == o.value.(dir := FlipDir(d.dir), token := if d.dir == BuyUp then m.downToken else m.upToken))
  {
    DecisionMirrored(eng, hs, hs', m, now, c);
    var d, d' := eng.Decide(hs, Some(m), now, c), eng.Decide(hs', Some(m), now, c);
    NamedAfterMarket(eng, hs, m, now, c);
    QuoteMirrored(cfg, a, d, d', hs, hs', m);
  }

  lemma NamedAfterMarket(eng: Engine, hs: HubState, m: Market, now: Time, c: Curves)
    requires eng.edge.Edge? && eng.cfg.minEdge > 0.0
    ensures var d := eng.Decide(hs, Some(m), now, c);
      d.market == m.slug && (d.shouldTrade ==> d.dir != Hold && eng.edge.ModelProbability(hs, c).Some?)
  {
    AssembleNames(eng, m, now, EarlyRefusal(eng.cfg, hs, m, now, c), Volatility(eng.cfg, hs, c),
      eng.Scores(|eng.signals|, hs, m, now, c), eng.edge.ModelProbability(hs, c), hs.Mid(m.upToken));
  }

  lemma AssembleNames(eng: Engine, m: Market, now: Time, refusal: Option<string>, vol: Option<real>, scores: seq<Score>,
                      model: Option<real>, mid: Option<real>)
    requires eng.edge.Edge? && |scores| == |eng.signals| && eng.cfg.minEdge > 0.0
    ensures var d := eng.Assemble(m, now, refusal, vol, scores, model, mid);
      d.market == m.slug && (d.shouldTrade ==> d.dir != Hold && model.Some?)
  {
  }
}
