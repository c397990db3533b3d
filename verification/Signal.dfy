/** The signal engine: three scores, a gated weighted average, and a decision. */
module Signal {
  import opened Prelude
  import opened PriceBuf
  import opened Hub

  datatype Direction = Hold | BuyUp | BuyDown

  datatype Score = Score(name: string, value: real)

  datatype Decision = Decision(market: string, dir: Direction, confidence: real, edge: real, modelProb: real,
                               volatilityCV: real, signals: seq<Score>, shouldTrade: bool, reason: string,
                               evaluatedAt: Time)

  function Clamp(v: real, lo: real, hi: real): real {
    if v < lo then lo else if v > hi then hi else v
  }

  /** The library curves the signals use. */
  datatype Curves = Curves(tanh: real -> real, sigmoid: real -> real, sqrt: real -> real)

  /** What the proofs need to know of tanh and the logistic function; nothing is needed of the square root. */
  ghost predicate Lawful(c: Curves) {
    && (forall x, y | x < y :: c.tanh(x) < c.tanh(y))
    && (forall x, y | x < y :: c.sigmoid(x) < c.sigmoid(y))
    && (forall x :: -1.0 < c.tanh(x) < 1.0 && c.tanh(-x) == -c.tanh(x))
    && (forall x :: 0.0 < c.sigmoid(x) < 1.0 && c.sigmoid(-x) == 1.0 - c.sigmoid(x))
  }

  datatype Evaluator =
    | Momentum(window: int, sensitivity: real)
    | Edge(slopeWindow: int, edgeSensitivity: real, maxModelProb: real)
    | TradeFlow(flowWindow: Time)
  {
    function Name(): string {
      match this
      case Momentum(_, _) => "momentum"
      case Edge(_, _, _) => "edge"
      case TradeFlow(_) => "tradeflow"
    }

    /** The model's probability that Up wins; None without a slope. */
    function ModelProbability(hs: HubState, c: Curves): Option<real>
      requires Edge?
    {
      match SlopeOver(hs.prices, slopeWindow)
      case None => None
      case Some(slope) => Some(Clamp(c.sigmoid(Scaled(slope, edgeSensitivity)), 1.0 - maxModelProb, maxModelProb))
    }

    function Value(hs: HubState, m: Market, now: Time, c: Curves): real {
      match this
      case Momentum(window, sensitivity) =>
        (match SlopeOver(hs.prices, window)
         case None => 0.0
         case Some(slope) => Clamp(c.tanh(Scaled(slope, sensitivity)), -1.0, 1.0))
      case Edge(_, _, _) =>
        (match ModelProbability(hs, c)
         case None => 0.0
         case Some(p) =>
           match hs.Mid(m.upToken)
           case None => 0.0
           case Some(mid) => Clamp(p - mid, -1.0, 1.0))
      case TradeFlow(window) =>
        FlowValue(TotalVolume(hs, m.upToken, now, window), TotalVolume(hs, m.downToken, now, window))
    }

    /** The score as computed from the hub's queries. */
    method Evaluate(h: Hub, m: Market, now: Time, c: Curves) returns (score: Score)
      requires h.Valid()
      ensures score == Score(Name(), Value(h.State(), m, now, c))
    {
      var value: real;
      match this {
        case Momentum(_, _) => value := MomentumValue(h, m, now, c);
        case Edge(_, _, _) => value := EdgeValue(h, m, now, c);
        case TradeFlow(_) => value := TradeFlowValue(h, m, now, c);
      }
      return Score(Name(), value);
    }

    method MomentumValue(h: Hub, m: Market, now: Time, c: Curves) returns (value: real)
      requires h.Valid() && Momentum?
      ensures value == Value(h.State(), m, now, c)
    {
      var slope, ok := h.BTCPriceSlope(window);
      if !ok {
        return 0.0;
      }
      return Clamp(c.tanh(Scaled(slope, sensitivity)), -1.0, 1.0);
    }

    method EdgeValue(h: Hub, m: Market, now: Time, c: Curves) returns (value: real)
      requires h.Valid() && Edge?
      ensures value == Value(h.State(), m, now, c)
    {
      var modelProb, ok := ModelProb(h, c);
      if !ok {
        return 0.0;
      }
      var marketProb, known := h.ImpliedProbability(m.upToken);
      if !known {
        return 0.0;
      }
      return Clamp(modelProb - marketProb, -1.0, 1.0);
    }

    method ModelProb(h: Hub, c: Curves) returns (p: real, ok: bool)
      requires h.Valid() && Edge?
      ensures ModelProbability(h.State(), c) == if ok then Some(p) else None
    {
      var slope, known := h.BTCPriceSlope(slopeWindow);
      if !known {
        return 0.0, false;
      }
      return Clamp(c.sigmoid(Scaled(slope, edgeSensitivity)), 1.0 - maxModelProb, maxModelProb), true;
    }

    method TradeFlowValue(h: Hub, m: Market, now: Time, c: Curves) returns (value: real)
      requires h.Valid() && TradeFlow?
      ensures value == Value(h.State(), m, now, c)
      ensures Contrarian(value, TotalVolume(h.State(), m.upToken, now, flowWindow),
                         TotalVolume(h.State(), m.downToken, now, flowWindow))
    {
      var upBuy, upSell := h.TradeBuySellVolume(m.upToken, now, flowWindow);
      var downBuy, downSell := h.TradeBuySellVolume(m.downToken, now, flowWindow);
      var upTotal, downTotal := upBuy + upSell, downBuy + downSell;
      assert upTotal == TotalVolume(h.State(), m.upToken, now, flowWindow);
      assert downTotal == TotalVolume(h.State(), m.downToken, now, flowWindow);
      FlowIsContrarian(upTotal, downTotal);
      return FlowValue(upTotal, downTotal);
    }
  }

  lemma OnlyMomentumIsNamed(e: Evaluator)
    ensures e.Name() == "momentum" <==> e.Momentum?
  {
    assert |"momentum"| == 8 && |"edge"| == 4 && |"tradeflow"| == 9;
  }

  function TotalVolume(hs: HubState, token: string, now: Time, window: Time): real {
    hs.Volume(token, "buy", now, window) + hs.Volume(token, "sell", now, window)
  }

  /** Contrarian: more volume on Down is bullish. */
  function FlowValue(up: real, down: real): real {
    if up + down == 0.0 then 0.0 else Clamp(-((Over(up, up + down) - 0.5) * 2.0), -1.0, 1.0)
  }

  /** The score is the surplus of Down over Up as a share of the volume. */
  predicate Contrarian(score: real, up: real, down: real) {
    up >= 0.0 && down >= 0.0 && up + down > 0.0 ==> Scaled(score, up + down) == down - up
  }

  lemma FlowIsContrarian(up: real, down: real)
    ensures Contrarian(FlowValue(up, down), up, down)
  {
    if up >= 0.0 && down >= 0.0 && up + down > 0.0 {
      FlowIsSurplus(up, down);
    }
  }

  /** So it is positive exactly when Down traded more, and an extreme exactly when only one of the two traded. */
  lemma FlowIsSurplus(up: real, down: real)
    requires up >= 0.0 && down >= 0.0 && up + down > 0.0
    ensures var score := FlowValue(up, down);
      && score * (up + down) == down - up && -1.0 <= score <= 1.0
      && (score > 0.0 <==> down > up) && (score < 0.0 <==> up > down)
      && (score == -1.0 <==> down == 0.0) && (score == 1.0 <==> up == 0.0)
  {
    var total := up + down;
    var share := Over(up, total);
    var score := 1.0 - 2.0 * share;
    OverTimes(up, total);
    assert score * total == total - 2.0 * (share * total);
    ProductSign(total, score);
    ProductSign(total, score - 1.0);
    ProductSign(total, score + 1.0);
    ProductSign(total, -1.0 - score);
    assert total * (score - 1.0) == score * total - total && total * (score + 1.0) == score * total + total;
  }

  datatype EngineConfig = EngineConfig(minDataPoints: int, maxExpiry: Time, minExpiry: Time, minConfidence: real,
                                       minEdge: real, maxEdge: real, maxVolatility: real, volWindow: int,
                                       skipHours: set<int>, maxMomentum: real)

  const DEFAULT_CONFIG := EngineConfig(30, 270 * SECOND, 30 * SECOND, 0.20, 0.05, 0.10, 0.003, 60,
                                       {3, 4, 5, 6, 15, 16, 17, 18, 19, 20, 21}, 0.50)

  const DEFAULT_EDGE := Edge(60, 1.0, 0.80)

  datatype WeightedEval = WeightedEval(eval: Evaluator, weight: real)

  function HourUTC(now: Time): int {
    now / (3600 * SECOND) % 24
  }

  /** Volatility relative to the price; None when there is no deviation or no positive price. */
  function Volatility(cfg: EngineConfig, hs: HubState, c: Curves): Option<real> {
    var v := VarianceOver(hs.prices, cfg.volWindow);
    if v.Some? && hs.prices != [] && hs.prices[|hs.prices| - 1].price > 0.0
    then Some(Over(c.sqrt(v.value), hs.prices[|hs.prices| - 1].price)) else None
  }

  /** The first gate that refuses before any signal is computed. */
  function EarlyRefusal(cfg: EngineConfig, hs: HubState, m: Market, now: Time, c: Curves): Option<string> {
    var expiry := TimeLeft(m.endTime, now);
    if expiry > cfg.maxExpiry then Some("too early in window")
    else if expiry < cfg.minExpiry then Some("too close to expiry")
    else if hs.prices == [] then Some("no BTC price data")
    else if |hs.prices| < cfg.minDataPoints then Some("insufficient price data")
    else if HourUTC(now) in cfg.skipHours then Some("skip hour (negative P&L history)")
    else if Volatility(cfg, hs, c).Some? && Volatility(cfg, hs, c).value > cfg.maxVolatility
    then Some("volatility too high")
    else None
  }

  /** Whether the volatility had been computed by the time of this refusal. */
  predicate VolatilityKnown(refusal: Option<string>) {
    refusal.None? || refusal.value == "volatility too high"
  }

  function Blank(now: Time): Decision {
    Decision("", Hold, 0.0, 0.0, 0.0, 0.0, [], false, "", now)
  }

  /** The decision so far once the market is known and the early gates have been tried. */
  function Named(m: Market, now: Time, refusal: Option<string>, vol: Option<real>): Decision {
    Blank(now).(market := m.slug, volatilityCV := if VolatilityKnown(refusal) && vol.Some? then vol.value else 0.0)
  }

  datatype Engine = Engine(signals: seq<WeightedEval>, edge: Evaluator, cfg: EngineConfig)
  {
    /** The i-th score, with momentum capped. */
    function ScoreAt(i: nat, hs: HubState, m: Market, now: Time, c: Curves): Score
      requires i < |signals|
    {
      var e := signals[i].eval;
      var v := e.Value(hs, m, now, c);
      Score(e.Name(), if e.Momentum? && cfg.maxMomentum > 0.0 then Clamp(v, -cfg.maxMomentum, cfg.maxMomentum) else v)
    }

    function Scores(k: nat, hs: HubState, m: Market, now: Time, c: Curves): (scores: seq<Score>)
      requires k <= |signals|
      ensures |scores| == k
    {
      if k == 0 then [] else Scores(k - 1, hs, m, now, c) + [ScoreAt(k - 1, hs, m, now, c)]
    }

    /** The scores times the weights of their signals. */
    function WeightedSum(scores: seq<Score>): real
      requires |scores| <= |signals|
    {
      if scores == [] then 0.0
      else WeightedSum(scores[..|scores| - 1]) + Scaled(scores[|scores| - 1].value, signals[|scores| - 1].weight)
    }

    function TotalWeight(k: nat): real
      requires k <= |signals|
    {
      if k == 0 then 0.0 else TotalWeight(k - 1) + signals[k - 1].weight
    }

    /** The decision taken from one reading of the hub, for the market reported as current. */
    function Decide(hs: HubState, current: Option<Market>, now: Time, c: Curves): Decision
      requires edge.Edge?
    {
      match current
      case None => Blank(now).(reason := "no active market")
      case Some(m) =>
        Assemble(m, now, EarlyRefusal(cfg, hs, m, now, c), Volatility(cfg, hs, c), Scores(|signals|, hs, m, now, c),
                 edge.ModelProbability(hs, c), hs.Mid(m.upToken))
    }

    /** How the readings make the decision. */
    function Assemble(m: Market, now: Time, refusal: Option<string>, vol: Option<real>, scores: seq<Score>,
                      model: Option<real>, mid: Option<real>): Decision
      requires |scores| == |signals|
    {
      var named := Named(m, now, refusal, vol);
      if refusal.Some? then named.(reason := refusal.value)
      else
        var scored := named.(signals := scores);
        if TotalWeight(|signals|) == 0.0 then scored.(reason := "no signal weights")
        else Conclude(scored, Over(WeightedSum(scores), TotalWeight(|signals|)), model, mid)
    }

    /** The direction and the final gates, from the composite score. */
    function Conclude(scored: Decision, composite: real, model: Option<real>, mid: Option<real>): Decision {
      if composite == 0.0 then scored.(confidence := 0.0, reason := "signals cancel out")
      else
        var edgeSize := if model.Some? && mid.Some? then Abs(model.value - mid.value) else 0.0;
        var directed := scored.(confidence := Abs(composite), dir := if composite > 0.0 then BuyUp else BuyDown,
                                modelProb := if model.Some? then model.value else 0.0, edge := edgeSize);
        directed.(shouldTrade := Confirmed(directed.confidence, edgeSize),
                  reason := Verdict(directed.confidence, edgeSize))
    }

    predicate Confirmed(confidence: real, edgeSize: real) {
      cfg.minConfidence <= confidence && cfg.minEdge <= edgeSize && (cfg.maxEdge > 0.0 ==> edgeSize <= cfg.maxEdge)
    }

    function Verdict(confidence: real, edgeSize: real): string {
      if confidence < cfg.minConfidence then "confidence below threshold"
      else if edgeSize < cfg.minEdge then "edge below threshold"
      else if cfg.maxEdge > 0.0 && edgeSize > cfg.maxEdge then "edge too high (overconfident)"
      else "signal confirmed"
    }

    /** Evaluates the current market. The hub is read at one moment; `chosen` says which live market was taken. */
    method Evaluate(h: Hub, now: Time, c: Curves) returns (dec: Decision, ghost chosen: Option<Market>)
      requires h.Valid() && edge.Edge?
      ensures h.State().MayBeCurrent(chosen, now) && dec == Decide(h.State(), chosen, now, c)
      ensures exists m: Option<Market> :: h.State().MayBeCurrent(m, now) && dec == Decide(h.State(), m, now, c)
    {
      dec := Blank(now);
      var ms := h.CurrentMarket(now);
      if ms == null {
        chosen := None;
        dec := dec.(reason := "no active market");
        return;
      }
      var m := ms.View();
      chosen := Some(m);
      dec := dec.(market := m.slug);
      var refusal, vol := EarlyGates(h, m, now, c);
      dec := dec.(volatilityCV := vol);
      if refusal.Some? {
        dec := dec.(reason := refusal.value);
        return;
      }
      var scores, weightedSum, totalWeight := ScoreSignals(h, m, now, c);
      dec := dec.(signals := scores);
      if totalWeight == 0.0 {
        dec := dec.(reason := "no signal weights");
        return;
      }
      dec := Gate(h, m, c, dec, Over(weightedSum, totalWeight));
    }

    /** Evaluate's gates on time, data and volatility, in order. */
    method EarlyGates(h: Hub, m: Market, now: Time, c: Curves) returns (refusal: Option<string>, vol: real)
      requires h.Valid()
      ensures refusal == EarlyRefusal(cfg, h.State(), m, now, c)
      ensures var v := Volatility(cfg, h.State(), c);
        vol == if VolatilityKnown(refusal) && v.Some? then v.value else 0.0
    {
      var expiry := TimeLeft(m.endTime, now);
      if expiry > cfg.maxExpiry {
        return Some("too early in window"), 0.0;
      }
      if expiry < cfg.minExpiry {
        return Some("too close to expiry"), 0.0;
      }
      var btcPrice, _, priceOK := h.BTCPrice();
      if !priceOK {
        return Some("no BTC price data"), 0.0;
      }
      var count := h.BTCPriceCount();
      if count < cfg.minDataPoints {
        return Some("insufficient price data"), 0.0;
      }
      if HourUTC(now) in cfg.skipHours {
        return Some("skip hour (negative P&L history)"), 0.0;
      }
      vol := 0.0;
      var stdDev, ok := h.BTCPriceStdDev(cfg.volWindow, c.sqrt);
      if ok && btcPrice > 0.0 {
        vol := Over(stdDev, btcPrice);
        if vol > cfg.maxVolatility {
          return Some("volatility too high"), vol;
        }
      }
      return None, vol;
    }

    method CappedScore(i: nat, h: Hub, m: Market, now: Time, c: Curves) returns (score: Score)
      requires h.Valid() && i < |signals|
      ensures score == ScoreAt(i, h.State(), m, now, c)
    {
      score := signals[i].eval.Evaluate(h, m, now, c);
      OnlyMomentumIsNamed(signals[i].eval);
      if score.name == "momentum" && cfg.maxMomentum > 0.0 {
        score := score.(value := Clamp(score.value, -cfg.maxMomentum, cfg.maxMomentum));
      }
    }

    /** Evaluate's loop over the weighted signals. */
    method ScoreSignals(h: Hub, m: Market, now: Time, c: Curves)
      returns (scores: seq<Score>, weightedSum: real, totalWeight: real)
      requires h.Valid()
      ensures scores == Scores(|signals|, h.State(), m, now, c)
      ensures weightedSum == WeightedSum(scores) && totalWeight == TotalWeight(|signals|)
    {
      scores, totalWeight, weightedSum := [], 0.0, 0.0;
      for i := 0 to |signals|
        invariant scores == Scores(i, h.State(), m, now, c)
        invariant weightedSum == WeightedSum(scores) && totalWeight == TotalWeight(i)
      {
        var score := CappedScore(i, h, m, now, c);
        assert (scores + [score])[..i] == scores;
        scores := scores + [score];
        weightedSum := weightedSum + Scaled(score.value, signals[i].weight);
        totalWeight := totalWeight + signals[i].weight;
      }
    }

    /** Evaluate's last part: direction, edge and the final gates, field by field. */
    method Gate(h: Hub, m: Market, c: Curves, scored: Decision, composite: real) returns (dec: Decision)
      requires h.Valid() && edge.Edge?
      requires scored.dir == Hold && scored.edge == 0.0 && scored.modelProb == 0.0 && !scored.shouldTrade
      ensures dec == Conclude(scored, composite, edge.ModelProbability(h.State(), c), h.State().Mid(m.upToken))
    {
      dec := scored.(confidence := Abs(composite));
      if composite > 0.0 {
        dec := dec.(dir := BuyUp);
      } else if composite < 0.0 {
        dec := dec.(dir := BuyDown);
      } else {
        dec := dec.(dir := Hold, reason := "signals cancel out");
        return;
      }
      var modelProb, modelOK := edge.ModelProb(h, c);
      var marketProb, marketOK := h.ImpliedProbability(m.upToken);
      if modelOK {
        dec := dec.(modelProb := modelProb);
      }
      if modelOK && marketOK {
        dec := dec.(edge := Abs(modelProb - marketProb));
      }
      dec := Judge(dec);
    }

    /** Gate's last switch. */
    method Judge(directed: Decision) returns (dec: Decision)
      ensures dec == directed.(shouldTrade := Confirmed(directed.confidence, directed.edge),
                               reason := Verdict(directed.confidence, directed.edge))
    {
      dec := directed;
      if dec.confidence < cfg.minConfidence {
        dec := dec.(shouldTrade := false, reason := "confidence below threshold");
      } else if dec.edge < cfg.minEdge {
        dec := dec.(shouldTrade := false, reason := "edge below threshold");
      } else if cfg.maxEdge > 0.0 && dec.edge > cfg.maxEdge {
        dec := dec.(shouldTrade := false, reason := "edge too high (overconfident)");
      } else {
        dec := dec.(shouldTrade := true, reason := "signal confirmed");
      }
    }
  }

  const DEFAULT_ENGINE := Engine([WeightedEval(Momentum(60, 1.0), 0.60), WeightedEval(DEFAULT_EDGE, 0.30),
                                  WeightedEval(TradeFlow(60 * SECOND), 0.10)], DEFAULT_EDGE, DEFAULT_CONFIG)
}
