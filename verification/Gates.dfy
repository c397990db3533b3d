/** On every run, what is bought passed the gates when it was decided on, and the table and its averages show it. */
module Gates {
  import opened Prelude
  import opened Hub
  import opened Signal
  import opened Risk
  import opened Sizing
  import opened SignalLaws
  import opened Store
  import opened RiskManager
  import opened Bot
  import opened BotLaws
  import opened Filing
  import opened Readback
  import Stats

  // ---- decisions ----

  /** A score and an edge that may be traded on; both ends of the band are let through. */
  predicate ScoresPass(cfg: EngineConfig, confidence: real, edge: real) {
    cfg.minConfidence <= confidence && cfg.minEdge <= edge && (cfg.maxEdge > 0.0 ==> edge <= cfg.maxEdge)
  }

  /** A decision taken within the window of its market, not too far from its end, at an hour that is traded. */
  ghost predicate Passed(cfg: EngineConfig, hs: HubState, dec: Decision, now: Time) {
    && dec.market in hs.markets && dec.evaluatedAt <= now && HourUTC(dec.evaluatedAt) !in cfg.skipHours
    && hs.markets[dec.market].startTime <= dec.evaluatedAt < hs.markets[dec.market].endTime
    && cfg.minExpiry <= hs.markets[dec.market].endTime - dec.evaluatedAt <= cfg.maxExpiry
    && ScoresPass(cfg, dec.confidence, dec.edge)
  }

  lemma AssembledPasses(eng: Engine, m: Market, now: Time, refusal: Option<string>, vol: Option<real>,
                        scores: seq<Score>, model: Option<real>, mid: Option<real>)
    requires |scores| == |eng.signals| && eng.Assemble(m, now, refusal, vol, scores, model, mid).shouldTrade
    ensures var d := eng.Assemble(m, now, refusal, vol, scores, model, mid);
      refusal.None? && d.market == m.slug && d.evaluatedAt == now && ScoresPass(eng.cfg, d.confidence, d.edge)
  {
  }

  lemma DecisionPasses(env: Env, hs: HubState, current: Option<Market>, at: Time)
    requires env.eng.edge.Edge? && hs.MayBeCurrent(current, at)
    requires env.eng.Decide(hs, current, at, env.curves).shouldTrade
    ensures Passed(env.eng.cfg, hs, env.eng.Decide(hs, current, at, env.curves), at)
  {
    var m := current.value;
    AssembledPasses(env.eng, m, at, EarlyRefusal(env.eng.cfg, hs, m, at, env.curves),
      Volatility(env.eng.cfg, hs, env.curves), env.eng.Scores(|env.eng.signals|, hs, m, at, env.curves),
      env.eng.edge.ModelProbability(hs, env.curves), hs.Mid(m.upToken));
    NoRefusalIffDataGatesOpen(env.eng.cfg, hs, m, at, env.curves);
  }

  // ---- the table ----

  /** A row of something worth buying, on a decision that passed, no earlier than its market's window. */
  predicate RowPassed(env: Env, hs: HubState, r: Row) {
    && ScoresPass(env.eng.cfg, r.confidence, r.edge) && WorthBuying(env.cfg, r.modelProb, r.entryPrice)
    && r.slug in hs.markets && hs.markets[r.slug].startTime <= r.openedAt
  }

  /** The signal loop trades only on decisions that passed, and each row added carries one. */
  ghost predicate Gated(env: Env, b: State) {
    && (match b.phase
        case Decided(dec) => Passed(env.eng.cfg, b.hub, dec, b.now)
        case Ordered(dec, o) =>
          Passed(env.eng.cfg, b.hub, dec, b.now) && o.market == dec.market && WorthBuying(env.cfg, o.modelProb, o.price)
        case Recorded(dec, o) =>
          Passed(env.eng.cfg, b.hub, dec, b.now) && o.market == dec.market && WorthBuying(env.cfg, o.modelProb, o.price)
        case _ => true)
    && |b.found| <= |b.rows| && forall i | |b.found| <= i < |b.rows| :: RowPassed(env, b.hub, b.rows[i])
  }

  lemma GatedBackground(env: Env, b: State, e: Event)
    requires env.eng.edge.Edge? && Once(b) && Gated(env, b) && Background(e.action)
    ensures Gated(env, Step(env, b, e))
  {
    StepExtendsHub(env, b, e);
    BackgroundKeepsBooks(env, b, e);
  }

  lemma GatedVisit(env: Env, b: State, e: Event)
    requires env.eng.edge.Edge? && Gated(env, b) && e.action.Visit? && Enabled(b, e)
    ensures Gated(env, Step(env, b, e))
  {
    var slug := e.action.slug;
    if slug in b.acct.positions && b.hub.IsResolved(slug) {
      var call := CallFor(b.acct, env.cfg, StampFor(b.hub, slug, e.at));
      forall i | |b.found| <= i < |b.rows|
        ensures RowPassed(env, b.hub, SettleRows(b.rows, call, e.at)[i])
      {
        UpdateRow(b.rows, call, e.at, i);
      }
    }
  }

  lemma GatedEvaluate(env: Env, b: State, e: Event)
    requires env.eng.edge.Edge? && Gated(env, b) && e.action.Evaluate? && Enabled(b, e)
    ensures Gated(env, Step(env, b, e))
  {
    var dec := b.phase.dec;
    var (acct, order) := EvaluateOrder(b.acct, env.cfg, dec, b.hub, e.at);
    if order.Some? {
      QuoteWithinLimits(env.cfg, acct, dec, b.hub);
    }
  }

  lemma StepKeepsGated(env: Env, b: State, e: Event)
    requires env.eng.edge.Edge? && Once(b) && Gated(env, b)
    ensures Gated(env, Step(env, b, e)) && Step(env, b, e).found == b.found
  {
    if Enabled(b, e) {
      match e.action
      case Write(_) => GatedBackground(env, b, e);
      case CollectExpired => GatedBackground(env, b, e);
      case AskApi(_, _) => GatedBackground(env, b, e);
      case Visit(_) => GatedVisit(env, b, e);
      case Decide(current) =>
        if env.eng.Decide(b.hub, current, e.at, env.curves).shouldTrade {
          DecisionPasses(env, b.hub, current, e.at);
        }
      case Evaluate => GatedEvaluate(env, b, e);
      case _ =>
    }
  }

  lemma {:induction false} RunsStayGated(env: Env, b: State, events: seq<Event>)
    requires env.eng.edge.Edge? && Once(b) && Gated(env, b)
    ensures Gated(env, Run(env, b, events)) && Run(env, b, events).found == b.found
  {
    if events != [] {
      RunsStayGated(env, b, events[..|events| - 1]);
      RunsKeepOnce(env, b, events[..|events| - 1]);
      StepKeepsGated(env, Run(env, b, events[..|events| - 1]), events[|events| - 1]);
    }
  }

  /**
   In every interleaving, while an order is under way its decision lies within its market's window, at the allowed
   distance from its end, and each row added by the run is priced and scored as the gates demand.
   */
  lemma OnlyThePassedIsBought(env: Env, start: Time, bankroll: real, found: seq<Row>, events: seq<Event>)
    requires env.eng.edge.Edge?
    ensures var b := Run(env, Start(env, start, bankroll, found), events);
      && (b.phase.Ordered? ==>
            b.phase.order.market == b.phase.dec.market && Passed(env.eng.cfg, b.hub, b.phase.dec, b.now))
      && |found| <= |b.rows| && forall i | |found| <= i < |b.rows| :: RowPassed(env, b.hub, b.rows[i])
  {
    StartIsOnce(env, start, bankroll, found);
    RunsStayGated(env, Start(env, start, bankroll, found), events);
  }

  // ---- the averages ----

  lemma {:induction false} SettledIsRow(rows: seq<Row>, x: SettledRow)
    requires x in SettledRows(rows)
    ensures exists i | 0 <= i < |rows| :: rows[i] == x
  {
    var n := |rows| - 1;
    if x in SettledRows(rows[..n]) {
      SettledIsRow(rows[..n], x);
      var i :| 0 <= i < n && rows[..n][i] == x;
      assert rows[i] == x;
    } else {
      assert rows[n] == x;
    }
  }

  lemma ListedIsSettled(rows: seq<Row>, since: Time, q: seq<SettledRow>, x: SettledRow)
    requires MayList(rows, since, q) && x in q
    ensures x in SettledRows(rows)
  {
    SinceSelects(SettledRows(rows), since, x);
    assert x in multiset(q);
  }

  /**
   The average edge and confidence reported over any period lie within the gates' bands, if every row the process
   found was scored within them.
   */
  lemma AveragesStayWithinGates(env: Env, start: Time, bankroll: real, found: seq<Row>, events: seq<Event>, b: State,
                                since: Time, q: seq<SettledRow>, s: Stats.Summary)
    requires SaneConfig(env) && b == Run(env, Start(env, start, bankroll, found), events)
    requires forall r | r in found :: ScoresPass(env.eng.cfg, r.confidence, r.edge)
    requires MayList(b.rows, since, q) && q != [] && Stats.Summarises(s, TradesOf(q))
    ensures ScoresPass(env.eng.cfg, s.avgConfidence, s.avgEdge)
  {
    OnlyThePassedIsBought(env, start, bankroll, found, events);
    RunsStayFiled(env, start, bankroll, found, events);
    forall k | 0 <= k < |q|
      ensures ScoresPass(env.eng.cfg, q[k].confidence, q[k].edge)
    {
      ListedIsSettled(b.rows, since, q, q[k]);
      SettledIsRow(b.rows, q[k]);
      var i :| 0 <= i < |b.rows| && b.rows[i] == q[k];
      if i < |found| {
        assert Kept(found[i], b.rows[i]) && found[i] in found;
      }
    }
    AveragesPass(env.eng.cfg, q, s);
  }

  lemma AveragesPass(cfg: EngineConfig, q: seq<SettledRow>, s: Stats.Summary)
    requires q != [] && Stats.Summarises(s, TradesOf(q))
    requires forall k | 0 <= k < |q| :: ScoresPass(cfg, q[k].confidence, q[k].edge)
    ensures ScoresPass(cfg, s.avgConfidence, s.avgEdge)
  {
    Stats.AveragesAtLeast(s, TradesOf(q), cfg.minEdge, cfg.minConfidence);
    if cfg.maxEdge > 0.0 {
      Stats.AverageEdgeAtMost(s, TradesOf(q), cfg.maxEdge);
    }
  }
}
