/** What holds in every state of every run of the bot. */
module BotLaws {
  import opened Prelude
  import opened Hub
  import opened Signal
  import opened Risk
  import opened Sizing
  import opened Ledger
  import opened Store
  import opened RiskManager
  import opened Bot

  // ---- one position, one settlement ----

  predicate SettledIn(a: Account, slug: string) {
    exists i | 0 <= i < |a.settlements| :: a.settlements[i].slug == slug
  }

  /** No list entry repeats. */
  predicate NoRepeats(slugs: seq<string>) {
    forall i, j | 0 <= i < j < |slugs| :: slugs[i] != slugs[j]
  }

  predicate SettledOnce(a: Account) {
    forall i, j | 0 <= i < j < |a.settlements| :: a.settlements[i].slug != a.settlements[j].slug
  }

  /**
   Each slug gets at most one position and at most one settlement. The reason: a settled
   market is resolved for ever, and the engine only ever picks a market that still trades.
   */
  ghost predicate Once(b: State) {
    && b.hub.Keyed()
    && NoRepeats(b.placed) && SettledOnce(b.acct)
    && (forall s :: s in b.placed <==> s in b.acct.positions || SettledIn(b.acct, s))
    && (forall i | 0 <= i < |b.acct.settlements| ::
          b.hub.IsResolved(b.acct.settlements[i].slug) && b.acct.settlements[i].slug !in b.acct.positions)
    && match b.phase
       case Idle => true
       case Settling(todo, due) => due * b.acct.positions.Keys <= todo && forall s | s in due :: b.hub.IsResolved(s)
       case Decided(dec) => !SettledIn(b.acct, dec.market)
       case Ordered(dec, order) => order.market !in b.placed
       case Recorded(dec, order) => order.market in b.acct.positions
  }

  lemma OnceBackground(env: Env, b: State, e: Event)
    requires env.eng.edge.Edge? && Once(b) && Background(e.action)
    ensures Once(Step(env, b, e))
  {
    StepExtendsHub(env, b, e);
    BackgroundKeepsBooks(env, b, e);
  }

  lemma SettlingMarks(a: Account, cfg: ManagerConfig, s: Stamp)
    requires s.slug in a.positions
    ensures forall slug :: SettledIn(SettleOne(a, cfg, s), slug) <==> SettledIn(a, slug) || slug == s.slug
  {
    var a', n := SettleOne(a, cfg, s), |a.settlements|;
    assert a'.settlements[n].slug == s.slug;
    forall slug ensures SettledIn(a', slug) <==> SettledIn(a, slug) || slug == s.slug {
      if SettledIn(a, slug) {
        var i :| 0 <= i < n && a.settlements[i].slug == slug;
        assert a'.settlements[i].slug == slug;
      }
    }
  }

  lemma OnceVisit(env: Env, b: State, e: Event)
    requires env.eng.edge.Edge? && Once(b) && e.action.Visit? && Enabled(b, e)
    ensures Once(Step(env, b, e))
  {
    var slug := e.action.slug;
    if slug in b.acct.positions && b.hub.IsResolved(slug) {
      SettlingMarks(b.acct, env.cfg, StampFor(b.hub, slug, e.at));
      forall i | 0 <= i < |b.acct.settlements|
        ensures b.acct.settlements[i].slug != slug
      {
        assert b.acct.settlements[i].slug !in b.acct.positions;
      }
    }
  }

  /** A market that still trades has never been settled. */
  lemma CurrentIsUnsettled(b: State, m: Market, at: Time)
    requires Once(b) && b.hub.MayBeCurrent(Some(m), at)
    ensures !SettledIn(b.acct, m.slug)
  {
    forall i | 0 <= i < |b.acct.settlements|
      ensures b.acct.settlements[i].slug != m.slug
    {
      assert b.hub.IsResolved(b.acct.settlements[i].slug);
    }
  }

  lemma OnceDecide(env: Env, b: State, e: Event)
    requires env.eng.edge.Edge? && Once(b) && e.action.Decide? && Enabled(b, e)
    ensures Once(Step(env, b, e))
  {
    var current := e.action.current;
    DecisionNamesCurrent(env, b.hub, current, e.at);
    if current.Some? {
      CurrentIsUnsettled(b, current.value, e.at);
    }
  }

  lemma DecisionNamesCurrent(env: Env, hs: HubState, current: Option<Market>, at: Time)
    requires env.eng.edge.Edge?
    ensures var dec := env.eng.Decide(hs, current, at, env.curves);
      dec.shouldTrade ==> current.Some? && dec.market == current.value.slug
  {
    if current.Some? {
      AssembledName(env.eng, current.value, at, EarlyRefusal(env.eng.cfg, hs, current.value, at, env.curves),
        Volatility(env.eng.cfg, hs, env.curves), env.eng.Scores(|env.eng.signals|, hs, current.value, at, env.curves),
        env.eng.edge.ModelProbability(hs, env.curves), hs.Mid(current.value.upToken));
    }
  }

  lemma AssembledName(eng: Engine, m: Market, now: Time, refusal: Option<string>, vol: Option<real>, scores: seq<Score>,
                      model: Option<real>, mid: Option<real>)
    requires |scores| == |eng.signals|
    ensures eng.Assemble(m, now, refusal, vol, scores, model, mid).market == m.slug
  {
  }

  lemma OnceEvaluate(env: Env, b: State, e: Event)
    requires env.eng.edge.Edge? && Once(b) && e.action.Evaluate? && Enabled(b, e)
    ensures Once(Step(env, b, e))
    ensures var b' := Step(env, b, e);
      b'.phase.Ordered? ==> WithinLimits(env.cfg, b'.acct, b'.phase.order)
  {
    var dec := b.phase.dec;
    var (acct, order) := EvaluateOrder(b.acct, env.cfg, dec, b.hub, e.at);
    if order.Some? {
      QuoteWithinLimits(env.cfg, acct, dec, b.hub);
    }
    assert acct.settlements == b.acct.settlements && acct.positions == b.acct.positions;
    assert forall s :: SettledIn(acct, s) <==> SettledIn(b.acct, s);
  }

  lemma OnceRecord(env: Env, b: State, e: Event)
    requires env.eng.edge.Edge? && Once(b) && e.action.Record? && Enabled(b, e)
    ensures Once(Step(env, b, e))
  {
    var b' := Step(env, b, e);
    var slug := b.phase.order.market;
    assert b'.placed == b.placed + [slug];
    assert forall s :: SettledIn(b'.acct, s) <==> SettledIn(b.acct, s);
    forall s ensures s in b'.placed <==> s in b'.acct.positions || SettledIn(b'.acct, s) {
      assert s in b'.placed <==> s in b.placed || s == slug;
    }
    forall i | 0 <= i < |b.acct.settlements|
      ensures b.acct.settlements[i].slug != slug
    {
      assert SettledIn(b.acct, b.acct.settlements[i].slug);
    }
  }

  lemma StepKeepsOnce(env: Env, b: State, e: Event)
    requires env.eng.edge.Edge? && Once(b)
    ensures Once(Step(env, b, e))
  {
    if Enabled(b, e) {
      match e.action
      case Write(_) => OnceBackground(env, b, e);
      case CollectExpired => OnceBackground(env, b, e);
      case AskApi(_, _) => OnceBackground(env, b, e);
      case Tick =>
      case Visit(_) => OnceVisit(env, b, e);
      case Decide(_) => OnceDecide(env, b, e);
      case Evaluate => OnceEvaluate(env, b, e);
      case Record => OnceRecord(env, b, e);
      case Log =>
    }
  }

  lemma {:induction false} RunsKeepOnce(env: Env, b: State, events: seq<Event>)
    requires env.eng.edge.Edge? && Once(b)
    ensures Once(Run(env, b, events))
  {
    if events != [] {
      RunsKeepOnce(env, b, events[..|events| - 1]);
      StepKeepsOnce(env, Run(env, b, events[..|events| - 1]), events[|events| - 1]);
    }
  }

  lemma StartIsOnce(env: Env, start: Time, bankroll: real, found: seq<Row>)
    ensures Once(Start(env, start, bankroll, found))
  {
  }

  /** In every interleaving, no slug is ever bought twice or settled twice, and every purchase is open or settled. */
  lemma NeverTwice(env: Env, start: Time, bankroll: real, found: seq<Row>, events: seq<Event>)
    requires env.eng.edge.Edge?
    ensures var b := Run(env, Start(env, start, bankroll, found), events);
      && NoRepeats(b.placed) && SettledOnce(b.acct)
      && (forall s :: s in b.placed <==> s in b.acct.positions || SettledIn(b.acct, s))
      && (forall s | s in b.acct.positions :: !SettledIn(b.acct, s))
  {
    StartIsOnce(env, start, bankroll, found);
    RunsKeepOnce(env, Start(env, start, bankroll, found), events);
  }

  /** When a pass is over, every position whose market was resolved at its beginning has been settled. */
  lemma PassMissesNothing(env: Env, start: Time, bankroll: real, found: seq<Row>, events: seq<Event>)
    requires env.eng.edge.Edge?
    ensures var b := Run(env, Start(env, start, bankroll, found), events);
      b.phase.Settling? && b.phase.todo == {} ==> b.phase.due !! b.acct.positions.Keys
  {
    StartIsOnce(env, start, bankroll, found);
    RunsKeepOnce(env, Start(env, start, bankroll, found), events);
    PassIsComplete(Run(env, Start(env, start, bankroll, found), events));
  }

  lemma PassIsComplete(b: State)
    requires Once(b)
    ensures b.phase.Settling? && b.phase.todo == {} ==> b.phase.due !! b.acct.positions.Keys
  {
    if b.phase.Settling? && b.phase.todo == {} {
      NothingShared(b.phase.due, b.acct.positions.Keys);
    }
  }

  lemma NothingShared(s: set<string>, t: set<string>)
    requires s * t <= {}
    ensures s !! t
  {
    forall x | x in s
      ensures x !in t
    {
      assert x !in s * t;
    }
  }

  // ---- the ledger, the limits, the breaker and the halts ----

  ghost predicate Limits(env: Env, b: State) {
    && (forall s | s in b.acct.positions ::
          PositionWithin(env.cfg, b.acct.positions[s]) && b.acct.positions[s].slug == s)
    && Exposure(b.acct.positions) <= env.cfg.maxExposure
    && (b.phase.Ordered? ==> WithinLimits(env.cfg, b.acct, b.phase.order))
  }

  lemma LimitsVisit(env: Env, b: State, e: Event)
    requires env.eng.edge.Edge? && Limits(env, b) && env.cfg.minBet >= 0.0 && e.action.Visit? && Enabled(b, e)
    ensures Limits(env, Step(env, b, e))
  {
    if e.action.slug in b.acct.positions {
      ExposureWithout(b.acct.positions, e.action.slug);
    }
  }

  lemma LimitsRecord(env: Env, b: State, e: Event)
    requires env.eng.edge.Edge? && Once(b) && Limits(env, b) && e.action.Record? && Enabled(b, e)
    ensures Limits(env, Step(env, b, e))
  {
    var o := b.phase.order;
    ExposureWith(b.acct.positions, o.market, Open(b.acct, o, e.at).positions[o.market]);
  }

  lemma StepKeepsLimits(env: Env, b: State, e: Event)
    requires env.eng.edge.Edge? && Once(b) && Limits(env, b) && env.cfg.minBet >= 0.0
    ensures Limits(env, Step(env, b, e))
  {
    if Enabled(b, e) {
      match e.action
      case Visit(_) => LimitsVisit(env, b, e);
      case Evaluate => OnceEvaluate(env, b, e);
      case Record => LimitsRecord(env, b, e);
      case _ =>
    }
  }

  /** The account is balanced, with as many purchases as settlements and open positions together. */
  ghost predicate Books(b: State) {
    Balanced(b.acct, b.base, |b.placed|)
  }

  lemma BooksVisit(env: Env, b: State, e: Event)
    requires env.eng.edge.Edge? && Books(b) && e.action.Visit? && Enabled(b, e)
    ensures Books(Step(env, b, e))
  {
    var slug := e.action.slug;
    if slug in b.acct.positions && b.hub.IsResolved(slug) {
      SettleBalances(b.acct, env.cfg, StampFor(b.hub, slug, e.at), b.base, |b.placed|);
    }
  }

  lemma BooksRecord(env: Env, b: State, e: Event)
    requires env.eng.edge.Edge? && Once(b) && Books(b) && e.action.Record? && Enabled(b, e)
    ensures Books(Step(env, b, e))
  {
    OpenBalances(b.acct, b.phase.order, e.at, b.base, |b.placed|);
  }

  lemma StepKeepsBooks(env: Env, b: State, e: Event)
    requires env.eng.edge.Edge? && Once(b) && Books(b)
    ensures Books(Step(env, b, e)) && Step(env, b, e).base == b.base
  {
    if Enabled(b, e) {
      match e.action
      case Visit(_) => BooksVisit(env, b, e);
      case Record => BooksRecord(env, b, e);
      case Evaluate => assert CheckCooldown(b.acct, env.cfg, e.at).settlements == b.acct.settlements;
      case _ =>
    }
  }

  lemma StepKeepsArmed(env: Env, b: State, e: Event)
    requires env.eng.edge.Edge? && BreakerArmed(b.acct, env.cfg) && env.cfg.drawdownLimit > 0.0
    ensures BreakerArmed(Step(env, b, e).acct, env.cfg)
  {
    if Enabled(b, e) {
      match e.action
      case Visit(slug) =>
        if slug in b.acct.positions && b.hub.IsResolved(slug) {
          SettleKeepsArmed(b.acct, env.cfg, StampFor(b.hub, slug, e.at));
        }
      case Evaluate =>
        CooldownKeepsArmed(b.acct, env.cfg, e.at);
      case _ =>
    }
  }

  /** Only an account that may trade has an order under way. */
  predicate Cleared(b: State) {
    b.phase.Ordered? ==> !b.acct.halted
  }

  lemma StepKeepsCleared(env: Env, b: State, e: Event)
    requires env.eng.edge.Edge? && Cleared(b)
    ensures Cleared(Step(env, b, e))
  {
    if Enabled(b, e) && e.action.Evaluate? {
      assert EvaluateOrder(b.acct, env.cfg, b.phase.dec, b.hub, e.at).1.Some? ==>
        !EvaluateOrder(b.acct, env.cfg, b.phase.dec, b.hub, e.at).0.halted;
    }
  }

  /** The halts on record: as many as counted, the last one the current one, and a cooldown apart. */
  ghost predicate HaltsListed(halts: seq<Time>, a: Account, cooldown: Time, now: Time) {
    && |halts| == a.haltCount
    && (halts != [] ==> halts[|halts| - 1] == a.haltedAt)
    && (cooldown > 0 ==>
          && (forall i | 1 <= i < |halts| :: halts[i] - halts[i - 1] >= cooldown)
          && (halts != [] && !a.halted ==> now - a.haltedAt >= cooldown))
  }

  ghost predicate HaltsApart(env: Env, b: State) {
    Paced(b.acct, env.cfg, b.start, b.now) && HaltsListed(b.halts, b.acct, env.cfg.haltCooldown, b.now)
  }

  lemma SettleKeepsHaltsListed(halts: seq<Time>, a: Account, cfg: ManagerConfig, s: Stamp, now: Time)
    requires HaltsListed(halts, a, cfg.haltCooldown, now) && now <= s.at && s.slug in a.positions
    requires cfg.haltCooldown <= 0 && a.haltCount > 0 ==> a.halted
    ensures var a' := SettleOne(a, cfg, s);
      HaltsListed(if a'.haltCount > a.haltCount then halts + [s.at] else halts, a', cfg.haltCooldown, s.at)
  {
    var trips := SettleOne(a, cfg, s).haltCount > a.haltCount;
    assert trips ==> !a.halted;
  }

  lemma HaltsVisit(env: Env, b: State, e: Event)
    requires env.eng.edge.Edge? && HaltsApart(env, b) && e.action.Visit? && Enabled(b, e)
    ensures HaltsApart(env, Step(env, b, e))
  {
    var slug := e.action.slug;
    if slug in b.acct.positions && b.hub.IsResolved(slug) {
      var s := StampFor(b.hub, slug, e.at);
      SettleKeepsPace(b.acct, env.cfg, s, b.start, b.now);
      SettleKeepsHaltsListed(b.halts, b.acct, env.cfg, s, b.now);
    }
  }

  lemma HaltsEvaluate(env: Env, b: State, e: Event)
    requires env.eng.edge.Edge? && HaltsApart(env, b) && e.action.Evaluate? && Enabled(b, e)
    ensures HaltsApart(env, Step(env, b, e))
  {
    CooldownKeepsPace(b.acct, env.cfg, b.start, b.now, e.at);
    assert HaltsListed(b.halts, CheckCooldown(b.acct, env.cfg, e.at), env.cfg.haltCooldown, e.at);
  }

  lemma StepKeepsHaltsApart(env: Env, b: State, e: Event)
    requires env.eng.edge.Edge? && HaltsApart(env, b)
    ensures HaltsApart(env, Step(env, b, e)) && Step(env, b, e).start == b.start
  {
    if Enabled(b, e) {
      match e.action
      case Visit(_) => HaltsVisit(env, b, e);
      case Evaluate => HaltsEvaluate(env, b, e);
      case _ =>
    }
  }

  /** Everything at once. */
  ghost predicate Sound(env: Env, b: State) {
    Once(b) && Limits(env, b) && Books(b) && BreakerArmed(b.acct, env.cfg) && Cleared(b) && HaltsApart(env, b)
  }

  predicate SaneConfig(env: Env) {
    env.eng.edge.Edge? && env.cfg.minBet >= 0.0 && env.cfg.maxExposure >= 0.0 && env.cfg.drawdownLimit > 0.0
  }

  lemma StartIsSound(env: Env, start: Time, bankroll: real, found: seq<Row>)
    requires SaneConfig(env)
    ensures Sound(env, Start(env, start, bankroll, found))
  {
    StartIsOnce(env, start, bankroll, found);
    var b := Start(env, start, bankroll, found);
    assert Costs(b.acct.positions) == map[];
    if bankroll > 0.0 {
      ProductSign(env.cfg.drawdownLimit, bankroll);
    }
  }

  lemma {:induction false} RunsStaySound(env: Env, b: State, events: seq<Event>)
    requires SaneConfig(env) && Sound(env, b)
    ensures Sound(env, Run(env, b, events))
    ensures Run(env, b, events).start == b.start && Run(env, b, events).base == b.base
  {
    if events != [] {
      RunsStaySound(env, b, events[..|events| - 1]);
      var before, e := Run(env, b, events[..|events| - 1]), events[|events| - 1];
      StepKeepsOnce(env, before, e);
      StepKeepsLimits(env, before, e);
      StepKeepsBooks(env, before, e);
      StepKeepsArmed(env, before, e);
      StepKeepsCleared(env, before, e);
      StepKeepsHaltsApart(env, before, e);
    }
  }

  /** Bets of a least size within a limit cannot be many. */
  lemma PositionsAreFew(positions: map<string, Position>, cfg: ManagerConfig)
    requires forall s | s in positions :: cfg.minBet <= positions[s].cost
    ensures Times(|positions|, cfg.minBet) <= Exposure(positions)
  {
    MapSumBounds(Costs(positions), cfg.minBet);
    assert Costs(positions).Keys == positions.Keys;
  }

  /** Exposure never exceeds its limit, every open position is within its limits, and so there are not many of them. */
  lemma ExposureIsBounded(env: Env, start: Time, bankroll: real, found: seq<Row>, events: seq<Event>)
    requires SaneConfig(env)
    ensures var b := Run(env, Start(env, start, bankroll, found), events);
      && Exposure(b.acct.positions) <= env.cfg.maxExposure
      && (forall s | s in b.acct.positions :: PositionWithin(env.cfg, b.acct.positions[s]))
      && Times(|b.acct.positions|, env.cfg.minBet) <= env.cfg.maxExposure
  {
    StartIsSound(env, start, bankroll, found);
    RunsStaySound(env, Start(env, start, bankroll, found), events);
    PositionsAreFew(Run(env, Start(env, start, bankroll, found), events).acct.positions, env.cfg);
  }

  /**
   Bankroll, profit and counters agree with the settlements, every purchase is accounted for, and whatever is open
   will be settled at its payout less its cost.
   */
  lemma LedgerIsConserved(env: Env, start: Time, bankroll: real, found: seq<Row>, events: seq<Event>)
    requires SaneConfig(env)
    ensures var b := Run(env, Start(env, start, bankroll, found), events); var a := b.acct;
      && a.bankroll == bankroll + PnlSum(a.settlements) && a.totalPnL == PnlSum(a.settlements)
      && a.wins == WonCount(a.settlements) && a.wins + a.losses == |a.settlements|
      && |b.placed| == |a.positions| + |a.settlements|
      && forall s, won | s in a.positions ::
           Pnl(a.positions[s], won) == Payout(a.positions[s], won) - a.positions[s].cost
  {
    StartIsSound(env, start, bankroll, found);
    RunsStaySound(env, Start(env, start, bankroll, found), events);
    var a := Run(env, Start(env, start, bankroll, found), events).acct;
    forall s, won | s in a.positions
      ensures Pnl(a.positions[s], won) == Payout(a.positions[s], won) - a.positions[s].cost
    {
      PnlIsPayoutLessCost(a.positions[s], won);
    }
  }

  /**
   In every state of every run the peak covers the bankroll, and the breaker's promise holds exactly when the
   account is halted or its peak is positive.
   */
  lemma BreakerHoldsThroughout(env: Env, start: Time, bankroll: real, found: seq<Row>, events: seq<Event>)
    requires SaneConfig(env)
    ensures var a := Run(env, Start(env, start, bankroll, found), events).acct;
      a.bankroll <= a.peak && (BreakerHolds(a, env.cfg) <==> a.halted || a.peak > 0.0)
  {
    StartIsSound(env, start, bankroll, found);
    RunsStaySound(env, Start(env, start, bankroll, found), events);
    ArmedHoldsIff(Run(env, Start(env, start, bankroll, found), events).acct, env.cfg);
  }

  /** So no order is ever under way outside the drawdown limit, whatever happened before. */
  lemma OrdersStayWithinDrawdown(env: Env, start: Time, bankroll: real, found: seq<Row>, events: seq<Event>)
    requires SaneConfig(env) && env.cfg.minBet > 0.0 && env.cfg.fractionalKelly >= 0.0
    ensures var b := Run(env, Start(env, start, bankroll, found), events);
      b.phase.Ordered? ==>
        && !b.acct.halted && b.acct.peak > 0.0
        && b.acct.peak - b.acct.bankroll < Scaled(env.cfg.drawdownLimit, b.acct.peak)
  {
    StartIsSound(env, start, bankroll, found);
    RunsStaySound(env, Start(env, start, bankroll, found), events);
    var b := Run(env, Start(env, start, bankroll, found), events);
    if b.phase.Ordered? {
      StakeNeedsBankroll(b.phase.order.kellyFrac, env.cfg.fractionalKelly, b.acct.bankroll);
    }
  }

  lemma StakeNeedsBankroll(kelly: real, fraction: real, bankroll: real)
    requires kelly >= 0.0 && fraction >= 0.0 && Stake(kelly, fraction, bankroll) > 0.0
    ensures bankroll > 0.0
  {
    ProductSign(kelly, fraction);
    ProductSign(kelly * fraction, bankroll);
  }

  /** From a halt until the cooldown is over no order is under way; without a cooldown there is none after a halt. */
  lemma NoOrderBeforeCooldown(env: Env, start: Time, bankroll: real, found: seq<Row>, events: seq<Event>)
    requires SaneConfig(env)
    ensures var b := Run(env, Start(env, start, bankroll, found), events);
      b.phase.Ordered? ==>
        && (env.cfg.haltCooldown > 0 ==> forall h | h in b.halts :: b.now - h >= env.cfg.haltCooldown)
        && (env.cfg.haltCooldown <= 0 ==> b.halts == [])
  {
    StartIsSound(env, start, bankroll, found);
    RunsStaySound(env, Start(env, start, bankroll, found), events);
    var b := Run(env, Start(env, start, bankroll, found), events);
    if b.phase.Ordered? && env.cfg.haltCooldown > 0 {
      HaltsLieBack(b.halts, b.acct, env.cfg.haltCooldown, b.now);
    }
  }

  /** A sizing ends a halt, and restarts the peak, exactly when the cooldown since the last trip is over. */
  lemma HaltLastsForCooldown(env: Env, start: Time, bankroll: real, found: seq<Row>, events: seq<Event>, e: Event)
    requires SaneConfig(env)
    ensures var b := Run(env, Start(env, start, bankroll, found), events); var b' := Step(env, b, e);
      Enabled(b, e) && e.action.Evaluate? && b.acct.halted ==>
        && b.halts != []
        && (b'.acct.halted <==>
            env.cfg.haltCooldown <= 0 || e.at < b.halts[|b.halts| - 1] + env.cfg.haltCooldown)
        && (!b'.acct.halted ==> b'.acct.peak == b.acct.bankroll)
        && (b'.acct.halted ==> b'.acct == b.acct && b'.phase.Idle?)
  {
    StartIsSound(env, start, bankroll, found);
    RunsStaySound(env, Start(env, start, bankroll, found), events);
  }

  lemma HaltsLieBack(halts: seq<Time>, a: Account, cooldown: Time, now: Time)
    requires HaltsListed(halts, a, cooldown, now) && !a.halted && cooldown > 0
    ensures forall h | h in halts :: now - h >= cooldown
  {
    forall h | h in halts
      ensures now - h >= cooldown
    {
      var i :| 0 <= i < |halts| && halts[i] == h;
      HaltsAscend(halts, cooldown, i);
    }
  }

  lemma {:induction false} HaltsAscend(halts: seq<Time>, cooldown: Time, i: nat)
    requires i < |halts| && cooldown > 0
    requires forall k | 1 <= k < |halts| :: halts[k] - halts[k - 1] >= cooldown
    ensures halts[i] <= halts[|halts| - 1]
    decreases |halts| - i
  {
    if i < |halts| - 1 {
      HaltsAscend(halts, cooldown, i + 1);
    }
  }

  /** Over any run the breaker trips at most once per cooldown, plus once; without a cooldown at most once ever. */
  lemma HaltsAreRare(env: Env, start: Time, bankroll: real, found: seq<Row>, events: seq<Event>)
    requires SaneConfig(env)
    ensures var b := Run(env, Start(env, start, bankroll, found), events);
      && |b.halts| == b.acct.haltCount
      && (env.cfg.haltCooldown > 0 ==>
            && b.acct.haltCount <= 1 + (b.now - start) / env.cfg.haltCooldown
            && forall i | 1 <= i < |b.halts| :: b.halts[i] - b.halts[i - 1] >= env.cfg.haltCooldown)
      && (env.cfg.haltCooldown <= 0 ==> b.acct.haltCount <= 1)
  {
    StartIsSound(env, start, bankroll, found);
    RunsStaySound(env, Start(env, start, bankroll, found), events);
    var b := Run(env, Start(env, start, bankroll, found), events);
    HaltsAreSpaced(b.acct, env.cfg, start, b.now);
  }
}
