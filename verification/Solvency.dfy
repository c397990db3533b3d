/**
 Solvency. The bankroll is not debited when a position is opened, so many open positions together can cost more than
 there is: it survives whatever happens exactly when it exceeds the exposure. Two disciplines, neither enforced by
 the program, keep it positive in every state of every run.
 */
module Solvency {
  import opened Prelude
  import opened Signal
  import opened Risk
  import opened Sizing
  import opened Ledger
  import opened Store
  import opened RiskManager
  import opened Bot
  import opened BotLaws

  // ---- however many positions are open ----

  lemma {:induction false} PayoutsNotNegative(a: Account, cfg: ManagerConfig, stamps: seq<Stamp>)
    requires PassOver(a, stamps) && forall s | s in a.positions :: a.positions[s].size >= 0.0
    ensures Payouts(a, cfg, stamps) >= 0.0
  {
    if stamps != [] {
      PassPrefix(a, cfg, stamps);
      PayoutsNotNegative(a, cfg, stamps[..|stamps| - 1]);
    }
  }

  /** Settling never lowers the worst-case equity. */
  lemma PassKeepsEquity(a: Account, cfg: ManagerConfig, stamps: seq<Stamp>)
    requires PassOver(a, stamps) && WellPriced(a.positions) && forall s | s in a.positions :: a.positions[s].size >= 0.0
    ensures Equity(a) <= Equity(SettleAll(a, cfg, stamps))
  {
    EquityOfPass(a, cfg, stamps);
    PayoutsNotNegative(a, cfg, stamps);
  }

  /**
   A pass in which every open position loses leaves exactly the equity, so solvency in the worst case is Equity > 0.
   */
  lemma TotalLossLeavesEquity(a: Account, cfg: ManagerConfig, stamps: seq<Stamp>)
    requires PassOver(a, stamps) && WellPriced(a.positions) && SlugSet(stamps) == a.positions.Keys
    requires forall s | s in stamps :: !DidWin(a.positions[s.slug].dir, s.outcome)
    ensures SettleAll(a, cfg, stamps).bankroll == Equity(a)
  {
    EquityOfPass(a, cfg, stamps);
    NoPayouts(a, cfg, stamps);
    assert Costs(a.positions - SlugSet(stamps)) == map[];
  }

  lemma {:induction false} NoPayouts(a: Account, cfg: ManagerConfig, stamps: seq<Stamp>)
    requires PassOver(a, stamps) && forall s | s in stamps :: !DidWin(a.positions[s.slug].dir, s.outcome)
    ensures Payouts(a, cfg, stamps) == 0.0
  {
    if stamps != [] {
      PassPrefix(a, cfg, stamps);
      assert stamps[|stamps| - 1] in stamps;
      NoPayouts(a, cfg, stamps[..|stamps| - 1]);
    }
  }

  lemma ExposureNotNegative(positions: map<string, Position>)
    requires forall s | s in positions :: positions[s].cost >= 0.0
    ensures Exposure(positions) >= 0.0
  {
    MapSumBounds(Costs(positions), 0.0);
    TimesIsProduct(|Costs(positions)|, 0.0);
  }

  /** An outcome no side recognises settles every position as lost. */
  lemma {:induction false} AllLose(a: Account, slugs: set<string>) returns (stamps: seq<Stamp>)
    requires slugs <= a.positions.Keys
    ensures PassOver(a, stamps) && SlugSet(stamps) == slugs
    ensures forall s | s in stamps :: s.outcome == ""
    decreases slugs
  {
    if slugs == {} {
      stamps := [];
    } else {
      var slug :| slug in slugs;
      var rest := AllLose(a, slugs - {slug});
      var s := Stamp(slug, "", 0);
      assert slug !in SlugSet(rest);
      forall i | 0 <= i < |rest|
        ensures rest[i].slug != slug
      {
        assert rest[i] in rest;
      }
      stamps := rest + [s];
      assert SlugSet(stamps) == SlugSet(rest) + {slug};
    }
  }

  lemma UnknownOutcomeLoses(dir: Direction)
    ensures !DidWin(dir, "")
  {
    assert |ToLower("")| == 0 && |"up"| == 2 && |"yes"| == 3 && |"down"| == 4 && |"no"| == 2;
  }

  /**
   However many positions are open: the bankroll survives every way of settling some of them, in every order and
   with every outcome, exactly when it exceeds the exposure.
   */
  lemma SolventWhateverHappensIff(a: Account, cfg: ManagerConfig)
    requires WellPriced(a.positions)
    requires forall s | s in a.positions :: a.positions[s].size >= 0.0 && a.positions[s].cost >= 0.0
    ensures (forall stamps | PassOver(a, stamps) :: SettleAll(a, cfg, stamps).bankroll > 0.0)
       <==> a.bankroll > Exposure(a.positions)
  {
    if a.bankroll > Exposure(a.positions) {
      forall stamps | PassOver(a, stamps)
        ensures SettleAll(a, cfg, stamps).bankroll > 0.0
      {
        PassKeepsEquity(a, cfg, stamps);
        ExposureNotNegative(SettleAll(a, cfg, stamps).positions);
      }
    } else {
      var stamps := AllLose(a, a.positions.Keys);
      forall s | s in stamps
        ensures !DidWin(a.positions[s.slug].dir, s.outcome)
      {
        UnknownOutcomeLoses(a.positions[s.slug].dir);
      }
      TotalLossLeavesEquity(a, cfg, stamps);
    }
  }

  // ---- what a settlement leaves ----

  lemma SizeNotNegative(price: real, size: real, cost: real)
    requires price > 0.0 && cost >= 0.0 && cost == Risk.Value(price, size)
    ensures size >= 0.0
  {
    ProductSign(price, size);
  }

  /** A settlement costs at most the price of the position. */
  lemma SettledAtLeast(a: Account, cfg: ManagerConfig, s: Stamp)
    requires s.slug in a.positions && PositionWithin(cfg, a.positions[s.slug]) && cfg.minBet >= 0.0
    ensures Settled(a, s) >= a.bankroll - a.positions[s.slug].cost
  {
    var p := a.positions[s.slug];
    SizeNotNegative(p.price, p.size, p.cost);
    ProductSign(1.0 - p.price, p.size);
  }

  // ---- the exact guard ----

  /** The bankroll exceeds the exposure: whatever is lost, something is left. */
  ghost predicate Covered(a: Account) {
    a.bankroll > Exposure(a.positions)
  }

  ghost predicate CoveredThroughout(env: Env, b: State, events: seq<Event>)
    requires env.eng.edge.Edge?
  {
    Covered(Run(env, b, events).acct) && (events == [] || CoveredThroughout(env, b, events[..|events| - 1]))
  }

  /** A purchase about to be recorded costs less than what no open position stakes. */
  ghost predicate Affordable(b: State, e: Event) {
    Enabled(b, e) && e.action.Record? ==> b.phase.order.cost < b.acct.bankroll - Exposure(b.acct.positions)
  }

  ghost predicate AffordableThroughout(env: Env, b: State, events: seq<Event>)
    requires env.eng.edge.Edge?
  {
    events == [] ||
    (&& AffordableThroughout(env, b, events[..|events| - 1])
     && Affordable(Run(env, b, events[..|events| - 1]), events[|events| - 1]))
  }

  lemma VisitStaysCovered(env: Env, b: State, e: Event)
    requires SaneConfig(env) && Limits(env, b) && Covered(b.acct) && e.action.Visit? && Enabled(b, e)
    ensures Covered(Step(env, b, e).acct)
  {
    var slug := e.action.slug;
    if slug in b.acct.positions && b.hub.IsResolved(slug) {
      SettledAtLeast(b.acct, env.cfg, StampFor(b.hub, slug, e.at));
      ExposureWithout(b.acct.positions, slug);
    }
  }

  lemma RecordStaysCoveredIff(env: Env, b: State, e: Event)
    requires SaneConfig(env) && Once(b) && e.action.Record? && Enabled(b, e)
    ensures Covered(Step(env, b, e).acct) <==> Affordable(b, e)
  {
    EquityOfOpening(b.acct, b.phase.order, e.at);
  }

  lemma StepStaysCoveredIff(env: Env, b: State, e: Event)
    requires SaneConfig(env) && Sound(env, b) && Covered(b.acct)
    ensures Covered(Step(env, b, e).acct) <==> Affordable(b, e)
  {
    if Enabled(b, e) {
      match e.action
      case Visit(_) => VisitStaysCovered(env, b, e);
      case Record => RecordStaysCoveredIff(env, b, e);
      case Evaluate => assert CheckCooldown(b.acct, env.cfg, e.at).bankroll == b.acct.bankroll;
      case _ =>
    }
  }

  /**
   With any number of open positions, the bankroll exceeds the exposure in every state of a run exactly when every
   purchase, as it is recorded, costs less than the difference: a guard the caller could try before opening.
   */
  lemma {:induction false} CoveredIffAffordable(env: Env, start: Time, bankroll: real, found: seq<Row>,
                                                events: seq<Event>)
    requires SaneConfig(env) && bankroll > 0.0
    ensures var b := Start(env, start, bankroll, found);
      CoveredThroughout(env, b, events) <==> AffordableThroughout(env, b, events)
  {
    var b := Start(env, start, bankroll, found);
    if events == [] {
      assert Costs(b.acct.positions) == map[];
    } else {
      var rest := events[..|events| - 1];
      CoveredIffAffordable(env, start, bankroll, found, rest);
      if CoveredThroughout(env, b, rest) {
        StartIsSound(env, start, bankroll, found);
        RunsStaySound(env, b, rest);
        CoveredNow(env, b, rest);
        StepStaysCoveredIff(env, Run(env, b, rest), events[|events| - 1]);
      }
    }
  }

  lemma CoveredNow(env: Env, b: State, events: seq<Event>)
    requires env.eng.edge.Edge? && CoveredThroughout(env, b, events)
    ensures Covered(Run(env, b, events).acct)
  {
  }

  /** Under that guard the bankroll is positive in every state of every run, however many positions are open. */
  lemma AffordableRunsStaySolvent(env: Env, start: Time, bankroll: real, found: seq<Row>, events: seq<Event>)
    requires SaneConfig(env) && bankroll > 0.0
    requires AffordableThroughout(env, Start(env, start, bankroll, found), events)
    ensures Run(env, Start(env, start, bankroll, found), events).acct.bankroll > 0.0
  {
    var b := Start(env, start, bankroll, found);
    CoveredIffAffordable(env, start, bankroll, found, events);
    StartIsSound(env, start, bankroll, found);
    RunsStaySound(env, b, events);
    CoveredNow(env, b, events);
    ExposureNotNegative(Run(env, b, events).acct.positions);
  }

  lemma QuarterStake(kelly: real, fraction: real, bankroll: real)
    requires 0.0 < kelly < 1.0 && fraction <= 0.25 && bankroll > 0.0
    ensures Stake(kelly, fraction, bankroll) <= bankroll / 4.0
  {
    ProductSign(kelly, bankroll);
    var whole := kelly * bankroll;
    assert kelly * fraction * bankroll == fraction * whole;
    ProductSign(whole, 0.25 - fraction);
    ProductSign(bankroll, 1.0 - kelly);
  }

  // ---- nothing open but the latest purchase ----

  predicate IsLatest(placed: seq<string>, slug: string) {
    placed != [] && placed[|placed| - 1] == slug
  }

  /** Whenever an order is under way, nothing is open but the latest purchase. */
  ghost predicate LatestOnly(b: State) {
    b.phase.Ordered? ==> forall s | s in b.acct.positions :: IsLatest(b.placed, s)
  }

  ghost predicate LatestOnlyThroughout(env: Env, b: State, events: seq<Event>)
    requires env.eng.edge.Edge?
  {
    LatestOnly(Run(env, b, events)) && (events == [] || LatestOnlyThroughout(env, b, events[..|events| - 1]))
  }

  /** Besides the latest purchase at most one position is open. */
  predicate OneOlder(a: Account, placed: seq<string>) {
    forall s, t | s in a.positions && t in a.positions && !IsLatest(placed, s) && !IsLatest(placed, t) :: s == t
  }

  /** An older position costs at most half of the bankroll beside the latest, two thirds of it when left behind. */
  ghost predicate OlderShare(a: Account, placed: seq<string>) {
    forall s | s in a.positions && !IsLatest(placed, s) ::
      && 3.0 * a.positions[s].cost <= 2.0 * a.bankroll
      && ((exists t | t in a.positions :: IsLatest(placed, t)) ==> 2.0 * a.positions[s].cost <= a.bankroll)
  }

  /** The latest purchase costs at most half of the bankroll, and a quarter of it beside an older one. */
  ghost predicate LatestShare(a: Account, placed: seq<string>) {
    forall s | s in a.positions && IsLatest(placed, s) ::
      && 2.0 * a.positions[s].cost <= a.bankroll
      && ((exists t | t in a.positions :: !IsLatest(placed, t)) ==> 4.0 * a.positions[s].cost <= a.bankroll)
  }

  ghost predicate Solvent(a: Account, placed: seq<string>) {
    a.bankroll > 0.0 && OneOlder(a, placed) && OlderShare(a, placed) && LatestShare(a, placed)
  }

  lemma SettleStaysSolvent(a: Account, cfg: ManagerConfig, placed: seq<string>, s: Stamp)
    requires Solvent(a, placed) && s.slug in a.positions && cfg.minBet >= 0.0
    requires forall x | x in a.positions :: PositionWithin(cfg, a.positions[x])
    ensures Solvent(SettleOne(a, cfg, s), placed)
  {
    SettledAtLeast(a, cfg, s);
    var after := SettleOne(a, cfg, s);
    assert after.bankroll == Settled(a, s);
    forall x | x in after.positions
      ensures IsLatest(placed, x) != IsLatest(placed, s.slug)
    {
    }
  }

  lemma OpenStaysSolvent(a: Account, cfg: ManagerConfig, placed: seq<string>, o: Order, at: Time)
    requires Solvent(a, placed) && WithinLimits(cfg, a, o) && cfg.fractionalKelly <= 0.25
    requires o.market !in placed && forall s | s in a.positions :: IsLatest(placed, s)
    ensures Solvent(Open(a, o, at), placed + [o.market])
  {
    QuarterStake(o.kellyFrac, cfg.fractionalKelly, a.bankroll);
    assert forall s | s in a.positions :: s != o.market;
    assert forall s :: IsLatest(placed + [o.market], s) <==> s == o.market;
  }

  lemma VisitStaysSolvent(env: Env, b: State, e: Event)
    requires SaneConfig(env) && Limits(env, b) && Solvent(b.acct, b.placed) && e.action.Visit? && Enabled(b, e)
    ensures var b' := Step(env, b, e); Solvent(b'.acct, b'.placed)
  {
    if e.action.slug in b.acct.positions && b.hub.IsResolved(e.action.slug) {
      SettleStaysSolvent(b.acct, env.cfg, b.placed, StampFor(b.hub, e.action.slug, e.at));
    }
  }

  lemma RecordStaysSolvent(env: Env, b: State, e: Event)
    requires SaneConfig(env) && Once(b) && Limits(env, b) && Solvent(b.acct, b.placed) && LatestOnly(b)
    requires e.action.Record? && Enabled(b, e) && env.cfg.fractionalKelly <= 0.25
    ensures var b' := Step(env, b, e); Solvent(b'.acct, b'.placed)
  {
    OpenStaysSolvent(b.acct, env.cfg, b.placed, b.phase.order, e.at);
  }

  lemma StepStaysSolvent(env: Env, b: State, e: Event)
    requires SaneConfig(env) && Sound(env, b) && Solvent(b.acct, b.placed) && LatestOnly(b)
    requires env.cfg.fractionalKelly <= 0.25
    ensures var b' := Step(env, b, e); Solvent(b'.acct, b'.placed)
  {
    if Enabled(b, e) {
      match e.action
      case Visit(_) => VisitStaysSolvent(env, b, e);
      case Evaluate => SameMoney(b.acct, CheckCooldown(b.acct, env.cfg, e.at), b.placed);
      case Record => RecordStaysSolvent(env, b, e);
      case _ =>
    }
  }

  lemma SameMoney(a: Account, a': Account, placed: seq<string>)
    requires Solvent(a, placed) && a'.bankroll == a.bankroll && a'.positions == a.positions
    ensures Solvent(a', placed)
  {
  }

  /**
   Quarter Kelly or less, and never an order while anything but the latest purchase is open: then the bankroll is
   positive in every state of every run, also between the settlements of a pass, whatever order they come in.
   */
  lemma {:induction false} RunsStaySolvent(env: Env, start: Time, bankroll: real, found: seq<Row>, events: seq<Event>)
    requires SaneConfig(env) && bankroll > 0.0 && env.cfg.fractionalKelly <= 0.25
    requires LatestOnlyThroughout(env, Start(env, start, bankroll, found), events)
    ensures var b := Run(env, Start(env, start, bankroll, found), events);
      b.acct.bankroll > 0.0 && Solvent(b.acct, b.placed)
  {
    if events != [] {
      var rest := events[..|events| - 1];
      RunsStaySolvent(env, start, bankroll, found, rest);
      StartIsSound(env, start, bankroll, found);
      RunsStaySound(env, Start(env, start, bankroll, found), rest);
      assert LatestOnlyThroughout(env, Start(env, start, bankroll, found), rest);
      StepStaysSolvent(env, Run(env, Start(env, start, bankroll, found), rest), events[|events| - 1]);
    }
  }

  // ---- one at a time ----

  /** What is left of a start of which n times only the share `keep` is kept. */
  function Floor(start: real, keep: real, n: nat): real {
    start * Pow(keep, n)
  }

  lemma Shrinks(x: real, y: real, product: real)
    requires x >= 0.0 && 0.0 <= y <= 1.0 && product == y * x
    ensures 0.0 <= product <= x && (y < 1.0 && x > 0.0 ==> product < x)
  {
    ProductSign(x, y);
    ProductSign(x, 1.0 - y);
    assert x * (1.0 - y) == x - product;
  }

  lemma FractionStake(kelly: real, fraction: real, bankroll: real)
    requires 0.0 < kelly < 1.0 && 0.0 <= fraction <= 1.0 && bankroll > 0.0
    ensures Stake(kelly, fraction, bankroll) <= Scaled(fraction, bankroll)
    ensures Stake(kelly, fraction, bankroll) < bankroll
  {
    var whole := Scaled(fraction, bankroll);
    Shrinks(bankroll, fraction, whole);
    StakeOfWhole(kelly, fraction, bankroll);
    Shrinks(whole, kelly, Stake(kelly, fraction, bankroll));
  }

  lemma StakeOfWhole(kelly: real, fraction: real, bankroll: real)
    ensures Stake(kelly, fraction, bankroll) == kelly * Scaled(fraction, bankroll)
  {
    assert (kelly * fraction) * bankroll == kelly * (fraction * bankroll);
  }

  lemma FloorStep(start: real, keep: real, n: nat)
    ensures Floor(start, keep, n + 1) == Scaled(keep, Floor(start, keep, n))
  {
    assert start * (keep * Pow(keep, n)) == keep * (start * Pow(keep, n));
  }

  lemma FloorFalls(start: real, fraction: real, n: nat, bankroll: real, cost: real)
    requires 0.0 <= fraction <= 1.0 && Floor(start, 1.0 - fraction, n) <= bankroll && cost <= Scaled(fraction, bankroll)
    ensures Floor(start, 1.0 - fraction, n + 1) <= bankroll - cost
  {
    var keep := 1.0 - fraction;
    FloorStep(start, keep, n);
    ProductSign(keep, bankroll - Floor(start, keep, n));
    assert keep * bankroll == bankroll - fraction * bankroll;
    assert keep * (bankroll - Floor(start, keep, n)) == keep * bankroll - keep * Floor(start, keep, n);
  }

  /** Whenever an order is under way, nothing is open. */
  predicate NoneOpen(b: State) {
    b.phase.Ordered? ==> b.acct.positions == map[]
  }

  ghost predicate NoneOpenThroughout(env: Env, b: State, events: seq<Event>)
    requires env.eng.edge.Edge?
  {
    NoneOpen(Run(env, b, events)) && (events == [] || NoneOpenThroughout(env, b, events[..|events| - 1]))
  }

  /** The bankroll has not fallen below its floor for the settlements made, and the one open cost is covered. */
  ghost predicate AboveFloor(a: Account, cfg: ManagerConfig, start: real) {
    && a.bankroll > 0.0 && Floor(start, 1.0 - cfg.fractionalKelly, |a.settlements|) <= a.bankroll
    && (forall s, t | s in a.positions && t in a.positions :: s == t)
    && (forall s | s in a.positions ::
          a.positions[s].cost < a.bankroll && a.positions[s].cost <= Scaled(cfg.fractionalKelly, a.bankroll))
  }

  lemma SettleStaysAboveFloor(a: Account, cfg: ManagerConfig, start: real, s: Stamp)
    requires AboveFloor(a, cfg, start) && s.slug in a.positions && PositionWithin(cfg, a.positions[s.slug])
    requires 0.0 <= cfg.fractionalKelly <= 1.0 && cfg.minBet >= 0.0
    ensures AboveFloor(SettleOne(a, cfg, s), cfg, start)
  {
    SettledAtLeast(a, cfg, s);
    FloorFalls(start, cfg.fractionalKelly, |a.settlements|, a.bankroll, a.positions[s.slug].cost);
  }

  lemma OpenStaysAboveFloor(a: Account, cfg: ManagerConfig, start: real, o: Order, at: Time)
    requires AboveFloor(a, cfg, start) && WithinLimits(cfg, a, o) && a.positions == map[]
    requires 0.0 <= cfg.fractionalKelly <= 1.0
    ensures AboveFloor(Open(a, o, at), cfg, start)
  {
    FractionStake(o.kellyFrac, cfg.fractionalKelly, a.bankroll);
  }

  lemma VisitStaysAboveFloor(env: Env, b: State, e: Event)
    requires SaneConfig(env) && Limits(env, b) && AboveFloor(b.acct, env.cfg, b.base) && e.action.Visit?
    requires Enabled(b, e)
    requires 0.0 <= env.cfg.fractionalKelly <= 1.0
    ensures var b' := Step(env, b, e); AboveFloor(b'.acct, env.cfg, b'.base)
  {
    if e.action.slug in b.acct.positions && b.hub.IsResolved(e.action.slug) {
      SettleStaysAboveFloor(b.acct, env.cfg, b.base, StampFor(b.hub, e.action.slug, e.at));
    }
  }

  lemma StepStaysAboveFloor(env: Env, b: State, e: Event)
    requires SaneConfig(env) && Sound(env, b) && AboveFloor(b.acct, env.cfg, b.base) && NoneOpen(b)
    requires 0.0 <= env.cfg.fractionalKelly <= 1.0
    ensures var b' := Step(env, b, e); AboveFloor(b'.acct, env.cfg, b'.base)
  {
    if Enabled(b, e) {
      match e.action
      case Visit(_) => VisitStaysAboveFloor(env, b, e);
      case Record => OpenStaysAboveFloor(b.acct, env.cfg, b.base, b.phase.order, e.at);
      case Evaluate => assert CheckCooldown(b.acct, env.cfg, e.at).settlements == b.acct.settlements;
      case _ =>
    }
  }

  /**
   With never more than one position open, n settlements keep at least the starting bankroll times (1 - fraction)^n.
   */
  lemma {:induction false} RunsStayAboveFloor(env: Env, start: Time, bankroll: real, found: seq<Row>,
                                              events: seq<Event>)
    requires SaneConfig(env) && bankroll > 0.0 && 0.0 <= env.cfg.fractionalKelly <= 1.0
    requires NoneOpenThroughout(env, Start(env, start, bankroll, found), events)
    ensures var b := Run(env, Start(env, start, bankroll, found), events);
      && b.base == bankroll && AboveFloor(b.acct, env.cfg, bankroll)
      && b.acct.bankroll >= Floor(bankroll, 1.0 - env.cfg.fractionalKelly, |b.acct.settlements|)
  {
    if events == [] {
      assert Pow(1.0 - env.cfg.fractionalKelly, 0) == 1.0;
    } else {
      var rest := events[..|events| - 1];
      RunsStayAboveFloor(env, start, bankroll, found, rest);
      StartIsSound(env, start, bankroll, found);
      RunsStaySound(env, Start(env, start, bankroll, found), rest);
      StepStaysAboveFloor(env, Run(env, Start(env, start, bankroll, found), rest), events[|events| - 1]);
      RunsStaySound(env, Start(env, start, bankroll, found), events);
    }
  }

  // ---- what the breaker protects ----

  /** The share of the bankroll that a trip of the breaker leaves: the drawdown limit and one last lost stake. */
  function Kept(cfg: ManagerConfig): real {
    (1.0 - cfg.drawdownLimit) * (1.0 - cfg.fractionalKelly)
  }

  /**
   Trading, the peak has kept its share for every halt so far; halted, nothing is open and the bankroll has kept it.
   */
  ghost predicate Protected(a: Account, cfg: ManagerConfig, start: real) {
    && BreakerArmed(a, cfg) && a.peak > 0.0
    && (!a.halted ==> Floor(start, Kept(cfg), a.haltCount) <= a.peak)
    && (a.halted ==> a.positions == map[] && Floor(start, Kept(cfg), a.haltCount) <= a.bankroll)
  }

  lemma KeptShares(cfg: ManagerConfig, peak: real, bankroll: real, cost: real)
    requires 0.0 <= cfg.fractionalKelly <= 1.0 && 0.0 < cfg.drawdownLimit <= 1.0 && peak > 0.0
    requires peak - bankroll < Scaled(cfg.drawdownLimit, peak) && cost <= Scaled(cfg.fractionalKelly, bankroll)
    ensures Scaled(Kept(cfg), peak) <= bankroll - cost
  {
    var l, f := 1.0 - cfg.drawdownLimit, 1.0 - cfg.fractionalKelly;
    assert l * peak == peak - cfg.drawdownLimit * peak;
    ProductSign(f, bankroll - l * peak);
    assert f * (bankroll - l * peak) == f * bankroll - (l * f) * peak;
    assert f * bankroll == bankroll - cfg.fractionalKelly * bankroll;
  }

  lemma ScaledGrows(factor: real, low: real, high: real)
    requires factor >= 0.0 && low <= high
    ensures Scaled(factor, low) <= Scaled(factor, high)
  {
    ProductSign(factor, high - low);
    assert factor * (high - low) == factor * high - factor * low;
  }

  lemma KeptIsShare(cfg: ManagerConfig)
    requires 0.0 <= cfg.fractionalKelly <= 1.0 && 0.0 < cfg.drawdownLimit <= 1.0
    ensures 0.0 <= Kept(cfg) <= 1.0
  {
    ProductAtMostOne(1.0 - cfg.drawdownLimit, 1.0 - cfg.fractionalKelly);
  }

  lemma SettleStaysProtected(a: Account, cfg: ManagerConfig, start: real, s: Stamp)
    requires Protected(a, cfg, start) && AboveFloor(a, cfg, start) && s.slug in a.positions && !a.halted
    requires PositionWithin(cfg, a.positions[s.slug]) && cfg.minBet >= 0.0
    requires 0.0 <= cfg.fractionalKelly <= 1.0 && 0.0 < cfg.drawdownLimit <= 1.0
    ensures Protected(SettleOne(a, cfg, s), cfg, start)
  {
    var p := a.positions[s.slug];
    SettleKeepsArmed(a, cfg, s);
    SettledAtLeast(a, cfg, s);
    KeptShares(cfg, a.peak, a.bankroll, p.cost);
    FloorStep(start, Kept(cfg), a.haltCount);
    KeptIsShare(cfg);
    ScaledGrows(Kept(cfg), Floor(start, Kept(cfg), a.haltCount), a.peak);
    OnlyOne(a.positions, s.slug);
  }

  lemma OnlyOne(positions: map<string, Position>, slug: string)
    requires slug in positions && forall s, t | s in positions && t in positions :: s == t
    ensures positions - {slug} == map[]
  {
  }

  lemma VisitStaysProtected(env: Env, b: State, e: Event)
    requires SaneConfig(env) && Limits(env, b) && AboveFloor(b.acct, env.cfg, b.base)
    requires Protected(b.acct, env.cfg, b.base) && e.action.Visit? && Enabled(b, e)
    requires 0.0 <= env.cfg.fractionalKelly <= 1.0 && env.cfg.drawdownLimit <= 1.0
    ensures Protected(Step(env, b, e).acct, env.cfg, b.base)
  {
    if e.action.slug in b.acct.positions && b.hub.IsResolved(e.action.slug) {
      SettleStaysProtected(b.acct, env.cfg, b.base, StampFor(b.hub, e.action.slug, e.at));
    }
  }

  lemma CooldownStaysProtected(a: Account, cfg: ManagerConfig, start: real, now: Time)
    requires Protected(a, cfg, start) && a.bankroll > 0.0 && cfg.drawdownLimit > 0.0
    ensures Protected(CheckCooldown(a, cfg, now), cfg, start)
  {
    CooldownKeepsArmed(a, cfg, now);
  }

  lemma StepStaysProtected(env: Env, b: State, e: Event)
    requires SaneConfig(env) && Sound(env, b) && AboveFloor(b.acct, env.cfg, b.base)
    requires Protected(b.acct, env.cfg, b.base)
    requires 0.0 <= env.cfg.fractionalKelly <= 1.0 && env.cfg.drawdownLimit <= 1.0
    ensures Protected(Step(env, b, e).acct, env.cfg, b.base)
  {
    if Enabled(b, e) {
      match e.action
      case Visit(_) => VisitStaysProtected(env, b, e);
      case Evaluate => CooldownStaysProtected(b.acct, env.cfg, b.base, e.at);
      case _ =>
    }
  }

  lemma {:induction false} RunsStayProtected(env: Env, start: Time, bankroll: real, found: seq<Row>, events: seq<Event>)
    requires SaneConfig(env) && bankroll > 0.0
    requires 0.0 <= env.cfg.fractionalKelly <= 1.0 && env.cfg.drawdownLimit <= 1.0
    requires NoneOpenThroughout(env, Start(env, start, bankroll, found), events)
    ensures Protected(Run(env, Start(env, start, bankroll, found), events).acct, env.cfg, bankroll)
  {
    var b := Start(env, start, bankroll, found);
    if events == [] {
      ProductSign(env.cfg.drawdownLimit, bankroll);
      assert Pow(Kept(env.cfg), 0) == 1.0;
    } else {
      var rest := events[..|events| - 1];
      RunsStayProtected(env, start, bankroll, found, rest);
      RunsStayAboveFloor(env, start, bankroll, found, rest);
      StartIsSound(env, start, bankroll, found);
      RunsStaySound(env, b, rest);
      StepStaysProtected(env, Run(env, b, rest), events[|events| - 1]);
    }
  }

  /** What the invariant leaves in the bank, halted or not. */
  lemma ProtectedBankroll(a: Account, cfg: ManagerConfig, start: real)
    requires Protected(a, cfg, start) && a.bankroll > 0.0
    requires 0.0 <= cfg.fractionalKelly <= 1.0 && 0.0 < cfg.drawdownLimit <= 1.0 && start > 0.0
    ensures Floor(start, Kept(cfg), a.haltCount + 1) <= a.bankroll
  {
    KeptIsShare(cfg);
    FloorStep(start, Kept(cfg), a.haltCount);
    if a.halted {
      FloorsFall(start, Kept(cfg), a.haltCount, a.haltCount + 1);
    } else {
      ProductSign(cfg.fractionalKelly, a.bankroll);
      KeptShares(cfg, a.peak, a.bankroll, 0.0);
      ScaledGrows(Kept(cfg), Floor(start, Kept(cfg), a.haltCount), a.peak);
    }
  }

  lemma {:induction false} FloorsFall(start: real, keep: real, n: nat, m: nat)
    requires start >= 0.0 && 0.0 <= keep <= 1.0 && n <= m
    ensures Floor(start, keep, m) <= Floor(start, keep, n)
    decreases m - n
  {
    if n < m {
      FloorsFall(start, keep, n, m - 1);
      FloorStep(start, keep, m - 1);
      PowNonNegative(keep, m - 1);
      ProductSign(start, Pow(keep, m - 1));
      ProductSign(Floor(start, keep, m - 1), 1.0 - keep);
    }
  }

  /** The most halts there can have been by now. */
  function MostHalts(cfg: ManagerConfig, start: Time, now: Time): nat
    requires start <= now
  {
    if cfg.haltCooldown > 0 then 1 + (now - start) / cfg.haltCooldown else 1
  }

  lemma FloorByTime(a: Account, cfg: ManagerConfig, start: Time, now: Time, bankroll: real)
    requires Paced(a, cfg, start, now) && bankroll >= 0.0
    requires 0.0 <= cfg.fractionalKelly <= 1.0 && 0.0 < cfg.drawdownLimit <= 1.0
    ensures Floor(bankroll, Kept(cfg), MostHalts(cfg, start, now) + 1) <= Floor(bankroll, Kept(cfg), a.haltCount + 1)
  {
    HaltsAreSpaced(a, cfg, start, now);
    KeptIsShare(cfg);
    FloorsFall(bankroll, Kept(cfg), a.haltCount + 1, MostHalts(cfg, start, now) + 1);
  }

  /**
   What the breaker protects, with one position at a time: each trip costs at most the drawdown limit and one more
   stake, whatever is lost in between. Trips being a cooldown apart, that is a floor for any given time.
   */
  lemma BreakerLimitsLoss(env: Env, start: Time, bankroll: real, found: seq<Row>, events: seq<Event>)
    requires SaneConfig(env) && bankroll > 0.0
    requires 0.0 <= env.cfg.fractionalKelly <= 1.0 && env.cfg.drawdownLimit <= 1.0
    requires NoneOpenThroughout(env, Start(env, start, bankroll, found), events)
    ensures var b := Run(env, Start(env, start, bankroll, found), events);
      && Floor(bankroll, Kept(env.cfg), b.acct.haltCount + 1) <= b.acct.bankroll
      && start <= b.now && Floor(bankroll, Kept(env.cfg), MostHalts(env.cfg, start, b.now) + 1) <= b.acct.bankroll
  {
    var b := Run(env, Start(env, start, bankroll, found), events);
    RunIsPaced(env, start, bankroll, found, events);
    RunsStayProtected(env, start, bankroll, found, events);
    RunKeepsSome(env, start, bankroll, found, events);
    LossLimited(b.acct, env.cfg, start, b.now, bankroll);
  }

  lemma RunIsPaced(env: Env, start: Time, bankroll: real, found: seq<Row>, events: seq<Event>)
    requires SaneConfig(env)
    ensures var b := Run(env, Start(env, start, bankroll, found), events); Paced(b.acct, env.cfg, start, b.now)
  {
    StartIsSound(env, start, bankroll, found);
    RunsStaySound(env, Start(env, start, bankroll, found), events);
  }

  lemma RunKeepsSome(env: Env, start: Time, bankroll: real, found: seq<Row>, events: seq<Event>)
    requires SaneConfig(env) && bankroll > 0.0 && 0.0 <= env.cfg.fractionalKelly <= 1.0
    requires NoneOpenThroughout(env, Start(env, start, bankroll, found), events)
    ensures Run(env, Start(env, start, bankroll, found), events).acct.bankroll > 0.0
  {
    RunsStayAboveFloor(env, start, bankroll, found, events);
  }

  lemma LossLimited(a: Account, cfg: ManagerConfig, start: Time, now: Time, bankroll: real)
    requires Protected(a, cfg, bankroll) && a.bankroll > 0.0 && Paced(a, cfg, start, now) && bankroll > 0.0
    requires 0.0 <= cfg.fractionalKelly <= 1.0 && 0.0 < cfg.drawdownLimit <= 1.0
    ensures Floor(bankroll, Kept(cfg), a.haltCount + 1) <= a.bankroll
    ensures Floor(bankroll, Kept(cfg), MostHalts(cfg, start, now) + 1) <= a.bankroll
  {
    ProtectedBankroll(a, cfg, bankroll);
    FloorByTime(a, cfg, start, now, bankroll);
  }
}
