/** The books: what every operation of the manager keeps, breaker and halts included. */
module Ledger {
  import opened Prelude
  import opened Signal
  import opened Risk

  // ---- exposure ----

  lemma ExposureWithout(positions: map<string, Position>, slug: string)
    requires slug in positions
    ensures Exposure(positions - {slug}) == Exposure(positions) - positions[slug].cost
  {
    MapSumSplit(Costs(positions), slug);
    assert Costs(positions - {slug}) == Costs(positions) - {slug};
  }

  lemma ExposureWith(positions: map<string, Position>, slug: string, p: Position)
    requires slug !in positions
    ensures Exposure(positions[slug := p]) == Exposure(positions) + p.cost
  {
    assert positions[slug := p] - {slug} == positions;
    ExposureWithout(positions[slug := p], slug);
  }

  /** Each open position has cost price times shares, and is filed under its own slug. */
  ghost predicate WellPriced(positions: map<string, Position>) {
    forall s | s in positions ::
      positions[s].slug == s && positions[s].cost == Risk.Value(positions[s].price, positions[s].size)
  }

  function Payout(p: Position, won: bool): real {
    if won then p.size else 0.0
  }

  /** The profit recorded is the payout less the cost. */
  lemma PnlIsPayoutLessCost(p: Position, won: bool)
    requires p.cost == Risk.Value(p.price, p.size)
    ensures Pnl(p, won) == Payout(p, won) - p.cost
  {
  }

  /** A share of each side pays out exactly once on an outcome that names a side, and not at all on any other. */
  lemma OneSidePays(up: Position, down: Position, outcome: string)
    requires up.dir == BuyUp && down.dir == BuyDown && up.size == down.size
    ensures Payout(up, DidWin(up.dir, outcome)) == if Names(BuyUp, outcome) then up.size else 0.0
    ensures Payout(down, DidWin(down.dir, outcome)) == if Names(BuyDown, outcome) then down.size else 0.0
    ensures Payout(up, DidWin(up.dir, outcome)) + Payout(down, DidWin(down.dir, outcome))
         == if Names(BuyUp, outcome) || Names(BuyDown, outcome) then up.size else 0.0
  {
    WinsIffNamed(BuyUp, outcome);
    WinsIffNamed(BuyDown, outcome);
  }

  /** Settling pays the size of a position whose side the outcome names, and takes the cost of every position. */
  lemma SettlementPays(a: Account, cfg: ManagerConfig, s: Stamp)
    requires s.slug in a.positions && WellPriced(a.positions)
    ensures var p := a.positions[s.slug];
      SettleOne(a, cfg, s).bankroll == a.bankroll - p.cost + if Names(p.dir, s.outcome) then p.size else 0.0
  {
    var p := a.positions[s.slug];
    WinsIffNamed(p.dir, s.outcome);
    PnlIsPayoutLessCost(p, DidWin(p.dir, s.outcome));
  }

  /** What the account would be worth if every open position lost. */
  ghost function Equity(a: Account): real {
    a.bankroll - Exposure(a.positions)
  }

  /** Settling raises the worst-case equity by exactly the payout; opening lowers it by exactly the cost. */
  lemma EquityOfSettlement(a: Account, cfg: ManagerConfig, s: Stamp)
    requires s.slug in a.positions && WellPriced(a.positions)
    ensures Equity(SettleOne(a, cfg, s))
         == Equity(a) + Payout(a.positions[s.slug], DidWin(a.positions[s.slug].dir, s.outcome))
    ensures WellPriced(SettleOne(a, cfg, s).positions)
  {
    var p := a.positions[s.slug];
    PnlIsPayoutLessCost(p, DidWin(p.dir, s.outcome));
    ExposureWithout(a.positions, s.slug);
  }

  lemma EquityOfOpening(a: Account, o: Order, now: Time)
    requires o.market !in a.positions
    ensures Equity(Open(a, o, now)) == Equity(a) - o.cost
  {
    ExposureWith(a.positions, o.market, Open(a, o, now).positions[o.market]);
  }

  function Payouts(a: Account, cfg: ManagerConfig, stamps: seq<Stamp>): real
    requires PassOver(a, stamps)
  {
    if stamps == [] then 0.0
    else
      var last := stamps[|stamps| - 1];
      assert stamps == stamps[..|stamps| - 1] + [last];
      Payouts(a, cfg, stamps[..|stamps| - 1])
      + Payout(a.positions[last.slug], DidWin(a.positions[last.slug].dir, last.outcome))
  }

  lemma {:induction false} PassPrefix(a: Account, cfg: ManagerConfig, stamps: seq<Stamp>)
    requires PassOver(a, stamps) && stamps != []
    ensures var rest := stamps[..|stamps| - 1]; var last := stamps[|stamps| - 1];
      && PassOver(a, rest) && last.slug in SettleAll(a, cfg, rest).positions
      && SettleAll(a, cfg, rest).positions[last.slug] == a.positions[last.slug]
      && SettleAll(a, cfg, stamps) == SettleOne(SettleAll(a, cfg, rest), cfg, last)
      && SlugSet(stamps) == SlugSet(rest) + {last.slug} && last.slug !in SlugSet(rest)
  {
    var rest, last := stamps[..|stamps| - 1], stamps[|stamps| - 1];
    assert stamps == rest + [last];
    LastSlugIsNew(rest, last);
    assert last in stamps;
    assert SettleAll(a, cfg, rest).positions == a.positions - SlugSet(rest);
  }

  lemma LastSlugIsNew(rest: seq<Stamp>, last: Stamp)
    requires DistinctSlugs(rest + [last])
    ensures DistinctSlugs(rest) && last.slug !in SlugSet(rest)
    ensures SlugSet(rest + [last]) == SlugSet(rest) + {last.slug}
  {
    var all := rest + [last];
    forall i | 0 <= i < |rest|
      ensures rest[i].slug != last.slug
    {
      assert all[i] == rest[i] && all[|rest|] == last;
    }
    forall i, j | 0 <= i < j < |rest|
      ensures rest[i].slug != rest[j].slug
    {
      assert all[i] == rest[i] && all[j] == rest[j];
    }
  }

  /** Over a whole pass the equity rises by the sum of the payouts: settling never lowers it. */
  lemma {:induction false} EquityOfPass(a: Account, cfg: ManagerConfig, stamps: seq<Stamp>)
    requires PassOver(a, stamps) && WellPriced(a.positions)
    ensures Equity(SettleAll(a, cfg, stamps)) == Equity(a) + Payouts(a, cfg, stamps)
    ensures WellPriced(SettleAll(a, cfg, stamps).positions)
  {
    if stamps != [] {
      var rest := stamps[..|stamps| - 1];
      PassPrefix(a, cfg, stamps);
      EquityOfPass(a, cfg, rest);
      EquityOfSettlement(SettleAll(a, cfg, rest), cfg, stamps[|stamps| - 1]);
    }
  }

  // ---- counters ----

  function PnlSum(settlements: seq<Settlement>): real {
    if settlements == [] then 0.0
    else PnlSum(settlements[..|settlements| - 1]) + settlements[|settlements| - 1].pnl
  }

  function WonCount(settlements: seq<Settlement>): nat {
    if settlements == [] then 0
    else WonCount(settlements[..|settlements| - 1]) + if settlements[|settlements| - 1].won then 1 else 0
  }

  /** The counters agree with the list of settlements, and the bankroll with its base and the profits since. */
  ghost predicate Balanced(a: Account, base: real, placed: nat) {
    && a.totalPnL == PnlSum(a.settlements)
    && a.bankroll == base + a.totalPnL
    && a.wins == WonCount(a.settlements)
    && a.wins + a.losses == |a.settlements|
    && placed == |a.settlements| + |a.positions|
  }

  lemma SettleBalances(a: Account, cfg: ManagerConfig, s: Stamp, base: real, placed: nat)
    requires Balanced(a, base, placed) && s.slug in a.positions
    ensures Balanced(SettleOne(a, cfg, s), base, placed)
  {
    var after := SettleOne(a, cfg, s);
    assert after.settlements[..|after.settlements| - 1] == a.settlements;
    CardinalityWithout(a.positions, s.slug);
  }

  lemma OpenBalances(a: Account, o: Order, now: Time, base: real, placed: nat)
    requires Balanced(a, base, placed) && o.market !in a.positions
    ensures Balanced(Open(a, o, now), base, placed + 1)
  {
    var after := Open(a, o, now);
    assert after.positions - {o.market} == a.positions;
    CardinalityWithout(after.positions, o.market);
  }

  /** Restoring moves the base to the one value the profits so far leave, and keeps every count. */
  lemma RestoreBalances(a: Account, bankroll: real, base: real, base': real, placed: nat)
    requires Balanced(a, base, placed)
    ensures Balanced(Restore(a, bankroll), base', placed) <==> base' == base + (bankroll - a.bankroll)
  {
  }

  // ---- breaker ----

  /** The peak is no lower than the bankroll, and an account that may trade is within its drawdown limit. */
  ghost predicate BreakerHolds(a: Account, cfg: ManagerConfig) {
    && a.bankroll <= a.peak
    && (!a.halted ==> a.peak - a.bankroll < Scaled(cfg.drawdownLimit, a.peak))
  }

  lemma DrawdownBelow(peak: real, bankroll: real, limit: real)
    requires peak > 0.0
    ensures Breached(peak, bankroll, limit) <==> peak - bankroll >= Scaled(limit, peak)
  {
    var d := Drawdown(peak, bankroll);
    assert d * peak == peak - bankroll;
    ProductSign(peak, d - limit);
    ProductSign(peak, limit - d);
    assert d * peak - limit * peak == peak * (d - limit);
  }

  /** What a settlement leaves the bankroll at. */
  function Settled(a: Account, s: Stamp): real
    requires s.slug in a.positions
  {
    a.bankroll + Pnl(a.positions[s.slug], DidWin(a.positions[s.slug].dir, s.outcome))
  }

  /**
   A settlement establishes the breaker's promise exactly when the account is halted already, or has a positive
   peak before or a positive bankroll after, or falls below a peak of zero.
   */
  lemma SettleKeepsBreaker(a: Account, cfg: ManagerConfig, s: Stamp)
    requires s.slug in a.positions && cfg.drawdownLimit > 0.0
    ensures BreakerHolds(SettleOne(a, cfg, s), cfg)
            <==> a.halted || a.peak > 0.0 || Settled(a, s) > 0.0 || (a.peak == 0.0 && Settled(a, s) < 0.0)
    ensures a.peak <= SettleOne(a, cfg, s).peak
  {
    var after := SettleOne(a, cfg, s);
    if after.peak > 0.0 {
      DrawdownBelow(after.peak, after.bankroll, cfg.drawdownLimit);
    } else if after.peak < 0.0 {
      ShallowUnderNegativePeak(after.peak, after.bankroll, cfg.drawdownLimit);
    }
  }

  lemma ShallowUnderNegativePeak(peak: real, bankroll: real, limit: real)
    requires peak < 0.0 && bankroll <= peak && limit > 0.0
    ensures !Breached(peak, bankroll, limit) && Scaled(limit, peak) < 0.0
  {
    var d := Drawdown(peak, bankroll);
    assert d * peak == peak - bankroll;
    ProductSign(-peak, d);
    assert (-peak) * d == -(d * peak);
    ProductSign(limit, peak);
  }

  /** The breaker's promise for as long as the peak is positive. */
  ghost predicate BreakerArmed(a: Account, cfg: ManagerConfig) {
    a.bankroll <= a.peak && (a.peak > 0.0 ==> BreakerHolds(a, cfg))
  }

  /** For an account kept this way the promise holds exactly when it is halted or its peak is positive. */
  lemma ArmedHoldsIff(a: Account, cfg: ManagerConfig)
    requires BreakerArmed(a, cfg) && cfg.drawdownLimit > 0.0
    ensures BreakerHolds(a, cfg) <==> a.halted || a.peak > 0.0
  {
    if a.peak <= 0.0 {
      ProductSign(cfg.drawdownLimit, a.peak);
    }
  }

  lemma SettleKeepsArmed(a: Account, cfg: ManagerConfig, s: Stamp)
    requires s.slug in a.positions && cfg.drawdownLimit > 0.0
    ensures BreakerArmed(SettleOne(a, cfg, s), cfg)
  {
    SettleKeepsBreaker(a, cfg, s);
  }

  lemma CooldownKeepsArmed(a: Account, cfg: ManagerConfig, now: Time)
    requires BreakerArmed(a, cfg) && cfg.drawdownLimit > 0.0
    ensures BreakerArmed(Risk.CheckCooldown(a, cfg, now), cfg)
  {
    ProductSign(cfg.drawdownLimit, a.bankroll);
  }

  /**
   Ending a halt restarts the peak at the bankroll; the promise survives that exactly when the bankroll is positive.
   */
  lemma CooldownKeepsBreaker(a: Account, cfg: ManagerConfig, now: Time)
    requires BreakerHolds(a, cfg) && cfg.drawdownLimit > 0.0
    ensures BreakerHolds(Risk.CheckCooldown(a, cfg, now), cfg) <==> (!CooledDown(a, cfg, now) || a.bankroll > 0.0)
  {
    ProductSign(cfg.drawdownLimit, a.bankroll);
  }

  lemma RestoreKeepsBreaker(a: Account, cfg: ManagerConfig, bankroll: real)
    requires cfg.drawdownLimit > 0.0
    ensures BreakerHolds(Restore(a, bankroll), cfg) <==> (a.halted || bankroll > 0.0)
  {
    ProductSign(cfg.drawdownLimit, bankroll);
  }

  /** Why a positive peak is needed: while peak and bankroll stay negative no loss, however large, trips the breaker. */
  lemma NegativePeakNeverTrips(a: Account, cfg: ManagerConfig, s: Stamp)
    requires s.slug in a.positions && cfg.drawdownLimit > 0.0 && a.peak < 0.0 && Settled(a, s) < 0.0
    ensures SettleOne(a, cfg, s).halted == a.halted && SettleOne(a, cfg, s).haltCount == a.haltCount
  {
    var after := SettleOne(a, cfg, s);
    ShallowUnderNegativePeak(after.peak, after.bankroll, cfg.drawdownLimit);
  }

  // ---- halts ----

  function Spacing(n: int, cooldown: Time): int {
    n * cooldown
  }

  /**
   Halts since `start` lie a cooldown apart. With a cooldown that is not positive a halt is
   for good, so there is at most one.
   */
  ghost predicate Paced(a: Account, cfg: ManagerConfig, start: Time, now: Time) {
    && start <= now
    && (a.haltCount == 0 ==> !a.halted)
    && (a.haltCount > 0 ==> start <= a.haltedAt <= now)
    && (a.haltCount > 0 && cfg.haltCooldown > 0 ==>
          && Spacing(a.haltCount - 1, cfg.haltCooldown) <= a.haltedAt - start
          && (!a.halted ==> Spacing(a.haltCount, cfg.haltCooldown) <= now - start))
    && (cfg.haltCooldown <= 0 ==> a.haltCount <= 1 && (a.haltCount == 1 ==> a.halted))
  }

  lemma SettleKeepsPace(a: Account, cfg: ManagerConfig, s: Stamp, start: Time, now: Time)
    requires Paced(a, cfg, start, now) && s.slug in a.positions && now <= s.at
    ensures Paced(SettleOne(a, cfg, s), cfg, start, s.at)
  {
    assert Spacing(0, cfg.haltCooldown) == 0;
  }

  lemma CooldownKeepsPace(a: Account, cfg: ManagerConfig, start: Time, now: Time, at: Time)
    requires Paced(a, cfg, start, now) && now <= at
    ensures Paced(Risk.CheckCooldown(a, cfg, at), cfg, start, at)
  {
    assert Spacing(a.haltCount, cfg.haltCooldown) == Spacing(a.haltCount - 1, cfg.haltCooldown) + cfg.haltCooldown;
  }

  /** In any span of time the breaker trips at most once more than whole cooldowns fit into it. */
  lemma HaltsAreSpaced(a: Account, cfg: ManagerConfig, start: Time, now: Time)
    requires Paced(a, cfg, start, now)
    ensures cfg.haltCooldown > 0 ==> a.haltCount <= 1 + (now - start) / cfg.haltCooldown
    ensures cfg.haltCooldown <= 0 ==> a.haltCount <= 1
  {
    if cfg.haltCooldown > 0 && a.haltCount > 0 {
      QuotientAtLeast(a.haltCount - 1, now - start, cfg.haltCooldown);
    }
  }

  lemma QuotientAtLeast(n: nat, total: int, unit: int)
    requires unit > 0 && Spacing(n, unit) <= total
    ensures n <= total / unit
  {
    var q := total / unit;
    assert Spacing(q + 1, unit) == q * unit + unit;
    if q < n {
      SpacingGrows(q + 1, n, unit);
    }
  }

  lemma SpacingGrows(a: int, b: int, unit: int)
    requires a <= b && unit >= 0
    ensures Spacing(a, unit) <= Spacing(b, unit)
  {
    assert (b - a) * unit >= 0;
  }
}
