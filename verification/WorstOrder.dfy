/** When the order of a settlement pass can matter to the breaker: exactly when its losses alone would trip it. */
module WorstOrder {
  import opened Prelude
  import opened Hub
  import opened Risk
  import opened RiskManager
  import opened Ledger
  import opened OrderFree

  /** What is lost on a slug; nothing if it gains. */
  function LossOf(a: Account, hs: HubState, slug: string): real
    requires slug in a.positions && slug in hs.markets
  {
    MaxReal(-PnlOf(a, hs, slug), 0.0)
  }

  ghost function LossMap(a: Account, hs: HubState, slugs: set<string>): map<string, real>
    requires Settleable(a, hs, slugs)
  {
    map s | s in slugs :: LossOf(a, hs, s)
  }

  /** The losses of the slugs together, gains not counted. */
  ghost function LossSum(a: Account, hs: HubState, slugs: set<string>): real
    requires Settleable(a, hs, slugs)
  {
    MapSum(LossMap(a, hs, slugs))
  }

  lemma LossSumGrows(a: Account, hs: HubState, slugs: set<string>, slug: string)
    requires Settleable(a, hs, slugs + {slug}) && slug !in slugs
    ensures LossSum(a, hs, slugs + {slug}) == LossSum(a, hs, slugs) + LossOf(a, hs, slug)
  {
    var all := LossMap(a, hs, slugs + {slug});
    assert all - {slug} == LossMap(a, hs, slugs);
    MapSumSplit(all, slug);
  }

  lemma LossSumOfNone(a: Account, hs: HubState)
    ensures LossSum(a, hs, {}) == 0.0
  {
    assert LossMap(a, hs, {}) == map[];
  }

  /** The gains of the slugs together, losses not counted. */
  ghost function GainSum(a: Account, hs: HubState, slugs: set<string>): real
    requires Settleable(a, hs, slugs)
  {
    MapSum(PnlMap(a, hs, slugs, true))
  }

  /** Gains and losses of the slugs together. */
  ghost function NetSum(a: Account, hs: HubState, slugs: set<string>): real
    requires Settleable(a, hs, slugs)
  {
    MapSum(PnlMap(a, hs, slugs, false))
  }

  lemma NoPnl(a: Account, hs: HubState)
    ensures NetSum(a, hs, {}) == 0.0 == GainSum(a, hs, {})
  {
    assert PnlMap(a, hs, {}, false) == map[] && PnlMap(a, hs, {}, true) == map[];
  }

  lemma {:induction false} NetIsGainsLessLosses(a: Account, hs: HubState, slugs: set<string>)
    requires Settleable(a, hs, slugs)
    ensures NetSum(a, hs, slugs) == GainSum(a, hs, slugs) - LossSum(a, hs, slugs)
    decreases slugs
  {
    if slugs == {} {
      NoPnl(a, hs);
      LossSumOfNone(a, hs);
    } else {
      var slug :| slug in slugs;
      var rest := slugs - {slug};
      NetIsGainsLessLosses(a, hs, rest);
      assert rest + {slug} == slugs;
      PnlMapGrows(a, hs, rest, slug, false);
      PnlMapGrows(a, hs, rest, slug, true);
      LossSumGrows(a, hs, rest, slug);
    }
  }

  lemma {:induction false} LosersGainNothing(a: Account, hs: HubState, slugs: set<string>, losers: set<string>)
    requires Settleable(a, hs, slugs + losers) && slugs !! losers && forall s | s in losers :: PnlOf(a, hs, s) <= 0.0
    ensures GainSum(a, hs, slugs + losers) == GainSum(a, hs, slugs)
    decreases losers
  {
    if losers == {} {
      assert slugs + losers == slugs;
    } else {
      var slug :| slug in losers;
      LosersGainNothing(a, hs, slugs, losers - {slug});
      assert slugs + (losers - {slug}) + {slug} == slugs + losers;
      PnlMapGrows(a, hs, slugs + (losers - {slug}), slug, true);
    }
  }

  lemma GainersOnly(a: Account, hs: HubState, gainers: set<string>)
    requires Settleable(a, hs, gainers) && forall s | s in gainers :: PnlOf(a, hs, s) >= 0.0
    ensures NetSum(a, hs, gainers) == GainSum(a, hs, gainers)
  {
    assert PnlMap(a, hs, gainers, false) == PnlMap(a, hs, gainers, true);
  }

  lemma LosersOnly(a: Account, hs: HubState, losers: set<string>)
    requires Settleable(a, hs, losers) && forall s | s in losers :: PnlOf(a, hs, s) <= 0.0
    ensures NetSum(a, hs, losers) == -LossSum(a, hs, losers)
  {
    assert {} + losers == losers;
    LosersGainNothing(a, hs, {}, losers);
    NoPnl(a, hs);
    NetIsGainsLessLosses(a, hs, losers);
  }

  /** However a pass is ordered, the distance below the peak grows by no more than the losses. */
  lemma {:induction false} DropIsBounded(a: Account, cfg: ManagerConfig, hs: HubState, stamps: seq<Stamp>)
    requires PassOver(a, stamps) && OutcomesOf(hs, stamps) && a.bankroll <= a.peak
    ensures Settleable(a, hs, SlugSet(stamps))
    ensures var r := SettleAll(a, cfg, stamps);
      && r.bankroll <= r.peak && a.peak <= r.peak
      && r.peak - r.bankroll <= a.peak - a.bankroll + LossSum(a, hs, SlugSet(stamps))
  {
    if stamps == [] {
      assert SlugSet(stamps) == {};
      LossSumOfNone(a, hs);
    } else {
      var rest, last := stamps[..|stamps| - 1], stamps[|stamps| - 1];
      PassPrefix(a, cfg, stamps);
      DropIsBounded(a, cfg, hs, rest);
      assert last in stamps;
      LossSumGrows(a, hs, SlugSet(rest), last.slug);
    }
  }

  lemma ValueGrows(limit: real, low: real, high: real)
    requires limit > 0.0 && low <= high
    ensures Scaled(limit, low) <= Scaled(limit, high)
  {
    ProductSign(limit, high - low);
    assert limit * (high - low) == limit * high - limit * low;
  }

  /** Losses that fit the allowance trip the breaker in no order. */
  lemma {:induction false} SafeInAnyOrder(a: Account, cfg: ManagerConfig, hs: HubState, stamps: seq<Stamp>)
    requires PassOver(a, stamps) && OutcomesOf(hs, stamps) && Settleable(a, hs, SlugSet(stamps))
    requires !a.halted && a.bankroll <= a.peak && a.peak > 0.0 && cfg.drawdownLimit > 0.0
    requires a.peak - a.bankroll + LossSum(a, hs, SlugSet(stamps)) < Scaled(cfg.drawdownLimit, a.peak)
    ensures !SettleAll(a, cfg, stamps).halted
  {
    if stamps != [] {
      var rest, last := stamps[..|stamps| - 1], stamps[|stamps| - 1];
      PassPrefix(a, cfg, stamps);
      assert last in stamps;
      LossSumGrows(a, hs, SlugSet(rest), last.slug);
      SafeInAnyOrder(a, cfg, hs, rest);
      DropIsBounded(a, cfg, hs, stamps);
      var r := SettleAll(a, cfg, stamps);
      ValueGrows(cfg.drawdownLimit, a.peak, r.peak);
      DrawdownBelow(r.peak, r.bankroll, cfg.drawdownLimit);
    }
  }

  /** One more due slug settled: what it does to bankroll and peak. */
  lemma OneMore(a: Account, cfg: ManagerConfig, hs: HubState, done: seq<Stamp>, slug: string)
    requires PassOver(a, done) && Reported(hs, done) && slug in Due(a, hs) && slug !in SlugSet(done)
    ensures var stamps := done + [StampFor(hs, slug, 0)];
      && PassOver(a, stamps) && Reported(hs, stamps) && SlugSet(stamps) == SlugSet(done) + {slug}
      && var before, r := SettleAll(a, cfg, done), SettleAll(a, cfg, stamps);
         r.bankroll == before.bankroll + PnlOf(a, hs, slug) && r.peak == MaxReal(before.peak, r.bankroll)
  {
    StampAdded(a, cfg, done, StampFor(hs, slug, 0));
    assert SettleAll(a, cfg, done).positions[slug] == a.positions[slug];
  }

  /** Settling losers next: the bankroll falls and the peak stays. */
  lemma {:induction false} LosersNext(a: Account, cfg: ManagerConfig, hs: HubState, done: seq<Stamp>,
                                      losers: set<string>)
    returns (stamps: seq<Stamp>)
    requires PassOver(a, done) && Reported(hs, done) && losers <= Due(a, hs) && losers !! SlugSet(done)
    requires forall s | s in losers :: PnlOf(a, hs, s) <= 0.0
    requires SettleAll(a, cfg, done).bankroll <= SettleAll(a, cfg, done).peak
    ensures PassOver(a, stamps) && Reported(hs, stamps) && SlugSet(stamps) == SlugSet(done) + losers
    ensures var before, r := SettleAll(a, cfg, done), SettleAll(a, cfg, stamps);
      r.bankroll <= before.bankroll && r.peak == before.peak
    decreases losers
  {
    if losers == {} {
      stamps := done;
      assert SlugSet(done) + losers == SlugSet(done);
    } else {
      var slug :| slug in losers;
      stamps := LosersNext(a, cfg, hs, done, losers - {slug});
      assert SlugSet(done) + (losers - {slug}) + {slug} == SlugSet(done) + losers;
      OneMore(a, cfg, hs, stamps, slug);
      stamps := stamps + [StampFor(hs, slug, 0)];
    }
  }

  /** The stamped markets are resolved, with the outcomes the hub reports. */
  ghost predicate Reported(hs: HubState, stamps: seq<Stamp>) {
    forall s | s in stamps :: hs.IsResolved(s.slug) && s.outcome == hs.markets[s.slug].winningOutcome
  }

  lemma LossSumNotNegative(a: Account, hs: HubState, slugs: set<string>)
    requires Settleable(a, hs, slugs)
    ensures LossSum(a, hs, slugs) >= 0.0
  {
    MapSumBounds(LossMap(a, hs, slugs), 0.0);
    TimesIsProduct(|LossMap(a, hs, slugs)|, 0.0);
  }

  /** A halted pass stays halted while it settles the rest. */
  lemma {:induction false} ThenTheRest(a: Account, cfg: ManagerConfig, hs: HubState, done: seq<Stamp>,
                                       rest: set<string>)
    returns (stamps: seq<Stamp>)
    requires PassOver(a, done) && rest <= Due(a, hs) && rest !! SlugSet(done) && SettleAll(a, cfg, done).halted
    requires Reported(hs, done)
    ensures PassOver(a, stamps) && SlugSet(stamps) == SlugSet(done) + rest && SettleAll(a, cfg, stamps).halted
    ensures Reported(hs, stamps)
    decreases rest
  {
    if rest == {} {
      stamps := done;
    } else {
      var slug :| slug in rest;
      var s := StampFor(hs, slug, 0);
      StampAdded(a, cfg, done, s);
      stamps := ThenTheRest(a, cfg, hs, done + [s], rest - {slug});
    }
  }

  lemma {:induction false} GainersLoseNothing(a: Account, hs: HubState, slugs: set<string>, gainers: set<string>)
    requires Settleable(a, hs, slugs + gainers) && slugs !! gainers && forall s | s in gainers :: PnlOf(a, hs, s) >= 0.0
    ensures LossSum(a, hs, slugs + gainers) == LossSum(a, hs, slugs)
    decreases gainers
  {
    if gainers == {} {
      assert slugs + gainers == slugs;
    } else {
      var slug :| slug in gainers;
      GainersLoseNothing(a, hs, slugs, gainers - {slug});
      assert slugs + (gainers - {slug}) + {slug} == slugs + gainers;
      LossSumGrows(a, hs, slugs + (gainers - {slug}), slug);
    }
  }

  /** Losses that exceed the allowance trip the breaker if they come first. */
  lemma LossesTripFirst(a: Account, cfg: ManagerConfig, hs: HubState) returns (stamps: seq<Stamp>)
    requires BreakerHolds(a, cfg) && a.peak > 0.0 && cfg.drawdownLimit > 0.0
    requires a.peak - a.bankroll + LossSum(a, hs, Due(a, hs)) >= Scaled(cfg.drawdownLimit, a.peak)
    ensures PassFor(a, hs, stamps) && SettleAll(a, cfg, stamps).halted
  {
    var losers := set s | s in Due(a, hs) && PnlOf(a, hs, s) < 0.0;
    var others := Due(a, hs) - losers;
    assert losers + others == Due(a, hs);
    GainersLoseNothing(a, hs, losers, others);
    var first := LosersTrip(a, cfg, hs, losers);
    stamps := ThenTheRest(a, cfg, hs, first, others);
    WholePass(a, hs, stamps);
  }

  lemma LosersTrip(a: Account, cfg: ManagerConfig, hs: HubState, losers: set<string>) returns (stamps: seq<Stamp>)
    requires BreakerHolds(a, cfg) && a.peak > 0.0 && cfg.drawdownLimit > 0.0
    requires losers <= Due(a, hs) && (forall s | s in losers :: PnlOf(a, hs, s) <= 0.0) && Settleable(a, hs, losers)
    requires a.peak - a.bankroll + LossSum(a, hs, losers) >= Scaled(cfg.drawdownLimit, a.peak)
    ensures PassOver(a, stamps) && Reported(hs, stamps) && SlugSet(stamps) == losers
    ensures SettleAll(a, cfg, stamps).halted
  {
    assert SlugSet([]) == {};
    stamps := LosersNext(a, cfg, hs, [], losers);
    BankrollAfter(a, cfg, hs, stamps, losers);
    LosersOnly(a, hs, losers);
    PassKeepsBreaker(a, cfg, stamps);
  }

  lemma WholePass(a: Account, hs: HubState, stamps: seq<Stamp>)
    requires PassOver(a, stamps) && Reported(hs, stamps) && SlugSet(stamps) == Due(a, hs)
    ensures PassFor(a, hs, stamps)
  {
  }

  lemma BankrollAfter(a: Account, cfg: ManagerConfig, hs: HubState, stamps: seq<Stamp>, slugs: set<string>)
    requires PassOver(a, stamps) && Reported(hs, stamps) && SlugSet(stamps) == slugs
    ensures Settleable(a, hs, slugs)
    ensures SettleAll(a, cfg, stamps).bankroll == a.bankroll + NetSum(a, hs, slugs)
  {
    PassTotals(a, cfg, hs, stamps);
  }

  /**
   A pass over these positions trips the breaker in no order whatsoever exactly when the losses due fit what is
   left of the drawdown allowance. Otherwise some order trips it: taking the losses first does.
   */
  lemma NoOrderTripsIffLossesFit(a: Account, cfg: ManagerConfig, hs: HubState)
    requires !a.halted && BreakerHolds(a, cfg) && a.peak > 0.0 && cfg.drawdownLimit > 0.0
    ensures (forall stamps | PassFor(a, hs, stamps) :: !SettleAll(a, cfg, stamps).halted)
            <==> a.peak - a.bankroll + LossSum(a, hs, Due(a, hs)) < Scaled(cfg.drawdownLimit, a.peak)
  {
    if a.peak - a.bankroll + LossSum(a, hs, Due(a, hs)) < Scaled(cfg.drawdownLimit, a.peak) {
      forall stamps | PassFor(a, hs, stamps)
        ensures !SettleAll(a, cfg, stamps).halted
      {
        assert SlugSet(stamps) == Due(a, hs);
        SafeInAnyOrder(a, cfg, hs, stamps);
      }
    } else {
      var stamps := LossesTripFirst(a, cfg, hs);
    }
  }

  /** And every order trips it when the bankroll the pass ends with, which no order changes, breaches the old peak. */
  lemma EveryOrderTripsIfResultBreaches(a: Account, cfg: ManagerConfig, hs: HubState, stamps: seq<Stamp>)
    requires PassFor(a, hs, stamps) && a.bankroll <= a.peak && a.peak > 0.0 && 0.0 < cfg.drawdownLimit <= 1.0
    requires BreakerHolds(a, cfg)
    requires var final := a.bankroll + NetSum(a, hs, Due(a, hs));
      a.peak - final >= Scaled(cfg.drawdownLimit, a.peak)
    ensures SettleAll(a, cfg, stamps).halted
  {
    assert SlugSet(stamps) == Due(a, hs);
    BankrollAfter(a, cfg, hs, stamps, Due(a, hs));
    DropIsBounded(a, cfg, hs, stamps);
    PassKeepsBreaker(a, cfg, stamps);
    var r := SettleAll(a, cfg, stamps);
    BreachGrows(cfg.drawdownLimit, a.peak, r.peak, r.bankroll);
  }

  /** A higher peak over the same bankroll is breached all the more. */
  lemma BreachGrows(limit: real, low: real, high: real, bankroll: real)
    requires limit <= 1.0 && low <= high && low - bankroll >= Scaled(limit, low)
    ensures high - bankroll >= Scaled(limit, high)
  {
    ProductSign(1.0 - limit, high - low);
    assert (1.0 - limit) * (high - low) == (high - low) - (limit * high - limit * low);
  }

  lemma {:induction false} PassKeepsBreaker(a: Account, cfg: ManagerConfig, stamps: seq<Stamp>)
    requires PassOver(a, stamps) && BreakerHolds(a, cfg) && a.peak > 0.0 && cfg.drawdownLimit > 0.0
    ensures BreakerHolds(SettleAll(a, cfg, stamps), cfg) && SettleAll(a, cfg, stamps).peak > 0.0
  {
    if stamps != [] {
      PassPrefix(a, cfg, stamps);
      PassKeepsBreaker(a, cfg, stamps[..|stamps| - 1]);
      SettleKeepsBreaker(SettleAll(a, cfg, stamps[..|stamps| - 1]), cfg, stamps[|stamps| - 1]);
    }
  }
}
