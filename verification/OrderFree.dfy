/** A settlement pass walks a map in whatever order it comes: what that order can and cannot change. */
module OrderFree {
  import opened Prelude
  import opened Hub
  import opened Signal
  import opened Risk
  import opened RiskManager
  import opened Ledger
  import opened Sizing
  import opened Kelly

  /** The stamped outcomes are those the hub reports. */
  ghost predicate OutcomesOf(hs: HubState, stamps: seq<Stamp>) {
    forall s | s in stamps :: s.slug in hs.markets && s.outcome == hs.markets[s.slug].winningOutcome
  }

  ghost predicate Settleable(a: Account, hs: HubState, slugs: set<string>) {
    forall s | s in slugs :: s in a.positions && s in hs.markets
  }

  predicate Wins(a: Account, hs: HubState, slug: string)
    requires slug in a.positions && slug in hs.markets
  {
    DidWin(a.positions[slug].dir, hs.markets[slug].winningOutcome)
  }

  function PnlOf(a: Account, hs: HubState, slug: string): real
    requires slug in a.positions && slug in hs.markets
  {
    Pnl(a.positions[slug], Wins(a, hs, slug))
  }

  /** The profit of each of the slugs, with losses cut to zero when only gains count. */
  ghost function PnlMap(a: Account, hs: HubState, slugs: set<string>, gainsOnly: bool): map<string, real>
    requires Settleable(a, hs, slugs)
  {
    map s | s in slugs :: if gainsOnly then MaxReal(PnlOf(a, hs, s), 0.0) else PnlOf(a, hs, s)
  }

  ghost function Winners(a: Account, hs: HubState, slugs: set<string>): set<string>
    requires Settleable(a, hs, slugs)
  {
    set s | s in slugs && Wins(a, hs, s)
  }

  lemma PnlMapGrows(a: Account, hs: HubState, slugs: set<string>, slug: string, gainsOnly: bool)
    requires Settleable(a, hs, slugs + {slug}) && slug !in slugs
    ensures MapSum(PnlMap(a, hs, slugs + {slug}, gainsOnly))
         == MapSum(PnlMap(a, hs, slugs, gainsOnly))
            + if gainsOnly then MaxReal(PnlOf(a, hs, slug), 0.0) else PnlOf(a, hs, slug)
  {
    var all := PnlMap(a, hs, slugs + {slug}, gainsOnly);
    assert all - {slug} == PnlMap(a, hs, slugs, gainsOnly);
    MapSumSplit(all, slug);
  }

  lemma WinnersGrow(a: Account, hs: HubState, slugs: set<string>, slug: string)
    requires Settleable(a, hs, slugs + {slug}) && slug !in slugs
    ensures |Winners(a, hs, slugs + {slug})| == |Winners(a, hs, slugs)| + if Wins(a, hs, slug) then 1 else 0
  {
    assert Winners(a, hs, slugs + {slug}) == Winners(a, hs, slugs) + if Wins(a, hs, slug) then {slug} else {};
  }

  /** A pass in closed form: everything but the peak and the breaker is a function of the set of slugs settled. */
  ghost predicate TotalsOf(a: Account, hs: HubState, slugs: set<string>, r: Account)
    requires Settleable(a, hs, slugs)
  {
    && r.bankroll == a.bankroll + MapSum(PnlMap(a, hs, slugs, false))
    && r.totalPnL == a.totalPnL + MapSum(PnlMap(a, hs, slugs, false))
    && r.wins == a.wins + |Winners(a, hs, slugs)|
    && r.wins + r.losses == a.wins + a.losses + |slugs|
    && r.positions == a.positions - slugs
  }

  /** The peak lies between what the result forces and what settling all the gains first would reach. */
  ghost predicate PeakBetween(a: Account, hs: HubState, slugs: set<string>, r: Account)
    requires Settleable(a, hs, slugs)
  {
    && MaxReal(a.peak, r.bankroll) <= r.peak
    && r.peak <= MaxReal(a.peak, a.bankroll + MapSum(PnlMap(a, hs, slugs, true)))
    && r.bankroll <= a.bankroll + MapSum(PnlMap(a, hs, slugs, true))
  }

  lemma TotalsGrow(a: Account, cfg: ManagerConfig, hs: HubState, slugs: set<string>, r: Account, s: Stamp)
    requires Settleable(a, hs, slugs + {s.slug}) && s.slug !in slugs && TotalsOf(a, hs, slugs, r)
    requires s.outcome == hs.markets[s.slug].winningOutcome
    ensures r.positions[s.slug] == a.positions[s.slug]
    ensures TotalsOf(a, hs, slugs + {s.slug}, SettleOne(r, cfg, s))
  {
    PnlMapGrows(a, hs, slugs, s.slug, false);
    WinnersGrow(a, hs, slugs, s.slug);
    assert a.positions - slugs - {s.slug} == a.positions - (slugs + {s.slug});
    assert |slugs + {s.slug}| == |slugs| + 1;
  }

  lemma PeakGrows(a: Account, cfg: ManagerConfig, hs: HubState, slugs: set<string>, r: Account, s: Stamp)
    requires Settleable(a, hs, slugs + {s.slug}) && s.slug !in slugs && PeakBetween(a, hs, slugs, r)
    requires s.outcome == hs.markets[s.slug].winningOutcome
    requires s.slug in r.positions && r.positions[s.slug] == a.positions[s.slug]
    ensures PeakBetween(a, hs, slugs + {s.slug}, SettleOne(r, cfg, s))
  {
    PnlMapGrows(a, hs, slugs, s.slug, true);
  }

  lemma {:induction false} PassTotals(a: Account, cfg: ManagerConfig, hs: HubState, stamps: seq<Stamp>)
    requires PassOver(a, stamps) && OutcomesOf(hs, stamps)
    ensures Settleable(a, hs, SlugSet(stamps))
    ensures TotalsOf(a, hs, SlugSet(stamps), SettleAll(a, cfg, stamps))
  {
    if stamps == [] {
      assert SlugSet(stamps) == {};
      assert PnlMap(a, hs, {}, false) == map[];
      assert Winners(a, hs, {}) == {};
      assert a.positions - {} == a.positions;
    } else {
      var rest, last := stamps[..|stamps| - 1], stamps[|stamps| - 1];
      PassPrefix(a, cfg, stamps);
      PassTotals(a, cfg, hs, rest);
      assert last in stamps;
      TotalsGrow(a, cfg, hs, SlugSet(rest), SettleAll(a, cfg, rest), last);
    }
  }

  lemma {:induction false} PassPeak(a: Account, cfg: ManagerConfig, hs: HubState, stamps: seq<Stamp>)
    requires PassOver(a, stamps) && OutcomesOf(hs, stamps) && a.bankroll <= a.peak
    ensures Settleable(a, hs, SlugSet(stamps))
    ensures PeakBetween(a, hs, SlugSet(stamps), SettleAll(a, cfg, stamps))
  {
    if stamps == [] {
      assert SlugSet(stamps) == {};
      assert PnlMap(a, hs, {}, true) == map[];
    } else {
      var rest, last := stamps[..|stamps| - 1], stamps[|stamps| - 1];
      PassPrefix(a, cfg, stamps);
      PassPeak(a, cfg, hs, rest);
      assert last in stamps;
      PeakGrows(a, cfg, hs, SlugSet(rest), SettleAll(a, cfg, rest), last);
    }
  }

  /** The breaker trips at most once in a pass, and only an account that was not halted before. */
  lemma {:induction false} PassTripsOnce(a: Account, cfg: ManagerConfig, stamps: seq<Stamp>)
    requires PassOver(a, stamps)
    ensures var r := SettleAll(a, cfg, stamps);
      && a.haltCount <= r.haltCount <= a.haltCount + 1
      && (r.haltCount > a.haltCount <==> !a.halted && r.halted)
      && (a.halted ==> r.halted)
  {
    if stamps != [] {
      PassPrefix(a, cfg, stamps);
      PassTripsOnce(a, cfg, stamps[..|stamps| - 1]);
    }
  }

  /**
   Two passes over the same account and the same hub, in any two orders, agree on all but the peak and the breaker.
   */
  lemma OrderDoesNotMatter(a: Account, cfg: ManagerConfig, hs: HubState, one: seq<Stamp>, two: seq<Stamp>)
    requires PassFor(a, hs, one) && PassFor(a, hs, two)
    ensures var r, q := SettleAll(a, cfg, one), SettleAll(a, cfg, two);
      && r.bankroll == q.bankroll && r.totalPnL == q.totalPnL && r.wins == q.wins && r.losses == q.losses
      && r.positions == q.positions && r.haltCount <= a.haltCount + 1 && q.haltCount <= a.haltCount + 1
      && (a.bankroll <= a.peak ==>
            && Settleable(a, hs, SlugSet(one))
            && PeakBetween(a, hs, SlugSet(one), r) && PeakBetween(a, hs, SlugSet(one), q))
  {
    PassTotals(a, cfg, hs, one);
    PassTotals(a, cfg, hs, two);
    PassTripsOnce(a, cfg, one);
    PassTripsOnce(a, cfg, two);
    assert SlugSet(one) == SlugSet(two);
    if a.bankroll <= a.peak {
      PassPeak(a, cfg, hs, one);
      PassPeak(a, cfg, hs, two);
    }
  }

  /** Positions that the configuration lets the bot hold, none above its Kelly stake on what is in the bank. */
  ghost predicate Holdable(a: Account, cfg: ManagerConfig) {
    && (forall s | s in a.positions :: PositionWithin(cfg, a.positions[s]) && a.positions[s].slug == s)
    && (forall s | s in a.positions ::
          && a.positions[s].kellyFrac == KellyFraction(a.positions[s].modelProb, a.positions[s].price)
          && a.positions[s].cost <= Stake(a.positions[s].kellyFrac, cfg.fractionalKelly, a.bankroll))
    && Exposure(a.positions) <= cfg.maxExposure
  }

  /** An Up and a Down position at one half, of so many shares, both resolved as Up. */
  function LoserAndWinner(bankroll: real, peak: real, lost: real, won: real): Account {
    NewAccount(DEFAULT_MANAGER).(bankroll := bankroll, peak := peak, positions := map[
      "l" := Position("l", BuyDown, "ld", 0.5, lost, 0.5 * lost, 0.2, 0.6, 0),
      "w" := Position("w", BuyUp, "wu", 0.5, won, 0.5 * won, 0.2, 0.6, 0)])
  }

  function BothUp(): HubState {
    EMPTY_HUB.(markets := map["l" := Market("l", "lu", "ld", 0, 1, Resolved, "up", 2),
                              "w" := Market("w", "wu", "wd", 0, 1, Resolved, "up", 2)])
  }

  lemma LoserAndWinnerHoldable(bankroll: real, peak: real, lost: real, won: real)
    requires 1.0 <= lost && 1.0 <= won && 10.0 * lost <= bankroll && 10.0 * won <= bankroll && bankroll <= 200.0
    ensures Holdable(LoserAndWinner(bankroll, peak, lost, won), DEFAULT_MANAGER)
  {
    var positions := LoserAndWinner(bankroll, peak, lost, won).positions;
    ExposureWithout(positions, "l");
    ExposureWithout(positions - {"l"}, "w");
    assert Costs(positions - {"l"} - {"w"}) == map[];
    assert KellyFraction(0.6, 0.5) == 0.2 && Stake(0.2, 0.25, bankroll) == bankroll / 20.0;
  }

  lemma BothOrders(bankroll: real, peak: real, lost: real, won: real, l: Stamp, w: Stamp)
    requires l == Stamp("l", "up", 3) && w == Stamp("w", "up", 3)
    ensures var a := LoserAndWinner(bankroll, peak, lost, won);
      && PassFor(a, BothUp(), [l, w]) && PassFor(a, BothUp(), [w, l])
      && SettleAll(a, DEFAULT_MANAGER, [l, w]) == SettleOne(SettleOne(a, DEFAULT_MANAGER, l), DEFAULT_MANAGER, w)
      && SettleAll(a, DEFAULT_MANAGER, [w, l]) == SettleOne(SettleOne(a, DEFAULT_MANAGER, w), DEFAULT_MANAGER, l)
    ensures !DidWin(BuyDown, "up") && DidWin(BuyUp, "up")
  {
    assert ToLower("up") == "up";
    TwoStamps(LoserAndWinner(bankroll, peak, lost, won), DEFAULT_MANAGER, BothUp(), l, w);
    TwoStamps(LoserAndWinner(bankroll, peak, lost, won), DEFAULT_MANAGER, BothUp(), w, l);
  }

  /**
   The breaker is not among the things that agree. With 91 in the bank below a peak of 120, losing 4.50 and then
   winning 4.50 trips it, the other way round does not: two bets within every default limit.
   */
  lemma BreakerDependsOnOrder()
    ensures exists a: Account, hs: HubState, one, two ::
      && PassFor(a, hs, one) && PassFor(a, hs, two) && Holdable(a, DEFAULT_MANAGER)
      && !a.halted && BreakerHolds(a, DEFAULT_MANAGER)
      && SettleAll(a, DEFAULT_MANAGER, one).halted && !SettleAll(a, DEFAULT_MANAGER, two).halted
  {
    var l, w := Stamp("l", "up", 3), Stamp("w", "up", 3);
    var a := LoserAndWinner(91.0, 120.0, 9.0, 9.0);
    LoserAndWinnerHoldable(91.0, 120.0, 9.0, 9.0);
    BothOrders(91.0, 120.0, 9.0, 9.0, l, w);
    assert SettleOne(a, DEFAULT_MANAGER, l).halted;
    assert !SettleOne(SettleOne(a, DEFAULT_MANAGER, w), DEFAULT_MANAGER, l).halted;
    assert !a.halted && BreakerHolds(a, DEFAULT_MANAGER);
    assert SettleAll(a, DEFAULT_MANAGER, [l, w]).halted && !SettleAll(a, DEFAULT_MANAGER, [w, l]).halted;
  }

  /** Nor is the peak: from 100, winning 5 before losing 4 leaves it at 105, the other way round at 101. */
  lemma PeakDependsOnOrder()
    ensures exists a: Account, hs: HubState, one, two ::
      && PassFor(a, hs, one) && PassFor(a, hs, two) && Holdable(a, DEFAULT_MANAGER)
      && SettleAll(a, DEFAULT_MANAGER, one).peak != SettleAll(a, DEFAULT_MANAGER, two).peak
  {
    var l, w := Stamp("l", "up", 3), Stamp("w", "up", 3);
    var a := LoserAndWinner(100.0, 100.0, 8.0, 10.0);
    LoserAndWinnerHoldable(100.0, 100.0, 8.0, 10.0);
    BothOrders(100.0, 100.0, 8.0, 10.0, l, w);
    assert SettleAll(a, DEFAULT_MANAGER, [w, l]).peak == 105.0;
    assert SettleAll(a, DEFAULT_MANAGER, [l, w]).peak == 101.0;
  }

  lemma TwoStamps(a: Account, cfg: ManagerConfig, hs: HubState, s: Stamp, t: Stamp)
    requires s.slug != t.slug && a.positions.Keys == {s.slug, t.slug}
    requires hs.IsResolved(s.slug) && s.outcome == hs.markets[s.slug].winningOutcome
    requires hs.IsResolved(t.slug) && t.outcome == hs.markets[t.slug].winningOutcome
    ensures PassFor(a, hs, [s, t])
    ensures SettleAll(a, cfg, [s, t]) == SettleOne(SettleOne(a, cfg, s), cfg, t)
  {
    assert [s, t][..1] == [s] && [s][..0] == [];
    assert SlugSet([s, t]) == {s.slug, t.slug};
    assert SettleAll(a, cfg, [s]) == SettleOne(SettleAll(a, cfg, []), cfg, s);
  }
}
