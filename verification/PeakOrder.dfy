/** When the order of a settlement pass can matter to the peak, and how far. */
module PeakOrder {
  import opened Prelude
  import opened Hub
  import opened Risk
  import opened RiskManager
  import opened OrderFree
  import opened WorstOrder

  /** What all orders of the pass leave in the bank. */
  ghost function Final(a: Account, hs: HubState): real {
    a.bankroll + NetSum(a, hs, Due(a, hs))
  }

  /** Settling gainers next: the bankroll rises and takes the peak along. */
  lemma {:induction false} GainersNext(a: Account, cfg: ManagerConfig, hs: HubState, done: seq<Stamp>,
                                       gainers: set<string>)
    returns (stamps: seq<Stamp>)
    requires PassOver(a, done) && Reported(hs, done) && gainers <= Due(a, hs) && gainers !! SlugSet(done)
    requires forall s | s in gainers :: PnlOf(a, hs, s) >= 0.0
    requires SettleAll(a, cfg, done).bankroll <= SettleAll(a, cfg, done).peak
    ensures PassOver(a, stamps) && Reported(hs, stamps) && SlugSet(stamps) == SlugSet(done) + gainers
    ensures var before, r := SettleAll(a, cfg, done), SettleAll(a, cfg, stamps);
      before.bankroll <= r.bankroll && r.peak == MaxReal(before.peak, r.bankroll)
    decreases gainers
  {
    if gainers == {} {
      stamps := done;
      assert SlugSet(done) + gainers == SlugSet(done);
    } else {
      var slug :| slug in gainers;
      stamps := GainersNext(a, cfg, hs, done, gainers - {slug});
      assert SlugSet(done) + (gainers - {slug}) + {slug} == SlugSet(done) + gainers;
      OneMore(a, cfg, hs, stamps, slug);
      stamps := stamps + [StampFor(hs, slug, 0)];
    }
  }

  /** The due slugs that gain, and the others. */
  ghost function Gainers(a: Account, hs: HubState): set<string> {
    set s | s in Due(a, hs) && PnlOf(a, hs, s) > 0.0
  }

  lemma SplitDue(a: Account, hs: HubState)
    ensures var gainers, losers := Gainers(a, hs), Due(a, hs) - Gainers(a, hs);
      NetSum(a, hs, gainers) == GainSum(a, hs, Due(a, hs)) && gainers + losers == Due(a, hs)
  {
    var gainers, losers := Gainers(a, hs), Due(a, hs) - Gainers(a, hs);
    assert gainers + losers == Due(a, hs);
    LosersGainNothing(a, hs, gainers, losers);
    GainersOnly(a, hs, gainers);
  }

  lemma GainsFirst(a: Account, cfg: ManagerConfig, hs: HubState) returns (stamps: seq<Stamp>)
    requires a.bankroll <= a.peak
    ensures PassFor(a, hs, stamps)
    ensures SettleAll(a, cfg, stamps).peak == MaxReal(a.peak, a.bankroll + GainSum(a, hs, Due(a, hs)))
  {
    SplitDue(a, hs);
    assert SlugSet([]) == {};
    var gains := GainersNext(a, cfg, hs, [], Gainers(a, hs));
    BankrollAfter(a, cfg, hs, gains, Gainers(a, hs));
    stamps := LosersNext(a, cfg, hs, gains, Due(a, hs) - Gainers(a, hs));
    WholePass(a, hs, stamps);
  }

  lemma LossesThenGains(a: Account, cfg: ManagerConfig, hs: HubState) returns (stamps: seq<Stamp>)
    requires a.bankroll <= a.peak
    ensures PassOver(a, stamps) && Reported(hs, stamps) && SlugSet(stamps) == Due(a, hs)
    ensures var r := SettleAll(a, cfg, stamps); r.peak == MaxReal(a.peak, r.bankroll)
  {
    SplitDue(a, hs);
    assert SlugSet([]) == {};
    var losses := LosersNext(a, cfg, hs, [], Due(a, hs) - Gainers(a, hs));
    stamps := GainersNext(a, cfg, hs, losses, Gainers(a, hs));
  }

  lemma LossesFirst(a: Account, cfg: ManagerConfig, hs: HubState) returns (stamps: seq<Stamp>)
    requires a.bankroll <= a.peak
    ensures PassFor(a, hs, stamps)
    ensures SettleAll(a, cfg, stamps).peak == MaxReal(a.peak, Final(a, hs))
  {
    stamps := LossesThenGains(a, cfg, hs);
    WholePass(a, hs, stamps);
    BankrollAfter(a, cfg, hs, stamps, Due(a, hs));
  }

  /** Both ends of the peak's range are reached: the top with the gains first, the bottom with the losses first. */
  lemma PeakBoundsAreReached(a: Account, cfg: ManagerConfig, hs: HubState) returns (top: seq<Stamp>, bottom: seq<Stamp>)
    requires a.bankroll <= a.peak
    ensures PassFor(a, hs, top) && PassFor(a, hs, bottom)
    ensures SettleAll(a, cfg, top).peak == MaxReal(a.peak, a.bankroll + GainSum(a, hs, Due(a, hs)))
    ensures SettleAll(a, cfg, bottom).peak == MaxReal(a.peak, Final(a, hs))
    ensures forall stamps | PassFor(a, hs, stamps) ::
      SettleAll(a, cfg, bottom).peak <= SettleAll(a, cfg, stamps).peak <= SettleAll(a, cfg, top).peak
  {
    top := GainsFirst(a, cfg, hs);
    bottom := LossesFirst(a, cfg, hs);
    forall stamps | PassFor(a, hs, stamps)
      ensures SettleAll(a, cfg, bottom).peak <= SettleAll(a, cfg, stamps).peak <= SettleAll(a, cfg, top).peak
    {
      PeakInRange(a, cfg, hs, stamps);
    }
  }

  /**
   All orders of a pass leave the same peak exactly when nothing due loses, or the gains alone do not lift the
   bankroll above the old peak.
   */
  lemma PeakIsOrderFreeIff(a: Account, cfg: ManagerConfig, hs: HubState)
    requires a.bankroll <= a.peak
    ensures (forall one, two | PassFor(a, hs, one) && PassFor(a, hs, two) ::
               SettleAll(a, cfg, one).peak == SettleAll(a, cfg, two).peak)
       <==> LossSum(a, hs, Due(a, hs)) <= 0.0 || a.bankroll + GainSum(a, hs, Due(a, hs)) <= a.peak
  {
    LossSumNotNegative(a, hs, Due(a, hs));
    NetIsGainsLessLosses(a, hs, Due(a, hs));
    var top, bottom := PeakBoundsAreReached(a, cfg, hs);
    if LossSum(a, hs, Due(a, hs)) <= 0.0 || a.bankroll + GainSum(a, hs, Due(a, hs)) <= a.peak {
      assert SettleAll(a, cfg, bottom).peak == SettleAll(a, cfg, top).peak;
    }
  }

  lemma PeakInRange(a: Account, cfg: ManagerConfig, hs: HubState, stamps: seq<Stamp>)
    requires PassFor(a, hs, stamps) && a.bankroll <= a.peak
    ensures var peak := SettleAll(a, cfg, stamps).peak;
      MaxReal(a.peak, Final(a, hs)) <= peak <= MaxReal(a.peak, a.bankroll + GainSum(a, hs, Due(a, hs)))
  {
    assert SlugSet(stamps) == Due(a, hs);
    BankrollAfter(a, cfg, hs, stamps, Due(a, hs));
    PassPeak(a, cfg, hs, stamps);
  }
}
