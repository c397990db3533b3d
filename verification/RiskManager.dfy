/** The risk manager as the bot runs it: fields changed in place, maps walked in no particular order. */
module RiskManager {
  import opened Prelude
  import opened Hub
  import opened Signal
  import opened Kelly
  import opened Risk

  /** A clock that never runs backwards and advances by an unknown amount between readings. */
  class Clock {
    var now: Time

    constructor (start: Time)
      ensures now == start
    {
      now := start;
    }

    method Now() returns (t: Time)
      modifies this
      ensures old(now) <= now && t == now
    {
      var elapsed: int :| elapsed >= 0;
      now := now + elapsed;
      t := now;
    }
  }

  /** The stamps carry clock readings in order, all taken in [from, to]. */
  ghost predicate StampedBetween(stamps: seq<Stamp>, from: Time, to: Time) {
    && (forall i | 0 <= i < |stamps| :: from <= stamps[i].at <= to)
    && (forall i, j | 0 <= i < j < |stamps| :: stamps[i].at <= stamps[j].at)
  }

  /** A pass with the positions in todo still to visit. */
  ghost predicate PassSoFar(a: Account, hs: HubState, todo: set<string>, stamps: seq<Stamp>) {
    && PassOver(a, stamps)
    && SlugSet(stamps) == (set s | s in a.positions && s !in todo && hs.IsResolved(s))
    && forall s | s in stamps :: hs.IsResolved(s.slug) && s.outcome == hs.markets[s.slug].winningOutcome
  }

  /** The open positions whose markets the hub reports as resolved. */
  ghost function Due(a: Account, hs: HubState): set<string> {
    set s | s in a.positions && hs.IsResolved(s)
  }

  /**
   What a whole pass does, given the hub: it settles exactly the open positions whose markets are resolved, in some
   order.
   */
  ghost predicate PassFor(a: Account, hs: HubState, stamps: seq<Stamp>) {
    PassSoFar(a, hs, {}, stamps)
  }

  /** The state of a pass under way: what is settled so far, what the account has become, which callbacks were made. */
  ghost predicate UnderWay(a: Account, hs: HubState, cfg: ManagerConfig, todo: set<string>, stamps: seq<Stamp>,
                           now: Account, calls: seq<SettleCall>) {
    PassSoFar(a, hs, todo, stamps) && now == SettleAll(a, cfg, stamps) && calls == CallsOf(a, cfg, stamps)
  }

  function StampFor(hs: HubState, slug: string, at: Time): Stamp
    requires hs.IsResolved(slug)
  {
    Stamp(slug, hs.markets[slug].winningOutcome, at)
  }

  lemma VisitSkips(a: Account, hs: HubState, cfg: ManagerConfig, todo: set<string>, stamps: seq<Stamp>,
                   now: Account, calls: seq<SettleCall>, slug: string)
    requires UnderWay(a, hs, cfg, todo, stamps, now, calls) && slug in todo && !hs.IsResolved(slug)
    ensures UnderWay(a, hs, cfg, todo - {slug}, stamps, now, calls)
  {
  }

  lemma VisitSettles(a: Account, hs: HubState, cfg: ManagerConfig, todo: set<string>, stamps: seq<Stamp>,
                     now: Account, calls: seq<SettleCall>, slug: string, at: Time)
    requires UnderWay(a, hs, cfg, todo, stamps, now, calls) && slug in todo && slug in a.positions
    requires hs.IsResolved(slug)
    ensures slug in now.positions
    ensures var s := StampFor(hs, slug, at);
      UnderWay(a, hs, cfg, todo - {slug}, stamps + [s], SettleOne(now, cfg, s), calls + [CallFor(now, cfg, s)])
  {
    StampAdded(a, cfg, stamps, StampFor(hs, slug, at));
  }

  lemma StampedGrows(stamps: seq<Stamp>, from: Time, to: Time, s: Stamp)
    requires StampedBetween(stamps, from, to) && from <= to <= s.at
    ensures StampedBetween(stamps, from, s.at) && StampedBetween(stamps + [s], from, s.at)
  {
  }

  lemma StampAdded(a: Account, cfg: ManagerConfig, stamps: seq<Stamp>, s: Stamp)
    requires PassOver(a, stamps) && s.slug in a.positions && s.slug !in SlugSet(stamps)
    ensures PassOver(a, stamps + [s])
    ensures SlugSet(stamps + [s]) == SlugSet(stamps) + {s.slug}
    ensures s.slug in SettleAll(a, cfg, stamps).positions
    ensures SettleAll(a, cfg, stamps + [s]) == SettleOne(SettleAll(a, cfg, stamps), cfg, s)
    ensures CallsOf(a, cfg, stamps + [s]) == CallsOf(a, cfg, stamps) + [CallFor(SettleAll(a, cfg, stamps), cfg, s)]
  {
    var all := stamps + [s];
    assert all[..|all| - 1] == stamps;
    forall i | 0 <= i < |stamps|
      ensures stamps[i].slug != s.slug
    {
      assert stamps[i] in stamps;
    }
    assert SlugSet(all) == SlugSet(stamps) + {s.slug};
  }

  /** One answer of the API and when it arrived. */
  datatype Answer = Answer(slug: string, outcome: string, at: Time)

  /** The hub after these answers, each of which resolves a market unless it is resolved already. */
  function ForceAll(hs: HubState, log: seq<Answer>): HubState {
    if log == [] then hs
    else
      var last := log[|log| - 1];
      Apply(ForceAll(hs, log[..|log| - 1]), ForceResolved(last.slug, last.outcome, last.at))
  }

  /** Answers to different questions, in the order of time. */
  ghost predicate InTurn(log: seq<Answer>, from: Time, to: Time) {
    && (forall i, j | 0 <= i < j < |log| :: log[i].slug != log[j].slug && log[i].at <= log[j].at)
    && (forall i | 0 <= i < |log| :: from <= log[i].at <= to)
  }

  lemma RestrictGrows(answers: map<string, string>, slugs: set<string>, slug: string)
    ensures Restrict(answers, slugs + {slug})
         == if slug in answers then Restrict(answers, slugs)[slug := answers[slug]] else Restrict(answers, slugs)
  {
  }

  lemma AnswerAdded(hs: HubState, log: seq<Answer>, from: Time, to: Time, a: Answer)
    requires InTurn(log, from, to) && from <= to <= a.at && forall x | x in log :: x.slug != a.slug
    ensures InTurn(log + [a], from, a.at)
    ensures ForceAll(hs, log + [a]) == Apply(ForceAll(hs, log), ForceResolved(a.slug, a.outcome, a.at))
    ensures AnswerMap(log + [a]) == AnswerMap(log)[a.slug := a.outcome]
  {
    assert (log + [a])[..|log|] == log;
  }

  /** The answers for these slugs. */
  function Restrict(answers: map<string, string>, slugs: set<string>): map<string, string> {
    map s | s in answers && s in slugs :: answers[s]
  }

  /** Between two hub states exactly the unresolved markets with an answer changed: they resolved with that answer. */
  ghost predicate Forced(before: HubState, after: HubState, answers: map<string, string>, from: Time, to: Time) {
    && after == before.(markets := after.markets)
    && after.markets.Keys == before.markets.Keys
    && forall s | s in before.markets ::
         if s in answers && before.markets[s].status == Trading
         then ForcedTo(before.markets[s], after.markets[s], answers[s], from, to)
         else after.markets[s] == before.markets[s]
  }

  predicate ForcedTo(before: Market, after: Market, outcome: string, from: Time, to: Time) {
    && after == before.(status := Resolved, winningOutcome := outcome, resolvedAt := after.resolvedAt)
    && from / SECOND <= after.resolvedAt <= to / SECOND
  }

  lemma ForcedNext(first: HubState, mid: HubState, answers: map<string, string>, from: Time, to: Time,
                   slug: string, outcome: string, at: Time)
    requires Forced(first, mid, answers, from, to) && slug !in answers && from <= to <= at
    ensures Forced(first, Apply(mid, ForceResolved(slug, outcome, at)), answers[slug := outcome], from, at)
  {
  }

  /** The answers of a log, by slug. */
  function AnswerMap(log: seq<Answer>): map<string, string> {
    if log == [] then map[]
    else
      var last := log[|log| - 1];
      AnswerMap(log[..|log| - 1])[last.slug := last.outcome]
  }

  lemma {:induction false} AnswersNamed(log: seq<Answer>, slug: string)
    ensures slug in AnswerMap(log) <==> exists i | 0 <= i < |log| :: log[i].slug == slug
  {
    if log != [] {
      AnswersNamed(log[..|log| - 1], slug);
    }
  }

  /** Answers in turn force exactly the markets they name. */
  lemma {:induction false} AnswersForce(hs: HubState, log: seq<Answer>, from: Time, to: Time)
    requires InTurn(log, from, to) && from <= to
    ensures Forced(hs, ForceAll(hs, log), AnswerMap(log), from, to)
  {
    if log != [] {
      var rest, last := log[..|log| - 1], log[|log| - 1];
      AnswersForce(hs, rest, from, last.at);
      AnswersNamed(rest, last.slug);
      ForcedNext(hs, ForceAll(hs, rest), AnswerMap(rest), from, last.at, last.slug, last.outcome, last.at);
    }
  }

  /** A known market that still trades although its window ended before this time. */
  predicate EndedUnresolved(hs: HubState, slug: string, time: Time) {
    slug in hs.markets && hs.markets[slug].status == Trading && hs.markets[slug].endTime < time
  }

  /** Of these slugs, the ones whose known market is unresolved more than half a minute after its window. */
  function Overdue(slugs: set<string>, hs: HubState, now: Time): set<string> {
    set s | s in slugs && s in hs.markets && !hs.IsResolved(s) && now - hs.markets[s].endTime > 30 * SECOND
  }

  datatype Report = Report(bankroll: real, totalPnL: real, openPositions: nat, exposure: real,
                           wins: nat, losses: nat, winRate: real, halted: bool)

  class Manager {
    const cfg: ManagerConfig
    var bankroll: real
    var peakBankroll: real
    var positions: map<string, Position>
    var settlements: seq<Settlement>
    var totalPnL: real
    var wins: nat
    var losses: nat
    var halted: bool
    var haltedAt: Time
    var haltCount: nat

    function Value(): Account
      reads this
    {
      Account(bankroll, peakBankroll, positions, settlements, totalPnL, wins, losses, halted, haltedAt, haltCount)
    }

    constructor (cfg: ManagerConfig)
      ensures this.cfg == cfg && Value() == NewAccount(cfg)
    {
      this.cfg := cfg;
      bankroll, peakBankroll := cfg.bankroll, cfg.bankroll;
      positions, settlements := map[], [];
      totalPnL, wins, losses := 0.0, 0, 0;
      halted, haltedAt, haltCount := false, 0, 0;
    }

    method RestoreBankroll(amount: real)
      modifies this
      ensures Value() == Restore(old(Value()), amount)
    {
      bankroll := amount;
      peakBankroll := amount;
    }

    /** Sums the costs in whatever order the map gives them. */
    method CurrentExposure() returns (total: real)
      ensures total == Exposure(positions)
    {
      total := 0.0;
      ghost var costs := Costs(positions);
      ghost var left := costs;
      var todo := positions.Keys;
      while todo != {}
        invariant todo <= positions.Keys && left.Keys == todo
        invariant forall s | s in left :: left[s] == positions[s].cost
        invariant total + MapSum(left) == MapSum(costs)
        decreases |todo|
      {
        var s :| s in todo;
        MapSumSplit(left, s);
        total := total + positions[s].cost;
        todo, left := todo - {s}, left - {s};
      }
      assert left == map[];
    }

    method CheckCooldown(now: Time)
      modifies this
      ensures Value() == Risk.CheckCooldown(old(Value()), cfg, now)
    {
      if !halted || cfg.haltCooldown <= 0 {
        return;
      }
      if now - haltedAt >= cfg.haltCooldown {
        halted := false;
        peakBankroll := bankroll;
      }
    }

    /** Turns a decision into a sized order, or None. */
    method Evaluate(dec: Decision, h: Hub, now: Time) returns (order: Option<Order>)
      requires h.Valid()
      modifies this
      ensures (Value(), order) == EvaluateOrder(old(Value()), cfg, dec, h.State(), now)
    {
      if halted {
        CheckCooldown(now);
      }
      if halted {
        return None;
      }
      order := Quoted(dec, h);
    }

    /** Evaluate's checks and sizing once trading is allowed. */
    method Quoted(dec: Decision, h: Hub) returns (order: Option<Order>)
      requires h.Valid()
      ensures order == Quote(cfg, Value(), dec, h.State())
    {
      if !dec.shouldTrade || dec.market in positions {
        return None;
      }
      var ms := h.GetMarketBySlug(dec.market);
      if ms == null {
        return None;
      }
      var tokenID: string, modelProb: real := "", 0.0;
      match dec.dir {
        case BuyUp => tokenID, modelProb := ms.upToken, dec.modelProb;
        case BuyDown => tokenID, modelProb := ms.downToken, 1.0 - dec.modelProb;
        case Hold => return None;
      }
      var ob := h.GetOrderbook(tokenID);
      if ob == null {
        return None;
      }
      var entryPrice, ok := ob.BestAsk();
      if !ok || entryPrice <= 0.0 || entryPrice >= 1.0 {
        return None;
      }
      if entryPrice < cfg.minEntryPrice {
        return None;
      }
      if cfg.maxEntryPrice > 0.0 && entryPrice > cfg.maxEntryPrice {
        return None;
      }
      order := Sized(dec, tokenID, modelProb, entryPrice);
    }

    /** Evaluate's sizing: fractional Kelly, then the position cap, then the exposure cap. */
    method Sized(dec: Decision, tokenID: string, modelProb: real, entryPrice: real) returns (order: Option<Order>)
      requires entryPrice != 0.0
      ensures order == SizeOrder(cfg, Value(), dec, tokenID, modelProb, entryPrice)
    {
      var kellyFrac := KellyFraction(modelProb, entryPrice);
      if kellyFrac <= 0.0 {
        return None;
      }
      var betCost := Stake(kellyFrac, cfg.fractionalKelly, bankroll);
      if betCost > cfg.maxPosition {
        betCost := cfg.maxPosition;
      }
      var currentExp := CurrentExposure();
      if currentExp + betCost > cfg.maxExposure {
        var remaining := cfg.maxExposure - currentExp;
        if remaining < cfg.minBet {
          return None;
        }
        betCost := remaining;
      }
      if betCost < cfg.minBet {
        return None;
      }
      var shares := Shares(betCost, entryPrice);
      return Some(Order(dec.market, dec.dir, tokenID, entryPrice, shares, betCost, kellyFrac, modelProb));
    }

    method OpenPosition(o: Order, now: Time)
      modifies this
      ensures Value() == Open(old(Value()), o, now)
    {
      positions := positions[o.market :=
        Position(o.market, o.dir, o.token, o.price, o.size, o.cost, o.kellyFrac, o.modelProb, now)];
    }

    /** Settles one resolved position: ledger, callback, breaker. */
    method Settle(slug: string, outcome: string, at: Time) returns (call: SettleCall)
      requires slug in positions
      modifies this
      ensures Value() == SettleOne(old(Value()), cfg, Stamp(slug, outcome, at))
      ensures call == CallFor(old(Value()), cfg, Stamp(slug, outcome, at))
      ensures call.won <==> Names(old(positions)[slug].dir, outcome)
    {
      WinsIffNamed(positions[slug].dir, outcome);
      var pos := positions[slug];
      var won := DidWin(pos.dir, outcome);
      var pnl: real;
      if won {
        pnl := WinPnl(pos.price, pos.size);
        wins := wins + 1;
      } else {
        pnl := -pos.cost;
        losses := losses + 1;
      }
      bankroll := bankroll + pnl;
      totalPnL := totalPnL + pnl;
      if bankroll > peakBankroll {
        peakBankroll := bankroll;
      }
      settlements := settlements + [Settlement(slug, pos.dir, won, pnl, pos.cost, at)];
      positions := positions - {slug};
      call := SettleCall(slug, won, pnl, outcome, bankroll);
      if Breached(peakBankroll, bankroll, cfg.drawdownLimit) && !halted {
        halted := true;
        haltedAt := at;
        haltCount := haltCount + 1;
      }
    }

    /** One turn of the settlement loop: settles the position if the hub reports its market as resolved. */
    method Visit(slug: string, h: Hub, clock: Clock) returns (call: Option<SettleCall>)
      requires h.Valid() && slug in positions
      modifies this, clock
      ensures h.Valid() && h.State() == old(h.State()) && old(clock.now) <= clock.now
      ensures !h.State().IsResolved(slug) ==> Value() == old(Value()) && clock.now == old(clock.now) && call == None
      ensures h.State().IsResolved(slug) ==>
        var s := StampFor(h.State(), slug, clock.now);
        Value() == SettleOne(old(Value()), cfg, s) && call == Some(CallFor(old(Value()), cfg, s))
    {
      var ms := h.GetMarketBySlug(slug);
      if ms == null || ms.status != Resolved {
        return None;
      }
      var outcome := ms.winningOutcome;
      var at := clock.Now();
      var made := Settle(slug, outcome, at);
      return Some(made);
    }

    /** Settles every open position whose market the hub reports as resolved, and lists the callbacks made. */
    method SettleResolved(h: Hub, clock: Clock) returns (calls: seq<SettleCall>, ghost stamps: seq<Stamp>)
      requires h.Valid()
      modifies this, clock
      ensures PassFor(old(Value()), h.State(), stamps)
      ensures old(clock.now) <= clock.now && StampedBetween(stamps, old(clock.now), clock.now)
      ensures Value() == SettleAll(old(Value()), cfg, stamps)
      ensures calls == CallsOf(old(Value()), cfg, stamps)
    {
      ghost var a := Value();
      calls, stamps := [], [];
      var todo := positions.Keys;
      while todo != {}
        invariant todo <= positions.Keys <= a.positions.Keys && h.Valid() && h.State() == old(h.State())
        invariant UnderWay(a, h.State(), cfg, todo, stamps, Value(), calls)
        invariant StampedBetween(stamps, old(clock.now), clock.now) && old(clock.now) <= clock.now
        decreases |todo|
      {
        var slug :| slug in todo;
        ghost var before, since := Value(), clock.now;
        var call := Visit(slug, h, clock);
        if call.Some? {
          ghost var s := StampFor(h.State(), slug, clock.now);
          VisitSettles(a, h.State(), cfg, todo, stamps, before, calls, slug, clock.now);
          StampedGrows(stamps, old(clock.now), since, s);
          stamps := stamps + [s];
          calls := calls + [call.value];
        } else {
          VisitSkips(a, h.State(), cfg, todo, stamps, before, calls, slug);
        }
        todo := todo - {slug};
      }
    }

    /** First half of SettleExpired, under the lock: the open, unresolved positions whose window ended over 30 s ago. */
    method CollectExpired(h: Hub, now: Time) returns (expired: set<string>)
      requires h.Valid()
      ensures expired == Overdue(positions.Keys, h.State(), now)
      ensures forall s :: s in expired <==> s in positions && EndedUnresolved(h.State(), s, now - 30 * SECOND)
    {
      expired := {};
      var todo := positions.Keys;
      while todo != {}
        invariant todo <= positions.Keys
        invariant expired == Overdue(positions.Keys - todo, h.State(), now)
        decreases |todo|
      {
        var slug :| slug in todo;
        todo := todo - {slug};
        var ms := h.GetMarketBySlug(slug);
        if ms == null || ms.status == Resolved {
          continue;
        }
        if now - ms.endTime > 30 * SECOND {
          expired := expired + {slug};
        }
      }
    }

    /**
     Second half of SettleExpired, without the lock. `answers` holds the outcomes the API reports;
     a slug it cannot answer for is skipped, and a market resolved in the meantime is left alone.
     */
    method ResolveExpired(expired: set<string>, h: Hub, answers: map<string, string>, clock: Clock)
      returns (ghost log: seq<Answer>)
      requires h.Valid()
      modifies clock, h`marketValues, h.markets.Values
      ensures h.Valid() && old(clock.now) <= clock.now
      ensures h.State() == ForceAll(old(h.State()), log) && InTurn(log, old(clock.now), clock.now)
      ensures forall a | a in log :: a.slug in expired && a.slug in answers && a.outcome == answers[a.slug]
      ensures Forced(old(h.State()), h.State(), Restrict(answers, expired), old(clock.now), clock.now)
    {
      log := [];
      var todo := expired;
      while todo != {}
        invariant todo <= expired && h.Valid() && h.markets == old(h.markets) && old(clock.now) <= clock.now
        invariant h.State() == ForceAll(old(h.State()), log) && InTurn(log, old(clock.now), clock.now)
        invariant forall a | a in log :: a.slug in expired - todo && a.slug in answers && a.outcome == answers[a.slug]
        invariant AnswerMap(log) == Restrict(answers, expired - todo)
        decreases |todo|
      {
        var slug :| slug in todo;
        RestrictGrows(answers, expired - todo, slug);
        assert expired - (todo - {slug}) == expired - todo + {slug};
        todo := todo - {slug};
        if slug in answers {
          ghost var since := clock.now;
          ForceOne(slug, h, answers[slug], clock);
          AnswerAdded(old(h.State()), log, old(clock.now), since, Answer(slug, answers[slug], clock.now));
          log := log + [Answer(slug, answers[slug], clock.now)];
        }
      }
      assert expired - todo == expired;
      AnswersForce(old(h.State()), log, old(clock.now), clock.now);
    }

    method ForceOne(slug: string, h: Hub, outcome: string, clock: Clock)
      requires h.Valid()
      modifies clock, h`marketValues, h.markets.Values
      ensures h.Valid() && h.markets == old(h.markets) && old(clock.now) <= clock.now
      ensures h.State() == Apply(old(h.State()), ForceResolved(slug, outcome, clock.now))
    {
      var now := clock.Now();
      h.ForceResolve(slug, outcome, now);
    }

    method Status() returns (s: Report)
      ensures s == Report(bankroll, totalPnL, |positions|, Exposure(positions), wins, losses, s.winRate, halted)
      ensures wins + losses == 0 ==> s.winRate == 0.0
      ensures wins + losses > 0 ==> s.winRate * (wins + losses) as real == wins as real
    {
      var total := wins + losses;
      var winRate := 0.0;
      if total > 0 {
        winRate := wins as real / total as real;
      }
      var exposure := CurrentExposure();
      s := Report(bankroll, totalPnL, |positions|, exposure, wins, losses, winRate, halted);
    }
  }
}
