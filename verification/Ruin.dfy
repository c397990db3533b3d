/**
 How the default configuration can end below zero: twenty-five windows in a row in which the bot buys, while no
 resolution arrives, and then all of them lose. Afterwards the cooldown restarts the peak below zero.
 */
module Ruin {
  import opened Prelude
  import opened Book
  import opened Hub
  import opened Signal
  import opened Risk
  import opened Ledger
  import opened RiskManager
  import opened Bot
  import opened BotLaws
  import opened Loop
  import opened Example
  import opened Solvency
  import opened OrderFree
  import opened Store
  import opened Filing
  import opened Readback

  /** Eight in the morning, UTC, on the first day of the clock. */
  const DAWN: Time := 8 * 3600 * SECOND

  const BANKROLL := 14.0

  function Defaults(c: Curves): Env {
    Env(DEFAULT_MANAGER, DEFAULT_ENGINE, c)
  }

  function Slug(i: nat): string {
    seq(i + 1, _ => 'm')
  }

  ghost function Slugs(n: nat): set<string> {
    set i | 0 <= i < n :: Slug(i)
  }

  function Opens(i: nat): Time {
    DAWN + 300 * i * SECOND
  }

  /** The i-th five-minute window of the day. */
  function Window(i: nat): Market {
    Market(Slug(i), "u" + Slug(i), "d" + Slug(i), Opens(i), Opens(i + 1), Trading, "", 0)
  }

  /** When the bot decides in it. */
  function Moment(i: nat): Time {
    Opens(i) + 100 * SECOND
  }

  lemma MomentIsGood(i: nat)
    requires i < 80
    ensures GoodTime(Window(i), Moment(i)) && Window(i).Live(Moment(i))
  {
    assert 8 * 3600 * SECOND <= Moment(i) < 15 * 3600 * SECOND;
    assert 8 <= Moment(i) / (3600 * SECOND) < 15;
  }

  lemma SlugsGrow(n: nat)
    ensures Slugs(n + 1) == Slugs(n) + {Slug(n)} && Slug(n) !in Slugs(n)
  {
    forall i | 0 <= i < n
      ensures Slug(i) != Slug(n)
    {
      assert |Slug(i)| == i + 1 && |Slug(n)| == n + 1;
    }
  }

  // ---- the climb ----

  function Ticks(k: nat, at: Time): seq<Event>
    requires k <= 48
  {
    seq(k, i requires 0 <= i < k => Event(at, Write(PriceTick(Climb()[i].price, 0))))
  }

  /** A process that starts at this time on this table. */
  function Opening(c: Curves, at: Time, found: seq<Row>): State {
    Start(Defaults(c), at, BANKROLL, found)
  }

  /** The day's first process, on an empty table. */
  function Morning(c: Curves): State {
    Opening(c, DAWN, [])
  }

  lemma {:induction false} PricesArrive(c: Curves, at: Time, found: seq<Row>, k: nat)
    requires k <= 48
    ensures var b := Opening(c, at, found);
      Run(Defaults(c), b, Ticks(k, at)) == b.(hub := b.hub.(prices := Climb()[..k]))
  {
    if k > 0 {
      PricesArrive(c, at, found, k - 1);
      var e := Event(at, Write(PriceTick(Climb()[k - 1].price, 0)));
      assert Ticks(k, at) == Ticks(k - 1, at) + [e];
      RunOne(Defaults(c), Opening(c, at, found), Ticks(k - 1, at), e);
      PriceArrives(c, Run(Defaults(c), Opening(c, at, found), Ticks(k - 1, at)), k, at);
    }
  }

  lemma PriceArrives(c: Curves, b: State, k: nat, at: Time)
    requires 0 < k <= 48 && b.now == at && b.hub.prices == Climb()[..k - 1]
    ensures Step(Defaults(c), b, Event(at, Write(PriceTick(Climb()[k - 1].price, 0))))
         == b.(hub := b.hub.(prices := Climb()[..k]))
  {
    assert Climb()[..k] == Climb()[..k - 1] + [Climb()[k - 1]];
  }

  // ---- one position after the other ----

  /** After n windows: n positions of the same cost, none resolved, and the bankroll untouched. */
  ghost predicate Stacked(c: Curves, b: State, n: nat) {
    && b.phase == Idle && b.now <= Moment(n)
    && b.hub.prices == Climb() && b.hub.trades == map[]
    && b.hub.markets.Keys == Slugs(n) && (forall i | 0 <= i < n :: b.hub.markets[Slug(i)] == Window(i))
    && b.acct.positions.Keys == Slugs(n) && (forall s | s in b.acct.positions :: b.acct.positions[s].dir == BuyUp)
    && b.acct.bankroll == BANKROLL == b.acct.peak && !b.acct.halted && b.acct.settlements == []
    && Exposure(b.acct.positions) == Times(n, ClimbStake(c, BANKROLL))
  }

  lemma OpeningIsStacked(c: Curves, at: Time, found: seq<Row>)
    requires at <= Moment(0)
    ensures Stacked(c, Run(Defaults(c), Opening(c, at, found), Ticks(48, at)), 0)
  {
    PricesArrive(c, at, found, 48);
    assert Climb()[..48] == Climb();
    assert Costs(Opening(c, at, found).acct.positions) == map[];
    assert Slugs(0) == {};
  }

  /** The window is discovered and its Up token quoted. */
  lemma Discover(env: Env, b: State, n: nat, at: Time) returns (events: seq<Event>)
    requires env.eng.edge.Edge? && b.now <= at && Slug(n) !in b.hub.markets
    ensures var b' := Run(env, b, events);
      b' == b.(now := at, hub := b.hub.(markets := b.hub.markets[Slug(n) := Window(n)],
                                        books := b.hub.books[Window(n).upToken := FAIR_BOOK]))
  {
    var found := Event(at, Write(Registered(Window(n))));
    var quoted := Event(at, Write(Booked(Window(n).upToken, FAIR_BOOK.bids, FAIR_BOOK.asks)));
    RunSingle(env, b, found);
    var mid := Run(env, b, [found]);
    assert mid == b.(now := at, hub := b.hub.(markets := b.hub.markets[Slug(n) := Window(n)]));
    RunSingle(env, mid, quoted);
    FairBookStays();
    RunInTwo(env, b, [found], [quoted]);
    events := [found] + [quoted];
  }

  lemma FairBookStays()
    ensures BookValue(SortLevels(FAIR_BOOK.bids, true), SortLevels(FAIR_BOOK.asks, false)) == FAIR_BOOK
  {
  }

  /** A tick in which nothing is resolved. */
  lemma QuietTick(env: Env, b: State, at: Time) returns (events: seq<Event>)
    requires env.eng.edge.Edge? && b.phase.Idle? && b.now <= at
    requires forall s | s in b.acct.positions :: !b.hub.IsResolved(s)
    ensures var b' := Run(env, b, events);
      b'.acct == b.acct && b'.hub == b.hub && b'.now <= at && b'.phase.Settling? && b'.phase.todo == {}
  {
    assert SlugSet([]) == {};
    events := TickSettles(env, b, [], at);
  }

  lemma PileBounds(n: nat, x: real)
    requires 4.0 / 7.0 <= x <= 9.0 / 14.0
    ensures 4.0 / 7.0 * n as real <= Times(n, x) <= 9.0 / 14.0 * n as real
  {
    if n > 0 {
      PileBounds(n - 1, x);
    }
  }

  /** Deciding, sizing and opening in a fresh window. */
  lemma Buy(c: Curves, b: State, n: nat) returns (events: seq<Event>)
    requires RightOnClimb(c) && n < 25 && b.phase.Settling? && b.phase.todo == {} && b.now <= Moment(n)
    requires Climbing(b.hub, Window(n)) && Slug(n) in b.hub.markets && b.hub.markets[Slug(n)] == Window(n)
    requires Slug(n) !in b.acct.positions && !b.acct.halted && b.acct.bankroll == BANKROLL
    requires Exposure(b.acct.positions) == Times(n, ClimbStake(c, BANKROLL))
    ensures var b' := Run(Defaults(c), b, events);
      && b'.hub == b.hub && b'.now == Moment(n) && b'.phase == Idle
      && exists o: Order :: b'.acct == Open(b.acct, o, Moment(n)) && o.market == Slug(n) && o.dir == BuyUp
                            && o.cost == ClimbStake(c, BANKROLL)
  {
    var env, at := Defaults(c), Moment(n);
    MomentIsGood(n);
    ClimbDecision(b.hub, Window(n), at, c);
    ClimbStakeBounds(c, BANKROLL);
    PileBounds(n, ClimbStake(c, BANKROLL));
    ClimbOrder(b.hub, Window(n), at, c, b.acct);
    Decides(env, b, Some(Window(n)), at);
    var decided := Run(env, b, [Event(at, Decide(Some(Window(n))))]);
    Evaluates(env, decided, at);
    var sized := Run(env, decided, [Event(at, Action.Evaluate)]);
    OpensAndLogs(env, sized, at, at);
    RunInTwo(env, decided, [Event(at, Action.Evaluate)], [Event(at, Record), Event(at, Log)]);
    events := [Event(at, Action.Evaluate)] + [Event(at, Record), Event(at, Log)];
    RunInTwo(env, b, [Event(at, Decide(Some(Window(n))))], events);
    events := [Event(at, Decide(Some(Window(n))))] + events;
    assert sized.acct == b.acct && Open(b.acct, sized.phase.order, at) == Run(env, b, events).acct;
  }

  lemma OpenedStacks(c: Curves, b: State, b': State, n: nat, o: Order)
    requires Stacked(c, b, n) && b'.phase == Idle && b'.now == Moment(n)
    requires b'.hub == b.hub.(markets := b.hub.markets[Slug(n) := Window(n)], books := b'.hub.books)
    requires b'.acct == Open(b.acct, o, Moment(n)) && o.market == Slug(n) && o.dir == BuyUp
    requires o.cost == ClimbStake(c, BANKROLL)
    ensures Stacked(c, b', n + 1)
  {
    SlugsGrow(n);
    ExposureWith(b.acct.positions, Slug(n), b'.acct.positions[Slug(n)]);
    WindowsGrow(b.hub.markets, n);
  }

  lemma WindowsGrow(markets: map<string, Market>, n: nat)
    requires markets.Keys == Slugs(n) && forall i | 0 <= i < n :: markets[Slug(i)] == Window(i)
    ensures var grown := markets[Slug(n) := Window(n)];
      grown.Keys == Slugs(n + 1) && forall i | 0 <= i < n + 1 :: grown[Slug(i)] == Window(i)
  {
    SlugsGrow(n);
    forall i | 0 <= i < n + 1
      ensures markets[Slug(n) := Window(n)][Slug(i)] == Window(i)
    {
      assert i < n ==> Slug(i) in Slugs(n);
    }
  }

  /** One window: discovered, nothing to settle, bought. */
  lemma Round(c: Curves, b: State, n: nat) returns (events: seq<Event>)
    requires RightOnClimb(c) && Stacked(c, b, n) && n < 25
    ensures Stacked(c, Run(Defaults(c), b, events), n + 1)
  {
    var env := Defaults(c);
    SlugsGrow(n);
    var one := Discover(env, b, n, Moment(n));
    var b1 := Run(env, b, one);
    forall s | s in b1.acct.positions
      ensures !b1.hub.IsResolved(s)
    {
      var i :| 0 <= i < n && s == Slug(i);
      assert b.hub.markets[Slug(i)] == Window(i);
    }
    var two := QuietTick(env, b1, Moment(n));
    var b2 := Run(env, b1, two);
    var three := Buy(c, b2, n);
    RunInTwo(env, b1, two, three);
    RunInTwo(env, b, one, two + three);
    events := one + (two + three);
    var o: Order :| Run(env, b2, three).acct == Open(b2.acct, o, Moment(n)) && o.market == Slug(n) && o.dir == BuyUp
                    && o.cost == ClimbStake(c, BANKROLL);
    OpenedStacks(c, b, Run(env, b2, three), n, o);
  }

  lemma {:induction false} Rounds(c: Curves, at: Time, found: seq<Row>, n: nat) returns (events: seq<Event>)
    requires RightOnClimb(c) && n <= 25 && at <= Moment(0)
    ensures Stacked(c, Run(Defaults(c), Opening(c, at, found), events), n)
  {
    if n == 0 {
      OpeningIsStacked(c, at, found);
      events := Ticks(48, at);
    } else {
      var before := Rounds(c, at, found, n - 1);
      var last := Round(c, Run(Defaults(c), Opening(c, at, found), before), n - 1);
      RunInTwo(Defaults(c), Opening(c, at, found), before, last);
      events := before + last;
    }
  }

  lemma StackedExceedsBankroll(c: Curves, b: State)
    requires RightOnClimb(c) && Stacked(c, b, 25)
    ensures b.acct.bankroll < Exposure(b.acct.positions)
  {
    ClimbStakeBounds(c, BANKROLL);
    PileBounds(25, ClimbStake(c, BANKROLL));
  }

  /** The default configuration lets the open positions cost more than there is. */
  lemma DefaultsCanOverreach(c: Curves)
    requires RightOnClimb(c)
    ensures exists start, bankroll, events | bankroll > 0.0 ::
      Overreached(Run(Defaults(c), Start(Defaults(c), start, bankroll, []), events).acct)
  {
    var events := Rounds(c, DAWN, [], 25);
    StackedExceedsBankroll(c, Run(Defaults(c), Morning(c), events));
    assert Overreached(Run(Defaults(c), Start(Defaults(c), DAWN, BANKROLL, []), events).acct);
  }

  ghost predicate Overreached(a: Account) {
    !a.halted && 0.0 < a.bankroll < Exposure(a.positions)
  }

  // ---- and then they lose ----

  /** All twenty-five positions open, and the first k windows resolved as Down. */
  ghost predicate Falling(b: State, before: State, k: nat) {
    && b == before.(hub := before.hub.(markets := b.hub.markets))
    && b.hub.markets.Keys == Slugs(25)
    && forall i | 0 <= i < k && i < 25 :: b.hub.IsResolved(Slug(i)) && b.hub.markets[Slug(i)].winningOutcome == "down"
  }

  lemma {:induction false} ResolveDown(c: Curves, b: State, k: nat) returns (events: seq<Event>)
    requires Stacked(c, b, 25) && k <= 25
    ensures Falling(Run(Defaults(c), b, events), b, k)
  {
    if k == 0 {
      events := [];
    } else {
      var rest := ResolveDown(c, b, k - 1);
      var mid := Run(Defaults(c), b, rest);
      assert Slug(k - 1) in Slugs(25);
      var e := Event(mid.now, Write(WsResolved(Slug(k - 1), "down", "", Some(Slug(k - 1)), 0)));
      RunOne(Defaults(c), b, rest, e);
      events := rest + [e];
      ResolvedOne(c, b, mid, Step(Defaults(c), mid, e), k);
    }
  }

  lemma ResolvedOne(c: Curves, b: State, mid: State, b': State, k: nat)
    requires 0 < k <= 25 && Falling(mid, b, k - 1) && Slug(k - 1) in mid.hub.markets
    requires b' == mid.(hub := ResolveIn(mid.hub, Slug(k - 1), "down", 0))
    ensures Falling(b', b, k)
  {
    forall i | 0 <= i < k
      ensures b'.hub.IsResolved(Slug(i)) && b'.hub.markets[Slug(i)].winningOutcome == "down"
    {
      assert i < k - 1 ==> mid.hub.IsResolved(Slug(i)) && mid.hub.markets[Slug(i)].winningOutcome == "down";
    }
    assert b'.hub.markets.Keys == mid.hub.markets.Keys + {Slug(k - 1)};
  }

  /** A pass over these slugs with one clock reading. */
  lemma {:induction false} PassAt(a: Account, hs: HubState, slugs: set<string>, at: Time) returns (stamps: seq<Stamp>)
    requires slugs <= a.positions.Keys && forall s | s in slugs :: hs.IsResolved(s)
    ensures PassOver(a, stamps) && SlugSet(stamps) == slugs && StampedBetween(stamps, at, at)
    ensures forall s | s in stamps :: hs.IsResolved(s.slug) && s.outcome == hs.markets[s.slug].winningOutcome
    decreases slugs
  {
    if slugs == {} {
      stamps := [];
    } else {
      var slug :| slug in slugs;
      var rest := PassAt(a, hs, slugs - {slug}, at);
      StampAdded(a, DEFAULT_MANAGER, rest, StampFor(hs, slug, at));
      StampedGrows(rest, at, at, StampFor(hs, slug, at));
      stamps := rest + [StampFor(hs, slug, at)];
    }
  }

  lemma AllDown(c: Curves, b: State, before: State)
    requires Stacked(c, before, 25) && Falling(b, before, 25)
    ensures forall s | s in b.acct.positions :: b.hub.IsResolved(s) && b.hub.markets[s].winningOutcome == "down"
  {
    forall s | s in b.acct.positions
      ensures b.hub.IsResolved(s) && b.hub.markets[s].winningOutcome == "down"
    {
      var i :| 0 <= i < 25 && s == Slug(i);
    }
  }

  /** A pass over positions that are all Up, when all their markets are resolved as Down. */
  lemma PassLosesAll(a: Account, cfg: ManagerConfig, hs: HubState, stamps: seq<Stamp>)
    requires PassFor(a, hs, stamps) && WellPriced(a.positions) && a.bankroll <= a.peak
    requires forall s | s in a.positions ::
      a.positions[s].dir == BuyUp && hs.IsResolved(s) && hs.markets[s].winningOutcome == "down"
    ensures var r := SettleAll(a, cfg, stamps);
      r.bankroll == a.bankroll - Exposure(a.positions) && r.positions == map[] && r.peak >= a.peak
  {
    assert SlugSet(stamps) == a.positions.Keys;
    DownLoses();
    TotalLossLeavesEquity(a, cfg, stamps);
    PassPeak(a, cfg, hs, stamps);
    assert a.positions - a.positions.Keys == map[];
  }

  /** The pass after all windows resolved as Down: everything is lost. */
  lemma LoseAll(c: Curves, b: State, before: State) returns (events: seq<Event>)
    requires RightOnClimb(c) && Stacked(c, before, 25) && Falling(b, before, 25) && Sound(Defaults(c), b)
    ensures var b' := Run(Defaults(c), b, events);
      && b'.acct.bankroll == BANKROLL - Times(25, ClimbStake(c, BANKROLL)) && b'.acct.peak >= BANKROLL
      && b'.acct.positions == map[] && b'.hub == b.hub && b'.now <= b.now
      && b'.phase.Settling? && b'.phase.todo == {}
  {
    AllDown(c, b, before);
    var stamps := PassAt(b.acct, b.hub, b.acct.positions.Keys, b.now);
    assert PassFor(b.acct, b.hub, stamps);
    PassLosesAll(b.acct, DEFAULT_MANAGER, b.hub, stamps);
    events := TickSettles(Defaults(c), b, stamps, b.now);
  }

  lemma DownLoses()
    ensures !DidWin(BuyUp, "down")
  {
    assert ToLower("down") == "down" && |"down"| == 4 && |"up"| == 2 && |"yes"| == 3;
  }

  /** Twenty-five purchases and twenty-five losses. */
  lemma Fall(c: Curves) returns (events: seq<Event>)
    requires RightOnClimb(c)
    ensures var b := Run(Defaults(c), Morning(c), events);
      && b.acct.bankroll < 0.0 && b.acct.peak >= BANKROLL && b.acct.positions == map[]
      && b.hub.prices == Climb() && b.hub.trades == map[] && b.hub.markets.Keys == Slugs(25)
      && b.now <= Moment(25) && b.phase.Settling? && b.phase.todo == {}
  {
    var env := Defaults(c);
    var one := Rounds(c, DAWN, [], 25);
    var before := Run(env, Morning(c), one);
    var two := ResolveDown(c, before, 25);
    var b := Run(env, before, two);
    RunInTwo(env, Morning(c), one, two);
    StartIsSound(env, DAWN, BANKROLL, []);
    RunsStaySound(env, Morning(c), one + two);
    var three := LoseAll(c, b, before);
    RunInTwo(env, Morning(c), one + two, three);
    events := one + two + three;
    StackedExceedsBankroll(c, before);
  }

  /** Under every default constant there is a run that starts with money and ends below zero. */
  lemma DefaultsCanGoUnder(c: Curves)
    requires RightOnClimb(c)
    ensures exists start, bankroll, events | bankroll > 0.0 ::
      Run(Defaults(c), Start(Defaults(c), start, bankroll, []), events).acct.bankroll < 0.0
  {
    var events := Fall(c);
    assert Run(Defaults(c), Start(Defaults(c), DAWN, BANKROLL, []), events).acct.bankroll < 0.0;
  }

  // ---- and the breaker is disarmed ----

  lemma FallHalts(env: Env, b: State)
    requires Sound(env, b) && env.cfg == DEFAULT_MANAGER && b.acct.bankroll < 0.0 && b.acct.peak >= BANKROLL
    ensures b.acct.halted && b.acct.haltedAt <= b.now
  {
    assert BreakerHolds(b.acct, env.cfg);
    assert Scaled(0.25, b.acct.peak) == 0.25 * b.acct.peak;
  }

  /** An account that trades on under a negative peak: the breaker will not trip while both stay negative. */
  predicate Disarmed(a: Account) {
    !a.halted && a.bankroll <= a.peak < 0.0
  }

  /** The first decision after the cooldown lifts the halt and restarts the peak, below zero. */
  lemma LiftHalt(c: Curves, b: State) returns (events: seq<Event>)
    requires RightOnClimb(c) && b.phase.Settling? && b.phase.todo == {} && b.now <= Moment(30) - 600 * SECOND
    requires b.hub.prices == Climb() && b.hub.trades == map[] && Slug(30) !in b.hub.markets
    requires b.acct.halted && b.acct.haltedAt <= b.now && b.acct.bankroll < 0.0
    ensures Disarmed(Run(Defaults(c), b, events).acct)
  {
    var env, at := Defaults(c), Moment(30);
    var one := Discover(env, b, 30, at);
    var b1 := Run(env, b, one);
    MomentIsGood(30);
    ClimbDecision(b1.hub, Window(30), at, c);
    Decides(env, b1, Some(Window(30)), at);
    var b2 := Run(env, b1, [Event(at, Decide(Some(Window(30))))]);
    Evaluates(env, b2, at);
    RunInTwo(env, b1, [Event(at, Decide(Some(Window(30))))], [Event(at, Action.Evaluate)]);
    RunInTwo(env, b, one, [Event(at, Decide(Some(Window(30))))] + [Event(at, Action.Evaluate)]);
    events := one + ([Event(at, Decide(Some(Window(30))))] + [Event(at, Action.Evaluate)]);
  }

  /** So a run of the default configuration reaches an account whose breaker is disarmed. */
  lemma DefaultsCanDisarm(c: Curves)
    requires RightOnClimb(c)
    ensures exists start, bankroll, events | bankroll > 0.0 ::
      Disarmed(Run(Defaults(c), Start(Defaults(c), start, bankroll, []), events).acct)
  {
    var env := Defaults(c);
    var one := Fall(c);
    var b := Run(env, Morning(c), one);
    StartIsSound(env, DAWN, BANKROLL, []);
    RunsStaySound(env, Morning(c), one);
    FallHalts(env, b);
    NotYet(25, 30);
    var two := LiftHalt(c, b);
    RunInTwo(env, Morning(c), one, two);
    assert Disarmed(Run(env, Start(env, DAWN, BANKROLL, []), one + two).acct);
  }

  lemma NotYet(n: nat, i: nat)
    requires n <= i
    ensures Slug(i) !in Slugs(n)
  {
    forall k | 0 <= k < n
      ensures Slug(k) != Slug(i)
    {
      assert |Slug(k)| == k + 1 && |Slug(i)| == i + 1;
    }
  }

  // ---- two processes on one table ----

  /** Nothing settled: no row of the table is, if none was at the start. */
  lemma NothingFiled(b: State)
    requires Filed(b) && b.acct.settlements == [] && SettledRows(b.found) == []
    ensures SettledRows(b.rows) == []
  {
    RowsOnFile(b);
    if b.log != [] {
      LogNeedsSettlement(b.log, b.acct.settlements, b.base);
    }
  }

  /** The only window resolves as Down, and the tick after it settles the only position. */
  lemma SettleFirst(c: Curves, b: State) returns (events: seq<Event>)
    requires Stacked(c, b, 1)
    ensures var env := Defaults(c); var s := Stamp(Slug(0), "down", b.now);
      && Slug(0) in b.acct.positions && Run(env, b, events).acct == SettleOne(b.acct, env.cfg, s)
      && Run(env, b, events).rows == SettleRows(b.rows, CallFor(b.acct, env.cfg, s), b.now)
  {
    var env := Defaults(c);
    assert Slug(0) in Slugs(1);
    var down := Event(b.now, Write(WsResolved(Slug(0), "down", "", Some(Slug(0)), 0)));
    RunSingle(env, b, down);
    var b1 := Run(env, b, [down]);
    RunSingle(env, b1, Event(b.now, Tick));
    var b2 := Run(env, b1, [Event(b.now, Tick)]);
    VisitSettlesOne(env, b2, Stamp(Slug(0), "down", b.now));
    RunSingle(env, b2, Event(b.now, Visit(Slug(0))));
    RunInTwo(env, b1, [Event(b.now, Tick)], [Event(b.now, Visit(Slug(0)))]);
    RunInTwo(env, b, [down], [Event(b.now, Tick)] + [Event(b.now, Visit(Slug(0)))]);
    events := [down] + ([Event(b.now, Tick)] + [Event(b.now, Visit(Slug(0)))]);
  }

  /** One update of two unsettled rows puts its profit on file twice. */
  lemma UpdateFilesTwice(rows: seq<Row>, call: SettleCall, at: Time)
    requires Pending(rows, call.slug) == 2 && SettledRows(rows) == []
    ensures PnlTotal(SettledRows(SettleRows(rows, call, at))) == call.pnl + call.pnl
  {
    UpdateAddsPnl(rows, call, at);
    assert Times(1, call.pnl) == call.pnl && PnlTotal([]) == 0.0;
  }

  /** A process that finds an unsettled row of the slug it buys files its loss twice. */
  lemma SecondFilesTwice(c: Curves, at: Time, found: seq<Row>) returns (events: seq<Event>)
    requires RightOnClimb(c) && at <= Moment(0) && Pending(found, Slug(0)) == 1 && SettledRows(found) == []
    ensures FiledTwice(Run(Defaults(c), Opening(c, at, found), events))
  {
    var env := Defaults(c);
    var one := Rounds(c, at, found, 1);
    var b := Run(env, Opening(c, at, found), one);
    RunsStayFiled(env, at, BANKROLL, found, one);
    var two := SettleFirst(c, b);
    RunInTwo(env, Opening(c, at, found), one, two);
    events := one + two;
    NothingFiled(b);
    FirstIsPending(b);
    LossOfFirst(c, b);
    UpdateFilesTwice(b.rows, CallFor(b.acct, env.cfg, Stamp(Slug(0), "down", b.now)), b.now);
  }

  lemma FirstIsPending(b: State)
    requires Filed(b) && Once(b) && b.phase.Idle? && Slug(0) in b.acct.positions && Pending(b.found, Slug(0)) == 1
    ensures Pending(b.rows, Slug(0)) == 2
  {
    NotSettledYet(b, Slug(0));
    assert OnFile(b.acct, b.phase, Slug(0));
  }

  lemma LossOfFirst(c: Curves, b: State)
    requires RightOnClimb(c) && Stacked(c, b, 1) && Books(b)
    ensures Slug(0) in b.acct.positions
    ensures var s := Stamp(Slug(0), "down", b.now); var after := SettleOne(b.acct, DEFAULT_MANAGER, s);
      && |after.settlements| == 1 && after.totalPnL < 0.0
      && CallFor(b.acct, DEFAULT_MANAGER, s).pnl == after.totalPnL
  {
    assert Slug(0) in Slugs(1);
    DownLoses();
    ClimbStakeBounds(c, BANKROLL);
    assert b.acct.positions - {Slug(0)} == map[];
    ExposureWithout(b.acct.positions, Slug(0));
    assert Costs(map[]) == map[];
    assert Times(1, ClimbStake(c, BANKROLL)) == ClimbStake(c, BANKROLL);
  }

  /** One loss of the account, two on file. */
  predicate FiledTwice(b: State) {
    |b.acct.settlements| == 1 && b.acct.totalPnL < 0.0
    && PnlTotal(SettledRows(b.rows)) == b.acct.totalPnL + b.acct.totalPnL
  }

  /** The state a second process reaches that starts on the table the first one leaves. */
  ghost function Second(env: Env, s: Time, t: Time, bankroll: real, first: seq<Event>, second: seq<Event>): State
    requires env.eng.edge.Edge?
  {
    Run(env, Start(env, t, bankroll, Run(env, Start(env, s, bankroll, []), first).rows), second)
  }

  /**
   Two runs on one table: the first process buys and stops, the second starts within the same window, buys the
   window again and loses, and the table holds the loss twice.
   */
  lemma DefaultsCanFileTwice(c: Curves)
    requires RightOnClimb(c)
    ensures exists s, t, bankroll, first, second | bankroll > 0.0 && s <= t ::
      FiledTwice(Second(Defaults(c), s, t, bankroll, first, second))
  {
    var env := Defaults(c);
    var first := Rounds(c, DAWN, [], 1);
    var b := Run(env, Morning(c), first);
    RunsStayFiled(env, DAWN, BANKROLL, [], first);
    NothingFiled(b);
    assert Slug(0) in Slugs(1);
    TableMirrorsPositions(env, DAWN, BANKROLL, [], first);
    NotSettledYet(b, Slug(0));
    var second := SecondFilesTwice(c, Moment(0), b.rows);
    assert FiledTwice(Second(env, DAWN, Moment(0), BANKROLL, first, second));
  }
}
