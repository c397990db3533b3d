/** One tick of the signal loop as the program executes it, shown to be a run of the state machine. */
module Loop {
  import opened Prelude
  import opened Hub
  import opened Signal
  import opened Risk
  import opened Store
  import opened RiskManager
  import opened Bot
  import opened Ledger
  import opened Pass
  import opened Sizing

  // ---- runs put together ----

  lemma {:induction false} RunInTwo(env: Env, b: State, one: seq<Event>, two: seq<Event>)
    requires env.eng.edge.Edge?
    ensures Run(env, b, one + two) == Run(env, Run(env, b, one), two)
  {
    if two == [] {
      assert one + two == one;
    } else {
      var all, rest := one + two, two[..|two| - 1];
      assert all[..|all| - 1] == one + rest && all[|all| - 1] == two[|two| - 1];
      RunInTwo(env, b, one, rest);
    }
  }

  lemma RunOne(env: Env, b: State, events: seq<Event>, e: Event)
    requires env.eng.edge.Edge?
    ensures Run(env, b, events + [e]) == Step(env, Run(env, b, events), e)
  {
    assert (events + [e])[..|events|] == events;
  }

  lemma RunSingle(env: Env, b: State, e: Event)
    requires env.eng.edge.Edge? && Enabled(b, e)
    ensures Run(env, b, [e]) == Act(env, b, e).(now := e.at)
  {
    assert [e][..0] == [];
  }

  // ---- a pass is a run of visits ----

  function Visits(stamps: seq<Stamp>): seq<Event> {
    seq(|stamps|, i requires 0 <= i < |stamps| => Event(stamps[i].at, Visit(stamps[i].slug)))
  }

  /** The table after the callbacks of a pass, each filed at its settlement's time. */
  function FiledRows(rows: seq<Row>, calls: seq<SettleCall>, times: seq<Time>): seq<Row>
    requires |calls| == |times|
  {
    if calls == [] then rows
    else
      var n := |calls| - 1;
      SettleRows(FiledRows(rows, calls[..n], times[..n]), calls[n], times[n])
  }

  function StampTimes(stamps: seq<Stamp>): (times: seq<Time>)
    ensures |times| == |stamps|
  {
    seq(|stamps|, i requires 0 <= i < |stamps| => stamps[i].at)
  }

  /** Filing the calls of a pass one after the other gives the table of the visits. */
  lemma {:induction false} PassRowsAreFiled(rows: seq<Row>, a: Account, cfg: ManagerConfig, stamps: seq<Stamp>)
    requires PassOver(a, stamps)
    ensures |CallsOf(a, cfg, stamps)| == |stamps|
    ensures PassRows(rows, a, cfg, stamps) == FiledRows(rows, CallsOf(a, cfg, stamps), StampTimes(stamps))
  {
    if stamps != [] {
      var rest, last := stamps[..|stamps| - 1], stamps[|stamps| - 1];
      assert stamps == rest + [last];
      PassRowsAreFiled(rows, a, cfg, rest);
      StampsGrow(rest, last);
      var call := CallFor(SettleAll(a, cfg, rest), cfg, last);
      FiledRowsGrow(rows, CallsOf(a, cfg, rest), StampTimes(rest), call, last.at);
    }
  }

  /** A pass under way in the middle of a tick: the account, table and loop after these visits. */
  ghost predicate AfterVisits(env: Env, b: State, stamps: seq<Stamp>, b': State)
    requires b.phase.Settling? && PassOver(b.acct, stamps)
  {
    && b'.acct == SettleAll(b.acct, env.cfg, stamps) && b'.rows == PassRows(b.rows, b.acct, env.cfg, stamps)
    && b'.hub == b.hub && b'.now == (if stamps == [] then b.now else stamps[|stamps| - 1].at)
    && b'.phase == Settling(b.phase.todo - SlugSet(stamps), b.phase.due)
  }

  ghost predicate Stamped(b: State, stamps: seq<Stamp>) {
    && b.phase.Settling? && PassOver(b.acct, stamps) && b.acct.positions.Keys <= b.phase.todo
    && (forall s | s in stamps :: b.hub.IsResolved(s.slug) && s.outcome == b.hub.markets[s.slug].winningOutcome)
    && (forall i | 0 <= i < |stamps| :: b.now <= stamps[i].at)
    && (forall i, j | 0 <= i < j < |stamps| :: stamps[i].at <= stamps[j].at)
  }

  lemma {:induction false} PassIsRun(env: Env, b: State, stamps: seq<Stamp>)
    requires env.eng.edge.Edge? && Stamped(b, stamps)
    ensures AfterVisits(env, b, stamps, Run(env, b, Visits(stamps)))
  {
    if stamps == [] {
      assert SlugSet(stamps) == {};
    } else {
      var rest, last := stamps[..|stamps| - 1], stamps[|stamps| - 1];
      assert stamps == rest + [last];
      PassIsRun(env, b, rest);
      var mid := Run(env, b, Visits(rest));
      VisitExtends(env, b, stamps, mid);
      StampsGrow(rest, last);
      RunOne(env, b, Visits(rest), Event(last.at, Visit(last.slug)));
    }
  }

  lemma FiledRowsGrow(rows: seq<Row>, calls: seq<SettleCall>, times: seq<Time>, call: SettleCall, at: Time)
    requires |calls| == |times|
    ensures FiledRows(rows, calls + [call], times + [at]) == SettleRows(FiledRows(rows, calls, times), call, at)
  {
    var n := |calls|;
    assert (calls + [call])[..n] == calls && (times + [at])[..n] == times;
  }

  lemma VisitSettlesOne(env: Env, b: State, s: Stamp)
    requires env.eng.edge.Edge? && b.phase.Settling? && s.slug in b.phase.todo && s.slug in b.acct.positions
    requires b.now <= s.at
    requires b.hub.IsResolved(s.slug) && s.outcome == b.hub.markets[s.slug].winningOutcome
    ensures var b' := Step(env, b, Event(s.at, Visit(s.slug)));
      && b'.acct == SettleOne(b.acct, env.cfg, s) && b'.rows == SettleRows(b.rows, CallFor(b.acct, env.cfg, s), s.at)
      && b'.hub == b.hub && b'.now == s.at && b'.phase == b.phase.(todo := b.phase.todo - {s.slug})
  {
    assert s == StampFor(b.hub, s.slug, s.at);
  }

  lemma StampsGrow(rest: seq<Stamp>, last: Stamp)
    ensures Visits(rest + [last]) == Visits(rest) + [Event(last.at, Visit(last.slug))]
    ensures StampTimes(rest + [last]) == StampTimes(rest) + [last.at]
  {
    assert forall i | 0 <= i < |rest| :: (rest + [last])[i] == rest[i];
  }

  lemma VisitExtends(env: Env, b: State, stamps: seq<Stamp>, mid: State)
    requires env.eng.edge.Edge? && Stamped(b, stamps) && stamps != []
    requires PassOver(b.acct, stamps[..|stamps| - 1]) && AfterVisits(env, b, stamps[..|stamps| - 1], mid)
    requires mid.now <= stamps[|stamps| - 1].at
    ensures var last := stamps[|stamps| - 1];
      AfterVisits(env, b, stamps, Step(env, mid, Event(last.at, Visit(last.slug))))
  {
    PassPrefix(b.acct, env.cfg, stamps);
    assert stamps[|stamps| - 1] in stamps;
    VisitSettlesOne(env, mid, stamps[|stamps| - 1]);
  }

  /** Positions whose markets are not resolved are visited without effect. */
  lemma {:induction false} SkipTheRest(env: Env, b: State, at: Time) returns (events: seq<Event>)
    requires env.eng.edge.Edge? && b.phase.Settling? && b.now <= at
    requires forall s | s in b.phase.todo :: s !in b.acct.positions || !b.hub.IsResolved(s)
    ensures Run(env, b, events)
         == b.(phase := Settling({}, b.phase.due), now := if b.phase.todo == {} then b.now else at)
    decreases b.phase.todo
  {
    if b.phase.todo == {} {
      events := [];
    } else {
      var slug :| slug in b.phase.todo;
      var e := Event(at, Visit(slug));
      var mid := Step(env, b, e);
      var rest := SkipTheRest(env, mid, at);
      events := [e] + rest;
      RunInTwo(env, b, [e], rest);
      assert [e][..0] == [];
    }
  }

  /** From an idle loop: the tick, the visits that settle, the visits that do not. */
  lemma TickSettles(env: Env, b: State, stamps: seq<Stamp>, at: Time) returns (events: seq<Event>)
    requires env.eng.edge.Edge? && b.phase.Idle? && PassFor(b.acct, b.hub, stamps) && StampedBetween(stamps, b.now, at)
    requires b.now <= at
    ensures var b' := Run(env, b, events);
      && b'.acct == SettleAll(b.acct, env.cfg, stamps) && b'.hub == b.hub && b'.now <= at
      && b'.rows == PassRows(b.rows, b.acct, env.cfg, stamps)
      && b'.phase.Settling? && b'.phase.todo == {}
  {
    var e := Event(b.now, Tick);
    var ticked := Step(env, b, e);
    assert [e][..0] == [];
    PassIsRun(env, ticked, stamps);
    var settled := Run(env, ticked, Visits(stamps));
    var rest := SkipTheRest(env, settled, at);
    RunInTwo(env, ticked, Visits(stamps), rest);
    RunInTwo(env, b, [e], Visits(stamps) + rest);
    events := [e] + (Visits(stamps) + rest);
  }

  // ---- the tick as executed ----

  /** The objects hold what the state says. */
  ghost predicate Holds(b: State, h: Hub, m: Manager, db: TradeStore, clock: Clock)
    reads h, m, db, clock
  {
    b.hub == h.State() && b.acct == m.Value() && b.rows == db.rows && b.now <= clock.now
  }

  lemma {:induction false} PassAppends(a: Account, cfg: ManagerConfig, stamps: seq<Stamp>)
    requires PassOver(a, stamps)
    ensures var all := SettleAll(a, cfg, stamps).settlements;
      && |all| == |a.settlements| + |stamps| && |CallsOf(a, cfg, stamps)| == |stamps|
      && forall i | 0 <= i < |stamps| :: all[|a.settlements| + i].settledAt == stamps[i].at
  {
    if stamps != [] {
      PassPrefix(a, cfg, stamps);
      PassAppends(a, cfg, stamps[..|stamps| - 1]);
      assert stamps == stamps[..|stamps| - 1] + [stamps[|stamps| - 1]];
    }
  }

  /** The settlement callback, once for each call of the pass. */
  method FileAll(db: TradeStore, calls: seq<SettleCall>, times: seq<Time>)
    requires |calls| == |times|
    modifies db
    ensures db.rows == FiledRows(old(db.rows), calls, times)
  {
    for i := 0 to |calls|
      invariant db.rows == FiledRows(old(db.rows), calls[..i], times[..i])
    {
      assert calls[..i + 1][..i] == calls[..i] && times[..i + 1][..i] == times[..i];
      db.SettleTrade(calls[i], times[i]);
    }
    assert calls[..|calls|] == calls && times[..|times|] == times;
  }

  function ClosingTimes(settlements: seq<Settlement>): (times: seq<Time>)
    ensures |times| == |settlements|
  {
    seq(|settlements|, i requires 0 <= i < |settlements| => settlements[i].settledAt)
  }

  lemma StampedEarlier(stamps: seq<Stamp>, earlier: Time, from: Time, to: Time)
    requires StampedBetween(stamps, from, to) && earlier <= from
    ensures StampedBetween(stamps, earlier, to)
  {
  }

  lemma TickFiles(env: Env, b: State, stamps: seq<Stamp>, from: Time, at: Time) returns (events: seq<Event>)
    requires env.eng.edge.Edge? && b.phase.Idle? && PassFor(b.acct, b.hub, stamps)
    requires b.now <= from <= at && StampedBetween(stamps, from, at)
    ensures var b' := Run(env, b, events); var a' := SettleAll(b.acct, env.cfg, stamps);
      && b'.acct == a' && b'.hub == b.hub && b'.now <= at && b'.phase.Settling? && b'.phase.todo == {}
      && |b.acct.settlements| <= |a'.settlements|
      && |CallsOf(b.acct, env.cfg, stamps)| == |a'.settlements[|b.acct.settlements|..]|
      && b'.rows
         == FiledRows(b.rows, CallsOf(b.acct, env.cfg, stamps), ClosingTimes(a'.settlements[|b.acct.settlements|..]))
      && (b'.acct, b'.rows) == AfterPass(env.cfg, b.acct, b.rows, stamps)
  {
    PassAppends(b.acct, env.cfg, stamps);
    StampedEarlier(stamps, b.now, from, at);
    PassRowsAreFiled(b.rows, b.acct, env.cfg, stamps);
    assert ClosingTimes(SettleAll(b.acct, env.cfg, stamps).settlements[|b.acct.settlements|..]) == StampTimes(stamps);
    events := TickSettles(env, b, stamps, at);
  }

  /** The first half of a tick: settle what the hub reports as resolved, and file it. */
  method SettleAndFile(h: Hub, m: Manager, db: TradeStore, clock: Clock, ghost env: Env, ghost b: State)
    returns (ghost events: seq<Event>, ghost stamps: seq<Stamp>)
    requires h.Valid() && env.eng.edge.Edge? && env.cfg == m.cfg && Holds(b, h, m, db, clock) && b.phase.Idle?
    modifies m, db, clock
    ensures h.Valid() && h.State() == old(h.State()) && Holds(Run(env, b, events), h, m, db, clock)
    ensures var b' := Run(env, b, events); b'.phase.Settling? && b'.phase.todo == {}
    ensures PassFor(old(m.Value()), h.State(), stamps) && StampedBetween(stamps, old(clock.now), clock.now)
    ensures (m.Value(), db.rows) == AfterPass(m.cfg, old(m.Value()), old(db.rows), stamps)
    ensures old(clock.now) <= clock.now
  {
    var before := |m.settlements|;
    var calls;
    calls, stamps := m.SettleResolved(h, clock);
    events := TickFiles(env, b, stamps, old(clock.now), clock.now);
    FileAll(db, calls, ClosingTimes(m.settlements[before..]));
    h.StaysValid();
  }

  lemma Decides(env: Env, b: State, chosen: Option<Market>, at: Time)
    requires env.eng.edge.Edge? && b.phase.Settling? && b.phase.todo == {} && b.hub.MayBeCurrent(chosen, at)
    requires b.now <= at
    ensures Run(env, b, [Event(at, Decide(chosen))]) == AfterDecision(env, b, chosen, at).(now := at)
  {
    RunSingle(env, b, Event(at, Decide(chosen)));
  }

  lemma Evaluates(env: Env, b: State, at: Time)
    requires env.eng.edge.Edge? && b.phase.Decided? && b.now <= at
    ensures Run(env, b, [Event(at, Action.Evaluate)]) == AfterEvaluation(env, b, at).(now := at)
  {
    RunSingle(env, b, Event(at, Action.Evaluate));
  }

  lemma OpensAndLogs(env: Env, b: State, openedAt: Time, loggedAt: Time)
    requires env.eng.edge.Edge? && b.phase.Ordered? && b.now <= openedAt <= loggedAt
    ensures var b' := Run(env, b, [Event(openedAt, Record), Event(loggedAt, Log)]);
      && b'.acct == Open(b.acct, b.phase.order, openedAt)
      && b'.rows == b.rows + [RowFor(b.phase.order, b.phase.dec, loggedAt)]
      && b'.hub == b.hub && b'.now == loggedAt && b'.phase == Idle
  {
    RunSingle(env, b, Event(openedAt, Record));
    RunOne(env, b, [Event(openedAt, Record)], Event(loggedAt, Log));
  }

  /** The clock readings of a tick once its pass is over: at the decision, the sizing, the opening and the logging. */
  datatype Readings = Readings(decidedAt: Time, sizedAt: Time, openedAt: Time, loggedAt: Time)

  ghost predicate ReadBetween(at: Readings, from: Time, to: Time) {
    from <= at.decidedAt <= at.sizedAt <= at.openedAt <= at.loggedAt <= to
  }

  /** The account and the table once a decision to trade has been sized: the order, if any, opened and logged. */
  ghost function AfterSizing(cfg: ManagerConfig, a: Account, rows: seq<Row>, dec: Decision, hs: HubState, at: Readings)
    : (Account, seq<Row>)
  {
    var (a', order) := EvaluateOrder(a, cfg, dec, hs, at.sizedAt);
    if order.None? then (a', rows)
    else (Open(a', order.value, at.openedAt), rows + [RowFor(order.value, dec, at.loggedAt)])
  }

  /** Whether the loop asks the manager for an order on this decision. */
  predicate Tradeable(dec: Decision) {
    dec.dir != Hold && dec.shouldTrade
  }

  /** The account and the table once a decision has been taken. */
  ghost function AfterChoice(cfg: ManagerConfig, a: Account, rows: seq<Row>, dec: Decision, hs: HubState, at: Readings)
    : (Account, seq<Row>)
  {
    if Tradeable(dec) then AfterSizing(cfg, a, rows, dec, hs, at) else (a, rows)
  }

  /** The account and the table once the market taken as current has been decided on. */
  ghost function AfterDeciding(env: Env, a: Account, rows: seq<Row>, hs: HubState, current: Option<Market>,
                               at: Readings): (Account, seq<Row>)
    requires env.eng.edge.Edge?
  {
    AfterChoice(env.cfg, a, rows, env.eng.Decide(hs, current, at.decidedAt, env.curves), hs, at)
  }

  /** The position and the row of an order, field by field; the row also tells the decision's confidence and edge. */
  predicate OpenedAs(p: Position, o: Order, openedAt: Time) {
    && p.slug == o.market && p.dir == o.dir && p.token == o.token && p.price == o.price && p.size == o.size
    && p.cost == o.cost && p.kellyFrac == o.kellyFrac && p.modelProb == o.modelProb && p.openedAt == openedAt
  }

  predicate LoggedAs(r: Row, o: Order, dec: Decision, loggedAt: Time) {
    && r.slug == o.market && r.dir == o.dir && r.token == o.token && r.entryPrice == o.price && r.shares == o.size
    && r.cost == o.cost && r.kellyFrac == o.kellyFrac && r.modelProb == o.modelProb
    && r.confidence == dec.confidence && r.edge == dec.edge && r.openedAt == loggedAt && r.closing.None?
  }

  /** One position and one row more, those of this order; money and settlements do not move. */
  ghost predicate Buys(a: Account, rows: seq<Row>, dec: Decision, o: Order, at: Readings, a': Account,
                       rows': seq<Row>) {
    && o.market !in a.positions && a'.positions.Keys == a.positions.Keys + {o.market}
    && a'.positions - {o.market} == a.positions && OpenedAs(a'.positions[o.market], o, at.openedAt)
    && |rows'| == |rows| + 1 && rows'[..|rows|] == rows && LoggedAs(rows'[|rows|], o, dec, at.loggedAt)
    && a'.bankroll == a.bankroll && a'.settlements == a.settlements
  }

  /**
   What the second half of a tick does: a decision to trade that an unhalted account can fill is filled, and nothing
   else is bought.
   */
  ghost predicate Trades(env: Env, a: Account, rows: seq<Row>, hs: HubState, current: Option<Market>, at: Readings,
                         a': Account, rows': seq<Row>)
    requires env.eng.edge.Edge?
  {
    var dec := env.eng.Decide(hs, current, at.decidedAt, env.curves);
    var ready := CheckCooldown(a, env.cfg, at.sizedAt);
    if Tradeable(dec) && !ready.halted && dec.market !in a.positions
       && Fillable(env.cfg, ready, dec, hs)
    then exists o | Fills(env.cfg, ready, dec, hs, o) :: Buys(a, rows, dec, o, at, a', rows')
    else rows' == rows && a'.positions == a.positions && a'.bankroll == a.bankroll && a'.settlements == a.settlements
  }

  lemma DecidingTrades(env: Env, a: Account, rows: seq<Row>, hs: HubState, current: Option<Market>, at: Readings)
    requires env.eng.edge.Edge?
    ensures var (a', rows') := AfterDeciding(env, a, rows, hs, current, at);
      Trades(env, a, rows, hs, current, at, a', rows')
  {
    var dec := env.eng.Decide(hs, current, at.decidedAt, env.curves);
    var ready := CheckCooldown(a, env.cfg, at.sizedAt);
    if Tradeable(dec) {
      OrderedExactlyWhen(env.cfg, ready, dec, hs);
      if !ready.halted && Quote(env.cfg, ready, dec, hs).Some? {
        OrderIsBought(a, rows, dec, Quote(env.cfg, ready, dec, hs).value, at, ready);
      }
    }
  }

  lemma OrderIsBought(a: Account, rows: seq<Row>, dec: Decision, o: Order, at: Readings, ready: Account)
    requires o.market !in a.positions && ready.positions == a.positions && ready.bankroll == a.bankroll
    requires ready.settlements == a.settlements
    ensures Buys(a, rows, dec, o, at, Open(ready, o, at.openedAt), rows + [RowFor(o, dec, at.loggedAt)])
  {
    assert Open(ready, o, at.openedAt).positions - {o.market} == a.positions;
  }

  method OpenAndLog(dec: Decision, order: Order, h: Hub, m: Manager, db: TradeStore, clock: Clock, ghost env: Env,
                    ghost b: State)
    returns (ghost events: seq<Event>, ghost openedAt: Time, ghost loggedAt: Time)
    requires env.eng.edge.Edge? && Holds(b, h, m, db, clock) && b.phase == Ordered(dec, order)
    modifies m, db, clock
    ensures Holds(Run(env, b, events), h, m, db, clock) && Run(env, b, events).phase.Idle?
    ensures m.Value() == Open(old(m.Value()), order, openedAt)
    ensures db.rows == old(db.rows) + [RowFor(order, dec, loggedAt)]
    ensures old(clock.now) <= openedAt <= loggedAt <= clock.now
  {
    var now := clock.Now();
    m.OpenPosition(order, now);
    var later := clock.Now();
    db.LogTrade(RowFor(order, dec, later));
    openedAt, loggedAt := now, later;
    events := [Event(openedAt, Record), Event(loggedAt, Log)];
    OpensAndLogs(env, b, openedAt, loggedAt);
  }

  method SizeAndTrade(dec: Decision, h: Hub, m: Manager, db: TradeStore, clock: Clock, ghost env: Env, ghost b: State)
    returns (ghost events: seq<Event>, ghost at: Readings)
    requires h.Valid() && env.eng.edge.Edge? && env.cfg == m.cfg && Holds(b, h, m, db, clock) && b.phase == Decided(dec)
    modifies m, db, clock
    ensures Holds(Run(env, b, events), h, m, db, clock) && Run(env, b, events).phase.Idle?
    ensures (m.Value(), db.rows) == AfterSizing(m.cfg, old(m.Value()), old(db.rows), dec, h.State(), at)
    ensures at.decidedAt == old(clock.now) && ReadBetween(at, old(clock.now), clock.now)
  {
    var now := clock.Now();
    var order := m.Evaluate(dec, h, now);
    events, at := [Event(now, Action.Evaluate)], Readings(old(clock.now), now, now, now);
    Evaluates(env, b, now);
    if order.Some? {
      ghost var sized := Run(env, b, events);
      ghost var rest, openedAt, loggedAt := OpenAndLog(dec, order.value, h, m, db, clock, env, sized);
      RunInTwo(env, b, events, rest);
      events, at := events + rest, at.(openedAt := openedAt, loggedAt := loggedAt);
    }
  }

  /** The decision on the market the hub reports as current. */
  method DecideNow(h: Hub, m: Manager, db: TradeStore, clock: Clock, eng: Engine, c: Curves, ghost env: Env,
                   ghost b: State)
    returns (dec: Decision, ghost events: seq<Event>, ghost chosen: Option<Market>)
    requires h.Valid() && eng.edge.Edge? && env == Env(m.cfg, eng, c) && Holds(b, h, m, db, clock)
    requires b.phase.Settling? && b.phase.todo == {}
    modifies clock
    ensures old(clock.now) <= clock.now && h.State().MayBeCurrent(chosen, clock.now)
    ensures dec == eng.Decide(h.State(), chosen, clock.now, c)
    ensures Holds(Run(env, b, events), h, m, db, clock)
    ensures Run(env, b, events).phase == if Tradeable(dec) then Decided(dec) else Idle
  {
    var now := clock.Now();
    dec, chosen := eng.Evaluate(h, now, c);
    events := [Event(now, Decide(chosen))];
    Decides(env, b, chosen, now);
  }

  /** What the loop does with a decision. */
  method TradeOn(dec: Decision, h: Hub, m: Manager, db: TradeStore, clock: Clock, ghost env: Env, ghost b: State)
    returns (ghost events: seq<Event>, ghost at: Readings)
    requires h.Valid() && env.eng.edge.Edge? && env.cfg == m.cfg && Holds(b, h, m, db, clock)
    requires b.phase == if Tradeable(dec) then Decided(dec) else Idle
    modifies m, db, clock
    ensures Holds(Run(env, b, events), h, m, db, clock) && Run(env, b, events).phase.Idle?
    ensures (m.Value(), db.rows) == AfterChoice(m.cfg, old(m.Value()), old(db.rows), dec, h.State(), at)
    ensures at.decidedAt == old(clock.now) && ReadBetween(at, old(clock.now), clock.now)
  {
    events, at := [], Readings(clock.now, clock.now, clock.now, clock.now);
    if dec.dir == Hold {
      return;
    }
    if !dec.shouldTrade {
      return;
    }
    events, at := SizeAndTrade(dec, h, m, db, clock, env, b);
  }

  /** The second half: decide, size, open, log. */
  method DecideAndTrade(h: Hub, m: Manager, db: TradeStore, clock: Clock, eng: Engine, c: Curves, ghost env: Env,
                        ghost b: State)
    returns (ghost events: seq<Event>, ghost chosen: Option<Market>, ghost at: Readings)
    requires h.Valid() && eng.edge.Edge? && env == Env(m.cfg, eng, c) && Holds(b, h, m, db, clock)
    requires b.phase.Settling? && b.phase.todo == {}
    modifies m, db, clock
    ensures Holds(Run(env, b, events), h, m, db, clock) && Run(env, b, events).phase.Idle?
    ensures h.State().MayBeCurrent(chosen, at.decidedAt) && ReadBetween(at, old(clock.now), clock.now)
    ensures (m.Value(), db.rows) == AfterDeciding(env, old(m.Value()), old(db.rows), h.State(), chosen, at)
  {
    var dec;
    dec, events, chosen := DecideNow(h, m, db, clock, eng, c, env, b);
    ghost var rest;
    rest, at := TradeOn(dec, h, m, db, clock, env, Run(env, b, events));
    RunInTwo(env, b, events, rest);
    events := events + rest;
  }

  /**
   One tick of the signal loop. It settles and files each position whose market was resolved when it began, once, and
   then opens and logs exactly the order that its decision on some live market gets, if any. Whatever the objects hold,
   executing it is a run of the state machine.
   */
  method SignalTick(h: Hub, m: Manager, db: TradeStore, clock: Clock, eng: Engine, c: Curves, ghost b: State)
    returns (ghost events: seq<Event>, ghost stamps: seq<Stamp>, ghost chosen: Option<Market>, ghost at: Readings)
    requires h.Valid() && eng.edge.Edge? && Holds(b, h, m, db, clock) && b.phase.Idle?
    modifies m, db, clock
    ensures var b' := Run(Env(m.cfg, eng, c), b, events); Holds(b', h, m, db, clock) && b'.phase.Idle?
    ensures PassFor(old(m.Value()), h.State(), stamps) && StampedBetween(stamps, old(clock.now), at.decidedAt)
    ensures h.State().MayBeCurrent(chosen, at.decidedAt) && ReadBetween(at, old(clock.now), clock.now)
    ensures var (a, rows) := AfterPass(m.cfg, old(m.Value()), old(db.rows), stamps);
      && AllSettled(old(m.Value()), h.State(), Due(old(m.Value()), h.State()), a)
      && AllFiled(old(m.Value()), h.State(), Due(old(m.Value()), h.State()), old(db.rows), rows)
      && Trades(Env(m.cfg, eng, c), a, rows, h.State(), chosen, at, m.Value(), db.rows)
      && (m.Value(), db.rows) == AfterDeciding(Env(m.cfg, eng, c), a, rows, h.State(), chosen, at)
  {
    ghost var env := Env(m.cfg, eng, c);
    events, stamps := SettleAndFile(h, m, db, clock, env, b);
    PassAchieves(old(m.Value()), h.State(), m.cfg, old(db.rows), stamps);
    ghost var settled := Run(env, b, events);
    ghost var rest;
    ghost var a, rows := m.Value(), db.rows;
    rest, chosen, at := DecideAndTrade(h, m, db, clock, eng, c, env, settled);
    DecidingTrades(env, a, rows, h.State(), chosen, at);
    RunInTwo(env, b, events, rest);
    events := events + rest;
  }

  // ---- the rotation as executed ----

  function Asks(log: seq<Answer>): seq<Event> {
    seq(|log|, i requires 0 <= i < |log| => Event(log[i].at, AskApi(log[i].slug, Some(log[i].outcome))))
  }

  function Answered(log: seq<Answer>): set<string> {
    set a | a in log :: a.slug
  }

  /** The process after these answers: only the hub, the open questions and the clock are different. */
  ghost predicate AfterAnswers(b: State, log: seq<Answer>, b': State) {
    b' == b.(hub := ForceAll(b.hub, log), expired := b.expired - Answered(log),
             now := if log == [] then b.now else log[|log| - 1].at)
  }

  lemma AskExtends(env: Env, b: State, log: seq<Answer>, mid: State, to: Time)
    requires env.eng.edge.Edge? && log != [] && InTurn(log, b.now, to) && Answered(log) <= b.expired
    requires AfterAnswers(b, log[..|log| - 1], mid)
    ensures var last := log[|log| - 1];
      AfterAnswers(b, log, Step(env, mid, Event(last.at, AskApi(last.slug, Some(last.outcome)))))
  {
    var rest, last := log[..|log| - 1], log[|log| - 1];
    AnsweredGrows(log);
    assert b.expired - Answered(log) == b.expired - Answered(rest) - {last.slug};
  }

  lemma AnsweredGrows(log: seq<Answer>)
    requires log != [] && forall i, j | 0 <= i < j < |log| :: log[i].slug != log[j].slug
    ensures var rest, last := log[..|log| - 1], log[|log| - 1];
      Answered(log) == Answered(rest) + {last.slug} && last.slug !in Answered(rest)
  {
    var rest, last := log[..|log| - 1], log[|log| - 1];
    assert log == rest + [last];
    assert last in log && last.slug in Answered(log);
  }

  lemma AsksGrow(log: seq<Answer>)
    requires log != []
    ensures var last := log[|log| - 1];
      Asks(log) == Asks(log[..|log| - 1]) + [Event(last.at, AskApi(last.slug, Some(last.outcome)))]
  {
  }

  lemma InTurnPrefix(log: seq<Answer>, from: Time, to: Time)
    requires InTurn(log, from, to) && log != []
    ensures InTurn(log[..|log| - 1], from, to)
  {
  }

  lemma {:induction false} AnswersAreRun(env: Env, b: State, log: seq<Answer>, to: Time)
    requires env.eng.edge.Edge? && InTurn(log, b.now, to) && Answered(log) <= b.expired
    ensures AfterAnswers(b, log, Run(env, b, Asks(log)))
  {
    if log == [] {
      assert b.expired - Answered(log) == b.expired;
    } else {
      var rest, last := log[..|log| - 1], log[|log| - 1];
      AnsweredGrows(log);
      InTurnPrefix(log, b.now, to);
      AnswersAreRun(env, b, rest, to);
      AskExtends(env, b, log, Run(env, b, Asks(rest)), to);
      AsksGrow(log);
      RunOne(env, b, Asks(rest), Event(last.at, AskApi(last.slug, Some(last.outcome))));
    }
  }

  /** Questions the API does not answer change nothing. */
  lemma {:induction false} SkipUnanswered(env: Env, b: State, at: Time) returns (events: seq<Event>)
    requires env.eng.edge.Edge? && b.now <= at
    ensures Run(env, b, events) == b.(expired := {}, now := if b.expired == {} then b.now else at)
    decreases b.expired
  {
    if b.expired == {} {
      events := [];
    } else {
      var slug :| slug in b.expired;
      var e := Event(at, AskApi(slug, None));
      RunSingle(env, b, e);
      var rest := SkipUnanswered(env, Step(env, b, e), at);
      events := [e] + rest;
      RunInTwo(env, b, [e], rest);
    }
  }

  /** Both halves of a rotation's settlement: collect under the lock, ask and resolve without it. */
  lemma RotationIsRun(env: Env, b: State, collected: Time, log: seq<Answer>, to: Time) returns (events: seq<Event>)
    requires env.eng.edge.Edge? && b.expired == {} && b.now <= collected <= to
    requires InTurn(log, collected, to) && Answered(log) <= Expired(b, collected)
    ensures var b' := Run(env, b, events);
      b' == b.(hub := ForceAll(b.hub, log), now := b'.now) && b'.now <= to
  {
    var e := Event(collected, CollectExpired);
    RunSingle(env, b, e);
    var mid := Run(env, b, [e]);
    AnswersAreRun(env, mid, log, to);
    var asked := Run(env, mid, Asks(log));
    var rest := SkipUnanswered(env, asked, to);
    RunInTwo(env, mid, Asks(log), rest);
    RunInTwo(env, b, [e], Asks(log) + rest);
    events := [e] + (Asks(log) + rest);
  }

  /** Collects under the lock, then asks and resolves without it. */
  method CollectAndResolve(h: Hub, m: Manager, clock: Clock, answers: map<string, string>)
    returns (ghost collected: Time, ghost asked: set<string>, ghost log: seq<Answer>)
    requires h.Valid()
    modifies clock, h`marketValues, h.markets.Values
    ensures h.Valid() && old(clock.now) <= collected <= clock.now
    ensures asked == Overdue(m.positions.Keys, old(h.State()), collected)
    ensures forall s :: s in asked <==> s in m.positions && EndedUnresolved(old(h.State()), s, collected - 30 * SECOND)
    ensures Forced(old(h.State()), h.State(), Restrict(answers, asked), collected, clock.now)
    ensures h.State() == ForceAll(old(h.State()), log) && InTurn(log, collected, clock.now) && Answered(log) <= asked
  {
    var now := clock.Now();
    var expired := m.CollectExpired(h, now);
    collected, asked := now, expired;
    log := m.ResolveExpired(expired, h, answers, clock);
  }

  /**
   The settlement half of a rotation: of the markets of open positions that still trade half a minute after their
   window ended, exactly those the API answers for resolve, with that answer. Executing it, too, is a run of the state
   machine.
   */
  method SettleExpired(h: Hub, m: Manager, db: TradeStore, clock: Clock, answers: map<string, string>, ghost env: Env,
                       ghost b: State)
    returns (ghost events: seq<Event>, ghost collected: Time, ghost asked: set<string>)
    requires h.Valid() && env.eng.edge.Edge? && Holds(b, h, m, db, clock) && b.expired == {}
    modifies clock, h`marketValues, h.markets.Values
    ensures h.Valid() && old(clock.now) <= collected <= clock.now
    ensures forall s :: s in asked <==> s in m.positions && EndedUnresolved(old(h.State()), s, collected - 30 * SECOND)
    ensures Forced(old(h.State()), h.State(), Restrict(answers, asked), collected, clock.now)
    ensures var b' := Run(env, b, events); Holds(b', h, m, db, clock) && b'.expired == {} && b'.phase == b.phase
  {
    ghost var log;
    collected, asked, log := CollectAndResolve(h, m, clock, answers);
    events := RotationIsRun(env, b, collected, log, clock.now);
  }
}
