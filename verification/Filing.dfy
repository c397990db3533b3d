/** Persistence: in every run the trades table mirrors the account. */
module Filing {
  import opened Prelude
  import opened Risk
  import opened Ledger
  import opened Store
  import opened RiskManager
  import opened Bot
  import opened BotLaws

  // ---- updates row by row ----

  lemma {:induction false} WrittenFromRow(rows: seq<Row>, call: SettleCall, at: Time, w: SettledRow) returns (i: nat)
    requires w in Written(rows, call, at)
    ensures i < |rows| && Touches(rows[i], call.slug) && w == Closed(rows[i], call, at)
  {
    var rest, last := rows[..|rows| - 1], rows[|rows| - 1];
    if Touches(last, call.slug) && w == Closed(last, call, at) {
      i := |rows| - 1;
    } else {
      i := WrittenFromRow(rest, call, at, w);
    }
  }

  // ---- the mirror ----

  /** An open position whose row has been logged: all but the one just opened. */
  predicate OnFile(acct: Account, phase: Phase, slug: string) {
    slug in acct.positions && !(phase.Recorded? && phase.order.market == slug)
  }

  /** A row describes a position; only the opening times are separate clock readings. */
  predicate Describes(r: Row, p: Position) {
    && r.slug == p.slug && r.dir == p.dir && r.token == p.token && r.entryPrice == p.price && r.shares == p.size
    && r.cost == p.cost && r.kellyFrac == p.kellyFrac && r.modelProb == p.modelProb
  }

  /** The unsettled rows of a slug that an earlier process left and that this one has not settled. */
  function Leftover(found: seq<Row>, acct: Account, slug: string): nat {
    if SettledIn(acct, slug) then 0 else Pending(found, slug)
  }

  /** A row found at the start is still there, at most settled. */
  predicate Kept(found: Row, r: Row) {
    r == found || (found.closing.None? && r.closing.Some? && r == found.(closing := r.closing))
  }

  /** The rows found are kept; of the rows added since, the unsettled ones and the logged open positions correspond. */
  ghost predicate RowsMirror(rows: seq<Row>, found: seq<Row>, acct: Account, phase: Phase) {
    && (forall slug :: Pending(rows, slug) == Leftover(found, acct, slug) + if OnFile(acct, phase, slug) then 1 else 0)
    && |found| <= |rows| && (forall i | 0 <= i < |found| :: Kept(found[i], rows[i]))
    && (forall i | |found| <= i < |rows| && rows[i].closing.None? ::
          rows[i].slug in acct.positions && Describes(rows[i], acct.positions[rows[i].slug]))
    && (phase.Recorded? ==>
          && phase.order.market in acct.positions && !SettledIn(acct, phase.order.market)
          && Describes(RowFor(phase.order, phase.dec, 0), acct.positions[phase.order.market]))
  }

  predicate LogEntry(r: SettledRow, s: Settlement, bankroll: real) {
    && r.slug == s.slug && r.dir == s.dir && r.cost == s.cost
    && r.closing.value.won == s.won && r.closing.value.pnl == s.pnl
    && r.closing.value.settledAt == s.settledAt && r.closing.value.bankrollAfter == bankroll
  }

  /** The bankroll the k-th settlement led to. */
  function BankrollAt(settlements: seq<Settlement>, base: real, k: nat): real
    requires k < |settlements|
  {
    base + PnlSum(settlements[..k + 1])
  }

  /** The settlements as filed: one row each, in order, with the bankroll each of them led to. */
  predicate LogMirrors(log: seq<SettledRow>, settlements: seq<Settlement>, base: real) {
    && |log| == |settlements|
    && forall i | 0 <= i < |log| :: LogEntry(log[i], settlements[i], BankrollAt(settlements, base, i))
  }

  ghost predicate TimedWithin(log: seq<SettledRow>, start: Time, now: Time) {
    SortedBySettling(log) && forall i | 0 <= i < |log| :: start <= log[i].closing.value.settledAt <= now
  }

  /** A row that carries the time of the k-th settlement and the bankroll it led to. */
  predicate Carries(r: SettledRow, settlements: seq<Settlement>, base: real, k: nat) {
    && k < |settlements|
    && r.closing.value.settledAt == settlements[k].settledAt
    && r.closing.value.bankrollAfter == BankrollAt(settlements, base, k)
  }

  ghost predicate CarriesSome(r: SettledRow, settlements: seq<Settlement>, base: real) {
    exists k :: Carries(r, settlements, base, k)
  }

  ghost predicate CarriedBySome(log: seq<SettledRow>, settlements: seq<Settlement>, base: real, k: nat) {
    exists r | r in log :: Carries(r, settlements, base, k)
  }

  /** Each row written carries some settlement, and each settlement is carried by some row. */
  ghost predicate LogCarries(log: seq<SettledRow>, settlements: seq<Settlement>, base: real) {
    && (forall r | r in log :: CarriesSome(r, settlements, base))
    && (forall k: nat | k < |settlements| :: CarriedBySome(log, settlements, base, k))
  }

  /** The settlements stand in the order of their times, none of them in the future. */
  predicate InOrder(settlements: seq<Settlement>, now: Time) {
    && (forall i, j | 0 <= i < j < |settlements| :: settlements[i].settledAt <= settlements[j].settledAt)
    && (forall i | 0 <= i < |settlements| :: settlements[i].settledAt <= now)
  }

  /** Nothing bought in this run had an unsettled row when it began. */
  ghost predicate Fresh(b: State) {
    forall slug | slug in b.placed :: Pending(b.found, slug) == 0
  }

  ghost predicate Filed(b: State) {
    && b.start <= b.now
    && RowsMirror(b.rows, b.found, b.acct, b.phase)
    && TimedWithin(b.log, b.start, b.now)
    && LogCarries(b.log, b.acct.settlements, b.base) && InOrder(b.acct.settlements, b.now)
    && multiset(SettledRows(b.rows)) == multiset(SettledRows(b.found)) + multiset(b.log)
    && (Fresh(b) ==> LogMirrors(b.log, b.acct.settlements, b.base))
  }

  lemma SettlementMovesRow(rows: seq<Row>, found: seq<Row>, acct: Account, phase: Phase, cfg: ManagerConfig, s: Stamp)
    requires RowsMirror(rows, found, acct, phase) && phase.Settling?
    requires s.slug in acct.positions && !SettledIn(acct, s.slug)
    ensures RowsMirror(SettleRows(rows, CallFor(acct, cfg, s), s.at), found, SettleOne(acct, cfg, s), phase)
    ensures Pending(rows, s.slug) == 1 + Pending(found, s.slug)
  {
    var call := CallFor(acct, cfg, s);
    PendingMoves(rows, found, acct, phase, cfg, s);
    forall i | 0 <= i < |rows|
      ensures SettleRows(rows, call, s.at)[i]
           == if Touches(rows[i], call.slug) then Closed(rows[i], call, s.at) else rows[i]
    {
      UpdateRow(rows, call, s.at, i);
    }
  }

  lemma PendingMoves(rows: seq<Row>, found: seq<Row>, acct: Account, phase: Phase, cfg: ManagerConfig, s: Stamp)
    requires forall slug ::
      Pending(rows, slug) == Leftover(found, acct, slug) + if OnFile(acct, phase, slug) then 1 else 0
    requires s.slug in acct.positions && !SettledIn(acct, s.slug) && phase.Settling?
    ensures Pending(rows, s.slug) == 1 + Pending(found, s.slug)
    ensures var after := SettleOne(acct, cfg, s); var rows' := SettleRows(rows, CallFor(acct, cfg, s), s.at);
      forall slug :: Pending(rows', slug) == Leftover(found, after, slug) + if OnFile(after, phase, slug) then 1 else 0
  {
    var call, after := CallFor(acct, cfg, s), SettleOne(acct, cfg, s);
    SettlingMarks(acct, cfg, s);
    forall slug
      ensures Pending(SettleRows(rows, call, s.at), slug)
           == Leftover(found, after, slug) + if OnFile(after, phase, slug) then 1 else 0
    {
      UpdateMovesRows(rows, call, s.at, slug);
      assert OnFile(after, phase, slug) <==> OnFile(acct, phase, slug) && slug != s.slug;
    }
    assert OnFile(acct, phase, s.slug);
  }

  lemma PrefixOfAppended(settlements: seq<Settlement>, s: Settlement, k: nat)
    requires k <= |settlements|
    ensures (settlements + [s])[..k] == settlements[..k]
  {
  }

  lemma LogGrows(log: seq<SettledRow>, settlements: seq<Settlement>, base: real, r: SettledRow, s: Settlement)
    requires LogMirrors(log, settlements, base) && LogEntry(r, s, base + PnlSum(settlements + [s]))
    ensures LogMirrors(log + [r], settlements + [s], base)
  {
    var all, n := settlements + [s], |log|;
    forall k | 0 <= k < n + 1
      ensures LogEntry((log + [r])[k], all[k], BankrollAt(all, base, k))
    {
      if k < n {
        PrefixOfAppended(settlements, s, k + 1);
      } else {
        assert all[..n + 1] == all;
      }
    }
  }

  lemma StillCarries(r: SettledRow, settlements: seq<Settlement>, s: Settlement, base: real, k: nat)
    requires Carries(r, settlements, base, k)
    ensures Carries(r, settlements + [s], base, k)
  {
    PrefixOfAppended(settlements, s, k + 1);
  }

  /** Rows that carry an appended settlement, at least one, keep the correspondence. */
  lemma CarriedGrows(log: seq<SettledRow>, settlements: seq<Settlement>, base: real, w: seq<SettledRow>, s: Settlement)
    requires LogCarries(log, settlements, base) && w != []
    requires forall r | r in w :: Carries(r, settlements + [s], base, |settlements|)
    ensures LogCarries(log + w, settlements + [s], base)
  {
    var all, n := settlements + [s], |settlements|;
    forall r | r in log + w
      ensures CarriesSome(r, all, base)
    {
      if r in log {
        assert CarriesSome(r, settlements, base);
        var k :| Carries(r, settlements, base, k);
        StillCarries(r, settlements, s, base, k);
      }
    }
    forall k: nat | k < |all|
      ensures CarriedBySome(log + w, all, base, k)
    {
      if k < n {
        assert CarriedBySome(log, settlements, base, k);
        var r :| r in log && Carries(r, settlements, base, k);
        StillCarries(r, settlements, s, base, k);
        assert r in log + w;
      } else {
        assert w[0] in log + w;
      }
    }
  }

  /** What one settlement writes: rows that carry it, at least one, and exactly one if no row was left over. */
  lemma WrittenIsEntry(b: State, cfg: ManagerConfig, s: Stamp)
    requires RowsMirror(b.rows, b.found, b.acct, b.phase) && b.phase.Settling? && Balanced(b.acct, b.base, |b.placed|)
    requires s.slug in b.acct.positions && !SettledIn(b.acct, s.slug)
    ensures var w := Written(b.rows, CallFor(b.acct, cfg, s), s.at); var after := SettleOne(b.acct, cfg, s);
      && w != []
      && (forall x | x in w :: x.closing.value.settledAt == s.at && x.closing.value.bankrollAfter == after.bankroll)
      && after.bankroll == b.base + PnlSum(after.settlements)
      && (Pending(b.found, s.slug) == 0 ==>
            |w| == 1 && LogEntry(w[0], after.settlements[|after.settlements| - 1], b.base + PnlSum(after.settlements)))
  {
    var call := CallFor(b.acct, cfg, s);
    var w := Written(b.rows, call, s.at);
    SettlementMovesRow(b.rows, b.found, b.acct, b.phase, cfg, s);
    SettleBalances(b.acct, cfg, s, b.base, |b.placed|);
    if Pending(b.found, s.slug) == 0 {
      assert w[0] in w;
      var i := WrittenFromRow(b.rows, call, s.at, w[0]);
      NotFound(b.rows, b.found, b.acct, b.phase, s.slug, i);
    }
  }

  /** Without rows left over, an unsettled row of the slug is one added since. */
  lemma NotFound(rows: seq<Row>, found: seq<Row>, acct: Account, phase: Phase, slug: string, i: nat)
    requires RowsMirror(rows, found, acct, phase) && Pending(found, slug) == 0 && i < |rows| && Touches(rows[i], slug)
    ensures i >= |found|
  {
    if i < |found| {
      PendingCounts(found, slug, i);
    }
  }

  lemma {:induction false} PendingCounts(rows: seq<Row>, slug: string, i: nat)
    requires i < |rows| && Touches(rows[i], slug)
    ensures Pending(rows, slug) > 0
  {
    if i < |rows| - 1 {
      PendingCounts(rows[..|rows| - 1], slug, i);
    }
  }

  lemma SettlementLogged(b: State, cfg: ManagerConfig, s: Stamp)
    requires Filed(b) && Books(b)
    requires b.phase.Settling? && s.slug in b.acct.positions && !SettledIn(b.acct, s.slug) && b.now <= s.at
    ensures var w := Written(b.rows, CallFor(b.acct, cfg, s), s.at); var after := SettleOne(b.acct, cfg, s);
      && TimedWithin(b.log + w, b.start, s.at)
      && LogCarries(b.log + w, after.settlements, b.base) && InOrder(after.settlements, s.at)
  {
    WrittenIsEntry(b, cfg, s);
    var w := Written(b.rows, CallFor(b.acct, cfg, s), s.at);
    var after, n := SettleOne(b.acct, cfg, s), |b.acct.settlements|;
    assert after.settlements == b.acct.settlements + [after.settlements[n]];
    assert after.settlements[..n + 1] == after.settlements;
    TimesGrow(b.log, w, b.start, b.now, s.at);
    CarriedGrows(b.log, b.acct.settlements, b.base, w, after.settlements[n]);
  }

  lemma SettlementMirrored(b: State, cfg: ManagerConfig, s: Stamp)
    requires Filed(b) && Books(b) && Fresh(b) && s.slug in b.placed
    requires b.phase.Settling? && s.slug in b.acct.positions && !SettledIn(b.acct, s.slug)
    ensures var w := Written(b.rows, CallFor(b.acct, cfg, s), s.at);
      LogMirrors(b.log + w, SettleOne(b.acct, cfg, s).settlements, b.base)
  {
    WrittenIsEntry(b, cfg, s);
    var w := Written(b.rows, CallFor(b.acct, cfg, s), s.at);
    var after, n := SettleOne(b.acct, cfg, s), |b.acct.settlements|;
    assert w == [w[0]] && after.settlements == b.acct.settlements + [after.settlements[n]];
    LogGrows(b.log, b.acct.settlements, b.base, w[0], after.settlements[n]);
  }

  lemma TimesGrow(log: seq<SettledRow>, w: seq<SettledRow>, start: Time, now: Time, at: Time)
    requires TimedWithin(log, start, now) && start <= now <= at
    requires forall x | x in w :: x.closing.value.settledAt == at
    ensures TimedWithin(log + w, start, at)
  {
    forall i | 0 <= i < |w|
      ensures w[i].closing.value.settledAt == at
    {
      assert w[i] in w;
    }
  }

  lemma RowsMoved(rows: seq<Row>, found: seq<Row>, log: seq<SettledRow>, call: SettleCall, at: Time)
    requires multiset(SettledRows(rows)) == multiset(SettledRows(found)) + multiset(log)
    ensures multiset(SettledRows(SettleRows(rows, call, at)))
         == multiset(SettledRows(found)) + multiset(log + Written(rows, call, at))
  {
    UpdateMovesRows(rows, call, at, call.slug);
  }

  lemma FiledVisit(env: Env, b: State, e: Event)
    requires env.eng.edge.Edge? && Filed(b) && Once(b) && Books(b) && e.action.Visit? && Enabled(b, e)
    ensures Filed(Step(env, b, e))
  {
    var slug := e.action.slug;
    if slug in b.acct.positions && b.hub.IsResolved(slug) {
      NotSettledYet(b, slug);
      FiledAfter(b, Step(env, b, e), env.cfg, StampFor(b.hub, slug, e.at));
    } else {
      FiledUnmoved(b, Step(env, b, e));
    }
  }

  lemma FiledAfter(b: State, b': State, cfg: ManagerConfig, s: Stamp)
    requires Filed(b) && Books(b) && s.slug in b.placed && b'.phase.Settling?
    requires b.phase.Settling? && s.slug in b.acct.positions && !SettledIn(b.acct, s.slug) && b.now <= s.at
    requires b'.acct == SettleOne(b.acct, cfg, s) && b'.rows == SettleRows(b.rows, CallFor(b.acct, cfg, s), s.at)
    requires b'.log == b.log + Written(b.rows, CallFor(b.acct, cfg, s), s.at)
    requires b'.placed == b.placed && b'.found == b.found && b'.start == b.start && b'.base == b.base && b'.now == s.at
    ensures Filed(b')
  {
    FiledSettlement(b, cfg, s);
    MirrorIgnoresPhase(b'.rows, b.found, b'.acct, b'.acct, b.phase, b'.phase);
    assert Fresh(b') <==> Fresh(b);
  }

  lemma FiledSettlement(b: State, cfg: ManagerConfig, s: Stamp)
    requires Filed(b) && Books(b) && s.slug in b.placed
    requires b.phase.Settling? && s.slug in b.acct.positions && !SettledIn(b.acct, s.slug) && b.now <= s.at
    ensures var call, after := CallFor(b.acct, cfg, s), SettleOne(b.acct, cfg, s);
      var rows, log := SettleRows(b.rows, call, s.at), b.log + Written(b.rows, call, s.at);
      && RowsMirror(rows, b.found, after, b.phase)
      && TimedWithin(log, b.start, s.at)
      && LogCarries(log, after.settlements, b.base) && InOrder(after.settlements, s.at)
      && multiset(SettledRows(rows)) == multiset(SettledRows(b.found)) + multiset(log)
      && (Fresh(b) ==> LogMirrors(log, after.settlements, b.base))
  {
    SettlementMovesRow(b.rows, b.found, b.acct, b.phase, cfg, s);
    SettlementLogged(b, cfg, s);
    RowsMoved(b.rows, b.found, b.log, CallFor(b.acct, cfg, s), s.at);
    if Fresh(b) {
      SettlementMirrored(b, cfg, s);
    }
  }

  lemma NotSettledYet(b: State, slug: string)
    requires Once(b) && slug in b.acct.positions
    ensures !SettledIn(b.acct, slug)
  {
  }

  lemma LoggingMirrors(rows: seq<Row>, found: seq<Row>, acct: Account, phase: Phase, at: Time)
    requires RowsMirror(rows, found, acct, phase) && phase.Recorded?
    ensures RowsMirror(rows + [RowFor(phase.order, phase.dec, at)], found, acct, Idle)
  {
    var r := RowFor(phase.order, phase.dec, at);
    forall slug
      ensures Pending(rows + [r], slug) == Leftover(found, acct, slug) + if OnFile(acct, Idle, slug) then 1 else 0
    {
      AppendedRow(rows, r, slug);
      assert Pending(rows, slug) == Leftover(found, acct, slug) + if OnFile(acct, phase, slug) then 1 else 0;
    }
  }

  lemma FiledLog(env: Env, b: State, e: Event)
    requires env.eng.edge.Edge? && Filed(b) && e.action.Log? && Enabled(b, e)
    ensures Filed(Step(env, b, e))
  {
    LoggingMirrors(b.rows, b.found, b.acct, b.phase, e.at);
    AppendedRow(b.rows, RowFor(b.phase.order, b.phase.dec, e.at), "");
    var b' := Step(env, b, e);
    assert RowsMirror(b'.rows, b'.found, b'.acct, b'.phase) && b'.log == b.log && b'.acct == b.acct;
    assert Fresh(b') <==> Fresh(b);
  }

  lemma RecordingMirrors(b: State, at: Time)
    requires b.phase.Ordered? && RowsMirror(b.rows, b.found, b.acct, b.phase) && Once(b)
    ensures RowsMirror(b.rows, b.found, Open(b.acct, b.phase.order, at), Recorded(b.phase.dec, b.phase.order))
  {
    var acct, phase := Open(b.acct, b.phase.order, at), Recorded(b.phase.dec, b.phase.order);
    assert forall slug :: SettledIn(acct, slug) <==> SettledIn(b.acct, slug);
    forall slug
      ensures Pending(b.rows, slug) == Leftover(b.found, acct, slug) + if OnFile(acct, phase, slug) then 1 else 0
    {
      assert OnFile(acct, phase, slug) <==> OnFile(b.acct, b.phase, slug);
    }
  }

  lemma FiledRecord(env: Env, b: State, e: Event)
    requires env.eng.edge.Edge? && Filed(b) && Once(b) && e.action.Record? && Enabled(b, e)
    ensures Filed(Step(env, b, e))
  {
    RecordingMirrors(b, e.at);
    var b' := Step(env, b, e);
    assert RowsMirror(b'.rows, b'.found, b'.acct, b'.phase);
    assert forall slug | slug in b.placed :: slug in b'.placed;
    assert Fresh(b') ==> Fresh(b);
  }

  lemma MirrorIgnoresPhase(rows: seq<Row>, found: seq<Row>, a: Account, a': Account, phase: Phase, phase': Phase)
    requires RowsMirror(rows, found, a, phase) && a'.positions == a.positions && a'.settlements == a.settlements
    requires phase' == phase || (!phase.Recorded? && !phase'.Recorded?)
    ensures RowsMirror(rows, found, a', phase')
  {
    assert forall slug :: SettledIn(a', slug) <==> SettledIn(a, slug);
    forall slug
      ensures Pending(rows, slug) == Leftover(found, a', slug) + if OnFile(a', phase', slug) then 1 else 0
    {
      assert OnFile(a', phase', slug) <==> OnFile(a, phase, slug);
    }
  }

  /** A step that settles, opens and files nothing keeps everything. */
  lemma FiledUnmoved(b: State, b': State)
    requires Filed(b) && b'.rows == b.rows && b'.log == b.log && b'.placed == b.placed && b'.found == b.found
    requires b'.acct.positions == b.acct.positions && b'.acct.settlements == b.acct.settlements
    requires b'.acct.bankroll == b.acct.bankroll && b'.start == b.start && b'.base == b.base && b.now <= b'.now
    requires b'.phase == b.phase || (!b.phase.Recorded? && !b'.phase.Recorded?)
    ensures Filed(b')
  {
    MirrorIgnoresPhase(b.rows, b.found, b.acct, b'.acct, b.phase, b'.phase);
    assert Fresh(b') <==> Fresh(b);
  }

  lemma FiledElsewhere(env: Env, b: State, e: Event)
    requires env.eng.edge.Edge? && Filed(b) && Enabled(b, e)
    requires Background(e.action) || e.action.Tick? || e.action.Decide? || e.action.Evaluate?
    ensures Filed(Step(env, b, e))
  {
    FiledUnmoved(b, Step(env, b, e));
  }

  lemma StepKeepsFiled(env: Env, b: State, e: Event)
    requires env.eng.edge.Edge? && Filed(b) && Once(b) && Books(b)
    ensures Filed(Step(env, b, e)) && Step(env, b, e).found == b.found
  {
    if Enabled(b, e) {
      match e.action
      case Visit(_) => FiledVisit(env, b, e);
      case Record => FiledRecord(env, b, e);
      case Log => FiledLog(env, b, e);
      case _ => FiledElsewhere(env, b, e);
    }
  }

  lemma StartIsFiled(env: Env, start: Time, bankroll: real, found: seq<Row>)
    ensures Filed(Start(env, start, bankroll, found))
  {
    var b := Start(env, start, bankroll, found);
    assert forall slug :: !SettledIn(b.acct, slug) && !OnFile(b.acct, b.phase, slug);
  }

  lemma {:induction false} RunsStayFiled(env: Env, start: Time, bankroll: real, found: seq<Row>, events: seq<Event>)
    requires SaneConfig(env)
    ensures var b := Run(env, Start(env, start, bankroll, found), events);
      Filed(b) && Once(b) && Books(b) && b.start == start && b.base == bankroll && b.found == found
  {
    var s := Start(env, start, bankroll, found);
    StartIsSound(env, start, bankroll, found);
    RunsStaySound(env, s, events);
    if events == [] {
      StartIsFiled(env, start, bankroll, found);
    } else {
      var rest := events[..|events| - 1];
      RunsStayFiled(env, start, bankroll, found, rest);
      StepKeepsFiled(env, Run(env, s, rest), events[|events| - 1]);
    }
  }

  // ---- what the table tells ----

  /**
   Between ticks each open position has exactly one unsettled row among those added by this run, which describes
   it; of every slug there are besides only the rows left over from before, until this run settles the slug.
   */
  lemma TableMirrorsPositions(env: Env, start: Time, bankroll: real, found: seq<Row>, events: seq<Event>)
    requires SaneConfig(env)
    ensures var b := Run(env, Start(env, start, bankroll, found), events);
      b.phase.Idle? ==>
        && (forall slug ::
              Pending(b.rows, slug) == Leftover(found, b.acct, slug) + if slug in b.acct.positions then 1 else 0)
        && |found| <= |b.rows| && (forall i | 0 <= i < |found| :: Kept(found[i], b.rows[i]))
        && (forall i | |found| <= i < |b.rows| && b.rows[i].closing.None? ::
              b.rows[i].slug in b.acct.positions && Describes(b.rows[i], b.acct.positions[b.rows[i].slug]))
  {
    RunsStayFiled(env, start, bankroll, found, events);
    var b := Run(env, Start(env, start, bankroll, found), events);
    if b.phase.Idle? {
      forall slug
        ensures Pending(b.rows, slug) == Leftover(found, b.acct, slug) + if slug in b.acct.positions then 1 else 0
      {
        assert OnFile(b.acct, b.phase, slug) <==> slug in b.acct.positions;
      }
    }
  }

  /**
   In every run, on whatever table, a settlement updates one row more than were left over of its slug: one row
   exactly when the slug had no unsettled row when the process started.
   */
  lemma EachSettlementUpdatesOneRow(env: Env, start: Time, bankroll: real, found: seq<Row>, events: seq<Event>,
                                    slug: string)
    requires SaneConfig(env)
    ensures var b := Run(env, Start(env, start, bankroll, found), events);
      b.phase.Settling? && slug in b.acct.positions ==>
        && Pending(b.rows, slug) == 1 + Pending(found, slug)
        && (Pending(b.rows, slug) == 1 <==> Pending(found, slug) == 0)
  {
    RunsStayFiled(env, start, bankroll, found, events);
    var b := Run(env, Start(env, start, bankroll, found), events);
    if b.phase.Settling? && slug in b.acct.positions {
      NotSettledYet(b, slug);
      assert OnFile(b.acct, b.phase, slug);
    }
  }
}
