/** What the table tells when it is read back: the bankroll on a restart, the totals and the curve of the statistics. */
module Readback {
  import opened Prelude
  import opened Risk
  import opened Ledger
  import opened Store
  import opened Bot
  import opened BotLaws
  import opened Filing
  import Stats

  // ---- the bankroll of a restart ----

  /** Everything settled in the table found was settled before this time. */
  ghost predicate SettledBefore(found: seq<Row>, since: Time) {
    forall r | r in SettledRows(found) :: r.closing.value.settledAt < since
  }

  /** The settled rows are those found and those written. */
  ghost predicate OnTable(b: State) {
    && |SettledRows(b.rows)| == |SettledRows(b.found)| + |b.log|
    && forall r :: r in SettledRows(b.rows) <==> r in SettledRows(b.found) || r in b.log
  }

  /** Whether the k-th settlement took the same clock reading as the last one. */
  predicate IsLatest(settlements: seq<Settlement>, k: nat) {
    k < |settlements| && settlements[k].settledAt == settlements[|settlements| - 1].settledAt
  }

  /** A bankroll some settlement at the last clock reading led to. */
  ghost predicate LeftAtLast(settlements: seq<Settlement>, base: real, bankroll: real) {
    exists k | IsLatest(settlements, k) :: bankroll == BankrollAt(settlements, base, k)
  }

  /** Every settlement at the last clock reading left the same profits. */
  ghost predicate LatestAgree(settlements: seq<Settlement>) {
    forall k | IsLatest(settlements, k) :: PnlSum(settlements[..k + 1]) == PnlSum(settlements)
  }

  /** Whichever latest row the query picks, it carries this bankroll. */
  ghost predicate ReadsBack(rows: seq<Row>, bankroll: real) {
    forall last | MayBeLatest(rows, last) :: last == Some(bankroll)
  }

  /**
   What a restart reads back, whatever table the process started on: the bankrolls the latest query may return are
   those that the settlements at the last clock reading led to; without settlements, what it could return before.
   */
  lemma RestartReads(env: Env, start: Time, bankroll: real, found: seq<Row>, events: seq<Event>, b: State,
                     last: Option<real>)
    requires SaneConfig(env) && b == Run(env, Start(env, start, bankroll, found), events)
    requires SettledBefore(found, start)
    ensures b.acct.settlements == [] ==> (MayBeLatest(b.rows, last) <==> MayBeLatest(found, last))
    ensures b.acct.settlements != [] ==>
      (MayBeLatest(b.rows, last) <==> last.Some? && LeftAtLast(b.acct.settlements, bankroll, last.value))
  {
    RunsStayFiled(env, start, bankroll, found, events);
    RowsOnFile(b);
    if b.acct.settlements == [] {
      OnlyFound(b, last);
    } else {
      if MayBeLatest(b.rows, last) {
        LatestIsOurs(b, last);
      }
      if last.Some? && LeftAtLast(b.acct.settlements, bankroll, last.value) {
        OursMayBeLatest(b, last.value);
      }
    }
  }

  lemma RowsOnFile(b: State)
    requires Filed(b)
    ensures OnTable(b)
  {
    assert multiset(SettledRows(b.rows)) == multiset(SettledRows(b.found) + b.log);
    SameElements(SettledRows(b.rows), SettledRows(b.found) + b.log);
  }

  lemma LogNeedsSettlement(log: seq<SettledRow>, settlements: seq<Settlement>, base: real)
    requires LogCarries(log, settlements, base) && log != []
    ensures settlements != []
  {
    assert CarriesSome(log[0], settlements, base);
  }

  lemma OnlyFound(b: State, last: Option<real>)
    requires Filed(b) && OnTable(b) && b.acct.settlements == []
    ensures MayBeLatest(b.rows, last) <==> MayBeLatest(b.found, last)
  {
    if b.log != [] {
      LogNeedsSettlement(b.log, b.acct.settlements, b.base);
    }
  }

  /** A row written carries a time of this run. */
  lemma WrittenAfterStart(b: State, r: SettledRow)
    requires TimedWithin(b.log, b.start, b.now) && r in b.log
    ensures b.start <= r.closing.value.settledAt
  {
    var i :| 0 <= i < |b.log| && b.log[i] == r;
  }

  /** The row of the last settlement is on file, later than any row found. */
  lemma LastOnFile(b: State) returns (x: SettledRow)
    requires Filed(b) && b.acct.settlements != [] && SettledBefore(b.found, b.start)
    ensures x in b.log && x.closing.value.settledAt == b.acct.settlements[|b.acct.settlements| - 1].settledAt
    ensures forall r | r in SettledRows(b.found) :: r.closing.value.settledAt < x.closing.value.settledAt
  {
    var n := |b.acct.settlements| - 1;
    assert CarriedBySome(b.log, b.acct.settlements, b.base, n);
    x :| x in b.log && Carries(x, b.acct.settlements, b.base, n);
    WrittenAfterStart(b, x);
  }

  lemma CarriesPast(b: State, r: SettledRow) returns (k: nat)
    requires LogCarries(b.log, b.acct.settlements, b.base) && InOrder(b.acct.settlements, b.now) && r in b.log
    ensures Carries(r, b.acct.settlements, b.base, k)
    ensures r.closing.value.settledAt <= b.acct.settlements[|b.acct.settlements| - 1].settledAt
  {
    assert CarriesSome(r, b.acct.settlements, b.base);
    k :| Carries(r, b.acct.settlements, b.base, k);
  }

  lemma LatestIsOurs(b: State, last: Option<real>)
    requires Filed(b) && OnTable(b) && b.acct.settlements != []
    requires SettledBefore(b.found, b.start) && MayBeLatest(b.rows, last)
    ensures last.Some? && LeftAtLast(b.acct.settlements, b.base, last.value)
  {
    var x := LastOnFile(b);
    var r :| r in SettledRows(b.rows) && last == Some(r.closing.value.bankrollAfter)
             && forall y | y in SettledRows(b.rows) :: y.closing.value.settledAt <= r.closing.value.settledAt;
    var k := CarriesPast(b, r);
    assert IsLatest(b.acct.settlements, k);
  }

  lemma OursMayBeLatest(b: State, last: real)
    requires Filed(b) && OnTable(b) && LeftAtLast(b.acct.settlements, b.base, last)
    requires SettledBefore(b.found, b.start)
    ensures MayBeLatest(b.rows, Some(last))
  {
    var k :| IsLatest(b.acct.settlements, k) && last == BankrollAt(b.acct.settlements, b.base, k);
    var x := LastOnFile(b);
    assert CarriedBySome(b.log, b.acct.settlements, b.base, k);
    var r :| r in b.log && Carries(r, b.acct.settlements, b.base, k);
    forall y | y in SettledRows(b.rows)
      ensures y.closing.value.settledAt <= r.closing.value.settledAt
    {
      if y in b.log {
        var j := CarriesPast(b, y);
      }
    }
  }

  lemma LastMayBeRead(b: State)
    requires Filed(b) && OnTable(b) && Books(b) && b.acct.settlements != [] && SettledBefore(b.found, b.start)
    ensures MayBeLatest(b.rows, Some(b.acct.bankroll))
  {
    var all := b.acct.settlements;
    var n := |all| - 1;
    assert all[..n + 1] == all && IsLatest(all, n) && BankrollAt(all, b.base, n) == b.acct.bankroll;
    OursMayBeLatest(b, b.acct.bankroll);
  }

  lemma AgreedIsReadBack(b: State)
    requires Filed(b) && OnTable(b) && Books(b) && b.acct.settlements != [] && SettledBefore(b.found, b.start)
    requires LatestAgree(b.acct.settlements)
    ensures ReadsBack(b.rows, b.acct.bankroll)
  {
    forall last | MayBeLatest(b.rows, last)
      ensures last == Some(b.acct.bankroll)
    {
      LatestIsOurs(b, last);
      var k :| IsLatest(b.acct.settlements, k) && last.value == BankrollAt(b.acct.settlements, b.base, k);
    }
  }

  lemma ReadBackIsAgreed(b: State)
    requires Filed(b) && OnTable(b) && Books(b) && b.acct.settlements != [] && SettledBefore(b.found, b.start)
    requires ReadsBack(b.rows, b.acct.bankroll)
    ensures LatestAgree(b.acct.settlements)
  {
    var all := b.acct.settlements;
    forall k | IsLatest(all, k)
      ensures PnlSum(all[..k + 1]) == PnlSum(all)
    {
      OursMayBeLatest(b, BankrollAt(all, b.base, k));
      assert Some(BankrollAt(all, b.base, k)) == Some(b.acct.bankroll);
    }
  }

  /**
   So a restart may always resume with the bankroll the process had, and is sure to exactly when every settlement at
   the last clock reading left the same profits.
   */
  lemma RestartResumesIff(env: Env, start: Time, bankroll: real, found: seq<Row>, events: seq<Event>, b: State)
    requires SaneConfig(env) && b == Run(env, Start(env, start, bankroll, found), events)
    requires SettledBefore(found, start) && b.acct.settlements != []
    ensures MayBeLatest(b.rows, Some(b.acct.bankroll))
    ensures ReadsBack(b.rows, b.acct.bankroll) <==> LatestAgree(b.acct.settlements)
  {
    RunsStayFiled(env, start, bankroll, found, events);
    RowsOnFile(b);
    LastMayBeRead(b);
    if LatestAgree(b.acct.settlements) {
      AgreedIsReadBack(b);
    }
    if ReadsBack(b.rows, b.acct.bankroll) {
      ReadBackIsAgreed(b);
    }
  }

  // ---- the list the statistics read ----

  /** No two rows share a time. */
  ghost predicate DistinctTimes(log: seq<SettledRow>) {
    forall i, j | 0 <= i < j < |log| :: log[i].closing.value.settledAt != log[j].closing.value.settledAt
  }

  /** Every settlement took a clock reading of its own. */
  predicate OwnReadings(settlements: seq<Settlement>) {
    forall i, j | 0 <= i < j < |settlements| :: settlements[i].settledAt != settlements[j].settledAt
  }

  lemma LastOfOrdered(log: seq<SettledRow>, q: seq<SettledRow>)
    requires SortedBySettling(log) && DistinctTimes(log) && SortedBySettling(q) && log != [] && |q| == |log|
    requires forall x :: x in q <==> x in log
    ensures q[|q| - 1] == log[|log| - 1]
  {
    var n := |log| - 1;
    assert q[n] in log && log[n] in q;
    var i :| 0 <= i < |log| && log[i] == q[n];
    var j :| 0 <= j < |q| && q[j] == log[n];
    assert log[n].closing.value.settledAt <= q[n].closing.value.settledAt;
  }

  lemma MultisetWithoutLast(s: seq<SettledRow>)
    requires s != []
    ensures multiset(s[..|s| - 1]) == multiset(s) - multiset{s[|s| - 1]}
  {
    assert s == s[..|s| - 1] + [s[|s| - 1]];
  }

  lemma WithoutLast(s: seq<SettledRow>, t: seq<SettledRow>)
    requires s != [] && t != [] && s[|s| - 1] == t[|t| - 1] && multiset(s) == multiset(t)
    ensures multiset(s[..|s| - 1]) == multiset(t[..|t| - 1])
  {
    MultisetWithoutLast(s);
    MultisetWithoutLast(t);
  }

  /** A list ordered by settlement time is the log, when all times differ. */
  lemma {:induction false} OrderedListIsLog(log: seq<SettledRow>, q: seq<SettledRow>)
    requires SortedBySettling(log) && DistinctTimes(log) && SortedBySettling(q) && multiset(q) == multiset(log)
    ensures q == log
  {
    SameElements(q, log);
    if log != [] {
      LastOfOrdered(log, q);
      WithoutLast(q, log);
      OrderedListIsLog(log[..|log| - 1], q[..|q| - 1]);
      assert q == q[..|q| - 1] + [q[|q| - 1]] && log == log[..|log| - 1] + [log[|log| - 1]];
    }
  }

  lemma SinceAppended(rows: seq<SettledRow>, r: SettledRow, since: Time)
    ensures Since(rows + [r], since)
         == if r.closing.value.settledAt >= since then Since(rows, since) + [r] else Since(rows, since)
  {
    assert (rows + [r])[..|rows|] == rows;
  }

  /** Selecting by time keeps exactly the recent part, wherever it stands in the table. */
  lemma {:induction false} SinceSelects(rows: seq<SettledRow>, since: Time, x: SettledRow)
    ensures multiset(Since(rows, since))[x] == if x.closing.value.settledAt >= since then multiset(rows)[x] else 0
  {
    if rows != [] {
      var rest, last := rows[..|rows| - 1], rows[|rows| - 1];
      assert rows == rest + [last];
      SinceSelects(rest, since, x);
      SinceAppended(rest, last, since);
    }
  }

  /** What the statistics read of a row. */
  function TradeOf(r: SettledRow): Stats.Trade {
    Stats.Trade(r.closing.value.won, r.closing.value.pnl, r.edge, r.confidence)
  }

  function TradesOf(q: seq<SettledRow>): seq<Stats.Trade> {
    seq(|q|, i requires 0 <= i < |q| => TradeOf(q[i]))
  }

  lemma {:induction false} CurveOfLog(log: seq<SettledRow>, settlements: seq<Settlement>, base: real, k: nat)
    requires LogMirrors(log, settlements, base) && k <= |log|
    ensures Stats.Cumulative(TradesOf(log), k) == PnlSum(settlements[..k])
    ensures Stats.WinsIn(TradesOf(log), k) == WonCount(settlements[..k])
  {
    if k > 0 {
      CurveOfLog(log, settlements, base, k - 1);
      assert settlements[..k][..k - 1] == settlements[..k - 1];
      assert LogEntry(log[k - 1], settlements[k - 1], BankrollAt(settlements, base, k - 1));
    }
  }

  /** Selecting from the start of the process on gives what it wrote. */
  lemma SinceStartIsLog(b: State, since: Time)
    requires Filed(b) && SettledBefore(b.found, since) && since <= b.start
    ensures multiset(Since(SettledRows(b.rows), since)) == multiset(b.log)
  {
    forall x: SettledRow
      ensures multiset(Since(SettledRows(b.rows), since))[x] == multiset(b.log)[x]
    {
      SinceSelects(SettledRows(b.rows), since, x);
      if x.closing.value.settledAt >= since {
        assert x !in SettledRows(b.found);
      } else {
        assert x !in b.log;
      }
    }
  }

  /** Each point of the curve the statistics scan is the bankroll after that settlement, less the starting one. */
  lemma CurveIsBankroll(log: seq<SettledRow>, settlements: seq<Settlement>, base: real, k: nat)
    requires LogMirrors(log, settlements, base) && 0 < k <= |log|
    ensures Stats.Cumulative(TradesOf(log), k) == log[k - 1].closing.value.bankrollAfter - base
  {
    CurveOfLog(log, settlements, base, k);
    assert LogEntry(log[k - 1], settlements[k - 1], BankrollAt(settlements, base, k - 1));
  }

  lemma TotalsAgree(b: State)
    requires LogMirrors(b.log, b.acct.settlements, b.base) && Books(b)
    ensures Stats.WinsIn(TradesOf(b.log), |b.log|) == b.acct.wins && |b.log| == b.acct.wins + b.acct.losses
    ensures Stats.Cumulative(TradesOf(b.log), |b.log|) == b.acct.totalPnL == b.acct.bankroll - b.base
  {
    var n := |b.acct.settlements|;
    assert b.acct.settlements[..n] == b.acct.settlements;
    CurveOfLog(b.log, b.acct.settlements, b.base, n);
  }

  lemma {:induction false} TakenOut(log: seq<SettledRow>, j: nat, k: nat)
    requires j < k <= |log|
    ensures var rest := log[..j] + log[j + 1..];
      && Stats.Cumulative(TradesOf(log), k) == Stats.Cumulative(TradesOf(rest), k - 1) + log[j].closing.value.pnl
      && Stats.WinsIn(TradesOf(log), k)
         == Stats.WinsIn(TradesOf(rest), k - 1) + if log[j].closing.value.won then 1 else 0
  {
    var rest := log[..j] + log[j + 1..];
    if k == j + 1 {
      SamePrefix(log, rest, j);
    } else {
      TakenOut(log, j, k - 1);
      assert rest[k - 2] == log[k - 1];
    }
  }

  lemma {:induction false} SamePrefix(p: seq<SettledRow>, q: seq<SettledRow>, k: nat)
    requires k <= |p| && k <= |q| && p[..k] == q[..k]
    ensures Stats.Cumulative(TradesOf(p), k) == Stats.Cumulative(TradesOf(q), k)
    ensures Stats.WinsIn(TradesOf(p), k) == Stats.WinsIn(TradesOf(q), k)
  {
    if k > 0 {
      assert p[..k][k - 1] == q[..k][k - 1];
      assert p[..k - 1] == p[..k][..k - 1] && q[..k - 1] == q[..k][..k - 1];
      SamePrefix(p, q, k - 1);
    }
  }

  lemma MultisetTakenOut(log: seq<SettledRow>, j: nat)
    requires j < |log|
    ensures multiset(log[..j] + log[j + 1..]) == multiset(log) - multiset{log[j]}
  {
    assert log == log[..j] + [log[j]] + log[j + 1..];
  }

  lemma LastAdds(q: seq<SettledRow>)
    requires q != []
    ensures var n := |q| - 1;
      && Stats.Cumulative(TradesOf(q), |q|) == Stats.Cumulative(TradesOf(q[..n]), n) + q[n].closing.value.pnl
      && Stats.WinsIn(TradesOf(q), |q|) == Stats.WinsIn(TradesOf(q[..n]), n) + if q[n].closing.value.won then 1 else 0
  {
    SamePrefix(q, q[..|q| - 1], |q| - 1);
  }

  /** The totals do not depend on the order in which ties are listed. */
  lemma {:induction false} TotalsIgnoreOrder(q: seq<SettledRow>, log: seq<SettledRow>)
    requires multiset(q) == multiset(log)
    ensures |q| == |log|
    ensures Stats.Cumulative(TradesOf(q), |q|) == Stats.Cumulative(TradesOf(log), |log|)
    ensures Stats.WinsIn(TradesOf(q), |q|) == Stats.WinsIn(TradesOf(log), |log|)
  {
    SameElements(q, log);
    if q != [] {
      var n := |q| - 1;
      assert q[n] in log;
      var j :| 0 <= j < |log| && log[j] == q[n];
      MultisetWithoutLast(q);
      MultisetTakenOut(log, j);
      TotalsIgnoreOrder(q[..n], log[..j] + log[j + 1..]);
      TakenOut(log, j, |log|);
      LastAdds(q);
    }
  }

  lemma ListedTotals(b: State, since: Time, q: seq<SettledRow>, s: Stats.Summary)
    requires Filed(b) && Books(b) && Fresh(b) && SettledBefore(b.found, since) && since <= b.start
    requires MayList(b.rows, since, q) && Stats.Summarises(s, TradesOf(q))
    ensures s.marketsTraded == |b.acct.settlements| && s.wins == b.acct.wins && s.losses == b.acct.losses
    ensures s.totalPnL == b.acct.totalPnL == b.acct.bankroll - b.base
  {
    SinceStartIsLog(b, since);
    TotalsIgnoreOrder(q, b.log);
    TotalsAgree(b);
    assert |TradesOf(q)| == |q|;
  }

  /**
   The settled rows since the process began are its ledger, whatever table it started on, if nothing it bought had a
   row left over: the summary's totals are the account's own figures.
   */
  lemma StatisticsAgree(env: Env, start: Time, bankroll: real, found: seq<Row>, events: seq<Event>, b: State,
                        since: Time, q: seq<SettledRow>, s: Stats.Summary)
    requires SaneConfig(env) && b == Run(env, Start(env, start, bankroll, found), events)
    requires Fresh(b) && SettledBefore(found, since) && since <= start
    requires MayList(b.rows, since, q) && Stats.Summarises(s, TradesOf(q))
    ensures s.marketsTraded == |b.acct.settlements| && s.wins == b.acct.wins && s.losses == b.acct.losses
    ensures s.totalPnL == b.acct.totalPnL == b.acct.bankroll - bankroll
  {
    RunsStayFiled(env, start, bankroll, found, events);
    ListedTotals(b, since, q, s);
  }

  /** Two rows of one time may be listed either way round. */
  lemma SwappedIsListed(rows: seq<Row>, since: Time, q: seq<SettledRow>, i: nat) returns (r: seq<SettledRow>)
    requires MayList(rows, since, q) && i + 1 < |q|
    requires q[i].closing.value.settledAt == q[i + 1].closing.value.settledAt
    ensures MayList(rows, since, r) && |r| == |q| && r[i] == q[i + 1] && r[i + 1] == q[i]
  {
    r := q[..i] + [q[i + 1], q[i]] + q[i + 2..];
    assert q == q[..i] + [q[i], q[i + 1]] + q[i + 2..];
    assert multiset([q[i + 1], q[i]]) == multiset([q[i], q[i + 1]]);
    forall j | 0 <= j < |q|
      ensures r[j].closing.value.settledAt == q[j].closing.value.settledAt
    {
    }
  }

  /** Each slug settles once, so the ledger is not read off a list with two settlements swapped. */
  lemma SwapShows(b: State, base: real, q: seq<SettledRow>, r: seq<SettledRow>, i: nat)
    requires Once(b) && LogMirrors(q, b.acct.settlements, base) && |r| == |q| && i + 1 < |q| && r[i] == q[i + 1]
    ensures !LogMirrors(r, b.acct.settlements, base)
  {
    var all := b.acct.settlements;
    assert LogEntry(q[i + 1], all[i + 1], BankrollAt(all, base, i + 1));
    assert !LogEntry(r[i], all[i], BankrollAt(all, base, i));
  }

  /** A list with two equal times has two next to each other. */
  lemma TiesAreAdjacent(settlements: seq<Settlement>, now: Time) returns (i: nat)
    requires InOrder(settlements, now) && !OwnReadings(settlements)
    ensures i + 1 < |settlements| && settlements[i].settledAt == settlements[i + 1].settledAt
  {
    var k, j :| 0 <= k < j < |settlements| && settlements[k].settledAt == settlements[j].settledAt;
    i := k;
    assert settlements[k].settledAt <= settlements[k + 1].settledAt;
    assert k + 1 < j ==> settlements[k + 1].settledAt <= settlements[j].settledAt;
  }

  lemma TimesAreOwn(log: seq<SettledRow>, settlements: seq<Settlement>, base: real)
    requires LogMirrors(log, settlements, base) && OwnReadings(settlements)
    ensures DistinctTimes(log)
  {
    forall i | 0 <= i < |log|
      ensures log[i].closing.value.settledAt == settlements[i].settledAt
    {
      assert LogEntry(log[i], settlements[i], BankrollAt(settlements, base, i));
    }
  }

  /** Every list the query may return is the ledger in order exactly when no two settlements share a clock reading. */
  lemma ListIsLedgerIff(env: Env, start: Time, bankroll: real, found: seq<Row>, events: seq<Event>, b: State,
                        since: Time)
    requires SaneConfig(env) && b == Run(env, Start(env, start, bankroll, found), events)
    requires Fresh(b) && SettledBefore(found, since) && since <= start
    ensures (forall q | MayList(b.rows, since, q) :: LogMirrors(q, b.acct.settlements, bankroll))
            <==> OwnReadings(b.acct.settlements)
  {
    RunsStayFiled(env, start, bankroll, found, events);
    if OwnReadings(b.acct.settlements) {
      TimesAreOwn(b.log, b.acct.settlements, bankroll);
      forall q | MayList(b.rows, since, q)
        ensures LogMirrors(q, b.acct.settlements, bankroll)
      {
        SinceStartIsLog(b, since);
        OrderedListIsLog(b.log, q);
      }
    } else {
      var i := TiesAreAdjacent(b.acct.settlements, b.now);
      SinceStartIsLog(b, since);
      assert LogEntry(b.log[i], b.acct.settlements[i], BankrollAt(b.acct.settlements, bankroll, i));
      assert LogEntry(b.log[i + 1], b.acct.settlements[i + 1], BankrollAt(b.acct.settlements, bankroll, i + 1));
      var r := SwappedIsListed(b.rows, since, b.log, i);
      SwapShows(b, bankroll, b.log, r, i);
    }
  }

  /** Then the curve scanned for the drawdown is the bankroll's. */
  lemma StatisticsFollowBankroll(env: Env, start: Time, bankroll: real, found: seq<Row>, events: seq<Event>, b: State,
                                 since: Time, q: seq<SettledRow>)
    requires SaneConfig(env) && b == Run(env, Start(env, start, bankroll, found), events)
    requires Fresh(b) && SettledBefore(found, since) && since <= start
    requires OwnReadings(b.acct.settlements) && MayList(b.rows, since, q)
    ensures LogMirrors(q, b.acct.settlements, bankroll)
    ensures forall k | 0 < k <= |q| ::
      Stats.Cumulative(TradesOf(q), k) == q[k - 1].closing.value.bankrollAfter - bankroll
  {
    ListIsLedgerIff(env, start, bankroll, found, events, b, since);
    forall k | 0 < k <= |q|
      ensures Stats.Cumulative(TradesOf(q), k) == q[k - 1].closing.value.bankrollAfter - bankroll
    {
      CurveIsBankroll(q, b.acct.settlements, bankroll, k);
    }
  }
}
