/** The one-pass statistics, against the definitions they stand for. */
module Stats {
  import opened Prelude

  /** What the statistics read of a settled trade. */
  datatype Trade = Trade(won: bool, pnl: real, edge: real, confidence: real)

  datatype Summary = Summary(marketsTraded: nat, wins: nat, losses: nat, winRate: real, totalPnL: real, grossWins: real,
                             grossLosses: real, profitFactor: real, avgEdge: real, avgConfidence: real,
                             maxDrawdown: real)

  /** The profit accumulated by the first k trades. */
  function Cumulative(trades: seq<Trade>, k: nat): real
    requires k <= |trades|
  {
    if k == 0 then 0.0 else Cumulative(trades, k - 1) + trades[k - 1].pnl
  }

  function WinsIn(trades: seq<Trade>, k: nat): nat
    requires k <= |trades|
  {
    if k == 0 then 0 else WinsIn(trades, k - 1) + if trades[k - 1].won then 1 else 0
  }

  /** The sum of the absolute profits of the trades that were won, or lost. */
  function Gross(trades: seq<Trade>, won: bool, k: nat): real
    requires k <= |trades|
  {
    if k == 0 then 0.0
    else
      var t := trades[k - 1];
      Gross(trades, won, k - 1) + if t.won != won then 0.0 else if won then t.pnl else Abs(t.pnl)
  }

  function EdgeSum(trades: seq<Trade>, k: nat): real
    requires k <= |trades|
  {
    if k == 0 then 0.0 else EdgeSum(trades, k - 1) + trades[k - 1].edge
  }

  function ConfidenceSum(trades: seq<Trade>, k: nat): real
    requires k <= |trades|
  {
    if k == 0 then 0.0 else ConfidenceSum(trades, k - 1) + trades[k - 1].confidence
  }

  /** The highest point of the curve so far, as the scan keeps it. */
  function PeakOf(trades: seq<Trade>, k: nat): real
    requires k <= |trades|
  {
    if k == 0 then 0.0 else MaxReal(PeakOf(trades, k - 1), Cumulative(trades, k))
  }

  /** The largest distance below the running peak so far. */
  function DropOf(trades: seq<Trade>, k: nat): real
    requires k <= |trades|
  {
    if k == 0 then 0.0 else MaxReal(DropOf(trades, k - 1), PeakOf(trades, k) - Cumulative(trades, k))
  }

  /** How far the curve fell from i to j. */
  function Fall(trades: seq<Trade>, i: nat, j: nat): real
    requires i <= j <= |trades|
  {
    Cumulative(trades, i) - Cumulative(trades, j)
  }

  /** The highest point of the curve up to k, the start included. */
  ghost predicate IsPeak(trades: seq<Trade>, k: nat, peak: real)
    requires k <= |trades|
  {
    && (exists i | 0 <= i <= k :: Cumulative(trades, i) == peak)
    && (forall i | 0 <= i <= k :: Cumulative(trades, i) <= peak)
  }

  /** The largest fall from any point of the curve to any later one. */
  ghost predicate IsMaxDrawdown(trades: seq<Trade>, k: nat, dd: real)
    requires k <= |trades|
  {
    && (exists i, j | 0 <= i <= j <= k :: Fall(trades, i, j) == dd)
    && (forall i, j | 0 <= i <= j <= k :: Fall(trades, i, j) <= dd)
  }

  /** The scan's running peak is the maximum of the curve. */
  lemma {:induction false} ScanFindsPeak(trades: seq<Trade>, k: nat)
    requires k <= |trades|
    ensures IsPeak(trades, k, PeakOf(trades, k))
  {
    if k == 0 {
      assert Cumulative(trades, 0) == 0.0;
    } else {
      ScanFindsPeak(trades, k - 1);
      var i :| 0 <= i <= k - 1 && Cumulative(trades, i) == PeakOf(trades, k - 1);
      var top := if PeakOf(trades, k - 1) < Cumulative(trades, k) then k else i;
      assert Cumulative(trades, top) == PeakOf(trades, k);
    }
  }

  /** One pass suffices: the scan finds the largest fall over all pairs of points. */
  lemma {:induction false} ScanFindsDrawdown(trades: seq<Trade>, k: nat)
    requires k <= |trades|
    ensures IsMaxDrawdown(trades, k, DropOf(trades, k))
  {
    if k == 0 {
      assert Fall(trades, 0, 0) == 0.0;
    } else {
      ScanFindsDrawdown(trades, k - 1);
      ScanFindsPeak(trades, k);
      var i, j :| 0 <= i <= j <= k - 1 && Fall(trades, i, j) == DropOf(trades, k - 1);
      var top :| 0 <= top <= k && Cumulative(trades, top) == PeakOf(trades, k);
      assert Fall(trades, top, k) == PeakOf(trades, k) - Cumulative(trades, k);
      forall x, y | 0 <= x <= y <= k
        ensures Fall(trades, x, y) <= DropOf(trades, k)
      {
        if y == k {
          assert Cumulative(trades, x) <= PeakOf(trades, k);
        }
      }
    }
  }

  /** What the summary says of its trades. */
  ghost predicate Summarises(s: Summary, trades: seq<Trade>) {
    var n := |trades|;
    && s.marketsTraded == n && s.wins == WinsIn(trades, n) && s.wins + s.losses == n
    && s.totalPnL == Cumulative(trades, n)
    && s.grossWins == Gross(trades, true, n) && s.grossLosses == Gross(trades, false, n)
    && s.winRate == (if n == 0 then 0.0 else Over(s.wins as real, n as real))
    && s.profitFactor == (if s.grossLosses > 0.0 then Over(s.grossWins, s.grossLosses) else 0.0)
    && s.avgEdge == (if n == 0 then 0.0 else Over(EdgeSum(trades, n), n as real))
    && s.avgConfidence == (if n == 0 then 0.0 else Over(ConfidenceSum(trades, n), n as real))
    && s.maxDrawdown == Reported(PeakOf(trades, n), DropOf(trades, n))
  }

  /** The drawdown as reported: relative to the starting 100 plus the best gain, and only if there ever was a gain. */
  function Reported(peak: real, dd: real): real {
    if peak > 0.0 then Over(dd, 100.0 + peak) else 0.0
  }

  method ComputeSummary(trades: seq<Trade>) returns (s: Summary)
    ensures Summarises(s, trades)
  {
    s := Summary(|trades|, 0, 0, 0.0, 0.0, 0.0, 0.0, 0.0, 0.0, 0.0, 0.0);
    if |trades| == 0 {
      return;
    }
    var wins, losses, grossWins, grossLosses, totalPnL := 0, 0, 0.0, 0.0, 0.0;
    var sumEdge, sumConf := 0.0, 0.0;
    var cumPnL, peak, maxDD := 0.0, 0.0, 0.0;
    for i := 0 to |trades|
      invariant wins == WinsIn(trades, i) && losses == i - wins
      invariant grossWins == Gross(trades, true, i) && grossLosses == Gross(trades, false, i)
      invariant totalPnL == cumPnL == Cumulative(trades, i)
      invariant sumEdge == EdgeSum(trades, i) && sumConf == ConfidenceSum(trades, i)
      invariant peak == PeakOf(trades, i) && maxDD == DropOf(trades, i)
    {
      var t := trades[i];
      if t.won {
        wins := wins + 1;
        grossWins := grossWins + t.pnl;
      } else {
        losses := losses + 1;
        grossLosses := grossLosses + Abs(t.pnl);
      }
      totalPnL := totalPnL + t.pnl;
      sumEdge := sumEdge + t.edge;
      sumConf := sumConf + t.confidence;
      cumPnL := cumPnL + t.pnl;
      if cumPnL > peak {
        peak := cumPnL;
      }
      var dd := peak - cumPnL;
      if dd > maxDD {
        maxDD := dd;
      }
    }
    var n := |trades| as real;
    s := Summary(|trades|, wins, losses, Over(wins as real, n), totalPnL, grossWins, grossLosses,
                 if grossLosses > 0.0 then Over(grossWins, grossLosses) else 0.0,
                 Over(sumEdge, n), Over(sumConf, n), Reported(peak, maxDD));
  }

  // ---- what totals and averages mean ----

  /** When no lost trade gained, the profit is what was won less what was lost. */
  lemma {:induction false} ProfitIsWonLessLost(trades: seq<Trade>, k: nat)
    requires k <= |trades| && forall t | t in trades && !t.won :: t.pnl <= 0.0
    ensures Cumulative(trades, k) == Gross(trades, true, k) - Gross(trades, false, k)
    ensures Gross(trades, false, k) >= 0.0
  {
    if k > 0 {
      ProfitIsWonLessLost(trades, k - 1);
      assert trades[k - 1] in trades;
    }
  }

  /** So the profit factor exceeds 1 exactly when there is a profit, and the win rate is the share of wins. */
  lemma FactorShowsProfit(s: Summary, trades: seq<Trade>)
    requires Summarises(s, trades) && forall t | t in trades && !t.won :: t.pnl <= 0.0
    ensures s.totalPnL == s.grossWins - s.grossLosses
    ensures s.grossLosses > 0.0 ==> (s.profitFactor > 1.0 <==> s.totalPnL > 0.0)
    ensures s.winRate * (s.wins + s.losses) as real == s.wins as real
  {
    ProfitIsWonLessLost(trades, |trades|);
    if s.grossLosses > 0.0 {
      OverTimes(s.grossWins, s.grossLosses);
      ProductSign(s.grossLosses, s.profitFactor - 1.0);
      ProductSign(s.grossLosses, 1.0 - s.profitFactor);
      assert s.grossLosses * (s.profitFactor - 1.0) == s.grossWins - s.grossLosses;
    }
    if trades != [] {
      OverTimes(s.wins as real, |trades| as real);
    }
  }

  lemma {:induction false} SumsAtLeast(trades: seq<Trade>, k: nat, edge: real, confidence: real)
    requires k <= |trades| && forall i | 0 <= i < k :: edge <= trades[i].edge && confidence <= trades[i].confidence
    ensures k as real * edge <= EdgeSum(trades, k) && k as real * confidence <= ConfidenceSum(trades, k)
  {
    if k > 0 {
      SumsAtLeast(trades, k - 1, edge, confidence);
      AddOne(k - 1, edge);
      AddOne(k - 1, confidence);
    }
  }

  lemma {:induction false} EdgeSumAtMost(trades: seq<Trade>, k: nat, edge: real)
    requires k <= |trades| && forall i | 0 <= i < k :: trades[i].edge <= edge
    ensures EdgeSum(trades, k) <= k as real * edge
  {
    if k > 0 {
      EdgeSumAtMost(trades, k - 1, edge);
      AddOne(k - 1, edge);
    }
  }

  lemma AverageBounds(total: real, n: real, bound: real)
    requires n > 0.0
    ensures Over(total, n) >= bound <==> total >= n * bound
    ensures Over(total, n) <= bound <==> total <= n * bound
  {
    OverTimes(total, n);
    ProductSign(n, Over(total, n) - bound);
    ProductSign(n, bound - Over(total, n));
    assert n * (Over(total, n) - bound) == total - n * bound;
  }

  /** The averages are of the trades' own edges and confidences: no lower than the lowest of them. */
  lemma AveragesAtLeast(s: Summary, trades: seq<Trade>, edge: real, confidence: real)
    requires Summarises(s, trades) && trades != []
    requires forall i | 0 <= i < |trades| :: edge <= trades[i].edge && confidence <= trades[i].confidence
    ensures edge <= s.avgEdge && confidence <= s.avgConfidence
  {
    SumsAtLeast(trades, |trades|, edge, confidence);
    AverageBounds(EdgeSum(trades, |trades|), |trades| as real, edge);
    AverageBounds(ConfidenceSum(trades, |trades|), |trades| as real, confidence);
  }

  lemma AverageEdgeAtMost(s: Summary, trades: seq<Trade>, edge: real)
    requires Summarises(s, trades) && trades != [] && forall i | 0 <= i < |trades| :: trades[i].edge <= edge
    ensures s.avgEdge <= edge
  {
    EdgeSumAtMost(trades, |trades|, edge);
    AverageBounds(EdgeSum(trades, |trades|), |trades| as real, edge);
  }

  ghost predicate EverFell(trades: seq<Trade>) {
    exists i, j | 0 <= i <= j <= |trades| :: Fall(trades, i, j) > 0.0
  }

  ghost predicate EverAhead(trades: seq<Trade>) {
    exists i | 0 <= i <= |trades| :: Cumulative(trades, i) > 0.0
  }

  lemma SignsOfScan(trades: seq<Trade>)
    ensures EverAhead(trades) <==> PeakOf(trades, |trades|) > 0.0
    ensures EverFell(trades) <==> DropOf(trades, |trades|) > 0.0
    ensures DropOf(trades, |trades|) >= 0.0
  {
    ScanFindsPeak(trades, |trades|);
    ScanFindsDrawdown(trades, |trades|);
    assert Fall(trades, 0, 0) == 0.0;
  }

  /**
   A fall is reported exactly when the curve has also once been above its start: an account that only lost reports
   none.
   */
  lemma ReportedIffEverAhead(s: Summary, trades: seq<Trade>)
    requires Summarises(s, trades)
    ensures s.maxDrawdown > 0.0 <==> EverFell(trades) && EverAhead(trades)
  {
    SignsOfScan(trades);
    var peak, drop := PeakOf(trades, |trades|), DropOf(trades, |trades|);
    if peak > 0.0 {
      QuotientSign(drop, 100.0 + peak);
    }
    assert s.maxDrawdown == Reported(peak, drop);
  }

  lemma QuotientSign(a: real, b: real)
    requires b > 0.0 && a >= 0.0
    ensures Over(a, b) > 0.0 <==> a > 0.0
  {
    var q := Over(a, b);
    assert q * b == a;
    ProductSign(b, q);
  }

  // ---- the drawdown as documented ----

  /** What an account that started with 100 holds after the first k trades. */
  function Level(trades: seq<Trade>, k: nat): real
    requires k <= |trades|
  {
    100.0 + Cumulative(trades, k)
  }

  ghost predicate Afloat(trades: seq<Trade>) {
    forall k | 0 <= k <= |trades| :: Level(trades, k) > 0.0
  }

  /** How far the account fell from i to j, relative to what it held at i. */
  function RelativeFall(trades: seq<Trade>, i: nat, j: nat): real
    requires i <= j <= |trades| && Level(trades, i) != 0.0
  {
    Over(Fall(trades, i, j), Level(trades, i))
  }

  /** The worst peak-to-trough loss: the largest relative fall from any point to any later one. */
  ghost predicate IsWorstLoss(trades: seq<Trade>, k: nat, worst: real)
    requires k <= |trades| && Afloat(trades)
  {
    && (exists i, j | 0 <= i <= j <= k :: RelativeFall(trades, i, j) == worst)
    && (forall i, j | 0 <= i <= j <= k :: RelativeFall(trades, i, j) <= worst)
  }

  lemma LessOver(a: real, b: real, base: real)
    requires base > 0.0
    ensures a <= b <==> Over(a, base) <= Over(b, base)
  {
    OverTimes(a, base);
    OverTimes(b, base);
    var p, q := Over(a, base), Over(b, base);
    ProductSign(base, p - q);
    ProductSign(base, q - p);
    assert base * (p - q) == a - b;
  }

  lemma OverMore(a: real, small: real, large: real)
    requires a >= 0.0 && 0.0 < small <= large
    ensures Over(a, large) <= Over(a, small)
    ensures a > 0.0 && small < large ==> Over(a, large) < Over(a, small)
  {
    QuotientSign(a, large);
    OverTimes(a, large);
    OverTimes(a, small);
    var q := Over(a, large);
    ProductSign(q, large - small);
    assert q * small == a - q * (large - small);
    LessOver(q * small, a, small);
    LessOver(a, q * small, small);
    assert Over(q * small, small) == q;
  }

  /** What is lost is what is not left. */
  lemma LossIsRest(from: real, end: real)
    requires from > 0.0
    ensures Over(from - end, from) == 1.0 - Over(end, from)
  {
    OverTimes(from - end, from);
    OverTimes(end, from);
    var excess := Over(from - end, from) + Over(end, from) - 1.0;
    assert from * excess == 0.0;
    ProductSign(from, excess);
    ProductSign(from, -excess);
  }

  /** A scan that divides by the level of its own running peak. */
  function LossScan(trades: seq<Trade>, k: nat): real
    requires k <= |trades|
  {
    if k == 0 then 0.0
    else
      var top := 100.0 + PeakOf(trades, k);
      if top == 0.0 then 0.0 else MaxReal(LossScan(trades, k - 1), Over(top - Level(trades, k), top))
  }

  /** Such a scan would find the documented figure in one pass; in particular there always is one. */
  lemma {:induction false} LossScanFindsWorst(trades: seq<Trade>, k: nat)
    requires k <= |trades| && Afloat(trades)
    ensures IsWorstLoss(trades, k, LossScan(trades, k))
  {
    if k == 0 {
      assert RelativeFall(trades, 0, 0) == 0.0;
    } else {
      LossScanFindsWorst(trades, k - 1);
      ScanFindsPeak(trades, k);
      var i, j :| 0 <= i <= j <= k - 1 && RelativeFall(trades, i, j) == LossScan(trades, k - 1);
      var top :| 0 <= top <= k && Cumulative(trades, top) == PeakOf(trades, k);
      assert Level(trades, top) > 0.0 && Level(trades, k) > 0.0;
      assert RelativeFall(trades, top, k) == Over(Level(trades, top) - Level(trades, k), Level(trades, top));
      forall x, y | 0 <= x <= y <= k
        ensures RelativeFall(trades, x, y) <= LossScan(trades, k)
      {
        if y == k {
          assert Level(trades, x) > 0.0;
          assert Cumulative(trades, x) <= PeakOf(trades, k);
          FallsFurther(trades, x, top, k);
        }
      }
    }
  }

  lemma FallsFurther(trades: seq<Trade>, x: nat, top: nat, k: nat)
    requires x <= k <= |trades| && top <= k && Afloat(trades) && Cumulative(trades, x) <= Cumulative(trades, top)
    ensures Level(trades, x) > 0.0 && Level(trades, top) > 0.0
    ensures RelativeFall(trades, x, k) <= RelativeFall(trades, top, k)
  {
    var from, to, end := Level(trades, x), Level(trades, top), Level(trades, k);
    assert from > 0.0 && to > 0.0 && end > 0.0;
    OverMore(end, from, to);
    LossIsRest(from, end);
    LossIsRest(to, end);
    assert Fall(trades, x, k) == from - end && Fall(trades, top, k) == to - end;
  }

  /** One of the worst losses started from the highest point of the whole curve. */
  ghost predicate WorstFromTop(trades: seq<Trade>, worst: real)
    requires Afloat(trades)
  {
    exists i, j | 0 <= i <= j <= |trades| ::
      RelativeFall(trades, i, j) == worst && IsPeak(trades, |trades|, Cumulative(trades, i))
  }

  /**
   The reported drawdown never overstates the worst peak-to-trough loss. It is exact precisely when the curve never
   fell, or was once above its start and one of its worst losses started from its highest point.
   */
  lemma ReportedNeverOverstates(s: Summary, trades: seq<Trade>, worst: real)
    requires Summarises(s, trades) && Afloat(trades) && IsWorstLoss(trades, |trades|, worst)
    ensures s.maxDrawdown <= worst
    ensures s.maxDrawdown == worst <==> !EverFell(trades) || (EverAhead(trades) && WorstFromTop(trades, worst))
  {
    var n := |trades|;
    var peak, drop := PeakOf(trades, n), DropOf(trades, n);
    SignsOfScan(trades);
    ScanFindsPeak(trades, n);
    ScanFindsDrawdown(trades, n);
    assert RelativeFall(trades, 0, 0) == 0.0;
    assert s.maxDrawdown == Reported(peak, drop);
    var i, j :| 0 <= i <= j <= n && Fall(trades, i, j) == drop;
    LargestFallIsLoss(trades, i, j, peak, drop, worst);
    if EverFell(trades) {
      if EverAhead(trades) && WorstFromTop(trades, worst) {
        var x, y :| 0 <= x <= y <= n && RelativeFall(trades, x, y) == worst && IsPeak(trades, n, Cumulative(trades, x));
        SamePeak(trades, n, peak, Cumulative(trades, x));
        assert Fall(trades, x, y) <= drop;
        LessOver(Fall(trades, x, y), drop, 100.0 + peak);
      }
    } else {
      WorstOfNoFall(trades, worst);
    }
  }

  lemma SamePeak(trades: seq<Trade>, k: nat, p: real, q: real)
    requires k <= |trades| && IsPeak(trades, k, p) && IsPeak(trades, k, q)
    ensures p == q
  {
  }

  lemma WorstOfNoFall(trades: seq<Trade>, worst: real)
    requires Afloat(trades) && IsWorstLoss(trades, |trades|, worst) && !EverFell(trades)
    ensures worst == 0.0
  {
    var i, j :| 0 <= i <= j <= |trades| && RelativeFall(trades, i, j) == worst;
    assert Level(trades, i) > 0.0 && Fall(trades, i, j) <= 0.0;
    LessOver(Fall(trades, i, j), 0.0, Level(trades, i));
    assert RelativeFall(trades, 0, 0) == 0.0;
  }

  /** The largest fall, over the level it started from, is one of the losses; over the highest level it is less. */
  lemma LargestFallIsLoss(trades: seq<Trade>, i: nat, j: nat, peak: real, drop: real, worst: real)
    requires i <= j <= |trades| && Afloat(trades) && IsWorstLoss(trades, |trades|, worst)
    requires Fall(trades, i, j) == drop >= 0.0 && IsPeak(trades, |trades|, peak)
    ensures 0.0 <= Reported(peak, drop) <= worst
    ensures drop > 0.0 && Reported(peak, drop) == worst ==> peak > 0.0 && WorstFromTop(trades, worst)
  {
    var from := Level(trades, i);
    assert from > 0.0 && from <= 100.0 + peak;
    assert RelativeFall(trades, i, j) == Over(drop, from) <= worst;
    QuotientSign(drop, from);
    QuotientSign(drop, 100.0 + peak);
    OverMore(drop, from, 100.0 + peak);
    if drop > 0.0 && Reported(peak, drop) == worst {
      assert from == 100.0 + peak;
      assert RelativeFall(trades, i, j) == worst && IsPeak(trades, |trades|, Cumulative(trades, i));
    }
  }

  const HIDDEN_LOSS := [Trade(true, 10.0, 0.0, 0.0), Trade(false, -20.0, 0.0, 0.0), Trade(true, 200.0, 0.0, 0.0)]

  lemma HiddenLossScans()
    ensures Cumulative(HIDDEN_LOSS, 1) == 10.0 && Cumulative(HIDDEN_LOSS, 2) == -10.0
    ensures Cumulative(HIDDEN_LOSS, 3) == 190.0
    ensures PeakOf(HIDDEN_LOSS, 3) == 190.0 && DropOf(HIDDEN_LOSS, 3) == 20.0
    ensures LossScan(HIDDEN_LOSS, 3) == Over(20.0, 110.0)
  {
    assert Cumulative(HIDDEN_LOSS, 1) == 10.0 && Cumulative(HIDDEN_LOSS, 2) == -10.0;
    assert PeakOf(HIDDEN_LOSS, 1) == 10.0 && PeakOf(HIDDEN_LOSS, 2) == 10.0;
    assert DropOf(HIDDEN_LOSS, 1) == 0.0 && DropOf(HIDDEN_LOSS, 2) == 20.0;
    assert LossScan(HIDDEN_LOSS, 1) == 0.0 && LossScan(HIDDEN_LOSS, 2) == Over(20.0, 110.0);
  }

  lemma HiddenLossAfloat()
    ensures Afloat(HIDDEN_LOSS) && EverAhead(HIDDEN_LOSS) && EverFell(HIDDEN_LOSS)
  {
    HiddenLossScans();
    assert Fall(HIDDEN_LOSS, 1, 2) == 20.0;
    forall k | 0 <= k <= 3
      ensures Level(HIDDEN_LOSS, k) > 0.0
    {
      assert k == 0 || k == 1 || k == 2 || k == 3;
    }
  }

  /** Being once ahead is not enough: gaining 10, losing 20 and gaining 200 reports 20/290, where 20/110 was lost. */
  lemma LaterGainsHideLosses(s: Summary)
    requires Summarises(s, HIDDEN_LOSS)
    ensures Afloat(HIDDEN_LOSS) && EverAhead(HIDDEN_LOSS) && EverFell(HIDDEN_LOSS)
    ensures s.maxDrawdown == Over(20.0, 290.0) && IsWorstLoss(HIDDEN_LOSS, 3, Over(20.0, 110.0))
  {
    HiddenLossAfloat();
    HiddenLossScans();
    LossScanFindsWorst(HIDDEN_LOSS, 3);
    assert s.maxDrawdown == Reported(190.0, 20.0);
  }

  // ---- streaks ----

  /** Trades i to j - 1 all ended this way. */
  predicate AllEnded(trades: seq<Trade>, won: bool, i: nat, j: nat)
    requires i <= j <= |trades|
  {
    forall k | i <= k < j :: trades[k].won == won
  }

  predicate RunAt(trades: seq<Trade>, won: bool, k: nat, i: int, n: nat)
    requires k <= |trades|
  {
    0 <= i && i + n <= k && AllEnded(trades, won, i, i + n)
  }

  /** The length n of the longest unbroken run among the first k trades. */
  ghost predicate IsLongestRun(trades: seq<Trade>, won: bool, k: nat, n: nat)
    requires k <= |trades|
  {
    && (exists i :: RunAt(trades, won, k, i, n))
    && (forall i, j | 0 <= i <= j <= k && AllEnded(trades, won, i, j) :: j - i <= n)
  }

  /** The signed length of the run the first k trades end with: positive for wins, negative for losses. */
  predicate IsFinalRun(trades: seq<Trade>, k: nat, run: int)
    requires k <= |trades|
  {
    var n := if run < 0 then -run else run;
    && n <= k && (k > 0 ==> n > 0)
    && AllEnded(trades, run > 0, k - n, k)
    && (n < k ==> trades[k - n - 1].won != (run > 0))
  }

  lemma StreakStep(trades: seq<Trade>, k: nat, run: int, longest: nat, won: bool)
    requires k < |trades| && IsFinalRun(trades, k, run) && IsLongestRun(trades, won, k, longest)
    ensures var run' := if trades[k].won then (if run > 0 then run + 1 else 1) else (if run < 0 then run - 1 else -1);
      var n := if run' < 0 then -run' else run';
      && IsFinalRun(trades, k + 1, run')
      && IsLongestRun(trades, won, k + 1, if trades[k].won == won && n > longest then n else longest)
  {
    var run' := if trades[k].won then (if run > 0 then run + 1 else 1) else (if run < 0 then run - 1 else -1);
    var n := if run' < 0 then -run' else run';
    assert IsFinalRun(trades, k + 1, run');
    var best := if trades[k].won == won && n > longest then n else longest;
    var start :| RunAt(trades, won, k, start, longest);
    assert RunAt(trades, won, k + 1, if best == longest then start else k + 1 - n, best);
    forall i, j | 0 <= i <= j <= k + 1 && AllEnded(trades, won, i, j)
      ensures j - i <= best
    {
      if j == k + 1 && i < j {
        assert trades[k].won == won;
      }
    }
  }

  method ComputeStreaks(trades: seq<Trade>) returns (maxWin: nat, maxLoss: nat, current: int)
    ensures IsLongestRun(trades, true, |trades|, maxWin)
    ensures IsLongestRun(trades, false, |trades|, maxLoss)
    ensures IsFinalRun(trades, |trades|, current)
  {
    maxWin, maxLoss, current := 0, 0, 0;
    assert RunAt(trades, true, 0, 0, 0) && RunAt(trades, false, 0, 0, 0);
    for i := 0 to |trades|
      invariant IsLongestRun(trades, true, i, maxWin) && IsLongestRun(trades, false, i, maxLoss)
      invariant IsFinalRun(trades, i, current)
    {
      StreakStep(trades, i, current, maxWin, true);
      StreakStep(trades, i, current, maxLoss, false);
      if trades[i].won {
        if current > 0 {
          current := current + 1;
        } else {
          current := 1;
        }
        if current > maxWin {
          maxWin := current;
        }
      } else {
        if current < 0 {
          current := current - 1;
        } else {
          current := -1;
        }
        if -current > maxLoss {
          maxLoss := -current;
        }
      }
    }
  }
}
