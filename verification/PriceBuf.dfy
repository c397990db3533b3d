/** The BTC price window: a ring buffer with its moving average, regression slope and deviation. */
module PriceBuf {
  import opened Prelude
  import opened Ring
  import opened Regression

  datatype PriceEntry = PriceEntry(price: real, timestamp: int)

  function Prices(entries: seq<PriceEntry>): seq<real> {
    seq(|entries|, i requires 0 <= i < |entries| => entries[i].price)
  }

  /** The newest n of the entries, oldest first. */
  function Newest(entries: seq<PriceEntry>, n: nat): seq<PriceEntry>
    requires n <= |entries|
  {
    entries[|entries| - n..]
  }

  /** The prices a window of the requested size sees: fewer when the buffer holds fewer, none for a negative size. */
  function WindowPrices(entries: seq<PriceEntry>, window: int): seq<real> {
    var n := Min(window, |entries|);
    if n <= 0 then [] else Prices(Newest(entries, n))
  }

  lemma WindowSize(entries: seq<PriceEntry>, window: int)
    ensures |WindowPrices(entries, window)| == if Min(window, |entries|) <= 0 then 0 else Min(window, |entries|)
    ensures WindowPrices(entries, Min(window, |entries|)) == WindowPrices(entries, window)
  {
  }

  lemma WindowPriceAt(entries: seq<PriceEntry>, window: int, j: nat)
    requires j < Min(window, |entries|)
    ensures |WindowPrices(entries, window)| == Min(window, |entries|)
    ensures WindowPrices(entries, window)[j] == entries[|entries| - Min(window, |entries|) + j].price
  {
  }

  /** The prices w are the newest |w| of the history. */
  ghost predicate EndsWith(history: seq<PriceEntry>, w: seq<real>) {
    |w| <= |history| && forall j | 0 <= j < |w| :: w[j] == history[|history| - |w| + j].price
  }

  /** A window over the retained entries is a window over the whole history. */
  lemma WindowOfHistory(history: seq<PriceEntry>, cap: nat, window: int)
    ensures EndsWith(history, WindowPrices(Retain(history, cap), window))
  {
    var entries := Retain(history, cap);
    var w := WindowPrices(entries, window);
    WindowSize(entries, window);
    forall j | 0 <= j < |w|
      ensures w[j] == history[|history| - |w| + j].price
    {
      WindowPriceAt(entries, window, j);
    }
  }

  /** The slope over a window; None where the code reports no value. */
  function SlopeOver(entries: seq<PriceEntry>, window: int): Option<real> {
    var w := WindowPrices(entries, window);
    if |w| < 2 || Denominator(|w|) == 0.0 then None else Some(SlopeOf(w))
  }

  /**
   The zero-divisor branch is dead: two prices in the window always have a slope, between the smallest and largest
   tick.
   */
  lemma SlopeKnown(entries: seq<PriceEntry>, window: int, lo: real, hi: real)
    requires TicksWithin(WindowPrices(entries, window), lo, hi)
    ensures SlopeOver(entries, window).Some? <==> Min(window, |entries|) >= 2
    ensures SlopeOver(entries, window).Some? ==> lo <= SlopeOver(entries, window).value <= hi
  {
    var w := WindowPrices(entries, window);
    WindowSize(entries, window);
    DenominatorClosed(|w|);
    if |w| >= 2 {
      SlopeWithinTicks(w, lo, hi);
    }
  }

  /** The sample variance over a window. */
  function VarianceOver(entries: seq<PriceEntry>, window: int): Option<real> {
    var w := WindowPrices(entries, window);
    if |w| < 2 then None else Some(Average(SumSquares(w, Mean(w), |w|), |w| - 1))
  }

  predicate IsRoot(r: real, v: real) {
    r >= 0.0 && Square(r) == v
  }

  ghost predicate TakesRoots(sqrt: real -> real) {
    forall v | v >= 0.0 :: IsRoot(sqrt(v), v)
  }

  /** So a variance always has a root to take. */
  lemma VarianceNotNegative(entries: seq<PriceEntry>, window: int)
    ensures VarianceOver(entries, window).Some? ==> VarianceOver(entries, window).value >= 0.0
  {
    var w := WindowPrices(entries, window);
    if |w| >= 2 {
      SumSquaresNotNegative(w, Mean(w), |w|);
      AverageSign(SumSquares(w, Mean(w), |w|), |w| - 1);
    }
  }

  /** The variance is the sum of squares less n times the squared mean, over one less than the number of prices. */
  lemma VarianceIsOverDegrees(entries: seq<PriceEntry>, window: int)
    requires VarianceOver(entries, window).Some?
    ensures var w := WindowPrices(entries, window); var n := |w| as real;
      && |w| >= 2 && Mean(w) * n == SumY(w, |w|)
      && VarianceOver(entries, window).value * (n - 1.0) == SumYY(w, |w|) - n * (Mean(w) * Mean(w))
  {
    var w := WindowPrices(entries, window);
    SpreadAboutMean(w);
    assert Average(SumSquares(w, Mean(w), |w|), |w| - 1) * (|w| - 1) as real == SumSquares(w, Mean(w), |w|);
  }

  lemma AverageSign(total: real, n: nat)
    requires total >= 0.0 && n > 0
    ensures Average(total, n) >= 0.0
  {
  }

  class PriceBuffer {
    const data: array<PriceEntry>
    var head: nat
    var len: nat
    const cap: nat
    /** Everything ever added, oldest first. */
    ghost var history: seq<PriceEntry>

    ghost predicate Valid()
      reads this, data
    {
      && data.Length == cap
      && WellFormed(head, len, cap)
      && Unrolled(data[..], head, len) == Contents()
    }

    /** What the buffer still remembers: the newest cap entries of the history, oldest first. */
    ghost function Contents(): seq<PriceEntry>
      reads this
    {
      Retain(history, cap)
    }

    lemma LenIsRetained()
      requires Valid()
      ensures |Contents()| == len
    {
    }

    constructor (capacity: nat)
      ensures Valid() && fresh(data) && cap == capacity && history == []
    {
      data := new PriceEntry[capacity](i => PriceEntry(0.0, 0));
      cap := capacity;
      head, len := 0, 0;
      history := [];
    }

    method Add(price: real, ts: int)
      requires Valid() && cap > 0
      modifies this, data
      ensures Valid()
      ensures history == old(history) + [PriceEntry(price, ts)]
      ensures Contents() == Retain(old(Contents()) + [PriceEntry(price, ts)], cap)
    {
      var e := PriceEntry(price, ts);
      AdvanceAppends(data[..], head, len, e);
      RetainAgain(history, cap, e);
      ghost var was := data[..];
      data[head] := e;
      assert data[..] == was[head := e];
      head := NextCell(head, cap);
      if len < cap {
        len := len + 1;
      }
      history := history + [e];
    }

    /** The i-th most recent entry, counting from 0. */
    method At(i: nat) returns (e: PriceEntry)
      requires Valid() && i < len
      ensures i < |history| && e == history[|history| - 1 - i]
    {
      CellOfAge(data[..], head, len, i);
      var idx := (head - 1 - i + cap * 2) % cap;
      e := data[idx];
    }

    method Latest() returns (price: real, ts: int, ok: bool)
      requires Valid()
      ensures ok <==> cap > 0 && history != []
      ensures ok ==> PriceEntry(price, ts) == history[|history| - 1]
    {
      if len == 0 {
        return 0.0, 0, false;
      }
      var e := At(0);
      return e.price, e.timestamp, true;
    }

    /** The mean of the newest min(window, cap, count) prices. */
    method SMA(window: int) returns (avg: real, ok: bool)
      requires Valid()
      ensures ok <==> Min(window, len) != 0
      ensures ok && window > 0 ==>
        WindowPrices(Contents(), window) != [] && avg == Mean(WindowPrices(Contents(), window))
      ensures ok && window < 0 ==> avg == 0.0
    {
      LenIsRetained();
      WindowSize(Contents(), window);
      var n := Min(window, len);
      if n <= 0 {
        // An empty window has no mean; a negative one sums nothing and divides that by its size.
        return 0.0, n < 0;
      }
      WindowOfHistory(history, cap, window);
      var sum := SumNewest(n, WindowPrices(Contents(), window));
      return Average(sum, n), true;
    }

    /** SMA's accumulation loop: the newest n prices, added up from the newest. */
    method SumNewest(n: nat, ghost w: seq<real>) returns (sum: real)
      requires Valid() && n <= len && |w| == n && EndsWith(history, w)
      ensures sum == SumY(w, n)
    {
      sum := 0.0;
      for i := 0 to n
        invariant sum == SumOfNewest(w, i)
      {
        var e := At(i);
        assert e.price == w[n - 1 - i];
        SumFromEnd(w, i, e.price, sum);
        sum := sum + e.price;
      }
      SumFromStart(w);
    }

    /** The slope of the least-squares line through the newest min(window, cap, count) prices. */
    method Slope(window: int) returns (slope: real, ok: bool)
      requires Valid()
      ensures SlopeOver(Contents(), window) == if ok then Some(slope) else None
    {
      LenIsRetained();
      WindowSize(Contents(), window);
      var n := Min(window, len);
      if n < 2 {
        return 0.0, false;
      }
      WindowOfHistory(history, cap, window);
      var sumX, sumY, sumXY, sumX2 := RegressionSums(n, WindowPrices(Contents(), window));
      var nf := n as real;
      var denom := Cross(nf, sumX2, sumX, sumX);
      DenominatorClosed(n);
      if denom == 0.0 {
        return 0.0, false;
      }
      return Cross(nf, sumXY, sumX, sumY) / denom, true;
    }

    /** Slope's accumulation loop over the newest n prices, oldest first. */
    method RegressionSums(n: nat, ghost w: seq<real>) returns (sumX: real, sumY: real, sumXY: real, sumX2: real)
      requires Valid() && n <= len && |w| == n && EndsWith(history, w)
      ensures sumX == SumX(n) && sumX2 == SumXX(n) && sumY == SumY(w, n) && sumXY == SumXY(w, n)
    {
      sumX, sumY, sumXY, sumX2 := 0.0, 0.0, 0.0, 0.0;
      for i := 0 to n
        invariant sumX == SumX(i) && sumX2 == SumXX(i)
        invariant sumY == SumY(w, i) && sumXY == SumXY(w, i)
      {
        var x := i as real;
        var e := At(n - 1 - i);
        var y := e.price;
        SumsStep(w, i, x, y);
        sumX := sumX + x;
        sumY := sumY + y;
        sumXY := sumXY + x * y;
        sumX2 := sumX2 + x * x;
      }
    }

    /** StdDev's accumulation loop: the squared distances of the newest n prices from their mean. */
    method SumSquaredDeviations(n: nat, mean: real, ghost w: seq<real>) returns (sumSq: real)
      requires Valid() && n <= len && |w| == n && EndsWith(history, w)
      ensures sumSq == SumSquares(w, mean, n)
    {
      SquaresExist(w, mean);
      ghost var squares: seq<real> :| SquaresOf(w, mean, squares);
      sumSq := 0.0;
      for i := 0 to n
        invariant sumSq == SumOfNewest(squares, i)
      {
        var e := At(i);
        assert e.price == w[n - 1 - i];
        var d := e.price - mean;
        SquareAt(w, mean, squares, n - 1 - i, d);
        SumFromEnd(squares, i, Square(d), sumSq);
        sumSq := sumSq + Square(d);
      }
      SumOfSquares(w, mean, squares, n);
    }

    /**
     The sample standard deviation: the non-negative root of the sample variance, given a function that takes roots.
     */
    method StdDev(window: int, sqrt: real -> real) returns (dev: real, ok: bool)
      requires Valid()
      ensures ok <==> VarianceOver(Contents(), window).Some?
      ensures ok ==> dev == sqrt(VarianceOver(Contents(), window).value)
      ensures ok && TakesRoots(sqrt) ==> IsRoot(dev, VarianceOver(Contents(), window).value)
    {
      LenIsRetained();
      WindowSize(Contents(), window);
      var n := Min(window, len);
      if n < 2 {
        return 0.0, false;
      }
      WindowOfHistory(history, cap, window);
      VarianceNotNegative(Contents(), window);
      var mean, _ := SMA(n);
      var sumSq := SumSquaredDeviations(n, mean, WindowPrices(Contents(), window));
      return sqrt(Average(sumSq, n - 1)), true;
    }
  }
}
