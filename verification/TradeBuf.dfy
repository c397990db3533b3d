/** Recent trades of one asset: a ring buffer read back over a time window. */
module TradeBuf {
  import opened Prelude
  import opened Ring

  datatype TradeEntry = TradeEntry(price: real, size: real, side: string, timestamp: int)

  /** The retained trades the early-exit scan returns: newest first, up to the first one that is too old. */
  function ScanSince(entries: seq<TradeEntry>, since: int): seq<TradeEntry> {
    if entries == [] || entries[|entries| - 1].timestamp < since then []
    else [entries[|entries| - 1]] + ScanSince(entries[..|entries| - 1], since)
  }

  lemma {:induction false} ScanIsPart(entries: seq<TradeEntry>, since: int)
    ensures forall t | t in ScanSince(entries, since) :: t in entries && t.timestamp >= since
  {
    if entries != [] && entries[|entries| - 1].timestamp >= since {
      ScanIsPart(entries[..|entries| - 1], since);
    }
  }

  /** All retained trades with timestamp >= since, newest first. */
  function FilterSince(entries: seq<TradeEntry>, since: int): seq<TradeEntry> {
    if entries == [] then []
    else
      var last := entries[|entries| - 1];
      (if last.timestamp < since then [] else [last]) + FilterSince(entries[..|entries| - 1], since)
  }

  /** Filtering keeps each trade no older than the bound as often as it occurs, and no other. */
  lemma {:induction false} FilterSelects(entries: seq<TradeEntry>, since: int, t: TradeEntry)
    ensures multiset(FilterSince(entries, since))[t] == if t.timestamp >= since then multiset(entries)[t] else 0
  {
    if entries != [] {
      var rest, last := entries[..|entries| - 1], entries[|entries| - 1];
      FilterSelects(rest, since, t);
      LastCounted(rest, last, t);
      LastCounted([], last, t);
      assert entries == rest + [last];
    }
  }

  lemma LastCounted(rest: seq<TradeEntry>, last: TradeEntry, t: TradeEntry)
    ensures multiset(rest + [last])[t] == multiset(rest)[t] + if t == last then 1 else 0
  {
  }

  ghost predicate TimeOrdered(entries: seq<TradeEntry>) {
    forall i, j | 0 <= i < j < |entries| :: entries[i].timestamp <= entries[j].timestamp
  }

  lemma {:induction false} AllOlder(entries: seq<TradeEntry>, since: int)
    requires forall i | 0 <= i < |entries| :: entries[i].timestamp < since
    ensures FilterSince(entries, since) == []
  {
    if entries != [] {
      AllOlder(entries[..|entries| - 1], since);
    }
  }

  lemma {:induction false} OrderedScan(entries: seq<TradeEntry>, since: int)
    requires TimeOrdered(entries)
    ensures ScanSince(entries, since) == FilterSince(entries, since)
  {
    if entries != [] {
      if entries[|entries| - 1].timestamp < since {
        AllOlder(entries[..|entries| - 1], since);
      } else {
        OrderedScan(entries[..|entries| - 1], since);
      }
    }
  }

  lemma {:induction false} FilterKeeps(entries: seq<TradeEntry>, since: int, i: nat)
    requires i < |entries| && entries[i].timestamp >= since
    ensures FilterSince(entries, since) != []
  {
    if i < |entries| - 1 {
      FilterKeeps(entries[..|entries| - 1], since, i);
    }
  }

  lemma {:induction false} ScanDropsHidden(entries: seq<TradeEntry>, since: int, i: nat, j: nat)
    requires i < j < |entries| && entries[i].timestamp >= since > entries[j].timestamp
    ensures |ScanSince(entries, since)| < |FilterSince(entries, since)|
  {
    var last := |entries| - 1;
    if entries[last].timestamp < since {
      FilterKeeps(entries[..last], since, i);
    } else {
      ScanDropsHidden(entries[..last], since, i, j);
    }
  }

  /** The early exit loses nothing, whatever the window, exactly when the trades arrived in time order. */
  lemma EarlyExitIsExact(entries: seq<TradeEntry>)
    ensures (forall since :: ScanSince(entries, since) == FilterSince(entries, since)) <==> TimeOrdered(entries)
  {
    if TimeOrdered(entries) {
      forall since ensures ScanSince(entries, since) == FilterSince(entries, since) {
        OrderedScan(entries, since);
      }
    } else {
      var i, j :| 0 <= i < j < |entries| && entries[i].timestamp > entries[j].timestamp;
      ScanDropsHidden(entries, entries[i].timestamp, i, j);
      assert ScanSince(entries, entries[i].timestamp) != FilterSince(entries, entries[i].timestamp);
    }
  }

  function ValueSum(trades: seq<TradeEntry>): real {
    if trades == [] then 0.0
    else ValueSum(trades[..|trades| - 1]) + trades[|trades| - 1].price * trades[|trades| - 1].size
  }

  function SizeSum(trades: seq<TradeEntry>): real {
    if trades == [] then 0.0 else SizeSum(trades[..|trades| - 1]) + trades[|trades| - 1].size
  }

  /** The size traded on one side; the side is compared in lower case. */
  function SideSum(trades: seq<TradeEntry>, side: string): real {
    if trades == [] then 0.0
    else
      var last := trades[|trades| - 1];
      SideSum(trades[..|trades| - 1], side) + if ToLower(last.side) == side then last.size else 0.0
  }

  /** The trades of one side, its name spelled in letters of either case. */
  function OfSide(trades: seq<TradeEntry>, lower: string, upper: string): seq<TradeEntry>
    requires |lower| == |upper|
  {
    if trades == [] then []
    else
      var last := trades[|trades| - 1];
      OfSide(trades[..|trades| - 1], lower, upper) + if Spelled(last.side, lower, upper) then [last] else []
  }

  lemma {:induction false} SideSumsItsTrades(trades: seq<TradeEntry>, lower: string, upper: string)
    requires Cases(lower, upper)
    ensures SideSum(trades, lower) == SizeSum(OfSide(trades, lower, upper))
  {
    if trades != [] {
      var rest, last := trades[..|trades| - 1], trades[|trades| - 1];
      SideSumsItsTrades(rest, lower, upper);
      LowersIffSpelled(last.side, lower, upper);
      var some := OfSide(rest, lower, upper);
      assert (some + [last])[..|some|] == some && some + [] == some;
    }
  }

  /** When every trade is a buy or a sell, in letters of either case, the two volumes add up to what was traded. */
  lemma {:induction false} SidesAddUp(trades: seq<TradeEntry>)
    requires forall t | t in trades :: Spelled(t.side, "buy", "BUY") || Spelled(t.side, "sell", "SELL")
    ensures SideSum(trades, "buy") + SideSum(trades, "sell") == SizeSum(trades)
  {
    if trades != [] {
      var last := trades[|trades| - 1];
      SidesAddUp(trades[..|trades| - 1]);
      LowersIffSpelled(last.side, "buy", "BUY");
      LowersIffSpelled(last.side, "sell", "SELL");
      assert last in trades && |"buy"| == 3 && |"sell"| == 4;
    }
  }

  /** The volume-weighted price; None where the code reports no value. */
  function VwapOf(trades: seq<TradeEntry>): Option<real> {
    if trades == [] || SizeSum(trades) == 0.0 then None else Some(Over(ValueSum(trades), SizeSum(trades)))
  }

  predicate PriceSpan(trades: seq<TradeEntry>, lo: real, hi: real) {
    forall t | t in trades :: t.size >= 0.0 && lo <= t.price <= hi
  }

  lemma {:induction false} ValueWithinSpan(trades: seq<TradeEntry>, lo: real, hi: real)
    requires PriceSpan(trades, lo, hi)
    ensures SizeSum(trades) >= 0.0
    ensures Within(lo, hi, ValueSum(trades), SizeSum(trades))
  {
    if trades != [] {
      var t := trades[|trades| - 1];
      ValueWithinSpan(trades[..|trades| - 1], lo, hi);
      SpanStep(lo, hi, t.price, t.size, SizeSum(trades[..|trades| - 1]), ValueSum(trades[..|trades| - 1]));
    }
  }

  lemma SpanStep(lo: real, hi: real, p: real, s: real, sizes: real, values: real)
    requires lo <= p <= hi && s >= 0.0 && Within(lo, hi, values, sizes)
    ensures Within(lo, hi, values + p * s, sizes + s)
  {
    ProductSign(s, p - lo);
    ProductSign(s, hi - p);
  }

  /** With sizes that are not negative, the average price lies within the prices averaged. */
  lemma VwapWithinSpan(trades: seq<TradeEntry>, lo: real, hi: real)
    requires PriceSpan(trades, lo, hi)
    ensures VwapOf(trades).Some? <==> SizeSum(trades) > 0.0
    ensures VwapOf(trades).Some? ==> lo <= VwapOf(trades).value <= hi
  {
    ValueWithinSpan(trades, lo, hi);
    if VwapOf(trades).Some? {
      QuotientBetween(ValueSum(trades), SizeSum(trades), lo, hi);
    }
  }

  /** How far the prices lie above v altogether, each weighed with its size. */
  function Excess(trades: seq<TradeEntry>, v: real): real {
    if trades == [] then 0.0
    else
      var t := trades[|trades| - 1];
      Excess(trades[..|trades| - 1], v) + Scaled(t.price - v, t.size)
  }

  lemma {:induction false} ExcessAdds(trades: seq<TradeEntry>, v: real)
    ensures Excess(trades, v) == ValueSum(trades) - v * SizeSum(trades)
  {
    if trades != [] {
      var t := trades[|trades| - 1];
      ExcessAdds(trades[..|trades| - 1], v);
      assert (t.price - v) * t.size == t.price * t.size - v * t.size;
    }
  }

  /** The average price is the one price that the sizes above and below it balance at. */
  lemma VwapBalances(trades: seq<TradeEntry>, v: real)
    requires VwapOf(trades).Some?
    ensures Excess(trades, v) == 0.0 <==> v == VwapOf(trades).value
  {
    var vwap, sizes := VwapOf(trades).value, SizeSum(trades);
    ExcessAdds(trades, v);
    assert vwap * sizes == ValueSum(trades);
    if Excess(trades, v) == 0.0 {
      Cancel(sizes, v, vwap);
    }
  }

  /** The start of a window that ends now, in whole Unix seconds; a window is cut towards zero seconds. */
  function WindowStart(now: Time, window: Time): int {
    now / SECOND - (if window >= 0 then window / SECOND else -((-window) / SECOND))
  }

  /**
   A window of k whole seconds and a rest reaches back to the trades whose second, stamped with its beginning, had not
   ended k seconds before now: the rest of the window is cut off.
   */
  lemma WindowReachesBack(now: Time, k: nat, rest: Time, timestamp: int)
    requires 0 <= rest < SECOND
    ensures timestamp >= WindowStart(now, k * SECOND + rest) <==> now - k * SECOND < (timestamp + 1) * SECOND
    ensures timestamp >= WindowStart(now, -(k * SECOND + rest)) <==> now + k * SECOND < (timestamp + 1) * SECOND
  {
  }

  class TradeBuffer {
    const data: array<TradeEntry>
    var head: nat
    var len: nat
    const cap: nat
    /** Every trade ever added, oldest first. */
    ghost var history: seq<TradeEntry>

    ghost predicate Valid()
      reads this, data
    {
      && data.Length == cap
      && WellFormed(head, len, cap)
      && Unrolled(data[..], head, len) == Contents()
    }

    /** What the buffer still remembers: the newest cap trades, oldest first. */
    ghost function Contents(): seq<TradeEntry>
      reads this
    {
      Retain(history, cap)
    }

    constructor (capacity: nat)
      ensures Valid() && fresh(data) && cap == capacity && history == []
    {
      data := new TradeEntry[capacity](i => TradeEntry(0.0, 0.0, "", 0));
      cap := capacity;
      head, len := 0, 0;
      history := [];
    }

    method Add(t: TradeEntry)
      requires Valid() && cap > 0
      modifies this, data
      ensures Valid()
      ensures history == old(history) + [t]
      ensures Contents() == Retain(old(Contents()) + [t], cap)
    {
      AdvanceAppends(data[..], head, len, t);
      RetainAgain(history, cap, t);
      ghost var was := data[..];
      data[head] := t;
      assert data[..] == was[head := t];
      head := NextCell(head, cap);
      if len < cap {
        len := len + 1;
      }
      history := history + [t];
    }

    /** The trades of the window, newest first, read until the first one that is too old. */
    method RecentSince(since: int) returns (result: seq<TradeEntry>)
      requires Valid()
      ensures result == ScanSince(Contents(), since)
    {
      result := [];
      ghost var all := Contents();
      assert all[..len] == all;
      var i := 0;
      while i < len
        invariant 0 <= i <= len == |all|
        invariant ScanSince(all, since) == result + ScanSince(all[..len - i], since)
      {
        CellOfAge(data[..], head, len, i);
        var idx := (head - 1 - i + cap * 2) % cap;
        var t := data[idx];
        assert t == all[..len - i][len - i - 1];
        assert all[..len - i][..len - i - 1] == all[..len - (i + 1)];
        if t.timestamp < since {
          break;
        }
        result := result + [t];
        i := i + 1;
      }
    }

    method VWAP(now: Time, window: Time) returns (vwap: real, ok: bool)
      requires Valid()
      ensures VwapOf(ScanSince(Contents(), WindowStart(now, window))) == if ok then Some(vwap) else None
    {
      var since := WindowStart(now, window);
      var trades := RecentSince(since);
      if |trades| == 0 {
        return 0.0, false;
      }
      var sumPV, sumV := 0.0, 0.0;
      for i := 0 to |trades|
        invariant sumPV == ValueSum(trades[..i]) && sumV == SizeSum(trades[..i])
      {
        assert trades[..i + 1][..i] == trades[..i];
        sumPV := sumPV + trades[i].price * trades[i].size;
        sumV := sumV + trades[i].size;
      }
      assert trades[..|trades|] == trades;
      if sumV == 0.0 {
        return 0.0, false;
      }
      return Over(sumPV, sumV), true;
    }

    method BuySellVolume(now: Time, window: Time) returns (buyVol: real, sellVol: real)
      requires Valid()
      ensures buyVol == SideSum(ScanSince(Contents(), WindowStart(now, window)), "buy")
      ensures sellVol == SideSum(ScanSince(Contents(), WindowStart(now, window)), "sell")
    {
      var since := WindowStart(now, window);
      var trades := RecentSince(since);
      buyVol, sellVol := 0.0, 0.0;
      for i := 0 to |trades|
        invariant buyVol == SideSum(trades[..i], "buy") && sellVol == SideSum(trades[..i], "sell")
      {
        assert trades[..i + 1][..i] == trades[..i];
        var side := ToLower(trades[i].side);
        if side == "buy" {
          buyVol := buyVol + trades[i].size;
        } else if side == "sell" {
          sellVol := sellVol + trades[i].size;
        }
      }
      assert trades[..|trades|] == trades;
    }
  }
}
