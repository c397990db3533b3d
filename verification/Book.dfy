/** The order book of one asset: full snapshots, best level first. */
module Book {
  import opened Prelude

  datatype Level = Level(price: real, size: real)

  /** A book's two sides, as the hub's readers see them. */
  datatype BookValue = BookValue(bids: seq<Level>, asks: seq<Level>)
  {
    function BestBid(): Option<real> {
      if bids == [] then None else Some(bids[0].price)
    }

    function BestAsk(): Option<real> {
      if asks == [] then None else Some(asks[0].price)
    }

    function MidPrice(): Option<real> {
      if bids == [] || asks == [] then None else Some((bids[0].price + asks[0].price) / 2.0)
    }
  }

  predicate Before(descending: bool, a: real, b: real) {
    if descending then a >= b else a <= b
  }

  ghost predicate Sorted(levels: seq<Level>, descending: bool) {
    forall i, j | 0 <= i < j < |levels| :: Before(descending, levels[i].price, levels[j].price)
  }

  /** Sorting by price; levels of equal price keep no promised order in the program, here they keep theirs. */
  function SortLevels(levels: seq<Level>, descending: bool): (sorted: seq<Level>)
    ensures Sorted(sorted, descending)
    ensures multiset(sorted) == multiset(levels)
  {
    if levels == [] then []
    else
      assert levels == levels[..|levels| - 1] + [levels[|levels| - 1]];
      Insert(SortLevels(levels[..|levels| - 1], descending), levels[|levels| - 1], descending)
  }

  function Insert(sorted: seq<Level>, x: Level, descending: bool): (r: seq<Level>)
    requires Sorted(sorted, descending)
    ensures Sorted(r, descending)
    ensures multiset(r) == multiset(sorted) + multiset{x}
  {
    if sorted == [] || Before(descending, sorted[|sorted| - 1].price, x.price) then
      AppendedSorted(sorted, x, descending);
      sorted + [x]
    else
      var last := sorted[|sorted| - 1];
      assert sorted == sorted[..|sorted| - 1] + [last];
      var rest := Insert(sorted[..|sorted| - 1], x, descending);
      InsertedBefore(rest, sorted[..|sorted| - 1], x, last, descending);
      AppendedSorted(rest, last, descending);
      rest + [last]
  }

  lemma AppendedSorted(rest: seq<Level>, last: Level, descending: bool)
    requires Sorted(rest, descending)
    requires rest != [] ==> Before(descending, rest[|rest| - 1].price, last.price)
    ensures Sorted(rest + [last], descending)
  {
  }

  lemma InsertedBefore(rest: seq<Level>, sorted: seq<Level>, x: Level, last: Level, descending: bool)
    requires multiset(rest) == multiset(sorted) + multiset{x}
    requires Sorted(sorted + [last], descending) && Before(descending, x.price, last.price)
    ensures forall i | 0 <= i < |rest| :: Before(descending, rest[i].price, last.price)
  {
    AllOfInserted(rest, sorted, x);
    forall l | l in sorted
      ensures Before(descending, l.price, last.price)
    {
      var j :| 0 <= j < |sorted| && sorted[j] == l;
      assert (sorted + [last])[j] == l && (sorted + [last])[|sorted|] == last;
    }
  }

  /**
   After any snapshot the best bid is the highest bid and the best ask the lowest ask, whatever order they came in.
   */
  lemma BestLevelsAreExtreme(bids: seq<Level>, asks: seq<Level>)
    ensures var b := BookValue(SortLevels(bids, true), SortLevels(asks, false));
      && (b.BestBid().None? <==> bids == [])
      && (b.BestAsk().None? <==> asks == [])
      && (bids != [] ==>
            && (exists l :: l in bids && l.price == b.BestBid().value)
            && (forall l | l in bids :: l.price <= b.BestBid().value))
      && (asks != [] ==>
            && (exists l :: l in asks && l.price == b.BestAsk().value)
            && (forall l | l in asks :: b.BestAsk().value <= l.price))
  {
    HeadIsExtreme(bids, true);
    HeadIsExtreme(asks, false);
  }

  lemma HeadIsExtreme(levels: seq<Level>, descending: bool)
    ensures var sorted := SortLevels(levels, descending);
      && |sorted| == |levels|
      && (levels != [] ==> sorted[0] in levels)
      && forall l | l in levels :: |sorted| > 0 && Before(descending, sorted[0].price, l.price)
  {
    var sorted := SortLevels(levels, descending);
    assert |multiset(sorted)| == |multiset(levels)|;
    if levels != [] {
      assert sorted[0] in multiset(sorted);
    }
    forall l | l in levels
      ensures |sorted| > 0 && Before(descending, sorted[0].price, l.price)
    {
      assert l in multiset(sorted);
      var i :| 0 <= i < |sorted| && sorted[i] == l;
      if i > 0 {
        assert Before(descending, sorted[0].price, sorted[i].price);
      }
    }
  }

  /** The mid price lies as far above the best bid as below the best ask. */
  lemma MidHalvesSpread(b: BookValue)
    ensures b.MidPrice().Some? <==> b.BestBid().Some? && b.BestAsk().Some?
    ensures b.MidPrice().Some? ==> b.MidPrice().value - b.BestBid().value == b.BestAsk().value - b.MidPrice().value
  {
  }

  class Orderbook {
    var bids: seq<Level>
    var asks: seq<Level>
    var timestamp: int

    constructor ()
      ensures bids == [] && asks == [] && timestamp == 0
    {
      bids, asks, timestamp := [], [], 0;
    }

    ghost function Value(): BookValue
      reads this
    {
      BookValue(bids, asks)
    }

    /** Replaces the whole book. */
    method Update(newBids: seq<Level>, newAsks: seq<Level>, ts: int)
      modifies this
      ensures Value() == BookValue(SortLevels(newBids, true), SortLevels(newAsks, false))
      ensures timestamp == ts
    {
      bids := SortLevels(newBids, true);
      asks := SortLevels(newAsks, false);
      timestamp := ts;
    }

    method BestBid() returns (price: real, ok: bool)
      ensures Value().BestBid() == if ok then Some(price) else None
    {
      if |bids| == 0 {
        return 0.0, false;
      }
      return bids[0].price, true;
    }

    method BestAsk() returns (price: real, ok: bool)
      ensures Value().BestAsk() == if ok then Some(price) else None
    {
      if |asks| == 0 {
        return 0.0, false;
      }
      return asks[0].price, true;
    }

    method MidPrice() returns (mid: real, ok: bool)
      ensures Value().MidPrice() == if ok then Some(mid) else None
    {
      var bid, hasBid := BestBid();
      var ask, hasAsk := BestAsk();
      if !hasBid || !hasAsk {
        return 0.0, false;
      }
      return (bid + ask) / 2.0, true;
    }
  }
}
