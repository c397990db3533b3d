/** The central state store: what the streams write and the signal and risk code read. */
module Hub {
  import opened Prelude
  import opened Ring
  import opened PriceBuf
  import opened TradeBuf
  import opened Book

  const PRICE_CAPACITY := 600
  const TRADE_CAPACITY := 200

  datatype Status = Trading | Resolved

  /** A market as a reader sees it at one moment. */
  datatype Market = Market(slug: string, upToken: string, downToken: string, startTime: Time, endTime: Time,
                           status: Status, winningOutcome: string, resolvedAt: int)
  {
    predicate HasToken(asset: string) {
      upToken == asset || downToken == asset
    }

    /** Open for trading at this moment. */
    predicate Live(now: Time) {
      status == Trading && startTime <= now < endTime
    }
  }

  /** Everything the hub holds, as values. */
  datatype HubState = HubState(markets: map<string, Market>, prices: seq<PriceEntry>,
                               books: map<string, BookValue>, trades: map<string, seq<TradeEntry>>)
  {
    ghost predicate Keyed() {
      forall s | s in markets :: markets[s].slug == s
    }

    /** A market the hub may report as current: any live one, or none when none is live. */
    ghost predicate MayBeCurrent(current: Option<Market>, now: Time) {
      match current
      case Some(m) => m.slug in markets && markets[m.slug] == m && m.Live(now)
      case None => forall s | s in markets :: !markets[s].Live(now)
    }

    predicate IsResolved(slug: string) {
      slug in markets && markets[slug].status == Resolved
    }

    function Mid(token: string): Option<real> {
      if token in books then books[token].MidPrice() else None
    }

    function Volume(token: string, side: string, now: Time, window: Time): real {
      if token in trades then SideSum(ScanSince(trades[token], WindowStart(now, window)), side) else 0.0
    }
  }

  const EMPTY_HUB := HubState(map[], [], map[], map[])

  /** The writes, one per locked handler. */
  datatype HubEvent =
    | Registered(market: Market)
    | WsResolved(slug: string, outcome: string, asset: string, target: Option<string>, ts: int)
    | ForceResolved(forcedSlug: string, apiOutcome: string, at: Time)
    | PriceTick(price: real, tickTs: int)
    | Traded(tradeAsset: string, trade: TradeEntry)
    | Booked(bookAsset: string, bids: seq<Level>, asks: seq<Level>)

  /** The market a resolution message lands on: by slug, else any one holding the winning token. */
  predicate Matches(hs: HubState, slug: string, asset: string, target: Option<string>) {
    if slug in hs.markets then target == Some(slug)
    else if target.Some? then asset != "" && target.value in hs.markets && hs.markets[target.value].HasToken(asset)
    else asset == "" || forall s | s in hs.markets :: !hs.markets[s].HasToken(asset)
  }

  function ResolveIn(hs: HubState, slug: string, outcome: string, ts: int): HubState
    requires slug in hs.markets
  {
    hs.(markets := hs.markets[slug :=
      hs.markets[slug].(status := Resolved, winningOutcome := outcome, resolvedAt := ts)])
  }

  /** The hub after one write. A message that matches no market, and a second registration of a slug, change nothing. */
  function Apply(hs: HubState, ev: HubEvent): HubState {
    match ev
    case Registered(m) =>
      if m.slug in hs.markets then hs else hs.(markets := hs.markets[m.slug := m])
    case WsResolved(slug, outcome, asset, target, ts) =>
      if Matches(hs, slug, asset, target) && target.Some? && target.value in hs.markets
      then ResolveIn(hs, target.value, outcome, ts) else hs
    case ForceResolved(slug, outcome, at) =>
      if slug in hs.markets && hs.markets[slug].status != Resolved
      then ResolveIn(hs, slug, outcome, at / SECOND) else hs
    case PriceTick(price, ts) =>
      hs.(prices := Retain(hs.prices + [PriceEntry(price, ts)], PRICE_CAPACITY))
    case Traded(asset, t) =>
      var known := if asset in hs.trades then hs.trades[asset] else [];
      hs.(trades := hs.trades[asset := Retain(known + [t], TRADE_CAPACITY)])
    case Booked(asset, bids, asks) =>
      hs.(books := hs.books[asset := BookValue(SortLevels(bids, true), SortLevels(asks, false))])
  }

  /** A later hub knows every market an earlier one knew, with the same identity, and never reopens one. */
  ghost predicate Extends(earlier: HubState, later: HubState) {
    forall s | s in earlier.markets ::
      && s in later.markets
      && (earlier.markets[s].status == Resolved ==> later.markets[s].status == Resolved)
      && later.markets[s].slug == earlier.markets[s].slug
      && later.markets[s].upToken == earlier.markets[s].upToken
      && later.markets[s].downToken == earlier.markets[s].downToken
      && later.markets[s].startTime == earlier.markets[s].startTime
      && later.markets[s].endTime == earlier.markets[s].endTime
  }

  /** Resolved is absorbing and registration never overwrites, whatever write happens. */
  lemma ApplyExtends(hs: HubState, ev: HubEvent)
    requires hs.Keyed()
    ensures Apply(hs, ev).Keyed() && Extends(hs, Apply(hs, ev))
  {
  }

  /** The outcome a write reports for a market: a stream message any time, the API only while it is unresolved. */
  function Reports(hs: HubState, ev: HubEvent, s: string): Option<string>
    requires s in hs.markets
  {
    match ev
    case WsResolved(slug, outcome, asset, target, _) =>
      if target == Some(s) && Matches(hs, slug, asset, target) then Some(outcome) else None
    case ForceResolved(slug, outcome, _) =>
      if slug == s && hs.markets[s].status != Resolved then Some(outcome) else None
    case _ => None
  }

  /** A write changes the outcome of a known market exactly when it reports another one for it, resolved or not. */
  lemma OutcomeChangesIff(hs: HubState, ev: HubEvent, s: string)
    requires s in hs.markets
    ensures var hs' := Apply(hs, ev);
      && s in hs'.markets
      && (hs'.markets[s].winningOutcome != hs.markets[s].winningOutcome
          <==> Reports(hs, ev, s) !in {None, Some(hs.markets[s].winningOutcome)})
      && (hs'.markets[s] != hs.markets[s] ==> Reports(hs, ev, s).Some?)
  {
  }

  /** A price or a trade becomes the newest entry of its list, which keeps the newest before it up to its capacity. */
  lemma NewestIsKept(hs: HubState, ev: HubEvent)
    ensures ev.PriceTick? ==>
      && Apply(hs, ev).prices == Retain(hs.prices, PRICE_CAPACITY - 1) + [PriceEntry(ev.price, ev.tickTs)]
      && Apply(hs, ev).trades == hs.trades
    ensures ev.Traded? && ev.tradeAsset in hs.trades ==>
      && Apply(hs, ev).trades[ev.tradeAsset] == Retain(hs.trades[ev.tradeAsset], TRADE_CAPACITY - 1) + [ev.trade]
      && Apply(hs, ev).prices == hs.prices
  {
  }

  /** A message with a known slug resolves that market, whatever token it names and whatever was reported before. */
  lemma SlugFindsMarket(hs: HubState, ev: HubEvent)
    requires ev.WsResolved? && ev.slug in hs.markets && Matches(hs, ev.slug, ev.asset, ev.target)
    ensures ev.target == Some(ev.slug)
    ensures var m, m' := hs.markets[ev.slug], Apply(hs, ev).markets[ev.slug];
      && m'.status == Resolved && m'.winningOutcome == ev.outcome && m'.resolvedAt == ev.ts
      && m'.slug == m.slug && m'.upToken == m.upToken && m'.downToken == m.downToken
      && m'.startTime == m.startTime && m'.endTime == m.endTime
    ensures forall t | t in hs.markets && t != ev.slug :: Apply(hs, ev).markets[t] == hs.markets[t]
  {
  }

  /** After a snapshot of a token's book its readers see the highest bid and the lowest ask of that snapshot. */
  lemma SnapshotIsShown(hs: HubState, ev: HubEvent, bid: Level, ask: Level)
    requires ev.Booked? && bid in ev.bids && ask in ev.asks
    requires (forall l | l in ev.bids :: l.price <= bid.price) && (forall l | l in ev.asks :: ask.price <= l.price)
    ensures var hs' := Apply(hs, ev);
      && ev.bookAsset in hs'.books && hs'.books[ev.bookAsset].BestBid() == Some(bid.price)
      && hs'.books[ev.bookAsset].BestAsk() == Some(ask.price)
      && hs'.Mid(ev.bookAsset) == Some((bid.price + ask.price) / 2.0)
      && forall token | token != ev.bookAsset :: hs'.Mid(token) == hs.Mid(token)
  {
    BestLevelsAreExtreme(ev.bids, ev.asks);
  }

  /** A message that names no known slug resolves the one market holding its token, on either side. */
  lemma TokenFindsMarket(hs: HubState, ev: HubEvent, s: string)
    requires ev.WsResolved? && ev.slug !in hs.markets && ev.asset != "" && s in hs.markets
    requires Matches(hs, ev.slug, ev.asset, ev.target)
    requires forall t | t in hs.markets ::
      (hs.markets[t].upToken == ev.asset || hs.markets[t].downToken == ev.asset <==> t == s)
    ensures ev.target == Some(s) && Apply(hs, ev).IsResolved(s)
    ensures Apply(hs, ev).markets[s].winningOutcome == ev.outcome && Apply(hs, ev).markets[s].resolvedAt == ev.ts
    ensures forall t | t in hs.markets && t != s :: Apply(hs, ev).markets[t] == hs.markets[t]
  {
    assert hs.markets[s].HasToken(ev.asset);
    if ev.target.Some? {
      assert hs.markets[ev.target.value].HasToken(ev.asset);
    }
  }

  /** Adding an empty book first does not show once the snapshot replaces it. */
  lemma BookReplaced(hs: HubState, asset: string, v: BookValue)
    ensures var empty := hs.(books := hs.books[asset := BookValue([], [])]);
      empty.(books := empty.books[asset := v]) == hs.(books := hs.books[asset := v])
  {
    assert hs.books[asset := BookValue([], [])][asset := v] == hs.books[asset := v];
  }

  /** Appending to an asset's trades, after starting them where there were none, records the trade. */
  lemma TradeArrives(before: HubState, mid: HubState, asset: string, t: TradeEntry)
    requires mid == if asset in before.trades then before else before.(trades := before.trades[asset := []])
    ensures mid.(trades := mid.trades[asset := Retain(mid.trades[asset] + [t], TRADE_CAPACITY)])
         == Apply(before, Traded(asset, t))
  {
    var v := Retain(mid.trades[asset] + [t], TRADE_CAPACITY);
    assert asset !in before.trades ==> before.trades[asset := []][asset := v] == before.trades[asset := v];
  }

  /** Time left until the market closes, never negative. */
  function TimeLeft(endTime: Time, now: Time): Time {
    if endTime - now < 0 then 0 else endTime - now
  }

  class MarketState {
    const slug: string
    const upToken: string
    const downToken: string
    const startTime: Time
    const endTime: Time
    var status: Status
    var winningOutcome: string
    var resolvedAt: int

    constructor (m: Market)
      ensures View() == m
    {
      slug, upToken, downToken := m.slug, m.upToken, m.downToken;
      startTime, endTime := m.startTime, m.endTime;
      status, winningOutcome, resolvedAt := m.status, m.winningOutcome, m.resolvedAt;
    }

    function View(): Market
      reads this
    {
      Market(slug, upToken, downToken, startTime, endTime, status, winningOutcome, resolvedAt)
    }

    method Resolve(outcome: string, ts: int)
      modifies this
      ensures View() == old(View()).(status := Resolved, winningOutcome := outcome, resolvedAt := ts)
    {
      status := Resolved;
      winningOutcome := outcome;
      resolvedAt := ts;
    }
  }

  class Hub {
    var orderbooks: map<string, Orderbook>
    const priceBuf: PriceBuffer
    var markets: map<string, MarketState>
    var trades: map<string, TradeBuffer>
    /** What these objects amount to, as values. */
    ghost var marketValues: map<string, Market>
    ghost var priceValues: seq<PriceEntry>
    ghost var bookValues: map<string, BookValue>
    ghost var tradeValues: map<string, seq<TradeEntry>>

    ghost function State(): HubState
      reads this`marketValues, this`priceValues, this`bookValues, this`tradeValues
    {
      HubState(marketValues, priceValues, bookValues, tradeValues)
    }

    ghost predicate Valid()
      reads this, priceBuf, priceBuf.data, orderbooks.Values, markets.Values, trades.Values
      reads set b | b in trades.Values :: b.data
    {
      PricesAgree() && MarketsAgree() && BooksAgree() && TradesAgree()
    }

    ghost predicate PricesAgree()
      reads this`priceValues, priceBuf, priceBuf.data
    {
      priceBuf.Valid() && priceBuf.cap == PRICE_CAPACITY && priceValues == priceBuf.Contents()
    }

    ghost predicate MarketsAgree()
      reads this`marketValues, this`markets, markets.Values
    {
      && markets.Keys == marketValues.Keys
      && forall s | s in markets :: markets[s].slug == s && markets[s].View() == marketValues[s]
    }

    ghost predicate BooksAgree()
      reads this`bookValues, this`orderbooks, orderbooks.Values
    {
      && orderbooks.Keys == bookValues.Keys
      && (forall a | a in orderbooks :: orderbooks[a].Value() == bookValues[a])
      && (forall a, b | a in orderbooks && b in orderbooks && a != b :: orderbooks[a] != orderbooks[b])
    }

    ghost predicate TradesAgree()
      reads this`tradeValues, this`trades, trades.Values, set b | b in trades.Values :: b.data
    {
      && trades.Keys == tradeValues.Keys
      && (forall a | a in trades ::
            trades[a].Valid() && trades[a].cap == TRADE_CAPACITY && trades[a].Contents() == tradeValues[a])
      && (forall a, b | a in trades && b in trades && a != b ::
            trades[a] != trades[b] && trades[a].data != trades[b].data)
    }

    // Each part of the hub agrees with its value for as long as neither is touched.

    twostate lemma PricesKept()
      requires old(PricesAgree()) && unchanged(this`priceValues, priceBuf, priceBuf.data)
      ensures PricesAgree()
    {
    }

    twostate lemma MarketsKept()
      requires old(MarketsAgree()) && unchanged(this`markets, this`marketValues) && unchanged(old(markets.Values))
      ensures MarketsAgree()
    {
    }

    twostate lemma BooksKept()
      requires old(BooksAgree()) && unchanged(this`orderbooks, this`bookValues) && unchanged(old(orderbooks.Values))
      ensures BooksAgree()
    {
    }

    twostate lemma TradesKept()
      requires old(TradesAgree()) && unchanged(this`trades, this`tradeValues)
      requires unchanged(old(trades.Values)) && unchanged(old(set b | b in trades.Values :: b.data))
      ensures TradesAgree()
    {
    }

    twostate lemma AllButTradesKept()
      requires old(Valid()) && unchanged(this`priceValues, this`markets, this`marketValues, this`orderbooks)
      requires unchanged(this`bookValues, priceBuf, priceBuf.data)
      requires unchanged(old(markets.Values)) && unchanged(old(orderbooks.Values))
      ensures PricesAgree() && MarketsAgree() && BooksAgree()
    {
      PricesKept();
      MarketsKept();
      BooksKept();
    }

    twostate lemma StaysValid()
      requires old(Valid()) && unchanged(this, priceBuf, priceBuf.data)
      requires unchanged(old(markets.Values)) && unchanged(old(orderbooks.Values))
      requires unchanged(old(trades.Values)) && unchanged(old(set b | b in trades.Values :: b.data))
      ensures Valid()
    {
      AllButTradesKept();
      TradesKept();
    }

    constructor ()
      ensures Valid() && State() == EMPTY_HUB
      ensures fresh(priceBuf) && fresh(priceBuf.data)
    {
      orderbooks, markets, trades := map[], map[], map[];
      priceBuf := new PriceBuffer(PRICE_CAPACITY);
      marketValues, priceValues, bookValues, tradeValues := map[], [], map[], map[];
    }

    method OnOrderbook(assetID: string, bids: seq<Level>, asks: seq<Level>, ts: int)
      requires Valid()
      modifies this`orderbooks, this`bookValues, orderbooks.Values
      ensures Valid() && fresh(orderbooks.Values - old(orderbooks.Values))
      ensures State() == Apply(old(State()), Booked(assetID, bids, asks))
    {
      if assetID !in orderbooks {
        BookReplaced(State(), assetID, BookValue(SortLevels(bids, true), SortLevels(asks, false)));
        AddEmptyBook(assetID);
      }
      UpdateBook(assetID, bids, asks, ts);
    }

    method AddEmptyBook(assetID: string)
      requires Valid() && assetID !in orderbooks
      modifies this`orderbooks, this`bookValues
      ensures Valid() && assetID in orderbooks && fresh(orderbooks[assetID])
      ensures orderbooks == old(orderbooks)[assetID := orderbooks[assetID]]
      ensures State() == old(State()).(books := old(State()).books[assetID := BookValue([], [])])
    {
      StartBook(assetID);
    }

    /** AddEmptyBook's effect on the books alone. */
    method StartBook(assetID: string)
      requires BooksAgree() && assetID !in orderbooks
      modifies this`orderbooks, this`bookValues
      ensures BooksAgree() && assetID in orderbooks && fresh(orderbooks[assetID])
      ensures orderbooks == old(orderbooks)[assetID := orderbooks[assetID]]
      ensures bookValues == old(bookValues)[assetID := BookValue([], [])]
    {
      var ob := new Orderbook();
      orderbooks := orderbooks[assetID := ob];
      bookValues := bookValues[assetID := BookValue([], [])];
    }

    method UpdateBook(assetID: string, bids: seq<Level>, asks: seq<Level>, ts: int)
      requires Valid() && assetID in orderbooks
      modifies this`bookValues, orderbooks[assetID]
      ensures Valid()
      ensures State() == old(State()).(books := old(State()).books[assetID :=
        BookValue(SortLevels(bids, true), SortLevels(asks, false))])
    {
      ReplaceBook(assetID, bids, asks, ts);
      PricesKept();
      MarketsKept();
      TradesKept();
    }

    /** UpdateBook's effect on the books alone. */
    method ReplaceBook(assetID: string, bids: seq<Level>, asks: seq<Level>, ts: int)
      requires BooksAgree() && assetID in orderbooks
      modifies this`bookValues, orderbooks[assetID]
      ensures BooksAgree()
      ensures bookValues == old(bookValues)[assetID := BookValue(SortLevels(bids, true), SortLevels(asks, false))]
    {
      orderbooks[assetID].Update(bids, asks, ts);
      bookValues := bookValues[assetID := BookValue(SortLevels(bids, true), SortLevels(asks, false))];
    }

    method OnTrade(assetID: string, t: TradeEntry)
      requires Valid()
      modifies this`trades, this`tradeValues, trades.Values, set b | b in trades.Values :: b.data
      ensures Valid() && fresh(trades.Values - old(trades.Values))
      ensures State() == Apply(old(State()), Traded(assetID, t))
    {
      ghost var before := State();
      if assetID !in trades {
        AddEmptyTrades(assetID);
      }
      TradeArrives(before, State(), assetID, t);
      AppendTrade(assetID, t);
    }

    method AddEmptyTrades(assetID: string)
      requires Valid() && assetID !in trades
      modifies this`trades, this`tradeValues
      ensures Valid() && assetID in trades && fresh(trades[assetID]) && fresh(trades[assetID].data)
      ensures trades == old(trades)[assetID := trades[assetID]] && fresh(trades.Values - old(trades.Values))
      ensures State() == old(State()).(trades := old(State()).trades[assetID := []])
    {
      StartTrades(assetID);
    }

    /** AddEmptyTrades's effect on the buffers alone. */
    method StartTrades(assetID: string)
      requires TradesAgree() && assetID !in trades
      modifies this`trades, this`tradeValues
      ensures TradesAgree() && assetID in trades && fresh(trades[assetID]) && fresh(trades[assetID].data)
      ensures trades == old(trades)[assetID := trades[assetID]]
      ensures tradeValues == old(tradeValues)[assetID := []]
    {
      var tb := new TradeBuffer(TRADE_CAPACITY);
      trades := trades[assetID := tb];
      tradeValues := tradeValues[assetID := []];
    }

    method AppendTrade(assetID: string, t: TradeEntry)
      requires Valid() && assetID in trades
      modifies this`tradeValues, trades[assetID], trades[assetID].data
      ensures Valid()
      ensures State() == old(State()).(trades := old(State()).trades[assetID :=
        Retain(old(State()).trades[assetID] + [t], TRADE_CAPACITY)])
    {
      PushTrade(assetID, t);
      AllButTradesKept();
    }

    /** AppendTrade's effect on the buffers alone. */
    method PushTrade(assetID: string, t: TradeEntry)
      requires TradesAgree() && assetID in trades
      modifies this`tradeValues, trades[assetID], trades[assetID].data
      ensures TradesAgree()
      ensures tradeValues == old(tradeValues)[assetID := Retain(old(tradeValues)[assetID] + [t], TRADE_CAPACITY)]
    {
      trades[assetID].Add(t);
      tradeValues := tradeValues[assetID := Retain(tradeValues[assetID] + [t], TRADE_CAPACITY)];
    }

    method OnBTCPrice(price: real, ts: int)
      requires Valid()
      modifies this`priceValues, priceBuf, priceBuf.data
      ensures Valid()
      ensures State() == Apply(old(State()), PriceTick(price, ts))
    {
      priceBuf.Add(price, ts);
      priceValues := Retain(priceValues + [PriceEntry(price, ts)], PRICE_CAPACITY);
    }

    /** Finds the market by slug, else by the winning token, scanning in no particular order. */
    method FindResolved(slug: string, winningAssetID: string) returns (target: Option<string>)
      requires Valid()
      ensures Matches(State(), slug, winningAssetID, target)
    {
      target := if slug in markets then Some(slug) else None;
      if target.None? && winningAssetID != "" {
        var todo := markets.Keys;
        while todo != {}
          invariant todo <= markets.Keys && target.None?
          invariant forall s | s in markets && s !in todo :: !State().markets[s].HasToken(winningAssetID)
          decreases |todo|
        {
          var s :| s in todo;
          todo := todo - {s};
          var m := markets[s];
          assert m.View() == State().markets[s];
          if m.upToken == winningAssetID || m.downToken == winningAssetID {
            return Some(s);
          }
        }
      }
    }

    method OnMarketResolved(slug: string, winningOutcome: string, winningAssetID: string, ts: int)
      returns (target: Option<string>)
      requires Valid()
      modifies this`marketValues, markets.Values
      ensures Valid()
      ensures Matches(old(State()), slug, winningAssetID, target)
      ensures State() == Apply(old(State()), WsResolved(slug, winningOutcome, winningAssetID, target, ts))
    {
      target := FindResolved(slug, winningAssetID);
      if target.Some? {
        ResolveMarket(target.value, winningOutcome, ts);
      }
    }

    method ForceResolve(slug: string, outcome: string, now: Time)
      requires Valid()
      modifies this`marketValues, markets.Values
      ensures Valid()
      ensures State() == Apply(old(State()), ForceResolved(slug, outcome, now))
    {
      if slug in markets && markets[slug].status != Resolved {
        ResolveMarket(slug, outcome, now / SECOND);
      }
    }

    /** The write both resolution paths share. */
    method ResolveMarket(slug: string, outcome: string, ts: int)
      requires Valid() && slug in markets
      modifies this`marketValues, markets[slug]
      ensures Valid()
      ensures State() == ResolveIn(old(State()), slug, outcome, ts)
    {
      ResolveEntry(slug, outcome, ts);
      PricesKept();
      BooksKept();
      TradesKept();
    }

    /** ResolveMarket's effect on the markets alone. */
    method ResolveEntry(slug: string, outcome: string, ts: int)
      requires MarketsAgree() && slug in markets
      modifies this`marketValues, markets[slug]
      ensures MarketsAgree()
      ensures marketValues == ResolveIn(old(State()), slug, outcome, ts).markets
    {
      markets[slug].Resolve(outcome, ts);
      marketValues := ResolveIn(State(), slug, outcome, ts).markets;
    }

    method RegisterMarket(m: Market)
      requires Valid()
      modifies this`markets, this`marketValues
      ensures Valid() && fresh(markets.Values - old(markets.Values))
      ensures State() == Apply(old(State()), Registered(m))
    {
      if m.slug !in markets {
        AddMarket(m);
        PricesKept();
        BooksKept();
        TradesKept();
      }
    }

    method AddMarket(m: Market)
      requires MarketsAgree() && m.slug !in markets
      modifies this`markets, this`marketValues
      ensures MarketsAgree() && fresh(markets.Values - old(markets.Values))
      ensures marketValues == old(marketValues)[m.slug := m]
    {
      var ms := new MarketState(m);
      markets := markets[m.slug := ms];
      marketValues := marketValues[m.slug := m];
    }

    /** Any market that is live now; null when there is none. */
    method CurrentMarket(now: Time) returns (ms: MarketState?)
      requires Valid()
      ensures ms == null ==> forall s | s in State().markets :: !State().markets[s].Live(now)
      ensures ms != null ==> ms.slug in markets && markets[ms.slug] == ms && ms.View().Live(now)
    {
      var todo := markets.Keys;
      ms := null;
      while todo != {}
        invariant todo <= markets.Keys
        invariant forall s | s in markets && s !in todo :: !markets[s].View().Live(now)
        decreases |todo|
      {
        var s :| s in todo;
        todo := todo - {s};
        var m := markets[s];
        if m.status == Trading && m.startTime <= now && now < m.endTime {
          return m;
        }
      }
    }

    method GetMarketBySlug(slug: string) returns (ms: MarketState?)
      requires Valid()
      ensures ms == null <==> slug !in State().markets
      ensures ms != null ==> slug in markets && ms == markets[slug] && ms.View() == State().markets[slug]
    {
      ms := if slug in markets then markets[slug] else null;
    }

    method BTCPrice() returns (price: real, ts: int, ok: bool)
      requires Valid()
      ensures ok <==> State().prices != []
      ensures ok ==> PriceEntry(price, ts) == State().prices[|State().prices| - 1]
    {
      price, ts, ok := priceBuf.Latest();
    }

    method BTCPriceCount() returns (n: nat)
      requires Valid()
      ensures n == |State().prices|
    {
      priceBuf.LenIsRetained();
      n := priceBuf.len;
    }

    method BTCPriceSlope(window: int) returns (slope: real, ok: bool)
      requires Valid()
      ensures SlopeOver(State().prices, window) == if ok then Some(slope) else None
    {
      slope, ok := priceBuf.Slope(window);
    }

    method BTCPriceStdDev(window: int, sqrt: real -> real) returns (dev: real, ok: bool)
      requires Valid()
      ensures ok <==> VarianceOver(State().prices, window).Some?
      ensures ok ==> dev == sqrt(VarianceOver(State().prices, window).value)
      ensures ok && TakesRoots(sqrt) ==> IsRoot(dev, VarianceOver(State().prices, window).value)
    {
      dev, ok := priceBuf.StdDev(window, sqrt);
    }

    method GetOrderbook(assetID: string) returns (ob: Orderbook?)
      requires Valid()
      ensures ob == null <==> assetID !in State().books
      ensures ob != null ==> assetID in orderbooks && ob == orderbooks[assetID] && ob.Value() == State().books[assetID]
    {
      ob := if assetID in orderbooks then orderbooks[assetID] else null;
    }

    method ImpliedProbability(upTokenID: string) returns (mid: real, ok: bool)
      requires Valid()
      ensures State().Mid(upTokenID) == if ok then Some(mid) else None
    {
      if upTokenID !in orderbooks {
        return 0.0, false;
      }
      mid, ok := orderbooks[upTokenID].MidPrice();
    }

    method TradeBuySellVolume(assetID: string, now: Time, window: Time) returns (buyVol: real, sellVol: real)
      requires Valid()
      ensures buyVol == State().Volume(assetID, "buy", now, window)
      ensures sellVol == State().Volume(assetID, "sell", now, window)
    {
      if assetID !in trades {
        return 0.0, 0.0;
      }
      buyVol, sellVol := trades[assetID].BuySellVolume(now, window);
    }
  }
}
