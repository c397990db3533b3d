/** The risk manager's account as a value, and each of its operations as a function on it. */
module Risk {
  import opened Prelude
  import opened Hub
  import opened Signal
  import opened Kelly

  datatype ManagerConfig = ManagerConfig(bankroll: real, fractionalKelly: real, maxPosition: real, maxExposure: real,
                                         drawdownLimit: real, minBet: real, minEntryPrice: real, maxEntryPrice: real,
                                         haltCooldown: Time)

  const DEFAULT_MANAGER := ManagerConfig(100.0, 0.25, 10.0, 25.0, 0.25, 0.50, 0.45, 0.55, 600 * SECOND)

  datatype Position = Position(slug: string, dir: Direction, token: string, price: real, size: real, cost: real,
                               kellyFrac: real, modelProb: real, openedAt: Time)

  datatype Order = Order(market: string, dir: Direction, token: string, price: real, size: real, cost: real,
                         kellyFrac: real, modelProb: real)

  datatype Settlement = Settlement(slug: string, dir: Direction, won: bool, pnl: real, cost: real, settledAt: Time)

  /** The arguments of one settlement callback. */
  datatype SettleCall = SettleCall(slug: string, won: bool, pnl: real, outcome: string, bankrollAfter: real)

  datatype Account = Account(bankroll: real, peak: real, positions: map<string, Position>, settlements: seq<Settlement>,
                             totalPnL: real, wins: nat, losses: nat, halted: bool, haltedAt: Time, haltCount: nat)

  function NewAccount(cfg: ManagerConfig): Account {
    Account(cfg.bankroll, cfg.bankroll, map[], [], 0.0, 0, 0, false, 0, 0)
  }

  function Restore(a: Account, bankroll: real): Account {
    a.(bankroll := bankroll, peak := bankroll)
  }

  // ---- opening ----

  function Costs(positions: map<string, Position>): map<string, real> {
    map s | s in positions :: positions[s].cost
  }

  /** The total cost of the open positions. */
  ghost function Exposure(positions: map<string, Position>): real {
    MapSum(Costs(positions))
  }

  /** Whether the cooldown of the current halt is over. */
  predicate CooledDown(a: Account, cfg: ManagerConfig, now: Time) {
    a.halted && cfg.haltCooldown > 0 && now - a.haltedAt >= cfg.haltCooldown
  }

  function CheckCooldown(a: Account, cfg: ManagerConfig, now: Time): Account {
    if CooledDown(a, cfg, now) then a.(halted := false, peak := a.bankroll) else a
  }

  function Stake(kelly: real, fraction: real, bankroll: real): real {
    kelly * fraction * bankroll
  }

  function Shares(cost: real, price: real): real
    requires price != 0.0
  {
    Over(cost, price)
  }

  function Value(price: real, size: real): real {
    Scaled(price, size)
  }

  /** The cost of the bet after both caps; None when it is too small to place. */
  function BetCost(cfg: ManagerConfig, stake: real, exposure: real): Option<real> {
    var capped := if stake > cfg.maxPosition then cfg.maxPosition else stake;
    if exposure + capped > cfg.maxExposure then
      var remaining := cfg.maxExposure - exposure;
      if remaining < cfg.minBet then None else Some(remaining)
    else if capped < cfg.minBet then None
    else Some(capped)
  }

  /** The token a decision buys and the model's probability that it wins. */
  function Target(m: Market, dec: Decision): Option<(string, real)> {
    match dec.dir
    case BuyUp => Some((m.upToken, dec.modelProb))
    case BuyDown => Some((m.downToken, 1.0 - dec.modelProb))
    case Hold => None
  }

  predicate PriceAccepted(cfg: ManagerConfig, price: real) {
    0.0 < price < 1.0 && cfg.minEntryPrice <= price && !(cfg.maxEntryPrice > 0.0 && price > cfg.maxEntryPrice)
  }

  /** The order an unhalted account answers a decision with, if any. */
  ghost function Quote(cfg: ManagerConfig, a: Account, dec: Decision, hs: HubState): Option<Order> {
    if !dec.shouldTrade || dec.market in a.positions || dec.market !in hs.markets then None
    else
      var target := Target(hs.markets[dec.market], dec);
      if target.None? || target.value.0 !in hs.books then None
      else
        var ask := hs.books[target.value.0].BestAsk();
        if ask.None? || !PriceAccepted(cfg, ask.value) then None
        else SizeOrder(cfg, a, dec, target.value.0, target.value.1, ask.value)
  }

  ghost function SizeOrder(cfg: ManagerConfig, a: Account, dec: Decision, token: string, p: real, price: real)
    : Option<Order>
    requires price != 0.0
  {
    var kelly := KellyFraction(p, price);
    if kelly <= 0.0 then None
    else
      var cost := BetCost(cfg, Stake(kelly, cfg.fractionalKelly, a.bankroll), Exposure(a.positions));
      if cost.None? then None
      else Some(Order(dec.market, dec.dir, token, price, Shares(cost.value, price), cost.value, kelly, p))
  }

  /** Evaluate: the cooldown may end the halt first, and a halted account quotes nothing. */
  ghost function EvaluateOrder(a: Account, cfg: ManagerConfig, dec: Decision, hs: HubState, now: Time)
    : (Account, Option<Order>)
  {
    var a' := CheckCooldown(a, cfg, now);
    (a', if a'.halted then None else Quote(cfg, a', dec, hs))
  }

  function Open(a: Account, o: Order, now: Time): Account {
    a.(positions := a.positions[o.market :=
      Position(o.market, o.dir, o.token, o.price, o.size, o.cost, o.kellyFrac, o.modelProb, now)])
  }

  // ---- settling ----

  function DidWin(dir: Direction, outcome: string): bool {
    var o := ToLower(outcome);
    match dir
    case BuyUp => o == "up" || o == "yes"
    case BuyDown => o == "down" || o == "no"
    case Hold => false
  }

  /** The outcome names the side bought: "up" or "yes", "down" or "no", each letter in either case. */
  predicate Names(dir: Direction, outcome: string) {
    match dir
    case BuyUp => Spelled(outcome, "up", "UP") || Spelled(outcome, "yes", "YES")
    case BuyDown => Spelled(outcome, "down", "DOWN") || Spelled(outcome, "no", "NO")
    case Hold => false
  }

  /** A position wins exactly when the outcome names its side, and no outcome names both. */
  lemma WinsIffNamed(dir: Direction, outcome: string)
    ensures DidWin(dir, outcome) <==> Names(dir, outcome)
    ensures !(Names(BuyUp, outcome) && Names(BuyDown, outcome))
  {
    LowersIffSpelled(outcome, "up", "UP");
    LowersIffSpelled(outcome, "yes", "YES");
    LowersIffSpelled(outcome, "down", "DOWN");
    LowersIffSpelled(outcome, "no", "NO");
    assert "up"[0] != "no"[0] && |"yes"| == 3 && |"down"| == 4;
  }

  function WinPnl(price: real, size: real): real {
    (1.0 - price) * size
  }

  function Pnl(p: Position, won: bool): real {
    if won then WinPnl(p.price, p.size) else -p.cost
  }

  function Drawdown(peak: real, bankroll: real): real
    requires peak != 0.0
  {
    (peak - bankroll) / peak
  }

  /**
   The breaker's comparison drawdown >= limit. With a peak of zero the program's quotient is not a number for a
   zero bankroll, which compares false, and positive infinity for a negative one.
   */
  predicate Breached(peak: real, bankroll: real, limit: real) {
    if peak == 0.0 then bankroll < 0.0 else Drawdown(peak, bankroll) >= limit
  }

  /** One settled market of a pass: the slug, the outcome read from the hub, and the clock. */
  datatype Stamp = Stamp(slug: string, outcome: string, at: Time)

  /** Settles one position: ledger first, breaker last. */
  function SettleOne(a: Account, cfg: ManagerConfig, s: Stamp): Account
    requires s.slug in a.positions
  {
    var p := a.positions[s.slug];
    var won := DidWin(p.dir, s.outcome);
    var pnl := Pnl(p, won);
    var bankroll := a.bankroll + pnl;
    var peak := MaxReal(a.peak, bankroll);
    var trips := Breached(peak, bankroll, cfg.drawdownLimit) && !a.halted;
    Account(bankroll, peak, a.positions - {s.slug}, a.settlements + [Settlement(s.slug, p.dir, won, pnl, p.cost, s.at)],
            a.totalPnL + pnl, if won then a.wins + 1 else a.wins, if won then a.losses else a.losses + 1,
            a.halted || trips, if trips then s.at else a.haltedAt, if trips then a.haltCount + 1 else a.haltCount)
  }

  function CallFor(a: Account, cfg: ManagerConfig, s: Stamp): SettleCall
    requires s.slug in a.positions
  {
    var p := a.positions[s.slug];
    var won := DidWin(p.dir, s.outcome);
    SettleCall(s.slug, won, Pnl(p, won), s.outcome, SettleOne(a, cfg, s).bankroll)
  }

  ghost predicate DistinctSlugs(stamps: seq<Stamp>) {
    forall i, j | 0 <= i < j < |stamps| :: stamps[i].slug != stamps[j].slug
  }

  function SlugSet(stamps: seq<Stamp>): set<string> {
    set s | s in stamps :: s.slug
  }

  /** A pass settles each stamped position once, in the order of the stamps. */
  ghost predicate PassOver(a: Account, stamps: seq<Stamp>) {
    DistinctSlugs(stamps) && forall s | s in stamps :: s.slug in a.positions
  }

  function SettleAll(a: Account, cfg: ManagerConfig, stamps: seq<Stamp>): (r: Account)
    requires PassOver(a, stamps)
    ensures r.positions == a.positions - SlugSet(stamps)
  {
    if stamps == [] then a
    else
      var rest := stamps[..|stamps| - 1];
      assert stamps == rest + [stamps[|stamps| - 1]];
      SettleOne(SettleAll(a, cfg, rest), cfg, stamps[|stamps| - 1])
  }

  function CallsOf(a: Account, cfg: ManagerConfig, stamps: seq<Stamp>): seq<SettleCall>
    requires PassOver(a, stamps)
  {
    if stamps == [] then []
    else
      var rest := stamps[..|stamps| - 1];
      assert stamps == rest + [stamps[|stamps| - 1]];
      CallsOf(a, cfg, rest) + [CallFor(SettleAll(a, cfg, rest), cfg, stamps[|stamps| - 1])]
  }
}
