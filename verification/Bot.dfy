/**
 The running bot as a state machine. The streams, the market rotation and the signal loop
 interleave freely; every action below is one critical section of the program, so the hub
 may change between any two steps of a signal tick. An action that its goroutine could not
 take at that point changes nothing, so every sequence of events whatsoever is a run.
 */
module Bot {
  import opened Prelude
  import opened Hub
  import opened Signal
  import opened Risk
  import opened Store
  import opened RiskManager

  datatype Env = Env(cfg: ManagerConfig, eng: Engine, curves: Curves)

  /**
   Where the signal loop stands within a tick. While it settles, `todo` holds the positions
   still to visit and `due` those whose markets were resolved when the pass began.
   */
  datatype Phase =
    | Idle
    | Settling(todo: set<string>, due: set<string>)
    | Decided(dec: Decision)
    | Ordered(dec: Decision, order: Order)
    | Recorded(dec: Decision, order: Order)

  /**
   The state of the process: clock, hub, account, trades table, the signal loop's phase and the
   slugs the rotation is about to ask the API for. The rest is history, for the statements only.
   */
  datatype State = State(now: Time, hub: HubState, acct: Account, rows: seq<Row>, phase: Phase, expired: set<string>,
                         start: Time, base: real, placed: seq<string>, halts: seq<Time>, log: seq<SettledRow>,
                         found: seq<Row>)

  datatype Action =
    | Write(ev: HubEvent)
    | CollectExpired
    | AskApi(asked: string, answer: Option<string>)
    | Tick
    | Visit(slug: string)
    | Decide(current: Option<Market>)
    | Evaluate
    | Record
    | Log

  datatype Event = Event(at: Time, action: Action)

  /** A process that starts with this bankroll, its own or a restored one, on the table an earlier process left. */
  function Start(env: Env, start: Time, bankroll: real, found: seq<Row>): State {
    State(start, EMPTY_HUB, Restore(NewAccount(env.cfg), bankroll), found, Idle, {}, start, bankroll, [], [], [], found)
  }

  /** Positions open whose window ended more than half a minute ago without a resolution. */
  function Expired(b: State, at: Time): set<string> {
    Overdue(b.acct.positions.Keys, b.hub, at)
  }

  /** Time never runs backwards, and each goroutine does its steps in order. */
  ghost predicate Enabled(b: State, e: Event) {
    && b.now <= e.at
    && match e.action
       case Write(ev) => !ev.ForceResolved? && (ev.Registered? ==> ev.market.status == Trading)
       case CollectExpired => b.expired == {}
       case AskApi(slug, _) => slug in b.expired
       case Tick => b.phase.Idle?
       case Visit(slug) => b.phase.Settling? && slug in b.phase.todo
       case Decide(current) => b.phase.Settling? && b.phase.todo == {} && b.hub.MayBeCurrent(current, e.at)
       case Evaluate => b.phase.Decided?
       case Record => b.phase.Ordered?
       case Log => b.phase.Recorded?
  }

  /** One turn of the settlement loop, with the callback that files the settlement. */
  function AfterVisit(env: Env, b: State, slug: string, at: Time): State
    requires b.phase.Settling?
  {
    var left := b.phase.(todo := b.phase.todo - {slug});
    if slug !in b.acct.positions || !b.hub.IsResolved(slug) then b.(phase := left)
    else
      var s := StampFor(b.hub, slug, at);
      var call := CallFor(b.acct, env.cfg, s);
      var acct := SettleOne(b.acct, env.cfg, s);
      b.(phase := left, acct := acct, rows := SettleRows(b.rows, call, at), log := b.log + Written(b.rows, call, at),
         halts := if acct.haltCount > b.acct.haltCount then b.halts + [at] else b.halts)
  }

  function AfterDecision(env: Env, b: State, current: Option<Market>, at: Time): State
    requires env.eng.edge.Edge?
  {
    var dec := env.eng.Decide(b.hub, current, at, env.curves);
    b.(phase := if dec.dir == Hold || !dec.shouldTrade then Idle else Decided(dec))
  }

  ghost function AfterEvaluation(env: Env, b: State, at: Time): State
    requires b.phase.Decided?
  {
    var (acct, order) := EvaluateOrder(b.acct, env.cfg, b.phase.dec, b.hub, at);
    b.(acct := acct, phase := if order.None? then Idle else Ordered(b.phase.dec, order.value))
  }

  ghost function Act(env: Env, b: State, e: Event): State
    requires Enabled(b, e) && env.eng.edge.Edge?
  {
    match e.action
    case Write(ev) => b.(hub := Apply(b.hub, ev))
    case CollectExpired => b.(expired := Expired(b, e.at))
    case AskApi(slug, answer) =>
      b.(expired := b.expired - {slug},
         hub := if answer.None? then b.hub else Apply(b.hub, ForceResolved(slug, answer.value, e.at)))
    case Tick =>
      b.(phase := Settling(b.acct.positions.Keys, set s | s in b.acct.positions && b.hub.IsResolved(s)))
    case Visit(slug) => AfterVisit(env, b, slug, e.at)
    case Decide(current) => AfterDecision(env, b, current, e.at)
    case Evaluate => AfterEvaluation(env, b, e.at)
    case Record =>
      b.(acct := Open(b.acct, b.phase.order, e.at), placed := b.placed + [b.phase.order.market],
         phase := Recorded(b.phase.dec, b.phase.order))
    case Log => b.(rows := b.rows + [RowFor(b.phase.order, b.phase.dec, e.at)], phase := Idle)
  }

  ghost function Step(env: Env, b: State, e: Event): State
    requires env.eng.edge.Edge?
  {
    if Enabled(b, e) then Act(env, b, e).(now := e.at) else b
  }

  ghost function Run(env: Env, b: State, events: seq<Event>): State
    requires env.eng.edge.Edge?
  {
    if events == [] then b else Step(env, Run(env, b, events[..|events| - 1]), events[|events| - 1])
  }

  // ---- what each action leaves alone ----

  /** Whatever happens, known markets keep their identity and resolved ones stay resolved. */
  lemma StepExtendsHub(env: Env, b: State, e: Event)
    requires env.eng.edge.Edge? && b.hub.Keyed()
    ensures Step(env, b, e).hub.Keyed() && Extends(b.hub, Step(env, b, e).hub)
    ensures b.now <= Step(env, b, e).now
  {
    if Enabled(b, e) {
      match e.action
      case Write(ev) => ApplyExtends(b.hub, ev);
      case AskApi(slug, answer) =>
        if answer.Some? {
          ApplyExtends(b.hub, ForceResolved(slug, answer.value, e.at));
        }
      case _ =>
    }
  }

  /** The streams and the rotation never touch the account, the table or the signal loop. */
  predicate Background(a: Action) {
    a.Write? || a.CollectExpired? || a.AskApi?
  }

  lemma BackgroundKeepsBooks(env: Env, b: State, e: Event)
    requires env.eng.edge.Edge? && Background(e.action)
    ensures var b' := Step(env, b, e);
      b' == b.(now := b'.now, hub := b'.hub, expired := b'.expired)
  {
  }
}
