/** What the rotation asks the market API about, on every run. */
module Rotation {
  import opened Prelude
  import opened Hub
  import opened Store
  import opened Bot
  import opened BotLaws

  /** The window of each market about to be asked for ended more than half a minute ago. */
  ghost predicate AllOver(b: State) {
    forall s | s in b.expired :: s in b.hub.markets && b.hub.markets[s].endTime + 30 * SECOND < b.now
  }

  /** A collection finds exactly the open positions of known markets that still trade half a minute after their end. */
  lemma CollectsTheLate(env: Env, b: State, e: Event)
    requires env.eng.edge.Edge? && Enabled(b, e) && e.action.CollectExpired?
    ensures forall s :: s in Step(env, b, e).expired <==>
      && s in b.acct.positions && s in b.hub.markets
      && b.hub.markets[s].status == Trading && b.hub.markets[s].endTime + 30 * SECOND < e.at
  {
  }

  lemma StepKeepsAllOver(env: Env, b: State, e: Event)
    requires env.eng.edge.Edge? && Once(b) && AllOver(b)
    ensures AllOver(Step(env, b, e))
  {
    StepExtendsHub(env, b, e);
    if Enabled(b, e) && e.action.CollectExpired? {
      CollectsTheLate(env, b, e);
    }
  }

  lemma {:induction false} RunsStayOver(env: Env, b: State, events: seq<Event>)
    requires env.eng.edge.Edge? && Once(b) && AllOver(b)
    ensures AllOver(Run(env, b, events))
  {
    if events != [] {
      RunsStayOver(env, b, events[..|events| - 1]);
      RunsKeepOnce(env, b, events[..|events| - 1]);
      StepKeepsAllOver(env, Run(env, b, events[..|events| - 1]), events[|events| - 1]);
    }
  }

  /**
   On every run, whatever the streams do between collecting and asking, the API is only asked about known markets whose
   windows ended more than half a minute before, so never about one that is live.
   */
  lemma OnlyTheLateAreAsked(env: Env, start: Time, bankroll: real, found: seq<Row>, events: seq<Event>, e: Event)
    requires env.eng.edge.Edge?
    ensures var b := Run(env, Start(env, start, bankroll, found), events);
      Enabled(b, e) && e.action.AskApi? ==>
        && e.action.asked in b.hub.markets && b.hub.markets[e.action.asked].endTime + 30 * SECOND < e.at
        && !b.hub.markets[e.action.asked].Live(e.at)
  {
    StartIsOnce(env, start, bankroll, found);
    RunsStayOver(env, Start(env, start, bankroll, found), events);
  }
}
