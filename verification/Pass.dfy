/** What a settlement pass achieves, for the account and for the trades table. */
module Pass {
  import opened Hub
  import opened Risk
  import opened Ledger
  import opened Store
  import opened RiskManager

  /** The table after the visits of a pass, one by one. */
  function PassRows(rows: seq<Row>, a: Account, cfg: ManagerConfig, stamps: seq<Stamp>): seq<Row>
    requires PassOver(a, stamps)
  {
    if stamps == [] then rows
    else
      var rest := stamps[..|stamps| - 1];
      assert stamps == rest + [stamps[|stamps| - 1]];
      var last := stamps[|stamps| - 1];
      SettleRows(PassRows(rows, a, cfg, rest), CallFor(SettleAll(a, cfg, rest), cfg, last), last.at)
  }

  /** The account and the table after a pass with these stamps. */
  ghost function AfterPass(cfg: ManagerConfig, a: Account, rows: seq<Row>, stamps: seq<Stamp>): (Account, seq<Row>)
    requires PassOver(a, stamps)
  {
    (SettleAll(a, cfg, stamps), PassRows(rows, a, cfg, stamps))
  }

  /** A settlement that records this position at this outcome. */
  predicate Records(x: Settlement, slug: string, p: Position, outcome: string) {
    && x.slug == slug && x.dir == p.dir && x.cost == p.cost
    && x.won == Names(p.dir, outcome)
    && x.pnl == if x.won then p.size - Risk.Value(p.price, p.size) else -p.cost
  }

  /** Each due position left, and is recorded by one of as many new settlements as there were due positions. */
  ghost predicate AllSettled(a: Account, hs: HubState, due: set<string>, a': Account) {
    && due <= a.positions.Keys && a'.positions == a.positions - due
    && |a'.settlements| == |a.settlements| + |due| && a'.settlements[..|a.settlements|] == a.settlements
    && forall s | s in due && s in hs.markets ::
         exists i | |a.settlements| <= i < |a'.settlements| ::
           Records(a'.settlements[i], s, a.positions[s], hs.markets[s].winningOutcome)
  }

  /** What the table says of a settled position. */
  predicate ClosedAs(r: Row, p: Position, outcome: string) {
    && r.closing.Some? && r.closing.value.outcome == outcome
    && r.closing.value.won == Names(p.dir, outcome)
    && r.closing.value.pnl == if r.closing.value.won then p.size - Risk.Value(p.price, p.size) else -p.cost
  }

  /** Each unsettled row of a due position is filled in with its settlement, and every other row is as it was. */
  ghost predicate AllFiled(a: Account, hs: HubState, due: set<string>, rows: seq<Row>, rows': seq<Row>) {
    && |rows'| == |rows|
    && forall i | 0 <= i < |rows| ::
         if rows[i].closing.None? && rows[i].slug in due && rows[i].slug in a.positions && rows[i].slug in hs.markets
         then && rows'[i] == rows[i].(closing := rows'[i].closing)
              && ClosedAs(rows'[i], a.positions[rows[i].slug], hs.markets[rows[i].slug].winningOutcome)
         else rows'[i] == rows[i]
  }

  lemma SettlementRecords(a: Account, cfg: ManagerConfig, s: Stamp)
    requires s.slug in a.positions
    ensures var a' := SettleOne(a, cfg, s); var p := a.positions[s.slug];
      && |a'.settlements| == |a.settlements| + 1 && a'.settlements[..|a.settlements|] == a.settlements
      && Records(a'.settlements[|a.settlements|], s.slug, p, s.outcome)
      && forall r: Row :: ClosedAs(Closed(r, CallFor(a, cfg, s), s.at), p, s.outcome)
  {
    WinsIffNamed(a.positions[s.slug].dir, s.outcome);
  }

  lemma RecordsKept(a: Account, hs: HubState, due: set<string>, mid: Account, cfg: ManagerConfig, s: Stamp)
    requires AllSettled(a, hs, due, mid) && s.slug in mid.positions
    requires s.slug in hs.markets && s.outcome == hs.markets[s.slug].winningOutcome
    ensures AllSettled(a, hs, due + {s.slug}, SettleOne(mid, cfg, s))
  {
    SettlementRecords(mid, cfg, s);
    var a' := SettleOne(mid, cfg, s);
    assert a'.positions == a.positions - (due + {s.slug});
    forall t | t in due + {s.slug} && t in hs.markets
      ensures exists i | |a.settlements| <= i < |a'.settlements| ::
        Records(a'.settlements[i], t, a.positions[t], hs.markets[t].winningOutcome)
    {
      if t != s.slug {
        var i :| |a.settlements| <= i < |mid.settlements|
          && Records(mid.settlements[i], t, a.positions[t], hs.markets[t].winningOutcome);
        assert a'.settlements[i] == a'.settlements[..|mid.settlements|][i] == mid.settlements[i];
      } else {
        assert Records(a'.settlements[|mid.settlements|], t, a.positions[t], hs.markets[t].winningOutcome);
      }
    }
    assert a'.settlements[..|a.settlements|] == a'.settlements[..|mid.settlements|][..|a.settlements|];
  }

  lemma FiledKept(a: Account, hs: HubState, due: set<string>, rows: seq<Row>, mid: seq<Row>, now: Account,
                  cfg: ManagerConfig, s: Stamp)
    requires AllFiled(a, hs, due, rows, mid) && s.slug in now.positions && s.slug in a.positions && s.slug !in due
    requires now.positions[s.slug] == a.positions[s.slug]
    requires s.slug in hs.markets && s.outcome == hs.markets[s.slug].winningOutcome
    ensures AllFiled(a, hs, due + {s.slug}, rows, SettleRows(mid, CallFor(now, cfg, s), s.at))
  {
    SettlementRecords(now, cfg, s);
    forall i | 0 <= i < |rows|
      ensures SettleRows(mid, CallFor(now, cfg, s), s.at)[i]
           == if Touches(mid[i], s.slug) then Closed(mid[i], CallFor(now, cfg, s), s.at) else mid[i]
    {
      UpdateRow(mid, CallFor(now, cfg, s), s.at, i);
    }
  }

  /** A pass settles each of its slugs once and files each once. */
  lemma {:induction false} PassSettles(a: Account, hs: HubState, cfg: ManagerConfig, rows: seq<Row>, stamps: seq<Stamp>)
    requires PassOver(a, stamps)
    requires forall s | s in stamps :: s.slug in hs.markets && s.outcome == hs.markets[s.slug].winningOutcome
    ensures AllSettled(a, hs, SlugSet(stamps), SettleAll(a, cfg, stamps))
    ensures AllFiled(a, hs, SlugSet(stamps), rows, PassRows(rows, a, cfg, stamps))
  {
    if stamps == [] {
      assert SlugSet(stamps) == {} && a.positions - {} == a.positions;
    } else {
      var rest, last := stamps[..|stamps| - 1], stamps[|stamps| - 1];
      PassPrefix(a, cfg, stamps);
      assert last in stamps && forall s | s in rest :: s in stamps;
      PassSettles(a, hs, cfg, rows, rest);
      RecordsKept(a, hs, SlugSet(rest), SettleAll(a, cfg, rest), cfg, last);
      FiledKept(a, hs, SlugSet(rest), rows, PassRows(rows, a, cfg, rest), SettleAll(a, cfg, rest), cfg, last);
    }
  }

  /**
   So a whole pass, in whatever order, settles exactly the positions whose markets were resolved, each with one
   settlement that pays if the outcome names its side, and files each of them in every unsettled row it has.
   */
  lemma PassAchieves(a: Account, hs: HubState, cfg: ManagerConfig, rows: seq<Row>, stamps: seq<Stamp>)
    requires PassFor(a, hs, stamps)
    ensures var (a', rows') := AfterPass(cfg, a, rows, stamps);
      AllSettled(a, hs, Due(a, hs), a') && AllFiled(a, hs, Due(a, hs), rows, rows')
  {
    assert SlugSet(stamps) == Due(a, hs);
    PassSettles(a, hs, cfg, rows, stamps);
  }
}
