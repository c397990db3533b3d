/** The trades table: rows are appended when a position opens and filled in when it settles. */
module Store {
  import opened Prelude
  import opened Signal
  import opened Risk

  /** The columns a settlement fills in. */
  datatype Closing = Closing(won: bool, pnl: real, outcome: string, settledAt: Time, bankrollAfter: real)

  datatype Row = Row(slug: string, dir: Direction, token: string, entryPrice: real, shares: real, cost: real,
                     kellyFrac: real, modelProb: real, confidence: real, edge: real, openedAt: Time,
                     closing: Option<Closing>)

  type SettledRow = r: Row | r.closing.Some?
    witness Row("", Hold, "", 0.0, 0.0, 0.0, 0.0, 0.0, 0.0, 0.0, 0, Some(Closing(false, 0.0, "", 0, 0.0)))

  /** The zero time of the program: midnight on the first of January of the year 1. */
  const ZERO_TIME: Time := -62_135_596_800 * SECOND

  function RowFor(o: Order, dec: Decision, now: Time): Row {
    Row(o.market, o.dir, o.token, o.price, o.size, o.cost, o.kellyFrac, o.modelProb, dec.confidence, dec.edge, now,
        None)
  }

  /** Whether an update for this slug touches the row. */
  predicate Touches(r: Row, slug: string) {
    r.slug == slug && r.closing.None?
  }

  function Closed(r: Row, call: SettleCall, at: Time): SettledRow {
    r.(closing := Some(Closing(call.won, call.pnl, call.outcome, at, call.bankrollAfter)))
  }

  /** The table after the update: every unsettled row of the slug is filled in. */
  function SettleRows(rows: seq<Row>, call: SettleCall, at: Time): (r: seq<Row>)
    ensures |r| == |rows|
  {
    if rows == [] then []
    else
      var last := rows[|rows| - 1];
      SettleRows(rows[..|rows| - 1], call, at) + [if Touches(last, call.slug) then Closed(last, call, at) else last]
  }

  /** How many rows an update for this slug touches. */
  function Pending(rows: seq<Row>, slug: string): nat {
    if rows == [] then 0
    else Pending(rows[..|rows| - 1], slug) + if Touches(rows[|rows| - 1], slug) then 1 else 0
  }

  /** The rows an update writes, as written. */
  function Written(rows: seq<Row>, call: SettleCall, at: Time): (w: seq<SettledRow>)
    ensures |w| == Pending(rows, call.slug)
    ensures forall r | r in w ::
      r.slug == call.slug && r.closing == Some(Closing(call.won, call.pnl, call.outcome, at, call.bankrollAfter))
  {
    if rows == [] then []
    else
      var last := rows[|rows| - 1];
      if Touches(last, call.slug) then Written(rows[..|rows| - 1], call, at) + [Closed(last, call, at)]
      else Written(rows[..|rows| - 1], call, at)
  }

  function SettledRows(rows: seq<Row>): seq<SettledRow> {
    if rows == [] then []
    else
      var last := rows[|rows| - 1];
      if last.closing.Some? then SettledRows(rows[..|rows| - 1]) + [last] else SettledRows(rows[..|rows| - 1])
  }

  function PnlTotal(settled: seq<SettledRow>): real {
    if settled == [] then 0.0
    else
      PnlTotal(settled[..|settled| - 1]) + settled[|settled| - 1].closing.value.pnl
  }

  lemma {:induction false} AppendedRow(rows: seq<Row>, r: Row, slug: string)
    ensures SettledRows(rows + [r]) == if r.closing.Some? then SettledRows(rows) + [r] else SettledRows(rows)
    ensures Pending(rows + [r], slug) == Pending(rows, slug) + if Touches(r, slug) then 1 else 0
  {
    assert (rows + [r])[..|rows|] == rows;
  }

  lemma {:induction false} PnlOfAppended(settled: seq<SettledRow>, r: SettledRow)
    ensures PnlTotal(settled + [r]) == PnlTotal(settled) + r.closing.value.pnl
  {
    assert (settled + [r])[..|settled|] == settled;
  }

  /** An update moves the rows it touches to the settled side, and leaves no unsettled row of the slug behind. */
  lemma UpdateMovesRows(rows: seq<Row>, call: SettleCall, at: Time, slug: string)
    ensures multiset(SettledRows(SettleRows(rows, call, at)))
         == multiset(SettledRows(rows)) + multiset(Written(rows, call, at))
    ensures Pending(SettleRows(rows, call, at), slug) == if slug == call.slug then 0 else Pending(rows, slug)
  {
    UpdateSettlesRows(rows, call, at);
    UpdateClearsSlug(rows, call, at, slug);
  }

  /** An update fills in the rows it touches and leaves the others. */
  lemma {:induction false} UpdateRow(rows: seq<Row>, call: SettleCall, at: Time, i: nat)
    requires i < |rows|
    ensures SettleRows(rows, call, at)[i] == if Touches(rows[i], call.slug) then Closed(rows[i], call, at) else rows[i]
  {
    if i < |rows| - 1 {
      UpdateRow(rows[..|rows| - 1], call, at, i);
    }
  }

  lemma {:induction false} UpdateClearsSlug(rows: seq<Row>, call: SettleCall, at: Time, slug: string)
    ensures Pending(SettleRows(rows, call, at), slug) == if slug == call.slug then 0 else Pending(rows, slug)
  {
    if rows != [] {
      var rest, last := rows[..|rows| - 1], rows[|rows| - 1];
      UpdateClearsSlug(rest, call, at, slug);
      var last' := if Touches(last, call.slug) then Closed(last, call, at) else last;
      AppendedRow(SettleRows(rest, call, at), last', slug);
    }
  }

  lemma {:induction false} UpdateSettlesRows(rows: seq<Row>, call: SettleCall, at: Time)
    ensures multiset(SettledRows(SettleRows(rows, call, at)))
         == multiset(SettledRows(rows)) + multiset(Written(rows, call, at))
  {
    if rows != [] {
      var rest, last := rows[..|rows| - 1], rows[|rows| - 1];
      UpdateSettlesRows(rest, call, at);
      assert rows == rest + [last];
      UpdateGrows(rest, last, call, at);
      AppendedRow(rest, last, "");
      var last' := if Touches(last, call.slug) then Closed(last, call, at) else last;
      AppendedRow(SettleRows(rest, call, at), last', "");
    }
  }

  lemma UpdateGrows(rest: seq<Row>, last: Row, call: SettleCall, at: Time)
    ensures SettleRows(rest + [last], call, at)
         == SettleRows(rest, call, at) + [if Touches(last, call.slug) then Closed(last, call, at) else last]
    ensures Written(rest + [last], call, at)
         == Written(rest, call, at) + if Touches(last, call.slug) then [Closed(last, call, at)] else []
  {
    assert (rest + [last])[..|rest|] == rest;
  }

  /** The profits on file rise by the settled profit once per row touched: correctly, exactly when that is one row. */
  lemma {:induction false} UpdateAddsPnl(rows: seq<Row>, call: SettleCall, at: Time)
    ensures PnlTotal(SettledRows(SettleRows(rows, call, at)))
         == PnlTotal(SettledRows(rows)) + Times(Pending(rows, call.slug), call.pnl)
  {
    if rows != [] {
      var rest, last := rows[..|rows| - 1], rows[|rows| - 1];
      UpdateAddsPnl(rest, call, at);
      UpdatedRow(rest, last, call, at);
      assert rows == rest + [last];
    }
  }

  lemma UpdatedRow(rest: seq<Row>, last: Row, call: SettleCall, at: Time)
    ensures var hit := Touches(last, call.slug);
      && PnlTotal(SettledRows(SettleRows(rest + [last], call, at)))
         == PnlTotal(SettledRows(SettleRows(rest, call, at))) + PnlOn(last) + (if hit then call.pnl else 0.0)
      && PnlTotal(SettledRows(rest + [last])) == PnlTotal(SettledRows(rest)) + PnlOn(last)
      && Times(Pending(rest + [last], call.slug), call.pnl)
         == Times(Pending(rest, call.slug), call.pnl) + (if hit then call.pnl else 0.0)
  {
    var last' := if Touches(last, call.slug) then Closed(last, call, at) else last;
    assert (rest + [last])[..|rest|] == rest;
    PnlWithRow(SettleRows(rest, call, at), last');
    PnlWithRow(rest, last);
    AppendedRow(rest, last, call.slug);
  }

  function PnlOn(r: Row): real {
    if r.closing.Some? then r.closing.value.pnl else 0.0
  }

  lemma PnlWithRow(rows: seq<Row>, r: Row)
    ensures PnlTotal(SettledRows(rows + [r])) == PnlTotal(SettledRows(rows)) + PnlOn(r)
  {
    AppendedRow(rows, r, "");
    if r.closing.Some? {
      PnlOfAppended(SettledRows(rows), r);
    }
  }

  lemma TimesOnce(n: nat, x: real)
    requires x != 0.0
    ensures Times(n, x) == x <==> n == 1
  {
    TimesSign(n, x);
    if n >= 2 {
      TimesSign(n - 1, x);
    }
  }

  lemma {:induction false} TimesSign(n: nat, x: real)
    ensures n > 0 && x > 0.0 ==> Times(n, x) > 0.0
    ensures n > 0 && x < 0.0 ==> Times(n, x) < 0.0
  {
    if n > 0 {
      TimesSign(n - 1, x);
    }
  }

  /** A settlement is filed correctly exactly when one unsettled row carries its slug. */
  lemma FiledOnceIffOneRow(rows: seq<Row>, call: SettleCall, at: Time)
    requires call.pnl != 0.0
    ensures PnlTotal(SettledRows(SettleRows(rows, call, at))) == PnlTotal(SettledRows(rows)) + call.pnl
            <==> Pending(rows, call.slug) == 1
  {
    UpdateAddsPnl(rows, call, at);
    TimesOnce(Pending(rows, call.slug), call.pnl);
  }

  /**
   After a restart the positions are gone but their rows are not: a second trade of the same
   slug leaves two unsettled rows, and settling it files the profit twice.
   */
  lemma RestartFilesTwice(o: Order, dec: Decision, first: Time, second: Time, call: SettleCall, at: Time)
    requires call.slug == o.market
    ensures PnlTotal(SettledRows(SettleRows([RowFor(o, dec, first), RowFor(o, dec, second)], call, at)))
         == call.pnl + call.pnl
  {
    var one, two := [RowFor(o, dec, first)], [RowFor(o, dec, first), RowFor(o, dec, second)];
    assert two[..1] == one && one[..0] == [];
    assert Pending(one, call.slug) == 1 && Pending(two, call.slug) == 2;
    UpdateAddsPnl(two, call, at);
    assert SettledRows(one) == [] && SettledRows(two) == [];
    assert Times(2, call.pnl) == Times(1, call.pnl) + call.pnl;
  }

  lemma SameElements(q: seq<SettledRow>, r: seq<SettledRow>)
    requires multiset(q) == multiset(r)
    ensures |q| == |r| && forall x :: x in q <==> x in r
  {
    assert |multiset(q)| == |q| && |multiset(r)| == |r|;
    forall x ensures x in q <==> x in r {
      assert x in q <==> x in multiset(q);
      assert x in r <==> x in multiset(r);
    }
  }

  /** A bankroll the latest-first query may return: ties between equal times are broken arbitrarily. */
  ghost predicate MayBeLatest(rows: seq<Row>, b: Option<real>) {
    var settled := SettledRows(rows);
    if settled == [] then b == None
    else exists r | r in settled :: b == Some(r.closing.value.bankrollAfter)
                    && forall x | x in settled :: x.closing.value.settledAt <= r.closing.value.settledAt
  }

  ghost predicate SortedBySettling(q: seq<SettledRow>) {
    forall i, j | 0 <= i < j < |q| :: q[i].closing.value.settledAt <= q[j].closing.value.settledAt
  }

  function Since(rows: seq<SettledRow>, since: Time): seq<SettledRow> {
    if rows == [] then []
    else
      var last := rows[|rows| - 1];
      var rest := Since(rows[..|rows| - 1], since);
      if last.closing.value.settledAt >= since then rest + [last] else rest
  }

  /** A list the time-ordered query may return. */
  ghost predicate MayList(rows: seq<Row>, since: Time, q: seq<SettledRow>) {
    && multiset(q) == multiset(Since(SettledRows(rows), since))
    && SortedBySettling(q)
  }

  /** Inserting a row into a list ordered by settlement time. */
  function InsertByTime(q: seq<SettledRow>, r: SettledRow): (s: seq<SettledRow>)
    requires SortedBySettling(q)
    ensures SortedBySettling(s)
    ensures multiset(s) == multiset(q) + multiset{r}
  {
    if q == [] || q[|q| - 1].closing.value.settledAt <= r.closing.value.settledAt then q + [r]
    else
      var last := q[|q| - 1];
      assert q == q[..|q| - 1] + [last];
      var rest := InsertByTime(q[..|q| - 1], r);
      InsertedEarlier(rest, q[..|q| - 1], r, last);
      rest + [last]
  }

  lemma InsertedEarlier(rest: seq<SettledRow>, q: seq<SettledRow>, r: SettledRow, last: SettledRow)
    requires multiset(rest) == multiset(q) + multiset{r}
    requires SortedBySettling(q + [last]) && r.closing.value.settledAt <= last.closing.value.settledAt
    ensures forall i | 0 <= i < |rest| :: rest[i].closing.value.settledAt <= last.closing.value.settledAt
  {
    AllOfInserted(rest, q, r);
    forall x | x in q
      ensures x.closing.value.settledAt <= last.closing.value.settledAt
    {
      var j :| 0 <= j < |q| && q[j] == x;
      assert (q + [last])[j] == x && (q + [last])[|q|] == last;
    }
  }

  lemma SelectedGrows(rows: seq<Row>, r: Row, since: Time)
    ensures Since(SettledRows(rows + [r]), since) == Since(SettledRows(rows), since)
            + if r.closing.Some? && r.closing.value.settledAt >= since then [r] else []
  {
    AppendedRow(rows, r, "");
    if r.closing.Some? {
      assert (SettledRows(rows) + [r])[..|SettledRows(rows)|] == SettledRows(rows);
    }
  }

  class TradeStore {
    var rows: seq<Row>

    constructor ()
      ensures rows == []
    {
      rows := [];
    }

    method LogTrade(r: Row)
      requires r.closing.None?
      modifies this
      ensures rows == old(rows) + [r]
    {
      rows := rows + [r];
    }

    /** UPDATE ... WHERE slug = ? AND settled_at IS NULL. */
    method SettleTrade(call: SettleCall, at: Time)
      modifies this
      ensures rows == SettleRows(old(rows), call, at)
    {
      var i := 0;
      while i < |rows|
        invariant 0 <= i <= |rows| == |old(rows)|
        invariant rows[..i] == SettleRows(old(rows)[..i], call, at)
        invariant rows[i..] == old(rows)[i..]
      {
        assert old(rows)[..i + 1][..i] == old(rows)[..i];
        assert rows[i] == rows[i..][0] == old(rows)[i];
        if rows[i].slug == call.slug && rows[i].closing.None? {
          rows := rows[i := Closed(rows[i], call, at)];
        }
        i := i + 1;
      }
      assert old(rows)[..i] == old(rows) && rows[..i] == rows;
    }

    /** SELECT ... WHERE settled_at IS NOT NULL AND settled_at >= ? ORDER BY settled_at. */
    method SettledTradesSince(since: Time) returns (q: seq<SettledRow>)
      ensures MayList(rows, since, q)
    {
      q := [];
      var i := 0;
      while i < |rows|
        invariant 0 <= i <= |rows|
        invariant MayList(rows[..i], since, q)
      {
        SelectedGrows(rows[..i], rows[i], since);
        assert rows[..i + 1] == rows[..i] + [rows[i]];
        if rows[i].closing.Some? && rows[i].closing.value.settledAt >= since {
          q := InsertByTime(q, rows[i]);
        }
        i := i + 1;
      }
      assert rows[..i] == rows;
    }

    method AllSettledTrades() returns (q: seq<SettledRow>)
      ensures MayList(rows, ZERO_TIME, q)
    {
      q := SettledTradesSince(ZERO_TIME);
    }

    /** SELECT bankroll_after ... ORDER BY settled_at DESC LIMIT 1. */
    method LastBankroll() returns (b: Option<real>)
      ensures MayBeLatest(rows, b)
    {
      b := None;
      var latest := 0;
      ghost var from: Option<SettledRow> := None;
      var i := 0;
      while i < |rows|
        invariant 0 <= i <= |rows|
        invariant from.None? <==> SettledRows(rows[..i]) == []
        invariant from.None? ==> b == None
        invariant from.Some? ==> && from.value in SettledRows(rows[..i])
                                 && b == Some(from.value.closing.value.bankrollAfter)
                                 && from.value.closing.value.settledAt == latest
        invariant from.Some? ==> forall x | x in SettledRows(rows[..i]) :: x.closing.value.settledAt <= latest
      {
        assert rows[..i + 1] == rows[..i] + [rows[i]];
        AppendedRow(rows[..i], rows[i], "");
        match rows[i].closing {
          case None =>
          case Some(c) =>
            if b == None || c.settledAt > latest {
              b, latest := Some(c.bankrollAfter), c.settledAt;
              from := Some(rows[i]);
            }
        }
        i := i + 1;
      }
      assert rows[..i] == rows;
    }
  }
}
