// What a paper run did, measured from the journal
// (libs/lifecycle/src/lifecycle/evidence.py, libs/journal/src/journal/store.py,
// libs/attribution/src/attribution/report.py).
module PaperFigures {
  import opened Common
  import opened Sums
  import opened SeqSums
  import opened Sorting
  import opened RoundTrips
  import opened Archive
  import opened Performance
  import Text

  /** The most rows one read of the execution record returns. */
  const PAGE_SIZE := 5000

  /** One version of a sleeve over a window of time. */
  datatype Query = Query(strategyId: string, strategyVersion: string, symbol: string, accountId: string,
                         first: int, last: int)

  /** Simulated rows of exactly this sleeve version, inside the window. */
  predicate Selects(q: Query, r: Row) {
    && r.recorded == Scope(q.strategyId, q.strategyVersion, Text.Upper(q.symbol), "paper", q.accountId)
    && q.first <= r.recordedAt <= q.last
  }

  function Selected(q: Query, rows: seq<Row>): seq<Row> {
    if rows == [] then []
    else
      var before, r := Selected(q, rows[..|rows| - 1]), rows[|rows| - 1];
      if Selects(q, r) then before + [r] else before
  }

  datatype Figures = Figures(orders: nat, fills: nat, fees: real, shortfall: Option<real>, realizedTotal: real)

  function Fills(rows: seq<Row>): nat {
    if rows == [] then 0 else Fills(rows[..|rows| - 1]) + if rows[|rows| - 1].filled then 1 else 0
  }

  function FeeOf(r: Row): real { r.fees }

  function Shortfalls(rows: seq<Row>): seq<real> {
    if rows == [] then []
    else
      var before, r := Shortfalls(rows[..|rows| - 1]), rows[|rows| - 1];
      if r.shortfall.Some? then before + [r.shortfall.value] else before
  }

  /** The figures of two reads.  Counts, fees and shortfall are those of the rows selected from what the
      first read saw; the realised total is what the round trips of the first page of the rows selected
      from what the second read saw report. */
  ghost predicate Measures(q: Query, rows: seq<Row>, paired: seq<Row>, m: Figures) {
    Describe(Selected(q, rows), Selected(q, paired), m)
  }

  ghost predicate Describe(chosen: seq<Row>, paired: seq<Row>, m: Figures) {
    && m.orders == |chosen| && m.fills == Fills(chosen) && m.fees == SumSeq(chosen, FeeOf)
    && m.shortfall == MeanOf(Shortfalls(chosen))
    && m.realizedTotal == SumSeq(RoundTripsOf(Page(paired)), Reported)
  }

  function MeanOf(xs: seq<real>): Option<real> {
    if xs == [] then None else Some(Curve(xs)[|xs|] / |xs| as real)
  }

  /** Oldest first, and no more than one read returns. */
  function Page(rows: seq<Row>): seq<Row> {
    var ordered := SortBy(rows, At);
    if |ordered| <= PAGE_SIZE then ordered else ordered[..PAGE_SIZE]
  }

  // ------------------------------------------------------------------
  // The program
  // ------------------------------------------------------------------
  method Select(q: Query, rows: seq<Row>) returns (chosen: seq<Row>)
    ensures chosen == Selected(q, rows)
  {
    chosen := [];
    for i := 0 to |rows|
      invariant chosen == Selected(q, rows[..i])
    {
      assert rows[..i + 1][..i] == rows[..i];
      if Selects(q, rows[i]) {
        chosen := chosen + [rows[i]];
      }
    }
    assert rows[..|rows|] == rows;
  }

  method Costs(chosen: seq<Row>) returns (fills: nat, fees: real, shortfall: Option<real>)
    ensures fills == Fills(chosen) && fees == SumSeq(chosen, FeeOf) && shortfall == MeanOf(Shortfalls(chosen))
  {
    fills, fees := 0, 0.0;
    var shortfalls: seq<real> := [];
    for i := 0 to |chosen|
      invariant fills == Fills(chosen[..i]) && fees == SumSeq(chosen[..i], FeeOf)
      invariant shortfalls == Shortfalls(chosen[..i])
    {
      assert chosen[..i + 1][..i] == chosen[..i];
      var r := chosen[i];
      fills := fills + if r.filled then 1 else 0;
      fees := fees + r.fees;
      if r.shortfall.Some? {
        shortfalls := shortfalls + [r.shortfall.value];
      }
    }
    assert chosen[..|chosen|] == chosen;
    var total := SumResults(shortfalls);
    shortfall := if shortfalls == [] then None else Some(total / |shortfalls| as real);
  }

  method Measure(q: Query, rows: seq<Row>, paired: seq<Row>) returns (m: Figures)
    ensures Measures(q, rows, paired, m)
  {
    var chosen := Select(q, rows);
    var fills, fees, shortfall := Costs(chosen);
    var again := Select(q, paired);
    var trips := PairRoundTrips(Page(again));
    var series := RealizedSeries(trips);
    var total := SumResults(series);
    CurveEndsAtTotal(SortBy(trips, ExitAt));
    SortBySum(trips, ExitAt, Reported);
    m := Figures(|chosen|, fills, fees, shortfall, total);
  }

  // ------------------------------------------------------------------
  // What the figures mean
  // ------------------------------------------------------------------
  lemma {:induction false} SelectedConcat(q: Query, a: seq<Row>, b: seq<Row>)
    ensures Selected(q, a + b) == Selected(q, a) + Selected(q, b)
  {
    if b == [] {
      assert a + b == a;
    } else {
      var n := |b| - 1;
      assert (a + b)[..|a + b| - 1] == a + b[..n];
      SelectedConcat(q, a, b[..n]);
    }
  }

  lemma {:induction false} NoneSelected(q: Query, rows: seq<Row>)
    requires forall r :: r in rows ==> !Selects(q, r)
    ensures Selected(q, rows) == []
  {
    if rows != [] {
      assert rows[|rows| - 1] in rows;
      NoneSelected(q, rows[..|rows| - 1]);
    }
  }

  /** A row counts exactly when it is a paper row of this strategy, version, symbol and account, recorded
      inside the window, both ends included. */
  lemma SelectedOne(q: Query, r: Row)
    ensures Selected(q, [r]) ==
              if r.recorded.strategyId == q.strategyId && r.recorded.strategyVersion == q.strategyVersion
                 && r.recorded.symbol == Text.Upper(q.symbol) && r.recorded.environment == "paper"
                 && r.recorded.accountId == q.accountId && q.first <= r.recordedAt && r.recordedAt <= q.last
              then [r] else []
  {
    assert [r][..0] == [];
  }

  lemma NoFigures(q: Query)
    ensures Measures(q, [], [], Figures(0, 0, 0.0, None, 0.0))
  {
    assert Page([]) == [] && RoundTripsOf([]) == [];
  }

  /** One more row that counts is one order more, one fill more if it filled, and its fees more; it makes a
      shortfall known if it has one, and moves no profit until the second read sees it. */
  lemma OneMoreRow(q: Query, rows: seq<Row>, r: Row, paired: seq<Row>, m: Figures, n: Figures)
    requires Selected(q, [r]) == [r] && Measures(q, rows, paired, m) && Measures(q, rows + [r], paired, n)
    ensures n.orders == m.orders + 1 && n.fills == m.fills + (if r.filled then 1 else 0) && n.fees == m.fees + r.fees
    ensures n.shortfall.Some? <==> m.shortfall.Some? || r.shortfall.Some?
    ensures n.realizedTotal == m.realizedTotal
  {
    SelectedConcat(q, rows, [r]);
    var chosen := Selected(q, rows);
    assert (chosen + [r])[..|chosen|] == chosen;
    SumSeqAppend(chosen, r, FeeOf);
  }

  /** The mean, weighted back, is the sum of the values. */
  lemma MeanIs(xs: seq<real>, mean: real, total: real, n: real)
    requires xs != [] && MeanOf(xs) == Some(mean) && total == Curve(xs)[|xs|] && n == |xs| as real
    ensures mean * n == total
  {
    assert mean == total / n;
    Unweighted(mean, total, n);
  }

  lemma MeanKnownIff(xs: seq<real>)
    ensures MeanOf(xs).Some? <==> |xs| > 0
  {
  }

  lemma Unweighted(mean: real, total: real, n: real)
    requires n > 0.0 && mean == total / n
    ensures mean * n == total
  {
  }

  /** Nothing leaks in: rows of other strategies, versions, symbols, environments, accounts or times,
      wherever they stand in the journal, change no figure. */
  lemma OtherRowsDoNotCount(q: Query, a: seq<Row>, others: seq<Row>, b: seq<Row>, m: Figures)
    requires forall r :: r in others ==> !Selects(q, r)
    ensures Measures(q, a + others + b, a + others + b, m) <==> Measures(q, a + b, a + b, m)
  {
    SameSelection(q, a, others, b);
  }

  lemma SameSelection(q: Query, a: seq<Row>, others: seq<Row>, b: seq<Row>)
    requires forall r :: r in others ==> !Selects(q, r)
    ensures Selected(q, a + others + b) == Selected(q, a + b)
  {
    SelectedConcat(q, a + others, b);
    SelectedConcat(q, a, others);
    SelectedConcat(q, a, b);
    NoneSelected(q, others);
    assert Selected(q, a) + [] == Selected(q, a);
  }

  /** The figures are determined by what the reads saw. */
  lemma FiguresUnique(q: Query, rows: seq<Row>, paired: seq<Row>, m: Figures, n: Figures)
    requires Measures(q, rows, paired, m) && Measures(q, rows, paired, n)
    ensures m == n
  {
  }

  ghost predicate PositivePrices(rows: seq<Row>) {
    forall r :: r in rows && Participates(r) ==> r.fillPrice.value > 0.0
  }

  lemma PricedTripReports(rows: seq<Row>, t: ScopedTrip)
    requires PositivePrices(rows) && t in RoundTripsOf(rows)
    ensures Reported(t) == TripGain(t)
  {
    TripsStayInScope(rows, t);
    PricedLeg(rows, t.scope, t.trip.entry);
    PricedLeg(rows, t.scope, t.trip.exit);
    GainIsRealized(t.trip);
  }

  lemma PricedLeg(rows: seq<Row>, k: Scope, l: Leg)
    requires PositivePrices(rows) && LegFromScope(rows, k, l)
    ensures l.Usable()
  {
  }

  /** The profit the live gate reads is the cash the measured fills moved plus the cost still tied up in
      what the run left open. */
  lemma PaperProfitIsCash(q: Query, rows: seq<Row>, paired: seq<Row>, m: Figures)
    requires Measures(q, rows, paired, m) && PositivePrices(Page(Selected(q, paired)))
    ensures m.realizedTotal
            == SumSeq(Page(Selected(q, paired)), RowCash) + TotalOpenBasis(Page(Selected(q, paired)))
  {
    var page := Page(Selected(q, paired));
    forall t | t in RoundTripsOf(page) ensures Reported(t) == TripGain(t) { PricedTripReports(page, t); }
    SumSeqEqual(RoundTripsOf(page), Reported, TripGain);
    ArchiveIdentity(page);
  }

  lemma {:induction false} SelectedOnly(q: Query, rows: seq<Row>, r: Row)
    requires r in Selected(q, rows)
    ensures Selects(q, r)
  {
    if r in Selected(q, rows[..|rows| - 1]) {
      SelectedOnly(q, rows[..|rows| - 1], r);
    }
  }

  lemma PageOnly(q: Query, rows: seq<Row>, r: Row)
    requires r in Page(Selected(q, rows))
    ensures Selects(q, r)
  {
    SortByElements(Selected(q, rows), At, r);
    SelectedOnly(q, rows, r);
  }

  ghost predicate OneScope(rows: seq<Row>, k: Scope) { forall r :: r in rows ==> ScopeOf(r) == k }

  lemma {:induction false} OnlyScope(rows: seq<Row>, k: Scope)
    requires OneScope(rows, k)
    ensures Scopes(rows) == [] || Scopes(rows) == [k]
  {
    if rows != [] {
      OnlyScope(rows[..|rows| - 1], k);
      assert rows[|rows| - 1] in rows;
    }
  }

  lemma FlatHasNoBasis(rows: seq<Row>, k: Scope)
    requires OneScope(rows, k) && SumSeq(rows, RowSigned) == 0.0
    ensures TotalOpenBasis(rows) == 0.0
  {
    OnlyScope(rows, k);
    if Scopes(rows) != [] {
      ScopesPartition(rows, RowSigned);
      SumSeqEqual(rows, Filled(RowSigned), RowSigned);
      SumSeqSingle(k, PerScope(rows, RowSigned));
      FlatScopeIsEmpty(rows, k);
      SumSeqSingle(k, ScopeBasis(rows));
    }
  }

  lemma FlatScopeIsEmpty(rows: seq<Row>, k: Scope)
    requires SumSeq(Members(rows, k), RowSigned) == 0.0
    ensures ScopeBook(rows, k).lots == []
  {
    LegsNumbered(SortBy(Members(rows, k), At));
    ScopeTotals(rows, k);
    PairOpenQty(ScopeLegs(rows, k));
    FlatMeansEmpty(ScopeLegs(rows, k));
  }

  /** When the measured fills net to zero, it is exactly the cash they brought in. */
  lemma FlatPaperProfit(q: Query, rows: seq<Row>, paired: seq<Row>, m: Figures)
    requires Measures(q, rows, paired, m) && PositivePrices(Page(Selected(q, paired)))
    requires SumSeq(Page(Selected(q, paired)), RowSigned) == 0.0
    ensures m.realizedTotal == SumSeq(Page(Selected(q, paired)), RowCash)
  {
    var k := Scope(q.strategyId, q.strategyVersion, Text.Upper(q.symbol), "paper", q.accountId);
    forall r | r in Page(Selected(q, paired)) ensures ScopeOf(r) == k {
      PageOnly(q, paired, r);
      Text.UpperIdempotent(q.symbol);
    }
    PaperProfitIsCash(q, rows, paired, m);
    FlatHasNoBasis(Page(Selected(q, paired)), k);
  }

  // ------------------------------------------------------------------
  // More rows than one read returns
  // ------------------------------------------------------------------

  /** What the second read leaves behind. */
  function Beyond(rows: seq<Row>): seq<Row> {
    var ordered := SortBy(rows, At);
    if |ordered| <= PAGE_SIZE then [] else ordered[PAGE_SIZE..]
  }

  lemma PageThenBeyond(rows: seq<Row>)
    ensures Page(rows) + Beyond(rows) == SortBy(rows, At)
  {
  }

  /** The page and what is beyond it are all of the window, and nothing is beyond it exactly when the
      window holds no more rows than one read returns. */
  lemma PageAndBeyond(rows: seq<Row>, f: Row -> real)
    ensures SumSeq(rows, f) == SumSeq(Page(rows), f) + SumSeq(Beyond(rows), f)
    ensures Beyond(rows) == [] <==> |rows| <= 5000
  {
    SortBySum(rows, At, f);
    PageThenBeyond(rows);
    SumSeqConcat(Page(rows), Beyond(rows), f);
  }

  /** Orders, fills and fees cover the window, the realised total only its first page.  When the page is
      flat, the total is the window's cash exactly when the rows beyond the page moved none. */
  lemma WindowProfitIff(q: Query, rows: seq<Row>, m: Figures)
    requires Measures(q, rows, rows, m) && PositivePrices(Page(Selected(q, rows)))
    requires SumSeq(Page(Selected(q, rows)), RowSigned) == 0.0
    ensures m.realizedTotal == SumSeq(Selected(q, rows), RowCash) <==> SumSeq(Beyond(Selected(q, rows)), RowCash) == 0.0
  {
    FlatPaperProfit(q, rows, rows, m);
    PageAndBeyond(Selected(q, rows), RowCash);
  }

  /** With no more rows than one read returns, the figures cover one and the same window: the total is its
      cash plus the cost of what it leaves open. */
  lemma WindowProfit(q: Query, rows: seq<Row>, m: Figures)
    requires Measures(q, rows, rows, m) && PositivePrices(Page(Selected(q, rows)))
    requires |Selected(q, rows)| <= 5000
    ensures Page(Selected(q, rows)) == SortBy(Selected(q, rows), At)
    ensures m.realizedTotal == SumSeq(Selected(q, rows), RowCash) + TotalOpenBasis(SortBy(Selected(q, rows), At))
  {
    PaperProfitIsCash(q, rows, rows, m);
    PageAndBeyond(Selected(q, rows), RowCash);
  }

  /** A read that returned nothing reports no profit and no loss. */
  lemma NothingPaired(q: Query, rows: seq<Row>, m: Figures)
    requires Measures(q, rows, rows, m)
    ensures Measures(q, rows, [], m.(realizedTotal := 0.0))
  {
    assert Selected(q, []) == [] && Page([]) == [] && RoundTripsOf([]) == [];
  }

  // ------------------------------------------------------------------
  // A losing run
  // ------------------------------------------------------------------
  function TradeRow(q: Query, side: string, price: real, at: int): Row {
    Row(Scope(q.strategyId, q.strategyVersion, Text.Upper(q.symbol), "paper", q.accountId), side, true,
        Some(1.0), Some(1.0), Some(price), at, 0.0, Some(0.0))
  }

  /** Buy at a hundred and sell at fifty, `n` times over. */
  function LosingRun(q: Query, n: nat): seq<Row> {
    if n == 0 then []
    else LosingRun(q, n - 1) + [TradeRow(q, "BUY", 100.0, q.first)] + [TradeRow(q, "SELL", 50.0, q.first)]
  }

  lemma SelectedAppend(q: Query, rows: seq<Row>, r: Row)
    requires Selects(q, r)
    ensures Selected(q, rows + [r]) == Selected(q, rows) + [r]
  {
    assert (rows + [r])[..|rows|] == rows;
  }

  lemma CostsAppend(rows: seq<Row>, r: Row)
    requires r.filled && r.fees == 0.0 && r.shortfall == Some(0.0)
    ensures Fills(rows + [r]) == Fills(rows) + 1
    ensures SumSeq(rows + [r], FeeOf) == SumSeq(rows, FeeOf)
    ensures |Shortfalls(rows + [r])| == |Shortfalls(rows)| + 1
  {
    assert (rows + [r])[..|rows|] == rows;
  }

  lemma TradeRowSums(q: Query, rows: seq<Row>, side: string, price: real, at: int)
    requires (side == "BUY" || side == "SELL") && price > 0.0
    ensures var r := TradeRow(q, side, price, at);
            && SumSeq(rows + [r], RowCash) == SumSeq(rows, RowCash) + (if side == "BUY" then -price else price)
            && SumSeq(rows + [r], RowSigned) == SumSeq(rows, RowSigned) + (if side == "BUY" then 1.0 else -1.0)
  {
    var r := TradeRow(q, side, price, at);
    SumSeqAppend(rows, r, RowCash);
    SumSeqAppend(rows, r, RowSigned);
    assert Text.Upper("BUY") == "BUY" && Text.Upper("SELL") == "SELL";
    assert "BUY"[0] != "SELL"[0];
  }

  /** What `n` such trades come to. */
  ghost predicate Lost(q: Query, rows: seq<Row>, n: nat) {
    && Selected(q, rows) == rows && |rows| == 2 * n && Fills(rows) == 2 * n
    && SumSeq(rows, FeeOf) == 0.0 && |Shortfalls(rows)| == 2 * n
    && SumSeq(rows, RowSigned) == 0.0 && SumSeq(rows, RowCash) == -50.0 * n as real
    && PositivePrices(rows)
  }

  lemma LostAgain(q: Query, before: seq<Row>, n: nat, m: nat)
    requires q.first <= q.last && Lost(q, before, n) && m == n + 1
    ensures Lost(q, before + [TradeRow(q, "BUY", 100.0, q.first)] + [TradeRow(q, "SELL", 50.0, q.first)], m)
  {
    var bought, sold := TradeRow(q, "BUY", 100.0, q.first), TradeRow(q, "SELL", 50.0, q.first);
    SelectedAppend(q, before, bought);
    SelectedAppend(q, before + [bought], sold);
    CostsAppend(before, bought);
    CostsAppend(before + [bought], sold);
    TradeRowSums(q, before, "BUY", 100.0, q.first);
    TradeRowSums(q, before + [bought], "SELL", 50.0, q.first);
  }

  lemma NoneLost(q: Query)
    ensures Lost(q, [], 0)
  {
  }

  lemma {:induction false} LosingRunIs(q: Query, n: nat)
    requires q.first <= q.last
    ensures Lost(q, LosingRun(q, n), n)
  {
    if n == 0 {
      NoneLost(q);
    } else {
      LosingRunIs(q, n - 1);
      LostAgain(q, LosingRun(q, n - 1), n - 1, n);
    }
  }

  /** Twenty such trades: forty orders, forty fills, no fees, and a thousand lost. */
  lemma TwentyLosses(q: Query) returns (m: Figures)
    requires q.first <= q.last
    ensures Measures(q, LosingRun(q, 20), LosingRun(q, 20), m)
    ensures m.orders == 40 && m.fills == 40 && m.fees == 0.0 && m.shortfall.Some? && m.realizedTotal == -1000.0
  {
    var rows := LosingRun(q, 20);
    LosingRunIs(q, 20);
    m := Figures(|rows|, Fills(rows), SumSeq(rows, FeeOf), MeanOf(Shortfalls(rows)),
                 SumSeq(RoundTripsOf(Page(rows)), Reported));
    PageAndBeyond(rows, RowCash);
    PageAndBeyond(rows, RowSigned);
    forall r | r in Page(rows) && Participates(r) ensures r.fillPrice.value > 0.0 {
      SortByElements(rows, At, r);
    }
    FlatPaperProfit(q, rows, rows, m);
  }
}
