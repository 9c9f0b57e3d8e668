// The two P&L ledgers side by side: FIFO round trips against the average-cost
// broker, for the same fills.
module Ledgers {
  import opened Common
  import opened Sums
  import opened SeqSums
  import opened Sorting
  import opened RoundTrips
  import opened Archive
  import opened PaperLedger
  import opened PaperBrokers
  import Text

  /** The execution row a broker fill is journalled as, for one strategy in one account. */
  function JournalRow(o: Order, sleeve: Scope, at: int): Row {
    Row(sleeve.(symbol := o.symbol), if o.side == Buy then "BUY" else "SELL", true,
        Some(o.qty), Some(o.qty), Some(o.price), at, 0.0, None)
  }

  /** An archive holding exactly the broker's fills, at whatever times. */
  ghost predicate Mirrors(rows: seq<Row>, orders: seq<Order>, sleeve: Scope) {
    && |rows| == |orders|
    && (forall i :: 0 <= i < |rows| ==> rows[i] == JournalRow(orders[i], sleeve, rows[i].recordedAt))
  }

  ghost predicate Good(o: Order) { o.qty > 0.0 && o.price > 0.0 && o.symbol == Text.Upper(o.symbol) }

  ghost predicate GoodHistory(orders: seq<Order>) { forall i :: 0 <= i < |orders| ==> Good(orders[i]) }

  lemma SideLiterals()
    ensures Text.Upper("BUY") == "BUY" && Text.Upper("SELL") == "SELL"
  {
  }

  lemma JournalRowLeg(o: Order, sleeve: Scope, at: int)
    requires Good(o)
    ensures var r := JournalRow(o, sleeve, at);
            && HasLeg(r) && SideOf(r) == Some(o.side) && LegQty(r) == o.qty
            && ScopeOf(r) == sleeve.(symbol := o.symbol)
            && RowSigned(r) == Signed(o.side, o.qty)
            && RowCash(r) == OrderCash(o)
  {
    SideLiterals();
  }

  lemma MirrorPrefix(rows: seq<Row>, orders: seq<Order>, sleeve: Scope)
    requires Mirrors(rows, orders, sleeve) && GoodHistory(orders) && rows != []
    ensures Mirrors(rows[..|rows| - 1], orders[..|orders| - 1], sleeve) && GoodHistory(orders[..|orders| - 1])
  {
  }

  lemma {:induction false} SameCash(rows: seq<Row>, orders: seq<Order>, sleeve: Scope)
    requires Mirrors(rows, orders, sleeve) && GoodHistory(orders)
    ensures SumSeq(rows, RowCash) == SumSeq(orders, OrderCash)
  {
    if rows != [] {
      MirrorPrefix(rows, orders, sleeve);
      SameCash(rows[..|rows| - 1], orders[..|orders| - 1], sleeve);
      JournalRowLeg(orders[|rows| - 1], sleeve, rows[|rows| - 1].recordedAt);
    }
  }

  lemma {:induction false} ScopeNet(rows: seq<Row>, orders: seq<Order>, sleeve: Scope, symbol: string)
    requires Mirrors(rows, orders, sleeve) && GoodHistory(orders)
    ensures SumSeq(Members(rows, sleeve.(symbol := symbol)), RowSigned) == SumSeq(orders, SignedFor(symbol))
  {
    if rows != [] {
      var n := |rows| - 1;
      var k := sleeve.(symbol := symbol);
      MirrorPrefix(rows, orders, sleeve);
      ScopeNet(rows[..n], orders[..n], sleeve, symbol);
      JournalRowLeg(orders[n], sleeve, rows[n].recordedAt);
      assert rows == rows[..n] + [rows[n]];
      PerScopeStep(rows[..n], rows[n], RowSigned, k);
      assert PerScope(rows, RowSigned)(k) == PerScope(rows[..n], RowSigned)(k) + SignedFor(symbol)(orders[n]);
    }
  }

  lemma {:induction false} ScopeOfMirror(rows: seq<Row>, orders: seq<Order>, sleeve: Scope, k: Scope)
    requires Mirrors(rows, orders, sleeve) && GoodHistory(orders) && k in Scopes(rows)
    ensures k == sleeve.(symbol := k.symbol)
  {
    var n := |rows| - 1;
    MirrorPrefix(rows, orders, sleeve);
    JournalRowLeg(orders[n], sleeve, rows[n].recordedAt);
    if k in Scopes(rows[..n]) {
      ScopeOfMirror(rows[..n], orders[..n], sleeve, k);
    }
  }

  /** Away from flat: the two realised figures differ by exactly the difference between
      the cost bases the two methods still carry. */
  lemma LedgersDifferByOpenBasis(start: real, rows: seq<Row>, orders: seq<Order>, sleeve: Scope)
    requires Mirrors(rows, orders, sleeve) && GoodHistory(orders)
    ensures Sized(orders)
    ensures TotalRealised(rows) - Replay(start, orders).realized
            == TotalOpenBasis(rows) - Basis(Replay(start, orders))
  {
    ArchiveIdentity(rows);
    LedgerIdentity(start, orders);
    ReplayTotals(start, orders, "");
    SameCash(rows, orders, sleeve);
  }

  lemma FlatScope(start: real, rows: seq<Row>, orders: seq<Order>, sleeve: Scope, k: Scope)
    requires Mirrors(rows, orders, sleeve) && GoodHistory(orders) && k in Scopes(rows)
    requires Sized(orders) && Replay(start, orders).positions == map[]
    ensures ScopeBook(rows, k).lots == []
  {
    ScopeOfMirror(rows, orders, sleeve, k);
    ScopeNet(rows, orders, sleeve, k.symbol);
    ReplayTotals(start, orders, k.symbol);
    ScopeTotals(rows, k);
    LegsNumbered(SortBy(Members(rows, k), At));
    PairOpenQty(ScopeLegs(rows, k));
    FlatMeansEmpty(ScopeLegs(rows, k));
  }

  lemma {:induction false} NoOpenBasis(rows: seq<Row>, ks: seq<Scope>)
    requires forall k :: k in ks ==> ScopeBook(rows, k).lots == []
    ensures SumSeq(ks, ScopeBasis(rows)) == 0.0
  {
    if ks != [] {
      NoOpenBasis(rows, ks[..|ks| - 1]);
      assert ScopeBook(rows, ks[|ks| - 1]).lots == [];
    }
  }

  /** Whenever the book is flat, FIFO round trips and the average-cost broker report the
      same realised P&L, for every history of fills over any number of symbols. */
  lemma LedgersAgreeWhenFlat(start: real, rows: seq<Row>, orders: seq<Order>, sleeve: Scope)
    requires Mirrors(rows, orders, sleeve) && GoodHistory(orders)
    ensures Sized(orders)
    ensures Replay(start, orders).positions == map[] ==> TotalRealised(rows) == Replay(start, orders).realized
  {
    LedgersDifferByOpenBasis(start, rows, orders, sleeve);
    var l := Replay(start, orders);
    if l.positions == map[] {
      forall k | k in Scopes(rows) ensures ScopeBook(rows, k).lots == [] {
        FlatScope(start, rows, orders, sleeve, k);
      }
      NoOpenBasis(rows, Scopes(rows));
      assert l.positions.Keys == {};
    }
  }

  /** The same for a broker as it stands after any sequence of orders and closes: against an archive of
      its own order history, the trips' total and its realised P&L differ by the open bases, and by
      nothing once it holds nothing. */
  lemma BrokerAgreesWithTrips(b: PaperBroker, rows: seq<Row>, sleeve: Scope)
    requires b.Valid() && 0.0 <= b.slippageBps < 10000.0 && Mirrors(rows, b.orders, sleeve)
    ensures TotalRealised(rows) - b.realizedPnl == TotalOpenBasis(rows) - Basis(b.State())
    ensures b.positions == map[] ==> TotalRealised(rows) == b.realizedPnl
  {
    assert GoodHistory(b.orders);
    LedgersDifferByOpenBasis(b.startingCash, rows, b.orders, sleeve);
    LedgersAgreeWhenFlat(b.startingCash, rows, b.orders, sleeve);
  }

  /** The figure the trips report is the one totalled above: every trip of such an archive
      has a realised result and it is the gain counted by `TotalRealised`. */
  lemma TripsReportTheirGain(rows: seq<Row>, orders: seq<Order>, sleeve: Scope, t: ScopedTrip)
    requires Mirrors(rows, orders, sleeve) && GoodHistory(orders) && t in RoundTripsOf(rows)
    ensures t.trip.Realized().Some? && t.trip.Realized().value == TripGain(t)
  {
    TripsStayInScope(rows, t);
    PositivePrice(rows, orders, sleeve, t.scope, t.trip.entry);
    PositivePrice(rows, orders, sleeve, t.scope, t.trip.exit);
    GainIsRealized(t.trip);
  }

  lemma PositivePrice(rows: seq<Row>, orders: seq<Order>, sleeve: Scope, k: Scope, l: Leg)
    requires Mirrors(rows, orders, sleeve) && GoodHistory(orders) && LegFromScope(rows, k, l)
    ensures l.Usable()
  {
    var r :| r in rows && HasLeg(r) && ScopeOf(r) == k && l == LegOf(r, l.index);
    var i :| 0 <= i < |rows| && rows[i] == r;
    assert Good(orders[i]);
  }
}
