// From execution rows to round trips: scoping, time order and the journal's own
// net position (libs/attribution/src/attribution/roundtrips.py,
// libs/journal/src/journal/store.py).
module Archive {
  import opened Common
  import opened Sums
  import opened SeqSums
  import opened Sorting
  import opened RoundTrips
  import Text

  datatype Scope = Scope(strategyId: string, strategyVersion: string, symbol: string,
                         environment: string, accountId: string)

  /** One row of the execution record.  Absent fields are `None` or "". */
  datatype Row = Row(recorded: Scope, side: string, filled: bool, filledQty: Option<real>,
                     qty: Option<real>, fillPrice: Option<real>, recordedAt: int,
                     fees: real, shortfall: Option<real>)

  datatype ScopedTrip = ScopedTrip(scope: Scope, trip: Trip)

  function ScopeOf(r: Row): Scope { r.recorded.(symbol := Text.Upper(r.recorded.symbol)) }

  predicate Participates(r: Row) { r.filled && r.fillPrice.Some? && r.fillPrice.value != 0.0 }

  /** `filled_qty or qty or 0.0`. */
  function LegQty(r: Row): real {
    if r.filledQty.Some? && r.filledQty.value != 0.0 then r.filledQty.value
    else if r.qty.Some? then r.qty.value else 0.0
  }

  function SideOf(r: Row): Option<Side> {
    if Text.Upper(r.side) == "BUY" then Some(Buy)
    else if Text.Upper(r.side) == "SELL" then Some(Sell) else None
  }

  predicate HasLeg(r: Row) { Participates(r) && LegQty(r) > 0.0 && SideOf(r).Some? }

  function LegOf(r: Row, index: nat): Leg
    requires HasLeg(r)
  {
    Leg(index, SideOf(r).value, LegQty(r), r.fillPrice.value, r.recordedAt)
  }

  /** The fills of a scope's rows, numbered; rows without a usable quantity or side are skipped. */
  function LegsOf(rows: seq<Row>): seq<Leg> {
    if rows == [] then []
    else
      var before, r := LegsOf(rows[..|rows| - 1]), rows[|rows| - 1];
      if HasLeg(r) then before + [LegOf(r, |before|)] else before
  }

  /** The rows of one scope, in the order they were read. */
  function Members(rows: seq<Row>, k: Scope): seq<Row> {
    if rows == [] then []
    else
      var before, r := Members(rows[..|rows| - 1], k), rows[|rows| - 1];
      if Participates(r) && ScopeOf(r) == k then before + [r] else before
  }

  /** Every scope that has a participating row, in order of first appearance. */
  function Scopes(rows: seq<Row>): seq<Scope> {
    if rows == [] then []
    else
      var before, r := Scopes(rows[..|rows| - 1]), rows[|rows| - 1];
      if Participates(r) && ScopeOf(r) !in before then before + [ScopeOf(r)] else before
  }

  lemma {:induction false} LegsNumbered(rows: seq<Row>)
    ensures Numbered(LegsOf(rows))
  {
    if rows != [] {
      LegsNumbered(rows[..|rows| - 1]);
    }
  }

  lemma {:induction false} LegFromRow(rows: seq<Row>, l: Leg)
    requires l in LegsOf(rows)
    ensures exists r :: r in rows && HasLeg(r) && l == LegOf(r, l.index)
  {
    var before, r := LegsOf(rows[..|rows| - 1]), rows[|rows| - 1];
    if l in before {
      LegFromRow(rows[..|rows| - 1], l);
      var q :| q in rows[..|rows| - 1] && HasLeg(q) && l == LegOf(q, l.index);
      assert q in rows;
    } else {
      assert r in rows && l == LegOf(r, l.index);
    }
  }

  lemma {:induction false} MembersExactly(rows: seq<Row>, k: Scope, r: Row)
    ensures r in Members(rows, k) <==> r in rows && Participates(r) && ScopeOf(r) == k
  {
    if rows != [] {
      MembersExactly(rows[..|rows| - 1], k, r);
      assert r in rows <==> r in rows[..|rows| - 1] || r == rows[|rows| - 1];
    }
  }

  /** What a row is to pairing: nothing unless it filled at a price other than zero, bought or sold, and has a
      positive quantity; the filled quantity counts, and the ordered one where that is missing or zero. */
  lemma LegsOfOne(r: Row)
    ensures var qty := if r.filledQty.Some? && r.filledQty.value != 0.0 then r.filledQty.value
                       else if r.qty.Some? then r.qty.value else 0.0;
            var bought, sold := Text.Upper(r.side) == "BUY", Text.Upper(r.side) == "SELL";
            LegsOf([r]) ==
              if r.filled && r.fillPrice.Some? && r.fillPrice.value != 0.0 && qty > 0.0 && (bought || sold)
              then [Leg(0, if bought then Buy else Sell, qty, r.fillPrice.value, r.recordedAt)] else []
  {
    assert [r][..0] == [];
  }

  /** The scope of a row is its own strategy, version, environment and account, and its symbol in upper case. */
  lemma ScopeIs(r: Row)
    ensures Participates(r) ==>
              Scopes([r]) == [Scope(r.recorded.strategyId, r.recorded.strategyVersion, Text.Upper(r.recorded.symbol),
                                    r.recorded.environment, r.recorded.accountId)]
    ensures !Participates(r) ==> Scopes([r]) == []
    ensures Participates(r) <==> r.filled && r.fillPrice.Some? && r.fillPrice.value != 0.0
  {
    assert [r][..0] == [];
  }

  ghost predicate Distinct(ks: seq<Scope>) {
    forall i, j :: 0 <= i < j < |ks| ==> ks[i] != ks[j]
  }

  lemma {:induction false} ScopesDistinct(rows: seq<Row>)
    ensures Distinct(Scopes(rows))
  {
    if rows != [] {
      ScopesDistinct(rows[..|rows| - 1]);
    }
  }

  lemma {:induction false} ScopesExactly(rows: seq<Row>, k: Scope)
    ensures k in Scopes(rows) <==> Members(rows, k) != []
  {
    if rows != [] {
      ScopesExactly(rows[..|rows| - 1], k);
    }
  }

  function At(r: Row): int { r.recordedAt }

  function ExitAt(t: ScopedTrip): int { t.trip.exit.at }

  /** A scope's fills in time order. */
  function ScopeLegs(rows: seq<Row>, k: Scope): seq<Leg> { LegsOf(SortBy(Members(rows, k), At)) }

  function ScopeBook(rows: seq<Row>, k: Scope): Book { Pair(ScopeLegs(rows, k)) }

  function Tag(k: Scope, trips: seq<Trip>): (r: seq<ScopedTrip>)
    ensures |r| == |trips|
    ensures forall i :: 0 <= i < |trips| ==> r[i] == ScopedTrip(k, trips[i])
  {
    seq(|trips|, i requires 0 <= i < |trips| => ScopedTrip(k, trips[i]))
  }

  /** The tagged trips of each listed scope, scope after scope. */
  function TripsOver(tripsOf: Scope -> seq<Trip>, ks: seq<Scope>): seq<ScopedTrip> {
    if ks == [] then []
    else TripsOver(tripsOf, ks[..|ks| - 1]) + Tag(ks[|ks| - 1], tripsOf(ks[|ks| - 1]))
  }

  function ScopeTrips(rows: seq<Row>): Scope -> seq<Trip> { (k: Scope) => ScopeBook(rows, k).trips }

  /** All round trips of an archive, oldest exit first. */
  function RoundTripsOf(rows: seq<Row>): seq<ScopedTrip> {
    SortBy(TripsOver(ScopeTrips(rows), Scopes(rows)), ExitAt)
  }

  // ------------------------------------------------------------------
  // The program
  // ------------------------------------------------------------------

  ghost predicate Grouped(rows: seq<Row>, groups: map<Scope, seq<Row>>) {
    && (forall k :: k in groups <==> k in Scopes(rows))
    && (forall k :: k in groups ==> groups[k] == Members(rows, k))
  }

  function AddToGroup(groups: map<Scope, seq<Row>>, row: Row): map<Scope, seq<Row>> {
    groups[ScopeOf(row) := (if ScopeOf(row) in groups then groups[ScopeOf(row)] else []) + [row]]
  }

  lemma GroupOne(rows: seq<Row>, row: Row, groups: map<Scope, seq<Row>>)
    requires Grouped(rows, groups) && Participates(row)
    ensures Grouped(rows + [row], AddToGroup(groups, row))
    ensures Scopes(rows + [row]) == if ScopeOf(row) in groups then Scopes(rows) else Scopes(rows) + [ScopeOf(row)]
  {
    assert (rows + [row])[..|rows|] == rows;
    ScopesExactly(rows, ScopeOf(row));
  }

  lemma SkipOne(rows: seq<Row>, row: Row, groups: map<Scope, seq<Row>>)
    requires Grouped(rows, groups) && !Participates(row)
    ensures Grouped(rows + [row], groups) && Scopes(rows + [row]) == Scopes(rows)
  {
    assert (rows + [row])[..|rows|] == rows;
  }

  /** The grouping pass: a dictionary of lists that remembers the order keys arrived in. */
  method GroupRows(rows: seq<Row>) returns (groups: map<Scope, seq<Row>>, order: seq<Scope>)
    ensures order == Scopes(rows) && Grouped(rows, groups)
  {
    groups, order := map[], [];
    for i := 0 to |rows|
      invariant order == Scopes(rows[..i])
      invariant Grouped(rows[..i], groups)
    {
      var row := rows[i];
      assert rows[..i + 1] == rows[..i] + [row];
      if Participates(row) {
        GroupOne(rows[..i], row, groups);
        if ScopeOf(row) !in groups {
          order := order + [ScopeOf(row)];
        }
        groups := AddToGroup(groups, row);
      } else {
        SkipOne(rows[..i], row, groups);
      }
    }
    assert rows[..|rows|] == rows;
  }

  method PairGroup(members: seq<Row>) returns (closed: seq<Trip>)
    ensures closed == Pair(LegsOf(SortBy(members, At))).trips
  {
    var scoped := SortBy(members, At);
    LegsNumbered(scoped);
    var trips, _, _ := PairScope(LegsOf(scoped));
    closed := trips;
  }

  lemma TripsOverStep(tripsOf: Scope -> seq<Trip>, ks: seq<Scope>, j: nat)
    requires j < |ks|
    ensures TripsOver(tripsOf, ks[..j + 1]) == TripsOver(tripsOf, ks[..j]) + Tag(ks[j], tripsOf(ks[j]))
  {
    assert ks[..j + 1][..j] == ks[..j];
  }

  /** Group by scope, sort each group by time, pair it, and sort all trips by exit. */
  method PairRoundTrips(rows: seq<Row>) returns (trips: seq<ScopedTrip>)
    ensures trips == RoundTripsOf(rows)
  {
    var groups, order := GroupRows(rows);
    trips := [];
    ghost var tripsOf := ScopeTrips(rows);
    for j := 0 to |order|
      invariant trips == TripsOver(tripsOf, order[..j])
    {
      assert order[j] in groups;
      var closed := PairGroup(groups[order[j]]);
      assert closed == tripsOf(order[j]);
      TripsOverStep(tripsOf, order, j);
      trips := trips + Tag(order[j], closed);
    }
    assert order[..|order|] == order;
    trips := SortBy(trips, ExitAt);
  }

  // ------------------------------------------------------------------
  // What every archive's trips satisfy
  // ------------------------------------------------------------------
  lemma TagMember(k: Scope, trips: seq<Trip>, t: ScopedTrip)
    ensures t in Tag(k, trips) <==> t.scope == k && t.trip in trips
  {
    if t.scope == k && t.trip in trips {
      var i :| 0 <= i < |trips| && trips[i] == t.trip;
      assert Tag(k, trips)[i] == t;
    }
  }

  lemma {:induction false} TripsOverMember(tripsOf: Scope -> seq<Trip>, ks: seq<Scope>, t: ScopedTrip)
    ensures t in TripsOver(tripsOf, ks) <==> t.scope in ks && t.trip in tripsOf(t.scope)
  {
    if ks != [] {
      var before, k := ks[..|ks| - 1], ks[|ks| - 1];
      TripsOverMember(tripsOf, before, t);
      TagMember(k, tripsOf(k), t);
      assert t.scope in ks <==> t.scope in before || t.scope == k;
    }
  }

  ghost predicate LegFromScope(rows: seq<Row>, k: Scope, l: Leg) {
    exists r :: r in rows && HasLeg(r) && ScopeOf(r) == k && l == LegOf(r, l.index)
  }

  ghost predicate By(legs: seq<Leg>, time: int) {
    forall i :: 0 <= i < |legs| ==> legs[i].at <= time
  }

  lemma {:induction false} LegsBy(rows: seq<Row>, time: int)
    requires forall i :: 0 <= i < |rows| ==> At(rows[i]) <= time
    ensures By(LegsOf(rows), time)
  {
    if rows != [] {
      LegsBy(rows[..|rows| - 1], time);
    }
  }

  lemma {:induction false} LegsTimed(rows: seq<Row>)
    requires SortedBy(rows, At)
    ensures Timed(LegsOf(rows))
  {
    if rows != [] {
      var n := |rows| - 1;
      LegsTimed(rows[..n]);
      LegsBy(rows[..n], At(rows[n]));
    }
  }

  /** No trip crosses a scope, an account or an environment: both fills come from rows
      of the trip's own scope, on opposite sides, the entry not after the exit; and the
      trips are reported oldest exit first. */
  lemma TripsStayInScope(rows: seq<Row>, t: ScopedTrip)
    requires t in RoundTripsOf(rows)
    ensures LegFromScope(rows, t.scope, t.trip.entry) && LegFromScope(rows, t.scope, t.trip.exit)
    ensures t.trip.entry.side != t.trip.exit.side && t.trip.qty > 0.0
    ensures t.trip.entry.at <= t.trip.exit.at
    ensures SortedBy(RoundTripsOf(rows), ExitAt)
  {
    SortByElements(TripsOver(ScopeTrips(rows), Scopes(rows)), ExitAt, t);
    SortBySorts(TripsOver(ScopeTrips(rows), Scopes(rows)), ExitAt);
    TripsOverMember(ScopeTrips(rows), Scopes(rows), t);
    LegsNumbered(SortBy(Members(rows, t.scope), At));
    var members := Members(rows, t.scope);
    var legs := ScopeLegs(rows, t.scope);
    PairShape(legs);
    SortBySorts(members, At);
    LegsTimed(SortBy(members, At));
    assert TripOk(t.trip, legs);
    LegOrigin(rows, t.scope, t.trip.entry);
    LegOrigin(rows, t.scope, t.trip.exit);
    assert legs[t.trip.entry.index] == t.trip.entry && legs[t.trip.exit.index] == t.trip.exit;
  }

  lemma LegOrigin(rows: seq<Row>, k: Scope, l: Leg)
    requires l in ScopeLegs(rows, k)
    ensures LegFromScope(rows, k, l)
  {
    var sorted := SortBy(Members(rows, k), At);
    LegFromRow(sorted, l);
    var r :| r in sorted && HasLeg(r) && l == LegOf(r, l.index);
    SortByElements(Members(rows, k), At, r);
    MembersExactly(rows, k, r);
  }

  // ------------------------------------------------------------------
  // Totals: rows partition into scopes
  // ------------------------------------------------------------------
  function PerScope(rows: seq<Row>, f: Row -> real): Scope -> real {
    (k: Scope) => SumSeq(Members(rows, k), f)
  }

  function Filled(f: Row -> real): Row -> real {
    (r: Row) => if Participates(r) then f(r) else 0.0
  }

  lemma MembersStep(before: seq<Row>, r: Row, j: Scope)
    ensures Members(before + [r], j)
            == if Participates(r) && ScopeOf(r) == j then Members(before, j) + [r] else Members(before, j)
  {
    assert (before + [r])[..|before|] == before;
  }

  lemma PerScopeStep(before: seq<Row>, r: Row, f: Row -> real, j: Scope)
    ensures PerScope(before + [r], f)(j)
            == PerScope(before, f)(j) + if Participates(r) && ScopeOf(r) == j then f(r) else 0.0
  {
    MembersStep(before, r, j);
    SumSeqAppend(Members(before, j), r, f);
  }

  lemma ScopesStep(before: seq<Row>, r: Row)
    ensures Scopes(before + [r])
            == if Participates(r) && ScopeOf(r) !in Scopes(before) then Scopes(before) + [ScopeOf(r)] else Scopes(before)
  {
    assert (before + [r])[..|before|] == before;
  }

  /** A row adds its term to its own scope's sum and to no other. */
  ghost predicate Shifted(was: Scope -> real, now: Scope -> real, k: Scope, amount: real) {
    forall j :: now(j) == was(j) + if k == j then amount else 0.0
  }

  lemma RowShifts(before: seq<Row>, r: Row, f: Row -> real)
    ensures Shifted(PerScope(before, f), PerScope(before + [r], f), ScopeOf(r), Filled(f)(r))
  {
    forall j ensures PerScope(before + [r], f)(j) == PerScope(before, f)(j) + if ScopeOf(r) == j then Filled(f)(r) else 0.0 {
      PerScopeStep(before, r, f, j);
    }
  }

  lemma ShiftKnown(ks: seq<Scope>, was: Scope -> real, now: Scope -> real, k: Scope, amount: real)
    requires Distinct(ks) && k in ks && Shifted(was, now, k, amount)
    ensures SumSeq(ks, now) == SumSeq(ks, was) + amount
  {
    SumSeqChange(ks, was, now, k);
  }

  lemma ShiftNew(ks: seq<Scope>, was: Scope -> real, now: Scope -> real, k: Scope, amount: real)
    requires k !in ks && was(k) == 0.0 && Shifted(was, now, k, amount)
    ensures SumSeq(ks + [k], now) == SumSeq(ks, was) + amount && SumSeq(ks, now) == SumSeq(ks, was)
  {
    SumSeqEqual(ks, was, now);
    SumSeqAppend(ks, k, now);
  }

  lemma PartitionStep(before: seq<Row>, r: Row, f: Row -> real)
    ensures SumSeq(Scopes(before + [r]), PerScope(before + [r], f))
            == SumSeq(Scopes(before), PerScope(before, f)) + Filled(f)(r)
  {
    var ks, k := Scopes(before), ScopeOf(r);
    ScopesStep(before, r);
    ScopesDistinct(before);
    ScopesExactly(before, k);
    RowShifts(before, r, f);
    if k in ks {
      ShiftKnown(ks, PerScope(before, f), PerScope(before + [r], f), k, Filled(f)(r));
    } else {
      ShiftNew(ks, PerScope(before, f), PerScope(before + [r], f), k, Filled(f)(r));
    }
  }

  /** Summing scope by scope counts every participating row exactly once. */
  lemma {:induction false} ScopesPartition(rows: seq<Row>, f: Row -> real)
    ensures SumSeq(Scopes(rows), PerScope(rows, f)) == SumSeq(rows, Filled(f))
  {
    if rows != [] {
      var n := |rows| - 1;
      ScopesPartition(rows[..n], f);
      assert rows == rows[..n] + [rows[n]];
      PartitionStep(rows[..n], rows[n], f);
    }
  }

  function RowSigned(r: Row): real { if HasLeg(r) then Signed(SideOf(r).value, LegQty(r)) else 0.0 }

  function RowCash(r: Row): real {
    if HasLeg(r) then -Signed(SideOf(r).value, LegQty(r) * r.fillPrice.value) else 0.0
  }

  lemma NetAppend(legs: seq<Leg>, l: Leg)
    ensures NetQty(legs + [l]) == NetQty(legs) + LegSigned(l)
  {
    SumSeqAppend(legs, l, LegSigned);
  }

  lemma CashAppend(legs: seq<Leg>, l: Leg)
    ensures CashFlow(legs + [l]) == CashFlow(legs) + LegCash(l)
  {
    SumSeqAppend(legs, l, LegCash);
  }

  lemma LegOfRow(r: Row, index: nat)
    requires HasLeg(r)
    ensures LegSigned(LegOf(r, index)) == RowSigned(r) && LegCash(LegOf(r, index)) == RowCash(r)
  {
  }

  lemma {:induction false} LegTotals(rows: seq<Row>)
    ensures NetQty(LegsOf(rows)) == SumSeq(rows, RowSigned)
    ensures CashFlow(LegsOf(rows)) == SumSeq(rows, RowCash)
  {
    if rows != [] {
      var n := |rows| - 1;
      LegTotals(rows[..n]);
      var before := LegsOf(rows[..n]);
      if HasLeg(rows[n]) {
        NetAppend(before, LegOf(rows[n], |before|));
        CashAppend(before, LegOf(rows[n], |before|));
        LegOfRow(rows[n], |before|);
      }
    }
  }

  lemma ScopeTotals(rows: seq<Row>, k: Scope)
    ensures OpenQty(ScopeBook(rows, k).lots) == SumSeq(Members(rows, k), RowSigned)
    ensures Realised(ScopeBook(rows, k).trips) - OpenBasis(ScopeBook(rows, k).lots)
            == SumSeq(Members(rows, k), RowCash)
  {
    var members := Members(rows, k);
    LegsNumbered(SortBy(members, At));
    PairIdentity(ScopeLegs(rows, k));
    PairOpenQty(ScopeLegs(rows, k));
    LegTotals(SortBy(members, At));
    SortBySum(members, At, RowSigned);
    SortBySum(members, At, RowCash);
  }

  function TripGain(t: ScopedTrip): real { Gain(t.trip) }

  function ScopeGain(rows: seq<Row>): Scope -> real { (k: Scope) => Realised(ScopeBook(rows, k).trips) }

  function ScopeBasis(rows: seq<Row>): Scope -> real { (k: Scope) => OpenBasis(ScopeBook(rows, k).lots) }

  /** Total gain of all round trips in an archive. */
  function TotalRealised(rows: seq<Row>): real { SumSeq(RoundTripsOf(rows), TripGain) }

  /** Cost basis of everything the archive leaves open. */
  function TotalOpenBasis(rows: seq<Row>): real { SumSeq(Scopes(rows), ScopeBasis(rows)) }

  lemma {:induction false} TagSum(k: Scope, trips: seq<Trip>)
    ensures SumSeq(Tag(k, trips), TripGain) == Realised(trips)
  {
    if trips != [] {
      TagSum(k, trips[..|trips| - 1]);
      assert Tag(k, trips)[..|trips| - 1] == Tag(k, trips[..|trips| - 1]);
    }
  }

  lemma {:induction false} TripsOverSum(tripsOf: Scope -> seq<Trip>, ks: seq<Scope>, gain: Scope -> real)
    requires forall k :: k in ks ==> gain(k) == Realised(tripsOf(k))
    ensures SumSeq(TripsOver(tripsOf, ks), TripGain) == SumSeq(ks, gain)
  {
    if ks != [] {
      var n := |ks| - 1;
      TripsOverSum(tripsOf, ks[..n], gain);
      TagSum(ks[n], tripsOf(ks[n]));
      SumSeqConcat(TripsOver(tripsOf, ks[..n]), Tag(ks[n], tripsOf(ks[n])), TripGain);
    }
  }

  lemma {:induction false} GainLessBasis(rows: seq<Row>, ks: seq<Scope>)
    ensures SumSeq(ks, ScopeGain(rows)) - SumSeq(ks, ScopeBasis(rows)) == SumSeq(ks, PerScope(rows, RowCash))
  {
    if ks != [] {
      GainLessBasis(rows, ks[..|ks| - 1]);
      ScopeTotals(rows, ks[|ks| - 1]);
    }
  }

  /** The archive-wide identity: across any number of scopes, the realised total is the
      cash all fills moved plus the cost basis of every lot left open. */
  lemma ArchiveIdentity(rows: seq<Row>)
    ensures TotalRealised(rows) == SumSeq(rows, RowCash) + TotalOpenBasis(rows)
  {
    SortBySum(TripsOver(ScopeTrips(rows), Scopes(rows)), ExitAt, TripGain);
    TripsOverSum(ScopeTrips(rows), Scopes(rows), ScopeGain(rows));
    GainLessBasis(rows, Scopes(rows));
    ScopesPartition(rows, RowCash);
    SumSeqEqual(rows, Filled(RowCash), RowCash);
  }

  // ------------------------------------------------------------------
  // The journal's net position
  // ------------------------------------------------------------------
  predicate InSleeve(r: Row, strategyId: string, symbol: string, environment: string, accountId: string) {
    && r.recorded.strategyId == strategyId && r.recorded.symbol == Text.Upper(symbol)
    && r.recorded.environment == environment && r.recorded.accountId == accountId
    && r.filled
  }

  function JournalSigned(r: Row): real {
    var q := if r.filledQty.Some? then r.filledQty.value else 0.0;
    if Text.Upper(r.side) == "BUY" then q else -q
  }

  function SleeveTerm(strategyId: string, symbol: string, environment: string, accountId: string): Row -> real {
    (r: Row) => if InSleeve(r, strategyId, symbol, environment, accountId) then JournalSigned(r) else 0.0
  }

  function SideTerm(side: string, q: real): real { if Text.Upper(side) == "BUY" then q else -q }

  function SideTerms(totals: map<string, real>): string -> real {
    (side: string) => if side in totals then SideTerm(side, totals[side]) else 0.0
  }

  function AddSide(totals: map<string, real>, side: string, q: real): map<string, real> {
    totals[side := (if side in totals then totals[side] else 0.0) + q]
  }

  ghost function NetOf(totals: map<string, real>): real { SumOver(totals.Keys, SideTerms(totals)) }

  lemma GroupStep(totals: map<string, real>, side: string, q: real)
    ensures NetOf(AddSide(totals, side, q)) == NetOf(totals) + SideTerm(side, q)
  {
    var next := AddSide(totals, side, q);
    SumRemove(next.Keys, SideTerms(next), side);
    SumEqual(next.Keys - {side}, SideTerms(next), SideTerms(totals));
    if side in totals {
      assert next.Keys == totals.Keys;
      SumRemove(totals.Keys, SideTerms(totals), side);
    } else {
      assert next.Keys - {side} == totals.Keys;
    }
  }

  lemma PrefixSum(rows: seq<Row>, i: nat, f: Row -> real)
    requires i < |rows|
    ensures SumSeq(rows[..i + 1], f) == SumSeq(rows[..i], f) + f(rows[i])
  {
    assert rows[..i + 1][..i] == rows[..i];
  }

  /** `SELECT side, sum(filled_qty) ... GROUP BY side`. */
  method SideTotals(rows: seq<Row>, strategyId: string, symbol: string, environment: string, accountId: string)
    returns (totals: map<string, real>)
    ensures NetOf(totals)
            == SumSeq(rows, SleeveTerm(strategyId, symbol, environment, accountId))
  {
    totals := map[];
    ghost var term := SleeveTerm(strategyId, symbol, environment, accountId);
    for i := 0 to |rows|
      invariant NetOf(totals) == SumSeq(rows[..i], term)
    {
      var r := rows[i];
      PrefixSum(rows, i, term);
      if InSleeve(r, strategyId, symbol, environment, accountId) {
        var q := if r.filledQty.Some? then r.filledQty.value else 0.0;
        GroupStep(totals, r.side, q);
        totals := AddSide(totals, r.side, q);
      }
    }
    assert rows[..|rows|] == rows;
  }

  /** The grouped totals, then one signed pass over the groups. */
  method NetPosition(rows: seq<Row>, strategyId: string, symbol: string, environment: string, accountId: string)
    returns (net: real)
    ensures net == SumSeq(rows, SleeveTerm(strategyId, symbol, environment, accountId))
  {
    var totals := SideTotals(rows, strategyId, symbol, environment, accountId);
    net := 0.0;
    var sides := totals.Keys;
    while sides != {}
      invariant sides <= totals.Keys
      invariant net + SumOver(sides, SideTerms(totals)) == NetOf(totals)
    {
      var side :| side in sides;
      SumRemove(sides, SideTerms(totals), side);
      net := net + SideTerm(side, totals[side]);
      sides := sides - {side};
    }
  }

  // ------------------------------------------------------------------
  // Pairing's open quantity against the journal's net position
  // ------------------------------------------------------------------

  /** A sleeve: every version of one strategy on one symbol, in one environment of one account. */
  datatype SleeveKey = SleeveKey(strategyId: string, symbol: string, environment: string, accountId: string)

  predicate OfSleeve(k: Scope, s: SleeveKey) {
    && k.strategyId == s.strategyId && k.symbol == Text.Upper(s.symbol)
    && k.environment == s.environment && k.accountId == s.accountId
  }

  /** What pairing leaves open in one scope, for the sleeve's scopes. */
  function SleeveOpen(rows: seq<Row>, s: SleeveKey): Scope -> real {
    (k: Scope) => if OfSleeve(k, s) then OpenQty(ScopeBook(rows, k).lots) else 0.0
  }

  /** The signed quantity pairing leaves open, summed over the sleeve's strategy versions. */
  function OpenResidual(rows: seq<Row>, s: SleeveKey): real { SumSeq(Scopes(rows), SleeveOpen(rows, s)) }

  /** What pairing takes from one row for the sleeve. */
  function PairTerm(s: SleeveKey): Row -> real {
    (r: Row) => if Participates(r) && OfSleeve(ScopeOf(r), s) then RowSigned(r) else 0.0
  }

  /** What the journal takes from it. */
  function NetTerm(s: SleeveKey): Row -> real { SleeveTerm(s.strategyId, s.symbol, s.environment, s.accountId) }

  function NetPositionOf(rows: seq<Row>, s: SleeveKey): real { SumSeq(rows, NetTerm(s)) }

  lemma {:induction false} ZeroSum(rows: seq<Row>)
    ensures SumSeq(rows, (r: Row) => 0.0) == 0.0
  {
    if rows != [] {
      ZeroSum(rows[..|rows| - 1]);
    }
  }

  lemma ScopeResidual(rows: seq<Row>, s: SleeveKey, k: Scope)
    ensures SleeveOpen(rows, s)(k) == PerScope(rows, PairTerm(s))(k)
  {
    var members, term := Members(rows, k), PairTerm(s);
    forall r | r in members ensures Participates(r) && ScopeOf(r) == k {
      MembersExactly(rows, k, r);
    }
    if OfSleeve(k, s) {
      SumSeqEqual(members, term, RowSigned);
      ScopeTotals(rows, k);
    } else {
      SumSeqEqual(members, term, (r: Row) => 0.0);
      ZeroSum(members);
    }
  }

  /** For any rows at all: what pairing leaves open in a sleeve is the signed sum of the quantities it
      takes from the sleeve's rows. */
  lemma OpenResidualIs(rows: seq<Row>, s: SleeveKey)
    ensures OpenResidual(rows, s) == SumSeq(rows, PairTerm(s))
  {
    var term := PairTerm(s);
    forall k | k in Scopes(rows) ensures SleeveOpen(rows, s)(k) == PerScope(rows, term)(k) {
      ScopeResidual(rows, s, k);
    }
    SumSeqEqual(Scopes(rows), SleeveOpen(rows, s), PerScope(rows, term));
    ScopesPartition(rows, term);
    SumSeqEqual(rows, Filled(term), term);
  }

  /** The row is filled, in the sleeve once its symbol is in upper case. */
  predicate Concerns(r: Row, s: SleeveKey) {
    r.filled && OfSleeve(ScopeOf(r), s)
  }

  predicate NonZero(q: Option<real>) { q.Some? && q.value != 0.0 }

  /** What a row is to the journal's net position: its filled quantity, bought or else sold, if it filled in
      this sleeve under the upper-case symbol. */
  lemma NetTermIs(r: Row, s: SleeveKey)
    ensures var q := if r.filledQty.Some? then r.filledQty.value else 0.0;
            NetTerm(s)(r) ==
              if r.filled && r.recorded.strategyId == s.strategyId && r.recorded.symbol == Text.Upper(s.symbol)
                 && r.recorded.environment == s.environment && r.recorded.accountId == s.accountId
              then (if Text.Upper(r.side) == "BUY" then q else -q) else 0.0
  {
  }

  /** Pairing and the journal read the row alike.  If pairing uses it, its symbol must be stored in upper
      case and its filled quantity, not the ordered one, must be what pairing used.  If pairing passes it
      over, the journal must not count a filled quantity for it. */
  predicate ReadAlike(r: Row, s: SleeveKey) {
    Concerns(r, s) ==>
      if HasLeg(r) then r.recorded.symbol == Text.Upper(r.recorded.symbol) && NonZero(r.filledQty)
      else r.recorded.symbol == Text.Upper(r.recorded.symbol) ==> !NonZero(r.filledQty)
  }

  lemma TermsAgreeIff(r: Row, s: SleeveKey)
    ensures PairTerm(s)(r) == NetTerm(s)(r) <==> ReadAlike(r, s)
  {
    Text.UpperIdempotent(s.symbol);
  }

  function Discrepancy(s: SleeveKey): Row -> real { (r: Row) => PairTerm(s)(r) - NetTerm(s)(r) }

  /** For any rows at all the two figures differ by what the rows they read differently contribute. */
  lemma ResidualLessNetPosition(rows: seq<Row>, s: SleeveKey)
    ensures OpenResidual(rows, s) - NetPositionOf(rows, s) == SumSeq(rows, Discrepancy(s))
  {
    OpenResidualIs(rows, s);
    SumSeqAdd(rows, PairTerm(s), Discrepancy(s), NetTerm(s));
  }

  /** The signed quantity pairing leaves open in a sleeve is the position the journal reports for it,
      whenever the two read every row alike. */
  lemma OpenResidualIsNetPosition(rows: seq<Row>, s: SleeveKey)
    requires forall r :: r in rows ==> ReadAlike(r, s)
    ensures OpenResidual(rows, s) == NetPositionOf(rows, s)
  {
    OpenResidualIs(rows, s);
    forall r | r in rows ensures PairTerm(s)(r) == NetTerm(s)(r) { TermsAgreeIff(r, s); }
    SumSeqEqual(rows, PairTerm(s), NetTerm(s));
  }

  /** The two figures agree after every row of the archive. */
  ghost predicate AgreeThroughout(rows: seq<Row>, s: SleeveKey) {
    forall n :: 0 <= n <= |rows| ==> OpenResidual(rows[..n], s) == NetPositionOf(rows[..n], s)
  }

  lemma AgreeingRow(rows: seq<Row>, s: SleeveKey, n: nat)
    requires n < |rows| && AgreeThroughout(rows, s)
    ensures ReadAlike(rows[n], s)
  {
    OpenResidualIs(rows[..n], s);
    OpenResidualIs(rows[..n + 1], s);
    PrefixSum(rows, n, PairTerm(s));
    PrefixSum(rows, n, NetTerm(s));
    TermsAgreeIff(rows[n], s);
  }

  /** They keep agreeing as the archive grows, row by row, exactly when every row is read alike. */
  lemma AgreeThroughoutIff(rows: seq<Row>, s: SleeveKey)
    ensures AgreeThroughout(rows, s) <==> forall r :: r in rows ==> ReadAlike(r, s)
  {
    if AgreeThroughout(rows, s) {
      forall r | r in rows ensures ReadAlike(r, s) {
        var n :| 0 <= n < |rows| && rows[n] == r;
        AgreeingRow(rows, s, n);
      }
    }
    if forall r :: r in rows ==> ReadAlike(r, s) {
      forall n | 0 <= n <= |rows| ensures OpenResidual(rows[..n], s) == NetPositionOf(rows[..n], s) {
        OpenResidualIsNetPosition(rows[..n], s);
      }
    }
  }

  // --- rows the journal can write -------------------------------------------

  /** `record_execution`: an order is filled when it has a positive price, and an unknown filled quantity
      defaults to the ordered one, or to zero if nothing filled. */
  function Written(scope: Scope, side: string, qty: Option<real>, filledQty: Option<real>,
                   fillPrice: Option<real>, at: int, fees: real, shortfall: Option<real>): (r: Row)
  {
    var filled := fillPrice.Some? && fillPrice.value > 0.0;
    var ordered := if qty.Some? then qty.value else 0.0;
    var done := if filledQty.Some? then filledQty.value else if filled then ordered else 0.0;
    Row(scope.(symbol := Text.Upper(scope.symbol)), Text.Upper(side), filled, Some(done), Some(ordered), fillPrice, at,
        fees, if filled then shortfall else None)
  }

  /** Such a row is read alike exactly when it is unfilled, or the filled quantity is positive on a known
      side, or it is zero and pairing finds no ordered quantity to use instead. */
  lemma WrittenReadAlikeIff(r: Row, s: SleeveKey, scope: Scope, side: string, qty: Option<real>,
                            filledQty: Option<real>, fillPrice: Option<real>, at: int, fees: real, shortfall: Option<real>)
    requires r == Written(scope, side, qty, filledQty, fillPrice, at, fees, shortfall) && Concerns(r, s)
    ensures ReadAlike(r, s) <==>
              || (r.filledQty.value > 0.0 && SideOf(r).Some?)
              || (r.filledQty.value == 0.0 && !(r.qty.value > 0.0 && SideOf(r).Some?))
  {
    Text.UpperIdempotent(scope.symbol);
    Text.UpperIdempotent(side);
  }

  lemma UnfilledTerms(r: Row, s: SleeveKey)
    requires Concerns(r, s) && Participates(r) && Text.Upper(r.side) == "BUY"
    requires r.filledQty == Some(0.0) && r.qty.Some? && r.qty.value > 0.0
    ensures PairTerm(s)(r) == r.qty.value && NetTerm(s)(r) == 0.0
  {
  }

  /** A filled order of ten recorded with nothing filled: pairing opens ten, the journal reports zero. */
  lemma UnfilledQuantityDiverges(scope: Scope, at: int)
    ensures var rows := [Written(scope, "BUY", Some(10.0), Some(0.0), Some(1.0), at, 0.0, None)];
            var s := SleeveKey(scope.strategyId, scope.symbol, scope.environment, scope.accountId);
            OpenResidual(rows, s) == 10.0 && NetPositionOf(rows, s) == 0.0
  {
    var row := Written(scope, "BUY", Some(10.0), Some(0.0), Some(1.0), at, 0.0, None);
    var s := SleeveKey(scope.strategyId, scope.symbol, scope.environment, scope.accountId);
    Text.UpperIdempotent("BUY");
    assert Text.Upper("BUY") == "BUY";
    Text.UpperIdempotent(scope.symbol);
    UnfilledTerms(row, s);
    OpenResidualIs([row], s);
    SumSeqSingle(row, PairTerm(s));
    SumSeqSingle(row, NetTerm(s));
  }
}
