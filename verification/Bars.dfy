// The bitemporal bar archive (libs/journal/src/journal/store.py).
//
// A payload hash identifies a bar's values, so equal values stand for equal hashes.
module Bars {
  import opened Common
  import opened Sorting
  import Text

  datatype Values = Values(open: real, high: real, low: real, close: real, volume: real)

  /** A provider's bar; a missing market timestamp or unreadable figures are `None`. */
  datatype Bar = Bar(timestamp: Option<int>, values: Option<Values>)

  datatype Observation = Observation(symbol: string, timeframe: string, barTs: int, values: Values,
                                     source: string, observedAt: int, revision: nat)

  predicate SameBar(a: Observation, b: Observation) {
    a.symbol == b.symbol && a.timeframe == b.timeframe && a.barTs == b.barTs
  }

  /** The table's unique key: the bar and its payload. */
  predicate SameKey(a: Observation, b: Observation) { SameBar(a, b) && a.values == b.values }

  predicate Stored(table: seq<Observation>, row: Observation) {
    exists i :: 0 <= i < |table| && SameKey(table[i], row)
  }

  function Insert(table: seq<Observation>, row: Observation): seq<Observation> {
    if Stored(table, row) then table else table + [row]
  }

  /** Insert rows one after another, skipping those already present. */
  function InsertAll(table: seq<Observation>, rows: seq<Observation>): seq<Observation> {
    if rows == [] then table else Insert(InsertAll(table, rows[..|rows| - 1]), rows[|rows| - 1])
  }

  function Revision(table: seq<Observation>, symbol: string, timeframe: string, barTs: int): nat {
    if table == [] then 0
    else
      var o := table[|table| - 1];
      Revision(table[..|table| - 1], symbol, timeframe, barTs)
      + if o.symbol == symbol && o.timeframe == timeframe && o.barTs == barTs then 1 else 0
  }

  predicate Archivable(b: Bar) { b.timestamp.Some? && b.values.Some? }

  function RowOf(table: seq<Observation>, symbol: string, timeframe: string, source: string, now: int, b: Bar): Observation
    requires Archivable(b)
  {
    Observation(Text.Upper(symbol), timeframe, b.timestamp.value, b.values.value, source, now,
                Revision(table, Text.Upper(symbol), timeframe, b.timestamp.value))
  }

  /** The rows a fetch offers: a bar without a market time or with unreadable figures is left out. */
  function RowsOf(table: seq<Observation>, symbol: string, timeframe: string, source: string, now: int, bars: seq<Bar>)
    : seq<Observation>
  {
    if bars == [] then []
    else
      var before, b := RowsOf(table, symbol, timeframe, source, now, bars[..|bars| - 1]), bars[|bars| - 1];
      if Archivable(b) then before + [RowOf(table, symbol, timeframe, source, now, b)] else before
  }

  // ------------------------------------------------------------------
  // What was known at a moment
  // ------------------------------------------------------------------
  predicate Visible(o: Observation, symbol: string, timeframe: string, cutoff: int) {
    o.symbol == Text.Upper(symbol) && o.timeframe == timeframe && o.observedAt <= cutoff
  }

  /** `o` is the newest stored observation of its bar as of the cutoff. */
  ghost predicate Newest(table: seq<Observation>, symbol: string, timeframe: string, cutoff: int, o: Observation) {
    && o in table && Visible(o, symbol, timeframe, cutoff)
    && forall p :: p in table && Visible(p, symbol, timeframe, cutoff) && p.barTs == o.barTs ==> p.observedAt <= o.observedAt
  }

  ghost predicate Ascending(s: seq<Observation>) { forall i, j :: 0 <= i < j < |s| ==> s[i].barTs < s[j].barTs }

  ghost predicate Covers(s: seq<Observation>, ts: int) { exists i :: 0 <= i < |s| && s[i].barTs == ts }

  /** The whole series as known at the cutoff: one newest observation per market timestamp, in order. */
  ghost predicate IsSeries(table: seq<Observation>, symbol: string, timeframe: string, cutoff: int, s: seq<Observation>) {
    && Ascending(s)
    && (forall i :: 0 <= i < |s| ==> Newest(table, symbol, timeframe, cutoff, s[i]))
    && (forall p :: p in table && Visible(p, symbol, timeframe, cutoff) ==> Covers(s, p.barTs))
  }

  /** `s[-limit:]`. */
  function Tail<T>(s: seq<T>, limit: int): seq<T> {
    if limit > 0 then (if limit >= |s| then s else s[|s| - limit..])
    else if -limit <= |s| then s[-limit..] else []
  }

  /** A positive limit keeps the latest bars; zero keeps everything. */
  lemma TailKeeps<T>(s: seq<T>, limit: int)
    ensures limit >= 1 ==> |Tail(s, limit)| == (if limit <= |s| then limit else |s|) && Tail(s, limit) == s[|s| - |Tail(s, limit)|..]
    ensures Tail(s, 0) == s
  {
  }

  // ------------------------------------------------------------------
  // The program
  // ------------------------------------------------------------------
  function ByTimeDesc(o: Observation): int { -o.barTs }

  function BySeenDesc(o: Observation): int { -o.observedAt }

  function ByTime(o: Observation): int { o.barTs }

  /** `latest` holds, for every timestamp of `rows`, one of its rows that none is newer than. */
  ghost predicate Summarises(latest: map<int, Observation>, rows: seq<Observation>) {
    && (forall t :: t in latest ==> latest[t] in rows && latest[t].barTs == t)
    && (forall p :: p in rows ==> p.barTs in latest && p.observedAt <= latest[p.barTs].observedAt)
  }

  /** `order` lists the keys of `latest`, each once. */
  ghost predicate Lists(order: seq<int>, latest: map<int, Observation>) {
    && (forall i, j :: 0 <= i < j < |order| ==> order[i] != order[j])
    && (forall i :: 0 <= i < |order| ==> order[i] in latest)
    && (forall t :: t in latest ==> t in order)
  }

  ghost predicate NewestFirst(rows: seq<Observation>) {
    forall i, j :: 0 <= i < j < |rows| && rows[i].barTs == rows[j].barTs ==> rows[i].observedAt >= rows[j].observedAt
  }

  lemma SummaryStep(latest: map<int, Observation>, rows: seq<Observation>, row: Observation)
    requires Summarises(latest, rows)
    requires forall o :: o in rows && o.barTs == row.barTs ==> row.observedAt <= o.observedAt
    ensures Summarises(if row.barTs in latest then latest else latest[row.barTs := row], rows + [row])
  {
    assert forall p :: p in rows + [row] <==> p in rows || p == row;
  }

  /** Keep the first row seen for each timestamp; rows arrive newest first. */
  method FirstPerTimestamp(rows: seq<Observation>) returns (latest: map<int, Observation>, order: seq<int>)
    requires NewestFirst(rows)
    ensures Summarises(latest, rows) && Lists(order, latest)
  {
    latest, order := map[], [];
    for i := 0 to |rows|
      invariant Summarises(latest, rows[..i])
      invariant Lists(order, latest)
    {
      var row := rows[i];
      assert rows[..i + 1] == rows[..i] + [row];
      SummaryStep(latest, rows[..i], row);
      if row.barTs !in latest {
        latest := latest[row.barTs := row];
        order := order + [row.barTs];
      }
    }
    assert rows[..|rows|] == rows;
  }

  function Pick(latest: map<int, Observation>, order: seq<int>): (values: seq<Observation>)
    requires forall i :: 0 <= i < |order| ==> order[i] in latest
    ensures |values| == |order| && forall i :: 0 <= i < |order| ==> values[i] == latest[order[i]]
  {
    seq(|order|, i requires 0 <= i < |order| => latest[order[i]])
  }

  /** `WHERE symbol, timeframe, observed_at <= cutoff ORDER BY bar_ts DESC, observed_at DESC`. */
  method Query(table: seq<Observation>, symbol: string, timeframe: string, cutoff: int) returns (rows: seq<Observation>)
    ensures forall o :: o in rows <==> o in table && Visible(o, symbol, timeframe, cutoff)
    ensures NewestFirst(rows)
  {
    rows := [];
    for i := 0 to |table|
      invariant forall o :: o in rows <==> o in table[..i] && Visible(o, symbol, timeframe, cutoff)
    {
      assert table[..i + 1] == table[..i] + [table[i]];
      if Visible(table[i], symbol, timeframe, cutoff) {
        rows := rows + [table[i]];
      }
    }
    assert table[..|table|] == table;
    var seen := SortBy(rows, BySeenDesc);
    SortBySorts(rows, BySeenDesc);
    forall o ensures o in seen <==> o in rows { SortByElements(rows, BySeenDesc, o); }
    var ordered := StableByTime(seen);
    rows := ordered;
  }

  /** Sorting rows that are already newest-first by timestamp keeps them newest-first per timestamp. */
  method StableByTime(rows: seq<Observation>) returns (ordered: seq<Observation>)
    requires SortedBy(rows, BySeenDesc)
    ensures forall o :: o in ordered <==> o in rows
    ensures NewestFirst(ordered)
  {
    ordered := SortBy(rows, ByTimeDesc);
    StableSort(rows);
    forall o ensures o in ordered <==> o in rows { SortByElements(rows, ByTimeDesc, o); }
  }

  lemma AppendNewestFirst(s: seq<Observation>, x: Observation)
    requires NewestFirst(s) && forall o :: o in s && o.barTs == x.barTs ==> o.observedAt >= x.observedAt
    ensures NewestFirst(s + [x])
  {
  }

  lemma {:induction false} InsertMembers(s: seq<Observation>, x: Observation, o: Observation)
    ensures o in Sorting.Insert(s, x, ByTimeDesc) <==> o in s || o == x
  {
    if s != [] {
      InsertMembers(s[..|s| - 1], x, o);
      assert o in s <==> o in s[..|s| - 1] || o == s[|s| - 1];
    }
  }

  lemma {:induction false} InsertLast(s: seq<Observation>, x: Observation)
    requires NewestFirst(s) && forall o :: o in s ==> o.observedAt >= x.observedAt
    ensures NewestFirst(Sorting.Insert(s, x, ByTimeDesc))
  {
    if s == [] || ByTimeDesc(s[|s| - 1]) <= ByTimeDesc(x) {
      AppendNewestFirst(s, x);
    } else {
      var n := |s| - 1;
      InsertLast(s[..n], x);
      var r := Sorting.Insert(s[..n], x, ByTimeDesc);
      forall o | o in r && o.barTs == s[n].barTs ensures o.observedAt >= s[n].observedAt {
        InsertMembers(s[..n], x, o);
      }
      AppendNewestFirst(r, s[n]);
    }
  }

  lemma {:induction false} StableSort(rows: seq<Observation>)
    requires SortedBy(rows, BySeenDesc)
    ensures NewestFirst(SortBy(rows, ByTimeDesc))
  {
    if rows != [] {
      var n := |rows| - 1;
      StableSort(rows[..n]);
      forall o | o in SortBy(rows[..n], ByTimeDesc) ensures o.observedAt >= rows[n].observedAt {
        SortByElements(rows[..n], ByTimeDesc, o);
        var i :| 0 <= i < n && rows[i] == o;
        assert BySeenDesc(rows[i]) <= BySeenDesc(rows[n]);
      }
      InsertLast(SortBy(rows[..n], ByTimeDesc), rows[n]);
    }
  }

  lemma SortedDistinct(latest: seq<Observation>)
    requires forall i, j :: 0 <= i < j < |latest| ==> latest[i].barTs != latest[j].barTs
    ensures Ascending(SortBy(latest, ByTime))
  {
    var s := SortBy(latest, ByTime);
    SortBySorts(latest, ByTime);
    forall i, j | 0 <= i < j < |s| ensures s[i].barTs < s[j].barTs {
      assert ByTime(s[i]) <= ByTime(s[j]);
      if s[i].barTs == s[j].barTs {
        DistinctInSort(latest, s, i, j);
      }
    }
  }

  lemma CountTwice(s: seq<Observation>, i: nat, j: nat)
    requires i < j < |s| && s[i] == s[j]
    ensures multiset(s)[s[i]] >= 2
  {
    assert s == s[..j] + s[j..];
    assert s[i] in s[..j] && s[i] in s[j..] by { assert s[..j][i] == s[i] && s[j..][0] == s[i]; }
  }

  /** Equal keys at two places of a permutation come from two places of the original. */
  lemma DistinctInSort(a: seq<Observation>, s: seq<Observation>, i: nat, j: nat)
    requires multiset(a) == multiset(s) && i < j < |s| && s[i].barTs == s[j].barTs
    ensures exists p, q :: 0 <= p < q < |a| && a[p].barTs == a[q].barTs
  {
    if s[i] == s[j] {
      CountTwice(s, i, j);
      TwoPlaces(a, s[i]);
    } else {
      assert s[i] in multiset(a) && s[j] in multiset(a);
      var p :| 0 <= p < |a| && a[p] == s[i];
      var q :| 0 <= q < |a| && a[q] == s[j];
      if p < q {
        assert a[p].barTs == a[q].barTs;
      } else {
        assert a[q].barTs == a[p].barTs;
      }
    }
  }

  lemma {:induction false} TwoPlaces(a: seq<Observation>, x: Observation)
    requires multiset(a)[x] >= 2
    ensures exists p, q :: 0 <= p < q < |a| && a[p] == x && a[q] == x
  {
    var n := |a| - 1;
    assert a == a[..n] + [a[n]];
    if a[n] == x {
      assert x in multiset(a[..n]);
      var p :| 0 <= p < n && a[..n][p] == x;
      assert a[p] == x && a[n] == x;
    } else {
      TwoPlaces(a[..n], x);
      var p, q :| 0 <= p < q < n && a[..n][p] == x && a[..n][q] == x;
      assert a[p] == x && a[q] == x;
    }
  }

  class BarArchive {
    var table: seq<Observation>

    constructor ()
      ensures table == []
    {
      table := [];
    }

    /** Archive a fetch at `now`; returns the rows actually added. */
    method RecordBars(symbol: string, timeframe: string, bars: seq<Bar>, source: string, now: int) returns (written: int)
      modifies this
      ensures table == InsertAll(old(table), RowsOf(old(table), symbol, timeframe, source, now, bars))
      ensures written == |table| - |old(table)|
    {
      var rows: seq<Observation> := [];
      for i := 0 to |bars|
        invariant rows == RowsOf(table, symbol, timeframe, source, now, bars[..i])
      {
        assert bars[..i + 1][..i] == bars[..i];
        if Archivable(bars[i]) {
          rows := rows + [RowOf(table, symbol, timeframe, source, now, bars[i])];
        }
      }
      assert bars[..|bars|] == bars;
      written := 0;
      ghost var before := table;
      for i := 0 to |rows|
        invariant table == InsertAll(before, rows[..i])
        invariant written == |table| - |before|
      {
        assert rows[..i + 1][..i] == rows[..i];
        if !Stored(table, rows[i]) {
          table := table + [rows[i]];
          written := written + 1;
        }
      }
      assert rows[..|rows|] == rows;
    }

    /** What was known at `cutoff`, and nothing learned since. */
    method BarsAsOf(symbol: string, timeframe: string, cutoff: int, limit: int)
      returns (series: seq<Observation>)
      ensures exists whole :: IsSeries(table, symbol, timeframe, cutoff, whole) && series == Tail(whole, limit)
    {
      var rows := Query(table, symbol, timeframe, cutoff);
      var latest, order := FirstPerTimestamp(rows);
      var sorted := SortBy(Pick(latest, order), ByTime);
      SeriesFromSummary(table, symbol, timeframe, cutoff, rows, latest, order);
      series := Tail(sorted, limit);
    }
  }

  lemma PickIsTheMap(latest: map<int, Observation>, order: seq<int>, rows: seq<Observation>, o: Observation)
    requires Summarises(latest, rows) && Lists(order, latest)
    ensures o in SortBy(Pick(latest, order), ByTime) <==> o.barTs in latest && latest[o.barTs] == o
  {
    var values := Pick(latest, order);
    SortByElements(values, ByTime, o);
    if o.barTs in latest && latest[o.barTs] == o {
      var i :| 0 <= i < |order| && order[i] == o.barTs;
      assert values[i] == o;
    }
  }

  lemma SeriesFromSummary(table: seq<Observation>, symbol: string, timeframe: string, cutoff: int,
                          rows: seq<Observation>, latest: map<int, Observation>, order: seq<int>)
    requires forall o :: o in rows <==> o in table && Visible(o, symbol, timeframe, cutoff)
    requires Summarises(latest, rows) && Lists(order, latest)
    ensures IsSeries(table, symbol, timeframe, cutoff, SortBy(Pick(latest, order), ByTime))
  {
    var s := SortBy(Pick(latest, order), ByTime);
    SortedDistinct(Pick(latest, order));
    forall i | 0 <= i < |s| ensures Newest(table, symbol, timeframe, cutoff, s[i]) {
      PickIsTheMap(latest, order, rows, s[i]);
    }
    forall p | p in table && Visible(p, symbol, timeframe, cutoff) ensures Covers(s, p.barTs) {
      assert p in rows;
      PickIsTheMap(latest, order, rows, latest[p.barTs]);
      assert latest[p.barTs] in s;
    }
  }

  // ------------------------------------------------------------------
  // What the archive promises
  // ------------------------------------------------------------------

  function Times(s: seq<Observation>): (ts: seq<int>)
    ensures |ts| == |s| && forall i :: 0 <= i < |s| ==> ts[i] == s[i].barTs
  {
    seq(|s|, i requires 0 <= i < |s| => s[i].barTs)
  }

  ghost predicate Increasing(ts: seq<int>) { forall i, j :: 0 <= i < j < |ts| ==> ts[i] < ts[j] }

  /** Two increasing sequences with the same elements are the same sequence. */
  lemma {:induction false} IncreasingUnique(a: seq<int>, b: seq<int>)
    requires Increasing(a) && Increasing(b) && forall t :: t in a <==> t in b
    ensures a == b
  {
    assert b != [] ==> b[0] in b;
    if a != [] {
      assert a[0] in a && b != [];
      assert a[0] == b[0];
      forall t ensures t in a[1..] <==> t in b[1..] {
        assert t in a <==> t == a[0] || t in a[1..];
        assert t in b <==> t == b[0] || t in b[1..];
      }
      IncreasingUnique(a[1..], b[1..]);
    }
  }

  lemma TimesAreVisible(table: seq<Observation>, symbol: string, timeframe: string, cutoff: int, s: seq<Observation>, t: int)
    requires IsSeries(table, symbol, timeframe, cutoff, s)
    ensures t in Times(s) <==> exists p :: p in table && Visible(p, symbol, timeframe, cutoff) && p.barTs == t
  {
    if t in Times(s) {
      var i :| 0 <= i < |s| && Times(s)[i] == t;
      assert Newest(table, symbol, timeframe, cutoff, s[i]);
    }
    if exists p :: p in table && Visible(p, symbol, timeframe, cutoff) && p.barTs == t {
      var p :| p in table && Visible(p, symbol, timeframe, cutoff) && p.barTs == t;
      assert Covers(s, p.barTs);
      var i :| 0 <= i < |s| && s[i].barTs == t;
      assert Times(s)[i] == t;
    }
  }

  /** A series is determined by the stored observations: two answers to the same query have the same
      timestamps, each observed at the same moment, and are equal when no two observations of one bar
      were stored at the very same moment. */
  lemma SeriesUnique(table: seq<Observation>, symbol: string, timeframe: string, cutoff: int,
                     a: seq<Observation>, b: seq<Observation>)
    requires IsSeries(table, symbol, timeframe, cutoff, a) && IsSeries(table, symbol, timeframe, cutoff, b)
    ensures |a| == |b|
    ensures forall i :: 0 <= i < |a| ==> a[i].barTs == b[i].barTs && a[i].observedAt == b[i].observedAt
    ensures NoTies(table) ==> a == b
  {
    forall t ensures t in Times(a) <==> t in Times(b) {
      TimesAreVisible(table, symbol, timeframe, cutoff, a, t);
      TimesAreVisible(table, symbol, timeframe, cutoff, b, t);
    }
    IncreasingUnique(Times(a), Times(b));
    forall i | 0 <= i < |a| ensures a[i].barTs == b[i].barTs && a[i].observedAt == b[i].observedAt {
      assert Times(a)[i] == Times(b)[i];
      assert Newest(table, symbol, timeframe, cutoff, a[i]) && Newest(table, symbol, timeframe, cutoff, b[i]);
    }
  }

  /** Of the observations that are newest for their bar, no two are of one bar. */
  ghost predicate NoTieOnTop(table: seq<Observation>, symbol: string, timeframe: string, cutoff: int) {
    forall o, p :: (Newest(table, symbol, timeframe, cutoff, o) && Newest(table, symbol, timeframe, cutoff, p)
                    && o.barTs == p.barTs) ==> o == p
  }

  /** Putting another newest observation of the same bar in its place gives another answer. */
  lemma Swapped(table: seq<Observation>, symbol: string, timeframe: string, cutoff: int, a: seq<Observation>,
                i: nat, o: Observation)
    requires IsSeries(table, symbol, timeframe, cutoff, a) && i < |a|
    requires Newest(table, symbol, timeframe, cutoff, o) && o.barTs == a[i].barTs
    ensures IsSeries(table, symbol, timeframe, cutoff, a[i := o])
  {
    var b := a[i := o];
    forall p | p in table && Visible(p, symbol, timeframe, cutoff) ensures Covers(b, p.barTs) {
      assert Covers(a, p.barTs);
      var k :| 0 <= k < |a| && a[k].barTs == p.barTs;
      assert b[k].barTs == p.barTs;
    }
  }

  lemma UniqueWithoutTies(table: seq<Observation>, symbol: string, timeframe: string, cutoff: int,
                          a: seq<Observation>, b: seq<Observation>)
    requires IsSeries(table, symbol, timeframe, cutoff, a) && IsSeries(table, symbol, timeframe, cutoff, b)
    requires NoTieOnTop(table, symbol, timeframe, cutoff)
    ensures a == b
  {
    SeriesUnique(table, symbol, timeframe, cutoff, a, b);
    forall i | 0 <= i < |a| ensures a[i] == b[i] {
      assert Newest(table, symbol, timeframe, cutoff, a[i]) && Newest(table, symbol, timeframe, cutoff, b[i]);
    }
  }

  /** A tie gives a second answer. */
  lemma TieGivesAnother(table: seq<Observation>, symbol: string, timeframe: string, cutoff: int, a: seq<Observation>,
                        o: Observation, p: Observation) returns (b: seq<Observation>)
    requires IsSeries(table, symbol, timeframe, cutoff, a)
    requires Newest(table, symbol, timeframe, cutoff, o) && Newest(table, symbol, timeframe, cutoff, p)
    requires o.barTs == p.barTs && o != p
    ensures IsSeries(table, symbol, timeframe, cutoff, b) && b != a
  {
    assert Covers(a, o.barTs);
    var i :| 0 <= i < |a| && a[i].barTs == o.barTs;
    var other := if a[i] == o then p else o;
    Swapped(table, symbol, timeframe, cutoff, a, i, other);
    b := a[i := other];
    assert b[i] != a[i];
  }

  /** A query has one answer exactly when no bar's newest observation is tied. */
  lemma SeriesUniqueIff(table: seq<Observation>, symbol: string, timeframe: string, cutoff: int, a: seq<Observation>)
    requires IsSeries(table, symbol, timeframe, cutoff, a)
    ensures (forall b :: IsSeries(table, symbol, timeframe, cutoff, b) ==> b == a)
            <==> NoTieOnTop(table, symbol, timeframe, cutoff)
  {
    if NoTieOnTop(table, symbol, timeframe, cutoff) {
      forall b | IsSeries(table, symbol, timeframe, cutoff, b) ensures b == a {
        UniqueWithoutTies(table, symbol, timeframe, cutoff, a, b);
      }
    } else {
      var o, p :| Newest(table, symbol, timeframe, cutoff, o) && Newest(table, symbol, timeframe, cutoff, p)
                  && o.barTs == p.barTs && o != p;
      var b := TieGivesAnother(table, symbol, timeframe, cutoff, a, o, p);
    }
  }

  /** A fetch can cause a tie by itself: a batch holding one bar twice with different figures stores both,
      observed at one moment, and either is an answer. */
  lemma BatchCanTie(symbol: string, timeframe: string, source: string, now: int, ts: int, u: Values, v: Values)
    requires u != v
    ensures var stored := InsertAll([], RowsOf([], symbol, timeframe, source, now, [Bar(Some(ts), Some(u)), Bar(Some(ts), Some(v))]));
            && |stored| == 2 && stored[0].values == u && stored[1].values == v
            && IsSeries(stored, symbol, timeframe, now, [stored[0]])
            && IsSeries(stored, symbol, timeframe, now, [stored[1]])
            && !NoTieOnTop(stored, symbol, timeframe, now)
  {
    var x, y := Bar(Some(ts), Some(u)), Bar(Some(ts), Some(v));
    var a, b := RowOf([], symbol, timeframe, source, now, x), RowOf([], symbol, timeframe, source, now, y);
    TwoRows(symbol, timeframe, source, now, x, y);
    TwoStored(a, b);
    OneOfTwo(a, b, symbol, timeframe, now, a);
    OneOfTwo(a, b, symbol, timeframe, now, b);
  }

  lemma TwoRows(symbol: string, timeframe: string, source: string, now: int, x: Bar, y: Bar)
    requires Archivable(x) && Archivable(y)
    ensures RowsOf([], symbol, timeframe, source, now, [x, y])
            == [RowOf([], symbol, timeframe, source, now, x), RowOf([], symbol, timeframe, source, now, y)]
  {
    assert [x, y][..1] == [x] && [x][..0] == [];
    assert RowsOf([], symbol, timeframe, source, now, [x]) == [RowOf([], symbol, timeframe, source, now, x)];
  }

  lemma TwoStored(a: Observation, b: Observation)
    requires !SameKey(a, b)
    ensures InsertAll([], [a, b]) == [a, b]
  {
    assert [a, b][..1] == [a] && [a][..0] == [];
    assert InsertAll([], [a]) == [a];
    assert !Stored([a], b);
  }

  lemma OneOfTwo(a: Observation, b: Observation, symbol: string, timeframe: string, cutoff: int, o: Observation)
    requires o == a || o == b
    requires Visible(a, symbol, timeframe, cutoff) && Visible(b, symbol, timeframe, cutoff)
    requires a.barTs == b.barTs && a.observedAt == b.observedAt
    ensures IsSeries([a, b], symbol, timeframe, cutoff, [o]) && Newest([a, b], symbol, timeframe, cutoff, o)
  {
    assert Newest([a, b], symbol, timeframe, cutoff, o);
    assert [o][0].barTs == a.barTs;
  }

  /** Rows observed after the cutoff are invisible to it. */
  lemma LaterRowsInvisible(table: seq<Observation>, extra: seq<Observation>, symbol: string, timeframe: string,
                           cutoff: int, s: seq<Observation>)
    requires forall i :: 0 <= i < |extra| ==> extra[i].observedAt > cutoff
    ensures IsSeries(table + extra, symbol, timeframe, cutoff, s) <==> IsSeries(table, symbol, timeframe, cutoff, s)
  {
    var all := table + extra;
    forall o ensures o in all && Visible(o, symbol, timeframe, cutoff) <==> o in table && Visible(o, symbol, timeframe, cutoff) {
      assert o in all <==> o in table || o in extra;
    }
    forall o ensures Newest(all, symbol, timeframe, cutoff, o) <==> Newest(table, symbol, timeframe, cutoff, o) {
    }
  }

  lemma {:induction false} InsertAllExtends(table: seq<Observation>, rows: seq<Observation>)
    ensures table <= InsertAll(table, rows)
    ensures forall i :: |table| <= i < |InsertAll(table, rows)| ==> InsertAll(table, rows)[i] in rows
  {
    if rows != [] {
      InsertAllExtends(table, rows[..|rows| - 1]);
    }
  }

  lemma {:induction false} RowsObservedNow(table: seq<Observation>, symbol: string, timeframe: string, source: string,
                                           now: int, bars: seq<Bar>)
    ensures forall i :: 0 <= i < |RowsOf(table, symbol, timeframe, source, now, bars)| ==>
              RowsOf(table, symbol, timeframe, source, now, bars)[i].observedAt == now
  {
    if bars != [] {
      RowsObservedNow(table, symbol, timeframe, source, now, bars[..|bars| - 1]);
    }
  }

  /** Point in time: nothing fetched after the cutoff, for any bar, changes what was known at it. */
  lemma PastIsImmutable(table: seq<Observation>, sym: string, tf: string, bars: seq<Bar>, source: string, now: int,
                        symbol: string, timeframe: string, cutoff: int, s: seq<Observation>)
    requires now > cutoff
    ensures IsSeries(InsertAll(table, RowsOf(table, sym, tf, source, now, bars)), symbol, timeframe, cutoff, s)
            <==> IsSeries(table, symbol, timeframe, cutoff, s)
  {
    var rows := RowsOf(table, sym, tf, source, now, bars);
    var next := InsertAll(table, rows);
    InsertAllExtends(table, rows);
    RowsObservedNow(table, sym, tf, source, now, bars);
    var extra := next[|table|..];
    assert next == table + extra;
    LaterRowsInvisible(table, extra, symbol, timeframe, cutoff, s);
  }

  lemma {:induction false} InsertAllStores(table: seq<Observation>, rows: seq<Observation>, i: nat)
    requires i < |rows|
    ensures Stored(InsertAll(table, rows), rows[i])
  {
    var n := |rows| - 1;
    var before := InsertAll(table, rows[..n]);
    if i < n {
      InsertAllStores(table, rows[..n], i);
      var k :| 0 <= k < |before| && SameKey(before[k], rows[i]);
      assert SameKey(InsertAll(table, rows)[k], rows[i]);
    } else if !Stored(before, rows[n]) {
      assert SameKey(InsertAll(table, rows)[|before|], rows[n]);
    }
  }

  lemma {:induction false} NothingNew(table: seq<Observation>, rows: seq<Observation>)
    requires forall i :: 0 <= i < |rows| ==> Stored(table, rows[i])
    ensures InsertAll(table, rows) == table
  {
    if rows != [] {
      NothingNew(table, rows[..|rows| - 1]);
    }
  }

  lemma {:induction false} SameKeys(t1: seq<Observation>, t2: seq<Observation>, symbol: string, timeframe: string,
                                    s1: string, s2: string, n1: int, n2: int, bars: seq<Bar>)
    ensures var a, b := RowsOf(t1, symbol, timeframe, s1, n1, bars), RowsOf(t2, symbol, timeframe, s2, n2, bars);
            |a| == |b| && forall i :: 0 <= i < |a| ==> SameKey(a[i], b[i])
  {
    if bars != [] {
      SameKeys(t1, t2, symbol, timeframe, s1, s2, n1, n2, bars[..|bars| - 1]);
    }
  }

  /** The stored observations of one bar. */
  ghost function Earlier(table: seq<Observation>, symbol: string, timeframe: string, barTs: int): set<int> {
    set i | 0 <= i < |table| && table[i].symbol == symbol && table[i].timeframe == timeframe && table[i].barTs == barTs
  }

  lemma {:induction false} RevisionCounts(table: seq<Observation>, symbol: string, timeframe: string, barTs: int)
    ensures Revision(table, symbol, timeframe, barTs) == |Earlier(table, symbol, timeframe, barTs)|
  {
    if table != [] {
      var n := |table| - 1;
      RevisionCounts(table[..n], symbol, timeframe, barTs);
      var before, now := Earlier(table[..n], symbol, timeframe, barTs), Earlier(table, symbol, timeframe, barTs);
      assert now == if n in now then before + {n} else before;
    }
  }

  lemma InsertOne(table: seq<Observation>, row: Observation)
    ensures InsertAll(table, [row]) ==
              if exists i :: 0 <= i < |table| && table[i].symbol == row.symbol && table[i].timeframe == row.timeframe
                             && table[i].barTs == row.barTs && table[i].values == row.values
              then table else table + [row]
  {
    assert [row][..0] == [] && InsertAll(table, [row]) == Insert(table, row);
    if Stored(table, row) {
      var i :| 0 <= i < |table| && SameKey(table[i], row);
      assert table[i].symbol == row.symbol && table[i].values == row.values;
    }
    if i :| 0 <= i < |table| && table[i].symbol == row.symbol && table[i].timeframe == row.timeframe
            && table[i].barTs == row.barTs && table[i].values == row.values {
      assert SameKey(table[i], row);
    }
  }

  /** The row one bar of a fetch becomes: none without a market time or readable figures, and otherwise one made
      now, numbered by how many observations there are of the bar. */
  lemma RowsOfOne(table: seq<Observation>, symbol: string, timeframe: string, source: string, now: int, b: Bar)
    ensures RowsOf(table, symbol, timeframe, source, now, [b]) ==
              if b.timestamp.None? || b.values.None? then []
              else [Observation(Text.Upper(symbol), timeframe, b.timestamp.value, b.values.value, source, now,
                                |Earlier(table, Text.Upper(symbol), timeframe, b.timestamp.value)|)]
  {
    assert [b][..0] == [];
    if Archivable(b) { RevisionCounts(table, Text.Upper(symbol), timeframe, b.timestamp.value); }
  }

  /** What fetching one bar stores: nothing if it is not to be archived or already stored with these figures, and
      otherwise that row. */
  lemma FetchOne(table: seq<Observation>, symbol: string, timeframe: string, source: string, now: int, b: Bar)
    ensures var next := InsertAll(table, RowsOf(table, symbol, timeframe, source, now, [b]));
            if b.timestamp.None? || b.values.None? then next == table
            else
              var row := Observation(Text.Upper(symbol), timeframe, b.timestamp.value, b.values.value, source, now,
                                     |Earlier(table, Text.Upper(symbol), timeframe, b.timestamp.value)|);
              next == if exists i :: 0 <= i < |table| && table[i].symbol == row.symbol && table[i].timeframe == row.timeframe
                                     && table[i].barTs == row.barTs && table[i].values == row.values
                      then table else table + [row]
  {
    RowsOfOne(table, symbol, timeframe, source, now, b);
    if b.timestamp.Some? && b.values.Some? {
      InsertOne(table, RowsOf(table, symbol, timeframe, source, now, [b])[0]);
    }
  }

  /** A series, spelled out: one observation per market time, in order, each a stored one of this symbol in upper
      case and this timeframe, seen by the cutoff and none of its bar seen by then newer; and no time missing. */
  lemma SeriesInFull(table: seq<Observation>, symbol: string, timeframe: string, cutoff: int, s: seq<Observation>)
    requires IsSeries(table, symbol, timeframe, cutoff, s)
    ensures forall i, j :: 0 <= i < j < |s| ==> s[i].barTs < s[j].barTs
    ensures forall i :: 0 <= i < |s| ==>
              s[i] in table && s[i].symbol == Text.Upper(symbol) && s[i].timeframe == timeframe && s[i].observedAt <= cutoff
    ensures forall p :: p in table && p.symbol == Text.Upper(symbol) && p.timeframe == timeframe && p.observedAt <= cutoff ==>
              exists i :: 0 <= i < |s| && s[i].barTs == p.barTs && p.observedAt <= s[i].observedAt
  {
    forall i | 0 <= i < |s|
      ensures s[i] in table && s[i].symbol == Text.Upper(symbol) && s[i].timeframe == timeframe && s[i].observedAt <= cutoff
    {
      assert Newest(table, symbol, timeframe, cutoff, s[i]);
    }
    forall p | p in table && p.symbol == Text.Upper(symbol) && p.timeframe == timeframe && p.observedAt <= cutoff
      ensures exists i :: 0 <= i < |s| && s[i].barTs == p.barTs && p.observedAt <= s[i].observedAt
    {
      assert Visible(p, symbol, timeframe, cutoff);
      assert Covers(s, p.barTs);
      var i :| 0 <= i < |s| && s[i].barTs == p.barTs;
      assert Newest(table, symbol, timeframe, cutoff, s[i]);
    }
  }

  /** Fetching an unchanged batch again adds no rows, whenever and from whichever source. */
  lemma RefetchAddsNothing(table: seq<Observation>, symbol: string, timeframe: string, bars: seq<Bar>,
                           s1: string, s2: string, n1: int, n2: int)
    ensures var once := InsertAll(table, RowsOf(table, symbol, timeframe, s1, n1, bars));
            InsertAll(once, RowsOf(once, symbol, timeframe, s2, n2, bars)) == once
  {
    var first := RowsOf(table, symbol, timeframe, s1, n1, bars);
    var once := InsertAll(table, first);
    var second := RowsOf(once, symbol, timeframe, s2, n2, bars);
    SameKeys(table, once, symbol, timeframe, s1, s2, n1, n2, bars);
    forall i | 0 <= i < |second| ensures Stored(once, second[i]) {
      InsertAllStores(table, first, i);
      var k :| 0 <= k < |once| && SameKey(once[k], first[i]);
      assert SameKey(once[k], second[i]);
    }
    NothingNew(once, second);
  }

  /** One observation per bar and moment. */
  ghost predicate NoTies(table: seq<Observation>) {
    forall o, p :: o in table && p in table && SameBar(o, p) && o.observedAt == p.observedAt ==> o == p
  }

  ghost predicate Current(table: seq<Observation>, o: Observation) {
    o in table && forall p :: p in table && SameBar(p, o) ==> p.observedAt <= o.observedAt
  }

  /** Every current observation of the bar, after storing `row`, carries the fetched values. */
  ghost predicate Reflected(table: seq<Observation>, row: Observation) {
    forall now :: Current(Insert(table, row), now) && SameBar(now, row) ==> SameKey(now, row)
  }

  /** Deduplication by payload drops a bar that returns to an earlier value: after a fetch, whatever is
      current for the bar carries the fetched values exactly when they were never stored for it, or were
      already the values of everything current. */
  lemma FetchIsReflectedIff(table: seq<Observation>, row: Observation)
    requires forall o :: o in table && SameBar(o, row) ==> o.observedAt < row.observedAt
    ensures Reflected(table, row) <==>
              !Stored(table, row) || forall o :: Current(table, o) && SameBar(o, row) ==> SameKey(o, row)
  {
    var next := Insert(table, row);
    if !Stored(table, row) {
      assert row in next;
      forall now | Current(next, now) && SameBar(now, row) ensures SameKey(now, row) {
        assert row.observedAt <= now.observedAt;
        assert now == row || now in table;
      }
    } else {
      assert next == table;
    }
  }

  /** Without ties: the one current observation carries the fetched values exactly when those values were
      never stored for the bar, or are the ones already current. */
  lemma CurrentIsReflectedIff(table: seq<Observation>, row: Observation, now: Observation)
    requires NoTies(table)
    requires forall o :: o in table && SameBar(o, row) ==> o.observedAt < row.observedAt
    requires SameBar(now, row) && Current(Insert(table, row), now)
    ensures now.values == row.values <==>
              !Stored(table, row) || exists o :: Current(table, o) && SameKey(o, row)
  {
    var next := Insert(table, row);
    if !Stored(table, row) {
      assert row in next;
      assert now == row || now in table;
    } else {
      assert next == table;
      if exists o :: Current(table, o) && SameKey(o, row) {
        var o :| Current(table, o) && SameKey(o, row);
        assert o.observedAt == now.observedAt;
      }
      if now.values == row.values {
        assert Current(table, now) && SameKey(now, row);
      }
    }
  }

  /** A, then B, then A again: the third fetch is dropped and B stays current. */
  lemma RevertedBarIsDropped(a: Observation, b: Observation, again: Observation)
    requires SameBar(a, b) && a.values != b.values && SameKey(a, again)
    requires a.observedAt < b.observedAt < again.observedAt
    ensures InsertAll([], [a, b, again]) == [a, b]
    ensures Current([a, b], b) && b.values != again.values
  {
    var rows := [a, b, again];
    assert rows[..2] == [a, b] && [a, b][..1] == [a] && [a][..0] == [];
    assert InsertAll([], [a]) == [a];
    assert !Stored([a], b);
    assert InsertAll([], [a, b]) == [a, b];
    assert SameKey([a, b][0], again);
  }
}
