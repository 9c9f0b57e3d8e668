// Drawdown of realised round trips (libs/attribution/src/attribution/report.py).
module Performance {
  import opened Common
  import opened Sums
  import opened Sorting
  import opened RoundTrips
  import opened Archive

  /** The cumulative realised curve: it starts at zero and has one more point per result. */
  function Curve(series: seq<real>): (c: seq<real>)
    ensures |c| == |series| + 1
  {
    if series == [] then [0.0]
    else
      var c := Curve(series[..|series| - 1]);
      c + [c[|c| - 1] + series[|series| - 1]]
  }

  ghost predicate Highest(c: seq<real>, high: real) { high in c && forall i :: 0 <= i < |c| ==> c[i] <= high }

  ghost predicate Lowest(c: seq<real>, low: real) { low in c && forall i :: 0 <= i < |c| ==> low <= c[i] }

  ghost predicate Falls(c: seq<real>, i: nat, j: nat, fall: real) { i <= j < |c| && fall == c[i] - c[j] }

  /** `worst` is the largest fall of the curve from an earlier point to a later one. */
  ghost predicate LargestFall(c: seq<real>, worst: real) {
    && (exists i, j :: Falls(c, i, j, worst))
    && (forall i, j :: 0 <= i <= j < |c| ==> c[i] - c[j] <= worst)
  }

  /** The quadratic definition: the largest fall over all pairs of points. */
  ghost predicate MaxDrawdown(series: seq<real>, worst: real) { LargestFall(Curve(series), worst) }

  lemma AtTheStart()
    ensures Highest([0.0], 0.0) && Lowest([0.0], 0.0) && LargestFall([0.0], 0.0)
  {
    assert Falls([0.0], 0, 0, 0.0);
  }

  lemma PeakStep(c: seq<real>, x: real, peak: real)
    requires Highest(c, peak)
    ensures Highest(c + [x], Max(peak, x))
  {
  }

  lemma TroughStep(c: seq<real>, x: real, trough: real)
    requires Lowest(c, trough)
    ensures Lowest(c + [x], Min(trough, x))
  {
  }

  /** The largest fall ending at the new point starts at the running peak. */
  lemma WorstStep(c: seq<real>, x: real, peak: real, worst: real)
    requires Highest(c + [x], peak) && LargestFall(c, worst)
    ensures LargestFall(c + [x], Max(worst, peak - x))
  {
    var d, now := c + [x], Max(worst, peak - x);
    if worst >= peak - x {
      var i, j :| Falls(c, i, j, worst);
      assert Falls(d, i, j, now);
    } else {
      var i :| 0 <= i < |d| && d[i] == peak;
      assert Falls(d, i, |c|, now);
    }
    forall i, j | 0 <= i <= j < |d| ensures d[i] - d[j] <= now {
      if j < |c| { assert c[i] - c[j] <= worst; }
    }
  }

  lemma CurveStep(series: seq<real>, n: nat)
    requires n < |series|
    ensures var c := Curve(series[..n]); Curve(series[..n + 1]) == c + [c[|c| - 1] + series[n]]
  {
    assert series[..n + 1][..n] == series[..n];
  }

  /** The curve starts at zero and moves by each result in turn. */
  lemma {:induction false} CurveMoves(series: seq<real>, k: nat)
    requires k <= |series|
    ensures Curve(series)[0] == 0.0
    ensures k < |series| ==> Curve(series)[k + 1] == Curve(series)[k] + series[k]
  {
    if series != [] {
      var n := |series| - 1;
      CurveMoves(series[..n], if k < n then k else 0);
    }
  }

  /** What a trip made: the price move, in the direction it was entered, times its quantity. */
  function Made(t: Trip): real {
    if t.entry.side == Buy then (t.exit.price - t.entry.price) * t.qty else (t.entry.price - t.exit.price) * t.qty
  }

  lemma Opposite(a: real, b: real, q: real)
    ensures -((a - b) * q) == (b - a) * q
  {
  }

  lemma MadeIsGain(t: Trip)
    ensures Gain(t) == Made(t)
  {
    Opposite(t.exit.price, t.entry.price, t.qty);
  }

  lemma RealizedIs(t: Trip)
    ensures t.Realized() == if t.entry.price > 0.0 && t.exit.price > 0.0 then Some(Made(t)) else None
  {
    if t.entry.price > 0.0 && t.exit.price > 0.0 {
      GainIsRealized(t);
      MadeIsGain(t);
    }
  }

  /** One more trip is one more result, if both its fills had a usable price. */
  lemma ResultsAppend(trips: seq<ScopedTrip>, t: ScopedTrip)
    ensures Results(trips + [t]) == if t.trip.entry.price > 0.0 && t.trip.exit.price > 0.0 then Results(trips) + [Made(t.trip)]
                                    else Results(trips)
  {
    assert (trips + [t])[..|trips|] == trips;
    RealizedIs(t.trip);
  }

  datatype Point = Point(equity: real, peak: real, trough: real, worst: real)

  /** The loop's four figures describe the curve so far. */
  ghost predicate Describes(c: seq<real>, equity: real, peak: real, trough: real, worst: real) {
    && c != [] && equity == c[|c| - 1]
    && Highest(c, peak) && Lowest(c, trough) && LargestFall(c, worst)
  }

  lemma DescribesStep(c: seq<real>, equity: real, peak: real, trough: real, worst: real,
                      next: real, peak': real, trough': real, worst': real)
    requires Describes(c, equity, peak, trough, worst)
    requires peak' == Max(peak, next) && trough' == Min(trough, next) && worst' == Max(worst, peak' - next)
    ensures Describes(c + [next], next, peak', trough', worst')
  {
    PeakStep(c, next, peak);
    TroughStep(c, next, trough);
    WorstStep(c, next, peak', worst);
  }

  /** The same about the first `n` results. */
  ghost predicate DescribesFirst(series: seq<real>, n: nat, p: Point)
    requires n <= |series|
  {
    Describes(Curve(series[..n]), p.equity, p.peak, p.trough, p.worst)
  }

  lemma DescribesNone(series: seq<real>)
    ensures DescribesFirst(series, 0, Point(0.0, 0.0, 0.0, 0.0))
  {
    AtTheStart();
  }

  lemma DescribesNext(series: seq<real>, n: nat, p: Point, q: Point)
    requires n < |series| && DescribesFirst(series, n, p)
    requires q.equity == p.equity + series[n] && q.peak == Max(p.peak, q.equity) && q.trough == Min(p.trough, q.equity)
    requires q.worst == Max(p.worst, q.peak - q.equity)
    ensures DescribesFirst(series, n + 1, q)
  {
    CurveStep(series, n);
    DescribesStep(Curve(series[..n]), p.equity, p.peak, p.trough, p.worst, q.equity, q.peak, q.trough, q.worst);
  }

  lemma DescribesAll(series: seq<real>, p: Point)
    requires DescribesFirst(series, |series|, p)
    ensures MaxDrawdown(series, p.worst) && Lowest(Curve(series), p.trough)
  {
    assert series[..|series|] == series;
  }

  /** One pass over the results computes the quadratic definition. */
  method Drawdown(series: seq<real>) returns (worst: real, trough: real)
    ensures MaxDrawdown(series, worst)
    ensures Lowest(Curve(series), trough)
  {
    var equity, peak := 0.0, 0.0;
    worst, trough := 0.0, 0.0;
    DescribesNone(series);
    for n := 0 to |series|
      invariant DescribesFirst(series, n, Point(equity, peak, trough, worst))
    {
      ghost var was := Point(equity, peak, trough, worst);
      equity := equity + series[n];
      peak := Max(peak, equity);
      trough := Min(trough, equity);
      worst := Max(worst, peak - equity);
      DescribesNext(series, n, was, Point(equity, peak, trough, worst));
    }
    DescribesAll(series, Point(equity, peak, trough, worst));
  }

  /** The figure is unique, so the loop computes it and nothing else. */
  lemma MaxDrawdownUnique(series: seq<real>, a: real, b: real)
    requires MaxDrawdown(series, a) && MaxDrawdown(series, b)
    ensures a == b && a >= 0.0
  {
    var c := Curve(series);
    var i, j :| Falls(c, i, j, a);
    var k, l :| Falls(c, k, l, b);
    assert c[0] - c[0] <= a;
  }

  // ------------------------------------------------------------------
  // The series itself
  // ------------------------------------------------------------------

  /** Usable results of the trips, in the given order. */
  function Results(trips: seq<ScopedTrip>): seq<real> {
    if trips == [] then []
    else
      var before, t := Results(trips[..|trips| - 1]), trips[|trips| - 1];
      if t.trip.Realized().Some? then before + [t.trip.Realized().value] else before
  }

  method UsableResults(trips: seq<ScopedTrip>) returns (series: seq<real>)
    ensures series == Results(trips)
  {
    series := [];
    for i := 0 to |trips|
      invariant series == Results(trips[..i])
    {
      assert trips[..i + 1][..i] == trips[..i];
      var realized := trips[i].trip.Realized();
      if realized.Some? {
        series := series + [realized.value];
      }
    }
    assert trips[..|trips|] == trips;
  }

  /** Per-trade results, oldest exit first; trips without usable fills are skipped. */
  method RealizedSeries(trips: seq<ScopedTrip>) returns (series: seq<real>)
    ensures series == Results(SortBy(trips, ExitAt))
    ensures SortedBy(SortBy(trips, ExitAt), ExitAt) && multiset(SortBy(trips, ExitAt)) == multiset(trips)
  {
    SortBySorts(trips, ExitAt);
    series := UsableResults(SortBy(trips, ExitAt));
  }

  /** What a trip adds to the curve: its realised result, or nothing when a fill had no usable price. */
  function Reported(t: ScopedTrip): real { if t.trip.Realized().Some? then t.trip.Realized().value else 0.0 }

  /** The curve ends at the total the trips report. */
  lemma {:induction false} CurveEndsAtTotal(trips: seq<ScopedTrip>)
    ensures Curve(Results(trips))[|Results(trips)|] == SumSeq(trips, Reported)
  {
    if trips != [] {
      var n := |trips| - 1;
      CurveEndsAtTotal(trips[..n]);
      var before := Results(trips[..n]);
      if trips[n].trip.Realized().Some? {
        assert Results(trips)[..|before|] == before;
      }
    }
  }

  /** `sum(series)`. */
  method SumResults(series: seq<real>) returns (total: real)
    ensures total == Curve(series)[|series|]
  {
    total := 0.0;
    for n := 0 to |series|
      invariant total == Curve(series[..n])[n]
    {
      CurveStep(series, n);
      total := total + series[n];
    }
    assert series[..|series|] == series;
  }
}
