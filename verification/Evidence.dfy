// Server-derived promotion evidence and the gates that read it
// (libs/lifecycle/src/lifecycle/evidence.py and gates.py).
module Evidence {
  import opened Common
  import opened Lifecycle
  import Archive
  import PaperFigures
  import Text

  const WALK_FORWARD := "walk_forward"
  const PORTFOLIO_CORRELATION := "portfolio_correlation"

  datatype Payload = Payload(deflatedSharpe: Option<real>, trades: Option<real>, returnPct: Option<real>,
                             maxCorrelation: Option<real>)

  const NO_PAYLOAD := Payload(None, None, None, None)

  datatype Artifact = Artifact(id: int, kind: string, strategyId: string, strategyVersion: string, symbol: string,
                               windowStart: int, windowEnd: int, createdAt: int, contentHash: string, payload: Payload)

  datatype Problem =
    | NothingCited
    | Missing(id: int)
    | WrongKind(id: int)
    | WrongStrategy(id: int)
    | WrongSymbol(id: int)
    | WrongVersion(id: int)
    | ExecutionUnavailable
    | PerformanceUnavailable
    | CompletenessUnavailable

  /** The first way an artifact fails to describe this sleeve. */
  function ScopeMismatch(a: Artifact, s: Sleeve, kind: string): Option<Problem> {
    if a.kind != kind then Some(WrongKind(a.id))
    else if a.strategyId != s.strategyId then Some(WrongStrategy(a.id))
    else if Text.Upper(a.symbol) != Text.Upper(s.symbol) then Some(WrongSymbol(a.id))
    else if s.strategyVersion != "" && a.strategyVersion != s.strategyVersion then Some(WrongVersion(a.id))
    else None
  }

  ghost predicate InScope(a: Artifact, s: Sleeve, kind: string) {
    && a.kind == kind && a.strategyId == s.strategyId
    && Text.Upper(a.symbol) == Text.Upper(s.symbol)
    && (s.strategyVersion == "" || a.strategyVersion == s.strategyVersion)
  }

  datatype Backtest = Backtest(metrics: Payload, artifacts: seq<Artifact>, windowStart: int, windowEnd: int,
                               problems: seq<Problem>)

  ghost predicate Citable(table: map<int, Artifact>, s: Sleeve, id: int) {
    id in table && InScope(table[id], s, WALK_FORWARD)
  }

  /** Every cited id resolves to an artifact of this very sleeve. */
  ghost predicate AllCitable(table: map<int, Artifact>, s: Sleeve, ids: seq<int>) {
    ids != [] && forall i :: 0 <= i < |ids| ==> Citable(table, s, ids[i])
  }

  /** `a` is the first of the most recent of `artifacts`. */
  ghost predicate Latest(a: Artifact, artifacts: seq<Artifact>) { exists i :: LatestAt(a, artifacts, i) }

  ghost predicate LatestAt(a: Artifact, artifacts: seq<Artifact>, i: int) {
    && 0 <= i < |artifacts| && artifacts[i] == a
    && (forall j :: 0 <= j < i ==> artifacts[j].createdAt < a.createdAt)
    && (forall j :: i <= j < |artifacts| ==> artifacts[j].createdAt <= a.createdAt)
  }

  lemma LatestUnique(a: Artifact, b: Artifact, artifacts: seq<Artifact>)
    requires Latest(a, artifacts) && Latest(b, artifacts)
    ensures a == b
  {
    var i :| LatestAt(a, artifacts, i);
    var j :| LatestAt(b, artifacts, j);
    assert i == j;
  }

  method LatestOf(artifacts: seq<Artifact>) returns (a: Artifact)
    requires artifacts != []
    ensures Latest(a, artifacts)
  {
    a := artifacts[0];
    ghost var at := 0;
    for i := 1 to |artifacts|
      invariant 0 <= at < i && LatestAt(a, artifacts[..i], at)
    {
      if artifacts[i].createdAt > a.createdAt {
        a, at := artifacts[i], i;
      }
    }
    assert artifacts[..|artifacts|] == artifacts;
  }

  method Span(artifacts: seq<Artifact>) returns (first: int, last: int)
    requires artifacts != []
    ensures Spans(artifacts, first, last)
  {
    first, last := artifacts[0].windowStart, artifacts[0].windowEnd;
    assert artifacts[0] in artifacts;
    for i := 1 to |artifacts|
      invariant forall j :: 0 <= j < i ==> first <= artifacts[j].windowStart && artifacts[j].windowEnd <= last
      invariant exists a :: a in artifacts && a.windowStart == first
      invariant exists a :: a in artifacts && a.windowEnd == last
    {
      assert artifacts[i] in artifacts;
      if artifacts[i].windowStart < first {
        first := artifacts[i].windowStart;
      }
      if artifacts[i].windowEnd > last {
        last := artifacts[i].windowEnd;
      }
    }
  }

  /** The artifacts named by `ids`. */
  function Cited(table: map<int, Artifact>, ids: seq<int>): seq<Artifact>
    requires forall i :: 0 <= i < |ids| ==> ids[i] in table
  {
    seq(|ids|, i requires 0 <= i < |ids| => table[ids[i]])
  }

  /** The window is exactly as wide as the artifacts make it. */
  ghost predicate Spans(artifacts: seq<Artifact>, first: int, last: int) {
    && (forall a :: a in artifacts ==> first <= a.windowStart && a.windowEnd <= last)
    && (exists a :: a in artifacts && a.windowStart == first)
    && (exists a :: a in artifacts && a.windowEnd == last)
  }

  /** Evidence for candidate to paper.  It is free of problems exactly when every cited id is an
      in-scope walk-forward artifact; the figures come from the latest cited artifact, and the audit
      trail holds only artifacts of this sleeve. */
  method DeriveBacktest(table: map<int, Artifact>, s: Sleeve, ids: seq<int>) returns (e: Backtest)
    ensures e.problems == [] <==> AllCitable(table, s, ids)
    ensures forall a :: a in e.artifacts ==> InScope(a, s, WALK_FORWARD)
    ensures e.problems == [] ==>
              && e.artifacts == Cited(table, ids)
              && (exists a :: Latest(a, e.artifacts) && e.metrics == a.payload)
              && Spans(e.artifacts, e.windowStart, e.windowEnd)
  {
    if ids == [] {
      return Backtest(NO_PAYLOAD, [], 0, 0, [NothingCited]);
    }
    var problems: seq<Problem>, artifacts: seq<Artifact> := [], [];
    for i := 0 to |ids|
      invariant problems == [] <==> forall j :: 0 <= j < i ==> Citable(table, s, ids[j])
      invariant forall a :: a in artifacts ==> InScope(a, s, WALK_FORWARD)
      invariant problems == [] ==> |artifacts| == i && forall j :: 0 <= j < i ==> artifacts[j] == table[ids[j]]
      invariant artifacts == [] ==> i == 0 || problems != []
    {
      if ids[i] !in table {
        problems := problems + [Missing(ids[i])];
      } else {
        var mismatch := ScopeMismatch(table[ids[i]], s, WALK_FORWARD);
        if mismatch.Some? {
          problems := problems + [mismatch.value];
        } else {
          artifacts := artifacts + [table[ids[i]]];
        }
      }
    }
    if artifacts == [] {
      return Backtest(NO_PAYLOAD, [], 0, 0, problems);
    }
    var latest := LatestOf(artifacts);
    var first, last := Span(artifacts);
    e := Backtest(latest.payload, artifacts, first, last, problems);
  }

  // ------------------------------------------------------------------
  // Paper evidence
  // ------------------------------------------------------------------

  /** The journal as it can be read: its execution rows, whether the read behind the counts works, whether
      the read behind the round trips works, whether pairing itself fails, and what the journal says about
      its own completeness over the window, if that can be read. */
  datatype Journal = Journal(rows: seq<Archive.Row>, metricsReadable: bool, rowsReadable: bool, pairingFails: bool,
                             complete: Option<bool>)

  datatype PaperRun = PaperRun(days: real, figures: PaperFigures.Figures, complete: Option<bool>,
                               correlation: Option<real>, artifacts: seq<Artifact>, problems: seq<Problem>)

  /** What the evidence notices: a failed read of the rows to pair is not among it. */
  predicate Readable(journal: Journal) {
    journal.metricsReadable && !journal.pairingFails && journal.complete.Some?
  }

  /** The rows to pair as they were returned: a failed read is logged and returns none. */
  function PairedRows(journal: Journal): seq<Archive.Row> { if journal.rowsReadable then journal.rows else [] }

  const SECONDS_PER_DAY := 86400

  /** Length of the window in days. */
  function Days(first: int, last: int): real {
    if last <= first then 0.0 else (last - first) as real / SECONDS_PER_DAY as real
  }

  function PaperQuery(s: Sleeve, first: int, last: int): PaperFigures.Query {
    PaperFigures.Query(s.strategyId, s.strategyVersion, s.symbol, s.accountId, first, last)
  }

  /** A correlation artifact is named and describes this sleeve. */
  ghost predicate CorrelationCitable(table: map<int, Artifact>, s: Sleeve, id: Option<int>) {
    id.Some? && id.value in table && InScope(table[id.value], s, PORTFOLIO_CORRELATION)
  }

  /** The figures of both reads.  Counts that cannot be read, and profit that cannot be paired, are zero. */
  method MeasurePaper(journal: Journal, s: Sleeve, first: int, last: int) returns (m: PaperFigures.Figures)
    ensures journal.metricsReadable && !journal.pairingFails ==>
              PaperFigures.Measures(PaperQuery(s, first, last), journal.rows, PairedRows(journal), m)
  {
    m := PaperFigures.Measure(PaperQuery(s, first, last), journal.rows, PairedRows(journal));
    if !journal.metricsReadable {
      m := m.(orders := 0, fills := 0, fees := 0.0, shortfall := None);
    }
    if journal.pairingFails {
      m := m.(realizedTotal := 0.0);
    }
  }

  /** Evidence for paper to live and for leaving probation.  It is free of problems exactly when the counts
      and the completeness can be read, pairing does not fail, and the correlation artifact, if one is
      cited, describes this sleeve; its figures are then those of this sleeve's own paper rows in the
      window, as each read returned them. */
  method DerivePaper(table: map<int, Artifact>, s: Sleeve, journal: Journal, first: int, last: int, correlationId: Option<int>)
    returns (e: PaperRun)
    ensures e.problems == [] <==>
              Readable(journal) && (correlationId.Some? ==> CorrelationCitable(table, s, correlationId))
    ensures e.problems == [] ==>
              && PaperFigures.Measures(PaperQuery(s, first, last), journal.rows, PairedRows(journal), e.figures)
              && e.days == Days(first, last) && e.complete == journal.complete
    ensures if CorrelationCitable(table, s, correlationId)
            then e.correlation == table[correlationId.value].payload.maxCorrelation && e.artifacts == [table[correlationId.value]]
            else e.correlation == None && e.artifacts == []
  {
    var problems: seq<Problem> := [];
    if !journal.metricsReadable {
      problems := problems + [ExecutionUnavailable];
    }
    if journal.pairingFails {
      problems := problems + [PerformanceUnavailable];
    }
    if journal.complete.None? {
      problems := problems + [CompletenessUnavailable];
    }
    var correlation: Option<real>, artifacts: seq<Artifact> := None, [];
    if correlationId.Some? {
      if correlationId.value !in table {
        problems := problems + [Missing(correlationId.value)];
      } else {
        var artifact := table[correlationId.value];
        var mismatch := ScopeMismatch(artifact, s, PORTFOLIO_CORRELATION);
        if mismatch.Some? {
          problems := problems + [mismatch.value];
        } else {
          correlation := artifact.payload.maxCorrelation;
          artifacts := artifacts + [artifact];
        }
      }
    }
    var figures := MeasurePaper(journal, s, first, last);
    e := PaperRun(Days(first, last), figures, journal.complete, correlation, artifacts, problems);
  }

  // ------------------------------------------------------------------
  // Gates
  // ------------------------------------------------------------------
  datatype Thresholds = Thresholds(minDeflatedSharpe: real, minTrades: real, requirePositiveReturn: bool,
                                   minPaperDays: real, minPaperOrders: real, minPaperFills: real,
                                   requireMeasuredCosts: bool, requireCompleteJournal: bool,
                                   maxCorrelation: real, requireNonNegativePnl: bool)

  datatype Gate = DeflatedSharpe | Trades | PositiveReturn | PaperDays | PaperOrders | PaperFills
                | MeasuredCosts | CompleteJournal | NonNegativePnl | Correlation | BackToPaper

  datatype GateResult = GateResult(allowed: bool, target: Option<State>, passed: seq<Gate>, failed: seq<Gate>,
                                   problems: seq<Problem>)

  const REFUSED := GateResult(false, None, [], [], [])

  function AtLeast(x: Option<real>, bar: real): bool { x.Some? && x.value >= bar }

  /** The bar for candidate to paper. */
  ghost predicate ClearsPaperBar(m: Payload, t: Thresholds) {
    && AtLeast(m.deflatedSharpe, t.minDeflatedSharpe)
    && AtLeast(m.trades, t.minTrades)
    && (t.requirePositiveReturn ==> m.returnPct.Some? && m.returnPct.value > 0.0)
  }

  /** The bar for paper to live, apart from profit. */
  ghost predicate ClearsOtherBars(days: real, m: PaperFigures.Figures, complete: Option<bool>, correlation: Option<real>,
                                  t: Thresholds)
  {
    && days >= t.minPaperDays && m.orders as real >= t.minPaperOrders && m.fills as real >= t.minPaperFills
    && (t.requireMeasuredCosts ==> m.shortfall.Some?)
    && (t.requireCompleteJournal ==> complete == Some(true))
    && correlation.Some? && correlation.value < t.maxCorrelation
  }

  /** The bar on profit after fees. */
  predicate ClearsProfitBar(realizedTotal: real, fees: real, t: Thresholds) {
    t.requireNonNegativePnl ==> realizedTotal - fees >= 0.0
  }

  /** The bar for paper to live. */
  ghost predicate ClearsLiveBar(days: real, m: PaperFigures.Figures, complete: Option<bool>, correlation: Option<real>,
                                t: Thresholds)
  {
    ClearsOtherBars(days, m, complete, correlation, t) && ClearsProfitBar(m.realizedTotal, m.fees, t)
  }

  /** `_check`: a gate that is required goes on the list of those passed or of those failed. */
  method Check(passed: seq<Gate>, failed: seq<Gate>, required: bool, ok: bool, gate: Gate)
    returns (nowPassed: seq<Gate>, nowFailed: seq<Gate>)
    ensures nowFailed == [] <==> failed == [] && (required ==> ok)
    ensures forall g :: g in nowFailed <==> g in failed || (g == gate && required && !ok)
    ensures forall g :: g in nowPassed <==> g in passed || (g == gate && required && ok)
  {
    nowPassed := if required && ok then passed + [gate] else passed;
    nowFailed := if required && !ok then failed + [gate] else failed;
  }

  method EvaluateToPaper(e: Backtest, t: Thresholds) returns (r: GateResult)
    ensures r.allowed <==> e.problems == [] && ClearsPaperBar(e.metrics, t)
    ensures r.target == if r.allowed then Some(Paper) else None
    ensures !r.allowed ==> r.failed != [] || r.problems != []
    ensures r.problems == e.problems
    ensures e.problems == [] ==> forall g ::
              (g in r.failed <==>
                 || (g == DeflatedSharpe && !AtLeast(e.metrics.deflatedSharpe, t.minDeflatedSharpe))
                 || (g == Trades && !AtLeast(e.metrics.trades, t.minTrades))
                 || (g == PositiveReturn && t.requirePositiveReturn
                     && !(e.metrics.returnPct.Some? && e.metrics.returnPct.value > 0.0)))
  {
    if e.problems != [] {
      return REFUSED.(problems := e.problems);
    }
    var passed: seq<Gate>, failed: seq<Gate> := [], [];
    passed, failed := Check(passed, failed, true, AtLeast(e.metrics.deflatedSharpe, t.minDeflatedSharpe), DeflatedSharpe);
    passed, failed := Check(passed, failed, true, AtLeast(e.metrics.trades, t.minTrades), Trades);
    passed, failed := Check(passed, failed, t.requirePositiveReturn, e.metrics.returnPct.Some? && e.metrics.returnPct.value > 0.0, PositiveReturn);
    r := GateResult(failed == [], if failed == [] then Some(Paper) else None, passed, failed, []);
  }

  method EvaluateToLive(e: PaperRun, t: Thresholds) returns (r: GateResult)
    ensures r.allowed <==> e.problems == [] && ClearsLiveBar(e.days, e.figures, e.complete, e.correlation, t)
    ensures r.target == if r.allowed then Some(Live) else None
    ensures !r.allowed ==> r.failed != [] || r.problems != []
    ensures r.problems == e.problems
    ensures e.problems == [] ==> forall g ::
              (g in r.failed <==>
                 || (g == PaperDays && e.days < t.minPaperDays)
                 || (g == PaperOrders && e.figures.orders as real < t.minPaperOrders)
                 || (g == PaperFills && e.figures.fills as real < t.minPaperFills)
                 || (g == MeasuredCosts && t.requireMeasuredCosts && e.figures.shortfall.None?)
                 || (g == CompleteJournal && t.requireCompleteJournal && e.complete != Some(true))
                 || (g == NonNegativePnl && t.requireNonNegativePnl && e.figures.realizedTotal < e.figures.fees)
                 || (g == Correlation && !(e.correlation.Some? && e.correlation.value < t.maxCorrelation)))
  {
    if e.problems != [] {
      return REFUSED.(problems := e.problems);
    }
    var passed: seq<Gate>, failed: seq<Gate> := [], [];
    passed, failed := Check(passed, failed, true, e.days >= t.minPaperDays, PaperDays);
    passed, failed := Check(passed, failed, true, e.figures.orders as real >= t.minPaperOrders, PaperOrders);
    passed, failed := Check(passed, failed, true, e.figures.fills as real >= t.minPaperFills, PaperFills);
    passed, failed := Check(passed, failed, t.requireMeasuredCosts, e.figures.shortfall.Some?, MeasuredCosts);
    passed, failed := Check(passed, failed, t.requireCompleteJournal, e.complete == Some(true), CompleteJournal);
    passed, failed := Check(passed, failed, t.requireNonNegativePnl, e.figures.realizedTotal - e.figures.fees >= 0.0, NonNegativePnl);
    passed, failed := Check(passed, failed, true, e.correlation.Some? && e.correlation.value < t.maxCorrelation, Correlation);
    r := GateResult(failed == [], if failed == [] then Some(Live) else None, passed, failed, []);
  }

  /** Leaving probation only needs readable evidence, and leads back to paper. */
  method EvaluateProbation(e: PaperRun) returns (r: GateResult)
    ensures r.allowed <==> e.problems == []
    ensures r.target == if r.allowed then Some(Paper) else None
  {
    r := REFUSED;
    if e.problems != [] {
      return r.(problems := e.problems);
    }
    r := GateResult(true, Some(Paper), [BackToPaper], [], []);
  }

  // ------------------------------------------------------------------
  // When a rung opens
  // ------------------------------------------------------------------

  /** What the server finds, read straight off the artifacts and the journal, lets the sleeve up a rung. */
  ghost predicate Opens(table: map<int, Artifact>, s: Sleeve, ids: seq<int>, journal: Journal, first: int, last: int,
                        correlationId: Option<int>, t: Thresholds)
  {
    match s.state
    case Candidate =>
      AllCitable(table, s, ids) && exists a :: Latest(a, Cited(table, ids)) && ClearsPaperBar(a.payload, t)
    case Paper =>
      && Readable(journal) && CorrelationCitable(table, s, correlationId)
      && exists m :: PaperFigures.Measures(PaperQuery(s, first, last), journal.rows, PairedRows(journal), m)
                     && ClearsLiveBar(Days(first, last), m, journal.complete,
                                      table[correlationId.value].payload.maxCorrelation, t)
    case Probation => Readable(journal) && (correlationId.Some? ==> CorrelationCitable(table, s, correlationId))
    case _ => false
  }

  /** From candidate, spelled out: something is cited, every id names a stored walk-forward run of this very
      strategy, symbol and (if the sleeve has one) version, and the first of the most recent of them reports a
      deflated Sharpe, a trade count and, if required, a positive return that reach the bar. */
  lemma CandidateOpensInFull(table: map<int, Artifact>, s: Sleeve, ids: seq<int>, journal: Journal, first: int, last: int,
                             correlationId: Option<int>, t: Thresholds)
    requires s.state == Candidate
    ensures Opens(table, s, ids, journal, first, last, correlationId, t) <==>
              && |ids| > 0
              && (forall i :: 0 <= i < |ids| ==>
                    && ids[i] in table && table[ids[i]].kind == "walk_forward" && table[ids[i]].strategyId == s.strategyId
                    && Text.Upper(table[ids[i]].symbol) == Text.Upper(s.symbol)
                    && (s.strategyVersion == "" || table[ids[i]].strategyVersion == s.strategyVersion))
              && exists i :: 0 <= i < |ids| && IsNewest(table, ids, i) && PassesPaper(table[ids[i]].payload, t)
  {
    if AllCitable(table, s, ids) {
      var cited := Cited(table, ids);
      forall i | 0 <= i < |ids| ensures IsNewest(table, ids, i) <==> LatestAt(table[ids[i]], cited, i) {
        NewestIsLatest(table, ids, i);
      }
      if a :| Latest(a, cited) && ClearsPaperBar(a.payload, t) {
        var i :| LatestAt(a, cited, i);
        assert IsNewest(table, ids, i) && PassesPaper(table[ids[i]].payload, t);
      }
      if i :| 0 <= i < |ids| && IsNewest(table, ids, i) && PassesPaper(table[ids[i]].payload, t) {
        assert LatestAt(table[ids[i]], cited, i);
        assert Latest(table[ids[i]], cited) && ClearsPaperBar(table[ids[i]].payload, t);
      }
    }
  }

  lemma NewestIsLatest(table: map<int, Artifact>, ids: seq<int>, i: int)
    requires 0 <= i < |ids| && forall j :: 0 <= j < |ids| ==> ids[j] in table
    ensures IsNewest(table, ids, i) <==> LatestAt(table[ids[i]], Cited(table, ids), i)
  {
    var cited := Cited(table, ids);
    assert |cited| == |ids| && forall j :: 0 <= j < |ids| ==> cited[j] == table[ids[j]];
    if LatestAt(table[ids[i]], cited, i) {
      forall j | 0 <= j < |ids|
        ensures if j < i then table[ids[j]].createdAt < table[ids[i]].createdAt
                else table[ids[j]].createdAt <= table[ids[i]].createdAt
      {
        assert cited[j] == table[ids[j]];
      }
    }
  }

  /** No cited artifact is newer than the `i`th, and none before it as new. */
  ghost predicate IsNewest(table: map<int, Artifact>, ids: seq<int>, i: int)
    requires 0 <= i < |ids| && forall j :: 0 <= j < |ids| ==> ids[j] in table
  {
    forall j :: 0 <= j < |ids| ==>
      if j < i then table[ids[j]].createdAt < table[ids[i]].createdAt else table[ids[j]].createdAt <= table[ids[i]].createdAt
  }

  ghost predicate PassesPaper(p: Payload, t: Thresholds) {
    && p.deflatedSharpe.Some? && p.deflatedSharpe.value >= t.minDeflatedSharpe
    && p.trades.Some? && p.trades.value >= t.minTrades
    && (t.requirePositiveReturn ==> p.returnPct.Some? && p.returnPct.value > 0.0)
  }

  /** From paper, spelled out, with the one set of figures the two reads give. */
  lemma PaperOpensInFull(table: map<int, Artifact>, s: Sleeve, ids: seq<int>, journal: Journal, first: int, last: int,
                         correlationId: Option<int>, t: Thresholds, m: PaperFigures.Figures)
    requires s.state == Paper
    requires PaperFigures.Measures(
               PaperFigures.Query(s.strategyId, s.strategyVersion, s.symbol, s.accountId, first, last),
               journal.rows, if journal.rowsReadable then journal.rows else [], m)
    ensures Opens(table, s, ids, journal, first, last, correlationId, t) <==>
              && journal.metricsReadable && !journal.pairingFails && journal.complete.Some?
              && Correlated(table, s, correlationId)
              && (if last <= first then 0.0 else (last - first) as real / 86400.0) >= t.minPaperDays
              && m.orders as real >= t.minPaperOrders && m.fills as real >= t.minPaperFills
              && (t.requireMeasuredCosts ==> m.shortfall.Some?)
              && (t.requireCompleteJournal ==> journal.complete.value)
              && (t.requireNonNegativePnl ==> m.realizedTotal >= m.fees)
              && var correlation := table[correlationId.value].payload.maxCorrelation;
                 correlation.Some? && correlation.value < t.maxCorrelation
  {
    PaperOpensOn(table, s, ids, journal, first, last, correlationId, t, m);
  }

  /** The correlation artifact named is a stored one of this very sleeve. */
  ghost predicate Correlated(table: map<int, Artifact>, s: Sleeve, id: Option<int>) {
    && id.Some? && id.value in table
    && table[id.value].kind == "portfolio_correlation" && table[id.value].strategyId == s.strategyId
    && Text.Upper(table[id.value].symbol) == Text.Upper(s.symbol)
    && (s.strategyVersion == "" || table[id.value].strategyVersion == s.strategyVersion)
  }

  /** From anywhere else: probation needs readable evidence and no correlation artifact of another sleeve;
      nothing else has a rung. */
  lemma OtherwiseOpensInFull(table: map<int, Artifact>, s: Sleeve, ids: seq<int>, journal: Journal, first: int, last: int,
                             correlationId: Option<int>, t: Thresholds)
    requires s.state != Candidate && s.state != Paper
    ensures Opens(table, s, ids, journal, first, last, correlationId, t) <==>
              && s.state == Probation
              && journal.metricsReadable && !journal.pairingFails && journal.complete.Some?
              && (correlationId.Some? ==> Correlated(table, s, correlationId))
  {
  }

  // ------------------------------------------------------------------
  // When the rows cannot be read
  // ------------------------------------------------------------------

  /** Everything the rung from paper asks for, apart from profit. */
  ghost predicate ClearsAllButProfit(table: map<int, Artifact>, s: Sleeve, journal: Journal, first: int, last: int,
                                     correlationId: Option<int>, t: Thresholds, m: PaperFigures.Figures)
  {
    && Readable(journal) && CorrelationCitable(table, s, correlationId)
    && ClearsOtherBars(Days(first, last), m, journal.complete, table[correlationId.value].payload.maxCorrelation, t)
  }

  /** From paper, the rung opens exactly when the evidence can be gathered and its one set of figures clears
      the bar. */
  lemma PaperOpensOn(table: map<int, Artifact>, s: Sleeve, ids: seq<int>, journal: Journal, first: int, last: int,
                     correlationId: Option<int>, t: Thresholds, m: PaperFigures.Figures)
    requires s.state == Paper
    requires PaperFigures.Measures(PaperQuery(s, first, last), journal.rows, PairedRows(journal), m)
    ensures Opens(table, s, ids, journal, first, last, correlationId, t) <==>
              && ClearsAllButProfit(table, s, journal, first, last, correlationId, t, m)
              && ClearsProfitBar(m.realizedTotal, m.fees, t)
  {
    var q := PaperQuery(s, first, last);
    forall n | PaperFigures.Measures(q, journal.rows, PairedRows(journal), n) ensures n == m {
      PaperFigures.FiguresUnique(q, journal.rows, PairedRows(journal), m, n);
    }
  }

  /** The verdict when the read of the rows fails: profit counts as zero. */
  lemma FailedReadOpensOn(table: map<int, Artifact>, s: Sleeve, ids: seq<int>, journal: Journal, first: int, last: int,
                          correlationId: Option<int>, t: Thresholds, m: PaperFigures.Figures)
    requires s.state == Paper && !journal.rowsReadable
    requires PaperFigures.Measures(PaperQuery(s, first, last), journal.rows, journal.rows, m)
    ensures Opens(table, s, ids, journal, first, last, correlationId, t) <==>
              && ClearsAllButProfit(table, s, journal, first, last, correlationId, t, m)
              && ClearsProfitBar(0.0, m.fees, t)
  {
    PaperFigures.NothingPaired(PaperQuery(s, first, last), journal.rows, m);
    PaperOpensOn(table, s, ids, journal, first, last, correlationId, t, m.(realizedTotal := 0.0));
  }

  /** The verdict the rows call for, read or not. */
  lemma RowsCallFor(table: map<int, Artifact>, s: Sleeve, ids: seq<int>, journal: Journal, first: int, last: int,
                    correlationId: Option<int>, t: Thresholds, m: PaperFigures.Figures)
    requires s.state == Paper
    requires PaperFigures.Measures(PaperQuery(s, first, last), journal.rows, journal.rows, m)
    ensures Opens(table, s, ids, journal.(rowsReadable := true), first, last, correlationId, t) <==>
              && ClearsAllButProfit(table, s, journal, first, last, correlationId, t, m)
              && ClearsProfitBar(m.realizedTotal, m.fees, t)
  {
    PaperOpensOn(table, s, ids, journal.(rowsReadable := true), first, last, correlationId, t, m);
  }

  lemma SameAnswerIff(asRead: bool, called: bool, rest: bool, total: real, fees: real, t: Thresholds)
    requires asRead <==> rest && ClearsProfitBar(0.0, fees, t)
    requires called <==> rest && ClearsProfitBar(total, fees, t)
    ensures (asRead <==> called) <==> !rest || !t.requireNonNegativePnl || (total >= fees <==> 0.0 >= fees)
  {
  }

  /** The verdict from paper is the one the sleeve's rows call for exactly when the rows could be read, or
      profit is not required, or something else refuses anyway, or a profit of nothing gets the same answer.
      `m` holds the figures of the rows. */
  lemma VerdictIsTheRowsIff(table: map<int, Artifact>, s: Sleeve, ids: seq<int>, journal: Journal, first: int, last: int,
                            correlationId: Option<int>, t: Thresholds, m: PaperFigures.Figures)
    requires s.state == Paper
    requires PaperFigures.Measures(PaperQuery(s, first, last), journal.rows, journal.rows, m)
    ensures (Opens(table, s, ids, journal, first, last, correlationId, t)
             <==> Opens(table, s, ids, journal.(rowsReadable := true), first, last, correlationId, t))
            <==>
              || journal.rowsReadable
              || !ClearsAllButProfit(table, s, journal, first, last, correlationId, t, m)
              || !t.requireNonNegativePnl || (m.realizedTotal >= m.fees <==> 0.0 >= m.fees)
  {
    if journal.rowsReadable {
      assert journal.(rowsReadable := true) == journal;
    } else {
      FailedReadOpensOn(table, s, ids, journal, first, last, correlationId, t, m);
      RowsCallFor(table, s, ids, journal, first, last, correlationId, t, m);
      SameAnswerIff(Opens(table, s, ids, journal, first, last, correlationId, t),
                    Opens(table, s, ids, journal.(rowsReadable := true), first, last, correlationId, t),
                    ClearsAllButProfit(table, s, journal, first, last, correlationId, t, m),
                    m.realizedTotal, m.fees, t);
    }
  }

  /** The bar each step sets unless configured otherwise. */
  const DEFAULT_THRESHOLDS :=
    Thresholds(0.95, 30.0, true, 20.0, 20.0, 10.0, true, true, 0.7, true)

  /** Forty days of forty fills that lost a thousand: refused on its rows, and let through to live when the
      second read of the very same rows fails. */
  lemma LosingSleeveOpens(table: map<int, Artifact>, s: Sleeve, first: int, id: int)
    requires s.state == Paper && id in table && InScope(table[id], s, PORTFOLIO_CORRELATION)
    requires table[id].payload.maxCorrelation == Some(0.0)
    ensures var last := first + 40 * SECONDS_PER_DAY;
            var journal := Journal(PaperFigures.LosingRun(PaperQuery(s, first, last), 20), true, false, false, Some(true));
            && Opens(table, s, [], journal, first, last, Some(id), DEFAULT_THRESHOLDS)
            && !Opens(table, s, [], journal.(rowsReadable := true), first, last, Some(id), DEFAULT_THRESHOLDS)
  {
    var last := first + 40 * SECONDS_PER_DAY;
    var q := PaperQuery(s, first, last);
    var journal := Journal(PaperFigures.LosingRun(q, 20), true, false, false, Some(true));
    var m := PaperFigures.TwentyLosses(q);
    FortyDays(table, s, journal, first, last, id, m);
    FailedReadOpensOn(table, s, [], journal, first, last, Some(id), DEFAULT_THRESHOLDS, m);
    RowsCallFor(table, s, [], journal, first, last, Some(id), DEFAULT_THRESHOLDS, m);
  }

  lemma FortyDays(table: map<int, Artifact>, s: Sleeve, journal: Journal, first: int, last: int, id: int,
                  m: PaperFigures.Figures)
    requires id in table && InScope(table[id], s, PORTFOLIO_CORRELATION) && table[id].payload.maxCorrelation == Some(0.0)
    requires journal.metricsReadable && !journal.pairingFails && journal.complete == Some(true)
    requires last == first + 40 * SECONDS_PER_DAY && m.orders == 40 && m.fills == 40 && m.shortfall.Some?
    ensures ClearsAllButProfit(table, s, journal, first, last, Some(id), DEFAULT_THRESHOLDS, m)
  {
    assert Days(first, last) == 40.0;
  }
}
