// Which broker an order may reach (libs/lifecycle/src/lifecycle/routing.py) and the
// advisory pre-flight gate (libs/lifecycle/src/lifecycle/service.py, may_open).
module Routing {
  import opened Common
  import opened Lifecycle

  datatype Intent = EntryOrder | ReduceOnly

  datatype Route = Blocked | Shadow | SimulatedBroker | LiveBroker

  predicate PlacesOrder(r: Route) { r == SimulatedBroker || r == LiveBroker }

  function PositionRoute(environment: Environment): Route {
    match environment
    case LivePosition => LiveBroker
    case SimulatedPosition => SimulatedBroker
    case NoPosition => Shadow
  }

  function ResolveRoute(state: State, intent: Intent, liveMode: bool, environment: Environment,
                        halted: bool, origin: Origin): Route
  {
    var liveAllowed := liveMode && (origin != Challenger || intent == ReduceOnly);
    if intent == ReduceOnly then PositionRoute(environment)
    else if halted then Blocked
    else
      match state
      case Candidate => Shadow
      case Paper => SimulatedBroker
      case Live => if liveAllowed then LiveBroker else Blocked
      case _ => Blocked
  }

  /** Halt latches per environment; live mode is the operator's switch. */
  datatype Flags = Flags(liveMode: bool, paperHalted: bool, liveHalted: bool)

  /** The latch that covers a sleeve's entries. */
  function HaltFor(state: State, f: Flags): bool { if state == Live then f.liveHalted else f.paperHalted }

  /** `may_open` for a roster lookup. */
  function MayOpen(row: Option<Sleeve>, f: Flags): bool {
    if row.None? then false
    else if row.value.state != Paper && row.value.state != Live then false
    else if row.value.state == Live && !f.liveMode then false
    else !HaltFor(row.value.state, f)
  }

  function RouteOf(row: Sleeve, intent: Intent, f: Flags): Route {
    ResolveRoute(row.state, intent, f.liveMode, row.environment, HaltFor(row.state, f), row.origin)
  }

  /** In every reachable database the advisory gate permits a sleeve exactly when the router would
      place its entry, and that entry is live only for a live, non-challenger sleeve with live mode
      on and no halt. */
  lemma {:induction false} GateAgreesWithRouter(es: seq<Event>, id: nat, f: Flags)
    requires id < |Run(es).rows|
    ensures var row := Run(es).rows[id];
            && (MayOpen(Some(row), f) <==> PlacesOrder(RouteOf(row, EntryOrder, f)))
            && (RouteOf(row, EntryOrder, f) == LiveBroker <==>
                  row.state == Live && row.origin != Challenger && f.liveMode && !f.liveHalted)
  {
    NoLiveChallenger(es);
    assert RowBarred(Run(es), id);
  }

  /** Off the reachable states they disagree: the gate would admit a live challenger. */
  lemma GateWouldAdmitLiveChallenger(row: Sleeve)
    requires row.state == Live && row.origin == Challenger
    ensures MayOpen(Some(row), Flags(true, false, false))
    ensures !PlacesOrder(RouteOf(row, EntryOrder, Flags(true, false, false)))
  {
  }

  /** An exit is never blocked: whatever the halts, the switch, the state or the origin, it goes to
      the environment of the latest log entry into paper or live, and nowhere if there was none. */
  lemma ExitFollowsTheLog(es: seq<Event>, id: nat, f: Flags)
    requires ClientRun(es) && id < |Run(es).rows|
    ensures RouteOf(Run(es).rows[id], ReduceOnly, f) == PositionRoute(LastEnvironment(Of(Run(es).log, id)))
    ensures RouteOf(Run(es).rows[id], ReduceOnly, f) != Blocked
  {
    NoLostUpdate(es);
    assert RowOk(Run(es), id);
    var h := Of(Run(es).log, id);
    assert h[..|h|] == h;
  }

  /** `k` is the latest entry into paper or live. */
  ghost predicate LatestEntry(h: seq<Entry>, k: int) {
    && 0 <= k < |h| && (h[k].toState == Paper || h[k].toState == Live)
    && forall j :: k < j < |h| ==> h[j].toState != Paper && h[j].toState != Live
  }

  /** Where an exit goes, read off the log alone: to the live broker exactly when the latest entry into paper
      or live is into live, to the simulator exactly when it is into paper, and nowhere when there is none. */
  lemma ExitRouteIff(es: seq<Event>, id: nat, f: Flags)
    requires ClientRun(es) && id < |Run(es).rows|
    ensures var h, route := Of(Run(es).log, id), RouteOf(Run(es).rows[id], ReduceOnly, f);
            && (route == LiveBroker <==> exists k :: LatestEntry(h, k) && h[k].toState == Live)
            && (route == SimulatedBroker <==> exists k :: LatestEntry(h, k) && h[k].toState == Paper)
            && (route == Shadow <==> forall k :: 0 <= k < |h| ==> h[k].toState != Paper && h[k].toState != Live)
  {
    var h := Of(Run(es).log, id);
    ExitFollowsTheLog(es, id, f);
    if exists k :: LatestEntry(h, k) {
      var k :| LatestEntry(h, k);
      LastEnvironmentIs(h, k);
      forall j | LatestEntry(h, j) ensures j == k { }
    } else {
      NoLatestEntry(h);
      LastEnvironmentNone(h);
    }
  }

  lemma {:induction false} NoLatestEntry(h: seq<Entry>)
    requires forall k :: !LatestEntry(h, k)
    ensures forall k :: 0 <= k < |h| ==> h[k].toState != Paper && h[k].toState != Live
  {
    if h != [] {
      var n := |h| - 1;
      assert !LatestEntry(h, n);
      forall k ensures !LatestEntry(h[..n], k) {
        assert !LatestEntry(h, k);
      }
      NoLatestEntry(h[..n]);
    }
  }

  /** Where an entry goes, state by state.  A paper sleeve, and a candidate, is stopped by the paper halt, a live
      one by the live halt, live mode being off, or its origin. */
  lemma EntryRouteIs(row: Sleeve, f: Flags)
    ensures var route := RouteOf(row, EntryOrder, f);
            match row.state
            case Candidate => route == if f.paperHalted then Blocked else Shadow
            case Paper => route == if f.paperHalted then Blocked else SimulatedBroker
            case Live => route == if f.liveHalted || !f.liveMode || row.origin == Challenger then Blocked else LiveBroker
            case Probation => route == Blocked
            case Retired => route == Blocked
            case Unknown(_) => route == Blocked
  {
  }

  /** What the advisory gate permits: a paper sleeve without the paper halt, a live one with live mode on and
      without the live halt, and nothing else. */
  lemma GateIs(row: Option<Sleeve>, f: Flags)
    ensures MayOpen(row, f) <==>
              row.Some? && ((row.value.state == Paper && !f.paperHalted)
                            || (row.value.state == Live && f.liveMode && !f.liveHalted))
  {
  }

  /** The fold, spelled out: the latest entry into paper or live decides. */
  lemma {:induction false} LastEnvironmentIs(h: seq<Entry>, k: nat)
    requires k < |h| && (h[k].toState == Paper || h[k].toState == Live)
    requires forall j :: k < j < |h| ==> h[j].toState != Paper && h[j].toState != Live
    ensures LastEnvironment(h) == if h[k].toState == Live then LivePosition else SimulatedPosition
  {
    if k < |h| - 1 {
      LastEnvironmentIs(h[..|h| - 1], k);
    }
  }

  lemma {:induction false} LastEnvironmentNone(h: seq<Entry>)
    requires forall j :: 0 <= j < |h| ==> h[j].toState != Paper && h[j].toState != Live
    ensures LastEnvironment(h) == NoPosition
  {
    if h != [] {
      LastEnvironmentNone(h[..|h| - 1]);
    }
  }
}
