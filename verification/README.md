# A verified model of the trading stack's record keeping

The repository runs an autonomous trading stack. What it must get right is its record keeping: who may
trade, where an order goes, what was earned, how many day trades are left, when entries are halted, and
what was known when. This project models those parts in Dafny and proves what they keep over whole runs.

| File | Models |
|---|---|
| `Lifecycle.dfy`, `Service.dfy`, `Audit.dfy` | the lifecycle authority: an optimistically locked roster with an append-only log, as atomic steps by any number of clients with stale snapshots, the read-decide-write `promote` and `demote` on top, and runs of those |
| `Evidence.dfy`, `PaperFigures.dfy`, `Routing.dfy` | the evidence and gates behind a promotion, and what a paper run is measured to have done; the router and the advisory gate |
| `RoundTrips.dfy`, `Archive.dfy` | FIFO pairing of fills into round trips, per scope and over a whole archive; the journal's net position |
| `PaperBroker.dfy`, `Ledgers.dfy` | the average-cost paper broker, and the theorem that ties the two ledgers together |
| `DayTrades.dfy` | the pattern-day-trader guard of FINRA Rule 4210(f)(8)(B) over a sliding business-day window |
| `Latch.dfy`, `Positions.dfy` | the durable reconciliation halt, the in-memory counter beside it, and the position comparison |
| `TokenBucket.dfy` | the per-key rate limiter |
| `Bars.dfy` | the bitemporal bar archive |
| `Indicators.dfy`, `Performance.dfy`, `Campaign.dfy` | EMA, RSI and ADX; drawdown; the two-pass challenger campaign |
| `Common.dfy` | options, ASCII text, sums, sorting |

Code that changes state step by step is a class or a method with loops, proved against a specification
function or predicate; what the program promises is then proved about that specification, over all runs.
`dafny verify dfyconfig.toml` checks everything.

## Where the code and its descriptions differ

The model follows the code.

- `transition` takes an explicit expected version, which can pair a stale snapshot with a fresh version.
  `NoLostUpdate` is about the default; `ExplicitVersionKeepsDbIff` says exactly when the override is safe.
- `demote` does not check its target. Claims that need it say "a target other than live".
- Entering paper always sets the position environment to simulated, even coming down from live, so exit
  routing is stated in terms of the log.
- "Three probations retires it" is not in the code, so it is not in the model.
- `close_position` does not check cash. `CashStaysPositive` is about the orders that are checked;
  `NeverOverdrawnIff` has the exact condition over whole histories, and `UncappedBuyBackOverdraws` a run that
  overdraws.
- Deduplication by payload drops a bar that returns to an earlier value, so `bars_as_of` is specified over
  stored observations; `FetchIsReflectedIff` says when a fetch is reflected.
- RSI of a flat series is 100, so mirroring it does not give 0; `MirrorIff` has the exact condition.
- The module describes a day trade as buying and selling in one session, but `record_open` keeps the first
  day of a position that is already open, so adding to it and selling it the same day goes uncounted.
  `CountIsExactIff` has the exact condition and `AddsEscapeTheCount` shows that no budget survives without it.
- A check reads and writes in separate transactions. `HaltedIff` is about serial calls;
  `StaleCheckLosesHaltIff` and `StaleCheckRehaltsIff` say when an interleaved one loses a halt or undoes a clear.
- The evidence for leaving paper means to refuse when its profit cannot be read, but the read of the rows to
  pair logs its failure and returns none, so profit counts as zero and no problem is noted.
  `VerdictIsTheRowsIff` has the exact condition and `LosingSleeveOpens` a losing sleeve that gets through.
- Orders, fills and fees cover the whole evidence window, the realised total only the first 5000 rows of it.
  `WindowProfitIff` and `WindowProfit` say when the total is the window's.
- Pairing falls back on the ordered quantity of a row whose filled quantity is zero; the journal's net position
  does not. `AgreeThroughoutIff` and `WrittenReadAlikeIff` have the exact conditions.
- The log entry of an adoption can be written by an ordinary transition too (`MarkCanBeForged`), so
  `LiveNeedsAdoption` is about the call, not the entry.
- A threshold of zero or less blocks in memory before anything halts durably; `MemoryBlockImpliesHaltIff`
  has the exact condition.

## Model

| member | source | states |
|---|---|---|
| `Lifecycle.NoLostUpdate` | libs/lifecycle/src/lifecycle/store.py:349-533 | In every interleaving of register, transition and adopt by any number of clients holding arbitrarily stale snapshots, each log is the gapless chain 1..version from none to candidate, each entry starts where the previous ended, and the row (state, probation count, position environment) is what its log folds to |
| `Lifecycle.MomentOk` | libs/lifecycle/src/lifecycle/store.py:349-533 | The same holds at every moment of such a run, not only at its end |
| `Lifecycle.StepKeepsDb` | libs/lifecycle/src/lifecycle/store.py:379-405 | One committed step keeps every log a faithful chain whenever a transition's snapshot describes the log prefix of its own version; re-registration and adoption always do, since they read under lock |
| `Lifecycle.ReadStaysGenuine` | libs/lifecycle/src/lifecycle/store.py:230-258 | A snapshot read at any earlier moment keeps describing the log prefix of its version, whatever commits later |
| `Lifecycle.LogGrows` | libs/lifecycle/src/lifecycle/store.py:429-450 | Between any two moments of any run a sleeve's log only grows, and its row changes only when its log does |
| `Lifecycle.CommitMeansUnchanged` | libs/lifecycle/src/lifecycle/store.py:502-527 | A transition commits only if its sleeve's row and log are those of the moment the snapshot was read, so no intervening commit is overwritten |
| `Lifecycle.ExplicitVersionKeepsDbIff` | libs/lifecycle/src/lifecycle/store.py:460-479 | With an explicit expected version a commit keeps the log faithful if and only if the snapshot agrees with the row on state, probation count and (unless entering paper or live) position environment |
| `Lifecycle.ExplicitVersionCanBreakTheLog` | libs/lifecycle/src/lifecycle/store.py:460-474 | A concrete run: a stale snapshot with a fresh explicit version commits, and the log claims a move out of candidate while the sleeve was in paper |
| `Lifecycle.NoLiveChallenger` | libs/lifecycle/src/lifecycle/store.py:481-498 | No run by arbitrary callers, forged snapshots and explicit versions included, reaches a row with origin challenger that is live, or that has ever been live |
| `Lifecycle.LiveNeedsAdoption` | libs/lifecycle/src/lifecycle/store.py:555-607 | Once a sleeve has been a challenger, every later entry of its log into live comes after a call of adopt_challenger for it, made since then by a named person and committed, whatever callers forge and across retirement and re-registration |
| `Lifecycle.OnlyAdoptionClears` | libs/lifecycle/src/lifecycle/store.py:555-607 | From then on its origin is human if and only if such a call was made |
| `Lifecycle.AdoptionIsLogged` | libs/lifecycle/src/lifecycle/store.py:598-603 | Such a call stays in the log for good, at the place it was written, as an entry from the state to itself by that person |
| `Lifecycle.MarkCanBeForged` | libs/lifecycle/src/lifecycle/store.py:452-527 | The entry alone proves nothing: an ordinary transition of a challenger to its own state, with the right reason, leaves the same mark and the origin unchanged |
| `Lifecycle.Find` | libs/lifecycle/src/lifecycle/store.py:247-258 | The lookup returns a row with the identity asked for, and returns nothing only if no row has it |
| `Lifecycle.FirstRegistration` | libs/lifecycle/src/lifecycle/store.py:406-427 | The row and the log entry of a first registration, field by field |
| `Lifecycle.NextRegistration` | libs/lifecycle/src/lifecycle/store.py:382-405 | Registering again: the whole row and entry of a return from retirement, origin kept; nothing otherwise |
| `Lifecycle.RegisteredAsChallenger` | libs/lifecycle/src/lifecycle/store.py:406-421 | A sleeve first registered as a challenger is one right after, in every run |
| `Lifecycle.TransitionInFull` | libs/lifecycle/src/lifecycle/store.py:452-527 | Exactly when a transition commits, with which error otherwise, and the whole row and entry it writes |
| `Lifecycle.AdoptionInFull` | libs/lifecycle/src/lifecycle/store.py:555-607 | Exactly when an adoption is refused and why, and the whole row and entry it writes |
| `Lifecycle.ProbationsCounted` | libs/lifecycle/src/lifecycle/store.py:475-477 | The probation count is the number of entries into probation from another state |
| `Roster.RunsAreCounted` | libs/lifecycle/src/lifecycle/store.py:349-533 | On every run whatever, versions equal log lengths and there is one row per strategy, symbol and account |
| `Roster.IdentityStays` | libs/lifecycle/src/lifecycle/store.py:500-519 | No commit changes a row's identity or shortens its log, and a log of unchanged length means an unchanged row |
| `Roster.LostRaceIff` | libs/lifecycle/src/lifecycle/store.py:500-523 | A write decided on a read row meets a moved version if and only if someone committed to that sleeve in between |
| `Roster.AttemptOutcome` | libs/lifecycle/src/lifecycle/store.py:472-527 | Such a write lands as exactly one log entry on the row it was decided on, or raises; a target other than live raises exactly when the race was lost |
| `Roster.FoundAgain` | libs/lifecycle/src/lifecycle/service.py:205-211 | A registered sleeve is found again, at the same id, after anything else commits |
| `Service.LifecycleStore.Register` | libs/lifecycle/src/lifecycle/store.py:349-427 | A first registration adds a candidate carrying the caller's own origin, strategy version and asset class; a retired sleeve returns to candidate keeping its origin and probation count; an active one is returned untouched |
| `Service.LifecycleStore.Transition` | libs/lifecycle/src/lifecycle/store.py:452-533 | Performs the transition step or raises the error the row and the expected version call for |
| `Service.LifecycleStore.AdoptChallenger` | libs/lifecycle/src/lifecycle/store.py:555-607 | Performs the adoption step or raises; a returned sleeve has origin human and its state unchanged |
| `Service.LifecycleService.Attempt` | libs/lifecycle/src/lifecycle/service.py:285-297 | Read, others commit anything, write: it succeeds if and only if the target is known, nobody committed to the sleeve in between and it is no challenger headed for live; it lands on what was read, and made among client calls it is one more client call |
| `Service.LifecycleService.Retry` | libs/lifecycle/src/lifecycle/service.py:207-212 | The second try accepts a re-read row that is already in the target state without writing, and otherwise lands one entry on the re-read row or loses to a commit made after the re-read; the run stays one of client calls |
| `Service.LifecycleService.Demote` | libs/lifecycle/src/lifecycle/service.py:188-212 | When it returns, the found sleeve is in the target state at that moment, by the next log entry unless the first write was contended; a target other than live is lost only if others committed to the sleeve in both gaps; the run stays one of client calls |
| `Service.LifecycleService.Promote` | libs/lifecycle/src/lifecycle/service.py:217-297 | Succeeds if and only if the sleeve is registered, its rung opens on what the reads return, nobody committed to it since its read and it is no challenger headed for live; it then moves one rung by one entry citing a recorded snapshot that clears the gates. A refusal before the write changes nothing; a lost race or the live barrier leaves one more snapshot and exactly the log of the gap. No snapshot ever changes, and the run stays one of client calls |
| `Service.LifecycleService.Decide` | libs/lifecycle/src/lifecycle/service.py:252-283 | Lets a sleeve through if and only if its rung opens: from candidate on cited in-scope walk-forward artifacts whose latest clears the bar, from paper on readable counts and completeness, an in-scope correlation artifact and figures, as the two reads returned them, that clear the bar, from probation on evidence without problems |
| `Service.LadderIs` | libs/lifecycle/src/lifecycle/service.py:41-41 | The ladder: candidate and probation to paper, paper to live, nothing else |
| `Service.StoreStaysFaithful` | libs/lifecycle/src/lifecycle/store.py:349-533 | A store written only by client calls keeps every log the faithful chain of NoLostUpdate |
| `Roster.WriteExtends` | libs/lifecycle/src/lifecycle/service.py:205-212 | A write on top of what was read before a gap of client calls makes the run one client call longer |
| `Roster.WriterOf` | libs/lifecycle/src/lifecycle/store.py:429-450 | Every entry of a sleeve's log was written by some call of the run, at its place |
| `Audit.LiveIsBacked` | libs/lifecycle/src/lifecycle/service.py:188-297 | After any run of service calls among any others, every log entry into live that the service wrote either cites a recorded snapshot that supports it, from paper, or comes from a demotion told to go live |
| `Audit.Session.Promote` | libs/lifecycle/src/lifecycle/service.py:217-297 | Every promotion that reaches the write is accounted for, as such, after the calls of its gap |
| `Audit.Session.Demote` | libs/lifecycle/src/lifecycle/service.py:188-212 | Every write of a demotion is accounted for, as such, and nothing else of its call is |
| `Evidence.DeriveBacktest` | libs/lifecycle/src/lifecycle/evidence.py:100-184 | Free of problems if and only if something is cited and every cited id is an in-scope walk-forward artifact; then the trail is exactly the cited artifacts, the figures are those of the first of the most recent, and the window is exactly as wide as they make it |
| `Evidence.DerivePaper` | libs/lifecycle/src/lifecycle/evidence.py:187-323 | Free of problems if and only if the counts and the completeness can be read, pairing does not fail, and the cited correlation artifact, if any, is in scope; counts and fees are then those of exactly this sleeve version's paper rows in the window, profit that of the rows the second read returned, none if it failed; and the correlation comes only from that artifact |
| `Evidence.VerdictIsTheRowsIff` | libs/journal/src/journal/store.py:1054-1056 | The verdict from paper is the one the sleeve's rows call for if and only if the second read succeeded, or profit is not required, or something else refuses anyway, or a profit of zero gets the same answer |
| `Evidence.PaperOpensOn` | libs/lifecycle/src/lifecycle/gates.py:135-206 | From paper the rung opens exactly on evidence that can be gathered and one set of figures that clears the profit bar and every other |
| `Evidence.LosingSleeveOpens` | libs/lifecycle/src/lifecycle/evidence.py:236-253 | A concrete input on the default thresholds: forty days, forty fills, a thousand lost; refused on its rows, let through when the second read of them fails |
| `Evidence.CandidateOpensInFull` | libs/lifecycle/src/lifecycle/evidence.py:73-184 | From candidate, spelled out: kinds, strategy, symbol and version of every cited run, and the three figures of the first of the most recent |
| `Evidence.PaperOpensInFull` | libs/lifecycle/src/lifecycle/gates.py:135-206 | From paper, spelled out: readability, the correlation artifact's own kind and scope, days as seconds over 86400, and every bar |
| `Evidence.OtherwiseOpensInFull` | libs/lifecycle/src/lifecycle/service.py:300-313 | From probation, spelled out; no other state has a rung |
| `PaperFigures.Measure` | libs/journal/src/journal/store.py:802-904 | Orders, fills, fees and mean shortfall are those of the rows selected from the first read, and the realised total is what the round trips of the first page of those selected from the second report |
| `PaperFigures.SelectedOne` | libs/journal/src/journal/store.py:829-842 | A row counts exactly when it is a paper row of this strategy, version, symbol and account inside the window, ends included |
| `PaperFigures.OneMoreRow` | libs/journal/src/journal/store.py:869-904 | One more such row is one order more, one fill more if it filled, and its fees more |
| `PaperFigures.NoFigures` | libs/journal/src/journal/store.py:851-867 | No rows give no orders, fills, fees, shortfall or profit |
| `PaperFigures.MeanIs` | libs/journal/src/journal/store.py:897-899 | The mean shortfall, weighted back, is the sum of the shortfalls |
| `PaperFigures.OtherRowsDoNotCount` | libs/lifecycle/src/lifecycle/evidence.py:202-206 | Rows of other strategies, versions, symbols, environments, accounts or times change no figure, wherever they stand in the journal |
| `PaperFigures.PaperProfitIsCash` | libs/lifecycle/src/lifecycle/evidence.py:240-255 | The realised total the live gate reads is the cash the measured fills moved plus the cost of what is left open |
| `PaperFigures.FlatPaperProfit` | libs/lifecycle/src/lifecycle/evidence.py:240-255 | When the measured fills net to zero it is exactly the cash they brought in |
| `PaperFigures.WindowProfitIff` | libs/journal/src/journal/store.py:1015-1020 | When the page is flat, the total is the whole window's cash if and only if the rows beyond the page moved none |
| `PaperFigures.WindowProfit` | libs/journal/src/journal/store.py:982-982 | With no more rows in the window than one read returns, the total is the window's cash plus the cost of what it leaves open |
| `PaperFigures.PageAndBeyond` | libs/journal/src/journal/store.py:1015-1020 | Page and remainder are the whole window, and nothing remains if and only if the window holds no more rows than one read returns |
| `Evidence.LatestOf` | libs/lifecycle/src/lifecycle/evidence.py:148-150 | Returns the first of the most recent artifacts |
| `Evidence.Span` | libs/lifecycle/src/lifecycle/evidence.py:152-154 | The window is the least start and the greatest end of the artifacts |
| `Evidence.EvaluateToPaper` | libs/lifecycle/src/lifecycle/gates.py:91-132 | Allowed if and only if the evidence has no problems and clears all three bars; the gates listed as failed are exactly those required and not met |
| `Evidence.EvaluateToLive` | libs/lifecycle/src/lifecycle/gates.py:135-206 | Allowed if and only if the evidence has no problems and clears every live bar, the strict correlation bar included; the gates listed as failed are exactly those required and not met |
| `Evidence.EvaluateProbation` | libs/lifecycle/src/lifecycle/service.py:300-313 | Readable evidence is enough to leave probation, and only for paper |
| `Routing.GateAgreesWithRouter` | libs/lifecycle/src/lifecycle/service.py:88-138 | In every reachable database the advisory gate permits a sleeve if and only if the router places its entry, and that entry is live if and only if the sleeve is live, not a challenger, live mode is on and nothing is halted |
| `Routing.GateWouldAdmitLiveChallenger` | libs/lifecycle/src/lifecycle/routing.py:117-124 | Outside the reachable states the two disagree: the gate has no challenger check of its own |
| `Routing.ExitFollowsTheLog` | libs/lifecycle/src/lifecycle/routing.py:87-134 | After every client run a reduce-only order goes where the log's latest entry into paper or live says, and is never blocked, whatever the halts, the switch, the state or the origin |
| `Routing.ExitRouteIff` | libs/lifecycle/src/lifecycle/routing.py:87-134 | An exit goes to the live broker if and only if the log's latest entry into paper or live is into live, to the simulator if and only if it is into paper, nowhere if and only if there is none |
| `Routing.EntryRouteIs` | libs/lifecycle/src/lifecycle/routing.py:136-160 | Where an entry goes in every state, and which halt, switch or origin stops it |
| `Routing.GateIs` | libs/lifecycle/src/lifecycle/service.py:105-138 | What the advisory gate permits: paper without the paper halt, live with live mode and without the live halt |
| `Routing.LastEnvironmentIs` | libs/lifecycle/src/lifecycle/store.py:61-63 | The environment fold is decided by the latest entry into paper or live |
| `Routing.LastEnvironmentNone` | libs/lifecycle/src/lifecycle/store.py:61-63 | With no such entry the sleeve has no position environment |
| `RoundTrips.NetAgainst` | libs/attribution/src/attribution/roundtrips.py:97-117 | The inner loop consumes the open lots oldest first exactly as the recursive netting does |
| `RoundTrips.PairScope` | libs/attribution/src/attribution/roundtrips.py:86-126 | The nested loops compute the fold of the fills over a book of lots and trips |
| `RoundTrips.PairShape` | libs/attribution/src/attribution/roundtrips.py:84-126 | After every sequence of fills the open lots share one direction, have positive size no larger than their fill and stand in opening order; trips pair opposite sides and are cut first in, first out, never reaching behind an open lot |
| `RoundTrips.PairConservesValue` | libs/attribution/src/attribution/roundtrips.py:86-126 | Pairing conserves every valuation under which cutting, opening and splitting are neutral, for every sequence of fills |
| `RoundTrips.PairConserves` | libs/attribution/src/attribution/roundtrips.py:97-123 | Each fill's quantity equals what it gave as entry plus what it gave as exit plus what of it is still open |
| `RoundTrips.PairOpenQty` | libs/attribution/src/attribution/roundtrips.py:97-123 | The signed open quantity is the net of the fills |
| `RoundTrips.PairIdentity` | libs/attribution/src/attribution/models.py:62-71 | Realised gain equals the cash the fills moved plus the cost basis still open |
| `RoundTrips.FlatMeansEmpty` | libs/attribution/src/attribution/roundtrips.py:119-126 | The fills net to zero if and only if no lot is open |
| `RoundTrips.UsableTripsRealise` | libs/attribution/src/attribution/models.py:35-71 | With positive prices every trip has a realised figure and it is its signed gain |
| `RoundTrips.GainIsRealized` | libs/attribution/src/attribution/models.py:53-71 | The realised figure of a trip with usable fills is price move times quantity in the entry's direction |
| `Archive.GroupRows` | libs/attribution/src/attribution/roundtrips.py:57-73 | Rows are grouped by scope: every participating row lands in its own scope's list, in order, and the keys are remembered in order of arrival |
| `Archive.LegsOfOne` | libs/attribution/src/attribution/roundtrips.py:28-38 | What one row is to pairing: filled, priced, bought or sold, of positive quantity, the ordered one only where the filled is missing or zero |
| `Archive.ScopeIs` | libs/attribution/src/attribution/roundtrips.py:60-73 | The scope of one row, field by field |
| `Archive.PairGroup` | libs/attribution/src/attribution/roundtrips.py:83-126 | One group's trips are the pairing of its fills in time order |
| `Archive.PairRoundTrips` | libs/attribution/src/attribution/roundtrips.py:41-129 | The whole operation: group, sort, pair, sort by exit |
| `Archive.TripsStayInScope` | libs/attribution/src/attribution/roundtrips.py:41-129 | Both fills of every reported trip come from rows of the trip's own strategy, version, symbol, environment and account, on opposite sides, the entry not after the exit; trips come oldest exit first |
| `Archive.ScopesPartition` | libs/attribution/src/attribution/roundtrips.py:57-73 | Summing anything scope by scope counts each participating row exactly once |
| `Archive.ArchiveIdentity` | libs/attribution/src/attribution/roundtrips.py:41-129 | Across any number of scopes the realised total equals the cash all fills moved plus the basis of every lot left open |
| `Archive.SideTotals` | libs/journal/src/journal/store.py:929-970 | The per-side totals carry exactly the signed sum of the sleeve's filled rows |
| `Archive.NetPosition` | libs/journal/src/journal/store.py:929-970 | Net position is the signed sum of the sleeve's filled rows |
| `Archive.NetTermIs` | libs/journal/src/journal/store.py:946-970 | What one row is to the net position |
| `Archive.OpenResidualIsNetPosition` | libs/journal/src/journal/store.py:929-970 | What pairing leaves open, summed over a sleeve's strategy versions, is the position the journal reports whenever the two read every row alike |
| `Archive.OpenResidualIs` | libs/attribution/src/attribution/roundtrips.py:41-129 | For any rows at all, what pairing leaves open in a sleeve is the signed sum of the quantities it takes from the sleeve's rows |
| `Archive.ResidualLessNetPosition` | libs/journal/src/journal/store.py:929-970 | For any rows at all, the two differ by the sum of what each row is read for differently |
| `Archive.TermsAgreeIff` | libs/attribution/src/attribution/roundtrips.py:28-38 | A row counts the same in both if and only if: where pairing uses it, its symbol is upper-case and its filled quantity not zero; where pairing passes it over, the journal counts no filled quantity for it |
| `Archive.AgreeThroughoutIff` | libs/journal/src/journal/store.py:929-970 | The two agree after every row of an archive if and only if every row is read alike |
| `Archive.WrittenReadAlikeIff` | libs/journal/src/journal/store.py:751-793 | A filled row the journal writes is read alike if and only if its filled quantity is positive on a known side, or zero with no ordered quantity for pairing to fall back on |
| `Archive.UnfilledQuantityDiverges` | libs/journal/src/journal/store.py:751-793 | A concrete row: filled, ten ordered, zero filled; pairing opens ten and the journal reports zero |
| `PaperLedger.TradeIdentity` | libs/brokers/src/brokers/paper_broker.py:255-301 | A fill changes a position's cost basis by its cost plus what it earned, whether it opens, extends, reduces, closes or flips |
| `PaperLedger.FillIdentity` | libs/brokers/src/brokers/paper_broker.py:255-301 | Cash plus cost basis less realised P&L is the same after every fill |
| `PaperLedger.LedgerIdentity` | libs/brokers/src/brokers/paper_broker.py:255-301 | Over every history of fills on any symbols, cash plus the cost of what is held equals starting cash plus realised P&L, and no flat position is stored |
| `PaperLedger.ReplayTotals` | libs/brokers/src/brokers/paper_broker.py:255-301 | A position is the net of its symbol's fills and cash is the start plus what the fills moved |
| `PaperLedger.AverageWithinFills` | libs/brokers/src/brokers/paper_broker.py:264-300 | Over every history a position's average price lies between the cheapest and the dearest fill of its symbol |
| `PaperLedger.EquityIdentity` | libs/brokers/src/brokers/paper_broker.py:388-418 | Equity equals starting cash plus realised plus unrealised P&L whatever the marks |
| `PaperLedger.MarkIs` | libs/brokers/src/brokers/paper_broker.py:395-395 | A position is marked at its market price, at cost when that is missing or zero |
| `PaperLedger.CashStaysPositive` | libs/brokers/src/brokers/paper_broker.py:212-220 | Histories whose opening buys were affordable and whose closes only sell never overdraw the account |
| `PaperLedger.NeverOverdrawnIff` | libs/brokers/src/brokers/paper_broker.py:346-376 | Over whole histories with affordable opening buys, the account is never overdrawn if and only if every closing buy was covered by the cash held when it was made |
| `PaperLedger.CloseKeepsCashIff` | libs/brokers/src/brokers/paper_broker.py:346-363 | A fill keeps a solvent account solvent if and only if it sells or its cost was covered |
| `PaperLedger.UncappedBuyBackOverdraws` | libs/brokers/src/brokers/paper_broker.py:351-363 | A concrete history: every opening order affordable, and a closing buy-back overdraws the account |
| `PaperLedger.RecordOrder` | libs/brokers/src/brokers/paper_broker.py:222-235 | Filling and recording one more affordable order extends a funded history by exactly that order |
| `PaperBrokers.LimitProtects` | libs/contracts/src/contracts/execution.py:47-68 | A limit order fills if and only if the market is at the limit or better, and then at the market |
| `PaperBrokers.QuoteIs` | libs/brokers/src/brokers/paper_broker.py:149-162 | The fill price exactly: the market plus slippage on a buy, less slippage on a sell, unless there is no positive market or the limit is passed |
| `PaperBrokers.ResolvedIs` | libs/brokers/src/brokers/paper_broker.py:307-321 | Which symbol a close means, case by case |
| `PaperBrokers.LatestHeldIs` | libs/brokers/src/brokers/paper_broker.py:316-320 | An order id means the symbol of the latest order with that id whose symbol is held |
| `PaperBrokers.SlippageKeepsPricesPositive` | libs/brokers/src/brokers/paper_broker.py:149-162 | Slippage below 100% works against the trader and keeps fill prices positive |
| `PaperBrokers.PaperBroker.ApplyBuy` | libs/brokers/src/brokers/paper_broker.py:255-277 | The buy branches compute the signed fill of the ledger |
| `PaperBrokers.PaperBroker.ApplySell` | libs/brokers/src/brokers/paper_broker.py:279-301 | The sell branches compute the signed fill of the ledger |
| `PaperBrokers.PaperBroker.Execute` | libs/brokers/src/brokers/paper_broker.py:217-235 | The ledger stays the replay of its own order history, which grows by this order |
| `PaperBrokers.PaperBroker.PlaceOrder` | libs/brokers/src/brokers/paper_broker.py:170-245 | Accepted if and only if symbol, size, side, price, limit and cash allow it; an accepted order is recorded at the quoted price and keeps the ledger the replay of its funded history; anything else changes nothing and is refused for the first reason that applies |
| `PaperBrokers.PaperBroker.ResolveSymbol` | libs/brokers/src/brokers/paper_broker.py:307-321 | Explicit symbol, then the id as a symbol, then the latest order with that id whose symbol is held |
| `PaperBrokers.PaperBroker.ClosePosition` | libs/brokers/src/brokers/paper_broker.py:323-383 | Closes if and only if the resolved symbol is held and can be priced; takes the position towards zero by the requested units, never past it and never growing it, and leaves every other holding alone |
| `PaperBrokers.CloseReduces` | libs/brokers/src/brokers/paper_broker.py:351-363 | An order on the opposite side for at most what is held moves that holding strictly towards zero, keeps its sign, and moves no other |
| `Ledgers.LedgersDifferByOpenBasis` | libs/brokers/src/brokers/paper_broker.py:255-301 | For the same fills over any symbols, FIFO and average-cost realised P&L differ by exactly the difference in open cost basis |
| `Ledgers.LedgersAgreeWhenFlat` | libs/attribution/src/attribution/roundtrips.py:84-126 | Whenever the broker's book is flat the two realised figures are equal |
| `Ledgers.BrokerAgreesWithTrips` | libs/brokers/src/brokers/paper_broker.py:170-383 | The same for a broker object after any sequence of orders and closes, against an archive of its own order history |
| `Ledgers.TripsReportTheirGain` | libs/attribution/src/attribution/models.py:62-71 | Every trip of such an archive reports a realised result, and it is the one totalled |
| `BusinessDays.BusinessWindow` | services/autonomy-orchestrator/src/autonomy_orchestrator/day_trade_tracker.py:46-63 | The loop returns exactly the days with fewer than `sessions` business days from them up to today, plus today itself |
| `BusinessDays.WeekOfWindows` | services/autonomy-orchestrator/src/autonomy_orchestrator/day_trade_tracker.py:46-63 | For every week, the five sessions of its Monday, Tuesday and so on to its Sunday, day by day |
| `BusinessDays.WindowIsFiveDays` | services/autonomy-orchestrator/src/autonomy_orchestrator/day_trade_tracker.py:46-63 | The five-session window is the day and the four weekdays before it |
| `BusinessDays.WindowNested` | services/autonomy-orchestrator/src/autonomy_orchestrator/day_trade_tracker.py:46-63 | A past day inside a later window was inside every window in between |
| `DayTrades.DayTradeTracker.Open` | services/autonomy-orchestrator/src/autonomy_orchestrator/day_trade_tracker.py:125-129 | Records the session of a position that was not already open |
| `DayTrades.DayTradeTracker.Close` | services/autonomy-orchestrator/src/autonomy_orchestrator/day_trade_tracker.py:131-148 | Forgets the position, counts a day trade exactly when it was opened this session, and prunes |
| `DayTrades.DayTradeTracker.Prune` | services/autonomy-orchestrator/src/autonomy_orchestrator/day_trade_tracker.py:253-261 | Keeps exactly the sessions of the fifteen-session window, with their counts |
| `DayTrades.DayTradeTracker.Count` | services/autonomy-orchestrator/src/autonomy_orchestrator/day_trade_tracker.py:249-251 | The sum of the day trades inside the five-session window |
| `DayTrades.DayTradeTracker.CheckEntry` | services/autonomy-orchestrator/src/autonomy_orchestrator/day_trade_tracker.py:164-212 | Allows an entry if and only if the guard is off, equity is known and at the threshold or above, or the day trades recorded on today and the four weekdays before it plus today's open positions are below the budget; reports that count |
| `DayTrades.RunStaysWithinBudget` | services/autonomy-orchestrator/src/autonomy_orchestrator/day_trade_tracker.py:125-212 | In every run with a monotone clock and small or unknown equity, day trades in the window plus positions opened today never exceed the budget, on the last day and every later one |
| `DayTrades.DayTradeCases` | services/autonomy-orchestrator/src/autonomy_orchestrator/day_trade_tracker.py:125-148 | A day trade (a sale of a security bought in the same session and not sold since) is either recorded or closes a position that was open from an earlier session and added to that day, never both |
| `DayTrades.TrackerMisses` | services/autonomy-orchestrator/src/autonomy_orchestrator/day_trade_tracker.py:125-148 | In every run the day trades of the window are what the tracker counts plus the closes of such positions |
| `DayTrades.CountIsExactIff` | services/autonomy-orchestrator/src/autonomy_orchestrator/day_trade_tracker.py:128-128 | The tracker's count is the number of day trades if and only if no position closed in the window had been added to on its closing day while open from an earlier session |
| `DayTrades.AddsEscapeTheCount` | services/autonomy-orchestrator/src/autonomy_orchestrator/day_trade_tracker.py:128-128 | For every number k a run whose every entry the guard allowed makes k day trades on its last day with none on record |
| `DayTrades.DayTradesWithinBudget` | services/autonomy-orchestrator/src/autonomy_orchestrator/day_trade_tracker.py:164-212 | In every monotone run on small or unknown equity the day trades other than closes of such positions stay within the budget, and all of them do if there are none |
| `DayTrades.ClosingEverythingIsSafe` | services/autonomy-orchestrator/src/autonomy_orchestrator/day_trade_tracker.py:131-148 | Whatever is closed today, in any order, the day trades of the window stay within the budget, if no position open from an earlier session has been added to today, nor any closed in the window had been on its closing day |
| `DayTrades.NeverPatternDayTrader` | services/autonomy-orchestrator/src/autonomy_orchestrator/day_trade_tracker.py:36-42 | With the default budget of three no run without such a position makes a fourth day trade on today and the four weekdays before it |
| `DayTrades.PruneKeepsCounts` | services/autonomy-orchestrator/src/autonomy_orchestrator/day_trade_tracker.py:253-261 | Pruning at fifteen sessions changes no present or later five-session count |
| `DayTrades.PruningIsInvisible` | services/autonomy-orchestrator/src/autonomy_orchestrator/day_trade_tracker.py:249-261 | Over every run the pruned tracker counts what an unpruned record of every day trade it flagged would, now and later |
| `DayTrades.UsedShrinks` | services/autonomy-orchestrator/src/autonomy_orchestrator/day_trade_tracker.py:249-251 | Time passing never adds to the count of past day trades |
| `DayTrades.UsedIsFiveDays` | services/autonomy-orchestrator/src/autonomy_orchestrator/day_trade_tracker.py:249-251 | The count is of today and the four weekdays before it |
| `DayTrades.UsedCounted` | services/autonomy-orchestrator/src/autonomy_orchestrator/day_trade_tracker.py:139-139 | One more day trade adds one to exactly the counts whose window holds its day |
| `DayTrades.CloseConverts` | services/autonomy-orchestrator/src/autonomy_orchestrator/day_trade_tracker.py:131-148 | A close turns a reservation into a day trade: the commitment is unchanged |
| `DayTrades.OpenKeepsBudgetIff` | services/autonomy-orchestrator/src/autonomy_orchestrator/day_trade_tracker.py:125-129 | An open keeps the budget if and only if a slot was free or the symbol was already open |
| `DayTrades.StaleChecksOverrun` | services/autonomy-orchestrator/src/autonomy_orchestrator/day_trade_tracker.py:164-184 | A concrete case: two entries checked before either opens overrun the budget |
| `Latch.HaltLatch.RecordReconciliation` | libs/lifecycle/src/lifecycle/store.py:971-1040 | One check updates the row as the three outcomes prescribe |
| `Latch.HaltLatch.HaltEntries` | libs/lifecycle/src/lifecycle/store.py:1059-1080 | Latches at once and keeps an earlier first failure |
| `Latch.HaltLatch.ClearHalt` | libs/lifecycle/src/lifecycle/store.py:1096-1125 | Releases only for a named actor and an existing row |
| `Latch.Reconciler.Check` | services/autonomy-orchestrator/src/autonomy_orchestrator/reconciliation.py:213-268 | The in-memory counter counts breaks, is reset by a good check and ignores an unavailable one; entries are blocked if and only if it has reached the threshold |
| `Latch.HaltedIff` | libs/lifecycle/src/lifecycle/store.py:971-1080 | Over every serial run, halted if and only if since the last clear there was a direct halt, enough broken checks with no good one between, or an unavailable check a full grace period after the first failure since the last good check |
| `Latch.RowRemembers` | libs/lifecycle/src/lifecycle/store.py:975-1006 | While not halted, the row's counter and first failure are those of the stretch since the last good check |
| `Latch.StretchIs` | libs/lifecycle/src/lifecycle/store.py:992-997 | The stretch is the longest suffix without a good check |
| `Latch.FirstFailureIs` | libs/lifecycle/src/lifecycle/store.py:982-984 | The failure clock starts at the earliest failed check of the stretch |
| `Latch.OnlyClearReleases` | libs/lifecycle/src/lifecycle/store.py:1096-1116 | The only event that un-halts is a clear by a named actor |
| `Latch.CountersAgree` | services/autonomy-orchestrator/src/autonomy_orchestrator/reconciliation.py:193-258 | Fed the same checks, the in-memory counter equals the durable one |
| `Latch.MemoryBlockImpliesHaltIff` | services/autonomy-orchestrator/src/autonomy_orchestrator/reconciliation.py:193-200 | The in-memory block implies the durable halt on every run if and only if the shared threshold is at least one |
| `Latch.GoodCheckOnlyUnblocksMemory` | libs/lifecycle/src/lifecycle/store.py:992-997 | A good check unblocks memory and leaves the durable halt latched |
| `Latch.StaleCheckLosesHaltIff` | libs/lifecycle/src/lifecycle/store.py:973-1033 | Something others may commit between a check's read and its write is a halt the write loses, if and only if the row read is not halted and the check does not trip on it |
| `Latch.StaleCheckRehaltsIff` | libs/lifecycle/src/lifecycle/store.py:973-1033 | Something others may commit in between, a clear above all, is undone by the write if and only if the row read is halted or the check trips on it, and the settings do not make it trip on every row |
| `Latch.CheckHaltsIff` | libs/lifecycle/src/lifecycle/store.py:980-1006 | What a check writes is halted if and only if the row it read is or the check trips on it |
| `Latch.InterleavedCheckLosesHalt` | libs/lifecycle/src/lifecycle/store.py:973-1033 | A concrete interleaving in which a good check erases a halt |
| `Latch.InterleavedCheckUndoesClear` | libs/lifecycle/src/lifecycle/store.py:973-1033 | A concrete interleaving in which a good check halts entries again after a clear |
| `Positions.Aggregate` | services/autonomy-orchestrator/src/autonomy_orchestrator/reconciliation.py:115-148 | The totals are the per-identity sums of the view |
| `Positions.HeldOne` | services/autonomy-orchestrator/src/autonomy_orchestrator/reconciliation.py:115-147 | What one row adds, to which identity, and which quantity each view reads first |
| `Positions.ApartIff` | services/autonomy-orchestrator/src/autonomy_orchestrator/reconciliation.py:157-157 | Totals are apart when they differ by more than a millionth, either way |
| `Positions.Differences` | services/autonomy-orchestrator/src/autonomy_orchestrator/reconciliation.py:153-168 | Walking sorted identities reports, in order, exactly those whose totals are apart |
| `Positions.ComparePositions` | services/autonomy-orchestrator/src/autonomy_orchestrator/reconciliation.py:110-169 | Reports exactly the identities whose totals are apart, each once, in order, with both totals |
| `Positions.ReportUnique` | services/autonomy-orchestrator/src/autonomy_orchestrator/reconciliation.py:110-169 | The report is determined by the per-identity totals alone |
| `Positions.CleanIff` | services/autonomy-orchestrator/src/autonomy_orchestrator/reconciliation.py:110-169 | No break is reported if and only if every identity's totals agree within tolerance |
| `Positions.OrderInsensitive` | services/autonomy-orchestrator/src/autonomy_orchestrator/reconciliation.py:124-169 | Permuting the rows of either view changes nothing |
| `Positions.LotInsensitive` | services/autonomy-orchestrator/src/autonomy_orchestrator/reconciliation.py:124-169 | Reporting a position as lots instead of one row changes nothing, on either side |
| `Positions.TwoLots` | services/autonomy-orchestrator/src/autonomy_orchestrator/reconciliation.py:124-148 | Two rows of one identity are lots of the row holding their sum |
| `Positions.PartsAreLots` | services/autonomy-orchestrator/src/autonomy_orchestrator/reconciliation.py:124-148 | Any rows of one identity whose quantities add up to a position's are lots of it |
| `KeyOrder.SortedKeys` | services/autonomy-orchestrator/src/autonomy_orchestrator/reconciliation.py:154-154 | Sorting the identities yields each exactly once in tuple order |
| `KeyOrder.LessIs` | services/autonomy-orchestrator/src/autonomy_orchestrator/reconciliation.py:154-154 | Identities are ordered by symbol, then account, then broker, then asset class |
| `KeyOrder.StringLessAt` | services/autonomy-orchestrator/src/autonomy_orchestrator/reconciliation.py:154-154 | Strings are ordered by the first place they differ in, a proper beginning first |
| `KeyOrder.AscendingUnique` | services/autonomy-orchestrator/src/autonomy_orchestrator/reconciliation.py:154-154 | Two strictly ordered lists of the same identities are the same list |
| `TokenBucket.RateLimiter.Consume` | libs/contracts/src/contracts/rate_limit.py:22-33 | Grants if and only if capacity allows and the tokens left plus rate times the time since come to one, a new key starting full; stores the level less what was granted, for this key only |
| `TokenBucket.RateBound` | libs/contracts/src/contracts/rate_limit.py:14-33 | In any interval [s, t] the calls allowed for a key number at most capacity plus rate times (t - s), on every monotone trace over any keys |
| `TokenBucket.GrantedIff` | libs/contracts/src/contracts/rate_limit.py:25-32 | Exactly what must be granted and what must be refused, and the level behind it |
| `TokenBucket.BudgetHolds` | libs/contracts/src/contracts/rate_limit.py:22-33 | Calls allowed plus the level left are bounded by capacity plus what time added |
| `TokenBucket.RefillComposes` | libs/contracts/src/contracts/rate_limit.py:26-30 | Looking at a bucket without taking changes no later level |
| `TokenBucket.RefusalsAreTransparent` | libs/contracts/src/contracts/rate_limit.py:29-31 | Deleting any refused calls from a trace leaves every other decision as it was |
| `Bars.BarArchive.RecordBars` | libs/journal/src/journal/store.py:219-289 | Appends exactly the readable bars not yet stored with those values, numbered by revision, and returns how many |
| `Bars.FetchOne` | libs/journal/src/journal/store.py:237-307 | What fetching one bar stores, field by field, its revision being the number of earlier observations of the bar |
| `Bars.BarArchive.BarsAsOf` | libs/journal/src/journal/store.py:345-388 | Answers the last `limit` of a series holding, for each market timestamp seen by the cutoff, a newest observation, strictly in time order |
| `Bars.SeriesInFull` | libs/journal/src/journal/store.py:345-388 | A series spelled out: symbol, timeframe, cutoff, order, newest of each time and no time missing |
| `Bars.Query` | libs/journal/src/journal/store.py:347-361 | Returns the observations visible at the cutoff, newest first within each timestamp |
| `Bars.FirstPerTimestamp` | libs/journal/src/journal/store.py:366-371 | Keeping the first row per timestamp keeps a newest one for every timestamp |
| `Bars.SeriesUnique` | libs/journal/src/journal/store.py:345-388 | Two answers to a query have the same timestamps observed at the same moments, and are equal if no bar was observed twice at one moment |
| `Bars.SeriesUniqueIff` | libs/journal/src/journal/store.py:345-388 | A query has exactly one answer if and only if no bar's newest observation is tied |
| `Bars.BatchCanTie` | libs/journal/src/journal/store.py:239-289 | One fetch can tie by itself: a batch holding a bar twice with different figures stores both at one moment, and either is an answer |
| `Bars.PastIsImmutable` | libs/journal/src/journal/store.py:326-344 | No write observed after the cutoff changes what was known at it |
| `Bars.LaterRowsInvisible` | libs/journal/src/journal/store.py:350-355 | Rows observed after the cutoff do not affect its series |
| `Bars.RefetchAddsNothing` | libs/journal/src/journal/store.py:227-232 | Recording an unchanged batch again adds no rows, at any time and from any source |
| `Bars.FetchIsReflectedIff` | libs/journal/src/journal/store.py:1333-1354 | Everything current for a bar carries a fetched row's values if and only if the row was not stored before or everything current for the bar already had them; tied observations included |
| `Bars.CurrentIsReflectedIff` | libs/journal/src/journal/store.py:1333-1354 | Without ties, the one current observation carries the fetched values if and only if those values were never stored for the bar or are already current |
| `Bars.RevertedBarIsDropped` | libs/journal/src/journal/store.py:1333-1354 | A bar revised A, B and back to A stays at B |
| `Bars.TailKeeps` | libs/journal/src/journal/store.py:373-373 | A positive limit keeps the latest bars; zero keeps all |
| `Indicators.ComputeEma` | libs/market_data/src/market_data/indicators.py:38-49 | The loop computes the seeded exponential average |
| `Indicators.EmaStep` | libs/market_data/src/market_data/indicators.py:45-48 | After the seed every close counts two parts in period plus one |
| `Indicators.EmaSeed` | libs/market_data/src/market_data/indicators.py:40-46 | The seed is the mean of the first closes; the last close stands in while there are too few |
| `Indicators.EmaWithin` | libs/market_data/src/market_data/indicators.py:38-49 | The EMA of any nonempty series lies within any bounds of its closes |
| `Indicators.ComputeRsi` | libs/market_data/src/market_data/indicators.py:14-35 | The loops compute the index of the Wilder-smoothed gains and losses, 50 on short series and 100 without losses |
| `Indicators.RsiIs` | libs/market_data/src/market_data/indicators.py:16-35 | Fifty on too few closes, a hundred without losses, otherwise the average gain's share of the average movement |
| `Averages.WilderStep` | libs/market_data/src/market_data/indicators.py:24-30 | The smoothed average: a mean to start with, and then one part in period for every later value |
| `Indicators.RsiWithin` | libs/market_data/src/market_data/indicators.py:14-35 | RSI lies in [0, 100] for every series |
| `Indicators.MirrorIff` | libs/market_data/src/market_data/indicators.py:28-35 | Mirroring the closes sends RSI to 100 less RSI if and only if the series is too short or not flat |
| `Indicators.StrengthIsShare` | libs/market_data/src/market_data/indicators.py:31-35 | With a positive average loss RSI is the gain's share of the movement |
| `Indicators.ComputeAdx` | libs/market_data/src/market_data/indicators.py:162-220 | The loops compute the seeded, decayed sums, one directional reading per later bar and their smoothed average |
| `Indicators.SumsStep` | libs/market_data/src/market_data/indicators.py:197-205 | The three sums: plain while seeding, then a period's share given up at each bar |
| `Indicators.MovesAre` | libs/market_data/src/market_data/indicators.py:179-191 | True range and the two directional moves exactly |
| `Indicators.DirectionalIs` | libs/market_data/src/market_data/indicators.py:207-210 | A reading is the difference of the two indexes over their total |
| `Indicators.AdxNeedsBars` | libs/market_data/src/market_data/indicators.py:172-173 | Twenty-five stands for too few bars |
| `Indicators.AdxWithin` | libs/market_data/src/market_data/indicators.py:162-220 | ADX lies in [0, 100] for every well-formed series of any length |
| `Indicators.DirectionalIndexesBounded` | libs/market_data/src/market_data/indicators.py:196-211 | +DI and -DI are nonnegative and never add up to more than 100 at any smoothing step |
| `Indicators.MovesBounded` | libs/market_data/src/market_data/indicators.py:179-191 | On well-formed bars the two directional moves never exceed the true range |
| `Performance.Drawdown` | libs/attribution/src/attribution/report.py:264-281 | The one-pass loop computes the largest fall over all pairs of points of the curve starting at zero, and its lowest point |
| `Performance.CurveMoves` | libs/attribution/src/attribution/report.py:259-266 | The curve starts at zero and moves by each result in turn |
| `Performance.MaxDrawdownUnique` | libs/attribution/src/attribution/report.py:264-281 | The quadratic definition has one value, and it is not negative |
| `Performance.RealizedSeries` | libs/attribution/src/attribution/report.py:182-195 | The series is the usable results of the trips sorted by exit |
| `Performance.ResultsAppend` | libs/attribution/src/attribution/report.py:182-195 | A trip is a result exactly when both fills have a usable price, and it is the price move in its direction times its quantity |
| `Performance.CurveEndsAtTotal` | libs/attribution/src/attribution/report.py:264-281 | The curve ends at the total of what the trips report, a trip without usable fills adding nothing |
| `Performance.SumResults` | libs/attribution/src/attribution/report.py:250-252 | The realised total is the end of that curve |
| `Campaign.RunAll` | libs/challengers/src/challengers/campaign.py:155-192 | The first pass evaluates the first occurrence of each id and pools the trials of those that ran |
| `Campaign.JudgeAll` | libs/challengers/src/challengers/campaign.py:193-202 | The second pass judges every evaluated challenger by its own run and one and the same pool, field by field |
| `Campaign.EvaluateCampaign` | libs/challengers/src/challengers/campaign.py:138-204 | For every result whose run finished with returns, with anything pooled, the gated figure is its returns deflated against the trials of all finished runs, one after another; otherwise there is none; a run's own figure is carried beside it |
| `Campaign.OwnFigureNeverGates` | libs/challengers/src/challengers/campaign.py:192-202 | Whatever figures the runs report against their own searches, the campaign's figures and survivors are the same |
| `Campaign.OwnTrialsDoNotGate` | libs/challengers/src/challengers/campaign.py:192-202 | A run whose own trials change while the pooled list stays the same keeps its figure |
| `Campaign.SurvivesIff` | libs/challengers/src/challengers/campaign.py:91-104 | Survivors are exactly those whose returns, deflated against the whole pool, reach the bar |
| `Campaign.FlattenAt` | libs/challengers/src/challengers/campaign.py:186-188 | The pool keeps every run's trials whole and in its place |
| `Campaign.DistinctAreFirst` | libs/challengers/src/challengers/campaign.py:162-166 | Those evaluated are the first proposals of their ids |
| `Campaign.SamePool` | libs/challengers/src/challengers/campaign.py:158-190 | Repetition-free lists of the same ids pool the same multiset of trials |
| `Campaign.CampaignDependsOnIdsOnly` | libs/challengers/src/challengers/campaign.py:91-104 | Reordering proposals or repeating an id changes neither the pooled trials nor which ids survive |

## Left out

- HTTP services, schedulers, notifications, the dashboard, broker and market-data adapters: plumbing around the logic modelled here.
- SQL, JSON persistence, file locking and logging: a committed row is a value and an append-only table a sequence; loading persisted state is not modelled.
- Floating point and rounding: money, prices and quantities are exact reals, so rounded figures (six-digit fill prices, two-digit notionals) are not modelled.
- Text: case mapping and trimming are ASCII only; free-text reasons and descriptions carry no structure beyond the adoption mark.
- Timestamps kept for display (`since`, `updated_at`, `opened_at`, `last_ok_at`) are dropped.
- Clocks and randomness: times, session days, order ids and market prices are parameters; the conversion of a moment to a US session date is not modelled.
- Weekday windows know no market holidays, as in the program.
- Lifecycle.NoLostUpdate: covers the default expected version; explicit versions are covered by ExplicitVersionKeepsDbIff.
- DayTrades.RunStaysWithinBudget: checking and opening are one step of a run; StaleChecksOverrun shows why callers must not interleave them.
- Latch.HaltedIff: each call is one atomic step; the program reads and writes in two transactions, and StaleCheckLosesHaltIff and StaleCheckRehaltsIff say exactly when an interleaving loses a halt or undoes a clear.
- Service.LifecycleService.Promote: during the gap other clients may commit any roster step; evidence and artifacts they record meanwhile are not modelled, the reason text is the fixed word "promoted", and the evidence window is a parameter.
- A journal that cannot be read is modelled where promotion reads it; `bars_as_of` and `net_position` then answer nothing, which is not modelled.
- The journal's completeness report arrives as a parameter: the gap scan behind it is not modelled. Figures that no gate reads (misses, partial fills, cancellations, worst shortfall, fill rate, cash effect) are dropped.
- Ledgers.LedgersAgreeWhenFlat: for one strategy in one account whose fills are all journalled; the broker itself does not know strategies.
- Which of two tied observations SQL returns first is left open; SeriesUniqueIff says when there are none.
- Bars.BarArchive.RecordBars: the counter of rejected bars and the provider metadata are not modelled; a payload hash is taken to identify the values.
- TokenBucket.RateLimiter.Consume: the creation time of a new key's bucket is taken to be the call's own time.
- Indicators.ComputeAdx: highs, lows and closes come as one sequence of bars, so unequal lengths do not arise.
- The walk-forward run and the deflation of a campaign are parameters; error text and the verdict sentence are not modelled. CampaignDependsOnIdsOnly assumes a run determined by the id and a deflation that ignores order.
- ATR, MACD, Bollinger bands, pattern tags, Sharpe ratios and annualisation: square roots or easy members only.
- Attribution components, regime totals and benchmark reports, `PositionBreak.kind` and its wording: easy members.
- Journal health, learning cycles and challenger proposals in the lifecycle store: append-only records without a protocol.
- The router's reason strings, `assert_not_live`, and the gate's answer when the authority is unreachable (always a refusal).
