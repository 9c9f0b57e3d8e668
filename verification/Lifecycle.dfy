// The lifecycle authority (libs/lifecycle/src/lifecycle/store.py): an optimistically
// locked roster and an append-only transition log.
//
// Every store method is one transaction, so one atomic step.  `Apply` gives each
// step's effect on the database value; `LifecycleStore` performs it in place.
module Lifecycle {
  import opened Common
  import Text

  datatype State = Candidate | Paper | Live | Probation | Retired | Unknown(name: string)

  datatype Origin = Human | Challenger

  /** Where a sleeve's positions live. */
  datatype Environment = NoPosition | SimulatedPosition | LivePosition

  /** A roster row, and equally a client's snapshot of one. */
  datatype Sleeve = Sleeve(id: nat, strategyId: string, strategyVersion: string, symbol: string,
                           assetClass: string, accountId: string, state: State, version: int,
                           reason: string, probationCount: int, environment: Environment, origin: Origin)

  datatype Entry = Entry(sleeveId: nat, seqNo: int, fromState: Option<State>, toState: State,
                         reason: string, actor: string, evidence: Option<nat>)

  datatype Db = Db(rows: seq<Sleeve>, log: seq<Entry>)

  datatype Error = UnknownState | ChallengerCannotGoLive | ConcurrentTransition | SleeveNotFound
                 | ActorRequired | ReasonRequired

  datatype Outcome = Returned(sleeve: Sleeve) | Raised(error: Error)

  const EMPTY_DB := Db([], [])

  predicate Known(s: State) { !s.Unknown? }

  /** Entering paper or live moves the position environment; other states keep it. */
  function EntryEnvironment(target: State, current: Environment): Environment {
    match target
    case Paper => SimulatedPosition
    case Live => LivePosition
    case _ => current
  }

  function ProbationStep(origin: Option<State>, target: State): int {
    if target == Probation && origin != Some(Probation) then 1 else 0
  }

  // ------------------------------------------------------------------
  // Atomic steps
  // ------------------------------------------------------------------
  predicate Identity(r: Sleeve, strategyId: string, symbol: string, accountId: string) {
    r.strategyId == strategyId && r.symbol == Text.Upper(symbol) && r.accountId == accountId
  }

  function Find(rows: seq<Sleeve>, strategyId: string, symbol: string, accountId: string): (r: Option<nat>)
    ensures r.Some? ==> r.value < |rows| && Identity(rows[r.value], strategyId, symbol, accountId)
    ensures r.None? ==> forall i :: 0 <= i < |rows| ==> !Identity(rows[i], strategyId, symbol, accountId)
  {
    if rows == [] then None
    else if Identity(rows[|rows| - 1], strategyId, symbol, accountId) then Some(|rows| - 1)
    else Find(rows[..|rows| - 1], strategyId, symbol, accountId)
  }

  datatype Event =
    | Register(strategyId: string, symbol: string, strategyVersion: string, assetClass: string,
               accountId: string, actor: string, origin: Origin)
    | Transition(snapshot: Sleeve, target: State, reason: string, actor: string,
                 evidence: Option<nat>, expected: Option<int>)
    | Adopt(snapshot: Sleeve, actor: string, reason: string)

  function ExpectedVersion(e: Event): int
    requires e.Transition?
  {
    if e.expected.Some? then e.expected.value else e.snapshot.version
  }

  /** Why a transition is refused, if it is; the challenger barrier reads the row, not the snapshot. */
  function TransitionError(db: Db, e: Event): Option<Error>
    requires e.Transition?
  {
    var id := e.snapshot.id;
    if !Known(e.target) then Some(UnknownState)
    else if e.target == Live && id < |db.rows| && db.rows[id].origin == Challenger then Some(ChallengerCannotGoLive)
    else if id >= |db.rows| || db.rows[id].version != ExpectedVersion(e) then Some(ConcurrentTransition)
    else None
  }

  /** What a committed transition writes; the new fields come from the caller's snapshot. */
  function Moved(row: Sleeve, e: Event): Sleeve
    requires e.Transition?
  {
    row.(state := e.target, version := ExpectedVersion(e) + 1, reason := e.reason,
         probationCount := e.snapshot.probationCount + ProbationStep(Some(e.snapshot.state), e.target),
         environment := EntryEnvironment(e.target, e.snapshot.environment))
  }

  /** An adopting actor must name a person. */
  predicate NamedHuman(actor: string) {
    var named := Text.Strip(actor);
    named != "" && Text.Lower(named) !in {"system", "learner", "auto", "automation"}
  }

  function AdoptError(db: Db, e: Event): Option<Error>
    requires e.Adopt?
  {
    if !NamedHuman(e.actor) then Some(ActorRequired)
    else if Text.Blank(e.reason) then Some(ReasonRequired)
    else if e.snapshot.id >= |db.rows| then Some(SleeveNotFound)
    else None
  }

  function NewRow(id: nat, e: Event): Sleeve
    requires e.Register?
  {
    Sleeve(id, e.strategyId, e.strategyVersion, Text.Upper(e.symbol), e.assetClass, e.accountId,
           Candidate, 1, "registered", 0, NoPosition, e.origin)
  }

  const ADOPTED_PREFIX := "challenger adopted: "

  /** The row a step writes and the log entry it appends, or None when it changes nothing. */
  function Write(db: Db, e: Event): (w: Option<(Sleeve, Entry)>)
    ensures w.Some? ==> w.value.1.sleeveId <= |db.rows|
  {
    match e
    case Register(strategyId, symbol, _, _, accountId, actor, _) =>
      var found := Find(db.rows, strategyId, symbol, accountId);
      if found.None? then
        var id := |db.rows|;
        Some((NewRow(id, e), Entry(id, 1, None, Candidate, "registered", actor, None)))
      else
        var row := db.rows[found.value];
        if row.state != Retired then None
        else Some((row.(state := Candidate, version := row.version + 1, reason := "re-registered"),
                   Entry(found.value, row.version + 1, Some(row.state), Candidate, "re-registered", actor, None)))
    case Transition(s, target, reason, actor, evidence, _) =>
      if TransitionError(db, e).Some? then None
      else
        var next := Moved(db.rows[s.id], e);
        Some((next, Entry(s.id, next.version, Some(s.state), target, reason, actor, evidence)))
    case Adopt(s, actor, reason) =>
      if AdoptError(db, e).Some? || db.rows[s.id].origin != Challenger then None
      else
        var row := db.rows[s.id];
        Some((row.(origin := Human, version := row.version + 1),
              Entry(s.id, row.version + 1, Some(row.state), row.state,
                    ADOPTED_PREFIX + Text.Strip(reason), Text.Strip(actor), None)))
  }

  /** Write one row: an existing id is updated in place, a new one is appended. */
  function Put(rows: seq<Sleeve>, id: nat, row: Sleeve): seq<Sleeve>
    requires id <= |rows|
  {
    if id < |rows| then rows[id := row] else rows + [row]
  }

  /** The database after one step. */
  function Apply(db: Db, e: Event): Db {
    var w := Write(db, e);
    if w.None? then db
    else Db(Put(db.rows, w.value.1.sleeveId, w.value.0), db.log + [w.value.1])
  }

  function Run(es: seq<Event>): Db {
    if es == [] then EMPTY_DB else Apply(Run(es[..|es| - 1]), es[|es| - 1])
  }

  lemma RunAppend(es: seq<Event>, e: Event)
    ensures Run(es + [e]) == Apply(Run(es), e)
  {
    assert (es + [e])[..|es|] == es;
  }

  // ------------------------------------------------------------------
  // The three steps, spelled out
  // ------------------------------------------------------------------

  /** No row is of this strategy, symbol and account. */
  ghost predicate NotOnRoster(rows: seq<Sleeve>, strategyId: string, symbol: string, accountId: string) {
    forall i :: 0 <= i < |rows| ==>
      !(rows[i].strategyId == strategyId && rows[i].symbol == Text.Upper(symbol) && rows[i].accountId == accountId)
  }

  /** A first registration adds a candidate that is the caller's own in every respect, origin included. */
  lemma FirstRegistration(db: Db, e: Event)
    requires e.Register? && NotOnRoster(db.rows, e.strategyId, e.symbol, e.accountId)
    ensures var next := Apply(db, e);
            && |next.rows| == |db.rows| + 1 && next.rows[..|db.rows|] == db.rows
            && next.log == db.log + [Entry(|db.rows|, 1, None, Candidate, "registered", e.actor, None)]
            && next.rows[|db.rows|] == Sleeve(|db.rows|, e.strategyId, e.strategyVersion, Text.Upper(e.symbol), e.assetClass,
                                              e.accountId, Candidate, 1, "registered", 0, NoPosition, e.origin)
  {
  }

  /** Registering what is registered changes nothing, unless it is retired: then it is a candidate again,
      one version on, and keeps its origin, its probation count and everything else. */
  lemma NextRegistration(db: Db, e: Event, i: nat)
    requires e.Register? && Unique(db) && i < |db.rows|
    requires db.rows[i].strategyId == e.strategyId && db.rows[i].symbol == Text.Upper(e.symbol)
             && db.rows[i].accountId == e.accountId
    ensures var was, next := db.rows[i], Apply(db, e);
            if was.state == Retired then
              && next.rows == db.rows[i := Sleeve(was.id, was.strategyId, was.strategyVersion, was.symbol, was.assetClass,
                                                  was.accountId, Candidate, was.version + 1, "re-registered",
                                                  was.probationCount, was.environment, was.origin)]
              && next.log == db.log + [Entry(i, was.version + 1, Some(Retired), Candidate, "re-registered", e.actor, None)]
            else next == db
  {
    assert Find(db.rows, e.strategyId, e.symbol, e.accountId) == Some(i);
  }

  /** A transition commits exactly when the state is known, the row exists at the version expected, and it
      does not take a challenger live; it then writes exactly this row and this entry. */
  lemma TransitionInFull(db: Db, s: Sleeve, target: State, reason: string, actor: string, evidence: Option<nat>,
                         expected: Option<int>)
    ensures var e := Event.Transition(s, target, reason, actor, evidence, expected);
            var version, next := if expected.Some? then expected.value else s.version, Apply(db, e);
            var barred := target == Live && s.id < |db.rows| && db.rows[s.id].origin == Challenger;
            && (TransitionError(db, e) ==
                  if target.Unknown? then Some(UnknownState)
                  else if barred then Some(ChallengerCannotGoLive)
                  else if s.id < |db.rows| && db.rows[s.id].version == version then None
                  else Some(ConcurrentTransition))
            && (TransitionError(db, e).Some? ==> next == db)
            && (TransitionError(db, e).None? ==>
                  var was := db.rows[s.id];
                  && next.log == db.log + [Entry(s.id, version + 1, Some(s.state), target, reason, actor, evidence)]
                  && next.rows == db.rows[s.id :=
                       Sleeve(was.id, was.strategyId, was.strategyVersion, was.symbol, was.assetClass, was.accountId,
                              target, version + 1, reason,
                              if target == Probation && s.state != Probation then s.probationCount + 1 else s.probationCount,
                              if target == Paper then SimulatedPosition else if target == Live then LivePosition
                              else s.environment, was.origin)])
  {
  }

  /** An adoption is refused exactly when the actor names nobody, or an automaton, or there is no reason, or
      no row; it turns a challenger human, one version on, and leaves any other row alone. */
  lemma AdoptionInFull(db: Db, s: Sleeve, actor: string, reason: string)
    ensures var e := Adopt(s, actor, reason);
            var name, next := Text.Strip(actor), Apply(db, e);
            && (AdoptError(db, e) ==
                  if name == "" || Text.Lower(name) == "system" || Text.Lower(name) == "learner"
                     || Text.Lower(name) == "auto" || Text.Lower(name) == "automation" then Some(ActorRequired)
                  else if Text.Strip(reason) == "" then Some(ReasonRequired)
                  else if s.id < |db.rows| then None else Some(SleeveNotFound))
            && (if AdoptError(db, e).None? && db.rows[s.id].origin == Challenger then
                  var was := db.rows[s.id];
                  && next.rows == db.rows[s.id :=
                       Sleeve(was.id, was.strategyId, was.strategyVersion, was.symbol, was.assetClass, was.accountId,
                              was.state, was.version + 1, was.reason, was.probationCount, was.environment, Human)]
                  && next.log == db.log + [Entry(s.id, was.version + 1, Some(was.state), was.state,
                                                 "challenger adopted: " + Text.Strip(reason), name, None)]
                else next == db)
  {
  }

  // ------------------------------------------------------------------
  // A sleeve's own log, and what it determines
  // ------------------------------------------------------------------
  function Of(log: seq<Entry>, id: nat): seq<Entry> {
    if log == [] then []
    else
      var before, e := Of(log[..|log| - 1], id), log[|log| - 1];
      if e.sleeveId == id then before + [e] else before
  }

  /** Times the log entered probation from elsewhere. */
  function Probations(h: seq<Entry>): int {
    if h == [] then 0
    else Probations(h[..|h| - 1]) + ProbationStep(h[|h| - 1].fromState, h[|h| - 1].toState)
  }

  /** The places in a log that enter probation from another state. */
  ghost function ProbationEntries(h: seq<Entry>): set<int> {
    set k | 0 <= k < |h| && h[k].toState == Probation && h[k].fromState != Some(Probation)
  }

  /** The probation count is how many there are. */
  lemma {:induction false} ProbationsCounted(h: seq<Entry>)
    ensures Probations(h) == |ProbationEntries(h)|
  {
    if h != [] {
      var n := |h| - 1;
      ProbationsCounted(h[..n]);
      if n in ProbationEntries(h) {
        assert ProbationEntries(h) == ProbationEntries(h[..n]) + {n};
      } else {
        assert ProbationEntries(h) == ProbationEntries(h[..n]);
      }
    }
  }

  /** The environment of the latest entry into paper or live. */
  function LastEnvironment(h: seq<Entry>): Environment {
    if h == [] then NoPosition else EntryEnvironment(h[|h| - 1].toState, LastEnvironment(h[..|h| - 1]))
  }

  /** The log is a gapless chain from registration. */
  ghost predicate Chain(h: seq<Entry>) {
    && h != [] && h[0].fromState == None && h[0].toState == Candidate
    && (forall k :: 0 <= k < |h| ==> h[k].seqNo == k + 1 && Known(h[k].toState))
    && (forall k :: 1 <= k < |h| ==> h[k].fromState == Some(h[k - 1].toState))
  }

  /** A row (or snapshot) says what the log up to its version says. */
  ghost predicate Tells(s: Sleeve, h: seq<Entry>) {
    && 1 <= s.version <= |h|
    && s.state == h[s.version - 1].toState
    && s.probationCount == Probations(h[..s.version])
    && s.environment == LastEnvironment(h[..s.version])
  }

  ghost predicate RowOk(db: Db, i: nat)
    requires i < |db.rows|
  {
    var h := Of(db.log, i);
    && db.rows[i].id == i && db.rows[i].version == |h|
    && Chain(h) && Tells(db.rows[i], h)
  }

  ghost predicate Referenced(db: Db) {
    forall k :: 0 <= k < |db.log| ==> db.log[k].sleeveId < |db.rows|
  }

  /** One roster row per (strategy, symbol, account). */
  ghost predicate Unique(db: Db) {
    forall i, j :: 0 <= i < j < |db.rows| ==>
      db.rows[i].strategyId != db.rows[j].strategyId || db.rows[i].symbol != db.rows[j].symbol
      || db.rows[i].accountId != db.rows[j].accountId
  }

  ghost predicate DbOk(db: Db) {
    && Referenced(db) && Unique(db)
    && (forall i: nat :: i < |db.rows| ==> RowOk(db, i))
  }

  // ------------------------------------------------------------------
  // One step
  // ------------------------------------------------------------------
  lemma OfAppend(log: seq<Entry>, e: Entry, id: nat)
    ensures Of(log + [e], id) == if e.sleeveId == id then Of(log, id) + [e] else Of(log, id)
  {
    assert (log + [e])[..|log|] == log;
  }

  lemma {:induction false} OfAbsent(log: seq<Entry>, id: nat)
    requires forall k :: 0 <= k < |log| ==> log[k].sleeveId != id
    ensures Of(log, id) == []
  {
    if log != [] {
      OfAbsent(log[..|log| - 1], id);
    }
  }

  lemma FoldAppend(h: seq<Entry>, e: Entry)
    ensures Probations(h + [e]) == Probations(h) + ProbationStep(e.fromState, e.toState)
    ensures LastEnvironment(h + [e]) == EntryEnvironment(e.toState, LastEnvironment(h))
  {
    assert (h + [e])[..|h|] == h;
  }

  lemma ChainAppend(h: seq<Entry>, e: Entry)
    requires Chain(h) && e.seqNo == |h| + 1 && e.fromState == Some(h[|h| - 1].toState) && Known(e.toState)
    ensures Chain(h + [e])
  {
  }

  /** The condition under which a write continues its sleeve's chain. */
  ghost predicate Continues(db: Db, row: Sleeve, e: Entry)
    requires e.sleeveId < |db.rows|
  {
    var was := db.rows[e.sleeveId];
    && row.id == e.sleeveId
    && e.seqNo == row.version == was.version + 1
    && e.fromState == Some(was.state) && e.toState == row.state && Known(row.state)
    && row.probationCount == was.probationCount + ProbationStep(e.fromState, e.toState)
    && row.environment == EntryEnvironment(e.toState, was.environment)
    && row.strategyId == was.strategyId && row.symbol == was.symbol && row.accountId == was.accountId
  }

  lemma UpdateKeepsRow(db: Db, row: Sleeve, e: Entry, i: nat)
    requires DbOk(db) && e.sleeveId < |db.rows| && Continues(db, row, e) && i < |db.rows|
    ensures RowOk(Db(db.rows[e.sleeveId := row], db.log + [e]), i)
  {
    var h := Of(db.log, i);
    OfAppend(db.log, e, i);
    assert RowOk(db, i);
    if i == e.sleeveId {
      assert h[..|h|] == h && (h + [e])[..|h| + 1] == h + [e];
      FoldAppend(h, e);
      ChainAppend(h, e);
    }
  }

  lemma UpdateKeepsDb(db: Db, row: Sleeve, e: Entry)
    requires DbOk(db) && e.sleeveId < |db.rows| && Continues(db, row, e)
    ensures DbOk(Db(db.rows[e.sleeveId := row], db.log + [e]))
  {
    var next := Db(db.rows[e.sleeveId := row], db.log + [e]);
    forall i: nat | i < |next.rows| ensures RowOk(next, i) {
      UpdateKeepsRow(db, row, e, i);
    }
    assert Unique(next) by {
      forall i, j | 0 <= i < j < |next.rows|
        ensures next.rows[i].strategyId != next.rows[j].strategyId || next.rows[i].symbol != next.rows[j].symbol
                || next.rows[i].accountId != next.rows[j].accountId
      {
        assert next.rows[i].strategyId == db.rows[i].strategyId && next.rows[i].symbol == db.rows[i].symbol
               && next.rows[i].accountId == db.rows[i].accountId;
        assert next.rows[j].strategyId == db.rows[j].strategyId && next.rows[j].symbol == db.rows[j].symbol
               && next.rows[j].accountId == db.rows[j].accountId;
      }
    }
  }

  ghost predicate Fresh(db: Db, row: Sleeve, entry: Entry) {
    && entry.sleeveId == row.id == |db.rows| && row.version == entry.seqNo == 1
    && entry.fromState == None && entry.toState == row.state == Candidate
    && row.probationCount == 0 && row.environment == NoPosition
  }

  lemma NewRowOk(db: Db, row: Sleeve, entry: Entry)
    requires Referenced(db) && Fresh(db, row, entry)
    ensures RowOk(Db(db.rows + [row], db.log + [entry]), |db.rows|)
  {
    OfAppend(db.log, entry, |db.rows|);
    OfAbsent(db.log, |db.rows|);
    FoldAppend([], entry);
    assert [] + [entry] == [entry] && [entry][..1] == [entry];
  }

  lemma OldRowOk(db: Db, row: Sleeve, entry: Entry, i: nat)
    requires i < |db.rows| == entry.sleeveId && RowOk(db, i)
    ensures RowOk(Db(db.rows + [row], db.log + [entry]), i)
  {
    OfAppend(db.log, entry, i);
  }

  lemma RegisterNewKeepsDb(db: Db, e: Event)
    requires DbOk(db) && e.Register?
    requires Find(db.rows, e.strategyId, e.symbol, e.accountId).None?
    ensures DbOk(Apply(db, e))
  {
    var id := |db.rows|;
    var row, entry := NewRow(id, e), Entry(id, 1, None, Candidate, "registered", e.actor, None);
    var next := Db(db.rows + [row], db.log + [entry]);
    assert Apply(db, e) == next;
    forall i: nat | i < |next.rows| ensures RowOk(next, i) {
      if i < id { OldRowOk(db, row, entry, i); } else { NewRowOk(db, row, entry); }
    }
    assert forall i :: 0 <= i < id ==> !Identity(db.rows[i], e.strategyId, e.symbol, e.accountId);
    assert Unique(next);
    assert Referenced(next);
  }

  lemma ReRegisterContinues(db: Db, e: Event)
    requires DbOk(db) && e.Register? && Write(db, e).Some?
    requires Find(db.rows, e.strategyId, e.symbol, e.accountId).Some?
    ensures var w := Write(db, e).value; w.1.sleeveId < |db.rows| && Continues(db, w.0, w.1)
  {
    assert RowOk(db, Write(db, e).value.1.sleeveId);
  }

  lemma AdoptContinues(db: Db, e: Event)
    requires DbOk(db) && e.Adopt? && Write(db, e).Some?
    ensures var w := Write(db, e).value; w.1.sleeveId < |db.rows| && Continues(db, w.0, w.1)
  {
    var id := e.snapshot.id;
    var h := Of(db.log, id);
    assert RowOk(db, id);
    assert h[..|h|] == h && h == h[..|h| - 1] + [h[|h| - 1]];
    FoldAppend(h[..|h| - 1], h[|h| - 1]);
  }

  lemma MoveContinues(db: Db, e: Event)
    requires DbOk(db) && e.Transition? && e.expected == None && Write(db, e).Some?
    requires Tells(e.snapshot, Of(db.log, e.snapshot.id))
    ensures var w := Write(db, e).value; w.1.sleeveId < |db.rows| && Continues(db, w.0, w.1)
  {
    assert RowOk(db, e.snapshot.id);
  }

  /** A transition made with the version of its snapshot, which says what the log up to there says. */
  ghost predicate Genuine(db: Db, e: Event) {
    e.Transition? ==>
      e.expected == None && (e.snapshot.id < |db.rows| ==> Tells(e.snapshot, Of(db.log, e.snapshot.id)))
  }

  /** Re-registration and adoption read the row under lock, so they always continue the chain;
      a transition does when its snapshot is what the row's own version says. */
  lemma StepKeepsDb(db: Db, e: Event)
    requires DbOk(db) && Genuine(db, e)
    ensures DbOk(Apply(db, e))
  {
    var w := Write(db, e);
    if w.Some? {
      if e.Register? && Find(db.rows, e.strategyId, e.symbol, e.accountId).None? {
        RegisterNewKeepsDb(db, e);
      } else {
        match e {
          case Register(_, _, _, _, _, _, _) => ReRegisterContinues(db, e);
          case Transition(_, _, _, _, _, _) => MoveContinues(db, e);
          case Adopt(_, _, _) => AdoptContinues(db, e);
        }
        UpdateKeepsDb(db, w.value.0, w.value.1);
      }
    }
  }

  // ------------------------------------------------------------------
  // Runs of any number of clients
  // ------------------------------------------------------------------

  /** `s` was the committed row at some earlier moment of the run.  Its origin may have been
      edited in memory since: nothing here trusts it. */
  ghost predicate WasRead(es: seq<Event>, s: Sleeve) {
    exists j :: 0 <= j <= |es| && ReadAt(Run(es[..j]), s)
  }

  ghost predicate ReadAt(db: Db, s: Sleeve) {
    s.id < |db.rows| && s.(origin := Human) == db.rows[s.id].(origin := Human)
  }

  /** Every transition uses a snapshot some client really read, however stale, and its version. */
  ghost predicate ClientRun(es: seq<Event>) {
    forall i :: 0 <= i < |es| && es[i].Transition? ==> es[i].expected == None && WasRead(es[..i], es[i].snapshot)
  }

  /** From `a` to `b` sleeve `id`'s log only grew, and its row moved only with it. */
  ghost predicate Grown(a: Db, b: Db, id: nat) {
    && |a.rows| <= |b.rows| && Of(a.log, id) <= Of(b.log, id)
    && (id < |a.rows| && |Of(a.log, id)| == |Of(b.log, id)| ==> b.rows[id] == a.rows[id])
  }

  lemma GrownTransitive(a: Db, b: Db, c: Db, id: nat)
    requires Grown(a, b, id) && Grown(b, c, id)
    ensures Grown(a, c, id)
  {
  }

  lemma StepGrows(db: Db, e: Event, id: nat)
    ensures Grown(db, Apply(db, e), id)
  {
    var w := Write(db, e);
    if w.Some? {
      OfAppend(db.log, w.value.1, id);
    }
  }

  lemma RunStep(es: seq<Event>, n: nat)
    requires n < |es|
    ensures Run(es[..n + 1]) == Apply(Run(es[..n]), es[n])
  {
    assert es[..n + 1] == es[..n] + [es[n]];
    RunAppend(es[..n], es[n]);
  }

  lemma GrownStep(a: Db, b: Db, c: Db, e: Event, id: nat)
    requires Grown(a, b, id) && c == Apply(b, e)
    ensures Grown(a, c, id)
  {
    StepGrows(b, e, id);
    GrownTransitive(a, b, c, id);
  }

  lemma GrownReflexive(db: Db, id: nat)
    ensures Grown(db, db, id)
  {
  }

  /** Between two moments of a run a sleeve's log only grows, and the row moves only with it. */
  lemma {:induction false} LogGrows(es: seq<Event>, j: nat, n: nat, id: nat)
    requires j <= n <= |es|
    ensures Grown(Run(es[..j]), Run(es[..n]), id)
    decreases n
  {
    if j == n {
      GrownReflexive(Run(es[..j]), id);
    } else {
      LogGrows(es, j, n - 1, id);
      RunStep(es, n - 1);
      GrownStep(Run(es[..j]), Run(es[..n - 1]), Run(es[..n]), es[n - 1], id);
    }
  }

  lemma TellsLonger(s: Sleeve, h: seq<Entry>, longer: seq<Entry>)
    requires Tells(s, h) && h <= longer
    ensures Tells(s, longer)
  {
    assert h[..s.version] == longer[..s.version];
  }

  lemma ReadTells(was: Db, log: seq<Entry>, s: Sleeve)
    requires DbOk(was) && ReadAt(was, s) && Of(was.log, s.id) <= Of(log, s.id)
    ensures Tells(s, Of(log, s.id))
  {
    assert RowOk(was, s.id);
    TellsLonger(s, Of(was.log, s.id), Of(log, s.id));
  }

  /** A snapshot read at any moment keeps describing the log prefix of its version. */
  lemma ReadStaysGenuine(es: seq<Event>, j: nat, n: nat, s: Sleeve)
    requires j <= n <= |es| && DbOk(Run(es[..j])) && ReadAt(Run(es[..j]), s)
    ensures s.id < |Run(es[..n]).rows| && Tells(s, Of(Run(es[..n]).log, s.id))
  {
    LogGrows(es, j, n, s.id);
    ReadTells(Run(es[..j]), Run(es[..n]).log, s);
  }

  /** When the snapshot of a client's transition was read. */
  lemma ReadMoment(es: seq<Event>, n: nat) returns (j: nat)
    requires ClientRun(es) && n < |es| && es[n].Transition?
    ensures j <= n && ReadAt(Run(es[..j]), es[n].snapshot) && es[n].expected == None
  {
    assert WasRead(es[..n], es[n].snapshot);
    j :| 0 <= j <= n && ReadAt(Run(es[..n][..j]), es[n].snapshot);
    assert es[..n][..j] == es[..j];
  }

  lemma GenuineMove(es: seq<Event>, j: nat, n: nat)
    requires j <= n < |es| && es[n].Transition? && es[n].expected == None
    requires DbOk(Run(es[..j])) && ReadAt(Run(es[..j]), es[n].snapshot)
    ensures Genuine(Run(es[..n]), es[n])
  {
    ReadStaysGenuine(es, j, n, es[n].snapshot);
  }

  lemma NextMomentOk(es: seq<Event>, n: nat)
    requires n < |es| && DbOk(Run(es[..n])) && Genuine(Run(es[..n]), es[n])
    ensures DbOk(Run(es[..n + 1]))
  {
    StepKeepsDb(Run(es[..n]), es[n]);
    RunStep(es, n);
  }

  lemma {:induction false} MomentOk(es: seq<Event>, n: nat)
    requires ClientRun(es) && n <= |es|
    ensures DbOk(Run(es[..n]))
    decreases n
  {
    if n > 0 {
      MomentOk(es, n - 1);
      if es[n - 1].Transition? {
        var j := ReadMoment(es, n - 1);
        MomentOk(es, j);
        GenuineMove(es, j, n - 1);
      }
      NextMomentOk(es, n - 1);
    }
  }

  /** No lost update.  In every interleaving of registrations, transitions and adoptions by any
      number of clients holding arbitrarily stale snapshots, every sleeve's log is the gapless
      chain 1..version from none to candidate, each entry starting where the last ended, and the
      row is what that log folds to. */
  lemma NoLostUpdate(es: seq<Event>)
    requires ClientRun(es)
    ensures DbOk(Run(es))
  {
    MomentOk(es, |es|);
    assert es[..|es|] == es;
  }

  lemma CommitFits(was: Db, now: Db, e: Event)
    requires e.Transition? && e.expected == None && ReadAt(was, e.snapshot) && e.snapshot.id < |now.rows|
    requires var id := e.snapshot.id;
             && was.rows[id].version == |Of(was.log, id)| && now.rows[id].version == |Of(now.log, id)|
             && Of(was.log, id) <= Of(now.log, id)
             && (|Of(was.log, id)| == |Of(now.log, id)| ==> now.rows[id] == was.rows[id])
    ensures var id := e.snapshot.id;
            Write(now, e).Some? ==>
              && Of(now.log, id) == Of(was.log, id) && now.rows[id] == was.rows[id]
              && Write(now, e).value.1.fromState == Some(now.rows[id].state)
  {
  }

  /** A transition commits only if its sleeve has not changed since the snapshot was read: an
      intervening commit is never overwritten. */
  lemma CommitMeansUnchanged(es: seq<Event>, j: nat, e: Event)
    requires ClientRun(es) && j <= |es| && e.Transition? && e.expected == None
    requires ReadAt(Run(es[..j]), e.snapshot)
    ensures var id := e.snapshot.id;
            Write(Run(es), e).Some? ==>
              && Of(Run(es).log, id) == Of(Run(es[..j]).log, id)
              && Run(es).rows[id] == Run(es[..j]).rows[id]
              && Write(Run(es), e).value.1.fromState == Some(Run(es).rows[id].state)
  {
    var was, now := Run(es[..j]), Run(es);
    MomentOk(es, j);
    NoLostUpdate(es);
    assert es[..|es|] == es;
    LogGrows(es, j, |es|, e.snapshot.id);
    assert RowOk(was, e.snapshot.id) && RowOk(now, e.snapshot.id);
    CommitFits(was, now, e);
  }

  // ------------------------------------------------------------------
  // An explicit expected version
  // ------------------------------------------------------------------

  /** The snapshot agrees with the row in every field a transition to `target` takes from it. */
  predicate Agrees(s: Sleeve, row: Sleeve, target: State) {
    && s.state == row.state && s.probationCount == row.probationCount
    && (target == Paper || target == Live || s.environment == row.environment)
  }

  lemma AgreeingMoveContinues(db: Db, e: Event)
    requires DbOk(db) && e.Transition? && Write(db, e).Some? && Agrees(e.snapshot, db.rows[e.snapshot.id], e.target)
    ensures var w := Write(db, e).value; w.1.sleeveId < |db.rows| && Continues(db, w.0, w.1)
  {
    assert RowOk(db, e.snapshot.id);
  }

  /** What a log extended by one entry says about the row that wrote it. */
  lemma ExtendedTells(h: seq<Entry>, e: Entry, row: Sleeve)
    requires Chain(h + [e]) && Tells(row, h + [e]) && row.version == |h| + 1 && h != []
    ensures e.fromState == Some(h[|h| - 1].toState)
    ensures row.probationCount == Probations(h) + ProbationStep(e.fromState, e.toState)
    ensures row.environment == EntryEnvironment(e.toState, LastEnvironment(h))
  {
    var all := h + [e];
    assert all[|h|].fromState == Some(all[|h| - 1].toState);
    assert all[..|h| + 1] == all;
    FoldAppend(h, e);
  }

  /** Between two faithful rows one entry apart, the later continues the earlier. */
  lemma NextRowSays(db: Db, next: Db, id: nat, e: Entry)
    requires id < |db.rows| && id < |next.rows| && RowOk(db, id) && RowOk(next, id)
    requires Of(next.log, id) == Of(db.log, id) + [e]
    ensures e.fromState == Some(db.rows[id].state)
    ensures next.rows[id].probationCount == db.rows[id].probationCount + ProbationStep(e.fromState, e.toState)
    ensures next.rows[id].environment == EntryEnvironment(e.toState, db.rows[id].environment)
  {
    var h := Of(db.log, id);
    assert h[..|h|] == h;
    ExtendedTells(h, e, next.rows[id]);
  }

  lemma FaithfulMoveAgrees(db: Db, e: Event)
    requires DbOk(db) && e.Transition? && Write(db, e).Some? && DbOk(Apply(db, e))
    ensures Agrees(e.snapshot, db.rows[e.snapshot.id], e.target)
  {
    var id, w := e.snapshot.id, Write(db, e).value;
    OfAppend(db.log, w.1, id);
    assert RowOk(db, id) && RowOk(Apply(db, e), id);
    NextRowSays(db, Apply(db, e), id, w.1);
  }

  /** With `expected_version` given explicitly, a committed transition keeps the log a faithful
      chain exactly when the snapshot agrees with the row in the fields it is used for. */
  lemma ExplicitVersionKeepsDbIff(db: Db, e: Event)
    requires DbOk(db) && e.Transition? && Write(db, e).Some?
    ensures DbOk(Apply(db, e)) <==> Agrees(e.snapshot, db.rows[e.snapshot.id], e.target)
  {
    if Agrees(e.snapshot, db.rows[e.snapshot.id], e.target) {
      AgreeingMoveContinues(db, e);
      UpdateKeepsDb(db, Write(db, e).value.0, Write(db, e).value.1);
    }
    if DbOk(Apply(db, e)) {
      FaithfulMoveAgrees(db, e);
    }
  }

  /** Register, move up, then move again with the first snapshot and the current version. */
  function OverrideRun(r: Event): seq<Event>
    requires r.Register?
  {
    [r, Transition(NewRow(0, r), Paper, "up", r.actor, None, None),
     Transition(NewRow(0, r), Retired, "stale", r.actor, None, Some(2))]
  }

  lemma RunThree(a: Event, b: Event, c: Event)
    ensures Run([a, b, c]) == Apply(Apply(Apply(EMPTY_DB, a), b), c)
  {
    RunAppend([], a);
    RunAppend([a], b);
    RunAppend([a, b], c);
    assert [] + [a] == [a] && [a] + [b] == [a, b] && [a, b] + [c] == [a, b, c];
  }

  lemma OfThree(a: Entry, b: Entry, c: Entry, id: nat)
    requires a.sleeveId == b.sleeveId == c.sleeveId == id
    ensures Of([a, b, c], id) == [a, b, c]
  {
    OfAppend([], a, id);
    OfAppend([a], b, id);
    OfAppend([a, b], c, id);
    assert [] + [a] == [a] && [a] + [b] == [a, b] && [a, b] + [c] == [a, b, c];
  }

  lemma FirstMove(r: Event, first: Entry)
    requires r.Register?
    ensures Apply(EMPTY_DB, r) == Db([NewRow(0, r)], [Entry(0, 1, None, Candidate, "registered", r.actor, None)])
    ensures var next := Apply(Db([NewRow(0, r)], [first]), OverrideRun(r)[1]);
            && |next.rows| == 1 && next.rows[0].version == 2
            && next.log == [first, Entry(0, 2, Some(Candidate), Paper, "up", r.actor, None)]
  {
  }

  lemma StaleMove(db: Db, r: Event)
    requires r.Register? && |db.rows| == 1 && db.rows[0].version == 2
    ensures Apply(db, OverrideRun(r)[2]).log == db.log + [Entry(0, 3, Some(Candidate), Retired, "stale", r.actor, None)]
  {
  }

  /** A stale snapshot paired with the current version commits and breaks the chain: the log says
      the sleeve left candidate although it was in paper. */
  lemma ExplicitVersionCanBreakTheLog(r: Event)
    requires r.Register?
    ensures var h := Of(Run(OverrideRun(r)).log, 0);
            |h| == 3 && h[1].toState == Paper && h[2].fromState == Some(Candidate) && !Chain(h)
  {
    var es := OverrideRun(r);
    var first := Entry(0, 1, None, Candidate, "registered", r.actor, None);
    var up := Entry(0, 2, Some(Candidate), Paper, "up", r.actor, None);
    var stale := Entry(0, 3, Some(Candidate), Retired, "stale", r.actor, None);
    RunThree(es[0], es[1], es[2]);
    FirstMove(r, first);
    StaleMove(Apply(Db([NewRow(0, r)], [first]), es[1]), r);
    assert [first, up] + [stale] == [first, up, stale];
    OfThree(first, up, stale, 0);
  }

  // ------------------------------------------------------------------
  // The challenger barrier: holds for arbitrary callers, forged snapshots included
  // ------------------------------------------------------------------
  ghost predicate NeverLive(h: seq<Entry>) { forall k :: 0 <= k < |h| ==> h[k].toState != Live }

  ghost predicate RowBarred(db: Db, i: nat)
    requires i < |db.rows|
  {
    db.rows[i].origin == Challenger ==> db.rows[i].state != Live && NeverLive(Of(db.log, i))
  }

  ghost predicate Barred(db: Db) {
    Referenced(db) && forall i: nat :: i < |db.rows| ==> RowBarred(db, i)
  }

  lemma StepKeepsRowBarred(db: Db, e: Event, i: nat)
    requires Barred(db) && Write(db, e).Some? && i < |Apply(db, e).rows|
    ensures RowBarred(Apply(db, e), i)
  {
    OfAppend(db.log, Write(db, e).value.1, i);
    if i == |db.rows| {
      OfAbsent(db.log, i);
    } else {
      assert RowBarred(db, i);
    }
  }

  lemma StepKeepsBarred(db: Db, e: Event)
    requires Barred(db)
    ensures Barred(Apply(db, e))
  {
    if Write(db, e).Some? {
      forall i: nat | i < |Apply(db, e).rows| ensures RowBarred(Apply(db, e), i) {
        StepKeepsRowBarred(db, e, i);
      }
    }
  }

  /** No run, by any callers with any snapshots, reaches a live challenger. */
  lemma {:induction false} NoLiveChallenger(es: seq<Event>)
    ensures Barred(Run(es))
  {
    if es != [] {
      NoLiveChallenger(es[..|es| - 1]);
      StepKeepsBarred(Run(es[..|es| - 1]), es[|es| - 1]);
    }
  }

  /** The mark an adoption leaves: a named person, from the state to itself. */
  ghost predicate IsAdoption(e: Entry) {
    e.fromState == Some(e.toState) && NamedHuman(e.actor) && ADOPTED_PREFIX <= e.reason
  }

  lemma StripIdempotent(s: string)
    ensures Text.Strip(Text.Strip(s)) == Text.Strip(s)
  {
  }

  lemma AdoptionEntry(db: Db, e: Event)
    requires e.Adopt? && Write(db, e).Some?
    ensures IsAdoption(Write(db, e).value.1)
  {
    StripIdempotent(e.actor);
  }

  /** The mark alone proves nothing: an ordinary transition from a state to itself, with the right
      reason, leaves it too, and the sleeve is still a challenger. */
  lemma MarkCanBeForged(db: Db, id: nat, actor: string)
    requires id < |db.rows| && db.rows[id].id == id && db.rows[id].origin == Challenger
    requires Known(db.rows[id].state) && db.rows[id].state != Live && NamedHuman(actor)
    ensures var forged := Transition(db.rows[id], db.rows[id].state, ADOPTED_PREFIX + "x", actor, None, None);
            && Write(db, forged).Some? && IsAdoption(Write(db, forged).value.1)
            && Write(db, forged).value.0.origin == Challenger
  {
  }

  /** Call `k` of the run was an adoption of sleeve `id`, by a named person, and it committed. */
  ghost predicate Adopts(es: seq<Event>, k: nat, id: nat)
    requires k < |es|
  {
    && es[k].Adopt? && es[k].snapshot.id == id && NamedHuman(es[k].actor)
    && Write(Run(es[..k]), es[k]).Some?
  }

  /** The place in sleeve `id`'s log where call `k` writes. */
  ghost function PlaceOf(es: seq<Event>, k: nat, id: nat): nat
    requires k <= |es|
  {
    |Of(Run(es[..k]).log, id)|
  }

  /** Between calls `j` and `n` the sleeve was adopted, and the adoption's entry is before place `p`. */
  ghost predicate AdoptedBefore(es: seq<Event>, j: nat, n: nat, id: nat, p: nat)
    requires n <= |es|
  {
    exists k :: j <= k < n && Adopts(es, k, id) && PlaceOf(es, k, id) < p
  }

  lemma AdoptedStays(es: seq<Event>, j: nat, n: nat, id: nat, p: nat, m: nat, q: nat)
    requires n <= m <= |es| && p <= q && AdoptedBefore(es, j, n, id, p)
    ensures AdoptedBefore(es, j, m, id, q)
  {
    var k :| j <= k < n && Adopts(es, k, id) && PlaceOf(es, k, id) < p;
    assert j <= k < m && PlaceOf(es, k, id) < q;
  }

  /** An adoption call is in the log, where it was written, for good. */
  lemma AdoptionIsLogged(es: seq<Event>, k: nat, n: nat, id: nat)
    requires k < n <= |es| && Adopts(es, k, id)
    ensures var h := Of(Run(es[..n]).log, id);
            && PlaceOf(es, k, id) < |h|
            && h[PlaceOf(es, k, id)] == Write(Run(es[..k]), es[k]).value.1
            && IsAdoption(h[PlaceOf(es, k, id)])
  {
    var db, e := Run(es[..k]), es[k];
    AdoptionEntry(db, e);
    OfAppend(db.log, Write(db, e).value.1, id);
    RunStep(es, k);
    LogGrows(es, k + 1, n, id);
  }

  /** What a write to an existing row can do to origin and state. */
  lemma OwnWrite(db: Db, e: Event)
    requires Write(db, e).Some? && Write(db, e).value.1.sleeveId < |db.rows|
    ensures var w := Write(db, e).value;
            var was := db.rows[w.1.sleeveId];
            && w.0.state == w.1.toState
            && (if e.Adopt? then was.origin == Challenger && w.0.origin == Human && w.0.state == was.state
                                 && NamedHuman(e.actor) && e.snapshot.id == w.1.sleeveId
                else w.0.origin == was.origin)
            && (w.1.toState == Live ==> was.origin == Human || was.state == Live)
  {
  }

  /** Where a once-challenger sleeve stands: still barred and never live, or adopted since call `j`;
      and every live entry of its log was preceded by such an adoption. */
  ghost predicate Answered(es: seq<Event>, j: nat, n: nat, id: nat)
    requires n <= |es|
  {
    var db := Run(es[..n]);
    && Referenced(db) && id < |db.rows|
    && Standing(es, j, n, id, Of(db.log, id), db.rows[id])
  }

  ghost predicate Standing(es: seq<Event>, j: nat, n: nat, id: nat, h: seq<Entry>, row: Sleeve)
    requires n <= |es|
  {
    && (row.origin == Challenger ==> NeverLive(h) && row.state != Live)
    && (row.origin == Human ==> AdoptedBefore(es, j, n, id, |h|))
    && (forall p :: 0 <= p < |h| && h[p].toState == Live ==> AdoptedBefore(es, j, n, id, p))
  }

  /** Nothing new in the sleeve's log. */
  lemma StandingIdle(es: seq<Event>, j: nat, n: nat, id: nat, h: seq<Entry>, row: Sleeve)
    requires n < |es| && Standing(es, j, n, id, h, row)
    ensures Standing(es, j, n + 1, id, h, row)
  {
    if row.origin == Human { AdoptedStays(es, j, n, id, |h|, n + 1, |h|); }
    forall p | 0 <= p < |h| && h[p].toState == Live ensures AdoptedBefore(es, j, n + 1, id, p) {
      AdoptedStays(es, j, n, id, p, n + 1, p);
    }
  }

  /** One more entry, written by call `n`. */
  lemma StandingStep(es: seq<Event>, j: nat, n: nat, id: nat, h: seq<Entry>, was: Sleeve, now: Sleeve, e: Entry)
    requires j <= n < |es| && Standing(es, j, n, id, h, was) && now.state == e.toState
    requires PlaceOf(es, n, id) == |h|
    requires now.origin == was.origin || (now.origin == Human && now.state == was.state && Adopts(es, n, id))
    requires e.toState == Live ==> was.origin == Human || was.state == Live
    ensures Standing(es, j, n + 1, id, h + [e], now)
  {
    StandingIdle(es, j, n, id, h, was);
    if was.origin == Human {
      AdoptedStays(es, j, n + 1, id, |h|, n + 1, |h| + 1);
    } else if now.origin == Human {
      assert PlaceOf(es, n, id) < |h| + 1;
    }
  }

  /** The same for whatever call `n` does, given the databases before and after it. */
  lemma StandingAfter(es: seq<Event>, j: nat, n: nat, id: nat, db: Db, next: Db)
    requires j <= n < |es| && next == Apply(db, es[n]) && PlaceOf(es, n, id) == |Of(db.log, id)|
    requires es[n].Adopt? && es[n].snapshot.id == id && Write(db, es[n]).Some? ==> Adopts(es, n, id)
    requires Referenced(db) && id < |db.rows| && Standing(es, j, n, id, Of(db.log, id), db.rows[id])
    ensures Referenced(next) && id < |next.rows| && Standing(es, j, n + 1, id, Of(next.log, id), next.rows[id])
  {
    var w, h := Write(db, es[n]), Of(db.log, id);
    if w.Some? { OfAppend(db.log, w.value.1, id); }
    if w.Some? && w.value.1.sleeveId == id {
      OwnWrite(db, es[n]);
      StandingStep(es, j, n, id, h, db.rows[id], w.value.0, w.value.1);
    } else {
      StandingIdle(es, j, n, id, h, db.rows[id]);
    }
  }

  lemma StepKeepsAnswered(es: seq<Event>, j: nat, n: nat, id: nat)
    requires j <= n < |es| && Answered(es, j, n, id)
    ensures Answered(es, j, n + 1, id)
  {
    RunStep(es, n);
    StandingAfter(es, j, n, id, Run(es[..n]), Run(es[..n + 1]));
  }

  /** At moment `j` the sleeve exists and is a challenger. */
  ghost predicate ChallengerAt(es: seq<Event>, j: nat, id: nat)
    requires j <= |es|
  {
    id < |Run(es[..j]).rows| && Run(es[..j]).rows[id].origin == Challenger
  }

  lemma BarredStands(es: seq<Event>, j: nat, id: nat)
    requires j <= |es| && ChallengerAt(es, j, id)
    ensures Answered(es, j, j, id)
  {
    NoLiveChallenger(es[..j]);
    assert RowBarred(Run(es[..j]), id);
  }

  lemma {:induction false} StandsAnswered(es: seq<Event>, j: nat, n: nat, id: nat)
    requires j <= n <= |es| && ChallengerAt(es, j, id)
    ensures Answered(es, j, n, id)
    decreases n
  {
    if j == n {
      BarredStands(es, j, id);
    } else {
      StandsAnswered(es, j, n - 1, id);
      StepKeepsAnswered(es, j, n - 1, id);
    }
  }

  /** A sleeve first registered by call `k` as a challenger is one from then on, until it is adopted. */
  lemma RegisteredAsChallenger(es: seq<Event>, k: nat, id: nat)
    requires k < |es| && es[k].Register? && es[k].origin == Challenger
    requires NotOnRoster(Run(es[..k]).rows, es[k].strategyId, es[k].symbol, es[k].accountId) && id == |Run(es[..k]).rows|
    ensures ChallengerAt(es, k + 1, id)
    ensures var row := Run(es[..k + 1]).rows[id];
            row.strategyId == es[k].strategyId && row.symbol == Text.Upper(es[k].symbol) && row.accountId == es[k].accountId
  {
    FirstRegistration(Run(es[..k]), es[k]);
    RunStep(es, k);
  }

  /** A sleeve that was a challenger at any moment of a run enters live later only after
      `adopt_challenger` was called for it by a named person, and committed, since that moment: whatever
      snapshots and reasons callers forge, whatever versions they pass, and across retirement and
      re-registration. */
  lemma LiveNeedsAdoption(es: seq<Event>, j: nat, n: nat, id: nat, p: nat)
    requires j <= n <= |es| && ChallengerAt(es, j, id)
    requires p < |Of(Run(es[..n]).log, id)| && Of(Run(es[..n]).log, id)[p].toState == Live
    ensures exists k :: j <= k < n && Adopts(es, k, id) && PlaceOf(es, k, id) < p
  {
    StandsAnswered(es, j, n, id);
    assert AdoptedBefore(es, j, n, id, p);
  }

  /** And it stops being a challenger only that way. */
  lemma OnlyAdoptionClears(es: seq<Event>, j: nat, n: nat, id: nat)
    requires j <= n <= |es| && ChallengerAt(es, j, id)
    ensures HumanAt(es, n, id) <==> exists k :: j <= k < n && Adopts(es, k, id)
  {
    StandsAnswered(es, j, n, id);
    if HumanAt(es, n, id) {
      assert AdoptedBefore(es, j, n, id, |Of(Run(es[..n]).log, id)|);
    } else {
      forall k | j <= k < n && Adopts(es, k, id) ensures false {
        AdoptedIsHuman(es, k, n, id);
      }
    }
  }

  ghost predicate IsHuman(db: Db, id: nat) { id < |db.rows| && db.rows[id].origin == Human }

  ghost predicate HumanAt(es: seq<Event>, n: nat, id: nat)
    requires n <= |es|
  {
    IsHuman(Run(es[..n]), id)
  }

  lemma AdoptionMakesHuman(es: seq<Event>, k: nat, id: nat)
    requires k < |es| && Adopts(es, k, id)
    ensures HumanAt(es, k + 1, id)
  {
    OwnWrite(Run(es[..k]), es[k]);
    RunStep(es, k);
  }

  lemma HumanNext(es: seq<Event>, n: nat, id: nat)
    requires n < |es| && HumanAt(es, n, id)
    ensures HumanAt(es, n + 1, id)
  {
    HumanStays(Run(es[..n]), es[n], id);
    RunStep(es, n);
  }

  lemma {:induction false} HumanKept(es: seq<Event>, m: nat, n: nat, id: nat)
    requires m <= n <= |es| && HumanAt(es, m, id)
    ensures HumanAt(es, n, id)
    decreases n
  {
    if m < n {
      HumanKept(es, m, n - 1, id);
      HumanNext(es, n - 1, id);
    }
  }

  lemma AdoptedIsHuman(es: seq<Event>, k: nat, n: nat, id: nat)
    requires k < n <= |es| && Adopts(es, k, id)
    ensures HumanAt(es, n, id)
  {
    AdoptionMakesHuman(es, k, id);
    HumanKept(es, k + 1, n, id);
  }

  lemma HumanStays(db: Db, e: Event, id: nat)
    requires IsHuman(db, id)
    ensures IsHuman(Apply(db, e), id)
  {
  }
}
