// The store as an object, and the read-decide-write clients on top of it
// (libs/lifecycle/src/lifecycle/store.py and service.py).
//
// A client's call is several transactions with gaps between them.  What other
// clients commit in a gap is a parameter: any sequence of events at all.

/** Facts about arbitrary runs that the clients rely on. */
module Roster {
  import opened Common
  import opened Lifecycle

  /** Versions count commits, whatever callers pass. */
  ghost predicate Counted(db: Db) {
    && Referenced(db) && Unique(db)
    && (forall i: nat :: i < |db.rows| ==> db.rows[i].id == i && db.rows[i].version == |Of(db.log, i)|)
  }

  ghost predicate SameIdentity(a: Sleeve, b: Sleeve) {
    a.id == b.id && a.strategyId == b.strategyId && a.symbol == b.symbol && a.accountId == b.accountId
    && a.strategyVersion == b.strategyVersion
  }

  /** Writes to an existing row keep its identity and add one to its version. */
  lemma WriteKeepsIdentity(db: Db, e: Event)
    requires Counted(db) && Write(db, e).Some? && Write(db, e).value.1.sleeveId < |db.rows|
    ensures var w := Write(db, e).value;
            SameIdentity(w.0, db.rows[w.1.sleeveId]) && w.0.version == db.rows[w.1.sleeveId].version + 1
  {
  }

  lemma UpdateKeepsCounted(db: Db, row: Sleeve, e: Entry)
    requires Counted(db) && e.sleeveId < |db.rows|
    requires SameIdentity(row, db.rows[e.sleeveId]) && row.version == db.rows[e.sleeveId].version + 1
    ensures Counted(Db(db.rows[e.sleeveId := row], db.log + [e]))
  {
    var next := Db(db.rows[e.sleeveId := row], db.log + [e]);
    forall i: nat | i < |next.rows| ensures next.rows[i].id == i && next.rows[i].version == |Of(next.log, i)| {
      OfAppend(db.log, e, i);
    }
    assert forall i :: 0 <= i < |db.rows| ==> SameIdentity(next.rows[i], db.rows[i]);
    assert Unique(next);
  }

  lemma InsertKeepsCounted(db: Db, e: Event)
    requires Counted(db) && e.Register? && Find(db.rows, e.strategyId, e.symbol, e.accountId).None?
    ensures Counted(Apply(db, e))
  {
    var id := |db.rows|;
    var entry := Entry(id, 1, None, Candidate, "registered", e.actor, None);
    var next := Db(db.rows + [NewRow(id, e)], db.log + [entry]);
    assert Apply(db, e) == next;
    OfAbsent(db.log, id);
    forall i: nat | i < |next.rows| ensures next.rows[i].id == i && next.rows[i].version == |Of(next.log, i)| {
      OfAppend(db.log, entry, i);
    }
    assert forall i :: 0 <= i < id ==> !Identity(db.rows[i], e.strategyId, e.symbol, e.accountId);
    assert Unique(next);
  }

  lemma {:induction false} RunsAreCounted(es: seq<Event>)
    ensures Counted(Run(es))
  {
    if es != [] {
      var before, e := Run(es[..|es| - 1]), es[|es| - 1];
      RunsAreCounted(es[..|es| - 1]);
      var w := Write(before, e);
      if w.Some? {
        if w.value.1.sleeveId < |before.rows| {
          WriteKeepsIdentity(before, e);
          UpdateKeepsCounted(before, w.value.0, w.value.1);
        } else {
          InsertKeepsCounted(before, e);
        }
      }
    }
  }

  /** One step keeps a row's identity, and changes the row only by lengthening its log. */
  lemma StepKeepsIdentity(db: Db, e: Event, id: nat)
    requires Counted(db) && id < |db.rows|
    ensures var next := Apply(db, e);
            && id < |next.rows| && SameIdentity(next.rows[id], db.rows[id])
            && (|| (next.rows[id] == db.rows[id] && Of(next.log, id) == Of(db.log, id))
                || (Of(db.log, id) <= Of(next.log, id) && |Of(next.log, id)| == |Of(db.log, id)| + 1))
  {
    var w := Write(db, e);
    if w.Some? {
      OfAppend(db.log, w.value.1, id);
      if w.value.1.sleeveId == id { WriteKeepsIdentity(db, e); }
    }
  }

  lemma {:induction false} IdentityStays(es: seq<Event>, gap: seq<Event>, id: nat)
    requires id < |Run(es).rows|
    ensures id < |Run(es + gap).rows| && SameIdentity(Run(es + gap).rows[id], Run(es).rows[id])
    ensures Of(Run(es).log, id) <= Of(Run(es + gap).log, id)
    ensures |Of(Run(es).log, id)| == |Of(Run(es + gap).log, id)| ==> Run(es + gap).rows[id] == Run(es).rows[id]
  {
    if gap == [] {
      assert es + gap == es;
    } else {
      var g, e := gap[..|gap| - 1], gap[|gap| - 1];
      IdentityStays(es, g, id);
      assert es + gap == (es + g) + [e];
      RunAppend(es + g, e);
      RunsAreCounted(es + g);
      StepKeepsIdentity(Run(es + g), e, id);
    }
  }

  /** Someone else committed to sleeve `id` during `gap`. */
  ghost predicate Contended(es: seq<Event>, gap: seq<Event>, id: nat) {
    |Of(Run(es + gap).log, id)| > |Of(Run(es).log, id)|
  }

  /** A write with a snapshot taken before `gap` is a lost race exactly when someone else
      committed to the sleeve in between. */
  lemma LostRaceIff(es: seq<Event>, gap: seq<Event>, e: Event)
    requires e.Transition? && e.expected == None
    requires e.snapshot.id < |Run(es).rows| && Run(es).rows[e.snapshot.id] == e.snapshot
    ensures var id, db := e.snapshot.id, Run(es + gap);
            && id < |db.rows|
            && (Contended(es, gap, id) <==> db.rows[id].version != e.snapshot.version)
            && (!Contended(es, gap, id) ==> db.rows[id] == e.snapshot && Of(db.log, id) == Of(Run(es).log, id))
  {
    var id := e.snapshot.id;
    IdentityStays(es, gap, id);
    RunsAreCounted(es);
    RunsAreCounted(es + gap);
  }

  /** The entry of a move made on top of what was read. */
  ghost function EntryOf(e: Event): Entry
    requires e.Transition?
  {
    Entry(e.snapshot.id, e.snapshot.version + 1, Some(e.snapshot.state), e.target, e.reason, e.actor, e.evidence)
  }

  /** `after` is `before` with the move `e` made to its sleeve: the row is in the target state and
      the sleeve's log is one entry longer. */
  ghost predicate Landed(before: Db, after: Db, e: Event)
    requires e.Transition?
  {
    var s := e.snapshot;
    && s.id < |after.rows| && after.rows[s.id].id == s.id && after.rows[s.id].state == e.target
    && Of(after.log, s.id) == Of(before.log, s.id) + [EntryOf(e)]
  }

  /** A challenger headed for live. */
  predicate Barrier(e: Event) { e.Transition? && e.target == Live && e.snapshot.origin == Challenger }

  lemma MoveApplied(db: Db, e: Event)
    requires e.Transition? && e.expected == None && TransitionError(db, e) == None
    ensures e.snapshot.id < |db.rows|
    ensures Apply(db, e) == Db(db.rows[e.snapshot.id := Moved(db.rows[e.snapshot.id], e)], db.log + [EntryOf(e)])
  {
    assert Write(db, e).Some?;
  }

  lemma LandedBy(before: Db, rows: seq<Sleeve>, log: seq<Entry>, e: Event, next: Sleeve)
    requires e.Transition? && e.snapshot.id < |rows| && next.id == e.snapshot.id && next.state == e.target
    requires Of(log, e.snapshot.id) == Of(before.log, e.snapshot.id)
    ensures Landed(before, Db(rows[e.snapshot.id := next], log + [EntryOf(e)]), e)
  {
    OfAppend(log, EntryOf(e), e.snapshot.id);
  }

  /** When the row read is still there, the write lands on it. */
  lemma WriteLands(before: Db, db: Db, e: Event)
    requires e.Transition? && e.expected == None && TransitionError(db, e) == None && e.snapshot.id < |db.rows|
    requires db.rows[e.snapshot.id] == e.snapshot && Of(db.log, e.snapshot.id) == Of(before.log, e.snapshot.id)
    ensures Landed(before, Apply(db, e), e)
  {
    MoveApplied(db, e);
    LandedBy(before, db.rows, db.log, e, Moved(db.rows[e.snapshot.id], e));
  }

  lemma WriteRefusedIff(db: Db, e: Event, contended: bool)
    requires e.Transition? && e.expected == None && e.snapshot.id < |db.rows|
    requires contended <==> db.rows[e.snapshot.id].version != e.snapshot.version
    requires !contended ==> db.rows[e.snapshot.id] == e.snapshot
    ensures var error := TransitionError(db, e);
            && (error.None? <==> Known(e.target) && !contended && !Barrier(e))
            && (error == Some(ConcurrentTransition) ==> contended)
            && (Known(e.target) && e.target != Live ==> (error == if contended then Some(ConcurrentTransition) else None))
  {
  }

  /** What such a write does: it lands on the row it was decided on, or changes nothing. */
  lemma AttemptOutcome(es: seq<Event>, gap: seq<Event>, e: Event, before: Db, db: Db)
    requires e.Transition? && e.expected == None && before == Run(es) && db == Run(es + gap)
    requires e.snapshot.id < |before.rows| && before.rows[e.snapshot.id] == e.snapshot
    ensures var error, id := TransitionError(db, e), e.snapshot.id;
            && (error.None? <==> Known(e.target) && !Contended(es, gap, id) && !Barrier(e))
            && (error.None? ==> Landed(before, Apply(db, e), e))
            && (error == Some(ConcurrentTransition) ==> Contended(es, gap, id))
            && (Known(e.target) && e.target != Live ==>
                  (error == if Contended(es, gap, id) then Some(ConcurrentTransition) else None))
  {
    LostRaceIff(es, gap, e);
    WriteRefusedIff(db, e, Contended(es, gap, e.snapshot.id));
    if TransitionError(db, e).None? { WriteLands(before, db, e); }
  }

  // ------------------------------------------------------------------
  // Who wrote an entry
  // ------------------------------------------------------------------

  /** Call `k` wrote the entry at place `p` of sleeve `id`'s log as it is at moment `n`. */
  ghost predicate Wrote(es: seq<Event>, k: nat, n: nat, id: nat, p: nat)
    requires k < n <= |es|
  {
    var w, h := Write(Run(es[..k]), es[k]), Of(Run(es[..n]).log, id);
    w.Some? && w.value.1.sleeveId == id && PlaceOf(es, k, id) == p && p < |h| && h[p] == w.value.1
  }

  lemma WroteStays(es: seq<Event>, k: nat, n: nat, m: nat, id: nat, p: nat)
    requires k < n <= m <= |es| && Wrote(es, k, n, id, p)
    ensures Wrote(es, k, m, id, p)
  {
    LogGrows(es, n, m, id);
  }

  lemma WroteNow(es: seq<Event>, n: nat, m: nat, id: nat, p: nat)
    requires m == n + 1 <= |es| && PlaceOf(es, n, id) <= p < PlaceOf(es, m, id)
    ensures Wrote(es, n, m, id, p)
  {
    RunStep(es, n);
    var w := Write(Run(es[..n]), es[n]);
    if w.Some? { OfAppend(Run(es[..n]).log, w.value.1, id); }
  }

  lemma NoneAtFirst(es: seq<Event>, id: nat)
    ensures PlaceOf(es, 0, id) == 0
  {
    assert es[..0] == [];
  }

  /** Every entry of a sleeve's log was written by some call. */
  lemma {:induction false} WriterOf(es: seq<Event>, n: nat, id: nat, p: nat) returns (k: nat)
    requires n <= |es| && p < PlaceOf(es, n, id)
    ensures k < n && Wrote(es, k, n, id, p)
    decreases n
  {
    NoneAtFirst(es, id);
    k := n - 1;
    if p < PlaceOf(es, n - 1, id) {
      k := WriterOf(es, n - 1, id, p);
      WroteStays(es, k, n - 1, n, id, p);
    } else {
      WroteNow(es, n - 1, n, id, p);
    }
  }

  // ------------------------------------------------------------------
  // Runs made of client calls
  // ------------------------------------------------------------------

  /** What others commit in a gap uses snapshots they really read by then, with their own versions. */
  ghost predicate ClientGap(es: seq<Event>, gap: seq<Event>) {
    forall i :: 0 <= i < |gap| && gap[i].Transition? ==>
      gap[i].expected == None && WasRead(es + gap[..i], gap[i].snapshot)
  }

  lemma ReadEarlier(es: seq<Event>, later: seq<Event>, s: Sleeve)
    requires WasRead(es, s)
    ensures WasRead(es + later, s)
  {
    var j :| 0 <= j <= |es| && ReadAt(Run(es[..j]), s);
    assert (es + later)[..j] == es[..j];
  }

  lemma GapExtends(es: seq<Event>, gap: seq<Event>)
    requires ClientRun(es) && ClientGap(es, gap)
    ensures ClientRun(es + gap)
  {
    var all := es + gap;
    forall i | 0 <= i < |all| && all[i].Transition?
      ensures all[i].expected == None && WasRead(all[..i], all[i].snapshot)
    {
      if i < |es| {
        assert all[..i] == es[..i] && all[i] == es[i];
      } else {
        assert all[..i] == es + gap[..i - |es|] && all[i] == gap[i - |es|];
      }
    }
  }

  /** A write on top of what was read before the gap is one more client call. */
  lemma WriteExtends(es: seq<Event>, gap: seq<Event>, e: Event)
    requires ClientRun(es) && ClientGap(es, gap)
    requires e.Transition? && e.expected == None && ReadAt(Run(es), e.snapshot)
    ensures ClientRun(es + gap + [e])
  {
    GapExtends(es, gap);
    assert es[..|es|] == es;
    ReadEarlier(es, gap, e.snapshot);
    LastExtends(es + gap, e);
  }

  lemma LastExtends(es: seq<Event>, e: Event)
    requires ClientRun(es) && e.Transition? && e.expected == None && WasRead(es, e.snapshot)
    ensures ClientRun(es + [e])
  {
    var all := es + [e];
    forall i | 0 <= i < |all| && all[i].Transition?
      ensures all[i].expected == None && WasRead(all[..i], all[i].snapshot)
    {
      assert all[..i] == es[..i] && es[..|es|] == es;
    }
  }

  /** In a roster without duplicates, a row with the identity asked for is the one found. */
  lemma FindsTheOne(db: Db, id: nat, strategyId: string, symbol: string, accountId: string)
    requires Unique(db) && id < |db.rows| && Identity(db.rows[id], strategyId, symbol, accountId)
    ensures Find(db.rows, strategyId, symbol, accountId) == Some(id)
  {
    assert Find(db.rows, strategyId, symbol, accountId).Some?;
  }

  /** A registered sleeve is found again, at the same id, after anything else commits. */
  lemma FoundAgain(es: seq<Event>, gap: seq<Event>, strategyId: string, symbol: string, accountId: string)
    requires Find(Run(es).rows, strategyId, symbol, accountId).Some?
    ensures Find(Run(es + gap).rows, strategyId, symbol, accountId) == Find(Run(es).rows, strategyId, symbol, accountId)
  {
    var id := Find(Run(es).rows, strategyId, symbol, accountId).value;
    IdentityStays(es, gap, id);
    RunsAreCounted(es + gap);
    FindsTheOne(Run(es + gap), id, strategyId, symbol, accountId);
  }

  lemma FoundLater(es: seq<Event>, later: seq<Event>, strategyId: string, symbol: string, accountId: string)
    requires es <= later && Find(Run(es).rows, strategyId, symbol, accountId).Some?
    ensures Find(Run(later).rows, strategyId, symbol, accountId) == Find(Run(es).rows, strategyId, symbol, accountId)
  {
    assert later == es + later[|es|..];
    FoundAgain(es, later[|es|..], strategyId, symbol, accountId);
  }
}

module Service {
  import opened Common
  import opened Lifecycle
  import opened Roster
  import opened Evidence
  import PaperFigures
  import Text

  /** An immutable evidence snapshot. */
  datatype Snapshot = FromBacktest(backtest: Backtest) | FromPaper(paper: PaperRun)

  function RowFound(rows: seq<Sleeve>, strategyId: string, symbol: string, accountId: string): Option<Sleeve> {
    var found := Find(rows, strategyId, symbol, accountId);
    if found.None? then None else Some(rows[found.value])
  }

  /** `now` is `was`, or `was` back from retirement: whatever else it says of the sleeve, its origin and its
      probation count among it, is kept. */
  ghost predicate Kept(was: Sleeve, now: Sleeve) {
    && now.id == was.id && now.origin == was.origin && now.strategyVersion == was.strategyVersion
    && now.assetClass == was.assetClass && now.probationCount == was.probationCount && now.environment == was.environment
    && (if was.state == Retired then now.state == Candidate && now.version == was.version + 1 else now == was)
  }

  class LifecycleStore {
    var rows: seq<Sleeve>
    var log: seq<Entry>
    var evidence: seq<Snapshot>
    var artifacts: map<int, Artifact>
    ghost var trace: seq<Event>

    ghost function Database(): Db
      reads this
    {
      Db(rows, log)
    }

    /** The tables are what the committed calls so far produce. */
    ghost predicate Valid()
      reads this
    {
      Database() == Run(trace)
    }

    constructor ()
      ensures Valid() && trace == [] && evidence == [] && artifacts == map[]
    {
      rows, log, evidence, artifacts, trace := [], [], [], map[], [];
    }

    method Get(strategyId: string, symbol: string, accountId: string) returns (r: Option<Sleeve>)
      ensures r.Some? ==> r.value in rows && Identity(r.value, strategyId, symbol, accountId)
      ensures r.None? ==> forall s :: s in rows ==> !Identity(s, strategyId, symbol, accountId)
      ensures r == RowFound(rows, strategyId, symbol, accountId)
    {
      var found := Find(rows, strategyId, symbol, accountId);
      r := if found.None? then None else Some(rows[found.value]);
    }

    method AppendTransition(e: Entry)
      modifies this`log
      ensures log == old(log) + [e]
    {
      log := log + [e];
    }

    method Register(e: Event) returns (s: Sleeve)
      requires e.Register?
      modifies this`rows, this`log
      ensures Database() == Apply(old(Database()), e)
      ensures s in rows && s.state != Retired
      ensures s.strategyId == e.strategyId && s.symbol == Text.Upper(e.symbol) && s.accountId == e.accountId
      ensures NotOnRoster(old(rows), e.strategyId, e.symbol, e.accountId) ==>
                && rows == old(rows) + [s] && s.id == |old(rows)| && s.state == Candidate && s.version == 1
                && s.origin == e.origin && s.strategyVersion == e.strategyVersion && s.assetClass == e.assetClass
                && s.probationCount == 0 && s.environment == NoPosition
      ensures !NotOnRoster(old(rows), e.strategyId, e.symbol, e.accountId) ==>
                exists was :: was in old(rows) && Kept(was, s)
    {
      var found := Find(rows, e.strategyId, e.symbol, e.accountId);
      if found.Some? && rows[found.value].state != Retired {
        s := rows[found.value];
        assert Kept(s, s);
      } else if found.Some? {
        var row := rows[found.value];
        s := row.(state := Candidate, version := row.version + 1, reason := "re-registered");
        rows := rows[found.value := s];
        AppendTransition(Entry(found.value, row.version + 1, Some(row.state), Candidate, "re-registered", e.actor, None));
        assert rows[found.value] == s && Kept(row, s);
      } else {
        s := NewRow(|rows|, e);
        AppendTransition(Entry(|rows|, 1, None, Candidate, "registered", e.actor, None));
        rows := rows + [s];
        assert rows[|rows| - 1] == s;
      }
    }

    /** The move is made, or the error says why it was not. */
    method Transition(e: Event) returns (r: Outcome)
      requires e.Transition?
      modifies this`rows, this`log
      ensures Database() == Apply(old(Database()), e)
      ensures var error := TransitionError(old(Database()), e);
              r == if error.Some? then Raised(error.value) else Returned(rows[e.snapshot.id])
      ensures r.Returned? ==> rows[e.snapshot.id].state == e.target
    {
      var s := e.snapshot;
      if !Known(e.target) {
        return Raised(UnknownState);
      }
      var expected := if e.expected.Some? then e.expected.value else s.version;
      var probations := s.probationCount + (if e.target == Probation && s.state != Probation then 1 else 0);
      var environment := EntryEnvironment(e.target, s.environment);
      if e.target == Live && s.id < |rows| && rows[s.id].origin == Challenger {
        return Raised(ChallengerCannotGoLive);
      }
      if s.id >= |rows| || rows[s.id].version != expected {
        return Raised(ConcurrentTransition);
      }
      rows := rows[s.id := rows[s.id].(state := e.target, version := expected + 1, reason := e.reason,
                                       probationCount := probations, environment := environment)];
      AppendTransition(Entry(s.id, expected + 1, Some(s.state), e.target, e.reason, e.actor, e.evidence));
      r := Returned(rows[s.id]);
    }

    method AdoptChallenger(e: Event) returns (r: Outcome)
      requires e.Adopt?
      modifies this`rows, this`log
      ensures Database() == Apply(old(Database()), e)
      ensures var error := AdoptError(old(Database()), e);
              r == if error.Some? then Raised(error.value) else Returned(rows[e.snapshot.id])
      ensures r.Returned? ==> rows[e.snapshot.id].origin == Human && rows[e.snapshot.id].state == old(rows)[e.snapshot.id].state
    {
      if !NamedHuman(e.actor) {
        return Raised(ActorRequired);
      }
      if Text.Blank(e.reason) {
        return Raised(ReasonRequired);
      }
      var id := e.snapshot.id;
      if id >= |rows| {
        return Raised(SleeveNotFound);
      }
      if rows[id].origin == Challenger {
        var row := rows[id];
        rows := rows[id := row.(origin := Human, version := row.version + 1)];
        AppendTransition(Entry(id, row.version + 1, Some(row.state), row.state,
                               ADOPTED_PREFIX + Text.Strip(e.reason), Text.Strip(e.actor), None));
      }
      r := Returned(rows[id]);
    }

    /** Note a call that has just been performed. */
    ghost method Note(e: Event)
      requires Database() == Apply(Run(trace), e)
      modifies this`trace
      ensures Valid() && trace == old(trace) + [e]
    {
      RunAppend(trace, e);
      trace := trace + [e];
    }

    /** One call by some client. */
    method Perform(e: Event)
      requires Valid()
      modifies this`rows, this`log, this`trace
      ensures Valid() && trace == old(trace) + [e]
    {
      if e.Register? {
        var _ := Register(e);
      } else if e.Transition? {
        var _ := Transition(e);
      } else {
        var _ := AdoptChallenger(e);
      }
      Note(e);
    }

    /** Other clients' calls, in order. */
    method Interleave(gap: seq<Event>)
      requires Valid()
      modifies this`rows, this`log, this`trace
      ensures Valid() && trace == old(trace) + gap
    {
      for i := 0 to |gap|
        invariant Valid() && trace == old(trace) + gap[..i]
      {
        Perform(gap[i]);
        assert gap[..i + 1] == gap[..i] + [gap[i]];
      }
      assert gap[..|gap|] == gap;
    }

    method RecordEvidence(s: Snapshot) returns (id: nat)
      modifies this`evidence
      ensures evidence == old(evidence) + [s] && id == |old(evidence)|
    {
      id := |evidence|;
      evidence := evidence + [s];
    }
  }

  /** What a sleeve may become next, one rung at a time. */
  function NextState(state: State): Option<State> {
    match state
    case Candidate => Some(Paper)
    case Paper => Some(Live)
    case Probation => Some(Paper)
    case _ => None
  }

  /** The ladder: candidates and sleeves on probation go to paper, paper goes to live, and there is no other
      rung. */
  lemma LadderIs(state: State)
    ensures NextState(state) == Some(Paper) <==> state == Candidate || state == Probation
    ensures NextState(state) == Some(Live) <==> state == Paper
    ensures NextState(state) == None <==> state != Candidate && state != Probation && state != Paper
  {
  }

  datatype DemoteResult = Demoted(sleeve: Sleeve) | NotRegistered | DemoteRaised(error: Error)

  datatype PromoteResult =
    | Unregistered
    | NoRung
    | GateRefused(gate: GateResult)
    | Promoted(sleeve: Sleeve, gate: GateResult, evidenceId: nat)
    | PromoteRaised(error: Error)

  /** A write on top of what was read, with the version read. */
  function Move(sleeve: Sleeve, target: State, reason: string, actor: string, evidenceId: Option<nat>): Event {
    Event.Transition(sleeve, target, reason, actor, evidenceId, None)
  }

  /** The evidence behind a promotion from `state`, as the gates of that rung require it. */
  ghost predicate Supports(snapshot: Snapshot, sleeve: Sleeve, t: Thresholds) {
    match sleeve.state
    case Candidate =>
      && snapshot.FromBacktest? && snapshot.backtest.problems == [] && ClearsPaperBar(snapshot.backtest.metrics, t)
      && snapshot.backtest.artifacts != []
      && (forall a :: a in snapshot.backtest.artifacts ==> InScope(a, sleeve, WALK_FORWARD))
      && (exists a :: Latest(a, snapshot.backtest.artifacts) && snapshot.backtest.metrics == a.payload)
    case Paper =>
      && snapshot.FromPaper? && snapshot.paper.problems == []
      && ClearsLiveBar(snapshot.paper.days, snapshot.paper.figures, snapshot.paper.complete, snapshot.paper.correlation, t)
      && (forall a :: a in snapshot.paper.artifacts ==> InScope(a, sleeve, PORTFOLIO_CORRELATION))
      && snapshot.paper.artifacts != []
    case Probation =>
      && snapshot.FromPaper? && snapshot.paper.problems == []
      && (forall a :: a in snapshot.paper.artifacts ==> InScope(a, sleeve, PORTFOLIO_CORRELATION))
    case _ => false
  }

  /** One demotion more. */
  predicate Extends(before: seq<Event>, after: seq<Event>, target: State) {
    before < after && |after| == |before| + 1 && IsDemotion(after[|before|], target)
  }

  /** A move where a demotion was told to go, citing nothing. */
  predicate IsDemotion(e: Event, target: State) { e.Transition? && e.target == target && e.evidence == None }

  /** What the server looks evidence up in: the artifacts cited, and the journal over a window. */
  datatype Sources = Sources(artifactIds: seq<int>, correlationId: Option<int>, journal: Journal, first: int, last: int)

  ghost predicate RungOpens(table: map<int, Artifact>, sleeve: Sleeve, from: Sources, t: Thresholds) {
    Opens(table, sleeve, from.artifactIds, from.journal, from.first, from.last, from.correlationId, t)
  }

  /** A committed store made only of client calls keeps every log a faithful chain. */
  lemma StoreStaysFaithful(store: LifecycleStore)
    requires store.Valid() && ClientRun(store.trace)
    ensures DbOk(store.Database())
  {
    NoLostUpdate(store.trace);
  }

  class LifecycleService {
    const store: LifecycleStore
    const thresholds: Thresholds

    constructor (store: LifecycleStore, thresholds: Thresholds)
      ensures this.store == store && this.thresholds == thresholds
    {
      this.store, this.thresholds := store, thresholds;
    }

    /** One read-then-write: `sleeve` was read, others commit during `gap`, then the write is tried.  It
        succeeds exactly when nobody else committed to the sleeve in the gap and it is no challenger
        headed for live. */
    method Attempt(sleeve: Sleeve, target: State, reason: string, actor: string, evidenceId: Option<nat>, gap: seq<Event>)
      returns (r: Outcome)
      requires store.Valid() && sleeve.id < |store.rows| && store.rows[sleeve.id] == sleeve
      modifies store`rows, store`log, store`trace
      ensures store.Valid()
      ensures store.trace == old(store.trace) + gap + [Move(sleeve, target, reason, actor, evidenceId)]
      ensures r.Returned? <==>
                && Known(target) && !Contended(old(store.trace), gap, sleeve.id)
                && !(target == Live && sleeve.origin == Challenger)
      ensures r.Returned? ==>
                && Landed(old(store.Database()), store.Database(), Move(sleeve, target, reason, actor, evidenceId))
                && r.sleeve == store.rows[sleeve.id]
      ensures r.Raised? ==> store.Database() == Run(old(store.trace) + gap)
      ensures r.Raised? && r.error == ConcurrentTransition ==> Contended(old(store.trace), gap, sleeve.id)
      ensures r.Raised? && Known(target) && target != Live ==> r.error == ConcurrentTransition
      ensures ClientRun(old(store.trace)) && ClientGap(old(store.trace), gap) ==> ClientRun(store.trace)
    {
      ghost var t0 := store.trace;
      var e := Move(sleeve, target, reason, actor, evidenceId);
      ghost var before := store.Database();
      store.Interleave(gap);
      AttemptOutcome(t0, gap, e, before, store.Database());
      r := store.Transition(e);
      store.Note(e);
      if ClientRun(t0) && ClientGap(t0, gap) {
        WriteExtends(t0, gap, e);
      }
    }

    /** The second try of a demotion that lost a race: others commit during `gap2`, the row is read
        again (at `reread`), a row already in the target state is accepted, and otherwise a write is
        made on top of what was read, others committing during `gap3` first. */
    method Retry(strategyId: string, symbol: string, accountId: string, target: State, reason: string, actor: string,
                 gap2: seq<Event>, gap3: seq<Event>, ghost id: nat)
      returns (r: DemoteResult, ghost reread: seq<Event>)
      requires store.Valid() && Find(store.rows, strategyId, symbol, accountId) == Some(id)
      modifies store`rows, store`log, store`trace
      ensures store.Valid() && !r.NotRegistered? && reread == old(store.trace) + gap2
      ensures Find(Run(reread).rows, strategyId, symbol, accountId) == Some(id)
      ensures r.Demoted? ==> r.sleeve.id == id < |store.rows| && store.rows[id] == r.sleeve && r.sleeve.state == target
      ensures var was := Run(reread).rows[id];
              if was.state == target then
                r == Demoted(was) && store.trace == reread
              else
                && Extends(reread + gap3, store.trace, target)
                && (r.Demoted? ==> Landed(Run(reread), store.Database(), Move(was, target, reason, actor, None)))
                && (r.DemoteRaised? && Known(target) && target != Live ==>
                      r.error == ConcurrentTransition && Contended(reread, gap3, id))
      ensures ClientRun(old(store.trace)) && ClientGap(old(store.trace), gap2) && ClientGap(reread, gap3) ==>
                ClientRun(store.trace)
    {
      ghost var t0 := store.trace;
      FoundAgain(t0, gap2, strategyId, symbol, accountId);
      store.Interleave(gap2);
      reread := store.trace;
      if ClientRun(t0) && ClientGap(t0, gap2) {
        GapExtends(t0, gap2);
      }
      RunsAreCounted(reread);
      var read := store.Get(strategyId, symbol, accountId);
      if read.value.state == target {
        r := Demoted(read.value);
        return;
      }
      var again := Attempt(read.value, target, reason, actor, None, gap3);
      r := if again.Returned? then Demoted(again.sleeve) else DemoteRaised(again.error);
    }

    /** Exits are not gated: a sleeve can always be taken down, and one lost race is not the end of it.

        When it returns, the sleeve is in the target state at that moment, and unless someone else
        committed to it before the first write, that write is the log's next entry.  A target other
        than live is lost to concurrency only when others committed to the sleeve both before the
        first write and between the re-read and the second.  `tried` is the history up to the first
        write, if that had to be `retried`. */
    method Demote(strategyId: string, symbol: string, accountId: string, target: State, reason: string, actor: string,
                  gap1: seq<Event>, gap2: seq<Event>, gap3: seq<Event>)
      returns (r: DemoteResult, ghost tried: seq<Event>, ghost retried: bool)
      requires store.Valid()
      modifies store`rows, store`log, store`trace
      ensures store.Valid()
      ensures r.NotRegistered? <==> Find(old(store.rows), strategyId, symbol, accountId).None?
      ensures r.NotRegistered? ==> store.trace == old(store.trace)
      ensures !r.NotRegistered? ==>
                Extends(old(store.trace) + gap1, if retried then tried else store.trace, target)
      ensures retried ==> store.trace == tried + gap2 || Extends(tried + gap2 + gap3, store.trace, target)
      ensures r.Demoted? ==>
                && Find(old(store.rows), strategyId, symbol, accountId) == Some(r.sleeve.id)
                && r.sleeve.id < |store.rows| && store.rows[r.sleeve.id] == r.sleeve && r.sleeve.state == target
                && (Contended(old(store.trace), gap1, r.sleeve.id)
                    || Landed(old(store.Database()), store.Database(),
                              Move(old(store.rows)[r.sleeve.id], target, reason, actor, None)))
      ensures r.DemoteRaised? && Known(target) && target != Live ==>
                var id := Find(old(store.rows), strategyId, symbol, accountId).value;
                && r.error == ConcurrentTransition && retried
                && Contended(old(store.trace), gap1, id)
                && old(store.trace) + gap1 <= tried && tried + gap2 + gap3 <= store.trace
                && Contended(tried + gap2, gap3, id)
      ensures ClientRun(old(store.trace)) && ClientGap(old(store.trace), gap1)
              && (retried ==> ClientGap(tried, gap2) && ClientGap(tried + gap2, gap3)) ==>
                ClientRun(store.trace)
    {
      tried, retried := store.trace, false;
      var first := store.Get(strategyId, symbol, accountId);
      if first.None? {
        r := NotRegistered;
        return;
      }
      ghost var t0 := store.trace;
      RunsAreCounted(t0);
      var attempt := Attempt(first.value, target, reason, actor, None, gap1);
      if attempt.Returned? {
        r := Demoted(attempt.sleeve);
        return;
      }
      if attempt.error != ConcurrentTransition {
        r := DemoteRaised(attempt.error);
        return;
      }
      tried, retried := store.trace, true;
      FoundLater(t0, tried, strategyId, symbol, accountId);
      ghost var reread;
      r, reread := Retry(strategyId, symbol, accountId, target, reason, actor, gap2, gap3, first.value.id);
    }

    /** One rung up, on evidence the server itself derives.

        It succeeds exactly when the sleeve is registered on a rung that opens on what the server finds,
        nobody else committed to it since it was read, and it is no challenger headed for live; so an
        intervening demotion always survives.  It then moves exactly one rung and cites a recorded
        snapshot that clears that rung's gates.  Refused before the write, it changes nothing; stopped at
        the write, it leaves one more snapshot and exactly the log the others made.  No call changes a
        snapshot once recorded. */
    method Promote(strategyId: string, symbol: string, accountId: string, from: Sources, actor: string, gap: seq<Event>)
      returns (r: PromoteResult)
      requires store.Valid()
      modifies store`rows, store`log, store`trace, store`evidence
      ensures store.Valid()
      ensures var found := RowFound(old(store.rows), strategyId, symbol, accountId);
              && (r.Unregistered? <==> found.None?)
              && (r.NoRung? <==> found.Some? && NextState(found.value.state).None?)
              && (r.GateRefused? <==>
                    && found.Some? && NextState(found.value.state).Some?
                    && !RungOpens(old(store.artifacts), found.value, from, thresholds))
              && (r.Promoted? <==>
                    && found.Some? && NextState(found.value.state).Some?
                    && RungOpens(old(store.artifacts), found.value, from, thresholds)
                    && !Contended(old(store.trace), gap, found.value.id)
                    && !(NextState(found.value.state) == Some(Live) && found.value.origin == Challenger))
              && (r.Promoted? ==>
                    && r.sleeve.id == found.value.id && NextState(found.value.state) == Some(r.sleeve.state)
                    && Landed(old(store.Database()), store.Database(),
                              Move(found.value, r.sleeve.state, "promoted", actor, Some(r.evidenceId)))
                    && r.sleeve.id < |store.rows| && store.rows[r.sleeve.id] == r.sleeve
                    && r.evidenceId < |store.evidence|
                    && Supports(store.evidence[r.evidenceId], found.value, thresholds))
      ensures r.GateRefused? || r.NoRung? || r.Unregistered? ==>
                store.trace == old(store.trace) && store.evidence == old(store.evidence)
      ensures old(store.evidence) <= store.evidence
      ensures r.Promoted? || r.PromoteRaised? ==>
                var found := RowFound(old(store.rows), strategyId, symbol, accountId);
                && |store.evidence| == |old(store.evidence)| + 1
                && Supports(store.evidence[|old(store.evidence)|], found.value, thresholds)
                && store.trace == old(store.trace) + gap
                     + [Move(found.value, NextState(found.value.state).value, "promoted", actor, Some(|old(store.evidence)|))]
      ensures r.PromoteRaised? ==> store.Database() == Run(old(store.trace) + gap)
      ensures ClientRun(old(store.trace)) && ClientGap(old(store.trace), gap) ==> ClientRun(store.trace)
    {
      var read := store.Get(strategyId, symbol, accountId);
      if read.None? {
        return Unregistered;
      }
      var sleeve := read.value;
      RunsAreCounted(store.trace);
      var target := NextState(sleeve.state);
      if target.None? {
        return NoRung;
      }
      var gate, snapshot := Decide(sleeve, from);
      if !gate.allowed {
        return GateRefused(gate);
      }
      var evidenceId := store.RecordEvidence(snapshot);
      var moved := Attempt(sleeve, gate.target.value, "promoted", actor, Some(evidenceId), gap);
      if moved.Raised? {
        return PromoteRaised(moved.error);
      }
      r := Promoted(moved.sleeve, gate, evidenceId);
    }

    /** Derive this rung's evidence and judge it: exactly what the rung calls for is let through. */
    method Decide(sleeve: Sleeve, from: Sources) returns (gate: GateResult, snapshot: Snapshot)
      requires NextState(sleeve.state).Some?
      ensures gate.allowed <==> RungOpens(store.artifacts, sleeve, from, thresholds)
      ensures gate.allowed ==> gate.target == NextState(sleeve.state) && Supports(snapshot, sleeve, thresholds)
    {
      if sleeve.state == Candidate {
        var e := DeriveBacktest(store.artifacts, sleeve, from.artifactIds);
        gate := EvaluateToPaper(e, thresholds);
        snapshot := FromBacktest(e);
        BacktestOpensIff(store.artifacts, sleeve, from, thresholds, e);
      } else {
        var e := DerivePaper(store.artifacts, sleeve, from.journal, from.first, from.last, from.correlationId);
        if sleeve.state == Paper {
          gate := EvaluateToLive(e, thresholds);
          PaperOpensIff(store.artifacts, sleeve, from, thresholds, e);
        } else {
          gate := EvaluateProbation(e);
        }
        snapshot := FromPaper(e);
      }
    }
  }

  lemma BacktestOpensIff(table: map<int, Artifact>, sleeve: Sleeve, from: Sources, t: Thresholds, e: Backtest)
    requires sleeve.state == Candidate
    requires e.problems == [] <==> AllCitable(table, sleeve, from.artifactIds)
    requires e.problems == [] ==>
               && e.artifacts == Cited(table, from.artifactIds)
               && exists a :: Latest(a, e.artifacts) && e.metrics == a.payload
    ensures RungOpens(table, sleeve, from, t) <==> e.problems == [] && ClearsPaperBar(e.metrics, t)
  {
    if e.problems == [] {
      var a :| Latest(a, e.artifacts) && e.metrics == a.payload;
      forall b | Latest(b, e.artifacts) ensures b == a { LatestUnique(a, b, e.artifacts); }
    }
  }

  lemma PaperOpensIff(table: map<int, Artifact>, sleeve: Sleeve, from: Sources, t: Thresholds, e: PaperRun)
    requires sleeve.state == Paper
    requires e.problems == [] <==>
               && Readable(from.journal)
               && (from.correlationId.Some? ==> CorrelationCitable(table, sleeve, from.correlationId))
    requires e.problems == [] ==>
               && PaperFigures.Measures(PaperQuery(sleeve, from.first, from.last), from.journal.rows, PairedRows(from.journal), e.figures)
               && e.days == Days(from.first, from.last) && e.complete == from.journal.complete
    requires if CorrelationCitable(table, sleeve, from.correlationId)
             then e.correlation == table[from.correlationId.value].payload.maxCorrelation
             else e.correlation == None
    ensures RungOpens(table, sleeve, from, t) <==>
              e.problems == [] && ClearsLiveBar(e.days, e.figures, e.complete, e.correlation, t)
  {
    if e.problems == [] {
      PaperOpensOn(table, sleeve, from.artifactIds, from.journal, from.first, from.last, from.correlationId, t, e.figures);
    }
  }
}
