// The reconciliation halt: the durable latch
// (libs/lifecycle/src/lifecycle/store.py) and the in-memory counter
// (services/autonomy-orchestrator/src/autonomy_orchestrator/reconciliation.py).
//
// Each call is one atomic step.
module Latch {
  import opened Common
  import Text

  datatype Config = Config(graceSeconds: int, breaksBeforeHalt: int)

  /** One row of reconciliation_state; an absent row is `None`. */
  datatype Row = Row(halted: bool, consecutive: int, firstFailure: Option<int>)

  /** `Good`, `Broken` and `Unseen` are the three outcomes of a check; `Halt` latches directly;
      `Clear` is an operator's call. */
  datatype Event =
    | Good(at: int)
    | Broken(at: int)
    | Unseen(at: int)
    | Halt(at: int)
    | Clear(actor: string)

  const CLEAN_ROW := Row(false, 0, None)

  function Current(row: Option<Row>): Row { if row.Some? then row.value else CLEAN_ROW }

  predicate Halted(row: Option<Row>) { Current(row).halted }

  predicate Clears(e: Event) { e.Clear? && !Text.Blank(e.actor) }

  predicate Failing(e: Event) { e.Broken? || e.Unseen? }

  function StartOf(failure: Option<int>, at: int): int { if failure.Some? then failure.value else at }

  function Step(cfg: Config, row: Option<Row>, e: Event): Option<Row> {
    var r := Current(row);
    match e
    case Good(_) => Some(Row(r.halted, 0, None))
    case Broken(at) =>
      Some(Row(r.halted || r.consecutive + 1 >= cfg.breaksBeforeHalt, r.consecutive + 1, Some(StartOf(r.firstFailure, at))))
    case Unseen(at) =>
      var since := StartOf(r.firstFailure, at);
      Some(Row(r.halted || at - since >= cfg.graceSeconds, r.consecutive, Some(since)))
    case Halt(at) =>
      if row.None? then Some(Row(true, 1, Some(at)))
      else Some(Row(true, r.consecutive, Some(StartOf(r.firstFailure, at))))
    case Clear(actor) => if Text.Blank(actor) || row.None? then row else Some(CLEAN_ROW)
  }

  function Run(cfg: Config, es: seq<Event>): Option<Row> {
    if es == [] then None else Step(cfg, Run(cfg, es[..|es| - 1]), es[|es| - 1])
  }

  // ------------------------------------------------------------------
  // The objects
  // ------------------------------------------------------------------
  datatype ClearResult = Cleared | ActorRequired | NoState

  /** The durable latch of one (account, broker, environment). */
  class HaltLatch {
    const cfg: Config
    var row: Option<Row>

    constructor (cfg: Config)
      ensures row == None && this.cfg == cfg
    {
      this.cfg, row := cfg, None;
    }

    method RecordReconciliation(ok: bool, available: bool, now: int)
      modifies this
      ensures row == Step(cfg, old(row), if !available then Unseen(now) else if ok then Good(now) else Broken(now))
      ensures var was := if old(row).Some? then old(row).value else Row(false, 0, None);
              var since := if was.firstFailure.Some? then was.firstFailure.value else now;
              row == Some(
                if !available then Row(was.halted || now - since >= cfg.graceSeconds, was.consecutive, Some(since))
                else if ok then Row(was.halted, 0, None)
                else Row(was.halted || was.consecutive + 1 >= cfg.breaksBeforeHalt, was.consecutive + 1, Some(since)))
    {
      var current := Current(row);
      var firstFailure, consecutive, halted := current.firstFailure, current.consecutive, current.halted;
      if !available {
        if firstFailure.None? {
          firstFailure := Some(now);
        }
        if now - firstFailure.value >= cfg.graceSeconds {
          halted := true;
        }
      } else if ok {
        consecutive := 0;
        firstFailure := None;
      } else {
        consecutive := consecutive + 1;
        if firstFailure.None? {
          firstFailure := Some(now);
        }
        if consecutive >= cfg.breaksBeforeHalt {
          halted := true;
        }
      }
      row := Some(Row(halted, consecutive, firstFailure));
    }

    method HaltEntries(now: int)
      modifies this
      ensures row == Step(cfg, old(row), Halt(now))
      ensures row == Some(Row(true, if old(row).Some? then old(row).value.consecutive else 1,
                              if old(row).Some? && old(row).value.firstFailure.Some? then old(row).value.firstFailure
                              else Some(now)))
      ensures Halted(row)
    {
      if row.None? {
        row := Some(Row(true, 1, Some(now)));
      } else {
        row := Some(Row(true, row.value.consecutive, if row.value.firstFailure.Some? then row.value.firstFailure else Some(now)));
      }
    }

    method ClearHalt(actor: string) returns (r: ClearResult)
      modifies this
      ensures row == Step(cfg, old(row), Clear(actor))
      ensures r == if Text.Blank(actor) then ActorRequired else if old(row).None? then NoState else Cleared
      ensures r == Cleared ==> !Halted(row)
      ensures row == if r == Cleared then Some(Row(false, 0, None)) else old(row)
    {
      if Text.Blank(actor) {
        return ActorRequired;
      }
      if row.None? {
        return NoState;
      }
      row := Some(CLEAN_ROW);
      r := Cleared;
    }
  }

  /** The orchestrator's own counter. */
  class Reconciler {
    const breaksBeforeHalt: int
    var consecutiveBreaks: nat

    constructor (breaksBeforeHalt: int)
      ensures consecutiveBreaks == 0 && this.breaksBeforeHalt == breaksBeforeHalt
    {
      this.breaksBeforeHalt, consecutiveBreaks := breaksBeforeHalt, 0;
    }

    /** `broken` is None when a service could not be reached. */
    method Check(broken: Option<bool>) returns (halted: bool)
      modifies this
      ensures consecutiveBreaks == Counted(old(consecutiveBreaks), broken)
      ensures halted <==> Blocked(breaksBeforeHalt, consecutiveBreaks)
      ensures consecutiveBreaks == if broken == Some(true) then old(consecutiveBreaks) + 1
                                   else if broken == Some(false) then 0 else old(consecutiveBreaks)
      ensures halted <==> consecutiveBreaks >= breaksBeforeHalt
    {
      if broken.Some? {
        if broken.value {
          consecutiveBreaks := consecutiveBreaks + 1;
        } else {
          consecutiveBreaks := 0;
        }
      }
      halted := consecutiveBreaks >= breaksBeforeHalt;
    }
  }

  function Counted(count: nat, broken: Option<bool>): nat {
    if broken.None? then count else if broken.value then count + 1 else 0
  }

  predicate Blocked(threshold: int, count: nat) { count >= threshold }

  // ------------------------------------------------------------------
  // What halts, stated over the history
  // ------------------------------------------------------------------

  /** The events after the last good check. */
  function Stretch(es: seq<Event>): seq<Event> {
    if es == [] || es[|es| - 1].Good? then [] else Stretch(es[..|es| - 1]) + [es[|es| - 1]]
  }

  function BrokenIn(es: seq<Event>): nat {
    if es == [] then 0 else BrokenIn(es[..|es| - 1]) + if es[|es| - 1].Broken? then 1 else 0
  }

  /** When the first failed check of `es` ran. */
  function FirstFailure(es: seq<Event>): Option<int> {
    if es == [] then None
    else
      var before, e := FirstFailure(es[..|es| - 1]), es[|es| - 1];
      if before.Some? then before else if Failing(e) then Some(e.at) else None
  }

  /** The last event of `es` is a reason to halt: an explicit halt, enough broken checks with no good
      one between them, or a check that could not run a whole grace period after the first failure. */
  ghost predicate Trigger(cfg: Config, es: seq<Event>)
    requires es != []
  {
    var e := es[|es| - 1];
    || e.Halt?
    || (e.Broken? && BrokenIn(Stretch(es)) >= cfg.breaksBeforeHalt)
    || (e.Unseen? && FirstFailure(Stretch(es)).Some? && e.at - FirstFailure(Stretch(es)).value >= cfg.graceSeconds)
  }

  /** Some moment of `es` was a reason to halt. */
  ghost predicate Due(cfg: Config, es: seq<Event>) { exists i :: 0 < i <= |es| && Trigger(cfg, es[..i]) }

  /** Events since the last effective clear. */
  function SinceClear(es: seq<Event>): seq<Event> {
    if es == [] || Clears(es[|es| - 1]) then [] else SinceClear(es[..|es| - 1]) + [es[|es| - 1]]
  }

  /** `Stretch` is a suffix without good checks, reaching back to one (or to the start). */
  lemma {:induction false} StretchIs(es: seq<Event>)
    ensures |Stretch(es)| <= |es| && Stretch(es) == es[|es| - |Stretch(es)|..]
    ensures forall k :: 0 <= k < |Stretch(es)| ==> !Stretch(es)[k].Good?
    ensures |Stretch(es)| < |es| ==> es[|es| - |Stretch(es)| - 1].Good?
  {
    if es != [] && !es[|es| - 1].Good? {
      StretchIs(es[..|es| - 1]);
    }
  }

  /** `FirstFailure` is the time of the earliest failed check. */
  lemma {:induction false} FirstFailureIs(es: seq<Event>, f: nat)
    requires f < |es| && Failing(es[f]) && forall k :: 0 <= k < f ==> !Failing(es[k])
    ensures FirstFailure(es) == Some(es[f].at)
  {
    if f < |es| - 1 {
      FirstFailureIs(es[..|es| - 1], f);
    } else {
      NoFailure(es[..|es| - 1]);
    }
  }

  lemma {:induction false} NoFailure(es: seq<Event>)
    requires forall k :: 0 <= k < |es| ==> !Failing(es[k])
    ensures FirstFailure(es) == None
  {
    if es != [] {
      NoFailure(es[..|es| - 1]);
    }
  }

  lemma DueAppend(cfg: Config, es: seq<Event>, e: Event)
    ensures Due(cfg, es + [e]) <==> Due(cfg, es) || Trigger(cfg, es + [e])
  {
    var all := es + [e];
    assert all[..|all|] == all;
    assert forall i :: 0 < i <= |es| ==> all[..i] == es[..i];
    if Due(cfg, all) {
      var i :| 0 < i <= |all| && Trigger(cfg, all[..i]);
      assert i <= |es| ==> Trigger(cfg, es[..i]);
    }
    if Due(cfg, es) {
      var i :| 0 < i <= |es| && Trigger(cfg, es[..i]);
      assert Trigger(cfg, all[..i]);
    }
    if Trigger(cfg, all) {
      assert Trigger(cfg, all[..|all|]);
    }
  }

  lemma StretchAppend(es: seq<Event>, e: Event)
    ensures Stretch(es + [e]) == if e.Good? then [] else Stretch(es) + [e]
  {
    assert (es + [e])[..|es|] == es;
  }

  lemma FoldsAppend(es: seq<Event>, e: Event)
    ensures BrokenIn(es + [e]) == BrokenIn(es) + if e.Broken? then 1 else 0
    ensures FirstFailure(es + [e])
            == if FirstFailure(es).Some? then FirstFailure(es) else if Failing(e) then Some(e.at) else None
  {
    assert (es + [e])[..|es|] == es;
  }

  /** What the row remembers of the events since the last clear. */
  ghost predicate Remembers(cfg: Config, es: seq<Event>, r: Row) {
    && (r.halted <==> Due(cfg, es))
    && (!r.halted ==> r.consecutive == BrokenIn(Stretch(es)) && r.firstFailure == FirstFailure(Stretch(es)))
  }

  lemma TriggerStep(cfg: Config, es: seq<Event>, e: Event)
    ensures Trigger(cfg, es + [e]) <==>
              match e
              case Halt(_) => true
              case Broken(_) => BrokenIn(Stretch(es)) + 1 >= cfg.breaksBeforeHalt
              case Unseen(at) => at - StartOf(FirstFailure(Stretch(es)), at) >= cfg.graceSeconds
              case _ => false
  {
    StretchAppend(es, e);
    FoldsAppend(Stretch(es), e);
  }

  lemma FoldsStep(es: seq<Event>, e: Event)
    ensures BrokenIn(Stretch(es + [e])) == if e.Good? then 0 else BrokenIn(Stretch(es)) + if e.Broken? then 1 else 0
    ensures FirstFailure(Stretch(es + [e])) ==
              if e.Good? then None
              else if Failing(e) then Some(StartOf(FirstFailure(Stretch(es)), e.at)) else FirstFailure(Stretch(es))
  {
    StretchAppend(es, e);
    FoldsAppend(Stretch(es), e);
  }

  lemma StepRemembers(cfg: Config, es: seq<Event>, row: Option<Row>, e: Event)
    requires Remembers(cfg, es, Current(row)) && !Clears(e)
    ensures Remembers(cfg, es + [e], Current(Step(cfg, row, e)))
  {
    DueAppend(cfg, es, e);
    TriggerStep(cfg, es, e);
    FoldsStep(es, e);
  }

  lemma NothingDue(cfg: Config)
    ensures !Due(cfg, [])
  {
  }

  lemma {:induction false} RowRemembers(cfg: Config, es: seq<Event>)
    ensures Remembers(cfg, SinceClear(es), Current(Run(cfg, es)))
    ensures Run(cfg, es).None? ==> forall k :: 0 <= k < |es| ==> es[k].Clear?
  {
    if es == [] {
      NothingDue(cfg);
    } else {
      var n := |es| - 1;
      RowRemembers(cfg, es[..n]);
      if Clears(es[n]) {
        NothingDue(cfg);
      } else {
        StepRemembers(cfg, SinceClear(es[..n]), Run(cfg, es[..n]), es[n]);
      }
    }
  }

  /** Over every serial run, entries are halted exactly when since the last clear by a named actor
      something was a reason to halt. */
  lemma HaltedIff(cfg: Config, es: seq<Event>)
    ensures Halted(Run(cfg, es)) <==> Due(cfg, SinceClear(es))
  {
    RowRemembers(cfg, es);
  }

  /** Only a clear by a named actor un-halts. */
  lemma OnlyClearReleases(cfg: Config, es: seq<Event>, e: Event)
    requires Halted(Run(cfg, es)) && !Halted(Run(cfg, es + [e]))
    ensures Clears(e)
  {
    assert (es + [e])[..|es|] == es;
  }

  // ------------------------------------------------------------------
  // The in-memory counter against the durable latch
  // ------------------------------------------------------------------
  ghost predicate ChecksOnly(es: seq<Event>) {
    forall i :: 0 <= i < |es| ==> es[i].Good? || Failing(es[i])
  }

  function Outcome(e: Event): Option<bool> { if e.Good? then Some(false) else if e.Broken? then Some(true) else None }

  function MemoryRun(es: seq<Event>): nat {
    if es == [] then 0 else Counted(MemoryRun(es[..|es| - 1]), Outcome(es[|es| - 1]))
  }

  lemma {:induction false} CountersAgree(cfg: Config, es: seq<Event>)
    requires ChecksOnly(es)
    ensures MemoryRun(es) == Current(Run(cfg, es)).consecutive
    ensures cfg.breaksBeforeHalt >= 1 && Blocked(cfg.breaksBeforeHalt, MemoryRun(es)) ==> Halted(Run(cfg, es))
  {
    if es != [] {
      CountersAgree(cfg, es[..|es| - 1]);
    }
  }

  /** Fed the same checks, the in-memory block implies the durable halt on every run, exactly when
      the shared threshold is at least one. */
  lemma MemoryBlockImpliesHaltIff(cfg: Config)
    ensures cfg.breaksBeforeHalt >= 1 <==>
              forall es :: ChecksOnly(es) && Blocked(cfg.breaksBeforeHalt, MemoryRun(es)) ==> Halted(Run(cfg, es))
  {
    if cfg.breaksBeforeHalt >= 1 {
      forall es | ChecksOnly(es) && Blocked(cfg.breaksBeforeHalt, MemoryRun(es)) ensures Halted(Run(cfg, es)) {
        CountersAgree(cfg, es);
      }
    } else {
      assert ChecksOnly([]) && Blocked(cfg.breaksBeforeHalt, MemoryRun([])) && !Halted(Run(cfg, []));
    }
  }

  /** A good check unblocks memory and leaves the durable halt latched. */
  lemma GoodCheckOnlyUnblocksMemory(cfg: Config, es: seq<Event>, at: int)
    requires cfg.breaksBeforeHalt >= 1 && ChecksOnly(es) && Blocked(cfg.breaksBeforeHalt, MemoryRun(es))
    ensures !Blocked(cfg.breaksBeforeHalt, MemoryRun(es + [Good(at)]))
    ensures Halted(Run(cfg, es + [Good(at)]))
  {
    CountersAgree(cfg, es);
    assert (es + [Good(at)])[..|es|] == es;
  }

  // ------------------------------------------------------------------
  // Read and write are separate transactions
  // ------------------------------------------------------------------

  ghost predicate IsCheck(e: Event) { e.Good? || Failing(e) }

  /** The branch of a check that halts, read off the row it starts from. */
  predicate Trips(cfg: Config, r: Row, e: Event) {
    match e
    case Broken(at) => r.consecutive + 1 >= cfg.breaksBeforeHalt
    case Unseen(at) => at - StartOf(r.firstFailure, at) >= cfg.graceSeconds
    case _ => false
  }

  /** What a check leaves when it writes on top of the row it read. */
  lemma CheckHaltsIff(cfg: Config, row: Option<Row>, e: Event)
    requires IsCheck(e)
    ensures Halted(Step(cfg, row, e)) <==> Current(row).halted || Trips(cfg, Current(row), e)
  {
  }

  /** The check reads after `es` and writes after others committed `gap`: what it writes comes from the
      row it read. */
  function StaleWrite(cfg: Config, es: seq<Event>, e: Event): Option<Row> { Step(cfg, Run(cfg, es), e) }

  /** The write leaves entries open although they were halted when it landed. */
  ghost predicate LosesHalt(cfg: Config, es: seq<Event>, gap: seq<Event>, e: Event) {
    Halted(Run(cfg, es + gap)) && !Halted(StaleWrite(cfg, es, e))
  }

  /** The write halts entries although they were open when it landed and the check, on the row as it
      then was, would have left them open. */
  ghost predicate Rehalts(cfg: Config, es: seq<Event>, gap: seq<Event>, e: Event) {
    && !Halted(Run(cfg, es + gap)) && Halted(StaleWrite(cfg, es, e))
    && !Halted(Step(cfg, Run(cfg, es + gap), e))
  }

  lemma RunAppend(cfg: Config, es: seq<Event>, e: Event)
    ensures Run(cfg, es + [e]) == Step(cfg, Run(cfg, es), e)
  {
    assert (es + [e])[..|es|] == es;
  }

  /** Something others may commit loses a halt exactly when the row that was read is not halted and the
      check does not trip on it: a guard the caller can read before it writes. */
  lemma StaleCheckLosesHaltIff(cfg: Config, es: seq<Event>, e: Event)
    requires IsCheck(e)
    ensures (exists gap :: LosesHalt(cfg, es, gap, e))
            <==> !Current(Run(cfg, es)).halted && !Trips(cfg, Current(Run(cfg, es)), e)
  {
    CheckHaltsIff(cfg, Run(cfg, es), e);
    if !Halted(StaleWrite(cfg, es, e)) {
      RunAppend(cfg, es, Halt(0));
      assert LosesHalt(cfg, es, [Halt(0)], e);
    }
  }

  /** Rows a serial run can reach. */
  ghost predicate Sane(cfg: Config, r: Row) {
    && r.consecutive >= 0
    && (cfg.breaksBeforeHalt <= 1 && cfg.graceSeconds <= 0 && !r.halted ==> r.firstFailure == None)
  }

  lemma {:induction false} RunIsSane(cfg: Config, es: seq<Event>)
    ensures Sane(cfg, Current(Run(cfg, es)))
  {
    if es != [] {
      RunIsSane(cfg, es[..|es| - 1]);
    }
  }

  /** Whether some row leaves the check's halting branch untaken. */
  predicate CanPass(cfg: Config, e: Event) {
    match e
    case Broken(_) => cfg.breaksBeforeHalt >= 2
    case Unseen(_) => cfg.graceSeconds >= 1 || cfg.breaksBeforeHalt >= 2
    case _ => true
  }

  /** A gap after which the check on its own would leave entries open: an operator's clear, and, when
      the grace period is not positive, one broken check after the unavailable one's own time. */
  function Clearing(cfg: Config, e: Event): seq<Event>
    requires IsCheck(e)
  {
    if e.Unseen? && cfg.graceSeconds <= 0 then [Clear("operator"), Broken(e.at - cfg.graceSeconds + 1)]
    else [Clear("operator")]
  }

  lemma ClearedRow(cfg: Config, es: seq<Event>)
    ensures Current(Run(cfg, es + [Clear("operator")])) == CLEAN_ROW
  {
    assert !Text.Blank("operator") by { assert "operator"[0] == 'o'; }
    RunAppend(cfg, es, Clear("operator"));
  }

  lemma ClearingPasses(cfg: Config, es: seq<Event>, e: Event)
    requires IsCheck(e) && CanPass(cfg, e)
    ensures var row := Run(cfg, es + Clearing(cfg, e));
            !Halted(row) && !Halted(Step(cfg, row, e))
  {
    ClearedRow(cfg, es);
    if e.Unseen? && cfg.graceSeconds <= 0 {
      var at := e.at - cfg.graceSeconds + 1;
      RunAppend(cfg, es + [Clear("operator")], Broken(at));
      assert es + Clearing(cfg, e) == (es + [Clear("operator")]) + [Broken(at)];
    }
  }

  /** Something others may commit is undone (a clear, above all) exactly when the row that was read is
      halted or the check trips on it, unless the settings make the check trip on every row. */
  lemma StaleCheckRehaltsIff(cfg: Config, es: seq<Event>, e: Event)
    requires IsCheck(e)
    ensures (exists gap :: Rehalts(cfg, es, gap, e))
            <==> (Current(Run(cfg, es)).halted || Trips(cfg, Current(Run(cfg, es)), e)) && CanPass(cfg, e)
  {
    CheckHaltsIff(cfg, Run(cfg, es), e);
    if CanPass(cfg, e) && Halted(StaleWrite(cfg, es, e)) {
      ClearingPasses(cfg, es, e);
      assert Rehalts(cfg, es, Clearing(cfg, e), e);
    }
    if !CanPass(cfg, e) {
      forall gap ensures !Rehalts(cfg, es, gap, e) {
        RunIsSane(cfg, es + gap);
        CheckHaltsIff(cfg, Run(cfg, es + gap), e);
      }
    }
  }

  /** A good check that read the row before a halt and writes after it opens entries again. */
  lemma InterleavedCheckLosesHalt(cfg: Config, at: int)
    ensures LosesHalt(cfg, [], [Halt(at)], Good(at))
  {
    assert [] + [Halt(at)] == [Halt(at)] && [Halt(at)][..0] == [];
  }

  /** A good check that read the row before a clear and writes after it halts entries again. */
  lemma InterleavedCheckUndoesClear(cfg: Config, at: int)
    ensures Rehalts(cfg, [Halt(at)], [Clear("operator")], Good(at))
  {
    assert [] + [Halt(at)] == [Halt(at)];
    RunAppend(cfg, [], Halt(at));
    ClearedRow(cfg, [Halt(at)]);
  }
}
