// Evaluating a set of challengers against their pooled search
// (libs/challengers/src/challengers/campaign.py).
module Campaign {
  import opened Common

  /** Identified by a hash of its content; the rest is carried along. */
  datatype Challenger = Challenger(id: string, note: string)

  /** What a walk-forward run reports (its trial Sharpes, its out-of-sample returns and the figure it
      deflated against its own search only), or that it raised. */
  datatype Outcome =
    | Failed
    | Finished(trials: seq<real>, gains: seq<real>, own: Option<real>)

  datatype Evaluation = Evaluation(challenger: Challenger, error: bool, deflatedOwn: Option<real>,
                                   trialsCampaign: nat, deflatedCampaign: Option<real>)

  type Runner = Challenger -> Outcome

  type Deflate = (seq<real>, seq<real>) -> Option<real>

  /** The challengers evaluated: first occurrence of each id. */
  function Distinct(cs: seq<Challenger>): seq<Challenger> {
    if cs == [] then []
    else
      var before, c := Distinct(cs[..|cs| - 1]), cs[|cs| - 1];
      if HasId(before, c.id) then before else before + [c]
  }

  predicate HasId(cs: seq<Challenger>, id: string) { exists i :: 0 <= i < |cs| && cs[i].id == id }

  function TrialsOf(o: Outcome): seq<real> { if o.Failed? then [] else o.trials }

  /** Every trial of every challenger that ran, in order. */
  function Pool(run: Runner, cs: seq<Challenger>): seq<real> {
    if cs == [] then [] else Pool(run, cs[..|cs| - 1]) + TrialsOf(run(cs[|cs| - 1]))
  }

  /** The trials of each challenger in turn: none for one that failed. */
  function TrialLists(run: Runner, cs: seq<Challenger>): (lists: seq<seq<real>>)
    ensures |lists| == |cs|
    ensures forall i :: 0 <= i < |cs| ==> lists[i] == if run(cs[i]).Finished? then run(cs[i]).trials else []
  {
    seq(|cs|, i requires 0 <= i < |cs| => if run(cs[i]).Finished? then run(cs[i]).trials else [])
  }

  function Flatten(lists: seq<seq<real>>): seq<real> {
    if lists == [] then [] else Flatten(lists[..|lists| - 1]) + lists[|lists| - 1]
  }

  /** The pool is the trials of all runs that finished, one run's after another's. */
  lemma {:induction false} PoolFlattens(run: Runner, cs: seq<Challenger>)
    ensures Pool(run, cs) == Flatten(TrialLists(run, cs))
  {
    if cs != [] {
      var n := |cs| - 1;
      PoolFlattens(run, cs[..n]);
      assert TrialLists(run, cs)[..n] == TrialLists(run, cs[..n]);
    }
  }

  /** Flattening keeps every list whole and in its place. */
  lemma {:induction false} FlattenAt(lists: seq<seq<real>>, i: nat)
    requires i < |lists|
    ensures Flatten(lists) == Flatten(lists[..i]) + lists[i] + Flatten(lists[i + 1..])
  {
    var n := |lists| - 1;
    if i < n {
      FlattenAt(lists[..n], i);
      assert lists[..n][..i] == lists[..i] && lists[..n][i + 1..] == lists[i + 1..][..n - i - 1];
    } else {
      assert lists[i + 1..] == [];
    }
  }

  /** One result, judged against a pool. */
  function Judge(run: Runner, deflate: Deflate, pool: seq<real>, c: Challenger): Evaluation {
    match run(c)
    case Failed => Evaluation(c, true, None, 0, None)
    case Finished(_, gains, own) =>
      Evaluation(c, false, own, |pool|, if gains == [] || pool == [] then None else deflate(gains, pool))
  }

  predicate Survives(e: Evaluation, bar: real) { !e.error && e.deflatedCampaign.Some? && e.deflatedCampaign.value >= bar }

  // ------------------------------------------------------------------
  // The program
  // ------------------------------------------------------------------

  /** `seen` holds the ids of `cs`. */
  ghost predicate Seen(seen: set<string>, cs: seq<Challenger>) { forall id :: id in seen <==> HasId(cs, id) }

  lemma SeenAppend(seen: set<string>, cs: seq<Challenger>, c: Challenger)
    requires Seen(seen, cs)
    ensures Seen(seen + {c.id}, cs + [c])
  {
    forall id ensures id in seen + {c.id} <==> HasId(cs + [c], id) {
      HasIdAppend(cs, c, id);
    }
  }

  lemma DistinctAppend(cs: seq<Challenger>, c: Challenger)
    ensures Distinct(cs + [c]) == if HasId(Distinct(cs), c.id) then Distinct(cs) else Distinct(cs) + [c]
  {
    assert (cs + [c])[..|cs|] == cs;
  }

  lemma PoolAppend(run: Runner, a: seq<Challenger>, c: Challenger)
    ensures Pool(run, a + [c]) == Pool(run, a) + TrialsOf(run(c))
  {
    assert (a + [c])[..|a|] == a;
  }

  /** First pass: run each distinct challenger once and pool its trials. */
  method RunAll(challengers: seq<Challenger>, run: Runner) returns (evaluated: seq<Challenger>, pooled: seq<real>)
    ensures evaluated == Distinct(challengers) && pooled == Pool(run, evaluated)
  {
    var seen: set<string> := {};
    evaluated, pooled := [], [];
    for i := 0 to |challengers|
      invariant evaluated == Distinct(challengers[..i])
      invariant pooled == Pool(run, evaluated)
      invariant Seen(seen, evaluated)
    {
      var c := challengers[i];
      assert challengers[..i + 1] == challengers[..i] + [c];
      DistinctAppend(challengers[..i], c);
      if c.id !in seen {
        SeenAppend(seen, evaluated, c);
        PoolAppend(run, evaluated, c);
        seen := seen + {c.id};
        evaluated := evaluated + [c];
        var outcome := run(c);
        if outcome.Finished? {
          pooled := pooled + outcome.trials;
        }
      }
    }
    assert challengers[..|challengers|] == challengers;
  }

  /** What a result says of its challenger when the pooled trials are `pool`: a failed run has no figures; a
      finished one carries its own figure and the pool's size, and its gated figure is its returns deflated
      against the whole pool, if it has returns and the pool is not empty. */
  ghost predicate Judged(e: Evaluation, c: Challenger, outcome: Outcome, pool: seq<real>, deflate: Deflate) {
    && e.challenger == c
    && (match outcome
        case Failed => e.error && e.deflatedOwn == None && e.trialsCampaign == 0 && e.deflatedCampaign == None
        case Finished(_, gains, own) =>
          && !e.error && e.deflatedOwn == own && e.trialsCampaign == |pool|
          && e.deflatedCampaign == if |gains| > 0 && |pool| > 0 then deflate(gains, pool) else None)
  }

  /** Second pass: judge everyone against one pool. */
  method JudgeAll(evaluated: seq<Challenger>, pooled: seq<real>, run: Runner, deflate: Deflate)
    returns (results: seq<Evaluation>)
    ensures |results| == |evaluated|
    ensures forall i :: 0 <= i < |results| ==> results[i] == Judge(run, deflate, pooled, evaluated[i])
    ensures forall i :: 0 <= i < |results| ==> Judged(results[i], evaluated[i], run(evaluated[i]), pooled, deflate)
  {
    results := [];
    for k := 0 to |evaluated|
      invariant |results| == k
      invariant forall j :: 0 <= j < k ==> results[j] == Judge(run, deflate, pooled, evaluated[j])
    {
      var outcome := run(evaluated[k]);
      if outcome.Failed? {
        results := results + [Evaluation(evaluated[k], true, None, 0, None)];
      } else {
        // Without returns or a pool there is no figure; `outcome.own` is kept beside it, never in its place.
        var deflated := if outcome.gains == [] || pooled == [] then None else deflate(outcome.gains, pooled);
        results := results + [Evaluation(evaluated[k], false, outcome.own, |pooled|, deflated)];
      }
    }
  }

  /** Two passes: all run before any is judged, so all are judged against one pool. */
  method EvaluateCampaign(challengers: seq<Challenger>, run: Runner, deflate: Deflate)
    returns (results: seq<Evaluation>, pooledTrials: nat)
    ensures |results| == |Distinct(challengers)|
    ensures forall i :: 0 <= i < |results| ==>
              results[i] == Judge(run, deflate, Pool(run, Distinct(challengers)), Distinct(challengers)[i])
    ensures forall i :: 0 <= i < |results| ==>
              Judged(results[i], Distinct(challengers)[i], run(Distinct(challengers)[i]),
                     Flatten(TrialLists(run, Distinct(challengers))), deflate)
    ensures pooledTrials == |Pool(run, Distinct(challengers))|
  {
    var evaluated, pooled := RunAll(challengers, run);
    pooledTrials := |pooled|;
    results := JudgeAll(evaluated, pooled, run, deflate);
    PoolFlattens(run, evaluated);
  }

  lemma HasIdAppend(cs: seq<Challenger>, c: Challenger, id: string)
    ensures HasId(cs + [c], id) <==> HasId(cs, id) || id == c.id
  {
    if HasId(cs, id) {
      var i :| 0 <= i < |cs| && cs[i].id == id;
      assert (cs + [c])[i].id == id;
    }
    assert (cs + [c])[|cs|].id == c.id;
  }

  // ------------------------------------------------------------------
  // Order and repetition do not matter
  // ------------------------------------------------------------------

  /** The same content always runs the same way. */
  ghost predicate Deterministic(run: Runner) { forall c: Challenger, d: Challenger :: c.id == d.id ==> run(c) == run(d) }

  /** Deflation looks at the pool as a bag. */
  ghost predicate OrderInsensitive(deflate: Deflate) {
    forall r, p, q :: multiset(p) == multiset(q) ==> deflate(r, p) == deflate(r, q)
  }

  ghost predicate SameIds(a: seq<Challenger>, b: seq<Challenger>) { forall id :: HasId(a, id) <==> HasId(b, id) }

  ghost predicate NoRepeats(cs: seq<Challenger>) { forall i, j :: 0 <= i < j < |cs| ==> cs[i].id != cs[j].id }

  lemma {:induction false} DistinctIds(cs: seq<Challenger>, id: string)
    ensures HasId(Distinct(cs), id) <==> HasId(cs, id)
  {
    if cs != [] {
      var before, c := cs[..|cs| - 1], cs[|cs| - 1];
      DistinctIds(before, id);
      assert cs == before + [c];
      HasIdAppend(before, c, id);
      HasIdAppend(Distinct(before), c, id);
    }
  }

  /** Those evaluated are the first proposals of their ids. */
  lemma {:induction false} DistinctAreFirst(cs: seq<Challenger>, c: Challenger)
    ensures c in Distinct(cs) <==>
              exists i :: 0 <= i < |cs| && cs[i] == c && forall j :: 0 <= j < i ==> cs[j].id != c.id
  {
    if cs != [] {
      var n := |cs| - 1;
      DistinctAreFirst(cs[..n], c);
      DistinctIds(cs[..n], cs[n].id);
      assert c in Distinct(cs) <==> c in Distinct(cs[..n]) || (c == cs[n] && !HasId(cs[..n], c.id));
    }
  }

  lemma {:induction false} DistinctNoRepeats(cs: seq<Challenger>)
    ensures NoRepeats(Distinct(cs))
  {
    if cs != [] {
      DistinctNoRepeats(cs[..|cs| - 1]);
    }
  }

  lemma AppendLast<T>(a: seq<T>, b: seq<T>)
    requires b != []
    ensures a + b == (a + b[..|b| - 1]) + [b[|b| - 1]] && b == b[..|b| - 1] + [b[|b| - 1]]
  {
  }

  lemma {:induction false} PoolConcat(run: Runner, a: seq<Challenger>, b: seq<Challenger>)
    ensures Pool(run, a + b) == Pool(run, a) + Pool(run, b)
  {
    if b == [] {
      assert a + b == a;
    } else {
      var before, c := b[..|b| - 1], b[|b| - 1];
      AppendLast(a, b);
      PoolConcat(run, a, before);
      PoolAppend(run, a + before, c);
      PoolAppend(run, before, c);
    }
  }

  lemma PoolSingle(run: Runner, c: Challenger)
    ensures Pool(run, [c]) == TrialsOf(run(c))
  {
    assert [c][..0] == [];
    assert [] + TrialsOf(run(c)) == TrialsOf(run(c));
  }

  lemma PoolSplit(run: Runner, b: seq<Challenger>, x: seq<Challenger>, c: Challenger, y: seq<Challenger>)
    requires b == x + ([c] + y)
    ensures Pool(run, b) == Pool(run, x) + (TrialsOf(run(c)) + Pool(run, y))
  {
    PoolConcat(run, x, [c] + y);
    PoolConcat(run, [c], y);
    PoolSingle(run, c);
  }

  lemma BagMiddle(p: seq<real>, q: seq<real>, x: seq<real>, t: seq<real>, y: seq<real>)
    requires p == x + (t + y) && q == x + y
    ensures multiset(p) == multiset(q) + multiset(t)
  {
  }

  lemma Around<T>(b: seq<T>, i: nat)
    requires i < |b|
    ensures b == b[..i] + ([b[i]] + b[i + 1..])
  {
  }

  lemma PoolAround(run: Runner, b: seq<Challenger>, i: nat)
    requires i < |b|
    ensures Pool(run, b) == Pool(run, b[..i]) + (TrialsOf(run(b[i])) + Pool(run, b[i + 1..]))
  {
    Around(b, i);
    PoolSplit(run, b, b[..i], b[i], b[i + 1..]);
  }

  lemma PoolRemove(run: Runner, b: seq<Challenger>, i: nat, p: seq<real>, q: seq<real>)
    requires i < |b| && p == Pool(run, b) && q == Pool(run, b[..i] + b[i + 1..])
    ensures multiset(p) == multiset(q) + multiset(TrialsOf(run(b[i])))
  {
    PoolAround(run, b, i);
    PoolConcat(run, b[..i], b[i + 1..]);
    BagMiddle(p, q, Pool(run, b[..i]), TrialsOf(run(b[i])), Pool(run, b[i + 1..]));
  }

  lemma RemoveNoRepeats(b: seq<Challenger>, i: nat)
    requires NoRepeats(b) && i < |b|
    ensures NoRepeats(b[..i] + b[i + 1..])
  {
  }

  lemma RemoveIds(b: seq<Challenger>, i: nat, id: string)
    requires NoRepeats(b) && i < |b|
    ensures HasId(b[..i] + b[i + 1..], id) <==> HasId(b, id) && id != b[i].id
  {
    var rest := b[..i] + b[i + 1..];
    if HasId(rest, id) {
      var k :| 0 <= k < |rest| && rest[k].id == id;
      assert b[if k < i then k else k + 1].id == id;
    }
    if HasId(b, id) && id != b[i].id {
      var k :| 0 <= k < |b| && b[k].id == id;
      assert rest[if k < i then k else k - 1].id == id;
    }
  }

  /** Two repetition-free lists of the same ids pool the same trials. */
  lemma {:induction false} SamePool(run: Runner, a: seq<Challenger>, b: seq<Challenger>)
    requires Deterministic(run) && NoRepeats(a) && NoRepeats(b) && SameIds(a, b)
    ensures multiset(Pool(run, a)) == multiset(Pool(run, b))
  {
    if a == [] {
      assert b != [] ==> HasId(b, b[0].id);
    } else {
      var n := |a| - 1;
      assert HasId(a, a[n].id);
      var i :| 0 <= i < |b| && b[i].id == a[n].id;
      var rest := b[..i] + b[i + 1..];
      RemoveNoRepeats(b, i);
      forall id ensures HasId(a[..n], id) <==> HasId(rest, id) {
        RemoveIds(b, i, id);
        RemoveIds(a, n, id);
        assert a[..n] + a[n + 1..] == a[..n];
      }
      SamePool(run, a[..n], rest);
      PoolRemove(run, b, i, Pool(run, b), Pool(run, rest));
      assert run(a[n]) == run(b[i]);
    }
  }

  /** The ids a campaign lets through. */
  ghost predicate SurvivingId(run: Runner, deflate: Deflate, cs: seq<Challenger>, bar: real, id: string) {
    exists i :: 0 <= i < |Distinct(cs)| && Distinct(cs)[i].id == id
                && Survives(Judge(run, deflate, Pool(run, Distinct(cs)), Distinct(cs)[i]), bar)
  }

  lemma PoolsAgree(run: Runner, a: seq<Challenger>, b: seq<Challenger>)
    requires Deterministic(run) && SameIds(a, b)
    ensures multiset(Pool(run, Distinct(a))) == multiset(Pool(run, Distinct(b)))
  {
    DistinctNoRepeats(a);
    DistinctNoRepeats(b);
    forall id ensures HasId(Distinct(a), id) <==> HasId(Distinct(b), id) {
      DistinctIds(a, id);
      DistinctIds(b, id);
    }
    SamePool(run, Distinct(a), Distinct(b));
  }

  lemma JudgedAlike(run: Runner, deflate: Deflate, p: seq<real>, q: seq<real>, c: Challenger, d: Challenger)
    requires Deterministic(run) && OrderInsensitive(deflate) && multiset(p) == multiset(q) && c.id == d.id
    ensures var x, y := Judge(run, deflate, p, c), Judge(run, deflate, q, d);
            x.error == y.error && x.trialsCampaign == y.trialsCampaign && x.deflatedCampaign == y.deflatedCampaign
  {
    assert |p| == |multiset(p)| == |multiset(q)| == |q|;
    assert run(c) == run(d);
  }

  lemma SurvivorKept(run: Runner, deflate: Deflate, a: seq<Challenger>, b: seq<Challenger>, bar: real, id: string)
    requires Deterministic(run) && OrderInsensitive(deflate) && SameIds(a, b)
    requires SurvivingId(run, deflate, a, bar, id)
    ensures SurvivingId(run, deflate, b, bar, id)
  {
    var x, y := Distinct(a), Distinct(b);
    var i :| 0 <= i < |x| && x[i].id == id && Survives(Judge(run, deflate, Pool(run, x), x[i]), bar);
    DistinctIds(a, id);
    DistinctIds(b, id);
    assert HasId(x, id) && HasId(y, id);
    var j :| 0 <= j < |y| && y[j].id == id;
    PoolsAgree(run, a, b);
    JudgedAlike(run, deflate, Pool(run, x), Pool(run, y), x[i], y[j]);
  }

  /** Reordering proposals, or proposing an id again, changes neither the pooled trials nor which ids
      survive: only the set of distinct ids matters. */
  lemma CampaignDependsOnIdsOnly(run: Runner, deflate: Deflate, a: seq<Challenger>, b: seq<Challenger>, bar: real, id: string)
    requires Deterministic(run) && OrderInsensitive(deflate) && SameIds(a, b)
    ensures multiset(Pool(run, Distinct(a))) == multiset(Pool(run, Distinct(b)))
    ensures SurvivingId(run, deflate, a, bar, id) <==> SurvivingId(run, deflate, b, bar, id)
  {
    PoolsAgree(run, a, b);
    if SurvivingId(run, deflate, a, bar, id) { SurvivorKept(run, deflate, a, b, bar, id); }
    if SurvivingId(run, deflate, b, bar, id) { SurvivorKept(run, deflate, b, a, bar, id); }
  }

  // ------------------------------------------------------------------
  // A run's own figure decides nothing
  // ------------------------------------------------------------------

  /** Two ways of running that agree on everything but the runs' own figures. */
  ghost predicate AgreeButOwn(run: Runner, other: Runner) {
    forall c :: if run(c).Failed? then other(c).Failed?
                else other(c).Finished? && other(c).trials == run(c).trials && other(c).gains == run(c).gains
  }

  lemma {:induction false} SamePoolButOwn(run: Runner, other: Runner, cs: seq<Challenger>)
    requires AgreeButOwn(run, other)
    ensures Pool(other, cs) == Pool(run, cs)
  {
    if cs != [] {
      SamePoolButOwn(run, other, cs[..|cs| - 1]);
    }
  }

  /** Whatever the runs report against their own searches, the campaign's figures and its survivors are the
      same: the gated figure never falls back to a run's own. */
  lemma OwnFigureNeverGates(run: Runner, other: Runner, deflate: Deflate, cs: seq<Challenger>, bar: real, id: string)
    requires AgreeButOwn(run, other)
    ensures forall c :: Judge(other, deflate, Pool(other, cs), c).deflatedCampaign
                        == Judge(run, deflate, Pool(run, cs), c).deflatedCampaign
    ensures SurvivingId(other, deflate, cs, bar, id) <==> SurvivingId(run, deflate, cs, bar, id)
  {
    SamePoolButOwn(run, other, cs);
    SamePoolButOwn(run, other, Distinct(cs));
    forall c ensures Survives(Judge(other, deflate, Pool(other, Distinct(cs)), c), bar)
                     <==> Survives(Judge(run, deflate, Pool(run, Distinct(cs)), c), bar)
    {
      assert if run(c).Failed? then other(c).Failed? else other(c).Finished?;
    }
  }

  /** Nor do a run's own trials, beyond what they put in the pool: as long as the pooled list stays the same,
      so does the gated figure. */
  lemma OwnTrialsDoNotGate(run: Runner, other: Runner, deflate: Deflate, pool: seq<real>, c: Challenger,
                           x: Evaluation, y: Evaluation)
    requires run(c).Finished? && other(c).Finished? && run(c).gains == other(c).gains
    requires Judged(x, c, run(c), pool, deflate) && Judged(y, c, other(c), pool, deflate)
    ensures x.deflatedCampaign == y.deflatedCampaign && x.trialsCampaign == y.trialsCampaign
  {
  }

  /** Survivors are exactly the challengers whose run finished with returns and whose returns, deflated against
      the whole pool, reach the bar. */
  lemma SurvivesIff(e: Evaluation, c: Challenger, outcome: Outcome, pool: seq<real>, deflate: Deflate, bar: real)
    requires Judged(e, c, outcome, pool, deflate)
    ensures Survives(e, bar) <==>
              && outcome.Finished? && |outcome.gains| > 0 && |pool| > 0
              && deflate(outcome.gains, pool).Some? && deflate(outcome.gains, pool).value >= bar
  {
  }
}
