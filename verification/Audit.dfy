// Runs of service calls among any other clients' calls, and what stands behind an entry into live
// (libs/lifecycle/src/lifecycle/service.py).
module Audit {
  import opened Common
  import opened Lifecycle
  import opened Roster
  import opened Evidence
  import opened Service

  /** Whose call an event of the run was: someone else's, or one of the service's own. */
  datatype Tag = Other | ByPromote | ByDemote(target: State)

  function Others(n: nat): (tags: seq<Tag>)
    ensures |tags| == n && forall k :: 0 <= k < n ==> tags[k] == Other
  {
    seq(n, k requires 0 <= k < n => Other)
  }

  /** What the service's own calls are.  A promotion moves one rung and cites a recorded snapshot that supports
      it; a demotion moves where it was told to and cites nothing. */
  ghost predicate OwnCall(e: Event, tag: Tag, evidence: seq<Snapshot>, t: Thresholds) {
    match tag
    case Other => true
    case ByPromote =>
      && e.Transition? && NextState(e.snapshot.state) == Some(e.target)
      && e.evidence.Some? && e.evidence.value < |evidence| && Supports(evidence[e.evidence.value], e.snapshot, t)
    case ByDemote(target) => IsDemotion(e, target)
  }

  /** Every event is accounted for, and the service's own are what they are said to be. */
  ghost predicate Tracked(trace: seq<Event>, tags: seq<Tag>, evidence: seq<Snapshot>, t: Thresholds) {
    |tags| == |trace| && forall k: nat :: k < |trace| ==> OwnAt(trace, tags, k, evidence, t)
  }

  ghost predicate OwnAt(trace: seq<Event>, tags: seq<Tag>, k: nat, evidence: seq<Snapshot>, t: Thresholds) {
    k < |trace| && k < |tags| && OwnCall(trace[k], tags[k], evidence, t)
  }

  lemma TrackedGap(trace: seq<Event>, tags: seq<Tag>, evidence: seq<Snapshot>, t: Thresholds, gap: seq<Event>)
    requires Tracked(trace, tags, evidence, t)
    ensures Tracked(trace + gap, tags + Others(|gap|), evidence, t)
  {
    forall k: nat | k < |trace + gap| ensures OwnAt(trace + gap, tags + Others(|gap|), k, evidence, t) {
      if k < |trace| { assert OwnAt(trace, tags, k, evidence, t); }
    }
  }

  lemma TrackedCall(trace: seq<Event>, tags: seq<Tag>, evidence: seq<Snapshot>, t: Thresholds, e: Event, tag: Tag)
    requires Tracked(trace, tags, evidence, t) && OwnCall(e, tag, evidence, t)
    ensures Tracked(trace + [e], tags + [tag], evidence, t)
  {
    forall k: nat | k < |trace + [e]| ensures OwnAt(trace + [e], tags + [tag], k, evidence, t) {
      if k < |trace| { assert OwnAt(trace, tags, k, evidence, t); }
    }
  }

  /** Recording one more snapshot changes nothing already cited. */
  lemma TrackedEvidence(trace: seq<Event>, tags: seq<Tag>, evidence: seq<Snapshot>, t: Thresholds, s: Snapshot)
    requires Tracked(trace, tags, evidence, t)
    ensures Tracked(trace, tags, evidence + [s], t)
  {
    forall k: nat | k < |trace| ensures OwnAt(trace, tags, k, evidence + [s], t) {
      assert OwnAt(trace, tags, k, evidence, t);
    }
  }

  /** What stands behind an entry into live besides other clients' calls: a demotion that was told
      to go live, or a promotion from paper on a recorded snapshot that clears the live bar. */
  ghost predicate Backed(entry: Entry, e: Event, tag: Tag, evidence: seq<Snapshot>, t: Thresholds) {
    match tag
    case Other => true
    case ByPromote =>
      && e.Transition? && e.snapshot.state == Paper && entry.fromState == Some(Paper)
      && entry.evidence.Some? && entry.evidence.value < |evidence|
      && Supports(evidence[entry.evidence.value], e.snapshot, t)
    case ByDemote(target) => target == Live
  }

  lemma WrittenIsBacked(db: Db, e: Event, tag: Tag, evidence: seq<Snapshot>, t: Thresholds)
    requires OwnCall(e, tag, evidence, t) && Write(db, e).Some? && Write(db, e).value.1.toState == Live
    ensures Backed(Write(db, e).value.1, e, tag, evidence, t)
  {
  }

  /** A service in use, and an account of whose call each event of its store's run was. */
  class Session {
    const service: LifecycleService
    ghost var tags: seq<Tag>

    ghost predicate Valid()
      reads this, service, service.store
    {
      service.store.Valid() && Tracked(service.store.trace, tags, service.store.evidence, service.thresholds)
    }

    constructor (service: LifecycleService)
      requires service.store.Valid()
      ensures this.service == service && Valid() && forall k :: 0 <= k < |tags| ==> tags[k] == Other
    {
      this.service, tags := service, Others(|service.store.trace|);
      new;
      AllOthers(service.store.trace, service.store.evidence, service.thresholds);
    }

    /** Other clients commit between calls. */
    method Elsewhere(gap: seq<Event>)
      requires Valid()
      modifies this`tags, service.store`rows, service.store`log, service.store`trace
      ensures Valid() && tags == old(tags) + Others(|gap|)
    {
      TrackedGap(service.store.trace, tags, service.store.evidence, service.thresholds, gap);
      service.store.Interleave(gap);
      tags := tags + Others(|gap|);
    }

    method Promote(strategyId: string, symbol: string, accountId: string, from: Sources, actor: string, gap: seq<Event>)
      returns (r: PromoteResult)
      requires Valid()
      modifies this`tags, service.store`rows, service.store`log, service.store`trace, service.store`evidence
      ensures Valid()
      ensures tags == if r.Promoted? || r.PromoteRaised? then old(tags) + Others(|gap|) + [ByPromote] else old(tags)
    {
      ghost var trace, evidence := service.store.trace, service.store.evidence;
      r := service.Promote(strategyId, symbol, accountId, from, actor, gap);
      if r.Promoted? || r.PromoteRaised? {
        tags := PromotionTags(trace, tags, gap, service.store.trace, evidence, service.store.evidence, service.thresholds);
      }
    }

    method Demote(strategyId: string, symbol: string, accountId: string, target: State, reason: string, actor: string,
                  gap1: seq<Event>, gap2: seq<Event>, gap3: seq<Event>)
      returns (r: DemoteResult)
      requires Valid()
      modifies this`tags, service.store`rows, service.store`log, service.store`trace
      ensures Valid()
      ensures if r.NotRegistered? then tags == old(tags)
              else old(tags) + Others(|gap1|) + [ByDemote(target)] <= tags
      ensures Added(old(tags), tags, target)
    {
      ghost var trace := service.store.trace;
      ghost var tried, retried;
      r, tried, retried := service.Demote(strategyId, symbol, accountId, target, reason, actor, gap1, gap2, gap3);
      if !r.NotRegistered? {
        ghost var after := if retried then tried else service.store.trace;
        tags := FirstTags(trace, tags, gap1, after, target, service.store.evidence, service.thresholds);
        if retried {
          tags := RetryTags(tried, tags, gap2, gap3, service.store.trace, target, service.store.evidence, service.thresholds);
        }
      }
    }
  }

  /** The account after a promotion that recorded its snapshot and tried its write. */
  lemma PromotionTags(before: seq<Event>, was: seq<Tag>, gap: seq<Event>, after: seq<Event>,
                      known: seq<Snapshot>, evidence: seq<Snapshot>, t: Thresholds) returns (now: seq<Tag>)
    requires Tracked(before, was, known, t) && known < evidence && |evidence| == |known| + 1
    requires before + gap < after && |after| == |before| + |gap| + 1
    requires OwnCall(after[|before + gap|], ByPromote, evidence, t)
    ensures Tracked(after, now, evidence, t) && now == was + Others(|gap|) + [ByPromote]
  {
    var e := after[|before + gap|];
    TrackedEvidence(before, was, known, t, evidence[|known|]);
    assert known + [evidence[|known|]] == evidence;
    TrackedGap(before, was, evidence, t, gap);
    TrackedCall(before + gap, was + Others(|gap|), evidence, t, e, ByPromote);
    now := was + Others(|gap|) + [ByPromote];
    assert after == before + gap + [e];
  }

  /** The account after a first write. */
  lemma FirstTags(before: seq<Event>, was: seq<Tag>, gap: seq<Event>, after: seq<Event>, target: State,
                  evidence: seq<Snapshot>, t: Thresholds) returns (now: seq<Tag>)
    requires Tracked(before, was, evidence, t) && Extends(before + gap, after, target)
    ensures Tracked(after, now, evidence, t) && now == was + Others(|gap|) + [ByDemote(target)]
  {
    var e := after[|before + gap|];
    TrackedGap(before, was, evidence, t, gap);
    TrackedCall(before + gap, was + Others(|gap|), evidence, t, e, ByDemote(target));
    now := was + Others(|gap|) + [ByDemote(target)];
    assert after == before + gap + [e];
  }

  /** Nothing but other clients' calls and this demotion's own was added. */
  predicate Added(was: seq<Tag>, now: seq<Tag>, target: State) {
    was <= now && forall k :: |was| <= k < |now| ==> now[k] == Other || now[k] == ByDemote(target)
  }

  /** The account after a retry, which writes unless it finds the row in the target state. */
  lemma RetryTags(tried: seq<Event>, was: seq<Tag>, gap2: seq<Event>, gap3: seq<Event>, after: seq<Event>, target: State,
                  evidence: seq<Snapshot>, t: Thresholds) returns (now: seq<Tag>)
    requires Tracked(tried, was, evidence, t)
    requires after == tried + gap2 || Extends(tried + gap2 + gap3, after, target)
    ensures Tracked(after, now, evidence, t) && Added(was, now, target)
  {
    if after == tried + gap2 {
      TrackedGap(tried, was, evidence, t, gap2);
      now := was + Others(|gap2|);
    } else {
      assert tried + gap2 + gap3 == tried + (gap2 + gap3);
      now := FirstTags(tried, was, gap2 + gap3, after, target, evidence, t);
    }
  }

  lemma AllOthers(trace: seq<Event>, evidence: seq<Snapshot>, t: Thresholds)
    ensures Tracked(trace, Others(|trace|), evidence, t)
  {
  }

  /** After any run of the service's calls among any others, every entry into live of any sleeve's log was
      written by some call, and if that was one of the service's own it is backed. */
  lemma LiveIsBacked(session: Session, id: nat, p: nat) returns (k: nat)
    requires session.Valid()
    requires var h := Of(session.service.store.log, id); p < |h| && h[p].toState == Live
    ensures var trace := session.service.store.trace;
            k < |trace| && k < |session.tags| && Wrote(trace, k, |trace|, id, p)
    ensures Backed(Of(session.service.store.log, id)[p], session.service.store.trace[k], session.tags[k],
                   session.service.store.evidence, session.service.thresholds)
  {
    var es := session.service.store.trace;
    assert es[..|es|] == es;
    k := WriterOf(es, |es|, id, p);
    assert OwnAt(es, session.tags, k, session.service.store.evidence, session.service.thresholds);
    WrittenIsBacked(Run(es[..k]), es[k], session.tags[k], session.service.store.evidence, session.service.thresholds);
  }
}
