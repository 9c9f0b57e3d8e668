// Per-key token bucket (libs/contracts/src/contracts/rate_limit.py).
module TokenBucket {
  import opened Common

  /** Capacity, and tokens refilled per unit of time. */
  datatype Config = Config(max: real, rate: real)

  datatype Bucket = Bucket(tokens: real, last: real)

  ghost predicate Sane(cfg: Config) { cfg.max >= 0.0 && cfg.rate >= 0.0 }

  /** Tokens refilled between two moments. */
  function Accrued(cfg: Config, since: real, until: real): real { (until - since) * cfg.rate }

  /** Tokens available at `now`; a key never seen before has a full bucket. */
  function Level(cfg: Config, b: Option<Bucket>, now: real): real {
    if b.None? then cfg.max else Min(cfg.max, b.value.tokens + Accrued(cfg, b.value.last, now))
  }

  function Grants(cfg: Config, b: Option<Bucket>, now: real): bool { Level(cfg, b, now) >= 1.0 }

  function Spent(cfg: Config, b: Option<Bucket>, now: real): Bucket {
    Bucket(Level(cfg, b, now) - if Grants(cfg, b, now) then 1.0 else 0.0, now)
  }

  function Find(buckets: map<string, Bucket>, key: string): Option<Bucket> {
    if key in buckets then Some(buckets[key]) else None
  }

  class RateLimiter {
    const cfg: Config
    var buckets: map<string, Bucket>

    constructor (maxTokens: nat, refillPerMinute: nat)
      ensures cfg == Config(maxTokens as real, refillPerMinute as real / 60.0) && buckets == map[]
      ensures Sane(cfg)
    {
      cfg, buckets := Config(maxTokens as real, refillPerMinute as real / 60.0), map[];
    }

    /** Try to take one token at monotonic time `now`. */
    method Consume(key: string, now: real) returns (allowed: bool)
      requires Sane(cfg)
      modifies this`buckets
      ensures allowed == Grants(cfg, Find(old(buckets), key), now)
      ensures buckets == old(buckets)[key := Spent(cfg, Find(old(buckets), key), now)]
      ensures allowed <==>
                cfg.max >= 1.0
                && (key in old(buckets) ==> old(buckets)[key].tokens + cfg.rate * (now - old(buckets)[key].last) >= 1.0)
      ensures var level := if key in old(buckets)
                           then Min(cfg.max, old(buckets)[key].tokens + cfg.rate * (now - old(buckets)[key].last)) else cfg.max;
              buckets[key] == Bucket(if allowed then level - 1.0 else level, now)
      ensures forall k :: k != key ==> (k in buckets <==> k in old(buckets)) && (k in buckets ==> buckets[k] == old(buckets)[k])
    {
      GrantedIff(cfg, Find(buckets, key), now);
      if key in buckets { GrantedAt(cfg, buckets[key].tokens, buckets[key].last, now); }
      var bucket := if key in buckets then buckets[key] else Bucket(cfg.max, now);
      var tokens := Min(cfg.max, bucket.tokens + Accrued(cfg, bucket.last, now));
      NoTimeNoRefill(cfg, now);
      assert tokens == Level(cfg, Find(buckets, key), now);
      if tokens < 1.0 {
        buckets := buckets[key := Bucket(tokens, now)];
        return false;
      }
      buckets := buckets[key := Bucket(tokens - 1.0, now)];
      return true;
    }
  }

  // ------------------------------------------------------------------
  // Traces
  // ------------------------------------------------------------------
  datatype Call = Call(key: string, at: real)

  function Run(cfg: Config, calls: seq<Call>): map<string, Bucket> {
    if calls == [] then map[]
    else
      var before, c := Run(cfg, calls[..|calls| - 1]), calls[|calls| - 1];
      before[c.key := Spent(cfg, Find(before, c.key), c.at)]
  }

  /** Whether call `i` was allowed. */
  function Allowed(cfg: Config, calls: seq<Call>, i: nat): bool
    requires i < |calls|
  {
    Grants(cfg, Find(Run(cfg, calls[..i]), calls[i].key), calls[i].at)
  }

  /** Allowed calls for `key` among calls `lo..hi`. */
  function AllowedFor(cfg: Config, calls: seq<Call>, key: string, lo: nat, hi: nat): nat
    requires lo <= hi <= |calls|
  {
    if lo == hi then 0
    else AllowedFor(cfg, calls, key, lo, hi - 1) + if calls[hi - 1].key == key && Allowed(cfg, calls, hi - 1) then 1 else 0
  }

  ghost predicate Monotone(calls: seq<Call>) {
    forall i, j :: 0 <= i < j < |calls| ==> calls[i].at <= calls[j].at
  }

  // ------------------------------------------------------------------
  // Levels
  // ------------------------------------------------------------------
  lemma NoTimeNoRefill(cfg: Config, now: real)
    ensures Accrued(cfg, now, now) == 0.0
  {
  }

  lemma AccruedIs(cfg: Config, a: real, b: real)
    ensures Accrued(cfg, a, b) == cfg.rate * (b - a)
  {
  }

  /** What is granted, in both directions: a key with tokens left at some moment is granted one exactly when
      those and what time added since come to one, capacity allowing; a new key exactly when capacity does. */
  lemma GrantedIff(cfg: Config, b: Option<Bucket>, now: real)
    ensures Grants(cfg, b, now) <==>
              cfg.max >= 1.0 && (b.Some? ==> b.value.tokens + cfg.rate * (now - b.value.last) >= 1.0)
    ensures Level(cfg, b, now)
            == if b.Some? then Min(cfg.max, b.value.tokens + cfg.rate * (now - b.value.last)) else cfg.max
  {
    if b.Some? { AccruedIs(cfg, b.value.last, now); }
  }

  /** The same for the tokens and the moment a key's bucket holds. */
  lemma GrantedAt(cfg: Config, tokens: real, last: real, now: real)
    ensures Grants(cfg, Some(Bucket(tokens, last)), now) <==> cfg.max >= 1.0 && tokens + cfg.rate * (now - last) >= 1.0
    ensures Level(cfg, Some(Bucket(tokens, last)), now) == Min(cfg.max, tokens + cfg.rate * (now - last))
  {
    GrantedIff(cfg, Some(Bucket(tokens, last)), now);
  }

  lemma AccruedSplit(cfg: Config, a: real, b: real, c: real)
    ensures Accrued(cfg, a, b) + Accrued(cfg, b, c) == Accrued(cfg, a, c)
  {
    assert (b - a) * cfg.rate + (c - b) * cfg.rate == (c - a) * cfg.rate;
  }

  lemma AccruedNonneg(cfg: Config, a: real, b: real)
    requires Sane(cfg) && a <= b
    ensures Accrued(cfg, a, b) >= 0.0
  {
  }

  /** Refill adds at most what accrues, and never overfills. */
  lemma RefillBounded(cfg: Config, b: Bucket, later: real)
    ensures Level(cfg, Some(b), later) <= b.tokens + Accrued(cfg, b.last, later)
    ensures Level(cfg, Some(b), later) <= cfg.max
  {
  }

  lemma LevelNonneg(cfg: Config, b: Option<Bucket>, later: real)
    requires Sane(cfg) && (b.Some? ==> b.value.tokens >= 0.0 && b.value.last <= later)
    ensures 0.0 <= Level(cfg, b, later) <= cfg.max
  {
    if b.Some? { AccruedNonneg(cfg, b.value.last, later); }
  }

  lemma ComposeMin(max: real, x: real, a: real, b: real)
    requires b >= 0.0
    ensures Min(max, Min(max, x + a) + b) == Min(max, x + (a + b))
  {
  }

  /** Capped refill composes: looking at a bucket without taking changes no later level. */
  lemma RefillComposes(cfg: Config, b: Option<Bucket>, now: real, later: real)
    requires Sane(cfg) && now <= later
    ensures Level(cfg, Some(Bucket(Level(cfg, b, now), now)), later) == Level(cfg, b, later)
  {
    AccruedNonneg(cfg, now, later);
    if b.Some? {
      var last := b.value.last;
      AccruedSplit(cfg, last, now, later);
      ComposeMin(cfg.max, b.value.tokens, Accrued(cfg, last, now), Accrued(cfg, now, later));
    }
  }

  ghost predicate Filled(buckets: map<string, Bucket>, now: real) {
    forall k :: k in buckets ==> buckets[k].tokens >= 0.0 && buckets[k].last <= now
  }

  lemma {:induction false} RunFilled(cfg: Config, calls: seq<Call>, now: real)
    requires Sane(cfg) && Monotone(calls) && (calls != [] ==> calls[|calls| - 1].at <= now)
    ensures Filled(Run(cfg, calls), now)
  {
    if calls != [] {
      var n := |calls| - 1;
      RunFilled(cfg, calls[..n], calls[n].at);
      LevelNonneg(cfg, Find(Run(cfg, calls[..n]), calls[n].key), calls[n].at);
    }
  }

  // ------------------------------------------------------------------
  // The rate bound
  // ------------------------------------------------------------------

  /** Spending and then waiting: what was taken plus what is left later is bounded by what there
      was plus what time added. */
  lemma SpendThenWait(cfg: Config, b: Option<Bucket>, now: real, later: real)
    requires Sane(cfg) && now <= later
    ensures (if Grants(cfg, b, now) then 1.0 else 0.0) + Level(cfg, Some(Spent(cfg, b, now)), later)
            <= Level(cfg, b, now) + Accrued(cfg, now, later)
  {
    RefillBounded(cfg, Spent(cfg, b, now), later);
  }

  lemma {:induction false} BudgetHolds(cfg: Config, calls: seq<Call>, key: string, lo: nat, hi: nat, s: real, later: real)
    requires Sane(cfg) && Monotone(calls) && lo <= hi <= |calls| && s <= later
    requires forall i :: lo <= i < hi ==> s <= calls[i].at
    requires hi > 0 ==> calls[hi - 1].at <= later
    ensures AllowedFor(cfg, calls, key, lo, hi) as real + Level(cfg, Find(Run(cfg, calls[..hi]), key), later)
            <= cfg.max + Accrued(cfg, s, later)
    decreases hi
  {
    var was := Run(cfg, calls[..hi]);
    if lo == hi {
      AccruedNonneg(cfg, s, later);
      if key in was { RefillBounded(cfg, was[key], later); }
    } else {
      var c, before := calls[hi - 1], Run(cfg, calls[..hi - 1]);
      assert calls[..hi][..hi - 1] == calls[..hi - 1];
      if c.key == key {
        BudgetHolds(cfg, calls, key, lo, hi - 1, s, c.at);
        SpendThenWait(cfg, Find(before, key), c.at, later);
        AccruedSplit(cfg, s, c.at, later);
        assert Find(was, key) == Some(Spent(cfg, Find(before, key), c.at));
      } else {
        BudgetHolds(cfg, calls, key, lo, hi - 1, s, later);
        assert Find(was, key) == Find(before, key);
      }
    }
  }

  /** In any interval `[s, t]`, whatever other keys do, the calls allowed for a key number at most
      the capacity plus what the interval refills. */
  lemma RateBound(cfg: Config, calls: seq<Call>, key: string, lo: nat, hi: nat, s: real, t: real)
    requires Sane(cfg) && Monotone(calls) && lo <= hi <= |calls| && s <= t
    requires forall i :: lo <= i < hi ==> s <= calls[i].at <= t
    ensures AllowedFor(cfg, calls, key, lo, hi) as real <= cfg.max + cfg.rate * (t - s)
  {
    AccruedNonneg(cfg, s, t);
    AccruedIs(cfg, s, t);
    if lo < hi {
      BudgetHolds(cfg, calls, key, lo, hi, s, t);
      RunFilled(cfg, calls[..hi], t);
      LevelNonneg(cfg, Find(Run(cfg, calls[..hi]), key), t);
    }
  }

  // ------------------------------------------------------------------
  // Refused calls leave no trace
  // ------------------------------------------------------------------
  function Kept(calls: seq<Call>, keep: seq<bool>): seq<Call>
    requires |calls| == |keep|
  {
    if calls == [] then []
    else
      var before := Kept(calls[..|calls| - 1], keep[..|keep| - 1]);
      if keep[|keep| - 1] then before + [calls[|calls| - 1]] else before
  }

  function Decisions(cfg: Config, calls: seq<Call>): seq<bool> {
    if calls == [] then [] else Decisions(cfg, calls[..|calls| - 1]) + [Allowed(cfg, calls, |calls| - 1)]
  }

  /** The decisions of the calls that are kept. */
  function KeptDecisions(cfg: Config, calls: seq<Call>, keep: seq<bool>): seq<bool>
    requires |calls| == |keep|
  {
    if calls == [] then []
    else
      var before := KeptDecisions(cfg, calls[..|calls| - 1], keep[..|keep| - 1]);
      if keep[|keep| - 1] then before + [Allowed(cfg, calls, |calls| - 1)] else before
  }

  /** Only refused calls are dropped. */
  ghost predicate DropsRefused(cfg: Config, calls: seq<Call>, keep: seq<bool>) {
    |calls| == |keep| && forall i :: 0 <= i < |calls| && !keep[i] ==> !Allowed(cfg, calls, i)
  }

  /** Two bucket tables nobody can tell apart from `now` on. */
  ghost predicate Alike(cfg: Config, a: map<string, Bucket>, b: map<string, Bucket>, now: real) {
    forall k, later :: now <= later ==> Level(cfg, Find(a, k), later) == Level(cfg, Find(b, k), later)
  }

  lemma AlikeKept(cfg: Config, a: map<string, Bucket>, b: map<string, Bucket>, c: Call)
    requires Alike(cfg, a, b, c.at)
    ensures Grants(cfg, Find(a, c.key), c.at) == Grants(cfg, Find(b, c.key), c.at)
    ensures Alike(cfg, a[c.key := Spent(cfg, Find(a, c.key), c.at)], b[c.key := Spent(cfg, Find(b, c.key), c.at)], c.at)
  {
    assert Level(cfg, Find(a, c.key), c.at) == Level(cfg, Find(b, c.key), c.at);
    var a', b' := a[c.key := Spent(cfg, Find(a, c.key), c.at)], b[c.key := Spent(cfg, Find(b, c.key), c.at)];
    forall k, later | c.at <= later ensures Level(cfg, Find(a', k), later) == Level(cfg, Find(b', k), later) {
      if k != c.key {
        assert Find(a', k) == Find(a, k) && Find(b', k) == Find(b, k);
      }
    }
  }

  lemma AlikeDropped(cfg: Config, a: map<string, Bucket>, b: map<string, Bucket>, c: Call)
    requires Sane(cfg) && Alike(cfg, a, b, c.at) && !Grants(cfg, Find(a, c.key), c.at)
    ensures Alike(cfg, a[c.key := Spent(cfg, Find(a, c.key), c.at)], b, c.at)
  {
    var a' := a[c.key := Spent(cfg, Find(a, c.key), c.at)];
    forall k, later | c.at <= later ensures Level(cfg, Find(a', k), later) == Level(cfg, Find(b, k), later) {
      if k != c.key {
        assert Find(a', k) == Find(a, k);
      } else {
        RefillComposes(cfg, Find(a, k), c.at, later);
      }
    }
  }

  lemma RunAppend(cfg: Config, calls: seq<Call>, c: Call)
    ensures Run(cfg, calls + [c]) == Run(cfg, calls)[c.key := Spent(cfg, Find(Run(cfg, calls), c.key), c.at)]
    ensures Decisions(cfg, calls + [c]) == Decisions(cfg, calls) + [Grants(cfg, Find(Run(cfg, calls), c.key), c.at)]
  {
    assert (calls + [c])[..|calls|] == calls;
  }

  lemma DropPrefix(cfg: Config, calls: seq<Call>, keep: seq<bool>)
    requires DropsRefused(cfg, calls, keep) && calls != []
    ensures DropsRefused(cfg, calls[..|calls| - 1], keep[..|keep| - 1])
  {
    var n := |calls| - 1;
    forall i | 0 <= i < n && !keep[..n][i] ensures !Allowed(cfg, calls[..n], i) {
      assert calls[..n][..i] == calls[..i];
      assert !Allowed(cfg, calls, i);
    }
  }

  lemma {:induction false} KeptRun(cfg: Config, calls: seq<Call>, keep: seq<bool>, now: real)
    requires Sane(cfg) && Monotone(calls) && DropsRefused(cfg, calls, keep)
    requires calls != [] ==> calls[|calls| - 1].at <= now
    ensures Alike(cfg, Run(cfg, calls), Run(cfg, Kept(calls, keep)), now)
    ensures Decisions(cfg, Kept(calls, keep)) == KeptDecisions(cfg, calls, keep)
  {
    if calls != [] {
      var n := |calls| - 1;
      var c, before, kept := calls[n], calls[..n], Kept(calls[..n], keep[..n]);
      DropPrefix(cfg, calls, keep);
      KeptRun(cfg, before, keep[..n], c.at);
      assert Allowed(cfg, calls, n) == Grants(cfg, Find(Run(cfg, before), c.key), c.at);
      if keep[n] {
        AlikeKept(cfg, Run(cfg, before), Run(cfg, kept), c);
        RunAppend(cfg, kept, c);
      } else {
        AlikeDropped(cfg, Run(cfg, before), Run(cfg, kept), c);
      }
    }
  }

  /** Deleting any refused calls from a trace leaves every other decision as it was. */
  lemma RefusalsAreTransparent(cfg: Config, calls: seq<Call>, keep: seq<bool>)
    requires Sane(cfg) && Monotone(calls) && DropsRefused(cfg, calls, keep)
    ensures Decisions(cfg, Kept(calls, keep)) == KeptDecisions(cfg, calls, keep)
  {
    KeptRun(cfg, calls, keep, if calls == [] then 0.0 else calls[|calls| - 1].at);
  }
}
