// Small shared vocabulary: optional values, ASCII text handling, exact real
// arithmetic helpers, sums over finite collections and a stable sort.

module Common {
  datatype Option<+T> = None | Some(value: T)

  function Min(a: real, b: real): real { if a <= b then a else b }

  function Max(a: real, b: real): real { if a >= b then a else b }

  function Abs(a: real): real { if a < 0.0 then -a else a }

  datatype Side = Buy | Sell

  function Sign(side: Side): real { if side == Buy then 1.0 else -1.0 }

  /** `x` for a buy, `-x` for a sell. */
  function Signed(side: Side, x: real): real { if side == Buy then x else -x }
}

/** The string operations the programs apply to symbols, actors and sides.
    Case mapping is ASCII only. */
module Text {
  function UpperChar(c: char): char {
    if 'a' <= c <= 'z' then (c as int - 32) as char else c
  }

  function LowerChar(c: char): char {
    if 'A' <= c <= 'Z' then (c as int + 32) as char else c
  }

  function Upper(s: string): (r: string)
    ensures |r| == |s|
    ensures forall i :: 0 <= i < |s| ==> r[i] == UpperChar(s[i])
  {
    seq(|s|, i requires 0 <= i < |s| => UpperChar(s[i]))
  }

  function Lower(s: string): (r: string)
    ensures |r| == |s|
    ensures forall i :: 0 <= i < |s| ==> r[i] == LowerChar(s[i])
  {
    seq(|s|, i requires 0 <= i < |s| => LowerChar(s[i]))
  }

  /** ASCII white space: blanks, tabs, line breaks and the four separators. */
  predicate IsSpace(c: char) { c == ' ' || 9 <= c as int <= 13 || 28 <= c as int <= 31 }

  function Strip(s: string): (r: string) {
    if s != [] && IsSpace(s[0]) then Strip(s[1..])
    else if s != [] && IsSpace(s[|s| - 1]) then Strip(s[..|s| - 1])
    else s
  }

  /** What `not s.strip()` tests. */
  predicate Blank(s: string) { Strip(s) == "" }

  /** Case mapping moves the twenty-six letters and nothing else. */
  lemma CaseIs(c: char)
    ensures UpperChar(c) == if 97 <= c as int <= 122 then (c as int - 32) as char else c
    ensures LowerChar(c) == if 65 <= c as int <= 90 then (c as int + 32) as char else c
    ensures Upper("aAzZ09-") == "AAZZ09-" && Lower("aAzZ09-") == "aazz09-"
  {
  }

  ghost predicate Spaces(s: string) { forall i :: 0 <= i < |s| ==> IsSpace(s[i]) }

  /** Stripping takes spaces off both ends, all of them and nothing else. */
  lemma {:induction false} StripIs(s: string) returns (before: string, after: string)
    ensures s == before + Strip(s) + after && Spaces(before) && Spaces(after)
    ensures Strip(s) != "" ==> !IsSpace(Strip(s)[0]) && !IsSpace(Strip(s)[|Strip(s)| - 1])
  {
    before, after := "", "";
    if s != [] && IsSpace(s[0]) {
      before, after := StripIs(s[1..]);
      before := [s[0]] + before;
    } else if s != [] && IsSpace(s[|s| - 1]) {
      before, after := StripIs(s[..|s| - 1]);
      after := after + [s[|s| - 1]];
    }
  }

  /** Blank is nothing but spaces. */
  lemma {:induction false} BlankIff(s: string)
    ensures Blank(s) <==> Spaces(s)
  {
    if s != [] && IsSpace(s[0]) {
      BlankIff(s[1..]);
      assert Spaces(s) <==> Spaces(s[1..]);
    } else if s != [] && IsSpace(s[|s| - 1]) {
      BlankIff(s[..|s| - 1]);
      assert s[0] == s[..|s| - 1][0] || |s| == 1;
    }
  }

  lemma UpperIdempotent(s: string)
    ensures Upper(Upper(s)) == Upper(s)
  {
  }
}

/** Sums over finite sets and sequences of real-valued terms. */
module Sums {
  ghost function SumOver<K(!new)>(s: set<K>, f: K -> real): real
    decreases s
  {
    if s == {} then 0.0
    else
      var k :| k in s;
      f(k) + SumOver(s - {k}, f)
  }

  /** The sum does not depend on which element is taken out first. */
  lemma {:induction false} SumRemove<K(!new)>(s: set<K>, f: K -> real, k: K)
    requires k in s
    ensures SumOver(s, f) == f(k) + SumOver(s - {k}, f)
    decreases s
  {
    var j :| j in s && SumOver(s, f) == f(j) + SumOver(s - {j}, f);
    if j != k {
      SumRemove(s - {j}, f, k);
      SumRemove(s - {k}, f, j);
      assert s - {j} - {k} == s - {k} - {j};
    }
  }

  lemma {:induction false} SumEqual<K(!new)>(s: set<K>, f: K -> real, g: K -> real)
    requires forall k :: k in s ==> f(k) == g(k)
    ensures SumOver(s, f) == SumOver(s, g)
    decreases s
  {
    if s != {} {
      var k :| k in s;
      SumRemove(s, f, k);
      SumRemove(s, g, k);
      SumEqual(s - {k}, f, g);
    }
  }

  /** Growing the index set by keys whose terms are zero changes nothing. */
  lemma {:induction false} SumPadding<K(!new)>(s: set<K>, t: set<K>, f: K -> real)
    requires s <= t
    requires forall k :: k in t && k !in s ==> f(k) == 0.0
    ensures SumOver(s, f) == SumOver(t, f)
    decreases t
  {
    if s != t {
      var k :| k in t && k !in s;
      SumRemove(t, f, k);
      SumPadding(s, t - {k}, f);
    }
  }

  lemma {:induction false} SumOrdered<K(!new)>(s: set<K>, f: K -> real, g: K -> real)
    requires forall k :: k in s ==> f(k) <= g(k)
    ensures SumOver(s, f) <= SumOver(s, g)
    decreases s
  {
    if s != {} {
      var k :| k in s;
      SumRemove(s, f, k);
      SumRemove(s, g, k);
      SumOrdered(s - {k}, f, g);
    }
  }

  function MapTerms<K(!new), V>(m: map<K, V>, f: V -> real): K -> real {
    (k: K) => if k in m then f(m[k]) else 0.0
  }

  /** Sum of `f` over the values of a map. */
  ghost function MapSum<K(!new), V>(m: map<K, V>, f: V -> real): real {
    SumOver(m.Keys, MapTerms(m, f))
  }

  lemma MapSumDrop<K(!new), V>(m: map<K, V>, f: V -> real, k: K)
    requires k in m
    ensures MapSum(m, f) == f(m[k]) + MapSum(m - {k}, f)
  {
    var n := m - {k};
    SumRemove(m.Keys, MapTerms(m, f), k);
    assert n.Keys == m.Keys - {k};
    SumEqual(n.Keys, MapTerms(m, f), MapTerms(n, f));
  }

  lemma MapSumSet<K(!new), V>(m: map<K, V>, f: V -> real, k: K, v: V)
    ensures MapSum(m[k := v], f) == MapSum(m, f) - (if k in m then f(m[k]) else 0.0) + f(v)
  {
    MapSumDrop(m[k := v], f, k);
    if k in m {
      MapSumDrop(m, f, k);
      assert m[k := v] - {k} == m - {k};
    } else {
      assert m[k := v] - {k} == m;
    }
  }

  function SumSeq<T>(s: seq<T>, f: T -> real): real {
    if s == [] then 0.0 else SumSeq(s[..|s| - 1], f) + f(s[|s| - 1])
  }

  lemma {:induction false} SumSeqConcat<T>(s: seq<T>, t: seq<T>, f: T -> real)
    ensures SumSeq(s + t, f) == SumSeq(s, f) + SumSeq(t, f)
  {
    if t == [] {
      assert s + t == s;
    } else {
      assert (s + t)[..|s + t| - 1] == s + t[..|t| - 1];
      SumSeqConcat(s, t[..|t| - 1], f);
    }
  }

  lemma SumSeqSingle<T>(x: T, f: T -> real)
    ensures SumSeq([x], f) == f(x)
  {
    assert [x][..0] == [];
  }

  lemma SumSeqAppend<T>(s: seq<T>, x: T, f: T -> real)
    ensures SumSeq(s + [x], f) == SumSeq(s, f) + f(x)
  {
    assert (s + [x])[..|s|] == s;
  }

  lemma SumSeqCons<T>(x: T, s: seq<T>, f: T -> real)
    ensures SumSeq([x] + s, f) == f(x) + SumSeq(s, f)
  {
    SumSeqConcat([x], s, f);
    SumSeqSingle(x, f);
  }
}

/** Integer sums over finite sets. */
module Counts {
  ghost function Total<K(!new)>(s: set<K>, f: K -> int): int
    decreases s
  {
    if s == {} then 0
    else
      var k :| k in s;
      f(k) + Total(s - {k}, f)
  }

  lemma {:induction false} TotalRemove<K(!new)>(s: set<K>, f: K -> int, k: K)
    requires k in s
    ensures Total(s, f) == f(k) + Total(s - {k}, f)
    decreases s
  {
    var j :| j in s && Total(s, f) == f(j) + Total(s - {j}, f);
    if j != k {
      TotalRemove(s - {j}, f, k);
      TotalRemove(s - {k}, f, j);
      assert s - {j} - {k} == s - {k} - {j};
    }
  }

  lemma {:induction false} TotalEqual<K(!new)>(s: set<K>, f: K -> int, g: K -> int)
    requires forall k :: k in s ==> f(k) == g(k)
    ensures Total(s, f) == Total(s, g)
    decreases s
  {
    if s != {} {
      var k :| k in s;
      TotalRemove(s, f, k);
      TotalRemove(s, g, k);
      TotalEqual(s - {k}, f, g);
    }
  }

  lemma {:induction false} TotalOrdered<K(!new)>(s: set<K>, f: K -> int, g: K -> int)
    requires forall k :: k in s ==> f(k) <= g(k)
    ensures Total(s, f) <= Total(s, g)
    decreases s
  {
    if s != {} {
      var k :| k in s;
      TotalRemove(s, f, k);
      TotalRemove(s, g, k);
      TotalOrdered(s - {k}, f, g);
    }
  }

  /** Growing the index set by keys whose terms are zero changes nothing. */
  lemma {:induction false} TotalPadding<K(!new)>(s: set<K>, t: set<K>, f: K -> int)
    requires s <= t
    requires forall k :: k in t && k !in s ==> f(k) == 0
    ensures Total(s, f) == Total(t, f)
    decreases t
  {
    if s != t {
      var k :| k in t && k !in s;
      TotalRemove(t, f, k);
      TotalPadding(s, t - {k}, f);
    }
  }
}

/** More about sums over sequences, used when rows are partitioned into groups. */
module SeqSums {
  import opened Sums

  lemma {:induction false} SumSeqEqual<T>(s: seq<T>, f: T -> real, g: T -> real)
    requires forall x :: x in s ==> f(x) == g(x)
    ensures SumSeq(s, f) == SumSeq(s, g)
  {
    if s != [] {
      SumSeqEqual(s[..|s| - 1], f, g);
    }
  }

  lemma {:induction false} SumSeqAdd<T>(s: seq<T>, f: T -> real, g: T -> real, h: T -> real)
    requires forall x :: x in s ==> f(x) == g(x) + h(x)
    ensures SumSeq(s, f) == SumSeq(s, g) + SumSeq(s, h)
  {
    if s != [] {
      SumSeqAdd(s[..|s| - 1], f, g, h);
    }
  }

  lemma {:induction false} SumSeqScale<T>(s: seq<T>, f: T -> real, g: T -> real, c: real)
    requires forall x :: x in s ==> f(x) == c * g(x)
    ensures SumSeq(s, f) == c * SumSeq(s, g)
  {
    if s != [] {
      SumSeqScale(s[..|s| - 1], f, g, c);
    }
  }

  /** Taking one occurrence out of two sequences with the same elements leaves the same elements. */
  lemma SameRest<T>(s: seq<T>, t: seq<T>, x: T, a: seq<T>, b: seq<T>)
    requires multiset(s + [x]) == multiset(t) && t == a + [x] + b
    ensures multiset(s) == multiset(a + b)
  {
    assert multiset(s) == multiset(s + [x]) - multiset{x};
    assert multiset(a + b) == multiset(t) - multiset{x};
  }

  lemma SumMiddle<T>(a: seq<T>, x: T, b: seq<T>, f: T -> real)
    ensures SumSeq(a + [x] + b, f) == SumSeq(a + b, f) + f(x)
  {
    SumSeqConcat(a, b, f);
    SumSeqAppend(a, x, f);
    SumSeqConcat(a + [x], b, f);
  }

  lemma SplitLast<T>(s: seq<T>)
    requires s != []
    ensures s == s[..|s| - 1] + [s[|s| - 1]]
  {
  }

  lemma SplitAt<T>(t: seq<T>, x: T) returns (a: seq<T>, b: seq<T>)
    requires x in multiset(t)
    ensures t == a + [x] + b
  {
    var i :| 0 <= i < |t| && t[i] == x;
    a, b := t[..i], t[i + 1..];
  }

  /** A sum does not depend on the order of its terms. */
  lemma {:induction false} SumSeqPermutation<T>(s: seq<T>, t: seq<T>, f: T -> real)
    requires multiset(s) == multiset(t)
    ensures SumSeq(s, f) == SumSeq(t, f)
  {
    if s == [] {
      assert |t| == |multiset(t)| == 0;
    } else {
      var before, x := s[..|s| - 1], s[|s| - 1];
      SplitLast(s);
      var a, b := SplitAt(t, x);
      SameRest(before, t, x, a, b);
      SumSeqPermutation(before, a + b, f);
      SumMiddle(a, x, b, f);
    }
  }

  /** Two term functions that differ in one element of a duplicate-free sequence. */
  lemma {:induction false} SumSeqChange<T>(s: seq<T>, f: T -> real, g: T -> real, x: T)
    requires x in s
    requires forall i, j :: 0 <= i < j < |s| ==> s[i] != s[j]
    requires forall y :: y in s && y != x ==> f(y) == g(y)
    ensures SumSeq(s, g) == SumSeq(s, f) - f(x) + g(x)
  {
    var n := |s| - 1;
    if s[n] == x {
      SumSeqEqual(s[..n], f, g);
    } else {
      SumSeqChange(s[..n], f, g, x);
    }
  }
}

/** `list.sort(key=...)`: a stable sort by an integer key. */
module Sorting {
  import opened Sums

  /** Insert `x` after every element whose key is not larger. */
  function Insert<T>(s: seq<T>, x: T, key: T -> int): (r: seq<T>)
    ensures |r| == |s| + 1
  {
    if s == [] || key(s[|s| - 1]) <= key(x) then s + [x]
    else Insert(s[..|s| - 1], x, key) + [s[|s| - 1]]
  }

  function SortBy<T>(s: seq<T>, key: T -> int): (r: seq<T>)
    ensures |r| == |s|
  {
    if s == [] then [] else Insert(SortBy(s[..|s| - 1], key), s[|s| - 1], key)
  }

  ghost predicate SortedBy<T>(s: seq<T>, key: T -> int) {
    forall i, j :: 0 <= i < j < |s| ==> key(s[i]) <= key(s[j])
  }

  lemma {:induction false} InsertMultiset<T>(s: seq<T>, x: T, key: T -> int)
    ensures multiset(Insert(s, x, key)) == multiset(s) + multiset{x}
  {
    if s == [] || key(s[|s| - 1]) <= key(x) {
    } else {
      InsertMultiset(s[..|s| - 1], x, key);
      assert s == s[..|s| - 1] + [s[|s| - 1]];
    }
  }

  lemma {:induction false} InsertBelow<T>(s: seq<T>, x: T, key: T -> int, bound: int)
    requires key(x) <= bound
    requires forall i :: 0 <= i < |s| ==> key(s[i]) <= bound
    ensures forall i :: 0 <= i <= |s| ==> key(Insert(s, x, key)[i]) <= bound
  {
    if s != [] && key(s[|s| - 1]) > key(x) {
      InsertBelow(s[..|s| - 1], x, key, bound);
    }
  }

  lemma {:induction false} InsertSorted<T>(s: seq<T>, x: T, key: T -> int)
    requires SortedBy(s, key)
    ensures SortedBy(Insert(s, x, key), key)
  {
    if s != [] && key(s[|s| - 1]) > key(x) {
      var n := |s| - 1;
      InsertSorted(s[..n], x, key);
      InsertBelow(s[..n], x, key, key(s[n]));
    }
  }

  lemma {:induction false} SortBySorts<T>(s: seq<T>, key: T -> int)
    ensures SortedBy(SortBy(s, key), key)
    ensures multiset(SortBy(s, key)) == multiset(s)
  {
    if s != [] {
      var n := |s| - 1;
      SortBySorts(s[..n], key);
      InsertSorted(SortBy(s[..n], key), s[n], key);
      InsertMultiset(SortBy(s[..n], key), s[n], key);
      assert s == s[..n] + [s[n]];
    }
  }

  lemma {:induction false} InsertSum<T>(s: seq<T>, x: T, key: T -> int, f: T -> real)
    ensures SumSeq(Insert(s, x, key), f) == SumSeq(s, f) + f(x)
  {
    if s == [] || key(s[|s| - 1]) <= key(x) {
      SumSeqAppend(s, x, f);
    } else {
      InsertSum(s[..|s| - 1], x, key, f);
      SumSeqAppend(Insert(s[..|s| - 1], x, key), s[|s| - 1], f);
    }
  }

  /** Sorting does not change a total. */
  lemma {:induction false} SortBySum<T>(s: seq<T>, key: T -> int, f: T -> real)
    ensures SumSeq(SortBy(s, key), f) == SumSeq(s, f)
  {
    if s != [] {
      SortBySum(s[..|s| - 1], key, f);
      InsertSum(SortBy(s[..|s| - 1], key), s[|s| - 1], key, f);
    }
  }

  lemma SortByElements<T>(s: seq<T>, key: T -> int, x: T)
    ensures x in SortBy(s, key) <==> x in s
  {
    SortBySorts(s, key);
    assert x in multiset(SortBy(s, key)) <==> x in multiset(s);
  }
}
