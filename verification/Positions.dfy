// Broker positions against ledger positions
// (services/autonomy-orchestrator/src/autonomy_orchestrator/reconciliation.py).

/** The order Python gives identity tuples. */
module KeyOrder {
  datatype Key = Key(symbol: string, accountId: string, broker: string, assetClass: string)

  predicate StringLess(a: string, b: string) {
    if b == [] then false
    else if a == [] then true
    else if a[0] != b[0] then a[0] < b[0]
    else StringLess(a[1..], b[1..])
  }

  lemma {:induction false} StringIrreflexive(a: string)
    ensures !StringLess(a, a)
  {
    if a != [] {
      StringIrreflexive(a[1..]);
    }
  }

  lemma {:induction false} StringTransitive(a: string, b: string, c: string)
    requires StringLess(a, b) && StringLess(b, c)
    ensures StringLess(a, c)
  {
    if a != [] && a[0] == b[0] && b[0] == c[0] {
      StringTransitive(a[1..], b[1..], c[1..]);
    }
  }

  lemma {:induction false} StringTotal(a: string, b: string)
    ensures a == b || StringLess(a, b) || StringLess(b, a)
  {
    if a != [] && b != [] && a[0] == b[0] {
      StringTotal(a[1..], b[1..]);
      assert a == [a[0]] + a[1..] && b == [b[0]] + b[1..];
    }
  }

  /** Strings are ordered by the first place they differ in; a proper beginning comes first. */
  lemma {:induction false} StringLessAt(a: string, b: string, n: nat)
    requires n <= |a| && n <= |b| && a[..n] == b[..n]
    ensures n == |a| ==> (StringLess(a, b) <==> n < |b|)
    ensures n == |b| ==> !StringLess(a, b)
    ensures n < |a| && n < |b| && a[n] != b[n] ==> (StringLess(a, b) <==> a[n] < b[n])
  {
    if n > 0 {
      assert a[0] == a[..n][0] && b[0] == b[..n][0];
      assert a[1..][..n - 1] == a[..n][1..] && b[1..][..n - 1] == b[..n][1..];
      StringLessAt(a[1..], b[1..], n - 1);
    }
  }

  /** Identities are ordered by symbol, then account, then broker, then asset class. */
  lemma LessIs(a: Key, b: Key)
    ensures a.symbol != b.symbol ==> (Less(a, b) <==> StringLess(a.symbol, b.symbol))
    ensures a.symbol == b.symbol && a.accountId != b.accountId ==> (Less(a, b) <==> StringLess(a.accountId, b.accountId))
    ensures a.symbol == b.symbol && a.accountId == b.accountId && a.broker != b.broker ==>
              (Less(a, b) <==> StringLess(a.broker, b.broker))
    ensures a.symbol == b.symbol && a.accountId == b.accountId && a.broker == b.broker ==>
              (Less(a, b) <==> StringLess(a.assetClass, b.assetClass))
  {
  }

  predicate Less(a: Key, b: Key) {
    if a.symbol != b.symbol then StringLess(a.symbol, b.symbol)
    else if a.accountId != b.accountId then StringLess(a.accountId, b.accountId)
    else if a.broker != b.broker then StringLess(a.broker, b.broker)
    else StringLess(a.assetClass, b.assetClass)
  }

  lemma LessIrreflexive(a: Key)
    ensures !Less(a, a)
  {
    StringIrreflexive(a.assetClass);
  }

  lemma LessAsymmetric(a: string, b: string)
    ensures !(StringLess(a, b) && StringLess(b, a))
  {
    if StringLess(a, b) && StringLess(b, a) {
      StringTransitive(a, b, a);
      StringIrreflexive(a);
    }
  }

  lemma LessTransitive(a: Key, b: Key, c: Key)
    requires Less(a, b) && Less(b, c)
    ensures Less(a, c)
  {
    if a.symbol != b.symbol && b.symbol != c.symbol {
      StringTransitive(a.symbol, b.symbol, c.symbol);
      LessAsymmetric(a.symbol, b.symbol);
    } else if a.symbol == b.symbol == c.symbol {
      if a.accountId != b.accountId && b.accountId != c.accountId {
        StringTransitive(a.accountId, b.accountId, c.accountId);
        LessAsymmetric(a.accountId, b.accountId);
      } else if a.accountId == b.accountId == c.accountId {
        if a.broker != b.broker && b.broker != c.broker {
          StringTransitive(a.broker, b.broker, c.broker);
          LessAsymmetric(a.broker, b.broker);
        } else if a.broker == b.broker == c.broker {
          StringTransitive(a.assetClass, b.assetClass, c.assetClass);
        }
      }
    }
  }

  lemma LessTotal(a: Key, b: Key)
    ensures a == b || Less(a, b) || Less(b, a)
  {
    StringTotal(a.symbol, b.symbol);
    StringTotal(a.accountId, b.accountId);
    StringTotal(a.broker, b.broker);
    StringTotal(a.assetClass, b.assetClass);
  }

  ghost predicate Ascending(s: seq<Key>) { forall i, j :: 0 <= i < j < |s| ==> Less(s[i], s[j]) }

  /** Two ascending sequences with the same elements are the same sequence. */
  lemma {:induction false} AscendingUnique(s: seq<Key>, t: seq<Key>)
    requires Ascending(s) && Ascending(t)
    requires forall k :: k in s <==> k in t
    ensures s == t
  {
    assert t != [] ==> t[0] in t;
    if s != [] {
      assert s[0] in t && t != [] && t[0] in s;
      var i :| 0 <= i < |t| && t[i] == s[0];
      var j :| 0 <= j < |s| && s[j] == t[0];
      if i > 0 && j > 0 {
        LessTransitive(s[0], t[0], s[0]);
        LessIrreflexive(s[0]);
      }
      assert s[0] == t[0];
      forall k ensures k in s[1..] <==> k in t[1..] {
        LessIrreflexive(s[0]);
        assert k in s <==> k == s[0] || k in s[1..];
        assert k in t <==> k == t[0] || k in t[1..];
        assert s[0] !in s[1..] && t[0] !in t[1..];
      }
      AscendingUnique(s[1..], t[1..]);
    }
  }

  /** Insert a new key in its place. */
  function Insert(s: seq<Key>, k: Key): seq<Key> {
    if s == [] || Less(s[|s| - 1], k) then s + [k] else Insert(s[..|s| - 1], k) + [s[|s| - 1]]
  }

  lemma {:induction false} InsertAscending(s: seq<Key>, k: Key)
    requires Ascending(s) && k !in s
    ensures Ascending(Insert(s, k))
    ensures forall j :: j in Insert(s, k) <==> j in s || j == k
  {
    if s != [] {
      var n := |s| - 1;
      if Less(s[n], k) {
        forall i | 0 <= i < |s| ensures Less(s[i], k) {
          if i < n { LessTransitive(s[i], s[n], k); }
        }
      } else {
        LessTotal(s[n], k);
        InsertAscending(s[..n], k);
        assert s == s[..n] + [s[n]];
        var r := Insert(s[..n], k);
        forall i | 0 <= i < |r| ensures Less(r[i], s[n]) {
          assert r[i] in r;
        }
      }
    }
  }

  /** `sorted(set)`. */
  method SortedKeys(keys: set<Key>) returns (s: seq<Key>)
    ensures Ascending(s) && forall k :: k in s <==> k in keys
  {
    s := [];
    var left := keys;
    while left != {}
      invariant left <= keys && Ascending(s)
      invariant forall k :: k in s <==> k in keys && k !in left
    {
      var k :| k in left;
      InsertAscending(s, k);
      s := Insert(s, k);
      left := left - {k};
    }
  }
}

module Positions {
  import opened Common
  import opened Sums
  import opened SeqSums
  import opened KeyOrder
  import Text

  /** Quantities that are missing or unreadable are `None`. */
  datatype PositionRow = PositionRow(symbol: string, accountId: string, broker: string, assetClass: string,
                                     qty: Option<real>, netQty: Option<real>)

  datatype PositionBreak = PositionBreak(key: Key, brokerQty: real, ledgerQty: real)

  const QTY_TOLERANCE := 0.000001

  function KeyOf(r: PositionRow): Option<Key> {
    var symbol := Text.Upper(Text.Strip(r.symbol));
    if symbol == "" then None
    else Some(Key(symbol, Text.Upper(r.accountId), Text.Lower(r.broker), Text.Lower(r.assetClass)))
  }

  /** The broker view prefers `qty`, the ledger view `net_qty`. */
  function QtyOf(r: PositionRow, ledger: bool): real {
    var first, second := if ledger then r.netQty else r.qty, if ledger then r.qty else r.netQty;
    if first.Some? then first.value else if second.Some? then second.value else 0.0
  }

  function Term(k: Key, ledger: bool): PositionRow -> real {
    (r: PositionRow) => if KeyOf(r) == Some(k) then QtyOf(r, ledger) else 0.0
  }

  /** The total an identity holds in one view. */
  function Held(rows: seq<PositionRow>, ledger: bool, k: Key): real { SumSeq(rows, Term(k, ledger)) }

  predicate Apart(a: real, b: real) { Abs(a - b) > QTY_TOLERANCE }

  lemma HeldAppend(rows: seq<PositionRow>, r: PositionRow, ledger: bool, k: Key)
    ensures Held(rows + [r], ledger, k) == Held(rows, ledger, k) + if KeyOf(r) == Some(k) then QtyOf(r, ledger) else 0.0
  {
    SumSeqAppend(rows, r, Term(k, ledger));
  }

  function Get(totals: map<Key, real>, k: Key): real { if k in totals then totals[k] else 0.0 }

  /** Sum quantities per identity. */
  method Aggregate(rows: seq<PositionRow>, ledger: bool) returns (totals: map<Key, real>)
    ensures forall k :: Get(totals, k) == Held(rows, ledger, k)
  {
    totals := map[];
    for i := 0 to |rows|
      invariant forall k :: Get(totals, k) == Held(rows[..i], ledger, k)
    {
      ghost var before := totals;
      var key := KeyOf(rows[i]);
      if key.Some? {
        totals := totals[key.value := Get(totals, key.value) + QtyOf(rows[i], ledger)];
      }
      forall k ensures Get(totals, k) == Held(rows[..i + 1], ledger, k) {
        assert rows[..i + 1] == rows[..i] + [rows[i]];
        HeldAppend(rows[..i], rows[i], ledger, k);
        assert Get(before, k) == Held(rows[..i], ledger, k);
      }
    }
    assert rows[..|rows|] == rows;
  }

  function Keys(breaks: seq<PositionBreak>): (ks: seq<Key>)
    ensures |ks| == |breaks| && forall i :: 0 <= i < |breaks| ==> ks[i] == breaks[i].key
  {
    seq(|breaks|, i requires 0 <= i < |breaks| => breaks[i].key)
  }

  /** The report two views call for: every identity whose totals are apart, in order, with both totals,
      and nothing else. */
  ghost predicate IsReport(broker: seq<PositionRow>, ledger: seq<PositionRow>, breaks: seq<PositionBreak>) {
    && Ascending(Keys(breaks))
    && (forall i :: 0 <= i < |breaks| ==>
          && breaks[i].brokerQty == Held(broker, false, breaks[i].key)
          && breaks[i].ledgerQty == Held(ledger, true, breaks[i].key))
    && (forall k :: k in Keys(breaks) <==> Apart(Held(broker, false, k), Held(ledger, true, k)))
  }

  /** The comparison loop over the sorted identities of both views. */
  method Differences(keys: seq<Key>, ours: map<Key, real>, theirs: map<Key, real>) returns (breaks: seq<PositionBreak>)
    requires KeyOrder.Ascending(keys)
    ensures Ascending(Keys(breaks))
    ensures forall j :: 0 <= j < |breaks| ==> breaks[j].brokerQty == Get(ours, breaks[j].key)
                                              && breaks[j].ledgerQty == Get(theirs, breaks[j].key)
    ensures forall k :: k in Keys(breaks) <==> k in keys && Apart(Get(ours, k), Get(theirs, k))
  {
    breaks := [];
    for i := 0 to |keys|
      invariant Ascending(Keys(breaks))
      invariant forall j :: 0 <= j < |breaks| ==> breaks[j].brokerQty == Get(ours, breaks[j].key)
                                                  && breaks[j].ledgerQty == Get(theirs, breaks[j].key)
      invariant forall k :: k in Keys(breaks) <==> k in keys[..i] && Apart(Get(ours, k), Get(theirs, k))
    {
      var key := keys[i];
      assert keys[..i + 1] == keys[..i] + [key];
      if Apart(Get(ours, key), Get(theirs, key)) {
        ghost var was := Keys(breaks);
        forall j | 0 <= j < |was| ensures Less(was[j], key) {
          assert was[j] in keys[..i];
        }
        breaks := breaks + [PositionBreak(key, Get(ours, key), Get(theirs, key))];
        assert Keys(breaks) == was + [key];
      }
    }
    assert keys[..|keys|] == keys;
  }

  method ComparePositions(broker: seq<PositionRow>, ledger: seq<PositionRow>) returns (breaks: seq<PositionBreak>)
    ensures IsReport(broker, ledger, breaks)
  {
    var ours := Aggregate(broker, false);
    var theirs := Aggregate(ledger, true);
    var keys := SortedKeys(ours.Keys + theirs.Keys);
    breaks := Differences(keys, ours, theirs);
    forall k ensures k in Keys(breaks) <==> Apart(Held(broker, false, k), Held(ledger, true, k)) {
      assert Get(ours, k) == Held(broker, false, k) && Get(theirs, k) == Held(ledger, true, k);
    }
  }

  /** What one row adds: its quantity, to the identity of its trimmed upper-case symbol, upper-case account and
      lower-case broker and asset class, and nothing to any other or without a symbol.  The broker's view
      reads `qty` and falls back on `net_qty`, the ledger's the other way round. */
  lemma HeldOne(r: PositionRow, ledger: bool, k: Key)
    ensures Held([r], ledger, k) ==
              if Text.Upper(Text.Strip(r.symbol)) != ""
                 && k == Key(Text.Upper(Text.Strip(r.symbol)), Text.Upper(r.accountId), Text.Lower(r.broker), Text.Lower(r.assetClass))
              then
                if !ledger then
                  if r.qty.Some? then r.qty.value else if r.netQty.Some? then r.netQty.value else 0.0
                else
                  if r.netQty.Some? then r.netQty.value else if r.qty.Some? then r.qty.value else 0.0
              else 0.0
  {
    SumSeqSingle(r, Term(k, ledger));
  }

  lemma HeldConcat(a: seq<PositionRow>, b: seq<PositionRow>, ledger: bool, k: Key)
    ensures Held(a + b, ledger, k) == Held(a, ledger, k) + Held(b, ledger, k)
  {
    SumSeqConcat(a, b, Term(k, ledger));
  }

  /** Totals are apart when they differ by more than a millionth, either way. */
  lemma ApartIff(a: real, b: real)
    ensures Apart(a, b) <==> a - b > 0.000001 || b - a > 0.000001
  {
  }

  /** The report is determined by the totals alone. */
  lemma ReportUnique(b1: seq<PositionRow>, l1: seq<PositionRow>, b2: seq<PositionRow>, l2: seq<PositionRow>,
                     x: seq<PositionBreak>, y: seq<PositionBreak>)
    requires IsReport(b1, l1, x) && IsReport(b2, l2, y)
    requires forall k :: Held(b1, false, k) == Held(b2, false, k)
    requires forall k :: Held(l1, true, k) == Held(l2, true, k)
    ensures x == y
  {
    AscendingUnique(Keys(x), Keys(y));
    assert |x| == |y|;
    forall i | 0 <= i < |x| ensures x[i] == y[i] {
      assert Keys(x)[i] == Keys(y)[i];
    }
  }

  /** No break is reported exactly when every identity's totals agree within tolerance. */
  lemma CleanIff(broker: seq<PositionRow>, ledger: seq<PositionRow>, breaks: seq<PositionBreak>)
    requires IsReport(broker, ledger, breaks)
    ensures breaks == [] <==> forall k :: !Apart(Held(broker, false, k), Held(ledger, true, k))
  {
    assert breaks != [] ==> Keys(breaks)[0] in Keys(breaks);
  }

  /** Reordering either view changes nothing. */
  lemma OrderInsensitive(broker: seq<PositionRow>, ledger: seq<PositionRow>, broker2: seq<PositionRow>,
                         ledger2: seq<PositionRow>, x: seq<PositionBreak>, y: seq<PositionBreak>)
    requires multiset(broker) == multiset(broker2) && multiset(ledger) == multiset(ledger2)
    requires IsReport(broker, ledger, x) && IsReport(broker2, ledger2, y)
    ensures x == y
  {
    forall k ensures Held(broker, false, k) == Held(broker2, false, k) {
      SumSeqPermutation(broker, broker2, Term(k, false));
    }
    forall k ensures Held(ledger, true, k) == Held(ledger2, true, k) {
      SumSeqPermutation(ledger, ledger2, Term(k, true));
    }
    ReportUnique(broker, ledger, broker2, ledger2, x, y);
  }

  /** `parts` are lots of the position `whole`: same identity, same total. */
  ghost predicate LotsOf(whole: PositionRow, parts: seq<PositionRow>, ledger: bool) {
    forall k :: Held(parts, ledger, k) == Held([whole], ledger, k)
  }

  lemma SplitHeld(a: seq<PositionRow>, whole: PositionRow, parts: seq<PositionRow>, c: seq<PositionRow>, ledger: bool, k: Key)
    requires LotsOf(whole, parts, ledger)
    ensures Held(a + parts + c, ledger, k) == Held(a + [whole] + c, ledger, k)
  {
    var term := Term(k, ledger);
    SumSeqConcat(a, parts, term);
    SumSeqConcat(a + parts, c, term);
    SumSeqConcat(a, [whole], term);
    SumSeqConcat(a + [whole], c, term);
    assert Held(parts, ledger, k) == Held([whole], ledger, k);
  }

  ghost predicate OneIdentity(parts: seq<PositionRow>, key: Option<Key>) {
    forall i :: 0 <= i < |parts| ==> KeyOf(parts[i]) == key
  }

  function Quantities(ledger: bool): PositionRow -> real { (r: PositionRow) => QtyOf(r, ledger) }

  lemma {:induction false} OneIdentityHeld(parts: seq<PositionRow>, key: Option<Key>, ledger: bool, k: Key)
    requires OneIdentity(parts, key)
    ensures Held(parts, ledger, k) == if key == Some(k) then SumSeq(parts, Quantities(ledger)) else 0.0
  {
    if parts != [] {
      var n := |parts| - 1;
      OneIdentityHeld(parts[..n], key, ledger, k);
      assert parts == parts[..n] + [parts[n]];
      HeldAppend(parts[..n], parts[n], ledger, k);
      SumSeqAppend(parts[..n], parts[n], Quantities(ledger));
    }
  }

  /** Any rows of one identity whose quantities add up to the position's are lots of it. */
  lemma PartsAreLots(whole: PositionRow, parts: seq<PositionRow>, ledger: bool)
    requires OneIdentity(parts, KeyOf(whole))
    requires SumSeq(parts, Quantities(ledger)) == QtyOf(whole, ledger)
    ensures LotsOf(whole, parts, ledger)
  {
    forall k ensures Held(parts, ledger, k) == Held([whole], ledger, k) {
      OneIdentityHeld(parts, KeyOf(whole), ledger, k);
      OneIdentityHeld([whole], KeyOf(whole), ledger, k);
      SumSeqSingle(whole, Quantities(ledger));
    }
  }

  /** Two rows of one identity are lots of the row that holds their sum. */
  lemma TwoLots(whole: PositionRow, p: PositionRow, q: PositionRow, ledger: bool)
    requires KeyOf(p) == KeyOf(q) == KeyOf(whole)
    requires QtyOf(whole, ledger) == QtyOf(p, ledger) + QtyOf(q, ledger)
    ensures LotsOf(whole, [p, q], ledger)
  {
    forall k ensures Held([p, q], ledger, k) == Held([whole], ledger, k) {
      HeldAppend([], p, ledger, k);
      HeldAppend([p], q, ledger, k);
      HeldAppend([], whole, ledger, k);
      assert [] + [p] == [p] && [p] + [q] == [p, q] && [] + [whole] == [whole];
    }
  }

  /** Reporting a position in lots instead of one row changes nothing, on either side. */
  lemma LotInsensitive(a: seq<PositionRow>, whole: PositionRow, parts: seq<PositionRow>, c: seq<PositionRow>,
                       other: seq<PositionRow>, ledger: bool, x: seq<PositionBreak>, y: seq<PositionBreak>)
    requires LotsOf(whole, parts, ledger)
    requires ledger ==> IsReport(other, a + [whole] + c, x) && IsReport(other, a + parts + c, y)
    requires !ledger ==> IsReport(a + [whole] + c, other, x) && IsReport(a + parts + c, other, y)
    ensures x == y
  {
    forall k ensures Held(a + parts + c, ledger, k) == Held(a + [whole] + c, ledger, k) {
      SplitHeld(a, whole, parts, c, ledger, k);
    }
    if ledger {
      ReportUnique(other, a + [whole] + c, other, a + parts + c, x, y);
    } else {
      ReportUnique(a + [whole] + c, other, a + parts + c, other, x, y);
    }
  }
}
