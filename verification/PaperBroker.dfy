// The average-cost fill simulator (libs/brokers/src/brokers/paper_broker.py).
//
// `Fill` states what one fill does to a ledger in terms of a signed trade; the
// class follows the program's buy and sell branches and is proved to do that.
module PaperLedger {
  import opened Common
  import opened Sums
  import Text

  datatype Position = Position(qty: real, averagePrice: real)

  datatype Order = Order(orderId: string, symbol: string, side: Side, qty: real, price: real, close: bool)

  datatype Ledger = Ledger(cash: real, realized: real, positions: map<string, Position>)

  function Held(l: Ledger, symbol: string): real {
    if symbol in l.positions then l.positions[symbol].qty else 0.0
  }

  function CostOf(p: Position): real { p.averagePrice * p.qty }

  /** Signed cost basis of everything held. */
  ghost function Basis(l: Ledger): real { MapSum(l.positions, CostOf) }

  predicate SameSign(a: real, b: real) { (a > 0.0 && b > 0.0) || (a < 0.0 && b < 0.0) }

  predicate Extends(p: Position, side: Side) { if side == Buy then p.qty > 0.0 else p.qty < 0.0 }

  /** Share-weighted average of what is held and what is added. */
  function Averaged(average: real, size: real, price: real, more: real): real
    requires size > 0.0 && more > 0.0
  {
    (average * size + price * more) / (size + more)
  }

  /** The position a fill leaves: extending averages the price, reducing keeps it,
      opening or flipping through flat restarts it. */
  function Traded(p: Position, side: Side, qty: real, price: real): Position
    requires qty > 0.0
  {
    var average :=
      if Extends(p, side) then Averaged(p.averagePrice, Abs(p.qty), price, qty)
      else if p.qty != 0.0 && qty <= Abs(p.qty) then p.averagePrice
      else price;
    Position(p.qty + Signed(side, qty), average)
  }

  /** What `qty` bought at one price and sold at another earn. */
  function Profit(sold: real, bought: real, qty: real): real { (sold - bought) * qty }

  /** What the part of the fill that offsets the position earns. */
  function Earned(p: Position, side: Side, qty: real, price: real): real {
    if p.qty == 0.0 || Extends(p, side) then 0.0
    else if p.qty > 0.0 then Profit(price, p.averagePrice, Min(qty, Abs(p.qty)))
    else Profit(p.averagePrice, price, Min(qty, Abs(p.qty)))
  }

  function PositionOf(l: Ledger, symbol: string): Position {
    if symbol in l.positions then l.positions[symbol] else Position(0.0, 0.0)
  }

  /** One fill of a ledger. */
  function Fill(l: Ledger, symbol: string, side: Side, qty: real, price: real): Ledger
    requires qty > 0.0
  {
    var before := PositionOf(l, symbol);
    var after := Traded(before, side, qty, price);
    Ledger(l.cash - Signed(side, price * qty),
           l.realized + Earned(before, side, qty, price),
           if after.qty == 0.0 then l.positions - {symbol} else l.positions[symbol := after])
  }

  function FillOrder(l: Ledger, o: Order): Ledger
    requires o.qty > 0.0
  {
    Fill(l, o.symbol, o.side, o.qty, o.price)
  }

  ghost predicate Sized(orders: seq<Order>) { forall i :: 0 <= i < |orders| ==> orders[i].qty > 0.0 }

  /** The ledger a clean broker reaches by filling `orders` in turn. */
  ghost function Replay(start: real, orders: seq<Order>): Ledger
    requires Sized(orders)
  {
    if orders == [] then Ledger(start, 0.0, map[])
    else FillOrder(Replay(start, orders[..|orders| - 1]), orders[|orders| - 1])
  }

  ghost predicate NoZeroPositions(l: Ledger) { forall k :: k in l.positions ==> l.positions[k].qty != 0.0 }

  // ------------------------------------------------------------------
  // The accounting identity
  // ------------------------------------------------------------------

  lemma AveragedCost(average: real, size: real, price: real, more: real)
    requires size > 0.0 && more > 0.0
    ensures Averaged(average, size, price, more) * (size + more) == average * size + price * more
  {
    var total, whole := average * size + price * more, size + more;
    assert total / whole * whole == total;
  }

  lemma ExtendIdentity(p: Position, side: Side, qty: real, price: real)
    requires qty > 0.0 && Extends(p, side)
    ensures CostOf(Traded(p, side, qty, price)) == CostOf(p) + Signed(side, price * qty)
  {
    var size := Abs(p.qty);
    var average := Averaged(p.averagePrice, size, price, qty);
    AveragedCost(p.averagePrice, size, price, qty);
    if side == Buy {
      assert p.qty == size;
    } else {
      assert p.qty == -size;
      NegateProduct(average, size + qty);
      NegateProduct(p.averagePrice, size);
    }
  }

  lemma NegateProduct(a: real, b: real)
    ensures a * -b == -(a * b)
  {
  }

  lemma ReduceIdentity(p: Position, side: Side, qty: real, price: real)
    requires 0.0 < qty <= Abs(p.qty) && p.qty != 0.0 && !Extends(p, side)
    ensures CostOf(Traded(p, side, qty, price)) == CostOf(p) + Signed(side, price * qty) + Earned(p, side, qty, price)
  {
    var a := p.averagePrice;
    assert (a - price) * qty == a * qty - price * qty;
    assert (price - a) * qty == price * qty - a * qty;
    assert a * (p.qty + qty) == a * p.qty + a * qty;
    assert a * (p.qty - qty) == a * p.qty - a * qty;
  }

  lemma FlipIdentity(p: Position, side: Side, qty: real, price: real)
    requires Abs(p.qty) < qty && p.qty != 0.0 && !Extends(p, side)
    ensures CostOf(Traded(p, side, qty, price)) == CostOf(p) + Signed(side, price * qty) + Earned(p, side, qty, price)
  {
    var a, size := p.averagePrice, Abs(p.qty);
    assert (a - price) * size == a * size - price * size;
    assert (price - a) * size == price * size - a * size;
    assert price * (p.qty + qty) == price * p.qty + price * qty;
    assert price * (p.qty - qty) == price * p.qty - price * qty;
    if p.qty < 0.0 {
      NegateProduct(a, size);
      NegateProduct(price, size);
    }
  }

  /** The basis a fill adds is its cost plus what it earned. */
  lemma TradeIdentity(p: Position, side: Side, qty: real, price: real)
    requires qty > 0.0
    ensures CostOf(Traded(p, side, qty, price))
            == (if p.qty == 0.0 then 0.0 else CostOf(p)) + Signed(side, price * qty) + Earned(p, side, qty, price)
  {
    if p.qty == 0.0 {
      NegateProduct(price, qty);
    } else if Extends(p, side) {
      ExtendIdentity(p, side, qty, price);
    } else if qty <= Abs(p.qty) {
      ReduceIdentity(p, side, qty, price);
    } else {
      FlipIdentity(p, side, qty, price);
    }
  }

  /** Cash plus cost basis less realised P&L is the same after every fill. */
  lemma FillIdentity(l: Ledger, symbol: string, side: Side, qty: real, price: real)
    requires qty > 0.0 && NoZeroPositions(l)
    ensures var n := Fill(l, symbol, side, qty, price);
            n.cash + Basis(n) - n.realized == l.cash + Basis(l) - l.realized
  {
    TradeIdentity(PositionOf(l, symbol), side, qty, price);
    FillBasis(l, symbol, Traded(PositionOf(l, symbol), side, qty, price));
  }

  lemma FillBasis(l: Ledger, symbol: string, after: Position)
    ensures MapSum(if after.qty == 0.0 then l.positions - {symbol} else l.positions[symbol := after], CostOf)
            == MapSum(l.positions, CostOf) - (if symbol in l.positions then CostOf(l.positions[symbol]) else 0.0) + CostOf(after)
  {
    if after.qty != 0.0 {
      MapSumSet(l.positions, CostOf, symbol, after);
    } else if symbol in l.positions {
      MapSumDrop(l.positions, CostOf, symbol);
    } else {
      assert l.positions - {symbol} == l.positions;
    }
  }

  lemma SizedPrefix(orders: seq<Order>)
    requires Sized(orders) && orders != []
    ensures Sized(orders[..|orders| - 1]) && orders[|orders| - 1].qty > 0.0
  {
  }

  /** Over every history of fills on any symbols: cash plus the cost of what is held is
      the starting cash plus realised P&L, and no flat position is kept. */
  lemma {:induction false} LedgerIdentity(start: real, orders: seq<Order>)
    requires Sized(orders)
    ensures var l := Replay(start, orders);
            && l.cash + Basis(l) == start + l.realized
            && NoZeroPositions(l)
  {
    if orders == [] {
    } else {
      SizedPrefix(orders);
      LedgerIdentity(start, orders[..|orders| - 1]);
      var o := orders[|orders| - 1];
      FillIdentity(Replay(start, orders[..|orders| - 1]), o.symbol, o.side, o.qty, o.price);
    }
  }

  function SignedFor(symbol: string): Order -> real {
    (o: Order) => if o.symbol == symbol then Signed(o.side, o.qty) else 0.0
  }

  function OrderCash(o: Order): real { -Signed(o.side, o.price * o.qty) }

  /** Cash after a history of fills. */
  function CashAfter(start: real, orders: seq<Order>): real { start + SumSeq(orders, OrderCash) }

  lemma FillMoves(l: Ledger, o: Order, symbol: string)
    requires o.qty > 0.0
    ensures Held(FillOrder(l, o), symbol) == Held(l, symbol) + SignedFor(symbol)(o)
    ensures FillOrder(l, o).cash == l.cash + OrderCash(o)
  {
    var after := Traded(PositionOf(l, o.symbol), o.side, o.qty, o.price);
    assert after.qty == Held(l, o.symbol) + Signed(o.side, o.qty);
  }

  /** A position is the net of its symbol's fills; cash is the start plus what fills moved. */
  lemma {:induction false} ReplayTotals(start: real, orders: seq<Order>, symbol: string)
    requires Sized(orders)
    ensures Held(Replay(start, orders), symbol) == SumSeq(orders, SignedFor(symbol))
    ensures Replay(start, orders).cash == CashAfter(start, orders)
  {
    if orders != [] {
      SizedPrefix(orders);
      ReplayTotals(start, orders[..|orders| - 1], symbol);
      FillMoves(Replay(start, orders[..|orders| - 1]), orders[|orders| - 1], symbol);
    }
  }

  // ------------------------------------------------------------------
  // The average price
  // ------------------------------------------------------------------
  lemma AveragedWithin(average: real, size: real, price: real, more: real, lo: real, hi: real)
    requires size > 0.0 && more > 0.0 && lo <= average <= hi && lo <= price <= hi
    ensures lo <= Averaged(average, size, price, more) <= hi
  {
    AveragedCost(average, size, price, more);
    var a, whole := Averaged(average, size, price, more), size + more;
    assert (average - lo) * size >= 0.0 && (price - lo) * more >= 0.0;
    assert (hi - average) * size >= 0.0 && (hi - price) * more >= 0.0;
    assert (a - lo) * whole == (average - lo) * size + (price - lo) * more;
    assert (hi - a) * whole == (hi - average) * size + (hi - price) * more;
    SignOfFactor(a - lo, whole);
    SignOfFactor(hi - a, whole);
  }

  lemma SignOfFactor(x: real, y: real)
    requires y > 0.0 && x * y >= 0.0
    ensures x >= 0.0
  {
  }

  lemma TradedWithin(p: Position, side: Side, qty: real, price: real, lo: real, hi: real)
    requires qty > 0.0 && lo <= price <= hi && (p.qty != 0.0 ==> lo <= p.averagePrice <= hi)
    ensures lo <= Traded(p, side, qty, price).averagePrice <= hi
  {
    if Extends(p, side) {
      AveragedWithin(p.averagePrice, Abs(p.qty), price, qty, lo, hi);
    }
  }

  ghost predicate FilledWithin(orders: seq<Order>, symbol: string, lo: real, hi: real) {
    forall i :: 0 <= i < |orders| && orders[i].symbol == symbol ==> lo <= orders[i].price <= hi
  }

  /** Over every history, a position's average price lies within any bounds of its symbol's fill
      prices: between the cheapest and the dearest of them. */
  lemma {:induction false} AverageWithinFills(start: real, orders: seq<Order>, symbol: string, lo: real, hi: real)
    requires Sized(orders) && FilledWithin(orders, symbol, lo, hi)
    ensures var l := Replay(start, orders);
            symbol in l.positions ==> lo <= l.positions[symbol].averagePrice <= hi
  {
    if orders != [] {
      SizedPrefix(orders);
      var o, before := orders[|orders| - 1], Replay(start, orders[..|orders| - 1]);
      AverageWithinFills(start, orders[..|orders| - 1], symbol, lo, hi);
      LedgerIdentity(start, orders[..|orders| - 1]);
      if o.symbol == symbol {
        TradedWithin(PositionOf(before, symbol), o.side, o.qty, o.price, lo, hi);
      }
    }
  }

  // ------------------------------------------------------------------
  // Equity
  // ------------------------------------------------------------------

  /** `get_positions` marks a position at its market price, or at cost when there is none. */
  function Mark(marks: map<string, real>, symbol: string, p: Position): real {
    if symbol in marks && marks[symbol] != 0.0 then marks[symbol] else p.averagePrice
  }

  function ValueTerms(l: Ledger, marks: map<string, real>): string -> real {
    (k: string) => if k in l.positions then Mark(marks, k, l.positions[k]) * l.positions[k].qty else 0.0
  }

  function UnrealizedTerms(l: Ledger, marks: map<string, real>): string -> real {
    (k: string) => if k in l.positions
                   then (Mark(marks, k, l.positions[k]) - l.positions[k].averagePrice) * l.positions[k].qty else 0.0
  }

  lemma MarkIs(marks: map<string, real>, symbol: string, p: Position)
    ensures symbol in marks && marks[symbol] != 0.0 ==> Mark(marks, symbol, p) == marks[symbol]
    ensures symbol !in marks || marks[symbol] == 0.0 ==> Mark(marks, symbol, p) == p.averagePrice
  {
  }

  /** `get_account`'s equity. */
  ghost function Equity(l: Ledger, marks: map<string, real>): real {
    l.cash + SumOver(l.positions.Keys, ValueTerms(l, marks))
  }

  lemma {:induction false} SumSplit(keys: set<string>, f: string -> real, g: string -> real, h: string -> real)
    requires forall k :: k in keys ==> f(k) == g(k) + h(k)
    ensures SumOver(keys, f) == SumOver(keys, g) + SumOver(keys, h)
    decreases keys
  {
    if keys != {} {
      var k :| k in keys;
      SumRemove(keys, f, k);
      SumRemove(keys, g, k);
      SumRemove(keys, h, k);
      SumSplit(keys - {k}, f, g, h);
    }
  }

  lemma ValueSplit(l: Ledger, marks: map<string, real>, k: string)
    ensures ValueTerms(l, marks)(k) == MapTerms(l.positions, CostOf)(k) + UnrealizedTerms(l, marks)(k)
  {
    if k in l.positions {
      var p := l.positions[k];
      var mark := Mark(marks, k, p);
      assert ValueTerms(l, marks)(k) == mark * p.qty;
      assert UnrealizedTerms(l, marks)(k) == (mark - p.averagePrice) * p.qty;
      assert MapTerms(l.positions, CostOf)(k) == CostOf(p) == p.averagePrice * p.qty;
    }
  }

  /** Reported equity is starting cash plus realised plus unrealised P&L, whatever the marks. */
  lemma EquityIdentity(start: real, orders: seq<Order>, marks: map<string, real>)
    requires Sized(orders)
    ensures var l := Replay(start, orders);
            Equity(l, marks) == start + l.realized + SumOver(l.positions.Keys, UnrealizedTerms(l, marks))
  {
    var l := Replay(start, orders);
    LedgerIdentity(start, orders);
    forall k | k in l.positions.Keys
      ensures ValueTerms(l, marks)(k) == MapTerms(l.positions, CostOf)(k) + UnrealizedTerms(l, marks)(k)
    {
      ValueSplit(l, marks, k);
    }
    SumSplit(l.positions.Keys, ValueTerms(l, marks), MapTerms(l.positions, CostOf), UnrealizedTerms(l, marks));
  }

  // ------------------------------------------------------------------
  // Cash
  // ------------------------------------------------------------------

  /** Money a fill is worth. */
  function Notional(price: real, qty: real): real { price * qty }

  /** Every opening buy was affordable when it was placed. */
  ghost predicate Funded(start: real, orders: seq<Order>) {
    forall i :: 0 <= i < |orders| && orders[i].side == Buy && !orders[i].close ==>
      Notional(orders[i].price, orders[i].qty) <= CashAfter(start, orders[..i])
  }

  ghost predicate Priced(orders: seq<Order>) { forall i :: 0 <= i < |orders| ==> orders[i].price > 0.0 }

  lemma CashStep(start: real, orders: seq<Order>, o: Order)
    ensures CashAfter(start, orders + [o]) == CashAfter(start, orders) + OrderCash(o)
  {
    SumSeqAppend(orders, o, OrderCash);
  }

  lemma Affordable(cash: real, o: Order)
    requires cash >= 0.0 && o.qty > 0.0 && o.price > 0.0
    requires o.side == Buy ==> Notional(o.price, o.qty) <= cash
    ensures cash + OrderCash(o) >= 0.0
  {
    assert o.price * o.qty > 0.0;
  }

  lemma {:induction false} FundedCash(start: real, orders: seq<Order>)
    requires start >= 0.0 && Sized(orders) && Priced(orders) && Funded(start, orders)
    requires forall i :: 0 <= i < |orders| && orders[i].close ==> orders[i].side == Sell
    ensures CashAfter(start, orders) >= 0.0
  {
    if orders != [] {
      var n := |orders| - 1;
      var o := orders[n];
      assert forall i :: 0 <= i < n ==> orders[..n][..i] == orders[..i];
      FundedCash(start, orders[..n]);
      assert orders == orders[..n] + [o];
      CashStep(start, orders[..n], o);
      Affordable(CashAfter(start, orders[..n]), o);
    }
  }

  /** Runs of `place_order` alone never overdraw the account. */
  lemma CashStaysPositive(start: real, orders: seq<Order>)
    requires start >= 0.0 && Sized(orders) && Priced(orders) && Funded(start, orders)
    requires forall i :: 0 <= i < |orders| && orders[i].close ==> orders[i].side == Sell
    ensures Replay(start, orders).cash >= 0.0
  {
    FundedCash(start, orders);
    ReplayTotals(start, orders, "");
  }

  /** Every closing buy cost no more than the cash held when it was made. */
  ghost predicate CoveredCloses(start: real, orders: seq<Order>) {
    forall i :: 0 <= i < |orders| && orders[i].side == Buy && orders[i].close ==>
      Notional(orders[i].price, orders[i].qty) <= CashAfter(start, orders[..i])
  }

  /** The account was never overdrawn, after any of its fills. */
  ghost predicate NeverOverdrawn(start: real, orders: seq<Order>)
    requires Sized(orders)
  {
    forall n :: 0 <= n <= |orders| ==> Replay(start, orders[..n]).cash >= 0.0
  }

  lemma CashAt(start: real, orders: seq<Order>, n: nat)
    requires Sized(orders) && n <= |orders|
    ensures Sized(orders[..n]) && Replay(start, orders[..n]).cash == CashAfter(start, orders[..n])
    ensures n < |orders| ==> CashAfter(start, orders[..n + 1]) == CashAfter(start, orders[..n]) + OrderCash(orders[n])
  {
    ReplayTotals(start, orders[..n], "");
    if n < |orders| {
      assert orders[..n + 1] == orders[..n] + [orders[n]];
      CashStep(start, orders[..n], orders[n]);
    }
  }

  lemma {:induction false} CoveredStaysSolvent(start: real, orders: seq<Order>, n: nat)
    requires start >= 0.0 && Sized(orders) && Priced(orders) && Funded(start, orders) && CoveredCloses(start, orders)
    requires n <= |orders|
    ensures CashAfter(start, orders[..n]) >= 0.0
  {
    if n == 0 {
      assert orders[..0] == [];
    } else {
      CoveredStaysSolvent(start, orders, n - 1);
      CashAt(start, orders, n - 1);
      Affordable(CashAfter(start, orders[..n - 1]), orders[n - 1]);
    }
  }

  lemma CoveredBy(start: real, orders: seq<Order>, i: nat)
    requires i < |orders| && orders[i].side == Buy && CashAfter(start, orders[..i + 1]) >= 0.0
    ensures Notional(orders[i].price, orders[i].qty) <= CashAfter(start, orders[..i])
  {
    assert orders[..i + 1] == orders[..i] + [orders[i]];
    CashStep(start, orders[..i], orders[i]);
  }

  lemma SolventIsCovered(start: real, orders: seq<Order>, i: nat)
    requires Sized(orders) && NeverOverdrawn(start, orders) && i < |orders| && orders[i].side == Buy
    ensures Notional(orders[i].price, orders[i].qty) <= CashAfter(start, orders[..i])
  {
    var n := i + 1;
    assert Replay(start, orders[..n]).cash >= 0.0;
    CashAt(start, orders, n);
    CoveredBy(start, orders, i);
  }

  /** Over whole histories whose opening buys were affordable: the account is never overdrawn exactly when
      every closing buy was covered by the cash held when it was made. */
  lemma NeverOverdrawnIff(start: real, orders: seq<Order>)
    requires start >= 0.0 && Sized(orders) && Priced(orders) && Funded(start, orders)
    ensures NeverOverdrawn(start, orders) <==> CoveredCloses(start, orders)
  {
    if CoveredCloses(start, orders) {
      forall n | 0 <= n <= |orders| ensures Replay(start, orders[..n]).cash >= 0.0 {
        CoveredStaysSolvent(start, orders, n);
        CashAt(start, orders, n);
      }
    }
    if NeverOverdrawn(start, orders) {
      forall i | 0 <= i < |orders| && orders[i].side == Buy && orders[i].close
        ensures Notional(orders[i].price, orders[i].qty) <= CashAfter(start, orders[..i])
      {
        SolventIsCovered(start, orders, i);
      }
    }
  }

  /** A closing buy is not checked against cash: it keeps a solvent account solvent
      exactly when it could have been afforded. */
  lemma CloseKeepsCashIff(l: Ledger, symbol: string, side: Side, qty: real, price: real)
    requires qty > 0.0 && price > 0.0 && l.cash >= 0.0
    ensures Fill(l, symbol, side, qty, price).cash >= 0.0 <==> side == Sell || price * qty <= l.cash
  {
    assert price * qty > 0.0;
  }

  lemma FundedStep(start: real, orders: seq<Order>, o: Order)
    requires Funded(start, orders)
    requires o.side == Buy && !o.close ==> Notional(o.price, o.qty) <= CashAfter(start, orders)
    ensures Funded(start, orders + [o])
  {
    var all := orders + [o];
    assert all[..|orders|] == orders;
    forall i | 0 <= i < |all| && all[i].side == Buy && !all[i].close
      ensures Notional(all[i].price, all[i].qty) <= CashAfter(start, all[..i])
    {
      if i < |orders| { assert all[..i] == orders[..i]; }
    }
  }

  /** A ledger together with the funded, upper-case history of fills that produced it. */
  ghost predicate History(start: real, orders: seq<Order>, l: Ledger) {
    && Sized(orders) && l == Replay(start, orders)
    && Funded(start, orders)
    && UpperCase(orders)
  }

  /** Symbols are stored upper-case, which is what makes them keys. */
  ghost predicate UpperCase(orders: seq<Order>) {
    forall i :: 0 <= i < |orders| ==> orders[i].symbol == Text.Upper(orders[i].symbol)
  }

  /** Filling and recording one more order extends the history. */
  lemma RecordOrder(start: real, orders: seq<Order>, l: Ledger, o: Order)
    requires History(start, orders, l) && o.qty > 0.0 && o.symbol == Text.Upper(o.symbol)
    requires o.side == Buy && !o.close ==> Notional(o.price, o.qty) <= l.cash
    ensures History(start, orders + [o], FillOrder(l, o))
  {
    ReplayTotals(start, orders, "");
    FundedStep(start, orders, o);
    assert (orders + [o])[..|orders|] == orders;
  }

  function OverdrawingOrders(): seq<Order> {
    [Order("a", "X", Sell, 1.0, 100.0, false), Order("b", "Y", Buy, 2.0, 100.0, false),
     Order("c", "X", Buy, 1.0, 500.0, true)]
  }

  lemma OverdrawingCash()
    ensures var orders := OverdrawingOrders();
            && CashAfter(100.0, orders[..1]) == 200.0
            && CashAfter(100.0, orders) == -500.0
  {
    var orders := OverdrawingOrders();
    var a, b, c := orders[0], orders[1], orders[2];
    assert CashAfter(100.0, [a]) == 100.0 + OrderCash(a) by { assert [] + [a] == [a]; CashStep(100.0, [], a); }
    assert CashAfter(100.0, [a, b]) == CashAfter(100.0, [a]) + OrderCash(b) by { assert [a] + [b] == [a, b]; CashStep(100.0, [a], b); }
    assert CashAfter(100.0, orders) == CashAfter(100.0, [a, b]) + OrderCash(c) by { assert [a, b] + [c] == orders; CashStep(100.0, [a, b], c); }
    assert OrderCash(a) == 100.0 && OrderCash(b) == -200.0 && OrderCash(c) == -500.0;
    assert orders[..1] == [a];
  }

  /** Short one share at 100, spend the proceeds, and buy back at 500: every opening order
      was affordable and the account is overdrawn. */
  lemma UncappedBuyBackOverdraws()
    ensures var orders := OverdrawingOrders();
            Sized(orders) && Priced(orders) && Funded(100.0, orders) && Replay(100.0, orders).cash < 0.0
  {
    OverdrawingCash();
    ReplayTotals(100.0, OverdrawingOrders(), "");
  }
}

module PaperBrokers {
  import opened Common
  import opened PaperLedger
  import Text

  datatype BrokerResult =
    | Accepted(orderId: string, fillPrice: real)
    | Cancelled
    | Rejected(reason: string)

  predicate Supported(side: string) { Text.Upper(side) == "BUY" || Text.Upper(side) == "SELL" }

  function ParseSide(side: string): Side
    requires Supported(side)
  {
    if Text.Upper(side) == "BUY" then Buy else Sell
  }

  /** A price moved against the trader. */
  function Slipped(price: real, side: Side, rate: real): real { price + Signed(side, price * rate) }

  /** The market's price, slipped; None without a positive one. */
  function FillPrice(mark: Option<real>, side: Side, slippageBps: real): Option<real> {
    if mark.None? || mark.value <= 0.0 then None
    else Some(Slipped(mark.value, side, slippageBps / 10000.0))
  }

  /** What a limit order fills at against the slipped price, or None when it misses. */
  function LimitPrice(limit: Option<real>, price: real, side: Side): Option<real> {
    if limit.None? || limit.value == 0.0 then Some(price)
    else if side == Buy then if price <= limit.value then Some(Min(price, limit.value)) else None
    else if price >= limit.value then Some(Max(price, limit.value)) else None
  }

  /** The price an order fills at: slipped market price, subject to the limit. */
  function Quote(mark: Option<real>, limit: Option<real>, side: Side, slippageBps: real): Option<real> {
    var market := FillPrice(mark, side, slippageBps);
    if market.None? then None else LimitPrice(limit, market.value, side)
  }

  /** What an order fills at, spelled out.  The market must have a positive price; a buy pays it plus slippage,
      a sell gets it less slippage; and a limit other than zero must not be passed. */
  lemma QuoteIs(mark: Option<real>, limit: Option<real>, side: Side, slippageBps: real)
    ensures var slip := if mark.Some? then mark.value * (slippageBps / 10000.0) else 0.0;
            Quote(mark, limit, side, slippageBps) ==
              if mark.None? || mark.value <= 0.0 then None
              else if side == Buy then
                if limit.Some? && limit.value != 0.0 && limit.value < mark.value + slip then None else Some(mark.value + slip)
              else
                if limit.Some? && limit.value != 0.0 && limit.value > mark.value - slip then None else Some(mark.value - slip)
  {
  }

  /** A limit caps the price: a fill is never worse than the limit and never worse than the market. */
  lemma LimitProtects(limit: real, price: real, side: Side)
    requires limit != 0.0
    ensures LimitPrice(Some(limit), price, side).Some? <==>
              if side == Buy then price <= limit else limit <= price
    ensures LimitPrice(Some(limit), price, side).Some? ==> LimitPrice(Some(limit), price, side).value == price
  {
  }

  lemma ExtendedAverage(p: Position, side: Side, qty: real, price: real)
    requires qty > 0.0 && Extends(p, side)
    ensures side == Buy ==>
              Averaged(p.averagePrice, Abs(p.qty), price, qty) == (p.averagePrice * p.qty + price * qty) / (p.qty + qty)
    ensures side == Sell ==>
              Averaged(p.averagePrice, Abs(p.qty), price, qty)
                == (p.averagePrice * Abs(p.qty) + price * qty) / Abs(p.qty - qty)
  {
    if side == Buy {
      assert Abs(p.qty) == p.qty;
    } else {
      assert Abs(p.qty - qty) == Abs(p.qty) + qty;
    }
  }

  /** A buy, case by case as the program writes it. */
  lemma BuyIs(p: Position, qty: real, price: real)
    requires qty > 0.0
    ensures p.qty == 0.0 ==> Traded(p, Buy, qty, price) == Position(qty, price)
    ensures p.qty > 0.0 ==>
              Traded(p, Buy, qty, price) == Position(p.qty + qty, (p.averagePrice * p.qty + price * qty) / (p.qty + qty))
    ensures p.qty < 0.0 ==>
              Traded(p, Buy, qty, price) == Position(p.qty + qty, if p.qty + qty > 0.0 then price else p.averagePrice)
    ensures Earned(p, Buy, qty, price)
            == if p.qty < 0.0 then Profit(p.averagePrice, price, Min(qty, Abs(p.qty))) else 0.0
  {
    if p.qty > 0.0 { ExtendedAverage(p, Buy, qty, price); }
  }

  lemma SellIs(p: Position, qty: real, price: real)
    requires qty > 0.0
    ensures p.qty == 0.0 ==> Traded(p, Sell, qty, price) == Position(-qty, price)
    ensures p.qty > 0.0 ==>
              Traded(p, Sell, qty, price) == Position(p.qty - qty, if p.qty - qty < 0.0 then price else p.averagePrice)
    ensures p.qty < 0.0 ==>
              Traded(p, Sell, qty, price)
                == Position(p.qty - qty, (p.averagePrice * Abs(p.qty) + price * qty) / Abs(p.qty - qty))
    ensures Earned(p, Sell, qty, price)
            == if p.qty > 0.0 then Profit(price, p.averagePrice, Min(qty, p.qty)) else 0.0
  {
    if p.qty < 0.0 { ExtendedAverage(p, Sell, qty, price); } else { assert Abs(p.qty) == p.qty; }
  }

  lemma SlippedBounds(price: real, side: Side, rate: real)
    requires price > 0.0 && 0.0 <= rate < 1.0
    ensures Slipped(price, side, rate) > 0.0
    ensures if side == Buy then Slipped(price, side, rate) >= price else Slipped(price, side, rate) <= price
  {
    assert price * (1.0 - rate) > 0.0;
    assert price * rate >= 0.0;
  }

  /** Slippage below 100% works against the trader and keeps every fill price positive. */
  lemma SlippageKeepsPricesPositive(mark: Option<real>, side: Side, slippageBps: real)
    requires 0.0 <= slippageBps < 10000.0
    ensures var p := FillPrice(mark, side, slippageBps);
            p.Some? ==> p.value > 0.0 && if side == Buy then p.value >= mark.value else p.value <= mark.value
  {
    if mark.Some? && mark.value > 0.0 {
      SlippedBounds(mark.value, side, slippageBps / 10000.0);
    }
  }

  /** Which held symbol a close refers to: the given symbol, the id read as a symbol, or the
      symbol of the latest order with that id; otherwise whatever symbol was given. */
  ghost function Resolved(held: set<string>, orders: seq<Order>, positionId: string, symbol: Option<string>)
    : Option<string>
  {
    var named := symbol.Some? && symbol.value != "";
    if named && Text.Upper(symbol.value) in held then Some(Text.Upper(symbol.value))
    else if Text.Upper(positionId) in held then Some(Text.Upper(positionId))
    else if LatestHeld(held, orders, Text.Upper(positionId)).Some? then LatestHeld(held, orders, Text.Upper(positionId))
    else if named then Some(Text.Upper(symbol.value)) else None
  }

  ghost function LatestHeld(held: set<string>, orders: seq<Order>, candidate: string): Option<string> {
    if orders == [] then None
    else
      var o := orders[|orders| - 1];
      if Text.Upper(o.orderId) == candidate && Text.Upper(o.symbol) in held then Some(Text.Upper(o.symbol))
      else LatestHeld(held, orders[..|orders| - 1], candidate)
  }

  /** The order id leads to the symbol of the latest order with that id whose symbol is held. */
  lemma {:induction false} LatestHeldIs(held: set<string>, orders: seq<Order>, candidate: string, i: int)
    requires 0 <= i < |orders| && Text.Upper(orders[i].orderId) == candidate && Text.Upper(orders[i].symbol) in held
    requires forall j :: i < j < |orders| ==>
               !(Text.Upper(orders[j].orderId) == candidate && Text.Upper(orders[j].symbol) in held)
    ensures LatestHeld(held, orders, candidate) == Some(Text.Upper(orders[i].symbol))
  {
    if i < |orders| - 1 {
      LatestHeldIs(held, orders[..|orders| - 1], candidate, i);
    }
  }

  lemma {:induction false} NoneHeldIs(held: set<string>, orders: seq<Order>, candidate: string)
    requires forall j :: 0 <= j < |orders| ==>
               !(Text.Upper(orders[j].orderId) == candidate && Text.Upper(orders[j].symbol) in held)
    ensures LatestHeld(held, orders, candidate) == None
  {
    if orders != [] {
      NoneHeldIs(held, orders[..|orders| - 1], candidate);
    }
  }

  /** A symbol that is given and held wins, then the id read as a held symbol. */
  lemma ResolvedIs(held: set<string>, orders: seq<Order>, positionId: string, symbol: Option<string>)
    ensures symbol.Some? && symbol.value != "" && Text.Upper(symbol.value) in held ==>
              Resolved(held, orders, positionId, symbol) == Some(Text.Upper(symbol.value))
    ensures !(symbol.Some? && symbol.value != "" && Text.Upper(symbol.value) in held) && Text.Upper(positionId) in held ==>
              Resolved(held, orders, positionId, symbol) == Some(Text.Upper(positionId))
    ensures !(symbol.Some? && symbol.value != "" && Text.Upper(symbol.value) in held) && Text.Upper(positionId) !in held ==>
              Resolved(held, orders, positionId, symbol) ==
                if LatestHeld(held, orders, Text.Upper(positionId)).Some? then LatestHeld(held, orders, Text.Upper(positionId))
                else if symbol.Some? && symbol.value != "" then Some(Text.Upper(symbol.value)) else None
  {
  }

  lemma {:induction false} ResolvedUpper(held: set<string>, orders: seq<Order>, positionId: string, symbol: Option<string>)
    ensures var r := Resolved(held, orders, positionId, symbol); r.Some? ==> r.value == Text.Upper(r.value)
  {
    Text.UpperIdempotent(positionId);
    if symbol.Some? { Text.UpperIdempotent(symbol.value); }
    LatestUpper(held, orders, Text.Upper(positionId));
  }

  lemma {:induction false} LatestUpper(held: set<string>, orders: seq<Order>, candidate: string)
    ensures var r := LatestHeld(held, orders, candidate); r.Some? ==> r.value == Text.Upper(r.value)
  {
    if orders != [] {
      Text.UpperIdempotent(orders[|orders| - 1].symbol);
      LatestUpper(held, orders[..|orders| - 1], candidate);
    }
  }

  /** What a closing order does to holdings: towards zero by its quantity, never past it, and only there. */
  ghost predicate Reduces(before: Ledger, after: Ledger, o: Order) {
    var held, left := Held(before, o.symbol), Held(after, o.symbol);
    && left == (if held > 0.0 then held - o.qty else held + o.qty)
    && Abs(left) < Abs(held) && (left == 0.0 || SameSign(left, held))
    && (forall k :: k != o.symbol ==> Held(after, k) == Held(before, k))
  }

  lemma CloseReduces(l: Ledger, o: Order)
    requires 0.0 < o.qty <= Abs(Held(l, o.symbol))
    requires o.side == if Held(l, o.symbol) > 0.0 then Sell else Buy
    ensures Reduces(l, FillOrder(l, o), o)
  {
    forall k ensures Held(FillOrder(l, o), k) == Held(l, k) + SignedFor(k)(o) {
      FillMoves(l, o, k);
    }
  }

  /** Something is held and the market can be priced. */
  predicate Closable(held: real, mark: Option<real>) { held != 0.0 && mark.Some? && mark.value > 0.0 }

  class PaperBroker {
    const maxQty: int
    const startingCash: real
    const slippageBps: real
    var cash: real
    var realizedPnl: real
    var positions: map<string, Position>
    var orders: seq<Order>

    ghost function State(): Ledger
      reads this
    {
      Ledger(cash, realizedPnl, positions)
    }

    /** The ledger is exactly the replay of the recorded orders, each opening buy funded. */
    ghost predicate Valid()
      reads this
    {
      && History(startingCash, orders, State())
      && (0.0 <= slippageBps < 10000.0 ==> Priced(orders))
    }

    constructor (maxQty: int, startingCash: real, slippageBps: real)
      ensures Valid() && orders == []
      ensures this.maxQty == maxQty && this.startingCash == startingCash && this.slippageBps == slippageBps
    {
      this.maxQty, this.startingCash, this.slippageBps := maxQty, startingCash, slippageBps;
      cash, realizedPnl, positions, orders := startingCash, 0.0, map[], [];
    }

    method ApplyBuy(symbol: string, qty: real, price: real)
      requires qty > 0.0
      modifies this`cash, this`realizedPnl, this`positions
      ensures State() == Fill(old(State()), symbol, Buy, qty, price)
    {
      var position := if symbol in positions then positions[symbol] else Position(0.0, 0.0);
      ghost var before, goal := State(), Fill(State(), symbol, Buy, qty, price);
      assert position == PositionOf(before, symbol);
      BuyIs(position, qty, price);
      if symbol !in positions || position.qty == 0.0 {
        positions := positions[symbol := Position(qty, price)];
      } else if position.qty > 0.0 {
        var totalCost := position.averagePrice * position.qty + price * qty;
        positions := positions[symbol := Position(position.qty + qty, totalCost / (position.qty + qty))];
      } else {
        // A short is bought back, and past flat it becomes a long.
        var covered := Min(qty, Abs(position.qty));
        realizedPnl := realizedPnl + Profit(position.averagePrice, price, covered);
        var left := position.qty + qty;
        if left > 0.0 {
          positions := positions[symbol := Position(left, price)];
        } else if left == 0.0 {
          positions := positions - {symbol};
        } else {
          positions := positions[symbol := Position(left, position.averagePrice)];
        }
      }
      assert realizedPnl == goal.realized;
      assert positions == goal.positions;
      cash := cash - price * qty;
    }

    method ApplySell(symbol: string, qty: real, price: real)
      requires qty > 0.0
      modifies this`cash, this`realizedPnl, this`positions
      ensures State() == Fill(old(State()), symbol, Sell, qty, price)
    {
      var position := if symbol in positions then positions[symbol] else Position(0.0, 0.0);
      ghost var before, goal := State(), Fill(State(), symbol, Sell, qty, price);
      assert position == PositionOf(before, symbol);
      SellIs(position, qty, price);
      if symbol !in positions || position.qty == 0.0 {
        positions := positions[symbol := Position(-qty, price)];
      } else if position.qty > 0.0 {
        var closed := Min(qty, position.qty);
        realizedPnl := realizedPnl + Profit(price, position.averagePrice, closed);
        var left := position.qty - qty;
        if left == 0.0 {
          positions := positions - {symbol};
        } else if left < 0.0 {
          positions := positions[symbol := Position(left, price)];
        } else {
          positions := positions[symbol := Position(left, position.averagePrice)];
        }
      } else {
        var total := position.averagePrice * Abs(position.qty) + price * qty;
        var left := position.qty - qty;
        positions := positions[symbol := Position(left, total / Abs(left))];
      }
      assert realizedPnl == goal.realized;
      assert positions == goal.positions;
      cash := cash + price * qty;
    }

    /** Fill and record.  The history grows by exactly this order and the ledger stays its replay. */
    method Execute(o: Order)
      requires Valid() && o.qty > 0.0 && o.symbol == Text.Upper(o.symbol)
      requires o.side == Buy && !o.close ==> Notional(o.price, o.qty) <= cash
      requires 0.0 <= slippageBps < 10000.0 ==> o.price > 0.0
      modifies this`cash, this`realizedPnl, this`positions, this`orders
      ensures Valid() && orders == old(orders) + [o]
      ensures State() == FillOrder(old(State()), o)
    {
      ghost var before := State();
      RecordOrder(startingCash, orders, before, o);
      if o.side == Buy {
        ApplyBuy(o.symbol, o.qty, o.price);
      } else {
        ApplySell(o.symbol, o.qty, o.price);
      }
      assert State() == FillOrder(before, o);
      orders := orders + [o];
    }

    /** `mark` is the market price the source returned, `limit` the limit price of a LIMIT order. */
    method PlaceOrder(symbol: string, side: string, qty: int, limit: Option<real>, mark: Option<real>, orderId: string)
      returns (r: BrokerResult)
      requires Valid() && qty > 0
      modifies this`cash, this`realizedPnl, this`positions, this`orders
      ensures Valid()
      ensures r.Accepted? <==>
                && Text.Upper(symbol) != "REJECT" && qty <= maxQty && Supported(side)
                && Quote(mark, limit, ParseSide(side), slippageBps).Some?
                && (ParseSide(side) == Buy ==>
                      Notional(Quote(mark, limit, Buy, slippageBps).value, qty as real) <= old(cash))
      ensures r.Accepted? ==>
                && Quote(mark, limit, ParseSide(side), slippageBps) == Some(r.fillPrice)
                && orders == old(orders) + [Order(orderId, Text.Upper(symbol), ParseSide(side), qty as real, r.fillPrice, false)]
      ensures !r.Accepted? ==> unchanged(this)
      ensures !r.Accepted? ==>
                r == if Text.Upper(symbol) == "REJECT" then Rejected("symbol_rejected")
                     else if qty > maxQty then Rejected("qty_limit_exceeded")
                     else if Text.Upper(side) != "BUY" && Text.Upper(side) != "SELL" then Rejected("unsupported_side")
                     else if mark.None? || mark.value <= 0.0 then Rejected("no_market_price")
                     else if Quote(mark, limit, if Text.Upper(side) == "BUY" then Buy else Sell, slippageBps).None? then Cancelled
                     else Rejected("insufficient_cash")
      ensures r.Accepted? ==>
                Text.Upper(side) == (if orders[|orders| - 1].side == Buy then "BUY" else "SELL")
    {
      var key := Text.Upper(symbol);
      if key == "REJECT" {
        return Rejected("symbol_rejected");
      }
      if qty > maxQty {
        return Rejected("qty_limit_exceeded");
      }
      if !Supported(side) {
        return Rejected("unsupported_side");
      }
      var direction := ParseSide(side);
      var market := FillPrice(mark, direction, slippageBps);
      if market.None? {
        return Rejected("no_market_price");
      }
      var filled := LimitPrice(limit, market.value, direction);
      if filled.None? {
        return Cancelled;
      }
      var price, size := filled.value, qty as real;
      if direction == Buy && Notional(price, size) > cash {
        return Rejected("insufficient_cash");
      }
      if 0.0 <= slippageBps < 10000.0 {
        SlippageKeepsPricesPositive(mark, direction, slippageBps);
      }
      Text.UpperIdempotent(symbol);
      Execute(Order(orderId, key, direction, size, price, false));
      r := Accepted(orderId, price);
    }

    method ResolveSymbol(positionId: string, symbol: Option<string>) returns (r: Option<string>)
      ensures r == Resolved(positions.Keys, orders, positionId, symbol)
    {
      if symbol.Some? && symbol.value != "" && Text.Upper(symbol.value) in positions {
        return Some(Text.Upper(symbol.value));
      }
      var candidate := Text.Upper(positionId);
      if candidate in positions {
        return Some(candidate);
      }
      var i := |orders|;
      assert orders[..i] == orders;
      while i > 0
        invariant 0 <= i <= |orders|
        invariant LatestHeld(positions.Keys, orders, candidate) == LatestHeld(positions.Keys, orders[..i], candidate)
      {
        i := i - 1;
        assert orders[..i + 1][..i] == orders[..i];
        if Text.Upper(orders[i].orderId) == candidate && Text.Upper(orders[i].symbol) in positions {
          return Some(Text.Upper(orders[i].symbol));
        }
      }
      return if symbol.Some? && symbol.value != "" then Some(Text.Upper(symbol.value)) else None;
    }

    /** A close takes the position towards zero by the requested units, never past it. */
    method ClosePosition(positionId: string, symbol: Option<string>, units: Option<real>, mark: Option<real>, orderId: string)
      returns (r: Option<Order>)
      requires Valid()
      modifies this`cash, this`realizedPnl, this`positions, this`orders
      ensures Valid()
      ensures r.None? ==> unchanged(this)
      ensures r.Some? <==>
                var key := Resolved(old(positions.Keys), old(orders), positionId, symbol);
                key.Some? && Closable(old(Held(State(), key.value)), mark)
      ensures r.Some? ==> FillPrice(mark, r.value.side, slippageBps) == Some(r.value.price)
      ensures r.Some? ==>
                var key := r.value.symbol;
                var held := old(Held(State(), key));
                && Resolved(old(positions.Keys), old(orders), positionId, symbol) == Some(key)
                && orders == old(orders) + [r.value] && r.value.close
                && r.value.qty == (if units.None? || units.value == 0.0 then Abs(held) else Min(Abs(units.value), Abs(held)))
                && Reduces(old(State()), State(), r.value)
    {
      var resolved := ResolveSymbol(positionId, symbol);
      if resolved.None? {
        return None;
      }
      var key := resolved.value;
      if key !in positions || positions[key].qty == 0.0 {
        return None;
      }
      var held := positions[key].qty;
      var qty := if units.None? || units.value == 0.0 then Abs(held) else Min(Abs(units.value), Abs(held));
      var side := if held > 0.0 then Sell else Buy;
      var price := FillPrice(mark, side, slippageBps);
      if price.None? {
        return None;
      }
      if 0.0 <= slippageBps < 10000.0 {
        SlippageKeepsPricesPositive(mark, side, slippageBps);
      }
      var o := Order(orderId, key, side, qty, price.value, true);
      CloseReduces(State(), o);
      ResolvedUpper(positions.Keys, orders, positionId, symbol);
      Execute(o);
      r := Some(o);
    }
  }
}
