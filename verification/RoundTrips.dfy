// FIFO pairing of fills into round trips
// (libs/attribution/src/attribution/roundtrips.py and models.py).
//
// A scope's fills are folded into a book of open lots and a list of closed
// trips.  `PairScope` is the nested loop of the program; `Pair` is the fold it
// computes; the lemmas say what that fold conserves.
module RoundTrips {
  import opened Common
  import opened Sums
  import opened SeqSums

  /** One fill.  `index` is its position among the scope's fills, which is what
      tells two otherwise equal fills apart. */
  datatype Leg = Leg(index: nat, side: Side, qty: real, price: real, at: int)
  {
    predicate Usable() { price > 0.0 }
  }

  datatype Lot = Lot(entry: Leg, available: real)

  datatype Trip = Trip(entry: Leg, exit: Leg, qty: real)
  {
    function Direction(): real { Sign(entry.side) }

    function RealizedPerShare(): Option<real> {
      if entry.Usable() && exit.Usable()
      then Some(Direction() * (exit.price - entry.price)) else None
    }

    function Realized(): Option<real> {
      if RealizedPerShare().None? then None else Some(RealizedPerShare().value * qty)
    }
  }

  datatype Book = Book(lots: seq<Lot>, direction: real, trips: seq<Trip>)

  const EMPTY_BOOK := Book([], 0.0, [])

  datatype Matching = Matching(trips: seq<Trip>, lots: seq<Lot>, remaining: real)

  /** Net `remaining` of `leg` against the open lots, oldest first. */
  function Offset(lots: seq<Lot>, leg: Leg, remaining: real): Matching {
    if lots == [] || remaining <= 0.0 then Matching([], lots, remaining)
    else if lots[0].available <= remaining then
      var rest := Offset(lots[1..], leg, remaining - lots[0].available);
      rest.(trips := [Trip(lots[0].entry, leg, lots[0].available)] + rest.trips)
    else
      Matching([Trip(lots[0].entry, leg, remaining)],
               [lots[0].(available := lots[0].available - remaining)] + lots[1..],
               0.0)
  }

  /** The part of a fill that nets against the open lots before anything opens. */
  function Netting(b: Book, leg: Leg): Matching {
    if Sign(leg.side) == -b.direction then Offset(b.lots, leg, leg.qty)
    else Matching([], b.lots, leg.qty)
  }

  /** What is left of the fill becomes a new lot on its own side; an emptied book has no direction. */
  function Settle(b: Book, leg: Leg, m: Matching): Book {
    if m.remaining > 0.0 then
      Book(m.lots + [Lot(leg, m.remaining)], Sign(leg.side), b.trips + m.trips)
    else
      Book(m.lots, if m.lots == [] then 0.0 else b.direction, b.trips + m.trips)
  }

  function AddLeg(b: Book, leg: Leg): Book { Settle(b, leg, Netting(b, leg)) }

  function Pair(legs: seq<Leg>): Book {
    if legs == [] then EMPTY_BOOK else AddLeg(Pair(legs[..|legs| - 1]), legs[|legs| - 1])
  }

  /** Fills a scope can hold: positive quantities, numbered in order. */
  ghost predicate Numbered(legs: seq<Leg>) {
    forall i :: 0 <= i < |legs| ==> legs[i].index == i && legs[i].qty > 0.0
  }

  ghost predicate Timed(legs: seq<Leg>) {
    forall i, j :: 0 <= i < j < |legs| ==> legs[i].at <= legs[j].at
  }

  // ------------------------------------------------------------------
  // Measures of a book
  // ------------------------------------------------------------------
  function Gain(t: Trip): real { Signed(t.entry.side, (t.exit.price - t.entry.price) * t.qty) }

  function LotCost(l: Lot): real { Signed(l.entry.side, l.available * l.entry.price) }

  function LotSigned(l: Lot): real { Signed(l.entry.side, l.available) }

  function LegSigned(l: Leg): real { Signed(l.side, l.qty) }

  function LegCash(l: Leg): real { -Signed(l.side, l.qty * l.price) }

  /** Gain of the closed trips at their fill prices. */
  function Realised(trips: seq<Trip>): real { SumSeq(trips, Gain) }

  /** Signed cost basis of what is still open. */
  function OpenBasis(lots: seq<Lot>): real { SumSeq(lots, LotCost) }

  function OpenQty(lots: seq<Lot>): real { SumSeq(lots, LotSigned) }

  function NetQty(legs: seq<Leg>): real { SumSeq(legs, LegSigned) }

  /** Cash the fills moved: sells bring it in, buys pay it out. */
  function CashFlow(legs: seq<Leg>): real { SumSeq(legs, LegCash) }

  function EntryShare(i: nat): Trip -> real { (t: Trip) => if t.entry.index == i then t.qty else 0.0 }

  function ExitShare(i: nat): Trip -> real { (t: Trip) => if t.exit.index == i then t.qty else 0.0 }

  function OpenShare(i: nat): Lot -> real { (l: Lot) => if l.entry.index == i then l.available else 0.0 }

  /** What fill `i` contributed to trips as their entry, as their exit, and what of it is open. */
  function AsEntry(trips: seq<Trip>, i: nat): real { SumSeq(trips, EntryShare(i)) }

  function AsExit(trips: seq<Trip>, i: nat): real { SumSeq(trips, ExitShare(i)) }

  function AsOpen(lots: seq<Lot>, i: nat): real { SumSeq(lots, OpenShare(i)) }

  // ------------------------------------------------------------------
  // Shape of the book
  // ------------------------------------------------------------------
  ghost predicate LotsOk(lots: seq<Lot>, direction: real, legs: seq<Leg>) {
    && (forall i :: 0 <= i < |lots| ==>
          && lots[i].entry in legs
          && 0.0 < lots[i].available <= lots[i].entry.qty
          && Sign(lots[i].entry.side) == direction)
    && (forall i, j :: 0 <= i < j < |lots| ==> lots[i].entry.index < lots[j].entry.index)
  }

  ghost predicate TripOk(t: Trip, legs: seq<Leg>) {
    && t.entry in legs && t.exit in legs
    && t.entry.index < t.exit.index
    && t.entry.side != t.exit.side
    && t.qty > 0.0
  }

  /** Trips are cut in the order their entries were opened and never reach back
      behind a lot that is still open. */
  ghost predicate Fifo(trips: seq<Trip>, lots: seq<Lot>) {
    && (forall j, k :: 0 <= j < k < |trips| ==>
          trips[j].entry.index <= trips[k].entry.index && trips[j].exit.index <= trips[k].exit.index)
    && (forall j, l :: 0 <= j < |trips| && 0 <= l < |lots| ==>
          trips[j].entry.index <= lots[l].entry.index)
  }

  ghost predicate BookOk(b: Book, legs: seq<Leg>) {
    && LotsOk(b.lots, b.direction, legs)
    && (b.direction == 0.0 <==> b.lots == [])
    && (b.direction == 0.0 || b.direction == 1.0 || b.direction == -1.0)
    && (forall t :: t in b.trips ==> TripOk(t, legs))
    && Fifo(b.trips, b.lots)
  }

  // ------------------------------------------------------------------
  // One fill against the lots
  // ------------------------------------------------------------------

  /** Lots keep their shape, and nothing is left of the fill while a lot is still open. */
  lemma {:induction false} OffsetLots(lots: seq<Lot>, leg: Leg, remaining: real, legs: seq<Leg>, d: real)
    requires LotsOk(lots, d, legs) && remaining >= 0.0
    ensures var m := Offset(lots, leg, remaining);
            && LotsOk(m.lots, d, legs)
            && 0.0 <= m.remaining <= remaining
            && (m.remaining > 0.0 ==> m.lots == [])
  {
    if lots != [] && remaining > 0.0 && lots[0].available <= remaining {
      OffsetLots(lots[1..], leg, remaining - lots[0].available, legs, d);
    }
  }

  /** The trips cut are this fill against open lots. */
  lemma {:induction false} OffsetTrips(lots: seq<Lot>, leg: Leg, remaining: real, legs: seq<Leg>, d: real)
    requires LotsOk(lots, d, legs) && remaining >= 0.0
    ensures forall t :: t in Offset(lots, leg, remaining).trips ==>
              t.entry in legs && t.exit == leg && t.qty > 0.0 && Sign(t.entry.side) == d
  {
    if lots != [] && remaining > 0.0 && lots[0].available <= remaining {
      OffsetTrips(lots[1..], leg, remaining - lots[0].available, legs, d);
    }
  }

  lemma OffsetShape(lots: seq<Lot>, leg: Leg, remaining: real, legs: seq<Leg>, d: real)
    requires LotsOk(lots, d, legs) && remaining >= 0.0
    ensures var m := Offset(lots, leg, remaining);
            && LotsOk(m.lots, d, legs)
            && 0.0 <= m.remaining <= remaining
            && (m.remaining > 0.0 ==> m.lots == [])
            && (forall t :: t in m.trips ==> t.entry in legs && t.exit == leg && t.qty > 0.0
                                             && Sign(t.entry.side) == d)
  {
    OffsetLots(lots, leg, remaining, legs, d);
    OffsetTrips(lots, leg, remaining, legs, d);
  }

  /** Trips and lots from index `low` on. */
  ghost predicate From(low: int, trips: seq<Trip>, lots: seq<Lot>) {
    && (forall k :: 0 <= k < |trips| ==> low <= trips[k].entry.index)
    && (forall k :: 0 <= k < |lots| ==> low <= lots[k].entry.index)
  }

  ghost predicate ExitsBy(trips: seq<Trip>, leg: Leg) {
    forall k :: 0 <= k < |trips| ==> trips[k].exit == leg
  }

  ghost predicate Increasing(lots: seq<Lot>) {
    forall i, j :: 0 <= i < j < |lots| ==> lots[i].entry.index < lots[j].entry.index
  }

  lemma {:induction false} OffsetFifo(lots: seq<Lot>, leg: Leg, remaining: real)
    requires Increasing(lots)
    ensures var m := Offset(lots, leg, remaining);
            && Fifo(m.trips, m.lots)
            && (if lots == [] then m.trips == [] && m.lots == [] else From(lots[0].entry.index, m.trips, m.lots))
            && ExitsBy(m.trips, leg)
  {
    if lots != [] && remaining > 0.0 && lots[0].available <= remaining {
      var tail := lots[1..];
      OffsetFifo(tail, leg, remaining - lots[0].available);
      var rest := Offset(tail, leg, remaining - lots[0].available);
      assert tail != [] ==> lots[0].entry.index < tail[0].entry.index;
      assert From(lots[0].entry.index, rest.trips, rest.lots);
      ConsFifo(Trip(lots[0].entry, leg, lots[0].available), rest.trips, rest.lots);
    }
  }

  lemma ConsFifo(first: Trip, trips: seq<Trip>, lots: seq<Lot>)
    requires Fifo(trips, lots) && From(first.entry.index, trips, lots) && ExitsBy(trips, first.exit)
    ensures Fifo([first] + trips, lots) && From(first.entry.index, [first] + trips, lots)
    ensures ExitsBy([first] + trips, first.exit)
  {
  }

  // ------------------------------------------------------------------
  // What pairing conserves, once for every way of valuing a book
  // ------------------------------------------------------------------

  /** A way of valuing a book: what a trip earns, what a lot ties up, and what using
      a quantity of a fill pays. */
  datatype Valuation = Valuation(gain: Trip -> real, cost: Lot -> real, paid: (Leg, real) -> real)

  ghost predicate CutLaw(v: Valuation, lot: Lot, leg: Leg, q: real) {
    lot.entry.side != leg.side ==>
      v.gain(Trip(lot.entry, leg, q)) + v.cost(lot) - v.cost(Lot(lot.entry, lot.available - q)) == v.paid(leg, q)
  }

  ghost predicate OpenLaw(v: Valuation, leg: Leg, q: real) { v.cost(Lot(leg, q)) == -v.paid(leg, q) }

  ghost predicate AddLaw(v: Valuation, leg: Leg, a: real, b: real) {
    v.paid(leg, a) + v.paid(leg, b) == v.paid(leg, a + b)
  }

  /** The local laws: cutting a lot, opening a lot and splitting a fill are all neutral. */
  ghost predicate Fair(v: Valuation) {
    && (forall lot, leg, q :: CutLaw(v, lot, leg, q))
    && (forall leg, q :: OpenLaw(v, leg, q))
    && (forall leg, a, b :: AddLaw(v, leg, a, b))
  }

  ghost function LegPaid(v: Valuation): Leg -> real { (l: Leg) => v.paid(l, l.qty) }

  lemma NothingPaid(v: Valuation, leg: Leg)
    requires Fair(v)
    ensures v.paid(leg, 0.0) == 0.0 && v.cost(Lot(leg, 0.0)) == 0.0
  {
    assert AddLaw(v, leg, 0.0, 0.0);
    assert OpenLaw(v, leg, 0.0);
  }

  ghost predicate Opposed(lots: seq<Lot>, leg: Leg) {
    forall i :: 0 <= i < |lots| ==> lots[i].entry.side != leg.side
  }

  /** A netting step is neutral: gain plus released cost is what the used part of the fill pays. */
  ghost predicate Neutral(v: Valuation, lots: seq<Lot>, leg: Leg, remaining: real, m: Matching) {
    SumSeq(m.trips, v.gain) + SumSeq(lots, v.cost) - SumSeq(m.lots, v.cost)
      == v.paid(leg, remaining - m.remaining)
  }

  lemma PopNeutral(v: Valuation, first: Lot, tail: seq<Lot>, leg: Leg, remaining: real, rest: Matching)
    requires Fair(v) && first.entry.side != leg.side
    requires Neutral(v, tail, leg, remaining - first.available, rest)
    ensures Neutral(v, [first] + tail, leg, remaining,
                    Matching([Trip(first.entry, leg, first.available)] + rest.trips, rest.lots, rest.remaining))
  {
    var used := remaining - first.available - rest.remaining;
    SumSeqCons(first, tail, v.cost);
    SumSeqCons(Trip(first.entry, leg, first.available), rest.trips, v.gain);
    assert CutLaw(v, first, leg, first.available);
    NothingPaid(v, first.entry);
    assert AddLaw(v, leg, first.available, used);
    assert first.available + used == remaining - rest.remaining;
  }

  lemma CutNeutral(v: Valuation, first: Lot, tail: seq<Lot>, leg: Leg, q: real)
    requires Fair(v) && first.entry.side != leg.side
    ensures Neutral(v, [first] + tail, leg, q,
                    Matching([Trip(first.entry, leg, q)], [Lot(first.entry, first.available - q)] + tail, 0.0))
  {
    SumSeqCons(first, tail, v.cost);
    SumSeqCons(Lot(first.entry, first.available - q), tail, v.cost);
    SumSeqSingle(Trip(first.entry, leg, q), v.gain);
    assert CutLaw(v, first, leg, q);
  }

  lemma IdleNeutral(v: Valuation, lots: seq<Lot>, leg: Leg, remaining: real)
    requires Fair(v)
    ensures Neutral(v, lots, leg, remaining, Matching([], lots, remaining))
  {
    NothingPaid(v, leg);
  }

  /** One unfolding of `Offset` when the oldest lot is used up, and when it is cut. */
  lemma OffsetPops(first: Lot, tail: seq<Lot>, leg: Leg, remaining: real)
    requires remaining > 0.0 && first.available <= remaining
    ensures var rest := Offset(tail, leg, remaining - first.available);
            Offset([first] + tail, leg, remaining)
              == Matching([Trip(first.entry, leg, first.available)] + rest.trips, rest.lots, rest.remaining)
  {
    assert ([first] + tail)[1..] == tail;
  }

  lemma OffsetCuts(first: Lot, tail: seq<Lot>, leg: Leg, remaining: real)
    requires remaining > 0.0 && first.available > remaining
    ensures Offset([first] + tail, leg, remaining)
            == Matching([Trip(first.entry, leg, remaining)],
                        [Lot(first.entry, first.available - remaining)] + tail, 0.0)
  {
    assert ([first] + tail)[1..] == tail;
  }

  lemma {:induction false} OffsetNeutral(v: Valuation, lots: seq<Lot>, leg: Leg, remaining: real)
    requires Fair(v) && Opposed(lots, leg)
    ensures Neutral(v, lots, leg, remaining, Offset(lots, leg, remaining))
  {
    if lots == [] || remaining <= 0.0 {
      IdleNeutral(v, lots, leg, remaining);
    } else {
      var first, tail := lots[0], lots[1..];
      assert lots == [first] + tail;
      if first.available <= remaining {
        OffsetNeutral(v, tail, leg, remaining - first.available);
        PopNeutral(v, first, tail, leg, remaining, Offset(tail, leg, remaining - first.available));
        OffsetPops(first, tail, leg, remaining);
      } else {
        CutNeutral(v, first, tail, leg, remaining);
        OffsetCuts(first, tail, leg, remaining);
      }
    }
  }

  // ------------------------------------------------------------------
  // The whole fold
  // ------------------------------------------------------------------
  lemma PrefixNumbered(legs: seq<Leg>)
    requires Numbered(legs) && legs != []
    ensures Numbered(legs[..|legs| - 1])
    ensures forall l :: l in legs[..|legs| - 1] ==> l in legs && l.index < |legs| - 1
  {
  }

  /** In every run of fills the open lots share one direction, have positive size,
      are held in the order they were opened, and are consumed first in, first out. */
  lemma {:induction false} PairShape(legs: seq<Leg>)
    requires Numbered(legs)
    ensures BookOk(Pair(legs), legs)
  {
    if legs != [] {
      var n := |legs| - 1;
      var before, leg := legs[..n], legs[n];
      PrefixNumbered(legs);
      PairShape(before);
      AddLegShape(Pair(before), before, leg);
      assert legs == before + [leg];
    }
  }

  lemma AddLegShape(b: Book, before: seq<Leg>, leg: Leg)
    requires BookOk(b, before) && leg.qty > 0.0
    requires leg.index == |before|
    requires forall l :: l in before ==> l.index < |before|
    ensures BookOk(AddLeg(b, leg), before + [leg])
  {
    var offsetting := Sign(leg.side) == -b.direction;
    var m := if offsetting then Offset(b.lots, leg, leg.qty) else Matching([], b.lots, leg.qty);
    if offsetting {
      OffsetShape(b.lots, leg, leg.qty, before, b.direction);
      OffsetFifo(b.lots, leg, leg.qty);
    }
    var r := AddLeg(b, leg);
    assert r.trips == b.trips + m.trips;
    forall t | t in r.trips ensures TripOk(t, before + [leg]) {
      if t in b.trips { assert TripOk(t, before); }
    }
    AddLegFifo(b, before, leg, m);
  }

  /** Appending trips that start no earlier and exit no earlier keeps FIFO order. */
  lemma AppendFifo(trips: seq<Trip>, more: seq<Trip>, lots: seq<Lot>, low: int, leg: Leg)
    requires Fifo(trips, []) && Fifo(more, lots) && From(low, more, lots) && ExitsBy(more, leg)
    requires forall j :: 0 <= j < |trips| ==> trips[j].entry.index <= low && trips[j].exit.index <= leg.index
    ensures Fifo(trips + more, lots)
  {
  }

  lemma OpenAtEndFifo(trips: seq<Trip>, lots: seq<Lot>, lot: Lot)
    requires Fifo(trips, lots)
    requires forall j :: 0 <= j < |trips| ==> trips[j].entry.index <= lot.entry.index
    ensures Fifo(trips, lots + [lot])
  {
  }

  lemma AddLegFifo(b: Book, before: seq<Leg>, leg: Leg, m: Matching)
    requires BookOk(b, before) && leg.index == |before|
    requires forall l :: l in before ==> l.index < |before|
    requires Fifo(m.trips, m.lots) && ExitsBy(m.trips, leg)
    requires forall t :: t in m.trips ==> t.entry in before
    requires if b.lots == [] then m.trips == [] && m.lots == [] else From(b.lots[0].entry.index, m.trips, m.lots)
    ensures Fifo(b.trips + m.trips, m.lots)
    ensures Fifo(b.trips + m.trips, m.lots + [Lot(leg, m.remaining)])
  {
    var trips := b.trips + m.trips;
    forall t | t in b.trips ensures t.entry.index < |before| && t.exit.index < |before| {
      assert TripOk(t, before);
    }
    if b.lots == [] {
      assert trips == b.trips;
    } else {
      AppendFifo(b.trips, m.trips, m.lots, b.lots[0].entry.index, leg);
    }
    forall t | t in trips ensures t.entry.index <= leg.index {
      assert t in b.trips || t in m.trips;
    }
    OpenAtEndFifo(trips, m.lots, Lot(leg, m.remaining));
  }

  lemma NettingNeutral(v: Valuation, b: Book, before: seq<Leg>, leg: Leg)
    requires Fair(v) && BookOk(b, before) && leg.qty > 0.0
    ensures Netting(b, leg).remaining >= 0.0 && Neutral(v, b.lots, leg, leg.qty, Netting(b, leg))
  {
    if Sign(leg.side) == -b.direction {
      OffsetShape(b.lots, leg, leg.qty, before, b.direction);
      OffsetNeutral(v, b.lots, leg, leg.qty);
    } else {
      IdleNeutral(v, b.lots, leg, leg.qty);
    }
  }

  lemma SettleConserves(v: Valuation, b: Book, leg: Leg, m: Matching)
    requires Fair(v) && m.remaining >= 0.0 && Neutral(v, b.lots, leg, leg.qty, m)
    ensures var r := Settle(b, leg, m);
            SumSeq(r.trips, v.gain) - SumSeq(r.lots, v.cost)
              == SumSeq(b.trips, v.gain) - SumSeq(b.lots, v.cost) + v.paid(leg, leg.qty)
  {
    SumSeqConcat(b.trips, m.trips, v.gain);
    SumSeqAppend(m.lots, Lot(leg, m.remaining), v.cost);
    assert OpenLaw(v, leg, m.remaining);
    assert AddLaw(v, leg, leg.qty - m.remaining, m.remaining);
    NothingPaid(v, leg);
  }

  lemma AddLegConserves(v: Valuation, b: Book, before: seq<Leg>, leg: Leg)
    requires Fair(v) && BookOk(b, before) && leg.qty > 0.0
    ensures var r := AddLeg(b, leg);
            SumSeq(r.trips, v.gain) - SumSeq(r.lots, v.cost)
              == SumSeq(b.trips, v.gain) - SumSeq(b.lots, v.cost) + v.paid(leg, leg.qty)
  {
    NettingNeutral(v, b, before, leg);
    SettleConserves(v, b, leg, Netting(b, leg));
  }

  /** Pairing conserves every fair valuation over every sequence of fills. */
  lemma {:induction false} PairConservesValue(v: Valuation, legs: seq<Leg>)
    requires Fair(v) && Numbered(legs)
    ensures SumSeq(Pair(legs).trips, v.gain) - SumSeq(Pair(legs).lots, v.cost) == SumSeq(legs, LegPaid(v))
  {
    if legs != [] {
      PrefixNumbered(legs);
      PairConservesValue(v, legs[..|legs| - 1]);
      PairShape(legs[..|legs| - 1]);
      AddLegConserves(v, Pair(legs[..|legs| - 1]), legs[..|legs| - 1], legs[|legs| - 1]);
    }
  }

  // --- money -----------------------------------------------------------
  function MoneyPaid(leg: Leg, q: real): real { -Signed(leg.side, q * leg.price) }

  function Money(): Valuation { Valuation(Gain, LotCost, MoneyPaid) }

  lemma MoneyCut(lot: Lot, leg: Leg, q: real)
    ensures CutLaw(Money(), lot, leg, q)
  {
    assert (lot.available - q) * lot.entry.price == lot.available * lot.entry.price - q * lot.entry.price;
    assert (leg.price - lot.entry.price) * q == leg.price * q - lot.entry.price * q;
  }

  lemma MoneyAdd(leg: Leg, a: real, b: real)
    ensures AddLaw(Money(), leg, a, b)
  {
    assert (a + b) * leg.price == a * leg.price + b * leg.price;
  }

  lemma MoneyFair()
    ensures Fair(Money())
  {
    forall lot, leg, q ensures CutLaw(Money(), lot, leg, q) { MoneyCut(lot, leg, q); }
    forall leg, a, b ensures AddLaw(Money(), leg, a, b) { MoneyAdd(leg, a, b); }
  }

  // --- signed quantity -------------------------------------------------
  function QtyPaid(leg: Leg, q: real): real { -Signed(leg.side, q) }

  function Quantity(): Valuation { Valuation((t: Trip) => 0.0, LotSigned, QtyPaid) }

  lemma QuantityFair()
    ensures Fair(Quantity())
  {
  }

  // --- one fill's contribution -----------------------------------------
  function ShareGain(i: nat): Trip -> real {
    (t: Trip) => (if t.entry.index == i then t.qty else 0.0) + (if t.exit.index == i then t.qty else 0.0)
  }

  function ShareCost(i: nat): Lot -> real {
    (l: Lot) => if l.entry.index == i then -l.available else 0.0
  }

  function SharePaid(i: nat): (Leg, real) -> real { (l: Leg, q: real) => if l.index == i then q else 0.0 }

  function Share(i: nat): Valuation { Valuation(ShareGain(i), ShareCost(i), SharePaid(i)) }

  lemma ShareCut(i: nat, lot: Lot, leg: Leg, q: real)
    ensures CutLaw(Share(i), lot, leg, q)
  {
    var v, rest := Share(i), Lot(lot.entry, lot.available - q);
    assert v.gain == ShareGain(i) && v.cost == ShareCost(i) && v.paid == SharePaid(i);
    assert ShareCost(i)(lot) - ShareCost(i)(rest) == if lot.entry.index == i then -q else 0.0;
  }

  lemma ShareOpen(i: nat, leg: Leg, q: real)
    ensures OpenLaw(Share(i), leg, q)
  {
    assert Share(i).cost == ShareCost(i) && Share(i).paid == SharePaid(i);
  }

  lemma ShareFair(i: nat)
    ensures Fair(Share(i))
  {
    forall lot, leg, q ensures CutLaw(Share(i), lot, leg, q) { ShareCut(i, lot, leg, q); }
    forall leg, q ensures OpenLaw(Share(i), leg, q) { ShareOpen(i, leg, q); }
  }

  lemma {:induction false} MoneyOfLegs(legs: seq<Leg>)
    ensures SumSeq(legs, LegPaid(Money())) == CashFlow(legs)
  {
    if legs != [] {
      var l := legs[|legs| - 1];
      MoneyOfLegs(legs[..|legs| - 1]);
      assert Money().paid == MoneyPaid;
      assert LegPaid(Money())(l) == MoneyPaid(l, l.qty);
    }
  }

  lemma {:induction false} QuantityOfLegs(legs: seq<Leg>)
    ensures SumSeq(legs, LegPaid(Quantity())) == -NetQty(legs)
  {
    if legs != [] {
      var l := legs[|legs| - 1];
      QuantityOfLegs(legs[..|legs| - 1]);
      assert Quantity().paid == QtyPaid;
      assert LegPaid(Quantity())(l) == QtyPaid(l, l.qty);
    }
  }

  lemma {:induction false} NoGain(trips: seq<Trip>)
    ensures SumSeq(trips, Quantity().gain) == 0.0
  {
    if trips != [] {
      NoGain(trips[..|trips| - 1]);
    }
  }

  /** Accounting identity of the FIFO ledger: what the trips realised is the cash the
      fills moved plus the cost still tied up in open lots. */
  lemma PairIdentity(legs: seq<Leg>)
    requires Numbered(legs)
    ensures Realised(Pair(legs).trips) == CashFlow(legs) + OpenBasis(Pair(legs).lots)
  {
    MoneyFair();
    PairConservesValue(Money(), legs);
    MoneyOfLegs(legs);
  }

  /** The signed quantity left open is the net of the fills. */
  lemma PairOpenQty(legs: seq<Leg>)
    requires Numbered(legs)
    ensures OpenQty(Pair(legs).lots) == NetQty(legs)
  {
    QuantityFair();
    PairConservesValue(Quantity(), legs);
    QuantityOfLegs(legs);
    NoGain(Pair(legs).trips);
  }

  lemma {:induction false} ShareOfLegs(legs: seq<Leg>, i: nat)
    requires Numbered(legs)
    ensures SumSeq(legs, LegPaid(Share(i))) == if i < |legs| then legs[i].qty else 0.0
  {
    if legs != [] {
      PrefixNumbered(legs);
      var l := legs[|legs| - 1];
      ShareOfLegs(legs[..|legs| - 1], i);
      assert Share(i).paid == SharePaid(i);
      assert LegPaid(Share(i))(l) == SharePaid(i)(l, l.qty);
    }
  }

  /** Conservation of every fill: its quantity is what it gave to trips as an entry,
      plus what it gave as an exit, plus what of it is still open. */
  lemma PairConserves(legs: seq<Leg>, i: nat)
    requires Numbered(legs)
    ensures var b := Pair(legs);
            AsEntry(b.trips, i) + AsExit(b.trips, i) + AsOpen(b.lots, i)
              == if i < |legs| then legs[i].qty else 0.0
  {
    var b := Pair(legs);
    ShareFair(i);
    PairConservesValue(Share(i), legs);
    ShareOfLegs(legs, i);
    SumSeqAdd(b.trips, ShareGain(i), EntryShare(i), ExitShare(i));
    SumSeqScale(b.lots, ShareCost(i), OpenShare(i), -1.0);
  }

  lemma {:induction false} OneSidedQty(lots: seq<Lot>, legs: seq<Leg>, d: real)
    requires LotsOk(lots, d, legs) && lots != []
    ensures d == 1.0 ==> OpenQty(lots) > 0.0
    ensures d == -1.0 ==> OpenQty(lots) < 0.0
  {
    var n := |lots| - 1;
    SumSeqAppend(lots[..n], lots[n], LotSigned);
    assert lots == lots[..n] + [lots[n]];
    if n > 0 { OneSidedQty(lots[..n], legs, d); }
  }

  /** A scope whose fills net to zero has no open lot left, and conversely. */
  lemma FlatMeansEmpty(legs: seq<Leg>)
    requires Numbered(legs)
    ensures NetQty(legs) == 0.0 <==> Pair(legs).lots == []
  {
    PairShape(legs);
    PairOpenQty(legs);
    var b := Pair(legs);
    if b.lots != [] {
      OneSidedQty(b.lots, legs, b.direction);
    }
  }

  lemma SignedProduct(side: Side, move: real, qty: real)
    ensures Sign(side) * move * qty == Signed(side, move * qty)
  {
  }

  lemma GainIsRealized(t: Trip)
    requires t.entry.Usable() && t.exit.Usable()
    ensures t.Realized().Some? && t.Realized().value == Gain(t)
  {
    SignedProduct(t.entry.side, t.exit.price - t.entry.price, t.qty);
  }

  /** With usable prices every trip has a realised figure, and it is its gain. */
  lemma UsableTripsRealise(legs: seq<Leg>)
    requires Numbered(legs) && forall l :: l in legs ==> l.Usable()
    ensures forall t :: t in Pair(legs).trips ==> t.Realized().Some? && t.Realized().value == Gain(t)
  {
    PairShape(legs);
    forall t | t in Pair(legs).trips ensures t.Realized().Some? && t.Realized().value == Gain(t) {
      assert TripOk(t, legs);
      GainIsRealized(t);
    }
  }

  // ------------------------------------------------------------------
  // The loop
  // ------------------------------------------------------------------

  /** `m` with more trips in front. */
  function After(closed: seq<Trip>, m: Matching): Matching { m.(trips := closed + m.trips) }

  lemma AfterStep(closed: seq<Trip>, trip: Trip, m: Matching, rest: Matching)
    requires m == Matching([trip] + rest.trips, rest.lots, rest.remaining)
    ensures After(closed, m) == After(closed + [trip], rest)
  {
    assert closed + ([trip] + rest.trips) == (closed + [trip]) + rest.trips;
  }

  /** The inner loop: net a fill against the deque of open lots, oldest first. */
  method NetAgainst(lots: seq<Lot>, leg: Leg)
    returns (closed: seq<Trip>, openLots: seq<Lot>, remaining: real)
    requires leg.qty > 0.0 && forall i :: 0 <= i < |lots| ==> lots[i].available > 0.0
    ensures Matching(closed, openLots, remaining) == Offset(lots, leg, leg.qty)
  {
    closed, openLots, remaining := [], lots, leg.qty;
    ghost var goal := Offset(lots, leg, leg.qty);
    assert [] + goal.trips == goal.trips;
    while remaining > 0.0 && openLots != []
      invariant remaining >= 0.0
      invariant forall i :: 0 <= i < |openLots| ==> openLots[i].available > 0.0
      invariant goal == After(closed, Offset(openLots, leg, remaining))
      decreases |openLots|, remaining > 0.0
    {
      var entry, available := openLots[0].entry, openLots[0].available;
      var matched := Min(available, remaining);
      ghost var was := Offset(openLots, leg, remaining);
      assert openLots == [openLots[0]] + openLots[1..];
      if available - matched <= 0.0 {
        OffsetPops(openLots[0], openLots[1..], leg, remaining);
        openLots := openLots[1..];
      } else {
        OffsetCuts(openLots[0], openLots[1..], leg, remaining);
        openLots := [Lot(entry, available - matched)] + openLots[1..];
      }
      remaining := remaining - matched;
      AfterStep(closed, Trip(entry, leg, matched), was, Offset(openLots, leg, remaining));
      closed := closed + [Trip(entry, leg, matched)];
    }
    assert closed + [] == closed;
  }

  /** The pairing loop for one scope. */
  method PairScope(legs: seq<Leg>) returns (trips: seq<Trip>, openLots: seq<Lot>, openDirection: real)
    requires Numbered(legs)
    ensures Book(openLots, openDirection, trips) == Pair(legs)
  {
    trips, openLots, openDirection := [], [], 0.0;
    for i := 0 to |legs|
      invariant Book(openLots, openDirection, trips) == Pair(legs[..i])
    {
      var leg := legs[i];
      assert legs[..i + 1][..i] == legs[..i];
      PairShape(legs[..i]);
      var remaining := leg.qty;
      if Sign(leg.side) == -openDirection {
        var closed;
        closed, openLots, remaining := NetAgainst(openLots, leg);
        trips := trips + closed;
      }
      if remaining > 0.0 {
        openLots := openLots + [Lot(leg, remaining)];
        openDirection := Sign(leg.side);
      } else if openLots == [] {
        openDirection := 0.0;
      }
    }
    assert legs[..|legs|] == legs;
  }
}
