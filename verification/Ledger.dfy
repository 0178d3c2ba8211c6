/** One paper account on one venue: what fills, settlements and rollbacks do to
    its cash, positions, average prices, carried fees and realized profit. */
module Ledger {
  import opened Common
  import opened Types
  import opened Fees

  const BPS := 10000.0

  datatype Account = Account(
    cash: real,
    positions: map<Id, real>,
    avg: map<Id, real>,
    realized: real,
    realizedBy: map<Id, real>,
    openFees: map<Id, real>)
  {
    function Qty(o: Id): real { At(positions, o) }
    function Avg(o: Id): real { At(avg, o) }
    function Fees(o: Id): real { At(openFees, o) }
  }

  const EMPTY := Account(0.0, map[], map[], 0.0, map[], map[])

  /** What the venue charges and how far a taker's price slips. */
  datatype Venue = Venue(fees: FeeModel, slippageBps: real)
  {
    predicate Valid() { fees.Valid() && slippageBps >= 0.0 }
  }

  datatype Reason = NoQuote | NoLiquidity | InsufficientLiquidity | LimitExceeded | InsufficientFunds | NoAdapter

  datatype Preview = Fillable(price: real, cost: real) | Refused(reason: Reason)

  function Slip(price: real, isBuy: bool, bps: real): real {
    var adj := price * bps / BPS;
    var p := if isBuy then price + adj else price - adj;
    if p < 0.0 then 0.0 else if p > 1.0 then 1.0 else p
  }

  /** Whether one order would fill at the book's reading, and at what price. */
  function PreviewFill(venue: Venue, reading: Option<Quote>, isBuy: bool, qty: real, limit: real): Preview {
    if reading.None? then Refused(NoQuote)
    else
      var quote := reading.value;
      var resting := if isBuy then quote.askSize else quote.bidSize;
      if resting.Some? && resting.value <= 0.0 then Refused(NoLiquidity)
      else if resting.Some? && qty > resting.value then Refused(InsufficientLiquidity)
      else
        var px := Slip(if isBuy then quote.ask else quote.bid, isBuy, venue.slippageBps);
        if isBuy && px > limit then Refused(LimitExceeded)
        else if !isBuy && px < limit then Refused(LimitExceeded)
        else
          var fee := venue.fees.Fee(px, qty);
          Fillable(px, if isBuy then px * qty + fee else -(px * qty) + fee)
  }

  /** The depth an order would take from. */
  function DepthFor(quote: Quote, isBuy: bool): Option<real> { if isBuy then quote.askSize else quote.bidSize }

  /** An order fills exactly when there is a quote, no known depth falls short of
      it, and the slipped price is within its limit; and then at that price. */
  lemma PreviewFillsExactly(venue: Venue, reading: Option<Quote>, isBuy: bool, qty: real, limit: real)
    ensures var r := PreviewFill(venue, reading, isBuy, qty, limit);
      && (r.Fillable? <==>
            && reading.Some?
            && (DepthFor(reading.value, isBuy).Some? ==> 0.0 < DepthFor(reading.value, isBuy).value && qty <= DepthFor(reading.value, isBuy).value)
            && var px := Slip(if isBuy then reading.value.ask else reading.value.bid, isBuy, venue.slippageBps);
               if isBuy then px <= limit else limit <= px)
      && (r.Fillable? ==>
            && r.price == Slip(if isBuy then reading.value.ask else reading.value.bid, isBuy, venue.slippageBps)
            && r.cost == (if isBuy then r.price * qty else -(r.price * qty)) + venue.fees.Fee(r.price, qty))
  {
  }

  /** Slippage only ever moves a price against the taker, by its basis points of the
      price, and never off the scale. */
  lemma SlipAgainstTaker(price: real, isBuy: bool, bps: real)
    requires 0.0 <= price <= 1.0 && bps >= 0.0
    ensures 0.0 <= Slip(price, isBuy, bps) <= 1.0
    ensures if isBuy then price <= Slip(price, isBuy, bps) else Slip(price, isBuy, bps) <= price
    ensures bps == 0.0 ==> Slip(price, isBuy, bps) == price
    ensures isBuy && Slip(price, isBuy, bps) < 1.0 ==> (Slip(price, isBuy, bps) - price) * 10000.0 == price * bps
    ensures !isBuy && Slip(price, isBuy, bps) > 0.0 ==> (price - Slip(price, isBuy, bps)) * 10000.0 == price * bps
  {
    MulNonNeg(price, bps);
  }

  // ---- what each operation leaves behind ----------------------------------

  function Acquired(st: Account, o: Id, qty: real, price: real): Account {
    var q := st.Qty(o) + qty;
    st.(avg := st.avg[o := if q > 0.0 then (st.Qty(o) * st.Avg(o) + qty * price) / q else 0.0],
        positions := st.positions[o := q])
  }

  /** The carried fees that leave with `released` of `held` contracts. */
  function FeeShare(st: Account, o: Id, released: real, held: real): real {
    var carried := st.Fees(o);
    if carried == 0.0 || held <= 0.0 then 0.0
    else if released >= held then carried
    else carried * (released / held)
  }

  /** A partial close takes carried fees in proportion to what leaves, a full one
      all of them, and an oversell no more than that. */
  lemma ShareIsProportional(st: Account, o: Id, released: real, held: real)
    requires held > 0.0
    ensures released <= held ==> FeeShare(st, o, released, held) * held == st.Fees(o) * released
    ensures released >= held ==> FeeShare(st, o, released, held) == st.Fees(o)
  {
    var part := released / held;
    assert part * held == released;
    Regroup(st.Fees(o), part, held);
  }

  lemma Regroup(a: real, b: real, c: real)
    ensures a * b * c == a * (b * c)
  {
  }

  function FeesConsumed(st: Account, o: Id, released: real, held: real): Account {
    if st.Fees(o) == 0.0 || held <= 0.0 then st
    else st.(openFees := st.openFees[o := st.Fees(o) - FeeShare(st, o, released, held)])
  }

  function Booked(st: Account, o: Id, gain: real): Account {
    st.(realized := st.realized + gain, realizedBy := st.realizedBy[o := At(st.realizedBy, o) + gain])
  }

  function Released(st: Account, o: Id, qty: real, price: real): Account {
    var held := st.Qty(o);
    var gain := (price - st.Avg(o)) * Min(qty, held) - FeeShare(st, o, qty, held);
    var st' := Booked(FeesConsumed(st, o, qty, held), o, gain);
    st'.(positions := st'.positions[o := held - qty])
  }

  function Filled(st: Account, o: Id, isBuy: bool, qty: real, px: real, fee: real): Account {
    var st' := st.(openFees := st.openFees[o := st.Fees(o) + fee]);
    if isBuy then Acquired(st'.(cash := st.cash - (px * qty + fee)), o, qty, px)
    else Released(st'.(cash := st.cash + (px * qty - fee)), o, qty, px)
  }

  function Settled(st: Account, o: Id, value: real): Account {
    var qty := st.Qty(o);
    if qty == 0.0 then st
    else
      var gain := (value - st.Avg(o)) * qty - FeeShare(st, o, qty, qty);
      var st' := Booked(FeesConsumed(st, o, qty, qty), o, gain);
      st'.(cash := st.cash + value * qty, positions := st.positions[o := 0.0], avg := st.avg[o := 0.0])
  }

  /** A position that was already paid: zeroed, and nothing credited. */
  function ClosedUnpaid(st: Account, o: Id): Account {
    if st.Qty(o) == 0.0 then st
    else st.(positions := st.positions[o := 0.0], avg := st.avg[o := 0.0], openFees := st.openFees[o := 0.0])
  }

  /** What a ticket rollback can put back: everything but the carried fees. */
  datatype Snapshot = Snapshot(cash: real, positions: map<Id, real>, avg: map<Id, real>, realized: real, realizedBy: map<Id, real>)

  function SnapshotOf(st: Account): Snapshot {
    Snapshot(st.cash, st.positions, st.avg, st.realized, st.realizedBy)
  }

  function Restored(st: Account, snap: Snapshot): Account {
    Account(snap.cash, snap.positions, snap.avg, snap.realized, snap.realizedBy, st.openFees)
  }

  // ---- the book value of an account ---------------------------------------

  function CostOf(st: Account, o: Id): real { st.Qty(o) * st.Avg(o) }

  ghost function CostMap(st: Account): map<Id, real> {
    map o | o in st.positions :: CostOf(st, o)
  }

  ghost function CostBasis(st: Account): real { Sum(CostMap(st)) }

  ghost function Carried(st: Account): real { Sum(st.openFees) }

  /** Money put in and not yet taken out: what every ledger operation keeps. */
  ghost function Contributed(st: Account): real {
    st.cash + CostBasis(st) + Carried(st) - st.realized
  }

  lemma CostBasisMoves(st: Account, st': Account, o: Id)
    requires st'.positions == st.positions[o := st'.Qty(o)]
    requires forall p :: p in st.positions && p != o ==> st'.Avg(p) == st.Avg(p)
    ensures CostBasis(st') == CostBasis(st) - CostOf(st, o) + CostOf(st', o)
  {
    var m, n := CostMap(st), CostMap(st');
    forall p | p in m && p != o ensures n[p] == m[p] {
      SameProduct(st.Qty(p), st.Avg(p), st'.Qty(p), st'.Avg(p));
    }
    SumMoved(m, n, o);
    assert n[o] == CostOf(st', o);
    NoCost(st, o);
  }

  lemma NoCost(st: Account, o: Id)
    ensures CostOf(st, o) == At(CostMap(st), o)
  {
  }

  lemma SameProduct(a: real, b: real, c: real, d: real)
    requires a == c && b == d
    ensures a * b == c * d
  {
  }

  /** A buy moves cash into cost basis and carried fees, and nothing else. */
  lemma BuyConserves(st: Account, o: Id, qty: real, px: real, fee: real)
    requires st.Qty(o) + qty > 0.0
    ensures Contributed(Filled(st, o, true, qty, px, fee)) == Contributed(st)
    ensures var st' := Filled(st, o, true, qty, px, fee);
      && CostOf(st', o) == CostOf(st, o) + qty * px
      && CostBasis(st') == CostBasis(st) + qty * px
      && Carried(st') == Carried(st) + fee
  {
    var st' := Filled(st, o, true, qty, px, fee);
    BuyCost(st, o, qty, px, fee);
    CostBasisMoves(st, st', o);
    SumUpdate(st.openFees, o, st.Fees(o) + fee);
  }

  lemma BuyCost(st: Account, o: Id, qty: real, px: real, fee: real)
    requires st.Qty(o) + qty > 0.0
    ensures CostOf(Filled(st, o, true, qty, px, fee), o) == CostOf(st, o) + qty * px
  {
  }

  /** A sell conserves exactly when it is covered, or happens at the average
      price. Nothing in the broker checks either. */
  lemma SellConservesExactly(st: Account, o: Id, qty: real, px: real, fee: real)
    ensures Contributed(Filled(st, o, false, qty, px, fee)) == Contributed(st)
       <==> qty <= st.Qty(o) || px == st.Avg(o)
  {
    SellMoves(st, o, qty, px, fee);
    UncoveredDrift(px - st.Avg(o), qty, st.Qty(o));
  }

  /** What an uncovered sell adds to the contributed money out of nothing. */
  function Drift(edge: real, qty: real, held: real): real { edge * (qty - Min(qty, held)) }

  lemma UncoveredDrift(edge: real, qty: real, held: real)
    ensures Drift(edge, qty, held) == 0.0 <==> qty <= held || edge == 0.0
  {
  }

  lemma SellMoves(st: Account, o: Id, qty: real, px: real, fee: real)
    ensures Contributed(Filled(st, o, false, qty, px, fee))
         == Contributed(st) + Drift(px - st.Avg(o), qty, st.Qty(o))
  {
    SellFees(st, o, qty, px, fee);
    SellCost(st, o, qty, px, fee);
    SellBooks(st, o, qty, px, fee);
    SellArithmetic(px, st.Avg(o), qty, st.Qty(o));
  }

  function SaleGain(px: real, a: real, qty: real, held: real): real { (px - a) * Min(qty, held) }

  lemma SellBooks(st: Account, o: Id, qty: real, px: real, fee: real)
    ensures
      var mid := st.(openFees := st.openFees[o := st.Fees(o) + fee], cash := st.cash + (px * qty - fee));
      var st' := Filled(st, o, false, qty, px, fee);
      && st'.realized == st.realized + SaleGain(px, st.Avg(o), qty, st.Qty(o)) - FeeShare(mid, o, qty, st.Qty(o))
      && st'.cash == st.cash + px * qty - fee
  {
  }

  lemma SellFees(st: Account, o: Id, qty: real, px: real, fee: real)
    ensures
      var mid := st.(openFees := st.openFees[o := st.Fees(o) + fee], cash := st.cash + (px * qty - fee));
      Carried(Filled(st, o, false, qty, px, fee)) == Carried(st) + fee - FeeShare(mid, o, qty, st.Qty(o))
  {
    var mid := st.(openFees := st.openFees[o := st.Fees(o) + fee], cash := st.cash + (px * qty - fee));
    var share := FeeShare(mid, o, qty, st.Qty(o));
    SumUpdate(st.openFees, o, st.Fees(o) + fee);
    SumUpdate(mid.openFees, o, mid.Fees(o) - share);
  }

  lemma SellCost(st: Account, o: Id, qty: real, px: real, fee: real)
    ensures CostBasis(Filled(st, o, false, qty, px, fee)) == CostBasis(st) - qty * st.Avg(o)
  {
    var st' := Filled(st, o, false, qty, px, fee);
    SellHoldings(st, o, qty, px, fee);
    PartCost(st, st', o, qty);
    CostBasisMoves(st, st', o);
  }

  lemma SellHoldings(st: Account, o: Id, qty: real, px: real, fee: real)
    ensures var st' := Filled(st, o, false, qty, px, fee);
      && st'.positions == st.positions[o := st.Qty(o) - qty]
      && st'.avg == st.avg
  {
  }

  lemma PartCost(st: Account, st': Account, o: Id, qty: real)
    requires st'.Qty(o) == st.Qty(o) - qty && st'.Avg(o) == st.Avg(o)
    ensures CostOf(st', o) == CostOf(st, o) - qty * st.Avg(o)
  {
  }

  lemma SellArithmetic(px: real, a: real, qty: real, held: real)
    ensures px * qty - qty * a - SaleGain(px, a, qty, held) == Drift(px - a, qty, held)
  {
  }

  /** Selling ten contracts nobody holds makes six dollars out of nothing. */
  lemma UncoveredSellGains()
    ensures Contributed(Filled(EMPTY, 1, false, 10.0, 0.6, 0.0)) == Contributed(EMPTY) + 6.0
  {
    hide Contributed, Filled;
    SellMoves(EMPTY, 1, 10.0, 0.6, 0.0);
  }

  lemma SettleConserves(st: Account, o: Id, value: real)
    ensures Contributed(Settled(st, o, value)) == Contributed(st)
  {
    var qty := st.Qty(o);
    if qty != 0.0 {
      var st' := Settled(st, o, value);
      CostBasisMoves(st, st', o);
      SumUpdate(st.openFees, o, st.Fees(o) - FeeShare(st, o, qty, qty));
    }
  }

  /** Closing a position without paying it writes off its cost and its fees. */
  lemma CloseUnpaidMoves(st: Account, o: Id)
    ensures Contributed(ClosedUnpaid(st, o))
         == Contributed(st) - (if st.Qty(o) == 0.0 then 0.0 else st.Qty(o) * st.Avg(o) + st.Fees(o))
  {
    if st.Qty(o) != 0.0 {
      CostBasisMoves(st, ClosedUnpaid(st, o), o);
      SumUpdate(st.openFees, o, 0.0);
    }
  }
}
