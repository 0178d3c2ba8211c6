/** Every run of deposits, withdrawals, orders and settlements on one account:
    money is conserved, cash is never overdrawn, and each fee reaches realized
    profit once. */
module LedgerRuns {
  import opened Common
  import opened Types
  import opened Fees
  import opened Ledger

  datatype Op =
    | Deposit(amount: real)
    | Withdraw(amount: real)
    | Trade(outcome: Id, isBuy: bool, qty: real, limit: real, reading: Option<Quote>)
    | Settle(outcome: Id, value: real)

  function CanWithdraw(st: Account, amount: real): bool { 0.0 < amount <= st.cash }

  /** The price an order fills at, or None when the broker rejects it. */
  function FillPrice(venue: Venue, st: Account, isBuy: bool, qty: real, limit: real, reading: Option<Quote>): Option<real> {
    match PreviewFill(venue, reading, isBuy, qty, limit)
    case Refused(_) => None
    case Fillable(px, cost) => if isBuy && cost > st.cash then None else Some(px)
  }

  function Step(venue: Venue, st: Account, op: Op): Account {
    match op
    case Deposit(a) => st.(cash := st.cash + a)
    case Withdraw(a) => if CanWithdraw(st, a) then st.(cash := st.cash - a) else st
    case Trade(o, isBuy, qty, limit, reading) =>
      (match FillPrice(venue, st, isBuy, qty, limit, reading)
       case None => st
       case Some(px) => Filled(st, o, isBuy, qty, px, venue.fees.Fee(px, qty)))
    case Settle(o, v) => Settled(st, o, v)
  }

  /** Orders are for a positive quantity and sells are covered; deposits and
      results are not negative. */
  predicate Legal(st: Account, op: Op) {
    match op
    case Deposit(a) => a >= 0.0
    case Withdraw(_) => true
    case Trade(o, isBuy, qty, _, reading) =>
      && qty > 0.0
      && (reading.Some? ==> reading.value.Valid())
      && (!isBuy ==> qty <= st.Qty(o))
    case Settle(_, v) => v >= 0.0
  }

  /** What the operation put in from outside, paid in fees, and won or lost
      before fees. */
  function PutIn(st: Account, op: Op): real {
    match op
    case Deposit(a) => a
    case Withdraw(a) => if CanWithdraw(st, a) then -a else 0.0
    case _ => 0.0
  }

  function Charged(venue: Venue, st: Account, op: Op): real {
    match op
    case Trade(_, isBuy, qty, limit, reading) =>
      (match FillPrice(venue, st, isBuy, qty, limit, reading)
       case None => 0.0
       case Some(px) => venue.fees.Fee(px, qty))
    case _ => 0.0
  }

  function Gain(price: real, avg: real, qty: real): real { (price - avg) * qty }

  function Won(venue: Venue, st: Account, op: Op): real {
    match op
    case Trade(o, isBuy, qty, limit, reading) =>
      (match FillPrice(venue, st, isBuy, qty, limit, reading)
       case None => 0.0
       case Some(px) => if isBuy then 0.0 else Gain(px, st.Avg(o), qty))
    case Settle(o, v) => Gain(v, st.Avg(o), st.Qty(o))
    case _ => 0.0
  }

  function Run(venue: Venue, st: Account, ops: seq<Op>): Account
    decreases |ops|
  {
    if ops == [] then st else Run(venue, Step(venue, st, ops[0]), ops[1..])
  }

  predicate LegalRun(venue: Venue, st: Account, ops: seq<Op>)
    decreases |ops|
  {
    ops == [] || (Legal(st, ops[0]) && LegalRun(venue, Step(venue, st, ops[0]), ops[1..]))
  }

  function TotalPutIn(venue: Venue, st: Account, ops: seq<Op>): real
    decreases |ops|
  {
    if ops == [] then 0.0 else PutIn(st, ops[0]) + TotalPutIn(venue, Step(venue, st, ops[0]), ops[1..])
  }

  function TotalCharged(venue: Venue, st: Account, ops: seq<Op>): real
    decreases |ops|
  {
    if ops == [] then 0.0 else Charged(venue, st, ops[0]) + TotalCharged(venue, Step(venue, st, ops[0]), ops[1..])
  }

  function TotalWon(venue: Venue, st: Account, ops: seq<Op>): real
    decreases |ops|
  {
    if ops == [] then 0.0 else Won(venue, st, ops[0]) + TotalWon(venue, Step(venue, st, ops[0]), ops[1..])
  }

  /** A sound account: nothing negative, no fee carried on a closed position,
      and realized profit adding up over the outcomes. */
  ghost predicate Sound(st: Account) {
    && st.cash >= 0.0
    && (forall o: Id :: st.Qty(o) >= 0.0)
    && (forall o: Id :: st.Fees(o) >= 0.0)
    && (forall o: Id :: st.Qty(o) == 0.0 ==> st.Fees(o) == 0.0)
    && st.realized == Sum(st.realizedBy)
  }

  // ---- one step -------------------------------------------------------------

  lemma SlipInRange(price: real, isBuy: bool, bps: real)
    ensures 0.0 <= Slip(price, isBuy, bps) <= 1.0
  {
  }

  lemma ShareInRange(st: Account, o: Id, released: real, held: real)
    requires st.Fees(o) >= 0.0 && released >= 0.0
    ensures 0.0 <= FeeShare(st, o, released, held) <= st.Fees(o)
  {
  }

  lemma BuySound(st: Account, o: Id, qty: real, px: real, fee: real)
    requires Sound(st) && qty > 0.0 && fee >= 0.0 && px * qty + fee <= st.cash
    ensures Sound(Filled(st, o, true, qty, px, fee))
  {
    var st' := Filled(st, o, true, qty, px, fee);
    forall p: Id
      ensures st'.Qty(p) >= 0.0 && st'.Fees(p) >= 0.0 && (st'.Qty(p) == 0.0 ==> st'.Fees(p) == 0.0)
    {
      assert st.Qty(p) >= 0.0 && st.Fees(p) >= 0.0;
      if p != o { assert st'.Qty(p) == st.Qty(p) && st'.Fees(p) == st.Fees(p); }
    }
  }

  lemma SellSound(st: Account, o: Id, qty: real, px: real, fee: real)
    requires Sound(st) && 0.0 < qty <= st.Qty(o) && fee >= 0.0 && px * qty - fee >= 0.0
    ensures Sound(Filled(st, o, false, qty, px, fee))
  {
    var st' := Filled(st, o, false, qty, px, fee);
    var mid := st.(openFees := st.openFees[o := st.Fees(o) + fee], cash := st.cash + (px * qty - fee));
    assert st.Fees(o) >= 0.0;
    ShareInRange(mid, o, qty, st.Qty(o));
    SumUpdate(st.realizedBy, o, At(st'.realizedBy, o));
    forall p: Id
      ensures st'.Qty(p) >= 0.0 && st'.Fees(p) >= 0.0 && (st'.Qty(p) == 0.0 ==> st'.Fees(p) == 0.0)
    {
      assert st.Qty(p) >= 0.0 && st.Fees(p) >= 0.0;
      if p != o { assert st'.Qty(p) == st.Qty(p) && st'.Fees(p) == st.Fees(p); }
    }
  }

  lemma SettleSound(st: Account, o: Id, v: real)
    requires Sound(st) && v >= 0.0
    ensures Sound(Settled(st, o, v))
  {
    var st' := Settled(st, o, v);
    assert st.Qty(o) >= 0.0 && st.Fees(o) >= 0.0;
    MulNonNeg(v, st.Qty(o));
    SumUpdate(st.realizedBy, o, At(st'.realizedBy, o));
    forall p: Id
      ensures st'.Qty(p) >= 0.0 && st'.Fees(p) >= 0.0 && (st'.Qty(p) == 0.0 ==> st'.Fees(p) == 0.0)
    {
      assert st.Qty(p) >= 0.0 && st.Fees(p) >= 0.0;
      if p != o { assert st'.Qty(p) == st.Qty(p) && st'.Fees(p) == st.Fees(p); }
    }
  }

  lemma TradeSound(venue: Venue, st: Account, o: Id, isBuy: bool, qty: real, limit: real, reading: Option<Quote>)
    requires venue.Valid() && Sound(st) && Legal(st, Trade(o, isBuy, qty, limit, reading))
    ensures Sound(Step(venue, st, Trade(o, isBuy, qty, limit, reading)))
  {
    var price := FillPrice(venue, st, isBuy, qty, limit, reading);
    if price.Some? {
      var px := price.value;
      SlipInRange(if isBuy then reading.value.ask else reading.value.bid, isBuy, venue.slippageBps);
      FeeNonNegative(venue.fees, px, qty);
      if isBuy {
        BuySound(st, o, qty, px, venue.fees.Fee(px, qty));
      } else {
        SaleProceedsNonNegative(venue.fees, px, qty);
        SellSound(st, o, qty, px, venue.fees.Fee(px, qty));
      }
    }
  }

  lemma CashSound(st: Account, cash: real)
    requires Sound(st) && cash >= 0.0
    ensures Sound(st.(cash := cash))
  {
    var st' := st.(cash := cash);
    assert forall p: Id :: st'.Qty(p) == st.Qty(p) && st'.Fees(p) == st.Fees(p);
  }

  lemma StepSound(venue: Venue, st: Account, op: Op)
    requires venue.Valid() && Sound(st) && Legal(st, op)
    ensures Sound(Step(venue, st, op))
  {
    match op
    case Trade(o, isBuy, qty, limit, reading) => TradeSound(venue, st, o, isBuy, qty, limit, reading);
    case Settle(o, v) => SettleSound(st, o, v);
    case Deposit(a) => CashSound(st, st.cash + a);
    case Withdraw(a) => if CanWithdraw(st, a) { CashSound(st, st.cash - a); }
  }

  lemma CashKeepsCost(st: Account, cash: real)
    ensures CostBasis(st.(cash := cash)) == CostBasis(st)
  {
    var st' := st.(cash := cash);
    forall o | o in st.positions ensures CostOf(st', o) == CostOf(st, o) {
      SameProduct(st.Qty(o), st.Avg(o), st'.Qty(o), st'.Avg(o));
    }
    assert CostMap(st') == CostMap(st);
  }

  lemma StepConserves(venue: Venue, st: Account, op: Op)
    requires Sound(st) && Legal(st, op)
    ensures Contributed(Step(venue, st, op)) == Contributed(st) + PutIn(st, op)
  {
    match op
    case Trade(o, isBuy, qty, limit, reading) =>
      var px := FillPrice(venue, st, isBuy, qty, limit, reading);
      if px.Some? {
        assert st.Qty(o) >= 0.0;
        if isBuy {
          BuyConserves(st, o, qty, px.value, venue.fees.Fee(px.value, qty));
        } else {
          SellConservesExactly(st, o, qty, px.value, venue.fees.Fee(px.value, qty));
        }
      }
    case Settle(o, v) => SettleConserves(st, o, v);
    case _ => CashKeepsCost(st, Step(venue, st, op).cash);
  }

  /** Realized profit less the fees still carried moves by what was won less
      what was charged: no fee is dropped and none is charged twice. */
  lemma StepFeesOnce(venue: Venue, st: Account, op: Op)
    requires Sound(st) && Legal(st, op)
    ensures var st' := Step(venue, st, op);
      st'.realized - Carried(st') == st.realized - Carried(st) + Won(venue, st, op) - Charged(venue, st, op)
  {
    match op
    case Trade(o, isBuy, qty, limit, reading) =>
      var px := FillPrice(venue, st, isBuy, qty, limit, reading);
      if px.Some? {
        var fee := venue.fees.Fee(px.value, qty);
        FillFeesOnce(st, o, isBuy, qty, px.value, fee);
        assert Step(venue, st, op) == Filled(st, o, isBuy, qty, px.value, fee);
        assert Charged(venue, st, op) == fee;
      }
    case Settle(o, v) => SettleFeesOnce(st, o, v);
    case _ =>
  }

  lemma FillFeesOnce(st: Account, o: Id, isBuy: bool, qty: real, px: real, fee: real)
    requires Sound(st) && qty > 0.0 && (!isBuy ==> qty <= st.Qty(o))
    ensures var st' := Filled(st, o, isBuy, qty, px, fee);
      st'.realized - Carried(st')
        == st.realized - Carried(st) + (if isBuy then 0.0 else Gain(px, st.Avg(o), qty)) - fee
  {
    if isBuy {
      SumUpdate(st.openFees, o, st.Fees(o) + fee);
      assert Filled(st, o, true, qty, px, fee).openFees == st.openFees[o := st.Fees(o) + fee];
    } else {
      SellFees(st, o, qty, px, fee);
      SellBooks(st, o, qty, px, fee);
      CoveredGain(px, st.Avg(o), qty, st.Qty(o));
    }
  }

  lemma CoveredGain(px: real, a: real, qty: real, held: real)
    requires qty <= held
    ensures SaleGain(px, a, qty, held) == Gain(px, a, qty)
  {
  }

  lemma SettleFeesOnce(st: Account, o: Id, v: real)
    ensures var st' := Settled(st, o, v);
      st'.realized - Carried(st') == st.realized - Carried(st) + Gain(v, st.Avg(o), st.Qty(o))
  {
    if st.Qty(o) != 0.0 {
      SumUpdate(st.openFees, o, st.Fees(o) - FeeShare(st, o, st.Qty(o), st.Qty(o)));
    }
  }

  // ---- whole runs -------------------------------------------------------------

  /** Conservation over every legal run from a sound account. */
  lemma {:induction false} LedgerConserved(venue: Venue, st: Account, ops: seq<Op>)
    requires venue.Valid() && Sound(st) && LegalRun(venue, st, ops)
    ensures var end := Run(venue, st, ops);
      && Sound(end)
      && Contributed(end) == Contributed(st) + TotalPutIn(venue, st, ops)
    decreases |ops|
  {
    if ops != [] {
      StepSound(venue, st, ops[0]);
      StepConserves(venue, st, ops[0]);
      LedgerConserved(venue, Step(venue, st, ops[0]), ops[1..]);
    }
  }

  /** Each fee reaches realized profit exactly once: what has not is carried. */
  lemma {:induction false} FeesRealizedOnce(venue: Venue, st: Account, ops: seq<Op>)
    requires venue.Valid() && Sound(st) && LegalRun(venue, st, ops)
    ensures var end := Run(venue, st, ops);
      end.realized == st.realized + TotalWon(venue, st, ops)
                      - (Carried(st) + TotalCharged(venue, st, ops) - Carried(end))
    decreases |ops|
  {
    if ops != [] {
      StepSound(venue, st, ops[0]);
      StepFeesOnce(venue, st, ops[0]);
      FeesRealizedOnce(venue, Step(venue, st, ops[0]), ops[1..]);
    }
  }

  /** Once every position is closed, profit is cash: nothing is left in cost
      basis or carried fees, so cash is what was put in plus realized profit,
      and realized profit is what was won less every fee charged. */
  lemma FlatAccountReconciles(venue: Venue, ops: seq<Op>)
    requires venue.Valid() && LegalRun(venue, EMPTY, ops)
    requires forall o: Id :: Run(venue, EMPTY, ops).Qty(o) == 0.0
    ensures var end := Run(venue, EMPTY, ops);
      && end.cash == TotalPutIn(venue, EMPTY, ops) + end.realized
      && end.realized == TotalWon(venue, EMPTY, ops) - TotalCharged(venue, EMPTY, ops)
      && end.realized == Sum(end.realizedBy)
  {
    assert Sound(EMPTY);
    assert CostMap(EMPTY) == map[];
    LedgerConserved(venue, EMPTY, ops);
    FeesRealizedOnce(venue, EMPTY, ops);
    NothingOpen(Run(venue, EMPTY, ops));
    assert Sum(map[]) == 0.0;
  }

  lemma NothingOpen(st: Account)
    requires Sound(st) && forall o: Id :: st.Qty(o) == 0.0
    ensures CostBasis(st) == 0.0 && Carried(st) == 0.0
  {
    forall o: Id ensures At(st.openFees, o) == At(map[], o) {
      assert st.Qty(o) == 0.0 && st.Fees(o) == 0.0;
    }
    SumSame(st.openFees, map[]);
    forall o: Id ensures At(CostMap(st), o) == At(map[], o) {
      if o in st.positions {
        assert st.Qty(o) == 0.0;
        ZeroTimes(st.Avg(o));
        SameProduct(st.Qty(o), st.Avg(o), 0.0, st.Avg(o));
        assert CostOf(st, o) == 0.0;
      }
    }
    SumSame(CostMap(st), map[]);
  }
}
