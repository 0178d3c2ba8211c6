/** Resizing a detected ticket to each venue's bankroll, or to a total stake. */
module Sizing {
  import opened Common
  import opened Types
  import opened Qty

  // ---- what a ticket costs where ------------------------------------------------------

  function VenueCost(legs: seq<ArbLeg>, v: Id, n: nat): real
    requires n <= |legs|
  {
    if n == 0 then 0.0 else VenueCost(legs, v, n - 1) + (if legs[n - 1].venue == v then legs[n - 1].Cost() else 0.0)
  }

  function TotalCost(legs: seq<ArbLeg>, n: nat): real
    requires n <= |legs|
  {
    if n == 0 then 0.0 else TotalCost(legs, n - 1) + legs[n - 1].Cost()
  }

  function LeastQty(legs: seq<ArbLeg>, n: nat): real
    requires 0 < n <= |legs|
  {
    if n == 1 then legs[0].qty else Min(LeastQty(legs, n - 1), legs[n - 1].qty)
  }

  /** How far one venue's bankroll stretches its part of the ticket; None when it
      has none, or the part costs nothing. */
  function Stretch(legs: seq<ArbLeg>, bank: map<Id, real>, v: Id): Option<real> {
    var cost := VenueCost(legs, v, |legs|);
    if At(bank, v) <= 0.0 || cost <= 0.0 then None else Some(At(bank, v) / cost)
  }

  /** The least stretch of any leg's venue. */
  function ScaleOf(legs: seq<ArbLeg>, bank: map<Id, real>, n: nat): Option<real>
    requires 0 < n <= |legs|
  {
    var here := Stretch(legs, bank, legs[n - 1].venue);
    if n == 1 then here
    else
      match (ScaleOf(legs, bank, n - 1), here)
      case (Some(a), Some(b)) => Some(Min(a, b))
      case _ => None
  }

  function NewQty(leg: ArbLeg, scale: real, ticks: map<Id, real>): real {
    if At(ticks, leg.venue) > 0.0 then RoundDownTick(leg.qty * scale, At(ticks, leg.venue)) else leg.qty * scale
  }

  function NewLeg(leg: ArbLeg, scale: real, ticks: map<Id, real>): ArbLeg {
    var qty := NewQty(leg, scale, ticks);
    leg.(qty := qty, fee := if leg.qty > 0.0 then leg.fee * (qty / leg.qty) else 0.0)
  }

  /** Every leg rescaled; None as soon as one has no size left. */
  function NewLegs(legs: seq<ArbLeg>, scale: real, ticks: map<Id, real>, n: nat): (r: Option<seq<ArbLeg>>)
    requires n <= |legs|
    ensures r.Some? ==> |r.value| == n && forall i :: 0 <= i < n ==>
              r.value[i] == NewLeg(legs[i], scale, ticks) && NewQty(legs[i], scale, ticks) > 0.0
  {
    if n == 0 then Some([])
    else
      var before := NewLegs(legs, scale, ticks, n - 1);
      if before.None? || NewQty(legs[n - 1], scale, ticks) <= 0.0 then None
      else Some(before.value + [NewLeg(legs[n - 1], scale, ticks)])
  }

  datatype Sizing = TooSmall | Sized(opp: Opportunity) | Raised

  function SizedTo(opp: Opportunity, bank: map<Id, real>, ticks: map<Id, real>): Sizing {
    if opp.legs == [] then TooSmall
    else
      var scale := ScaleOf(opp.legs, bank, |opp.legs|);
      if scale.None? then TooSmall
      else
        var legs := NewLegs(opp.legs, scale.value, ticks, |opp.legs|);
        if legs.None? then TooSmall
        else
          var stake := TotalCost(legs.value, |legs.value|);
          var profit := LeastQty(legs.value, |legs.value|) - stake;
          if profit <= 0.0 then TooSmall
          else if stake == 0.0 then Raised
          else Sized(Opportunity(opp.group, legs.value, stake, profit, profit / stake * 10000.0))
  }

  // ---- the loops ----------------------------------------------------------------------

  method SizeToBankroll(opp: Opportunity, bank: map<Id, real>, ticks: map<Id, real>) returns (r: Sizing)
    ensures r == SizedTo(opp, bank, ticks)
  {
    hide VenueCost, TotalCost, LeastQty, ScaleOf, NewLegs;
    if opp.legs == [] {
      return TooSmall;
    }
    var costs := CostPerVenue(opp.legs);
    var scale := FindScale(opp.legs, costs, bank);
    if scale.None? {
      return TooSmall;
    }
    ScalePositive(opp.legs, bank, |opp.legs|);
    if scale.value <= 0.0 {
      return TooSmall;
    }
    var legs := Rescale(opp.legs, scale.value, ticks);
    if legs.None? {
      return TooSmall;
    }
    var stake, payoff := Totals(legs.value);
    var profit := payoff - stake;
    if profit <= 0.0 {
      return TooSmall;
    }
    if stake == 0.0 {
      return Raised;
    }
    return Sized(Opportunity(opp.group, legs.value, stake, profit, profit / stake * 10000.0));
  }

  method CostPerVenue(legs: seq<ArbLeg>) returns (costs: map<Id, real>)
    ensures forall v :: v in costs <==> exists i :: 0 <= i < |legs| && legs[i].venue == v
    ensures forall v :: v in costs ==> costs[v] == VenueCost(legs, v, |legs|)
  {
    costs := map[];
    for i := 0 to |legs|
      invariant forall v :: v in costs <==> exists k :: 0 <= k < i && legs[k].venue == v
      invariant forall v :: At(costs, v) == VenueCost(legs, v, i)
    {
      costs := costs[legs[i].venue := At(costs, legs[i].venue) + legs[i].Cost()];
    }
    forall v | v in costs ensures costs[v] == VenueCost(legs, v, |legs|) { assert At(costs, v) == costs[v]; }
  }

  method FindScale(legs: seq<ArbLeg>, costs: map<Id, real>, bank: map<Id, real>) returns (scale: Option<real>)
    requires legs != []
    requires forall v :: v in costs <==> exists i :: 0 <= i < |legs| && legs[i].venue == v
    requires forall v :: v in costs ==> costs[v] == VenueCost(legs, v, |legs|)
    ensures scale == ScaleOf(legs, bank, |legs|)
  {
    hide ScaleOf, VenueCost;
    assert legs[0].venue in costs;
    scale := None;
    var rest := costs.Keys;
    while rest != {}
      invariant rest <= costs.Keys && (scale.None? ==> rest == costs.Keys)
      invariant scale.Some? ==>
        && (forall v :: v in costs && v !in rest ==> Stretch(legs, bank, v).Some? && scale.value <= Stretch(legs, bank, v).value)
        && exists v :: v in costs && v !in rest && Stretch(legs, bank, v) == scale
    {
      var v :| v in rest;
      rest := rest - {v};
      if At(bank, v) <= 0.0 || costs[v] <= 0.0 {
        ScaleMissing(legs, bank, |legs|, v);
        return None;
      }
      var s := At(bank, v) / costs[v];
      assert Stretch(legs, bank, v) == Some(s);
      scale := Some(if scale.None? then s else Min(scale.value, s));
    }
    ScaleIsLeast(legs, bank, |legs|, scale.value);
  }

  lemma {:induction false} ScaleMissing(legs: seq<ArbLeg>, bank: map<Id, real>, n: nat, v: Id)
    requires 0 < n <= |legs| && (exists i :: 0 <= i < n && legs[i].venue == v) && Stretch(legs, bank, v).None?
    ensures ScaleOf(legs, bank, n).None?
  {
    hide Stretch;
    if n > 1 && legs[n - 1].venue != v { ScaleMissing(legs, bank, n - 1, v); }
  }

  lemma {:induction false} ScaleReads(legs: seq<ArbLeg>, bank: map<Id, real>, n: nat)
    requires 0 < n <= |legs|
    ensures var s := ScaleOf(legs, bank, n);
      && (s.None? ==> exists i :: 0 <= i < n && Stretch(legs, bank, legs[i].venue).None?)
      && (s.Some? ==>
            && (forall i :: 0 <= i < n ==> Stretch(legs, bank, legs[i].venue).Some? && s.value <= Stretch(legs, bank, legs[i].venue).value)
            && exists i :: 0 <= i < n && Stretch(legs, bank, legs[i].venue) == s)
  {
    hide Stretch;
    if n > 1 { ScaleReads(legs, bank, n - 1); }
  }

  lemma ScaleIsLeast(legs: seq<ArbLeg>, bank: map<Id, real>, n: nat, scale: real)
    requires 0 < n <= |legs|
    requires forall i :: 0 <= i < n ==> Stretch(legs, bank, legs[i].venue).Some? && scale <= Stretch(legs, bank, legs[i].venue).value
    requires exists i :: 0 <= i < n && Stretch(legs, bank, legs[i].venue) == Some(scale)
    ensures ScaleOf(legs, bank, n) == Some(scale)
  {
    hide Stretch, ScaleOf;
    ScaleReads(legs, bank, n);
  }

  lemma ScalePositive(legs: seq<ArbLeg>, bank: map<Id, real>, n: nat)
    requires 0 < n <= |legs|
    ensures ScaleOf(legs, bank, n).Some? ==> ScaleOf(legs, bank, n).value > 0.0
  {
  }

  method Rescale(legs: seq<ArbLeg>, scale: real, ticks: map<Id, real>) returns (r: Option<seq<ArbLeg>>)
    ensures r == NewLegs(legs, scale, ticks, |legs|)
  {
    hide NewQty;
    var done: seq<ArbLeg> := [];
    for i := 0 to |legs|
      invariant NewLegs(legs, scale, ticks, i) == Some(done)
    {
      var qty := NewQty(legs[i], scale, ticks);
      if qty <= 0.0 {
        NoLegs(legs, scale, ticks, i + 1, |legs|);
        return None;
      }
      var fee := if legs[i].qty > 0.0 then legs[i].fee * (qty / legs[i].qty) else 0.0;
      var leg := legs[i].(qty := qty, fee := fee);
      assert leg == NewLeg(legs[i], scale, ticks);
      assert NewLegs(legs, scale, ticks, i + 1) == Some(done + [leg]);
      done := done + [leg];
    }
    return Some(done);
  }

  lemma {:induction false} NoLegs(legs: seq<ArbLeg>, scale: real, ticks: map<Id, real>, i: nat, n: nat)
    requires i <= n <= |legs| && NewLegs(legs, scale, ticks, i).None?
    ensures NewLegs(legs, scale, ticks, n).None?
  {
    hide NewQty, NewLeg;
    if i < n { NoLegs(legs, scale, ticks, i, n - 1); }
  }

  method Totals(legs: seq<ArbLeg>) returns (stake: real, payoff: real)
    requires legs != []
    ensures stake == TotalCost(legs, |legs|) && payoff == LeastQty(legs, |legs|)
  {
    stake, payoff := 0.0, legs[0].qty;
    for i := 0 to |legs|
      invariant stake == TotalCost(legs, i) && (i > 0 ==> payoff == LeastQty(legs, i)) && (i == 0 ==> payoff == legs[0].qty)
    {
      stake := stake + legs[i].Cost();
      payoff := Min(payoff, legs[i].qty);
    }
  }

  // ---- what a resized ticket guarantees -------------------------------------------------

  /** The legs of a ticket: nothing is sold, nothing is free of its own accord. */
  predicate Payable(legs: seq<ArbLeg>) { forall leg :: leg in legs ==> leg.price >= 0.0 && leg.fee >= 0.0 }

  lemma NewLegCosts(leg: ArbLeg, scale: real, ticks: map<Id, real>)
    requires leg.price >= 0.0 && leg.fee >= 0.0 && scale > 0.0 && NewQty(leg, scale, ticks) > 0.0
    ensures leg.qty > 0.0 && NewQty(leg, scale, ticks) <= leg.qty * scale
    ensures 0.0 <= NewLeg(leg, scale, ticks).Cost() <= leg.Cost() * scale
  {
    hide RoundDownTick;
    var q := NewQty(leg, scale, ticks);
    NewQtyBelow(leg, scale, ticks);
    PositiveFactor(leg.qty, scale);
    RescaledCost(leg.price, leg.qty, leg.fee, q, scale, q / leg.qty);
  }

  lemma NewQtyBelow(leg: ArbLeg, scale: real, ticks: map<Id, real>)
    requires NewQty(leg, scale, ticks) > 0.0
    ensures NewQty(leg, scale, ticks) <= leg.qty * scale
  {
    RoundedBelow(leg.qty * scale, At(ticks, leg.venue));
  }

  lemma PositiveFactor(q: real, scale: real)
    requires scale > 0.0 && q * scale > 0.0
    ensures q > 0.0
  {
  }

  lemma RoundedBelow(x: real, tick: real)
    ensures tick > 0.0 && RoundDownTick(x, tick) > 0.0 ==> 0.0 < RoundDownTick(x, tick) <= x
  {
  }

  lemma RescaledCost(price: real, qty: real, fee: real, q: real, scale: real, part: real)
    requires price >= 0.0 && fee >= 0.0 && qty > 0.0 && 0.0 < q <= qty * scale && scale > 0.0 && part == q / qty
    ensures 0.0 <= price * q + fee * part <= (price * qty + fee) * scale
  {
    assert part * qty == q;
    if part > scale { MulLt(scale, part, qty); assert scale * qty == qty * scale; }
    if part < 0.0 { MulLt(part, 0.0, qty); }
    MulLe(q, qty * scale, price);
    MulLe(part, scale, fee);
    MulNonNeg(price, q);
    MulNonNeg(fee, part);
    assert (price * qty + fee) * scale == (qty * scale) * price + scale * fee;
  }

  lemma {:induction false} NewCosts(legs: seq<ArbLeg>, more: seq<ArbLeg>, scale: real, ticks: map<Id, real>, v: Id, n: nat)
    requires n <= |legs| == |more| && Payable(legs) && scale > 0.0
    requires forall i :: 0 <= i < |legs| ==> more[i] == NewLeg(legs[i], scale, ticks) && NewQty(legs[i], scale, ticks) > 0.0
    ensures 0.0 <= VenueCost(more, v, n) <= VenueCost(legs, v, n) * scale
    ensures 0.0 <= TotalCost(more, n) <= TotalCost(legs, n) * scale
  {
    hide NewLeg, NewQty, ArbLeg.Cost;
    if n == 0 {
      assert 0.0 * scale == 0.0;
    } else {
      NewCosts(legs, more, scale, ticks, v, n - 1);
      assert legs[n - 1] in legs;
      NewLegCosts(legs[n - 1], scale, ticks);
      SameVenue(legs[n - 1], scale, ticks);
      Times(VenueCost(legs, v, n - 1), if legs[n - 1].venue == v then legs[n - 1].Cost() else 0.0, scale);
      Times(TotalCost(legs, n - 1), legs[n - 1].Cost(), scale);
    }
  }

  lemma SameVenue(leg: ArbLeg, scale: real, ticks: map<Id, real>)
    ensures NewLeg(leg, scale, ticks).venue == leg.venue
  {
  }

  lemma Times(a: real, b: real, scale: real)
    ensures (a + b) * scale == a * scale + b * scale
  {
  }

  lemma {:induction false} LeastIsLeast(legs: seq<ArbLeg>, n: nat, k: nat)
    requires k < n <= |legs|
    ensures LeastQty(legs, n) <= legs[k].qty
  {
    if n > 1 && k < n - 1 { LeastIsLeast(legs, n - 1, k); }
  }

  /** A resized ticket costs no venue more than its bankroll, keeps the same legs at
      the same prices, and still pays at least its stake and profit whichever leg
      wins. */
  lemma ResizedWithinBankrolls(opp: Opportunity, bank: map<Id, real>, ticks: map<Id, real>, k: nat)
    requires Payable(opp.legs) && SizedTo(opp, bank, ticks).Sized? && k < |opp.legs|
    ensures var r := SizedTo(opp, bank, ticks).opp;
      && |r.legs| == |opp.legs|
      && r.legs[k] == opp.legs[k].(qty := r.legs[k].qty, fee := r.legs[k].fee) && r.legs[k].qty > 0.0
      && VenueCost(r.legs, opp.legs[k].venue, |r.legs|) <= At(bank, opp.legs[k].venue)
      && r.stake == TotalCost(r.legs, |r.legs|)
      && r.profit > 0.0 && r.legs[k].qty >= r.stake + r.profit
  {
    hide NewQty, ScaleOf, VenueCost, TotalCost, LeastQty;
    var r, scale := SizedTo(opp, bank, ticks).opp, ScaleOf(opp.legs, bank, |opp.legs|).value;
    var v := opp.legs[k].venue;
    ScaleReads(opp.legs, bank, |opp.legs|);
    ScalePositive(opp.legs, bank, |opp.legs|);
    NewCosts(opp.legs, r.legs, scale, ticks, v, |opp.legs|);
    WithinBank(VenueCost(opp.legs, v, |opp.legs|), At(bank, v), scale);
    LeastIsLeast(r.legs, |r.legs|, k);
  }

  lemma WithinBank(cost: real, bank: real, scale: real)
    requires cost > 0.0 && scale <= bank / cost
    ensures cost * scale <= bank
  {
  }

  // ---- what resizing comes to ---------------------------------------------------------------

  /** What a ticket asks of one venue, and what it asks in all. */
  ghost function Asked(legs: seq<ArbLeg>, v: Id): real {
    if legs == [] then 0.0
    else (if legs[0].venue == v then legs[0].price * legs[0].qty + legs[0].fee else 0.0) + Asked(legs[1..], v)
  }

  ghost function AskedInAll(legs: seq<ArbLeg>): real {
    if legs == [] then 0.0 else legs[0].price * legs[0].qty + legs[0].fee + AskedInAll(legs[1..])
  }

  lemma {:induction false} AskedSnoc(legs: seq<ArbLeg>, leg: ArbLeg, v: Id)
    ensures Asked(legs + [leg], v) == Asked(legs, v) + (if leg.venue == v then leg.Cost() else 0.0)
    ensures AskedInAll(legs + [leg]) == AskedInAll(legs) + leg.Cost()
  {
    if legs == [] {
      assert legs + [leg] == [leg];
    } else {
      assert (legs + [leg])[1..] == legs[1..] + [leg];
      AskedSnoc(legs[1..], leg, v);
    }
  }

  lemma {:induction false} CostIsAsked(legs: seq<ArbLeg>, v: Id, n: nat)
    requires n <= |legs|
    ensures VenueCost(legs, v, n) == Asked(legs[..n], v) && TotalCost(legs, n) == AskedInAll(legs[..n])
  {
    hide ArbLeg.Cost;
    if n > 0 {
      CostIsAsked(legs, v, n - 1);
      assert legs[..n] == legs[..n - 1] + [legs[n - 1]];
      AskedSnoc(legs[..n - 1], legs[n - 1], v);
    }
  }

  lemma CostsAreAsked(legs: seq<ArbLeg>)
    ensures TotalCost(legs, |legs|) == AskedInAll(legs) && forall v :: VenueCost(legs, v, |legs|) == Asked(legs, v)
  {
    assert legs[..|legs|] == legs;
    CostIsAsked(legs, 0, |legs|);
    forall v ensures VenueCost(legs, v, |legs|) == Asked(legs, v) { CostIsAsked(legs, v, |legs|); }
  }

  /** The scale at which every venue's part is within its bankroll and some
      venue's takes all of it. */
  ghost predicate Tightest(legs: seq<ArbLeg>, bank: map<Id, real>, s: real) {
    && s > 0.0
    && (forall leg :: leg in legs ==> s * Asked(legs, leg.venue) <= At(bank, leg.venue))
    && exists leg :: leg in legs && s * Asked(legs, leg.venue) == At(bank, leg.venue)
  }

  /** No tick fits in a leg's scaled size. */
  predicate Vanishes(leg: ArbLeg, s: real, tick: real) { if tick > 0.0 then leg.qty * s < tick else leg.qty * s <= 0.0 }

  /** A leg at the largest tick multiple within its scaled size, its fee in
      proportion, and otherwise as it was. */
  ghost predicate Scaled(leg: ArbLeg, more: ArbLeg, s: real, tick: real) {
    && more == leg.(qty := more.qty, fee := more.fee)
    && 0.0 < more.qty <= leg.qty * s
    && (tick <= 0.0 ==> more.qty == leg.qty * s)
    && (tick > 0.0 ==> Multiple(more.qty, tick) && forall k: int :: Ticks(k, tick) <= leg.qty * s ==> Ticks(k, tick) <= more.qty)
    && more.fee * leg.qty == leg.fee * more.qty
  }

  ghost predicate AllScaled(legs: seq<ArbLeg>, more: seq<ArbLeg>, s: real, ticks: map<Id, real>) {
    |more| == |legs| && forall i :: 0 <= i < |legs| ==> Scaled(legs[i], more[i], s, At(ticks, legs[i].venue))
  }

  /** The ticket of these legs, if its least size pays more than they ask. */
  ghost predicate Priced(group: Id, legs: seq<ArbLeg>, r: Sizing) {
    var stake := AskedInAll(legs);
    if exists leg :: leg in legs && leg.qty <= stake then r.TooSmall?
    else if stake == 0.0 then r.Raised?
    else
      && r.Sized? && r.opp.group == group && r.opp.legs == legs && r.opp.stake == stake
      && (forall leg :: leg in legs ==> leg.qty >= stake + r.opp.profit)
      && (exists leg :: leg in legs && leg.qty == stake + r.opp.profit)
      && r.opp.bps * stake == r.opp.profit * 10000.0
  }

  /** A ticket resized at one scale. */
  ghost predicate ResizedAt(opp: Opportunity, s: real, ticks: map<Id, real>, r: Sizing) {
    if exists leg :: leg in opp.legs && Vanishes(leg, s, At(ticks, leg.venue)) then r.TooSmall?
    else exists legs :: AllScaled(opp.legs, legs, s, ticks) && Priced(opp.group, legs, r)
  }

  lemma NewLegScales(leg: ArbLeg, s: real, ticks: map<Id, real>)
    requires s > 0.0
    ensures NewQty(leg, s, ticks) <= 0.0 <==> Vanishes(leg, s, At(ticks, leg.venue))
    ensures NewQty(leg, s, ticks) > 0.0 ==> Scaled(leg, NewLeg(leg, s, ticks), s, At(ticks, leg.venue))
  {
    hide RoundDownTick, Multiple, NewQty, Vanishes;
    var x, tick := leg.qty * s, At(ticks, leg.venue);
    SizeReads(leg, s, ticks, x);
    if tick > 0.0 {
      RoundsToNothing(x, tick);
      if x >= tick { RoundDownLargest(x, tick); }
    }
    if NewQty(leg, s, ticks) > 0.0 {
      var q := NewQty(leg, s, ticks);
      PositiveFactor(leg.qty, s);
      ProportionalFee(leg.fee, leg.qty, q);
    }
  }

  lemma SizeReads(leg: ArbLeg, s: real, ticks: map<Id, real>, x: real)
    requires x == leg.qty * s
    ensures NewQty(leg, s, ticks) == if At(ticks, leg.venue) > 0.0 then RoundDownTick(x, At(ticks, leg.venue)) else x
    ensures Vanishes(leg, s, At(ticks, leg.venue)) <==> if At(ticks, leg.venue) > 0.0 then x < At(ticks, leg.venue) else x <= 0.0
  {
    hide RoundDownTick;
  }

  lemma RoundsToNothing(x: real, tick: real)
    requires tick > 0.0
    ensures RoundDownTick(x, tick) <= 0.0 <==> x < tick
  {
    assert Ticks(1, tick) == tick;
    if x >= 0.0 {
      RoundDownLargest(x, tick);
      if x < tick { assert x / tick < 1.0; }
    } else {
      RoundsTowardZero(-x, tick);
      RoundDownLargest(-x, tick);
    }
  }

  lemma ProportionalFee(fee: real, qty: real, q: real)
    requires qty > 0.0
    ensures fee * (q / qty) * qty == fee * q
  {
    var part := q / qty;
    assert part * qty == q;
    assert fee * part * qty == fee * (part * qty);
  }

  lemma {:induction false} NewLegsVanish(legs: seq<ArbLeg>, s: real, ticks: map<Id, real>, n: nat)
    requires n <= |legs|
    ensures NewLegs(legs, s, ticks, n).None? <==> exists i :: 0 <= i < n && NewQty(legs[i], s, ticks) <= 0.0
  {
    hide NewQty;
    if n > 0 { NewLegsVanish(legs, s, ticks, n - 1); }
  }

  lemma {:induction false} LeastIsAttained(legs: seq<ArbLeg>, n: nat) returns (k: nat)
    requires 0 < n <= |legs|
    ensures k < n && legs[k].qty == LeastQty(legs, n) && forall i :: 0 <= i < n ==> LeastQty(legs, n) <= legs[i].qty
  {
    if n == 1 { k := 0; } else {
      k := LeastIsAttained(legs, n - 1);
      if legs[n - 1].qty < legs[k].qty { k := n - 1; }
    }
  }

  /** Resizing at whatever scale the bankrolls give. */
  lemma SizedAt(opp: Opportunity, bank: map<Id, real>, ticks: map<Id, real>)
    requires opp.legs != [] && ScaleOf(opp.legs, bank, |opp.legs|).Some?
    ensures ResizedAt(opp, ScaleOf(opp.legs, bank, |opp.legs|).value, ticks, SizedTo(opp, bank, ticks))
  {
    hide NewQty, NewLeg, NewLegs, LeastQty, TotalCost, ScaleOf, Scaled, Vanishes;
    var s := ScaleOf(opp.legs, bank, |opp.legs|).value;
    ScalePositive(opp.legs, bank, |opp.legs|);
    forall i | 0 <= i < |opp.legs|
      ensures NewQty(opp.legs[i], s, ticks) <= 0.0 <==> Vanishes(opp.legs[i], s, At(ticks, opp.legs[i].venue))
      ensures NewQty(opp.legs[i], s, ticks) > 0.0 ==> Scaled(opp.legs[i], NewLeg(opp.legs[i], s, ticks), s, At(ticks, opp.legs[i].venue))
    {
      NewLegScales(opp.legs[i], s, ticks);
    }
    NewLegsVanish(opp.legs, s, ticks, |opp.legs|);
    var made := NewLegs(opp.legs, s, ticks, |opp.legs|);
    if made.Some? {
      assert AllScaled(opp.legs, made.value, s, ticks);
      CostsAreAsked(made.value);
      PricedAsMade(opp, made.value, SizedTo(opp, bank, ticks));
    }
  }

  lemma PricedAsMade(opp: Opportunity, legs: seq<ArbLeg>, r: Sizing)
    requires legs != []
    requires var stake := AskedInAll(legs);
      var profit := LeastQty(legs, |legs|) - stake;
      r == if profit <= 0.0 then TooSmall
           else if stake == 0.0 then Raised
           else Sized(Opportunity(opp.group, legs, stake, profit, profit / stake * 10000.0))
    ensures Priced(opp.group, legs, r)
  {
    hide LeastQty, AskedInAll;
    var k := LeastIsAttained(legs, |legs|);
    var stake := AskedInAll(legs);
    var profit := LeastQty(legs, |legs|) - stake;
    assert legs[k] in legs;
    if profit > 0.0 && stake != 0.0 { PerStake(profit, stake); }
  }

  lemma PerStake(profit: real, stake: real)
    requires stake != 0.0
    ensures profit / stake * 10000.0 * stake == profit * 10000.0
  {
    var part := profit / stake;
    assert part * stake == profit;
  }

  /** What resizing to bankrolls comes to: nothing when some venue of the ticket has
      no bankroll or is asked for nothing, and otherwise the ticket at the scale that
      stretches the tightest bankroll exactly, each leg rounded down to its venue's
      tick, as long as every leg keeps a size and the least of them pays more than
      they ask together. */
  lemma SizedExactly(opp: Opportunity, bank: map<Id, real>, ticks: map<Id, real>)
    ensures var r := SizedTo(opp, bank, ticks);
      if opp.legs == [] || exists leg :: leg in opp.legs && (At(bank, leg.venue) <= 0.0 || Asked(opp.legs, leg.venue) <= 0.0) then r == TooSmall
      else exists s :: Tightest(opp.legs, bank, s) && ResizedAt(opp, s, ticks, r)
  {
    if opp.legs != [] {
      hide Tightest, ResizedAt, SizedTo, Asked;
      ScaleIsTightest(opp.legs, bank);
      if ScaleOf(opp.legs, bank, |opp.legs|).None? { UnscaledTooSmall(opp, bank, ticks); } else { SizedAt(opp, bank, ticks); }
    }
  }

  lemma ScaleIsTightest(legs: seq<ArbLeg>, bank: map<Id, real>)
    requires legs != []
    ensures var s := ScaleOf(legs, bank, |legs|);
      && (s.None? <==> exists leg :: leg in legs && (At(bank, leg.venue) <= 0.0 || Asked(legs, leg.venue) <= 0.0))
      && (s.Some? ==> Tightest(legs, bank, s.value))
  {
    hide ScaleOf, Stretch, Asked, At;
    var n, scale := |legs|, ScaleOf(legs, bank, |legs|);
    ScaleReads(legs, bank, n);
    ScalePositive(legs, bank, n);
    forall i | 0 <= i < n
      ensures legs[i] in legs
      ensures Stretch(legs, bank, legs[i].venue).None? <==> At(bank, legs[i].venue) <= 0.0 || Asked(legs, legs[i].venue) <= 0.0
      ensures scale.Some? ==> scale.value * Asked(legs, legs[i].venue) <= At(bank, legs[i].venue)
      ensures scale.Some? && Stretch(legs, bank, legs[i].venue) == scale ==> scale.value * Asked(legs, legs[i].venue) == At(bank, legs[i].venue)
    {
      StretchReads(legs, bank, legs[i].venue, if scale.Some? then scale.value else 0.0);
    }
  }

  lemma StretchReads(legs: seq<ArbLeg>, bank: map<Id, real>, v: Id, s: real)
    ensures var here := Stretch(legs, bank, v);
      && (here.None? <==> At(bank, v) <= 0.0 || Asked(legs, v) <= 0.0)
      && (here.Some? && s <= here.value ==> s * Asked(legs, v) <= At(bank, v))
      && (here.Some? && s == here.value ==> s * Asked(legs, v) == At(bank, v))
  {
    CostsAreAsked(legs);
    hide Asked, VenueCost, At;
    var cost, funds := Asked(legs, v), At(bank, v);
    if cost > 0.0 {
      if s <= funds / cost { WithinBank(cost, funds, s); }
      AllOfIt(cost, funds);
    }
  }

  lemma AllOfIt(cost: real, bank: real)
    requires cost > 0.0
    ensures bank / cost * cost == bank
  {
  }

  lemma UnscaledTooSmall(opp: Opportunity, bank: map<Id, real>, ticks: map<Id, real>)
    requires opp.legs != [] && ScaleOf(opp.legs, bank, |opp.legs|).None?
    ensures SizedTo(opp, bank, ticks) == TooSmall
  {
    hide ScaleOf;
  }

  // ---- a total stake ----------------------------------------------------------------------

  function CappedTo(opp: Opportunity, maxStake: real, ticks: map<Id, real>): Sizing {
    if opp.stake <= 0.0 || maxStake <= 0.0 then TooSmall
    else if opp.stake <= maxStake then Sized(opp)
    else SizedTo(opp, Shares(opp.legs, maxStake / opp.stake), ticks)
  }

  /** Each venue's part of the ticket, scaled. */
  function Shares(legs: seq<ArbLeg>, scale: real): map<Id, real> {
    map v | v in (set leg | leg in legs :: leg.venue) :: Part(VenueCost(legs, v, |legs|), scale)
  }

  function Parts(costs: map<Id, real>, scale: real): map<Id, real> { map v | v in costs :: Part(costs[v], scale) }

  function Part(cost: real, scale: real): real { cost * scale }

  method SizeToMaxStake(opp: Opportunity, maxStake: real, ticks: map<Id, real>) returns (r: Sizing)
    ensures r == CappedTo(opp, maxStake, ticks)
  {
    hide VenueCost, SizedTo, Shares, Parts;
    if opp.stake <= 0.0 || maxStake <= 0.0 {
      return TooSmall;
    }
    if opp.stake <= maxStake {
      return Sized(opp);
    }
    var scale := maxStake / opp.stake;
    var costs := CostPerVenue(opp.legs);
    SharesAre(opp.legs, costs, scale);
    r := SizeToBankroll(opp, Parts(costs, scale), ticks);
  }

  lemma SharesAre(legs: seq<ArbLeg>, costs: map<Id, real>, scale: real)
    requires forall v :: v in costs <==> exists i :: 0 <= i < |legs| && legs[i].venue == v
    requires forall v :: v in costs ==> costs[v] == VenueCost(legs, v, |legs|)
    ensures Parts(costs, scale) == Shares(legs, scale)
  {
  }

  /** A ticket capped to a stake never costs more than it. */
  lemma CappedWithinStake(opp: Opportunity, maxStake: real, ticks: map<Id, real>)
    requires Payable(opp.legs) && opp.stake == TotalCost(opp.legs, |opp.legs|)
    requires CappedTo(opp, maxStake, ticks).Sized?
    ensures CappedTo(opp, maxStake, ticks).opp.stake <= maxStake
  {
    hide NewQty, ScaleOf, VenueCost, TotalCost, LeastQty, Shares, Stretch;
    if opp.stake > maxStake {
      var s := maxStake / opp.stake;
      var bank := Shares(opp.legs, s);
      var r, scale := SizedTo(opp, bank, ticks).opp, ScaleOf(opp.legs, bank, |opp.legs|).value;
      ScaleReads(opp.legs, bank, |opp.legs|);
      ScalePositive(opp.legs, bank, |opp.legs|);
      SharesStretch(opp.legs, s, opp.legs[0].venue);
      NewCosts(opp.legs, r.legs, scale, ticks, 0, |opp.legs|);
      WithinBank(opp.stake, maxStake, scale);
    }
  }

  /** What capping to a stake comes to: nothing without a stake or a cap, the same
      ticket within it, and otherwise the ticket at the cap's share of what it asks,
      rounded and checked as any resized one. */
  lemma CappedExactly(opp: Opportunity, maxStake: real, ticks: map<Id, real>)
    requires opp.stake == AskedInAll(opp.legs)
    requires forall leg :: leg in opp.legs ==> Asked(opp.legs, leg.venue) > 0.0
    ensures var r := CappedTo(opp, maxStake, ticks);
      if opp.stake <= 0.0 || maxStake <= 0.0 then r == TooSmall
      else if opp.stake <= maxStake then r == Sized(opp)
      else ResizedAt(opp, maxStake / opp.stake, ticks, r)
  {
    if opp.stake > maxStake > 0.0 {
      var s, legs := maxStake / opp.stake, opp.legs;
      var bank := Shares(legs, s);
      CostsAreAsked(legs);
      hide VenueCost, Asked, AskedInAll, Shares, SizedTo, ResizedAt, Stretch;
      forall leg | leg in legs ensures Stretch(legs, bank, leg.venue) == Some(s) { ShareStretches(legs, s, leg); }
      assert legs[0] in legs;
      assert Stretch(legs, bank, legs[0].venue) == Some(s);
      ScaleIsLeast(legs, bank, |legs|, s);
      SizedAt(opp, bank, ticks);
    }
  }

  lemma ShareStretches(legs: seq<ArbLeg>, s: real, leg: ArbLeg)
    requires leg in legs && VenueCost(legs, leg.venue, |legs|) > 0.0 && s > 0.0
    ensures Stretch(legs, Shares(legs, s), leg.venue) == Some(s)
  {
    hide VenueCost;
    var cost := VenueCost(legs, leg.venue, |legs|);
    assert At(Shares(legs, s), leg.venue) == cost * s;
    PositiveShare(cost, s);
  }

  lemma PositiveShare(cost: real, s: real)
    requires cost > 0.0 && s > 0.0
    ensures cost * s > 0.0 && cost * s / cost == s
  {
  }

  lemma SharesStretch(legs: seq<ArbLeg>, s: real, v: Id)
    ensures Stretch(legs, Shares(legs, s), v).Some? ==> Stretch(legs, Shares(legs, s), v).value == s
  {
  }
}
