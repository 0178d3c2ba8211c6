/** How many contracts of an arbitrage are actually tradeable. */
module Qty {
  import opened Common

  const LEGACY_UNBOUNDED_QTY := 100.0

  /** Decimal quantisation with ROUND_DOWN: truncation toward zero. */
  function Truncate(x: real): int { if x >= 0.0 then x.Floor else -((-x).Floor) }

  function RoundDownTick(value: real, tick: real): real {
    if tick <= 0.0 then value else (Truncate(value / tick) as real) * tick
  }

  function KnownMin(depths: seq<Option<real>>): Option<real> {
    if depths == [] then None
    else
      match (depths[0], KnownMin(depths[1..]))
      case (None, rest) => rest
      case (Some(d), None) => Some(d)
      case (Some(d), Some(e)) => Some(Min(d, e))
  }

  function TradeableQty(unitCost: real, depths: seq<Option<real>>, maxStake: Option<real>, tick: real): real {
    if exists i :: 0 <= i < |depths| && depths[i].Some? && depths[i].value <= 0.0 then 0.0
    else
      var known := KnownMin(depths);
      var capped :=
        if maxStake.Some? && maxStake.value > 0.0 && unitCost > 0.0 then
          var budget := maxStake.value / unitCost;
          Some(if known.None? then budget else Min(known.value, budget))
        else known;
      var raw := if capped.None? then LEGACY_UNBOUNDED_QTY else capped.value;
      var qty := if tick > 0.0 then RoundDownTick(raw, tick) else raw;
      if qty > 0.0 then qty else 0.0
  }

  /** Quantities the book and the budget allow. With neither, the legacy
      ceiling stands in. */
  ghost predicate Affordable(q: real, unitCost: real, depths: seq<Option<real>>, maxStake: Option<real>) {
    && (forall i :: 0 <= i < |depths| && depths[i].Some? ==> q <= depths[i].value)
    && (Budgeted(unitCost, maxStake) ==> unitCost * q <= maxStake.value)
    && (!Budgeted(unitCost, maxStake) && (forall i :: 0 <= i < |depths| ==> depths[i].None?)
        ==> q <= LEGACY_UNBOUNDED_QTY)
  }

  predicate Budgeted(unitCost: real, maxStake: Option<real>) {
    maxStake.Some? && maxStake.value > 0.0 && unitCost > 0.0
  }

  function Ticks(k: int, tick: real): real { (k as real) * tick }

  ghost predicate Multiple(q: real, tick: real) { exists k: int :: q == Ticks(k, tick) }

  lemma {:induction false} KnownMinIsMin(depths: seq<Option<real>>)
    ensures KnownMin(depths).None? <==> forall i :: 0 <= i < |depths| ==> depths[i].None?
    ensures KnownMin(depths).Some? ==>
              && Some(KnownMin(depths).value) in depths
              && forall i :: 0 <= i < |depths| && depths[i].Some? ==> KnownMin(depths).value <= depths[i].value
  {
    if depths != [] {
      KnownMinIsMin(depths[1..]);
      assert depths == [depths[0]] + depths[1..];
    }
  }

  lemma RoundDownLargest(x: real, tick: real)
    requires x >= 0.0 && tick > 0.0
    ensures 0.0 <= RoundDownTick(x, tick) <= x
    ensures Multiple(RoundDownTick(x, tick), tick)
    ensures forall k: int :: Ticks(k, tick) <= x ==> Ticks(k, tick) <= RoundDownTick(x, tick)
  {
    var y := x / tick;
    assert y * tick == x;
    FloorTicks(x, tick, y);
    assert RoundDownTick(x, tick) == Ticks(y.Floor, tick);
    forall k: int | Ticks(k, tick) <= x
      ensures Ticks(k, tick) <= RoundDownTick(x, tick)
    {
      TicksAbove(x, tick, y, k);
    }
  }

  /** Rounding is toward zero on either side of it. */
  lemma RoundsTowardZero(x: real, tick: real)
    requires tick > 0.0
    ensures RoundDownTick(-x, tick) == -RoundDownTick(x, tick)
  {
    assert (-x) / tick == -(x / tick);
    OppositeTicks(Truncate(x / tick), tick);
  }

  lemma OppositeTicks(k: int, tick: real)
    ensures ((-k) as real) * tick == -((k as real) * tick)
  {
  }

  lemma FloorTicks(x: real, tick: real, y: real)
    requires tick > 0.0 && y >= 0.0 && y * tick == x
    ensures 0.0 <= Ticks(y.Floor, tick) <= x
  {
  }

  lemma TicksAbove(x: real, tick: real, y: real, k: int)
    requires tick > 0.0 && y >= 0.0 && y * tick == x && Ticks(k, tick) <= x
    ensures Ticks(k, tick) <= Ticks(y.Floor, tick)
  {
    if k > y.Floor {
      MulLt(y, k as real, tick);
    } else {
      MulLe(k as real, y.Floor as real, tick);
    }
  }

  /** The size before rounding: the binding one of depth, budget and the legacy
      ceiling. */
  ghost function RawQty(unitCost: real, depths: seq<Option<real>>, maxStake: Option<real>): real {
    var known := KnownMin(depths);
    if Budgeted(unitCost, maxStake) then
      var budget := maxStake.value / unitCost;
      if known.None? then budget else Min(known.value, budget)
    else if known.None? then LEGACY_UNBOUNDED_QTY else known.value
  }

  lemma BudgetIffQuotient(q: real, unitCost: real, budget: real)
    requires unitCost > 0.0
    ensures unitCost * q <= budget <==> q <= budget / unitCost
  {
  }

  lemma AffordableIffRaw(q: real, unitCost: real, depths: seq<Option<real>>, maxStake: Option<real>)
    ensures Affordable(q, unitCost, depths, maxStake) <==> q <= RawQty(unitCost, depths, maxStake)
  {
    KnownMinIsMin(depths);
    if Budgeted(unitCost, maxStake) {
      BudgetIffQuotient(q, unitCost, maxStake.value);
    }
    var known := KnownMin(depths);
    if known.Some? {
      var i :| 0 <= i < |depths| && depths[i] == Some(known.value);
      assert depths[i].Some?;
    }
  }

  /** The size is zero when a leg is known empty; otherwise it is the largest
      tick multiple (any size at all without a tick) that the book and the
      budget allow. */
  lemma TradeableQtyIsLargest(unitCost: real, depths: seq<Option<real>>, maxStake: Option<real>, tick: real)
    ensures
      var q := TradeableQty(unitCost, depths, maxStake, tick);
      var empty := exists i :: 0 <= i < |depths| && depths[i].Some? && depths[i].value <= 0.0;
      && q >= 0.0
      && (empty ==> q == 0.0)
      && (!empty ==> Affordable(q, unitCost, depths, maxStake))
      && (!empty && tick > 0.0 ==> Multiple(q, tick))
      && (!empty && tick > 0.0 ==> forall k: int :: Affordable(Ticks(k, tick), unitCost, depths, maxStake) ==> Ticks(k, tick) <= q)
      && (!empty && tick <= 0.0 ==> forall x: real :: Affordable(x, unitCost, depths, maxStake) ==> x <= q)
  {
    var q := TradeableQty(unitCost, depths, maxStake, tick);
    if !exists i :: 0 <= i < |depths| && depths[i].Some? && depths[i].value <= 0.0 {
      KnownMinIsMin(depths);
      var raw := RawQty(unitCost, depths, maxStake);
      assert raw > 0.0 by {
        if Budgeted(unitCost, maxStake) { assert maxStake.value / unitCost > 0.0; }
        var known := KnownMin(depths);
        if known.Some? {
          var i :| 0 <= i < |depths| && depths[i] == Some(known.value);
          assert depths[i].Some?;
        }
      }
      AffordableIffRaw(q, unitCost, depths, maxStake);
      if tick > 0.0 {
        RoundDownLargest(raw, tick);
        assert q == RoundDownTick(raw, tick);
        forall k: int | Affordable(Ticks(k, tick), unitCost, depths, maxStake)
          ensures Ticks(k, tick) <= q
        {
          AffordableIffRaw(Ticks(k, tick), unitCost, depths, maxStake);
        }
      } else {
        forall x: real | Affordable(x, unitCost, depths, maxStake)
          ensures x <= q
        {
          AffordableIffRaw(x, unitCost, depths, maxStake);
        }
      }
    }
  }

  /** The size a book, a budget and a tick call for. */
  ghost predicate IsSize(q: real, unitCost: real, depths: seq<Option<real>>, maxStake: Option<real>, tick: real) {
    if exists d :: d in depths && d.Some? && d.value <= 0.0 then q == 0.0
    else
      && Affordable(q, unitCost, depths, maxStake)
      && (if tick > 0.0 then Multiple(q, tick) && forall k: int :: Affordable(Ticks(k, tick), unitCost, depths, maxStake) ==> Ticks(k, tick) <= q
          else forall x: real :: Affordable(x, unitCost, depths, maxStake) ==> x <= q)
  }

  lemma TradeableIsSize(unitCost: real, depths: seq<Option<real>>, maxStake: Option<real>, tick: real)
    ensures IsSize(TradeableQty(unitCost, depths, maxStake, tick), unitCost, depths, maxStake, tick)
  {
    hide TradeableQty, Affordable, Multiple;
    TradeableQtyIsLargest(unitCost, depths, maxStake, tick);
    if d :| d in depths && d.Some? && d.value <= 0.0 {
      var i :| 0 <= i < |depths| && depths[i] == d;
    }
  }

  /** What a size costs at a unit cost. */
  function Spend(unitCost: real, q: real): real { unitCost * q }

  /** A size above zero is within each known depth and costs no more than the
      budget, whatever a contract costs. */
  lemma SizeWithinLimits(unitCost: real, depths: seq<Option<real>>, maxStake: Option<real>, tick: real, k: nat)
    requires unitCost >= 0.0 && k < |depths| && TradeableQty(unitCost, depths, maxStake, tick) > 0.0
    ensures var q := TradeableQty(unitCost, depths, maxStake, tick);
      && (depths[k].Some? ==> q <= depths[k].value)
      && (maxStake.Some? && maxStake.value > 0.0 ==> Spend(unitCost, q) <= maxStake.value)
  {
    hide TradeableQty;
    TradeableQtyIsLargest(unitCost, depths, maxStake, tick);
    if unitCost == 0.0 { ZeroTimes(TradeableQty(unitCost, depths, maxStake, tick)); }
  }
}
