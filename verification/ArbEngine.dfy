/** Arbitrage detection over one event group's quotes. */
module ArbEngine {
  import opened Common
  import opened Types
  import opened Fees
  import opened Qty

  const DEFAULT_QTY_TICK := 0.01

  datatype Settings = Settings(maxStake: Option<real>, minQty: real, ticks: map<Id, real>)

  /** What the detectors read: fresh quotes by outcome, fee models by venue. */
  datatype Market = Market(quotes: map<Id, Quote>, fees: Registry)
  {
    ghost predicate Valid() {
      && (forall o :: o in quotes ==> quotes[o].Valid())
      && (forall v :: v in fees ==> fees[v].Valid())
    }

    predicate Priced(leg: Leg) { leg.outcome in quotes && leg.venue in fees }

    function Ask(leg: Leg): real
      requires Priced(leg)
    {
      quotes[leg.outcome].ask
    }

    function Depth(leg: Leg): Option<real>
      requires Priced(leg)
    {
      quotes[leg.outcome].askSize
    }

    function UnitCost(leg: Leg): real
      requires Priced(leg)
    {
      fees[leg.venue].UnitCost(Ask(leg))
    }

    function Fee(leg: Leg, qty: real): real
      requires Priced(leg)
    {
      fees[leg.venue].Fee(Ask(leg), qty)
    }
  }

  /** Raised: the per-cent return of a ticket that costs nothing divides by zero. */
  datatype Detection = Nothing | Found(opp: Opportunity) | Raised

  function TickOf(s: Settings, v: Id): real { if v in s.ticks then s.ticks[v] else DEFAULT_QTY_TICK }

  function PairQty(m: Market, s: Settings, y: Leg, n: Leg): real
    requires m.Priced(y) && m.Priced(n)
  {
    TradeableQty(m.UnitCost(y) + m.UnitCost(n), [m.Depth(y), m.Depth(n)], s.maxStake,
                 Max(TickOf(s, y.venue), TickOf(s, n.venue)))
  }

  function PairEdge(m: Market, y: Leg, n: Leg): real
    requires m.Priced(y) && m.Priced(n)
  {
    1.0 - (m.UnitCost(y) + m.UnitCost(n))
  }

  /** A pair worth a ticket: a yes and a no on different venues, both priced,
      cheaper together than the contract that pays, with a size to trade. */
  predicate Admissible(m: Market, s: Settings, y: Leg, n: Leg) {
    && y.isYes && !n.isYes
    && y.venue != n.venue
    && m.Priced(y) && m.Priced(n)
    && PairEdge(m, y, n) > 0.0
    && PairQty(m, s, y, n) > 0.0
    && PairQty(m, s, y, n) >= s.minQty
  }

  function PairStake(m: Market, s: Settings, y: Leg, n: Leg): real
    requires m.Priced(y) && m.Priced(n)
  {
    var qty := PairQty(m, s, y, n);
    m.Ask(y) * qty + m.Ask(n) * qty + m.Fee(y, qty) + m.Fee(n, qty)
  }

  function PairProfit(m: Market, s: Settings, y: Leg, n: Leg): real
    requires m.Priced(y) && m.Priced(n)
  {
    PairQty(m, s, y, n) - PairStake(m, s, y, n)
  }

  function PairTicket(group: Id, m: Market, s: Settings, y: Leg, n: Leg): Opportunity
    requires m.Priced(y) && m.Priced(n) && PairStake(m, s, y, n) != 0.0
  {
    var qty := PairQty(m, s, y, n);
    Opportunity(group,
                [ArbLeg(y.outcome, y.venue, true, m.Ask(y), qty, m.Fee(y, qty)),
                 ArbLeg(n.outcome, n.venue, true, m.Ask(n), qty, m.Fee(n, qty))],
                PairStake(m, s, y, n), PairProfit(m, s, y, n),
                PairProfit(m, s, y, n) / PairStake(m, s, y, n) * 10000.0)
  }

  /** Pairs are tried yes leg by yes leg, each against every no leg in order. */
  predicate Before(a: nat, b: nat, i: nat, j: nat) { a < i || (a == i && b < j) }

  ghost predicate AdmissibleAt(legs: seq<Leg>, m: Market, s: Settings, i: nat, j: nat) {
    i < |legs| && j < |legs| && Admissible(m, s, legs[i], legs[j])
  }

  /** The most profitable admissible pair, and the first among equals. */
  ghost predicate BestAt(legs: seq<Leg>, m: Market, s: Settings, i: nat, j: nat) {
    && AdmissibleAt(legs, m, s, i, j)
    && forall a: nat, b: nat :: AdmissibleAt(legs, m, s, a, b) ==>
         && PairProfit(m, s, legs[a], legs[b]) <= PairProfit(m, s, legs[i], legs[j])
         && (Before(a, b, i, j) ==> PairProfit(m, s, legs[a], legs[b]) < PairProfit(m, s, legs[i], legs[j]))
  }

  ghost predicate Free(legs: seq<Leg>, m: Market, s: Settings, i: nat, j: nat) {
    AdmissibleAt(legs, m, s, i, j) && PairStake(m, s, legs[i], legs[j]) == 0.0
  }

  /** What the cross-venue detector returns: it raises when some admissible pair
      costs nothing, finds nothing when none is admissible, and otherwise
      returns the first best pair's ticket. */
  ghost predicate Detected(group: Id, legs: seq<Leg>, m: Market, s: Settings, r: Detection) {
    && (r.Raised? <==> exists i: nat, j: nat :: Free(legs, m, s, i, j))
    && (r.Nothing? <==> forall i: nat, j: nat :: !AdmissibleAt(legs, m, s, i, j))
    && (r.Found? ==> exists i: nat, j: nat ::
          BestAt(legs, m, s, i, j) && PairStake(m, s, legs[i], legs[j]) != 0.0 && r.opp == PairTicket(group, m, s, legs[i], legs[j]))
  }

  method DetectCrossVenueTwoLeg(group: Id, legs: seq<Leg>, m: Market, s: Settings) returns (r: Detection)
    ensures Detected(group, legs, m, s, r)
  {
    hide *;
    r := Nothing;
    ghost var bi: nat, bj: nat := 0, 0;
    ScanNothing(group, legs, m, s);
    for i := 0 to |legs|
      invariant !r.Raised? && Scanned(group, legs, m, s, r, i, 0, bi, bj)
    {
      for j := 0 to |legs|
        invariant !r.Raised? && Scanned(group, legs, m, s, r, i, j, bi, bj)
      {
        var t := TryPair(group, m, s, legs[i], legs[j]);
        if t.Raised? {
          ScanRaised(group, legs, m, s, i, j);
          return Raised;
        }
        if t.Found? && (r.Nothing? || t.opp.profit > r.opp.profit) {
          ScanTakes(group, legs, m, s, r, t.opp, i, j, bi, bj);
          r, bi, bj := t, i, j;
        } else {
          ScanKeeps(group, legs, m, s, r, t, i, j, bi, bj);
        }
      }
      ScanRow(group, legs, m, s, r, i, bi, bj);
    }
    ScanEnds(group, legs, m, s, r, bi, bj);
  }

  /** One pair of the search, in the detector's order of tests. */
  method TryPair(group: Id, m: Market, s: Settings, y: Leg, n: Leg) returns (r: Detection)
    ensures r.Nothing? <==> !Admissible(m, s, y, n)
    ensures r.Raised? ==> PairStake(m, s, y, n) == 0.0
    ensures r.Found? ==> PairStake(m, s, y, n) != 0.0 && r.opp == PairTicket(group, m, s, y, n)
  {
    hide Market.UnitCost, Market.Fee, Market.Ask, Market.Depth, TradeableQty;
    if !y.isYes || !m.Priced(y) {
      return Nothing;
    }
    var yUnit := m.UnitCost(y);
    if n.isYes || n.venue == y.venue || !m.Priced(n) {
      return Nothing;
    }
    var nUnit := m.UnitCost(n);
    if 1.0 - (yUnit + nUnit) <= 0.0 {
      return Nothing;
    }
    var tick := Max(TickOf(s, y.venue), TickOf(s, n.venue));
    var qty := TradeableQty(yUnit + nUnit, [m.Depth(y), m.Depth(n)], s.maxStake, tick);
    if qty <= 0.0 || qty < s.minQty {
      return Nothing;
    }
    var yFee := m.Fee(y, qty);
    var nFee := m.Fee(n, qty);
    var stake := m.Ask(y) * qty + m.Ask(n) * qty + yFee + nFee;
    var profit := qty - stake;
    ProfitIsEdgeTimesQty(m, s, y, n);
    if profit <= 0.0 {
      return Nothing;
    }
    if stake == 0.0 {
      return Raised;
    }
    r := Found(Opportunity(group,
                           [ArbLeg(y.outcome, y.venue, true, m.Ask(y), qty, yFee),
                            ArbLeg(n.outcome, n.venue, true, m.Ask(n), qty, nFee)],
                           stake, profit, profit / stake * 10000.0));
  }

  // ---- the search -------------------------------------------------------------

  ghost function ProfitAt(legs: seq<Leg>, m: Market, s: Settings, i: nat, j: nat): real {
    if AdmissibleAt(legs, m, s, i, j) then PairProfit(m, s, legs[i], legs[j]) else 0.0
  }

  /** The search after every pair before (i, j). */
  ghost predicate Scanned(group: Id, legs: seq<Leg>, m: Market, s: Settings, r: Detection, i: nat, j: nat, bi: nat, bj: nat) {
    && !r.Raised?
    && (forall a: nat, b: nat :: AdmissibleAt(legs, m, s, a, b) && Before(a, b, i, j) ==> !Free(legs, m, s, a, b))
    && (r.Nothing? ==> forall a: nat, b: nat :: AdmissibleAt(legs, m, s, a, b) ==> !Before(a, b, i, j))
    && (r.Found? ==>
          && Before(bi, bj, i, j) && AdmissibleAt(legs, m, s, bi, bj)
          && PairStake(m, s, legs[bi], legs[bj]) != 0.0
          && r.opp == PairTicket(group, m, s, legs[bi], legs[bj])
          && forall a: nat, b: nat :: AdmissibleAt(legs, m, s, a, b) && Before(a, b, i, j) ==>
               && ProfitAt(legs, m, s, a, b) <= ProfitAt(legs, m, s, bi, bj)
               && (Before(a, b, bi, bj) ==> ProfitAt(legs, m, s, a, b) < ProfitAt(legs, m, s, bi, bj)))
  }

  lemma ScanNothing(group: Id, legs: seq<Leg>, m: Market, s: Settings)
    ensures Scanned(group, legs, m, s, Nothing, 0, 0, 0, 0)
  {
  }

  lemma ScanRow(group: Id, legs: seq<Leg>, m: Market, s: Settings, r: Detection, i: nat, bi: nat, bj: nat)
    requires Scanned(group, legs, m, s, r, i, |legs|, bi, bj)
    ensures Scanned(group, legs, m, s, r, i + 1, 0, bi, bj)
  {
  }

  lemma ScanRaised(group: Id, legs: seq<Leg>, m: Market, s: Settings, i: nat, j: nat)
    requires i < |legs| && j < |legs| && Admissible(m, s, legs[i], legs[j]) && PairStake(m, s, legs[i], legs[j]) == 0.0
    ensures Detected(group, legs, m, s, Raised)
  {
    hide Admissible, PairStake;
    assert Free(legs, m, s, i, j);
  }

  lemma ScanTakes(group: Id, legs: seq<Leg>, m: Market, s: Settings, r: Detection, opp: Opportunity, i: nat, j: nat, bi: nat, bj: nat)
    requires Scanned(group, legs, m, s, r, i, j, bi, bj)
    requires i < |legs| && j < |legs| && Admissible(m, s, legs[i], legs[j])
    requires PairStake(m, s, legs[i], legs[j]) != 0.0 && opp == PairTicket(group, m, s, legs[i], legs[j])
    requires r.Nothing? || opp.profit > r.opp.profit
    ensures Scanned(group, legs, m, s, Found(opp), i, j + 1, i, j)
  {
  }

  lemma ScanKeeps(group: Id, legs: seq<Leg>, m: Market, s: Settings, r: Detection, t: Detection, i: nat, j: nat, bi: nat, bj: nat)
    requires Scanned(group, legs, m, s, r, i, j, bi, bj) && i < |legs| && j < |legs| && !t.Raised?
    requires t.Nothing? <==> !Admissible(m, s, legs[i], legs[j])
    requires t.Found? ==> PairStake(m, s, legs[i], legs[j]) != 0.0 && t.opp == PairTicket(group, m, s, legs[i], legs[j])
    requires t.Nothing? || (r.Found? && t.opp.profit <= r.opp.profit)
    ensures Scanned(group, legs, m, s, r, i, j + 1, bi, bj)
  {
  }

  lemma ScanEnds(group: Id, legs: seq<Leg>, m: Market, s: Settings, r: Detection, bi: nat, bj: nat)
    requires Scanned(group, legs, m, s, r, |legs|, 0, bi, bj)
    ensures Detected(group, legs, m, s, r)
  {
  }

  /** A ticket's profit is its per-contract edge times its size, so a positive
      edge and a positive size always make a positive profit. */
  lemma ProfitIsEdgeTimesQty(m: Market, s: Settings, y: Leg, n: Leg)
    requires m.Priced(y) && m.Priced(n)
    ensures PairStake(m, s, y, n) == (m.UnitCost(y) + m.UnitCost(n)) * PairQty(m, s, y, n)
    ensures PairProfit(m, s, y, n) == PairEdge(m, y, n) * PairQty(m, s, y, n)
    ensures Admissible(m, s, y, n) ==> PairProfit(m, s, y, n) > 0.0
  {
    hide TradeableQty;
    var q := PairQty(m, s, y, n);
    SizeNonNegative(m, s, y, n);
    FeeLinear(m.fees[y.venue], m.Ask(y), q);
    FeeLinear(m.fees[n.venue], m.Ask(n), q);
    Distribute(m.UnitCost(y), m.UnitCost(n), q);
    if Admissible(m, s, y, n) { MulPos(PairEdge(m, y, n), q); }
  }

  lemma Distribute(a: real, b: real, q: real)
    ensures a * q + b * q == (a + b) * q
    ensures q - (a + b) * q == (1.0 - (a + b)) * q
  {
  }

  lemma SizeNonNegative(m: Market, s: Settings, y: Leg, n: Leg)
    requires m.Priced(y) && m.Priced(n)
    ensures PairQty(m, s, y, n) >= 0.0
  {
  }

  // ---- what a found ticket is worth ---------------------------------------------

  ghost predicate Budgeted(s: Settings) { s.maxStake.Some? && s.maxStake.value > 0.0 }

  /** A two-leg ticket as the detector builds it, with what its fields mean: one
      size on both legs, asks and fees as quoted, the stake what the legs cost
      and the profit what is left of the one contract that pays. */
  ghost predicate SoundTicket(m: Market, s: Settings, y: Leg, n: Leg, opp: Opportunity) {
    && y.isYes && !n.isYes && y.venue != n.venue && m.Priced(y) && m.Priced(n)
    && |opp.legs| == 2
    && (var q := opp.legs[0].qty;
        && opp.legs == [ArbLeg(y.outcome, y.venue, true, m.Ask(y), q, m.Fee(y, q)),
                        ArbLeg(n.outcome, n.venue, true, m.Ask(n), q, m.Fee(n, q))]
        && q > 0.0 && q >= s.minQty
        && (m.Depth(y).Some? ==> q <= m.Depth(y).value)
        && (m.Depth(n).Some? ==> q <= m.Depth(n).value)
        && opp.stake == opp.legs[0].Cost() + opp.legs[1].Cost()
        && opp.profit == q - opp.stake)
    && opp.profit > 0.0
    && opp.stake > 0.0
    && (Budgeted(s) ==> opp.stake <= s.maxStake.value)
  }

  /** The detector is sound and optimal: what it returns is a sound ticket for
      two of the group's legs, and no admissible pair is more profitable. */
  lemma DetectorOptimal(group: Id, legs: seq<Leg>, m: Market, s: Settings, opp: Opportunity)
    requires m.Valid() && Detected(group, legs, m, s, Found(opp))
    ensures opp.group == group
    ensures exists y, n :: y in legs && n in legs && SoundTicket(m, s, y, n, opp)
    ensures forall y, n :: y in legs && n in legs && Admissible(m, s, y, n) ==> PairProfit(m, s, y, n) <= opp.profit
  {
    var i: nat, j: nat :| BestAt(legs, m, s, i, j) && PairStake(m, s, legs[i], legs[j]) != 0.0
                       && opp == PairTicket(group, m, s, legs[i], legs[j]);
    TicketSound(group, m, s, legs[i], legs[j]);
    forall y, n | y in legs && n in legs && Admissible(m, s, y, n)
      ensures PairProfit(m, s, y, n) <= opp.profit
    {
      var a: nat :| a < |legs| && legs[a] == y;
      var b: nat :| b < |legs| && legs[b] == n;
      assert AdmissibleAt(legs, m, s, a, b);
    }
  }

  lemma TicketSound(group: Id, m: Market, s: Settings, y: Leg, n: Leg)
    requires m.Valid() && Admissible(m, s, y, n) && PairStake(m, s, y, n) != 0.0
    ensures SoundTicket(m, s, y, n, PairTicket(group, m, s, y, n))
  {
    hide PairQty, Market.Fee, Market.UnitCost;
    PairWithinBounds(m, s, y, n);
    ProfitIsEdgeTimesQty(m, s, y, n);
    StakePositive(m, s, y, n);
  }

  lemma StakePositive(m: Market, s: Settings, y: Leg, n: Leg)
    requires m.Valid() && m.Priced(y) && m.Priced(n) && PairStake(m, s, y, n) != 0.0
    ensures PairStake(m, s, y, n) > 0.0
  {
    hide PairQty, PairStake, Market.UnitCost;
    UnitCostNonNegative(m, y);
    UnitCostNonNegative(m, n);
    SizeNonNegative(m, s, y, n);
    ProfitIsEdgeTimesQty(m, s, y, n);
    MulNonNeg(m.UnitCost(y) + m.UnitCost(n), PairQty(m, s, y, n));
  }

  /** A pair with a size is within both known depths and the budget. */
  lemma PairWithinBounds(m: Market, s: Settings, y: Leg, n: Leg)
    requires m.Valid() && m.Priced(y) && m.Priced(n) && PairQty(m, s, y, n) > 0.0
    ensures m.Depth(y).Some? ==> PairQty(m, s, y, n) <= m.Depth(y).value
    ensures m.Depth(n).Some? ==> PairQty(m, s, y, n) <= m.Depth(n).value
    ensures Budgeted(s) ==> PairStake(m, s, y, n) <= s.maxStake.value
  {
    hide TradeableQty, Market.UnitCost, PairStake;
    var unit := m.UnitCost(y) + m.UnitCost(n);
    var q := PairQty(m, s, y, n);
    var depths := [m.Depth(y), m.Depth(n)];
    TradeableQtyIsLargest(unit, depths, s.maxStake, Max(TickOf(s, y.venue), TickOf(s, n.venue)));
    assert depths[0] == m.Depth(y) && depths[1] == m.Depth(n);
    ProfitIsEdgeTimesQty(m, s, y, n);
    UnitCostNonNegative(m, y);
    UnitCostNonNegative(m, n);
    if unit == 0.0 { ZeroTimes(q); }
  }

  /** The granularity a ticket is rounded to: the coarsest of its venues', each its
      own where it has one. */
  predicate IsTick(s: Settings, legs: seq<Leg>, tick: real) {
    && (forall leg :: leg in legs ==> (if leg.venue in s.ticks then s.ticks[leg.venue] else DEFAULT_QTY_TICK) <= tick)
    && exists leg :: leg in legs && tick == if leg.venue in s.ticks then s.ticks[leg.venue] else DEFAULT_QTY_TICK
  }

  /** A pair is tradeable at the largest size its depths, the budget and its venues'
      granularity allow, and admissible exactly when that size is worth opening and
      costs less, fees and all, than it pays. */
  lemma PairIsWorth(m: Market, s: Settings, y: Leg, n: Leg)
    requires m.Priced(y) && m.Priced(n)
    ensures var q := PairQty(m, s, y, n);
      && (exists tick :: IsTick(s, [y, n], tick) && IsSize(q, m.UnitCost(y) + m.UnitCost(n), [m.Depth(y), m.Depth(n)], s.maxStake, tick))
      && (Admissible(m, s, y, n) <==>
            && y.isYes && !n.isYes && y.venue != n.venue && q > 0.0 && q >= s.minQty
            && (m.Ask(y) * q + m.Fee(y, q)) + (m.Ask(n) * q + m.Fee(n, q)) < q)
  {
    hide PairQty, IsSize, Market.UnitCost, Market.Depth, Market.Fee, Market.Ask, TradeableQty;
    var q := PairQty(m, s, y, n);
    PairIsSize(m, s, y, n);
    if q > 0.0 {
      ProfitIsEdgeTimesQty(m, s, y, n);
      EdgeDecides(PairEdge(m, y, n), q);
    }
  }

  lemma PairIsSize(m: Market, s: Settings, y: Leg, n: Leg)
    requires m.Priced(y) && m.Priced(n)
    ensures exists tick :: IsTick(s, [y, n], tick) && IsSize(PairQty(m, s, y, n), m.UnitCost(y) + m.UnitCost(n), [m.Depth(y), m.Depth(n)], s.maxStake, tick)
  {
    hide IsSize, TradeableQty, Market.UnitCost, Market.Depth;
    var tick := Max(TickOf(s, y.venue), TickOf(s, n.venue));
    TradeableIsSize(m.UnitCost(y) + m.UnitCost(n), [m.Depth(y), m.Depth(n)], s.maxStake, tick);
    assert y in [y, n] && n in [y, n];
    assert IsTick(s, [y, n], tick);
  }

  lemma EdgeDecides(edge: real, q: real)
    requires q > 0.0
    ensures edge > 0.0 <==> edge * q > 0.0
  {
  }

  lemma UnitCostNonNegative(m: Market, leg: Leg)
    requires m.Valid() && m.Priced(leg)
    ensures m.UnitCost(leg) >= 0.0
  {
    assert m.quotes[leg.outcome].Valid();
    FeeNonNegative(m.fees[leg.venue], m.Ask(leg), 1.0);
  }

  /** It raises exactly when both asks of an admissible pair are zero: a price
      the caller can see before the call. */
  lemma RaisesExactly(group: Id, legs: seq<Leg>, m: Market, s: Settings, r: Detection)
    requires m.Valid() && Detected(group, legs, m, s, r)
    ensures r.Raised? <==> exists y, n :: y in legs && n in legs && Admissible(m, s, y, n) && m.Ask(y) == 0.0 && m.Ask(n) == 0.0
  {
    if r.Raised? {
      var i: nat, j: nat :| Free(legs, m, s, i, j);
      FreeIffZeroAsks(m, s, legs[i], legs[j]);
    }
    if y, n :| y in legs && n in legs && Admissible(m, s, y, n) && m.Ask(y) == 0.0 && m.Ask(n) == 0.0 {
      var a: nat :| a < |legs| && legs[a] == y;
      var b: nat :| b < |legs| && legs[b] == n;
      FreeIffZeroAsks(m, s, y, n);
      assert Free(legs, m, s, a, b);
    }
  }

  lemma RaisedIffZeroAsks(group: Id, legs: seq<Leg>, m: Market, s: Settings)
    requires m.Valid()
    ensures Detected(group, legs, m, s, Raised) <==>
              exists y, n :: y in legs && n in legs && Admissible(m, s, y, n) && m.Ask(y) == 0.0 && m.Ask(n) == 0.0
  {
    hide PairStake, PairQty, PairEdge;
    if Detected(group, legs, m, s, Raised) { RaisesExactly(group, legs, m, s, Raised); }
    if y, n :| y in legs && n in legs && Admissible(m, s, y, n) && m.Ask(y) == 0.0 && m.Ask(n) == 0.0 {
      var a: nat :| a < |legs| && legs[a] == y;
      var b: nat :| b < |legs| && legs[b] == n;
      FreeIffZeroAsks(m, s, y, n);
      assert Free(legs, m, s, a, b);
    }
  }

  lemma FreeIffZeroAsks(m: Market, s: Settings, y: Leg, n: Leg)
    requires m.Valid() && Admissible(m, s, y, n)
    ensures PairStake(m, s, y, n) == 0.0 <==> m.Ask(y) == 0.0 && m.Ask(n) == 0.0
  {
    hide PairQty;
    var q := PairQty(m, s, y, n);
    assert m.quotes[y.outcome].Valid() && m.quotes[n.outcome].Valid();
    LegFreeIffZero(m.fees[y.venue], m.Ask(y), q);
    LegFreeIffZero(m.fees[n.venue], m.Ask(n), q);
  }

  lemma LegFreeIffZero(f: FeeModel, p: real, q: real)
    requires f.Valid() && 0.0 <= p <= 1.0 && q > 0.0
    ensures p * q + f.Fee(p, q) >= 0.0
    ensures p * q + f.Fee(p, q) == 0.0 <==> p == 0.0
  {
    FeeNonNegative(f, p, q);
    MulNonNeg(p, q);
    if p > 0.0 { MulPos(p, q); } else { ZeroPriceFree(f, q); }
  }

  lemma ZeroPriceFree(f: FeeModel, q: real)
    ensures f.Fee(0.0, q) == 0.0
  {
  }

  // ---- buying every outcome of one event -------------------------------------------

  predicate AllPriced(m: Market, legs: seq<Leg>) { forall leg :: leg in legs ==> m.Priced(leg) }

  function UnitCosts(m: Market, legs: seq<Leg>, n: nat): real
    requires n <= |legs| && AllPriced(m, legs)
  {
    if n == 0 then 0.0 else UnitCosts(m, legs, n - 1) + m.UnitCost(legs[n - 1])
  }

  function Depths(m: Market, legs: seq<Leg>, n: nat): (ds: seq<Option<real>>)
    requires n <= |legs| && AllPriced(m, legs)
    ensures |ds| == n && forall i :: 0 <= i < n ==> ds[i] == m.Depth(legs[i])
  {
    if n == 0 then [] else Depths(m, legs, n - 1) + [m.Depth(legs[n - 1])]
  }

  function CoarsestTick(s: Settings, legs: seq<Leg>, n: nat): real
    requires 0 < n <= |legs|
  {
    if n == 1 then TickOf(s, legs[0].venue) else Max(CoarsestTick(s, legs, n - 1), TickOf(s, legs[n - 1].venue))
  }

  function SetQty(m: Market, s: Settings, legs: seq<Leg>): real
    requires AllPriced(m, legs) && legs != []
  {
    TradeableQty(UnitCosts(m, legs, |legs|), Depths(m, legs, |legs|), s.maxStake, CoarsestTick(s, legs, |legs|))
  }

  function SetStake(m: Market, legs: seq<Leg>, qty: real, n: nat): real
    requires n <= |legs| && AllPriced(m, legs)
  {
    if n == 0 then 0.0 else SetStake(m, legs, qty, n - 1) + (m.Ask(legs[n - 1]) * qty + m.Fee(legs[n - 1], qty))
  }

  function SetLegs(m: Market, legs: seq<Leg>, qty: real, n: nat): seq<ArbLeg>
    requires n <= |legs| && AllPriced(m, legs)
  {
    if n == 0 then []
    else SetLegs(m, legs, qty, n - 1) + [ArbLeg(legs[n - 1].outcome, legs[n - 1].venue, true, m.Ask(legs[n - 1]), qty, m.Fee(legs[n - 1], qty))]
  }

  /** Every leg priced, all of them together cheaper than the contract that pays,
      and a size to trade. */
  predicate SetAdmissible(m: Market, s: Settings, legs: seq<Leg>) {
    && |legs| >= 2 && AllPriced(m, legs)
    && 1.0 - UnitCosts(m, legs, |legs|) > 0.0
    && SetQty(m, s, legs) > 0.0 && SetQty(m, s, legs) >= s.minQty
  }

  function ComplementOf(group: Id, legs: seq<Leg>, m: Market, s: Settings): Detection {
    if !SetAdmissible(m, s, legs) then Nothing
    else
      var qty := SetQty(m, s, legs);
      var stake := SetStake(m, legs, qty, |legs|);
      if stake == 0.0 then Raised
      else Found(Opportunity(group, SetLegs(m, legs, qty, |legs|), stake, qty - stake, (qty - stake) / stake * 10000.0))
  }

  method DetectComplementarySet(group: Id, legs: seq<Leg>, m: Market, s: Settings) returns (r: Detection)
    ensures r == ComplementOf(group, legs, m, s)
  {
    hide TradeableQty, Market.UnitCost, UnitCosts, Depths, CoarsestTick, SetStake, SetLegs, Market.Priced;
    if |legs| < 2 {
      return Nothing;
    }
    for i := 0 to |legs|
      invariant forall k :: 0 <= k < i ==> m.Priced(legs[k])
    {
      if !m.Priced(legs[i]) {
        assert legs[i] in legs;
        return Nothing;
      }
    }
    var unit, depths, tick := SumLegs(legs, m, s);
    if 1.0 - unit <= 0.0 {
      return Nothing;
    }
    var qty := TradeableQty(unit, depths, s.maxStake, tick);
    if qty <= 0.0 || qty < s.minQty {
      return Nothing;
    }
    r := BuildSet(group, legs, m, qty);
  }

  method BuildSet(group: Id, legs: seq<Leg>, m: Market, qty: real) returns (r: Detection)
    requires AllPriced(m, legs) && qty > 0.0 && 1.0 - UnitCosts(m, legs, |legs|) > 0.0
    ensures var stake := SetStake(m, legs, qty, |legs|);
      r == if stake == 0.0 then Raised
           else Found(Opportunity(group, SetLegs(m, legs, qty, |legs|), stake, qty - stake, (qty - stake) / stake * 10000.0))
  {
    hide UnitCosts, SetStake, SetLegs;
    var stake, arbLegs := BuildLegs(legs, m, qty);
    var profit := qty - stake;
    SetProfitPositive(m, legs, qty);
    if profit <= 0.0 {
      return Nothing;
    }
    if stake == 0.0 {
      return Raised;
    }
    return Found(Opportunity(group, arbLegs, stake, profit, profit / stake * 10000.0));
  }

  method SumLegs(legs: seq<Leg>, m: Market, s: Settings) returns (unit: real, depths: seq<Option<real>>, tick: real)
    requires AllPriced(m, legs) && legs != []
    ensures unit == UnitCosts(m, legs, |legs|) && depths == Depths(m, legs, |legs|) && tick == CoarsestTick(s, legs, |legs|)
  {
    hide Market.UnitCost, Market.Depth, Market.Priced, TickOf;
    unit, depths := m.UnitCost(legs[0]), [m.Depth(legs[0])];
    tick := TickOf(s, legs[0].venue);
    assert UnitCosts(m, legs, 1) == UnitCosts(m, legs, 0) + unit;
    for i := 1 to |legs|
      invariant unit == UnitCosts(m, legs, i) && depths == Depths(m, legs, i) && tick == CoarsestTick(s, legs, i)
    {
      unit, depths := unit + m.UnitCost(legs[i]), depths + [m.Depth(legs[i])];
      tick := Max(tick, TickOf(s, legs[i].venue));
    }
  }

  method BuildLegs(legs: seq<Leg>, m: Market, qty: real) returns (stake: real, arbLegs: seq<ArbLeg>)
    requires AllPriced(m, legs)
    ensures stake == SetStake(m, legs, qty, |legs|) && arbLegs == SetLegs(m, legs, qty, |legs|)
  {
    stake, arbLegs := 0.0, [];
    for i := 0 to |legs|
      invariant stake == SetStake(m, legs, qty, i) && arbLegs == SetLegs(m, legs, qty, i)
    {
      var fee := m.Fee(legs[i], qty);
      stake := stake + (m.Ask(legs[i]) * qty + fee);
      arbLegs := arbLegs + [ArbLeg(legs[i].outcome, legs[i].venue, true, m.Ask(legs[i]), qty, fee)];
    }
  }

  /** A set's stake is its summed unit costs times its size. */
  lemma {:induction false} SetProfitIsEdge(m: Market, legs: seq<Leg>, qty: real, n: nat)
    requires n <= |legs| && AllPriced(m, legs) && qty >= 0.0
    ensures SetStake(m, legs, qty, n) == UnitCosts(m, legs, n) * qty
    ensures qty - SetStake(m, legs, qty, n) == (1.0 - UnitCosts(m, legs, n)) * qty
  {
    hide Market.UnitCost, Market.Fee, Market.Ask;
    if n == 0 {
      Distribute(0.0, 0.0, qty);
    } else {
      SetProfitIsEdge(m, legs, qty, n - 1);
      LegStake(m, legs[n - 1], qty);
      Distribute(UnitCosts(m, legs, n - 1), m.UnitCost(legs[n - 1]), qty);
    }
  }

  lemma LegStake(m: Market, leg: Leg, qty: real)
    requires m.Priced(leg) && qty >= 0.0
    ensures m.Ask(leg) * qty + m.Fee(leg, qty) == m.UnitCost(leg) * qty
  {
  }

  lemma SetProfitPositive(m: Market, legs: seq<Leg>, qty: real)
    requires AllPriced(m, legs) && qty > 0.0 && 1.0 - UnitCosts(m, legs, |legs|) > 0.0
    ensures qty - SetStake(m, legs, qty, |legs|) > 0.0
  {
    hide UnitCosts, SetStake;
    var edge := 1.0 - UnitCosts(m, legs, |legs|);
    SetProfitIsEdge(m, legs, qty, |legs|);
    MulPos(edge, qty);
  }

  lemma SetWithinLimits(m: Market, legs: seq<Leg>, s: Settings, k: nat)
    requires m.Valid() && AllPriced(m, legs) && k < |legs| && SetQty(m, s, legs) > 0.0
    ensures m.Depth(legs[k]).Some? ==> SetQty(m, s, legs) <= m.Depth(legs[k]).value
    ensures Budgeted(s) ==> SetStake(m, legs, SetQty(m, s, legs), |legs|) <= s.maxStake.value
  {
    hide TradeableQty, UnitCosts, CoarsestTick, SetStake, Spend;
    var unit, depths, tick := UnitCosts(m, legs, |legs|), Depths(m, legs, |legs|), CoarsestTick(s, legs, |legs|);
    SetStakeIsSpend(m, legs, TradeableQty(unit, depths, s.maxStake, tick));
    UnitCostsNonNegative(m, legs, |legs|);
    SizeWithinLimits(unit, depths, s.maxStake, tick, k);
  }

  lemma SetStakeIsSpend(m: Market, legs: seq<Leg>, qty: real)
    requires AllPriced(m, legs) && qty >= 0.0
    ensures SetStake(m, legs, qty, |legs|) == Spend(UnitCosts(m, legs, |legs|), qty)
  {
    hide UnitCosts, SetStake;
    SetProfitIsEdge(m, legs, qty, |legs|);
  }

  /** A found set pays whatever wins: exactly one of its outcomes pays its size,
      and the size less the stake is the promised profit, above nothing. It
      stays within every known depth and the budget. */
  lemma ComplementSound(group: Id, legs: seq<Leg>, m: Market, s: Settings, k: nat)
    requires m.Valid() && ComplementOf(group, legs, m, s).Found? && k < |legs|
    ensures var opp, qty := ComplementOf(group, legs, m, s).opp, SetQty(m, s, legs);
      && |opp.legs| == |legs|
      && opp.legs[k] == ArbLeg(legs[k].outcome, legs[k].venue, true, m.Ask(legs[k]), qty, m.Fee(legs[k], qty))
      && opp.profit == qty - opp.stake && opp.profit > 0.0
      && (m.Depth(legs[k]).Some? ==> qty <= m.Depth(legs[k]).value)
      && (Budgeted(s) ==> opp.stake <= s.maxStake.value)
  {
    hide SetQty, UnitCosts, SetStake, SetLegs;
    SetProfitPositive(m, legs, SetQty(m, s, legs));
    SetWithinLimits(m, legs, s, k);
    SetLegsRead(m, legs, SetQty(m, s, legs), |legs|, k);
  }

  /** A set is found, or raises, exactly when it has two legs or more, all priced,
      and the largest size its depths, the budget and its venues' granularity allow
      is worth opening and costs less, fees and all, than it pays. */
  lemma SetIsWorth(group: Id, legs: seq<Leg>, m: Market, s: Settings)
    ensures ComplementOf(group, legs, m, s) != Nothing ==> |legs| >= 2 && forall leg :: leg in legs ==> m.Priced(leg)
    ensures |legs| >= 2 && (forall leg :: leg in legs ==> m.Priced(leg)) ==>
      var q := SetQty(m, s, legs);
      && (exists tick, depths :: IsTick(s, legs, tick) && DepthsOf(m, legs, depths) && IsSize(q, UnitCosts(m, legs, |legs|), depths, s.maxStake, tick))
      && (ComplementOf(group, legs, m, s) != Nothing <==> q > 0.0 && q >= s.minQty && SetStake(m, legs, q, |legs|) < q)
  {
    hide SetQty, UnitCosts, SetStake, IsSize, IsTick;
    if |legs| >= 2 && AllPriced(m, legs) {
      SetIsSize(legs, m, s);
      SetPays(group, legs, m, s);
    }
  }

  lemma SetPays(group: Id, legs: seq<Leg>, m: Market, s: Settings)
    requires |legs| >= 2 && AllPriced(m, legs)
    ensures var q := SetQty(m, s, legs);
      ComplementOf(group, legs, m, s) != Nothing <==> q > 0.0 && q >= s.minQty && SetStake(m, legs, q, |legs|) < q
  {
    hide SetQty, UnitCosts, SetStake;
    var q, edge := SetQty(m, s, legs), 1.0 - UnitCosts(m, legs, |legs|);
    if q > 0.0 {
      SetProfitIsEdge(m, legs, q, |legs|);
      assert q - SetStake(m, legs, q, |legs|) == edge * q;
      EdgeDecides(edge, q);
    }
  }

  ghost predicate DepthsOf(m: Market, legs: seq<Leg>, depths: seq<Option<real>>)
    requires AllPriced(m, legs)
  {
    |depths| == |legs| && forall i :: 0 <= i < |legs| ==> depths[i] == m.Depth(legs[i])
  }

  lemma SetIsSize(legs: seq<Leg>, m: Market, s: Settings)
    requires legs != [] && AllPriced(m, legs)
    ensures exists tick, depths :: IsTick(s, legs, tick) && DepthsOf(m, legs, depths)
              && IsSize(SetQty(m, s, legs), UnitCosts(m, legs, |legs|), depths, s.maxStake, tick)
  {
    hide IsSize, TradeableQty, UnitCosts, CoarsestTick, IsTick;
    CoarsestIsTick(s, legs, |legs|);
    assert legs[..|legs|] == legs;
    TradeableIsSize(UnitCosts(m, legs, |legs|), Depths(m, legs, |legs|), s.maxStake, CoarsestTick(s, legs, |legs|));
    assert DepthsOf(m, legs, Depths(m, legs, |legs|));
  }

  lemma {:induction false} CoarsestIsTick(s: Settings, legs: seq<Leg>, n: nat)
    requires 0 < n <= |legs|
    ensures IsTick(s, legs[..n], CoarsestTick(s, legs, n))
  {
    assert legs[..n] == legs[..n - 1] + [legs[n - 1]];
    assert legs[n - 1] in legs[..n];
    if n > 1 {
      CoarsestIsTick(s, legs, n - 1);
      assert forall leg :: leg in legs[..n] <==> leg in legs[..n - 1] || leg == legs[n - 1];
    }
  }

  lemma {:induction false} UnitCostsNonNegative(m: Market, legs: seq<Leg>, n: nat)
    requires m.Valid() && n <= |legs| && AllPriced(m, legs)
    ensures UnitCosts(m, legs, n) >= 0.0
    ensures (exists k :: 0 <= k < n && m.Ask(legs[k]) > 0.0) ==> UnitCosts(m, legs, n) > 0.0
  {
    hide Market.UnitCost;
    if n > 0 {
      UnitCostsNonNegative(m, legs, n - 1);
      UnitCostNonNegative(m, legs[n - 1]);
      UnitCostAtLeastAsk(m, legs[n - 1]);
    }
  }

  lemma UnitCostAtLeastAsk(m: Market, leg: Leg)
    requires m.Valid() && m.Priced(leg)
    ensures m.UnitCost(leg) >= m.Ask(leg)
  {
    assert m.quotes[leg.outcome].Valid();
    FeeNonNegative(m.fees[leg.venue], m.Ask(leg), 1.0);
  }

  lemma {:induction false} FreeSet(m: Market, legs: seq<Leg>, n: nat)
    requires m.Valid() && n <= |legs| && AllPriced(m, legs) && forall k :: 0 <= k < n ==> m.Ask(legs[k]) == 0.0
    ensures UnitCosts(m, legs, n) == 0.0
  {
    if n > 0 {
      FreeSet(m, legs, n - 1);
      assert legs[n - 1] in legs;
      ZeroPriceFree(m.fees[legs[n - 1].venue], 1.0);
    }
  }

  /** The set detector raises exactly on an admissible set whose every ask is
      zero. */
  lemma ComplementRaisesExactly(group: Id, legs: seq<Leg>, m: Market, s: Settings)
    requires m.Valid()
    ensures ComplementOf(group, legs, m, s).Raised? <==>
              SetAdmissible(m, s, legs) && forall leg :: leg in legs ==> m.Ask(leg) == 0.0
  {
    hide TradeableQty, Market.UnitCost, Market.Fee;
    if SetAdmissible(m, s, legs) {
      var qty := SetQty(m, s, legs);
      SetProfitIsEdge(m, legs, qty, |legs|);
      UnitCostsNonNegative(m, legs, |legs|);
      if forall leg :: leg in legs ==> m.Ask(leg) == 0.0 {
        FreeSet(m, legs, |legs|);
        ZeroTimes(qty);
      } else {
        var leg :| leg in legs && m.Ask(leg) != 0.0;
        var k :| 0 <= k < |legs| && legs[k] == leg;
        assert m.quotes[leg.outcome].Valid();
        MulPos(UnitCosts(m, legs, |legs|), qty);
      }
    }
  }

  const GIVEAWAY := Market(map[1 := Quote(1, 0.0, 0.0, None, None, None), 2 := Quote(2, 0.0, 0.0, None, None, None)], map[0 := Zero, 1 := Zero])

  /** A market that raises: two venues giving opposite sides away. */
  lemma ZeroAsksRaise()
    ensures GIVEAWAY.Valid()
    ensures Detected(0, [Leg(1, 0, true), Leg(2, 1, false)], GIVEAWAY, Settings(Some(200.0), 0.0, map[]), Raised)
  {
    hide PairStake, PairQty, PairEdge;
    var s, y, n := Settings(Some(200.0), 0.0, map[]), Leg(1, 0, true), Leg(2, 1, false);
    FreePair(s, y, n);
    var legs := [y, n];
    assert legs[0] == y && legs[1] == n;
    RaisedIffZeroAsks(0, legs, GIVEAWAY, s);
  }

  lemma FreePair(s: Settings, y: Leg, n: Leg)
    requires s == Settings(Some(200.0), 0.0, map[]) && y == Leg(1, 0, true) && n == Leg(2, 1, false)
    ensures Admissible(GIVEAWAY, s, y, n) && GIVEAWAY.Ask(y) == 0.0 == GIVEAWAY.Ask(n)
  {
    hide RoundDownTick;
    HundredTicks();
    assert PairQty(GIVEAWAY, s, y, n) == 100.0;
  }

  lemma HundredTicks()
    ensures RoundDownTick(LEGACY_UNBOUNDED_QTY, DEFAULT_QTY_TICK) == 100.0
  {
  }

  lemma PerStake(profit: real, stake: real)
    requires stake != 0.0
    ensures profit / stake * 10000.0 * stake == profit * 10000.0
  {
    var ratio := profit / stake;
    assert ratio * stake == profit;
  }

  /** The rate opportunities are ranked by is the profit a ten-thousandth of the
      stake earns, for tickets and sets alike. */
  lemma RateIsProfitOverStake(group: Id, legs: seq<Leg>, m: Market, s: Settings, opp: Opportunity)
    requires Detected(group, legs, m, s, Found(opp)) || ComplementOf(group, legs, m, s) == Found(opp)
    ensures opp.bps * opp.stake == opp.profit * 10000.0
  {
    hide PairStake, PairProfit, SetStake, SetQty, BestAt, SetAdmissible;
    PerStake(opp.profit, opp.stake);
  }

  /** A found set buys every leg, each at its ask, all of one size. */
  lemma {:induction false} SetLegsRead(m: Market, legs: seq<Leg>, qty: real, n: nat, k: nat)
    requires k < n <= |legs| && AllPriced(m, legs)
    ensures |SetLegs(m, legs, qty, n)| == n
    ensures SetLegs(m, legs, qty, n)[k] == ArbLeg(legs[k].outcome, legs[k].venue, true, m.Ask(legs[k]), qty, m.Fee(legs[k], qty))
  {
    if n > 1 { SetLegsRead(m, legs, qty, n - 1, if k < n - 1 then k else 0); }
  }

  // ---- one answer ------------------------------------------------------------------

  /** The cross-venue detector's answer is determined by what it reads. */
  lemma DetectedUnique(group: Id, legs: seq<Leg>, m: Market, s: Settings, r: Detection, t: Detection)
    requires Detected(group, legs, m, s, r) && Detected(group, legs, m, s, t)
    ensures r == t
  {
    hide AdmissibleAt, Free, BestAt;
    if r.Found? && t.Found? {
      forall i: nat, j: nat, a: nat, b: nat | BestAt(legs, m, s, i, j) && BestAt(legs, m, s, a, b) ensures i == a && j == b {
        BestIsUnique(legs, m, s, i, j, a, b);
      }
    }
  }

  lemma BestIsUnique(legs: seq<Leg>, m: Market, s: Settings, i: nat, j: nat, a: nat, b: nat)
    requires BestAt(legs, m, s, i, j) && BestAt(legs, m, s, a, b)
    ensures i == a && j == b
  {
    hide Admissible, PairProfit;
    assert !Before(i, j, a, b) && !Before(a, b, i, j);
  }
}
