/** The monitored view's own search for a group's best pair, and its agreement
    with the detector. */
module PairRanking {
  import opened Common
  import opened Types
  import opened Fees
  import opened Qty
  import opened ArbEngine

  datatype Candidate = Candidate(edge: real, qty: real, uncapped: Option<real>, unitCost: real, yes: Id, no: Id)
  {
    function Score(): real { edge * qty }
    predicate Fillable(minQty: real) { edge > 0.0 && qty > 0.0 && qty >= minQty }
  }

  /** Every (yes, no) pair on two venues that is quoted and has fee models. */
  predicate Eligible(m: Market, y: Leg, n: Leg) {
    y.isYes && !n.isYes && y.venue != n.venue && m.Priced(y) && m.Priced(n)
  }

  function Uncapped(m: Market, y: Leg, n: Leg): Option<real>
    requires m.Priced(y) && m.Priced(n)
  {
    if m.Depth(y).Some? || m.Depth(n).Some? then
      Some(TradeableQty(m.UnitCost(y) + m.UnitCost(n), [m.Depth(y), m.Depth(n)], None, DEFAULT_QTY_TICK))
    else None
  }

  function CandidateOf(m: Market, maxStake: Option<real>, y: Leg, n: Leg): Candidate
    requires m.Priced(y) && m.Priced(n)
  {
    var unit := m.UnitCost(y) + m.UnitCost(n);
    Candidate(1.0 - unit,
              TradeableQty(unit, [m.Depth(y), m.Depth(n)], maxStake, DEFAULT_QTY_TICK),
              Uncapped(m, y, n), unit, y.outcome, n.outcome)
  }

  /** `at[k]` is where candidate k came from: the eligible pairs, each once, in
      the order the loops visit them. */
  ghost predicate Listed(legs: seq<Leg>, m: Market, maxStake: Option<real>, cs: seq<Candidate>, at: seq<(nat, nat)>, i: nat, j: nat) {
    && |cs| == |at|
    && (forall k :: 0 <= k < |at| ==>
          && at[k].0 < |legs| && at[k].1 < |legs| && Before(at[k].0, at[k].1, i, j)
          && Eligible(m, legs[at[k].0], legs[at[k].1])
          && cs[k] == CandidateOf(m, maxStake, legs[at[k].0], legs[at[k].1]))
    && (forall k, l :: 0 <= k < l < |at| ==> Before(at[k].0, at[k].1, at[l].0, at[l].1))
    && (forall a: nat, b: nat :: a < |legs| && b < |legs| && Eligible(m, legs[a], legs[b]) && Before(a, b, i, j) ==> (a, b) in at)
  }

  method ListCandidates(legs: seq<Leg>, m: Market, maxStake: Option<real>) returns (cs: seq<Candidate>)
    ensures exists at :: Listed(legs, m, maxStake, cs, at, |legs|, 0)
  {
    hide CandidateOf;
    cs := [];
    ghost var at: seq<(nat, nat)> := [];
    for i := 0 to |legs|
      invariant Listed(legs, m, maxStake, cs, at, i, 0)
    {
      for j := 0 to |legs|
        invariant Listed(legs, m, maxStake, cs, at, i, j)
      {
        var y, n := legs[i], legs[j];
        if y.isYes && m.Priced(y) && !n.isYes && n.venue != y.venue && m.Priced(n) {
          cs, at := cs + [CandidateOf(m, maxStake, y, n)], at + [(i, j)];
        }
      }
    }
  }

  /** Python's max with a key: the first of the largest scores among the
      fillable, or None. */
  function BestFillable(cs: seq<Candidate>, minQty: real, n: nat): Option<nat>
    requires n <= |cs|
  {
    if n == 0 then None
    else
      var b := BestFillable(cs, minQty, n - 1);
      if cs[n - 1].Fillable(minQty) && (b.None? || (b.value < |cs| && cs[n - 1].Score() > cs[b.value].Score()))
      then Some(n - 1) else b
  }

  /** The key (qty > 0, edge), compared lexicographically. */
  predicate PricedBelow(a: Candidate, b: Candidate) {
    if (a.qty > 0.0) == (b.qty > 0.0) then a.edge < b.edge else b.qty > 0.0
  }

  function BestPriced(cs: seq<Candidate>, n: nat): (k: nat)
    requires 0 < n <= |cs|
    ensures k < n
  {
    if n == 1 then 0
    else
      var b := BestPriced(cs, n - 1);
      if PricedBelow(cs[b], cs[n - 1]) then n - 1 else b
  }

  function RankPairs(cs: seq<Candidate>, minQty: real): Option<Candidate> {
    var b := BestFillable(cs, minQty, |cs|);
    if b.Some? && b.value < |cs| then Some(cs[b.value])
    else if cs == [] then None
    else Some(cs[BestPriced(cs, |cs|)])
  }

  lemma {:induction false} BestFillableIsFirstMax(cs: seq<Candidate>, minQty: real, n: nat)
    requires n <= |cs|
    ensures var b := BestFillable(cs, minQty, n);
      && (b.None? <==> forall k :: 0 <= k < n ==> !cs[k].Fillable(minQty))
      && (b.Some? ==>
            && b.value < n && cs[b.value].Fillable(minQty)
            && forall k :: 0 <= k < n && cs[k].Fillable(minQty) ==>
                 && cs[k].Score() <= cs[b.value].Score()
                 && (k < b.value ==> cs[k].Score() < cs[b.value].Score()))
  {
    if n > 0 { BestFillableIsFirstMax(cs, minQty, n - 1); }
  }

  lemma {:induction false} BestPricedIsFirstMax(cs: seq<Candidate>, n: nat)
    requires 0 < n <= |cs|
    ensures var b := BestPriced(cs, n);
      && (forall k :: 0 <= k < n ==> !PricedBelow(cs[b], cs[k]))
      && (forall k :: 0 <= k < b ==> PricedBelow(cs[k], cs[b]))
  {
    if n > 1 { BestPricedIsFirstMax(cs, n - 1); }
  }

  /** When no pair is fillable the row still never names a pair with nothing
      resting while another has real depth, and names the best price among
      those. */
  lemma UnfillableRowIsHonest(cs: seq<Candidate>, minQty: real)
    requires cs != [] && forall c :: c in cs ==> !c.Fillable(minQty)
    ensures var best := RankPairs(cs, minQty).value;
      && RankPairs(cs, minQty).Some? && best in cs
      && ((exists c :: c in cs && c.qty > 0.0) ==> best.qty > 0.0)
      && forall c :: c in cs && (c.qty > 0.0) == (best.qty > 0.0) ==> c.edge <= best.edge
  {
    BestFillableIsFirstMax(cs, minQty, |cs|);
    BestPricedIsFirstMax(cs, |cs|);
    var best := cs[BestPriced(cs, |cs|)];
    forall c | c in cs ensures !PricedBelow(best, c) {
      var k :| 0 <= k < |cs| && cs[k] == c;
    }
  }

  /** The candidate and the detector's ticket for one pair agree. */
  lemma CandidateMatchesPair(m: Market, s: Settings, y: Leg, n: Leg)
    requires Eligible(m, y, n) && s.ticks == map[]
    ensures var c := CandidateOf(m, s.maxStake, y, n);
      && c.qty == PairQty(m, s, y, n)
      && c.Score() == PairProfit(m, s, y, n)
      && (c.Fillable(s.minQty) <==> Admissible(m, s, y, n))
  {
    hide TradeableQty, Market.UnitCost, PairStake;
    ProfitIsEdgeTimesQty(m, s, y, n);
  }

  /** Candidate k describes the pair it came from as the detector would. */
  ghost predicate Mirrors(legs: seq<Leg>, m: Market, s: Settings, c: Candidate, i: nat, j: nat) {
    && i < |legs| && j < |legs| && m.Priced(legs[i]) && m.Priced(legs[j])
    && c.yes == legs[i].outcome && c.no == legs[j].outcome
    && c.qty == PairQty(m, s, legs[i], legs[j])
    && c.Score() == PairProfit(m, s, legs[i], legs[j])
    && (c.Fillable(s.minQty) <==> Admissible(m, s, legs[i], legs[j]))
  }

  lemma ListedMirrors(legs: seq<Leg>, m: Market, s: Settings, cs: seq<Candidate>, at: seq<(nat, nat)>, k: nat)
    requires s.ticks == map[] && Listed(legs, m, s.maxStake, cs, at, |legs|, 0) && k < |cs|
    ensures |cs| == |at| && Mirrors(legs, m, s, cs[k], at[k].0, at[k].1)
  {
    hide Candidate.Score, Candidate.Fillable, PairQty, PairProfit, Admissible;
    CandidateMatchesPair(m, s, legs[at[k].0], legs[at[k].1]);
  }

  lemma AdmissibleIsEligible(m: Market, s: Settings, y: Leg, n: Leg)
    requires Admissible(m, s, y, n)
    ensures Eligible(m, y, n)
  {
  }

  lemma ListedHas(legs: seq<Leg>, m: Market, s: Settings, cs: seq<Candidate>, at: seq<(nat, nat)>, i: nat, j: nat) returns (k: nat)
    requires Listed(legs, m, s.maxStake, cs, at, |legs|, 0) && AdmissibleAt(legs, m, s, i, j)
    ensures k < |at| == |cs| && at[k] == (i, j)
  {
    hide CandidateOf, Admissible;
    AdmissibleIsEligible(m, s, legs[i], legs[j]);
    assert Before(i, j, |legs|, 0);
    k :| 0 <= k < |at| && at[k] == (i, j);
  }

  lemma ListedOrder(legs: seq<Leg>, m: Market, s: Settings, cs: seq<Candidate>, at: seq<(nat, nat)>, k: nat, l: nat)
    requires Listed(legs, m, s.maxStake, cs, at, |legs|, 0) && k < l < |at|
    ensures Before(at[k].0, at[k].1, at[l].0, at[l].1)
  {
  }

  /** The detector's best pair is the first best candidate. */
  lemma BestPairIsBestCandidate(legs: seq<Leg>, m: Market, s: Settings, cs: seq<Candidate>, at: seq<(nat, nat)>, i: nat, j: nat)
    requires s.ticks == map[] && BestAt(legs, m, s, i, j)
    requires Listed(legs, m, s.maxStake, cs, at, |legs|, 0)
    ensures var b := BestFillable(cs, s.minQty, |cs|);
      b.Some? && b.value < |cs| == |at| && at[b.value] == (i, j)
  {
    hide Candidate.Score, Candidate.Fillable, PairProfit, PairQty, Admissible, Listed, Before, Market.Priced;
    BestFillableIsFirstMax(cs, s.minQty, |cs|);
    var k := ListedHas(legs, m, s, cs, at, i, j);
    ListedMirrors(legs, m, s, cs, at, k);
    var c := BestFillable(cs, s.minQty, |cs|).value;
    ListedMirrors(legs, m, s, cs, at, c);
    assert AdmissibleAt(legs, m, s, at[c].0, at[c].1);
    if c < k { ListedOrder(legs, m, s, cs, at, c, k); }
  }

  /** Both searches name the same pair. On the same quotes, fees, stake cap and
      size floor, with the default tick, the detector finds a ticket exactly
      when the view's best pair is fillable, and then both name the same two
      outcomes, the same size and the same profit, ties included. */
  lemma DisplayAgreesWithDetector(group: Id, legs: seq<Leg>, m: Market, s: Settings, r: Detection, cs: seq<Candidate>, at: seq<(nat, nat)>)
    requires s.ticks == map[] && Detected(group, legs, m, s, r) && !r.Raised?
    requires Listed(legs, m, s.maxStake, cs, at, |legs|, 0)
    ensures var best := RankPairs(cs, s.minQty);
      && (r.Found? <==> best.Some? && best.value.Fillable(s.minQty))
      && (r.Found? ==>
            && |r.opp.legs| == 2
            && r.opp.legs[0].outcome == best.value.yes && r.opp.legs[1].outcome == best.value.no
            && r.opp.legs[0].qty == r.opp.legs[1].qty == best.value.qty
            && r.opp.profit == best.value.Score())
  {
    hide *;
    if r.Found? {
      FoundAgrees(group, legs, m, s, r.opp, cs, at);
    } else {
      NothingAgrees(group, legs, m, s, r, cs, at);
    }
  }

  lemma FoundAgrees(group: Id, legs: seq<Leg>, m: Market, s: Settings, opp: Opportunity, cs: seq<Candidate>, at: seq<(nat, nat)>)
    requires s.ticks == map[] && Detected(group, legs, m, s, Found(opp))
    requires Listed(legs, m, s.maxStake, cs, at, |legs|, 0)
    ensures var best := RankPairs(cs, s.minQty);
      && best.Some? && best.value.Fillable(s.minQty) && |opp.legs| == 2
      && opp.legs[0].outcome == best.value.yes && opp.legs[1].outcome == best.value.no
      && opp.legs[0].qty == opp.legs[1].qty == best.value.qty
      && opp.profit == best.value.Score()
  {
    hide Candidate.Score, Candidate.Fillable, PairQty, PairProfit, Listed, Admissible, BestAt, Detected;
    var i, j := FoundAt(group, legs, m, s, opp);
    BestPairIsBestCandidate(legs, m, s, cs, at, i, j);
    BestFillableIsFirstMax(cs, s.minQty, |cs|);
    ListedMirrors(legs, m, s, cs, at, BestFillable(cs, s.minQty, |cs|).value);
  }

  lemma FoundAt(group: Id, legs: seq<Leg>, m: Market, s: Settings, opp: Opportunity) returns (i: nat, j: nat)
    requires Detected(group, legs, m, s, Found(opp))
    ensures BestAt(legs, m, s, i, j) && i < |legs| && j < |legs| && m.Priced(legs[i]) && m.Priced(legs[j])
    ensures |opp.legs| == 2 && opp.legs[0].outcome == legs[i].outcome && opp.legs[1].outcome == legs[j].outcome
    ensures opp.legs[0].qty == opp.legs[1].qty == PairQty(m, s, legs[i], legs[j])
    ensures opp.profit == PairProfit(m, s, legs[i], legs[j])
  {
    hide PairQty, PairProfit, PairEdge;
    i, j :| BestAt(legs, m, s, i, j) && PairStake(m, s, legs[i], legs[j]) != 0.0
         && opp == PairTicket(group, m, s, legs[i], legs[j]);
  }

  lemma NothingAgrees(group: Id, legs: seq<Leg>, m: Market, s: Settings, r: Detection, cs: seq<Candidate>, at: seq<(nat, nat)>)
    requires s.ticks == map[] && r.Nothing? && Detected(group, legs, m, s, r)
    requires Listed(legs, m, s.maxStake, cs, at, |legs|, 0)
    ensures RankPairs(cs, s.minQty).Some? ==> !RankPairs(cs, s.minQty).value.Fillable(s.minQty)
  {
    hide Candidate.Score, Candidate.Fillable, PairQty, PairProfit, Listed, Admissible, BestAt, Before, Free, Market.Priced;
    BestFillableIsFirstMax(cs, s.minQty, |cs|);
    forall k: nat | k < |cs| ensures !cs[k].Fillable(s.minQty) {
      ListedMirrors(legs, m, s, cs, at, k);
      assert Mirrors(legs, m, s, cs[k], at[k].0, at[k].1);
      assert !AdmissibleAt(legs, m, s, at[k].0, at[k].1);
    }
  }

  /** The size before any cap is shown exactly when some depth is known, and is then
      the largest tick multiple no known depth falls short of, or nothing when a
      depth is known empty. */
  lemma UncappedIsDepth(m: Market, maxStake: Option<real>, y: Leg, n: Leg)
    requires m.Priced(y) && m.Priced(n)
    ensures var c := CandidateOf(m, maxStake, y, n);
      && (c.uncapped.Some? <==> m.Depth(y).Some? || m.Depth(n).Some?)
      && (c.uncapped.Some? && (Falls(m, y, 0.0) || Falls(m, n, 0.0)) ==> c.uncapped.value == 0.0)
      && (c.uncapped.Some? && !Falls(m, y, 0.0) && !Falls(m, n, 0.0) ==>
            && Multiple(c.uncapped.value, DEFAULT_QTY_TICK)
            && (m.Depth(y).Some? ==> c.uncapped.value <= m.Depth(y).value)
            && (m.Depth(n).Some? ==> c.uncapped.value <= m.Depth(n).value)
            && forall k: int :: Ticks(k, DEFAULT_QTY_TICK) > c.uncapped.value ==>
                 (m.Depth(y).Some? && m.Depth(y).value < Ticks(k, DEFAULT_QTY_TICK))
                 || (m.Depth(n).Some? && m.Depth(n).value < Ticks(k, DEFAULT_QTY_TICK)))
  {
    hide TradeableQty;
    var unit, depths := m.UnitCost(y) + m.UnitCost(n), [m.Depth(y), m.Depth(n)];
    TradeableQtyIsLargest(unit, depths, None, DEFAULT_QTY_TICK);
    assert depths[0] == m.Depth(y) && depths[1] == m.Depth(n);
  }

  predicate Falls(m: Market, leg: Leg, size: real)
    requires m.Priced(leg)
  {
    m.Depth(leg).Some? && m.Depth(leg).value <= size
  }

  /** What the cap leaves on the table is never negative. */
  lemma UncappedAtLeastCapped(m: Market, maxStake: Option<real>, y: Leg, n: Leg)
    requires m.Priced(y) && m.Priced(n)
    ensures var c := CandidateOf(m, maxStake, y, n);
      c.uncapped.Some? ==> c.qty <= c.uncapped.value
  {
    hide TradeableQty;
    var unit := m.UnitCost(y) + m.UnitCost(n);
    var depths := [m.Depth(y), m.Depth(n)];
    var q := TradeableQty(unit, depths, maxStake, DEFAULT_QTY_TICK);
    TradeableQtyIsLargest(unit, depths, maxStake, DEFAULT_QTY_TICK);
    TradeableQtyIsLargest(unit, depths, None, DEFAULT_QTY_TICK);
    if (m.Depth(y).Some? || m.Depth(n).Some?)
       && !exists i :: 0 <= i < |depths| && depths[i].Some? && depths[i].value <= 0.0
    {
      assert depths[0] == m.Depth(y) && depths[1] == m.Depth(n);
      var k: int :| q == Ticks(k, DEFAULT_QTY_TICK);
      assert Affordable(Ticks(k, DEFAULT_QTY_TICK), unit, depths, None);
    }
  }
}
