/** The position cap on one event group, checked before an await and committed
    after it: how far concurrent tickets can take a group past its cap. */
module TicketAdmission {
  import opened Common
  import opened Types
  import opened Fees
  import opened Ledger
  import L = LedgerRuns
  import opened PaperBroker
  import opened ExecutionRouter
  import opened Tickets
  import opened ArbEngine
  import opened GuaranteedProfit

  /** Dollars of cost basis an account holds in a group's outcomes. */
  ghost function GroupCost(st: Account, outcomes: set<Id>): map<Id, real> {
    map o | o in st.positions && o in outcomes :: CostOf(st, o)
  }

  ghost function GroupBasis(st: Account, outcomes: set<Id>): real { Sum(GroupCost(st, outcomes)) }

  ghost function BasisMap(w: World, a: Id, outcomes: set<Id>): map<Id, real> {
    map v | v in w :: GroupBasis(w[v].Acct(a), outcomes)
  }

  /** The same over every venue: both legs and both venues together. */
  ghost function Exposure(w: World, a: Id, outcomes: set<Id>): real { Sum(BasisMap(w, a, outcomes)) }

  // ---- the check -------------------------------------------------------------------

  /** The cap as the ticket service computes it, broker by broker and position
      by position; no cap at all never breaches. */
  method CapBreach(adapters: map<Id, Broker>, a: Id, outcomes: set<Id>, stake: real, cap: Option<real>, ghost w: World) returns (breach: bool)
    requires w.Keys == adapters.Keys && forall v :: v in adapters ==> adapters[v].Now() == w[v]
    ensures breach <==> cap.Some? && Exposure(w, a, outcomes) + stake > cap.value
  {
    hide GroupBasis, Sum;
    if cap.None? {
      return false;
    }
    var held := 0.0;
    var rest := adapters.Keys;
    ghost var basis := BasisMap(w, a, outcomes);
    SumNothing(basis - rest);
    while rest != {}
      invariant rest <= adapters.Keys
      invariant held == Sum(basis - rest)
    {
      var v :| v in rest;
      var here := HeldIn(adapters[v].Acct(a), outcomes);
      held := held + here;
      PutBackKey(basis, rest, v);
      rest := rest - {v};
    }
    assert basis - {} == basis;
    breach := held + stake > cap.value;
  }

  lemma SumNothing(m: map<Id, real>)
    requires m.Keys == {}
    ensures Sum(m) == 0.0
  {
  }

  lemma PutBackKey(m: map<Id, real>, rest: set<Id>, k: Id)
    requires k in rest && k in m
    ensures Sum(m - (rest - {k})) == Sum(m - rest) + m[k]
  {
    SumPick(m - (rest - {k}), k);
    assert m - (rest - {k}) - {k} == m - rest;
  }

  method HeldIn(st: Account, outcomes: set<Id>) returns (held: real)
    ensures held == GroupBasis(st, outcomes)
  {
    held := 0.0;
    ghost var costs := GroupCost(st, outcomes);
    var rest := st.positions.Keys;
    assert costs - rest == map[];
    while rest != {}
      invariant rest <= st.positions.Keys
      invariant held == Sum(costs - rest)
    {
      var o :| o in rest;
      if st.positions[o] != 0.0 && o in outcomes {
        held := held + st.positions[o] * st.Avg(o);
      }
      NextCost(st, outcomes, costs - rest, costs - (rest - {o}), o);
      rest := rest - {o};
    }
    assert costs - {} == costs;
  }

  lemma NextCost(st: Account, outcomes: set<Id>, m: map<Id, real>, n: map<Id, real>, o: Id)
    requires o in st.positions && o !in m && n - {o} == m
    requires if o in outcomes then o in n && n[o] == CostOf(st, o) else o !in n
    ensures Sum(n) == Sum(m) + (if st.positions[o] != 0.0 && o in outcomes then st.positions[o] * st.Avg(o) else 0.0)
  {
    hide Sum;
    SumDrop(n, o);
    CostReads(st, o);
  }

  lemma CostReads(st: Account, o: Id)
    requires o in st.positions
    ensures CostOf(st, o) == st.positions[o] * st.Avg(o) && (st.positions[o] == 0.0 ==> CostOf(st, o) == 0.0)
  {
  }

  // ---- how a group's exposure moves ---------------------------------------------------

  predicate HealthyIn(st: Account, o: Id) { st.Qty(o) >= 0.0 && st.Avg(o) >= 0.0 }

  ghost predicate Healthy(st: Account) { forall o: Id :: HealthyIn(st, o) }

  ghost predicate HealthyWorld(w: World, a: Id) { forall v :: v in w ==> Healthy(w[v].Acct(a)) }

  lemma GroupMoves(st: Account, st': Account, o: Id, outcomes: set<Id>)
    requires st'.positions == st.positions[o := st'.Qty(o)]
    requires forall p :: p in st.positions && p != o ==> st'.Avg(p) == st.Avg(p)
    ensures GroupBasis(st', outcomes)
         == GroupBasis(st, outcomes) + (if o in outcomes then CostOf(st', o) - CostOf(st, o) else 0.0)
  {
    var m, n := GroupCost(st, outcomes), GroupCost(st', outcomes);
    forall p | p in m && p != o ensures n[p] == m[p] {
      SameProduct(st.Qty(p), st.Avg(p), st'.Qty(p), st'.Avg(p));
    }
    if o in outcomes {
      SumMoved(m, n, o);
      if o !in st.positions { SameProduct(st.Qty(o), st.Avg(o), 0.0, st.Avg(o)); }
    } else {
      assert n == m;
    }
  }

  lemma SameGroup(st: Account, st': Account, outcomes: set<Id>)
    requires st'.positions == st.positions && st'.avg == st.avg
    ensures GroupBasis(st', outcomes) == GroupBasis(st, outcomes)
    ensures Healthy(st) ==> Healthy(st')
  {
    forall o | o in st.positions ensures CostOf(st', o) == CostOf(st, o) {
      SameProduct(st.Qty(o), st.Avg(o), st'.Qty(o), st'.Avg(o));
    }
    assert GroupCost(st', outcomes) == GroupCost(st, outcomes);
    assert forall o: Id :: HealthyIn(st, o) ==> HealthyIn(st', o);
  }

  lemma ExposureMoves(w: World, w': World, a: Id, outcomes: set<Id>, v: Id)
    requires v in w && w'.Keys == w.Keys
    requires forall u :: u in w && u != v ==> w'[u].Acct(a) == w[u].Acct(a)
    ensures Exposure(w', a, outcomes)
         == Exposure(w, a, outcomes) - GroupBasis(w[v].Acct(a), outcomes) + GroupBasis(w'[v].Acct(a), outcomes)
  {
    hide GroupBasis;
    SumMoved(BasisMap(w, a, outcomes), BasisMap(w', a, outcomes), v);
  }

  lemma SameExposure(w: World, w': World, a: Id, outcomes: set<Id>)
    requires w'.Keys == w.Keys && HealthyWorld(w, a)
    requires forall v :: v in w ==> w'[v].Acct(a).positions == w[v].Acct(a).positions && w'[v].Acct(a).avg == w[v].Acct(a).avg
    ensures Exposure(w', a, outcomes) == Exposure(w, a, outcomes) && HealthyWorld(w', a)
  {
    hide GroupBasis, Healthy;
    forall v | v in w ensures GroupBasis(w'[v].Acct(a), outcomes) == GroupBasis(w[v].Acct(a), outcomes) && Healthy(w'[v].Acct(a)) {
      SameGroup(w[v].Acct(a), w'[v].Acct(a), outcomes);
    }
    assert BasisMap(w', a, outcomes) == BasisMap(w, a, outcomes);
  }

  lemma BuyGroup(st: Account, o: Id, q: real, px: real, fee: real, outcomes: set<Id>)
    requires Healthy(st) && q > 0.0 && px >= 0.0
    ensures var st' := Ledger.Filled(st, o, true, q, px, fee);
      && Healthy(st')
      && GroupBasis(st', outcomes) == GroupBasis(st, outcomes) + (if o in outcomes then q * px else 0.0)
  {
    hide GroupBasis;
    var st' := Ledger.Filled(st, o, true, q, px, fee);
    assert HealthyIn(st, o);
    BuyCost(st, o, q, px, fee);
    GroupMoves(st, st', o, outcomes);
    MulNonNeg(st.Qty(o), st.Avg(o));
    MulNonNeg(q, px);
    assert st'.Avg(o) >= 0.0 by { AvgNonNegative(st.Qty(o) + q, st'.Avg(o), CostOf(st, o) + q * px); }
    forall p: Id ensures HealthyIn(st', p) {
      assert HealthyIn(st, p);
      if p != o { assert st'.Qty(p) == st.Qty(p) && st'.Avg(p) == st.Avg(p); }
    }
  }

  lemma AvgNonNegative(q: real, avg: real, total: real)
    requires q > 0.0 && q * avg == total >= 0.0
    ensures avg >= 0.0
  {
  }

  // ---- what a commit spends on the group ------------------------------------------------

  /** The cost basis the first n fills added inside a group. */
  function SpentIn(legs: seq<IntentLeg>, fills: seq<Fill>, outcomes: set<Id>, n: nat): real
    requires n <= |legs| && n <= |fills|
  {
    if n == 0 then 0.0
    else SpentIn(legs, fills, outcomes, n - 1) + (if legs[n - 1].outcome in outcomes then legs[n - 1].qty * fills[n - 1].price else 0.0)
  }

  predicate AllBuys(legs: seq<IntentLeg>) { forall leg :: leg in legs ==> leg.isBuy && leg.qty > 0.0 }

  lemma {:induction false} SpentPrefix(legs: seq<IntentLeg>, fills: seq<Fill>, more: seq<Fill>, outcomes: set<Id>, n: nat)
    requires n <= |legs| && n <= |fills| && fills <= more
    ensures SpentIn(legs, more, outcomes, n) == SpentIn(legs, fills, outcomes, n)
  {
    if n > 0 { SpentPrefix(legs, fills, more, outcomes, n - 1); }
  }

  ghost predicate Spent(w: World, p: Progress, a: Id, legs: seq<IntentLeg>, outcomes: set<Id>) {
    && |p.fills| <= |legs|
    && HealthyWorld(p.world, a)
    && Exposure(p.world, a, outcomes) == Exposure(w, a, outcomes) + SpentIn(legs, p.fills, outcomes, |p.fills|)
  }

  /** A commit raises a group's exposure by exactly what its fills in the group
      cost before fees. */
  lemma {:induction false} CommitExposure(venues: Venues, w: World, intent: Intent, readings: Readings, n: nat, outcomes: set<Id>)
    requires venues.Keys == w.Keys && n <= |intent.legs| == |readings| && AllKnown(venues, intent)
    requires AllBuys(intent.legs) && HealthyWorld(w, intent.account)
    ensures Spent(w, Committed(venues, w, intent, readings, n), intent.account, intent.legs, outcomes)
  {
    hide Committed, LegStep, Spent, HealthyWorld, WithinLimits, AllBuys;
    if n == 0 {
      CommitStart(venues, w, intent, readings);
      NothingSpent(w, intent.account, intent.legs, outcomes);
    } else {
      CommitExposure(venues, w, intent, readings, n - 1, outcomes);
      FilledLegs(venues, w, intent, readings, n - 1);
      CommitStep(venues, w, intent, readings, n);
      var p, q := Committed(venues, w, intent, readings, n - 1), Committed(venues, w, intent, readings, n);
      if p.stopped.None? {
        LegSpent(venues, w, p, q, intent, n - 1, readings[n - 1], outcomes);
      }
    }
  }

  lemma NothingSpent(w: World, a: Id, legs: seq<IntentLeg>, outcomes: set<Id>)
    requires HealthyWorld(w, a)
    ensures Spent(w, Progress(w, [], [], None), a, legs, outcomes)
  {
  }

  lemma LegSpent(venues: Venues, w: World, p: Progress, q: Progress, intent: Intent, n: nat, reading: Option<Quote>, outcomes: set<Id>)
    requires n < |intent.legs| && |p.fills| == n && AllBuys(intent.legs) && intent.legs[n].venue in venues
    requires p.world.Keys == q.world.Keys == venues.Keys
    requires Spent(w, p, intent.account, intent.legs, outcomes)
    requires LegStep(venues[intent.legs[n].venue], p, q, intent.account, intent.legs[n], reading)
    ensures Spent(w, q, intent.account, intent.legs, outcomes)
  {
    hide LegStep, HealthyWorld, Exposure;
    LegExposure(venues[intent.legs[n].venue], p, q, intent.account, intent.legs[n], reading, outcomes);
    if q.stopped.None? { SpentPrefix(intent.legs, p.fills, q.fills, outcomes, n); }
  }

  lemma LegExposure(cfg: Venue, p: Progress, q: Progress, a: Id, leg: IntentLeg, reading: Option<Quote>, outcomes: set<Id>)
    requires p.world.Keys == q.world.Keys && leg.venue in p.world && LegStep(cfg, p, q, a, leg, reading)
    requires leg.isBuy && leg.qty > 0.0 && HealthyWorld(p.world, a)
    ensures HealthyWorld(q.world, a)
    ensures q.stopped.Some? ==> Exposure(q.world, a, outcomes) == Exposure(p.world, a, outcomes) && q.fills == p.fills
    ensures q.stopped.None? ==>
      && |q.fills| == |p.fills| + 1 && p.fills <= q.fills
      && Exposure(q.world, a, outcomes) == Exposure(p.world, a, outcomes)
           + (if leg.outcome in outcomes then leg.qty * q.fills[|p.fills|].price else 0.0)
  {
    hide GroupBasis, Exposure, Healthy, Ledger.Filled;
    ExposureMoves(p.world, q.world, a, outcomes, leg.venue);
    if q.stopped.None? {
      var order, fill :| q.fills == p.fills + [fill] && q.orders == p.orders + [order]
        && LegFilled(cfg, p.world[leg.venue].Acct(a), q.world[leg.venue].Acct(a), leg, order, fill, reading);
      L.SlipInRange(reading.value.ask, true, cfg.slippageBps);
      BuyGroup(p.world[leg.venue].Acct(a), leg.outcome, leg.qty, fill.price, fill.fee, outcomes);
    }
  }

  // ---- tickets ---------------------------------------------------------------------------

  function StakeOf(legs: seq<ArbLeg>, n: nat): real
    requires n <= |legs|
  {
    if n == 0 then 0.0 else StakeOf(legs, n - 1) + legs[n - 1].Cost()
  }

  /** A ticket of buys whose stake is what its legs cost at their limits. */
  predicate Costed(opp: Opportunity) {
    && (forall leg :: leg in opp.legs ==> leg.isBuy && leg.qty > 0.0 && leg.price >= 0.0 && leg.fee >= 0.0)
    && opp.stake == StakeOf(opp.legs, |opp.legs|)
  }

  /** What the detector returns is such a ticket, within the stake limit. */
  lemma DetectedIsCosted(m: Market, s: Settings, y: Leg, n: Leg, opp: Opportunity)
    requires m.Valid() && SoundTicket(m, s, y, n, opp)
    ensures Costed(opp) && (Budgeted(s) ==> opp.stake <= s.maxStake.value)
  {
    var q := opp.legs[0].qty;
    assert m.quotes[y.outcome].Valid() && m.quotes[n.outcome].Valid();
    FeeNonNegative(m.fees[y.venue], m.Ask(y), q);
    FeeNonNegative(m.fees[n.venue], m.Ask(n), q);
    assert StakeOf(opp.legs, 1) == opp.legs[0].Cost();
    assert StakeOf(opp.legs, 2) == opp.legs[0].Cost() + opp.legs[1].Cost();
  }

  lemma {:induction false} SetLegsCosted(m: Market, legs: seq<Leg>, qty: real, n: nat)
    requires m.Valid() && n <= |legs| && AllPriced(m, legs) && qty > 0.0
    ensures var built := SetLegs(m, legs, qty, n);
      && |built| == n && StakeOf(built, n) == SetStake(m, legs, qty, n)
      && forall leg :: leg in built ==> leg.isBuy && leg.qty > 0.0 && leg.price >= 0.0 && leg.fee >= 0.0
  {
    hide Market.Fee, Market.Ask;
    if n > 0 {
      SetLegsCosted(m, legs, qty, n - 1);
      var before, leg := SetLegs(m, legs, qty, n - 1), legs[n - 1];
      assert leg in legs;
      PricedLeg(m, leg, qty);
      StakePrefix(before, before + [ArbLeg(leg.outcome, leg.venue, true, m.Ask(leg), qty, m.Fee(leg, qty))], n - 1);
    }
  }

  lemma PricedLeg(m: Market, leg: Leg, qty: real)
    requires m.Valid() && m.Priced(leg)
    ensures m.Ask(leg) >= 0.0 && m.Fee(leg, qty) >= 0.0
  {
    assert m.quotes[leg.outcome].Valid();
    FeeNonNegative(m.fees[leg.venue], m.Ask(leg), qty);
  }

  lemma {:induction false} StakePrefix(legs: seq<ArbLeg>, more: seq<ArbLeg>, n: nat)
    requires n <= |legs| && legs <= more
    ensures StakeOf(more, n) == StakeOf(legs, n)
  {
    if n > 0 { StakePrefix(legs, more, n - 1); }
  }

  /** So is a complementary set. */
  lemma SetIsCosted(group: Id, m: Market, s: Settings, legs: seq<Leg>, opp: Opportunity)
    requires m.Valid() && ComplementOf(group, legs, m, s) == Found(opp)
    ensures Costed(opp) && (ArbEngine.Budgeted(s) ==> opp.stake <= s.maxStake.value)
  {
    hide SetStake, SetLegs, SetQty, StakeOf, UnitCosts;
    SetLegsCosted(m, legs, SetQty(m, s, legs), |legs|);
    SetWithinLimits(m, legs, s, 0);
  }

  /** An opportunity detection finds: a cross-venue ticket or a complementary set. */
  ghost predicate FoundBy(m: Market, s: Settings, opp: Opportunity) {
    || (exists y, n :: SoundTicket(m, s, y, n, opp))
    || (exists group, legs :: ComplementOf(group, legs, m, s) == Found(opp))
  }

  lemma FoundIsCosted(m: Market, s: Settings, opp: Opportunity)
    requires m.Valid() && FoundBy(m, s, opp)
    ensures Costed(opp) && (ArbEngine.Budgeted(s) ==> opp.stake <= s.maxStake.value)
  {
    hide Costed, SoundTicket, ComplementOf;
    if y, n :| SoundTicket(m, s, y, n, opp) {
      DetectedIsCosted(m, s, y, n, opp);
    } else {
      var group, legs :| ComplementOf(group, legs, m, s) == Found(opp);
      SetIsCosted(group, m, s, legs, opp);
    }
  }

  lemma {:induction false} StakeNonNegative(legs: seq<ArbLeg>, n: nat)
    requires n <= |legs| && forall leg :: leg in legs ==> leg.qty > 0.0 && leg.price >= 0.0 && leg.fee >= 0.0
    ensures StakeOf(legs, n) >= 0.0
  {
    if n > 0 {
      StakeNonNegative(legs, n - 1);
      assert legs[n - 1] in legs;
      MulNonNeg(legs[n - 1].price, legs[n - 1].qty);
    }
  }

  lemma {:induction false} SpentAtMostStake(opp: Opportunity, intent: Intent, fills: seq<Fill>, outcomes: set<Id>, n: nat)
    requires Costed(opp) && |intent.legs| == |opp.legs| && n <= |fills| <= |opp.legs|
    requires forall i :: 0 <= i < |opp.legs| ==> intent.legs[i] == IntentLegOf(opp.legs[i])
    requires forall i :: 0 <= i < |fills| ==> fills[i].price <= intent.legs[i].limit
    ensures SpentIn(intent.legs, fills, outcomes, n) <= StakeOf(opp.legs, n)
  {
    if n > 0 {
      SpentAtMostStake(opp, intent, fills, outcomes, n - 1);
      var leg := opp.legs[n - 1];
      assert leg in opp.legs && intent.legs[n - 1].qty == leg.qty && fills[n - 1].price <= leg.price;
      hide Costed, ArbLeg.Cost;
      FillWithinCost(leg, fills[n - 1].price);
    }
  }

  lemma FillWithinCost(leg: ArbLeg, px: real)
    requires leg.qty > 0.0 && leg.price >= 0.0 && leg.fee >= 0.0 && px <= leg.price
    ensures leg.qty * px <= leg.Cost() && 0.0 <= leg.Cost()
  {
    MulLe(px, leg.price, leg.qty);
    MulNonNeg(leg.price, leg.qty);
  }

  /** What the first n legs cost inside a group, before fees, at the books they
      are shown. */
  function ShownSpend(venues: Venues, legs: seq<IntentLeg>, readings: Readings, outcomes: set<Id>, n: nat): real
    requires n <= |legs| == |readings|
  {
    if n == 0 then 0.0
    else
      var leg, reading := legs[n - 1], readings[n - 1];
      ShownSpend(venues, legs, readings, outcomes, n - 1)
      + (if leg.outcome in outcomes && leg.venue in venues && reading.Some?
         then leg.qty * Slip(reading.value.ask, true, venues[leg.venue].slippageBps) else 0.0)
  }

  lemma {:induction false} SpentAsShown(venues: Venues, intent: Intent, readings: Readings, fills: seq<Fill>, outcomes: set<Id>, n: nat)
    requires n <= |intent.legs| == |readings| && n <= |fills| && AllKnown(venues, intent)
    requires forall i :: 0 <= i < n ==>
      readings[i].Some? && fills[i].price == Slip(readings[i].value.ask, true, venues[intent.legs[i].venue].slippageBps)
    ensures SpentIn(intent.legs, fills, outcomes, n) == ShownSpend(venues, intent.legs, readings, outcomes, n)
  {
    hide Slip;
    if n > 0 {
      SpentAsShown(venues, intent, readings, fills, outcomes, n - 1);
      var leg := intent.legs[n - 1];
      var px := Slip(readings[n - 1].value.ask, true, venues[leg.venue].slippageBps);
      assert leg in intent.legs && fills[n - 1].price == px;
      SameProduct(leg.qty, fills[n - 1].price, leg.qty, px);
      assert ShownSpend(venues, intent.legs, readings, outcomes, n)
          == ShownSpend(venues, intent.legs, readings, outcomes, n - 1) + (if leg.outcome in outcomes then leg.qty * px else 0.0);
    }
  }

  /** However a submitted ticket ends, the group's exposure rises by no more than
      its stake: by exactly what its legs in the group cost at the books shown if
      it fills, and not at all if it is refused or unwound. */
  lemma SubmittedExposure(venues: Venues, w: World, w': World, a: Id, opp: Opportunity, ticket: Option<Id>,
                          preview: Readings, commit: Readings, r: Submission, outcomes: set<Id>)
    requires venues.Keys == w.Keys == w'.Keys && |opp.legs| == |preview| == |commit|
    requires Costed(opp) && HealthyWorld(w, a)
    requires Outcome(venues, w, w', IntentOf(a, opp, ticket), preview, commit, r)
    ensures HealthyWorld(w', a)
    ensures Exposure(w', a, outcomes) <= Exposure(w, a, outcomes) + opp.stake
    ensures var intent := IntentOf(a, opp, ticket);
      Exposure(w', a, outcomes) == Exposure(w, a, outcomes)
        + (if r.Filled? then ShownSpend(venues, intent.legs, commit, outcomes, |intent.legs|) else 0.0)
  {
    hide Exposure, HealthyWorld, Committed, Costed, Rejections;
    var intent := IntentOf(a, opp, ticket);
    LegsFit(a, opp, ticket);
    if r.Filled? {
      var p := Committed(venues, w, intent, commit, |intent.legs|);
      FilledWithin(venues, w, intent, commit);
      CommitExposure(venues, w, intent, commit, |intent.legs|, outcomes);
      SpentAtMostStake(opp, intent, p.fills, outcomes, |p.fills|);
      SpentAsShown(venues, intent, commit, p.fills, outcomes, |intent.legs|);
    } else {
      SameExposure(w, w', a, outcomes);
    }
  }

  lemma LegsFit(a: Id, opp: Opportunity, ticket: Option<Id>)
    requires Costed(opp)
    ensures var intent := IntentOf(a, opp, ticket);
      && AllBuys(intent.legs) && intent.account == a
      && (forall i :: 0 <= i < |opp.legs| ==> intent.legs[i] == IntentLegOf(opp.legs[i]))
      && opp.stake == StakeOf(opp.legs, |opp.legs|) >= 0.0
  {
    StakeNonNegative(opp.legs, |opp.legs|);
  }

  lemma FilledWithin(venues: Venues, w: World, intent: Intent, readings: Readings)
    requires venues.Keys == w.Keys && |intent.legs| == |readings| && AllKnown(venues, intent) && AllBuys(intent.legs)
    ensures var p := Committed(venues, w, intent, readings, |intent.legs|);
      && |p.fills| <= |intent.legs|
      && (p.stopped.None? ==> |p.fills| == |intent.legs|)
      && (forall i :: 0 <= i < |p.fills| ==> p.fills[i].price <= intent.legs[i].limit)
      && forall i :: 0 <= i < |p.fills| ==>
           readings[i].Some? && p.fills[i].price == Slip(readings[i].value.ask, true, venues[intent.legs[i].venue].slippageBps)
  {
    hide Committed, Slip;
    FilledLegs(venues, w, intent, readings, |intent.legs|);
    assert forall i :: 0 <= i < |intent.legs| ==> intent.legs[i] in intent.legs;
  }

  // ---- every run of concurrent tickets ---------------------------------------------------

  /** The brokers, and the tickets past the cap check but not yet at the router. */
  datatype Desk = Desk(world: World, pending: seq<Opportunity>)

  /** A ticket passes the check; a passed ticket reaches the router, with what it
      returned; or anything else happens to the account at one venue. */
  datatype Event =
    | Check(opp: Opportunity)
    | Submit(i: nat, ticket: Option<Id>, preview: Readings, commit: Readings, result: Submission, after: World)
    | Other(venue: Id, op: L.Op)

  datatype Rules = Rules(venues: Venues, account: Id, outcomes: set<Id>, cap: real, maxStake: real, width: nat)

  ghost predicate Allowed(g: Rules, d: Desk, e: Event) {
    g.venues.Keys == d.world.Keys
    && match e
       case Check(opp) =>
         && |d.pending| < g.width
         && Costed(opp) && opp.stake <= g.maxStake
         && Exposure(d.world, g.account, g.outcomes) + opp.stake <= g.cap
       case Submit(i, ticket, preview, commit, result, after) =>
         && i < |d.pending|
         && after.Keys == d.world.Keys && |d.pending[i].legs| == |preview| == |commit|
         && Outcome(g.venues, d.world, after, IntentOf(g.account, d.pending[i], ticket), preview, commit, result)
       case Other(v, op) =>
         && v in d.world
         && L.Legal(d.world[v].Acct(g.account), op)
         && (op.Trade? && op.isBuy ==> op.outcome !in g.outcomes)
  }

  function Next(g: Rules, d: Desk, e: Event): Desk
    requires Allowed(g, d, e)
  {
    match e
    case Check(opp) => d.(pending := d.pending + [opp])
    case Submit(i, _, _, _, _, after) => Desk(after, d.pending[..i] + d.pending[i + 1..])
    case Other(v, op) =>
      var st := L.Step(g.venues[v], d.world[v].Acct(g.account), op);
      d.(world := d.world[v := d.world[v].(accounts := d.world[v].accounts[g.account := st])])
  }

  function Staked(pending: seq<Opportunity>): real {
    if pending == [] then 0.0 else Staked(pending[..|pending| - 1]) + pending[|pending| - 1].stake
  }

  lemma {:induction false} StakedWithout(pending: seq<Opportunity>, i: nat)
    requires i < |pending|
    ensures Staked(pending[..i] + pending[i + 1..]) == Staked(pending) - pending[i].stake
    decreases |pending|
  {
    var n := |pending| - 1;
    if i < n {
      StakedWithout(pending[..n], i);
      var less := pending[..i] + pending[i + 1..];
      assert less[..n - 1] == pending[..n][..i] + pending[..n][i + 1..];
    } else {
      assert pending[..i] + pending[i + 1..] == pending[..n];
    }
  }

  lemma {:induction false} StakedAtMost(pending: seq<Opportunity>, each: real)
    requires forall opp :: opp in pending ==> 0.0 <= opp.stake <= each
    ensures 0.0 <= Staked(pending) <= (|pending| as real) * each
  {
    if pending != [] {
      StakedAtMost(pending[..|pending| - 1], each);
      assert pending[|pending| - 1] in pending;
      OneMore(|pending| - 1, each);
    }
  }

  lemma OneMore(n: nat, each: real)
    ensures ((n + 1) as real) * each == (n as real) * each + each
  {
  }

  /** What concurrency can add to the cap. */
  function Slack(g: Rules): real { (g.width as real - 1.0) * g.maxStake }

  ghost predicate Bounded(g: Rules, d: Desk) {
    && g.width > 0 && g.maxStake >= 0.0
    && HealthyWorld(d.world, g.account)
    && |d.pending| <= g.width
    && (forall opp :: opp in d.pending ==> Costed(opp) && 0.0 <= opp.stake <= g.maxStake)
    && Exposure(d.world, g.account, g.outcomes) + Staked(d.pending) <= g.cap + Slack(g)
  }

  lemma SlackCovers(g: Rules, n: nat)
    requires n < g.width && g.maxStake >= 0.0
    ensures (n as real) * g.maxStake <= Slack(g)
  {
    MulLe(n as real, g.width as real - 1.0, g.maxStake);
  }

  lemma CheckBounded(g: Rules, d: Desk, opp: Opportunity)
    requires Bounded(g, d) && Allowed(g, d, Check(opp))
    ensures Bounded(g, Next(g, d, Check(opp)))
  {
    hide Exposure, HealthyWorld, Costed, StakeOf, IntentOf;
    LegsFit(g.account, opp, None);
    var more := d.pending + [opp];
    assert more[..|more| - 1] == d.pending;
    assert Staked(more) == Staked(d.pending) + opp.stake;
    StakedAtMost(d.pending, g.maxStake);
    SlackCovers(g, |d.pending|);
  }

  lemma SubmitBounded(g: Rules, d: Desk, e: Event)
    requires Bounded(g, d) && Allowed(g, d, e) && e.Submit?
    ensures Bounded(g, Next(g, d, e))
  {
    hide Exposure, HealthyWorld, Costed, Outcome;
    StakedWithout(d.pending, e.i);
    SubmittedExposure(g.venues, d.world, e.after, g.account, d.pending[e.i], e.ticket, e.preview, e.commit, e.result, g.outcomes);
    assert forall opp :: opp in d.pending[..e.i] + d.pending[e.i + 1..] ==> opp in d.pending;
  }

  lemma OtherBounded(g: Rules, d: Desk, v: Id, op: L.Op)
    requires Bounded(g, d) && Allowed(g, d, Other(v, op))
    ensures Bounded(g, Next(g, d, Other(v, op)))
  {
    hide Exposure, Costed, GroupBasis, Healthy, L.Legal, L.Step;
    var d' := Next(g, d, Other(v, op));
    OtherGroup(g.venues[v], d.world[v].Acct(g.account), op, g.outcomes);
    ExposureMoves(d.world, d'.world, g.account, g.outcomes, v);
  }

  /** Nothing but a buy in the group raises its cost basis. */
  lemma OtherGroup(cfg: Venue, st: Account, op: L.Op, outcomes: set<Id>)
    requires Healthy(st) && L.Legal(st, op) && (op.Trade? && op.isBuy ==> op.outcome !in outcomes)
    ensures Healthy(L.Step(cfg, st, op))
    ensures GroupBasis(L.Step(cfg, st, op), outcomes) <= GroupBasis(st, outcomes)
  {
    hide GroupBasis, Healthy;
    match op
    case Trade(o, isBuy, qty, limit, reading) =>
      var px := L.FillPrice(cfg, st, isBuy, qty, limit, reading);
      if px.Some? {
        L.SlipInRange(if isBuy then reading.value.ask else reading.value.bid, isBuy, cfg.slippageBps);
        if isBuy {
          BuyGroup(st, o, qty, px.value, cfg.fees.Fee(px.value, qty), outcomes);
        } else {
          SellGroup(st, o, qty, px.value, cfg.fees.Fee(px.value, qty), outcomes);
        }
      }
    case Settle(o, v) => SettleGroup(st, o, v, outcomes);
    case _ => SameGroup(st, L.Step(cfg, st, op), outcomes);
  }

  lemma SellGroup(st: Account, o: Id, qty: real, px: real, fee: real, outcomes: set<Id>)
    requires Healthy(st) && 0.0 < qty <= st.Qty(o)
    ensures var st' := Ledger.Filled(st, o, false, qty, px, fee); Healthy(st') && GroupBasis(st', outcomes) <= GroupBasis(st, outcomes)
  {
    hide GroupBasis, Ledger.Filled;
    var st' := Ledger.Filled(st, o, false, qty, px, fee);
    SellHoldings(st, o, qty, px, fee);
    GroupMoves(st, st', o, outcomes);
    PartCost(st, st', o, qty);
    assert HealthyIn(st, o);
    MulNonNeg(qty, st.Avg(o));
    forall p: Id ensures HealthyIn(st', p) { assert HealthyIn(st, p); }
  }

  lemma SettleGroup(st: Account, o: Id, v: real, outcomes: set<Id>)
    requires Healthy(st)
    ensures var st' := Settled(st, o, v); Healthy(st') && GroupBasis(st', outcomes) <= GroupBasis(st, outcomes)
  {
    hide GroupBasis;
    if st.Qty(o) != 0.0 {
      var st' := Settled(st, o, v);
      GroupMoves(st, st', o, outcomes);
      assert HealthyIn(st, o);
      MulNonNeg(st.Qty(o), st.Avg(o));
      forall p: Id ensures HealthyIn(st', p) { assert HealthyIn(st, p); }
    }
  }

  lemma EventBounded(g: Rules, d: Desk, e: Event)
    requires Bounded(g, d) && Allowed(g, d, e)
    ensures Bounded(g, Next(g, d, e))
  {
    hide Bounded, Allowed, Next;
    match e
    case Check(opp) => CheckBounded(g, d, opp);
    case Submit(_, _, _, _, _, _) => SubmitBounded(g, d, e);
    case Other(v, op) => OtherBounded(g, d, v, op);
  }

  ghost predicate AllowedRun(g: Rules, d: Desk, es: seq<Event>)
    decreases |es|
  {
    es == [] || (Allowed(g, d, es[0]) && AllowedRun(g, Next(g, d, es[0]), es[1..]))
  }

  ghost function Run(g: Rules, d: Desk, es: seq<Event>): Desk
    requires AllowedRun(g, d, es)
    decreases |es|
  {
    if es == [] then d else Run(g, Next(g, d, es[0]), es[1..])
  }

  /** With at most `width` tickets between the check and the router, no run takes
      the group's cost basis past the cap plus (width - 1) ticket stakes. */
  lemma {:induction false} ExposureBounded(g: Rules, d: Desk, es: seq<Event>)
    requires Bounded(g, d) && AllowedRun(g, d, es)
    ensures var d' := Run(g, d, es);
      Bounded(g, d') && Exposure(d'.world, g.account, g.outcomes) <= g.cap + Slack(g)
    decreases |es|
  {
    hide Allowed, Next, Exposure, HealthyWorld, Costed;
    if es == [] {
      StakedAtMost(d.pending, g.maxStake);
    } else {
      EventBounded(g, d, es[0]);
      ExposureBounded(g, Next(g, d, es[0]), es[1..]);
    }
  }

  /** Submitted one at a time, tickets never take a group past its cap. */
  lemma SerialNeverExceedsCap(g: Rules, d: Desk, es: seq<Event>)
    requires g.width == 1 && Bounded(g, d) && AllowedRun(g, d, es)
    ensures Exposure(Run(g, d, es).world, g.account, g.outcomes) <= g.cap
  {
    hide Bounded, Allowed, Exposure;
    ExposureBounded(g, d, es);
    OneAtATime(g);
  }

  lemma OneAtATime(g: Rules)
    requires g.width == 1
    ensures Slack(g) == 0.0
  {
  }

  // ---- exactly when a cap is passed ------------------------------------------------------

  ghost predicate FairVenues(g: Rules) { forall v :: v in g.venues ==> g.venues[v].Valid() }

  /** What an event adds to the group's cost basis: the shown cost of a submitted
      ticket that will fill, by the books it is shown and the cash there is before
      it, and otherwise nothing. */
  ghost function SpendOf(g: Rules, d: Desk, e: Event): real {
    if e.Submit? && e.i < |d.pending| && g.venues.Keys == d.world.Keys then
      var intent := IntentOf(g.account, d.pending[e.i], e.ticket);
      if |intent.legs| == |e.preview| == |e.commit| && WillFill(g.venues, d.world, intent, e.preview, e.commit)
      then ShownSpend(g.venues, intent.legs, e.commit, g.outcomes, |intent.legs|) else 0.0
    else 0.0
  }

  ghost function RunSpend(g: Rules, d: Desk, es: seq<Event>): real
    requires AllowedRun(g, d, es)
    decreases |es|
  {
    if es == [] then 0.0 else SpendOf(g, d, es[0]) + RunSpend(g, Next(g, d, es[0]), es[1..])
  }

  lemma EventSpends(g: Rules, d: Desk, e: Event)
    requires Bounded(g, d) && Allowed(g, d, e) && FairVenues(g)
    ensures var before, after := Exposure(d.world, g.account, g.outcomes), Exposure(Next(g, d, e).world, g.account, g.outcomes);
      after <= before + SpendOf(g, d, e) && (!e.Other? ==> after == before + SpendOf(g, d, e))
  {
    hide Exposure, HealthyWorld, Costed, Outcome, ShownSpend, WillFill;
    match e
    case Check(_) =>
    case Submit(i, ticket, preview, commit, result, after) =>
      LegsFit(g.account, d.pending[i], ticket);
      FillsExactly(g.venues, d.world, after, IntentOf(g.account, d.pending[i], ticket), preview, commit, result);
      SubmittedExposure(g.venues, d.world, after, g.account, d.pending[i], ticket, preview, commit, result, g.outcomes);
    case Other(v, op) => OtherLowers(g, d, v, op);
  }

  lemma OtherLowers(g: Rules, d: Desk, v: Id, op: L.Op)
    requires Bounded(g, d) && Allowed(g, d, Other(v, op))
    ensures Exposure(Next(g, d, Other(v, op)).world, g.account, g.outcomes) <= Exposure(d.world, g.account, g.outcomes)
  {
    hide Exposure, Costed, GroupBasis, Healthy, L.Legal, L.Step;
    OtherGroup(g.venues[v], d.world[v].Acct(g.account), op, g.outcomes);
    ExposureMoves(d.world, Next(g, d, Other(v, op)).world, g.account, g.outcomes, v);
  }

  predicate OnlyTickets(es: seq<Event>) { forall e: Event :: e in es ==> !e.Other? }

  /** A run of tickets ends above the cap if and only if the exposure it began
      with and the shown cost of each ticket that, on the books and the cash before
      its submission, will fill come to more than it. Whatever else happens to the account in between only lowers that. */
  lemma PassesCapExactly(g: Rules, d: Desk, es: seq<Event>)
    requires Bounded(g, d) && AllowedRun(g, d, es) && FairVenues(g)
    ensures var before, after := Exposure(d.world, g.account, g.outcomes), Exposure(Run(g, d, es).world, g.account, g.outcomes);
      && (after > g.cap ==> before + RunSpend(g, d, es) > g.cap)
      && (OnlyTickets(es) ==> (after > g.cap <==> before + RunSpend(g, d, es) > g.cap))
  {
    RunSpends(g, d, es);
  }

  lemma {:induction false} RunSpends(g: Rules, d: Desk, es: seq<Event>)
    requires Bounded(g, d) && AllowedRun(g, d, es) && FairVenues(g)
    ensures var before, after := Exposure(d.world, g.account, g.outcomes), Exposure(Run(g, d, es).world, g.account, g.outcomes);
      after <= before + RunSpend(g, d, es) && (OnlyTickets(es) ==> after == before + RunSpend(g, d, es))
    decreases |es|
  {
    hide Allowed, Next, Exposure, Bounded, SpendOf, FairVenues;
    if es != [] {
      EventBounded(g, d, es[0]);
      EventSpends(g, d, es[0]);
      RunSpends(g, Next(g, d, es[0]), es[1..]);
      if OnlyTickets(es) { assert es[0] in es && forall e :: e in es[1..] ==> e in es; }
    }
  }

  /** Two tickets checked before either reaches the router: both pass the check on
      the same exposure, and they end above the cap exactly when that exposure and
      what each costs, if it will fill, come to more than it. */
  lemma TwoTicketsExactly(g: Rules, d: Desk, a: Opportunity, b: Opportunity, first: Event, second: Event)
    requires Bounded(g, d) && FairVenues(g) && d.pending == [] && first.Submit? && second.Submit?
    requires AllowedRun(g, d, [Check(a), Check(b), first, second])
    ensures var e := Exposure(d.world, g.account, g.outcomes);
      && e + a.stake <= g.cap && e + b.stake <= g.cap
      && (Exposure(Run(g, d, [Check(a), Check(b), first, second]).world, g.account, g.outcomes) > g.cap
          <==> e + SpendOf(g, Desk(d.world, [a, b]), first)
                 + SpendOf(g, Desk(first.after, if first.i == 0 then [b] else [a]), second) > g.cap)
  {
    hide Exposure, Outcome, Costed, SpendOf, Bounded, Run, RunSpend, AllowedRun;
    var rest := [first] + ([second] + []);
    assert [Check(a), Check(b), first, second] == [Check(a)] + ([Check(b)] + rest);
    PassesCapExactly(g, d, [Check(a), Check(b), first, second]);
    RunSplits(g, d, Check(a), [Check(b)] + rest);
    var d1 := Desk(d.world, [a]);
    assert Next(g, d, Check(a)) == d1;
    RunSplits(g, d1, Check(b), rest);
    var d2 := Desk(d.world, [a, b]);
    assert Next(g, d1, Check(b)) == d2;
    RunSplits(g, d2, first, [second] + []);
    var d3 := Desk(first.after, if first.i == 0 then [b] else [a]);
    assert Next(g, d2, first) == d3;
    RunSplits(g, d3, second, []);
    SpendNothing(g, Next(g, d3, second));
    ChecksSpendNothing(g, d, a);
    ChecksSpendNothing(g, d1, b);
  }

  lemma RunSplits(g: Rules, d: Desk, e: Event, es: seq<Event>)
    requires AllowedRun(g, d, [e] + es)
    ensures Allowed(g, d, e) && AllowedRun(g, Next(g, d, e), es)
    ensures RunSpend(g, d, [e] + es) == SpendOf(g, d, e) + RunSpend(g, Next(g, d, e), es)
  {
    hide Allowed, Next, SpendOf;
    assert ([e] + es)[1..] == es;
  }

  lemma SpendNothing(g: Rules, d: Desk)
    ensures AllowedRun(g, d, []) && RunSpend(g, d, []) == 0.0
  {
  }

  lemma ChecksSpendNothing(g: Rules, d: Desk, opp: Opportunity)
    ensures SpendOf(g, d, Check(opp)) == 0.0
  {
  }

  // ---- the bound is reached --------------------------------------------------------------

  const YES := Leg(1, 0, true)
  const NO := Leg(2, 1, false)
  const MARKET := Market(map[1 := Quote(1, 0.4, 0.45, None, None, None), 2 := Quote(2, 0.4, 0.45, None, None, None)], map[0 := Zero, 1 := Zero])
  const SETTINGS := Settings(Some(90.0), 1.0, map[])
  const TICKET := Opportunity(0, [ArbLeg(1, 0, true, 0.45, 100.0, 0.0), ArbLeg(2, 1, true, 0.45, 100.0, 0.0)], 90.0, 10.0, 10.0 / 90.0 * 10000.0)
  const BOOKS := [Some(MARKET.quotes[1]), Some(MARKET.quotes[2])]
  const LEGS := [IntentLeg(0, 1, true, 100.0, 0.45), IntentLeg(1, 2, true, 100.0, 0.45)]
  const RULES := Rules(map[0 := Venue(Zero, 0.0), 1 := Venue(Zero, 0.0)], 0, {1, 2}, 90.0, 90.0, 2)
  const FUNDED := State(map[0 := EMPTY.(cash := 90.0)], map[], map[], 0)
  const START := Desk(map[0 := FUNDED, 1 := FUNDED], [])

  /** The ticket is what detection finds on a group of two legs, at two venues
      that charge nothing, each asking forty-five cents: an edge of ten cents. */
  lemma TicketIsDetected()
    ensures Detected(0, [YES, NO], MARKET, SETTINGS, Found(TICKET))
    ensures Costed(TICKET)
  {
    var legs := [YES, NO];
    HundredContracts();
    assert PairStake(MARKET, SETTINGS, YES, NO) == 90.0;
    assert PairTicket(0, MARKET, SETTINGS, YES, NO) == TICKET;
    assert BestAt(legs, MARKET, SETTINGS, 0, 1);
    assert StakeOf(TICKET.legs, 1) == 45.0;
  }

  lemma HundredContracts()
    ensures PairQty(MARKET, SETTINGS, YES, NO) == 100.0
  {
  }

  function Filling(w: World): (p: Progress)
    requires w.Keys == RULES.venues.Keys
    ensures p.world.Keys == w.Keys
  {
    Committed(RULES.venues, w, IntentOf(0, TICKET, None), BOOKS, 2)
  }

  function SubmitOf(w: World): Event
    requires w.Keys == RULES.venues.Keys
  {
    Submit(0, None, BOOKS, BOOKS, Submission.Filled(Filling(w).orders), Filling(w).world)
  }

  ghost predicate Ready(w: World) {
    w.Keys == RULES.venues.Keys && HealthyWorld(w, 0) && w[0].Acct(0).cash >= 45.0 && w[1].Acct(0).cash >= 45.0
  }

  lemma LegsFill()
    ensures IntentOf(0, TICKET, None).legs == LEGS
    ensures forall i :: 0 <= i < 2 ==> PreviewFill(RULES.venues[i], BOOKS[i], true, 100.0, 0.45) == Fillable(0.45, 45.0)
  {
  }

  lemma NothingRefused(w: World)
    requires Ready(w)
    ensures Rejections(RULES.venues, w, 0, LEGS, BOOKS) == []
  {
    hide PreviewFill, HealthyWorld;
    LegsFill();
    assert LEGS[..1] == [LEGS[0]] && BOOKS[..1] == [BOOKS[0]];
    assert PreviewLeg(RULES.venues, w, 0, LEGS[0], BOOKS[0]).None? && PreviewLeg(RULES.venues, w, 0, LEGS[1], BOOKS[1]).None?;
    assert Rejections(RULES.venues, w, 0, [], []) == [];
    assert Rejections(RULES.venues, w, 0, LEGS[..1], BOOKS[..1]) == [];
  }

  lemma BothCovered(w: World)
    requires Ready(w)
    ensures Covered(RULES.venues, w, IntentOf(0, TICKET, None), BOOKS, 2)
    ensures forall v :: v in w ==> WantedAt(RULES.venues, LEGS, BOOKS, v, 2) == 45.0
  {
    hide PreviewFill, HealthyWorld;
    LegsFill();
    forall v | v in w ensures WantedAt(RULES.venues, LEGS, BOOKS, v, 2) == 45.0 {
      assert WantedAt(RULES.venues, LEGS, BOOKS, v, 0) == 0.0;
      assert WantedAt(RULES.venues, LEGS, BOOKS, v, 1) == if v == 0 then 45.0 else 0.0;
    }
  }

  lemma NinetySpent()
    ensures ShownSpend(RULES.venues, LEGS, BOOKS, {1, 2}, 2) == 90.0
  {
    assert ShownSpend(RULES.venues, LEGS, BOOKS, {1, 2}, 0) == 0.0;
    assert ShownSpend(RULES.venues, LEGS, BOOKS, {1, 2}, 1) == 45.0;
  }

  /** The ticket fills wherever forty-five dollars are free at each venue. */
  lemma TicketFills(w: World)
    requires Ready(w)
    ensures var p := Filling(w);
      && Outcome(RULES.venues, w, p.world, IntentOf(0, TICKET, None), BOOKS, BOOKS, Submission.Filled(p.orders))
      && HealthyWorld(p.world, 0)
      && Exposure(p.world, 0, {1, 2}) == Exposure(w, 0, {1, 2}) + 90.0
  {
    hide HealthyWorld, Exposure, Outcome, Filling, ShownSpend, Costed, IntentOf;
    LegsFill();
    TicketIsDetected();
    TicketOutcome(w);
    NinetySpent();
    SubmittedExposure(RULES.venues, w, Filling(w).world, 0, TICKET, None, BOOKS, BOOKS, Submission.Filled(Filling(w).orders), {1, 2});
  }

  lemma TicketOutcome(w: World)
    requires Ready(w)
    ensures var p := Filling(w);
      && Outcome(RULES.venues, w, p.world, IntentOf(0, TICKET, None), BOOKS, BOOKS, Submission.Filled(p.orders))
      && forall v :: v in w ==> p.world[v].Acct(0).cash == w[v].Acct(0).cash - 45.0
  {
    hide HealthyWorld, Committed, Covered, Rejections, WantedAt;
    LegsFill();
    NothingRefused(w);
    BothCovered(w);
    CommitFillsExactly(RULES.venues, w, IntentOf(0, TICKET, None), BOOKS, 2);
  }

  lemma NothingHeld()
    ensures Ready(START.world) && Exposure(START.world, 0, {1, 2}) == 0.0
  {
    assert GroupCost(FUNDED.Acct(0), {1, 2}) == map[];
    var m := BasisMap(START.world, 0, {1, 2});
    SumPick(m, 0);
    SumPick(m - {0}, 1);
    assert m - {0} - {1} == map[];
  }

  lemma StepThenRun(g: Rules, d: Desk, e: Event, es: seq<Event>)
    requires Allowed(g, d, e) && AllowedRun(g, Next(g, d, e), es)
    ensures AllowedRun(g, d, [e] + es) && Run(g, d, [e] + es) == Run(g, Next(g, d, e), es)
  {
  }

  lemma CheckPasses(w: World, pending: seq<Opportunity>)
    requires w == START.world && |pending| < 2
    ensures Allowed(RULES, Desk(w, pending), Check(TICKET))
    ensures Next(RULES, Desk(w, pending), Check(TICKET)) == Desk(w, pending + [TICKET])
  {
    hide Exposure, Costed, HealthyWorld;
    NothingHeld();
    TicketIsDetected();
  }

  lemma SubmitFills(w: World, rest: seq<Opportunity>)
    requires Ready(w)
    ensures Allowed(RULES, Desk(w, [TICKET] + rest), SubmitOf(w))
    ensures Next(RULES, Desk(w, [TICKET] + rest), SubmitOf(w)) == Desk(Filling(w).world, rest)
  {
    hide Outcome, HealthyWorld, Exposure, Filling;
    TicketFills(w);
    assert ([TICKET] + rest)[..0] + ([TICKET] + rest)[1..] == rest;
  }

  /** Two detected tickets checked before either is committed both pass, and both
      fill: the group ends at twice its cap, which is the bound for two. */
  lemma TwoTicketsPassTheCap()
    ensures Detected(0, [YES, NO], MARKET, SETTINGS, Found(TICKET))
    ensures var w1 := Filling(START.world).world;
      var es := [Check(TICKET), Check(TICKET), SubmitOf(START.world), SubmitOf(w1)];
      && Bounded(RULES, START) && AllowedRun(RULES, START, es)
      && Exposure(Run(RULES, START, es).world, 0, {1, 2}) == RULES.cap + Slack(RULES) == 180.0
  {
    hide Exposure, HealthyWorld, Outcome, Allowed, Next, Filling, SubmitOf, Detected, Bounded, Slack, Ready, Costed, AllowedRun, Run;
    TicketIsDetected();
    NothingHeld();
    BoundedStart();
    var w0 := START.world;
    FirstLeavesReady();
    BothFill(w0);
    CheckPasses(w0, []);
    CheckPasses(w0, [TICKET]);
    var rest := [SubmitOf(w0)] + ([SubmitOf(Filling(w0).world)] + []);
    assert [] + [TICKET] == [TICKET];
    StepThenRun(RULES, Desk(w0, [TICKET]), Check(TICKET), rest);
    StepThenRun(RULES, START, Check(TICKET), [Check(TICKET)] + rest);
    assert [Check(TICKET)] + ([Check(TICKET)] + rest) == [Check(TICKET), Check(TICKET), SubmitOf(w0), SubmitOf(Filling(w0).world)];
  }

  lemma BoundedStart()
    ensures Bounded(RULES, START) && RULES.cap + Slack(RULES) == 180.0 && RULES.venues.Keys == START.world.Keys
  {
    hide Exposure, HealthyWorld;
    NothingHeld();
  }

  lemma FirstLeavesReady()
    ensures Ready(Filling(START.world).world)
  {
    hide Exposure, HealthyWorld, Outcome, Filling;
    NothingHeld();
    TicketFills(START.world);
    TicketOutcome(START.world);
  }

  /** Both tickets waiting at the router fill where there is cash for both. */
  lemma BothFill(w: World)
    requires Ready(w) && Ready(Filling(w).world)
    ensures var w1 := Filling(w).world;
      var d, es := Desk(w, [TICKET] + [TICKET]), [SubmitOf(w)] + ([SubmitOf(w1)] + []);
      && AllowedRun(RULES, d, es)
      && Exposure(Run(RULES, d, es).world, 0, {1, 2}) == Exposure(w, 0, {1, 2}) + 180.0
  {
    hide Exposure, HealthyWorld, Outcome, Allowed, Next, Filling, SubmitOf;
    var w1 := Filling(w).world;
    TicketFills(w);
    TicketFills(w1);
    SubmitFills(w, [TICKET]);
    SubmitFills(w1, []);
    assert [TICKET] + [] == [TICKET];
    StepThenRun(RULES, Desk(w1, [TICKET]), SubmitOf(w1), []);
    StepThenRun(RULES, Desk(w, [TICKET] + [TICKET]), SubmitOf(w), [SubmitOf(w1)] + []);
  }
}
