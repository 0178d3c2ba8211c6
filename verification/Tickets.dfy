/** What the router's commit guarantees about a ticket, for any number of legs,
    several of which may share a venue. */
module Tickets {
  import opened Common
  import opened Types
  import opened Fees
  import opened Ledger
  import opened LedgerRuns
  import opened PaperBroker
  import opened ExecutionRouter
  import opened Qty
  import ArbEngine

  function CostOfFill(leg: IntentLeg, fill: Fill): real {
    if leg.isBuy then fill.price * leg.qty + fill.fee else -(fill.price * leg.qty) + fill.fee
  }

  /** What the first n fills took out of a venue's cash. */
  function DebitsAt(legs: seq<IntentLeg>, fills: seq<Fill>, v: Id, n: nat): real
    requires n <= |legs| && n <= |fills|
  {
    if n == 0 then 0.0
    else DebitsAt(legs, fills, v, n - 1) + (if legs[n - 1].venue == v then CostOfFill(legs[n - 1], fills[n - 1]) else 0.0)
  }

  /** The fees the first n fills charged on one outcome at a venue. */
  function FeesAt(legs: seq<IntentLeg>, fills: seq<Fill>, v: Id, o: Id, n: nat): real
    requires n <= |legs| && n <= |fills|
  {
    if n == 0 then 0.0
    else FeesAt(legs, fills, v, o, n - 1)
         + (if legs[n - 1].venue == v && legs[n - 1].outcome == o then fills[n - 1].fee else 0.0)
  }

  /** A leg filled within its limit and within the depth the book showed. */
  ghost predicate WithinLimits(cfg: Venue, leg: IntentLeg, order: Order, fill: Fill, reading: Option<Quote>) {
    && order.filled && order.venue == leg.venue && order.outcome == leg.outcome && order.qty == leg.qty
    && order.isBuy == leg.isBuy && order.limit == leg.limit && fill.order == order.id && fill.qty == leg.qty
    && reading.Some?
    && (var depth := if leg.isBuy then reading.value.askSize else reading.value.bidSize;
        depth.Some? ==> 0.0 < depth.value && leg.qty <= depth.value)
    && fill.price == Slip(if leg.isBuy then reading.value.ask else reading.value.bid, leg.isBuy, cfg.slippageBps)
    && (if leg.isBuy then fill.price <= leg.limit else leg.limit <= fill.price)
    && fill.fee == cfg.fees.Fee(fill.price, leg.qty)
  }

  lemma AttemptWithinLimits(s: State, cfg: Venue, a: Id, leg: IntentLeg, ticket: Option<Id>, reading: Option<Quote>)
    ensures var r := Attempted(s, leg.venue, cfg, a, leg, ticket, reading);
      r.fill.Some? ==>
        && WithinLimits(cfg, leg, r.order, r.fill.value, reading)
        && (leg.isBuy ==> CostOfFill(leg, r.fill.value) <= s.Acct(a).cash)
        && r.state.Acct(a) == Ledger.Filled(s.Acct(a), leg.outcome, leg.isBuy, leg.qty, r.fill.value.price, r.fill.value.fee)
        && r.state.Acct(a).cash == s.Acct(a).cash - CostOfFill(leg, r.fill.value)
  {
    hide Acquired, Released, Slip;
    var r := Attempted(s, leg.venue, cfg, a, leg, ticket, reading);
    if r.fill.Some? {
      FillCash(s.Acct(a), leg.outcome, leg.isBuy, leg.qty, r.fill.value.price, r.fill.value.fee);
    }
  }

  lemma FillCash(st: Account, o: Id, isBuy: bool, qty: real, px: real, fee: real)
    ensures Ledger.Filled(st, o, isBuy, qty, px, fee).cash
         == if isBuy then st.cash - (px * qty + fee) else st.cash + (px * qty - fee)
  {
  }

  /** One order attempt at a broker is one step of the account's ledger, filled or
      refused. */
  lemma AttemptIsLedgerStep(s: State, id: Id, cfg: Venue, a: Id, leg: IntentLeg, ticket: Option<Id>, reading: Option<Quote>)
    ensures Attempted(s, id, cfg, a, leg, ticket, reading).state.Acct(a)
         == Step(cfg, s.Acct(a), Trade(leg.outcome, leg.isBuy, leg.qty, leg.limit, reading))
  {
  }

  /** One leg of the commit, seen from the ticket's account at every venue. */
  ghost predicate LegStep(cfg: Venue, p: Progress, q: Progress, a: Id, leg: IntentLeg, reading: Option<Quote>)
    requires p.world.Keys == q.world.Keys && leg.venue in p.world
  {
    && (forall v :: v in p.world && v != leg.venue ==> q.world[v].Acct(a) == p.world[v].Acct(a))
    && (q.stopped.Some? ==>
          q.fills == p.fills && q.orders == p.orders && q.world[leg.venue].Acct(a) == p.world[leg.venue].Acct(a))
    && (q.stopped.None? ==>
          exists order, fill ::
            && q.fills == p.fills + [fill] && q.orders == p.orders + [order]
            && LegFilled(cfg, p.world[leg.venue].Acct(a), q.world[leg.venue].Acct(a), leg, order, fill, reading))
  }

  ghost predicate LegFilled(cfg: Venue, st: Account, st': Account, leg: IntentLeg, order: Order, fill: Fill, reading: Option<Quote>) {
    && WithinLimits(cfg, leg, order, fill, reading)
    && (leg.isBuy ==> CostOfFill(leg, fill) <= st.cash)
    && st' == Ledger.Filled(st, leg.outcome, leg.isBuy, leg.qty, fill.price, fill.fee)
    && st'.cash == st.cash - CostOfFill(leg, fill)
  }

  lemma NextLegStep(venues: Venues, p: Progress, a: Id, leg: IntentLeg, ticket: Option<Id>, reading: Option<Quote>)
    requires venues.Keys == p.world.Keys && leg.venue in venues && p.stopped.None?
    ensures LegStep(venues[leg.venue], p, NextLeg(venues, p, a, leg, ticket, reading), a, leg, reading)
  {
    hide Attempted, WithinLimits, CostOfFill, Ledger.Filled;
    var s := p.world[leg.venue];
    var r := Attempted(s, leg.venue, venues[leg.venue], a, leg, ticket, reading);
    AttemptWithinLimits(s, venues[leg.venue], a, leg, ticket, reading);
    AttemptBooks(s, leg.venue, venues[leg.venue], a, leg, ticket, reading);
    if r.fill.Some? {
      assert LegFilled(venues[leg.venue], s.Acct(a), r.state.Acct(a), leg, r.order, r.fill.value, reading);
    }
  }

  /** One more leg of the commit: nothing after a rejection, else a leg step. */
  lemma CommitStep(venues: Venues, w: World, intent: Intent, readings: Readings, n: nat)
    requires venues.Keys == w.Keys && 0 < n <= |intent.legs| == |readings| && AllKnown(venues, intent)
    ensures var p, q := Committed(venues, w, intent, readings, n - 1), Committed(venues, w, intent, readings, n);
      if p.stopped.Some? then q == p
      else LegStep(venues[intent.legs[n - 1].venue], p, q, intent.account, intent.legs[n - 1], readings[n - 1])
  {
    hide NextLeg, LegStep;
    var p := Committed(venues, w, intent, readings, n - 1);
    if p.stopped.None? {
      NextLegStep(venues, p, intent.account, intent.legs[n - 1], intent.ticket, readings[n - 1]);
    }
  }

  lemma CommitStart(venues: Venues, w: World, intent: Intent, readings: Readings)
    requires venues.Keys == w.Keys && |intent.legs| == |readings| && AllKnown(venues, intent)
    ensures Committed(venues, w, intent, readings, 0) == Progress(w, [], [], None)
  {
  }

  /** Every leg filled so far is within its limit and within the depth shown. */
  lemma {:induction false} FilledLegs(venues: Venues, w: World, intent: Intent, readings: Readings, n: nat)
    requires venues.Keys == w.Keys && n <= |intent.legs| == |readings| && AllKnown(venues, intent)
    ensures var p := Committed(venues, w, intent, readings, n);
      && |p.orders| == |p.fills| <= n
      && (p.stopped.None? <==> |p.fills| == n)
      && forall i :: 0 <= i < |p.fills| ==>
           WithinLimits(venues[intent.legs[i].venue], intent.legs[i], p.orders[i], p.fills[i], readings[i])
  {
    hide Committed, WithinLimits, CostOfFill, Ledger.Filled;
    if n == 0 {
      CommitStart(venues, w, intent, readings);
    } else {
      FilledLegs(venues, w, intent, readings, n - 1);
      CommitStep(venues, w, intent, readings, n);
    }
  }

  /** Each venue has been debited exactly its own legs' costs. */
  lemma {:induction false} DebitedExactly(venues: Venues, w: World, intent: Intent, readings: Readings, n: nat, v: Id)
    requires venues.Keys == w.Keys && n <= |intent.legs| == |readings| && AllKnown(venues, intent) && v in w
    ensures var p := Committed(venues, w, intent, readings, n);
      && |p.fills| <= |intent.legs|
      && p.world[v].Acct(intent.account).cash
           == w[v].Acct(intent.account).cash - DebitsAt(intent.legs, p.fills, v, |p.fills|)
  {
    hide Committed, LegStep, CostOfFill, State.Acct;
    if n == 0 {
      CommitStart(venues, w, intent, readings);
    } else {
      DebitedExactly(venues, w, intent, readings, n - 1, v);
      FilledLegs(venues, w, intent, readings, n - 1);
      CommitStep(venues, w, intent, readings, n);
      var p, q := Committed(venues, w, intent, readings, n - 1), Committed(venues, w, intent, readings, n);
      if p.stopped.None? {
        LegMoves(venues[intent.legs[n - 1].venue], p, q, intent.account, intent.legs[n - 1], readings[n - 1], v, 0);
        if q.stopped.None? { DebitsPrefix(intent.legs, p.fills, q.fills, v, n - 1); }
      }
    }
  }

  lemma {:induction false} DebitsPrefix(legs: seq<IntentLeg>, fills: seq<Fill>, more: seq<Fill>, v: Id, n: nat)
    requires n <= |legs| && n <= |fills| && fills <= more
    ensures DebitsAt(legs, more, v, n) == DebitsAt(legs, fills, v, n)
  {
    hide CostOfFill;
    if n > 0 { DebitsPrefix(legs, fills, more, v, n - 1); }
  }

  // ---- when a ticket fills ---------------------------------------------------------

  /** What a leg would cost at the book it is shown. */
  function LegCost(cfg: Venue, leg: IntentLeg, reading: Option<Quote>): real {
    match PreviewFill(cfg, reading, leg.isBuy, leg.qty, leg.limit)
    case Fillable(_, cost) => cost
    case Refused(_) => 0.0
  }

  function WantedAt(venues: Venues, legs: seq<IntentLeg>, readings: Readings, v: Id, n: nat): real
    requires n <= |legs| == |readings|
  {
    if n == 0 then 0.0
    else
      WantedAt(venues, legs, readings, v, n - 1)
      + (if legs[n - 1].venue == v && v in venues then LegCost(venues[v], legs[n - 1], readings[n - 1]) else 0.0)
  }

  /** Every one of the first n legs would fill on its own, and each one's venue has
      the cash for all of them together. */
  ghost predicate Covered(venues: Venues, w: World, intent: Intent, readings: Readings, n: nat)
    requires venues.Keys == w.Keys && n <= |intent.legs| == |readings| && AllKnown(venues, intent)
  {
    forall i :: 0 <= i < n ==>
      var leg := intent.legs[i];
      && PreviewFill(venues[leg.venue], readings[i], leg.isBuy, leg.qty, leg.limit).Fillable?
      && WantedAt(venues, intent.legs, readings, leg.venue, n) <= w[leg.venue].Acct(intent.account).cash
  }

  ghost predicate CashLeft(venues: Venues, w: World, u: World, intent: Intent, readings: Readings, n: nat)
    requires venues.Keys == w.Keys == u.Keys && n <= |intent.legs| == |readings|
  {
    forall v :: v in w ==>
      u[v].Acct(intent.account).cash == w[v].Acct(intent.account).cash - WantedAt(venues, intent.legs, readings, v, n)
  }

  lemma BuyFillsExactly(s: State, cfg: Venue, a: Id, leg: IntentLeg, ticket: Option<Id>, reading: Option<Quote>)
    requires leg.isBuy
    ensures var r := Attempted(s, leg.venue, cfg, a, leg, ticket, reading);
      && (r.fill.Some? <==> PreviewFill(cfg, reading, true, leg.qty, leg.limit).Fillable? && LegCost(cfg, leg, reading) <= s.Acct(a).cash)
      && (r.fill.Some? ==> r.state.Acct(a).cash == s.Acct(a).cash - LegCost(cfg, leg, reading))
  {
    hide Acquired, Slip;
    var r := Attempted(s, leg.venue, cfg, a, leg, ticket, reading);
    if r.fill.Some? { FillCash(s.Acct(a), leg.outcome, true, leg.qty, r.fill.value.price, r.fill.value.fee); }
  }

  lemma LegCostNonNegative(cfg: Venue, leg: IntentLeg, reading: Option<Quote>)
    requires cfg.Valid() && leg.isBuy && leg.qty >= 0.0
    ensures LegCost(cfg, leg, reading) >= 0.0
  {
    PreviewFillsExactly(cfg, reading, true, leg.qty, leg.limit);
    if reading.Some? {
      var px := Slip(reading.value.ask, true, cfg.slippageBps);
      SlipInRange(reading.value.ask, true, cfg.slippageBps);
      FeeNonNegative(cfg.fees, px, leg.qty);
      MulNonNeg(px, leg.qty);
    }
  }

  lemma CoveredNext(venues: Venues, w: World, intent: Intent, readings: Readings, n: nat)
    requires venues.Keys == w.Keys && 0 < n <= |intent.legs| == |readings| && AllKnown(venues, intent)
    requires LegCost(venues[intent.legs[n - 1].venue], intent.legs[n - 1], readings[n - 1]) >= 0.0
    ensures var leg := intent.legs[n - 1];
      Covered(venues, w, intent, readings, n) <==>
        && Covered(venues, w, intent, readings, n - 1)
        && PreviewFill(venues[leg.venue], readings[n - 1], leg.isBuy, leg.qty, leg.limit).Fillable?
        && WantedAt(venues, intent.legs, readings, leg.venue, n) <= w[leg.venue].Acct(intent.account).cash
  {
    hide PreviewFill, LegCost;
    if Covered(venues, w, intent, readings, n) {
      forall i | 0 <= i < n - 1
        ensures WantedAt(venues, intent.legs, readings, intent.legs[i].venue, n - 1) <= w[intent.legs[i].venue].Acct(intent.account).cash
      {
        assert WantedAt(venues, intent.legs, readings, intent.legs[i].venue, n) <= w[intent.legs[i].venue].Acct(intent.account).cash;
      }
    }
  }

  /** A ticket of buys fills if and only if every leg would fill on its own and
      each venue has the cash for all its legs together: the commit refuses
      nothing it could carry out, and each leg's own preview is not enough. */
  lemma {:induction false} CommitFillsExactly(venues: Venues, w: World, intent: Intent, readings: Readings, n: nat)
    requires venues.Keys == w.Keys && n <= |intent.legs| == |readings| && AllKnown(venues, intent)
    requires forall v :: v in venues ==> venues[v].Valid()
    requires forall leg :: leg in intent.legs ==> leg.isBuy && leg.qty >= 0.0
    ensures var p := Committed(venues, w, intent, readings, n);
      && (p.stopped.None? <==> Covered(venues, w, intent, readings, n))
      && (p.stopped.None? ==> CashLeft(venues, w, p.world, intent, readings, n))
  {
    hide NextLeg, LegCost, PreviewFill, Covered, CashLeft;
    if n == 0 {
      NothingWanted(venues, w, intent, readings);
    } else {
      CommitFillsExactly(venues, w, intent, readings, n - 1);
      var p, leg := Committed(venues, w, intent, readings, n - 1), intent.legs[n - 1];
      assert leg in intent.legs;
      LegCostNonNegative(venues[leg.venue], leg, readings[n - 1]);
      CoveredNext(venues, w, intent, readings, n);
      if p.stopped.None? { NextFills(venues, w, p, intent, readings, n); }
    }
  }

  lemma NextFills(venues: Venues, w: World, p: Progress, intent: Intent, readings: Readings, n: nat)
    requires venues.Keys == w.Keys == p.world.Keys && 0 < n <= |intent.legs| == |readings| && AllKnown(venues, intent)
    requires p.stopped.None? && intent.legs[n - 1].isBuy && CashLeft(venues, w, p.world, intent, readings, n - 1)
    ensures var leg := intent.legs[n - 1];
      var q := NextLeg(venues, p, intent.account, leg, intent.ticket, readings[n - 1]);
      && (q.stopped.None? <==>
            && PreviewFill(venues[leg.venue], readings[n - 1], leg.isBuy, leg.qty, leg.limit).Fillable?
            && WantedAt(venues, intent.legs, readings, leg.venue, n) <= w[leg.venue].Acct(intent.account).cash)
      && (q.stopped.None? ==> CashLeft(venues, w, q.world, intent, readings, n))
  {
    hide Attempted, LegCost, PreviewFill, State.Acct;
    var leg := intent.legs[n - 1];
    BuyFillsExactly(p.world[leg.venue], venues[leg.venue], intent.account, leg, intent.ticket, readings[n - 1]);
    AttemptBooks(p.world[leg.venue], leg.venue, venues[leg.venue], intent.account, leg, intent.ticket, readings[n - 1]);
  }

  lemma NothingWanted(venues: Venues, w: World, intent: Intent, readings: Readings)
    requires venues.Keys == w.Keys && |intent.legs| == |readings| && AllKnown(venues, intent)
    ensures Covered(venues, w, intent, readings, 0) && CashLeft(venues, w, w, intent, readings, 0)
  {
  }

  /** Whether a submitted ticket of buys will fill, from the books its legs are shown
      and the cash there is before: no leg is refused at preview, and each venue
      covers its legs at commit. */
  ghost predicate WillFill(venues: Venues, w: World, intent: Intent, preview: Readings, commit: Readings)
    requires venues.Keys == w.Keys && |intent.legs| == |preview| == |commit|
  {
    && Rejections(venues, w, intent.account, intent.legs, preview) == []
    && AllKnown(venues, intent) && Covered(venues, w, intent, commit, |intent.legs|)
  }

  lemma FillsExactly(venues: Venues, w: World, w': World, intent: Intent, preview: Readings, commit: Readings, r: Submission)
    requires venues.Keys == w.Keys == w'.Keys && |intent.legs| == |preview| == |commit|
    requires Outcome(venues, w, w', intent, preview, commit, r)
    requires forall v :: v in venues ==> venues[v].Valid()
    requires forall leg :: leg in intent.legs ==> leg.isBuy && leg.qty >= 0.0
    ensures r.Filled? <==> WillFill(venues, w, intent, preview, commit)
  {
    hide Committed, Covered, Rejections;
    if Rejections(venues, w, intent.account, intent.legs, preview) == [] {
      CommitFillsExactly(venues, w, intent, commit, |intent.legs|);
    }
  }

  /** No leg overdraws its venue. */
  lemma {:induction false} NoOverdraft(venues: Venues, w: World, intent: Intent, readings: Readings, n: nat, v: Id)
    requires venues.Keys == w.Keys && n <= |intent.legs| == |readings| && AllKnown(venues, intent) && v in w
    requires forall u :: u in venues ==> venues[u].Valid()
    requires forall leg :: leg in intent.legs ==> leg.qty >= 0.0
    requires w[v].Acct(intent.account).cash >= 0.0
    ensures Committed(venues, w, intent, readings, n).world[v].Acct(intent.account).cash >= 0.0
  {
    hide Committed, WithinLimits, CostOfFill, Ledger.Filled;
    if n == 0 {
      CommitStart(venues, w, intent, readings);
    } else {
      NoOverdraft(venues, w, intent, readings, n - 1, v);
      CommitStep(venues, w, intent, readings, n);
      var p, q := Committed(venues, w, intent, readings, n - 1), Committed(venues, w, intent, readings, n);
      var leg := intent.legs[n - 1];
      if leg.venue == v && p.stopped.None? && q.stopped.None? {
        var order, fill :| LegFilled(venues[v], p.world[v].Acct(intent.account), q.world[v].Acct(intent.account), leg, order, fill, readings[n - 1]);
        LegKeepsCash(venues[v], p.world[v].Acct(intent.account), q.world[v].Acct(intent.account), leg, order, fill, readings[n - 1]);
      }
    }
  }

  lemma LegKeepsCash(cfg: Venue, st: Account, st': Account, leg: IntentLeg, order: Order, fill: Fill, reading: Option<Quote>)
    requires cfg.Valid() && leg.qty >= 0.0 && st.cash >= 0.0
    requires LegFilled(cfg, st, st', leg, order, fill, reading)
    ensures st'.cash >= 0.0
  {
    hide Ledger.Filled;
    if !leg.isBuy {
      SlipInRange(reading.value.bid, false, cfg.slippageBps);
      SaleProceedsNonNegative(cfg.fees, fill.price, leg.qty);
    }
  }

  /** The fees a commit leaves on an account whose legs are all buys: what was
      carried, plus what each filled leg charged. */
  lemma {:induction false} FeesLeft(venues: Venues, w: World, intent: Intent, readings: Readings, n: nat, v: Id, o: Id)
    requires venues.Keys == w.Keys && n <= |intent.legs| == |readings| && AllKnown(venues, intent) && v in w
    requires forall leg :: leg in intent.legs ==> leg.isBuy
    ensures var p := Committed(venues, w, intent, readings, n);
      && |p.fills| <= |intent.legs|
      && p.world[v].Acct(intent.account).Fees(o)
           == w[v].Acct(intent.account).Fees(o) + FeesAt(intent.legs, p.fills, v, o, |p.fills|)
  {
    hide Committed, LegStep, State.Acct, Account.Fees;
    if n == 0 {
      CommitStart(venues, w, intent, readings);
    } else {
      FeesLeft(venues, w, intent, readings, n - 1, v, o);
      FilledLegs(venues, w, intent, readings, n - 1);
      CommitStep(venues, w, intent, readings, n);
      var p, q := Committed(venues, w, intent, readings, n - 1), Committed(venues, w, intent, readings, n);
      if p.stopped.None? {
        var leg := intent.legs[n - 1];
        LegMoves(venues[leg.venue], p, q, intent.account, leg, readings[n - 1], v, o);
        if q.stopped.None? { FeesPrefix(intent.legs, p.fills, q.fills, v, o, n - 1); }
      }
    }
  }

  /** What one leg of the commit does to a venue's cash and to the fees carried on
      an outcome there. */
  lemma LegMoves(cfg: Venue, p: Progress, q: Progress, a: Id, leg: IntentLeg, reading: Option<Quote>, v: Id, o: Id)
    requires p.world.Keys == q.world.Keys && leg.venue in p.world && v in p.world && LegStep(cfg, p, q, a, leg, reading)
    ensures q.stopped.Some? ==> q.fills == p.fills && q.world[v].Acct(a) == p.world[v].Acct(a)
    ensures q.stopped.None? ==>
      && |q.fills| == |p.fills| + 1 && p.fills <= q.fills
      && (var fill := q.fills[|p.fills|];
          && q.world[v].Acct(a).cash == p.world[v].Acct(a).cash - (if leg.venue == v then CostOfFill(leg, fill) else 0.0)
          && (leg.isBuy ==>
                q.world[v].Acct(a).Fees(o) == p.world[v].Acct(a).Fees(o) + (if leg.venue == v && leg.outcome == o then fill.fee else 0.0)))
  {
    hide WithinLimits, CostOfFill, Ledger.Filled, Account.Fees;
    if q.stopped.None? {
      var order, fill :| q.fills == p.fills + [fill] && q.orders == p.orders + [order]
        && LegFilled(cfg, p.world[leg.venue].Acct(a), q.world[leg.venue].Acct(a), leg, order, fill, reading);
      if leg.isBuy { BuyFees(p.world[leg.venue].Acct(a), leg.outcome, leg.qty, fill.price, fill.fee, o); }
    }
  }

  lemma BuyFees(st: Account, o: Id, qty: real, px: real, fee: real, other: Id)
    ensures Ledger.Filled(st, o, true, qty, px, fee).Fees(other) == st.Fees(other) + (if other == o then fee else 0.0)
  {
  }

  lemma {:induction false} FeesPrefix(legs: seq<IntentLeg>, fills: seq<Fill>, more: seq<Fill>, v: Id, o: Id, n: nat)
    requires n <= |legs| && n <= |fills| && fills <= more
    ensures FeesAt(legs, more, v, o, n) == FeesAt(legs, fills, v, o, n)
  {
    if n > 0 { FeesPrefix(legs, fills, more, v, o, n - 1); }
  }

  /** A failed ticket of buys leaves each broker's account as it was, with
      exactly the fees of the unwound legs still carried on it. */
  lemma UnwoundTicket(venues: Venues, w: World, w': World, intent: Intent, preview: Readings, commit: Readings, r: Submission, v: Id, o: Id)
    requires venues.Keys == w.Keys == w'.Keys && |intent.legs| == |preview| == |commit|
    requires Outcome(venues, w, w', intent, preview, commit, r) && r.Unwound? && v in w
    requires forall leg :: leg in intent.legs ==> leg.isBuy
    ensures var p := Committed(venues, w, intent, commit, |intent.legs|);
      && |p.fills| < |intent.legs|
      && w'[v].orders == w[v].orders && w'[v].fills == w[v].fills
      && w'[v].Acct(intent.account) == w[v].Acct(intent.account).(openFees := w'[v].Acct(intent.account).openFees)
      && w'[v].Acct(intent.account).Fees(o)
           == w[v].Acct(intent.account).Fees(o) + FeesAt(intent.legs, p.fills, v, o, |p.fills|)
  {
    FeesLeft(venues, w, intent, commit, |intent.legs|, v, o);
    FilledLegs(venues, w, intent, commit, |intent.legs|);
  }

  // ---- what an unwound ticket leaves behind -------------------------------------

  /** The leg at which a ticket of buys stops: the first that does not fill on its
      own or takes its venue past its cash. */
  ghost predicate StopsAt(venues: Venues, w: World, intent: Intent, readings: Readings, n: nat)
    requires venues.Keys == w.Keys && |intent.legs| == |readings|
  {
    AllKnown(venues, intent) && 0 < n <= |intent.legs| && Covered(venues, w, intent, readings, n - 1) && !Covered(venues, w, intent, readings, n)
  }

  /** The fee a buy is charged at the book it is shown. */
  function ShownFee(cfg: Venue, leg: IntentLeg, reading: Option<Quote>): real {
    if reading.None? then 0.0 else cfg.fees.Fee(Slip(reading.value.ask, true, cfg.slippageBps), leg.qty)
  }

  /** No venue charges a fee on any of its first n legs. */
  ghost predicate FreeLegs(venues: Venues, intent: Intent, readings: Readings, n: nat)
    requires n <= |intent.legs| == |readings|
  {
    forall v :: v in venues ==> FreeAt(venues, intent, readings, v, n)
  }

  ghost predicate FreeAt(venues: Venues, intent: Intent, readings: Readings, v: Id, n: nat)
    requires n <= |intent.legs| == |readings| && v in venues
  {
    forall i :: 0 <= i < n && intent.legs[i].venue == v ==> ShownFee(venues[v], intent.legs[i], readings[i]) == 0.0
  }

  /** The commit fills exactly the legs before the stop. */
  lemma {:induction false} FillsUpToStop(venues: Venues, w: World, intent: Intent, readings: Readings, n: nat, m: nat)
    requires venues.Keys == w.Keys && |intent.legs| == |readings| && AllKnown(venues, intent)
    requires forall v :: v in venues ==> venues[v].Valid()
    requires forall leg :: leg in intent.legs ==> leg.isBuy && leg.qty >= 0.0
    requires StopsAt(venues, w, intent, readings, n) && n <= m <= |intent.legs|
    ensures var p := Committed(venues, w, intent, readings, m); p.stopped.Some? && |p.fills| == n - 1
  {
    hide Committed, Covered, WithinLimits, CostOfFill, Ledger.Filled;
    CommitStep(venues, w, intent, readings, m);
    if m == n {
      CommitFillsExactly(venues, w, intent, readings, n - 1);
      CommitFillsExactly(venues, w, intent, readings, n);
      FilledLegs(venues, w, intent, readings, n - 1);
    } else {
      FillsUpToStop(venues, w, intent, readings, n, m - 1);
    }
  }

  lemma {:induction false} StopExists(venues: Venues, w: World, intent: Intent, readings: Readings, m: nat)
    requires venues.Keys == w.Keys && m <= |intent.legs| == |readings| && AllKnown(venues, intent)
    requires !Covered(venues, w, intent, readings, m)
    ensures exists n: nat :: StopsAt(venues, w, intent, readings, n)
  {
    hide Covered;
    if m == 0 {
      NothingWanted(venues, w, intent, readings);
    } else if Covered(venues, w, intent, readings, m - 1) {
      assert StopsAt(venues, w, intent, readings, m);
    } else {
      StopExists(venues, w, intent, readings, m - 1);
    }
  }

  lemma ShownFeeNonNegative(cfg: Venue, leg: IntentLeg, reading: Option<Quote>)
    requires cfg.Valid()
    ensures ShownFee(cfg, leg, reading) >= 0.0
  {
    if reading.Some? {
      SlipInRange(reading.value.ask, true, cfg.slippageBps);
      FeeNonNegative(cfg.fees, Slip(reading.value.ask, true, cfg.slippageBps), leg.qty);
    }
  }

  /** Fills that charged what their legs were shown. */
  ghost predicate ChargedAsShown(venues: Venues, intent: Intent, readings: Readings, fills: seq<Fill>, n: nat)
    requires n <= |intent.legs| == |readings| && n <= |fills| && AllKnown(venues, intent)
  {
    forall i :: 0 <= i < n ==> fills[i].fee == ShownFee(venues[intent.legs[i].venue], intent.legs[i], readings[i])
  }

  /** The fees charged on an outcome are none exactly when each leg there was free. */
  lemma {:induction false} FeesAreShown(venues: Venues, intent: Intent, readings: Readings, fills: seq<Fill>, v: Id, o: Id, n: nat)
    requires n <= |intent.legs| == |readings| && n <= |fills| && AllKnown(venues, intent) && v in venues
    requires forall u :: u in venues ==> venues[u].Valid()
    requires ChargedAsShown(venues, intent, readings, fills, n)
    ensures FeesAt(intent.legs, fills, v, o, n) >= 0.0
    ensures FeesAt(intent.legs, fills, v, o, n) == 0.0 <==>
      forall i :: 0 <= i < n && intent.legs[i].venue == v && intent.legs[i].outcome == o ==> ShownFee(venues[v], intent.legs[i], readings[i]) == 0.0
  {
    hide ShownFee;
    if n > 0 {
      FeesAreShown(venues, intent, readings, fills, v, o, n - 1);
      ShownFeeNonNegative(venues[intent.legs[n - 1].venue], intent.legs[n - 1], readings[n - 1]);
    }
  }

  ghost predicate SameFees(before: Account, after: Account) { forall o: Id :: after.Fees(o) == before.Fees(o) }

  /** An account that gained carried fees alone has the contributed money it had
      exactly when it gained none. */
  lemma GainedFees(before: Account, after: Account)
    requires after == before.(openFees := after.openFees)
    requires forall o: Id :: before.Fees(o) <= after.Fees(o)
    ensures Contributed(after) == Contributed(before) <==> SameFees(before, after)
  {
    forall o | o in before.positions ensures CostOf(after, o) == CostOf(before, o) {
      SameProduct(after.Qty(o), after.Avg(o), before.Qty(o), before.Avg(o));
    }
    assert CostMap(after) == CostMap(before);
    forall o: Id ensures At(before.openFees, o) <= At(after.openFees, o) { assert before.Fees(o) <= after.Fees(o); }
    if SameFees(before, after) {
      forall o: Id ensures At(after.openFees, o) == At(before.openFees, o) { assert after.Fees(o) == before.Fees(o); }
      SumSame(after.openFees, before.openFees);
    } else {
      var o: Id :| after.Fees(o) != before.Fees(o);
      SumGap(before.openFees, after.openFees, o);
    }
  }

  /** At one venue. */
  lemma RollbackAt(venues: Venues, w: World, w': World, intent: Intent, preview: Readings, commit: Readings, r: Submission, n: nat, v: Id)
    requires venues.Keys == w.Keys == w'.Keys && |intent.legs| == |preview| == |commit|
    requires Outcome(venues, w, w', intent, preview, commit, r) && r.Unwound? && v in w && AllKnown(venues, intent)
    requires forall u :: u in venues ==> venues[u].Valid()
    requires forall leg :: leg in intent.legs ==> leg.isBuy && leg.qty >= 0.0
    requires StopsAt(venues, w, intent, commit, n)
    ensures var before, after := w[v].Acct(intent.account), w'[v].Acct(intent.account);
      && after == before.(openFees := after.openFees)
      && (SameFees(before, after) <==> FreeAt(venues, intent, commit, v, n - 1))
      && (Contributed(after) == Contributed(before) <==> FreeAt(venues, intent, commit, v, n - 1))
  {
    hide Outcome, Committed, Covered, WantedAt, FeesAt, Contributed, ShownFee, State.Acct, Account.Fees;
    var before, after := w[v].Acct(intent.account), w'[v].Acct(intent.account);
    var fills := Committed(venues, w, intent, commit, |intent.legs|).fills;
    FillsUpToStop(venues, w, intent, commit, n, |intent.legs|);
    ChargesAreShown(venues, w, intent, commit, |intent.legs|);
    forall o: Id
      ensures after == before.(openFees := after.openFees) && after.Fees(o) == before.Fees(o) + FeesAt(intent.legs, fills, v, o, n - 1)
      ensures FeesAt(intent.legs, fills, v, o, n - 1) >= 0.0
      ensures FeesAt(intent.legs, fills, v, o, n - 1) == 0.0 <==>
        forall i :: 0 <= i < n - 1 && intent.legs[i].venue == v && intent.legs[i].outcome == o ==> ShownFee(venues[v], intent.legs[i], commit[i]) == 0.0
    {
      UnwoundTicket(venues, w, w', intent, preview, commit, r, v, o);
      FeesAreShown(venues, intent, commit, fills, v, o, n - 1);
    }
    assert after == before.(openFees := after.openFees) by { UnwoundTicket(venues, w, w', intent, preview, commit, r, v, 0); }
    if SameFees(before, after) {
      forall i | 0 <= i < n - 1 && intent.legs[i].venue == v ensures ShownFee(venues[v], intent.legs[i], commit[i]) == 0.0 {
        assert after.Fees(intent.legs[i].outcome) == before.Fees(intent.legs[i].outcome);
      }
    }
    GainedFees(before, after);
  }

  lemma ChargesAreShown(venues: Venues, w: World, intent: Intent, readings: Readings, m: nat)
    requires venues.Keys == w.Keys && m <= |intent.legs| == |readings| && AllKnown(venues, intent)
    requires forall leg :: leg in intent.legs ==> leg.isBuy
    ensures var p := Committed(venues, w, intent, readings, m);
      |p.fills| <= m && ChargedAsShown(venues, intent, readings, p.fills, |p.fills|)
  {
    hide Committed, Slip;
    FilledLegs(venues, w, intent, readings, m);
  }

  /** Every account reads as before: the unwinding already gave back everything
      but the carried fees. */
  ghost predicate NoTrace(w: World, w': World, a: Id)
    requires w.Keys == w'.Keys
  {
    forall v :: v in w ==> w'[v].Acct(a) == w[v].Acct(a).(openFees := w'[v].Acct(a).openFees) && SameFees(w[v].Acct(a), w'[v].Acct(a))
  }

  ghost predicate AllConserved(w: World, w': World, a: Id)
    requires w.Keys == w'.Keys
  {
    forall v :: v in w ==> Contributed(w'[v].Acct(a)) == Contributed(w[v].Acct(a))
  }

  lemma RollbackFrom(venues: Venues, w: World, w': World, intent: Intent, preview: Readings, commit: Readings, r: Submission, n: nat)
    requires venues.Keys == w.Keys == w'.Keys && |intent.legs| == |preview| == |commit| && AllKnown(venues, intent)
    requires Outcome(venues, w, w', intent, preview, commit, r) && r.Unwound?
    requires forall v :: v in venues ==> venues[v].Valid()
    requires forall leg :: leg in intent.legs ==> leg.isBuy && leg.qty >= 0.0
    requires StopsAt(venues, w, intent, commit, n)
    ensures NoTrace(w, w', intent.account) <==> FreeLegs(venues, intent, commit, n - 1)
    ensures AllConserved(w, w', intent.account) <==> FreeLegs(venues, intent, commit, n - 1)
  {
    hide Outcome, Committed, Covered, Contributed, State.Acct, FreeAt, SameFees, AllKnown;
    forall v | v in w
      ensures var before, after := w[v].Acct(intent.account), w'[v].Acct(intent.account);
        && after == before.(openFees := after.openFees)
        && (SameFees(before, after) <==> FreeAt(venues, intent, commit, v, n - 1))
        && (Contributed(after) == Contributed(before) <==> FreeAt(venues, intent, commit, v, n - 1))
    {
      RollbackAt(venues, w, w', intent, preview, commit, r, n, v);
    }
  }

  lemma UnwoundIsUncovered(venues: Venues, w: World, w': World, intent: Intent, preview: Readings, commit: Readings, r: Submission)
    requires venues.Keys == w.Keys == w'.Keys && |intent.legs| == |preview| == |commit|
    requires Outcome(venues, w, w', intent, preview, commit, r) && r.Unwound?
    requires forall v :: v in venues ==> venues[v].Valid()
    requires forall leg :: leg in intent.legs ==> leg.isBuy && leg.qty >= 0.0
    ensures AllKnown(venues, intent) && !Covered(venues, w, intent, commit, |intent.legs|)
  {
    hide Committed, Covered, Rejections;
    CommitFillsExactly(venues, w, intent, commit, |intent.legs|);
  }

  /** An unwound ticket of buys stops at a leg, and leaves every account as it was
      if and only if no leg before that one is charged a fee at the price it is
      shown; exactly then, too, does every account conserve its contributed
      money. */
  lemma RollbackConservesExactly(venues: Venues, w: World, w': World, intent: Intent, preview: Readings, commit: Readings, r: Submission)
    requires venues.Keys == w.Keys == w'.Keys && |intent.legs| == |preview| == |commit|
    requires Outcome(venues, w, w', intent, preview, commit, r) && r.Unwound?
    requires forall v :: v in venues ==> venues[v].Valid()
    requires forall leg :: leg in intent.legs ==> leg.isBuy && leg.qty >= 0.0
    ensures exists n: nat :: StopsAt(venues, w, intent, commit, n)
    ensures forall n: nat :: StopsAt(venues, w, intent, commit, n) ==>
      && (NoTrace(w, w', intent.account) <==> FreeLegs(venues, intent, commit, n - 1))
      && (AllConserved(w, w', intent.account) <==> FreeLegs(venues, intent, commit, n - 1))
  {
    hide Outcome, Covered, FreeLegs, NoTrace, AllConserved, AllKnown;
    UnwoundIsUncovered(venues, w, w', intent, preview, commit, r);
    StopExists(venues, w, intent, commit, |intent.legs|);
    forall n: nat | StopsAt(venues, w, intent, commit, n)
      ensures NoTrace(w, w', intent.account) <==> FreeLegs(venues, intent, commit, n - 1)
      ensures AllConserved(w, w', intent.account) <==> FreeLegs(venues, intent, commit, n - 1)
    {
      RollbackFrom(venues, w, w', intent, preview, commit, r, n);
    }
  }

  /** The next ticket is one detection finds: both sides of an event at one venue,
      each asking forty cents. */
  lemma SetIsDetected()
    ensures
      var m := ArbEngine.Market(map[1 := Quote(1, 0.3, 0.4, None, None, None), 2 := Quote(2, 0.3, 0.4, None, None, None)], map[0 := KALSHI]);
      var r := ArbEngine.ComplementOf(0, [Leg(1, 0, true), Leg(2, 0, false)], m, ArbEngine.Settings(None, 0.0, map[]));
      r.Found? && r.opp.legs == [ArbLeg(1, 0, true, 0.4, 100.0, 1.68), ArbLeg(2, 0, true, 0.4, 100.0, 1.68)]
  {
    var m := ArbEngine.Market(map[1 := Quote(1, 0.3, 0.4, None, None, None), 2 := Quote(2, 0.3, 0.4, None, None, None)], map[0 := KALSHI]);
    var legs, s := [Leg(1, 0, true), Leg(2, 0, false)], ArbEngine.Settings(None, 0.0, map[]);
    SetSize(m, legs, s);
    assert ArbEngine.UnitCosts(m, legs, 2) == ArbEngine.UnitCosts(m, legs, 1) + 0.4168;
    assert ArbEngine.SetStake(m, legs, 100.0, 2) == ArbEngine.SetStake(m, legs, 100.0, 1) + 41.68;
    assert ArbEngine.SetLegs(m, legs, 100.0, 2) == ArbEngine.SetLegs(m, legs, 100.0, 1) + [ArbLeg(2, 0, true, 0.4, 100.0, 1.68)];
  }

  lemma SetSize(m: ArbEngine.Market, legs: seq<Leg>, s: ArbEngine.Settings)
    requires |legs| == 2 && ArbEngine.AllPriced(m, legs) && m.Depth(legs[0]).None? && m.Depth(legs[1]).None?
    requires s == ArbEngine.Settings(None, 0.0, map[])
    ensures ArbEngine.SetQty(m, s, legs) == 100.0
  {
    hide ArbEngine.UnitCosts, RoundDownTick;
    KnownMinIsMin(ArbEngine.Depths(m, legs, 2));
    assert ArbEngine.CoarsestTick(s, legs, 2) == ArbEngine.DEFAULT_QTY_TICK;
    ArbEngine.HundredTicks();
  }

  /** A ticket that passes preview and is still unwound: each of its two legs is
      affordable alone, and together they are not. The first leg's fee stays. */
  lemma RolledBackTicketLeavesFees()
    ensures
      var venues := map[0 := Venue(KALSHI, 0.0)];
      var w := map[0 := State(map[0 := EMPTY.(cash := 60.0)], map[], map[], 0)];
      var quote := Some(Quote(1, 0.3, 0.4, None, None, None));
      var legs := [IntentLeg(0, 1, true, 100.0, 0.4), IntentLeg(0, 2, true, 100.0, 0.4)];
      var intent := Intent(0, legs, None);
      && Rejections(venues, w, 0, legs, [quote, quote]) == []
      && var p := Committed(venues, w, intent, [quote, quote], 2);
         && p.stopped == Some((0, InsufficientFunds))
         && p.world[0].Acct(0).Fees(1) == 1.68
         && w[0].Acct(0).Fees(1) == 0.0
  {
    var venues := map[0 := Venue(KALSHI, 0.0)];
    var w := map[0 := State(map[0 := EMPTY.(cash := 60.0)], map[], map[], 0)];
    var quote := Some(Quote(1, 0.3, 0.4, None, None, None));
    var legs := [IntentLeg(0, 1, true, 100.0, 0.4), IntentLeg(0, 2, true, 100.0, 0.4)];
    var intent := Intent(0, legs, None);
    var cfg := Venue(KALSHI, 0.0);
    assert PreviewFill(cfg, quote, true, 100.0, 0.4) == Fillable(0.4, 41.68);
    assert legs[..1] == [legs[0]] && [quote, quote][..1] == [quote];
    assert Rejections(venues, w, 0, [], []) == [];
    assert Rejections(venues, w, 0, legs[..1], [quote]) == [];
    var p0 := Committed(venues, w, intent, [quote, quote], 0);
    var p1 := Committed(venues, w, intent, [quote, quote], 1);
    assert p1 == NextLeg(venues, p0, 0, legs[0], None, quote);
    assert p1.world[0].Acct(0).cash == 18.32;
    var p2 := Committed(venues, w, intent, [quote, quote], 2);
    assert p2 == NextLeg(venues, p1, 0, legs[1], None, quote);
  }
}
