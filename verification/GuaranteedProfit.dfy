/** Detection, routing and settlement together: a found ticket that fills pays
    at least the promised profit, whichever side wins. */
module GuaranteedProfit {
  import opened Common
  import opened Types
  import opened Fees
  import opened Ledger
  import opened LedgerRuns
  import opened PaperBroker
  import opened ExecutionRouter
  import opened Tickets
  import opened ArbEngine

  /** A ticket is sent to the router at the detected sizes, with the detected
      prices as limits. */
  function IntentLegOf(leg: ArbLeg): IntentLeg { IntentLeg(leg.venue, leg.outcome, leg.isBuy, leg.qty, leg.price) }

  function IntentOf(account: Id, opp: Opportunity, ticket: Option<Id>): (intent: Intent)
    ensures |intent.legs| == |opp.legs|
  {
    Intent(account, seq(|opp.legs|, i requires 0 <= i < |opp.legs| => IntentLegOf(opp.legs[i])), ticket)
  }

  /** One account's money once the leg's outcome has been settled. */
  function CashOnce(w: World, a: Id, leg: Leg, yesWins: bool): real
    requires leg.venue in w
  {
    Settled(w[leg.venue].Acct(a), leg.outcome, Payout(leg.isYes, yesWins)).cash
  }

  function RealizedOnce(w: World, a: Id, leg: Leg, yesWins: bool): real
    requires leg.venue in w
  {
    Settled(w[leg.venue].Acct(a), leg.outcome, Payout(leg.isYes, yesWins)).realized
  }

  /** An account's holding of one outcome before the ticket: nothing sold short,
      and no fee carried against an outcome that is not held. */
  predicate Orderly(st: Account, o: Id) { st.Qty(o) >= 0.0 && (st.Qty(o) == 0.0 ==> st.Fees(o) == 0.0) }

  lemma SettledTotals(st: Account, o: Id, v: real)
    requires Orderly(st, o)
    ensures Settled(st, o, v).cash == st.cash + v * st.Qty(o)
    ensures Settled(st, o, v).realized == st.realized + v * st.Qty(o) - CostOf(st, o) - st.Fees(o)
  {
    var q := st.Qty(o);
    if q == 0.0 {
      SameProduct(v, q, v, 0.0);
      SameProduct(q, st.Avg(o), 0.0, st.Avg(o));
    } else {
      Spread(v, st.Avg(o), q);
    }
  }

  lemma Spread(v: real, a: real, q: real)
    ensures (v - a) * q == v * q - q * a
  {
  }

  /** A bought leg, held to settlement, changes cash and realized profit by the
      same amount: its payout less what it cost. */
  lemma LegPays(st: Account, o: Id, q: real, px: real, fee: real, v: real)
    requires Orderly(st, o) && q > 0.0
    ensures var st' := Ledger.Filled(st, o, true, q, px, fee);
      && Settled(st', o, v).cash == Settled(st, o, v).cash + v * q - (px * q + fee)
      && Settled(st', o, v).realized == Settled(st, o, v).realized + v * q - (px * q + fee)
  {
    var st' := Ledger.Filled(st, o, true, q, px, fee);
    BuyCost(st, o, q, px, fee);
    assert st'.Qty(o) == st.Qty(o) + q && st'.Fees(o) == st.Fees(o) + fee && st'.realized == st.realized;
    SettledTotals(st, o, v);
    SettledTotals(st', o, v);
    assert v * (st.Qty(o) + q) == v * st.Qty(o) + v * q;
  }

  /** Both legs of a filled two-venue ticket, seen from their own accounts. */
  lemma BothFilled(venues: Venues, w: World, intent: Intent, readings: Readings)
    requires venues.Keys == w.Keys && |intent.legs| == |readings| == 2 && AllKnown(venues, intent)
    requires intent.legs[0].venue != intent.legs[1].venue
    requires Committed(venues, w, intent, readings, 2).stopped.None?
    ensures var p := Committed(venues, w, intent, readings, 2);
      && |p.orders| == |p.fills| == 2
      && (forall i :: 0 <= i < 2 ==>
            var leg := intent.legs[i];
            LegFilled(venues[leg.venue], w[leg.venue].Acct(intent.account), p.world[leg.venue].Acct(intent.account), leg, p.orders[i], p.fills[i], readings[i]))
  {
    hide Committed, LegFilled, NextLeg;
    CommitStart(venues, w, intent, readings);
    CommitStep(venues, w, intent, readings, 1);
    CommitStep(venues, w, intent, readings, 2);
  }

  /** What the book saved the ticket between detection and fill. */
  function Saved(m: Market, leg: Leg, fill: Fill): real
    requires m.Priced(leg)
  {
    (m.UnitCost(leg) - m.fees[leg.venue].UnitCost(fill.price)) * fill.qty
  }

  lemma SavedNonNegative(m: Market, leg: Leg, cfg: Venue, want: IntentLeg, order: Order, fill: Fill, reading: Option<Quote>)
    requires m.Valid() && m.Priced(leg) && cfg.fees == m.fees[leg.venue]
    requires want.isBuy && want.qty >= 0.0 && want.limit == m.Ask(leg)
    requires WithinLimits(cfg, want, order, fill, reading)
    ensures Saved(m, leg, fill) >= 0.0
    ensures CostOfFill(want, fill) == m.Ask(leg) * want.qty + m.Fee(leg, want.qty) - Saved(m, leg, fill)
  {
    hide FeeModel.Fee, FeeModel.UnitCost, Slip;
    SlipInRange(reading.value.ask, true, cfg.slippageBps);
    assert m.quotes[leg.outcome].Valid();
    CheaperFill(m.fees[leg.venue], fill.price, m.Ask(leg), want.qty);
  }

  /** Filling at a lower price saves the difference in unit cost on every
      contract, fees included. */
  lemma CheaperFill(f: FeeModel, p: real, ask: real, q: real)
    requires f.Valid() && 0.0 <= p <= ask <= 1.0 && q >= 0.0
    ensures var saved := (f.UnitCost(ask) - f.UnitCost(p)) * q;
      saved >= 0.0 && p * q + f.Fee(p, q) == ask * q + f.Fee(ask, q) - saved
  {
    hide FeeModel.Fee, FeeModel.UnitCost;
    UnitCostMonotone(f, p, ask);
    MulNonNeg(f.UnitCost(ask) - f.UnitCost(p), q);
    FeeLinear(f, p, q);
    FeeLinear(f, ask, q);
    Spread(f.UnitCost(ask), f.UnitCost(p), q);
  }

  /** One leg of a found ticket, filled at no worse than its ask and settled. */
  lemma LegGains(m: Market, leg: Leg, cfg: Venue, st: Account, st': Account, want: IntentLeg, order: Order, fill: Fill, reading: Option<Quote>, v: real)
    requires m.Valid() && m.Priced(leg) && cfg.fees == m.fees[leg.venue]
    requires want.isBuy && want.qty > 0.0 && want.limit == m.Ask(leg) && want.outcome == leg.outcome
    requires LegFilled(cfg, st, st', want, order, fill, reading) && Orderly(st, leg.outcome)
    ensures var gain := v * want.qty - (m.Ask(leg) * want.qty + m.Fee(leg, want.qty)) + Saved(m, leg, fill);
      && Saved(m, leg, fill) >= 0.0
      && Settled(st', leg.outcome, v).cash == Settled(st, leg.outcome, v).cash + gain
      && Settled(st', leg.outcome, v).realized == Settled(st, leg.outcome, v).realized + gain
  {
    hide Ledger.Filled, Settled, Saved, Market.Fee;
    SavedNonNegative(m, leg, cfg, want, order, fill, reading);
    LegPays(st, leg.outcome, want.qty, fill.price, fill.fee, v);
  }

  /** Guaranteed profit is guaranteed. The router filled a sound ticket, at
      whatever the books showed at commit time. Then, whoever wins, settling
      both legs leaves the two accounts with the promised profit more cash than
      settling them without the ticket, plus whatever the fills saved, and with
      exactly as much more realized profit. */
  lemma ProfitIsGuaranteed(
      m: Market, s: Settings, y: Leg, n: Leg, opp: Opportunity, venues: Venues, w: World, w': World,
      a: Id, ticket: Option<Id>, preview: Readings, commit: Readings, r: Submission, yesWins: bool)
    requires m.Valid() && SoundTicket(m, s, y, n, opp)
    requires venues.Keys == w.Keys == w'.Keys && |preview| == |commit| == 2
    requires Charging(m, venues, y) && Charging(m, venues, n)
    requires Outcome(venues, w, w', IntentOf(a, opp, ticket), preview, commit, r) && r.Filled?
    requires Orderly(w[y.venue].Acct(a), y.outcome) && Orderly(w[n.venue].Acct(a), n.outcome)
    ensures var fills := Committed(venues, w, IntentOf(a, opp, ticket), commit, 2).fills;
      && |fills| == 2
      && CashOnce(w', a, y, yesWins) + CashOnce(w', a, n, yesWins)
           == CashOnce(w, a, y, yesWins) + CashOnce(w, a, n, yesWins) + opp.profit + Saved(m, y, fills[0]) + Saved(m, n, fills[1])
      && Saved(m, y, fills[0]) >= 0.0 && Saved(m, n, fills[1]) >= 0.0
      && RealizedOnce(w', a, y, yesWins) + RealizedOnce(w', a, n, yesWins)
           - (RealizedOnce(w, a, y, yesWins) + RealizedOnce(w, a, n, yesWins))
         == CashOnce(w', a, y, yesWins) + CashOnce(w', a, n, yesWins)
           - (CashOnce(w, a, y, yesWins) + CashOnce(w, a, n, yesWins))
  {
    hide LegFilled, Settled, Saved, Market.Fee, Market.Ask, Committed, Rejections, AsBefore, SoundTicket;
    var intent := IntentOf(a, opp, ticket);
    TicketLegs(m, s, y, n, opp, a, ticket);
    var p := Committed(venues, w, intent, commit, 2);
    BothFilled(venues, w, intent, commit);
    var q := intent.legs[0].qty;
    LegGains(m, y, venues[y.venue], w[y.venue].Acct(a), w'[y.venue].Acct(a), intent.legs[0], p.orders[0], p.fills[0], commit[0], Payout(true, yesWins));
    LegGains(m, n, venues[n.venue], w[n.venue].Acct(a), w'[n.venue].Acct(a), intent.legs[1], p.orders[1], p.fills[1], commit[1], Payout(false, yesWins));
  }

  lemma TicketLegs(m: Market, s: Settings, y: Leg, n: Leg, opp: Opportunity, a: Id, ticket: Option<Id>)
    requires SoundTicket(m, s, y, n, opp)
    ensures var q := opp.legs[0].qty;
      && IntentOf(a, opp, ticket).legs == [IntentLeg(y.venue, y.outcome, true, q, m.Ask(y)), IntentLeg(n.venue, n.outcome, true, q, m.Ask(n))]
      && q > 0.0 && y.venue != n.venue && y.isYes && !n.isYes && m.Priced(y) && m.Priced(n)
      && opp.profit == q - (m.Ask(y) * q + m.Fee(y, q)) - (m.Ask(n) * q + m.Fee(n, q))
  {
  }

  /** The broker at a leg's venue charges what the detector assumed. */
  predicate Charging(m: Market, venues: Venues, leg: Leg) {
    leg.venue in venues && leg.venue in m.fees && venues[leg.venue].fees == m.fees[leg.venue]
  }

  /** On accounts that hold neither outcome, the same in plain terms: total cash
      ends at least the promised profit above where it started. */
  lemma FlatAccountsProfit(
      m: Market, s: Settings, y: Leg, n: Leg, opp: Opportunity, venues: Venues, w: World, w': World,
      a: Id, ticket: Option<Id>, preview: Readings, commit: Readings, r: Submission, yesWins: bool)
    requires m.Valid() && SoundTicket(m, s, y, n, opp)
    requires venues.Keys == w.Keys == w'.Keys && |preview| == |commit| == 2
    requires Charging(m, venues, y) && Charging(m, venues, n)
    requires Outcome(venues, w, w', IntentOf(a, opp, ticket), preview, commit, r) && r.Filled?
    requires forall leg :: leg in [y, n] ==> w[leg.venue].Acct(a).Qty(leg.outcome) == 0.0 == w[leg.venue].Acct(a).Fees(leg.outcome)
    ensures CashOnce(w', a, y, yesWins) + CashOnce(w', a, n, yesWins)
         >= w[y.venue].Acct(a).cash + w[n.venue].Acct(a).cash + opp.profit
    ensures RealizedOnce(w', a, y, yesWins) + RealizedOnce(w', a, n, yesWins)
         >= w[y.venue].Acct(a).realized + w[n.venue].Acct(a).realized + opp.profit
  {
    hide Outcome, SoundTicket;
    assert y in [y, n] && n in [y, n];
    ProfitIsGuaranteed(m, s, y, n, opp, venues, w, w', a, ticket, preview, commit, r, yesWins);
  }
}
