/** From matched listings to money: a match, a detected ticket, a fill on every
    venue and a final score give at least the promised profit. */
module Chain {
  import opened Common
  import opened Types
  import opened Fees
  import opened Ledger
  import opened PaperBroker
  import opened ExecutionRouter
  import opened ArbEngine
  import opened GuaranteedProfit
  import Meaning
  import Matcher

  /** An account after a leg's outcome has been settled at what the venue pays. */
  function AfterScore(st: Account, rules: Meaning.Rulebook, leg: Leg, score: Meaning.Score): Account
    requires leg.outcome in rules
  {
    Settled(st, leg.outcome, Meaning.Pays(rules[leg.outcome], score))
  }

  /** Neither held nor carrying fees, at any of a group's legs. */
  ghost predicate FlatIn(w: World, a: Id, legs: seq<Leg>) {
    forall leg :: leg in legs && leg.venue in w ==>
      w[leg.venue].Acct(a).Qty(leg.outcome) == 0.0 == w[leg.venue].Acct(a).Fees(leg.outcome)
  }

  /** The whole chain. The venues' listings were read by their own parsers and
      matched; the detector found a ticket on the matched group; the router
      filled it, at whatever the books showed. Then for every score that does
      not land on the line, settling the ticket's two outcomes at what the two
      venues' own rules pay leaves the accounts at least the promised profit
      above where they started, in cash and in realized profit. */
  lemma MatchedTicketPays(
      rules: Meaning.Rulebook, m: Matcher.Match, sources: map<Id, Meaning.Source>, anchor: Meaning.Game, group: Id, score: Meaning.Score,
      market: Market, s: Settings, opp: Opportunity,
      venues: Venues, w: World, w': World, a: Id, ticket: Option<Id>, preview: Readings, commit: Readings, r: Submission)
    returns (y: Leg, n: Leg)
    requires Matcher.Sourced(rules, m, sources, anchor) && Meaning.NotPushed(anchor, score)
    requires var legs := Matcher.MatchToGroup(m, group).legs;
      && market.Valid() && Detected(group, legs, market, s, Found(opp))
      && (forall leg :: leg in legs && market.Priced(leg) ==> Charging(market, venues, leg))
      && FlatIn(w, a, legs)
    requires venues.Keys == w.Keys == w'.Keys && |opp.legs| == |preview| == |commit|
    requires Outcome(venues, w, w', IntentOf(a, opp, ticket), preview, commit, r) && r.Filled?
    ensures y in Matcher.MatchToGroup(m, group).legs && n in Matcher.MatchToGroup(m, group).legs
    ensures |opp.legs| == 2
    ensures (opp.legs[0].venue, opp.legs[0].outcome) == (y.venue, y.outcome) && (opp.legs[1].venue, opp.legs[1].outcome) == (n.venue, n.outcome)
    ensures y.outcome in rules && n.outcome in rules && y.venue in w && n.venue in w
    ensures AfterScore(w'[y.venue].Acct(a), rules, y, score).cash + AfterScore(w'[n.venue].Acct(a), rules, n, score).cash
         >= w[y.venue].Acct(a).cash + w[n.venue].Acct(a).cash + opp.profit
    ensures AfterScore(w'[y.venue].Acct(a), rules, y, score).realized + AfterScore(w'[n.venue].Acct(a), rules, n, score).realized
         >= w[y.venue].Acct(a).realized + w[n.venue].Acct(a).realized + opp.profit
  {
    hide Matcher.Sourced, Matcher.MatchToGroup, Meaning.NotPushed, Meaning.Proposition, Meaning.Pays, Detected, SoundTicket, Outcome, Settled, FlatIn;
    DetectorOptimal(group, Matcher.MatchToGroup(m, group).legs, market, s, opp);
    y, n :| y in Matcher.MatchToGroup(m, group).legs && n in Matcher.MatchToGroup(m, group).legs && SoundTicket(market, s, y, n, opp);
    TicketNames(market, s, y, n, opp);
    Matcher.LegPaysItsSide(rules, m, sources, anchor, group, y, score);
    Matcher.LegPaysItsSide(rules, m, sources, anchor, group, n, score);
    FlatLegs(w, a, Matcher.MatchToGroup(m, group).legs, y, n);
    FlatAccountsProfit(market, s, y, n, opp, venues, w, w', a, ticket, preview, commit, r, Meaning.Proposition(anchor, score));
  }

  lemma TicketNames(market: Market, s: Settings, y: Leg, n: Leg, opp: Opportunity)
    requires SoundTicket(market, s, y, n, opp)
    ensures |opp.legs| == 2 && market.Priced(y) && market.Priced(n) && y.isYes && !n.isYes
    ensures (opp.legs[0].venue, opp.legs[0].outcome) == (y.venue, y.outcome) && (opp.legs[1].venue, opp.legs[1].outcome) == (n.venue, n.outcome)
  {
  }

  lemma FlatLegs(w: World, a: Id, legs: seq<Leg>, y: Leg, n: Leg)
    requires FlatIn(w, a, legs) && y in legs && n in legs && y.venue in w && n.venue in w
    ensures forall leg :: leg in [y, n] ==> w[leg.venue].Acct(a).Qty(leg.outcome) == 0.0 == w[leg.venue].Acct(a).Fees(leg.outcome)
  {
  }
}
