/** The shared domain records: quotes, event groups and opportunities. */
module Types {
  import opened Common

  /** Top of book for one outcome. A size is unknown (None), known empty (0) or
      a real quantity. `age` is how far behind the venue said the book was. */
  datatype Quote = Quote(
    outcome: Id,
    bid: real,
    ask: real,
    bidSize: Option<real>,
    askSize: Option<real>,
    age: Option<real>)
  {
    predicate Valid() { 0.0 <= bid <= ask <= 1.0 }
  }

  /** One outcome on a venue; buying a yes leg bets that the group's
      proposition is true. */
  datatype Leg = Leg(outcome: Id, venue: Id, isYes: bool)

  /** A matched group. `start` is unknown (None) for a venue that publishes
      none; `ended` is what a venue's own lifecycle says. */
  datatype EventGroup = EventGroup(id: Id, legs: seq<Leg>, start: Option<real>, ended: bool)
  {
    predicate HasStarted(now: real) { start.None? || start.value <= now }
  }

  /** What a settled leg is worth per contract. */
  function Payout(isYes: bool, yesWins: bool): real { if isYes == yesWins then 1.0 else 0.0 }

  datatype ArbLeg = ArbLeg(outcome: Id, venue: Id, isBuy: bool, price: real, qty: real, fee: real)
  {
    function Cost(): real { price * qty + fee }
  }

  datatype Opportunity = Opportunity(group: Id, legs: seq<ArbLeg>, stake: real, profit: real, bps: real)
}
