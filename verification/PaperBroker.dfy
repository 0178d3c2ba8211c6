/** The per-venue paper broker: simulated fills against a book reading, an
    in-memory ledger per account, and settlement. */
module PaperBroker {
  import opened Common
  import opened Types
  import opened Fees
  import opened Ledger

  datatype Order = Order(id: Id, venue: Id, outcome: Id, isBuy: bool, qty: real, limit: real, filled: bool, ticket: Option<Id>)

  datatype Fill = Fill(order: Id, qty: real, price: real, fee: real)

  /** One leg of a ticket as the router hands it over. */
  datatype IntentLeg = IntentLeg(venue: Id, outcome: Id, isBuy: bool, qty: real, limit: real)

  /** Everything a broker remembers. `next` is the order-id supply: every id in
      the tables is below it. */
  datatype State = State(accounts: map<Id, Account>, orders: map<Id, Order>, fills: map<Id, seq<Fill>>, next: Id)
  {
    function Acct(a: Id): Account { if a in accounts then accounts[a] else EMPTY }

    ghost predicate Valid() {
      && (forall i :: i in orders ==> i < next)
      && (forall i :: i in fills ==> i < next)
    }
  }

  /** What one order attempt returns and leaves behind. */
  datatype Attempt = Attempt(order: Order, fill: Option<Fill>, reason: Option<Reason>, state: State)

  function Attempted(s: State, id: Id, venue: Venue, a: Id, leg: IntentLeg, ticket: Option<Id>, reading: Option<Quote>): Attempt {
    var order := Order(s.next, id, leg.outcome, leg.isBuy, leg.qty, leg.limit, true, ticket);
    var preview := PreviewFill(venue, reading, leg.isBuy, leg.qty, leg.limit);
    if preview.Refused? then
      Attempt(order.(filled := false), None, Some(preview.reason),
              s.(orders := s.orders[s.next := order.(filled := false)], next := s.next + 1))
    else if leg.isBuy && preview.cost > s.Acct(a).cash then
      Attempt(order.(filled := false), None, Some(InsufficientFunds),
              s.(orders := s.orders[s.next := order.(filled := false)], next := s.next + 1))
    else
      var fee := venue.fees.Fee(preview.price, leg.qty);
      var fill := Fill(s.next, leg.qty, preview.price, fee);
      Attempt(order, Some(fill), None,
              State(s.accounts[a := Filled(s.Acct(a), leg.outcome, leg.isBuy, leg.qty, preview.price, fee)],
                    s.orders[s.next := order],
                    s.fills[s.next := [fill]],
                    s.next + 1))
  }

  /** What a settlement tells the persistence sink about one account. */
  datatype Closed = Closed(cash: real, realized: real, openFees: real)

  function ClosedOf(st: Account, o: Id): Closed { Closed(st.cash, At(st.realizedBy, o), st.Fees(o)) }

  class Broker {
    const id: Id
    const venue: Venue
    var accounts: map<Id, Account>
    var orders: map<Id, Order>
    var fills: map<Id, seq<Fill>>
    var next: Id

    constructor (id: Id, venue: Venue)
      ensures this.id == id && this.venue == venue
      ensures Now() == State(map[], map[], map[], 0) && Valid()
    {
      this.id, this.venue := id, venue;
      accounts, orders, fills, next := map[], map[], map[], 0;
    }

    function Now(): State
      reads this
    {
      State(accounts, orders, fills, next)
    }

    ghost predicate Valid()
      reads this
    {
      Now().Valid()
    }

    function Acct(a: Id): Account
      reads this
    {
      Now().Acct(a)
    }

    method Deposit(a: Id, amount: real)
      modifies `accounts
      ensures Acct(a) == old(Acct(a)).(cash := old(Acct(a)).cash + amount)
      ensures forall b :: b != a ==> Acct(b) == old(Acct(b))
    {
      var st := Acct(a);
      accounts := accounts[a := st.(cash := st.cash + amount)];
    }

    /** Debits free cash, or refuses and moves nothing. */
    method Withdraw(a: Id, amount: real) returns (ok: bool)
      modifies `accounts
      ensures ok <==> 0.0 < amount <= old(Acct(a)).cash
      ensures Acct(a) == if ok then old(Acct(a)).(cash := old(Acct(a)).cash - amount) else old(Acct(a))
      ensures forall b :: b != a ==> Acct(b) == old(Acct(b))
    {
      var st := Acct(a);
      accounts := accounts[a := st];
      if amount <= 0.0 || amount > st.cash {
        return false;
      }
      accounts := accounts[a := st.(cash := st.cash - amount)];
      return true;
    }

    method HydrateBalance(a: Id, amount: real)
      modifies `accounts
      ensures accounts == old(accounts)[a := old(Acct(a)).(cash := amount)]
    {
      accounts := accounts[a := Acct(a).(cash := amount)];
    }

    method HydratePosition(a: Id, o: Id, qty: real, avg: real, realized: real, openFees: real)
      modifies `accounts
      ensures accounts == old(accounts)[a := Hydrated(old(Acct(a)), o, qty, avg, realized, openFees)]
    {
      var st := Acct(a);
      st := st.(positions := st.positions[o := qty]);
      st := st.(avg := st.avg[o := avg]);
      st := st.(realizedBy := st.realizedBy[o := realized]);
      st := st.(realized := st.realized + realized);
      st := st.(openFees := st.openFees[o := openFees]);
      accounts := accounts[a := st];
    }

    /** Decides and applies one order in a single step. */
    method ApplyFill(a: Id, leg: IntentLeg, ticket: Option<Id>, reading: Option<Quote>)
      returns (order: Order, fill: Option<Fill>, reason: Option<Reason>)
      requires Valid()
      modifies this
      ensures Valid()
      ensures Attempt(order, fill, reason, Now()) == Attempted(old(Now()), id, venue, a, leg, ticket, reading)
    {
      order := Order(next, id, leg.outcome, leg.isBuy, leg.qty, leg.limit, false, ticket);
      fill, reason := None, None;
      next := next + 1;
      var preview := PreviewFill(venue, reading, leg.isBuy, leg.qty, leg.limit);
      if preview.Refused? {
        reason := Some(preview.reason);
        orders := orders[order.id := order];
        return;
      }
      var st := Acct(a);
      if leg.isBuy && preview.cost > st.cash {
        reason := Some(InsufficientFunds);
        orders := orders[order.id := order];
        return;
      }
      var px := preview.price;
      var fee := venue.fees.Fee(px, leg.qty);
      st := FillAccount(st, leg.outcome, leg.isBuy, leg.qty, px, fee);
      accounts := accounts[a := st];
      order := order.(filled := true);
      var f := Fill(order.id, leg.qty, px, fee);
      fill := Some(f);
      orders := orders[order.id := order];
      fills := fills[order.id := [f]];
    }

    method SnapshotAccount(a: Id) returns (snap: Snapshot)
      ensures snap == SnapshotOf(Acct(a))
    {
      var st := Acct(a);
      snap := Snapshot(st.cash, st.positions, st.avg, st.realized, st.realizedBy);
    }

    /** Puts a snapshot back; the carried fees are not part of it and stay. */
    method RestoreAccount(a: Id, snap: Snapshot)
      modifies `accounts
      ensures accounts == old(accounts)[a := Restored(old(Acct(a)), snap)]
    {
      var st := Acct(a);
      st := st.(cash := snap.cash, positions := snap.positions, avg := snap.avg, realizedBy := snap.realizedBy);
      st := st.(realized := snap.realized);
      accounts := accounts[a := st];
    }

    method ForgetOrder(order: Id)
      modifies `orders, `fills
      ensures orders == old(orders) - {order} && fills == old(fills) - {order}
    {
      orders := orders - {order};
      fills := fills - {order};
    }

    /** Pays every holder of an outcome and reports, for the sink, exactly the
        accounts that held it. */
    method SettleOutcome(o: Id, value: real) returns (closed: map<Id, Closed>)
      modifies `accounts
      ensures accounts == map a | a in old(accounts) :: Settled(old(accounts)[a], o, value)
      ensures closed == map a | a in old(accounts) && old(accounts)[a].Qty(o) != 0.0 :: ClosedOf(accounts[a], o)
    {
      hide *;
      var before := accounts;
      ghost var after := map a | a in accounts :: Settled(accounts[a], o, value);
      var rest := accounts.Keys;
      while rest != {}
        invariant rest <= before.Keys == accounts.Keys
        invariant forall a :: a in before ==> accounts[a] == if a in rest then before[a] else after[a]
      {
        var a :| a in rest;
        var st := accounts[a];
        rest := rest - {a};
        if st.Qty(o) != 0.0 {
          st := SettleAccount(st, o, value);
          accounts := accounts[a := st];
        } else {
          SettleNothing(st, o, value);
        }
      }
      assert accounts == after;
      closed := map a | a in before && before[a].Qty(o) != 0.0 :: ClosedOf(accounts[a], o);
    }

    /** Zeroes a position that was already paid, crediting nothing; returns how
        many accounts held it. */
    method CloseAlreadySettled(o: Id) returns (count: nat)
      modifies `accounts
      ensures accounts == map a | a in old(accounts) :: ClosedUnpaid(old(accounts)[a], o)
      ensures count == |set a | a in old(accounts) && old(accounts)[a].Qty(o) != 0.0|
    {
      hide *;
      var before := accounts;
      ghost var after := map a | a in accounts :: ClosedUnpaid(accounts[a], o);
      var rest := accounts.Keys;
      while rest != {}
        invariant rest <= before.Keys == accounts.Keys
        invariant forall a :: a in before ==> accounts[a] == if a in rest then before[a] else after[a]
      {
        var a :| a in rest;
        var st := accounts[a];
        rest := rest - {a};
        if st.Qty(o) != 0.0 {
          st := CloseAccount(st, o);
          accounts := accounts[a := st];
        } else {
          CloseNothing(st, o);
        }
      }
      assert accounts == after;
      count := |set a | a in before && before[a].Qty(o) != 0.0|;
    }
  }

  lemma SettleNothing(st: Account, o: Id, value: real)
    requires st.Qty(o) == 0.0
    ensures Settled(st, o, value) == st
  {
  }

  lemma CloseNothing(st: Account, o: Id)
    requires st.Qty(o) == 0.0
    ensures ClosedUnpaid(st, o) == st
  {
  }

  /** The bookkeeping of one fill, in the order the broker writes it. */
  method FillAccount(start: Account, o: Id, isBuy: bool, qty: real, px: real, fee: real) returns (st: Account)
    ensures st == Filled(start, o, isBuy, qty, px, fee)
  {
    st := start.(openFees := start.openFees[o := start.Fees(o) + fee]);
    if isBuy {
      st := Acquired(st.(cash := start.cash - (px * qty + fee)), o, qty, px);
    } else {
      st := Released(st.(cash := start.cash + (px * qty - fee)), o, qty, px);
    }
  }

  /** The bookkeeping of one holder's settlement. */
  method SettleAccount(start: Account, o: Id, value: real) returns (st: Account)
    requires start.Qty(o) != 0.0
    ensures st == Settled(start, o, value)
  {
    var qty := start.Qty(o);
    var gain := (value - start.Avg(o)) * qty - FeeShare(start, o, qty, qty);
    st := Booked(FeesConsumed(start, o, qty, qty), o, gain);
    st := st.(cash := st.cash + value * qty);
    st := st.(positions := st.positions[o := 0.0], avg := st.avg[o := 0.0]);
  }

  method CloseAccount(start: Account, o: Id) returns (st: Account)
    requires start.Qty(o) != 0.0
    ensures st == ClosedUnpaid(start, o)
  {
    st := start.(positions := start.positions[o := 0.0]);
    st := st.(avg := st.avg[o := 0.0]);
    st := st.(openFees := st.openFees[o := 0.0]);
  }

  /** Start-up overwrites one outcome's row and adds its realized profit. */
  function Hydrated(st: Account, o: Id, qty: real, avg: real, realized: real, openFees: real): Account {
    Account(st.cash, st.positions[o := qty], st.avg[o := avg], st.realized + realized,
            st.realizedBy[o := realized], st.openFees[o := openFees])
  }
}
