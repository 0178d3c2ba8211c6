/** Routing one multi-leg ticket to the per-venue brokers: preview every leg,
    then fill all of them in one step or put every account back. */
module ExecutionRouter {
  import opened Common
  import opened Types
  import opened Fees
  import opened Ledger
  import opened PaperBroker

  datatype Intent = Intent(account: Id, legs: seq<IntentLeg>, ticket: Option<Id>)

  datatype Rejection = Rejection(venue: Id, outcome: Id, reason: Reason)

  datatype Submission =
    | Filled(orders: seq<Order>)
    | Rejected(rejections: seq<Rejection>)
    | Unwound(venue: Id, reason: Reason)

  /** Every broker's state, by venue. */
  type World = map<Id, State>

  /** Brokers as configured: what each venue charges. */
  type Venues = map<Id, Venue>

  /** What the book showed each leg at one pass over the ticket. The clock moves
      between passes and between legs, so a quote can improve, worsen or go
      stale from one reading to the next. */
  type Readings = seq<Option<Quote>>

  // ---- the preview pass -----------------------------------------------------

  function PreviewLeg(venues: Venues, w: World, a: Id, leg: IntentLeg, reading: Option<Quote>): Option<Reason>
    requires venues.Keys == w.Keys
  {
    if leg.venue !in venues then Some(NoAdapter)
    else
      match PreviewFill(venues[leg.venue], reading, leg.isBuy, leg.qty, leg.limit)
      case Refused(reason) => Some(reason)
      case Fillable(_, cost) => if leg.isBuy && cost > w[leg.venue].Acct(a).cash then Some(InsufficientFunds) else None
  }

  function Rejections(venues: Venues, w: World, a: Id, legs: seq<IntentLeg>, readings: Readings): seq<Rejection>
    requires venues.Keys == w.Keys && |legs| == |readings|
  {
    if legs == [] then []
    else
      var n := |legs| - 1;
      var before := Rejections(venues, w, a, legs[..n], readings[..n]);
      match PreviewLeg(venues, w, a, legs[n], readings[n])
      case None => before
      case Some(reason) => before + [Rejection(legs[n].venue, legs[n].outcome, reason)]
  }

  /** A ticket is refused exactly for the legs that would not fill, each with its
      own reason. */
  lemma {:induction false} RejectionsExactly(venues: Venues, w: World, a: Id, legs: seq<IntentLeg>, readings: Readings, x: Rejection)
    requires venues.Keys == w.Keys && |legs| == |readings|
    ensures x in Rejections(venues, w, a, legs, readings) <==>
              exists i :: 0 <= i < |legs| && PreviewLeg(venues, w, a, legs[i], readings[i]) == Some(x.reason)
                          && x.venue == legs[i].venue && x.outcome == legs[i].outcome
  {
    hide PreviewLeg;
    if legs != [] { RejectionsExactly(venues, w, a, legs[..|legs| - 1], readings[..|legs| - 1], x); }
  }

  /** The preview foretells the broker: at a known venue a leg is refused for the
      reason an order for it alone would be, on the same books and cash, and not at
      all exactly when that order would fill. */
  lemma PreviewForetells(venues: Venues, w: World, a: Id, leg: IntentLeg, ticket: Option<Id>, reading: Option<Quote>)
    requires venues.Keys == w.Keys && leg.venue in venues
    ensures var r := Attempted(w[leg.venue], leg.venue, venues[leg.venue], a, leg, ticket, reading);
      PreviewLeg(venues, w, a, leg, reading) == r.reason && (r.reason.None? <==> r.fill.Some?)
  {
  }

  // ---- the commit pass ------------------------------------------------------

  /** The commit after its first legs: the brokers, the orders filled, and the
      rejection that stopped it, if any. */
  datatype Progress = Progress(world: World, orders: seq<Order>, fills: seq<Fill>, stopped: Option<(Id, Reason)>)

  function NextLeg(venues: Venues, p: Progress, a: Id, leg: IntentLeg, ticket: Option<Id>, reading: Option<Quote>): (q: Progress)
    requires venues.Keys == p.world.Keys && leg.venue in venues && p.stopped.None?
    ensures q.world.Keys == p.world.Keys
  {
    var t := Attempted(p.world[leg.venue], leg.venue, venues[leg.venue], a, leg, ticket, reading);
    if t.fill.None? then
      p.(world := p.world[leg.venue := Forgot(t.state, {t.order.id})], stopped := Some((leg.venue, t.reason.value)))
    else
      Progress(p.world[leg.venue := t.state], p.orders + [t.order], p.fills + [t.fill.value], None)
  }

  function Forgot(s: State, ids: set<Id>): State {
    s.(orders := s.orders - ids, fills := s.fills - ids)
  }

  function Committed(venues: Venues, w: World, intent: Intent, readings: Readings, n: nat): (p: Progress)
    requires venues.Keys == w.Keys && n <= |intent.legs| == |readings|
    requires AllKnown(venues, intent)
    ensures p.world.Keys == w.Keys
  {
    if n == 0 then Progress(w, [], [], None)
    else
      var p := Committed(venues, w, intent, readings, n - 1);
      if p.stopped.Some? then p
      else NextLeg(venues, p, intent.account, intent.legs[n - 1], intent.ticket, readings[n - 1])
  }

  // ---- unwinding ------------------------------------------------------------

  ghost function IdsAt(orders: seq<Order>, v: Id): set<Id> {
    set o | o in orders && o.venue == v :: o.id
  }

  /** A broker a failed ticket has been through: every order, fill, balance,
      position, average and realized profit is as before; the carried fees of
      the ticket's account are the ones the commit left, `fees`. */
  ghost predicate AsBefore(s: State, s': State, a: Id, fees: map<Id, real>) {
    && s'.orders == s.orders
    && s'.fills == s.fills
    && s'.next >= s.next
    && s'.Acct(a) == s.Acct(a).(openFees := fees)
    && (forall b :: b != a ==> s'.Acct(b) == s.Acct(b))
  }

  ghost predicate WellKept(w: World) { forall v :: v in w ==> w[v].Valid() }

  predicate AllKnown(venues: Venues, intent: Intent) {
    forall leg :: leg in intent.legs ==> leg.venue in venues
  }

  /** What the commit does to one broker's tables: it only adds the orders it
      filled, and touches no account but the ticket's. */
  ghost predicate OnlyAdded(s: State, t: State, a: Id, ids: set<Id>) {
    && t.Valid()
    && s.next <= t.next
    && (forall k :: k in ids ==> s.next <= k < t.next)
    && t.orders - ids == s.orders
    && t.fills - ids == s.fills
    && (forall b :: b != a ==> t.Acct(b) == s.Acct(b))
  }

  lemma AddThenDrop<T>(base: map<Id, T>, m: map<Id, T>, ids: set<Id>, k: Id, x: T)
    requires m - ids == base && k !in m
    ensures m[k := x] - (ids + {k}) == base
    ensures m[k := x] - {k} == m
    ensures m - {k} == m
  {
  }

  /** The bookkeeping side of one attempt, whatever the fill did to the account. */
  ghost predicate Books(t: State, r: Attempt, venue: Id, a: Id) {
    && r.order.id == t.next
    && r.order.venue == venue
    && (r.fill.Some? <==> r.order.filled) && (r.fill.None? <==> r.reason.Some?)
    && r.state.next == t.next + 1
    && r.state.orders == t.orders[t.next := r.order]
    && (r.fill.Some? ==> r.state.fills == t.fills[t.next := [r.fill.value]])
    && (r.fill.None? ==> r.state.fills == t.fills && r.state.accounts == t.accounts)
    && (forall b :: b != a ==> r.state.Acct(b) == t.Acct(b))
  }

  lemma AttemptBooks(t: State, venue: Id, cfg: Venue, a: Id, leg: IntentLeg, ticket: Option<Id>, reading: Option<Quote>)
    ensures Books(t, Attempted(t, venue, cfg, a, leg, ticket, reading), venue, a)
  {
  }

  lemma BooksAdd(s: State, t: State, ids: set<Id>, r: Attempt, venue: Id, a: Id)
    requires s.Valid() && OnlyAdded(s, t, a, ids) && Books(t, r, venue, a)
    ensures r.fill.Some? ==> OnlyAdded(s, r.state, a, ids + {r.order.id})
    ensures r.fill.None? ==> OnlyAdded(s, Forgot(r.state, {r.order.id}), a, ids)
  {
    assert t.next !in t.orders && t.next !in t.fills;
    AddThenDrop(s.orders, t.orders, ids, t.next, r.order);
    AddThenDrop(s.fills, t.fills, ids, t.next, if r.fill.Some? then [r.fill.value] else []);
  }

  lemma {:induction false} CommitOnlyAdds(venues: Venues, w: World, intent: Intent, readings: Readings, n: nat, v: Id)
    requires venues.Keys == w.Keys && n <= |intent.legs| == |readings|
    requires AllKnown(venues, intent) && WellKept(w) && v in w
    ensures var p := Committed(venues, w, intent, readings, n);
      OnlyAdded(w[v], p.world[v], intent.account, IdsAt(p.orders, v))
  {
    hide Attempted, OnlyAdded, Books;
    if n == 0 {
      NothingAdded(w[v], intent.account);
      assert IdsAt([], v) == {};
    } else {
      CommitOnlyAdds(venues, w, intent, readings, n - 1, v);
      var p := Committed(venues, w, intent, readings, n - 1);
      if p.stopped.None? {
        var leg := intent.legs[n - 1];
        var r := Attempted(p.world[leg.venue], leg.venue, venues[leg.venue], intent.account, leg, intent.ticket, readings[n - 1]);
        AttemptBooks(p.world[leg.venue], leg.venue, venues[leg.venue], intent.account, leg, intent.ticket, readings[n - 1]);
        OrderAt(p.orders, r, p.world[leg.venue], leg.venue, intent.account, v);
        if leg.venue == v {
          BooksAdd(w[v], p.world[v], IdsAt(p.orders, v), r, v, intent.account);
        } else {
          assert IdsAt(p.orders, v) + {} == IdsAt(p.orders, v);
          assert Committed(venues, w, intent, readings, n).world[v] == p.world[v];
        }
      }
    }
  }

  lemma NothingAdded(s: State, a: Id)
    requires s.Valid()
    ensures OnlyAdded(s, s, a, {})
  {
  }

  lemma OrderAt(orders: seq<Order>, r: Attempt, t: State, venue: Id, a: Id, v: Id)
    requires Books(t, r, venue, a)
    ensures IdsAt(orders + [r.order], v) == IdsAt(orders, v) + (if venue == v then {r.order.id} else {})
  {
  }

  lemma {:induction false} StoppedStays(venues: Venues, w: World, intent: Intent, readings: Readings, i: nat, n: nat)
    requires venues.Keys == w.Keys && i <= n <= |intent.legs| == |readings| && AllKnown(venues, intent)
    requires Committed(venues, w, intent, readings, i).stopped.Some?
    ensures Committed(venues, w, intent, readings, n) == Committed(venues, w, intent, readings, i)
  {
    hide NextLeg;
    if i < n { StoppedStays(venues, w, intent, readings, i, n - 1); }
  }

  /** A venue none of whose legs has been tried is as it was. */
  lemma {:induction false} Untried(venues: Venues, w: World, intent: Intent, readings: Readings, n: nat, v: Id)
    requires venues.Keys == w.Keys && n <= |intent.legs| == |readings| && AllKnown(venues, intent) && v in w
    requires forall leg :: leg in intent.legs ==> leg.venue != v
    ensures var p := Committed(venues, w, intent, readings, n);
      p.world[v] == w[v] && IdsAt(p.orders, v) == {}
  {
    hide Attempted;
    if n > 0 {
      Untried(venues, w, intent, readings, n - 1, v);
      var p := Committed(venues, w, intent, readings, n - 1);
      var leg := intent.legs[n - 1];
      if p.stopped.None? {
        var r := Attempted(p.world[leg.venue], leg.venue, venues[leg.venue], intent.account, leg, intent.ticket, readings[n - 1]);
        AttemptBooks(p.world[leg.venue], leg.venue, venues[leg.venue], intent.account, leg, intent.ticket, readings[n - 1]);
        OrderAt(p.orders, r, p.world[leg.venue], leg.venue, intent.account, v);
      }
    }
  }

  /** One broker after the restore and the forgetting. */
  ghost function PutBack(s: State, t: State, a: Id, ids: set<Id>): State {
    State(t.accounts[a := Restored(t.Acct(a), SnapshotOf(s.Acct(a)))], t.orders - ids, t.fills - ids, t.next)
  }

  lemma RestoreIsPutBack(s: State, t: State, a: Id)
    ensures PutBack(s, t, a, {}) == t.(accounts := t.accounts[a := Restored(t.Acct(a), SnapshotOf(s.Acct(a)))])
  {
  }

  lemma ForgetIsPutBack(s: State, t: State, a: Id, ids: set<Id>)
    ensures Forgot(PutBack(s, t, a, {}), ids) == PutBack(s, t, a, ids)
  {
  }

  lemma PutBackAsBefore(s: State, t: State, a: Id, ids: set<Id>)
    requires OnlyAdded(s, t, a, ids)
    ensures AsBefore(s, PutBack(s, t, a, ids), a, t.Acct(a).openFees)
  {
  }

  /** What a submitted ticket leaves behind. Refused at preview, nothing moved.
      Filled, every broker is where the commit took it. Unwound, every broker is
      as before but for the fees the commit left carried. */
  ghost predicate Outcome(venues: Venues, w: World, w': World, intent: Intent, preview: Readings, commit: Readings, r: Submission)
    requires venues.Keys == w.Keys == w'.Keys && |intent.legs| == |preview| == |commit|
  {
    var rejections := Rejections(venues, w, intent.account, intent.legs, preview);
    if rejections != [] then r == Rejected(rejections) && w' == w
    else
      AllKnown(venues, intent) &&
      var p := Committed(venues, w, intent, commit, |intent.legs|);
      if p.stopped.None? then r == Submission.Filled(p.orders) && w' == p.world
      else
        && r == Unwound(p.stopped.value.0, p.stopped.value.1)
        && forall v :: v in w ==> AsBefore(w[v], w'[v], intent.account, p.world[v].Acct(intent.account).openFees)
  }

  // ---- when a ticket can be unwound -------------------------------------------

  predicate OwnVenues(legs: seq<IntentLeg>) { forall i, j :: 0 <= i < j < |legs| ==> legs[i].venue != legs[j].venue }

  /** A venue none of the first n legs is at is as it was. */
  ghost predicate Untouched(w: World, u: World, legs: seq<IntentLeg>, n: nat)
    requires w.Keys == u.Keys && n <= |legs|
  {
    forall v :: v in w && (forall i :: 0 <= i < n ==> legs[i].venue != v) ==> u[v] == w[v]
  }

  lemma {:induction false} PreviewedFills(venues: Venues, w: World, intent: Intent, readings: Readings, n: nat)
    requires venues.Keys == w.Keys && n <= |intent.legs| == |readings| && AllKnown(venues, intent)
    requires OwnVenues(intent.legs)
    requires forall i :: 0 <= i < |intent.legs| ==> PreviewLeg(venues, w, intent.account, intent.legs[i], readings[i]).None?
    ensures var p := Committed(venues, w, intent, readings, n);
      p.stopped.None? && Untouched(w, p.world, intent.legs, n)
  {
    hide PreviewLeg, NextLeg, Untouched, OwnVenues;
    if n == 0 {
      NoneTouched(w, intent.legs);
    } else {
      PreviewedFills(venues, w, intent, readings, n - 1);
      var p, leg := Committed(venues, w, intent, readings, n - 1), intent.legs[n - 1];
      assert leg in intent.legs;
      OwnUntouched(w, p.world, intent.legs, n);
      NextFillsToo(venues, w, p, intent.account, leg, intent.ticket, readings[n - 1]);
      StillUntouched(w, p.world, NextLeg(venues, p, intent.account, leg, intent.ticket, readings[n - 1]).world, intent.legs, n);
    }
  }

  lemma NextFillsToo(venues: Venues, w: World, p: Progress, a: Id, leg: IntentLeg, ticket: Option<Id>, reading: Option<Quote>)
    requires venues.Keys == w.Keys == p.world.Keys && leg.venue in venues && p.stopped.None?
    requires p.world[leg.venue] == w[leg.venue] && PreviewLeg(venues, w, a, leg, reading).None?
    ensures var q := NextLeg(venues, p, a, leg, ticket, reading);
      q.stopped.None? && forall v :: v in w && v != leg.venue ==> q.world[v] == p.world[v]
  {
    hide PreviewLeg, Attempted;
    PreviewForetells(venues, w, a, leg, ticket, reading);
  }

  lemma NoneTouched(w: World, legs: seq<IntentLeg>)
    ensures Untouched(w, w, legs, 0)
  {
  }

  lemma OwnUntouched(w: World, u: World, legs: seq<IntentLeg>, n: nat)
    requires w.Keys == u.Keys && 0 < n <= |legs| && Untouched(w, u, legs, n - 1) && OwnVenues(legs) && legs[n - 1].venue in w
    ensures u[legs[n - 1].venue] == w[legs[n - 1].venue]
  {
  }

  lemma StillUntouched(w: World, p: World, q: World, legs: seq<IntentLeg>, n: nat)
    requires w.Keys == p.Keys == q.Keys && 0 < n <= |legs| && Untouched(w, p, legs, n - 1)
    requires forall v :: v in w && v != legs[n - 1].venue ==> q[v] == p[v]
    ensures Untouched(w, q, legs, n)
  {
  }

  lemma {:induction false} NoneRefused(venues: Venues, w: World, a: Id, legs: seq<IntentLeg>, readings: Readings, i: nat)
    requires venues.Keys == w.Keys && i < |legs| == |readings| && Rejections(venues, w, a, legs, readings) == []
    ensures PreviewLeg(venues, w, a, legs[i], readings[i]).None?
  {
    if PreviewLeg(venues, w, a, legs[i], readings[i]).Some? {
      var x := Rejection(legs[i].venue, legs[i].outcome, PreviewLeg(venues, w, a, legs[i], readings[i]).value);
      RejectionsExactly(venues, w, a, legs, readings, x);
    }
  }

  /** With each leg on a venue of its own and the books unmoved between the two
      passes, a ticket that passes preview fills: it is never unwound. */
  lemma PreviewedNeverUnwinds(venues: Venues, w: World, w': World, intent: Intent, readings: Readings, r: Submission)
    requires venues.Keys == w.Keys == w'.Keys && |intent.legs| == |readings| && OwnVenues(intent.legs)
    requires Outcome(venues, w, w', intent, readings, readings, r)
    ensures !r.Unwound?
    ensures r.Filled? <==> forall i :: 0 <= i < |intent.legs| ==> PreviewLeg(venues, w, intent.account, intent.legs[i], readings[i]).None?
  {
    hide PreviewLeg, Committed, AsBefore;
    if Rejections(venues, w, intent.account, intent.legs, readings) == [] {
      forall i | 0 <= i < |intent.legs| ensures PreviewLeg(venues, w, intent.account, intent.legs[i], readings[i]).None? {
        NoneRefused(venues, w, intent.account, intent.legs, readings, i);
      }
      PreviewedFills(venues, w, intent, readings, |intent.legs|);
    } else {
      var x := Rejections(venues, w, intent.account, intent.legs, readings)[0];
      RejectionsExactly(venues, w, intent.account, intent.legs, readings, x);
    }
  }

  class Router {
    const adapters: map<Id, Broker>

    constructor (adapters: map<Id, Broker>)
      ensures this.adapters == adapters
    {
      this.adapters := adapters;
    }

    /** Each venue has its own broker. */
    ghost predicate Valid()
      reads adapters.Values
    {
      && (forall v :: v in adapters ==> adapters[v].id == v)
      && WellKept(Now())
    }

    ghost function Now(): (w: World)
      reads adapters.Values
      ensures w.Keys == adapters.Keys
    {
      map v | v in adapters :: adapters[v].Now()
    }

    ghost function Charges(): (c: Venues)
      ensures c.Keys == adapters.Keys
    {
      map v | v in adapters :: adapters[v].venue
    }

    /** Why one leg would be refused, if it would be. */
    method Preview(a: Id, leg: IntentLeg, reading: Option<Quote>) returns (refusal: Option<Reason>)
      requires Valid()
      ensures refusal == PreviewLeg(Charges(), Now(), a, leg, reading)
      ensures refusal.None? ==> leg.venue in adapters
    {
      hide PreviewFill;
      if leg.venue !in adapters {
        return Some(NoAdapter);
      }
      var adapter := adapters[leg.venue];
      var p := PreviewFill(adapter.venue, reading, leg.isBuy, leg.qty, leg.limit);
      if p.Refused? {
        return Some(p.reason);
      }
      if leg.isBuy {
        var cash := adapter.Acct(a).cash;
        if p.cost > cash {
          return Some(InsufficientFunds);
        }
      }
      return None;
    }

    /** Previews every leg, then commits; `preview` and `commit` are what the
        book showed each leg on the two passes. */
    method Submit(intent: Intent, preview: Readings, commit: Readings) returns (r: Submission)
      requires Valid() && |intent.legs| == |preview| == |commit|
      modifies adapters.Values
      ensures Valid()
      ensures Outcome(Charges(), old(Now()), Now(), intent, preview, commit, r)
    {
      hide PreviewLeg, Committed, AsBefore, Router.Now, Router.Charges, Router.Valid;
      var rejections: seq<Rejection> := [];
      for i := 0 to |intent.legs|
        invariant Valid() && Now() == old(Now())
        invariant rejections == Rejections(Charges(), Now(), intent.account, intent.legs[..i], preview[..i])
        invariant rejections == [] ==> forall k :: 0 <= k < i ==> intent.legs[k].venue in adapters
      {
        var leg := intent.legs[i];
        assert intent.legs[..i + 1][..i] == intent.legs[..i] && preview[..i + 1][..i] == preview[..i];
        var refusal := Preview(intent.account, leg, preview[i]);
        if refusal.Some? {
          rejections := rejections + [Rejection(leg.venue, leg.outcome, refusal.value)];
        }
      }
      assert intent.legs[..|intent.legs|] == intent.legs && preview[..|preview|] == preview;
      if rejections != [] {
        return Rejected(rejections);
      }
      r := CommitAtomically(intent, commit);
    }

    /** One leg, applied at its venue; no other broker moves. */
    method ApplyAt(a: Id, leg: IntentLeg, ticket: Option<Id>, reading: Option<Quote>)
      returns (order: Order, fill: Option<Fill>, reason: Option<Reason>)
      requires Valid() && leg.venue in adapters
      modifies adapters[leg.venue]
      ensures Valid()
      ensures Attempt(order, fill, reason, Now()[leg.venue])
           == Attempted(old(Now())[leg.venue], leg.venue, Charges()[leg.venue], a, leg, ticket, reading)
      ensures Now() == old(Now())[leg.venue := Now()[leg.venue]]
    {
      hide Attempted;
      ghost var w := Now();
      assert w[leg.venue].Valid();
      order, fill, reason := adapters[leg.venue].ApplyFill(a, leg, ticket, reading);
      OneMoved(w, Now(), leg.venue);
    }

    /** One leg of the commit; a rejected order is not remembered. */
    method TryLeg(a: Id, leg: IntentLeg, ticket: Option<Id>, reading: Option<Quote>, ghost p: Progress)
      returns (order: Order, failure: Option<(Id, Reason)>)
      requires Valid() && leg.venue in adapters && p.world == Now() && p.stopped.None?
      modifies adapters[leg.venue]
      ensures Valid()
      ensures var q := NextLeg(Charges(), p, a, leg, ticket, reading);
        && Now() == q.world
        && failure == q.stopped
        && q.orders == if failure.None? then p.orders + [order] else p.orders
    {
      hide Router.Now, Attempted, Forgot;
      AttemptBooks(Now()[leg.venue], leg.venue, Charges()[leg.venue], a, leg, ticket, reading);
      var fill, reason;
      order, fill, reason := ApplyAt(a, leg, ticket, reading);
      failure := None;
      if !order.filled {
        ForgetAt(leg.venue, order.id);
        failure := Some((leg.venue, reason.value));
      }
      OneMoved(p.world, Now(), leg.venue);
    }

    /** Fills every leg with nothing in between, or unwinds the ticket. */
    method CommitAtomically(intent: Intent, readings: Readings) returns (r: Submission)
      requires Valid() && |intent.legs| == |readings| && AllKnown(Charges(), intent)
      modifies adapters.Values
      ensures Valid()
      ensures var p := Committed(Charges(), old(Now()), intent, readings, |intent.legs|);
        if p.stopped.None? then r == Submission.Filled(p.orders) && Now() == p.world
        else
          && r == Unwound(p.stopped.value.0, p.stopped.value.1)
          && forall v :: v in adapters ==>
               AsBefore(old(Now())[v], Now()[v], intent.account, p.world[v].Acct(intent.account).openFees)
    {
      hide *;
      ghost var w := Now();
      ValidKeeps();
      var snapshots := TakeSnapshots(intent);
      var applied, failure := FillLegs(intent, readings);
      if failure.None? {
        return Submission.Filled(applied);
      }
      RestoreAll(intent.account, snapshots, w);
      ghost var u := Now();
      OrdersKnown(Charges(), w, intent, readings, |intent.legs|);
      ForgetAll(applied);
      TicketUnwound(Charges(), w, intent, readings, snapshots.Keys, u, Now());
      return Unwound(failure.value.0, failure.value.1);
    }

    lemma ValidKeeps()
      requires Valid()
      ensures WellKept(Now())
    {
    }

    /** Fills the legs in order, stopping at the first rejection. */
    method FillLegs(intent: Intent, readings: Readings) returns (applied: seq<Order>, failure: Option<(Id, Reason)>)
      requires Valid() && |intent.legs| == |readings| && AllKnown(Charges(), intent)
      modifies adapters.Values
      ensures Valid()
      ensures var p := Committed(Charges(), old(Now()), intent, readings, |intent.legs|);
        Now() == p.world && applied == p.orders && failure == p.stopped
    {
      hide Router.Now, NextLeg;
      ghost var w := Now();
      applied, failure := [], None;
      var i := 0;
      while i < |intent.legs| && failure.None?
        invariant 0 <= i <= |intent.legs| && Valid()
        invariant var p := Committed(Charges(), w, intent, readings, i);
          Now() == p.world && applied == p.orders && failure == p.stopped
        decreases |intent.legs| - i
      {
        var order;
        order, failure := TryLeg(intent.account, intent.legs[i], intent.ticket, readings[i], Committed(Charges(), w, intent, readings, i));
        if failure.None? {
          applied := applied + [order];
        }
        i := i + 1;
      }
      if failure.Some? {
        StoppedStays(Charges(), w, intent, readings, i, |intent.legs|);
      }
    }

    /** One snapshot per distinct broker; several legs may share a venue. */
    method TakeSnapshots(intent: Intent) returns (snapshots: map<Id, Snapshot>)
      requires AllKnown(Charges(), intent)
      ensures forall v :: v in snapshots <==> exists leg :: leg in intent.legs && leg.venue == v
      ensures forall v :: v in snapshots ==> v in adapters && snapshots[v] == SnapshotOf(Now()[v].Acct(intent.account))
    {
      snapshots := map[];
      for i := 0 to |intent.legs|
        invariant forall v :: v in snapshots <==> exists k :: 0 <= k < i && intent.legs[k].venue == v
        invariant forall v :: v in snapshots ==> v in adapters && snapshots[v] == SnapshotOf(adapters[v].Acct(intent.account))
      {
        var v := intent.legs[i].venue;
        if v !in snapshots {
          var snap := adapters[v].SnapshotAccount(intent.account);
          snapshots := snapshots[v := snap];
        }
      }
    }

    method RestoreAll(a: Id, snapshots: map<Id, Snapshot>, ghost w: World)
      requires Valid() && w.Keys == adapters.Keys
      requires forall v :: v in snapshots ==> v in adapters && snapshots[v] == SnapshotOf(w[v].Acct(a))
      modifies adapters.Values
      ensures Valid()
      ensures forall v :: v in adapters ==>
        Now()[v] == if v in snapshots then PutBack(w[v], old(Now())[v], a, {}) else old(Now())[v]
    {
      hide *;
      ghost var t := Now();
      ghost var u := t;
      var rest := snapshots.Keys;
      while rest != {}
        invariant rest <= snapshots.Keys && Valid()
        invariant Now() == u && u.Keys == t.Keys
        invariant forall v :: v in t ==>
          u[v] == if v in snapshots && v !in rest then PutBack(w[v], t[v], a, {}) else t[v]
      {
        var v :| v in rest;
        rest := rest - {v};
        RestoreAt(v, a, snapshots[v], w[v]);
        u := u[v := PutBack(w[v], t[v], a, {})];
      }
    }

    method RestoreAt(v: Id, a: Id, snap: Snapshot, ghost s: State)
      requires Valid() && v in adapters && snap == SnapshotOf(s.Acct(a))
      modifies adapters[v]
      ensures Valid()
      ensures Now() == old(Now())[v := PutBack(s, old(Now())[v], a, {})]
    {
      hide PutBack;
      ghost var w := Now();
      RestoreIsPutBack(s, w[v], a);
      adapters[v].RestoreAccount(a, snap);
      OneMoved(w, Now(), v);
    }

    method ForgetAll(applied: seq<Order>)
      requires Valid() && forall o :: o in applied ==> o.venue in adapters
      modifies adapters.Values
      ensures Valid()
      ensures forall v :: v in adapters ==> Now()[v] == Forgot(old(Now())[v], IdsAt(applied, v))
    {
      hide *;
      ghost var t := Now();
      ghost var u := t;
      forall v | v in t ensures u[v] == Forgot(t[v], IdsAt([], v)) { ForgotNone(t[v], v); }
      for i := 0 to |applied|
        invariant Valid()
        invariant Now() == u && u.Keys == t.Keys
        invariant forall v :: v in t ==> u[v] == Forgot(t[v], IdsAt(applied[..i], v))
      {
        var o := applied[i];
        ForgetAt(o.venue, o.id);
        u := u[o.venue := Forgot(u[o.venue], {o.id})];
        assert applied[..i + 1] == applied[..i] + [o];
        forall v | v in t ensures u[v] == Forgot(t[v], IdsAt(applied[..i + 1], v)) {
          IdsGrow(applied[..i], o, v);
          ForgotMore(t[v], IdsAt(applied[..i], v), o.id);
        }
      }
      assert applied[..|applied|] == applied;
    }

    method ForgetAt(v: Id, id: Id)
      requires Valid() && v in adapters
      modifies adapters[v]
      ensures Valid()
      ensures Now() == old(Now())[v := Forgot(old(Now())[v], {id})]
    {
      ghost var w := Now();
      adapters[v].ForgetOrder(id);
      OneMoved(w, Now(), v);
    }
  }

  lemma ForgotNone(s: State, v: Id)
    ensures Forgot(s, IdsAt([], v)) == s
  {
  }

  lemma IdsGrow(orders: seq<Order>, o: Order, v: Id)
    ensures IdsAt(orders + [o], v) == IdsAt(orders, v) + (if o.venue == v then {o.id} else {})
  {
  }

  lemma ForgotMore(s: State, ids: set<Id>, id: Id)
    ensures Forgot(Forgot(s, ids), {id}) == Forgot(s, ids + {id})
    ensures Forgot(s, ids + {}) == Forgot(s, ids)
  {
  }

  /** Restoring the snapshots and forgetting the orders returns every broker to
      where it was, but for the carried fees. */
  lemma TicketUnwound(venues: Venues, w: World, intent: Intent, readings: Readings, snapped: set<Id>, u: World, s: World)
    requires venues.Keys == w.Keys == u.Keys == s.Keys && |intent.legs| == |readings| && AllKnown(venues, intent) && WellKept(w)
    requires forall v :: v in snapped <==> exists leg :: leg in intent.legs && leg.venue == v
    requires var p := Committed(venues, w, intent, readings, |intent.legs|);
      && (forall v :: v in w ==> u[v] == if v in snapped then PutBack(w[v], p.world[v], intent.account, {}) else p.world[v])
      && (forall v :: v in w ==> s[v] == Forgot(u[v], IdsAt(p.orders, v)))
    ensures var p := Committed(venues, w, intent, readings, |intent.legs|);
      forall v :: v in w ==> AsBefore(w[v], s[v], intent.account, p.world[v].Acct(intent.account).openFees)
  {
    hide Committed, OnlyAdded, AsBefore, PutBack, IdsAt, Forgot;
    var p := Committed(venues, w, intent, readings, |intent.legs|);
    forall v | v in w ensures AsBefore(w[v], s[v], intent.account, p.world[v].Acct(intent.account).openFees) {
      var ids := IdsAt(p.orders, v);
      if v in snapped {
        CommitOnlyAdds(venues, w, intent, readings, |intent.legs|, v);
        PutBackAsBefore(w[v], p.world[v], intent.account, ids);
        ForgetIsPutBack(w[v], p.world[v], intent.account, ids);
      } else {
        Untried(venues, w, intent, readings, |intent.legs|, v);
        ForgetNothing(w[v], intent.account);
      }
    }
  }

  lemma ForgetNothing(s: State, a: Id)
    ensures Forgot(s, {}) == s && AsBefore(s, s, a, s.Acct(a).openFees)
  {
  }

  lemma OneMoved(w: World, w': World, v: Id)
    requires w.Keys == w'.Keys && v in w && forall u :: u in w && u != v ==> w'[u] == w[u]
    ensures w' == w[v := w'[v]]
  {
  }

  lemma {:induction false} OrdersKnown(venues: Venues, w: World, intent: Intent, readings: Readings, n: nat)
    requires venues.Keys == w.Keys && n <= |intent.legs| == |readings| && AllKnown(venues, intent)
    ensures forall o :: o in Committed(venues, w, intent, readings, n).orders ==> o.venue in venues
  {
    if n > 0 {
      OrdersKnown(venues, w, intent, readings, n - 1);
      var p := Committed(venues, w, intent, readings, n - 1);
      if p.stopped.None? {
        hide Attempted;
        var leg := intent.legs[n - 1];
        AttemptNamesVenue(p.world[leg.venue], leg.venue, venues[leg.venue], intent.account, leg, intent.ticket, readings[n - 1]);
      }
    }
  }

  lemma AttemptNamesVenue(s: State, venue: Id, cfg: Venue, a: Id, leg: IntentLeg, ticket: Option<Id>, reading: Option<Quote>)
    ensures Attempted(s, venue, cfg, a, leg, ticket, reading).order.venue == venue
  {
  }
}
