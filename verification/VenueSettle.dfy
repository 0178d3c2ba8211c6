/** Settling open positions at the results the venues publish: one pass over
    what the brokers hold, then over the settlements whose record is missing. */
module VenueSettle {
  import opened Common
  import opened Types
  import opened Ledger
  import opened PaperBroker
  import opened SettlementProtocol

  type Position = (Id, Id)

  /** What one pass is told while it waits: which outcomes have a settlement on
      record, what each venue answered (no entry: not final yet), and which
      traded outcomes have no record. */
  datatype Answers = Answers(recorded: set<Id>, results: map<Position, real>, unrecorded: seq<Position>)

  datatype Report = Report(
    checked: nat,
    skipped: nat,
    settled: seq<(Position, real)>,
    unresolved: seq<Position>,
    ghosts: seq<Position>,
    recorded: seq<(Position, real)>,
    closed: set<Id>)

  const NOTHING := Report(0, 0, [], [], [], [], {})

  /** Legs of games still to come. */
  function NotStarted(groups: seq<EventGroup>, now: real): set<Position> {
    set g, leg | g in groups && g.start.Some? && g.start.value > now && leg in g.legs :: (leg.venue, leg.outcome)
  }

  predicate HasLeg(g: EventGroup, p: Position) { exists leg :: leg in g.legs && (leg.venue, leg.outcome) == p }

  /** The first group with a leg at this position is told it is finished. */
  function Finished(groups: seq<EventGroup>, p: Position): set<Id> {
    if groups == [] then {}
    else if HasLeg(groups[0], p) then {groups[0].id}
    else Finished(groups[1..], p)
  }

  /** The first listed group with a leg at a position, by its place in the list. */
  ghost predicate FirstAt(groups: seq<EventGroup>, p: Position, id: Id, i: nat) {
    && i < |groups| && groups[i].id == id
    && (exists leg :: leg in groups[i].legs && leg.venue == p.0 && leg.outcome == p.1)
    && forall j, leg :: 0 <= j < i && leg in groups[j].legs ==> leg.venue != p.0 || leg.outcome != p.1
  }

  lemma {:induction false} FinishedExactly(groups: seq<EventGroup>, p: Position, id: Id)
    ensures id in Finished(groups, p) <==> exists i: nat :: FirstAt(groups, p, id, i)
  {
    if groups != [] {
      FinishedExactly(groups[1..], p, id);
      if HasLeg(groups[0], p) {
        FirstHasLeg(groups, p);
        if id == groups[0].id { assert FirstAt(groups, p, id, 0); }
      } else {
        assert forall leg :: leg in groups[0].legs ==> (leg.venue, leg.outcome) != p;
        FirstIsLater(groups, p, id);
      }
    }
  }

  lemma FirstHasLeg(groups: seq<EventGroup>, p: Position)
    requires groups != [] && HasLeg(groups[0], p)
    ensures forall id, i: nat :: FirstAt(groups, p, id, i) <==> i == 0 && id == groups[0].id
  {
    var leg :| leg in groups[0].legs && (leg.venue, leg.outcome) == p;
    assert leg.venue == p.0 && leg.outcome == p.1;
  }

  /** Past a group without the leg, the first is the first of the rest. */
  lemma FirstIsLater(groups: seq<EventGroup>, p: Position, id: Id)
    requires groups != [] && forall leg :: leg in groups[0].legs ==> (leg.venue, leg.outcome) != p
    ensures (exists i: nat :: FirstAt(groups, p, id, i)) <==> exists i: nat :: FirstAt(groups[1..], p, id, i)
  {
    if i: nat :| FirstAt(groups, p, id, i) {
      assert FirstAt(groups[1..], p, id, i - 1);
    }
    if i: nat :| FirstAt(groups[1..], p, id, i) {
      assert FirstAt(groups, p, id, i + 1);
    }
  }

  /** A game with this leg has a known start still to come. */
  ghost predicate ToCome(groups: seq<EventGroup>, now: real, v: Id, o: Id) {
    exists g, leg :: g in groups && leg in g.legs && leg.venue == v && leg.outcome == o && g.start.Some? && now < g.start.value
  }

  lemma NotStartedExactly(groups: seq<EventGroup>, now: real, v: Id, o: Id)
    ensures (v, o) in NotStarted(groups, now) <==> ToCome(groups, now, v, o)
  {
  }

  function HeldBy(st: Account): set<Id> { set o | o in st.positions && st.positions[o] != 0.0 }

  function Held(accounts: map<Id, Account>, ids: set<Id>): set<Id> {
    set a, o | a in ids && a in accounts && o in HeldBy(accounts[a]) :: o
  }

  // ---- what the pass does to one held outcome -------------------------------------

  datatype Treatment = Skip | Close | Unresolved | Pay(value: real)

  function Decided(pending: set<Position>, ans: Answers, v: Id, o: Id): Treatment {
    if (v, o) in pending then Skip
    else if o in ans.recorded then Close
    else if (v, o) in ans.results then Pay(ans.results[(v, o)])
    else Unresolved
  }

  function Treated(st: Account, o: Id, t: Treatment): Account {
    match t
    case Close => ClosedUnpaid(st, o)
    case Pay(value) => Settled(st, o, value)
    case _ => st
  }

  function Reported(r: Report, groups: seq<EventGroup>, v: Id, o: Id, t: Treatment): Report {
    match t
    case Skip => r.(skipped := r.skipped + 1)
    case Close => r.(ghosts := r.ghosts + [(v, o)], closed := r.closed + Finished(groups, (v, o)))
    case Unresolved => r.(checked := r.checked + 1, unresolved := r.unresolved + [(v, o)])
    case Pay(value) =>
      r.(checked := r.checked + 1, settled := r.settled + [((v, o), value)], closed := r.closed + Finished(groups, (v, o)))
  }

  /** One account after the first n of a venue's held outcomes. */
  function Passed(st: Account, pending: set<Position>, ans: Answers, v: Id, os: seq<Id>, n: nat): Account
    requires n <= |os|
  {
    if n == 0 then st else Treated(Passed(st, pending, ans, v, os, n - 1), os[n - 1], Decided(pending, ans, v, os[n - 1]))
  }

  function PassReport(r: Report, groups: seq<EventGroup>, pending: set<Position>, ans: Answers, v: Id, os: seq<Id>, n: nat): Report
    requires n <= |os|
  {
    if n == 0 then r
    else Reported(PassReport(r, groups, pending, ans, v, os, n - 1), groups, v, os[n - 1], Decided(pending, ans, v, os[n - 1]))
  }

  ghost function PassedAll(accounts: map<Id, Account>, pending: set<Position>, ans: Answers, v: Id, os: seq<Id>, n: nat): map<Id, Account>
    requires n <= |os|
  {
    map a | a in accounts :: Passed(accounts[a], pending, ans, v, os, n)
  }

  /** Whether a pass is to pay a holding: its game has started, nothing is on
      record for it and its venue has published a result. */
  predicate Payable(pending: set<Position>, ans: Answers, v: Id, o: Id) {
    (v, o) !in pending && o !in ans.recorded && (v, o) in ans.results
  }

  /** What an account is owed for those of the first n outcomes that are payable. */
  function PaidFor(st: Account, pending: set<Position>, ans: Answers, v: Id, os: seq<Id>, n: nat): real
    requires n <= |os|
  {
    if n == 0 then 0.0
    else
      PaidFor(st, pending, ans, v, os, n - 1)
      + (if Payable(pending, ans, v, os[n - 1]) then ans.results[(v, os[n - 1])] * st.Qty(os[n - 1]) else 0.0)
  }

  /** What a pass owes an account: for each position whose game is not still to
      come, with nothing on record and a result, that value of what it holds. */
  ghost function OwedTo(st: Account, groups: seq<EventGroup>, now: real, ans: Answers, v: Id): map<Id, real> {
    map o | o in st.positions && !ToCome(groups, now, v, o) && o !in ans.recorded && (v, o) in ans.results ::
      ans.results[(v, o)] * st.positions[o]
  }

  /** One account before and after a pass, told from the groups and the clock. */
  ghost predicate SettledFor(st: Account, st': Account, groups: seq<EventGroup>, now: real, ans: Answers, v: Id) {
    && st'.cash == st.cash + Sum(OwedTo(st, groups, now, ans, v))
    && forall o: Id :: st'.Qty(o) ==
         if !ToCome(groups, now, v, o) && (o in ans.recorded || (v, o) in ans.results) then 0.0 else st.Qty(o)
  }

  ghost function OwedOn(st: Account, pending: set<Position>, ans: Answers, v: Id, os: seq<Id>): map<Id, real> {
    map o | o in os && Payable(pending, ans, v, o) :: ans.results[(v, o)] * st.Qty(o)
  }

  lemma {:induction false} PaidIsOwed(st: Account, pending: set<Position>, ans: Answers, v: Id, os: seq<Id>, n: nat)
    requires n <= |os| && forall i, j :: 0 <= i < j < |os| ==> os[i] < os[j]
    ensures PaidFor(st, pending, ans, v, os, n) == Sum(OwedOn(st, pending, ans, v, os[..n]))
  {
    hide Payable, Sum, OwedOn;
    if n == 0 {
      OwedNone(st, pending, ans, v);
    } else {
      PaidIsOwed(st, pending, ans, v, os, n - 1);
      assert os[..n] == os[..n - 1] + [os[n - 1]] && os[n - 1] !in os[..n - 1];
      OwedNext(st, pending, ans, v, os[..n - 1], os[n - 1]);
    }
  }

  lemma OwedNone(st: Account, pending: set<Position>, ans: Answers, v: Id)
    ensures Sum(OwedOn(st, pending, ans, v, [])) == 0.0
  {
    assert OwedOn(st, pending, ans, v, []) == map[];
  }

  lemma OwedNext(st: Account, pending: set<Position>, ans: Answers, v: Id, os: seq<Id>, o: Id)
    requires o !in os
    ensures Sum(OwedOn(st, pending, ans, v, os + [o])) == Sum(OwedOn(st, pending, ans, v, os))
      + (if Payable(pending, ans, v, o) then ans.results[(v, o)] * st.Qty(o) else 0.0)
  {
    hide Payable, Sum;
    var m, n := OwedOn(st, pending, ans, v, os), OwedOn(st, pending, ans, v, os + [o]);
    SumDrop(n, o);
    assert n - {o} == m;
    if Payable(pending, ans, v, o) { PayableHasResult(pending, ans, v, o); }
  }

  lemma PayableHasResult(pending: set<Position>, ans: Answers, v: Id, o: Id)
    requires Payable(pending, ans, v, o)
    ensures (v, o) in ans.results
  {
  }

  /** The pass over everything an account holds at a venue pays it what it is owed
      and closes what is finished, by the groups and the clock themselves. */
  lemma PassSettles(st: Account, groups: seq<EventGroup>, now: real, ans: Answers, v: Id, os: seq<Id>)
    requires forall i, j :: 0 <= i < j < |os| ==> os[i] < os[j]
    requires forall o :: o in HeldBy(st) ==> o in os
    ensures SettledFor(st, Passed(st, NotStarted(groups, now), ans, v, os, |os|), groups, now, ans, v)
  {
    hide Passed, PaidFor, NotStarted, ToCome, Sum, OwedOn, OwedTo, HeldBy, Account.Qty;
    var pending := NotStarted(groups, now);
    PassPaysOnce(st, pending, ans, v, os, |os|);
    PaidIsOwed(st, pending, ans, v, os, |os|);
    assert os[..|os|] == os;
    var on, all := OwedOn(st, pending, ans, v, os), OwedTo(st, groups, now, ans, v);
    forall o: Id
      ensures ((v, o) in pending <==> ToCome(groups, now, v, o)) && (o in os || st.Qty(o) == 0.0)
      ensures At(on, o) == At(all, o)
    {
      NotStartedExactly(groups, now, v, o);
      NotHeldBy(st, o);
      OwedAlike(st, groups, now, ans, v, os, o);
    }
    SumSame(on, all);
  }

  lemma NotHeldBy(st: Account, o: Id)
    ensures o !in HeldBy(st) ==> st.Qty(o) == 0.0
  {
  }

  lemma OwedAlike(st: Account, groups: seq<EventGroup>, now: real, ans: Answers, v: Id, os: seq<Id>, o: Id)
    requires o in HeldBy(st) ==> o in os
    ensures At(OwedOn(st, NotStarted(groups, now), ans, v, os), o) == At(OwedTo(st, groups, now, ans, v), o)
  {
    hide NotStarted, ToCome;
    NotStartedExactly(groups, now, v, o);
    if (v, o) in ans.results { OwedSame(ans.results[(v, o)], st.Qty(o)); }
  }

  lemma OwedSame(value: real, qty: real)
    ensures qty == 0.0 ==> value * qty == 0.0
  {
  }

  lemma TreatedReads(st: Account, o: Id, t: Treatment)
    ensures var st' := Treated(st, o, t);
      && (forall p: Id :: p != o ==> st'.Qty(p) == st.Qty(p))
      && (t.Close? || t.Pay? ==> st'.Qty(o) == 0.0)
      && (t.Skip? || t.Unresolved? ==> st' == st)
      && st'.cash == st.cash + (if t.Pay? then t.value * st.Qty(o) else 0.0)
  {
  }

  lemma DecidedReads(pending: set<Position>, ans: Answers, v: Id, o: Id)
    ensures var t := Decided(pending, ans, v, o);
      && (t.Pay? <==> Payable(pending, ans, v, o)) && (t.Pay? ==> t.value == ans.results[(v, o)])
      && (t.Close? <==> (v, o) !in pending && o in ans.recorded)
  {
  }

  /** One account after a whole pass over distinct outcomes. A holding whose game
      has started is closed if it is on record or its venue has a result, and
      every other is untouched; what the pass adds to the cash is the published
      value of exactly the payable holdings, each once. */
  lemma {:induction false} PassPaysOnce(st: Account, pending: set<Position>, ans: Answers, v: Id, os: seq<Id>, n: nat)
    requires n <= |os| && forall i, j :: 0 <= i < j < |os| ==> os[i] < os[j]
    ensures var st' := Passed(st, pending, ans, v, os, n);
      && st'.cash == st.cash + PaidFor(st, pending, ans, v, os, n)
      && (forall p: Id :: p !in os[..n] ==> st'.Qty(p) == st.Qty(p))
      && (forall i :: 0 <= i < n ==>
            st'.Qty(os[i]) == if (v, os[i]) !in pending && (os[i] in ans.recorded || (v, os[i]) in ans.results) then 0.0 else st.Qty(os[i]))
  {
    hide Treated, Decided;
    if n > 0 {
      PassPaysOnce(st, pending, ans, v, os, n - 1);
      var before, o := Passed(st, pending, ans, v, os, n - 1), os[n - 1];
      TreatedReads(before, o, Decided(pending, ans, v, o));
      DecidedReads(pending, ans, v, o);
      assert os[..n] == os[..n - 1] + [o];
      assert o !in os[..n - 1];
      assert before.Qty(o) == st.Qty(o);
    }
  }

  /** Running the pass again on the same answers pays nothing more: what was paid
      is no longer held, and what is still held has no result. */
  lemma SecondPassPaysNothing(st: Account, pending: set<Position>, ans: Answers, v: Id, os: seq<Id>, again: seq<Id>)
    requires forall i, j :: 0 <= i < j < |os| ==> os[i] < os[j]
    requires forall i, j :: 0 <= i < j < |again| ==> again[i] < again[j]
    requires forall o :: o in again ==> o in HeldBy(Passed(st, pending, ans, v, os, |os|))
    requires forall o :: o in HeldBy(st) ==> o in os
    ensures var once := Passed(st, pending, ans, v, os, |os|);
      && PaidFor(once, pending, ans, v, again, |again|) == 0.0
      && Passed(once, pending, ans, v, again, |again|).cash == once.cash
  {
    hide Decided, Passed;
    var once := Passed(st, pending, ans, v, os, |os|);
    PassPaysOnce(st, pending, ans, v, os, |os|);
    assert os[..|os|] == os;
    forall o | o in again ensures !Payable(pending, ans, v, o) {
      assert once.Qty(o) != 0.0;
      assert o !in os ==> st.Qty(o) == once.Qty(o);
      assert o !in os ==> o in HeldBy(st);
      var i :| 0 <= i < |os| && os[i] == o;
    }
    NothingToPay(once, pending, ans, v, again, |again|);
    PassPaysOnce(once, pending, ans, v, again, |again|);
  }

  lemma {:induction false} NothingToPay(st: Account, pending: set<Position>, ans: Answers, v: Id, os: seq<Id>, n: nat)
    requires n <= |os| && forall o :: o in os ==> !Payable(pending, ans, v, o)
    ensures PaidFor(st, pending, ans, v, os, n) == 0.0
  {
    hide Payable;
    if n > 0 { NothingToPay(st, pending, ans, v, os, n - 1); }
  }

  // ---- what a report says ----------------------------------------------------------

  /** A report that adds, for a set of held positions, exactly what the pass is to
      say of each. */
  ghost predicate Reads(r: Report, r': Report, ps: set<Position>, pending: set<Position>, ans: Answers) {
    && r'.recorded == r.recorded
    && (forall x :: x in r'.settled <==> x in r.settled || (x.0 in ps && Payable(pending, ans, x.0.0, x.0.1) && x.1 == ans.results[x.0]))
    && (forall p :: p in r'.ghosts <==> p in r.ghosts || (p in ps && p !in pending && p.1 in ans.recorded))
    && (forall p :: p in r'.unresolved <==> p in r.unresolved || (p in ps && p !in pending && p.1 !in ans.recorded && p !in ans.results))
  }

  /** Every outcome a venue was asked about is reported once, and the groups told
      they are finished are those of the positions paid, closed or recorded. */
  ghost predicate Tallied(r: Report, groups: seq<EventGroup>) {
    && r.checked == |r.settled| + |r.unresolved| + |r.recorded|
    && forall g :: g in r.closed <==>
         (exists x :: x in r.settled && g in Finished(groups, x.0)) || (exists p :: p in r.ghosts && g in Finished(groups, p))
         || (exists x :: x in r.recorded && g in Finished(groups, x.0))
  }

  lemma ReadsNothing(r: Report, pending: set<Position>, ans: Answers)
    ensures Reads(r, r, {}, pending, ans)
  {
  }

  lemma ReadsOne(r: Report, groups: seq<EventGroup>, pending: set<Position>, ans: Answers, v: Id, o: Id)
    ensures Reads(r, Reported(r, groups, v, o, Decided(pending, ans, v, o)), {(v, o)}, pending, ans)
  {
    hide Finished;
  }

  lemma ReadsBoth(a: Report, b: Report, c: Report, ps: set<Position>, qs: set<Position>, pending: set<Position>, ans: Answers)
    requires Reads(a, b, ps, pending, ans) && Reads(b, c, qs, pending, ans)
    ensures Reads(a, c, ps + qs, pending, ans)
  {
    hide Payable;
  }

  lemma TalliedOne(r: Report, groups: seq<EventGroup>, v: Id, o: Id, t: Treatment)
    requires Tallied(r, groups)
    ensures Tallied(Reported(r, groups, v, o, t), groups)
  {
    hide Finished;
  }

  /** The held positions a report tells of, those skipped included. */
  function Told(r: Report): nat { r.skipped + |r.settled| + |r.ghosts| + |r.unresolved| }

  lemma ToldOnce(r: Report, groups: seq<EventGroup>, v: Id, o: Id, t: Treatment)
    ensures Told(Reported(r, groups, v, o, t)) == Told(r) + 1
  {
  }

  function Visited(v: Id, os: seq<Id>, n: nat): set<Position>
    requires n <= |os|
  {
    set o | o in os[..n] :: (v, o)
  }

  lemma {:induction false} PassReads(r: Report, groups: seq<EventGroup>, pending: set<Position>, ans: Answers, v: Id, os: seq<Id>, n: nat)
    requires n <= |os|
    ensures var r' := PassReport(r, groups, pending, ans, v, os, n);
      && Reads(r, r', Visited(v, os, n), pending, ans) && (Tallied(r, groups) ==> Tallied(r', groups))
      && Told(r') == Told(r) + n
  {
    hide Reads, Tallied, Reported, Decided;
    if n == 0 {
      assert Visited(v, os, 0) == {};
      ReadsNothing(r, pending, ans);
    } else {
      var before := PassReport(r, groups, pending, ans, v, os, n - 1);
      var after := PassReport(r, groups, pending, ans, v, os, n);
      PassReads(r, groups, pending, ans, v, os, n - 1);
      ReadsOne(before, groups, pending, ans, v, os[n - 1]);
      ToldOnce(before, groups, v, os[n - 1], Decided(pending, ans, v, os[n - 1]));
      assert os[..n] == os[..n - 1] + [os[n - 1]];
      assert Visited(v, os, n) == Visited(v, os, n - 1) + {(v, os[n - 1])};
      ReadsBoth(r, before, after, Visited(v, os, n - 1), {(v, os[n - 1])}, pending, ans);
      if Tallied(r, groups) { TalliedOne(before, groups, v, os[n - 1], Decided(pending, ans, v, os[n - 1])); }
    }
  }

  /** How the broker's own operations move the protocol's state: an account whose
      cash includes the payout of `credited` contracts at `value` each. */
  ghost predicate Shows(s: System, st: Account, o: Id, value: real) {
    st.cash == s.cash.other + value * s.cash.credited && st.Qty(o) == s.qty
  }

  lemma BrokerRefinesProtocol(s: System, st: Account, o: Id, value: real)
    requires Shows(s, st, o, value)
    ensures Shows(Settle(s), Settled(st, o, value), o, value)
    ensures Shows(CloseUnpaid(s), ClosedUnpaid(st, o), o, value)
  {
  }

  // ---- the service ------------------------------------------------------------------

  class Service {
    const brokers: map<Id, Broker>
    const order: seq<Id>
    const accounts: set<Id>
    const resolvers: set<Id>
    var settledTotal: nat
    var ghostsTotal: nat
    var recordedTotal: nat
    var finished: set<Id>

    constructor (brokers: map<Id, Broker>, order: seq<Id>, accounts: set<Id>, resolvers: set<Id>)
      ensures this.brokers == brokers && this.order == order && this.accounts == accounts && this.resolvers == resolvers
      ensures settledTotal == ghostsTotal == recordedTotal == 0 && finished == {}
    {
      this.brokers, this.order, this.accounts, this.resolvers := brokers, order, accounts, resolvers;
      settledTotal, ghostsTotal, recordedTotal, finished := 0, 0, 0, {};
    }

    /** One broker to a venue, each visited once, and all of them visited. */
    ghost predicate Valid()
      reads brokers.Values
    {
      && (forall v :: v in brokers ==> brokers[v].id == v)
      && (forall v :: v in order <==> v in brokers)
      && (forall i, j :: 0 <= i < j < |order| ==> order[i] != order[j])
    }

    ghost function Books(): (w: map<Id, map<Id, Account>>)
      reads brokers.Values
      ensures w.Keys == brokers.Keys
    {
      map v | v in brokers :: brokers[v].accounts
    }

    /** The outcomes the asked-about accounts hold at a venue, in pass order. */
    ghost function HeldAt(book: map<Id, Account>): seq<Id> { Ascending(Held(book, accounts)) }

    ghost function PassedAt(book: map<Id, Account>, pending: set<Position>, ans: Answers, v: Id): map<Id, Account> {
      PassedAll(book, pending, ans, v, HeldAt(book), |HeldAt(book)|)
    }

    ghost function ReportAt(r: Report, book: map<Id, Account>, groups: seq<EventGroup>, pending: set<Position>, ans: Answers, v: Id): Report {
      PassReport(r, groups, pending, ans, v, HeldAt(book), |HeldAt(book)|)
    }

    /** The report of the first phase over the first n venues. */
    ghost function FirstPhase(w: map<Id, map<Id, Account>>, groups: seq<EventGroup>, pending: set<Position>, ans: Answers, n: nat): Report
      requires n <= |order|
    {
      if n == 0 then NOTHING
      else
        var r, v := FirstPhase(w, groups, pending, ans, n - 1), order[n - 1];
        if v in resolvers && v in w then ReportAt(r, w[v], groups, pending, ans, v) else r
    }

    /** No account the service asks about has moved. */
    ghost predicate Kept(w: map<Id, map<Id, Account>>, w': map<Id, map<Id, Account>>) {
      && w.Keys == w'.Keys
      && forall v, a :: v in w && a in accounts ==> (a in w[v] <==> a in w'[v]) && (a in w[v] ==> w'[v][a] == w[v][a])
    }

    lemma VenueKnown(i: nat)
      requires Valid() && i < |order|
      ensures order[i] in brokers && order[i] !in order[..i]
    {
    }

    lemma BookAt(v: Id)
      requires v in brokers
      ensures Books()[v] == brokers[v].accounts
    {
    }

    lemma FirstNext(w: map<Id, map<Id, Account>>, groups: seq<EventGroup>, pending: set<Position>, ans: Answers, n: nat)
      requires n <= |order|
      ensures n == 0 ==> FirstPhase(w, groups, pending, ans, n) == NOTHING
      ensures n < |order| && order[n] in w ==>
        var r, v := FirstPhase(w, groups, pending, ans, n), order[n];
        FirstPhase(w, groups, pending, ans, n + 1) == if v in resolvers then ReportAt(r, w[v], groups, pending, ans, v) else r
    {
    }

    /** One held outcome at one venue. */
    method TreatOutcome(v: Id, o: Id, groups: seq<EventGroup>, pending: set<Position>, ans: Answers, r: Report) returns (r': Report)
      requires Valid() && v in brokers
      modifies brokers[v]
      ensures Valid()
      ensures brokers[v].accounts == map a | a in old(brokers[v].accounts) :: Treated(old(brokers[v].accounts)[a], o, Decided(pending, ans, v, o))
      ensures r' == Reported(r, groups, v, o, Decided(pending, ans, v, o))
    {
      hide Settled, ClosedUnpaid, Finished;
      if (v, o) in pending {
        assert brokers[v].accounts == map a | a in brokers[v].accounts :: Treated(brokers[v].accounts[a], o, Skip);
        return r.(skipped := r.skipped + 1);
      }
      if o in ans.recorded {
        var _ := brokers[v].CloseAlreadySettled(o);
        return r.(ghosts := r.ghosts + [(v, o)], closed := r.closed + Finished(groups, (v, o)));
      }
      r' := r.(checked := r.checked + 1);
      if (v, o) !in ans.results {
        assert brokers[v].accounts == map a | a in brokers[v].accounts :: Treated(brokers[v].accounts[a], o, Unresolved);
        return r'.(unresolved := r'.unresolved + [(v, o)]);
      }
      var value := ans.results[(v, o)];
      var _ := brokers[v].SettleOutcome(o, value);
      r' := r'.(settled := r'.settled + [((v, o), value)], closed := r'.closed + Finished(groups, (v, o)));
    }

    /** The first phase at one venue. */
    method SettleVenue(v: Id, held: set<Id>, groups: seq<EventGroup>, pending: set<Position>, ans: Answers, r: Report) returns (r': Report)
      requires Valid() && v in brokers
      modifies brokers[v]
      ensures Valid()
      ensures var os := Ascending(held);
        && brokers[v].accounts == PassedAll(old(brokers[v].accounts), pending, ans, v, os, |os|)
        && r' == PassReport(r, groups, pending, ans, v, os, |os|)
    {
      hide Treated, Reported, Decided, Ascending;
      var os := Ascending(held);
      r' := r;
      for i := 0 to |os|
        invariant Valid()
        invariant brokers[v].accounts == PassedAll(old(brokers[v].accounts), pending, ans, v, os, i)
        invariant r' == PassReport(r, groups, pending, ans, v, os, i)
      {
        r' := TreatOutcome(v, os[i], groups, pending, ans, r');
      }
    }

    /** The first phase at one venue; no other broker moves. */
    method SettleAt(v: Id, held: set<Id>, groups: seq<EventGroup>, pending: set<Position>, ans: Answers, r: Report) returns (r': Report)
      requires Valid() && v in brokers && held == Held(Books()[v], accounts)
      modifies brokers[v]
      ensures Valid()
      ensures Books() == old(Books())[v := PassedAt(old(Books())[v], pending, ans, v)]
      ensures r' == ReportAt(r, old(Books())[v], groups, pending, ans, v)
    {
      hide Ascending, Held, PassedAll, PassReport;
      ghost var w := Books();
      r' := SettleVenue(v, held, groups, pending, ans, r);
      assert Books()[v] == PassedAt(w[v], pending, ans, v);
      assert forall x :: x in brokers && x != v ==> Books()[x] == w[x];
    }

    /** What the asked-about accounts held at each venue visited. */
    ghost function HeldMap(w: map<Id, map<Id, Account>>, n: nat): map<Id, set<Id>>
      requires n <= |order|
    {
      map v | v in order[..n] && v in resolvers && v in w :: Held(w[v], accounts)
    }

    /** Every broker's accounts after the first n venues. */
    ghost function FirstBooks(w: map<Id, map<Id, Account>>, pending: set<Position>, ans: Answers, n: nat): map<Id, map<Id, Account>>
      requires n <= |order|
    {
      map v | v in w :: if v in order[..n] && v in resolvers then PassedAt(w[v], pending, ans, v) else w[v]
    }

    /** The first phase, venue by venue. */
    method SettleHeld(groups: seq<EventGroup>, pending: set<Position>, ans: Answers) returns (r: Report, held: map<Id, set<Id>>)
      requires Valid()
      modifies brokers.Values
      ensures Valid()
      ensures Books() == FirstBooks(old(Books()), pending, ans, |order|)
      ensures held == HeldMap(old(Books()), |order|)
      ensures r == FirstPhase(old(Books()), groups, pending, ans, |order|)
    {
      hide *;
      ghost var w := Books();
      r, held := NOTHING, map[];
      FirstNext(w, groups, pending, ans, 0);
      FirstStart(w, pending, ans);
      for i := 0 to |order|
        invariant Valid() && Books() == FirstBooks(w, pending, ans, i)
        invariant held == HeldMap(w, i)
        invariant r == FirstPhase(w, groups, pending, ans, i)
      {
        var v := order[i];
        VenueKnown(i);
        FirstNext(w, groups, pending, ans, i);
        FirstMore(w, pending, ans, i);
        if v in resolvers {
          var here := Held(brokers[v].accounts, accounts);
          held := held[v := here];
          BookAt(v);
          r := SettleAt(v, here, groups, pending, ans, r);
        }
      }
    }

    lemma BooksKeys()
      ensures Books().Keys == brokers.Keys
    {
    }

    lemma FirstStart(w: map<Id, map<Id, Account>>, pending: set<Position>, ans: Answers)
      ensures FirstBooks(w, pending, ans, 0) == w && HeldMap(w, 0) == map[]
    {
    }

    lemma FirstMore(w: map<Id, map<Id, Account>>, pending: set<Position>, ans: Answers, n: nat)
      requires n < |order| && order[n] in w && order[n] !in order[..n]
      ensures var v, u := order[n], FirstBooks(w, pending, ans, n);
        && u.Keys == w.Keys && u[v] == w[v]
        && FirstBooks(w, pending, ans, n + 1) == (if v in resolvers then u[v := PassedAt(w[v], pending, ans, v)] else u)
        && HeldMap(w, n + 1) == (if v in resolvers then HeldMap(w, n)[v := Held(w[v], accounts)] else HeldMap(w, n))
    {
      hide PassedAt, Held;
      assert order[..n + 1] == order[..n] + [order[n]];
    }

    /** One pass: every venue with a resolver, then the missing records. */
    method SettleOnce(groups: seq<EventGroup>, now: real, ans: Answers) returns (r: Report)
      requires Valid()
      modifies this`settledTotal, this`ghostsTotal, this`recordedTotal, this`finished, brokers.Values
      ensures Valid()
      ensures Kept(FirstBooks(old(Books()), NotStarted(groups, now), ans, |order|), Books())
      ensures r == WholePass(old(Books()), groups, NotStarted(groups, now), ans)
      ensures Complete(old(Books()), groups, NotStarted(groups, now), ans, r)
      ensures SaysOf(old(Books()), groups, now, ans, r)
      ensures SettlesAll(old(Books()), Books(), groups, now, ans)
      ensures settledTotal == old(settledTotal) + |r.settled|
      ensures ghostsTotal == old(ghostsTotal) + |r.ghosts|
      ensures recordedTotal == old(recordedTotal) + |r.recorded|
      ensures finished == old(finished) + r.closed
    {
      hide *;
      BooksKeys();
      ghost var w := Books();
      r := BothPhases(groups, NotStarted(groups, now), ans);
      PassSays(w, groups, now, ans, r);
      PassBooks(w, Books(), groups, now, ans);
      settledTotal := settledTotal + |r.settled|;
      ghostsTotal := ghostsTotal + |r.ghosts|;
      recordedTotal := recordedTotal + |r.recorded|;
      finished := finished + r.closed;
    }

    method BothPhases(groups: seq<EventGroup>, pending: set<Position>, ans: Answers) returns (r: Report)
      requires Valid()
      modifies brokers.Values
      ensures Valid() && Kept(FirstBooks(old(Books()), pending, ans, |order|), Books())
      ensures r == WholePass(old(Books()), groups, pending, ans) && Complete(old(Books()), groups, pending, ans, r)
    {
      hide *;
      BooksKeys();
      var held;
      ghost var w := Books();
      PassIsComplete(w, groups, pending, ans);
      r, held := SettleHeld(groups, pending, ans);
      r := RecordMissing(held, groups, pending, ans, r);
      WholeIs(w, groups, pending, ans);
    }

    /** The second phase on one outcome with no record: passed over if the first
        phase owns it, it is held elsewhere or its game has not started; asked
        about otherwise; and recorded once its venue has a result, unless it has
        come to be held. */
    function Filed(r: Report, w: map<Id, map<Id, Account>>, held: map<Id, set<Id>>, groups: seq<EventGroup>,
                   pending: set<Position>, ans: Answers, p: Position): Report {
      if p.0 !in brokers || p.0 !in resolvers || (p.0 in held && p.1 in held[p.0]) || p in pending then r
      else
        var c := r.(checked := r.checked + 1);
        if p !in ans.results then c.(unresolved := c.unresolved + [p])
        else if p.0 in w && p.1 in Held(w[p.0], accounts) then c
        else c.(recorded := c.recorded + [(p, ans.results[p])], closed := c.closed + Finished(groups, p))
    }

    function SecondPhase(r: Report, w: map<Id, map<Id, Account>>, held: map<Id, set<Id>>, groups: seq<EventGroup>,
                         pending: set<Position>, ans: Answers, n: nat): Report
      requires n <= |ans.unrecorded|
    {
      if n == 0 then r
      else Filed(SecondPhase(r, w, held, groups, pending, ans, n - 1), w, held, groups, pending, ans, ans.unrecorded[n - 1])
    }

    /** The second phase, listed outcome by listed outcome; no account asked about
        moves. */
    method RecordMissing(held: map<Id, set<Id>>, groups: seq<EventGroup>, pending: set<Position>, ans: Answers, r: Report) returns (r': Report)
      requires Valid()
      modifies brokers.Values
      ensures Valid() && Kept(old(Books()), Books())
      ensures r' == SecondPhase(r, old(Books()), held, groups, pending, ans, |ans.unrecorded|)
    {
      hide *;
      ghost var w := Books();
      r' := r;
      KeptAll(w);
      SecondStart(r, w, held, groups, pending, ans);
      for i := 0 to |ans.unrecorded|
        invariant Valid() && Kept(w, Books())
        invariant r' == SecondPhase(r, w, held, groups, pending, ans, i)
      {
        var p := ans.unrecorded[i];
        SecondNext(r, w, held, groups, pending, ans, i);
        FiledReads(r', w, held, groups, pending, ans, p);
        if p.0 !in brokers || p.0 !in resolvers || (p.0 in held && p.1 in held[p.0]) || p in pending {
          continue;
        }
        r' := r'.(checked := r'.checked + 1);
        if p !in ans.results {
          r' := r'.(unresolved := r'.unresolved + [p]);
          continue;
        }
        KeptHeld(w, p.0);
        if p.1 in Held(brokers[p.0].accounts, accounts) {
          continue;
        }
        RecordOne(p, ans.results[p], w);
        r' := r'.(recorded := r'.recorded + [(p, ans.results[p])], closed := r'.closed + Finished(groups, p));
      }
    }

    method RecordOne(p: Position, value: real, ghost w: map<Id, map<Id, Account>>)
      requires Valid() && Kept(w, Books()) && p.0 in brokers && p.1 !in Held(brokers[p.0].accounts, accounts)
      modifies brokers[p.0]
      ensures Valid() && Kept(w, Books())
    {
      hide Settled, Held;
      NotHeld(brokers[p.0].accounts, accounts, p.1, value);
      var _ := brokers[p.0].SettleOutcome(p.1, value);
    }

    lemma KeptAll(w: map<Id, map<Id, Account>>)
      ensures Kept(w, w)
    {
    }

    lemma KeptHeld(w: map<Id, map<Id, Account>>, v: Id)
      requires Kept(w, Books()) && v in brokers
      ensures v in w && Held(brokers[v].accounts, accounts) == Held(w[v], accounts)
    {
      hide HeldBy;
      assert Books()[v] == brokers[v].accounts;
      assert v in w;
      assert forall a :: a in accounts ==> (a in w[v] <==> a in Books()[v]) && (a in w[v] ==> Books()[v][a] == w[v][a]);
    }

    lemma SecondStart(r: Report, w: map<Id, map<Id, Account>>, held: map<Id, set<Id>>, groups: seq<EventGroup>, pending: set<Position>, ans: Answers)
      ensures SecondPhase(r, w, held, groups, pending, ans, 0) == r
    {
    }

    lemma SecondNext(r: Report, w: map<Id, map<Id, Account>>, held: map<Id, set<Id>>, groups: seq<EventGroup>,
                     pending: set<Position>, ans: Answers, n: nat)
      requires n < |ans.unrecorded|
      ensures SecondPhase(r, w, held, groups, pending, ans, n + 1)
        == Filed(SecondPhase(r, w, held, groups, pending, ans, n), w, held, groups, pending, ans, ans.unrecorded[n])
    {
    }

    lemma FiledReads(r: Report, w: map<Id, map<Id, Account>>, held: map<Id, set<Id>>, groups: seq<EventGroup>,
                     pending: set<Position>, ans: Answers, p: Position)
      ensures Filed(r, w, held, groups, pending, ans, p)
        == if p.0 !in brokers || p.0 !in resolvers || (p.0 in held && p.1 in held[p.0]) || p in pending then r
           else
             var c := r.(checked := r.checked + 1);
             if p !in ans.results then c.(unresolved := c.unresolved + [p])
             else if p.0 in w && p.1 in Held(w[p.0], accounts) then c
             else c.(recorded := c.recorded + [(p, ans.results[p])], closed := c.closed + Finished(groups, p))
    {
    }

    // ---- what a whole pass says -------------------------------------------------------

    ghost function WholePass(w: map<Id, map<Id, Account>>, groups: seq<EventGroup>, pending: set<Position>, ans: Answers): Report {
      SecondPhase(FirstPhase(w, groups, pending, ans, |order|), FirstBooks(w, pending, ans, |order|), HeldMap(w, |order|),
                  groups, pending, ans, |ans.unrecorded|)
    }

    lemma WholeIs(w: map<Id, map<Id, Account>>, groups: seq<EventGroup>, pending: set<Position>, ans: Answers)
      ensures WholePass(w, groups, pending, ans)
        == SecondPhase(FirstPhase(w, groups, pending, ans, |order|), FirstBooks(w, pending, ans, |order|), HeldMap(w, |order|),
                       groups, pending, ans, |ans.unrecorded|)
    {
    }

    /** Some account asked about held this when the pass began, at a venue that
        publishes results. */
    ghost predicate HeldAtStart(w: map<Id, map<Id, Account>>, v: Id, o: Id) {
      v in w && v in resolvers && exists a :: a in accounts && a in w[v] && w[v][a].Qty(o) != 0.0
    }

    /** What a report says of every position, told from the groups, the clock, what
        was held and what the venues and the database answered. Of a position whose
        game is still to come it says nothing. */
    ghost predicate SaysOf(w: map<Id, map<Id, Account>>, groups: seq<EventGroup>, now: real, ans: Answers, r: Report) {
      && (forall v: Id, o: Id, x :: ((v, o), x) in r.settled <==>
            HeldAtStart(w, v, o) && !ToCome(groups, now, v, o) && o !in ans.recorded && (v, o) in ans.results && x == ans.results[(v, o)])
      && (forall v: Id, o: Id :: (v, o) in r.ghosts <==> HeldAtStart(w, v, o) && !ToCome(groups, now, v, o) && o in ans.recorded)
      && (forall v: Id, o: Id :: (v, o) in r.unresolved <==>
            && !ToCome(groups, now, v, o) && (v, o) !in ans.results
            && (if HeldAtStart(w, v, o) then o !in ans.recorded else (v, o) in ans.unrecorded && v in w && v in resolvers))
      && (forall v: Id, o: Id, x :: ((v, o), x) in r.recorded <==>
            && !HeldAtStart(w, v, o) && !ToCome(groups, now, v, o) && (v, o) in ans.unrecorded && v in w && v in resolvers
            && (v, o) in ans.results && x == ans.results[(v, o)])
    }

    /** What a pass does to every account asked about: at a venue that publishes
        results it is settled by the groups and the clock, elsewhere untouched. */
    ghost predicate SettlesAll(w: map<Id, map<Id, Account>>, w': map<Id, map<Id, Account>>, groups: seq<EventGroup>, now: real, ans: Answers) {
      forall v, a :: v in w && a in accounts && a in w[v] ==>
        v in w' && a in w'[v] && (if v in resolvers then SettledFor(w[v][a], w'[v][a], groups, now, ans, v) else w'[v][a] == w[v][a])
    }

    lemma PassSays(w: map<Id, map<Id, Account>>, groups: seq<EventGroup>, now: real, ans: Answers, r: Report)
      requires Valid() && w.Keys == brokers.Keys && Complete(w, groups, NotStarted(groups, now), ans, r)
      ensures SaysOf(w, groups, now, ans, r)
    {
      hide NotStarted, ToCome, Tallied, Held, HeldAtStart;
      assert order[..|order|] == order;
      forall v: Id, o: Id
        ensures (v, o) in NotStarted(groups, now) <==> ToCome(groups, now, v, o)
        ensures (v, o) in HeldSet(w, |order|) <==> HeldAtStart(w, v, o)
        ensures v in w && v in resolvers ==> (o in Held(w[v], accounts) <==> HeldAtStart(w, v, o))
      {
        NotStartedExactly(groups, now, v, o);
        HeldReads(w, v, o);
      }
    }

    lemma HeldReads(w: map<Id, map<Id, Account>>, v: Id, o: Id)
      ensures HeldAtStart(w, v, o) <==> v in w && v in resolvers && o in Held(w[v], accounts)
    {
      if HeldAtStart(w, v, o) {
        var a :| a in accounts && a in w[v] && w[v][a].Qty(o) != 0.0;
        assert o in HeldBy(w[v][a]);
      }
    }

    lemma PassBooks(w: map<Id, map<Id, Account>>, w': map<Id, map<Id, Account>>, groups: seq<EventGroup>, now: real, ans: Answers)
      requires Valid() && w.Keys == brokers.Keys && Kept(FirstBooks(w, NotStarted(groups, now), ans, |order|), w')
      ensures SettlesAll(w, w', groups, now, ans)
    {
      hide NotStarted, SettledFor, Passed;
      assert order[..|order|] == order;
      forall v, a | v in w && a in accounts && a in w[v]
        ensures v in w' && a in w'[v]
        ensures if v in resolvers then SettledFor(w[v][a], w'[v][a], groups, now, ans, v) else w'[v][a] == w[v][a]
      {
        assert FirstBooks(w, NotStarted(groups, now), ans, |order|)[v]
            == if v in resolvers then PassedAt(w[v], NotStarted(groups, now), ans, v) else w[v];
        assert forall o :: o in HeldBy(w[v][a]) ==> o in HeldAt(w[v]);
        PassSettles(w[v][a], groups, now, ans, v, HeldAt(w[v]));
      }
    }

    /** What was held at the first n venues when the pass began. */
    ghost function HeldSet(w: map<Id, map<Id, Account>>, n: nat): set<Position>
      requires n <= |order|
    {
      set v, o | v in order[..n] && v in resolvers && v in w && o in Held(w[v], accounts) :: (v, o)
    }

    /** A listed outcome the second phase is to ask about: nobody held it when the
        pass began, and its game has started. */
    predicate Missing(w: map<Id, map<Id, Account>>, pending: set<Position>, p: Position) {
      p.0 in brokers && p.0 in resolvers && p.0 in w && p.1 !in Held(w[p.0], accounts) && p !in pending
    }

    /** A complete account of a pass in terms of what was held and listed when it
        began. */
    ghost predicate Complete(w: map<Id, map<Id, Account>>, groups: seq<EventGroup>, pending: set<Position>, ans: Answers, r: Report) {
      var held := HeldSet(w, |order|);
      && (forall x :: x in r.settled <==> x.0 in held && Payable(pending, ans, x.0.0, x.0.1) && x.1 == ans.results[x.0])
      && (forall p :: p in r.ghosts <==> p in held && p !in pending && p.1 in ans.recorded)
      && (forall p :: p in r.unresolved <==>
            p !in ans.results && ((p in held && p !in pending && p.1 !in ans.recorded) || (p in ans.unrecorded && Missing(w, pending, p))))
      && (forall x :: x in r.recorded <==>
            x.0 in ans.unrecorded && Missing(w, pending, x.0) && x.0 in ans.results && x.1 == ans.results[x.0])
      && Tallied(r, groups)
    }

    lemma {:induction false} FirstPhaseReads(w: map<Id, map<Id, Account>>, groups: seq<EventGroup>, pending: set<Position>, ans: Answers, n: nat)
      requires n <= |order|
      ensures var r := FirstPhase(w, groups, pending, ans, n);
        Reads(NOTHING, r, HeldSet(w, n), pending, ans) && Tallied(r, groups)
    {
      hide Reads, Tallied, PassReport, Held;
      if n == 0 {
        assert HeldSet(w, 0) == {};
        ReadsNothing(NOTHING, pending, ans);
        NothingTallies(groups);
      } else {
        var v, before := order[n - 1], FirstPhase(w, groups, pending, ans, n - 1);
        FirstPhaseReads(w, groups, pending, ans, n - 1);
        assert order[..n] == order[..n - 1] + [v];
        if v in resolvers && v in w {
          var os := HeldAt(w[v]);
          assert HeldSet(w, n) == HeldSet(w, n - 1) + Visited(v, os, |os|) by { assert os[..|os|] == os; }
          PassReads(before, groups, pending, ans, v, os, |os|);
          ReadsBoth(NOTHING, before, FirstPhase(w, groups, pending, ans, n), HeldSet(w, n - 1), Visited(v, os, |os|), pending, ans);
        } else {
          assert HeldSet(w, n) == HeldSet(w, n - 1);
        }
      }
    }

    lemma NothingTallies(groups: seq<EventGroup>)
      ensures Tallied(NOTHING, groups)
    {
    }

    /** The first phase never makes an outcome held, so the second finds every one
        it asks about still unheld. */
    lemma StillUnheld(w: map<Id, map<Id, Account>>, pending: set<Position>, ans: Answers, v: Id, o: Id)
      requires v in w && o !in Held(w[v], accounts)
      ensures o !in Held(FirstBooks(w, pending, ans, |order|)[v], accounts)
    {
      hide Passed;
      var os := HeldAt(w[v]);
      assert os[..|os|] == os;
      forall a | a in accounts && a in w[v] ensures o !in HeldBy(Passed(w[v][a], pending, ans, v, os, |os|)) {
        assert o !in HeldBy(w[v][a]);
        PassPaysOnce(w[v][a], pending, ans, v, os, |os|);
        assert Passed(w[v][a], pending, ans, v, os, |os|).Qty(o) == 0.0;
      }
    }

    /** A report that adds, for listed outcomes, exactly what the second phase is
        to say of each. */
    ghost predicate Files(w: map<Id, map<Id, Account>>, r: Report, r': Report, ps: seq<Position>, pending: set<Position>, ans: Answers) {
      && r'.settled == r.settled && r'.ghosts == r.ghosts
      && (forall p :: p in r'.unresolved <==> p in r.unresolved || (p in ps && Missing(w, pending, p) && p !in ans.results))
      && (forall x :: x in r'.recorded <==>
            x in r.recorded || (x.0 in ps && Missing(w, pending, x.0) && x.0 in ans.results && x.1 == ans.results[x.0]))
    }

    lemma FilesOne(w: map<Id, map<Id, Account>>, w': map<Id, map<Id, Account>>, r: Report, groups: seq<EventGroup>,
                   pending: set<Position>, ans: Answers, p: Position)
      requires Valid() && w.Keys == brokers.Keys
      requires p.0 in w' && p.0 in w && p.1 !in Held(w[p.0], accounts) ==> p.1 !in Held(w'[p.0], accounts)
      ensures var r' := Filed(r, w', HeldMap(w, |order|), groups, pending, ans, p);
        Files(w, r, r', [p], pending, ans) && (Tallied(r, groups) ==> Tallied(r', groups))
    {
      hide Held, Finished;
      assert order[..|order|] == order;
    }

    lemma FilesMore(w: map<Id, map<Id, Account>>, a: Report, b: Report, c: Report, ps: seq<Position>, p: Position,
                    pending: set<Position>, ans: Answers)
      requires Files(w, a, b, ps, pending, ans) && Files(w, b, c, [p], pending, ans)
      ensures Files(w, a, c, ps + [p], pending, ans)
    {
      hide Missing;
    }

    lemma {:induction false} SecondPhaseReads(w: map<Id, map<Id, Account>>, groups: seq<EventGroup>, pending: set<Position>, ans: Answers, r: Report, n: nat)
      requires Valid() && w.Keys == brokers.Keys && n <= |ans.unrecorded| && Tallied(r, groups)
      ensures var r' := SecondPhase(r, FirstBooks(w, pending, ans, |order|), HeldMap(w, |order|), groups, pending, ans, n);
        Files(w, r, r', ans.unrecorded[..n], pending, ans) && Tallied(r', groups)
    {
      hide Files, Tallied, Filed, Held, Valid;
      if n == 0 {
        FilesNothing(w, r, pending, ans);
      } else {
        var w', held := FirstBooks(w, pending, ans, |order|), HeldMap(w, |order|);
        var before, p := SecondPhase(r, w', held, groups, pending, ans, n - 1), ans.unrecorded[n - 1];
        SecondPhaseReads(w, groups, pending, ans, r, n - 1);
        if p.0 in w && p.1 !in Held(w[p.0], accounts) { StillUnheld(w, pending, ans, p.0, p.1); }
        FilesOne(w, w', before, groups, pending, ans, p);
        assert ans.unrecorded[..n] == ans.unrecorded[..n - 1] + [p];
        FilesMore(w, r, before, Filed(before, w', held, groups, pending, ans, p), ans.unrecorded[..n - 1], p, pending, ans);
      }
    }

    lemma FilesNothing(w: map<Id, map<Id, Account>>, r: Report, pending: set<Position>, ans: Answers)
      ensures Files(w, r, r, [], pending, ans)
    {
    }

    /** Every pass is complete: each held position whose game has started is paid,
        closed or reported unresolved as it should be; a listed outcome nobody held
        gets its record, at the value its venue published, exactly when the venue
        has one; every outcome a venue was asked about is counted once; and the
        groups told they are finished are those of the positions paid, closed or
        recorded. */
    lemma PassIsComplete(w: map<Id, map<Id, Account>>, groups: seq<EventGroup>, pending: set<Position>, ans: Answers)
      requires Valid() && w.Keys == brokers.Keys
      ensures Complete(w, groups, pending, ans, WholePass(w, groups, pending, ans))
    {
      hide FirstPhase, SecondPhase, Tallied, Missing, Payable, HeldSet;
      var first := FirstPhase(w, groups, pending, ans, |order|);
      FirstPhaseReads(w, groups, pending, ans, |order|);
      SecondPhaseReads(w, groups, pending, ans, first, |ans.unrecorded|);
      assert ans.unrecorded[..|ans.unrecorded|] == ans.unrecorded;
    }
  }

  lemma NotHeld(accounts: map<Id, Account>, ids: set<Id>, o: Id, value: real)
    requires o !in Held(accounts, ids)
    ensures forall a :: a in ids && a in accounts ==> Settled(accounts[a], o, value) == accounts[a]
  {
    forall a | a in ids && a in accounts ensures Settled(accounts[a], o, value) == accounts[a] {
      assert o !in HeldBy(accounts[a]);
    }
  }
}
