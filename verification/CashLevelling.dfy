/** Levelling free cash across the per-venue paper books. */
module CashLevelling {
  import opened Common
  import opened Ledger
  import opened PaperBroker
  import opened Qty

  datatype Transfer = Transfer(source: Id, target: Id, amount: real)

  /** One venue's distance from the mean. */
  type Share = (Id, real)

  type Balances = map<Id, real>

  /** Rounded down to the cent, so a plan can never overdraw its source. */
  function FloorCent(x: real): real { (Truncate(x * 100.0) as real) / 100.0 }

  // ---- who pays and who receives ----------------------------------------------------

  ghost function Mean(b: Balances): real
    requires |b| > 0
  {
    Sum(b) / (|b| as real)
  }

  function Surplus(b: Balances, mean: real): Balances { map v | v in b && b[v] > mean :: b[v] - mean }

  function Deficit(b: Balances, mean: real): Balances { map v | v in b && b[v] < mean :: mean - b[v] }

  /** Largest first, ties by venue id. */
  predicate Precedes(m: Balances, j: Id, k: Id)
    requires j in m && k in m
  {
    m[j] > m[k] || (m[j] == m[k] && j <= k)
  }

  lemma {:induction false} FindFirst(m: Balances) returns (j: Id)
    requires m != map[]
    ensures j in m && forall k :: k in m ==> Precedes(m, j, k)
    decreases |m|
  {
    j :| j in m;
    var rest := m - {j};
    assert forall k :: k in m ==> k == j || (k in rest && rest[k] == m[k]);
    if rest != map[] {
      var i := FindFirst(rest);
      if Precedes(m, i, j) { j := i; }
    }
  }

  function Ranked(m: Balances): (s: seq<Share>)
    ensures |s| == |m|
    decreases |m|
  {
    if m == map[] then []
    else
      FirstExists(m);
      var j :| j in m && forall k :: k in m ==> Precedes(m, j, k);
      [(j, m[j])] + Ranked(m - {j})
  }

  lemma FirstExists(m: Balances)
    requires m != map[]
    ensures exists j :: j in m && forall k :: k in m ==> Precedes(m, j, k)
  {
    var j := FindFirst(m);
  }

  function AmountOf(s: seq<Share>, v: Id): real {
    if s == [] then 0.0 else (if s[0].0 == v then s[0].1 else 0.0) + AmountOf(s[1..], v)
  }

  function Total(s: seq<Share>): real { if s == [] then 0.0 else s[0].1 + Total(s[1..]) }

  predicate Positive(s: seq<Share>) { forall x :: x in s ==> x.1 > 0.0 }

  lemma {:induction false} RankedReads(m: Balances, v: Id)
    requires forall k :: k in m ==> m[k] > 0.0
    ensures AmountOf(Ranked(m), v) == At(m, v) && Total(Ranked(m)) == Sum(m) && Positive(Ranked(m))
    decreases |m|
  {
    if m != map[] {
      var s := Ranked(m);
      var j := s[0].0;
      assert s == [(j, m[j])] + Ranked(m - {j});
      assert s[1..] == Ranked(m - {j});
      RankedReads(m - {j}, v);
      SumPick(m, j);
      assert At(m - {j}, v) == if v == j then 0.0 else At(m, v);
    }
  }

  /** The order the plan works in. */
  lemma {:induction false} RankedOrder(m: Balances, i: nat, k: nat)
    requires i < k < |Ranked(m)|
    ensures var s := Ranked(m);
      && s[i].0 in m && s[k].0 in m && s[i].0 != s[k].0 && s[i].1 == m[s[i].0] && s[k].1 == m[s[k].0]
      && Precedes(m, s[i].0, s[k].0)
    decreases i
  {
    var s := Ranked(m);
    var j := s[0].0;
    assert s == [(j, m[j])] + Ranked(m - {j});
    RankedNames(m - {j}, k - 1);
    if i > 0 { RankedOrder(m - {j}, i - 1, k - 1); }
  }

  lemma {:induction false} RankedNames(m: Balances, k: nat)
    requires k < |Ranked(m)|
    ensures Ranked(m)[k].0 in m && Ranked(m)[k].1 == m[Ranked(m)[k].0]
    decreases k
  {
    if k > 0 {
      var j := Ranked(m)[0].0;
      assert Ranked(m) == [(j, m[j])] + Ranked(m - {j});
      RankedNames(m - {j}, k - 1);
    }
  }

  // ---- the plan -------------------------------------------------------------------------

  /** The exact moves, before rounding: the largest surplus pays the largest
      deficit until one of the two is used up. */
  function Moves(s: seq<Share>, d: seq<Share>): (ms: seq<Transfer>)
    ensures s != [] && d != [] ==> |ms| <= |s| + |d| - 1
    ensures s == [] || d == [] ==> ms == []
    decreases |s| + |d|
  {
    if s == [] || d == [] then []
    else
      var move := Min(d[0].1, s[0].1);
      [Transfer(s[0].0, d[0].0, move)] + Moves(Reduced(s, move), Reduced(d, move))
  }

  /** What is left of a list after its head gives `move`, if anything. */
  function Reduced(s: seq<Share>, move: real): (r: seq<Share>)
    requires s != []
    ensures |r| == if s[0].1 - move <= 0.0 then |s| - 1 else |s|
  {
    if s[0].1 - move <= 0.0 then s[1..] else [(s[0].0, s[0].1 - move)] + s[1..]
  }

  /** What is planned of the first moves: rounded, and dropped below the floor. */
  function Planned(ms: seq<Transfer>, minTransfer: real): (plan: seq<Transfer>)
    ensures |plan| <= |ms|
  {
    if ms == [] then []
    else
      var n := |ms| - 1;
      var amount := FloorCent(ms[n].amount);
      Planned(ms[..n], minTransfer) + (if amount >= minTransfer then [ms[n].(amount := amount)] else [])
  }

  ghost function PlanOf(b: Balances, minTransfer: real): seq<Transfer> {
    if |b| < 2 || Sum(b) <= 0.0 then []
    else Planned(Moves(Ranked(Surplus(b, Mean(b))), Ranked(Deficit(b, Mean(b)))), minTransfer)
  }

  method SumBalances(b: Balances) returns (total: real)
    ensures total == Sum(b)
  {
    total := 0.0;
    var rest := b.Keys;
    assert b - rest == map[];
    while rest != {}
      invariant rest <= b.Keys && total == Sum(b - rest)
    {
      var v :| v in rest;
      SumPick(b - (rest - {v}), v);
      assert b - (rest - {v}) - {v} == b - rest;
      total := total + b[v];
      rest := rest - {v};
    }
    assert b - {} == b;
  }

  method PlanTransfers(b: Balances, minTransfer: real) returns (plan: seq<Transfer>)
    ensures plan == PlanOf(b, minTransfer)
  {
    hide Ranked, Planned, Moves, Sum;
    if |b| < 2 {
      return [];
    }
    var total := SumBalances(b);
    if total <= 0.0 {
      return [];
    }
    var mean := total / (|b| as real);
    RankedReads(Deficit(b, mean), 0);
    plan := PairOff(Ranked(Surplus(b, mean)), Ranked(Deficit(b, mean)), minTransfer);
  }

  /** The two nested loops: each deficit draws on the current surplus until it is
      met or the surpluses run out. */
  method PairOff(surpluses: seq<Share>, deficit: seq<Share>, minTransfer: real) returns (plan: seq<Transfer>)
    requires Positive(deficit)
    ensures plan == Planned(Moves(surpluses, deficit), minTransfer)
  {
    hide Planned, Moves, Reduced, FloorCent;
    plan := [];
    var surplus := surpluses;
    var si := 0;
    ghost var all := Moves(surpluses, deficit);
    ghost var done: seq<Transfer> := [];
    PlannedNone(minTransfer);
    assert surplus[0..] == surplus && deficit[0..] == deficit && [] + all == all;
    for j := 0 to |deficit|
      invariant 0 <= si <= |surplus|
      invariant all == done + Moves(surplus[si..], deficit[j..])
      invariant plan == Planned(done, minTransfer)
    {
      var (to, want) := deficit[j];
      assert deficit[j] in deficit;
      var remaining := want;
      ghost var rest := deficit[j + 1..];
      assert deficit[j..] == [(to, want)] + rest;
      while remaining > 0.0 && si < |surplus|
        invariant 0 <= si <= |surplus|
        invariant all == done + Moves(surplus[si..], Still(to, remaining, rest))
        invariant plan == Planned(done, minTransfer)
        decreases |surplus| - si + (if remaining > 0.0 then 1 else 0)
      {
        var (source, spare) := surplus[si];
        var move := Min(remaining, spare);
        var amount := FloorCent(move);
        MovesNext(surplus, si, to, remaining, rest);
        PlannedNext(done, Transfer(source, to, move), minTransfer);
        done := done + [Transfer(source, to, move)];
        if amount >= minTransfer {
          plan := plan + [Transfer(source, to, amount)];
        }
        remaining := remaining - move;
        spare := spare - move;
        if spare <= 0.0 {
          si := si + 1;
        } else {
          surplus := surplus[si := (source, spare)];
        }
      }
      if si == |surplus| { assert surplus[si..] == []; }
    }
    assert deficit[|deficit|..] == [];
    assert done + [] == done;
  }

  /** The deficits still open: the current one, unless it is met, and the rest. */
  ghost function Still(to: Id, remaining: real, rest: seq<Share>): seq<Share> {
    if remaining > 0.0 then [(to, remaining)] + rest else rest
  }

  lemma MovesNext(surplus: seq<Share>, si: nat, to: Id, remaining: real, rest: seq<Share>)
    requires si < |surplus| && remaining > 0.0
    ensures var (source, spare) := surplus[si];
      var move := Min(remaining, spare);
      var left := if spare - move <= 0.0 then surplus[si + 1..] else surplus[si := (source, spare - move)][si..];
      Moves(surplus[si..], Still(to, remaining, rest))
        == [Transfer(source, to, move)] + Moves(left, Still(to, remaining - move, rest))
  {
    hide Moves;
    var (source, spare) := surplus[si];
    var move := Min(remaining, spare);
    var s, d := surplus[si..], [(to, remaining)] + rest;
    assert s[1..] == surplus[si + 1..] && d[1..] == rest;
    assert surplus[si := (source, spare - move)][si..] == [(source, spare - move)] + s[1..];
    MovesStep(s, d);
  }

  lemma MovesStep(s: seq<Share>, d: seq<Share>)
    requires s != [] && d != []
    ensures var move := Min(d[0].1, s[0].1);
      Moves(s, d) == [Transfer(s[0].0, d[0].0, move)] + Moves(Reduced(s, move), Reduced(d, move))
  {
  }

  lemma PlannedNone(minTransfer: real)
    ensures Planned([], minTransfer) == []
  {
  }

  lemma PlannedNext(done: seq<Transfer>, m: Transfer, minTransfer: real)
    ensures Planned(done + [m], minTransfer)
         == Planned(done, minTransfer) + (if FloorCent(m.amount) >= minTransfer then [m.(amount := FloorCent(m.amount))] else [])
  {
  }

  // ---- what moves where ---------------------------------------------------------------------

  function Out(ms: seq<Transfer>, v: Id): real {
    if ms == [] then 0.0 else Out(ms[..|ms| - 1], v) + (if ms[|ms| - 1].source == v then ms[|ms| - 1].amount else 0.0)
  }

  function In(ms: seq<Transfer>, v: Id): real {
    if ms == [] then 0.0 else In(ms[..|ms| - 1], v) + (if ms[|ms| - 1].target == v then ms[|ms| - 1].amount else 0.0)
  }

  lemma FlowAppend(ms: seq<Transfer>, m: Transfer, v: Id)
    ensures Out(ms + [m], v) == Out(ms, v) + (if m.source == v then m.amount else 0.0)
    ensures In(ms + [m], v) == In(ms, v) + (if m.target == v then m.amount else 0.0)
  {
  }

  lemma {:induction false} FlowPrepend(m: Transfer, ms: seq<Transfer>, v: Id)
    ensures Out([m] + ms, v) == (if m.source == v then m.amount else 0.0) + Out(ms, v)
    ensures In([m] + ms, v) == (if m.target == v then m.amount else 0.0) + In(ms, v)
    decreases |ms|
  {
    if ms == [] {
      assert [m] + ms == [m] && [m][..0] == [];
    } else {
      var n := |ms| - 1;
      assert ([m] + ms)[..n + 1] == [m] + ms[..n];
      FlowPrepend(m, ms[..n], v);
    }
  }

  lemma {:induction false} NothingLeft(s: seq<Share>)
    requires Positive(s)
    ensures Total(s) >= 0.0 && (Total(s) == 0.0 <==> s == [])
  {
    if s != [] {
      assert s[0] in s;
      NothingLeft(s[1..]);
    }
  }

  lemma ReducedReads(s: seq<Share>, move: real, v: Id)
    requires Positive(s) && s != [] && move <= s[0].1
    ensures var r := Reduced(s, move);
      && Positive(r) && Total(r) == Total(s) - move
      && AmountOf(r, v) == AmountOf(s, v) - (if s[0].0 == v then move else 0.0)
  {
  }

  /** With equal totals the moves use every surplus and meet every deficit, to
      the last fraction, and every move is a real amount. */
  lemma {:induction false} MovesExhaust(s: seq<Share>, d: seq<Share>, v: Id)
    requires Positive(s) && Positive(d) && Total(s) == Total(d)
    ensures Out(Moves(s, d), v) == AmountOf(s, v) && In(Moves(s, d), v) == AmountOf(d, v)
    ensures forall m :: m in Moves(s, d) ==> m.amount > 0.0
    decreases |s| + |d|
  {
    hide Reduced, Out, In;
    NothingLeft(s);
    NothingLeft(d);
    if s != [] && d != [] {
      var move := Min(d[0].1, s[0].1);
      assert s[0] in s && d[0] in d;
      ReducedReads(s, move, v);
      ReducedReads(d, move, v);
      MovesExhaust(Reduced(s, move), Reduced(d, move), v);
      FlowPrepend(Transfer(s[0].0, d[0].0, move), Moves(Reduced(s, move), Reduced(d, move)), v);
    } else {
      FlowNone(v);
    }
  }

  lemma FlowNone(v: Id)
    ensures Out([], v) == 0.0 && In([], v) == 0.0
  {
  }

  // ---- rounding ---------------------------------------------------------------------------------

  lemma FloorCentClose(x: real)
    requires x >= 0.0
    ensures 0.0 <= FloorCent(x) <= x < FloorCent(x) + 0.01
  {
  }

  function Scaled(n: nat, x: real): real { (n as real) * x }

  lemma ScaledNext(n: nat, x: real)
    ensures Scaled(n + 1, x) == Scaled(n, x) + x
  {
  }

  lemma ScaledNone(x: real)
    ensures Scaled(0, x) == 0.0
  {
  }

  /** Rounding and dropping lose, at each venue, less than the floor and a cent
      for each move it had. */
  lemma {:induction false} LossBounded(ms: seq<Transfer>, minTransfer: real, v: Id)
    requires minTransfer >= 0.0 && forall m :: m in ms ==> m.amount > 0.0
    ensures 0.0 <= Out(ms, v) - Out(Planned(ms, minTransfer), v) <= Scaled(|ms|, minTransfer + 0.01)
    ensures 0.0 <= In(ms, v) - In(Planned(ms, minTransfer), v) <= Scaled(|ms|, minTransfer + 0.01)
  {
    hide FloorCent, Planned, Out, In, Scaled;
    if ms == [] {
      PlannedNone(minTransfer);
      FlowNone(v);
      ScaledNone(minTransfer + 0.01);
    } else {
      var n := |ms| - 1;
      LossBounded(ms[..n], minTransfer, v);
      PlannedLast(ms, minTransfer, v);
      ScaledNext(n, minTransfer + 0.01);
    }
  }

  /** The last move's part in what is moved and what is planned. */
  lemma PlannedLast(ms: seq<Transfer>, minTransfer: real, v: Id)
    requires ms != [] && forall m :: m in ms ==> m.amount > 0.0
    ensures var n := |ms| - 1;
      var m := ms[n];
      var amount := if FloorCent(m.amount) >= minTransfer then FloorCent(m.amount) else 0.0;
      && m.amount > 0.0 && 0.0 <= FloorCent(m.amount) <= m.amount < FloorCent(m.amount) + 0.01
      && Out(ms, v) == Out(ms[..n], v) + (if m.source == v then m.amount else 0.0)
      && In(ms, v) == In(ms[..n], v) + (if m.target == v then m.amount else 0.0)
      && Out(Planned(ms, minTransfer), v) == Out(Planned(ms[..n], minTransfer), v) + (if m.source == v then amount else 0.0)
      && In(Planned(ms, minTransfer), v) == In(Planned(ms[..n], minTransfer), v) + (if m.target == v then amount else 0.0)
  {
    hide FloorCent, Planned, Out, In;
    var n := |ms| - 1;
    assert ms[n] in ms && ms == ms[..n] + [ms[n]];
    FloorCentClose(ms[n].amount);
    FlowAppend(ms[..n], ms[n], v);
    PlannedNext(ms[..n], ms[n], minTransfer);
    FlowAppend(Planned(ms[..n], minTransfer), ms[n].(amount := FloorCent(ms[n].amount)), v);
    assert Planned(ms[..n], minTransfer) + [] == Planned(ms[..n], minTransfer);
  }

  /** For any floor at all, what is planned never exceeds the exact moves. */
  lemma {:induction false} PlannedAtMost(ms: seq<Transfer>, minTransfer: real, v: Id)
    requires forall m :: m in ms ==> m.amount > 0.0
    ensures Out(Planned(ms, minTransfer), v) <= Out(ms, v) && In(Planned(ms, minTransfer), v) <= In(ms, v)
    ensures forall m :: m in Planned(ms, minTransfer) ==> m.amount >= 0.0 && m.amount >= minTransfer
  {
    hide FloorCent, Planned, Out, In;
    if ms == [] {
      PlannedNone(minTransfer);
    } else {
      var n := |ms| - 1;
      PlannedAtMost(ms[..n], minTransfer, v);
      PlannedLast(ms, minTransfer, v);
      PlannedNext(ms[..n], ms[n], minTransfer);
      assert ms == ms[..n] + [ms[n]];
    }
  }

  lemma {:induction false} FlowPrefix(ms: seq<Transfer>, k: nat, v: Id)
    requires k <= |ms| && forall m :: m in ms ==> m.amount >= 0.0
    ensures 0.0 <= Out(ms[..k], v) <= Out(ms, v) && 0.0 <= In(ms[..k], v) <= In(ms, v)
  {
    if ms != [] {
      var n := |ms| - 1;
      assert ms[n] in ms;
      if k == |ms| {
        assert ms[..k] == ms;
        FlowPrefix(ms[..n], n, v);
        assert ms[..n][..n] == ms[..n];
      } else {
        FlowPrefix(ms[..n], k, v);
        assert ms[..n][..k] == ms[..k];
      }
    } else {
      assert ms[..k] == [];
    }
  }

  // ---- carrying the plan out ---------------------------------------------------------------------

  predicate Accepts(c: Balances, t: Transfer) {
    t.source in c && t.target in c && 0.0 < t.amount <= c[t.source]
  }

  function Paid(c: Balances, t: Transfer): Balances
    requires t.source in c && t.target in c
  {
    var d := c[t.source := c[t.source] - t.amount];
    d[t.target := d[t.target] + t.amount]
  }

  function Applied(c: Balances, plan: seq<Transfer>, k: nat): (d: Balances)
    requires k <= |plan|
    ensures d.Keys == c.Keys
  {
    if k == 0 then c
    else
      var d := Applied(c, plan, k - 1);
      if Accepts(d, plan[k - 1]) then Paid(d, plan[k - 1]) else d
  }

  function Moved(c: Balances, plan: seq<Transfer>, k: nat): seq<Transfer>
    requires k <= |plan|
  {
    if k == 0 then []
    else Moved(c, plan, k - 1) + (if Accepts(Applied(c, plan, k - 1), plan[k - 1]) then [plan[k - 1]] else [])
  }

  /** The transfers reported as made are some of the plan's, and what every venue
      ends with is what it had less what those take from it and plus what they
      bring. */
  lemma {:induction false} MovedReconciles(c: Balances, plan: seq<Transfer>, k: nat, v: Id)
    requires k <= |plan| && v in c
    ensures Applied(c, plan, k)[v] == c[v] - Out(Moved(c, plan, k), v) + In(Moved(c, plan, k), v)
    ensures forall t :: t in Moved(c, plan, k) ==> t in plan && 0.0 < t.amount && t.source in c && t.target in c
  {
    hide Out, In;
    if k > 0 {
      MovedReconciles(c, plan, k - 1, v);
      var before := Moved(c, plan, k - 1);
      FlowAppend(before, plan[k - 1], v);
      assert before + [] == before;
    } else {
      NothingFlows(v);
    }
  }

  lemma NothingFlows(v: Id)
    ensures Out([], v) == 0.0 && In([], v) == 0.0
  {
  }

  ghost function CashOf(brokers: map<Id, Broker>, a: Id): Balances
    reads brokers.Values
  {
    map v | v in brokers :: brokers[v].Acct(a).cash
  }

  ghost predicate OwnBrokers(brokers: map<Id, Broker>)
    reads brokers.Values
  {
    forall v :: v in brokers ==> brokers[v].id == v
  }

  /** Nothing on the books but the account's cash has moved. */
  twostate predicate OnlyCash(brokers: map<Id, Broker>, a: Id)
    reads brokers.Values
  {
    forall v :: v in brokers ==> OnlyCashAt(brokers[v], a)
  }

  twostate predicate OnlyCashAt(broker: Broker, a: Id)
    reads broker
  {
    forall b :: broker.Acct(b) == old(broker.Acct(b)).(cash := if b == a then broker.Acct(b).cash else old(broker.Acct(b)).cash)
  }

  method ApplyTransfers(brokers: map<Id, Broker>, a: Id, plan: seq<Transfer>) returns (applied: seq<Transfer>)
    requires OwnBrokers(brokers)
    modifies brokers.Values
    ensures CashOf(brokers, a) == Applied(old(CashOf(brokers, a)), plan, |plan|)
    ensures applied == Moved(old(CashOf(brokers, a)), plan, |plan|)
    ensures OnlyCash(brokers, a)
  {
    hide Accepts, Paid, CashOf;
    applied := [];
    ghost var c := CashOf(brokers, a);
    for i := 0 to |plan|
      invariant CashOf(brokers, a) == Applied(c, plan, i)
      invariant applied == Moved(c, plan, i)
      invariant OnlyCash(brokers, a)
    {
      var ok := MoveCash(brokers, a, plan[i]);
      if ok {
        applied := applied + [plan[i]];
      }
    }
  }

  /** One transfer: skipped if a venue is unknown or its source cannot cover it. */
  method MoveCash(brokers: map<Id, Broker>, a: Id, t: Transfer) returns (ok: bool)
    requires OwnBrokers(brokers)
    modifies brokers.Values
    ensures ok <==> Accepts(old(CashOf(brokers, a)), t)
    ensures CashOf(brokers, a) == if ok then Paid(old(CashOf(brokers, a)), t) else old(CashOf(brokers, a))
    ensures OnlyCash(brokers, a)
  {
    hide CashOf;
    CashKeys(brokers, a);
    if t.source !in brokers || t.target !in brokers {
      return false;
    }
    ok := TakeFrom(brokers, a, t.source, t.amount);
    if ok {
      PutInto(brokers, a, t.target, t.amount);
    }
  }

  /** The other venues' cash is as it was. */
  lemma OneVenueMoved(c: Balances, brokers: map<Id, Broker>, a: Id, v: Id)
    requires c.Keys == brokers.Keys && v in c
    requires forall x :: x in c && x != v ==> brokers[x].Acct(a).cash == c[x]
    ensures CashOf(brokers, a) == c[v := brokers[v].Acct(a).cash]
  {
  }

  lemma CashKeys(brokers: map<Id, Broker>, a: Id)
    ensures CashOf(brokers, a).Keys == brokers.Keys
  {
  }

  lemma CashAt(brokers: map<Id, Broker>, a: Id)
    ensures CashOf(brokers, a).Keys == brokers.Keys
    ensures forall v :: v in brokers ==> CashOf(brokers, a)[v] == brokers[v].Acct(a).cash
  {
  }

  method TakeFrom(brokers: map<Id, Broker>, a: Id, v: Id, amount: real) returns (ok: bool)
    requires OwnBrokers(brokers) && v in brokers
    modifies brokers[v]
    ensures var c := old(CashOf(brokers, a));
      && v in c && (ok <==> 0.0 < amount <= c[v])
      && CashOf(brokers, a) == if ok then c[v := c[v] - amount] else c
    ensures OnlyCash(brokers, a)
  {
    ghost var c := CashOf(brokers, a);
    assert forall x :: x in brokers && brokers[x] == brokers[v] ==> x == v;
    hide CashOf, OwnBrokers;
    CashAt(brokers, a);
    ok := brokers[v].Withdraw(a, amount);
    OneVenueMoved(c, brokers, a, v);
  }

  method PutInto(brokers: map<Id, Broker>, a: Id, v: Id, amount: real)
    requires OwnBrokers(brokers) && v in brokers
    modifies brokers[v]
    ensures var c := old(CashOf(brokers, a)); v in c && CashOf(brokers, a) == c[v := c[v] + amount]
    ensures OnlyCash(brokers, a)
  {
    ghost var c := CashOf(brokers, a);
    assert forall x :: x in brokers && brokers[x] == brokers[v] ==> x == v;
    hide CashOf, OwnBrokers;
    CashAt(brokers, a);
    brokers[v].Deposit(a, amount);
    OneVenueMoved(c, brokers, a, v);
  }

  /** Whatever the plan, levelling neither makes nor loses money. */
  lemma {:induction false} TotalConserved(c: Balances, plan: seq<Transfer>, k: nat)
    requires k <= |plan|
    ensures Sum(Applied(c, plan, k)) == Sum(c)
  {
    if k > 0 {
      TotalConserved(c, plan, k - 1);
      var d, t := Applied(c, plan, k - 1), plan[k - 1];
      if Accepts(d, t) {
        var e := d[t.source := d[t.source] - t.amount];
        SumUpdate(d, t.source, d[t.source] - t.amount);
        SumUpdate(e, t.target, e[t.target] + t.amount);
      }
    }
  }

  // ---- what a plan does to the balances it was made from -----------------------------------------

  lemma {:induction false} SurplusMeetsDeficit(b: Balances, mean: real)
    ensures Sum(Surplus(b, mean)) - Sum(Deficit(b, mean)) == Sum(b) - Scaled(|b|, mean)
    decreases |b|
  {
    hide Surplus, Deficit, Sum, Scaled;
    if b != map[] {
      var v :| v in b;
      SurplusMeetsDeficit(b - {v}, mean);
      SumDrop(b, v);
      SumDrop(Surplus(b, mean), v);
      SumDrop(Deficit(b, mean), v);
      SharesWithout(b, mean, v);
      ScaledNext(|b| - 1, mean);
    } else {
      NoShares(mean);
    }
  }

  lemma SharesWithout(b: Balances, mean: real, v: Id)
    requires v in b
    ensures Surplus(b, mean) - {v} == Surplus(b - {v}, mean)
    ensures Deficit(b, mean) - {v} == Deficit(b - {v}, mean)
    ensures At(Surplus(b, mean), v) - At(Deficit(b, mean), v) == b[v] - mean
    ensures |b - {v}| == |b| - 1
  {
    hide Surplus, Deficit;
    SurplusWithout(b, mean, v);
    DeficitWithout(b, mean, v);
    ShareOf(b, mean, v);
    assert (b - {v}).Keys == b.Keys - {v};
  }

  lemma SurplusWithout(b: Balances, mean: real, v: Id)
    ensures Surplus(b, mean) - {v} == Surplus(b - {v}, mean)
  {
  }

  lemma DeficitWithout(b: Balances, mean: real, v: Id)
    ensures Deficit(b, mean) - {v} == Deficit(b - {v}, mean)
  {
  }

  lemma ShareOf(b: Balances, mean: real, v: Id)
    requires v in b
    ensures At(Surplus(b, mean), v) - At(Deficit(b, mean), v) == b[v] - mean
  {
  }

  lemma NoShares(mean: real)
    ensures Sum(Surplus(map[], mean)) == 0.0 == Sum(Deficit(map[], mean)) && Sum(map[]) == 0.0 == Scaled(0, mean)
  {
  }

  lemma PayersAndReceivers(b: Balances, mean: real)
    ensures |Surplus(b, mean)| + |Deficit(b, mean)| <= |b|
  {
    var s, d := Surplus(b, mean).Keys, Deficit(b, mean).Keys;
    assert s !! d && s + d <= b.Keys;
    SubsetSize(s + d, b.Keys);
    assert |s + d| == |s| + |d|;
  }

  lemma MeanShares(b: Balances)
    requires |b| > 0
    ensures Scaled(|b|, Mean(b)) == Sum(b)
    ensures Sum(b) > 0.0 ==> Mean(b) > 0.0
  {
    hide Sum;
    Quotient(Sum(b), |b| as real);
  }

  lemma Quotient(total: real, n: real)
    requires n > 0.0
    ensures n * (total / n) == total && (total > 0.0 ==> total / n > 0.0)
  {
  }

  ghost function MovesOf(b: Balances): seq<Transfer>
    requires |b| > 0
  {
    Moves(Ranked(Surplus(b, Mean(b))), Ranked(Deficit(b, Mean(b))))
  }

  lemma PlanIsPlanned(b: Balances, minTransfer: real)
    requires |b| >= 2 && Sum(b) > 0.0
    ensures PlanOf(b, minTransfer) == Planned(MovesOf(b), minTransfer)
  {
  }

  /** The exact moves carry each venue's whole surplus out and whole deficit in. */
  lemma MovesAreExact(b: Balances, v: Id)
    requires |b| > 0
    ensures Out(MovesOf(b), v) == At(Surplus(b, Mean(b)), v)
    ensures In(MovesOf(b), v) == At(Deficit(b, Mean(b)), v)
    ensures |MovesOf(b)| <= |b| - 1
    ensures forall m :: m in MovesOf(b) ==> m.amount > 0.0
  {
    hide Ranked, Moves, Out, In, AmountOf, Mean, Sum, Scaled;
    var s, d := Surplus(b, Mean(b)), Deficit(b, Mean(b));
    MeanShares(b);
    SurplusMeetsDeficit(b, Mean(b));
    PayersAndReceivers(b, Mean(b));
    RankedReads(s, v);
    RankedReads(d, v);
    MovesExhaust(Ranked(s), Ranked(d), v);
  }

  /** A list of transfers that stays within every venue's surplus and deficit. */
  ghost predicate Within(b: Balances, mean: real, plan: seq<Transfer>) {
    && (forall m :: m in plan ==> m.amount >= 0.0)
    && forall v: Id :: Out(plan, v) <= At(Surplus(b, mean), v) && In(plan, v) <= At(Deficit(b, mean), v)
  }

  lemma PlanWithin(b: Balances, minTransfer: real)
    requires |b| >= 2 && Sum(b) > 0.0
    ensures Within(b, Mean(b), PlanOf(b, minTransfer)) && |PlanOf(b, minTransfer)| <= |b| - 1
  {
    hide PlanOf, MovesOf, Out, In, Planned, Surplus, Deficit;
    PlanIsPlanned(b, minTransfer);
    MovesAreExact(b, 0);
    PlannedAtMost(MovesOf(b), minTransfer, 0);
    forall v: Id
      ensures Out(PlanOf(b, minTransfer), v) <= At(Surplus(b, Mean(b)), v) && In(PlanOf(b, minTransfer), v) <= At(Deficit(b, Mean(b)), v)
    {
      MovesAreExact(b, v);
      PlannedAtMost(MovesOf(b), minTransfer, v);
    }
  }

  /** After any prefix of such a plan, every venue holds its start less what it
      paid plus what it received, and the next positive amount is accepted. */
  lemma {:induction false} PrefixApplies(b: Balances, mean: real, plan: seq<Transfer>, k: nat)
    requires k <= |plan| && mean > 0.0 && Within(b, mean, plan)
    ensures forall v :: v in b ==> Applied(b, plan, k)[v] == b[v] - Out(plan[..k], v) + In(plan[..k], v)
    ensures k < |plan| && plan[k].amount > 0.0 ==> Accepts(Applied(b, plan, k), plan[k])
  {
    hide Applied, Paid, Accepts, Out, In;
    if k == 0 {
      AppliedNone(b, plan);
    } else {
      PrefixApplies(b, mean, plan, k - 1);
      StepApplies(b, mean, plan, k - 1);
    }
    if k < |plan| && plan[k].amount > 0.0 {
      NextAccepted(b, mean, plan, k);
    }
  }

  lemma AppliedNone(b: Balances, plan: seq<Transfer>)
    ensures Applied(b, plan, 0) == b && plan[..0] == []
    ensures forall v: Id :: Out([], v) == 0.0 && In([], v) == 0.0
  {
  }

  lemma FlowNext(plan: seq<Transfer>, k: nat, v: Id)
    requires k < |plan|
    ensures Out(plan[..k + 1], v) == Out(plan[..k], v) + (if plan[k].source == v then plan[k].amount else 0.0)
    ensures In(plan[..k + 1], v) == In(plan[..k], v) + (if plan[k].target == v then plan[k].amount else 0.0)
  {
    assert plan[..k + 1] == plan[..k] + [plan[k]];
    FlowAppend(plan[..k], plan[k], v);
  }

  lemma NextAccepted(b: Balances, mean: real, plan: seq<Transfer>, k: nat)
    requires k < |plan| && plan[k].amount > 0.0 && mean > 0.0 && Within(b, mean, plan)
    requires forall v :: v in b ==> Applied(b, plan, k)[v] == b[v] - Out(plan[..k], v) + In(plan[..k], v)
    ensures Accepts(Applied(b, plan, k), plan[k]) && plan[k].source != plan[k].target
  {
    hide Applied, Out, In;
    var t := plan[k];
    FlowNext(plan, k, t.source);
    FlowNext(plan, k, t.target);
    FlowPrefix(plan, k, t.source);
    FlowPrefix(plan, k, t.target);
    FlowPrefix(plan, k + 1, t.source);
    FlowPrefix(plan, k + 1, t.target);
    assert At(Surplus(b, mean), t.source) > 0.0 && At(Deficit(b, mean), t.target) > 0.0;
  }

  lemma StepApplies(b: Balances, mean: real, plan: seq<Transfer>, k: nat)
    requires k < |plan| && mean > 0.0 && Within(b, mean, plan)
    requires forall v :: v in b ==> Applied(b, plan, k)[v] == b[v] - Out(plan[..k], v) + In(plan[..k], v)
    requires plan[k].amount > 0.0 ==> Accepts(Applied(b, plan, k), plan[k])
    ensures forall v :: v in b ==> Applied(b, plan, k + 1)[v] == b[v] - Out(plan[..k + 1], v) + In(plan[..k + 1], v)
  {
    hide Out, In;
    assert plan[k] in plan;
    if plan[k].amount > 0.0 { NextAccepted(b, mean, plan, k); }
    forall v | v in b
      ensures Applied(b, plan, k + 1)[v] == b[v] - Out(plan[..k + 1], v) + In(plan[..k + 1], v)
    {
      FlowNext(plan, k, v);
    }
  }

  /** Levelling, for any number of venues with money: at most n - 1 transfers;
      each positive one accepted from the balances the plan was made from; at
      every moment a payer is between the mean and its start, and a receiver
      between its start and the mean. */
  lemma PlanIsSafe(b: Balances, minTransfer: real, k: nat)
    requires |b| >= 2 && Sum(b) > 0.0 && k <= |PlanOf(b, minTransfer)|
    ensures var plan := PlanOf(b, minTransfer);
      && |plan| <= |b| - 1
      && Sum(Applied(b, plan, k)) == Sum(b)
      && (k < |plan| && plan[k].amount > 0.0 ==> Accepts(Applied(b, plan, k), plan[k]))
      && forall v :: v in b ==>
           var now := Applied(b, plan, k)[v];
           if b[v] >= Mean(b) then Mean(b) <= now <= b[v] else b[v] <= now <= Mean(b)
  {
    hide PlanOf, Applied, Out, In, Mean, Accepts;
    var plan := PlanOf(b, minTransfer);
    PlanWithin(b, minTransfer);
    MeanShares(b);
    TotalConserved(b, plan, k);
    PrefixApplies(b, Mean(b), plan, k);
    forall v | v in b
      ensures var now := Applied(b, plan, k)[v];
        if b[v] >= Mean(b) then Mean(b) <= now <= b[v] else b[v] <= now <= Mean(b)
    {
      FlowPrefix(plan, k, v);
    }
  }

  /** Carrying a levelling plan out makes every transfer of it. */
  lemma {:induction false} WholePlanMoves(b: Balances, minTransfer: real, k: nat)
    requires |b| >= 2 && Sum(b) > 0.0 && k <= |PlanOf(b, minTransfer)|
    requires forall t :: t in PlanOf(b, minTransfer) ==> t.amount > 0.0
    ensures Moved(b, PlanOf(b, minTransfer), k) == PlanOf(b, minTransfer)[..k]
  {
    hide PlanOf, Applied, Accepts, Mean;
    if k > 0 {
      WholePlanMoves(b, minTransfer, k - 1);
      PlanIsSafe(b, minTransfer, k - 1);
      assert PlanOf(b, minTransfer)[k - 1] in PlanOf(b, minTransfer);
    }
  }

  /** Where a venue ends: off the mean by what rounding and dropping lost. */
  lemma EndOffMean(b: Balances, minTransfer: real, v: Id)
    requires |b| >= 2 && Sum(b) > 0.0 && v in b
    ensures var plan, ms := PlanOf(b, minTransfer), MovesOf(b);
      Applied(b, plan, |plan|)[v] - Mean(b) == (Out(ms, v) - Out(plan, v)) - (In(ms, v) - In(plan, v))
  {
    hide *;
    var plan := PlanOf(b, minTransfer);
    PlanWithin(b, minTransfer);
    MeanShares(b);
    PrefixApplies(b, Mean(b), plan, |plan|);
    assert plan[..|plan|] == plan;
    MovesAreExact(b, v);
    SharesWithout(b, Mean(b), v);
  }

  /** Every venue ends within (n - 1) floors and cents of the mean. */
  lemma EndsNearMean(b: Balances, minTransfer: real, v: Id)
    requires |b| >= 2 && Sum(b) > 0.0 && minTransfer >= 0.0 && v in b
    ensures var plan, slack := PlanOf(b, minTransfer), Scaled(|b| - 1, minTransfer + 0.01);
      Mean(b) - slack <= Applied(b, plan, |plan|)[v] <= Mean(b) + slack
  {
    hide *;
    MovesAreExact(b, v);
    PlanIsPlanned(b, minTransfer);
    LossBounded(MovesOf(b), minTransfer, v);
    FewerMoves(|MovesOf(b)|, |b| - 1, minTransfer + 0.01);
    EndOffMean(b, minTransfer, v);
  }

  lemma FewerMoves(m: nat, n: nat, each: real)
    requires m <= n && each >= 0.0
    ensures Scaled(m, each) <= Scaled(n, each)
  {
  }

  // ---- planning again --------------------------------------------------------------------------------

  predicate DistinctTargets(ms: seq<Transfer>) { forall i, j :: 0 <= i < j < |ms| ==> ms[i].target != ms[j].target }

  predicate DistinctSources(ms: seq<Transfer>) { forall i, j :: 0 <= i < j < |ms| ==> ms[i].source != ms[j].source }

  lemma SameMean(b: Balances, c: Balances)
    requires |b| == |c| > 0 && Sum(b) == Sum(c)
    ensures Mean(b) == Mean(c)
  {
  }

  /** An amount a plan with this floor would leave out. */
  predicate Small(x: real, minTransfer: real) { FloorCent(x) < minTransfer }

  lemma SmallerStill(x: real, y: real, minTransfer: real)
    requires 0.0 <= x <= y && Small(y, minTransfer)
    ensures Small(x, minTransfer)
  {
    assert (x * 100.0).Floor <= (y * 100.0).Floor;
  }

  lemma CentsAreSmall(x: real, minTransfer: real)
    requires 0.0 <= x < 0.01 && minTransfer > 0.0
    ensures Small(x, minTransfer)
  {
  }

  lemma {:induction false} AllSmall(ms: seq<Transfer>, minTransfer: real)
    requires forall m :: m in ms ==> Small(m.amount, minTransfer)
    ensures Planned(ms, minTransfer) == []
  {
    hide FloorCent;
    if ms != [] {
      assert ms[|ms| - 1] in ms;
      AllSmall(ms[..|ms| - 1], minTransfer);
    }
  }

  lemma {:induction false} NoFlow(ms: seq<Transfer>, minTransfer: real, v: Id)
    requires forall m :: m in ms ==> m.amount > 0.0
    ensures (forall m :: m in ms ==> m.target != v) ==> In(ms, v) == 0.0 == In(Planned(ms, minTransfer), v)
    ensures (forall m :: m in ms ==> m.source != v) ==> Out(ms, v) == 0.0 == Out(Planned(ms, minTransfer), v)
  {
    hide FloorCent, Planned, Out, In;
    if ms == [] {
      PlannedNone(minTransfer);
      FlowNone(v);
    } else {
      NoFlow(ms[..|ms| - 1], minTransfer, v);
      PlannedLast(ms, minTransfer, v);
      assert forall m :: m in ms[..|ms| - 1] ==> m in ms;
      assert ms[|ms| - 1] in ms;
    }
  }

  /** What one move loses to rounding and dropping is too small to plan again. */
  lemma LossIsSmall(amount: real, minTransfer: real)
    requires amount > 0.0 && minTransfer > 0.0
    ensures var left := amount - (if FloorCent(amount) >= minTransfer then FloorCent(amount) else 0.0);
      0.0 <= left && Small(left, minTransfer)
  {
    FloorCentClose(amount);
    if FloorCent(amount) >= minTransfer { CentsAreSmall(amount - FloorCent(amount), minTransfer); }
  }

  /** A venue with one move lacks at most one move's loss. */
  lemma {:induction false} OneLoss(ms: seq<Transfer>, minTransfer: real, v: Id)
    requires minTransfer > 0.0 && forall m :: m in ms ==> m.amount > 0.0
    ensures DistinctTargets(ms) ==> var left := In(ms, v) - In(Planned(ms, minTransfer), v); 0.0 <= left && Small(left, minTransfer)
    ensures DistinctSources(ms) ==> var left := Out(ms, v) - Out(Planned(ms, minTransfer), v); 0.0 <= left && Small(left, minTransfer)
  {
    hide FloorCent, Planned, Out, In, Small;
    if ms == [] {
      PlannedNone(minTransfer);
      FlowNone(v);
      CentsAreSmall(0.0, minTransfer);
    } else {
      var n := |ms| - 1;
      assert ms[n] in ms && forall m :: m in ms[..n] ==> m in ms;
      PlannedLast(ms, minTransfer, v);
      LossIsSmall(ms[n].amount, minTransfer);
      OneLoss(ms[..n], minTransfer, v);
      NoFlow(ms[..n], minTransfer, v);
    }
  }

  lemma {:induction false} MoveWithinFlow(ms: seq<Transfer>, i: nat)
    requires i < |ms| && forall m :: m in ms ==> m.amount >= 0.0
    ensures ms[i].amount <= Out(ms, ms[i].source) && ms[i].amount <= In(ms, ms[i].target)
  {
    FlowNext(ms, i, ms[i].source);
    FlowNext(ms, i, ms[i].target);
    FlowPrefix(ms, i, ms[i].source);
    FlowPrefix(ms, i, ms[i].target);
    FlowPrefix(ms, i + 1, ms[i].source);
    FlowPrefix(ms, i + 1, ms[i].target);
  }

  /** Where a plan ends, what a venue still has to pay or receive is what rounding
      and dropping lost of its own moves. */
  lemma LeftToLevel(b: Balances, minTransfer: real, v: Id)
    requires |b| >= 2 && Sum(b) > 0.0
    ensures var plan, ms := PlanOf(b, minTransfer), MovesOf(b);
      var end := Applied(b, plan, |plan|);
      && |end| == |b| && Mean(end) == Mean(b) && Sum(end) == Sum(b)
      && At(Surplus(end, Mean(end)), v) == Out(ms, v) - Out(plan, v)
      && At(Deficit(end, Mean(end)), v) == In(ms, v) - In(plan, v)
  {
    hide PlanOf, MovesOf, Applied, Mean, Sum, Out, In;
    var plan := PlanOf(b, minTransfer);
    var end := Applied(b, plan, |plan|);
    assert |end| == |end.Keys| && |b| == |b.Keys|;
    TotalConserved(b, plan, |plan|);
    SameMean(b, end);
    MovesAreExact(b, v);
    PlanWithin(b, minTransfer);
    FlowPrefix(plan, |plan|, v);
    assert plan[..|plan|] == plan;
    if v in b {
      EndOffMean(b, minTransfer, v);
      PlanIsSafe(b, minTransfer, |plan|);
    }
  }

  /** The largest share comes first. */
  lemma RankedFirst(m: Balances, k: Id)
    requires k in m
    ensures Ranked(m) != [] && Ranked(m)[0].1 >= m[k]
  {
    hide Ranked;
    if m != map[] {
      var j := FindFirst(m);
      RankedNext(m, j);
    }
  }

  /** A plan whose first move is not small plans it. */
  lemma {:induction false} FirstPlanned(m: Transfer, rest: seq<Transfer>, minTransfer: real)
    requires !Small(m.amount, minTransfer)
    ensures Planned([m] + rest, minTransfer) != []
    decreases |rest|
  {
    hide FloorCent;
    if rest == [] {
      PlannedNext([], m, minTransfer);
      assert [] + [m] == [m] + rest;
    } else {
      var n := |rest| - 1;
      FirstPlanned(m, rest[..n], minTransfer);
      assert ([m] + rest)[..n + 1] == [m] + rest[..n];
    }
  }

  /** A plan is empty exactly when every surplus is too small to send or every
      deficit too small to fill: its first move is the smaller of the largest
      surplus and the largest deficit. */
  lemma EmptyPlanExactly(b: Balances, minTransfer: real)
    requires |b| >= 2 && Sum(b) > 0.0 && minTransfer > 0.0
    ensures PlanOf(b, minTransfer) == [] <==>
      || (forall v: Id :: Small(At(Surplus(b, Mean(b)), v), minTransfer))
      || (forall v: Id :: Small(At(Deficit(b, Mean(b)), v), minTransfer))
  {
    hide *;
    var s, d := Surplus(b, Mean(b)), Deficit(b, Mean(b));
    PlanIsPlanned(b, minTransfer);
    if (forall v: Id :: Small(At(s, v), minTransfer)) || (forall v: Id :: Small(At(d, v), minTransfer)) {
      forall m | m in MovesOf(b) ensures Small(m.amount, minTransfer) {
        MoveWithinShares(b, m);
        assert Small(At(s, m.source), minTransfer) || Small(At(d, m.target), minTransfer);
        SmallerStill(m.amount, if Small(At(s, m.source), minTransfer) then At(s, m.source) else At(d, m.target), minTransfer);
      }
      AllSmall(MovesOf(b), minTransfer);
    } else {
      var u: Id :| !Small(At(s, u), minTransfer);
      var w: Id :| !Small(At(d, w), minTransfer);
      CentsAreSmall(0.0, minTransfer);
      LargestMove(b, u, w, minTransfer);
    }
  }

  /** No exact move exceeds what its source has to spare or its target lacks. */
  lemma MoveWithinShares(b: Balances, m: Transfer)
    requires |b| > 0 && m in MovesOf(b)
    ensures 0.0 <= m.amount <= At(Surplus(b, Mean(b)), m.source) && m.amount <= At(Deficit(b, Mean(b)), m.target)
  {
    hide MovesOf, Out, In, Surplus, Deficit;
    MovesAreExact(b, m.source);
    MovesAreExact(b, m.target);
    var i :| 0 <= i < |MovesOf(b)| && MovesOf(b)[i] == m;
    MoveWithinFlow(MovesOf(b), i);
  }

  lemma LargestMove(b: Balances, u: Id, w: Id, minTransfer: real)
    requires |b| >= 2 && Sum(b) > 0.0 && minTransfer > 0.0
    requires Small(0.0, minTransfer) && !Small(At(Surplus(b, Mean(b)), u), minTransfer) && !Small(At(Deficit(b, Mean(b)), w), minTransfer)
    ensures PlanOf(b, minTransfer) != []
  {
    hide Ranked, Moves, Planned, FloorCent, Small, Mean, Sum, PlanOf, Reduced;
    var s, d := Surplus(b, Mean(b)), Deficit(b, Mean(b));
    RankedFirst(s, u);
    RankedFirst(d, w);
    var first, other := Ranked(s), Ranked(d);
    MovesStep(first, other);
    PlanIsPlanned(b, minTransfer);
    if Small(Min(other[0].1, first[0].1), minTransfer) {
      if other[0].1 < first[0].1 {
        SmallerStill(d[w], other[0].1, minTransfer);
      } else {
        SmallerStill(s[u], first[0].1, minTransfer);
      }
    }
    var move := Min(other[0].1, first[0].1);
    FirstPlanned(Transfer(first[0].0, other[0].0, move), Moves(Reduced(first, move), Reduced(other, move)), minTransfer);
  }

  /** What the first plan leaves a venue to pay or to receive: what rounding and
      dropping took off its exact moves. */
  ghost function LeftToPay(b: Balances, minTransfer: real, v: Id): real
    requires |b| > 0
  {
    Out(MovesOf(b), v) - Out(PlanOf(b, minTransfer), v)
  }

  ghost function LeftToReceive(b: Balances, minTransfer: real, v: Id): real
    requires |b| > 0
  {
    In(MovesOf(b), v) - In(PlanOf(b, minTransfer), v)
  }

  /** When one levelling is enough, decided by the first plan alone: with a positive
      floor, the plan made from where it ends is empty if and only if what it left
      every payer to pay is too small to send, or what it left every receiver to
      receive is. */
  lemma LevelsOnceExactly(b: Balances, minTransfer: real)
    requires |b| >= 2 && Sum(b) > 0.0 && minTransfer > 0.0
    ensures var plan := PlanOf(b, minTransfer);
      PlanOf(Applied(b, plan, |plan|), minTransfer) == [] <==>
        || (forall v: Id :: Small(LeftToPay(b, minTransfer, v), minTransfer))
        || (forall v: Id :: Small(LeftToReceive(b, minTransfer, v), minTransfer))
  {
    hide Sum, Mean, PlanOf, MovesOf, Applied, Surplus, Deficit, Small, Out, In;
    var plan := PlanOf(b, minTransfer);
    var end := Applied(b, plan, |plan|);
    LeftToLevel(b, minTransfer, 0);
    EmptyPlanExactly(end, minTransfer);
    forall v: Id
      ensures At(Surplus(end, Mean(end)), v) == LeftToPay(b, minTransfer, v)
      ensures At(Deficit(end, Mean(end)), v) == LeftToReceive(b, minTransfer, v)
    {
      LeftToLevel(b, minTransfer, v);
    }
  }

  /** So one levelling is enough whenever, before rounding, no venue receives from
      two others or none pays two others. */
  lemma LevelsOnce(b: Balances, minTransfer: real)
    requires |b| >= 2 && Sum(b) > 0.0 && minTransfer > 0.0
    requires DistinctTargets(MovesOf(b)) || DistinctSources(MovesOf(b))
    ensures var plan := PlanOf(b, minTransfer); PlanOf(Applied(b, plan, |plan|), minTransfer) == []
  {
    hide Sum, PlanOf, MovesOf, Applied, Small, Out, In, Planned, DistinctTargets, DistinctSources;
    LevelsOnceExactly(b, minTransfer);
    MovesAreExact(b, 0);
    PlanIsPlanned(b, minTransfer);
    if DistinctTargets(MovesOf(b)) {
      forall v: Id ensures Small(LeftToReceive(b, minTransfer, v), minTransfer) { OneLoss(MovesOf(b), minTransfer, v); }
    } else {
      forall v: Id ensures Small(LeftToPay(b, minTransfer, v), minTransfer) { OneLoss(MovesOf(b), minTransfer, v); }
    }
  }

  predicate DistinctIds(s: seq<Share>) { forall i, j :: 0 <= i < j < |s| ==> s[i].0 != s[j].0 }

  lemma RankedDistinct(m: Balances)
    ensures DistinctIds(Ranked(m))
  {
    hide Ranked, Precedes;
    forall i, j | 0 <= i < j < |Ranked(m)| ensures Ranked(m)[i].0 != Ranked(m)[j].0 { RankedOrder(m, i, j); }
  }

  /** A single payer pays each receiver once, in order. */
  lemma {:induction false} OnePayer(s: seq<Share>, d: seq<Share>)
    requires |s| == 1 && Positive(s) && Positive(d) && Total(s) == Total(d)
    ensures var ms := Moves(s, d); |ms| == |d| && forall i :: 0 <= i < |d| ==> ms[i].target == d[i].0
    decreases |d|
  {
    assert s[1..] == [] && s[0] in s;
    NothingLeft(d);
    if d != [] {
      assert d[0] in d;
      NothingLeft(d[1..]);
      var move := Min(d[0].1, s[0].1);
      MovesStep(s, d);
      if d[1..] != [] {
        ReducedReads(s, move, 0);
        OnePayer(Reduced(s, move), d[1..]);
      }
    }
  }

  lemma {:induction false} OneReceiver(s: seq<Share>, d: seq<Share>)
    requires |d| == 1 && Positive(s) && Positive(d) && Total(s) == Total(d)
    ensures var ms := Moves(s, d); |ms| == |s| && forall i :: 0 <= i < |s| ==> ms[i].source == s[i].0
    decreases |s|
  {
    assert d[1..] == [] && d[0] in d;
    NothingLeft(s);
    if s != [] {
      assert s[0] in s;
      NothingLeft(s[1..]);
      var move := Min(d[0].1, s[0].1);
      MovesStep(s, d);
      if s[1..] != [] {
        ReducedReads(d, move, 0);
        OneReceiver(s[1..], Reduced(d, move));
      }
    }
  }

  /** So with a single payer or a single receiver, and with at most three venues,
      one levelling is enough. */
  lemma SinglePayerLevelsOnce(b: Balances, minTransfer: real)
    requires |b| >= 2 && Sum(b) > 0.0 && minTransfer > 0.0
    requires |b| <= 3 || |Surplus(b, Mean(b))| <= 1 || |Deficit(b, Mean(b))| <= 1
    ensures var plan := PlanOf(b, minTransfer); PlanOf(Applied(b, plan, |plan|), minTransfer) == []
  {
    hide Moves, Ranked, Surplus, Deficit, Mean, Sum, Scaled, PlanOf, Applied, Total, AmountOf;
    var s, d := Surplus(b, Mean(b)), Deficit(b, Mean(b));
    PayersAndReceivers(b, Mean(b));
    MeanShares(b);
    SurplusMeetsDeficit(b, Mean(b));
    SharesPositive(b, Mean(b));
    RankedReads(s, 0);
    RankedReads(d, 0);
    RankedDistinct(s);
    RankedDistinct(d);
    if |s| == 1 { OnePayer(Ranked(s), Ranked(d)); } else if |d| == 1 { OneReceiver(Ranked(s), Ranked(d)); }
    LevelsOnce(b, minTransfer);
  }

  lemma SharesPositive(b: Balances, mean: real)
    ensures forall v :: v in Surplus(b, mean) ==> Surplus(b, mean)[v] > 0.0
    ensures forall v :: v in Deficit(b, mean) ==> Deficit(b, mean)[v] > 0.0
  {
  }

  // ---- how much a second plan can move ----------------------------------------------------------------

  function Volume(ms: seq<Transfer>): real { if ms == [] then 0.0 else Volume(ms[..|ms| - 1]) + ms[|ms| - 1].amount }

  lemma {:induction false} VolumePrepend(m: Transfer, ms: seq<Transfer>)
    ensures Volume([m] + ms) == m.amount + Volume(ms)
    decreases |ms|
  {
    if ms == [] {
      assert [m] + ms == [m] && [m][..0] == [];
    } else {
      var n := |ms| - 1;
      assert ([m] + ms)[..n + 1] == [m] + ms[..n];
      VolumePrepend(m, ms[..n]);
    }
  }

  lemma {:induction false} MovesVolume(s: seq<Share>, d: seq<Share>)
    requires Positive(s) && Positive(d) && Total(s) == Total(d)
    ensures Volume(Moves(s, d)) == Total(s)
    decreases |s| + |d|
  {
    hide Reduced, Volume;
    NothingLeft(s);
    NothingLeft(d);
    if s != [] && d != [] {
      var move := Min(d[0].1, s[0].1);
      assert s[0] in s && d[0] in d;
      ReducedReads(s, move, 0);
      ReducedReads(d, move, 0);
      MovesVolume(Reduced(s, move), Reduced(d, move));
      VolumePrepend(Transfer(s[0].0, d[0].0, move), Moves(Reduced(s, move), Reduced(d, move)));
    } else {
      NoVolume();
    }
  }

  lemma NoVolume()
    ensures Volume([]) == 0.0
  {
  }

  /** The exact moves carry the whole surplus. */
  lemma MovesCarryAll(b: Balances)
    requires |b| > 0
    ensures Volume(MovesOf(b)) == Sum(Surplus(b, Mean(b)))
  {
    hide Ranked, Moves, Surplus, Deficit, Mean, Sum, Scaled, Total, Volume;
    var s, d := Surplus(b, Mean(b)), Deficit(b, Mean(b));
    MeanShares(b);
    SurplusMeetsDeficit(b, Mean(b));
    SharesPositive(b, Mean(b));
    RankedReads(s, 0);
    RankedReads(d, 0);
    MovesVolume(Ranked(s), Ranked(d));
  }

  /** Each transfer carried out takes its amount off the total surplus. */
  lemma {:induction false} SurplusFalls(b: Balances, minTransfer: real, k: nat)
    requires |b| >= 2 && Sum(b) > 0.0 && k <= |PlanOf(b, minTransfer)|
    ensures var plan := PlanOf(b, minTransfer);
      Sum(Surplus(Applied(b, plan, k), Mean(b))) == Sum(Surplus(b, Mean(b))) - Volume(plan[..k])
  {
    hide PlanOf, Sum, Mean, Surplus, Accepts;
    var plan := PlanOf(b, minTransfer);
    if k == 0 {
      assert plan[..0] == [];
    } else {
      SurplusFalls(b, minTransfer, k - 1);
      assert plan[..k][..k - 1] == plan[..k - 1];
      var d, t := Applied(b, plan, k - 1), plan[k - 1];
      PlanWithin(b, minTransfer);
      assert t in plan;
      PlanIsSafe(b, minTransfer, k - 1);
      if t.amount > 0.0 {
        PlanIsSafe(b, minTransfer, k);
        PayerAndReceiver(b, Mean(b), plan, k - 1);
        PaidLevels(d, t, Mean(b));
      } else {
        NotAccepted(d, t);
      }
    }
  }

  lemma NotAccepted(c: Balances, t: Transfer)
    requires t.amount <= 0.0
    ensures !Accepts(c, t)
  {
  }

  /** A planned transfer takes from above the mean and gives below it. */
  lemma PayerAndReceiver(b: Balances, mean: real, plan: seq<Transfer>, k: nat)
    requires k < |plan| && plan[k].amount > 0.0 && Within(b, mean, plan)
    ensures plan[k].source in b && b[plan[k].source] > mean && plan[k].target in b && b[plan[k].target] < mean
  {
    hide Out, In;
    MoveWithinFlow(plan, k);
    assert At(Surplus(b, mean), plan[k].source) > 0.0 && At(Deficit(b, mean), plan[k].target) > 0.0;
  }

  lemma PaidLevels(c: Balances, t: Transfer, mean: real)
    requires Accepts(c, t) && t.source != t.target && t.amount > 0.0
    requires mean <= c[t.source] - t.amount && c[t.target] + t.amount <= mean
    ensures Sum(Surplus(Paid(c, t), mean)) == Sum(Surplus(c, mean)) - t.amount
  {
    hide Sum;
    var m, n := Surplus(c, mean), Surplus(Paid(c, t), mean);
    var less := m[t.source := m[t.source] - t.amount];
    SumUpdate(m, t.source, m[t.source] - t.amount);
    forall v: Id ensures At(less, v) == At(n, v) {
    }
    SumSame(less, n);
  }

  lemma {:induction false} PlannedVolume(ms: seq<Transfer>, minTransfer: real)
    requires forall m :: m in ms ==> m.amount > 0.0
    ensures 0.0 <= Volume(Planned(ms, minTransfer)) <= Volume(ms)
    ensures minTransfer >= 0.0 ==> Volume(ms) - Volume(Planned(ms, minTransfer)) <= Scaled(|ms|, minTransfer + 0.01)
    ensures Planned(ms, minTransfer) != [] ==> Volume(Planned(ms, minTransfer)) >= minTransfer
  {
    hide FloorCent, Planned, Volume, Scaled;
    if ms == [] {
      PlannedNone(minTransfer);
      NoVolume();
      ScaledNone(minTransfer + 0.01);
    } else {
      var n := |ms| - 1;
      var amount := FloorCent(ms[n].amount);
      assert ms[n] in ms && ms == ms[..n] + [ms[n]];
      PlannedVolume(ms[..n], minTransfer);
      FloorCentClose(ms[n].amount);
      PlannedNext(ms[..n], ms[n], minTransfer);
      VolumeNext(ms[..n], ms[n]);
      VolumeNext(Planned(ms[..n], minTransfer), ms[n].(amount := amount));
      assert Planned(ms[..n], minTransfer) + [] == Planned(ms[..n], minTransfer);
      ScaledNext(n, minTransfer + 0.01);
    }
  }

  lemma VolumeNext(ms: seq<Transfer>, m: Transfer)
    ensures Volume(ms + [m]) == Volume(ms) + m.amount
  {
  }

  /** For any balances, the exact moves of a second levelling carry precisely what
      rounding and dropping left of the first: at most a floor and a cent for each
      of n - 1 moves, and nothing is planned when that is less than the floor. */
  lemma SecondPlanMovesLeftover(b: Balances, minTransfer: real)
    requires |b| >= 2 && Sum(b) > 0.0
    ensures var plan := PlanOf(b, minTransfer);
      var end := Applied(b, plan, |plan|);
      var left := Volume(MovesOf(b)) - Volume(plan);
      && |end| == |b| && Volume(MovesOf(end)) == left
      && 0.0 <= Volume(PlanOf(end, minTransfer)) <= left
      && (minTransfer >= 0.0 ==> left <= Scaled(|b| - 1, minTransfer + 0.01))
      && (left < minTransfer ==> PlanOf(end, minTransfer) == [])
  {
    hide *;
    var plan := PlanOf(b, minTransfer);
    var end := Applied(b, plan, |plan|);
    LeftToLevel(b, minTransfer, 0);
    MovesCarryAll(b);
    MovesCarryAll(end);
    SurplusFalls(b, minTransfer, |plan|);
    assert plan[..|plan|] == plan;
    PlanIsPlanned(b, minTransfer);
    PlanIsPlanned(end, minTransfer);
    MovesAreExact(b, 0);
    MovesAreExact(end, 0);
    PlannedVolume(MovesOf(b), minTransfer);
    PlannedVolume(MovesOf(end), minTransfer);
    if minTransfer >= 0.0 { FewerMoves(|MovesOf(b)|, |b| - 1, minTransfer + 0.01); }
  }

  lemma RankedNext(m: Balances, j: Id)
    requires j in m && forall k :: k in m ==> Precedes(m, j, k)
    ensures Ranked(m) == [(j, m[j])] + Ranked(m - {j})
  {
    var i := Ranked(m)[0].0;
    assert i == j by {
      RankedNames(m, 0);
      assert Precedes(m, j, i) && Precedes(m, i, j);
    }
  }

  const FIVE: Balances := map[0 := 114.0, 1 := 108.0, 2 := 90.0, 3 := 92.0, 4 := 96.0]
  const FIVE_LATER: Balances := map[0 := 104.0, 1 := 108.0, 2 := 100.0, 3 := 92.0, 4 := 96.0]

  lemma SumOfFive(b: Balances)
    requires b.Keys == {0, 1, 2, 3, 4}
    ensures Sum(b) == b[0] + b[1] + b[2] + b[3] + b[4] && |b| == 5
  {
    SumPick(b, 0);
    SumPick(b - {0}, 1);
    SumPick(b - {0} - {1}, 2);
    SumPick(b - {0} - {1} - {2}, 3);
    SumPick(b - {0} - {1} - {2} - {3}, 4);
    assert b - {0} - {1} - {2} - {3} - {4} == map[];
    assert |b| == |b.Keys|;
  }

  lemma RankedTwo(m: Balances, i: Id, j: Id)
    requires m.Keys == {i, j} && i != j && Precedes(m, i, j)
    ensures Ranked(m) == [(i, m[i]), (j, m[j])]
  {
    hide Ranked;
    var rest := m - {i};
    assert rest.Keys == {j} && rest[j] == m[j];
    RankedNext(m, i);
    RankedNext(rest, j);
    assert rest - {j} == map[];
    RankedNone();
  }

  lemma RankedNone()
    ensures Ranked(map[]) == []
  {
  }

  lemma RankedThree(m: Balances, i: Id, j: Id, k: Id)
    requires m.Keys == {i, j, k} && i != j && j != k && i != k && Precedes(m, i, j) && Precedes(m, i, k) && Precedes(m, j, k)
    ensures Ranked(m) == [(i, m[i]), (j, m[j]), (k, m[k])]
  {
    hide Ranked;
    var rest := m - {i};
    assert rest.Keys == {j, k} && rest[j] == m[j] && rest[k] == m[k];
    RankedNext(m, i);
    RankedTwo(rest, j, k);
  }

  lemma FiveShares()
    ensures Sum(FIVE) == 500.0 && |FIVE| == 5 && Mean(FIVE) == 100.0
    ensures Surplus(FIVE, 100.0) == map[0 := 14.0, 1 := 8.0]
    ensures Deficit(FIVE, 100.0) == map[2 := 10.0, 3 := 8.0, 4 := 4.0]
  {
    hide Sum;
    SumOfFive(FIVE);
  }

  lemma FivePlan()
    ensures Sum(FIVE) > 0.0 && PlanOf(FIVE, 5.0) == [Transfer(0, 2, 10.0)]
  {
    hide Ranked, Planned, Moves, Sum, Mean, Surplus, Deficit, PlanOf, MovesOf;
    FiveShares();
    PlanIsPlanned(FIVE, 5.0);
    MovesOfShares(FIVE, 100.0);
    RankedTwo(map[0 := 14.0, 1 := 8.0], 0, 1);
    RankedThree(map[2 := 10.0, 3 := 8.0, 4 := 4.0], 2, 3, 4);
    FiveMoves();
    PlannedFour(Transfer(0, 2, 10.0), Transfer(0, 3, 4.0), Transfer(1, 3, 4.0), Transfer(1, 4, 4.0));
  }

  lemma MovesOfShares(b: Balances, mean: real)
    requires |b| > 0 && Mean(b) == mean
    ensures MovesOf(b) == Moves(Ranked(Surplus(b, mean)), Ranked(Deficit(b, mean)))
  {
  }

  lemma FiveMoves()
    ensures Moves([(0, 14.0), (1, 8.0)], [(2, 10.0), (3, 8.0), (4, 4.0)])
         == [Transfer(0, 2, 10.0), Transfer(0, 3, 4.0), Transfer(1, 3, 4.0), Transfer(1, 4, 4.0)]
  {
    MovesStep([(0, 14.0), (1, 8.0)], [(2, 10.0), (3, 8.0), (4, 4.0)]);
    MovesStep([(0, 4.0), (1, 8.0)], [(3, 8.0), (4, 4.0)]);
    MovesStep([(1, 8.0)], [(3, 4.0), (4, 4.0)]);
    MovesStep([(1, 4.0)], [(4, 4.0)]);
  }

  lemma PlannedFour(a: Transfer, b: Transfer, c: Transfer, d: Transfer)
    requires a.amount == 10.0 && b.amount == c.amount == d.amount == 4.0
    ensures Planned([a, b, c, d], 5.0) == [a]
  {
    hide Planned, FloorCent;
    WholeDollars();
    PlannedNone(5.0);
    PlannedNext([], a, 5.0);
    PlannedNext([a], b, 5.0);
    PlannedNext([a, b], c, 5.0);
    PlannedNext([a, b, c], d, 5.0);
    assert [] + [a] == [a] && [a] + [b] == [a, b] && [a, b] + [c] == [a, b, c] && [a, b, c] + [d] == [a, b, c, d];
  }

  lemma WholeDollars()
    ensures FloorCent(10.0) == 10.0 && FloorCent(8.0) == 8.0 && FloorCent(4.0) == 4.0
  {
  }

  lemma EightIsNotSmall()
    ensures !Small(8.0, 5.0)
  {
    WholeDollars();
  }

  lemma FiveLaterShares()
    ensures Sum(FIVE_LATER) == 500.0 && |FIVE_LATER| == 5 && Mean(FIVE_LATER) == 100.0
    ensures Surplus(FIVE_LATER, 100.0) == map[0 := 4.0, 1 := 8.0]
    ensures Deficit(FIVE_LATER, 100.0) == map[3 := 8.0, 4 := 4.0]
  {
    hide Sum;
    SumOfFive(FIVE_LATER);
  }

  lemma FiveLaterPlan()
    ensures PlanOf(FIVE_LATER, 5.0) != []
  {
    hide Ranked, Planned, Moves, Sum, Mean, Surplus, Deficit, PlanOf, MovesOf, Reduced;
    FiveLaterShares();
    PlanIsPlanned(FIVE_LATER, 5.0);
    MovesOfShares(FIVE_LATER, 100.0);
    RankedTwo(map[0 := 4.0, 1 := 8.0], 1, 0);
    RankedTwo(map[3 := 8.0, 4 := 4.0], 3, 4);
    var s, d := [(1, 8.0), (0, 4.0)], [(3, 8.0), (4, 4.0)];
    MovesStep(s, d);
    EightIsNotSmall();
    FirstPlanned(Transfer(1, 3, 8.0), Moves(Reduced(s, 8.0), Reduced(d, 8.0)), 5.0);
  }

  /** With five it need not be: dropped moves can combine into one above the
      floor, and a second plan moves money again. */
  lemma FiveVenuesLevelTwice()
    ensures var plan := PlanOf(FIVE, 5.0);
      && Sum(FIVE) > 0.0
      && Applied(FIVE, plan, |plan|) == FIVE_LATER
      && PlanOf(FIVE_LATER, 5.0) != []
  {
    hide PlanOf, Sum;
    FivePlan();
    FiveLaterPlan();
    var plan := [Transfer(0, 2, 10.0)];
    assert Applied(FIVE, plan, 0) == FIVE;
    assert Applied(FIVE, plan, 1) == Paid(FIVE, plan[0]);
  }
}
