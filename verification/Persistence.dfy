/** Mirroring one account into the database, and reading it back at start-up:
    when a restart changes nothing. */
module Persistence {
  import opened Common
  import opened Types
  import opened Fees
  import opened Ledger
  import opened PaperBroker
  import ExecutionRouter
  import Tickets

  const DEFAULT_STARTING_BALANCE := 4000.0

  /** One stored position. */
  datatype Row = Row(qty: real, avg: real, realized: real, openFees: real)

  const NO_ROW := Row(0.0, 0.0, 0.0, 0.0)

  /** What is stored for one account on one venue. */
  datatype Rows = Rows(balance: Option<real>, positions: map<Id, Row>)
  {
    function At(o: Id): Row { if o in positions then positions[o] else NO_ROW }
  }

  /** One transaction, with the values captured for it: each lands whole. */
  datatype Write =
    | OnBalance(amount: real)
    | OnPosition(outcome: Id, row: Row)
    | OnSettled(outcome: Id, amount: real, row: Row)

  /** A write a finished fill or transfer still has to capture. */
  datatype Owed = Balance | Position(outcome: Id)

  /** Memory, the stored rows, every transaction captured so far with those still
      pending and those that landed, in landing order, and the writes not captured
      yet. */
  datatype System = System(
    account: Account,
    db: Rows,
    log: seq<Write>,
    pending: set<nat>,
    arrived: seq<nat>,
    owed: seq<Owed>)

  datatype Event =
    | Trade(outcome: Id, isBuy: bool, qty: real, price: real, fee: real)
    | MoveCash(amount: real)
    | Settle(outcome: Id, value: real)
    | Close(outcome: Id)
    | Capture(i: nat)
    | Land(i: nat)
    | Drop(i: nat)

  function RowOf(st: Account, o: Id): Row { Row(st.Qty(o), st.Avg(o), Common.At(st.realizedBy, o), st.Fees(o)) }

  function Landed(db: Rows, w: Write): Rows {
    match w
    case OnBalance(x) => db.(balance := Some(x))
    case OnPosition(o, row) => db.(positions := db.positions[o := row])
    case OnSettled(o, x, row) => Rows(Some(x), db.positions[o := row])
  }

  function CaptureOf(st: Account, w: Owed): Write {
    match w
    case Balance => OnBalance(st.cash)
    case Position(o) => OnPosition(o, RowOf(st, o))
  }

  function Captured(s: System, w: Write): System {
    s.(log := s.log + [w], pending := s.pending + {|s.log|})
  }

  /** A fill owes its balance and its position; a settlement captures both at
      once, with the position closed; closing a ghost captures the position. Any
      pending write may land next, or be given up on. */
  function Step(s: System, e: Event): System {
    match e
    case Trade(o, isBuy, qty, px, fee) =>
      s.(account := Filled(s.account, o, isBuy, qty, px, fee), owed := s.owed + [Balance, Position(o)])
    case MoveCash(x) => s.(account := s.account.(cash := s.account.cash + x), owed := s.owed + [Balance])
    case Settle(o, v) =>
      if s.account.Qty(o) == 0.0 then s
      else
        var st := Settled(s.account, o, v);
        Captured(s.(account := st), OnSettled(o, st.cash, Row(0.0, 0.0, Common.At(st.realizedBy, o), st.Fees(o))))
    case Close(o) =>
      if s.account.Qty(o) == 0.0 then s
      else
        var st := ClosedUnpaid(s.account, o);
        Captured(s.(account := st), OnPosition(o, Row(0.0, 0.0, Common.At(st.realizedBy, o), 0.0)))
    case Capture(i) =>
      if i < |s.owed| then Captured(s.(owed := s.owed[..i] + s.owed[i + 1..]), CaptureOf(s.account, s.owed[i]))
      else s
    case Land(i) =>
      if i in s.pending && i < |s.log| then s.(db := Landed(s.db, s.log[i]), pending := s.pending - {i}, arrived := s.arrived + [i])
      else s
    case Drop(i) => s.(pending := s.pending - {i})
  }

  function Run(s: System, es: seq<Event>): System
    decreases |es|
  {
    if es == [] then s else Run(Step(s, es[0]), es[1..])
  }

  lemma {:induction false} RunSnoc(s: System, es: seq<Event>, e: Event)
    ensures Run(s, es + [e]) == Step(Run(s, es), e)
    decreases |es|
  {
    hide Step;
    if es == [] {
      assert es + [e] == [e];
    } else {
      assert (es + [e])[1..] == es[1..] + [e];
      RunSnoc(Step(s, es[0]), es[1..], e);
    }
  }

  /** Memory moves as the broker's does whatever becomes of the writes, every
      position settled or closed captures one write at once, and a capture, a
      landing or a loss moves one write on. */
  lemma MemoryMoves(s: System, e: Event)
    ensures var t := Step(s, e);
      t.account == match e
                   case Trade(o, isBuy, qty, px, fee) => Filled(s.account, o, isBuy, qty, px, fee)
                   case MoveCash(x) => s.account.(cash := s.account.cash + x)
                   case Settle(o, v) => Settled(s.account, o, v)
                   case Close(o) => ClosedUnpaid(s.account, o)
                   case _ => s.account
    ensures |Step(s, e).log| == |s.log| + (if ((e.Settle? || e.Close?) && s.account.Qty(e.outcome) != 0.0) || (e.Capture? && e.i < |s.owed|) then 1 else 0)
    ensures e.Land? && e.i in s.pending && e.i < |s.log| ==> Step(s, e).arrived == s.arrived + [e.i] && e.i !in Step(s, e).pending
    ensures e.Drop? ==> Step(s, e).arrived == s.arrived && e.i !in Step(s, e).pending
  {
  }

  // ---- start-up -----------------------------------------------------------------------

  function Qtys(m: map<Id, Row>): map<Id, real> { map o | o in m :: m[o].qty }
  function Avgs(m: map<Id, Row>): map<Id, real> { map o | o in m :: m[o].avg }
  function Realized(m: map<Id, Row>): map<Id, real> { map o | o in m :: m[o].realized }
  function OpenFees(m: map<Id, Row>): map<Id, real> { map o | o in m :: m[o].openFees }

  /** The account start-up rebuilds from the stored rows. */
  ghost function HydratedFrom(db: Rows): Account {
    Account(if db.balance.Some? then db.balance.value else DEFAULT_STARTING_BALANCE,
            Qtys(db.positions), Avgs(db.positions),
            Sum(Realized(db.positions)), Realized(db.positions), OpenFees(db.positions))
  }

  /** Start-up: the balance, or the seed where there is none, and then every
      stored position. */
  method Hydrate(broker: Broker, a: Id, db: Rows)
    requires broker.Acct(a) == EMPTY
    modifies broker`accounts
    ensures broker.Acct(a) == HydratedFrom(db)
    ensures forall b :: b != a ==> broker.Acct(b) == old(broker.Acct(b))
  {
    hide HydratedFrom;
    if db.balance.Some? {
      broker.HydrateBalance(a, db.balance.value);
    } else {
      broker.HydrateBalance(a, DEFAULT_STARTING_BALANCE);
    }
    HydratedNone(db.balance);
    var rest := db.positions.Keys;
    ghost var done := Rows(db.balance, map[]);
    assert db.positions - rest == map[];
    while rest != {}
      invariant rest <= db.positions.Keys && done == Rows(db.balance, db.positions - rest)
      invariant broker.Acct(a) == HydratedFrom(done)
      invariant forall b :: b != a ==> broker.Acct(b) == old(broker.Acct(b))
    {
      var o :| o in rest;
      var row := db.positions[o];
      broker.HydratePosition(a, o, row.qty, row.avg, row.realized, row.openFees);
      HydratedOne(done, o, row);
      done := Rows(db.balance, done.positions[o := row]);
      rest := rest - {o};
      assert db.positions - rest == done.positions;
    }
    assert db.positions - {} == db.positions;
  }

  lemma HydratedNone(balance: Option<real>)
    ensures HydratedFrom(Rows(balance, map[]))
         == EMPTY.(cash := if balance.Some? then balance.value else DEFAULT_STARTING_BALANCE)
  {
  }

  lemma Columns(m: map<Id, Row>, o: Id, row: Row)
    ensures Qtys(m[o := row]) == Qtys(m)[o := row.qty]
    ensures Avgs(m[o := row]) == Avgs(m)[o := row.avg]
    ensures Realized(m[o := row]) == Realized(m)[o := row.realized]
    ensures OpenFees(m[o := row]) == OpenFees(m)[o := row.openFees]
  {
  }

  lemma HydratedOne(db: Rows, o: Id, row: Row)
    requires o !in db.positions
    ensures HydratedFrom(Rows(db.balance, db.positions[o := row]))
         == Hydrated(HydratedFrom(db), o, row.qty, row.avg, row.realized, row.openFees)
  {
    hide Qtys, Avgs, Carried, Sum;
    Columns(db.positions, o, row);
    SumUpdate(Realized(db.positions), o, row.realized);
    assert Common.At(Realized(db.positions), o) == 0.0;
  }

  // ---- every run ------------------------------------------------------------------------

  function Replay(db: Rows, queue: seq<Write>): Rows
    decreases |queue|
  {
    if queue == [] then db else Landed(Replay(db, queue[..|queue| - 1]), queue[|queue| - 1])
  }

  lemma ReplayLast(db: Rows, queue: seq<Write>, w: Write)
    ensures Replay(db, queue + [w]) == Landed(Replay(db, queue), w)
  {
  }

  predicate OwedAt(s: System, w: Owed) { exists i :: 0 <= i < |s.owed| && s.owed[i] == w }

  /** The writes that landed, in landing order. */
  function Arrivals(s: System): (ws: seq<Write>)
    requires Indexed(s)
    ensures |ws| == |s.arrived|
  {
    seq(|s.arrived|, j requires 0 <= j < |s.arrived| && Indexed(s) => s.log[s.arrived[j]])
  }

  predicate Indexed(s: System) { forall j :: 0 <= j < |s.arrived| ==> s.arrived[j] < |s.log| }

  /** Had every captured write landed in capture order, the rows would show
      memory, but for what is still to be captured; and the rows are what did land,
      replayed. */
  ghost predicate Mirrors(start: Rows, s: System) {
    Indexed(s) && s.db == Replay(start, Arrivals(s)) && Tells(start, s)
  }

  ghost predicate Tells(start: Rows, s: System) {
    var end := Replay(start, s.log);
    && (OwedAt(s, Balance) || end.balance == Some(s.account.cash))
    && (forall o: Id :: OwedAt(s, Position(o)) || end.At(o) == RowOf(s.account, o))
    && s.account.realized == Sum(s.account.realizedBy)
  }

  /** What one event may change in memory: the cash and one outcome's row. */
  ghost predicate Touches(st: Account, st': Account, o: Id) {
    forall p: Id :: p != o ==> RowOf(st', p) == RowOf(st, p)
  }

  lemma FilledTouches(st: Account, o: Id, isBuy: bool, qty: real, px: real, fee: real)
    ensures Touches(st, Filled(st, o, isBuy, qty, px, fee), o)
    ensures st.realized == Sum(st.realizedBy) ==>
      var st' := Filled(st, o, isBuy, qty, px, fee); st'.realized == Sum(st'.realizedBy)
  {
    hide Sum;
    var st' := Filled(st, o, isBuy, qty, px, fee);
    if !isBuy { SumUpdate(st.realizedBy, o, Common.At(st'.realizedBy, o)); }
  }

  lemma SettledTouches(st: Account, o: Id, v: real)
    requires st.Qty(o) != 0.0
    ensures var st' := Settled(st, o, v);
      && Touches(st, st', o)
      && RowOf(st', o) == Row(0.0, 0.0, Common.At(st'.realizedBy, o), st'.Fees(o))
      && (st.realized == Sum(st.realizedBy) ==> st'.realized == Sum(st'.realizedBy))
  {
    hide Sum;
    var st' := Settled(st, o, v);
    SumUpdate(st.realizedBy, o, Common.At(st'.realizedBy, o));
  }

  lemma ClosedTouches(st: Account, o: Id)
    requires st.Qty(o) != 0.0
    ensures var st' := ClosedUnpaid(st, o);
      && Touches(st, st', o)
      && RowOf(st', o) == Row(0.0, 0.0, Common.At(st'.realizedBy, o), 0.0)
      && st'.cash == st.cash && st'.realized == st.realized && st'.realizedBy == st.realizedBy
  {
  }

  lemma OwedMore(s: System, s': System, more: seq<Owed>)
    requires s'.owed == s.owed + more
    ensures forall w :: OwedAt(s, w) || w in more ==> OwedAt(s', w)
  {
    forall w | OwedAt(s, w) || w in more ensures OwedAt(s', w) {
      if OwedAt(s, w) {
        var i :| 0 <= i < |s.owed| && s.owed[i] == w;
        assert s'.owed[i] == w;
      } else {
        var i :| 0 <= i < |more| && more[i] == w;
        assert s'.owed[|s.owed| + i] == w;
      }
    }
  }

  lemma OwedLess(s: System, s': System, i: nat)
    requires i < |s.owed| && s'.owed == s.owed[..i] + s.owed[i + 1..]
    ensures forall w :: OwedAt(s, w) && w != s.owed[i] ==> OwedAt(s', w)
  {
    forall w | OwedAt(s, w) && w != s.owed[i] ensures OwedAt(s', w) {
      var j :| 0 <= j < |s.owed| && s.owed[j] == w;
      assert s'.owed[if j < i then j else j - 1] == w;
    }
  }

  lemma StepMirrors(start: Rows, s: System, e: Event)
    requires Mirrors(start, s)
    ensures Mirrors(start, Step(s, e))
  {
    hide Tells, Replay, Landed;
    StepTells(start, s, e);
    var s' := Step(s, e);
    if e.Land? && e.i in s.pending && e.i < |s.log| {
      assert Arrivals(s') == Arrivals(s) + [s.log[e.i]];
      ReplayLast(start, Arrivals(s), s.log[e.i]);
    } else {
      assert Arrivals(s') == Arrivals(s);
    }
  }

  lemma StepTells(start: Rows, s: System, e: Event)
    requires Tells(start, s)
    ensures Tells(start, Step(s, e))
  {
    hide Filled, Settled, ClosedUnpaid, Sum, Replay, OwedAt, RowOf, Rows.At;
    var s' := Step(s, e);
    match e
    case Trade(o, isBuy, qty, px, fee) =>
      FilledTouches(s.account, o, isBuy, qty, px, fee);
      OwedMore(s, s', [Balance, Position(o)]);
    case MoveCash(x) =>
      OwedMore(s, s', [Balance]);
      SameRows(s.account, x);
    case Settle(o, v) => if s.account.Qty(o) != 0.0 { SettleTells(start, s, o, v); }
    case Close(o) => if s.account.Qty(o) != 0.0 { CloseTells(start, s, o); }
    case Capture(i) => if i < |s.owed| { CaptureTells(start, s, i); }
    case Land(i) => OwedSame(s, s');
    case Drop(i) => OwedSame(s, s');
  }

  lemma SameRows(st: Account, x: real)
    ensures forall o: Id :: RowOf(st.(cash := st.cash + x), o) == RowOf(st, o)
  {
  }

  lemma OwedSame(s: System, s': System)
    requires s'.owed == s.owed
    ensures forall w :: OwedAt(s, w) ==> OwedAt(s', w)
  {
  }

  lemma LandedReads(db: Rows, w: Write, o: Id)
    ensures Landed(db, w).At(o) == (if !w.OnBalance? && w.outcome == o then w.row else db.At(o))
  {
  }

  lemma SettleTells(start: Rows, s: System, o: Id, v: real)
    requires Tells(start, s) && s.account.Qty(o) != 0.0
    ensures Tells(start, Step(s, Settle(o, v)))
  {
    hide Settled, Sum, Replay, OwedAt, RowOf, Rows.At;
    var s' := Step(s, Settle(o, v));
    var w := OnSettled(o, s'.account.cash, Row(0.0, 0.0, Common.At(s'.account.realizedBy, o), s'.account.Fees(o)));
    SettledTouches(s.account, o, v);
    ReplayLast(start, s.log, w);
    OwedSame(s, s');
    forall p: Id ensures OwedAt(s', Position(p)) || Replay(start, s'.log).At(p) == RowOf(s'.account, p) {
      LandedReads(Replay(start, s.log), w, p);
    }
  }

  lemma CloseTells(start: Rows, s: System, o: Id)
    requires Tells(start, s) && s.account.Qty(o) != 0.0
    ensures Tells(start, Step(s, Close(o)))
  {
    hide ClosedUnpaid, Sum, Replay, OwedAt, RowOf, Rows.At;
    var s' := Step(s, Close(o));
    var w := OnPosition(o, Row(0.0, 0.0, Common.At(s'.account.realizedBy, o), 0.0));
    ClosedTouches(s.account, o);
    ReplayLast(start, s.log, w);
    OwedSame(s, s');
    forall p: Id ensures OwedAt(s', Position(p)) || Replay(start, s'.log).At(p) == RowOf(s'.account, p) {
      LandedReads(Replay(start, s.log), w, p);
    }
  }

  lemma CaptureTells(start: Rows, s: System, i: nat)
    requires Tells(start, s) && i < |s.owed|
    ensures Tells(start, Step(s, Capture(i)))
  {
    hide Sum, Replay, OwedAt, RowOf, Rows.At;
    var s' := Step(s, Capture(i));
    var w := CaptureOf(s.account, s.owed[i]);
    ReplayLast(start, s.log, w);
    OwedLess(s, s', i);
    forall p: Id ensures OwedAt(s', Position(p)) || Replay(start, s'.log).At(p) == RowOf(s'.account, p) {
      LandedReads(Replay(start, s.log), w, p);
    }
  }

  lemma {:induction false} AlwaysMirrors(start: Rows, s: System, es: seq<Event>)
    requires Mirrors(start, s)
    ensures Mirrors(start, Run(s, es))
    decreases |es|
  {
    hide Mirrors, Step;
    if es != [] {
      StepMirrors(start, s, es[0]);
      AlwaysMirrors(start, Step(s, es[0]), es[1..]);
    }
  }

  /** Two accounts no reader can tell apart. */
  ghost predicate ReadsAlike(st: Account, st': Account) {
    && st.cash == st'.cash && st.realized == st'.realized
    && forall o: Id :: RowOf(st, o) == RowOf(st', o)
  }

  // ---- which landing orders survive a restart ----------------------------------------

  predicate Writes(w: Write, k: Owed) {
    match k
    case Balance => !w.OnPosition?
    case Position(o) => !w.OnBalance? && w.outcome == o
  }

  /** The last of some writes to set a key, or -1. */
  function LastOn(ws: seq<Write>, k: Owed): (j: int)
    ensures -1 <= j < |ws|
    ensures j >= 0 ==> Writes(ws[j], k)
    ensures forall i :: j < i < |ws| ==> !Writes(ws[i], k)
    decreases |ws|
  {
    if ws == [] then -1 else if Writes(ws[|ws| - 1], k) then |ws| - 1 else LastOn(ws[..|ws| - 1], k)
  }

  /** What some writes over the start leave a restart to read of a key: their last
      word on it, or failing any the start's. */
  function CashSaid(start: Rows, ws: seq<Write>): real {
    var j := LastOn(ws, Balance);
    if j >= 0 then ws[j].amount else if start.balance.Some? then start.balance.value else DEFAULT_STARTING_BALANCE
  }

  function RowSaid(start: Rows, ws: seq<Write>, o: Id): Row {
    var j := LastOn(ws, Position(o));
    if j >= 0 then ws[j].row else start.At(o)
  }

  /** The last landed word on a key says what the last captured one says. */
  predicate SaysSame(start: Rows, s: System, k: Owed)
    requires Indexed(s)
  {
    match k
    case Balance => CashSaid(start, Arrivals(s)) == CashSaid(start, s.log)
    case Position(o) => RowSaid(start, Arrivals(s), o) == RowSaid(start, s.log, o)
  }

  ghost predicate AllSaySame(start: Rows, s: System)
    requires Indexed(s)
  {
    forall k :: SaysSame(start, s, k)
  }

  lemma {:induction false} ReplayReads(start: Rows, ws: seq<Write>, k: Owed)
    ensures var j, db := LastOn(ws, k), Replay(start, ws);
      match k
      case Balance => db.balance == if j >= 0 then Some(ws[j].amount) else start.balance
      case Position(o) => db.At(o) == if j >= 0 then ws[j].row else start.At(o)
    decreases |ws|
  {
    if ws != [] {
      var n := |ws| - 1;
      ReplayReads(start, ws[..n], k);
      if k.Position? { LandedReads(Replay(start, ws[..n]), ws[n], k.outcome); }
    }
  }

  /** A key whose last landed write is the last captured one. */
  ghost predicate Kept(s: System, k: Owed)
    requires Indexed(s)
  {
    var j, last := LastOn(Arrivals(s), k), LastOn(s.log, k);
    if j >= 0 then s.arrived[j] == last else last < 0
  }

  /** Whether a restart reads a key as memory has it. */
  ghost predicate ReadBack(s: System, k: Owed) {
    match k
    case Balance => HydratedFrom(s.db).cash == s.account.cash
    case Position(o) => RowOf(HydratedFrom(s.db), o) == RowOf(s.account, o)
  }

  /** With nothing still to be captured, a key is read back exactly when the last
      landed word on it says what the last captured one says. */
  lemma ReadBackExactly(start: Rows, s: System, k: Owed)
    requires Mirrors(start, s) && s.owed == []
    ensures Indexed(s) && (ReadBack(s, k) <==> SaysSame(start, s, k))
  {
    hide Replay;
    assert !OwedAt(s, k);
    ReplayReads(start, s.log, k);
    ReplayReads(start, Arrivals(s), k);
    HydratedReads(s, k);
  }

  lemma HydratedReads(s: System, k: Owed)
    ensures k.Balance? ==> HydratedFrom(s.db).cash == if s.db.balance.Some? then s.db.balance.value else DEFAULT_STARTING_BALANCE
    ensures k.Position? ==> RowOf(HydratedFrom(s.db), k.outcome) == s.db.At(k.outcome)
  {
  }

  lemma KeptSaysSame(start: Rows, s: System, k: Owed)
    requires Indexed(s) && Kept(s, k)
    ensures SaysSame(start, s, k)
  {
    hide LastOn;
  }

  ghost predicate OrderKept(s: System)
    requires Indexed(s)
  {
    forall k :: Kept(s, k)
  }

  /** Restart transparency, in any run, however writes land or are dropped: with
      nothing still to be captured, start-up rebuilds the account exactly, cash,
      quantities, averages, realized profit per outcome and in total, and carried
      fees, if and only if for every key the last landed word says what the last
      captured one says; which they do whenever the last landed write of every key
      is its last captured one. */
  lemma RestartIsTransparent(start: Rows, s: System, es: seq<Event>)
    requires Mirrors(start, s)
    ensures var t := Run(s, es);
      && Mirrors(start, t)
      && (t.owed == [] ==> (ReadsAlike(HydratedFrom(t.db), t.account) <==> AllSaySame(start, t)))
      && (OrderKept(t) ==> AllSaySame(start, t))
  {
    hide Mirrors, Run, Kept, SaysSame, HydratedFrom, ReadsAlike;
    AlwaysMirrors(start, s, es);
    MirrorsIndexed(start, Run(s, es));
    var t := Run(s, es);
    if t.owed == [] { AlikeIfAllSame(start, t); }
    if OrderKept(t) {
      forall k ensures SaysSame(start, t, k) { KeptSaysSame(start, t, k); }
    }
  }

  lemma MirrorsIndexed(start: Rows, s: System)
    requires Mirrors(start, s)
    ensures Indexed(s) && s.account.realized == Sum(s.account.realizedBy)
  {
  }

  lemma AlikeIfAllSame(start: Rows, s: System)
    requires Mirrors(start, s) && s.owed == []
    ensures Indexed(s) && (ReadsAlike(HydratedFrom(s.db), s.account) <==> AllSaySame(start, s))
  {
    hide SaysSame, Mirrors, Sum;
    MirrorsIndexed(start, s);
    ReadBackExactly(start, s, Balance);
    forall o: Id ensures RowOf(HydratedFrom(s.db), o) == RowOf(s.account, o) <==> SaysSame(start, s, Position(o)) {
      ReadBackExactly(start, s, Position(o));
    }
    if AllSaySame(start, s) {
      forall o: Id ensures Common.At(Realized(s.db.positions), o) == Common.At(s.account.realizedBy, o) {
        assert SaysSame(start, s, Position(o));
        assert RowOf(HydratedFrom(s.db), o) == RowOf(s.account, o);
      }
      SumSame(Realized(s.db.positions), s.account.realizedBy);
    } else if ReadsAlike(HydratedFrom(s.db), s.account) {
      forall k ensures SaysSame(start, s, k) {
        if k.Position? { assert RowOf(HydratedFrom(s.db), k.outcome) == RowOf(s.account, k.outcome); }
      }
    }
  }

  lemma OrderIsEnough(start: Rows, s: System)
    requires Mirrors(start, s) && s.owed == [] && OrderKept(s)
    ensures ReadsAlike(HydratedFrom(s.db), s.account)
  {
    hide Mirrors, Kept, SaysSame, HydratedFrom, ReadsAlike;
    MirrorsIndexed(start, s);
    AlikeIfAllSame(start, s);
    forall k ensures SaysSame(start, s, k) { KeptSaysSame(start, s, k); }
  }

  // ---- writes landing in capture order -------------------------------------------------

  predicate InOrder(s: System, e: Event) { !e.Drop? && (e.Land? ==> e.i == |s.arrived|) }

  predicate InOrderRun(s: System, es: seq<Event>)
    decreases |es|
  {
    es == [] || (InOrder(s, es[0]) && InOrderRun(Step(s, es[0]), es[1..]))
  }

  /** What landed is the front of what was captured, and the rest is pending. */
  ghost predicate Queued(s: System) {
    && |s.arrived| <= |s.log|
    && (forall j :: 0 <= j < |s.arrived| ==> s.arrived[j] == j)
    && (forall j :: |s.arrived| <= j < |s.log| ==> j in s.pending)
  }

  lemma {:induction false} AlwaysQueued(s: System, es: seq<Event>)
    requires Queued(s) && InOrderRun(s, es)
    ensures Queued(Run(s, es))
    decreases |es|
  {
    hide Filled, Settled, ClosedUnpaid;
    if es != [] {
      assert Queued(Step(s, es[0]));
      AlwaysQueued(Step(s, es[0]), es[1..]);
    }
  }

  /** In capture order with nothing given up on, every quiet moment qualifies. */
  lemma QuietInOrder(s: System, es: seq<Event>)
    requires Queued(s) && InOrderRun(s, es)
    ensures var t := Run(s, es); t.pending == {} ==> Indexed(t) && OrderKept(t)
  {
    AlwaysQueued(s, es);
    var t := Run(s, es);
    if t.pending == {} {
      assert |t.arrived| < |t.log| ==> |t.arrived| in t.pending;
      assert Arrivals(t) == t.log;
    }
  }

  /** A freshly seeded account with its seed stored is such a start. */
  lemma SeededMirrors(cash: real)
    ensures var db := Rows(Some(cash), map[]);
      var s := System(EMPTY.(cash := cash), db, [], {}, [], []);
      Mirrors(db, s) && Queued(s)
  {
  }

  /** A ticket rollback is the exception. Unwinding a ticket of buys writes nothing,
      so a restart after it rebuilds the account as it was before the ticket, and
      that is the account in memory if and only if no leg filled at its venue
      before the stop is charged a fee at the price it is shown. */
  lemma RollbackIsForgotten(start: Rows, s: System, venues: ExecutionRouter.Venues, w: ExecutionRouter.World, w': ExecutionRouter.World,
                            intent: ExecutionRouter.Intent, preview: ExecutionRouter.Readings, commit: ExecutionRouter.Readings,
                            r: ExecutionRouter.Submission, n: nat, v: Id)
    requires Mirrors(start, s) && s.owed == [] && OrderKept(s)
    requires venues.Keys == w.Keys == w'.Keys && |intent.legs| == |preview| == |commit| && v in w
    requires ExecutionRouter.Outcome(venues, w, w', intent, preview, commit, r) && r.Unwound?
    requires forall u :: u in venues ==> venues[u].Valid()
    requires forall leg :: leg in intent.legs ==> leg.isBuy && leg.qty >= 0.0
    requires Tickets.StopsAt(venues, w, intent, commit, n)
    requires s.account == w[v].Acct(intent.account)
    ensures ReadsAlike(HydratedFrom(s.db), w'[v].Acct(intent.account)) <==> Tickets.FreeAt(venues, intent, commit, v, n - 1)
  {
    hide Mirrors, OrderKept, HydratedFrom, Tickets.FreeAt, ExecutionRouter.Outcome, Contributed, Sum, Tickets.StopsAt;
    OrderIsEnough(start, s);
    Known(venues, w, intent, commit, n);
    Tickets.RollbackAt(venues, w, w', intent, preview, commit, r, n, v);
    AlikeExactly(HydratedFrom(s.db), s.account, w'[v].Acct(intent.account));
  }

  lemma Known(venues: ExecutionRouter.Venues, w: ExecutionRouter.World, intent: ExecutionRouter.Intent, commit: ExecutionRouter.Readings, n: nat)
    requires venues.Keys == w.Keys && |intent.legs| == |commit| && Tickets.StopsAt(venues, w, intent, commit, n)
    ensures ExecutionRouter.AllKnown(venues, intent) && 0 < n <= |intent.legs|
  {
  }

  lemma AlikeExactly(read: Account, before: Account, after: Account)
    requires ReadsAlike(read, before) && after == before.(openFees := after.openFees)
    ensures ReadsAlike(read, after) <==> Tickets.SameFees(before, after)
  {
    if ReadsAlike(read, after) {
      forall o: Id ensures after.Fees(o) == before.Fees(o) {
        assert RowOf(read, o) == RowOf(after, o) && RowOf(read, o) == RowOf(before, o);
      }
    } else {
      var o: Id :| RowOf(read, o) != RowOf(after, o);
      assert RowOf(read, o) == RowOf(before, o);
    }
  }
}
