/** One held outcome on its way to being paid: memory, the database, writes
    that land whole, late or never, restarts, and two settlement services that
    interleave at every await. The question is whether each contract is
    credited exactly once. */
module SettlementProtocol {
  import opened Common

  /** A cash amount by provenance: the contracts whose payout it includes, and
      everything else. */
  datatype Money = Money(other: real, credited: real)

  /** The stored rows: the balance, the position, and whether a settlement was
      recorded. */
  datatype Row = Row(cash: Money, qty: real, record: bool)

  /** One captured transaction. Its values are the ones in memory when it was
      captured, however late it lands. */
  datatype Write =
    | Balance(cash: Money)
    | Position(qty: real)
    | Settlement(cash: Money)
    | RecordOnly

  /** What the venue pass knows before it acts: whether the outcome was held when
      it looked, and, once it has asked the database, whether it was on record. */
  datatype Look = Look(held: bool, record: Option<bool>)

  /** `known` counts the contracts this process has ever held. */
  datatype System = System(cash: Money, qty: real, db: Row, queue: seq<Write>, look: Option<Look>, known: real)

  /** A fill changes memory; its balance and its position are captured later, one
      after the other, and anything may come between. */
  datatype Event =
    | Fill(qty: real, cost: real)
    | OtherCash(x: real)
    | CaptureBalance
    | CapturePosition
    | AutoSettle
    | VenueLook
    | VenueRead
    | VenueAct(known: bool)
    | Land(i: nat)
    | Drop(i: nat)
    | Restart

  function Landed(db: Row, w: Write): Row {
    match w
    case Balance(c) => db.(cash := c)
    case Position(q) => db.(qty := q)
    case Settlement(c) => Row(c, 0.0, true)
    case RecordOnly => db.(record := true)
  }

  function Without(queue: seq<Write>, i: nat): seq<Write>
    requires i < |queue|
  {
    queue[..i] + queue[i + 1..]
  }

  /** Settling pays what is held and captures balance, position and record as
      one transaction; with nothing held it only captures the record. */
  function Settle(s: System): System {
    if s.qty == 0.0 then s.(queue := s.queue + [RecordOnly])
    else
      var cash := s.cash.(credited := s.cash.credited + s.qty);
      s.(cash := cash, qty := 0.0, queue := s.queue + [Settlement(cash)])
  }

  function CloseUnpaid(s: System): System {
    if s.qty == 0.0 then s else s.(qty := 0.0, queue := s.queue + [Position(0.0)])
  }

  function Act(s: System, held: bool, record: bool): System {
    if held then (if record then CloseUnpaid(s) else Settle(s))
    else if record || s.qty != 0.0 then s
    else Settle(s)
  }

  predicate HasRead(s: System) { s.look.Some? && s.look.value.record.Some? }

  /** The contracts the stored rows account for: paid into the balance, or held. */
  function Stored(db: Row): real { db.cash.credited + db.qty }

  function Step(s: System, e: Event): System {
    match e
    case Fill(q, cost) =>
      s.(cash := s.cash.(other := s.cash.other - cost), qty := s.qty + q, known := s.known + q)
    case OtherCash(x) => s.(cash := s.cash.(other := s.cash.other + x))
    case CaptureBalance => s.(queue := s.queue + [Balance(s.cash)])
    case CapturePosition => s.(queue := s.queue + [Position(s.qty)])
    case AutoSettle => Settle(s)
    case VenueLook => s.(look := Some(Look(s.qty != 0.0, None)))
    case VenueRead => if s.look == None || HasRead(s) then s else s.(look := Some(s.look.value.(record := Some(s.db.record))))
    case VenueAct(known) =>
      if !HasRead(s) then s
      else
        var held, record := s.look.value.held, s.look.value.record.value;
        if !known && !(held && record) then s.(look := None) else Act(s.(look := None), held, record)
    case Land(i) => if i < |s.queue| then s.(db := Landed(s.db, s.queue[i]), queue := Without(s.queue, i)) else s
    case Drop(i) => if i < |s.queue| then s.(queue := Without(s.queue, i)) else s
    case Restart => System(s.db.cash, s.db.qty, s.db, [], None, Stored(s.db))
  }

  function Run(s: System, es: seq<Event>): System
    decreases |es|
  {
    if es == [] then s else Run(Step(s, es[0]), es[1..])
  }

  /** A venue pass that has read the record: one that saw nothing held moves nothing
      and queues at most the record, when it knows the result and nothing is held or
      recorded; one that saw a holding pays what is held now, or closes it unpaid
      when it found a record, and without a result leaves what has none. */
  lemma VenueActExactly(s: System, known: bool)
    requires HasRead(s)
    ensures var t, held, record := Step(s, VenueAct(known)), s.look.value.held, s.look.value.record.value;
      && t.look == None && t.db == s.db && t.known == s.known && t.cash.other == s.cash.other
      && (!held ==> t.cash == s.cash && t.qty == s.qty && t.queue == s.queue + (if known && !record && s.qty == 0.0 then [RecordOnly] else []))
      && (held && !record && !known ==> t.cash == s.cash && t.qty == s.qty && t.queue == s.queue)
      && (held && !record && known ==> t.cash.credited == s.cash.credited + s.qty && t.qty == 0.0)
      && (held && !record && known ==> t.queue == s.queue + [if s.qty == 0.0 then RecordOnly else Settlement(t.cash)])
      && (held && record ==> t.cash == s.cash && t.qty == 0.0 && t.queue == s.queue + (if s.qty == 0.0 then [] else [Position(0.0)]))
  {
  }

  // ---- one lifetime, writes landing in any order or never -----------------------------

  predicate NoRestarts(es: seq<Event>) { forall e: Event :: e in es ==> !e.Restart? }

  predicate NoFills(es: seq<Event>) { forall e: Event :: e in es ==> !e.Fill? }

  /** The contracts an event closes without paying them. */
  function ClosedBy(s: System, e: Event): real {
    if e.VenueAct? && HasRead(s) && s.look.value.held && s.look.value.record.value then s.qty else 0.0
  }

  function ClosedIn(s: System, es: seq<Event>): real
    decreases |es|
  {
    if es == [] then 0.0 else ClosedBy(s, es[0]) + ClosedIn(Step(s, es[0]), es[1..])
  }

  /** The account of contracts, in every run without a restart, whatever is filled
      and whenever: each contract there was or has been filled is credited once,
      still held, or was closed unpaid by a pass that found it on record. */
  lemma {:induction false} ContractsAccounted(s: System, es: seq<Event>)
    requires NoRestarts(es)
    ensures var t := Run(s, es);
      t.cash.credited + t.qty + ClosedIn(s, es) == s.cash.credited + s.qty + (t.known - s.known)
    decreases |es|
  {
    hide Step, ClosedBy;
    if es != [] {
      assert es[0] in es && forall e :: e in es[1..] ==> e in es;
      StepAccounts(s, es[0]);
      ContractsAccounted(Step(s, es[0]), es[1..]);
    }
  }

  lemma StepAccounts(s: System, e: Event)
    requires !e.Restart?
    ensures var t := Step(s, e);
      t.cash.credited + t.qty + ClosedBy(s, e) == s.cash.credited + s.qty + (t.known - s.known)
  {
  }

  predicate BringsRecord(w: Write) { w.Settlement? || w.RecordOnly? }

  ghost predicate OnItsWay(queue: seq<Write>) { exists i :: 0 <= i < |queue| && BringsRecord(queue[i]) }

  /** A record is stored, on its way, or already known to a pass that found the
      outcome held. */
  ghost predicate RecordComing(s: System) {
    s.db.record || OnItsWay(s.queue) || (HasRead(s) && s.look.value.held && s.look.value.record.value)
  }

  /** A fill in time: a positive size, while no record is coming. */
  ghost predicate InTime(s: System, e: Event) { e.Fill? ==> e.qty > 0.0 && !RecordComing(s) }

  /** One process lifetime whose fills are in time. */
  ghost predicate Lifetime(s: System, es: seq<Event>)
    decreases |es|
  {
    es == [] || (!es[0].Restart? && InTime(s, es[0]) && Lifetime(Step(s, es[0]), es[1..]))
  }

  /** Nothing is held that a record could have closed. */
  ghost predicate Sure(s: System) { RecordComing(s) ==> s.qty == 0.0 }

  lemma WayWithout(queue: seq<Write>, i: nat)
    requires i < |queue|
    ensures OnItsWay(Without(queue, i)) ==> OnItsWay(queue)
    ensures BringsRecord(queue[i]) ==> OnItsWay(queue)
  {
    var rest := Without(queue, i);
    if OnItsWay(rest) {
      var j :| 0 <= j < |rest| && BringsRecord(rest[j]);
      assert queue[if j < i then j else j + 1] == rest[j];
    }
  }

  lemma WayGrows(queue: seq<Write>, w: Write)
    ensures OnItsWay(queue + [w]) <==> OnItsWay(queue) || BringsRecord(w)
  {
    var more := queue + [w];
    assert more[|queue|] == w;
    if OnItsWay(queue) {
      var j :| 0 <= j < |queue| && BringsRecord(queue[j]);
      assert more[j] == queue[j];
    }
  }

  lemma SureStep(s: System, e: Event)
    requires Sure(s) && !e.Restart? && InTime(s, e)
    ensures Sure(Step(s, e)) && ClosedBy(s, e) == 0.0
  {
    hide OnItsWay;
    match e
    case Land(i) => if i < |s.queue| { WayWithout(s.queue, i); }
    case Drop(i) => if i < |s.queue| { WayWithout(s.queue, i); }
    case CaptureBalance => WayGrows(s.queue, Balance(s.cash));
    case CapturePosition => WayGrows(s.queue, Position(s.qty));
    case _ =>
  }

  /** However writes land, each contract is credited at most once in a lifetime and
      none is lost, as long as fills are in time: at every moment every contract
      there was or has been filled is credited or still held. */
  lemma {:induction false} PaidOncePerLifetime(s: System, es: seq<Event>)
    requires Sure(s) && Lifetime(s, es)
    ensures var t := Run(s, es); Sure(t) && t.cash.credited + t.qty == s.cash.credited + s.qty + (t.known - s.known)
    decreases |es|
  {
    hide Sure, Step, InTime;
    if es != [] {
      SureStep(s, es[0]);
      StepAccounts(s, es[0]);
      PaidOncePerLifetime(Step(s, es[0]), es[1..]);
    }
  }

  lemma {:induction false} LifetimeIs(s: System, es: seq<Event>)
    requires NoRestarts(es) && NoFills(es)
    ensures Lifetime(s, es) && Run(s, es).known == s.known
    decreases |es|
  {
    if es != [] {
      assert es[0] in es && forall e :: e in es[1..] ==> e in es;
      LifetimeIs(Step(s, es[0]), es[1..]);
    }
  }

  // ---- when what is held will be paid ----------------------------------------------------

  /** On every schedule without a restart or another fill, once nothing is held
      everything held now has been credited. */
  ghost predicate PaysAll(s: System) {
    forall c :: NoRestarts(c) && NoFills(c) && Run(s, c).qty == 0.0 ==> Run(s, c).cash.credited == s.cash.credited + s.qty
  }

  /** From any state at all: what is held will be paid on every schedule if and only
      if nothing is held or no record is coming. */
  lemma PaysAllExactly(s: System)
    ensures PaysAll(s) <==> s.qty == 0.0 || !RecordComing(s)
  {
    hide Step, RecordComing, Run, NoRestarts, NoFills;
    if s.qty == 0.0 || !RecordComing(s) {
      forall c | NoRestarts(c) && NoFills(c) && Run(s, c).qty == 0.0 ensures Run(s, c).cash.credited == s.cash.credited + s.qty {
        LifetimeIs(s, c);
        PaidOncePerLifetime(s, c);
      }
    } else {
      var c := ClosesUnpaid(s);
      assert Run(s, c).cash.credited != s.cash.credited + s.qty;
    }
  }

  /** A schedule that closes unpaid what is held while a record is coming. */
  lemma ClosesUnpaid(s: System) returns (c: seq<Event>)
    requires s.qty != 0.0 && RecordComing(s)
    ensures NoRestarts(c) && NoFills(c) && Run(s, c).qty == 0.0 && Run(s, c).cash.credited == s.cash.credited
  {
    hide Run, Lifetime;
    if s.db.record {
      c := [VenueLook, VenueRead, VenueAct(true)];
      Unfold3(s, VenueLook, VenueRead, VenueAct(true));
    } else if HasRead(s) && s.look.value.held && s.look.value.record.value {
      c := [VenueAct(true)] + [];
      RunFirst(s, VenueAct(true), []);
      RunNothing(Step(s, VenueAct(true)));
    } else {
      var i :| 0 <= i < |s.queue| && BringsRecord(s.queue[i]);
      var t := Step(s, Land(i));
      c := [Land(i)] + [VenueLook, VenueRead, VenueAct(true)];
      RunFirst(s, Land(i), [VenueLook, VenueRead, VenueAct(true)]);
      Unfold3(t, VenueLook, VenueRead, VenueAct(true));
    }
  }

  /** So a fill is paid on every schedule if and only if it comes while no record
      is coming: being in time is exactly what it takes. */
  lemma FillIsPaidExactly(s: System, q: real, cost: real)
    requires s.qty >= 0.0 && q > 0.0
    ensures PaysAll(Step(s, Fill(q, cost))) <==> InTime(s, Fill(q, cost))
  {
    hide PaysAll, OnItsWay;
    PaysAllExactly(Step(s, Fill(q, cost)));
  }

  lemma RunNothing(s: System)
    ensures Run(s, []) == s
  {
  }

  lemma RunFirst(s: System, e: Event, es: seq<Event>)
    ensures Run(s, [e] + es) == Run(Step(s, e), es)
  {
  }

  // ---- after a restart: every schedule ---------------------------------------------------

  /** Whatever happens after a restart, once nothing is held exactly n contracts
      have been credited, besides those filled since. */
  ghost predicate CreditsExactly(t: System, n: real) {
    forall c :: Closes(Step(t, Restart), c) ==>
      Run(Step(t, Restart), c).cash.credited == n + (Run(Step(t, Restart), c).known - Step(t, Restart).known)
  }

  ghost predicate Closes(s: System, c: seq<Event>) { Lifetime(s, c) && Run(s, c).qty == 0.0 }

  predicate VenueOnly(c: seq<Event>) { forall e :: e in c ==> e != AutoSettle }

  /** The same, on the schedules in which only the venue pass settles. */
  ghost predicate VenueCreditsExactly(t: System, n: real) {
    forall c :: Closes(Step(t, Restart), c) && VenueOnly(c) ==>
      Run(Step(t, Restart), c).cash.credited == n + (Run(Step(t, Restart), c).known - Step(t, Restart).known)
  }

  /** Stored rows that account for n contracts, and are not on record while a
      position is stored. */
  predicate SoundRow(db: Row, n: real) { Stored(db) == n && (db.qty == 0.0 || !db.record) }

  /** Stored rows the venue pass alone brings to n: a position on record is closed
      unpaid, any other is paid. */
  predicate SoundForVenue(db: Row, n: real) { db.cash.credited + (if db.record then 0.0 else db.qty) == n }

  /** The exact condition, for any state and every schedule after the restart, the
      two services and every landing interleaved as they may: exactly n
      contracts end up credited if and only if the stored balance and position
      account for n between them and no position is stored beside a record. */
  lemma ExactlyOnceIff(t: System, n: real)
    ensures CreditsExactly(t, n) <==> SoundRow(t.db, n)
  {
    hide Step, Sure;
    var s := Step(t, Restart);
    RestartReads(t);
    if SoundRow(t.db, n) {
      forall c | Closes(s, c) ensures Run(s, c).cash.credited == n + (Run(s, c).known - s.known) {
        PaidOncePerLifetime(s, c);
      }
    }
    if !SoundRow(t.db, n) {
      var c := if t.db.qty == 0.0 then [] else if Stored(t.db) != n then [AutoSettle] else [VenueLook, VenueRead, VenueAct(true)];
      if t.db.qty != 0.0 {
        AutoSettlesAfter(s);
        VenueSettlesAfter(s);
      }
      assert Closes(s, c) && Run(s, c).cash.credited != n + (Run(s, c).known - s.known);
    }
  }

  lemma RestartReads(t: System)
    ensures var s := Step(t, Restart);
      && s.cash == t.db.cash && s.qty == t.db.qty && s.db == t.db && s.queue == [] && s.look.None?
      && s.known == Stored(t.db)
      && (t.db.qty == 0.0 || !t.db.record ==> Sure(s))
  {
  }

  lemma AutoSettlesAfter(s: System)
    requires s.qty != 0.0
    ensures Lifetime(s, [AutoSettle]) && Run(s, [AutoSettle]).qty == 0.0
    ensures Run(s, [AutoSettle]).cash.credited == s.cash.credited + s.qty && Run(s, [AutoSettle]).known == s.known
  {
    var t := Step(s, AutoSettle);
    assert [AutoSettle][1..] == [];
    assert Run(t, []) == t && Lifetime(t, []);
  }

  lemma VenueSettlesAfter(s: System)
    requires s.qty != 0.0
    ensures var c := [VenueLook, VenueRead, VenueAct(true)];
      && Lifetime(s, c) && Run(s, c).qty == 0.0 && Run(s, c).known == s.known
      && Run(s, c).cash.credited == s.cash.credited + (if s.db.record then 0.0 else s.qty)
  {
    hide Lifetime, Run;
    Unfold3(s, VenueLook, VenueRead, VenueAct(true));
  }

  lemma Unfold3(s: System, a: Event, b: Event, c: Event)
    requires !a.Restart? && !a.Fill? && !b.Restart? && !b.Fill? && !c.Restart? && !c.Fill?
    ensures Lifetime(s, [a, b, c]) && Run(s, [a, b, c]) == Step(Step(Step(s, a), b), c)
  {
    hide Step, Run, Lifetime;
    var t, u := Step(s, a), Step(Step(s, a), b);
    assert [a, b, c] == [a] + ([b] + ([c] + []));
    NothingYet(Step(u, c));
    StepFirst(u, c, []);
    StepFirst(t, b, [c] + []);
    StepFirst(s, a, [b] + ([c] + []));
  }

  lemma NothingYet(s: System)
    ensures Lifetime(s, []) && Run(s, []) == s
  {
  }

  lemma StepFirst(s: System, e: Event, es: seq<Event>)
    requires !e.Restart? && !e.Fill? && Lifetime(Step(s, e), es)
    ensures Lifetime(s, [e] + es) && Run(s, [e] + es) == Run(Step(s, e), es)
  {
    hide Step;
    assert ([e] + es)[1..] == es;
  }

  /** With a record stored, the venue pass alone credits nothing more. */
  ghost predicate OnRecord(s: System, k: real) {
    s.cash.credited == k && s.db.record && (HasRead(s) ==> s.look.value.record.value)
  }

  /** Whatever is filled meanwhile: a fill made while a record is stored is
      closed without ever being paid. */
  lemma {:induction false} VenueNeverPaysRecorded(s: System, c: seq<Event>, k: real)
    requires OnRecord(s, k) && VenueOnly(c) && NoRestarts(c)
    ensures Run(s, c).cash.credited == k
    decreases |c|
  {
    if c != [] {
      assert c[0] in c && forall e :: e in c[1..] ==> e in c;
      assert OnRecord(Step(s, c[0]), k);
      VenueNeverPaysRecorded(Step(s, c[0]), c[1..], k);
    }
  }

  lemma {:induction false} NoFillsOnRecord(s: System, c: seq<Event>)
    requires s.db.record && Lifetime(s, c)
    ensures Run(s, c).known == s.known && NoRestarts(c)
    decreases |c|
  {
    if c != [] {
      NoFillsOnRecord(Step(s, c[0]), c[1..]);
      assert c == [c[0]] + c[1..];
    }
  }

  /** The exact condition when only the venue pass settles after the restart. */
  lemma VenueOnlyIff(t: System, n: real)
    ensures VenueCreditsExactly(t, n) <==> SoundForVenue(t.db, n)
  {
    hide Step, Sure;
    var s := Step(t, Restart);
    RestartReads(t);
    if SoundForVenue(t.db, n) {
      forall c | Closes(s, c) && VenueOnly(c)
        ensures Run(s, c).cash.credited == n + (Run(s, c).known - s.known)
      {
        if t.db.record {
          NoFillsOnRecord(s, c);
          VenueNeverPaysRecorded(s, c, n);
        } else {
          PaidOncePerLifetime(s, c);
        }
      }
    }
    if VenueCreditsExactly(t, n) {
      if t.db.qty == 0.0 {
        assert Closes(s, []);
      } else {
        VenueSettlesAfter(s);
        assert Closes(s, [VenueLook, VenueRead, VenueAct(true)]);
      }
    }
  }

  // ---- the same conditions, read off what landed ----------------------------------------

  /** The writes a run landed, in landing order. */
  function LandedLog(s: System, es: seq<Event>): seq<Write>
    decreases |es|
  {
    if es == [] then []
    else
      (match es[0]
       case Land(i) => if i < |s.queue| then [s.queue[i]] else []
       case _ => []) + LandedLog(Step(s, es[0]), es[1..])
  }

  function Replay(db: Row, log: seq<Write>): Row
    decreases |log|
  {
    if log == [] then db else Replay(Landed(db, log[0]), log[1..])
  }

  lemma {:induction false} DbIsReplay(s: System, es: seq<Event>)
    requires NoRestarts(es)
    ensures Run(s, es).db == Replay(s.db, LandedLog(s, es))
    decreases |es|
  {
    if es != [] {
      var e, rest := es[0], LandedLog(Step(s, es[0]), es[1..]);
      assert e in es && forall x :: x in es[1..] ==> x in es;
      DbIsReplay(Step(s, e), es[1..]);
      if e.Land? && e.i < |s.queue| {
        assert LandedLog(s, es) == [s.queue[e.i]] + rest;
        assert LandedLog(s, es)[1..] == rest;
      } else {
        assert LandedLog(s, es) == rest;
      }
    }
  }

  /** The payouts the last landed write of the balance includes. */
  function LastCredited(log: seq<Write>, start: real): real
    decreases |log|
  {
    if log == [] then start
    else
      var w := log[|log| - 1];
      if w.Balance? || w.Settlement? then w.cash.credited else LastCredited(log[..|log| - 1], start)
  }

  /** The quantity the last landed write of the position stores. */
  function LastPosition(log: seq<Write>, start: real): real
    decreases |log|
  {
    if log == [] then start
    else
      var w := log[|log| - 1];
      if w.Settlement? then 0.0 else if w.Position? then w.qty else LastPosition(log[..|log| - 1], start)
  }

  predicate Recorded(log: seq<Write>) { exists w :: w in log && BringsRecord(w) }

  lemma {:induction false} ReplayLast(db: Row, log: seq<Write>)
    requires log != []
    ensures Replay(db, log) == Landed(Replay(db, log[..|log| - 1]), log[|log| - 1])
    decreases |log|
  {
    if |log| > 1 {
      ReplayLast(Landed(db, log[0]), log[1..]);
      assert log[1..][..|log| - 2] == log[..|log| - 1][1..];
    } else {
      assert log[1..] == [] && log[..0] == [];
    }
  }

  lemma {:induction false} ReplayReads(db: Row, log: seq<Write>)
    ensures var t := Replay(db, log);
      && t.cash.credited == LastCredited(log, db.cash.credited)
      && t.qty == LastPosition(log, db.qty)
      && (t.record <==> db.record || Recorded(log))
    decreases |log|
  {
    if log != [] {
      var before, w := log[..|log| - 1], log[|log| - 1];
      ReplayReads(db, before);
      ReplayLast(db, log);
      assert log == before + [w];
      RecordedMore(before, w);
    }
  }

  lemma RecordedMore(log: seq<Write>, w: Write)
    ensures Recorded(log + [w]) <==> Recorded(log) || BringsRecord(w)
  {
    var more := log + [w];
    assert w in more && forall x :: x in more <==> x in log || x == w;
    if Recorded(log) {
      var x :| x in log && BringsRecord(x);
      assert x in more;
    }
  }

  /** The exact condition in terms of what a run landed, from any state, for any
      fills and any order of landing and dropping. Every schedule after a restart
      credits n contracts if and only if the last balance and the last position to
      land account for n, and the position is closed if a settlement or a record
      landed or was stored. The venue pass alone does if and only if that balance
      accounts for n, with that position when there is no record. */
  lemma LogDecides(s: System, es: seq<Event>, n: real)
    requires NoRestarts(es)
    ensures var t, log := Run(s, es), LandedLog(s, es);
      var credited, kept, record := LastCredited(log, s.db.cash.credited), LastPosition(log, s.db.qty), s.db.record || Recorded(log);
      && (CreditsExactly(t, n) <==> credited + kept == n && (kept == 0.0 || !record))
      && (VenueCreditsExactly(t, n) <==> credited + (if record then 0.0 else kept) == n)
  {
    hide CreditsExactly, VenueCreditsExactly, Run, LandedLog;
    DbIsReplay(s, es);
    ReplayReads(s.db, LandedLog(s, es));
    ExactlyOnceIff(Run(s, es), n);
    VenueOnlyIff(Run(s, es), n);
  }

  /** If the settlement transaction landed: every schedule after a restart credits
      n contracts exactly if and only if the last balance to land includes n
      payouts and the last position to land is the closed one; the venue pass alone
      does if and only if the balance does. */
  lemma SettlementLanded(s: System, es: seq<Event>, n: real)
    requires NoRestarts(es) && exists w :: w in LandedLog(s, es) && w.Settlement?
    ensures var t, log := Run(s, es), LandedLog(s, es);
      var paid := LastCredited(log, s.db.cash.credited) == n;
      && (CreditsExactly(t, n) <==> paid && LastPosition(log, s.db.qty) == 0.0)
      && (VenueCreditsExactly(t, n) <==> paid)
  {
    hide CreditsExactly, VenueCreditsExactly, Run, LandedLog;
    var w :| w in LandedLog(s, es) && w.Settlement?;
    assert BringsRecord(w);
    LogDecides(s, es, n);
  }

  /** A position whose own writes have all landed, not yet paid anywhere. */
  predicate Fresh(s: System) {
    && s.known > 0.0 && s.cash.credited == 0.0 == s.db.cash.credited && s.db.qty == s.qty == s.known && !s.db.record
    && s.queue == [] && s.look.None?
  }

  /** Balances captured since a fresh start, while fills stop at the first payout,
      include the whole payout or none of it. */
  ghost predicate AllOrNothing(s: System) {
    && 0.0 < s.known && s.cash.credited + s.qty == s.known
    && Whole(s.cash, s) && Whole(s.db.cash, s)
    && forall i :: 0 <= i < |s.queue| && (s.queue[i].Balance? || s.queue[i].Settlement?) ==> Whole(s.queue[i].cash, s)
  }

  predicate Whole(c: Money, s: System) { c.credited == 0.0 || (s.qty == 0.0 && c.credited == s.known) }

  /** Fills only while something is held. */
  ghost predicate FillsWhileHeld(s: System, es: seq<Event>)
    decreases |es|
  {
    es == [] || ((es[0].Fill? ==> s.qty > 0.0) && FillsWhileHeld(Step(s, es[0]), es[1..]))
  }

  lemma WholeStep(s: System, e: Event)
    requires Sure(s) && AllOrNothing(s) && !e.Restart? && InTime(s, e) && (e.Fill? ==> s.qty > 0.0)
    ensures AllOrNothing(Step(s, e))
  {
    hide RecordComing, Sure;
    SureStep(s, e);
    StepAccounts(s, e);
  }

  lemma {:induction false} WholeRun(s: System, es: seq<Event>)
    requires Sure(s) && AllOrNothing(s) && Lifetime(s, es) && FillsWhileHeld(s, es)
    ensures AllOrNothing(Run(s, es)) && NoRestarts(es)
    decreases |es|
  {
    hide Sure, AllOrNothing, Step, InTime;
    if es != [] {
      SureStep(s, es[0]);
      WholeStep(s, es[0]);
      WholeRun(Step(s, es[0]), es[1..]);
      assert es == [es[0]] + es[1..];
    }
  }

  lemma FreshIsWhole(s: System)
    requires Fresh(s)
    ensures Sure(s) && AllOrNothing(s)
  {
  }

  lemma StoredIsWhole(s: System)
    requires AllOrNothing(s)
    ensures s.known > 0.0 && (s.db.cash.credited == 0.0 || s.db.cash.credited == s.known)
  {
  }

  /** If it never landed, from a fresh position whose fills are in time and stop
      once it is paid: every schedule is exact if and only if a later balance and a
      zero position have both landed, or neither has and the stored position is all
      the contracts, with nothing on record. The venue pass alone also recovers a
      later balance beside a separate record. */
  lemma SettlementDropped(s: System, es: seq<Event>)
    requires Fresh(s) && Lifetime(s, es) && FillsWhileHeld(s, es)
    requires forall w :: w in LandedLog(s, es) ==> !w.Settlement?
    ensures var t, log := Run(s, es), LandedLog(s, es);
      var later := LastCredited(log, 0.0) == t.known;
      var kept := LastPosition(log, s.qty) == t.known && RecordOnly !in log;
      && (CreditsExactly(t, t.known) <==> (if later then LastPosition(log, s.qty) == 0.0 else kept))
      && (VenueCreditsExactly(t, t.known) <==> (if later then RecordOnly in log || LastPosition(log, s.qty) == 0.0 else kept))
  {
    hide CreditsExactly, VenueCreditsExactly, Lifetime, FillsWhileHeld, Run, LandedLog, Sure, AllOrNothing, LastCredited, LastPosition;
    var t, log := Run(s, es), LandedLog(s, es);
    FreshIsWhole(s);
    WholeRun(s, es);
    StoredIsWhole(t);
    DbIsReplay(s, es);
    ReplayReads(s.db, log);
    LogDecides(s, es, t.known);
    if Recorded(log) {
      var w :| w in log && BringsRecord(w);
      assert w == RecordOnly;
    } else {
      assert BringsRecord(RecordOnly);
    }
  }

  // ---- writes that land in the order they were captured, across restarts ---------------

  /** Landing in order: only the oldest pending write lands or is given up on,
      and a settlement is never given up on. A restart may lose any tail. */
  ghost predicate InOrder(s: System, e: Event) {
    && InTime(s, e)
    && (e.Land? ==> e.i == 0)
    && (e.Drop? ==> e.i == 0 && (s.queue != [] ==> !s.queue[0].Settlement?))
  }

  ghost predicate InOrderRun(s: System, es: seq<Event>)
    decreases |es|
  {
    es == [] || (InOrder(s, es[0]) && InOrderRun(Step(s, es[0]), es[1..]))
  }

  predicate Pre(w: Write, base: real, known: real) {
    match w
    case Balance(c) => c.credited == 0.0
    case Position(q) => base <= q <= known
    case _ => false
  }

  predicate Post(w: Write, known: real) {
    match w
    case Balance(c) => c.credited == known
    case Position(q) => q == 0.0
    case Settlement(c) => c.credited == known
    case RecordOnly => true
  }

  predicate OpenRow(db: Row, base: real, known: real) { db.cash.credited == 0.0 && base <= db.qty <= known && !db.record }

  ghost predicate AllPre(q: seq<Write>, base: real, known: real) { forall i :: 0 <= i < |q| ==> Pre(q[i], base, known) }

  ghost predicate AllPost(q: seq<Write>, known: real) { forall i :: 0 <= i < |q| ==> Post(q[i], known) }

  /** A pending queue whose k-th write is the settlement. */
  ghost predicate SettlesAt(s: System, base: real, k: nat) {
    && k < |s.queue| && s.queue[k].Settlement?
    && AllPre(s.queue[..k], base, s.known) && AllPost(s.queue[k..], s.known)
  }

  /** Memory holds every contract, and nothing on its way says otherwise. */
  ghost predicate Open(s: System, base: real) {
    s.cash.credited == 0.0 && s.qty == s.known && OpenRow(s.db, base, s.known) && AllPre(s.queue, base, s.known)
  }

  ghost predicate AllCredited(s: System) { s.cash.credited == s.known && s.qty == 0.0 }

  /** Paid in memory, with the settlement still on its way. */
  ghost predicate Landing(s: System, base: real) {
    AllCredited(s) && OpenRow(s.db, base, s.known) && exists k: nat :: SettlesAt(s, base, k)
  }

  ghost predicate Done(s: System) {
    && AllCredited(s) && AllPost(s.queue, s.known)
    && s.db.cash.credited == s.known && s.db.qty == 0.0 && s.db.record
  }

  /** Nothing held yet: only records are on their way, if anything is. */
  ghost predicate Empty(s: System) {
    && AllCredited(s) && s.known == 0.0 && AllPost(s.queue, 0.0)
    && s.db.cash.credited == 0.0 && s.db.qty == 0.0
  }

  /** Everywhere in the run, what is stored or on its way agrees with memory
      once it lands, and accounts for no fewer than `base` contracts. */
  ghost predicate Steady(s: System, base: real) {
    && 0.0 <= base <= s.known
    && (HasRead(s) && s.look.value.record.value ==> s.db.record)
    && (Open(s, base) || Landing(s, base) || Done(s) || Empty(s))
  }

  lemma SteadyStep(s: System, e: Event, base: real)
    requires Steady(s, base) && InOrder(s, e)
    ensures Steady(Step(s, e), base) && (!e.Fill? ==> Step(s, e).known <= s.known)
  {
    hide Open, Landing, Done, Empty, Step, InOrder;
    if Open(s, base) {
      OpenStep(s, e, base);
    } else if Landing(s, base) {
      LandingStep(s, e, base);
    } else {
      ClosedStep(s, e, base);
    }
  }

  lemma OpenStep(s: System, e: Event, base: real)
    requires Steady(s, base) && Open(s, base) && InOrder(s, e)
    ensures Steady(Step(s, e), base) && (!e.Fill? ==> Step(s, e).known <= s.known)
  {
    var t := Step(s, e);
    if t == Settle(s.(look := t.look)) {
      SettledLands(s, t, base);
    } else {
      OpenStays(s, e, base);
    }
  }

  lemma OpenStays(s: System, e: Event, base: real)
    requires Steady(s, base) && Open(s, base) && InOrder(s, e) && Step(s, e) != Settle(s.(look := Step(s, e).look))
    ensures Steady(Step(s, e), base) && (!e.Fill? ==> Step(s, e).known <= s.known)
  {
    hide Landing, Done, Empty;
    assert Open(Step(s, e), base);
  }

  lemma SettledLands(s: System, t: System, base: real)
    requires Steady(s, base) && Open(s, base) && t == Settle(s.(look := t.look)) && (t.look == s.look || t.look.None?)
    ensures Steady(t, base)
  {
    hide Done;
    if s.qty == 0.0 {
      assert Empty(t);
    } else {
      assert t.queue[..|s.queue|] == s.queue;
      assert SettlesAt(t, base, |s.queue|);
      assert Landing(t, base);
    }
  }

  lemma ClosedStep(s: System, e: Event, base: real)
    requires Steady(s, base) && (Done(s) || Empty(s)) && InOrder(s, e)
    ensures Steady(Step(s, e), base) && (!e.Fill? ==> Step(s, e).known == s.known)
  {
    hide Landing;
    var t := Step(s, e);
    if Done(s) {
      assert Done(t);
    } else if e.Fill? {
      EmptyFills(s, e, base);
    } else {
      assert Empty(t);
    }
  }

  /** A fill in time finds no record pending. */
  lemma EmptyFills(s: System, e: Event, base: real)
    requires Steady(s, base) && Empty(s) && e.Fill? && InTime(s, e)
    ensures Steady(Step(s, e), base)
  {
    hide Landing, Done;
    forall i | 0 <= i < |s.queue| ensures Pre(s.queue[i], base, s.known + e.qty) {
      assert Post(s.queue[i], 0.0) && !BringsRecord(s.queue[i]);
    }
    assert Open(Step(s, e), base);
  }

  lemma LandingStep(s: System, e: Event, base: real)
    requires Steady(s, base) && Landing(s, base) && InOrder(s, e)
    ensures Steady(Step(s, e), base) && Step(s, e).known <= s.known
  {
    hide AllPre, AllPost;
    var k: nat :| SettlesAt(s, base, k);
    if (e.Land? || e.Drop?) && k == 0 {
      SettlementArrives(s, e, base);
    } else if e.Land? || e.Drop? {
      EarlierWrite(s, e, base, k);
    } else if e.Restart? {
      SettlementLost(s, base);
    } else {
      LandingGrows(s, e, base, k);
    }
  }

  lemma SettlementLost(s: System, base: real)
    requires Steady(s, base) && Landing(s, base)
    ensures Open(Step(s, Restart), base) && Steady(Step(s, Restart), base) && Step(s, Restart).known <= s.known
  {
  }

  lemma SettlementArrives(s: System, e: Event, base: real)
    requires Steady(s, base) && Landing(s, base) && InOrder(s, e) && SettlesAt(s, base, 0) && (e.Land? || e.Drop?)
    ensures Steady(Step(s, e), base) && Step(s, e).known == s.known
  {
    assert s.queue[0..] == s.queue;
    assert Done(Step(s, e));
  }

  lemma EarlierWrite(s: System, e: Event, base: real, k: nat)
    requires Steady(s, base) && Landing(s, base) && InOrder(s, e) && 0 < k && SettlesAt(s, base, k) && (e.Land? || e.Drop?)
    ensures Steady(Step(s, e), base) && Step(s, e).known == s.known
  {
    hide Done, Open, Empty, InTime, RecordComing;
    var t := Step(s, e);
    assert s.queue[0] == s.queue[..k][0];
    assert Pre(s.queue[0], base, s.known);
    assert t.queue == s.queue[1..];
    assert t.queue[..k - 1] == s.queue[..k][1..];
    assert t.queue[k - 1..] == s.queue[k..];
    assert SettlesAt(t, base, k - 1);
  }

  lemma LandingGrows(s: System, e: Event, base: real, k: nat)
    requires Steady(s, base) && Landing(s, base) && InOrder(s, e) && SettlesAt(s, base, k) && !e.Land? && !e.Drop? && !e.Restart?
    ensures Steady(Step(s, e), base) && Step(s, e).known == s.known
  {
    hide Done, Open, Empty;
    var t := Step(s, e);
    if t.queue != s.queue {
      var w := t.queue[|s.queue|];
      assert t.queue == s.queue + [w] && Post(w, s.known);
      assert t.queue[..k] == s.queue[..k] && t.queue[k..] == s.queue[k..] + [w];
    }
    assert SettlesAt(t, base, k);
  }

  /** Exactly once, across every in-order run with fills and any number of
      restarts: at every moment each contract this process has held is credited
      or held, and a restart there, whatever follows it, credits exactly the
      contracts the stored rows account for. Those are never fewer than were
      stored at the start, and all of them once nothing is on its way and the
      position has been stored. */
  lemma {:induction false} ExactlyOnceInOrder(s: System, es: seq<Event>, base: real)
    requires Steady(s, base) && InOrderRun(s, es)
    ensures var t := Run(s, es);
      && Steady(t, base)
      && t.cash.credited + t.qty == t.known
      && base <= Stored(t.db) <= t.known
      && CreditsExactly(t, Stored(t.db))
      && (t.queue == [] && t.db.qty == t.qty ==> Stored(t.db) == t.known)
    decreases |es|
  {
    hide Steady, CreditsExactly, Step, InOrder;
    if es == [] {
      SteadyReads(s, base);
      ExactlyOnceIff(s, Stored(s.db));
    } else {
      SteadyStep(s, es[0], base);
      ExactlyOnceInOrder(Step(s, es[0]), es[1..], base);
    }
  }

  lemma SteadyReads(s: System, base: real)
    requires Steady(s, base)
    ensures s.cash.credited + s.qty == s.known && base <= Stored(s.db) <= s.known
    ensures s.queue == [] && s.db.qty == s.qty ==> Stored(s.db) == s.known
    ensures SoundRow(s.db, Stored(s.db))
  {
  }

  /** Without fills, every moment of every in-order run from n stored contracts
      has n credited or held, and every schedule after a restart there ends with
      exactly n credited. */
  lemma {:induction false} NothingLostInOrder(s: System, es: seq<Event>, n: real)
    requires Steady(s, n) && s.known == n && InOrderRun(s, es) && NoFills(es)
    ensures var t := Run(s, es); t.cash.credited + t.qty == n && CreditsExactly(t, n)
    decreases |es|
  {
    hide Steady, CreditsExactly, Step, InOrder;
    if es == [] {
      ExactlyOnceInOrder(s, es, n);
    } else {
      SteadyStep(s, es[0], n);
      SteadyReads(Step(s, es[0]), n);
      assert es[0] in es && forall e :: e in es[1..] ==> e in es;
      NothingLostInOrder(Step(s, es[0]), es[1..], n);
    }
  }

  lemma FreshIsSteady(s: System)
    requires Fresh(s)
    ensures Steady(s, s.known)
  {
    assert Open(s, s.known);
  }

  // ---- ghosts ---------------------------------------------------------------------

  /** A position hydrated as held although its payout is in the balance and its
      settlement on record. */
  predicate Ghost(s: System, n: real) {
    n > 0.0 && s.cash.credited == n && s.qty == n && s.db.record && (s.look.Some? ==> s.look.value.held) && (HasRead(s) ==> s.look.value.record.value)
  }

  /** How far the venue pass has come: not looked, looked, read the record. */
  function Stage(s: System): nat { if s.look.None? then 0 else if HasRead(s) then 2 else 1 }

  /** Whether a schedule lets the venue pass finish, look, read and act, before
      the other service settles. */
  predicate PassFirst(es: seq<Event>, stage: nat)
    decreases |es|
  {
    es == []
    || match es[0]
       case AutoSettle => false
       case VenueLook => PassFirst(es[1..], 1)
       case VenueRead => PassFirst(es[1..], if stage == 0 then 0 else 2)
       case VenueAct(_) => stage == 2 || PassFirst(es[1..], stage)
       case _ => PassFirst(es[1..], stage)
  }

  /** The venue pass closes a ghost without paying it; the other service never
      reads the record. On every schedule: the contracts stay credited once if
      and only if the pass comes first, and otherwise are credited twice. */
  lemma {:induction false} GhostOutcomes(s: System, es: seq<Event>, n: real)
    requires Ghost(s, n) && Lifetime(s, es)
    ensures Run(s, es).cash.credited == if PassFirst(es, Stage(s)) then n else 2.0 * n
    decreases |es|
  {
    if es != [] {
      var t := Step(s, es[0]);
      if t.qty == 0.0 {
        ClosedStays(t, es[1..]);
      } else {
        GhostOutcomes(t, es[1..], n);
      }
    }
  }

  lemma {:induction false} ClosedStays(s: System, es: seq<Event>)
    requires s.qty == 0.0 && s.db.record && Lifetime(s, es)
    ensures Run(s, es).cash.credited == s.cash.credited && Run(s, es).qty == 0.0
    decreases |es|
  {
    if es != [] { ClosedStays(Step(s, es[0]), es[1..]); }
  }

  // ---- concrete runs --------------------------------------------------------------

  const HELD := System(Money(0.0, 0.0), 5.0, Row(Money(0.0, 0.0), 5.0, false), [], None, 5.0)
  const PAID := System(Money(0.0, 5.0), 0.0, Row(Money(0.0, 5.0), 5.0, false), [], None, 5.0)
  const TWICE_STORED := System(Money(0.0, 5.0), 0.0, Row(Money(0.0, 5.0), 5.0, true), [], None, 5.0)

  lemma Unroll4(s: System, a: Event, b: Event, c: Event, d: Event, es: seq<Event>)
    ensures Run(s, [a, b, c, d] + es) == Run(Step(Step(Step(Step(s, a), b), c), d), es)
  {
    hide Step;
    assert [a, b, c, d] + es == [a] + ([b] + ([c] + ([d] + es)));
    RunFirst(s, a, [b] + ([c] + ([d] + es)));
    RunFirst(Step(s, a), b, [c] + ([d] + es));
    RunFirst(Step(Step(s, a), b), c, [d] + es);
    RunFirst(Step(Step(Step(s, a), b), c), d, es);
  }

  /** A run whose restart makes a ghost: the settlement is dropped, and then a
      balance and a separate record land. From there the venue pass alone
      recovers, and some schedule of the two services does not. */
  lemma GhostArises()
    ensures Fresh(HELD)
    ensures var t := Run(HELD, [AutoSettle, Drop(0), CaptureBalance, Land(0)] + [AutoSettle, Land(0)]);
      Ghost(Step(t, Restart), 5.0) && VenueCreditsExactly(t, 5.0) && !CreditsExactly(t, 5.0)
  {
    hide Run, CreditsExactly, VenueCreditsExactly;
    var es := [AutoSettle, Land(0)];
    Unroll4(HELD, AutoSettle, Drop(0), CaptureBalance, Land(0), es);
    PaidButUnrecorded();
    RecordLandsAlone();
    assert es == [AutoSettle] + ([Land(0)] + []);
    RunFirst(PAID, AutoSettle, [Land(0)] + []);
    RunFirst(Step(PAID, AutoSettle), Land(0), []);
    RunNothing(TWICE_STORED);
    ExactlyOnceIff(TWICE_STORED, 5.0);
    VenueOnlyIff(TWICE_STORED, 5.0);
  }

  lemma PaidButUnrecorded()
    ensures Step(Step(Step(Step(HELD, AutoSettle), Drop(0)), CaptureBalance), Land(0)) == PAID
  {
  }

  lemma RecordLandsAlone()
    ensures Step(Step(PAID, AutoSettle), Land(0)) == TWICE_STORED
  {
  }

  /** Landing out of order is enough to lose a payout, with nothing dropped: a
      balance captured before the payout lands after it, and no schedule after
      the restart credits anything. */
  lemma ReorderedBalanceLosesPayout()
    ensures var t := Run(HELD, [CaptureBalance, AutoSettle, Land(1), Land(0)]);
      Fresh(HELD) && t.queue == [] && CreditsExactly(t, 0.0) && !VenueCreditsExactly(t, 5.0)
  {
    hide Run, CreditsExactly, VenueCreditsExactly;
    var t := System(Money(0.0, 5.0), 0.0, Row(Money(0.0, 0.0), 0.0, true), [], None, 5.0);
    assert [CaptureBalance, AutoSettle, Land(1), Land(0)] == [CaptureBalance, AutoSettle, Land(1), Land(0)] + [];
    Unroll4(HELD, CaptureBalance, AutoSettle, Land(1), Land(0), []);
    OldBalanceLands();
    RunNothing(t);
    ExactlyOnceIff(t, 0.0);
    VenueOnlyIff(t, 5.0);
  }

  lemma OldBalanceLands()
    ensures Step(Step(Step(Step(HELD, CaptureBalance), AutoSettle), Land(1)), Land(0))
      == System(Money(0.0, 5.0), 0.0, Row(Money(0.0, 0.0), 0.0, true), [], None, 5.0)
  {
  }

  /** A fill made once the settlement is on record: the next venue pass closes it
      without paying, so two of the seven contracts are never credited. */
  lemma LateFillIsClosedUnpaid()
    ensures var t := Run(HELD, [AutoSettle, Land(0), Fill(2.0, 1.0), VenueLook] + [VenueRead, VenueAct(true)]);
      Fresh(HELD) && t.qty == 0.0 && t.known == 7.0 && t.cash.credited == 5.0
  {
    hide Run;
    var es := [VenueRead, VenueAct(true)];
    Unroll4(HELD, AutoSettle, Land(0), Fill(2.0, 1.0), VenueLook, es);
    assert es == [VenueRead] + ([VenueAct(true)] + []);
    var s := Step(Step(Step(Step(HELD, AutoSettle), Land(0)), Fill(2.0, 1.0)), VenueLook);
    RunFirst(s, VenueRead, [VenueAct(true)] + []);
    RunFirst(Step(s, VenueRead), VenueAct(true), []);
    RunNothing(Step(Step(s, VenueRead), VenueAct(true)));
    LateFillSteps();
  }

  lemma LateFillSteps()
    ensures var t := Step(Step(Step(Step(Step(Step(HELD, AutoSettle), Land(0)), Fill(2.0, 1.0)), VenueLook), VenueRead), VenueAct(true));
      t.qty == 0.0 && t.known == 7.0 && t.cash.credited == 5.0
  {
  }
}
