/** Settling groups from their own books: on the venue's word, on retirement, or
    on a price pinned for three polls. */
module AutoSettle {
  import opened Common
  import opened Types
  import opened Ledger
  import opened PaperBroker

  const ASK_THRESHOLD := 0.99
  const CONSECUTIVE_HITS: nat := 3
  const RESOLVED_ASK_THRESHOLD := 0.90

  type Asks = map<Id, Quote>

  datatype Route = Retired | Ended | Pinned

  datatype Settlement = Settlement(group: EventGroup, winner: bool, route: Route)

  predicate Hit(legs: seq<Leg>, book: Asks, threshold: real, side: bool) {
    exists i :: 0 <= i < |legs| && legs[i].isYes == side && legs[i].outcome in book && book[legs[i].outcome].ask >= threshold
  }

  /** The side some leg of which is at the threshold while no leg of the other
      is. */
  function WinningSide(legs: seq<Leg>, book: Asks, threshold: real): Option<bool> {
    var yes, no := Hit(legs, book, threshold, true), Hit(legs, book, threshold, false);
    if yes && !no then Some(true) else if no && !yes then Some(false) else None
  }

  /** Some leg of this side is asked at the threshold or above, and every quoted leg
      of the other below it. */
  predicate NamesAlone(legs: seq<Leg>, book: Asks, threshold: real, side: bool) {
    && (exists leg :: leg in legs && leg.isYes == side && leg.outcome in book && threshold <= book[leg.outcome].ask)
    && forall leg :: leg in legs && leg.isYes != side && leg.outcome in book ==> book[leg.outcome].ask < threshold
  }

  lemma WinnerAlone(legs: seq<Leg>, book: Asks, threshold: real, side: bool)
    ensures WinningSide(legs, book, threshold) == Some(side) <==> NamesAlone(legs, book, threshold, side)
  {
    HitReads(legs, book, threshold, side);
    HitReads(legs, book, threshold, !side);
  }

  lemma HitReads(legs: seq<Leg>, book: Asks, threshold: real, side: bool)
    ensures Hit(legs, book, threshold, side) <==>
      exists leg :: leg in legs && leg.isYes == side && leg.outcome in book && threshold <= book[leg.outcome].ask
  {
    if leg :| leg in legs && leg.isYes == side && leg.outcome in book && threshold <= book[leg.outcome].ask {
      var i :| 0 <= i < |legs| && legs[i] == leg;
    }
  }

  method FindWinningSide(legs: seq<Leg>, book: Asks, threshold: real) returns (side: Option<bool>)
    ensures side == WinningSide(legs, book, threshold)
    ensures forall s :: side == Some(s) <==> NamesAlone(legs, book, threshold, s)
  {
    forall s ensures WinningSide(legs, book, threshold) == Some(s) <==> NamesAlone(legs, book, threshold, s) {
      WinnerAlone(legs, book, threshold, s);
    }
    var yesHit, noHit := false, false;
    for i := 0 to |legs|
      invariant yesHit <==> exists k :: 0 <= k < i && legs[k].isYes == true && legs[k].outcome in book && book[legs[k].outcome].ask >= threshold
      invariant noHit <==> exists k :: 0 <= k < i && legs[k].isYes == false && legs[k].outcome in book && book[legs[k].outcome].ask >= threshold
    {
      if legs[i].outcome !in book {
        continue;
      }
      if book[legs[i].outcome].ask >= threshold {
        if legs[i].isYes { yesHit := true; } else { noHit := true; }
      }
    }
    side := if yesHit && !noHit then Some(true) else if noHit && !yesHit then Some(false) else None;
  }

  // ---- one group --------------------------------------------------------------------------

  /** What the service remembers of one group. */
  datatype Track = Track(seen: Option<EventGroup>, hits: Option<(bool, nat)>, settled: bool, unresolved: bool)

  const FORGOTTEN := Track(None, None, false, false)

  /** From the last known book, stale included: settled if it names a winner, left
      open if not, and never before a known start. */
  function Final(t: Track, g: EventGroup, now: real, last: Asks, route: Route): (Track, Option<Settlement>) {
    if !g.HasStarted(now) then (t, None)
    else
      match WinningSide(g.legs, last, RESOLVED_ASK_THRESHOLD)
      case None => (t.(unresolved := true), None)
      case Some(w) => (t.(settled := true, unresolved := false), Some(Settlement(g, w, route)))
  }

  /** The price route: a hit on the same side as the last extends the streak. */
  function Priced(t: Track, g: EventGroup, live: Asks): (Track, Option<Settlement>) {
    match WinningSide(g.legs, live, ASK_THRESHOLD)
    case None => (t.(hits := None), None)
    case Some(w) =>
      var count := if t.hits.Some? && t.hits.value.0 == w then t.hits.value.1 + 1 else 1;
      if count >= CONSECUTIVE_HITS then (t.(settled := true, hits := None), Some(Settlement(g, w, Pinned)))
      else (t.(hits := Some((w, count))), None)
  }

  /** One poll of one group: `current` is the registry's entry, if any. */
  function Ticked(t: Track, current: Option<EventGroup>, now: real, live: Asks, last: Asks): (Track, Option<Settlement>) {
    if current.None? then
      if t.seen.None? then (t, None)
      else
        var t' := t.(seen := None, hits := None);
        if t.settled then (t', None) else Final(t', t.seen.value, now, last, Retired)
    else
      var g := current.value;
      var t' := t.(seen := Some(g));
      if t.settled then (t', None)
      else if g.ended then Final(t', g, now, last, Ended)
      else if !g.HasStarted(now) then (t'.(hits := None), None)
      else Priced(t', g, live)
  }

  /** Everything the service remembers. */
  datatype Memory = Memory(seen: map<Id, EventGroup>, hits: map<Id, (bool, nat)>, settled: set<Id>, unresolved: set<Id>)
  {
    function Of(g: Id): Track {
      Track(if g in seen then Some(seen[g]) else None, if g in hits then Some(hits[g]) else None, g in settled, g in unresolved)
    }

    /** Groups are filed under their own ids. */
    predicate Valid() { forall g :: g in seen ==> seen[g].id == g }
  }

  /** What one poll reads: the clock, the registry, and the book's fresh and last
      known quotes. */
  datatype Poll = Poll(now: real, registry: map<Id, EventGroup>, live: Asks, last: Asks)
  {
    function Entry(g: Id): Option<EventGroup> { if g in registry then Some(registry[g]) else None }
    predicate Valid() { forall g :: g in registry ==> registry[g].id == g }
  }

  function TickOf(s: Memory, p: Poll, g: Id): (Track, Option<Settlement>) {
    Ticked(s.Of(g), p.Entry(g), p.now, p.live, p.last)
  }

  /** A poll that has dealt with some groups: theirs have moved as the group's own
      rule says, each settlement is reported once, and no other has moved. */
  ghost predicate Polled(s: Memory, s': Memory, p: Poll, dealt: set<Id>, done: seq<Settlement>) {
    && s'.Valid()
    && (forall g :: s'.Of(g) == if g in dealt then TickOf(s, p, g).0 else s.Of(g))
    && (forall d :: d in done ==> d.group.id in dealt && TickOf(s, p, d.group.id).1 == Some(d))
    && (forall g :: g in dealt && TickOf(s, p, g).1.Some? ==> TickOf(s, p, g).1.value in done)
    && (forall i, j :: 0 <= i < j < |done| ==> done[i].group.id != done[j].group.id)
  }

  type Books = map<Id, map<Id, Account>>

  function LegSettled(w: Books, leg: Leg, winner: bool): Books {
    if leg.venue in w then
      w[leg.venue := map a | a in w[leg.venue] :: Settled(w[leg.venue][a], leg.outcome, Payout(leg.isYes, winner))]
    else w
  }

  /** Every leg settled, the winning side's at one and the other's at nothing. */
  function LegsSettled(w: Books, legs: seq<Leg>, winner: bool, n: nat): Books
    requires n <= |legs|
  {
    if n == 0 then w else LegSettled(LegsSettled(w, legs, winner, n - 1), legs[n - 1], winner)
  }

  /** Legs on outcomes of their own. */
  predicate OwnOutcomes(legs: seq<Leg>) {
    forall i, j :: 0 <= i < j < |legs| ==> legs[i].venue != legs[j].venue || legs[i].outcome != legs[j].outcome
  }

  /** What an account holds of the winning side's legs at a venue. */
  function Winning(st: Account, legs: seq<Leg>, v: Id, winner: bool, n: nat): real
    requires n <= |legs|
  {
    if n == 0 then 0.0
    else Winning(st, legs, v, winner, n - 1) + (if legs[n - 1].venue == v && legs[n - 1].isYes == winner then st.Qty(legs[n - 1].outcome) else 0.0)
  }

  predicate Among(legs: seq<Leg>, v: Id, o: Id, n: nat)
    requires n <= |legs|
  {
    exists i :: 0 <= i < n && legs[i].venue == v && legs[i].outcome == o
  }

  /** An account that is paid a dollar for each contract it held of the winning
      side, nothing for the other's, and holds neither any more. */
  ghost predicate PaidTheWinners(st: Account, st': Account, legs: seq<Leg>, v: Id, winner: bool, n: nat)
    requires n <= |legs|
  {
    && st'.cash == st.cash + Winning(st, legs, v, winner, n)
    && forall o: Id :: st'.Qty(o) == if Among(legs, v, o, n) then 0.0 else st.Qty(o)
  }

  lemma {:induction false} LegsPayTheWinners(w: Books, legs: seq<Leg>, winner: bool, n: nat, v: Id, a: Id)
    requires n <= |legs| && OwnOutcomes(legs) && v in w && a in w[v]
    ensures var w' := LegsSettled(w, legs, winner, n);
      v in w' && a in w'[v] && PaidTheWinners(w[v][a], w'[v][a], legs, v, winner, n)
  {
    hide LegSettled;
    if n > 0 {
      LegsPayTheWinners(w, legs, winner, n - 1, v, a);
      var before := LegsSettled(w, legs, winner, n - 1);
      LegPays(before, legs[n - 1], winner, v, a);
      assert !Among(legs, v, legs[n - 1].outcome, n - 1) || legs[n - 1].venue != v;
      forall o: Id ensures Among(legs, v, o, n) <==> Among(legs, v, o, n - 1) || (legs[n - 1].venue == v && legs[n - 1].outcome == o) {
        if Among(legs, v, o, n - 1) { var i :| 0 <= i < n - 1 && legs[i].venue == v && legs[i].outcome == o; }
      }
    }
  }

  lemma LegPays(w: Books, leg: Leg, winner: bool, v: Id, a: Id)
    requires v in w && a in w[v]
    ensures var w' := LegSettled(w, leg, winner);
      && v in w' && a in w'[v]
      && (if leg.venue == v then
            && w'[v][a].cash == w[v][a].cash + (if leg.isYes == winner then w[v][a].Qty(leg.outcome) else 0.0)
            && forall o: Id :: w'[v][a].Qty(o) == if o == leg.outcome then 0.0 else w[v][a].Qty(o)
          else w'[v][a] == w[v][a])
  {
  }

  function AllSettled(w: Books, done: seq<Settlement>, n: nat): Books
    requires n <= |done|
  {
    if n == 0 then w
    else LegsSettled(AllSettled(w, done, n - 1), done[n - 1].group.legs, done[n - 1].winner, |done[n - 1].group.legs|)
  }

  // ---- the service ------------------------------------------------------------------------

  class Service {
    const brokers: map<Id, Broker>
    var seen: map<Id, EventGroup>
    var hits: map<Id, (bool, nat)>
    var settled: set<Id>
    var unresolved: set<Id>

    constructor (brokers: map<Id, Broker>)
      ensures this.brokers == brokers && Now() == Memory(map[], map[], {}, {})
    {
      this.brokers := brokers;
      seen, hits, settled, unresolved := map[], map[], {}, {};
    }

    function Now(): Memory
      reads this
    {
      Memory(seen, hits, settled, unresolved)
    }

    ghost predicate Valid()
      reads this, brokers.Values
    {
      Now().Valid() && forall v :: v in brokers ==> brokers[v].id == v
    }

    ghost function Accounts(): Books
      reads brokers.Values
    {
      map v | v in brokers :: brokers[v].accounts
    }

    method ClearSettled()
      modifies this
      ensures Now() == Memory(map[], map[], {}, {})
      ensures forall h :: Now().Of(h) == Next(old(Now()).Of(h), Clear).0
    {
      seen, hits, settled, unresolved := map[], map[], {}, {};
    }

    /** Settled by another route: never traded, and never settled here. */
    method MarkSettled(g: Id)
      modifies `hits, `settled, `unresolved
      ensures Now() == Marked(old(Now()), g)
      ensures forall h :: Now().Of(h) == if h == g then Next(old(Now()).Of(h), Mark).0 else old(Now()).Of(h)
    {
      settled := settled + {g};
      hits := hits - {g};
      unresolved := unresolved - {g};
    }

    /** Settles every leg's outcome; a venue without a broker is passed over. */
    method SettleGroup(g: EventGroup, winner: bool)
      requires Valid()
      modifies brokers.Values
      ensures Valid() && unchanged(this)
      ensures Accounts() == LegsSettled(old(Accounts()), g.legs, winner, |g.legs|)
      ensures OwnOutcomes(g.legs) ==> GroupPaid(old(Accounts()), Accounts(), g.legs, winner)
    {
      hide LegSettled, Accounts, OwnOutcomes, GroupPaid;
      ghost var w := Accounts();
      if OwnOutcomes(g.legs) { GroupPays(w, g.legs, winner); }
      for i := 0 to |g.legs|
        invariant Valid() && unchanged(this) && Accounts() == LegsSettled(w, g.legs, winner, i)
      {
        SettleLeg(g.legs[i], winner);
      }
    }

    method SettleLeg(leg: Leg, winner: bool)
      requires Valid()
      modifies brokers.Values
      ensures Valid() && unchanged(this)
      ensures Accounts() == LegSettled(old(Accounts()), leg, winner)
    {
      hide Settled;
      if leg.venue in brokers {
        ghost var w := Accounts();
        var _ := brokers[leg.venue].SettleOutcome(leg.outcome, Payout(leg.isYes, winner));
        assert forall v :: v in brokers && v != leg.venue ==> Accounts()[v] == w[v];
        assert brokers[leg.venue].accounts
            == map a | a in w[leg.venue] :: Settled(w[leg.venue][a], leg.outcome, Payout(leg.isYes, winner));
        assert Accounts() == w[leg.venue := brokers[leg.venue].accounts];
      }
    }

    method SettleAndMark(g: EventGroup, winner: bool)
      requires Valid()
      modifies `settled, brokers.Values
      ensures Valid() && Now() == old(Now()).(settled := old(settled) + {g.id})
      ensures Accounts() == LegsSettled(old(Accounts()), g.legs, winner, |g.legs|)
    {
      hide LegsSettled, Accounts;
      SettleGroup(g, winner);
      settled := settled + {g.id};
    }

    /** The last-book route, for a group that ended or was retired. */
    method SettleFinal(g: EventGroup, now: real, last: Asks, route: Route) returns (r: Option<Settlement>)
      requires Valid()
      modifies `settled, `unresolved, brokers.Values
      ensures Valid()
      ensures var (t, x) := Final(old(Now()).Of(g.id), g, now, last, route); Now().Of(g.id) == t && r == x
      ensures forall h :: h != g.id ==> Now().Of(h) == old(Now()).Of(h)
      ensures Accounts() == Paid(old(Accounts()), r)
    {
      hide LegsSettled, WinningSide, Accounts;
      if !g.HasStarted(now) {
        return None;
      }
      var winner := FindWinningSide(g.legs, last, RESOLVED_ASK_THRESHOLD);
      if winner.None? {
        unresolved := unresolved + {g.id};
        return None;
      }
      SettleAndMark(g, winner.value);
      unresolved := unresolved - {g.id};
      return Some(Settlement(g, winner.value, route));
    }

    method RetireOne(g: Id, p: Poll) returns (r: Option<Settlement>)
      requires Valid() && g in seen && p.Entry(g).None?
      modifies this, brokers.Values
      ensures Valid()
      ensures var (t, x) := TickOf(old(Now()), p, g); Now().Of(g) == t && r == x
      ensures forall h :: h != g ==> Now().Of(h) == old(Now()).Of(h)
      ensures Accounts() == Paid(old(Accounts()), r)
    {
      hide Final, Paid;
      var group := seen[g];
      seen := seen - {g};
      hits := hits - {g};
      PaidNothing(Accounts());
      r := None;
      if g !in settled {
        r := SettleFinal(group, p.now, p.last, Retired);
      }
    }

    method PollOne(g: Id, p: Poll) returns (r: Option<Settlement>)
      requires Valid() && p.Valid() && g in p.registry
      modifies this, brokers.Values
      ensures Valid()
      ensures var (t, x) := TickOf(old(Now()), p, g); Now().Of(g) == t && r == x
      ensures forall h :: h != g ==> Now().Of(h) == old(Now()).Of(h)
      ensures Accounts() == Paid(old(Accounts()), r)
    {
      hide Final, Priced, PricedIn, Paid, Accounts, Memory.Of, TickOf;
      PaidNothing(Accounts());
      var group := p.registry[g];
      RegisteredTick(Now(), p, g);
      seen := seen[g := group];
      if g in settled {
        return None;
      }
      if group.ended {
        r := SettleFinal(group, p.now, p.last, Ended);
        return;
      }
      if !group.HasStarted(p.now) {
        hits := hits - {g};
        return None;
      }
      PricedReads(Now(), group, p.live);
      r := PollPrice(group, p.live);
    }

    /** The price route, for a group that may have a result to read. */
    method PollPrice(g: EventGroup, live: Asks) returns (r: Option<Settlement>)
      requires Valid()
      modifies `hits, `settled, brokers.Values
      ensures Valid()
      ensures (Now(), r) == PricedIn(old(Now()), g, live)
      ensures Accounts() == Paid(old(Accounts()), r)
    {
      hide LegsSettled, WinningSide, Accounts, Memory.Of;
      var winner := FindWinningSide(g.legs, live, ASK_THRESHOLD);
      if winner.None? {
        hits := hits - {g.id};
        return None;
      }
      var (prevSide, prevCount) := if g.id in hits then hits[g.id] else (winner.value, 0);
      if prevSide != winner.value {
        prevCount := 0;
      }
      hits := hits[g.id := (winner.value, prevCount + 1)];
      if prevCount + 1 >= CONSECUTIVE_HITS {
        SettleAndMark(g, winner.value);
        hits := hits - {g.id};
        return Some(Settlement(g, winner.value, Pinned));
      }
      return None;
    }

    /** One poll: retired groups first, then every registered one. */
    method Tick(p: Poll) returns (done: seq<Settlement>)
      requires Valid() && p.Valid()
      modifies this, brokers.Values
      ensures Valid()
      ensures Polled(old(Now()), Now(), p, old(seen).Keys + p.registry.Keys, done)
      ensures Accounts() == AllSettled(old(Accounts()), done, |done|)
    {
      hide TickOf, Polled, AllSettled, Paid, Accounts;
      ghost var s, w := Now(), Accounts();
      done := [];
      NoneDealt(s, p, w);
      var rest := seen.Keys - p.registry.Keys;
      ghost var dealt: set<Id> := {};
      while rest != {}
        invariant Valid() && Polled(s, Now(), p, dealt, done) && Accounts() == AllSettled(w, done, |done|)
        invariant dealt + rest == s.seen.Keys - p.registry.Keys && dealt !! rest
      {
        var g :| g in rest;
        rest := rest - {g};
        StillSeen(s, Now(), p, dealt, done, g);
        ghost var before := Now();
        var r := RetireOne(g, p);
        OneDealt(s, before, Now(), p, dealt, done, g, r, w);
        done := done + (if r.Some? then [r.value] else []);
        dealt := dealt + {g};
      }
      rest := p.registry.Keys;
      while rest != {}
        invariant Valid() && Polled(s, Now(), p, dealt, done) && Accounts() == AllSettled(w, done, |done|)
        invariant dealt + rest == s.seen.Keys + p.registry.Keys && dealt !! rest && rest <= p.registry.Keys
      {
        var g :| g in rest;
        rest := rest - {g};
        ghost var before := Now();
        var r := PollOne(g, p);
        OneDealt(s, before, Now(), p, dealt, done, g, r, w);
        done := done + (if r.Some? then [r.value] else []);
        dealt := dealt + {g};
      }
      assert dealt == s.seen.Keys + p.registry.Keys;
    }
  }

  /** One poll of a registered group, on everything the service remembers: the
      entry is noted, and then the group is passed over, settled from the last
      book, reset, or priced. */
  lemma RegisteredTick(s: Memory, p: Poll, g: Id)
    requires s.Valid() && p.Valid() && g in p.registry
    ensures var group, noted := p.registry[g], s.(seen := s.seen[g := p.registry[g]]);
      && group.id == g && noted.Valid()
      && (forall h :: h != g ==> noted.Of(h) == s.Of(h) && noted.(hits := noted.hits - {g}).Of(h) == s.Of(h))
      && TickOf(s, p, g) ==
           if g in s.settled then (noted.Of(g), None)
           else if group.ended then Final(noted.Of(g), group, p.now, p.last, Ended)
           else if !group.HasStarted(p.now) then (noted.(hits := noted.hits - {g}).Of(g), None)
           else Priced(noted.Of(g), group, p.live)
  {
    hide Final, Priced;
  }

  /** The price route on everything the service remembers. */
  function PricedIn(s: Memory, g: EventGroup, live: Asks): (Memory, Option<Settlement>) {
    match WinningSide(g.legs, live, ASK_THRESHOLD)
    case None => (s.(hits := s.hits - {g.id}), None)
    case Some(w) =>
      var count := if g.id in s.hits && s.hits[g.id].0 == w then s.hits[g.id].1 + 1 else 1;
      var counted := s.hits[g.id := (w, count)];
      if count >= CONSECUTIVE_HITS then
        (s.(hits := counted - {g.id}, settled := s.settled + {g.id}), Some(Settlement(g, w, Pinned)))
      else (s.(hits := counted), None)
  }

  lemma PricedReads(s: Memory, g: EventGroup, live: Asks)
    ensures var (s', r) := PricedIn(s, g, live);
      && (s'.Of(g.id), r) == Priced(s.Of(g.id), g, live)
      && (forall h :: h != g.id ==> s'.Of(h) == s.Of(h))
  {
    hide WinningSide;
  }

  function Marked(s: Memory, g: Id): Memory {
    s.(settled := s.settled + {g}, hits := s.hits - {g}, unresolved := s.unresolved - {g})
  }

  /** Every account is paid for the winning side of a group, and only for that. */
  ghost predicate GroupPaid(w: Books, w': Books, legs: seq<Leg>, winner: bool) {
    forall v, a :: v in w && a in w[v] ==> v in w' && a in w'[v] && PaidTheWinners(w[v][a], w'[v][a], legs, v, winner, |legs|)
  }

  lemma GroupPays(w: Books, legs: seq<Leg>, winner: bool)
    requires OwnOutcomes(legs)
    ensures GroupPaid(w, LegsSettled(w, legs, winner, |legs|), legs, winner)
  {
    hide LegsSettled, PaidTheWinners;
    forall v, a | v in w && a in w[v]
      ensures var w' := LegsSettled(w, legs, winner, |legs|); v in w' && a in w'[v] && PaidTheWinners(w[v][a], w'[v][a], legs, v, winner, |legs|)
    {
      LegsPayTheWinners(w, legs, winner, |legs|, v, a);
    }
  }

  function Paid(w: Books, r: Option<Settlement>): Books {
    if r.None? then w else LegsSettled(w, r.value.group.legs, r.value.winner, |r.value.group.legs|)
  }

  lemma PaidNothing(w: Books)
    ensures Paid(w, None) == w
  {
  }

  lemma NoneDealt(s: Memory, p: Poll, w: Books)
    requires s.Valid()
    ensures Polled(s, s, p, {}, []) && AllSettled(w, [], 0) == w
  {
  }

  lemma StillSeen(s: Memory, s': Memory, p: Poll, dealt: set<Id>, done: seq<Settlement>, g: Id)
    requires Polled(s, s', p, dealt, done) && g !in dealt && g in s.seen && g !in p.registry
    ensures g in s'.seen && p.Entry(g).None?
  {
  }

  lemma SettlesItself(s: Memory, p: Poll, g: Id)
    requires s.Valid() && p.Valid()
    ensures TickOf(s, p, g).1.Some? ==> TickOf(s, p, g).1.value.group.id == g
  {
  }

  lemma OneDealt(s: Memory, b: Memory, s': Memory, p: Poll, dealt: set<Id>, done: seq<Settlement>, g: Id, r: Option<Settlement>, w: Books)
    requires s.Valid() && p.Valid() && s'.Valid() && Polled(s, b, p, dealt, done) && g !in dealt
    requires (s'.Of(g), r) == TickOf(b, p, g) && forall h :: h != g ==> s'.Of(h) == b.Of(h)
    ensures var more := done + (if r.Some? then [r.value] else []);
      && Polled(s, s', p, dealt + {g}, more)
      && AllSettled(w, more, |more|) == Paid(AllSettled(w, done, |done|), r)
  {
    hide Ticked, LegsSettled;
    assert b.Of(g) == s.Of(g);
    assert TickOf(b, p, g) == TickOf(s, p, g);
    SettlesItself(s, p, g);
    var more := done + (if r.Some? then [r.value] else []);
    assert forall d :: d in more <==> d in done || r == Some(d);
    AllSettledPrefix(w, done, more, |done|);
  }

  lemma {:induction false} AllSettledPrefix(w: Books, done: seq<Settlement>, more: seq<Settlement>, n: nat)
    requires done <= more && n <= |done|
    ensures AllSettled(w, more, n) == AllSettled(w, done, n)
  {
    hide LegsSettled;
    if n > 0 { AllSettledPrefix(w, done, more, n - 1); }
  }

  // ---- every run of one group -----------------------------------------------------------------

  /** A poll as one group sees it, or news from elsewhere. */
  datatype Event =
    | Tick(current: Option<EventGroup>, now: real, live: Asks, last: Asks)
    | Mark
    | Clear

  function Next(t: Track, e: Event): (Track, Option<Settlement>) {
    match e
    case Tick(current, now, live, last) => Ticked(t, current, now, live, last)
    case Mark => (t.(settled := true, hits := None, unresolved := false), None)
    case Clear => (FORGOTTEN, None)
  }

  function Settlements(t: Track, es: seq<Event>): seq<Settlement>
    decreases |es|
  {
    if es == [] then []
    else
      var (t', r) := Next(t, es[0]);
      (if r.Some? then [r.value] else []) + Settlements(t', es[1..])
  }

  lemma SettledStays(t: Track, e: Event)
    requires t.settled && !e.Clear?
    ensures Next(t, e).0.settled && Next(t, e).1.None?
  {
  }

  lemma {:induction false} NothingAfterSettled(t: Track, es: seq<Event>)
    requires t.settled && forall e :: e in es ==> !e.Clear?
    ensures Settlements(t, es) == []
    decreases |es|
  {
    hide Next;
    if es != [] {
      SettledStays(t, es[0]);
      NothingAfterSettled(Next(t, es[0]).0, es[1..]);
    }
  }

  lemma SettlingMarks(t: Track, e: Event)
    ensures Next(t, e).1.Some? ==> Next(t, e).0.settled
  {
  }

  /** Between clears, over every sequence of polls and news, a group is settled at
      most once. */
  lemma {:induction false} SettledAtMostOnce(t: Track, es: seq<Event>)
    requires forall e :: e in es ==> !e.Clear?
    ensures |Settlements(t, es)| <= 1
    ensures t.settled ==> Settlements(t, es) == []
    decreases |es|
  {
    hide Next;
    if es != [] {
      SettlingMarks(t, es[0]);
      if t.settled { SettledStays(t, es[0]); }
      SettledAtMostOnce(Next(t, es[0]).0, es[1..]);
    }
  }

  /** What every settlement rests on: a game that has started, and a book that
      names a sole winner at the route's threshold. */
  predicate Grounded(e: Event, r: Settlement) {
    && e.Tick?
    && (r.group.start.Some? ==> r.group.start.value <= e.now)
    && (match r.route
        case Pinned => e.current == Some(r.group) && !r.group.ended && NamesAlone(r.group.legs, e.live, ASK_THRESHOLD, r.winner)
        case Ended => e.current == Some(r.group) && r.group.ended && NamesAlone(r.group.legs, e.last, RESOLVED_ASK_THRESHOLD, r.winner)
        case Retired => e.current.None? && NamesAlone(r.group.legs, e.last, RESOLVED_ASK_THRESHOLD, r.winner))
  }

  lemma SettlesGrounded(t: Track, e: Event)
    ensures var r := Next(t, e).1;
      r.Some? ==> !t.settled && Grounded(e, r.value) && (r.value.route.Retired? ==> t.seen == Some(r.value.group))
  {
    hide WinningSide, NamesAlone;
    forall legs, book, threshold, side ensures WinningSide(legs, book, threshold) == Some(side) <==> NamesAlone(legs, book, threshold, side) {
      WinnerAlone(legs, book, threshold, side);
    }
  }

  predicate Shows(e: Event, g: EventGroup) { e.Tick? && e.current == Some(g) }

  /** A settlement some event of a run grounds; a retired group is one the registry
      showed before. */
  ghost predicate Rests(es: seq<Event>, r: Settlement) {
    exists i :: 0 <= i < |es| && Grounded(es[i], r) && (r.route.Retired? ==> exists j :: 0 <= j < i && Shows(es[j], r.group))
  }

  ghost predicate SeenIn(t: Track, past: seq<Event>) {
    t.seen.Some? ==> exists j :: 0 <= j < |past| && Shows(past[j], t.seen.value)
  }

  lemma SeenStep(t: Track, e: Event, past: seq<Event>)
    requires SeenIn(t, past)
    ensures SeenIn(Next(t, e).0, past + [e])
  {
    hide WinningSide;
    var t' := Next(t, e).0;
    if t'.seen.Some? {
      if e.Tick? && e.current.Some? {
        assert Shows((past + [e])[|past|], t'.seen.value);
      } else {
        var j :| 0 <= j < |past| && Shows(past[j], t.seen.value);
        assert (past + [e])[j] == past[j];
      }
    }
  }

  /** In every run, each settlement rests on an event of that run: a game started,
      and a book naming its winner alone at the route's threshold. */
  lemma {:induction false} RunIsGrounded(t: Track, past: seq<Event>, es: seq<Event>)
    requires SeenIn(t, past)
    ensures forall r :: r in Settlements(t, es) ==> Rests(past + es, r)
    decreases |es|
  {
    hide Next, SeenIn, Grounded;
    if es != [] {
      var e, t' := es[0], Next(t, es[0]).0;
      SeenStep(t, e, past);
      RunIsGrounded(t', past + [e], es[1..]);
      assert past + [e] + es[1..] == past + es;
      FirstRests(t, past, es);
    }
  }

  lemma FirstRests(t: Track, past: seq<Event>, es: seq<Event>)
    requires SeenIn(t, past) && es != []
    ensures var r := Next(t, es[0]).1; r.Some? ==> Rests(past + es, r.value)
  {
    hide Next, Grounded;
    SettlesGrounded(t, es[0]);
    var r := Next(t, es[0]).1;
    if r.Some? {
      assert (past + es)[|past|] == es[0];
      if r.value.route.Retired? {
        var j :| 0 <= j < |past| && Shows(past[j], t.seen.value);
        assert (past + es)[j] == past[j];
      }
    }
  }

  /** Whether a poll reads the group's price, and what it reads. */
  predicate Evaluates(t: Track, e: Event) {
    e.Tick? && e.current.Some? && !t.settled && !e.current.value.ended
    && (e.current.value.start.Some? ==> e.current.value.start.value <= e.now)
  }

  function Read(e: Event): Option<bool>
    requires e.Tick? && e.current.Some?
  {
    WinningSide(e.current.value.legs, e.live, ASK_THRESHOLD)
  }

  function ReadingOf(t: Track, e: Event): seq<Option<bool>> { if Evaluates(t, e) then [Read(e)] else [] }

  /** Whether an event starts a streak afresh: news from elsewhere, retirement, or
      a game found not to have started. */
  predicate Resets(t: Track, e: Event) {
    match e
    case Tick(current, now, _, _) =>
      if current.None? then t.seen.Some? else !t.settled && !current.value.ended && current.value.start.Some? && now < current.value.start.value
    case _ => true
  }

  function Trailed(t: Track, rs: seq<Option<bool>>, e: Event): seq<Option<bool>> {
    if Resets(t, e) then [] else rs + ReadingOf(t, e)
  }

  /** The price readings of a run since the last such event, oldest first. */
  function Trail(t: Track, rs: seq<Option<bool>>, es: seq<Event>): seq<Option<bool>>
    decreases |es|
  {
    if es == [] then rs else Trail(Next(t, es[0]).0, Trailed(t, rs, es[0]), es[1..])
  }

  function Run(t: Track, es: seq<Event>): Track
    decreases |es|
  {
    if es == [] then t else Run(Next(t, es[0]).0, es[1..])
  }

  /** How many readings of one side a list ends in. */
  function Streak(rs: seq<Option<bool>>, side: bool): nat
    decreases |rs|
  {
    if rs == [] || rs[|rs| - 1] != Some(side) then 0 else Streak(rs[..|rs| - 1], side) + 1
  }

  /** The streak remembered is the one the readings end in. */
  ghost predicate Streaks(t: Track, rs: seq<Option<bool>>) {
    t.settled
    || (match t.hits
        case None => rs == [] || rs[|rs| - 1] == None
        case Some((side, n)) => 0 < n < CONSECUTIVE_HITS && Streak(rs, side) == n)
  }

  lemma StreakStep(t: Track, e: Event, rs: seq<Option<bool>>)
    requires Streaks(t, rs)
    ensures Streaks(Next(t, e).0, Trailed(t, rs, e))
    ensures var r := Next(t, e).1;
      (r.Some? && r.value.route.Pinned? <==>
         Evaluates(t, e) && Read(e).Some? && Streak(rs + [Read(e)], Read(e).value) >= CONSECUTIVE_HITS)
  {
    hide WinningSide;
    if Evaluates(t, e) { ReadingAdds(t, e, rs); } else { assert rs + [] == rs; }
  }

  lemma ReadingAdds(t: Track, e: Event, rs: seq<Option<bool>>)
    requires Streaks(t, rs) && Evaluates(t, e)
    ensures var g, more := e.current.value, rs + [Read(e)];
      var (t', r) := Priced(t.(seen := e.current), g, e.live);
      && (r.Some? <==> Read(e).Some? && Streak(more, Read(e).value) >= CONSECUTIVE_HITS)
      && Streaks(t', more)
  {
    hide WinningSide;
    assert (rs + [Read(e)])[..|rs|] == rs;
  }

  lemma {:induction false} StreakRun(t: Track, es: seq<Event>, rs: seq<Option<bool>>)
    requires Streaks(t, rs)
    ensures Streaks(Run(t, es), Trail(t, rs, es))
    decreases |es|
  {
    hide Next, Trailed, Streaks;
    if es != [] {
      StreakStep(t, es[0], rs);
      StreakRun(Next(t, es[0]).0, es[1..], Trailed(t, rs, es[0]));
    }
  }

  /** The price route, over every run from a fresh service: a poll settles a group
      on price if and only if it reads the price of an open group and that reading
      is at least the third in a row, since the streak last started afresh, to name
      the same side alone. */
  lemma PinnedExactly(before: seq<Event>, e: Event)
    ensures var t, trail := Run(FORGOTTEN, before), Trail(FORGOTTEN, [], before);
      var r := Next(t, e).1;
      (r.Some? && r.value.route.Pinned?)
        <==> (Evaluates(t, e) && Read(e).Some? && Streak(trail + [Read(e)], Read(e).value) >= CONSECUTIVE_HITS)
  {
    hide Next, Streak;
    assert Streaks(FORGOTTEN, []);
    StreakRun(FORGOTTEN, before, []);
    StreakStep(Run(FORGOTTEN, before), e, Trail(FORGOTTEN, [], before));
  }

  // ---- the book routes --------------------------------------------------------------------------

  lemma {:induction false} RunSnoc(t: Track, es: seq<Event>, e: Event)
    ensures Run(t, es + [e]) == Next(Run(t, es), e).0
    decreases |es|
  {
    hide Next;
    if es == [] {
      assert es + [e] == [e];
    } else {
      assert (es + [e])[1..] == es[1..] + [e];
      RunSnoc(Next(t, es[0]).0, es[1..], e);
    }
  }

  /** The group as the registry last showed it to a poll, if it was there at the
      latest poll and nothing was cleared since. */
  ghost predicate LastShown(es: seq<Event>, g: EventGroup) {
    exists i :: 0 <= i < |es| && Shows(es[i], g) && forall j :: i < j < |es| ==> es[j].Mark?
  }

  /** A settlement or a mark since the last clear. */
  ghost predicate Closed(es: seq<Event>) {
    exists i :: 0 <= i < |es| && Closes(es, i) && forall j :: i < j < |es| ==> !es[j].Clear?
  }

  ghost predicate Closes(es: seq<Event>, i: nat)
    requires i < |es|
  {
    es[i].Mark? || Next(Run(FORGOTTEN, es[..i]), es[i]).1.Some?
  }

  /** What a fresh service remembers after any run: the group last shown, and that
      it is settled exactly when a settlement or a mark was not cleared since. */
  lemma {:induction false} RemembersExactly(es: seq<Event>, g: EventGroup)
    ensures Run(FORGOTTEN, es).seen == Some(g) <==> LastShown(es, g)
    ensures Run(FORGOTTEN, es).settled <==> Closed(es)
  {
    if es != [] {
      var n := |es| - 1;
      var past, e := es[..n], es[n];
      assert es == past + [e];
      RunSnoc(FORGOTTEN, past, e);
      RemembersExactly(past, g);
      ShownNext(past, e, g);
      ClosedNext(past, e);
      RemembersNext(Run(FORGOTTEN, past), e);
    }
  }

  lemma RemembersNext(t: Track, e: Event)
    ensures Next(t, e).0.seen == if e.Clear? then None else if e.Mark? then t.seen else e.current
    ensures Next(t, e).0.settled == (e.Mark? || (!e.Clear? && (t.settled || Next(t, e).1.Some?)))
    ensures e.Clear? ==> Next(t, e).1.None?
  {
    hide WinningSide;
  }

  lemma ShownNext(past: seq<Event>, e: Event, g: EventGroup)
    ensures LastShown(past + [e], g) <==> Shows(e, g) || (e.Mark? && LastShown(past, g))
  {
    var es := past + [e];
    assert es[|past|] == e && forall i :: 0 <= i < |past| ==> es[i] == past[i];
    if Shows(e, g) { assert Shows(es[|past|], g); }
    if e.Mark? && LastShown(past, g) {
      var i :| 0 <= i < |past| && Shows(past[i], g) && forall j :: i < j < |past| ==> past[j].Mark?;
      assert Shows(es[i], g) && forall j :: i < j < |es| ==> es[j].Mark?;
    }
  }

  lemma ClosedNext(past: seq<Event>, e: Event)
    ensures Closed(past + [e]) <==>
              e.Mark? || Next(Run(FORGOTTEN, past), e).1.Some? || (!e.Clear? && Closed(past))
  {
    hide Next;
    var es, n := past + [e], |past|;
    assert es[n] == e && es[..n] == past;
    forall i: nat | i < n ensures es[i] == past[i] && es[..i] == past[..i] {}
    assert Closes(es, n) <==> e.Mark? || Next(Run(FORGOTTEN, past), e).1.Some?;
    assert forall i: nat :: i < n ==> (Closes(es, i) <==> Closes(past, i));
    if !e.Clear? && Closed(past) {
      var i :| 0 <= i < |past| && Closes(past, i) && forall j :: i < j < |past| ==> !past[j].Clear?;
      assert Closes(es, i) && forall j :: i < j < |es| ==> !es[j].Clear?;
    }
  }

  /** The group a poll would settle from the last known book: one the registry says
      has ended, or one that has left the registry since the last poll. */
  ghost predicate IsOver(before: seq<Event>, e: Event, g: EventGroup) {
    && e.Tick?
    && (if e.current.Some? then e.current == Some(g) && g.ended else LastShown(before, g))
    && (g.start.Some? ==> g.start.value <= e.now)
  }

  /** The book routes, over every run from a fresh service: a poll settles a group on
      its last known book if and only if the group is not settled, is over by then,
      and that book names its winner alone. A group over with no such winner is left
      open. */
  lemma BookExactly(before: seq<Event>, e: Event, g: EventGroup, w: bool)
    ensures var r := Next(Run(FORGOTTEN, before), e).1;
      (r.Some? && !r.value.route.Pinned? && r.value.group == g && r.value.winner == w)
        <==> (!Closed(before) && IsOver(before, e, g) && NamesAlone(g.legs, e.last, RESOLVED_ASK_THRESHOLD, w))
    ensures !Closed(before) && IsOver(before, e, g) ==>
      (Run(FORGOTTEN, before + [e]).unresolved <==> !exists side :: NamesAlone(g.legs, e.last, RESOLVED_ASK_THRESHOLD, side))
  {
    RemembersExactly(before, g);
    RunSnoc(FORGOTTEN, before, e);
    hide Run, LastShown, Closed, NamesAlone, WinningSide;
    if e.Tick? {
      forall side ensures WinningSide(g.legs, e.last, RESOLVED_ASK_THRESHOLD) == Some(side) <==> NamesAlone(g.legs, e.last, RESOLVED_ASK_THRESHOLD, side) {
        WinnerAlone(g.legs, e.last, RESOLVED_ASK_THRESHOLD, side);
      }
    }
    var t := Run(FORGOTTEN, before);
    assert t.seen == Some(g) <==> LastShown(before, g);
  }
}
