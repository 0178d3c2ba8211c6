/** The in-memory top-of-book cache: quotes stamped by age, a guard against
    replayed snapshots, and expiry. */
module QuoteBook {
  import opened Common
  import opened Types

  const REGRESSION_TOLERANCE := 5.0

  /** A quote and the moment it was current: arrival, back-dated by how far
      behind the venue said the book already was. */
  datatype Entry = Entry(quote: Quote, at: real)

  type Entries = map<Id, Entry>

  predicate Stale(maxAge: Option<real>, at: real, now: real) { maxAge.Some? && now - at > maxAge.value }

  function StampOf(quote: Quote, now: real): real {
    if quote.age.Some? && quote.age.value > 0.0 then now - quote.age.value else now
  }

  function Upserted(b: Entries, quote: Quote, now: real): Entries {
    var at := StampOf(quote, now);
    if quote.outcome in b && at < b[quote.outcome].at - REGRESSION_TOLERANCE then b
    else b[quote.outcome := Entry(quote, at)]
  }

  function Fetched(b: Entries, maxAge: Option<real>, o: Id, now: real): Option<Quote> {
    if o !in b || Stale(maxAge, b[o].at, now) then None else Some(b[o].quote)
  }

  function Fresh(b: Entries, maxAge: Option<real>, now: real): map<Id, Quote> {
    map o | o in b && !Stale(maxAge, b[o].at, now) :: b[o].quote
  }

  function WithAge(b: Entries, o: Id, now: real): Option<(Quote, real)> {
    if o in b then Some((b[o].quote, now - b[o].at)) else None
  }

  function Purged(b: Entries, maxAge: Option<real>, now: real): Entries {
    map o | o in b && !Stale(maxAge, b[o].at, now) :: b[o]
  }

  class Book {
    const maxAge: Option<real>
    var quotes: Entries

    constructor (maxAge: Option<real>)
      ensures this.maxAge == maxAge && quotes == map[]
    {
      this.maxAge := maxAge;
      quotes := map[];
    }

    method Upsert(quote: Quote, now: real)
      modifies this
      ensures quotes == Upserted(old(quotes), quote, now)
    {
      var at := now;
      if quote.age.Some? && quote.age.value > 0.0 {
        at := at - quote.age.value;
      }
      if quote.outcome in quotes && at < quotes[quote.outcome].at - REGRESSION_TOLERANCE {
        return;
      }
      quotes := quotes[quote.outcome := Entry(quote, at)];
    }

    method Get(o: Id, now: real) returns (q: Option<Quote>)
      ensures q == Fetched(quotes, maxAge, o, now)
    {
      if o !in quotes {
        return None;
      }
      var entry := quotes[o];
      if Stale(maxAge, entry.at, now) {
        return None;
      }
      return Some(entry.quote);
    }

    method GetWithAge(o: Id, now: real) returns (q: Option<(Quote, real)>)
      ensures q == WithAge(quotes, o, now)
    {
      if o !in quotes {
        return None;
      }
      return Some((quotes[o].quote, now - quotes[o].at));
    }

    method Snapshot(now: real) returns (quoted: map<Id, Quote>)
      ensures quoted == Fresh(quotes, maxAge, now)
    {
      quoted := map o | o in quotes && !Stale(maxAge, quotes[o].at, now) :: quotes[o].quote;
    }

    method PurgeStale(now: real) returns (removed: nat)
      modifies this
      ensures quotes == Purged(old(quotes), maxAge, now)
      ensures removed == |old(quotes).Keys - quotes.Keys|
    {
      hide Purged;
      var dead := set o | o in quotes && Stale(maxAge, quotes[o].at, now);
      removed := |dead|;
      var rest := dead;
      ghost var before := quotes;
      while rest != {}
        invariant rest <= dead <= before.Keys
        invariant quotes == before - (dead - rest)
      {
        var o :| o in rest;
        DropOne(before, dead, rest, o);
        rest := rest - {o};
        quotes := quotes - {o};
      }
      DropAll(before, maxAge, now, dead);
    }
  }

  lemma DropOne(b: Entries, dead: set<Id>, rest: set<Id>, o: Id)
    requires rest <= dead && o in rest
    ensures b - (dead - rest) - {o} == b - (dead - (rest - {o}))
  {
  }

  lemma DropAll(b: Entries, maxAge: Option<real>, now: real, dead: set<Id>)
    requires dead == set o | o in b && Stale(maxAge, b[o].at, now)
    ensures b - (dead - {}) == Purged(b, maxAge, now)
    ensures b.Keys - Purged(b, maxAge, now).Keys == dead
  {
  }

  /** How far behind the venue said the book was when the quote was sent. */
  function Lag(quote: Quote): real { if quote.age.None? || quote.age.value <= 0.0 then 0.0 else quote.age.value }

  /** A quote new to the book is as old, at every later moment, as the time since it
      arrived and the lag it came with; and it trades exactly until that passes
      the limit. */
  lemma LagCounts(b: Entries, maxAge: Option<real>, quote: Quote, now: real, later: real)
    requires quote.outcome !in b
    ensures var b', o := Upserted(b, quote, now), quote.outcome;
      && WithAge(b', o, later) == Some((quote, later - now + Lag(quote)))
      && (Fetched(b', maxAge, o, later).None? <==> maxAge.Some? && later - now + Lag(quote) > maxAge.value)
      && (Fetched(b', maxAge, o, later).Some? ==> Fetched(b', maxAge, o, later).value == quote)
  {
  }

  /** A quote for a stored outcome is refused exactly when, its lag counted, it is
      from before the stored one by more than the tolerance. */
  lemma RefusedExactly(b: Entries, quote: Quote, now: real)
    requires quote.outcome in b
    ensures Upserted(b, quote, now)[quote.outcome]
         == if now - Lag(quote) < b[quote.outcome].at - REGRESSION_TOLERANCE then b[quote.outcome] else Entry(quote, now - Lag(quote))
  {
  }

  /** The trading read, the snapshot and the purge all go by the age the reporting
      read gives: past the limit an entry is not traded, not in the snapshot and
      dropped. */
  lemma AllGoByAge(b: Entries, maxAge: Option<real>, o: Id, now: real)
    ensures var seen := WithAge(b, o, now);
      var live := seen.Some? && (maxAge.Some? ==> seen.value.1 <= maxAge.value);
      && (Fetched(b, maxAge, o, now) == if live then Some(seen.value.0) else None)
      && (o in Fresh(b, maxAge, now) <==> live) && (live ==> Fresh(b, maxAge, now)[o] == seen.value.0)
      && (o in Purged(b, maxAge, now) <==> live) && (live ==> Purged(b, maxAge, now)[o] == b[o])
  {
  }

  // ---- a book that purges against one that never does ---------------------------------

  datatype Call =
    | Upsert(quote: Quote)
    | Get(outcome: Id)
    | Snapshot
    | Purge

  datatype Timed = Timed(now: real, call: Call)

  datatype Answer = Silent | Got(quote: Option<Quote>) | Snapped(quoted: map<Id, Quote>)

  function After(b: Entries, maxAge: Option<real>, purges: bool, c: Timed): Entries {
    match c.call
    case Upsert(q) => Upserted(b, q, c.now)
    case Purge => if purges then Purged(b, maxAge, c.now) else b
    case _ => b
  }

  function AnswerOf(b: Entries, maxAge: Option<real>, c: Timed): Answer {
    match c.call
    case Get(o) => Got(Fetched(b, maxAge, o, c.now))
    case Snapshot => Snapped(Fresh(b, maxAge, c.now))
    case _ => Silent
  }

  function Answers(b: Entries, maxAge: Option<real>, purges: bool, cs: seq<Timed>): seq<Answer>
    decreases |cs|
  {
    if cs == [] then [] else [AnswerOf(b, maxAge, cs[0])] + Answers(After(b, maxAge, purges, cs[0]), maxAge, purges, cs[1..])
  }

  function Run(b: Entries, maxAge: Option<real>, purges: bool, cs: seq<Timed>): Entries
    decreases |cs|
  {
    if cs == [] then b else Run(After(b, maxAge, purges, cs[0]), maxAge, purges, cs[1..])
  }

  /** A monotonic clock, from `from` on. */
  predicate Monotonic(from: real, cs: seq<Timed>)
    decreases |cs|
  {
    cs == [] || (from <= cs[0].now && Monotonic(cs[0].now, cs[1..]))
  }

  /** The two books read the same at one outcome: the entries are equal, or the
      kept one is stale and the purged one is gone or no newer. */
  ghost predicate AgreeAt(p: Entries, k: Entries, maxAge: Option<real>, now: real, o: Id) {
    || ((o in p <==> o in k) && (o in p ==> p[o] == k[o]))
    || (o in k && Stale(maxAge, k[o].at, now) && (o in p ==> p[o].at <= k[o].at))
  }

  ghost predicate Agree(p: Entries, k: Entries, maxAge: Option<real>, now: real) {
    forall o :: AgreeAt(p, k, maxAge, now, o)
  }

  lemma AgreeLater(p: Entries, k: Entries, maxAge: Option<real>, now: real, later: real)
    requires Agree(p, k, maxAge, now) && now <= later
    ensures Agree(p, k, maxAge, later)
  {
    forall o ensures AgreeAt(p, k, maxAge, later, o) {
      assert AgreeAt(p, k, maxAge, now, o);
    }
  }

  lemma AgreeStep(p: Entries, k: Entries, maxAge: Option<real>, c: Timed)
    requires Agree(p, k, maxAge, c.now)
    ensures Agree(After(p, maxAge, true, c), After(k, maxAge, false, c), maxAge, c.now)
    ensures AnswerOf(p, maxAge, c) == AnswerOf(k, maxAge, c)
  {
    var p', k' := After(p, maxAge, true, c), After(k, maxAge, false, c);
    forall o ensures AgreeAt(p', k', maxAge, c.now, o) {
      assert AgreeAt(p, k, maxAge, c.now, o);
    }
    if c.call.Get? {
      assert AgreeAt(p, k, maxAge, c.now, c.call.outcome);
    } else if c.call.Snapshot? {
      forall o ensures Fetched(p, maxAge, o, c.now) == Fetched(k, maxAge, o, c.now) {
        assert AgreeAt(p, k, maxAge, c.now, o);
      }
      var m, n := Fresh(p, maxAge, c.now), Fresh(k, maxAge, c.now);
      forall o ensures (o in m <==> o in n) && (o in m ==> m[o] == n[o]) {
        assert Fetched(p, maxAge, o, c.now) == Fetched(k, maxAge, o, c.now);
      }
      assert m == n;
    }
  }

  lemma {:induction false} AgreeingBooksAnswerAlike(p: Entries, k: Entries, maxAge: Option<real>, now: real, cs: seq<Timed>)
    requires Agree(p, k, maxAge, now) && Monotonic(now, cs)
    ensures Answers(p, maxAge, true, cs) == Answers(k, maxAge, false, cs)
    ensures cs != [] ==>
      Agree(Run(p, maxAge, true, cs), Run(k, maxAge, false, cs), maxAge, cs[|cs| - 1].now)
    decreases |cs|
  {
    hide Agree, After, AnswerOf;
    if cs != [] {
      AgreeLater(p, k, maxAge, now, cs[0].now);
      AgreeStep(p, k, maxAge, cs[0]);
      var p', k' := After(p, maxAge, true, cs[0]), After(k, maxAge, false, cs[0]);
      AgreeingBooksAnswerAlike(p', k', maxAge, cs[0].now, cs[1..]);
      if |cs| == 1 { assert Run(p', maxAge, true, cs[1..]) == p' && Run(k', maxAge, false, cs[1..]) == k'; }
    }
  }

  /** Purging is invisible: over any calls on a monotonic clock, a book that
      purges and one that never does give the same answer to every read, even
      though purging forgets the stamp the regression guard compares against. */
  lemma PurgingIsInvisible(b: Entries, maxAge: Option<real>, now: real, cs: seq<Timed>)
    requires Monotonic(now, cs)
    ensures Answers(b, maxAge, true, cs) == Answers(b, maxAge, false, cs)
  {
    assert forall o :: AgreeAt(b, b, maxAge, now, o);
    AgreeingBooksAnswerAlike(b, b, maxAge, now, cs);
  }

  lemma TwoCalls(b: Entries, maxAge: Option<real>, purges: bool, c: Timed, d: Timed)
    ensures Run(b, maxAge, purges, [c, d]) == After(After(b, maxAge, purges, c), maxAge, purges, d)
  {
    hide After;
    assert [c, d][1..] == [d] && [d][1..] == [];
    assert Run(After(b, maxAge, purges, c), maxAge, purges, [d]) == After(After(b, maxAge, purges, c), maxAge, purges, d);
  }

  lemma ThirdAnswer(b: Entries, maxAge: Option<real>, purges: bool, c: Timed, d: Timed, e: Timed)
    ensures var rs := Answers(b, maxAge, purges, [c, d, e]);
      |rs| == 3 && rs[2] == AnswerOf(After(After(b, maxAge, purges, c), maxAge, purges, d), maxAge, e)
  {
    hide After, AnswerOf;
    var b1 := After(b, maxAge, purges, c);
    var b2 := After(b1, maxAge, purges, d);
    assert [c, d, e][1..] == [d, e] && [d, e][1..] == [e] && [e][1..] == [];
    assert Answers(b2, maxAge, purges, [e]) == [AnswerOf(b2, maxAge, e)];
    assert Answers(b1, maxAge, purges, [d, e]) == [AnswerOf(b1, maxAge, d), AnswerOf(b2, maxAge, e)];
  }

  /** The clock is what makes it so: if it steps back, a purged quote would have
      been fresh again. */
  lemma ClockStepsBack()
    ensures var q := Quote(1, 0.4, 0.5, None, None, None);
      var cs := [Timed(0.0, Upsert(q)), Timed(20.0, Purge), Timed(5.0, Get(1))];
      Answers(map[], Some(10.0), true, cs) != Answers(map[], Some(10.0), false, cs)
  {
    var q := Quote(1, 0.4, 0.5, None, None, None);
    var cs := [Timed(0.0, Upsert(q)), Timed(20.0, Purge), Timed(5.0, Get(1))];
    var b := Upserted(map[], q, 0.0);
    ThirdAnswer(map[], Some(10.0), true, cs[0], cs[1], cs[2]);
    ThirdAnswer(map[], Some(10.0), false, cs[0], cs[1], cs[2]);
    assert 1 in b && 1 !in Purged(b, Some(10.0), 20.0);
  }

  /** Reporting reads are not covered. Whether a purge has dropped an outcome's
      entry since its last accepted upsert, told from the book that never purges:
      a purge that finds the entry stale drops it, and an upsert that book accepts
      brings it back. */
  predicate DroppedAfter(k: Entries, maxAge: Option<real>, c: Timed, o: Id, dropped: bool) {
    match c.call
    case Upsert(q) => dropped && !(q.outcome == o && Upserted(k, q, c.now)[o] == Entry(q, StampOf(q, c.now)))
    case Purge => dropped || (o in k && Stale(maxAge, k[o].at, c.now))
    case _ => dropped
  }

  predicate Dropped(k: Entries, maxAge: Option<real>, cs: seq<Timed>, o: Id, dropped: bool)
    decreases |cs|
  {
    if cs == [] then dropped
    else Dropped(After(k, maxAge, false, cs[0]), maxAge, cs[1..], o, DroppedAfter(k, maxAge, cs[0], o, dropped))
  }

  /** Where the entry has been dropped, the purged book has none or an older one;
      elsewhere the two books have the same. */
  ghost predicate DropShows(p: Entries, k: Entries, o: Id, dropped: bool) {
    if dropped then o in k && (o in p ==> p[o].at < k[o].at)
    else (o in p <==> o in k) && (o in p ==> p[o] == k[o])
  }

  lemma DropStep(p: Entries, k: Entries, maxAge: Option<real>, c: Timed, o: Id, dropped: bool)
    requires DropShows(p, k, o, dropped)
    ensures DropShows(After(p, maxAge, true, c), After(k, maxAge, false, c), o, DroppedAfter(k, maxAge, c, o, dropped))
  {
  }

  lemma {:induction false} DropRun(p: Entries, k: Entries, maxAge: Option<real>, cs: seq<Timed>, o: Id, dropped: bool)
    requires DropShows(p, k, o, dropped)
    ensures DropShows(Run(p, maxAge, true, cs), Run(k, maxAge, false, cs), o, Dropped(k, maxAge, cs, o, dropped))
    decreases |cs|
  {
    hide After, DropShows, DroppedAfter;
    if cs != [] {
      DropStep(p, k, maxAge, cs[0], o, dropped);
      DropRun(After(p, maxAge, true, cs[0]), After(k, maxAge, false, cs[0]), maxAge, cs[1..], o, DroppedAfter(k, maxAge, cs[0], o, dropped));
    }
  }

  /** The read that returns stale quotes answers the same on both books, at any
      moment of any run on any clock, if and only if no purge has dropped the
      outcome's entry since its last accepted upsert. */
  lemma WithAgeExactly(b: Entries, maxAge: Option<real>, cs: seq<Timed>, o: Id, now: real)
    ensures WithAge(Run(b, maxAge, true, cs), o, now) == WithAge(Run(b, maxAge, false, cs), o, now)
       <==> !Dropped(b, maxAge, cs, o, false)
  {
    DropRun(b, b, maxAge, cs, o, false);
  }

  lemma WithAgeSeesPurge()
    ensures var q := Quote(1, 0.4, 0.5, None, None, None);
      var cs := [Timed(0.0, Upsert(q)), Timed(20.0, Purge)];
      && WithAge(Run(map[], Some(10.0), true, cs), 1, 20.0) == None
      && WithAge(Run(map[], Some(10.0), false, cs), 1, 20.0) == Some((q, 20.0))
  {
    var q := Quote(1, 0.4, 0.5, None, None, None);
    var cs := [Timed(0.0, Upsert(q)), Timed(20.0, Purge)];
    var b := Upserted(map[], q, 0.0);
    TwoCalls(map[], Some(10.0), true, cs[0], cs[1]);
    TwoCalls(map[], Some(10.0), false, cs[0], cs[1]);
  }

  // ---- the regression guard -------------------------------------------------------------

  /** A replayed snapshot older than the stored book by more than the tolerance
      changes nothing, and any other quote takes its place at its own stamp. So
      one upsert never moves an outcome's stamp back by more than the tolerance,
      and what a reader gets is never that much older than what it replaced. */
  lemma NeverRegresses(b: Entries, quote: Quote, now: real)
    ensures var b', o := Upserted(b, quote, now), quote.outcome;
      && o in b'
      && (o in b ==> b'[o].at >= b[o].at - REGRESSION_TOLERANCE)
      && (b'[o] != Entry(quote, StampOf(quote, now)) ==>
            o in b && b'[o] == b[o] && StampOf(quote, now) < b[o].at - REGRESSION_TOLERANCE)
      && (forall x :: x != o ==> (x in b' <==> x in b) && (x in b ==> b'[x] == b[x]))
  {
  }
}
