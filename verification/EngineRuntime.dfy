/** The engine runtime: an index from outcomes to groups, so that a quote re-runs
    detection only for the groups it can affect. */
module EngineRuntime {
  import opened Common
  import opened Types
  import opened Fees
  import opened ArbEngine
  import QuoteBook

  type Entries = QuoteBook.Entries

  /** The quotes one group is evaluated on. With expiry off every stored quote is
      fresh. */
  function QuotesFor(b: Entries, legs: seq<Leg>): map<Id, Quote> {
    map leg | leg in legs && leg.outcome in b :: leg.outcome := b[leg.outcome].quote
  }

  /** A group is evaluated on the stored quote of each of its outcomes that has one,
      and on no other. */
  lemma EvaluatedOn(b: Entries, legs: seq<Leg>, o: Id)
    ensures o in QuotesFor(b, legs) <==> o in b && exists leg :: leg in legs && leg.outcome == o
    ensures o in QuotesFor(b, legs) ==> QuotesFor(b, legs)[o] == b[o].quote
  {
  }

  function MarketFor(b: Entries, fees: Registry, legs: seq<Leg>): Market { Market(QuotesFor(b, legs), fees) }

  /** The venues of a group, in order of appearance, and each one's legs. */
  function VenuesOf(legs: seq<Leg>): seq<Id> {
    if legs == [] then []
    else
      var n := |legs| - 1;
      var vs := VenuesOf(legs[..n]);
      if legs[n].venue in vs then vs else vs + [legs[n].venue]
  }

  function LegsAt(legs: seq<Leg>, v: Id): seq<Leg> {
    if legs == [] then []
    else
      var n := |legs| - 1;
      LegsAt(legs[..n], v) + (if legs[n].venue == v then [legs[n]] else [])
  }

  function Complements(group: Id, legs: seq<Leg>, vs: seq<Id>, m: Market, s: Settings): seq<Opportunity> {
    if vs == [] then []
    else
      var n := |vs| - 1;
      var at := LegsAt(legs, vs[n]);
      Complements(group, legs, vs[..n], m, s)
      + (if |at| < 2 then [] else match ComplementOf(group, at, m, s) case Found(opp) => [opp] case _ => [])
  }

  /** A set is offered exactly where detection finds one on a venue's two or more
      legs of the group. */
  lemma {:induction false} SetsAreComplete(group: Id, legs: seq<Leg>, vs: seq<Id>, m: Market, s: Settings, opp: Opportunity)
    ensures opp in Complements(group, legs, vs, m, s) <==>
      exists v :: v in vs && |LegsAt(legs, v)| >= 2 && ComplementOf(group, LegsAt(legs, v), m, s) == Found(opp)
  {
    hide LegsAt, ComplementOf;
    if vs != [] {
      var n := |vs| - 1;
      SetsAreComplete(group, legs, vs[..n], m, s, opp);
      assert vs == vs[..n] + [vs[n]];
      var here := |LegsAt(legs, vs[n])| >= 2 && ComplementOf(group, LegsAt(legs, vs[n]), m, s) == Found(opp);
      assert opp in Complements(group, legs, vs, m, s) <==> opp in Complements(group, legs, vs[..n], m, s) || here;
      if here { assert vs[n] in vs; }
    }
  }

  lemma {:induction false} LegsAtReads(legs: seq<Leg>, v: Id, leg: Leg)
    ensures leg in LegsAt(legs, v) <==> leg in legs && leg.venue == v
  {
    if legs != [] {
      LegsAtReads(legs[..|legs| - 1], v, leg);
      assert legs == legs[..|legs| - 1] + [legs[|legs| - 1]];
    }
  }

  /** Each venue of a group is visited once. */
  lemma {:induction false} VenuesOfReads(legs: seq<Leg>, v: Id)
    ensures v in VenuesOf(legs) <==> exists leg :: leg in legs && leg.venue == v
    ensures forall i, j :: 0 <= i < j < |VenuesOf(legs)| ==> VenuesOf(legs)[i] != VenuesOf(legs)[j]
  {
    if legs != [] {
      VenuesOfReads(legs[..|legs| - 1], v);
      assert legs == legs[..|legs| - 1] + [legs[|legs| - 1]];
    }
  }

  /** Whether some venue's complementary set divides by a stake of nothing. */
  ghost predicate SetRaises(group: Id, legs: seq<Leg>, vs: seq<Id>, m: Market, s: Settings) {
    exists i :: 0 <= i < |vs| && |LegsAt(legs, vs[i])| >= 2 && ComplementOf(group, LegsAt(legs, vs[i]), m, s).Raised?
  }

  /** Evaluating a group fails: a detector it runs raises. */
  ghost predicate Fails(group: EventGroup, b: Entries, fees: Registry, s: Settings, crossOnly: bool) {
    || Detected(group.id, group.legs, MarketFor(b, fees, group.legs), s, Raised)
    || (!crossOnly && SetRaises(group.id, group.legs, VenuesOf(group.legs), MarketFor(b, fees, group.legs), s))
  }

  /** What evaluating a group against the current book finds: the cross-venue
      ticket, if any, and then, unless those are turned off, each venue's
      complementary set. */
  ghost predicate Evaluates(group: EventGroup, b: Entries, fees: Registry, s: Settings, crossOnly: bool, found: seq<Opportunity>) {
    && !Fails(group, b, fees, s, crossOnly)
    && exists r: Detection ::
      && Detected(group.id, group.legs, MarketFor(b, fees, group.legs), s, r) && !r.Raised?
      && found == (if r.Found? then [r.opp] else [])
                + (if crossOnly then [] else Complements(group.id, group.legs, VenuesOf(group.legs), MarketFor(b, fees, group.legs), s))
  }

  /** On well-formed quotes evaluation fails exactly when an admissible pair, or an
      admissible set of one venue, asks nothing for every leg. */
  lemma FailsExactly(group: EventGroup, b: Entries, fees: Registry, s: Settings, crossOnly: bool)
    requires MarketFor(b, fees, group.legs).Valid()
    ensures var m := MarketFor(b, fees, group.legs);
      Fails(group, b, fees, s, crossOnly) <==>
        || (exists y, n :: y in group.legs && n in group.legs && Admissible(m, s, y, n) && m.Ask(y) == 0.0 && m.Ask(n) == 0.0)
        || (!crossOnly && exists v :: v in VenuesOf(group.legs) && FreeAtVenue(m, s, LegsAt(group.legs, v)))
  {
    hide Detected, Admissible, SetAdmissible, ComplementOf;
    var m := MarketFor(b, fees, group.legs);
    RaisedIffZeroAsks(group.id, group.legs, m, s);
    SetRaisesIffFree(group.id, group.legs, VenuesOf(group.legs), m, s);
  }

  lemma SetRaisesIffFree(group: Id, legs: seq<Leg>, vs: seq<Id>, m: Market, s: Settings)
    requires m.Valid()
    ensures SetRaises(group, legs, vs, m, s) <==> exists v :: v in vs && FreeAtVenue(m, s, LegsAt(legs, v))
  {
    hide SetAdmissible, ComplementOf, LegsAt, FreeAtVenue;
    forall v
      ensures (|LegsAt(legs, v)| >= 2 && ComplementOf(group, LegsAt(legs, v), m, s).Raised?) <==> FreeAtVenue(m, s, LegsAt(legs, v))
    {
      VenueRaisesIffFree(group, LegsAt(legs, v), m, s);
    }
    if v :| v in vs && FreeAtVenue(m, s, LegsAt(legs, v)) {
      var i :| 0 <= i < |vs| && vs[i] == v;
    }
  }

  lemma VenueRaisesIffFree(group: Id, legs: seq<Leg>, m: Market, s: Settings)
    requires m.Valid()
    ensures (|legs| >= 2 && ComplementOf(group, legs, m, s).Raised?) <==> FreeAtVenue(m, s, legs)
  {
    ComplementRaisesExactly(group, legs, m, s);
  }

  predicate FreeAtVenue(m: Market, s: Settings, legs: seq<Leg>) { SetAdmissible(m, s, legs) && forall leg :: leg in legs ==> m.Ask(leg) == 0.0 }

  /** There is only one such list. */
  lemma EvaluationIsUnique(group: EventGroup, b: Entries, fees: Registry, s: Settings, crossOnly: bool, found: seq<Opportunity>, other: seq<Opportunity>)
    requires Evaluates(group, b, fees, s, crossOnly, found) && Evaluates(group, b, fees, s, crossOnly, other)
    ensures found == other
  {
    hide Detected, Complements, MarketFor;
    var m := MarketFor(b, fees, group.legs);
    var r: Detection :| Detected(group.id, group.legs, m, s, r) && !r.Raised?
      && found == (if r.Found? then [r.opp] else []) + (if crossOnly then [] else Complements(group.id, group.legs, VenuesOf(group.legs), m, s));
    var t: Detection :| Detected(group.id, group.legs, m, s, t) && !t.Raised?
      && other == (if t.Found? then [t.opp] else []) + (if crossOnly then [] else Complements(group.id, group.legs, VenuesOf(group.legs), m, s));
    DetectedUnique(group.id, group.legs, m, s, r, t);
  }

  predicate HasOutcome(g: EventGroup, o: Id) { exists leg :: leg in g.legs && leg.outcome == o }

  /** A quote for an outcome a group does not have changes nothing it is evaluated
      on. */
  lemma OtherQuote(b: Entries, b': Entries, g: EventGroup, o: Id)
    requires !HasOutcome(g, o) && forall x :: x != o ==> (x in b <==> x in b') && (x in b ==> b'[x] == b[x])
    ensures QuotesFor(b', g.legs) == QuotesFor(b, g.legs)
  {
  }

  // ---- the runtime's state ---------------------------------------------------------------

  datatype Config = Config(fees: Registry, settings: Settings, crossVenueOnly: bool)

  type Index = map<Id, set<Id>>

  /** The registered groups, the index from outcomes to groups, what is on offer
      for each group, the book, which registered groups have had a leg quoted since
      they were registered, and which have not been evaluated since their last
      quote, because an evaluation failed. */
  datatype Runtime = Runtime(
    groups: map<Id, EventGroup>,
    index: Index,
    opportunities: map<Id, seq<Opportunity>>,
    quotes: Entries,
    quoted: set<Id>,
    missed: set<Id>)
  {
    function Stored(g: Id): seq<Opportunity> { if g in opportunities then opportunities[g] else [] }
  }

  function Named(index: Index, o: Id): set<Id> { if o in index then index[o] else {} }

  function Added(index: Index, legs: seq<Leg>, g: Id, n: nat): Index
    requires n <= |legs|
  {
    if n == 0 then index
    else
      var before := Added(index, legs, g, n - 1);
      before[legs[n - 1].outcome := Named(before, legs[n - 1].outcome) + {g}]
  }

  function Discarded(index: Index, legs: seq<Leg>, g: Id, n: nat): Index
    requires n <= |legs|
  {
    if n == 0 then index
    else
      var before := Discarded(index, legs, g, n - 1);
      before[legs[n - 1].outcome := Named(before, legs[n - 1].outcome) - {g}]
  }

  function Registered(r: Runtime, group: EventGroup): Runtime {
    r.(groups := r.groups[group.id := group], index := Added(r.index, group.legs, group.id, |group.legs|),
        quoted := r.quoted - {group.id}, missed := r.missed - {group.id})
  }

  function Unregistered(r: Runtime, g: Id): Runtime {
    if g !in r.groups then r
    else r.(groups := r.groups - {g}, index := Discarded(r.index, r.groups[g].legs, g, |r.groups[g].legs|),
             quoted := r.quoted - {g}, missed := r.missed - {g})
  }

  /** A quote stored, and the groups the index names for its outcome evaluated
      again, up to the first that fails: then some named group does, and the ones
      not reached are missed. Nothing else on offer changes. */
  ghost predicate Applied(cfg: Config, r: Runtime, r': Runtime, quote: Quote, now: real, raised: bool) {
    && r'.groups == r.groups && r'.index == r.index
    && r'.quotes == QuoteBook.Upserted(r.quotes, quote, now)
    && r'.quoted == r.quoted + (set g | g in r.groups && HasOutcome(r.groups[g], quote.outcome))
    && (raised <==> exists g :: g in Named(r.index, quote.outcome) && g in r.groups && FailsFor(cfg, r', g))
    && Reached(cfg, r, r', Named(r.index, quote.outcome), raised)
  }

  ghost predicate FailsFor(cfg: Config, r: Runtime, g: Id)
    requires g in r.groups
  {
    Fails(r.groups[g], r.quotes, cfg.fees, cfg.settings, cfg.crossVenueOnly)
  }

  ghost predicate Reached(cfg: Config, r: Runtime, r': Runtime, named: set<Id>, raised: bool)
    requires r'.groups == r.groups
  {
    && (forall g :: g in named && g !in r'.missed && g in r.groups ==> Current(cfg, r', g))
    && (forall g :: g !in named || g in r'.missed ==> r'.Stored(g) == r.Stored(g))
    && (forall g :: g !in named ==> (g in r'.missed <==> g in r.missed))
    && (raised <==> exists g :: g in named && g in r'.missed)
  }

  /** What is on offer for a group is what evaluating it now would find. */
  ghost predicate Current(cfg: Config, r: Runtime, g: Id)
    requires g in r.groups
  {
    Evaluates(r.groups[g], r.quotes, cfg.fees, cfg.settings, cfg.crossVenueOnly, r.Stored(g))
  }

  predicate Indexed(index: Index, legs: seq<Leg>, g: Id) { forall leg :: leg in legs ==> g in Named(index, leg.outcome) }

  /** Every registered group either has had no leg quoted since its registration,
      or was missed by a failed evaluation, or what is on offer for it equals
      recomputation. */
  ghost predicate Steady(cfg: Config, r: Runtime) {
    && (forall g :: g in r.groups ==> r.groups[g].id == g && Indexed(r.index, r.groups[g].legs, g))
    && (forall g :: g in r.groups && g in r.quoted && g !in r.missed ==> Current(cfg, r, g))
  }

  lemma {:induction false} AddedReads(index: Index, legs: seq<Leg>, g: Id, n: nat, o: Id)
    requires n <= |legs|
    ensures Named(Added(index, legs, g, n), o)
         == Named(index, o) + (if exists k :: 0 <= k < n && legs[k].outcome == o then {g} else {})
  {
    if n > 0 { AddedReads(index, legs, g, n - 1, o); }
  }

  lemma {:induction false} DiscardedReads(index: Index, legs: seq<Leg>, g: Id, n: nat, o: Id)
    requires n <= |legs|
    ensures Named(Discarded(index, legs, g, n), o)
         == Named(index, o) - (if exists k :: 0 <= k < n && legs[k].outcome == o then {g} else {})
  {
    if n > 0 { DiscardedReads(index, legs, g, n - 1, o); }
  }

  /** Registering files a group under its id and under each of its outcomes, and
      removing it again undoes just that. */
  lemma UnregisterUndoes(r: Runtime, group: EventGroup, o: Id, h: Id)
    ensures var r' := Registered(r, group);
      && r'.groups.Keys == r.groups.Keys + {group.id} && r'.groups[group.id] == group
      && (h in r.groups && h != group.id ==> r'.groups[h] == r.groups[h])
      && (h in Named(r'.index, o) <==> h in Named(r.index, o) || (h == group.id && HasOutcome(group, o)))
      && r'.opportunities == r.opportunities && r'.quotes == r.quotes
    ensures var r' := Unregistered(Registered(r, group), group.id);
      && r'.groups.Keys == r.groups.Keys - {group.id}
      && (h in r.groups && h != group.id ==> r'.groups[h] == r.groups[h])
      && (h in Named(r'.index, o) <==> h in Named(r.index, o) && (h != group.id || !HasOutcome(group, o)))
      && r'.opportunities == r.opportunities && r'.quotes == r.quotes
      && (h in r'.quoted <==> h in r.quoted && h != group.id) && (h in r'.missed <==> h in r.missed && h != group.id)
  {
    var added := Added(r.index, group.legs, group.id, |group.legs|);
    AddedReads(r.index, group.legs, group.id, |group.legs|, o);
    DiscardedReads(added, group.legs, group.id, |group.legs|, o);
    assert HasOutcome(group, o) <==> exists k :: 0 <= k < |group.legs| && group.legs[k].outcome == o;
  }

  lemma RegisterKeeps(cfg: Config, r: Runtime, group: EventGroup)
    requires Steady(cfg, r)
    ensures Steady(cfg, Registered(r, group))
  {
    hide Evaluates;
    var r' := Registered(r, group);
    forall g | g in r'.groups ensures r'.groups[g].id == g && Indexed(r'.index, r'.groups[g].legs, g) {
      forall leg | leg in r'.groups[g].legs ensures g in Named(r'.index, leg.outcome) {
        AddedReads(r.index, group.legs, group.id, |group.legs|, leg.outcome);
      }
    }
    forall g | g in r'.groups && g in r'.quoted && g !in r'.missed ensures Current(cfg, r', g) {
      assert Current(cfg, r, g);
    }
  }

  lemma UnregisterKeeps(cfg: Config, r: Runtime, g: Id)
    requires Steady(cfg, r)
    ensures Steady(cfg, Unregistered(r, g))
  {
    hide Evaluates;
    var r' := Unregistered(r, g);
    if g in r.groups {
      forall h | h in r'.groups ensures r'.groups[h].id == h && Indexed(r'.index, r'.groups[h].legs, h) {
        forall leg | leg in r'.groups[h].legs ensures h in Named(r'.index, leg.outcome) {
          DiscardedReads(r.index, r.groups[g].legs, g, |r.groups[g].legs|, leg.outcome);
          assert h in Named(r.index, leg.outcome) + {g};
        }
      }
      forall h | h in r'.groups && h in r'.quoted && h !in r'.missed ensures Current(cfg, r', h) {
        assert Current(cfg, r, h);
      }
    }
  }

  lemma UpsertReads(b: Entries, quote: Quote, now: real)
    ensures var b' := QuoteBook.Upserted(b, quote, now);
      forall x :: x != quote.outcome ==> (x in b <==> x in b') && (x in b ==> b'[x] == b[x])
  {
  }

  /** Incremental detection equals recomputation: applying a quote keeps every
      group current, though only those the index names are evaluated. If no named
      group's evaluation fails, none is missed, and those missed before are no
      longer. */
  lemma QuoteKeeps(cfg: Config, r: Runtime, r': Runtime, quote: Quote, now: real, raised: bool)
    requires Steady(cfg, r) && Applied(cfg, r, r', quote, now, raised)
    ensures Steady(cfg, r')
    ensures !raised ==> r'.missed == r.missed - Named(r.index, quote.outcome)
  {
    hide Evaluates, Fails, QuoteBook.Upserted;
    UpsertReads(r.quotes, quote, now);
    forall g | g in r'.groups && g in r'.quoted && g !in r'.missed ensures Current(cfg, r', g) {
      if g !in Named(r.index, quote.outcome) {
        assert !HasOutcome(r.groups[g], quote.outcome);
        assert Current(cfg, r, g);
        StaysCurrent(cfg, r, r', quote, g);
      }
    }
  }

  lemma StaysCurrent(cfg: Config, r: Runtime, r': Runtime, quote: Quote, g: Id)
    requires g in r.groups && r'.groups == r.groups && r'.Stored(g) == r.Stored(g) && Current(cfg, r, g)
    requires !HasOutcome(r.groups[g], quote.outcome)
    requires forall x :: x != quote.outcome ==> (x in r.quotes <==> x in r'.quotes) && (x in r.quotes ==> r'.quotes[x] == r.quotes[x])
    ensures Current(cfg, r', g)
  {
    hide Detected, Complements, QuotesFor;
    OtherQuote(r.quotes, r'.quotes, r.groups[g], quote.outcome);
  }

  // ---- the runtime -------------------------------------------------------------------------

  class Engine {
    const cfg: Config
    const book: QuoteBook.Book
    var groups: map<Id, EventGroup>
    var index: Index
    var opportunities: map<Id, seq<Opportunity>>
    ghost var quoted: set<Id>
    ghost var missed: set<Id>

    constructor (cfg: Config, book: QuoteBook.Book)
      requires book.maxAge.None?
      ensures this.cfg == cfg && this.book == book && Valid()
      ensures Now() == Runtime(map[], map[], map[], book.quotes, {}, {})
    {
      this.cfg, this.book := cfg, book;
      groups, index, opportunities, quoted, missed := map[], map[], map[], {}, {};
    }

    ghost function Now(): Runtime
      reads this, book
    {
      Runtime(groups, index, opportunities, book.quotes, quoted, missed)
    }

    ghost predicate Valid()
      reads this, book
    {
      book.maxAge.None? && Steady(cfg, Now())
    }

    method RegisterGroup(group: EventGroup)
      requires Valid()
      modifies this
      ensures Valid() && Now() == Registered(old(Now()), group)
    {
      hide Steady;
      RegisterKeeps(cfg, Now(), group);
      groups := groups[group.id := group];
      quoted, missed := quoted - {group.id}, missed - {group.id};
      ghost var before := index;
      for i := 0 to |group.legs|
        invariant Now() == old(Now()).(groups := old(groups)[group.id := group], quoted := old(quoted) - {group.id}, missed := old(missed) - {group.id}, index := index)
        invariant index == Added(before, group.legs, group.id, i)
      {
        var o := group.legs[i].outcome;
        index := index[o := Named(index, o) + {group.id}];
      }
    }

    method UnregisterGroup(g: Id)
      requires Valid()
      modifies this
      ensures Valid() && Now() == Unregistered(old(Now()), g)
    {
      hide Steady;
      UnregisterKeeps(cfg, Now(), g);
      if g !in groups {
        return;
      }
      var group := groups[g];
      groups := groups - {g};
      quoted, missed := quoted - {g}, missed - {g};
      ghost var before := index;
      for i := 0 to |group.legs|
        invariant Now() == old(Now()).(groups := old(groups) - {g}, quoted := old(quoted) - {g}, missed := old(missed) - {g}, index := index)
        invariant index == Discarded(before, group.legs, g, i)
      {
        var o := group.legs[i].outcome;
        index := index[o := Named(index, o) - {g}];
      }
    }

    /** Retirement empties a group's set, once it is no longer registered. */
    method ClearGroupOpportunities(g: Id)
      requires Valid() && g !in groups
      modifies this`opportunities
      ensures Valid() && Now() == old(Now()).(opportunities := old(opportunities) - {g})
    {
      hide Evaluates;
      ghost var r := Now();
      opportunities := opportunities - {g};
      forall h | h in groups && h in quoted && h !in missed ensures Current(cfg, Now(), h) {
        assert Current(cfg, r, h);
      }
    }

    /** Runs every detector for a group against the current book; nothing, if one
        of them raises. */
    method EvaluateNow(g: Id) returns (found: Option<seq<Opportunity>>)
      requires forall h :: h in groups ==> groups[h].id == h
      ensures g !in groups ==> found == Some([])
      ensures g in groups ==>
        && (found.None? <==> Fails(groups[g], book.quotes, cfg.fees, cfg.settings, cfg.crossVenueOnly))
        && (found.Some? ==> Evaluates(groups[g], book.quotes, cfg.fees, cfg.settings, cfg.crossVenueOnly, found.value))
    {
      hide Detected, Complements, SetRaises, MarketFor;
      if g !in groups {
        return Some([]);
      }
      var group := groups[g];
      var m := MarketFor(book.quotes, cfg.fees, group.legs);
      var cross := DetectCrossVenueTwoLeg(group.id, group.legs, m, cfg.settings);
      if cross.Raised? {
        return None;
      }
      RaisedIsOther(group.id, group.legs, m, cfg.settings, cross);
      var list := if cross.Found? then [cross.opp] else [];
      if cfg.crossVenueOnly {
        assert list == list + [];
        return Some(list);
      }
      var sets := EvaluateSets(group, m);
      if sets.None? {
        return None;
      }
      return Some(list + sets.value);
    }

    method EvaluateSets(group: EventGroup, m: Market) returns (found: Option<seq<Opportunity>>)
      ensures found.None? <==> SetRaises(group.id, group.legs, VenuesOf(group.legs), m, cfg.settings)
      ensures found.Some? ==> found.value == Complements(group.id, group.legs, VenuesOf(group.legs), m, cfg.settings)
    {
      hide ComplementOf;
      var list: seq<Opportunity> := [];
      var vs := VenuesOf(group.legs);
      for i := 0 to |vs|
        invariant list == Complements(group.id, group.legs, vs[..i], m, cfg.settings)
        invariant forall k :: 0 <= k < i && |LegsAt(group.legs, vs[k])| >= 2 ==> !ComplementOf(group.id, LegsAt(group.legs, vs[k]), m, cfg.settings).Raised?
      {
        assert vs[..i + 1][..i] == vs[..i];
        var at := LegsAt(group.legs, vs[i]);
        if |at| < 2 {
          continue;
        }
        var comp := DetectComplementarySet(group.id, at, m, cfg.settings);
        if comp.Raised? {
          return None;
        }
        if comp.Found? {
          list := list + [comp.opp];
        }
      }
      assert vs[..|vs|] == vs;
      return Some(list);
    }

    /** Replaces a group's opportunities with the latest evaluation. */
    method SetGroupOpportunities(g: Id, opps: seq<Opportunity>)
      modifies this`opportunities
      ensures Now() == old(Now()).(opportunities := opportunities)
      ensures Now().Stored(g) == opps && forall h :: h != g ==> Now().Stored(h) == old(Now()).Stored(h)
    {
      opportunities := if opps != [] then opportunities[g := opps] else opportunities - {g};
    }

    /** One group evaluated again, unless that fails. */
    method Reevaluate(g: Id) returns (failed: bool)
      requires forall h :: h in groups ==> groups[h].id == h
      modifies this`opportunities, this`missed
      ensures failed <==> g in groups && FailsFor(cfg, Now(), g)
      ensures Now() == old(Now()).(opportunities := opportunities, missed := missed)
      ensures if failed then Now() == old(Now()) else Evaluated(cfg, old(Now()), Now(), g)
    {
      hide Evaluates, Fails;
      var found := EvaluateNow(g);
      if found.None? {
        return true;
      }
      missed := missed - {g};
      SetGroupOpportunities(g, found.value);
      return false;
    }

    /** A quote as the ingest worker applies it: stored first, and then the groups
        the index names for its outcome are evaluated again, in no fixed order, up
        to the first that fails; `raised` says whether one did. */
    method OnQuote(quote: Quote, now: real) returns (raised: bool)
      requires Valid()
      modifies this`opportunities, this`quoted, this`missed, book
      ensures Valid() && Applied(cfg, old(Now()), Now(), quote, now, raised)
    {
      hide Evaluates, Fails, FailsFor, Reached, Steady, Progress, Evaluated;
      ghost var r := Now();
      book.Upsert(quote, now);
      quoted := quoted + set g | g in groups && HasOutcome(groups[g], quote.outcome);
      var rest := Named(index, quote.outcome);
      missed := missed + rest;
      ghost var stored := Now();
      raised := false;
      SteadyNames(cfg, r);
      NoneReached(cfg, r, stored, rest);
      while rest != {}
        invariant rest <= Named(r.index, quote.outcome)
        invariant Now() == stored.(opportunities := opportunities, missed := missed)
        invariant !raised && Progress(cfg, r, Now(), Named(r.index, quote.outcome), rest)
      {
        var g :| g in rest;
        ghost var before := Now();
        raised := Reevaluate(g);
        if raised {
          Stopped(cfg, r, Now(), Named(r.index, quote.outcome), rest, g);
          QuoteKeeps(cfg, r, Now(), quote, now, true);
          return;
        }
        OneReached(cfg, r, before, Now(), Named(r.index, quote.outcome), rest, g);
        rest := rest - {g};
      }
      AllReached(cfg, r, Now(), Named(r.index, quote.outcome));
      QuoteKeeps(cfg, r, Now(), quote, now, false);
    }
  }

  /** A quote partly applied: of the groups it names, those in `rest` are still to
      be evaluated. */
  ghost predicate Progress(cfg: Config, r: Runtime, now: Runtime, named: set<Id>, rest: set<Id>) {
    && now.groups == r.groups && rest <= named
    && (forall g :: g in named && g !in rest && g in r.groups ==> Current(cfg, now, g) && !FailsFor(cfg, now, g))
    && (forall g :: g !in named || g in rest ==> now.Stored(g) == r.Stored(g))
    && now.missed == (r.missed - named) + rest
  }

  lemma SteadyNames(cfg: Config, r: Runtime)
    requires Steady(cfg, r)
    ensures forall g :: g in r.groups ==> r.groups[g].id == g
  {
  }

  lemma NoneReached(cfg: Config, r: Runtime, stored: Runtime, named: set<Id>)
    requires stored.groups == r.groups && stored.opportunities == r.opportunities && stored.missed == r.missed + named
    ensures Progress(cfg, r, stored, named, named)
  {
  }

  /** One group evaluated again: it alone changes, to what its evaluation finds. */
  ghost predicate Evaluated(cfg: Config, r: Runtime, r': Runtime, g: Id) {
    && r' == r.(opportunities := r'.opportunities, missed := r.missed - {g})
    && (g in r.groups ==> !FailsFor(cfg, r', g) && Current(cfg, r', g))
    && forall h :: h != g ==> r'.Stored(h) == r.Stored(h)
  }

  lemma OneReached(cfg: Config, r: Runtime, before: Runtime, now: Runtime, named: set<Id>, rest: set<Id>, g: Id)
    requires Progress(cfg, r, before, named, rest) && g in rest && Evaluated(cfg, before, now, g)
    ensures Progress(cfg, r, now, named, rest - {g})
  {
    hide Evaluates, Fails;
    forall h | h in named && h !in rest - {g} && h in r.groups ensures Current(cfg, now, h) && !FailsFor(cfg, now, h) {
      if h != g { assert Current(cfg, before, h) && !FailsFor(cfg, before, h); }
    }
  }

  lemma Stopped(cfg: Config, r: Runtime, now: Runtime, named: set<Id>, rest: set<Id>, g: Id)
    requires Progress(cfg, r, now, named, rest) && g in rest && g in r.groups && FailsFor(cfg, now, g)
    ensures Reached(cfg, r, now, named, true)
    ensures exists h :: h in named && h in r.groups && FailsFor(cfg, now, h)
  {
    hide Evaluates, Fails;
  }

  lemma AllReached(cfg: Config, r: Runtime, now: Runtime, named: set<Id>)
    requires Progress(cfg, r, now, named, {})
    ensures Reached(cfg, r, now, named, false)
    ensures !exists h :: h in named && h in r.groups && FailsFor(cfg, now, h)
  {
    hide Evaluates, Fails;
  }

  lemma RaisedIsOther(group: Id, legs: seq<Leg>, m: Market, s: Settings, r: Detection)
    requires Detected(group, legs, m, s, r) && !r.Raised?
    ensures !Detected(group, legs, m, s, Raised)
  {
    hide Detected;
    if Detected(group, legs, m, s, Raised) { DetectedUnique(group, legs, m, s, r, Raised); }
  }
}
