/** Admitting one ticket: everything that is asked of it before the router sees
    it, in order. */
module TicketService {
  import opened Common
  import opened Types
  import opened PaperBroker
  import opened ExecutionRouter
  import opened TicketAdmission
  import opened ArbEngine
  import Drain

  /** The limits in force; None turns a guard off. */
  datatype Limits = Limits(maxDays: Option<real>, maxEdge: Option<real>, maxSkew: Option<real>, cap: Option<real>)

  /** What a submission reads besides the brokers: settled groups, the registry,
      what detection finds right now, how old each outcome's quote is, and the
      clock. */
  datatype Scene = Scene(settled: set<Id>, groups: map<Id, EventGroup>, live: seq<Opportunity>, ages: map<Id, real>, now: real)

  datatype Verdict = Draining | AlreadySettled | TooFarOut | EdgeGone | Implausible | StaleSkew | PositionCap | Admitted(live: Opportunity)

  const DAY := 86400.0

  // ---- the guards ---------------------------------------------------------------------

  function BuyLegs(opp: Opportunity): set<Id> { set leg | leg in opp.legs && leg.isBuy :: leg.outcome }

  /** The same edge, as detection prices it now. */
  predicate SameEdge(opp: Opportunity, live: Opportunity) { live.group == opp.group && BuyLegs(live) == BuyLegs(opp) }

  predicate FirstMatch(live: seq<Opportunity>, opp: Opportunity, i: nat) {
    i < |live| && SameEdge(opp, live[i]) && forall k :: 0 <= k < i ==> !SameEdge(opp, live[k])
  }

  predicate StartsTooFarOut(scene: Scene, group: Id, maxDays: Option<real>) {
    && maxDays.Some? && group in scene.groups && scene.groups[group].start.Some?
    && (scene.groups[group].start.value - scene.now) / DAY > maxDays.value
  }

  function BuyCost(legs: seq<ArbLeg>): real {
    if legs == [] then 0.0
    else BuyCost(legs[..|legs| - 1]) + (if legs[|legs| - 1].isBuy then legs[|legs| - 1].price else 0.0)
  }

  /** More profit than any venue could offer: a price check, gross of fees. */
  predicate ImplausibleEdge(live: Opportunity, maxEdge: Option<real>) {
    maxEdge.Some? && 1.0 - BuyCost(live.legs) > maxEdge.value
  }

  /** Two bought legs quoted at moments further apart than the limit. With a leg
      not quoted at all there is nothing to compare. */
  predicate StaleLegSkew(live: Opportunity, ages: map<Id, real>, maxSkew: Option<real>) {
    && maxSkew.Some? && BuyLegs(live) <= ages.Keys
    && exists o, p :: o in BuyLegs(live) && p in BuyLegs(live) && o != p && ages[o] - ages[p] > maxSkew.value
  }

  /** Every outcome of the ticket's game: the registered group's, or failing that
      the ticket's own. */
  function GroupOutcomes(groups: map<Id, EventGroup>, live: Opportunity): set<Id> {
    if live.group in groups then set leg | leg in groups[live.group].legs :: leg.outcome
    else set leg | leg in live.legs :: leg.outcome
  }

  ghost predicate BreachesCap(w: World, a: Id, groups: map<Id, EventGroup>, live: Opportunity, cap: Option<real>) {
    cap.Some? && Exposure(w, a, GroupOutcomes(groups, live)) + live.stake > cap.value
  }

  method MatchLive(live: seq<Opportunity>, opp: Opportunity) returns (found: Option<Opportunity>)
    ensures found.Some? ==> exists i: nat :: FirstMatch(live, opp, i) && live[i] == found.value
    ensures found.None? ==> forall i :: 0 <= i < |live| ==> !SameEdge(opp, live[i])
  {
    for i := 0 to |live|
      invariant forall k :: 0 <= k < i ==> !SameEdge(opp, live[k])
    {
      if live[i].group == opp.group && BuyLegs(live[i]) == BuyLegs(opp) {
        assert FirstMatch(live, opp, i);
        return Some(live[i]);
      }
    }
    return None;
  }

  /** The skew as the service computes it: the oldest bought leg less the newest. */
  method CheckSkew(live: Opportunity, ages: map<Id, real>, maxSkew: Option<real>) returns (stale: bool)
    requires maxSkew.Some? ==> maxSkew.value >= 0.0
    ensures stale <==> StaleLegSkew(live, ages, maxSkew)
  {
    if maxSkew.None? {
      return false;
    }
    var seen: set<Id> := {};
    var oldest, newest := 0.0, 0.0;
    for i := 0 to |live.legs|
      invariant seen == set k | 0 <= k < i && live.legs[k].isBuy :: live.legs[k].outcome
      invariant seen <= ages.Keys
      invariant forall o :: o in seen ==> newest <= ages[o] <= oldest
      invariant seen != {} ==> (exists o :: o in seen && ages[o] == oldest) && exists o :: o in seen && ages[o] == newest
    {
      var leg := live.legs[i];
      if leg.isBuy {
        if leg.outcome !in ages {
          assert leg.outcome in BuyLegs(live);
          return false;
        }
        var age := ages[leg.outcome];
        if seen == {} {
          oldest, newest := age, age;
        } else {
          oldest, newest := Max(oldest, age), Min(newest, age);
        }
        seen := seen + {leg.outcome};
      }
    }
    assert seen == BuyLegs(live);
    if |seen| < 2 {
      AtMostOne(seen);
      return false;
    }
    stale := oldest - newest > maxSkew.value;
  }

  lemma AtMostOne(s: set<Id>)
    requires |s| < 2
    ensures forall o, p :: o in s && p in s ==> o == p
  {
    forall o, p | o in s && p in s ensures o == p {
      SubsetSize({o, p}, s);
    }
  }

  // ---- the verdict ----------------------------------------------------------------------

  /** What the guards decide, in the order they are asked. */
  ghost predicate Decides(draining: bool, scene: Scene, w: World, a: Id, limits: Limits, opp: Opportunity, v: Verdict) {
    if draining then v == Draining
    else if opp.group in scene.settled then v == AlreadySettled
    else if StartsTooFarOut(scene, opp.group, limits.maxDays) then v == TooFarOut
    else if forall i :: 0 <= i < |scene.live| ==> !SameEdge(opp, scene.live[i]) then v == EdgeGone
    else exists i: nat :: FirstMatch(scene.live, opp, i) && v == JudgedLive(scene, w, a, limits, scene.live[i])
  }

  ghost function JudgedLive(scene: Scene, w: World, a: Id, limits: Limits, live: Opportunity): Verdict {
    if ImplausibleEdge(live, limits.maxEdge) then Implausible
    else if StaleLegSkew(live, scene.ages, limits.maxSkew) then StaleSkew
    else if BreachesCap(w, a, scene.groups, live, limits.cap) then PositionCap
    else Admitted(live)
  }

  /** A submission up to its first await: refused at the door, or counted in
      flight and judged. A refusal after the door leaves again at once; an
      admitted ticket stays in flight until it has been through the router. */
  method Admit(app: Drain.AppState, adapters: map<Id, Broker>, ghost w: World, a: Id, scene: Scene, limits: Limits, opp: Opportunity)
    returns (v: Verdict)
    requires w.Keys == adapters.Keys && forall x :: x in adapters ==> adapters[x].Now() == w[x]
    requires limits.maxSkew.Some? ==> limits.maxSkew.value >= 0.0
    modifies app
    ensures Decides(old(app.draining), scene, w, a, limits, opp, v)
    ensures app.Now() == if v.Admitted? then Drain.Entered(old(app.Now()))
                         else if v.Draining? || v.AlreadySettled? || v.TooFarOut? then old(app.Now())
                         else Drain.Exited(Drain.Entered(old(app.Now())))
  {
    hide StaleLegSkew, ImplausibleEdge, BreachesCap, SameEdge;
    if app.draining {
      return Draining;
    }
    var inn := app.Admit(opp.group in scene.settled || StartsTooFarOut(scene, opp.group, limits.maxDays));
    if !inn {
      return if opp.group in scene.settled then AlreadySettled else TooFarOut;
    }
    var live := MatchLive(scene.live, opp);
    if live.None? {
      v := EdgeGone;
    } else {
      v := Judge(adapters, w, a, scene, limits, live.value);
    }
    if !v.Admitted? {
      app.ExitTicket();
    }
  }

  method Judge(adapters: map<Id, Broker>, ghost w: World, a: Id, scene: Scene, limits: Limits, live: Opportunity) returns (v: Verdict)
    requires w.Keys == adapters.Keys && forall x :: x in adapters ==> adapters[x].Now() == w[x]
    requires limits.maxSkew.Some? ==> limits.maxSkew.value >= 0.0
    ensures v == JudgedLive(scene, w, a, limits, live)
  {
    hide StaleLegSkew, GroupOutcomes;
    if ImplausibleEdge(live, limits.maxEdge) {
      return Implausible;
    }
    var stale := CheckSkew(live, scene.ages, limits.maxSkew);
    if stale {
      return StaleSkew;
    }
    var breach := CapBreach(adapters, a, GroupOutcomes(scene.groups, live), live.stake, limits.cap, w);
    if breach {
      return PositionCap;
    }
    return Admitted(live);
  }

  /** An admitted ticket is one detection finds now, for the legs that were asked
      for; its game starts within the allowed days; and what the account has in any
      outcome of the registered game, the ticket's own where none is registered,
      stays within the cap with the ticket's stake. */
  lemma AdmittedIsLive(scene: Scene, w: World, a: Id, limits: Limits, opp: Opportunity, v: Verdict)
    requires Decides(false, scene, w, a, limits, opp, v) && v.Admitted?
    ensures v.live in scene.live && v.live.group == opp.group && opp.group !in scene.settled
    ensures forall o :: Buys(v.live, o) <==> Buys(opp, o)
    ensures limits.maxDays.Some? && opp.group in scene.groups && scene.groups[opp.group].start.Some? ==>
              scene.groups[opp.group].start.value - scene.now <= limits.maxDays.value * 86400.0
    ensures limits.cap.Some? && v.live.group in scene.groups ==>
              Exposure(w, a, set leg | leg in scene.groups[v.live.group].legs :: leg.outcome) + v.live.stake <= limits.cap.value
    ensures limits.cap.Some? && v.live.group !in scene.groups ==>
              Exposure(w, a, set leg | leg in v.live.legs :: leg.outcome) + v.live.stake <= limits.cap.value
  {
    hide Exposure, StaleLegSkew, ImplausibleEdge;
    SameEdgeBuys(opp, v.live);
    DaysOut(scene, opp.group, limits.maxDays);
  }

  predicate Buys(opp: Opportunity, o: Id) { exists leg :: leg in opp.legs && leg.isBuy && leg.outcome == o }

  lemma SameEdgeBuys(opp: Opportunity, live: Opportunity)
    ensures SameEdge(opp, live) <==> live.group == opp.group && forall o :: Buys(live, o) <==> Buys(opp, o)
  {
    assert forall o :: o in BuyLegs(live) <==> Buys(live, o);
    assert forall o :: o in BuyLegs(opp) <==> Buys(opp, o);
    if forall o :: Buys(live, o) <==> Buys(opp, o) { assert BuyLegs(live) == BuyLegs(opp); }
  }

  lemma DaysOut(scene: Scene, group: Id, maxDays: Option<real>)
    ensures StartsTooFarOut(scene, group, maxDays) <==>
              && maxDays.Some? && group in scene.groups && scene.groups[group].start.Some?
              && scene.groups[group].start.value - scene.now > maxDays.value * 86400.0
  {
  }

  lemma PairCost(legs: seq<ArbLeg>)
    requires |legs| == 2
    ensures BuyCost(legs) == Outlay(legs[0]) + Outlay(legs[1])
    ensures legs == [legs[0], legs[1]]
  {
    assert BuyCost(legs[..1]) == BuyCost(legs[..1][..0]) + Outlay(legs[0]);
  }

  /** What a contract of a leg costs up front: a sale costs nothing. */
  function Outlay(leg: ArbLeg): real { if leg.isBuy then leg.price else 0.0 }

  lemma EdgeOfPair(live: Opportunity, maxEdge: Option<real>)
    requires ImplausibleEdge(live, maxEdge)
    ensures maxEdge.Some?
    ensures |live.legs| == 2 ==> 1.0 - (Outlay(live.legs[0]) + Outlay(live.legs[1])) > maxEdge.value
  {
    if |live.legs| == 2 { PairCost(live.legs); }
  }

  lemma SkewNamesLegs(live: Opportunity, ages: map<Id, real>, maxSkew: Option<real>)
    requires StaleLegSkew(live, ages, maxSkew)
    ensures exists o, p ::
      && maxSkew.Some? && Buys(live, o) && Buys(live, p)
      && (forall q :: Buys(live, q) ==> q in ages) && o in ages && p in ages
      && ages[o] - ages[p] > maxSkew.value
  {
    var o, p :| o in BuyLegs(live) && p in BuyLegs(live) && o != p && ages[o] - ages[p] > maxSkew.value;
    assert Buys(live, o) && Buys(live, p);
    forall q | Buys(live, q) ensures q in ages { assert q in BuyLegs(live); }
  }

  /** An admitted ticket of two buys is no more profitable per contract, before
      fees, than the ceiling allows, and where both its legs are quoted the two
      quotes are of moments no further apart than the limit. */
  lemma AdmittedIsPlausible(scene: Scene, w: World, a: Id, limits: Limits, opp: Opportunity, v: Verdict)
    requires Decides(false, scene, w, a, limits, opp, v) && v.Admitted?
    requires |v.live.legs| == 2 && forall leg :: leg in v.live.legs ==> leg.isBuy
    ensures limits.maxEdge.Some? ==> 1.0 - (v.live.legs[0].price + v.live.legs[1].price) <= limits.maxEdge.value
    ensures limits.maxSkew.Some? && limits.maxSkew.value >= 0.0 ==>
      var o, p := v.live.legs[0].outcome, v.live.legs[1].outcome;
      o in scene.ages && p in scene.ages ==> Abs(scene.ages[o] - scene.ages[p]) <= limits.maxSkew.value
  {
    hide Exposure, StartsTooFarOut, SameEdge;
    var live := v.live;
    PairCost(live.legs);
    assert BuyLegs(live) == {live.legs[0].outcome, live.legs[1].outcome};
  }

  /** Every refusal has its cause. */
  lemma RefusedForCause(draining: bool, scene: Scene, w: World, a: Id, limits: Limits, opp: Opportunity, v: Verdict)
    requires Decides(draining, scene, w, a, limits, opp, v)
    ensures v.Draining? <==> draining
    ensures v.AlreadySettled? ==> opp.group in scene.settled
    ensures v.TooFarOut? ==>
      && opp.group in scene.groups && scene.groups[opp.group].start.Some? && limits.maxDays.Some?
      && scene.groups[opp.group].start.value - scene.now > limits.maxDays.value * 86400.0
    ensures v.EdgeGone? ==> forall live :: live in scene.live && live.group == opp.group ==> exists o :: Buys(live, o) != Buys(opp, o)
    ensures v.Implausible? ==> exists live ::
      && live in scene.live && limits.maxEdge.Some?
      && (|live.legs| == 2 ==> 1.0 - (Outlay(live.legs[0]) + Outlay(live.legs[1])) > limits.maxEdge.value)
    ensures v.StaleSkew? ==> exists live, o, p ::
      && live in scene.live && limits.maxSkew.Some? && Buys(live, o) && Buys(live, p)
      && (forall q :: Buys(live, q) ==> q in scene.ages) && o in scene.ages && p in scene.ages
      && scene.ages[o] - scene.ages[p] > limits.maxSkew.value
    ensures v.PositionCap? ==> exists live ::
      && live in scene.live && limits.cap.Some?
      && Exposure(w, a, if live.group in scene.groups then (set leg | leg in scene.groups[live.group].legs :: leg.outcome)
                        else set leg | leg in live.legs :: leg.outcome)
           + live.stake > limits.cap.value
  {
    hide Exposure, StaleLegSkew, ImplausibleEdge, StartsTooFarOut, SameEdge;
    DaysOut(scene, opp.group, limits.maxDays);
    if v.EdgeGone? {
      forall live | live in scene.live && live.group == opp.group ensures exists o :: Buys(live, o) != Buys(opp, o) {
        SameEdgeBuys(opp, live);
      }
    }
    if v.PositionCap? || v.Implausible? || v.StaleSkew? {
      var i: nat :| FirstMatch(scene.live, opp, i) && v == JudgedLive(scene, w, a, limits, scene.live[i]);
      var live := scene.live[i];
      assert live in scene.live;
      if v.Implausible? { EdgeOfPair(live, limits.maxEdge); }
      if v.StaleSkew? { SkewNamesLegs(live, scene.ages, limits.maxSkew); }
    }
  }

  /** What the service admits, when detection finds what it finds under a stake
      limit, is a ticket the exposure bound covers: it may pass the check of the
      state machine whose every run stays within the cap and the concurrent
      stakes. */
  lemma AdmittedMayBeChecked(scene: Scene, d: Desk, g: Rules, limits: Limits, opp: Opportunity, v: Verdict, m: Market, s: Settings)
    requires Decides(false, scene, d.world, g.account, limits, opp, v) && v.Admitted?
    requires limits.cap == Some(g.cap)
    requires g.outcomes == if v.live.group in scene.groups then (set leg | leg in scene.groups[v.live.group].legs :: leg.outcome)
                           else set leg | leg in v.live.legs :: leg.outcome
    requires m.Valid() && ArbEngine.Budgeted(s) && s.maxStake.value <= g.maxStake
    requires forall found :: found in scene.live ==> FoundBy(m, s, found)
    requires g.venues.Keys == d.world.Keys && |d.pending| < g.width
    ensures Allowed(g, d, Check(v.live))
  {
    hide Costed, FoundBy, Exposure;
    AdmittedIsLive(scene, d.world, g.account, limits, opp, v);
    FoundIsCosted(m, s, v.live);
  }
}
