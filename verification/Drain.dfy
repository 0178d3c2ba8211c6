/** Shutting down around tickets in flight: the counter, the idle event, and
    when it is safe to tear the application down. */
module Drain {
  import opened Common

  /** The shutdown state every ticket submission reads and writes. */
  datatype Counters = Counters(draining: bool, inflight: nat, idle: bool)

  function Entered(c: Counters): Counters { c.(inflight := c.inflight + 1, idle := false) }

  function Exited(c: Counters): Counters {
    var n := if c.inflight > 0 then c.inflight - 1 else 0;
    c.(inflight := n, idle := n == 0 || c.idle)
  }

  class AppState {
    var draining: bool
    var inflight: nat
    var idle: bool

    constructor ()
      ensures Now() == Counters(false, 0, true)
    {
      draining, inflight, idle := false, 0, true;
    }

    function Now(): Counters
      reads this
    {
      Counters(draining, inflight, idle)
    }

    method BeginDraining()
      modifies this
      ensures Now() == old(Now()).(draining := true)
    {
      draining := true;
    }

    method EnterTicket()
      modifies this
      ensures Now() == Entered(old(Now()))
    {
      inflight := inflight + 1;
      idle := false;
    }

    method ExitTicket()
      modifies this
      ensures Now() == Exited(old(Now()))
    {
      inflight := if inflight - 1 > 0 then inflight - 1 else 0;
      if inflight == 0 {
        idle := true;
      }
    }

    /** The front of a submission: refused while draining, or for a reason of its
        own, and otherwise counted before its first await. */
    method Admit(refused: bool) returns (admitted: bool)
      modifies this
      ensures admitted <==> !old(draining) && !refused
      ensures Now() == if admitted then Entered(old(Now())) else old(Now())
    {
      if draining || refused {
        return false;
      }
      EnterTicket();
      return true;
    }
  }

  /** The whole process: the counters, the tickets between admission and exit,
      how many orders have been filled, and how shutdown stands. */
  datatype System = System(counters: Counters, active: set<Id>, fills: nat, drained: bool, timedOut: bool)

  const START := System(Counters(false, 0, true), {}, 0, false, false)

  /** What can happen between awaits. A ticket's commit fills all its orders in
      one step; however a ticket ends, it leaves. */
  datatype Event =
    | Arrive(ticket: Id, refused: bool)
    | Fill(ticket: Id, orders: nat)
    | Leave(ticket: Id)
    | Shutdown
    | WaitEnds
    | WaitTimesOut

  function Step(s: System, e: Event): System {
    match e
    case Arrive(t, refused) =>
      if s.counters.draining || refused || t in s.active then s
      else s.(counters := Entered(s.counters), active := s.active + {t})
    case Fill(t, n) => if t in s.active then s.(fills := s.fills + n) else s
    case Leave(t) => if t in s.active then s.(counters := Exited(s.counters), active := s.active - {t}) else s
    case Shutdown => s.(counters := s.counters.(draining := true))
    case WaitEnds =>
      if s.counters.draining && (s.counters.inflight == 0 || s.counters.idle) then s.(drained := true) else s
    case WaitTimesOut => if s.counters.draining then s.(timedOut := true) else s
  }

  function Run(s: System, es: seq<Event>): System
    decreases |es|
  {
    if es == [] then s else Run(Step(s, es[0]), es[1..])
  }

  /** The counter counts the tickets in flight, the idle event is set exactly
      when there is none, and a finished drain wait means there is none; no wait ends before draining
      has begun. */
  ghost predicate Inv(s: System) {
    && s.counters.inflight == |s.active|
    && (s.counters.idle <==> s.active == {})
    && (s.drained ==> s.counters.draining && s.active == {})
    && (s.timedOut ==> s.counters.draining)
  }

  lemma StepInv(s: System, e: Event)
    requires Inv(s)
    ensures Inv(Step(s, e))
    ensures s.counters.draining ==> Step(s, e).counters.draining && Step(s, e).active <= s.active
    ensures s.drained ==> Step(s, e).drained
    ensures s.active == {} ==> Step(s, e).fills == s.fills
  {
    if e.Leave? && e.ticket in s.active {
      assert |s.active - {e.ticket}| == |s.active| - 1;
      assert s.active - {e.ticket} == {} <==> |s.active - {e.ticket}| == 0;
    }
  }

  /** In every reachable state the idle event is set if and only if no ticket is
      in flight, and the counter is their number. */
  lemma {:induction false} IdleIffNoneInFlight(s: System, es: seq<Event>)
    requires Inv(s)
    ensures Inv(Run(s, es))
    decreases |es|
  {
    if es != [] {
      StepInv(s, es[0]);
      IdleIffNoneInFlight(Step(s, es[0]), es[1..]);
    }
  }

  /** Once draining has begun no ticket enters: those in flight only leave. */
  lemma {:induction false} NoneEnterWhileDraining(s: System, es: seq<Event>)
    requires Inv(s) && s.counters.draining
    ensures Run(s, es).counters.draining && Run(s, es).active <= s.active
    decreases |es|
  {
    if es != [] {
      StepInv(s, es[0]);
      NoneEnterWhileDraining(Step(s, es[0]), es[1..]);
    }
  }

  lemma {:induction false} NothingFills(s: System, es: seq<Event>)
    requires Inv(s) && s.counters.draining && s.active == {}
    ensures Run(s, es).fills == s.fills
    decreases |es|
  {
    if es != [] {
      StepInv(s, es[0]);
      NothingFills(Step(s, es[0]), es[1..]);
    }
  }

  lemma {:induction false} RunAppend(s: System, before: seq<Event>, after: seq<Event>)
    ensures Run(s, before + after) == Run(Run(s, before), after)
    decreases |before|
  {
    if before == [] {
      assert before + after == after;
    } else {
      assert (before + after)[1..] == before[1..] + after;
      RunAppend(Step(s, before[0]), before[1..], after);
    }
  }

  /** Drain safety: from start-up, once the wait has ended without timing out,
      nothing that follows fills an order. */
  lemma NoFillAfterDrain(before: seq<Event>, after: seq<Event>)
    requires Run(START, before).drained
    ensures Run(START, before + after).fills == Run(START, before).fills
  {
    IdleIffNoneInFlight(START, before);
    RunAppend(START, before, after);
    NothingFills(Run(START, before), after);
  }

  /** A ticket gets in exactly when it is neither refused nor too late, and a wait
      ends exactly when nothing is in flight. */
  lemma EntersExactly(s: System, t: nat, refused: bool)
    requires Inv(s)
    ensures t in Step(s, Arrive(t, refused)).active <==> t in s.active || (!refused && !s.counters.draining)
    ensures Step(s, WaitEnds).drained <==> s.drained || (s.counters.draining && s.active == {})
  {
  }

  /** Draining never gets stuck: once it has begun, tickets in flight need only
      leave for the wait to end. */
  lemma DrainCanEnd(before: seq<Event>) returns (after: seq<Event>)
    requires Run(START, before).counters.draining
    ensures Run(START, before + after).drained && forall e :: e in after ==> e.Leave? || e.WaitEnds?
  {
    IdleIffNoneInFlight(START, before);
    after := LastOut(Run(START, before));
    RunAppend(START, before, after);
  }

  lemma {:induction false} LastOut(s: System) returns (after: seq<Event>)
    requires Inv(s) && s.counters.draining
    ensures Run(s, after).drained && forall e :: e in after ==> e.Leave? || e.WaitEnds?
    decreases |s.active|
  {
    if s.active == {} {
      after := [WaitEnds];
      assert Run(s, after) == Run(Step(s, WaitEnds), []);
    } else {
      var t :| t in s.active;
      StepInv(s, Leave(t));
      var rest := LastOut(Step(s, Leave(t)));
      after := [Leave(t)] + rest;
    }
  }

  /** After the wait has timed out the promise is off exactly as long as a ticket
      is in flight: some continuation fills an order if and only if the counter is
      not zero. */
  lemma FillsAfterTimeoutExactly(before: seq<Event>)
    requires Run(START, before).timedOut
    ensures (exists after :: Run(START, before + after).fills > Run(START, before).fills)
       <==> Run(START, before).counters.inflight > 0
  {
    var s := Run(START, before);
    IdleIffNoneInFlight(START, before);
    if s.active == {} {
      forall after ensures Run(START, before + after).fills == s.fills {
        RunAppend(START, before, after);
        NothingFills(s, after);
      }
    } else {
      var t :| t in s.active;
      var after := [Fill(t, 1)];
      RunAppend(START, before, after);
      assert after[1..] == [];
      assert Run(START, before + after).fills == s.fills + 1;
    }
  }

  /** The wait is what makes it safe: after a timeout a ticket still in flight
      can fill. */
  lemma FillAfterTimeout()
    ensures var es := [Arrive(1, false), Shutdown, WaitTimesOut];
      Run(START, es).timedOut && Run(START, es + [Fill(1, 2)]).fills == 2
  {
    var es := [Arrive(1, false), Shutdown, WaitTimesOut];
    RunAppend(START, es, [Fill(1, 2)]);
    var s1 := Step(START, es[0]);
    var s2 := Step(s1, es[1]);
    var s3 := Step(s2, es[2]);
    assert es[1..] == [Shutdown, WaitTimesOut] && es[1..][1..] == [WaitTimesOut] && es[1..][1..][1..] == [];
    assert Run(START, es) == s3;
    assert Run(s3, [Fill(1, 2)]) == Step(s3, Fill(1, 2));
  }
}
