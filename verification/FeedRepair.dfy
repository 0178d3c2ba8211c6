/** Keeping a sharded market-data socket delivering: repairs in place, and the
    budget on dropping a connection for markets that will not come back. */
module FeedRepair {
  import opened Common

  const MAX_SLUGS_PER_SUBSCRIPTION: nat := 100
  const MAX_REPAIR_ATTEMPTS: nat := 5
  const MAX_ESCALATIONS_PER_SLUG: nat := 2
  const RECONNECT_COOLDOWN := 120.0

  datatype Settings = Settings(darkAfter: real, priorityDarkAfter: real)

  const DEFAULTS := Settings(120.0, 6.0)

  /** What outlives a connection: when each market last arrived, how many
      reconnects it has cost, and when each shard last reconnected for that. */
  datatype Feed = Feed(lastAt: map<Id, real>, escalations: map<Id, nat>, reconnectAt: map<nat, real>)

  /** What one connection keeps: repairs tried per market, and what it delivered. */
  datatype Connection = Connection(attempts: map<Id, nat>, delivered: set<Id>)

  function Count(m: map<Id, nat>, k: Id): nat { if k in m then m[k] else 0 }

  // ---- shards ----------------------------------------------------------------------

  /** The markets of each connection, in order. */
  function Shards(slugs: seq<Id>, size: nat): seq<seq<Id>>
    requires size > 0
    decreases |slugs|
  {
    if |slugs| <= size then (if slugs == [] then [] else [slugs])
    else [slugs[..size]] + Shards(slugs[size..], size)
  }

  function Joined(parts: seq<seq<Id>>): seq<Id> { if parts == [] then [] else parts[0] + Joined(parts[1..]) }

  /** Sharding loses no market, repeats none and overfills no connection. */
  lemma {:induction false} ShardsPartition(slugs: seq<Id>, size: nat)
    requires size > 0
    ensures Joined(Shards(slugs, size)) == slugs
    ensures forall part :: part in Shards(slugs, size) ==> 0 < |part| <= size
    decreases |slugs|
  {
    if |slugs| <= size {
      assert Joined([slugs]) == slugs + Joined([slugs][1..]);
    } else {
      var rest := Shards(slugs[size..], size);
      ShardsPartition(slugs[size..], size);
      assert ([slugs[..size]] + rest)[1..] == rest;
      assert slugs[..size] + slugs[size..] == slugs;
    }
  }

  // ---- one sweep ---------------------------------------------------------------------

  function Quiet(f: Feed, slug: Id, now: real): real { if slug in f.lastAt then now - f.lastAt[slug] else 0.0 }

  /** Silent past its deadline, with repairs left on this connection. */
  predicate IsDark(cfg: Settings, f: Feed, c: Connection, priority: set<Id>, now: real, slug: Id) {
    && Count(c.attempts, slug) < MAX_REPAIR_ATTEMPTS
    && Quiet(f, slug, now) > (if slug in priority then cfg.priorityDarkAfter else cfg.darkAfter)
  }

  /** Confirmed in play, out of repairs, still silent, and within its budget of
      reconnects. */
  predicate IsStuck(cfg: Settings, f: Feed, attempts: map<Id, nat>, confirmed: set<Id>, now: real, slug: Id) {
    && slug in confirmed
    && Count(attempts, slug) >= MAX_REPAIR_ATTEMPTS
    && Quiet(f, slug, now) > cfg.priorityDarkAfter
    && Count(f.escalations, slug) < MAX_ESCALATIONS_PER_SLUG
  }

  function DarkOf(cfg: Settings, f: Feed, c: Connection, priority: set<Id>, now: real, slugs: seq<Id>): seq<Id> {
    if slugs == [] then []
    else
      var n := |slugs| - 1;
      DarkOf(cfg, f, c, priority, now, slugs[..n]) + (if IsDark(cfg, f, c, priority, now, slugs[n]) then [slugs[n]] else [])
  }

  function StuckOf(cfg: Settings, f: Feed, attempts: map<Id, nat>, confirmed: set<Id>, now: real, slugs: seq<Id>): seq<Id> {
    if slugs == [] then []
    else
      var n := |slugs| - 1;
      StuckOf(cfg, f, attempts, confirmed, now, slugs[..n]) + (if IsStuck(cfg, f, attempts, confirmed, now, slugs[n]) then [slugs[n]] else [])
  }

  /** One more on the counter of each market listed. */
  function Bumped(m: map<Id, nat>, slugs: seq<Id>): map<Id, nat> {
    if slugs == [] then m
    else
      var n := |slugs| - 1;
      Bumped(m, slugs[..n])[slugs[n] := Count(Bumped(m, slugs[..n]), slugs[n]) + 1]
  }

  predicate Cooling(f: Feed, index: nat, now: real) {
    index in f.reconnectAt && now - f.reconnectAt[index] < RECONNECT_COOLDOWN
  }

  datatype Sweep = Sweep(feed: Feed, conn: Connection, asked: seq<Id>, escalated: bool)

  /** A sweep re-subscribes what is dark and, only then, may give the connection
      up for what is stuck. With nothing newly dark it does nothing at all. */
  function Swept(cfg: Settings, f: Feed, c: Connection, index: nat, slugs: seq<Id>, priority: set<Id>, confirmed: set<Id>, now: real): Sweep {
    var dark := DarkOf(cfg, f, c, priority, now, slugs);
    if dark == [] then Sweep(f, c, [], false)
    else
      var attempts := Bumped(c.attempts, dark);
      var stuck := StuckOf(cfg, f, attempts, confirmed, now, slugs);
      if stuck == [] || Cooling(f, index, now) then Sweep(f, c.(attempts := attempts), dark, false)
      else
        Sweep(f.(reconnectAt := f.reconnectAt[index := now], escalations := Bumped(f.escalations, stuck)),
              c.(attempts := attempts), dark, true)
  }

  // ---- frames ----------------------------------------------------------------------------

  /** A quote the venue stamped recently; a replayed book proves nothing. */
  predicate IsLive(cfg: Settings, age: Option<real>) { age.None? || age.value <= cfg.priorityDarkAfter }

  predicate AnyLive(cfg: Settings, ages: seq<Option<real>>) { exists age :: age in ages && IsLive(cfg, age) }

  /** One frame for a known market, with the age of each quote it carries. */
  function Framed(cfg: Settings, f: Feed, c: Connection, slug: Id, ages: seq<Option<real>>, now: real): (Feed, Connection) {
    (f.(lastAt := f.lastAt[slug := now],
        escalations := if AnyLive(cfg, ages) then f.escalations - {slug} else f.escalations),
     if ages == [] then c else Connection(c.attempts - {slug}, c.delivered + {slug}))
  }

  function Connected(f: Feed, slugs: seq<Id>, now: real): (g: Feed)
    ensures g.escalations == f.escalations && g.reconnectAt == f.reconnectAt
  {
    f.(lastAt := map slug | slug in f.lastAt.Keys + (set s | s in slugs) :: if slug in slugs then now else f.lastAt[slug])
  }

  const FRESH := Connection(map[], {})

  // ---- the adapter -----------------------------------------------------------------------

  class Adapter {
    const cfg: Settings
    const slugs: seq<Id>
    var lastAt: map<Id, real>
    var escalations: map<Id, nat>
    var reconnectAt: map<nat, real>

    constructor (cfg: Settings, slugs: seq<Id>)
      ensures this.cfg == cfg && this.slugs == slugs && Now() == Feed(map[], map[], map[])
    {
      this.cfg, this.slugs := cfg, slugs;
      lastAt, escalations, reconnectAt := map[], map[], map[];
    }

    function Now(): Feed
      reads this
    {
      Feed(lastAt, escalations, reconnectAt)
    }

    /** A fresh subscription: every market of the shard is timed from here. */
    method Connect(shard: seq<Id>, now: real) returns (conn: Connection)
      modifies this`lastAt
      ensures Now() == Connected(old(Now()), shard, now) && conn == FRESH
    {
      ghost var before := lastAt;
      for i := 0 to |shard|
        invariant lastAt == Connected(Feed(before, escalations, reconnectAt), shard[..i], now).lastAt
      {
        assert shard[..i + 1] == shard[..i] + [shard[i]];
        lastAt := lastAt[shard[i] := now];
      }
      assert shard[..|shard|] == shard;
      conn := FRESH;
    }

    /** A frame, quote by quote; a frame for a market never asked for is ignored. */
    method Deliver(slug: Id, ages: seq<Option<real>>, now: real, conn: Connection) returns (conn': Connection)
      modifies this`lastAt, this`escalations
      ensures if slug in slugs then (Now(), conn') == Framed(cfg, old(Now()), conn, slug, ages, now)
              else Now() == old(Now()) && conn' == conn
    {
      conn' := conn;
      if slug !in slugs {
        return;
      }
      lastAt := lastAt[slug := now];
      ghost var before := escalations;
      for i := 0 to |ages|
        invariant lastAt == old(lastAt)[slug := now] && reconnectAt == old(reconnectAt)
        invariant conn' == if i == 0 then conn else Connection(conn.attempts - {slug}, conn.delivered + {slug})
        invariant escalations == if AnyLive(cfg, ages[..i]) then before - {slug} else before
      {
        assert ages[..i + 1] == ages[..i] + [ages[i]];
        conn' := Connection(conn'.attempts - {slug}, conn'.delivered + {slug});
        if IsLive(cfg, ages[i]) {
          escalations := escalations - {slug};
        }
      }
      assert ages[..|ages|] == ages;
    }

    /** The repair sweep; `drop` is what the adapter raises. */
    method RepairSubscriptions(index: nat, shard: seq<Id>, conn: Connection, priority: set<Id>, confirmed: set<Id>, now: real)
      returns (conn': Connection, batches: seq<seq<Id>>, drop: bool)
      modifies this`escalations, this`reconnectAt
      ensures var s := Swept(cfg, old(Now()), conn, index, shard, priority, confirmed, now);
        && Now() == s.feed && conn' == s.conn && drop == s.escalated
        && batches == Shards(s.asked, MAX_SLUGS_PER_SUBSCRIPTION)
    {
      hide IsDark, IsStuck, Shards;
      ghost var f := Now();
      var dark: seq<Id> := [];
      for i := 0 to |shard|
        invariant dark == DarkOf(cfg, f, conn, priority, now, shard[..i])
      {
        assert shard[..i + 1][..i] == shard[..i];
        if IsDark(cfg, Now(), conn, priority, now, shard[i]) {
          dark := dark + [shard[i]];
        }
      }
      assert shard[..|shard|] == shard;
      batches := Batches(dark);
      if dark == [] {
        return conn, batches, false;
      }
      var attempts := conn.attempts;
      for i := 0 to |dark|
        invariant attempts == Bumped(conn.attempts, dark[..i])
      {
        assert dark[..i + 1][..i] == dark[..i];
        attempts := attempts[dark[i] := Count(attempts, dark[i]) + 1];
      }
      assert dark[..|dark|] == dark;
      conn' := conn.(attempts := attempts);
      drop := MaybeEscalate(index, shard, attempts, confirmed, now);
    }

    method MaybeEscalate(index: nat, shard: seq<Id>, attempts: map<Id, nat>, confirmed: set<Id>, now: real) returns (drop: bool)
      modifies this`escalations, this`reconnectAt
      ensures var stuck := StuckOf(cfg, old(Now()), attempts, confirmed, now, shard);
        && drop == (stuck != [] && !Cooling(old(Now()), index, now))
        && Now() == if !drop then old(Now())
                    else old(Now()).(reconnectAt := old(reconnectAt)[index := now], escalations := Bumped(old(escalations), stuck))
    {
      hide IsStuck;
      ghost var f := Now();
      var stuck: seq<Id> := [];
      for i := 0 to |shard|
        invariant stuck == StuckOf(cfg, f, attempts, confirmed, now, shard[..i])
      {
        assert shard[..i + 1][..i] == shard[..i];
        if IsStuck(cfg, Now(), attempts, confirmed, now, shard[i]) {
          stuck := stuck + [shard[i]];
        }
      }
      assert shard[..|shard|] == shard;
      if stuck == [] || Cooling(Now(), index, now) {
        return false;
      }
      reconnectAt := reconnectAt[index := now];
      for i := 0 to |stuck|
        invariant escalations == Bumped(f.escalations, stuck[..i]) && lastAt == f.lastAt && reconnectAt == f.reconnectAt[index := now]
      {
        assert stuck[..i + 1][..i] == stuck[..i];
        escalations := escalations[stuck[i] := Count(escalations, stuck[i]) + 1];
      }
      assert stuck[..|stuck|] == stuck;
      return true;
    }
  }

  method Batches(dark: seq<Id>) returns (batches: seq<seq<Id>>)
    ensures batches == Shards(dark, MAX_SLUGS_PER_SUBSCRIPTION)
  {
    batches := [];
    var i := 0;
    assert dark[0..] == dark;
    while i < |dark|
      invariant 0 <= i
      invariant Shards(dark, MAX_SLUGS_PER_SUBSCRIPTION) == batches + (if i < |dark| then Shards(dark[i..], MAX_SLUGS_PER_SUBSCRIPTION) else [])
      decreases |dark| - i
    {
      var end := if i + MAX_SLUGS_PER_SUBSCRIPTION < |dark| then i + MAX_SLUGS_PER_SUBSCRIPTION else |dark|;
      assert end < |dark| ==> dark[i..][..MAX_SLUGS_PER_SUBSCRIPTION] == dark[i..end] && dark[i..][MAX_SLUGS_PER_SUBSCRIPTION..] == dark[end..];
      assert dark[i..|dark|] == dark[i..];
      batches := batches + [dark[i..end]];
      i := i + MAX_SLUGS_PER_SUBSCRIPTION;
    }
  }

  // ---- every run --------------------------------------------------------------------------

  /** The feed and its open connections, by shard. */
  datatype System = System(feed: Feed, conns: map<nat, Connection>)

  datatype Event =
    | Connect(index: nat)
    | Frame(index: nat, slug: Id, ages: seq<Option<real>>)
    | RunSweep(index: nat, priority: set<Id>, confirmed: set<Id>)
    | Lost(index: nat)

  datatype Timed = Timed(now: real, event: Event)

  datatype Plan = Plan(cfg: Settings, slugs: seq<Id>, shards: seq<seq<Id>>)

  ghost predicate ValidPlan(p: Plan) {
    && (forall i, j :: 0 <= i < j < |p.slugs| ==> p.slugs[i] != p.slugs[j])
    && (forall k :: 0 <= k < |p.shards| ==> Distinct(p.shards[k]) && forall s :: s in p.shards[k] ==> s in p.slugs)
  }

  ghost predicate Distinct(s: seq<Id>) { forall i, j :: 0 <= i < j < |s| ==> s[i] != s[j] }

  /** The adapter's own shards make such a plan. */
  lemma {:induction false} ShardsMakePlan(cfg: Settings, slugs: seq<Id>, size: nat)
    requires size > 0 && Distinct(slugs)
    ensures ValidPlan(Plan(cfg, slugs, Shards(slugs, size)))
    decreases |slugs|
  {
    if |slugs| > size {
      ShardsMakePlan(cfg, slugs[size..], size);
      var rest := Shards(slugs[size..], size);
      forall k | 0 <= k < |Shards(slugs, size)|
        ensures Distinct(Shards(slugs, size)[k]) && forall s :: s in Shards(slugs, size)[k] ==> s in slugs
      {
        if k > 0 { assert Shards(slugs, size)[k] == rest[k - 1]; }
      }
    }
  }

  function SweepOf(p: Plan, s: System, e: Timed): Option<Sweep> {
    if e.event.RunSweep? && e.event.index in s.conns && e.event.index < |p.shards| then
      Some(Swept(p.cfg, s.feed, s.conns[e.event.index], e.event.index, p.shards[e.event.index], e.event.priority, e.event.confirmed, e.now))
    else None
  }

  predicate Escalates(p: Plan, s: System, e: Timed) { SweepOf(p, s, e).Some? && SweepOf(p, s, e).value.escalated }

  function Step(p: Plan, s: System, e: Timed): System {
    match e.event
    case Connect(i) => if i < |p.shards| then System(Connected(s.feed, p.shards[i], e.now), s.conns[i := FRESH]) else s
    case Frame(i, slug, ages) =>
      if i in s.conns && slug in p.slugs then
        var (feed, conn) := Framed(p.cfg, s.feed, s.conns[i], slug, ages, e.now);
        System(feed, s.conns[i := conn])
      else s
    case RunSweep(i, _, _) =>
      var r := SweepOf(p, s, e);
      if r.None? then s
      else System(r.value.feed, if r.value.escalated then s.conns - {i} else s.conns[i := r.value.conn])
    case Lost(i) => s.(conns := s.conns - {i})
  }

  function Run(p: Plan, s: System, es: seq<Timed>): System
    decreases |es|
  {
    if es == [] then s else Run(p, Step(p, s, es[0]), es[1..])
  }

  /** Connections given up for dark markets. */
  function Reconnects(p: Plan, s: System, es: seq<Timed>): nat
    decreases |es|
  {
    if es == [] then 0 else (if Escalates(p, s, es[0]) then 1 else 0) + Reconnects(p, Step(p, s, es[0]), es[1..])
  }

  predicate LiveFrame(p: Plan, e: Timed) { e.event.Frame? && AnyLive(p.cfg, e.event.ages) }

  function LiveFrames(p: Plan, es: seq<Timed>): nat {
    if es == [] then 0 else (if LiveFrame(p, es[0]) then 1 else 0) + LiveFrames(p, es[1..])
  }

  /** Reconnects the listed markets have been charged with and not given back. */
  function Spent(m: map<Id, nat>, slugs: seq<Id>): nat {
    if slugs == [] then 0 else Spent(m, slugs[..|slugs| - 1]) + Count(m, slugs[|slugs| - 1])
  }

  ghost predicate WithinBudget(f: Feed) { forall slug: Id :: Count(f.escalations, slug) <= MAX_ESCALATIONS_PER_SLUG }

  lemma {:induction false} BumpedReads(m: map<Id, nat>, slugs: seq<Id>, k: Id)
    requires Distinct(slugs)
    ensures Count(Bumped(m, slugs), k) == Count(m, k) + (if k in slugs then 1 else 0)
  {
    if slugs != [] {
      var n := |slugs| - 1;
      assert Distinct(slugs[..n]);
      BumpedReads(m, slugs[..n], k);
      assert k in slugs <==> k in slugs[..n] || k == slugs[n];
      assert slugs[n] !in slugs[..n];
    }
  }

  lemma {:induction false} DarkReads(cfg: Settings, f: Feed, c: Connection, priority: set<Id>, now: real, slugs: seq<Id>)
    ensures var dark := DarkOf(cfg, f, c, priority, now, slugs);
      && (forall s :: s in dark <==> s in slugs && IsDark(cfg, f, c, priority, now, s))
      && (Distinct(slugs) ==> Distinct(dark))
  {
    hide IsDark;
    if slugs != [] {
      var n := |slugs| - 1;
      DarkReads(cfg, f, c, priority, now, slugs[..n]);
      assert forall s :: s in slugs <==> s in slugs[..n] || s == slugs[n];
      if Distinct(slugs) {
        assert Distinct(slugs[..n]);
        assert slugs[n] !in slugs[..n];
      }
    }
  }

  /** A sweep asks again for exactly the markets silent past their deadline with
      repairs left, and never takes a market past its repairs. */
  lemma SweepAsksForDark(cfg: Settings, f: Feed, c: Connection, index: nat, slugs: seq<Id>, priority: set<Id>, confirmed: set<Id>, now: real, slug: Id)
    requires Distinct(slugs) && Count(c.attempts, slug) <= MAX_REPAIR_ATTEMPTS
    ensures var r := Swept(cfg, f, c, index, slugs, priority, confirmed, now);
      && (slug in r.asked <==>
            && slug in slugs && Count(c.attempts, slug) < MAX_REPAIR_ATTEMPTS
            && (if slug in f.lastAt then now - f.lastAt[slug] else 0.0) > (if slug in priority then cfg.priorityDarkAfter else cfg.darkAfter))
      && Count(r.conn.attempts, slug) == Count(c.attempts, slug) + (if slug in r.asked then 1 else 0)
      && Count(r.conn.attempts, slug) <= MAX_REPAIR_ATTEMPTS
  {
    hide Bumped, StuckOf, DarkOf;
    var dark := DarkOf(cfg, f, c, priority, now, slugs);
    DarkReads(cfg, f, c, priority, now, slugs);
    BumpedReads(c.attempts, dark, slug);
  }

  lemma {:induction false} StuckReads(cfg: Settings, f: Feed, attempts: map<Id, nat>, confirmed: set<Id>, now: real, slugs: seq<Id>)
    ensures var stuck := StuckOf(cfg, f, attempts, confirmed, now, slugs);
      && (forall s :: s in stuck <==> s in slugs && IsStuck(cfg, f, attempts, confirmed, now, s))
      && (Distinct(slugs) ==> Distinct(stuck))
  {
    hide IsStuck;
    if slugs != [] {
      var n := |slugs| - 1;
      StuckReads(cfg, f, attempts, confirmed, now, slugs[..n]);
      assert forall s :: s in slugs <==> s in slugs[..n] || s == slugs[n];
      if Distinct(slugs) {
        assert Distinct(slugs[..n]);
        assert slugs[n] !in slugs[..n];
      }
    }
  }

  lemma {:induction false} SpentRises(m: map<Id, nat>, n: map<Id, nat>, slugs: seq<Id>)
    requires forall k: Id :: Count(n, k) >= Count(m, k)
    ensures Spent(n, slugs) >= Spent(m, slugs)
    ensures (exists k :: k in slugs && Count(n, k) > Count(m, k)) ==> Spent(n, slugs) > Spent(m, slugs)
  {
    if slugs != [] {
      SpentRises(m, n, slugs[..|slugs| - 1]);
      assert slugs == slugs[..|slugs| - 1] + [slugs[|slugs| - 1]];
    }
  }

  lemma {:induction false} SpentFalls(m: map<Id, nat>, slug: Id, slugs: seq<Id>)
    requires Distinct(slugs) && Count(m, slug) <= MAX_ESCALATIONS_PER_SLUG
    ensures Spent(m, slugs) <= Spent(m - {slug}, slugs) + MAX_ESCALATIONS_PER_SLUG
    ensures slug !in slugs ==> Spent(m, slugs) == Spent(m - {slug}, slugs)
  {
    if slugs != [] {
      var n := |slugs| - 1;
      assert Distinct(slugs[..n]);
      SpentFalls(m, slug, slugs[..n]);
      assert slugs[n] !in slugs[..n];
    }
  }

  lemma {:induction false} SpentAtMost(m: map<Id, nat>, slugs: seq<Id>)
    requires forall k: Id :: Count(m, k) <= MAX_ESCALATIONS_PER_SLUG
    ensures Spent(m, slugs) <= MAX_ESCALATIONS_PER_SLUG * |slugs|
  {
    if slugs != [] {
      SpentAtMost(m, slugs[..|slugs| - 1]);
    }
  }

  /** A sweep gives the connection up exactly when something is newly dark, some
      market is stuck once the sweep's own repairs are counted, and the shard is
      not cooling down. */
  lemma EscalatesExactly(cfg: Settings, f: Feed, c: Connection, index: nat, slugs: seq<Id>, priority: set<Id>, confirmed: set<Id>, now: real)
    ensures var r := Swept(cfg, f, c, index, slugs, priority, confirmed, now);
      r.escalated <==>
        && r.asked != []
        && (exists s ::
              && s in slugs && s in confirmed && Count(r.conn.attempts, s) >= MAX_REPAIR_ATTEMPTS
              && (if s in f.lastAt then now - f.lastAt[s] else 0.0) > cfg.priorityDarkAfter
              && Count(f.escalations, s) < MAX_ESCALATIONS_PER_SLUG)
        && (index in f.reconnectAt ==> now - f.reconnectAt[index] >= RECONNECT_COOLDOWN)
  {
    hide IsDark, Bumped, DarkOf, StuckOf;
    var dark := DarkOf(cfg, f, c, priority, now, slugs);
    DarkReads(cfg, f, c, priority, now, slugs);
    if dark != [] {
      assert dark[0] in dark;
      var stuck := StuckOf(cfg, f, Bumped(c.attempts, dark), confirmed, now, slugs);
      StuckReads(cfg, f, Bumped(c.attempts, dark), confirmed, now, slugs);
      assert Swept(cfg, f, c, index, slugs, priority, confirmed, now).conn.attempts == Bumped(c.attempts, dark);
      if stuck != [] { assert stuck[0] in stuck; }
      if s :| s in slugs && IsStuck(cfg, f, Bumped(c.attempts, dark), confirmed, now, s) { assert s in stuck; }
    }
  }

  /** A market's silence is timed from its last frame on an open connection or the
      last subscription of its shard, and from nothing else. */
  lemma SilenceIsTimed(p: Plan, s: System, e: Timed, slug: Id)
    ensures var i, seen, seen' := e.event.index, s.feed.lastAt, Step(p, s, e).feed.lastAt;
      if (e.event.Connect? && i < |p.shards| && slug in p.shards[i])
         || (e.event.Frame? && e.event.slug == slug && i in s.conns && slug in p.slugs)
      then slug in seen' && seen'[slug] == e.now
      else (slug in seen' <==> slug in seen) && (slug in seen ==> seen'[slug] == seen[slug])
  {
    hide DarkOf, StuckOf, Bumped;
  }

  /** A market's reconnects are counted one up when its connection is dropped while
      it is stuck, cleared by a quote no older than the priority deadline, and
      otherwise kept, whatever connects, fails or is replayed. */
  lemma ReconnectsAreCounted(p: Plan, s: System, e: Timed, slug: Id)
    requires ValidPlan(p)
    ensures var i, spent := e.event.index, Count(s.feed.escalations, slug);
      Count(Step(p, s, e).feed.escalations, slug) ==
        if e.event.Frame? && e.event.slug == slug && i in s.conns && slug in p.slugs
           && exists age :: age in e.event.ages && (age.None? || age.value <= p.cfg.priorityDarkAfter) then 0
        else if e.event.RunSweep? && i in s.conns && i !in Step(p, s, e).conns && slug in p.shards[i] && slug in e.event.confirmed
                && Count(SweepOf(p, s, e).value.conn.attempts, slug) >= MAX_REPAIR_ATTEMPTS
                && (if slug in s.feed.lastAt then e.now - s.feed.lastAt[slug] else 0.0) > p.cfg.priorityDarkAfter
                && spent < MAX_ESCALATIONS_PER_SLUG then spent + 1
        else spent
  {
    hide IsDark, Bumped, DarkOf, StuckOf;
    if Escalates(p, s, e) {
      var i, c := e.event.index, s.conns[e.event.index];
      var attempts := Bumped(c.attempts, DarkOf(p.cfg, s.feed, c, e.event.priority, e.now, p.shards[i]));
      StuckReads(p.cfg, s.feed, attempts, e.event.confirmed, e.now, p.shards[i]);
      BumpedReads(s.feed.escalations, StuckOf(p.cfg, s.feed, attempts, e.event.confirmed, e.now, p.shards[i]), slug);
    }
  }

  /** A connection opens with no repair tried, counts one for each market a sweep
      finds dark, is forgiven a market's by a frame that quotes it, and goes when it
      is lost or dropped; and it has delivered what was quoted on it since. */
  lemma RepairsAreCounted(p: Plan, s: System, e: Timed, k: nat, slug: Id)
    requires ValidPlan(p) && k < |p.shards|
    ensures k in Step(p, s, e).conns <==>
              (e.event.index == k && e.event.Connect?)
              || (k in s.conns && !(e.event.index == k && (e.event.Lost? || Escalates(p, s, e))))
    ensures k in Step(p, s, e).conns ==>
              Count(Step(p, s, e).conns[k].attempts, slug) ==
                if e.event.Connect? && e.event.index == k then 0
                else
                  var tried := Count(s.conns[k].attempts, slug);
                  if e.event.index != k then tried
                  else if e.event.Frame? && e.event.slug == slug && slug in p.slugs && e.event.ages != [] then 0
                  else if e.event.RunSweep? && slug in p.shards[k] && tried < MAX_REPAIR_ATTEMPTS
                          && (if slug in s.feed.lastAt then e.now - s.feed.lastAt[slug] else 0.0)
                               > (if slug in e.event.priority then p.cfg.priorityDarkAfter else p.cfg.darkAfter) then tried + 1
                  else tried
    ensures k in Step(p, s, e).conns ==>
              (slug in Step(p, s, e).conns[k].delivered <==>
                 !(e.event.Connect? && e.event.index == k)
                 && (slug in s.conns[k].delivered
                     || (e.event.Frame? && e.event.index == k && e.event.slug == slug && slug in p.slugs && e.event.ages != [])))
  {
    hide Bumped, DarkOf, StuckOf, AnyLive;
    if e.event.RunSweep? && e.event.index == k && k in s.conns {
      var c := s.conns[k];
      var dark := DarkOf(p.cfg, s.feed, c, e.event.priority, e.now, p.shards[k]);
      DarkReads(p.cfg, s.feed, c, e.event.priority, e.now, p.shards[k]);
      BumpedReads(c.attempts, dark, slug);
    }
  }

  /** A reconnect charges at least one market within its budget. */
  lemma EscalationCharges(p: Plan, s: System, e: Timed)
    requires ValidPlan(p) && WithinBudget(s.feed) && Escalates(p, s, e)
    ensures var t := Step(p, s, e);
      && WithinBudget(t.feed)
      && Spent(t.feed.escalations, p.slugs) >= Spent(s.feed.escalations, p.slugs) + 1
  {
    hide IsStuck, IsDark, Bumped, StuckOf, DarkOf;
    var i := e.event.index;
    var c := s.conns[i];
    var dark := DarkOf(p.cfg, s.feed, c, e.event.priority, e.now, p.shards[i]);
    var attempts := Bumped(c.attempts, dark);
    var stuck := StuckOf(p.cfg, s.feed, attempts, e.event.confirmed, e.now, p.shards[i]);
    var t := Step(p, s, e);
    assert t.feed.escalations == Bumped(s.feed.escalations, stuck);
    StuckReads(p.cfg, s.feed, attempts, e.event.confirmed, e.now, p.shards[i]);
    forall k: Id ensures Count(t.feed.escalations, k) == Count(s.feed.escalations, k) + (if k in stuck then 1 else 0) {
      BumpedReads(s.feed.escalations, stuck, k);
    }
    forall k: Id ensures Count(t.feed.escalations, k) <= MAX_ESCALATIONS_PER_SLUG {
      if k in stuck { StuckHasBudget(p.cfg, s.feed, attempts, e.event.confirmed, e.now, k); }
    }
    assert stuck[0] in p.slugs by { assert stuck[0] in stuck; }
    SpentRises(s.feed.escalations, t.feed.escalations, p.slugs);
  }

  lemma StuckHasBudget(cfg: Settings, f: Feed, attempts: map<Id, nat>, confirmed: set<Id>, now: real, slug: Id)
    requires IsStuck(cfg, f, attempts, confirmed, now, slug)
    ensures Count(f.escalations, slug) < MAX_ESCALATIONS_PER_SLUG
  {
  }

  /** Any other event: only a live frame gives budget back, and one market's. */
  lemma OtherEventsRefund(p: Plan, s: System, e: Timed)
    requires ValidPlan(p) && WithinBudget(s.feed) && !Escalates(p, s, e)
    ensures var t := Step(p, s, e);
      && WithinBudget(t.feed)
      && (!LiveFrame(p, e) ==> t.feed.escalations == s.feed.escalations)
      && Spent(s.feed.escalations, p.slugs) <= Spent(t.feed.escalations, p.slugs) + (if LiveFrame(p, e) then MAX_ESCALATIONS_PER_SLUG else 0)
  {
    hide Swept, Spent, AnyLive, Connected;
    var t := Step(p, s, e);
    if e.event.RunSweep? && SweepOf(p, s, e).Some? { QuietSweep(p, s, e); }
    if t.feed.escalations != s.feed.escalations {
      SpentFalls(s.feed.escalations, e.event.slug, p.slugs);
      assert Count(s.feed.escalations, e.event.slug) <= MAX_ESCALATIONS_PER_SLUG;
      assert forall k: Id :: Count(t.feed.escalations, k) <= Count(s.feed.escalations, k);
    }
  }

  lemma QuietSweep(p: Plan, s: System, e: Timed)
    requires SweepOf(p, s, e).Some? && !SweepOf(p, s, e).value.escalated
    ensures SweepOf(p, s, e).value.feed == s.feed
  {
  }

  /** Bounded escalation, in every run over any number of connection lifetimes:
      no market's budget is ever exceeded, and the connections given up are at
      most twice the markets plus the live frames received. */
  lemma {:induction false} ReconnectsBounded(p: Plan, s: System, es: seq<Timed>)
    requires ValidPlan(p) && WithinBudget(s.feed)
    ensures var t := Run(p, s, es);
      && WithinBudget(t.feed)
      && Reconnects(p, s, es) + Spent(s.feed.escalations, p.slugs)
           <= Spent(t.feed.escalations, p.slugs) + MAX_ESCALATIONS_PER_SLUG * LiveFrames(p, es)
      && Reconnects(p, s, es) <= MAX_ESCALATIONS_PER_SLUG * (|p.slugs| + LiveFrames(p, es))
    decreases |es|
  {
    hide Step, Escalates, LiveFrame, ValidPlan, WithinBudget;
    if es == [] {
      BudgetSpent(p, s);
    } else {
      if Escalates(p, s, es[0]) {
        EscalationCharges(p, s, es[0]);
      } else {
        OtherEventsRefund(p, s, es[0]);
      }
      ReconnectsBounded(p, Step(p, s, es[0]), es[1..]);
      BudgetSpent(p, Run(p, s, es));
    }
  }

  lemma BudgetSpent(p: Plan, s: System)
    requires WithinBudget(s.feed)
    ensures Spent(s.feed.escalations, p.slugs) <= MAX_ESCALATIONS_PER_SLUG * |p.slugs|
  {
    SpentAtMost(s.feed.escalations, p.slugs);
  }

  /** A replayed snapshot never restores the right to drop a connection. */
  lemma ReplayRestoresNothing(p: Plan, s: System, e: Timed)
    requires e.event.Frame? && (forall age :: age in e.event.ages ==> age.Some? && age.value > p.cfg.priorityDarkAfter)
    ensures Step(p, s, e).feed.escalations == s.feed.escalations
  {
  }

  // ---- spacing ------------------------------------------------------------------------------

  predicate Monotonic(from: real, es: seq<Timed>)
    decreases |es|
  {
    es == [] || (from <= es[0].now && Monotonic(es[0].now, es[1..]))
  }

  /** When one shard gave its connection up. */
  function ReconnectTimes(p: Plan, s: System, index: nat, es: seq<Timed>): seq<real>
    decreases |es|
  {
    if es == [] then []
    else
      (if Escalates(p, s, es[0]) && es[0].event.index == index then [es[0].now] else [])
      + ReconnectTimes(p, Step(p, s, es[0]), index, es[1..])
  }

  predicate Spaced(times: seq<real>) {
    forall i :: 0 < i < |times| ==> times[i] - times[i - 1] >= RECONNECT_COOLDOWN
  }

  lemma ReconnectStamped(p: Plan, s: System, index: nat, e: Timed)
    ensures var t := Step(p, s, e);
      if Escalates(p, s, e) && e.event.index == index then
        && !Cooling(s.feed, index, e.now)
        && index in t.feed.reconnectAt && t.feed.reconnectAt[index] == e.now
      else
        && (index in t.feed.reconnectAt <==> index in s.feed.reconnectAt)
        && (index in s.feed.reconnectAt ==> t.feed.reconnectAt[index] == s.feed.reconnectAt[index])
  {
  }

  /** One shard's reconnects are at least the cooldown apart. */
  lemma {:induction false} CooldownSpacing(p: Plan, s: System, index: nat, es: seq<Timed>, from: real)
    requires Monotonic(from, es)
    ensures var times := ReconnectTimes(p, s, index, es);
      && Spaced(times)
      && (times != [] && index in s.feed.reconnectAt ==> times[0] - s.feed.reconnectAt[index] >= RECONNECT_COOLDOWN)
    decreases |es|
  {
    hide Step, Escalates;
    if es != [] {
      ReconnectStamped(p, s, index, es[0]);
      var t := Step(p, s, es[0]);
      var rest := ReconnectTimes(p, t, index, es[1..]);
      CooldownSpacing(p, t, index, es[1..], es[0].now);
      if Escalates(p, s, es[0]) && es[0].event.index == index {
        forall i | 0 < i < |[es[0].now] + rest|
          ensures ([es[0].now] + rest)[i] - ([es[0].now] + rest)[i - 1] >= RECONNECT_COOLDOWN
        {
          if i > 1 { assert rest[i - 1] - rest[i - 2] >= RECONNECT_COOLDOWN; }
        }
      }
    }
  }
}
