/** Matching the venues' listings of one game, and turning a match into a group
    of legs on one proposition. */
module Matcher {
  import opened Common
  import opened Types
  import opened Meaning

  const START_TIME_TOLERANCE := 5400.0
  const DAY := 86400.0

  /** Exact starts decide where both venues publish one; dates are only a
      fallback, because the venues do not mean the same day by them. */
  predicate SameFixture(a: Game, b: Game, tolDays: nat) {
    if a.start.Some? && b.start.Some? then Abs(a.start.value - b.start.value) <= START_TIME_TOLERANCE
    else -(tolDays as int) <= a.date - b.date <= tolDays
  }

  function Distance(g: Game, anchor: Game): real {
    if g.start.Some? && anchor.start.Some? then Abs(g.start.value - anchor.start.value)
    else Abs((g.date - anchor.date) as real) * DAY
  }

  /** Type, line and anchor are part of a bet's identity. */
  type PairKey = (Id, MarketType, Option<real>, Option<Id>, set<Id>)

  function KeyOf(g: Game): PairKey { (g.sport, g.marketType, g.line, g.anchor, {g.teams.0, g.teams.1}) }

  /** Chronological, games with an exact start first. */
  predicate OrderedBefore(a: Game, b: Game) {
    if a.start.Some? != b.start.Some? then a.start.Some?
    else
      var x := if a.start.Some? then a.start.value else a.date as real;
      var y := if b.start.Some? then b.start.value else b.date as real;
      x < y || (x == y && a.venue <= b.venue)
  }

  function Inserted(s: seq<Game>, g: Game): seq<Game> {
    if s == [] || OrderedBefore(s[|s| - 1], g) then s + [g]
    else Inserted(s[..|s| - 1], g) + [s[|s| - 1]]
  }

  function SortGames(s: seq<Game>): seq<Game> {
    if s == [] then [] else Inserted(SortGames(s[..|s| - 1]), s[|s| - 1])
  }

  lemma {:induction false} InsertedKeeps(s: seq<Game>, g: Game)
    ensures multiset(Inserted(s, g)) == multiset(s) + multiset{g}
  {
    if s != [] && !OrderedBefore(s[|s| - 1], g) {
      InsertedKeeps(s[..|s| - 1], g);
      assert s == s[..|s| - 1] + [s[|s| - 1]];
    }
  }

  lemma {:induction false} SortKeeps(s: seq<Game>)
    ensures multiset(SortGames(s)) == multiset(s)
  {
    if s != [] {
      SortKeeps(s[..|s| - 1]);
      InsertedKeeps(SortGames(s[..|s| - 1]), s[|s| - 1]);
      assert s == s[..|s| - 1] + [s[|s| - 1]];
    }
  }

  ghost predicate Chronological(s: seq<Game>) { forall i, j :: 0 <= i < j < |s| ==> OrderedBefore(s[i], s[j]) }

  lemma {:induction false} InsertedInOrder(s: seq<Game>, g: Game)
    requires Chronological(s)
    ensures Chronological(Inserted(s, g))
  {
    if s != [] && OrderedBefore(s[|s| - 1], g) {
      BeforeLast(s, g);
    } else if s != [] {
      var rest, last := s[..|s| - 1], s[|s| - 1];
      InsertedInOrder(rest, g);
      InsertedKeeps(rest, g);
      var t := Inserted(rest, g);
      forall x | x in t ensures OrderedBefore(x, last) {
        assert x in multiset(t);
        assert x in rest || x == g;
      }
      BeforeLast(t, last);
    }
  }

  lemma BeforeLast(s: seq<Game>, g: Game)
    requires Chronological(s) && (s != [] ==> OrderedBefore(s[|s| - 1], g))
    ensures Chronological(s + [g])
  {
  }

  lemma {:induction false} SortIsChronological(s: seq<Game>)
    ensures Chronological(SortGames(s))
  {
    if s != [] {
      SortIsChronological(s[..|s| - 1]);
      InsertedInOrder(SortGames(s[..|s| - 1]), s[|s| - 1]);
    }
  }

  // ---- one bucket ------------------------------------------------------------------------

  /** One pass around an anchor: which game each venue contributed, by index. */
  datatype Round = Round(anchor: nat, chosen: map<Id, nat>)

  /** Indices claimed by the first k rounds, kept or discarded. */
  function Taken(rounds: seq<Round>, k: nat): set<nat>
    requires k <= |rounds|
  {
    if k == 0 then {} else Taken(rounds, k - 1) + rounds[k - 1].chosen.Values
  }

  predicate Candidate(games: seq<Game>, taken: set<nat>, i: nat, tolDays: nat, j: nat)
    requires i < |games|
  {
    i <= j < |games| && j !in taken && SameFixture(games[j], games[i], tolDays)
  }

  /** The candidate of its venue nearest the anchor, and the first among equals. */
  ghost predicate Nearest(games: seq<Game>, taken: set<nat>, i: nat, tolDays: nat, j: nat, upTo: nat)
    requires i < |games|
  {
    && j < upTo && Candidate(games, taken, i, tolDays, j)
    && forall k: nat :: k < upTo && Candidate(games, taken, i, tolDays, k) && games[k].venue == games[j].venue ==>
         && Distance(games[j], games[i]) <= Distance(games[k], games[i])
         && (k < j ==> Distance(games[j], games[i]) < Distance(games[k], games[i]))
  }

  ghost predicate Clustered(games: seq<Game>, taken: set<nat>, i: nat, tolDays: nat, chosen: map<Id, nat>, upTo: nat)
    requires i < |games|
  {
    && (forall v :: v in chosen ==> Nearest(games, taken, i, tolDays, chosen[v], upTo) && chosen[v] < |games| && games[chosen[v]].venue == v)
    && (forall k: nat :: k < upTo && Candidate(games, taken, i, tolDays, k) ==> games[k].venue in chosen)
  }

  /** Greedily gathers one cluster around the earliest unclaimed game. */
  method Gather(games: seq<Game>, taken: set<nat>, i: nat, tolDays: nat) returns (chosen: map<Id, nat>)
    requires i < |games|
    ensures Clustered(games, taken, i, tolDays, chosen, |games|)
  {
    chosen := map[];
    for j := i to |games|
      invariant Clustered(games, taken, i, tolDays, chosen, j)
    {
      hide SameFixture, Distance;
      if j in taken || !SameFixture(games[j], games[i], tolDays) {
        Unchanged(games, taken, i, tolDays, chosen, j);
        continue;
      }
      var v := games[j].venue;
      assert v in chosen ==> chosen[v] < |games|;
      if v !in chosen || Distance(games[j], games[i]) < Distance(games[chosen[v]], games[i]) {
        chosen := chosen[v := j];
      }
    }
  }

  lemma Unchanged(games: seq<Game>, taken: set<nat>, i: nat, tolDays: nat, chosen: map<Id, nat>, j: nat)
    requires i < |games| && Clustered(games, taken, i, tolDays, chosen, j) && !Candidate(games, taken, i, tolDays, j)
    ensures Clustered(games, taken, i, tolDays, chosen, j + 1)
  {
  }

  /** A round's anchor is the earliest game not yet claimed, every game before it
      is claimed, and the round takes the nearest candidate of each venue. */
  ghost predicate ValidRound(games: seq<Game>, tolDays: nat, rounds: seq<Round>, k: nat)
    requires k < |rounds|
  {
    var r, taken := rounds[k], Taken(rounds, k);
    && r.anchor < |games| && r.anchor !in taken
    && (forall j: nat :: j < r.anchor ==> j in taken)
    && Clustered(games, taken, r.anchor, tolDays, r.chosen, |games|)
  }

  ghost predicate ValidRounds(games: seq<Game>, tolDays: nat, rounds: seq<Round>) {
    forall k :: 0 <= k < |rounds| ==> ValidRound(games, tolDays, rounds, k)
  }

  datatype Match = Match(
    sport: Id,
    date: int,
    teamA: Id,
    teamB: Id,
    perVenue: map<Id, Game>,
    marketType: MarketType,
    line: Option<real>,
    anchor: Option<Id>)

  function MatchOf(games: seq<Game>, r: Round): Match
    requires r.anchor < |games| && forall v :: v in r.chosen ==> r.chosen[v] < |games|
  {
    var g := games[r.anchor];
    Match(g.sport, g.date, TeamA(g), TeamB(g), map v | v in r.chosen :: games[r.chosen[v]], g.marketType, g.line, g.anchor)
  }

  /** Only a cluster of at least two venues becomes a match. */
  ghost function MatchesOf(games: seq<Game>, rounds: seq<Round>, n: nat): seq<Match>
    requires n <= |rounds| && forall k :: 0 <= k < n ==> Indexed(games, rounds[k])
  {
    if n == 0 then []
    else
      assert Indexed(games, rounds[n - 1]);
      MatchesOf(games, rounds, n - 1) + (if |rounds[n - 1].chosen| < 2 then [] else [MatchOf(games, rounds[n - 1])])
  }

  predicate Indexed(games: seq<Game>, r: Round) {
    r.anchor < |games| && forall v :: v in r.chosen ==> r.chosen[v] < |games|
  }

  /** A bucket clustered to the end: every game claimed by a valid round. */
  ghost predicate ClusteredBy(games: seq<Game>, tolDays: nat, rounds: seq<Round>): (b: bool)
    ensures b ==> forall k :: 0 <= k < |rounds| ==> Indexed(games, rounds[k])
  {
    && ValidRounds(games, tolDays, rounds)
    && (forall k :: 0 <= k < |rounds| ==> Indexed(games, rounds[k]))
    && (forall j: nat :: j < |games| ==> j in Taken(rounds, |rounds|))
  }

  method MatchBucket(games: seq<Game>, tolDays: nat) returns (matches: seq<Match>)
    ensures exists rounds :: ClusteredBy(games, tolDays, rounds) && matches == MatchesOf(games, rounds, |rounds|)
  {
    hide Clustered, MatchOf;
    matches := [];
    ghost var rounds: seq<Round> := [];
    var claimed: set<nat> := {};
    for i := 0 to |games|
      invariant ValidRounds(games, tolDays, rounds)
      invariant forall k :: 0 <= k < |rounds| ==> Indexed(games, rounds[k])
      invariant claimed == Taken(rounds, |rounds|)
      invariant forall j: nat :: j < i ==> j in claimed
      invariant matches == MatchesOf(games, rounds, |rounds|)
    {
      if i in claimed {
        continue;
      }
      var chosen := Gather(games, claimed, i, tolDays);
      AnchorChosen(games, claimed, i, tolDays, chosen);
      ghost var r := Round(i, chosen);
      RoundAppended(games, tolDays, rounds, r);
      claimed := claimed + chosen.Values;
      rounds := rounds + [r];
      if |chosen| < 2 {
        continue;
      }
      matches := matches + [MatchOf(games, Round(i, chosen))];
    }
    assert ClusteredBy(games, tolDays, rounds);
  }

  /** The anchor is its own nearest candidate, so every round claims it. */
  lemma AnchorChosen(games: seq<Game>, taken: set<nat>, i: nat, tolDays: nat, chosen: map<Id, nat>)
    requires i < |games| && i !in taken && Clustered(games, taken, i, tolDays, chosen, |games|)
    ensures games[i].venue in chosen && chosen[games[i].venue] == i && i in chosen.Values
    ensures Indexed(games, Round(i, chosen))
  {
  }

  lemma {:induction false} TakenPrefix(rounds: seq<Round>, r: Round, k: nat)
    requires k <= |rounds|
    ensures Taken(rounds + [r], k) == Taken(rounds, k)
  {
    if k > 0 { TakenPrefix(rounds, r, k - 1); }
  }

  lemma {:induction false} MatchesPrefix(games: seq<Game>, rounds: seq<Round>, r: Round, n: nat)
    requires n <= |rounds| && forall k :: 0 <= k < n ==> Indexed(games, rounds[k])
    ensures MatchesOf(games, rounds + [r], n) == MatchesOf(games, rounds, n)
  {
    hide MatchOf;
    if n > 0 { MatchesPrefix(games, rounds, r, n - 1); }
  }

  lemma RoundAppended(games: seq<Game>, tolDays: nat, rounds: seq<Round>, r: Round)
    requires ValidRounds(games, tolDays, rounds) && forall k :: 0 <= k < |rounds| ==> Indexed(games, rounds[k])
    requires r.anchor < |games| && r.anchor !in Taken(rounds, |rounds|) && Indexed(games, r)
    requires forall j: nat :: j < r.anchor ==> j in Taken(rounds, |rounds|)
    requires Clustered(games, Taken(rounds, |rounds|), r.anchor, tolDays, r.chosen, |games|)
    ensures ValidRounds(games, tolDays, rounds + [r])
    ensures Taken(rounds + [r], |rounds| + 1) == Taken(rounds, |rounds|) + r.chosen.Values
    ensures MatchesOf(games, rounds + [r], |rounds| + 1)
         == MatchesOf(games, rounds, |rounds|) + (if |r.chosen| < 2 then [] else [MatchOf(games, r)])
  {
    hide Clustered, MatchOf;
    var more := rounds + [r];
    forall k | 0 <= k < |more| ensures ValidRound(games, tolDays, more, k) {
      TakenPrefix(rounds, r, k);
      if k < |rounds| { assert ValidRound(games, tolDays, rounds, k); }
    }
    TakenPrefix(rounds, r, |rounds|);
    MatchesPrefix(games, rounds, r, |rounds|);
  }

  // ---- what clustering guarantees ----------------------------------------------------------

  lemma {:induction false} TakenGrows(rounds: seq<Round>, i: nat, k: nat)
    requires i <= k <= |rounds|
    ensures Taken(rounds, i) <= Taken(rounds, k)
  {
    if i < k { TakenGrows(rounds, i, k - 1); }
  }

  /** Each game is in at most one cluster, and under its own venue. */
  lemma EachGameOnce(games: seq<Game>, tolDays: nat, rounds: seq<Round>, k: nat, l: nat, u: Id, v: Id)
    requires ValidRounds(games, tolDays, rounds) && k <= l < |rounds|
    requires u in rounds[k].chosen && v in rounds[l].chosen && rounds[k].chosen[u] == rounds[l].chosen[v]
    ensures k == l && u == v
  {
    hide SameFixture, Distance;
    assert ValidRound(games, tolDays, rounds, k) && ValidRound(games, tolDays, rounds, l);
    assert rounds[k].chosen[u] in Taken(rounds, k + 1);
    assert rounds[l].chosen[v] !in Taken(rounds, l) by {
      assert Nearest(games, Taken(rounds, l), rounds[l].anchor, tolDays, rounds[l].chosen[v], |games|);
    }
    if k < l { TakenGrows(rounds, k + 1, l); }
  }

  /** A kept cluster: the anchor and its nearest unclaimed candidate on every
      venue that has one, all the same fixture. */
  lemma ClusterIsNearest(games: seq<Game>, tolDays: nat, rounds: seq<Round>, k: nat, v: Id, j: nat)
    requires ValidRounds(games, tolDays, rounds) && k < |rounds|
    ensures var r := rounds[k];
      && Indexed(games, r)
      && games[r.anchor].venue in r.chosen && r.chosen[games[r.anchor].venue] == r.anchor
      && (v in r.chosen ==> games[r.chosen[v]].venue == v && SameFixture(games[r.chosen[v]], games[r.anchor], tolDays))
      && (j < |games| && j !in Taken(rounds, k) && SameFixture(games[j], games[r.anchor], tolDays) && games[j].venue == v ==>
            v in r.chosen && Distance(games[r.chosen[v]], games[r.anchor]) <= Distance(games[j], games[r.anchor]))
  {
    hide SameFixture, Distance;
    var r, taken := rounds[k], Taken(rounds, k);
    assert ValidRound(games, tolDays, rounds, k);
    AnchorChosen(games, taken, r.anchor, tolDays, r.chosen);
    if j < |games| && j !in taken && SameFixture(games[j], games[r.anchor], tolDays) && games[j].venue == v {
      assert Candidate(games, taken, r.anchor, tolDays, j);
      assert Nearest(games, taken, r.anchor, tolDays, r.chosen[v], |games|);
    }
  }

  /** What being together means: two games of a cluster whose starts are known start
      within ninety minutes of the anchor's, and otherwise their dates are within
      the tolerance; an unclaimed game that is so close is not left out; and of two
      with known starts on one venue the one that starts nearer is taken. */
  lemma ClusterIsClose(games: seq<Game>, tolDays: nat, rounds: seq<Round>, k: nat, v: Id, j: nat)
    requires ValidRounds(games, tolDays, rounds) && k < |rounds|
    ensures var r := rounds[k];
      && Indexed(games, r)
      && (v in r.chosen ==> Close(games[r.chosen[v]], games[r.anchor], tolDays))
      && (j < |games| && j !in Taken(rounds, k) && Close(games[j], games[r.anchor], tolDays) && games[j].venue == v ==> v in r.chosen)
      && (j < |games| && j !in Taken(rounds, k) && Close(games[j], games[r.anchor], tolDays) && games[j].venue == v
          && games[j].start.Some? && games[r.anchor].start.Some? && games[r.chosen[v]].start.Some? ==>
            Apart(games[r.chosen[v]].start.value, games[r.anchor].start.value) <= Apart(games[j].start.value, games[r.anchor].start.value))
  {
    ClusterIsNearest(games, tolDays, rounds, k, v, j);
  }

  function Apart(a: real, b: real): real { if a <= b then b - a else a - b }

  /** Ninety minutes between known starts, else the tolerance between dates. */
  predicate Close(a: Game, b: Game, tolDays: nat) {
    if a.start.Some? && b.start.Some? then Apart(a.start.value, b.start.value) <= 90.0 * 60.0
    else a.date <= b.date + tolDays && b.date <= a.date + tolDays
  }

  /** A discarded cluster gave nothing up: no unclaimed game of the same fixture
      was listed by any other venue. */
  lemma DiscardedHadNoPartner(games: seq<Game>, tolDays: nat, rounds: seq<Round>, k: nat, j: nat)
    requires ValidRounds(games, tolDays, rounds) && k < |rounds| && |rounds[k].chosen| < 2 && rounds[k].anchor < |games|
    requires j < |games| && j !in Taken(rounds, k) && SameFixture(games[j], games[rounds[k].anchor], tolDays)
    ensures games[j].venue == games[rounds[k].anchor].venue
  {
    hide SameFixture, Distance;
    ClusterIsNearest(games, tolDays, rounds, k, games[j].venue, j);
    var keys := rounds[k].chosen.Keys;
    var u, v := games[j].venue, games[rounds[k].anchor].venue;
    assert {u, v} <= keys;
    SubsetSize({u, v}, keys);
    assert u != v ==> |{u, v}| == 2;
  }

  // ---- every bucket ------------------------------------------------------------------------------

  /** One bucket of listings, as it was clustered. */
  datatype Part = Part(key: PairKey, games: seq<Game>, rounds: seq<Round>)

  function Under(games: seq<Game>, key: PairKey): seq<Game> {
    if games == [] then []
    else
      var n := |games| - 1;
      Under(games[..n], key) + (if KeyOf(games[n]) == key then [games[n]] else [])
  }

  lemma {:induction false} UnderIsFilter(games: seq<Game>, key: PairKey, g: Game)
    ensures g in Under(games, key) <==> g in games && KeyOf(g) == key
    ensures multiset(Under(games, key))[g] == if KeyOf(g) == key then multiset(games)[g] else 0
  {
    if games != [] {
      var n := |games| - 1;
      UnderIsFilter(games[..n], key, g);
      assert games == games[..n] + [games[n]];
    }
  }

  predicate SingleVenue(games: seq<Game>) { forall g, h :: g in games && h in games ==> g.venue == h.venue }

  ghost predicate ValidPart(all: seq<Game>, tolDays: nat, p: Part) {
    && p.games == SortGames(Under(all, p.key))
    && !SingleVenue(p.games)
    && ClusteredBy(p.games, tolDays, p.rounds)
  }

  ghost function AllMatches(all: seq<Game>, tolDays: nat, parts: seq<Part>): seq<Match>
    requires forall p :: p in parts ==> ValidPart(all, tolDays, p)
  {
    if parts == [] then []
    else
      var n := |parts| - 1;
      assert ValidPart(all, tolDays, parts[n]);
      assert ClusteredBy(parts[n].games, tolDays, parts[n].rounds);
      AllMatches(all, tolDays, parts[..n]) + MatchesOf(parts[n].games, parts[n].rounds, |parts[n].rounds|)
  }

  function Flat(lists: seq<seq<Game>>): seq<Game> {
    if lists == [] then [] else Flat(lists[..|lists| - 1]) + lists[|lists| - 1]
  }

  lemma {:induction false} FlatHolds(lists: seq<seq<Game>>, g: Game)
    ensures g in Flat(lists) <==> exists list :: list in lists && g in list
  {
    if lists != [] {
      var n := |lists| - 1;
      FlatHolds(lists[..n], g);
      assert forall list :: list in lists <==> list in lists[..n] || list == lists[n];
    }
  }

  /** The buckets, in the order their keys were first seen. */
  ghost predicate Bucketed(done: seq<Game>, buckets: map<PairKey, seq<Game>>, keys: seq<PairKey>) {
    && (forall k :: k in keys <==> k in buckets)
    && (forall i, j :: 0 <= i < j < |keys| ==> keys[i] != keys[j])
    && (forall k :: k in buckets ==> buckets[k] == Under(done, k))
    && (forall g :: g in done ==> KeyOf(g) in buckets)
  }

  method Bucket(lists: seq<seq<Game>>) returns (buckets: map<PairKey, seq<Game>>, keys: seq<PairKey>)
    ensures Bucketed(Flat(lists), buckets, keys)
  {
    hide KeyOf, Under, Bucketed;
    buckets, keys := map[], [];
    NoneBucketed();
    ghost var done: seq<Game> := [];
    for i := 0 to |lists|
      invariant done == Flat(lists[..i]) && Bucketed(done, buckets, keys)
    {
      ghost var start := done;
      for j := 0 to |lists[i]|
        invariant done == start + lists[i][..j] && Bucketed(done, buckets, keys)
      {
        var g := lists[i][j];
        BucketNext(done, buckets, keys, g);
        if KeyOf(g) !in buckets {
          buckets, keys := buckets[KeyOf(g) := [g]], keys + [KeyOf(g)];
        } else {
          buckets := buckets[KeyOf(g) := buckets[KeyOf(g)] + [g]];
        }
        done := done + [g];
      }
      assert lists[i][..|lists[i]|] == lists[i];
      assert lists[..i + 1][..i] == lists[..i];
    }
    assert lists[..|lists|] == lists;
  }

  lemma NoneBucketed()
    ensures Bucketed([], map[], [])
  {
  }

  lemma BucketNext(done: seq<Game>, buckets: map<PairKey, seq<Game>>, keys: seq<PairKey>, g: Game)
    requires Bucketed(done, buckets, keys)
    ensures KeyOf(g) !in buckets ==> Bucketed(done + [g], buckets[KeyOf(g) := [g]], keys + [KeyOf(g)])
    ensures KeyOf(g) in buckets ==> Bucketed(done + [g], buckets[KeyOf(g) := buckets[KeyOf(g)] + [g]], keys)
  {
    hide KeyOf, Under;
    forall k ensures Under(done + [g], k) == Under(done, k) + (if KeyOf(g) == k then [g] else []) { UnderNext(done, g, k); }
    if KeyOf(g) !in buckets {
      NoneUnder(done, KeyOf(g));
    }
  }

  lemma UnderNext(done: seq<Game>, g: Game, key: PairKey)
    ensures Under(done + [g], key) == Under(done, key) + (if KeyOf(g) == key then [g] else [])
  {
    hide KeyOf;
    assert (done + [g])[..|done|] == done;
  }

  lemma NoneUnder(done: seq<Game>, key: PairKey)
    requires forall g :: g in done ==> KeyOf(g) != key
    ensures Under(done, key) == []
  {
  }

  /** Every match across every bucket, each bucket clustered on its own. A bucket
      is left out only if one venue listed all of it. */
  method MatchGames(lists: seq<seq<Game>>, tolDays: nat) returns (matches: seq<Match>)
    ensures exists parts :: Complete(Flat(lists), tolDays, parts) && matches == AllMatches(Flat(lists), tolDays, parts)
  {
    hide ValidPart, AllMatches, MatchesOf, SortGames, Under, SingleVenue, ClusteredBy, Bucketed, KeyOf;
    var buckets, keys := Bucket(lists);
    ghost var all := Flat(lists);
    matches := [];
    ghost var parts: seq<Part> := [];
    BucketsRead(all, buckets, keys);
    NoParts(all, tolDays);
    for i := 0 to |keys|
      invariant Matched(all, tolDays, keys[..i], parts)
      invariant matches == AllMatches(all, tolDays, parts)
    {
      var k := keys[i];
      var games := SortGames(buckets[k]);
      if SingleVenue(games) {
        BucketSkipped(all, tolDays, keys, i, parts);
        continue;
      }
      var found := MatchBucket(games, tolDays);
      ghost var rounds :| ClusteredBy(games, tolDays, rounds) && found == MatchesOf(games, rounds, |rounds|);
      BucketMatched(all, tolDays, keys, i, parts, Part(k, games, rounds));
      matches, parts := matches + found, parts + [Part(k, games, rounds)];
    }
    assert keys[..|keys|] == keys;
    AllKeysMatched(all, tolDays, buckets, keys, parts);
  }

  /** One valid part to each key any listing has, but for single-venue buckets. */
  ghost predicate Complete(all: seq<Game>, tolDays: nat, parts: seq<Part>) {
    && (forall p :: p in parts ==> ValidPart(all, tolDays, p))
    && (forall i, j :: 0 <= i < j < |parts| ==> parts[i].key != parts[j].key)
    && (forall g :: g in all ==> SingleVenue(SortGames(Under(all, KeyOf(g)))) || exists p :: p in parts && p.key == KeyOf(g))
  }

  /** The parts made of the first keys: one to a key, but for single-venue ones. */
  ghost predicate Matched(all: seq<Game>, tolDays: nat, keys: seq<PairKey>, parts: seq<Part>) {
    && (forall p :: p in parts ==> ValidPart(all, tolDays, p) && p.key in keys)
    && (forall i, j :: 0 <= i < j < |parts| ==> parts[i].key != parts[j].key)
    && (forall k :: k in keys ==> SingleVenue(SortGames(Under(all, k))) || exists p :: p in parts && p.key == k)
  }

  lemma BucketsRead(all: seq<Game>, buckets: map<PairKey, seq<Game>>, keys: seq<PairKey>)
    requires Bucketed(all, buckets, keys)
    ensures forall i :: 0 <= i < |keys| ==> keys[i] in buckets && buckets[keys[i]] == Under(all, keys[i]) && keys[i] !in keys[..i]
  {
  }

  lemma NoParts(all: seq<Game>, tolDays: nat)
    ensures Matched(all, tolDays, [], []) && AllMatches(all, tolDays, []) == []
  {
  }

  lemma BucketSkipped(all: seq<Game>, tolDays: nat, keys: seq<PairKey>, i: nat, parts: seq<Part>)
    requires i < |keys| && Matched(all, tolDays, keys[..i], parts) && SingleVenue(SortGames(Under(all, keys[i])))
    ensures Matched(all, tolDays, keys[..i + 1], parts)
  {
  }

  lemma BucketMatched(all: seq<Game>, tolDays: nat, keys: seq<PairKey>, i: nat, parts: seq<Part>, p: Part)
    requires i < |keys| && Matched(all, tolDays, keys[..i], parts) && keys[i] !in keys[..i]
    requires p.key == keys[i] && p.games == SortGames(Under(all, keys[i])) && !SingleVenue(p.games)
    requires ClusteredBy(p.games, tolDays, p.rounds)
    ensures Matched(all, tolDays, keys[..i + 1], parts + [p])
    ensures AllMatches(all, tolDays, parts + [p]) == AllMatches(all, tolDays, parts) + MatchesOf(p.games, p.rounds, |p.rounds|)
  {
    assert ValidPart(all, tolDays, p);
    hide ValidPart, SingleVenue, Under, SortGames, MatchesOf;
    assert keys[..i + 1] == keys[..i] + [keys[i]];
    assert (parts + [p])[..|parts|] == parts;
    assert forall x :: x in parts + [p] <==> x in parts || x == p;
  }

  lemma AllKeysMatched(all: seq<Game>, tolDays: nat, buckets: map<PairKey, seq<Game>>, keys: seq<PairKey>, parts: seq<Part>)
    requires Bucketed(all, buckets, keys) && Matched(all, tolDays, keys, parts)
    ensures Complete(all, tolDays, parts)
  {
  }

  /** Two listings share a bucket exactly when they are on one sport, one kind of
      market, one line for one anchor, and the same two teams in either order. */
  lemma KeysMeetExactly(g: Game, h: Game)
    ensures KeyOf(g) == KeyOf(h) <==>
              (&& g.sport == h.sport && g.marketType == h.marketType && g.line == h.line && g.anchor == h.anchor
               && (g.teams == h.teams || (g.teams.0 == h.teams.1 && g.teams.1 == h.teams.0)))
  {
    var ours, theirs := {g.teams.0, g.teams.1}, {h.teams.0, h.teams.1};
    if ours == theirs {
      assert g.teams.0 in theirs && g.teams.1 in theirs && h.teams.0 in ours && h.teams.1 in ours;
      assert g.teams == (g.teams.0, g.teams.1) && h.teams == (h.teams.0, h.teams.1);
    }
    if g.teams.0 == h.teams.1 && g.teams.1 == h.teams.0 { assert ours == theirs; }
  }

  /** A listing's bucket is clustered exactly when another venue listed the same. */
  lemma ClusteredExactly(all: seq<Game>, tolDays: nat, parts: seq<Part>, g: Game)
    requires Complete(all, tolDays, parts) && g in all
    ensures (exists p :: p in parts && p.key == KeyOf(g)) <==>
            (exists h :: h in all && KeyOf(h) == KeyOf(g) && h.venue != g.venue)
  {
    hide ClusteredBy, KeyOf;
    var key := KeyOf(g);
    var games := SortGames(Under(all, key));
    SortKeeps(Under(all, key));
    forall h ensures h in games <==> h in all && KeyOf(h) == key {
      assert h in games <==> h in multiset(games);
      assert h in Under(all, key) <==> h in multiset(Under(all, key));
      UnderIsFilter(all, key, h);
    }
    if p :| p in parts && p.key == key {
      assert ValidPart(all, tolDays, p) && p.games == games;
      var a, b :| a in games && b in games && a.venue != b.venue;
      var h := if a.venue != g.venue then a else b;
      assert h in all && KeyOf(h) == key && h.venue != g.venue;
    }
    if h :| h in all && KeyOf(h) == key && h.venue != g.venue {
      assert g in games && h in games;
      assert !SingleVenue(games);
    }
  }

  // ---- groups -----------------------------------------------------------------------------------

  /** A venue's outcomes as legs: a leg is on the yes side when it is filed under
      the group's yes key. */
  function VenueLegs(v: Id, outcomes: seq<(Key, Id)>, yesKey: Key): seq<Leg> {
    if outcomes == [] then []
    else
      var n := |outcomes| - 1;
      VenueLegs(v, outcomes[..n], yesKey) + [Leg(outcomes[n].1, v, outcomes[n].0 == yesKey)]
  }

  function LegsOf(perVenue: map<Id, Game>, venues: seq<Id>, yesKey: Key): seq<Leg> {
    if venues == [] then []
    else
      var v := venues[|venues| - 1];
      LegsOf(perVenue, venues[..|venues| - 1], yesKey) + (if v in perVenue then VenueLegs(v, perVenue[v].outcomes, yesKey) else [])
  }

  function EarliestStart(perVenue: map<Id, Game>, venues: seq<Id>): Option<real> {
    if venues == [] then None
    else
      var v, rest := venues[|venues| - 1], EarliestStart(perVenue, venues[..|venues| - 1]);
      if v !in perVenue || perVenue[v].start.None? then rest
      else if rest.None? then perVenue[v].start
      else Some(Min(rest.value, perVenue[v].start.value))
  }

  /** A group starts when the first venue to publish a start says it does. */
  lemma {:induction false} EarliestIsLeast(perVenue: map<Id, Game>, venues: seq<Id>, v: Id)
    ensures var s := EarliestStart(perVenue, venues);
      && (v in venues && v in perVenue && perVenue[v].start.Some? ==> s.Some? && s.value <= perVenue[v].start.value)
      && (s.Some? ==> exists u :: u in venues && u in perVenue && perVenue[u].start == s)
  {
    if venues != [] {
      EarliestIsLeast(perVenue, venues[..|venues| - 1], v);
      assert venues == venues[..|venues| - 1] + [venues[|venues| - 1]];
    }
  }

  function MatchToGroup(m: Match, id: Id): EventGroup {
    EventGroup(id,
               LegsOf(m.perVenue, Ascending(m.perVenue.Keys), YesKey(m.marketType, m.anchor, m.teamA)),
               EarliestStart(m.perVenue, Ascending(m.perVenue.Keys)),
               exists v :: v in m.perVenue && m.perVenue[v].ended == Some(true))
  }

  lemma {:induction false} VenueLegFrom(v: Id, outcomes: seq<(Key, Id)>, yesKey: Key, leg: Leg) returns (k: nat)
    requires leg in VenueLegs(v, outcomes, yesKey)
    ensures k < |outcomes| && leg == Leg(outcomes[k].1, v, outcomes[k].0 == yesKey)
  {
    var n := |outcomes| - 1;
    k := n;
    if leg != Leg(outcomes[n].1, v, outcomes[n].0 == yesKey) {
      k := VenueLegFrom(v, outcomes[..n], yesKey, leg);
    }
  }

  lemma {:induction false} LegFrom(perVenue: map<Id, Game>, venues: seq<Id>, yesKey: Key, leg: Leg) returns (k: nat)
    requires leg in LegsOf(perVenue, venues, yesKey)
    ensures leg.venue in perVenue && k < |perVenue[leg.venue].outcomes|
    ensures leg.outcome == perVenue[leg.venue].outcomes[k].1
    ensures leg.isYes <==> perVenue[leg.venue].outcomes[k].0 == yesKey
  {
    var v := venues[|venues| - 1];
    if v in perVenue && leg in VenueLegs(v, perVenue[v].outcomes, yesKey) {
      k := VenueLegFrom(v, perVenue[v].outcomes, yesKey, leg);
    } else {
      k := LegFrom(perVenue, venues[..|venues| - 1], yesKey, leg);
    }
  }

  lemma {:induction false} VenueLegOf(v: Id, outcomes: seq<(Key, Id)>, yesKey: Key, k: nat)
    requires k < |outcomes|
    ensures Leg(outcomes[k].1, v, outcomes[k].0 == yesKey) in VenueLegs(v, outcomes, yesKey)
  {
    if k < |outcomes| - 1 { VenueLegOf(v, outcomes[..|outcomes| - 1], yesKey, k); }
  }

  lemma {:induction false} LegOf(perVenue: map<Id, Game>, venues: seq<Id>, yesKey: Key, v: Id, k: nat)
    requires v in venues && v in perVenue && k < |perVenue[v].outcomes|
    ensures Leg(perVenue[v].outcomes[k].1, v, perVenue[v].outcomes[k].0 == yesKey) in LegsOf(perVenue, venues, yesKey)
  {
    if v == venues[|venues| - 1] {
      VenueLegOf(v, perVenue[v].outcomes, yesKey, k);
    } else {
      LegOf(perVenue, venues[..|venues| - 1], yesKey, v, k);
    }
  }

  /** A group has a leg for every outcome its venues listed and no other, and it is
      still running exactly when no venue says it has ended. */
  lemma GroupListsItsGames(m: Match, id: Id, leg: Leg)
    ensures leg in MatchToGroup(m, id).legs <==>
              leg.venue in m.perVenue && exists k | 0 <= k < |m.perVenue[leg.venue].outcomes| ::
                var (key, outcome) := m.perVenue[leg.venue].outcomes[k];
                leg.outcome == outcome && leg.isYes == (key == YesKey(m.marketType, m.anchor, m.teamA))
    ensures !MatchToGroup(m, id).ended <==> forall v :: v in m.perVenue ==> m.perVenue[v].ended.None? || !m.perVenue[v].ended.value
  {
    var venues, yesKey := Ascending(m.perVenue.Keys), YesKey(m.marketType, m.anchor, m.teamA);
    if leg in LegsOf(m.perVenue, venues, yesKey) {
      var k := LegFrom(m.perVenue, venues, yesKey, leg);
      assert m.perVenue[leg.venue].outcomes[k] == (m.perVenue[leg.venue].outcomes[k].0, leg.outcome);
    }
    if leg.venue in m.perVenue {
      forall k | 0 <= k < |m.perVenue[leg.venue].outcomes|
        ensures Leg(m.perVenue[leg.venue].outcomes[k].1, leg.venue, m.perVenue[leg.venue].outcomes[k].0 == yesKey) in LegsOf(m.perVenue, venues, yesKey)
      {
        LegOf(m.perVenue, venues, yesKey, leg.venue, k);
      }
    }
  }

  // ---- hedging ----------------------------------------------------------------------------------

  /** A listing names its anchor among its two teams. */
  predicate WellFormed(g: Game) {
    && g.teams.0 != g.teams.1
    && (g.anchor.Some? ==> g.anchor.value == g.teams.0 || g.anchor.value == g.teams.1)
  }

  lemma ListedIsWellFormed(rules: Rulebook, src: Source, g: Game)
    requires ListedBy(rules, src, g)
    ensures WellFormed(g)
  {
  }

  /** Listings under one key are on one proposition, in whatever order they name
      the teams. */
  lemma SameProposition(g: Game, h: Game, score: Score)
    requires WellFormed(g) && WellFormed(h) && KeyOf(g) == KeyOf(h)
    ensures TeamA(g) == TeamA(h) && TeamB(g) == TeamB(h)
    ensures Proposition(g, score) <==> Proposition(h, score)
    ensures NotPushed(g, score) <==> NotPushed(h, score)
  {
  }

  /** A match whose games were listed as their sources say, under one key. */
  ghost predicate Sourced(rules: Rulebook, m: Match, sources: map<Id, Source>, anchor: Game) {
    && m.marketType == anchor.marketType && m.line == anchor.line && m.anchor == anchor.anchor
    && m.teamA == TeamA(anchor) && WellFormed(anchor)
    && m.perVenue.Keys <= sources.Keys
    && forall v :: v in m.perVenue ==> ListedBy(rules, sources[v], m.perVenue[v]) && KeyOf(m.perVenue[v]) == KeyOf(anchor)
  }

  /** What a clustered match is made of: the anchor's terms, and games under the
      anchor's key only. */
  lemma MatchIsSourced(all: seq<Game>, tolDays: nat, p: Part, k: nat, rules: Rulebook, sources: map<Id, Source>)
    requires ValidPart(all, tolDays, p) && k < |p.rounds| && Indexed(p.games, p.rounds[k])
    requires var m := MatchOf(p.games, p.rounds[k]);
      m.perVenue.Keys <= sources.Keys && forall v :: v in m.perVenue ==> ListedBy(rules, sources[v], m.perVenue[v])
    ensures Sourced(rules, MatchOf(p.games, p.rounds[k]), sources, p.games[p.rounds[k].anchor])
    ensures forall v :: v in MatchOf(p.games, p.rounds[k]).perVenue ==> MatchOf(p.games, p.rounds[k]).perVenue[v].venue == v
  {
    hide ListedBy, SameFixture, Distance, KeyOf, Under, SortGames;
    var r := p.rounds[k];
    var m, anchor := MatchOf(p.games, r), p.games[r.anchor];
    forall g | g in p.games ensures KeyOf(g) == p.key {
      SortKeeps(Under(all, p.key));
      assert g in multiset(p.games);
      UnderIsFilter(all, p.key, g);
    }
    forall v | v in r.chosen ensures p.games[r.chosen[v]].venue == v { ClusterIsNearest(p.games, tolDays, p.rounds, k, v, 0); }
    ClusterIsNearest(p.games, tolDays, p.rounds, k, anchor.venue, 0);
    assert m.perVenue[anchor.venue] == anchor;
    ListedIsWellFormed(rules, sources[anchor.venue], anchor);
  }

  /** A leg of a matched group pays one exactly when its side is right. */
  lemma LegPaysItsSide(rules: Rulebook, m: Match, sources: map<Id, Source>, anchor: Game, id: Id, leg: Leg, score: Score)
    requires Sourced(rules, m, sources, anchor) && NotPushed(anchor, score)
    requires leg in MatchToGroup(m, id).legs
    ensures leg.outcome in rules
    ensures Pays(rules[leg.outcome], score) == if leg.isYes == Proposition(anchor, score) then 1.0 else 0.0
  {
    hide ListedBy, KeyOf, Proposition, NotPushed, Happens, LegsOf;
    var k := LegFrom(m.perVenue, Ascending(m.perVenue.Keys), YesKey(m.marketType, m.anchor, m.teamA), leg);
    var g := m.perVenue[leg.venue];
    ListedIsWellFormed(rules, sources[leg.venue], g);
    KeyFields(g, anchor);
    SameProposition(anchor, g, score);
    ListingMeansProposition(rules, sources[leg.venue], g, score, k);
  }

  /** What a settlement pays a leg of a matched group, given which side won, is what
      the venue's own rules pay it. */
  lemma PayoutIsByTheRules(rules: Rulebook, m: Match, sources: map<Id, Source>, anchor: Game, id: Id, leg: Leg, score: Score)
    requires Sourced(rules, m, sources, anchor) && NotPushed(anchor, score)
    requires leg in MatchToGroup(m, id).legs
    ensures leg.outcome in rules && Payout(leg.isYes, Proposition(anchor, score)) == Pays(rules[leg.outcome], score)
  {
    hide Sourced, NotPushed, MatchToGroup, Proposition, Pays;
    LegPaysItsSide(rules, m, sources, anchor, id, leg, score);
  }

  lemma KeyFields(g: Game, h: Game)
    requires KeyOf(g) == KeyOf(h)
    ensures g.marketType == h.marketType && g.line == h.line && g.anchor == h.anchor
  {
  }

  /** Opposing legs hedge: for every result that does not land on the line, any
      yes leg and any no leg of a matched group pay exactly one between them. */
  lemma OpposingLegsHedge(rules: Rulebook, m: Match, sources: map<Id, Source>, anchor: Game, id: Id, y: Leg, n: Leg, score: Score)
    requires Sourced(rules, m, sources, anchor) && NotPushed(anchor, score)
    requires y in MatchToGroup(m, id).legs && n in MatchToGroup(m, id).legs && y.isYes && !n.isYes
    ensures y.outcome in rules && n.outcome in rules
    ensures Pays(rules[y.outcome], score) + Pays(rules[n.outcome], score) == 1.0
  {
    hide Sourced, MatchToGroup, NotPushed, Proposition, Happens;
    LegPaysItsSide(rules, m, sources, anchor, id, y, score);
    LegPaysItsSide(rules, m, sources, anchor, id, n, score);
  }
}
