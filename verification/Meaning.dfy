/** What each venue's contracts pay, and how its listings are read as one side
    of a common proposition. */
module Meaning {
  import opened Common

  /** Points by team. */
  type Score = map<Id, int>

  function Points(score: Score, team: Id): int { if team in score then score[team] else 0 }

  function Margin(score: Score, team: Id, other: Id): int { Points(score, team) - Points(score, other) }

  /** A venue's contract, by its own rules. A signed-line contract is stated for
      the first-listed team, whose long side covers that line; an anchored one
      for the team that must win by more than the strike. */
  datatype Contract =
    | CoversLine(first: Id, second: Id, signed: real)
    | FailsLine(first: Id, second: Id, signed: real)
    | WinsByMore(team: Id, other: Id, strike: real)
    | NotByMore(team: Id, other: Id, strike: real)
    | GoesOver(a: Id, b: Id, line: real)
    | StaysUnder(a: Id, b: Id, line: real)
    | Wins(team: Id, other: Id)

  predicate Happens(c: Contract, score: Score) {
    match c
    case CoversLine(first, second, signed) => Margin(score, first, second) as real + signed > 0.0
    case FailsLine(first, second, signed) => !(Margin(score, first, second) as real + signed > 0.0)
    case WinsByMore(team, other, strike) => Margin(score, team, other) as real > strike
    case NotByMore(team, other, strike) => !(Margin(score, team, other) as real > strike)
    case GoesOver(a, b, line) => (Points(score, a) + Points(score, b)) as real > line
    case StaysUnder(a, b, line) => !((Points(score, a) + Points(score, b)) as real > line)
    case Wins(team, other) => Margin(score, team, other) > 0
  }

  function Pays(c: Contract, score: Score): real { if Happens(c, score) then 1.0 else 0.0 }

  /** What each outcome id pays, by the rules of the venue that lists it. */
  type Rulebook = map<Id, Contract>

  /** What the rules come to on a final score that has both teams. */
  lemma RulesReadTheScore(score: Score, a: Id, b: Id, line: real)
    requires a in score && b in score
    ensures Pays(Wins(a, b), score) == if score[a] > score[b] then 1.0 else 0.0
    ensures Pays(WinsByMore(a, b, line), score) == if score[a] as real > score[b] as real + line then 1.0 else 0.0
    ensures Pays(NotByMore(a, b, line), score) == if score[a] as real > score[b] as real + line then 0.0 else 1.0
    ensures Pays(CoversLine(a, b, line), score) == if score[a] as real + line > score[b] as real then 1.0 else 0.0
    ensures Pays(FailsLine(a, b, line), score) == if score[a] as real + line > score[b] as real then 0.0 else 1.0
    ensures Pays(GoesOver(a, b, line), score) == if score[a] as real + score[b] as real > line then 1.0 else 0.0
    ensures Pays(StaysUnder(a, b, line), score) == if score[a] as real + score[b] as real > line then 0.0 else 1.0
  {
  }

  // ---- listings -----------------------------------------------------------------------

  datatype MarketType = Moneyline | Spread | Totals

  /** The keys a listing files its outcomes under. */
  datatype Key = Team(code: Id) | Over | Under

  /** One venue's listing of one game, as the matcher sees it. */
  datatype Game = Game(
    sport: Id,
    venue: Id,
    date: int,
    teams: (Id, Id),
    outcomes: seq<(Key, Id)>,
    marketType: MarketType,
    line: Option<real>,
    anchor: Option<Id>,
    start: Option<real>,
    live: Option<bool>,
    ended: Option<bool>)

  const KALSHI: Id := 1
  const POLYMARKET_US: Id := 2

  // ---- Polymarket US --------------------------------------------------------------------

  /** One market of an event, with the sides' teams as resolved: long first. */
  datatype PolyMarket = PolyMarket(
    longId: Id,
    shortId: Id,
    longTeam: Option<Id>,
    shortTeam: Option<Id>,
    signed: Option<real>,
    titled: Option<(Id, real)>)

  datatype PolyEvent = PolyEvent(sport: Id, date: int, start: real, live: Option<bool>, ended: Option<bool>, teams: Option<(Id, Id)>)

  /** Whether the title names the derived anchor and line; None when it matches
      no known pattern, so the guard cannot run. */
  function TitleAgrees(titled: Option<(Id, real)>, anchor: Id, line: real): Option<bool> {
    if titled.None? then None else Some(titled.value == (anchor, line))
  }

  /** The anchor of a signed line: the first team must win by more than a negative
      one, the second by more than a positive one. */
  function AnchorOf(first: Id, second: Id, signed: real): Id { if signed < 0.0 then first else second }

  datatype Decision = Skipped | Listed(game: Game, unparsed: bool)

  function PolySpread(ev: PolyEvent, m: PolyMarket): Decision {
    if ev.teams.None? then Skipped
    else
      var (first, second) := ev.teams.value;
      if m.signed.None? || m.signed.value == 0.0 then Skipped
      else if m.longTeam != Some(first) || m.shortTeam != Some(second) then Skipped
      else
        var signed := m.signed.value;
        var anchor, line := AnchorOf(first, second, signed), Abs(signed);
        var verdict := TitleAgrees(m.titled, anchor, line);
        if verdict == Some(false) then Skipped
        else
          Listed(Game(ev.sport, POLYMARKET_US, ev.date, (first, second),
                      [(Team(first), m.longId), (Team(second), m.shortId)],
                      Spread, Some(line), Some(anchor), Some(ev.start), ev.live, ev.ended),
                 verdict.None?)
  }

  function PolyTotal(ev: PolyEvent, m: PolyMarket): Decision {
    if ev.teams.None? || m.signed.None? then Skipped
    else
      Listed(Game(ev.sport, POLYMARKET_US, ev.date, ev.teams.value,
                  [(Over, m.longId), (Under, m.shortId)],
                  Totals, m.signed, None, Some(ev.start), ev.live, ev.ended),
             false)
  }

  function PolyMoneyline(ev: PolyEvent, m: PolyMarket): Decision {
    if m.longTeam.None? || m.shortTeam.None? then Skipped
    else
      Listed(Game(ev.sport, POLYMARKET_US, ev.date, (m.longTeam.value, m.shortTeam.value),
                  [(Team(m.longTeam.value), m.longId), (Team(m.shortTeam.value), m.shortId)],
                  Moneyline, None, None, Some(ev.start), ev.live, ev.ended),
             false)
  }

  /** What the venue says a market's two sides pay. */
  predicate PolyRules(rules: Rulebook, ev: PolyEvent, m: PolyMarket, t: MarketType) {
    && m.longId in rules && m.shortId in rules
    && match t
       case Spread =>
         m.longTeam.Some? && m.shortTeam.Some? && m.signed.Some? ==>
           && rules[m.longId] == CoversLine(m.longTeam.value, m.shortTeam.value, m.signed.value)
           && rules[m.shortId] == FailsLine(m.longTeam.value, m.shortTeam.value, m.signed.value)
       case Totals =>
         ev.teams.Some? && m.signed.Some? ==>
           && rules[m.longId] == GoesOver(ev.teams.value.0, ev.teams.value.1, m.signed.value)
           && rules[m.shortId] == StaysUnder(ev.teams.value.0, ev.teams.value.1, m.signed.value)
       case Moneyline =>
         m.longTeam.Some? && m.shortTeam.Some? ==>
           && rules[m.longId] == Wins(m.longTeam.value, m.shortTeam.value)
           && rules[m.shortId] == Wins(m.shortTeam.value, m.longTeam.value)
  }

  /** One pass over an event's spread markets; a title that matches no pattern is
      accepted and counted. */
  method FetchSpreads(ev: PolyEvent, ms: seq<PolyMarket>) returns (games: seq<Game>, unparsed: nat)
    ensures games == ListedOf(ev, ms)
    ensures unparsed == |set i | 0 <= i < |ms| && PolySpread(ev, ms[i]).Listed? && PolySpread(ev, ms[i]).unparsed|
    ensures forall m :: m in ms && Listable(ev, m) ==> exists g :: g in games && Lists(ev, m, g)
    ensures forall g :: g in games ==> exists m :: m in ms && Listable(ev, m) && Lists(ev, m, g)
  {
    ListedReads(ev, ms);
    hide PolySpread;
    games, unparsed := [], 0;
    ghost var counted: set<int> := {};
    for i := 0 to |ms|
      invariant games == ListedOf(ev, ms[..i])
      invariant counted == set k | 0 <= k < i && PolySpread(ev, ms[k]).Listed? && PolySpread(ev, ms[k]).unparsed
      invariant unparsed == |counted|
    {
      assert ms[..i + 1][..i] == ms[..i];
      var d := PolySpread(ev, ms[i]);
      if d.Listed? {
        if d.unparsed {
          unparsed := unparsed + 1;
          counted := counted + {i};
        }
        games := games + [d.game];
      }
    }
    assert ms[..|ms|] == ms;
  }

  /** A spread market to list: its sides are the event's teams in order, and its line
      is not zero and not contradicted by its title. */
  predicate Listable(ev: PolyEvent, m: PolyMarket) {
    && ev.teams.Some? && m.longTeam == Some(ev.teams.value.0) && m.shortTeam == Some(ev.teams.value.1)
    && m.signed.Some? && m.signed.value != 0.0
    && (m.titled.Some? ==>
          if m.signed.value < 0.0 then m.titled.value == (ev.teams.value.0, -m.signed.value)
          else m.titled.value == (ev.teams.value.1, m.signed.value))
  }

  /** The listing of such a market: both sides under their own teams, for the team
      that must win by more than the line. */
  predicate Lists(ev: PolyEvent, m: PolyMarket, g: Game)
    requires Listable(ev, m)
  {
    && g.outcomes == [(Team(ev.teams.value.0), m.longId), (Team(ev.teams.value.1), m.shortId)]
    && g.teams == ev.teams.value && g.marketType == Spread && g.start == Some(ev.start)
    && (if m.signed.value < 0.0 then g.line == Some(-m.signed.value) && g.anchor == Some(ev.teams.value.0)
        else g.line == Some(m.signed.value) && g.anchor == Some(ev.teams.value.1))
  }

  lemma SpreadListsExactly(ev: PolyEvent, m: PolyMarket)
    ensures PolySpread(ev, m).Listed? <==> Listable(ev, m)
    ensures PolySpread(ev, m).Listed? ==> Lists(ev, m, PolySpread(ev, m).game) && (PolySpread(ev, m).unparsed <==> m.titled.None?)
  {
  }

  lemma {:induction false} ListedReads(ev: PolyEvent, ms: seq<PolyMarket>)
    ensures forall m :: m in ms && Listable(ev, m) ==> exists g :: g in ListedOf(ev, ms) && Lists(ev, m, g)
    ensures forall g :: g in ListedOf(ev, ms) ==> exists m :: m in ms && Listable(ev, m) && Lists(ev, m, g)
  {
    hide PolySpread, Listable, Lists;
    if ms != [] {
      var n := |ms| - 1;
      ListedReads(ev, ms[..n]);
      SpreadListsExactly(ev, ms[n]);
      assert forall m :: m in ms <==> m in ms[..n] || m == ms[n];
    }
  }

  function ListedOf(ev: PolyEvent, ms: seq<PolyMarket>): seq<Game> {
    if ms == [] then []
    else
      var n := |ms| - 1;
      ListedOf(ev, ms[..n]) + (match PolySpread(ev, ms[n]) case Skipped => [] case Listed(g, _) => [g])
  }

  /** A total is listed exactly when the event's teams and its line are known, and a
      moneyline exactly when both its sides are. */
  lemma OthersListExactly(ev: PolyEvent, m: PolyMarket)
    ensures PolyTotal(ev, m).Listed? <==> ev.teams.Some? && m.signed.Some?
    ensures PolyMoneyline(ev, m).Listed? <==> m.longTeam.Some? && m.shortTeam.Some?
  {
  }

  // ---- Kalshi ------------------------------------------------------------------------------

  predicate IsDigit(c: char) { '0' <= c <= '9' }

  predicate AllDigits(s: string) { s != "" && forall c :: c in s ==> IsDigit(c) }

  /** A market suffix that is one team code and then a number. */
  predicate Fits(rest: string, code: string) { code <= rest && AllDigits(rest[|code|..]) }

  /** The team a spread market is stated for, read off its ticker: exactly one of
      the event's codes must fit the suffix. */
  function AnchorCode(market: string, event: string, codes: (string, string)): Option<string> {
    var prefix := event + "-";
    if !(prefix <= market) then None
    else
      var rest := market[|prefix|..];
      if Fits(rest, codes.0) && !Fits(rest, codes.1) then Some(codes.0)
      else if Fits(rest, codes.1) && !Fits(rest, codes.0) then Some(codes.1)
      else None
  }

  predicate Lettered(code: string) { forall c :: c in code ==> !IsDigit(c) }

  /** Codes of letters never both fit one suffix, whatever their widths, so a
      ticker written for a team is always read back as that team. */
  lemma AnchorRoundTrip(event: string, codes: (string, string), number: string)
    requires Lettered(codes.0) && Lettered(codes.1) && codes.0 != codes.1 && AllDigits(number)
    ensures AnchorCode(event + "-" + codes.0 + number, event, codes) == Some(codes.0)
    ensures AnchorCode(event + "-" + codes.1 + number, event, codes) == Some(codes.1)
  {
    var prefix := event + "-";
    forall code | code == codes.0 || code == codes.1
      ensures (prefix + code + number)[|prefix|..] == code + number && Fits(code + number, code)
    {
      assert prefix + code + number == prefix + (code + number);
      assert (code + number)[|code|..] == number;
    }
    OnlyOneFits(codes.0, codes.1, number);
    OnlyOneFits(codes.1, codes.0, number);
  }

  lemma OnlyOneFits(code: string, other: string, number: string)
    requires Lettered(code) && Lettered(other) && code != other && AllDigits(number)
    ensures !Fits(code + number, other)
  {
    var s := code + number;
    if |other| < |code| {
      assert code[|other|] in code;
      assert s[|other|..][0] == code[|other|] && s[|other|..][0] in s[|other|..];
    } else if |other| > |code| {
      assert other[|code|] in other && number[0] in number && s[|code|] == number[0];
    } else {
      assert s[..|code|] == code;
    }
  }

  datatype KalshiMarket = KalshiMarket(ticker: string, greater: bool, strike: Option<real>, yesId: Id, noId: Id)

  datatype KalshiEvent = KalshiEvent(sport: Id, ticker: string, date: int, start: Option<real>, codes: (string, string), teams: (Id, Id))

  /** A spread market written for one of the event's teams, with a number, is
      listed exactly when it is a greater-than market on a positive strike, and a
      totals market exactly when it has a strike. */
  lemma KalshiListsExactly(ev: KalshiEvent, m: KalshiMarket, number: string)
    requires Lettered(ev.codes.0) && Lettered(ev.codes.1) && ev.codes.0 != ev.codes.1 && AllDigits(number)
    requires m.ticker == ev.ticker + "-" + ev.codes.0 + number || m.ticker == ev.ticker + "-" + ev.codes.1 + number
    ensures KalshiSpread(ev, m).Some? <==> m.greater && m.strike.Some? && m.strike.value > 0.0
    ensures KalshiTotal(ev, m).Some? <==> m.strike.Some?
  {
    AnchorRoundTrip(ev.ticker, ev.codes, number);
  }

  /** One spread market: YES is the anchor covering, NO its complement. */
  function KalshiSpread(ev: KalshiEvent, m: KalshiMarket): Option<Game> {
    var code := AnchorCode(m.ticker, ev.ticker, ev.codes);
    if code.None? || !m.greater || m.strike.None? || m.strike.value <= 0.0 then None
    else
      var (anchor, other) := if code.value == ev.codes.0 then ev.teams else (ev.teams.1, ev.teams.0);
      Some(Game(ev.sport, KALSHI, ev.date, ev.teams, [(Team(anchor), m.yesId), (Team(other), m.noId)],
                Spread, m.strike, Some(anchor), ev.start, None, None))
  }

  function KalshiTotal(ev: KalshiEvent, m: KalshiMarket): Option<Game> {
    if m.strike.None? then None
    else
      Some(Game(ev.sport, KALSHI, ev.date, ev.teams, [(Over, m.yesId), (Under, m.noId)],
                Totals, m.strike, None, ev.start, None, None))
  }

  /** A moneyline event has a market of its own for each team, bought YES. */
  function KalshiMoneyline(ev: KalshiEvent, yesIds: (Id, Id)): Game {
    Game(ev.sport, KALSHI, ev.date, ev.teams, [(Team(ev.teams.0), yesIds.0), (Team(ev.teams.1), yesIds.1)],
         Moneyline, None, None, ev.start, None, None)
  }

  /** What the venue says: a spread market pays YES when the team its ticker names
      wins by more than the strike. */
  ghost predicate KalshiRules(rules: Rulebook, ev: KalshiEvent, m: KalshiMarket, t: MarketType) {
    && m.yesId in rules && m.noId in rules
    && match t
       case Spread =>
         forall team, other ::
           Names(ev, m.ticker, team, other) && m.strike.Some? && m.greater ==>
             && rules[m.yesId] == WinsByMore(team, other, m.strike.value)
             && rules[m.noId] == NotByMore(team, other, m.strike.value)
       case Totals =>
         m.strike.Some? ==>
           && rules[m.yesId] == GoesOver(ev.teams.0, ev.teams.1, m.strike.value)
           && rules[m.noId] == StaysUnder(ev.teams.0, ev.teams.1, m.strike.value)
       case Moneyline => true
  }

  /** The ticker is written for `team`: event, dash, its code, a number. */
  ghost predicate Names(ev: KalshiEvent, ticker: string, team: Id, other: Id) {
    exists number ::
      && AllDigits(number)
      && ((ticker == ev.ticker + "-" + ev.codes.0 + number && (team, other) == ev.teams)
          || (ticker == ev.ticker + "-" + ev.codes.1 + number && (other, team) == ev.teams))
  }

  // ---- one proposition for both venues --------------------------------------------------------

  function TeamA(g: Game): Id { if g.teams.0 <= g.teams.1 then g.teams.0 else g.teams.1 }

  function TeamB(g: Game): Id { if g.teams.0 <= g.teams.1 then g.teams.1 else g.teams.0 }

  /** The outcome key that stands for the group's proposition being true. */
  function YesKey(t: MarketType, anchor: Option<Id>, teamA: Id): Key {
    match t
    case Totals => Over
    case Spread => Team(if anchor.Some? then anchor.value else teamA)
    case Moneyline => Team(teamA)
  }

  function Other(g: Game, team: Id): Id { if team == g.teams.0 then g.teams.1 else g.teams.0 }

  /** The proposition: team A wins, the total goes over, the anchor covers. */
  predicate Proposition(g: Game, score: Score) {
    match g.marketType
    case Moneyline => Margin(score, TeamA(g), TeamB(g)) > 0
    case Totals => g.line.Some? && (Points(score, g.teams.0) + Points(score, g.teams.1)) as real > g.line.value
    case Spread =>
      var anchor := if g.anchor.Some? then g.anchor.value else TeamA(g);
      g.line.Some? && Margin(score, anchor, Other(g, anchor)) as real > g.line.value
  }

  /** The result does not land on the line, and somebody won. */
  predicate NotPushed(g: Game, score: Score) {
    match g.marketType
    case Moneyline => Margin(score, TeamA(g), TeamB(g)) != 0
    case Totals => g.line.Some? ==> (Points(score, g.teams.0) + Points(score, g.teams.1)) as real != g.line.value
    case Spread =>
      var anchor := if g.anchor.Some? then g.anchor.value else TeamA(g);
      g.line.Some? ==> Margin(score, anchor, Other(g, anchor)) as real != g.line.value
  }

  /** No whole-number result lands on a line that is not a whole number. */
  lemma HalfLinesNeverPush(g: Game, score: Score)
    requires g.marketType != Moneyline && g.line.Some? && g.line.value != g.line.value.Floor as real
    ensures NotPushed(g, score)
  {
  }

  /** Off the line means one side is ahead of it: one team ahead of the other, more
      or fewer points than the total, more or less than the margin. */
  lemma OffTheLine(g: Game, score: Score)
    requires g.teams.0 != g.teams.1 && (g.anchor.Some? ==> g.anchor.value == g.teams.0 || g.anchor.value == g.teams.1)
    requires g.marketType == Moneyline || g.line.Some?
    ensures NotPushed(g, score) <==>
              match g.marketType
              case Moneyline => Happens(Wins(g.teams.0, g.teams.1), score) || Happens(Wins(g.teams.1, g.teams.0), score)
              case Totals => Happens(GoesOver(g.teams.0, g.teams.1, g.line.value), score)
                             || !((Points(score, g.teams.1) + Points(score, g.teams.0)) as real >= g.line.value)
              case Spread =>
                var favourite := if g.anchor.Some? then g.anchor.value else if g.teams.0 <= g.teams.1 then g.teams.0 else g.teams.1;
                var other := if favourite == g.teams.0 then g.teams.1 else g.teams.0;
                Happens(WinsByMore(favourite, other, g.line.value), score) || Happens(CoversLine(other, favourite, g.line.value), score)
  {
  }

  /** Where a listing came from. */
  datatype Source =
    | FromPoly(ev: PolyEvent, market: PolyMarket, kind: MarketType)
    | FromKalshi(event: KalshiEvent, listed: KalshiMarket, sort: MarketType)
    | FromKalshiMoneyline(game: KalshiEvent, yesIds: (Id, Id))

  /** The listing the source's own parser makes, on a venue that pays as its rules
      say, for a game between two teams with lettered codes. */
  ghost predicate ListedBy(rules: Rulebook, src: Source, g: Game) {
    g.teams.0 != g.teams.1
    && match src
       case FromPoly(ev, m, t) =>
         && PolyRules(rules, ev, m, t)
         && (match t
             case Spread => PolySpread(ev, m).Listed? && PolySpread(ev, m).game == g
             case Totals => PolyTotal(ev, m).Listed? && PolyTotal(ev, m).game == g
             case Moneyline => PolyMoneyline(ev, m).Listed? && PolyMoneyline(ev, m).game == g)
       case FromKalshi(ev, m, t) =>
         && KalshiRules(rules, ev, m, t) && t != Moneyline
         && Lettered(ev.codes.0) && Lettered(ev.codes.1) && ev.codes.0 != ev.codes.1
         && (if t == Spread then KalshiSpread(ev, m) == Some(g) else KalshiTotal(ev, m) == Some(g))
       case FromKalshiMoneyline(ev, ids) =>
         && ids.0 in rules && ids.1 in rules
         && rules[ids.0] == Wins(ev.teams.0, ev.teams.1) && rules[ids.1] == Wins(ev.teams.1, ev.teams.0)
         && g == KalshiMoneyline(ev, ids)
  }

  /** The code read off a ticker is the code it was written with. */
  lemma AnchorCodeNames(ev: KalshiEvent, ticker: string)
    requires Lettered(ev.codes.0) && Lettered(ev.codes.1) && ev.codes.0 != ev.codes.1
    requires AnchorCode(ticker, ev.ticker, ev.codes).Some?
    ensures var code := AnchorCode(ticker, ev.ticker, ev.codes).value;
      var (anchor, other) := if code == ev.codes.0 then ev.teams else (ev.teams.1, ev.teams.0);
      Names(ev, ticker, anchor, other)
  {
  }

  /** Each venue's sign convention denotes the same proposition: an outcome filed
      under the yes key pays exactly when the proposition holds, and the other
      exactly when it does not. */
  lemma ListingMeansProposition(rules: Rulebook, src: Source, g: Game, score: Score, k: nat)
    requires ListedBy(rules, src, g) && NotPushed(g, score) && k < |g.outcomes|
    ensures |g.outcomes| == 2 && g.outcomes[k].1 in rules
    ensures Happens(rules[g.outcomes[k].1], score) <==>
              ((g.outcomes[k].0 == YesKey(g.marketType, g.anchor, TeamA(g))) <==> Proposition(g, score))
  {
    match src
    case FromPoly(_, _, _) =>
    case FromKalshi(ev, m, t) =>
      if t == Spread {
        AnchorCodeNames(ev, m.ticker);
      }
    case FromKalshiMoneyline(_, _) =>
  }

  /** A signed line at a push is where the two conventions part: the long side of
      a positive line and the other venue's anchored NO no longer agree. */
  lemma ConventionsPartAtPush(ev: PolyEvent, m: PolyMarket, rules: Rulebook, score: Score)
    requires ev.teams.Some? && ev.teams.value.0 != ev.teams.value.1
    requires PolySpread(ev, m).Listed? && PolyRules(rules, ev, m, Spread) && m.signed.value > 0.0
    ensures var (first, second) := ev.teams.value;
      (Margin(score, second, first) as real != m.signed.value)
        <==> (Happens(rules[m.longId], score) <==> Happens(NotByMore(second, first, m.signed.value), score))
  {
  }
}
