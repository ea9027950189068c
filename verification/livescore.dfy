/**
 * The live-score page: fetching scores by trying three providers in order
 * and falling back to the built-in demo matches, the provider mappers and
 * status mapping, the sport filter, the periodic score simulation, and the
 * highlights shown on a card.
 */
module LiveScore {
  import opened Optional
  import opened Text
  import opened Lists

  datatype Status = Live | Ended | Upcoming

  datatype Team = Team(name: string, score: string, flag: Option<string>)

  datatype Details = Details(
    overs: Option<string>,
    timeRemaining: Option<string>,
    currentInnings: Option<string>,
    runRate: Option<string>)

  datatype Match = Match(
    id: string,
    title: string,
    competition: string,
    matchType: string,
    status: Status,
    venue: string,
    date: string,
    time: string,
    home: Team,
    away: Team,
    details: Details,
    highlights: seq<string>)

  /**
   * What the page reads from the host: today's ISO date, the current
   * locale time, the locale time of a UTC date string, the value of
   * `Math.random().toString()` for the i-th mapped match, and the ISO date
   * k days before the moment the module was loaded.
   */
  datatype Env = Env(
    today: string,
    nowTime: string,
    localeTimeOf: string -> string,
    randomId: nat -> string,
    loadDate: nat -> string)

  const ENGLAND: string := "\U{1F3F4}\U{E0067}\U{E0062}\U{E0065}\U{E006E}\U{E0067}\U{E007F}"
  const INDIA: string := "\U{1F1EE}\U{1F1F3}"
  const USA: string := "\U{1F1FA}\U{1F1F8}"
  const SPAIN: string := "\U{1F1EA}\U{1F1F8}"
  const AUSTRALIA: string := "\U{1F1E6}\U{1F1FA}"
  const PAKISTAN: string := "\U{1F1F5}\U{1F1F0}"
  const NEW_ZEALAND: string := "\U{1F1F3}\U{1F1FF}"
  const GERMANY: string := "\U{1F1E9}\U{1F1EA}"
  const CRICKET_BAT: string := "\U{1F3CF}"
  const FOOTBALL: string := "\U{26BD}"

  // ---------------------------------------------------------------------
  // The demo matches.

  function Mock1(loadDate: nat -> string): Match
  {
    Match("1", "India vs England", "Test Series 2025", "Test", Live, "Lord's Cricket Ground, London", loadDate(0), "11:00",
          Team("England", "285/6", Some(ENGLAND)), Team("India", "156/4", Some(INDIA)),
          Details(Some("Day 2 - Session 2"), Some("45 mins"), Some("1st Innings"), Some("3.2")),
          ["Joe Root 67(89)", "Jasprit Bumrah 2/45", "Thrilling contest"])
  }

  function Mock2(loadDate: nat -> string): Match
  {
    Match("2", "Arsenal vs Chelsea", "Premier League 2024/25", "Football", Live, "Emirates Stadium, London", loadDate(0), "20:00",
          Team("Arsenal", "2", Some(ENGLAND)), Team("Chelsea", "1", Some(ENGLAND)),
          Details(None, Some("15 mins"), Some("2nd Half"), None),
          ["Bukayo Saka Goal", "Cole Palmer Assist", "VAR Check"])
  }

  function Mock3(loadDate: nat -> string): Match
  {
    Match("3", "Lakers vs Warriors", "NBA Regular Season 2024/25", "Basketball", Live, "Crypto.com Arena, LA", loadDate(0), "21:30",
          Team("Los Angeles Lakers", "108", Some(USA)), Team("Golden State Warriors", "102", Some(USA)),
          Details(None, Some("Q4 - 5:23"), Some("4th Quarter"), None),
          ["LeBron James 28 pts", "Stephen Curry 25 pts", "Close game"])
  }

  function Mock4(loadDate: nat -> string): Match
  {
    Match("4", "Barcelona vs Atletico Madrid", "La Liga 2024/25", "Football", Ended, "Camp Nou, Barcelona", loadDate(1), "22:00",
          Team("Barcelona", "3", Some(SPAIN)), Team("Atletico Madrid", "1", Some(SPAIN)),
          Details(None, Some("FINISHED"), Some("Full Time"), None),
          ["Robert Lewandowski Goal", "Joao Felix Assist", "VAR Review"])
  }

  function Mock5(loadDate: nat -> string): Match
  {
    Match("5", "Australia vs England", "Ashes Series 2025", "Test", Ended, "MCG, Melbourne", loadDate(2), "11:00",
          Team("Australia", "298/6", Some(AUSTRALIA)), Team("England", "156/4", Some(ENGLAND)),
          Details(Some("Day 5 - FINISHED"), Some("MATCH COMPLETED"), Some("Final Result"), Some("3.2")),
          ["Steve Smith 67(89)", "Stuart Broad 2/45", "Australia won by 142 runs"])
  }

  function Mock6(loadDate: nat -> string): Match
  {
    Match("6", "Celtics vs 76ers", "NBA Regular Season 2024/25", "Basketball", Ended, "TD Garden, Boston", loadDate(1), "23:00",
          Team("Boston Celtics", "115", Some(USA)), Team("Philadelphia 76ers", "108", Some(USA)),
          Details(None, Some("FINISHED"), Some("Final Score"), None),
          ["Jayson Tatum 35 pts", "Joel Embiid 28 pts", "Celtics won by 7 points"])
  }

  function Mock7(loadDate: nat -> string): Match
  {
    Match("7", "Pakistan vs New Zealand", "T20I Series 2025", "T20", Ended, "Gaddafi Stadium, Lahore", loadDate(3), "19:00",
          Team("Pakistan", "165/5", Some(PAKISTAN)), Team("New Zealand", "142/8", Some(NEW_ZEALAND)),
          Details(Some("20.0 - FINISHED"), Some("MATCH COMPLETED"), Some("Final Result"), Some("7.4")),
          ["Babar Azam 45(32)", "Trent Boult 3/28", "Pakistan won by 23 runs"])
  }

  function Mock8(loadDate: nat -> string): Match
  {
    Match("8", "Bayern Munich vs Dortmund", "Bundesliga 2024/25", "Football", Ended, "Allianz Arena, Munich", loadDate(4), "20:30",
          Team("Bayern Munich", "2", Some(GERMANY)), Team("Borussia Dortmund", "1", Some(GERMANY)),
          Details(None, Some("FINISHED"), Some("Full Time"), None),
          ["Harry Kane Goal", "Jude Bellingham Assist", "Bayern won by 1-0"])
  }

  /** The eight demo matches, dated relative to the day the module was loaded. */
  function MockMatches(loadDate: nat -> string): (r: seq<Match>)
    ensures |r| == 8
  {
    [Mock1(loadDate), Mock2(loadDate), Mock3(loadDate), Mock4(loadDate),
     Mock5(loadDate), Mock6(loadDate), Mock7(loadDate), Mock8(loadDate)]
  }

  /** The fallback: every demo match re-dated to today and re-timed to now. */
  function MockRefreshed(env: Env): (r: seq<Match>)
    ensures |r| == |MockMatches(env.loadDate)|
    ensures forall i :: 0 <= i < |r| ==> r[i] == MockMatches(env.loadDate)[i].(date := env.today, time := env.nowTime)
  {
    var mock := MockMatches(env.loadDate);
    seq(|mock|, i requires 0 <= i < |mock| => mock[i].(date := env.today, time := env.nowTime))
  }

  // ---------------------------------------------------------------------
  // Provider payloads and mappers.

  /** One cricket match as the provider sends it; `teams` and `score` list their entries, a missing array is empty. */
  datatype RawCricket = RawCricket(
    id: Option<string>,
    name: Option<string>,
    matchType: Option<string>,
    status: Option<string>,
    venue: Option<string>,
    date: Option<string>,
    dateTimeGMT: Option<string>,
    teams: seq<Option<string>>,
    score: seq<Option<string>>,
    overs: Option<string>)

  datatype FullTime = FullTime(home: Option<nat>, away: Option<nat>)

  /**
   * One football match. A None among the nested objects the mapper reads
   * unconditionally (`id`, `homeTeam`, `awayTeam`, `competition`,
   * `utcDate`, `score.fullTime`) makes the mapper throw.
   */
  datatype RawFootball = RawFootball(
    id: Option<nat>,
    homeTeam: Option<string>,
    awayTeam: Option<string>,
    competition: Option<string>,
    venue: Option<string>,
    utcDate: Option<string>,
    fullTime: Option<FullTime>)

  /** A decoded body: `data` and `matches` are Some exactly when they hold arrays. */
  datatype Payload = Payload(data: Option<seq<RawCricket>>, matches: Option<seq<RawFootball>>)

  /** One provider attempt: the request or decoding threw, the response was not ok, or an ok body. */
  datatype Attempt = Threw | NotOk | Ok(payload: Payload)

  /** `status === 'Match not started' ? 'upcoming' : status === 'Match finished' ? 'ended' : 'live'`. */
  function StatusOf(status: Option<string>): (r: Status)
    ensures r == Upcoming <==> status == Some("Match not started")
    ensures r == Ended <==> status == Some("Match finished")
    ensures r == Live <==> status != Some("Match not started") && status != Some("Match finished")
  {
    if status == Some("Match not started") then Upcoming
    else if status == Some("Match finished") then Ended
    else Live
  }

  /** `a?.[k]`. */
  function At(a: seq<Option<string>>, k: nat): Option<string>
  {
    if k < |a| then a[k] else None
  }

  function MapCricket(m: RawCricket, k: nat, env: Env): (r: Match)
    ensures r.matchType == "T20" && r.highlights == []
    ensures r.status == StatusOf(m.status)
  {
    var home := OrElse(At(m.teams, 0), "Team 1");
    var away := OrElse(At(m.teams, 1), "Team 2");
    Match(OrElse(m.id, env.randomId(k)),
          OrElse(m.name, home + " vs " + away),
          OrElse(m.matchType, "Cricket"),
          "T20",
          StatusOf(m.status),
          OrElse(m.venue, "TBD"),
          OrElse(m.date, env.today),
          OrElse(m.dateTimeGMT, env.nowTime),
          Team(home, OrElse(At(m.score, 0), "0/0"), Some(CRICKET_BAT)),
          Team(away, OrElse(At(m.score, 1), "0/0"), Some(CRICKET_BAT)),
          Details(Some(OrElse(m.overs, "0")), Some("Live"), Some(OrElse(m.status, "Live")), None),
          [])
  }

  function MapCricketAll(list: seq<RawCricket>, env: Env): (r: seq<Match>)
    ensures |r| == |list|
    ensures forall i :: 0 <= i < |r| ==> r[i] == MapCricket(list[i], i, env)
  {
    seq(|list|, i requires 0 <= i < |list| => MapCricket(list[i], i, env))
  }

  /** `s.split(c)[0]`: the text before the first `c`, or all of it. */
  function Before(s: string, c: char): (r: string)
    ensures r <= s && c !in r
    ensures |r| < |s| ==> s[|r|] == c
  {
    if s == [] || s[0] == c then [] else [s[0]] + Before(s[1..], c)
  }

  /** `n?.toString() || '0'`. */
  function GoalsText(n: Option<nat>): string
  {
    if n.Some? then NatToString(n.value) else "0"
  }

  /** The football mapper; None when it throws. */
  function MapFootball(m: RawFootball, env: Env): (r: Option<Match>)
    ensures r.Some? <==> m.id.Some? && m.homeTeam.Some? && m.awayTeam.Some? && m.competition.Some? &&
                         m.utcDate.Some? && m.fullTime.Some?
    ensures r.Some? ==> r.value.matchType == "Football" && r.value.status == Live &&
                        r.value.id == NatToString(m.id.value) && r.value.highlights == []
  {
    if m.id.None? || m.homeTeam.None? || m.awayTeam.None? || m.competition.None? || m.utcDate.None? || m.fullTime.None? then
      None
    else
      var home, away := m.homeTeam.value, m.awayTeam.value;
      Some(Match(NatToString(m.id.value),
                 home + " vs " + away,
                 m.competition.value,
                 "Football",
                 Live,
                 OrElse(m.venue, "TBD"),
                 Before(m.utcDate.value, 'T'),
                 env.localeTimeOf(m.utcDate.value),
                 Team(home, GoalsText(m.fullTime.value.home), Some(FOOTBALL)),
                 Team(away, GoalsText(m.fullTime.value.away), Some(FOOTBALL)),
                 Details(None, Some("Live"), Some("Live"), None),
                 []))
  }

  /** `matches.map(...)`: None as soon as one mapping throws. */
  function MapFootballAll(list: seq<RawFootball>, env: Env): (r: Option<seq<Match>>)
    ensures r.Some? <==> forall i :: 0 <= i < |list| ==> MapFootball(list[i], env).Some?
    ensures r.Some? ==> |r.value| == |list| && forall i :: 0 <= i < |list| ==> MapFootball(list[i], env) == Some(r.value[i])
  {
    if list == [] then Some([])
    else
      var first := MapFootball(list[0], env);
      var rest := MapFootballAll(list[1..], env);
      assert forall i :: 1 <= i < |list| ==> list[i] == list[1..][i - 1];
      if first.None? || rest.None? then None else Some([first.value] + rest.value)
  }

  datatype Branch = CricketBranch | FootballBranch | BasketballBranch | NoBranch

  /**
   * The three shape tests in order. The third repeats the first test, so
   * a payload that would pass it has already been taken by the first.
   */
  function Classify(p: Payload): (b: Branch)
    ensures b != BasketballBranch
    ensures b == CricketBranch <==> p.data.Some?
    ensures b == FootballBranch <==> p.data.None? && p.matches.Some?
  {
    if p.data.Some? then CricketBranch
    else if p.matches.Some? then FootballBranch
    else if p.data.Some? then BasketballBranch
    else NoBranch
  }

  /** What one attempt yields, or None when control moves on to the next provider. */
  function Yield(a: Attempt, env: Env): Option<seq<Match>>
  {
    match a
    case Threw => None
    case NotOk => None
    case Ok(p) =>
      match Classify(p)
      case CricketBranch => Some(MapCricketAll(p.data.value, env))
      case FootballBranch => MapFootballAll(p.matches.value, env)
      case BasketballBranch => None
      case NoBranch => None
  }

  /** The result of the first attempt that yields, if any. */
  function FirstYield(attempts: seq<Attempt>, env: Env): (r: Option<seq<Match>>)
    ensures r.None? <==> forall i :: 0 <= i < |attempts| ==> Yield(attempts[i], env).None?
  {
    if attempts == [] then None
    else if Yield(attempts[0], env).Some? then Yield(attempts[0], env)
    else
      assert forall i :: 1 <= i < |attempts| ==> attempts[i] == attempts[1..][i - 1];
      FirstYield(attempts[1..], env)
  }

  /** A result comes from some provider, and every provider tried before it yielded nothing. */
  lemma {:induction false} FirstYieldIsFirstSuccess(attempts: seq<Attempt>, env: Env)
    requires FirstYield(attempts, env).Some?
    ensures exists i :: 0 <= i < |attempts| && Yield(attempts[i], env) == FirstYield(attempts, env) &&
                        forall j :: 0 <= j < i ==> Yield(attempts[j], env).None?
  {
    if Yield(attempts[0], env).Some? {
      assert Yield(attempts[0], env) == FirstYield(attempts, env);
    } else {
      FirstYieldIsFirstSuccess(attempts[1..], env);
      var i :| 0 <= i < |attempts[1..]| && Yield(attempts[1..][i], env) == FirstYield(attempts[1..], env) &&
               forall j :: 0 <= j < i ==> Yield(attempts[1..][j], env).None?;
      assert Yield(attempts[i + 1], env) == FirstYield(attempts, env);
      assert forall j :: 1 <= j < i + 1 ==> attempts[j] == attempts[1..][j - 1];
    }
  }

  /** The scores the page gets: the first provider that yields, else the refreshed demo matches. */
  function LiveScores(attempts: seq<Attempt>, env: Env): seq<Match>
  {
    match FirstYield(attempts, env)
    case Some(ms) => ms
    case None => MockRefreshed(env)
  }

  /** Attempt `i` decides when it yields; otherwise the attempts after it do. */
  lemma FirstYieldStep(attempts: seq<Attempt>, i: nat, env: Env)
    requires i < |attempts|
    ensures FirstYield(attempts[i..], env) ==
              if Yield(attempts[i], env).Some? then Yield(attempts[i], env) else FirstYield(attempts[i + 1..], env)
  {
    assert attempts[i..][1..] == attempts[i + 1..];
  }

  /** `fetchLiveScores`: one attempt per provider URL, in order, returning from inside the loop. */
  method FetchLiveScores(attempts: seq<Attempt>, env: Env) returns (ms: seq<Match>)
    ensures ms == LiveScores(attempts, env)
  {
    for i := 0 to |attempts|
      invariant FirstYield(attempts, env) == FirstYield(attempts[i..], env)
    {
      FirstYieldStep(attempts, i, env);
      match attempts[i]
      case Threw =>
      case NotOk =>
      case Ok(p) =>
        if p.data.Some? {
          assert Yield(attempts[i], env) == Some(MapCricketAll(p.data.value, env));
          return MapCricketAll(p.data.value, env);
        } else if p.matches.Some? {
          var mapped := MapFootballAll(p.matches.value, env);
          assert Yield(attempts[i], env) == mapped;
          if mapped.Some? {
            return mapped.value;
          }
        } else if p.data.Some? {
          assert false;
        }
    }
    return MockRefreshed(env);
  }

  /** When no provider yields, the page shows the demo matches in order, only their date and time replaced. */
  lemma FallbackIsMock(attempts: seq<Attempt>, env: Env)
    requires forall i :: 0 <= i < |attempts| ==> Yield(attempts[i], env).None?
    ensures |LiveScores(attempts, env)| == 8
    ensures forall i :: 0 <= i < 8 ==>
              LiveScores(attempts, env)[i].(date := "", time := "") == MockMatches(env.loadDate)[i].(date := "", time := "")
    ensures forall i :: 0 <= i < 8 ==>
              LiveScores(attempts, env)[i].date == env.today && LiveScores(attempts, env)[i].time == env.nowTime
  {
  }

  /** An ok first response with a `data` array decides the result, even when the array is empty. */
  lemma CricketPayloadWins(attempts: seq<Attempt>, env: Env)
    requires |attempts| > 0 && attempts[0].Ok? && attempts[0].payload.data.Some?
    ensures LiveScores(attempts, env) == MapCricketAll(attempts[0].payload.data.value, env)
    ensures attempts[0].payload.data.value == [] ==> LiveScores(attempts, env) == []
  {
  }

  /** A failing or unrecognised first provider hands over to the rest, in order. */
  lemma FailedAttemptFallsThrough(attempts: seq<Attempt>, env: Env)
    requires |attempts| > 0 && Yield(attempts[0], env).None?
    ensures LiveScores(attempts, env) == LiveScores(attempts[1..], env)
  {
  }

  // ---------------------------------------------------------------------
  // Sport filter and highlights.

  function FilteredMatches(ms: seq<Match>, sport: string): (r: seq<Match>)
    ensures sport == "all" ==> r == ms
    ensures sport != "all" ==> forall x | x in r :: x in ms && ContainsIgnoreCase(x.matchType, sport)
    ensures sport != "all" ==> forall x | x in ms && ContainsIgnoreCase(x.matchType, sport) :: x in r
    ensures Subsequence(r, ms)
  {
    if sport == "all" then
      SubsequenceOfSelf(ms);
      ms
    else
      var test := (m: Match) => ContainsIgnoreCase(m.matchType, sport);
      FilterMembers(ms, test);
      FilterIsSubsequence(ms, test);
      Filter(ms, test)
  }

  /** The "cricket" tab never shows a Test or T20 match, so none of the matches the cricket provider maps. */
  lemma CricketTabMissesTestAndT20(ms: seq<Match>)
    ensures forall x | x in FilteredMatches(ms, "cricket") :: x.matchType != "Test" && x.matchType != "T20"
  {
    ContainsLonger(Lower("Test"), Lower("cricket"));
    ContainsLonger(Lower("T20"), Lower("cricket"));
  }

  /** `highlights.length > 0 && highlights.slice(0, 2)`: at most the first two. */
  function DisplayedHighlights(highlights: seq<string>): (r: seq<string>)
    ensures r <= highlights
    ensures |r| == if |highlights| < 2 then |highlights| else 2
  {
    if |highlights| == 0 then [] else if |highlights| < 2 then highlights else highlights[..2]
  }

  // ---------------------------------------------------------------------
  // Score simulation.

  /**
   * The random draws of one simulation tick: the match index, whether the
   * sport's probability test passes, the cricket run increment, the two
   * football coin flips and the two basketball increments.
   */
  datatype Draws = Draws(index: nat, fires: bool, runs: nat, homeGoal: bool, awayGoal: bool, homePoints: nat, awayPoints: nat)

  /** The ranges `Math.floor(Math.random() * k)` can produce. */
  predicate DrawsInRange(d: Draws, n: nat)
  {
    (n == 0 || d.index < n) && 1 <= d.runs <= 5 && 1 <= d.homePoints <= 3 && 1 <= d.awayPoints <= 3
  }

  /** `s.split('/')`, first two fields: the runs text and, when there is a slash, the wickets text. */
  function CricketFields(s: string): (string, Option<string>)
  {
    var runs := Before(s, '/');
    if |runs| == |s| then (runs, None) else (runs, Some(Before(s[|runs| + 1..], '/')))
  }

  /** `` `${wickets}` `` for `Number(field)` or for a missing field. */
  function WicketsText(w: Option<string>): string
  {
    match w
    case None => "undefined"
    case Some(t) => NumberToString(ToNumber(t))
  }

  function CricketScore(runs: nat, wickets: nat): string
  {
    NatToString(runs) + "/" + NatToString(wickets)
  }

  /** Reading a rendered score gives back its runs and wickets. */
  lemma CricketScoreRoundTrip(runs: nat, wickets: nat)
    ensures CricketFields(CricketScore(runs, wickets)) == (NatToString(runs), Some(NatToString(wickets)))
    ensures ToNumber(CricketFields(CricketScore(runs, wickets)).0) == Num(runs)
    ensures WicketsText(CricketFields(CricketScore(runs, wickets)).1) == NatToString(wickets)
  {
    var r, w := NatToString(runs), NatToString(wickets);
    var s := CricketScore(runs, wickets);
    BeforeOf(r, '/', "/" + w);
    assert s == r + ("/" + w);
    assert s[|r| + 1..] == w;
    BeforeOf(w, '/', "");
    assert w + "" == w;
    ToNumberRoundTrip(runs);
    ToNumberRoundTrip(wickets);
  }

  lemma {:induction false} BeforeOf(d: string, c: char, t: string)
    requires c !in d
    requires t == [] || t[0] == c
    ensures Before(d + t, c) == d
    decreases |d|
  {
    if d != [] {
      BeforeOf(d[1..], c, t);
      assert (d + t)[1..] == d[1..] + t;
    } else {
      assert d + t == t;
    }
  }

  predicate IsCricketType(matchType: string)
  {
    matchType == "Cricket" || matchType == "ODI" || matchType == "Test"
  }

  function CricketUpdate(m: Match, d: Draws): Match
  {
    var (runsText, wickets) := CricketFields(m.home.score);
    var runs := ToNumber(runsText);
    if runs.Num? && runs.value < 300 && d.fires then
      m.(home := m.home.(score := NatToString(runs.value + d.runs) + "/" + WicketsText(wickets)))
    else m
  }

  /** `x + k` on a JavaScript number. */
  function Plus(x: JsNumber, k: nat): JsNumber
  {
    match x
    case Num(v) => Num(v + k)
    case NaN => NaN
  }

  function FootballUpdate(m: Match, d: Draws): Match
  {
    if d.fires then
      m.(home := m.home.(score := NumberToString(Plus(ParseInt(m.home.score), if d.homeGoal then 1 else 0))),
         away := m.away.(score := NumberToString(Plus(ParseInt(m.away.score), if d.awayGoal then 1 else 0))))
    else m
  }

  function BasketballUpdate(m: Match, d: Draws): Match
  {
    if d.fires then
      m.(home := m.home.(score := NumberToString(Plus(ParseInt(m.home.score), d.homePoints))),
         away := m.away.(score := NumberToString(Plus(ParseInt(m.away.score), d.awayPoints))))
    else m
  }

  /** The new version of the drawn match; only live matches change. */
  function UpdatedMatch(m: Match, d: Draws): Match
  {
    if m.status != Live then m
    else if IsCricketType(m.matchType) then CricketUpdate(m, d)
    else if m.matchType == "Football" then FootballUpdate(m, d)
    else if m.matchType == "Basketball" then BasketballUpdate(m, d)
    else m
  }

  /** One tick: copy the list and overwrite the drawn entry. */
  method SimulateScoreUpdate(matches: seq<Match>, d: Draws) returns (updated: seq<Match>)
    requires DrawsInRange(d, |matches|)
    ensures |updated| == |matches|
    ensures forall i :: 0 <= i < |matches| && i != d.index ==> updated[i] == matches[i]
    ensures |matches| > 0 ==> updated[d.index] == UpdatedMatch(matches[d.index], d)
  {
    var copy := new Match[|matches|](i requires 0 <= i < |matches| => matches[i]);
    if |matches| > 0 {
      var m := copy[d.index];
      if m.status == Live {
        if IsCricketType(m.matchType) {
          copy[d.index] := CricketUpdate(m, d);
        } else if m.matchType == "Football" {
          copy[d.index] := FootballUpdate(m, d);
        } else if m.matchType == "Basketball" {
          copy[d.index] := BasketballUpdate(m, d);
        }
      }
    }
    updated := copy[..];
  }

  /** A cricket update adds the drawn 1 to 5 runs below 300, keeps the wickets, and changes nothing else. */
  lemma CricketUpdateAddsRuns(m: Match, d: Draws, runs: nat, wickets: nat)
    requires m.home.score == CricketScore(runs, wickets)
    requires m.status == Live && IsCricketType(m.matchType) && DrawsInRange(d, 0)
    ensures runs < 300 && d.fires ==> UpdatedMatch(m, d) == m.(home := m.home.(score := CricketScore(runs + d.runs, wickets)))
    ensures runs >= 300 || !d.fires ==> UpdatedMatch(m, d) == m
  {
    CricketScoreRoundTrip(runs, wickets);
  }

  /** A football update that fires adds 0 or 1 goal to each side and changes nothing else; one that does not fire changes nothing. */
  lemma FootballUpdateAddsGoals(m: Match, d: Draws, h: nat, a: nat)
    requires m.home.score == NatToString(h) && m.away.score == NatToString(a)
    requires m.status == Live && m.matchType == "Football"
    ensures d.fires ==>
              UpdatedMatch(m, d) ==
              m.(home := m.home.(score := NatToString(h + (if d.homeGoal then 1 else 0))),
                 away := m.away.(score := NatToString(a + (if d.awayGoal then 1 else 0))))
    ensures !d.fires ==> UpdatedMatch(m, d) == m
  {
    ParseIntRoundTrip(h, "");
    ParseIntRoundTrip(a, "");
    assert NatToString(h) + "" == NatToString(h);
    assert NatToString(a) + "" == NatToString(a);
  }

  /** A basketball update that fires adds the drawn points to each side and changes nothing else; one that does not fire changes nothing. */
  lemma BasketballUpdateAddsPoints(m: Match, d: Draws, h: nat, a: nat)
    requires m.home.score == NatToString(h) && m.away.score == NatToString(a)
    requires m.status == Live && m.matchType == "Basketball"
    ensures d.fires ==>
              UpdatedMatch(m, d) ==
              m.(home := m.home.(score := NatToString(h + d.homePoints)),
                 away := m.away.(score := NatToString(a + d.awayPoints)))
    ensures !d.fires ==> UpdatedMatch(m, d) == m
  {
    ParseIntRoundTrip(h, "");
    ParseIntRoundTrip(a, "");
    assert NatToString(h) + "" == NatToString(h);
    assert NatToString(a) + "" == NatToString(a);
  }

  /** Matches mapped from the cricket provider are typed "T20", which the simulation never touches. */
  lemma ApiCricketNeverSimulated(m: RawCricket, k: nat, env: Env, d: Draws)
    ensures UpdatedMatch(MapCricket(m, k, env), d) == MapCricket(m, k, env)
  {
  }

  // ---------------------------------------------------------------------
  // Page state.

  class LiveScorePage {
    var matches: seq<Match>
    var selectedSport: string

    /** Before the first fetch resolves the query's default, the demo list, is shown. */
    constructor (env: Env)
      ensures matches == MockMatches(env.loadDate) && selectedSport == "all"
    {
      matches := MockMatches(env.loadDate);
      selectedSport := "all";
    }

    method Refetched(attempts: seq<Attempt>, env: Env)
      modifies this
      ensures matches == LiveScores(attempts, env) && selectedSport == old(selectedSport)
    {
      matches := FetchLiveScores(attempts, env);
    }

    method SelectSport(sport: string)
      modifies this
      ensures selectedSport == sport && matches == old(matches)
    {
      selectedSport := sport;
    }

    /** The matches on screen. */
    function Shown(): seq<Match>
      reads this
    {
      FilteredMatches(matches, selectedSport)
    }

    /**
     * The simulation timer: it computes an updated copy and drops it; the
     * method may not modify the page, so the displayed matches stay as
     * they were.
     */
    method ScoreUpdateTick(d: Draws) returns (discarded: seq<Match>)
      requires DrawsInRange(d, |matches|)
      ensures |discarded| == |matches|
      ensures forall i :: 0 <= i < |matches| && i != d.index ==> discarded[i] == matches[i]
      ensures |matches| > 0 ==> discarded[d.index] == UpdatedMatch(matches[d.index], d)
    {
      discarded := SimulateScoreUpdate(matches, d);
    }
  }
}
