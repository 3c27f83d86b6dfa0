/**
 * The records of the tournament (backend/app/models.py): themes, teams, match
 * scores, challenges, matches, settings and the tournament snapshot, with the
 * defaults the records declare.
 */
module Models {
  import opened Base

  /** The four challenge categories. */
  datatype Theme = Lyrics | Scene | Emoji | Trivia

  /** The themes in the order the content table lists them. */
  const AllThemes: seq<Theme> := [Lyrics, Scene, Emoji, Trivia]

  /** The wire name of a theme. */
  function ThemeName(t: Theme): string
  {
    match t
    case Lyrics => "lyrics"
    case Scene => "scene"
    case Emoji => "emoji"
    case Trivia => "trivia"
  }

  /** Reads a theme from its wire name; any other string is not a theme. */
  function ParseTheme(s: string): (r: Option<Theme>)
    ensures r.Some? ==> ThemeName(r.value) == s
    ensures r.None? <==> s != "lyrics" && s != "scene" && s != "emoji" && s != "trivia"
  {
    if s == "lyrics" then Some(Lyrics)
    else if s == "scene" then Some(Scene)
    else if s == "emoji" then Some(Emoji)
    else if s == "trivia" then Some(Trivia)
    else None
  }

  /** A contestant pair; `score` is the cumulative leaderboard score. */
  datatype Team = Team(id: string, name: string, players: seq<string>, score: int)

  /** A team as first declared: its score defaults to 0. */
  function NewTeam(id: string, name: string, players: seq<string>): (t: Team)
    ensures t.score == 0
    ensures t.id == id && t.name == name && t.players == players
  {
    Team(id, name, players, 0)
  }

  /** The per-match tally: points of each side, rounds scheduled, rounds played. */
  datatype MatchScore = MatchScore(teamA: int, teamB: int, bestOf: int, currentChallenge: int)

  /** A tally with only `bestOf` given: no points and no rounds played yet. */
  function NewScore(bestOf: int): (sc: MatchScore)
    ensures sc.teamA == 0 && sc.teamB == 0 && sc.currentChallenge == 0
    ensures sc.bestOf == bestOf
  {
    MatchScore(0, 0, bestOf, 0)
  }

  /** The default tally: no points, best of 5, no rounds played. */
  const DefaultScore: MatchScore := NewScore(5)

  /** One prompt posed to both sides of a round. */
  datatype Challenge = Challenge(
    id: string, theme: Theme, prompt: string, answer: string,
    metadata: Option<map<string, string>>)

  /** The lifecycle of a match. */
  datatype Status = Pending | InProgress | Completed

  /** The wire name of a status. */
  function StatusName(st: Status): string
  {
    match st
    case Pending => "pending"
    case InProgress => "in_progress"
    case Completed => "completed"
  }

  /** Reads a status from its wire name; any other string is not a status. */
  function ParseStatus(s: string): (r: Option<Status>)
    ensures r.Some? ==> StatusName(r.value) == s
    ensures r.None? <==> s != "pending" && s != "in_progress" && s != "completed"
  {
    if s == "pending" then Some(Pending)
    else if s == "in_progress" then Some(InProgress)
    else if s == "completed" then Some(Completed)
    else None
  }

  /** One duel of the bracket; `sourceA`/`sourceB` name the matches its slots come from. */
  datatype Match = Match(
    id: string,
    matchLabel: string,
    teamA: Option<Team>,
    teamB: Option<Team>,
    sourceA: Option<string>,
    sourceB: Option<string>,
    winnerId: Option<string>,
    loserId: Option<string>,
    score: MatchScore,
    status: Status,
    currentChallenge: Option<Challenge>,
    activeTheme: Option<Theme>,
    usedChallengeIds: seq<string>,
    disabledThemes: seq<Theme>)

  /**
   * A match built from its required fields and its sources, every other field
   * taking its declared default.
   */
  function NewMatch(id: string, title: string, teamA: Option<Team>, teamB: Option<Team>,
                    sourceA: Option<string>, sourceB: Option<string>): (m: Match)
    ensures m.id == id && m.matchLabel == title && m.teamA == teamA && m.teamB == teamB
    ensures m.sourceA == sourceA && m.sourceB == sourceB
    ensures m.status == Pending && m.score == DefaultScore
    ensures m.winnerId.None? && m.loserId.None?
    ensures m.currentChallenge.None? && m.activeTheme.None?
    ensures m.usedChallengeIds == [] && m.disabledThemes == []
  {
    Match(id, title, teamA, teamB, sourceA, sourceB, None, None, DefaultScore, Pending,
          None, None, [], [])
  }

  /** Per-theme timer durations and the named scoring weights. */
  datatype Settings = Settings(timers: map<Theme, int>, scoring: map<string, int>)

  /** `scoring.get(key, default)`. */
  function ScoringValue(s: Settings, key: string, default: int): (v: int)
    ensures key in s.scoring ==> v == s.scoring[key]
    ensures key !in s.scoring ==> v == default
  {
    if key in s.scoring then s.scoring[key] else default
  }

  /**
   * The tournament snapshot: the bracket, the leaderboard, the settings, the
   * current match, and the ids of every challenge drawn so far in the
   * tournament. The record in models.py declares no `globalUsedChallengeIds`;
   * the engine reads and appends it, and the client's type carries it, so the
   * model declares it here.
   */
  datatype TournamentState = TournamentState(
    bracket: seq<Match>,
    leaderboard: seq<Team>,
    settings: Settings,
    currentMatchId: Option<string>,
    globalUsedChallengeIds: seq<string>)

  /** A snapshot built from the declared fields; no challenge has been used yet. */
  function NewTournamentState(bracket: seq<Match>, leaderboard: seq<Team>, settings: Settings,
                              currentMatchId: Option<string>): (s: TournamentState)
    ensures s.bracket == bracket && s.leaderboard == leaderboard && s.settings == settings
    ensures s.currentMatchId == currentMatchId && s.globalUsedChallengeIds == []
  {
    TournamentState(bracket, leaderboard, settings, currentMatchId, [])
  }
}
