/**
 * The fixed parts of the engine (backend/app/state.py): the default settings
 * and roster, match construction, the seeded 8-team bracket, the winner rule of
 * a best-of-N match, and the table of where a finished match sends its teams.
 */
module Bracket {
  import opened Base
  import opened Models

  /** The side of a match: slot A or slot B. */
  datatype Side = A | B

  /** Reads `"A"` or `"B"`; any other string names no side. */
  function ParseSide(s: string): (r: Option<Side>)
    ensures r == Some(A) <==> s == "A"
    ensures r == Some(B) <==> s == "B"
  {
    if s == "A" then Some(A) else if s == "B" then Some(B) else None
  }

  /** The other side of a match. */
  function Other(side: Side): (r: Side)
    ensures r != side
  {
    if side == A then B else A
  }

  /** The errors the engine raises. */
  datatype Fault =
    | NotEnoughTeams
    | MatchNotFound(matchId: string)
    | NotInProgress
    | BadSide(side: string)
    | NoChallenges(theme: Theme)
    | MissingTeams
    | NoLeaderboardTeam(teamId: string)

  const DefaultTimers: map<Theme, int> :=
    map[Lyrics := 10, Scene := 15, Emoji := 25, Trivia := 15]

  const DefaultSettings: Settings :=
    Settings(DefaultTimers, map["perCorrect" := 1, "winBonus" := 2])

  /**
   * The default settings give every theme a timer and score the game exactly
   * as the fallbacks do: one point per correct answer, two for a win.
   */
  lemma DefaultSettingsValues()
    ensures forall t: Theme :: t in DefaultSettings.timers
    ensures DefaultSettings.timers[Lyrics] == 10 && DefaultSettings.timers[Scene] == 15
    ensures DefaultSettings.timers[Emoji] == 25 && DefaultSettings.timers[Trivia] == 15
    ensures PerCorrect(DefaultSettings) == 1 && WinBonus(DefaultSettings) == 2
  {
    forall t: Theme
      ensures t in DefaultSettings.timers
    {
      match t
      case Lyrics =>
      case Scene =>
      case Emoji =>
      case Trivia =>
    }
  }

  /** Points for a correct answer; 1 when the settings do not say. */
  function PerCorrect(s: Settings): int
  {
    ScoringValue(s, "perCorrect", 1)
  }

  /** Leaderboard bonus for winning a match; 2 when the settings do not say. */
  function WinBonus(s: Settings): int
  {
    ScoringValue(s, "winBonus", 2)
  }

  /** The default roster: eight couples, with ids supplied by the caller. */
  const DefaultNames: seq<string> := [
    "Manaal & Ahmed", "Samia & Rafay", "Shahir & Laibah", "Rafay & Anum",
    "Sadia & Daniyaal", "Maaz & Misbah", "Javeria & Osama", "Dua & Amal"]

  const DefaultPlayers: seq<seq<string>> := [
    ["Manaal", "Ahmed"], ["Samia", "Rafay"], ["Shahir", "Laibah"], ["Rafay", "Anum"],
    ["Sadia", "Daniyaal"], ["Maaz", "Misbah"], ["Javeria", "Osama"], ["Dua", "Amal"]]

  /** The default teams, given the eight generated ids. */
  function DefaultTeams(ids: seq<string>): (ts: seq<Team>)
    requires |ids| == 8
    ensures |ts| == 8
    ensures forall j :: 0 <= j < 8 ==> ts[j].id == ids[j] && ts[j].score == 0
    ensures forall j :: 0 <= j < 8 ==> ts[j].name == DefaultNames[j] && ts[j].players == DefaultPlayers[j]
  {
    seq(8, j requires 0 <= j < 8 => NewTeam(ids[j], DefaultNames[j], DefaultPlayers[j]))
  }

  /** Copies of the given teams with their scores set back to 0. */
  function FreshTeams(teams: seq<Team>): (ts: seq<Team>)
    ensures |ts| == |teams|
    ensures forall j :: 0 <= j < |ts| ==> ts[j] == teams[j].(score := 0)
  {
    seq(|teams|, j requires 0 <= j < |teams| => teams[j].(score := 0))
  }

  /** `_make_match`: a pending best-of-5 match. */
  function MakeMatch(id: string, title: string, teamA: Option<Team>, teamB: Option<Team>,
                     sourceA: Option<string>, sourceB: Option<string>): (m: Match)
    ensures Unplayed(m) && m.score.bestOf == 5
    ensures m.id == id && m.matchLabel == title && m.teamA == teamA && m.teamB == teamB
    ensures m.sourceA == sourceA && m.sourceB == sourceB
  {
    NewMatch(id, title, teamA, teamB, sourceA, sourceB).(status := Pending, score := NewScore(5))
  }

  /** A match nothing has happened to yet. */
  predicate Unplayed(m: Match)
  {
    m.status == Pending && m.score.teamA == 0 && m.score.teamB == 0
    && m.score.currentChallenge == 0
    && m.winnerId.None? && m.loserId.None? && m.currentChallenge.None? && m.activeTheme.None?
    && m.usedChallengeIds == [] && m.disabledThemes == []
  }

  /** The match ids of the bracket, in order. */
  function MatchIds(b: seq<Match>): (ids: seq<string>)
    ensures |ids| == |b|
    ensures forall j :: 0 <= j < |b| ==> ids[j] == b[j].id
  {
    seq(|b|, j requires 0 <= j < |b| => b[j].id)
  }

  const BracketIds: seq<string> := ["qf1", "qf2", "qf3", "qf4", "sf1", "sf2", "final", "third"]

  const BracketLabels: seq<string> := [
    "Group Stage 1", "Group Stage 2", "Group Stage 3", "Group Stage 4",
    "Semifinal 1", "Semifinal 2", "Final", "Third Place"]

  /** The bracket holds the eight seeded match ids, in order. */
  predicate Named(b: seq<Match>)
  {
    |b| == 8 && MatchIds(b) == BracketIds
  }

  /**
   * The seeded bracket's wiring: four group matches without sources, sf1 fed
   * by qf1/qf2, sf2 by qf3/qf4, and both the final and the third-place match
   * fed by sf1/sf2.
   */
  predicate Wired(b: seq<Match>)
  {
    Named(b)
    && (forall j :: 0 <= j < 4 ==> b[j].sourceA.None? && b[j].sourceB.None?)
    && b[4].sourceA == Some("qf1") && b[4].sourceB == Some("qf2")
    && b[5].sourceA == Some("qf3") && b[5].sourceB == Some("qf4")
    && b[6].sourceA == Some("sf1") && b[6].sourceB == Some("sf2")
    && b[7].sourceA == Some("sf1") && b[7].sourceB == Some("sf2")
  }

  /** The sources of each bracket match, in bracket order (group matches have none). */
  const BracketSources: seq<(Option<string>, Option<string>)> := [
    (None, None), (None, None), (None, None), (None, None),
    (Some("qf1"), Some("qf2")), (Some("qf3"), Some("qf4")),
    (Some("sf1"), Some("sf2")), (Some("sf1"), Some("sf2"))]

  /**
   * The eight matches `_bootstrap` lists: match `j` has id `BracketIds[j]`,
   * title `BracketLabels[j]` and sources `BracketSources[j]`; the four group
   * matches take the seeded teams in pairs.
   */
  function SeededBracket(seeded: seq<Team>): (b: seq<Match>)
    requires |seeded| == 8
    ensures |b| == 8 && Wired(b)
    ensures forall j :: 0 <= j < 8 ==> Unplayed(b[j]) && b[j].score.bestOf == 5
    ensures forall j :: 0 <= j < 8 ==> b[j].matchLabel == BracketLabels[j]
    ensures forall j :: 0 <= j < 4 ==> b[j].teamA == Some(seeded[2 * j]) && b[j].teamB == Some(seeded[2 * j + 1])
    ensures forall j :: 4 <= j < 8 ==> b[j].teamA.None? && b[j].teamB.None?
  {
    var b := seq(8, j requires 0 <= j < 8 => SeedMatch(seeded, j));
    TableWired(b);
    b
  }

  /** Match `j` of the seeded bracket. */
  function SeedMatch(seeded: seq<Team>, j: nat): (m: Match)
    requires |seeded| == 8 && j < 8
    ensures Unplayed(m) && m.score.bestOf == 5
    ensures m.id == BracketIds[j] && m.matchLabel == BracketLabels[j]
    ensures (m.sourceA, m.sourceB) == BracketSources[j]
    ensures j < 4 ==> m.teamA == Some(seeded[2 * j]) && m.teamB == Some(seeded[2 * j + 1])
    ensures j >= 4 ==> m.teamA.None? && m.teamB.None?
  {
    MakeMatch(BracketIds[j], BracketLabels[j],
              if j < 4 then Some(seeded[2 * j]) else None,
              if j < 4 then Some(seeded[2 * j + 1]) else None,
              BracketSources[j].0, BracketSources[j].1)
  }

  /** A bracket whose ids and sources are the tables' is wired. */
  lemma TableWired(b: seq<Match>)
    requires |b| == 8
    requires forall j :: 0 <= j < 8 ==> b[j].id == BracketIds[j]
    requires forall j :: 0 <= j < 8 ==> (b[j].sourceA, b[j].sourceB) == BracketSources[j]
    ensures Wired(b)
  {
    assert MatchIds(b) == BracketIds;
    assert forall j :: 0 <= j < 4 ==> b[j].sourceA.None? && b[j].sourceB.None? by {
      forall j | 0 <= j < 4 ensures b[j].sourceA.None? && b[j].sourceB.None? {
        assert (b[j].sourceA, b[j].sourceB) == BracketSources[j];
      }
    }
    assert (b[4].sourceA, b[4].sourceB) == BracketSources[4];
    assert (b[5].sourceA, b[5].sourceB) == BracketSources[5];
    assert (b[6].sourceA, b[6].sourceB) == BracketSources[6];
    assert (b[7].sourceA, b[7].sourceB) == BracketSources[7];
  }

  /**
   * `_bootstrap`: seeds the first eight teams into the group stage in pairs
   * and leaves every later slot empty until its source matches finish.
   */
  function Bootstrap(teams: seq<Team>, settings: Settings): (r: Result<TournamentState, Fault>)
    ensures r.Err? <==> |teams| < 8
    ensures r.Err? ==> r.error == NotEnoughTeams
    ensures r.Ok? ==> r.value.bracket == SeededBracket(teams[..8])
    ensures r.Ok? ==> r.value.leaderboard == teams[..8] && r.value.settings == settings
    ensures r.Ok? ==> r.value.currentMatchId.None? && r.value.globalUsedChallengeIds == []
  {
    if |teams| < 8 then Err(NotEnoughTeams)
    else
      var seeded := teams[..8];
      Ok(NewTournamentState(SeededBracket(seeded), seeded, settings, None))
  }

  /**
   * `_check_winner`: no winner before `bestOf` rounds have been played; after
   * that the side with strictly more points, and none on a tie (sudden death).
   */
  function CheckWinner(sc: MatchScore): (w: Option<Side>)
    ensures w.Some? <==> sc.currentChallenge >= sc.bestOf && sc.teamA != sc.teamB
    ensures w == Some(A) ==> sc.teamA > sc.teamB
    ensures w == Some(B) ==> sc.teamB > sc.teamA
  {
    if sc.currentChallenge < sc.bestOf then None
    else if sc.teamA > sc.teamB then Some(A)
    else if sc.teamB > sc.teamA then Some(B)
    else None
  }

  /** A slot of a named match. */
  datatype Slot = Slot(matchId: string, side: Side)

  /**
   * Where a finished match sends its winner (the lookup in `next_map`). The
   * `g1`..`g4` keys are older names of the group matches that the engine
   * still accepts.
   */
  function NextSlot(id: string): (r: Option<Slot>)
    ensures r.Some? ==> r.value.matchId in ["sf1", "sf2", "final"]
  {
    if id == "qf1" || id == "g1" then Some(Slot("sf1", A))
    else if id == "qf2" || id == "g2" then Some(Slot("sf1", B))
    else if id == "qf3" || id == "g3" then Some(Slot("sf2", A))
    else if id == "qf4" || id == "g4" then Some(Slot("sf2", B))
    else if id == "sf1" then Some(Slot("final", A))
    else if id == "sf2" then Some(Slot("final", B))
    else None
  }

  /** Where a finished semifinal sends its loser (the lookup in `third_map`). */
  function ThirdSlot(id: string): (r: Option<Slot>)
    ensures r.Some? <==> id == "sf1" || id == "sf2"
    ensures r.Some? ==> r.value.matchId == "third"
  {
    if id == "sf1" then Some(Slot("third", A))
    else if id == "sf2" then Some(Slot("third", B))
    else None
  }
}
