/**
 * The reference semantics of every operation of the engine's `GameState`
 * (backend/app/state.py), as pure functions over the tournament snapshot.
 *
 * Each returns a `Step`: the snapshot the operation leaves behind and what it
 * returns or raises. When the source raises part-way through, the snapshot is
 * the one it had reached at the raise: the in-memory state keeps every update
 * made before the error.
 */
module Steps {
  import opened Base
  import opened Models
  import opened Choice
  import opened Bracket

  /** The snapshot an operation leaves behind and its result or error. */
  datatype Step<T> = Step(state: TournamentState, out: Result<T, Fault>)

  /** Python truthiness of an optional id: present and not the empty string. */
  predicate Truthy(o: Option<string>)
  {
    o.Some? && o.value != ""
  }

  /** `max(0, x)`. */
  function Clamp(x: int): (r: int)
    ensures r >= 0 && r >= x
    ensures r == x || r == 0
  {
    if x > 0 then x else 0
  }

  // ---------------------------------------------------------------- lookups

  /** The position of the first occurrence of `key`, if any. */
  function FirstIndex(keys: seq<string>, key: string): (r: Option<nat>)
    ensures r.Some? ==> r.value < |keys| && keys[r.value] == key && key !in keys[..r.value]
    ensures r.None? <==> key !in keys
  {
    if |keys| == 0 then None
    else if keys[0] == key then Some(0)
    else
      match FirstIndex(keys[1..], key)
      case None => None
      case Some(k) =>
        assert keys[..k + 1] == [keys[0]] + keys[1..][..k];
        Some(k + 1)
  }

  /** `_find_match`: the position of the first match with this id. */
  function MatchIndex(b: seq<Match>, id: string): (r: Option<nat>)
    ensures r.Some? ==> r.value < |b| && b[r.value].id == id
                        && forall j :: 0 <= j < r.value ==> b[j].id != id
    ensures r.None? <==> forall j :: 0 <= j < |b| ==> b[j].id != id
  {
    var r := FirstIndex(MatchIds(b), id);
    assert r.Some? ==> forall j :: 0 <= j < r.value ==> MatchIds(b)[..r.value][j] == b[j].id;
    assert r.None? ==> forall j :: 0 <= j < |b| ==> MatchIds(b)[j] != id;
    r
  }

  /** The team ids of the leaderboard, in order. */
  function TeamIds(l: seq<Team>): (ids: seq<string>)
    ensures |ids| == |l|
    ensures forall k :: 0 <= k < |l| ==> ids[k] == l[k].id
  {
    seq(|l|, k requires 0 <= k < |l| => l[k].id)
  }

  /** The position of the first leaderboard team with this id. */
  function TeamIndex(l: seq<Team>, id: string): (r: Option<nat>)
    ensures r.Some? ==> r.value < |l| && l[r.value].id == id
                        && forall k :: 0 <= k < r.value ==> l[k].id != id
    ensures r.None? <==> forall k :: 0 <= k < |l| ==> l[k].id != id
  {
    var r := FirstIndex(TeamIds(l), id);
    assert r.Some? ==> forall k :: 0 <= k < r.value ==> TeamIds(l)[..r.value][k] == l[k].id;
    assert r.None? ==> forall k :: 0 <= k < |l| ==> TeamIds(l)[k] != id;
    r
  }

  /** `_find_team`: the first leaderboard team with this id, or None. */
  function LookupTeam(l: seq<Team>, id: string): (t: Option<Team>)
    ensures t.Some? ==> t.value in l && t.value.id == id
    ensures t.None? <==> forall k :: 0 <= k < |l| ==> l[k].id != id
  {
    match TeamIndex(l, id)
    case Some(k) => Some(l[k])
    case None => None
  }

  // ----------------------------------------------------- bracket plumbing

  /** Id, label and sources: the part of a match no operation changes. */
  predicate SameMatchWiring(m1: Match, m2: Match)
  {
    m1.id == m2.id && m1.matchLabel == m2.matchLabel
    && m1.sourceA == m2.sourceA && m1.sourceB == m2.sourceB
  }

  /** Two brackets with the same matches wired the same way. */
  predicate SameWiring(b1: seq<Match>, b2: seq<Match>)
  {
    |b1| == |b2| && forall j :: 0 <= j < |b1| ==> SameMatchWiring(b1[j], b2[j])
  }

  /** The snapshot with the match at position `i` replaced. */
  function WithMatch(s: TournamentState, i: nat, m: Match): (r: TournamentState)
    requires i < |s.bracket|
  {
    s.(bracket := s.bracket[i := m])
  }

  lemma SameWiringTrans(b1: seq<Match>, b2: seq<Match>, b3: seq<Match>)
    requires SameWiring(b1, b2) && SameWiring(b2, b3)
    ensures SameWiring(b1, b3)
  {
  }

  /** Replacing a match by one wired the same way keeps the bracket's wiring. */
  lemma WithMatchWiring(s: TournamentState, i: nat, m: Match)
    requires i < |s.bracket| && SameMatchWiring(s.bracket[i], m)
    ensures SameWiring(s.bracket, WithMatch(s, i, m).bracket)
  {
  }

  /** The team in one slot of a match. */
  function SlotTeam(m: Match, side: Side): Option<Team>
  {
    if side == A then m.teamA else m.teamB
  }

  /** The match with one slot set. */
  function SetSlot(m: Match, side: Side, t: Option<Team>): (r: Match)
    ensures SameMatchWiring(m, r)
  {
    if side == A then m.(teamA := t) else m.(teamB := t)
  }

  /** Some slot holds a team with this id. */
  predicate SlotHolds(o: Option<Team>, id: string)
  {
    o.Some? && o.value.id == id
  }

  predicate MatchHolds(m: Match, id: string)
  {
    SlotHolds(m.teamA, id) || SlotHolds(m.teamB, id)
  }

  predicate BracketHolds(b: seq<Match>, id: string)
  {
    exists j :: 0 <= j < |b| && MatchHolds(b[j], id)
  }

  /** A slot with its team's score brought up to date. */
  function SyncSlot(o: Option<Team>, id: string, score: int): Option<Team>
  {
    if SlotHolds(o, id) then Some(o.value.(score := score)) else o
  }

  function SyncMatch(m: Match, id: string, score: int): Match
  {
    m.(teamA := SyncSlot(m.teamA, id, score), teamB := SyncSlot(m.teamB, id, score))
  }

  /** The bracket with every slot holding team `id` given that team's new score. */
  function SyncSlots(b: seq<Match>, id: string, score: int): (r: seq<Match>)
    ensures |r| == |b|
    ensures forall j :: 0 <= j < |b| ==> r[j] == SyncMatch(b[j], id, score)
  {
    seq(|b|, j requires 0 <= j < |b| => SyncMatch(b[j], id, score))
  }

  // ------------------------------------------------------ internal steps

  /**
   * `_update_leaderboard_score`: the team's score becomes `max(0, score + delta)`
   * and every slot holding the team is given that score. When the team is not
   * on the leaderboard the source dereferences `None` at the first slot that
   * holds the id, and raises.
   */
  function UpdateScoreStep(s: TournamentState, teamId: string, delta: int): (r: Step<()>)
    ensures SameWiring(s.bracket, r.state.bracket)
  {
    match TeamIndex(s.leaderboard, teamId)
    case None =>
      if BracketHolds(s.bracket, teamId) then Step(s, Err(NoLeaderboardTeam(teamId)))
      else Step(s, Ok(()))
    case Some(k) =>
      var score := Clamp(s.leaderboard[k].score + delta);
      Step(s.(leaderboard := s.leaderboard[k := s.leaderboard[k].(score := score)],
              bracket := SyncSlots(s.bracket, teamId, score)),
           Ok(()))
  }

  /** Puts a team (or None) into a slot of the first match with id `target`. */
  function PlaceStep(s: TournamentState, target: Slot, t: Option<Team>): (r: Step<()>)
    ensures SameWiring(s.bracket, r.state.bracket)
  {
    match MatchIndex(s.bracket, target.matchId)
    case None => Step(s, Err(MatchNotFound(target.matchId)))
    case Some(j) => Step(WithMatch(s, j, SetSlot(s.bracket[j], target.side, t)), Ok(()))
  }

  /**
   * `_advance`: once a match has both a winner and a loser, its winner goes to
   * the slot `NextSlot` names and, for a semifinal, its loser to the slot
   * `ThirdSlot` names. The winner placed is the leaderboard's team with that id
   * (None when there is none); the loser is placed only when it is found.
   */
  function AdvanceStep(s: TournamentState, i: nat): (r: Step<()>)
    requires i < |s.bracket|
    ensures SameWiring(s.bracket, r.state.bracket)
  {
    var m := s.bracket[i];
    if !Truthy(m.winnerId) || !Truthy(m.loserId) then Step(s, Ok(()))
    else
      var winner := LookupTeam(s.leaderboard, m.winnerId.value);
      var loser := LookupTeam(s.leaderboard, m.loserId.value);
      var p := if NextSlot(m.id).Some? then PlaceStep(s, NextSlot(m.id).value, winner) else Step(s, Ok(()));
      if p.out.Err? || ThirdSlot(m.id).None? || loser.None? then p
      else PlaceStep(p.state, ThirdSlot(m.id).value, loser)
  }

  /**
   * One half of `_resolve_sources`: an empty slot with a source is filled from
   * the source match's winner, or its loser for the third-place match.
   */
  function ResolveSideStep(s: TournamentState, i: nat, side: Side): (r: Step<()>)
    requires i < |s.bracket|
    ensures SameWiring(s.bracket, r.state.bracket)
  {
    var m := s.bracket[i];
    var source := if side == A then m.sourceA else m.sourceB;
    if SlotTeam(m, side).Some? || !Truthy(source) then Step(s, Ok(()))
    else
      match MatchIndex(s.bracket, source.value)
      case None => Step(s, Err(MatchNotFound(source.value)))
      case Some(j) =>
        var src := s.bracket[j];
        if Truthy(src.winnerId) && m.id != "third" then
          Step(WithMatch(s, i, SetSlot(m, side, LookupTeam(s.leaderboard, src.winnerId.value))), Ok(()))
        else if Truthy(src.loserId) && m.id == "third" then
          Step(WithMatch(s, i, SetSlot(m, side, LookupTeam(s.leaderboard, src.loserId.value))), Ok(()))
        else Step(s, Ok(()))
  }

  /** `_resolve_sources`: slot A, then slot B. */
  function ResolveStep(s: TournamentState, i: nat): (r: Step<()>)
    requires i < |s.bracket|
    ensures SameWiring(s.bracket, r.state.bracket)
  {
    var a := ResolveSideStep(s, i, A);
    if a.out.Err? then a else ResolveSideStep(a.state, i, B)
  }

  /**
   * `_end_match`: the match is completed, the winning side's team id becomes
   * `winnerId` and earns the win bonus, the other side's becomes `loserId`, the
   * teams advance, and the current match and challenge are cleared.
   */
  function EndMatchStep(s: TournamentState, i: nat, side: Side): (r: Step<()>)
    requires i < |s.bracket|
    ensures SameWiring(s.bracket, r.state.bracket)
  {
    var m := s.bracket[i];
    var u := AwardStep(MarkWinner(s, i, side), SlotTeam(m, side));
    if u.out.Err? then u
    else
      var a := AdvanceStep(MarkLoser(u.state, i, SlotTeam(m, Other(side))), i);
      if a.out.Err? then a
      else Step(ClearCurrent(a.state, i), Ok(()))
  }

  /** The match completed and, when the winning slot is filled, its id recorded. */
  function MarkWinner(s: TournamentState, i: nat, side: Side): (r: TournamentState)
    requires i < |s.bracket|
    ensures SameWiring(s.bracket, r.bracket)
  {
    var m := s.bracket[i];
    var winner := SlotTeam(m, side);
    var s1 := WithMatch(s, i, m.(status := Completed));
    if winner.Some? then WithMatch(s1, i, s1.bracket[i].(winnerId := Some(winner.value.id))) else s1
  }

  /** The win bonus for the winner, if there is one. */
  function AwardStep(s: TournamentState, winner: Option<Team>): (r: Step<()>)
    ensures SameWiring(s.bracket, r.state.bracket)
  {
    if winner.Some? then UpdateScoreStep(s, winner.value.id, WinBonus(s.settings)) else Step(s, Ok(()))
  }

  /** The loser's id recorded, if there is a loser. */
  function MarkLoser(s: TournamentState, i: nat, loser: Option<Team>): (r: TournamentState)
    requires i < |s.bracket|
    ensures SameWiring(s.bracket, r.bracket)
  {
    if loser.Some? then WithMatch(s, i, s.bracket[i].(loserId := Some(loser.value.id))) else s
  }

  /** No current match, and no current challenge for match `i`. */
  function ClearCurrent(s: TournamentState, i: nat): (r: TournamentState)
    requires i < |s.bracket|
    ensures SameWiring(s.bracket, r.bracket)
  {
    WithMatch(s.(currentMatchId := None), i, s.bracket[i].(currentChallenge := None))
  }

  /**
   * `_draw_challenge`: draws from the theme's challenges not yet used in the
   * tournament (all of them once every one is used), raises on an empty pool,
   * and records the drawn id in the match's and the tournament's used lists.
   */
  function DrawStep(s: TournamentState, c: Content, i: nat, theme: Theme, k: nat): (r: Step<Challenge>)
    requires i < |s.bracket|
    ensures SameWiring(s.bracket, r.state.bracket)
  {
    var sel := SelectionPool(c.Pool(theme), s.globalUsedChallengeIds);
    if |sel| == 0 then Step(s, Err(NoChallenges(theme)))
    else
      var ch := Choose(sel, k);
      var m := s.bracket[i];
      var m2 := m.(usedChallengeIds := m.usedChallengeIds + [ch.id],
                   currentChallenge := Some(ch), activeTheme := Some(theme));
      Step(WithMatch(s, i, m2).(globalUsedChallengeIds := s.globalUsedChallengeIds + [ch.id]), Ok(ch))
  }

  /** A new random theme other than the active one, then a challenge of it. */
  function RedrawStep(s: TournamentState, c: Content, i: nat, tk: nat, ck: nat): (r: Step<Challenge>)
    requires i < |s.bracket|
    ensures SameWiring(s.bracket, r.state.bracket)
  {
    var m := s.bracket[i];
    var theme := PickTheme(m.disabledThemes, m.activeTheme, tk);
    var s1 := WithMatch(s, i, m.(activeTheme := Some(theme)));
    var d := DrawStep(s1, c, i, theme, ck);
    WithMatchWiring(s, i, m.(activeTheme := Some(theme)));
    SameWiringTrans(s.bracket, s1.bracket, d.state.bracket);
    d
  }

  /** What an operation that returns the match returns, given where it ended. */
  function MatchOutcome<U>(st: Step<U>, i: nat): (r: Step<Match>)
    requires i < |st.state.bracket|
    ensures r.state == st.state
    ensures r.out.Err? <==> st.out.Err?
  {
    if st.out.Err? then Step(st.state, Err(st.out.error)) else Step(st.state, Ok(st.state.bracket[i]))
  }

  /** What an operation that returns the snapshot returns, given where it ended. */
  function StateOutcome<U>(st: Step<U>): (r: Step<TournamentState>)
    ensures r.state == st.state
    ensures r.out.Err? <==> st.out.Err?
  {
    if st.out.Err? then Step(st.state, Err(st.out.error)) else Step(st.state, Ok(st.state))
  }

  /**
   * The shared end of a scored round: complete the match when `CheckWinner`
   * names a side, otherwise draw the next challenge under a new theme.
   */
  function ConcludeRound(s: TournamentState, c: Content, i: nat, tk: nat, ck: nat): (r: Step<Match>)
    requires i < |s.bracket|
    ensures SameWiring(s.bracket, r.state.bracket)
  {
    match CheckWinner(s.bracket[i].score)
    case Some(side) => MatchOutcome(EndMatchStep(s, i, side), i)
    case None => MatchOutcome(RedrawStep(s, c, i, tk, ck), i)
  }

  /** `result_a`/`result_b` scoring: one more round, `perCorrect` per "correct". */
  function ScoreRound(sc: MatchScore, resultA: string, resultB: string, perCorrect: int): (r: MatchScore)
    ensures r.bestOf == sc.bestOf && r.currentChallenge == sc.currentChallenge + 1
    ensures r.teamA == sc.teamA + (if resultA == "correct" then perCorrect else 0)
    ensures r.teamB == sc.teamB + (if resultB == "correct" then perCorrect else 0)
  {
    var played := sc.(currentChallenge := sc.currentChallenge + 1);
    var a := if resultA == "correct" then played.(teamA := played.teamA + perCorrect) else played;
    if resultB == "correct" then a.(teamB := a.teamB + perCorrect) else a
  }

  /** Single-side scoring: one more round, `perCorrect` to the side on "correct". */
  function ScoreChallenge(sc: MatchScore, side: Side, result: string, perCorrect: int): (r: MatchScore)
    ensures r.bestOf == sc.bestOf && r.currentChallenge == sc.currentChallenge + 1
    ensures r.teamA == sc.teamA + (if result == "correct" && side.A? then perCorrect else 0)
    ensures r.teamB == sc.teamB + (if result == "correct" && side.B? then perCorrect else 0)
  {
    var played := sc.(currentChallenge := sc.currentChallenge + 1);
    if result != "correct" then played
    else if side == A then played.(teamA := played.teamA + perCorrect)
    else played.(teamB := played.teamB + perCorrect)
  }

  /** Applies leaderboard deltas in order, stopping at the first that raises. */
  function ApplyDeltas(s: TournamentState, deltas: seq<(string, int)>): (r: Step<()>)
    ensures SameWiring(s.bracket, r.state.bracket)
    decreases |deltas|
  {
    if |deltas| == 0 then Step(s, Ok(()))
    else
      var u := UpdateScoreStep(s, deltas[0].0, deltas[0].1);
      if u.out.Err? then u else ApplyDeltas(u.state, deltas[1..])
  }

  /** The score of the LAST leaderboard team with this id, or 0 for none. */
  function LastScore(l: seq<Team>, id: string): (v: int)
    ensures (forall k :: 0 <= k < |l| ==> l[k].id != id) ==> v == 0
    ensures v == 0 || exists k :: 0 <= k < |l| && l[k].id == id && l[k].score == v
    ensures forall k :: 0 <= k < |l| && l[k].id == id && (forall k2 :: k < k2 < |l| ==> l[k2].id != id)
                        ==> v == l[k].score
  {
    if |l| == 0 then 0
    else if l[|l| - 1].id == id then l[|l| - 1].score
    else LastScore(l[..|l| - 1], id)
  }

  /** The new roster, each team carrying its old leaderboard score (0 if new). */
  function Rescore(teams: seq<Team>, l: seq<Team>): (r: seq<Team>)
    ensures |r| == |teams|
    ensures forall j :: 0 <= j < |r| ==> r[j] == teams[j].(score := LastScore(l, teams[j].id))
  {
    seq(|teams|, j requires 0 <= j < |teams| => teams[j].(score := LastScore(l, teams[j].id)))
  }

  /** A slot re-pointed at the roster's first team with the same id, if any. */
  function RebindSlot(o: Option<Team>, teams: seq<Team>): Option<Team>
  {
    if o.Some? && LookupTeam(teams, o.value.id).Some? then LookupTeam(teams, o.value.id) else o
  }

  function RebindMatch(m: Match, teams: seq<Team>): Match
  {
    m.(teamA := RebindSlot(m.teamA, teams), teamB := RebindSlot(m.teamB, teams))
  }

  /** The bracket with every slot re-pointed at the new roster. */
  function Rebind(b: seq<Match>, teams: seq<Team>): (r: seq<Match>)
    ensures |r| == |b|
    ensures forall j :: 0 <= j < |b| ==> r[j] == RebindMatch(b[j], teams)
  {
    seq(|b|, j requires 0 <= j < |b| => RebindMatch(b[j], teams))
  }

  // -------------------------------------------------------- public steps

  /**
   * `reset`: a new seeded bracket from the given teams (the default roster with
   * scores zeroed when none or an empty list is given) and the given settings
   * (the current ones when none are given).
   */
  function ResetStep(s: TournamentState, defaults: seq<Team>, teams: Option<seq<Team>>,
                     settings: Option<Settings>): (r: Step<TournamentState>)
    ensures r.out.Err? ==> r.state == s
    ensures r.out.Ok? ==> r.out.value == r.state && Wired(r.state.bracket)
  {
    var newSettings := if settings.Some? then settings.value else s.settings;
    var newTeams := if teams.Some? && |teams.value| > 0 then teams.value else FreshTeams(defaults);
    match Bootstrap(newTeams, newSettings)
    case Err(f) => Step(s, Err(f))
    case Ok(t) => Step(t, Ok(t))
  }

  /** `reset_round`: forget the last drawn id of the match and its current challenge. */
  function ResetRoundStep(s: TournamentState, id: string): (r: Step<Match>)
    ensures SameWiring(s.bracket, r.state.bracket)
  {
    match MatchIndex(s.bracket, id)
    case None => Step(s, Err(MatchNotFound(id)))
    case Some(i) =>
      var m := s.bracket[i];
      var used := m.usedChallengeIds;
      var m2 := m.(usedChallengeIds := if |used| > 0 then used[..|used| - 1] else used,
                   currentChallenge := None);
      Step(WithMatch(s, i, m2), Ok(m2))
  }

  /**
   * `set_teams`: at least eight teams replace the leaderboard, keeping the
   * scores of teams already on it, and every slot is re-pointed at the new
   * record with its id.
   */
  function SetTeamsStep(s: TournamentState, teams: seq<Team>): (r: Step<TournamentState>)
    ensures SameWiring(s.bracket, r.state.bracket)
  {
    if |teams| < 8 then Step(s, Err(NotEnoughTeams))
    else
      var roster := Rescore(teams, s.leaderboard);
      var s2 := s.(leaderboard := roster, bracket := Rebind(s.bracket, roster));
      Step(s2, Ok(s2))
  }

  /**
   * `start_match`: resolves the slots, marks the match in progress and
   * current, picks a theme and draws its first challenge. It checks neither
   * the status nor that both slots are filled.
   */
  function StartMatchStep(s: TournamentState, c: Content, id: string, tk: nat, ck: nat): (r: Step<Match>)
    ensures SameWiring(s.bracket, r.state.bracket)
  {
    match MatchIndex(s.bracket, id)
    case None => Step(s, Err(MatchNotFound(id)))
    case Some(i) =>
      var rs := ResolveStep(s, i);
      if rs.out.Err? then Step(rs.state, Err(rs.out.error))
      else
        var s1 := rs.state;
        var s2 := WithMatch(s1, i, s1.bracket[i].(status := InProgress))
                    .(currentMatchId := Some(s1.bracket[i].id));
        var theme := PickTheme(s2.bracket[i].disabledThemes, None, tk);
        var s3 := WithMatch(s2, i, s2.bracket[i].(activeTheme := Some(theme)));
        MatchOutcome(DrawStep(s3, c, i, theme, ck), i)
  }

  /**
   * `set_theme`: optionally replaces the disabled themes, then draws a
   * challenge of the given theme, or of a random one other than the active.
   */
  function SetThemeStep(s: TournamentState, c: Content, id: string, theme: Option<Theme>,
                        disabled: Option<seq<Theme>>, tk: nat, ck: nat): (r: Step<Challenge>)
    ensures SameWiring(s.bracket, r.state.bracket)
  {
    match MatchIndex(s.bracket, id)
    case None => Step(s, Err(MatchNotFound(id)))
    case Some(i) =>
      var s1 := if disabled.Some? && |disabled.value| > 0
                then WithMatch(s, i, s.bracket[i].(disabledThemes := disabled.value)) else s;
      var m := s1.bracket[i];
      var chosen := if theme.Some? then theme.value else PickTheme(m.disabledThemes, m.activeTheme, tk);
      DrawStep(s1, c, i, chosen, ck)
  }

  /** `submit_challenge`: scores one side's answer, then concludes the round. */
  function SubmitChallengeStep(s: TournamentState, c: Content, id: string, side: string,
                               result: string, tk: nat, ck: nat): (r: Step<Match>)
    ensures SameWiring(s.bracket, r.state.bracket)
  {
    match MatchIndex(s.bracket, id)
    case None => Step(s, Err(MatchNotFound(id)))
    case Some(i) =>
      if s.bracket[i].status != InProgress then Step(s, Err(NotInProgress))
      else
        match ParseSide(side)
        case None => Step(s, Err(BadSide(side)))
        case Some(sd) =>
          var m := s.bracket[i];
          var sc := ScoreChallenge(m.score, sd, result, PerCorrect(s.settings));
          ConcludeRound(WithMatch(s, i, m.(score := sc)), c, i, tk, ck)
  }

  /** `submit_round`: scores both sides' answers, then concludes the round. */
  function SubmitRoundStep(s: TournamentState, c: Content, id: string, resultA: string,
                           resultB: string, tk: nat, ck: nat): (r: Step<Match>)
    ensures SameWiring(s.bracket, r.state.bracket)
  {
    match MatchIndex(s.bracket, id)
    case None => Step(s, Err(MatchNotFound(id)))
    case Some(i) =>
      if s.bracket[i].status != InProgress then Step(s, Err(NotInProgress))
      else
        var m := s.bracket[i];
        var sc := ScoreRound(m.score, resultA, resultB, PerCorrect(s.settings));
        ConcludeRound(WithMatch(s, i, m.(score := sc)), c, i, tk, ck)
  }

  /** `next_challenge`: a new challenge under a new theme, without scoring. */
  function NextChallengeStep(s: TournamentState, c: Content, id: string, tk: nat, ck: nat): (r: Step<Match>)
    ensures SameWiring(s.bracket, r.state.bracket)
  {
    match MatchIndex(s.bracket, id)
    case None => Step(s, Err(MatchNotFound(id)))
    case Some(i) =>
      if s.bracket[i].status != InProgress then Step(s, Err(NotInProgress))
      else MatchOutcome(RedrawStep(s, c, i, tk, ck), i)
  }

  /**
   * `override_score`: sets the given raw match scores, leaving the round count
   * alone, then applies the leaderboard deltas in order.
   */
  function OverrideScoreStep(s: TournamentState, id: string, scoreA: Option<int>, scoreB: Option<int>,
                             deltas: seq<(string, int)>): (r: Step<TournamentState>)
    ensures SameWiring(s.bracket, r.state.bracket)
  {
    match MatchIndex(s.bracket, id)
    case None => Step(s, Err(MatchNotFound(id)))
    case Some(i) =>
      var m := s.bracket[i];
      var m1 := if scoreA.Some? then m.(score := m.score.(teamA := scoreA.value)) else m;
      var m2 := if scoreB.Some? then m1.(score := m1.score.(teamB := scoreB.value)) else m1;
      StateOutcome(ApplyDeltas(WithMatch(s, i, m2), deltas))
  }

  /**
   * `advance_manual`: with both slots filled, records the given winner (the
   * other slot's team is the loser, slot A's when the id matches neither),
   * completes the match, awards the win bonus and advances the teams.
   */
  function AdvanceManualStep(s: TournamentState, id: string, winnerId: string): (r: Step<TournamentState>)
    ensures SameWiring(s.bracket, r.state.bracket)
  {
    match MatchIndex(s.bracket, id)
    case None => Step(s, Err(MatchNotFound(id)))
    case Some(i) =>
      var m := s.bracket[i];
      if m.teamA.None? || m.teamB.None? then Step(s, Err(MissingTeams))
      else
        var loserId := if m.teamA.value.id == winnerId then m.teamB.value.id else m.teamA.value.id;
        var s1 := WithMatch(s, i, m.(winnerId := Some(winnerId), loserId := Some(loserId),
                                     status := Completed));
        var u := UpdateScoreStep(s1, winnerId, WinBonus(s1.settings));
        if u.out.Err? then StateOutcome(u)
        else StateOutcome(AdvanceStep(u.state, i))
  }

  /**
   * `reset_match` (the definition that takes effect): a fresh tally with the
   * same `bestOf`, status pending, and no result or current challenge.
   */
  function ResetMatchStep(s: TournamentState, id: string): (r: Step<Match>)
    ensures SameWiring(s.bracket, r.state.bracket)
  {
    match MatchIndex(s.bracket, id)
    case None => Step(s, Err(MatchNotFound(id)))
    case Some(i) =>
      var m := s.bracket[i];
      var m2 := m.(score := NewScore(m.score.bestOf), status := Pending, currentChallenge := None,
                   winnerId := None, loserId := None);
      Step(WithMatch(s, i, m2), Ok(m2))
  }
}
