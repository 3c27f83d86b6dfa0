/**
 * The record of the tournament in backend/app/models.py declares no
 * `globalUsedChallengeIds`, yet `_draw_challenge` reads and appends to it.
 * On a pydantic model an undeclared attribute raises `AttributeError`, so as
 * written every draw raises, and `start_match` leaves its match in progress
 * without a challenge. The rest of the model adds the field, starting empty,
 * as the frontend's type for the snapshot does.
 */
module Findings {
  import opened Base
  import opened Models
  import opened Choice
  import opened Bracket
  import opened Steps
  import opened Properties

  /** The snapshot with exactly the fields models.py declares. */
  datatype DeclaredState = DeclaredState(
    bracket: seq<Match>,
    leaderboard: seq<Team>,
    settings: Settings,
    currentMatchId: Option<string>)

  /** What a call raises as written: one of the engine's errors, or a missing attribute. */
  datatype DeclaredError = Raised(fault: Fault) | UndeclaredAttribute(name: string)

  /** The declared snapshot with the corrected model's list of used ids (empty). */
  function Completed(s: DeclaredState): (t: TournamentState)
    ensures t.bracket == s.bracket && t.leaderboard == s.leaderboard
    ensures t.globalUsedChallengeIds == []
  {
    NewTournamentState(s.bracket, s.leaderboard, s.settings, s.currentMatchId)
  }

  /** The declared part of a snapshot. */
  function Declared(t: TournamentState): DeclaredState
  {
    DeclaredState(t.bracket, t.leaderboard, t.settings, t.currentMatchId)
  }

  /**
   * `start_match` as written over the declared snapshot: it resolves the
   * slots, marks the match in progress and current, picks its theme, and
   * then the draw raises at its first line, reading `globalUsedChallengeIds`,
   * before anything is drawn or recorded, whatever the theme's pool holds.
   */
  function StartMatchAsDeclared(s: DeclaredState, c: Content, id: string, tk: nat)
    : (r: (DeclaredState, Result<Match, DeclaredError>))
    ensures r.1.Err?
    ensures r.1.error.UndeclaredAttribute? ==> MatchIndex(s.bracket, id).Some?
    ensures MatchIndex(s.bracket, id).None? ==> r == (s, Err(Raised(MatchNotFound(id))))
  {
    var t := Completed(s);
    match MatchIndex(t.bracket, id)
    case None => (s, Err(Raised(MatchNotFound(id))))
    case Some(i) =>
      var rs := ResolveStep(t, i);
      if rs.out.Err? then (Declared(rs.state), Err(Raised(rs.out.error)))
      else
        var s1 := rs.state;
        var s2 := WithMatch(s1, i, s1.bracket[i].(status := InProgress)).(currentMatchId := Some(s1.bracket[i].id));
        var theme := PickTheme(s2.bracket[i].disabledThemes, None, tk);
        var s3 := WithMatch(s2, i, s2.bracket[i].(activeTheme := Some(theme)));
        (Declared(s3), Err(UndeclaredAttribute("globalUsedChallengeIds")))
  }

  /**
   * As written, starting any match of the seeded bracket raises, however full
   * the challenge pools are, and leaves the match in progress and current with
   * the challenge it had before.
   */
  lemma StartMatchAsDeclaredRaises(s: DeclaredState, c: Content, id: string, tk: nat)
    requires Wired(s.bracket) && MatchIndex(s.bracket, id).Some?
    ensures var (after, out) := StartMatchAsDeclared(s, c, id, tk);
            var i := MatchIndex(s.bracket, id).value;
            out == Err(UndeclaredAttribute("globalUsedChallengeIds"))
            && |after.bracket| == |s.bracket|
            && after.bracket[i].status == InProgress && after.currentMatchId == Some(id)
            && after.bracket[i].currentChallenge == s.bracket[i].currentChallenge
  {
    var t := Completed(s);
    var i := MatchIndex(s.bracket, id).value;
    ResolveSucceedsWhenWired(t, i);
    ResolveShape(t, i);
    var s1 := ResolveStep(t, i).state;
    assert s1.bracket[i].id == id;
    var s2 := WithMatch(s1, i, s1.bracket[i].(status := InProgress)).(currentMatchId := Some(id));
    var theme := PickTheme(s2.bracket[i].disabledThemes, None, tk);
    var s3 := WithMatch(s2, i, s2.bracket[i].(activeTheme := Some(theme)));
    assert StartMatchAsDeclared(s, c, id, tk) == (Declared(s3), Err(UndeclaredAttribute("globalUsedChallengeIds")));
  }

  /**
   * With the field in place, the same call succeeds on a seeded bracket
   * whenever the chosen theme has challenges, and the match then holds one of
   * them.
   */
  lemma StartMatchWithField(s: DeclaredState, c: Content, id: string, tk: nat, ck: nat)
    requires Wired(s.bracket) && MatchIndex(s.bracket, id).Some?
    requires |c.Pool(PickTheme(s.bracket[MatchIndex(s.bracket, id).value].disabledThemes, None, tk))| > 0
    ensures var r := StartMatchStep(Completed(s), c, id, tk, ck);
            var i := MatchIndex(s.bracket, id).value;
            r.out.Ok? && |r.state.bracket| == |s.bracket| && r.state.bracket[i].currentChallenge.Some?
            && r.state.bracket[i].currentChallenge.value in c.Pool(PickTheme(s.bracket[i].disabledThemes, None, tk))
  {
    var t := Completed(s);
    var i := MatchIndex(s.bracket, id).value;
    ResolveSucceedsWhenWired(t, i);
    StartMatchFrom(t, c, id, i, tk, ck);
  }
}
