/**
 * Invariants of the whole engine. A `Command` is one call of the engine's
 * public surface (what the HTTP routes and the websocket forward), `After`
 * the snapshot it leaves behind, raised or not. From the freshly seeded
 * tournament, any sequence of commands keeps the bracket wired as seeded and
 * every team score, on the leaderboard and in the slots, at 0 or above.
 */
module Invariants {
  import opened Base
  import opened Models
  import opened Choice
  import opened Bracket
  import opened Steps
  import opened Properties

  /** One public call; `tk` and `ck` stand for the random theme and challenge picks. */
  datatype Command =
    | ResetCmd(teams: Option<seq<Team>>, settings: Option<Settings>)
    | SetTeamsCmd(roster: seq<Team>)
    | StartMatchCmd(matchId: string, tk: nat, ck: nat)
    | SetThemeCmd(matchId: string, theme: Option<Theme>, disabled: Option<seq<Theme>>, tk: nat, ck: nat)
    | SubmitChallengeCmd(matchId: string, side: string, result: string, tk: nat, ck: nat)
    | SubmitRoundCmd(matchId: string, resultA: string, resultB: string, tk: nat, ck: nat)
    | NextChallengeCmd(matchId: string, tk: nat, ck: nat)
    | OverrideScoreCmd(matchId: string, scoreA: Option<int>, scoreB: Option<int>, deltas: seq<(string, int)>)
    | AdvanceCmd(matchId: string, winnerId: string)
    | ResetMatchCmd(matchId: string)
    | ResetRoundCmd(matchId: string)

  /** The snapshot a command leaves behind, whether it returned or raised. */
  function After(s: TournamentState, c: Content, defaults: seq<Team>, cmd: Command): TournamentState
  {
    match cmd
    case ResetCmd(teams, settings) => ResetStep(s, defaults, teams, settings).state
    case SetTeamsCmd(roster) => SetTeamsStep(s, roster).state
    case StartMatchCmd(id, tk, ck) => StartMatchStep(s, c, id, tk, ck).state
    case SetThemeCmd(id, theme, disabled, tk, ck) => SetThemeStep(s, c, id, theme, disabled, tk, ck).state
    case SubmitChallengeCmd(id, side, result, tk, ck) => SubmitChallengeStep(s, c, id, side, result, tk, ck).state
    case SubmitRoundCmd(id, ra, rb, tk, ck) => SubmitRoundStep(s, c, id, ra, rb, tk, ck).state
    case NextChallengeCmd(id, tk, ck) => NextChallengeStep(s, c, id, tk, ck).state
    case OverrideScoreCmd(id, a, b, deltas) => OverrideScoreStep(s, id, a, b, deltas).state
    case AdvanceCmd(id, winnerId) => AdvanceManualStep(s, id, winnerId).state
    case ResetMatchCmd(id) => ResetMatchStep(s, id).state
    case ResetRoundCmd(id) => ResetRoundStep(s, id).state
  }

  /** The snapshot after a sequence of commands, in order. */
  function Run(s: TournamentState, c: Content, defaults: seq<Team>, cmds: seq<Command>): TournamentState
    decreases |cmds|
  {
    if |cmds| == 0 then s else Run(After(s, c, defaults, cmds[0]), c, defaults, cmds[1..])
  }

  // ------------------------------------------------------- non-negative

  predicate SlotNonNegative(o: Option<Team>)
  {
    o.Some? ==> o.value.score >= 0
  }

  predicate TeamsNonNegative(l: seq<Team>)
  {
    forall k :: 0 <= k < |l| ==> l[k].score >= 0
  }

  /** Every team score on the leaderboard and in the slots is 0 or above. */
  predicate ScoresNonNegative(s: TournamentState)
  {
    TeamsNonNegative(s.leaderboard)
    && forall j :: 0 <= j < |s.bracket| ==> SlotNonNegative(s.bracket[j].teamA) && SlotNonNegative(s.bracket[j].teamB)
  }

  /** A reset keeps the invariant when the teams it is given have no negative score. */
  predicate ResetInputsNonNegative(cmd: Command)
  {
    cmd.ResetCmd? && cmd.teams.Some? ==> TeamsNonNegative(cmd.teams.value)
  }

  /** The leaderboard's records have non-negative scores. */
  lemma LookupNonNegative(l: seq<Team>, id: string)
    requires TeamsNonNegative(l)
    ensures SlotNonNegative(LookupTeam(l, id))
  {
  }

  /** The clamp leaves the updated team's score at 0 or above everywhere it appears. */
  lemma UpdateKeepsNonNegative(s: TournamentState, teamId: string, delta: int)
    requires ScoresNonNegative(s)
    ensures ScoresNonNegative(UpdateScoreStep(s, teamId, delta).state)
  {
    UpdateScoreEffect(s, teamId, delta);
    UpdateScoreShape(s, teamId, delta);
  }

  lemma PlaceKeepsNonNegative(s: TournamentState, target: Slot, t: Option<Team>)
    requires ScoresNonNegative(s) && SlotNonNegative(t)
    ensures ScoresNonNegative(PlaceStep(s, target, t).state)
  {
  }

  lemma AdvanceKeepsNonNegative(s: TournamentState, i: nat)
    requires ScoresNonNegative(s) && i < |s.bracket|
    ensures ScoresNonNegative(AdvanceStep(s, i).state)
  {
    var m := s.bracket[i];
    if Truthy(m.winnerId) && Truthy(m.loserId) {
      var winner := LookupTeam(s.leaderboard, m.winnerId.value);
      var loser := LookupTeam(s.leaderboard, m.loserId.value);
      LookupNonNegative(s.leaderboard, m.winnerId.value);
      LookupNonNegative(s.leaderboard, m.loserId.value);
      var p := if NextSlot(m.id).Some? then PlaceStep(s, NextSlot(m.id).value, winner) else Step(s, Ok(()));
      if NextSlot(m.id).Some? {
        PlaceKeepsNonNegative(s, NextSlot(m.id).value, winner);
        PlaceShape(s, NextSlot(m.id).value, winner);
      }
      if !(p.out.Err? || ThirdSlot(m.id).None? || loser.None?) {
        PlaceKeepsNonNegative(p.state, ThirdSlot(m.id).value, loser);
      }
    }
  }

  lemma ResolveKeepsNonNegative(s: TournamentState, i: nat)
    requires ScoresNonNegative(s) && i < |s.bracket|
    ensures ScoresNonNegative(ResolveStep(s, i).state)
  {
    ResolveSideKeepsNonNegative(s, i, A);
    var a := ResolveSideStep(s, i, A);
    if a.out.Ok? {
      ResolveSideKeepsNonNegative(a.state, i, B);
    }
  }

  lemma ResolveSideKeepsNonNegative(s: TournamentState, i: nat, side: Side)
    requires ScoresNonNegative(s) && i < |s.bracket|
    ensures ScoresNonNegative(ResolveSideStep(s, i, side).state)
  {
    var m := s.bracket[i];
    var source := if side == A then m.sourceA else m.sourceB;
    if SlotTeam(m, side).None? && Truthy(source) && MatchIndex(s.bracket, source.value).Some? {
      var src := s.bracket[MatchIndex(s.bracket, source.value).value];
      var t := if Truthy(src.winnerId) && m.id != "third" then LookupTeam(s.leaderboard, src.winnerId.value)
               else if Truthy(src.loserId) then LookupTeam(s.leaderboard, src.loserId.value) else None;
      if (Truthy(src.winnerId) && m.id != "third") || (Truthy(src.loserId) && m.id == "third") {
        assert ResolveSideStep(s, i, side).state == WithMatch(s, i, SetSlot(m, side, t));
        if Truthy(src.winnerId) && m.id != "third" {
          LookupNonNegative(s.leaderboard, src.winnerId.value);
        } else {
          LookupNonNegative(s.leaderboard, src.loserId.value);
        }
        SetSlotKeepsNonNegative(s, i, side, t);
      }
    }
  }

  /** Filling a slot with a team whose score is not negative keeps every score non-negative. */
  lemma SetSlotKeepsNonNegative(s: TournamentState, i: nat, side: Side, t: Option<Team>)
    requires ScoresNonNegative(s) && i < |s.bracket| && SlotNonNegative(t)
    ensures ScoresNonNegative(WithMatch(s, i, SetSlot(s.bracket[i], side, t)))
  {
  }

  lemma EndMatchKeepsNonNegative(s: TournamentState, i: nat, side: Side)
    requires ScoresNonNegative(s) && i < |s.bracket|
    ensures ScoresNonNegative(EndMatchStep(s, i, side).state)
  {
    var m := s.bracket[i];
    var w := SlotTeam(m, side);
    var s2 := MarkWinner(s, i, side);
    MarkWinnerShape(s, i, side);
    assert ScoresNonNegative(s2);
    if w.Some? {
      UpdateKeepsNonNegative(s2, w.value.id, WinBonus(s2.settings));
    }
    var u := AwardStep(s2, w);
    if u.out.Ok? {
      EndMatchTailKeepsNonNegative(u.state, i, SlotTeam(m, Other(side)));
    }
  }

  /** Recording the loser, advancing and clearing the current match keep scores non-negative. */
  lemma EndMatchTailKeepsNonNegative(t: TournamentState, i: nat, loser: Option<Team>)
    requires ScoresNonNegative(t) && i < |t.bracket|
    ensures var a := AdvanceStep(MarkLoser(t, i, loser), i);
            ScoresNonNegative(if a.out.Err? then a.state else ClearCurrent(a.state, i))
  {
    var s4 := MarkLoser(t, i, loser);
    assert ScoresNonNegative(s4);
    AdvanceKeepsNonNegative(s4, i);
  }

  lemma DrawKeepsNonNegative(s: TournamentState, c: Content, i: nat, theme: Theme, k: nat)
    requires ScoresNonNegative(s) && i < |s.bracket|
    ensures ScoresNonNegative(DrawStep(s, c, i, theme, k).state)
  {
  }

  lemma ConcludeKeepsNonNegative(s: TournamentState, c: Content, i: nat, tk: nat, ck: nat)
    requires ScoresNonNegative(s) && i < |s.bracket|
    ensures ScoresNonNegative(ConcludeRound(s, c, i, tk, ck).state)
  {
    match CheckWinner(s.bracket[i].score)
    case Some(side) => EndMatchKeepsNonNegative(s, i, side);
    case None =>
      var m := s.bracket[i];
      var theme := PickTheme(m.disabledThemes, m.activeTheme, tk);
      DrawKeepsNonNegative(WithMatch(s, i, m.(activeTheme := Some(theme))), c, i, theme, ck);
  }

  lemma {:induction false} ApplyDeltasKeepsNonNegative(s: TournamentState, deltas: seq<(string, int)>)
    requires ScoresNonNegative(s)
    ensures ScoresNonNegative(ApplyDeltas(s, deltas).state)
    decreases |deltas|
  {
    if |deltas| > 0 {
      UpdateKeepsNonNegative(s, deltas[0].0, deltas[0].1);
      var u := UpdateScoreStep(s, deltas[0].0, deltas[0].1);
      if u.out.Ok? {
        ApplyDeltasKeepsNonNegative(u.state, deltas[1..]);
      }
    }
  }

  /** A new roster carries old leaderboard scores or 0, so nothing goes negative. */
  lemma SetTeamsKeepsNonNegative(s: TournamentState, teams: seq<Team>)
    requires ScoresNonNegative(s)
    ensures ScoresNonNegative(SetTeamsStep(s, teams).state)
  {
    if |teams| >= 8 {
      var roster := Rescore(teams, s.leaderboard);
      assert TeamsNonNegative(roster);
      forall j | 0 <= j < |s.bracket|
        ensures SlotNonNegative(RebindMatch(s.bracket[j], roster).teamA)
        ensures SlotNonNegative(RebindMatch(s.bracket[j], roster).teamB)
      {
        if s.bracket[j].teamA.Some? {
          LookupNonNegative(roster, s.bracket[j].teamA.value.id);
        }
        if s.bracket[j].teamB.Some? {
          LookupNonNegative(roster, s.bracket[j].teamB.value.id);
        }
      }
    }
  }

  /** A reset seeds the given teams, or the default roster at 0. */
  lemma ResetKeepsNonNegative(s: TournamentState, defaults: seq<Team>, teams: Option<seq<Team>>,
                              settings: Option<Settings>)
    requires ScoresNonNegative(s)
    requires teams.Some? ==> TeamsNonNegative(teams.value)
    ensures ScoresNonNegative(ResetStep(s, defaults, teams, settings).state)
  {
    var newSettings := if settings.Some? then settings.value else s.settings;
    var newTeams := if teams.Some? && |teams.value| > 0 then teams.value else FreshTeams(defaults);
    assert TeamsNonNegative(newTeams);
    if |newTeams| >= 8 {
      SeededNonNegative(newTeams[..8]);
    }
  }

  /** The seeded bracket holds only the seeded teams, so their scores are all it shows. */
  lemma SeededNonNegative(seeded: seq<Team>)
    requires |seeded| == 8 && TeamsNonNegative(seeded)
    ensures var b := SeededBracket(seeded);
            forall j :: 0 <= j < |b| ==> SlotNonNegative(b[j].teamA) && SlotNonNegative(b[j].teamB)
  {
    var b := SeededBracket(seeded);
    forall j | 0 <= j < |b|
      ensures SlotNonNegative(b[j].teamA) && SlotNonNegative(b[j].teamB)
    {
      if j < 4 {
        assert 2 * j + 1 < 8;
      }
    }
  }

  lemma StartMatchKeepsNonNegative(s: TournamentState, c: Content, id: string, tk: nat, ck: nat)
    requires ScoresNonNegative(s)
    ensures ScoresNonNegative(StartMatchStep(s, c, id, tk, ck).state)
  {
    match MatchIndex(s.bracket, id)
    case None =>
    case Some(i) =>
      ResolveKeepsNonNegative(s, i);
      var rs := ResolveStep(s, i);
      if rs.out.Ok? {
        var s1 := rs.state;
        var s2 := WithMatch(s1, i, s1.bracket[i].(status := InProgress)).(currentMatchId := Some(s1.bracket[i].id));
        var theme := PickTheme(s2.bracket[i].disabledThemes, None, tk);
        DrawKeepsNonNegative(WithMatch(s2, i, s2.bracket[i].(activeTheme := Some(theme))), c, i, theme, ck);
      }
  }

  lemma SetThemeKeepsNonNegative(s: TournamentState, c: Content, id: string, theme: Option<Theme>,
                                 disabled: Option<seq<Theme>>, tk: nat, ck: nat)
    requires ScoresNonNegative(s)
    ensures ScoresNonNegative(SetThemeStep(s, c, id, theme, disabled, tk, ck).state)
  {
    match MatchIndex(s.bracket, id)
    case None =>
    case Some(i) =>
      var s1 := if disabled.Some? && |disabled.value| > 0
                then WithMatch(s, i, s.bracket[i].(disabledThemes := disabled.value)) else s;
      var m := s1.bracket[i];
      var chosen := if theme.Some? then theme.value else PickTheme(m.disabledThemes, m.activeTheme, tk);
      DrawKeepsNonNegative(s1, c, i, chosen, ck);
  }

  lemma SubmitChallengeKeepsNonNegative(s: TournamentState, c: Content, id: string, side: string,
                                        result: string, tk: nat, ck: nat)
    requires ScoresNonNegative(s)
    ensures ScoresNonNegative(SubmitChallengeStep(s, c, id, side, result, tk, ck).state)
  {
    match MatchIndex(s.bracket, id)
    case None =>
    case Some(i) =>
      if s.bracket[i].status == InProgress && ParseSide(side).Some? {
        var m := s.bracket[i];
        var sc := ScoreChallenge(m.score, ParseSide(side).value, result, PerCorrect(s.settings));
        ConcludeKeepsNonNegative(WithMatch(s, i, m.(score := sc)), c, i, tk, ck);
      }
  }

  lemma SubmitRoundKeepsNonNegative(s: TournamentState, c: Content, id: string, resultA: string,
                                    resultB: string, tk: nat, ck: nat)
    requires ScoresNonNegative(s)
    ensures ScoresNonNegative(SubmitRoundStep(s, c, id, resultA, resultB, tk, ck).state)
  {
    match MatchIndex(s.bracket, id)
    case None =>
    case Some(i) =>
      if s.bracket[i].status == InProgress {
        var m := s.bracket[i];
        var sc := ScoreRound(m.score, resultA, resultB, PerCorrect(s.settings));
        ConcludeKeepsNonNegative(WithMatch(s, i, m.(score := sc)), c, i, tk, ck);
      }
  }

  lemma NextChallengeKeepsNonNegative(s: TournamentState, c: Content, id: string, tk: nat, ck: nat)
    requires ScoresNonNegative(s)
    ensures ScoresNonNegative(NextChallengeStep(s, c, id, tk, ck).state)
  {
    match MatchIndex(s.bracket, id)
    case None =>
    case Some(i) =>
      var m := s.bracket[i];
      var theme := PickTheme(m.disabledThemes, m.activeTheme, tk);
      DrawKeepsNonNegative(WithMatch(s, i, m.(activeTheme := Some(theme))), c, i, theme, ck);
  }

  lemma OverrideScoreKeepsNonNegative(s: TournamentState, id: string, scoreA: Option<int>,
                                      scoreB: Option<int>, deltas: seq<(string, int)>)
    requires ScoresNonNegative(s)
    ensures ScoresNonNegative(OverrideScoreStep(s, id, scoreA, scoreB, deltas).state)
  {
    match MatchIndex(s.bracket, id)
    case None =>
    case Some(i) =>
      var m := s.bracket[i];
      var m1 := if scoreA.Some? then m.(score := m.score.(teamA := scoreA.value)) else m;
      var m2 := if scoreB.Some? then m1.(score := m1.score.(teamB := scoreB.value)) else m1;
      ApplyDeltasKeepsNonNegative(WithMatch(s, i, m2), deltas);
  }

  lemma AdvanceManualKeepsNonNegative(s: TournamentState, id: string, winnerId: string)
    requires ScoresNonNegative(s)
    ensures ScoresNonNegative(AdvanceManualStep(s, id, winnerId).state)
  {
    match MatchIndex(s.bracket, id)
    case None =>
    case Some(i) =>
      var m := s.bracket[i];
      if m.teamA.Some? && m.teamB.Some? {
        var loserId := if m.teamA.value.id == winnerId then m.teamB.value.id else m.teamA.value.id;
        var s1 := WithMatch(s, i, m.(winnerId := Some(winnerId), loserId := Some(loserId), status := Completed));
        assert ScoresNonNegative(s1);
        UpdateKeepsNonNegative(s1, winnerId, WinBonus(s1.settings));
        var u := UpdateScoreStep(s1, winnerId, WinBonus(s1.settings));
        var a := if u.out.Err? then u.state else AdvanceStep(u.state, i).state;
        assert AdvanceManualStep(s, id, winnerId).state == a;
        if u.out.Ok? {
          AdvanceKeepsNonNegative(u.state, i);
        }
      }
  }

  /** Every command keeps every team score at 0 or above. */
  lemma AfterKeepsNonNegative(s: TournamentState, c: Content, defaults: seq<Team>, cmd: Command)
    requires ScoresNonNegative(s) && ResetInputsNonNegative(cmd)
    ensures ScoresNonNegative(After(s, c, defaults, cmd))
  {
    if cmd.ResetCmd? || cmd.SetTeamsCmd? || cmd.StartMatchCmd? || cmd.SetThemeCmd? || cmd.SubmitChallengeCmd? {
      EarlyCommandsKeepNonNegative(s, c, defaults, cmd);
    } else {
      LaterCommandsKeepNonNegative(s, c, defaults, cmd);
    }
  }

  lemma EarlyCommandsKeepNonNegative(s: TournamentState, c: Content, defaults: seq<Team>, cmd: Command)
    requires ScoresNonNegative(s) && ResetInputsNonNegative(cmd)
    requires cmd.ResetCmd? || cmd.SetTeamsCmd? || cmd.StartMatchCmd? || cmd.SetThemeCmd? || cmd.SubmitChallengeCmd?
    ensures ScoresNonNegative(After(s, c, defaults, cmd))
  {
    match cmd
    case ResetCmd(teams, settings) => ResetKeepsNonNegative(s, defaults, teams, settings);
    case SetTeamsCmd(roster) => SetTeamsKeepsNonNegative(s, roster);
    case StartMatchCmd(id, tk, ck) => StartMatchKeepsNonNegative(s, c, id, tk, ck);
    case SetThemeCmd(id, theme, disabled, tk, ck) => SetThemeKeepsNonNegative(s, c, id, theme, disabled, tk, ck);
    case SubmitChallengeCmd(id, side, result, tk, ck) =>
      SubmitChallengeKeepsNonNegative(s, c, id, side, result, tk, ck);
  }

  lemma LaterCommandsKeepNonNegative(s: TournamentState, c: Content, defaults: seq<Team>, cmd: Command)
    requires ScoresNonNegative(s)
    requires !(cmd.ResetCmd? || cmd.SetTeamsCmd? || cmd.StartMatchCmd? || cmd.SetThemeCmd? || cmd.SubmitChallengeCmd?)
    ensures ScoresNonNegative(After(s, c, defaults, cmd))
  {
    match cmd
    case SubmitRoundCmd(id, ra, rb, tk, ck) => SubmitRoundKeepsNonNegative(s, c, id, ra, rb, tk, ck);
    case NextChallengeCmd(id, tk, ck) => NextChallengeKeepsNonNegative(s, c, id, tk, ck);
    case OverrideScoreCmd(id, a, b, deltas) => OverrideScoreKeepsNonNegative(s, id, a, b, deltas);
    case AdvanceCmd(id, winnerId) => AdvanceManualKeepsNonNegative(s, id, winnerId);
    case ResetMatchCmd(id) => ResetMatchKeepsNonNegative(s, id);
    case ResetRoundCmd(id) => ResetRoundKeepsNonNegative(s, id);
  }

  lemma ResetMatchKeepsNonNegative(s: TournamentState, id: string)
    requires ScoresNonNegative(s)
    ensures ScoresNonNegative(ResetMatchStep(s, id).state)
  {
  }

  lemma ResetRoundKeepsNonNegative(s: TournamentState, id: string)
    requires ScoresNonNegative(s)
    ensures ScoresNonNegative(ResetRoundStep(s, id).state)
  {
  }

  // ------------------------------------------------------------- wiring

  /** Every command keeps the bracket wired as seeded. */
  lemma AfterKeepsWiring(s: TournamentState, c: Content, defaults: seq<Team>, cmd: Command)
    requires Wired(s.bracket)
    ensures Wired(After(s, c, defaults, cmd).bracket)
  {
    var r := After(s, c, defaults, cmd);
    if cmd.ResetCmd? {
      var newSettings := if cmd.settings.Some? then cmd.settings.value else s.settings;
      var newTeams := if cmd.teams.Some? && |cmd.teams.value| > 0 then cmd.teams.value else FreshTeams(defaults);
      if Bootstrap(newTeams, newSettings).Err? {
        assert r == s;
      }
    } else {
      assert SameWiring(s.bracket, r.bracket);
      WiredTransfer(s.bracket, r.bracket);
    }
  }

  // ------------------------------------------------------------- reachable

  /** What every snapshot reachable from a fresh engine satisfies. */
  predicate Invariant(s: TournamentState)
  {
    Wired(s.bracket) && ScoresNonNegative(s)
  }

  /** The engine's first snapshot, seeded from the default roster, satisfies the invariant. */
  lemma InitialInvariant(teamIds: seq<string>)
    requires |teamIds| == 8
    ensures Bootstrap(DefaultTeams(teamIds), DefaultSettings).Ok?
    ensures Invariant(Bootstrap(DefaultTeams(teamIds), DefaultSettings).value)
  {
    var t := DefaultTeams(teamIds);
    SeededNonNegative(t[..8]);
  }

  /**
   * Any sequence of commands keeps the invariant, as long as every reset is
   * given teams without negative scores.
   */
  lemma {:induction false} RunKeepsInvariant(s: TournamentState, c: Content, defaults: seq<Team>,
                                             cmds: seq<Command>)
    requires Invariant(s)
    requires forall n :: 0 <= n < |cmds| ==> ResetInputsNonNegative(cmds[n])
    ensures Invariant(Run(s, c, defaults, cmds))
    decreases |cmds|
  {
    if |cmds| > 0 {
      AfterKeepsWiring(s, c, defaults, cmds[0]);
      AfterKeepsNonNegative(s, c, defaults, cmds[0]);
      assert forall n :: 0 <= n < |cmds[1..]| ==> cmds[1..][n] == cmds[n + 1];
      RunKeepsInvariant(After(s, c, defaults, cmds[0]), c, defaults, cmds[1..]);
    }
  }
}
