/**
 * The engine itself (backend/app/state.py, class `GameState`): one object that
 * owns the tournament snapshot and the challenge content and changes the
 * snapshot in place. Every method is proved to leave exactly the snapshot, and
 * return exactly the result, of its reference step in module `Steps`.
 */
module Engine {
  import opened Base
  import opened Models
  import opened Choice
  import opened Bracket
  import opened Steps

  /** A found position, or the "not found" error for that id. */
  function Found(o: Option<nat>, matchId: string): Result<nat, Fault>
  {
    match o
    case Some(i) => Ok(i)
    case None => Err(MatchNotFound(matchId))
  }

  class GameState {
    /** The tournament snapshot, `self.state`. */
    var state: TournamentState
    /** The challenge lists by theme, `self.content`. */
    const content: Content
    /** The default roster, with its generated ids. */
    const defaultTeams: seq<Team>

    /**
     * A new engine with no saved state: the default roster seeded into a
     * fresh bracket with the default settings.
     */
    constructor (content: Content, teamIds: seq<string>)
      requires |teamIds| == 8
      ensures this.content == content && defaultTeams == DefaultTeams(teamIds)
      ensures Bootstrap(defaultTeams, DefaultSettings) == Ok(state)
      ensures Wired(state.bracket)
    {
      var seeded := Bootstrap(DefaultTeams(teamIds), DefaultSettings);
      this.content := content;
      defaultTeams := DefaultTeams(teamIds);
      state := seeded.value;
    }

    /** `_find_match`: the position of the first match with this id. */
    method FindMatch(matchId: string) returns (r: Result<nat, Fault>)
      ensures r.Ok? ==> r.value < |state.bracket| && state.bracket[r.value].id == matchId
                        && forall j :: 0 <= j < r.value ==> state.bracket[j].id != matchId
      ensures r.Err? ==> r.error == MatchNotFound(matchId)
                         && forall j :: 0 <= j < |state.bracket| ==> state.bracket[j].id != matchId
      ensures r == Found(MatchIndex(state.bracket, matchId), matchId)
    {
      var j := 0;
      while j < |state.bracket|
        invariant 0 <= j <= |state.bracket|
        invariant forall jj :: 0 <= jj < j ==> state.bracket[jj].id != matchId
      {
        if state.bracket[j].id == matchId {
          return Ok(j);
        }
        j := j + 1;
      }
      return Err(MatchNotFound(matchId));
    }

    /** `_find_team`: the position of the first leaderboard team with this id. */
    method FindTeam(teamId: string) returns (r: Option<nat>)
      ensures r.Some? ==> r.value < |state.leaderboard| && state.leaderboard[r.value].id == teamId
                          && forall k :: 0 <= k < r.value ==> state.leaderboard[k].id != teamId
      ensures r.None? ==> forall k :: 0 <= k < |state.leaderboard| ==> state.leaderboard[k].id != teamId
      ensures r == TeamIndex(state.leaderboard, teamId)
    {
      var k := 0;
      while k < |state.leaderboard|
        invariant 0 <= k <= |state.leaderboard|
        invariant forall kk :: 0 <= kk < k ==> state.leaderboard[kk].id != teamId
      {
        if state.leaderboard[k].id == teamId {
          return Some(k);
        }
        k := k + 1;
      }
      return None;
    }

    /** `_update_leaderboard_score`. */
    method UpdateLeaderboardScore(teamId: string, delta: int) returns (r: Result<(), Fault>)
      modifies this
      ensures Step(state, r) == UpdateScoreStep(old(state), teamId, delta)
    {
      var k := FindTeam(teamId);
      var score := 0;
      if k.Some? {
        var team := state.leaderboard[k.value];
        score := Clamp(team.score + delta);
        state := state.(leaderboard := state.leaderboard[k.value := team.(score := score)]);
      }
      ghost var s1 := state;
      var j := 0;
      while j < |state.bracket|
        invariant 0 <= j <= |state.bracket| == |s1.bracket|
        invariant state == s1.(bracket := state.bracket)
        invariant forall jj :: 0 <= jj < j ==> state.bracket[jj] == SyncMatch(s1.bracket[jj], teamId, score)
        invariant forall jj :: j <= jj < |s1.bracket| ==> state.bracket[jj] == s1.bracket[jj]
        invariant k.None? ==> state == old(state)
        invariant k.None? ==> forall jj :: 0 <= jj < j ==> !MatchHolds(s1.bracket[jj], teamId)
      {
        var m := state.bracket[j];
        if SlotHolds(m.teamA, teamId) {
          if k.None? {
            return Err(NoLeaderboardTeam(teamId));
          }
          m := m.(teamA := Some(m.teamA.value.(score := score)));
        }
        if SlotHolds(m.teamB, teamId) {
          if k.None? {
            return Err(NoLeaderboardTeam(teamId));
          }
          m := m.(teamB := Some(m.teamB.value.(score := score)));
        }
        state := state.(bracket := state.bracket[j := m]);
        j := j + 1;
      }
      assert k.Some? ==> state.bracket == SyncSlots(s1.bracket, teamId, score);
      r := Ok(());
    }

    /** Puts a team (or None) into one slot of the first match with the target id. */
    method Place(target: Slot, t: Option<Team>) returns (r: Result<(), Fault>)
      modifies this
      ensures Step(state, r) == PlaceStep(old(state), target, t)
    {
      var found := FindMatch(target.matchId);
      if found.Err? {
        return Err(found.error);
      }
      var j := found.value;
      state := state.(bracket := state.bracket[j := SetSlot(state.bracket[j], target.side, t)]);
      r := Ok(());
    }

    /** `_advance`. */
    method Advance(i: nat) returns (r: Result<(), Fault>)
      requires i < |state.bracket|
      modifies this
      ensures Step(state, r) == AdvanceStep(old(state), i)
    {
      var m := state.bracket[i];
      if !Truthy(m.winnerId) || !Truthy(m.loserId) {
        return Ok(());
      }
      var wk := FindTeam(m.winnerId.value);
      var lk := FindTeam(m.loserId.value);
      var winner := if wk.Some? then Some(state.leaderboard[wk.value]) else None;
      var loser := if lk.Some? then Some(state.leaderboard[lk.value]) else None;
      assert winner == LookupTeam(state.leaderboard, m.winnerId.value);
      assert loser == LookupTeam(state.leaderboard, m.loserId.value);
      ghost var s0 := state;
      r := Ok(());
      var next := NextSlot(m.id);
      if next.Some? {
        r := Place(next.value, winner);
        if r.Err? {
          return;
        }
      }
      ghost var p := Step(state, r);
      assert p == if next.Some? then PlaceStep(s0, next.value, winner) else Step(s0, Ok(()));
      var third := ThirdSlot(m.id);
      if third.Some? && loser.Some? {
        r := Place(third.value, loser);
      }
    }

    /** One half of `_resolve_sources`. */
    method ResolveSide(i: nat, side: Side) returns (r: Result<(), Fault>)
      requires i < |state.bracket|
      modifies this
      ensures Step(state, r) == ResolveSideStep(old(state), i, side)
    {
      var m := state.bracket[i];
      var source := if side == A then m.sourceA else m.sourceB;
      r := Ok(());
      if SlotTeam(m, side).None? && Truthy(source) {
        var found := FindMatch(source.value);
        if found.Err? {
          return Err(found.error);
        }
        var src := state.bracket[found.value];
        if Truthy(src.winnerId) && m.id != "third" {
          var k := FindTeam(src.winnerId.value);
          var t := if k.Some? then Some(state.leaderboard[k.value]) else None;
          state := state.(bracket := state.bracket[i := SetSlot(m, side, t)]);
        } else if Truthy(src.loserId) && m.id == "third" {
          var k := FindTeam(src.loserId.value);
          var t := if k.Some? then Some(state.leaderboard[k.value]) else None;
          state := state.(bracket := state.bracket[i := SetSlot(m, side, t)]);
        }
      }
    }

    /** `_resolve_sources`: fills empty slots from their source matches. */
    method ResolveSources(i: nat) returns (r: Result<(), Fault>)
      requires i < |state.bracket|
      modifies this
      ensures Step(state, r) == ResolveStep(old(state), i)
    {
      r := ResolveSide(i, A);
      if r.Err? {
        return;
      }
      r := ResolveSide(i, B);
    }

    /** `_end_match`. */
    method EndMatch(i: nat, side: Side) returns (r: Result<(), Fault>)
      requires i < |state.bracket|
      modifies this
      ensures Step(state, r) == EndMatchStep(old(state), i, side)
    {
      var m := state.bracket[i];
      var winner := SlotTeam(m, side);
      var loser := SlotTeam(m, Other(side));
      state := state.(bracket := state.bracket[i := m.(status := Completed)]);
      if winner.Some? {
        state := state.(bracket := state.bracket[i := state.bracket[i].(winnerId := Some(winner.value.id))]);
        r := UpdateLeaderboardScore(winner.value.id, WinBonus(state.settings));
        if r.Err? {
          return;
        }
      }
      if loser.Some? {
        state := state.(bracket := state.bracket[i := state.bracket[i].(loserId := Some(loser.value.id))]);
      }
      r := Advance(i);
      if r.Err? {
        return;
      }
      FinishMatch(i);
      r := Ok(());
    }

    /** The last two assignments of `_end_match`: no current match or challenge. */
    method FinishMatch(i: nat)
      requires i < |state.bracket|
      modifies this
      ensures state == ClearCurrent(old(state), i)
    {
      state := state.(currentMatchId := None);
      state := state.(bracket := state.bracket[i := state.bracket[i].(currentChallenge := None)]);
    }

    /** `_draw_challenge`. */
    method DrawChallenge(i: nat, theme: Theme, k: nat) returns (r: Result<Challenge, Fault>)
      requires i < |state.bracket|
      modifies this
      ensures Step(state, r) == DrawStep(old(state), content, i, theme, k)
    {
      var pool := content.Pool(theme);
      var available := Unused(pool, state.globalUsedChallengeIds);
      var selection := if |available| > 0 then available else pool;
      if |selection| == 0 {
        return Err(NoChallenges(theme));
      }
      var challenge := Choose(selection, k);
      var m := state.bracket[i];
      state := state.(bracket := state.bracket[i := m.(usedChallengeIds := m.usedChallengeIds + [challenge.id])]);
      state := state.(globalUsedChallengeIds := state.globalUsedChallengeIds + [challenge.id]);
      m := state.bracket[i];
      state := state.(bracket := state.bracket[i := m.(currentChallenge := Some(challenge), activeTheme := Some(theme))]);
      r := Ok(challenge);
    }

    /** A fresh theme other than the active one, then a challenge of it. */
    method Redraw(i: nat, tk: nat, ck: nat) returns (r: Result<Challenge, Fault>)
      requires i < |state.bracket|
      modifies this
      ensures Step(state, r) == RedrawStep(old(state), content, i, tk, ck)
    {
      var m := state.bracket[i];
      var theme := PickTheme(m.disabledThemes, m.activeTheme, tk);
      state := state.(bracket := state.bracket[i := m.(activeTheme := Some(theme))]);
      r := DrawChallenge(i, theme, ck);
    }

    /** The end of a scored round: finish the match, or draw the next challenge. */
    method ConcludeRound(i: nat, tk: nat, ck: nat) returns (r: Result<Match, Fault>)
      requires i < |state.bracket|
      modifies this
      ensures Step(state, r) == Steps.ConcludeRound(old(state), content, i, tk, ck)
    {
      var winnerSide := CheckWinner(state.bracket[i].score);
      if winnerSide.Some? {
        var e := EndMatch(i, winnerSide.value);
        if e.Err? {
          return Err(e.error);
        }
      } else {
        var d := Redraw(i, tk, ck);
        if d.Err? {
          return Err(d.error);
        }
      }
      r := Ok(state.bracket[i]);
    }

    /** `reset`. */
    method Reset(teams: Option<seq<Team>>, settings: Option<Settings>) returns (r: Result<TournamentState, Fault>)
      modifies this
      ensures Step(state, r) == ResetStep(old(state), defaultTeams, teams, settings)
    {
      var newSettings := if settings.Some? then settings.value else state.settings;
      var newTeams := if teams.Some? && |teams.value| > 0 then teams.value else FreshTeams(defaultTeams);
      var seeded := Bootstrap(newTeams, newSettings);
      if seeded.Err? {
        return Err(seeded.error);
      }
      state := seeded.value;
      r := Ok(state);
    }

    /** `reset_round`. */
    method ResetRound(matchId: string) returns (r: Result<Match, Fault>)
      modifies this
      ensures Step(state, r) == ResetRoundStep(old(state), matchId)
    {
      var found := FindMatch(matchId);
      if found.Err? {
        return Err(found.error);
      }
      var i := found.value;
      var m := state.bracket[i];
      if |m.usedChallengeIds| > 0 {
        m := m.(usedChallengeIds := m.usedChallengeIds[..|m.usedChallengeIds| - 1]);
      }
      m := m.(currentChallenge := None);
      state := state.(bracket := state.bracket[i := m]);
      r := Ok(m);
    }

    /** The new roster of `set_teams`, each team given its old leaderboard score. */
    method RescoreRoster(teams: seq<Team>) returns (roster: seq<Team>)
      ensures |roster| == |teams|
      ensures forall j :: 0 <= j < |teams| ==>
                roster[j].id == teams[j].id && roster[j].name == teams[j].name
                && roster[j].players == teams[j].players
                && roster[j].score == LastScore(state.leaderboard, teams[j].id)
      ensures roster == Rescore(teams, state.leaderboard)
    {
      roster := teams;
      var j := 0;
      while j < |roster|
        invariant 0 <= j <= |roster| == |teams|
        invariant forall jj :: 0 <= jj < j ==> roster[jj] == teams[jj].(score := LastScore(state.leaderboard, teams[jj].id))
        invariant forall jj :: j <= jj < |teams| ==> roster[jj] == teams[jj]
      {
        roster := roster[j := roster[j].(score := LastScore(state.leaderboard, roster[j].id))];
        j := j + 1;
      }
    }

    /** `set_teams`. */
    method SetTeams(teams: seq<Team>) returns (r: Result<TournamentState, Fault>)
      modifies this
      ensures Step(state, r) == SetTeamsStep(old(state), teams)
    {
      if |teams| < 8 {
        return Err(NotEnoughTeams);
      }
      var roster := RescoreRoster(teams);
      var b := state.bracket;
      var j := 0;
      while j < |b|
        invariant 0 <= j <= |b| == |state.bracket|
        invariant forall jj :: 0 <= jj < j ==> b[jj] == RebindMatch(state.bracket[jj], roster)
        invariant forall jj :: j <= jj < |b| ==> b[jj] == state.bracket[jj]
      {
        var m := b[j];
        if m.teamA.Some? {
          var repl := LookupTeam(roster, m.teamA.value.id);
          if repl.Some? {
            m := m.(teamA := repl);
          }
        }
        if m.teamB.Some? {
          var repl := LookupTeam(roster, m.teamB.value.id);
          if repl.Some? {
            m := m.(teamB := repl);
          }
        }
        assert m == RebindMatch(state.bracket[j], roster);
        b := b[j := m];
        j := j + 1;
      }
      assert b == Rebind(state.bracket, roster);
      state := state.(leaderboard := roster, bracket := b);
      r := Ok(state);
    }

    /** `start_match`. */
    method StartMatch(matchId: string, tk: nat, ck: nat) returns (r: Result<Match, Fault>)
      modifies this
      ensures Step(state, r) == StartMatchStep(old(state), content, matchId, tk, ck)
    {
      var found := FindMatch(matchId);
      if found.Err? {
        return Err(found.error);
      }
      var i := found.value;
      var resolved := ResolveSources(i);
      if resolved.Err? {
        return Err(resolved.error);
      }
      var m := state.bracket[i];
      state := state.(bracket := state.bracket[i := m.(status := InProgress)]);
      state := state.(currentMatchId := Some(m.id));
      var theme := PickTheme(state.bracket[i].disabledThemes, None, tk);
      state := state.(bracket := state.bracket[i := state.bracket[i].(activeTheme := Some(theme))]);
      var drawn := DrawChallenge(i, theme, ck);
      if drawn.Err? {
        return Err(drawn.error);
      }
      r := Ok(state.bracket[i]);
    }

    /** `set_theme`. */
    method SetTheme(matchId: string, theme: Option<Theme>, disabled: Option<seq<Theme>>, tk: nat, ck: nat)
      returns (r: Result<Challenge, Fault>)
      modifies this
      ensures Step(state, r) == SetThemeStep(old(state), content, matchId, theme, disabled, tk, ck)
    {
      var found := FindMatch(matchId);
      if found.Err? {
        return Err(found.error);
      }
      var i := found.value;
      if disabled.Some? && |disabled.value| > 0 {
        state := state.(bracket := state.bracket[i := state.bracket[i].(disabledThemes := disabled.value)]);
      }
      var m := state.bracket[i];
      var chosen := if theme.Some? then theme.value else PickTheme(m.disabledThemes, m.activeTheme, tk);
      r := DrawChallenge(i, chosen, ck);
    }

    /** `submit_challenge`. */
    method SubmitChallenge(matchId: string, side: string, result: string, tk: nat, ck: nat)
      returns (r: Result<Match, Fault>)
      modifies this
      ensures Step(state, r) == SubmitChallengeStep(old(state), content, matchId, side, result, tk, ck)
    {
      var found := FindMatch(matchId);
      if found.Err? {
        return Err(found.error);
      }
      var i := found.value;
      if state.bracket[i].status != InProgress {
        return Err(NotInProgress);
      }
      var sd := ParseSide(side);
      if sd.None? {
        return Err(BadSide(side));
      }
      var m := state.bracket[i];
      var sc := ScoreChallenge(m.score, sd.value, result, PerCorrect(state.settings));
      state := state.(bracket := state.bracket[i := m.(score := sc)]);
      r := ConcludeRound(i, tk, ck);
    }

    /** `submit_round`. */
    method SubmitRound(matchId: string, resultA: string, resultB: string, tk: nat, ck: nat)
      returns (r: Result<Match, Fault>)
      modifies this
      ensures Step(state, r) == SubmitRoundStep(old(state), content, matchId, resultA, resultB, tk, ck)
    {
      var found := FindMatch(matchId);
      if found.Err? {
        return Err(found.error);
      }
      var i := found.value;
      if state.bracket[i].status != InProgress {
        return Err(NotInProgress);
      }
      var m := state.bracket[i];
      var sc := ScoreRound(m.score, resultA, resultB, PerCorrect(state.settings));
      state := state.(bracket := state.bracket[i := m.(score := sc)]);
      r := ConcludeRound(i, tk, ck);
    }

    /** `next_challenge`. */
    method NextChallenge(matchId: string, tk: nat, ck: nat) returns (r: Result<Match, Fault>)
      modifies this
      ensures Step(state, r) == NextChallengeStep(old(state), content, matchId, tk, ck)
    {
      var found := FindMatch(matchId);
      if found.Err? {
        return Err(found.error);
      }
      var i := found.value;
      if state.bracket[i].status != InProgress {
        return Err(NotInProgress);
      }
      var d := Redraw(i, tk, ck);
      if d.Err? {
        return Err(d.error);
      }
      r := Ok(state.bracket[i]);
    }

    /** The leaderboard-delta loop of `override_score`. */
    method ApplyLeaderboardDeltas(deltas: seq<(string, int)>) returns (r: Result<(), Fault>)
      modifies this
      ensures Step(state, r) == ApplyDeltas(old(state), deltas)
    {
      var d := 0;
      while d < |deltas|
        invariant 0 <= d <= |deltas|
        invariant ApplyDeltas(state, deltas[d..]) == ApplyDeltas(old(state), deltas)
      {
        assert deltas[d..][1..] == deltas[d + 1..];
        ghost var before := state;
        var u := UpdateLeaderboardScore(deltas[d].0, deltas[d].1);
        assert ApplyDeltas(before, deltas[d..])
               == if u.Err? then Step(state, u) else ApplyDeltas(state, deltas[d + 1..]);
        if u.Err? {
          return u;
        }
        d := d + 1;
      }
      r := Ok(());
    }

    /** `override_score`. */
    method OverrideScore(matchId: string, scoreA: Option<int>, scoreB: Option<int>, deltas: seq<(string, int)>)
      returns (r: Result<TournamentState, Fault>)
      modifies this
      ensures Step(state, r) == OverrideScoreStep(old(state), matchId, scoreA, scoreB, deltas)
    {
      var found := FindMatch(matchId);
      if found.Err? {
        return Err(found.error);
      }
      var i := found.value;
      var m := state.bracket[i];
      if scoreA.Some? {
        m := m.(score := m.score.(teamA := scoreA.value));
      }
      if scoreB.Some? {
        m := m.(score := m.score.(teamB := scoreB.value));
      }
      state := state.(bracket := state.bracket[i := m]);
      var u := ApplyLeaderboardDeltas(deltas);
      if u.Err? {
        return Err(u.error);
      }
      r := Ok(state);
    }

    /** `advance_manual`. */
    method AdvanceManual(matchId: string, winnerId: string) returns (r: Result<TournamentState, Fault>)
      modifies this
      ensures Step(state, r) == AdvanceManualStep(old(state), matchId, winnerId)
    {
      var found := FindMatch(matchId);
      if found.Err? {
        return Err(found.error);
      }
      var i := found.value;
      var m := state.bracket[i];
      if m.teamA.None? || m.teamB.None? {
        return Err(MissingTeams);
      }
      var loserId := if m.teamA.value.id == winnerId then m.teamB.value.id else m.teamA.value.id;
      state := state.(bracket := state.bracket[i := m.(winnerId := Some(winnerId), loserId := Some(loserId),
                                                          status := Completed)]);
      var u := UpdateLeaderboardScore(winnerId, WinBonus(state.settings));
      if u.Err? {
        return Err(u.error);
      }
      var a := Advance(i);
      if a.Err? {
        return Err(a.error);
      }
      r := Ok(state);
    }

    /** `reset_match`, the definition that takes effect. */
    method ResetMatch(matchId: string) returns (r: Result<Match, Fault>)
      modifies this
      ensures Step(state, r) == ResetMatchStep(old(state), matchId)
    {
      var found := FindMatch(matchId);
      if found.Err? {
        return Err(found.error);
      }
      var i := found.value;
      var m := state.bracket[i];
      m := m.(score := NewScore(m.score.bestOf));
      m := m.(status := Pending, currentChallenge := None, winnerId := None, loserId := None);
      state := state.(bracket := state.bracket[i := m]);
      r := Ok(m);
    }
  }
}
