/**
 * What the engine promises, proved about the reference steps of module
 * `Steps`: the bracket's wiring, where finished matches send their teams, how
 * rounds are scored and when a match is won, the leaderboard clamp, the
 * challenge draw, the resets, and two invariants that hold across every
 * sequence of commands.
 */
module Properties {
  import opened Base
  import opened Models
  import opened Choice
  import opened Bracket
  import opened Steps

  // ------------------------------------------------------- shared shapes

  /** The brackets differ at most in the teams sitting in the slots. */
  predicate SlotsOnlyDiffer(b1: seq<Match>, b2: seq<Match>)
  {
    |b1| == |b2| && forall j :: 0 <= j < |b1| ==> b2[j] == b1[j].(teamA := b2[j].teamA, teamB := b2[j].teamB)
  }

  /** Settings, current match and used challenges are the same. */
  predicate SameRest(s1: TournamentState, s2: TournamentState)
  {
    s1.settings == s2.settings && s1.currentMatchId == s2.currentMatchId
    && s1.globalUsedChallengeIds == s2.globalUsedChallengeIds
  }

  /** Every match keeps its tally. */
  predicate ScoresKept(b1: seq<Match>, b2: seq<Match>)
  {
    |b1| == |b2| && forall j :: 0 <= j < |b1| ==> b2[j].score == b1[j].score
  }

  // --------------------------------------------------- the seeded bracket

  /** In the seeded bracket each id names exactly its own position. */
  lemma WiredIndex(b: seq<Match>, j: nat)
    requires Named(b) && j < 8
    ensures MatchIndex(b, BracketIds[j]) == Some(j)
  {
    var r := MatchIndex(b, BracketIds[j]);
    assert MatchIds(b)[j] == b[j].id;
    assert MatchIds(b)[r.value] == b[r.value].id;
    if r.value != j {
      IdsDistinct(r.value, j);
    }
  }

  /** The eight match ids are pairwise different. */
  lemma IdsDistinct(x: nat, y: nat)
    requires x < y < 8
    ensures BracketIds[x] != BracketIds[y]
  {
    assert BracketIds[x][|BracketIds[x]| - 1] != BracketIds[y][|BracketIds[y]| - 1]
           || |BracketIds[x]| != |BracketIds[y]| || BracketIds[x][0] != BracketIds[y][0];
  }

  /** The match at position `j` of the seeded bracket has the `j`-th id. */
  lemma WiredId(b: seq<Match>, j: nat)
    requires Named(b) && j < 8
    ensures b[j].id == BracketIds[j]
  {
    assert MatchIds(b)[j] == b[j].id;
  }

  /**
   * Where each match sends its teams: group match `j` sends its winner to
   * semifinal `j / 2`, side A for even `j`; a semifinal sends its winner to
   * the final and its loser to the third-place match, sf1 on side A; the
   * final and the third-place match send nobody.
   */
  lemma NextAt(j: nat)
    requires j < 8
    ensures j < 6 ==> NextSlot(BracketIds[j]) == Some(Slot(BracketIds[4 + j / 2], if j % 2 == 0 then A else B))
    ensures j >= 6 ==> NextSlot(BracketIds[j]).None?
    ensures (j == 4 || j == 5) ==> ThirdSlot(BracketIds[j]) == Some(Slot(BracketIds[7], if j == 4 then A else B))
    ensures j != 4 && j != 5 ==> ThirdSlot(BracketIds[j]).None?
  {
  }

  /** Brackets wired the same way find every id at the same position. */
  lemma SameWiringIndex(b1: seq<Match>, b2: seq<Match>, id: string)
    requires SameWiring(b1, b2)
    ensures MatchIndex(b1, id) == MatchIndex(b2, id)
  {
    assert MatchIds(b1) == MatchIds(b2);
  }

  /** Keeping ids, labels and sources keeps the seeded wiring. */
  lemma WiredTransfer(b1: seq<Match>, b2: seq<Match>)
    requires Wired(b1) && SameWiring(b1, b2)
    ensures Wired(b2)
  {
    assert MatchIds(b2) == MatchIds(b1);
  }

  // -------------------------------------------------- leaderboard update

  /**
   * The team's score becomes `max(0, score + delta)`, so it is never negative,
   * and every slot holding the team shows that score; nothing else changes. A
   * team missing from the leaderboard changes nothing, and raises exactly when
   * some slot holds its id.
   */
  lemma UpdateScoreEffect(s: TournamentState, teamId: string, delta: int)
    ensures var r := UpdateScoreStep(s, teamId, delta);
            TeamIndex(s.leaderboard, teamId).None? ==>
              r.state == s && (r.out.Err? <==> BracketHolds(s.bracket, teamId))
    ensures var r := UpdateScoreStep(s, teamId, delta);
            var k := TeamIndex(s.leaderboard, teamId);
            k.Some? ==>
              var score := r.state.leaderboard[k.value].score;
              r.out.Ok? && score >= 0 && score == Clamp(s.leaderboard[k.value].score + delta)
              && r.state.leaderboard[k.value] == s.leaderboard[k.value].(score := score)
              && (forall k2 :: 0 <= k2 < |s.leaderboard| && k2 != k.value ==>
                    r.state.leaderboard[k2] == s.leaderboard[k2])
              && (forall j :: 0 <= j < |s.bracket| && SlotHolds(s.bracket[j].teamA, teamId) ==>
                    r.state.bracket[j].teamA == Some(s.bracket[j].teamA.value.(score := score)))
              && (forall j :: 0 <= j < |s.bracket| && SlotHolds(s.bracket[j].teamB, teamId) ==>
                    r.state.bracket[j].teamB == Some(s.bracket[j].teamB.value.(score := score)))
              && (forall j :: 0 <= j < |s.bracket| && !SlotHolds(s.bracket[j].teamA, teamId) ==>
                    r.state.bracket[j].teamA == s.bracket[j].teamA)
              && (forall j :: 0 <= j < |s.bracket| && !SlotHolds(s.bracket[j].teamB, teamId) ==>
                    r.state.bracket[j].teamB == s.bracket[j].teamB)
  {
  }

  /** A leaderboard update moves nothing but slot records and leaderboard scores. */
  lemma UpdateScoreShape(s: TournamentState, teamId: string, delta: int)
    ensures var r := UpdateScoreStep(s, teamId, delta);
            SlotsOnlyDiffer(s.bracket, r.state.bracket) && SameRest(s, r.state)
            && |r.state.leaderboard| == |s.leaderboard|
  {
  }

  // ------------------------------------------------------------ advancing

  /** Placing a team touches one slot of one match and nothing else. */
  lemma PlaceShape(s: TournamentState, target: Slot, t: Option<Team>)
    ensures var r := PlaceStep(s, target, t);
            SlotsOnlyDiffer(s.bracket, r.state.bracket) && SameRest(s, r.state)
            && r.state.leaderboard == s.leaderboard
  {
  }

  /** Advancing moves teams into slots and changes nothing else. */
  lemma AdvanceShape(s: TournamentState, i: nat)
    requires i < |s.bracket|
    ensures var r := AdvanceStep(s, i);
            SlotsOnlyDiffer(s.bracket, r.state.bracket) && SameRest(s, r.state)
            && r.state.leaderboard == s.leaderboard
  {
    var m := s.bracket[i];
    if Truthy(m.winnerId) && Truthy(m.loserId) {
      var winner := LookupTeam(s.leaderboard, m.winnerId.value);
      var loser := LookupTeam(s.leaderboard, m.loserId.value);
      var p := if NextSlot(m.id).Some? then PlaceStep(s, NextSlot(m.id).value, winner) else Step(s, Ok(()));
      if NextSlot(m.id).Some? {
        PlaceShape(s, NextSlot(m.id).value, winner);
      }
      if !(p.out.Err? || ThirdSlot(m.id).None? || loser.None?) {
        PlaceShape(p.state, ThirdSlot(m.id).value, loser);
      }
    }
  }

  /** Placing into a slot of a match found at position `j`. */
  lemma PlaceAt(s: TournamentState, target: Slot, t: Option<Team>, j: nat)
    requires MatchIndex(s.bracket, target.matchId) == Some(j)
    ensures PlaceStep(s, target, t) == Step(WithMatch(s, j, SetSlot(s.bracket[j], target.side, t)), Ok(()))
  {
  }

  /** Nothing moves until the match has both a winner and a loser id. */
  lemma AdvanceNeedsResult(s: TournamentState, i: nat)
    requires i < |s.bracket|
    requires !Truthy(s.bracket[i].winnerId) || !Truthy(s.bracket[i].loserId)
    ensures AdvanceStep(s, i) == Step(s, Ok(()))
  {
  }

  /**
   * A finished group match sends its winner (the leaderboard's record of it)
   * to the semifinal: qf1 and qf2 to sf1 slots A and B, qf3 and qf4 to sf2;
   * no other match changes.
   */
  lemma AdvanceGroupWinner(s: TournamentState, i: nat)
    requires Wired(s.bracket) && i < 4
    requires Truthy(s.bracket[i].winnerId) && Truthy(s.bracket[i].loserId)
    ensures var t := 4 + i / 2;
            var side := if i % 2 == 0 then A else B;
            AdvanceStep(s, i) == Step(WithMatch(s, t, SetSlot(s.bracket[t], side,
                                        LookupTeam(s.leaderboard, s.bracket[i].winnerId.value))), Ok(()))
  {
    WiredId(s.bracket, i);
    NextAt(i);
    WiredIndex(s.bracket, 4 + i / 2);
  }

  /**
   * A finished semifinal sends its winner to the final and its loser (when on
   * the leaderboard) to the third-place match: sf1 to slot A, sf2 to slot B;
   * no other match changes.
   */
  lemma AdvanceSemifinal(s: TournamentState, i: nat)
    requires Wired(s.bracket) && (i == 4 || i == 5)
    requires Truthy(s.bracket[i].winnerId) && Truthy(s.bracket[i].loserId)
    ensures var side := if i == 4 then A else B;
            var winner := LookupTeam(s.leaderboard, s.bracket[i].winnerId.value);
            var loser := LookupTeam(s.leaderboard, s.bracket[i].loserId.value);
            var s1 := WithMatch(s, 6, SetSlot(s.bracket[6], side, winner));
            AdvanceStep(s, i) == Step(if loser.Some? then WithMatch(s1, 7, SetSlot(s1.bracket[7], side, loser))
                                      else s1, Ok(()))
  {
    var side := if i == 4 then A else B;
    SemifinalTargets(s.bracket, i);
    AdvanceSendsOn(s, i, Slot("final", side), 6, Slot("third", side), 7);
  }

  /** Where the seeded bracket's semifinals send their teams, and where those matches sit. */
  lemma SemifinalTargets(b: seq<Match>, i: nat)
    requires Named(b) && (i == 4 || i == 5)
    ensures NextSlot(b[i].id) == Some(Slot("final", if i == 4 then A else B))
    ensures ThirdSlot(b[i].id) == Some(Slot("third", if i == 4 then A else B))
    ensures MatchIndex(b, "final") == Some(6) && MatchIndex(b, "third") == Some(7)
  {
    SemifinalIds(b, i);
    WiredIndex(b, 6);
    WiredIndex(b, 7);
  }

  /** Where the semifinals send their teams. */
  lemma SemifinalIds(b: seq<Match>, i: nat)
    requires Named(b) && (i == 4 || i == 5)
    ensures NextSlot(b[i].id) == Some(Slot("final", if i == 4 then A else B))
    ensures ThirdSlot(b[i].id) == Some(Slot("third", if i == 4 then A else B))
  {
    WiredId(b, i);
  }

  /**
   * Advancing a match whose winner and loser targets are found at `jw` and
   * `jl`: the winner's record goes to the first, the loser's (when found) to
   * the second.
   */
  lemma AdvanceSendsOn(s: TournamentState, i: nat, next: Slot, jw: nat, third: Slot, jl: nat)
    requires i < |s.bracket|
    requires Truthy(s.bracket[i].winnerId) && Truthy(s.bracket[i].loserId)
    requires NextSlot(s.bracket[i].id) == Some(next) && MatchIndex(s.bracket, next.matchId) == Some(jw)
    requires ThirdSlot(s.bracket[i].id) == Some(third) && MatchIndex(s.bracket, third.matchId) == Some(jl)
    ensures var m := s.bracket[i];
            var winner := LookupTeam(s.leaderboard, m.winnerId.value);
            var loser := LookupTeam(s.leaderboard, m.loserId.value);
            var s1 := WithMatch(s, jw, SetSlot(s.bracket[jw], next.side, winner));
            AdvanceStep(s, i) == Step(if loser.Some? then WithMatch(s1, jl, SetSlot(s1.bracket[jl], third.side, loser))
                                      else s1, Ok(()))
  {
    var m := s.bracket[i];
    var winner := LookupTeam(s.leaderboard, m.winnerId.value);
    var loser := LookupTeam(s.leaderboard, m.loserId.value);
    var s1 := WithMatch(s, jw, SetSlot(s.bracket[jw], next.side, winner));
    PlaceAt(s, next, winner, jw);
    assert SameWiring(s.bracket, s1.bracket);
    SameWiringIndex(s.bracket, s1.bracket, third.matchId);
    PlaceAt(s1, third, loser, jl);
  }

  /** The final and the third-place match send nobody anywhere. */
  lemma AdvanceLastRound(s: TournamentState, i: nat)
    requires Wired(s.bracket) && (i == 6 || i == 7)
    ensures AdvanceStep(s, i) == Step(s, Ok(()))
  {
    WiredId(s.bracket, i);
    NextAt(i);
  }

  /** In the seeded bracket advancing never raises: every target exists. */
  lemma AdvanceSucceedsWhenWired(s: TournamentState, i: nat)
    requires Wired(s.bracket) && i < 8
    ensures AdvanceStep(s, i).out.Ok?
  {
    var m := s.bracket[i];
    if Truthy(m.winnerId) && Truthy(m.loserId) {
      if i < 4 {
        AdvanceGroupWinner(s, i);
      } else if i < 6 {
        AdvanceSemifinal(s, i);
      } else {
        AdvanceLastRound(s, i);
      }
    }
  }

  // ------------------------------------------------------ resolving slots

  /** The positions of the two source matches of the later-round matches. */
  const SourcePositions: seq<(nat, nat)> := [(0, 1), (2, 3), (4, 5), (4, 5)]

  /** Resolving one side changes at most that slot of the match. */
  lemma ResolveSideShape(s: TournamentState, i: nat, side: Side)
    requires i < |s.bracket|
    ensures var r := ResolveSideStep(s, i, side);
            SameRest(s, r.state) && r.state.leaderboard == s.leaderboard
            && |r.state.bracket| == |s.bracket|
            && r.state.bracket[i] == SetSlot(s.bracket[i], side, SlotTeam(r.state.bracket[i], side))
            && forall j :: 0 <= j < |s.bracket| && j != i ==> r.state.bracket[j] == s.bracket[j]
  {
    var m := s.bracket[i];
    assert m == SetSlot(m, side, SlotTeam(m, side));
  }

  /**
   * What resolving puts into an empty slot of match `i` whose source match
   * sits at `j`: the leaderboard's record of the source's winner, or of its
   * loser for the third-place match, or nothing while that id is unset.
   */
  function Fed(s: TournamentState, i: nat, j: nat): Option<Team>
    requires i < |s.bracket| && j < |s.bracket|
  {
    var src := s.bracket[j];
    if Truthy(src.winnerId) && s.bracket[i].id != "third" then LookupTeam(s.leaderboard, src.winnerId.value)
    else if Truthy(src.loserId) && s.bracket[i].id == "third" then LookupTeam(s.leaderboard, src.loserId.value)
    else None
  }

  /** Resolving one side whose source match sits at `j`: an empty slot is fed, a filled one kept. */
  lemma ResolveSideFills(s: TournamentState, i: nat, side: Side, j: nat)
    requires i < |s.bracket|
    requires var source := if side == A then s.bracket[i].sourceA else s.bracket[i].sourceB;
             Truthy(source) && MatchIndex(s.bracket, source.value) == Some(j)
    ensures var r := ResolveSideStep(s, i, side);
            r.out.Ok?
            && SlotTeam(r.state.bracket[i], side)
               == if SlotTeam(s.bracket[i], side).Some? then SlotTeam(s.bracket[i], side) else Fed(s, i, j)
  {
  }

  /** Resolving both sides of a match whose sources sit at `pa` and `pb`. */
  lemma ResolveBothSides(s: TournamentState, i: nat, pa: nat, pb: nat)
    requires i < |s.bracket| && pa < |s.bracket| && pb < |s.bracket| && pb != i
    requires Truthy(s.bracket[i].sourceA) && MatchIndex(s.bracket, s.bracket[i].sourceA.value) == Some(pa)
    requires Truthy(s.bracket[i].sourceB) && MatchIndex(s.bracket, s.bracket[i].sourceB.value) == Some(pb)
    ensures var r := ResolveStep(s, i);
            var m := s.bracket[i];
            r.out.Ok?
            && r.state.bracket[i].teamA == (if m.teamA.Some? then m.teamA else Fed(s, i, pa))
            && r.state.bracket[i].teamB == (if m.teamB.Some? then m.teamB else Fed(s, i, pb))
  {
    var m := s.bracket[i];
    ResolveSideFills(s, i, A, pa);
    ResolveSideShape(s, i, A);
    var a := ResolveSideStep(s, i, A);
    var ma := a.state.bracket[i];
    assert ma.teamA == (if m.teamA.Some? then m.teamA else Fed(s, i, pa));
    assert ma.teamB == m.teamB && ma.id == m.id && ma.sourceB == m.sourceB;
    assert a.state.bracket[pb] == s.bracket[pb] && a.state.leaderboard == s.leaderboard;
    SameWiringIndex(s.bracket, a.state.bracket, m.sourceB.value);
    assert ResolveStep(s, i) == ResolveSideStep(a.state, i, B);
    ResolveSideFills(a.state, i, B, pb);
    ResolveSideShape(a.state, i, B);
    assert Fed(a.state, i, pb) == Fed(s, i, pb);
  }

  /** Resolving changes only the slots of the match being resolved. */
  lemma ResolveShape(s: TournamentState, i: nat)
    requires i < |s.bracket|
    ensures var r := ResolveStep(s, i);
            SameRest(s, r.state) && r.state.leaderboard == s.leaderboard
            && |r.state.bracket| == |s.bracket|
            && r.state.bracket[i] == s.bracket[i].(teamA := r.state.bracket[i].teamA,
                                                   teamB := r.state.bracket[i].teamB)
            && forall j :: 0 <= j < |s.bracket| && j != i ==> r.state.bracket[j] == s.bracket[j]
  {
    ResolveSideShape(s, i, A);
    var a := ResolveSideStep(s, i, A);
    if a.out.Ok? {
      ResolveSideShape(a.state, i, B);
    }
  }

  /** A group match has no sources: resolving it changes nothing. */
  lemma ResolveGroupMatch(s: TournamentState, i: nat)
    requires Wired(s.bracket) && i < 4
    ensures ResolveStep(s, i) == Step(s, Ok(()))
  {
  }

  /**
   * Resolving a semifinal or the final fills each empty slot with the
   * leaderboard's record of its source match's winner, and empty stays empty
   * while the source has no winner; a filled slot is kept.
   */
  lemma ResolveFromWinners(s: TournamentState, i: nat)
    requires Wired(s.bracket) && 4 <= i < 7
    ensures var r := ResolveStep(s, i);
            var (pa, pb) := SourcePositions[i - 4];
            var m := s.bracket[i];
            var n := r.state.bracket[i];
            r.out.Ok?
            && n.teamA == (if m.teamA.Some? then m.teamA
                           else if Truthy(s.bracket[pa].winnerId)
                           then LookupTeam(s.leaderboard, s.bracket[pa].winnerId.value) else None)
            && n.teamB == (if m.teamB.Some? then m.teamB
                           else if Truthy(s.bracket[pb].winnerId)
                           then LookupTeam(s.leaderboard, s.bracket[pb].winnerId.value) else None)
  {
    var (pa, pb) := SourcePositions[i - 4];
    WiredId(s.bracket, i);
    IdsDistinct(i, 7);
    WiredIndex(s.bracket, pa);
    WiredIndex(s.bracket, pb);
    ResolveBothSides(s, i, pa, pb);
  }

  /**
   * Resolving the third-place match fills its empty slots with the LOSERS of
   * the two semifinals: sf1's in slot A, sf2's in slot B.
   */
  lemma ResolveThirdPlace(s: TournamentState)
    requires Wired(s.bracket)
    ensures var r := ResolveStep(s, 7);
            var m := s.bracket[7];
            var n := r.state.bracket[7];
            r.out.Ok?
            && n.teamA == (if m.teamA.Some? then m.teamA
                           else if Truthy(s.bracket[4].loserId)
                           then LookupTeam(s.leaderboard, s.bracket[4].loserId.value) else None)
            && n.teamB == (if m.teamB.Some? then m.teamB
                           else if Truthy(s.bracket[5].loserId)
                           then LookupTeam(s.leaderboard, s.bracket[5].loserId.value) else None)
  {
    WiredId(s.bracket, 7);
    WiredIndex(s.bracket, 4);
    WiredIndex(s.bracket, 5);
    ResolveBothSides(s, 7, 4, 5);
  }

  // ------------------------------------------------------ ending a match

  /** Marking the winner completes the match and touches nothing else. */
  lemma MarkWinnerShape(s: TournamentState, i: nat, side: Side)
    requires i < |s.bracket|
    ensures var r := MarkWinner(s, i, side);
            var w := SlotTeam(s.bracket[i], side);
            r.leaderboard == s.leaderboard && SameRest(s, r) && ScoresKept(s.bracket, r.bracket)
            && r.bracket[i] == s.bracket[i].(status := Completed,
                                             winnerId := if w.Some? then Some(w.value.id) else s.bracket[i].winnerId)
            && forall j :: 0 <= j < |s.bracket| && j != i ==> r.bracket[j] == s.bracket[j]
  {
  }

  /**
   * Ending a match completes it and records the winning side's team id, even
   * if a later step raises, and leaves every tally as it was.
   */
  lemma EndMatchRecords(s: TournamentState, i: nat, side: Side)
    requires i < |s.bracket|
    ensures var r := EndMatchStep(s, i, side);
            var w := SlotTeam(s.bracket[i], side);
            ScoresKept(s.bracket, r.state.bracket)
            && r.state.bracket[i].status == Completed
            && (w.Some? ==> r.state.bracket[i].winnerId == Some(w.value.id))
  {
    var m := s.bracket[i];
    var w := SlotTeam(m, side);
    var s2 := MarkWinner(s, i, side);
    MarkWinnerShape(s, i, side);
    if w.Some? {
      UpdateScoreShape(s2, w.value.id, WinBonus(s2.settings));
    }
    var u := AwardStep(s2, w);
    assert SlotsOnlyDiffer(s2.bracket, u.state.bracket);
    assert u.state.bracket[i].status == Completed;
    assert w.Some? ==> u.state.bracket[i].winnerId == Some(w.value.id);
    assert ScoresKept(s.bracket, u.state.bracket);
    if u.out.Ok? {
      EndMatchTail(u.state, i, SlotTeam(m, Other(side)));
    }
  }

  /** What ending a match does after the bonus keeps tallies, status and winner. */
  lemma EndMatchTail(t: TournamentState, i: nat, loser: Option<Team>)
    requires i < |t.bracket|
    ensures var a := AdvanceStep(MarkLoser(t, i, loser), i);
            var fin := if a.out.Err? then a.state else ClearCurrent(a.state, i);
            ScoresKept(t.bracket, fin.bracket)
            && fin.bracket[i].status == t.bracket[i].status && fin.bracket[i].winnerId == t.bracket[i].winnerId
  {
    AdvanceShape(MarkLoser(t, i, loser), i);
  }

  /**
   * When both slots are filled: ending a match raises when the winner is not
   * on the leaderboard. When it succeeds
   * it records the losing side's id, adds the win bonus to the winner's
   * leaderboard score (clamped at 0), and clears the current match and
   * challenge.
   */
  lemma EndMatchEffect(s: TournamentState, i: nat, side: Side)
    requires i < |s.bracket|
    requires s.bracket[i].teamA.Some? && s.bracket[i].teamB.Some?
    ensures var r := EndMatchStep(s, i, side);
            var w := SlotTeam(s.bracket[i], side).value;
            var k := TeamIndex(s.leaderboard, w.id);
            (k.None? ==> r.out == Err(NoLeaderboardTeam(w.id)))
            && (r.out.Ok? ==>
                  r.state.bracket[i].loserId == Some(SlotTeam(s.bracket[i], Other(side)).value.id)
                  && r.state.bracket[i].currentChallenge.None? && r.state.currentMatchId.None?
                  && k.Some?
                  && r.state.leaderboard[k.value].score
                     == Clamp(s.leaderboard[k.value].score + WinBonus(s.settings)))
  {
    var m := s.bracket[i];
    var w := SlotTeam(m, side).value;
    var l := SlotTeam(m, Other(side)).value;
    var s2 := MarkWinner(s, i, side);
    MarkWinnerShape(s, i, side);
    assert MatchHolds(s2.bracket[i], w.id);
    var u := AwardStep(s2, Some(w));
    if TeamIndex(s.leaderboard, w.id).Some? {
      var k := TeamIndex(s.leaderboard, w.id).value;
      UpdateScoreShape(s2, w.id, WinBonus(s2.settings));
      assert u.out.Ok? && u.state.leaderboard[k].score == Clamp(s.leaderboard[k].score + WinBonus(s.settings));
      var s4 := MarkLoser(u.state, i, Some(l));
      AdvanceShape(s4, i);
    }
  }

  /** In the seeded bracket ending a match raises only for a winner missing from the leaderboard. */
  lemma EndMatchSucceedsWhenWired(s: TournamentState, i: nat, side: Side)
    requires Wired(s.bracket) && i < 8
    requires SlotTeam(s.bracket[i], side).Some?
    requires TeamIndex(s.leaderboard, SlotTeam(s.bracket[i], side).value.id).Some?
    ensures EndMatchStep(s, i, side).out.Ok?
  {
    var m := s.bracket[i];
    var w := SlotTeam(m, side).value;
    var s2 := MarkWinner(s, i, side);
    MarkWinnerShape(s, i, side);
    var u := AwardStep(s2, Some(w));
    assert u.out.Ok?;
    var s4 := MarkLoser(u.state, i, SlotTeam(m, Other(side)));
    assert SameWiring(s.bracket, s4.bracket);
    WiredTransfer(s.bracket, s4.bracket);
    AdvanceSucceedsWhenWired(s4, i);
  }

  // ---------------------------------------------------- drawing challenges

  /**
   * A draw raises exactly when the theme has no challenges, and then changes
   * nothing. Otherwise the challenge comes from the theme's pool, is one not
   * yet used in the tournament whenever such a one remains, becomes the
   * match's current challenge under that theme, and its id is appended to
   * both the match's and the tournament's used lists; nothing else changes.
   */
  lemma DrawEffect(s: TournamentState, c: Content, i: nat, theme: Theme, k: nat)
    requires i < |s.bracket|
    ensures var r := DrawStep(s, c, i, theme, k);
            (r.out.Err? <==> |c.Pool(theme)| == 0)
            && (r.out.Err? ==> r.state == s && r.out.error == NoChallenges(theme))
            && (r.out.Ok? ==>
                  var ch := r.out.value;
                  var m := r.state.bracket[i];
                  ch in c.Pool(theme)
                  && ((exists u :: u in c.Pool(theme) && u.id !in s.globalUsedChallengeIds) ==>
                        ch.id !in s.globalUsedChallengeIds)
                  && r.state.globalUsedChallengeIds == s.globalUsedChallengeIds + [ch.id]
                  && m == s.bracket[i].(usedChallengeIds := s.bracket[i].usedChallengeIds + [ch.id],
                                        currentChallenge := Some(ch), activeTheme := Some(theme))
                  && |r.state.bracket| == |s.bracket|
                  && (forall j :: 0 <= j < |s.bracket| && j != i ==> r.state.bracket[j] == s.bracket[j])
                  && r.state.leaderboard == s.leaderboard && r.state.settings == s.settings
                  && r.state.currentMatchId == s.currentMatchId)
  {
  }

  /** Every challenge the draw chooses from can be the one drawn. */
  lemma DrawCovers(s: TournamentState, c: Content, i: nat, theme: Theme, ch: Challenge)
    requires i < |s.bracket|
    requires ch in SelectionPool(c.Pool(theme), s.globalUsedChallengeIds)
    ensures exists k: nat :: DrawStep(s, c, i, theme, k).out == Ok(ch)
  {
    var sel := SelectionPool(c.Pool(theme), s.globalUsedChallengeIds);
    ChooseCovers(sel, ch);
    var k: nat :| Choose(sel, k) == ch;
    assert DrawStep(s, c, i, theme, k).out == Ok(ch);
  }

  /**
   * Drawing keeps every tally, every status and the current match, and on
   * success leaves the drawn theme active; it raises exactly on an empty pool.
   */
  lemma DrawKeeps(s: TournamentState, c: Content, i: nat, theme: Theme, k: nat)
    requires i < |s.bracket|
    ensures var r := DrawStep(s, c, i, theme, k);
            ScoresKept(s.bracket, r.state.bracket)
            && (forall j :: 0 <= j < |s.bracket| ==> r.state.bracket[j].status == s.bracket[j].status)
            && r.state.currentMatchId == s.currentMatchId
            && (r.out.Err? <==> |c.Pool(theme)| == 0)
            && (r.out.Ok? ==> r.state.bracket[i].activeTheme == Some(theme))
            && (r.out.Err? ==> r.state == s)
  {
  }

  // ------------------------------------------------------ scoring a round

  /** A redraw keeps every tally and every status. */
  lemma RedrawKeepsScores(s: TournamentState, c: Content, i: nat, tk: nat, ck: nat)
    requires i < |s.bracket|
    ensures var r := RedrawStep(s, c, i, tk, ck);
            ScoresKept(s.bracket, r.state.bracket)
            && forall j :: 0 <= j < |s.bracket| ==> r.state.bracket[j].status == s.bracket[j].status
  {
    var m := s.bracket[i];
    var theme := PickTheme(m.disabledThemes, m.activeTheme, tk);
    DrawKeeps(WithMatch(s, i, m.(activeTheme := Some(theme))), c, i, theme, ck);
  }

  /** Concluding a round leaves every tally as it was; only status and results move. */
  lemma ConcludeKeepsScores(s: TournamentState, c: Content, i: nat, tk: nat, ck: nat)
    requires i < |s.bracket|
    ensures ScoresKept(s.bracket, ConcludeRound(s, c, i, tk, ck).state.bracket)
  {
    match CheckWinner(s.bracket[i].score)
    case Some(side) => EndMatchRecords(s, i, side);
    case None => RedrawKeepsScores(s, c, i, tk, ck);
  }

  /**
   * Concluding a round completes the match exactly when `CheckWinner` names a
   * side, and leaves its status alone otherwise; when the match completes with
   * both slots filled, `winnerId` is that side's team.
   */
  lemma ConcludeOutcome(s: TournamentState, c: Content, i: nat, tk: nat, ck: nat)
    requires i < |s.bracket|
    ensures var r := ConcludeRound(s, c, i, tk, ck);
            var w := CheckWinner(s.bracket[i].score);
            |r.state.bracket| == |s.bracket|
            && (w.None? ==> r.state.bracket[i].status == s.bracket[i].status)
            && (w.Some? ==> r.state.bracket[i].status == Completed)
            && (w.Some? && s.bracket[i].teamA.Some? && s.bracket[i].teamB.Some? ==>
                  r.state.bracket[i].winnerId == Some(SlotTeam(s.bracket[i], w.value).value.id))
  {
    match CheckWinner(s.bracket[i].score)
    case Some(side) => EndMatchRecords(s, i, side);
    case None => RedrawKeepsScores(s, c, i, tk, ck);
  }

  /**
   * `submit_round` raises unless the match is in progress, changing nothing.
   * Otherwise one more round is counted, each side answering "correct" gains
   * `perCorrect`, and a side answering anything else keeps its points.
   */
  lemma SubmitRoundScoring(s: TournamentState, c: Content, id: string, resultA: string,
                           resultB: string, tk: nat, ck: nat)
    ensures var r := SubmitRoundStep(s, c, id, resultA, resultB, tk, ck);
            var i := MatchIndex(s.bracket, id);
            (i.None? ==> r == Step(s, Err(MatchNotFound(id))))
            && (i.Some? && s.bracket[i.value].status != InProgress ==> r == Step(s, Err(NotInProgress)))
            && (i.Some? && s.bracket[i.value].status == InProgress ==>
                  var before := s.bracket[i.value].score;
                  var after := r.state.bracket[i.value].score;
                  var p := PerCorrect(s.settings);
                  after.currentChallenge == before.currentChallenge + 1 && after.bestOf == before.bestOf
                  && after.teamA == (if resultA == "correct" then before.teamA + p else before.teamA)
                  && after.teamB == (if resultB == "correct" then before.teamB + p else before.teamB))
  {
    match MatchIndex(s.bracket, id)
    case None =>
    case Some(i) =>
      if s.bracket[i].status == InProgress {
        var m := s.bracket[i];
        var sc := ScoreRound(m.score, resultA, resultB, PerCorrect(s.settings));
        ConcludeKeepsScores(WithMatch(s, i, m.(score := sc)), c, i, tk, ck);
      }
  }

  /**
   * A round completes the match only once `bestOf` rounds have been played
   * and the points differ; the winner recorded is then the side with more
   * points. Otherwise the match stays in progress.
   */
  lemma SubmitRoundWinner(s: TournamentState, c: Content, id: string, resultA: string,
                          resultB: string, tk: nat, ck: nat)
    requires MatchIndex(s.bracket, id).Some?
    requires s.bracket[MatchIndex(s.bracket, id).value].status == InProgress
    ensures var r := SubmitRoundStep(s, c, id, resultA, resultB, tk, ck);
            var i := MatchIndex(s.bracket, id).value;
            var sc := r.state.bracket[i].score;
            var m := s.bracket[i];
            (r.state.bracket[i].status == Completed <==> sc.currentChallenge >= sc.bestOf && sc.teamA != sc.teamB)
            && (r.state.bracket[i].status != Completed ==> r.state.bracket[i].status == InProgress)
            && (r.state.bracket[i].status == Completed && m.teamA.Some? && m.teamB.Some? ==>
                  r.state.bracket[i].winnerId == Some(if sc.teamA > sc.teamB then m.teamA.value.id
                                                      else m.teamB.value.id))
  {
    var i := MatchIndex(s.bracket, id).value;
    var m := s.bracket[i];
    var sc := ScoreRound(m.score, resultA, resultB, PerCorrect(s.settings));
    var s1 := WithMatch(s, i, m.(score := sc));
    ConcludeOutcome(s1, c, i, tk, ck);
    ConcludeKeepsScores(s1, c, i, tk, ck);
  }

  /**
   * Sudden death: once `bestOf` rounds are played on level points, a round
   * nobody answers correctly is counted past `bestOf` and the match goes on.
   */
  lemma SuddenDeathGoesPastBestOf(s: TournamentState, c: Content, id: string, resultA: string,
                                  resultB: string, tk: nat, ck: nat)
    requires MatchIndex(s.bracket, id).Some?
    requires var m := s.bracket[MatchIndex(s.bracket, id).value];
             m.status == InProgress && m.score.currentChallenge >= m.score.bestOf
             && m.score.teamA == m.score.teamB
    requires resultA != "correct" && resultB != "correct"
    ensures var r := SubmitRoundStep(s, c, id, resultA, resultB, tk, ck);
            var n := r.state.bracket[MatchIndex(s.bracket, id).value];
            n.status == InProgress && n.score.currentChallenge > n.score.bestOf
  {
    SubmitRoundScoring(s, c, id, resultA, resultB, tk, ck);
    SubmitRoundWinner(s, c, id, resultA, resultB, tk, ck);
  }

  /**
   * `submit_challenge` raises unless the match is in progress, then unless the
   * side is "A" or "B", changing nothing. Otherwise one more round is counted
   * and only the named side, and only on "correct", gains `perCorrect`.
   */
  lemma SubmitChallengeScoring(s: TournamentState, c: Content, id: string, side: string,
                               result: string, tk: nat, ck: nat)
    ensures var r := SubmitChallengeStep(s, c, id, side, result, tk, ck);
            var i := MatchIndex(s.bracket, id);
            (i.None? ==> r == Step(s, Err(MatchNotFound(id))))
            && (i.Some? && s.bracket[i.value].status != InProgress ==> r == Step(s, Err(NotInProgress)))
            && (i.Some? && s.bracket[i.value].status == InProgress && side != "A" && side != "B" ==>
                  r == Step(s, Err(BadSide(side))))
            && (i.Some? && s.bracket[i.value].status == InProgress && (side == "A" || side == "B") ==>
                  var before := s.bracket[i.value].score;
                  var after := r.state.bracket[i.value].score;
                  var p := if result == "correct" then PerCorrect(s.settings) else 0;
                  after.currentChallenge == before.currentChallenge + 1 && after.bestOf == before.bestOf
                  && after.teamA == (if side == "A" then before.teamA + p else before.teamA)
                  && after.teamB == (if side == "B" then before.teamB + p else before.teamB))
  {
    match MatchIndex(s.bracket, id)
    case None =>
    case Some(i) =>
      if s.bracket[i].status == InProgress && ParseSide(side).Some? {
        var m := s.bracket[i];
        var sc := ScoreChallenge(m.score, ParseSide(side).value, result, PerCorrect(s.settings));
        ConcludeKeepsScores(WithMatch(s, i, m.(score := sc)), c, i, tk, ck);
      }
  }

  // ------------------------------------------------- starting and resetting

  /** In the seeded bracket resolving never raises: every source exists. */
  lemma ResolveSucceedsWhenWired(s: TournamentState, i: nat)
    requires Wired(s.bracket) && i < 8
    ensures ResolveStep(s, i).out.Ok?
  {
    if i < 4 {
      ResolveGroupMatch(s, i);
    } else if i < 7 {
      ResolveFromWinners(s, i);
    } else {
      ResolveThirdPlace(s);
    }
  }

  /**
   * `start_match` asks nothing of the match: once its slots resolve, any
   * match, whatever its status and even with empty slots, is made in progress
   * and current (also when the draw then raises); its theme comes from the
   * match's non-disabled themes when one exists; other statuses are kept.
   */
  lemma StartMatchFrom(s: TournamentState, c: Content, id: string, i: nat, tk: nat, ck: nat)
    requires MatchIndex(s.bracket, id) == Some(i)
    requires ResolveStep(s, i).out.Ok?
    ensures var r := StartMatchStep(s, c, id, tk, ck);
            var theme := PickTheme(s.bracket[i].disabledThemes, None, tk);
            |r.state.bracket| == |s.bracket|
            && r.state.bracket[i].status == InProgress && r.state.currentMatchId == Some(id)
            && r.state.bracket[i].activeTheme == Some(theme)
            && ((exists u :: u in AllThemes && u !in s.bracket[i].disabledThemes) ==>
                  theme !in s.bracket[i].disabledThemes)
            && (r.out.Err? <==> |c.Pool(theme)| == 0)
            && (r.out.Ok? ==> r.state.bracket[i].currentChallenge.Some?
                              && r.state.bracket[i].currentChallenge.value in c.Pool(theme))
            && (forall j :: 0 <= j < |s.bracket| && j != i ==> r.state.bracket[j].status == s.bracket[j].status)
  {
    ResolveShape(s, i);
    var s1 := ResolveStep(s, i).state;
    var s2 := WithMatch(s1, i, s1.bracket[i].(status := InProgress)).(currentMatchId := Some(s1.bracket[i].id));
    var theme := PickTheme(s2.bracket[i].disabledThemes, None, tk);
    var s3 := WithMatch(s2, i, s2.bracket[i].(activeTheme := Some(theme)));
    DrawKeeps(s3, c, i, theme, ck);
    DrawEffect(s3, c, i, theme, ck);
    PickThemeRespectsDisabled(s.bracket[i].disabledThemes, None, tk);
  }

  /** In the seeded bracket every match found can be started. */
  lemma StartMatchEffect(s: TournamentState, c: Content, id: string, tk: nat, ck: nat)
    requires Wired(s.bracket) && MatchIndex(s.bracket, id).Some?
    ensures StartMatchStep(s, c, id, tk, ck).state.bracket[MatchIndex(s.bracket, id).value].status == InProgress
    ensures StartMatchStep(s, c, id, tk, ck).state.currentMatchId == Some(id)
  {
    var i := MatchIndex(s.bracket, id).value;
    ResolveSucceedsWhenWired(s, i);
    StartMatchFrom(s, c, id, i, tk, ck);
  }

  /**
   * The effective `reset_match`: a fresh tally with the same `bestOf`, status
   * pending, no winner, loser or current challenge; the used challenges,
   * theme and slots of the match, the leaderboard, every other match and the
   * current match id are left as they were.
   */
  lemma ResetMatchEffect(s: TournamentState, id: string)
    ensures var r := ResetMatchStep(s, id);
            var i := MatchIndex(s.bracket, id);
            (i.None? ==> r == Step(s, Err(MatchNotFound(id))))
            && (i.Some? ==>
                  var m := s.bracket[i.value];
                  var n := r.state.bracket[i.value];
                  r.out == Ok(n)
                  && n.status == Pending && n.score == MatchScore(0, 0, m.score.bestOf, 0)
                  && n.winnerId.None? && n.loserId.None? && n.currentChallenge.None?
                  && n.usedChallengeIds == m.usedChallengeIds && n.activeTheme == m.activeTheme
                  && n.teamA == m.teamA && n.teamB == m.teamB
                  && |r.state.bracket| == |s.bracket|
                  && (forall j :: 0 <= j < |s.bracket| && j != i.value ==> r.state.bracket[j] == s.bracket[j])
                  && r.state.leaderboard == s.leaderboard && SameRest(s, r.state))
  {
  }

  /**
   * `reset_round` forgets the match's last drawn id (the tournament's list
   * keeps it) and its current challenge, and changes nothing else.
   */
  lemma ResetRoundEffect(s: TournamentState, id: string)
    ensures var r := ResetRoundStep(s, id);
            var i := MatchIndex(s.bracket, id);
            (i.None? ==> r == Step(s, Err(MatchNotFound(id))))
            && (i.Some? ==>
                  var m := s.bracket[i.value];
                  var n := r.state.bracket[i.value];
                  r.out == Ok(n) && n.currentChallenge.None?
                  && (|m.usedChallengeIds| > 0 ==> n.usedChallengeIds + [Last(m.usedChallengeIds)] == m.usedChallengeIds)
                  && (|m.usedChallengeIds| == 0 ==> n.usedChallengeIds == [])
                  && n == m.(usedChallengeIds := n.usedChallengeIds, currentChallenge := None)
                  && (forall j :: 0 <= j < |s.bracket| && j != i.value ==> r.state.bracket[j] == s.bracket[j])
                  && r.state.leaderboard == s.leaderboard && SameRest(s, r.state))
  {
  }

  /** The last element of a non-empty list. */
  function Last(xs: seq<string>): string
    requires |xs| > 0
  {
    xs[|xs| - 1]
  }

  /**
   * `reset`: with fewer than eight teams given it raises and changes nothing;
   * otherwise the snapshot is the seeded bracket of the given teams, or of the
   * default roster with zero scores when no team or an empty list is given.
   */
  lemma ResetEffect(s: TournamentState, defaults: seq<Team>, teams: Option<seq<Team>>,
                    settings: Option<Settings>)
    requires |defaults| == 8
    ensures var r := ResetStep(s, defaults, teams, settings);
            var given := teams.Some? && |teams.value| > 0;
            (given && |teams.value| < 8 ==> r == Step(s, Err(NotEnoughTeams)))
            && (!given || |teams.value| >= 8 ==>
                  r.out == Ok(r.state) && Wired(r.state.bracket)
                  && r.state.currentMatchId.None? && r.state.globalUsedChallengeIds == []
                  && r.state.settings == (if settings.Some? then settings.value else s.settings)
                  && (given ==> r.state.leaderboard == teams.value[..8])
                  && (!given ==> |r.state.leaderboard| == 8
                                 && forall k :: 0 <= k < 8 ==> r.state.leaderboard[k] == defaults[k].(score := 0)))
  {
  }

  /**
   * `set_teams`: with fewer than eight teams it raises and changes nothing.
   * Otherwise the leaderboard is the given roster, each team carrying the
   * score the old leaderboard had for its id (0 for a new id), and every slot
   * whose id is on the roster now holds the roster's record.
   */
  lemma SetTeamsEffect(s: TournamentState, teams: seq<Team>)
    ensures var r := SetTeamsStep(s, teams);
            (|teams| < 8 ==> r == Step(s, Err(NotEnoughTeams)))
            && (|teams| >= 8 ==>
                  var l := r.state.leaderboard;
                  r.out == Ok(r.state) && |l| == |teams| && SameRest(s, r.state)
                  && SlotsOnlyDiffer(s.bracket, r.state.bracket)
                  && (forall k :: 0 <= k < |teams| ==> l[k] == teams[k].(score := l[k].score))
                  && (forall k :: 0 <= k < |teams| ==> l[k].score == LastScore(s.leaderboard, teams[k].id))
                  && (forall k :: 0 <= k < |teams| ==>
                        (TeamIndex(s.leaderboard, teams[k].id).None? ==> l[k].score == 0))
                  && (forall j :: (0 <= j < |s.bracket| && s.bracket[j].teamA.Some?
                                   && TeamIndex(l, s.bracket[j].teamA.value.id).Some?) ==>
                        r.state.bracket[j].teamA == Some(l[TeamIndex(l, s.bracket[j].teamA.value.id).value]))
                  && (forall j :: (0 <= j < |s.bracket| && s.bracket[j].teamB.Some?
                                   && TeamIndex(l, s.bracket[j].teamB.value.id).Some?) ==>
                        r.state.bracket[j].teamB == Some(l[TeamIndex(l, s.bracket[j].teamB.value.id).value])))
  {
  }

  // ------------------------------------------------ themes, overrides, manual

  /**
   * `next_challenge` raises unless the match is in progress. Otherwise nothing
   * is scored, the status stays, and the match switches to a freshly picked
   * theme (kept even when its pool is empty and the draw raises), which
   * differs from the active one whenever more than one theme is usable.
   */
  lemma NextChallengeEffect(s: TournamentState, c: Content, id: string, tk: nat, ck: nat)
    ensures var r := NextChallengeStep(s, c, id, tk, ck);
            var i := MatchIndex(s.bracket, id);
            (i.None? ==> r == Step(s, Err(MatchNotFound(id))))
            && (i.Some? && s.bracket[i.value].status != InProgress ==> r == Step(s, Err(NotInProgress)))
            && (i.Some? && s.bracket[i.value].status == InProgress ==>
                  var m := s.bracket[i.value];
                  var theme := PickTheme(m.disabledThemes, m.activeTheme, tk);
                  ScoresKept(s.bracket, r.state.bracket)
                  && r.state.bracket[i.value].status == InProgress
                  && r.state.bracket[i.value].activeTheme == Some(theme)
                  && (r.out.Err? <==> |c.Pool(theme)| == 0)
                  && (m.activeTheme.Some? && |UsableThemes(m.disabledThemes)| > 1 ==> theme != m.activeTheme.value))
  {
    match MatchIndex(s.bracket, id)
    case None =>
    case Some(i) =>
      var m := s.bracket[i];
      if m.status == InProgress {
        var theme := PickTheme(m.disabledThemes, m.activeTheme, tk);
        var s1 := WithMatch(s, i, m.(activeTheme := Some(theme)));
        assert NextChallengeStep(s, c, id, tk, ck).state == DrawStep(s1, c, i, theme, ck).state;
        assert ScoresKept(s.bracket, s1.bracket);
        DrawKeeps(s1, c, i, theme, ck);
        if m.activeTheme.Some? && |UsableThemes(m.disabledThemes)| > 1 {
          PickThemeAvoidsExcluded(m.disabledThemes, m.activeTheme, tk);
        }
      }
  }

  /**
   * `set_theme`: a non-empty list of disabled themes replaces the match's
   * own; the theme asked for (even a disabled one) or else a freshly picked
   * one is drawn from. It raises when that theme has no challenges; a drawn
   * challenge comes from that theme and becomes the current one. Tallies and
   * statuses are untouched.
   */
  lemma SetThemeEffect(s: TournamentState, c: Content, id: string, theme: Option<Theme>,
                       disabled: Option<seq<Theme>>, tk: nat, ck: nat)
    requires MatchIndex(s.bracket, id).Some?
    ensures var r := SetThemeStep(s, c, id, theme, disabled, tk, ck);
            var i := MatchIndex(s.bracket, id).value;
            var m := s.bracket[i];
            var off := if disabled.Some? && |disabled.value| > 0 then disabled.value else m.disabledThemes;
            var chosen := if theme.Some? then theme.value else PickTheme(off, m.activeTheme, tk);
            r.state.bracket[i].disabledThemes == off
            && (r.out.Err? <==> |c.Pool(chosen)| == 0)
            && (r.out.Ok? ==> r.out.value in c.Pool(chosen)
                              && r.state.bracket[i].activeTheme == Some(chosen)
                              && r.state.bracket[i].currentChallenge == Some(r.out.value))
            && ScoresKept(s.bracket, r.state.bracket)
            && (forall j :: 0 <= j < |s.bracket| ==> r.state.bracket[j].status == s.bracket[j].status)
  {
    var i := MatchIndex(s.bracket, id).value;
    var m := s.bracket[i];
    var s1 := if disabled.Some? && |disabled.value| > 0
              then WithMatch(s, i, s.bracket[i].(disabledThemes := disabled.value)) else s;
    var chosen := if theme.Some? then theme.value else PickTheme(s1.bracket[i].disabledThemes, m.activeTheme, tk);
    assert SetThemeStep(s, c, id, theme, disabled, tk, ck) == DrawStep(s1, c, i, chosen, ck);
    assert ScoresKept(s.bracket, s1.bracket);
    assert forall j :: 0 <= j < |s.bracket| ==> s1.bracket[j].status == s.bracket[j].status;
    DrawKeeps(s1, c, i, chosen, ck);
    DrawEffect(s1, c, i, chosen, ck);
  }

  /** Applying leaderboard deltas moves nothing but slot records and leaderboard scores. */
  lemma {:induction false} ApplyDeltasShape(s: TournamentState, deltas: seq<(string, int)>)
    ensures var r := ApplyDeltas(s, deltas);
            SlotsOnlyDiffer(s.bracket, r.state.bracket) && SameRest(s, r.state)
            && |r.state.leaderboard| == |s.leaderboard|
    decreases |deltas|
  {
    if |deltas| > 0 {
      UpdateScoreShape(s, deltas[0].0, deltas[0].1);
      var u := UpdateScoreStep(s, deltas[0].0, deltas[0].1);
      if u.out.Ok? {
        ApplyDeltasShape(u.state, deltas[1..]);
      }
    }
  }

  /** The two brackets hold the same teams in the same slots. */
  predicate SameSlots(b1: seq<Match>, b2: seq<Match>)
  {
    |b1| == |b2| && forall j :: 0 <= j < |b1| ==> b1[j].teamA == b2[j].teamA && b1[j].teamB == b2[j].teamB
  }

  /** Leaderboards with the same ids find every id at the same position. */
  lemma SameIdsIndex(l1: seq<Team>, l2: seq<Team>, id: string)
    requires |l1| == |l2| && forall k :: 0 <= k < |l1| ==> l1[k].id == l2[k].id
    ensures TeamIndex(l1, id) == TeamIndex(l2, id)
  {
    assert TeamIds(l1) == TeamIds(l2);
  }

  /**
   * The leaderboard deltas see only the leaderboard and the slots: two
   * snapshots that agree on those end with the same leaderboard, the same
   * slots and the same outcome, whatever the match tallies are.
   */
  lemma {:induction false} ApplyDeltasIgnoresTallies(s1: TournamentState, s2: TournamentState,
                                                     deltas: seq<(string, int)>)
    requires s1.leaderboard == s2.leaderboard && SameSlots(s1.bracket, s2.bracket)
    ensures var r1 := ApplyDeltas(s1, deltas);
            var r2 := ApplyDeltas(s2, deltas);
            r1.state.leaderboard == r2.state.leaderboard && r1.out == r2.out
            && SameSlots(r1.state.bracket, r2.state.bracket)
    decreases |deltas|
  {
    if |deltas| > 0 {
      var (id, d) := deltas[0];
      var u1 := UpdateScoreStep(s1, id, d);
      var u2 := UpdateScoreStep(s2, id, d);
      assert BracketHolds(s1.bracket, id) == BracketHolds(s2.bracket, id) by {
        if BracketHolds(s1.bracket, id) {
          var j :| 0 <= j < |s1.bracket| && MatchHolds(s1.bracket[j], id);
          assert MatchHolds(s2.bracket[j], id);
        }
        if BracketHolds(s2.bracket, id) {
          var j :| 0 <= j < |s2.bracket| && MatchHolds(s2.bracket[j], id);
          assert MatchHolds(s1.bracket[j], id);
        }
      }
      assert u1.state.leaderboard == u2.state.leaderboard && u1.out == u2.out;
      assert SameSlots(u1.state.bracket, u2.state.bracket);
      if u1.out.Ok? {
        ApplyDeltasIgnoresTallies(u1.state, u2.state, deltas[1..]);
      }
    }
  }

  /** One leaderboard update, seen from the leaderboard alone. */
  lemma UpdateScoreLeaderboard(s: TournamentState, id: string, d: int)
    ensures var u := UpdateScoreStep(s, id, d);
            var l := s.leaderboard;
            var k := TeamIndex(l, id);
            (u.out.Err? ==> k.None?)
            && (k.None? ==> u.state.leaderboard == l)
            && (k.Some? ==> u.state.leaderboard == l[k.value := l[k.value].(score := Clamp(l[k.value].score + d))])
  {
  }

  /** An update leaves every id where it was on the leaderboard. */
  lemma UpdateScoreIndex(s: TournamentState, id: string, d: int, x: string)
    ensures TeamIndex(UpdateScoreStep(s, id, d).state.leaderboard, x) == TeamIndex(s.leaderboard, x)
  {
    UpdateScoreLeaderboard(s, id, d);
    SameIdsIndex(UpdateScoreStep(s, id, d).state.leaderboard, s.leaderboard, x);
  }

  /** `leaderboard_delta` never raises when every listed team is on the leaderboard. */
  lemma {:induction false} ApplyDeltasOk(s: TournamentState, deltas: seq<(string, int)>)
    requires forall k :: 0 <= k < |deltas| ==> TeamIndex(s.leaderboard, deltas[k].0).Some?
    ensures ApplyDeltas(s, deltas).out.Ok?
    decreases |deltas|
  {
    if |deltas| > 0 {
      var (id, d) := deltas[0];
      UpdateScoreLeaderboard(s, id, d);
      var u := UpdateScoreStep(s, id, d);
      forall k | 0 <= k < |deltas| - 1
        ensures TeamIndex(u.state.leaderboard, deltas[1..][k].0).Some?
      {
        UpdateScoreIndex(s, id, d, deltas[k + 1].0);
      }
      ApplyDeltasOk(u.state, deltas[1..]);
    }
  }

  /** A leaderboard entry no delta finds is kept. */
  lemma {:induction false} ApplyDeltasUnlisted(s: TournamentState, deltas: seq<(string, int)>, j: nat)
    requires j < |s.leaderboard|
    requires forall k :: 0 <= k < |deltas| ==> TeamIndex(s.leaderboard, deltas[k].0) != Some(j)
    ensures var r := ApplyDeltas(s, deltas);
            |r.state.leaderboard| == |s.leaderboard| && r.state.leaderboard[j] == s.leaderboard[j]
    decreases |deltas|
  {
    if |deltas| > 0 {
      var (id, d) := deltas[0];
      UpdateScoreLeaderboard(s, id, d);
      var u := UpdateScoreStep(s, id, d);
      if u.out.Ok? {
        forall k | 0 <= k < |deltas| - 1
          ensures TeamIndex(u.state.leaderboard, deltas[1..][k].0) != Some(j)
        {
          UpdateScoreIndex(s, id, d, deltas[k + 1].0);
        }
        ApplyDeltasUnlisted(u.state, deltas[1..], j);
      }
    }
  }

  /** With distinct ids, the entry the `k`-th delta finds ends at `max(0, score + delta)`. */
  lemma {:induction false} ApplyDeltasListed(s: TournamentState, deltas: seq<(string, int)>, k: nat)
    requires forall a, b :: 0 <= a < b < |deltas| ==> deltas[a].0 != deltas[b].0
    requires k < |deltas| && TeamIndex(s.leaderboard, deltas[k].0).Some?
    ensures var r := ApplyDeltas(s, deltas);
            var l := s.leaderboard;
            var j := TeamIndex(l, deltas[k].0).value;
            r.out.Ok? ==> |r.state.leaderboard| == |l|
                          && r.state.leaderboard[j] == l[j].(score := Clamp(l[j].score + deltas[k].1))
    decreases |deltas|
  {
    var (id, d) := deltas[0];
    var l := s.leaderboard;
    var j := TeamIndex(l, deltas[k].0).value;
    UpdateScoreLeaderboard(s, id, d);
    var u := UpdateScoreStep(s, id, d);
    var rest := deltas[1..];
    if u.out.Ok? {
      if k == 0 {
        forall k2 | 0 <= k2 < |rest|
          ensures TeamIndex(u.state.leaderboard, rest[k2].0) != Some(j)
        {
          assert rest[k2].0 == deltas[k2 + 1].0 != id;
          UpdateScoreIndex(s, id, d, rest[k2].0);
        }
        ApplyDeltasUnlisted(u.state, rest, j);
      } else {
        assert rest[k - 1] == deltas[k];
        UpdateScoreIndex(s, id, d, deltas[k].0);
        assert TeamIndex(l, id) != Some(j);
        ApplyDeltasListed(u.state, rest, k - 1);
      }
    }
  }

  /**
   * `leaderboard_delta` with distinct team ids: every listed team on the
   * leaderboard ends at `max(0, score + delta)`, every other entry is kept,
   * and the call cannot raise when every listed team is on the leaderboard.
   */
  lemma ApplyDeltasEffect(s: TournamentState, deltas: seq<(string, int)>)
    requires forall a, b :: 0 <= a < b < |deltas| ==> deltas[a].0 != deltas[b].0
    ensures (forall k :: 0 <= k < |deltas| ==> TeamIndex(s.leaderboard, deltas[k].0).Some?)
            ==> ApplyDeltas(s, deltas).out.Ok?
    ensures var r := ApplyDeltas(s, deltas);
            r.out.Ok? ==>
              |r.state.leaderboard| == |s.leaderboard|
              && (forall k :: 0 <= k < |deltas| && TeamIndex(s.leaderboard, deltas[k].0).Some? ==>
                    var j := TeamIndex(s.leaderboard, deltas[k].0).value;
                    r.state.leaderboard[j] == s.leaderboard[j].(score := Clamp(s.leaderboard[j].score + deltas[k].1)))
              && (forall j :: 0 <= j < |s.leaderboard|
                    && (forall k :: 0 <= k < |deltas| ==> TeamIndex(s.leaderboard, deltas[k].0) != Some(j))
                    ==> r.state.leaderboard[j] == s.leaderboard[j])
  {
    if forall k :: 0 <= k < |deltas| ==> TeamIndex(s.leaderboard, deltas[k].0).Some? {
      ApplyDeltasOk(s, deltas);
    }
    ApplyDeltasShape(s, deltas);
    forall k | 0 <= k < |deltas| && TeamIndex(s.leaderboard, deltas[k].0).Some?
      ensures var r := ApplyDeltas(s, deltas);
              var j := TeamIndex(s.leaderboard, deltas[k].0).value;
              r.out.Ok? ==> r.state.leaderboard[j] == s.leaderboard[j].(score := Clamp(s.leaderboard[j].score + deltas[k].1))
    {
      ApplyDeltasListed(s, deltas, k);
    }
    forall j | 0 <= j < |s.leaderboard|
               && (forall k :: 0 <= k < |deltas| ==> TeamIndex(s.leaderboard, deltas[k].0) != Some(j))
      ensures ApplyDeltas(s, deltas).state.leaderboard[j] == s.leaderboard[j]
    {
      ApplyDeltasUnlisted(s, deltas, j);
    }
  }

  /** The match `override_score` writes: the given raw points, nothing else changed. */
  function Overridden(m: Match, scoreA: Option<int>, scoreB: Option<int>): (r: Match)
    ensures r == m.(score := m.score.(teamA := if scoreA.Some? then scoreA.value else m.score.teamA,
                                      teamB := if scoreB.Some? then scoreB.value else m.score.teamB))
  {
    var m1 := if scoreA.Some? then m.(score := m.score.(teamA := scoreA.value)) else m;
    if scoreB.Some? then m1.(score := m1.score.(teamB := scoreB.value)) else m1
  }

  /** `override_score` on a found match: the new points, then the deltas. */
  lemma OverrideScoreAt(s: TournamentState, id: string, i: nat, scoreA: Option<int>, scoreB: Option<int>,
                        deltas: seq<(string, int)>)
    requires MatchIndex(s.bracket, id) == Some(i)
    ensures OverrideScoreStep(s, id, scoreA, scoreB, deltas)
            == StateOutcome(ApplyDeltas(WithMatch(s, i, Overridden(s.bracket[i], scoreA, scoreB)), deltas))
  {
  }

  /** The tallies after `override_score` on a found match. */
  lemma OverrideScoreTallies(s: TournamentState, id: string, i: nat, scoreA: Option<int>, scoreB: Option<int>,
                             deltas: seq<(string, int)>)
    requires MatchIndex(s.bracket, id) == Some(i)
    ensures var r := OverrideScoreStep(s, id, scoreA, scoreB, deltas);
            |r.state.bracket| == |s.bracket|
            && r.state.bracket[i] == Overridden(s.bracket[i], scoreA, scoreB).(teamA := r.state.bracket[i].teamA,
                                                                               teamB := r.state.bracket[i].teamB)
            && forall j :: 0 <= j < |s.bracket| && j != i ==> r.state.bracket[j].score == s.bracket[j].score
  {
    var t := WithMatch(s, i, Overridden(s.bracket[i], scoreA, scoreB));
    OverrideScoreAt(s, id, i, scoreA, scoreB, deltas);
    ApplyDeltasShape(t, deltas);
  }

  /** The leaderboard after `override_score` on a found match. */
  lemma OverrideScoreLeaderboard(s: TournamentState, id: string, i: nat, scoreA: Option<int>, scoreB: Option<int>,
                                 deltas: seq<(string, int)>)
    requires MatchIndex(s.bracket, id) == Some(i)
    ensures var r := OverrideScoreStep(s, id, scoreA, scoreB, deltas);
            r.state.leaderboard == ApplyDeltas(s, deltas).state.leaderboard
            && (r.out.Ok? <==> ApplyDeltas(s, deltas).out.Ok?)
            && (r.out.Ok? ==> r.out == Ok(r.state))
  {
    var t := WithMatch(s, i, Overridden(s.bracket[i], scoreA, scoreB));
    OverrideScoreAt(s, id, i, scoreA, scoreB, deltas);
    assert SameSlots(s.bracket, t.bracket);
    ApplyDeltasIgnoresTallies(t, s, deltas);
  }

  /**
   * `override_score` sets the given raw points of the match, leaving the
   * round count, `bestOf`, the status and every other match's tally alone,
   * then applies the leaderboard deltas, which see nothing of the new points.
   */
  lemma OverrideScoreEffect(s: TournamentState, id: string, scoreA: Option<int>, scoreB: Option<int>,
                            deltas: seq<(string, int)>)
    ensures var r := OverrideScoreStep(s, id, scoreA, scoreB, deltas);
            var i := MatchIndex(s.bracket, id);
            (i.None? ==> r == Step(s, Err(MatchNotFound(id))))
            && (i.Some? ==>
                  var before := s.bracket[i.value];
                  var after := r.state.bracket[i.value];
                  after.score == before.score.(teamA := if scoreA.Some? then scoreA.value else before.score.teamA,
                                               teamB := if scoreB.Some? then scoreB.value else before.score.teamB)
                  && after.status == before.status
                  && (r.out.Ok? ==> r.out == Ok(r.state)))
    ensures var r := OverrideScoreStep(s, id, scoreA, scoreB, deltas);
            var i := MatchIndex(s.bracket, id);
            i.Some? ==>
              |r.state.bracket| == |s.bracket|
              && forall j :: 0 <= j < |s.bracket| && j != i.value ==> r.state.bracket[j].score == s.bracket[j].score
    ensures var r := OverrideScoreStep(s, id, scoreA, scoreB, deltas);
            MatchIndex(s.bracket, id).Some? ==>
              r.state.leaderboard == ApplyDeltas(s, deltas).state.leaderboard
              && (r.out.Ok? <==> ApplyDeltas(s, deltas).out.Ok?)
  {
    match MatchIndex(s.bracket, id)
    case None =>
    case Some(i) =>
      OverrideScoreTallies(s, id, i, scoreA, scoreB, deltas);
      OverrideScoreLeaderboard(s, id, i, scoreA, scoreB, deltas);
  }

  /**
   * `advance_manual` raises when a slot is empty, changing nothing. Otherwise
   * it records the given winner, the other slot's team as the loser (slot
   * A's team when the given id matches neither slot) and completes the
   * match. The tally is untouched.
   */
  lemma AdvanceManualEffect(s: TournamentState, id: string, winnerId: string)
    ensures MatchIndex(s.bracket, id).None? ==>
              AdvanceManualStep(s, id, winnerId) == Step(s, Err(MatchNotFound(id)))
    ensures var i := MatchIndex(s.bracket, id);
            i.Some? && (s.bracket[i.value].teamA.None? || s.bracket[i.value].teamB.None?) ==>
              AdvanceManualStep(s, id, winnerId) == Step(s, Err(MissingTeams))
    ensures var r := AdvanceManualStep(s, id, winnerId);
            var i := MatchIndex(s.bracket, id);
            i.Some? && s.bracket[i.value].teamA.Some? && s.bracket[i.value].teamB.Some? ==>
              var m := s.bracket[i.value];
              var n := r.state.bracket[i.value];
              n.winnerId == Some(winnerId) && n.status == Completed
              && n.loserId == Some(if m.teamA.value.id == winnerId then m.teamB.value.id else m.teamA.value.id)
              && ScoresKept(s.bracket, r.state.bracket)
  {
    match MatchIndex(s.bracket, id)
    case None =>
    case Some(i) =>
      if s.bracket[i].teamA.Some? && s.bracket[i].teamB.Some? {
        AdvanceManualRecords(s, id, i, winnerId);
      }
  }

  /** The success case of `AdvanceManualEffect`, for the match at position `i`. */
  lemma AdvanceManualRecords(s: TournamentState, id: string, i: nat, winnerId: string)
    requires MatchIndex(s.bracket, id) == Some(i)
    requires s.bracket[i].teamA.Some? && s.bracket[i].teamB.Some?
    ensures var r := AdvanceManualStep(s, id, winnerId);
            var m := s.bracket[i];
            |r.state.bracket| == |s.bracket|
            && r.state.bracket[i].winnerId == Some(winnerId) && r.state.bracket[i].status == Completed
            && r.state.bracket[i].loserId
               == Some(if m.teamA.value.id == winnerId then m.teamB.value.id else m.teamA.value.id)
            && ScoresKept(s.bracket, r.state.bracket)
  {
    var m := s.bracket[i];
    var loserId := if m.teamA.value.id == winnerId then m.teamB.value.id else m.teamA.value.id;
    var s1 := WithMatch(s, i, m.(winnerId := Some(winnerId), loserId := Some(loserId), status := Completed));
    assert ScoresKept(s.bracket, s1.bracket);
    UpdateScoreShape(s1, winnerId, WinBonus(s1.settings));
    var u := UpdateScoreStep(s1, winnerId, WinBonus(s1.settings));
    var a := if u.out.Err? then u.state else AdvanceStep(u.state, i).state;
    assert AdvanceManualStep(s, id, winnerId).state == a;
    if u.out.Ok? {
      AdvanceShape(u.state, i);
      SlotsOnlyDifferTrans(s1.bracket, u.state.bracket, a.bracket);
    }
    assert SlotsOnlyDiffer(s1.bracket, a.bracket);
  }

  /** Changing only slots twice changes only slots. */
  lemma SlotsOnlyDifferTrans(b1: seq<Match>, b2: seq<Match>, b3: seq<Match>)
    requires SlotsOnlyDiffer(b1, b2) && SlotsOnlyDiffer(b2, b3)
    ensures SlotsOnlyDiffer(b1, b3)
  {
  }

  /** `advance_manual` gives a winner on the leaderboard the win bonus, clamped at 0. */
  lemma AdvanceManualBonus(s: TournamentState, id: string, winnerId: string)
    requires MatchIndex(s.bracket, id).Some?
    requires s.bracket[MatchIndex(s.bracket, id).value].teamA.Some?
    requires s.bracket[MatchIndex(s.bracket, id).value].teamB.Some?
    requires TeamIndex(s.leaderboard, winnerId).Some?
    ensures var r := AdvanceManualStep(s, id, winnerId);
            var k := TeamIndex(s.leaderboard, winnerId).value;
            k < |r.state.leaderboard|
            && r.state.leaderboard[k].score == Clamp(s.leaderboard[k].score + WinBonus(s.settings))
  {
    var i := MatchIndex(s.bracket, id).value;
    var m := s.bracket[i];
    var k := TeamIndex(s.leaderboard, winnerId).value;
    var loserId := if m.teamA.value.id == winnerId then m.teamB.value.id else m.teamA.value.id;
    var s1 := WithMatch(s, i, m.(winnerId := Some(winnerId), loserId := Some(loserId), status := Completed));
    assert s1.leaderboard == s.leaderboard && s1.settings == s.settings;
    var u := UpdateScoreStep(s1, winnerId, WinBonus(s.settings));
    assert u.out.Ok? && u.state.leaderboard[k].score == Clamp(s.leaderboard[k].score + WinBonus(s.settings));
    AdvanceShape(u.state, i);
    var a := AdvanceStep(u.state, i);
    assert a.state.leaderboard == u.state.leaderboard;
    assert AdvanceManualStep(s, id, winnerId).state == a.state;
  }
}
