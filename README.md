# Tournament bracket engine, modelled in Dafny

The system runs a party game played as an eight-team tournament. The game has
four group-stage matches (qf1–qf4), two semifinals (sf1, sf2), a final and a
third-place match. Each match is a best-of-N duel that goes round by round.

A round draws a random challenge from one of four themes: lyrics, scene, emoji
and trivia. Each side's answer to the challenge is either "correct" or not.
Once the scheduled rounds are played and one side leads, that side wins the
match. The winner earns a leaderboard bonus and moves on to the next match in
the bracket. A semifinal loser moves to the third-place match.

The whole game lives in one object, `GameState` (backend/app/state.py). It
owns the tournament snapshot, a `TournamentState` record (backend/app/models.py),
and changes it in place.

The project models that object and those records:

- `base.dfy`: `Option` and `Result`.
- `models.dfy`: the records with their declared defaults.
- `choice.dfy`: theme and challenge selection. `random.choice` is modelled by
  an index the caller supplies.
- `bracket.dfy`: the default settings and roster, `_make_match`,
  `_bootstrap`, `_check_winner`, and the tables `next_map` and `third_map`.
- `steps.dfy`: one pure reference function per engine operation. Each takes
  the old snapshot to a `Step(state, out)`. `out` is the result or the error
  raised. `state` is the snapshot the Python leaves behind, including the
  partial changes made before an exception.
- `engine.dfy`: class `GameState`, with `var state` and the challenge
  content. Each mutating method is proved to leave exactly the snapshot, and
  return exactly the result, of its reference step. The loops of
  `_find_match`, `_find_team`, `_update_leaderboard_score`, `set_teams` and
  `override_score` are loops here with their invariants.
- `properties.dfy`: what each operation does, proved about the reference
  steps.
- `invariants.dfy`: what every sequence of public calls preserves, starting
  from a fresh engine:
  - the bracket stays wired as seeded;
  - no team score, on the leaderboard or in a slot, is ever negative.
- `findings.dfy`: the missing `globalUsedChallengeIds` field (see Findings).

An exception is modelled as an `Err` carrying a `Fault`. Python's truthiness
of an optional id is `Truthy` (set and non-empty). Teams are values: a slot
holds a copy of a leaderboard team, and `_update_leaderboard_score` copies
each new score into every slot holding that team, as the code does.

The model follows the code where it departs from the behaviour described for
the system:

- A round counter can pass `bestOf`. On level points after `bestOf` rounds
  the match goes to sudden death and keeps counting rounds
  (`Properties.SuddenDeathGoesPastBestOf`).
- No match ends early on an unreachable lead (`Bracket.CheckWinner`).
- `start_match` checks neither the status nor that both slots are filled. It
  also puts a completed match back in progress (`Properties.StartMatchFrom`).
- The `reset_match` that takes effect is the second definition
  (state.py:440-452). It keeps the match's used challenge ids and clears no
  dependent match (`Properties.ResetMatchEffect`).
- A winner moves into its next slot as soon as its match ends, not when both
  sources of the next match have finished (`Properties.AdvanceGroupWinner`).

## Model

| member | source | states |
|---|---|---|
| Models.ParseTheme | backend/app/models.py:4 | a string is a theme exactly when it is one of the four theme names, and parsing inverts `ThemeName` |
| Models.NewTeam | backend/app/models.py:7-11 | a new team keeps its id, name and players and starts with score 0 |
| Models.NewScore | backend/app/models.py:14-18 | a tally created with only `bestOf` has no points and no rounds played |
| Models.ParseStatus | backend/app/models.py:39 | a string is a status exactly when it is "pending", "in_progress" or "completed", and parsing inverts `StatusName` |
| Models.NewMatch | backend/app/models.py:29-43 | a match built from its required fields takes every declared default: pending, default tally, no result, no challenge, no theme, empty lists |
| Models.ScoringValue | backend/app/state.py:331 | `scoring.get(key, default)`: the stored weight when the key is present, the default otherwise |
| Models.NewTournamentState | backend/app/models.py:51-55 | a snapshot built from the declared fields keeps them and starts with no used challenge |
| Choice.Choose | backend/app/state.py:216 | `random.choice` returns an element of the (non-empty) list |
| Choice.ChooseCovers | backend/app/state.py:216 | every element of the list is returned by some draw |
| Choice.Without | backend/app/state.py:226 | the filter keeps exactly the themes not dropped, never lengthens the list, and keeps it free of repeats |
| Choice.UsableThemes | backend/app/state.py:225-228 | the usable themes are never empty, contain no repeats, and are all real themes (all four when every theme is disabled) |
| Choice.ThemeCandidates | backend/app/state.py:229-230 | removing the excluded theme never leaves the candidates empty, and every candidate is usable |
| Choice.PickTheme | backend/app/state.py:224-231 | `_pick_random_theme` returns one of the candidates, which is a usable theme |
| Choice.PickThemeRespectsDisabled | backend/app/state.py:224-231 | the picked theme is not disabled whenever some theme is enabled |
| Choice.PickThemeAvoidsExcluded | backend/app/state.py:229-231 | with more than one usable theme, the excluded (active) theme is never picked |
| Choice.PickThemeCovers | backend/app/state.py:231 | every candidate theme is picked by some draw |
| Choice.Unused | backend/app/state.py:211-212 | the filter keeps exactly the pool's challenges whose ids are not used |
| Choice.SelectionPool | backend/app/state.py:209-215 | the draw pool is empty only for an empty theme pool; it holds only unused challenges while any remain, and the whole pool once all are used |
| Bracket.ParseSide | backend/app/state.py:324-325 | the side is A exactly for "A" and B exactly for "B"; any other string names no side |
| Bracket.Other | backend/app/state.py:383-384 | the loser's side is the other side |
| Bracket.DefaultTeams | backend/app/state.py:28-37 | the default roster is eight teams with the given ids, the listed names and players, and score 0 |
| Bracket.DefaultSettingsValues | backend/app/state.py:11-22 | `DEFAULT_SETTINGS` times every theme (10, 15, 25 and 15 seconds) and scores one point per correct answer and two per win, the same values as the fallbacks |
| Bracket.FreshTeams | backend/app/state.py:24-26 | fresh copies of the roster have every score set to 0 and nothing else changed |
| Bracket.MakeMatch | backend/app/state.py:40-50 | a made match is unplayed, best of 5, with the given id, label, slots and sources |
| Bracket.SeedMatch | backend/app/state.py:114-121 | seeded match `j` is unplayed, best of 5, has the `j`-th id, label and sources, and holds teams `2j` and `2j+1` for a group match and empty slots otherwise |
| Bracket.SeededBracket | backend/app/state.py:113-122 | the seeded bracket is wired as listed, every match is unplayed and best of 5, the group matches hold the seeded teams in pairs, later slots are empty |
| Bracket.TableWired | backend/app/state.py:113-122 | a bracket with the listed ids and sources is wired: group matches have no sources, sf1/sf2 are fed by qf1–qf4, the final and third place by sf1/sf2 |
| Bracket.Bootstrap | backend/app/state.py:109-124 | seeding raises exactly for fewer than eight teams; otherwise the bracket is the seeded bracket of the first eight, which are also the leaderboard, with the given settings, no current match and no used challenge |
| Bracket.CheckWinner | backend/app/state.py:394-405 | a winner exists exactly when at least `bestOf` rounds are played and the points differ, and it is the side with more points |
| Bracket.NextSlot | backend/app/state.py:166-177 | a winner only ever moves into sf1, sf2 or the final |
| Bracket.ThirdSlot | backend/app/state.py:178-181 | a loser moves exactly from sf1 or sf2, and only into the third-place match |
| Steps.Clamp | backend/app/state.py:200 | the updated score is `max(0, x)`: never negative, and `x` itself when `x` is not negative |
| Steps.FirstIndex | backend/app/state.py:134-144 | the found position holds the key and no earlier position does; nothing is found exactly when the key is absent |
| Steps.SetSlot | backend/app/state.py:148-159 | filling a slot keeps the match's id, label and sources |
| Steps.MatchIndex | backend/app/state.py:134-138 | the found position is the first match with the id; none is found exactly when no match has it |
| Steps.TeamIndex | backend/app/state.py:140-144 | the found position is the first leaderboard team with the id; none is found exactly when no team has it |
| Steps.LookupTeam | backend/app/state.py:140-144 | a found team is on the leaderboard and has the id; none is found exactly when no team has it |
| Steps.SyncSlots | backend/app/state.py:202-206 | every slot holding the team shows the new score, every other slot is unchanged |
| Steps.UpdateScoreStep | backend/app/state.py:197-206 | updating a score never changes the bracket's wiring |
| Steps.PlaceStep | backend/app/state.py:184-188 | placing a team never changes the bracket's wiring |
| Steps.AdvanceStep | backend/app/state.py:161-195 | advancing never changes the bracket's wiring |
| Steps.ResolveSideStep | backend/app/state.py:148-159 | resolving one slot never changes the bracket's wiring |
| Steps.ResolveStep | backend/app/state.py:146-159 | resolving both slots never changes the bracket's wiring |
| Steps.EndMatchStep | backend/app/state.py:381-392 | ending a match never changes the bracket's wiring |
| Steps.MarkWinner | backend/app/state.py:382-386 | completing the match and recording the winner keeps the wiring |
| Steps.AwardStep | backend/app/state.py:387 | awarding the win bonus keeps the wiring |
| Steps.MarkLoser | backend/app/state.py:388-389 | recording the loser keeps the wiring |
| Steps.ClearCurrent | backend/app/state.py:391-392 | clearing the current match and challenge keeps the wiring |
| Steps.DrawStep | backend/app/state.py:208-222 | drawing a challenge keeps the wiring |
| Steps.RedrawStep | backend/app/state.py:340-342 | a new theme and challenge keep the wiring |
| Steps.ConcludeRound | backend/app/state.py:335-342 | concluding a round keeps the wiring |
| Steps.ApplyDeltas | backend/app/state.py:419-421 | applying the leaderboard deltas keeps the wiring |
| Steps.ScoreRound | backend/app/state.py:351-356 | one more round is counted, `bestOf` is kept, and each side gains `perCorrect` exactly when its answer is "correct" |
| Steps.ScoreChallenge | backend/app/state.py:327-333 | one more round is counted, `bestOf` is kept, and only the named side gains `perCorrect`, and only on "correct" |
| Steps.ResetStep | backend/app/state.py:126-131 | a reset that raises leaves the snapshot as it was; one that returns gives the new snapshot, whose bracket is wired as seeded |
| Steps.LastScore | backend/app/state.py:284 | the remembered score of an id is its last leaderboard entry's score, and 0 for an id not on the leaderboard |
| Steps.Rescore | backend/app/state.py:285-286 | each new team keeps everything but its score, which becomes the remembered score of its id |
| Steps.Rebind | backend/app/state.py:289-297 | every match is the old one with both slots re-pointed at the new roster |
| Steps.ResetRoundStep | backend/app/state.py:267-274 | resetting a round keeps the wiring |
| Steps.SetTeamsStep | backend/app/state.py:280-299 | replacing the roster keeps the wiring |
| Steps.StartMatchStep | backend/app/state.py:301-309 | starting a match keeps the wiring |
| Steps.SetThemeStep | backend/app/state.py:311-318 | a chosen theme keeps the wiring |
| Steps.SubmitChallengeStep | backend/app/state.py:320-345 | scoring one side keeps the wiring |
| Steps.SubmitRoundStep | backend/app/state.py:347-367 | scoring a round keeps the wiring |
| Steps.NextChallengeStep | backend/app/state.py:369-379 | skipping to the next challenge keeps the wiring |
| Steps.OverrideScoreStep | backend/app/state.py:407-423 | overriding scores keeps the wiring |
| Steps.AdvanceManualStep | backend/app/state.py:425-435 | a manual advance keeps the wiring |
| Steps.ResetMatchStep | backend/app/state.py:440-452 | resetting a match keeps the wiring |
| Engine.GameState.constructor | backend/app/state.py:54-63 | a new engine without saved state holds the default roster seeded with the default settings, wired as seeded |
| Engine.GameState.FindMatch | backend/app/state.py:134-138 | the scan returns the first match with the id, or the not-found error when no match has it |
| Engine.GameState.FindTeam | backend/app/state.py:140-144 | the scan returns the first leaderboard team with the id, or none when no team has it |
| Engine.GameState.UpdateLeaderboardScore | backend/app/state.py:197-206 | the in-place update leaves exactly the snapshot and result of `Steps.UpdateScoreStep` |
| Engine.GameState.Place | backend/app/state.py:184-195 | placing a team leaves exactly the snapshot and result of `Steps.PlaceStep` |
| Engine.GameState.Advance | backend/app/state.py:161-195 | `_advance` leaves exactly the snapshot and result of `Steps.AdvanceStep` |
| Engine.GameState.ResolveSide | backend/app/state.py:148-159 | resolving one slot leaves exactly the snapshot and result of `Steps.ResolveSideStep` |
| Engine.GameState.ResolveSources | backend/app/state.py:146-159 | `_resolve_sources` leaves exactly the snapshot and result of `Steps.ResolveStep` |
| Engine.GameState.EndMatch | backend/app/state.py:381-392 | `_end_match` leaves exactly the snapshot and result of `Steps.EndMatchStep` |
| Engine.GameState.FinishMatch | backend/app/state.py:391-392 | the current match and the match's challenge are cleared, nothing else |
| Engine.GameState.DrawChallenge | backend/app/state.py:208-222 | `_draw_challenge` leaves exactly the snapshot and result of `Steps.DrawStep` |
| Engine.GameState.Redraw | backend/app/state.py:340-342 | a new theme and draw leave exactly the snapshot and result of `Steps.RedrawStep` |
| Engine.GameState.ConcludeRound | backend/app/state.py:335-342 | the end of a round leaves exactly the snapshot and result of `Steps.ConcludeRound` |
| Engine.GameState.Reset | backend/app/state.py:126-131 | `reset` leaves exactly the snapshot and result of `Steps.ResetStep` |
| Engine.GameState.ResetRound | backend/app/state.py:267-274 | `reset_round` leaves exactly the snapshot and result of `Steps.ResetRoundStep` |
| Engine.GameState.RescoreRoster | backend/app/state.py:284-286 | each team of the new roster carries the score of the last leaderboard entry with its id, or 0 |
| Engine.GameState.SetTeams | backend/app/state.py:280-299 | `set_teams` leaves exactly the snapshot and result of `Steps.SetTeamsStep` |
| Engine.GameState.StartMatch | backend/app/state.py:301-309 | `start_match` leaves exactly the snapshot and result of `Steps.StartMatchStep` |
| Engine.GameState.SetTheme | backend/app/state.py:311-318 | `set_theme` leaves exactly the snapshot and result of `Steps.SetThemeStep` |
| Engine.GameState.SubmitChallenge | backend/app/state.py:320-345 | `submit_challenge` leaves exactly the snapshot and result of `Steps.SubmitChallengeStep` |
| Engine.GameState.SubmitRound | backend/app/state.py:347-367 | `submit_round` leaves exactly the snapshot and result of `Steps.SubmitRoundStep` |
| Engine.GameState.NextChallenge | backend/app/state.py:369-379 | `next_challenge` leaves exactly the snapshot and result of `Steps.NextChallengeStep` |
| Engine.GameState.ApplyLeaderboardDeltas | backend/app/state.py:419-421 | the delta loop leaves exactly the snapshot and result of `Steps.ApplyDeltas` |
| Engine.GameState.OverrideScore | backend/app/state.py:407-423 | `override_score` leaves exactly the snapshot and result of `Steps.OverrideScoreStep` |
| Engine.GameState.AdvanceManual | backend/app/state.py:425-435 | `advance_manual` leaves exactly the snapshot and result of `Steps.AdvanceManualStep` |
| Engine.GameState.ResetMatch | backend/app/state.py:440-452 | `reset_match` leaves exactly the snapshot and result of `Steps.ResetMatchStep` |
| Properties.WiredIndex | backend/app/state.py:113-122 | in the seeded bracket each match id is found at its own position |
| Properties.IdsDistinct | backend/app/state.py:114-121 | the eight match ids are pairwise different |
| Properties.WiredId | backend/app/state.py:113-122 | position `j` of the seeded bracket holds the `j`-th id |
| Properties.NextAt | backend/app/state.py:166-181 | group match `j` sends its winner to semifinal `j/2`, slot A for even `j`; a semifinal sends its winner to the final and its loser to third place, sf1 on slot A; the final and third place send nobody |
| Properties.SameWiringIndex | backend/app/state.py:134-138 | brackets wired alike find every id at the same position |
| Properties.WiredTransfer | backend/app/state.py:113-122 | a bracket wired like a seeded one is itself wired as seeded |
| Properties.UpdateScoreEffect | backend/app/state.py:197-206 | the team's score becomes `max(0, score + delta)` and every slot holding it shows that score; other teams and slots are unchanged; a team missing from the leaderboard changes nothing, and the call raises exactly when some slot holds its id |
| Properties.UpdateScoreShape | backend/app/state.py:197-206 | a score update changes only slot records and leaderboard scores |
| Properties.PlaceShape | backend/app/state.py:184-195 | placing a team changes only slots |
| Properties.AdvanceShape | backend/app/state.py:161-195 | advancing changes only slots; the leaderboard and the rest are kept |
| Properties.PlaceAt | backend/app/state.py:184-188 | placing into a match found at `j` sets exactly that slot |
| Properties.AdvanceNeedsResult | backend/app/state.py:162-163 | nothing moves until the match has both a winner and a loser id |
| Properties.AdvanceGroupWinner | backend/app/state.py:166-188 | a finished group match puts the leaderboard's record of its winner into its semifinal slot and changes nothing else |
| Properties.AdvanceSemifinal | backend/app/state.py:175-195 | a finished semifinal puts its winner into the final and, when found, its loser into third place, sf1 on slot A and sf2 on slot B |
| Properties.SemifinalTargets | backend/app/state.py:175-181 | the semifinals' targets are the final and third place, found at positions 6 and 7 |
| Properties.SemifinalIds | backend/app/state.py:175-181 | sf1 sends to slot A and sf2 to slot B of the final and of third place |
| Properties.AdvanceSendsOn | backend/app/state.py:182-195 | with both targets found, the winner's record goes to the first and the loser's, when found, to the second |
| Properties.AdvanceLastRound | backend/app/state.py:182-189 | the final and third place send nobody anywhere |
| Properties.AdvanceSucceedsWhenWired | backend/app/state.py:182-195 | in the seeded bracket advancing never raises |
| Properties.ResolveSideShape | backend/app/state.py:148-159 | resolving one side changes at most that slot |
| Properties.ResolveSideFills | backend/app/state.py:148-159 | an empty slot with a found source is fed (the source's winner, or its loser for third place, else nothing), and a filled slot is kept |
| Properties.ResolveBothSides | backend/app/state.py:146-159 | with both sources found, resolving fills both empty slots from them and keeps filled ones |
| Properties.ResolveShape | backend/app/state.py:146-159 | resolving changes only the slots of the match resolved |
| Properties.ResolveGroupMatch | backend/app/state.py:148-154 | a group match has no sources, so resolving it changes nothing |
| Properties.ResolveFromWinners | backend/app/state.py:148-157 | a semifinal or the final takes its source matches' winners into empty slots, and an empty slot stays empty while its source has no winner |
| Properties.ResolveThirdPlace | backend/app/state.py:152-159 | third place takes the semifinals' losers, sf1's in slot A and sf2's in slot B |
| Properties.MarkWinnerShape | backend/app/state.py:382-386 | marking the winner completes the match and records the winning team's id, nothing else |
| Properties.EndMatchRecords | backend/app/state.py:381-392 | ending a match completes it and records the winner's id even when a later step raises, and keeps every tally |
| Properties.EndMatchTail | backend/app/state.py:388-392 | recording the loser, advancing and clearing keep every tally, the status and the winner id |
| Properties.EndMatchEffect | backend/app/state.py:381-392 | with both slots filled, ending raises when the winner is not on the leaderboard; on success the loser's id is recorded, the winner's score gains the clamped win bonus, and the current match and challenge are cleared |
| Properties.EndMatchSucceedsWhenWired | backend/app/state.py:381-392 | in the seeded bracket ending a match raises only for a winner missing from the leaderboard |
| Properties.DrawEffect | backend/app/state.py:208-222 | a draw raises exactly on an empty theme pool, changing nothing; otherwise the challenge is from the pool, unused in the tournament while such remain, becomes current under that theme, and is appended to both used lists; nothing else changes |
| Properties.DrawCovers | backend/app/state.py:213-216 | every challenge of the draw pool can be drawn |
| Properties.DrawKeeps | backend/app/state.py:208-222 | drawing keeps every tally, status and the current match, and leaves the drawn theme active |
| Properties.RedrawKeepsScores | backend/app/state.py:340-342 | a redraw keeps every tally and status |
| Properties.ConcludeKeepsScores | backend/app/state.py:335-342 | concluding a round keeps every tally |
| Properties.ConcludeOutcome | backend/app/state.py:335-342 | the match completes exactly when `_check_winner` names a side, and then records that side's team as winner |
| Properties.SubmitRoundScoring | backend/app/state.py:347-356 | `submit_round` raises unless the match is in progress, changing nothing; otherwise one more round is counted and each side answering "correct" gains `perCorrect` |
| Properties.SubmitRoundWinner | backend/app/state.py:358-364 | after a round the match is completed exactly when `bestOf` rounds are played and the points differ, with the leading side's team as winner; otherwise it stays in progress |
| Properties.SuddenDeathGoesPastBestOf | backend/app/state.py:394-405 | on level points after `bestOf` rounds, a round nobody wins is counted past `bestOf` and the match stays in progress |
| Properties.SubmitChallengeScoring | backend/app/state.py:320-333 | `submit_challenge` raises unless in progress, then unless the side is "A" or "B", changing nothing; otherwise one more round is counted and only the named side gains, and only on "correct" |
| Properties.ResolveSucceedsWhenWired | backend/app/state.py:146-159 | in the seeded bracket resolving never raises |
| Properties.StartMatchFrom | backend/app/state.py:301-309 | once the slots resolve, any match of any status becomes in progress and current; its theme is not disabled when some theme is enabled; the call raises exactly on an empty pool and otherwise holds a challenge of that theme; other statuses are kept |
| Properties.StartMatchEffect | backend/app/state.py:301-305 | in the seeded bracket every match found becomes in progress and current |
| Properties.ResetMatchEffect | backend/app/state.py:440-452 | the match gets a fresh tally with the same `bestOf`, status pending, and no winner, loser or challenge; its used ids, theme and slots, every other match and the leaderboard are kept |
| Properties.ResetRoundEffect | backend/app/state.py:267-274 | the match drops its last used id and its current challenge, and nothing else changes |
| Properties.ResetEffect | backend/app/state.py:126-131 | fewer than eight given teams raise and change nothing; otherwise the snapshot is a wired seeded bracket of the given teams, or of the default roster at score 0 when none or none is given, with the given or current settings |
| Properties.SetTeamsEffect | backend/app/state.py:280-299 | fewer than eight teams raise and change nothing; otherwise the roster becomes the leaderboard, each team with the last old score of its id (0 if new), and every slot whose id is on the roster holds the roster's record |
| Properties.NextChallengeEffect | backend/app/state.py:369-379 | raises unless in progress; otherwise nothing is scored, the status stays, and a fresh theme is active, different from the old one whenever more than one is usable |
| Properties.SetThemeEffect | backend/app/state.py:311-318 | a non-empty disabled list replaces the match's; the theme asked for, or a picked one, is drawn from; the call raises exactly on its empty pool, otherwise the challenge is from it and current; tallies and statuses are kept |
| Properties.ApplyDeltasShape | backend/app/state.py:419-421 | applying deltas changes only slot records and leaderboard scores |
| Properties.OverrideScoreEffect | backend/app/state.py:407-423 | an unknown match raises, changing nothing; otherwise the given raw points are set, the round count and status are kept, every other match's tally is kept, a returned snapshot is the final one, and the leaderboard and outcome are those of applying the deltas to the old snapshot (so `Properties.ApplyDeltasEffect` gives the final scores) |
| Properties.Overridden | backend/app/state.py:415-418 | the overridden match differs from the old one only in the raw points given |
| Properties.OverrideScoreAt | backend/app/state.py:414-421 | on a found match, `override_score` is the point override followed by the delta loop |
| Properties.OverrideScoreTallies | backend/app/state.py:414-421 | on a found match, that match differs only in the given points and its slots, and every other match keeps its tally |
| Properties.OverrideScoreLeaderboard | backend/app/state.py:419-423 | on a found match, the leaderboard and the outcome are those of the deltas on the old snapshot, and a returned snapshot is the final one |
| Properties.ApplyDeltasEffect | backend/app/state.py:419-421 | with the distinct team ids of a dict, each listed team on the leaderboard ends at `max(0, score + delta)`, every entry no delta names is kept, and the loop never raises when every listed team is on the leaderboard |
| Properties.ApplyDeltasOk | backend/app/state.py:419-421 | the loop never raises when every listed team is on the leaderboard |
| Properties.ApplyDeltasUnlisted | backend/app/state.py:419-421 | a leaderboard entry that no delta finds keeps its record |
| Properties.ApplyDeltasListed | backend/app/state.py:419-421 | with distinct ids, the entry the `k`-th delta finds ends at `max(0, score + delta)` once the loop returns |
| Properties.ApplyDeltasIgnoresTallies | backend/app/state.py:415-421 | the deltas read only the leaderboard and the slots, so the points just overridden change neither the leaderboard they leave nor whether they raise |
| Properties.UpdateScoreLeaderboard | backend/app/state.py:197-206 | one update clamps exactly the first entry with the id, changes no other entry, and raises only for an id missing from the leaderboard |
| Properties.UpdateScoreIndex | backend/app/state.py:197-200 | an update leaves every id at the same leaderboard position |
| Properties.AdvanceManualEffect | backend/app/state.py:425-435 | unknown match and missing slots raise, changing nothing; otherwise the given winner is recorded, the other slot's team is the loser (slot A's when the id matches neither), the match is completed and every tally is kept |
| Properties.AdvanceManualRecords | backend/app/state.py:429-433 | the success case of `advance_manual` for the match at a known position |
| Properties.AdvanceManualBonus | backend/app/state.py:432 | a winner on the leaderboard gains the clamped win bonus |
| Invariants.UpdateKeepsNonNegative | backend/app/state.py:197-206 | the clamp keeps every team score non-negative |
| Invariants.AdvanceKeepsNonNegative | backend/app/state.py:161-195 | advancing places only leaderboard records, so scores stay non-negative |
| Invariants.ResolveKeepsNonNegative | backend/app/state.py:146-159 | resolving places only leaderboard records, so scores stay non-negative |
| Invariants.EndMatchKeepsNonNegative | backend/app/state.py:381-392 | ending a match keeps every score non-negative |
| Invariants.EndMatchTailKeepsNonNegative | backend/app/state.py:388-392 | recording the loser, advancing and clearing keep every score non-negative |
| Invariants.ApplyDeltasKeepsNonNegative | backend/app/state.py:419-421 | any deltas, even negative ones, keep every score non-negative |
| Invariants.SetTeamsKeepsNonNegative | backend/app/state.py:280-299 | a new roster carries old scores or 0, so no score goes negative |
| Invariants.ResetKeepsNonNegative | backend/app/state.py:126-131 | a reset with non-negative teams keeps every score non-negative |
| Invariants.SeededNonNegative | backend/app/state.py:113-122 | the seeded bracket shows only the seeded teams' scores |
| Invariants.LookupNonNegative | backend/app/state.py:140-144 | a team found on a leaderboard with no negative score has a non-negative score |
| Invariants.PlaceKeepsNonNegative | backend/app/state.py:184-188 | placing a leaderboard record keeps every score non-negative |
| Invariants.ResolveSideKeepsNonNegative | backend/app/state.py:148-159 | filling one slot from the leaderboard keeps every score non-negative |
| Invariants.SetSlotKeepsNonNegative | backend/app/state.py:148-159 | a slot filled with a non-negative team keeps the bracket's scores non-negative |
| Invariants.DrawKeepsNonNegative | backend/app/state.py:208-222 | drawing a challenge keeps every score non-negative |
| Invariants.ConcludeKeepsNonNegative | backend/app/state.py:335-342 | concluding a round keeps every score non-negative |
| Invariants.StartMatchKeepsNonNegative | backend/app/state.py:301-309 | starting a match keeps every score non-negative |
| Invariants.SetThemeKeepsNonNegative | backend/app/state.py:311-318 | choosing a theme keeps every score non-negative |
| Invariants.SubmitChallengeKeepsNonNegative | backend/app/state.py:320-345 | scoring one side keeps every team score non-negative |
| Invariants.SubmitRoundKeepsNonNegative | backend/app/state.py:347-367 | scoring a round keeps every team score non-negative |
| Invariants.NextChallengeKeepsNonNegative | backend/app/state.py:369-379 | skipping a challenge keeps every score non-negative |
| Invariants.OverrideScoreKeepsNonNegative | backend/app/state.py:407-423 | overriding scores, with any deltas, keeps every team score non-negative |
| Invariants.AdvanceManualKeepsNonNegative | backend/app/state.py:425-435 | a manual advance keeps every team score non-negative |
| Invariants.ResetMatchKeepsNonNegative | backend/app/state.py:440-452 | resetting a match keeps every score non-negative |
| Invariants.ResetRoundKeepsNonNegative | backend/app/state.py:267-274 | resetting a round keeps every score non-negative |
| Invariants.EarlyCommandsKeepNonNegative | backend/app/state.py:126-345 | reset, set_teams, start_match, set_theme and submit_challenge keep every score non-negative |
| Invariants.LaterCommandsKeepNonNegative | backend/app/state.py:267-452 | the remaining public calls keep every score non-negative |
| Invariants.AfterKeepsNonNegative | backend/app/state.py:126-452 | every public call keeps every score non-negative, raised or not, as long as a reset is given non-negative teams |
| Invariants.AfterKeepsWiring | backend/app/state.py:126-452 | every public call keeps the bracket wired as seeded, raised or not |
| Invariants.InitialInvariant | backend/app/state.py:54-63 | the engine's first snapshot is wired and has no negative score |
| Invariants.RunKeepsInvariant | backend/app/state.py:126-452 | any sequence of public calls keeps the bracket wired and every score non-negative |
| Findings.Completed | backend/app/models.py:51-55 | the declared snapshot completed with the missing field keeps its bracket and leaderboard and starts with no used challenge |
| Findings.StartMatchAsDeclared | backend/app/state.py:301-307 | as written, `start_match` always raises: an unknown id raises not-found, and the missing attribute is raised only after the match was found |
| Findings.StartMatchAsDeclaredRaises | backend/app/state.py:301-307 | as written, starting any seeded match raises and leaves it in progress and current with its old challenge |
| Findings.StartMatchWithField | backend/app/state.py:301-309 | with the field, starting a seeded match whose theme has challenges succeeds and holds one of them |

## Left out

- Persistence is left out: `_load`, `_persist`, `export_state`, and the label and timer normalisation of a loaded file (state.py:66-106). They are file I/O and JSON; the model starts from the no-saved-state branch of `__init__`.
- `content_loader.load_all` is not part of this model: the content is a parameter `Content` with one list per theme.
- The HTTP routes, the websocket broadcast and the frontend are not part of this model.
- `random.choice` is modelled by index parameters (`tk`, `ck`), and `uuid.uuid4` by ids the caller passes.
- `get_state` (state.py:277-278) is left out: it only returns the snapshot.
- `_clear_match`, `_clear_dependents` and the first `reset_match` (state.py:233-265) are left out: a later `def reset_match` replaces that method, so none of them can be called.
- The `DEFAULT_SETTINGS` fallback in `reset` is left out: a pydantic `Settings` is always truthy, so `self.state.settings` is always chosen.
- Aliasing is not modelled: teams are values. The code keeps the very leaderboard objects in the slots (`_bootstrap`, `_find_team`, `set_teams`), so a write through a slot also changes the leaderboard entry that the slot object is. The model agrees with the code as long as the leaderboard's ids are distinct. They can repeat, because `reset` and `set_teams` take client-chosen ids without a check. Example: seed with two teams of id "x" at positions 0 and 1, and let slot A win qf1. `_update_leaderboard_score` raises the first "x" entry. Line 206 then writes that score into qf1's slot B, which is the second "x" entry itself, so that entry changes as well. The model leaves the second entry at its old score, and `Properties.UpdateScoreEffect` states that it is kept.
- Properties.StartMatchEffect: states only the status and current match for the seeded bracket; the full effect is in `Properties.StartMatchFrom`.
- Steps.UpdateScoreStep, Steps.AdvanceStep and the other step functions: their own contracts state only that the wiring is kept; what each does is stated by the `Properties` lemma on the same lines.

## Findings

| source | as written | input that shows it | evidently intended | confidence | as-written member | corrected member |
|---|---|---|---|---|---|---|
| backend/app/models.py:51-55 | `TournamentState` declares no `globalUsedChallengeIds`, yet `_draw_challenge` reads it and appends to it (state.py lines 211 and 219); on a pydantic model that raises `AttributeError` | `start_match("qf1")` on a freshly seeded tournament with a non-empty challenge pool | the snapshot carries a list of used ids, empty at seeding, as the client's type for the snapshot does | not executed | Findings.StartMatchAsDeclaredRaises | Findings.StartMatchWithField |
