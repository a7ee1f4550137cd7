# OKR game backend — verified model of its services

This project models the service layer of a NestJS backend for an OKR
(objectives and key results) training game. Players score in four modes:

- **solo**, with XP levels from a point-adjustment ladder;
- **team**, with teams of at most five members, a host, auto-join and a final team score;
- **challenge**, a one-to-one duel with invitations;
- **campaign**, with awards and certificates.

The backend also keeps user accounts, subscription plans, and the
LLM-backed generation of objectives and key results.

The database tables are modelled as sequences of rows. Each service that
writes rows becomes a Dafny `class` whose fields are those tables. A
counter stands in for the store's auto-increment id. Read-only
computations (rankings, rewards, summaries) are pure functions over the
rows. Their contracts state what the service promises: the reward bands,
the level a score or XP reaches, the order of a leaderboard, and who may
join, start or be invited to a challenge or team. Lemmas relate
operations to each other. Examples: subscribing keeps at most one active
subscription per user, auto-fill respects the team cap, and a saved
batch of objectives is exactly what the next fetch returns.

Modules, one per file:

- `Common`: options, results, HTTP error kinds, JavaScript `find`/`filter`/`findIndex`, `Math.round` of a quotient, and the percentage bands of the rankings.
- `Sorting`: the sorts and `orderBy` the services rely on.
- `Rewards`, `LevelLookup`, `Leaderboard`: the shared reward table, the XP-to-level ladder lookup, and the leaderboard assembly.
- `PointAdjustment`: admin management of the level ladder.
- `SoloScore`, `Team`, `FinalTeamScore`, `Challenges`, `ChallengeModeScore`, `CampaignModeScore`, `CampaignAward`, `Users`: the game services.
- `CreateObjective`, `CreateKeyResult`: LLM-backed OKR generation. The model's reply is an input value.
- `Plans`, `Subscriptions`: the plan catalogue and user subscriptions.

## Model

| member | source | states |
|---|---|---|
| Common.RoundDivBounds | src/solo-score/solo-score.service.ts:142 | `Math.round(t / c)` is the integer nearest to t/c, halves rounding up |
| Common.SplitBoard | src/final-team-score/final-team-score.service.ts:329-335 | the board splits the ranked list into its first three and the rest without losing or reordering entries, and the viewer's entry is present exactly when the viewer is ranked |
| Common.PercentBand | src/challengesModule/challenge-mode-score/challenge-mode-score.service.ts:93-101 | the band of a rounded percentage, one iff per band: 5 exactly at 100, 4 from 90 (other than 100), 3 in 80..89, 2 in 60..79, 1 in 40..59, 0 below 40 |
| Common.PercentBandMonotone | src/campaign/campaign-mode-score/campaign-mode-score.service.ts:49-57 | up to 100 a higher percentage never gets a lower level label |
| Common.PercentBandNotMonotoneAbove100 | src/campaign/campaign-mode-score/campaign-mode-score.service.ts:51-52 | 101 percent falls back from the top label to "Expert" |
| Common.Take | src/team/team.service.ts:92 | `take: n` returns the first n rows, or all rows when fewer |
| Sorting.SortBySorted | src/final-team-score/final-team-score.service.ts:270 | a comparator sort returns its input reordered into the comparator's order |
| Sorting.FirstBy | src/solo-score/solo-score.service.ts:91-94 | `findFirst` with an `orderBy` returns a row that no other row precedes, and null exactly when there are no rows |
| Sorting.SortInts | src/admin/point-adjustment/point-adjustment.service.ts:77 | numeric ascending sort: the same levels, in ascending order |
| Rewards.AssignRewards | src/solo-score/solo-score.service.ts:19-38 | the badge and trophy of a score: Platinum Star and Gold Trophy exactly at 100, Gold Star and Silver Trophy from 90, Silver Star from 80, Bronze Star from 70, otherwise Participant with no trophy |
| Rewards.RewardsMonotone | src/solo-score/solo-score.service.ts:19-38 | up to 100 a higher score never earns a lower badge or loses a trophy |
| Rewards.RewardsDropAbove100 | src/solo-score/solo-score.service.ts:23-27 | 101 earns a lower badge than 100 |
| LevelLookup.ByXpAscending | src/solo-score/solo-score.service.ts:174-177 | the ladder in ascending XP order, holding the same tiers |
| LevelLookup.ThresholdTier | src/solo-score/solo-score.service.ts:179-183 | the chosen tier is on the ladder and reached by the XP, and there is none exactly when no tier is reached |
| LevelLookup.ThresholdIsGreatest | src/solo-score/solo-score.service.ts:179-183 | on an ascending ladder the chosen tier has the greatest reached start |
| LevelLookup.ThresholdMonotone | src/solo-score/solo-score.service.ts:179-183 | more XP never resolves to a tier with a lower start |
| LevelLookup.LevelDataFromXp | src/solo-score/solo-score.service.ts:179-183 | level 1 "Newcomer" when no tier is reached, otherwise the level and title of the highest reached tier |
| Leaderboard.UserById | src/challengesModule/challenge-mode-score/challenge-mode-score.service.ts:104 | the listed user with that id, if any |
| Leaderboard.DisplayName | src/campaign/campaign-mode-score/campaign-mode-score.service.ts:67 | never empty: "Unknown" when no listed user has the id; when exactly one listed user has it, that user's name if non-empty, else "Unknown" |
| Leaderboard.DisplayAvatar | src/campaign/campaign-mode-score/campaign-mode-score.service.ts:68 | a non-empty avatar id of a user with the id, or null; when exactly one listed user has the id, that user's avatar if non-empty, else null |
| Leaderboard.AllPerfectIsMaster | src/challengesModule/challenge-mode-score/challenge-mode-score.service.ts:93-101 | a user whose every record scored 100 gets the mode's top label |
| Leaderboard.LevelLabelTop | src/final-team-score/final-team-score.service.ts:304-312 | the top label is given exactly at a rounded 100 percent |
| Leaderboard.RankGroups | src/challengesModule/challenge-mode-score/challenge-mode-score.service.ts:103-116 | one entry per group, in group order: rank i + 1, the group's sum, its level label, and the user's display name and avatar |
| Leaderboard.RankedInOrder | src/challengesModule/challenge-mode-score/challenge-mode-score.service.ts:78-83 | on sums in descending order a better rank never has a lower total |
| Leaderboard.SumRanking | src/challengesModule/challenge-mode-score/challenge-mode-score.service.ts:77-123 | null without any score; otherwise the top three and the rest are the ranked groups, and the viewer's entry exists exactly when the viewer has scores |
| Leaderboard.ViewerRanked | src/challengesModule/challenge-mode-score/challenge-mode-score.service.ts:77-123 | the viewer has a ranked entry exactly when one of the summed groups is theirs |
| PointAdjustment.NextAllowed | src/admin/point-adjustment/point-adjustment.service.ts:42-47 | the first position where the ascending levels stop being 1, 2, 3, …, plus one |
| PointAdjustment.ComputeNextAllowed | src/admin/point-adjustment/point-adjustment.service.ts:43-47 | the counting loop computes that first missing level |
| PointAdjustment.NextAllowedUnique | src/admin/point-adjustment/point-adjustment.service.ts:43-47 | any n meeting the first-missing description is the one computed |
| PointAdjustment.NextAllowedIsFirstMissing | src/admin/point-adjustment/point-adjustment.service.ts:42-47 | on strictly ascending positive levels the result is absent and every smaller level is present |
| PointAdjustment.NextAllowedOfLadder | src/admin/point-adjustment/point-adjustment.service.ts:43-47 | on a gapless ladder 1..n the next allowed level is n + 1 |
| PointAdjustment.Max | src/admin/point-adjustment/point-adjustment.service.ts:76 | `Math.max` of the levels is one of them and no level exceeds it |
| PointAdjustment.SortedLevelsOfGapless | src/admin/point-adjustment/point-adjustment.service.ts:31-36 | a gapless ladder read in level order is exactly 1..n |
| PointAdjustment.InGapless | src/admin/point-adjustment/point-adjustment.service.ts:38 | on a gapless ladder a level exists exactly when it lies in 1..n |
| PointAdjustment.CreateOnGapless | src/admin/point-adjustment/point-adjustment.service.ts:38-51 | on a gapless ladder a positive level is accepted exactly when it is n + 1, and then the ladder stays gapless; a level ≤ 0 is always accepted |
| PointAdjustment.CheckSequential | src/admin/point-adjustment/point-adjustment.service.ts:83-87 | the loop accepts exactly the sequences whose neighbours differ by one |
| PointAdjustment.ConsecutiveFrom | src/admin/point-adjustment/point-adjustment.service.ts:79-87 | a sequence starting at a that passes the check is a, a+1, … |
| PointAdjustment.MaxOfGapless | src/admin/point-adjustment/point-adjustment.service.ts:76 | the maximum of a gapless ladder of n tiers is n (0 when empty) |
| PointAdjustment.CreateMultipleOnGapless | src/admin/point-adjustment/point-adjustment.service.ts:70-87 | on a gapless ladder a batch is accepted exactly when it is non-empty and, in any order, is n+1 … n+k; the ladder and the batch together then hold 1..n+k |
| PointAdjustment.NewRows | src/admin/point-adjustment/point-adjustment.service.ts:89 | `createMany` appends one row per item, with the item's level and fresh consecutive ids |
| PointAdjustment.IndexOfId | src/admin/point-adjustment/point-adjustment.service.ts:99-100 | the position of the row with that id, or none when no row has it |
| PointAdjustment.Patched | src/admin/point-adjustment/point-adjustment.service.ts:114-117 | an update keeps the row's id |
| PointAdjustment.RenumberOnGapless | src/admin/point-adjustment/point-adjustment.service.ts:104-111 | on a gapless ladder a level change is accepted exactly for a tier other than the top one moving to n + 1 |
| PointAdjustment.UpdateOpensGap | src/admin/point-adjustment/point-adjustment.service.ts:104-111 | moving level 1 of the ladder 1,2,3 to 4 is accepted and leaves a gap |
| PointAdjustment.ItemCheck | src/admin/point-adjustment/point-adjustment.service.ts:132-149 | a missing level is "Level must be provided."; an accepted level is either the item's own level when free, or the maximum of the other levels plus one |
| PointAdjustment.UpdateItemsOk | src/admin/point-adjustment/point-adjustment.service.ts:127-160 | a successful item is applied and returned before the remaining items run |
| PointAdjustment.UpdateItemsErr | src/admin/point-adjustment/point-adjustment.service.ts:127-160 | in the sequential model, a failing item ends the run with its error and the table as the earlier items left it |
| PointAdjustment.UpdateItemsShape | src/admin/point-adjustment/point-adjustment.service.ts:127-162 | the table keeps its length and a successful batch returns one row per item |
| PointAdjustment.IndexOfIdKeepsIds | src/admin/point-adjustment/point-adjustment.service.ts:151-158 | a batch update keeps every row's id |
| PointAdjustment.AppendRowsKeepIds | src/admin/point-adjustment/point-adjustment.service.ts:89 | appending the created rows keeps ids distinct and below the next id |
| PointAdjustment.CreateMultipleKeepsGapless | src/admin/point-adjustment/point-adjustment.service.ts:70-89 | an accepted batch keeps the ladder gapless |
| PointAdjustment.PointAdjustmentService.constructor | src/admin/point-adjustment/point-adjustment.service.ts:10 | an empty ladder |
| PointAdjustment.PointAdjustmentService.FindAll | src/admin/point-adjustment/point-adjustment.service.ts:12-26 | all tiers in ascending level order, with the empty or fetched message |
| PointAdjustment.PointAdjustmentService.Create | src/admin/point-adjustment/point-adjustment.service.ts:29-59 | succeeds exactly when the level is new and not beyond the first missing one, and then appends the tier; otherwise BadRequest and nothing changes; on a gapless ladder it accepts only n + 1 and stays gapless |
| PointAdjustment.PointAdjustmentService.CreateMultiple | src/admin/point-adjustment/point-adjustment.service.ts:62-95 | succeeds exactly when the batch passes the duplicate, next-level and no-gap checks, and then appends every item; otherwise BadRequest and nothing changes; keeps a gapless ladder gapless |
| PointAdjustment.PointAdjustmentService.Update | src/admin/point-adjustment/point-adjustment.service.ts:97-123 | NotFound for an unknown id; a level change is accepted only when new and the maximum of the others plus one; on success exactly that row is patched |
| PointAdjustment.PointAdjustmentService.UpdateMultiple | src/admin/point-adjustment/point-adjustment.service.ts:125-167 | the sequential run of the items: each is checked against the table as the earlier items left it, and the first failure is returned |
| PointAdjustment.PointAdjustmentService.Delete | src/admin/point-adjustment/point-adjustment.service.ts:170-180 | NotFound for an unknown id; otherwise exactly that row is removed and returned |
| SoloScore.CriterionPoints | src/solo-score/solo-score.service.ts:97-103 | `min(round(x / d * 2), 2)`: at most 2, equal to 2 exactly from three quarters of the maximum, otherwise the nearest integer |
| SoloScore.RoundedDoubleFacts | src/solo-score/solo-score.service.ts:97-103 | the rounded doubled ratio reaches 2 exactly from three quarters of the maximum, and is never negative for a non-negative value |
| SoloScore.BreakdownBounds | src/solo-score/solo-score.service.ts:97-105 | each criterion gives at most 2 points and the total at most 10, with exactly 10 when every criterion reaches three quarters of its maximum |
| SoloScore.PatchedRow | src/solo-score/solo-score.service.ts:55-69 | a new score rewrites the badge, and the trophy only when it is non-empty; without a score, badge and trophy stay |
| SoloScore.TrophyOutlivesScore | src/solo-score/solo-score.service.ts:59-67 | lowering a 95 to 50 keeps the Silver Trophy that 50 does not earn |
| SoloScore.NewestFirst | src/solo-score/solo-score.service.ts:145-148 | a user's records, newest first |
| SoloScore.SoloEntries | src/solo-score/solo-score.service.ts:185-198 | each ranked user's total XP with the level number and title that XP reaches |
| SoloScore.UserRanking | src/solo-score/solo-score.service.ts:160-211 | null without any score; otherwise every user's entry once, ordered by level then XP, split into top three and the rest, with the viewer's entry when the viewer is ranked |
| SoloScore.IndexOfRow | src/solo-score/solo-score.service.ts:65-66 | the position of the record with that id, or none when no record has it |
| SoloScore.SoloScoreService.constructor | src/solo-score/solo-score.service.ts:17 | no records |
| SoloScore.SoloScoreService.Create | src/solo-score/solo-score.service.ts:40-45 | appends the record with the badge and trophy its score earns |
| SoloScore.SoloScoreService.Update | src/solo-score/solo-score.service.ts:55-69 | an unknown id is an internal error; otherwise exactly that record is patched |
| SoloScore.SoloScoreService.Remove | src/solo-score/solo-score.service.ts:71-73 | an unknown id is an internal error; otherwise exactly that record is removed and returned |
| SoloScore.SoloScoreService.FindByUser | src/solo-score/solo-score.service.ts:75-88 | the viewed rows are the user's records in table order (a `Filter`, whose multiset is that of the matching rows by Common.FilterMultiset), each with its criterion breakdown and rewards |
| SoloScore.SoloScoreService.FindLatestByUser | src/solo-score/solo-score.service.ts:90-126 | null exactly when the user has no record; otherwise the newest record, its breakdown, a total of at most 10, and its rewards |
| SoloScore.SoloScoreService.UserRewardsSummary | src/solo-score/solo-score.service.ts:128-157 | null exactly when the user has no record; otherwise all the user's records newest first, their count, the trophy and badge counts over the first five of them, and the i-th `scor` is the i-th newest record's |
| SoloScore.SummaryOfNewest | src/solo-score/solo-score.service.ts:134-157 | over records newest first: trophies and badges counted over the first five, `scor` listed from them in order, and all records kept |
| SoloScore.SoloScoreService.SummaryCountsEveryBadge | src/solo-score/solo-score.service.ts:137 | every stored record has a badge, so the badge count equals the number of records looked at |
| Team.FindMember | src/team/team.service.ts:36-37 | the position of the user's membership in the team, or none |
| Team.FindTeam | src/team/team.service.ts:142-143 | the position of the team with that id, or none |
| Team.Broadcast | src/team/team.service.ts:19-21 | every registered callback is called once, in registration order, with the team and user |
| Team.PlayerRows | src/team/team.service.ts:98-105 | one PLAYER membership per user, in order, with consecutive ids |
| Team.AutoAddCandidates | src/team/team.service.ts:78-94 | the first fillable opt-in rows in table order (allowed, not the host, no non-host seat in the team), as many as the smaller of the free player slots and the fillable rows, none when no slot is free |
| Team.ExcludedIsNotFillable | src/team/team.service.ts:87-93 | the excluded-id list built from the current members and the host selects exactly the fillable rows |
| Team.EligiblePicks | src/team/team.service.ts:84-91 | the picked users are at most the free slots, all opted in, none of them excluded |
| Team.AutoAddWithinCap | src/team/team.service.ts:74-108 | with one host and the team within its cap, auto-fill never takes the team past five members |
| Team.AutoAddOverfillsWithTwoHosts | src/team/team.service.ts:75-94 | a defect of the source on a concrete shape: a team with two HOST rows is filled past five members |
| Team.TeamService.TeamExists | src/team/team.service.ts:23-29 | the teams are exactly those created so far |
| Team.TeamService.constructor | src/team/team.service.ts:10-13 | no teams, members, callbacks or sessions |
| Team.TeamService.OnUserJoinedTeam | src/team/team.service.ts:15-17 | registers one more callback and changes nothing else |
| Team.TeamService.NotifyUserJoined | src/team/team.service.ts:19-21 | every callback is notified of the join, and no table changes |
| Team.TeamService.CreateTeam | src/team/team.service.ts:23-29 | creates the team with its creator as the only member, role HOST, and notifies |
| Team.TeamService.JoinTeam | src/team/team.service.ts:31-41 | BadRequest when the team is full or the user is already in it; otherwise the user joins as PLAYER, the count grows by one and stays within five, and the join is notified |
| Team.TeamService.AddMember | src/team/team.service.ts:62-72 | Forbidden unless the caller is the team's HOST; full team and existing member are BadRequest; otherwise the user is added with the role and notified |
| Team.TeamService.AutoAddUsersToTeam | src/team/team.service.ts:74-108 | Forbidden without a host; otherwise the auto-add candidates join as players in order, each notified |
| Team.TeamService.AddPlayers | src/team/team.service.ts:98-105 | the loop adds each user as a player, in order, and notifies each join |
| Team.TeamService.EndTeamSession | src/team/team.service.ts:112-117 | only the host may end it, and then every session of the team is deleted |
| Team.TeamService.UpdateMemberRole | src/team/team.service.ts:120-139 | Forbidden for a non-host; BadRequest for a non-member or the host; otherwise only that member's role changes |
| Team.TeamService.UpdateTeam | src/team/team.service.ts:141-155 | NotFound for an unknown team; otherwise the given fields replace the old ones and the rest stay |
| Team.TeamService.UsersInTeam | src/team/team.service.ts:191-214 | NotFound when the team has no other member; otherwise the team's other member rows exactly, in table order, each with its user or null |
| FinalTeamScore.MapPoints | src/final-team-score/final-team-score.service.ts:21-25 | 0 for 0..10, 1 for 11..20, 2 otherwise (also for negative values) |
| FinalTeamScore.MapPointsUpTo | src/final-team-score/final-team-score.service.ts:194 | the variant used in the user score: 0 up to 10, 1 up to 20, 2 above |
| FinalTeamScore.MapPointsAgree | src/final-team-score/final-team-score.service.ts:21-25 | the two mappings agree exactly on non-negative values |
| FinalTeamScore.AssignPoints | src/final-team-score/final-team-score.service.ts:72-76 | 2 at the maximum, 1 from half of it, otherwise 0 |
| FinalTeamScore.PointsOf | src/final-team-score/final-team-score.service.ts:78-86 | each criterion scored against its maximum: 15, 15, 30, 30, 10 |
| FinalTeamScore.CalculateTotalPoints | src/final-team-score/final-team-score.service.ts:78-86 | the total lies in 0..10 and is 10 exactly when every criterion is at its maximum |
| FinalTeamScore.MappedPoints | src/final-team-score/final-team-score.service.ts:106-110 | the mapped criterion points add up to 0..10 |
| FinalTeamScore.MappedPointsUpTo | src/final-team-score/final-team-score.service.ts:194 | the variant's mapped points add up to 0..10 |
| FinalTeamScore.SumMapped | src/final-team-score/final-team-score.service.ts:162-172 | the summed mapped points of n rows lie in 0..10n |
| FinalTeamScore.TotalMapped | src/final-team-score/final-team-score.service.ts:246-255 | the team's total points over n rows lie in 0..10n |
| FinalTeamScore.Titles | src/final-team-score/final-team-score.service.ts:259 | one title per row with a non-empty title, the i-th being the title of the i-th such row |
| FinalTeamScore.PlayerRanking | src/final-team-score/final-team-score.service.ts:287-336 | null without any score; otherwise the ranked groups with the "Master" top label, split into top three and the rest, with the viewer's entry when the viewer has scores |
| FinalTeamScore.MemberEntry | src/final-team-score/final-team-score.service.ts:113-134 | a member's role and name, and their score when they have one, else none |
| FinalTeamScore.TeamLevelsByAverage | src/final-team-score/final-team-score.service.ts:270-271 | teams sorted by average score, highest first |
| FinalTeamScore.FinalTeamScoreService.constructor | src/final-team-score/final-team-score.service.ts:19 | no scores |
| FinalTeamScore.FinalTeamScoreService.Create | src/final-team-score/final-team-score.service.ts:28-62 | stores the row with its rewards and raw total, and returns the per-criterion points and their total |
| FinalTeamScore.FinalTeamScoreService.TeamSummaryOf | src/final-team-score/final-team-score.service.ts:88-181 | one entry per team member, in member order; the team average exists exactly when the team has scores, over all of them |
| FinalTeamScore.FinalTeamScoreService.UserScoreOf | src/final-team-score/final-team-score.service.ts:183-227 | not a member, pending (a member without a score), or the member's score with mapped points totalling 0..10 |
| FinalTeamScore.FinalTeamScoreService.TeamLevelOf | src/final-team-score/final-team-score.service.ts:229-285 | null unless the team exists and has scores; otherwise the score, trophy and badge counts, the total points, and the team's place among teams by average score (0 when absent) |
| FinalTeamScore.RankLevel | src/final-team-score/final-team-score.service.ts:270-271 | 0 exactly when the team has no average; otherwise its 1-based place by descending average, the first place holding it |
| Challenges.FindByCode | src/challengesModule/challenges/challenges.service.ts:35 | the challenge with that code, or none |
| Challenges.FindInvitation | src/challengesModule/challenges/challenges.service.ts:112 | the invitation with that id, or none |
| Challenges.NewInvitations | src/challengesModule/challenges/challenges.service.ts:99-101 | one INVITED invitation per queued player, in order |
| Challenges.RepeatedIdInvitedTwice | src/challengesModule/challenges/challenges.service.ts:93-100 | a player listed twice is invited twice |
| Challenges.QueueInvites | src/challengesModule/challenges/challenges.service.ts:93-100 | the loop queues exactly the listed players who are not the host, exist, and are not already invited |
| Challenges.ChallengeStore.constructor | src/challengesModule/challenges/challenges.service.ts:17 | no challenges or invitations |
| Challenges.ChallengeStore.CreateChallenge | src/challengesModule/challenges/challenges.service.ts:19-32 | a new PENDING challenge with no player, unless the code is taken or the host is unknown, which fails as "Failed to create challenge" |
| Challenges.ChallengeStore.JoinChallenge | src/challengesModule/challenges/challenges.service.ts:34-50 | NotFound, an existing player, the host joining and a non-PENDING status are each rejected with their message; the join succeeds exactly when none applies and the user exists, and then sets the player and READY |
| Challenges.ChallengeStore.StartChallenge | src/challengesModule/challenges/challenges.service.ts:52-71 | NotFound; Forbidden unless the host; BadRequest unless READY; otherwise the challenge becomes ACTIVE |
| Challenges.ChallengeStore.SendInvitation | src/challengesModule/challenges/challenges.service.ts:73-85 | NotFound, a taken challenge, self-invitation and an unknown player are rejected; otherwise the challenge's code is returned |
| Challenges.ChallengeStore.SendMultipleInvites | src/challengesModule/challenges/challenges.service.ts:87-102 | NotFound for an unknown challenge; otherwise one invitation per queued player, each listed, not the host, existing and not already invited |
| Challenges.NewInvitationsForTargets | src/challengesModule/challenges/challenges.service.ts:93-101 | every created invitation is for a listed player who is not the host, exists and was not invited, and every such player gets one |
| Challenges.AppendNewInvitations | src/challengesModule/challenges/challenges.service.ts:99-101 | invitations created from the next id on keep invitation ids distinct and below the counter |
| Challenges.ChallengeStore.RespondToInvitation | src/challengesModule/challenges/challenges.service.ts:111-123 | NotFound; Forbidden for another player; otherwise the invitation is ACCEPTED or REJECTED, and acceptance makes the player the challenge's player |
| ChallengeModeScore.ViewOf | src/challengesModule/challenge-mode-score/challenge-mode-score.service.ts:47-71 | the viewer's own entry carries criteria and logs; others only name, score and position |
| ChallengeModeScore.ChallengeRows | src/challengesModule/challenge-mode-score/challenge-mode-score.service.ts:28-31 | the same multiset as the challenge's score rows, highest first |
| ChallengeModeScore.ChallengeRowsHasUser | src/challengesModule/challenge-mode-score/challenge-mode-score.service.ts:42-45 | the user appears among the sorted scores exactly when they scored in the challenge |
| ChallengeModeScore.Results | src/challengesModule/challenge-mode-score/challenge-mode-score.service.ts:47-71 | one view per score, highest first; the first is "1st" and every later one "2nd" |
| ChallengeModeScore.GetScore | src/challengesModule/challenge-mode-score/challenge-mode-score.service.ts:27-74 | "No scores found" without scores, "User score not found" without the user's score; otherwise the i-th result views the i-th of ChallengeRows (every score of the challenge once, highest first), "1st" for the first and "2nd" after it, with the full view only for the viewer |
| ChallengeModeScore.UserChallengeRanking | src/challengesModule/challenge-mode-score/challenge-mode-score.service.ts:77-123 | null without any score; otherwise the ranked groups with this mode's top label, split into top three and the rest |
| ChallengeModeScore.ResultsAreTwoSided | src/challengesModule/challenge-mode-score/challenge-mode-score.service.ts:37-40 | with at most two scorers per challenge, the results are one or two views, "1st" then "2nd" |
| ChallengeModeScore.ChallengeScoreStore.constructor | src/challengesModule/challenge-mode-score/challenge-mode-score.service.ts:7 | no scores |
| ChallengeModeScore.ChallengeScoreStore.AddScore | src/challengesModule/challenge-mode-score/challenge-mode-score.service.ts:9-25 | rejects a second score by the user, then a third scorer; succeeds exactly when neither applies, and then appends the score |
| ChallengeModeScore.NoSubmissionYet | src/challengesModule/challenge-mode-score/challenge-mode-score.service.ts:10-16 | a user absent from the challenge's rows has not submitted |
| ChallengeModeScore.StaysTwoSided | src/challengesModule/challenge-mode-score/challenge-mode-score.service.ts:10-24 | an accepted score keeps every challenge at two scorers at most, each scoring once |
| CampaignModeScore.LatestOf | src/campaign/campaign-mode-score/campaign-mode-score.service.ts:23-28 | null exactly when the user has no score; otherwise the user's newest score |
| CampaignModeScore.EntryAt | src/campaign/campaign-mode-score/campaign-mode-score.service.ts:59-72 | an entry carries the group's user and the rank it is given |
| CampaignModeScore.RankNamedCount | src/campaign/campaign-mode-score/campaign-mode-score.service.ts:59-73 | one entry per group with a user id |
| CampaignModeScore.RankNamedEntries | src/campaign/campaign-mode-score/campaign-mode-score.service.ts:59-73 | each entry's rank is its group's position in the unfiltered list, plus one |
| CampaignModeScore.RankNamedIncreasing | src/campaign/campaign-mode-score/campaign-mode-score.service.ts:59-73 | ranks strictly increase along the list |
| CampaignModeScore.RankNamedCovers | src/campaign/campaign-mode-score/campaign-mode-score.service.ts:59-73 | every group with a user id gets an entry |
| CampaignModeScore.UserCampaignRanking | src/campaign/campaign-mode-score/campaign-mode-score.service.ts:30-87 | null without any score; otherwise the named entries split into top three and the rest, with the viewer's entry exactly when the viewer has a group |
| CampaignModeScore.ViewerHasEntry | src/campaign/campaign-mode-score/campaign-mode-score.service.ts:85 | the viewer has an entry exactly when some group with a user id is theirs |
| CampaignModeScore.NamedGroupHasEntry | src/campaign/campaign-mode-score/campaign-mode-score.service.ts:59-73 | every user with a group has an entry |
| CampaignModeScore.EntryHasNamedGroup | src/campaign/campaign-mode-score/campaign-mode-score.service.ts:59-73 | every entry comes from that user's group, at the rank's position |
| CampaignModeScore.RankSkipsUnnamedGroup | src/campaign/campaign-mode-score/campaign-mode-score.service.ts:59-73 | a group without a user at the head leaves rank 1 unused: the next user is ranked 2 |
| CampaignModeScore.CampaignScoreStore.constructor | src/campaign/campaign-mode-score/campaign-mode-score.service.ts:8 | no scores |
| CampaignModeScore.CampaignScoreStore.Create | src/campaign/campaign-mode-score/campaign-mode-score.service.ts:10-12 | appends the score with a fresh id and the creation time |
| CampaignModeScore.CampaignScoreStore.FindLatestByUser | src/campaign/campaign-mode-score/campaign-mode-score.service.ts:23-28 | null exactly when the user has no score; otherwise the user's newest score |
| CampaignAward.AwardOf | src/campaign/campaign-award/campaign-award.service.ts:14-40 | no badge exactly below 70, a trophy exactly from 90, "Perfect Performer" exactly at 100, "Participant" exactly below 70, and a missing score counts as 0 |
| CampaignAward.AwardAgreesWithModeRewards | src/campaign/campaign-award/campaign-award.service.ts:21-37 | from 70 the campaign badge is the solo badge, the trophies always agree, and below 70 the solo table says "Participant" where the campaign gives no badge |
| CampaignAward.AssignAwards | src/campaign/campaign-award/campaign-award.service.ts:14-40 | one award per score, in order |
| CampaignAward.BadgesCountQualifying | src/campaign/campaign-award/campaign-award.service.ts:118 | the awards carrying a badge are as many as the rows scoring at least 70 |
| CampaignAward.LatestResultByUser | src/campaign/campaign-award/campaign-award.service.ts:70-99 | null exactly when the user has no score; otherwise the newest score with its award |
| CampaignAward.UserSummary | src/campaign/campaign-award/campaign-award.service.ts:102-123 | certifications are the user's level-3 scores; the i-th badge is the award badge of the i-th of them scoring at least 70; all zero when there are none |
| CampaignAward.BadgeAwardsAreQualifyingAwards | src/campaign/campaign-award/campaign-award.service.ts:114-118 | keeping the awards that carry a badge equals awarding the rows that score at least 70 |
| CampaignAward.CertTier | src/campaign/campaign-award/campaign-award.service.ts:150-162 | Feedback exactly below 70, Gold Badge exactly from 90 |
| CampaignAward.UserCertificationsAsWritten | src/campaign/campaign-award/campaign-award.service.ts:125-179 | as written: one certificate per badge-earning award, but the k-th is built from the user's k-th score, not the k-th qualifying one |
| CampaignAward.CertificateReadsWrongRow | src/campaign/campaign-award/campaign-award.service.ts:143-171 | for a failed score followed by a passing one, the code certifies the failed score with "Feedback" where the passing one was meant |
| CampaignAward.UserCertifications | src/campaign/campaign-award/campaign-award.service.ts:125-179 | one certificate per user score of at least 70, built from that score, never "Feedback", with earned and total the user's score count |
| CampaignAward.QualifyingCertificates | src/campaign/campaign-award/campaign-award.service.ts:125-179 | each intended certificate scores at least 70, is not "Feedback", and describes one of the user's own results |
| CampaignAward.CertificationById | src/campaign/campaign-award/campaign-award.service.ts:183-218 | null unless the user has that level-3 score; the title is empty exactly below 70 and otherwise the certificate tier's title |
| Users.FindUser | src/user/user.service.ts:32-33 | the position of the user with that id, or none |
| Users.Toggled | src/user/user.service.ts:52-55 | the user's `isBlocked` is flipped, its name and role stay, and every other row is unchanged; an unknown id changes nothing |
| Users.ToggleTwiceRestores | src/user/user.service.ts:52-55 | toggling twice restores the table |
| Users.ProfileLevel | src/user/user.service.ts:106-109 | level 1 "Newcomer" below every tier; otherwise the highest reached tier, with 1 and "Newcomer" for an empty level or title |
| Users.GlobalRank | src/user/user.service.ts:131-132 | the user's first position on the leaderboard plus one, or the user count when absent |
| Users.RankedAheadHaveMore | src/user/user.service.ts:131-132 | on a descending leaderboard everyone ranked ahead has at least the user's total |
| Users.UserStore.constructor | src/user/user.service.ts:6 | the given users, challenges and invitations |
| Users.UserStore.FindAll | src/user/user.service.ts:8-28 | exactly the users who are not admins |
| Users.UserStore.DeleteUser | src/user/user.service.ts:30-45 | an unknown user fails and nothing changes; otherwise the user's invitations and hosted challenges are deleted, then the user unless other records refer to them |
| Users.UserStore.ToggleBlock | src/user/user.service.ts:47-61 | an unknown user fails; otherwise that user's blocked flag flips |
| Users.UserStore.ProfileOf | src/user/user.service.ts:63-155 | NotFound for an unknown user; otherwise the XP parts with missing sums as 0, their total, the level it reaches, the global rank, the user count and the certificate count |
| CreateObjective.WithDefaults | src/create-objective/create-objective.service.ts:31-35 | a missing title becomes "", a missing difficulty becomes 1, the description is kept or null |
| CreateObjective.NewObjectives | src/create-objective/create-objective.service.ts:48-55 | one row per objective of the strategy, in order, with fresh ids |
| CreateObjective.ObjectivesOf | src/create-objective/create-objective.service.ts:90-95 | exactly the strategy's objectives, in id order |
| CreateObjective.ReplaceLeavesOnlyNew | src/create-objective/create-objective.service.ts:46-56 | after the replacing transaction the strategy holds exactly the new rows and other strategies are untouched |
| CreateObjective.SavedObjectivesAreFetched | src/create-objective/create-objective.service.ts:46-95 | fetching a strategy after a save returns exactly the saved objectives, and other strategies fetch what they did before |
| CreateObjective.ObjectiveService.constructor | src/create-objective/create-objective.service.ts:9-11 | no objectives and no fetch counts |
| CreateObjective.ObjectiveService.GenerateAndSave | src/create-objective/create-objective.service.ts:14-59 | an unparsable reply and an empty list fail with their messages and change nothing; otherwise the strategy's objectives are replaced by the defaulted ones, which are returned |
| CreateObjective.ObjectiveService.GetObjectives | src/create-objective/create-objective.service.ts:65-88 | without a strategy, all objectives in id order; otherwise after three fetches the limit error with 0 attempts left, and before that the strategy's objectives, one more counted fetch and the attempts remaining |
| CreateKeyResult.KeyResultsOf | src/create-key-result/create-key-result.service.ts:36-42 | an unparsable reply or a missing list gives no key results, otherwise the listed ones |
| CreateKeyResult.NumberedKeepsGiven | src/create-key-result/create-key-result.service.ts:64-70 | numbering keeps titles and descriptions, and keeps every truthy id |
| CreateKeyResult.NumberedFollowsPrevious | src/create-key-result/create-key-result.service.ts:64-70 | a missing id is the counter at first and otherwise the previous id plus one; the counter ends at the last id plus one |
| CreateKeyResult.NumberedWithoutIds | src/create-key-result/create-key-result.service.ts:64-70 | with no ids given, ids run counter, counter + 1, … |
| CreateKeyResult.GivenIdsCanRepeat | src/create-key-result/create-key-result.service.ts:64-70 | a missing id followed by a given id 1 both get id 1 |
| CreateKeyResult.AssignIds | src/create-key-result/create-key-result.service.ts:64-70 | the loop numbers the key results as specified, leaving the counter where the specification says |
| CreateKeyResult.Batches | src/create-key-result/create-key-result.service.ts:55-78 | one batch per objective, in order, with the strategy, role and the objective's key results |
| CreateKeyResult.BatchIdsConsecutive | src/create-key-result/create-key-result.service.ts:53-78 | with no ids given, the ids across all batches run 1, 2, 3, … without a gap or restart |
| CreateKeyResult.GenerateForObjectives | src/create-key-result/create-key-result.service.ts:46-81 | the loop over objectives builds exactly the specified batches, with the counter starting at 1 |
| Plans.GetAllPlans | src/plans/plans.service.ts:17-59 | three plans with ids 1, 2, 3, the first free at "0€", every listed feature included |
| Plans.GetPlanById | src/plans/plans.service.ts:61-63 | the listed plan with that id, or none exactly when the id is not 1..3 |
| Plans.GetPlanByIdOfListed | src/plans/plans.service.ts:57-63 | looking up a listed plan's id returns that plan |
| Subscriptions.Deactivated | src/plans/subscriptions.service.ts:41-44 | exactly the user's active subscriptions become inactive |
| Subscriptions.AssignDefaultGivesActive | src/plans/subscriptions.service.ts:8-22 | afterwards the user has an active subscription; a free one is added exactly when none was active, and nothing else changes |
| Subscriptions.AssignDefaultIdempotent | src/plans/subscriptions.service.ts:8-22 | assigning the default plan twice is the same as once |
| Subscriptions.AssignDefaultKeepsOneActive | src/plans/subscriptions.service.ts:17-21 | adding the free plan to a user without an active one keeps at most one active per user |
| Subscriptions.Subscribe | src/plans/subscriptions.service.ts:24-50 | the returned subscription is active, for the user and the plan, from now to the expiry |
| Subscriptions.AddSamePlanRenews | src/plans/subscriptions.service.ts:33-39 | the same plan renews the active row in place and adds nothing |
| Subscriptions.AddOtherPlanReplaces | src/plans/subscriptions.service.ts:41-49 | another plan deactivates the user's active rows and appends the new one |
| Subscriptions.AddSubscriptionKeepsOneActive | src/plans/subscriptions.service.ts:24-50 | afterwards the user has exactly one active subscription, other users keep theirs, and at most one per user stays active |
| Subscriptions.DeactivatedCount | src/plans/subscriptions.service.ts:41-44 | deactivation leaves the user none active and other users as they were |
| Subscriptions.UserPlanMeaning | src/plans/subscriptions.service.ts:52-68 | an unexpired active subscription is returned unchanged; null exactly when none is active or it expired, and an expired one is deactivated |
| Subscriptions.UserPlanNullStays | src/plans/subscriptions.service.ts:52-68 | once null is returned the user has no active plan and the next lookup is null too |
| Subscriptions.ActiveByStartDesc | src/plans/subscriptions.service.ts:72-81 | the active subscriptions, newest start first |
| Subscriptions.CountsAfterPicksGroup | src/plans/subscriptions.service.ts:94-105 | each plan's count is taken from a group of that plan, and is 0 without one |
| Subscriptions.CountsAreActiveRows | src/plans/subscriptions.service.ts:94-105 | on a correct grouping each plan's count is its number of active subscriptions |
| Subscriptions.CountPlans | src/plans/subscriptions.service.ts:100-105 | the loop over the groups computes the specified counts |
| Subscriptions.UsersOf | src/plans/subscriptions.service.ts:88-92 | exactly the users owning a listed subscription |
| Subscriptions.PageOfMeaning | src/plans/subscriptions.service.ts:72-85 | at most ten rows, the ones after the skipped pages, and hasMore exactly when rows remain after the page |
| Subscriptions.Paginate | src/plans/subscriptions.service.ts:78-85 | taking eleven and popping the extra gives the specified page |
| Subscriptions.SubscriptionStore.constructor | src/plans/subscriptions.service.ts:6 | no subscriptions |
| Subscriptions.SubscriptionStore.AssignDefaultFreePlan | src/plans/subscriptions.service.ts:8-22 | applies the default-plan specification and keeps at most one active per user |
| Subscriptions.SubscriptionStore.AddSubscription | src/plans/subscriptions.service.ts:24-50 | applies the subscribe specification and keeps at most one active per user |
| Subscriptions.SubscribeIdsBelow | src/plans/subscriptions.service.ts:24-50 | every row id stays below the id counter after subscribing |
| Subscriptions.SubscriptionStore.GetUserPlan | src/plans/subscriptions.service.ts:52-68 | applies the plan-lookup specification, expiring a lapsed plan |
| Subscriptions.SubscriptionStore.GetUsersWithPlanSimple | src/plans/subscriptions.service.ts:71-108 | the requested page of active subscriptions newest first, hasMore, their users, and the per-plan counts |

## Left out

- Prisma, HTTP and NestJS plumbing: tables are sequences of rows and ids are counters. `createMany` is given consecutive ids.
- Read-then-write races between concurrent requests: every operation runs alone.
- A `findFirst` or `findMany` without `orderBy` returns rows in table order.
- Clocks: `new Date()` is a `now` parameter. The one-month expiry of a subscription is an `expiry` parameter.
- Randomness: the challenge code is a parameter meeting the code format.
- Prisma `groupBy` results are inputs that meet the grouping they claim. Only `Subscriptions.CountsAreActiveRows` ties a grouping to the rows.
- The LLM, its prompts and JSON parsing: the model's reply is an input value. A `keyResults` value that is not an array, which makes `forEach` throw, is not modelled.
- JWT tokens: `joinTeam` takes the team id directly instead of a token.
- Mail and socket notifications: only the user-joined callbacks are modelled, as a log of notices.
- Floating point: quotients are computed exactly. `Math.round` of a quotient is exact integer rounding, as in the solo summary's `successRate`. `avgPercentage = (totalScore / 100) * 100` is stored as the integer total. The team averages and getTeamLevel's `successRate` are kept as an exact sum over a count. The rounding error of doubles is dropped: a product that lands just below a .5 boundary in doubles rounds one lower in the source than in the model.
- PointAdjustment.PointAdjustmentService.UpdateMultiple: the items run one after another, and the first failure ends the run with the later items unapplied. The source starts every item inside `Promise.all`. Items after a failing one still run their checks and updates, and their reads and writes interleave at each `await`. The concurrent interleaving is not modelled.
- getTeamRewardsSummary (solo-score.service.ts:216-279) is not modelled. It is float averages and the same badge and trophy counts that FinalTeamScore.FinalTeamScoreService.TeamLevelOf states.
- Thin reads are not modelled: getTeamMembers, getTeamDetails, getUserInTeamDetails, getPlayerInvitations, and the findAll/findOne/findByUserId pass-throughs.
- assignRewardsByCampaign, getRewardByUser and getRewardByCampaignAndUser (campaign-award.service.ts:44-68) are not modelled separately. Each is CampaignAward.AssignAwards over a filter.
- getObjectivesWithoutLimit has no separate member. It is CreateObjective.ObjectivesOf.
- Error messages that interpolate a value keep the error kind and fixed text, without the value.
- Challenges.ChallengeStore.SendInvitation: the acknowledgement carries the challenge code but not the player's name, since users are a set of ids.
- Subscriptions.SubscriptionStore.GetUsersWithPlanSimple: requires page ≥ 1. Prisma rejects the negative `skip` a smaller page would produce.
- Users.UserStore.DeleteUser: the cascade is not one transaction. The invitations and hosted challenges are deleted even when deleting the user then fails; the model keeps that order.
- Challenges.ChallengeStore.RespondToInvitation: accepting sets the challenge's player without checking or changing its status, as the code does.
- The in-place array sorts are modelled by a stable insertion sort on values (Sorting.SortBy). Only the order and the multiset of the result are relied on.
- Numeric widths: every number is an unbounded integer. JavaScript numbers are doubles, but the values involved stay far below 2^53.

## Findings

| source | as written | input that shows it | evidently intended | confidence | as-written member | corrected member |
|---|---|---|---|---|---|---|
| src/campaign/campaign-award/campaign-award.service.ts:143-171 | certificates are built from the k-th reward kept by the badge filter, but read `scores[index]`, the k-th unfiltered score | two scores of the user, the first below 70 and the second at least 70: the code certifies the first, failed score with "Feedback" | the k-th certificate describes the k-th qualifying score | not executed | CampaignAward.UserCertificationsAsWritten | CampaignAward.UserCertifications |
