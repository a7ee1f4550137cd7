/** Solo-mode scores: a table of scored attempts with the reward earned, the
    per-criterion breakdown out of 2 points each, the latest-attempt and
    rewards summaries, and the solo leaderboard ranked by level. */
module SoloScore {
  import opened Common
  import opened Sorting
  import opened Rewards
  import opened Leaderboard
  import opened LevelLookup
  import PointAdjustment

  /** The body of `create`. */
  datatype NewSoloScore = NewSoloScore(userId: string, score: int, scor: Option<string>, criteria: Criteria)

  /** A row of the `soloScore` table; `id` and `createdAt` come from the store. */
  datatype SoloRow = SoloRow(id: nat, userId: string, score: int, scor: Option<string>, criteria: Criteria,
                             badge: string, trophy: string, createdAt: int)

  /** The body of `update`: every field may be absent. */
  datatype SoloPatch = SoloPatch(userId: Option<string>, score: Option<int>, scor: Option<string>,
                                 alignmentStrategy: Option<int>, objectiveClarity: Option<int>,
                                 keyResultQuality: Option<int>, initiativeRelevance: Option<int>,
                                 challengeAdoption: Option<int>)

  /** `Math.min(Math.round((x / d) * 2), 2)`: the criterion value on a 0..2
      scale, rounded to nearest with halves up, capped at 2. */
  function CriterionPoints(x: int, d: int): (p: int)
    requires d > 0
    ensures p <= 2
    ensures p == 2 <==> 4 * x >= 3 * d
    ensures p < 2 ==> 2 * d * p <= 4 * x + d < 2 * d * (p + 1)
    ensures x >= 0 ==> p >= 0
  {
    var r := RoundDiv(2 * x, d);
    RoundDivBounds(2 * x, d);
    RoundedDoubleFacts(x, d, r);
    if r < 2 then r else 2
  }

  lemma RoundedDoubleFacts(x: int, d: int, r: int)
    requires d > 0
    requires 2 * d * r <= 4 * x + d < 2 * d * (r + 1)
    ensures r >= 2 <==> 4 * x >= 3 * d
    ensures x >= 0 ==> r >= 0
  {
    if r >= 2 {
      MulMonotone(2 * d, 2, r);
    } else {
      MulMonotone(2 * d, r + 1, 2);
    }
    if x >= 0 && r < 0 {
      MulMonotone(2 * d, r + 1, 0);
    }
  }

  datatype Breakdown = Breakdown(alignmentStrategy: int, objectiveClarity: int, keyResultQuality: int,
                                 initiativeRelevance: int, challengeAdoption: int)

  /** The breakdown of `findByUser` and `findLatestByUser`: the criteria are
      out of 40, 30, 20, 10 and 10. */
  function BreakdownOf(c: Criteria): Breakdown
  {
    Breakdown(CriterionPoints(c.alignmentStrategy, 40), CriterionPoints(c.objectiveClarity, 30),
              CriterionPoints(c.keyResultQuality, 20), CriterionPoints(c.initiativeRelevance, 10),
              CriterionPoints(c.challengeAdoption, 10))
  }

  /** `Object.values(breakdown).reduce((sum, val) => sum + val, 0)`. */
  function BreakdownTotal(b: Breakdown): int
  {
    b.alignmentStrategy + b.objectiveClarity + b.keyResultQuality + b.initiativeRelevance + b.challengeAdoption
  }

  /** Every entry is at most 2, so the total is at most 10; with non-negative
      criteria it is at least 0, and it is 10 exactly when every criterion
      reaches three quarters of its maximum. */
  lemma BreakdownBounds(c: Criteria)
    ensures var b := BreakdownOf(c);
      b.alignmentStrategy <= 2 && b.objectiveClarity <= 2 && b.keyResultQuality <= 2
      && b.initiativeRelevance <= 2 && b.challengeAdoption <= 2
    ensures BreakdownTotal(BreakdownOf(c)) <= 10
    ensures BreakdownTotal(BreakdownOf(c)) == 10 <==>
      (4 * c.alignmentStrategy >= 120 && 4 * c.objectiveClarity >= 90 && 4 * c.keyResultQuality >= 60
       && 4 * c.initiativeRelevance >= 30 && 4 * c.challengeAdoption >= 30)
    ensures (c.alignmentStrategy >= 0 && c.objectiveClarity >= 0 && c.keyResultQuality >= 0
             && c.initiativeRelevance >= 0 && c.challengeAdoption >= 0) ==> BreakdownTotal(BreakdownOf(c)) >= 0
  {
  }

  /** The row `update` writes: the given fields replace the old ones; with a
      new score the reward is recomputed, but a field is only written when
      the recomputed value is non-empty. */
  function PatchedRow(row: SoloRow, p: SoloPatch): (u: SoloRow)
    ensures u.id == row.id && u.createdAt == row.createdAt
    ensures u.score == (if p.score.Some? then p.score.value else row.score)
    ensures p.score.None? ==> u.badge == row.badge && u.trophy == row.trophy
    ensures p.score.Some? ==> u.badge == AssignRewards(p.score.value).badge
    ensures p.score.Some? && p.score.value >= 90 ==> u.trophy == AssignRewards(p.score.value).trophy
    ensures p.score.Some? && p.score.value < 90 ==> u.trophy == row.trophy
  {
    var rw := if p.score.Some? then AssignRewards(p.score.value) else Rewards("", "");
    var c := row.criteria;
    SoloRow(row.id,
            if p.userId.Some? then p.userId.value else row.userId,
            if p.score.Some? then p.score.value else row.score,
            if p.scor.Some? then p.scor else row.scor,
            Criteria(if p.alignmentStrategy.Some? then p.alignmentStrategy.value else c.alignmentStrategy,
                     if p.objectiveClarity.Some? then p.objectiveClarity.value else c.objectiveClarity,
                     if p.keyResultQuality.Some? then p.keyResultQuality.value else c.keyResultQuality,
                     if p.initiativeRelevance.Some? then p.initiativeRelevance.value else c.initiativeRelevance,
                     if p.challengeAdoption.Some? then p.challengeAdoption.value else c.challengeAdoption),
            if rw.badge != "" then rw.badge else row.badge,
            if rw.trophy != "" then rw.trophy else row.trophy,
            row.createdAt)
  }

  /** A trophy once earned is kept by an update to a lower score, so the
      stored trophy can disagree with the stored score. */
  lemma TrophyOutlivesScore()
    ensures var row := SoloRow(0, "u", 95, None, Criteria(0, 0, 0, 0, 0), "Gold Star", "Silver Trophy", 0);
      var u := PatchedRow(row, SoloPatch(None, Some(50), None, None, None, None, None, None));
      u.score == 50 && u.trophy == "Silver Trophy" && AssignRewards(u.score).trophy == ""
  {
  }

  /** `orderBy: { createdAt: 'desc' }`. */
  function NewerOrSame(a: SoloRow, b: SoloRow): bool { a.createdAt >= b.createdAt }

  lemma NewerOrSameTotalPreorder()
    ensures TotalPreorder(NewerOrSame)
  {
  }

  function NewestFirst(s: seq<SoloRow>): (r: seq<SoloRow>)
    ensures multiset(r) == multiset(s)
    ensures SortedBy(r, NewerOrSame)
  {
    NewerOrSameTotalPreorder();
    SortBySorted(s, NewerOrSame);
    SortBy(s, NewerOrSame)
  }

  /** One element of `findByUser`. */
  datatype SoloView = SoloView(row: SoloRow, breakdown: Breakdown, rewards: Rewards)

  function ViewedRows(vs: seq<SoloView>): (r: seq<SoloRow>)
    ensures |r| == |vs| && forall i :: 0 <= i < |vs| ==> r[i] == vs[i].row
  {
    seq(|vs|, i requires 0 <= i < |vs| => vs[i].row)
  }

  /** `findLatestByUser`'s response; badge and trophy are recomputed from the
      score, not read from the row. */
  datatype LatestView = LatestView(id: nat, userId: string, score: int, scor: Option<string>,
                                   breakdown: Breakdown, totalPoints: int, badge: string, trophy: string,
                                   createdAt: int)

  /** `getUserRewardsSummary`'s response. */
  datatype RewardsSummary = RewardsSummary(userId: string, totalRecords: nat, trophies: nat, badges: nat,
                                           scor: seq<Option<string>>, successRate: int,
                                           allRecords: seq<SoloRow>)

  function IsUser(userId: string): SoloRow -> bool
  {
    (r: SoloRow) => r.userId == userId
  }

  /** `where: { userId }` keeps exactly the user's rows. */
  lemma {:induction false} UserRows(rows: seq<SoloRow>, userId: string)
    ensures forall x :: x in Filter(rows, IsUser(userId)) <==> x in rows && x.userId == userId
    ensures |Filter(rows, IsUser(userId))| == 0 <==> forall i :: 0 <= i < |rows| ==> rows[i].userId != userId
  {
    var mine := Filter(rows, IsUser(userId));
    forall x ensures x in mine <==> x in rows && x.userId == userId {
      if x in mine {
        var k :| 0 <= k < |mine| && mine[k] == x;
        assert IsUser(userId)(mine[k]);
      }
      if x in rows && x.userId == userId {
        var i :| 0 <= i < |rows| && rows[i] == x;
        assert IsUser(userId)(rows[i]);
      }
    }
    if |mine| > 0 {
      assert mine[0] in rows && mine[0].userId == userId;
    }
  }

  function HasTrophy(r: SoloRow): bool { r.trophy != "" }

  function HasBadge(r: SoloRow): bool { r.badge != "" }

  function ScoreSum(s: seq<SoloRow>): int
  {
    if |s| == 0 then 0 else s[0].score + ScoreSum(s[1..])
  }

  /** The solo leaderboard order: level number descending, then total
      descending. */
  function SoloRankLe(a: RankedEntry, b: RankedEntry): bool
  {
    a.rank > b.rank || (a.rank == b.rank && a.totalScore >= b.totalScore)
  }

  lemma SoloRankLeTotalPreorder()
    ensures TotalPreorder(SoloRankLe)
  {
  }

  /** `mapped`: each group with its display fields and its level from the XP
      ladder; `rank` is the level number. */
  function SoloEntries(groups: seq<GroupSum>, users: seq<UserInfo>, tiers: seq<PointAdjustment.Tier>)
    : (r: seq<RankedEntry>)
    ensures |r| == |groups|
    ensures forall i :: 0 <= i < |r| ==>
      && r[i].userId == groups[i].userId
      && r[i].totalScore == groups[i].sum
      && r[i].rank == LevelDataFromXp(tiers, groups[i].sum).levelNumber
      && r[i].level == LevelDataFromXp(tiers, groups[i].sum).levelTitle
  {
    seq(|groups|, i requires 0 <= i < |groups| =>
      var s := groups[i];
      var ld := LevelDataFromXp(tiers, s.sum);
      RankedEntry(s.userId, DisplayName(users, s.userId), DisplayAvatar(users, s.userId),
                  s.sum, ld.levelTitle, ld.levelNumber))
  }

  /** `getUserRanking`: null without groups; otherwise every entry, ordered by
      level then total, split into the top three, the rest and the viewer's
      entry. */
  function UserRanking(groups: seq<GroupSum>, users: seq<UserInfo>, tiers: seq<PointAdjustment.Tier>,
                       viewer: string): (b: Option<Board<RankedEntry>>)
    ensures b.None? <==> |groups| == 0
    ensures b.Some? ==> multiset(b.value.topThree + b.value.remaining) == multiset(SoloEntries(groups, users, tiers))
    ensures b.Some? ==> SortedBy(b.value.topThree + b.value.remaining, SoloRankLe)
    ensures b.Some? ==> |b.value.topThree| == if |groups| < 3 then |groups| else 3
    ensures b.Some? && b.value.userDetails.Some? ==>
      b.value.userDetails.value.userId == viewer && b.value.userDetails.value in b.value.topThree + b.value.remaining
    ensures b.Some? ==>
      (b.value.userDetails.None? <==> forall e :: e in b.value.topThree + b.value.remaining ==> e.userId != viewer)
  {
    if |groups| == 0 then None
    else
      var mapped := SoloEntries(groups, users, tiers);
      SoloRankLeTotalPreorder();
      SortBySorted(mapped, SoloRankLe);
      var sorted := SortBy(mapped, SoloRankLe);
      Some(SplitBoard(sorted, (e: RankedEntry) => e.userId == viewer))
  }

  /** The solo-score table and the store's id counter. */
  class SoloScoreService {
    var rows: seq<SoloRow>
    var nextId: nat

    /** Ids are distinct and below the counter; `create` and `update` only ever
        store a non-empty badge. */
    ghost predicate Valid()
      reads this
    {
      && (forall i :: 0 <= i < |rows| ==> rows[i].id < nextId && rows[i].badge != "")
      && (forall i, j :: 0 <= i < j < |rows| ==> rows[i].id != rows[j].id)
    }

    constructor ()
      ensures Valid() && rows == [] && nextId == 0
    {
      rows := [];
      nextId := 0;
    }

    /** `create`: the row carries the reward of its score and the DTO as given;
        `now` is the store's timestamp. */
    method Create(data: NewSoloScore, now: int) returns (row: SoloRow)
      requires Valid()
      modifies this
      ensures Valid()
      ensures row == SoloRow(old(nextId), data.userId, data.score, data.scor, data.criteria,
                             AssignRewards(data.score).badge, AssignRewards(data.score).trophy, now)
      ensures rows == old(rows) + [row] && nextId == old(nextId) + 1
    {
      var rw := AssignRewards(data.score);
      row := SoloRow(nextId, data.userId, data.score, data.scor, data.criteria, rw.badge, rw.trophy, now);
      rows := rows + [row];
      nextId := nextId + 1;
    }

    /** `update`: an unknown id makes the store throw. */
    method Update(id: nat, patch: SoloPatch) returns (r: Result<SoloRow>)
      requires Valid()
      modifies this
      ensures Valid() && nextId == old(nextId)
      ensures IndexOfRow(old(rows), id).None? ==> r.Err? && r.error.Internal? && rows == old(rows)
      ensures IndexOfRow(old(rows), id).Some? ==>
        var i := IndexOfRow(old(rows), id).value;
        r == Ok(PatchedRow(old(rows)[i], patch)) && rows == old(rows)[i := r.value]
    {
      var k := IndexOfRow(rows, id);
      if k.None? {
        return Err(Internal("Record to update not found."));
      }
      var u := PatchedRow(rows[k.value], patch);
      rows := rows[k.value := u];
      r := Ok(u);
    }

    /** `remove`: an unknown id makes the store throw. */
    method Remove(id: nat) returns (r: Result<SoloRow>)
      requires Valid()
      modifies this
      ensures Valid() && nextId == old(nextId)
      ensures IndexOfRow(old(rows), id).None? ==> r.Err? && r.error.Internal? && rows == old(rows)
      ensures IndexOfRow(old(rows), id).Some? ==>
        var i := IndexOfRow(old(rows), id).value;
        r == Ok(old(rows)[i]) && rows == old(rows)[..i] + old(rows)[i + 1..]
    {
      var k := IndexOfRow(rows, id);
      if k.None? {
        return Err(Internal("Record to delete does not exist."));
      }
      r := Ok(rows[k.value]);
      rows := rows[..k.value] + rows[k.value + 1..];
    }

    /** `findByUser`: the user's rows in table order, each with its breakdown
        and the reward of its score. */
    function FindByUser(userId: string): (r: seq<SoloView>)
      reads this
      ensures |r| == CountWhere(rows, IsUser(userId))
      ensures forall i :: 0 <= i < |r| ==>
        r[i].row in rows && r[i].row.userId == userId
        && r[i].breakdown == BreakdownOf(r[i].row.criteria) && r[i].rewards == AssignRewards(r[i].row.score)
      ensures ViewedRows(r) == Filter(rows, IsUser(userId))
    {
      var mine := Filter(rows, IsUser(userId));
      seq(|mine|, i requires 0 <= i < |mine| =>
        SoloView(mine[i], BreakdownOf(mine[i].criteria), AssignRewards(mine[i].score)))
    }

    /** `findLatestByUser`: null without rows, else the newest row with its
        breakdown, total and recomputed reward. */
    function FindLatestByUser(userId: string): (r: Option<LatestView>)
      reads this
      ensures r.None? <==> forall i :: 0 <= i < |rows| ==> rows[i].userId != userId
      ensures r.Some? ==> exists row :: (row in rows && row.userId == userId && row.id == r.value.id
        && row.score == r.value.score && row.createdAt == r.value.createdAt
        && r.value.breakdown == BreakdownOf(row.criteria))
      ensures r.Some? ==> r.value.userId == userId
      ensures r.Some? ==> forall row :: row in rows && row.userId == userId ==> row.createdAt <= r.value.createdAt
      ensures r.Some? ==> r.value.totalPoints == BreakdownTotal(r.value.breakdown) <= 10
      ensures r.Some? ==> Rewards(r.value.badge, r.value.trophy) == AssignRewards(r.value.score)
    {
      var mine := Filter(rows, IsUser(userId));
      NewerOrSameTotalPreorder();
      UserRows(rows, userId);
      match FirstBy(mine, NewerOrSame)
      case None => None
      case Some(row) =>
        BreakdownBounds(row.criteria);
        var b := BreakdownOf(row.criteria);
        var rw := AssignRewards(row.score);
        Some(LatestView(row.id, row.userId, row.score, row.scor, b, BreakdownTotal(b), rw.badge, rw.trophy,
                        row.createdAt))
    }

    /** `getUserRewardsSummary`: null without rows; the counts look at the five
        newest rows only. */
    function UserRewardsSummary(userId: string): (r: Option<RewardsSummary>)
      reads this
      ensures r.None? <==> forall i :: 0 <= i < |rows| ==> rows[i].userId != userId
      ensures r.Some? ==> r.value.totalRecords == CountWhere(rows, IsUser(userId))
      ensures r.Some? ==> |r.value.scor| == (if r.value.totalRecords < 5 then r.value.totalRecords else 5)
      ensures r.Some? ==> r.value.trophies <= |r.value.scor| && r.value.badges <= |r.value.scor|
      ensures r.Some? ==> r.value.totalRecords == |r.value.allRecords|
      ensures r.Some? ==> r.value.trophies == CountWhere(Take(r.value.allRecords, 5), HasTrophy)
      ensures r.Some? ==> r.value.badges == CountWhere(Take(r.value.allRecords, 5), HasBadge)
      ensures r.Some? ==> forall i :: 0 <= i < |r.value.scor| ==> r.value.scor[i] == r.value.allRecords[i].scor
      ensures r.Some? ==> multiset(r.value.allRecords) == multiset(Filter(rows, IsUser(userId)))
      ensures r.Some? ==> SortedBy(r.value.allRecords, NewerOrSame)
    {
      var mine := Filter(rows, IsUser(userId));
      var all := NewestFirst(mine);
      UserRows(rows, userId);
      assert |all| == |multiset(all)| == |mine|;
      if |all| == 0 then None
      else Some(SummaryOfNewest(userId, all))
    }

    /** Every stored row has a badge, so the badge count is the number of rows
        looked at. */
    lemma SummaryCountsEveryBadge(userId: string)
      requires Valid()
      ensures var r := UserRewardsSummary(userId);
        r.Some? ==> r.value.badges == |r.value.scor|
    {
      var all := NewestFirst(Filter(rows, IsUser(userId)));
      var latest := Take(all, 5);
      forall j | 0 <= j < |latest| ensures HasBadge(latest[j]) {
        assert latest[j] in multiset(all);
        assert latest[j] in Filter(rows, IsUser(userId));
      }
      CountWhereAll(latest, HasBadge);
    }
  }

  /** The summary over a user's rows, newest first: counts over the first
      five only. */
  function SummaryOfNewest(userId: string, all: seq<SoloRow>): (r: RewardsSummary)
    ensures r.totalRecords == |all| && r.allRecords == all
    ensures |r.scor| == (if |all| < 5 then |all| else 5)
    ensures r.trophies <= |r.scor| && r.badges <= |r.scor|
    ensures r.trophies == CountWhere(Take(all, 5), HasTrophy) && r.badges == CountWhere(Take(all, 5), HasBadge)
    ensures forall i :: 0 <= i < |r.scor| ==> r.scor[i] == all[i].scor
  {
    var latest := Take(all, 5);
    RewardsSummary(userId, |all|, CountWhere(latest, HasTrophy), CountWhere(latest, HasBadge),
                   seq(|latest|, i requires 0 <= i < |latest| => latest[i].scor),
                   Percentage(ScoreSum(latest), |latest|), all)
  }

  function IndexOfRow(rows: seq<SoloRow>, id: nat): (r: Option<nat>)
    ensures r.Some? ==> r.value < |rows| && rows[r.value].id == id
    ensures r.None? ==> forall i :: 0 <= i < |rows| ==> rows[i].id != id
  {
    FirstIndex(rows, (t: SoloRow) => t.id == id)
  }
}
