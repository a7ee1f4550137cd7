/** Final team scores: each member's scored attempt at the end of a team
    game, the point mappings of the criteria, the team summary and per-user
    view, the team's level among all teams, and the player leaderboard. */
module FinalTeamScore {
  import opened Common
  import opened Sorting
  import opened Rewards
  import opened Leaderboard
  import Team

  /** The body of `create`. */
  datatype NewTeamScore = NewTeamScore(teamId: nat, userId: string, score: int, title: Option<string>,
                                       time: Option<string>, criteria: Criteria)

  /** A row of `finalTeamScore`. */
  datatype TeamScoreRow = TeamScoreRow(id: nat, teamId: nat, userId: string, score: int, title: Option<string>,
                                       time: Option<string>, criteria: Criteria, badge: string, trophy: string,
                                       avgPercentage: int)

  /** Points per criterion, 0..2 each. */
  datatype CriteriaPoints = CriteriaPoints(alignmentPoints: int, objectivePoints: int, keyResultPoints: int,
                                           initiativePoints: int, challengePoints: int)

  /** `create`'s response: the stored row without its five raw criterion
      values, plus the points of each criterion and their total. */
  datatype CreateResponse = CreateResponse(id: nat, teamId: nat, userId: string, score: int, title: Option<string>,
                                           time: Option<string>, badge: string, trophy: string, avgPercentage: int,
                                           points: CriteriaPoints, totalPoints: int)

  /** `mapPoints`: [0, 10] is 0, (10, 20] is 1, anything else, negatives
      included, is 2. */
  function MapPoints(v: int): (p: int)
    ensures 0 <= p <= 2
    ensures p == 0 <==> 0 <= v <= 10
    ensures p == 1 <==> 10 < v <= 20
  {
    if v >= 0 && v <= 10 then 0
    else if v > 10 && v <= 20 then 1
    else 2
  }

  /** The `mapPoints` of `getUserScore`: everything up to 10 is 0. */
  function MapPointsUpTo(v: int): (p: int)
    ensures 0 <= p <= 2
    ensures p == 0 <==> v <= 10
    ensures p == 1 <==> 10 < v <= 20
  {
    if v <= 10 then 0 else if v <= 20 then 1 else 2
  }

  /** The two mappings agree on every non-negative value and on no negative one. */
  lemma MapPointsAgree(v: int)
    ensures MapPoints(v) == MapPointsUpTo(v) <==> v >= 0
  {
  }

  /** `assignPoints(value, max)`: 2 at the maximum, 1 from half of it (above the
      maximum included), else 0. */
  function AssignPoints(v: int, max: int): (p: int)
    ensures p == 2 <==> v == max
    ensures p == 1 <==> v != max && 2 * v >= max
    ensures p == 0 <==> v != max && 2 * v < max
  {
    if v == max then 2
    else if 2 * v >= max then 1
    else 0
  }

  /** The points `create` reports, against the maxima 15, 15, 30, 30 and 10. */
  function PointsOf(c: Criteria): (p: CriteriaPoints)
    ensures p.alignmentPoints == AssignPoints(c.alignmentStrategy, 15)
    ensures p.objectivePoints == AssignPoints(c.objectiveClarity, 15)
    ensures p.keyResultPoints == AssignPoints(c.keyResultQuality, 30)
    ensures p.initiativePoints == AssignPoints(c.initiativeRelevance, 30)
    ensures p.challengePoints == AssignPoints(c.challengeAdoption, 10)
  {
    CriteriaPoints(AssignPoints(c.alignmentStrategy, 15), AssignPoints(c.objectiveClarity, 15),
                   AssignPoints(c.keyResultQuality, 30), AssignPoints(c.initiativeRelevance, 30),
                   AssignPoints(c.challengeAdoption, 10))
  }

  function PointsSum(p: CriteriaPoints): int
  {
    p.alignmentPoints + p.objectivePoints + p.keyResultPoints + p.initiativePoints + p.challengePoints
  }

  /** `calculateTotalPoints`: the total of the five assigned points, 0..10, 10
      exactly when every criterion is at its maximum. */
  function CalculateTotalPoints(c: Criteria): (t: int)
    ensures 0 <= t <= 10
    ensures t == PointsSum(PointsOf(c))
    ensures t == 10 <==> c == Criteria(15, 15, 30, 30, 10)
  {
    AssignPoints(c.alignmentStrategy, 15) + AssignPoints(c.objectiveClarity, 15)
      + AssignPoints(c.keyResultQuality, 30) + AssignPoints(c.initiativeRelevance, 30)
      + AssignPoints(c.challengeAdoption, 10)
  }

  /** The criteria mapped by `mapPoints` (`getTeamSummary`, `getTeamLevel`). */
  function MappedPoints(c: Criteria): (p: CriteriaPoints)
    ensures 0 <= PointsSum(p) <= 10
  {
    CriteriaPoints(MapPoints(c.alignmentStrategy), MapPoints(c.objectiveClarity), MapPoints(c.keyResultQuality),
                   MapPoints(c.initiativeRelevance), MapPoints(c.challengeAdoption))
  }

  /** The criteria mapped by `getUserScore`'s own `mapPoints`. */
  function MappedPointsUpTo(c: Criteria): (p: CriteriaPoints)
    ensures 0 <= PointsSum(p) <= 10
  {
    CriteriaPoints(MapPointsUpTo(c.alignmentStrategy), MapPointsUpTo(c.objectiveClarity),
                   MapPointsUpTo(c.keyResultQuality), MapPointsUpTo(c.initiativeRelevance),
                   MapPointsUpTo(c.challengeAdoption))
  }

  /** One `userAverage` entry; `score` None is `'pending'`. */
  datatype MemberScore = MemberScore(userid: string, name: string, avatar: Option<string>, role: string,
                                     score: Option<int>)

  /** `teamAverage`, with every average kept as its exact sum over `count`
      rows; the label fields come from the first row, empty as null. */
  datatype TeamAverage = TeamAverage(count: nat, scoreSum: int, title: Option<string>, time: Option<string>,
                                     badge: Option<string>, trophy: Option<string>, avgPercentageSum: int,
                                     pointsSum: CriteriaPoints, totalPointsSum: int)

  datatype TeamSummary = TeamSummary(teamId: nat, teamAverage: Option<TeamAverage>, userAverage: seq<MemberScore>)

  /** `getUserScore`'s three answers. */
  datatype UserScore =
    | NotMember(message: string)
    | Pending(name: string, avatar: Option<string>, role: string)
    | Scored(name: string, avatar: Option<string>, role: string, score: int, title: Option<string>,
             time: Option<string>, badge: string, trophy: string, avgPercentage: int,
             points: CriteriaPoints, totalPoints: int)

  /** One row of `groupBy({ by: ['teamId'], _avg: { score } })`, the average
      kept as sum over count. */
  datatype TeamAvg = TeamAvg(teamId: nat, sum: int, count: nat)

  /** `getTeamLevel`'s answer; the floating averages and success rate are kept
      as the exact score sum over `count`. */
  datatype TeamLevel = TeamLevel(teamId: nat, teamName: string, count: nat, scoreSum: int, totalPoints: int,
                                 trophyCount: nat, budgetCount: nat, playerAchievements: seq<string>, level: int)

  /** `_avg.score || 0`. */
  function AvgOf(g: TeamAvg): real
  {
    if g.count == 0 then 0.0 else g.sum as real / g.count as real
  }

  /** `allTeams.sort((a, b) => avg(b) - avg(a))`. */
  function AvgDesc(a: TeamAvg, b: TeamAvg): bool { AvgOf(a) >= AvgOf(b) }

  lemma AvgDescTotalPreorder()
    ensures TotalPreorder(AvgDesc)
  {
  }

  function NonEmpty(s: Option<string>): Option<string>
  {
    if s.Some? && s.value != "" then s else None
  }

  function Nullable(s: string): Option<string>
  {
    if s != "" then Some(s) else None
  }

  function OfTeam(teamId: nat): TeamScoreRow -> bool
  {
    (r: TeamScoreRow) => r.teamId == teamId
  }

  function SumScores(rs: seq<TeamScoreRow>): int
  {
    if |rs| == 0 then 0 else rs[0].score + SumScores(rs[1..])
  }

  function SumAvgPercentage(rs: seq<TeamScoreRow>): int
  {
    if |rs| == 0 then 0 else rs[0].avgPercentage + SumAvgPercentage(rs[1..])
  }

  function AddPoints(a: CriteriaPoints, b: CriteriaPoints): CriteriaPoints
  {
    CriteriaPoints(a.alignmentPoints + b.alignmentPoints, a.objectivePoints + b.objectivePoints,
                   a.keyResultPoints + b.keyResultPoints, a.initiativePoints + b.initiativePoints,
                   a.challengePoints + b.challengePoints)
  }

  /** The mapped points of the rows, criterion by criterion. */
  function SumMapped(rs: seq<TeamScoreRow>): (p: CriteriaPoints)
    ensures 0 <= PointsSum(p) <= 10 * |rs|
  {
    if |rs| == 0 then CriteriaPoints(0, 0, 0, 0, 0)
    else AddPoints(MappedPoints(rs[0].criteria), SumMapped(rs[1..]))
  }

  /** `getTeamLevel`'s `totalPoints`: at most 10 per row. */
  function TotalMapped(rs: seq<TeamScoreRow>): (t: int)
    ensures 0 <= t <= 10 * |rs|
  {
    if |rs| == 0 then 0 else PointsSum(MappedPoints(rs[0].criteria)) + TotalMapped(rs[1..])
  }

  function HasTrophy(r: TeamScoreRow): bool { r.trophy != "" }

  function HasBadge(r: TeamScoreRow): bool { r.badge != "" }

  /** `scores.map(s => s.title).filter(t => !!t)`. */
  function Titles(rs: seq<TeamScoreRow>): (t: seq<string>)
    ensures |t| == CountWhere(rs, HasTitle) <= |rs|
    ensures forall i :: 0 <= i < |t| ==> t[i] != "" && t[i] == Filter(rs, HasTitle)[i].title.value
  {
    if |rs| == 0 then []
    else (if rs[0].title.Some? && rs[0].title.value != "" then [rs[0].title.value] else []) + Titles(rs[1..])
  }

  /** A row whose title survives `.filter(t => !!t)`. */
  function HasTitle(r: TeamScoreRow): bool { r.title.Some? && r.title.value != "" }

  /** `getPlayerRanking`: the summed-score leaderboard with the top label
      "Master". */
  function PlayerRanking(groups: seq<GroupSum>, users: seq<UserInfo>, viewer: string)
    : (b: Option<Board<RankedEntry>>)
    ensures b.None? <==> |groups| == 0
    ensures b.Some? ==> b.value.topThree + b.value.remaining == RankGroups(groups, users, "Master")
    ensures b.Some? ==> |b.value.topThree| == if |groups| < 3 then |groups| else 3
    ensures b.Some? ==> (b.value.userDetails.Some? <==> exists g :: g in groups && g.userId == viewer)
  {
    SumRanking(groups, users, "Master", viewer)
  }

  /** A member's `userAverage` entry: the score of its first row among the
      team's rows, or pending. */
  function MemberEntry(m: Team.MemberRow, scores: seq<TeamScoreRow>, users: seq<UserInfo>): (e: MemberScore)
    ensures e.role == m.role && e.name == DisplayName(users, m.userId)
    ensures e.score.None? <==> forall j :: 0 <= j < |scores| ==> scores[j].userId != m.userId
    ensures e.score.Some? ==> exists j :: 0 <= j < |scores| && scores[j].userId == m.userId && scores[j].score == e.score.value
  {
    var u := UserById(users, m.userId);
    var mine := FirstIndex(scores, (r: TeamScoreRow) => r.userId == m.userId);
    MemberScore(if u.Some? && u.value.id != "" then u.value.id else "Unknown",
                DisplayName(users, m.userId), DisplayAvatar(users, m.userId), m.role,
                if mine.Some? then Some(scores[mine.value].score) else None)
  }

  class FinalTeamScoreService {
    var rows: seq<TeamScoreRow>
    var nextId: nat

    ghost predicate Valid()
      reads this
    {
      && (forall i :: 0 <= i < |rows| ==> rows[i].id < nextId)
      && (forall i, j :: 0 <= i < j < |rows| ==> rows[i].id != rows[j].id)
    }

    constructor ()
      ensures Valid() && rows == [] && nextId == 0
    {
      rows := [];
      nextId := 0;
    }

    /** `create`: stores the row with its reward and criterion sum; answers
        without the raw criteria and with the points and their total. */
    method Create(dto: NewTeamScore) returns (resp: CreateResponse)
      requires Valid()
      modifies this
      ensures Valid() && nextId == old(nextId) + 1
      ensures var c := dto.criteria;
        rows == old(rows) + [TeamScoreRow(old(nextId), dto.teamId, dto.userId, dto.score, dto.title, dto.time, c,
          AssignRewards(dto.score).badge, AssignRewards(dto.score).trophy,
          c.alignmentStrategy + c.objectiveClarity + c.keyResultQuality + c.initiativeRelevance + c.challengeAdoption)]
      ensures resp.id == old(nextId) && resp.teamId == dto.teamId && resp.userId == dto.userId
      ensures resp.score == dto.score && Rewards(resp.badge, resp.trophy) == AssignRewards(dto.score)
      ensures resp.points == PointsOf(dto.criteria)
      ensures resp.totalPoints == PointsSum(resp.points) == CalculateTotalPoints(dto.criteria)
    {
      var rw := AssignRewards(dto.score);
      var c := dto.criteria;
      var total := c.alignmentStrategy + c.objectiveClarity + c.keyResultQuality + c.initiativeRelevance
        + c.challengeAdoption;
      var saved := TeamScoreRow(nextId, dto.teamId, dto.userId, dto.score, dto.title, dto.time, c,
                                rw.badge, rw.trophy, total);
      rows := rows + [saved];
      nextId := nextId + 1;
      resp := CreateResponse(saved.id, saved.teamId, saved.userId, saved.score, saved.title, saved.time,
                             saved.badge, saved.trophy, saved.avgPercentage, PointsOf(c), CalculateTotalPoints(c));
    }

    /** `getTeamSummary`: one entry per member of the team, in membership
        order, with the member's first score of the team or pending; the
        team figures are null without any row. */
    function TeamSummaryOf(teamId: nat, members: seq<Team.MemberRow>, users: seq<UserInfo>): (s: TeamSummary)
      reads this
      ensures s.teamId == teamId
      ensures s.teamAverage.None? <==> forall i :: 0 <= i < |rows| ==> rows[i].teamId != teamId
      ensures s.teamAverage.Some? ==> s.teamAverage.value.count == CountWhere(rows, OfTeam(teamId))
      ensures |s.userAverage| == CountWhere(members, Team.InTeam(teamId))
      ensures forall i :: 0 <= i < |s.userAverage| ==>
        s.userAverage[i] == MemberEntry(Filter(members, Team.InTeam(teamId))[i], Filter(rows, OfTeam(teamId)), users)
    {
      var ms := Filter(members, Team.InTeam(teamId));
      var scores := Filter(rows, OfTeam(teamId));
      var entries := seq(|ms|, i requires 0 <= i < |ms| => MemberEntry(ms[i], scores, users));
      var avg := if |scores| == 0 then None
        else Some(TeamAverage(|scores|, SumScores(scores), NonEmpty(scores[0].title), NonEmpty(scores[0].time),
                              Nullable(scores[0].badge), Nullable(scores[0].trophy), SumAvgPercentage(scores),
                              SumMapped(scores), TotalMapped(scores)));
      TeamSummary(teamId, avg, entries)
    }

    /** `getUserScore`: a message for a non-member, pending for a member
        without a row, else the first row with its criteria mapped to points. */
    function UserScoreOf(teamId: nat, userId: string, members: seq<Team.MemberRow>, users: seq<UserInfo>)
      : (r: UserScore)
      reads this
      ensures r.NotMember? <==> Team.FindMember(members, teamId, userId).None?
      ensures r.Pending? <==> (Team.FindMember(members, teamId, userId).Some?
        && forall j :: 0 <= j < |rows| ==> !(rows[j].teamId == teamId && rows[j].userId == userId))
      ensures r.Scored? ==> exists j :: (0 <= j < |rows| && rows[j].teamId == teamId && rows[j].userId == userId
        && rows[j].score == r.score && r.points == MappedPointsUpTo(rows[j].criteria))
      ensures r.Scored? ==> r.totalPoints == PointsSum(r.points) && 0 <= r.totalPoints <= 10
    {
      match Team.FindMember(members, teamId, userId)
      case None => NotMember("User not part of this team")
      case Some(k) =>
        var role := members[k].role;
        match FirstIndex(rows, (s: TeamScoreRow) => s.teamId == teamId && s.userId == userId)
        case None => Pending(DisplayName(users, userId), DisplayAvatar(users, userId), role)
        case Some(j) =>
          var s := rows[j];
          var p := MappedPointsUpTo(s.criteria);
          Scored(DisplayName(users, userId), DisplayAvatar(users, userId), role, s.score, s.title, s.time,
                 s.badge, s.trophy, s.avgPercentage, p, PointsSum(p))
    }

    /** `getTeamLevel`: null for an unknown team or a team without rows;
        otherwise the counts over its rows and its 1-based position among
        the teams by average, 0 when the grouping does not list it. */
    function TeamLevelOf(teamId: nat, teams: seq<Team.TeamRow>, allTeams: seq<TeamAvg>): (r: Option<TeamLevel>)
      reads this
      ensures r.Some? <==> Team.FindTeam(teams, teamId).Some? && exists j :: 0 <= j < |rows| && rows[j].teamId == teamId
      ensures r.Some? ==> r.value.count == CountWhere(rows, OfTeam(teamId)) > 0
      ensures r.Some? ==> r.value.trophyCount == CountWhere(Filter(rows, OfTeam(teamId)), HasTrophy)
      ensures r.Some? ==> r.value.budgetCount == CountWhere(Filter(rows, OfTeam(teamId)), HasBadge)
      ensures r.Some? ==> r.value.trophyCount <= r.value.count && r.value.budgetCount <= r.value.count
      ensures r.Some? ==> 0 <= r.value.totalPoints <= 10 * r.value.count
      ensures r.Some? ==> (r.value.level == 0 <==> forall g :: g in allTeams ==> g.teamId != teamId)
      ensures r.Some? && r.value.level > 0 ==>
        var sorted := SortBy(allTeams, AvgDesc);
        && r.value.level <= |allTeams|
        && sorted[r.value.level - 1].teamId == teamId
        && forall i :: 0 <= i < r.value.level - 1 ==> sorted[i].teamId != teamId
    {
      match Team.FindTeam(teams, teamId)
      case None => None
      case Some(k) =>
        var scores := Filter(rows, OfTeam(teamId));
        if |scores| == 0 then None
        else
          TeamRowsPresent(rows, teamId);
          Some(TeamLevel(teamId, teams[k].title, |scores|, SumScores(scores), TotalMapped(scores),
                         CountWhere(scores, HasTrophy), CountWhere(scores, HasBadge), Titles(scores),
                         RankLevel(allTeams, teamId)))
    }
  }

  /** A team has score rows exactly when one of the rows names it. */
  lemma {:induction false} TeamRowsPresent(rows: seq<TeamScoreRow>, teamId: nat)
    ensures |Filter(rows, OfTeam(teamId))| > 0 <==> exists j :: 0 <= j < |rows| && rows[j].teamId == teamId
  {
    var scores := Filter(rows, OfTeam(teamId));
    if |scores| > 0 {
      assert scores[0] in rows && OfTeam(teamId)(scores[0]);
      var j :| 0 <= j < |rows| && rows[j] == scores[0];
    }
    if exists j :: 0 <= j < |rows| && rows[j].teamId == teamId {
      var j :| 0 <= j < |rows| && rows[j].teamId == teamId;
      assert OfTeam(teamId)(rows[j]);
    }
  }

  /** The team's 1-based place among the teams sorted by descending
      average, or 0 when it has no average. */
  function RankLevel(allTeams: seq<TeamAvg>, teamId: nat): (level: nat)
    ensures level == 0 <==> forall g :: g in allTeams ==> g.teamId != teamId
    ensures level > 0 ==>
      var sorted := SortBy(allTeams, AvgDesc);
      && level <= |allTeams|
      && sorted[level - 1].teamId == teamId
      && forall i :: 0 <= i < level - 1 ==> sorted[i].teamId != teamId
  {
    var sorted := SortBy(allTeams, AvgDesc);
    SortBySameElements(allTeams, AvgDesc);
    var idx := FirstIndex(sorted, (g: TeamAvg) => g.teamId == teamId);
    if idx.Some? then
      assert sorted[idx.value] in allTeams;
      idx.value + 1
    else 0
  }

  /** The teams `getTeamLevel` ranks are in descending average order, so a
      better level never has a lower average. */
  lemma TeamLevelsByAverage(allTeams: seq<TeamAvg>)
    ensures var sorted := SortBy(allTeams, AvgDesc);
      forall i, j :: 0 <= i < j < |sorted| ==> AvgOf(sorted[i]) >= AvgOf(sorted[j])
  {
    AvgDescTotalPreorder();
    SortBySorted(allTeams, AvgDesc);
  }
}
