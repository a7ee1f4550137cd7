/** The pieces the mode rankings share: the per-user sums a `groupBy` returns,
    the display lookups with their fallbacks, and the ranked entry built from
    a group at a given position. */
module Leaderboard {
  import opened Common

  /** A user as the rankings select it. */
  datatype UserInfo = UserInfo(id: string, name: string, avatarPicId: Option<string>)

  /** One row of `groupBy({ by: ['userId'], _sum, _count })`. */
  datatype GroupSum = GroupSum(userId: string, sum: int, count: nat)

  /** One entry of a leaderboard. */
  datatype RankedEntry = RankedEntry(userId: string, name: string, avatarPicId: Option<string>,
                                     totalScore: int, level: string, rank: int)

  function UserById(users: seq<UserInfo>, id: string): (r: Option<UserInfo>)
    ensures r.Some? ==> r.value in users && r.value.id == id
    ensures r.None? ==> forall u :: u in users ==> u.id != id
  {
    Find(users, (u: UserInfo) => u.id == id)
  }

  /** `u` is the only listed user with its id, as a primary key makes it. */
  predicate ListedOnce(users: seq<UserInfo>, u: UserInfo)
  {
    forall v :: v in users && v.id == u.id ==> v == u
  }

  /** `user?.name || 'Unknown'`. */
  function DisplayName(users: seq<UserInfo>, id: string): (n: string)
    ensures n != ""
    ensures n != "Unknown" ==> exists u :: u in users && u.id == id && u.name == n
    ensures (forall u :: u in users ==> u.id != id) ==> n == "Unknown"
    ensures forall u :: u in users && u.id == id && ListedOnce(users, u) ==>
      n == if u.name != "" then u.name else "Unknown"
  {
    match UserById(users, id)
    case Some(u) => if u.name != "" then u.name else "Unknown"
    case None => "Unknown"
  }

  /** `user?.avatarPicId || null`. */
  function DisplayAvatar(users: seq<UserInfo>, id: string): (a: Option<string>)
    ensures a.Some? ==> a.value != "" && exists u :: u in users && u.id == id && u.avatarPicId == a
    ensures forall u :: u in users && u.id == id && ListedOnce(users, u) ==>
      a == if u.avatarPicId.Some? && u.avatarPicId.value != "" then u.avatarPicId else None
  {
    match UserById(users, id)
    case Some(u) => if u.avatarPicId.Some? && u.avatarPicId.value != "" then u.avatarPicId else None
    case None => None
  }

  /** `getLevel(totalScore, recordCount)` of the rankings, with the top label
      of the mode. */
  function LevelLabel(total: int, count: nat, master: string): (l: string)
  {
    BandLabel(PercentBand(Percentage(total, count)), master)
  }

  /** A user whose every record scored 100 is at the top band. */
  lemma AllPerfectIsMaster(count: nat)
    requires count > 0
    ensures Percentage(100 * count, count) == 100
    ensures LevelLabel(100 * count, count, "Master") == "Master"
  {
    var p := Percentage(100 * count, count);
    RoundDivBounds(100 * count, count);
    var c2 := 2 * count;
    assert c2 * p <= c2 * 100 + count < c2 * (p + 1);
    if p < 100 {
      MulMonotone(c2, p + 1, 100);
    } else if p > 100 {
      MulMonotone(c2, 101, p);
    }
  }

  /** The label is the mode's top label exactly at a rounded 100 percent (the
      other labels are fixed words the mode's own label differs from). */
  lemma LevelLabelTop(total: int, count: nat, master: string)
    requires master !in ["Expert", "Advanced", "Competent", "Beginner", "Novice"]
    ensures LevelLabel(total, count, master) == master <==> Percentage(total, count) == 100
  {
  }

  /** `usersScores.map((s, index) => ({ ..., rank: index + 1 }))`. */
  function RankGroups(groups: seq<GroupSum>, users: seq<UserInfo>, master: string): (r: seq<RankedEntry>)
    ensures |r| == |groups|
    ensures forall i :: 0 <= i < |r| ==>
      && r[i].rank == i + 1
      && r[i].userId == groups[i].userId
      && r[i].totalScore == groups[i].sum
      && r[i].level == LevelLabel(groups[i].sum, groups[i].count, master)
      && r[i].name == DisplayName(users, groups[i].userId)
      && r[i].avatarPicId == DisplayAvatar(users, groups[i].userId)
  {
    seq(|groups|, i requires 0 <= i < |groups| =>
      var s := groups[i];
      RankedEntry(s.userId, DisplayName(users, s.userId), DisplayAvatar(users, s.userId),
                  s.sum, LevelLabel(s.sum, s.count, master), i + 1))
  }

  /** The order `orderBy: { _sum: { score: 'desc' } }` promises. */
  ghost predicate SumsDescending(groups: seq<GroupSum>)
  {
    forall i, j :: 0 <= i < j < |groups| ==> groups[i].sum >= groups[j].sum
  }

  /** On groups in descending-sum order, a better rank never has a lower total,
      and ranks run 1, 2, ..., n. */
  lemma RankedInOrder(groups: seq<GroupSum>, users: seq<UserInfo>, master: string)
    requires SumsDescending(groups)
    ensures var r := RankGroups(groups, users, master);
      forall i, j :: 0 <= i < j < |r| ==> r[i].rank < r[j].rank && r[i].totalScore >= r[j].totalScore
  {
  }

  /** The leaderboard of a mode that ranks by summed score: null without any
      group, else the ranked list split into top three, the rest and the
      viewer's entry. */
  function SumRanking(groups: seq<GroupSum>, users: seq<UserInfo>, master: string, viewer: string)
    : (b: Option<Board<RankedEntry>>)
    ensures b.None? <==> |groups| == 0
    ensures b.Some? ==> b.value.topThree + b.value.remaining == RankGroups(groups, users, master)
    ensures b.Some? ==> |b.value.topThree| == if |groups| < 3 then |groups| else 3
    ensures b.Some? ==> (b.value.userDetails.Some? <==> exists g :: g in groups && g.userId == viewer)
    ensures b.Some? && b.value.userDetails.Some? ==>
      b.value.userDetails.value.userId == viewer && b.value.userDetails.value in RankGroups(groups, users, master)
  {
    if |groups| == 0 then None
    else
      var ranked := RankGroups(groups, users, master);
      var b := SplitBoard(ranked, (e: RankedEntry) => e.userId == viewer);
      ViewerRanked(groups, users, master, viewer);
      Some(b)
  }

  /** The viewer has a ranked entry exactly when one of the groups is theirs. */
  lemma ViewerRanked(groups: seq<GroupSum>, users: seq<UserInfo>, master: string, viewer: string)
    ensures (exists g :: g in groups && g.userId == viewer)
      <==> exists e :: e in RankGroups(groups, users, master) && e.userId == viewer
  {
    SameUsersSameViewer(groups, RankGroups(groups, users, master), viewer);
  }

  /** Entries naming the groups' users position by position contain the
      viewer exactly when the groups do. */
  lemma SameUsersSameViewer(groups: seq<GroupSum>, ranked: seq<RankedEntry>, viewer: string)
    requires |ranked| == |groups|
    requires forall i :: 0 <= i < |groups| ==> ranked[i].userId == groups[i].userId
    ensures (exists g :: g in groups && g.userId == viewer) <==> exists e :: e in ranked && e.userId == viewer
  {
    if exists g :: g in groups && g.userId == viewer {
      var g :| g in groups && g.userId == viewer;
      var i :| 0 <= i < |groups| && groups[i] == g;
      assert ranked[i] in ranked && ranked[i].userId == viewer;
    }
    if exists e :: e in ranked && e.userId == viewer {
      var e :| e in ranked && e.userId == viewer;
      var i :| 0 <= i < |ranked| && ranked[i] == e;
      assert groups[i] in groups && groups[i].userId == viewer;
    }
  }
}
