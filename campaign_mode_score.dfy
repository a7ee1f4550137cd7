/** Campaign-mode results: one row per played campaign level, the newest
    result of a user, and the campaign leaderboard, whose rows may lack a
    user. */
module CampaignModeScore {
  import opened Common
  import opened Sorting
  import opened Leaderboard

  /** The submitted result; the criterion scores, sector, role and the
      evaluation texts other than `strengths` are carried through unread and
      are not represented. */
  datatype CampaignScore = CampaignScore(userId: Option<string>, campaignId: int, level: int,
                                         totalScore: Option<int>, strengths: string)

  /** A stored row: the store adds the id and the creation time. */
  datatype CampaignRow = CampaignRow(id: nat, createdAt: int, data: CampaignScore)

  /** One row of the `groupBy` over `userId`: the key and the sum may be null. */
  datatype CampaignGroup = CampaignGroup(userId: Option<string>, sum: Option<int>, count: nat)

  const MasterLabel := "Master / Navigator Certified"

  function OfUser(userId: string): CampaignRow -> bool
  {
    (r: CampaignRow) => r.data.userId == Some(userId)
  }

  function NewerOrSame(a: CampaignRow, b: CampaignRow): bool { a.createdAt >= b.createdAt }

  lemma NewerOrSameTotalPreorder()
    ensures TotalPreorder(NewerOrSame)
  {
  }

  /** `findFirst({ where: { userId }, orderBy: { createdAt: 'desc' } })` over
      a table. */
  function LatestOf(rows: seq<CampaignRow>, userId: string): (r: Option<CampaignRow>)
    ensures r.None? <==> forall x :: x in rows ==> x.data.userId != Some(userId)
    ensures r.Some? ==> r.value in rows && r.value.data.userId == Some(userId)
    ensures r.Some? ==> forall x :: x in rows && x.data.userId == Some(userId) ==> r.value.createdAt >= x.createdAt
  {
    var mine := Filter(rows, OfUser(userId));
    NewerOrSameTotalPreorder();
    assert forall x :: x in rows && x.data.userId == Some(userId) ==> x in mine by {
      forall x | x in rows && x.data.userId == Some(userId) ensures x in mine {
        var i :| 0 <= i < |rows| && rows[i] == x;
        assert OfUser(userId)(rows[i]);
      }
    }
    FirstBy(mine, NewerOrSame)
  }

  /** JavaScript truthiness of the group key. */
  predicate Named(g: CampaignGroup)
  {
    g.userId.Some? && |g.userId.value| > 0
  }

  function KeyOf(g: CampaignGroup): string
  {
    if g.userId.Some? then g.userId.value else ""
  }

  /** The entry of a named group at 1-based position `rank`. */
  function EntryAt(g: CampaignGroup, users: seq<UserInfo>, rank: int): (e: RankedEntry)
    ensures e.rank == rank && e.userId == KeyOf(g)
  {
    var id := KeyOf(g);
    var total := if g.sum.Some? then g.sum.value else 0;
    RankedEntry(id, DisplayName(users, id), DisplayAvatar(users, id), total, LevelLabel(total, g.count, MasterLabel), rank)
  }

  /** Positions, from `from` on, of the groups that survive `filter(Boolean)`,
      in increasing order. */
  function NamedPositions(groups: seq<CampaignGroup>, from: nat): (r: seq<nat>)
    requires from <= |groups|
    ensures |r| == CountWhere(groups[from..], Named)
    ensures forall k :: 0 <= k < |r| ==> from <= r[k] < |groups| && Named(groups[r[k]])
    ensures forall k, l :: 0 <= k < l < |r| ==> r[k] < r[l]
    decreases |groups| - from
  {
    if from == |groups| then []
    else
      assert groups[from..][1..] == groups[from + 1..];
      (if Named(groups[from]) then [from] else []) + NamedPositions(groups, from + 1)
  }

  /** Every named group from `from` on has its position listed. */
  lemma {:induction false} NamedPositionsCover(groups: seq<CampaignGroup>, from: nat)
    requires from <= |groups|
    ensures forall i :: from <= i < |groups| && Named(groups[i]) ==> i in NamedPositions(groups, from)
    decreases |groups| - from
  {
    if from < |groups| {
      NamedPositionsCover(groups, from + 1);
    }
  }

  /** The entries of the groups at the given positions, each ranked by its
      position among all groups. */
  function EntriesAt(groups: seq<CampaignGroup>, users: seq<UserInfo>, pos: seq<nat>): (r: seq<RankedEntry>)
    requires forall k :: 0 <= k < |pos| ==> pos[k] < |groups|
    ensures |r| == |pos|
    ensures forall k :: 0 <= k < |r| ==> r[k].rank == pos[k] + 1 && r[k] == EntryAt(groups[pos[k]], users, pos[k] + 1)
  {
    if |pos| == 0 then []
    else [EntryAt(groups[pos[0]], users, pos[0] + 1)] + EntriesAt(groups, users, pos[1..])
  }

  /** `usersScores.map((s, index) => !s.userId ? null : {..., rank: index + 1}).filter(Boolean)`:
      the rank is taken before the unnamed groups are dropped. */
  function RankNamed(groups: seq<CampaignGroup>, users: seq<UserInfo>): seq<RankedEntry>
  {
    EntriesAt(groups, users, NamedPositions(groups, 0))
  }

  /** One entry per named group. */
  lemma RankNamedCount(groups: seq<CampaignGroup>, users: seq<UserInfo>)
    ensures |RankNamed(groups, users)| == CountWhere(groups, Named)
  {
    assert groups[0..] == groups;
  }

  /** Every entry is the entry of a named group, ranked by that group's
      position among all groups. */
  lemma {:induction false} RankNamedEntries(groups: seq<CampaignGroup>, users: seq<UserInfo>)
    ensures var r := RankNamed(groups, users);
      forall k :: 0 <= k < |r| ==>
        && 1 <= r[k].rank <= |groups|
        && Named(groups[r[k].rank - 1])
        && r[k] == EntryAt(groups[r[k].rank - 1], users, r[k].rank)
  {
    var r := RankNamed(groups, users);
    forall k | 0 <= k < |r|
      ensures 1 <= r[k].rank <= |groups| && Named(groups[r[k].rank - 1]) && r[k] == EntryAt(groups[r[k].rank - 1], users, r[k].rank)
    {
      RankNamedAt(groups, users, k);
    }
  }

  /** The k-th entry, on its own. */
  lemma {:induction false} RankNamedAt(groups: seq<CampaignGroup>, users: seq<UserInfo>, k: nat)
    requires k < |RankNamed(groups, users)|
    ensures var e := RankNamed(groups, users)[k];
      && 1 <= e.rank <= |groups|
      && Named(groups[e.rank - 1])
      && e == EntryAt(groups[e.rank - 1], users, e.rank)
      && groups[e.rank - 1].userId == Some(e.userId)
  {
    var pos := NamedPositions(groups, 0);
    var r := EntriesAt(groups, users, pos);
    assert RankNamed(groups, users) == r;
    var p := pos[k];
    assert p < |groups| && Named(groups[p]);
    var e := r[k];
    assert e == EntryAt(groups[p], users, p + 1);
    assert e.rank == p + 1;
    assert groups[e.rank - 1] == groups[p];
    assert EntryAt(groups[e.rank - 1], users, e.rank) == EntryAt(groups[p], users, p + 1);
    assert e.userId == KeyOf(groups[p]);
  }

  /** Ranks strictly increase along the list, so numbers can be skipped but
      never repeated. */
  lemma {:induction false} RankNamedIncreasing(groups: seq<CampaignGroup>, users: seq<UserInfo>)
    ensures var r := RankNamed(groups, users);
      forall k, l :: 0 <= k < l < |r| ==> r[k].rank < r[l].rank
  {
    var pos := NamedPositions(groups, 0);
    var r := RankNamed(groups, users);
    forall k, l | 0 <= k < l < |r| ensures r[k].rank < r[l].rank {
      assert pos[k] < pos[l];
    }
  }

  /** Every named group has an entry carrying its position as rank. */
  lemma {:induction false} RankNamedCovers(groups: seq<CampaignGroup>, users: seq<UserInfo>)
    ensures var r := RankNamed(groups, users);
      forall i :: 0 <= i < |groups| && Named(groups[i]) ==> exists k :: 0 <= k < |r| && r[k].rank == i + 1
  {
    var pos := NamedPositions(groups, 0);
    var r := RankNamed(groups, users);
    NamedPositionsCover(groups, 0);
    forall i | 0 <= i < |groups| && Named(groups[i]) ensures exists k :: 0 <= k < |r| && r[k].rank == i + 1 {
      var k :| 0 <= k < |pos| && pos[k] == i;
      assert r[k].rank == i + 1;
    }
  }

  /** `getUserCampaignRanking`: null without any group; otherwise the named
      groups ranked by their position among all groups and split into top
      three, the rest and the viewer's entry. */
  function UserCampaignRanking(groups: seq<CampaignGroup>, users: seq<UserInfo>, viewer: string)
    : (b: Option<Board<RankedEntry>>)
    ensures b.None? <==> |groups| == 0
    ensures b.Some? ==> b.value.topThree + b.value.remaining == RankNamed(groups, users)
    ensures b.Some? ==> |b.value.topThree| == if CountWhere(groups, Named) < 3 then CountWhere(groups, Named) else 3
    ensures b.Some? ==> (b.value.userDetails.Some? <==> exists i :: 0 <= i < |groups| && Named(groups[i]) && groups[i].userId == Some(viewer))
    ensures b.Some? && b.value.userDetails.Some? ==> b.value.userDetails.value.userId == viewer
  {
    if |groups| == 0 then None
    else
      var ranked := RankNamed(groups, users);
      RankNamedCount(groups, users);
      ViewerHasEntry(groups, users, viewer);
      Some(SplitBoard(ranked, (e: RankedEntry) => e.userId == viewer))
  }

  /** The viewer has an entry exactly when a named group carries their id. */
  lemma {:induction false} ViewerHasEntry(groups: seq<CampaignGroup>, users: seq<UserInfo>, viewer: string)
    ensures (exists i :: 0 <= i < |groups| && Named(groups[i]) && groups[i].userId == Some(viewer))
        <==> (exists e :: e in RankNamed(groups, users) && e.userId == viewer)
  {
    if exists i :: 0 <= i < |groups| && Named(groups[i]) && groups[i].userId == Some(viewer) {
      var i :| 0 <= i < |groups| && Named(groups[i]) && groups[i].userId == Some(viewer);
      NamedGroupHasEntry(groups, users, i);
    }
    if exists e :: e in RankNamed(groups, users) && e.userId == viewer {
      var e :| e in RankNamed(groups, users) && e.userId == viewer;
      EntryHasNamedGroup(groups, users, e);
    }
  }

  lemma {:induction false} NamedGroupHasEntry(groups: seq<CampaignGroup>, users: seq<UserInfo>, i: nat)
    requires i < |groups| && Named(groups[i])
    ensures exists e :: e in RankNamed(groups, users) && e.userId == groups[i].userId.value
  {
    var ranked := RankNamed(groups, users);
    RankNamedCovers(groups, users);
    RankNamedEntries(groups, users);
    var k :| 0 <= k < |ranked| && ranked[k].rank == i + 1;
    assert ranked[k] in ranked;
  }

  lemma {:induction false} EntryHasNamedGroup(groups: seq<CampaignGroup>, users: seq<UserInfo>, e: RankedEntry)
    requires e in RankNamed(groups, users)
    ensures 1 <= e.rank <= |groups| && Named(groups[e.rank - 1]) && groups[e.rank - 1].userId == Some(e.userId)
  {
    var ranked := RankNamed(groups, users);
    var k :| 0 <= k < |ranked| && ranked[k] == e;
    RankNamedAt(groups, users, k);
  }

  /** An unnamed group ahead of a named one leaves a gap: the only entry is
      ranked 2. */
  lemma RankSkipsUnnamedGroup(g: CampaignGroup, users: seq<UserInfo>)
    requires Named(g)
    ensures var r := RankNamed([CampaignGroup(None, Some(0), 1), g], users);
      |r| == 1 && r[0].rank == 2
  {
    var gs := [CampaignGroup(None, Some(0), 1), g];
    assert gs[1..] == [g];
    assert gs[2..] == [];
    assert NamedPositions(gs, 2) == [];
    assert NamedPositions(gs, 1) == [1];
    assert NamedPositions(gs, 0) == [1];
  }

  class CampaignScoreStore {
    var rows: seq<CampaignRow>
    var nextId: nat

    ghost predicate Valid()
      reads this
    {
      forall i :: 0 <= i < |rows| ==> rows[i].id < nextId
    }

    constructor ()
      ensures Valid() && rows == [] && nextId == 0
    {
      rows := [];
      nextId := 0;
    }

    /** `create`: the result is stored unchanged, under a new id and the
        current time. */
    method Create(data: CampaignScore, now: int) returns (row: CampaignRow)
      requires Valid()
      modifies this
      ensures Valid()
      ensures row == CampaignRow(old(nextId), now, data) && rows == old(rows) + [row]
      ensures forall i :: 0 <= i < |old(rows)| ==> old(rows)[i].id != row.id
    {
      row := CampaignRow(nextId, now, data);
      rows := rows + [row];
      nextId := nextId + 1;
    }

    /** `findLatestByUser`. */
    function FindLatestByUser(userId: string): (r: Option<CampaignRow>)
      reads this
      ensures r.None? <==> forall x :: x in rows ==> x.data.userId != Some(userId)
      ensures r.Some? ==> r.value in rows && r.value.data.userId == Some(userId)
      ensures r.Some? ==> forall x :: x in rows && x.data.userId == Some(userId) ==> r.value.createdAt >= x.createdAt
    {
      LatestOf(rows, userId)
    }
  }
}
