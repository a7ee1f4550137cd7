/** User administration and the profile page: listing, blocking and deleting
    users, and a user's XP, level and global rank. */
module Users {
  import opened Common
  import opened Sorting
  import opened PointAdjustment
  import opened LevelLookup
  import Challenges

  datatype User = User(id: string, name: string, role: string, isBlocked: bool)

  /** One row of the raw leaderboard query: a user and the sum of their solo,
      team, challenge and bonus scores. */
  datatype LeaderRow = LeaderRow(userId: string, total: int)

  /** The four XP streams, each `_sum || 0`. */
  datatype XpParts = XpParts(solo: int, team: int, challenge: int, bonus: int)

  datatype Profile = Profile(user: User, total: int, level: int, title: string,
                             globalRank: int, totalUsers: nat, certificates: nat, meta: XpParts)

  function IsNotAdmin(u: User): bool { u.role != "admin" }

  function NotPlayer(id: string): Challenges.Invitation -> bool
  {
    (v: Challenges.Invitation) => v.playerId != id
  }

  function NotHost(id: string): Challenges.Challenge -> bool
  {
    (c: Challenges.Challenge) => c.hostId != id
  }

  function HasId(id: string): User -> bool
  {
    (u: User) => u.id == id
  }

  function FindUser(users: seq<User>, id: string): (r: Option<nat>)
    ensures r.Some? ==> r.value < |users| && users[r.value].id == id
    ensures r.None? ==> forall i :: 0 <= i < |users| ==> users[i].id != id
  {
    FirstIndex(users, HasId(id))
  }

  ghost predicate DistinctUserIds(users: seq<User>)
  {
    forall i, j :: 0 <= i < j < |users| ==> users[i].id != users[j].id
  }

  /** Removing the user at `k` from a table of distinct ids leaves distinct
      ids, none of them that user's. */
  lemma {:induction false} RemoveAtDistinct(users: seq<User>, k: nat)
    requires DistinctUserIds(users)
    requires k < |users|
    ensures var rest := users[..k] + users[k + 1..];
      && DistinctUserIds(rest)
      && forall i :: 0 <= i < |rest| ==> rest[i].id != users[k].id
  {
    var rest := users[..k] + users[k + 1..];
    assert forall i :: 0 <= i < |rest| ==> rest[i] == users[if i < k then i else i + 1];
  }

  /** `toggleBlock`'s update on the table: the user's `isBlocked` flipped. */
  function Toggled(users: seq<User>, id: string): (r: seq<User>)
    ensures |r| == |users|
    ensures forall i :: 0 <= i < |users| && users[i].id != id ==> r[i] == users[i]
    ensures forall i :: 0 <= i < |users| ==> r[i].id == users[i].id
    ensures FindUser(users, id).None? ==> r == users
    ensures FindUser(users, id).Some? ==>
      var k := FindUser(users, id).value;
      && r[k].isBlocked == !users[k].isBlocked
      && r[k].name == users[k].name && r[k].role == users[k].role
      && forall i :: 0 <= i < |users| && i != k ==> r[i] == users[i]
  {
    match FindUser(users, id)
    case None => users
    case Some(k) => users[k := users[k].(isBlocked := !users[k].isBlocked)]
  }

  /** Toggling twice restores the table. */
  lemma ToggleTwiceRestores(users: seq<User>, id: string)
    ensures Toggled(Toggled(users, id), id) == users
  {
    match FindUser(users, id)
    case None =>
    case Some(k) =>
      var once := Toggled(users, id);
      assert forall i :: 0 <= i < |users| ==> once[i].id == users[i].id;
      assert FindUser(once, id) == Some(k) by {
        FirstIndexSameKeys(users, once, id);
      }
  }

  /** Tables with the same ids in the same places find a user at the same
      place. */
  lemma {:induction false} FirstIndexSameKeys(a: seq<User>, b: seq<User>, id: string)
    requires |a| == |b|
    requires forall i :: 0 <= i < |a| ==> a[i].id == b[i].id
    ensures FindUser(a, id) == FindUser(b, id)
  {
    if |a| > 0 && a[0].id != id {
      FirstIndexSameKeys(a[1..], b[1..], id);
    }
  }

  /** The profile's level: the tier with the greatest start the XP reaches,
      with `level || 1` and `title || 'Newcomer'`. */
  function ProfileLevel(tiers: seq<Tier>, xp: int): (d: LevelData)
    ensures d.levelNumber != 0 && d.levelTitle != ""
    ensures (forall t :: t in tiers ==> t.xpRangeStart > xp) ==> d == LevelData(1, "Newcomer")
    ensures (exists t :: t in tiers && t.xpRangeStart <= xp) ==>
      exists t :: t in tiers && t.xpRangeStart <= xp
        && d == LevelData(if t.level == 0 then 1 else t.level, if t.title == "" then "Newcomer" else t.title)
        && forall u :: u in tiers && u.xpRangeStart <= xp ==> u.xpRangeStart <= t.xpRangeStart
  {
    var d := LevelDataFromXp(tiers, xp);
    LevelData(if d.levelNumber == 0 then 1 else d.levelNumber, if d.levelTitle == "" then "Newcomer" else d.levelTitle)
  }

  /** `rankIndex >= 0 ? rankIndex + 1 : totalUsers`. */
  function GlobalRank(board: seq<LeaderRow>, userId: string, totalUsers: nat): (r: int)
    ensures (exists i :: 0 <= i < |board| && board[i].userId == userId) ==>
      1 <= r <= |board| && board[r - 1].userId == userId
        && forall j :: 0 <= j < r - 1 ==> board[j].userId != userId
    ensures (forall i :: 0 <= i < |board| ==> board[i].userId != userId) ==> r == totalUsers
  {
    match FirstIndex(board, (l: LeaderRow) => l.userId == userId)
    case None => totalUsers
    case Some(k) => k + 1
  }

  /** On a leaderboard in descending order, everyone ranked ahead of the user
      has at least the user's total. */
  lemma RankedAheadHaveMore(board: seq<LeaderRow>, userId: string, totalUsers: nat)
    requires forall i, j :: 0 <= i < j < |board| ==> board[i].total >= board[j].total
    requires exists i :: 0 <= i < |board| && board[i].userId == userId
    ensures var r := GlobalRank(board, userId, totalUsers);
      forall j :: 0 <= j < r - 1 ==> board[j].total >= board[r - 1].total
  {
  }

  function Or0(s: Option<int>): int
  {
    if s.Some? then s.value else 0
  }

  class UserStore {
    var users: seq<User>
    var challenges: seq<Challenges.Challenge>
    var invitations: seq<Challenges.Invitation>
    /** Users that records outside these tables still refer to; deleting one
        of them is refused by the store. */
    var referenced: set<string>

    ghost predicate Valid()
      reads this
    {
      DistinctUserIds(users)
    }

    constructor (initial: seq<User>, cs: seq<Challenges.Challenge>, invs: seq<Challenges.Invitation>, refs: set<string>)
      requires forall i, j :: 0 <= i < j < |initial| ==> initial[i].id != initial[j].id
      ensures Valid() && users == initial && challenges == cs && invitations == invs && referenced == refs
    {
      users := initial;
      challenges := cs;
      invitations := invs;
      referenced := refs;
    }

    /** `findAll`: every user whose role is not "admin", in table order. */
    function FindAll(): (r: seq<User>)
      reads this
      ensures forall i :: 0 <= i < |r| ==> r[i] in users && r[i].role != "admin"
      ensures forall i :: 0 <= i < |users| && users[i].role != "admin" ==> users[i] in r
      ensures |r| == CountWhere(users, IsNotAdmin)
    {
      Filter(users, IsNotAdmin)
    }

    /** `deleteUser`: the user's invitations as player and the challenges
        they host are deleted first, then the user; every failure, the
        missing user included, surfaces as Internal. The deletions are not
        in a transaction, so a refused user deletion keeps the earlier two. */
    method DeleteUser(id: string) returns (r: Result<User>)
      requires Valid()
      modifies this
      ensures Valid() && referenced == old(referenced)
      ensures FindUser(old(users), id).None? ==>
        r == Err(Internal("Failed to delete user")) && unchanged(this)
      ensures FindUser(old(users), id).Some? ==>
        var k := FindUser(old(users), id).value;
        && invitations == Filter(old(invitations), NotPlayer(id))
        && challenges == Filter(old(challenges), NotHost(id))
        && (id in referenced ==> r == Err(Internal("Cannot delete user due to related records")) && users == old(users))
        && (id !in referenced ==> r == Ok(old(users)[k]) && users == old(users)[..k] + old(users)[k + 1..])
      ensures FindUser(old(users), id).Some? ==>
        && (forall i :: 0 <= i < |invitations| ==> invitations[i].playerId != id)
        && (forall i :: 0 <= i < |challenges| ==> challenges[i].hostId != id)
      ensures r.Ok? ==> forall i :: 0 <= i < |users| ==> users[i].id != id
    {
      var k := FindUser(users, id);
      if k.None? {
        return Err(Internal("Failed to delete user"));
      }
      invitations := Filter(invitations, NotPlayer(id));
      challenges := Filter(challenges, NotHost(id));
      if id in referenced {
        return Err(Internal("Cannot delete user due to related records"));
      }
      var u := users[k.value];
      RemoveAtDistinct(users, k.value);
      users := users[..k.value] + users[k.value + 1..];
      r := Ok(u);
    }

    /** `toggleBlock`: a missing user is Internal; otherwise only that user's
        `isBlocked` flips. */
    method ToggleBlock(id: string) returns (r: Result<User>)
      requires Valid()
      modifies this
      ensures Valid()
      ensures users == Toggled(old(users), id)
      ensures FindUser(old(users), id).None? ==> r == Err(Internal("Failed to toggle block status")) && users == old(users)
      ensures FindUser(old(users), id).Some? ==>
        var k := FindUser(old(users), id).value;
        r == Ok(users[k]) && users[k].isBlocked == !old(users)[k].isBlocked
      ensures challenges == old(challenges) && invitations == old(invitations) && referenced == old(referenced)
    {
      var k := FindUser(users, id);
      if k.None? {
        return Err(Internal("Failed to toggle block status"));
      }
      var u := users[k.value].(isBlocked := !users[k.value].isBlocked);
      users := users[k.value := u];
      r := Ok(u);
    }

    /** `getUserProfileWithStats`, given the four `_sum` aggregates (null
        when the user has no row), the tier table, the leaderboard of the
        raw query and the number of campaign results. */
    function ProfileOf(userId: string, solo: Option<int>, team: Option<int>, challenge: Option<int>, bonus: Option<int>,
                       tiers: seq<Tier>, board: seq<LeaderRow>, campaignCount: nat): (r: Result<Profile>)
      reads this
      ensures FindUser(users, userId).None? <==> r == Err(NotFound("User not found"))
      ensures r.Ok? ==>
        && r.value.user == users[FindUser(users, userId).value]
        && r.value.meta == XpParts(Or0(solo), Or0(team), Or0(challenge), Or0(bonus))
        && r.value.total == Or0(solo) + Or0(team) + Or0(challenge) + Or0(bonus)
        && LevelData(r.value.level, r.value.title) == ProfileLevel(tiers, r.value.total)
        && r.value.globalRank == GlobalRank(board, userId, |users|)
        && r.value.totalUsers == |users|
        && r.value.certificates == campaignCount
    {
      match FindUser(users, userId)
      case None => Err(NotFound("User not found"))
      case Some(k) =>
        var meta := XpParts(Or0(solo), Or0(team), Or0(challenge), Or0(bonus));
        var total := meta.solo + meta.team + meta.challenge + meta.bonus;
        var lv := ProfileLevel(tiers, total);
        Ok(Profile(users[k], total, lv.levelNumber, lv.levelTitle, GlobalRank(board, userId, |users|), |users|, campaignCount, meta))
    }
  }
}
