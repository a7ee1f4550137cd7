/** Teams and their membership: a host creates a team, players join or are
    added up to five members, an auto-fill adds opted-in users into the free
    player slots, and every join is announced to the registered listeners. */
module Team {
  import opened Common
  import opened Leaderboard

  const MaxMembers: nat := 5

  datatype TeamRow = TeamRow(id: nat, title: string, mission: string, hostId: string,
                             teamavatorid: Option<string>)

  /** A row of `teamMember`; `role` is free text, "HOST" and "PLAYER" by convention. */
  datatype MemberRow = MemberRow(id: nat, teamId: nat, userId: string, role: string)

  /** One call of a registered listener: the listener's handle and its arguments. */
  datatype Notice = Notice(callback: nat, teamId: nat, userId: string)

  datatype SessionRow = SessionRow(id: nat, teamId: nat)

  /** A row of `userAutoJoin`: a user who opted in (or out) of auto-fill. */
  datatype AutoJoinRow = AutoJoinRow(userId: string, allowed: bool)

  /** The body of `updateTeam`; `None` stands for an absent or null field. */
  datatype TeamPatch = TeamPatch(title: Option<string>, mission: Option<string>, teamavatorid: Option<string>)

  function InTeam(teamId: nat): MemberRow -> bool
  {
    (m: MemberRow) => m.teamId == teamId
  }

  function HostOf(teamId: nat): MemberRow -> bool
  {
    (m: MemberRow) => m.teamId == teamId && m.role == "HOST"
  }

  function NonHostOf(teamId: nat): MemberRow -> bool
  {
    (m: MemberRow) => m.teamId == teamId && m.role != "HOST"
  }

  /** `teamMember.count({ where: { teamId } })`. */
  function MemberCount(ms: seq<MemberRow>, teamId: nat): nat
  {
    CountWhere(ms, InTeam(teamId))
  }

  /** `findFirst({ where: { teamId, userId } })`. */
  function FindMember(ms: seq<MemberRow>, teamId: nat, userId: string): (r: Option<nat>)
    ensures r.Some? ==> r.value < |ms| && ms[r.value].teamId == teamId && ms[r.value].userId == userId
    ensures r.None? ==> forall i :: 0 <= i < |ms| ==> !(ms[i].teamId == teamId && ms[i].userId == userId)
  {
    FirstIndex(ms, (m: MemberRow) => m.teamId == teamId && m.userId == userId)
  }

  /** `findFirst({ where: { teamId, userId, role: 'HOST' } })` succeeds. */
  predicate IsHost(ms: seq<MemberRow>, teamId: nat, userId: string)
  {
    exists i :: 0 <= i < |ms| && ms[i].teamId == teamId && ms[i].userId == userId && ms[i].role == "HOST"
  }

  function FindTeam(ts: seq<TeamRow>, id: nat): (r: Option<nat>)
    ensures r.Some? ==> r.value < |ts| && ts[r.value].id == id
    ensures r.None? ==> forall i :: 0 <= i < |ts| ==> ts[i].id != id
  {
    FirstIndex(ts, (t: TeamRow) => t.id == id)
  }

  /** What `notifyUserJoined` hands to the listeners, in registration order. */
  function Broadcast(callbacks: seq<nat>, teamId: nat, userId: string): (r: seq<Notice>)
    ensures |r| == |callbacks|
    ensures forall i :: 0 <= i < |r| ==> r[i] == Notice(callbacks[i], teamId, userId)
  {
    seq(|callbacks|, i requires 0 <= i < |callbacks| => Notice(callbacks[i], teamId, userId))
  }

  /** The broadcasts of several joins, one after the other. */
  function BroadcastAll(callbacks: seq<nat>, teamId: nat, userIds: seq<string>): seq<Notice>
  {
    if |userIds| == 0 then []
    else BroadcastAll(callbacks, teamId, userIds[..|userIds| - 1]) + Broadcast(callbacks, teamId, userIds[|userIds| - 1])
  }

  /** The rows `autoAddUsersToTeam` creates, with the ids the store hands out. */
  function PlayerRows(teamId: nat, userIds: seq<string>, firstId: nat): (r: seq<MemberRow>)
    ensures |r| == |userIds|
    ensures forall i :: 0 <= i < |r| ==> r[i] == MemberRow(firstId + i, teamId, userIds[i], "PLAYER")
  {
    seq(|userIds|, i requires 0 <= i < |userIds| => MemberRow(firstId + i, teamId, userIds[i], "PLAYER"))
  }

  lemma PlayerRowsSnoc(teamId: nat, us: seq<string>, u: string, firstId: nat)
    ensures PlayerRows(teamId, us + [u], firstId)
      == PlayerRows(teamId, us, firstId) + [MemberRow(firstId + |us|, teamId, u, "PLAYER")]
  {
  }

  function UserIds(ms: seq<MemberRow>): (r: seq<string>)
    ensures |r| == |ms| && forall i :: 0 <= i < |ms| ==> r[i] == ms[i].userId
  {
    seq(|ms|, i requires 0 <= i < |ms| => ms[i].userId)
  }

  function Eligible(excluded: seq<string>): AutoJoinRow -> bool
  {
    (a: AutoJoinRow) => a.allowed && a.userId !in excluded
  }

  /** `u` holds a non-host seat of the team. */
  predicate PlaysIn(ms: seq<MemberRow>, teamId: nat, u: string)
  {
    exists j :: 0 <= j < |ms| && NonHostOf(teamId)(ms[j]) && ms[j].userId == u
  }

  /** An opt-in row auto-fill may take: allowed, and neither the host nor a
      non-host member of the team. */
  function Fillable(ms: seq<MemberRow>, teamId: nat, hostUser: string): AutoJoinRow -> bool
  {
    (a: AutoJoinRow) => a.allowed && a.userId != hostUser && !PlaysIn(ms, teamId, a.userId)
  }

  /** The player slots left beside the host. */
  function FreeSlots(ms: seq<MemberRow>, teamId: nat): int
  {
    MaxMembers - 1 - CountWhere(ms, NonHostOf(teamId))
  }

  /** The users `autoAddUsersToTeam` adds once the team's (first) host is
      known: the first fillable opt-in rows in table order, as many as there
      are free slots or fillable rows, whichever is fewer. */
  function AutoAddCandidates(ms: seq<MemberRow>, autoJoin: seq<AutoJoinRow>, teamId: nat, hostUser: string)
    : (c: seq<string>)
    ensures var slots := FreeSlots(ms, teamId);
      var n := CountWhere(autoJoin, Fillable(ms, teamId, hostUser));
      |c| == if slots <= 0 then 0 else if slots < n then slots else n
    ensures c == OptedInIds(Take(Filter(autoJoin, Fillable(ms, teamId, hostUser)), |c|))
    ensures CountWhere(ms, NonHostOf(teamId)) + |c| <= MaxMembers - 1
      || (|c| == 0 && CountWhere(ms, NonHostOf(teamId)) >= MaxMembers - 1)
    ensures forall i :: 0 <= i < |c| ==> c[i] != hostUser
    ensures forall i, j :: 0 <= i < |c| && 0 <= j < |ms| && NonHostOf(teamId)(ms[j]) ==> c[i] != ms[j].userId
    ensures forall i :: 0 <= i < |c| ==> AutoJoinRow(c[i], true) in autoJoin
  {
    var current := Filter(ms, NonHostOf(teamId));
    var slots := MaxMembers - 1 - |current|;
    if slots <= 0 then []
    else
      var excluded := UserIds(current) + [hostUser];
      NonHostsExcluded(ms, teamId, hostUser);
      EligiblePicks(autoJoin, excluded, slots);
      ExcludedIsNotFillable(ms, autoJoin, teamId, hostUser);
      OptedInIds(Take(Filter(autoJoin, Eligible(excluded)), slots))
  }

  /** The excluded list the source builds picks the same rows as `Fillable`. */
  lemma {:induction false} ExcludedIsNotFillable(ms: seq<MemberRow>, autoJoin: seq<AutoJoinRow>, teamId: nat,
                                                 hostUser: string)
    ensures var excluded := UserIds(Filter(ms, NonHostOf(teamId))) + [hostUser];
      Filter(autoJoin, Eligible(excluded)) == Filter(autoJoin, Fillable(ms, teamId, hostUser))
  {
    var current := Filter(ms, NonHostOf(teamId));
    var excluded := UserIds(current) + [hostUser];
    NonHostsExcluded(ms, teamId, hostUser);
    forall i | 0 <= i < |autoJoin|
      ensures Eligible(excluded)(autoJoin[i]) == Fillable(ms, teamId, hostUser)(autoJoin[i])
    {
      var u := autoJoin[i].userId;
      if u in excluded && u != hostUser {
        var k :| 0 <= k < |excluded| && excluded[k] == u;
        assert k < |current|;
        assert current[k] in ms && NonHostOf(teamId)(current[k]);
        var j :| 0 <= j < |ms| && ms[j] == current[k];
        assert PlaysIn(ms, teamId, u);
      }
    }
    FilterAgree(autoJoin, Eligible(excluded), Fillable(ms, teamId, hostUser));
  }

  /** Every non-host member of the team, and the host, is in the excluded list. */
  lemma {:induction false} NonHostsExcluded(ms: seq<MemberRow>, teamId: nat, hostUser: string)
    ensures var excluded := UserIds(Filter(ms, NonHostOf(teamId))) + [hostUser];
      && hostUser in excluded
      && forall j :: 0 <= j < |ms| && NonHostOf(teamId)(ms[j]) ==> ms[j].userId in excluded
  {
    var current := Filter(ms, NonHostOf(teamId));
    var excluded := UserIds(current) + [hostUser];
    assert excluded[|current|] == hostUser;
    forall j | 0 <= j < |ms| && NonHostOf(teamId)(ms[j]) ensures ms[j].userId in excluded {
      var k :| 0 <= k < |current| && current[k] == ms[j];
      assert excluded[k] == UserIds(current)[k] == ms[j].userId;
    }
  }

  /** The picked users are at most `slots` opted-in users, none excluded. */
  lemma {:induction false} EligiblePicks(autoJoin: seq<AutoJoinRow>, excluded: seq<string>, slots: nat)
    ensures var c := OptedInIds(Take(Filter(autoJoin, Eligible(excluded)), slots));
      && |c| <= slots
      && forall i :: 0 <= i < |c| ==> c[i] !in excluded && AutoJoinRow(c[i], true) in autoJoin
  {
    var eligible := Filter(autoJoin, Eligible(excluded));
    var picked := Take(eligible, slots);
    var c := OptedInIds(picked);
    forall i | 0 <= i < |c| ensures c[i] !in excluded && AutoJoinRow(c[i], true) in autoJoin {
      assert picked[i] == eligible[i];
      assert eligible[i] in autoJoin && Eligible(excluded)(eligible[i]);
      assert picked[i] == AutoJoinRow(c[i], true);
    }
  }

  function OptedInIds(rows: seq<AutoJoinRow>): (r: seq<string>)
    ensures |r| == |rows| && forall i :: 0 <= i < |rows| ==> r[i] == rows[i].userId
  {
    seq(|rows|, i requires 0 <= i < |rows| => rows[i].userId)
  }

  /** With exactly one host row, auto-fill never takes the team above
      `MaxMembers`. */
  lemma AutoAddWithinCap(ms: seq<MemberRow>, autoJoin: seq<AutoJoinRow>, teamId: nat, hostUser: string)
    requires CountWhere(ms, HostOf(teamId)) == 1
    requires MemberCount(ms, teamId) <= MaxMembers
    ensures MemberCount(ms, teamId) + |AutoAddCandidates(ms, autoJoin, teamId, hostUser)| <= MaxMembers
  {
    CountWhereSplit(ms, InTeam(teamId), (m: MemberRow) => m.role == "HOST", HostOf(teamId), NonHostOf(teamId));
  }

  /** A defect of the source, shown on a concrete shape: a second HOST row
      (which `addMember` accepts as a role) is counted neither as a player nor
      as the host, so auto-fill can take a team with two host rows and four
      opted-in users to six members, above its limit of five. */
  lemma AutoAddOverfillsWithTwoHosts(ms: seq<MemberRow>, autoJoin: seq<AutoJoinRow>, teamId: nat, hostUser: string)
    requires CountWhere(ms, HostOf(teamId)) >= 2
    requires CountWhere(ms, NonHostOf(teamId)) == 0
    requires CountWhere(autoJoin, Eligible([hostUser])) >= MaxMembers - 1
    ensures MemberCount(ms, teamId) + |AutoAddCandidates(ms, autoJoin, teamId, hostUser)| > MaxMembers
  {
    CountWhereSplit(ms, InTeam(teamId), (m: MemberRow) => m.role == "HOST", HostOf(teamId), NonHostOf(teamId));
    assert Filter(ms, NonHostOf(teamId)) == [];
    assert UserIds([]) + [hostUser] == [hostUser];
  }

  /** The members of a team other than `userId`, each with its user or null. */
  datatype MemberView = MemberView(member: MemberRow, user: Option<UserInfo>)

  function OtherMemberOf(teamId: nat, userId: string): MemberRow -> bool
  {
    (m: MemberRow) => m.teamId == teamId && m.userId != userId
  }

  function MembersOf(vs: seq<MemberView>): (r: seq<MemberRow>)
    ensures |r| == |vs| && forall i :: 0 <= i < |vs| ==> r[i] == vs[i].member
  {
    seq(|vs|, i requires 0 <= i < |vs| => vs[i].member)
  }

  class TeamService {
    var teams: seq<TeamRow>
    var members: seq<MemberRow>
    var callbacks: seq<nat>
    var notices: seq<Notice>
    var sessions: seq<SessionRow>
    var autoJoin: seq<AutoJoinRow>
    var nextTeamId: nat
    var nextMemberId: nat

    /** Teams are never deleted here, so the store's ids are 0, 1, ...; member
        ids are distinct and below their counter, and every member row
        belongs to a stored team. */
    ghost predicate Valid()
      reads this
    {
      && |teams| == nextTeamId
      && (forall i :: 0 <= i < |teams| ==> teams[i].id == i)
      && (forall i :: 0 <= i < |members| ==> members[i].id < nextMemberId && members[i].teamId < nextTeamId)
      && (forall i, j :: 0 <= i < j < |members| ==> members[i].id != members[j].id)
    }

    lemma TeamExists(teamId: nat)
      requires Valid()
      ensures FindTeam(teams, teamId).Some? <==> teamId < |teams|
    {
      if teamId < |teams| {
        assert teams[teamId].id == teamId;
      }
    }

    constructor (autoJoinRows: seq<AutoJoinRow>)
      ensures Valid()
      ensures teams == [] && members == [] && callbacks == [] && notices == [] && sessions == []
      ensures autoJoin == autoJoinRows && nextTeamId == 0 && nextMemberId == 0
    {
      teams := [];
      members := [];
      callbacks := [];
      notices := [];
      sessions := [];
      autoJoin := autoJoinRows;
      nextTeamId := 0;
      nextMemberId := 0;
    }

    /** `onUserJoinedTeam`: registers a listener. */
    method OnUserJoinedTeam(callback: nat)
      modifies this
      ensures callbacks == old(callbacks) + [callback]
      ensures teams == old(teams) && members == old(members) && notices == old(notices)
      ensures sessions == old(sessions) && autoJoin == old(autoJoin)
      ensures nextTeamId == old(nextTeamId) && nextMemberId == old(nextMemberId)
    {
      callbacks := callbacks + [callback];
    }

    /** `notifyUserJoined`: calls every listener once, in registration order. */
    method NotifyUserJoined(teamId: nat, userId: string)
      modifies this
      ensures notices == old(notices) + Broadcast(callbacks, teamId, userId)
      ensures teams == old(teams) && members == old(members) && callbacks == old(callbacks)
      ensures sessions == old(sessions) && autoJoin == old(autoJoin)
      ensures nextTeamId == old(nextTeamId) && nextMemberId == old(nextMemberId)
    {
      var i := 0;
      while i < |callbacks|
        invariant 0 <= i <= |callbacks|
        invariant notices == old(notices) + Broadcast(callbacks[..i], teamId, userId)
        invariant teams == old(teams) && members == old(members) && callbacks == old(callbacks)
        invariant sessions == old(sessions) && autoJoin == old(autoJoin)
        invariant nextTeamId == old(nextTeamId) && nextMemberId == old(nextMemberId)
      {
        notices := notices + [Notice(callbacks[i], teamId, userId)];
        assert Broadcast(callbacks[..i + 1], teamId, userId)
          == Broadcast(callbacks[..i], teamId, userId) + [Notice(callbacks[i], teamId, userId)];
        i := i + 1;
      }
      assert callbacks[..i] == callbacks;
    }

    /** `teamMember.create`: a new row with the next id. */
    method CreateMember(teamId: nat, userId: string, role: string) returns (m: MemberRow)
      requires Valid() && teamId < nextTeamId
      modifies this
      ensures Valid()
      ensures m == MemberRow(old(nextMemberId), teamId, userId, role)
      ensures members == old(members) + [m] && nextMemberId == old(nextMemberId) + 1
      ensures teams == old(teams) && callbacks == old(callbacks) && notices == old(notices)
      ensures sessions == old(sessions) && autoJoin == old(autoJoin) && nextTeamId == old(nextTeamId)
    {
      m := MemberRow(nextMemberId, teamId, userId, role);
      members := members + [m];
      nextMemberId := nextMemberId + 1;
    }

    /** `createTeam`: the team and its host as the only member; the join is
        announced once. The signed token is not modelled. */
    method CreateTeam(title: string, mission: string, hostId: string, teamavatorid: Option<string>)
      returns (team: TeamRow)
      requires Valid()
      modifies this
      ensures Valid()
      ensures team == TeamRow(old(nextTeamId), title, mission, hostId, teamavatorid)
      ensures teams == old(teams) + [team] && nextTeamId == old(nextTeamId) + 1
      ensures members == old(members) + [MemberRow(old(nextMemberId), team.id, hostId, "HOST")]
      ensures nextMemberId == old(nextMemberId) + 1
      ensures MemberCount(members, team.id) == 1 && IsHost(members, team.id, hostId)
      ensures notices == old(notices) + Broadcast(callbacks, team.id, hostId)
      ensures callbacks == old(callbacks) && sessions == old(sessions) && autoJoin == old(autoJoin)
    {
      team := TeamRow(nextTeamId, title, mission, hostId, teamavatorid);
      assert forall i :: 0 <= i < |members| ==> members[i].teamId != team.id;
      assert CountWhere(members, InTeam(team.id)) == 0;
      teams := teams + [team];
      nextTeamId := nextTeamId + 1;
      var host := CreateMember(team.id, hostId, "HOST");
      CountWhereAppend(old(members), host, InTeam(team.id));
      assert members[|members| - 1] == host;
      NotifyUserJoined(team.id, hostId);
    }

    /** `joinTeam` (the token already decoded to `teamId`): full team, then
        existing member, are rejected in that order; a team that does not
        exist makes the store throw when the row is created. */
    method JoinTeam(teamId: nat, userId: string) returns (r: Result<MemberRow>)
      requires Valid()
      modifies this
      ensures Valid()
      ensures MemberCount(old(members), teamId) >= MaxMembers ==> r.Err? && r.error.BadRequest?
      ensures MemberCount(old(members), teamId) < MaxMembers && FindMember(old(members), teamId, userId).Some?
        ==> r == Err(BadRequest("User is already a member of this team"))
      ensures r.Ok? <==> (MemberCount(old(members), teamId) < MaxMembers
        && FindMember(old(members), teamId, userId).None? && FindTeam(teams, teamId).Some?)
      ensures r.Ok? ==> (r.value == MemberRow(old(nextMemberId), teamId, userId, "PLAYER")
        && members == old(members) + [r.value] && nextMemberId == old(nextMemberId) + 1
        && notices == old(notices) + Broadcast(callbacks, teamId, userId)
        && MemberCount(members, teamId) == MemberCount(old(members), teamId) + 1 <= MaxMembers)
      ensures r.Err? ==> members == old(members) && nextMemberId == old(nextMemberId) && notices == old(notices)
      ensures teams == old(teams) && callbacks == old(callbacks) && sessions == old(sessions)
      ensures autoJoin == old(autoJoin) && nextTeamId == old(nextTeamId)
    {
      var count := MemberCount(members, teamId);
      if count >= MaxMembers {
        return Err(BadRequest("Team member limit reached. Maximum allowed is 5"));
      }
      if FindMember(members, teamId, userId).Some? {
        return Err(BadRequest("User is already a member of this team"));
      }
      TeamExists(teamId);
      if FindTeam(teams, teamId).None? {
        return Err(Internal("Foreign key constraint failed on teamId"));
      }
      var m := CreateMember(teamId, userId, "PLAYER");
      CountWhereAppend(old(members), m, InTeam(teamId));
      NotifyUserJoined(teamId, userId);
      r := Ok(m);
    }

    /** `addMember`: only a host of the team may add, then the same capacity
        and duplicate checks as `joinTeam`; the role is taken as given. */
    method AddMember(teamId: nat, hostId: string, userId: string, role: string) returns (r: Result<MemberRow>)
      requires Valid()
      modifies this
      ensures Valid()
      ensures !IsHost(old(members), teamId, hostId) ==> r == Err(Forbidden("Only the Host can add members"))
      ensures IsHost(old(members), teamId, hostId) && MemberCount(old(members), teamId) >= MaxMembers
        ==> r.Err? && r.error.BadRequest?
      ensures r.Ok? <==> (IsHost(old(members), teamId, hostId) && MemberCount(old(members), teamId) < MaxMembers
        && FindMember(old(members), teamId, userId).None?)
      ensures r.Ok? ==> (r.value == MemberRow(old(nextMemberId), teamId, userId, role)
        && members == old(members) + [r.value] && nextMemberId == old(nextMemberId) + 1
        && notices == old(notices) + Broadcast(callbacks, teamId, userId)
        && MemberCount(members, teamId) == MemberCount(old(members), teamId) + 1 <= MaxMembers)
      ensures r.Err? ==> members == old(members) && nextMemberId == old(nextMemberId) && notices == old(notices)
      ensures teams == old(teams) && callbacks == old(callbacks) && sessions == old(sessions)
      ensures autoJoin == old(autoJoin) && nextTeamId == old(nextTeamId)
    {
      if !IsHost(members, teamId, hostId) {
        return Err(Forbidden("Only the Host can add members"));
      }
      var count := MemberCount(members, teamId);
      if count >= MaxMembers {
        return Err(BadRequest("Team member limit reached. Maximum allowed is 5"));
      }
      if FindMember(members, teamId, userId).Some? {
        return Err(BadRequest("User is already a member of this team"));
      }
      var m := CreateMember(teamId, userId, role);
      CountWhereAppend(old(members), m, InTeam(teamId));
      NotifyUserJoined(teamId, userId);
      r := Ok(m);
    }

    /** `autoAddUsersToTeam`: without a host, Forbidden; otherwise each
        candidate becomes a PLAYER, announced in turn. */
    method AutoAddUsersToTeam(teamId: nat) returns (r: Result<seq<MemberRow>>)
      requires Valid()
      modifies this
      ensures Valid()
      ensures FirstIndex(old(members), HostOf(teamId)).None? <==> r.Err?
      ensures r.Err? ==> (r.error.Forbidden? && members == old(members) && notices == old(notices)
        && nextMemberId == old(nextMemberId))
      ensures r.Ok? ==>
        var host := old(members)[FirstIndex(old(members), HostOf(teamId)).value];
        var c := AutoAddCandidates(old(members), autoJoin, teamId, host.userId);
        && r.value == PlayerRows(teamId, c, old(nextMemberId))
        && members == old(members) + r.value
        && nextMemberId == old(nextMemberId) + |c|
        && notices == old(notices) + BroadcastAll(callbacks, teamId, c)
      ensures teams == old(teams) && callbacks == old(callbacks) && sessions == old(sessions)
      ensures autoJoin == old(autoJoin) && nextTeamId == old(nextTeamId)
    {
      var h := FirstIndex(members, HostOf(teamId));
      if h.None? {
        return Err(Forbidden("Team has no host or host not found"));
      }
      var host := members[h.value];
      assert teamId < nextTeamId;
      var c := AutoAddCandidates(members, autoJoin, teamId, host.userId);
      var added := AddPlayers(teamId, c);
      r := Ok(added);
    }

    /** The loop of `autoAddUsersToTeam`: each user becomes a PLAYER, and the
        join is announced before the next one is created. */
    method AddPlayers(teamId: nat, userIds: seq<string>) returns (added: seq<MemberRow>)
      requires Valid() && teamId < nextTeamId
      modifies this
      ensures Valid()
      ensures added == PlayerRows(teamId, userIds, old(nextMemberId))
      ensures members == old(members) + added && nextMemberId == old(nextMemberId) + |userIds|
      ensures notices == old(notices) + BroadcastAll(callbacks, teamId, userIds)
      ensures teams == old(teams) && callbacks == old(callbacks) && sessions == old(sessions)
      ensures autoJoin == old(autoJoin) && nextTeamId == old(nextTeamId)
    {
      added := [];
      var i := 0;
      while i < |userIds|
        invariant 0 <= i <= |userIds|
        invariant added == PlayerRows(teamId, userIds[..i], old(nextMemberId))
        invariant members == old(members) + added && nextMemberId == old(nextMemberId) + i
        invariant notices == old(notices) + BroadcastAll(callbacks, teamId, userIds[..i])
        invariant Valid() && teamId < nextTeamId
        invariant teams == old(teams) && callbacks == old(callbacks) && sessions == old(sessions)
        invariant autoJoin == old(autoJoin) && nextTeamId == old(nextTeamId)
      {
        var m := CreateMember(teamId, userIds[i], "PLAYER");
        NotifyUserJoined(teamId, userIds[i]);
        added := added + [m];
        assert userIds[..i + 1] == userIds[..i] + [userIds[i]];
        assert userIds[..i + 1][..i] == userIds[..i];
        PlayerRowsSnoc(teamId, userIds[..i], userIds[i], old(nextMemberId));
        i := i + 1;
      }
      assert userIds[..i] == userIds;
    }

    /** `endTeamSession`: host only; removes the team's sessions. */
    method EndTeamSession(teamId: nat, hostId: string) returns (r: Result<string>)
      requires Valid()
      modifies this
      ensures Valid()
      ensures r.Ok? <==> IsHost(members, teamId, hostId)
      ensures r.Err? ==> r.error.Forbidden? && sessions == old(sessions)
      ensures r.Ok? ==> sessions == Filter(old(sessions), (s: SessionRow) => s.teamId != teamId)
      ensures teams == old(teams) && members == old(members) && callbacks == old(callbacks)
      ensures notices == old(notices) && autoJoin == old(autoJoin)
      ensures nextTeamId == old(nextTeamId) && nextMemberId == old(nextMemberId)
    {
      if !IsHost(members, teamId, hostId) {
        return Err(Forbidden("Only Host can end the session"));
      }
      sessions := Filter(sessions, (s: SessionRow) => s.teamId != teamId);
      r := Ok("Team session ended successfully");
    }

    /** `updateMemberRole`: host only; the target must be a member and not a
        HOST; only its role changes. */
    method UpdateMemberRole(teamId: nat, hostId: string, userId: string, role: string) returns (r: Result<MemberRow>)
      requires Valid()
      modifies this
      ensures Valid()
      ensures !IsHost(old(members), teamId, hostId) ==> r == Err(Forbidden("Only Host can update member roles"))
      ensures IsHost(old(members), teamId, hostId) && FindMember(old(members), teamId, userId).None?
        ==> r == Err(BadRequest("User is not a member of this team"))
      ensures IsHost(old(members), teamId, hostId) && FindMember(old(members), teamId, userId).Some?
        && old(members)[FindMember(old(members), teamId, userId).value].role == "HOST"
        ==> r == Err(BadRequest("Cannot change the role of the Host"))
      ensures r.Err? ==> members == old(members)
      ensures r.Ok? ==>
        var k := FindMember(old(members), teamId, userId).value;
        && IsHost(old(members), teamId, hostId)
        && old(members)[k].role != "HOST"
        && r.value == old(members)[k].(role := role)
        && members == old(members)[k := r.value]
      ensures teams == old(teams) && callbacks == old(callbacks) && notices == old(notices)
      ensures sessions == old(sessions) && autoJoin == old(autoJoin)
      ensures nextTeamId == old(nextTeamId) && nextMemberId == old(nextMemberId)
    {
      if !IsHost(members, teamId, hostId) {
        return Err(Forbidden("Only Host can update member roles"));
      }
      var k := FindMember(members, teamId, userId);
      if k.None? {
        return Err(BadRequest("User is not a member of this team"));
      }
      if members[k.value].role == "HOST" {
        return Err(BadRequest("Cannot change the role of the Host"));
      }
      var u := members[k.value].(role := role);
      members := members[k.value := u];
      r := Ok(u);
    }

    /** `updateTeam`: unknown team is NotFound; an absent field keeps its value. */
    method UpdateTeam(teamId: nat, patch: TeamPatch) returns (r: Result<TeamRow>)
      requires Valid()
      modifies this
      ensures Valid()
      ensures FindTeam(old(teams), teamId).None? ==> r == Err(NotFound("Team not found")) && teams == old(teams)
      ensures FindTeam(old(teams), teamId).Some? ==>
        var k := FindTeam(old(teams), teamId).value;
        var t := old(teams)[k];
        && r.Ok?
        && r.value.id == t.id && r.value.hostId == t.hostId
        && r.value.title == (if patch.title.Some? then patch.title.value else t.title)
        && r.value.mission == (if patch.mission.Some? then patch.mission.value else t.mission)
        && r.value.teamavatorid == (if patch.teamavatorid.Some? then patch.teamavatorid else t.teamavatorid)
        && teams == old(teams)[k := r.value]
      ensures members == old(members) && callbacks == old(callbacks) && notices == old(notices)
      ensures sessions == old(sessions) && autoJoin == old(autoJoin)
      ensures nextTeamId == old(nextTeamId) && nextMemberId == old(nextMemberId)
    {
      var k := FindTeam(teams, teamId);
      if k.None? {
        return Err(NotFound("Team not found"));
      }
      var t := teams[k.value];
      var u := TeamRow(t.id,
                       if patch.title.Some? then patch.title.value else t.title,
                       if patch.mission.Some? then patch.mission.value else t.mission,
                       t.hostId,
                       if patch.teamavatorid.Some? then patch.teamavatorid else t.teamavatorid);
      teams := teams[k.value := u];
      r := Ok(u);
    }

    /** `getUsersInTeam`: the team's members other than `userId`, each with its
        user; NotFound when there is none. */
    function UsersInTeam(teamId: nat, userId: string, users: seq<UserInfo>): (r: Result<seq<MemberView>>)
      reads this
      ensures r.Err? <==> forall i :: 0 <= i < |members| ==> !(members[i].teamId == teamId && members[i].userId != userId)
      ensures r.Err? ==> r.error.NotFound?
      ensures r.Ok? ==> forall i :: 0 <= i < |r.value| ==>
        r.value[i].member in members && r.value[i].member.teamId == teamId && r.value[i].member.userId != userId
        && r.value[i].user == UserById(users, r.value[i].member.userId)
      ensures r.Ok? ==> |r.value| == CountWhere(members, OtherMemberOf(teamId, userId))
      ensures r.Ok? ==> MembersOf(r.value) == Filter(members, OtherMemberOf(teamId, userId))
    {
      var others := Filter(members, OtherMemberOf(teamId, userId));
      if |others| == 0 then Err(NotFound("No other members found in this team"))
      else Ok(seq(|others|, i requires 0 <= i < |others| => MemberView(others[i], UserById(users, others[i].userId))))
    }
  }
}
