/** Head-to-head challenges: a host opens a challenge under a six-character
    code, one player joins it (PENDING -> READY), the host starts it
    (READY -> ACTIVE), and players can be invited and answer invitations. */
module Challenges {
  import opened Common

  datatype Status = PENDING | READY | ACTIVE

  datatype InvitationStatus = INVITED | ACCEPTED | REJECTED

  /** A row of `challenge`; `code` is unique. */
  datatype Challenge = Challenge(id: nat, code: string, hostId: string, playerId: Option<string>, status: Status)

  /** A row of `challengeInvitation`; a new row has the store's default status. */
  datatype Invitation = Invitation(id: nat, challengeId: nat, playerId: string, status: InvitationStatus)

  /** `sendInvitation`'s answer. */
  datatype InviteAck = InviteAck(message: string, code: string)

  /** `randomBytes(3).toString("hex").toUpperCase()`: six upper-case hex digits. */
  predicate IsChallengeCode(code: string)
  {
    |code| == 6 && forall i :: 0 <= i < |code| ==> code[i] in "0123456789ABCDEF"
  }

  /** `challenge.playerId` is truthy. */
  predicate HasPlayer(c: Challenge)
  {
    c.playerId.Some? && c.playerId.value != ""
  }

  function StatusRank(s: Status): nat
  {
    match s
    case PENDING => 0
    case READY => 1
    case ACTIVE => 2
  }

  /** No challenge went backwards from `before` to `after`, and none vanished. */
  ghost predicate StatusAdvanced(before: seq<Challenge>, after: seq<Challenge>)
  {
    && |before| <= |after|
    && forall i :: 0 <= i < |before| ==>
         after[i].id == before[i].id && StatusRank(before[i].status) <= StatusRank(after[i].status)
  }

  function FindByCode(cs: seq<Challenge>, code: string): (r: Option<nat>)
    ensures r.Some? ==> r.value < |cs| && cs[r.value].code == code
    ensures r.None? ==> forall i :: 0 <= i < |cs| ==> cs[i].code != code
  {
    FirstIndex(cs, (c: Challenge) => c.code == code)
  }

  function FindInvitation(invs: seq<Invitation>, id: nat): (r: Option<nat>)
    ensures r.Some? ==> r.value < |invs| && invs[r.value].id == id
    ensures r.None? ==> forall i :: 0 <= i < |invs| ==> invs[i].id != id
  {
    FirstIndex(invs, (v: Invitation) => v.id == id)
  }

  predicate Invited(invs: seq<Invitation>, challengeId: nat, playerId: string)
  {
    exists i :: 0 <= i < |invs| && invs[i].challengeId == challengeId && invs[i].playerId == playerId
  }

  /** The loop test of `sendMultipleInvites`: not the host, a known user, and
      not invited to this challenge before the call. */
  function InviteTarget(hostId: string, users: set<string>, invs: seq<Invitation>, challengeId: nat): string -> bool
  {
    (p: string) => p != hostId && p in users && !Invited(invs, challengeId, p)
  }

  /** The invitations `Promise.all` creates, in the order they were queued. */
  function NewInvitations(challengeId: nat, playerIds: seq<string>, firstId: nat): (r: seq<Invitation>)
    ensures |r| == |playerIds|
    ensures forall i :: 0 <= i < |r| ==> r[i] == Invitation(firstId + i, challengeId, playerIds[i], INVITED)
  {
    seq(|playerIds|, i requires 0 <= i < |playerIds| => Invitation(firstId + i, challengeId, playerIds[i], INVITED))
  }

  /** The invitations queue is checked against the table as it was before the
      call, so an id listed twice is invited twice. */
  lemma RepeatedIdInvitedTwice(hostId: string, users: set<string>, invs: seq<Invitation>, challengeId: nat, p: string)
    requires InviteTarget(hostId, users, invs, challengeId)(p)
    ensures Filter([p, p], InviteTarget(hostId, users, invs, challengeId)) == [p, p]
  {
    assert [p, p][1..] == [p];
    assert [p][1..] == [];
  }

  /** Invitation ids are distinct and below the next id to hand out, and each
      invitation names one of the first `count` challenges. */
  ghost predicate InvitationsWellFormed(invs: seq<Invitation>, nextId: nat, count: nat)
  {
    && (forall i :: 0 <= i < |invs| ==> invs[i].id < nextId && invs[i].challengeId < count)
    && (forall i, j :: 0 <= i < j < |invs| ==> invs[i].id != invs[j].id)
  }

  /** A batch created from the next id on keeps the table well formed. */
  lemma {:induction false} AppendNewInvitations(invs: seq<Invitation>, nextId: nat, count: nat, challengeId: nat, queued: seq<string>)
    requires InvitationsWellFormed(invs, nextId, count)
    requires challengeId < count
    ensures InvitationsWellFormed(invs + NewInvitations(challengeId, queued, nextId), nextId + |queued|, count)
  {
    var created := NewInvitations(challengeId, queued, nextId);
    var all := invs + created;
    forall i | 0 <= i < |all|
      ensures all[i].id < nextId + |queued| && all[i].challengeId < count
    {
      if i >= |invs| {
        assert all[i] == created[i - |invs|];
      }
    }
    forall i, j | 0 <= i < j < |all|
      ensures all[i].id != all[j].id
    {
      if j >= |invs| {
        assert all[j] == created[j - |invs|];
        if i >= |invs| {
          assert all[i] == created[i - |invs|];
        }
      }
    }
  }

  /** Every created invitation is for a listed player who passes the test,
      and every listed player who passes it gets one. */
  lemma {:induction false} NewInvitationsForTargets(hostId: string, users: set<string>, invs: seq<Invitation>,
                                                    challengeId: nat, playerIds: seq<string>, firstId: nat)
    ensures var created := NewInvitations(challengeId, Filter(playerIds, InviteTarget(hostId, users, invs, challengeId)), firstId);
      forall k :: 0 <= k < |created| ==>
        var p := created[k].playerId;
        p in playerIds && p != hostId && p in users && !Invited(invs, challengeId, p)
    ensures var created := NewInvitations(challengeId, Filter(playerIds, InviteTarget(hostId, users, invs, challengeId)), firstId);
      forall p :: (p in playerIds && p != hostId && p in users && !Invited(invs, challengeId, p)) ==>
        exists k :: 0 <= k < |created| && created[k].playerId == p
  {
    var target := InviteTarget(hostId, users, invs, challengeId);
    var queued := Filter(playerIds, target);
    var created := NewInvitations(challengeId, queued, firstId);
    forall k | 0 <= k < |created|
      ensures created[k].playerId in playerIds && target(created[k].playerId)
    {
      assert created[k].playerId == queued[k];
    }
    forall p | p in playerIds && target(p)
      ensures exists k :: 0 <= k < |created| && created[k].playerId == p
    {
      var i :| 0 <= i < |playerIds| && playerIds[i] == p;
      assert p in queued;
      var k :| 0 <= k < |queued| && queued[k] == p;
      assert created[k].playerId == p;
    }
  }

  class ChallengeStore {
    var challenges: seq<Challenge>
    var invitations: seq<Invitation>
    var users: set<string>
    var nextInvitationId: nat

    /** Challenges are never deleted here, so their ids are 0, 1, ...; codes
        are unique and well formed; a READY or ACTIVE challenge has a player;
        invitation ids are distinct and below their counter, and each names a
        stored challenge. */
    ghost predicate Valid()
      reads this
    {
      && (forall i :: 0 <= i < |challenges| ==> challenges[i].id == i && IsChallengeCode(challenges[i].code))
      && (forall i, j :: 0 <= i < j < |challenges| ==> challenges[i].code != challenges[j].code)
      && (forall i :: 0 <= i < |challenges| && challenges[i].status != PENDING ==> challenges[i].playerId.Some?)
      && InvitationsWellFormed(invitations, nextInvitationId, |challenges|)
    }

    constructor (knownUsers: set<string>)
      ensures Valid() && challenges == [] && invitations == [] && users == knownUsers && nextInvitationId == 0
    {
      challenges := [];
      invitations := [];
      users := knownUsers;
      nextInvitationId := 0;
    }

    /** `createChallenge`: a PENDING challenge without a player under the
        drawn `code`; a code already in use or an unknown host makes the
        store fail, reported as Internal. */
    method CreateChallenge(hostId: string, code: string) returns (r: Result<Challenge>)
      requires Valid()
      requires IsChallengeCode(code)
      modifies this
      ensures Valid() && StatusAdvanced(old(challenges), challenges)
      ensures r.Ok? <==> FindByCode(old(challenges), code).None? && hostId in users
      ensures r.Ok? ==> (r.value == Challenge(|old(challenges)|, code, hostId, None, PENDING)
                         && challenges == old(challenges) + [r.value])
      ensures r.Err? ==> r == Err(Internal("Failed to create challenge")) && challenges == old(challenges)
      ensures invitations == old(invitations) && users == old(users) && nextInvitationId == old(nextInvitationId)
    {
      if FindByCode(challenges, code).Some? || hostId !in users {
        return Err(Internal("Failed to create challenge"));
      }
      var c := Challenge(|challenges|, code, hostId, None, PENDING);
      challenges := challenges + [c];
      r := Ok(c);
    }

    /** `joinChallenge`: unknown code, a player already set, the host
        joining, and a challenge not PENDING are rejected in that order; a
        successful join sets the player and READY and nothing else. */
    method JoinChallenge(code: string, userId: string) returns (r: Result<Challenge>)
      requires Valid()
      modifies this
      ensures Valid() && StatusAdvanced(old(challenges), challenges)
      ensures FindByCode(old(challenges), code).None? ==> r == Err(NotFound("Challenge not found"))
      ensures FindByCode(old(challenges), code).Some? ==>
        var k := FindByCode(old(challenges), code).value;
        var c := old(challenges)[k];
        && (HasPlayer(c) ==> r == Err(BadRequest("This challenge already has a player")))
        && (!HasPlayer(c) && c.hostId == userId ==> r == Err(BadRequest("Host cannot join as player")))
        && ((!HasPlayer(c) && c.hostId != userId && c.status != PENDING) ==>
              r == Err(BadRequest("Challenge is not open to join")))
        && ((!HasPlayer(c) && c.hostId != userId && c.status == PENDING && userId !in users) ==>
              r == Err(Internal("Failed to join challenge")))
        && (r.Ok? <==> !HasPlayer(c) && c.hostId != userId && c.status == PENDING && userId in users)
        && (r.Ok? ==> r.value == c.(playerId := Some(userId), status := READY)
                      && challenges == old(challenges)[k := r.value])
      ensures r.Err? ==> challenges == old(challenges)
      ensures invitations == old(invitations) && users == old(users) && nextInvitationId == old(nextInvitationId)
    {
      var k := FindByCode(challenges, code);
      if k.None? {
        return Err(NotFound("Challenge not found"));
      }
      var c := challenges[k.value];
      if HasPlayer(c) {
        return Err(BadRequest("This challenge already has a player"));
      }
      if c.hostId == userId {
        return Err(BadRequest("Host cannot join as player"));
      }
      if c.status != PENDING {
        return Err(BadRequest("Challenge is not open to join"));
      }
      if userId !in users {
        return Err(Internal("Failed to join challenge"));
      }
      var u := c.(playerId := Some(userId), status := READY);
      challenges := challenges[k.value := u];
      r := Ok(u);
    }

    /** `startChallenge`: unknown id, a requester other than the host, and a
        challenge not READY are rejected in that order; on success ACTIVE. */
    method StartChallenge(id: nat, userId: string) returns (r: Result<Challenge>)
      requires Valid()
      modifies this
      ensures Valid() && StatusAdvanced(old(challenges), challenges)
      ensures id >= |old(challenges)| ==> r == Err(NotFound("Challenge not found"))
      ensures id < |old(challenges)| ==>
        var c := old(challenges)[id];
        && (c.hostId != userId ==> r == Err(Forbidden("Only the host can start this challenge")))
        && (c.hostId == userId && c.status != READY ==> r == Err(BadRequest("Challenge must be READY before starting")))
        && (c.hostId == userId && c.status == READY ==>
              r == Ok(c.(status := ACTIVE)) && challenges == old(challenges)[id := r.value])
      ensures r.Err? ==> challenges == old(challenges)
      ensures invitations == old(invitations) && users == old(users) && nextInvitationId == old(nextInvitationId)
    {
      if id >= |challenges| {
        return Err(NotFound("Challenge not found"));
      }
      var c := challenges[id];
      if c.hostId != userId {
        return Err(Forbidden("Only the host can start this challenge"));
      }
      if c.status != READY {
        return Err(BadRequest("Challenge must be READY before starting"));
      }
      var u := c.(status := ACTIVE);
      challenges := challenges[id := u];
      r := Ok(u);
    }

    /** `sendInvitation`: four checks and no change; the answer carries the
        challenge's code. */
    function SendInvitation(challengeId: nat, playerId: string): (r: Result<InviteAck>)
      reads this
      ensures challengeId >= |challenges| ==> r == Err(NotFound("Challenge not found"))
      ensures challengeId < |challenges| ==>
        var c := challenges[challengeId];
        && (HasPlayer(c) ==> r == Err(BadRequest("Challenge already has a player")))
        && (!HasPlayer(c) && c.hostId == playerId ==> r == Err(BadRequest("Host cannot invite themselves")))
        && (!HasPlayer(c) && c.hostId != playerId && playerId !in users ==> r == Err(NotFound("Player not found")))
        && (r.Ok? <==> !HasPlayer(c) && c.hostId != playerId && playerId in users)
        && (r.Ok? ==> r.value.code == c.code)
    {
      if challengeId >= |challenges| then Err(NotFound("Challenge not found"))
      else
        var c := challenges[challengeId];
        if HasPlayer(c) then Err(BadRequest("Challenge already has a player"))
        else if c.hostId == playerId then Err(BadRequest("Host cannot invite themselves"))
        else if playerId !in users then Err(NotFound("Player not found"))
        else Ok(InviteAck("Invitation sent to player", c.code))
    }

    /** `sendMultipleInvites`: the loop queues each id that passes the test
        against the table as it was, and the queued invitations are created
        together at the end. Whether the challenge already has a player is
        not checked. */
    method SendMultipleInvites(challengeId: nat, playerIds: seq<string>) returns (r: Result<seq<Invitation>>)
      requires Valid()
      modifies this
      ensures Valid() && challenges == old(challenges) && users == old(users)
      ensures challengeId >= |challenges| <==> r.Err?
      ensures r.Err? ==> (r == Err(NotFound("Challenge not found")) && invitations == old(invitations)
                          && nextInvitationId == old(nextInvitationId))
      ensures r.Ok? ==>
        var queued := Filter(playerIds, InviteTarget(challenges[challengeId].hostId, users, old(invitations), challengeId));
        && r.value == NewInvitations(challengeId, queued, old(nextInvitationId))
        && invitations == old(invitations) + r.value
        && nextInvitationId == old(nextInvitationId) + |queued|
      ensures r.Ok? ==> forall k :: 0 <= k < |r.value| ==>
        var p := r.value[k].playerId;
        p in playerIds && p != challenges[challengeId].hostId && p in users && !Invited(old(invitations), challengeId, p)
      ensures r.Ok? ==> forall p ::
        (p in playerIds && p != challenges[challengeId].hostId && p in users && !Invited(old(invitations), challengeId, p)) ==>
        exists k :: 0 <= k < |r.value| && r.value[k].playerId == p
    {
      if challengeId >= |challenges| {
        return Err(NotFound("Challenge not found"));
      }
      var queued := QueueInvites(challengeId, challenges[challengeId].hostId, users, invitations, playerIds);
      var created := NewInvitations(challengeId, queued, nextInvitationId);
      AppendNewInvitations(invitations, nextInvitationId, |challenges|, challengeId, queued);
      NewInvitationsForTargets(challenges[challengeId].hostId, users, invitations, challengeId, playerIds, nextInvitationId);
      invitations := invitations + created;
      nextInvitationId := nextInvitationId + |queued|;
      r := Ok(created);
    }

    /** `respondToInvitation`: unknown invitation is NotFound, another
        player's is Forbidden; accepting overwrites the challenge's player
        without any check and without touching its status; the invitation
        becomes ACCEPTED or REJECTED. */
    method RespondToInvitation(invitationId: nat, playerId: string, accept: bool) returns (r: Result<Invitation>)
      requires Valid()
      modifies this
      ensures Valid() && StatusAdvanced(old(challenges), challenges)
      ensures FindInvitation(old(invitations), invitationId).None? ==>
        r == Err(NotFound("Invitation not found")) && challenges == old(challenges) && invitations == old(invitations)
      ensures FindInvitation(old(invitations), invitationId).Some? ==>
        var k := FindInvitation(old(invitations), invitationId).value;
        var inv := old(invitations)[k];
        && (inv.playerId != playerId ==>
              r == Err(Forbidden("Not your invitation")) && challenges == old(challenges) && invitations == old(invitations))
        && (inv.playerId == playerId ==>
              && r == Ok(inv.(status := if accept then ACCEPTED else REJECTED))
              && invitations == old(invitations)[k := r.value]
              && challenges == (if accept then old(challenges)[inv.challengeId := old(challenges)[inv.challengeId].(playerId := Some(playerId))]
                                else old(challenges)))
      ensures users == old(users) && nextInvitationId == old(nextInvitationId)
    {
      var k := FindInvitation(invitations, invitationId);
      if k.None? {
        return Err(NotFound("Invitation not found"));
      }
      var inv := invitations[k.value];
      if inv.playerId != playerId {
        return Err(Forbidden("Not your invitation"));
      }
      var status := if accept then ACCEPTED else REJECTED;
      if accept {
        var c := challenges[inv.challengeId];
        challenges := challenges[inv.challengeId := c.(playerId := Some(playerId))];
      }
      var u := inv.(status := status);
      invitations := invitations[k.value := u];
      r := Ok(u);
    }
  }

  /** The loop of `sendMultipleInvites`: the ids it queues, in order. */
  method QueueInvites(challengeId: nat, hostId: string, users: set<string>, invs: seq<Invitation>, playerIds: seq<string>)
    returns (queued: seq<string>)
    ensures queued == Filter(playerIds, InviteTarget(hostId, users, invs, challengeId))
  {
    ghost var target := InviteTarget(hostId, users, invs, challengeId);
    queued := [];
    var i := 0;
    while i < |playerIds|
      invariant 0 <= i <= |playerIds|
      invariant queued == Filter(playerIds[..i], target)
    {
      var p := playerIds[i];
      FilterPrefixStep(playerIds, i, target);
      i := i + 1;
      if p == hostId {
        continue;
      }
      if p !in users {
        continue;
      }
      if Invited(invs, challengeId, p) {
        continue;
      }
      queued := queued + [p];
    }
    assert playerIds[..i] == playerIds;
  }
}
