/** Scores of head-to-head challenges: each of the two sides submits once, the
    result view names a winner, and a leaderboard sums the scores per user. */
module ChallengeModeScore {
  import opened Common
  import opened Sorting
  import opened Rewards
  import opened Leaderboard

  /** The three JSON evaluation logs, kept as opaque text. */
  datatype Logs = Logs(strategyAlignment: string, objectiveAlignment: string, keyResultQualityLog: string)

  /** The submitted score and the stored row. */
  datatype NewChallengeScore = NewChallengeScore(userId: string, challengeId: int, score: int, title: Option<string>,
                                                 criteria: Criteria, time: Option<string>, logs: Logs)

  datatype ChallengeScoreRow = ChallengeScoreRow(id: nat, data: NewChallengeScore)

  /** One element of `getScore`'s `results`: the requester sees the full
      breakdown, the other side only name, score and position. */
  datatype ScoreView =
    | Full(userId: string, name: string, score: int, position: string, criteria: Criteria, logs: Logs)
    | Brief(userId: string, name: string, score: int, position: string)

  datatype ScoreBoard = ScoreBoard(challengeId: int, results: seq<ScoreView>)

  const MasterLabel := "Master / Navigator Certified"

  function InChallenge(challengeId: int): ChallengeScoreRow -> bool
  {
    (r: ChallengeScoreRow) => r.data.challengeId == challengeId
  }

  function ByUser(userId: string): ChallengeScoreRow -> bool
  {
    (r: ChallengeScoreRow) => r.data.userId == userId
  }

  function InChallengeByUser(challengeId: int, userId: string): ChallengeScoreRow -> bool
  {
    (r: ChallengeScoreRow) => r.data.challengeId == challengeId && r.data.userId == userId
  }

  /** `orderBy: { score: 'desc' }`. */
  function ScoreDesc(a: ChallengeScoreRow, b: ChallengeScoreRow): bool { a.data.score >= b.data.score }

  lemma ScoreDescTotalPreorder()
    ensures TotalPreorder(ScoreDesc)
  {
  }

  /** `idx === 0 ? '1st' : '2nd'`. */
  function Position(idx: nat): string
  {
    if idx == 0 then "1st" else "2nd"
  }

  function ViewOf(s: ChallengeScoreRow, idx: nat, userId: string): (v: ScoreView)
    ensures v.userId == s.data.userId && v.name == s.data.userId && v.score == s.data.score
    ensures v.position == Position(idx)
    ensures v.Full? <==> s.data.userId == userId
    ensures v.Full? ==> v.criteria == s.data.criteria && v.logs == s.data.logs
  {
    if s.data.userId == userId then Full(s.data.userId, s.data.userId, s.data.score, Position(idx), s.data.criteria, s.data.logs)
    else Brief(s.data.userId, s.data.userId, s.data.score, Position(idx))
  }

  /** The challenge's rows in the order `getScore` reads them. */
  function ChallengeRows(rows: seq<ChallengeScoreRow>, challengeId: int): (sorted: seq<ChallengeScoreRow>)
    ensures |sorted| == CountWhere(rows, InChallenge(challengeId))
    ensures multiset(sorted) == multiset(Filter(rows, InChallenge(challengeId)))
    ensures SortedBy(sorted, ScoreDesc)
    ensures forall i :: 0 <= i < |sorted| ==> sorted[i] in rows && sorted[i].data.challengeId == challengeId
  {
    var mine := Filter(rows, InChallenge(challengeId));
    ScoreDescTotalPreorder();
    SortBySorted(mine, ScoreDesc);
    var sorted := SortBy(mine, ScoreDesc);
    assert |sorted| == |multiset(sorted)| == |multiset(mine)| == |mine|;
    forall i | 0 <= i < |sorted| ensures sorted[i] in rows && sorted[i].data.challengeId == challengeId {
      assert sorted[i] in multiset(mine);
      assert sorted[i] in mine;
    }
    sorted
  }

  /** The requester appears among the challenge's rows exactly when one of
      the rows is theirs. */
  lemma ChallengeRowsHasUser(rows: seq<ChallengeScoreRow>, challengeId: int, userId: string)
    ensures (exists i :: 0 <= i < |ChallengeRows(rows, challengeId)| && ChallengeRows(rows, challengeId)[i].data.userId == userId)
      <==> CountWhere(rows, InChallengeByUser(challengeId, userId)) > 0
  {
    SameRowsHasUser(rows, challengeId, userId, ChallengeRows(rows, challengeId));
  }

  /** Any reordering of the challenge's rows holds a row of the user exactly
      when the table does. */
  lemma {:induction false} SameRowsHasUser(rows: seq<ChallengeScoreRow>, challengeId: int, userId: string,
                                           sorted: seq<ChallengeScoreRow>)
    requires multiset(sorted) == multiset(Filter(rows, InChallenge(challengeId)))
    ensures (exists i :: 0 <= i < |sorted| && sorted[i].data.userId == userId)
      <==> CountWhere(rows, InChallengeByUser(challengeId, userId)) > 0
  {
    if CountWhere(rows, InChallengeByUser(challengeId, userId)) > 0 {
      var k :| 0 <= k < |rows| && InChallengeByUser(challengeId, userId)(rows[k]);
      UserRowIsListed(rows, challengeId, sorted, rows[k]);
    }
    if exists i :: 0 <= i < |sorted| && sorted[i].data.userId == userId {
      var i :| 0 <= i < |sorted| && sorted[i].data.userId == userId;
      ListedRowIsStored(rows, challengeId, sorted, i);
    }
  }

  /** A stored row of the challenge is among its reordered rows. */
  lemma UserRowIsListed(rows: seq<ChallengeScoreRow>, challengeId: int, sorted: seq<ChallengeScoreRow>,
                        row: ChallengeScoreRow)
    requires multiset(sorted) == multiset(Filter(rows, InChallenge(challengeId)))
    requires row in rows && row.data.challengeId == challengeId
    ensures row in sorted
  {
    assert InChallenge(challengeId)(row);
    assert row in Filter(rows, InChallenge(challengeId));
    assert row in multiset(sorted);
  }

  /** A listed row comes from the table, so its user has a row there. */
  lemma ListedRowIsStored(rows: seq<ChallengeScoreRow>, challengeId: int, sorted: seq<ChallengeScoreRow>, i: nat)
    requires multiset(sorted) == multiset(Filter(rows, InChallenge(challengeId)))
    requires i < |sorted|
    ensures CountWhere(rows, InChallengeByUser(challengeId, sorted[i].data.userId)) > 0
  {
    var mine := Filter(rows, InChallenge(challengeId));
    assert sorted[i] in multiset(sorted);
    assert sorted[i] in mine;
    var m :| 0 <= m < |mine| && mine[m] == sorted[i];
    var k :| 0 <= k < |rows| && rows[k] == mine[m];
    assert InChallengeByUser(challengeId, sorted[i].data.userId)(rows[k]);
  }

  /** `sorted.map(...)`: each row viewed at its position. */
  function Results(sorted: seq<ChallengeScoreRow>, challengeId: int, rows: seq<ChallengeScoreRow>, userId: string)
    : (res: seq<ScoreView>)
    requires SortedBy(sorted, ScoreDesc)
    requires forall i :: 0 <= i < |sorted| ==> sorted[i] in rows && sorted[i].data.challengeId == challengeId
    ensures |res| == |sorted|
    ensures forall i :: 0 <= i < |res| ==> res[i] == ViewOf(sorted[i], i, userId)
    ensures forall i, j :: 0 <= i < j < |res| ==> res[i].score >= res[j].score
    ensures forall i :: 0 <= i < |res| ==>
      && res[i].position == Position(i)
      && (res[i].Full? <==> res[i].userId == userId)
      && exists row :: row in rows && row.data.challengeId == challengeId && res[i] == ViewOf(row, i, userId)
  {
    var res := seq(|sorted|, i requires 0 <= i < |sorted| => ViewOf(sorted[i], i, userId));
    assert forall i :: 0 <= i < |sorted| ==> res[i] == ViewOf(sorted[i], i, userId);
    assert forall i, j :: 0 <= i < j < |res| ==> ScoreDesc(sorted[i], sorted[j]);
    res
  }

  /** `getScore`: the challenge's rows by descending score; NotFound when
      there is none or when the requester has none among them. */
  function GetScore(rows: seq<ChallengeScoreRow>, challengeId: int, userId: string): (r: Result<ScoreBoard>)
    ensures CountWhere(rows, InChallenge(challengeId)) == 0 ==> r == Err(NotFound("No scores found"))
    ensures (CountWhere(rows, InChallenge(challengeId)) > 0 && CountWhere(rows, InChallengeByUser(challengeId, userId)) == 0)
      ==> r == Err(NotFound("User score not found"))
    ensures r.Ok? <==> CountWhere(rows, InChallengeByUser(challengeId, userId)) > 0
    ensures r.Ok? ==> (r.value.challengeId == challengeId
                       && |r.value.results| == CountWhere(rows, InChallenge(challengeId)))
    ensures r.Ok? ==> forall i, j :: 0 <= i < j < |r.value.results| ==> r.value.results[i].score >= r.value.results[j].score
    ensures r.Ok? ==> forall i :: 0 <= i < |r.value.results| ==>
      && r.value.results[i].position == Position(i)
      && (r.value.results[i].Full? <==> r.value.results[i].userId == userId)
      && exists row :: row in rows && row.data.challengeId == challengeId && r.value.results[i] == ViewOf(row, i, userId)
    ensures r.Ok? ==> var sorted := ChallengeRows(rows, challengeId);
      |r.value.results| == |sorted| && forall i :: 0 <= i < |sorted| ==> r.value.results[i] == ViewOf(sorted[i], i, userId)
  {
    var sorted := ChallengeRows(rows, challengeId);
    ChallengeRowsHasUser(rows, challengeId, userId);
    if |sorted| == 0 then Err(NotFound("No scores found"))
    else if forall i :: 0 <= i < |sorted| ==> sorted[i].data.userId != userId then Err(NotFound("User score not found"))
    else
      Ok(ScoreBoard(challengeId, Results(sorted, challengeId, rows, userId)))
  }

  /** `getUserChallengeRanking`: the summed-score leaderboard whose top label
      is "Master / Navigator Certified". */
  function UserChallengeRanking(groups: seq<GroupSum>, users: seq<UserInfo>, viewer: string)
    : (b: Option<Board<RankedEntry>>)
    ensures b.None? <==> |groups| == 0
    ensures b.Some? ==> b.value.topThree + b.value.remaining == RankGroups(groups, users, MasterLabel)
    ensures b.Some? ==> |b.value.topThree| == if |groups| < 3 then |groups| else 3
    ensures b.Some? ==> (b.value.userDetails.Some? <==> exists g :: g in groups && g.userId == viewer)
  {
    SumRanking(groups, users, MasterLabel, viewer)
  }

  /** The table keeps at most two rows per challenge and one per user in a
      challenge. */
  ghost predicate TwoSides(rows: seq<ChallengeScoreRow>)
  {
    && (forall c :: CountWhere(rows, InChallenge(c)) <= 2)
    && (forall c, u :: CountWhere(rows, InChallengeByUser(c, u)) <= 1)
  }

  /** With the table in that shape, a result has at most two entries, so the
      position labels "1st" and "2nd" are never repeated, and the requester
      sees exactly one full entry. */
  lemma {:induction false} ResultsAreTwoSided(rows: seq<ChallengeScoreRow>, challengeId: int, userId: string)
    requires TwoSides(rows)
    requires GetScore(rows, challengeId, userId).Ok?
    ensures var res := GetScore(rows, challengeId, userId).value.results;
      && 1 <= |res| <= 2
      && res[0].position == "1st"
      && (|res| == 2 ==> res[1].position == "2nd")
  {
    assert CountWhere(rows, InChallenge(challengeId)) <= 2;
  }

  class ChallengeScoreStore {
    var rows: seq<ChallengeScoreRow>
    var nextId: nat

    ghost predicate Valid()
      reads this
    {
      && (forall i :: 0 <= i < |rows| ==> rows[i].id < nextId)
      && TwoSides(rows)
    }

    constructor ()
      ensures Valid() && rows == [] && nextId == 0
    {
      rows := [];
      nextId := 0;
    }

    /** `addScore`: a second submission by the same user, then a third side,
        is refused; otherwise the row is stored as sent. The two checks are
        what keep the table two-sided. */
    method AddScore(dto: NewChallengeScore) returns (r: Result<ChallengeScoreRow>)
      requires Valid()
      modifies this
      ensures Valid()
      ensures CountWhere(old(rows), InChallengeByUser(dto.challengeId, dto.userId)) > 0 ==>
        r == Err(BadRequest("User already submitted score"))
      ensures (CountWhere(old(rows), InChallengeByUser(dto.challengeId, dto.userId)) == 0
               && CountWhere(old(rows), InChallenge(dto.challengeId)) >= 2) ==>
        r == Err(BadRequest("Only two users allowed per challenge"))
      ensures r.Ok? <==> CountWhere(old(rows), InChallengeByUser(dto.challengeId, dto.userId)) == 0
                         && CountWhere(old(rows), InChallenge(dto.challengeId)) < 2
      ensures r.Ok? ==> r.value == ChallengeScoreRow(old(nextId), dto) && rows == old(rows) + [r.value]
      ensures r.Err? ==> rows == old(rows) && nextId == old(nextId)
    {
      var existing := Filter(rows, InChallenge(dto.challengeId));
      if exists i :: 0 <= i < |existing| && existing[i].data.userId == dto.userId {
        return Err(BadRequest("User already submitted score"));
      }
      if |existing| >= 2 {
        return Err(BadRequest("Only two users allowed per challenge"));
      }
      NoSubmissionYet(rows, dto.challengeId, dto.userId, existing);
      var row := ChallengeScoreRow(nextId, dto);
      StaysTwoSided(rows, row);
      rows := rows + [row];
      nextId := nextId + 1;
      r := Ok(row);
    }
  }

  /** No earlier row of the challenge is by the user: the per-user count is 0. */
  lemma NoSubmissionYet(rows: seq<ChallengeScoreRow>, c: int, u: string, e: seq<ChallengeScoreRow>)
    requires e == Filter(rows, InChallenge(c))
    requires forall i :: 0 <= i < |e| ==> e[i].data.userId != u
    ensures CountWhere(rows, InChallengeByUser(c, u)) == 0
  {
    forall k | 0 <= k < |rows| ensures !InChallengeByUser(c, u)(rows[k]) {
      if rows[k].data.challengeId == c {
        assert InChallenge(c)(rows[k]);
        assert rows[k] in e;
        var i :| 0 <= i < |e| && e[i] == rows[k];
        assert rows[k].data.userId != u;
      }
    }
  }

  /** Appending a row for a challenge with fewer than two rows and none by
      the same user keeps the table two-sided. */
  lemma StaysTwoSided(rows: seq<ChallengeScoreRow>, row: ChallengeScoreRow)
    requires TwoSides(rows)
    requires CountWhere(rows, InChallenge(row.data.challengeId)) < 2
    requires CountWhere(rows, InChallengeByUser(row.data.challengeId, row.data.userId)) == 0
    ensures TwoSides(rows + [row])
  {
    forall c ensures CountWhere(rows + [row], InChallenge(c)) <= 2 {
      CountWhereAppend(rows, row, InChallenge(c));
    }
    forall c, u ensures CountWhere(rows + [row], InChallengeByUser(c, u)) <= 1 {
      CountWhereAppend(rows, row, InChallengeByUser(c, u));
    }
  }
}
