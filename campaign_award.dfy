/** Rewards and certificates drawn from campaign results: a title, badge and
    trophy per result, the user's summary over certification-level results,
    the certificate list and a single certificate. */
module CampaignAward {
  import opened Common
  import Rewards
  import opened CampaignModeScore

  /** The `{ userId, totalScore }` pair `assignRewards` reads. */
  datatype Score = Score(userId: Option<string>, totalScore: Option<int>)

  datatype Award = Award(memberId: Option<string>, title: string, badge: string, trophy: string)

  /** `getLatestResultByUser`: the row merged with its award. */
  datatype LatestResult = LatestResult(row: CampaignRow, award: Award)

  datatype Summary = Summary(totalBudget: nat, budgets: seq<string>, totalCertifications: nat)

  datatype Certificate = Certificate(id: nat, memberId: Option<string>, title: string, badge: string,
                                     strengths: string, totalScore: int, date: int)

  datatype Certifications = Certifications(earned: nat, total: nat, certifications: seq<Certificate>)

  /** `getCertificationById`'s answer: the row with award and certificate title. */
  datatype CertificateView = CertificateView(row: CampaignRow, memberId: Option<string>, badge: string,
                                             trophy: string, title: string)

  /** `totalScore || 0` (and `?? 0`, the same on integers). */
  function ScoreOr0(s: Option<int>): int
  {
    if s.Some? then s.value else 0
  }

  function ScoreOf(r: CampaignRow): int { ScoreOr0(r.data.totalScore) }

  function ScoreFromRow(r: CampaignRow): Score { Score(r.data.userId, r.data.totalScore) }

  /** The body of `assignRewards`'s map for one score. */
  function AwardOf(s: Score): (a: Award)
    ensures a.memberId == s.userId
    ensures a.badge == "" <==> ScoreOr0(s.totalScore) < 70
    ensures a.trophy != "" <==> ScoreOr0(s.totalScore) >= 90
    ensures a.title == "Perfect Performer" <==> ScoreOr0(s.totalScore) == 100
    ensures a.title == "Participant" <==> ScoreOr0(s.totalScore) < 70
  {
    var score := ScoreOr0(s.totalScore);
    if score == 100 then Award(s.userId, "Perfect Performer", "Platinum Star", "Gold Trophy")
    else if score >= 90 then Award(s.userId, "Top Performer", "Gold Star", "Silver Trophy")
    else if score >= 80 then Award(s.userId, "High Achiever", "Silver Star", "")
    else if score >= 70 then Award(s.userId, "Rising Star", "Bronze Star", "")
    else Award(s.userId, "Participant", "", "")
  }

  /** From 70 up the campaign badge and trophy are those of the other modes;
      below 70 the campaign gives no badge where they give "Participant". */
  lemma AwardAgreesWithModeRewards(s: Score)
    ensures var score := ScoreOr0(s.totalScore);
      && (score >= 70 ==> AwardOf(s).badge == Rewards.AssignRewards(score).badge)
      && AwardOf(s).trophy == Rewards.AssignRewards(score).trophy
      && (score < 70 ==> Rewards.AssignRewards(score).badge == "Participant")
  {
  }

  /** `assignRewards`: one award per score, in order. */
  function AssignAwards(scores: seq<Score>): (r: seq<Award>)
    ensures |r| == |scores|
    ensures forall i :: 0 <= i < |r| ==> r[i] == AwardOf(scores[i])
  {
    seq(|scores|, i requires 0 <= i < |scores| => AwardOf(scores[i]))
  }

  function ScoresOf(rows: seq<CampaignRow>): (r: seq<Score>)
    ensures |r| == |rows|
    ensures forall i :: 0 <= i < |r| ==> r[i] == ScoreFromRow(rows[i])
  {
    seq(|rows|, i requires 0 <= i < |rows| => ScoreFromRow(rows[i]))
  }

  function HasBadge(a: Award): bool { a.badge != "" }

  function Qualifies(r: CampaignRow): bool { ScoreOf(r) >= 70 }

  function OfUserAtLevel3(userId: string): CampaignRow -> bool
  {
    (r: CampaignRow) => r.data.userId == Some(userId) && r.data.level == 3
  }

  /** The awards with a badge are exactly as many as the rows scoring at
      least 70. */
  lemma {:induction false} BadgesCountQualifying(rows: seq<CampaignRow>)
    ensures CountWhere(AssignAwards(ScoresOf(rows)), HasBadge) == CountWhere(rows, Qualifies)
  {
    if |rows| > 0 {
      BadgesCountQualifying(rows[1..]);
      assert AssignAwards(ScoresOf(rows))[1..] == AssignAwards(ScoresOf(rows[1..]));
    }
  }

  /** `getLatestResultByUser`. */
  function LatestResultByUser(rows: seq<CampaignRow>, userId: string): (r: Option<LatestResult>)
    ensures r.None? <==> forall x :: x in rows ==> x.data.userId != Some(userId)
    ensures r.Some? ==> r.value.row in rows && r.value.row.data.userId == Some(userId)
    ensures r.Some? ==> forall x :: x in rows && x.data.userId == Some(userId) ==> r.value.row.createdAt >= x.createdAt
    ensures r.Some? ==> r.value.award == AwardOf(ScoreFromRow(r.value.row))
  {
    match LatestOf(rows, userId)
    case None => None
    case Some(row) => Some(LatestResult(row, AwardOf(ScoreFromRow(row))))
  }

  /** `getUserSummary`: over the user's level-3 results, the badges earned
      and the number of such results. */
  function UserSummary(rows: seq<CampaignRow>, userId: string): (s: Summary)
    ensures s.totalCertifications == CountWhere(rows, OfUserAtLevel3(userId))
    ensures s.totalBudget == |s.budgets| == CountWhere(Filter(rows, OfUserAtLevel3(userId)), Qualifies)
    ensures s.totalBudget <= s.totalCertifications
    ensures forall i :: 0 <= i < |s.budgets| ==> s.budgets[i] != ""
    ensures forall i :: 0 <= i < |s.budgets| ==>
      s.budgets[i] == AwardOf(ScoreFromRow(Filter(Filter(rows, OfUserAtLevel3(userId)), Qualifies)[i])).badge
    ensures s.totalCertifications == 0 ==> s == Summary(0, [], 0)
  {
    SummaryOf(Filter(rows, OfUserAtLevel3(userId)))
  }

  /** The summary over the certification rows already selected. */
  function SummaryOf(certRows: seq<CampaignRow>): (s: Summary)
    ensures s.totalCertifications == |certRows|
    ensures s.totalBudget == |s.budgets| == CountWhere(certRows, Qualifies)
    ensures forall i :: 0 <= i < |s.budgets| ==> s.budgets[i] != ""
    ensures forall i :: 0 <= i < |s.budgets| ==>
      s.budgets[i] == AwardOf(ScoreFromRow(Filter(certRows, Qualifies)[i])).badge
    ensures |certRows| == 0 ==> s == Summary(0, [], 0)
  {
    if |certRows| == 0 then Summary(0, [], 0)
    else
      var earned := Filter(AssignAwards(ScoresOf(certRows)), HasBadge);
      EarnedBadges(certRows);
      BadgeAwardsAreQualifyingAwards(certRows);
      var budgets := seq(|earned|, i requires 0 <= i < |earned| => earned[i].badge);
      Summary(|budgets|, budgets, |certRows|)
  }

  /** Keeping the awards with a badge is awarding the rows scoring at least
      70: the two orders of filter and map agree. */
  lemma {:induction false} BadgeAwardsAreQualifyingAwards(rows: seq<CampaignRow>)
    ensures Filter(AssignAwards(ScoresOf(rows)), HasBadge) == AssignAwards(ScoresOf(Filter(rows, Qualifies)))
  {
    if |rows| > 0 {
      BadgeAwardsAreQualifyingAwards(rows[1..]);
      var a := AssignAwards(ScoresOf(rows));
      assert a[1..] == AssignAwards(ScoresOf(rows[1..]));
      assert HasBadge(a[0]) == Qualifies(rows[0]);
      var head := if Qualifies(rows[0]) then [rows[0]] else [];
      assert Filter(rows, Qualifies) == head + Filter(rows[1..], Qualifies);
      assert AssignAwards(ScoresOf(head)) == if HasBadge(a[0]) then [a[0]] else [];
      AwardsAppend(head, Filter(rows[1..], Qualifies));
    }
  }

  /** Awarding distributes over concatenation. */
  lemma AwardsAppend(a: seq<CampaignRow>, b: seq<CampaignRow>)
    ensures AssignAwards(ScoresOf(a + b)) == AssignAwards(ScoresOf(a)) + AssignAwards(ScoresOf(b))
  {
    assert forall i :: 0 <= i < |a + b| ==> AssignAwards(ScoresOf(a + b))[i] == AwardOf(ScoreFromRow((a + b)[i]));
  }

  /** The awards kept for their badge are as many as the rows scoring at
      least 70, and each carries a badge name. */
  lemma {:induction false} EarnedBadges(rows: seq<CampaignRow>)
    ensures var earned := Filter(AssignAwards(ScoresOf(rows)), HasBadge);
      && |earned| == CountWhere(rows, Qualifies)
      && forall i :: 0 <= i < |earned| ==> earned[i].badge != ""
  {
    var earned := Filter(AssignAwards(ScoresOf(rows)), HasBadge);
    BadgesCountQualifying(rows);
    forall i | 0 <= i < |earned| ensures earned[i].badge != "" {
      assert HasBadge(earned[i]);
    }
  }

  /** The certificate tiers of `getUserCertifications`. */
  function CertTier(score: int): (t: (string, string))
    ensures t.0 == "Feedback" <==> score < 70
    ensures t.0 == "Gold Badge" <==> score >= 90
  {
    if score >= 90 then ("Gold Badge", "Navigator Expert Certificate")
    else if score >= 80 then ("Silver Badge", "Confirmed Navigator Certificate")
    else if score >= 70 then ("Bronze Badge", "Attestation of Participation")
    else ("Feedback", "Recommendation to replay the challenge")
  }

  function CertificateOf(row: CampaignRow, memberId: Option<string>): Certificate
  {
    var t := CertTier(ScoreOf(row));
    Certificate(row.id, memberId, t.1, t.0, row.data.strengths, ScoreOf(row), row.createdAt)
  }

  /** The k-th certificate from the k-th row and the k-th award's member. */
  function PairCertificates(src: seq<CampaignRow>, awards: seq<Award>): (r: seq<Certificate>)
    requires |awards| <= |src|
    ensures |r| == |awards|
    ensures forall k :: 0 <= k < |r| ==> r[k] == CertificateOf(src[k], awards[k].memberId)
  {
    if |awards| == 0 then []
    else [CertificateOf(src[0], awards[0].memberId)] + PairCertificates(src[1..], awards[1..])
  }

  /** `getUserCertifications` as written: the awards are filtered to those
      with a badge, but the k-th certificate then reads its id, score,
      strengths and date from the k-th row of the unfiltered list. */
  function UserCertificationsAsWritten(rows: seq<CampaignRow>, userId: string): (c: Certifications)
    ensures var scores := Filter(rows, OfUser(userId));
      && c.earned == c.total == |scores|
      && |c.certifications| == CountWhere(scores, Qualifies)
      && forall k :: 0 <= k < |c.certifications| ==> c.certifications[k] == CertificateOf(scores[k], Some(userId))
  {
    var scores := Filter(rows, OfUser(userId));
    var kept := Filter(AssignAwards(ScoresOf(scores)), HasBadge);
    KeptAwardsOfUser(rows, userId);
    Certifications(|scores|, |scores|, PairCertificates(scores, kept))
  }

  /** The awards the badge filter keeps for one user are as many as the
      user's rows scoring at least 70, and all name the user. */
  lemma {:induction false} KeptAwardsOfUser(rows: seq<CampaignRow>, userId: string)
    ensures var scores := Filter(rows, OfUser(userId));
      var kept := Filter(AssignAwards(ScoresOf(scores)), HasBadge);
      && |kept| == CountWhere(scores, Qualifies) <= |scores|
      && forall k :: 0 <= k < |kept| ==> kept[k].memberId == Some(userId)
  {
    var scores := Filter(rows, OfUser(userId));
    BadgesCountQualifying(scores);
    UserRowsOfUser(rows, userId);
    AwardsKeepMember(scores, userId);
  }

  /** The rows `where: { userId }` selects all belong to the user. */
  lemma {:induction false} UserRowsOfUser(rows: seq<CampaignRow>, userId: string)
    ensures var scores := Filter(rows, OfUser(userId));
      forall k :: 0 <= k < |scores| ==> scores[k] in rows && scores[k].data.userId == Some(userId)
  {
    var scores := Filter(rows, OfUser(userId));
    forall k | 0 <= k < |scores| ensures scores[k] in rows && scores[k].data.userId == Some(userId) {
      assert OfUser(userId)(scores[k]);
    }
  }

  /** Awards of one user's rows all name that user as member. */
  lemma {:induction false} AwardsKeepMember(scores: seq<CampaignRow>, userId: string)
    requires forall k :: 0 <= k < |scores| ==> scores[k].data.userId == Some(userId)
    ensures var kept := Filter(AssignAwards(ScoresOf(scores)), HasBadge);
      forall k :: 0 <= k < |kept| ==> kept[k].memberId == Some(userId)
  {
    var awards := AssignAwards(ScoresOf(scores));
    var kept := Filter(awards, HasBadge);
    forall k | 0 <= k < |kept| ensures kept[k].memberId == Some(userId) {
      var j :| 0 <= j < |awards| && awards[j] == kept[k];
    }
  }

  /** One certificate per row, in order. */
  function CertificatesFor(src: seq<CampaignRow>, memberId: Option<string>): (r: seq<Certificate>)
    ensures |r| == |src|
    ensures forall k :: 0 <= k < |r| ==> r[k] == CertificateOf(src[k], memberId)
  {
    seq(|src|, k requires 0 <= k < |src| => CertificateOf(src[k], memberId))
  }

  /** `getUserCertifications` as evidently intended: one certificate per
      result scoring at least 70, built from that result. */
  function UserCertifications(rows: seq<CampaignRow>, userId: string): (c: Certifications)
    ensures var scores := Filter(rows, OfUser(userId));
      && c.earned == c.total == |scores|
      && c.certifications == CertificatesFor(Filter(scores, Qualifies), Some(userId))
    ensures forall k :: 0 <= k < |c.certifications| ==>
      && c.certifications[k].totalScore >= 70
      && c.certifications[k].badge != "Feedback"
      && exists x :: x in rows && x.data.userId == Some(userId) && x.id == c.certifications[k].id
           && ScoreOf(x) == c.certifications[k].totalScore
  {
    var scores := Filter(rows, OfUser(userId));
    QualifyingCertificates(rows, userId);
    Certifications(|scores|, |scores|, CertificatesFor(Filter(scores, Qualifies), Some(userId)))
  }

  /** Each intended certificate describes one of the user's rows scoring at
      least 70, with a badge other than "Feedback". */
  lemma {:induction false} QualifyingCertificates(rows: seq<CampaignRow>, userId: string)
    ensures var certs := CertificatesFor(Filter(Filter(rows, OfUser(userId)), Qualifies), Some(userId));
      forall k :: 0 <= k < |certs| ==>
        && certs[k].totalScore >= 70
        && certs[k].badge != "Feedback"
        && exists x :: x in rows && x.data.userId == Some(userId) && x.id == certs[k].id
             && ScoreOf(x) == certs[k].totalScore
  {
    var scores := Filter(rows, OfUser(userId));
    var kept := Filter(scores, Qualifies);
    var certs := CertificatesFor(kept, Some(userId));
    UserRowsOfUser(rows, userId);
    forall k | 0 <= k < |certs|
      ensures && certs[k].totalScore >= 70
              && certs[k].badge != "Feedback"
              && exists x :: x in rows && x.data.userId == Some(userId) && x.id == certs[k].id
                   && ScoreOf(x) == certs[k].totalScore
    {
      var x := kept[k];
      assert x in scores && Qualifies(x);
      var j :| 0 <= j < |scores| && scores[j] == x;
      assert certs[k] == CertificateOf(x, Some(userId));
      assert x in rows && x.data.userId == Some(userId);
    }
  }

  /** A user whose first result scored below 70 and whose second scored at
      least 70 gets one certificate; as written it describes the first
      result, with the "Feedback" badge, instead of the second. */
  lemma CertificateReadsWrongRow(a: CampaignRow, b: CampaignRow, userId: string)
    requires a.data.userId == Some(userId) && b.data.userId == Some(userId)
    requires ScoreOf(a) < 70 <= ScoreOf(b)
    ensures var w := UserCertificationsAsWritten([a, b], userId).certifications;
      |w| == 1 && w[0].id == a.id && w[0].badge == "Feedback"
    ensures var c := UserCertifications([a, b], userId).certifications;
      |c| == 1 && c[0].id == b.id && c[0].badge != "Feedback"
  {
    var rows := [a, b];
    assert rows[1..] == [b];
    assert [b][1..] == [];
    assert Filter(rows, OfUser(userId)) == [a, b];
    assert Filter([a, b], Qualifies) == [b];
  }

  /** `getCertificationById`: the user's level-3 row with that id, with its
      award and the certificate title the badge earns. */
  function CertificationById(rows: seq<CampaignRow>, userId: string, certId: nat): (r: Option<CertificateView>)
    ensures r.None? <==> forall x :: x in rows ==> !(x.data.userId == Some(userId) && x.id == certId && x.data.level == 3)
    ensures r.Some? ==> (r.value.row in rows && r.value.row.id == certId && r.value.row.data.level == 3
                         && r.value.row.data.userId == Some(userId))
    ensures r.Some? ==> (r.value.title == "" <==> ScoreOf(r.value.row) < 70)
    ensures r.Some? && ScoreOf(r.value.row) >= 70 ==> r.value.title == CertTier(ScoreOf(r.value.row)).1
  {
    match Find(rows, (x: CampaignRow) => x.data.userId == Some(userId) && x.id == certId && x.data.level == 3)
    case None => None
    case Some(row) =>
      var award := AwardOf(ScoreFromRow(row));
      var title :=
        if award.badge == "Platinum Star" || award.badge == "Gold Star" then "Navigator Expert Certificate"
        else if award.badge == "Silver Star" then "Confirmed Navigator Certificate"
        else if award.badge == "Bronze Star" then "Attestation of Participation"
        else "";
      Some(CertificateView(row, award.memberId, award.badge, award.trophy, title))
  }
}
