/** The scoring vocabulary shared by solo mode and the final team score: the
    five criteria an attempt is judged on, and the score-to-reward table (a
    badge for every score and a trophy from 90 up). */
module Rewards {

  /** The five raw criterion values of an attempt. */
  datatype Criteria = Criteria(alignmentStrategy: int, objectiveClarity: int, keyResultQuality: int,
                               initiativeRelevance: int, challengeAdoption: int)

  datatype Rewards = Rewards(badge: string, trophy: string)

  /** `assignRewards(score)`; exactly 100 is the only Platinum score. */
  function AssignRewards(score: int): (r: Rewards)
    ensures r.badge != ""
    ensures r.trophy != "" <==> score >= 90
    ensures r.badge == "Platinum Star" <==> score == 100
    ensures r.trophy == "Gold Trophy" <==> score == 100
    ensures r.trophy == "Silver Trophy" <==> score >= 90 && score != 100
    ensures r.badge == "Gold Star" <==> score >= 90 && score != 100
    ensures r.badge == "Silver Star" <==> 80 <= score < 90
    ensures r.badge == "Bronze Star" <==> 70 <= score < 80
    ensures r.badge == "Participant" <==> score < 70
  {
    if score == 100 then Rewards("Platinum Star", "Gold Trophy")
    else if score >= 90 then Rewards("Gold Star", "Silver Trophy")
    else if score >= 80 then Rewards("Silver Star", "")
    else if score >= 70 then Rewards("Bronze Star", "")
    else Rewards("Participant", "")
  }

  /** The standing of a badge, from Participant (0) up to Platinum Star (4). */
  function BadgeRank(badge: string): (k: nat)
    ensures k <= 4
  {
    if badge == "Platinum Star" then 4
    else if badge == "Gold Star" then 3
    else if badge == "Silver Star" then 2
    else if badge == "Bronze Star" then 1
    else 0
  }

  /** Up to 100, a higher score never earns a lower badge or loses a trophy. */
  lemma RewardsMonotone(p: int, q: int)
    requires p <= q <= 100
    ensures BadgeRank(AssignRewards(p).badge) <= BadgeRank(AssignRewards(q).badge)
    ensures AssignRewards(p).trophy != "" ==> AssignRewards(q).trophy != ""
  {
  }

  /** Above 100 the table is not monotone: 101 earns less than 100. */
  lemma RewardsDropAbove100()
    ensures BadgeRank(AssignRewards(101).badge) < BadgeRank(AssignRewards(100).badge)
  {
  }
}
