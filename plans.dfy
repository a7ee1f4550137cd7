/** The fixed catalogue of subscription plans. */
module Plans {
  import opened Common

  datatype PlanFeature = PlanFeature(name: string, included: bool)

  datatype Plan = Plan(id: int, name: string, price: string, features: seq<PlanFeature>)

  const FreePlanId := 1

  const Catalogue: seq<Plan> := [
    Plan(1, "Free", "0€", [
      PlanFeature("Solo Mode level 1", true),
      PlanFeature("AI feedback per day ", true),
      PlanFeature("certified challange per day", true),
      PlanFeature("limited badges", true)]),
    Plan(2, "Navigator", "3.99€/month", [
      PlanFeature("Full Solo Mode", true),
      PlanFeature("weekly mission", true),
      PlanFeature("AI tips & debrief", true),
      PlanFeature("XP Tracking", true),
      PlanFeature("Community leaderboard", true),
      PlanFeature("bonus mode", true)]),
    Plan(3, "MasterNavigator", "9.99€/month", [
      PlanFeature("All Navigator + Features", true),
      PlanFeature("Official Certification", true),
      PlanFeature("Monthly Reports", true),
      PlanFeature("Monthly live Coaching", true),
      PlanFeature("Exclusive Coaching Sessions", true)])
  ]

  /** `getAllPlans`: three plans with ids 1, 2 and 3 in that order, the
      first of them the free plan. */
  function GetAllPlans(): (r: seq<Plan>)
    ensures |r| == 3
    ensures forall i :: 0 <= i < |r| ==> r[i].id == i + 1
    ensures r[0].id == FreePlanId && r[0].price == "0€"
    ensures forall i :: 0 <= i < |r| ==> forall f :: f in r[i].features ==> f.included
  {
    Catalogue
  }

  function HasPlanId(id: int): Plan -> bool
  {
    (p: Plan) => p.id == id
  }

  /** `getPlanById`: the plan with that id, or undefined for any id outside
      1, 2 and 3. */
  function GetPlanById(id: int): (r: Option<Plan>)
    ensures r.Some? ==> r.value.id == id && r.value in GetAllPlans()
    ensures r.None? <==> !(1 <= id <= 3)
  {
    var r := Find(Catalogue, HasPlanId(id));
    assert 1 <= id <= 3 ==> HasPlanId(id)(Catalogue[id - 1]);
    r
  }

  /** Each listed plan is found again by its own id. */
  lemma {:induction false} GetPlanByIdOfListed(i: nat)
    requires i < |GetAllPlans()|
    ensures GetPlanById(GetAllPlans()[i].id) == Some(GetAllPlans()[i])
  {
    var p := GetAllPlans()[i];
    assert FirstIndex(Catalogue, HasPlanId(p.id)) == Some(i) by {
      assert Catalogue[1..][1..] == Catalogue[2..];
    }
  }
}
