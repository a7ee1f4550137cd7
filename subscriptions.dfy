/** Users' plan subscriptions: the free plan on sign-up, switching plans,
    expiry on read, and the paged admin listing with per-plan counts. Dates
    are integers supplied by the caller; `expiry` stands for one month after
    `now`. */
module Subscriptions {
  import opened Common
  import opened Sorting
  import Plans

  const PageSize := 10

  datatype Subscription = Subscription(id: nat, userId: string, planId: int, startDate: int, expiryDate: int, active: bool)

  datatype UserRow = UserRow(id: string, name: string, email: string)

  /** One row of `groupBy({ by: ['planId'], _count: { planId: true } })`. */
  datatype PlanGroup = PlanGroup(planId: int, count: nat)

  datatype PlanCounts = PlanCounts(free: nat, navigator: nat, masterNavigator: nat)

  datatype UsersPage = UsersPage(subscriptions: seq<Subscription>, users: seq<UserRow>, counts: PlanCounts, hasMore: bool)

  /** `where: { userId, active: true }`. */
  function ActiveOf(userId: string): Subscription -> bool
  {
    (s: Subscription) => s.userId == userId && s.active
  }

  function IsActive(s: Subscription): bool { s.active }

  /** `where: { active: true, planId }`. */
  function ActiveOnPlan(planId: int): Subscription -> bool
  {
    (s: Subscription) => s.active && s.planId == planId
  }

  /** No user holds two active subscriptions. */
  ghost predicate AtMostOneActive(rows: seq<Subscription>)
  {
    forall u :: CountWhere(rows, ActiveOf(u)) <= 1
  }

  function NewSubscription(id: nat, userId: string, planId: int, now: int, expiry: int): Subscription
  {
    Subscription(id, userId, planId, now, expiry, true)
  }

  /** `updateMany({ where: { userId, active: true }, data: { active: false } })`. */
  function Deactivated(rows: seq<Subscription>, userId: string): (r: seq<Subscription>)
    ensures |r| == |rows|
    ensures forall i :: 0 <= i < |rows| ==>
      r[i] == if ActiveOf(userId)(rows[i]) then rows[i].(active := false) else rows[i]
  {
    seq(|rows|, i requires 0 <= i < |rows| => if ActiveOf(userId)(rows[i]) then rows[i].(active := false) else rows[i])
  }

  /** `assignDefaultFreePlan`: the table and id counter afterwards. */
  function AssignDefault(rows: seq<Subscription>, nextId: nat, userId: string, now: int, expiry: int): (r: (seq<Subscription>, nat))
  {
    if FirstIndex(rows, ActiveOf(userId)).Some? then (rows, nextId)
    else (rows + [NewSubscription(nextId, userId, Plans.FreePlanId, now, expiry)], nextId + 1)
  }

  /** After `assignDefaultFreePlan` the user has an active subscription,
      the existing rows are untouched, and a free one was added only when
      none was active. */
  lemma AssignDefaultGivesActive(rows: seq<Subscription>, nextId: nat, userId: string, now: int, expiry: int)
    ensures var r := AssignDefault(rows, nextId, userId, now, expiry);
      && CountWhere(r.0, ActiveOf(userId)) >= 1
      && r.0[..|rows|] == rows
      && (CountWhere(rows, ActiveOf(userId)) == 0 <==> r.0 == rows + [NewSubscription(nextId, userId, Plans.FreePlanId, now, expiry)])
      && (CountWhere(rows, ActiveOf(userId)) > 0 <==> r == (rows, nextId))
  {
    var r := AssignDefault(rows, nextId, userId, now, expiry);
    if FirstIndex(rows, ActiveOf(userId)).None? {
      CountWhereAppend(rows, NewSubscription(nextId, userId, Plans.FreePlanId, now, expiry), ActiveOf(userId));
      assert r.0[..|rows|] == rows;
    }
  }

  /** `assignDefaultFreePlan` is idempotent, whatever the time of the
      second call. */
  lemma AssignDefaultIdempotent(rows: seq<Subscription>, nextId: nat, userId: string, now: int, expiry: int, later: int, laterExpiry: int)
    ensures var once := AssignDefault(rows, nextId, userId, now, expiry);
      AssignDefault(once.0, once.1, userId, later, laterExpiry) == once
  {
    var once := AssignDefault(rows, nextId, userId, now, expiry);
    if FirstIndex(rows, ActiveOf(userId)).None? {
      var s := NewSubscription(nextId, userId, Plans.FreePlanId, now, expiry);
      assert ActiveOf(userId)((rows + [s])[|rows|]);
    }
  }

  /** `addSubscription` on the table: the table, the id counter, and the row returned. */
  function Subscribe(rows: seq<Subscription>, nextId: nat, userId: string, planId: int, now: int, expiry: int): (r: (seq<Subscription>, nat, Subscription))
    ensures r.2 == Subscription(r.2.id, userId, planId, now, expiry, true)
  {
    var created := NewSubscription(nextId, userId, planId, now, expiry);
    match FirstIndex(rows, ActiveOf(userId))
    case Some(k) =>
      if rows[k].planId == planId then
        var renewed := rows[k].(startDate := now, expiryDate := expiry);
        (rows[k := renewed], nextId, renewed)
      else (Deactivated(rows, userId) + [created], nextId + 1, created)
    case None => (rows + [created], nextId + 1, created)
  }

  /** Subscribing again to the active plan renews that row in place and
      adds none. */
  lemma AddSamePlanRenews(rows: seq<Subscription>, nextId: nat, userId: string, planId: int, now: int, expiry: int)
    requires FirstIndex(rows, ActiveOf(userId)).Some?
    requires rows[FirstIndex(rows, ActiveOf(userId)).value].planId == planId
    ensures var k := FirstIndex(rows, ActiveOf(userId)).value;
      var r := Subscribe(rows, nextId, userId, planId, now, expiry);
      && |r.0| == |rows| && r.1 == nextId
      && r.2 == rows[k].(startDate := now, expiryDate := expiry) && r.0[k] == r.2
      && forall i :: 0 <= i < |rows| && i != k ==> r.0[i] == rows[i]
  {
  }

  /** Any other subscription deactivates the user's active rows and adds
      one new row with the next id. */
  lemma AddOtherPlanReplaces(rows: seq<Subscription>, nextId: nat, userId: string, planId: int, now: int, expiry: int)
    requires FirstIndex(rows, ActiveOf(userId)).None? || rows[FirstIndex(rows, ActiveOf(userId)).value].planId != planId
    ensures var r := Subscribe(rows, nextId, userId, planId, now, expiry);
      && r.0 == Deactivated(rows, userId) + [r.2] && r.1 == nextId + 1 && r.2.id == nextId
  {
    if FirstIndex(rows, ActiveOf(userId)).None? {
      assert Deactivated(rows, userId) == rows;
    }
  }

  /** `addSubscription` keeps at most one active row per user, leaves the
      user exactly one (on the requested plan), and does not change how
      many active rows anyone else has. */
  /** Ids stay below the counter across a subscription. */
  lemma {:induction false} SubscribeIdsBelow(rows: seq<Subscription>, nextId: nat, userId: string, planId: int, now: int, expiry: int)
    requires forall i :: 0 <= i < |rows| ==> rows[i].id < nextId
    ensures var r := Subscribe(rows, nextId, userId, planId, now, expiry);
      forall i :: 0 <= i < |r.0| ==> r.0[i].id < r.1
  {
    var r := Subscribe(rows, nextId, userId, planId, now, expiry);
    match FirstIndex(rows, ActiveOf(userId))
    case Some(k) =>
      if rows[k].planId != planId {
        var d := Deactivated(rows, userId);
        forall i | 0 <= i < |d| ensures d[i].id < nextId {
        }
      }
    case None =>
  }

  lemma {:induction false} AddSubscriptionKeepsOneActive(rows: seq<Subscription>, nextId: nat, userId: string, planId: int, now: int, expiry: int, other: string)
    requires AtMostOneActive(rows)
    ensures var r := Subscribe(rows, nextId, userId, planId, now, expiry);
      && AtMostOneActive(r.0)
      && CountWhere(r.0, ActiveOf(userId)) == 1
      && (other != userId ==> CountWhere(r.0, ActiveOf(other)) == CountWhere(rows, ActiveOf(other)))
  {
    var r := Subscribe(rows, nextId, userId, planId, now, expiry);
    var created := NewSubscription(nextId, userId, planId, now, expiry);
    match FirstIndex(rows, ActiveOf(userId))
    case Some(k) =>
      if rows[k].planId == planId {
        var renewed := rows[k].(startDate := now, expiryDate := expiry);
        forall u ensures CountWhere(r.0, ActiveOf(u)) == CountWhere(rows, ActiveOf(u)) {
          CountWhereUpdate(rows, k, renewed, ActiveOf(u));
        }
        assert CountWhere(rows, ActiveOf(userId)) != 0 by {
          assert ActiveOf(userId)(rows[k]);
        }
      } else {
        forall u ensures CountWhere(r.0, ActiveOf(u)) == CountWhere(Deactivated(rows, userId), ActiveOf(u)) + (if u == userId then 1 else 0) {
          CountWhereAppend(Deactivated(rows, userId), created, ActiveOf(u));
        }
        forall u ensures CountWhere(Deactivated(rows, userId), ActiveOf(u)) == (if u == userId then 0 else CountWhere(rows, ActiveOf(u))) {
          DeactivatedCount(rows, userId, u);
        }
      }
    case None =>
      forall u ensures CountWhere(r.0, ActiveOf(u)) == CountWhere(rows, ActiveOf(u)) + (if u == userId then 1 else 0) {
        CountWhereAppend(rows, created, ActiveOf(u));
      }
  }

  /** `getUserPlan` at time `now`: the table afterwards and the plan. */
  function UserPlan(rows: seq<Subscription>, userId: string, now: int): (r: (seq<Subscription>, Option<Subscription>))
  {
    match FirstIndex(rows, ActiveOf(userId))
    case None => (rows, None)
    case Some(k) =>
      if now > rows[k].expiryDate then (rows[k := rows[k].(active := false)], None)
      else (rows, Some(rows[k]))
  }

  /** `getUserPlan` returns an active, unexpired subscription of the user
      and changes nothing, or returns null when the user has none active or
      the active one has expired; in the latter case exactly that row is
      marked inactive. */
  lemma UserPlanMeaning(rows: seq<Subscription>, userId: string, now: int)
    ensures var r := UserPlan(rows, userId, now);
      && |r.0| == |rows|
      && (r.1.Some? ==> r.0 == rows && r.1.value in rows && ActiveOf(userId)(r.1.value) && now <= r.1.value.expiryDate)
      && (r.1.None? <==>
           (CountWhere(rows, ActiveOf(userId)) == 0
            || now > rows[FirstIndex(rows, ActiveOf(userId)).value].expiryDate))
      && (r.0 != rows ==>
           var k := FirstIndex(rows, ActiveOf(userId)).value;
           r.0 == rows[k := rows[k].(active := false)])
  {
    match FirstIndex(rows, ActiveOf(userId))
    case None =>
    case Some(k) =>
      assert CountWhere(rows, ActiveOf(userId)) != 0 by {
        assert ActiveOf(userId)(rows[k]);
      }
  }

  /** Expiry keeps at most one active row per user, and once `getUserPlan`
      has returned null the user has no active row, so the next call
      returns null too. */
  lemma {:induction false} UserPlanNullStays(rows: seq<Subscription>, userId: string, now: int, later: int)
    requires AtMostOneActive(rows)
    ensures AtMostOneActive(UserPlan(rows, userId, now).0)
    ensures UserPlan(rows, userId, now).1.None? ==>
      && CountWhere(UserPlan(rows, userId, now).0, ActiveOf(userId)) == 0
      && UserPlan(UserPlan(rows, userId, now).0, userId, later).1.None?
  {
    var r := UserPlan(rows, userId, now);
    match FirstIndex(rows, ActiveOf(userId))
    case None =>
    case Some(k) =>
      if now > rows[k].expiryDate {
        forall u ensures CountWhere(r.0, ActiveOf(u)) <= CountWhere(rows, ActiveOf(u)) {
          CountWhereUpdate(rows, k, rows[k].(active := false), ActiveOf(u));
        }
        CountWhereUpdate(rows, k, rows[k].(active := false), ActiveOf(userId));
        assert CountWhere(rows, ActiveOf(userId)) == 1 by {
          assert ActiveOf(userId)(rows[k]);
        }
      }
  }

  function StartDesc(a: Subscription, b: Subscription): bool { a.startDate >= b.startDate }

  lemma StartDescTotalPreorder()
    ensures TotalPreorder(StartDesc)
  {
  }

  /** `findMany({ where: { active: true }, orderBy: { startDate: 'desc' } })`. */
  function ActiveByStartDesc(rows: seq<Subscription>): (r: seq<Subscription>)
    ensures multiset(r) == multiset(Filter(rows, IsActive))
    ensures SortedBy(r, StartDesc)
  {
    StartDescTotalPreorder();
    SortBySorted(Filter(rows, IsActive), StartDesc);
    SortBy(Filter(rows, IsActive), StartDesc)
  }

  /** The `counts` value after the `forEach` has visited `groups`: the last
      group of each of plans 1, 2 and 3, 0 for a plan with none. */
  function CountsAfter(groups: seq<PlanGroup>): (c: PlanCounts)
  {
    if |groups| == 0 then PlanCounts(0, 0, 0)
    else
      var c := CountsAfter(groups[..|groups| - 1]);
      var g := groups[|groups| - 1];
      if g.planId == 1 then c.(free := g.count)
      else if g.planId == 2 then c.(navigator := g.count)
      else if g.planId == 3 then c.(masterNavigator := g.count)
      else c
  }

  /** The count reported for plan `planId` (1, 2 or 3). */
  function CountFor(c: PlanCounts, planId: int): nat
    requires 1 <= planId <= 3
  {
    if planId == 1 then c.free else if planId == 2 then c.navigator else c.masterNavigator
  }

  /** `groups` is what the database returns for `rows`: one group per plan
      id, holding the number of active rows on that plan, and a group for
      every plan with an active row. */
  ghost predicate GroupsOf(groups: seq<PlanGroup>, rows: seq<Subscription>)
  {
    && (forall i :: 0 <= i < |groups| ==> groups[i].count == CountWhere(rows, ActiveOnPlan(groups[i].planId)))
    && (forall p :: CountWhere(rows, ActiveOnPlan(p)) > 0 ==> exists i :: 0 <= i < |groups| && groups[i].planId == p)
  }

  /** Plans other than 1, 2 and 3 are ignored, and each count is that of a
      group with its plan id, or 0 when no group has it. */
  lemma {:induction false} CountsAfterPicksGroup(groups: seq<PlanGroup>, planId: int)
    requires 1 <= planId <= 3
    ensures (forall i :: 0 <= i < |groups| ==> groups[i].planId != planId) ==> CountFor(CountsAfter(groups), planId) == 0
    ensures (exists i :: 0 <= i < |groups| && groups[i].planId == planId) ==>
      exists j :: 0 <= j < |groups| && groups[j].planId == planId && groups[j].count == CountFor(CountsAfter(groups), planId)
  {
    if |groups| > 0 {
      var init := groups[..|groups| - 1];
      CountsAfterPicksGroup(init, planId);
      var last := |groups| - 1;
      if groups[last].planId == planId {
        assert groups[last].count == CountFor(CountsAfter(groups), planId);
      } else {
        assert CountFor(CountsAfter(groups), planId) == CountFor(CountsAfter(init), planId);
        if exists i :: 0 <= i < |groups| && groups[i].planId == planId {
          var i :| 0 <= i < |groups| && groups[i].planId == planId;
          assert init[i] == groups[i];
          var j :| 0 <= j < |init| && init[j].planId == planId && init[j].count == CountFor(CountsAfter(init), planId);
          assert groups[j] == init[j];
        } else {
          forall i | 0 <= i < |init| ensures init[i].planId != planId {
            assert init[i] == groups[i];
          }
        }
      }
    }
  }

  /** Given the database's grouping of the table, the counts are the
      numbers of active subscriptions on plans 1, 2 and 3. */
  lemma CountsAreActiveRows(groups: seq<PlanGroup>, rows: seq<Subscription>, planId: int)
    requires GroupsOf(groups, rows)
    requires 1 <= planId <= 3
    ensures CountFor(CountsAfter(groups), planId) == CountWhere(rows, ActiveOnPlan(planId))
  {
    CountsAfterPicksGroup(groups, planId);
    if exists i :: 0 <= i < |groups| && groups[i].planId == planId {
      var j :| 0 <= j < |groups| && groups[j].planId == planId && groups[j].count == CountFor(CountsAfter(groups), planId);
      assert groups[j].count == CountWhere(rows, ActiveOnPlan(groups[j].planId));
    }
  }

  /** The `forEach` that fills `counts`. */
  method CountPlans(groups: seq<PlanGroup>) returns (counts: PlanCounts)
    ensures counts == CountsAfter(groups)
  {
    counts := PlanCounts(0, 0, 0);
    var i := 0;
    while i < |groups|
      invariant 0 <= i <= |groups|
      invariant counts == CountsAfter(groups[..i])
    {
      assert groups[..i + 1][..i] == groups[..i];
      var g := groups[i];
      if g.planId == 1 {
        counts := counts.(free := g.count);
      }
      if g.planId == 2 {
        counts := counts.(navigator := g.count);
      }
      if g.planId == 3 {
        counts := counts.(masterNavigator := g.count);
      }
      i := i + 1;
    }
    assert groups[..i] == groups;
  }

  function HasIdIn(ids: seq<string>): UserRow -> bool
  {
    (u: UserRow) => u.id in ids
  }

  /** `user.findMany({ where: { id: { in: userIds } } })` for the listed
      subscriptions: exactly the users who own one of them. */
  function UsersOf(users: seq<UserRow>, subs: seq<Subscription>): (r: seq<UserRow>)
    ensures forall u :: u in r ==> u in users && exists s :: s in subs && s.userId == u.id
    ensures forall s, u :: s in subs && u in users && u.id == s.userId ==> u in r
  {
    var ids := UserIdsOf(subs);
    var selected := Filter(users, HasIdIn(ids));
    assert forall u :: u in selected ==> u.id in ids;
    forall u | u in selected ensures exists s :: s in subs && s.userId == u.id {
      var i :| 0 <= i < |ids| && ids[i] == u.id;
      assert subs[i] in subs;
    }
    forall s, u | s in subs && u in users && u.id == s.userId ensures u in selected {
      var i :| 0 <= i < |subs| && subs[i] == s;
      assert ids[i] == u.id;
      var j :| 0 <= j < |users| && users[j] == u;
      assert HasIdIn(ids)(users[j]);
    }
    selected
  }

  function UserIdsOf(subs: seq<Subscription>): (ids: seq<string>)
    ensures |ids| == |subs|
    ensures forall i :: 0 <= i < |subs| ==> ids[i] == subs[i].userId
  {
    seq(|subs|, i requires 0 <= i < |subs| => subs[i].userId)
  }

  class SubscriptionStore {
    var rows: seq<Subscription>
    var nextId: nat

    /** Ids are below the counter and no user has two active subscriptions. */
    ghost predicate Valid()
      reads this
    {
      && (forall i :: 0 <= i < |rows| ==> rows[i].id < nextId)
      && AtMostOneActive(rows)
    }

    constructor ()
      ensures Valid() && rows == [] && nextId == 0
    {
      rows := [];
      nextId := 0;
    }

    method AssignDefaultFreePlan(userId: string, now: int, expiry: int)
      requires Valid()
      modifies this
      ensures Valid()
      ensures (rows, nextId) == AssignDefault(old(rows), old(nextId), userId, now, expiry)
    {
      var existing := FirstIndex(rows, ActiveOf(userId));
      if existing.None? {
        AssignDefaultKeepsOneActive(rows, nextId, userId, now, expiry);
        rows := rows + [NewSubscription(nextId, userId, Plans.FreePlanId, now, expiry)];
        nextId := nextId + 1;
      }
    }

    method AddSubscription(userId: string, planId: int, now: int, expiry: int) returns (s: Subscription)
      requires Valid()
      modifies this
      ensures Valid()
      ensures (rows, nextId, s) == Subscribe(old(rows), old(nextId), userId, planId, now, expiry)
    {
      AddSubscriptionKeepsOneActive(rows, nextId, userId, planId, now, expiry, userId);
      SubscribeIdsBelow(rows, nextId, userId, planId, now, expiry);
      var existing := FirstIndex(rows, ActiveOf(userId));
      if existing.Some? {
        var k := existing.value;
        if rows[k].planId == planId {
          s := rows[k].(startDate := now, expiryDate := expiry);
          rows := rows[k := s];
          return;
        }
        rows := Deactivated(rows, userId);
      }
      s := NewSubscription(nextId, userId, planId, now, expiry);
      rows := rows + [s];
      nextId := nextId + 1;
    }

    method GetUserPlan(userId: string, now: int) returns (s: Option<Subscription>)
      requires Valid()
      modifies this
      ensures Valid() && nextId == old(nextId)
      ensures (rows, s) == UserPlan(old(rows), userId, now)
    {
      UserPlanNullStays(rows, userId, now, now);
      var found := FirstIndex(rows, ActiveOf(userId));
      if found.None? {
        return None;
      }
      var k := found.value;
      if now > rows[k].expiryDate {
        rows := rows[k := rows[k].(active := false)];
        return None;
      }
      s := Some(rows[k]);
    }

    /** `getUsersWithPlanSimple`: page `page` of the active subscriptions,
        newest first; the users among `users` who own a listed
        subscription; and the per-plan counts from `groups`. */
    method GetUsersWithPlanSimple(page: int, users: seq<UserRow>, groups: seq<PlanGroup>) returns (r: UsersPage)
      requires page >= 1
      ensures (r.subscriptions, r.hasMore) == PageOf(ActiveByStartDesc(rows), page)
      ensures r.users == UsersOf(users, r.subscriptions)
      ensures r.counts == CountsAfter(groups)
    {
      var subscriptions, hasMore := Paginate(ActiveByStartDesc(rows), page);
      var selected := UsersOf(users, subscriptions);
      var counts := CountPlans(groups);
      r := UsersPage(subscriptions, selected, counts, hasMore);
    }
  }

  /** Page `page` of `listed`, ten per page, and whether a later page has
      anything. */
  function PageOf<T>(listed: seq<T>, page: int): (r: (seq<T>, bool))
    requires page >= 1
  {
    var skip := (page - 1) * PageSize;
    if skip >= |listed| then ([], false)
    else if skip + PageSize < |listed| then (listed[skip..skip + PageSize], true)
    else (listed[skip..], false)
  }

  /** Pages partition the list: page `page` holds the elements from
      `(page - 1) * 10` on, at most ten of them, and `hasMore` says exactly
      whether elements remain after it. */
  lemma PageOfMeaning<T>(listed: seq<T>, page: int)
    requires page >= 1
    ensures var skip := (page - 1) * PageSize;
      var r := PageOf(listed, page);
      && |r.0| <= PageSize
      && (forall i :: 0 <= i < |r.0| ==> skip + i < |listed| && r.0[i] == listed[skip + i])
      && (r.1 <==> skip + PageSize < |listed|)
      && (!r.1 ==> |r.0| == (if skip >= |listed| then 0 else |listed| - skip))
      && (r.1 ==> |r.0| == PageSize)
  {
  }

  /** Fetch `take: pageSize + 1` rows after `skip`, and drop the extra one
      with `pop()` when it came. */
  method Paginate<T>(listed: seq<T>, page: int) returns (pageRows: seq<T>, hasMore: bool)
    requires page >= 1
    ensures (pageRows, hasMore) == PageOf(listed, page)
  {
    var skip := (page - 1) * PageSize;
    pageRows := [];
    if skip <= |listed| {
      pageRows := Take(listed[skip..], PageSize + 1);
    }
    hasMore := |pageRows| > PageSize;
    if hasMore {
      pageRows := pageRows[..|pageRows| - 1];
      assert pageRows == listed[skip..skip + PageSize];
    } else if skip < |listed| {
      assert pageRows == listed[skip..];
    }
  }

  lemma AssignDefaultKeepsOneActive(rows: seq<Subscription>, nextId: nat, userId: string, now: int, expiry: int)
    requires AtMostOneActive(rows)
    requires FirstIndex(rows, ActiveOf(userId)).None?
    ensures AtMostOneActive(rows + [NewSubscription(nextId, userId, Plans.FreePlanId, now, expiry)])
  {
    var s := NewSubscription(nextId, userId, Plans.FreePlanId, now, expiry);
    forall u ensures CountWhere(rows + [s], ActiveOf(u)) <= 1 {
      CountWhereAppend(rows, s, ActiveOf(u));
    }
  }

  lemma {:induction false} DeactivatedCount(rows: seq<Subscription>, userId: string, other: string)
    ensures CountWhere(Deactivated(rows, userId), ActiveOf(other)) == (if other == userId then 0 else CountWhere(rows, ActiveOf(other)))
  {
    if |rows| > 0 {
      assert Deactivated(rows, userId)[1..] == Deactivated(rows[1..], userId);
      DeactivatedCount(rows[1..], userId, other);
    }
  }

  /** Replacing one element changes a count by what leaves and what enters. */
  lemma {:induction false} CountWhereUpdate<T>(s: seq<T>, k: nat, x: T, p: T -> bool)
    requires k < |s|
    ensures CountWhere(s[k := x], p) + (if p(s[k]) then 1 else 0) == CountWhere(s, p) + (if p(x) then 1 else 0)
  {
    if k == 0 {
      assert s[k := x][1..] == s[1..];
    } else {
      assert s[k := x][1..] == s[1..][k - 1 := x];
      CountWhereUpdate(s[1..], k - 1, x, p);
    }
  }
}
