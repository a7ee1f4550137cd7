/** The admin-maintained level ladder (the `pointAdjustment` table): each tier
    gives a level number, the XP at which it starts and a title. The service
    lists, creates (one or a batch), renumbers (one or a batch) and deletes tiers. */
module PointAdjustment {
  import opened Common
  import opened Sorting

  /** A row of the table. The store assigns `id`. */
  datatype Tier = Tier(id: nat, level: int, xpRangeStart: int, title: string)

  /** The body of a create request. */
  datatype NewTier = NewTier(level: int, xpRangeStart: int, title: string)

  /** The body of an update request: every field may be absent. */
  datatype TierPatch = TierPatch(level: Option<int>, xpRangeStart: Option<int>, title: Option<string>)

  /** One item of a batch update. */
  datatype BatchItem = BatchItem(id: nat, level: Option<int>, xpRangeStart: Option<int>, title: Option<string>)

  function Levels(ts: seq<Tier>): (ls: seq<int>)
    ensures |ls| == |ts|
    ensures forall i :: 0 <= i < |ts| ==> ls[i] == ts[i].level
  {
    seq(|ts|, i requires 0 <= i < |ts| => ts[i].level)
  }

  /** The gapless ladder 1, 2, ..., n. */
  function Ladder(n: nat): (ls: seq<int>)
    ensures |ls| == n
    ensures forall i :: 0 <= i < n ==> ls[i] == i + 1
  {
    seq(n, i => i + 1)
  }

  /** The levels in the table are exactly 1..N, each once. */
  ghost predicate Gapless(ts: seq<Tier>)
  {
    multiset(Levels(ts)) == multiset(Ladder(|ts|))
  }

  /** Length of the longest prefix of `ls` that reads start, start + 1, ... */
  function RunFrom(ls: seq<int>, start: int): (k: nat)
    ensures k <= |ls|
    ensures forall i :: 0 <= i < k ==> ls[i] == start + i
    ensures k < |ls| ==> ls[k] != start + k
  {
    if |ls| == 0 || ls[0] != start then 0 else 1 + RunFrom(ls[1..], start + 1)
  }

  /** The level `create` allows next, for the ascending level list: one more
      than the length of its prefix 1, 2, 3, ... */
  function NextAllowed(ls: seq<int>): (n: int)
    ensures 1 <= n <= |ls| + 1
    ensures forall i :: 0 <= i < n - 1 ==> ls[i] == i + 1
    ensures n - 1 < |ls| ==> ls[n - 1] != n
  {
    1 + RunFrom(ls, 1)
  }

  /** The scan in `create`: walk the ascending levels, stop at the first one
      that is not the expected next level. */
  method ComputeNextAllowed(levels: seq<int>) returns (next: int)
    ensures next == NextAllowed(levels)
  {
    next := 1;
    var i := 0;
    while i < |levels|
      invariant 0 <= i <= |levels|
      invariant next == i + 1
      invariant forall j :: 0 <= j < i ==> levels[j] == j + 1
    {
      if levels[i] != next {
        break;
      }
      next := next + 1;
      i := i + 1;
    }
    NextAllowedUnique(levels, next);
  }

  /** The prefix characterisation determines NextAllowed. */
  lemma NextAllowedUnique(ls: seq<int>, n: int)
    requires 1 <= n <= |ls| + 1
    requires forall i :: 0 <= i < n - 1 ==> ls[i] == i + 1
    requires n - 1 < |ls| ==> ls[n - 1] != n
    ensures n == NextAllowed(ls)
  {
  }

  /** On the gapless ladder 1..N the next allowed level is N + 1. */
  lemma NextAllowedOfLadder(n: nat)
    ensures NextAllowed(Ladder(n)) == n + 1
  {
  }

  /** On strictly ascending positive levels, the next allowed level is the
      first positive integer missing from them. */
  lemma {:induction false} NextAllowedIsFirstMissing(ls: seq<int>)
    requires forall i, j :: 0 <= i < j < |ls| ==> ls[i] < ls[j]
    requires forall i :: 0 <= i < |ls| ==> ls[i] >= 1
    ensures NextAllowed(ls) !in ls
    ensures forall v :: 1 <= v < NextAllowed(ls) ==> v in ls
  {
    var n := NextAllowed(ls);
    forall v | 1 <= v < n ensures v in ls {
      assert ls[v - 1] == v;
    }
    if n - 1 < |ls| {
      assert ls[n - 1] > n by {
        if n == 1 {
          assert ls[0] >= 1;
        } else {
          assert ls[n - 2] == n - 1;
        }
      }
      forall j | 0 <= j < |ls| ensures ls[j] != n {
        if j < n - 1 {
          assert ls[j] == j + 1;
        } else if j > n - 1 {
          assert ls[n - 1] < ls[j];
        }
      }
    }
  }

  /** Largest element of a non-empty list (`Math.max(...ls)`). */
  function Max(ls: seq<int>): (m: int)
    requires |ls| > 0
    ensures m in ls
    ensures forall i :: 0 <= i < |ls| ==> ls[i] <= m
  {
    if |ls| == 1 then ls[0]
    else
      var rest := Max(ls[1..]);
      if ls[0] >= rest then ls[0] else rest
  }

  /** `levels.length ? Math.max(...levels) : 0`. */
  function MaxOrZero(ls: seq<int>): int
  {
    if |ls| == 0 then 0 else Max(ls)
  }

  /** The two checks of `create`: the level is new and does not skip ahead. */
  function CreateAllowed(levels: seq<int>, level: int): bool
  {
    level !in levels && level <= NextAllowed(SortInts(levels))
  }

  /** Every sorted copy of a gapless ladder's levels is 1..N. */
  lemma SortedLevelsOfGapless(ts: seq<Tier>)
    requires Gapless(ts)
    ensures SortInts(Levels(ts)) == Ladder(|ts|)
  {
    SortedIntsUnique(SortInts(Levels(ts)), Ladder(|ts|));
  }

  /** Membership in a gapless ladder is the range 1..N. */
  lemma InGapless(ts: seq<Tier>, v: int)
    requires Gapless(ts)
    ensures v in Levels(ts) <==> 1 <= v <= |ts|
  {
    assert v in Levels(ts) <==> v in multiset(Levels(ts));
    assert v in Ladder(|ts|) <==> v in multiset(Ladder(|ts|));
    if 1 <= v <= |ts| {
      assert Ladder(|ts|)[v - 1] == v;
    }
  }

  lemma LevelsAppend(ts: seq<Tier>, us: seq<Tier>)
    ensures Levels(ts + us) == Levels(ts) + Levels(us)
  {
  }

  lemma LadderAppend(n: nat, k: nat)
    ensures Ladder(n + k) == Ladder(n) + seq(k, i => n + 1 + i)
  {
  }

  /** On a gapless ladder 1..N, `create` with a positive level succeeds exactly
      for N + 1, and the ladder stays gapless; a level of 0 or below is not
      rejected by either check. */
  lemma CreateOnGapless(ts: seq<Tier>, t: Tier)
    requires Gapless(ts)
    ensures t.level >= 1 ==> (CreateAllowed(Levels(ts), t.level) <==> t.level == |ts| + 1)
    ensures t.level <= 0 ==> CreateAllowed(Levels(ts), t.level)
    ensures t.level == |ts| + 1 ==> Gapless(ts + [t])
  {
    SortedLevelsOfGapless(ts);
    NextAllowedOfLadder(|ts|);
    InGapless(ts, t.level);
    if t.level == |ts| + 1 {
      AppendNextKeepsGapless(ts, t);
    }
  }

  /** Appending a tier at level N + 1 to the ladder 1..N gives 1..N + 1. */
  lemma {:induction false} AppendNextKeepsGapless(ts: seq<Tier>, t: Tier)
    requires Gapless(ts)
    requires t.level == |ts| + 1
    ensures Gapless(ts + [t])
  {
    assert Levels(ts + [t]) == Levels(ts) + [t.level];
    assert Ladder(|ts| + 1) == Ladder(|ts|) + [|ts| + 1];
  }

  /** `sortedNewLevels[i] === sortedNewLevels[i - 1] + 1` for every i. */
  ghost predicate Consecutive(s: seq<int>)
  {
    forall i :: 1 <= i < |s| ==> s[i] == s[i - 1] + 1
  }

  /** The contiguity loop of `createMultiple`. */
  method CheckSequential(s: seq<int>) returns (ok: bool)
    ensures ok <==> Consecutive(s)
  {
    var i := 1;
    while i < |s|
      invariant 1 <= i <= |s| || |s| == 0
      invariant forall j :: 1 <= j < i && j < |s| ==> s[j] == s[j - 1] + 1
    {
      if s[i] != s[i - 1] + 1 {
        return false;
      }
      i := i + 1;
    }
    return true;
  }

  function NewLevels(batch: seq<NewTier>): (ls: seq<int>)
    ensures |ls| == |batch|
    ensures forall i :: 0 <= i < |batch| ==> ls[i] == batch[i].level
  {
    seq(|batch|, i requires 0 <= i < |batch| => batch[i].level)
  }

  /** The three checks of `createMultiple`, in the order it makes them. An empty
      batch fails the second (`sortedNewLevels[0]` is undefined). */
  ghost predicate BatchAllowed(levels: seq<int>, batchLevels: seq<int>)
  {
    && (forall l :: l in batchLevels ==> l !in levels)
    && var sorted := SortInts(batchLevels);
       && |sorted| > 0
       && sorted[0] == MaxOrZero(levels) + 1
       && Consecutive(sorted)
  }

  /** A consecutive list that starts at `a` is a, a + 1, ... */
  lemma ConsecutiveFrom(s: seq<int>, a: int)
    requires |s| > 0 && s[0] == a && Consecutive(s)
    ensures s == seq(|s|, i => a + i)
  {
    var r := seq(|s|, i => a + i);
    forall i | 0 <= i < |s| ensures s[i] == r[i] {
      ConsecutiveAt(s, i);
    }
  }

  lemma {:induction false} ConsecutiveAt(s: seq<int>, i: nat)
    requires i < |s| && Consecutive(s)
    ensures s[i] == s[0] + i
  {
    if i > 0 {
      ConsecutiveAt(s, i - 1);
    }
  }

  lemma MaxOfGapless(ts: seq<Tier>)
    requires Gapless(ts)
    ensures MaxOrZero(Levels(ts)) == |ts|
  {
    if |ts| > 0 {
      var m := Max(Levels(ts));
      InGapless(ts, m);
      InGapless(ts, |ts|);
      var k :| 0 <= k < |ts| && Levels(ts)[k] == |ts|;
    }
  }

  /** On a gapless ladder 1..N, a batch is accepted exactly when its levels are
      N + 1, ..., N + k in some order, with k >= 1; the ladder then becomes
      1..N + k. */
  lemma CreateMultipleOnGapless(ts: seq<Tier>, bl: seq<int>)
    requires Gapless(ts)
    ensures BatchAllowed(Levels(ts), bl) <==>
      |bl| > 0 && multiset(bl) == multiset(seq(|bl|, i => |ts| + 1 + i))
    ensures BatchAllowed(Levels(ts), bl) ==>
      multiset(Levels(ts) + bl) == multiset(Ladder(|ts| + |bl|))
  {
    if BatchAllowed(Levels(ts), bl) {
      AllowedBatchIsNext(ts, bl);
      LadderAppend(|ts|, |bl|);
    }
    if |bl| > 0 && multiset(bl) == multiset(seq(|bl|, i => |ts| + 1 + i)) {
      NextBatchIsAllowed(ts, bl);
    }
  }

  /** An accepted batch on a gapless ladder is N + 1, ..., N + k in some order. */
  lemma {:induction false} AllowedBatchIsNext(ts: seq<Tier>, bl: seq<int>)
    requires Gapless(ts) && BatchAllowed(Levels(ts), bl)
    ensures |bl| > 0 && multiset(bl) == multiset(seq(|bl|, i => |ts| + 1 + i))
  {
    var sorted := SortInts(bl);
    MaxOfGapless(ts);
    ConsecutiveFrom(sorted, |ts| + 1);
    assert sorted == seq(|bl|, i => |ts| + 1 + i);
  }

  /** N + 1, ..., N + k in any order passes the three checks. */
  lemma {:induction false} NextBatchIsAllowed(ts: seq<Tier>, bl: seq<int>)
    requires Gapless(ts) && |bl| > 0 && multiset(bl) == multiset(seq(|bl|, i => |ts| + 1 + i))
    ensures BatchAllowed(Levels(ts), bl)
  {
    var r := seq(|bl|, i => |ts| + 1 + i);
    var sorted := SortInts(bl);
    MaxOfGapless(ts);
    SortedIntsUnique(sorted, r);
    forall l | l in bl ensures l !in Levels(ts) {
      assert l in multiset(r);
      InGapless(ts, l);
    }
  }

  /** Rows that `createMany` inserts, with the ids the store hands out. */
  function NewRows(batch: seq<NewTier>, firstId: nat): (rows: seq<Tier>)
    ensures |rows| == |batch|
    ensures Levels(rows) == NewLevels(batch)
    ensures forall i :: 0 <= i < |rows| ==> rows[i].id == firstId + i
  {
    seq(|batch|, i requires 0 <= i < |batch| =>
      Tier(firstId + i, batch[i].level, batch[i].xpRangeStart, batch[i].title))
  }

  function IndexOfId(ts: seq<Tier>, id: nat): (r: Option<nat>)
    ensures r.Some? ==> r.value < |ts| && ts[r.value].id == id
    ensures r.None? ==> forall i :: 0 <= i < |ts| ==> ts[i].id != id
  {
    FirstIndex(ts, (t: Tier) => t.id == id)
  }

  /** Renumbering a tier to `l` (a new, non-zero level): the level must be
      unused and equal the maximum of the other levels plus one. With no other
      level, `Math.max()` is -Infinity and nothing is equal to it plus one. */
  function RenumberAllowed(levels: seq<int>, current: int, l: int): bool
  {
    var others := Filter(levels, (x: int) => x != current);
    l !in levels && |others| > 0 && l == Max(others) + 1
  }

  /** Apply the present fields of a patch (a present level of 0 is written too). */
  function Patched(t: Tier, p: TierPatch): (u: Tier)
    ensures u.id == t.id
  {
    Tier(t.id,
         if p.level.Some? then p.level.value else t.level,
         if p.xpRangeStart.Some? then p.xpRangeStart.value else t.xpRangeStart,
         if p.title.Some? then p.title.value else t.title)
  }

  /** The levels checks of `update`: they only run for a truthy level (not
      absent, not 0) that differs from the tier's own. */
  function UpdateAllowed(levels: seq<int>, current: int, p: TierPatch): bool
  {
    p.level.None? || p.level.value == 0 || p.level.value == current
      || RenumberAllowed(levels, current, p.level.value)
  }

  /** On a gapless ladder of N tiers, renumbering a tier at level c to another
      non-zero level succeeds exactly when c is not the top level and the new
      level is N + 1. */
  lemma RenumberOnGapless(ts: seq<Tier>, c: int, l: int)
    requires Gapless(ts) && c in Levels(ts) && l != c
    ensures RenumberAllowed(Levels(ts), c, l) <==> c != |ts| && l == |ts| + 1
  {
    var levels := Levels(ts);
    var others := Filter(levels, (x: int) => x != c);
    InGapless(ts, c);
    InGapless(ts, l);
    if c != |ts| {
      InGapless(ts, |ts|);
      var k :| 0 <= k < |levels| && levels[k] == |ts|;
      assert levels[k] in others;
    }
    if |others| > 0 {
      var m := Max(others);
      InGapless(ts, m);
      if c == |ts| {
        assert m != c;
        assert m <= |ts| - 1;
      }
    }
  }

  /** Renumbering is how `update` opens a gap: on the ladder 1, 2, 3 the tier
      at level 1 may move to level 4, leaving no level 1. */
  lemma UpdateOpensGap()
    ensures var ts := [Tier(0, 1, 0, "a"), Tier(1, 2, 100, "b"), Tier(2, 3, 300, "c")];
      && Gapless(ts)
      && UpdateAllowed(Levels(ts), 1, TierPatch(Some(4), None, None))
      && !Gapless(ts[0 := Patched(ts[0], TierPatch(Some(4), None, None))])
  {
    var ts := [Tier(0, 1, 0, "a"), Tier(1, 2, 100, "b"), Tier(2, 3, 300, "c")];
    LevelsOfThree(ts);
    assert Ladder(3) == [1, 2, 3];
    RenumberOnGapless(ts, 1, 4);
    var us := ts[0 := Patched(ts[0], TierPatch(Some(4), None, None))];
    assert us == [Tier(0, 4, 0, "a"), Tier(1, 2, 100, "b"), Tier(2, 3, 300, "c")];
    LevelsOfThree(us);
    assert multiset(Levels(us))[1] == 0;
    assert multiset(Ladder(3))[1] == 1;
  }

  lemma LevelsOfThree(ts: seq<Tier>)
    requires |ts| == 3
    ensures Levels(ts) == [ts[0].level, ts[1].level, ts[2].level]
  {
  }

  /** The checks `updateMultiple` makes for one item against the tier it names:
      `levels` are the other tiers' levels (every level equal to the tier's own
      is filtered out). */
  function ItemCheck(levels: seq<int>, current: int, item: BatchItem): (r: Result<int>)
    ensures r.Ok? ==> item.level == Some(r.value)
    ensures item.level == Some(current) && current !in levels ==> r.Ok?
    ensures r.Ok? && r.value != current ==> r.value == MaxOrZero(levels) + 1 && r.value !in levels
    ensures item.level.None? ==> r == Err(BadRequest("Level must be provided."))
  {
    if item.level.None? then Err(BadRequest("Level must be provided."))
    else if item.level.value in levels then Err(BadRequest("Level already exists."))
    else if item.level.value != MaxOrZero(levels) + 1 && item.level.value != current then
      Err(BadRequest("Level must be sequential."))
    else Ok(item.level.value)
  }

  /** One item of `updateMultiple` against the table `ts`: the new table and
      the updated row, or the item's error. */
  function UpdateItem(ts: seq<Tier>, item: BatchItem): (r: Result<(seq<Tier>, Tier)>)
    ensures r.Ok? ==> |r.value.0| == |ts|
  {
    match IndexOfId(ts, item.id)
    case None => Err(NotFound("Point adjustment not found."))
    case Some(i) =>
      var existing := ts[i];
      var others := Filter(Levels(ts), (x: int) => x != existing.level);
      match ItemCheck(others, existing.level, item)
      case Err(e) => Err(e)
      case Ok(l) =>
        var u := Patched(existing, TierPatch(Some(l), item.xpRangeStart, item.title));
        Ok((ts[i := u], u))
  }

  /** `updateMultiple` run one item after another: the table reached and either
      the updated rows or the first error (earlier items stay applied). */
  function UpdateItems(ts: seq<Tier>, items: seq<BatchItem>): (seq<Tier>, Result<seq<Tier>>)
    decreases |items|
  {
    if |items| == 0 then (ts, Ok([]))
    else match UpdateItem(ts, items[0])
      case Err(e) => (ts, Err(e))
      case Ok((ts', u)) =>
        var (ts'', rest) := UpdateItems(ts', items[1..]);
        (ts'', if rest.Ok? then Ok([u] + rest.value) else rest)
  }

  function PrependRows(us: seq<Tier>, res: (seq<Tier>, Result<seq<Tier>>)): (seq<Tier>, Result<seq<Tier>>)
  {
    (res.0, if res.1.Ok? then Ok(us + res.1.value) else res.1)
  }

  lemma PrependNil(res: (seq<Tier>, Result<seq<Tier>>))
    ensures PrependRows([], res) == res
  {
    if res.1.Ok? {
      assert [] + res.1.value == res.1.value;
    }
  }

  lemma PrependAssoc(a: seq<Tier>, b: seq<Tier>, res: (seq<Tier>, Result<seq<Tier>>))
    ensures PrependRows(a, PrependRows(b, res)) == PrependRows(a + b, res)
  {
    if res.1.Ok? {
      assert a + (b + res.1.value) == (a + b) + res.1.value;
    }
  }

  lemma UpdateItemsOk(ts: seq<Tier>, items: seq<BatchItem>)
    requires |items| > 0 && UpdateItem(ts, items[0]).Ok?
    ensures UpdateItems(ts, items) ==
      PrependRows([UpdateItem(ts, items[0]).value.1],
                  UpdateItems(UpdateItem(ts, items[0]).value.0, items[1..]))
  {
  }

  lemma UpdateItemsErr(ts: seq<Tier>, items: seq<BatchItem>)
    requires |items| > 0 && UpdateItem(ts, items[0]).Err?
    ensures UpdateItems(ts, items) == (ts, Err(UpdateItem(ts, items[0]).error))
  {
  }

  /** A batch update never changes the number of tiers, and on success returns
      one updated row per item. */
  lemma {:induction false} UpdateItemsShape(ts: seq<Tier>, items: seq<BatchItem>)
    ensures |UpdateItems(ts, items).0| == |ts|
    ensures UpdateItems(ts, items).1.Ok? ==> |UpdateItems(ts, items).1.value| == |items|
    decreases |items|
  {
    if |items| > 0 {
      match UpdateItem(ts, items[0])
      case Err(_) =>
      case Ok((ts', u)) => UpdateItemsShape(ts', items[1..]);
    }
  }

  /** Rows appended with fresh ids from the counter keep ids distinct and
      below the advanced counter. */
  lemma AppendRowsKeepIds(ts: seq<Tier>, batch: seq<NewTier>, firstId: nat)
    requires IdLess(ts, firstId) && DistinctIds(ts)
    ensures IdLess(ts + NewRows(batch, firstId), firstId + |batch|)
    ensures DistinctIds(ts + NewRows(batch, firstId))
  {
  }

  /** An accepted batch appended to a gapless ladder leaves it gapless. */
  lemma CreateMultipleKeepsGapless(ts: seq<Tier>, batch: seq<NewTier>, firstId: nat)
    requires Gapless(ts) && BatchAllowed(Levels(ts), NewLevels(batch))
    ensures Gapless(ts + NewRows(batch, firstId))
  {
    var rows := NewRows(batch, firstId);
    CreateMultipleOnGapless(ts, NewLevels(batch));
    GaplessAppend(ts, rows);
  }

  /** Rows whose levels complete the ladder 1..N + k, appended, leave the
      table gapless. */
  lemma GaplessAppend(ts: seq<Tier>, rows: seq<Tier>)
    requires multiset(Levels(ts) + Levels(rows)) == multiset(Ladder(|ts| + |rows|))
    ensures Gapless(ts + rows)
  {
    LevelsAppend(ts, rows);
  }

  function IdLess(ts: seq<Tier>, bound: nat): bool
  {
    forall i :: 0 <= i < |ts| ==> ts[i].id < bound
  }

  ghost predicate DistinctIds(ts: seq<Tier>)
  {
    forall i, j :: 0 <= i < j < |ts| ==> ts[i].id != ts[j].id
  }

  function LevelLe(a: Tier, b: Tier): bool { a.level <= b.level }

  /** The table and the id counter of the store. */
  class PointAdjustmentService {
    var tiers: seq<Tier>
    var nextId: nat

    ghost predicate Valid()
      reads this
    {
      IdLess(tiers, nextId) && DistinctIds(tiers)
    }

    constructor ()
      ensures Valid() && tiers == [] && nextId == 0
    {
      tiers := [];
      nextId := 0;
    }

    /** `findAll`: every tier, by level ascending, with a message saying
        whether there were any. */
    function FindAll(): (r: (string, seq<Tier>))
      reads this
      ensures multiset(r.1) == multiset(tiers)
      ensures SortedBy(r.1, LevelLe)
      ensures r.0 == (if tiers == [] then "No point adjustments found" else "Point adjustments fetched successfully")
    {
      SortBySorted(tiers, LevelLe);
      (if tiers == [] then "No point adjustments found" else "Point adjustments fetched successfully",
       SortBy(tiers, LevelLe))
    }

    method Create(data: NewTier) returns (r: Result<Tier>)
      requires Valid()
      modifies this
      ensures Valid()
      ensures r.Ok? <==> CreateAllowed(Levels(old(tiers)), data.level)
      ensures r.Ok? ==> (r.value == Tier(old(nextId), data.level, data.xpRangeStart, data.title)
        && tiers == old(tiers) + [r.value] && nextId == old(nextId) + 1)
      ensures r.Err? ==> r.error.BadRequest? && tiers == old(tiers) && nextId == old(nextId)
      ensures Gapless(old(tiers)) && data.level >= 1 ==> (r.Ok? <==> data.level == |old(tiers)| + 1)
      ensures Gapless(old(tiers)) && r.Ok? && data.level >= 1 ==> Gapless(tiers)
    {
      var t := Tier(nextId, data.level, data.xpRangeStart, data.title);
      if Gapless(tiers) {
        CreateOnGapless(tiers, t);
      }
      var levels := SortInts(Levels(tiers));
      assert data.level in levels <==> data.level in Levels(tiers) by {
        assert data.level in levels <==> data.level in multiset(levels);
        assert data.level in Levels(tiers) <==> data.level in multiset(Levels(tiers));
      }
      if data.level in levels {
        return Err(BadRequest("Level already exists."));
      }
      var next := ComputeNextAllowed(levels);
      if data.level > next {
        return Err(BadRequest("Cannot skip levels."));
      }
      tiers := tiers + [t];
      nextId := nextId + 1;
      r := Ok(t);
    }

    method CreateMultiple(batch: seq<NewTier>) returns (r: Result<string>)
      requires Valid()
      modifies this
      ensures Valid()
      ensures r.Ok? <==> BatchAllowed(Levels(old(tiers)), NewLevels(batch))
      ensures r.Ok? ==> (tiers == old(tiers) + NewRows(batch, old(nextId)) && nextId == old(nextId) + |batch|)
      ensures r.Err? ==> r.error.BadRequest? && tiers == old(tiers) && nextId == old(nextId)
      ensures Gapless(old(tiers)) && r.Ok? ==> Gapless(tiers)
    {
      var levels := Levels(tiers);
      var bl := NewLevels(batch);
      var i := 0;
      while i < |batch|
        invariant 0 <= i <= |batch|
        invariant forall j :: 0 <= j < i ==> bl[j] !in levels
      {
        if batch[i].level in levels {
          assert bl[i] in bl;
          return Err(BadRequest("Level already exists."));
        }
        i := i + 1;
      }
      var maxLevel := MaxOrZero(levels);
      var sorted := SortInts(bl);
      if |sorted| == 0 || sorted[0] != maxLevel + 1 {
        return Err(BadRequest("Next level must follow the current maximum."));
      }
      var ok := CheckSequential(sorted);
      if !ok {
        return Err(BadRequest("New levels must be sequential without gaps."));
      }
      assert BatchAllowed(levels, bl);
      AppendRowsKeepIds(tiers, batch, nextId);
      if Gapless(tiers) {
        CreateMultipleKeepsGapless(tiers, batch, nextId);
      }
      tiers := tiers + NewRows(batch, nextId);
      nextId := nextId + |batch|;
      r := Ok("Multiple point adjustments created successfully");
    }

    method Update(id: nat, patch: TierPatch) returns (r: Result<Tier>)
      requires Valid()
      modifies this
      ensures Valid() && nextId == old(nextId)
      ensures IndexOfId(old(tiers), id).None? ==> r == Err(NotFound("Point adjustment not found.")) && tiers == old(tiers)
      ensures IndexOfId(old(tiers), id).Some? ==>
        var i := IndexOfId(old(tiers), id).value;
        && (r.Ok? <==> UpdateAllowed(Levels(old(tiers)), old(tiers)[i].level, patch))
        && (r.Ok? ==> r.value == Patched(old(tiers)[i], patch) && tiers == old(tiers)[i := r.value])
        && (r.Err? ==> r.error.BadRequest? && tiers == old(tiers))
    {
      var idx := IndexOfId(tiers, id);
      if idx.None? {
        return Err(NotFound("Point adjustment not found."));
      }
      var i := idx.value;
      var existing := tiers[i];
      var levels := Levels(tiers);
      if patch.level.Some? && patch.level.value != 0 && patch.level.value != existing.level {
        var l := patch.level.value;
        if l in levels {
          return Err(BadRequest("Level already exists."));
        }
        var others := Filter(levels, (x: int) => x != existing.level);
        if |others| == 0 {
          return Err(BadRequest("Level must be sequential."));
        }
        var maxLevel := Max(others);
        if l != maxLevel + 1 && l != existing.level {
          return Err(BadRequest("Level must be sequential."));
        }
      }
      var u := Patched(existing, patch);
      tiers := tiers[i := u];
      r := Ok(u);
    }

    method UpdateMultiple(items: seq<BatchItem>) returns (r: Result<seq<Tier>>)
      requires Valid()
      modifies this
      ensures Valid() && nextId == old(nextId)
      ensures (tiers, r) == UpdateItems(old(tiers), items)
    {
      var k := 0;
      var updated: seq<Tier> := [];
      assert items[0..] == items;
      PrependNil(UpdateItems(tiers, items));
      while k < |items|
        invariant 0 <= k <= |items|
        invariant Valid() && nextId == old(nextId)
        invariant UpdateItems(old(tiers), items) == PrependRows(updated, UpdateItems(tiers, items[k..]))
      {
        var step := UpdateItem(tiers, items[k]);
        if step.Err? {
          UpdateItemsErr(tiers, items[k..]);
          return Err(step.error);
        }
        var (ts', u) := step.value;
        IndexOfIdKeepsIds(tiers, items[k]);
        UpdateItemsOk(tiers, items[k..]);
        assert items[k..][1..] == items[k + 1..];
        PrependAssoc(updated, [u], UpdateItems(ts', items[k + 1..]));
        tiers := ts';
        updated := updated + [u];
        k := k + 1;
      }
      assert updated + [] == updated;
      r := Ok(updated);
    }

    method Delete(id: nat) returns (r: Result<Tier>)
      requires Valid()
      modifies this
      ensures Valid() && nextId == old(nextId)
      ensures IndexOfId(old(tiers), id).None? ==> r == Err(NotFound("Point adjustment not found.")) && tiers == old(tiers)
      ensures IndexOfId(old(tiers), id).Some? ==>
        var i := IndexOfId(old(tiers), id).value;
        r == Ok(old(tiers)[i]) && tiers == old(tiers)[..i] + old(tiers)[i + 1..]
    {
      var idx := IndexOfId(tiers, id);
      if idx.None? {
        return Err(NotFound("Point adjustment not found."));
      }
      var i := idx.value;
      r := Ok(tiers[i]);
      tiers := tiers[..i] + tiers[i + 1..];
    }
  }

  /** A batch-update step keeps every id where it was. */
  lemma IndexOfIdKeepsIds(ts: seq<Tier>, item: BatchItem)
    requires UpdateItem(ts, item).Ok?
    ensures forall j :: 0 <= j < |ts| ==> UpdateItem(ts, item).value.0[j].id == ts[j].id
  {
  }
}
