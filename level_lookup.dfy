/** XP-to-level resolution over the level ladder: the tier with the greatest
    `xpRangeStart` not above the XP, or level 1 "Newcomer" when there is none. */
module LevelLookup {
  import opened Common
  import opened Sorting
  import opened PointAdjustment

  datatype LevelData = LevelData(levelNumber: int, levelTitle: string)

  function XpLe(a: Tier, b: Tier): bool { a.xpRangeStart <= b.xpRangeStart }

  lemma XpLeTotalPreorder()
    ensures TotalPreorder(XpLe)
  {
  }

  /** The ladder as `findMany({ orderBy: { xpRangeStart: 'asc' } })` returns it. */
  function ByXpAscending(ts: seq<Tier>): (r: seq<Tier>)
    ensures multiset(r) == multiset(ts)
    ensures SortedBy(r, XpLe)
  {
    XpLeTotalPreorder();
    SortBySorted(ts, XpLe);
    SortBy(ts, XpLe)
  }

  function Reversed<T>(s: seq<T>): (r: seq<T>)
    ensures |r| == |s|
    ensures forall i :: 0 <= i < |s| ==> r[i] == s[|s| - 1 - i]
  {
    seq(|s|, i requires 0 <= i < |s| => s[|s| - 1 - i])
  }

  function Reaches(xp: int): Tier -> bool
  {
    (p: Tier) => xp >= p.xpRangeStart
  }

  /** `ladder.slice().reverse().find(p => xp >= p.xpRangeStart)`: the last tier
      of the ladder whose start is reached. */
  function ThresholdTier(ladder: seq<Tier>, xp: int): (r: Option<Tier>)
    ensures r.Some? ==> r.value in ladder && r.value.xpRangeStart <= xp
    ensures r.None? <==> forall i :: 0 <= i < |ladder| ==> ladder[i].xpRangeStart > xp
  {
    var rev := Reversed(ladder);
    assert forall i :: 0 <= i < |ladder| ==> ladder[i] == rev[|ladder| - 1 - i];
    Find(rev, Reaches(xp))
  }

  /** On an ascending ladder the chosen tier has the greatest reached start. */
  lemma ThresholdIsGreatest(ladder: seq<Tier>, xp: int)
    requires SortedBy(ladder, XpLe)
    ensures ThresholdTier(ladder, xp).Some? ==>
      forall i :: 0 <= i < |ladder| && ladder[i].xpRangeStart <= xp ==>
        ladder[i].xpRangeStart <= ThresholdTier(ladder, xp).value.xpRangeStart
  {
    var rev := Reversed(ladder);
    match FirstIndex(rev, Reaches(xp))
    case None =>
    case Some(k) =>
      var n := |ladder|;
      forall i | 0 <= i < n && ladder[i].xpRangeStart <= xp
        ensures ladder[i].xpRangeStart <= ladder[n - 1 - k].xpRangeStart
      {
        var j := n - 1 - i;
        assert rev[j] == ladder[i];
        assert Reaches(xp)(rev[j]);
        assert k <= j;
        if i < n - 1 - k {
          assert XpLe(ladder[i], ladder[n - 1 - k]);
        }
      }
  }

  /** More XP never resolves to a tier with a lower start. */
  lemma ThresholdMonotone(ladder: seq<Tier>, xp1: int, xp2: int)
    requires SortedBy(ladder, XpLe)
    requires xp1 <= xp2
    ensures ThresholdTier(ladder, xp1).Some? ==> ThresholdTier(ladder, xp2).Some?
    ensures ThresholdTier(ladder, xp1).Some? ==>
      ThresholdTier(ladder, xp1).value.xpRangeStart <= ThresholdTier(ladder, xp2).value.xpRangeStart
  {
    var r1 := ThresholdTier(ladder, xp1);
    if r1.Some? {
      var i :| 0 <= i < |ladder| && ladder[i] == r1.value;
      ThresholdIsGreatest(ladder, xp2);
    }
  }

  /** `getLevelDataFromXP` of the solo ranking: the tier of the ladder with the
      greatest start the XP reaches, else level 1 "Newcomer". */
  function LevelDataFromXp(tiers: seq<Tier>, xp: int): (d: LevelData)
    ensures (forall t :: t in tiers ==> t.xpRangeStart > xp) ==> d == LevelData(1, "Newcomer")
    ensures (exists t :: t in tiers && t.xpRangeStart <= xp) ==>
      exists t :: t in tiers && t.xpRangeStart <= xp && d == LevelData(t.level, t.title)
        && forall u :: u in tiers && u.xpRangeStart <= xp ==> u.xpRangeStart <= t.xpRangeStart
  {
    var ladder := ByXpAscending(tiers);
    ThresholdIsGreatest(ladder, xp);
    assert forall t :: t in tiers <==> t in ladder by {
      forall t ensures t in tiers <==> t in ladder {
        assert t in tiers <==> t in multiset(tiers);
        assert t in ladder <==> t in multiset(ladder);
      }
    }
    match ThresholdTier(ladder, xp)
    case None => LevelData(1, "Newcomer")
    case Some(pa) => LevelData(pa.level, pa.title)
  }
}
