/** Shared vocabulary of the services: optional values, the HTTP error kinds the
    services throw, first-match search, the top-three leaderboard split and the
    rounded-percentage level labels used by the mode rankings. */
module Common {

  datatype Option<+T> = None | Some(value: T)

  /** The NestJS exception a service throws, with its message. */
  datatype Error =
    | NotFound(msg: string)
    | BadRequest(msg: string)
    | Forbidden(msg: string)
    | Internal(msg: string)

  datatype Result<+T> = Ok(value: T) | Err(error: Error)

  /** Index of the first element satisfying `p` (JavaScript `findIndex`, `find`). */
  function FirstIndex<T>(s: seq<T>, p: T -> bool): (r: Option<nat>)
    ensures r.Some? ==> r.value < |s| && p(s[r.value])
    ensures r.Some? ==> forall j :: 0 <= j < r.value ==> !p(s[j])
    ensures r.None? ==> forall j :: 0 <= j < |s| ==> !p(s[j])
  {
    if |s| == 0 then None
    else if p(s[0]) then Some(0)
    else match FirstIndex(s[1..], p)
      case None => None
      case Some(k) => Some(k + 1)
  }

  /** JavaScript `find`: the first element satisfying `p`, if any. */
  function Find<T>(s: seq<T>, p: T -> bool): (r: Option<T>)
    ensures r.Some? ==> r.value in s && p(r.value)
    ensures r.None? ==> forall x :: x in s ==> !p(x)
  {
    match FirstIndex(s, p)
    case None => None
    case Some(i) => Some(s[i])
  }

  /** Number of elements satisfying `p` (JavaScript `filter(p).length`). */
  function CountWhere<T>(s: seq<T>, p: T -> bool): (n: nat)
    ensures n <= |s|
    ensures n == 0 <==> forall j :: 0 <= j < |s| ==> !p(s[j])
  {
    if |s| == 0 then 0
    else (if p(s[0]) then 1 else 0) + CountWhere(s[1..], p)
  }

  /** JavaScript `filter`. */
  function Filter<T>(s: seq<T>, p: T -> bool): (r: seq<T>)
    ensures |r| == CountWhere(s, p)
    ensures forall i :: 0 <= i < |r| ==> r[i] in s && p(r[i])
    ensures forall i :: 0 <= i < |s| && p(s[i]) ==> s[i] in r
  {
    if |s| == 0 then []
    else (if p(s[0]) then [s[0]] else []) + Filter(s[1..], p)
  }

  /** What `Filter` keeps: every element satisfying `p`, as often as it
      occurs in `s`, and nothing else. */
  lemma {:induction false} FilterMultiset<T>(s: seq<T>, p: T -> bool)
    ensures forall x :: multiset(Filter(s, p))[x] == if p(x) then multiset(s)[x] else 0
  {
    if |s| > 0 {
      FilterMultiset(s[1..], p);
      assert s == [s[0]] + s[1..];
      assert multiset(s) == multiset{s[0]} + multiset(s[1..]);
    }
  }

  /** Predicates that agree on the elements of `s` filter it alike. */
  lemma {:induction false} FilterAgree<T>(s: seq<T>, p: T -> bool, q: T -> bool)
    requires forall i :: 0 <= i < |s| ==> p(s[i]) == q(s[i])
    ensures Filter(s, p) == Filter(s, q)
  {
    if |s| > 0 {
      FilterAgree(s[1..], p, q);
    }
  }

  /** Filtering distributes over appending one element. */
  lemma {:induction false} FilterSnoc<T>(s: seq<T>, x: T, p: T -> bool)
    ensures Filter(s + [x], p) == Filter(s, p) + (if p(x) then [x] else [])
  {
    if |s| > 0 {
      assert (s + [x])[1..] == s[1..] + [x];
      FilterSnoc(s[1..], x, p);
    }
  }

  lemma AppendAssoc<T>(a: seq<T>, b: seq<T>, c: seq<T>)
    ensures a + (b + c) == (a + b) + c
  {
    assert |a + (b + c)| == |(a + b) + c|;
    forall i | 0 <= i < |a| + |b| + |c| ensures (a + (b + c))[i] == ((a + b) + c)[i] {
    }
  }

  /** Filtering a prefix one element longer. */
  lemma {:induction false} FilterPrefixStep<T>(s: seq<T>, i: nat, p: T -> bool)
    requires i < |s|
    ensures Filter(s[..i + 1], p) == Filter(s[..i], p) + (if p(s[i]) then [s[i]] else [])
  {
    assert s[..i + 1] == s[..i] + [s[i]];
    FilterSnoc(s[..i], s[i], p);
  }

  /** The leaderboard response shared by every mode ranking. */
  datatype Board<T> = Board(topThree: seq<T>, remaining: seq<T>, userDetails: Option<T>)

  /** `topThree: ranked.slice(0, 3)`, `remaining: ranked.slice(3)` and the
      viewer's own entry, the first one `isViewer` accepts, or null. */
  function SplitBoard<T>(ranked: seq<T>, isViewer: T -> bool): (b: Board<T>)
    ensures b.topThree + b.remaining == ranked
    ensures |b.topThree| == if |ranked| < 3 then |ranked| else 3
    ensures b.userDetails.Some? ==> b.userDetails.value in ranked && isViewer(b.userDetails.value)
    ensures b.userDetails.None? <==> forall x :: x in ranked ==> !isViewer(x)
  {
    var k := if |ranked| < 3 then |ranked| else 3;
    Board(ranked[..k], ranked[k..], Find(ranked, isViewer))
  }

  /** JavaScript `Math.round(t / c)` for a positive count: halves round up. */
  function RoundDiv(t: int, c: int): int
    requires c > 0
  {
    (2 * t + c) / (2 * c)
  }

  /** The rounded quotient is the integer nearest to `t / c`, halves going
      up. */
  lemma RoundDivBounds(t: int, c: int)
    requires c > 0
    ensures var r := RoundDiv(t, c); 2 * c * r <= 2 * t + c < 2 * c * (r + 1)
  {
    var q := (2 * t + c) / (2 * c);
    assert 2 * t + c == (2 * c) * q + (2 * t + c) % (2 * c);
  }

  lemma MulMonotone(c: nat, a: int, b: int)
    requires a <= b
    ensures c * a <= c * b
  {
    assert c * b - c * a == c * (b - a);
  }

  /** When every element satisfies `p`, the count is the length. */
  lemma {:induction false} CountWhereAll<T>(s: seq<T>, p: T -> bool)
    requires forall j :: 0 <= j < |s| ==> p(s[j])
    ensures CountWhere(s, p) == |s|
  {
    if |s| > 0 {
      CountWhereAll(s[1..], p);
    }
  }

  lemma {:induction false} CountWhereAppend<T>(s: seq<T>, x: T, p: T -> bool)
    ensures CountWhere(s + [x], p) == CountWhere(s, p) + (if p(x) then 1 else 0)
  {
    if |s| > 0 {
      assert (s + [x])[1..] == s[1..] + [x];
      CountWhereAppend(s[1..], x, p);
    }
  }

  /** Counting by `p` splits into the elements that also satisfy `q` and
      those that do not. */
  lemma {:induction false} CountWhereSplit<T>(s: seq<T>, p: T -> bool, q: T -> bool, pq: T -> bool, pnq: T -> bool)
    requires forall x :: pq(x) == (p(x) && q(x))
    requires forall x :: pnq(x) == (p(x) && !q(x))
    ensures CountWhere(s, p) == CountWhere(s, pq) + CountWhere(s, pnq)
  {
    if |s| > 0 {
      CountWhereSplit(s[1..], p, q, pq, pnq);
    }
  }

  /** The first `n` elements, or all of them when there are fewer
      (Prisma `take`, JavaScript `slice(0, n)`). */
  function Take<T>(s: seq<T>, n: nat): (r: seq<T>)
    ensures |r| == if |s| < n then |s| else n
    ensures r == s[..|r|]
  {
    if |s| < n then s else s[..n]
  }

  /** The rounded percentage `Math.round(total / (count * 100) * 100)` with the
      `|| 1` guard the rankings put on the record count. */
  function Percentage(total: int, count: nat): int
  {
    RoundDiv(total, if count == 0 then 1 else count)
  }

  /** The bands 100 / 90 / 80 / 60 / 40 of the mode rankings, as a number
      from 5 (exactly 100) down to 0. */
  function PercentBand(p: int): (b: nat)
    ensures b <= 5
    ensures b == 5 <==> p == 100
    ensures b == 4 <==> p != 100 && p >= 90
    ensures b == 3 <==> 80 <= p < 90
    ensures b == 2 <==> 60 <= p < 80
    ensures b == 1 <==> 40 <= p < 60
    ensures b == 0 <==> p < 40
  {
    if p == 100 then 5
    else if p >= 90 then 4
    else if p >= 80 then 3
    else if p >= 60 then 2
    else if p >= 40 then 1
    else 0
  }

  /** The label of a band; the top label differs between modes. */
  function BandLabel(b: nat, master: string): string
  {
    if b == 5 then master
    else if b == 4 then "Expert"
    else if b == 3 then "Advanced"
    else if b == 2 then "Competent"
    else if b == 1 then "Beginner"
    else "Novice"
  }

  /** Below 100 the bands never go down as the percentage grows. */
  lemma PercentBandMonotone(p: int, q: int)
    requires p <= q <= 100
    ensures PercentBand(p) <= PercentBand(q)
  {
  }

  /** Above 100 the top band is lost again: "Master" is only exactly 100. */
  lemma PercentBandNotMonotoneAbove100()
    ensures PercentBand(100) == 5 && PercentBand(101) == 4
  {
  }
}
