/** Objectives generated for a strategy: the parsed model output replaces the
    strategy's objectives, and a strategy's objectives can be fetched at
    most three times. */
module CreateObjective {
  import opened Common
  import opened Sorting

  const MaxAttempts := 3
  const LimitMessage := "Fetch limit reached (3 times only) for this strategy"

  /** One parsed element of `okrs`; a missing or null field is None. */
  datatype ParsedObjective = ParsedObjective(title: Option<string>, description: Option<string>, difficulty: Option<int>)

  /** What the model call and `JSON.parse` produce: a failure, an object
      without an `okrs` array, or the array. */
  datatype ModelOutput = Unparsable | NoOkrs | Okrs(items: seq<ParsedObjective>)

  datatype ObjectiveData = ObjectiveData(title: string, description: Option<string>, difficulty: int)

  datatype Objective = Objective(id: nat, strategyId: int, data: ObjectiveData)

  datatype GenerateResult = Saved(message: string, objectives: seq<ObjectiveData>) | Failed(error: string)

  datatype FetchResult =
    | All(objectives: seq<Objective>)
    | Fetched(objectives: seq<Objective>, remainingAttempts: int)
    | LimitReached(error: string, remainingAttempts: int)

  /** `title ?? ''`, `description ?? null`, `difficulty ?? 1`. */
  function WithDefaults(o: ParsedObjective): (d: ObjectiveData)
    ensures d.title == (if o.title.Some? then o.title.value else "")
    ensures d.description == o.description
    ensures o.difficulty.None? ==> d.difficulty == 1
    ensures o.difficulty.Some? ==> d.difficulty == o.difficulty.value
  {
    ObjectiveData(if o.title.Some? then o.title.value else "", o.description,
                  if o.difficulty.Some? then o.difficulty.value else 1)
  }

  function NewObjectives(strategyId: int, items: seq<ObjectiveData>, firstId: nat): (r: seq<Objective>)
    ensures |r| == |items|
    ensures forall i :: 0 <= i < |r| ==> r[i] == Objective(firstId + i, strategyId, items[i])
  {
    seq(|items|, i requires 0 <= i < |items| => Objective(firstId + i, strategyId, items[i]))
  }

  function OfStrategy(strategyId: int): Objective -> bool
  {
    (o: Objective) => o.strategyId == strategyId
  }

  function NotOfStrategy(strategyId: int): Objective -> bool
  {
    (o: Objective) => o.strategyId != strategyId
  }

  function IdLe(a: Objective, b: Objective): bool { a.id <= b.id }

  lemma IdLeTotalPreorder()
    ensures TotalPreorder(IdLe)
  {
  }

  /** `findMany({ where: { strategyId }, orderBy: { id: 'asc' } })`. */
  function ObjectivesOf(table: seq<Objective>, strategyId: int): (r: seq<Objective>)
    ensures multiset(r) == multiset(Filter(table, OfStrategy(strategyId)))
    ensures SortedBy(r, IdLe)
    ensures forall i :: 0 <= i < |r| ==> r[i].strategyId == strategyId
  {
    IdLeTotalPreorder();
    SortBySorted(Filter(table, OfStrategy(strategyId)), IdLe);
    var r := SortBy(Filter(table, OfStrategy(strategyId)), IdLe);
    forall i | 0 <= i < |r| ensures r[i].strategyId == strategyId {
      assert r[i] in multiset(Filter(table, OfStrategy(strategyId)));
    }
    r
  }

  /** After a save, the strategy's objectives are exactly the new ones and
      every other strategy's are untouched. */
  lemma {:induction false} ReplaceLeavesOnlyNew(table: seq<Objective>, strategyId: int, created: seq<Objective>, other: int)
    requires forall i :: 0 <= i < |created| ==> created[i].strategyId == strategyId
    ensures Filter(Filter(table, NotOfStrategy(strategyId)) + created, OfStrategy(strategyId)) == created
    ensures other != strategyId ==>
      Filter(Filter(table, NotOfStrategy(strategyId)) + created, OfStrategy(other)) == Filter(table, OfStrategy(other))
  {
    var kept := Filter(table, NotOfStrategy(strategyId));
    FilterAppend(kept, created, OfStrategy(strategyId));
    FilterNone(kept, OfStrategy(strategyId));
    FilterAll(created, OfStrategy(strategyId));
    if other != strategyId {
      FilterAppend(kept, created, OfStrategy(other));
      FilterNone(created, OfStrategy(other));
      FilterOfFilter(table, strategyId, other);
    }
  }

  /** What a save stores is what the next fetch of that strategy returns,
      and the other strategies' fetches are unaffected. */
  lemma SavedObjectivesAreFetched(table: seq<Objective>, strategyId: int, data: seq<ObjectiveData>, firstId: nat, other: int)
    ensures var after := Filter(table, NotOfStrategy(strategyId)) + NewObjectives(strategyId, data, firstId);
      && multiset(ObjectivesOf(after, strategyId)) == multiset(NewObjectives(strategyId, data, firstId))
      && (other != strategyId ==> multiset(ObjectivesOf(after, other)) == multiset(ObjectivesOf(table, other)))
  {
    ReplaceLeavesOnlyNew(table, strategyId, NewObjectives(strategyId, data, firstId), other);
  }

  lemma {:induction false} FilterAppend<T>(a: seq<T>, b: seq<T>, p: T -> bool)
    ensures Filter(a + b, p) == Filter(a, p) + Filter(b, p)
  {
    if |b| == 0 {
      assert a + b == a;
    } else {
      var init := b[..|b| - 1];
      var last := b[|b| - 1];
      assert b == init + [last];
      assert a + b == (a + init) + [last];
      FilterAppend(a, init, p);
      FilterSnoc(a + init, last, p);
      FilterSnoc(init, last, p);
    }
  }

  lemma {:induction false} FilterNone<T>(s: seq<T>, p: T -> bool)
    requires forall i :: 0 <= i < |s| ==> !p(s[i])
    ensures Filter(s, p) == []
  {
    if |s| > 0 {
      FilterNone(s[1..], p);
    }
  }

  lemma {:induction false} FilterAll<T>(s: seq<T>, p: T -> bool)
    requires forall i :: 0 <= i < |s| ==> p(s[i])
    ensures Filter(s, p) == s
  {
    if |s| > 0 {
      FilterAll(s[1..], p);
    }
  }

  lemma {:induction false} FilterOfFilter(table: seq<Objective>, strategyId: int, other: int)
    requires other != strategyId
    ensures Filter(Filter(table, NotOfStrategy(strategyId)), OfStrategy(other)) == Filter(table, OfStrategy(other))
  {
    if |table| > 0 {
      FilterOfFilter(table[1..], strategyId, other);
      var rest := Filter(table[1..], NotOfStrategy(strategyId));
      if table[0].strategyId != strategyId {
        assert Filter(table, NotOfStrategy(strategyId)) == [table[0]] + rest;
        assert ([table[0]] + rest)[1..] == rest;
      } else {
        assert Filter(table, NotOfStrategy(strategyId)) == rest;
      }
    }
  }

  class ObjectiveService {
    var objectives: seq<Objective>
    var nextId: nat
    var fetchCounts: map<int, nat>

    /** Ids are below the counter, and no strategy was fetched more than
        three times. */
    ghost predicate Valid()
      reads this
    {
      && (forall i :: 0 <= i < |objectives| ==> objectives[i].id < nextId)
      && (forall s :: s in fetchCounts ==> fetchCounts[s] <= MaxAttempts)
    }

    constructor ()
      ensures Valid() && objectives == [] && nextId == 0 && fetchCounts == map[]
    {
      objectives := [];
      nextId := 0;
      fetchCounts := map[];
    }

    /** `generateAndSaveObjectives`, given what the model produced: a failed
        parse and an empty list change nothing; otherwise the strategy's
        objectives are replaced by the parsed ones with their defaults. */
    method GenerateAndSave(strategyId: int, output: ModelOutput) returns (r: GenerateResult)
      requires Valid()
      modifies this
      ensures Valid() && fetchCounts == old(fetchCounts)
      ensures output.Unparsable? ==> r == Failed("Failed to generate OKRs")
      ensures (output.NoOkrs? || (output.Okrs? && |output.items| == 0)) ==> r == Failed("No objectives generated")
      ensures r.Failed? ==> objectives == old(objectives) && nextId == old(nextId)
      ensures output.Okrs? && |output.items| > 0 ==>
        var data := seq(|output.items|, i requires 0 <= i < |output.items| => WithDefaults(output.items[i]));
        && r == Saved("Objectives saved", data)
        && objectives == Filter(old(objectives), NotOfStrategy(strategyId)) + NewObjectives(strategyId, data, old(nextId))
        && nextId == old(nextId) + |data|
    {
      if output.Unparsable? {
        return Failed("Failed to generate OKRs");
      }
      var data: seq<ObjectiveData> := [];
      if output.Okrs? {
        data := seq(|output.items|, i requires 0 <= i < |output.items| => WithDefaults(output.items[i]));
      }
      if |data| == 0 {
        return Failed("No objectives generated");
      }
      var kept := Filter(objectives, NotOfStrategy(strategyId));
      objectives := kept + NewObjectives(strategyId, data, nextId);
      nextId := nextId + |data|;
      r := Saved("Objectives saved", data);
    }

    /** `getObjectives`: without a (truthy) strategy id, every objective and
        no count; otherwise up to three counted fetches, reporting the
        attempts left. */
    method GetObjectives(strategyId: Option<int>) returns (r: FetchResult)
      requires Valid()
      modifies this
      ensures Valid() && objectives == old(objectives) && nextId == old(nextId)
      ensures (strategyId.None? || strategyId.value == 0) ==>
        r.All? && fetchCounts == old(fetchCounts)
        && multiset(r.objectives) == multiset(old(objectives)) && SortedBy(r.objectives, IdLe)
      ensures strategyId.Some? && strategyId.value != 0 ==>
        var s := strategyId.value;
        var count := if s in old(fetchCounts) then old(fetchCounts)[s] else 0;
        && (count >= MaxAttempts ==> r == LimitReached(LimitMessage, 0) && fetchCounts == old(fetchCounts))
        && (count < MaxAttempts ==>
              && fetchCounts == old(fetchCounts)[s := count + 1]
              && r == Fetched(ObjectivesOf(objectives, s), MaxAttempts - (count + 1)))
    {
      if strategyId.None? || strategyId.value == 0 {
        IdLeTotalPreorder();
        SortBySorted(objectives, IdLe);
        return All(SortBy(objectives, IdLe));
      }
      var s := strategyId.value;
      var count := if s in fetchCounts then fetchCounts[s] else 0;
      var remaining := if MaxAttempts - count > 0 then MaxAttempts - count else 0;
      if count >= MaxAttempts {
        return LimitReached(LimitMessage, 0);
      }
      fetchCounts := fetchCounts[s := count + 1];
      r := Fetched(ObjectivesOf(objectives, s), remaining - 1);
    }
  }
}
