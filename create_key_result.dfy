/** Key results generated per objective, with missing ids numbered by one
    counter that runs across all objectives of a request. */
module CreateKeyResult {
  import opened Common

  /** One element of a reply's `keyResults`; a missing or null id is None. */
  datatype ParsedKeyResult = ParsedKeyResult(id: Option<int>, title: string, description: string)

  /** A model reply: text that does not parse as JSON, or an object whose
      `keyResults` may be absent. */
  datatype Reply = Unparsable | Parsed(keyResults: Option<seq<ParsedKeyResult>>)

  datatype KeyResultItem = KeyResultItem(id: int, title: string, description: string)

  datatype KeyResultBatch = KeyResultBatch(strategy: string, objective: string, role: string, keyResults: seq<KeyResultItem>)

  /** `parsed.keyResults || []`, and `[]` when parsing fails. */
  function KeyResultsOf(reply: Reply): (r: seq<ParsedKeyResult>)
    ensures reply.Unparsable? ==> r == []
    ensures reply.Parsed? && reply.keyResults.None? ==> r == []
    ensures reply.Parsed? && reply.keyResults.Some? ==> r == reply.keyResults.value
  {
    match reply
    case Unparsable => []
    case Parsed(krs) => if krs.Some? then krs.value else []
  }

  /** `kr.id` is truthy: present and not 0. */
  predicate HasId(k: ParsedKeyResult)
  {
    k.id.Some? && k.id.value != 0
  }

  /** The numbering of one objective's key results starting at `counter`,
      with the counter it leaves behind. */
  function Numbered(krs: seq<ParsedKeyResult>, counter: int): (r: (seq<KeyResultItem>, int))
    ensures |r.0| == |krs|
  {
    if |krs| == 0 then ([], counter)
    else
      var id := if HasId(krs[0]) then krs[0].id.value else counter;
      var rest := Numbered(krs[1..], id + 1);
      ([KeyResultItem(id, krs[0].title, krs[0].description)] + rest.0, rest.1)
  }

  /** Numbering keeps every title and description, and every truthy id. */
  lemma {:induction false} NumberedKeepsGiven(krs: seq<ParsedKeyResult>, counter: int)
    ensures var r := Numbered(krs, counter);
      && (forall i :: 0 <= i < |krs| ==> r.0[i].title == krs[i].title && r.0[i].description == krs[i].description)
      && (forall i :: 0 <= i < |krs| && HasId(krs[i]) ==> r.0[i].id == krs[i].id.value)
  {
    if |krs| > 0 {
      var id := if HasId(krs[0]) then krs[0].id.value else counter;
      NumberedKeepsGiven(krs[1..], id + 1);
      var r := Numbered(krs, counter);
      var rest := Numbered(krs[1..], id + 1);
      assert r.0 == [KeyResultItem(id, krs[0].title, krs[0].description)] + rest.0;
      forall i | 0 < i < |krs| ensures r.0[i] == rest.0[i - 1] && krs[i] == krs[1..][i - 1] {
      }
    }
  }

  /** A key result without an id is numbered one past the item before it
      (the first one gets the counter), and the counter left behind is one
      past the last id. */
  lemma {:induction false} NumberedFollowsPrevious(krs: seq<ParsedKeyResult>, counter: int)
    ensures var r := Numbered(krs, counter);
      && (|krs| > 0 && !HasId(krs[0]) ==> r.0[0].id == counter)
      && (forall i :: 0 < i < |krs| && !HasId(krs[i]) ==> r.0[i].id == r.0[i - 1].id + 1)
      && r.1 == (if |krs| == 0 then counter else r.0[|krs| - 1].id + 1)
  {
    if |krs| > 0 {
      var id := if HasId(krs[0]) then krs[0].id.value else counter;
      NumberedFollowsPrevious(krs[1..], id + 1);
      var rest := Numbered(krs[1..], id + 1);
      var r := Numbered(krs, counter);
      assert r.0 == [KeyResultItem(id, krs[0].title, krs[0].description)] + rest.0;
      forall i | 0 < i < |krs| && !HasId(krs[i])
        ensures r.0[i].id == r.0[i - 1].id + 1
      {
        assert krs[1..][i - 1] == krs[i];
        assert r.0[i] == rest.0[i - 1];
        if i > 1 {
          assert r.0[i - 1] == rest.0[i - 2];
        }
      }
    }
  }

  /** When the reply gives no ids, the key results are numbered
      `counter, counter + 1, ...` and the counter moves past them. */
  lemma {:induction false} NumberedWithoutIds(krs: seq<ParsedKeyResult>, counter: int)
    requires forall i :: 0 <= i < |krs| ==> !HasId(krs[i])
    ensures forall i :: 0 <= i < |krs| ==> Numbered(krs, counter).0[i].id == counter + i
    ensures Numbered(krs, counter).1 == counter + |krs|
  {
    if |krs| > 0 {
      NumberedWithoutIds(krs[1..], counter + 1);
      var r := Numbered(krs, counter);
      var rest := Numbered(krs[1..], counter + 1);
      assert r.0 == [KeyResultItem(counter, krs[0].title, krs[0].description)] + rest.0;
      forall i | 0 < i < |krs| ensures r.0[i].id == counter + i {
        assert r.0[i] == rest.0[i - 1];
      }
    }
  }

  /** A reply that supplies ids is trusted as is, so ids can repeat: an
      unnumbered key result followed by one that says id 1. */
  lemma GivenIdsCanRepeat(title: string, description: string)
    ensures var krs := [ParsedKeyResult(None, title, description), ParsedKeyResult(Some(1), title, description)];
      Numbered(krs, 1).0[0].id == Numbered(krs, 1).0[1].id
  {
    var krs := [ParsedKeyResult(None, title, description), ParsedKeyResult(Some(1), title, description)];
    assert krs[1..] == [ParsedKeyResult(Some(1), title, description)];
  }

  /** One step of the numbering, taken at index `i`. */
  lemma NumberedStep(krs: seq<ParsedKeyResult>, i: nat, counter: int)
    requires i < |krs|
    ensures var id := if HasId(krs[i]) then krs[i].id.value else counter;
      var rest := Numbered(krs[i + 1..], id + 1);
      Numbered(krs[i..], counter) == ([KeyResultItem(id, krs[i].title, krs[i].description)] + rest.0, rest.1)
  {
    assert krs[i..][0] == krs[i];
    assert krs[i..][1..] == krs[i + 1..];
  }

  /** One step of the batches, taken at objective `i`. */
  lemma BatchesStep(strategy: string, objectives: seq<string>, role: string, replies: seq<Reply>, i: nat, counter: int)
    requires |replies| == |objectives|
    requires i < |objectives|
    ensures var one := Numbered(KeyResultsOf(replies[i]), counter);
      var rest := Batches(strategy, objectives[i + 1..], role, replies[i + 1..], one.1);
      Batches(strategy, objectives[i..], role, replies[i..], counter).0
        == [KeyResultBatch(strategy, objectives[i], role, one.0)] + rest.0
  {
    assert objectives[i..][0] == objectives[i] && replies[i..][0] == replies[i];
    assert objectives[i..][1..] == objectives[i + 1..] && replies[i..][1..] == replies[i + 1..];
  }

  /** The `forEach` that numbers one objective's key results in place. */
  method AssignIds(krs: seq<ParsedKeyResult>, counter: int) returns (items: seq<KeyResultItem>, next: int)
    ensures (items, next) == Numbered(krs, counter)
  {
    items := [];
    next := counter;
    var i := 0;
    assert krs[0..] == krs;
    assert items + Numbered(krs, counter).0 == Numbered(krs, counter).0;
    while i < |krs|
      invariant 0 <= i <= |krs|
      invariant Numbered(krs, counter).0 == items + Numbered(krs[i..], next).0
      invariant Numbered(krs, counter).1 == Numbered(krs[i..], next).1
    {
      NumberedStep(krs, i, next);
      var id: int;
      if HasId(krs[i]) {
        id := krs[i].id.value;
      } else {
        id := next;
      }
      ghost var rest := Numbered(krs[i + 1..], id + 1);
      AppendAssoc(items, [KeyResultItem(id, krs[i].title, krs[i].description)], rest.0);
      items := items + [KeyResultItem(id, krs[i].title, krs[i].description)];
      next := id + 1;
      i := i + 1;
    }
    assert krs[i..] == [];
    assert items + [] == items;
  }

  /** The batches for `objectives[from..]`, each numbered from the counter
      the previous objective left behind. */
  function Batches(strategy: string, objectives: seq<string>, role: string, replies: seq<Reply>, counter: int): (r: (seq<KeyResultBatch>, int))
    requires |replies| == |objectives|
    ensures |r.0| == |objectives|
    ensures forall i :: 0 <= i < |objectives| ==>
      && r.0[i].strategy == strategy && r.0[i].objective == objectives[i] && r.0[i].role == role
      && |r.0[i].keyResults| == |KeyResultsOf(replies[i])|
  {
    if |objectives| == 0 then ([], counter)
    else
      var one := Numbered(KeyResultsOf(replies[0]), counter);
      var rest := Batches(strategy, objectives[1..], role, replies[1..], one.1);
      ([KeyResultBatch(strategy, objectives[0], role, one.0)] + rest.0, rest.1)
  }

  /** The key result ids of all batches, in order. */
  function AllIds(batches: seq<KeyResultBatch>): (r: seq<int>)
  {
    if |batches| == 0 then []
    else seq(|batches[0].keyResults|, i requires 0 <= i < |batches[0].keyResults| => batches[0].keyResults[i].id) + AllIds(batches[1..])
  }

  predicate NoIdsGiven(replies: seq<Reply>)
  {
    forall j, i :: 0 <= j < |replies| && 0 <= i < |KeyResultsOf(replies[j])| ==> !HasId(KeyResultsOf(replies[j])[i])
  }

  /** When no reply supplies ids, the counter runs on across objectives:
      the ids of the whole request are `counter, counter + 1, ...`, so no
      two key results share one. */
  lemma {:induction false} BatchIdsConsecutive(strategy: string, objectives: seq<string>, role: string, replies: seq<Reply>, counter: int)
    requires |replies| == |objectives|
    requires NoIdsGiven(replies)
    ensures var r := Batches(strategy, objectives, role, replies, counter);
      && |AllIds(r.0)| == r.1 - counter
      && forall k :: 0 <= k < |AllIds(r.0)| ==> AllIds(r.0)[k] == counter + k
  {
    if |objectives| > 0 {
      var krs := KeyResultsOf(replies[0]);
      NumberedWithoutIds(krs, counter);
      var one := Numbered(krs, counter);
      assert NoIdsGiven(replies[1..]) by {
        forall j, i | 0 <= j < |replies[1..]| && 0 <= i < |KeyResultsOf(replies[1..][j])|
          ensures !HasId(KeyResultsOf(replies[1..][j])[i])
        {
          assert replies[1..][j] == replies[j + 1];
        }
      }
      BatchIdsConsecutive(strategy, objectives[1..], role, replies[1..], one.1);
      var r := Batches(strategy, objectives, role, replies, counter);
      var rest := Batches(strategy, objectives[1..], role, replies[1..], one.1);
      assert r.0 == [KeyResultBatch(strategy, objectives[0], role, one.0)] + rest.0;
      assert r.0[1..] == rest.0;
      var head := seq(|one.0|, i requires 0 <= i < |one.0| => one.0[i].id);
      assert AllIds(r.0) == head + AllIds(rest.0);
    }
  }

  /** `generateKRsForObjectives`, given one model reply per objective. */
  method GenerateForObjectives(strategy: string, objectives: seq<string>, role: string, replies: seq<Reply>)
    returns (results: seq<KeyResultBatch>)
    requires |replies| == |objectives|
    ensures results == Batches(strategy, objectives, role, replies, 1).0
  {
    results := [];
    var counter := 1;
    var i := 0;
    assert objectives[0..] == objectives && replies[0..] == replies;
    assert results + Batches(strategy, objectives, role, replies, 1).0 == Batches(strategy, objectives, role, replies, 1).0;
    while i < |objectives|
      invariant 0 <= i <= |objectives|
      invariant Batches(strategy, objectives, role, replies, 1).0
        == results + Batches(strategy, objectives[i..], role, replies[i..], counter).0
    {
      BatchesStep(strategy, objectives, role, replies, i, counter);
      var keyResults, next := AssignIds(KeyResultsOf(replies[i]), counter);
      ghost var rest := Batches(strategy, objectives[i + 1..], role, replies[i + 1..], next);
      var batch := KeyResultBatch(strategy, objectives[i], role, keyResults);
      AppendAssoc(results, [batch], rest.0);
      results := results + [batch];
      counter := next;
      i := i + 1;
    }
    assert objectives[i..] == [] && replies[i..] == [];
    assert results + [] == results;
  }
}
