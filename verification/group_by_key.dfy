/** Deriving the group key of a record and reading its event time
    (AggregationGroupByKeyFn and WindowTimestampFn). */
module GroupByKey {
  import opened Values

  /** What `ImmutableBitSet.asList()` yields: distinct field indices in ascending order. */
  ghost predicate StrictlyAscending(s: seq<nat>) {
    forall i, j :: 0 <= i < j < |s| ==> s[i] < s[j]
  }

  /** The group-set indices, in their order, with the window field's index dropped. */
  function WithoutWindow(groupSet: seq<nat>, windowFieldIdx: int): seq<nat>
  {
    if groupSet == [] then []
    else
      var rest := WithoutWindow(groupSet[..|groupSet| - 1], windowFieldIdx);
      var last := groupSet[|groupSet| - 1];
      if last == windowFieldIdx then rest else rest + [last]
  }

  /** A key index survives exactly when it is in the group set and is not the window field. */
  lemma {:induction false} WithoutWindowMembers(groupSet: seq<nat>, windowFieldIdx: int)
    ensures forall k :: k in WithoutWindow(groupSet, windowFieldIdx) <==> k in groupSet && k != windowFieldIdx
  {
    if groupSet != [] {
      var init := groupSet[..|groupSet| - 1];
      WithoutWindowMembers(init, windowFieldIdx);
      assert groupSet == init + [groupSet[|groupSet| - 1]];
    }
  }

  /** Dropping the window field keeps the ascending group-set order. */
  lemma {:induction false} WithoutWindowAscending(groupSet: seq<nat>, windowFieldIdx: int)
    requires StrictlyAscending(groupSet)
    ensures StrictlyAscending(WithoutWindow(groupSet, windowFieldIdx))
  {
    if groupSet != [] {
      var init := groupSet[..|groupSet| - 1];
      var last := groupSet[|groupSet| - 1];
      WithoutWindowAscending(init, windowFieldIdx);
      WithoutWindowMembers(init, windowFieldIdx);
      var rest := WithoutWindow(init, windowFieldIdx);
      forall i | 0 <= i < |rest|
        ensures rest[i] < last
      {
        assert rest[i] in init;
        var k :| 0 <= k < |init| && init[k] == rest[i];
        assert groupSet[k] == rest[i];
      }
    }
  }

  /** The key has one index fewer than the group set when the window field is in it,
      and the same number otherwise. */
  lemma {:induction false} WithoutWindowLength(groupSet: seq<nat>, windowFieldIdx: int)
    requires StrictlyAscending(groupSet)
    ensures |WithoutWindow(groupSet, windowFieldIdx)| ==
            if windowFieldIdx in groupSet then |groupSet| - 1 else |groupSet|
  {
    if groupSet != [] {
      var init := groupSet[..|groupSet| - 1];
      var last := groupSet[|groupSet| - 1];
      WithoutWindowLength(init, windowFieldIdx);
      assert groupSet == init + [last];
      assert forall k :: 0 <= k < |init| ==> init[k] == groupSet[k] < last;
    }
  }

  /** With the "no window" sentinel (any negative index) the key is the whole group set. */
  lemma {:induction false} WithoutWindowUnwindowed(groupSet: seq<nat>, windowFieldIdx: int)
    requires windowFieldIdx < 0
    ensures WithoutWindow(groupSet, windowFieldIdx) == groupSet
  {
    if groupSet != [] {
      var init := groupSet[..|groupSet| - 1];
      WithoutWindowUnwindowed(init, windowFieldIdx);
      assert groupSet == init + [groupSet[|groupSet| - 1]];
    }
  }

  datatype AggregationGroupByKeyFn = AggregationGroupByKeyFn(groupByKeys: seq<nat>)

  /** Keeps the group-set indices that are not the window field, appending in order. */
  method NewAggregationGroupByKeyFn(windowFieldIdx: int, groupSet: seq<nat>)
    returns (fn: AggregationGroupByKeyFn)
    ensures fn.groupByKeys == WithoutWindow(groupSet, windowFieldIdx)
  {
    var keys: seq<nat> := [];
    var idx := 0;
    while idx < |groupSet|
      invariant 0 <= idx <= |groupSet|
      invariant keys == WithoutWindow(groupSet[..idx], windowFieldIdx)
    {
      assert groupSet[..idx + 1][..idx] == groupSet[..idx];
      if groupSet[idx] != windowFieldIdx {
        keys := keys + [groupSet[idx]];
      }
      idx := idx + 1;
    }
    assert groupSet[..idx] == groupSet;
    fn := AggregationGroupByKeyFn(keys);
  }

  /** Reads `s` at each of `keys` in turn; the first index out of range is an error. */
  function Project<T>(keys: seq<nat>, s: seq<T>): (r: Result<seq<T>>)
    ensures r.Ok? <==> forall k :: k in keys ==> k < |s|
    ensures r.Ok? ==> |r.value| == |keys| && forall i :: 0 <= i < |keys| ==> keys[i] < |s| && r.value[i] == s[keys[i]]
    ensures r.Err? ==> exists j :: 0 <= j < |keys| && keys[j] >= |s| && r.error == IndexOutOfBounds(keys[j])
                                  && forall i :: 0 <= i < j ==> keys[i] < |s|
  {
    if keys == [] then Ok([])
    else if keys[0] >= |s| then assert keys[0] in keys; Err(IndexOutOfBounds(keys[0]))
    else
      match Project(keys[1..], s)
      case Ok(rest) => Ok([s[keys[0]]] + rest)
      case Err(e) =>
        assert forall k :: k in keys[1..] ==> k in keys;
        ghost var j :| 0 <= j < |keys[1..]| && keys[1..][j] >= |s| && e == IndexOutOfBounds(keys[1..][j])
                       && forall i :: 0 <= i < j ==> keys[1..][i] < |s|;
        assert keys[j + 1] >= |s|;
        Err(e)
  }

  /** The schema of the key record: the key fields of `schema`, in key order. */
  function ExTypeOfKeyRow(fn: AggregationGroupByKeyFn, schema: Schema): (r: Result<Schema>)
    ensures r.Ok? <==> forall k :: k in fn.groupByKeys ==> k < |schema|
    ensures r.Ok? ==> |r.value| == |fn.groupByKeys|
                      && forall i :: 0 <= i < |fn.groupByKeys| ==>
                           fn.groupByKeys[i] < |schema| && r.value[i] == schema[fn.groupByKeys[i]]
  {
    Project(fn.groupByKeys, schema)
  }

  /** The key record of `input`: its values at the key indices, in key order. */
  function Apply(fn: AggregationGroupByKeyFn, input: Row): (r: Result<Row>)
    ensures input.Conforms() ==> (r.Ok? <==> forall k :: k in fn.groupByKeys ==> k < |input.schema|)
    ensures r.Ok? ==> r.value.Conforms() && |r.value.values| == |fn.groupByKeys|
    ensures r.Ok? ==> forall i :: 0 <= i < |fn.groupByKeys| ==>
                        fn.groupByKeys[i] < |input.values| && fn.groupByKeys[i] < |input.schema|
                        && r.value.values[i] == input.values[fn.groupByKeys[i]]
                        && r.value.schema[i] == input.schema[fn.groupByKeys[i]]
  {
    match ExTypeOfKeyRow(fn, input.schema)
    case Err(e) => Err(e)
    case Ok(keySchema) =>
      match Project(fn.groupByKeys, input.values)
      case Err(e) => Err(e)
      case Ok(keyValues) => Ok(Row(keySchema, keyValues))
  }

  lemma {:induction false} ProjectAgrees<T>(keys: seq<nat>, s: seq<T>, t: seq<T>)
    requires |s| == |t|
    requires forall k :: k in keys && k < |s| ==> s[k] == t[k]
    ensures Project(keys, s) == Project(keys, t)
  {
    if keys != [] {
      assert forall k :: k in keys[1..] ==> k in keys;
      ProjectAgrees(keys[1..], s, t);
      assert keys[0] in keys;
    }
  }

  /** Grouping: two records over the same schema get the same key exactly when
      they agree on every key field. */
  lemma SameKeyExactlyWhenKeyFieldsAgree(fn: AggregationGroupByKeyFn, a: Row, b: Row)
    requires a.schema == b.schema && a.Conforms() && b.Conforms()
    requires Apply(fn, a).Ok?
    ensures Apply(fn, b).Ok?
    ensures Apply(fn, a) == Apply(fn, b) <==> forall k :: k in fn.groupByKeys ==> a.values[k] == b.values[k]
  {
    var keys := fn.groupByKeys;
    if forall k :: k in keys ==> a.values[k] == b.values[k] {
      ProjectAgrees(keys, a.values, b.values);
    }
    if Apply(fn, a) == Apply(fn, b) {
      forall k | k in keys
        ensures a.values[k] == b.values[k]
      {
        var i :| 0 <= i < |keys| && keys[i] == k;
      }
    }
  }

  datatype WindowTimestampFn = WindowTimestampFn(windowFieldIdx: int)

  /** The event time (in milliseconds) held by the designated field. An empty
      (null) field gives the current time, which the caller passes as `now`. */
  function WindowTimestamp(fn: WindowTimestampFn, input: Row, now: int): (r: Result<int>)
    ensures r.Ok? <==> 0 <= fn.windowFieldIdx < |input.values|
                       && (input.values[fn.windowFieldIdx].DateTimeValue? || input.values[fn.windowFieldIdx].Null?)
    ensures r.Ok? && input.values[fn.windowFieldIdx].DateTimeValue? ==>
              r.value == input.values[fn.windowFieldIdx].millis
    ensures r.Ok? && input.values[fn.windowFieldIdx].Null? ==> r.value == now
    ensures !(0 <= fn.windowFieldIdx < |input.values|) ==> r == Err(IndexOutOfBounds(fn.windowFieldIdx))
    ensures 0 <= fn.windowFieldIdx < |input.values| && r.Err? ==> r == Err(NotADateTime(fn.windowFieldIdx))
  {
    if !(0 <= fn.windowFieldIdx < |input.values|) then Err(IndexOutOfBounds(fn.windowFieldIdx))
    else
      match input.values[fn.windowFieldIdx]
      case DateTimeValue(millis) => Ok(millis)
      case Null => Ok(now)
      case _ => Err(NotADateTime(fn.windowFieldIdx))
  }
}
