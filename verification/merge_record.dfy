/** Output assembly (MergeAggregationRecord): the key values, then the aggregate
    values, with the window start inserted at a fixed position when windowed. */
module MergeRecord {
  import opened Values
  import opened Aggregators

  /** `windowStartFieldIdx` is -1 when the output has no window-start field. */
  datatype MergeAggregationRecord = MergeAggregationRecord(
    outSchema: Schema,
    aggFieldNames: seq<string>,
    windowStartFieldIdx: int)

  method NewMergeAggregationRecord(outSchema: Schema, aggList: seq<AggregateCall>, windowStartFieldIdx: int)
    returns (m: MergeAggregationRecord)
    ensures m.outSchema == outSchema && m.windowStartFieldIdx == windowStartFieldIdx
    ensures |m.aggFieldNames| == |aggList|
    ensures forall i :: 0 <= i < |aggList| ==> m.aggFieldNames[i] == aggList[i].name
  {
    var aggFieldNames: seq<string> := [];
    var idx := 0;
    while idx < |aggList|
      invariant 0 <= idx <= |aggList| && |aggFieldNames| == idx
      invariant forall i :: 0 <= i < idx ==> aggFieldNames[i] == aggList[i].name
    {
      aggFieldNames := aggFieldNames + [aggList[idx].name];
      idx := idx + 1;
    }
    m := MergeAggregationRecord(outSchema, aggFieldNames, windowStartFieldIdx);
  }

  /** Inserting into a list at a position: values before it stay, the new value
      takes the position, values from it on move one to the right; a position
      outside 0..|values| is an index error. */
  function InsertAt(values: seq<Value>, index: int, x: Value): (r: Result<seq<Value>>)
    ensures r.Ok? <==> 0 <= index <= |values|
    ensures r.Err? ==> r.error == IndexOutOfBounds(index)
    ensures r.Ok? ==> |r.value| == |values| + 1 && r.value[index] == x
                      && (forall j :: 0 <= j < index ==> r.value[j] == values[j])
                      && (forall j :: index < j <= |values| ==> r.value[j] == values[j - 1])
    ensures r.Ok? ==> r.value[..index] + r.value[index + 1..] == values
  {
    if 0 <= index <= |values| then
      var inserted := values[..index] + [x] + values[index..];
      assert inserted[..index] == values[..index];
      assert inserted[index + 1..] == values[index..];
      Ok(inserted)
    else Err(IndexOutOfBounds(index))
  }

  /** The output record for one (key, window): key values, then aggregate values,
      with `windowStart` at `windowStartFieldIdx` unless that is -1. */
  method ProcessElement(m: MergeAggregationRecord, key: Row, aggregate: Row, windowStart: Value)
    returns (r: Result<Row>)
    ensures r.Ok? <==> m.windowStartFieldIdx == -1
                       || 0 <= m.windowStartFieldIdx <= |key.values| + |aggregate.values|
    ensures r.Err? ==> r.error == IndexOutOfBounds(m.windowStartFieldIdx)
    ensures r.Ok? ==> r.value.schema == m.outSchema
    ensures m.windowStartFieldIdx == -1 ==> r.Ok? && r.value.values == key.values + aggregate.values
    ensures m.windowStartFieldIdx != -1 && r.Ok? ==>
              var idx := m.windowStartFieldIdx;
              && |r.value.values| == |key.values| + |aggregate.values| + 1
              && r.value.values[idx] == windowStart
              && r.value.values[..idx] + r.value.values[idx + 1..] == key.values + aggregate.values
  {
    var fieldValues := key.values;
    fieldValues := fieldValues + aggregate.values;
    if m.windowStartFieldIdx != -1 {
      var inserted := InsertAt(fieldValues, m.windowStartFieldIdx, windowStart);
      if inserted.Err? {
        return Err(inserted.error);
      }
      fieldValues := inserted.value;
    }
    return Ok(Row(m.outSchema, fieldValues));
  }
}
