/** The combine engine (AggregationAdaptor): built once from the aggregate calls
    and the source schema, then used statelessly to create, update, merge and
    extract composite accumulators, and to describe their coder. */
module Adaptor {
  import opened Values
  import opened Aggregators
  import opened AccumulatorCoders

  /** A composite accumulator: slot i belongs to aggregator i. */
  type Accumulator = seq<Value>

  /** Which coder handles a value: the coder of a field type, the key-value
      coder of two coders, or the accumulator coder an aggregator provides for
      a given input coder. */
  datatype CoderRef =
    | PrimitiveCoder(fieldType: FieldType)
    | KvCoder(keyCoder: CoderRef, valueCoder: CoderRef)
    | AccumulatorCoderOf(aggregator: Aggregator, inputCoder: CoderRef)

  /** What the runtime supplies and this model leaves abstract: the behaviour
      of each aggregator, whether an aggregator can provide an accumulator coder
      for an input coder, what each coder writes and reads, and the count coder. */
  datatype Library = Library(
    combineFn: Aggregator -> CombineFn,
    canProvideCoder: (Aggregator, CoderRef) -> bool,
    codecOf: CoderRef -> Codec,
    varIntCoder: IntCodec)

  datatype AggregationAdaptor = AggregationAdaptor(
    aggregators: seq<Aggregator>,
    sourceFieldExps: seq<SourceBinding>,
    sourceSchema: Schema,
    finalSchema: Schema)
  {
    /** One binding and one output field per aggregator, every bound field in the source schema. */
    predicate Valid() {
      && |sourceFieldExps| == |aggregators|
      && |finalSchema| == |aggregators|
      && forall i, k :: 0 <= i < |sourceFieldExps| && k in BoundFields(sourceFieldExps[i]) ==> k < |sourceSchema|
    }

    /** Every field the bindings read is present in `input`. */
    predicate CanRead(input: Row) {
      forall i, k :: 0 <= i < |sourceFieldExps| && k in BoundFields(sourceFieldExps[i]) ==> k < |input.values|
    }
  }

  /** The value a binding passes to its aggregator: the bound field, or the
      key-value pair of the two bound fields. */
  function SlotInput(b: SourceBinding, input: Row): Value
    requires forall k :: k in BoundFields(b) ==> k < |input.values|
  {
    match b
    case Single(ref) =>
      assert ref in BoundFields(b);
      input.values[ref]
    case Paired(keyRef, valueRef) =>
      assert keyRef in BoundFields(b) && valueRef in BoundFields(b);
      KvValue(input.values[keyRef], input.values[valueRef])
  }

  /** Builds the adaptor call by call, in call order; the first call that cannot
      be resolved aborts construction. */
  method NewAggregationAdaptor(aggregationCalls: seq<AggregateCall>, sourceSchema: Schema)
    returns (r: Result<AggregationAdaptor>)
    ensures r.Ok? <==> forall i :: 0 <= i < |aggregationCalls| ==> ResolveCall(aggregationCalls[i], sourceSchema).Ok?
    ensures r.Ok? ==> r.value.Valid() && r.value.sourceSchema == sourceSchema
                      && |r.value.aggregators| == |aggregationCalls|
    ensures r.Ok? ==> forall i :: 0 <= i < |aggregationCalls| ==>
              ResolveCall(aggregationCalls[i], sourceSchema)
                == Ok(ResolvedCall(r.value.sourceFieldExps[i], r.value.finalSchema[i], r.value.aggregators[i]))
    ensures r.Err? ==> exists k :: 0 <= k < |aggregationCalls|
                                  && ResolveCall(aggregationCalls[k], sourceSchema) == Err(r.error)
                                  && forall j :: 0 <= j < k ==> ResolveCall(aggregationCalls[j], sourceSchema).Ok?
  {
    var aggregators: seq<Aggregator> := [];
    var sourceFieldExps: seq<SourceBinding> := [];
    var fields: Schema := [];
    var idx := 0;
    while idx < |aggregationCalls|
      invariant 0 <= idx <= |aggregationCalls|
      invariant |aggregators| == idx && |sourceFieldExps| == idx && |fields| == idx
      invariant forall i :: 0 <= i < idx ==>
                  ResolveCall(aggregationCalls[i], sourceSchema)
                    == Ok(ResolvedCall(sourceFieldExps[i], fields[i], aggregators[i]))
    {
      var call := aggregationCalls[idx];
      var binding := BindingOf(call.argList);
      var unbound := FirstUnboundField(binding, |sourceSchema|);
      if unbound.Some? {
        return Err(IndexOutOfBounds(unbound.value));
      }
      sourceFieldExps := sourceFieldExps + [binding];
      fields := fields + [Field(call.name, call.callType)];
      var resolved := ResolveAggregator(call.aggregation, call.callType);
      if resolved.Err? {
        return Err(resolved.error);
      }
      aggregators := aggregators + [resolved.value];
      idx := idx + 1;
    }
    r := Ok(AggregationAdaptor(aggregators, sourceFieldExps, sourceSchema, fields));
  }

  /** Slot i holds aggregator i's initial accumulator. */
  function InitialAccumulator(lib: Library, ad: AggregationAdaptor): Accumulator
  {
    seq(|ad.aggregators|, i requires 0 <= i < |ad.aggregators| => lib.combineFn(ad.aggregators[i]).initial)
  }

  /** Slot i is aggregator i's accumulator after adding slot i's input from `input`. */
  function AddToSlots(lib: Library, ad: AggregationAdaptor, accumulator: Accumulator, input: Row): Accumulator
    requires ad.Valid() && |accumulator| >= |ad.aggregators| && ad.CanRead(input)
  {
    seq(|ad.aggregators|, i requires 0 <= i < |ad.aggregators| =>
      lib.combineFn(ad.aggregators[i]).addInput(accumulator[i], SlotInput(ad.sourceFieldExps[i], input)))
  }

  /** Slot i of every accumulator, in input order. */
  function Column(accumulators: seq<Accumulator>, i: nat): (col: seq<Value>)
    requires forall a :: a in accumulators ==> i < |a|
    ensures |col| == |accumulators|
    ensures forall j :: 0 <= j < |accumulators| ==> col[j] == accumulators[j][i]
  {
    if accumulators == [] then []
    else [accumulators[0][i]] + Column(accumulators[1..], i)
  }

  /** Slot i is aggregator i's merge of slot i of every accumulator. */
  function MergeSlots(lib: Library, ad: AggregationAdaptor, accumulators: seq<Accumulator>): Accumulator
    requires forall a :: a in accumulators ==> |a| >= |ad.aggregators|
  {
    seq(|ad.aggregators|, i requires 0 <= i < |ad.aggregators| =>
      lib.combineFn(ad.aggregators[i]).mergeAccumulators(Column(accumulators, i)))
  }

  method CreateAccumulator(lib: Library, ad: AggregationAdaptor) returns (initialAccu: Accumulator)
    ensures |initialAccu| == |ad.aggregators|
    ensures forall i :: 0 <= i < |ad.aggregators| ==> initialAccu[i] == lib.combineFn(ad.aggregators[i]).initial
    ensures initialAccu == InitialAccumulator(lib, ad)
  {
    initialAccu := [];
    var idx := 0;
    while idx < |ad.aggregators|
      invariant 0 <= idx <= |ad.aggregators| && |initialAccu| == idx
      invariant forall i :: 0 <= i < idx ==> initialAccu[i] == lib.combineFn(ad.aggregators[i]).initial
    {
      initialAccu := initialAccu + [lib.combineFn(ad.aggregators[idx]).initial];
      idx := idx + 1;
    }
  }

  /** Builds a new accumulator; the one passed in is a value and stays as it was. */
  method AddInput(lib: Library, ad: AggregationAdaptor, accumulator: Accumulator, input: Row)
    returns (deltaAcc: Accumulator)
    requires ad.Valid() && |accumulator| >= |ad.aggregators| && ad.CanRead(input)
    ensures |deltaAcc| == |ad.aggregators|
    ensures forall i :: 0 <= i < |ad.aggregators| ==>
              deltaAcc[i] == lib.combineFn(ad.aggregators[i]).addInput(accumulator[i], SlotInput(ad.sourceFieldExps[i], input))
    ensures deltaAcc == AddToSlots(lib, ad, accumulator, input)
  {
    deltaAcc := [];
    var idx := 0;
    while idx < |ad.aggregators|
      invariant 0 <= idx <= |ad.aggregators| && |deltaAcc| == idx
      invariant forall i :: 0 <= i < idx ==>
                  deltaAcc[i] == lib.combineFn(ad.aggregators[i]).addInput(accumulator[i], SlotInput(ad.sourceFieldExps[i], input))
    {
      var fn := lib.combineFn(ad.aggregators[idx]);
      match ad.sourceFieldExps[idx] {
        case Single(ref) =>
          assert ref in BoundFields(ad.sourceFieldExps[idx]);
          deltaAcc := deltaAcc + [fn.addInput(accumulator[idx], input.values[ref])];
        case Paired(keyRef, valueRef) =>
          assert keyRef in BoundFields(ad.sourceFieldExps[idx]) && valueRef in BoundFields(ad.sourceFieldExps[idx]);
          deltaAcc := deltaAcc + [fn.addInput(accumulator[idx], KvValue(input.values[keyRef], input.values[valueRef]))];
      }
      idx := idx + 1;
    }
  }

  method MergeAccumulators(lib: Library, ad: AggregationAdaptor, accumulators: seq<Accumulator>)
    returns (deltaAcc: Accumulator)
    requires forall a :: a in accumulators ==> |a| >= |ad.aggregators|
    ensures |deltaAcc| == |ad.aggregators|
    ensures forall i :: 0 <= i < |ad.aggregators| ==>
              deltaAcc[i] == lib.combineFn(ad.aggregators[i]).mergeAccumulators(Column(accumulators, i))
    ensures deltaAcc == MergeSlots(lib, ad, accumulators)
  {
    deltaAcc := [];
    var idx := 0;
    while idx < |ad.aggregators|
      invariant 0 <= idx <= |ad.aggregators| && |deltaAcc| == idx
      invariant forall i :: 0 <= i < idx ==>
                  deltaAcc[i] == lib.combineFn(ad.aggregators[i]).mergeAccumulators(Column(accumulators, i))
    {
      var accs: seq<Value> := [];
      var j := 0;
      while j < |accumulators|
        invariant 0 <= j <= |accumulators| && |accs| == j
        invariant forall t :: 0 <= t < j ==> accs[t] == accumulators[t][idx]
      {
        accs := accs + [accumulators[j][idx]];
        j := j + 1;
      }
      assert accs == Column(accumulators, idx);
      deltaAcc := deltaAcc + [lib.combineFn(ad.aggregators[idx]).mergeAccumulators(accs)];
      idx := idx + 1;
    }
  }

  /** One output value per slot, value i from aggregator i on slot i, over the output schema. */
  function ExtractOutput(lib: Library, ad: AggregationAdaptor, accumulator: Accumulator): (r: Row)
    requires |accumulator| >= |ad.aggregators|
    ensures r.schema == ad.finalSchema && |r.values| == |ad.aggregators|
    ensures forall i :: 0 <= i < |ad.aggregators| ==>
              r.values[i] == lib.combineFn(ad.aggregators[i]).extractOutput(accumulator[i])
    ensures ad.Valid() ==> r.Conforms()
  {
    Row(ad.finalSchema, seq(|ad.aggregators|, i requires 0 <= i < |ad.aggregators| =>
      lib.combineFn(ad.aggregators[i]).extractOutput(accumulator[i])))
  }

  /** The coder of slot i's input: the bound field's coder, or the key-value
      coder of the two bound fields' coders. */
  function InputCoder(ad: AggregationAdaptor, i: nat): (r: CoderRef)
    requires ad.Valid() && i < |ad.aggregators|
    ensures var fields := BoundFields(ad.sourceFieldExps[i]);
            && (forall k :: k in fields ==> k < |ad.sourceSchema|)
            && (|fields| == 1 ==>
                  fields[0] in fields && r == PrimitiveCoder(ad.sourceSchema[fields[0]].fieldType))
            && (|fields| == 2 ==>
                  && fields[0] in fields && fields[1] in fields
                  && r == KvCoder(PrimitiveCoder(ad.sourceSchema[fields[0]].fieldType),
                                  PrimitiveCoder(ad.sourceSchema[fields[1]].fieldType)))
  {
    match ad.sourceFieldExps[i]
    case Single(ref) =>
      assert ref in BoundFields(ad.sourceFieldExps[i]);
      PrimitiveCoder(ad.sourceSchema[ref].fieldType)
    case Paired(keyRef, valueRef) =>
      assert keyRef in BoundFields(ad.sourceFieldExps[i]) && valueRef in BoundFields(ad.sourceFieldExps[i]);
      KvCoder(PrimitiveCoder(ad.sourceSchema[keyRef].fieldType), PrimitiveCoder(ad.sourceSchema[valueRef].fieldType))
  }

  /** The element coders of the accumulator coder, slot by slot; the first
      aggregator that cannot provide one aborts. */
  method GetAccumulatorCoder(lib: Library, ad: AggregationAdaptor) returns (r: Result<seq<CoderRef>>)
    requires ad.Valid()
    ensures r.Ok? <==> forall i :: 0 <= i < |ad.aggregators| ==> lib.canProvideCoder(ad.aggregators[i], InputCoder(ad, i))
    ensures r.Ok? ==> |r.value| == |ad.aggregators|
                      && forall i :: 0 <= i < |ad.aggregators| ==>
                           r.value[i] == AccumulatorCoderOf(ad.aggregators[i], InputCoder(ad, i))
    ensures r.Err? ==> exists k :: 0 <= k < |ad.aggregators| && r.error == CannotProvideCoder(k)
                                  && !lib.canProvideCoder(ad.aggregators[k], InputCoder(ad, k))
                                  && forall j :: 0 <= j < k ==> lib.canProvideCoder(ad.aggregators[j], InputCoder(ad, j))
  {
    var aggAccuCoderList: seq<CoderRef> := [];
    var idx := 0;
    while idx < |ad.aggregators|
      invariant 0 <= idx <= |ad.aggregators| && |aggAccuCoderList| == idx
      invariant forall i :: 0 <= i < idx ==>
                  lib.canProvideCoder(ad.aggregators[i], InputCoder(ad, i))
                  && aggAccuCoderList[i] == AccumulatorCoderOf(ad.aggregators[i], InputCoder(ad, i))
    {
      var inputCoder := InputCoder(ad, idx);
      if !lib.canProvideCoder(ad.aggregators[idx], inputCoder) {
        return Err(CannotProvideCoder(idx));
      }
      aggAccuCoderList := aggAccuCoderList + [AccumulatorCoderOf(ad.aggregators[idx], inputCoder)];
      idx := idx + 1;
    }
    return Ok(aggAccuCoderList);
  }

  /** The accumulator coder over a list of element coders: the runtime's count
      coder and, at each position, the coder the runtime gives that element. */
  function ToAccumulatorCoder(lib: Library, elementCoders: seq<CoderRef>): (c: AccumulatorCoder)
    ensures c.sizeCoder == lib.varIntCoder
    ensures |c.elementCoders| == |elementCoders|
    ensures forall i :: 0 <= i < |elementCoders| ==> c.elementCoders[i] == lib.codecOf(elementCoders[i])
  {
    AccumulatorCoder(lib.varIntCoder, seq(|elementCoders|, i requires 0 <= i < |elementCoders| => lib.codecOf(elementCoders[i])))
  }
}
