# Beam SQL GROUP-BY combine engine, in Dafny

This project models the GROUP-BY combine engine of Beam SQL's Java extension,
`BeamAggregationTransforms`, and proves properties of the model. It covers:

- **Group key** (`group_by_key.dfy`).
  - `AggregationGroupByKeyFn` keeps the group-set field indices minus the window
    field, in order, and projects those fields out of a record.
  - `WindowTimestampFn` reads one field as the event time.
- **Aggregate resolution** (`aggregators.dfy`). The `AggregationAdaptor`
  constructor binds each aggregate call to three things:
  - a single or paired source binding;
  - an output field;
  - an aggregator, chosen by exact name from a fixed table of built-ins, then
    from a user-defined implementation, and otherwise rejected.
- **Composite accumulator** (`adaptor.dfy`). `createAccumulator`, `addInput`,
  `mergeAccumulators` and `extractOutput` work on a list with one slot per
  aggregator. `getAccumulatorCoder` picks one element coder per slot.
- **Accumulator coder** (`accumulator_coder.dfy`). `AggregationAccumulatorCoder`
  writes a count, then each element with the coder at its position, with no type
  tags. It reads the same format back.
- **Output assembly** (`merge_record.dfy`). `MergeAggregationRecord` concatenates
  the key values with the aggregate values and inserts the window start at a
  fixed position.
- **Laws** (`combine_laws.dfy`). These lemmas show what the composite
  accumulator inherits from its slots:
  - merging one accumulator is the identity;
  - order independence and grouping independence of the merge;
  - "fold each part, then merge" equals "fold everything";
  - the codec round trip preserves the extracted output.

How the model represents the engine:

- **Aggregators and coders are symbolic descriptors.** `Aggregators.Aggregator`
  and `Adaptor.CoderRef` name them. Their behaviour comes from an
  `Adaptor.Library` value supplied by the caller:
  - each aggregator's initial, add, merge and extract functions;
  - whether it can provide an accumulator coder for an input coder;
  - what each coder writes and reads;
  - the variable-length count coder.
- **Laws are hypotheses.** The round-trip and merge laws those parameters are
  expected to obey are predicates, and the lemmas assume them.
- **The composite accumulator is an immutable sequence.** The source's
  `addInput` and `mergeAccumulators` always build a fresh list, so "the caller's
  accumulator is unchanged" holds by construction.
- **Configured objects are datatypes.** The adaptor, key function and
  output-assembly function are not changed after construction. Their
  constructors are loops that build the value.
- **Streams are byte sequences.** An output stream is the bytes written. An input
  stream is the bytes still unread.

The source's exceptions become `Err` results:

- an unresolvable call (`UnsupportedOperationException`);
- a failing user-defined implementation (`IllegalStateException`);
- a missing field (`IndexOutOfBoundsException`);
- a coder that cannot be provided (`CannotProvideCoderException`);
- unreadable coder input.

Decoding fails on the element count only when the count is larger than the
coder list (`AccumulatorCoders.CountBeyondCodersFails`). A smaller count is
accepted and yields a shorter accumulator. A negative count yields an empty one
(`AccumulatorCoders.DecodedLength`).

## Model

All source cells refer to
`sdks/java/extensions/sql/src/main/java/org/apache/beam/sdk/extensions/sql/impl/transform/BeamAggregationTransforms.java`.

| member | source | states |
|---|---|---|
| GroupByKey.NewAggregationGroupByKeyFn | sdks/java/extensions/sql/src/main/java/org/apache/beam/sdk/extensions/sql/impl/transform/BeamAggregationTransforms.java:111-118 | the key indices are the group-set indices, in group-set order, with every occurrence of the window field's index dropped (`WithoutWindow`) |
| GroupByKey.WithoutWindowMembers | sdks/java/extensions/sql/src/main/java/org/apache/beam/sdk/extensions/sql/impl/transform/BeamAggregationTransforms.java:113-116 | an index is a key index exactly when it is in the group set and is not the window field |
| GroupByKey.WithoutWindowAscending | sdks/java/extensions/sql/src/main/java/org/apache/beam/sdk/extensions/sql/impl/transform/BeamAggregationTransforms.java:113-116 | an ascending, duplicate-free group set (what a bit set lists) gives ascending key indices |
| GroupByKey.WithoutWindowLength | sdks/java/extensions/sql/src/main/java/org/apache/beam/sdk/extensions/sql/impl/transform/BeamAggregationTransforms.java:111-118 | the key has one index fewer than the group set when the window field is in it, and the same number otherwise |
| GroupByKey.WithoutWindowUnwindowed | sdks/java/extensions/sql/src/main/java/org/apache/beam/sdk/extensions/sql/impl/transform/BeamAggregationTransforms.java:111-118 | with the -1 sentinel (any negative index) the key indices are the whole group set |
| GroupByKey.Project | sdks/java/extensions/sql/src/main/java/org/apache/beam/sdk/extensions/sql/impl/transform/BeamAggregationTransforms.java:130-136 | reading a list at the key indices succeeds exactly when every index is in range, yields element `keys[i]` at position i, and otherwise fails on the first out-of-range index |
| GroupByKey.ExTypeOfKeyRow | sdks/java/extensions/sql/src/main/java/org/apache/beam/sdk/extensions/sql/impl/transform/BeamAggregationTransforms.java:130-136 | the key schema is built exactly when every key index is a field of the schema; field i of the key schema is the schema's field at key index i |
| GroupByKey.Apply | sdks/java/extensions/sql/src/main/java/org/apache/beam/sdk/extensions/sql/impl/transform/BeamAggregationTransforms.java:120-128 | for a conforming record, the key is built exactly when every key index is a field; the key record has one field per key index, value i and field i being the input's at key index i |
| GroupByKey.SameKeyExactlyWhenKeyFieldsAgree | sdks/java/extensions/sql/src/main/java/org/apache/beam/sdk/extensions/sql/impl/transform/BeamAggregationTransforms.java:120-136 | two records over the same schema get equal keys if and only if they agree on every key field |
| GroupByKey.WindowTimestamp | sdks/java/extensions/sql/src/main/java/org/apache/beam/sdk/extensions/sql/impl/transform/BeamAggregationTransforms.java:150-153 | the timestamp is the date-time held by the designated field (the current time if the field is empty); a field outside the record is an index error, any other value a type error |
| Aggregators.ResolveAggregator | sdks/java/extensions/sql/src/main/java/org/apache/beam/sdk/extensions/sql/impl/transform/BeamAggregationTransforms.java:207-255 | resolution succeeds exactly when the name is one of the nine built-ins or a working user-defined implementation is attached; built-ins win over the implementation and are specialised by the call type; an unknown name without an implementation is an unsupported-aggregator error naming it; a failing implementation is an illegal-state error carrying its cause |
| Aggregators.ResolveBuiltinName | sdks/java/extensions/sql/src/main/java/org/apache/beam/sdk/extensions/sql/impl/transform/BeamAggregationTransforms.java:207-239 | every built-in descriptor is what its own SQL name resolves to, whatever implementation the call also carries |
| Aggregators.BindingOf | sdks/java/extensions/sql/src/main/java/org/apache/beam/sdk/extensions/sql/impl/transform/BeamAggregationTransforms.java:173-201 | a binding is paired exactly when the call has two arguments; the bound fields are the leading arguments; a call with no arguments binds field 0 |
| Aggregators.FirstUnboundField | sdks/java/extensions/sql/src/main/java/org/apache/beam/sdk/extensions/sql/impl/transform/BeamAggregationTransforms.java:179-197 | there is no missing field exactly when every bound field is in the schema; otherwise the missing field is a bound field, the key field first |
| Aggregators.ResolveCall | sdks/java/extensions/sql/src/main/java/org/apache/beam/sdk/extensions/sql/impl/transform/BeamAggregationTransforms.java:172-256 | a call resolves exactly when its bound fields exist and its aggregator resolves, giving its binding, the output field (call name, call type) and the aggregator; a missing field is reported before an aggregator error |
| Adaptor.NewAggregationAdaptor | sdks/java/extensions/sql/src/main/java/org/apache/beam/sdk/extensions/sql/impl/transform/BeamAggregationTransforms.java:166-259 | construction succeeds exactly when every call resolves, and then gives one binding, one output field and one aggregator per call, in call order, over the given source schema; otherwise it fails with the error of the first call that does not resolve |
| Adaptor.CreateAccumulator | sdks/java/extensions/sql/src/main/java/org/apache/beam/sdk/extensions/sql/impl/transform/BeamAggregationTransforms.java:261-268 | one slot per aggregator, slot i being aggregator i's initial accumulator |
| Adaptor.AddInput | sdks/java/extensions/sql/src/main/java/org/apache/beam/sdk/extensions/sql/impl/transform/BeamAggregationTransforms.java:270-296 | a new accumulator with one slot per aggregator, slot i being aggregator i's add of slot i and the bound field's value (or the key-value pair of the two bound fields) |
| Adaptor.MergeAccumulators | sdks/java/extensions/sql/src/main/java/org/apache/beam/sdk/extensions/sql/impl/transform/BeamAggregationTransforms.java:298-309 | one slot per aggregator, slot i being aggregator i's merge of slot i of every input accumulator, in input order |
| Adaptor.Column | sdks/java/extensions/sql/src/main/java/org/apache/beam/sdk/extensions/sql/impl/transform/BeamAggregationTransforms.java:302-305 | the slot-i list has one entry per accumulator, entry j being slot i of accumulator j |
| Adaptor.ExtractOutput | sdks/java/extensions/sql/src/main/java/org/apache/beam/sdk/extensions/sql/impl/transform/BeamAggregationTransforms.java:311-322 | the output record is over the final schema with one value per aggregator, value i being aggregator i's output for slot i; it conforms to its schema for a well-formed adaptor |
| Adaptor.InputCoder | sdks/java/extensions/sql/src/main/java/org/apache/beam/sdk/extensions/sql/impl/transform/BeamAggregationTransforms.java:331-351 | the input coder of a slot is the coder of its one bound field's type, or the key-value coder of its two bound fields' type coders, key first |
| Adaptor.GetAccumulatorCoder | sdks/java/extensions/sql/src/main/java/org/apache/beam/sdk/extensions/sql/impl/transform/BeamAggregationTransforms.java:324-356 | succeeds exactly when every aggregator can provide an accumulator coder for its input's coder (the bound field's coder, or the key-value coder of both); element coder i is aggregator i's; otherwise fails naming the first slot that cannot |
| Adaptor.ToAccumulatorCoder | sdks/java/extensions/sql/src/main/java/org/apache/beam/sdk/extensions/sql/impl/transform/BeamAggregationTransforms.java:355-375 | the accumulator coder uses the variable-length int coder for the count and, at each position, the codec of the element coder chosen for that slot |
| AccumulatorCoders.Encode | sdks/java/extensions/sql/src/main/java/org/apache/beam/sdk/extensions/sql/impl/transform/BeamAggregationTransforms.java:377-383 | writes the count then element i by coder i (`EncodeSpec`); succeeds exactly when there is a coder for every element |
| AccumulatorCoders.Decode | sdks/java/extensions/sql/src/main/java/org/apache/beam/sdk/extensions/sql/impl/transform/BeamAggregationTransforms.java:385-393 | reads the count then that many elements, element i by coder i, returning them with the unread rest (`DecodeSpec`) |
| AccumulatorCoders.RoundTrip | sdks/java/extensions/sql/src/main/java/org/apache/beam/sdk/extensions/sql/impl/transform/BeamAggregationTransforms.java:377-393 | an accumulator with no more elements than coders encodes, and decoding its encoding followed by any bytes gives the accumulator back and leaves those bytes, when the count coder round-trips and each element coder round-trips the element it is given |
| AccumulatorCoders.CountBeyondCodersFails | sdks/java/extensions/sql/src/main/java/org/apache/beam/sdk/extensions/sql/impl/transform/BeamAggregationTransforms.java:388-391 | a count larger than the coder list never decodes |
| AccumulatorCoders.DecodedLength | sdks/java/extensions/sql/src/main/java/org/apache/beam/sdk/extensions/sql/impl/transform/BeamAggregationTransforms.java:386-393 | a successful decode has exactly as many elements as the count read (none for a negative count) and no more than there are coders |
| MergeRecord.NewMergeAggregationRecord | sdks/java/extensions/sql/src/main/java/org/apache/beam/sdk/extensions/sql/impl/transform/BeamAggregationTransforms.java:75-83 | keeps the output schema and window position, and lists the aggregate calls' names in call order |
| MergeRecord.InsertAt | sdks/java/extensions/sql/src/main/java/org/apache/beam/sdk/extensions/sql/impl/transform/BeamAggregationTransforms.java:94 | inserting succeeds exactly for a position in 0..length; the value lands at that position, earlier values stay, later ones shift right, and removing it gives the list back; any other position is an index error |
| MergeRecord.ProcessElement | sdks/java/extensions/sql/src/main/java/org/apache/beam/sdk/extensions/sql/impl/transform/BeamAggregationTransforms.java:85-101 | unwindowed, the output values are the key values followed by the aggregate values; windowed, the window start sits at the configured position, removing it gives key values then aggregate values, and a position past the end is an index error |
| CombineLaws.MergeOfOne | sdks/java/extensions/sql/src/main/java/org/apache/beam/sdk/extensions/sql/impl/transform/BeamAggregationTransforms.java:298-309 | merging a single composite accumulator gives it back when every slot's merge does |
| CombineLaws.ColumnPermutation | sdks/java/extensions/sql/src/main/java/org/apache/beam/sdk/extensions/sql/impl/transform/BeamAggregationTransforms.java:302-305 | permuting the accumulators permutes every slot list |
| CombineLaws.MergeIgnoresOrderOfAccumulators | sdks/java/extensions/sql/src/main/java/org/apache/beam/sdk/extensions/sql/impl/transform/BeamAggregationTransforms.java:298-309 | the composite merge gives the same result for any reordering of its inputs when every slot's merge ignores order |
| CombineLaws.ColumnFlatten | sdks/java/extensions/sql/src/main/java/org/apache/beam/sdk/extensions/sql/impl/transform/BeamAggregationTransforms.java:302-305 | the slot list of a concatenation of groups is the concatenation of the groups' slot lists |
| CombineLaws.MergeIgnoresGroupingOfAccumulators | sdks/java/extensions/sql/src/main/java/org/apache/beam/sdk/extensions/sql/impl/transform/BeamAggregationTransforms.java:298-309 | merging the merges of non-empty groups equals merging all accumulators at once when every slot's merge ignores grouping |
| CombineLaws.FoldBySlot | sdks/java/extensions/sql/src/main/java/org/apache/beam/sdk/extensions/sql/impl/transform/BeamAggregationTransforms.java:270-296 | after adding any records one by one, slot i is aggregator i's fold of the values slot i reads from them |
| CombineLaws.MergeOfPartialFolds | sdks/java/extensions/sql/src/main/java/org/apache/beam/sdk/extensions/sql/impl/transform/BeamAggregationTransforms.java:261-322 | folding each part of the records into a fresh accumulator and merging the results gives the accumulator, and so the output, of folding all records into one, when every slot's function has that property |
| CombineLaws.CodedAccumulatorKeepsOutput | sdks/java/extensions/sql/src/main/java/org/apache/beam/sdk/extensions/sql/impl/transform/BeamAggregationTransforms.java:355-393 | an accumulator written and read back by the adaptor's accumulator coder is the same accumulator and extracts the same output, when the count coder round-trips and each element coder round-trips its slot's accumulator |

## Left out

- Pipeline plumbing is not modelled: `DoFn`, `ProcessContext`, `@ProcessElement`, window casting and the date conversions. The window start is an opaque value passed to `MergeRecord.ProcessElement`. The event time is a number of milliseconds.
- The built-in aggregate implementations (`Count.combineFn`, `BeamBuiltinAggregations`, `VarianceFn`, `CovarianceFn`) are not part of this model. An aggregator is a descriptor; its behaviour is a parameter (`Library.combineFn`). The laws it obeys are hypotheses of the lemmas.
- The reflective lookup of a user-defined aggregate's implementation (`UdafImpl.getCombineFn`) is not part of this model. It is represented only as an implementation name with an optional failure cause.
- The planner's type mapping (`CalciteUtils`, `BigDecimalConverter`) is not part of this model. The output field's type is the call's type, and the input type names of the source expressions are not kept.
- Coder internals (`VarIntCoder`, `KvCoder`, `RowCoder.coderForPrimitiveType`, `BigDecimalCoder`) are not modelled. They are descriptors interpreted by `Library.codecOf`, and the variable-length count coder is `Library.varIntCoder`. Their round trips are hypotheses.
- The registration of the decimal coder in the coder registry is not modelled, because it is a side effect on the runtime only.
- Record validation by the record framework is not modelled. This covers `Row.build`, `toRow` and schema conformance of the assembled output. `MergeRecord.ProcessElement` does not check the value count against the output schema.
- Mutation inside an aggregator's own accumulator objects is not modelled. Slot accumulators are values, so "the caller's accumulator is unchanged" holds at the list level only.
- AccumulatorCoders.Encode: when there are more elements than coders, the source has already written a prefix of the output before it fails. The model returns only the error.
- Adaptor.AddInput, Adaptor.MergeAccumulators and Adaptor.ExtractOutput require accumulators with at least one slot per aggregator and records holding every bound field. The source fails with an index exception otherwise. That is a fatal programming error, not a recoverable one.
- GroupByKey.WindowTimestamp: the current time for an empty field is a parameter, because the clock is outside the model.
