/** The per-aggregate building blocks: the mergeable-accumulator capability every
    aggregate function offers, the descriptors of the functions the resolver can
    bind, and the resolution of one aggregate call (name, arguments, output field). */
module Aggregators {
  import opened Values

  /** A mergeable-accumulator aggregate function. Accumulators, inputs and
      outputs are boxed values; the four operations are total. */
  datatype CombineFn = CombineFn(
    initial: Value,
    addInput: (Value, Value) -> Value,
    mergeAccumulators: seq<Value> -> Value,
    extractOutput: Value -> Value)

  /** Which aggregate function a call is bound to. Built-ins are chosen by SQL
      name and specialised by the call's result type; a user-defined aggregate
      is named by its implementation. */
  datatype Aggregator =
    | Count
    | Max(resultType: FieldType)
    | Min(resultType: FieldType)
    | Sum(resultType: FieldType)
    | Avg(resultType: FieldType)
    | VarPop(resultType: FieldType)
    | VarSamp(resultType: FieldType)
    | CovarPop(resultType: FieldType)
    | CovarSamp(resultType: FieldType)
    | UserDefined(implementation: string)

  /** The implementation behind a user-defined aggregate; `instantiationFailure`
      is the exception, if any, that obtaining its combine function raises. */
  datatype UdafImpl = UdafImpl(implementation: string, instantiationFailure: Option<string>)

  /** The aggregation a call invokes: its SQL name and, for a user-defined
      aggregate, its implementation. */
  datatype SqlAggFunction = SqlAggFunction(name: string, udaf: Option<UdafImpl>)

  /** An aggregate call: output field name, argument field indices into the
      input schema, result type and the aggregation invoked. */
  datatype AggregateCall = AggregateCall(
    name: string,
    argList: seq<nat>,
    callType: FieldType,
    aggregation: SqlAggFunction)

  const BuiltinNames: set<string> :=
    {"COUNT", "MAX", "MIN", "SUM", "AVG", "VAR_POP", "VAR_SAMP", "COVAR_POP", "COVAR_SAMP"}

  /** The SQL name a built-in descriptor answers to; none for a user-defined one. */
  function BuiltinName(a: Aggregator): Option<string>
  {
    match a
    case Count => Some("COUNT")
    case Max(_) => Some("MAX")
    case Min(_) => Some("MIN")
    case Sum(_) => Some("SUM")
    case Avg(_) => Some("AVG")
    case VarPop(_) => Some("VAR_POP")
    case VarSamp(_) => Some("VAR_SAMP")
    case CovarPop(_) => Some("COVAR_POP")
    case CovarSamp(_) => Some("COVAR_SAMP")
    case UserDefined(_) => None
  }

  /** Binds an aggregation to a function: an exact match on the built-in names
      first, then the user-defined implementation, and otherwise an error that
      names the aggregation. */
  function ResolveAggregator(fn: SqlAggFunction, callType: FieldType): (r: Result<Aggregator>)
    ensures r.Ok? <==> fn.name in BuiltinNames || (fn.udaf.Some? && fn.udaf.value.instantiationFailure.None?)
    ensures fn.name in BuiltinNames ==> r.Ok? && BuiltinName(r.value) == Some(fn.name)
    ensures r.Ok? && !r.value.UserDefined? ==> BuiltinName(r.value) == Some(fn.name)
    ensures r.Ok? && !r.value.Count? && !r.value.UserDefined? ==> r.value.resultType == callType
    ensures r.Ok? && r.value.UserDefined? ==>
              fn.name !in BuiltinNames && fn.udaf.Some? && r.value.implementation == fn.udaf.value.implementation
    ensures fn.name !in BuiltinNames && fn.udaf.None? ==> r == Err(UnsupportedAggregator(fn.name))
    ensures fn.name !in BuiltinNames && fn.udaf.Some? && fn.udaf.value.instantiationFailure.Some? ==>
              r == Err(IllegalState(fn.udaf.value.instantiationFailure.value))
  {
    match fn.name
    case "COUNT" => Ok(Count)
    case "MAX" => Ok(Max(callType))
    case "MIN" => Ok(Min(callType))
    case "SUM" => Ok(Sum(callType))
    case "AVG" => Ok(Avg(callType))
    case "VAR_POP" => Ok(VarPop(callType))
    case "VAR_SAMP" => Ok(VarSamp(callType))
    case "COVAR_POP" => Ok(CovarPop(callType))
    case "COVAR_SAMP" => Ok(CovarSamp(callType))
    case _ =>
      match fn.udaf
      case None => Err(UnsupportedAggregator(fn.name))
      case Some(u) =>
        match u.instantiationFailure
        case Some(cause) => Err(IllegalState(cause))
        case None => Ok(UserDefined(u.implementation))
  }

  /** Every built-in descriptor is what its own SQL name resolves to, whatever
      user-defined implementation the aggregation might also carry. */
  lemma {:induction false} ResolveBuiltinName(a: Aggregator, udaf: Option<UdafImpl>)
    requires !a.UserDefined?
    ensures ResolveAggregator(SqlAggFunction(BuiltinName(a).value, udaf),
                              if a.Count? then FieldType("") else a.resultType) == Ok(a)
  {
  }

  /** How an aggregate reads its input from a record: one field, or a pair of
      fields bundled as a key-value pair. */
  datatype SourceBinding = Single(ref: nat) | Paired(keyRef: nat, valueRef: nat)

  /** The fields a binding reads, in order. */
  function BoundFields(b: SourceBinding): seq<nat>
  {
    match b
    case Single(ref) => [ref]
    case Paired(keyRef, valueRef) => [keyRef, valueRef]
  }

  /** Two arguments give a paired binding; any other argument list binds its
      first argument, and an empty one binds field 0. */
  function BindingOf(argList: seq<nat>): (b: SourceBinding)
    ensures b.Paired? <==> |argList| == 2
    ensures |argList| > 0 ==> BoundFields(b) == argList[..|BoundFields(b)|]
    ensures argList == [] ==> BoundFields(b) == [0]
  {
    if |argList| == 2 then Paired(argList[0], argList[1])
    else Single(if |argList| > 0 then argList[0] else 0)
  }

  /** What one aggregate call contributes to the adaptor. */
  datatype ResolvedCall = ResolvedCall(binding: SourceBinding, field: Field, aggregator: Aggregator)

  /** The first field a binding reads that the source schema does not have. */
  function FirstUnboundField(b: SourceBinding, width: nat): (r: Option<nat>)
    ensures r.None? <==> forall k :: k in BoundFields(b) ==> k < width
    ensures r.Some? ==> r.value in BoundFields(b) && r.value >= width
                        && (b.Paired? && b.keyRef >= width ==> r.value == b.keyRef)
  {
    match b
    case Single(ref) => if ref < width then None else assert ref in BoundFields(b); Some(ref)
    case Paired(keyRef, valueRef) =>
      if keyRef >= width then assert keyRef in BoundFields(b); Some(keyRef)
      else if valueRef >= width then assert valueRef in BoundFields(b); Some(valueRef)
      else None
  }

  /** Resolves one call against the source schema: first its binding (a field
      the schema lacks is an index error), then its output field, then its
      aggregator. */
  function ResolveCall(call: AggregateCall, sourceSchema: Schema): (r: Result<ResolvedCall>)
    ensures r.Ok? <==> (forall k :: k in BoundFields(BindingOf(call.argList)) ==> k < |sourceSchema|)
                       && ResolveAggregator(call.aggregation, call.callType).Ok?
    ensures r.Ok? ==> r.value.binding == BindingOf(call.argList)
                      && r.value.field == Field(call.name, call.callType)
                      && Ok(r.value.aggregator) == ResolveAggregator(call.aggregation, call.callType)
    ensures FirstUnboundField(BindingOf(call.argList), |sourceSchema|).Some? ==>
              r == Err(IndexOutOfBounds(FirstUnboundField(BindingOf(call.argList), |sourceSchema|).value))
    ensures r.Err? && FirstUnboundField(BindingOf(call.argList), |sourceSchema|).None? ==>
              Err(r.error) == ResolveAggregator(call.aggregation, call.callType)
  {
    var binding := BindingOf(call.argList);
    match FirstUnboundField(binding, |sourceSchema|)
    case Some(k) => Err(IndexOutOfBounds(k))
    case None =>
      match ResolveAggregator(call.aggregation, call.callType)
      case Err(e) => Err(e)
      case Ok(agg) => Ok(ResolvedCall(binding, Field(call.name, call.callType), agg))
  }
}
