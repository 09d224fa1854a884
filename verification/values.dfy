/** Records, schemas, the boxed values they hold, and the errors the engine raises. */
module Values {

  newtype byte = b: int | 0 <= b < 256

  /** The type of a field. The mapping between the planner's types and field
      types is not modelled; only the identity of a type matters here. */
  datatype FieldType = FieldType(typeName: string)

  datatype Field = Field(name: string, fieldType: FieldType)

  /** Field order is significant: fields are addressed by position. */
  type Schema = seq<Field>

  /** A boxed value. Field values, aggregate inputs, accumulators and aggregate
      outputs are all values; a two-argument aggregate receives a `KvValue`. */
  datatype Value =
    | Null
    | IntValue(i: int)
    | StringValue(s: string)
    | DateTimeValue(millis: int)
    | KvValue(key: Value, value: Value)
    | ListValue(items: seq<Value>)

  /** A record: its schema and one value per field. */
  datatype Row = Row(schema: Schema, values: seq<Value>) {
    predicate Conforms() {
      |values| == |schema|
    }
  }

  datatype Option<T> = None | Some(value: T)

  datatype Error =
    | IndexOutOfBounds(index: int)
    | UnsupportedAggregator(name: string)
    | IllegalState(cause: string)
    | CannotProvideCoder(slot: nat)
    | CountUnreadable
    | ElementUnreadable(slot: nat)
    | NotADateTime(index: int)

  datatype Result<T> = Ok(value: T) | Err(error: Error)
}
