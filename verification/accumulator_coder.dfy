/** The wire format of a composite accumulator (AggregationAccumulatorCoder):
    the element count written by a variable-length integer coder, then element
    k written by element coder k, with no type tags. Output streams are the
    bytes written; input streams are the bytes left to read. */
module AccumulatorCoders {
  import opened Values

  /** A coder for one accumulator element: `decode` reads a prefix of the stream
      and returns the element with the rest of the stream, or fails. */
  datatype Codec = Codec(
    encode: Value -> seq<byte>,
    decode: seq<byte> -> Option<(Value, seq<byte>)>)

  /** Decoding what `c` wrote for `v` gives back `v` and leaves whatever
      followed. Element coders are typed, so this is asked of each coder only
      for the element it is given. */
  ghost predicate RoundTripsOn(c: Codec, v: Value) {
    forall rest :: c.decode(c.encode(v) + rest) == Some((v, rest))
  }

  const IntMin: int := -0x8000_0000
  const IntMax: int := 0x7FFF_FFFF

  /** The coder of the element count: a variable-length coder of 32-bit ints. */
  datatype IntCodec = IntCodec(
    encode: int -> seq<byte>,
    decode: seq<byte> -> Option<(int, seq<byte>)>)

  ghost predicate IntRoundTrips(c: IntCodec) {
    forall n: int, rest :: IntMin <= n <= IntMax ==> c.decode(c.encode(n) + rest) == Some((n, rest))
  }

  datatype AccumulatorCoder = AccumulatorCoder(sizeCoder: IntCodec, elementCoders: seq<Codec>)

  /** Elements `idx..` of `elements`, each written by the coder at its position. */
  function EncodeFrom(coders: seq<Codec>, elements: seq<Value>, idx: nat): seq<byte>
    requires |elements| <= |coders|
    decreases |elements| - idx
  {
    if idx >= |elements| then []
    else coders[idx].encode(elements[idx]) + EncodeFrom(coders, elements, idx + 1)
  }

  /** What `encode` writes: the count, then every element by its positional
      coder; an element without a coder is an index error. */
  function EncodeSpec(coder: AccumulatorCoder, elements: seq<Value>): Result<seq<byte>>
  {
    if |elements| > |coder.elementCoders| then Err(IndexOutOfBounds(|coder.elementCoders|))
    else Ok(coder.sizeCoder.encode(|elements|) + EncodeFrom(coder.elementCoders, elements, 0))
  }

  /** Reads elements `idx..size-1` after `decoded`, element k by coder k. */
  function DecodeFrom(coders: seq<Codec>, size: int, idx: nat, decoded: seq<Value>, input: seq<byte>)
    : Result<(seq<Value>, seq<byte>)>
    decreases size - idx
  {
    if idx >= size then Ok((decoded, input))
    else if idx >= |coders| then Err(IndexOutOfBounds(idx))
    else
      match coders[idx].decode(input)
      case None => Err(ElementUnreadable(idx))
      case Some((v, rest)) => DecodeFrom(coders, size, idx + 1, decoded + [v], rest)
  }

  /** What `decode` reads: the count, then that many elements. */
  function DecodeSpec(coder: AccumulatorCoder, input: seq<byte>): Result<(seq<Value>, seq<byte>)>
  {
    match coder.sizeCoder.decode(input)
    case None => Err(CountUnreadable)
    case Some((size, rest)) => DecodeFrom(coder.elementCoders, size, 0, [], rest)
  }

  method Encode(coder: AccumulatorCoder, elements: seq<Value>) returns (r: Result<seq<byte>>)
    ensures r == EncodeSpec(coder, elements)
    ensures r.Ok? <==> |elements| <= |coder.elementCoders|
  {
    var coders := coder.elementCoders;
    ghost var header := coder.sizeCoder.encode(|elements|);
    var out := coder.sizeCoder.encode(|elements|);
    var idx := 0;
    while idx < |elements|
      invariant 0 <= idx <= |elements| && idx <= |coders|
      invariant |elements| <= |coders| ==>
                  out + EncodeFrom(coders, elements, idx) == header + EncodeFrom(coders, elements, 0)
    {
      if idx >= |coders| {
        return Err(IndexOutOfBounds(idx));
      }
      out := out + coders[idx].encode(elements[idx]);
      idx := idx + 1;
    }
    assert EncodeFrom(coders, elements, idx) == [];
    assert out == out + EncodeFrom(coders, elements, idx);
    return Ok(out);
  }

  method Decode(coder: AccumulatorCoder, input: seq<byte>) returns (r: Result<(seq<Value>, seq<byte>)>)
    ensures r == DecodeSpec(coder, input)
  {
    var coders := coder.elementCoders;
    var sizeRead := coder.sizeCoder.decode(input);
    if sizeRead.None? {
      return Err(CountUnreadable);
    }
    var size := sizeRead.value.0;
    var stream := sizeRead.value.1;
    var accu: seq<Value> := [];
    var idx := 0;
    while idx < size
      invariant 0 <= idx
      invariant DecodeFrom(coders, size, idx, accu, stream) == DecodeSpec(coder, input)
      decreases size - idx
    {
      if idx >= |coders| {
        return Err(IndexOutOfBounds(idx));
      }
      var element := coders[idx].decode(stream);
      if element.None? {
        return Err(ElementUnreadable(idx));
      }
      accu := accu + [element.value.0];
      stream := element.value.1;
      idx := idx + 1;
    }
    return Ok((accu, stream));
  }

  lemma {:induction false} DecodeFromEncoded(coders: seq<Codec>, elements: seq<Value>, idx: nat, rest: seq<byte>)
    requires idx <= |elements| <= |coders|
    requires forall k :: 0 <= k < |elements| ==> RoundTripsOn(coders[k], elements[k])
    ensures DecodeFrom(coders, |elements|, idx, elements[..idx], EncodeFrom(coders, elements, idx) + rest)
            == Ok((elements, rest))
    decreases |elements| - idx
  {
    if idx == |elements| {
      assert elements[..idx] == elements;
      assert EncodeFrom(coders, elements, idx) + rest == rest;
    } else {
      var tail := EncodeFrom(coders, elements, idx + 1) + rest;
      assert EncodeFrom(coders, elements, idx) + rest == coders[idx].encode(elements[idx]) + tail;
      assert coders[idx].decode(coders[idx].encode(elements[idx]) + tail) == Some((elements[idx], tail));
      assert elements[..idx] + [elements[idx]] == elements[..idx + 1];
      DecodeFromEncoded(coders, elements, idx + 1, rest);
    }
  }

  /** Round trip: an accumulator with no more elements than there are coders
      encodes, and decoding its encoding gives it back and leaves the rest of
      the stream unread, when the count coder round-trips and every element
      coder round-trips the element it is given. */
  lemma RoundTrip(coder: AccumulatorCoder, elements: seq<Value>, rest: seq<byte>)
    requires IntRoundTrips(coder.sizeCoder)
    requires |elements| <= |coder.elementCoders| && |elements| <= IntMax
    requires forall k :: 0 <= k < |elements| ==> RoundTripsOn(coder.elementCoders[k], elements[k])
    ensures EncodeSpec(coder, elements).Ok?
    ensures DecodeSpec(coder, EncodeSpec(coder, elements).value + rest) == Ok((elements, rest))
  {
    var body := EncodeFrom(coder.elementCoders, elements, 0);
    var header := coder.sizeCoder.encode(|elements|);
    assert EncodeSpec(coder, elements).value + rest == header + (body + rest);
    assert coder.sizeCoder.decode(header + (body + rest)) == Some((|elements|, body + rest));
    DecodeFromEncoded(coder.elementCoders, elements, 0, rest);
  }

  lemma {:induction false} DecodeFromBeyondCoders(coders: seq<Codec>, size: int, idx: nat, decoded: seq<Value>, input: seq<byte>)
    requires idx <= |coders| < size
    ensures DecodeFrom(coders, size, idx, decoded, input).Err?
    decreases size - idx
  {
    if idx < |coders| {
      match coders[idx].decode(input)
      case None =>
      case Some((v, rest)) => DecodeFromBeyondCoders(coders, size, idx + 1, decoded + [v], rest);
    }
  }

  /** A count larger than the coder list never decodes. */
  lemma CountBeyondCodersFails(coder: AccumulatorCoder, input: seq<byte>)
    requires coder.sizeCoder.decode(input).Some?
    requires coder.sizeCoder.decode(input).value.0 > |coder.elementCoders|
    ensures DecodeSpec(coder, input).Err?
  {
    var (size, rest) := coder.sizeCoder.decode(input).value;
    DecodeFromBeyondCoders(coder.elementCoders, size, 0, [], rest);
  }

  lemma {:induction false} DecodeFromLength(coders: seq<Codec>, size: int, idx: nat, decoded: seq<Value>, input: seq<byte>)
    requires |decoded| == idx
    requires DecodeFrom(coders, size, idx, decoded, input).Ok?
    ensures |DecodeFrom(coders, size, idx, decoded, input).value.0| == if size < idx then idx else size
    ensures size > idx ==> size <= |coders|
    decreases size - idx
  {
    if idx < size && idx < |coders| {
      match coders[idx].decode(input)
      case None =>
      case Some((v, rest)) => DecodeFromLength(coders, size, idx + 1, decoded + [v], rest);
    }
  }

  /** A successful decode yields exactly as many elements as the count it read
      (none for a negative count), and never more than there are coders: a
      count below the number of coders is accepted. */
  lemma DecodedLength(coder: AccumulatorCoder, input: seq<byte>)
    requires DecodeSpec(coder, input).Ok?
    ensures coder.sizeCoder.decode(input).Some?
    ensures var size := coder.sizeCoder.decode(input).value.0;
            |DecodeSpec(coder, input).value.0| == if size < 0 then 0 else size
    ensures |DecodeSpec(coder, input).value.0| <= |coder.elementCoders|
  {
    var (size, rest) := coder.sizeCoder.decode(input).value;
    DecodeFromLength(coder.elementCoders, size, 0, [], rest);
  }
}
