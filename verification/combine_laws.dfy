/** What the composite accumulator inherits from its slots. Each law a slot's
    aggregate function is expected to obey is stated as a predicate on that
    function; each lemma shows that when every slot obeys a law, the composite
    operations of the adaptor obey it too. */
module CombineLaws {
  import opened Values
  import opened Aggregators
  import opened AccumulatorCoders
  import opened Adaptor

  function Flatten<T>(xss: seq<seq<T>>): seq<T>
  {
    if xss == [] then [] else xss[0] + Flatten(xss[1..])
  }

  lemma {:induction false} FlattenMembers<T>(xss: seq<seq<T>>, x: T)
    ensures x in Flatten(xss) <==> exists j :: 0 <= j < |xss| && x in xss[j]
  {
    if xss != [] {
      var rest := xss[1..];
      FlattenMembers(rest, x);
      if x in Flatten(xss) && x !in xss[0] {
        var j :| 0 <= j < |rest| && x in rest[j];
        assert x in xss[j + 1];
      }
      if exists j :: 0 <= j < |xss| && x in xss[j] {
        var j :| 0 <= j < |xss| && x in xss[j];
        if j > 0 {
          assert x in rest[j - 1];
        }
      }
    }
  }

  /** Every accumulator has a slot for each of `width` aggregators. */
  ghost predicate Wide(accumulators: seq<Accumulator>, width: nat) {
    forall a :: a in accumulators ==> |a| >= width
  }

  // ---------------------------------------------------------------------------
  // Laws of one aggregate function

  /** Merging a single accumulator gives it back unchanged. */
  ghost predicate MergeOfOneIsIdentity(f: CombineFn) {
    forall a :: f.mergeAccumulators([a]) == a
  }

  /** The order of the merged accumulators does not matter. */
  ghost predicate MergeIgnoresOrder(f: CombineFn) {
    forall xs: seq<Value>, ys: seq<Value> ::
      multiset(xs) == multiset(ys) ==> f.mergeAccumulators(xs) == f.mergeAccumulators(ys)
  }

  function MergeEach(f: CombineFn, groups: seq<seq<Value>>): seq<Value>
  {
    seq(|groups|, j requires 0 <= j < |groups| => f.mergeAccumulators(groups[j]))
  }

  /** Merging the merges of non-empty groups is merging everything at once. */
  ghost predicate MergeIgnoresGrouping(f: CombineFn) {
    forall groups: seq<seq<Value>> {:trigger MergeEach(f, groups)} ::
      (forall g :: g in groups ==> g != []) ==>
        f.mergeAccumulators(MergeEach(f, groups)) == f.mergeAccumulators(Flatten(groups))
  }

  /** The accumulator after adding `inputs` one by one. */
  function SlotFold(f: CombineFn, accumulator: Value, inputs: seq<Value>): Value
    decreases |inputs|
  {
    if inputs == [] then accumulator
    else SlotFold(f, f.addInput(accumulator, inputs[0]), inputs[1..])
  }

  function FoldEach(f: CombineFn, parts: seq<seq<Value>>): seq<Value>
  {
    seq(|parts|, j requires 0 <= j < |parts| => SlotFold(f, f.initial, parts[j]))
  }

  /** Folding each part from the initial accumulator and merging the results is
      folding all the inputs into one accumulator. */
  ghost predicate MergeOfFoldsIsFoldOfAll(f: CombineFn) {
    forall parts: seq<seq<Value>> {:trigger FoldEach(f, parts)} ::
      parts != [] ==> f.mergeAccumulators(FoldEach(f, parts)) == SlotFold(f, f.initial, Flatten(parts))
  }

  // ---------------------------------------------------------------------------
  // Column lemmas

  lemma ColumnAppend(a: seq<Accumulator>, b: seq<Accumulator>, i: nat)
    requires forall x :: x in a + b ==> i < |x|
    ensures Column(a + b, i) == Column(a, i) + Column(b, i)
  {
  }

  /** Removing one element from a sequence removes one occurrence from its multiset. */
  lemma RemoveOne<T>(b: seq<T>, k: nat)
    requires k < |b|
    ensures multiset(b[..k] + b[k + 1..]) == multiset(b) - multiset{b[k]}
    ensures multiset(b) == multiset{b[k]} + multiset(b[..k] + b[k + 1..])
  {
    assert b == b[..k] + [b[k]] + b[k + 1..];
  }

  /** Sequences of one length that agree at every position are equal. */
  lemma SameElements<T>(x: seq<T>, y: seq<T>)
    requires |x| == |y| && forall j :: 0 <= j < |x| ==> x[j] == y[j]
    ensures x == y
  {
  }

  /** The column of the accumulators without the k-th is the column without its k-th entry. */
  lemma ColumnOfRemoved(b: seq<Accumulator>, k: nat, i: nat)
    requires k < |b| && forall x :: x in b ==> i < |x|
    ensures forall x :: x in b[..k] + b[k + 1..] ==> i < |x|
    ensures Column(b[..k] + b[k + 1..], i) == Column(b, i)[..k] + Column(b, i)[k + 1..]
  {
    var rest := b[..k] + b[k + 1..];
    assert forall x :: x in rest ==> x in b;
    var c := Column(b, i);
    var lhs := Column(rest, i);
    var rhs := c[..k] + c[k + 1..];
    forall j | 0 <= j < |lhs|
      ensures lhs[j] == rhs[j]
    {
      if j < k {
        assert rest[j] == b[j];
      } else {
        assert rest[j] == b[j + 1];
      }
    }
    SameElements(lhs, rhs);
  }

  /** Slot i of one accumulator, taken out of the middle of a column. */
  lemma ColumnRemove(b: seq<Accumulator>, k: nat, i: nat)
    requires k < |b| && forall x :: x in b ==> i < |x|
    ensures forall x :: x in b[..k] + b[k + 1..] ==> i < |x|
    ensures multiset(Column(b, i)) == multiset{b[k][i]} + multiset(Column(b[..k] + b[k + 1..], i))
  {
    ColumnOfRemoved(b, k, i);
    RemoveOne(Column(b, i), k);
  }

  lemma PermutationKeepsWidth(a: seq<Accumulator>, b: seq<Accumulator>, i: nat)
    requires multiset(a) == multiset(b)
    requires forall x :: x in a ==> i < |x|
    ensures forall x :: x in b ==> i < |x|
  {
    forall y | y in b
      ensures i < |y|
    {
      assert y in multiset(a);
    }
  }

  /** Permuting the accumulators permutes every column the same way. */
  lemma {:induction false} ColumnPermutation(a: seq<Accumulator>, b: seq<Accumulator>, i: nat)
    requires multiset(a) == multiset(b)
    requires forall x :: x in a ==> i < |x|
    ensures forall x :: x in b ==> i < |x|
    ensures multiset(Column(a, i)) == multiset(Column(b, i))
  {
    PermutationKeepsWidth(a, b, i);
    if a != [] {
      assert a[0] in multiset(b);
      var k :| 0 <= k < |b| && b[k] == a[0];
      var rest := b[..k] + b[k + 1..];
      RemoveOne(b, k);
      RemoveOne(a, 0);
      assert a[..0] + a[1..] == a[1..];
      ColumnRemove(a, 0, i);
      ColumnPermutation(a[1..], rest, i);
      ColumnRemove(b, k, i);
    }
  }

  /** Slot i of every accumulator of each group, group by group. */
  function Columns(groups: seq<seq<Accumulator>>, i: nat): (r: seq<seq<Value>>)
    requires forall j :: 0 <= j < |groups| ==> forall x :: x in groups[j] ==> i < |x|
    ensures |r| == |groups| && forall j :: 0 <= j < |groups| ==> r[j] == Column(groups[j], i)
  {
    seq(|groups|, j requires 0 <= j < |groups| => Column(groups[j], i))
  }

  lemma {:induction false} FlattenWide(groups: seq<seq<Accumulator>>, width: nat)
    requires forall j :: 0 <= j < |groups| ==> Wide(groups[j], width)
    ensures Wide(Flatten(groups), width)
  {
    forall x | x in Flatten(groups)
      ensures |x| >= width
    {
      FlattenMembers(groups, x);
    }
  }

  /** The column of a concatenation of groups is the concatenation of their columns. */
  lemma {:induction false} ColumnFlatten(groups: seq<seq<Accumulator>>, i: nat)
    requires forall j :: 0 <= j < |groups| ==> forall x :: x in groups[j] ==> i < |x|
    requires forall x :: x in Flatten(groups) ==> i < |x|
    ensures Column(Flatten(groups), i) == Flatten(Columns(groups, i))
  {
    if groups != [] {
      var rest := groups[1..];
      var flat := Flatten(rest);
      assert Flatten(groups) == groups[0] + flat;
      assert forall x :: x in flat ==> x in Flatten(groups);
      ColumnFlatten(rest, i);
      ColumnAppend(groups[0], flat, i);
      var columns := Columns(groups, i);
      assert columns[1..] == Columns(rest, i);
      assert Flatten(columns) == columns[0] + Flatten(columns[1..]);
    }
  }

  // ---------------------------------------------------------------------------
  // What the composite inherits

  /** Identity merge: merging one composite accumulator gives it back, when
      every slot's merge does. */
  lemma MergeOfOne(lib: Library, ad: AggregationAdaptor, accumulator: Accumulator)
    requires |accumulator| == |ad.aggregators|
    requires forall i :: 0 <= i < |ad.aggregators| ==> MergeOfOneIsIdentity(lib.combineFn(ad.aggregators[i]))
    ensures MergeSlots(lib, ad, [accumulator]) == accumulator
  {
    forall i | 0 <= i < |ad.aggregators|
      ensures MergeSlots(lib, ad, [accumulator])[i] == accumulator[i]
    {
      assert Column([accumulator], i) == [accumulator[i]];
    }
  }

  /** Order independence: merging composite accumulators in any order gives the
      same composite, when every slot's merge ignores order. */
  lemma MergeIgnoresOrderOfAccumulators(lib: Library, ad: AggregationAdaptor, a: seq<Accumulator>, b: seq<Accumulator>)
    requires Wide(a, |ad.aggregators|) && multiset(a) == multiset(b)
    requires forall i :: 0 <= i < |ad.aggregators| ==> MergeIgnoresOrder(lib.combineFn(ad.aggregators[i]))
    ensures Wide(b, |ad.aggregators|)
    ensures MergeSlots(lib, ad, a) == MergeSlots(lib, ad, b)
  {
    assert forall x :: x in b ==> x in multiset(b);
    forall i | 0 <= i < |ad.aggregators|
      ensures MergeSlots(lib, ad, a)[i] == MergeSlots(lib, ad, b)[i]
    {
      ColumnPermutation(a, b, i);
    }
  }

  function MergeEachGroup(lib: Library, ad: AggregationAdaptor, groups: seq<seq<Accumulator>>): (r: seq<Accumulator>)
    requires forall j :: 0 <= j < |groups| ==> Wide(groups[j], |ad.aggregators|)
    ensures |r| == |groups| && Wide(r, |ad.aggregators|)
  {
    var r := seq(|groups|, j requires 0 <= j < |groups| && Wide(groups[j], |ad.aggregators|) =>
      MergeSlots(lib, ad, groups[j]));
    assert forall a :: a in r ==> |a| >= |ad.aggregators| by {
      forall a | a in r
        ensures |a| >= |ad.aggregators|
      {
        var j :| 0 <= j < |r| && r[j] == a;
        assert a == MergeSlots(lib, ad, groups[j]);
      }
    }
    r
  }

  lemma MergedColumn(lib: Library, ad: AggregationAdaptor, groups: seq<seq<Accumulator>>, i: nat)
    requires i < |ad.aggregators|
    requires forall j :: 0 <= j < |groups| ==> Wide(groups[j], |ad.aggregators|)
    ensures Column(MergeEachGroup(lib, ad, groups), i) == MergeEach(lib.combineFn(ad.aggregators[i]), Columns(groups, i))
  {
  }

  // Instantiates the grouping law at one list of groups. It exists only to fire
  // the law's trigger in a small context, keeping the calling proof cheap.
  lemma ApplyGrouping(f: CombineFn, groups: seq<seq<Value>>)
    requires MergeIgnoresGrouping(f)
    requires forall j :: 0 <= j < |groups| ==> groups[j] != []
    ensures f.mergeAccumulators(MergeEach(f, groups)) == f.mergeAccumulators(Flatten(groups))
  {
  }

  // Restates the groups' width in the two quantifier shapes later proofs match on.
  // It exists only to fire triggers, keeping the calling proofs cheap.
  lemma GroupsWideAt(groups: seq<seq<Accumulator>>, width: nat, i: nat)
    requires i < width
    requires forall j :: 0 <= j < |groups| ==> Wide(groups[j], width)
    ensures forall j :: 0 <= j < |groups| ==> forall x :: x in groups[j] ==> i < |x|
    ensures forall g, x :: g in groups && x in g ==> i < |x|
  {
  }

  /** Slot i of the merge of the group merges merges the groups' slot-i columns. */
  lemma MergedSlot(lib: Library, ad: AggregationAdaptor, groups: seq<seq<Accumulator>>, i: nat)
    requires i < |ad.aggregators|
    requires forall j :: 0 <= j < |groups| ==> Wide(groups[j], |ad.aggregators|)
    ensures forall j :: 0 <= j < |groups| ==> forall x :: x in groups[j] ==> i < |x|
    ensures MergeSlots(lib, ad, MergeEachGroup(lib, ad, groups))[i]
            == lib.combineFn(ad.aggregators[i]).mergeAccumulators(MergeEach(lib.combineFn(ad.aggregators[i]), Columns(groups, i)))
  {
    GroupsWideAt(groups, |ad.aggregators|, i);
    MergedColumn(lib, ad, groups, i);
  }

  /** Slot i of the merge of the concatenation merges the concatenated columns. */
  lemma FlatSlot(lib: Library, ad: AggregationAdaptor, groups: seq<seq<Accumulator>>, i: nat)
    requires i < |ad.aggregators|
    requires forall j :: 0 <= j < |groups| ==> Wide(groups[j], |ad.aggregators|)
    requires Wide(Flatten(groups), |ad.aggregators|)
    ensures forall j :: 0 <= j < |groups| ==> forall x :: x in groups[j] ==> i < |x|
    ensures MergeSlots(lib, ad, Flatten(groups))[i]
            == lib.combineFn(ad.aggregators[i]).mergeAccumulators(Flatten(Columns(groups, i)))
  {
    GroupsWideAt(groups, |ad.aggregators|, i);
    ColumnFlatten(groups, i);
  }

  /** Slot i of the grouping law. */
  lemma MergeGroupsSlot(lib: Library, ad: AggregationAdaptor, groups: seq<seq<Accumulator>>, i: nat)
    requires i < |ad.aggregators|
    requires forall j :: 0 <= j < |groups| ==> groups[j] != [] && Wide(groups[j], |ad.aggregators|)
    requires Wide(Flatten(groups), |ad.aggregators|)
    requires MergeIgnoresGrouping(lib.combineFn(ad.aggregators[i]))
    ensures MergeSlots(lib, ad, MergeEachGroup(lib, ad, groups))[i] == MergeSlots(lib, ad, Flatten(groups))[i]
  {
    MergedSlot(lib, ad, groups, i);
    FlatSlot(lib, ad, groups, i);
    var columns := Columns(groups, i);
    assert forall j :: 0 <= j < |columns| ==> columns[j] != [];
    ApplyGrouping(lib.combineFn(ad.aggregators[i]), columns);
  }

  lemma MergeGroupsSlotwise(lib: Library, ad: AggregationAdaptor, groups: seq<seq<Accumulator>>)
    requires forall j :: 0 <= j < |groups| ==> groups[j] != [] && Wide(groups[j], |ad.aggregators|)
    requires Wide(Flatten(groups), |ad.aggregators|)
    requires forall i :: 0 <= i < |ad.aggregators| ==> MergeIgnoresGrouping(lib.combineFn(ad.aggregators[i]))
    ensures forall i :: 0 <= i < |ad.aggregators| ==>
              MergeSlots(lib, ad, MergeEachGroup(lib, ad, groups))[i] == MergeSlots(lib, ad, Flatten(groups))[i]
  {
    forall i | 0 <= i < |ad.aggregators|
      ensures MergeSlots(lib, ad, MergeEachGroup(lib, ad, groups))[i] == MergeSlots(lib, ad, Flatten(groups))[i]
    {
      MergeGroupsSlot(lib, ad, groups, i);
    }
  }

  /** Grouping independence: merging the merges of non-empty groups of composite
      accumulators is merging all of them at once, when every slot's merge
      ignores grouping. */
  lemma MergeIgnoresGroupingOfAccumulators(lib: Library, ad: AggregationAdaptor, groups: seq<seq<Accumulator>>)
    requires forall j :: 0 <= j < |groups| ==> groups[j] != [] && Wide(groups[j], |ad.aggregators|)
    requires forall i :: 0 <= i < |ad.aggregators| ==> MergeIgnoresGrouping(lib.combineFn(ad.aggregators[i]))
    ensures Wide(Flatten(groups), |ad.aggregators|)
    ensures MergeSlots(lib, ad, MergeEachGroup(lib, ad, groups)) == MergeSlots(lib, ad, Flatten(groups))
  {
    FlattenWide(groups, |ad.aggregators|);
    MergeGroupsSlotwise(lib, ad, groups);
    SameElements(MergeSlots(lib, ad, MergeEachGroup(lib, ad, groups)), MergeSlots(lib, ad, Flatten(groups)));
  }

  // ---------------------------------------------------------------------------
  // Folding records into composite accumulators

  /** The composite accumulator after adding `inputs` one by one. */
  function Fold(lib: Library, ad: AggregationAdaptor, accumulator: Accumulator, inputs: seq<Row>): (r: Accumulator)
    requires ad.Valid() && |accumulator| == |ad.aggregators|
    requires forall row :: row in inputs ==> ad.CanRead(row)
    ensures |r| == |ad.aggregators|
    decreases |inputs|
  {
    if inputs == [] then accumulator
    else Fold(lib, ad, AddToSlots(lib, ad, accumulator, inputs[0]), inputs[1..])
  }

  /** What slot i's aggregator receives from each of `inputs`. */
  function SlotInputs(ad: AggregationAdaptor, i: nat, inputs: seq<Row>): seq<Value>
    requires ad.Valid() && i < |ad.aggregators|
    requires forall row :: row in inputs ==> ad.CanRead(row)
  {
    seq(|inputs|, j requires 0 <= j < |inputs| && ad.CanRead(inputs[j]) => SlotInput(ad.sourceFieldExps[i], inputs[j]))
  }

  /** Slot i of a fold is aggregator i's fold of slot i's inputs. */
  lemma {:induction false} FoldBySlot(lib: Library, ad: AggregationAdaptor, accumulator: Accumulator, inputs: seq<Row>, i: nat)
    requires ad.Valid() && |accumulator| == |ad.aggregators| && i < |ad.aggregators|
    requires forall row :: row in inputs ==> ad.CanRead(row)
    ensures Fold(lib, ad, accumulator, inputs)[i]
            == SlotFold(lib.combineFn(ad.aggregators[i]), accumulator[i], SlotInputs(ad, i, inputs))
    decreases |inputs|
  {
    if inputs != [] {
      var next := AddToSlots(lib, ad, accumulator, inputs[0]);
      assert forall row :: row in inputs[1..] ==> row in inputs;
      FoldBySlot(lib, ad, next, inputs[1..], i);
      assert SlotInputs(ad, i, inputs)[1..] == SlotInputs(ad, i, inputs[1..]);
    }
  }

  lemma {:induction false} SlotInputsFlatten(ad: AggregationAdaptor, i: nat, parts: seq<seq<Row>>)
    requires ad.Valid() && i < |ad.aggregators|
    requires forall j, row :: 0 <= j < |parts| && row in parts[j] ==> ad.CanRead(row)
    requires forall row :: row in Flatten(parts) ==> ad.CanRead(row)
    ensures SlotInputs(ad, i, Flatten(parts))
            == Flatten(seq(|parts|, j requires 0 <= j < |parts| => SlotInputs(ad, i, parts[j])))
  {
    if parts != [] {
      var rest := parts[1..];
      SlotInputsFlatten(ad, i, rest);
      assert Flatten(parts) == parts[0] + Flatten(rest);
      assert SlotInputs(ad, i, Flatten(parts)) == SlotInputs(ad, i, parts[0]) + SlotInputs(ad, i, Flatten(rest));
      var each := seq(|parts|, j requires 0 <= j < |parts| => SlotInputs(ad, i, parts[j]));
      assert each[1..] == seq(|rest|, j requires 0 <= j < |rest| => SlotInputs(ad, i, rest[j]));
    }
  }

  function PartialFolds(lib: Library, ad: AggregationAdaptor, parts: seq<seq<Row>>): (r: seq<Accumulator>)
    requires ad.Valid()
    requires forall j, row :: 0 <= j < |parts| && row in parts[j] ==> ad.CanRead(row)
    ensures Wide(r, |ad.aggregators|)
  {
    seq(|parts|, j requires 0 <= j < |parts| => Fold(lib, ad, InitialAccumulator(lib, ad), parts[j]))
  }

  /** Split then merge: folding each part of the records into its own fresh
      accumulator and merging the results gives the accumulator, and hence the
      output, of folding all the records into one, when every slot's
      aggregate function has that property. */
  lemma MergeOfPartialFolds(lib: Library, ad: AggregationAdaptor, parts: seq<seq<Row>>)
    requires ad.Valid() && parts != []
    requires forall j, row :: 0 <= j < |parts| && row in parts[j] ==> ad.CanRead(row)
    requires forall i :: 0 <= i < |ad.aggregators| ==> MergeOfFoldsIsFoldOfAll(lib.combineFn(ad.aggregators[i]))
    ensures forall row :: row in Flatten(parts) ==> ad.CanRead(row)
    ensures MergeSlots(lib, ad, PartialFolds(lib, ad, parts))
            == Fold(lib, ad, InitialAccumulator(lib, ad), Flatten(parts))
    ensures ExtractOutput(lib, ad, MergeSlots(lib, ad, PartialFolds(lib, ad, parts)))
            == ExtractOutput(lib, ad, Fold(lib, ad, InitialAccumulator(lib, ad), Flatten(parts)))
  {
    forall row | row in Flatten(parts)
      ensures ad.CanRead(row)
    {
      FlattenMembers(parts, row);
    }
    var init := InitialAccumulator(lib, ad);
    var folds := PartialFolds(lib, ad, parts);
    var whole := Fold(lib, ad, init, Flatten(parts));
    forall i | 0 <= i < |ad.aggregators|
      ensures MergeSlots(lib, ad, folds)[i] == whole[i]
    {
      var f := lib.combineFn(ad.aggregators[i]);
      var inputs := seq(|parts|, j requires 0 <= j < |parts| => SlotInputs(ad, i, parts[j]));
      forall j | 0 <= j < |parts|
        ensures Column(folds, i)[j] == FoldEach(f, inputs)[j]
      {
        FoldBySlot(lib, ad, init, parts[j], i);
      }
      assert Column(folds, i) == FoldEach(f, inputs);
      FoldBySlot(lib, ad, init, Flatten(parts), i);
      SlotInputsFlatten(ad, i, parts);
      assert inputs != [];
    }
    SameElements(MergeSlots(lib, ad, folds), whole);
  }

  // ---------------------------------------------------------------------------
  // Shipping an accumulator through its coder

  /** An accumulator written by the adaptor's accumulator coder and read back is
      the same accumulator, so it extracts the same output, when the count coder
      round-trips and every element coder round-trips its slot's accumulator. */
  lemma CodedAccumulatorKeepsOutput(lib: Library, ad: AggregationAdaptor, elementCoders: seq<CoderRef>,
                                    accumulator: Accumulator, rest: seq<byte>)
    requires |elementCoders| == |ad.aggregators| == |accumulator| && |accumulator| <= IntMax
    requires IntRoundTrips(lib.varIntCoder)
    requires forall i :: 0 <= i < |elementCoders| ==> RoundTripsOn(lib.codecOf(elementCoders[i]), accumulator[i])
    ensures EncodeSpec(ToAccumulatorCoder(lib, elementCoders), accumulator).Ok?
    ensures var coder := ToAccumulatorCoder(lib, elementCoders);
            var decoded := DecodeSpec(coder, EncodeSpec(coder, accumulator).value + rest);
            && decoded == Ok((accumulator, rest))
            && ExtractOutput(lib, ad, decoded.value.0) == ExtractOutput(lib, ad, accumulator)
  {
    RoundTrip(ToAccumulatorCoder(lib, elementCoders), accumulator, rest);
  }
}
