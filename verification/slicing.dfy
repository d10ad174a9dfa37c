/**
 The per-batch-element input slices of `SetVariables`: for batch element
 `outer`, a matrix variable hands its `outer`-th rows * columns block to the
 rasterizer as a uniform, a buffer variable its `outer`-th block of buffer
 length as a storage buffer.
 */
module Slicing {
  import opened Shapes
  import opened Spans
  import opened Variables
  import opened Calls
  import opened Status
  import opened Validation

  /** The rasterizer call that hands batch element `outer` of variable
      number `index` to the shader, or the error for a kind/dtype pair the
      kernel does not handle. */
  function SliceCall(v: Variable, outer: nat, index: nat): (r: Result<Call>)
    requires v.RankSufficient()
    ensures r.Ok? <==> v.Handled()
    ensures r.Err? ==> r.error == UnhandledVariableWithShape(v.name, v.kind, v.value.shape, v.value.dtype)
    ensures r.Ok? ==> r.value.IsUpload() && r.value.outer == outer && r.value.index == index
    ensures r.Ok? ==> r.value.name == v.name && r.value.data == BatchSpan(outer, v.SliceWidth())
    ensures r.Ok? ==> (r.value.SetUniformMatrix? <==> v.kind == Mat)
    ensures r.Ok? && v.kind == Mat ==>
              var s := v.value.shape;
              && r.value.columns == s[|s| - 1]
              && r.value.rows == s[|s| - 2]
              && r.value.transpose
  {
    var s := v.value.shape;
    if v.kind == Mat && v.value.dtype == Float then
      var rows := s[|s| - 2];
      var columns := s[|s| - 1];
      Ok(SetUniformMatrix(outer, index, v.name, columns, rows, true, BatchSpan(outer, rows * columns)))
    else if v.kind == Buffer && v.value.dtype == Float then
      var length := s[|s| - 1];
      Ok(SetShaderStorageBuffer(outer, index, v.name, BatchSpan(outer, length)))
    else
      Err(UnhandledVariableWithShape(v.name, v.kind, v.value.shape, v.value.dtype))
  }

  /** The slice of a batch element the variable has lies inside the
      variable's flat data. */
  lemma SliceInBounds(v: Variable, outer: nat, index: nat)
    requires v.Handled() && v.RankSufficient()
    requires outer < NumElements(v.BatchShape())
    ensures SliceCall(v, outer, index).value.data.end <= NumElements(v.value.shape)
  {
    ValueSplitsIntoSlices(v);
    BatchSpanInBounds(outer, NumElements(v.BatchShape()), v.SliceWidth());
  }

  /** Slices of distinct batch elements of a variable do not overlap. */
  lemma SlicesDisjoint(v: Variable, outer1: nat, outer2: nat, index: nat)
    requires v.Handled() && v.RankSufficient()
    requires outer1 != outer2
    ensures Disjoint(SliceCall(v, outer1, index).value.data, SliceCall(v, outer2, index).value.data)
  {
    BatchSpansDisjoint(outer1, outer2, v.SliceWidth());
  }

  /** Every element of a variable's flat data belongs to the slice of one
      of its batch elements. */
  lemma SlicesCoverValue(v: Variable, index: nat, p: nat) returns (outer: nat)
    requires v.Handled() && v.RankSufficient()
    requires p < NumElements(v.value.shape)
    ensures outer < NumElements(v.BatchShape())
    ensures SliceCall(v, outer, index).value.data.Contains(p)
  {
    ValueSplitsIntoSlices(v);
    outer := BatchSpansCover(NumElements(v.BatchShape()), v.SliceWidth(), p);
  }

  /** Once validation has accepted the variables, slicing never takes the
      rejecting branch, and the slice of every batch element below the
      batch size lies inside the variable's data. */
  lemma ValidatedSlicesInBounds(names: seq<string>, kinds: seq<Kind>, values: seq<Tensor>,
                                index: nat, outer: nat)
    requires ValidateVariables(names, kinds, values).Ok?
    requires index < |values|
    requires outer < NumElements(ValidateVariables(names, kinds, values).value)
    ensures var v := Zip(names, kinds, values)[index];
      && SliceCall(v, outer, index).Ok?
      && SliceCall(v, outer, index).value.data.end <= NumElements(values[index].shape)
  {
    var v := Zip(names, kinds, values)[index];
    SliceInBounds(v, outer, index);
  }

  /** Slicing rejects a variable only when validation rejects the whole
      list: once validation has passed, no slice call fails on kind or
      type. */
  lemma SlicingRejectsOnlyInvalid(names: seq<string>, kinds: seq<Kind>, values: seq<Tensor>,
                                  index: nat, outer: nat)
    requires |names| == |kinds| == |values| && index < |values|
    requires Zip(names, kinds, values)[index].RankSufficient()
    ensures SliceCall(Zip(names, kinds, values)[index], outer, index).Err? ==>
              ValidateVariables(names, kinds, values).Err?
  {
  }

  /** When validation rejects a variable's kind/type pair, slicing rejects
      that same variable, with the same name, kind and type and its shape. */
  lemma SameRejection(names: seq<string>, kinds: seq<Kind>, values: seq<Tensor>, outer: nat)
    requires ValidateVariables(names, kinds, values).Err?
    requires ValidateVariables(names, kinds, values).error.UnhandledVariable?
    ensures var e := ValidateVariables(names, kinds, values).error;
      exists i | 0 <= i < |values| ::
        && names[i] == e.name
        && !Zip(names, kinds, values)[i].Handled()
        && SliceCall(Zip(names, kinds, values)[i], outer, i)
           == Err(UnhandledVariableWithShape(e.name, e.kind, values[i].shape, e.dtype))
  {
    var vars := Zip(names, kinds, values);
    var e := ValidateVariables(names, kinds, values).error;
    assert |names| == |kinds| == |values|;
    var j: nat :| FirstBad(vars, j) && e == ErrorAt(vars, j);
    assert vars[j] == Variable(names[j], kinds[j], values[j]);
  }
}
