/**
 Batch-shape validation of the rasterize kernel: every variable must be a
 float matrix or a float buffer, and all variables must agree on the shape
 left after removing their matrix or buffer dimensions. That common shape
 is the batch shape.
 */
module Validation {
  import opened Shapes
  import opened Variables
  import opened Status

  /** Variable `j` is one the validation loop stops at: its kind/dtype pair
      is not handled, it lacks the dimensions its kind removes, or its
      batch shape differs from the first variable's. */
  predicate Bad(vars: seq<Variable>, j: nat)
    requires j < |vars|
  {
    || !vars[j].Accepted()
    || (vars[0].Accepted() && vars[j].BatchShape() != vars[0].BatchShape())
  }

  /** `j` is the first variable the validation loop stops at. */
  predicate FirstBad(vars: seq<Variable>, j: nat)
  {
    j < |vars| && Bad(vars, j) && forall l | 0 <= l < j :: !Bad(vars, l)
  }

  /** The outcome for a variable the loop stops at; it names that
      variable. */
  function ErrorAt(vars: seq<Variable>, j: nat): Error
    requires j < |vars|
  {
    var v := vars[j];
    if !v.Handled() then UnhandledVariable(v.name, v.kind, v.value.dtype)
    else if !v.RankSufficient() then RankCheckAbort(v.name, v.value.shape)
    else IncompatibleBatchShape(v.name, v.BatchShape())
  }

  /** The validation loop from variable `index` on. `initialized` and
      `batch` are the loop's flag and the batch shape found so far. */
  function ValidateFrom(vars: seq<Variable>, index: nat, initialized: bool, batch: Shape): (r: Result<Shape>)
    requires index <= |vars|
    requires initialized <==> index > 0
    requires !initialized ==> batch == []
    requires initialized ==>
               && vars[0].Accepted()
               && batch == vars[0].BatchShape()
               && forall l | 0 <= l < index :: !Bad(vars, l)
    ensures r.Ok? <==> forall j | index <= j < |vars| :: !Bad(vars, j)
    ensures r.Ok? && |vars| == 0 ==> r.value == []
    ensures r.Ok? && |vars| > 0 ==> vars[0].Accepted() && r.value == vars[0].BatchShape()
    ensures r.Ok? ==> forall j | index <= j < |vars| :: vars[j].Accepted() && vars[j].BatchShape() == r.value
    ensures r.Err? ==> r.error.UnhandledVariable? || r.error.RankCheckAbort? || r.error.IncompatibleBatchShape?
    decreases |vars| - index
  {
    if index == |vars| then Ok(batch)
    else
      var v := vars[index];
      if !v.Handled() then
        assert Bad(vars, index);
        Err(UnhandledVariable(v.name, v.kind, v.value.dtype))
      else if |v.value.shape| < TrailingDims(v.kind) then
        assert Bad(vars, index);
        Err(RankCheckAbort(v.name, v.value.shape))
      else
        var valueBatch := RemoveLastDims(v.value.shape, TrailingDims(v.kind));
        if !initialized then
          ValidateFrom(vars, index + 1, true, valueBatch)
        else if batch != valueBatch then
          assert Bad(vars, index);
          Err(IncompatibleBatchShape(v.name, valueBatch))
        else
          ValidateFrom(vars, index + 1, true, batch)
  }

  /** When the validation loop fails, it has stopped at the first variable
      it must stop at, and its error is the one for that variable. */
  lemma {:induction false} ValidateFromReportsFirstBad(vars: seq<Variable>, index: nat, initialized: bool, batch: Shape)
    requires index <= |vars|
    requires initialized <==> index > 0
    requires !initialized ==> batch == []
    requires initialized ==>
               && vars[0].Accepted()
               && batch == vars[0].BatchShape()
               && forall l | 0 <= l < index :: !Bad(vars, l)
    ensures var r := ValidateFrom(vars, index, initialized, batch);
      r.Err? ==> exists j :: index <= j && FirstBad(vars, j) && r.error == ErrorAt(vars, j)
    decreases |vars| - index
  {
    if index < |vars| {
      var v := vars[index];
      if !v.Accepted() || (initialized && v.BatchShape() != batch) {
        assert FirstBad(vars, index);
      } else if !initialized {
        ValidateFromReportsFirstBad(vars, index + 1, true, v.BatchShape());
      } else {
        ValidateFromReportsFirstBad(vars, index + 1, true, batch);
      }
    }
  }

  /** The kernel's `ValidateVariables`: the three lists must have one entry
      per variable, then the loop above runs over them. */
  function ValidateVariables(names: seq<string>, kinds: seq<Kind>, values: seq<Tensor>): (r: Result<Shape>)
    ensures r == Err(SizeMismatch) <==> !(|names| == |kinds| == |values|)
    ensures |names| == |kinds| == |values| ==>
              var vars := Zip(names, kinds, values);
              && (r.Ok? <==> forall j | 0 <= j < |vars| :: !Bad(vars, j))
              && (r.Ok? && |vars| == 0 ==> r.value == [])
              && (r.Ok? && |vars| > 0 ==> vars[0].Accepted() && r.value == vars[0].BatchShape())
              && (r.Err? ==> exists j :: FirstBad(vars, j) && r.error == ErrorAt(vars, j))
    ensures r.Ok? ==>
              && |names| == |kinds| == |values|
              && AllHandled(Zip(names, kinds, values))
              && WellRanked(Zip(names, kinds, values))
              && forall j | 0 <= j < |values| :: Zip(names, kinds, values)[j].BatchShape() == r.value
  {
    if |names| != |values| || |names| != |kinds| then Err(SizeMismatch)
    else
      var vars := Zip(names, kinds, values);
      ValidateFromReportsFirstBad(vars, 0, false, []);
      ValidateFrom(vars, 0, false, [])
  }
}
