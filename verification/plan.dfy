/**
 The calls `Compute` makes when none fails, described independently of how
 it makes them, and where each call stands in that list.
 */
module CallPlan {
  import opened Shapes
  import opened Spans
  import opened Variables
  import opened Calls
  import opened Status
  import opened Validation
  import opened Kernel
  import opened Slicing
  import opened Output

  /** Uploads of batch element `outer`, variables `index` onwards. */
  function Uploads(vars: seq<Variable>, outer: nat, index: nat): (calls: seq<Call>)
    requires index <= |vars| && WellRanked(vars) && AllHandled(vars)
    ensures |calls| == |vars| - index
    ensures forall j | 0 <= j < |calls| :: SliceCall(vars[index + j], outer, index + j) == Ok(calls[j])
    decreases |vars| - index
  {
    if index == |vars| then []
    else [SliceCall(vars[index], outer, index).value] + Uploads(vars, outer, index + 1)
  }

  /** For each batch element from `from` on: its uploads, then its render. */
  function BatchBlocks(vars: seq<Variable>, from: nat, count: nat, imageSize: nat, numPoints: int): seq<Call>
    requires from <= count && WellRanked(vars) && AllHandled(vars)
    decreases count - from
  {
    if from == count then []
    else
      Uploads(vars, from, 0) + [Render(from, numPoints, BatchSpan(from, imageSize))]
      + BatchBlocks(vars, from + 1, count, imageSize, numPoints)
  }

  /** Allocation, acquisition, one block per batch element, return. */
  function Plan(vars: seq<Variable>, batch: Shape, resolution: Shape, numPoints: int): seq<Call>
    requires |resolution| >= 2 && WellRanked(vars) && AllHandled(vars)
  {
    [AllocateOutput(OutputShape(batch, resolution)), AcquireResource]
    + BatchBlocks(vars, 0, NumElements(batch), ImageSize(resolution), numPoints)
    + [ReturnResource]
  }

  /** The plan of a `Compute` call whose validation succeeds. */
  function ComputePlan(op: RasterizeOp, values: seq<Tensor>, numPoints: int): seq<Call>
    requires |op.resolution| >= 2
    requires ValidateVariables(op.names, op.kinds, values).Ok?
  {
    Plan(Zip(op.names, op.kinds, values), ValidateVariables(op.names, op.kinds, values).value,
         op.resolution, numPoints)
  }

  /** Index in the plan, for `m` variables, of the first call of batch
      element `outer`: allocation and acquisition come first, and every
      earlier batch element takes `m` uploads and one render. */
  function BlockStart(outer: nat, m: nat): (start: nat)
    ensures start == 2 + outer * (m + 1)
  {
    if outer == 0 then 2
    else
      assert outer * (m + 1) == (outer - 1) * (m + 1) + (m + 1);
      BlockStart(outer - 1, m) + m + 1
  }

  /** Where a call stands in the plan for `m` variables and `n` batch
      elements. */
  function Position(c: Call, m: nat, n: nat): nat
  {
    match c
    case AllocateOutput(_) => 0
    case AcquireResource => 1
    case SetUniformMatrix(outer, index, _, _, _, _, _) => BlockStart(outer, m) + index
    case SetShaderStorageBuffer(outer, index, _, _) => BlockStart(outer, m) + index
    case Render(outer, _, _) => BlockStart(outer, m) + m
    case ReturnResource => BlockStart(n, m)
  }

  /** An upload or render is one the plan makes: the slice call of a real
      variable for a batch element below `count`, or the render of such a
      batch element into its image. */
  predicate Planned(c: Call, vars: seq<Variable>, count: nat, imageSize: nat, numPoints: int)
    requires WellRanked(vars)
  {
    if c.IsUpload() then
      c.outer < count && c.index < |vars| && SliceCall(vars[c.index], c.outer, c.index) == Ok(c)
    else if c.Render? then
      c.outer < count && c == Render(c.outer, numPoints, BatchSpan(c.outer, imageSize))
    else true
  }

  /** `c` is an upload or render the plan makes, for a batch element from
      `from` on, and stands at index `pos` of the plan. */
  predicate LaidOut(c: Call, from: nat, pos: nat, vars: seq<Variable>, count: nat, imageSize: nat,
                    numPoints: int)
    requires WellRanked(vars)
  {
    && (c.IsUpload() || c.Render?)
    && from <= c.outer
    && Position(c, |vars|, count) == pos
    && Planned(c, vars, count, imageSize, numPoints)
  }
}
