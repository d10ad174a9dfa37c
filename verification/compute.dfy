/**
 The kernel's `Compute`: validate the variables, allocate the output,
 acquire a rasterizer from the pool, then for every batch element hand the
 variables' slices to the rasterizer and render into that element's image,
 and finally return the rasterizer to the pool. Every step returns at once
 on error.
 */
module Compute {
  import opened Shapes
  import opened Spans
  import opened Variables
  import opened Calls
  import opened Status
  import opened Validation
  import opened Kernel
  import opened Slicing
  import opened Output

  /** `SetVariables` for batch element `outer`, from variable `index` on:
      each variable's slice is handed to the rasterizer in list order. */
  function SetVariables(vars: seq<Variable>, outer: nat, index: nat, succeeds: Call -> bool): (o: Outcome<()>)
    requires index <= |vars| && WellRanked(vars)
    ensures |o.trace| <= |vars| - index
    ensures forall j | 0 <= j < |o.trace| :: SliceCall(vars[index + j], outer, index + j) == Ok(o.trace[j])
    ensures o.status.Ok? ==> |o.trace| == |vars| - index
    decreases |vars| - index
  {
    if index == |vars| then Outcome([], Ok(()))
    else
      match SliceCall(vars[index], outer, index)
      case Err(e) => Outcome([], Err(e))
      case Ok(c) =>
        if !succeeds(c) then Outcome([c], Err(CallFailed(c)))
        else
          var rest := SetVariables(vars, outer, index + 1, succeeds);
          Outcome([c] + rest.trace, rest.status)
  }

  /** The render loop of `Compute` from batch element `outer` on. */
  function RenderBatches(vars: seq<Variable>, outer: nat, count: nat, imageSize: nat, numPoints: int,
                         succeeds: Call -> bool): (o: Outcome<()>)
    requires outer <= count && WellRanked(vars)
    ensures forall c | c in o.trace :: (c.IsUpload() || c.Render?) && outer <= c.outer < count
    decreases count - outer
  {
    if outer == count then Outcome([], Ok(()))
    else
      var uploads := SetVariables(vars, outer, 0, succeeds);
      if uploads.status.Err? then uploads
      else
        var render := Render(outer, numPoints, BatchSpan(outer, imageSize));
        if !succeeds(render) then Outcome(uploads.trace + [render], Err(CallFailed(render)))
        else
          var rest := RenderBatches(vars, outer + 1, count, imageSize, numPoints, succeeds);
          Outcome(uploads.trace + [render] + rest.trace, rest.status)
  }

  /** What `Compute` does once validation has accepted the variables and
      yielded the batch shape: allocate, acquire, render every batch
      element, return the rasterizer. On success the status carries the
      shape of the output tensor. */
  function RenderAll(vars: seq<Variable>, batch: Shape, resolution: Shape, numPoints: int,
                     succeeds: Call -> bool): (o: Outcome<Shape>)
    requires |resolution| >= 2 && WellRanked(vars)
    ensures o.status.Ok? ==> o.status.value == OutputShape(batch, resolution)
    ensures |o.trace| >= 1 && o.trace[0] == AllocateOutput(OutputShape(batch, resolution))
    ensures |o.trace| >= 2 ==> o.trace[1] == AcquireResource
    ensures o.status.Ok? ==> |o.trace| >= 3 && o.trace[|o.trace| - 1] == ReturnResource
  {
    var shape := OutputShape(batch, resolution);
    var allocate := AllocateOutput(shape);
    if !succeeds(allocate) then Outcome([allocate], Err(CallFailed(allocate)))
    else if !succeeds(AcquireResource) then
      Outcome([allocate, AcquireResource], Err(CallFailed(AcquireResource)))
    else
      var loop := RenderBatches(vars, 0, NumElements(batch), ImageSize(resolution), numPoints, succeeds);
      var soFar := [allocate, AcquireResource] + loop.trace;
      if loop.status.Err? then Outcome(soFar, Err(loop.status.error))
      else if !succeeds(ReturnResource) then
        Outcome(soFar + [ReturnResource], Err(CallFailed(ReturnResource)))
      else Outcome(soFar + [ReturnResource], Ok(shape))
  }

  /** The kernel's `Compute`. On success the status carries the shape of
      the output tensor. */
  function Compute(op: RasterizeOp, values: seq<Tensor>, numPoints: int, succeeds: Call -> bool): (o: Outcome<Shape>)
    requires |op.resolution| >= 2
    ensures ValidateVariables(op.names, op.kinds, values).Err? ==>
              o == Outcome([], Err(ValidateVariables(op.names, op.kinds, values).error))
    ensures o.status.Ok? ==>
              && ValidateVariables(op.names, op.kinds, values).Ok?
              && o.status.value == OutputShape(ValidateVariables(op.names, op.kinds, values).value, op.resolution)
  {
    match ValidateVariables(op.names, op.kinds, values)
    case Err(e) => Outcome([], Err(e))
    case Ok(batch) => RenderAll(Zip(op.names, op.kinds, values), batch, op.resolution, numPoints, succeeds)
  }
}
