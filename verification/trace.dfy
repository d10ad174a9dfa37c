/**
 `Compute` makes a prefix of the plan that ends at the first failing call;
 the lemmas here prove this, lay the plan out call by call, and derive the
 order of the calls, the early exits and the fate of the pooled rasterizer
 from it.
 */
module ComputeTrace {
  import opened Shapes
  import opened Spans
  import opened Variables
  import opened Calls
  import opened Status
  import opened Validation
  import opened Kernel
  import opened Slicing
  import opened Output
  import opened Compute
  import opened CallPlan

  // ---------------------------------------------------------------------
  // Compute runs the plan until the first failure
  // ---------------------------------------------------------------------

  /** The upload loop of one batch element makes the planned uploads until
      the first failure. */
  lemma {:induction false} SetVariablesFollowsPlan(vars: seq<Variable>, outer: nat, index: nat,
                                                   succeeds: Call -> bool)
    requires index <= |vars| && WellRanked(vars) && AllHandled(vars)
    ensures SetVariables(vars, outer, index, succeeds) == Execute(Uploads(vars, outer, index), succeeds)
    decreases |vars| - index
  {
    if index < |vars| {
      SetVariablesFollowsPlan(vars, outer, index + 1, succeeds);
      ExecuteCons(SliceCall(vars[index], outer, index).value, Uploads(vars, outer, index + 1), succeeds);
    }
  }

  /** The batch loop makes the planned blocks until the first failure. */
  lemma {:induction false} RenderBatchesFollowsPlan(vars: seq<Variable>, from: nat, count: nat, imageSize: nat,
                                                    numPoints: int, succeeds: Call -> bool)
    requires from <= count && WellRanked(vars) && AllHandled(vars)
    ensures RenderBatches(vars, from, count, imageSize, numPoints, succeeds)
            == Execute(BatchBlocks(vars, from, count, imageSize, numPoints), succeeds)
    decreases count - from
  {
    if from < count {
      var ups := Uploads(vars, from, 0);
      var render := Render(from, numPoints, BatchSpan(from, imageSize));
      var rest := BatchBlocks(vars, from + 1, count, imageSize, numPoints);
      assert BatchBlocks(vars, from, count, imageSize, numPoints) == ups + ([render] + rest);
      SetVariablesFollowsPlan(vars, from, 0, succeeds);
      ExecuteBlock(ups, render, rest, succeeds);
      RenderBatchesFollowsPlan(vars, from + 1, count, imageSize, numPoints, succeeds);
      if Execute(ups, succeeds).status.Ok? {
        ExecuteStopsAtFirstFailure(ups, succeeds);
      }
    }
  }

  /** Once validation has passed, the calls made are those of the plan up
      to and including the first that fails, whose error is the result; if
      none fails all of them are made and the output shape is returned. */
  lemma RenderAllFollowsPlan(vars: seq<Variable>, batch: Shape, resolution: Shape, numPoints: int,
                             succeeds: Call -> bool)
    requires |resolution| >= 2 && WellRanked(vars) && AllHandled(vars)
    ensures var run := Execute(Plan(vars, batch, resolution, numPoints), succeeds);
      var o := RenderAll(vars, batch, resolution, numPoints, succeeds);
      && o.trace == run.trace
      && (o.status.Ok? <==> run.status.Ok?)
      && (o.status.Err? ==> o.status.error == run.status.error)
  {
    var shape := OutputShape(batch, resolution);
    PlanRun(vars, batch, resolution, numPoints, succeeds);
    if succeeds(AllocateOutput(shape)) && succeeds(AcquireResource) {
      LoopThenReturn(vars, NumElements(batch), ImageSize(resolution), numPoints, succeeds);
    }
  }

  /** Running the plan: allocation, acquisition, then the render loop and
      the return of the rasterizer. */
  lemma PlanRun(vars: seq<Variable>, batch: Shape, resolution: Shape, numPoints: int, succeeds: Call -> bool)
    requires |resolution| >= 2 && WellRanked(vars) && AllHandled(vars)
    ensures var allocate := AllocateOutput(OutputShape(batch, resolution));
      var rest := Execute(BatchBlocks(vars, 0, NumElements(batch), ImageSize(resolution), numPoints)
                          + [ReturnResource], succeeds);
      Execute(Plan(vars, batch, resolution, numPoints), succeeds)
      == if !succeeds(allocate) then Outcome([allocate], Err(CallFailed(allocate)))
         else if !succeeds(AcquireResource) then
           Outcome([allocate, AcquireResource], Err(CallFailed(AcquireResource)))
         else Outcome([allocate, AcquireResource] + rest.trace, rest.status)
  {
    var allocate := AllocateOutput(OutputShape(batch, resolution));
    var tail := BatchBlocks(vars, 0, NumElements(batch), ImageSize(resolution), numPoints) + [ReturnResource];
    assert Plan(vars, batch, resolution, numPoints) == [allocate, AcquireResource] + tail;
    ExecuteTwoThen(allocate, AcquireResource, tail, succeeds);
  }

  /** The render loop followed by the return of the rasterizer. */
  lemma LoopThenReturn(vars: seq<Variable>, count: nat, imageSize: nat, numPoints: int, succeeds: Call -> bool)
    requires WellRanked(vars) && AllHandled(vars)
    ensures var loop := RenderBatches(vars, 0, count, imageSize, numPoints, succeeds);
      var rest := Execute(BatchBlocks(vars, 0, count, imageSize, numPoints) + [ReturnResource], succeeds);
      rest == if loop.status.Err? then loop
              else if !succeeds(ReturnResource) then
                Outcome(loop.trace + [ReturnResource], Err(CallFailed(ReturnResource)))
              else Outcome(loop.trace + [ReturnResource], Ok(()))
  {
    var blocks := BatchBlocks(vars, 0, count, imageSize, numPoints);
    RenderBatchesFollowsPlan(vars, 0, count, imageSize, numPoints, succeeds);
    ExecuteThenLast(blocks, ReturnResource, succeeds);
    if Execute(blocks, succeeds).status.Ok? {
      ExecuteStopsAtFirstFailure(blocks, succeeds);
    }
  }

  /** Whatever the foreign calls do, once validation has passed `Compute`
      makes the calls of the plan in order up to and including the first
      one that fails, and fails with that call's error; if none fails it
      makes all of them and succeeds. */
  lemma ComputeFollowsPlan(op: RasterizeOp, values: seq<Tensor>, numPoints: int, succeeds: Call -> bool)
    requires |op.resolution| >= 2
    requires ValidateVariables(op.names, op.kinds, values).Ok?
    ensures var run := Execute(ComputePlan(op, values, numPoints), succeeds);
      var o := Compute.Compute(op, values, numPoints, succeeds);
      && o.trace == run.trace
      && (o.status.Ok? <==> run.status.Ok?)
      && (o.status.Err? ==> o.status.error == run.status.error)
  {
    var batch := ValidateVariables(op.names, op.kinds, values).value;
    RenderAllFollowsPlan(Zip(op.names, op.kinds, values), batch, op.resolution, numPoints, succeeds);
  }

  // ---------------------------------------------------------------------
  // Shape of the plan
  // ---------------------------------------------------------------------

  /** The block of a later batch element starts after every call of an
      earlier one. */
  lemma {:induction false} BlockStartIncreasing(o1: nat, o2: nat, m: nat)
    requires o1 < o2
    ensures BlockStart(o1, m) + m < BlockStart(o2, m)
    decreases o2
  {
    if o1 + 1 < o2 {
      BlockStartIncreasing(o1, o2 - 1, m);
    }
  }

  /** Offsets of at most `m` into the blocks of two batch elements meet only
      when they are the same offset into the same block. */
  lemma SameBlock(o1: nat, a: nat, o2: nat, b: nat, m: nat)
    requires a <= m && b <= m
    requires BlockStart(o1, m) + a == BlockStart(o2, m) + b
    ensures o1 == o2 && a == b
  {
    if o1 < o2 {
      BlockStartIncreasing(o1, o2, m);
    } else if o2 < o1 {
      BlockStartIncreasing(o2, o1, m);
    }
  }

  /** Upload number `q` of batch element `outer` stands at offset `q` of
      that element's block. */
  lemma UploadsLayout(vars: seq<Variable>, outer: nat, count: nat, imageSize: nat, numPoints: int)
    requires WellRanked(vars) && AllHandled(vars) && outer < count
    ensures var ups := Uploads(vars, outer, 0);
      forall q | 0 <= q < |ups| :: LaidOut(ups[q], outer, BlockStart(outer, |vars|) + q, vars, count, imageSize, numPoints)
  {
  }

  /** The block of batch element `from` is followed by the blocks of the
      later batch elements. */
  lemma BatchBlocksAt(vars: seq<Variable>, from: nat, count: nat, imageSize: nat, numPoints: int, q: nat)
    requires from < count && WellRanked(vars) && AllHandled(vars)
    requires q < |BatchBlocks(vars, from, count, imageSize, numPoints)|
    ensures var blocks := BatchBlocks(vars, from, count, imageSize, numPoints);
      var rest := BatchBlocks(vars, from + 1, count, imageSize, numPoints);
      && |blocks| == |vars| + 1 + |rest|
      && (q < |vars| ==> blocks[q] == Uploads(vars, from, 0)[q])
      && (q == |vars| ==> blocks[q] == Render(from, numPoints, BatchSpan(from, imageSize)))
      && (q > |vars| ==> blocks[q] == rest[q - (|vars| + 1)])
  {
    var head := Uploads(vars, from, 0) + [Render(from, numPoints, BatchSpan(from, imageSize))];
    assert BatchBlocks(vars, from, count, imageSize, numPoints)
           == head + BatchBlocks(vars, from + 1, count, imageSize, numPoints);
  }

  /** The blocks of the batch elements from `from` on end where the
      return of the rasterizer is placed. */
  lemma {:induction false} BatchBlocksLength(vars: seq<Variable>, from: nat, count: nat, imageSize: nat,
                                             numPoints: int)
    requires from <= count && WellRanked(vars) && AllHandled(vars)
    ensures BlockStart(from, |vars|) + |BatchBlocks(vars, from, count, imageSize, numPoints)| == BlockStart(count, |vars|)
    decreases count - from
  {
    if from < count {
      BatchBlocksLength(vars, from + 1, count, imageSize, numPoints);
      BatchBlocksAt(vars, from, count, imageSize, numPoints, 0);
    }
  }

  /** Call number `q` of the blocks from batch element `from` on is an
      upload or render the plan is meant to make, and `Position` places it
      at its index. */
  lemma {:induction false} BatchBlocksCallAt(vars: seq<Variable>, from: nat, count: nat, imageSize: nat,
                                             numPoints: int, q: nat)
    requires from <= count && WellRanked(vars) && AllHandled(vars)
    requires q < |BatchBlocks(vars, from, count, imageSize, numPoints)|
    ensures LaidOut(BatchBlocks(vars, from, count, imageSize, numPoints)[q], from, BlockStart(from, |vars|) + q,
                    vars, count, imageSize, numPoints)
    decreases count - from
  {
    var m := |vars|;
    assert from < count;
    BatchBlocksAt(vars, from, count, imageSize, numPoints, q);
    if q < m {
      BlockUploadLaidOut(vars, from, count, imageSize, numPoints, q);
    } else if q == m {
      BlockRenderLaidOut(vars, from, count, imageSize, numPoints);
    } else {
      BatchBlocksCallAt(vars, from + 1, count, imageSize, numPoints, q - (m + 1));
      LaterBlockLaidOut(vars, from, count, imageSize, numPoints, q);
    }
  }

  /** The uploads open the block of batch element `from`. */
  lemma BlockUploadLaidOut(vars: seq<Variable>, from: nat, count: nat, imageSize: nat, numPoints: int, q: nat)
    requires from < count && WellRanked(vars) && AllHandled(vars) && q < |vars|
    ensures q < |BatchBlocks(vars, from, count, imageSize, numPoints)|
    ensures LaidOut(BatchBlocks(vars, from, count, imageSize, numPoints)[q], from, BlockStart(from, |vars|) + q,
                    vars, count, imageSize, numPoints)
  {
    BatchBlocksAt(vars, from, count, imageSize, numPoints, q);
    UploadsLayout(vars, from, count, imageSize, numPoints);
    assert LaidOut(Uploads(vars, from, 0)[q], from, BlockStart(from, |vars|) + q, vars, count, imageSize, numPoints);
  }

  /** The render closes the block of batch element `from`. */
  lemma BlockRenderLaidOut(vars: seq<Variable>, from: nat, count: nat, imageSize: nat, numPoints: int)
    requires from < count && WellRanked(vars) && AllHandled(vars)
    ensures |vars| < |BatchBlocks(vars, from, count, imageSize, numPoints)|
    ensures LaidOut(BatchBlocks(vars, from, count, imageSize, numPoints)[|vars|], from,
                    BlockStart(from, |vars|) + |vars|, vars, count, imageSize, numPoints)
  {
    BatchBlocksAt(vars, from, count, imageSize, numPoints, |vars|);
    RenderLaidOut(vars, from, count, imageSize, numPoints);
  }

  /** A call after the block of batch element `from` is laid out as it is
      among the blocks from `from + 1` on, one block further. */
  lemma LaterBlockLaidOut(vars: seq<Variable>, from: nat, count: nat, imageSize: nat, numPoints: int, q: nat)
    requires from < count && WellRanked(vars) && AllHandled(vars)
    requires |vars| < q < |BatchBlocks(vars, from, count, imageSize, numPoints)|
    requires var k := q - (|vars| + 1);
      && k < |BatchBlocks(vars, from + 1, count, imageSize, numPoints)|
      && LaidOut(BatchBlocks(vars, from + 1, count, imageSize, numPoints)[k], from + 1,
                 BlockStart(from + 1, |vars|) + k, vars, count, imageSize, numPoints)
    ensures LaidOut(BatchBlocks(vars, from, count, imageSize, numPoints)[q], from, BlockStart(from, |vars|) + q,
                    vars, count, imageSize, numPoints)
  {
    var k := q - (|vars| + 1);
    BatchBlocksAt(vars, from, count, imageSize, numPoints, q);
    ShiftLaidOut(BatchBlocks(vars, from + 1, count, imageSize, numPoints)[k], from, k,
                 vars, count, imageSize, numPoints);
  }

  /** The render of batch element `from` stands after its `m` uploads. */
  lemma RenderLaidOut(vars: seq<Variable>, from: nat, count: nat, imageSize: nat, numPoints: int)
    requires from < count && WellRanked(vars)
    ensures LaidOut(Render(from, numPoints, BatchSpan(from, imageSize)), from, BlockStart(from, |vars|) + |vars|,
                    vars, count, imageSize, numPoints)
  {
  }

  /** A call laid out among the blocks from batch element `from + 1` on is
      laid out among those from `from` on, one block further. */
  lemma ShiftLaidOut(c: Call, from: nat, k: nat, vars: seq<Variable>, count: nat, imageSize: nat, numPoints: int)
    requires WellRanked(vars)
    requires LaidOut(c, from + 1, BlockStart(from + 1, |vars|) + k, vars, count, imageSize, numPoints)
    ensures LaidOut(c, from, BlockStart(from, |vars|) + |vars| + 1 + k, vars, count, imageSize, numPoints)
  {
  }

  /** Every call of the blocks from batch element `from` on stands at its
      `Position`, and the blocks end where the block of `count` would start. */
  lemma BatchBlocksLayout(vars: seq<Variable>, from: nat, count: nat, imageSize: nat, numPoints: int)
    requires from <= count && WellRanked(vars) && AllHandled(vars)
    ensures var blocks := BatchBlocks(vars, from, count, imageSize, numPoints);
      && BlockStart(from, |vars|) + |blocks| == BlockStart(count, |vars|)
      && forall q | 0 <= q < |blocks| ::
           LaidOut(blocks[q], from, BlockStart(from, |vars|) + q, vars, count, imageSize, numPoints)
  {
    BatchBlocksLength(vars, from, count, imageSize, numPoints);
    forall q | 0 <= q < |BatchBlocks(vars, from, count, imageSize, numPoints)|
      ensures LaidOut(BatchBlocks(vars, from, count, imageSize, numPoints)[q], from, BlockStart(from, |vars|) + q,
                      vars, count, imageSize, numPoints)
    {
      BatchBlocksCallAt(vars, from, count, imageSize, numPoints, q);
    }
  }

  /** The plan starts with the allocation of the output and the acquisition
      of a rasterizer and ends with its return; in between every call is an
      upload or a render the plan is meant to make, and each call's index in
      the plan is its `Position`, so no call occurs twice and the calls are
      ordered by batch element, uploads before render. */
  lemma PlanLayout(vars: seq<Variable>, batch: Shape, resolution: Shape, numPoints: int)
    requires |resolution| >= 2 && WellRanked(vars) && AllHandled(vars)
    ensures var plan := Plan(vars, batch, resolution, numPoints);
      var n := NumElements(batch);
      && |plan| == BlockStart(n, |vars|) + 1
      && plan[0] == AllocateOutput(OutputShape(batch, resolution))
      && plan[1] == AcquireResource
      && plan[|plan| - 1] == ReturnResource
      && forall p | 0 <= p < |plan| ::
           && Position(plan[p], |vars|, n) == p
           && Planned(plan[p], vars, n, ImageSize(resolution), numPoints)
  {
    var plan := Plan(vars, batch, resolution, numPoints);
    var n := NumElements(batch);
    var m := |vars|;
    var size := ImageSize(resolution);
    var blocks := BatchBlocks(vars, 0, n, size, numPoints);
    BatchBlocksLayout(vars, 0, n, size, numPoints);
    assert plan == [AllocateOutput(OutputShape(batch, resolution)), AcquireResource] + blocks + [ReturnResource];
    forall p | 0 <= p < |plan|
      ensures Position(plan[p], m, n) == p && Planned(plan[p], vars, n, size, numPoints)
    {
      if 2 <= p < |plan| - 1 {
        assert plan[p] == blocks[p - 2];
        assert LaidOut(blocks[p - 2], 0, BlockStart(0, m) + (p - 2), vars, n, size, numPoints);
      }
    }
  }

  /** No call occurs twice in the plan: each stands at its own position. */
  lemma PlanHasNoRepeats(vars: seq<Variable>, batch: Shape, resolution: Shape, numPoints: int)
    requires |resolution| >= 2 && WellRanked(vars) && AllHandled(vars)
    ensures var plan := Plan(vars, batch, resolution, numPoints);
      forall p, q | 0 <= p < q < |plan| :: plan[p] != plan[q]
  {
    var plan := Plan(vars, batch, resolution, numPoints);
    PlanLayout(vars, batch, resolution, numPoints);
    forall p, q | 0 <= p < q < |plan|
      ensures plan[p] != plan[q]
    {
      assert Position(plan[p], |vars|, NumElements(batch)) == p;
    }
  }

  /** The call at offset `idx` of the block of batch element `i`: the
      upload of variable `idx`, or the render when `idx` is the number of
      variables. */
  lemma PlanStepAt(vars: seq<Variable>, batch: Shape, resolution: Shape, numPoints: int, i: nat, idx: nat)
    requires |resolution| >= 2 && WellRanked(vars) && AllHandled(vars)
    requires i < NumElements(batch) && idx <= |vars|
    ensures var plan := Plan(vars, batch, resolution, numPoints);
      var p := BlockStart(i, |vars|) + idx;
      && p < |plan|
      && (idx < |vars| ==> plan[p] == SliceCall(vars[idx], i, idx).value)
      && (idx == |vars| ==> plan[p] == Render(i, numPoints, ImageSpan(i, resolution)))
  {
    var plan := Plan(vars, batch, resolution, numPoints);
    var n := NumElements(batch);
    var m := |vars|;
    var p := BlockStart(i, m) + idx;
    PlanLayout(vars, batch, resolution, numPoints);
    BlockStartIncreasing(i, n, m);
    var c := plan[p];
    assert Position(c, m, n) == p;
    if c.IsUpload() {
      SameBlock(c.outer, c.index, i, idx, m);
    } else if c.Render? {
      SameBlock(c.outer, m, i, idx, m);
    }
  }

  /** Every upload of every variable for every batch element, and the render
      of every batch element into its image, is in the plan. */
  lemma PlanHasEveryStep(vars: seq<Variable>, batch: Shape, resolution: Shape, numPoints: int)
    requires |resolution| >= 2 && WellRanked(vars) && AllHandled(vars)
    ensures var plan := Plan(vars, batch, resolution, numPoints);
      && (forall i: nat, idx: nat | i < NumElements(batch) && idx < |vars| ::
            SliceCall(vars[idx], i, idx).value in plan)
      && (forall i: nat | i < NumElements(batch) :: Render(i, numPoints, ImageSpan(i, resolution)) in plan)
  {
    var plan := Plan(vars, batch, resolution, numPoints);
    forall i: nat, idx: nat | i < NumElements(batch) && idx < |vars|
      ensures SliceCall(vars[idx], i, idx).value in plan
    {
      PlanStepAt(vars, batch, resolution, numPoints, i, idx);
    }
    forall i: nat | i < NumElements(batch)
      ensures Render(i, numPoints, ImageSpan(i, resolution)) in plan
    {
      PlanStepAt(vars, batch, resolution, numPoints, i, |vars|);
    }
  }

  /** Two loop calls of the plan stand in the plan in the order the loop
      makes them. */
  lemma PositionOrder(a: Call, b: Call, vars: seq<Variable>, count: nat, imageSize: nat, numPoints: int)
    requires WellRanked(vars) && a.InLoop() && b.InLoop()
    requires Planned(a, vars, count, imageSize, numPoints) && Planned(b, vars, count, imageSize, numPoints)
    requires Position(a, |vars|, count) < Position(b, |vars|, count)
    ensures a.Precedes(b)
  {
    var m := |vars|;
    if a.outer > b.outer {
      BlockStartIncreasing(b.outer, a.outer, m);
    }
  }

  // ---------------------------------------------------------------------
  // Consequences for Compute
  // ---------------------------------------------------------------------

  /** The calls `RenderAll` makes are a prefix of the plan, each at the
      index `Position` gives it. */
  lemma RenderAllIsPrefix(vars: seq<Variable>, batch: Shape, resolution: Shape, numPoints: int,
                          succeeds: Call -> bool)
    requires |resolution| >= 2 && WellRanked(vars) && AllHandled(vars)
    ensures var o := RenderAll(vars, batch, resolution, numPoints, succeeds);
      var plan := Plan(vars, batch, resolution, numPoints);
      && |o.trace| <= |plan|
      && o.trace == plan[..|o.trace|]
      && forall j | 0 <= j < |o.trace| ::
           && Position(o.trace[j], |vars|, NumElements(batch)) == j
           && Planned(o.trace[j], vars, NumElements(batch), ImageSize(resolution), numPoints)
  {
    var plan := Plan(vars, batch, resolution, numPoints);
    RenderAllFollowsPlan(vars, batch, resolution, numPoints, succeeds);
    ExecuteStopsAtFirstFailure(plan, succeeds);
    PlanLayout(vars, batch, resolution, numPoints);
    var o := RenderAll(vars, batch, resolution, numPoints, succeeds);
    forall j | 0 <= j < |o.trace|
      ensures o.trace[j] == plan[j]
    {
    }
  }

  /** Once validation has passed, `Compute` first allocates the output,
      then acquires a rasterizer; every later call is a loop call of the
      plan, except possibly a final return of the rasterizer; and the loop
      calls come in loop order, each batch element's uploads in variable
      order before its render. */
  lemma ComputeCallOrder(op: RasterizeOp, values: seq<Tensor>, numPoints: int, succeeds: Call -> bool)
    requires |op.resolution| >= 2
    requires ValidateVariables(op.names, op.kinds, values).Ok?
    ensures var o := Compute.Compute(op, values, numPoints, succeeds);
      var batch := ValidateVariables(op.names, op.kinds, values).value;
      var vars := Zip(op.names, op.kinds, values);
      && |o.trace| >= 1
      && o.trace[0] == AllocateOutput(OutputShape(batch, op.resolution))
      && (|o.trace| >= 2 ==> o.trace[1] == AcquireResource)
      && (forall j | 2 <= j < |o.trace| :: o.trace[j].InLoop() || (o.trace[j].ReturnResource? && j == |o.trace| - 1))
      && (forall j | 0 <= j < |o.trace| ::
            Planned(o.trace[j], vars, NumElements(batch), ImageSize(op.resolution), numPoints))
      && (forall j, k | 2 <= j < k < |o.trace| && o.trace[k].InLoop() ::
            o.trace[j].InLoop() && o.trace[j].Precedes(o.trace[k]))
  {
    var batch := ValidateVariables(op.names, op.kinds, values).value;
    var vars := Zip(op.names, op.kinds, values);
    RenderAllTraceShape(vars, batch, op.resolution, numPoints, succeeds);
    RenderAllLoopOrder(vars, batch, op.resolution, numPoints, succeeds);
  }

  /** `RenderAll` starts with the allocation and the acquisition, and
      makes only calls of the plan. */
  lemma RenderAllTraceShape(vars: seq<Variable>, batch: Shape, resolution: Shape, numPoints: int,
                            succeeds: Call -> bool)
    requires |resolution| >= 2 && WellRanked(vars) && AllHandled(vars)
    ensures var o := RenderAll(vars, batch, resolution, numPoints, succeeds);
      && |o.trace| >= 1
      && o.trace[0] == AllocateOutput(OutputShape(batch, resolution))
      && (|o.trace| >= 2 ==> o.trace[1] == AcquireResource)
      && (forall j | 2 <= j < |o.trace| :: o.trace[j].InLoop() || (o.trace[j].ReturnResource? && j == |o.trace| - 1))
      && (forall j | 0 <= j < |o.trace| ::
            Planned(o.trace[j], vars, NumElements(batch), ImageSize(resolution), numPoints))
  {
    var o := RenderAll(vars, batch, resolution, numPoints, succeeds);
    var plan := Plan(vars, batch, resolution, numPoints);
    RenderAllIsPrefix(vars, batch, resolution, numPoints, succeeds);
    PlanLayout(vars, batch, resolution, numPoints);
    assert o.trace[0] == plan[0];
    if |o.trace| >= 2 {
      assert o.trace[1] == plan[1];
    }
  }

  /** `RenderAll` makes its loop calls in loop order. */
  lemma RenderAllLoopOrder(vars: seq<Variable>, batch: Shape, resolution: Shape, numPoints: int,
                           succeeds: Call -> bool)
    requires |resolution| >= 2 && WellRanked(vars) && AllHandled(vars)
    ensures var o := RenderAll(vars, batch, resolution, numPoints, succeeds);
      forall j, k | 2 <= j < k < |o.trace| && o.trace[k].InLoop() ::
        o.trace[j].InLoop() && o.trace[j].Precedes(o.trace[k])
  {
    var o := RenderAll(vars, batch, resolution, numPoints, succeeds);
    var n := NumElements(batch);
    RenderAllIsPrefix(vars, batch, resolution, numPoints, succeeds);
    RenderAllTraceShape(vars, batch, resolution, numPoints, succeeds);
    forall j, k | 2 <= j < k < |o.trace| && o.trace[k].InLoop()
      ensures o.trace[j].InLoop() && o.trace[j].Precedes(o.trace[k])
    {
      PositionOrder(o.trace[j], o.trace[k], vars, n, ImageSize(resolution), numPoints);
    }
  }

  /** How `RenderAll` ends: it succeeds exactly when every call of the
      plan succeeds, having made them all; otherwise its last call is the
      first that failed and its error is that call's. */
  lemma RenderAllOutcome(vars: seq<Variable>, batch: Shape, resolution: Shape, numPoints: int,
                         succeeds: Call -> bool)
    requires |resolution| >= 2 && WellRanked(vars) && AllHandled(vars)
    ensures var o := RenderAll(vars, batch, resolution, numPoints, succeeds);
      var plan := Plan(vars, batch, resolution, numPoints);
      && (o.status.Ok? <==> forall j | 0 <= j < |plan| :: succeeds(plan[j]))
      && (o.status.Ok? ==> o.trace == plan)
      && (o.status.Err? ==>
            && |o.trace| >= 1
            && !succeeds(o.trace[|o.trace| - 1])
            && o.status.error == CallFailed(o.trace[|o.trace| - 1])
            && forall j | 0 <= j < |o.trace| - 1 :: succeeds(o.trace[j]))
  {
    RenderAllFollowsPlan(vars, batch, resolution, numPoints, succeeds);
    ExecuteStopsAtFirstFailure(Plan(vars, batch, resolution, numPoints), succeeds);
  }

  /** `RenderAll` returns the rasterizer to the pool exactly when every call
      of the plan before the return succeeded. */
  lemma RenderAllReturnsRasterizer(vars: seq<Variable>, batch: Shape, resolution: Shape, numPoints: int,
                                   succeeds: Call -> bool)
    requires |resolution| >= 2 && WellRanked(vars) && AllHandled(vars)
    ensures var o := RenderAll(vars, batch, resolution, numPoints, succeeds);
      var plan := Plan(vars, batch, resolution, numPoints);
      && (ReturnResource in o.trace <==> forall j | 0 <= j < |plan| - 1 :: succeeds(plan[j]))
      && (o.status.Err? && o.status.error.CallFailed? && o.status.error.call.InLoop() ==>
            ReturnResource !in o.trace)
  {
    var o := RenderAll(vars, batch, resolution, numPoints, succeeds);
    var plan := Plan(vars, batch, resolution, numPoints);
    var n := NumElements(batch);
    RenderAllOutcome(vars, batch, resolution, numPoints, succeeds);
    RenderAllIsPrefix(vars, batch, resolution, numPoints, succeeds);
    PlanLayout(vars, batch, resolution, numPoints);
    if ReturnResource in o.trace {
      var j :| 0 <= j < |o.trace| && o.trace[j] == ReturnResource;
      assert Position(o.trace[j], |vars|, n) == |plan| - 1;
      forall i | 0 <= i < |plan| - 1
        ensures succeeds(plan[i])
      {
        assert plan[i] == o.trace[i];
      }
    }
    if forall j | 0 <= j < |plan| - 1 :: succeeds(plan[j]) {
      if o.status.Err? {
        assert o.trace[|o.trace| - 1] == plan[|o.trace| - 1];
      }
      assert o.trace[|plan| - 1] == plan[|plan| - 1];
    }
  }

  /** Once validation has passed, `Compute` is `RenderAll` on the zipped
      variables and the batch shape validation found. */
  lemma ComputeIsRenderAll(op: RasterizeOp, values: seq<Tensor>, numPoints: int, succeeds: Call -> bool)
    requires |op.resolution| >= 2
    requires ValidateVariables(op.names, op.kinds, values).Ok?
    ensures Compute.Compute(op, values, numPoints, succeeds)
            == RenderAll(Zip(op.names, op.kinds, values), ValidateVariables(op.names, op.kinds, values).value,
                         op.resolution, numPoints, succeeds)
    ensures ComputePlan(op, values, numPoints)
            == Plan(Zip(op.names, op.kinds, values), ValidateVariables(op.names, op.kinds, values).value,
                    op.resolution, numPoints)
  {
  }

  /** Once validation has passed, `Compute` succeeds exactly when every
      call of the plan succeeds, and then it has made them all. Otherwise
      its last call is the first that failed and that call's error is its
      result. The rasterizer goes back to the pool exactly when every call
      before the return succeeded: when an upload or a render fails,
      `Compute` returns without returning the rasterizer. */
  lemma ComputeOutcome(op: RasterizeOp, values: seq<Tensor>, numPoints: int, succeeds: Call -> bool)
    requires |op.resolution| >= 2
    requires ValidateVariables(op.names, op.kinds, values).Ok?
    ensures var o := Compute.Compute(op, values, numPoints, succeeds);
      var plan := ComputePlan(op, values, numPoints);
      && (o.status.Ok? <==> forall j | 0 <= j < |plan| :: succeeds(plan[j]))
      && (o.status.Ok? ==> o.trace == plan)
      && (o.status.Err? ==>
            && |o.trace| >= 1
            && !succeeds(o.trace[|o.trace| - 1])
            && o.status.error == CallFailed(o.trace[|o.trace| - 1])
            && forall j | 0 <= j < |o.trace| - 1 :: succeeds(o.trace[j]))
      && (ReturnResource in o.trace <==> forall j | 0 <= j < |plan| - 1 :: succeeds(plan[j]))
      && (o.status.Err? && o.status.error.CallFailed? && o.status.error.call.InLoop() ==>
            ReturnResource !in o.trace)
  {
    var batch := ValidateVariables(op.names, op.kinds, values).value;
    var vars := Zip(op.names, op.kinds, values);
    ComputeIsRenderAll(op, values, numPoints, succeeds);
    RenderAllOutcome(vars, batch, op.resolution, numPoints, succeeds);
    RenderAllReturnsRasterizer(vars, batch, op.resolution, numPoints, succeeds);
  }

  /** A successful `Compute` has uploaded every variable's slice for every
      batch element and rendered every batch element into its image, in
      exactly 3 + batch size * (variables + 1) calls, none of them twice. */
  lemma ComputeRendersEveryBatch(op: RasterizeOp, values: seq<Tensor>, numPoints: int, succeeds: Call -> bool)
    requires |op.resolution| >= 2
    requires ValidateVariables(op.names, op.kinds, values).Ok?
    ensures var o := Compute.Compute(op, values, numPoints, succeeds);
      var n := NumElements(ValidateVariables(op.names, op.kinds, values).value);
      var vars := Zip(op.names, op.kinds, values);
      o.status.Ok? ==>
        && |o.trace| == 3 + n * (|vars| + 1)
        && (forall i: nat, idx: nat | i < n && idx < |vars| :: SliceCall(vars[idx], i, idx).value in o.trace)
        && (forall i: nat | i < n :: Render(i, numPoints, ImageSpan(i, op.resolution)) in o.trace)
        && (forall p, q | 0 <= p < q < |o.trace| :: o.trace[p] != o.trace[q])
  {
    var batch := ValidateVariables(op.names, op.kinds, values).value;
    var vars := Zip(op.names, op.kinds, values);
    ComputeIsRenderAll(op, values, numPoints, succeeds);
    RenderAllOutcome(vars, batch, op.resolution, numPoints, succeeds);
    PlanHasEveryStep(vars, batch, op.resolution, numPoints);
    PlanLayout(vars, batch, op.resolution, numPoints);
    PlanHasNoRepeats(vars, batch, op.resolution, numPoints);
  }

  /** A loop call of the plan reads inside its variable's value and, with
      a two-dimensional resolution, writes inside the output. */
  lemma PlannedCallInBounds(op: RasterizeOp, values: seq<Tensor>, numPoints: int, c: Call)
    requires |op.resolution| == 2
    requires ValidateVariables(op.names, op.kinds, values).Ok?
    requires var batch := ValidateVariables(op.names, op.kinds, values).value;
      Planned(c, Zip(op.names, op.kinds, values), NumElements(batch), ImageSize(op.resolution), numPoints)
    ensures var batch := ValidateVariables(op.names, op.kinds, values).value;
      && (c.IsUpload() ==> c.index < |values| && c.data.end <= NumElements(values[c.index].shape))
      && (c.Render? ==> c.image.end <= NumElements(OutputShape(batch, op.resolution)))
  {
    var batch := ValidateVariables(op.names, op.kinds, values).value;
    if c.IsUpload() {
      ValidatedSlicesInBounds(op.names, op.kinds, values, c.index, c.outer);
    } else if c.Render? {
      OutputElementCount(batch, op.resolution);
      BatchSpanInBounds(c.outer, NumElements(batch), ImageSize(op.resolution));
    }
  }

  /** Every buffer `Compute` hands to the rasterizer lies inside the data
      it is taken from: an upload inside its variable's value, and, with a
      two-dimensional resolution, a render's image inside the output. */
  lemma ComputeStaysInBounds(op: RasterizeOp, values: seq<Tensor>, numPoints: int, succeeds: Call -> bool)
    requires |op.resolution| == 2
    requires ValidateVariables(op.names, op.kinds, values).Ok?
    ensures var o := Compute.Compute(op, values, numPoints, succeeds);
      var batch := ValidateVariables(op.names, op.kinds, values).value;
      && (forall j | 0 <= j < |o.trace| && o.trace[j].IsUpload() ::
            o.trace[j].index < |values| && o.trace[j].data.end <= NumElements(values[o.trace[j].index].shape))
      && (forall j | 0 <= j < |o.trace| && o.trace[j].Render? ::
            o.trace[j].image.end <= NumElements(OutputShape(batch, op.resolution)))
  {
    var o := Compute.Compute(op, values, numPoints, succeeds);
    var batch := ValidateVariables(op.names, op.kinds, values).value;
    var vars := Zip(op.names, op.kinds, values);
    ComputeIsRenderAll(op, values, numPoints, succeeds);
    RenderAllTraceShape(vars, batch, op.resolution, numPoints, succeeds);
    forall j | 0 <= j < |o.trace|
      ensures o.trace[j].IsUpload() ==>
                o.trace[j].index < |values| && o.trace[j].data.end <= NumElements(values[o.trace[j].index].shape)
      ensures o.trace[j].Render? ==> o.trace[j].image.end <= NumElements(OutputShape(batch, op.resolution))
    {
      PlannedCallInBounds(op, values, numPoints, o.trace[j]);
    }
  }
}
