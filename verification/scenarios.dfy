/**
 Concrete inputs of the rasterize kernel and the results the model is
 proved to give for them: a matrix and a buffer variable that agree on
 their batch shape, one that does not, a variable of an integer type, a
 matrix with too few dimensions, a whole `Compute` call in which every
 foreign call succeeds, and a three-dimensional resolution whose renders
 reach past the output.
 */
module Scenarios {
  import opened Shapes
  import opened Spans
  import opened Variables
  import opened Calls
  import opened Status
  import opened Validation
  import opened Kernel
  import opened Slicing
  import opened Output
  import opened Compute
  import opened CallPlan
  import opened ComputeTrace

  /** A float (5, 3, 3) matrix and a float (5, 8) buffer share the batch
      shape (5); a (4, 8) buffer instead is reported by name with its batch
      shape (4). */
  lemma BatchShapeExample()
    ensures ValidateVariables(["m", "b"], [Mat, Buffer], [Tensor([5, 3, 3], Float), Tensor([5, 8], Float)])
            == Ok([5])
    ensures ValidateVariables(["m", "b"], [Mat, Buffer], [Tensor([5, 3, 3], Float), Tensor([4, 8], Float)])
            == Err(IncompatibleBatchShape("b", [4]))
  {
    var good := Zip(["m", "b"], [Mat, Buffer], [Tensor([5, 3, 3], Float), Tensor([5, 8], Float)]);
    assert good[0].BatchShape() == [5];
    assert good[1].BatchShape() == [5];
    var bad := Zip(["m", "b"], [Mat, Buffer], [Tensor([5, 3, 3], Float), Tensor([4, 8], Float)]);
    assert bad[0].BatchShape() == [5];
    assert bad[1].BatchShape() == [4];
  }

  /** A matrix variable holding integers is rejected by validation with its
      name, kind and type, and by slicing also with its shape. */
  lemma UnhandledTypeExample()
    ensures ValidateVariables(["m"], [Mat], [Tensor([2, 3, 3], OtherDType(3))])
            == Err(UnhandledVariable("m", Mat, OtherDType(3)))
    ensures SliceCall(Variable("m", Mat, Tensor([2, 3, 3], OtherDType(3))), 0, 0)
            == Err(UnhandledVariableWithShape("m", Mat, [2, 3, 3], OtherDType(3)))
  {
    assert Zip(["m"], [Mat], [Tensor([2, 3, 3], OtherDType(3))])[0] == Variable("m", Mat, Tensor([2, 3, 3], OtherDType(3)));
  }

  /** A float matrix with a single dimension trips the fatal check of
      `RemoveLastDims`, and `Compute` stops there before any foreign call.
      The check is only reached in loop order: an earlier unhandled
      variable or an earlier batch-shape mismatch is reported instead. */
  lemma RankCheckExample()
    ensures ValidateVariables(["m"], [Mat], [Tensor([5], Float)]) == Err(RankCheckAbort("m", [5]))
    ensures Compute.Compute(RasterizeOp(["m"], [Mat], [4, 4]), [Tensor([5], Float)], 0, NoneFails)
            == Outcome([], Err(RankCheckAbort("m", [5])))
    ensures ValidateVariables(["a", "m"], [Buffer, Mat], [Tensor([3], OtherDType(3)), Tensor([5], Float)])
            == Err(UnhandledVariable("a", Buffer, OtherDType(3)))
    ensures ValidateVariables(["a", "b", "m"], [Buffer, Buffer, Mat],
                              [Tensor([5, 8], Float), Tensor([4, 8], Float), Tensor([3], Float)])
            == Err(IncompatibleBatchShape("b", [4]))
  {
    var single := Zip(["m"], [Mat], [Tensor([5], Float)]);
    assert single[0] == Variable("m", Mat, Tensor([5], Float));
    var unhandled := Zip(["a", "m"], [Buffer, Mat], [Tensor([3], OtherDType(3)), Tensor([5], Float)]);
    assert unhandled[0] == Variable("a", Buffer, Tensor([3], OtherDType(3)));
    var mismatch := Zip(["a", "b", "m"], [Buffer, Buffer, Mat],
                        [Tensor([5, 8], Float), Tensor([4, 8], Float), Tensor([3], Float)]);
    assert mismatch[0].BatchShape() == [5];
    assert mismatch[1].BatchShape() == [4];
  }

  /** A run in which no foreign call fails. */
  predicate NoneFails(c: Call) {
    true
  }

  /** The variables of the end-to-end example: a (2, 4, 4) float matrix and
      a (2, 8) float buffer. */
  function ExampleVars(): seq<Variable> {
    [Variable("m", Mat, Tensor([2, 4, 4], Float)), Variable("b", Buffer, Tensor([2, 8], Float))]
  }

  lemma ExampleUploads(outer: nat)
    ensures SetVariables(ExampleVars(), outer, 0, NoneFails)
            == Outcome([SetUniformMatrix(outer, 0, "m", 4, 4, true, BatchSpan(outer, 16)),
                        SetShaderStorageBuffer(outer, 1, "b", BatchSpan(outer, 8))], Ok(()))
  {
    var vars := ExampleVars();
    assert SetVariables(vars, outer, 2, NoneFails) == Outcome([], Ok(()));
    assert SliceCall(vars[1], outer, 1) == Ok(SetShaderStorageBuffer(outer, 1, "b", BatchSpan(outer, 8)));
    assert SliceCall(vars[0], outer, 0) == Ok(SetUniformMatrix(outer, 0, "m", 4, 4, true, BatchSpan(outer, 16)));
  }

  lemma ExampleLastBatch(numPoints: int)
    ensures RenderBatches(ExampleVars(), 1, 2, 64, numPoints, NoneFails)
            == Outcome([SetUniformMatrix(1, 0, "m", 4, 4, true, Span(16, 32)),
                        SetShaderStorageBuffer(1, 1, "b", Span(8, 16)),
                        Render(1, numPoints, Span(64, 128))], Ok(()))
  {
    ExampleUploads(1);
    assert RenderBatches(ExampleVars(), 2, 2, 64, numPoints, NoneFails) == Outcome([], Ok(()));
  }

  lemma ExampleFirstBatch(numPoints: int)
    ensures SetVariables(ExampleVars(), 0, 0, NoneFails).status.Ok?
    ensures SetVariables(ExampleVars(), 0, 0, NoneFails).trace + [Render(0, numPoints, BatchSpan(0, 64))]
            == [SetUniformMatrix(0, 0, "m", 4, 4, true, Span(0, 16)),
                SetShaderStorageBuffer(0, 1, "b", Span(0, 8)),
                Render(0, numPoints, Span(0, 64))]
  {
    ExampleUploads(0);
  }

  lemma ExampleLoop(numPoints: int)
    ensures RenderBatches(ExampleVars(), 0, 2, 64, numPoints, NoneFails)
            == Outcome([SetUniformMatrix(0, 0, "m", 4, 4, true, Span(0, 16)),
                        SetShaderStorageBuffer(0, 1, "b", Span(0, 8)),
                        Render(0, numPoints, Span(0, 64)),
                        SetUniformMatrix(1, 0, "m", 4, 4, true, Span(16, 32)),
                        SetShaderStorageBuffer(1, 1, "b", Span(8, 16)),
                        Render(1, numPoints, Span(64, 128))], Ok(()))
  {
    var vars := ExampleVars();
    var ups := SetVariables(vars, 0, 0, NoneFails);
    var rest := RenderBatches(vars, 1, 2, 64, numPoints, NoneFails);
    ExampleFirstBatch(numPoints);
    ExampleLastBatch(numPoints);
    assert RenderBatches(vars, 0, 2, 64, numPoints, NoneFails)
           == Outcome(ups.trace + [Render(0, numPoints, BatchSpan(0, 64))] + rest.trace, rest.status);
  }

  lemma ExampleValidates()
    ensures Zip(["m", "b"], [Mat, Buffer], [Tensor([2, 4, 4], Float), Tensor([2, 8], Float)]) == ExampleVars()
    ensures ValidateVariables(["m", "b"], [Mat, Buffer], [Tensor([2, 4, 4], Float), Tensor([2, 8], Float)])
            == Ok([2])
  {
    var vars := Zip(["m", "b"], [Mat, Buffer], [Tensor([2, 4, 4], Float), Tensor([2, 8], Float)]);
    assert vars == ExampleVars();
    assert vars[0].BatchShape() == [2];
    assert vars[1].BatchShape() == [2];
  }

  lemma ExampleSizes()
    ensures NumElements([2]) == 2
    ensures ImageSize([4, 4]) == 64
    ensures OutputShape([2], [4, 4]) == [2, 4, 4, 4]
  {
    NumElementsSmall(2, 0, 0);
  }

  /** `RenderAll` when no foreign call fails, in terms of its loop. */
  lemma RenderAllNoneFails(vars: seq<Variable>, batch: Shape, resolution: Shape, numPoints: int)
    requires |resolution| >= 2 && WellRanked(vars)
    requires RenderBatches(vars, 0, NumElements(batch), ImageSize(resolution), numPoints, NoneFails).status.Ok?
    ensures var loop := RenderBatches(vars, 0, NumElements(batch), ImageSize(resolution), numPoints, NoneFails);
      RenderAll(vars, batch, resolution, numPoints, NoneFails)
      == Outcome([AllocateOutput(OutputShape(batch, resolution)), AcquireResource] + loop.trace + [ReturnResource],
                 Ok(OutputShape(batch, resolution)))
  {
  }

  lemma ExampleRenderAll(numPoints: int)
    ensures RenderAll(ExampleVars(), [2], [4, 4], numPoints, NoneFails)
            == Outcome([AllocateOutput([2, 4, 4, 4]), AcquireResource,
                        SetUniformMatrix(0, 0, "m", 4, 4, true, Span(0, 16)),
                        SetShaderStorageBuffer(0, 1, "b", Span(0, 8)),
                        Render(0, numPoints, Span(0, 64)),
                        SetUniformMatrix(1, 0, "m", 4, 4, true, Span(16, 32)),
                        SetShaderStorageBuffer(1, 1, "b", Span(8, 16)),
                        Render(1, numPoints, Span(64, 128)),
                        ReturnResource],
                       Ok([2, 4, 4, 4]))
  {
    ExampleSizes();
    ExampleLoop(numPoints);
    RenderAllNoneFails(ExampleVars(), [2], [4, 4], numPoints);
  }

  /** With a (4, 4) resolution, a (2, 4, 4) matrix and a (2, 8) buffer, a
      run in which no foreign call fails allocates a (2, 4, 4, 4) output,
      acquires a rasterizer, uploads the matrix and the buffer slice of each
      batch element before rendering it into its 64-float image, and
      returns the rasterizer. */
  lemma EndToEndExample(numPoints: int)
    ensures var op := RasterizeOp(["m", "b"], [Mat, Buffer], [4, 4]);
      var values := [Tensor([2, 4, 4], Float), Tensor([2, 8], Float)];
      Compute.Compute(op, values, numPoints, NoneFails)
      == Outcome([AllocateOutput([2, 4, 4, 4]), AcquireResource,
                  SetUniformMatrix(0, 0, "m", 4, 4, true, Span(0, 16)),
                  SetShaderStorageBuffer(0, 1, "b", Span(0, 8)),
                  Render(0, numPoints, Span(0, 64)),
                  SetUniformMatrix(1, 0, "m", 4, 4, true, Span(16, 32)),
                  SetShaderStorageBuffer(1, 1, "b", Span(8, 16)),
                  Render(1, numPoints, Span(64, 128)),
                  ReturnResource],
                 Ok([2, 4, 4, 4]))
  {
    var op := RasterizeOp(["m", "b"], [Mat, Buffer], [4, 4]);
    var values := [Tensor([2, 4, 4], Float), Tensor([2, 8], Float)];
    ExampleValidates();
    ComputeIsRenderAll(op, values, numPoints, NoneFails);
    ExampleRenderAll(numPoints);
  }

  /** The image size only reads the first two resolution dimensions, while
      the output shape takes all of them. With resolution (4, 4, 0) and no
      variables, `Compute` succeeds with an output of no elements, yet hands
      the render of batch element 0 a block of 64 floats of that output. */
  lemma ResolutionOverrunExample(numPoints: int)
    ensures var o := Compute.Compute(RasterizeOp([], [], [4, 4, 0]), [], numPoints, NoneFails);
      && o.status == Ok([4, 4, 0, 4])
      && NumElements([4, 4, 0, 4]) == 0
      && Render(0, numPoints, Span(0, 64)) in o.trace
  {
    OverrunSizes();
    OverrunLoop(numPoints);
    RenderAllNoneFails([], [], [4, 4, 0], numPoints);
    assert Zip([], [], []) == [];
  }

  /** Validation, shapes and sizes of the overrun example. */
  lemma OverrunSizes()
    ensures ValidateVariables([], [], []) == Ok([])
    ensures OutputShape([], [4, 4, 0]) == [4, 4, 0, 4]
    ensures ImageSize([4, 4, 0]) == 64
    ensures NumElements([]) == 1
    ensures NumElements([4, 4, 0, 4]) == 0
  {
    assert NumElements([0, 4]) == 0;
    assert NumElements([4, 0, 4]) == 0;
  }

  /** The batch loop of the overrun example: one render, of 64 floats. */
  lemma OverrunLoop(numPoints: int)
    ensures RenderBatches([], 0, 1, 64, numPoints, NoneFails) == Outcome([Render(0, numPoints, Span(0, 64))], Ok(()))
  {
    assert SetVariables([], 0, 0, NoneFails) == Outcome([], Ok(()));
    assert RenderBatches([], 1, 1, 64, numPoints, NoneFails) == Outcome([], Ok(()));
  }
}
