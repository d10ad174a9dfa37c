# Rasterize op kernel: validation, slicing and call order

A Dafny model of the CPU kernel of the `Rasterize` op in
`tensorflow_graphics/rendering/opengl/rasterizer_op.cc`. The model covers the
kernel's own logic:

- the size checks of the constructor and of the shape function;
- `ValidateVariables`. Every shader variable must be a float `mat` or a float
  `buffer`. Dropping a variable's trailing matrix dimensions (2) or buffer
  dimension (1) leaves its batch shape, and all variables must share that
  batch shape. When a handled variable has fewer dimensions than its kind
  drops, `TensorShape::RemoveLastDims` fails a fatal check and the process
  aborts. The model reports this as the outcome `RankCheckAbort`, at the
  point in the loop where it happens.
- the output shape (batch shape, then resolution, then 4 channels) and the
  block of the flat output each batch element's image is written to;
- `SetVariables`: the rows × columns block or the buffer-length block of
  every variable that belongs to one batch element;
- the control flow of `Compute`. It validates, allocates the output,
  acquires a rasterizer from the pool, then for each batch element uploads
  the variables and renders. Finally it returns the rasterizer. Every step
  returns at once on error.

Shapes are `seq<nat>`. A variable's kind is `Mat` ("mat"), `Buffer`
("buffer") or `OtherKind` (any other string). Its element type is `Float`
or `OtherDType`. Results are `Ok`/`Err` values
(`Status.Result`).

The model never runs a foreign call: output allocation, pool acquire and
return, `SetUniformMatrix`, `SetShaderStorageBuffer` and `Render`. Each is
recorded as a `Calls.Call`, and the parameter `succeeds: Call -> bool`
decides whether it fails. `Compute` returns an `Outcome`: the calls made,
in order, and the final status. A failed call's status is passed on
unchanged as `CallFailed(call)`.

`Compute` is written the way the kernel is written, as nested loops with
early returns. It is checked against an independent reference:

- `CallPlan.Plan` lists every call of a run in which nothing fails.
- `Status.Execute` makes a list of calls until the first one fails.

`ComputeTrace.ComputeFollowsPlan` proves that `Compute` is `Execute` of the
plan. Position arithmetic on the plan (`CallPlan.Position`) then gives
three results:

- the order of the calls;
- that every batch element is rendered exactly once;
- what happens to the rasterizer on every exit path.

On an error inside the batch loop (`rasterizer_op.cc:131-133`),
`OP_REQUIRES_OK` returns before `ReturnResource` (line 135). The
rasterizer is then destroyed by its `unique_ptr` and does not go back to
the pool. `ComputeTrace.ComputeOutcome` states this: after a failed upload
or render, `ReturnResource` is not among the calls made. The pool itself
lives in `thread_safe_resource_pool.h`, outside this file. It appears only
as the `AcquireResource` and `ReturnResource` calls.

Files: `shapes.dfy`, `spans.dfy`, `variables.dfy`, `calls.dfy`,
`status.dfy`, `validation.dfy`, `kernel.dfy`, `slicing.dfy`, `output.dfy`,
`compute.dfy` (the kernel), `plan.dfy` (the reference plan), `trace.dfy`
(the proofs relating them), `scenarios.dfy` (concrete runs).

## Model

All source paths are in `tensorflow_graphics/rendering/opengl/`.

| member | source | states |
|---|---|---|
| Shapes.RemoveLastDims | tensorflow_graphics/rendering/opengl/rasterizer_op.cc:230-233 | removing n trailing dimensions leaves the leading \|s\|-n dimensions, which followed by the removed ones give back the shape |
| Variables.SliceWidthCountsTrailingDims | tensorflow_graphics/rendering/opengl/rasterizer_op.cc:181-191 | the slice width (rows * columns for a matrix, length for a buffer) is the element count of the trailing dimensions validation removes |
| Variables.ValueSplitsIntoSlices | tensorflow_graphics/rendering/opengl/rasterizer_op.cc:181-197 | a handled variable's element count is its batch element count times its slice width |
| Kernel.NewRasterizeOp | tensorflow_graphics/rendering/opengl/rasterizer_op.cc:89-91 | construction succeeds iff there are as many names as kinds, keeps names, kinds and resolution, and otherwise reports the names/kinds size error |
| Kernel.InferShape | tensorflow_graphics/rendering/opengl/rasterizer_op.cc:52-57 | shape inference succeeds iff there are as many names as values, and otherwise reports the names/values size error |
| Kernel.SizeChecksAgree | tensorflow_graphics/rendering/opengl/rasterizer_op.cc:214-218 | for a constructed kernel, validation's size check fails exactly when the shape function's does |
| Validation.ValidateFrom | tensorflow_graphics/rendering/opengl/rasterizer_op.cc:220-247 | from a given variable on, the validation loop succeeds iff no later variable is unhandled, lacks the dimensions its kind removes, or disagrees with the first one's batch shape; on success every such variable is handled, has those dimensions and has the returned batch shape; a failure is an unhandled-variable, rank-check or batch-shape outcome |
| Validation.ValidateFromReportsFirstBad | tensorflow_graphics/rendering/opengl/rasterizer_op.cc:229-246 | when the loop fails, it stopped at the first variable it must stop at, and reports that variable's outcome: unhandled pair, then the rank check, then the batch-shape comparison, in the source's order |
| Validation.ValidateVariables | tensorflow_graphics/rendering/opengl/rasterizer_op.cc:208-249 | the result is the size error iff the three lists differ in length; otherwise success iff no variable is unhandled, lacks the dimensions its kind removes, or has a batch shape other than the first variable's; the batch shape is the first variable's (empty when there are none); a failure names the first offending variable |
| Slicing.SliceCall | tensorflow_graphics/rendering/opengl/rasterizer_op.cc:173-203 | a float matrix becomes a transposed uniform upload with columns = last and rows = second-last dimension, a float buffer a storage-buffer upload; the data is block `outer` of the slice width; any other kind or type is rejected with name, kind, shape and type |
| Slicing.SliceInBounds | tensorflow_graphics/rendering/opengl/rasterizer_op.cc:181-197 | the slice of a batch element below the batch count ends inside the variable's data |
| Slicing.SlicesDisjoint | tensorflow_graphics/rendering/opengl/rasterizer_op.cc:186-197 | slices of different batch elements of a variable do not overlap |
| Slicing.SlicesCoverValue | tensorflow_graphics/rendering/opengl/rasterizer_op.cc:186-197 | every element of a variable's data lies in the slice of some batch element below the batch count |
| Slicing.ValidatedSlicesInBounds | tensorflow_graphics/rendering/opengl/rasterizer_op.cc:181-197 | once validation passed, slicing accepts every variable, and each slice for a batch element below the batch count lies inside that variable's data |
| Slicing.SlicingRejectsOnlyInvalid | tensorflow_graphics/rendering/opengl/rasterizer_op.cc:198-203 | slicing rejects a variable only if validation rejects the list |
| Slicing.SameRejection | tensorflow_graphics/rendering/opengl/rasterizer_op.cc:234-238 | when validation rejects a kind/type pair, slicing rejects the same variable with the same name, kind and type plus its shape |
| Output.ImageSize | tensorflow_graphics/rendering/opengl/rasterizer_op.cc:125-127 | one image holds as many floats as a tensor of shape (first resolution dimension, second resolution dimension, 4) |
| Output.OutputShape | tensorflow_graphics/rendering/opengl/rasterizer_op.cc:117-119 | the output shape is the batch shape, then the resolution, then 4 channels |
| Output.OutputElementCount | tensorflow_graphics/rendering/opengl/rasterizer_op.cc:117-127 | with a two-dimensional resolution, the output holds batch count × image size elements |
| Output.ImageSpansPartitionOutput | tensorflow_graphics/rendering/opengl/rasterizer_op.cc:125-133 | the image blocks `ImageSpan(i)` = [i × image size, (i + 1) × image size) the renders write to (`image_data + i * image_size`) are pairwise disjoint, lie inside the output and cover every output element |
| Compute.SetVariables | tensorflow_graphics/rendering/opengl/rasterizer_op.cc:167-206 | the uploads made are the slice calls of the variables in list order, all of them when it succeeds |
| Compute.RenderBatches | tensorflow_graphics/rendering/opengl/rasterizer_op.cc:130-134 | the loop only uploads and renders, and only for batch elements in its range |
| Compute.RenderAll | tensorflow_graphics/rendering/opengl/rasterizer_op.cc:113-135 | after validation, the first call allocates the output of the output shape and the second acquires a rasterizer; success returns the output shape and ends with the return of the rasterizer |
| Compute.Compute | tensorflow_graphics/rendering/opengl/rasterizer_op.cc:109-136 | a validation error or rank-check abort is returned before any foreign call; success implies validation passed and returns the output shape |
| Status.ExecuteStopsAtFirstFailure | tensorflow_graphics/rendering/opengl/rasterizer_op.cc:129-135 | a chain of early-returning calls makes a prefix of them; it succeeds iff all succeed, and otherwise ends at the first failure with that call's error |
| ComputeTrace.SetVariablesFollowsPlan | tensorflow_graphics/rendering/opengl/rasterizer_op.cc:173-205 | the upload loop is the plan's uploads run until the first failure |
| ComputeTrace.RenderBatchesFollowsPlan | tensorflow_graphics/rendering/opengl/rasterizer_op.cc:130-134 | the batch loop is the plan's blocks run until the first failure |
| ComputeTrace.RenderAllFollowsPlan | tensorflow_graphics/rendering/opengl/rasterizer_op.cc:113-135 | after validation, the calls are the plan's run until the first failure, with the same status |
| ComputeTrace.ComputeFollowsPlan | tensorflow_graphics/rendering/opengl/rasterizer_op.cc:109-136 | for every failure pattern of the foreign calls, `Compute` makes the calls of the plan up to the first failure and fails with that error, or makes all of them and succeeds |
| ComputeTrace.PlanLayout | tensorflow_graphics/rendering/opengl/rasterizer_op.cc:129-135 | the plan is allocate, acquire, loop calls, return; every call stands at its `Position`, so none repeats |
| ComputeTrace.PlanHasEveryStep | tensorflow_graphics/rendering/opengl/rasterizer_op.cc:130-134 | the plan uploads every variable for every batch element and renders every batch element into its image |
| ComputeTrace.PlanHasNoRepeats | tensorflow_graphics/rendering/opengl/rasterizer_op.cc:129-135 | no call occurs twice in the plan |
| ComputeTrace.PositionOrder | tensorflow_graphics/rendering/opengl/rasterizer_op.cc:130-134 | of two loop calls, the one earlier in the plan belongs to an earlier batch element, or to the same one as an earlier upload or before its render |
| ComputeTrace.ComputeCallOrder | tensorflow_graphics/rendering/opengl/rasterizer_op.cc:109-135 | after validation, `Compute` allocates first, acquires second; every later call is a planned loop call except a final return; loop calls come in batch order with uploads in variable order before the render |
| ComputeTrace.ComputeOutcome | tensorflow_graphics/rendering/opengl/rasterizer_op.cc:129-135 | success iff every planned call succeeds, and then all were made; on failure the last call made is the first failing one and its error is the result; the rasterizer is returned iff every call before the return succeeded, so never after a failed upload or render |
| ComputeTrace.ComputeRendersEveryBatch | tensorflow_graphics/rendering/opengl/rasterizer_op.cc:130-134 | a successful run uploads every variable for every batch element and renders every batch element, in 3 + batch count × (variables + 1) calls, none of which repeats |
| ComputeTrace.ComputeStaysInBounds | tensorflow_graphics/rendering/opengl/rasterizer_op.cc:125-133 | with a two-dimensional resolution, every upload reads inside its variable's data, and every render writes inside the output |
| Scenarios.BatchShapeExample | tensorflow_graphics/rendering/opengl/rasterizer_op.cc:223-247 | a (5,3,3) matrix and a (5,8) buffer give batch shape (5); a (4,8) buffer instead is rejected by name with batch shape (4) |
| Scenarios.UnhandledTypeExample | tensorflow_graphics/rendering/opengl/rasterizer_op.cc:230-238 | an integer matrix is rejected with its name, kind and type |
| Scenarios.RankCheckExample | tensorflow_graphics/rendering/opengl/rasterizer_op.cc:229-246 | a float matrix of shape (5) trips the rank check and `Compute` makes no foreign call; an earlier unhandled variable or batch-shape mismatch is reported instead of a later short matrix |
| Scenarios.ResolutionOverrunExample | tensorflow_graphics/rendering/opengl/rasterizer_op.cc:117-133 | with resolution (4, 4, 0) and no variables, `Compute` succeeds with an output of 0 elements yet renders batch element 0 into the 64-float block [0, 64) |
| Scenarios.EndToEndExample | tensorflow_graphics/rendering/opengl/rasterizer_op.cc:109-135 | with resolution (4,4), a (2,4,4) matrix and a (2,8) buffer, a run without failures makes the exact call list and yields output shape (2,4,4,4) |

## Left out

- The thread-safe resource pool is not part of this model. It lives in `thread_safe_resource_pool.h`, outside this file, and its purpose is concurrency. It appears only as the `AcquireResource` and `ReturnResource` calls.
- `RasterizerWithContext` is not modelled: context creation, shader compilation, and the GPU work behind the uploads and `Render`. These are foreign calls, and only their success or failure is modelled.
- Attribute reading (`GetAttr`, `input_list`) is left out: shader sources, clear colours and the op registration. Their failures are framework errors.
- Output allocation and `flat<float>()` memory access are left out. Allocation is one foreign call, and memory is described by `Spans.Span` ranges.
- Floating-point clear colours and pixel values are not modelled.
- The `num_points` input of `RenderImage` is a parameter of `Compute`. Reading it from the input tensor is left out.
- The process abort of the fatal check in `RemoveLastDims` is modelled as the outcome `RankCheckAbort`. That outcome ends the model's run like an error status, while the real process ends.
- Compute.Compute and Compute.RenderAll: require a resolution of at least two dimensions, because the kernel reads `dim_size(0)` and `dim_size(1)` without checking.
- Slicing.SliceCall: requires a handled variable to have the dimensions its kind removes. The kernel only slices after validation, which guarantees this; `Slicing.SlicingRejectsOnlyInvalid` carries the same requirement.
- Output.OutputElementCount and Output.ImageSpansPartitionOutput: require a resolution of exactly two dimensions. The image size uses only the first two dimensions, while the output shape uses all of them, so with more dimensions the count differs and the images need not cover the output.
- ComputeTrace.ComputeStaysInBounds: requires a resolution of exactly two dimensions. With three or more dimensions, one of them 0, the output has no elements, yet every render is handed a block of first dimension × second dimension × 4 floats, which lies past its end whenever that product is positive. `Scenarios.ResolutionOverrunExample` shows this for resolution (4, 4, 0).
- Fixed-width integer overflow is not modelled. Slice offsets are computed in `int`, the image size in `int64` and the loop counter in `int`, while the model uses unbounded integers.
- Concurrent `Compute` calls sharing the pool are left out.
- `tensorflow_graphics/rendering/tests/splat_test.py` and `tensorflow_graphics/projects/gan/architectures_style_gan_test.py` are left out. They test float rendering and model output shapes, and hold no kernel logic.
