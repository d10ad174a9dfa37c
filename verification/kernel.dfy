/**
 The configuration the rasterize kernel keeps from its attributes, the
 size check of its constructor, and the op's shape function.
 */
module Kernel {
  import opened Shapes
  import opened Variables
  import opened Status
  import opened Validation

  /** Attributes a constructed kernel keeps. Shader sources and clear
      values only reach the rasterizer factory and are not modelled. */
  datatype RasterizeOp = RasterizeOp(names: seq<string>, kinds: seq<Kind>, resolution: Shape)

  /** The kernel constructor: the variable names and kinds must have the
      same length. */
  function NewRasterizeOp(names: seq<string>, kinds: seq<Kind>, resolution: Shape): (r: Result<RasterizeOp>)
    ensures r.Ok? <==> |names| == |kinds|
    ensures r.Ok? ==> r.value.names == names && r.value.kinds == kinds && r.value.resolution == resolution
    ensures r.Err? ==> r.error == NamesKindsSizeMismatch
  {
    if |names| != |kinds| then Err(NamesKindsSizeMismatch)
    else Ok(RasterizeOp(names, kinds, resolution))
  }

  /** What the shape function infers: nothing about the output. */
  datatype InferredShape = UnknownShape

  /** The op's shape function: one variable name per variable value. */
  function InferShape(names: seq<string>, valueShapes: seq<Shape>): (r: Result<InferredShape>)
    ensures r.Ok? <==> |names| == |valueShapes|
    ensures r.Err? ==> r.error == NamesValuesSizeMismatch
  {
    if |names| != |valueShapes| then Err(NamesValuesSizeMismatch)
    else Ok(UnknownShape)
  }

  function ValueShapes(values: seq<Tensor>): (shapes: seq<Shape>)
    ensures |shapes| == |values|
  {
    seq(|values|, i requires 0 <= i < |values| => values[i].shape)
  }

  /** For a kernel its constructor accepted, the size check of validation
      fails exactly when the shape function rejects the same inputs, so the
      three size checks agree. */
  lemma SizeChecksAgree(names: seq<string>, kinds: seq<Kind>, resolution: Shape, values: seq<Tensor>)
    requires NewRasterizeOp(names, kinds, resolution).Ok?
    ensures var op := NewRasterizeOp(names, kinds, resolution).value;
      ValidateVariables(op.names, op.kinds, values) == Err(SizeMismatch)
      <==> InferShape(op.names, ValueShapes(values)).Err?
  {
  }
}
