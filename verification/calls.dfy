/**
 The calls the kernel makes into code outside this model: output
 allocation, the rasterizer pool, the rasterizer's variable setters and its
 render call. Each may fail; which ones do is a parameter of the model.
 */
module Calls {
  import opened Shapes
  import opened Spans

  /** One foreign call. Variable uploads and renders also record the batch
      element (`outer`) they belong to, and uploads the position (`index`)
      of the variable in the op's lists. */
  datatype Call =
    | AllocateOutput(shape: Shape)
    | AcquireResource
    | SetUniformMatrix(outer: nat, index: nat, name: string, columns: nat, rows: nat,
                       transpose: bool, data: Span)
    | SetShaderStorageBuffer(outer: nat, index: nat, name: string, data: Span)
    | Render(outer: nat, numPoints: int, image: Span)
    | ReturnResource
  {
    predicate IsUpload() {
      SetUniformMatrix? || SetShaderStorageBuffer?
    }

    /** Made inside the loop over batch elements. */
    predicate InLoop() {
      IsUpload() || Render?
    }

    /** The loop makes this call before `other`: an earlier batch element,
        or the same one with this an upload of an earlier variable or the
        other its render. */
    predicate Precedes(other: Call)
      requires InLoop() && other.InLoop()
    {
      || outer < other.outer
      || (outer == other.outer && IsUpload() && (other.Render? || index < other.index))
    }
  }
}
