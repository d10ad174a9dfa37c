/**
 The output image tensor of the rasterize kernel: its shape, the size of
 one rendered image, and the block of the flat output each batch element's
 image is written to.
 */
module Output {
  import opened Shapes
  import opened Spans

  /** Channels per pixel of the rendered image. */
  const Channels: nat := 4

  /** The output shape: the batch shape, then the output resolution, then
      the channels. */
  function OutputShape(batch: Shape, resolution: Shape): (s: Shape)
    ensures |s| == |batch| + |resolution| + 1
    ensures s[..|batch|] == batch
    ensures s[|batch|..|batch| + |resolution|] == resolution
    ensures s[|s| - 1] == Channels
  {
    batch + resolution + [Channels]
  }

  /** Floats in one rendered image: the element count of an image tensor
      whose height and width are the first two dimensions of the output
      resolution and which has `Channels` channels. */
  function ImageSize(resolution: Shape): (size: nat)
    requires |resolution| >= 2
    ensures size == NumElements([resolution[0], resolution[1], Channels])
  {
    NumElementsSmall(resolution[0], resolution[1], Channels);
    resolution[0] * resolution[1] * Channels
  }

  /** The block of the flat output batch element `outer` is rendered into. */
  function ImageSpan(outer: nat, resolution: Shape): (sp: Span)
    requires |resolution| >= 2
    ensures sp.end - sp.start == ImageSize(resolution)
  {
    BatchSpan(outer, ImageSize(resolution))
  }

  /** With a two-dimensional resolution, the output holds one image per
      batch element. */
  lemma OutputElementCount(batch: Shape, resolution: Shape)
    requires |resolution| == 2
    ensures NumElements(OutputShape(batch, resolution)) == NumElements(batch) * ImageSize(resolution)
  {
    var image := [resolution[0], resolution[1], Channels];
    assert OutputShape(batch, resolution) == batch + image;
    NumElementsAppend(batch, image);
  }

  /** With a two-dimensional resolution, the images of the batch elements
      partition the flat output: they are pairwise disjoint, each lies
      inside the output, and every output position lies in one of them. */
  lemma ImageSpansPartitionOutput(batch: Shape, resolution: Shape)
    requires |resolution| == 2
    ensures forall i: nat, j: nat | i != j :: Disjoint(ImageSpan(i, resolution), ImageSpan(j, resolution))
    ensures forall i: nat | i < NumElements(batch) ::
              ImageSpan(i, resolution).end <= NumElements(OutputShape(batch, resolution))
    ensures forall p: nat | p < NumElements(OutputShape(batch, resolution)) ::
              InSomeBatch(p, NumElements(batch), ImageSize(resolution))
  {
    var n := NumElements(batch);
    var size := ImageSize(resolution);
    OutputElementCount(batch, resolution);
    forall i: nat, j: nat | i != j
      ensures Disjoint(ImageSpan(i, resolution), ImageSpan(j, resolution))
    {
      BatchSpansDisjoint(i, j, size);
    }
    forall i: nat | i < n
      ensures ImageSpan(i, resolution).end <= NumElements(OutputShape(batch, resolution))
    {
      BatchSpanInBounds(i, n, size);
    }
    forall p: nat | p < NumElements(OutputShape(batch, resolution))
      ensures InSomeBatch(p, n, size)
    {
      var i := BatchSpansCover(n, size, p);
    }
  }
}
