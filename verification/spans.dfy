/**
 Half-open ranges of positions in a flat tensor buffer, and the
 "batch element `i` of width `w`" ranges the kernel uses both to read its
 inputs and to write its output image.
 */
module Spans {

  /** The positions `start <= p < end` of a flat buffer. */
  datatype Span = Span(start: nat, end: nat) {

    predicate Contains(p: nat) {
      start <= p < end
    }
  }

  /** No position lies in both spans. */
  ghost predicate Disjoint(a: Span, b: Span) {
    forall p: nat :: !(a.Contains(p) && b.Contains(p))
  }

  /** Position `p` lies in the block of some batch element below `count`. */
  ghost predicate InSomeBatch(p: nat, count: nat, width: nat) {
    exists i: nat :: i < count && BatchSpan(i, width).Contains(p)
  }

  /** The `outer`-th block of `width` consecutive elements,
      `[outer * width, (outer + 1) * width)`. */
  function BatchSpan(outer: nat, width: nat): (sp: Span)
    ensures sp.start <= sp.end
    ensures sp.end - sp.start == width
  {
    Span(outer * width, (outer + 1) * width)
  }

  lemma MulMonotone(a: nat, b: nat, w: nat)
    requires a <= b
    ensures a * w <= b * w
  {
  }

  /** Blocks of distinct batch elements never overlap. */
  lemma BatchSpansDisjoint(i: nat, j: nat, width: nat)
    requires i != j
    ensures Disjoint(BatchSpan(i, width), BatchSpan(j, width))
  {
    if i < j {
      MulMonotone(i + 1, j, width);
    } else {
      MulMonotone(j + 1, i, width);
    }
  }

  /** The block of a batch element below `count` ends inside a buffer of
      `count * width` elements. */
  lemma BatchSpanInBounds(i: nat, count: nat, width: nat)
    requires i < count
    ensures BatchSpan(i, width).end <= count * width
  {
    MulMonotone(i + 1, count, width);
  }

  /** Every position of a buffer of `count * width` elements belongs to the
      block of some batch element below `count`, namely `p / width`. */
  lemma {:induction false} BatchSpansCover(count: nat, width: nat, p: nat) returns (i: nat)
    requires p < count * width
    ensures i < count
    ensures BatchSpan(i, width).Contains(p)
  {
    assert width > 0;
    i := p / width;
    var rem := p % width;
    assert p == i * width + rem;
    if count <= i {
      MulMonotone(count, i, width);
    }
    assert (i + 1) * width == i * width + width;
  }
}
