/**
 Tensor shapes as sequences of dimension sizes, with the two shape
 operations the rasterize kernel relies on: the element count of a shape and
 the removal of its trailing dimensions.
 */
module Shapes {

  type Shape = seq<nat>

  /** Number of elements of a tensor of shape `s`: the product of its
      dimensions, so the scalar shape `[]` holds exactly one element. */
  function NumElements(s: Shape): nat
  {
    if |s| == 0 then 1 else s[0] * NumElements(s[1..])
  }

  /** The shape `s` with its last `n` dimensions dropped. Removing more
      dimensions than the shape has is a fatal check failure in the
      framework, hence the precondition. */
  function RemoveLastDims(s: Shape, n: nat): (r: Shape)
    requires n <= |s|
    ensures |r| == |s| - n
    ensures r + s[|s| - n..] == s
  {
    s[..|s| - n]
  }

  /** The element count of a concatenation is the product of the counts. */
  lemma {:induction false} NumElementsAppend(a: Shape, b: Shape)
    ensures NumElements(a + b) == NumElements(a) * NumElements(b)
  {
    if |a| == 0 {
      assert a + b == b;
    } else {
      assert (a + b)[1..] == a[1..] + b;
      NumElementsAppend(a[1..], b);
      calc {
        NumElements(a + b);
        a[0] * NumElements(a[1..] + b);
        a[0] * (NumElements(a[1..]) * NumElements(b));
        (a[0] * NumElements(a[1..])) * NumElements(b);
        NumElements(a) * NumElements(b);
      }
    }
  }

  /** Splitting a shape into its leading part and its last `n` dimensions
      splits its element count into a product. */
  lemma NumElementsSplit(s: Shape, n: nat)
    requires n <= |s|
    ensures NumElements(s) == NumElements(RemoveLastDims(s, n)) * NumElements(s[|s| - n..])
  {
    NumElementsAppend(RemoveLastDims(s, n), s[|s| - n..]);
  }

  /** Element counts of the one-, two- and three-dimensional shapes. */
  lemma NumElementsSmall(x: nat, y: nat, z: nat)
    ensures NumElements([x]) == x
    ensures NumElements([x, y]) == x * y
    ensures NumElements([x, y, z]) == x * y * z
  {
    assert [x][1..] == [];
    assert [x, y][1..] == [y];
    assert [y][1..] == [];
    assert [x, y, z][1..] == [y, z];
    assert [y, z][1..] == [z];
    assert [z][1..] == [];
    assert NumElements([z]) == z;
    assert NumElements([y, z]) == y * NumElements([z]);
    assert NumElements([x, y, z]) == x * NumElements([y, z]);
  }
}
