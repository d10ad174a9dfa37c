/**
 The shader variables the rasterize op receives: a name, a kind tag
 ("mat" for a matrix uniform, "buffer" for a shader storage buffer) and a
 tensor value, of which only the shape and the element type matter here.
 */
module Variables {
  import opened Shapes

  /** The `variable_kinds` attribute: the string "mat" is `Mat`, the string
      "buffer" is `Buffer`, and `OtherKind(tag)` is every other string, so
      its tag is neither "mat" nor "buffer". The op registration only admits
      "mat" and "buffer"; the kernel still rejects anything else itself. */
  datatype Kind = Mat | Buffer | OtherKind(tag: string)

  /** Element type of a tensor: 32-bit float is `Float`, and
      `OtherDType(code)` is any other type. Only float is accepted. */
  datatype DType = Float | OtherDType(code: nat)

  datatype Tensor = Tensor(shape: Shape, dtype: DType)

  /** A kind/dtype pair the kernel knows how to hand to the rasterizer. */
  predicate Supported(kind: Kind, dtype: DType) {
    dtype == Float && (kind == Mat || kind == Buffer)
  }

  /** Trailing dimensions one batch element of a handled variable spans: the
      rows and columns of a matrix, or the length of a buffer. */
  function TrailingDims(kind: Kind): nat
    requires kind == Mat || kind == Buffer
  {
    if kind == Mat then 2 else 1
  }

  datatype Variable = Variable(name: string, kind: Kind, value: Tensor) {

    predicate Handled() {
      Supported(kind, value.dtype)
    }

    /** A handled variable has at least its trailing dimensions. */
    predicate RankSufficient() {
      Handled() ==> |value.shape| >= TrailingDims(kind)
    }

    /** Validation lets the variable through: its kind/dtype pair is
        handled and it has the dimensions its kind removes. */
    predicate Accepted() {
      Handled() && RankSufficient()
    }

    /** The batch shape of a handled variable: its shape without the
        trailing matrix or buffer dimensions. */
    function BatchShape(): Shape
      requires Handled() && RankSufficient()
    {
      RemoveLastDims(value.shape, TrailingDims(kind))
    }

    /** Number of elements one batch element of a handled variable holds:
        rows * columns for a matrix, the buffer length for a buffer. */
    function SliceWidth(): nat
      requires Handled() && RankSufficient()
    {
      var s := value.shape;
      if kind == Mat then s[|s| - 2] * s[|s| - 1] else s[|s| - 1]
    }
  }

  /** Every handled variable has enough dimensions. */
  predicate WellRanked(vars: seq<Variable>) {
    forall j | 0 <= j < |vars| :: vars[j].RankSufficient()
  }

  /** Every variable has a handled kind/dtype pair. */
  predicate AllHandled(vars: seq<Variable>) {
    forall j | 0 <= j < |vars| :: vars[j].Handled()
  }

  /** The kernel's three parallel lists, read position by position. */
  function Zip(names: seq<string>, kinds: seq<Kind>, values: seq<Tensor>): (vars: seq<Variable>)
    requires |names| == |kinds| == |values|
    ensures |vars| == |names|
    ensures forall i | 0 <= i < |vars| :: vars[i] == Variable(names[i], kinds[i], values[i])
  {
    seq(|names|, i requires 0 <= i < |names| => Variable(names[i], kinds[i], values[i]))
  }

  /** The width of one batch element is the element count of the trailing
      dimensions. */
  lemma SliceWidthCountsTrailingDims(v: Variable)
    requires v.Handled() && v.RankSufficient()
    ensures v.SliceWidth() == NumElements(v.value.shape[|v.value.shape| - TrailingDims(v.kind)..])
  {
    var s := v.value.shape;
    if v.kind == Mat {
      assert s[|s| - 2..] == [s[|s| - 2], s[|s| - 1]];
      NumElementsSmall(s[|s| - 2], s[|s| - 1], 0);
    } else {
      assert s[|s| - 1..] == [s[|s| - 1]];
      NumElementsSmall(s[|s| - 1], 0, 0);
    }
  }

  /** A handled variable's elements are its batch elements times the width
      of one batch element. */
  lemma ValueSplitsIntoSlices(v: Variable)
    requires v.Handled() && v.RankSufficient()
    ensures NumElements(v.value.shape) == NumElements(v.BatchShape()) * v.SliceWidth()
  {
    var s := v.value.shape;
    var t := TrailingDims(v.kind);
    NumElementsSplit(s, t);
    SliceWidthCountsTrailingDims(v);
    assert v.BatchShape() == RemoveLastDims(s, t);
  }
}
