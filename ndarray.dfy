/**
 * numpy arrays as the wavelet driver uses them: a shape and a C-order flat buffer of samples.
 * Covers the two resize operations (which work on the flat buffer) and the two axis
 * permutations the per-axis decomposers apply.
 */
module NdArrays {
  import opened FlatIndex

  datatype NdArray = NdArray(shape: seq<nat>, data: seq<real>)

  /** Number of elements of an array of the given shape. */
  function Size(shape: seq<nat>): nat {
    if |shape| == 0 then 1 else Size(shape[..|shape| - 1]) * shape[|shape| - 1]
  }

  /** The flat buffer holds exactly one sample per index of the shape. */
  predicate Valid(a: NdArray) {
    |a.data| == Size(a.shape)
  }

  /** A well-formed three-dimensional array. */
  predicate Is3D(a: NdArray) {
    |a.shape| == 3 && |a.data| == Volume(a.shape[0], a.shape[1], a.shape[2])
  }

  lemma Size3(shape: seq<nat>)
    requires |shape| == 3
    ensures Size(shape) == Volume(shape[0], shape[1], shape[2])
  {
    VolumeIsProduct(shape[0], shape[1], shape[2]);
    var s2, s1 := shape[..2], shape[..2][..1];
    assert s1[..0] == [];
    assert Size(s1) == shape[0];
    assert Size(s2) == shape[0] * shape[1];
  }

  /** Element (i, j, k) of a three-dimensional array. */
  function At(a: NdArray, i: nat, j: nat, k: nat): real
    requires Is3D(a) && i < a.shape[0] && j < a.shape[1] && k < a.shape[2]
  {
    OffBelow(a.shape[0], a.shape[1], a.shape[2], i, j, k);
    a.data[Off(a.shape[1], a.shape[2], i, j, k)]
  }

  /** Two three-dimensional arrays of one shape that agree at every index are equal. */
  lemma Extensionality(a: NdArray, b: NdArray)
    requires Is3D(a) && Is3D(b) && a.shape == b.shape
    requires forall i: nat, j: nat, k: nat | i < a.shape[0] && j < a.shape[1] && k < a.shape[2] :: At(a, i, j, k) == At(b, i, j, k)
    ensures a == b
  {
    var d0, d1, d2 := a.shape[0], a.shape[1], a.shape[2];
    forall p | 0 <= p < |a.data|
      ensures a.data[p] == b.data[p]
    {
      Coords(d0, d1, d2, p);
      assert At(a, C0(d1, d2, p), C1(d1, d2, p), C2(d1, d2, p)) == At(b, C0(d1, d2, p), C1(d1, d2, p), C2(d1, d2, p));
    }
  }

  /** The working shape of the wavelet driver: every odd extent grows by one (imageoperations.py:427). */
  function EvenShape(shape: seq<nat>): (r: seq<nat>)
    ensures |r| == |shape|
    ensures forall d | 0 <= d < |r| :: r[d] % 2 == 0 && (r[d] == shape[d] || r[d] == shape[d] + 1)
  {
    seq(|shape|, d requires 0 <= d < |shape| => if shape[d] % 2 != 0 then shape[d] + 1 else shape[d])
  }

  /** Growing every extent never shrinks the number of elements. */
  lemma {:induction false} SizeMonotone(small: seq<nat>, large: seq<nat>)
    requires |small| == |large|
    requires forall d | 0 <= d < |small| :: small[d] <= large[d]
    ensures Size(small) <= Size(large)
  {
    if |small| > 0 {
      var n := |small| - 1;
      SizeMonotone(small[..n], large[..n]);
      MulMonotone(small[n], large[n], Size(small[..n]));
      MulMonotone(Size(small[..n]), Size(large[..n]), large[n]);
    }
  }

  /**
   * ndarray.resize(shape, refcheck=False) on a C-contiguous copy (imageoperations.py:429): the
   * flat buffer is cut to the new size or extended with zeros at its end.
   */
  function ResizeInPlace(a: NdArray, shape: seq<nat>): (r: NdArray)
    ensures r.shape == shape && Valid(r)
    ensures forall p | 0 <= p < |r.data| :: r.data[p] == if p < |a.data| then a.data[p] else 0.0
  {
    var n := Size(shape);
    NdArray(shape, if n <= |a.data| then a.data[..n] else a.data + seq(n - |a.data|, _ => 0.0))
  }

  /**
   * numpy.resize(a, shape) (imageoperations.py:464, 471): the flat buffer repeated cyclically up
   * to the new size; an empty buffer gives zeros.
   */
  function Resize(a: NdArray, shape: seq<nat>): (r: NdArray)
    ensures r.shape == shape && Valid(r)
  {
    var n := Size(shape);
    NdArray(shape, seq(n, p requires 0 <= p < n => if |a.data| == 0 then 0.0 else a.data[p % |a.data|]))
  }

  /** Resizing to a size no larger than the buffer keeps the flat prefix. */
  lemma ResizeKeepsPrefix(a: NdArray, shape: seq<nat>)
    requires Size(shape) <= |a.data|
    ensures Resize(a, shape).data == a.data[..Size(shape)]
  {
    var n, r := Size(shape), Resize(a, shape);
    forall p | 0 <= p < n
      ensures r.data[p] == a.data[p]
    {
      ModBelow(p, |a.data|);
    }
  }

  lemma ModBelow(p: nat, n: nat)
    requires p < n
    ensures p % n == p
  {
  }

  /** Trimming with numpy.resize undoes padding with ndarray.resize. */
  lemma PadThenTrim(a: NdArray, shape: seq<nat>)
    requires Valid(a) && Size(shape) >= |a.data|
    ensures Resize(ResizeInPlace(a, shape), a.shape) == a
  {
    var padded := ResizeInPlace(a, shape);
    ResizeKeepsPrefix(padded, a.shape);
  }

  /** When only the outermost extent grows, flat padding keeps every sample at its own index. */
  lemma PadOuterKeepsIndices(a: NdArray, d0: nat, i: nat, j: nat, k: nat)
    requires Is3D(a) && a.shape[0] <= d0
    requires i < a.shape[0] && j < a.shape[1] && k < a.shape[2]
    ensures Is3D(ResizeInPlace(a, [d0, a.shape[1], a.shape[2]]))
    ensures At(ResizeInPlace(a, [d0, a.shape[1], a.shape[2]]), i, j, k) == At(a, i, j, k)
  {
    var d1, d2 := a.shape[1], a.shape[2];
    var shape := [d0, d1, d2];
    Size3(shape);
    var padded := ResizeInPlace(a, shape);
    OffBelow(a.shape[0], d1, d2, i, j, k);
    VolumeIsProduct(a.shape[0], d1, d2);
    VolumeIsProduct(d0, d1, d2);
    MulMonotone(a.shape[0], d0, d1);
    MulMonotone(a.shape[0] * d1, d0 * d1, d2);
    assert padded.data[Off(d1, d2, i, j, k)] == a.data[Off(d1, d2, i, j, k)];
  }

  /**
   * When an inner extent is odd, flat padding moves samples to other indices: for the
   * 2 x 2 x 1 array [1, 2, 3, 4], the padded 2 x 2 x 2 array holds 3 at index (0, 1, 0),
   * where the original holds 2.
   */
  lemma PadInnerMovesSamples()
    ensures var a := NdArray([2, 2, 1], [1.0, 2.0, 3.0, 4.0]);
            var padded := ResizeInPlace(a, EvenShape(a.shape));
            && EvenShape(a.shape) == [2, 2, 2] && Is3D(padded)
            && At(a, 0, 1, 0) == 2.0 && At(padded, 0, 1, 0) == 3.0
  {
    var a := NdArray([2, 2, 1], [1.0, 2.0, 3.0, 4.0]);
    assert EvenShape(a.shape) == [2, 2, 2];
    Size3([2, 2, 2]);
    var padded := ResizeInPlace(a, [2, 2, 2]);
    assert padded.data[2] == 3.0;
  }

  /** numpy.transpose(a, (0, 2, 1)), laid out in C order: the two inner axes swapped. */
  function SwapInner(a: NdArray): (r: NdArray)
    requires Is3D(a)
    ensures Is3D(r) && r.shape == [a.shape[0], a.shape[2], a.shape[1]]
  {
    var d0, d1, d2 := a.shape[0], a.shape[1], a.shape[2];
    NdArray([d0, d2, d1], seq(Volume(d0, d2, d1), q requires 0 <= q < Volume(d0, d2, d1) =>
      Coords(d0, d2, d1, q);
      At(a, C0(d2, d1, q), C2(d2, d1, q), C1(d2, d1, q))))
  }

  /** Element (i, k, j) of the swapped array is element (i, j, k) of the original. */
  lemma SwapInnerAt(a: NdArray, i: nat, j: nat, k: nat)
    requires Is3D(a) && i < a.shape[0] && j < a.shape[1] && k < a.shape[2]
    ensures At(SwapInner(a), i, k, j) == At(a, i, j, k)
  {
    OffBelow(a.shape[0], a.shape[2], a.shape[1], i, k, j);
    CoordsOfOff(a.shape[2], a.shape[1], i, k, j);
  }

  /** numpy.transpose(a, (2, 1, 0)), laid out in C order: the axis order reversed. */
  function ReverseAxes(a: NdArray): (r: NdArray)
    requires Is3D(a)
    ensures Is3D(r) && r.shape == [a.shape[2], a.shape[1], a.shape[0]]
  {
    var d0, d1, d2 := a.shape[0], a.shape[1], a.shape[2];
    NdArray([d2, d1, d0], seq(Volume(d2, d1, d0), q requires 0 <= q < Volume(d2, d1, d0) =>
      Coords(d2, d1, d0, q);
      At(a, C2(d1, d0, q), C1(d1, d0, q), C0(d1, d0, q))))
  }

  /** Element (k, j, i) of the reversed array is element (i, j, k) of the original. */
  lemma ReverseAxesAt(a: NdArray, i: nat, j: nat, k: nat)
    requires Is3D(a) && i < a.shape[0] && j < a.shape[1] && k < a.shape[2]
    ensures At(ReverseAxes(a), k, j, i) == At(a, i, j, k)
  {
    OffBelow(a.shape[2], a.shape[1], a.shape[0], k, j, i);
    CoordsOfOff(a.shape[1], a.shape[0], k, j, i);
  }
}
