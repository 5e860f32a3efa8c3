/**
 * The per-axis decomposers `_decompose_i`, `_decompose_j` and `_decompose_k`: the one-level
 * stationary wavelet transform applied to every line of a volume along one axis.
 */
module AxisDecompose {
  import opened Errors
  import opened FlatIndex
  import opened NdArrays

  /** One level of approximation (cA) and detail (cD) coefficients of a 1D signal. */
  datatype Coeffs = Coeffs(approx: seq<real>, detail: seq<real>)

  /**
   * `pywt.swt(x, wavelet, level=1, start_level=0)[0]` for one already resolved wavelet, as a
   * function of the signal. Its numerics are the library's.
   */
  type Transform = seq<real> -> Coeffs

  /**
   * All the model knows of the transform: it is stationary (undecimated), so a signal of even
   * length gives approximation and detail sequences of that same length.
   */
  ghost predicate Stationary(swt: Transform) {
    forall s {:trigger swt(s)} :: |s| % 2 == 0 ==> |swt(s).approx| == |s| && |swt(s).detail| == |s|
  }

  /** The axes of a volume indexed [k][j][i]: I is numpy axis 2, J axis 1, K axis 0. */
  datatype Axis = I | J | K

  function Extent(a: NdArray, axis: Axis): nat
    requires Is3D(a)
  {
    match axis
    case I => a.shape[2]
    case J => a.shape[1]
    case K => a.shape[0]
  }

  /** The samples of the line through [k][j][i], along the axis, in index order. */
  function Line(a: NdArray, axis: Axis, k: nat, j: nat, i: nat): (line: seq<real>)
    requires Is3D(a) && k < a.shape[0] && j < a.shape[1] && i < a.shape[2]
    ensures |line| == Extent(a, axis)
  {
    match axis
    case I => seq(a.shape[2], x requires 0 <= x < a.shape[2] => At(a, k, j, x))
    case J => seq(a.shape[1], y requires 0 <= y < a.shape[1] => At(a, k, y, i))
    case K => seq(a.shape[0], z requires 0 <= z < a.shape[0] => At(a, z, j, i))
  }

  /** Where [k][j][i] lies on its line along the axis. */
  function Position(a: NdArray, axis: Axis, k: nat, j: nat, i: nat): (pos: nat)
    requires Is3D(a) && k < a.shape[0] && j < a.shape[1] && i < a.shape[2]
    ensures pos < Extent(a, axis)
  {
    match axis
    case I => i
    case J => j
    case K => k
  }

  /** The coefficients of the line through [k][j][i] along the axis. */
  function LineCoeffs(swt: Transform, a: NdArray, axis: Axis, k: nat, j: nat, i: nat): (c: Coeffs)
    requires Stationary(swt)
    requires Is3D(a) && k < a.shape[0] && j < a.shape[1] && i < a.shape[2]
    requires Extent(a, axis) % 2 == 0
    ensures |c.approx| == Extent(a, axis) && |c.detail| == Extent(a, axis)
  {
    swt(Line(a, axis, k, j, i))
  }

  /** A three-dimensional shape with no zero extent. */
  predicate NonEmpty3(shape: seq<nat>) {
    |shape| == 3 && shape[0] > 0 && shape[1] > 0 && shape[2] > 0
  }

  /**
   * The volume has no line along the axis: one of the two other extents is 0, so the loop
   * collects nothing and joining the empty lists raises.
   */
  predicate NoLines(a: NdArray, axis: Axis)
    requires Is3D(a)
  {
    match axis
    case I => a.shape[0] == 0 || a.shape[1] == 0
    case J => a.shape[0] == 0 || a.shape[2] == 0
    case K => a.shape[1] == 0 || a.shape[2] == 0
  }

  /** What `numpy.hstack([])` and `numpy.vstack([])` raise. */
  const ConcatError := ValueError("need at least one array to concatenate")

  /** The message of the ValueError `pywt.swt` raises on a signal of length 0; its text is the library's. */
  const SwtEmptyMessage: string

  /** What `pywt.swt` raises on the first line when the lines have length 0. */
  const EmptyLineError := ValueError(SwtEmptyMessage)

  /** t rows of length n hold nothing exactly when there are no rows or they are empty. */
  lemma {:induction false} RowOffZero(n: nat, t: nat)
    ensures RowOff(n, t, 0) == 0 <==> n == 0 || t == 0
  {
    if t > 0 {
      RowOffZero(n, t - 1);
    }
  }

  /** The (H, L) pair a decomposer returns: detail volume first, approximation second. */
  datatype Bands = Bands(detail: NdArray, approx: NdArray)

  /**
   * Reference definition of a decomposition along an axis: both volumes keep the input's
   * shape, and each sample is replaced by a coefficient of the transform of its own line.
   */
  function AxisBands(swt: Transform, a: NdArray, axis: Axis): (r: Bands)
    requires Stationary(swt)
    requires Is3D(a) && Extent(a, axis) % 2 == 0
    ensures Is3D(r.detail) && r.detail.shape == a.shape
    ensures Is3D(r.approx) && r.approx.shape == a.shape
  {
    var d0, d1, d2 := a.shape[0], a.shape[1], a.shape[2];
    var n := Volume(d0, d1, d2);
    var detail := seq(n, p requires 0 <= p < n =>
      Coords(d0, d1, d2, p);
      var k, j, i := C0(d1, d2, p), C1(d1, d2, p), C2(d1, d2, p);
      LineCoeffs(swt, a, axis, k, j, i).detail[Position(a, axis, k, j, i)]);
    var approx := seq(n, p requires 0 <= p < n =>
      Coords(d0, d1, d2, p);
      var k, j, i := C0(d1, d2, p), C1(d1, d2, p), C2(d1, d2, p);
      LineCoeffs(swt, a, axis, k, j, i).approx[Position(a, axis, k, j, i)]);
    Bands(NdArray(a.shape, detail), NdArray(a.shape, approx))
  }

  /**
   * The sample of both bands at [k][j][i] is the detail (respectively approximation)
   * coefficient, at the index's own position along the axis, of the transform of the line
   * through [k][j][i].
   */
  lemma AxisBandsAt(swt: Transform, a: NdArray, axis: Axis, k: nat, j: nat, i: nat)
    requires Stationary(swt)
    requires Is3D(a) && Extent(a, axis) % 2 == 0
    requires k < a.shape[0] && j < a.shape[1] && i < a.shape[2]
    ensures At(AxisBands(swt, a, axis).detail, k, j, i) == LineCoeffs(swt, a, axis, k, j, i).detail[Position(a, axis, k, j, i)]
    ensures At(AxisBands(swt, a, axis).approx, k, j, i) == LineCoeffs(swt, a, axis, k, j, i).approx[Position(a, axis, k, j, i)]
  {
    OffBelow(a.shape[0], a.shape[1], a.shape[2], k, j, i);
    CoordsOfOff(a.shape[1], a.shape[2], k, j, i);
  }

  /** Row t of a buffer made of rows of length n. */
  function RowOf(data: seq<real>, n: nat, t: nat): (row: seq<real>)
    requires RowOff(n, t, 0) + n <= |data|
    ensures |row| == n
    ensures forall x: nat | x < n :: RowOff(n, t, x) < |data| && row[x] == data[RowOff(n, t, x)]
  {
    var row := data[RowOff(n, t, 0)..RowOff(n, t, 0) + n];
    assert forall x: nat | x < n :: RowOff(n, t, x) < |data| && row[x] == data[RowOff(n, t, x)] by {
      forall x: nat | x < n
        ensures RowOff(n, t, x) < |data| && row[x] == data[RowOff(n, t, x)]
      {
        RowOffShift(n, t, x);
      }
    }
    row
  }

  /** The first t rows of `data` have been transformed into h (details) and l (approximations). */
  ghost predicate RowsDone(swt: Transform, data: seq<real>, n: nat, t: nat, h: seq<real>, l: seq<real>)
    requires Stationary(swt)
  {
    && n % 2 == 0
    && RowOff(n, t, 0) <= |data| && |h| == RowOff(n, t, 0) && |l| == RowOff(n, t, 0)
    && forall u: nat, x: nat | u < t && x < n ::
      && RowOff(n, u, 0) + n <= |data| && RowOff(n, u, x) < |h|
      && h[RowOff(n, u, x)] == swt(RowOf(data, n, u)).detail[x]
      && l[RowOff(n, u, x)] == swt(RowOf(data, n, u)).approx[x]
  }

  lemma RowsDoneStep(swt: Transform, data: seq<real>, n: nat, t: nat, h: seq<real>, l: seq<real>)
    requires Stationary(swt)
    requires RowsDone(swt, data, n, t, h, l) && RowOff(n, t, 0) + n <= |data|
    ensures RowsDone(swt, data, n, t + 1, h + swt(RowOf(data, n, t)).detail, l + swt(RowOf(data, n, t)).approx)
  {
    var c := swt(RowOf(data, n, t));
    var h', l' := h + c.detail, l + c.approx;
    forall u: nat, x: nat | u < t + 1 && x < n
      ensures RowOff(n, u, 0) + n <= |data| && RowOff(n, u, x) < |h'|
      ensures h'[RowOff(n, u, x)] == swt(RowOf(data, n, u)).detail[x]
      ensures l'[RowOff(n, u, x)] == swt(RowOf(data, n, u)).approx[x]
    {
      if u < t {
        EarlierRowKept(swt, data, n, t, h, l, c, u, x);
      } else {
        NewRowAppended(swt, data, n, t, h, l, x);
      }
    }
  }

  /** Appending the coefficients of row t puts them at the offsets of row t. */
  lemma NewRowAppended(swt: Transform, data: seq<real>, n: nat, t: nat, h: seq<real>, l: seq<real>, x: nat)
    requires Stationary(swt)
    requires RowsDone(swt, data, n, t, h, l) && RowOff(n, t, 0) + n <= |data| && x < n
    ensures RowOff(n, t, x) < |h| + n
    ensures (h + swt(RowOf(data, n, t)).detail)[RowOff(n, t, x)] == swt(RowOf(data, n, t)).detail[x]
    ensures (l + swt(RowOf(data, n, t)).approx)[RowOff(n, t, x)] == swt(RowOf(data, n, t)).approx[x]
  {
    var c := swt(RowOf(data, n, t));
    assert |c.detail| == n && |c.approx| == n;
    RowOffShift(n, t, x);
    assert RowOff(n, t, x) == |h| + x;
  }

  /** Appending the coefficients of row t leaves those of the earlier rows in place. */
  lemma EarlierRowKept(swt: Transform, data: seq<real>, n: nat, t: nat, h: seq<real>, l: seq<real>, c: Coeffs, u: nat, x: nat)
    requires Stationary(swt)
    requires RowsDone(swt, data, n, t, h, l) && u < t && x < n
    ensures RowOff(n, u, 0) + n <= |data| && RowOff(n, u, x) < |h|
    ensures (h + c.detail)[RowOff(n, u, x)] == swt(RowOf(data, n, u)).detail[x]
    ensures (l + c.approx)[RowOff(n, u, x)] == swt(RowOf(data, n, u)).approx[x]
  {
    RowOffBelow(n, u, x, t);
  }

  /**
   * The loop the three decomposers share: transform each row of a buffer of `rows` rows of
   * length n (the lines `chain.from_iterable` yields), collecting the detail and approximation
   * coefficients row after row (the lists H and L, joined by `numpy.hstack`).
   */
  method TransformRows(swt: Transform, data: seq<real>, rows: nat, n: nat) returns (h: seq<real>, l: seq<real>)
    requires Stationary(swt)
    requires |data| == RowOff(n, rows, 0) && n % 2 == 0
    ensures |h| == |data| && |l| == |data|
    ensures forall t: nat, x: nat | t < rows && x < n ::
      && RowOff(n, t, 0) + n <= |data| && RowOff(n, t, x) < |data|
      && h[RowOff(n, t, x)] == swt(RowOf(data, n, t)).detail[x]
      && l[RowOff(n, t, x)] == swt(RowOf(data, n, t)).approx[x]
  {
    h, l := [], [];
    var t := 0;
    while t < rows
      invariant t <= rows
      invariant RowsDone(swt, data, n, t, h, l)
    {
      RowOffMonotone(n, t + 1, rows);
      RowsDoneStep(swt, data, n, t, h, l);
      var c := swt(RowOf(data, n, t));
      h := h + c.detail;
      l := l + c.approx;
      t := t + 1;
    }
  }

  /** Row RowOff(d1, k, j) of the buffer is the line along I through [k][j][i]. */
  lemma RowIsLineI(a: NdArray, k: nat, j: nat, i: nat)
    requires Is3D(a) && k < a.shape[0] && j < a.shape[1] && i < a.shape[2]
    ensures RowOff(a.shape[2], RowOff(a.shape[1], k, j), 0) + a.shape[2] <= |a.data|
    ensures RowOf(a.data, a.shape[2], RowOff(a.shape[1], k, j)) == Line(a, I, k, j, i)
  {
    RowOffBelow(a.shape[1], k, j, a.shape[0]);
    RowOffMonotone(a.shape[2], RowOff(a.shape[1], k, j) + 1, RowOff(a.shape[1], a.shape[0], 0));
  }

  /** Row RowOff(d2, k, i) of the swapped buffer is the line along J through [k][j][i]. */
  lemma RowIsLineJ(a: NdArray, k: nat, j: nat, i: nat)
    requires Is3D(a) && k < a.shape[0] && j < a.shape[1] && i < a.shape[2]
    ensures RowOff(a.shape[1], RowOff(a.shape[2], k, i), 0) + a.shape[1] <= |SwapInner(a).data|
    ensures RowOf(SwapInner(a).data, a.shape[1], RowOff(a.shape[2], k, i)) == Line(a, J, k, j, i)
  {
    var d0, d1, d2 := a.shape[0], a.shape[1], a.shape[2];
    var s := SwapInner(a);
    RowOffBelow(d2, k, i, d0);
    RowOffMonotone(d1, RowOff(d2, k, i) + 1, RowOff(d2, d0, 0));
    var row, line := RowOf(s.data, d1, RowOff(d2, k, i)), Line(a, J, k, j, i);
    forall y: nat | y < d1
      ensures row[y] == line[y]
    {
      SwapInnerAt(a, k, y, i);
      assert row[y] == At(s, k, i, y);
    }
  }

  /** Row RowOff(d1, i, j) of the reversed buffer is the line along K through [k][j][i]. */
  lemma RowIsLineK(a: NdArray, k: nat, j: nat, i: nat)
    requires Is3D(a) && k < a.shape[0] && j < a.shape[1] && i < a.shape[2]
    ensures RowOff(a.shape[0], RowOff(a.shape[1], i, j), 0) + a.shape[0] <= |ReverseAxes(a).data|
    ensures RowOf(ReverseAxes(a).data, a.shape[0], RowOff(a.shape[1], i, j)) == Line(a, K, k, j, i)
  {
    var d0, d1, d2 := a.shape[0], a.shape[1], a.shape[2];
    var r := ReverseAxes(a);
    RowOffBelow(d1, i, j, d2);
    RowOffMonotone(d0, RowOff(d1, i, j) + 1, RowOff(d1, d2, 0));
    var row, line := RowOf(r.data, d0, RowOff(d1, i, j)), Line(a, K, k, j, i);
    forall z: nat | z < d0
      ensures row[z] == line[z]
    {
      ReverseAxesAt(a, z, j, i);
      assert row[z] == At(r, i, j, z);
    }
  }

  /**
   * `_decompose_i` (imageoperations.py:478-488): the lines along numpy axis 2. Empty lines
   * make `pywt.swt` raise on the first of them; with no line at all, `numpy.hstack` of the
   * empty lists raises.
   */
  method DecomposeI(swt: Transform, a: NdArray) returns (r: Result<Bands>)
    requires Stationary(swt)
    requires Is3D(a) && Extent(a, I) % 2 == 0
    ensures r.Failure? <==> !NonEmpty3(a.shape)
    ensures r.Failure? ==> r.error == (if NoLines(a, I) then ConcatError else EmptyLineError)
    ensures r.Success? ==> r.value == AxisBands(swt, a, I)
  {
    var d0, d1, d2 := a.shape[0], a.shape[1], a.shape[2];
    var rows := RowOff(d1, d0, 0);
    RowOffZero(d1, d0);
    if rows > 0 && d2 == 0 {
      // pywt.swt rejects the first line, which is empty.
      return Failure(EmptyLineError);
    }
    var h, l := TransformRows(swt, a.data, rows, d2);
    if rows == 0 {
      return Failure(ConcatError);
    }
    var H, L := NdArray(a.shape, h), NdArray(a.shape, l);
    var spec := AxisBands(swt, a, I);
    forall k: nat, j: nat, i: nat | k < d0 && j < d1 && i < d2
      ensures At(H, k, j, i) == At(spec.detail, k, j, i) && At(L, k, j, i) == At(spec.approx, k, j, i)
    {
      RowIsLineI(a, k, j, i);
      RowOffBelow(d1, k, j, d0);
      AxisBandsAt(swt, a, I, k, j, i);
    }
    Extensionality(H, spec.detail);
    Extensionality(L, spec.approx);
    r := Success(Bands(H, L));
  }

  /**
   * `_decompose_j` (imageoperations.py:491-502): transpose the two inner axes, transform the
   * rows, and transpose the results back. It raises as `_decompose_i` does: on empty lines
   * (extent j is 0) in `pywt.swt`, on no line at all in `numpy.hstack`.
   */
  method DecomposeJ(swt: Transform, a: NdArray) returns (r: Result<Bands>)
    requires Stationary(swt)
    requires Is3D(a) && Extent(a, J) % 2 == 0
    ensures r.Failure? <==> !NonEmpty3(a.shape)
    ensures r.Failure? ==> r.error == (if NoLines(a, J) then ConcatError else EmptyLineError)
    ensures r.Success? ==> r.value == AxisBands(swt, a, J)
  {
    var d0, d1, d2 := a.shape[0], a.shape[1], a.shape[2];
    var swapped := SwapInner(a);
    var rows := RowOff(d2, d0, 0);
    RowOffZero(d2, d0);
    if rows > 0 && d1 == 0 {
      // pywt.swt rejects the first line, which is empty.
      return Failure(EmptyLineError);
    }
    var h, l := TransformRows(swt, swapped.data, rows, d1);
    if rows == 0 {
      return Failure(ConcatError);
    }
    var hw, lw := NdArray([d0, d2, d1], h), NdArray([d0, d2, d1], l);
    var H, L := SwapInner(hw), SwapInner(lw);
    var spec := AxisBands(swt, a, J);
    forall k: nat, j: nat, i: nat | k < d0 && j < d1 && i < d2
      ensures At(H, k, j, i) == At(spec.detail, k, j, i) && At(L, k, j, i) == At(spec.approx, k, j, i)
    {
      SwapInnerAt(hw, k, i, j);
      SwapInnerAt(lw, k, i, j);
      RowIsLineJ(a, k, j, i);
      RowOffBelow(d2, k, i, d0);
      OffBelow(d0, d2, d1, k, i, j);
      AxisBandsAt(swt, a, J, k, j, i);
    }
    Extensionality(H, spec.detail);
    Extensionality(L, spec.approx);
    r := Success(Bands(H, L));
  }

  /**
   * `_decompose_k` (imageoperations.py:505-515): reverse the axes, transform the rows, and
   * reverse the axes of the results (what `vstack`, `split`, `asarray` and `.T` amount to).
   * It raises on empty lines (extent k is 0) in `pywt.swt`, on no line at all in `numpy.vstack`.
   */
  method DecomposeK(swt: Transform, a: NdArray) returns (r: Result<Bands>)
    requires Stationary(swt)
    requires Is3D(a) && Extent(a, K) % 2 == 0
    ensures r.Failure? <==> !NonEmpty3(a.shape)
    ensures r.Failure? ==> r.error == (if NoLines(a, K) then ConcatError else EmptyLineError)
    ensures r.Success? ==> r.value == AxisBands(swt, a, K)
  {
    var d0, d1, d2 := a.shape[0], a.shape[1], a.shape[2];
    var reversed := ReverseAxes(a);
    var rows := RowOff(d1, d2, 0);
    RowOffZero(d1, d2);
    if rows > 0 && d0 == 0 {
      // pywt.swt rejects the first line, which is empty.
      return Failure(EmptyLineError);
    }
    var h, l := TransformRows(swt, reversed.data, rows, d0);
    if rows == 0 {
      return Failure(ConcatError);
    }
    var hw, lw := NdArray([d2, d1, d0], h), NdArray([d2, d1, d0], l);
    var H, L := ReverseAxes(hw), ReverseAxes(lw);
    var spec := AxisBands(swt, a, K);
    forall k: nat, j: nat, i: nat | k < d0 && j < d1 && i < d2
      ensures At(H, k, j, i) == At(spec.detail, k, j, i) && At(L, k, j, i) == At(spec.approx, k, j, i)
    {
      ReverseAxesAt(hw, i, j, k);
      ReverseAxesAt(lw, i, j, k);
      RowIsLineK(a, k, j, i);
      RowOffBelow(d1, i, j, d2);
      OffBelow(d2, d1, d0, i, j, k);
      AxisBandsAt(swt, a, K, k, j, i);
    }
    Extensionality(H, spec.detail);
    Extensionality(L, spec.approx);
    r := Success(Bands(H, L));
  }
}
