/**
 * The three-dimensional stationary wavelet driver `_swt3`: pad the volume to even extents,
 * run the warm-up passes, run the emitting passes (each splitting its input into eight
 * octant sub-bands, keeping seven and feeding LLL to the next pass), and trim every result
 * back to the original shape.
 *
 * The reference definitions are stated over an abstract per-axis decomposer `dec`; the
 * methods work with the transform itself and are proved against any `dec` that agrees with
 * AxisBands on even volumes (AxisDecomposer is one).
 */
module StationaryWavelet {
  import opened Errors
  import opened NdArrays
  import opened AxisDecompose

  /**
   * A SimpleITK image as the driver sees it: the voxel grid `GetArrayFromImage` returns and
   * the metadata `CopyInformation` copies (origin, spacing, direction), kept opaque.
   */
  datatype Image<M> = Image(voxels: NdArray, info: M)

  /** One entry of a level's dictionary: a sub-band name and its image. */
  datatype Entry<M> = Entry(name: string, image: Image<M>)

  /** What `_swt3` returns: the final approximation and one dictionary per emitting pass. */
  datatype Run<M> = Run(approximation: Image<M>, levels: seq<seq<Entry<M>>>)

  /** Which output of a one-axis decomposition a sub-band takes: L (approx) or H (detail). */
  datatype Pass = Low | High

  function Letter(p: Pass): char {
    if p == High then 'H' else 'L'
  }

  /** The name of a sub-band: its outcome along i, then along j, then along k. */
  function Label(i: Pass, j: Pass, k: Pass): (name: string)
    ensures |name| == 3
  {
    [Letter(i), Letter(j), Letter(k)]
  }

  /** Where Label puts each outcome, so that distinct outcomes get distinct names. */
  lemma LabelInjective(i: Pass, j: Pass, k: Pass, i': Pass, j': Pass, k': Pass)
    ensures Label(i, j, k) == Label(i', j', k') <==> (i, j, k) == (i', j', k')
  {
    if Label(i, j, k) == Label(i', j', k') {
      assert Label(i, j, k)[0] == Label(i', j', k')[0];
      assert Label(i, j, k)[1] == Label(i', j', k')[1];
      assert Label(i, j, k)[2] == Label(i', j', k')[2];
    }
  }

  /** A three-dimensional array whose every extent is even, as the decomposers require. */
  predicate Even3(v: NdArray) {
    Is3D(v) && v.shape[0] % 2 == 0 && v.shape[1] % 2 == 0 && v.shape[2] % 2 == 0
  }

  /** `_decompose_i`, `_decompose_j` or `_decompose_k`, as one function of the volume and the axis. */
  type Decomposer = (NdArray, Axis) -> Bands

  /** Decomposing an even volume along any axis gives two volumes of its shape. */
  ghost predicate ShapePreserving(dec: Decomposer) {
    forall a, axis {:trigger dec(a, axis)} :: Even3(a) ==>
      && Even3(dec(a, axis).detail) && dec(a, axis).detail.shape == a.shape
      && Even3(dec(a, axis).approx) && dec(a, axis).approx.shape == a.shape
  }

  /** dec is the decomposition of swt: on every even volume it agrees with AxisBands. */
  ghost predicate Implements(swt: Transform, dec: Decomposer)
    requires Stationary(swt)
  {
    && ShapePreserving(dec)
    && forall a, axis {:trigger AxisBands(swt, a, axis)} :: Even3(a) ==> dec(a, axis) == AxisBands(swt, a, axis)
  }

  /**
   * The decomposer of a transform: AxisBands on the even volumes the driver decomposes; the
   * value on other volumes is never used.
   */
  function AxisDecomposer(swt: Transform): (dec: Decomposer)
    requires Stationary(swt)
    ensures Implements(swt, dec)
  {
    (a, axis) => if Even3(a) then AxisBands(swt, a, axis) else Bands(a, a)
  }

  function Choose(b: Bands, p: Pass): NdArray {
    if p == High then b.detail else b.approx
  }

  /**
   * The sub-band of one pass over v with the given outcomes: decompose along i, take the
   * chosen output, decompose that along j, and so on along k. All sub-bands keep v's shape.
   */
  function Band(dec: Decomposer, v: NdArray, i: Pass, j: Pass, k: Pass): (r: NdArray)
    requires ShapePreserving(dec) && Even3(v)
    ensures Even3(r) && r.shape == v.shape
  {
    var x := Choose(dec(v, I), i);
    var y := Choose(dec(x, J), j);
    Choose(dec(y, K), k)
  }

  /** The input of the pass after n passes starting from v: LLL of LLL of ... of v. */
  function Approximation(dec: Decomposer, v: NdArray, n: nat): (r: NdArray)
    requires ShapePreserving(dec) && Even3(v)
    ensures Even3(r) && r.shape == v.shape
  {
    if n == 0 then v else Band(dec, Approximation(dec, v, n - 1), Low, Low, Low)
  }

  /** One more pass applies LLL to the approximation so far. */
  lemma ApproximationStep(dec: Decomposer, v: NdArray, n: nat)
    requires ShapePreserving(dec) && Even3(v)
    ensures Approximation(dec, v, n + 1) == Band(dec, Approximation(dec, v, n), Low, Low, Low)
  {
  }

  /** The sub-bands a level keeps, in the order the level's dictionary lists them. */
  const Kept: seq<(Pass, Pass, Pass)> := [
    (High, High, High), (High, High, Low), (High, Low, High), (High, Low, Low),
    (Low, High, High), (Low, High, Low), (Low, Low, High)]

  /** A level keeps every sub-band but LLL, each exactly once. */
  lemma KeptIsAllButLLL(i: Pass, j: Pass, k: Pass)
    ensures (i, j, k) in Kept <==> (i, j, k) != (Low, Low, Low)
    ensures forall s, t | 0 <= s < t < |Kept| :: Kept[s] != Kept[t]
  {
  }

  /** Number of iterations of `range(a, a + n)` (or `range(0, n)`): none when n is not positive. */
  function Passes(n: int): nat {
    if n > 0 then n else 0
  }

  /** The seven kept sub-bands of one pass over x, in the order of Kept. */
  function KeptBands(dec: Decomposer, x: NdArray): (bands: seq<NdArray>)
    requires ShapePreserving(dec) && Even3(x)
    ensures |bands| == |Kept|
  {
    seq(|Kept|, t requires 0 <= t < |Kept| => Band(dec, x, Kept[t].0, Kept[t].1, Kept[t].2))
  }

  /**
   * A level's dictionary built from its seven sub-bands: each trimmed back to the original
   * shape with `numpy.resize`, given the input's metadata and listed under its name.
   */
  function Trimmed<M>(bands: seq<NdArray>, shape: seq<nat>, info: M): (level: seq<Entry<M>>)
    requires |bands| == |Kept|
    ensures |level| == |Kept|
  {
    seq(|Kept|, t requires 0 <= t < |Kept| =>
      Entry(Label(Kept[t].0, Kept[t].1, Kept[t].2), Image(Resize(bands[t], shape), info)))
  }

  /** The dictionary of the pass whose input is x. */
  function LevelOf<M>(dec: Decomposer, x: NdArray, shape: seq<nat>, info: M): seq<Entry<M>>
    requires ShapePreserving(dec) && Even3(x)
  {
    Trimmed(KeptBands(dec, x), shape, info)
  }

  /** The names of a level's entries, in order. */
  function Names<M>(level: seq<Entry<M>>): (names: seq<string>)
    ensures |names| == |level|
  {
    seq(|level|, t requires 0 <= t < |level| => level[t].name)
  }

  /** The dictionaries of the emitting passes whose inputs are the approximations lo .. hi - 1 of v. */
  function Levels<M>(dec: Decomposer, v: NdArray, lo: nat, hi: nat, shape: seq<nat>, info: M): (levels: seq<seq<Entry<M>>>)
    requires ShapePreserving(dec) && Even3(v) && lo <= hi
    ensures |levels| == hi - lo
  {
    seq(hi - lo, t requires 0 <= t < hi - lo => LevelOf(dec, Approximation(dec, v, lo + t), shape, info))
  }

  /** One more emitting pass appends the dictionary of the next approximation. */
  lemma LevelsSnoc<M>(dec: Decomposer, v: NdArray, lo: nat, hi: nat, shape: seq<nat>, info: M)
    requires ShapePreserving(dec) && Even3(v) && lo <= hi
    ensures Levels(dec, v, lo, hi + 1, shape, info)
            == Levels(dec, v, lo, hi, shape, info) + [LevelOf(dec, Approximation(dec, v, hi), shape, info)]
  {
  }

  /** Each emitting pass's input is the LLL sub-band of the previous pass's input. */
  lemma LevelsChain<M>(dec: Decomposer, v: NdArray, lo: nat, hi: nat, shape: seq<nat>, info: M, t: nat)
    requires ShapePreserving(dec) && Even3(v) && lo <= hi && t + 1 < hi - lo
    ensures Levels(dec, v, lo, hi, shape, info)[t + 1]
            == LevelOf(dec, Band(dec, Approximation(dec, v, lo + t), Low, Low, Low), shape, info)
  {
    ghost var y := Approximation(dec, v, lo + t + 1);
    ApproximationStep(dec, v, lo + t);
    assert lo + (t + 1) == lo + t + 1;
    assert Levels(dec, v, lo, hi, shape, info)[t + 1] == LevelOf(dec, y, shape, info);
  }

  /**
   * What the first `_decompose_i` of a pass raises on a volume with a zero extent: numpy's
   * join error when there is no line along i, otherwise pywt's on the empty lines.
   */
  function FirstPassError(shape: seq<nat>): Error
    requires |shape| == 3
  {
    if shape[0] == 0 || shape[1] == 0 then ConcatError else EmptyLineError
  }

  /** Padding to even extents neither creates nor removes a zero extent, so the error is the same. */
  lemma EvenShapeNonEmpty(shape: seq<nat>)
    requires |shape| == 3
    ensures NonEmpty3(EvenShape(shape)) <==> NonEmpty3(shape)
    ensures FirstPassError(EvenShape(shape)) == FirstPassError(shape)
  {
    var e := EvenShape(shape);
    assert e[0] % 2 == 0 && e[1] % 2 == 0 && e[2] % 2 == 0;
  }

  /**
   * The inputs `_swt3` decomposes without raising: three-dimensional, and with no zero extent
   * unless no pass runs at all.
   */
  predicate Decomposes(shape: seq<nat>, level: int, startLevel: int) {
    |shape| == 3 && (NonEmpty3(shape) || Passes(startLevel) + Passes(level) == 0)
  }

  /** The padded working volume of a three-dimensional input (imageoperations.py:426-429). */
  function Padded(a: NdArray): (r: NdArray)
    requires Valid(a) && |a.shape| == 3
    ensures Even3(r) && r.shape == EvenShape(a.shape)
  {
    Size3(EvenShape(a.shape));
    ResizeInPlace(a, EvenShape(a.shape))
  }

  /**
   * Reference definition of `_swt3(inputImage, wavelet, level, start_level)`: a volume that
   * is not three-dimensional raises; so does one with a zero extent as soon as a pass runs
   * (its first `_decompose_i` raises FirstPassError). Otherwise the padded volume goes through
   * Passes(start) warm-up passes, emitting pass t (from 0) works on the approximation after
   * start + t passes, and the approximation returned is the one after all of them, trimmed.
   */
  function Decomposition<M>(dec: Decomposer, input: Image<M>, level: int, startLevel: int): Result<Run<M>>
    requires ShapePreserving(dec) && Valid(input.voxels)
  {
    var shape := input.voxels.shape;
    if |shape| != 3 then Failure(ValueError("Expected 3D data array"))
    else if !Decomposes(shape, level, startLevel) then Failure(FirstPassError(shape))
    else
      var padded := Padded(input.voxels);
      var s, n := Passes(startLevel), Passes(level);
      Success(Run(Image(Resize(Approximation(dec, padded, s + n), shape), input.info),
                  Levels(dec, padded, s, s + n, shape, input.info)))
  }

  /**
   * The input is rejected exactly when its array is not three-dimensional (the driver's own
   * ValueError), or has a zero extent while some pass runs: numpy's join error when the
   * first `_decompose_i` finds no line, pywt's when its lines are empty.
   */
  lemma DecompositionFails<M>(dec: Decomposer, input: Image<M>, level: int, startLevel: int)
    requires ShapePreserving(dec) && Valid(input.voxels)
    ensures var r, shape := Decomposition(dec, input, level, startLevel), input.voxels.shape;
      && (r.Failure? <==> |shape| != 3 || (!NonEmpty3(shape) && Passes(startLevel) + Passes(level) > 0))
      && (|shape| != 3 ==> r == Failure(ValueError("Expected 3D data array")))
      && (|shape| == 3 && r.Failure? && (shape[0] == 0 || shape[1] == 0) ==> r == Failure(ConcatError))
      && (|shape| == 3 && r.Failure? && shape[0] > 0 && shape[1] > 0 ==> r == Failure(EmptyLineError))
  {
  }

  /** Every level lists HHH, HHL, HLH, HLL, LHH, LHL, LLH in that order, with the input's shape. */
  lemma TrimmedShape<M>(bands: seq<NdArray>, shape: seq<nat>, info: M)
    requires |bands| == |Kept|
    ensures Names(Trimmed(bands, shape, info)) == ["HHH", "HHL", "HLH", "HLL", "LHH", "LHL", "LLH"]
    ensures forall e | e in Trimmed(bands, shape, info) ::
              e.image.voxels.shape == shape && Valid(e.image.voxels) && e.image.info == info
  {
    var names := Names(Trimmed(bands, shape, info));
    assert names[6] == "LLH";
  }

  /**
   * On success there is one dictionary per emitting pass; each holds the seven sub-bands
   * HHH, HHL, HLH, HLL, LHH, LHL, LLH in that order (never LLL), and every image, the
   * approximation included, has the input's shape and metadata.
   */
  lemma DecompositionShape<M>(dec: Decomposer, input: Image<M>, level: int, startLevel: int)
    requires ShapePreserving(dec) && Valid(input.voxels) && Decomposes(input.voxels.shape, level, startLevel)
    ensures var r := Decomposition(dec, input, level, startLevel);
      && r.Success?
      && |r.value.levels| == Passes(level)
      && r.value.approximation.voxels.shape == input.voxels.shape
      && Valid(r.value.approximation.voxels)
      && r.value.approximation.info == input.info
      && forall t | 0 <= t < |r.value.levels| ::
           && Names(r.value.levels[t]) == ["HHH", "HHL", "HLH", "HLL", "LHH", "LHL", "LLH"]
           && forall e | e in r.value.levels[t] ::
                e.image.voxels.shape == input.voxels.shape && Valid(e.image.voxels) && e.image.info == input.info
  {
    var padded := Padded(input.voxels);
    var s := Passes(startLevel);
    var levels: seq<seq<Entry<M>>> := Levels(dec, padded, s, s + Passes(level), input.voxels.shape, input.info);
    forall t | 0 <= t < |levels|
      ensures Names(levels[t]) == ["HHH", "HHL", "HLH", "HLL", "LHH", "LHL", "LLH"]
      ensures forall e | e in levels[t] ::
                e.image.voxels.shape == input.voxels.shape && Valid(e.image.voxels) && e.image.info == input.info
    {
      assert levels[t] == LevelOf(dec, Approximation(dec, padded, s + t), input.voxels.shape, input.info);
      TrimmedShape(KeptBands(dec, Approximation(dec, padded, s + t)), input.voxels.shape, input.info);
    }
  }

  /** Emitting pass t works on the approximation after start_level + t passes, and the returned approximation is the one after all of them. */
  lemma DecompositionLevels<M>(dec: Decomposer, input: Image<M>, level: int, startLevel: int, t: nat)
    requires ShapePreserving(dec) && Valid(input.voxels) && Decomposes(input.voxels.shape, level, startLevel)
    requires t < Passes(level)
    ensures var r := Decomposition(dec, input, level, startLevel);
      var padded := Padded(input.voxels);
      && r.Success? && |r.value.levels| == Passes(level)
      && r.value.levels[t] == LevelOf(dec, Approximation(dec, padded, Passes(startLevel) + t), input.voxels.shape, input.info)
      && r.value.approximation.voxels == Resize(Approximation(dec, padded, Passes(startLevel) + Passes(level)), input.voxels.shape)
  {
  }

  /**
   * The samples of every output are the flat prefix of the padded-shape volume they were
   * trimmed from: entry u of dictionary t keeps the first Size(shape) samples of kept
   * sub-band u of its pass, and the approximation those of the input after all passes.
   */
  lemma DecompositionData<M>(dec: Decomposer, input: Image<M>, level: int, startLevel: int)
    requires ShapePreserving(dec) && Valid(input.voxels) && Decomposes(input.voxels.shape, level, startLevel)
    ensures var r, padded, size := Decomposition(dec, input, level, startLevel), Padded(input.voxels), Size(input.voxels.shape);
      var s, n := Passes(startLevel), Passes(level);
      && r.Success? && |r.value.levels| == n
      && r.value.levels == Levels(dec, padded, s, s + n, input.voxels.shape, input.info)
      && (forall t, u | 0 <= t < n && 0 <= u < |Kept| :: LevelEntryData(dec, padded, s, n, input.voxels.shape, input.info, t, u))
      && size <= |Approximation(dec, padded, s + n).data|
      && r.value.approximation.voxels.data == Approximation(dec, padded, s + n).data[..size]
  {
    var a := input.voxels;
    var padded := Padded(a);
    var s, n := Passes(startLevel), Passes(level);
    PaddedCovers(a);
    forall t, u | 0 <= t < n && 0 <= u < |Kept|
      ensures LevelEntryData(dec, padded, s, n, a.shape, input.info, t, u)
    {
      EntryIsPrefix(dec, padded, s, n, a.shape, input.info, t, u);
    }
    ResizeKeepsPrefix(Approximation(dec, padded, s + n), a.shape);
  }

  /** Entry u of dictionary t holds the flat prefix of kept sub-band u of its pass. */
  ghost predicate LevelEntryData<M>(dec: Decomposer, v: NdArray, lo: nat, n: nat, shape: seq<nat>, info: M, t: nat, u: nat)
    requires ShapePreserving(dec) && Even3(v) && t < n && u < |Kept|
  {
    var band := KeptBands(dec, Approximation(dec, v, lo + t))[u];
    && |Levels(dec, v, lo, lo + n, shape, info)[t]| == |Kept|
    && Size(shape) <= |band.data|
    && Levels(dec, v, lo, lo + n, shape, info)[t][u].image.voxels.data == band.data[..Size(shape)]
  }

  lemma EntryIsPrefix<M>(dec: Decomposer, v: NdArray, lo: nat, n: nat, shape: seq<nat>, info: M, t: nat, u: nat)
    requires ShapePreserving(dec) && Even3(v) && t < n && u < |Kept|
    requires Size(shape) <= |v.data|
    ensures LevelEntryData(dec, v, lo, n, shape, info, t, u)
  {
    var bands := KeptBands(dec, Approximation(dec, v, lo + t));
    assert Levels(dec, v, lo, lo + n, shape, info)[t] == LevelOf(dec, Approximation(dec, v, lo + t), shape, info);
    TrimmedPrefix(bands, shape, info, u);
  }

  /** The padded buffer, and every volume of its shape, holds at least the input's samples. */
  lemma PaddedCovers(a: NdArray)
    requires Valid(a) && |a.shape| == 3
    ensures Size(a.shape) <= |Padded(a).data|
  {
    Size3(EvenShape(a.shape));
    SizeMonotone(a.shape, EvenShape(a.shape));
  }

  /** Entry u of a trimmed level keeps the flat prefix of sub-band u. */
  lemma TrimmedPrefix<M>(bands: seq<NdArray>, shape: seq<nat>, info: M, u: nat)
    requires |bands| == |Kept| && u < |Kept| && Size(shape) <= |bands[u].data|
    ensures Trimmed(bands, shape, info)[u].image.voxels.data == bands[u].data[..Size(shape)]
  {
    ResizeKeepsPrefix(bands[u], shape);
  }

  /**
   * With no passes at all, the approximation is the input volume itself: trimming with
   * numpy.resize undoes the zero padding.
   */
  lemma NoPassesIsIdentity<M>(dec: Decomposer, input: Image<M>, level: int, startLevel: int)
    requires ShapePreserving(dec) && Valid(input.voxels) && |input.voxels.shape| == 3
    requires level <= 0 && startLevel <= 0
    ensures var r := Decomposition(dec, input, level, startLevel);
      r.Success? && r.value.levels == [] && r.value.approximation == input
  {
    var a := input.voxels;
    Size3(a.shape);
    Size3(EvenShape(a.shape));
    SizeMonotone(a.shape, EvenShape(a.shape));
    PadThenTrim(a, EvenShape(a.shape));
  }

  /** Trimming the seven sub-bands and filling the level's dictionary, in its order. */
  method TrimLevel<M>(bands: seq<NdArray>, shape: seq<nat>, info: M) returns (level: seq<Entry<M>>)
    requires |bands| == |Kept|
    ensures level == Trimmed(bands, shape, info)
  {
    level := [];
    var t := 0;
    while t < |Kept|
      invariant 0 <= t <= |Kept|
      invariant level == Trimmed(bands, shape, info)[..t]
    {
      var (i, j, k) := Kept[t];
      level := level + [Entry(Label(i, j, k), Image(Resize(bands[t], shape), info))];
      t := t + 1;
    }
  }

  /**
   * One emitting pass over data (imageoperations.py:443-451): its dictionary, and its LLL
   * sub-band for the next pass. On a volume with a zero extent the first `_decompose_i`
   * raises (FirstPassError); with every extent positive no call can raise.
   */
  method EmitLevel<M>(swt: Transform, ghost dec: Decomposer, data: NdArray, shape: seq<nat>, info: M)
    returns (r: Result<(seq<Entry<M>>, NdArray)>)
    requires Stationary(swt) && Implements(swt, dec) && Even3(data)
    ensures r.Failure? <==> !NonEmpty3(data.shape)
    ensures r.Failure? ==> r.error == FirstPassError(data.shape)
    ensures r.Success? ==> r.value == (LevelOf(dec, data, shape, info), Band(dec, data, Low, Low, Low))
  {
    var i :- DecomposeI(swt, data);
    var H, L := i.detail, i.approx;
    var h := DecomposeJ(swt, H);
    var l := DecomposeJ(swt, L);
    assert h.Success? && l.Success?;
    var HH, HL, LH, LL := h.value.detail, h.value.approx, l.value.detail, l.value.approx;
    var hh := DecomposeK(swt, HH);
    var hl := DecomposeK(swt, HL);
    var lh := DecomposeK(swt, LH);
    var ll := DecomposeK(swt, LL);
    assert hh.Success? && hl.Success? && lh.Success? && ll.Success?;
    var HHH, HHL, HLH, HLL := hh.value.detail, hh.value.approx, hl.value.detail, hl.value.approx;
    var LHH, LHL, LLH, LLL := lh.value.detail, lh.value.approx, ll.value.detail, ll.value.approx;
    var bands := [HHH, HHL, HLH, HLL, LHH, LHL, LLH];
    assert bands == KeptBands(dec, data);
    var level := TrimLevel(bands, shape, info);
    return Success((level, LLL));
  }

  /**
   * One emitting pass (imageoperations.py:442-469) over the approximation after n passes:
   * the dictionaries so far with this pass's appended, and the approximation after n + 1
   * passes for the next one.
   */
  method EmitPass<M>(swt: Transform, ghost dec: Decomposer, v: NdArray, s: nat, n: nat, data: NdArray,
                     ret: seq<seq<Entry<M>>>, shape: seq<nat>, info: M)
    returns (r: Result<(seq<seq<Entry<M>>>, NdArray)>)
    requires Stationary(swt) && Implements(swt, dec) && Even3(v) && s <= n
    requires data == Approximation(dec, v, n) && ret == Levels(dec, v, s, n, shape, info)
    ensures r.Failure? <==> !NonEmpty3(v.shape)
    ensures r.Failure? ==> r.error == FirstPassError(v.shape)
    ensures r.Success? ==> r.value == (Levels(dec, v, s, n + 1, shape, info), Approximation(dec, v, n + 1))
  {
    var pass :- EmitLevel(swt, dec, data, shape, info);
    var (level, next) := pass;
    ApproximationStep(dec, v, n);
    LevelsSnoc(dec, v, s, n, shape, info);
    return Success((ret + [level], next));
  }

  /**
   * One warm-up pass (imageoperations.py:435-439): decompose along i, j and k, keeping only
   * the L outputs, which turns the approximation after n passes into the one after n + 1.
   */
  method LowPass(swt: Transform, ghost dec: Decomposer, v: NdArray, n: nat, data: NdArray) returns (r: Result<NdArray>)
    requires Stationary(swt) && Implements(swt, dec) && Even3(v) && data == Approximation(dec, v, n)
    ensures r.Failure? <==> !NonEmpty3(v.shape)
    ensures r.Failure? ==> r.error == FirstPassError(v.shape)
    ensures r.Success? ==> r.value == Approximation(dec, v, n + 1)
  {
    var i :- DecomposeI(swt, data);
    var j := DecomposeJ(swt, i.approx);
    assert j.Success?;
    var k := DecomposeK(swt, j.value.approx);
    assert k.Success?;
    ApproximationStep(dec, v, n);
    return Success(k.value.approx);
  }

  /** The warm-up loop (imageoperations.py:434-439): start_level passes keeping only LLL. */
  method WarmUp(swt: Transform, ghost dec: Decomposer, padded: NdArray, startLevel: int) returns (r: Result<NdArray>)
    requires Stationary(swt) && Implements(swt, dec) && Even3(padded)
    ensures r.Failure? <==> Passes(startLevel) > 0 && !NonEmpty3(padded.shape)
    ensures r.Failure? ==> r.error == FirstPassError(padded.shape)
    ensures r.Success? ==> r.value == Approximation(dec, padded, Passes(startLevel))
  {
    var data := padded;
    for i := 0 to Passes(startLevel)
      invariant data == Approximation(dec, padded, i)
      invariant i > 0 ==> NonEmpty3(padded.shape)
    {
      data :- LowPass(swt, dec, padded, i, data);
    }
    return Success(data);
  }

  /**
   * The emitting loop (imageoperations.py:441-469): `level` passes, each appending its
   * dictionary to ret and handing its LLL sub-band to the next.
   */
  method EmitLevels<M>(swt: Transform, ghost dec: Decomposer, padded: NdArray, first: NdArray,
                       startLevel: int, level: int, shape: seq<nat>, info: M)
    returns (r: Result<(seq<seq<Entry<M>>>, NdArray)>)
    requires Stationary(swt) && Implements(swt, dec) && Even3(padded)
    requires first == Approximation(dec, padded, Passes(startLevel))
    ensures r.Failure? <==> Passes(level) > 0 && !NonEmpty3(padded.shape)
    ensures r.Failure? ==> r.error == FirstPassError(padded.shape)
    ensures r.Success? ==> r.value == (Levels(dec, padded, Passes(startLevel), Passes(startLevel) + Passes(level), shape, info),
                                       Approximation(dec, padded, Passes(startLevel) + Passes(level)))
  {
    var s, hi := Passes(startLevel), Passes(startLevel) + Passes(level);
    // ret and data of the source, as one pair.
    var state: (seq<seq<Entry<M>>>, NdArray) := ([], first);
    // range(start_level, start_level + level), counted in passes over the padded volume.
    for n := s to hi
      invariant state == (Levels(dec, padded, s, n, shape, info), Approximation(dec, padded, n))
      invariant n > s ==> NonEmpty3(padded.shape)
    {
      state :- EmitPass(swt, dec, padded, s, n, state.1, state.0, shape, info);
    }
    return Success(state);
  }

  /**
   * `_swt3` (imageoperations.py:420-475), proved against Decomposition, whose properties
   * are the lemmas above.
   */
  method Swt3<M>(swt: Transform, ghost dec: Decomposer, input: Image<M>, level: int, startLevel: int)
    returns (r: Result<Run<M>>)
    requires Stationary(swt) && Implements(swt, dec) && Valid(input.voxels)
    ensures r == Decomposition(dec, input, level, startLevel)
  {
    var matrix := input.voxels;
    if |matrix.shape| != 3 {
      return Failure(ValueError("Expected 3D data array"));
    }
    var originalShape := matrix.shape;
    var padded := Padded(matrix);
    EvenShapeNonEmpty(originalShape);
    var data :- WarmUp(swt, dec, padded, startLevel);
    var emitted :- EmitLevels(swt, dec, padded, data, startLevel, level, originalShape, input.info);
    var (ret, last) := emitted;
    var approximation := Image(Resize(last, originalShape), input.info);
    r := Success(Run(approximation, ret));
  }
}
