/**
 * `getWaveletImage`: run the stationary wavelet driver and hand out every sub-band of every
 * level, then the final approximation, each under its filter name.
 */
module WaveletImage {
  import opened Errors
  import opened NdArrays
  import opened AxisDecompose
  import opened StationaryWavelet

  /** The character of a decimal digit. */
  function DigitChar(d: nat): char
    requires d < 10
  {
    "0123456789"[d]
  }

  predicate IsDigit(c: char) {
    '0' <= c <= '9'
  }

  /** The value of a decimal digit character. */
  function DigitValue(c: char): nat
    requires IsDigit(c)
  {
    (c - '0') as nat
  }

  /** Python's `'%s' % n` for a non-negative int: its decimal digits with no leading zero. */
  function Decimal(n: nat): (s: string)
    ensures |s| >= 1 && (forall c | c in s :: IsDigit(c))
    ensures s[0] == '0' ==> n == 0
    decreases n
  {
    if n < 10 then [DigitChar(n)] else Decimal(n / 10) + [DigitChar(n % 10)]
  }

  /** The number a string of decimal digits denotes. */
  function Value(s: string): nat
    requires forall c | c in s :: IsDigit(c)
  {
    if |s| == 0 then 0 else 10 * Value(s[..|s| - 1]) + DigitValue(s[|s| - 1])
  }

  /** Reading the decimal digits of n back gives n. */
  lemma {:induction false} ValueOfDecimal(n: nat)
    ensures Value(Decimal(n)) == n
    decreases n
  {
    var s := Decimal(n);
    if n < 10 {
      assert s[..0] == [];
    } else {
      ValueOfDecimal(n / 10);
      assert s[..|s| - 1] == Decimal(n / 10);
    }
  }

  /** Distinct numbers have distinct decimal forms. */
  lemma DecimalInjective(m: nat, n: nat)
    ensures Decimal(m) == Decimal(n) <==> m == n
  {
    if Decimal(m) == Decimal(n) {
      ValueOfDecimal(m);
      ValueOfDecimal(n);
    }
  }

  /**
   * The name of sub-band `band` of level idx (imageoperations.py:405-408): the level number
   * is left out for the first level.
   */
  function FilterName(idx: nat, band: string): string {
    if idx == 1 then "wavelet-" + band else "wavelet" + Decimal(idx) + "-" + band
  }

  /**
   * The name of the final approximation after `count` levels (imageoperations.py:412-415):
   * `wavelet-LLL` after one level, `wavelet<count>-LLL` otherwise.
   */
  function ApproximationName(count: nat): string {
    if count == 1 then "wavelet-LLL" else "wavelet" + Decimal(count) + "-LLL"
  }

  /** The approximation is named as sub-band LLL of the last level would be. */
  lemma ApproximationNameIsLLL(count: nat)
    ensures ApproximationName(count) == FilterName(count, "LLL")
  {
  }

  lemma NamesOfLevelOne(band: string)
    ensures FilterName(1, band) == "wavelet-" + band
    ensures FilterName(2, band) == "wavelet2-" + band
    ensures FilterName(10, band) == "wavelet10-" + band
  {
    assert Decimal(10) == ['1', '0'];
  }

  /** The part of a filter name after `wavelet`: the level number (if any) and the dash. */
  lemma FilterNameParts(idx: nat, band: string)
    ensures var name := FilterName(idx, band);
      && |name| > 8 + |band| - 1
      && name[..7] == "wavelet"
      && name[|name| - |band|..] == band
      && (idx == 1 <==> name[7] == '-')
  {
    var name := FilterName(idx, band);
    if idx != 1 {
      var d := Decimal(idx);
      assert name == "wavelet" + d + "-" + band;
      assert name[7] == d[0];
      assert d[0] in d;
    }
  }

  /**
   * Two sub-bands with three-letter labels get the same name exactly when they are the same
   * sub-band of the same level.
   */
  lemma FilterNameInjective(i: nat, a: string, j: nat, b: string)
    requires |a| == 3 && |b| == 3
    ensures FilterName(i, a) == FilterName(j, b) <==> i == j && a == b
  {
    var x, y := FilterName(i, a), FilterName(j, b);
    if x == y {
      FilterNameParts(i, a);
      FilterNameParts(j, b);
      assert a == x[|x| - 3..] == b;
      if i != 1 && j != 1 {
        var p := "wavelet" + Decimal(i) + "-";
        var q := "wavelet" + Decimal(j) + "-";
        assert x == p + a && y == q + b;
        assert p == x[..|x| - 3] == q;
        assert Decimal(i) == p[7..|p| - 1];
        assert Decimal(j) == q[7..|q| - 1];
        DecimalInjective(i, j);
      }
    }
  }

  /** One item the generator yields: an image, its filter name and the keyword arguments. */
  datatype Output<M, K> = Output(image: Image<M>, name: string, kwargs: K)

  /** The items of level idx, in its dictionary's order (imageoperations.py:402-410). */
  function LevelOutputs<M, K>(idx: nat, level: seq<Entry<M>>, kwargs: K): (out: seq<Output<M, K>>)
    ensures |out| == |level|
  {
    seq(|level|, u requires 0 <= u < |level| => Output(level[u].image, FilterName(idx, level[u].name), kwargs))
  }

  /** The items of all levels, level 1 first. */
  function Outputs<M, K>(levels: seq<seq<Entry<M>>>, kwargs: K): seq<Output<M, K>> {
    if |levels| == 0 then []
    else Outputs(levels[..|levels| - 1], kwargs) + LevelOutputs(|levels|, levels[|levels| - 1], kwargs)
  }

  /** Everything the generator yields for one run: the levels' items, then the approximation. */
  function Emission<M, K>(run: Run<M>, kwargs: K): seq<Output<M, K>> {
    Outputs(run.levels, kwargs) + [Output(run.approximation, ApproximationName(|run.levels|), kwargs)]
  }

  /** Reference definition of `getWaveletImage`: the emission of a successful run, or its error. */
  function WaveletImages<M, K>(dec: Decomposer, input: Image<M>, level: Option<int>, startLevel: Option<int>, kwargs: K)
    : Result<seq<Output<M, K>>>
    requires ShapePreserving(dec) && Valid(input.voxels)
  {
    var r := Decomposition(dec, input, GetOr(level, 1), GetOr(startLevel, 0));
    if r.Failure? then Failure(r.error) else Success(Emission(r.value, kwargs))
  }

  /** The sub-band names of every level, in the order the level's dictionary lists them. */
  const LevelNames: seq<string> := ["HHH", "HHL", "HLH", "HLL", "LHH", "LHL", "LLH"]

  /** Every level lists exactly the seven sub-bands, in dictionary order. */
  predicate WellNamed<M>(levels: seq<seq<Entry<M>>>) {
    forall t | 0 <= t < |levels| :: Names(levels[t]) == LevelNames
  }

  /**
   * The levels' items, 7 per level: item p is sub-band p % 7 (in the order HHH, HHL, HLH,
   * HLL, LHH, LHL, LLH) of level p / 7 + 1, named for that level.
   */
  lemma {:induction false} OutputsAt<M, K>(levels: seq<seq<Entry<M>>>, kwargs: K)
    requires WellNamed(levels)
    ensures |Outputs(levels, kwargs)| == 7 * |levels|
    ensures forall p | 0 <= p < 7 * |levels| ::
              && Names(levels[p / 7]) == LevelNames
              && Outputs(levels, kwargs)[p]
                 == Output(levels[p / 7][p % 7].image, FilterName(p / 7 + 1, LevelNames[p % 7]), kwargs)
  {
    if |levels| > 0 {
      var n := |levels| - 1;
      var init := levels[..n];
      assert WellNamed(init) by {
        forall t | 0 <= t < |init|
          ensures Names(init[t]) == LevelNames
        {
          assert init[t] == levels[t];
        }
      }
      OutputsAt(init, kwargs);
      var last := LevelOutputs(n + 1, levels[n], kwargs);
      var out := Outputs(levels, kwargs);
      assert out == Outputs(init, kwargs) + last;
      forall p | 0 <= p < 7 * |levels|
        ensures Names(levels[p / 7]) == LevelNames
        ensures out[p] == Output(levels[p / 7][p % 7].image, FilterName(p / 7 + 1, LevelNames[p % 7]), kwargs)
      {
        if p < 7 * n {
          assert init[p / 7] == levels[p / 7];
        } else {
          assert p / 7 == n && p % 7 == p - 7 * n;
          assert Names(levels[n])[p % 7] == levels[n][p % 7].name;
        }
      }
    }
  }

  /**
   * The generator yields 7 items per level and then one: item p < 7 * level is sub-band
   * p % 7 of level p / 7 + 1 (OutputsAt), and the last item is the approximation, named for
   * the number of levels.
   */
  lemma EmissionOrder<M, K>(run: Run<M>, kwargs: K)
    requires WellNamed(run.levels)
    ensures var out, n := Emission(run, kwargs), |run.levels|;
      && |out| == 7 * n + 1
      && (forall p | 0 <= p < 7 * n ::
            && Names(run.levels[p / 7]) == LevelNames
            && out[p] == Output(run.levels[p / 7][p % 7].image, FilterName(p / 7 + 1, LevelNames[p % 7]), kwargs))
      && out[7 * n] == Output(run.approximation, ApproximationName(n), kwargs)
  {
    OutputsAt(run.levels, kwargs);
  }

  /** Two distinct positions among the levels' items name different sub-bands. */
  lemma ItemNamesDiffer(p: nat, q: nat)
    requires p < q
    ensures FilterName(p / 7 + 1, LevelNames[p % 7]) != FilterName(q / 7 + 1, LevelNames[q % 7])
  {
    FilterNameInjective(p / 7 + 1, LevelNames[p % 7], q / 7 + 1, LevelNames[q % 7]);
    if p / 7 == q / 7 {
      assert p % 7 != q % 7;
    }
  }

  /** No item of the levels is named as the final approximation. */
  lemma ItemNotApproximation(p: nat, n: nat)
    ensures FilterName(p / 7 + 1, LevelNames[p % 7]) != ApproximationName(n)
  {
    ApproximationNameIsLLL(n);
    FilterNameInjective(p / 7 + 1, LevelNames[p % 7], n, "LLL");
  }

  /** No two items the generator yields carry the same name. */
  lemma EmissionDistinct<M, K>(run: Run<M>, kwargs: K)
    requires WellNamed(run.levels)
    ensures var out := Emission(run, kwargs);
      forall p, q | 0 <= p < q < |out| :: out[p].name != out[q].name
  {
    EmissionOrder(run, kwargs);
    var out, n := Emission(run, kwargs), |run.levels|;
    forall p, q | 0 <= p < q < |out|
      ensures out[p].name != out[q].name
    {
      if q == 7 * n {
        ItemNotApproximation(p, n);
      } else {
        ItemNamesDiffer(p, q);
      }
    }
  }

  /**
   * The driver's errors propagate before anything is yielded: a non-three-dimensional input
   * raises its ValueError, and one with a zero extent that of the first `_decompose_i`
   * (numpy's or pywt's) as soon as some pass runs.
   */
  lemma WaveletImagesFails<M, K>(dec: Decomposer, input: Image<M>, level: Option<int>, startLevel: Option<int>, kwargs: K)
    requires ShapePreserving(dec) && Valid(input.voxels)
    ensures var r, shape := WaveletImages(dec, input, level, startLevel, kwargs), input.voxels.shape;
      && (r.Failure? <==> !Decomposes(shape, GetOr(level, 1), GetOr(startLevel, 0)))
      && (|shape| != 3 ==> r == Failure(ValueError("Expected 3D data array")))
      && (|shape| == 3 && r.Failure? && (shape[0] == 0 || shape[1] == 0) ==> r == Failure(ConcatError))
      && (|shape| == 3 && r.Failure? && shape[0] > 0 && shape[1] > 0 ==> r == Failure(EmptyLineError))
  {
    DecompositionFails(dec, input, GetOr(level, 1), GetOr(startLevel, 0));
  }

  /**
   * An input the driver decomposes yields the emission of a run with `level` levels (1 when
   * the keyword is absent, none when it is not positive), every level well named; so there
   * are 7 * level + 1 items, in the order of EmissionOrder, with distinct names.
   */
  lemma WaveletImagesShape<M, K>(dec: Decomposer, input: Image<M>, level: Option<int>, startLevel: Option<int>, kwargs: K)
    requires ShapePreserving(dec) && Valid(input.voxels)
    requires Decomposes(input.voxels.shape, GetOr(level, 1), GetOr(startLevel, 0))
    ensures var r := WaveletImages(dec, input, level, startLevel, kwargs);
      var run := Decomposition(dec, input, GetOr(level, 1), GetOr(startLevel, 0));
      && r.Success? && run.Success?
      && |run.value.levels| == Passes(GetOr(level, 1))
      && WellNamed(run.value.levels)
      && r.value == Emission(run.value, kwargs)
      && |r.value| == 7 * Passes(GetOr(level, 1)) + 1
      && forall p, q | 0 <= p < q < |r.value| :: r.value[p].name != r.value[q].name
  {
    DecompositionShape(dec, input, GetOr(level, 1), GetOr(startLevel, 0));
    var run := Decomposition(dec, input, GetOr(level, 1), GetOr(startLevel, 0)).value;
    EmissionOrder(run, kwargs);
    EmissionDistinct(run, kwargs);
  }

  /** The inner loop of `getWaveletImage` (imageoperations.py:402-410): level idx's items, in dictionary order. */
  method LevelItems<M, K>(idx: nat, wl: seq<Entry<M>>, kwargs: K) returns (items: seq<Output<M, K>>)
    ensures items == LevelOutputs(idx, wl, kwargs)
  {
    items := [];
    for u := 0 to |wl|
      invariant items == LevelOutputs(idx, wl, kwargs)[..u]
    {
      var name;
      if idx == 1 {
        name := "wavelet-" + wl[u].name;
      } else {
        name := "wavelet" + Decimal(idx) + "-" + wl[u].name;
      }
      items := items + [Output(wl[u].image, name, kwargs)];
    }
  }

  /**
   * `getWaveletImage(inputImage, **kwargs)` (imageoperations.py:367-417), with the generator's
   * items collected in order; proved against WaveletImages.
   */
  method GetWaveletImage<M, K>(swt: Transform, ghost dec: Decomposer, input: Image<M>,
                               level: Option<int>, startLevel: Option<int>, kwargs: K)
    returns (r: Result<seq<Output<M, K>>>)
    requires Stationary(swt) && Implements(swt, dec) && Valid(input.voxels)
    ensures r == WaveletImages(dec, input, level, startLevel, kwargs)
  {
    var run := Swt3(swt, dec, input, GetOr(level, 1), GetOr(startLevel, 0));
    if run.Failure? {
      return Failure(run.error);
    }
    var ret := run.value.levels;
    var out: seq<Output<M, K>> := [];
    for t := 0 to |ret|
      invariant out == Outputs(ret[..t], kwargs)
    {
      var items := LevelItems(t + 1, ret[t], kwargs);
      assert ret[..t + 1][..t] == ret[..t];
      out := out + items;
    }
    assert ret[..|ret|] == ret;
    var name;
    if |ret| == 1 {
      name := "wavelet-LLL";
    } else {
      name := "wavelet" + Decimal(|ret|) + "-LLL";
    }
    r := Success(out + [Output(run.value.approximation, name, kwargs)]);
  }
}
