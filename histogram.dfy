/**
 * Fixed-width gray-level binning: `getHistogram` computes the bin edges (multiples of the bin
 * width from just below the minimum to just past the maximum) and numpy's histogram over
 * them; `binImage` replaces every voxel of the region of interest by its bin number.
 */
module Histogram {
  import opened Errors
  import opened FlatIndex

  function Min(s: seq<int>): (m: int)
    requires |s| > 0
    ensures m in s && forall v | v in s :: m <= v
  {
    if |s| == 1 then s[0]
    else
      var m := Min(s[1..]);
      assert forall v | v in s :: v == s[0] || v in s[1..];
      if s[0] < m then s[0] else m
  }

  function Max(s: seq<int>): (m: int)
    requires |s| > 0
    ensures m in s && forall v | v in s :: v <= m
  {
    if |s| == 1 then s[0]
    else
      var m := Max(s[1..]);
      assert forall v | v in s :: v == s[0] || v in s[1..];
      if s[0] > m then s[0] else m
  }

  /**
   * `numpy.arange(start, stop, step)` on ints with a positive step: start, start + step, ...,
   * every value below stop, and the next step would reach stop; ceil((stop - start) / step)
   * values, none when stop <= start.
   */
  function Arange(start: int, stop: int, step: int): (r: seq<int>)
    requires step > 0
    ensures |r| == if stop > start then (stop - start + step - 1) / step else 0
    ensures forall i | 0 <= i < |r| :: r[i] == start + i * step && r[i] < stop
    ensures start + |r| * step >= stop
  {
    var n := if stop > start then (stop - start + step - 1) / step else 0;
    ArangeBounds(start, stop, step, n);
    seq(n, i requires 0 <= i < n => start + i * step)
  }

  /** The n = ceil((stop - start) / step) multiples of the step from start stay below stop, and n steps reach it. */
  lemma ArangeBounds(start: int, stop: int, step: int, n: int)
    requires step > 0 && n == if stop > start then (stop - start + step - 1) / step else 0
    ensures n >= 0 && start + n * step >= stop
    ensures forall i | 0 <= i < n :: start + i * step < stop
  {
    if stop > start {
      CeilDiv(stop - start, step);
      forall i | 0 <= i < n
        ensures start + i * step < stop
      {
        MulMonotone(i, n - 1, step);
      }
    }
  }

  /** The lower bound of imageoperations.py:26; Python's `%` with a positive right operand agrees with Dafny's. */
  function LowBound(binwidth: int, values: seq<int>): int
    requires binwidth > 0 && |values| > 0
  {
    Min(values) - Min(values) % binwidth
  }

  /** The bin edges of imageoperations.py:26-30. */
  function Edges(binwidth: int, values: seq<int>): seq<int>
    requires binwidth > 0 && |values| > 0
  {
    Arange(LowBound(binwidth, values), Max(values) + binwidth, binwidth)
  }

  /**
   * Whether v falls in bin i of numpy.histogram over the edges: bins are half-open except the
   * last, which also holds its upper edge.
   */
  predicate InBin(v: int, edges: seq<int>, i: nat)
    requires i + 1 < |edges|
  {
    edges[i] <= v && (v < edges[i + 1] || (i + 2 == |edges| && v == edges[i + 1]))
  }

  /** The number of values in bin i. */
  function BinCount(values: seq<int>, edges: seq<int>, i: nat): nat
    requires i + 1 < |edges|
  {
    if |values| == 0 then 0
    else BinCount(values[..|values| - 1], edges, i) + (if InBin(values[|values| - 1], edges, i) then 1 else 0)
  }

  /** What `numpy.histogram(values, bins=edges)` returns: the counts and the edges. */
  datatype Hist = Hist(counts: seq<nat>, edges: seq<int>)

  function Counts(values: seq<int>, edges: seq<int>): (counts: seq<nat>)
    requires |edges| >= 2
    ensures |counts| == |edges| - 1
  {
    seq(|edges| - 1, i requires 0 <= i < |edges| - 1 => BinCount(values, edges, i))
  }

  /**
   * `getHistogram(binwidth, parameterValues)` (imageoperations.py:15-37). An empty input
   * raises in the builtin `min`. When only one edge comes out, `binedges` becomes the int 1
   * and `len(binedges)` on line 35 raises TypeError before numpy.histogram is reached.
   */
  function GetHistogram(binwidth: int, values: seq<int>): Result<Hist>
    requires binwidth > 0
  {
    if |values| == 0 then Failure(ValueError("min() arg is an empty sequence"))
    else
      var edges := Edges(binwidth, values);
      if |edges| == 1 then Failure(TypeError("object of type 'int' has no len()"))
      else Success(Hist(Counts(values, edges), edges))
  }

  /** `numpy.digitize(x, bins)`: the number of edges at or below x, which for increasing edges is the i with bins[i-1] <= x < bins[i]. */
  function Digitize(x: int, bins: seq<int>): nat {
    if |bins| == 0 then 0
    else Digitize(x, bins[..|bins| - 1]) + (if bins[|bins| - 1] <= x then 1 else 0)
  }

  /** `histogram[1][-1] += 1` (imageoperations.py:53): the last edge raised by one. */
  function Bumped(edges: seq<int>): (r: seq<int>)
    requires |edges| > 0
    ensures |r| == |edges|
  {
    edges[..|edges| - 1] + [edges[|edges| - 1] + 1]
  }

  /** The gray levels of the region: `parameterMatrix[parameterMatrixCoordinates]`. */
  function RoiValues(voxels: seq<int>, roi: seq<nat>): (values: seq<int>)
    requires forall i | 0 <= i < |roi| :: roi[i] < |voxels|
    ensures |values| == |roi|
  {
    seq(|roi|, i requires 0 <= i < |roi| => voxels[roi[i]])
  }

  /** The matrix after the assignment of imageoperations.py:55-56: region voxels digitized, the rest as they were. */
  function Discretized(voxels: seq<int>, roi: seq<nat>, bins: seq<int>): (r: seq<int>)
    ensures |r| == |voxels|
  {
    seq(|voxels|, p requires 0 <= p < |voxels| => if p in roi then Digitize(voxels[p], bins) else voxels[p])
  }

  // ---- Arithmetic on multiples of the bin width

  /** q = x / w is the one integer with q * w <= x < (q + 1) * w. */
  lemma DivUnique(x: int, w: int, q: int)
    requires w > 0 && q * w <= x < (q + 1) * w
    ensures x / w == q
  {
    var d := x / w;
    assert d * w <= x < d * w + w;
    if d < q {
      MulMonotone(d + 1, q, w);
    } else if d > q {
      MulMonotone(q + 1, d, w);
    }
  }

  /** Ceiling division: k = ceil(d / w) satisfies (k - 1) * w < d <= k * w. */
  lemma CeilDiv(d: int, w: int)
    requires d >= 0 && w > 0
    ensures var k := (d + w - 1) / w;
      k >= 0 && d <= k * w && (k == 0 <==> d == 0) && (k > 0 ==> (k - 1) * w < d)
  {
    var k := (d + w - 1) / w;
    assert k * w <= d + w - 1 < k * w + w;
    if k < 0 {
      MulMonotone(k + 1, 0, w);
    }
    if d > 0 && k == 0 {
      assert false;
    }
  }

  lemma DivMod(x: int, w: int)
    requires w > 0
    ensures x == (x / w) * w + x % w && 0 <= x % w < w
  {
  }

  /** A multiple of w leaves no remainder. */
  lemma MultipleMod(q: int, w: int)
    requires w > 0
    ensures (q * w) % w == 0
  {
    DivUnique(q * w, w, q);
    DivMod(q * w, w);
  }

  /** Every multiple of w at or below x is at or below (x / w) * w. */
  lemma LargestMultiple(x: int, w: int, k: int)
    requires w > 0 && k * w <= x
    ensures k * w <= (x / w) * w
  {
    DivMod(x, w);
    if k > x / w {
      MulMonotone(x / w + 1, k, w);
    } else {
      MulMonotone(k, x / w, w);
    }
  }

  /**
   * The lower bound is the largest multiple of the bin width at or below the minimum.
   */
  lemma LowBoundSpec(binwidth: int, values: seq<int>)
    requires binwidth > 0 && |values| > 0
    ensures var low := LowBound(binwidth, values);
      && low <= Min(values) < low + binwidth
      && low % binwidth == 0
      && forall k: int :: k * binwidth <= Min(values) ==> k * binwidth <= low
  {
    var m, w := Min(values), binwidth;
    DivMod(m, w);
    var q := m / w;
    assert LowBound(w, values) == q * w;
    MultipleMod(q, w);
    forall k: int | k * w <= m
      ensures k * w <= q * w
    {
      LargestMultiple(m, w, k);
    }
  }

  lemma MulSucc(i: int, w: int)
    ensures (i + 1) * w == i * w + w
  {
  }

  /** Adding w to the dividend adds one to the quotient. */
  lemma DivShift(x: int, w: int)
    requires w > 0
    ensures (x + w) / w == x / w + 1
  {
    DivMod(x, w);
    MulSucc(x / w, w);
    DivUnique(x + w, w, x / w + 1);
  }

  /** Consecutive values of arange differ by the step. */
  lemma ArangeStep(start: int, stop: int, step: int, i: nat)
    requires step > 0 && i + 1 < |Arange(start, stop, step)|
    ensures Arange(start, stop, step)[i + 1] == Arange(start, stop, step)[i] + step
  {
    MulSucc(i, step);
  }

  /**
   * The edges start at the lower bound and step by the bin width; the last edge is at or
   * above the maximum and less than one bin width past it. There are 1 + ceil((max - low) / w)
   * of them, so only one exactly when the maximum is the lower bound.
   */
  lemma EdgesSpec(binwidth: int, values: seq<int>)
    requires binwidth > 0 && |values| > 0
    ensures var edges, low, w := Edges(binwidth, values), LowBound(binwidth, values), binwidth;
      && |edges| == 1 + (Max(values) - low + w - 1) / w
      && edges[0] == low
      && (forall i | 0 <= i < |edges| :: edges[i] == low + i * w)
      && (forall i | 0 <= i < |edges| - 1 :: edges[i + 1] == edges[i] + w)
      && Max(values) <= edges[|edges| - 1] < Max(values) + w
      && (|edges| == 1 <==> Max(values) == low)
  {
    var w, low, mx := binwidth, LowBound(binwidth, values), Max(values);
    LowBoundSpec(w, values);
    var d := mx - low;
    CeilDiv(d, w);
    var k := (d + w - 1) / w;
    DivShift(d + w - 1, w);
    var edges := Edges(w, values);
    assert |edges| == k + 1;
    forall i | 0 <= i < |edges| - 1
      ensures edges[i + 1] == edges[i] + w
    {
      ArangeStep(low, mx + w, w, i);
    }
    assert edges[k] == low + k * w;
    if k > 0 {
      MulSucc(k - 1, w);
    }
  }

  /** getHistogram raises exactly on an empty input or a flat one that sits on a multiple of the bin width. */
  lemma GetHistogramFails(binwidth: int, values: seq<int>)
    requires binwidth > 0
    ensures GetHistogram(binwidth, values).Failure? <==>
              |values| == 0 || (Max(values) == Min(values) && Min(values) % binwidth == 0)
    ensures |values| == 0 ==> GetHistogram(binwidth, values) == Failure(ValueError("min() arg is an empty sequence"))
    ensures |values| > 0 && GetHistogram(binwidth, values).Failure? ==>
              GetHistogram(binwidth, values) == Failure(TypeError("object of type 'int' has no len()"))
  {
    if |values| > 0 {
      EdgesSpec(binwidth, values);
      LowBoundSpec(binwidth, values);
    }
  }

  // ---- Binning

  predicate Increasing(bins: seq<int>) {
    forall i | 0 <= i < |bins| - 1 :: bins[i] < bins[i + 1]
  }

  lemma IncreasingAt(bins: seq<int>, i: nat, j: nat)
    requires Increasing(bins) && i < j < |bins|
    ensures bins[i] < bins[j]
    decreases j - i
  {
    if i + 1 < j {
      IncreasingAt(bins, i + 1, j);
    }
  }

  /** On increasing edges, digitize gives the i with bins[i - 1] <= x < bins[i]. */
  lemma {:induction false} DigitizeIndex(bins: seq<int>, x: int, i: nat)
    requires Increasing(bins) && i <= |bins|
    requires i == 0 || bins[i - 1] <= x
    requires i == |bins| || x < bins[i]
    ensures Digitize(x, bins) == i
  {
    if |bins| > 0 {
      var n := |bins| - 1;
      var init := bins[..n];
      assert Increasing(init) by {
        forall k | 0 <= k < |init| - 1
          ensures init[k] < init[k + 1]
        {
          assert init[k] == bins[k] && init[k + 1] == bins[k + 1];
        }
      }
      if i == |bins| {
        if n > 0 {
          IncreasingAt(bins, n - 1, n);
        }
        DigitizeIndex(init, x, n);
      } else {
        if i < n {
          IncreasingAt(bins, i, n);
        }
        DigitizeIndex(init, x, i);
      }
    }
  }

  /** x / w reaches j exactly when j * w fits in x. */
  lemma DivAtLeast(x: int, w: int, j: int)
    requires w > 0
    ensures x / w >= j <==> j * w <= x
  {
    DivMod(x, w);
    if x / w >= j {
      MulMonotone(j, x / w, w);
    } else {
      MulMonotone(x / w + 1, j, w);
    }
  }

  /**
   * The bin a region value lands in, in closed form: one plus the number of whole bin widths
   * from the lower bound, the maximum taken into the top bin.
   */
  function BinNumber(v: int, low: int, w: int, bins: nat): int
    requires w > 0
  {
    var q := (v - low) / w + 1;
    if q < bins then q else bins
  }

  /** The bumped edges of a histogram are strictly increasing. */
  lemma BumpedIncreasing(binwidth: int, values: seq<int>)
    requires binwidth > 0 && GetHistogram(binwidth, values).Success?
    ensures Increasing(Bumped(Edges(binwidth, values)))
  {
    var edges := Edges(binwidth, values);
    EdgesSpec(binwidth, values);
    var bumped := Bumped(edges);
    forall k | 0 <= k < |edges| - 1
      ensures bumped[k] < bumped[k + 1]
    {
      assert bumped[k] == edges[k];
    }
  }

  /** Digitize over bumped edges low, low + w, ... sends low .. lastEdge to its bin number. */
  lemma DigitizeOnGrid(edges: seq<int>, low: int, w: int, v: int)
    requires w > 0 && |edges| >= 2 && Increasing(Bumped(edges))
    requires forall i | 0 <= i < |edges| :: edges[i] == low + i * w
    requires low <= v <= edges[|edges| - 1]
    ensures Digitize(v, Bumped(edges)) == BinNumber(v, low, w, |edges| - 1)
  {
    var n := |edges|;
    var q := (v - low) / w;
    if q + 1 < n - 1 {
      DivAtLeast(v - low, w, q);
      DivAtLeast(v - low, w, q + 1);
      DigitizeIndex(Bumped(edges), v, q + 1);
    } else {
      DivAtLeast(v - low, w, n - 2);
      DigitizeIndex(Bumped(edges), v, n - 1);
    }
  }

  /**
   * After the bump, digitize sends every value between the minimum and maximum to its bin
   * number: 1 .. nBins, and the maximum to the top bin nBins.
   */
  lemma DigitizeBumped(binwidth: int, values: seq<int>, v: int)
    requires binwidth > 0 && GetHistogram(binwidth, values).Success?
    requires Min(values) <= v <= Max(values)
    ensures var edges := GetHistogram(binwidth, values).value.edges;
      var bins := |edges| - 1;
      && bins >= 1
      && Digitize(v, Bumped(edges)) == BinNumber(v, LowBound(binwidth, values), binwidth, bins)
      && 1 <= Digitize(v, Bumped(edges)) <= bins
      && (v == Max(values) ==> Digitize(v, Bumped(edges)) == bins)
  {
    var w, low := binwidth, LowBound(binwidth, values);
    var edges := Edges(w, values);
    EdgesSpec(w, values);
    LowBoundSpec(w, values);
    BumpedIncreasing(w, values);
    DigitizeOnGrid(edges, low, w, v);
    DivAtLeast(v - low, w, 0);
    if v == Max(values) {
      var n := |edges|;
      assert edges[n - 2] == edges[n - 1] - w;
      TopBin(v, low, w, n - 1);
    }
  }

  /** A value at or above the lower edge of the top bin has the top bin number. */
  lemma TopBin(v: int, low: int, w: int, bins: nat)
    requires w > 0 && bins >= 1 && low + (bins - 1) * w <= v
    ensures BinNumber(v, low, w, bins) == bins
  {
    DivAtLeast(v - low, w, bins - 1);
  }

  /** How many values digitize to k. */
  function CountDigitized(values: seq<int>, bins: seq<int>, k: nat): nat {
    if |values| == 0 then 0
    else CountDigitized(values[..|values| - 1], bins, k) + (if Digitize(values[|values| - 1], bins) == k then 1 else 0)
  }

  lemma {:induction false} CountsAgree(values: seq<int>, edges: seq<int>, bins: seq<int>, i: nat)
    requires i + 1 < |edges|
    requires forall v | v in values :: InBin(v, edges, i) <==> Digitize(v, bins) == i + 1
    ensures BinCount(values, edges, i) == CountDigitized(values, bins, i + 1)
  {
    if |values| > 0 {
      var init := values[..|values| - 1];
      assert forall v | v in init :: v in values;
      CountsAgree(init, edges, bins, i);
    }
  }

  /** A value of the region is in bin i of the histogram exactly when it digitizes to i + 1. */
  lemma InBinIffDigitized(binwidth: int, values: seq<int>, v: int, i: nat)
    requires binwidth > 0 && GetHistogram(binwidth, values).Success?
    requires Min(values) <= v <= Max(values)
    requires i + 1 < |GetHistogram(binwidth, values).value.edges|
    ensures var edges := GetHistogram(binwidth, values).value.edges;
      InBin(v, edges, i) <==> Digitize(v, Bumped(edges)) == i + 1
  {
    var w, low := binwidth, LowBound(binwidth, values);
    var edges := Edges(w, values);
    EdgesSpec(w, values);
    DigitizeBumped(w, values, v);
    DivAtLeast(v - low, w, i);
    DivAtLeast(v - low, w, i + 1);
  }

  /**
   * The histogram getHistogram returns counts, in bin i, exactly the region voxels binImage
   * then gives gray level i + 1.
   */
  lemma HistogramMatchesBinning(binwidth: int, values: seq<int>, i: nat)
    requires binwidth > 0 && GetHistogram(binwidth, values).Success?
    requires i < |GetHistogram(binwidth, values).value.counts|
    ensures var h := GetHistogram(binwidth, values).value;
      h.counts[i] == CountDigitized(values, Bumped(h.edges), i + 1)
  {
    var h := GetHistogram(binwidth, values).value;
    forall v | v in values
      ensures InBin(v, h.edges, i) <==> Digitize(v, Bumped(h.edges)) == i + 1
    {
      InBinIffDigitized(binwidth, values, v, i);
    }
    CountsAgree(values, h.edges, Bumped(h.edges), i);
  }

  /** What binImage returns besides the matrix: the histogram with its last edge bumped. */
  function BinnedHistogram(binwidth: int, values: seq<int>): Result<Hist>
    requires binwidth > 0
  {
    var h := GetHistogram(binwidth, values);
    if h.Failure? then h else Success(Hist(h.value.counts, Bumped(h.value.edges)))
  }

  /** Every value of the region lies between the region's minimum and maximum. */
  lemma RoiValueBounds(voxels: seq<int>, roi: seq<nat>, p: nat)
    requires forall i | 0 <= i < |roi| :: roi[i] < |voxels|
    requires p in roi
    ensures p < |voxels|
    ensures Min(RoiValues(voxels, roi)) <= voxels[p] <= Max(RoiValues(voxels, roi))
  {
    var i :| 0 <= i < |roi| && roi[i] == p;
    var values := RoiValues(voxels, roi);
    assert values[i] == voxels[p];
    assert values[i] in values;
  }

  /** After binImage, a region voxel holds its bin number, the brightest the top bin. */
  lemma DiscretizedAt(binwidth: int, voxels: seq<int>, roi: seq<nat>, p: nat)
    requires binwidth > 0 && forall i | 0 <= i < |roi| :: roi[i] < |voxels|
    requires GetHistogram(binwidth, RoiValues(voxels, roi)).Success?
    requires p < |voxels|
    ensures var values := RoiValues(voxels, roi);
      var bins := |GetHistogram(binwidth, values).value.edges| - 1;
      var after := Discretized(voxels, roi, BinnedHistogram(binwidth, values).value.edges)[p];
      if p in roi then
        && after == BinNumber(voxels[p], LowBound(binwidth, values), binwidth, bins)
        && 1 <= after <= bins
        && (voxels[p] == Max(values) ==> after == bins)
      else after == voxels[p]
  {
    if p in roi {
      RoiValueBounds(voxels, roi, p);
      DigitizeBumped(binwidth, RoiValues(voxels, roi), voxels[p]);
    }
  }

  /**
   * After binImage, every region voxel holds its bin number, in 1 .. nBins, the brightest
   * in the top bin; voxels outside the region keep their value.
   */
  lemma DiscretizedSpec(binwidth: int, voxels: seq<int>, roi: seq<nat>)
    requires binwidth > 0 && forall i | 0 <= i < |roi| :: roi[i] < |voxels|
    requires GetHistogram(binwidth, RoiValues(voxels, roi)).Success?
    ensures var values := RoiValues(voxels, roi);
      var bins := |GetHistogram(binwidth, values).value.edges| - 1;
      var after := Discretized(voxels, roi, BinnedHistogram(binwidth, values).value.edges);
      && |after| == |voxels|
      && (forall p | 0 <= p < |voxels| && p !in roi :: after[p] == voxels[p])
      && (forall p | 0 <= p < |voxels| && p in roi ::
            && after[p] == BinNumber(voxels[p], LowBound(binwidth, values), binwidth, bins)
            && 1 <= after[p] <= bins
            && (voxels[p] == Max(values) ==> after[p] == bins))
  {
    forall p | 0 <= p < |voxels| {
      DiscretizedAt(binwidth, voxels, roi, p);
    }
  }

  /**
   * `binImage(binwidth, parameterMatrix, parameterMatrixCoordinates)` (imageoperations.py:40-58)
   * on the flat voxel buffer, the region given by flat positions: compute the histogram of
   * the region, bump its last edge and digitize the region in place.
   */
  method BinImage(binwidth: int, matrix: array<int>, roi: seq<nat>) returns (r: Result<Hist>)
    requires binwidth > 0 && forall i | 0 <= i < |roi| :: roi[i] < matrix.Length
    modifies matrix
    ensures r == BinnedHistogram(binwidth, RoiValues(old(matrix[..]), roi))
    ensures r.Failure? ==> matrix[..] == old(matrix[..])
    ensures r.Success? ==> matrix[..] == Discretized(old(matrix[..]), roi, r.value.edges)
  {
    var values := seq(|roi|, i requires 0 <= i < |roi| reads matrix => matrix[roi[i]]);
    assert values == RoiValues(matrix[..], roi);
    var histogram := GetHistogram(binwidth, values);
    if histogram.Failure? {
      return histogram;
    }
    var edges := histogram.value.edges;
    edges := edges[|edges| - 1 := edges[|edges| - 1] + 1];
    assert edges == Bumped(histogram.value.edges);
    ghost var before := matrix[..];
    forall i | 0 <= i < |roi| {
      matrix[roi[i]] := Digitize(values[i], edges);
    }
    assert forall p | 0 <= p < matrix.Length :: matrix[p] == Discretized(before, roi, edges)[p] by {
      forall p | 0 <= p < matrix.Length
        ensures matrix[p] == Discretized(before, roi, edges)[p]
      {
        if p in roi {
          var i :| 0 <= i < |roi| && roi[i] == p;
          assert values[i] == before[p];
        }
      }
    }
    r := Success(Hist(histogram.value.counts, edges));
  }
}
