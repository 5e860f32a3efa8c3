# pyradiomics image operations, modelled in Dafny

This project models three pieces of `radiomics/imageoperations.py`, pyradiomics' image preprocessing module.

- **The three-dimensional stationary wavelet filter: `getWaveletImage`, `_swt3`, `_decompose_i`, `_decompose_j` and `_decompose_k`.**
  - `_swt3` pads the voxel array so every extent is even, then runs `start_level` warm-up passes and `level` emitting passes.
  - Each emitting pass decomposes its input along i, then j, then k into eight octant sub-bands. It trims seven of them back to the original shape and feeds LLL to the next pass.
  - `getWaveletImage` hands out every sub-band of every level under its filter name, and then the final approximation.
- **`generateAngles`.** It enumerates the neighbour offsets up to a Chebyshev distance, one of each opposite pair, in loop order. It then deletes those that cannot fit in the bounding box.
- **`getHistogram` and `binImage`.** These bin gray levels with a fixed width: edges at multiples of the bin width, a histogram over them, and the region of interest rewritten in place with each voxel's bin number.

## How the model is built

**Volumes** are `NdArrays.NdArray`: a shape plus a C-order flat buffer.
- The two resize operations of the code work on that flat buffer.
  - `ndarray.resize` (line 429) cuts it, or extends it with zeros at its end.
  - `numpy.resize` (lines 464, 471) repeats it cyclically, which is its prefix when shrinking.
- One might expect the driver to crop back to the original voxels, index by index. The code does not do that, and the model follows the code:
  - `NdArrays.PadOuterKeepsIndices` shows that indices are kept when only the outermost extent is odd.
  - `NdArrays.PadInnerMovesSamples` gives a 2 x 2 x 1 volume whose samples move once padded.
  - `NdArrays.PadThenTrim` shows that trimming always restores the flat prefix.

**The one-dimensional transform** `pywt.swt(x, wavelet, level=1, start_level=0)[0]` is a parameter `swt` of type `AxisDecompose.Transform`.
- Its only assumed property is `Stationary`: an even-length signal gives approximation and detail coefficients of that length.
- `AxisDecompose.AxisBands` is the reference meaning of a per-axis decomposition. Its sample at [k][j][i] is a coefficient of the transform of the line through [k][j][i] along the axis, taken at the index's own position on that line.
- The three decomposer methods share the loop `TransformRows`. `_decompose_j` and `_decompose_k` run it over the transposed buffers.

**Reference definitions.**
- The driver's reference definitions (`StationaryWavelet.Decomposition`, `WaveletImage.WaveletImages`) are stated over an abstract decomposer `dec: (NdArray, Axis) -> Bands`.
- The methods `Swt3` and `GetWaveletImage` take the transform and are proved equal to those definitions for every `dec` that agrees with `AxisBands` on even volumes. `StationaryWavelet.AxisDecomposer` is such a `dec`.

**Values modelled as parameters.**
- Image metadata copied by `CopyInformation` is an opaque type parameter `M`; the keyword arguments are an opaque `K`.
- `kwargs.get(key, default)` is `Errors.GetOr` on an `Option`.

**Python semantics written out.**
- `range(a, a + n)` runs `max(0, n)` times (`StationaryWavelet.Passes`). A non-positive `level` therefore gives no levels, and the approximation is named `wavelet0-LLL`.
- A level's dictionary is a sequence of entries in insertion order: HHH, HHL, HLH, HLL, LHH, LHL, LLH. This is the order `dict.items()` and `six.iteritems` give from Python 3.7 on. Earlier Pythons leave dictionary order unspecified.
- Python's `%` with a positive right operand agrees with Dafny's.
- `numpy.arange` on ints has `ceil((stop - start) / step)` elements.
- `numpy.histogram` bins are half-open, except the last, which also holds its upper edge.
- `numpy.digitize` on increasing edges counts the edges at or below the value.

**Error outcomes** are `Errors.Result` values:
- `_swt3` raises `ValueError("Expected 3D data array")` before anything else happens.
- A three-dimensional input with a zero extent raises as soon as a pass runs, in its first `_decompose_i`. If extent k or j is 0, the loop collects no line, and `numpy.hstack([])` raises `ValueError("need at least one array to concatenate")`. If only extent i is 0, the lines are empty and `pywt.swt` raises its own ValueError on the first of them (its message is the library's; see "## Left out"). With no pass at all, the input goes through unchanged. `StationaryWavelet.Decomposes` is the condition for success.
- `generateAngles` with `maxDistance < 1` has no candidates. Subtracting `numpy.abs` of the empty `(0,)` array from the three extents raises numpy's broadcasting `ValueError`.
- `getHistogram` over an empty region raises `ValueError` from `min()`.
- When `numpy.arange` produces a single edge (maximum equals minimum, a multiple of the width), the code sets `binedges = 1`. The `len(binedges)` of the next line then raises `TypeError`. The model keeps that outcome and invents no recovery. `Histogram.GetHistogramFails` states exactly when each error occurs.

**`binImage`** works in place on an `array<int>` holding the flat voxel buffer; the region of interest is a sequence of flat positions. The vectorised digitize becomes one simultaneous `forall` assignment.

## Model

| member | source | states |
|---|---|---|
| NdArrays.EvenShape | radiomics/imageoperations.py:427 | every extent of the working shape is even and equals the original extent or the original plus one |
| NdArrays.ResizeInPlace | radiomics/imageoperations.py:429 | the padded array has the new shape; sample p is the old sample p inside the old buffer and 0 beyond it |
| NdArrays.Resize | radiomics/imageoperations.py:471 | numpy.resize gives an array of the requested shape whose buffer matches it |
| NdArrays.ResizeKeepsPrefix | radiomics/imageoperations.py:464 | trimming to a size no larger than the buffer keeps the flat prefix |
| NdArrays.PadThenTrim | radiomics/imageoperations.py:426-471 | trimming a zero-padded buffer back to the original shape gives the original array |
| NdArrays.PadOuterKeepsIndices | radiomics/imageoperations.py:429 | padding only the outermost extent keeps every sample at its own index |
| NdArrays.PadInnerMovesSamples | radiomics/imageoperations.py:429 | padding an odd inner extent moves samples: a concrete 2 x 2 x 1 array where index (0, 1, 0) changes value |
| NdArrays.SwapInner | radiomics/imageoperations.py:495 | `numpy.transpose(data, (0, 2, 1))`: an array of shape (d0, d2, d1); where each element goes is stated by SwapInnerAt |
| NdArrays.ReverseAxes | radiomics/imageoperations.py:508 | `numpy.transpose(data, (2, 1, 0))`: an array of shape (d2, d1, d0); where each element goes is stated by ReverseAxesAt |
| NdArrays.SwapInnerAt | radiomics/imageoperations.py:495 | transpose (0, 2, 1) holds element (i, j, k) at (i, k, j) |
| NdArrays.ReverseAxesAt | radiomics/imageoperations.py:508 | transpose (2, 1, 0) holds element (i, j, k) at (k, j, i) |
| AxisDecompose.AxisBandsAt | radiomics/imageoperations.py:478-515 | H and L keep the input's shape, and each holds at [k][j][i] the detail or approximation coefficient of the line through [k][j][i] along the axis, taken at the index's position on it |
| AxisDecompose.AxisBands | radiomics/imageoperations.py:478-515 | reference definition of what `_decompose_i/j/k` return: both volumes of the input's shape; AxisBandsAt gives every voxel and DecomposeI/J/K are proved equal to it |
| AxisDecompose.TransformRows | radiomics/imageoperations.py:481-487 | the shared loop: after all rows, H and L hold at offset t * n + x coefficient x of the transform of row t |
| AxisDecompose.RowIsLineI | radiomics/imageoperations.py:481 | the rows `chain.from_iterable(data)` yields are the lines along i |
| AxisDecompose.RowIsLineJ | radiomics/imageoperations.py:495 | the rows of the (0, 2, 1) transpose are the lines along j |
| AxisDecompose.RowIsLineK | radiomics/imageoperations.py:508 | the rows of the (2, 1, 0) transpose are the lines along k |
| AxisDecompose.DecomposeI | radiomics/imageoperations.py:478-488 | `_decompose_i` raises exactly when some extent is 0: numpy's join ValueError when there is no line along i (extent k or j is 0), otherwise pywt's on the empty lines; without an error it returns exactly the reference bands along numpy axis 2 |
| AxisDecompose.DecomposeJ | radiomics/imageoperations.py:491-502 | `_decompose_j` raises exactly when some extent is 0: the join ValueError when there is no line along j (extent k or i is 0), otherwise pywt's on the empty lines; without an error it returns exactly the reference bands along numpy axis 1 |
| AxisDecompose.DecomposeK | radiomics/imageoperations.py:505-515 | `_decompose_k` raises exactly when some extent is 0: the `vstack` ValueError when there is no line along k (extent j or i is 0), otherwise pywt's on the empty lines; without an error it returns exactly the reference bands along numpy axis 0 |
| StationaryWavelet.LabelInjective | radiomics/imageoperations.py:455-461 | two sub-band names are equal exactly when they name the same outcomes along i, j and k |
| StationaryWavelet.KeptIsAllButLLL | radiomics/imageoperations.py:455-461 | a level keeps every sub-band except LLL, each once |
| StationaryWavelet.Passes | radiomics/imageoperations.py:434-441 | the number of iterations of `range(start_level)` and of `range(start_level, start_level + level)`: the argument when positive, else none |
| StationaryWavelet.AxisDecomposer | radiomics/imageoperations.py:478-515 | the decomposition a stationary transform induces agrees with the reference bands on every even volume and preserves shapes |
| StationaryWavelet.EvenShapeNonEmpty | radiomics/imageoperations.py:427 | padding to even extents keeps every extent positive exactly when it was |
| StationaryWavelet.Band | radiomics/imageoperations.py:443-451 | each octant sub-band of an even volume is even and keeps its shape |
| StationaryWavelet.ApproximationStep | radiomics/imageoperations.py:453 | the input after one more pass is the LLL sub-band of the input before it |
| StationaryWavelet.Approximation | radiomics/imageoperations.py:434-453 | reference definition of the volume after n passes: LLL applied n times; its shape is the input's, and ApproximationStep, WarmUp and LowPass are proved against it |
| StationaryWavelet.KeptBands | radiomics/imageoperations.py:443-461 | reference definition of the seven kept sub-bands of one pass, in dictionary order; KeptIsAllButLLL and EmitLevel relate it to the decompositions |
| StationaryWavelet.Trimmed | radiomics/imageoperations.py:462-467 | reference definition of the trimmed dictionary: each kept band resized to the original shape under its name; TrimmedShape and TrimmedPrefix state its shape and samples, TrimLevel is proved equal to it |
| StationaryWavelet.Levels | radiomics/imageoperations.py:441-469 | reference definition of the emitted dictionaries: dictionary t is that of the input after lo + t passes; LevelsSnoc, LevelsChain and EmitLevels are about it |
| StationaryWavelet.Decomposes | radiomics/imageoperations.py:420-451 | the condition under which `_swt3` does not raise: three-dimensional, and no zero extent unless no pass runs; DecompositionFails proves it is exactly that |
| StationaryWavelet.Padded | radiomics/imageoperations.py:426-429 | the working volume is three-dimensional with the even shape |
| StationaryWavelet.Decomposition | radiomics/imageoperations.py:420-475 | reference definition of the driver: the errors of DecompositionFails, otherwise the padded input through start_level warm-up passes and level emitting passes, every output trimmed; its properties are the lemmas below |
| StationaryWavelet.DecompositionFails | radiomics/imageoperations.py:420-488 | `_swt3` fails exactly when the array is not three-dimensional, with ValueError("Expected 3D data array"), or when it has a zero extent and at least one pass runs; then it raises numpy's join ValueError if extent k or j is 0, and pywt's empty-line ValueError otherwise |
| StationaryWavelet.TrimmedShape | radiomics/imageoperations.py:455-467 | a level lists HHH, HHL, HLH, HLL, LHH, LHL, LLH in order, each image trimmed to the original shape with the input's metadata |
| StationaryWavelet.DecompositionShape | radiomics/imageoperations.py:441-475 | an input the driver decomposes gives max(0, level) dictionaries, each with the seven names in order and never LLL; every image and the approximation has the original shape and the input's metadata |
| StationaryWavelet.DecompositionLevels | radiomics/imageoperations.py:434-471 | for an input the driver decomposes, dictionary t comes from the input after start_level + t passes; the approximation is the input after all passes, trimmed |
| StationaryWavelet.DecompositionData | radiomics/imageoperations.py:455-471 | every output's samples are the flat prefix of the padded-shape volume it was trimmed from: entry u of dictionary t those of kept sub-band u of its pass, the approximation those of the input after all passes |
| StationaryWavelet.EntryIsPrefix | radiomics/imageoperations.py:462-467 | entry u of an emitted dictionary holds the first Size(shape) samples of kept sub-band u of its pass |
| StationaryWavelet.LevelsChain | radiomics/imageoperations.py:442-453 | each emitting pass decomposes the LLL sub-band of the previous pass |
| StationaryWavelet.NoPassesIsIdentity | radiomics/imageoperations.py:426-475 | with no passes at all, the approximation is the input image itself and there are no levels |
| StationaryWavelet.TrimLevel | radiomics/imageoperations.py:455-467 | the loop builds the level's dictionary: the seven sub-bands trimmed, in order, under their names |
| StationaryWavelet.EmitLevel | radiomics/imageoperations.py:443-467 | one pass's seven decompositions give that pass's dictionary and its LLL sub-band, or, exactly when the volume has a zero extent, the error of its first `_decompose_i` |
| StationaryWavelet.EmitPass | radiomics/imageoperations.py:442-469 | one emitting pass appends the dictionary of the current input and advances the input by one pass, or fails with the first `_decompose_i`'s error exactly on a volume with a zero extent |
| StationaryWavelet.LowPass | radiomics/imageoperations.py:435-439 | one warm-up pass turns the input after n passes into the input after n + 1, or fails with the first `_decompose_i`'s error exactly on a volume with a zero extent |
| StationaryWavelet.WarmUp | radiomics/imageoperations.py:434-439 | the warm-up loop runs max(0, start_level) times, keeping only LLL; it fails, with the first `_decompose_i`'s error, exactly when some pass runs on a volume with a zero extent |
| StationaryWavelet.EmitLevels | radiomics/imageoperations.py:441-469 | the emitting loop runs max(0, level) times, collecting one dictionary per pass and ending on the input after all passes; it fails, with the first `_decompose_i`'s error, exactly when some pass runs on a volume with a zero extent |
| StationaryWavelet.Swt3 | radiomics/imageoperations.py:420-475 | `_swt3` returns exactly the reference decomposition, or its error |
| WaveletImage.Decimal | radiomics/imageoperations.py:408 | `'%s' % idx` is a non-empty string of digits with no leading zero |
| WaveletImage.ValueOfDecimal | radiomics/imageoperations.py:408 | reading the decimal form of n back gives n |
| WaveletImage.DecimalInjective | radiomics/imageoperations.py:408 | distinct level numbers have distinct decimal forms |
| WaveletImage.FilterName | radiomics/imageoperations.py:405-408 | definition of the sub-band names; their properties are NamesOfLevelOne, FilterNameParts and FilterNameInjective |
| WaveletImage.ApproximationName | radiomics/imageoperations.py:412-415 | definition of the approximation's name; ApproximationNameIsLLL relates it to the sub-band names |
| WaveletImage.ApproximationNameIsLLL | radiomics/imageoperations.py:412-415 | the approximation is named as an LLL sub-band of the last level would be |
| WaveletImage.NamesOfLevelOne | radiomics/imageoperations.py:405-408 | level 1 names are `wavelet-X`; levels 2 and 10 are `wavelet2-X` and `wavelet10-X` |
| WaveletImage.FilterNameParts | radiomics/imageoperations.py:405-408 | a name starts with `wavelet` and ends with the sub-band; a dash follows `wavelet` exactly for level 1 |
| WaveletImage.FilterNameInjective | radiomics/imageoperations.py:405-408 | two three-letter sub-bands get one name exactly when they are the same sub-band of the same level |
| WaveletImage.OutputsAt | radiomics/imageoperations.py:401-410 | item p of the levels' items is sub-band p % 7 of level p / 7 + 1, under that level's name |
| WaveletImage.LevelOutputs | radiomics/imageoperations.py:401-410 | reference definition of the items yielded for one dictionary: its images in insertion order, named by FilterName; OutputsAt reads them off by position |
| WaveletImage.Outputs | radiomics/imageoperations.py:401-410 | reference definition of the items of all dictionaries, level by level; EmissionOrder and EmissionDistinct state their order and names |
| WaveletImage.Emission | radiomics/imageoperations.py:401-417 | reference definition of everything `getWaveletImage` yields: the dictionaries' items, then the approximation under ApproximationName; EmissionOrder, EmissionDistinct and WaveletImagesShape are about it |
| WaveletImage.EmissionOrder | radiomics/imageoperations.py:401-417 | 7 items per level in level order, and the approximation last, under its name |
| WaveletImage.ItemNamesDiffer | radiomics/imageoperations.py:405-410 | two positions among the level items never share a name |
| WaveletImage.ItemNotApproximation | radiomics/imageoperations.py:405-415 | no level item shares the approximation's name |
| WaveletImage.EmissionDistinct | radiomics/imageoperations.py:401-417 | no two yielded items share a name |
| WaveletImage.WaveletImagesFails | radiomics/imageoperations.py:399 | `getWaveletImage` fails exactly when the driver does, with its error: the 3D ValueError, or on a zero extent when a pass runs the join ValueError (extent k or j is 0) or pywt's empty-line ValueError |
| WaveletImage.WaveletImagesShape | radiomics/imageoperations.py:399-417 | an input the driver decomposes yields 7 * max(0, level) + 1 items (level 1 when absent), every level well named, all names distinct |
| WaveletImage.WaveletImages | radiomics/imageoperations.py:367-417 | reference definition of `getWaveletImage`: the driver's error, or the levels' items in order followed by the approximation; its properties are EmissionOrder, EmissionDistinct, WaveletImagesFails and WaveletImagesShape |
| WaveletImage.LevelItems | radiomics/imageoperations.py:402-410 | the inner loop yields level idx's sub-bands in dictionary order under their names |
| WaveletImage.GetWaveletImage | radiomics/imageoperations.py:367-417 | `getWaveletImage` yields exactly the reference emission, or the driver's error |
| Angles.PlanesLength | radiomics/imageoperations.py:80-85 | after c passes of the z loop there are c * (1 + (2m + 1) + (2m + 1)^2) angles |
| Angles.CandidatesCount | radiomics/imageoperations.py:78-85 | before filtering there are m * (1 + (2m + 1) + (2m + 1)^2) angles, 13 for m = 1 and 62 for m = 2, none when m < 1 |
| Angles.PlaneMembers | radiomics/imageoperations.py:80-85 | plane z holds exactly the offsets within distance m whose first nonzero component is z |
| Angles.PlanesMembers | radiomics/imageoperations.py:80-85 | planes 1 .. c hold exactly the offsets within distance m whose first nonzero component is between 1 and c |
| Angles.Line | radiomics/imageoperations.py:84-85 | the innermost loop for (z, y): (z, y, x) for x from -m to m, 2m + 1 of them |
| Angles.Row | radiomics/imageoperations.py:83-85 | one pass of the y loop: (0, z, y), then its line |
| Angles.Rows | radiomics/imageoperations.py:82-85 | the first c passes of the y loop for plane z, in append order |
| Angles.Plane | radiomics/imageoperations.py:80-85 | one pass of the z loop: (0, 0, z), then every row; PlaneMembers states its members and PlaneLoop is proved equal to it |
| Angles.Planes | radiomics/imageoperations.py:80-85 | planes 1 .. c end to end; PlanesLength and PlanesMembers state its length and members |
| Angles.CandidatesMembers | radiomics/imageoperations.py:78-85 | before filtering, the angles are exactly the offsets within distance m whose first nonzero component is positive |
| Angles.CandidatesDistinct | radiomics/imageoperations.py:78-85 | the loops never append an angle twice |
| Angles.Candidates | radiomics/imageoperations.py:78-85 | definition of the list the loops build; its properties are CandidatesCount, CandidatesMembers and CandidatesDistinct |
| Angles.Deleted | radiomics/imageoperations.py:89 | definition of the test `numpy.min(size - numpy.abs(a)) <= 0`; DeletedIff states it per axis |
| Angles.Kept | radiomics/imageoperations.py:89 | definition of `numpy.delete` of the rows failing the test, in order; its properties are KeptMembers, KeptConcat and KeptDistinct |
| Angles.DeletedIff | radiomics/imageoperations.py:89 | an angle survives deletion exactly when abs(a_d) < size_d on every axis |
| Angles.KeptMembers | radiomics/imageoperations.py:89 | the kept angles are exactly the candidates not deleted |
| Angles.KeptConcat | radiomics/imageoperations.py:89 | deletion keeps the order: a concatenation is filtered piece by piece |
| Angles.KeptDistinct | radiomics/imageoperations.py:89 | deletion introduces no repeats |
| Angles.GeneratedAnglesFails | radiomics/imageoperations.py:87-89 | `generateAngles` raises exactly when maxDistance < 1 |
| Angles.GeneratedAnglesMembers | radiomics/imageoperations.py:61-93 | otherwise the result has no repeats and holds exactly the offsets within distance maxDistance with a positive first nonzero component that fit on every axis |
| Angles.GeneratedAngles | radiomics/imageoperations.py:61-93 | reference definition of `generateAngles`: the broadcast ValueError when the loops build nothing, otherwise the kept candidates; GeneratedAnglesFails and GeneratedAnglesMembers are about it, GenerateAngles is proved equal to it |
| Angles.PlaneLoop | radiomics/imageoperations.py:80-85 | one pass of the z loop appends (0, 0, z), then (0, z, y) and (z, y, x) for every x, for every y |
| Angles.GenerateAngles | radiomics/imageoperations.py:61-93 | `generateAngles` returns exactly the reference result: the candidates in loop order, filtered, or the broadcast error |
| Histogram.Min | radiomics/imageoperations.py:26 | `min` returns a member of the values no larger than any of them |
| Histogram.Max | radiomics/imageoperations.py:28 | `max` returns a member of the values no smaller than any of them |
| Histogram.Arange | radiomics/imageoperations.py:30 | `numpy.arange` on ints gives start, start + step, ..., every one below stop, with the next step at or past stop: ceil((stop - start) / step) values, none when stop <= start |
| Histogram.LowBoundSpec | radiomics/imageoperations.py:25-26 | the lower bound is a multiple of the bin width at most the minimum, within one width of it, and the largest such multiple |
| Histogram.LowBound | radiomics/imageoperations.py:26 | `minimum - (minimum % binwidth)`; LowBoundSpec states it is the largest multiple of the width at or below the minimum |
| Histogram.Edges | radiomics/imageoperations.py:28-30 | `numpy.arange(lowBound, highBound, binwidth)` with highBound the maximum plus the width; EdgesSpec states it |
| Histogram.EdgesSpec | radiomics/imageoperations.py:26-30 | the edges start at the lower bound and step by the bin width; the last is at least the maximum and below maximum + width; there is only one edge exactly when the maximum is the lower bound |
| Histogram.InBin | radiomics/imageoperations.py:37 | definition of membership in a numpy.histogram bin: half-open, the last bin closed |
| Histogram.Counts | radiomics/imageoperations.py:37 | numpy.histogram's counts: one per bin; InBinIffDigitized and HistogramMatchesBinning relate them to binImage |
| Histogram.GetHistogram | radiomics/imageoperations.py:15-37 | reference definition of `getHistogram`: the errors of GetHistogramFails, otherwise the counts over the edges of EdgesSpec |
| Histogram.GetHistogramFails | radiomics/imageoperations.py:15-37 | `getHistogram` fails exactly on an empty region (ValueError) or when maximum = minimum is a multiple of the width (TypeError) |
| Histogram.DigitizeIndex | radiomics/imageoperations.py:55-56 | on increasing edges, digitize returns the i with bins[i - 1] <= x < bins[i] |
| Histogram.Digitize | radiomics/imageoperations.py:55-56 | numpy.digitize: the number of edges at or below the value; DigitizeIndex gives its meaning on increasing edges |
| Histogram.Bumped | radiomics/imageoperations.py:53 | the edges with the last one raised by one, the same number of them; DigitizeBumped states how values bin on them |
| Histogram.DigitizeOnGrid | radiomics/imageoperations.py:53-56 | on bumped edges low, low + w, ..., digitize gives min((v - low) / w + 1, nBins) |
| Histogram.DigitizeBumped | radiomics/imageoperations.py:53-56 | every value from the minimum to the maximum lands in its bin number, between 1 and nBins; the maximum lands in nBins |
| Histogram.TopBin | radiomics/imageoperations.py:53 | a value at or above the top bin's lower edge has the top bin number |
| Histogram.InBinIffDigitized | radiomics/imageoperations.py:37-56 | a region value is in histogram bin i exactly when binImage gives it gray level i + 1 |
| Histogram.HistogramMatchesBinning | radiomics/imageoperations.py:37-56 | histogram count i is the number of region voxels binImage gives gray level i + 1 |
| Histogram.RoiValueBounds | radiomics/imageoperations.py:51 | every voxel of the region lies between the region's minimum and maximum |
| Histogram.RoiValues | radiomics/imageoperations.py:51 | the matrix values at the ROI positions, in order; RoiValueBounds bounds them |
| Histogram.BinNumber | radiomics/imageoperations.py:53-56 | the closed form of the bin number on the grid: (v - low) / w + 1, capped at the number of bins; DigitizeOnGrid and DigitizeBumped prove digitize equals it |
| Histogram.BinnedHistogram | radiomics/imageoperations.py:51-53 | the histogram binImage returns: getHistogram of the ROI values with its last edge raised by one; HistogramMatchesBinning and BinImage are about it |
| Histogram.DiscretizedAt | radiomics/imageoperations.py:53-56 | after binImage a region voxel holds its bin number in 1 .. nBins (the maximum nBins); any other voxel keeps its value |
| Histogram.Discretized | radiomics/imageoperations.py:55-56 | the matrix after the assignment, as long as before; DiscretizedAt and DiscretizedSpec state its samples |
| Histogram.DiscretizedSpec | radiomics/imageoperations.py:40-58 | after binImage every region voxel holds its bin number in 1 .. nBins, the brightest in nBins, and every voxel outside the region is unchanged |
| Histogram.BinImage | radiomics/imageoperations.py:40-58 | `binImage` returns the histogram with its last edge bumped and rewrites exactly the region voxels with their digitize index, or returns the error with the matrix unchanged |

## Left out

- AxisDecompose.EmptyLineError: the text of the ValueError `pywt.swt` raises on a line of length 0 belongs to the library, so the model leaves its message unspecified. Which call raises it, and when, are modelled.
- `pywt.swt` numerics. This includes how the transform handles odd lengths, and `pywt.Wavelet` construction from the `wavelet` keyword, including its validation. The transform is a parameter assumed only to preserve even lengths.
- The SimpleITK conversions `GetArrayFromImage`, `GetImageFromArray` and `CopyInformation`. An image is its voxel array plus opaque metadata that is copied unchanged.
- Logging calls. They have no effect on results, except the one at line 35 of the histogram code, which is modelled as the TypeError it raises.
- Generator laziness. `getWaveletImage` yields its items lazily; the model returns the whole ordered sequence. The driver's errors are raised before any item is yielded, so nothing is lost on the error path.
- Dictionary order before Python 3.7. The model fixes insertion order.
- Voxel dtypes. Voxel samples are reals; integer or other numpy dtypes and float rounding in the transform are not modelled.
- Keyword arguments of the wrong type. A non-int `level` or `start_level`, or a float `binwidth`, is not modelled.
- Non-int gray levels in `binImage`. The model's matrix holds ints, and floating-point gray levels and edges are not modelled.
- `generateAngles` with a `size` that is not three extents. numpy broadcasting over such a size is not modelled: `size` is a triple.
- Histogram.GetHistogram and Histogram.BinImage require a positive bin width. A zero width raises ZeroDivisionError in the code. With a negative width, Python's `%` and `numpy.arange` count downward: the edges may be decreasing, a single one (min = max = 4 with width -2 gives [4], and line 35 raises TypeError) or none (min 0, max 10, width -2). None of these paths is modelled.
- The region of interest is given as flat positions. numpy's coordinate tuples from `numpy.where` are not modelled, and the histogram is taken over the region's values in the order of those positions.
- The other operations of the module are not part of this model: `cropToTumorMask`, `resampleImage`, `normalizeImage`, `applyThreshold`, `getOriginalImage`, `getLoGImage`, and the square, square-root, logarithm and exponential filters. They are wrappers over SimpleITK filters or floating-point maps.
