# pyroi in Dafny

A model of the core of pyroi. pyroi computes regions of interest (ROIs) over a
three-dimensional image and the statistics of the image inside each region.
The model covers three parts.

- **The image grid** (`image.dfy`, module `ImageGrid`). An `Image` class holds
  the field of view, the voxel data, the voxel counts `vsize` and the
  coordinate fields `x`, `y`, `z`, `X`, `Y`, `Z`. `SetFov` and `SetData`
  validate their input and store it. `InitGrid` rebuilds the voxel centres.
  Each axis is `linspace(0, fov, n, endpoint=False)` minus its mean, so entry
  `i` is `(2i - (n-1)) * fov / (2n)`. `X`, `Y`, `Z` are the ij-indexed meshgrid
  of the three axes. Every method re-establishes `Valid()`: once a grid exists,
  it matches the current `fov` and `vsize`.
- **ROIs and statistics** (`roi.dfy`, module `Rois`, built on `reductions.dfy`
  and `grids.dfy`). The ROI classes are a sealed datatype `Roi = Whole | Rect
  | Cyl | Sphere`, where `Whole` is the base class with its documented all-ones
  mask. The validating setters and constructors return a `Result`. `GetMask`
  is the 0/1 mask of the voxels whose centres lie inside the ROI, with every
  boundary inclusive. `sqrt(d) <= r` is written as `r >= 0 && d <= r*r`, and
  `SqrtComparison` shows the two agree. The statistics reduce the flattened
  data through the mask. `max`, `min` and `median` select the voxels whose
  mask is `> 0`. `sum`, `mean` and `var` use the mask as weights. `std` is
  characterised through `var` by `IsStd`.
- **Configuration dispatch** (`io.dfy`, module `Io`). `JsonToRoi` models
  `json_to_roi` after JSON decoding. It takes a `map<string, Value>`, checks
  the keys in the source's order and calls the chosen constructor.

`scenario.dfy` proves the assertions of the repository's tests on every grid
with an even voxel count per axis and 0.5-wide voxels (the tests use
320 x 168 x 30). The sphere of radius 0.434, the unit cube and the cylinder
of radius 0.354 and height 0.5, all centred at the origin, each hold exactly
the 8 voxels around the origin. For an image of ones this gives sum 8,
mean 1, variance 0 (so std 0) and median 1.

Arithmetic is exact (`real`). Arrays are `RawArray(shape, flat)` values in
row-major order, or nested sequences `Grid3` for the coordinate arrays and
masks.

Where the documentation and the code disagree, the model follows the code:

- The docstrings of `max`, `min` and `median` say "non-negative" mask
  values. The code selects `mask > 0` (roi/roi.py:31,38,45).
- The tests compare ROIs with `==` (test/test_roi.py:7,12,17), but roi/roi.py
  defines no `__eq__`. Python would compare object identity, so those
  assertions fail as written. The model uses the datatype's structural
  equality, which is what the tests evidently intend. `Io.RoundTrip` states
  the round trip under that equality.

## Model

| member | source | states |
|---|---|---|
| `Values.Squeeze` | roi/image.py:55 | numpy's squeeze drops every length-1 axis and keeps the number of entries |
| `Values.Vec3OfArray` | roi/image.py:55-57 | an array becomes a three-vector exactly when it squeezes to shape (3,), holding its entries in order; otherwise it is a ValueError |
| `Values.Vec3Of` | roi/roi.py:89-92 | a decoded value becomes a three-vector exactly when it is an array that squeezes to (3,); a scalar or text is a ValueError |
| `Values.AtLeast3d` | roi/image.py:38-40 | atleast_3d keeps the entries, pads 0-, 1- and 2-D shapes to three axes and leaves higher-dimensional shapes as they are |
| `ImageGrid.Axis` | roi/image.py:69-74 | an axis of `n` voxels has exactly `n` centres |
| `ImageGrid.LinspaceMean` | roi/image.py:69-72 | the mean of `linspace(0, fov, n, endpoint=False)` is `(n-1)/2` steps of `fov/n` |
| `ImageGrid.AxisClosedForm` | roi/image.py:69-74 | centre `i` of an axis is `(2i - (n-1)) * fov / (2n)` |
| `ImageGrid.AxisStep` | roi/image.py:69-71 | neighbouring centres are `fov / n` apart |
| `ImageGrid.AxisIncreasing` | roi/image.py:69-71 | with `fov > 0` the centres are strictly increasing |
| `ImageGrid.AxisSymmetric` | roi/image.py:72-74 | centring makes each axis symmetric: `x_i == -x_{n-1-i}` |
| `ImageGrid.AxisSumZero` | roi/image.py:72-74 | every centred axis sums to zero |
| `ImageGrid.Meshgrid` | roi/image.py:75-76 | `X`, `Y`, `Z` have shape `(|x|, |y|, |z|)` and `X[i][j][k] == x[i]`, `Y[i][j][k] == y[j]`, `Z[i][j][k] == z[k]` (ij indexing) |
| `ImageGrid.Image.InitGrid` | roi/image.py:64-76 | rebuilds the axes and the meshgrid from the current `fov` and `vsize`, leaving `fov`, `data` and `vsize` unchanged |
| `ImageGrid.Image.SetFov` | roi/image.py:45-62 | rejects an fov that does not squeeze to (3,) with a ValueError; otherwise stores it and rebuilds the grid only if one exists, keeping data and `vsize` |
| `ImageGrid.Image.SetData` | roi/image.py:24-43 | rejects missing data and data with more than 3 axes; otherwise stores the padded data, sets `vsize` to its shape, keeps `fov` and rebuilds the grid |
| `ImageGrid.Image.New` | roi/image.py:9-22 | construction fails exactly when `set_fov` or `set_data` would fail, with their errors in that order; on success the grid matches and was built exactly once |
| `ImageGrid.Image.ViewConsistent` | roi/image.py:41-43 | a constructed image has 3 axes, coordinate arrays of its shape and one value per voxel |
| `Rois.NonNegative` | roi/roi.py:112-120 | a radius or height is accepted exactly when it is a number `>= 0`; a negative one is a ValueError |
| `Rois.SetSize` | roi/roi.py:84-87 | `set_size` accepts any size that squeezes to (3,), negative sides included, and changes nothing but the size |
| `Rois.SetCenter` | roi/roi.py:89-92 | `set_center` accepts exactly the centres that squeeze to (3,) and changes nothing but the centre |
| `Rois.SetRadius` | roi/roi.py:146-151 | `set_radius` accepts exactly non-negative numbers and changes nothing but the radius |
| `Rois.SetHeight` | roi/roi.py:117-120 | `set_height` accepts exactly non-negative numbers and changes nothing but the height |
| `Rois.NewRect` | roi/roi.py:79-82 | `RectROI(size, center)` succeeds exactly when both vectors are valid, reports a bad size first, and carries exactly the given size and centre |
| `Rois.NewCyl` | roi/roi.py:106-110 | `CylROI` checks radius, then height, then centre, and on success carries exactly the given parameters |
| `Rois.NewSphere` | roi/roi.py:141-144 | `SphereROI` checks radius, then centre, and on success carries exactly the given parameters |
| `Rois.SqrtComparison` | roi/roi.py:131-134 | for the root `s` of a squared distance `d`, `s <= r` holds exactly when `r >= 0 && d <= r*r` |
| `Rois.GetMask` | roi/roi.py:94-165 | the mask has the image's shape, and each entry is 1.0 exactly when the voxel centre is inside the ROI (inclusive boundaries) and 0.0 otherwise |
| `Rois.BaseGetMaskAsWritten` | roi/roi.py:13-24 | the base `get_mask` as written never returns a mask: every call through an instance, which is how every statistic calls it, raises TypeError |
| `Rois.BaseMaskFinding` | roi/roi.py:19-24 | the documented base mask is all ones over the image, while the code as written fails |
| `Rois.NegativeSizeEmpty` | roi/roi.py:84-100 | a rectangle with a negative side contains no voxel |
| `Rois.Weights` | roi/roi.py:97-100 | the flattened mask has one entry per voxel, each 0 or 1 |
| `Rois.RoiSum` | roi/roi.py:68-72 | the sum of data times mask; since the mask is 0/1 it equals the sum of the values of the voxels inside the ROI (`Rois.SumOfOnes` gives the voxel count for data of ones) |
| `Rois.RoiMean` | roi/roi.py:47-52 | the weighted mean times the total weight is the weighted sum; ZeroDivisionError exactly when the ROI is empty |
| `Rois.RoiVar` | roi/roi.py:54-60 | the variance times the total weight is the mask-weighted sum of the squared deviations from the mean; it is non-negative; ZeroDivisionError exactly when the ROI is empty |
| `Rois.IsStd` | roi/roi.py:62-66 | the standard deviation is the non-negative root of the variance; it is zero exactly when the variance is zero |
| `Rois.StdUnique` | roi/roi.py:62-66 | the variance has only one non-negative root, so the standard deviation is determined |
| `Rois.InRoi` | roi/roi.py:28-31 | the selection `data[mask > 0]` is empty exactly when the ROI is empty |
| `Rois.RoiMax` | roi/roi.py:26-31 | the maximum is attained by a voxel with mask > 0 and bounds every such voxel; ValueError exactly when there is none |
| `Rois.RoiMin` | roi/roi.py:33-38 | the minimum is attained by a voxel with mask > 0 and bounds every such voxel from below; ValueError exactly when there is none |
| `Rois.RoiMedian` | roi/roi.py:40-45 | the median is undefined (NaN) exactly when the ROI is empty |
| `Rois.MedianInRange` | roi/roi.py:40-45 | the median lies between the values of two voxels of the ROI |
| `Rois.SumOfOnes` | roi/roi.py:68-72 | with data all ones, the weighted sum is the number of voxels in the ROI |
| `Rois.ConstantStatistics` | roi/roi.py:26-60 | on constant data `c` over a non-empty ROI, mean, median, max and min are `c` and the variance is 0 |
| `Rois.ConstantStd` | roi/roi.py:62-66 | on constant data the only standard deviation (root of the variance) is 0 |
| `Reductions.Average` | roi/roi.py:52 | `numpy.average` times the total weight is the weighted sum; ZeroDivisionError exactly when the weights sum to zero |
| `Reductions.AverageConstant` | roi/roi.py:52 | the weighted average of constant values is that constant |
| `Reductions.AverageNonNegative` | roi/roi.py:59-60 | with non-negative weights, the average of non-negative values is non-negative |
| `Reductions.Selected` | roi/roi.py:31 | the boolean selection holds exactly the values whose weight is positive |
| `Reductions.SelectedMultiplicity` | roi/roi.py:31 | each value occurs in the selection exactly as many times as at positions of positive weight |
| `Reductions.DotSelected` | roi/roi.py:72 | with 0/1 weights, the weighted sum is the sum of the selected values |
| `Reductions.SelectedCount` | roi/roi.py:72 | with 0/1 weights, the total weight is the number of selected values |
| `Reductions.MaxOf` | roi/roi.py:31 | `max` is a member of the selection and bounds it; ValueError on an empty selection |
| `Reductions.MinOf` | roi/roi.py:38 | `min` is a member of the selection and bounds it from below; ValueError on an empty selection |
| `Reductions.Sort` | roi/roi.py:45 | the values numpy.median sorts are ordered and a permutation of the selection |
| `Reductions.Median` | roi/roi.py:45 | the median is defined exactly for a non-empty selection |
| `Reductions.MedianBetween` | roi/roi.py:45 | the median lies between two selected values |
| `Reductions.MedianConstant` | roi/roi.py:45 | the median of constant values is that constant |
| `Io.JsonToRoi` | roi/io.py:30-51 | checks `type`, then `center`, then the variant's keys, giving a KeyError for the first missing one and a ValueError for an unknown type; otherwise returns the chosen constructor's result, whose errors propagate unchanged |
| `Io.DecodedParameters` | roi/io.py:36-49 | a decoded ROI carries exactly the configuration's type, centre and parameters |
| `Io.RoundTrip` | test/test_roi.py:4-17 | every ROI the constructors can build is decoded back equal from its configuration |
| `Scenario.HalfUnitAxis` | test/test_roi.py:21-23 | with 0.5-wide voxels, centre `i` of an axis is `(2i - n + 1) / 4` |
| `Scenario.TestImage` | test/test_roi.py:21-23 | the test's `roi.Image(image_fov, np.ones(image_vsize))` succeeds and offers exactly the half-unit voxels of ones the scenario reasons about |
| `Scenario.TestPoint` | test/test_roi.py:19-44 | a voxel centre is inside each test ROI exactly when it is next to the origin on all three axes |
| `Scenario.TestMask` | test/test_roi.py:19-44 | each test ROI's mask is one exactly on the 2 x 2 x 2 voxels around the origin |
| `Scenario.TestWeights` | test/test_roi.py:19-44 | each test ROI contains exactly 8 voxels |
| `Scenario.TestStatistics` | test/test_roi.py:19-44 | on an image of ones each test ROI has sum 8, mean 1, variance 0, std 0 and median 1 |

## Findings

| source | as written | input that shows it | evidently intended | confidence | as-written member | corrected member |
|---|---|---|---|---|---|---|
| roi/roi.py:13-24 | `ROI.get_mask(image)` is declared without `self` and reads `image.shape`, which Image does not define | any call `ROI().get_mask(img)` or `ROI().sum(img)`: two arguments reach a one-parameter function, raising TypeError | a mask of ones the shape of the image, as the docstring at lines 19-20 says | high, not executed | `Rois.BaseGetMaskAsWritten` | `Rois.BaseMaskFinding` |

The rest of the model uses the corrected base mask: the `Whole` variant of
`Rois.GetMask`.

## Left out

- JSON text parsing and the fallback to reading a file (roi/io.py:19-28). The configuration is given as an already-decoded `map<string, Value>`.
- IEEE float rounding. All arithmetic is exact `real`, so linspace, mean-centring, the weighted averages and the voxel counts of the test scenario hold exactly, not to rounding.
- The square root in `std` (roi/roi.py:66). `IsStd` characterises the standard deviation as the non-negative root of the variance; no function computes it.
- The `isinstance` checks in every `get_mask` (roi/roi.py:22-23, 95-96, 128-129, 159-160). The image argument is statically typed.
- ImageGrid.Image.SetFov: a rejected fov leaves the image unchanged. roi/image.py:55 has already stored the rejected array in `self.fov` when the ValueError is raised.
- Rois.SetSize: returns a new ROI value or an error and has no object to leave half-updated. roi/roi.py:85 stores the rejected size before raising. The same holds for `Rois.SetCenter`, `Rois.SetRadius` and `Rois.SetHeight`.
- ImageGrid.Image: stores values, not references. `np.asarray(fov).squeeze()` (roi/image.py:55) and `np.asfarray` with `np.atleast_3d` (roi/image.py:38) can return the caller's array or a view of it, so a later in-place change to that array, or to `img.fov`, alters the image without rebuilding the grid and breaks the grid-matches-fov invariant `Valid()`. The model cannot express that aliasing.
- Reductions.Selected: the order of the selected values is not stated, only which values occur and how often (`Reductions.SelectedMultiplicity`); max, min, sum and median do not depend on it.
- ROI objects are values. Aliasing of ROI objects and updates in place through the setters are not modelled.
- Rois.NonNegative: only JSON numbers are accepted. `numpy.float64` also converts numeric strings, booleans and one-element arrays, and those inputs are treated as errors here. Decoded JSON booleans, nulls and objects are not among the modelled `Value`s.
- `numpy.asfarray` on image data (roi/image.py:38). Data are arrays of reals already, so a non-numeric array cannot be given.
- Rois.RoiMedian: numpy returns NaN with a warning for an empty selection, and the model returns `None`. Only emptiness, the range of the median and the constant-data case are proved about it.
