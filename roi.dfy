/**
 Regions of interest: the base ROI (the whole image), rectangles, cylinders with
 their axis along Z, and spheres; their validating setters; the 0/1 mask of the
 voxels whose centres lie inside; and the statistics of an image over a mask.
 */
module Rois {
  import opened Wrappers
  import opened Values
  import opened Reductions
  import opened Grids
  import opened ImageGrid

  /** The ROI classes of roi.py; `Whole` is the base class, whose mask is meant to be all ones. */
  datatype Roi =
    | Whole
    | Rect(size: Vec3, center: Vec3)
    | Cyl(radius: real, height: real, center: Vec3)
    | Sphere(radius: real, center: Vec3)

  /** What the setters guarantee: radius and height are not negative. */
  predicate ValidRoi(roi: Roi)
  {
    match roi
    case Cyl(r, h, _) => r >= 0.0 && h >= 0.0
    case Sphere(r, _) => r >= 0.0
    case _ => true
  }

  const Origin := Vec3(0.0, 0.0, 0.0)

  /** `numpy.float64(v)` on a decoded value. */
  function Float64(v: Value, what: string): (r: Result<real, Error>)
    ensures r.Ok? <==> v.Num?
    ensures r.Ok? ==> r.value == v.n
    ensures r.Err? ==> r.error == ValueError(NotANumber(what))
  {
    if v.Num? then Ok(v.n) else Err(ValueError(NotANumber(what)))
  }

  /** `numpy.float64(v)` followed by the `< 0` check of `set_radius` and `set_height`. */
  function NonNegative(v: Value, what: string): (r: Result<real, Error>)
    ensures r.Ok? <==> v.Num? && v.n >= 0.0
    ensures r.Ok? ==> r.value == v.n
    ensures v.Num? && v.n < 0.0 ==> r == Err(ValueError(Negative(what)))
    ensures !v.Num? ==> r == Err(ValueError(NotANumber(what)))
  {
    var x :- Float64(v, what);
    if x < 0.0 then Err(ValueError(Negative(what))) else Ok(x)
  }

  /** `RectROI.set_size`: any three numbers, negative ones included. */
  function SetSize(roi: Roi, size: Value): (r: Result<Roi, Error>)
    requires roi.Rect?
    ensures r.Ok? <==> size.Array? && Squeeze(size.a.shape) == [3]
    ensures r.Ok? ==> r.value.Rect? && Components(r.value.size) == size.a.flat && r.value.center == roi.center
    ensures r.Err? ==> r.error.ValueError?
  {
    var s :- Vec3Of(size, "size");
    Ok(roi.(size := s))
  }

  /** `set_center` of the three shaped classes. */
  function SetCenter(roi: Roi, center: Value): (r: Result<Roi, Error>)
    requires !roi.Whole?
    ensures r.Ok? <==> center.Array? && Squeeze(center.a.shape) == [3]
    ensures r.Ok? ==> !r.value.Whole? && Components(r.value.center) == center.a.flat
    ensures r.Ok? ==> r.value == roi.(center := r.value.center)
    ensures r.Err? ==> r.error.ValueError?
  {
    var c :- Vec3Of(center, "center");
    Ok(roi.(center := c))
  }

  /** `set_radius` of `CylROI` and `SphereROI`. */
  function SetRadius(roi: Roi, radius: Value): (r: Result<Roi, Error>)
    requires roi.Cyl? || roi.Sphere?
    ensures r.Ok? <==> radius.Num? && radius.n >= 0.0
    ensures r.Ok? ==> r.value == roi.(radius := radius.n)
    ensures r.Err? ==> r == Err(NonNegative(radius, "radius").error)
  {
    var x :- NonNegative(radius, "radius");
    Ok(roi.(radius := x))
  }

  /** `CylROI.set_height`. */
  function SetHeight(roi: Roi, height: Value): (r: Result<Roi, Error>)
    requires roi.Cyl?
    ensures r.Ok? <==> height.Num? && height.n >= 0.0
    ensures r.Ok? ==> r.value == roi.(height := height.n)
    ensures r.Err? ==> r == Err(NonNegative(height, "height").error)
  {
    var x :- NonNegative(height, "height");
    Ok(roi.(height := x))
  }

  /** `RectROI(size, center)`: `set_size`, then `set_center`. */
  function NewRect(size: Value, center: Value): (r: Result<Roi, Error>)
    ensures r.Ok? <==> Vec3Of(size, "size").Ok? && Vec3Of(center, "center").Ok?
    ensures Vec3Of(size, "size").Err? ==> r == Err(Vec3Of(size, "size").error)
    ensures r.Ok? ==> r.value.Rect? && ValidRoi(r.value)
    ensures r.Ok? ==> Components(r.value.size) == size.a.flat && Components(r.value.center) == center.a.flat
  {
    var roi :- SetSize(Rect(Origin, Origin), size);
    SetCenter(roi, center)
  }

  /** `CylROI(radius, height, center)`: radius, then height, then center. */
  function NewCyl(radius: Value, height: Value, center: Value): (r: Result<Roi, Error>)
    ensures r.Ok? <==> NonNegative(radius, "radius").Ok? && NonNegative(height, "height").Ok? &&
                       Vec3Of(center, "center").Ok?
    ensures NonNegative(radius, "radius").Err? ==> r == Err(NonNegative(radius, "radius").error)
    ensures NonNegative(radius, "radius").Ok? && NonNegative(height, "height").Err? ==>
              r == Err(NonNegative(height, "height").error)
    ensures r.Ok? ==> r.value.Cyl? && ValidRoi(r.value)
    ensures r.Ok? ==> r.value.radius == radius.n && r.value.height == height.n &&
                      Components(r.value.center) == center.a.flat
  {
    var roi :- SetRadius(Cyl(0.0, 0.0, Origin), radius);
    var roi' :- SetHeight(roi, height);
    SetCenter(roi', center)
  }

  /** `SphereROI(radius, center)`: radius, then center. */
  function NewSphere(radius: Value, center: Value): (r: Result<Roi, Error>)
    ensures r.Ok? <==> NonNegative(radius, "radius").Ok? && Vec3Of(center, "center").Ok?
    ensures NonNegative(radius, "radius").Err? ==> r == Err(NonNegative(radius, "radius").error)
    ensures r.Ok? ==> r.value.Sphere? && ValidRoi(r.value)
    ensures r.Ok? ==> r.value.radius == radius.n && Components(r.value.center) == center.a.flat
  {
    var roi :- SetRadius(Sphere(0.0, Origin), radius);
    SetCenter(roi, center)
  }

  function Abs(a: real): real
  {
    if a < 0.0 then -a else a
  }

  /** `numpy.sqrt(d) <= r`, for a squared distance `d`, without the square root. */
  predicate WithinRadius(d: real, r: real)
  {
    r >= 0.0 && d <= r * r
  }

  /** For the root `s` of `d`, `s <= r` holds exactly when `WithinRadius(d, r)` does. */
  lemma SqrtComparison(d: real, r: real, s: real)
    requires s >= 0.0 && s * s == d
    ensures s <= r <==> WithinRadius(d, r)
  {
    if s <= r {
      SquareMonotone(s, r);
    }
    if WithinRadius(d, r) && s > r {
      SquareStrict(r, s);
    }
  }

  lemma SquareMonotone(a: real, b: real)
    requires 0.0 <= a <= b
    ensures a * a <= b * b
  {
    ScaleLe(a, b, a);
    ScaleLe(a, b, b);
    assert b * a == a * b;
  }

  lemma SquareStrict(a: real, b: real)
    requires 0.0 <= a < b
    ensures a * a < b * b
  {
    PositiveProduct(b - a, b + a);
    assert (b - a) * (b + a) == b * b - a * a;
  }

  lemma PositiveProduct(x: real, y: real)
    requires x > 0.0 && y > 0.0
    ensures x * y > 0.0
  {
  }

  lemma ScaleLe(x: real, y: real, c: real)
    requires x <= y && c >= 0.0
    ensures x * c <= y * c
  {
  }

  function Mul(x: real, y: real): real
  {
    x * y
  }

  /** The square of `a`, written as a product of two factors. */
  function Sq(a: real): real
  {
    Mul(a, a)
  }

  lemma MulPositive(x: real, y: real)
    requires x > 0.0 && y > 0.0
    ensures Mul(x, y) > 0.0
  {
  }

  /** Whether a voxel centre `p` belongs to the ROI; every boundary is inclusive. */
  predicate Inside(roi: Roi, p: Vec3)
  {
    match roi
    case Whole => true
    case Rect(s, c) =>
      Abs(p.x - c.x) <= s.x / 2.0 && Abs(p.y - c.y) <= s.y / 2.0 && Abs(p.z - c.z) <= s.z / 2.0
    case Cyl(r, h, c) =>
      WithinRadius(Sq(p.x - c.x) + Sq(p.y - c.y), r) && Abs(p.z - c.z) <= h / 2.0
    case Sphere(r, c) =>
      WithinRadius(Sq(p.x - c.x) + Sq(p.y - c.y) + Sq(p.z - c.z), r)
  }

  /** The centre of voxel (i, j, k). */
  function PointAt(v: Voxels, i: nat, j: nat, k: nat): Vec3
    requires Consistent(v) && i < v.dims[0] && j < v.dims[1] && k < v.dims[2]
  {
    Vec3(v.X[i][j][k], v.Y[i][j][k], v.Z[i][j][k])
  }

  /**
   `get_mask(image)`: an array of the image's shape holding 1.0 at the voxels
   whose centres are inside the ROI and 0.0 elsewhere.
   */
  function GetMask(roi: Roi, v: Voxels): (m: Grid3)
    requires Consistent(v)
    ensures Shaped(m, v.dims[0], v.dims[1], v.dims[2])
    ensures forall i, j, k {:trigger m[i][j][k]} :: 0 <= i < v.dims[0] && 0 <= j < v.dims[1] && 0 <= k < v.dims[2] ==>
      (m[i][j][k] == 1.0 <==> Inside(roi, PointAt(v, i, j, k))) &&
      (m[i][j][k] == 0.0 <==> !Inside(roi, PointAt(v, i, j, k)))
  {
    var n0, n1, n2 := v.dims[0], v.dims[1], v.dims[2];
    seq(n0, i requires 0 <= i < n0 =>
      seq(n1, j requires 0 <= j < n1 =>
        seq(n2, k requires 0 <= k < n2 => Indicator(Inside(roi, PointAt(v, i, j, k))))))
  }

  /**
   The base class's `get_mask` as written: it is declared without `self`, so
   every call through an instance passes one argument too many, and its body
   reads an `image.shape` that Image does not have. It never returns a mask.
   */
  function BaseGetMaskAsWritten(v: Voxels): (r: Result<Grid3, Error>)
    ensures r.Err?
  {
    Err(TypeError)
  }

  /** The documented base mask: every entry of an image-shaped array is one. */
  lemma BaseMaskFinding(v: Voxels)
    requires Consistent(v)
    ensures BaseGetMaskAsWritten(v).Err?
    ensures forall i, j, k {:trigger GetMask(Whole, v)[i][j][k]} ::
      0 <= i < v.dims[0] && 0 <= j < v.dims[1] && 0 <= k < v.dims[2] ==> GetMask(Whole, v)[i][j][k] == 1.0
  {
  }

  /** A rectangle with a negative side contains no voxel. */
  lemma NegativeSizeEmpty(roi: Roi, v: Voxels)
    requires Consistent(v) && roi.Rect?
    requires roi.size.x < 0.0 || roi.size.y < 0.0 || roi.size.z < 0.0
    ensures forall i, j, k {:trigger GetMask(roi, v)[i][j][k]} ::
      0 <= i < v.dims[0] && 0 <= j < v.dims[1] && 0 <= k < v.dims[2] ==> GetMask(roi, v)[i][j][k] == 0.0
  {
    forall i, j, k | 0 <= i < v.dims[0] && 0 <= j < v.dims[1] && 0 <= k < v.dims[2]
      ensures GetMask(roi, v)[i][j][k] == 0.0
    {
      var p := PointAt(v, i, j, k);
      assert Abs(p.x - roi.center.x) >= 0.0 && Abs(p.y - roi.center.y) >= 0.0 && Abs(p.z - roi.center.z) >= 0.0;
    }
  }

  /** The mask flattened in C order: the weights of the statistics. */
  function Weights(roi: Roi, v: Voxels): (w: seq<real>)
    requires Consistent(v)
    ensures |w| == |v.values| && Binary(w)
  {
    var m := GetMask(roi, v);
    Flat3Length(m, v.dims[0], v.dims[1], v.dims[2]);
    Flat3Binary(m, v.dims[0], v.dims[1], v.dims[2]);
    Flat3(m)
  }

  /** No voxel of the image lies in the ROI. */
  ghost predicate EmptyRoi(roi: Roi, v: Voxels)
    requires Consistent(v)
  {
    forall i :: 0 <= i < |v.values| ==> Weights(roi, v)[i] == 0.0
  }

  /**
   `ROI.sum`: `(image.data * mask).sum()`. As the mask is 0/1 this is the sum
   of the values of the voxels inside the ROI.
   */
  function RoiSum(roi: Roi, v: Voxels): (r: real)
    requires Consistent(v)
    ensures r == Sum(InRoi(roi, v))
  {
    DotSelected(v.values, Weights(roi, v));
    Dot(v.values, Weights(roi, v))
  }

  /** `ROI.mean`: the mask-weighted average, a ZeroDivisionError on an empty ROI. */
  function RoiMean(roi: Roi, v: Voxels): (r: Result<real, Error>)
    requires Consistent(v)
    ensures r.Err? <==> EmptyRoi(roi, v)
    ensures r.Err? ==> r.error == ZeroDivisionError
    ensures r.Ok? ==> r.value * Sum(Weights(roi, v)) == RoiSum(roi, v)
  {
    NoWeight(Weights(roi, v));
    Average(v.values, Weights(roi, v))
  }

  /** The squared deviations `(image.data - mean) ** 2`. */
  function Deviations(d: seq<real>, mean: real): (r: seq<real>)
    ensures |r| == |d| && forall i :: 0 <= i < |d| ==> r[i] >= 0.0
  {
    seq(|d|, i requires 0 <= i < |d| => Sq(d[i] - mean))
  }

  /** `ROI.var`: the mask-weighted average of the squared deviations from `mean`. */
  function RoiVar(roi: Roi, v: Voxels): (r: Result<real, Error>)
    requires Consistent(v)
    ensures r.Err? <==> EmptyRoi(roi, v)
    ensures r.Err? ==> r.error == ZeroDivisionError
    ensures r.Ok? ==> r.value >= 0.0
    ensures r.Ok? ==> RoiMean(roi, v).Ok?
    ensures r.Ok? ==>
      r.value * Sum(Weights(roi, v)) == Dot(Deviations(v.values, RoiMean(roi, v).value), Weights(roi, v))
  {
    var mean :- RoiMean(roi, v);
    var w := Weights(roi, v);
    NoWeight(w);
    AverageNonNegative(Deviations(v.values, mean), w);
    Average(Deviations(v.values, mean), w)
  }

  /**
   `ROI.std` is `numpy.sqrt(var)`: `s` is the ROI's standard deviation, the
   non-negative root of the variance. It is zero exactly when the variance is.
   */
  ghost predicate IsStd(roi: Roi, v: Voxels, s: real)
    requires Consistent(v)
    ensures IsStd(roi, v, s) ==> RoiVar(roi, v).Ok? && (s == 0.0 <==> RoiVar(roi, v).value == 0.0)
  {
    ZeroRoot(s);
    RoiVar(roi, v).Ok? && s >= 0.0 && Sq(s) == RoiVar(roi, v).value
  }

  /** The standard deviation is unique: the variance has one non-negative root. */
  lemma StdUnique(roi: Roi, v: Voxels, s: real, t: real)
    requires Consistent(v) && IsStd(roi, v, s) && IsStd(roi, v, t)
    ensures s == t
  {
    if s < t {
      SquareStrict(s, t);
    } else if t < s {
      SquareStrict(t, s);
    }
  }

  /** The values of the voxels with a positive mask, `image.data[mask > 0]`. */
  function InRoi(roi: Roi, v: Voxels): (s: seq<real>)
    requires Consistent(v)
    ensures |s| == 0 <==> EmptyRoi(roi, v)
  {
    var w := Weights(roi, v);
    SelectedEmpty(v.values, w);
    Selected(v.values, w)
  }

  /** `ROI.max`: the largest value inside the ROI, attained by one of its voxels. */
  function RoiMax(roi: Roi, v: Voxels): (r: Result<real, Error>)
    requires Consistent(v)
    ensures r.Err? <==> EmptyRoi(roi, v)
    ensures r.Err? ==> r.error == ValueError(EmptyReduction)
    ensures r.Ok? ==> exists i :: 0 <= i < |v.values| && Weights(roi, v)[i] > 0.0 && v.values[i] == r.value
    ensures r.Ok? ==> forall i :: 0 <= i < |v.values| && Weights(roi, v)[i] > 0.0 ==> v.values[i] <= r.value
  {
    var s := InRoi(roi, v);
    assert forall i :: 0 <= i < |v.values| && Weights(roi, v)[i] > 0.0 ==> v.values[i] in s;
    MaxOf(s)
  }

  /** `ROI.min`: the smallest value inside the ROI, attained by one of its voxels. */
  function RoiMin(roi: Roi, v: Voxels): (r: Result<real, Error>)
    requires Consistent(v)
    ensures r.Err? <==> EmptyRoi(roi, v)
    ensures r.Err? ==> r.error == ValueError(EmptyReduction)
    ensures r.Ok? ==> exists i :: 0 <= i < |v.values| && Weights(roi, v)[i] > 0.0 && v.values[i] == r.value
    ensures r.Ok? ==> forall i :: 0 <= i < |v.values| && Weights(roi, v)[i] > 0.0 ==> r.value <= v.values[i]
  {
    var s := InRoi(roi, v);
    assert forall i :: 0 <= i < |v.values| && Weights(roi, v)[i] > 0.0 ==> v.values[i] in s;
    MinOf(s)
  }

  /** `ROI.median`: numpy's median of the values inside the ROI; NaN (None) for an empty ROI. */
  function RoiMedian(roi: Roi, v: Voxels): (r: Option<real>)
    requires Consistent(v)
    ensures r.None? <==> EmptyRoi(roi, v)
  {
    Median(InRoi(roi, v))
  }

  /** The median lies between the values of two voxels of the ROI. */
  lemma MedianInRange(roi: Roi, v: Voxels)
    requires Consistent(v) && !EmptyRoi(roi, v)
    ensures exists i, j :: (0 <= i < |v.values| && 0 <= j < |v.values| &&
      Weights(roi, v)[i] > 0.0 && Weights(roi, v)[j] > 0.0 &&
      v.values[i] <= RoiMedian(roi, v).value <= v.values[j])
  {
    MedianBetween(InRoi(roi, v));
  }

  /** With every voxel equal to one, the sum counts the voxels inside the ROI. */
  lemma SumOfOnes(roi: Roi, v: Voxels)
    requires Consistent(v)
    requires forall i :: 0 <= i < |v.values| ==> v.values[i] == 1.0
    ensures RoiSum(roi, v) == |InRoi(roi, v)| as real
  {
    var w := Weights(roi, v);
    assert Dot(v.values, w) == Sum(w) by {
      DotConstant(v.values, w, 1.0);
    }
    assert Sum(w) == |Selected(v.values, w)| as real by {
      SelectedCount(v.values, w);
    }
  }

  /** With the same value `c` everywhere, a non-empty ROI has mean `c`, variance 0, median `c`. */
  lemma ConstantStatistics(roi: Roi, v: Voxels, c: real)
    requires Consistent(v) && !EmptyRoi(roi, v)
    requires forall i :: 0 <= i < |v.values| ==> v.values[i] == c
    ensures RoiMean(roi, v) == Ok(c)
    ensures RoiVar(roi, v) == Ok(0.0)
    ensures RoiMedian(roi, v) == Some(c)
    ensures RoiMax(roi, v) == Ok(c) && RoiMin(roi, v) == Ok(c)
  {
    var w := Weights(roi, v);
    NoWeight(w);
    AverageConstant(v.values, w, c);
    var dev := Deviations(v.values, c);
    forall i | 0 <= i < |dev| ensures dev[i] == 0.0 {
      assert Sq(v.values[i] - c) == Sq(0.0);
    }
    AverageConstant(dev, w, 0.0);
    var s := InRoi(roi, v);
    forall i | 0 <= i < |s| ensures s[i] == c {
      assert s[i] in s;
    }
    MedianConstant(s, c);
  }

  /** Constant data has standard deviation zero: 0 is the only root of its variance. */
  lemma ConstantStd(roi: Roi, v: Voxels, c: real, s: real)
    requires Consistent(v) && !EmptyRoi(roi, v)
    requires forall i :: 0 <= i < |v.values| ==> v.values[i] == c
    ensures IsStd(roi, v, s) <==> s == 0.0
  {
    ConstantStatistics(roi, v, c);
    ZeroRoot(s);
  }

  /** Zero is the only non-negative root of zero. */
  lemma ZeroRoot(s: real)
    ensures (s >= 0.0 && Sq(s) == 0.0) <==> s == 0.0
  {
    if s > 0.0 {
      MulPositive(s, s);
    }
  }
}
