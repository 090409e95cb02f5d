/**
 The scenario of the repository's tests: an image of ones whose field of view is
 half its voxel count on each axis (voxels 0.5 wide), and a sphere of radius
 0.434, a unit cube and a cylinder of radius 0.354 and height 0.5, each centred
 at the origin. On any grid with an even number of voxels per axis the voxel
 centres next to the origin lie at +-0.25, and each ROI holds exactly the
 2 x 2 x 2 voxels around the origin.
 */
module Scenario {
  import opened Wrappers
  import opened Values
  import opened Reductions
  import opened Grids
  import opened ImageGrid
  import opened Rois

  const TestSphere := Sphere(0.434, Origin)
  const TestRect := Rect(Vec3(1.0, 1.0, 1.0), Origin)
  const TestCyl := Cyl(0.354, 0.5, Origin)

  /** Voxel `i` of an axis of `n` voxels is one of the two next to the centre. */
  predicate Near(n: nat, i: int)
  {
    i == n / 2 - 1 || i == n / 2
  }

  function NearFlags(n: nat): seq<bool>
  {
    seq(n, i => Near(n, i))
  }

  lemma QuarterForm(n: real, a: real)
    requires n > 0.0
    ensures a * (n / 2.0) / (2.0 * n) == a / 4.0
  {
    assert a * (n / 2.0) == (a / 4.0) * (2.0 * n);
    DivideBack(a * (n / 2.0), 2.0 * n, a / 4.0);
  }

  /** With voxels 0.5 wide, the centre of voxel `i` is `(2i - n + 1) / 4`. */
  lemma HalfUnitAxis(n: nat, i: nat)
    requires n > 0 && i < n
    ensures Axis(n as real / 2.0, n)[i] == (2 * i - n + 1) as real / 4.0
  {
    AxisClosedForm(n as real / 2.0, n, i);
    QuarterForm(n as real, 2.0 * i as real - (n as real - 1.0));
  }

  /** On an even axis the two middle centres are at +-0.25 and every other one is 0.75 or more away. */
  lemma NearOrigin(n: nat, i: nat)
    requires n > 0 && n % 2 == 0 && i < n
    ensures Near(n, i) ==> Axis(n as real / 2.0, n)[i] == 0.25 || Axis(n as real / 2.0, n)[i] == -0.25
    ensures !Near(n, i) ==> Axis(n as real / 2.0, n)[i] >= 0.75 || Axis(n as real / 2.0, n)[i] <= -0.75
  {
    HalfUnitAxis(n, i);
    var t := 2 * i - n + 1;
    assert Near(n, i) <==> t == -1 || t == 1;
    if !Near(n, i) {
      assert t >= 3 || t <= -3;
    }
  }

  lemma SqNonNegative(a: real)
    ensures Sq(a) >= 0.0
  {
  }

  lemma SqOfQuarter(a: real)
    requires a == 0.25 || a == -0.25
    ensures Sq(a) == 0.0625
  {
  }

  lemma SqFar(a: real)
    requires a >= 0.75 || a <= -0.75
    ensures Sq(a) >= 0.5625
  {
    if a >= 0.75 {
      ScaleLe(0.75, a, 0.75);
      ScaleLe(0.75, a, a);
    } else {
      ScaleLe(0.75, -a, 0.75);
      ScaleLe(0.75, -a, -a);
      assert Mul(-a, -a) == Mul(a, a);
    }
  }

  /** A coordinate of a voxel centre in this scenario: +-0.25 when near the centre, 0.75 or more away otherwise. */
  predicate Coordinate(a: real, near: bool)
  {
    (near ==> a == 0.25 || a == -0.25) && (!near ==> a >= 0.75 || a <= -0.75)
  }

  lemma RectPoint(p: Vec3, nx: bool, ny: bool, nz: bool)
    requires Coordinate(p.x, nx) && Coordinate(p.y, ny) && Coordinate(p.z, nz)
    ensures Inside(TestRect, p) <==> nx && ny && nz
  {
  }

  lemma SpherePoint(p: Vec3, nx: bool, ny: bool, nz: bool)
    requires Coordinate(p.x, nx) && Coordinate(p.y, ny) && Coordinate(p.z, nz)
    ensures Inside(TestSphere, p) <==> nx && ny && nz
  {
    SquareTerm(p.x, nx);
    SquareTerm(p.y, ny);
    SquareTerm(p.z, nz);
    assert 0.434 * 0.434 == 0.188356;
  }

  lemma CylPoint(p: Vec3, nx: bool, ny: bool, nz: bool)
    requires Coordinate(p.x, nx) && Coordinate(p.y, ny) && Coordinate(p.z, nz)
    ensures Inside(TestCyl, p) <==> nx && ny && nz
  {
    SquareTerm(p.x, nx);
    SquareTerm(p.y, ny);
    assert 0.354 * 0.354 == 0.125316;
  }

  lemma SquareTerm(a: real, near: bool)
    requires Coordinate(a, near)
    ensures Sq(a - 0.0) >= 0.0
    ensures near ==> Sq(a - 0.0) == 0.0625
    ensures !near ==> Sq(a - 0.0) >= 0.5625
  {
    assert a - 0.0 == a;
    SqNonNegative(a);
    if near {
      SqOfQuarter(a);
    } else {
      SqFar(a);
    }
  }

  /** The prefix of length `k` of the centre flags holds the centre voxels below `k`. */
  lemma {:induction false} NearCountPrefix(n: nat, k: nat)
    requires 2 <= n && k <= n
    ensures Count(NearFlags(n)[..k]) == (if k >= n / 2 then 1 else 0) + (if k > n / 2 then 1 else 0)
  {
    if k > 0 {
      assert NearFlags(n)[..k][..k - 1] == NearFlags(n)[..k - 1];
      assert NearFlags(n)[..k][k - 1] == Near(n, k - 1);
      NearCountPrefix(n, k - 1);
    }
  }

  /** An even axis has exactly two voxels next to its centre. */
  lemma NearCount(n: nat)
    requires n > 0 && n % 2 == 0
    ensures Count(NearFlags(n)) == 2
  {
    NearCountPrefix(n, n);
    assert NearFlags(n)[..n] == NearFlags(n);
  }

  /** The image of the tests: ones everywhere, voxels 0.5 wide, so the field of view is half the voxel count. */
  function HalfUnitVoxels(n0: nat, n1: nat, n2: nat): (v: Voxels)
    ensures Consistent(v)
  {
    var m := Meshgrid(Axis(n0 as real / 2.0, n0), Axis(n1 as real / 2.0, n1), Axis(n2 as real / 2.0, n2));
    Voxels([n0, n1, n2], seq(n0 * n1 * n2, _ => 1.0), m.X, m.Y, m.Z)
  }

  /**
   `roi.Image(image_fov, np.ones(image_vsize))` of the tests: the image built
   from a field of view of half the voxel counts and data of ones offers exactly
   the voxels above.
   */
  method TestImage(n0: nat, n1: nat, n2: nat) returns (img: Image)
    ensures img.Valid() && img.hasGrid && img.View() == HalfUnitVoxels(n0, n1, n2)
  {
    Prod3(n0, n1, n2);
    var ones: NdArray := RawArray([n0, n1, n2], seq(n0 * n1 * n2, _ => 1.0));
    var fov := Vec3(n0 as real / 2.0, n1 as real / 2.0, n2 as real / 2.0);
    var r := Image.New(ArrayOf(fov), Some(ones));
    assert Squeeze(ArrayOf(fov).shape) == [3];
    img := r.value;
    assert img.fov == fov;
  }

  ghost predicate EvenGrid(n0: nat, n1: nat, n2: nat)
  {
    n0 > 0 && n0 % 2 == 0 && n1 > 0 && n1 % 2 == 0 && n2 > 0 && n2 % 2 == 0
  }

  lemma PointCoordinates(n0: nat, n1: nat, n2: nat, i: nat, j: nat, k: nat)
    requires EvenGrid(n0, n1, n2) && i < n0 && j < n1 && k < n2
    ensures var p := PointAt(HalfUnitVoxels(n0, n1, n2), i, j, k);
      Coordinate(p.x, Near(n0, i)) && Coordinate(p.y, Near(n1, j)) && Coordinate(p.z, Near(n2, k))
  {
    NearOrigin(n0, i);
    NearOrigin(n1, j);
    NearOrigin(n2, k);
  }

  predicate IsTestRoi(roi: Roi)
  {
    roi == TestSphere || roi == TestRect || roi == TestCyl
  }

  /** A voxel centre lies in a test ROI exactly when it is next to the origin on all three axes. */
  lemma TestPoint(roi: Roi, n0: nat, n1: nat, n2: nat, i: nat, j: nat, k: nat)
    requires EvenGrid(n0, n1, n2) && IsTestRoi(roi) && i < n0 && j < n1 && k < n2
    ensures Inside(roi, PointAt(HalfUnitVoxels(n0, n1, n2), i, j, k)) <==> Near(n0, i) && Near(n1, j) && Near(n2, k)
  {
    var p := PointAt(HalfUnitVoxels(n0, n1, n2), i, j, k);
    PointCoordinates(n0, n1, n2, i, j, k);
    if roi == TestSphere {
      SpherePoint(p, Near(n0, i), Near(n1, j), Near(n2, k));
    } else if roi == TestRect {
      RectPoint(p, Near(n0, i), Near(n1, j), Near(n2, k));
    } else {
      CylPoint(p, Near(n0, i), Near(n1, j), Near(n2, k));
    }
  }

  /** Each test ROI's mask is one exactly on the 2 x 2 x 2 voxels around the origin. */
  lemma TestMask(roi: Roi, n0: nat, n1: nat, n2: nat, g: Grid3)
    requires EvenGrid(n0, n1, n2) && IsTestRoi(roi)
    requires g == GetMask(roi, HalfUnitVoxels(n0, n1, n2))
    ensures forall i, j, k {:trigger g[i][j][k]} :: 0 <= i < n0 && 0 <= j < n1 && 0 <= k < n2 ==>
      g[i][j][k] == Indicator(NearFlags(n0)[i] && NearFlags(n1)[j] && NearFlags(n2)[k])
  {
    var v := HalfUnitVoxels(n0, n1, n2);
    forall i, j, k {:trigger g[i][j][k]} | 0 <= i < n0 && 0 <= j < n1 && 0 <= k < n2
      ensures g[i][j][k] == Indicator(NearFlags(n0)[i] && NearFlags(n1)[j] && NearFlags(n2)[k])
    {
      TestPoint(roi, n0, n1, n2, i, j, k);
      assert NearFlags(n0)[i] == Near(n0, i) && NearFlags(n1)[j] == Near(n1, j) && NearFlags(n2)[k] == Near(n2, k);
      assert g[i][j][k] == Indicator(Inside(roi, PointAt(v, i, j, k)));
    }
  }

  /** Each test ROI covers eight voxels of the image. */
  lemma TestWeights(roi: Roi, n0: nat, n1: nat, n2: nat)
    requires EvenGrid(n0, n1, n2) && IsTestRoi(roi)
    ensures Sum(Weights(roi, HalfUnitVoxels(n0, n1, n2))) == 8.0
  {
    var g := GetMask(roi, HalfUnitVoxels(n0, n1, n2));
    TestMask(roi, n0, n1, n2, g);
    NearCount(n0);
    NearCount(n1);
    NearCount(n2);
    BoxCount(g, NearFlags(n0), NearFlags(n1), NearFlags(n2), 2.0, 2.0, 2.0);
  }

  /**
   The assertions of the tests, on every even grid: sum 8, mean 1, standard
   deviation 0 (variance 0) and median 1.
   */
  lemma TestStatistics(roi: Roi, n0: nat, n1: nat, n2: nat)
    requires EvenGrid(n0, n1, n2) && IsTestRoi(roi)
    ensures var v := HalfUnitVoxels(n0, n1, n2);
      RoiSum(roi, v) == 8.0 && RoiMean(roi, v) == Ok(1.0) && RoiVar(roi, v) == Ok(0.0) &&
      IsStd(roi, v, 0.0) && RoiMedian(roi, v) == Some(1.0)
  {
    var v := HalfUnitVoxels(n0, n1, n2);
    var w := Weights(roi, v);
    TestWeights(roi, n0, n1, n2);
    DotConstant(v.values, w, 1.0);
    NoWeight(w);
    ConstantStatistics(roi, v, 1.0);
    ConstantStd(roi, v, 1.0, 0.0);
  }
}
