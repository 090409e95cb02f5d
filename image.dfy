/**
 The voxel grid of an image: each axis holds the centres of `n` equal voxels
 spanning the field of view, shifted so that the axis has mean zero, and the
 three-dimensional coordinate arrays X, Y, Z are their ij-indexed meshgrid.
 */
module ImageGrid {
  import opened Wrappers
  import opened Values
  import opened Reductions
  import opened Grids

  /** `numpy.linspace(start, stop, n, endpoint=False)`: n points with step `(stop - start) / n`. */
  function Linspace(start: real, stop: real, n: nat): seq<real>
  {
    seq(n, i requires 0 <= i < n => start + i as real * ((stop - start) / n as real))
  }

  /** `s.mean()`; only used on non-empty axes. */
  function Mean(s: seq<real>): real
    requires |s| > 0
  {
    Sum(s) / |s| as real
  }

  /**
   `s -= s.mean()`. The mean of an empty axis is NaN, and subtracting it from no
   entries leaves the axis empty.
   */
  function Centre(s: seq<real>): (r: seq<real>)
    ensures |r| == |s|
  {
    if |s| == 0 then [] else seq(|s|, i requires 0 <= i < |s| => s[i] - Mean(s))
  }

  /** One axis of the grid: lines 69-74 of image.py for a field of view `fov` and `n` voxels. */
  function Axis(fov: real, n: nat): (r: seq<real>)
    ensures |r| == n
  {
    Centre(Linspace(0.0, fov, n))
  }

  /** The closed form of the voxel centres. */
  function CentreOf(fov: real, n: nat, i: int): real
    requires n > 0
  {
    (2.0 * i as real - (n as real - 1.0)) * fov / (2.0 * n as real)
  }

  /** `0, 1, ..., n-1` as reals. */
  function Iota(n: nat): seq<real>
  {
    seq(n, i requires 0 <= i < n => i as real)
  }

  lemma {:induction false} IotaSum(n: nat)
    ensures 2.0 * Sum(Iota(n)) == n as real * (n as real - 1.0)
  {
    if n > 0 {
      assert Iota(n)[..n - 1] == Iota(n - 1);
      IotaSum(n - 1);
      IotaStep((n - 1) as real, Sum(Iota(n - 1)));
    }
  }

  lemma IotaStep(m: real, s: real)
    requires 2.0 * s == m * (m - 1.0)
    ensures 2.0 * (s + m) == (m + 1.0) * m
  {
  }

  /** The linspace sums to `step * n(n-1)/2`. */
  lemma LinspaceSum(fov: real, n: nat)
    requires n > 0
    ensures 2.0 * Sum(Linspace(0.0, fov, n)) == fov / n as real * (n as real * (n as real - 1.0))
  {
    var step := fov / n as real;
    SumScaled(Linspace(0.0, fov, n), Iota(n), step);
    IotaSum(n);
    Scale2(Sum(Linspace(0.0, fov, n)), step, Sum(Iota(n)), n as real * (n as real - 1.0));
  }

  lemma Scale2(s: real, step: real, t: real, p: real)
    requires s == step * t && 2.0 * t == p
    ensures 2.0 * s == step * p
  {
  }

  /** The mean of the linspace is half a step times `n - 1`. */
  lemma LinspaceMean(fov: real, n: nat)
    requires n > 0
    ensures Mean(Linspace(0.0, fov, n)) == fov / n as real * (n as real - 1.0) / 2.0
  {
    LinspaceSum(fov, n);
    HalfMean(Sum(Linspace(0.0, fov, n)), fov / n as real, n as real);
  }

  lemma HalfMean(s: real, step: real, n: real)
    requires n > 0.0 && 2.0 * s == step * (n * (n - 1.0))
    ensures s / n == step * (n - 1.0) / 2.0
  {
    assert s == n * (step * (n - 1.0) / 2.0);
  }

  /** Entry `i` of an axis is `i` steps minus the mean offset. */
  lemma AxisEntry(fov: real, n: nat, i: nat)
    requires i < n
    ensures Axis(fov, n)[i] == i as real * (fov / n as real) - fov / n as real * (n as real - 1.0) / 2.0
  {
    LinspaceMean(fov, n);
  }

  /** Entry `i` of an axis of `n` voxels is `(2i - (n-1)) * fov / (2n)`. */
  lemma AxisClosedForm(fov: real, n: nat, i: nat)
    requires i < n
    ensures Axis(fov, n)[i] == CentreOf(fov, n, i)
  {
    AxisEntry(fov, n, i);
    ClosedForm(fov, n as real, i as real);
  }

  lemma ClosedForm(fov: real, n: real, i: real)
    requires n > 0.0
    ensures i * (fov / n) - fov / n * (n - 1.0) / 2.0 == (2.0 * i - (n - 1.0)) * fov / (2.0 * n)
  {
    var step := fov / n;
    var a := 2.0 * i - (n - 1.0);
    assert step * n == fov;
    assert i * step - step * (n - 1.0) / 2.0 == a * step / 2.0;
    assert a * fov == (a * step / 2.0) * (2.0 * n) by {
      assert (a * step / 2.0) * (2.0 * n) == a * (step * n);
    }
    DivideBack(a * fov, 2.0 * n, a * step / 2.0);
  }

  lemma DivideBack(p: real, q: real, r: real)
    requires q != 0.0 && p == r * q
    ensures p / q == r
  {
  }

  /** Neighbouring voxel centres are one voxel width `fov / n` apart. */
  lemma AxisStep(fov: real, n: nat, i: nat)
    requires i + 1 < n
    ensures Axis(fov, n)[i + 1] - Axis(fov, n)[i] == fov / n as real
  {
    AxisEntry(fov, n, i);
    AxisEntry(fov, n, i + 1);
    StepApart(i as real, fov / n as real);
  }

  lemma StepApart(i: real, step: real)
    ensures (i + 1.0) * step - i * step == step
  {
  }

  /** With a positive field of view the centres are strictly increasing. */
  lemma AxisIncreasing(fov: real, n: nat, i: nat, j: nat)
    requires fov > 0.0 && i < j < n
    ensures Axis(fov, n)[i] < Axis(fov, n)[j]
  {
    AxisEntry(fov, n, i);
    AxisEntry(fov, n, j);
    PositiveRatio(fov, n as real);
    MonotoneScale(i as real, j as real, fov / n as real);
  }

  lemma PositiveRatio(a: real, b: real)
    requires a > 0.0 && b > 0.0
    ensures a / b > 0.0
  {
  }

  lemma MonotoneScale(i: real, j: real, step: real)
    requires i < j && step > 0.0
    ensures i * step < j * step
  {
  }

  /** The centres are symmetric about zero: `x_i == -x_{n-1-i}`. */
  lemma AxisSymmetric(fov: real, n: nat, i: nat)
    requires i < n
    ensures Axis(fov, n)[i] == -Axis(fov, n)[n - 1 - i]
  {
    AxisEntry(fov, n, i);
    AxisEntry(fov, n, n - 1 - i);
    Mirror(i as real, n as real, fov / n as real);
  }

  lemma Mirror(i: real, n: real, step: real)
    ensures i * step - step * (n - 1.0) / 2.0 == -((n - 1.0 - i) * step - step * (n - 1.0) / 2.0)
  {
  }

  /** Subtracting `c` from every entry lowers the sum by `n * c`. */
  lemma {:induction false} SumShift(s: seq<real>, t: seq<real>, c: real)
    requires |s| == |t|
    requires forall i :: 0 <= i < |s| ==> t[i] == s[i] - c
    ensures Sum(t) == Sum(s) - |s| as real * c
  {
    if |s| > 0 {
      SumShift(s[..|s| - 1], t[..|t| - 1], c);
    }
  }

  lemma MeanTimesLength(s: real, n: real)
    requires n > 0.0
    ensures s - n * (s / n) == 0.0
  {
  }

  /** Every centred axis sums to zero. */
  lemma AxisSumZero(fov: real, n: nat)
    ensures Sum(Axis(fov, n)) == 0.0
  {
    var s := Linspace(0.0, fov, n);
    if n > 0 {
      SumShift(s, Axis(fov, n), Mean(s));
      MeanTimesLength(Sum(s), n as real);
    }
  }

  /** `numpy.meshgrid(x, y, z, indexing='ij')`. */
  datatype Mesh = Mesh(X: Grid3, Y: Grid3, Z: Grid3)

  function Meshgrid(x: seq<real>, y: seq<real>, z: seq<real>): (m: Mesh)
    ensures Shaped(m.X, |x|, |y|, |z|) && Shaped(m.Y, |x|, |y|, |z|) && Shaped(m.Z, |x|, |y|, |z|)
    ensures forall i, j, k :: 0 <= i < |x| && 0 <= j < |y| && 0 <= k < |z| ==>
      m.X[i][j][k] == x[i] && m.Y[i][j][k] == y[j] && m.Z[i][j][k] == z[k]
  {
    Mesh(seq(|x|, i requires 0 <= i < |x| => seq(|y|, j => seq(|z|, k => x[i]))),
         seq(|x|, i => seq(|y|, j requires 0 <= j < |y| => seq(|z|, k => y[j]))),
         seq(|x|, i => seq(|y|, j => seq(|z|, k requires 0 <= k < |z| => z[k]))))
  }

  /**
   What the ROI masks and statistics read from an image: its shape, its voxel
   values in C order and the coordinate arrays.
   */
  datatype Voxels = Voxels(dims: seq<nat>, values: seq<real>, X: Grid3, Y: Grid3, Z: Grid3)

  /** The shapes agree: three axes, grids of that shape, one value per voxel. */
  ghost predicate Consistent(v: Voxels)
  {
    |v.dims| == 3 &&
    Shaped(v.X, v.dims[0], v.dims[1], v.dims[2]) &&
    Shaped(v.Y, v.dims[0], v.dims[1], v.dims[2]) &&
    Shaped(v.Z, v.dims[0], v.dims[1], v.dims[2]) &&
    |v.values| == v.dims[0] * v.dims[1] * v.dims[2]
  }

  lemma Prod3(a: nat, b: nat, c: nat)
    ensures Prod([a, b, c]) == a * b * c
  {
    assert [a, b, c][1..] == [b, c] && [b, c][1..] == [c] && [c][1..] == [];
    assert Prod([c]) == c;
  }

  class Image {
    var fov: Vec3
    var data: NdArray
    var vsize: seq<nat>
    var x: seq<real>
    var y: seq<real>
    var z: seq<real>
    var X: Grid3
    var Y: Grid3
    var Z: Grid3
    /** Whether `init_grid` has run, which image.py detects as `hasattr(self, 'x')`. */
    var hasGrid: bool
    /** How many times the grid was built. */
    ghost var builds: nat

    /** The coordinate fields are those `init_grid` derives from `fov` and `vsize`. */
    ghost predicate GridMatches()
      reads this
    {
      |vsize| == 3 &&
      x == Axis(fov.x, vsize[0]) && y == Axis(fov.y, vsize[1]) && z == Axis(fov.z, vsize[2]) &&
      Meshgrid(x, y, z) == Mesh(X, Y, Z)
    }

    /** Once the grid exists, `vsize` is the data's three-dimensional shape and the grid is current. */
    ghost predicate Valid()
      reads this
    {
      hasGrid ==> |data.shape| == 3 && vsize == data.shape && GridMatches()
    }

    /** The object before `__init__` has set anything. */
    constructor Blank()
      ensures Valid() && !hasGrid && builds == 0
    {
      fov := Vec3(0.0, 0.0, 0.0);
      data := RawArray([], [0.0]);
      vsize := [];
      x, y, z := [], [], [];
      X, Y, Z := [], [], [];
      hasGrid := false;
      builds := 0;
    }

    function View(): Voxels
      reads this
    {
      Voxels(vsize, data.flat, X, Y, Z)
    }

    /** A constructed image offers consistent voxels to the ROI code. */
    lemma ViewConsistent()
      requires Valid() && hasGrid
      ensures Consistent(View())
    {
      Prod3(vsize[0], vsize[1], vsize[2]);
      assert vsize == [vsize[0], vsize[1], vsize[2]];
    }

    /** `init_grid`: rebuilds the axes and the meshgrid from `fov` and `vsize`. */
    method InitGrid()
      requires |vsize| == 3
      modifies this
      ensures GridMatches() && hasGrid
      ensures fov == old(fov) && data == old(data) && vsize == old(vsize)
      ensures builds == old(builds) + 1
    {
      x := Axis(fov.x, vsize[0]);
      y := Axis(fov.y, vsize[1]);
      z := Axis(fov.z, vsize[2]);
      var m := Meshgrid(x, y, z);
      X, Y, Z := m.X, m.Y, m.Z;
      hasGrid := true;
      builds := builds + 1;
    }

    /**
     `set_fov`: accepts an array that squeezes to three entries, and rebuilds an
     existing grid for the new field of view.
     */
    method SetFov(f: NdArray) returns (err: Option<Error>)
      requires Valid()
      modifies this
      ensures err.Some? <==> Squeeze(f.shape) != [3]
      ensures err.Some? ==> err.value == ValueError(WrongShape("fov"))
      ensures err.Some? ==> unchanged(this)
      ensures err.None? ==> Components(fov) == f.flat && Valid()
      ensures err.None? ==> data == old(data) && vsize == old(vsize) && hasGrid == old(hasGrid)
      ensures err.None? ==> builds == old(builds) + (if old(hasGrid) then 1 else 0)
      ensures err.None? && !hasGrid ==> x == old(x) && y == old(y) && z == old(z)
    {
      var v := Vec3OfArray(f, "fov");
      if v.Err? {
        return Some(v.error);
      }
      fov := v.value;
      if hasGrid {
        InitGrid();
      }
      return None;
    }

    /**
     `set_data`: rejects a missing image and data with more than three axes,
     pads lower-dimensional data to three axes, takes the voxel counts from its
     shape and rebuilds the grid; the field of view is kept.
     */
    method SetData(d: Option<NdArray>) returns (err: Option<Error>)
      requires Valid()
      modifies this
      ensures d.None? ==> err == Some(ValueError(NoImage))
      ensures d.Some? && |d.value.shape| > 3 ==> err == Some(ValueError(NotThreeDims))
      ensures err.Some? ==> unchanged(this)
      ensures d.Some? && |d.value.shape| <= 3 ==> err.None?
      ensures err.None? ==> d.Some? && data == AtLeast3d(d.value) && vsize == data.shape
      ensures err.None? ==> fov == old(fov) && hasGrid && Valid() && builds == old(builds) + 1
    {
      if d.None? {
        return Some(ValueError(NoImage));
      }
      var a := AtLeast3d(d.value);
      if |a.shape| != 3 {
        return Some(ValueError(NotThreeDims));
      }
      data := a;
      vsize := a.shape;
      InitGrid();
      return None;
    }

    /**
     `Image(fov, data)`: `set_fov` then `set_data`; the grid is built once, by
     `set_data`, because none exists when `set_fov` runs.
     */
    static method New(f: NdArray, d: Option<NdArray>) returns (r: Result<Image, Error>)
      ensures r.Err? <==> Squeeze(f.shape) != [3] || d.None? || |d.value.shape| > 3
      ensures Squeeze(f.shape) != [3] ==> r == Err(ValueError(WrongShape("fov")))
      ensures Squeeze(f.shape) == [3] && d.None? ==> r == Err(ValueError(NoImage))
      ensures Squeeze(f.shape) == [3] && d.Some? && |d.value.shape| > 3 ==> r == Err(ValueError(NotThreeDims))
      ensures r.Ok? ==> fresh(r.value) && r.value.Valid() && r.value.hasGrid && r.value.builds == 1
      ensures r.Ok? ==> Components(r.value.fov) == f.flat && r.value.data == AtLeast3d(d.value)
    {
      var img := new Image.Blank();
      var e := img.SetFov(f);
      if e.Some? {
        return Err(e.value);
      }
      e := img.SetData(d);
      if e.Some? {
        return Err(e.value);
      }
      return Ok(img);
    }
  }
}
