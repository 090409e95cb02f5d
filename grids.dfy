/**
 Three-dimensional numpy arrays as nested sequences (`g[i][j][k]`), their
 row-major flattening, and sums over them. The coordinate grids X, Y, Z of an
 image and every ROI mask are values of this kind.
 */
module Grids {
  import opened Reductions

  type Grid3 = seq<seq<seq<real>>>

  /** `g.shape == (n0, n1, n2)`. */
  ghost predicate Shaped(g: Grid3, n0: nat, n1: nat, n2: nat)
  {
    |g| == n0 &&
    forall i :: 0 <= i < n0 ==> |g[i]| == n1 && forall j :: 0 <= j < n1 ==> |g[i][j]| == n2
  }

  /** Row-major flattening of a two-dimensional array. */
  function Flat2(g: seq<seq<real>>): seq<real>
  {
    if |g| == 0 then [] else Flat2(g[..|g| - 1]) + g[|g| - 1]
  }

  /** Row-major flattening of a three-dimensional array: numpy's C order. */
  function Flat3(g: Grid3): seq<real>
  {
    if |g| == 0 then [] else Flat3(g[..|g| - 1]) + Flat2(g[|g| - 1])
  }

  lemma AddRow(n: nat, m: nat)
    ensures (n + 1) * m == n * m + m
  {
  }

  lemma AddLayer(n: nat, m1: nat, m2: nat)
    ensures n * m1 * m2 + m1 * m2 == (n + 1) * m1 * m2
  {
    AddRow(n, m1 * m2);
    assert n * m1 * m2 == n * (m1 * m2);
    assert (n + 1) * m1 * m2 == (n + 1) * (m1 * m2);
  }

  lemma {:induction false} Flat2Length(g: seq<seq<real>>, n2: nat)
    requires forall j :: 0 <= j < |g| ==> |g[j]| == n2
    ensures |Flat2(g)| == |g| * n2
  {
    if |g| > 0 {
      Flat2Length(g[..|g| - 1], n2);
      AddRow(|g| - 1, n2);
    }
  }

  /** A (n0, n1, n2) array flattens to n0 * n1 * n2 entries. */
  lemma {:induction false} Flat3Length(g: Grid3, n0: nat, n1: nat, n2: nat)
    requires Shaped(g, n0, n1, n2)
    ensures |Flat3(g)| == n0 * n1 * n2
  {
    if n0 > 0 {
      assert Shaped(g[..n0 - 1], n0 - 1, n1, n2);
      Flat3Length(g[..n0 - 1], n0 - 1, n1, n2);
      Flat2Length(g[n0 - 1], n2);
      AddLayer(n0 - 1, n1, n2);
    }
  }

  lemma {:induction false} Flat2Binary(g: seq<seq<real>>)
    requires forall j :: 0 <= j < |g| ==> Binary(g[j])
    ensures Binary(Flat2(g))
  {
    if |g| > 0 {
      Flat2Binary(g[..|g| - 1]);
      BinaryAppend(Flat2(g[..|g| - 1]), g[|g| - 1]);
    }
  }

  /** Flattening a 0/1 array gives a 0/1 sequence. */
  lemma {:induction false} Flat3Binary(g: Grid3, n0: nat, n1: nat, n2: nat)
    requires Shaped(g, n0, n1, n2)
    requires forall i, j, k {:trigger g[i][j][k]} :: 0 <= i < n0 && 0 <= j < n1 && 0 <= k < n2 ==>
      g[i][j][k] == 0.0 || g[i][j][k] == 1.0
    ensures Binary(Flat3(g))
  {
    if n0 > 0 {
      var n := n0 - 1;
      assert Shaped(g[..n], n, n1, n2);
      Flat3Binary(g[..n], n, n1, n2);
      forall j | 0 <= j < |g[n]| ensures Binary(g[n][j]) {
        assert forall k :: 0 <= k < n2 ==> g[n][j][k] == 0.0 || g[n][j][k] == 1.0;
      }
      Flat2Binary(g[n]);
      BinaryAppend(Flat3(g[..n]), Flat2(g[n]));
    }
  }

  /** The sum of each row. */
  function RowSums(g: seq<seq<real>>): (r: seq<real>)
    ensures |r| == |g| && forall j :: 0 <= j < |g| ==> r[j] == Sum(g[j])
  {
    seq(|g|, j requires 0 <= j < |g| => Sum(g[j]))
  }

  /** The sum of each two-dimensional layer. */
  function LayerSums(g: Grid3): (r: seq<real>)
    ensures |r| == |g| && forall i :: 0 <= i < |g| ==> r[i] == Sum(Flat2(g[i]))
  {
    seq(|g|, i requires 0 <= i < |g| => Sum(Flat2(g[i])))
  }

  lemma {:induction false} SumFlat2(g: seq<seq<real>>)
    ensures Sum(Flat2(g)) == Sum(RowSums(g))
  {
    if |g| > 0 {
      var n := |g| - 1;
      SumFlat2(g[..n]);
      SumAppend(Flat2(g[..n]), g[n]);
      assert RowSums(g)[..n] == RowSums(g[..n]);
    }
  }

  lemma {:induction false} SumFlat3(g: Grid3)
    ensures Sum(Flat3(g)) == Sum(LayerSums(g))
  {
    if |g| > 0 {
      var n := |g| - 1;
      SumFlat3(g[..n]);
      SumAppend(Flat3(g[..n]), Flat2(g[n]));
      assert LayerSums(g)[..n] == LayerSums(g[..n]);
    }
  }

  /** `1.0` for true and `0.0` for false: numpy's `astype(float)` of a boolean. */
  function Indicator(b: bool): real
  {
    if b then 1.0 else 0.0
  }

  /** A 0/1 row with ones where `guard && w[k]` sums to the count of `w`, or to zero. */
  lemma RowCount(row: seq<real>, guard: bool, w: seq<bool>)
    requires |row| == |w|
    requires forall k {:trigger row[k]} :: 0 <= k < |w| ==> row[k] == Indicator(guard && w[k])
    ensures Sum(row) == if guard then Count(w) as real else 0.0
  {
    SumGuarded(row, w, 1.0, guard);
  }

  /** Each row of a layer with ones where `guard && v[j] && w[k]` sums to `cw` or to zero. */
  lemma LayerRows(layer: seq<seq<real>>, guard: bool, v: seq<bool>, w: seq<bool>, cw: real)
    requires |layer| == |v| && cw == Count(w) as real
    requires forall j :: 0 <= j < |v| ==> |layer[j]| == |w|
    requires forall j, k {:trigger layer[j][k]} :: 0 <= j < |v| && 0 <= k < |w| ==>
      layer[j][k] == Indicator(guard && v[j] && w[k])
    ensures forall j :: 0 <= j < |v| ==> RowSums(layer)[j] == if guard && v[j] then cw else 0.0
  {
    forall j | 0 <= j < |v| ensures RowSums(layer)[j] == if guard && v[j] then cw else 0.0 {
      RowCount(layer[j], guard && v[j], w);
    }
  }

  /**
   The same for a layer with ones where `guard && v[j] && w[k]`; `cv` and `cw`
   stand for the two counts.
   */
  lemma LayerCount(layer: seq<seq<real>>, guard: bool, v: seq<bool>, w: seq<bool>, cv: real, cw: real)
    requires |layer| == |v| && cv == Count(v) as real && cw == Count(w) as real
    requires forall j :: 0 <= j < |v| ==> |layer[j]| == |w|
    requires forall j, k {:trigger layer[j][k]} :: 0 <= j < |v| && 0 <= k < |w| ==>
      layer[j][k] == Indicator(guard && v[j] && w[k])
    ensures Sum(Flat2(layer)) == if guard then cv * cw else 0.0
  {
    LayerRows(layer, guard, v, w, cw);
    SumGuarded(RowSums(layer), v, cw, guard);
    SumFlat2(layer);
  }

  /** Each layer of a box indicator sums to `cv * cw` or to zero. */
  lemma BoxLayers(g: Grid3, u: seq<bool>, v: seq<bool>, w: seq<bool>, cv: real, cw: real)
    requires Shaped(g, |u|, |v|, |w|)
    requires cv == Count(v) as real && cw == Count(w) as real
    requires forall i, j, k {:trigger g[i][j][k]} :: 0 <= i < |u| && 0 <= j < |v| && 0 <= k < |w| ==>
      g[i][j][k] == Indicator(u[i] && v[j] && w[k])
    ensures forall i :: 0 <= i < |u| ==> LayerSums(g)[i] == if u[i] then cv * cw else 0.0
  {
    forall i | 0 <= i < |u| ensures LayerSums(g)[i] == if u[i] then cv * cw else 0.0 {
      assert forall j :: 0 <= j < |v| ==> |g[i][j]| == |w|;
      LayerCount(g[i], u[i], v, w, cv, cw);
    }
  }

  /** `SumGuarded` with the count of `u` given as `cu`. */
  lemma Layered(layers: seq<real>, u: seq<bool>, cu: real, c: real)
    requires |layers| == |u| && cu == Count(u) as real
    requires forall i :: 0 <= i < |u| ==> layers[i] == if u[i] then c else 0.0
    ensures Sum(layers) == cu * c
  {
    SumGuarded(layers, u, c, true);
  }

  /**
   A three-dimensional 0/1 array whose ones are exactly the voxels (i, j, k)
   with `u[i] && v[j] && w[k]` sums to the product of the three counts
   `cu`, `cv` and `cw`.
   */
  lemma BoxCount(g: Grid3, u: seq<bool>, v: seq<bool>, w: seq<bool>, cu: real, cv: real, cw: real)
    requires Shaped(g, |u|, |v|, |w|)
    requires cu == Count(u) as real && cv == Count(v) as real && cw == Count(w) as real
    requires forall i, j, k {:trigger g[i][j][k]} :: 0 <= i < |u| && 0 <= j < |v| && 0 <= k < |w| ==>
      g[i][j][k] == Indicator(u[i] && v[j] && w[k])
    ensures Sum(Flat3(g)) == cu * (cv * cw)
  {
    assert Sum(LayerSums(g)) == cu * (cv * cw) by {
      BoxLayers(g, u, v, w, cv, cw);
      Layered(LayerSums(g), u, cu, cv * cw);
    }
    SumFlat3(g);
  }
}
