/**
 The values that cross the boundary of the core: numpy float arrays (a shape and
 the entries in row-major order), three-vectors, the already-decoded JSON values
 of a configuration, and the errors the Python code raises.
 */
module Values {
  import opened Wrappers

  /** A numpy array: its shape and its entries in row-major (C) order. */
  datatype RawArray = RawArray(shape: seq<nat>, flat: seq<real>)

  /** Number of entries an array of the given shape holds. */
  function Prod(shape: seq<nat>): nat
  {
    if |shape| == 0 then 1 else shape[0] * Prod(shape[1..])
  }

  /** Only arrays whose entry count matches their shape exist. */
  type NdArray = a: RawArray | |a.flat| == Prod(a.shape) witness RawArray([], [0.0])

  /** An already-decoded JSON value: a number, a string or a numeric array. */
  datatype Value = Num(n: real) | Text(s: string) | Array(a: NdArray)

  /** Why a ValueError was raised. */
  datatype Reason =
    | NoImage                  // set_data(None)
    | NotThreeDims             // data with more than 3 dimensions
    | WrongShape(what: string) // a vector that does not squeeze to shape (3,)
    | NotANumber(what: string) // a value numpy cannot convert to float
    | Negative(what: string)   // a negative radius or height
    | UnknownType(tag: Value)  // an unrecognised ROI type in a configuration
    | EmptyReduction           // max/min of a zero-size selection

  /** The Python exception classes the core raises. */
  datatype Error =
    | ValueError(reason: Reason)
    | KeyError(key: string)
    | ZeroDivisionError        // numpy.average with weights summing to zero
    | TypeError                // a call with the wrong number of arguments

  datatype Vec3 = Vec3(x: real, y: real, z: real)

  function Components(v: Vec3): seq<real>
  {
    [v.x, v.y, v.z]
  }

  /** numpy's squeeze: the shape with every length-1 axis removed. */
  function Squeeze(shape: seq<nat>): (r: seq<nat>)
    ensures 1 !in r
    ensures |r| <= |shape|
    ensures forall d :: d in r ==> d in shape
    ensures Prod(r) == Prod(shape)
  {
    if |shape| == 0 then []
    else if shape[0] == 1 then Squeeze(shape[1..])
    else [shape[0]] + Squeeze(shape[1..])
  }

  /** `np.asarray(a).squeeze()` followed by the check that the shape is (3,). */
  function Vec3OfArray(a: NdArray, what: string): (r: Result<Vec3, Error>)
    ensures r.Ok? <==> Squeeze(a.shape) == [3]
    ensures r.Ok? ==> Components(r.value) == a.flat
    ensures r.Err? ==> r.error == ValueError(WrongShape(what))
  {
    if Squeeze(a.shape) == [3] then
      assert Prod([3]) == 3;
      Ok(Vec3(a.flat[0], a.flat[1], a.flat[2]))
    else
      Err(ValueError(WrongShape(what)))
  }

  /** `np.asfarray(v).squeeze()` on a decoded value, then the shape check. */
  function Vec3Of(v: Value, what: string): (r: Result<Vec3, Error>)
    ensures r.Ok? <==> v.Array? && Squeeze(v.a.shape) == [3]
    ensures r.Ok? ==> Components(r.value) == v.a.flat
    ensures r.Err? ==> r.error.ValueError?
  {
    match v
    case Array(a) => Vec3OfArray(a, what)
    case Num(_) => Err(ValueError(WrongShape(what)))  // a scalar squeezes to shape ()
    case Text(_) => Err(ValueError(NotANumber(what)))
  }

  /** A one-dimensional array holding the three components. */
  function ArrayOf(v: Vec3): (a: NdArray)
    ensures forall what :: Vec3OfArray(a, what) == Ok(v)
  {
    assert Prod([3]) == 3;
    assert Squeeze([3]) == [3];
    RawArray([3], Components(v))
  }

  /** numpy's atleast_3d: 0-D becomes (1,1,1), (n,) becomes (1,n,1), (m,n) becomes (m,n,1). */
  function AtLeast3d(a: NdArray): (r: NdArray)
    ensures r.flat == a.flat
    ensures |a.shape| <= 3 ==> |r.shape| == 3
    ensures |a.shape| > 3 ==> r.shape == a.shape
    ensures |a.shape| == 3 ==> r.shape == a.shape
  {
    var s := a.shape;
    if |s| == 0 then RawArray([1, 1, 1], a.flat)
    else if |s| == 1 then
      assert [1, s[0], 1][1..] == [s[0], 1] && [s[0], 1][1..] == [1] && s[1..] == [];
      assert Prod([1]) == 1 && Prod([s[0], 1]) == s[0] && Prod(s) == s[0];
      assert Prod([1, s[0], 1]) == s[0] == Prod(s);
      RawArray([1, s[0], 1], a.flat)
    else if |s| == 2 then
      assert [s[0], s[1], 1][1..] == [s[1], 1] && [s[1], 1][1..] == [1];
      assert s[1..] == [s[1]] && s[1..][1..] == [];
      assert Prod([s[1]]) == s[1] && Prod(s) == s[0] * s[1];
      assert Prod([1]) == 1 && Prod([s[1], 1]) == s[1];
      assert Prod([s[0], s[1], 1]) == s[0] * s[1] == Prod(s);
      RawArray([s[0], s[1], 1], a.flat)
    else a
  }
}
