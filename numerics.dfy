/** The floating-point primitives the source calls (`**`, `math.sqrt` inside
    the vector module, `atan2`, `cos`, `sin`, `pi`, `Vector.rotate`) are not
    modelled; every member that needs one takes a `Math` record and treats its
    fields as uninterpreted functions. */
module Numerics {
  import opened Wrappers
  import opened Vectors

  type Positive = r: real | r > 0.0 witness 1.0

  datatype Math = Math(
    sqrt: real -> real,
    pow: (real, real) -> real,
    atan2: (real, real) -> real,
    cos: real -> real,
    sin: real -> real,
    pi: Positive,
    rotate: (Vec3, Vec3) -> Vec3)

  /** What the model needs of the square root: it is never negative on the
      non-negative reals, and the root of zero is zero. */
  ghost predicate SqrtIsRoot(m: Math) {
    m.sqrt(0.0) == 0.0 && forall a :: a >= 0.0 ==> m.sqrt(a) >= 0.0
  }

  /** `Vector.length()`. */
  function Length(v: Vec3, m: Math): real {
    m.sqrt(Dot(v, v))
  }

  /** `Vector.normal()`: undefined for a vector of length zero. */
  function Normal(v: Vec3, m: Math): (r: Option<Vec3>)
    ensures r.Some? <==> Length(v, m) != 0.0
    ensures r.Some? ==> Scale(Length(v, m), r.value) == v
  {
    var len := Length(v, m);
    if len == 0.0 then None else Some(Scale(1.0 / len, v))
  }

  function Abs(a: real): (r: real)
    ensures r >= 0.0 && (r == a || r == -a)
  {
    if a < 0.0 then -a else a
  }

  function Min(a: real, b: real): (r: real)
    ensures r <= a && r <= b && (r == a || r == b)
  {
    if a < b then a else b
  }
}
