/** Three-component vectors over the reals: the `Vector` struct and the
    `linear`, `dot` and `cross` helpers of x.c, and the value operations of
    mechlib's `Vector` (`to_list`, `from_array`, `nudge`, the constructor). */
module Vectors {
  import opened Wrappers

  datatype Vec3 = Vec3(x: real, y: real, z: real)

  const Zero := Vec3(0.0, 0.0, 0.0)

  function Add(u: Vec3, v: Vec3): Vec3 {
    Vec3(u.x + v.x, u.y + v.y, u.z + v.z)
  }

  function Sub(u: Vec3, v: Vec3): Vec3 {
    Vec3(u.x - v.x, u.y - v.y, u.z - v.z)
  }

  function Neg(v: Vec3): Vec3 {
    Vec3(-v.x, -v.y, -v.z)
  }

  function Scale(k: real, v: Vec3): Vec3 {
    Vec3(k * v.x, k * v.y, k * v.z)
  }

  /** Coordinate `i` of `v`, counting x, y, z as 0, 1, 2. */
  function Component(v: Vec3, i: nat): real
    requires i < 3
  {
    if i == 0 then v.x else if i == 1 then v.y else v.z
  }

  // ---------------------------------------------------------------- x.c

  /** x.c `linear`: the combination a*v1 + b*v2, component by component. */
  function Linear(a: real, v1: Vec3, b: real, v2: Vec3): (r: Vec3)
    ensures forall i :: 0 <= i < 3 ==> Component(r, i) == a * Component(v1, i) + b * Component(v2, i)
  {
    Vec3(a * v1.x + b * v2.x, a * v1.y + b * v2.y, a * v1.z + b * v2.z)
  }

  /** x.c `dot`. */
  function Dot(v1: Vec3, v2: Vec3): real {
    v1.x * v2.x + v1.y * v2.y + v1.z * v2.z
  }

  /** x.c `cross`: the result is perpendicular to both arguments. */
  function Cross(v1: Vec3, v2: Vec3): (r: Vec3)
    ensures Dot(r, v1) == 0.0 && Dot(r, v2) == 0.0
  {
    Vec3(v1.y * v2.z - v1.z * v2.y,
         v1.z * v2.x - v1.x * v2.z,
         v1.x * v2.y - v1.y * v2.x)
  }

  lemma LinearSelectsFirst(v: Vec3, w: Vec3)
    ensures Linear(1.0, v, 0.0, w) == v && Linear(0.0, w, 1.0, v) == v
  {
  }

  lemma LinearIsAdd(v: Vec3, w: Vec3)
    ensures Linear(1.0, v, 1.0, w) == Add(v, w) && Linear(1.0, v, -1.0, w) == Sub(v, w)
  {
  }

  lemma DotSymmetric(u: Vec3, v: Vec3)
    ensures Dot(u, v) == Dot(v, u)
  {
  }

  lemma DotSelfNonNegative(v: Vec3)
    ensures Dot(v, v) >= 0.0
  {
    SquareNonNegative(v.x);
    SquareNonNegative(v.y);
    SquareNonNegative(v.z);
  }

  lemma SquareNonNegative(a: real)
    ensures a * a >= 0.0
  {
    if a < 0.0 {
      var b := -a;
      assert b * b > 0.0 * b;
      assert a * a == b * b;
    }
  }

  lemma CrossAntisymmetric(u: Vec3, v: Vec3)
    ensures Cross(u, v) == Neg(Cross(v, u))
  {
  }

  lemma CrossSelfIsZero(v: Vec3)
    ensures Cross(v, v) == Zero
  {
  }

  // ------------------------------------------------------- mechlib Vector

  /** The two call forms of `Vector.__init__`: copying another vector, or three numbers. */
  datatype VectorArgs = CopyOf(v: Vec3) | Components(cx: real, cy: real, cz: real)

  function NewVector(a: VectorArgs): (r: Vec3)
    ensures a.CopyOf? ==> r == a.v
    ensures a.Components? ==> ToList(r) == [a.cx, a.cy, a.cz]
  {
    match a
    case CopyOf(v) => Vec3(v.x, v.y, v.z)
    case Components(x, y, z) => Vec3(x, y, z)
  }

  /** `Vector.to_list`. */
  function ToList(v: Vec3): (r: seq<real>)
    ensures |r| == 3 && forall i :: 0 <= i < 3 ==> r[i] == Component(v, i)
  {
    [v.x, v.y, v.z]
  }

  datatype ArrayError = WrongLength(n: nat)

  /** `Vector.from_array`: three numbers make a vector. Other counts fail:
      the constructor raises for them, except for two numbers, where it
      leaves `z` as None, which a `Vec3` cannot hold. */
  function FromArray(a: seq<real>): (r: Result<Vec3, ArrayError>)
    ensures r.Success? <==> |a| == 3
    ensures r.Success? ==> ToList(r.value) == a
  {
    if |a| == 3 then Success(Vec3(a[0], a[1], a[2])) else Failure(WrongLength(|a|))
  }

  lemma FromArrayToList(v: Vec3)
    ensures FromArray(ToList(v)) == Success(v)
  {
  }

  datatype NudgeError = ValueError(index: int)

  /** `Vector.nudge(index, amount)`: adds `amount` to one coordinate; an index
      outside 0..2 raises ValueError. */
  function Nudge(v: Vec3, index: int, amount: real): (r: Result<Vec3, NudgeError>)
    ensures r.Success? <==> 0 <= index < 3
    ensures r.Success? ==> forall i :: 0 <= i < 3 ==>
      Component(r.value, i) == Component(v, i) + (if i == index then amount else 0.0)
    ensures r.Failure? ==> r.error == ValueError(index)
  {
    if index == 0 then Success(Add(v, Vec3(amount, 0.0, 0.0)))
    else if index == 1 then Success(Add(v, Vec3(0.0, amount, 0.0)))
    else if index == 2 then Success(Add(v, Vec3(0.0, 0.0, amount)))
    else Failure(ValueError(index))
  }
}
