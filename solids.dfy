/** The edge tables of main's three solids, and the facts that make each
    table that solid's skeleton: how many rods, how many meet at each vertex,
    no rod twice, and where the rods run. */
module Solids {
  import opened Vectors
  import opened EdgeTables

  // -------------------------------------------------------- Tetrahedron

  const TetraEdges: seq<Edge> := [(0, 1), (0, 2), (0, 3), (1, 2), (1, 3), (2, 3)]

  /** Six rods over the four vertices, none of length zero. */
  lemma TetraTable()
    ensures |TetraEdges| == 6 && InRange(TetraEdges, 4) && NoSelfLoops(TetraEdges)
  {
  }

  /** No two rods join the same two vertices. */
  lemma TetraSimple()
    ensures Simple(TetraEdges)
  {
    assert Keys(TetraEdges) == [1, 2, 3, 66, 67, 131];
    DistinctKeysSimple(TetraEdges);
  }

  /** Where each vertex's rods sit in the table. */
  const TetraStars: seq<set<nat>> := [{0, 1, 2}, {0, 3, 4}, {1, 3, 5}, {2, 4, 5}]

  /** The rods that meet at vertex v are exactly those at the positions
      `TetraStars[v]`. */
  lemma TetraStar(v: nat)
    requires v < 4
    ensures Incident(TetraEdges, v) == TetraStars[v]
  {
  }

  /** Three rods meet at every vertex. */
  lemma TetraRegular()
    ensures Regular(TetraEdges, 4, 3)
  {
    assert |TetraStars[0]| == 3;
    assert |TetraStars[1]| == 3;
    assert |TetraStars[2]| == 3;
    assert |TetraStars[3]| == 3;
    forall v | 0 <= v < 4
      ensures Degree(TetraEdges, v) == 3
    {
      TetraStar(v);
    }
  }

  // -------------------------------------------------------- Octohedron

  /** The six points at distance x on the axes, +z, -z, +y, -y, +x, -x. */
  function OctoPoints(x: real): (r: seq<Vec3>)
    ensures |r| == 6
  {
    [Vec3(0.0, 0.0, x), Vec3(0.0, 0.0, -x), Vec3(0.0, x, 0.0),
     Vec3(0.0, -x, 0.0), Vec3(x, 0.0, 0.0), Vec3(-x, 0.0, 0.0)]
  }

  const OctoEdges: seq<Edge> :=
    [(0, 2), (0, 3), (0, 4), (0, 5), (1, 2), (1, 3), (1, 4), (1, 5), (2, 4), (3, 4), (2, 5), (3, 5)]

  /** The axis of vertex a of an octahedron's table: 0 for z, 1 for y, 2 for x. */
  function AxisOf(a: nat): nat {
    if a < 2 then 0 else if a < 4 then 1 else 2
  }

  /** Vertices 2i and 2i + 1 of an octahedron's table are opposite. */
  predicate OctoOpposite(a: nat, b: nat) {
    a != b && AxisOf(a) == AxisOf(b)
  }

  lemma OctoOpposites(x: real, a: nat, b: nat)
    requires a < 6 && b < 6 && OctoOpposite(a, b)
    ensures OctoPoints(x)[a] == Scale(-1.0, OctoPoints(x)[b])
  {
  }

  /** Twelve rods over the six vertices, none of length zero and none
      joining opposite vertices. */
  lemma OctoTable()
    ensures |OctoEdges| == 12 && InRange(OctoEdges, 6) && NoSelfLoops(OctoEdges)
    ensures forall k :: 0 <= k < |OctoEdges| ==> !OctoOpposite(OctoEdges[k].0, OctoEdges[k].1)
  {
  }

  /** No two rods join the same two vertices; with the last lemma, the rods
      are exactly the twelve pairs of vertices that are not opposite. */
  lemma OctoSimple()
    ensures Simple(OctoEdges)
  {
    assert Keys(OctoEdges) == [2, 3, 4, 5, 66, 67, 68, 69, 132, 196, 133, 197];
    DistinctKeysSimple(OctoEdges);
  }

  /** Where each vertex's rods sit in the table. */
  const OctoStars: seq<set<nat>> := [{0, 1, 2, 3}, {4, 5, 6, 7}, {0, 4, 8, 10}, {1, 5, 9, 11}, {2, 6, 8, 9}, {3, 7, 10, 11}]

  /** The rods that meet at vertex v are exactly those at the positions
      `OctoStars[v]`. */
  lemma OctoStar(v: nat)
    requires v < 6
    ensures Incident(OctoEdges, v) == OctoStars[v]
  {
  }

  /** Four rods meet at every vertex. */
  lemma OctoRegular()
    ensures Regular(OctoEdges, 6, 4)
  {
    assert |OctoStars[0]| == 4;
    assert |OctoStars[1]| == 4;
    assert |OctoStars[2]| == 4;
    assert |OctoStars[3]| == 4;
    assert |OctoStars[4]| == 4;
    assert |OctoStars[5]| == 4;
    forall v | 0 <= v < 6
      ensures Degree(OctoEdges, v) == 4
    {
      OctoStar(v);
    }
  }

  /** The unit vectors along the axes, in the order of `OctoPoints`. */
  const Axes: seq<Vec3> := [Vec3(0.0, 0.0, 1.0), Vec3(0.0, 0.0, -1.0), Vec3(0.0, 1.0, 0.0),
                            Vec3(0.0, -1.0, 0.0), Vec3(1.0, 0.0, 0.0), Vec3(-1.0, 0.0, 0.0)]

  lemma OctoPointsOnAxes(x: real, i: nat)
    requires i < 6
    ensures OctoPoints(x)[i] == Scale(x, Axes[i])
  {
  }

  lemma ScaledProduct(x: real, p: real, q: real)
    ensures (x * p) * (x * q) == x * x * (p * q)
  {
  }

  lemma ScaledDot(x: real, u: Vec3, w: Vec3)
    ensures Dot(Scale(x, u), Scale(x, w)) == x * x * Dot(u, w)
  {
    ScaledProduct(x, u.x, w.x);
    ScaledProduct(x, u.y, w.y);
    ScaledProduct(x, u.z, w.z);
  }

  lemma ScaledSub(x: real, u: Vec3, w: Vec3)
    ensures Sub(Scale(x, u), Scale(x, w)) == Scale(x, Sub(u, w))
  {
  }

  /** Every axis has length one. */
  lemma AxisUnit(b: nat)
    requires b < 6
    ensures Dot(Axes[b], Axes[b]) == 1.0
  {
    var w := Axes[b];
    if b == 0 { assert w == Vec3(0.0, 0.0, 1.0); }
    else if b == 1 { assert w == Vec3(0.0, 0.0, -1.0); }
    else if b == 2 { assert w == Vec3(0.0, 1.0, 0.0); }
    else if b == 3 { assert w == Vec3(0.0, -1.0, 0.0); }
    else if b == 4 { assert w == Vec3(1.0, 0.0, 0.0); }
    else { assert w == Vec3(-1.0, 0.0, 0.0); }
  }

  lemma SquaredDistance(u: Vec3, w: Vec3)
    ensures Dot(Sub(u, w), Sub(u, w)) == Dot(u, u) + Dot(w, w) - 2.0 * Dot(u, w)
  {
  }

  /** Two axes that are neither equal nor opposite are perpendicular, and
      their tips are 2 ** .5 apart. */
  lemma AxesNeighbours(a: nat, b: nat)
    requires a < 6 && b < 6 && a != b && !OctoOpposite(a, b)
    ensures Dot(Axes[a], Axes[b]) == 0.0 && Dot(Sub(Axes[a], Axes[b]), Sub(Axes[a], Axes[b])) == 2.0
  {
    var u := Axes[a];
    if a == 0 { assert u == Vec3(0.0, 0.0, 1.0); }
    else if a == 1 { assert u == Vec3(0.0, 0.0, -1.0); }
    else if a == 2 { assert u == Vec3(0.0, 1.0, 0.0); }
    else if a == 3 { assert u == Vec3(0.0, -1.0, 0.0); }
    else if a == 4 { assert u == Vec3(1.0, 0.0, 0.0); }
    else { assert u == Vec3(-1.0, 0.0, 0.0); }
    AxisUnit(a);
    AxisUnit(b);
    SquaredDistance(u, Axes[b]);
  }

  /** Scaling two perpendicular vectors at squared distance 2 by x keeps
      them perpendicular and puts them at squared distance 2 x x. */
  lemma ScaledNeighbours(x: real, u: Vec3, w: Vec3)
    requires Dot(u, w) == 0.0 && Dot(Sub(u, w), Sub(u, w)) == 2.0
    ensures Dot(Scale(x, u), Scale(x, w)) == 0.0
    ensures Dot(Sub(Scale(x, u), Scale(x, w)), Sub(Scale(x, u), Scale(x, w))) == 2.0 * (x * x)
  {
    ScaledDot(x, u, w);
    ScaledSub(x, u, w);
    ScaledDot(x, Sub(u, w), Sub(u, w));
  }

  /** Two axis points that are neither equal nor opposite are
      perpendicular and x * 2 ** .5 apart; with `OctoTable`, every rod of
      the octahedron has that length. */
  lemma OctoNeighbours(x: real, a: nat, b: nat)
    requires a < 6 && b < 6 && a != b && !OctoOpposite(a, b)
    ensures var p, q := OctoPoints(x)[a], OctoPoints(x)[b];
      Dot(p, q) == 0.0 && Dot(Sub(p, q), Sub(p, q)) == 2.0 * (x * x)
  {
    OctoPointsOnAxes(x, a);
    OctoPointsOnAxes(x, b);
    AxesNeighbours(a, b);
    ScaledNeighbours(x, Axes[a], Axes[b]);
  }

  /** Every rod of the octahedron is `x * 2 ** .5` long. */
  lemma OctoEdgesAlike(x: real)
    ensures var v, e := OctoPoints(x), OctoEdges;
      forall k :: 0 <= k < |e| ==> Dot(Sub(v[e[k].0], v[e[k].1]), Sub(v[e[k].0], v[e[k].1])) == 2.0 * (x * x)
  {
    OctoTable();
    forall k | 0 <= k < |OctoEdges|
      ensures var p, q := OctoPoints(x)[OctoEdges[k].0], OctoPoints(x)[OctoEdges[k].1];
        Dot(Sub(p, q), Sub(p, q)) == 2.0 * (x * x)
    {
      OctoNeighbours(x, OctoEdges[k].0, OctoEdges[k].1);
    }
  }

  // -------------------------------------------------------------- Cube

  /** Bit k of i. */
  function Bit(i: nat, k: nat): nat {
    if k == 0 then i % 2 else Bit(i / 2, k - 1)
  }

  /** In how many of the low n bits a and b differ. */
  function BitsApart(a: nat, b: nat, n: nat): nat {
    if n == 0 then 0 else BitsApart(a, b, n - 1) + (if Bit(a, n - 1) != Bit(b, n - 1) then 1 else 0)
  }

  /** `-.5 * size` for a clear bit, `.5 * size` for a set one. */
  function Half(size: real, bit: nat): real {
    if bit == 1 then 0.5 * size else -0.5 * size
  }

  /** `Cube(size)`: the corners (+-.5size, +-.5size, +-.5size). */
  function CubeVertices(size: real): (r: seq<Vec3>)
    ensures |r| == 8
  {
    var lo, hi := -0.5 * size, 0.5 * size;
    [Vec3(lo, lo, lo), Vec3(lo, lo, hi), Vec3(lo, hi, lo), Vec3(lo, hi, hi),
     Vec3(hi, lo, lo), Vec3(hi, lo, hi), Vec3(hi, hi, lo), Vec3(hi, hi, hi)]
  }

  const CubeEdges: seq<Edge> :=
    [(0, 2), (2, 6), (6, 4), (4, 0), (4, 5), (6, 7), (0, 1), (2, 3), (1, 5), (5, 7), (7, 3), (1, 3)]

  /** Corner i's x, y and z are set by its bits 2, 1 and 0. */
  lemma CubeVertexBits(size: real, i: nat)
    requires i < 8
    ensures CubeVertices(size)[i] == Vec3(Half(size, Bit(i, 2)), Half(size, Bit(i, 1)), Half(size, Bit(i, 0)))
  {
  }

  /** Twelve rods over the eight corners, each joining corners whose
      indices differ in one bit, that is, in one coordinate. */
  lemma CubeTable()
    ensures |CubeEdges| == 12 && InRange(CubeEdges, 8)
    ensures forall k :: 0 <= k < |CubeEdges| ==> BitsApart(CubeEdges[k].0, CubeEdges[k].1, 3) == 1
  {
  }

  /** No two rods join the same two corners. */
  lemma CubeSimple()
    ensures Simple(CubeEdges)
  {
    assert Keys(CubeEdges) == [2, 134, 262, 4, 261, 391, 1, 131, 69, 327, 199, 67];
    DistinctKeysSimple(CubeEdges);
  }

  /** Where each vertex's rods sit in the table. */
  const CubeStars: seq<set<nat>> := [{0, 3, 6}, {6, 8, 11}, {0, 1, 7}, {7, 10, 11}, {2, 3, 4}, {4, 8, 9}, {1, 2, 5}, {5, 9, 10}]

  /** The rods that meet at corner v are exactly those at the positions
      `CubeStars[v]`. */
  lemma CubeStar(v: nat)
    requires v < 8
    ensures Incident(CubeEdges, v) == CubeStars[v]
  {
  }

  /** Three rods meet at every corner. */
  lemma CubeRegular()
    ensures Regular(CubeEdges, 8, 3)
  {
    assert |CubeStars[0]| == 3;
    assert |CubeStars[1]| == 3;
    assert |CubeStars[2]| == 3;
    assert |CubeStars[3]| == 3;
    assert |CubeStars[4]| == 3;
    assert |CubeStars[5]| == 3;
    assert |CubeStars[6]| == 3;
    assert |CubeStars[7]| == 3;
    forall v | 0 <= v < 8
      ensures Degree(CubeEdges, v) == 3
    {
      CubeStar(v);
    }
  }

  /** Every rod of the cube is one side long. */
  lemma CubeEdgesAlike(size: real)
    ensures var v, e := CubeVertices(size), CubeEdges;
      forall k :: 0 <= k < |e| ==> Dot(Sub(v[e[k].0], v[e[k].1]), Sub(v[e[k].0], v[e[k].1])) == size * size
  {
  }

}
