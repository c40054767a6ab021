/** main's three `RodGraph` subclasses, `Tetrahedron`, `Octohedron` and
    `Cube`: their vertices for a given size, and the graphs built on them. */
module Polyhedra {
  import opened Wrappers
  import opened Vectors
  import opened Numerics
  import opened RodGraphs
  import opened EdgeTables
  import opened Solids

  /** A table whose indices all name vertices gets through `rods()`. */
  lemma ReachedAll(verts: seq<Vec3>, edges: seq<Edge>)
    requires InRange(edges, |verts|)
    ensures Reached(verts, edges) == |edges|
  {
  }

  // -------------------------------------------------------- Tetrahedron

  /** `Tetrahedron(size)`: (size, 0, 0) turned by 120 and 240 degrees about
      z, and (0, 0, size * 2 ** .5), all moved so their centre is the origin. */
  function TetraVertices(size: real, m: Math): (r: seq<Vec3>)
    ensures |r| == 4
  {
    var v0 := Vec3(size, 0.0, 0.0);
    var v1 := m.rotate(v0, Vec3(0.0, 0.0, 2.0 * m.pi / 3.0));
    var v2 := m.rotate(v0, Vec3(0.0, 0.0, 4.0 * m.pi / 3.0));
    var v3 := Vec3(0.0, 0.0, size * m.pow(2.0, 0.5));
    var center := Scale(0.25, Add(Add(Add(v0, v1), v2), v3));
    [Sub(v0, center), Sub(v1, center), Sub(v2, center), Sub(v3, center)]
  }

  /** Subtracting the centre puts the centroid at the origin. */
  lemma TetraCentred(size: real, m: Math)
    ensures var t := TetraVertices(size, m); Add(Add(Add(t[0], t[1]), t[2]), t[3]) == Zero
  {
  }

  /** `Octohedron(size)`: the six points at distance `2 ** .5 * size` on
      the axes. */
  function OctoVertices(size: real, m: Math): seq<Vec3> {
    OctoPoints(m.pow(2.0, 0.5) * size)
  }

  // ------------------------------------------------------ construction

  /** `Tetrahedron(size)`: the vertices, then `RodGraph.__init__`. */
  method NewTetrahedron(size: real, m: Math) returns (g: RodGraph)
    ensures fresh(g) && fresh(g.Repr) && g.Ready() && g.verts == TetraVertices(size, m) && g.edges == TetraEdges
    ensures g.States() == BuiltRods(TetraVertices(size, m), TetraEdges, |TetraEdges|, m)
  {
    TetraTable();
    ReachedAll(TetraVertices(size, m), TetraEdges);
    var r := NewGraph(TetraVertices(size, m), TetraEdges, m);
    g := r.value;
  }

  /** `Octohedron(size)`. */
  method NewOctohedron(size: real, m: Math) returns (g: RodGraph)
    ensures fresh(g) && fresh(g.Repr) && g.Ready() && g.verts == OctoVertices(size, m) && g.edges == OctoEdges
    ensures g.States() == BuiltRods(OctoVertices(size, m), OctoEdges, |OctoEdges|, m)
  {
    OctoTable();
    ReachedAll(OctoVertices(size, m), OctoEdges);
    var r := NewGraph(OctoVertices(size, m), OctoEdges, m);
    g := r.value;
  }

  /** `Cube(size)`. */
  method NewCube(size: real, m: Math) returns (g: RodGraph)
    ensures fresh(g) && fresh(g.Repr) && g.Ready() && g.verts == CubeVertices(size) && g.edges == CubeEdges
    ensures g.States() == BuiltRods(CubeVertices(size), CubeEdges, |CubeEdges|, m)
  {
    CubeTable();
    ReachedAll(CubeVertices(size), CubeEdges);
    var r := NewGraph(CubeVertices(size), CubeEdges, m);
    g := r.value;
  }
}
