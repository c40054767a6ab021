/** `shapes.py`: a builder receives a solid's vertices and then its edges,
    one call at a time. The base `ObjBuilder` raises `AbstractMethod` on
    either call; a builder that overrides them is modelled by the calls it
    receives, in order. */
module Builders {
  import opened Wrappers
  import opened Vectors
  import opened Numerics
  import opened EdgeTables
  import opened Solids
  import opened ShapeTables
  import opened DodecaTables

  /** `AbstractMethod`, the `NotImplementedError` of the base class. */
  datatype BuildError = AbstractMethod

  class ObjBuilder {
    /** True for the base class, whose `add_vertex` and `add_edge` raise.
        One flag serves both, so a subclass overriding only one of them is
        not represented. */
    const raising: bool
    /** The vertices and the edges received so far, in order. */
    var vertices: seq<Vec3>
    var edges: seq<Edge>

    constructor (raising: bool)
      ensures this.raising == raising && vertices == [] && edges == []
    {
      this.raising := raising;
      vertices := [];
      edges := [];
    }

    /** `add_vertex(vec)`. */
    method AddVertex(vec: Vec3) returns (r: Result<(), BuildError>)
      modifies this
      ensures raising ==> r == Failure(AbstractMethod) && vertices == old(vertices)
      ensures !raising ==> r == Success(()) && vertices == old(vertices) + [vec]
      ensures edges == old(edges)
    {
      if raising {
        return Failure(AbstractMethod);
      }
      vertices := vertices + [vec];
      return Success(());
    }

    /** `add_edge(i, j)`. */
    method AddEdge(i: nat, j: nat) returns (r: Result<(), BuildError>)
      modifies this
      ensures raising ==> r == Failure(AbstractMethod) && edges == old(edges)
      ensures !raising ==> r == Success(()) && edges == old(edges) + [(i, j)]
      ensures vertices == old(vertices)
    {
      if raising {
        return Failure(AbstractMethod);
      }
      edges := edges + [(i, j)];
      return Success(());
    }
  }

  // ------------------------------------------------------- octahedron

  /** `d = (0.5 ** .5) * size`, the distance of the vertices from the centre. */
  function OctaRadius(size: real, m: Math): real {
    m.pow(0.5, 0.5) * size
  }

  /** The first six calls of `octahedron`: the vertices on +z, -z, +y, -y,
      +x and -x at distance d. */
  method AddOctaVertices(b: ObjBuilder, d: real) returns (r: Result<(), BuildError>)
    modifies b
    ensures b.raising ==> r == Failure(AbstractMethod) && b.vertices == old(b.vertices)
    ensures !b.raising ==> r == Success(()) && b.vertices == old(b.vertices) + OctoPoints(d)
    ensures b.edges == old(b.edges)
  {
    r := b.AddVertex(Vec3(0.0, 0.0, d));
    if r.Failure? {
      return;
    }
    r := b.AddVertex(Vec3(0.0, 0.0, -d));
    r := b.AddVertex(Vec3(0.0, d, 0.0));
    r := b.AddVertex(Vec3(0.0, -d, 0.0));
    r := b.AddVertex(Vec3(d, 0.0, 0.0));
    r := b.AddVertex(Vec3(-d, 0.0, 0.0));
  }

  /** Four calls of `octahedron`: the edges from pole `apex` to vertices
      2, 3, 4 and 5. */
  method AddApexEdges(b: ObjBuilder, apex: nat) returns (r: Result<(), BuildError>)
    requires !b.raising
    modifies b
    ensures r == Success(()) && b.vertices == old(b.vertices)
    ensures b.edges == old(b.edges) + [(apex, 2), (apex, 3), (apex, 4), (apex, 5)]
  {
    r := b.AddEdge(apex, 2);
    r := b.AddEdge(apex, 3);
    r := b.AddEdge(apex, 4);
    r := b.AddEdge(apex, 5);
  }

  /** The last four calls of `octahedron`: the equator as written,
      2-3-4-5-2. */
  method AddEquator(b: ObjBuilder) returns (r: Result<(), BuildError>)
    requires !b.raising
    modifies b
    ensures r == Success(()) && b.vertices == old(b.vertices)
    ensures b.edges == old(b.edges) + [(2, 3), (3, 4), (4, 5), (5, 2)]
  {
    r := b.AddEdge(2, 3);
    r := b.AddEdge(3, 4);
    r := b.AddEdge(4, 5);
    r := b.AddEdge(5, 2);
  }

  /** `octahedron(size, objbuilder)`: six vertices on the axes at distance d,
      then the twelve edges as written. The base builder raises at the
      first call, before anything is received. */
  method Octahedron(size: real, b: ObjBuilder, m: Math) returns (r: Result<(), BuildError>)
    modifies b
    ensures b.raising ==> r == Failure(AbstractMethod) && b.vertices == old(b.vertices) && b.edges == old(b.edges)
    ensures !b.raising ==> r == Success(())
    ensures !b.raising ==> b.vertices == old(b.vertices) + OctoPoints(OctaRadius(size, m))
    ensures !b.raising ==> b.edges == old(b.edges) + OctaEdgesAsWritten
  {
    r := AddOctaVertices(b, OctaRadius(size, m));
    if r.Failure? {
      return;
    }
    r := AddApexEdges(b, 0);
    r := AddApexEdges(b, 1);
    r := AddEquator(b);
  }

  /** The equator as an octahedron has it, 2-4-3-5-2. */
  method AddCorrectedEquator(b: ObjBuilder) returns (r: Result<(), BuildError>)
    requires !b.raising
    modifies b
    ensures r == Success(()) && b.vertices == old(b.vertices)
    ensures b.edges == old(b.edges) + [(2, 4), (4, 3), (3, 5), (5, 2)]
  {
    r := b.AddEdge(2, 4);
    r := b.AddEdge(4, 3);
    r := b.AddEdge(3, 5);
    r := b.AddEdge(5, 2);
  }

  /** `octahedron` with the corrected equator: the same six vertices, then
      the twelve rods of an octahedron's skeleton. */
  method OctahedronCorrected(size: real, b: ObjBuilder, m: Math) returns (r: Result<(), BuildError>)
    modifies b
    ensures b.raising ==> r == Failure(AbstractMethod) && b.vertices == old(b.vertices) && b.edges == old(b.edges)
    ensures !b.raising ==> r == Success(())
    ensures !b.raising ==> b.vertices == old(b.vertices) + OctoPoints(OctaRadius(size, m))
    ensures !b.raising ==> b.edges == old(b.edges) + OctaEdgesCorrected
  {
    r := AddOctaVertices(b, OctaRadius(size, m));
    if r.Failure? {
      return;
    }
    r := AddApexEdges(b, 0);
    r := AddApexEdges(b, 1);
    r := AddCorrectedEquator(b);
  }

  // ----------------------------------------------------- dodecahedron

  /** `foo(x)`: the angle `x * step`, with `step` 72 degrees, and the ring
      radii `size * (1 - A ** 2) ** .5` and `size * (1 - B ** 2) ** .5`. */
  function Foo(x: real, size: real, a: real, b: real, m: Math): (real, real, real) {
    var step := m.pi * 72.0 / 180.0;
    (x * step, size * m.pow(1.0 - m.pow(a, 2.0), 0.5), size * m.pow(1.0 - m.pow(b, 2.0), 0.5))
  }

  /** Vertex i of ring k: the top ring (radius ra, height A size), the upper
      middle ring (rb, B size), then, half a step round, the lower middle
      ring (rb, -B size) and the bottom ring (ra, -A size). */
  function DodecaVertex(size: real, a: real, b: real, m: Math, k: nat, i: nat): Vec3 {
    var (theta, ra, rb) := Foo(if k < 2 then i as real else i as real + 0.5, size, a, b, m);
    var radius := if k == 0 || k == 3 then ra else rb;
    var height := if k == 0 then a * size else if k == 1 then b * size else if k == 2 then -b * size else -a * size;
    Vec3(radius * m.cos(theta), radius * m.sin(theta), height)
  }

  /** The five vertices of ring k, in order. */
  function DodecaRing(size: real, a: real, b: real, m: Math, k: nat): (r: seq<Vec3>)
    ensures |r| == 5
  {
    seq(5, i requires 0 <= i < 5 => DodecaVertex(size, a, b, m, k, i))
  }

  /** The twenty vertices, ring by ring. */
  function DodecaVertices(size: real, a: real, b: real, m: Math): (r: seq<Vec3>)
    ensures |r| == 20
  {
    DodecaRing(size, a, b, m, 0) + DodecaRing(size, a, b, m, 1) + DodecaRing(size, a, b, m, 2) + DodecaRing(size, a, b, m, 3)
  }

  /** One of the four vertex loops of `dodecahedron`: `for i in xrange(5)`,
      `add_vertex` of vertex i of ring k. */
  method AddRing(size: real, a: real, b: real, m: Math, bld: ObjBuilder, k: nat) returns (r: Result<(), BuildError>)
    modifies bld
    ensures bld.raising ==> r == Failure(AbstractMethod) && bld.vertices == old(bld.vertices)
    ensures !bld.raising ==> r == Success(()) && bld.vertices == old(bld.vertices) + DodecaRing(size, a, b, m, k)
    ensures bld.edges == old(bld.edges)
  {
    r := Success(());
    for i := 0 to 5
      invariant i > 0 ==> !bld.raising
      invariant bld.vertices == old(bld.vertices) + DodecaRing(size, a, b, m, k)[..i]
      invariant bld.edges == old(bld.edges) && r == Success(())
    {
      r := bld.AddVertex(DodecaVertex(size, a, b, m, k, i));
      if r.Failure? {
        return;
      }
    }
  }

  /** One round of the edge loop of `dodecahedron`. */
  method AddRound(bld: ObjBuilder, i: nat) returns (r: Result<(), BuildError>)
    requires !bld.raising
    modifies bld
    ensures r == Success(()) && bld.edges == old(bld.edges) + DodecaRound(i) && bld.vertices == old(bld.vertices)
  {
    var ea, e2a, eb, fb, f2b, ga, g2a := i, (i + 1) % 5, i + 5, i + 10, (i + 4) % 5 + 10, i + 15, (i + 1) % 5 + 15;
    r := bld.AddEdge(ea, eb);
    r := bld.AddEdge(ea, e2a);
    r := bld.AddEdge(eb, fb);
    r := bld.AddEdge(eb, f2b);
    r := bld.AddEdge(fb, ga);
    r := bld.AddEdge(ga, g2a);
  }

  /** `dodecahedron(size, objbuilder)` from the ring heights `a` and `b`
      its gradient descent settles on: the four rings of vertices, then
      the edge loop, six edges a round. */
  method Dodecahedron(size: real, a: real, b: real, bld: ObjBuilder, m: Math) returns (r: Result<(), BuildError>)
    modifies bld
    ensures bld.raising ==> r == Failure(AbstractMethod) && bld.vertices == old(bld.vertices) && bld.edges == old(bld.edges)
    ensures !bld.raising ==> r == Success(())
    ensures !bld.raising ==> bld.vertices == old(bld.vertices) + DodecaVertices(size, a, b, m)
    ensures !bld.raising ==> bld.edges == old(bld.edges) + DodecaEdges()
  {
    r := AddRing(size, a, b, m, bld, 0);
    if r.Failure? {
      return;
    }
    r := AddRing(size, a, b, m, bld, 1);
    r := AddRing(size, a, b, m, bld, 2);
    r := AddRing(size, a, b, m, bld, 3);
    for i := 0 to 5
      invariant !bld.raising && r == Success(())
      invariant bld.vertices == old(bld.vertices) + DodecaVertices(size, a, b, m)
      invariant bld.edges == old(bld.edges) + DodecaRounds(i)
    {
      r := AddRound(bld, i);
    }
  }
}
