/** The edge tables `shapes.py` feeds to a builder: the octahedron's, as
    written and as evidently meant, and the dodecahedron's, five rounds of
    six edges. */
module ShapeTables {
  import opened Vectors
  import opened EdgeTables
  import opened Solids

  // ------------------------------------------------------- octahedron

  /** The twelve `add_edge` calls of `octahedron`, in order. The last four
      run round the equator as 2-3-4-5-2. */
  const OctaEdgesAsWritten: seq<Edge> :=
    [(0, 2), (0, 3), (0, 4), (0, 5), (1, 2), (1, 3), (1, 4), (1, 5), (2, 3), (3, 4), (4, 5), (5, 2)]

  /** Twelve rods over the six vertices, none of length zero. */
  lemma OctaAsWrittenTable()
    ensures |OctaEdgesAsWritten| == 12 && InRange(OctaEdgesAsWritten, 6) && NoSelfLoops(OctaEdgesAsWritten)
  {
  }

  /** No rod is given twice. */
  lemma OctaAsWrittenSimple()
    ensures Simple(OctaEdgesAsWritten)
  {
    assert Keys(OctaEdgesAsWritten) == [2, 3, 4, 5, 66, 67, 68, 69, 131, 196, 261, 133];
    DistinctKeysSimple(OctaEdgesAsWritten);
  }

  const OctaAsWrittenStars: seq<set<nat>> :=
    [{0, 1, 2, 3}, {4, 5, 6, 7}, {0, 4, 8, 11}, {1, 5, 8, 9}, {2, 6, 9, 10}, {3, 7, 10, 11}]

  lemma OctaAsWrittenStar(v: nat)
    requires v < 6
    ensures Incident(OctaEdgesAsWritten, v) == OctaAsWrittenStars[v]
  {
  }

  /** Four rods meet at every vertex, as in an octahedron. */
  lemma OctaAsWrittenRegular()
    ensures Regular(OctaEdgesAsWritten, 6, 4)
  {
    assert |OctaAsWrittenStars[0]| == 4;
    assert |OctaAsWrittenStars[1]| == 4;
    assert |OctaAsWrittenStars[2]| == 4;
    assert |OctaAsWrittenStars[3]| == 4;
    assert |OctaAsWrittenStars[4]| == 4;
    assert |OctaAsWrittenStars[5]| == 4;
    forall v | 0 <= v < 6
      ensures Degree(OctaEdgesAsWritten, v) == 4
    {
      OctaAsWrittenStar(v);
    }
  }

  /** Yet rods 8 and 10, (2, 3) and (4, 5), join opposite vertices, straight
      through the centre: for d != 0 they are twice as long squared as rod
      0, so the table is not the octahedron's skeleton. */
  lemma OctaAsWrittenThroughCentre(d: real)
    ensures var v, e := OctoPoints(d), OctaEdgesAsWritten;
      && OctoOpposite(e[8].0, e[8].1) && OctoOpposite(e[10].0, e[10].1)
      && v[e[8].0] == Scale(-1.0, v[e[8].1]) && v[e[10].0] == Scale(-1.0, v[e[10].1])
      && Dot(Sub(v[e[8].0], v[e[8].1]), Sub(v[e[8].0], v[e[8].1])) == 4.0 * (d * d)
      && Dot(Sub(v[e[10].0], v[e[10].1]), Sub(v[e[10].0], v[e[10].1])) == 4.0 * (d * d)
      && Dot(Sub(v[e[0].0], v[e[0].1]), Sub(v[e[0].0], v[e[0].1])) == 2.0 * (d * d)
  {
    OctoOpposites(d, 2, 3);
    OctoOpposites(d, 4, 5);
    OctoNeighbours(d, 0, 2);
  }

  /** The equator as an octahedron has it, 2-4-3-5-2: the same twelve rods
      as main's `Octohedron`. */
  const OctaEdgesCorrected: seq<Edge> :=
    [(0, 2), (0, 3), (0, 4), (0, 5), (1, 2), (1, 3), (1, 4), (1, 5), (2, 4), (4, 3), (3, 5), (5, 2)]

  /** Twelve rods over the six vertices, none of length zero and none
      through the centre. */
  lemma OctaCorrectedTable()
    ensures |OctaEdgesCorrected| == 12 && InRange(OctaEdgesCorrected, 6) && NoSelfLoops(OctaEdgesCorrected)
    ensures forall k :: 0 <= k < |OctaEdgesCorrected| ==> !OctoOpposite(OctaEdgesCorrected[k].0, OctaEdgesCorrected[k].1)
  {
  }

  /** No rod twice, and the rods are main's `Octohedron` rods. */
  lemma OctaCorrectedSimple()
    ensures Simple(OctaEdgesCorrected)
    ensures KeySet(OctaEdgesCorrected) == KeySet(OctoEdges)
  {
    OctaCorrectedKeys();
    OctoKeys();
    DistinctKeysSimple(OctaEdgesCorrected);
  }

  lemma OctaCorrectedKeys()
    ensures Keys(OctaEdgesCorrected) == [2, 3, 4, 5, 66, 67, 68, 69, 132, 196, 197, 133]
  {
  }

  lemma OctoKeys()
    ensures Keys(OctoEdges) == [2, 3, 4, 5, 66, 67, 68, 69, 132, 196, 133, 197]
  {
  }

  const OctaCorrectedStars: seq<set<nat>> :=
    [{0, 1, 2, 3}, {4, 5, 6, 7}, {0, 4, 8, 11}, {1, 5, 9, 10}, {2, 6, 8, 9}, {3, 7, 10, 11}]

  lemma OctaCorrectedStar(v: nat)
    requires v < 6
    ensures Incident(OctaEdgesCorrected, v) == OctaCorrectedStars[v]
  {
  }

  /** Four rods meet at every vertex. */
  lemma OctaCorrectedRegular()
    ensures Regular(OctaEdgesCorrected, 6, 4)
  {
    assert |OctaCorrectedStars[0]| == 4;
    assert |OctaCorrectedStars[1]| == 4;
    assert |OctaCorrectedStars[2]| == 4;
    assert |OctaCorrectedStars[3]| == 4;
    assert |OctaCorrectedStars[4]| == 4;
    assert |OctaCorrectedStars[5]| == 4;
    forall v | 0 <= v < 6
      ensures Degree(OctaEdgesCorrected, v) == 4
    {
      OctaCorrectedStar(v);
    }
  }

  /** Every rod of the corrected table is `d * 2 ** .5` long. */
  lemma OctaCorrectedAlike(d: real)
    ensures var v, e := OctoPoints(d), OctaEdgesCorrected;
      forall k :: 0 <= k < |e| ==> Dot(Sub(v[e[k].0], v[e[k].1]), Sub(v[e[k].0], v[e[k].1])) == 2.0 * (d * d)
  {
    OctaCorrectedTable();
    forall k | 0 <= k < |OctaEdgesCorrected|
      ensures var p, q := OctoPoints(d)[OctaEdgesCorrected[k].0], OctoPoints(d)[OctaEdgesCorrected[k].1];
        Dot(Sub(p, q), Sub(p, q)) == 2.0 * (d * d)
    {
      OctoNeighbours(d, OctaEdgesCorrected[k].0, OctaEdgesCorrected[k].1);
    }
  }
}
