/** The edge table `dodecahedron` in `shapes.py` feeds to a builder: five
    rounds of six rods over four rings of five vertices, thirty rods in all,
    three at every vertex and none twice. */
module DodecaTables {
  import opened EdgeTables

  /** The six `add_edge` calls of round i of the edge loop: Ea-Eb, Ea-E2a,
      Eb-Fb, Eb-F2b, Fb-Ga, Ga-G2a. */
  function DodecaRound(i: nat): seq<Edge> {
    [(i, i + 5), (i, (i + 1) % 5), (i + 5, i + 10), (i + 5, (i + 4) % 5 + 10),
     (i + 10, i + 15), (i + 15, (i + 1) % 5 + 15)]
  }

  /** The rods of the first n rounds, in the order they are added. */
  function DodecaRounds(n: nat): (r: seq<Edge>)
    ensures |r| == 6 * n
  {
    if n == 0 then [] else DodecaRounds(n - 1) + DodecaRound(n - 1)
  }

  /** The whole table: all five rounds. */
  function DodecaEdges(): seq<Edge> {
    DodecaRounds(5)
  }

  /** Rod 6 i + j is call j of round i. */
  lemma {:induction false} DodecaAt(n: nat, i: nat, j: nat)
    requires i < n && j < 6
    ensures DodecaRounds(n)[6 * i + j] == DodecaRound(i)[j]
  {
    if i < n - 1 {
      DodecaAt(n - 1, i, j);
    }
  }

  /** Round i joins vertices below 20 and no vertex to itself. */
  lemma DodecaRoundInRange(i: nat, j: nat)
    requires i < 5 && j < 6
    ensures DodecaRound(i)[j].0 < 20 && DodecaRound(i)[j].1 < 20
    ensures DodecaRound(i)[j].0 != DodecaRound(i)[j].1
  {
  }

  /** Thirty rods over the twenty vertices, none of length zero. */
  lemma DodecaTable()
    ensures |DodecaEdges()| == 30 && InRange(DodecaEdges(), 20) && NoSelfLoops(DodecaEdges())
  {
    forall k | 0 <= k < 30
      ensures DodecaEdges()[k].0 < 20 && DodecaEdges()[k].1 < 20 && DodecaEdges()[k].0 != DodecaEdges()[k].1
    {
      DodecaAt(5, k / 6, k % 6);
      DodecaRoundInRange(k / 6, k % 6);
    }
  }

  // ------------------------------------------------------ no rod twice

  /** Where a rod sits in the table, read off its ends: the rings they are
      on say which call of a round added it, the lower end which round. */
  function DodecaPosition(e: Edge): nat {
    var lo, hi := if e.0 < e.1 then e.0 else e.1, if e.0 < e.1 then e.1 else e.0;
    if lo < 5 then
      if hi >= 5 then 6 * lo
      else if hi == lo + 1 then 6 * lo + 1
      else 25
    else if lo < 10 then
      if hi == lo + 5 then 6 * (lo - 5) + 2 else 6 * (lo - 5) + 3
    else if lo < 15 then 6 * (lo - 10) + 4
    else if hi == lo + 1 then 6 * (lo - 15) + 5
    else 29
  }

  lemma DodecaPositionOf(i: nat, j: nat)
    requires i < 5 && j < 6
    ensures DodecaPosition(DodecaRound(i)[j]) == 6 * i + j
  {
  }

  lemma DodecaPositionAt(k: nat)
    requires k < 30
    ensures DodecaPosition(DodecaEdges()[k]) == k
  {
    DodecaAt(5, k / 6, k % 6);
    DodecaPositionOf(k / 6, k % 6);
  }

  /** No rod is given twice: a rod's ends, in either direction, say where
      it sits. */
  lemma DodecaSimple()
    ensures Simple(DodecaEdges())
  {
    forall j, k | 0 <= j < k < |DodecaEdges()|
      ensures !SameEdge(DodecaEdges()[j], DodecaEdges()[k])
    {
      DodecaPositionAt(j);
      DodecaPositionAt(k);
      var e := DodecaEdges()[j];
      assert DodecaPosition((e.1, e.0)) == DodecaPosition(e);
    }
  }

  // ------------------------------------------------------------ degree

  /** How many rods of round i meet at vertex v: two at Ea = i, one at
      E2a, three at Eb, two at Fb, one at F2b, two at Ga and one at G2a. */
  function RoundDegree(i: nat, v: nat): nat {
    (if v == i then 2 else 0) + (if v == (i + 1) % 5 then 1 else 0) + (if v == i + 5 then 3 else 0) +
    (if v == i + 10 then 2 else 0) + (if v == (i + 4) % 5 + 10 then 1 else 0) +
    (if v == i + 15 then 2 else 0) + (if v == (i + 1) % 5 + 15 then 1 else 0)
  }

  /** Counting round i's rods call by call gives that number. */
  lemma RoundDegreeCount(i: nat, v: nat)
    requires i < 5
    ensures CountUpTo(DodecaRound(i), v, 6) == RoundDegree(i, v)
  {
    var r := DodecaRound(i);
    assert CountUpTo(r, v, 1) == (if Touches(r[0], v) then 1 else 0);
    assert CountUpTo(r, v, 2) == CountUpTo(r, v, 1) + (if Touches(r[1], v) then 1 else 0);
    assert CountUpTo(r, v, 3) == CountUpTo(r, v, 2) + (if Touches(r[2], v) then 1 else 0);
    assert CountUpTo(r, v, 4) == CountUpTo(r, v, 3) + (if Touches(r[3], v) then 1 else 0);
    assert CountUpTo(r, v, 5) == CountUpTo(r, v, 4) + (if Touches(r[4], v) then 1 else 0);
  }

  /** How many rods of the first n rounds meet at vertex v. */
  function RoundsDegree(n: nat, v: nat): nat {
    if n == 0 then 0 else RoundsDegree(n - 1, v) + RoundDegree(n - 1, v)
  }

  lemma {:induction false} RoundsCount(n: nat, v: nat)
    requires n <= 5
    ensures CountUpTo(DodecaRounds(n), v, 6 * n) == RoundsDegree(n, v)
  {
    if n > 0 {
      RoundsCount(n - 1, v);
      CountAppend(DodecaRounds(n - 1), DodecaRound(n - 1), v, 6);
      RoundDegreeCount(n - 1, v);
    }
  }

  /** The degree of v in the table is the sum of its degrees in the five
      rounds. */
  lemma DodecaDegreeSum(v: nat)
    ensures Degree(DodecaEdges(), v) == RoundDegree(0, v) + RoundDegree(1, v) + RoundDegree(2, v) + RoundDegree(3, v) + RoundDegree(4, v)
  {
    DegreeIsCount(DodecaEdges(), v);
    RoundsCount(5, v);
    assert RoundsDegree(1, v) == RoundDegree(0, v);
    assert RoundsDegree(2, v) == RoundsDegree(1, v) + RoundDegree(1, v);
    assert RoundsDegree(3, v) == RoundsDegree(2, v) + RoundDegree(2, v);
    assert RoundsDegree(4, v) == RoundsDegree(3, v) + RoundDegree(3, v);
  }

  lemma DodecaDegree(v: nat)
    requires v < 20
    ensures Degree(DodecaEdges(), v) == 3
  {
    DodecaDegreeSum(v);
  }

  /** Three rods meet at every vertex. */
  lemma DodecaRegular()
    ensures Regular(DodecaEdges(), 20, 3)
  {
    forall v | 0 <= v < 20
      ensures Degree(DodecaEdges(), v) == 3
    {
      DodecaDegree(v);
    }
  }
}
