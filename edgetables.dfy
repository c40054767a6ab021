/** Edge tables: the `edges()` of a polyhedron, pairs of indices into its
    vertex table, and the facts about them that make a table a polyhedron's
    skeleton. */
module EdgeTables {
  /** An edge: two indices into the vertex table. */
  type Edge = (nat, nat)

  /** Every index names a vertex. */
  predicate InRange(edges: seq<Edge>, n: nat) {
    forall k :: 0 <= k < |edges| ==> edges[k].0 < n && edges[k].1 < n
  }

  /** No edge joins a vertex to itself (a rod of length zero). */
  predicate NoSelfLoops(edges: seq<Edge>) {
    forall k :: 0 <= k < |edges| ==> edges[k].0 != edges[k].1
  }

  /** Two edges join the same two vertices, in either direction. */
  predicate SameEdge(e: Edge, f: Edge) {
    e == f || (e.0 == f.1 && e.1 == f.0)
  }

  /** No two entries of the table are the same rod. */
  predicate Simple(edges: seq<Edge>) {
    forall j, k :: 0 <= j < k < |edges| ==> !SameEdge(edges[j], edges[k])
  }

  predicate Touches(e: Edge, v: nat) {
    e.0 == v || e.1 == v
  }

  /** The positions of the edges that meet at vertex v. */
  function Incident(edges: seq<Edge>, v: nat): set<nat> {
    set k | 0 <= k < |edges| && Touches(edges[k], v)
  }

  /** A set of positions is vertex v's star when it holds every rod at v
      and nothing else. */
  lemma IncidentIs(edges: seq<Edge>, v: nat, s: set<nat>)
    requires forall k :: 0 <= k < |edges| && Touches(edges[k], v) ==> k in s
    requires forall k :: k in s ==> k < |edges| && Touches(edges[k], v)
    ensures Incident(edges, v) == s
  {
  }

  /** How many rods meet at vertex v. */
  function Degree(edges: seq<Edge>, v: nat): nat {
    |Incident(edges, v)|
  }

  /** How many of the first n rods meet at vertex v, counted one by one. */
  function CountUpTo(edges: seq<Edge>, v: nat, n: nat): nat
    requires n <= |edges|
  {
    if n == 0 then 0 else CountUpTo(edges, v, n - 1) + (if Touches(edges[n - 1], v) then 1 else 0)
  }

  lemma {:induction false} CountUpToIncident(edges: seq<Edge>, v: nat, n: nat)
    requires n <= |edges|
    ensures CountUpTo(edges, v, n) == |set k | 0 <= k < n && Touches(edges[k], v)|
  {
    if n > 0 {
      CountUpToIncident(edges, v, n - 1);
      var before := set k | 0 <= k < n - 1 && Touches(edges[k], v);
      var now := set k | 0 <= k < n && Touches(edges[k], v);
      if Touches(edges[n - 1], v) {
        assert n - 1 !in before;
        assert now == before + {n - 1};
      } else {
        assert now == before;
      }
    }
  }

  /** The degree is the count over the whole table. */
  lemma DegreeIsCount(edges: seq<Edge>, v: nat)
    ensures Degree(edges, v) == CountUpTo(edges, v, |edges|)
  {
    CountUpToIncident(edges, v, |edges|);
  }

  lemma {:induction false} CountPrefix(a: seq<Edge>, b: seq<Edge>, v: nat, n: nat)
    requires n <= |a|
    ensures CountUpTo(a + b, v, n) == CountUpTo(a, v, n)
  {
    if n > 0 {
      CountPrefix(a, b, v, n - 1);
      assert (a + b)[n - 1] == a[n - 1];
    }
  }

  /** Counting over a table made of two parts adds up the parts. */
  lemma {:induction false} CountAppend(a: seq<Edge>, b: seq<Edge>, v: nat, n: nat)
    requires n <= |b|
    ensures CountUpTo(a + b, v, |a| + n) == CountUpTo(a, v, |a|) + CountUpTo(b, v, n)
  {
    if n == 0 {
      CountPrefix(a, b, v, |a|);
    } else {
      CountAppend(a, b, v, n - 1);
      assert (a + b)[|a| + n - 1] == b[n - 1];
    }
  }

  /** Every one of the n vertices has d rods. */
  predicate Regular(edges: seq<Edge>, n: nat, d: nat) {
    forall v :: 0 <= v < n ==> Degree(edges, v) == d
  }

  /** An edge as one number, the same for both directions. */
  function Key(e: Edge): nat {
    if e.0 < e.1 then e.0 * 64 + e.1 else e.1 * 64 + e.0
  }

  /** For tables of fewer than 64 vertices, equal keys mean the same edge. */
  lemma KeySame(e: Edge, f: Edge)
    requires e.0 < 64 && e.1 < 64 && f.0 < 64 && f.1 < 64
    ensures Key(e) == Key(f) <==> SameEdge(e, f)
  {
  }

  function Keys(edges: seq<Edge>): (r: seq<nat>)
    ensures |r| == |edges| && forall k :: 0 <= k < |r| ==> r[k] == Key(edges[k])
  {
    seq(|edges|, k requires 0 <= k < |edges| => Key(edges[k]))
  }

  /** The rods of a table, each as its key, whatever their order and
      direction. */
  function KeySet(edges: seq<Edge>): set<nat> {
    set x | x in Keys(edges)
  }

  /** A table over fewer than 64 vertices whose keys differ is simple. */
  lemma DistinctKeysSimple(edges: seq<Edge>)
    requires InRange(edges, 64)
    requires forall j, k :: 0 <= j < k < |edges| ==> Keys(edges)[j] != Keys(edges)[k]
    ensures Simple(edges)
  {
    forall j, k | 0 <= j < k < |edges|
      ensures !SameEdge(edges[j], edges[k])
    {
      assert Keys(edges)[j] != Keys(edges)[k];
      KeySame(edges[j], edges[k]);
    }
  }
}
