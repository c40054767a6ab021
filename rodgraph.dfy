/** geometry's `RodGraph`: the rods of a polyhedron's edges, built once and
    memoised, the list of penalty terms that `fitness` sums, and the
    operations the optimiser drives (`to_list`, `from_list`, `twist`,
    `wiggle`, `fitness`). The graph's own vertex and edge tables are the
    `vertices()` and `edges()` a subclass supplies. */
module RodGraphs {
  import opened Wrappers
  import opened Vectors
  import opened Numerics
  import opened Texts
  import opened UniqueSeq
  import opened Rods
  import opened Penalty
  import opened EdgeTables

  /** The two current endpoints of a rod. */
  type Ends = (Vec3, Vec3)

  datatype GraphError =
    | EdgeOutOfRange(edge: nat)             // IndexError in `rods()`
    | LengthMismatch(got: nat, want: nat)   // `from_list`'s assertion
    | ZeroTwist(rod: nat)                   // `twist` divides by `w.length()`
    | ParallelRods(rod: nat, other: nat)    // `nearest_distance` normalises a zero cross product

  // ------------------------------------------------------------- rods()

  /** `"{0}_>".format(k)` and `"<_{0}".format(k)`: the labels of rod k's ends. */
  function LabelOut(k: nat): string {
    NatToString(k) + "_>"
  }

  function LabelIn(k: nat): string {
    "<_" + NatToString(k)
  }

  /** How many edges `rods()` gets through before an index past the end of
      the vertex table raises IndexError. */
  function Reached(verts: seq<Vec3>, edges: seq<Edge>): (n: nat)
    ensures n <= |edges|
    ensures forall k :: 0 <= k < n ==> edges[k].0 < |verts| && edges[k].1 < |verts|
    ensures n < |edges| ==> !(edges[n].0 < |verts| && edges[n].1 < |verts|)
  {
    if |edges| == 0 || !(edges[0].0 < |verts| && edges[0].1 < |verts|) then 0
    else 1 + Reached(verts, edges[1..])
  }

  /** Rod k as `rods()` makes it: `Rod(verts[i], verts[j])` for edge k = (i, j),
      then both labels set. */
  function LabelledRod(verts: seq<Vec3>, e: Edge, k: nat, m: Math): RodState
    requires e.0 < |verts| && e.1 < |verts|
  {
    FreshRod(verts[e.0], verts[e.1], m).(label1 := Some(LabelOut(k)), label2 := Some(LabelIn(k)))
  }

  /** The first `n` rods `rods()` builds, in edge order. */
  function BuiltRods(verts: seq<Vec3>, edges: seq<Edge>, n: nat, m: Math): seq<RodState>
    requires n <= Reached(verts, edges)
  {
    seq(n, k requires 0 <= k < n => LabelledRod(verts, edges[k], k, m))
  }

  lemma BuiltRodsSnoc(verts: seq<Vec3>, edges: seq<Edge>, i: nat, m: Math)
    requires i < Reached(verts, edges)
    ensures BuiltRods(verts, edges, i + 1, m) == BuiltRods(verts, edges, i, m) + [LabelledRod(verts, edges[i], i, m)]
  {
  }

  /** One rod per edge, in edge order: rod k joins the edge's two vertices,
      remembers them as its original ones, and its labels are "k_>" and "<_k". */
  lemma BuiltRodsShape(verts: seq<Vec3>, edges: seq<Edge>, m: Math, k: nat)
    requires k < Reached(verts, edges)
    ensures var r := BuiltRods(verts, edges, Reached(verts, edges), m)[k];
      && r.v1 == verts[edges[k].0] && r.v2 == verts[edges[k].1]
      && r.original1 == r.v1 && r.original2 == r.v2
      && r.originalMidpoint == Midpoint(r.v1, r.v2)
      && r.label1 == Some(NatToString(k) + "_>") && r.label2 == Some("<_" + NatToString(k))
  {
  }

  /** All the labels of a graph are different: no two rods share one, and no
      rod's two ends carry the same label. */
  lemma LabelsUnique(i: nat, j: nat)
    ensures LabelOut(i) == LabelOut(j) <==> i == j
    ensures LabelIn(i) == LabelIn(j) <==> i == j
    ensures LabelOut(i) != LabelIn(j)
  {
    if LabelOut(i) == LabelOut(j) {
      var a, b := NatToString(i), NatToString(j);
      assert |a| == |b|;
      assert a == LabelOut(i)[..|a|] == LabelOut(j)[..|b|] == b;
      NatToStringInjective(i, j);
    }
    if LabelIn(i) == LabelIn(j) {
      assert NatToString(i) == LabelIn(i)[2..] == LabelIn(j)[2..] == NatToString(j);
      NatToStringInjective(i, j);
    }
    assert LabelOut(i)[0] != LabelIn(j)[0];
  }

  /** The current state of every rod of a list. */
  function StatesOf(rs: seq<Rod>): (r: seq<RodState>)
    reads rs
    ensures |r| == |rs| && forall k :: 0 <= k < |rs| ==> r[k] == rs[k].State()
  {
    if |rs| == 0 then [] else StatesOf(rs[..|rs| - 1]) + [rs[|rs| - 1].State()]
  }

  lemma StatesOfSnoc(rs: seq<Rod>, rod: Rod)
    ensures StatesOf(rs + [rod]) == StatesOf(rs) + [rod.State()]
  {
    assert (rs + [rod])[..|rs|] == rs;
  }

  function EndsOf(st: seq<RodState>): (r: seq<Ends>)
    ensures |r| == |st| && forall k :: 0 <= k < |st| ==> r[k] == (st[k].v1, st[k].v2)
  {
    seq(|st|, k requires 0 <= k < |st| => (st[k].v1, st[k].v2))
  }

  /** The rods with new endpoints and every other field as it was. */
  function WithEnds(st: seq<RodState>, ends: seq<Ends>): (r: seq<RodState>)
    requires |ends| == |st|
    ensures |r| == |st| && EndsOf(r) == ends
  {
    seq(|st|, k requires 0 <= k < |st| => st[k].(v1 := ends[k].0, v2 := ends[k].1))
  }

  /** Two lists of rods that differ at most in their current endpoints. */
  predicate SameBut(a: seq<RodState>, b: seq<RodState>) {
    |a| == |b| && forall k :: 0 <= k < |a| ==> a[k] == b[k].(v1 := a[k].v1, v2 := a[k].v2)
  }

  lemma WithEndsKeeps(st: seq<RodState>, ends: seq<Ends>)
    requires |ends| == |st|
    ensures SameBut(WithEnds(st, ends), st)
  {
  }

  // ------------------------------------------------------ lookup_vertex

  /** The position of the first vertex equal to `v`, or `|verts|` when there is none. */
  function VertexIndex(verts: seq<Vec3>, v: Vec3): (i: nat)
    ensures i <= |verts|
  {
    if |verts| == 0 || verts[0] == v then 0 else 1 + VertexIndex(verts[1..], v)
  }

  /** `VertexIndex` finds the first equal vertex, and finds one exactly when
      `v` is a vertex. */
  lemma {:induction false} VertexIndexFirst(verts: seq<Vec3>, v: Vec3)
    ensures var i := VertexIndex(verts, v);
      && (i < |verts| <==> v in verts)
      && (i < |verts| ==> verts[i] == v)
      && forall j :: 0 <= j < i ==> verts[j] != v
  {
    if |verts| > 0 && verts[0] != v {
      VertexIndexFirst(verts[1..], v);
      assert forall j :: 1 <= j < |verts| ==> verts[j] == verts[1..][j - 1];
    }
  }

  // ------------------------------------------------------------ innards

  /** The closures of `innards`, by the factory that made them and its arguments. */
  datatype Term =
    | EncourageSymmetry(rod: nat)
    | CorrectRodLength(rod: nat)
    | HugVertex(rod: nat, vertex: nat)
    | AvoidOverlap(rod: nat, other: nat)

  predicate Shares(a: Ends, b: Ends) {
    a.0 == b.0 || a.0 == b.1 || a.1 == b.0 || a.1 == b.1
  }

  /** The overlap terms of rod i against rods i+1 .. n-1, in that order. */
  function OverlapsUpTo(ends: seq<Ends>, i: nat, n: nat): seq<Term>
    requires i < |ends| && n <= |ends|
    decreases n
  {
    if n <= i + 1 then []
    else OverlapsUpTo(ends, i, n - 1) + (if Shares(ends[i], ends[n - 1]) then [AvoidOverlap(i, n - 1)] else [])
  }

  /** The four terms every rod gets, before its overlap terms. */
  function RodHead(i: nat, a: nat, b: nat): seq<Term> {
    [EncourageSymmetry(i), CorrectRodLength(i), HugVertex(i, a), HugVertex(i, b)]
  }

  /** Every endpoint of the first n rods is a vertex. */
  predicate EndsAreVertices(ends: seq<Ends>, verts: seq<Vec3>, n: nat)
    requires n <= |ends|
  {
    forall k :: 0 <= k < n ==> ends[k].0 in verts && ends[k].1 in verts
  }

  /** Rod i's block of terms. */
  function RodTerms(ends: seq<Ends>, verts: seq<Vec3>, i: nat): seq<Term>
    requires i < |ends|
  {
    RodHead(i, VertexIndex(verts, ends[i].0), VertexIndex(verts, ends[i].1)) + OverlapsUpTo(ends, i, |ends|)
  }

  /** The terms of the first n rods. */
  function TermsUpTo(ends: seq<Ends>, verts: seq<Vec3>, n: nat): seq<Term>
    requires n <= |ends|
  {
    if n == 0 then [] else TermsUpTo(ends, verts, n - 1) + RodTerms(ends, verts, n - 1)
  }

  /** What `innards` leaves in `self.terms`. */
  function InnardsTerms(ends: seq<Ends>, verts: seq<Vec3>): seq<Term> {
    TermsUpTo(ends, verts, |ends|)
  }

  /** The rods a graph builds sit on its vertices. */
  lemma BuiltOnVertices(verts: seq<Vec3>, edges: seq<Edge>, m: Math)
    ensures var ends := EndsOf(BuiltRods(verts, edges, Reached(verts, edges), m));
      EndsAreVertices(ends, verts, |ends|)
  {
  }

  /** Number of rods among i+1 .. n-1 that share a vertex with rod i. */
  function SharingAfter(ends: seq<Ends>, i: nat, n: nat): nat
    requires i < |ends| && n <= |ends|
    decreases n
  {
    if n <= i + 1 then 0 else SharingAfter(ends, i, n - 1) + (if Shares(ends[i], ends[n - 1]) then 1 else 0)
  }

  /** Number of pairs i < j, i among the first n rods, that share a vertex. */
  function SharingPairs(ends: seq<Ends>, n: nat): nat
    requires n <= |ends|
  {
    if n == 0 then 0 else SharingPairs(ends, n - 1) + SharingAfter(ends, n - 1, |ends|)
  }

  lemma {:induction false} OverlapsCount(ends: seq<Ends>, i: nat, n: nat)
    requires i < |ends| && n <= |ends|
    ensures |OverlapsUpTo(ends, i, n)| == SharingAfter(ends, i, n)
    decreases n
  {
    if n > i + 1 {
      OverlapsCount(ends, i, n - 1);
    }
  }

  /** Four terms per rod plus one per sharing pair. */
  lemma {:induction false} TermsCount(ends: seq<Ends>, verts: seq<Vec3>, n: nat)
    requires n <= |ends|
    ensures |TermsUpTo(ends, verts, n)| == 4 * n + SharingPairs(ends, n)
  {
    if n > 0 {
      TermsCount(ends, verts, n - 1);
      RodTermsCount(ends, verts, n - 1);
      assert TermsUpTo(ends, verts, n) == TermsUpTo(ends, verts, n - 1) + RodTerms(ends, verts, n - 1);
    }
  }

  /** Rod i's block: its four terms and one per later rod it shares a
      vertex with. */
  lemma RodTermsCount(ends: seq<Ends>, verts: seq<Vec3>, i: nat)
    requires i < |ends|
    ensures |RodTerms(ends, verts, i)| == 4 + SharingAfter(ends, i, |ends|)
  {
    OverlapsCount(ends, i, |ends|);
  }

  lemma {:induction false} OverlapsMembers(ends: seq<Ends>, i: nat, n: nat, t: Term)
    requires i < |ends| && n <= |ends|
    ensures t in OverlapsUpTo(ends, i, n) <==>
      t.AvoidOverlap? && t.rod == i && i < t.other < n && Shares(ends[i], ends[t.other])
    decreases n
  {
    if n > i + 1 {
      OverlapsMembers(ends, i, n - 1, t);
    }
  }

  lemma InConcat(t: Term, a: seq<Term>, b: seq<Term>)
    ensures t in a + b <==> t in a || t in b
  {
  }

  /** Rod k's block holds the overlap terms (k, j) of the later rods j it
      shares a vertex with, and no others. */
  lemma BlockOverlaps(ends: seq<Ends>, verts: seq<Vec3>, k: nat, i: nat, j: nat)
    requires k < |ends|
    ensures AvoidOverlap(i, j) in RodTerms(ends, verts, k) <==> i == k && k < j < |ends| && Shares(ends[k], ends[j])
  {
    OverlapsMembers(ends, k, |ends|, AvoidOverlap(i, j));
    InConcat(AvoidOverlap(i, j), RodHead(k, VertexIndex(verts, ends[k].0), VertexIndex(verts, ends[k].1)),
      OverlapsUpTo(ends, k, |ends|));
  }

  lemma OverlapTermStep(ends: seq<Ends>, verts: seq<Vec3>, n: nat, i: nat, j: nat)
    requires 0 < n <= |ends|
    requires AvoidOverlap(i, j) in TermsUpTo(ends, verts, n - 1) <==> i < j < |ends| && i < n - 1 && Shares(ends[i], ends[j])
    ensures AvoidOverlap(i, j) in TermsUpTo(ends, verts, n) <==> i < j < |ends| && i < n && Shares(ends[i], ends[j])
  {
    BlockOverlaps(ends, verts, n - 1, i, j);
    TermsUpToStep(ends, verts, n);
    IffConcat(AvoidOverlap(i, j), TermsUpTo(ends, verts, n - 1), RodTerms(ends, verts, n - 1), TermsUpTo(ends, verts, n),
      i < j < |ends| && i < n - 1 && Shares(ends[i], ends[j]), i == n - 1 && n - 1 < j < |ends| && Shares(ends[n - 1], ends[j]));
  }

  /** An overlap term (i, j) is present exactly when i < j and the two rods
      share a vertex. */
  lemma {:induction false} OverlapTermIff(ends: seq<Ends>, verts: seq<Vec3>, n: nat, i: nat, j: nat)
    requires n <= |ends|
    ensures AvoidOverlap(i, j) in TermsUpTo(ends, verts, n) <==>
      i < j < |ends| && i < n && Shares(ends[i], ends[j])
  {
    if n > 0 {
      OverlapTermIff(ends, verts, n - 1, i, j);
      OverlapTermStep(ends, verts, n, i, j);
    }
  }

  /** Rod k's block holds its own symmetry and length terms and no other rod's. */
  lemma BlockSymmetryTerm(ends: seq<Ends>, verts: seq<Vec3>, k: nat, i: nat)
    requires k < |ends|
    ensures EncourageSymmetry(i) in RodTerms(ends, verts, k) <==> i == k
  {
    var head := RodHead(k, VertexIndex(verts, ends[k].0), VertexIndex(verts, ends[k].1));
    OverlapsMembers(ends, k, |ends|, EncourageSymmetry(i));
    InConcat(EncourageSymmetry(i), head, OverlapsUpTo(ends, k, |ends|));
  }

  lemma BlockLengthTerm(ends: seq<Ends>, verts: seq<Vec3>, k: nat, i: nat)
    requires k < |ends|
    ensures CorrectRodLength(i) in RodTerms(ends, verts, k) <==> i == k
  {
    var head := RodHead(k, VertexIndex(verts, ends[k].0), VertexIndex(verts, ends[k].1));
    OverlapsMembers(ends, k, |ends|, CorrectRodLength(i));
    InConcat(CorrectRodLength(i), head, OverlapsUpTo(ends, k, |ends|));
  }

  lemma TermsUpToStep(ends: seq<Ends>, verts: seq<Vec3>, n: nat)
    requires 0 < n <= |ends|
    ensures TermsUpTo(ends, verts, n) == TermsUpTo(ends, verts, n - 1) + RodTerms(ends, verts, n - 1)
  {
  }

  lemma IffConcat(t: Term, prev: seq<Term>, block: seq<Term>, whole: seq<Term>, a: bool, b: bool)
    requires whole == prev + block && (t in prev <==> a) && (t in block <==> b)
    ensures t in whole <==> a || b
  {
  }

  lemma SymmetryTermStep(ends: seq<Ends>, verts: seq<Vec3>, n: nat, i: nat)
    requires 0 < n <= |ends|
    requires EncourageSymmetry(i) in TermsUpTo(ends, verts, n - 1) <==> i < n - 1
    ensures EncourageSymmetry(i) in TermsUpTo(ends, verts, n) <==> i < n
  {
    BlockSymmetryTerm(ends, verts, n - 1, i);
    TermsUpToStep(ends, verts, n);
    IffConcat(EncourageSymmetry(i), TermsUpTo(ends, verts, n - 1), RodTerms(ends, verts, n - 1), TermsUpTo(ends, verts, n), i < n - 1, i == n - 1);
  }

  lemma {:induction false} SymmetryTermIff(ends: seq<Ends>, verts: seq<Vec3>, n: nat, i: nat)
    requires n <= |ends|
    ensures EncourageSymmetry(i) in TermsUpTo(ends, verts, n) <==> i < n
  {
    if n > 0 {
      SymmetryTermIff(ends, verts, n - 1, i);
      SymmetryTermStep(ends, verts, n, i);
    }
  }

  lemma LengthTermStep(ends: seq<Ends>, verts: seq<Vec3>, n: nat, i: nat)
    requires 0 < n <= |ends|
    requires CorrectRodLength(i) in TermsUpTo(ends, verts, n - 1) <==> i < n - 1
    ensures CorrectRodLength(i) in TermsUpTo(ends, verts, n) <==> i < n
  {
    BlockLengthTerm(ends, verts, n - 1, i);
    TermsUpToStep(ends, verts, n);
    IffConcat(CorrectRodLength(i), TermsUpTo(ends, verts, n - 1), RodTerms(ends, verts, n - 1), TermsUpTo(ends, verts, n), i < n - 1, i == n - 1);
  }

  lemma {:induction false} LengthTermIff(ends: seq<Ends>, verts: seq<Vec3>, n: nat, i: nat)
    requires n <= |ends|
    ensures CorrectRodLength(i) in TermsUpTo(ends, verts, n) <==> i < n
  {
    if n > 0 {
      LengthTermIff(ends, verts, n - 1, i);
      LengthTermStep(ends, verts, n, i);
    }
  }

  /** How many times t occurs in s: `s.count(t)`, which is `multiset(s)[t]`. */
  function Occurrences(s: seq<Term>, t: Term): nat
    decreases |s|
  {
    if |s| == 0 then 0 else Occurrences(s[..|s| - 1], t) + (if s[|s| - 1] == t then 1 else 0)
  }

  /** Counting one by one agrees with the multiset of the sequence. */
  lemma {:induction false} OccurrencesMultiset(s: seq<Term>, t: Term)
    ensures Occurrences(s, t) == multiset(s)[t]
    decreases |s|
  {
    if |s| > 0 {
      assert s == s[..|s| - 1] + [s[|s| - 1]];
      OccurrencesMultiset(s[..|s| - 1], t);
    }
  }

  lemma OccurrencesAbsent(s: seq<Term>, t: Term)
    requires t !in s
    ensures Occurrences(s, t) == 0
  {
    OccurrencesMultiset(s, t);
    assert t !in multiset(s);
  }

  lemma {:induction false} OccurrencesConcat(a: seq<Term>, b: seq<Term>, t: Term)
    ensures Occurrences(a + b, t) == Occurrences(a, t) + Occurrences(b, t)
    decreases |b|
  {
    if |b| > 0 {
      var n := |b| - 1;
      assert (a + b)[..|a + b| - 1] == a + b[..n];
      OccurrencesConcat(a, b[..n], t);
    } else {
      assert a + b == a;
    }
  }

  /** Rod k's block holds rod k's symmetry and length terms once each and
      no other rod's. */
  lemma BlockRodTermCount(ends: seq<Ends>, verts: seq<Vec3>, k: nat, t: Term)
    requires k < |ends| && (t.EncourageSymmetry? || t.CorrectRodLength?)
    ensures Occurrences(RodTerms(ends, verts, k), t) == if t.rod == k then 1 else 0
  {
    var head := RodHead(k, VertexIndex(verts, ends[k].0), VertexIndex(verts, ends[k].1));
    var over := OverlapsUpTo(ends, k, |ends|);
    OverlapsMembers(ends, k, |ends|, t);
    OccurrencesConcat(head, over, t);
    OccurrencesAbsent(over, t);
    HeadCount(k, VertexIndex(verts, ends[k].0), VertexIndex(verts, ends[k].1), t);
  }

  /** A rod's head holds its own symmetry and length terms once each. */
  lemma HeadCount(i: nat, a: nat, b: nat, t: Term)
    requires t.EncourageSymmetry? || t.CorrectRodLength?
    ensures Occurrences(RodHead(i, a, b), t) == if t.rod == i then 1 else 0
  {
    var sym, len, hugs := [EncourageSymmetry(i)], [CorrectRodLength(i)], [HugVertex(i, a), HugVertex(i, b)];
    assert RodHead(i, a, b) == sym + len + hugs;
    assert sym[..0] == [] && len[..0] == [];
    OccurrencesConcat(sym, len, t);
    OccurrencesConcat(sym + len, hugs, t);
    OccurrencesAbsent(hugs, t);
  }

  lemma CountStep(prev: seq<Term>, block: seq<Term>, whole: seq<Term>, t: Term, c: nat, d: nat)
    requires whole == prev + block && Occurrences(prev, t) == c && Occurrences(block, t) == d
    ensures Occurrences(whole, t) == c + d
  {
    OccurrencesConcat(prev, block, t);
  }

  /** The first n rods' terms hold each of those rods' symmetry and length
      terms exactly once. */
  lemma {:induction false} RodTermCount(ends: seq<Ends>, verts: seq<Vec3>, n: nat, t: Term)
    requires n <= |ends| && (t.EncourageSymmetry? || t.CorrectRodLength?)
    ensures Occurrences(TermsUpTo(ends, verts, n), t) == if t.rod < n then 1 else 0
  {
    if n > 0 {
      var prev, block := TermsUpTo(ends, verts, n - 1), RodTerms(ends, verts, n - 1);
      var c: nat, d: nat := if t.rod < n - 1 then 1 else 0, if t.rod == n - 1 then 1 else 0;
      assert Occurrences(prev, t) == c by { RodTermCount(ends, verts, n - 1, t); }
      assert Occurrences(block, t) == d by { BlockRodTermCount(ends, verts, n - 1, t); }
      assert TermsUpTo(ends, verts, n) == prev + block by { TermsUpToStep(ends, verts, n); }
      CountStep(prev, block, TermsUpTo(ends, verts, n), t, c, d);
    }
  }

  /** Rod i has a symmetry term and a length term exactly when i < n, and
      then exactly one of each. */
  lemma RodTermIff(ends: seq<Ends>, verts: seq<Vec3>, n: nat, i: nat)
    requires n <= |ends|
    ensures EncourageSymmetry(i) in TermsUpTo(ends, verts, n) <==> i < n
    ensures CorrectRodLength(i) in TermsUpTo(ends, verts, n) <==> i < n
    ensures Occurrences(TermsUpTo(ends, verts, n), EncourageSymmetry(i)) == if i < n then 1 else 0
    ensures Occurrences(TermsUpTo(ends, verts, n), CorrectRodLength(i)) == if i < n then 1 else 0
  {
    SymmetryTermIff(ends, verts, n, i);
    LengthTermIff(ends, verts, n, i);
    RodTermCount(ends, verts, n, EncourageSymmetry(i));
    RodTermCount(ends, verts, n, CorrectRodLength(i));
  }

  /** A term names an existing rod (and, for a hug, an existing vertex). */
  predicate TermInRange(t: Term, rods: nat, verts: nat) {
    t.rod < rods &&
    (t.HugVertex? ==> t.vertex < verts) &&
    (t.AvoidOverlap? ==> t.other < rods)
  }

  predicate TermsInRange(ts: seq<Term>, rods: nat, verts: nat) {
    forall k :: 0 <= k < |ts| ==> TermInRange(ts[k], rods, verts)
  }

  lemma {:induction false} OverlapsInRange(ends: seq<Ends>, i: nat, n: nat, nverts: nat)
    requires i < |ends| && n <= |ends|
    ensures TermsInRange(OverlapsUpTo(ends, i, n), |ends|, nverts)
    decreases n
  {
    if n > i + 1 {
      OverlapsInRange(ends, i, n - 1, nverts);
    }
  }

  lemma ConcatInRange(a: seq<Term>, b: seq<Term>, rods: nat, verts: nat)
    requires TermsInRange(a, rods, verts) && TermsInRange(b, rods, verts)
    ensures TermsInRange(a + b, rods, verts)
  {
  }

  /** The terms `innards` builds only name existing rods and vertices. */
  lemma {:induction false} TermsUpToInRange(ends: seq<Ends>, verts: seq<Vec3>, n: nat)
    requires n <= |ends| && EndsAreVertices(ends, verts, n)
    ensures TermsInRange(TermsUpTo(ends, verts, n), |ends|, |verts|)
  {
    if n > 0 {
      var ts, over := TermsUpTo(ends, verts, n - 1), OverlapsUpTo(ends, n - 1, |ends|);
      var head := RodHead(n - 1, VertexIndex(verts, ends[n - 1].0), VertexIndex(verts, ends[n - 1].1));
      TermsUpToInRange(ends, verts, n - 1);
      VertexIndexFirst(verts, ends[n - 1].0);
      VertexIndexFirst(verts, ends[n - 1].1);
      OverlapsInRange(ends, n - 1, |ends|, |verts|);
      assert TermsInRange(head, |ends|, |verts|);
      ConcatInRange(head, over, |ends|, |verts|);
      ConcatInRange(ts, head + over, |ends|, |verts|);
    }
  }

  // ------------------------------------------------------- coordinates

  /** `to_list`: the six coordinates of every rod, `v1` then `v2`, rod by rod. */
  function Flatten(ends: seq<Ends>): (r: seq<real>)
    ensures |r| == 6 * |ends|
  {
    if |ends| == 0 then []
    else Flatten(ends[..|ends| - 1]) + (ToList(ends[|ends| - 1].0) + ToList(ends[|ends| - 1].1))
  }

  /** `Vector.from_array(lst[at:at+3])`. */
  function VectorAt(lst: seq<real>, at: nat): Vec3
    requires at + 3 <= |lst|
  {
    FromArray(lst[at..at + 3]).value
  }

  /** `from_list`'s reading of a list of 6n numbers: rod k's `v1` from
      `lst[6k:6k+3]` and its `v2` from `lst[6k+3:6k+6]`. */
  function Unflatten(lst: seq<real>): (r: seq<Ends>)
    requires |lst| % 6 == 0
    ensures |r| == |lst| / 6
  {
    seq(|lst| / 6, k requires 0 <= k < |lst| / 6 => (VectorAt(lst, 6 * k), VectorAt(lst, 6 * k + 3)))
  }

  /** Where rod k's six numbers sit in `Flatten`. */
  lemma {:induction false} FlattenAt(ends: seq<Ends>, k: nat)
    requires k < |ends|
    ensures Flatten(ends)[6 * k .. 6 * k + 6] == ToList(ends[k].0) + ToList(ends[k].1)
  {
    var n := |ends| - 1;
    var init := ends[..n];
    assert Flatten(ends) == Flatten(init) + (ToList(ends[n].0) + ToList(ends[n].1));
    if k < n {
      FlattenAt(init, k);
      assert Flatten(ends)[6 * k .. 6 * k + 6] == Flatten(init)[6 * k .. 6 * k + 6];
    } else {
      assert Flatten(ends)[6 * k .. 6 * k + 6] == Flatten(ends)[|Flatten(init)|..];
    }
  }

  /** `from_list(to_list())` gives every rod back its endpoints. */
  lemma UnflattenFlatten(ends: seq<Ends>)
    ensures Unflatten(Flatten(ends)) == ends
  {
    var lst := Flatten(ends);
    forall k | 0 <= k < |ends|
      ensures Unflatten(lst)[k] == ends[k]
    {
      FlattenAt(ends, k);
      SixHalves(lst, 6 * k, ToList(ends[k].0), ToList(ends[k].1));
      FromArrayToList(ends[k].0);
      FromArrayToList(ends[k].1);
    }
  }

  lemma SixHalves(lst: seq<real>, at: nat, a: seq<real>, b: seq<real>)
    requires at + 6 <= |lst| && |a| == 3 && |b| == 3 && lst[at..at + 6] == a + b
    ensures lst[at..at + 3] == a && lst[at + 3..at + 6] == b
  {
    assert lst[at..at + 3] == lst[at..at + 6][..3];
    assert lst[at + 3..at + 6] == lst[at..at + 6][3..];
  }

  /** `to_list()` after `from_list(lst)` returns `lst`. */
  lemma {:induction false} FlattenUnflatten(lst: seq<real>)
    requires |lst| % 6 == 0
    ensures Flatten(Unflatten(lst)) == lst
    decreases |lst|
  {
    if |lst| > 0 {
      var n := |lst| / 6 - 1;
      var init := lst[..6 * n];
      var ends := Unflatten(lst);
      UnflattenPrefix(lst, n);
      FlattenUnflatten(init);
      var tail := lst[6 * n..];
      assert ToList(ends[n].0) == tail[..3];
      assert ToList(ends[n].1) == tail[3..];
      assert lst == init + tail;
    }
  }

  lemma VectorAtPrefix(lst: seq<real>, j: nat, at: nat)
    requires at + 3 <= j <= |lst|
    ensures VectorAt(lst[..j], at) == VectorAt(lst, at)
  {
    assert lst[..j][at..at + 3] == lst[at..at + 3];
  }

  /** Reading the first n rods needs only the first 6n numbers. */
  lemma UnflattenPrefix(lst: seq<real>, n: nat)
    requires |lst| % 6 == 0 && n <= |lst| / 6
    ensures Unflatten(lst)[..n] == Unflatten(lst[..6 * n])
  {
    var p := lst[..6 * n];
    forall k | 0 <= k < n
      ensures Unflatten(lst)[k] == Unflatten(p)[k]
    {
      VectorAtPrefix(lst, 6 * n, 6 * k);
      VectorAtPrefix(lst, 6 * n, 6 * k + 3);
    }
  }

  /** `from_list(to_list())` leaves every rod as it was. */
  lemma FromListOfToList(st: seq<RodState>)
    ensures |Flatten(EndsOf(st))| == 6 * |st|
    ensures WithEnds(st, Unflatten(Flatten(EndsOf(st)))) == st
  {
    UnflattenFlatten(EndsOf(st));
  }

  /** `to_list()` after a successful `from_list(lst)` gives back `lst`. */
  lemma ToListOfFromList(st: seq<RodState>, lst: seq<real>)
    requires |lst| == 6 * |st|
    ensures Flatten(EndsOf(WithEnds(st, Unflatten(lst)))) == lst
  {
    FlattenUnflatten(lst);
  }

  /** `wiggle`'s `size`: each coordinate moves by less than this. */
  const WiggleSize: real := 2.0 * MinimalDistance

  // ------------------------------------------------------------- twist

  /** `twist`'s step on one rod: `w = mid × (v1 − mid)` about the original
      midpoint, `delta = (d / |w|) w`, then `v1 += delta` and `v2 -= delta`;
      `None` when `|w|` is zero and the division fails. */
  function TwistOne(s: RodState, d: real, m: Math): Option<RodState> {
    var mid := s.originalMidpoint;
    var w := Cross(mid, Sub(s.v1, mid));
    var len := Length(w, m);
    if len == 0.0 then None
    else
      var delta := Scale(d / len, w);
      Some(s.(v1 := Add(s.v1, delta), v2 := Sub(s.v2, delta)))
  }

  /** The first rod whose step fails, or the number of rods. */
  function FirstStuck(st: seq<RodState>, d: real, m: Math): (n: nat)
    ensures n <= |st|
    ensures forall k :: 0 <= k < n ==> TwistOne(st[k], d, m).Some?
    ensures n < |st| ==> TwistOne(st[n], d, m).None?
  {
    if |st| == 0 || TwistOne(st[0], d, m).None? then 0 else 1 + FirstStuck(st[1..], d, m)
  }

  /** The rods after `twist`: the ones before the first failure are stepped. */
  function Twisted(st: seq<RodState>, d: real, m: Math): seq<RodState> {
    var n := FirstStuck(st, d, m);
    seq(|st|, k requires 0 <= k < |st| => if k < n then TwistOne(st[k], d, m).value else st[k])
  }

  /** Rods stepped up to the first failure and untouched from it on hold
      the states `twist` leaves. */
  lemma TwistedStates(rods: seq<Rod>, st: seq<RodState>, d: real, m: Math)
    requires |rods| == |st|
    requires forall k :: 0 <= k < |rods| ==>
      rods[k].State() == if k < FirstStuck(st, d, m) then Twisted(st, d, m)[k] else st[k]
    ensures StatesOf(rods) == Twisted(st, d, m)
  {
  }

  /** Every rod keeps its midpoint (and everything but its endpoints)
      through `twist`, whether or not it completes. */
  lemma TwistKeepsMidpoints(st: seq<RodState>, d: real, m: Math)
    ensures var t := Twisted(st, d, m);
      && SameBut(t, st)
      && forall k :: 0 <= k < |st| ==> Midpoint(t[k].v1, t[k].v2) == Midpoint(st[k].v1, st[k].v2)
  {
    var t := Twisted(st, d, m);
    forall k | 0 <= k < |st|
      ensures Midpoint(t[k].v1, t[k].v2) == Midpoint(st[k].v1, st[k].v2)
    {
      if k < FirstStuck(st, d, m) {
        var mid := st[k].originalMidpoint;
        var w := Cross(mid, Sub(st[k].v1, mid));
        TwistKeepsMidpoint(st[k].v1, st[k].v2, Scale(d / Length(w, m), w));
      }
    }
  }

  // ------------------------------------------------------------ fitness

  /** `x ** 2`, taken as exact. */
  function Square(x: real): (r: real)
    ensures r >= 0.0
  {
    SquareNonNegative(x);
    x * x
  }

  /** What a term's closure returns on the current rods. */
  function TermValue(st: seq<RodState>, verts: seq<Vec3>, t: Term, m: Math): Result<real, GraphError>
    requires TermInRange(t, |st|, |verts|)
  {
    match t
    case EncourageSymmetry(i) => Success(1.0 * Square(MidpointDrift(st[i], m)))
    case CorrectRodLength(i) => Success(10.0 * Square(VdistDelta(st[i], m)))
    case HugVertex(i, j) =>
      Success(10.0 * Min(Length(Sub(st[i].v1, verts[j]), m), Length(Sub(st[i].v2, verts[j]), m)))
    case AvoidOverlap(i, j) =>
      match NearestDistance(st[i], st[j], m)
      case None => Failure(ParallelRods(i, j))
      case Some(dist) => Success(OverlapPenalty(dist))
  }

  /** `fitness`' running `_sum` over a list of terms, in order; the first
      term that raises ends the sum. */
  function SumOfSquares(st: seq<RodState>, verts: seq<Vec3>, ts: seq<Term>, m: Math): (r: Result<real, GraphError>)
    requires TermsInRange(ts, |st|, |verts|)
    ensures r.Success? ==> r.value >= 0.0
  {
    if |ts| == 0 then Success(0.0)
    else
      var n := |ts| - 1;
      match SumOfSquares(st, verts, ts[..n], m)
      case Failure(e) => Failure(e)
      case Success(sum) =>
        match TermValue(st, verts, ts[n], m)
        case Failure(e) => Failure(e)
        case Success(v) => Success(sum + Square(v))
  }

  /** `fitness`' result: the square root (`** .5`) of the sum. */
  function FitnessOf(st: seq<RodState>, verts: seq<Vec3>, ts: seq<Term>, m: Math): Result<real, GraphError>
    requires TermsInRange(ts, |st|, |verts|)
  {
    match SumOfSquares(st, verts, ts, m)
    case Failure(e) => Failure(e)
    case Success(sum) => Success(m.pow(sum, 0.5))
  }

  /** One more term: its failure, or its square added to the sum so far. */
  lemma SumStep(st: seq<RodState>, verts: seq<Vec3>, ts: seq<Term>, k: nat, m: Math, total: real)
    requires TermsInRange(ts, |st|, |verts|) && k < |ts|
    requires SumOfSquares(st, verts, ts[..k], m) == Success(total)
    ensures SumOfSquares(st, verts, ts[..k + 1], m) ==
      match TermValue(st, verts, ts[k], m)
      case Failure(e) => Failure(e)
      case Success(v) => Success(total + Square(v))
  {
    assert ts[..k + 1][..k] == ts[..k];
  }

  /** Once a term raises, the sum of any longer list raises the same error. */
  lemma {:induction false} SumStopsAtFailure(st: seq<RodState>, verts: seq<Vec3>, ts: seq<Term>, k: nat, m: Math)
    requires TermsInRange(ts, |st|, |verts|) && k <= |ts|
    requires SumOfSquares(st, verts, ts[..k], m).Failure?
    ensures SumOfSquares(st, verts, ts, m) == SumOfSquares(st, verts, ts[..k], m)
    decreases |ts|
  {
    if k < |ts| {
      var n := |ts| - 1;
      assert ts[..n][..k] == ts[..k];
      SumStopsAtFailure(st, verts, ts[..n], k, m);
    } else {
      assert ts[..k] == ts;
    }
  }

  /** In the configuration `rods()` builds, no rod has drifted or changed
      length, and each rod lies on the vertices its hug terms name, so those
      terms are all zero (given a square root that is one). */
  lemma RestingTermsVanish(verts: seq<Vec3>, edges: seq<Edge>, m: Math, i: nat)
    requires SqrtIsRoot(m) && Reached(verts, edges) == |edges| && i < |edges|
    ensures var st := BuiltRods(verts, edges, |edges|, m);
      && TermValue(st, verts, EncourageSymmetry(i), m) == Success(0.0)
      && TermValue(st, verts, CorrectRodLength(i), m) == Success(0.0)
  {
    var st := BuiltRods(verts, edges, |edges|, m);
    RestingAt(verts, edges, m, i);
    RestingLength(st[i], m);
    RestingMidpoint(st[i], m);
    RestingTerms(st, verts, i, m);
  }

  /** Rod i of `rods()` starts at its own length and midpoint. */
  lemma RestingAt(verts: seq<Vec3>, edges: seq<Edge>, m: Math, i: nat)
    requires Reached(verts, edges) == |edges| && i < |edges|
    ensures var s := BuiltRods(verts, edges, |edges|, m)[i];
      s.idealVdist == Length(Delta(s), m) && s.originalMidpoint == Midpoint(s.v1, s.v2)
  {
    assert BuiltRods(verts, edges, |edges|, m)[i] == LabelledRod(verts, edges[i], i, m);
  }

  /** A rod that has neither drifted nor changed length has zero symmetry
      and length terms. */
  lemma RestingTerms(st: seq<RodState>, verts: seq<Vec3>, i: nat, m: Math)
    requires i < |st| && MidpointDrift(st[i], m) == 0.0 && VdistDelta(st[i], m) == 0.0
    ensures TermValue(st, verts, EncourageSymmetry(i), m) == Success(0.0)
    ensures TermValue(st, verts, CorrectRodLength(i), m) == Success(0.0)
  {
  }

  /** A rod at its original length has not changed length. */
  lemma RestingLength(s: RodState, m: Math)
    requires s.idealVdist == Length(Delta(s), m)
    ensures VdistDelta(s, m) == 0.0
  {
  }

  /** A rod at its original midpoint has not drifted. */
  lemma RestingMidpoint(s: RodState, m: Math)
    requires SqrtIsRoot(m)
    requires s.originalMidpoint == Midpoint(s.v1, s.v2)
    ensures MidpointDrift(s, m) == 0.0
  {
    SqrtOfZero(m);
    NoDrift(s);
  }

  lemma NoDrift(s: RodState)
    requires s.originalMidpoint == Midpoint(s.v1, s.v2)
    ensures Sub(Midpoint(s.v1, s.v2), s.originalMidpoint) == Zero
  {
  }

  /** A hug term is zero while its rod has an end on the vertex, as every
      rod does on the two vertices `innards` looks up for it. */
  lemma HugOnVertexVanishes(st: seq<RodState>, verts: seq<Vec3>, i: nat, j: nat, m: Math)
    requires SqrtIsRoot(m) && i < |st| && j < |verts|
    requires verts[j] == st[i].v1 || verts[j] == st[i].v2
    ensures TermValue(st, verts, HugVertex(i, j), m) == Success(0.0)
  {
    SqrtOfZero(m);
    DotSelfNonNegative(Sub(st[i].v1, verts[j]));
    DotSelfNonNegative(Sub(st[i].v2, verts[j]));
    if verts[j] == st[i].v1 {
      assert Sub(st[i].v1, verts[j]) == Zero;
    } else {
      assert Sub(st[i].v2, verts[j]) == Zero;
    }
  }

  lemma SqrtOfZero(m: Math)
    requires SqrtIsRoot(m)
    ensures Length(Zero, m) == 0.0 && m.sqrt(0.0) == 0.0
  {
    assert Dot(Zero, Zero) == 0.0;
  }

  // ------------------------------------------------------------ the graph

  /** The body of `twist`'s loop on one rod; false when `w.length()` is
      zero and the division raises, with the rod untouched. */
  method TwistRod(rod: Rod, d: real, m: Math) returns (ok: bool)
    modifies rod
    ensures ok <==> TwistOne(old(rod.State()), d, m).Some?
    ensures rod.State() == if ok then TwistOne(old(rod.State()), d, m).value else old(rod.State())
  {
    var mid := rod.originalMidpoint;
    var w := Cross(mid, Sub(rod.v1, mid));
    var len := Length(w, m);
    if len == 0.0 {
      return false;
    }
    var delta := Scale(d / len, w);
    rod.v1 := Add(rod.v1, delta);
    rod.v2 := Sub(rod.v2, delta);
    return true;
  }

  /** One round of `twist`'s loop over rods whose first i are stepped: rod
      i is stepped too, or it is the first that cannot be and nothing
      changes. */
  method TwistStep(rods: seq<Rod>, i: nat, d: real, m: Math, ghost st: seq<RodState>, ghost want: seq<RodState>) returns (ok: bool)
    requires NoDup(rods) && i < |rods| == |st| && i <= FirstStuck(st, d, m) && want == Twisted(st, d, m)
    requires forall k :: 0 <= k < |rods| ==> rods[k].State() == if k < i then want[k] else st[k]
    modifies rods[i]
    ensures ok ==> i < FirstStuck(st, d, m)
    ensures !ok ==> i == FirstStuck(st, d, m)
    ensures forall k :: 0 <= k < |rods| ==> rods[k].State() == if k < i || (ok && k == i) then want[k] else st[k]
  {
    ok := TwistRod(rods[i], d, m);
  }

  /** `wiggle`'s loop over the list: `L[i] += (2 * random() - 1) * size`, the
      draw being any number in [0, 1). */
  method Perturbed(lst: seq<real>) returns (r: seq<real>)
    ensures |r| == |lst| && forall k :: 0 <= k < |lst| ==> -WiggleSize <= r[k] - lst[k] < WiggleSize
  {
    var size := 2.0 * MinimalDistance;
    r := lst;
    var i := 0;
    while i < |r|
      invariant 0 <= i <= |r| == |lst|
      invariant forall k :: i <= k < |r| ==> r[k] == lst[k]
      invariant forall k :: 0 <= k < i ==> -WiggleSize <= r[k] - lst[k] < WiggleSize
    {
      var u: real :| 0.0 <= u < 1.0;
      r := r[i := r[i] + (2.0 * u - 1.0) * size];
      i := i + 1;
    }
  }

  /** `rods()`' loop over the edges: the rods built before an edge whose
      index is past the vertex table stops it, and whether none did. */
  method BuildRods(verts: seq<Vec3>, edges: seq<Edge>, m: Math) returns (rods: seq<Rod>, ok: bool)
    ensures |rods| == Reached(verts, edges) && (ok <==> |rods| == |edges|)
    ensures NoDup(rods) && forall k :: 0 <= k < |rods| ==> fresh(rods[k])
    ensures StatesOf(rods) == BuiltRods(verts, edges, |rods|, m)
  {
    ghost var n := Reached(verts, edges);
    rods := [];
    ok := true;
    var i := 0;
    while ok && i < |edges|
      invariant 0 <= i <= n && |rods| == i && (ok ==> i <= |edges|) && (!ok ==> i == n < |edges|)
      invariant NoDup(rods) && forall k :: 0 <= k < i ==> fresh(rods[k])
      invariant StatesOf(rods) == BuiltRods(verts, edges, i, m)
      decreases |edges| - i, ok
    {
      if edges[i].0 < |verts| && edges[i].1 < |verts| {
        assert i < n;
        var rod;
        rods, rod := AppendLabelledRod(verts, edges, rods, m);
        i := i + 1;
      } else {
        ok := false;
      }
    }
  }

  /** One round of `rods()`' loop: the next edge's rod appended. */
  method AppendLabelledRod(verts: seq<Vec3>, edges: seq<Edge>, rods: seq<Rod>, m: Math) returns (next: seq<Rod>, rod: Rod)
    requires |rods| < Reached(verts, edges) && NoDup(rods)
    requires StatesOf(rods) == BuiltRods(verts, edges, |rods|, m)
    ensures next == rods + [rod] && fresh(rod) && NoDup(next)
    ensures StatesOf(next) == BuiltRods(verts, edges, |next|, m)
  {
    ghost var before := StatesOf(rods);
    rod := NewLabelledRod(verts, edges[|rods|], |rods|, m);
    assert StatesOf(rods) == before;
    StatesOfSnoc(rods, rod);
    BuiltRodsSnoc(verts, edges, |rods|, m);
    next := rods + [rod];
  }

  /** The body of `rods()`' loop for edge k: a new rod on the edge's
      vertices, then its two labels. */
  method NewLabelledRod(verts: seq<Vec3>, e: Edge, k: nat, m: Math) returns (rod: Rod)
    requires e.0 < |verts| && e.1 < |verts|
    ensures fresh(rod) && rod.State() == LabelledRod(verts, e, k, m)
  {
    rod := new Rod(verts[e.0], verts[e.1], m);
    rod.label1 := Some(LabelOut(k));
    rod.label2 := Some(LabelIn(k));
  }

  class RodGraph {
    /** `vertices()` and `edges()` of the subclass. */
    const verts: seq<Vec3>
    const edges: seq<Edge>
    /** `self._rods`: `None` until `rods()` first runs. */
    var cache: Option<seq<Rod>>
    /** `self.terms`. */
    var terms: seq<Term>
    ghost var Repr: set<Rod>

    /** The memoised rods are distinct objects, all in `Repr`. */
    ghost predicate Valid()
      reads this
    {
      cache.Some? ==> NoDup(cache.value) && forall k :: 0 <= k < |cache.value| ==> cache.value[k] in Repr
    }

    /** A graph whose `__init__` finished: one rod per edge, and terms that
        name existing rods and vertices. */
    ghost predicate Ready()
      reads this
    {
      Valid() && cache.Some? && |cache.value| == |edges| && TermsInRange(terms, |edges|, |verts|)
    }

    function States(): seq<RodState>
      reads this, Repr
      requires Valid() && cache.Some?
    {
      StatesOf(cache.value)
    }

    /** The state before `innards`: no rods yet and no terms. */
    constructor (verts: seq<Vec3>, edges: seq<Edge>)
      ensures Valid() && this.verts == verts && this.edges == edges
      ensures cache == None && terms == [] && Repr == {}
    {
      this.verts := verts;
      this.edges := edges;
      cache := None;
      terms := [];
      Repr := {};
    }

    /** `rods()`: the first call builds one labelled rod per edge, in edge
        order, and memoises the list even when an out-of-range edge stops it
        part way; later calls return the memo. */
    method Rods(m: Math) returns (r: Result<seq<Rod>, GraphError>)
      requires Valid()
      modifies this
      ensures Valid() && cache.Some? && terms == old(terms) && old(Repr) <= Repr && fresh(Repr - old(Repr))
      ensures old(cache).Some? ==> cache == old(cache) && r == Success(cache.value)
      ensures old(cache).None? ==>
        && (forall k :: 0 <= k < |cache.value| ==> fresh(cache.value[k]))
        && StatesOf(cache.value) == BuiltRods(verts, edges, Reached(verts, edges), m)
        && (r.Success? <==> Reached(verts, edges) == |edges|)
        && (r.Success? ==> r.value == cache.value)
        && (r.Failure? ==> r.error == EdgeOutOfRange(Reached(verts, edges)))
    {
      if cache.Some? {
        return Success(cache.value);
      }
      r := FirstRods(m);
    }

    /** The first call of `rods()`. */
    method FirstRods(m: Math) returns (r: Result<seq<Rod>, GraphError>)
      requires Valid() && cache.None?
      modifies this
      ensures Valid() && cache.Some? && terms == old(terms) && old(Repr) <= Repr && fresh(Repr - old(Repr))
      ensures forall k :: 0 <= k < |cache.value| ==> fresh(cache.value[k])
      ensures StatesOf(cache.value) == BuiltRods(verts, edges, Reached(verts, edges), m)
      ensures r.Success? <==> Reached(verts, edges) == |edges|
      ensures r.Success? ==> r.value == cache.value
      ensures r.Failure? ==> r.error == EdgeOutOfRange(Reached(verts, edges))
    {
      var rods, ok := BuildRods(verts, edges, m);
      ghost var st := StatesOf(rods);
      cache := Some(rods);
      Repr := Repr + set k | 0 <= k < |rods| :: rods[k];
      assert StatesOf(cache.value) == st;
      if ok {
        return Success(rods);
      }
      return Failure(EdgeOutOfRange(|rods|));
    }

    /** `lookup_vertex`: the first vertex equal to `v`; the source's
        `assert False` when there is none. */
    method LookupVertex(v: Vec3) returns (r: Option<nat>)
      ensures r.Some? <==> v in verts
      ensures r.Some? ==> r.value < |verts| && verts[r.value] == v
      ensures r.Some? ==> forall j :: 0 <= j < r.value ==> verts[j] != v
      ensures r.Some? ==> r.value == VertexIndex(verts, v)
    {
      VertexIndexFirst(verts, v);
      var i := 0;
      while i < |verts|
        invariant 0 <= i <= |verts| && i <= VertexIndex(verts, v)
        invariant forall j :: 0 <= j < i ==> verts[j] != v
      {
        if verts[i] == v {
          return Some(i);
        }
        i := i + 1;
      }
      return None;
    }

    /** `to_list`: rod by rod, `v1`'s and then `v2`'s three coordinates. */
    method ToList() returns (lst: seq<real>)
      requires Ready()
      ensures lst == Flatten(EndsOf(States()))
    {
      var rods := cache.value;
      ghost var ends := EndsOf(States());
      lst := [];
      var i := 0;
      while i < |rods|
        invariant 0 <= i <= |rods| == |ends|
        invariant lst == Flatten(ends[..i])
      {
        var rod := rods[i];
        assert ends[..i + 1][..i] == ends[..i];
        lst := lst + (Vectors.ToList(rod.v1) + Vectors.ToList(rod.v2));
        i := i + 1;
      }
      assert ends[..i] == ends;
    }

    /** `from_list`: asserts the length is six numbers per rod, then sets
        rod k's ends from `lst[6k:6k+3]` and `lst[6k+3:6k+6]`. */
    method FromList(lst: seq<real>) returns (r: Result<(), GraphError>)
      requires Ready()
      modifies Repr
      ensures Ready()
      ensures r.Success? <==> |lst| == 6 * |edges|
      ensures r.Failure? ==> r.error == LengthMismatch(|lst|, 6 * |edges|) && States() == old(States())
      ensures r.Success? ==> States() == WithEnds(old(States()), Unflatten(lst))
    {
      var rods := cache.value;
      if |lst| != 6 * |rods| {
        return Failure(LengthMismatch(|lst|, 6 * |rods|));
      }
      ghost var st := States();
      ghost var want := WithEnds(st, Unflatten(lst));
      var i := 0;
      while i < |rods|
        invariant 0 <= i <= |rods|
        invariant forall k :: 0 <= k < |rods| ==> rods[k].State() == if k < i then want[k] else st[k]
      {
        var rod := rods[i];
        rod.v1 := VectorAt(lst, 6 * i);
        rod.v2 := VectorAt(lst, 6 * i + 3);
        i := i + 1;
      }
      return Success(());
    }

    /** `twist(d)`: moves every rod's ends by the same vector in opposite
        directions, stopping with ZeroDivisionError at a rod whose turning
        vector has length zero. */
    method Twist(d: real, m: Math) returns (r: Result<(), GraphError>)
      requires Ready()
      modifies Repr
      ensures Ready()
      ensures States() == Twisted(old(States()), d, m)
      ensures r.Success? <==> FirstStuck(old(States()), d, m) == |edges|
      ensures r.Failure? ==> r.error == ZeroTwist(FirstStuck(old(States()), d, m))
    {
      var rods := cache.value;
      ghost var st := States();
      ghost var n := FirstStuck(st, d, m);
      ghost var want := Twisted(st, d, m);
      var i := 0;
      while i < |rods|
        invariant 0 <= i <= |rods| && i <= n
        invariant forall k :: 0 <= k < |rods| ==> rods[k].State() == if k < i then want[k] else st[k]
      {
        var ok := TwistStep(rods, i, d, m, st, want);
        if !ok {
          TwistedStates(rods, st, d, m);
          return Failure(ZeroTwist(i));
        }
        i := i + 1;
      }
      TwistedStates(rods, st, d, m);
      return Success(());
    }

    /** `wiggle`: every coordinate of `to_list()` moves by `(2u - 1) size`
        for a fresh draw `u` in [0, 1), then `from_list` stores them. */
    method Wiggle()
      requires Ready()
      modifies Repr
      ensures Ready() && SameBut(States(), old(States()))
      ensures var before, after := Flatten(EndsOf(old(States()))), Flatten(EndsOf(States()));
        |after| == |before| && forall k :: 0 <= k < |before| ==> -WiggleSize <= after[k] - before[k] < WiggleSize
    {
      var lst := ToList();
      ghost var st := States();
      lst := Perturbed(lst);
      var stored := FromList(lst);
      WithEndsKeeps(st, Unflatten(lst));
      ToListOfFromList(st, lst);
    }

    /** Runs one term's closure on the current rods. */
    method EvalTerm(t: Term, m: Math) returns (r: Result<real, GraphError>)
      requires Valid() && cache.Some? && TermInRange(t, |cache.value|, |verts|)
      ensures r == TermValue(States(), verts, t, m)
    {
      var rods := cache.value;
      match t
      case EncourageSymmetry(i) =>
        var drift := MidpointDrift(rods[i].State(), m);
        return Success(1.0 * Square(drift));
      case CorrectRodLength(i) =>
        var dsq := Square(VdistDelta(rods[i].State(), m));
        return Success(10.0 * dsq);
      case HugVertex(i, j) =>
        var rod, vertex := rods[i], verts[j];
        var d1 := Length(Sub(rod.v1, vertex), m);
        var d2 := Length(Sub(rod.v2, vertex), m);
        return Success(10.0 * Min(d1, d2));
      case AvoidOverlap(i, j) =>
        var dist := NearestDistance(rods[i].State(), rods[j].State(), m);
        if dist.None? {
          return Failure(ParallelRods(i, j));
        }
        var p := OverlapPenaltyLoop(dist.value);
        return Success(p);
    }

    /** `fitness(L)`: `from_list(L)`, then the square root of the sum of the
        squared term values. */
    method Fitness(lst: seq<real>, m: Math) returns (r: Result<real, GraphError>)
      requires Ready()
      modifies Repr
      ensures Ready()
      ensures |lst| != 6 * |edges| ==> r == Failure(LengthMismatch(|lst|, 6 * |edges|)) && States() == old(States())
      ensures |lst| == 6 * |edges| ==>
        States() == WithEnds(old(States()), Unflatten(lst)) && r == FitnessOf(States(), verts, terms, m)
    {
      var stored := FromList(lst);
      if stored.Failure? {
        return Failure(stored.error);
      }
      var sum := SumLoop(m);
      if sum.Failure? {
        return Failure(sum.error);
      }
      return Success(m.pow(sum.value, 0.5));
    }

    /** `fitness`' loop: `_sum += f() ** 2` over the terms, in order. */
    method SumLoop(m: Math) returns (r: Result<real, GraphError>)
      requires Ready()
      ensures r == SumOfSquares(States(), verts, terms, m)
    {
      ghost var st := States();
      var total := 0.0;
      var k := 0;
      while k < |terms|
        invariant 0 <= k <= |terms|
        invariant SumOfSquares(st, verts, terms[..k], m) == Success(total)
      {
        var next := SumRound(k, total, m, st);
        if next.Failure? {
          SumStopsAtFailure(st, verts, terms, k + 1, m);
          return next;
        }
        total := next.value;
        k := k + 1;
      }
      assert terms[..k] == terms;
      return Success(total);
    }

    /** One round of `fitness`' loop: term k run and its square added. */
    method SumRound(k: nat, total: real, m: Math, ghost st: seq<RodState>) returns (r: Result<real, GraphError>)
      requires Ready() && st == States() && k < |terms|
      requires SumOfSquares(st, verts, terms[..k], m) == Success(total)
      ensures r == SumOfSquares(st, verts, terms[..k + 1], m)
    {
      SumStep(st, verts, terms, k, m, total);
      var v := EvalTerm(terms[k], m);
      if v.Failure? {
        return Failure(v.error);
      }
      return Success(total + Square(v.value));
    }

    /** `innards`: forgets the memoised rods and the terms, rebuilds the rods,
        then lists rod by rod its symmetry, length and two vertex terms and an
        overlap term for every later rod it shares an endpoint with. The
        rods are built on the vertex table, so `lookup_vertex`'s assertion
        cannot fail here. */
    method Innards(m: Math) returns (r: Result<(), GraphError>)
      requires Valid()
      modifies this
      ensures Valid() && cache.Some? && old(Repr) <= Repr && fresh(Repr - old(Repr))
      ensures forall k :: 0 <= k < |cache.value| ==> fresh(cache.value[k])
      ensures States() == BuiltRods(verts, edges, Reached(verts, edges), m)
      ensures r.Success? <==> Reached(verts, edges) == |edges|
      ensures r.Failure? ==> r.error == EdgeOutOfRange(Reached(verts, edges)) && terms == []
      ensures r.Success? ==> Ready() && terms == InnardsTerms(EndsOf(States()), verts)
    {
      cache := None;
      terms := [];
      var built := Rods(m);
      if built.Failure? {
        return Failure(built.error);
      }
      var rods := built.value;
      ghost var st := StatesOf(rods);
      assert st == BuiltRods(verts, edges, Reached(verts, edges), m);
      BuiltOnVertices(verts, edges, m);
      assert EndsAreVertices(EndsOf(st), verts, |rods|);
      var ts := TermsOf(rods);
      TermsUpToInRange(EndsOf(st), verts, |rods|);
      terms := ts;
      assert StatesOf(rods) == st;
      return Success(());
    }

    /** `innards`' loop over the rods, appending each rod's block. */
    method TermsOf(rods: seq<Rod>) returns (ts: seq<Term>)
      requires EndsAreVertices(EndsOf(StatesOf(rods)), verts, |rods|)
      ensures ts == InnardsTerms(EndsOf(StatesOf(rods)), verts)
    {
      ghost var ends := EndsOf(StatesOf(rods));
      ts := [];
      var i := 0;
      while i < |rods|
        invariant 0 <= i <= |rods| == |ends|
        invariant ts == TermsUpTo(ends, verts, i)
      {
        var block := RodBlock(rods, i);
        ts := ts + block;
        i := i + 1;
      }
    }

    /** One pass of `innards`' outer loop: rod i's four terms, then its
        overlap terms. */
    method RodBlock(rods: seq<Rod>, i: nat) returns (block: seq<Term>)
      requires i < |rods|
      requires EndsAreVertices(EndsOf(StatesOf(rods)), verts, |rods|)
      ensures block == RodTerms(EndsOf(StatesOf(rods)), verts, i)
    {
      var rod := rods[i];
      var a := LookupVertex(rod.v1);
      var b := LookupVertex(rod.v2);
      if a.None? || b.None? {
        assert false;
      }
      var overlaps := OverlapsOf(rods, i);
      block := RodHead(i, a.value, b.value) + overlaps;
    }
  }

  /** The inner loop of `innards`: an overlap term for every later rod
      that shares an endpoint with rod i. */
  method OverlapsOf(rods: seq<Rod>, i: nat) returns (ts: seq<Term>)
    requires i < |rods|
    ensures ts == OverlapsUpTo(EndsOf(StatesOf(rods)), i, |rods|)
  {
    ghost var ends := EndsOf(StatesOf(rods));
    var rod := rods[i];
    assert (rod.v1, rod.v2) == ends[i];
    ts := [];
    var j := i + 1;
    while j < |rods|
      invariant i + 1 <= j <= |rods| == |ends|
      invariant ts == OverlapsUpTo(ends, i, j)
    {
      var other := rods[j];
      assert (other.v1, other.v2) == ends[j];
      if SharesVertex(rod.v1, rod.v2, other.v1, other.v2) {
        ts := ts + [AvoidOverlap(i, j)];
      }
      j := j + 1;
    }
  }

  /** `RodGraph.__init__` on a subclass's vertex and edge tables: the graph
      and its terms, or the IndexError of an edge past the vertex table. */
  method NewGraph(verts: seq<Vec3>, edges: seq<Edge>, m: Math) returns (r: Result<RodGraph, GraphError>)
    ensures r.Success? <==> Reached(verts, edges) == |edges|
    ensures r.Failure? ==> r.error == EdgeOutOfRange(Reached(verts, edges))
    ensures r.Success? ==>
      var g := r.value;
      && fresh(g) && fresh(g.Repr) && g.Ready() && g.verts == verts && g.edges == edges
      && g.States() == BuiltRods(verts, edges, |edges|, m)
      && g.terms == InnardsTerms(EndsOf(g.States()), verts)
  {
    var g := new RodGraph(verts, edges);
    var done := g.Innards(m);
    if done.Failure? {
      return Failure(done.error);
    }
    return Success(g);
  }
}
