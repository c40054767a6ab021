/** main.py's driver: the octahedron it builds, `main()`'s optimisation of
    the rods by `simulated_anneal` over `T.fitness`, and its two outputs,
    the whole scene or, with `--pieces`, one printable joint per offset. */
module Driver {
  import opened Wrappers
  import opened Vectors
  import opened Numerics
  import opened Texts
  import opened Scene
  import opened UniqueSeq
  import opened Rods
  import opened RodGraphs
  import opened GraphScenes
  import opened Anneal
  import opened EdgeTables
  import opened Solids
  import opened Polyhedra

  /** `T = Octohedron(12 * INCH - 2 * EXTEND)`. */
  const OctoSize: real := 12.0 * Inch - 2.0 * Extend

  /** `niter=500`. */
  const Iterations: int := 500

  /** The first line `main()` prints. */
  const Resolution: string := "$fn = 20;"

  // ------------------------------------------------------ optimisation

  /** What `T.fitness(L)` reads besides L: every rod field but the current
      ends, the vertices and the terms. */
  datatype Snapshot = Snapshot(st: seq<RodState>, verts: seq<Vec3>, terms: seq<Term>)

  /** A snapshot whose terms name its rods and vertices, as a built graph's do. */
  type Frozen = s: Snapshot | TermsInRange(s.terms, |s.st|, |s.verts|) witness Snapshot([], [], [])

  /** `T.fitness(L)` as a function of L: `from_list(L)` replaces every
      current end, so what earlier calls left behind does not matter. */
  function ListFitness(s: Frozen, m: Math, lst: seq<real>): Result<real, GraphError> {
    if |lst| != 6 * |s.st| then Failure(LengthMismatch(|lst|, 6 * |s.st|))
    else FitnessOf(WithEnds(s.st, Unflatten(lst)), s.verts, s.terms, m)
  }

  /** Setting the ends twice keeps only the second setting. */
  lemma WithEndsTwice(st: seq<RodState>, a: seq<Ends>, b: seq<Ends>)
    requires |a| == |st| && |b| == |st|
    ensures WithEnds(WithEnds(st, a), b) == WithEnds(st, b)
  {
  }

  /** The fitness of `to_list()` is the graph's fitness as it stands. */
  lemma ListFitnessOfToList(s: Frozen, m: Math)
    ensures ListFitness(s, m, Flatten(EndsOf(s.st))) == FitnessOf(s.st, s.verts, s.terms, m)
  {
    FromListOfToList(s.st);
  }

  /** A call of `T.fitness` that moved the ends first changes no later
      call's value. */
  lemma ListFitnessForgets(s: Frozen, ends: seq<Ends>, m: Math, lst: seq<real>)
    requires |ends| == |s.st|
    ensures ListFitness(Snapshot(WithEnds(s.st, ends), s.verts, s.terms), m, lst) == ListFitness(s, m, lst)
  {
    if |lst| == 6 * |s.st| {
      WithEndsTwice(s.st, ends, Unflatten(lst));
    }
  }

  /** `result = simulated_anneal(T.fitness, T.to_list(), niter)` and then
      `T.from_list(result)`: the rods end at the best list found, which is
      no worse than where they started, and nothing but their ends moves. */
  method Optimise(g: RodGraph, niter: int, m: Math) returns (r: Result<seq<real>, AnnealError<GraphError>>)
    requires g.Ready()
    modifies g.Repr
    ensures g.Ready() && SameBut(g.States(), old(g.States()))
    ensures var before := FitnessOf(old(g.States()), g.verts, g.terms, m);
      before.Failure? ==> r == Failure(Raised(before.error))
    ensures r.Success? ==> |r.value| == 6 * |g.edges| && g.States() == WithEnds(old(g.States()), Unflatten(r.value))
    ensures r.Success? ==>
      var before, after := FitnessOf(old(g.States()), g.verts, g.terms, m), FitnessOf(g.States(), g.verts, g.terms, m);
      before.Success? && after.Success? && after.value <= before.value
  {
    var s: Frozen := Snapshot(g.States(), g.verts, g.terms);
    var lst := g.ToList();
    ListFitnessOfToList(s, m);
    r := SimulatedAnneal((l: seq<real>) => ListFitness(s, m, l), lst, niter, m);
    if r.Failure? {
      WithEndsKeeps(s.st, EndsOf(s.st));
      FromListOfToList(s.st);
      return;
    }
    var stored := g.FromList(r.value);
    WithEndsKeeps(s.st, Unflatten(r.value));
  }

  // ------------------------------------------------------------ joints

  /** `dct`, `dct2` and `dct3`. */
  type Tables = (map<Vec3, seq<string>>, map<Vec3, Vec3>, map<Vec3, seq<string>>)

  /** What `Rod.D` files for one rod: its two original vertices, and its
      two sleeve texts and its bore text. */
  type Filing = (Vec3, Vec3, (string, string, string))

  function FilingsOf(st: seq<RodState>, fmt: NumToString, m: Math): (r: seq<Filing>)
    ensures |r| == |st|
    ensures forall k :: 0 <= k < |st| ==> r[k] == (st[k].original1, st[k].original2, Emitted(st[k], fmt, m))
  {
    seq(|st|, k requires 0 <= k < |st| => (st[k].original1, st[k].original2, Emitted(st[k], fmt, m)))
  }

  /** The tables after `r.D(dct, dct2, dct3)` for every rod, in order. */
  function FiledAll(t: Tables, fs: seq<Filing>): Tables
    decreases |fs|
  {
    if |fs| == 0 then t
    else
      var p, f := FiledAll(t, fs[..|fs| - 1]), fs[|fs| - 1];
      Filed(p.0, p.1, p.2, f.0, f.1, f.2)
  }

  /** The vertices the filings are filed under. */
  function Joints(fs: seq<Filing>): set<Vec3> {
    (set k | 0 <= k < |fs| :: fs[k].0) + (set k | 0 <= k < |fs| :: fs[k].1)
  }

  lemma JointsLast(fs: seq<Filing>)
    requires |fs| > 0
    ensures Joints(fs) == Joints(fs[..|fs| - 1]) + {fs[|fs| - 1].0, fs[|fs| - 1].1}
  {
    var n := |fs| - 1;
    forall v | v in Joints(fs)
      ensures v in Joints(fs[..n]) + {fs[n].0, fs[n].1}
    {
      var k :| 0 <= k < |fs| && (fs[k].0 == v || fs[k].1 == v);
      if k < n {
        assert fs[..n][k] == fs[k];
      }
    }
    forall v | v in Joints(fs[..n])
      ensures v in Joints(fs)
    {
      var k :| 0 <= k < n && (fs[..n][k].0 == v || fs[..n][k].1 == v);
      assert fs[..n][k] == fs[k];
    }
  }

  /** One rod's filing adds its two joints as keys to each table and files
      each joint under itself in `dct2`. */
  lemma FiledKeys(p: Tables, f: Filing)
    ensures var r := Filed(p.0, p.1, p.2, f.0, f.1, f.2);
      forall v :: (v in r.0 <==> v in p.0 || v == f.0 || v == f.1)
        && (v in r.1 <==> v in p.1 || v == f.0 || v == f.1)
        && (v in r.2 <==> v in p.2 || v == f.0 || v == f.1)
        && (v in r.1 ==> r.1[v] == if v == f.0 || v == f.1 then v else p.1[v])
  {
    FileFacts(p.0, f.0, f.2.0);
    FileFacts(File(p.0, f.0, f.2.0), f.1, f.2.1);
    FileFacts(p.2, f.0, f.2.2);
    FileFacts(File(p.2, f.0, f.2.2), f.1, f.2.2);
    JointsProperties(p.1, f.0, f.1);
  }

  /** Filing adds exactly the joints as keys to each table, and files every
      joint under itself in `dct2`. */
  lemma {:induction false} FiledAllKeys(t: Tables, fs: seq<Filing>)
    ensures var r := FiledAll(t, fs);
      forall v :: (v in r.0 <==> v in t.0 || v in Joints(fs))
        && (v in r.1 <==> v in t.1 || v in Joints(fs))
        && (v in r.2 <==> v in t.2 || v in Joints(fs))
        && (v in r.1 ==> r.1[v] == if v in Joints(fs) then v else t.1[v])
    decreases |fs|
  {
    if |fs| > 0 {
      var n := |fs| - 1;
      var p, f, r := FiledAll(t, fs[..n]), fs[n], FiledAll(t, fs);
      assert r == Filed(p.0, p.1, p.2, f.0, f.1, f.2);
      FiledAllKeys(t, fs[..n]);
      JointsLast(fs);
      FiledKeys(p, f);
      forall v
        ensures (v in r.0 <==> v in t.0 || v in Joints(fs))
        ensures (v in r.1 <==> v in t.1 || v in Joints(fs))
        ensures (v in r.2 <==> v in t.2 || v in Joints(fs))
        ensures (v in r.1 ==> r.1[v] == if v in Joints(fs) then v else t.1[v])
      {
        assert v in Joints(fs) <==> v in Joints(fs[..n]) || v == f.0 || v == f.1;
      }
    }
  }

  /** Every text filed in a table opens as many braces as it closes. */
  ghost predicate AllBalanced(dct: map<Vec3, seq<string>>) {
    forall v :: v in dct ==> forall i :: 0 <= i < |dct[v]| ==> Balanced(dct[v][i])
  }

  /** Every printed line opens as many braces as it closes. */
  ghost predicate LinesBalanced(lines: seq<string>) {
    forall k :: 0 <= k < |lines| ==> Balanced(lines[k])
  }

  ghost predicate FilingsBalanced(fs: seq<Filing>) {
    forall k :: 0 <= k < |fs| ==> Balanced(fs[k].2.0) && Balanced(fs[k].2.1) && Balanced(fs[k].2.2)
  }

  lemma FileBalanced(dct: map<Vec3, seq<string>>, k: Vec3, s: string)
    requires AllBalanced(dct) && Balanced(s)
    ensures AllBalanced(File(dct, k, s))
  {
  }

  /** The three texts `Rod.D` files are balanced. */
  lemma EmittedBalanced(s: RodState, fmt: NumToString, m: Math)
    requires FmtBraceless(fmt) && LabelsPlain(s)
    ensures var e := Emitted(s, fmt, m); Balanced(e.0) && Balanced(e.1) && Balanced(e.2)
  {
    ShellPlain(s.v1, s.label1, Delta(s), m);
    ShellPlain(s.v2, s.label2, Delta(s), m);
    CutoutPlain(s, m);
    EmitBalanced(Shell1(s, m), fmt);
    EmitBalanced(Shell2(s, m), fmt);
    EmitBalanced(Cutout(s, m), fmt);
  }

  lemma FilingsOfBalanced(st: seq<RodState>, fmt: NumToString, m: Math)
    requires FmtBraceless(fmt) && forall k :: 0 <= k < |st| ==> LabelsPlain(st[k])
    ensures FilingsBalanced(FilingsOf(st, fmt, m))
  {
    forall k | 0 <= k < |st|
      ensures var e := Emitted(st[k], fmt, m); Balanced(e.0) && Balanced(e.1) && Balanced(e.2)
    {
      EmittedBalanced(st[k], fmt, m);
    }
  }

  /** Filing balanced texts keeps every bucket balanced. */
  lemma {:induction false} FiledAllBalanced(t: Tables, fs: seq<Filing>)
    requires AllBalanced(t.0) && AllBalanced(t.2) && FilingsBalanced(fs)
    ensures AllBalanced(FiledAll(t, fs).0) && AllBalanced(FiledAll(t, fs).2)
    decreases |fs|
  {
    if |fs| > 0 {
      var n := |fs| - 1;
      var p, f := FiledAll(t, fs[..n]), fs[n];
      assert FilingsBalanced(fs[..n]) by {
        forall k | 0 <= k < n
          ensures Balanced(fs[..n][k].2.0) && Balanced(fs[..n][k].2.1) && Balanced(fs[..n][k].2.2)
        {
          assert fs[..n][k] == fs[k];
        }
      }
      FiledAllBalanced(t, fs[..n]);
      FileBalanced(p.0, f.0, f.2.0);
      FileBalanced(File(p.0, f.0, f.2.0), f.1, f.2.1);
      FileBalanced(p.2, f.0, f.2.2);
      FileBalanced(File(p.2, f.0, f.2.2), f.1, f.2.2);
    }
  }

  /** The tables after `r.D(dct, dct2, dct3)` for rods in the given states. */
  function FiledRods(t: Tables, st: seq<RodState>, fmt: NumToString, m: Math): Tables
    decreases |st|
  {
    if |st| == 0 then t
    else
      var p, s := FiledRods(t, st[..|st| - 1], fmt, m), st[|st| - 1];
      Filed(p.0, p.1, p.2, s.original1, s.original2, Emitted(s, fmt, m))
  }

  lemma {:induction false} FiledRodsFilings(t: Tables, st: seq<RodState>, fmt: NumToString, m: Math)
    ensures FiledRods(t, st, fmt, m) == FiledAll(t, FilingsOf(st, fmt, m))
    decreases |st|
  {
    if |st| > 0 {
      var n := |st| - 1;
      FiledRodsFilings(t, st[..n], fmt, m);
      FilingsOfPrefix(st, n, fmt, m);
    }
  }

  lemma FilingsOfPrefix(st: seq<RodState>, n: nat, fmt: NumToString, m: Math)
    requires n <= |st|
    ensures FilingsOf(st, fmt, m)[..n] == FilingsOf(st[..n], fmt, m)
  {
  }

  lemma FiledRodsSnoc(t: Tables, st: seq<RodState>, i: nat, fmt: NumToString, m: Math)
    requires i < |st|
    ensures FiledRods(t, st[..i + 1], fmt, m) ==
      var p := FiledRods(t, st[..i], fmt, m);
      Filed(p.0, p.1, p.2, st[i].original1, st[i].original2, Emitted(st[i], fmt, m))
  {
    assert st[..i + 1][..i] == st[..i];
  }

  /** `for r in T.rods(): r.D(dct, dct2, dct3)`. */
  method CollectJoints(rods: seq<Rod>, b: Buckets, fmt: NumToString, m: Math, ghost st: seq<RodState>)
    requires st == StatesOf(rods)
    modifies b
    ensures (b.shells, b.joints, b.cutouts) == FiledRods(old((b.shells, b.joints, b.cutouts)), st, fmt, m)
  {
    ghost var t := (b.shells, b.joints, b.cutouts);
    for i := 0 to |rods|
      invariant (b.shells, b.joints, b.cutouts) == FiledRods(t, st[..i], fmt, m)
    {
      FiledRodsSnoc(t, st, i, fmt, m);
      rods[i].D(b, fmt, m);
    }
    assert st[..|rods|] == st;
  }

  /** `dct.keys()`: every key once, in an order the model leaves open. */
  method DictKeys(d: map<Vec3, seq<string>>) returns (keys: seq<Vec3>)
    ensures NoDup(keys)
    ensures forall v :: v in d <==> v in keys
  {
    keys := [];
    var rest := d.Keys;
    while rest != {}
      invariant NoDup(keys)
      invariant forall v :: v in d <==> v in keys || v in rest
      invariant forall v :: v in rest ==> v !in keys
      decreases |rest|
    {
      var v :| v in rest;
      keys := keys + [v];
      rest := rest - {v};
    }
  }

  // ------------------------------------------------------------ pieces

  /** `gap` and `offsets`: where the first four joints are laid out. */
  const Gap: real := 60.0
  const Offsets: seq<(real, real)> := [(0.0, 0.0), (Gap, 0.0), (Gap, Gap), (0.0, Gap)]

  /** The literal parts of a joint's text: `'\ndifference() {\nunion() {\n'`,
      `'\n}\n' + 'union() {\n'` and `'\n}\n}'`. */
  const PieceOpen: string := "\ndifference() {\nunion() {\n"
  const PieceMiddle: string := "\n}\nunion() {\n"
  const PieceClose: string := "\n}\n}"

  /** The text printed for one joint v: a translation taking v to the
      offset, then its sleeves minus its bores. */
  function PieceText(offset: (real, real), v: Vec3, shells: seq<string>, cutouts: seq<string>, fmt: NumToString): string {
    MakeTranslate(Sub(Vec3(offset.0, offset.1, 0.0), v), fmt) + PieceOpen + Join(shells, "\n") + PieceMiddle +
    Join(cutouts, "\n") + PieceClose
  }

  lemma BracelessCounts(s: string)
    requires Braceless(s)
    ensures Count(s, '{') == 0 && Count(s, '}') == 0
  {
    CountAbsent(s, '{');
    CountAbsent(s, '}');
  }

  /** How many braces a concatenation holds. */
  lemma Glue(a: string, b: string)
    ensures Count(a + b, '{') == Count(a, '{') + Count(b, '{')
    ensures Count(a + b, '}') == Count(a, '}') + Count(b, '}')
  {
    CountConcat(a, b, '{');
    CountConcat(a, b, '}');
  }

  lemma PieceWords()
    ensures Braceless("\ndifference() ") && Braceless("union() ") && Braceless("\n")
  {
  }

  lemma LineBraces()
    ensures Count("{\n", '{') == 1 && Count("{\n", '}') == 0
    ensures Count("}\n", '{') == 0 && Count("}\n", '}') == 1
    ensures Count("}", '{') == 0 && Count("}", '}') == 1
  {
  }

  lemma PieceSplit()
    ensures PieceOpen == "\ndifference() " + "{\n" + "union() " + "{\n"
    ensures PieceMiddle == "\n" + "}\n" + "union() " + "{\n"
    ensures PieceClose == "\n" + "}\n" + "}"
  {
  }

  /** Braceless text, an opening, braceless text, an opening. */
  lemma TwoOpenings(a: string, o: string, c: string)
    requires Braceless(a) && Braceless(c) && Count(o, '{') == 1 && Count(o, '}') == 0
    ensures Count(a + o + c + o, '{') == 2 && Count(a + o + c + o, '}') == 0
  {
    BracelessCounts(a);
    BracelessCounts(c);
    Glue(a, o);
    Glue(a + o, c);
    Glue(a + o + c, o);
  }

  /** Braceless text, a closing, braceless text, an opening. */
  lemma CloseThenOpen(a: string, k: string, c: string, o: string)
    requires Braceless(a) && Braceless(c) && Count(k, '{') == 0 && Count(k, '}') == 1
    requires Count(o, '{') == 1 && Count(o, '}') == 0
    ensures Count(a + k + c + o, '{') == 1 && Count(a + k + c + o, '}') == 1
  {
    BracelessCounts(a);
    BracelessCounts(c);
    Glue(a, k);
    Glue(a + k, c);
    Glue(a + k + c, o);
  }

  /** Braceless text and two closings. */
  lemma TwoClosings(a: string, k: string, z: string)
    requires Braceless(a) && Count(k, '{') == 0 && Count(k, '}') == 1 && Count(z, '{') == 0 && Count(z, '}') == 1
    ensures Count(a + k + z, '{') == 0 && Count(a + k + z, '}') == 2
  {
    BracelessCounts(a);
    Glue(a, k);
    Glue(a + k, z);
  }

  lemma PieceBraces()
    ensures Count(PieceOpen, '{') == 2 && Count(PieceOpen, '}') == 0
    ensures Count(PieceMiddle, '{') == 1 && Count(PieceMiddle, '}') == 1
    ensures Count(PieceClose, '{') == 0 && Count(PieceClose, '}') == 2
  {
    PieceSplit();
    PieceWords();
    LineBraces();
    TwoOpenings("\ndifference() ", "{\n", "union() ");
    CloseThenOpen("\n", "}\n", "union() ", "{\n");
    TwoClosings("\n", "}\n", "}");
  }

  /** Text of known brace counts around two balanced parts. */
  lemma FrameBalanced(t: string, o: string, j1: string, mid: string, j2: string, z: string)
    requires Braceless(t) && Balanced(j1) && Balanced(j2)
    requires Count(o, '{') == 2 && Count(o, '}') == 0
    requires Count(mid, '{') == 1 && Count(mid, '}') == 1
    requires Count(z, '{') == 0 && Count(z, '}') == 2
    ensures Balanced(t + o + j1 + mid + j2 + z)
  {
    BracelessCounts(t);
    Glue(t, o);
    Glue(t + o, j1);
    Glue(t + o + j1, mid);
    Glue(t + o + j1 + mid, j2);
    Glue(t + o + j1 + mid + j2, z);
  }

  /** A joint's text is balanced when numbers print without braces and
      its sleeve and bore texts are balanced. */
  lemma PieceBalanced(offset: (real, real), v: Vec3, shells: seq<string>, cutouts: seq<string>, fmt: NumToString)
    requires FmtBraceless(fmt)
    requires forall i :: 0 <= i < |shells| ==> Balanced(shells[i])
    requires forall i :: 0 <= i < |cutouts| ==> Balanced(cutouts[i])
    ensures Balanced(PieceText(offset, v, shells, cutouts, fmt))
  {
    var t := MakeTranslate(Sub(Vec3(offset.0, offset.1, 0.0), v), fmt);
    assert Braceless(t);
    PieceWords();
    JoinBalanced(shells, "\n");
    JoinBalanced(cutouts, "\n");
    PieceBraces();
    FrameBalanced(t, PieceOpen, Join(shells, "\n"), PieceMiddle, Join(cutouts, "\n"), PieceClose);
  }

  /** `for key, offset in zip(dct.keys(), offsets)`: one text per joint,
      for at most as many joints as there are offsets. */
  method PieceTexts(keys: seq<Vec3>, b: Buckets, fmt: NumToString) returns (texts: seq<string>)
    requires forall k :: 0 <= k < |keys| ==> keys[k] in b.shells && keys[k] in b.joints && keys[k] in b.cutouts
    ensures |texts| == if |keys| < |Offsets| then |keys| else |Offsets|
    ensures forall k :: 0 <= k < |texts| ==>
      texts[k] == PieceText(Offsets[k], b.joints[keys[k]], b.shells[keys[k]], b.cutouts[keys[k]], fmt)
    ensures FmtBraceless(fmt) && AllBalanced(b.shells) && AllBalanced(b.cutouts) ==> LinesBalanced(texts)
  {
    var n := if |keys| < |Offsets| then |keys| else |Offsets|;
    texts := [];
    for i := 0 to n
      invariant |texts| == i
      invariant forall k :: 0 <= k < i ==>
        texts[k] == PieceText(Offsets[k], b.joints[keys[k]], b.shells[keys[k]], b.cutouts[keys[k]], fmt)
    {
      var key := keys[i];
      texts := texts + [PieceText(Offsets[i], b.joints[key], b.shells[key], b.cutouts[key], fmt)];
    }
    if FmtBraceless(fmt) && AllBalanced(b.shells) && AllBalanced(b.cutouts) {
      forall k | 0 <= k < |texts|
        ensures Balanced(texts[k])
      {
        PieceBalanced(Offsets[k], b.joints[keys[k]], b.shells[keys[k]], b.cutouts[keys[k]], fmt);
      }
    }
  }

  /** The original vertices of the rods: the joints. */
  function Originals(st: seq<RodState>): set<Vec3> {
    (set k | 0 <= k < |st| :: st[k].original1) + (set k | 0 <= k < |st| :: st[k].original2)
  }

  lemma JointsOfFilings(st: seq<RodState>, fmt: NumToString, m: Math)
    ensures Joints(FilingsOf(st, fmt, m)) == Originals(st)
  {
    var fs := FilingsOf(st, fmt, m);
    assert forall k :: 0 <= k < |st| ==> fs[k].0 == st[k].original1 && fs[k].1 == st[k].original2;
  }

  /** The first half of the `--pieces` branch: `dct`, `dct2` and `dct3`
      start empty and every rod files its texts under its two joints.
      Afterwards each table is keyed by exactly the joints, a joint maps
      to itself, and with braceless numbers and plain labels every filed
      text is balanced. */
  method CollectAll(rods: seq<Rod>, fmt: NumToString, m: Math, ghost st: seq<RodState>) returns (b: Buckets)
    requires st == StatesOf(rods)
    ensures fresh(b)
    ensures (b.shells, b.joints, b.cutouts) == FiledRods((map[], map[], map[]), st, fmt, m)
    ensures forall v ::
      && (v in b.shells <==> v in Originals(st)) && (v in b.joints <==> v in Originals(st))
      && (v in b.cutouts <==> v in Originals(st)) && (v in b.joints ==> b.joints[v] == v)
    ensures FmtBraceless(fmt) && (forall k :: 0 <= k < |st| ==> LabelsPlain(st[k])) ==>
      AllBalanced(b.shells) && AllBalanced(b.cutouts)
  {
    b := new Buckets();
    CollectJoints(rods, b, fmt, m, st);
    CollectedTables(st, fmt, m);
  }

  /** The joints' texts laid out in the dict order `keys`: every joint of
      the rods listed once, and text k, for each of the first four, moves
      joint `keys[k]` to offset k and cuts every bore filed under it out of
      the union of every sleeve filed under it. */
  ghost predicate Laid(texts: seq<string>, keys: seq<Vec3>, st: seq<RodState>, fmt: NumToString, m: Math) {
    var t := FiledRods((map[], map[], map[]), st, fmt, m);
    && NoDup(keys) && (forall v :: v in keys <==> v in Originals(st))
    && |texts| == (if |keys| < |Offsets| then |keys| else |Offsets|)
    && forall k :: 0 <= k < |texts| ==>
      keys[k] in t.0 && keys[k] in t.2 && texts[k] == PieceText(Offsets[k], keys[k], t.0[keys[k]], t.2[keys[k]], fmt)
  }

  /** The `--pieces` branch for the rods `T.rods()` returns: file every
      rod's texts under its joints, then print a text for each of the first
      four joints, in the order `dct.keys()` gives. */
  method Pieces(rods: seq<Rod>, fmt: NumToString, m: Math, ghost st: seq<RodState>) returns (texts: seq<string>, keys: seq<Vec3>)
    requires st == StatesOf(rods)
    ensures Laid(texts, keys, st, fmt, m)
    ensures |texts| == if |Originals(st)| < 4 then |Originals(st)| else 4
    ensures FmtBraceless(fmt) && (forall k :: 0 <= k < |st| ==> LabelsPlain(st[k])) ==> LinesBalanced(texts)
  {
    var b := CollectAll(rods, fmt, m, st);
    keys := DictKeys(b.shells);
    UniqueCount(keys, Originals(st));
    texts := PieceTexts(keys, b, fmt);
    LaidOf(texts, keys, (b.shells, b.joints, b.cutouts), st, fmt, m);
  }

  /** The texts `PieceTexts` makes from the filed tables, in the order of
      their keys, are laid out. */
  lemma LaidOf(texts: seq<string>, keys: seq<Vec3>, t: Tables, st: seq<RodState>, fmt: NumToString, m: Math)
    requires t == FiledRods((map[], map[], map[]), st, fmt, m)
    requires NoDup(keys) && forall v :: v in t.0 <==> v in keys
    requires forall k :: 0 <= k < |keys| ==> keys[k] in t.0 && keys[k] in t.1 && keys[k] in t.2
    requires |texts| == if |keys| < |Offsets| then |keys| else |Offsets|
    requires forall k :: 0 <= k < |texts| ==> texts[k] == PieceText(Offsets[k], t.1[keys[k]], t.0[keys[k]], t.2[keys[k]], fmt)
    ensures Laid(texts, keys, st, fmt, m)
  {
    CollectedTables(st, fmt, m);
  }

  /** After every rod is filed, each table is keyed by exactly the joints,
      a joint maps to itself, and with braceless numbers and plain labels
      every filed text is balanced. */
  lemma CollectedTables(st: seq<RodState>, fmt: NumToString, m: Math)
    ensures var r := FiledRods((map[], map[], map[]), st, fmt, m);
      forall v :: (v in r.0 <==> v in Originals(st)) && (v in r.1 <==> v in Originals(st))
        && (v in r.2 <==> v in Originals(st)) && (v in r.1 ==> r.1[v] == v)
    ensures FmtBraceless(fmt) && (forall k :: 0 <= k < |st| ==> LabelsPlain(st[k])) ==>
      var r := FiledRods((map[], map[], map[]), st, fmt, m);
      AllBalanced(r.0) && AllBalanced(r.2)
  {
    var fs := FilingsOf(st, fmt, m);
    FiledRodsFilings((map[], map[], map[]), st, fmt, m);
    FiledAllKeys((map[], map[], map[]), fs);
    JointsOfFilings(st, fmt, m);
    if FmtBraceless(fmt) && (forall k :: 0 <= k < |st| ==> LabelsPlain(st[k])) {
      FilingsOfBalanced(st, fmt, m);
      FiledAllBalanced((map[], map[], map[]), fs);
    }
  }

  /** A list without repeats that holds exactly the members of a set is as
      long as the set is large. */
  lemma {:induction false} UniqueCount(keys: seq<Vec3>, s: set<Vec3>)
    requires NoDup(keys) && forall v :: v in s <==> v in keys
    ensures |keys| == |s|
    decreases |keys|
  {
    if |keys| > 0 {
      var n := |keys| - 1;
      assert forall v :: v in s - {keys[n]} <==> v in keys[..n];
      UniqueCount(keys[..n], s - {keys[n]});
    }
  }

  // -------------------------------------------------------------- main

  /** The labels `rods()` gives print plainly, also after the ends moved. */
  lemma BuiltLabels(verts: seq<Vec3>, edges: seq<Edge>, st: seq<RodState>, m: Math)
    requires Reached(verts, edges) == |edges|
    requires SameBut(st, BuiltRods(verts, edges, |edges|, m))
    ensures forall k :: 0 <= k < |st| ==> LabelsPlain(st[k])
  {
    forall k | 0 <= k < |st|
      ensures LabelsPlain(st[k])
    {
      BuiltLabelsPlain(k);
    }
  }

  /** Rods that differ at most in their ends have the same joints. */
  lemma OriginalsSameBut(a: seq<RodState>, b: seq<RodState>)
    requires SameBut(a, b)
    ensures Originals(a) == Originals(b)
  {
    assert forall k :: 0 <= k < |a| ==> a[k].original1 == b[k].original1 && a[k].original2 == b[k].original2;
  }

  /** The first lines of `main()`: `T = Octohedron(12 * inch - 2 * EXTEND)`
      and `T.simulated_anneal(T.fitness, 500)`. */
  method Annealed(m: Math) returns (g: RodGraph, best: Result<seq<real>, AnnealError<GraphError>>)
    ensures fresh(g) && g.Ready() && g.verts == OctoVertices(OctoSize, m) && g.edges == OctoEdges
    ensures SameBut(g.States(), BuiltRods(g.verts, g.edges, |g.edges|, m))
    ensures best.Success? ==>
      var before, after := FitnessOf(BuiltRods(g.verts, g.edges, |g.edges|, m), g.verts, g.terms, m), FitnessOf(g.States(), g.verts, g.terms, m);
      before.Success? && after.Success? && after.value <= before.value
  {
    g := NewOctohedron(OctoSize, m);
    best := Optimise(g, Iterations, m);
  }

  /** `T.rods()` once the graph is built: the cached rods, nothing changed. */
  method CachedRods(g: RodGraph, m: Math) returns (rods: seq<Rod>)
    requires g.Ready()
    modifies g
    ensures g.Ready() && g.States() == old(g.States()) && g.terms == old(g.terms)
    ensures StatesOf(rods) == g.States()
  {
    var r := g.Rods(m);
    rods := r.value;
  }

  /** `print "$fn = 20;"` and, with `--pieces`, the joints one by one. */
  method PiecesLines(g: RodGraph, fmt: NumToString, m: Math) returns (out: seq<string>, keys: seq<Vec3>)
    requires g.Ready() && Reached(g.verts, g.edges) == |g.edges|
    requires SameBut(g.States(), BuiltRods(g.verts, g.edges, |g.edges|, m))
    modifies g
    ensures g.Ready() && g.States() == old(g.States()) && g.terms == old(g.terms)
    ensures |out| >= 1 && out[0] == Resolution && Laid(out[1..], keys, g.States(), fmt, m)
    ensures var joints := Originals(BuiltRods(g.verts, g.edges, |g.edges|, m));
      |out| == 1 + if |joints| < 4 then |joints| else 4
    ensures FmtBraceless(fmt) ==> LinesBalanced(out)
  {
    ghost var st := g.States();
    var rods := CachedRods(g, m);
    out, keys := PiecesAfter(rods, fmt, m, st, g.verts, g.edges);
  }

  /** The lines of the `--pieces` branch for the rods of a built graph
      whose ends may have moved. */
  method PiecesAfter(rods: seq<Rod>, fmt: NumToString, m: Math, ghost st: seq<RodState>,
                     ghost verts: seq<Vec3>, ghost edges: seq<Edge>) returns (out: seq<string>, keys: seq<Vec3>)
    requires st == StatesOf(rods) && Reached(verts, edges) == |edges|
    requires SameBut(st, BuiltRods(verts, edges, |edges|, m))
    ensures |out| >= 1 && out[0] == Resolution && Laid(out[1..], keys, st, fmt, m)
    ensures var joints := Originals(BuiltRods(verts, edges, |edges|, m));
      |out| == 1 + if |joints| < 4 then |joints| else 4
    ensures FmtBraceless(fmt) ==> LinesBalanced(out)
  {
    BuiltLabels(verts, edges, st, m);
    OriginalsSameBut(st, BuiltRods(verts, edges, |edges|, m));
    var texts;
    texts, keys := Pieces(rods, fmt, m, st);
    if FmtBraceless(fmt) {
      HeadedBalanced(texts);
    }
    out := [Resolution] + texts;
    HeadedLaid(texts, keys, st, fmt, m);
  }

  /** The pieces keep their layout behind `$fn = 20;`. */
  lemma HeadedLaid(texts: seq<string>, keys: seq<Vec3>, st: seq<RodState>, fmt: NumToString, m: Math)
    requires Laid(texts, keys, st, fmt, m)
    ensures Laid(([Resolution] + texts)[1..], keys, st, fmt, m)
  {
    assert ([Resolution] + texts)[1..] == texts;
  }

  /** `print "$fn = 20;"` and then the whole scene, `T.openscad()`. */
  method SceneLines(g: RodGraph, fmt: NumToString, m: Math) returns (out: seq<string>)
    requires g.Ready() && Reached(g.verts, g.edges) == |g.edges|
    requires SameBut(g.States(), BuiltRods(g.verts, g.edges, |g.edges|, m))
    ensures out == [Resolution, Openscad(g.States(), fmt, m)]
    ensures FmtBraceless(fmt) ==> LinesBalanced(out)
  {
    var st := g.States();
    if FmtBraceless(fmt) {
      GraphTextBalanced(g.verts, g.edges, st, fmt, m);
      assert LinesBalanced([Openscad(st, fmt, m)]);
      HeadedBalanced([Openscad(st, fmt, m)]);
    }
    out := [Resolution] + [Openscad(st, fmt, m)];
  }

  /** `$fn = 20;` has no braces. */
  lemma ResolutionBraceless()
    ensures Braceless(Resolution)
  {
  }

  /** A balanced line put in front of balanced lines keeps them balanced. */
  lemma HeadBalanced(head: string, rest: seq<string>)
    requires Balanced(head) && LinesBalanced(rest)
    ensures LinesBalanced([head] + rest)
  {
    assert forall k :: 1 <= k < 1 + |rest| ==> ([head] + rest)[k] == rest[k - 1];
  }

  /** So `$fn = 20;` in front of balanced lines keeps them balanced. */
  lemma HeadedBalanced(rest: seq<string>)
    requires LinesBalanced(rest)
    ensures LinesBalanced([Resolution] + rest)
  {
    ResolutionBraceless();
    BracelessBalanced(Resolution);
    HeadBalanced(Resolution, rest);
  }

  /** `main()`: build T, anneal its rods, print `$fn = 20;` and then
      either the whole scene or, with `--pieces`, the joints one by one.
      An anneal that raises ends the run with its error. */
  method Run(pieces: bool, fmt: NumToString, m: Math) returns (g: RodGraph, out: Result<seq<string>, AnnealError<GraphError>>)
    ensures g.Ready() && g.verts == OctoVertices(OctoSize, m) && g.edges == OctoEdges
    ensures SameBut(g.States(), BuiltRods(g.verts, g.edges, |g.edges|, m))
    ensures out.Success? ==>
      var before, after := FitnessOf(BuiltRods(g.verts, g.edges, |g.edges|, m), g.verts, g.terms, m), FitnessOf(g.States(), g.verts, g.terms, m);
      before.Success? && after.Success? && after.value <= before.value
    ensures out.Success? ==> |out.value| >= 1 && out.value[0] == Resolution
    ensures out.Success? && !pieces ==> out.value == [Resolution, Openscad(g.States(), fmt, m)]
    ensures out.Success? && pieces ==>
      var joints := Originals(BuiltRods(g.verts, g.edges, |g.edges|, m));
      |out.value| == 1 + if |joints| < 4 then |joints| else 4
    ensures out.Success? && pieces ==> exists keys :: Laid(out.value[1..], keys, g.States(), fmt, m)
    ensures out.Success? && FmtBraceless(fmt) ==> LinesBalanced(out.value)
  {
    var best;
    g, best := Annealed(m);
    if best.Failure? {
      return g, Failure(best.error);
    }
    OctoTable();
    ReachedAll(g.verts, g.edges);
    var lines;
    if pieces {
      var keys;
      lines, keys := PiecesLines(g, fmt, m);
    } else {
      lines := SceneLines(g, fmt, m);
    }
    return g, Success(lines);
  }
}
