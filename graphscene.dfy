/** The OpenSCAD scene of a rod graph (`parts_positive`, `parts_negative`,
    `openscad`): every rod's sleeves, minus every rod's bore, with a red
    hidden copy of the bores for viewing. Each call of `parts_negative`
    builds fresh nodes, so no child is ever dropped as a duplicate and the
    scene is a plain `Scene` value. */
module GraphScenes {
  import opened Wrappers
  import opened Vectors
  import opened Numerics
  import opened Texts
  import opened Scene
  import opened Rods
  import opened RodGraphs
  import opened EdgeTables

  /** `parts_positive`: one `parts_shell` per rod, in rod order. */
  function PartsPositive(st: seq<RodState>, m: Math): Scene {
    Box(Union, Zero, seq(|st|, k requires 0 <= k < |st| => Shells(st[k], m)))
  }

  /** `parts_negative`: one `parts_cutout` per rod, in rod order. */
  function PartsNegative(st: seq<RodState>, m: Math): Scene {
    Box(Union, Zero, seq(|st|, k requires 0 <= k < |st| => Cutout(st[k], m)))
  }

  /** The tree `openscad` emits. */
  function GraphScene(st: seq<RodState>, m: Math): Scene {
    Box(Union, Zero, [
      Box(Hide, Zero, [Box(Color, Vec3(1.0, 0.0, 0.0), [PartsNegative(st, m)])]),
      Box(Difference, Zero, [PartsPositive(st, m), PartsNegative(st, m)])])
  }

  /** `RodGraph.openscad()`. */
  function Openscad(st: seq<RodState>, fmt: NumToString, m: Math): string {
    EmitScene(GraphScene(st, m), fmt)
  }

  /** What the scene holds: the bores shown once in red and hidden, and the
      sleeves minus the same bores; rod k contributes its two sleeves, at
      its current ends, and one bore at its current midpoint. */
  lemma GraphSceneShape(st: seq<RodState>, m: Math, k: nat)
    requires k < |st|
    ensures var g := GraphScene(st, m);
      var neg := g.kids[0].kids[0].kids[0];
      var diff := g.kids[1];
      && g.op == Union && |g.kids| == 2
      && g.kids[0].op == Hide && g.kids[0].kids[0].op == Color && g.kids[0].kids[0].at == Vec3(1.0, 0.0, 0.0)
      && diff.op == Difference && diff.kids == [PartsPositive(st, m), neg]
      && |diff.kids[0].kids| == |neg.kids| == |st|
      && diff.kids[0].kids[k].kids[0].at == st[k].v1
      && diff.kids[0].kids[k].kids[1].at == st[k].v2
      && neg.kids[k].Box? && neg.kids[k].at == Midpoint(st[k].v1, st[k].v2)
  {
  }

  /** A rod's labels print without braces. */
  predicate LabelsPlain(s: RodState) {
    (s.label1.Some? ==> Braceless(s.label1.value)) && (s.label2.Some? ==> Braceless(s.label2.value))
  }

  lemma LabelCopyPlain(angle: real, diam: real, tag: string)
    requires Braceless(tag)
    ensures LabelsBraceless(LabelCopy(angle, diam, tag))
  {
    var text := Leaf(Text(tag, 5.0, 3.0));
    assert LabelsBraceless(text);
    var r1 := Box(Rotate(-90.0), Vec3(1.0, 0.0, 0.0), [text]);
    assert LabelsBraceless(r1);
    var r2 := Box(Rotate(-90.0), Vec3(0.0, 1.0, 0.0), [r1]);
    assert LabelsBraceless(r2);
    var t := Box(Translate, Vec3(-2.5, 0.5 * diam, 0.0), [r2]);
    assert LabelsBraceless(t);
  }

  lemma ShellPlain(center: Vec3, tag: Option<string>, delta: Vec3, m: Math)
    requires tag.Some? ==> Braceless(tag.value)
    ensures LabelsBraceless(ShellAt(center, tag, delta, m))
  {
    var cylinder := Box(Translate, Vec3(0.0, 0.0, -0.5 * Sleeve), [
      Leaf(Cylinder(Sleeve, SleeveWidth(), None, None, None, None, None))]);
    assert LabelsBraceless(cylinder);
    var part := AddText(cylinder, SleeveWidth(), tag).value;
    if tag.Some? {
      var ring := LabelRing(SleeveWidth(), tag).value.value;
      forall k | 0 <= k < 4
        ensures LabelsBraceless(ring.kids[k])
      {
        LabelCopyPlain(90.0 * k as real, SleeveWidth(), tag.value);
      }
      assert LabelsBraceless(ring);
    }
    assert LabelsBraceless(part);
    var axis := Cross(Vec3(0.0, 0.0, 1.0), delta);
    var theta := m.atan2(Length(axis, m), delta.z) * 180.0 / m.pi;
    assert LabelsBraceless(Box(Rotate(theta), axis, [part]));
  }

  lemma CutoutPlain(s: RodState, m: Math)
    ensures LabelsBraceless(Cutout(s, m))
  {
    var length := RodLength(s, m);
    var cylinder := Box(Translate, Vec3(0.0, 0.0, -0.5 * length), [
      Leaf(Cylinder(length, BoreWidth(), None, None, None, None, None))]);
    assert LabelsBraceless(cylinder);
    var axis := Cross(Vec3(0.0, 0.0, 1.0), Delta(s));
    var theta := m.atan2(Length(axis, m), Delta(s).z) * 180.0 / m.pi;
    assert LabelsBraceless(Box(Rotate(theta), axis, [cylinder]));
  }

  /** The text of a graph opens as many braces as it closes, provided
      numbers and labels print without braces. */
  lemma OpenscadBalanced(st: seq<RodState>, fmt: NumToString, m: Math)
    requires FmtBraceless(fmt)
    requires forall k :: 0 <= k < |st| ==> LabelsPlain(st[k])
    ensures Balanced(Openscad(st, fmt, m))
  {
    forall k | 0 <= k < |st|
      ensures LabelsBraceless(Shells(st[k], m)) && LabelsBraceless(Cutout(st[k], m))
    {
      ShellPlain(st[k].v1, st[k].label1, Delta(st[k]), m);
      ShellPlain(st[k].v2, st[k].label2, Delta(st[k]), m);
      CutoutPlain(st[k], m);
    }
    var pos, neg := PartsPositive(st, m), PartsNegative(st, m);
    assert LabelsBraceless(pos) && LabelsBraceless(neg);
    var hidden := Box(Hide, Zero, [Box(Color, Vec3(1.0, 0.0, 0.0), [neg])]);
    assert LabelsBraceless(Box(Color, Vec3(1.0, 0.0, 0.0), [neg]));
    assert LabelsBraceless(hidden);
    assert LabelsBraceless(Box(Difference, Zero, [pos, neg]));
    EmitBalanced(GraphScene(st, m), fmt);
  }

  /** The labels `rods()` gives are digits, `_`, `<` and `>`. */
  lemma BuiltLabelsPlain(k: nat)
    ensures Braceless(LabelOut(k)) && Braceless(LabelIn(k))
  {
    var digits := NatToString(k);
    assert '{' !in digits && '}' !in digits;
    assert LabelOut(k) == digits + "_>";
    assert LabelIn(k) == "<_" + digits;
  }

  /** So the text of any graph built from its tables is balanced, wherever
      its rods have since moved. */
  lemma GraphTextBalanced(verts: seq<Vec3>, edges: seq<Edge>, st: seq<RodState>, fmt: NumToString, m: Math)
    requires Reached(verts, edges) == |edges|
    requires SameBut(st, BuiltRods(verts, edges, |edges|, m))
    requires FmtBraceless(fmt)
    ensures Balanced(Openscad(st, fmt, m))
  {
    var built := BuiltRods(verts, edges, |edges|, m);
    forall k | 0 <= k < |st|
      ensures LabelsPlain(st[k])
    {
      assert st[k].label1 == built[k].label1 == Some(LabelOut(k));
      assert st[k].label2 == built[k].label2 == Some(LabelIn(k));
      BuiltLabelsPlain(k);
    }
    OpenscadBalanced(st, fmt, m);
  }
}
