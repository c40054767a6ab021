/** The text that mechlib's node classes emit, as a pure function of a
    node-tree value. `Scene` is the value a tree of mechlib nodes stands for
    (see Mechlib.Node.Tree); `EmitScene` is the family of `openscad()`
    methods. How Python prints a number is the parameter `fmt`. */
module Scene {
  import opened Wrappers
  import opened Vectors
  import opened Texts

  type NumToString = real -> string

  /** The container classes; `Rotate` carries its angle `theta`. */
  datatype Op = Union | Color | Intersection | Difference | Translate | Hide | Rotate(theta: real)

  /** The leaf classes `Rect`, `Cylinder` and `Text`. */
  datatype Prim =
    | Rect(dims: Vec3)
    | Cylinder(h: real, d: real, r: Option<real>, d1: Option<real>, d2: Option<real>,
               r1: Option<real>, r2: Option<real>)
    | Text(text: string, size: real, height: real)

  /** A leaf, or a container with its coordinates (`Rotate`: its axis) and its children. */
  datatype Scene = Leaf(prim: Prim) | Box(op: Op, at: Vec3, kids: seq<Scene>)

  /** The shape "<head>{k}, {k+1}, {k+2}<tail>" shared by the `Color`,
      `Translate` and `Rect` docstrings (k = 0) and the axis part of the
      `Rotate` format string (k = 1). */
  function Bracketed(head: string, tail: string, k: nat): Template {
    [Lit(head)] + ([Slot(k), Lit(", ")] + ([Slot(k + 1), Lit(", ")] + ([Slot(k + 2), Lit(tail)] + [])))
  }

  lemma FillSlotLit(k: nat, text: string, t: Template, args: seq<string>)
    requires k < |args| && SlotsBelow(t, |args|)
    ensures SlotsBelow([Slot(k), Lit(text)] + t, |args|)
    ensures Fill([Slot(k), Lit(text)] + t, args) == args[k] + (text + Fill(t, args))
  {
    FillLit(text, t, args);
    FillSlot(k, [Lit(text)] + t, args);
    assert [Slot(k)] + ([Lit(text)] + t) == [Slot(k), Lit(text)] + t;
  }

  lemma FillBracketed(head: string, tail: string, k: nat, args: seq<string>)
    requires k + 2 < |args|
    ensures SlotsBelow(Bracketed(head, tail, k), |args|)
    ensures Fill(Bracketed(head, tail, k), args) ==
      head + (args[k] + (", " + (args[k + 1] + (", " + (args[k + 2] + tail)))))
  {
    assert tail + Fill([], args) == tail;
    FillSlotLit(k + 2, tail, [], args);
    FillSlotLit(k + 1, ", ", [Slot(k + 2), Lit(tail)] + [], args);
    FillSlotLit(k, ", ", [Slot(k + 1), Lit(", ")] + ([Slot(k + 2), Lit(tail)] + []), args);
    FillLit(head, [Slot(k), Lit(", ")] + ([Slot(k + 1), Lit(", ")] + ([Slot(k + 2), Lit(tail)] + [])), args);
  }

  lemma BracketedBraceless(head: string, tail: string, k: nat)
    requires Braceless(head) && Braceless(tail)
    ensures LitsBraceless(Bracketed(head, tail, k))
  {
    var t := Bracketed(head, tail, k);
    assert t == [Lit(head), Slot(k), Lit(", "), Slot(k + 1), Lit(", "), Slot(k + 2), Lit(tail)];
  }

  const ColorTemplate: Template := Bracketed("color([", "])", 0)
  const TranslateTemplate: Template := Bracketed("translate([", "])", 0)
  const RectTemplate: Template := Bracketed("cube([", "])", 0)
  // The `Text` docstring (slots: text, size, height), cut around its two braces.
  const TextLead := "\n    translate([0, 0, -.5*"
  const TextExtrude := "]) linear_extrude(height="
  const TextGap := ")\n    "
  const TextCall := "text(text=\""
  const TextSize := "\", size="
  const TextAlign := ", halign=\"center\");"
  const TextHead: Template := [Lit(TextLead), Slot(2), Lit(TextExtrude), Slot(2), Lit(TextGap)]
  const TextBody: Template := [Lit(TextCall), Slot(0), Lit(TextSize), Slot(1), Lit(TextAlign)]
  const TextTemplate: Template := TextHead + [Lit("{")] + TextBody + [Lit("}"), Lit("\n    ")]
  // The format string of `Rotate.openscad` (slots: theta, x, y, z).
  const RotateHead: Template := [Lit("rotate("), Slot(0)] + Bracketed(", [", "]) ", 1)
  const RotateTemplate: Template := RotateHead + [Lit("{"), Lit("\n")]

  /** The docstring of each container class other than `Rotate`. */
  function OpTemplate(op: Op): (t: Template)
    requires !op.Rotate?
    ensures SlotsBelow(t, 3)
  {
    match op
    case Union => [Lit("union()")]
    case Color => ColorTemplate
    case Intersection => [Lit("intersection()")]
    case Difference => [Lit("difference()")]
    case Translate => TranslateTemplate
    case Hide => [Lit("%union()")]
  }

  function Nums(v: Vec3, fmt: NumToString): seq<string> {
    [fmt(v.x), fmt(v.y), fmt(v.z)]
  }

  /** mechlib `Vector.format(fmtstr)`. */
  function Format(v: Vec3, t: Template, fmt: NumToString): string
    requires SlotsBelow(t, 3)
  {
    Fill(t, Nums(v, fmt))
  }

  /** mechlib `Vector.make_translate`. */
  function MakeTranslate(v: Vec3, fmt: NumToString): (r: string)
    ensures r == "translate([" + (fmt(v.x) + (", " + (fmt(v.y) + (", " + (fmt(v.z) + "])")))))
  {
    FillBracketed("translate([", "])", 0, Nums(v, fmt));
    Format(v, TranslateTemplate, fmt)
  }

  /** `Base.openscad`: the docstring filled with x, y, z, then ";". */
  function BaseOpenscad(t: Template, at: Vec3, fmt: NumToString): (r: string)
    requires SlotsBelow(t, 3)
    ensures |r| >= 1 && r[|r| - 1] == ';' && r[..|r| - 1] == Format(at, t, fmt)
  {
    Format(at, t, fmt) + ";"
  }

  /** How `str.format` prints an optional number: `None` or the number. */
  function OptText(o: Option<real>, fmt: NumToString): string {
    match o
    case None => "None"
    case Some(v) => fmt(v)
  }

  /** The parameter list of `Cylinder.openscad`. */
  function CylinderArgs(c: Prim, fmt: NumToString): string
    requires c.Cylinder?
  {
    if c.r1.Some? then "h=" + fmt(c.h) + ", r1=" + OptText(c.r1, fmt) + ", r2=" + OptText(c.r2, fmt)
    else if c.d1.Some? then "h=" + fmt(c.h) + ", d1=" + OptText(c.d1, fmt) + ", d2=" + OptText(c.d2, fmt)
    else if c.r.Some? then "h=" + fmt(c.h) + ", r=" + OptText(c.r, fmt)
    else "h=" + fmt(c.h) + ", d=" + fmt(c.d)
  }

  function EmitPrim(p: Prim, fmt: NumToString): string {
    match p
    case Rect(dims) => BaseOpenscad(RectTemplate, dims, fmt)
    case Cylinder(_, _, _, _, _, _, _) => "cylinder(" + CylinderArgs(p, fmt) + ");"
    case Text(text, size, height) => Fill(TextTemplate, [text, fmt(size), fmt(height)])
  }

  /** The opening line of a container: `Base.openscad` without its ";", then
      "{\n"; for `Rotate`, its own format string. */
  function Opening(op: Op, at: Vec3, fmt: NumToString): string {
    if op.Rotate? then Fill(RotateTemplate, [fmt(op.theta)] + Nums(at, fmt))
    else
      var b := BaseOpenscad(OpTemplate(op), at, fmt);
      b[..|b| - 1] + "{\n"
  }

  /** `openscad()` of the node the scene stands for. */
  function EmitScene(s: Scene, fmt: NumToString): string
    decreases s
  {
    match s
    case Leaf(p) => EmitPrim(p, fmt)
    case Box(op, at, kids) => Opening(op, at, fmt) + Join(EmitAll(kids, fmt), "\n") + "\n};"
  }

  /** `[c.openscad() for c in self.children]`. */
  function EmitAll(kids: seq<Scene>, fmt: NumToString): (r: seq<string>)
    ensures |r| == |kids|
    decreases kids
  {
    if |kids| == 0 then [] else [EmitScene(kids[0], fmt)] + EmitAll(kids[1..], fmt)
  }

  // ------------------------------------------------------------ properties

  /** A container's opening is its `Base.openscad` text without the final
      ";" (the `[:-1]` drops exactly that character), followed by "{\n". */
  lemma OpeningDropsSemicolon(op: Op, at: Vec3, fmt: NumToString)
    requires !op.Rotate?
    ensures Opening(op, at, fmt) == Format(at, OpTemplate(op), fmt) + "{\n"
  {
  }

  /** `Cylinder.openscad` prints one parameter form: once `r1` is given the
      other radii and diameters do not matter; otherwise a given `d1` hides
      `r`, `r2` and `d`; otherwise a given `r` hides `d`, `d1`, `d2` and `r2`;
      otherwise only `h` and `d` are printed. */
  lemma CylinderPriority(c: Prim, c': Prim, fmt: NumToString)
    requires c.Cylinder? && c'.Cylinder? && c.h == c'.h
    ensures c.r1.Some? && c'.r1 == c.r1 && c'.r2 == c.r2 ==>
      EmitPrim(c, fmt) == EmitPrim(c', fmt)
    ensures c.r1.None? && c'.r1.None? && c.d1.Some? && c'.d1 == c.d1 && c'.d2 == c.d2 ==>
      EmitPrim(c, fmt) == EmitPrim(c', fmt)
    ensures c.r1.None? && c'.r1.None? && c.d1.None? && c'.d1.None? && c.r.Some? && c'.r == c.r ==>
      EmitPrim(c, fmt) == EmitPrim(c', fmt)
    ensures c.r1.None? && c'.r1.None? && c.d1.None? && c'.d1.None? && c.r.None? && c'.r.None? && c.d == c'.d ==>
      EmitPrim(c, fmt) == EmitPrim(c', fmt)
  {
  }

  // Brace balance.

  predicate Braceless(s: string) {
    '{' !in s && '}' !in s
  }

  /** Number rendering never produces a brace. */
  ghost predicate FmtBraceless(fmt: NumToString) {
    forall r :: Braceless(fmt(r))
  }

  /** Every `Text` label in the scene is free of braces. */
  predicate LabelsBraceless(s: Scene)
    decreases s
  {
    match s
    case Leaf(p) => !p.Text? || Braceless(p.text)
    case Box(_, _, kids) => forall i :: 0 <= i < |kids| ==> LabelsBraceless(kids[i])
  }

  predicate Balanced(s: string) {
    Count(s, '{') == Count(s, '}')
  }

  /** No literal part of the template holds a brace. */
  predicate LitsBraceless(t: Template) {
    forall i :: 0 <= i < |t| ==> t[i].Lit? ==> Braceless(t[i].text)
  }

  lemma {:induction false} CountAbsent(s: string, c: char)
    requires c !in s
    ensures Count(s, c) == 0
  {
    if |s| > 0 {
      assert s[0] != c;
      CountAbsent(s[1..], c);
    }
  }

  lemma {:induction false} FillBraceless(t: Template, args: seq<string>)
    requires SlotsBelow(t, |args|) && LitsBraceless(t)
    requires forall k :: 0 <= k < |args| ==> Braceless(args[k])
    ensures Braceless(Fill(t, args))
  {
    if |t| > 0 {
      FillBraceless(t[1..], args);
    }
  }

  lemma BracelessBalanced(s: string)
    requires Braceless(s)
    ensures Balanced(s)
  {
    CountAbsent(s, '{');
    CountAbsent(s, '}');
  }

  lemma {:induction false} JoinBalanced(parts: seq<string>, sep: string)
    requires Braceless(sep)
    requires forall i :: 0 <= i < |parts| ==> Balanced(parts[i])
    ensures Balanced(Join(parts, sep))
  {
    if |parts| >= 2 {
      JoinBalanced(parts[1..], sep);
      CountAbsent(sep, '{');
      CountAbsent(sep, '}');
      CountConcat(parts[0], sep, '{');
      CountConcat(parts[0], sep, '}');
      CountConcat(parts[0] + sep, Join(parts[1..], sep), '{');
      CountConcat(parts[0] + sep, Join(parts[1..], sep), '}');
    }
  }

  /** `a + "{" + b + tail` is balanced when a and b hold no brace and
      `tail` closes one. */
  lemma EnclosedBalanced(a: string, b: string, tail: string)
    requires Braceless(a) && Braceless(b)
    requires Count(tail, '{') == 0 && Count(tail, '}') == 1
    ensures Balanced(a + "{" + b + tail)
  {
    CountAbsent(a, '{');
    CountAbsent(a, '}');
    CountAbsent(b, '{');
    CountAbsent(b, '}');
    CountConcat(a, "{", '{');
    CountConcat(a, "{", '}');
    CountConcat(a + "{", b, '{');
    CountConcat(a + "{", b, '}');
    CountConcat(a + "{" + b, tail, '{');
    CountConcat(a + "{" + b, tail, '}');
  }

  /** `a + "{\n"` holds one "{" and no "}" when a holds no brace. */
  lemma OpensLine(a: string)
    requires Braceless(a)
    ensures Count(a + "{\n", '{') == 1 && Count(a + "{\n", '}') == 0
  {
    CountAbsent(a, '{');
    CountAbsent(a, '}');
    CountConcat(a, "{\n", '{');
    CountConcat(a, "{\n", '}');
  }

  /** Whatever the tree, its text opens as many braces as it closes, provided
      numbers and labels print without braces. */
  lemma {:induction false} EmitBalanced(s: Scene, fmt: NumToString)
    requires FmtBraceless(fmt) && LabelsBraceless(s)
    ensures Balanced(EmitScene(s, fmt))
    decreases s
  {
    match s
    case Leaf(p) =>
      PrimBalanced(p, fmt);
    case Box(op, at, kids) =>
      forall i | 0 <= i < |kids|
        ensures Balanced(EmitAll(kids, fmt)[i])
      {
        EmitAllAt(kids, fmt, i);
        EmitBalanced(kids[i], fmt);
      }
      OpeningBraces(op, at, fmt);
      BoxBalanced(Opening(op, at, fmt), EmitAll(kids, fmt));
  }

  lemma {:induction false} EmitAllAt(kids: seq<Scene>, fmt: NumToString, i: nat)
    requires i < |kids|
    ensures EmitAll(kids, fmt)[i] == EmitScene(kids[i], fmt)
    decreases i
  {
    if i > 0 {
      EmitAllAt(kids[1..], fmt, i - 1);
    }
  }

  lemma BoxBalanced(open: string, emitted: seq<string>)
    requires Count(open, '{') == 1 && Count(open, '}') == 0
    requires forall i :: 0 <= i < |emitted| ==> Balanced(emitted[i])
    ensures Balanced(open + Join(emitted, "\n") + "\n};")
  {
    JoinBalanced(emitted, "\n");
    WrapBalanced(open, Join(emitted, "\n"));
  }

  lemma WrapBalanced(open: string, inner: string)
    requires Count(open, '{') == 1 && Count(open, '}') == 0 && Balanced(inner)
    ensures Balanced(open + inner + "\n};")
  {
    CountConcat(open, inner, '{');
    CountConcat(open, inner, '}');
    CountConcat(open + inner, "\n};", '{');
    CountConcat(open + inner, "\n};", '}');
    assert Count("\n};", '{') == 0 && Count("\n};", '}') == 1;
  }

  lemma PrimBalanced(p: Prim, fmt: NumToString)
    requires FmtBraceless(fmt) && (!p.Text? || Braceless(p.text))
    ensures Balanced(EmitPrim(p, fmt))
  {
    match p
    case Rect(dims) =>
      var args := Nums(dims, fmt);
      assert Braceless(args[0]) && Braceless(args[1]) && Braceless(args[2]);
      assert LitsBraceless(RectTemplate);
      FillBraceless(RectTemplate, args);
      BracelessBalanced(EmitPrim(p, fmt));
    case Cylinder(_, _, _, _, _, _, _) =>
      assert Braceless(fmt(p.h)) && Braceless(fmt(p.d));
      assert Braceless(OptText(p.r, fmt)) && Braceless(OptText(p.r1, fmt)) && Braceless(OptText(p.r2, fmt));
      assert Braceless(OptText(p.d1, fmt)) && Braceless(OptText(p.d2, fmt));
      CylinderBraceless(p, fmt);
      BracelessBalanced(EmitPrim(p, fmt));
    case Text(text, size, height) =>
      var args := [text, fmt(size), fmt(height)];
      assert Braceless(fmt(size)) && Braceless(fmt(height));
      TextBalanced(args);
  }

  lemma CylinderBraceless(p: Prim, fmt: NumToString)
    requires p.Cylinder?
    requires Braceless(fmt(p.h)) && Braceless(fmt(p.d))
    requires Braceless(OptText(p.r, fmt)) && Braceless(OptText(p.r1, fmt)) && Braceless(OptText(p.r2, fmt))
    requires Braceless(OptText(p.d1, fmt)) && Braceless(OptText(p.d2, fmt))
    ensures Braceless(EmitPrim(p, fmt))
  {
    var h := fmt(p.h);
    CylinderLiteralsBraceless();
    if p.r1.Some? {
      BracelessSix("h=", h, ", r1=", OptText(p.r1, fmt), ", r2=", OptText(p.r2, fmt));
    } else if p.d1.Some? {
      BracelessSix("h=", h, ", d1=", OptText(p.d1, fmt), ", d2=", OptText(p.d2, fmt));
    } else if p.r.Some? {
      BracelessSix("h=", h, ", r=", OptText(p.r, fmt), "", "");
    } else {
      BracelessSix("h=", h, ", d=", fmt(p.d), "", "");
    }
    BracelessSix("cylinder(", CylinderArgs(p, fmt), ");", "", "", "");
  }

  lemma CylinderLiteralsBraceless()
    ensures Braceless("h=") && Braceless(", r1=") && Braceless(", r2=") && Braceless(", d1=")
    ensures Braceless(", d2=") && Braceless(", r=") && Braceless(", d=") && Braceless("")
    ensures Braceless("cylinder(") && Braceless(");")
  {
  }

  lemma BracelessSix(a: string, b: string, c: string, d: string, e: string, f: string)
    requires Braceless(a) && Braceless(b) && Braceless(c) && Braceless(d) && Braceless(e) && Braceless(f)
    ensures Braceless(a + b + c + d + e + f)
  {
  }

  /** The `Text` template splits at its braces. */
  lemma TextSplit(args: seq<string>)
    requires |args| == 3
    ensures SlotsBelow(TextTemplate, 3)
    ensures Fill(TextTemplate, args) == Fill(TextHead, args) + "{" + Fill(TextBody, args) + "}\n    "
  {
    TextPartsSlots();
    FillSingle("{", args);
    FillTextTail(args);
    SplitFill4(TextHead, [Lit("{")], TextBody, [Lit("}"), Lit("\n    ")], args);
  }

  lemma TextPartsSlots()
    ensures SlotsBelow(TextHead, 3) && SlotsBelow(TextBody, 3)
  {
  }

  lemma FillSingle(text: string, args: seq<string>)
    ensures SlotsBelow([Lit(text)], |args|) && Fill([Lit(text)], args) == text
  {
    FillLit(text, [], args);
    assert [Lit(text)] + [] == [Lit(text)];
  }

  lemma FillTextTail(args: seq<string>)
    ensures SlotsBelow([Lit("}"), Lit("\n    ")], |args|)
    ensures Fill([Lit("}"), Lit("\n    ")], args) == "}\n    "
  {
    FillSingle("\n    ", args);
    FillLit("}", [Lit("\n    ")], args);
    assert [Lit("}")] + [Lit("\n    ")] == [Lit("}"), Lit("\n    ")];
  }

  lemma SplitFill4(t1: Template, t2: Template, t3: Template, t4: Template, args: seq<string>)
    requires SlotsBelow(t1, |args|) && SlotsBelow(t2, |args|) && SlotsBelow(t3, |args|) && SlotsBelow(t4, |args|)
    ensures SlotsBelow(t1 + t2 + t3 + t4, |args|)
    ensures Fill(t1 + t2 + t3 + t4, args) == Fill(t1, args) + Fill(t2, args) + Fill(t3, args) + Fill(t4, args)
  {
    FillConcat(t1, t2, args);
    FillConcat(t1 + t2, t3, args);
    FillConcat(t1 + t2 + t3, t4, args);
  }

  lemma TextBalanced(args: seq<string>)
    requires |args| == 3 && Braceless(args[0]) && Braceless(args[1]) && Braceless(args[2])
    ensures Balanced(Fill(TextTemplate, args))
  {
    TextSplit(args);
    TextPartsBraceless();
    FillBraceless(TextHead, args);
    FillBraceless(TextBody, args);
    TextClosing();
    EnclosedBalanced(Fill(TextHead, args), Fill(TextBody, args), "}\n    ");
  }

  lemma TextPartsBraceless()
    ensures SlotsBelow(TextHead, 3) && SlotsBelow(TextBody, 3)
    ensures LitsBraceless(TextHead) && LitsBraceless(TextBody)
  {
    HeadLitsBraceless();
    BodyLitsBraceless();
    AlternatingBraceless(TextLead, 2, TextExtrude, 2, TextGap);
    AlternatingBraceless(TextCall, 0, TextSize, 1, TextAlign);
  }

  lemma HeadLitsBraceless()
    ensures Braceless(TextLead) && Braceless(TextExtrude) && Braceless(TextGap)
  {
    LeadBraceless();
    ExtrudeBraceless();
  }

  lemma LeadBraceless()
    ensures Braceless(TextLead)
  {
  }

  lemma ExtrudeBraceless()
    ensures Braceless(TextExtrude)
  {
  }

  lemma BodyLitsBraceless()
    ensures Braceless(TextCall) && Braceless(TextSize) && Braceless(TextAlign)
  {
  }

  lemma TextClosing()
    ensures Count("}\n    ", '{') == 0 && Count("}\n    ", '}') == 1
  {
  }

  /** Literal, slot, literal, slot, literal: braceless when its three literals are. */
  lemma AlternatingBraceless(a: string, j: nat, b: string, k: nat, c: string)
    requires Braceless(a) && Braceless(b) && Braceless(c)
    ensures LitsBraceless([Lit(a), Slot(j), Lit(b), Slot(k), Lit(c)])
  {
  }

  /** Every container's opening holds one "{" and no "}". */
  lemma OpeningBraces(op: Op, at: Vec3, fmt: NumToString)
    requires FmtBraceless(fmt)
    ensures Count(Opening(op, at, fmt), '{') == 1 && Count(Opening(op, at, fmt), '}') == 0
  {
    var args := Nums(at, fmt);
    assert Braceless(args[0]) && Braceless(args[1]) && Braceless(args[2]);
    if op.Rotate? {
      var rargs := [fmt(op.theta)] + args;
      assert Braceless(rargs[0]);
      RotateOpeningBraces(rargs);
    } else {
      BaseOpeningBraces(op, at, fmt);
    }
  }

  lemma BaseOpeningBraces(op: Op, at: Vec3, fmt: NumToString)
    requires !op.Rotate?
    requires Braceless(fmt(at.x)) && Braceless(fmt(at.y)) && Braceless(fmt(at.z))
    ensures Count(Opening(op, at, fmt), '{') == 1 && Count(Opening(op, at, fmt), '}') == 0
  {
    var t := OpTemplate(op);
    var args := Nums(at, fmt);
    OpTemplateBraceless(op);
    FillBraceless(t, args);
    OpeningDropsSemicolon(op, at, fmt);
    OpensLine(Fill(t, args));
  }

  lemma OpTemplateBraceless(op: Op)
    requires !op.Rotate?
    ensures LitsBraceless(OpTemplate(op))
  {
    match op
    case Color => ColorBraceless();
    case Translate => TranslateBraceless();
    case Union => SingleBraceless("union()");
    case Intersection => SingleBraceless("intersection()");
    case Difference => SingleBraceless("difference()");
    case Hide => SingleBraceless("%union()");
  }

  lemma ColorBraceless()
    ensures LitsBraceless(ColorTemplate)
  {
    BracketedBraceless("color([", "])", 0);
  }

  lemma TranslateBraceless()
    ensures LitsBraceless(TranslateTemplate)
  {
    BracketedBraceless("translate([", "])", 0);
  }

  lemma SingleBraceless(s: string)
    requires Braceless(s)
    ensures LitsBraceless([Lit(s)])
  {
  }

  lemma RotateOpeningBraces(args: seq<string>)
    requires |args| == 4 && forall k :: 0 <= k < 4 ==> Braceless(args[k])
    ensures SlotsBelow(RotateTemplate, 4)
    ensures Count(Fill(RotateTemplate, args), '{') == 1 && Count(Fill(RotateTemplate, args), '}') == 0
  {
    var open: Template := [Lit("{"), Lit("\n")];
    RotateHeadBraceless();
    assert Fill(open, args) == "{\n" by {
      FillLit("\n", [], args);
      FillLit("{", [Lit("\n")], args);
      assert [Lit("\n")] + [] == [Lit("\n")];
      assert [Lit("{")] + [Lit("\n")] == open;
    }
    FillConcat(RotateHead, open, args);
    FillBraceless(RotateHead, args);
    OpensLine(Fill(RotateHead, args));
  }

  lemma RotateHeadBraceless()
    ensures SlotsBelow(RotateHead, 4) && LitsBraceless(RotateHead)
  {
    var axis := Bracketed(", [", "]) ", 1);
    FillBracketed(", [", "]) ", 1, ["", "", "", ""]);
    BracketedBraceless(", [", "]) ", 1);
    assert RotateHead == [Lit("rotate("), Slot(0)] + axis;
    forall i | 0 <= i < |RotateHead|
      ensures RotateHead[i].Slot? ==> RotateHead[i].index < 4
      ensures RotateHead[i].Lit? ==> Braceless(RotateHead[i].text)
    {
      if i >= 2 {
        assert RotateHead[i] == axis[i - 2];
      }
    }
  }

  // The unit test of mechlib: the text with spaces and newlines removed.

  /** No space or newline in the text. */
  predicate Tight(s: string) {
    ' ' !in s && '\n' !in s
  }

  /** Stripping a bracketed template: its ", " separators lose their space. */
  lemma StripBracketed(head: string, tail: string, k: nat, args: seq<string>, sh: string, st: string)
    requires k + 2 < |args| && Strip(head) == sh && Strip(tail) == st
    requires Tight(args[k]) && Tight(args[k + 1]) && Tight(args[k + 2])
    ensures SlotsBelow(Bracketed(head, tail, k), |args|)
    ensures Strip(Fill(Bracketed(head, tail, k), args)) ==
      sh + (args[k] + ("," + (args[k + 1] + ("," + (args[k + 2] + st)))))
  {
    FillBracketed(head, tail, k, args);
    var a, b, c := args[k], args[k + 1], args[k + 2];
    StripKeeps(a); StripKeeps(b); StripKeeps(c);
    assert Strip(", ") == ",";
    StripConcat(c, tail);
    StripConcat(", ", c + tail);
    StripConcat(b, ", " + (c + tail));
    StripConcat(", ", b + (", " + (c + tail)));
    StripConcat(a, ", " + (b + (", " + (c + tail))));
    StripConcat(head, a + (", " + (b + (", " + (c + tail)))));
  }

  lemma StripBracketedTight(head: string, tail: string, k: nat, args: seq<string>)
    requires k + 2 < |args| && Tight(head) && Tight(tail)
    requires Tight(args[k]) && Tight(args[k + 1]) && Tight(args[k + 2])
    ensures SlotsBelow(Bracketed(head, tail, k), |args|)
    ensures Strip(Fill(Bracketed(head, tail, k), args)) ==
      head + (args[k] + ("," + (args[k + 1] + ("," + (args[k + 2] + tail)))))
  {
    StripKeeps(head);
    StripKeeps(tail);
    StripBracketed(head, tail, k, args, head, tail);
  }

  /** A stripped container other than `Rotate`: its stripped header, "{", its
      stripped children in order, "};". */
  lemma StripBox(op: Op, at: Vec3, kids: seq<Scene>, fmt: NumToString)
    requires !op.Rotate?
    ensures Strip(EmitScene(Box(op, at, kids), fmt)) ==
      Strip(Format(at, OpTemplate(op), fmt)) + "{" + Strip(Join(EmitAll(kids, fmt), "\n")) + "};"
  {
    var f := Format(at, OpTemplate(op), fmt);
    var j := Join(EmitAll(kids, fmt), "\n");
    OpeningDropsSemicolon(op, at, fmt);
    StripTail(f + "{\n", j);
    StripConcat(f, "{\n");
    assert Strip("{\n") == "{";
  }

  /** `Rotate`, stripped: its stripped header, its stripped children, "};". */
  lemma StripRotateBox(theta: real, at: Vec3, kids: seq<Scene>, fmt: NumToString)
    ensures SlotsBelow(RotateTemplate, 4)
    ensures Strip(EmitScene(Box(Rotate(theta), at, kids), fmt)) ==
      Strip(Fill(RotateTemplate, [fmt(theta)] + Nums(at, fmt))) + Strip(Join(EmitAll(kids, fmt), "\n")) + "};"
  {
    RotateHeadBraceless();
    FillSingle("\n", [fmt(theta)] + Nums(at, fmt));
    FillSingle("{", [fmt(theta)] + Nums(at, fmt));
    FillConcat([Lit("{")], [Lit("\n")], [fmt(theta)] + Nums(at, fmt));
    FillConcat(RotateHead, [Lit("{"), Lit("\n")], [fmt(theta)] + Nums(at, fmt));
    StripTail(Opening(Rotate(theta), at, fmt), Join(EmitAll(kids, fmt), "\n"));
  }

  /** Stripping `open + inner + "\n};"`. */
  lemma StripTail(open: string, inner: string)
    ensures Strip(open + inner + "\n};") == Strip(open) + Strip(inner) + "};"
  {
    StripConcat(open + inner, "\n};");
    StripConcat(open, inner);
    assert Strip("\n};") == "};";
  }

  lemma StripJoinTwo(a: string, b: string)
    ensures Strip(Join([a, b], "\n")) == Strip(a) + Strip(b)
  {
    assert [a, b][1..] == [b];
    StripConcat(a + "\n", b);
    StripConcat(a, "\n");
    assert Strip("\n") == "";
  }

  /** The scene of the unit test: `Container.has(Translate(1, 2, 3).containing(Rect(4, 5, 6)),
      Rotate(7, 8, 9, 10).containing(Rect(11, 12, 13)))`. */
  const TestScene := Box(Union, Zero, [
    Box(Translate, Vec3(1.0, 2.0, 3.0), [Leaf(Rect(Vec3(4.0, 5.0, 6.0)))]),
    Box(Rotate(10.0), Vec3(7.0, 8.0, 9.0), [Leaf(Rect(Vec3(11.0, 12.0, 13.0)))])])

  /** Number rendering prints the whole numbers of the test as Python prints
      ints, in plain decimal. */
  ghost predicate PrintsSmallInts(fmt: NumToString) {
    && fmt(1.0) == "1" && fmt(2.0) == "2" && fmt(3.0) == "3" && fmt(4.0) == "4"
    && fmt(5.0) == "5" && fmt(6.0) == "6" && fmt(7.0) == "7" && fmt(8.0) == "8"
    && fmt(9.0) == "9" && fmt(10.0) == "10" && fmt(11.0) == "11" && fmt(12.0) == "12"
    && fmt(13.0) == "13"
  }

  lemma StripCube(dims: Vec3, fmt: NumToString, a: string, b: string, c: string)
    requires fmt(dims.x) == a && fmt(dims.y) == b && fmt(dims.z) == c
    requires Tight(a) && Tight(b) && Tight(c)
    ensures Strip(EmitScene(Leaf(Rect(dims)), fmt)) == "cube([" + (a + ("," + (b + ("," + (c + "])"))))) + ";"
  {
    StripBracketedTight("cube([", "])", 0, Nums(dims, fmt));
    StripConcat(Format(dims, RectTemplate, fmt), ";");
  }

  /** A container with a single child, stripped. */
  lemma StripOneChild(op: Op, at: Vec3, kid: Scene, fmt: NumToString)
    requires !op.Rotate?
    ensures Strip(EmitScene(Box(op, at, [kid]), fmt)) ==
      Strip(Format(at, OpTemplate(op), fmt)) + "{" + Strip(EmitScene(kid, fmt)) + "};"
  {
    assert EmitAll([kid], fmt) == [EmitScene(kid, fmt)];
    StripBox(op, at, [kid], fmt);
  }

  lemma StripOneRotated(theta: real, at: Vec3, kid: Scene, fmt: NumToString)
    ensures SlotsBelow(RotateTemplate, 4)
    ensures Strip(EmitScene(Box(Rotate(theta), at, [kid]), fmt)) ==
      Strip(Fill(RotateTemplate, [fmt(theta)] + Nums(at, fmt))) + Strip(EmitScene(kid, fmt)) + "};"
  {
    assert EmitAll([kid], fmt) == [EmitScene(kid, fmt)];
    StripRotateBox(theta, at, [kid], fmt);
  }

  /** The text `ContainerTest.test1` expects once spaces and newlines are
      removed, written piece by piece at the boundaries of the nodes:
      `union(){translate([1,2,3]){cube([4,5,6]);};rotate(10,[7,8,9]){cube([11,12,13]);};};`. */
  const FirstCube := "cube([4,5,6]);"
  const Translated := "translate([1,2,3])" + "{" + FirstCube + "};"
  const SecondCube := "cube([11,12,13]);"
  const Rotated := "rotate(10,[7,8,9]){" + SecondCube + "};"
  const ExpectedTestText := "union()" + "{" + (Translated + Rotated) + "};"

  /** mechlib's `ContainerTest.test1`. */
  lemma ContainerTestText(fmt: NumToString)
    requires PrintsSmallInts(fmt)
    ensures Strip(EmitScene(TestScene, fmt)) == ExpectedTestText
  {
    var t1, t2 := TestScene.kids[0], TestScene.kids[1];
    TranslatedPart(fmt, t1);
    RotatedPart(fmt, t2);
    ContainerTestOf(fmt, TestScene, t1, t2);
  }

  lemma ContainerTestOf(fmt: NumToString, top: Scene, t1: Scene, t2: Scene)
    requires top == Box(Union, Zero, [t1, t2])
    requires Strip(EmitScene(t1, fmt)) == Translated && Strip(EmitScene(t2, fmt)) == Rotated
    ensures Strip(EmitScene(top, fmt)) == ExpectedTestText
  {
    StripBox(Union, Zero, [t1, t2], fmt);
    UnionOfTwo([t1, t2], fmt);
    StripJoinTwo(EmitScene(t1, fmt), EmitScene(t2, fmt));
    UnionHeader(fmt);
  }

  lemma UnionOfTwo(kids: seq<Scene>, fmt: NumToString)
    requires |kids| == 2
    ensures EmitAll(kids, fmt) == [EmitScene(kids[0], fmt), EmitScene(kids[1], fmt)]
  {
    assert kids[1..][1..] == [];
  }

  lemma UnionHeader(fmt: NumToString)
    ensures Strip(Format(Zero, OpTemplate(Union), fmt)) == "union()"
  {
    var f := Format(Zero, OpTemplate(Union), fmt);
    FillSingle("union()", Nums(Zero, fmt));
    assert Tight(f);
    StripKeeps(f);
  }

  lemma TranslatedPart(fmt: NumToString, part: Scene)
    requires PrintsSmallInts(fmt)
    requires part == Box(Translate, Vec3(1.0, 2.0, 3.0), [Leaf(Rect(Vec3(4.0, 5.0, 6.0)))])
    ensures Strip(EmitScene(part, fmt)) == Translated
  {
    var cube := part.kids[0];
    StripOneChild(Translate, part.at, cube, fmt);
    TranslateHeader(fmt, part.at);
    CubeOf456(fmt, cube);
  }

  lemma TranslateHeader(fmt: NumToString, at: Vec3)
    requires PrintsSmallInts(fmt) && at == Vec3(1.0, 2.0, 3.0)
    ensures Strip(Format(at, OpTemplate(Translate), fmt)) == "translate([1,2,3])"
  {
    StripBracketedTight("translate([", "])", 0, Nums(at, fmt));
  }

  lemma RotatedPart(fmt: NumToString, part: Scene)
    requires PrintsSmallInts(fmt)
    requires part == Box(Rotate(10.0), Vec3(7.0, 8.0, 9.0), [Leaf(Rect(Vec3(11.0, 12.0, 13.0)))])
    ensures Strip(EmitScene(part, fmt)) == Rotated
  {
    var cube := part.kids[0];
    StripOneRotated(10.0, part.at, cube, fmt);
    RotateHeader(fmt, part.at);
    CubeOf111213(fmt, cube);
  }

  lemma RotateHeader(fmt: NumToString, at: Vec3)
    requires PrintsSmallInts(fmt) && at == Vec3(7.0, 8.0, 9.0)
    ensures SlotsBelow(RotateTemplate, 4)
    ensures Strip(Fill(RotateTemplate, [fmt(10.0)] + Nums(at, fmt))) == "rotate(10,[7,8,9]){"
  {
    StripRotateHeader([fmt(10.0)] + Nums(at, fmt));
  }

  lemma CubeText(dims: Vec3, fmt: NumToString, a: string, b: string, c: string)
    requires fmt(dims.x) == a && fmt(dims.y) == b && fmt(dims.z) == c
    requires Tight(a) && Tight(b) && Tight(c)
    ensures Strip(EmitScene(Leaf(Rect(dims)), fmt)) == "cube([" + a + "," + b + "," + c + "]);"
  {
    StripCube(dims, fmt, a, b, c);
  }

  lemma CubeOf456(fmt: NumToString, cube: Scene)
    requires PrintsSmallInts(fmt) && cube == Leaf(Rect(Vec3(4.0, 5.0, 6.0)))
    ensures Strip(EmitScene(cube, fmt)) == FirstCube
  {
    CubeText(cube.prim.dims, fmt, "4", "5", "6");
  }

  lemma CubeOf111213(fmt: NumToString, cube: Scene)
    requires PrintsSmallInts(fmt) && cube == Leaf(Rect(Vec3(11.0, 12.0, 13.0)))
    ensures Strip(EmitScene(cube, fmt)) == SecondCube
  {
    CubeText(cube.prim.dims, fmt, "11", "12", "13");
  }

  lemma StripRotateHeader(args: seq<string>)
    requires |args| == 4 && Tight(args[0]) && Tight(args[1]) && Tight(args[2]) && Tight(args[3])
    ensures SlotsBelow(RotateTemplate, 4)
    ensures Strip(Fill(RotateTemplate, args)) ==
      "rotate(" + (args[0] + (",[" + (args[1] + ("," + (args[2] + ("," + (args[3] + "])"))))))) + "{"
  {
    RotateSplit(args);
    StripRotateHead(args);
    StripConcat(Fill(RotateHead, args), "{\n");
    assert Strip("{\n") == "{";
  }

  lemma RotateSplit(args: seq<string>)
    requires |args| == 4
    ensures SlotsBelow(RotateHead, 4) && SlotsBelow(RotateTemplate, 4)
    ensures Fill(RotateTemplate, args) == Fill(RotateHead, args) + "{\n"
  {
    RotateHeadBraceless();
    FillSingle("\n", args);
    FillLit("{", [Lit("\n")], args);
    assert [Lit("{")] + [Lit("\n")] == [Lit("{"), Lit("\n")];
    FillConcat(RotateHead, [Lit("{"), Lit("\n")], args);
  }

  lemma StripRotateHead(args: seq<string>)
    requires |args| == 4 && Tight(args[0]) && Tight(args[1]) && Tight(args[2]) && Tight(args[3])
    ensures SlotsBelow(RotateHead, 4)
    ensures Strip(Fill(RotateHead, args)) ==
      "rotate(" + (args[0] + (",[" + (args[1] + ("," + (args[2] + ("," + (args[3] + "])")))))))
  {
    var axis := Bracketed(", [", "]) ", 1);
    RotateAxisPunctuation();
    StripBracketed(", [", "]) ", 1, args, ",[", "])");
    RotateHeadFill(args);
    assert Tight("rotate(");
    StripTwoTight("rotate(", args[0], Fill(axis, args));
  }

  lemma RotateHeadFill(args: seq<string>)
    requires |args| == 4
    ensures SlotsBelow(Bracketed(", [", "]) ", 1), 4) && SlotsBelow(RotateHead, |args|)
    ensures Fill(RotateHead, args) == "rotate(" + (args[0] + Fill(Bracketed(", [", "]) ", 1), args))
  {
    var axis := Bracketed(", [", "]) ", 1);
    RotateHeadBraceless();
    FillBracketed(", [", "]) ", 1, args);
    FillSlot(0, axis, args);
    FillLit("rotate(", [Slot(0)] + axis, args);
    assert [Lit("rotate(")] + ([Slot(0)] + axis) == RotateHead;
  }

  /** Stripping `p + (a + rest)` when `p` and `a` are already tight. */
  lemma StripTwoTight(p: string, a: string, rest: string)
    requires Tight(p) && Tight(a)
    ensures Strip(p + (a + rest)) == p + (a + Strip(rest))
  {
    StripKeeps(p);
    StripKeeps(a);
    StripConcat(a, rest);
    StripConcat(p, a + rest);
  }

  lemma StripTight(s: string)
    requires Tight(s)
    ensures Strip(s) == s
  {
    StripKeeps(s);
  }

  lemma RotateAxisPunctuation()
    ensures Strip(", [") == ",[" && Strip("]) ") == "])"
  {
  }
}
