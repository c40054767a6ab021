/** geometry's `Rod`: one strut between two vertices, its dimensions, the
    scene parts it contributes (sleeves at both ends, a bore along it, labels
    cut into the sleeves) and `Rod.D`, which files a rod's texts under its
    two joints. */
module Rods {
  import opened Wrappers
  import opened Vectors
  import opened Numerics
  import opened Texts
  import opened Scene
  import opened UniqueSeq

  const MinimalDistance: real := 6.35
  const Inch: real := 25.4
  /** Length of the sleeve that wraps the threaded rod. */
  const Sleeve: real := 2.0 * Inch
  /** How far the threaded rod reaches past the vertex. */
  const Extend: real := 1.5 * Inch

  /** `Rod.width`: the bore, a 1/4" thread plus 0.02" of elbow room; it is
      narrow enough for `prepareText`'s `diam < 20` assertion. */
  function BoreWidth(): (w: real)
    ensures w == 6.858 && w < 20.0
  {
    Inch * (0.25 + 0.02)
  }

  /** `Rod.swidth`: the sleeve, half an inch; it too passes `diam < 20`. */
  function SleeveWidth(): (w: real)
    ensures w == 12.7 && w < 20.0
  {
    Inch * 0.5
  }

  function Midpoint(v1: Vec3, v2: Vec3): Vec3 {
    Scale(0.5, Add(v1, v2))
  }

  /** `shares_vertex_with`: some endpoint of the first rod is an endpoint of
      the second (the source's loop over the two endpoints, unrolled). */
  function SharesVertex(a1: Vec3, a2: Vec3, b1: Vec3, b2: Vec3): (r: bool)
    ensures r <==> (a1 in [b1, b2] || a2 in [b1, b2])
  {
    a1 == b1 || a1 == b2 || a2 == b1 || a2 == b2
  }

  lemma SharesVertexSymmetric(a1: Vec3, a2: Vec3, b1: Vec3, b2: Vec3)
    ensures SharesVertex(a1, a2, b1, b2) == SharesVertex(b1, b2, a1, a2)
  {
  }

  /** Moving one end by `d` and the other by `-d` leaves the midpoint where
      it was: the step `twist` takes on every rod. */
  lemma TwistKeepsMidpoint(v1: Vec3, v2: Vec3, d: Vec3)
    ensures Midpoint(Add(v1, d), Sub(v2, d)) == Midpoint(v1, v2)
  {
  }

  // ------------------------------------------------------------ labels

  datatype TextError = DiameterTooLarge(diam: real)

  /** The angles of the four label copies `prepareText` makes. */
  const LabelAngles: seq<real> := [0.0, 90.0, 180.0, 270.0]

  /** One copy of the label: `Rotate(angle, [0, 0, 1])` around
      `Translate(-2.5, diam/2, 0)` around two quarter turns around `Text(tag)`
      with its default size 5 and height 3. */
  function LabelCopy(angle: real, diam: real, tag: string): Scene {
    Box(Rotate(angle), Vec3(0.0, 0.0, 1.0), [
      Box(Translate, Vec3(-2.5, 0.5 * diam, 0.0), [
        Box(Rotate(-90.0), Vec3(0.0, 1.0, 0.0), [
          Box(Rotate(-90.0), Vec3(1.0, 0.0, 0.0), [Leaf(Text(tag, 5.0, 3.0))])])])])
  }

  /** What `prepareText` returns: the assertion `diam < 20` comes first, then
      `None` for a missing tag, else a union of the four copies. */
  function LabelRing(diam: real, tag: Option<string>): (r: Result<Option<Scene>, TextError>)
    ensures r.Success? <==> diam < 20.0
    ensures r.Success? ==> (r.value.None? <==> tag.None?)
    ensures r.Success? && tag.Some? ==>
      r.value.value.Box? && r.value.value.op == Union && |r.value.value.kids| == 4 &&
      forall k :: 0 <= k < 4 ==> r.value.value.kids[k] == LabelCopy(90.0 * k as real, diam, tag.value)
  {
    if diam >= 20.0 then Failure(DiameterTooLarge(diam))
    else if tag.None? then Success(None)
    else Success(Some(Box(Union, Zero, [
      LabelCopy(0.0, diam, tag.value), LabelCopy(90.0, diam, tag.value),
      LabelCopy(180.0, diam, tag.value), LabelCopy(270.0, diam, tag.value)])))
  }

  /** `Rod.prepareText`: the loop that adds one copy per angle to a fresh
      `Container`. Every copy is a fresh node, so `add` never finds one already
      present and the loop appends all four. */
  method PrepareText(diam: real, tag: Option<string>) returns (r: Result<Option<Scene>, TextError>)
    ensures r == LabelRing(diam, tag)
  {
    if diam >= 20.0 {
      return Failure(DiameterTooLarge(diam));
    }
    if tag.None? {
      return Success(None);
    }
    var kids: seq<Scene> := [];
    var k := 0;
    while k < |LabelAngles|
      invariant 0 <= k <= |LabelAngles|
      invariant |kids| == k
      invariant forall i :: 0 <= i < k ==> kids[i] == LabelCopy(LabelAngles[i], diam, tag.value)
    {
      kids := kids + [LabelCopy(LabelAngles[k], diam, tag.value)];
      k := k + 1;
    }
    ghost var t := tag.value;
    assert kids[0] == LabelCopy(0.0, diam, t) && kids[1] == LabelCopy(90.0, diam, t);
    assert kids[2] == LabelCopy(180.0, diam, t) && kids[3] == LabelCopy(270.0, diam, t);
    assert kids == [LabelCopy(0.0, diam, t), LabelCopy(90.0, diam, t),
                    LabelCopy(180.0, diam, t), LabelCopy(270.0, diam, t)];
    r := Success(Some(Box(Union, Zero, kids)));
  }

  /** `Rod.addText`: the part alone without a tag, else the part with the
      tag ring cut out of it (`Difference.has(part, text)`). */
  function AddText(part: Scene, diam: real, tag: Option<string>): (r: Result<Scene, TextError>)
    ensures tag.None? ==> r == Success(part)
    ensures tag.Some? ==> (r.Success? <==> diam < 20.0)
    ensures tag.Some? && r.Success? ==>
      r.value == Box(Difference, Zero, [part, LabelRing(diam, tag).value.value])
  {
    if tag.None? then Success(part)
    else
      match LabelRing(diam, tag)
      case Failure(e) => Failure(e)
      case Success(ring) => Success(Box(Difference, Zero, [part, ring.value]))
  }

  /** `Cylinder(h=length, d=diam)` standing on the z axis, moved down by
      half its length so that it is centred on the origin. */
  function Upright(length: real, diam: real): Scene {
    Box(Translate, Vec3(0.0, 0.0, -0.5 * length), [Leaf(Cylinder(length, diam, None, None, None, None, None))])
  }

  /** The angle in degrees between the z axis and `delta`. */
  function Tilt(delta: Vec3, m: Math): real {
    m.atan2(Length(Cross(Vec3(0.0, 0.0, 1.0), delta), m), delta.z) * 180.0 / m.pi
  }

  /** A part built along the z axis, turned by `Tilt(delta)` about
      `z × delta` onto the direction `delta`, then moved to `center`. */
  function Placed(center: Vec3, delta: Vec3, part: Scene, m: Math): Scene {
    Box(Translate, center, [Box(Rotate(Tilt(delta, m)), Cross(Vec3(0.0, 0.0, 1.0), delta), [part])])
  }

  /** `Rod.parts_cylinder`: a cylinder of the given length and diameter,
      centred on `center` and turned from the z axis onto the rod's
      direction `delta` about `z × delta`; with a tag, the tag ring is cut
      out of the cylinder before it is turned, and a diameter of 20 or more
      fails `prepareText`'s assertion. */
  function PartsCylinder(center: Vec3, length: real, diam: real, tag: Option<string>, delta: Vec3, m: Math)
    : (r: Result<Scene, TextError>)
    ensures r.Success? <==> tag.None? || diam < 20.0
    ensures tag.None? ==> r == Success(Placed(center, delta, Upright(length, diam), m))
    ensures tag.Some? && diam < 20.0 ==>
      r == Success(Placed(center, delta, Box(Difference, Zero, [Upright(length, diam), LabelRing(diam, tag).value.value]), m))
  {
    var axis := Cross(Vec3(0.0, 0.0, 1.0), delta);
    var theta := m.atan2(Length(axis, m), delta.z) * 180.0 / m.pi;
    var cylinder := Box(Translate, Vec3(0.0, 0.0, -0.5 * length), [
      Leaf(Cylinder(length, diam, None, None, None, None, None))]);
    match AddText(cylinder, diam, tag)
    case Failure(e) => Failure(e)
    case Success(part) => Success(Box(Translate, center, [Box(Rotate(theta), axis, [part])]))
  }

  /** The sleeve around one end (`parts_shell1` / `parts_shell2`): a
      `Sleeve`-long cylinder of diameter `SleeveWidth()` at the end, along
      the rod, with the end's tag, if any, cut into it; the sleeve is narrow
      enough that the label never fails. */
  function ShellAt(center: Vec3, tag: Option<string>, delta: Vec3, m: Math): (s: Scene)
    ensures PartsCylinder(center, Sleeve, SleeveWidth(), tag, delta, m).Success?
    ensures tag.None? ==> s == Placed(center, delta, Upright(Sleeve, SleeveWidth()), m)
    ensures tag.Some? ==> s == Placed(center, delta,
      Box(Difference, Zero, [Upright(Sleeve, SleeveWidth()), LabelRing(SleeveWidth(), tag).value.value]), m)
  {
    var r := PartsCylinder(center, Sleeve, SleeveWidth(), tag, delta, m);
    r.value
  }

  /** The bore along the rod (`parts_cutout`): unlabelled, the rod's full
      length plus `Extend` at each end. */
  function CutoutAt(center: Vec3, length: real, delta: Vec3, m: Math): (s: Scene)
    ensures s == Placed(center, delta, Upright(length, BoreWidth()), m)
  {
    var r := PartsCylinder(center, length, BoreWidth(), None, delta, m);
    r.value
  }

  // ---------------------------------------------------------- buckets

  /** `if k not in dct: dct[k] = []` followed by `if s not in dct[k]: dct[k].append(s)`. */
  function File(dct: map<Vec3, seq<string>>, k: Vec3, s: string): map<Vec3, seq<string>> {
    dct[k := AddOne(if k in dct then dct[k] else [], s)]
  }

  /** Filing adds the key, puts the text in its bucket, keeps the old bucket
      as a prefix and touches no other key. */
  lemma FileFacts(dct: map<Vec3, seq<string>>, k: Vec3, s: string)
    ensures var r := File(dct, k, s);
      && r.Keys == dct.Keys + {k}
      && s in r[k]
      && (forall j :: j in dct && j != k ==> r[j] == dct[j])
      && (k in dct ==> |r[k]| >= |dct[k]| && r[k][..|dct[k]|] == dct[k])
      && (k !in dct ==> r[k] == [s])
  {
  }

  /** Every bucket is free of repeated strings. */
  ghost predicate Distinct(dct: map<Vec3, seq<string>>) {
    forall k :: k in dct ==> NoDup(dct[k])
  }

  /** The joint tables main.py passes to every `Rod.D`: `dct` (shell texts),
      `dct2` (the joint's own vertex) and `dct3` (cutout texts), all keyed by
      an original vertex. */
  class Buckets {
    var shells: map<Vec3, seq<string>>
    var joints: map<Vec3, Vec3>
    var cutouts: map<Vec3, seq<string>>

    constructor ()
      ensures shells == map[] && joints == map[] && cutouts == map[]
    {
      shells, joints, cutouts := map[], map[], map[];
    }

    /** The map updates of `Rod.D` once it has the three texts. */
    method Collect(v1: Vec3, v2: Vec3, texts: (string, string, string))
      modifies this
      ensures (shells, joints, cutouts) == Filed(old(shells), old(joints), old(cutouts), v1, v2, texts)
    {
      shells := FileBoth(shells, v1, v2, texts.0, texts.1);
      joints := joints[v1 := v1];
      joints := joints[v2 := v2];
      cutouts := FileBoth(cutouts, v1, v2, texts.2, texts.2);
    }
  }

  /** The three tables after `Rod.D` has filed a rod's sleeve texts and bore
      text under its vertices `v1` and `v2`. */
  function Filed(shells: map<Vec3, seq<string>>, joints: map<Vec3, Vec3>, cutouts: map<Vec3, seq<string>>,
                 v1: Vec3, v2: Vec3, texts: (string, string, string))
    : (map<Vec3, seq<string>>, map<Vec3, Vec3>, map<Vec3, seq<string>>)
  {
    (File(File(shells, v1, texts.0), v2, texts.1),
     joints[v1 := v1][v2 := v2],
     File(File(cutouts, v1, texts.2), v2, texts.2))
  }

  /** One table's part of `Rod.D`: make sure both keys exist, then append
      each text to its key's bucket unless it is already there. */
  method FileBoth(dct: map<Vec3, seq<string>>, v1: Vec3, v2: Vec3, s1: string, s2: string)
    returns (r: map<Vec3, seq<string>>)
    ensures r == File(File(dct, v1, s1), v2, s2)
  {
    r := dct;
    if v1 !in r {
      r := r[v1 := []];
    }
    if v2 !in r {
      r := r[v2 := []];
    }
    if s1 !in r[v1] {
      r := r[v1 := r[v1] + [s1]];
    }
    if s2 !in r[v2] {
      r := r[v2 := r[v2] + [s2]];
    }
  }

  /** After `D`, both vertices are keys of a table, each text is in its
      vertex's bucket, no bucket holds a string twice, and every old entry
      keeps its place. */
  lemma FileBothProperties(dct: map<Vec3, seq<string>>, v1: Vec3, v2: Vec3, s1: string, s2: string)
    requires Distinct(dct)
    ensures var r := File(File(dct, v1, s1), v2, s2);
      r.Keys == dct.Keys + {v1, v2} && s1 in r[v1] && s2 in r[v2] && Distinct(r) &&
      forall k :: k in dct ==> |r[k]| >= |dct[k]| && r[k][..|dct[k]|] == dct[k]
  {
    var r1 := File(dct, v1, s1);
    var r := File(r1, v2, s2);
    FileDistinct(dct, v1, s1);
    FileDistinct(r1, v2, s2);
    if v1 == v2 {
      assert r[v1] == AddOne(r1[v1], s2);
    }
    forall k | k in dct
      ensures |r[k]| >= |dct[k]| && r[k][..|dct[k]|] == dct[k]
    {
      assert r[k][..|r1[k]|] == r1[k];
      assert r[k][..|dct[k]|] == r[k][..|r1[k]|][..|dct[k]|];
    }
  }

  /** `dct2[v1] = v1; dct2[v2] = v2`: each joint is its own entry. */
  lemma JointsProperties(joints: map<Vec3, Vec3>, v1: Vec3, v2: Vec3)
    ensures var j := joints[v1 := v1][v2 := v2];
      j.Keys == joints.Keys + {v1, v2} && j[v1] == v1 && j[v2] == v2
  {
  }

  lemma FileDistinct(dct: map<Vec3, seq<string>>, k: Vec3, s: string)
    requires Distinct(dct)
    ensures Distinct(File(dct, k, s))
  {
    assert NoDup<string>([]);
  }

  // --------------------------------------------------------------- Rod

  /** The fields of one `Rod`: the current and the original vertices, the
      original length and midpoint, and the two labels. */
  datatype RodState = RodState(
    v1: Vec3, v2: Vec3,
    original1: Vec3, original2: Vec3,
    idealVdist: real, originalMidpoint: Vec3,
    label1: Option<string>, label2: Option<string>)

  /** What `Rod.__init__` leaves: both vertices also remembered as the
      original ones, no labels, and a rod at rest, as long as its ideal
      length and with its midpoint where it started. */
  function FreshRod(a: Vec3, b: Vec3, m: Math): (s: RodState)
    ensures s.v1 == a && s.v2 == b && s.original1 == a && s.original2 == b
    ensures s.label1 == None && s.label2 == None
    ensures VdistDelta(s, m) == 0.0 && Midpoint(s.v1, s.v2) == s.originalMidpoint
  {
    RodState(a, b, a, b, Length(Sub(b, a), m), Midpoint(a, b), None, None)
  }

  function Delta(s: RodState): Vec3 {
    Sub(s.v2, s.v1)
  }

  /** `Rod.length`: the vertex distance plus `Extend` past both ends. */
  function RodLength(s: RodState, m: Math): real {
    Length(Delta(s), m) + 2.0 * Extend
  }

  /** `Rod.vdist_delta`: how far the current length is from the original. */
  function VdistDelta(s: RodState, m: Math): real {
    Length(Delta(s), m) - s.idealVdist
  }

  /** `Rod.midpoint_drift`: how far the midpoint has moved. */
  function MidpointDrift(s: RodState, m: Math): real {
    Length(Sub(Midpoint(s.v1, s.v2), s.originalMidpoint), m)
  }

  /** `nearest_distance`: the distance between the lines of two rods, along
      the unit normal of both directions; `None` for parallel rods, whose
      cross product has no normal. */
  function NearestDistance(a: RodState, b: RodState, m: Math): (r: Option<real>)
    ensures r.None? <==> Length(Cross(Delta(a), Delta(b)), m) == 0.0
    ensures r.Some? ==> r.value >= 0.0
  {
    match Normal(Cross(Delta(a), Delta(b)), m)
    case None => None
    case Some(e) => Some(Abs(Dot(Sub(a.v1, b.v1), e)))
  }

  /** `parts_shell1`: the sleeve at `v1`, carrying `label1`. */
  function Shell1(s: RodState, m: Math): Scene {
    ShellAt(s.v1, s.label1, Delta(s), m)
  }

  /** `parts_shell2`: the sleeve at `v2`, carrying `label2`. */
  function Shell2(s: RodState, m: Math): Scene {
    ShellAt(s.v2, s.label2, Delta(s), m)
  }

  /** `parts_shell`: both sleeves in a union, the first at `v1` carrying
      `label1`, the second at `v2` carrying `label2`, each `Sleeve` long and
      `SleeveWidth()` across. */
  function Shells(s: RodState, m: Math): (r: Scene)
    ensures r.Box? && r.op == Union && |r.kids| == 2
    ensures r.kids[0] == Placed(s.v1, Delta(s), AddText(Upright(Sleeve, SleeveWidth()), SleeveWidth(), s.label1).value, m)
    ensures r.kids[1] == Placed(s.v2, Delta(s), AddText(Upright(Sleeve, SleeveWidth()), SleeveWidth(), s.label2).value, m)
  {
    Box(Union, Zero, [Shell1(s, m), Shell2(s, m)])
  }

  /** `parts_cutout`: the bore, an unlabelled cylinder centred on the
      current midpoint, along the rod, `RodLength` long and `BoreWidth()`
      across. */
  function Cutout(s: RodState, m: Math): (r: Scene)
    ensures r == Placed(Midpoint(s.v1, s.v2), Delta(s), Upright(RodLength(s, m), BoreWidth()), m)
  {
    CutoutAt(Midpoint(s.v1, s.v2), RodLength(s, m), Delta(s), m)
  }

  /** The three texts `Rod.D` files: both sleeves and the bore, each
      through `openscad()`. */
  function Emitted(s: RodState, fmt: NumToString, m: Math): (string, string, string) {
    (EmitScene(Shell1(s, m), fmt), EmitScene(Shell2(s, m), fmt), EmitScene(Cutout(s, m), fmt))
  }

  class Rod {
    var v1: Vec3
    var v2: Vec3
    const original1: Vec3
    const original2: Vec3
    const idealVdist: real
    const originalMidpoint: Vec3
    var label1: Option<string>
    var label2: Option<string>

    /** `Rod.__init__`. */
    constructor (a: Vec3, b: Vec3, m: Math)
      ensures State() == FreshRod(a, b, m)
    {
      v1, v2 := a, b;
      original1, original2 := a, b;
      idealVdist := Length(Sub(b, a), m);
      originalMidpoint := Midpoint(a, b);
      label1, label2 := None, None;
    }

    function State(): RodState
      reads this
    {
      RodState(v1, v2, original1, original2, idealVdist, originalMidpoint, label1, label2)
    }

    /** `Rod.D`: files this rod's two sleeve texts and its bore text under
        its original vertices. */
    method D(b: Buckets, fmt: NumToString, m: Math)
      modifies b
      ensures (b.shells, b.joints, b.cutouts) ==
        Filed(old(b.shells), old(b.joints), old(b.cutouts), original1, original2, old(Emitted(State(), fmt, m)))
    {
      b.Collect(original1, original2, Emitted(State(), fmt, m));
    }
  }
}
