/** mechlib's node objects: leaves (`Rect`, `Cylinder`, `Text`) and containers
    (`Container` and its subclasses) whose child lists `add` and `containing`
    grow in place. A node stands for the `Scene` value `Tree()`, and its
    `openscad()` text is `EmitScene(Tree(), fmt)`. */
module Mechlib {
  import opened Wrappers
  import opened Vectors
  import opened Scene
  import opened UniqueSeq

  /** The class of a node: a leaf and its parameters, or a container class. */
  datatype Kind = LeafKind(prim: Prim) | ContainerKind(op: Op)

  /** An argument of `add`: a node, or a Python string, which `add` refuses. */
  datatype Arg = Obj(node: Node) | Str(text: string)

  /** How many arguments `containing` gets through before the first string. */
  function Accepted(args: seq<Arg>): (n: nat)
    ensures n <= |args|
    ensures forall i :: 0 <= i < n ==> args[i].Obj?
    ensures n < |args| ==> args[n].Str?
  {
    if |args| == 0 || args[0].Str? then 0 else 1 + Accepted(args[1..])
  }

  /** The nodes of a run of node arguments. */
  function Nodes(args: seq<Arg>): (r: seq<Node>)
    requires forall i :: 0 <= i < |args| ==> args[i].Obj?
    ensures |r| == |args| && forall i :: 0 <= i < |args| ==> r[i] == args[i].node
  {
    if |args| == 0 then [] else [args[0].node] + Nodes(args[1..])
  }

  /** `Rotate.__init__`'s `vector` argument: a vector, or a list or tuple of numbers. */
  datatype AxisArg = AxisVector(v: Vec3) | AxisList(items: seq<real>)

  /** The axis `Rotate.__init__` stores: taken from `vector` when it is given
      (a list becomes a vector, which needs exactly three numbers), otherwise x, y, z. */
  function RotateAxis(x: real, y: real, z: real, vector: Option<AxisArg>): (r: Result<Vec3, ArrayError>)
    ensures vector.None? ==> r == Success(Vec3(x, y, z))
    ensures vector.Some? && vector.value.AxisVector? ==> r == Success(vector.value.v)
    ensures vector.Some? && vector.value.AxisList? ==>
      (r.Success? <==> |vector.value.items| == 3) &&
      (r.Success? ==> ToList(r.value) == vector.value.items)
  {
    match vector
    case None => Success(Vec3(x, y, z))
    case Some(AxisVector(v)) => Success(NewVector(CopyOf(v)))
    case Some(AxisList(items)) => FromArray(items)
  }

  class Node {
    const kind: Kind
    /** `Base`'s x, y, z (for `Rotate`, the axis); leaves keep theirs in `kind`. */
    const at: Vec3
    var children: seq<Node>
    ghost var Repr: set<object>

    /** The nodes below form a tree-shaped footprint (sharing is allowed,
        cycles are not), leaves have no children, and no child is listed twice. */
    ghost predicate Valid()
      reads this, Repr
      decreases Repr
    {
      && this in Repr
      && (kind.LeafKind? ==> children == [])
      && NoDup(children)
      && forall i :: 0 <= i < |children| ==>
          && children[i] in Repr
          && children[i].Repr <= Repr
          && this !in children[i].Repr
          && children[i].Valid()
    }

    /** The scene value this node stands for. */
    function Tree(): (t: Scene)
      reads this, Repr
      requires Valid()
      ensures kind.LeafKind? ==> t == Leaf(kind.prim)
      ensures kind.ContainerKind? ==>
        t.Box? && t.op == kind.op && t.at == at && |t.kids| == |children| &&
        forall i :: 0 <= i < |children| ==> t.kids[i] == children[i].Tree()
      decreases Repr, 1
    {
      match kind
      case LeafKind(p) => Leaf(p)
      case ContainerKind(op) => Box(op, at, Kids(|children|))
    }

    /** The scenes of the first `n` children. */
    function Kids(n: nat): (r: seq<Scene>)
      reads this, Repr
      requires Valid() && n <= |children|
      ensures |r| == n && forall i :: 0 <= i < n ==> r[i] == children[i].Tree()
      decreases Repr, 0, n
    {
      if n == 0 then [] else Kids(n - 1) + [children[n - 1].Tree()]
    }

    /** `Rect(...)`, `Cylinder(...)`, `Text(...)`. */
    constructor NewLeaf(p: Prim)
      ensures Valid() && kind == LeafKind(p) && children == [] && Repr == {this}
      ensures Tree() == Leaf(p)
    {
      kind := LeafKind(p);
      at := Zero;
      children := [];
      Repr := {this};
    }

    /** `Container.__init__` (through `Base.__init__`) for every container
        class but `Rotate`: a vector or three numbers, and no children. */
    constructor NewContainer(op: Op, args: VectorArgs)
      ensures Valid() && kind == ContainerKind(op) && at == NewVector(args)
      ensures children == [] && Repr == {this}
      ensures Tree() == Box(op, NewVector(args), [])
    {
      kind := ContainerKind(op);
      at := NewVector(args);
      children := [];
      Repr := {this};
    }

    /** `Container.add`: refuses a string by assertion; otherwise appends the
        node unless this very node (Python `==` on objects is identity) is
        already a child. The source does not check that the child is not an
        ancestor of the container; the precondition asks it, so that the
        tree stays a tree, and every caller adds newly built nodes, for
        which it holds. */
    method Add(child: Arg) returns (ok: bool)
      requires Valid() && kind.ContainerKind?
      requires child.Obj? ==> child.node.Valid() && this !in child.node.Repr
      modifies this
      ensures Valid()
      ensures ok <==> child.Obj?
      ensures !ok ==> children == old(children) && Repr == old(Repr)
      ensures ok ==> children == AddOne(old(children), child.node) && Repr == old(Repr) + child.node.Repr
    {
      if child.Str? {
        return false;
      }
      ok := true;
      var n := child.node;
      if n !in children {
        children := children + [n];
      }
      Repr := Repr + n.Repr;
      assert n in Repr;
    }

    /** `Container.containing(*kids)`: adds the kids in argument order, up to
        the first string (whose assertion stops the loop). The ghost `bound`
        covers the objects below the kids. */
    method Containing(kids: seq<Arg>, ghost bound: set<object>) returns (ok: bool)
      requires Valid() && kind.ContainerKind?
      requires forall i :: 0 <= i < |kids| ==> kids[i].Obj? ==>
        kids[i].node.Valid() && this !in kids[i].node.Repr && kids[i].node.Repr <= bound
      modifies this
      ensures Valid()
      ensures ok <==> Accepted(kids) == |kids|
      ensures children == AddAll(old(children), Nodes(kids[..Accepted(kids)]))
      ensures Repr <= old(Repr) + bound
    {
      var i := 0;
      var n := Accepted(kids);
      while i < n
        invariant 0 <= i <= n
        invariant Valid() && kind.ContainerKind?
        invariant children == AddAll(old(children), Nodes(kids[..i]))
        invariant Repr <= old(Repr) + bound
        invariant forall j :: 0 <= j < |kids| ==> kids[j].Obj? ==>
          kids[j].node.Valid() && this !in kids[j].node.Repr
      {
        var added := Add(kids[i]);
        NextNode(kids, i);
        AddAllSnoc(old(children), Nodes(kids[..i]), kids[i].node);
        i := i + 1;
      }
      ok := n == |kids|;
      if !ok {
        var refused := Add(kids[n]);
      }
    }
  }

  lemma NextNode(args: seq<Arg>, i: nat)
    requires i < |args| && forall j :: 0 <= j <= i ==> args[j].Obj?
    ensures Nodes(args[..i + 1]) == Nodes(args[..i]) + [args[i].node]
  {
    assert args[..i + 1] == args[..i] + [args[i]];
  }

  /** `Rotate.__init__`: a container whose `at` is the axis and whose class
      carries `theta`; a list of the wrong length is refused. */
  method NewRotate(x: real, y: real, z: real, theta: real, vector: Option<AxisArg>)
    returns (r: Result<Node, ArrayError>)
    ensures r.Success? <==> RotateAxis(x, y, z, vector).Success?
    ensures r.Success? ==> fresh(r.value.Repr) && r.value.Valid()
    ensures r.Success? ==> r.value.Tree() == Box(Rotate(theta), RotateAxis(x, y, z, vector).value, [])
  {
    var axis := RotateAxis(x, y, z, vector);
    if axis.Failure? {
      return Failure(axis.error);
    }
    var v := axis.value;
    var n := new Node.NewContainer(Rotate(theta), Components(v.x, v.y, v.z));
    return Success(n);
  }

  /** `Container.has(*kids)` on class `op`: a fresh container made with the
      class's default arguments, then `containing(*kids)`. */
  method Has(op: Op, kids: seq<Arg>) returns (r: Node, ok: bool)
    requires !op.Rotate? || op.theta == 0.0
    requires forall i :: 0 <= i < |kids| ==> kids[i].Obj? ==> kids[i].node.Valid()
    ensures fresh(r) && r.Valid() && r.kind == ContainerKind(op) && r.at == Zero
    ensures ok <==> Accepted(kids) == |kids|
    ensures r.children == AddAll([], Nodes(kids[..Accepted(kids)]))
  {
    r := new Node.NewContainer(op, Components(0.0, 0.0, 0.0));
    ghost var below := set i, o | 0 <= i < |kids| && kids[i].Obj? && o in kids[i].node.Repr :: o;
    ok := r.Containing(kids, below);
  }

  /** The construction in mechlib's `ContainerTest.test1`; the text it emits is
      `Scene.ContainerTestText`. */
  method ContainerTest() returns (c: Node)
    ensures c.Valid() && c.Tree() == TestScene
  {
    var t := TranslatedCube();
    ghost var first := t.Tree();
    var r := RotatedCube();
    ghost var second := r.Tree();
    assert t.Valid() && t.Tree() == first;
    var ok;
    c, ok := Has(Union, [Obj(t), Obj(r)]);
    assert t.Valid() && t.Tree() == first && r.Valid() && r.Tree() == second;
    PairArgs(t, r);
    TreeOfTwo(c, t, r);
    TestSceneParts();
  }

  lemma TreeOfTwo(c: Node, a: Node, b: Node)
    requires c.Valid() && c.kind.ContainerKind? && c.children == [a, b] && a.Valid() && b.Valid()
    ensures c.Tree() == Box(c.kind.op, c.at, [a.Tree(), b.Tree()])
  {
  }

  lemma TestSceneParts()
    ensures TestScene == Box(Union, Zero, [TestScene.kids[0], TestScene.kids[1]])
  {
  }

  /** `Translate(1, 2, 3).containing(Rect(4, 5, 6))`. */
  method TranslatedCube() returns (t: Node)
    ensures fresh(t.Repr) && t.Valid() && t.Tree() == TestScene.kids[0]
  {
    var cube := new Node.NewLeaf(Rect(Vec3(4.0, 5.0, 6.0)));
    t := new Node.NewContainer(Translate, Components(1.0, 2.0, 3.0));
    var ok := t.Containing([Obj(cube)], cube.Repr);
    SingleArg(cube);
  }

  /** `Rotate(7, 8, 9, 10).containing(Rect(11, 12, 13))`. */
  method RotatedCube() returns (r: Node)
    ensures fresh(r.Repr) && r.Valid() && r.Tree() == TestScene.kids[1]
  {
    var cube := new Node.NewLeaf(Rect(Vec3(11.0, 12.0, 13.0)));
    var rot := NewRotate(7.0, 8.0, 9.0, 10.0, None);
    r := rot.value;
    var ok := r.Containing([Obj(cube)], cube.Repr);
    SingleArg(cube);
  }

  lemma SingleArg(a: Node)
    ensures Accepted([Obj(a)]) == 1 && AddAll([], Nodes([Obj(a)][..1])) == [a]
  {
    assert [Obj(a)][..1] == [Obj(a)];
    assert Nodes([Obj(a)]) == [a];
    AddAllDistinct([a]);
  }

  lemma PairArgs(a: Node, b: Node)
    requires a != b
    ensures Accepted([Obj(a), Obj(b)]) == 2 && AddAll([], Nodes([Obj(a), Obj(b)][..2])) == [a, b]
  {
    assert [Obj(a), Obj(b)][..2] == [Obj(a), Obj(b)];
    assert Nodes([Obj(a), Obj(b)]) == [a, b];
    AddAllDistinct([a, b]);
  }
}
