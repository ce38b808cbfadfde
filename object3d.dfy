/** `Object3D`: a node of a scene graph. Each node holds a local matrix
  * built from its position, euler angles and scale, a world matrix
  * composed down from the root, a list of children, and the visuals and
  * cameras attached to it. Matrices are kept as the expressions that build
  * them (numpy products become `Mul` nodes), so the model says which
  * product each matrix is, not its sixteen entries. */
module Object3Ds {
  import opened Wrappers
  import opened PyLists
  import opened Cameras
  import opened Viewports

  datatype Vec3 = Vec3(x: real, y: real, z: real)

  /** A 4x4 matrix, as the `glm` and numpy calls that produce it. */
  datatype Mat =
    | Identity
    | Translate(offset: Vec3)
    | XRotate(xDegrees: real)
    | YRotate(yDegrees: real)
    | ZRotate(zDegrees: real)
    | Scale(factors: Vec3)
    | Mul(left: Mat, right: Mat)
    | Inverse(inverted: Mat)

  /** `np.pi` as a float. */
  const Pi: real := 3.141592653589793

  /** Radians to the degrees that `glm.*rotate` takes. */
  function Degrees(radians: real): real
  {
    radians / Pi * 180.0
  }

  /** The rotation one letter of `rotation_order` contributes: "X", "Y" and
    * "Z" rotate by the matching euler angle, any other letter adds
    * nothing. */
  function AxisRotation(axis: char, euler: Vec3): (r: Option<Mat>)
    ensures r.Some? <==> axis in "XYZ"
  {
    if axis == 'X' then Some(XRotate(Degrees(euler.x)))
    else if axis == 'Y' then Some(YRotate(Degrees(euler.y)))
    else if axis == 'Z' then Some(ZRotate(Degrees(euler.z)))
    else None
  }

  /** Multiplies one more letter's rotation on the right. */
  function RotateBy(m: Mat, axis: char, euler: Vec3): Mat
  {
    match AxisRotation(axis, euler)
    case Some(r) => Mul(m, r)
    case None => m
  }

  /** The rotation matrix of an order string, accumulated left to right from
    * the identity. */
  function Rotation(order: string, euler: Vec3): Mat
    decreases |order|
  {
    if order == [] then Identity
    else RotateBy(Rotation(order[..|order| - 1], euler), order[|order| - 1], euler)
  }

  /** The per-letter rotations an order string names, in order. */
  function Factors(order: string, euler: Vec3): (r: seq<Mat>)
    ensures |r| <= |order|
    decreases |order|
  {
    if order == [] then []
    else
      (match AxisRotation(order[0], euler) case Some(m) => [m] case None => [])
      + Factors(order[1..], euler)
  }

  /** A left-nested product starting from the identity. */
  function Product(ms: seq<Mat>, from: Mat): Mat
    decreases |ms|
  {
    if ms == [] then from else Product(ms[1..], Mul(from, ms[0]))
  }

  lemma {:induction false} RotationStep(order: string, euler: Vec3, from: Mat, c: char)
    ensures Product(Factors(order + [c], euler), from)
         == RotateBy(Product(Factors(order, euler), from), c, euler)
    decreases |order|
  {
    if order == [] {
      assert [c][1..] == [];
    } else {
      assert (order + [c])[0] == order[0];
      assert (order + [c])[1..] == order[1..] + [c];
      match AxisRotation(order[0], euler)
      case Some(m) =>
        assert Factors(order + [c], euler) == [m] + Factors(order[1..] + [c], euler);
        assert Factors(order, euler) == [m] + Factors(order[1..], euler);
        RotationStep(order[1..], euler, Mul(from, m), c);
      case None =>
        assert Factors(order + [c], euler) == Factors(order[1..] + [c], euler);
        assert Factors(order, euler) == Factors(order[1..], euler);
        RotationStep(order[1..], euler, from, c);
    }
  }

  /** The rotation is the product, in the order given, of the rotations
    * named by its "X", "Y" and "Z" letters; other letters are skipped. */
  lemma {:induction false} RotationIsProductOfFactors(order: string, euler: Vec3)
    ensures Rotation(order, euler) == Product(Factors(order, euler), Identity)
    decreases |order|
  {
    if order != [] {
      var init, c := order[..|order| - 1], order[|order| - 1];
      assert order == init + [c];
      RotationIsProductOfFactors(init, euler);
      RotationStep(init, euler, Identity, c);
    }
  }

  /** The default order "XYZ" rotates about x, then y, then z. */
  lemma DefaultOrderRotation(euler: Vec3)
    ensures Rotation("XYZ", euler)
         == Mul(Mul(Mul(Identity, XRotate(Degrees(euler.x))), YRotate(Degrees(euler.y))),
                ZRotate(Degrees(euler.z)))
  {
    assert "XYZ"[..2] == "XY" && "XY"[..1] == "X" && "X"[..0] == "";
  }

  /** `translation @ rotation @ scale`, which numpy evaluates left to
    * right. */
  function LocalMatrix(position: Vec3, euler: Vec3, scale: Vec3, order: string): Mat
  {
    Mul(Mul(Translate(position), Rotation(order, euler)), Scale(scale))
  }

  /** What the renderer is given for a visual: its identity. */
  type VisualId = string

  /** A snapshot of one node and, recursively, of its subtree. */
  datatype Node = Node(
    obj: Object3D,
    local: Mat,
    world: Mat,
    dontUpdateWorld: bool,
    dontUpdateLocal: bool,
    order: string,
    position: Vec3,
    euler: Vec3,
    scale: Vec3,
    visuals: seq<VisualId>,
    cameras: seq<Camera>,
    children: seq<Node>)

  /** `update_matrix_local` on a snapshot. */
  function NewLocal(t: Node, force: bool): Mat
  {
    if t.dontUpdateLocal && !force then t.local
    else LocalMatrix(t.position, t.euler, t.scale, t.order)
  }

  /** The world matrix `update_matrix_world` leaves, given the new local
    * matrix. */
  function NewWorld(t: Node, parent: Option<Mat>, local: Mat, force: bool): Mat
  {
    if parent.None? then local
    else if !t.dontUpdateWorld || force then Mul(parent.value, local)
    else t.world
  }

  /** `update_matrix_world` on a snapshot: this node first, then every
    * child with this node's new world matrix and without the force flag. */
  function Updated(t: Node, parent: Option<Mat>, force: bool): Node
    decreases t
  {
    var local := NewLocal(t, force);
    var world := NewWorld(t, parent, local, force);
    t.(local := local, world := world,
       children := seq(|t.children|, i requires 0 <= i < |t.children| =>
                         Updated(t.children[i], Some(world), false)))
  }

  /** A snapshot with every matrix blanked out: what the update must not
    * change. */
  function Shape(t: Node): Node
    decreases t
  {
    t.(local := Identity, world := Identity,
       children := seq(|t.children|, i requires 0 <= i < |t.children| => Shape(t.children[i])))
  }

  /** Updating matrices changes no object, flag, transform component, list
    * or child. */
  lemma {:induction false} UpdatedKeepsShape(t: Node, parent: Option<Mat>, force: bool)
    ensures Shape(Updated(t, parent, force)) == Shape(t)
    decreases t
  {
    var u := Updated(t, parent, force);
    forall i | 0 <= i < |t.children|
      ensures Shape(u.children[i]) == Shape(t.children[i])
    {
      UpdatedKeepsShape(t.children[i], Some(u.world), false);
    }
    assert Shape(u).children == Shape(t).children;
  }

  /** Updating twice with the same arguments is the same as updating
    * once. */
  lemma {:induction false} UpdatedIdempotent(t: Node, parent: Option<Mat>, force: bool)
    ensures Updated(Updated(t, parent, force), parent, force) == Updated(t, parent, force)
    decreases t
  {
    var u := Updated(t, parent, force);
    var v := Updated(u, parent, force);
    assert v.local == u.local && v.world == u.world;
    forall i | 0 <= i < |t.children|
      ensures v.children[i] == u.children[i]
    {
      UpdatedIdempotent(t.children[i], Some(u.world), false);
    }
    assert v.children == u.children;
  }

  /** No node of the subtree sets either "don't update" flag. */
  predicate Unflagged(t: Node)
    decreases t
  {
    !t.dontUpdateWorld && !t.dontUpdateLocal
    && forall i :: 0 <= i < |t.children| ==> Unflagged(t.children[i])
  }

  /** The node reached by following child indices from t. */
  function Descend(t: Node, path: seq<nat>): Option<Node>
    decreases |path|
  {
    if path == [] then Some(t)
    else if path[0] < |t.children| then Descend(t.children[path[0]], path[1..])
    else None
  }

  /** The product of the nodes' own local matrices (as their transform
    * components give them) along a path, root first, on the right of
    * `from`. */
  function ChainFrom(t: Node, path: seq<nat>, from: Mat): Mat
    decreases |path|
  {
    var m := Mul(from, LocalMatrix(t.position, t.euler, t.scale, t.order));
    if path != [] && path[0] < |t.children| then ChainFrom(t.children[path[0]], path[1..], m)
    else m
  }

  /** In a tree without flags, updating from a parent world matrix gives
    * every node the product of that matrix and the local matrices from the
    * root down to it. */
  lemma {:induction false} UpdatedWorldIsChain(t: Node, from: Mat, path: seq<nat>)
    requires Unflagged(t) && Descend(t, path).Some?
    ensures Descend(Updated(t, Some(from), false), path).Some?
    ensures Descend(Updated(t, Some(from), false), path).value.world == ChainFrom(t, path, from)
    decreases |path|
  {
    var u := Updated(t, Some(from), false);
    if path != [] {
      var i := path[0];
      UpdatedWorldIsChain(t.children[i], u.world, path[1..]);
    }
  }

  /** A scene root has no parent: its world matrix is its local one, and an
    * unflagged tree then holds, at every node, the product of the locals
    * from the root down. */
  lemma RootWorldIsChain(t: Node, path: seq<nat>)
    requires Unflagged(t) && path != [] && Descend(t, path).Some?
    ensures Descend(Updated(t, None, false), path).Some?
    ensures Descend(Updated(t, None, false), path).value.world
         == ChainFrom(t.children[path[0]], path[1..], LocalMatrix(t.position, t.euler, t.scale, t.order))
  {
    var u := Updated(t, None, false);
    assert u.world == LocalMatrix(t.position, t.euler, t.scale, t.order);
    UpdatedWorldIsChain(t.children[path[0]], u.world, path[1..]);
  }

  /** A node with `dont_update_matrix_world` keeps its world matrix when
    * its parent updates it, because the force flag is not passed down. */
  lemma FlaggedChildKeepsWorld(t: Node, parent: Option<Mat>, force: bool, i: nat)
    requires i < |t.children| && t.children[i].dontUpdateWorld
    ensures Updated(t, parent, force).children[i].world == t.children[i].world
  {
  }

  function Concat<T>(ss: seq<seq<T>>): (r: seq<T>)
    decreases |ss|
  {
    if ss == [] then [] else Concat(ss[..|ss| - 1]) + ss[|ss| - 1]
  }

  /** `traverse` on a snapshot: the node, then each child's traversal in
    * list order. */
  function Preorder(t: Node): (r: seq<Node>)
    ensures r != [] && r[0] == t
    decreases t
  {
    [t] + Concat(seq(|t.children|, i requires 0 <= i < |t.children| => Preorder(t.children[i])))
  }

  /** The objects of a list of snapshots. */
  function Objects(ns: seq<Node>): (r: seq<Object3D>)
    ensures |r| == |ns| && forall i :: 0 <= i < |ns| ==> r[i] == ns[i].obj
  {
    seq(|ns|, i requires 0 <= i < |ns| => ns[i].obj)
  }

  /** `render`'s first comprehension: every visual of every node, nodes in
    * traversal order. */
  function GatherVisuals(ns: seq<Node>): seq<VisualId>
    decreases |ns|
  {
    if ns == [] then [] else GatherVisuals(ns[..|ns| - 1]) + ns[|ns| - 1].visuals
  }

  /** The second comprehension: the node's world matrix once per visual. */
  function ModelMatrices(ns: seq<Node>): seq<Mat>
    decreases |ns|
  {
    if ns == [] then []
    else ModelMatrices(ns[..|ns| - 1]) + Repeat(ns[|ns| - 1].world, |ns[|ns| - 1].visuals|)
  }

  /** The node each gathered visual comes from, and its index in that
    * node's own list. */
  function Owners(ns: seq<Node>): seq<(Node, nat)>
    decreases |ns|
  {
    if ns == [] then []
    else
      var n := ns[|ns| - 1];
      Owners(ns[..|ns| - 1]) + seq(|n.visuals|, j requires 0 <= j < |n.visuals| => (n, j))
  }

  /** Visuals and model matrices line up one to one: the k-th model matrix
    * is the world matrix of the node the k-th visual is attached to. */
  lemma {:induction false} GatherAligned(ns: seq<Node>)
    ensures |GatherVisuals(ns)| == |ModelMatrices(ns)| == |Owners(ns)|
    ensures forall k :: 0 <= k < |Owners(ns)| ==>
      Owners(ns)[k].0 in ns && Owners(ns)[k].1 < |Owners(ns)[k].0.visuals|
      && GatherVisuals(ns)[k] == Owners(ns)[k].0.visuals[Owners(ns)[k].1]
      && ModelMatrices(ns)[k] == Owners(ns)[k].0.world
    decreases |ns|
  {
    if ns != [] {
      var init, n := ns[..|ns| - 1], ns[|ns| - 1];
      GatherAligned(init);
      var vs, ms, os := GatherVisuals(init), ModelMatrices(init), Owners(init);
      var m := |os|;
      var tail := seq(|n.visuals|, j requires 0 <= j < |n.visuals| => (n, j));
      var matrices := Repeat(n.world, |n.visuals|);
      assert GatherVisuals(ns) == vs + n.visuals;
      assert ModelMatrices(ns) == ms + matrices;
      assert Owners(ns) == os + tail;
      forall k | 0 <= k < |Owners(ns)|
        ensures Owners(ns)[k].0 in ns && Owners(ns)[k].1 < |Owners(ns)[k].0.visuals|
        ensures GatherVisuals(ns)[k] == Owners(ns)[k].0.visuals[Owners(ns)[k].1]
        ensures ModelMatrices(ns)[k] == Owners(ns)[k].0.world
      {
        if k < m {
          assert Owners(ns)[k] == os[k] && os[k].0 in init;
          assert GatherVisuals(ns)[k] == vs[k];
          assert ModelMatrices(ns)[k] == ms[k];
        } else {
          assert Owners(ns)[k] == tail[k - m] == (n, k - m);
          assert GatherVisuals(ns)[k] == n.visuals[k - m];
          assert ModelMatrices(ns)[k] == matrices[k - m];
        }
      }
    }
  }

  /** The camera loop of `render`: one view matrix, the inverse of the
    * node's world matrix, per camera attached to each node. */
  function CameraViews(ns: seq<Node>): seq<(Camera, Mat)>
    decreases |ns|
  {
    if ns == [] then []
    else
      var n := ns[|ns| - 1];
      CameraViews(ns[..|ns| - 1])
      + seq(|n.cameras|, j requires 0 <= j < |n.cameras| => (n.cameras[j], Inverse(n.world)))
  }

  /** Every camera attached to a visited node is given that node's inverted
    * world matrix. */
  lemma {:induction false} CameraViewsCover(ns: seq<Node>, n: Node, c: Camera)
    requires n in ns && c in n.cameras
    ensures (c, Inverse(n.world)) in CameraViews(ns)
    decreases |ns|
  {
    var init, last := ns[..|ns| - 1], ns[|ns| - 1];
    var tail := seq(|last.cameras|, j requires 0 <= j < |last.cameras| => (last.cameras[j], Inverse(last.world)));
    assert CameraViews(ns) == CameraViews(init) + tail;
    if n == last {
      var j :| 0 <= j < |last.cameras| && last.cameras[j] == c;
      assert tail[j] == (c, Inverse(n.world));
    } else {
      assert ns == init + [last];
      assert n in init;
      CameraViewsCover(init, n, c);
    }
  }

  /** What `render` hands to the renderer. */
  datatype RenderCall = RenderCall(
    viewports: seq<Viewport>,
    visuals: seq<VisualId>,
    modelMatrices: seq<Mat>,
    cameras: seq<Camera>)

  function RenderCallOf(ns: seq<Node>, viewport: Viewport, camera: Camera): RenderCall
  {
    var visuals := GatherVisuals(ns);
    RenderCall(Repeat(viewport, |visuals|), visuals, ModelMatrices(ns), Repeat(camera, |visuals|))
  }

  /** The four lists given to the renderer have the same length, the same
    * viewport and camera everywhere, and each visual's model matrix is its
    * node's world matrix. */
  lemma RenderCallAligned(ns: seq<Node>, viewport: Viewport, camera: Camera)
    ensures var call := RenderCallOf(ns, viewport, camera);
      |call.viewports| == |call.visuals| == |call.modelMatrices| == |call.cameras|
      && (forall k :: 0 <= k < |call.visuals| ==> call.viewports[k] == viewport && call.cameras[k] == camera)
      && |Owners(ns)| == |call.visuals|
      && forall k :: 0 <= k < |call.visuals| ==>
           Owners(ns)[k].0 in ns && Owners(ns)[k].1 < |Owners(ns)[k].0.visuals|
           && call.modelMatrices[k] == Owners(ns)[k].0.world
           && call.visuals[k] == Owners(ns)[k].0.visuals[Owners(ns)[k].1]
  {
    GatherAligned(ns);
  }

  /** The visuals of a subtree, node first, then each child's subtree in
    * list order. */
  function VisualsBelow(t: Node): seq<VisualId>
    decreases t
  {
    t.visuals + Concat(seq(|t.children|, i requires 0 <= i < |t.children| => VisualsBelow(t.children[i])))
  }

  lemma {:induction false} GatherAppend(a: seq<Node>, b: seq<Node>)
    ensures GatherVisuals(a + b) == GatherVisuals(a) + GatherVisuals(b)
    decreases |b|
  {
    if b != [] {
      var init := b[..|b| - 1];
      assert (a + b)[..|a + b| - 1] == a + init;
      assert (a + b)[|a + b| - 1] == b[|b| - 1];
      assert GatherVisuals(b) == GatherVisuals(init) + b[|b| - 1].visuals;
      GatherAppend(a, init);
    } else {
      assert a + b == a;
    }
  }

  lemma {:induction false} GatherConcat(ss: seq<seq<Node>>, vs: seq<seq<VisualId>>)
    requires |vs| == |ss| && forall i :: 0 <= i < |ss| ==> GatherVisuals(ss[i]) == vs[i]
    ensures GatherVisuals(Concat(ss)) == Concat(vs)
    decreases |ss|
  {
    if ss != [] {
      var n := |ss| - 1;
      GatherConcat(ss[..n], vs[..n]);
      GatherAppend(Concat(ss[..n]), ss[n]);
    }
  }

  /** Gathering over the traversal collects the visuals subtree by
    * subtree. */
  lemma {:induction false} GatherPreorder(t: Node)
    ensures GatherVisuals(Preorder(t)) == VisualsBelow(t)
    decreases t
  {
    var ps := seq(|t.children|, i requires 0 <= i < |t.children| => Preorder(t.children[i]));
    var vs := seq(|t.children|, i requires 0 <= i < |t.children| => VisualsBelow(t.children[i]));
    forall i | 0 <= i < |t.children|
      ensures GatherVisuals(ps[i]) == vs[i]
    {
      GatherPreorder(t.children[i]);
    }
    GatherConcat(ps, vs);
    GatherAppend([t], Concat(ps));
    assert GatherVisuals([t]) == t.visuals;
  }

  /** Updating matrices leaves the visuals of the subtree as they were. */
  lemma {:induction false} UpdatedKeepsVisuals(t: Node, parent: Option<Mat>, force: bool)
    ensures VisualsBelow(Updated(t, parent, force)) == VisualsBelow(t)
    decreases t
  {
    var u := Updated(t, parent, force);
    forall i | 0 <= i < |t.children|
      ensures VisualsBelow(u.children[i]) == VisualsBelow(t.children[i])
    {
      UpdatedKeepsVisuals(t.children[i], Some(u.world), false);
    }
    assert seq(|u.children|, i requires 0 <= i < |u.children| => VisualsBelow(u.children[i]))
        == seq(|t.children|, i requires 0 <= i < |t.children| => VisualsBelow(t.children[i]));
  }

  class Object3D {
    const uuid: string
    const name: string
    var matrixWorld: Mat
    var matrixLocal: Mat
    var dontUpdateMatrixWorld: bool
    var dontUpdateMatrixLocal: bool
    var rotationOrder: string
    var position: Vec3
    var euler: Vec3
    var scale: Vec3
    var children: seq<Object3D>
    var visuals: seq<VisualId>
    var cameras: seq<Camera>
    /** The objects of the subtree rooted here. */
    ghost var Repr: set<Object3D>

    /** The children form a tree below this node: no node is its own
      * descendant and no two children share a descendant. */
    ghost predicate Valid()
      reads this, Repr
      decreases Repr
    {
      this in Repr
      && (forall i :: 0 <= i < |children| ==>
            children[i] in Repr && children[i].Repr <= Repr && this !in children[i].Repr
            && children[i].Valid())
      && (forall i, j :: 0 <= i < j < |children| ==> children[i].Repr !! children[j].Repr)
    }

    /** The matrices are left as they were. */
    twostate predicate SameMatrices()
      reads this
    {
      matrixWorld == old(matrixWorld) && matrixLocal == old(matrixLocal)
    }

    /** The flags and the transform components are left as they were. */
    twostate predicate SameTransform()
      reads this
    {
      dontUpdateMatrixWorld == old(dontUpdateMatrixWorld)
      && dontUpdateMatrixLocal == old(dontUpdateMatrixLocal)
      && rotationOrder == old(rotationOrder) && position == old(position)
      && euler == old(euler) && scale == old(scale)
    }

    /** A new node: identity matrices, both flags off, "XYZ" order, zero
      * position and angles, unit scale, no children, visuals or cameras.
      * Without a name it is called after its class and uuid. */
    constructor(uuid: string, name: Option<string>)
      ensures Valid() && Repr == {this}
      ensures this.uuid == uuid && this.name == name.GetOr("a Object3D - " + uuid)
      ensures matrixWorld == Identity && matrixLocal == Identity
      ensures !dontUpdateMatrixWorld && !dontUpdateMatrixLocal
      ensures rotationOrder == "XYZ" && position == Vec3(0.0, 0.0, 0.0)
      ensures euler == Vec3(0.0, 0.0, 0.0) && scale == Vec3(1.0, 1.0, 1.0)
      ensures children == [] && visuals == [] && cameras == []
    {
      this.uuid := uuid;
      this.name := if name.Some? then name.value else "a Object3D - " + uuid;
      matrixWorld := Identity;
      matrixLocal := Identity;
      dontUpdateMatrixWorld := false;
      dontUpdateMatrixLocal := false;
      rotationOrder := "XYZ";
      position := Vec3(0.0, 0.0, 0.0);
      euler := Vec3(0.0, 0.0, 0.0);
      scale := Vec3(1.0, 1.0, 1.0);
      children := [];
      visuals := [];
      cameras := [];
      Repr := {this};
    }

    /** `add` appends; the result is still a tree when the child's subtree
      * was one and shared nothing with this one. */
    method Add(child: Object3D)
      modifies this
      ensures children == old(children) + [child] && Repr == old(Repr + child.Repr)
      ensures visuals == old(visuals) && cameras == old(cameras)
      ensures SameMatrices() && SameTransform()
      ensures old(Valid() && child.Valid() && child.Repr !! Repr) ==> Valid()
    {
      ghost var wasTree := Valid() && child.Valid() && child.Repr !! Repr;
      children := children + [child];
      Repr := Repr + child.Repr;
      if wasTree {
        assert child in child.Repr;
        forall c | c in children
          ensures c in Repr && c.Repr <= Repr && this !in c.Repr && c.Valid()
        {
          if c != child {
            assert c in old(children);
          }
        }
      }
    }

    /** `remove` deletes the first occurrence, or fails with ValueError. */
    method Remove(child: Object3D) returns (r: Result<()>)
      modifies this
      ensures r.Ok? <==> child in old(children)
      ensures r.Ok? ==> children == RemoveFirst(old(children), child) && Repr == old(Repr - child.Repr)
      ensures r.Err? ==> r.error == ValueError && children == old(children) && Repr == old(Repr)
      ensures visuals == old(visuals) && cameras == old(cameras)
      ensures SameMatrices() && SameTransform()
      ensures old(Valid()) ==> Valid()
    {
      if child !in children {
        return Err(ValueError);
      }
      var i := FirstIndex(children, child);
      RemoveAt(i);
      r := Ok(());
    }

    /** Child i leaves the node, and its subtree leaves the footprint. */
    method RemoveAt(i: nat)
      requires i < |children|
      modifies this
      ensures children == old(children[..i] + children[i + 1..]) && Repr == old(Repr - children[i].Repr)
      ensures visuals == old(visuals) && cameras == old(cameras)
      ensures SameMatrices() && SameTransform()
      ensures old(Valid()) ==> Valid()
    {
      ghost var wasTree := Valid();
      ghost var s := children;
      children := children[..i] + children[i + 1..];
      Repr := Repr - s[i].Repr;
      if wasTree {
        assert forall k :: 0 <= k < |children| ==> children[k] == s[if k < i then k else k + 1];
        forall c | c in children
          ensures c in Repr && c.Repr <= Repr && this !in c.Repr && c.Valid()
        {
          var k :| 0 <= k < |children| && children[k] == c;
          var k' := if k < i then k else k + 1;
          assert s[k'] == c && k' != i;
          assert s[k'].Repr !! s[i].Repr;
          assert old(c.Valid());
          assert old(c in c.Repr);
        }
      }
    }

    method AttachVisual(visual: VisualId)
      modifies this
      ensures visuals == old(visuals) + [visual]
      ensures children == old(children) && cameras == old(cameras) && Repr == old(Repr)
      ensures SameMatrices() && SameTransform()
      ensures old(Valid()) ==> Valid()
    {
      visuals := visuals + [visual];
    }

    method DetachVisual(visual: VisualId) returns (r: Result<()>)
      modifies this
      ensures r.Ok? <==> visual in old(visuals)
      ensures r.Ok? ==> visuals == RemoveFirst(old(visuals), visual)
      ensures r.Err? ==> r.error == ValueError && visuals == old(visuals)
      ensures children == old(children) && cameras == old(cameras) && Repr == old(Repr)
      ensures SameMatrices() && SameTransform()
      ensures old(Valid()) ==> Valid()
    {
      if visual !in visuals {
        return Err(ValueError);
      }
      visuals := RemoveFirst(visuals, visual);
      r := Ok(());
    }

    method AttachCamera(camera: Camera)
      modifies this
      ensures cameras == old(cameras) + [camera]
      ensures children == old(children) && visuals == old(visuals) && Repr == old(Repr)
      ensures SameMatrices() && SameTransform()
      ensures old(Valid()) ==> Valid()
    {
      cameras := cameras + [camera];
    }

    method DetachCamera(camera: Camera) returns (r: Result<()>)
      modifies this
      ensures r.Ok? <==> camera in old(cameras)
      ensures r.Ok? ==> cameras == RemoveFirst(old(cameras), camera)
      ensures r.Err? ==> r.error == ValueError && cameras == old(cameras)
      ensures children == old(children) && visuals == old(visuals) && Repr == old(Repr)
      ensures SameMatrices() && SameTransform()
      ensures old(Valid()) ==> Valid()
    {
      if camera !in cameras {
        return Err(ValueError);
      }
      cameras := RemoveFirst(cameras, camera);
      r := Ok(());
    }

    /** `traverse`: this node, then each child's traversal in list order. */
    function Traverse(): (r: seq<Object3D>)
      requires Valid()
      reads Repr
      ensures r != [] && r[0] == this
    {
      Objects(Preorder(Snapshot(this)))
    }

    /** `update_matrix_local`: nothing when the flag is set and the update
      * is not forced; otherwise translation, then the rotations in
      * `rotation_order`, then scale. */
    method UpdateMatrixLocal(force: bool)
      modifies this
      ensures matrixLocal == (if old(dontUpdateMatrixLocal) && !force then old(matrixLocal)
                              else LocalMatrix(position, euler, scale, rotationOrder))
      ensures matrixWorld == old(matrixWorld) && SameTransform()
      ensures children == old(children) && visuals == old(visuals) && cameras == old(cameras)
      ensures Repr == old(Repr)
    {
      if dontUpdateMatrixLocal && !force {
        return;
      }
      var scaleMatrix := Scale(scale);
      var rotation := Identity;
      var i := 0;
      while i < |rotationOrder|
        invariant 0 <= i <= |rotationOrder|
        invariant rotation == Rotation(rotationOrder[..i], euler)
      {
        var axis := rotationOrder[i];
        if axis == 'X' {
          rotation := Mul(rotation, XRotate(Degrees(euler.x)));
        } else if axis == 'Y' {
          rotation := Mul(rotation, YRotate(Degrees(euler.y)));
        } else if axis == 'Z' {
          rotation := Mul(rotation, ZRotate(Degrees(euler.z)));
        }
        assert rotationOrder[..i + 1][..i] == rotationOrder[..i];
        i := i + 1;
      }
      assert rotationOrder[..|rotationOrder|] == rotationOrder;
      var translation := Translate(position);
      matrixLocal := Mul(Mul(translation, rotation), scaleMatrix);
    }

    /** The loop of `update_matrix_world` over the children: each subtree is
      * updated from the given world matrix, without force. */
    method UpdateChildrenWorld(world: Mat, ghost kids: seq<Node>)
      requires Valid() && |kids| == |children|
      requires forall k :: 0 <= k < |children| ==> Snapshot(children[k]) == kids[k]
      modifies Repr - {this}
      decreases Repr, 1
      ensures Valid()
      ensures forall k :: 0 <= k < |children| ==>
        Snapshot(children[k]) == Updated(kids[k], Some(world), false)
    {
      var i := 0;
      while i < |children|
        invariant 0 <= i <= |children|
        invariant Valid()
        invariant forall k :: 0 <= k < |children| ==> children[k].Repr == old(children[k].Repr)
        invariant forall k :: 0 <= k < i ==> Snapshot(children[k]) == Updated(kids[k], Some(world), false)
        invariant forall k :: i <= k < |children| ==> Snapshot(children[k]) == kids[k]
      {
        UpdateChild(i, world);
        i := i + 1;
      }
    }

    /** One pass of that loop: child i's subtree is updated and the other
      * children's subtrees are left as they were. */
    method UpdateChild(i: nat, world: Mat)
      requires Valid() && i < |children|
      modifies Repr - {this}
      decreases Repr, 0
      ensures Valid()
      ensures forall k :: 0 <= k < |children| ==> children[k].Repr == old(children[k].Repr)
      ensures Snapshot(children[i]) == Updated(old(Snapshot(children[i])), Some(world), false)
      ensures forall k :: 0 <= k < |children| && k != i ==> Snapshot(children[k]) == old(Snapshot(children[k]))
    {
      var c := children[i];
      c.UpdateMatrixWorld(Some(world), false);
    }

    /** `update_matrix_world`: a node without a parent takes its local
      * matrix as world matrix; a child takes parent times local unless its
      * flag is set and the update is not forced; then the children follow,
      * never forced. */
    method UpdateMatrixWorld(parent: Option<Mat>, force: bool)
      requires Valid()
      modifies Repr
      decreases Repr, 2
      ensures Valid() && Repr == old(Repr)
      ensures Snapshot(this) == Updated(old(Snapshot(this)), parent, force)
    {
      ghost var before := Snapshot(this);
      SnapshotChildrenAll(this);
      UpdateOwnMatrices(parent, force);
      UpdateChildrenWorld(matrixWorld, before.children);
      SnapshotChildrenAll(this);
      UpdatedFromParts(before, Snapshot(this), parent, force);
    }

    /** The node's own step of `update_matrix_world`: the local matrix, then
      * the world matrix from the parent's; nothing below the node changes. */
    method UpdateOwnMatrices(parent: Option<Mat>, force: bool)
      requires Valid()
      modifies this
      ensures Valid() && Repr == old(Repr) && children == old(children)
      ensures visuals == old(visuals) && cameras == old(cameras) && SameTransform()
      ensures matrixLocal == NewLocal(old(Snapshot(this)), force)
      ensures matrixWorld == NewWorld(old(Snapshot(this)), parent, matrixLocal, force)
      ensures forall k :: 0 <= k < |children| ==> Snapshot(children[k]) == old(Snapshot(children[k]))
    {
      UpdateMatrixLocal(force);
      if parent.None? {
        matrixWorld := matrixLocal;
      } else if !dontUpdateMatrixWorld || force {
        matrixWorld := Mul(parent.value, matrixLocal);
      }
      OwnFieldsOnly(this);
    }
  }

  /** Changing only a node's own fields keeps it valid and leaves the
    * subtrees below it as they were. */
  twostate lemma OwnFieldsOnly(o: Object3D)
    requires old(o.Valid())
    requires o.children == old(o.children) && o.Repr == old(o.Repr)
    requires forall x :: x in old(o.Repr) && x != o ==> unchanged(x)
    ensures o.Valid()
    ensures forall k :: 0 <= k < |o.children| ==> Snapshot(o.children[k]) == old(Snapshot(o.children[k]))
  {
  }

  /** A snapshot whose own matrices are those of `update_matrix_world` and
    * whose children are updated from its new world matrix is the updated
    * snapshot. */
  lemma UpdatedFromParts(s: Node, t: Node, parent: Option<Mat>, force: bool)
    requires t == s.(local := NewLocal(s, force), world := NewWorld(s, parent, NewLocal(s, force), force),
                     children := t.children)
    requires |t.children| == |s.children|
    requires forall k :: 0 <= k < |t.children| ==> t.children[k] == Updated(s.children[k], Some(t.world), false)
    ensures t == Updated(s, parent, force)
  {
    assert t.children == Updated(s, parent, force).children;
  }

  /** The snapshot of a valid subtree, read from the heap. */
  function Snapshot(o: Object3D): (t: Node)
    requires o.Valid()
    reads o.Repr
    ensures t.obj == o && |t.children| == |o.children|
    decreases o.Repr, |o.children| + 1
  {
    Node(o, o.matrixLocal, o.matrixWorld, o.dontUpdateMatrixWorld, o.dontUpdateMatrixLocal,
         o.rotationOrder, o.position, o.euler, o.scale, o.visuals, o.cameras,
         SnapshotChildren(o, |o.children|))
  }

  function SnapshotChildren(o: Object3D, n: nat): (r: seq<Node>)
    requires o.Valid() && n <= |o.children|
    reads o.Repr
    ensures |r| == n
    decreases o.Repr, n
  {
    if n == 0 then []
    else SnapshotChildren(o, n - 1) + [Snapshot(o.children[n - 1])]
  }

  lemma {:induction false} SnapshotChildrenAt(o: Object3D, n: nat, k: nat)
    requires o.Valid() && k < n <= |o.children|
    ensures SnapshotChildren(o, n)[k] == Snapshot(o.children[k])
    decreases n
  {
    if k < n - 1 {
      SnapshotChildrenAt(o, n - 1, k);
    }
  }

  /** The children of a snapshot are the snapshots of the children. */
  lemma SnapshotChildrenAll(o: Object3D)
    requires o.Valid()
    ensures forall k :: 0 <= k < |o.children| ==> Snapshot(o).children[k] == Snapshot(o.children[k])
  {
    forall k | 0 <= k < |o.children|
      ensures Snapshot(o).children[k] == Snapshot(o.children[k])
    {
      SnapshotChildrenAt(o, |o.children|, k);
    }
  }

  /** No object occurs twice among the nodes. */
  predicate DistinctObjects(ns: seq<Node>)
  {
    forall i, j :: 0 <= i < j < |ns| ==> ns[i].obj != ns[j].obj
  }

  function UnionOf(sets: seq<set<Object3D>>): set<Object3D>
    decreases |sets|
  {
    if sets == [] then {} else UnionOf(sets[..|sets| - 1]) + sets[|sets| - 1]
  }

  lemma {:induction false} UnionOfDisjoint(sets: seq<set<Object3D>>, other: set<Object3D>)
    requires forall i :: 0 <= i < |sets| ==> sets[i] !! other
    ensures UnionOf(sets) !! other
    decreases |sets|
  {
    if sets != [] {
      UnionOfDisjoint(sets[..|sets| - 1], other);
    }
  }

  /** Concatenating parts whose objects are distinct and come from pairwise
    * disjoint sets gives distinct objects. */
  lemma {:induction false} ConcatDistinct(ss: seq<seq<Node>>, sets: seq<set<Object3D>>)
    requires |ss| == |sets|
    requires forall i :: 0 <= i < |ss| ==> DistinctObjects(ss[i])
    requires forall i, x :: 0 <= i < |ss| && x in ss[i] ==> x.obj in sets[i]
    requires forall i, j :: 0 <= i < j < |sets| ==> sets[i] !! sets[j]
    ensures DistinctObjects(Concat(ss))
    ensures forall x :: x in Concat(ss) ==> x.obj in UnionOf(sets)
    decreases |ss|
  {
    if ss != [] {
      var n := |ss| - 1;
      ConcatDistinct(ss[..n], sets[..n]);
      UnionOfDisjoint(sets[..n], sets[n]);
      var a: seq<Node>, b: seq<Node> := Concat(ss[..n]), ss[n];
      assert Concat(ss) == a + b;
      forall i, j | 0 <= i < j < |a + b|
        ensures (a + b)[i].obj != (a + b)[j].obj
      {
        if j < |a| {
          assert (a + b)[i] == a[i] && (a + b)[j] == a[j];
        } else if i >= |a| {
          assert (a + b)[i] == b[i - |a|] && (a + b)[j] == b[j - |a|];
        } else {
          assert (a + b)[i] == a[i] && a[i] in a;
          assert (a + b)[j] == b[j - |a|] && b[j - |a|] in b;
        }
      }
    }
  }

  /** Every node of a traversal is an object of the subtree, and each
    * object is visited once. */
  lemma {:induction false} PreorderOfTree(o: Object3D)
    requires o.Valid()
    ensures DistinctObjects(Preorder(Snapshot(o)))
    ensures forall x :: x in Preorder(Snapshot(o)) ==> x.obj in o.Repr
    decreases o.Repr
  {
    var t := Snapshot(o);
    SnapshotChildrenAll(o);
    var ps: seq<seq<Node>> := seq(|t.children|, i requires 0 <= i < |t.children| => Preorder(t.children[i]));
    var kids := o.children;
    var sets := seq(|kids|, i requires 0 <= i < |kids| reads kids => kids[i].Repr);
    forall i | 0 <= i < |ps|
      ensures DistinctObjects(ps[i]) && forall x :: x in ps[i] ==> x.obj in sets[i]
    {
      PreorderOfTree(o.children[i]);
    }
    ConcatDistinct(ps, sets);
    forall i | 0 <= i < |sets|
      ensures sets[i] !! {o}
    {
    }
    UnionOfDisjoint(sets, {o});
    var c: seq<Node> := Concat(ps);
    assert Preorder(t) == [t] + c;
    forall i, j | 0 <= i < j < |[t] + c|
      ensures ([t] + c)[i].obj != ([t] + c)[j].obj
    {
      if i == 0 {
        assert ([t] + c)[j] == c[j - 1] && c[j - 1] in c;
      } else {
        assert ([t] + c)[i] == c[i - 1] && ([t] + c)[j] == c[j - 1];
      }
    }
    UnionOfSubset(sets, o.Repr);
  }

  lemma {:induction false} UnionOfSubset(sets: seq<set<Object3D>>, bound: set<Object3D>)
    requires forall i :: 0 <= i < |sets| ==> sets[i] <= bound
    ensures UnionOf(sets) <= bound
    decreases |sets|
  {
    if sets != [] {
      UnionOfSubset(sets[..|sets| - 1], bound);
    }
  }

  /** `traverse` visits each object of the tree exactly once, itself
    * first. */
  lemma TraverseVisitsOnce(o: Object3D)
    requires o.Valid()
    ensures o.Traverse()[0] == o
    ensures forall i, j :: 0 <= i < j < |o.Traverse()| ==> o.Traverse()[i] != o.Traverse()[j]
    ensures forall x :: x in o.Traverse() ==> x in o.Repr
  {
    PreorderOfTree(o);
  }

  /** The camera loop of `render`, node by node. */
  method CameraViewsLoop(nodes: seq<Node>) returns (views: seq<(Camera, Mat)>)
    ensures views == CameraViews(nodes)
  {
    views := [];
    var i := 0;
    while i < |nodes|
      invariant 0 <= i <= |nodes|
      invariant views == CameraViews(nodes[..i])
    {
      var n := nodes[i];
      var j := 0;
      while j < |n.cameras|
        invariant 0 <= j <= |n.cameras|
        invariant views == CameraViews(nodes[..i])
          + seq(j, k requires 0 <= k < j => (n.cameras[k], Inverse(n.world)))
      {
        views := views + [(n.cameras[j], Inverse(n.world))];
        j := j + 1;
      }
      assert nodes[..i + 1][..i] == nodes[..i];
      i := i + 1;
    }
    assert nodes[..|nodes|] == nodes;
  }

  /** `Object3D.render`: updates every world matrix from the scene root,
    * computes each attached camera's view matrix, and hands the renderer
    * one entry per visual. It returns the visuals, which are the ones
    * attached to the tree, in traversal order. */
  method Render(viewport: Viewport, scene: Object3D, camera: Camera)
    returns (call: RenderCall, views: seq<(Camera, Mat)>, visuals: seq<VisualId>)
    requires scene.Valid()
    modifies scene.Repr
    ensures scene.Valid() && scene.Repr == old(scene.Repr)
    ensures Snapshot(scene) == Updated(old(Snapshot(scene)), None, false)
    ensures views == CameraViews(Preorder(Snapshot(scene)))
    ensures call == RenderCallOf(Preorder(Snapshot(scene)), viewport, camera)
    ensures visuals == call.visuals && visuals == VisualsBelow(old(Snapshot(scene)))
  {
    ghost var before := Snapshot(scene);
    scene.UpdateMatrixWorld(None, false);
    var nodes := Preorder(Snapshot(scene));
    views := CameraViewsLoop(nodes);
    call := RenderCallOf(nodes, viewport, camera);
    visuals := call.visuals;
    GatherPreorder(Snapshot(scene));
    UpdatedKeepsVisuals(before, None, false);
  }
}
