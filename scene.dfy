/**
 * The part of the host scene graph the core reads and writes: a transform
 * hierarchy (names, parents, children) with a layer number per node, axis-aligned
 * bounding boxes, and the skinned mesh renderers found under a character.
 */
module Scene {
  import opened Wrappers
  import opened Strings

  /**
   * Transform nodes numbered 0..n-1. A node's parent has a smaller number (the
   * hierarchy is acyclic), and `children[p]` lists, in sibling order, exactly the
   * nodes whose parent is `p`.
   */
  datatype Hierarchy = Hierarchy(names: seq<string>, parent: seq<Option<nat>>, children: seq<seq<nat>>)

  /** Every parent link points to a smaller number, so walking up always ends. */
  ghost predicate ParentsBelow(h: Hierarchy) {
    && |h.parent| == |h.names|
    && (forall i :: 0 <= i < |h.parent| && h.parent[i].Some? ==> h.parent[i].value < i)
  }

  ghost predicate Valid(h: Hierarchy) {
    && ParentsBelow(h)
    && |h.children| == |h.names|
    && (forall p, j :: 0 <= p < |h.children| && 0 <= j < |h.children[p]| ==>
          p < h.children[p][j] < |h.names| && h.parent[h.children[p][j]] == Some(p))
    && (forall c :: 0 <= c < |h.parent| && h.parent[c].Some? ==> c in h.children[h.parent[c].value])
  }

  // ---------------------------------------------------------------------------
  // Relative paths

  /**
   * The nodes from just below `root` (or from the top of the hierarchy, when
   * `root` is not an ancestor) down to `t`.
   */
  ghost function Chain(h: Hierarchy, root: nat, t: nat): seq<nat>
    requires ParentsBelow(h) && t < |h.names|
    decreases t
  {
    match h.parent[t]
    case None => [t]
    case Some(p) => if p == root then [t] else Chain(h, root, p) + [t]
  }

  ghost function NamesOf(h: Hierarchy, ns: seq<nat>): (r: seq<string>)
    requires forall i :: 0 <= i < |ns| ==> ns[i] < |h.names|
    ensures |r| == |ns|
    ensures forall i :: 0 <= i < |ns| ==> r[i] == h.names[ns[i]]
  {
    if ns == [] then [] else [h.names[ns[0]]] + NamesOf(h, ns[1..])
  }

  /** The '/'-joined names from just below `root` down to `target`; "" for the root itself. */
  ghost function RelativePath(h: Hierarchy, root: nat, target: nat): string
    requires ParentsBelow(h) && target < |h.names|
  {
    if target == root then ""
    else
      ChainInRange(h, root, target);
      Join(NamesOf(h, Chain(h, root, target)), "/")
  }

  lemma {:induction false} ChainInRange(h: Hierarchy, root: nat, t: nat)
    requires ParentsBelow(h) && t < |h.names|
    ensures forall i :: 0 <= i < |Chain(h, root, t)| ==> Chain(h, root, t)[i] <= t
    decreases t
  {
    match h.parent[t]
    case None =>
    case Some(p) => if p != root { ChainInRange(h, root, p); }
  }

  /**
   * `c` is the ancestor line of `t` below `root`: it ends at `t`, each node is the
   * parent of the next, the first node hangs directly below `root` or has no
   * parent, and `root` itself is not on it.
   */
  ghost predicate IsAncestorLine(h: Hierarchy, root: nat, t: nat, c: seq<nat>)
    requires ParentsBelow(h)
  {
    && c != [] && c[|c| - 1] == t
    && (forall i :: 0 <= i < |c| ==> c[i] < |h.names|)
    && (h.parent[c[0]] == None || h.parent[c[0]] == Some(root))
    && (forall i :: 1 <= i < |c| ==> h.parent[c[i]] == Some(c[i - 1]))
    && root !in c
  }

  lemma {:induction false} ChainIsAncestorLine(h: Hierarchy, root: nat, t: nat)
    requires ParentsBelow(h) && t < |h.names| && t != root
    ensures IsAncestorLine(h, root, t, Chain(h, root, t))
    decreases t
  {
    match h.parent[t]
    case None =>
    case Some(p) =>
      if p != root {
        ChainIsAncestorLine(h, root, p);
      }
  }

  /**
   * What stands in front of a node's own name in its relative path, given the
   * node's parent: nothing below the root or at the top, else the parent's path and '/'.
   */
  ghost function PrefixBelow(h: Hierarchy, root: nat, parent: Option<nat>): string
    requires ParentsBelow(h) && (parent.Some? ==> parent.value < |h.names|)
  {
    if parent.None? || parent.value == root then "" else RelativePath(h, root, parent.value) + "/"
  }

  /** A node's relative path is its parent's prefix followed by its own name. */
  lemma {:induction false} RelativePathStep(h: Hierarchy, root: nat, p: nat)
    requires ParentsBelow(h) && p < |h.names| && p != root
    ensures h.parent[p].Some? ==> h.parent[p].value < |h.names|
    ensures RelativePath(h, root, p) == PrefixBelow(h, root, h.parent[p]) + h.names[p]
  {
    ChainInRange(h, root, p);
    match h.parent[p]
    case None =>
    case Some(q) =>
      if q != root {
        ChainInRange(h, root, q);
        var c := Chain(h, root, q);
        assert Chain(h, root, p) == c + [p];
        var parts := NamesOf(h, c + [p]);
        assert parts[..|parts| - 1] == NamesOf(h, c);
      }
  }

  /** One step of the walk up: the parent's name moves from the prefix into the path. */
  lemma WalkUpStep(h: Hierarchy, root: nat, target: nat, p: nat, path: string)
    requires ParentsBelow(h) && target < |h.names| && p < |h.names| && p != root
    requires RelativePath(h, root, target) == PrefixBelow(h, root, Some(p)) + path
    ensures h.parent[p].Some? ==> h.parent[p].value < |h.names|
    ensures RelativePath(h, root, target) == PrefixBelow(h, root, h.parent[p]) + (h.names[p] + "/" + path)
  {
    RelativePathStep(h, root, p);
  }

  /** `GetRelativePath(root, target)`: walks up the parents, prepending names. */
  method GetRelativePath(h: Hierarchy, root: nat, target: nat) returns (path: string)
    requires ParentsBelow(h) && target < |h.names|
    ensures path == RelativePath(h, root, target)
  {
    if target == root { return ""; }
    path := h.names[target];
    var parent: Option<nat> := h.parent[target];
    RelativePathStep(h, root, target);
    while parent.Some? && parent.value != root
      invariant parent.Some? ==> parent.value < |h.names|
      invariant RelativePath(h, root, target) == PrefixBelow(h, root, parent) + path
      decreases if parent.Some? then parent.value + 1 else 0
    {
      var p := parent.value;
      WalkUpStep(h, root, target, p, path);
      path := h.names[p] + "/" + path;
      parent := h.parent[p];
    }
  }

  // ---------------------------------------------------------------------------
  // Layers

  /** `m` is `n` or lies below it. */
  ghost predicate InSubtree(h: Hierarchy, n: nat, m: nat)
    requires Valid(h) && n < |h.names|
    decreases |h.names| - n
  {
    n == m || exists j :: 0 <= j < |h.children[n]| && InSubtree(h, h.children[n][j], m)
  }

  /** Some node of `cs` has `m` in its subtree. */
  ghost predicate CoveredBy(h: Hierarchy, cs: seq<nat>, m: nat)
    requires Valid(h) && forall j :: 0 <= j < |cs| ==> cs[j] < |h.names|
  {
    exists j :: 0 <= j < |cs| && InSubtree(h, cs[j], m)
  }

  /** One more child covers what the earlier ones did and its own subtree. */
  lemma CoveredBySnoc(h: Hierarchy, cs: seq<nat>, i: nat, m: nat)
    requires Valid(h) && (forall j :: 0 <= j < |cs| ==> cs[j] < |h.names|) && i < |cs|
    ensures CoveredBy(h, cs[..i + 1], m) <==> CoveredBy(h, cs[..i], m) || InSubtree(h, cs[i], m)
  {
    if InSubtree(h, cs[i], m) {
      assert cs[..i + 1][i] == cs[i];
    }
    if CoveredBy(h, cs[..i + 1], m) && !InSubtree(h, cs[i], m) {
      var j :| 0 <= j < i + 1 && InSubtree(h, cs[..i + 1][j], m);
      assert j < i && cs[..i][j] == cs[..i + 1][j];
    }
    if CoveredBy(h, cs[..i], m) {
      var j :| 0 <= j < i && InSubtree(h, cs[..i][j], m);
      assert cs[..i + 1][j] == cs[..i][j];
    }
  }

  /**
   * `SetLayerRecursively(obj, layer)`: every node of the subtree gets `layer`; no
   * other node changes.
   */
  method SetLayerRecursively(h: Hierarchy, layers: array<int>, n: nat, layer: int)
    requires Valid(h) && n < |h.names| && layers.Length == |h.names|
    modifies layers
    ensures forall m :: 0 <= m < layers.Length ==>
      layers[m] == if InSubtree(h, n, m) then layer else old(layers[m])
    decreases |h.names| - n
  {
    layers[n] := layer;
    var cs := h.children[n];
    var i := 0;
    while i < |cs|
      invariant 0 <= i <= |cs|
      invariant forall m :: 0 <= m < layers.Length ==>
        layers[m] == if m == n || CoveredBy(h, cs[..i], m) then layer else old(layers[m])
    {
      ghost var before := layers[..];
      SetLayerRecursively(h, layers, cs[i], layer);
      forall m | 0 <= m < layers.Length
        ensures CoveredBy(h, cs[..i + 1], m) <==> CoveredBy(h, cs[..i], m) || InSubtree(h, cs[i], m)
      {
        CoveredBySnoc(h, cs, i, m);
      }
      i := i + 1;
    }
    assert cs[..i] == cs;
  }

  // ---------------------------------------------------------------------------
  // Geometry

  datatype Vec3 = Vec3(x: real, y: real, z: real)

  function Min(a: real, b: real): real { if a <= b then a else b }
  function Max(a: real, b: real): real { if a <= b then b else a }

  /** An axis-aligned box, given by its smallest and largest corner. */
  datatype Bounds = Bounds(min: Vec3, max: Vec3)

  function Center(b: Bounds): Vec3 {
    Vec3((b.min.x + b.max.x) / 2.0, (b.min.y + b.max.y) / 2.0, (b.min.z + b.max.z) / 2.0)
  }

  function Size(b: Bounds): Vec3 {
    Vec3(b.max.x - b.min.x, b.max.y - b.min.y, b.max.z - b.min.z)
  }

  /** `new Bounds(center, Vector3.zero)`: a box of no extent at one point. */
  function PointBounds(p: Vec3): Bounds {
    Bounds(p, p)
  }

  predicate ContainsPoint(b: Bounds, p: Vec3) {
    b.min.x <= p.x <= b.max.x && b.min.y <= p.y <= b.max.y && b.min.z <= p.z <= b.max.z
  }

  /** `outer` spans at least the corners of `inner`. */
  predicate ContainsBox(outer: Bounds, inner: Bounds) {
    && outer.min.x <= inner.min.x && outer.min.y <= inner.min.y && outer.min.z <= inner.min.z
    && inner.max.x <= outer.max.x && inner.max.y <= outer.max.y && inner.max.z <= outer.max.z
  }

  /** `Bounds.Encapsulate(b)`: the smallest box spanning both. */
  function Encapsulate(a: Bounds, b: Bounds): (r: Bounds)
    ensures ContainsBox(r, a) && ContainsBox(r, b)
    ensures forall o: Bounds :: ContainsBox(o, a) && ContainsBox(o, b) ==> ContainsBox(o, r)
  {
    Bounds(
      Vec3(Min(a.min.x, b.min.x), Min(a.min.y, b.min.y), Min(a.min.z, b.min.z)),
      Vec3(Max(a.max.x, b.max.x), Max(a.max.y, b.max.y), Max(a.max.z, b.max.z)))
  }

  lemma ContainsBoxTransitive(a: Bounds, b: Bounds, c: Bounds)
    requires ContainsBox(a, b) && ContainsBox(b, c)
    ensures ContainsBox(a, c)
  {
  }

  // ---------------------------------------------------------------------------
  // Renderers

  /** A mesh, as far as the core is concerned: its blend-shape names, by index. */
  type Mesh = seq<string>

  /**
   * A `SkinnedMeshRenderer` under the character: the node it sits on, its shared
   * mesh (missing when none is assigned) and its world-space bounds.
   */
  datatype SkinnedRenderer = SkinnedRenderer(node: nat, mesh: Option<Mesh>, bounds: Bounds)

  /** `sharedMesh != null && sharedMesh.blendShapeCount > 0`. */
  predicate HasBlendShapes(r: SkinnedRenderer) {
    r.mesh.Some? && |r.mesh.value| > 0
  }

  /** `sharedMesh.blendShapeCount`, 0 without a mesh. */
  function BlendShapeCount(r: SkinnedRenderer): nat {
    if r.mesh.Some? then |r.mesh.value| else 0
  }

  ghost predicate RenderersIn(h: Hierarchy, rs: seq<SkinnedRenderer>) {
    forall i :: 0 <= i < |rs| ==> rs[i].node < |h.names|
  }
}
