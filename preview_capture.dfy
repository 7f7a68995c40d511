/**
 * The logic around preview capture: how the face is framed (which renderers'
 * bounds are used, where the camera goes), how an expression's morph-target
 * bindings are written into the avatar's blend-shape weights and reset
 * afterwards, and what one capture returns and leaves behind.
 */
module PreviewCapture {
  import opened Wrappers
  import opened Strings
  import opened Paths
  import opened Scene
  import opened VrmSource

  /** The layer the avatar is moved to while it is rendered. */
  const PreviewLayer := 31

  // ---------------------------------------------------------------------------
  // Material properties

  /** The shader property a material-colour binding writes; unnamed kinds fall back to `_Color`. */
  function GetMaterialPropertyName(t: MaterialColorType): (r: string)
    ensures r in ["_Color", "_EmissionColor", "_ShadeColor", "_RimColor", "_OutlineColor"]
    ensures t.Other? ==> r == "_Color"
  {
    match t
    case ColorKind => "_Color"
    case EmissionColor => "_EmissionColor"
    case ShadeColor => "_ShadeColor"
    case RimColor => "_RimColor"
    case OutlineColor => "_OutlineColor"
    case Other(_) => "_Color"
  }

  /** The named kind a property name belongs to. */
  function PropertyKind(name: string): Option<MaterialColorType> {
    if name == "_Color" then Some(ColorKind)
    else if name == "_EmissionColor" then Some(EmissionColor)
    else if name == "_ShadeColor" then Some(ShadeColor)
    else if name == "_RimColor" then Some(RimColor)
    else if name == "_OutlineColor" then Some(OutlineColor)
    else None
  }

  /** Each named kind has its own property; only the unnamed ones share `_Color` with `ColorKind`. */
  lemma MaterialPropertyRoundTrip(t: MaterialColorType)
    ensures PropertyKind(GetMaterialPropertyName(t)) == if t.Other? then Some(ColorKind) else Some(t)
  {
    var r := GetMaterialPropertyName(t);
    match t
    case ColorKind =>
    case EmissionColor =>
      assert r[1] == 'E';
    case ShadeColor =>
      assert r[1] == 'S';
    case RimColor =>
      assert r[1] == 'R';
    case OutlineColor =>
      assert r[1] == 'O';
    case Other(_) =>
  }

  // ---------------------------------------------------------------------------
  // Model bounds

  /** `GetModelBounds`: a point box at the model's position grown over every renderer's bounds. */
  function ModelBounds(position: Vec3, bs: seq<Bounds>): (r: Bounds)
    ensures ContainsPoint(r, position)
    ensures forall i :: 0 <= i < |bs| ==> ContainsBox(r, bs[i])
  {
    if bs == [] then PointBounds(position)
    else
      var prev := ModelBounds(position, bs[..|bs| - 1]);
      var r := Encapsulate(prev, bs[|bs| - 1]);
      assert forall i :: 0 <= i < |bs| - 1 ==> bs[..|bs| - 1][i] == bs[i];
      forall i | 0 <= i < |bs| - 1 ensures ContainsBox(r, bs[i]) {
        ContainsBoxTransitive(r, prev, bs[i]);
      }
      r
  }

  /** The model bounds are the smallest box around the position and every renderer. */
  lemma {:induction false} ModelBoundsSmallest(position: Vec3, bs: seq<Bounds>, o: Bounds)
    requires ContainsPoint(o, position)
    requires forall i :: 0 <= i < |bs| ==> ContainsBox(o, bs[i])
    ensures ContainsBox(o, ModelBounds(position, bs))
  {
    if bs != [] {
      assert forall i :: 0 <= i < |bs| - 1 ==> bs[..|bs| - 1][i] == bs[i];
      ModelBoundsSmallest(position, bs[..|bs| - 1], o);
    }
  }

  method GetModelBounds(position: Vec3, bs: seq<Bounds>) returns (bounds: Bounds)
    ensures bounds == ModelBounds(position, bs)
  {
    bounds := PointBounds(position);
    for i := 0 to |bs|
      invariant bounds == ModelBounds(position, bs[..i])
    {
      assert bs[..i + 1][..i] == bs[..i];
      bounds := Encapsulate(bounds, bs[i]);
    }
    assert bs[..|bs|] == bs;
  }

  // ---------------------------------------------------------------------------
  // Face bounds

  /** A renderer counts for the face when its name, or its path below the model, contains "face" in lower case. */
  ghost predicate IsFaceMesh(h: Hierarchy, root: nat, r: SkinnedRenderer)
    requires ParentsBelow(h) && r.node < |h.names|
  {
    && HasBlendShapes(r)
    && (Contains(ToLower(h.names[r.node]), "face") || Contains(ToLower(RelativePath(h, root, r.node)), "face"))
  }

  /** The renderer is in the tier: the "face" meshes for tier 1, every blend-shape mesh for tier 2. */
  ghost predicate InTier(h: Hierarchy, root: nat, r: SkinnedRenderer, faceOnly: bool)
    requires ParentsBelow(h) && r.node < |h.names|
  {
    if faceOnly then IsFaceMesh(h, root, r) else HasBlendShapes(r)
  }

  /** The nullable accumulator: the first box, then each next one encapsulated. */
  function Grow(acc: Option<Bounds>, b: Bounds): (r: Bounds)
    ensures ContainsBox(r, b) && (acc.Some? ==> ContainsBox(r, acc.value))
  {
    if acc.None? then b else Encapsulate(acc.value, b)
  }

  /** The union of the tier's renderer bounds, `None` when the tier is empty. */
  ghost function TierBounds(h: Hierarchy, root: nat, rs: seq<SkinnedRenderer>, faceOnly: bool): Option<Bounds>
    requires ParentsBelow(h) && RenderersIn(h, rs)
  {
    if rs == [] then None
    else
      var prev := TierBounds(h, root, rs[..|rs| - 1], faceOnly);
      if InTier(h, root, rs[|rs| - 1], faceOnly) then Some(Grow(prev, rs[|rs| - 1].bounds)) else prev
  }

  /** The three tiers of `GetFaceMeshBounds`, each used only when the ones before it are empty. */
  ghost function FaceMeshBounds(h: Hierarchy, root: nat, rs: seq<SkinnedRenderer>, position: Vec3, all: seq<Bounds>): Bounds
    requires ParentsBelow(h) && RenderersIn(h, rs)
  {
    var face := TierBounds(h, root, rs, true);
    var shaped := TierBounds(h, root, rs, false);
    if face.Some? then face.value else if shaped.Some? then shaped.value else ModelBounds(position, all)
  }

  /** A tier is empty exactly when none of the renderers belongs to it. */
  lemma {:induction false} TierBoundsNone(h: Hierarchy, root: nat, rs: seq<SkinnedRenderer>, faceOnly: bool)
    requires ParentsBelow(h) && RenderersIn(h, rs)
    ensures TierBounds(h, root, rs, faceOnly).None? <==> forall i :: 0 <= i < |rs| ==> !InTier(h, root, rs[i], faceOnly)
  {
    if rs != [] {
      var n := |rs| - 1;
      TierBoundsNone(h, root, rs[..n], faceOnly);
      assert forall i :: 0 <= i < n ==> rs[..n][i] == rs[i];
    }
  }

  /** A non-empty tier's box holds every renderer of the tier. */
  lemma {:induction false} TierBoundsCover(h: Hierarchy, root: nat, rs: seq<SkinnedRenderer>, faceOnly: bool, i: nat)
    requires ParentsBelow(h) && RenderersIn(h, rs)
    requires i < |rs| && InTier(h, root, rs[i], faceOnly)
    ensures TierBounds(h, root, rs, faceOnly).Some?
    ensures ContainsBox(TierBounds(h, root, rs, faceOnly).value, rs[i].bounds)
  {
    var n := |rs| - 1;
    if i < n {
      assert rs[..n][i] == rs[i];
      TierBoundsCover(h, root, rs[..n], faceOnly, i);
      var prev := TierBounds(h, root, rs[..n], faceOnly);
      if InTier(h, root, rs[n], faceOnly) {
        ContainsBoxTransitive(Grow(prev, rs[n].bounds), prev.value, rs[i].bounds);
      }
    }
  }

  /** A non-empty tier's box is no larger than needed: any box holding the tier's renderers holds it. */
  lemma {:induction false} TierBoundsSmallest(h: Hierarchy, root: nat, rs: seq<SkinnedRenderer>, faceOnly: bool, o: Bounds)
    requires ParentsBelow(h) && RenderersIn(h, rs)
    requires forall i :: 0 <= i < |rs| && InTier(h, root, rs[i], faceOnly) ==> ContainsBox(o, rs[i].bounds)
    requires TierBounds(h, root, rs, faceOnly).Some?
    ensures ContainsBox(o, TierBounds(h, root, rs, faceOnly).value)
  {
    var n := |rs| - 1;
    assert forall i :: 0 <= i < n ==> rs[..n][i] == rs[i];
    var prev := TierBounds(h, root, rs[..n], faceOnly);
    if prev.Some? {
      TierBoundsSmallest(h, root, rs[..n], faceOnly, o);
    }
  }

  /** Every "face" mesh is in the blend-shape tier too, so tier 1 is never larger than tier 2. */
  lemma FaceTierWithinShapedTier(h: Hierarchy, root: nat, rs: seq<SkinnedRenderer>)
    requires ParentsBelow(h) && RenderersIn(h, rs)
    requires TierBounds(h, root, rs, true).Some?
    ensures TierBounds(h, root, rs, false).Some?
    ensures ContainsBox(TierBounds(h, root, rs, false).value, TierBounds(h, root, rs, true).value)
  {
    TierBoundsNone(h, root, rs, true);
    var i :| 0 <= i < |rs| && InTier(h, root, rs[i], true);
    TierBoundsCover(h, root, rs, false, i);
    forall j | 0 <= j < |rs| && InTier(h, root, rs[j], true)
      ensures ContainsBox(TierBounds(h, root, rs, false).value, rs[j].bounds)
    {
      TierBoundsCover(h, root, rs, false, j);
    }
    TierBoundsSmallest(h, root, rs, true, TierBounds(h, root, rs, false).value);
  }

  /** One pass of `GetFaceMeshBounds` over the renderers, accumulating the nullable box. */
  method AccumulateTier(h: Hierarchy, root: nat, rs: seq<SkinnedRenderer>, faceOnly: bool) returns (acc: Option<Bounds>)
    requires ParentsBelow(h) && RenderersIn(h, rs)
    ensures acc == TierBounds(h, root, rs, faceOnly)
  {
    acc := None;
    for i := 0 to |rs|
      invariant acc == TierBounds(h, root, rs[..i], faceOnly)
    {
      assert rs[..i + 1][..i] == rs[..i];
      var r := rs[i];
      if HasBlendShapes(r) {
        var meshPath := GetRelativePath(h, root, r.node);
        var name := h.names[r.node];
        if !faceOnly || Contains(ToLower(name), "face") || Contains(ToLower(meshPath), "face") {
          acc := Some(Grow(acc, r.bounds));
        }
      }
    }
    assert rs[..|rs|] == rs;
  }

  /**
   * `GetFaceMeshBounds`: the "face" meshes, failing those every blend-shape
   * mesh, failing those the whole model.
   */
  method GetFaceMeshBounds(h: Hierarchy, root: nat, rs: seq<SkinnedRenderer>, position: Vec3, all: seq<Bounds>)
    returns (bounds: Bounds)
    requires ParentsBelow(h) && RenderersIn(h, rs)
    ensures bounds == FaceMeshBounds(h, root, rs, position, all)
  {
    var faceBounds := AccumulateTier(h, root, rs, true);
    if faceBounds.None? {
      faceBounds := AccumulateTier(h, root, rs, false);
    }
    if faceBounds.None? {
      bounds := GetModelBounds(position, all);
      return;
    }
    bounds := faceBounds.value;
  }

  /**
   * What the face box means: with a "face" mesh it is the smallest box around
   * the "face" meshes; without one but with a blend-shape mesh, the smallest
   * box around those; with neither, the model bounds, which hold the model's
   * position.
   */
  lemma FaceMeshBoundsMeaning(h: Hierarchy, root: nat, rs: seq<SkinnedRenderer>, position: Vec3, all: seq<Bounds>, o: Bounds)
    requires ParentsBelow(h) && RenderersIn(h, rs)
    ensures var b := FaceMeshBounds(h, root, rs, position, all);
      && ((exists i :: 0 <= i < |rs| && IsFaceMesh(h, root, rs[i])) ==>
            && (forall i :: 0 <= i < |rs| && IsFaceMesh(h, root, rs[i]) ==> ContainsBox(b, rs[i].bounds))
            && ((forall i :: 0 <= i < |rs| && IsFaceMesh(h, root, rs[i]) ==> ContainsBox(o, rs[i].bounds)) ==> ContainsBox(o, b)))
      && ((forall i :: 0 <= i < |rs| ==> !IsFaceMesh(h, root, rs[i])) && (exists i :: 0 <= i < |rs| && HasBlendShapes(rs[i])) ==>
            && (forall i :: 0 <= i < |rs| && HasBlendShapes(rs[i]) ==> ContainsBox(b, rs[i].bounds))
            && ((forall i :: 0 <= i < |rs| && HasBlendShapes(rs[i]) ==> ContainsBox(o, rs[i].bounds)) ==> ContainsBox(o, b)))
      && ((forall i :: 0 <= i < |rs| ==> !HasBlendShapes(rs[i])) ==> b == ModelBounds(position, all) && ContainsPoint(b, position))
  {
    TierBoundsNone(h, root, rs, true);
    TierBoundsNone(h, root, rs, false);
    var face := TierBounds(h, root, rs, true);
    var shaped := TierBounds(h, root, rs, false);
    if face.Some? {
      forall i | 0 <= i < |rs| && IsFaceMesh(h, root, rs[i]) ensures ContainsBox(face.value, rs[i].bounds) {
        TierBoundsCover(h, root, rs, true, i);
      }
      if forall i :: 0 <= i < |rs| && IsFaceMesh(h, root, rs[i]) ==> ContainsBox(o, rs[i].bounds) {
        TierBoundsSmallest(h, root, rs, true, o);
      }
    } else if shaped.Some? {
      forall i | 0 <= i < |rs| && HasBlendShapes(rs[i]) ensures ContainsBox(shaped.value, rs[i].bounds) {
        TierBoundsCover(h, root, rs, false, i);
      }
      if forall i :: 0 <= i < |rs| && HasBlendShapes(rs[i]) ==> ContainsBox(o, rs[i].bounds) {
        TierBoundsSmallest(h, root, rs, false, o);
      }
    }
  }

  // ---------------------------------------------------------------------------
  // Camera

  /** Where `PositionCamera` puts the camera and what it looks at. */
  datatype CameraPlacement = CameraPlacement(target: Vec3, position: Vec3, distance: real)

  /**
   * `PositionCamera`: a face centre below 0.5 is lifted to the estimated head
   * height 1.5, a face height under 0.1 is taken as 0.25, and the camera stands
   * 2.5 face heights in front of the centre along +z.
   */
  function PositionCamera(face: Bounds): (r: CameraPlacement)
    ensures r.target.y >= 0.5 && r.distance >= 0.25
    ensures r.target.x == Center(face).x && r.target.z == Center(face).z
    ensures Center(face).y >= 0.5 ==> r.target.y == Center(face).y
    ensures Center(face).y < 0.5 ==> r.target.y == 1.5
    ensures Size(face).y >= 0.1 ==> r.distance == 2.5 * Size(face).y
    ensures Size(face).y < 0.1 ==> r.distance == 0.625
    ensures r.position == Vec3(r.target.x, r.target.y, r.target.z + r.distance)
  {
    var c := Center(face);
    var target := if c.y < 0.5 then Vec3(c.x, 1.5, c.z) else c;
    var faceHeight := if Size(face).y < 0.1 then 0.25 else Size(face).y;
    var distance := faceHeight * 2.5;
    CameraPlacement(target, Vec3(target.x, target.y, target.z + distance), distance)
  }

  // ---------------------------------------------------------------------------
  // Weights

  /** One binding, when its path resolves to a skinned renderer and its index is in range. */
  function SetWeight(w: seq<seq<real>>, resolve: string -> Option<nat>, b: MorphTargetBinding): (r: seq<seq<real>>)
    ensures |r| == |w| && forall k :: 0 <= k < |w| ==> |r[k]| == |w[k]|
  {
    var target := resolve(b.relativePath);
    if target.Some? && target.value < |w| && 0 <= b.index < |w[target.value]|
    then w[target.value := w[target.value][b.index := b.weight * 100.0]]
    else w
  }

  /** The weights after the bindings are written in order. */
  function Applied(w: seq<seq<real>>, resolve: string -> Option<nat>, bs: seq<MorphTargetBinding>): (r: seq<seq<real>>)
    ensures |r| == |w| && forall k :: 0 <= k < |w| ==> |r[k]| == |w[k]|
  {
    if bs == [] then w else SetWeight(Applied(w, resolve, bs[..|bs| - 1]), resolve, bs[|bs| - 1])
  }

  /** Binding `j` writes weight `i` of renderer `k`. */
  predicate Hits(w: seq<seq<real>>, resolve: string -> Option<nat>, b: MorphTargetBinding, k: nat, i: nat) {
    resolve(b.relativePath) == Some(k) && k < |w| && b.index == i && i < |w[k]|
  }

  /** Every weight no binding hits is unchanged. */
  lemma {:induction false} AppliedUntouched(w: seq<seq<real>>, resolve: string -> Option<nat>, bs: seq<MorphTargetBinding>, k: nat, i: nat)
    requires k < |w| && i < |w[k]|
    requires forall j :: 0 <= j < |bs| ==> !Hits(w, resolve, bs[j], k, i)
    ensures Applied(w, resolve, bs)[k][i] == w[k][i]
  {
    if bs != [] {
      var n := |bs| - 1;
      assert forall j :: 0 <= j < n ==> bs[..n][j] == bs[j];
      AppliedUntouched(w, resolve, bs[..n], k, i);
      assert !Hits(w, resolve, bs[n], k, i);
    }
  }

  /** A weight several bindings hit ends at 100 times the last one's weight. */
  lemma {:induction false} AppliedLastWins(w: seq<seq<real>>, resolve: string -> Option<nat>, bs: seq<MorphTargetBinding>, k: nat, i: nat, j: nat)
    requires j < |bs| && Hits(w, resolve, bs[j], k, i)
    requires forall m :: j < m < |bs| ==> !Hits(w, resolve, bs[m], k, i)
    ensures Applied(w, resolve, bs)[k][i] == bs[j].weight * 100.0
  {
    var n := |bs| - 1;
    if j < n {
      assert forall m :: j < m < n ==> bs[..n][m] == bs[m];
      assert bs[..n][j] == bs[j];
      AppliedLastWins(w, resolve, bs[..n], k, i, j);
      assert !Hits(w, resolve, bs[n], k, i);
    }
  }

  /**
   * Renderer `k` is one `GetComponentsInChildren<SkinnedMeshRenderer>()`
   * returns: its game object is active in the hierarchy.
   */
  predicate IsActive(active: seq<bool>, k: int) {
    0 <= k < |active| && active[k]
  }

  /**
   * Every weight of every active renderer set to zero; inactive renderers keep
   * their weights, and each renderer keeps its number of blend shapes.
   */
  function Zeroed(w: seq<seq<real>>, active: seq<bool>): (r: seq<seq<real>>)
    ensures |r| == |w|
    ensures forall k :: 0 <= k < |w| ==> |r[k]| == |w[k]|
    ensures forall k :: 0 <= k < |w| && IsActive(active, k) ==> forall i :: 0 <= i < |w[k]| ==> r[k][i] == 0.0
    ensures forall k :: 0 <= k < |w| && !IsActive(active, k) ==> r[k] == w[k]
  {
    seq(|w|, k requires 0 <= k < |w| => if IsActive(active, k) then seq(|w[k]|, _ => 0.0) else w[k])
  }

  /**
   * On an active renderer, resetting after applying gives the same zeros as
   * resetting at once: the bindings leave no trace there. An inactive renderer
   * keeps what the bindings wrote.
   */
  lemma ResetForgetsExpression(w: seq<seq<real>>, active: seq<bool>, resolve: string -> Option<nat>, bs: seq<MorphTargetBinding>)
    ensures forall k :: 0 <= k < |w| && IsActive(active, k) ==> Zeroed(Applied(w, resolve, bs), active)[k] == Zeroed(w, active)[k]
    ensures forall k :: 0 <= k < |w| && !IsActive(active, k) ==> Zeroed(Applied(w, resolve, bs), active)[k] == Applied(w, resolve, bs)[k]
  {
  }

  /** A reset is not a restore: a weight the avatar had before is not brought back. */
  lemma ResetIsNotRestore()
    ensures Zeroed(Applied([[50.0]], _ => None, []), [true]) != [[50.0]]
  {
    assert Zeroed([[50.0]], [true])[0][0] == 0.0;
  }

  /** A binding on a disabled mesh survives the reset: the weight stays at 100 times the binding's. */
  lemma DisabledMeshKeepsExpression()
    ensures Zeroed(Applied([[0.0]], _ => Some(0), [MorphTargetBinding("Face", 0, 0.5)]), [false]) == [[50.0]]
  {
    var resolve: string -> Option<nat> := _ => Some(0);
    var bs := [MorphTargetBinding("Face", 0, 0.5)];
    assert bs[..0] == [];
    assert Applied([[0.0]], resolve, bs) == SetWeight([[0.0]], resolve, bs[0]);
    var a := SetWeight([[0.0]], resolve, bs[0]);
    assert a == [[0.0]][0 := [[0.0]][0][0 := 0.5 * 100.0]];
    assert a[0] == [50.0];
    assert a == [[50.0]];
    assert Zeroed(a, [false])[0] == [50.0];
  }

  /**
   * The avatar being captured: its hierarchy and root, the layer of each node,
   * `Transform.Find` followed by `GetComponent<SkinnedMeshRenderer>` as
   * `resolve`, whether each skinned renderer is active, and the current
   * blend-shape weights of each skinned renderer (none for a renderer without
   * a mesh).
   */
  class Avatar {
    const hierarchy: Hierarchy
    const root: nat
    const layers: array<int>
    const resolve: string -> Option<nat>
    const active: seq<bool>
    var weights: seq<seq<real>>

    ghost predicate Valid()
      reads this
    {
      Scene.Valid(hierarchy) && root < |hierarchy.names| && layers.Length == |hierarchy.names| && |active| == |weights|
    }

    constructor(h: Hierarchy, root: nat, layers: array<int>, resolve: string -> Option<nat>, active: seq<bool>, weights: seq<seq<real>>)
      requires Scene.Valid(h) && root < |h.names| && layers.Length == |h.names| && |active| == |weights|
      ensures Valid()
      ensures hierarchy == h && this.root == root && this.layers == layers && this.resolve == resolve
      ensures this.active == active && this.weights == weights
    {
      hierarchy := h;
      this.root := root;
      this.layers := layers;
      this.resolve := resolve;
      this.active := active;
      this.weights := weights;
    }

    /** `ApplyExpression`, morph part: writes each binding's weight times 100; a missing list writes nothing. */
    method ApplyExpression(e: VRM10Expression)
      requires Valid()
      modifies this
      ensures Valid()
      ensures weights == Applied(old(weights), resolve, e.morphTargetBindings.GetOr([]))
    {
      if e.morphTargetBindings.None? {
        return;
      }
      var bs := e.morphTargetBindings.value;
      ghost var w0 := weights;
      for j := 0 to |bs|
        invariant weights == Applied(w0, resolve, bs[..j])
      {
        assert bs[..j + 1][..j] == bs[..j];
        var b := bs[j];
        var target := resolve(b.relativePath);
        if target.Some? && target.value < |weights| && 0 <= b.index < |weights[target.value]| {
          weights := weights[target.value := weights[target.value][b.index := b.weight * 100.0]];
        }
      }
      assert bs[..|bs|] == bs;
    }

    /** `ResetExpression`: every blend-shape weight of every active renderer becomes 0. */
    method ResetExpression()
      requires Valid()
      modifies this
      ensures Valid()
      ensures weights == Zeroed(old(weights), active)
    {
      ghost var w0 := weights;
      for k := 0 to |weights|
        invariant |weights| == |w0|
        invariant forall m :: 0 <= m < |w0| ==> weights[m] == if m < k then Zeroed(w0, active)[m] else w0[m]
      {
        if !active[k] {
          continue;
        }
        var count := |weights[k]|;
        for i := 0 to count
          invariant |weights| == |w0| && |weights[k]| == count
          invariant forall m :: 0 <= m < |w0| && m != k ==> weights[m] == if m < k then Zeroed(w0, active)[m] else w0[m]
          invariant forall n :: 0 <= n < count ==> weights[k][n] == if n < i then 0.0 else w0[k][n]
        {
          weights := weights[k := weights[k][i := 0.0]];
        }
        assert weights[k] == Zeroed(w0, active)[k];
      }
      assert weights == Zeroed(w0, active);
    }
  }

  /**
   * `CaptureExpression`: "" without an avatar or an expression; otherwise the
   * avatar is moved to the preview layer, the expression applied, the image
   * path `<outputPath>/<characterName>/<expressionName>.png` chosen, the
   * weights reset, and every node of the avatar given the root's original layer.
   */
  method CaptureExpression(avatar: Avatar?, expression: Option<VRM10Expression>, characterName: string,
                           expressionName: string, outputPath: string) returns (path: string)
    requires avatar != null ==> avatar.Valid()
    modifies if avatar == null then {} else {avatar, avatar.layers}
    ensures avatar == null || expression.None? ==> path == ""
    ensures avatar != null && expression.Some? ==>
      && path == Combine(Combine(outputPath, characterName), expressionName + ".png")
      && avatar.weights == Zeroed(Applied(old(avatar.weights), avatar.resolve, expression.value.morphTargetBindings.GetOr([])), avatar.active)
      && forall m :: 0 <= m < avatar.layers.Length ==>
           avatar.layers[m] == if InSubtree(avatar.hierarchy, avatar.root, m) then old(avatar.layers[avatar.root]) else old(avatar.layers[m])
    ensures avatar != null ==> avatar.Valid()
    ensures avatar != null && expression.None? ==> unchanged(avatar) && unchanged(avatar.layers)
  {
    if avatar == null || expression.None? {
      return "";
    }
    var characterDir := Combine(outputPath, characterName);
    var originalLayer := avatar.layers[avatar.root];
    SetLayerRecursively(avatar.hierarchy, avatar.layers, avatar.root, PreviewLayer);
    avatar.ApplyExpression(expression.value);
    path := Combine(characterDir, expressionName + ".png");
    avatar.ResetExpression();
    SetLayerRecursively(avatar.hierarchy, avatar.layers, avatar.root, originalLayer);
  }
}
