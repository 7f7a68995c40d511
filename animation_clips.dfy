/**
 * Turning extracted expressions into animation clips: the mouth classifier, the
 * per-mesh table of blend-shape names, the constant curves of one clip, and the
 * enumeration and naming of every clip asset of a run.
 */
module AnimationClips {
  import opened Wrappers
  import opened Strings
  import opened Paths
  import opened Scene
  import opened VrmSource
  import opened ExpressionExtraction
  import opened Sequences

  // ---------------------------------------------------------------------------
  // Mouth classification

  /** The body-part words, each in lower, capitalised and upper case. */
  function BodyPartPatterns(): (r: seq<string>)
    ensures |r| == 15 && forall i :: 0 <= i < |r| ==> |r[i]| >= 3
  {
    [ "mouth", "Mouth", "MOUTH",
      "lip", "Lip", "LIP",
      "jaw", "Jaw", "JAW",
      "tongue", "Tongue", "TONGUE",
      "teeth", "Teeth", "TEETH" ]
  }

  /** The five VRM vowel visemes, each in lower, capitalised and upper case. */
  function VowelPatterns(): (r: seq<string>)
    ensures |r| == 15 && forall i :: 0 <= i < |r| ==> |r[i]| == 2
  {
    [ "aa", "Aa", "AA",
      "ih", "Ih", "IH",
      "ou", "Ou", "OU",
      "ee", "Ee", "EE",
      "oh", "Oh", "OH" ]
  }

  /** The Live2D-style mouth parameter names. */
  function ParameterPatterns(): (r: seq<string>)
    ensures |r| == 12 && forall i :: 0 <= i < |r| ==> |r[i]| >= 7
  {
    [ "Param.A", "Param.I", "Param.U", "Param.E", "Param.O",
      "Param.MouthOpenY", "Param.MouthOpenU",
      "Param.MouthOpenExP", "Param.MouthOpenExN",
      "Param.MouthU", "Param.MouthExP", "Param.MouthExN" ]
  }

  /** The name patterns a mouth blend shape contains, in the order they are tried. */
  function MouthPatterns(): (r: seq<string>)
    ensures |r| == 42
  {
    BodyPartPatterns() + VowelPatterns() + ParameterPatterns()
  }

  /** The name contains one of the patterns, case-sensitively. */
  predicate MouthClassified(name: string) {
    exists i :: 0 <= i < |MouthPatterns()| && Contains(name, MouthPatterns()[i])
  }

  /** `IsMouthBlendShape`: tries the patterns in order and stops at the first one contained. */
  method IsMouthBlendShape(name: string) returns (r: bool)
    ensures r <==> MouthClassified(name)
  {
    var patterns := MouthPatterns();
    for i := 0 to |patterns|
      invariant forall j :: 0 <= j < i ==> !Contains(name, patterns[j])
    {
      if Contains(name, patterns[i]) {
        return true;
      }
    }
    return false;
  }

  /** A pattern found at a known position of the name makes it a mouth shape. */
  lemma MouthAt(name: string, k: nat, at: int)
    requires k < |MouthPatterns()| && OccursAt(name, MouthPatterns()[k], at)
    ensures MouthClassified(name)
  {
    ContainsAt(name, MouthPatterns()[k], at);
  }

  /** "Cheek" counts as a mouth shape: it contains "ee". */
  lemma CheekIsMouth()
    ensures MouthClassified("Cheek")
  {
    assert MouthPatterns()[24] == "ee";
    assert "Cheek"[2..4] == "ee";
    MouthAt("Cheek", 24, 2);
  }

  /** "mOUTH" counts as a mouth shape: it contains "OU". */
  lemma UpperOuIsMouth()
    ensures MouthClassified("mOUTH")
  {
    assert MouthPatterns()[23] == "OU";
    assert "mOUTH"[1..3] == "OU";
    MouthAt("mOUTH", 23, 1);
  }

  /** A name shorter than a pattern does not contain it. */
  lemma TooShort(name: string, p: string)
    requires |name| < |p|
    ensures !Contains(name, p)
  {
  }

  /** A name only contains a pattern of its own length if it is that pattern. */
  lemma NotItself(name: string, p: string)
    requires |name| == |p| && name != p
    ensures !Contains(name, p)
  {
    ContainsIff(name, p);
  }

  /**
   * The match is case-sensitive with a fixed set of spellings: "aA" is not a
   * mouth shape, though in lower case it is the pattern "aa".
   */
  lemma MixedCaseVowelIsNotMouth()
    ensures !MouthClassified("aA")
  {
    var name := "aA";
    var vs := VowelPatterns();
    assert "aA" !in vs;
    forall i | 0 <= i < 42 ensures !Contains(name, MouthPatterns()[i]) {
      var p := MouthPatterns()[i];
      if i < 15 {
        assert p == BodyPartPatterns()[i];
        TooShort(name, p);
      } else if i >= 30 {
        assert p == ParameterPatterns()[i - 30];
        TooShort(name, p);
      } else {
        assert p == vs[i - 15];
        assert p != name;
        NotItself(name, p);
      }
    }
  }

  // ---------------------------------------------------------------------------
  // The blend-shape table of a character

  /**
   * `Dictionary<string, List<string>>` from mesh path to blend-shape names; `keys`
   * is the enumeration order, the order in which paths were first added.
   */
  datatype MeshTable = MeshTable(keys: seq<string>, shapes: map<string, seq<string>>)

  /** Each key is listed once, and exactly the keys are listed. */
  ghost predicate TableValid(t: MeshTable) {
    && (forall i, j :: 0 <= i < j < |t.keys| ==> t.keys[i] != t.keys[j])
    && (forall k :: k in t.shapes <==> k in t.keys)
  }

  /** `dict[k] = v`: a new key goes to the end; an existing key keeps its place. */
  function Put(t: MeshTable, k: string, v: seq<string>): (r: MeshTable)
    ensures TableValid(t) ==> TableValid(r)
    ensures r.shapes == t.shapes[k := v]
    ensures k in t.keys ==> r.keys == t.keys
    ensures k !in t.keys ==> r.keys == t.keys + [k]
  {
    if k in t.keys then MeshTable(t.keys, t.shapes[k := v])
    else MeshTable(t.keys + [k], t.shapes[k := v])
  }

  /** The part of a well-formed character the table is read from. */
  ghost predicate RenderersPlaced(c: Character) {
    ParentsBelow(c.hierarchy) && RenderersIn(c.hierarchy, c.renderers)
  }

  /** A renderer as the table sees it: its path below the character and its shared mesh. */
  datatype MeshEntry = MeshEntry(path: string, mesh: Option<Mesh>)

  ghost function RendererEntries(c: Character): (r: seq<MeshEntry>)
    requires RenderersPlaced(c)
    ensures |r| == |c.renderers|
    ensures forall i :: 0 <= i < |r| ==>
      r[i] == MeshEntry(RelativePath(c.hierarchy, c.root, c.renderers[i].node), c.renderers[i].mesh)
  {
    seq(|c.renderers|, i requires 0 <= i < |c.renderers| =>
      MeshEntry(RelativePath(c.hierarchy, c.root, c.renderers[i].node), c.renderers[i].mesh))
  }

  /** An entry with a non-empty mesh. */
  predicate Shaped(e: MeshEntry) {
    e.mesh.Some? && |e.mesh.value| > 0
  }

  /** The table after the given renderers: each one with a non-empty mesh sets its path. */
  function TableFrom(es: seq<MeshEntry>): (t: MeshTable)
    ensures TableValid(t)
  {
    if es == [] then MeshTable([], map[])
    else
      var e := es[|es| - 1];
      var t := TableFrom(es[..|es| - 1]);
      if Shaped(e) then Put(t, e.path, e.mesh.value) else t
  }

  /** `GetAllBlendShapes`: the table of all the character's renderers. */
  ghost function BlendShapeTable(c: Character): (t: MeshTable)
    requires RenderersPlaced(c)
  {
    TableFrom(RendererEntries(c))
  }

  /** The loop copying a mesh's blend-shape names, index by index. */
  method CopyShapeNames(mesh: Mesh) returns (names: seq<string>)
    ensures names == mesh
  {
    names := [];
    for i := 0 to |mesh|
      invariant names == mesh[..i]
    {
      names := names + [mesh[i]];
      assert mesh[..i + 1] == mesh[..i] + [mesh[i]];
    }
    assert mesh[..|mesh|] == mesh;
  }

  lemma TableFromSnoc(es: seq<MeshEntry>, i: nat)
    requires i < |es|
    ensures TableFrom(es[..i + 1]) == if Shaped(es[i]) then Put(TableFrom(es[..i]), es[i].path, es[i].mesh.value) else TableFrom(es[..i])
  {
    assert es[..i + 1][..i] == es[..i];
  }

  method GetAllBlendShapes(c: Character) returns (t: MeshTable)
    requires RenderersPlaced(c)
    ensures t == BlendShapeTable(c)
  {
    ghost var es := RendererEntries(c);
    t := MeshTable([], map[]);
    for i := 0 to |c.renderers|
      invariant t == TableFrom(es[..i])
    {
      var r := c.renderers[i];
      TableFromSnoc(es, i);
      if r.mesh.Some? {
        var path := GetRelativePath(c.hierarchy, c.root, r.node);
        var names := CopyShapeNames(r.mesh.value);
        if |names| > 0 {
          t := Put(t, path, names);
        }
      }
    }
    assert es[..|c.renderers|] == es;
  }

  /** Entry `i` is a renderer with blend shapes at path `k`. */
  predicate ShapedAt(es: seq<MeshEntry>, i: int, k: string) {
    0 <= i < |es| && Shaped(es[i]) && es[i].path == k
  }

  /** ... and no later renderer with blend shapes sits at `k`. */
  predicate LastShapedAt(es: seq<MeshEntry>, i: int, k: string) {
    ShapedAt(es, i, k) && forall j :: i < j < |es| ==> !ShapedAt(es, j, k)
  }

  /** An entry of a prefix is an entry of the whole. */
  lemma ShapedAtPrefix(es: seq<MeshEntry>, n: nat, i: int, k: string)
    requires n <= |es|
    ensures ShapedAt(es[..n], i, k) <==> 0 <= i < n && ShapedAt(es, i, k)
  {
    if 0 <= i < n {
      assert es[..n][i] == es[i];
    }
  }

  /** A path is in the table exactly when some renderer with blend shapes sits there. */
  lemma {:induction false} TableMembership(es: seq<MeshEntry>, k: string)
    ensures k in TableFrom(es).shapes <==> exists i :: ShapedAt(es, i, k)
  {
    if es != [] {
      var n := |es| - 1;
      TableMembership(es[..n], k);
      if exists i :: ShapedAt(es[..n], i, k) {
        var i :| ShapedAt(es[..n], i, k);
        ShapedAtPrefix(es, n, i, k);
      }
      if i :| ShapedAt(es, i, k) {
        if i < n {
          ShapedAtPrefix(es, n, i, k);
        } else {
          assert Shaped(es[n]) && es[n].path == k;
        }
      }
      if Shaped(es[n]) && es[n].path == k {
        assert ShapedAt(es, n, k);
      }
    }
  }

  /** The table never holds an empty name list. */
  lemma {:induction false} TableEntriesNonEmpty(es: seq<MeshEntry>, k: string)
    requires k in TableFrom(es).shapes
    ensures |TableFrom(es).shapes[k]| > 0
  {
    var n := |es| - 1;
    if !(Shaped(es[n]) && es[n].path == k) {
      TableEntriesNonEmpty(es[..n], k);
    }
  }

  /** A path maps to the names of the last renderer with blend shapes there. */
  lemma {:induction false} TableLastWins(es: seq<MeshEntry>, k: string)
    requires k in TableFrom(es).shapes
    ensures exists i :: LastShapedAt(es, i, k) && TableFrom(es).shapes[k] == es[i].mesh.value
  {
    var n := |es| - 1;
    if Shaped(es[n]) && es[n].path == k {
      assert LastShapedAt(es, n, k);
    } else {
      TableLastWins(es[..n], k);
      var i :| LastShapedAt(es[..n], i, k) && TableFrom(es[..n]).shapes[k] == es[..n][i].mesh.value;
      ShapedAtPrefix(es, n, i, k);
      forall j | i < j < |es| ensures !ShapedAt(es, j, k) {
        if j < n {
          ShapedAtPrefix(es, n, j, k);
        }
      }
      assert LastShapedAt(es, i, k);
    }
  }

  /** Paths come in the order of the first renderer with blend shapes at each. */
  lemma {:induction false} TableKeysInFirstOrder(es: seq<MeshEntry>, a: nat, b: nat)
    requires a < b < |TableFrom(es).keys|
    ensures exists i :: (ShapedAt(es, i, TableFrom(es).keys[a])
      && forall j :: 0 <= j <= i ==> !ShapedAt(es, j, TableFrom(es).keys[b]))
  {
    var n := |es| - 1;
    var init := es[..n];
    var t := TableFrom(init);
    var ka, kb := TableFrom(es).keys[a], TableFrom(es).keys[b];
    if b < |t.keys| {
      TableKeysInFirstOrder(init, a, b);
      var i :| ShapedAt(init, i, ka) && (forall j :: 0 <= j <= i ==> !ShapedAt(init, j, kb));
      ShapedAtPrefix(es, n, i, ka);
      forall j | 0 <= j <= i ensures !ShapedAt(es, j, kb) {
        ShapedAtPrefix(es, n, j, kb);
      }
    } else {
      // the last entry added a new key, which no earlier entry had
      assert kb == es[n].path && kb !in t.shapes;
      assert ka in t.shapes;
      TableMembership(init, ka);
      TableMembership(init, kb);
      var i :| ShapedAt(init, i, ka);
      ShapedAtPrefix(es, n, i, ka);
      forall j | 0 <= j <= i ensures !ShapedAt(es, j, kb) {
        ShapedAtPrefix(es, n, j, kb);
      }
    }
  }

  // ---------------------------------------------------------------------------
  // One clip

  /** A constant curve on the renderer's `blendShape.<shape>` property. */
  datatype Curve = Curve(shape: string, value: real)

  /** The animated property of a curve. */
  function PropertyName(shape: string): string {
    "blendShape." + shape
  }

  /** Distinct shapes animate distinct properties. */
  lemma PropertyNameInjective(a: string, b: string)
    ensures PropertyName(a) == PropertyName(b) ==> a == b
  {
    if PropertyName(a) == PropertyName(b) {
      assert a == PropertyName(a)[11..];
      assert b == PropertyName(b)[11..];
    }
  }

  datatype AnimationClip = AnimationClip(name: string, curves: seq<Curve>)

  /** "Root" for the character's own node, else the path with '/' turned into '_'. */
  function MeshName(meshPath: string): (r: string)
    ensures meshPath == "" ==> r == "Root"
    ensures meshPath != "" ==> |r| == |meshPath| && '/' !in r
  {
    if meshPath == "" then "Root" else ReplaceChar(meshPath, '/', '_')
  }

  /** Mesh names do not identify meshes: two different paths can share one. */
  lemma MeshNamesCollide()
    ensures "a/b" != "a_b" && MeshName("a/b") == MeshName("a_b")
    ensures "" != "Root" && MeshName("") == MeshName("Root")
  {
    assert "a/b"[1] != "a_b"[1];
    assert MeshName("a/b") == "a_b";
    assert MeshName("a_b") == "a_b";
  }

  /** The two variants of a clip carry different names: the full one has the suffix. */
  lemma VariantNames(objectName: string, meshPath: string, expressionName: string)
    ensures ClipName(objectName, meshPath, expressionName, false) == ClipName(objectName, meshPath, expressionName, true) + "_WithMouth"
    ensures ClipName(objectName, meshPath, expressionName, false) != ClipName(objectName, meshPath, expressionName, true)
  {
    var primary := ClipName(objectName, meshPath, expressionName, true);
    assert |ClipName(objectName, meshPath, expressionName, false)| == |primary| + 10;
  }

  /** `ObjectName_meshName_ExpressionName`, with "_WithMouth" on the variant that keeps the mouth. */
  function ClipName(objectName: string, meshPath: string, expressionName: string, excludeMouth: bool): string {
    objectName + "_" + MeshName(meshPath) + "_" + expressionName + (if excludeMouth then "" else "_WithMouth")
  }

  /** The expression's values for one mesh: the last setting on a shape wins. */
  function SetValues(settings: seq<BlendShapeSetting>, meshPath: string): map<string, real> {
    if settings == [] then map[]
    else
      var m := SetValues(settings[..|settings| - 1], meshPath);
      var b := settings[|settings| - 1];
      if b.path == meshPath then m[b.name := b.value] else m
  }

  /** The value a shape is keyed to: the set value, else 0. */
  function ValueFor(values: map<string, real>, shape: string): real {
    if shape in values then values[shape] else 0.0
  }

  /** A shape gets a curve unless it is a mouth shape being left out, or a zero being skipped. */
  predicate Keeps(values: map<string, real>, shape: string, excludeMouth: bool, includeZeroValues: bool) {
    !(excludeMouth && MouthClassified(shape)) && (includeZeroValues || ValueFor(values, shape) != 0.0)
  }

  /** The curves of one clip, in the mesh's shape order. */
  function Curves(shapes: seq<string>, values: map<string, real>, excludeMouth: bool, includeZeroValues: bool): seq<Curve> {
    if shapes == [] then []
    else
      var n := shapes[|shapes| - 1];
      Curves(shapes[..|shapes| - 1], values, excludeMouth, includeZeroValues)
        + (if Keeps(values, n, excludeMouth, includeZeroValues) then [Curve(n, ValueFor(values, n))] else [])
  }

  /** The clip `CreateAnimationClipForMesh` builds. */
  function ClipFor(e: ExpressionData, shapes: seq<string>, meshPath: string, excludeMouth: bool, includeZeroValues: bool): AnimationClip {
    AnimationClip(
      ClipName(e.objectName, meshPath, e.expressionName, excludeMouth),
      Curves(shapes, SetValues(e.settings, meshPath), excludeMouth, includeZeroValues))
  }

  lemma SetValuesSnoc(settings: seq<BlendShapeSetting>, meshPath: string, i: nat)
    requires i < |settings|
    ensures SetValues(settings[..i + 1], meshPath) ==
      var b := settings[i];
      if b.path == meshPath then SetValues(settings[..i], meshPath)[b.name := b.value] else SetValues(settings[..i], meshPath)
  {
    assert settings[..i + 1][..i] == settings[..i];
  }

  lemma CurvesSnoc(shapes: seq<string>, values: map<string, real>, excludeMouth: bool, includeZeroValues: bool, i: nat)
    requires i < |shapes|
    ensures Curves(shapes[..i + 1], values, excludeMouth, includeZeroValues) ==
      Curves(shapes[..i], values, excludeMouth, includeZeroValues)
        + (if Keeps(values, shapes[i], excludeMouth, includeZeroValues) then [Curve(shapes[i], ValueFor(values, shapes[i]))] else [])
  {
    assert shapes[..i + 1][..i] == shapes[..i];
  }

  /** The per-mesh values of an expression: one pass over its settings. */
  method CollectSetValues(settings: seq<BlendShapeSetting>, meshPath: string) returns (values: map<string, real>)
    ensures values == SetValues(settings, meshPath)
  {
    values := map[];
    for i := 0 to |settings|
      invariant values == SetValues(settings[..i], meshPath)
    {
      var b := settings[i];
      SetValuesSnoc(settings, meshPath, i);
      if b.path == meshPath {
        values := values[b.name := b.value];
      }
    }
    assert settings[..|settings|] == settings;
  }

  /** The decision for one shape: whether it gets a curve, and its value. */
  method KeepShape(values: map<string, real>, shape: string, excludeMouth: bool, includeZeroValues: bool)
    returns (keep: bool, value: real)
    ensures keep == Keeps(values, shape, excludeMouth, includeZeroValues)
    ensures keep ==> value == ValueFor(values, shape)
  {
    keep := false;
    value := 0.0;
    if excludeMouth {
      var mouth := IsMouthBlendShape(shape);
      if mouth {
        return;
      }
    }
    if shape in values {
      value := values[shape];
    }
    keep := includeZeroValues || value != 0.0;
  }

  /** The curve loop over the mesh's shapes. */
  method BuildCurves(shapes: seq<string>, values: map<string, real>, excludeMouth: bool, includeZeroValues: bool)
    returns (curves: seq<Curve>)
    ensures curves == Curves(shapes, values, excludeMouth, includeZeroValues)
  {
    curves := [];
    for i := 0 to |shapes|
      invariant curves == Curves(shapes[..i], values, excludeMouth, includeZeroValues)
    {
      var keep, value := KeepShape(values, shapes[i], excludeMouth, includeZeroValues);
      CurvesSnoc(shapes, values, excludeMouth, includeZeroValues, i);
      if keep {
        curves := curves + [Curve(shapes[i], value)];
      }
    }
    assert shapes[..|shapes|] == shapes;
  }

  /** `CreateAnimationClipForMesh(expression, meshBlendShapes, meshPath, excludeMouth)`. */
  method CreateAnimationClipForMesh(e: ExpressionData, shapes: seq<string>, meshPath: string, excludeMouth: bool, includeZeroValues: bool)
    returns (clip: AnimationClip)
    ensures clip == ClipFor(e, shapes, meshPath, excludeMouth, includeZeroValues)
  {
    var name := e.objectName + "_" + MeshName(meshPath) + "_" + e.expressionName + (if excludeMouth then "" else "_WithMouth");
    var values := CollectSetValues(e.settings, meshPath);
    var curves := BuildCurves(shapes, values, excludeMouth, includeZeroValues);
    clip := AnimationClip(name, curves);
  }

  /**
   * Only settings on this mesh count, and the last one on a shape wins: a shape
   * has a value exactly when some setting on the mesh names it, and the value is
   * that of the last such setting.
   */
  lemma {:induction false} SetValuesLastWins(settings: seq<BlendShapeSetting>, meshPath: string, k: string)
    ensures k in SetValues(settings, meshPath) <==>
      exists i :: 0 <= i < |settings| && settings[i].path == meshPath && settings[i].name == k
    ensures k in SetValues(settings, meshPath) ==>
      exists i :: 0 <= i < |settings| && settings[i].path == meshPath && settings[i].name == k
        && SetValues(settings, meshPath)[k] == settings[i].value
        && (forall j :: i < j < |settings| ==> !(settings[j].path == meshPath && settings[j].name == k))
  {
    if settings != [] {
      var n := |settings| - 1;
      var init := settings[..n];
      SetValuesLastWins(init, meshPath, k);
      if k in SetValues(init, meshPath) {
        var i :| 0 <= i < n && init[i].path == meshPath && init[i].name == k
          && SetValues(init, meshPath)[k] == init[i].value
          && (forall j :: i < j < n ==> !(init[j].path == meshPath && init[j].name == k));
        assert settings[i] == init[i];
      }
      if exists i :: 0 <= i < n && settings[i].path == meshPath && settings[i].name == k {
        var i :| 0 <= i < n && settings[i].path == meshPath && settings[i].name == k;
        assert init[i] == settings[i];
      }
    }
  }

  /**
   * A shape has a curve exactly when it is one of the mesh's shapes that is kept,
   * and every curve carries the value of its shape.
   */
  lemma {:induction false} CurvesMembership(shapes: seq<string>, values: map<string, real>, excludeMouth: bool, includeZeroValues: bool, c: Curve)
    ensures c in Curves(shapes, values, excludeMouth, includeZeroValues) <==>
      c.shape in shapes && Keeps(values, c.shape, excludeMouth, includeZeroValues) && c.value == ValueFor(values, c.shape)
  {
    if shapes != [] {
      var n := |shapes| - 1;
      CurvesMembership(shapes[..n], values, excludeMouth, includeZeroValues, c);
      assert shapes == shapes[..n] + [shapes[n]];
    }
  }

  /** The curves whose value is not zero, in order. */
  function NonZero(curves: seq<Curve>): seq<Curve> {
    if curves == [] then []
    else NonZero(curves[..|curves| - 1]) + (if curves[|curves| - 1].value != 0.0 then [curves[|curves| - 1]] else [])
  }

  /** The curves of shapes that are not mouth shapes, in order. */
  function WithoutMouth(curves: seq<Curve>): seq<Curve> {
    if curves == [] then []
    else WithoutMouth(curves[..|curves| - 1]) + (if !MouthClassified(curves[|curves| - 1].shape) then [curves[|curves| - 1]] else [])
  }

  /** Keeping only the last element's fate: filters distribute over a final element. */
  lemma NonZeroSnoc(cs: seq<Curve>, extra: seq<Curve>)
    requires |extra| <= 1
    ensures NonZero(cs + extra) == NonZero(cs) + NonZero(extra)
  {
    if extra != [] {
      assert (cs + extra)[..|cs + extra| - 1] == cs;
      assert extra[..0] == [];
    } else {
      assert cs + extra == cs;
    }
  }

  lemma WithoutMouthSnoc(cs: seq<Curve>, extra: seq<Curve>)
    requires |extra| <= 1
    ensures WithoutMouth(cs + extra) == WithoutMouth(cs) + WithoutMouth(extra)
  {
    if extra != [] {
      assert (cs + extra)[..|cs + extra| - 1] == cs;
      assert extra[..0] == [];
    } else {
      assert cs + extra == cs;
    }
  }

  /** The sparse clip (zeros skipped) is the dense clip with its zero curves removed. */
  lemma {:induction false} SparseIsDenseWithoutZeros(shapes: seq<string>, values: map<string, real>, excludeMouth: bool)
    ensures Curves(shapes, values, excludeMouth, false) == NonZero(Curves(shapes, values, excludeMouth, true))
  {
    if shapes != [] {
      var n := |shapes| - 1;
      SparseIsDenseWithoutZeros(shapes[..n], values, excludeMouth);
      var s := shapes[n];
      var dense := if Keeps(values, s, excludeMouth, true) then [Curve(s, ValueFor(values, s))] else [];
      NonZeroSnoc(Curves(shapes[..n], values, excludeMouth, true), dense);
      if dense != [] {
        assert dense[..0] == [];
      }
    }
  }

  /** The mouth-excluded clip is the full clip with the mouth shapes' curves removed. */
  lemma {:induction false} PrimaryIsFullWithoutMouth(shapes: seq<string>, values: map<string, real>, includeZeroValues: bool)
    ensures Curves(shapes, values, true, includeZeroValues) == WithoutMouth(Curves(shapes, values, false, includeZeroValues))
  {
    if shapes != [] {
      var n := |shapes| - 1;
      PrimaryIsFullWithoutMouth(shapes[..n], values, includeZeroValues);
      var s := shapes[n];
      var full := if Keeps(values, s, false, includeZeroValues) then [Curve(s, ValueFor(values, s))] else [];
      WithoutMouthSnoc(Curves(shapes[..n], values, false, includeZeroValues), full);
      if full != [] {
        assert full[..0] == [];
      }
    }
  }

  /** Settings that are percentages give curves that are percentages. */
  lemma CurveValuesArePercentages(settings: seq<BlendShapeSetting>, meshPath: string, shapes: seq<string>,
                                  excludeMouth: bool, includeZeroValues: bool)
    requires forall i :: 0 <= i < |settings| ==> 0.0 <= settings[i].value <= 100.0
    ensures forall c :: c in Curves(shapes, SetValues(settings, meshPath), excludeMouth, includeZeroValues) ==>
      0.0 <= c.value <= 100.0
  {
    var values := SetValues(settings, meshPath);
    forall c | c in Curves(shapes, values, excludeMouth, includeZeroValues) ensures 0.0 <= c.value <= 100.0 {
      CurvesMembership(shapes, values, excludeMouth, includeZeroValues, c);
      if c.shape in values {
        SetValuesLastWins(settings, meshPath, c.shape);
      }
    }
  }

  // ---------------------------------------------------------------------------
  // Every clip of a run

  /** The exporter's three clip switches. */
  datatype ClipOptions = ClipOptions(excludeMouth: bool, withMouthVersion: bool, includeZeroValues: bool)

  /** A clip saved as an asset at `path`. */
  datatype ClipAsset = ClipAsset(path: string, clip: AnimationClip)

  /** How many clips each (mesh, expression) pair yields. */
  function PerExpression(o: ClipOptions): (r: nat)
    ensures r == 1 || r == 2
    ensures r == 2 <==> o.excludeMouth && o.withMouthVersion
  {
    if o.excludeMouth && o.withMouthVersion then 2 else 1
  }

  /** The file-name stem `<object>_<meshName>_<expression>`. */
  function ClipStem(objectName: string, meshPath: string, expressionName: string): string {
    objectName + "_" + MeshName(meshPath) + "_" + expressionName
  }

  /**
   * The assets of one expression on one mesh: with mouth exclusion, the clip
   * without mouth shapes in the output folder and, if asked for, the full clip in
   * its "WithMouth" sub-folder; otherwise the full clip in the output folder.
   */
  function ClipsForExpression(outDir: string, objectName: string, e: ExpressionData, shapes: seq<string>,
                              meshPath: string, o: ClipOptions): (r: seq<ClipAsset>)
    ensures |r| == PerExpression(o)
  {
    var stem := ClipStem(objectName, meshPath, e.expressionName);
    if o.excludeMouth then
      [ClipAsset(Combine(outDir, stem + ".anim"), ClipFor(e, shapes, meshPath, true, o.includeZeroValues))]
      + (if o.withMouthVersion
         then [ClipAsset(Combine(Combine(outDir, "WithMouth"), stem + "_WithMouth.anim"),
                         ClipFor(e, shapes, meshPath, false, o.includeZeroValues))]
         else [])
    else
      [ClipAsset(Combine(outDir, stem + ".anim"), ClipFor(e, shapes, meshPath, false, o.includeZeroValues))]
  }

  /** The inner loop: every expression, in order, on one mesh. */
  function MeshClips(outDir: string, objectName: string, exprs: seq<ExpressionData>, shapes: seq<string>,
                     meshPath: string, o: ClipOptions): seq<ClipAsset>
  {
    ConcatMap(exprs, e => ClipsForExpression(outDir, objectName, e, shapes, meshPath, o))
  }

  /** The names listed for a path of the table (none for a path it lacks). */
  function ShapesAt(t: MeshTable, k: string): seq<string> {
    if k in t.shapes then t.shapes[k] else []
  }

  /** The outer loop: every given path of the table, in order. */
  function TableClips(outDir: string, objectName: string, t: MeshTable, keys: seq<string>,
                      exprs: seq<ExpressionData>, o: ClipOptions): seq<ClipAsset>
  {
    ConcatMap(keys, k => MeshClips(outDir, objectName, exprs, ShapesAt(t, k), k, o))
  }

  /**
   * The clips of one character: none without an expression set or without
   * expressions, else every mesh with blend shapes times every expression.
   */
  ghost function CharacterClips(outDir: string, c: Character, o: ClipOptions): seq<ClipAsset>
    requires RenderersPlaced(c)
  {
    if ExpressionsOf(c.instance).None? then []
    else
      var t := BlendShapeTable(c);
      var ex := Extracted(c);
      if ex.None? || ex.value == [] then []
      else TableClips(outDir, c.name, t, t.keys, ex.value, o)
  }

  /** The clips of every selected character, in order. */
  ghost function AllClips(outDir: string, cs: seq<Character>, o: ClipOptions): seq<ClipAsset>
    requires forall i :: 0 <= i < |cs| ==> RenderersPlaced(cs[i])
  {
    if cs == [] then []
    else
      var n := |cs| - 1;
      AllClips(outDir, cs[..n], o) + CharacterClips(outDir, cs[n], o)
  }

  method ClipsOfExpression(outDir: string, objectName: string, e: ExpressionData, shapes: seq<string>,
                           meshPath: string, o: ClipOptions) returns (assets: seq<ClipAsset>)
    ensures assets == ClipsForExpression(outDir, objectName, e, shapes, meshPath, o)
  {
    var meshName := MeshName(meshPath);
    var stem := objectName + "_" + meshName + "_" + e.expressionName;
    if o.excludeMouth {
      var clip := CreateAnimationClipForMesh(e, shapes, meshPath, true, o.includeZeroValues);
      assets := [ClipAsset(Combine(outDir, stem + ".anim"), clip)];
      if o.withMouthVersion {
        var full := CreateAnimationClipForMesh(e, shapes, meshPath, false, o.includeZeroValues);
        var folder := Combine(outDir, "WithMouth");
        assets := assets + [ClipAsset(Combine(folder, stem + "_WithMouth.anim"), full)];
      }
    } else {
      var clip := CreateAnimationClipForMesh(e, shapes, meshPath, false, o.includeZeroValues);
      assets := [ClipAsset(Combine(outDir, stem + ".anim"), clip)];
    }
  }

  /** The expression loop of one mesh. */
  method ClipsOfMesh(outDir: string, objectName: string, exprs: seq<ExpressionData>, shapes: seq<string>,
                     meshPath: string, o: ClipOptions) returns (assets: seq<ClipAsset>)
    ensures assets == MeshClips(outDir, objectName, exprs, shapes, meshPath, o)
  {
    ghost var f := e => ClipsForExpression(outDir, objectName, e, shapes, meshPath, o);
    assets := [];
    for i := 0 to |exprs|
      invariant assets == ConcatMap(exprs[..i], f)
    {
      var more := ClipsOfExpression(outDir, objectName, exprs[i], shapes, meshPath, o);
      ConcatMapSnoc(exprs, f, i);
      assets := assets + more;
    }
    assert exprs[..|exprs|] == exprs;
  }

  /** The mesh loop of one character. */
  method ClipsOfTable(outDir: string, objectName: string, t: MeshTable, exprs: seq<ExpressionData>, o: ClipOptions)
    returns (assets: seq<ClipAsset>)
    requires TableValid(t)
    ensures assets == TableClips(outDir, objectName, t, t.keys, exprs, o)
  {
    ghost var f := k => MeshClips(outDir, objectName, exprs, ShapesAt(t, k), k, o);
    assets := [];
    for i := 0 to |t.keys|
      invariant assets == ConcatMap(t.keys[..i], f)
    {
      var meshPath := t.keys[i];
      var more := ClipsOfMesh(outDir, objectName, exprs, t.shapes[meshPath], meshPath, o);
      ConcatMapSnoc(t.keys, f, i);
      assets := assets + more;
    }
    assert t.keys[..|t.keys|] == t.keys;
  }

  /** The body of the character loop. */
  method ClipsOfCharacter(outDir: string, c: Character, o: ClipOptions) returns (assets: seq<ClipAsset>)
    requires RenderersPlaced(c)
    ensures assets == CharacterClips(outDir, c, o)
  {
    var inst := c.instance;
    if inst.None? || inst.value.vrm.None? || inst.value.vrm.value.expression.None? {
      return [];
    }
    var table := GetAllBlendShapes(c);
    var ex := ExtractExpressionsFromVRM(c);
    if ex.None? || |ex.value| == 0 {
      return [];
    }
    assets := ClipsOfTable(outDir, c.name, table, ex.value, o);
  }

  lemma AllClipsSnoc(outDir: string, cs: seq<Character>, o: ClipOptions, i: nat)
    requires i < |cs|
    requires forall j :: 0 <= j < |cs| ==> RenderersPlaced(cs[j])
    ensures AllClips(outDir, cs[..i + 1], o) == AllClips(outDir, cs[..i], o) + CharacterClips(outDir, cs[i], o)
  {
    assert cs[..i + 1][..i] == cs[..i];
    assert cs[..i + 1][i] == cs[i];
  }

  /**
   * `GenerateAnimationClips`: the assets created, in creation order, and the
   * count reported at the end.
   */
  method GenerateAnimationClips(outDir: string, cs: seq<Character>, o: ClipOptions)
    returns (assets: seq<ClipAsset>, totalClips: nat)
    requires forall i :: 0 <= i < |cs| ==> RenderersPlaced(cs[i])
    ensures assets == AllClips(outDir, cs, o)
    ensures totalClips == |assets|
  {
    assets := [];
    totalClips := 0;
    for i := 0 to |cs|
      invariant assets == AllClips(outDir, cs[..i], o)
      invariant totalClips == |assets|
    {
      var more := ClipsOfCharacter(outDir, cs[i], o);
      AllClipsSnoc(outDir, cs, o, i);
      assets := assets + more;
      totalClips := totalClips + |more|;
    }
    assert cs[..|cs|] == cs;
  }

  // ---------------------------------------------------------------------------
  // What a run creates

  /** Each expression of a mesh yields one or two clips. */
  lemma MeshClipsCount(outDir: string, objectName: string, exprs: seq<ExpressionData>,
                       shapes: seq<string>, meshPath: string, o: ClipOptions)
    ensures |MeshClips(outDir, objectName, exprs, shapes, meshPath, o)| == |exprs| * PerExpression(o)
  {
    ConcatMapCount(exprs, e => ClipsForExpression(outDir, objectName, e, shapes, meshPath, o), PerExpression(o));
  }

  /** Each mesh of the table yields the clips of every expression. */
  lemma TableClipsCount(outDir: string, objectName: string, t: MeshTable, keys: seq<string>,
                        exprs: seq<ExpressionData>, o: ClipOptions)
    ensures |TableClips(outDir, objectName, t, keys, exprs, o)| == |keys| * (|exprs| * PerExpression(o))
  {
    var f := k => MeshClips(outDir, objectName, exprs, ShapesAt(t, k), k, o);
    forall i | 0 <= i < |keys| ensures |f(keys[i])| == |exprs| * PerExpression(o) {
      MeshClipsCount(outDir, objectName, exprs, ShapesAt(t, keys[i]), keys[i], o);
    }
    ConcatMapCount(keys, f, |exprs| * PerExpression(o));
  }

  /**
   * A character without an expression set or without expressions gets no clip;
   * otherwise every mesh path of its table times every expression, one or two
   * clips each.
   */
  lemma CharacterClipsCount(outDir: string, c: Character, o: ClipOptions)
    requires RenderersPlaced(c)
    ensures ExpressionsOf(c.instance).None? || Extracted(c).None? || Extracted(c).value == []
      ==> CharacterClips(outDir, c, o) == []
    ensures ExpressionsOf(c.instance).Some? && Extracted(c).Some? ==>
      |CharacterClips(outDir, c, o)| == |BlendShapeTable(c).keys| * (|Extracted(c).value| * PerExpression(o))
  {
    var t := BlendShapeTable(c);
    if ExpressionsOf(c.instance).Some? && Extracted(c).Some? && Extracted(c).value != [] {
      TableClipsCount(outDir, c.name, t, t.keys, Extracted(c).value, o);
    }
  }

  /** A clip of a mesh is a clip of one of the expressions, and each of those is there. */
  lemma MeshClipsMembership(outDir: string, objectName: string, exprs: seq<ExpressionData>,
                            shapes: seq<string>, meshPath: string, o: ClipOptions, x: ClipAsset)
    ensures x in MeshClips(outDir, objectName, exprs, shapes, meshPath, o) <==>
      exists b :: 0 <= b < |exprs| && x in ClipsForExpression(outDir, objectName, exprs[b], shapes, meshPath, o)
  {
    ConcatMapMembership(exprs, e => ClipsForExpression(outDir, objectName, e, shapes, meshPath, o), x);
  }

  /** A clip of a character is a clip of one of its table's paths, and each of those is there. */
  lemma TableClipsMembership(outDir: string, objectName: string, t: MeshTable, exprs: seq<ExpressionData>,
                             o: ClipOptions, x: ClipAsset)
    requires TableValid(t)
    ensures x in TableClips(outDir, objectName, t, t.keys, exprs, o) <==>
      exists a :: 0 <= a < |t.keys| && x in MeshClips(outDir, objectName, exprs, t.shapes[t.keys[a]], t.keys[a], o)
  {
    var f := k => MeshClips(outDir, objectName, exprs, ShapesAt(t, k), k, o);
    ConcatMapMembership(t.keys, f, x);
    forall a | 0 <= a < |t.keys| ensures f(t.keys[a]) == MeshClips(outDir, objectName, exprs, t.shapes[t.keys[a]], t.keys[a], o) {
    }
  }

  /**
   * The clips of one expression on one mesh: with mouth exclusion the first has
   * no mouth curve, and the variant in the "WithMouth" folder, when made, holds
   * the same curves plus the mouth ones and the suffixed name; without it the
   * single clip keeps every shape.
   */
  lemma ExpressionClipVariants(outDir: string, objectName: string, e: ExpressionData, shapes: seq<string>,
                               meshPath: string, o: ClipOptions)
    ensures var r := ClipsForExpression(outDir, objectName, e, shapes, meshPath, o);
      o.excludeMouth ==> forall cv :: cv in r[0].clip.curves ==> !MouthClassified(cv.shape)
    ensures var r := ClipsForExpression(outDir, objectName, e, shapes, meshPath, o);
      o.excludeMouth && o.withMouthVersion ==>
        r[0].clip.curves == WithoutMouth(r[1].clip.curves) && r[1].clip.name == r[0].clip.name + "_WithMouth"
    ensures var r := ClipsForExpression(outDir, objectName, e, shapes, meshPath, o);
      !o.excludeMouth ==> r[0].clip.curves == Curves(shapes, SetValues(e.settings, meshPath), false, o.includeZeroValues)
  {
    var values := SetValues(e.settings, meshPath);
    var r := ClipsForExpression(outDir, objectName, e, shapes, meshPath, o);
    if o.excludeMouth {
      forall cv | cv in r[0].clip.curves ensures !MouthClassified(cv.shape) {
        CurvesMembership(shapes, values, true, o.includeZeroValues, cv);
      }
      if o.withMouthVersion {
        PrimaryIsFullWithoutMouth(shapes, values, o.includeZeroValues);
        VariantNames(e.objectName, meshPath, e.expressionName);
      }
    }
  }

  /**
   * Without mouth exclusion the single clip is saved under the plain file name
   * while its own name carries the "_WithMouth" suffix.
   */
  lemma PlainClipCarriesSuffix(outDir: string, e: ExpressionData, shapes: seq<string>, meshPath: string, o: ClipOptions)
    requires !o.excludeMouth
    ensures var r := ClipsForExpression(outDir, e.objectName, e, shapes, meshPath, o);
      |r| == 1 && r[0].path == Combine(outDir, ClipStem(e.objectName, meshPath, e.expressionName) + ".anim")
      && r[0].clip.name == ClipStem(e.objectName, meshPath, e.expressionName) + "_WithMouth"
  {
  }

  /** Meshes at "a/b" and "a_b" get the same asset path, so the later clip replaces the earlier one. */
  lemma CollidingClipPaths(outDir: string, objectName: string, e: ExpressionData, s1: seq<string>, s2: seq<string>, o: ClipOptions)
    ensures ClipsForExpression(outDir, objectName, e, s1, "a/b", o)[0].path
      == ClipsForExpression(outDir, objectName, e, s2, "a_b", o)[0].path
  {
    MeshNamesCollide();
  }
}
