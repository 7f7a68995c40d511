/**
 * The serializable expression record: one character's expressions with their
 * blend-shape, material-colour and material-UV overrides.
 */
module ExpressionModel {
  import opened Wrappers

  /** The type tag of an expression; the record stores it as the text "Preset" or "Custom". */
  datatype ExpressionType = Preset | Custom

  /** The text stored for a tag. */
  function TypeTag(t: ExpressionType): (s: string)
    ensures s == "Preset" || s == "Custom"
    ensures (s == "Preset") <==> t == Preset
  {
    match t
    case Preset => "Preset"
    case Custom => "Custom"
  }

  /** The tag a text stands for: exactly the two tag texts are recognised. */
  function ParseType(s: string): (r: Option<ExpressionType>)
    ensures r.Some? <==> s == "Preset" || s == "Custom"
    ensures r.Some? ==> TypeTag(r.value) == s
  {
    if s == "Preset" then Some(Preset)
    else if s == "Custom" then Some(Custom)
    else None
  }

  lemma {:induction false} TypeTagRoundTrip(t: ExpressionType)
    ensures ParseType(TypeTag(t)) == Some(t)
  {
    match t
    case Preset =>
    case Custom =>
  }

  /**
   * One blend-shape override, addressed by the mesh's relative path and the shape's
   * index; `name` is only a display label and may be missing. `weight` is a
   * percentage.
   */
  datatype BlendShapeInfo = BlendShapeInfo(
    name: Option<string>,
    relativePath: string,
    index: int,
    weight: real)

  /** The weight is a percentage, 0 to 100, not a 0-1 fraction. */
  predicate ValidWeight(b: BlendShapeInfo) {
    0.0 <= b.weight <= 100.0
  }

  datatype Color = Color(r: real, g: real, b: real, a: real)

  datatype MaterialColorInfo = MaterialColorInfo(
    relativePath: string,
    materialIndex: int,
    propertyName: string,
    color: Color)

  /** Unity's four-component vector, as stored in the record. */
  datatype Vector4 = Vector4(x: real, y: real, z: real, w: real)

  /** What the four components of a stored UV transform mean. */
  datatype UVTransform = UVTransform(offsetX: real, offsetY: real, scaleX: real, scaleY: real)

  /** The stored vector holds offset.x, offset.y, scale.x, scale.y in this order. */
  function PackUV(t: UVTransform): Vector4 {
    Vector4(t.offsetX, t.offsetY, t.scaleX, t.scaleY)
  }

  function UnpackUV(v: Vector4): (t: UVTransform)
    ensures PackUV(t) == v
  {
    UVTransform(v.x, v.y, v.z, v.w)
  }

  lemma {:induction false} UVRoundTrip(t: UVTransform)
    ensures UnpackUV(PackUV(t)) == t
  {
  }

  datatype MaterialUVInfo = MaterialUVInfo(
    relativePath: string,
    materialIndex: int,
    uvTransform: Vector4)

  /** One expression; `previewImagePath` is missing until a capture has run. */
  datatype ExpressionInfo = ExpressionInfo(
    name: string,
    exprType: ExpressionType,
    blendShapes: seq<BlendShapeInfo>,
    previewImagePath: Option<string>,
    materialColors: seq<MaterialColorInfo>,
    materialUVs: seq<MaterialUVInfo>)

  /** One character's (one VRM file's) expressions, in order. */
  datatype VRMExpressionData = VRMExpressionData(
    fileName: string,
    characterName: string,
    filePath: string,
    expressions: seq<ExpressionInfo>)
}
