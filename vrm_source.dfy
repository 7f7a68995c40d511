/**
 * The UniVRM 1.0 objects the exporter reads, reduced to what the core looks at:
 * an instance component holding the VRM object, its meta data and its expression
 * set (eighteen preset slots and a list of custom clips), the morph-target and
 * material-colour bindings of each expression, and the character's node paths
 * with the mesh found at each.
 */
module VrmSource {
  import opened Wrappers
  import opened Strings
  import opened Scene

  /** `MorphTargetBinding`: a blend shape of the mesh at `relativePath`, set to a 0-1 `weight`. */
  datatype MorphTargetBinding = MorphTargetBinding(relativePath: string, index: int, weight: real)

  /**
   * `MaterialColorType`: the five named kinds, and any other value the enum may
   * hold (a later UniVRM version adds further kinds).
   */
  datatype MaterialColorType = ColorKind | EmissionColor | ShadeColor | RimColor | OutlineColor | Other(raw: int)

  datatype MaterialColorBinding = MaterialColorBinding(materialName: string, bindType: MaterialColorType)

  /** A `VRM10Expression` asset: its object name and its (possibly missing) binding lists. */
  datatype VRM10Expression = VRM10Expression(
    name: string,
    morphTargetBindings: Option<seq<MorphTargetBinding>>,
    materialColorBindings: Option<seq<MaterialColorBinding>>)

  /** The eighteen preset slots of `VRM10ObjectExpression`. */
  datatype PresetSlot =
    | Happy | Angry | Sad | Relaxed | Surprised
    | Aa | Ih | Ou | Ee | Oh
    | Blink | BlinkLeft | BlinkRight
    | LookUp | LookDown | LookLeft | LookRight
    | Neutral

  /** The slot visited `i`-th. */
  function SlotAt(i: nat): (r: PresetSlot)
    requires i < 18
    ensures SlotRank(r) == i
  {
    if i == 0 then Happy else if i == 1 then Angry else if i == 2 then Sad
    else if i == 3 then Relaxed else if i == 4 then Surprised else if i == 5 then Aa
    else if i == 6 then Ih else if i == 7 then Ou else if i == 8 then Ee
    else if i == 9 then Oh else if i == 10 then Blink else if i == 11 then BlinkLeft
    else if i == 12 then BlinkRight else if i == 13 then LookUp else if i == 14 then LookDown
    else if i == 15 then LookLeft else if i == 16 then LookRight else Neutral
  }

  /** The order in which the exporter visits the preset slots: happy, angry, ..., neutral. */
  function PresetOrder(): (r: seq<PresetSlot>)
    ensures |r| == 18
    ensures forall i :: 0 <= i < 18 ==> r[i] == SlotAt(i)
  {
    seq(18, i requires 0 <= i < 18 => SlotAt(i))
  }

  /** The position of a slot in the visiting order. */
  function SlotRank(s: PresetSlot): (r: nat)
    ensures r < 18
  {
    match s
    case Happy => 0
    case Angry => 1
    case Sad => 2
    case Relaxed => 3
    case Surprised => 4
    case Aa => 5
    case Ih => 6
    case Ou => 7
    case Ee => 8
    case Oh => 9
    case Blink => 10
    case BlinkLeft => 11
    case BlinkRight => 12
    case LookUp => 13
    case LookDown => 14
    case LookLeft => 15
    case LookRight => 16
    case Neutral => 17
  }

  /** The expression name the exporter records for a preset slot. */
  function PresetName(s: PresetSlot): string {
    match s
    case Happy => "happy"
    case Angry => "angry"
    case Sad => "sad"
    case Relaxed => "relaxed"
    case Surprised => "surprised"
    case Aa => "aa"
    case Ih => "ih"
    case Ou => "ou"
    case Ee => "ee"
    case Oh => "oh"
    case Blink => "blink"
    case BlinkLeft => "blinkLeft"
    case BlinkRight => "blinkRight"
    case LookUp => "lookUp"
    case LookDown => "lookDown"
    case LookLeft => "lookLeft"
    case LookRight => "lookRight"
    case Neutral => "neutral"
  }

  /** The lower-case key under which the lookup by name finds a preset slot. */
  function PresetKey(s: PresetSlot): string {
    match s
    case Happy => "happy"
    case Angry => "angry"
    case Sad => "sad"
    case Relaxed => "relaxed"
    case Surprised => "surprised"
    case Aa => "aa"
    case Ih => "ih"
    case Ou => "ou"
    case Ee => "ee"
    case Oh => "oh"
    case Blink => "blink"
    case BlinkLeft => "blinkleft"
    case BlinkRight => "blinkright"
    case LookUp => "lookup"
    case LookDown => "lookdown"
    case LookLeft => "lookleft"
    case LookRight => "lookright"
    case Neutral => "neutral"
  }

  /** Every slot is visited, at its rank. */
  lemma {:induction false} SlotAtRank(s: PresetSlot)
    ensures SlotAt(SlotRank(s)) == s
  {
    match s
    case Happy => case Angry => case Sad => case Relaxed => case Surprised =>
    case Aa => case Ih => case Ou => case Ee => case Oh =>
    case Blink => case BlinkLeft => case BlinkRight =>
    case LookUp => case LookDown => case LookLeft => case LookRight =>
    case Neutral =>
  }

  /** The key of a slot is its recorded name, lower-cased. */
  lemma {:induction false} PresetKeyIsLowerName(s: PresetSlot)
    ensures ToLower(PresetName(s)) == PresetKey(s)
  {
    ToLowerIs(PresetName(s), PresetKey(s));
  }

  /** The `switch` over the lower-cased name: which slot, if any, a key selects. */
  function SlotForKey(k: string): (r: Option<PresetSlot>)
    ensures r.Some? ==> PresetKey(r.value) == k
  {
    match k
    case "happy" => Some(Happy)
    case "angry" => Some(Angry)
    case "sad" => Some(Sad)
    case "relaxed" => Some(Relaxed)
    case "surprised" => Some(Surprised)
    case "aa" => Some(Aa)
    case "ih" => Some(Ih)
    case "ou" => Some(Ou)
    case "ee" => Some(Ee)
    case "oh" => Some(Oh)
    case "blink" => Some(Blink)
    case "blinkleft" => Some(BlinkLeft)
    case "blinkright" => Some(BlinkRight)
    case "lookup" => Some(LookUp)
    case "lookdown" => Some(LookDown)
    case "lookleft" => Some(LookLeft)
    case "lookright" => Some(LookRight)
    case "neutral" => Some(Neutral)
    case _ => None
  }

  /** Every preset slot is found under the lower-cased form of its recorded name. */
  lemma {:induction false} SlotForKeyFindsEverySlot(s: PresetSlot)
    ensures SlotForKey(PresetKey(s)) == Some(s)
  {
    match s
    case Happy => case Angry => case Sad => case Relaxed => case Surprised =>
    case Aa => case Ih => case Ou => case Ee => case Oh =>
    case Blink => case BlinkLeft => case BlinkRight =>
    case LookUp => case LookDown => case LookLeft => case LookRight =>
    case Neutral =>
  }

  /** `VRM10ObjectExpression`: a slot missing from `presets` is a null slot. */
  datatype ExpressionSet = ExpressionSet(
    presets: map<PresetSlot, VRM10Expression>,
    customClips: Option<seq<Option<VRM10Expression>>>)

  datatype Meta = Meta(name: Option<string>)

  /** `VRM10Object`: meta data and expression set, either of which may be missing. */
  datatype VRM10Object = VRM10Object(meta: Option<Meta>, expression: Option<ExpressionSet>)

  /** The `Vrm10Instance` component; its `Vrm` may be missing. */
  datatype Vrm10Instance = Vrm10Instance(vrm: Option<VRM10Object>)

  /**
   * A character game object: its name, its `Vrm10Instance` component (missing
   * when there is none), its transform hierarchy with the node it sits on, its
   * skinned renderers, and, for every path `Transform.Find` resolves below it,
   * the shared mesh of the renderer there (None when the node has no skinned
   * renderer or the renderer no mesh). `fault` stands for a host exception while
   * the expressions are read: Some(k) when building the k-th expression (counting
   * from 0) throws.
   */
  datatype Character = Character(
    name: string,
    instance: Option<Vrm10Instance>,
    hierarchy: Hierarchy,
    root: nat,
    renderers: seq<SkinnedRenderer>,
    meshAt: map<string, Option<Mesh>>,
    fault: Option<nat>)

  /** The expression set, when the instance, its VRM object and the set are all present. */
  function ExpressionsOf(inst: Option<Vrm10Instance>): (r: Option<ExpressionSet>)
    ensures r.Some? <==> inst.Some? && inst.value.vrm.Some? && inst.value.vrm.value.expression.Some?
  {
    if inst.Some? && inst.value.vrm.Some? then inst.value.vrm.value.expression else None
  }
}
