/**
 * Reading a character's expressions out of its UniVRM data: the preset slots in a
 * fixed order, then the custom clips, each with one blend-shape setting per morph
 * binding (weights turned into percentages, names looked up on the mesh), and the
 * lookup of an expression by name.
 */
module ExpressionExtraction {
  import opened Wrappers
  import opened Strings
  import opened ExpressionModel
  import opened Scene
  import opened VrmSource

  /** One exported blend-shape value: mesh path, shape name and a 0-100 value. */
  datatype BlendShapeSetting = BlendShapeSetting(path: string, name: string, value: real)

  /** One exported expression of one character. */
  datatype ExpressionData = ExpressionData(
    characterName: string,
    objectName: string,
    expressionName: string,
    expressionType: ExpressionType,
    settings: seq<BlendShapeSetting>)

  // ---------------------------------------------------------------------------
  // Blend-shape settings

  /** The label used when a binding's shape cannot be named: `Index_<n>`. */
  function FallbackName(index: int): string {
    "Index_" + IntToString(index)
  }

  /**
   * The path resolves below the character, the node there has a skinned
   * renderer with a mesh, and the index lies inside the mesh's shapes.
   */
  predicate Resolves(meshAt: map<string, Option<Mesh>>, b: MorphTargetBinding) {
    b.relativePath in meshAt && meshAt[b.relativePath].Some?
    && 0 <= b.index < |meshAt[b.relativePath].value|
  }

  function ShapeName(meshAt: map<string, Option<Mesh>>, b: MorphTargetBinding): string {
    if Resolves(meshAt, b) then meshAt[b.relativePath].value[b.index] else FallbackName(b.index)
  }

  function SettingOf(meshAt: map<string, Option<Mesh>>, b: MorphTargetBinding): BlendShapeSetting {
    BlendShapeSetting(b.relativePath, ShapeName(meshAt, b), b.weight * 100.0)
  }

  /** One setting per binding, in binding order. */
  function Settings(meshAt: map<string, Option<Mesh>>, bs: seq<MorphTargetBinding>): (r: seq<BlendShapeSetting>)
    ensures |r| == |bs|
  {
    if bs == [] then [] else Settings(meshAt, bs[..|bs| - 1]) + [SettingOf(meshAt, bs[|bs| - 1])]
  }

  /** The `i`-th setting is the setting of the `i`-th binding. */
  lemma {:induction false} SettingsAt(meshAt: map<string, Option<Mesh>>, bs: seq<MorphTargetBinding>, i: nat)
    requires i < |bs|
    ensures Settings(meshAt, bs)[i] == SettingOf(meshAt, bs[i])
  {
    if i < |bs| - 1 {
      SettingsAt(meshAt, bs[..|bs| - 1], i);
    }
  }

  /** One more binding adds its setting at the end. */
  lemma SettingsSnoc(meshAt: map<string, Option<Mesh>>, bs: seq<MorphTargetBinding>, i: nat)
    requires i < |bs|
    ensures Settings(meshAt, bs[..i + 1]) == Settings(meshAt, bs[..i]) + [SettingOf(meshAt, bs[i])]
  {
    assert bs[..i + 1][..i] == bs[..i];
  }

  /** The settings of an expression: none when its binding list is missing. */
  function SettingsOf(meshAt: map<string, Option<Mesh>>, e: VRM10Expression): seq<BlendShapeSetting> {
    if e.morphTargetBindings.None? then [] else Settings(meshAt, e.morphTargetBindings.value)
  }

  /** The name lookup for one binding: `Transform.Find`, then the renderer's mesh, then the index. */
  method LookUpShapeName(meshAt: map<string, Option<Mesh>>, b: MorphTargetBinding) returns (name: string)
    ensures name == ShapeName(meshAt, b)
  {
    name := FallbackName(b.index);
    if b.relativePath in meshAt {
      var mesh := meshAt[b.relativePath];
      if mesh.Some? && 0 <= b.index < |mesh.value| {
        name := mesh.value[b.index];
      }
    }
  }

  /** The setting built for one binding: its path, its looked-up name and its weight as a percentage. */
  method SettingFor(meshAt: map<string, Option<Mesh>>, b: MorphTargetBinding) returns (setting: BlendShapeSetting)
    ensures setting == SettingOf(meshAt, b)
  {
    var name := LookUpShapeName(meshAt, b);
    setting := BlendShapeSetting(b.relativePath, name, b.weight * 100.0);
  }

  /** `ExtractBlendShapeSettings`: appends one setting per binding. */
  method ExtractBlendShapeSettings(meshAt: map<string, Option<Mesh>>, e: VRM10Expression)
    returns (settings: seq<BlendShapeSetting>)
    ensures settings == SettingsOf(meshAt, e)
  {
    settings := [];
    if e.morphTargetBindings.None? { return; }
    var bs := e.morphTargetBindings.value;
    for i := 0 to |bs|
      invariant settings == Settings(meshAt, bs[..i])
    {
      var setting := SettingFor(meshAt, bs[i]);
      SettingsSnoc(meshAt, bs, i);
      settings := settings + [setting];
    }
    assert bs[..|bs|] == bs;
  }

  /**
   * What each setting holds: the binding's path, its weight as a percentage, and
   * the mesh's shape name exactly when the binding resolves, `Index_<n>` otherwise.
   */
  lemma {:induction false} SettingsFaithful(meshAt: map<string, Option<Mesh>>, e: VRM10Expression, i: int)
    requires e.morphTargetBindings.Some? && 0 <= i < |e.morphTargetBindings.value|
    ensures |SettingsOf(meshAt, e)| == |e.morphTargetBindings.value|
    ensures var b := e.morphTargetBindings.value[i];
      var st := SettingsOf(meshAt, e)[i];
      && st.path == b.relativePath
      && st.value == b.weight * 100.0
      && (Resolves(meshAt, b) ==> st.name == meshAt[b.relativePath].value[b.index])
      && (!Resolves(meshAt, b) ==> st.name == "Index_" + IntToString(b.index))
  {
    SettingsAt(meshAt, e.morphTargetBindings.value, i);
  }

  /** A 0-1 binding weight gives a 0-100 setting value. */
  lemma {:induction false} SettingsArePercentages(meshAt: map<string, Option<Mesh>>, e: VRM10Expression)
    requires e.morphTargetBindings.Some?
    requires forall b :: b in e.morphTargetBindings.value ==> 0.0 <= b.weight <= 1.0
    ensures forall st :: st in SettingsOf(meshAt, e) ==> 0.0 <= st.value <= 100.0
  {
    var bs := e.morphTargetBindings.value;
    forall st | st in SettingsOf(meshAt, e) ensures 0.0 <= st.value <= 100.0 {
      var i :| 0 <= i < |bs| && SettingsOf(meshAt, e)[i] == st;
      SettingsAt(meshAt, bs, i);
      assert bs[i] in bs;
    }
  }

  // ---------------------------------------------------------------------------
  // Expressions of a character

  /** `Meta.Name` when present and non-empty, else the object's name. */
  function CharacterNameOf(c: Character): string {
    if c.instance.Some? && c.instance.value.vrm.Some? && c.instance.value.vrm.value.meta.Some?
      && c.instance.value.vrm.value.meta.value.name.Some?
      && c.instance.value.vrm.value.meta.value.name.value != ""
    then c.instance.value.vrm.value.meta.value.name.value
    else c.name
  }

  function PresetEntry(c: Character, es: ExpressionSet, cn: string, s: PresetSlot): ExpressionData
    requires s in es.presets
  {
    ExpressionData(cn, c.name, PresetName(s), Preset, SettingsOf(c.meshAt, es.presets[s]))
  }

  function CustomEntry(c: Character, cn: string, e: VRM10Expression): ExpressionData {
    ExpressionData(cn, c.name, e.name, Custom, SettingsOf(c.meshAt, e))
  }

  /** The entries of the non-null slots among `slots`, in the order of `slots`. */
  function PresetEntries(c: Character, es: ExpressionSet, cn: string, slots: seq<PresetSlot>): (r: seq<ExpressionData>)
    ensures |r| <= |slots|
    ensures forall i :: 0 <= i < |r| ==>
      r[i].expressionType == Preset && r[i].characterName == cn && r[i].objectName == c.name
  {
    if slots == [] then []
    else
      var s := slots[|slots| - 1];
      PresetEntries(c, es, cn, slots[..|slots| - 1]) + (if s in es.presets then [PresetEntry(c, es, cn, s)] else [])
  }

  /** The entries of the non-null clips, in collection order. */
  function CustomEntries(c: Character, cn: string, clips: seq<Option<VRM10Expression>>): (r: seq<ExpressionData>)
    ensures |r| <= |clips|
    ensures forall i :: 0 <= i < |r| ==>
      r[i].expressionType == Custom && r[i].characterName == cn && r[i].objectName == c.name
  {
    if clips == [] then []
    else
      var e := clips[|clips| - 1];
      CustomEntries(c, cn, clips[..|clips| - 1]) + (if e.Some? then [CustomEntry(c, cn, e.value)] else [])
  }

  function CustomPart(c: Character, es: ExpressionSet, cn: string): seq<ExpressionData> {
    if es.customClips.None? then [] else CustomEntries(c, cn, es.customClips.value)
  }

  /** Everything extraction yields when nothing throws; None when the guard rejects the object. */
  function ExtractAll(c: Character): (r: Option<seq<ExpressionData>>)
    ensures r.None? <==> ExpressionsOf(c.instance).None?
  {
    match ExpressionsOf(c.instance)
    case None => None
    case Some(es) =>
      var cn := CharacterNameOf(c);
      Some(PresetEntries(c, es, cn, PresetOrder()) + CustomPart(c, es, cn))
  }

  /** What is left of `all` when building the `k`-th item throws: the first `k` items. */
  function Truncated<T>(all: seq<T>, fault: Option<nat>): (r: seq<T>)
    ensures r <= all
    ensures fault.None? || fault.value >= |all| ==> r == all
    ensures fault.Some? && fault.value < |all| ==> |r| == fault.value
  {
    if fault.Some? && fault.value < |all| then all[..fault.value] else all
  }

  /** Building the item right after `done` throws: `done` is what is left. */
  lemma TruncatedAt<T>(done: seq<T>, x: T, all: seq<T>, fault: Option<nat>)
    requires done + [x] <= all && fault == Some(|done|)
    ensures Truncated(all, fault) == done
  {
    assert all[..|done|] == (done + [x])[..|done|];
  }

  /**
   * The result of `ExtractExpressionsFromVRM`: when building the k-th expression
   * throws, the list built so far.
   */
  function Extracted(c: Character): (r: Option<seq<ExpressionData>>)
    ensures r.None? <==> ExpressionsOf(c.instance).None?
    ensures r.Some? ==> r.value <= ExtractAll(c).value
    ensures c.fault.None? ==> r == ExtractAll(c)
  {
    match ExtractAll(c)
    case None => None
    case Some(all) => Some(Truncated(all, c.fault))
  }

  lemma {:induction false} PresetEntriesGrow(c: Character, es: ExpressionSet, cn: string, slots: seq<PresetSlot>, i: nat, j: nat)
    requires i <= j <= |slots|
    ensures PresetEntries(c, es, cn, slots[..i]) <= PresetEntries(c, es, cn, slots[..j])
    decreases j
  {
    if i < j {
      PresetEntriesGrow(c, es, cn, slots, i, j - 1);
      assert slots[..j][..j - 1] == slots[..j - 1];
    }
  }

  lemma {:induction false} CustomEntriesGrow(c: Character, cn: string, clips: seq<Option<VRM10Expression>>, i: nat, j: nat)
    requires i <= j <= |clips|
    ensures CustomEntries(c, cn, clips[..i]) <= CustomEntries(c, cn, clips[..j])
    decreases j
  {
    if i < j {
      CustomEntriesGrow(c, cn, clips, i, j - 1);
      assert clips[..j][..j - 1] == clips[..j - 1];
    }
  }

  /** The entries up to a non-null slot, then that slot's entry, begin the entries of all slots. */
  lemma PresetEntriesThrough(c: Character, es: ExpressionSet, cn: string, slots: seq<PresetSlot>, i: nat)
    requires i < |slots| && slots[i] in es.presets
    ensures PresetEntries(c, es, cn, slots[..i]) + [PresetEntry(c, es, cn, slots[i])] <= PresetEntries(c, es, cn, slots)
  {
    PresetEntriesGrow(c, es, cn, slots, i + 1, |slots|);
    assert slots[..i + 1][..i] == slots[..i];
    assert slots[..|slots|] == slots;
  }

  /** The entries up to a non-null clip, then that clip's entry, begin the entries of all clips. */
  lemma CustomEntriesThrough(c: Character, cn: string, clips: seq<Option<VRM10Expression>>, i: nat)
    requires i < |clips| && clips[i].Some?
    ensures CustomEntries(c, cn, clips[..i]) + [CustomEntry(c, cn, clips[i].value)] <= CustomEntries(c, cn, clips)
  {
    CustomEntriesGrow(c, cn, clips, i + 1, |clips|);
    assert clips[..i + 1][..i] == clips[..i];
    assert clips[..|clips|] == clips;
  }

  /** Building the entry of the non-null slot `PresetOrder()[i]` throws: what was built is returned. */
  lemma StopInPresets(c: Character, es: ExpressionSet, i: nat)
    requires ExpressionsOf(c.instance) == Some(es)
    requires i < |PresetOrder()| && PresetOrder()[i] in es.presets
    requires c.fault == Some(|PresetEntries(c, es, CharacterNameOf(c), PresetOrder()[..i])|)
    ensures Extracted(c) == Some(PresetEntries(c, es, CharacterNameOf(c), PresetOrder()[..i]))
  {
    var cn := CharacterNameOf(c);
    var slots := PresetOrder();
    var pre := PresetEntries(c, es, cn, slots[..i]);
    var x := PresetEntry(c, es, cn, slots[i]);
    PresetEntriesThrough(c, es, cn, slots, i);
    var all := PresetEntries(c, es, cn, slots) + CustomPart(c, es, cn);
    assert pre + [x] <= all;
    TruncatedAt(pre, x, all, c.fault);
  }

  /** Building the entry of the non-null clip `clips[i]` throws: what was built is returned. */
  lemma StopInCustoms(c: Character, es: ExpressionSet, clips: seq<Option<VRM10Expression>>, i: nat)
    requires ExpressionsOf(c.instance) == Some(es) && es.customClips == Some(clips)
    requires i < |clips| && clips[i].Some?
    requires c.fault == Some(|PresetEntries(c, es, CharacterNameOf(c), PresetOrder())| + |CustomEntries(c, CharacterNameOf(c), clips[..i])|)
    ensures Extracted(c) ==
      Some(PresetEntries(c, es, CharacterNameOf(c), PresetOrder()) + CustomEntries(c, CharacterNameOf(c), clips[..i]))
  {
    var cn := CharacterNameOf(c);
    var presets := PresetEntries(c, es, cn, PresetOrder());
    var pre := CustomEntries(c, cn, clips[..i]);
    var x := CustomEntry(c, cn, clips[i].value);
    CustomEntriesThrough(c, cn, clips, i);
    var all := presets + CustomEntries(c, cn, clips);
    assert (presets + pre) + [x] <= all;
    TruncatedAt(presets + pre, x, all, c.fault);
  }

  /**
   * `ExtractExpressionsFromVRM(obj)`: None when the instance, its VRM object or
   * its expression set is missing; otherwise the non-null presets in slot order,
   * then the non-null custom clips, cut short where building an entry throws.
   */
  method ExtractExpressionsFromVRM(c: Character) returns (r: Option<seq<ExpressionData>>)
    ensures r == Extracted(c)
  {
    var inst := c.instance;
    if inst.None? || inst.value.vrm.None? || inst.value.vrm.value.expression.None? {
      return None;
    }
    var es := inst.value.vrm.value.expression.value;
    var cn := c.name;
    var meta := inst.value.vrm.value.meta;
    if meta.Some? && meta.value.name.Some? && meta.value.name.value != "" {
      cn := meta.value.name.value;
    }
    assert cn == CharacterNameOf(c);
    var slots := PresetOrder();
    var expressions, stop := CollectPresets(c, es, cn, slots);
    if stop.Some? {
      StopInPresets(c, es, stop.value);
      return Some(expressions);
    }
    assert slots[..|slots|] == slots;
    var presets := expressions;
    if es.customClips.None? {
      assert presets + CustomPart(c, es, cn) == presets;
      assert ExtractAll(c) == Some(presets);
      return Some(expressions);
    }
    var clips := es.customClips.value;
    expressions, stop := CollectCustoms(c, cn, clips, presets);
    if stop.Some? {
      StopInCustoms(c, es, clips, stop.value);
      return Some(expressions);
    }
    assert clips[..|clips|] == clips;
    Unstopped(c, es, clips);
    return Some(expressions);
  }

  /** Nothing throws before the end: the result is everything. */
  lemma Unstopped(c: Character, es: ExpressionSet, clips: seq<Option<VRM10Expression>>)
    requires ExpressionsOf(c.instance) == Some(es) && es.customClips == Some(clips)
    requires c.fault.Some? ==>
      |PresetEntries(c, es, CharacterNameOf(c), PresetOrder()) + CustomEntries(c, CharacterNameOf(c), clips)| <= c.fault.value
    ensures Extracted(c) == Some(PresetEntries(c, es, CharacterNameOf(c), PresetOrder()) + CustomEntries(c, CharacterNameOf(c), clips))
  {
  }

  /**
   * The preset loop over `slots`: appends the entry of every non-null slot; when
   * building the entry of slot `slots[i]` throws, stops with `Some(i)`.
   */
  method CollectPresets(c: Character, es: ExpressionSet, cn: string, slots: seq<PresetSlot>)
    returns (expressions: seq<ExpressionData>, stop: Option<nat>)
    ensures stop.None? ==> expressions == PresetEntries(c, es, cn, slots[..|slots|])
    ensures stop.None? && c.fault.Some? ==> |expressions| <= c.fault.value
    ensures stop.Some? ==> stop.value < |slots| && slots[stop.value] in es.presets
    ensures stop.Some? ==> expressions == PresetEntries(c, es, cn, slots[..stop.value])
    ensures stop.Some? ==> c.fault.Some? && c.fault.value == |expressions|
  {
    expressions := [];
    for i := 0 to |slots|
      invariant expressions == PresetEntries(c, es, cn, slots[..i])
      invariant c.fault.Some? ==> |expressions| <= c.fault.value
    {
      var s := slots[i];
      assert slots[..i + 1][..i] == slots[..i];
      if s in es.presets {
        if c.fault.Some? && c.fault.value == |expressions| {
          return expressions, Some(i);
        }
        var settings := ExtractBlendShapeSettings(c.meshAt, es.presets[s]);
        var entry := ExpressionData(cn, c.name, PresetName(s), Preset, settings);
        assert entry == PresetEntry(c, es, cn, s);
        expressions := expressions + [entry];
      }
    }
    stop := None;
  }

  /**
   * The custom-clip loop, continuing `presets`: appends the entry of every
   * non-null clip; when building the entry of `clips[i]` throws, stops with `Some(i)`.
   */
  method CollectCustoms(c: Character, cn: string, clips: seq<Option<VRM10Expression>>, presets: seq<ExpressionData>)
    returns (expressions: seq<ExpressionData>, stop: Option<nat>)
    requires c.fault.Some? ==> |presets| <= c.fault.value
    ensures stop.None? ==> expressions == presets + CustomEntries(c, cn, clips[..|clips|])
    ensures stop.None? && c.fault.Some? ==> |expressions| <= c.fault.value
    ensures stop.Some? ==> stop.value < |clips| && clips[stop.value].Some?
    ensures stop.Some? ==> expressions == presets + CustomEntries(c, cn, clips[..stop.value])
    ensures stop.Some? ==> c.fault.Some? && c.fault.value == |expressions|
  {
    expressions := presets;
    for i := 0 to |clips|
      invariant expressions == presets + CustomEntries(c, cn, clips[..i])
      invariant c.fault.Some? ==> |expressions| <= c.fault.value
    {
      var e := clips[i];
      assert clips[..i + 1][..i] == clips[..i];
      if e.Some? {
        if c.fault.Some? && c.fault.value == |expressions| {
          return expressions, Some(i);
        }
        var settings := ExtractBlendShapeSettings(c.meshAt, e.value);
        var entry := ExpressionData(cn, c.name, e.value.name, Custom, settings);
        assert entry == CustomEntry(c, cn, e.value);
        expressions := expressions + [entry];
      }
    }
    stop := None;
  }

  // ---------------------------------------------------------------------------
  // What extraction yields

  /** The non-null slots among `slots`, in the order of `slots`. */
  ghost function PresentSlots(es: ExpressionSet, slots: seq<PresetSlot>): (r: seq<PresetSlot>)
    ensures forall i :: 0 <= i < |r| ==> r[i] in es.presets && r[i] in slots
  {
    if slots == [] then []
    else
      var s := slots[|slots| - 1];
      PresentSlots(es, slots[..|slots| - 1]) + (if s in es.presets then [s] else [])
  }

  /** The non-null custom clips, in collection order. */
  ghost function PresentClips(clips: seq<Option<VRM10Expression>>): (r: seq<VRM10Expression>)
    ensures forall i :: 0 <= i < |r| ==> Some(r[i]) in clips
  {
    if clips == [] then []
    else
      var e := clips[|clips| - 1];
      PresentClips(clips[..|clips| - 1]) + (if e.Some? then [e.value] else [])
  }

  /** The preset entries are, one by one, the entries of the non-null slots. */
  lemma {:induction false} PresetEntriesFollowSlots(c: Character, es: ExpressionSet, cn: string, slots: seq<PresetSlot>)
    ensures |PresetEntries(c, es, cn, slots)| == |PresentSlots(es, slots)|
    ensures forall i :: 0 <= i < |PresentSlots(es, slots)| ==>
      PresetEntries(c, es, cn, slots)[i] == PresetEntry(c, es, cn, PresentSlots(es, slots)[i])
  {
    if slots != [] {
      PresetEntriesFollowSlots(c, es, cn, slots[..|slots| - 1]);
    }
  }

  /** The custom entries are, one by one, the entries of the non-null clips. */
  lemma {:induction false} CustomEntriesFollowClips(c: Character, cn: string, clips: seq<Option<VRM10Expression>>)
    ensures |CustomEntries(c, cn, clips)| == |PresentClips(clips)|
    ensures forall i :: 0 <= i < |PresentClips(clips)| ==>
      CustomEntries(c, cn, clips)[i] == CustomEntry(c, cn, PresentClips(clips)[i])
  {
    if clips != [] {
      CustomEntriesFollowClips(c, cn, clips[..|clips| - 1]);
    }
  }

  /**
   * Among slots listed at their ranks, the non-null ones come in strictly
   * increasing rank, and every non-null slot of lower rank than the length is there.
   */
  lemma {:induction false} PresentSlotsRanked(es: ExpressionSet, slots: seq<PresetSlot>)
    requires forall i :: 0 <= i < |slots| ==> SlotRank(slots[i]) == i
    ensures forall i, j :: 0 <= i < j < |PresentSlots(es, slots)| ==>
      SlotRank(PresentSlots(es, slots)[i]) < SlotRank(PresentSlots(es, slots)[j])
    ensures forall i :: 0 <= i < |PresentSlots(es, slots)| ==> SlotRank(PresentSlots(es, slots)[i]) < |slots|
    ensures forall s :: s in es.presets && SlotRank(s) < |slots| ==> s in PresentSlots(es, slots)
    decreases |slots|
  {
    if slots != [] {
      var n := |slots| - 1;
      PresentSlotsRanked(es, slots[..n]);
      var before := PresentSlots(es, slots[..n]);
      var now := PresentSlots(es, slots);
      assert now == before + (if slots[n] in es.presets then [slots[n]] else []);
      forall s | s in es.presets && SlotRank(s) < |slots| ensures s in now {
        if SlotRank(s) < n {
          assert s in before;
        } else {
          SlotAtRank(s);
          SlotAtRank(slots[n]);
        }
      }
    }
  }

  /** The non-null slots come in the visiting order of the slots, and all of them are there. */
  lemma {:induction false} PresentSlotsInOrder(es: ExpressionSet)
    ensures forall i, j :: 0 <= i < j < |PresentSlots(es, PresetOrder())| ==>
      SlotRank(PresentSlots(es, PresetOrder())[i]) < SlotRank(PresentSlots(es, PresetOrder())[j])
    ensures forall s :: s in es.presets <==> s in PresentSlots(es, PresetOrder())
  {
    PresentSlotsRanked(es, PresetOrder());
  }

  /** The non-null custom clips of an expression set; none when the list is missing. */
  ghost function CustomClipsPresent(es: ExpressionSet): seq<VRM10Expression> {
    if es.customClips.None? then [] else PresentClips(es.customClips.value)
  }

  /** The custom part is, one by one, the entries of the non-null custom clips. */
  lemma {:induction false} CustomPartFollowsClips(c: Character, es: ExpressionSet, cn: string)
    ensures |CustomPart(c, es, cn)| == |CustomClipsPresent(es)|
    ensures forall i :: 0 <= i < |CustomClipsPresent(es)| ==>
      CustomPart(c, es, cn)[i] == CustomEntry(c, cn, CustomClipsPresent(es)[i])
  {
    if es.customClips.Some? {
      CustomEntriesFollowClips(c, cn, es.customClips.value);
    }
  }

  /**
   * The entries of the non-null preset slots come first, tagged Preset, and the
   * rest are tagged Custom; every entry carries the character name and the object name.
   */
  lemma {:induction false} ExtractionTags(c: Character)
    requires ExtractAll(c).Some?
    ensures var es := ExpressionsOf(c.instance).value;
      var all := ExtractAll(c).value;
      var n := |PresentSlots(es, PresetOrder())|;
      && n <= |all|
      && (forall i :: 0 <= i < |all| ==> (all[i].expressionType == Preset <==> i < n))
      && (forall i :: 0 <= i < |all| ==> all[i].characterName == CharacterNameOf(c) && all[i].objectName == c.name)
  {
    var es := ExpressionsOf(c.instance).value;
    PresetEntriesFollowSlots(c, es, CharacterNameOf(c), PresetOrder());
  }

  // ---------------------------------------------------------------------------
  // Looking an expression up by name

  /** The first non-null clip called exactly `name`, if any. */
  function FirstNamed(clips: seq<Option<VRM10Expression>>, name: string): (r: Option<VRM10Expression>)
    ensures r.Some? ==>
      (exists i :: 0 <= i < |clips| && clips[i] == r && r.value.name == name &&
         forall j :: 0 <= j < i ==> !(clips[j].Some? && clips[j].value.name == name))
    ensures r.None? ==> forall i :: 0 <= i < |clips| && clips[i].Some? ==> clips[i].value.name != name
  {
    if clips == [] then None
    else if clips[0].Some? && clips[0].value.name == name then
      assert clips[0] == Some(clips[0].value);
      clips[0]
    else
      var r := FirstNamed(clips[1..], name);
      assert forall i :: 1 <= i < |clips| ==> clips[i] == clips[1..][i - 1];
      r
  }

  /**
   * `GetVRM10Expression(instance, name)`: the preset slot whose key is the
   * lower-cased name (even when that slot is null), else the first custom clip
   * of exactly that name; None when the instance data is missing.
   */
  function GetVRM10Expression(inst: Option<Vrm10Instance>, name: string): (r: Option<VRM10Expression>)
    ensures ExpressionsOf(inst).None? ==> r.None?
  {
    match ExpressionsOf(inst)
    case None => None
    case Some(es) =>
      match SlotForKey(ToLower(name))
      case Some(s) => if s in es.presets then Some(es.presets[s]) else None
      case None => if es.customClips.None? then None else FirstNamed(es.customClips.value, name)
  }

  /** Every preset entry of an extraction is found again, with the same settings, by its name. */
  lemma {:induction false} LookupFindsPresetEntry(c: Character, i: nat)
    requires ExtractAll(c).Some? && i < |ExtractAll(c).value|
    requires ExtractAll(c).value[i].expressionType == Preset
    ensures var e := ExtractAll(c).value[i];
      var found := GetVRM10Expression(c.instance, e.expressionName);
      found.Some? && SettingsOf(c.meshAt, found.value) == e.settings
  {
    var es := ExpressionsOf(c.instance).value;
    var cn := CharacterNameOf(c);
    var pe := PresetEntries(c, es, cn, PresetOrder());
    var all := ExtractAll(c).value;
    assert all == pe + CustomPart(c, es, cn);
    ExtractionTags(c);
    PresetEntriesFollowSlots(c, es, cn, PresetOrder());
    assert i < |pe| && all[i] == pe[i];
    var s := PresentSlots(es, PresetOrder())[i];
    assert s in es.presets;
    assert all[i] == PresetEntry(c, es, cn, s);
    PresetKeyIsLowerName(s);
    SlotForKeyFindsEverySlot(s);
    assert GetVRM10Expression(c.instance, PresetName(s)) == Some(es.presets[s]);
  }

  /**
   * A custom clip is found by its name when that name is no preset key in any
   * letter case and no earlier clip carries the same name.
   */
  lemma {:induction false} LookupFindsCustomClip(inst: Option<Vrm10Instance>, i: nat)
    requires ExpressionsOf(inst).Some? && ExpressionsOf(inst).value.customClips.Some?
    requires var clips := ExpressionsOf(inst).value.customClips.value;
      i < |clips| && clips[i].Some? && SlotForKey(ToLower(clips[i].value.name)).None?
      && forall j :: 0 <= j < i ==> !(clips[j].Some? && clips[j].value.name == clips[i].value.name)
    ensures GetVRM10Expression(inst, ExpressionsOf(inst).value.customClips.value[i].value.name)
      == ExpressionsOf(inst).value.customClips.value[i]
  {
    var clips := ExpressionsOf(inst).value.customClips.value;
    var name := clips[i].value.name;
    assert clips[i].Some? && clips[i].value.name == name;
  }

  /**
   * A name that is a preset key in some letter case never reaches the custom
   * clips: the answer is the same whatever the custom clips are.
   */
  lemma {:induction false} PresetKeysShadowCustomClips(es: ExpressionSet, others: Option<seq<Option<VRM10Expression>>>, name: string)
    requires SlotForKey(ToLower(name)).Some?
    ensures GetVRM10Expression(Some(Vrm10Instance(Some(VRM10Object(None, Some(es))))), name)
      == GetVRM10Expression(Some(Vrm10Instance(Some(VRM10Object(None, Some(es.(customClips := others)))))), name)
  {
  }
}
