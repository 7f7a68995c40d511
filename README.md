# VRM Expression Exporter, modelled in Dafny

The VRM Expression Exporter is a Unity editor tool for VRM 1.0 avatars. It takes
the avatars selected in the editor and reads their expression sets. These are
the eighteen preset slots (happy … neutral) and the custom clips, each holding
morph-target bindings.

From those sets it produces:

- a flat CSV list with one quoted row per blend-shape setting;
- optional animation clips, one per mesh and expression, with an optional
  mouth-free variant and its "_WithMouth" partner;
- optional preview images, taken by applying each expression to the avatar,
  framing the face and resetting the weights;
- Excel-friendly CSV files: a per-character summary, and a wide "pivot" file per
  character with one column per blend-shape key;
- an HTML viewer with one card per expression.

A Python script turns the flat CSV into a workbook. It makes one sheet per
character, groups the rows by expression, merges their name and image cells, and
places the images.

This project models that core as Dafny datatypes, functions, methods and one
class, and proves its properties. The loops of the original are `for`/`while`
loops proved against specification functions. The weight buffers updated in
place are a class with a `modifies` frame, and the node layers an `array`. The
Unity and UniVRM objects are reduced to what the core reads:

- a node hierarchy with names and parent links;
- a map from relative path to the mesh found there, if any;
- the renderer list with bounds;
- the expression set, with a missing preset slot as an absent map entry.

Modules, one file each:

| file | module | models |
|---|---|---|
| `wrappers.dfy` | `Wrappers` | `Option`, `Result` |
| `strings.dfy` | `Strings` | substring test, ASCII lower-casing, replacement, integer rendering, `Join`, quoting, ordinal order and sorting |
| `paths.dfy` | `Paths` | .NET `Path.Combine` and Python `os.path.join` |
| `seqs.dfy` | `Sequences` | `ConcatMap`, the shape of every nested append loop |
| `expression_data.dfy` | `ExpressionModel` | the serialisable expression record |
| `vrm_source.dfy` | `VrmSource` | the UniVRM input objects and the preset slot order and keys |
| `scene.dfy` | `Scene` | node hierarchy, relative paths, recursive layer assignment, bounds |
| `expression_extraction.dfy` | `ExpressionExtraction` | extraction of expressions and settings, lookup by name |
| `animation_clips.dfy` | `AnimationClips` | mouth classifier, blend-shape table, clip synthesis and enumeration |
| `expression_list.dfy` | `ExpressionList` | the CSV list of a run, its counters and early stops |
| `excel_exporter.dfy` | `ExcelExport` | summary CSV, detail pivot CSV, HTML viewer, export guard |
| `preview_capture.dfy` | `PreviewCapture` | face bounds, camera placement, weight application and reset, capture |
| `csv_to_excel.dfy` | `CsvToExcel` | grouping, sheet names, the sheet's cell, merge and image layout |

Source paths below are relative to the repository root.

## Model

| member | source | states |
|---|---|---|
| ExpressionModel.TypeTag | Assets/VRMExpressionExporter/Runtime/VRMExpressionData.cs:43-46 | the stored type text is "Preset" or "Custom", and it is "Preset" exactly for a preset expression |
| ExpressionModel.ParseType | Assets/VRMExpressionExporter/Runtime/VRMExpressionData.cs:43-46 | exactly the two tag texts are recognised, and each is read as the tag that is stored as it |
| ExpressionModel.TypeTagRoundTrip | Assets/VRMExpressionExporter/Runtime/VRMExpressionData.cs:43-46 | reading back the stored text of a tag gives that tag |
| ExpressionModel.UnpackUV | Assets/VRMExpressionExporter/Runtime/VRMExpressionData.cs:139-142 | the stored vector is read back as offset.x, offset.y, scale.x, scale.y, and repacking that transform gives the vector again |
| ExpressionModel.UVRoundTrip | Assets/VRMExpressionExporter/Runtime/VRMExpressionData.cs:139-142 | packing then reading a UV transform loses nothing |
| VrmSource.SlotAt | com.murasaqi.vrmexpressionexporter/Editor/VRMExpressionExporter.cs:399-419 | the slot visited i-th has rank i in the visiting order |
| VrmSource.PresetOrder | com.murasaqi.vrmexpressionexporter/Editor/VRMExpressionExporter.cs:399-419 | the extraction visits eighteen slots, the i-th being `SlotAt(i)` |
| VrmSource.SlotRank | com.murasaqi.vrmexpressionexporter/Editor/VRMExpressionExporter.cs:399-419 | every slot has a rank below 18 |
| VrmSource.SlotAtRank | com.murasaqi.vrmexpressionexporter/Editor/VRMExpressionExporter.cs:399-419 | every slot is visited, at its rank, so the order is a bijection onto the slots |
| VrmSource.PresetKeyIsLowerName | com.murasaqi.vrmexpressionexporter/Editor/VRMExpressionExporter.cs:915-934 | the lookup's key for a slot is the lower-cased name the extraction records for it |
| VrmSource.SlotForKey | com.murasaqi.vrmexpressionexporter/Editor/VRMExpressionExporter.cs:915-934 | a key selects a slot only when it is that slot's key |
| VrmSource.SlotForKeyFindsEverySlot | com.murasaqi.vrmexpressionexporter/Editor/VRMExpressionExporter.cs:915-934 | every slot is selected by its own key |
| VrmSource.ExpressionsOf | com.murasaqi.vrmexpressionexporter/Editor/VRMExpressionExporter.cs:380-387 | the expression set is there exactly when the instance, its `Vrm` and `Vrm.Expression` are all present |
| Scene.ChainIsAncestorLine | com.murasaqi.vrmexpressionexporter/Editor/VRMExpressionExporter.cs:685-699 | the nodes named in a relative path are the target's ancestors from just below the root, each the parent of the next |
| Scene.RelativePathStep | com.murasaqi.vrmexpressionexporter/Editor/VRMExpressionExporter.cs:685-699 | a node's relative path is its parent's path and a '/', or nothing below the root, then its own name |
| Scene.GetRelativePath | com.murasaqi.vrmexpressionexporter/Editor/VRMPreviewCapture.cs:233-247 | the walk up returns "" for the root, else the '/'-joined names from just below the root down to the target |
| Scene.SetLayerRecursively | com.murasaqi.vrmexpressionexporter/Editor/VRMPreviewCapture.cs:437-447 | every node of the subtree gets the layer and every other node keeps its layer |
| Scene.Encapsulate | com.murasaqi.vrmexpressionexporter/Editor/VRMPreviewCapture.cs:249-253 | the result spans both boxes and lies inside every box that spans both |
| ExpressionExtraction.Settings | com.murasaqi.vrmexpressionexporter/Editor/VRMExpressionExporter.cs:478-513 | one setting per binding |
| ExpressionExtraction.SettingsAt | com.murasaqi.vrmexpressionexporter/Editor/VRMExpressionExporter.cs:478-513 | the i-th setting is the one built from the i-th binding, so binding order is kept |
| ExpressionExtraction.LookUpShapeName | com.murasaqi.vrmexpressionexporter/Editor/VRMExpressionExporter.cs:486-510 | the name is the mesh's shape name when the path has a node with a mesh and the index is in range, else `Index_<index>` |
| ExpressionExtraction.SettingFor | com.murasaqi.vrmexpressionexporter/Editor/VRMExpressionExporter.cs:480-512 | the setting of a binding: its path, its looked-up name and its weight as a percentage |
| ExpressionExtraction.ExtractBlendShapeSettings | com.murasaqi.vrmexpressionexporter/Editor/VRMExpressionExporter.cs:474-514 | no setting for a missing binding list, else one setting per binding in order |
| ExpressionExtraction.SettingsFaithful | com.murasaqi.vrmexpressionexporter/Editor/VRMExpressionExporter.cs:476-513 | setting i has path `RelativePath` and value `Weight*100`; its name is the shape name exactly when the binding resolves, else `Index_<n>` |
| ExpressionExtraction.SettingsArePercentages | com.murasaqi.vrmexpressionexporter/Editor/VRMExpressionExporter.cs:480-484 | bindings with weights in 0-1 give settings with values in 0-100 |
| ExpressionExtraction.PresetEntries | com.murasaqi.vrmexpressionexporter/Editor/VRMExpressionExporter.cs:421-438 | at most one entry per slot, each tagged Preset with the character name and the object name |
| ExpressionExtraction.CustomEntries | com.murasaqi.vrmexpressionexporter/Editor/VRMExpressionExporter.cs:443-460 | at most one entry per clip, each tagged Custom with the character name and the object name |
| ExpressionExtraction.ExtractAll | com.murasaqi.vrmexpressionexporter/Editor/VRMExpressionExporter.cs:380-385 | the result is null exactly when the instance, its `Vrm` or its `Expression` is missing |
| ExpressionExtraction.Truncated | com.murasaqi.vrmexpressionexporter/Editor/VRMExpressionExporter.cs:465-471 | what is left when an item throws is a prefix: the whole list without a fault, the first k items when item k throws |
| ExpressionExtraction.Extracted | com.murasaqi.vrmexpressionexporter/Editor/VRMExpressionExporter.cs:371-472 | null exactly when the guard rejects; otherwise a prefix of the full extraction, and all of it when nothing throws |
| ExpressionExtraction.StopInPresets | com.murasaqi.vrmexpressionexporter/Editor/VRMExpressionExporter.cs:421-471 | when building a preset entry throws, the entries of the earlier slots are returned |
| ExpressionExtraction.StopInCustoms | com.murasaqi.vrmexpressionexporter/Editor/VRMExpressionExporter.cs:443-471 | when building a custom entry throws, all preset entries and the earlier custom entries are returned |
| ExpressionExtraction.Unstopped | com.murasaqi.vrmexpressionexporter/Editor/VRMExpressionExporter.cs:421-461 | when nothing throws, the result is the preset entries followed by the custom entries |
| ExpressionExtraction.CollectPresets | com.murasaqi.vrmexpressionexporter/Editor/VRMExpressionExporter.cs:421-438 | the preset loop either builds the entries of every slot, or stops at the non-null slot whose entry throws, having built those before it |
| ExpressionExtraction.CollectCustoms | com.murasaqi.vrmexpressionexporter/Editor/VRMExpressionExporter.cs:443-460 | the custom loop extends the preset entries with those of every clip, or stops at the non-null clip whose entry throws |
| ExpressionExtraction.ExtractExpressionsFromVRM | com.murasaqi.vrmexpressionexporter/Editor/VRMExpressionExporter.cs:371-472 | the method returns exactly `Extracted`: null from the guard, the partial list on a throw, else everything |
| ExpressionExtraction.PresetEntriesFollowSlots | com.murasaqi.vrmexpressionexporter/Editor/VRMExpressionExporter.cs:421-438 | the preset entries are, one by one, the entries of the non-null slots |
| ExpressionExtraction.CustomEntriesFollowClips | com.murasaqi.vrmexpressionexporter/Editor/VRMExpressionExporter.cs:443-460 | the custom entries are, one by one, the entries of the non-null clips in collection order |
| ExpressionExtraction.PresentSlotsInOrder | com.murasaqi.vrmexpressionexporter/Editor/VRMExpressionExporter.cs:399-438 | the non-null slots appear in the fixed visiting order, and every non-null slot appears |
| ExpressionExtraction.CustomPartFollowsClips | com.murasaqi.vrmexpressionexporter/Editor/VRMExpressionExporter.cs:441-461 | the custom part is the entries of the non-null clips, and empty when the clip list is missing |
| ExpressionExtraction.ExtractionTags | com.murasaqi.vrmexpressionexporter/Editor/VRMExpressionExporter.cs:388-461 | the first entries are tagged Preset and the rest Custom; each carries the `Meta.Name`-or-object name and the object name |
| ExpressionExtraction.FirstNamed | com.murasaqi.vrmexpressionexporter/Editor/VRMExpressionExporter.cs:938-947 | the first non-null clip named exactly `name`, if any; none when no clip has that name |
| ExpressionExtraction.GetVRM10Expression | com.murasaqi.vrmexpressionexporter/Editor/VRMExpressionExporter.cs:907-950 | nothing is found when the instance data is missing |
| ExpressionExtraction.LookupFindsPresetEntry | com.murasaqi.vrmexpressionexporter/Editor/VRMExpressionExporter.cs:907-935 | every preset entry of an extraction is found again by its recorded name, with the same settings |
| ExpressionExtraction.LookupFindsCustomClip | com.murasaqi.vrmexpressionexporter/Editor/VRMExpressionExporter.cs:936-947 | a custom clip is found by its name when that name is no preset key in any letter case and no earlier clip has it |
| ExpressionExtraction.PresetKeysShadowCustomClips | com.murasaqi.vrmexpressionexporter/Editor/VRMExpressionExporter.cs:915-935 | a name equal to a preset key in some letter case never reaches the custom clips |
| AnimationClips.BodyPartPatterns | com.murasaqi.vrmexpressionexporter/Editor/VRMExpressionExporter.cs:706-710 | fifteen body-part patterns, each at least three characters long |
| AnimationClips.VowelPatterns | com.murasaqi.vrmexpressionexporter/Editor/VRMExpressionExporter.cs:712-716 | fifteen two-letter vowel patterns |
| AnimationClips.ParameterPatterns | com.murasaqi.vrmexpressionexporter/Editor/VRMExpressionExporter.cs:718-721 | twelve parameter-name patterns, each at least seven characters long |
| AnimationClips.MouthPatterns | com.murasaqi.vrmexpressionexporter/Editor/VRMExpressionExporter.cs:704-722 | the classifier checks 42 patterns |
| AnimationClips.IsMouthBlendShape | com.murasaqi.vrmexpressionexporter/Editor/VRMExpressionExporter.cs:701-733 | true exactly when one of the patterns occurs as a case-sensitive substring of the name |
| AnimationClips.MouthAt | com.murasaqi.vrmexpressionexporter/Editor/VRMExpressionExporter.cs:724-730 | a pattern occurring at any position makes the name a mouth shape |
| AnimationClips.CheekIsMouth | com.murasaqi.vrmexpressionexporter/Editor/VRMExpressionExporter.cs:715 | "Cheek" is classified as a mouth shape because it contains "ee" |
| AnimationClips.UpperOuIsMouth | com.murasaqi.vrmexpressionexporter/Editor/VRMExpressionExporter.cs:714 | "mOUTH" is classified as a mouth shape because it contains "OU" |
| AnimationClips.MixedCaseVowelIsNotMouth | com.murasaqi.vrmexpressionexporter/Editor/VRMExpressionExporter.cs:704-722 | "aA" matches no pattern, since matching is case-sensitive and "aA" is not listed |
| AnimationClips.Put | com.murasaqi.vrmexpressionexporter/Editor/VRMExpressionExporter.cs:631 | the dictionary assignment replaces the value; a new key goes last, and an existing key keeps its place |
| AnimationClips.CopyShapeNames | com.murasaqi.vrmexpressionexporter/Editor/VRMExpressionExporter.cs:622-627 | the loop lists every blend-shape name of the mesh, by index |
| AnimationClips.GetAllBlendShapes | com.murasaqi.vrmexpressionexporter/Editor/VRMExpressionExporter.cs:612-636 | the method builds the table of blend-shape-bearing renderers by relative path |
| AnimationClips.TableMembership | com.murasaqi.vrmexpressionexporter/Editor/VRMExpressionExporter.cs:616-633 | a path is in the table exactly when some renderer there has a mesh with at least one blend shape |
| AnimationClips.TableEntriesNonEmpty | com.murasaqi.vrmexpressionexporter/Editor/VRMExpressionExporter.cs:629-632 | no path is listed with an empty name list |
| AnimationClips.TableLastWins | com.murasaqi.vrmexpressionexporter/Editor/VRMExpressionExporter.cs:616-633 | a path's names are those of the last blend-shape-bearing renderer at that path |
| AnimationClips.TableKeysInFirstOrder | com.murasaqi.vrmexpressionexporter/Editor/VRMExpressionExporter.cs:616-633 | the paths are enumerated in the order of their first blend-shape-bearing renderer |
| AnimationClips.PropertyNameInjective | com.murasaqi.vrmexpressionexporter/Editor/VRMExpressionExporter.cs:677 | distinct shapes get distinct curve property names |
| AnimationClips.MeshName | com.murasaqi.vrmexpressionexporter/Editor/VRMExpressionExporter.cs:641 | "Root" for the empty path; otherwise as long as the path and free of '/' |
| AnimationClips.MeshNamesCollide | com.murasaqi.vrmexpressionexporter/Editor/VRMExpressionExporter.cs:559 | "a/b" and "a_b" get the same mesh name, and so do "" and "Root" |
| AnimationClips.VariantNames | com.murasaqi.vrmexpressionexporter/Editor/VRMExpressionExporter.cs:641-643 | the full clip's name is the mouth-free clip's name plus "_WithMouth", so the two differ |
| AnimationClips.CollectSetValues | com.murasaqi.vrmexpressionexporter/Editor/VRMExpressionExporter.cs:646-654 | the loop collects the values of the settings on this mesh |
| AnimationClips.KeepShape | com.murasaqi.vrmexpressionexporter/Editor/VRMExpressionExporter.cs:659-674 | a shape is kept when it is not an excluded mouth shape and zeros are included or its value is non-zero; the value is the set one or 0 |
| AnimationClips.BuildCurves | com.murasaqi.vrmexpressionexporter/Editor/VRMExpressionExporter.cs:656-680 | the loop emits the curves of the kept shapes in mesh order |
| AnimationClips.CreateAnimationClipForMesh | com.murasaqi.vrmexpressionexporter/Editor/VRMExpressionExporter.cs:638-683 | the clip has the variant's name and the curves of the kept shapes |
| AnimationClips.SetValuesLastWins | com.murasaqi.vrmexpressionexporter/Editor/VRMExpressionExporter.cs:646-654 | a name has a value exactly when a setting on this mesh has that name, and the value is the last such setting's |
| AnimationClips.CurvesMembership | com.murasaqi.vrmexpressionexporter/Editor/VRMExpressionExporter.cs:656-680 | a curve is emitted exactly for a kept shape of the mesh, and carries that shape's set value or 0 |
| AnimationClips.SparseIsDenseWithoutZeros | com.murasaqi.vrmexpressionexporter/Editor/VRMExpressionExporter.cs:673-679 | the clip without zero values is the dense clip with its zero curves removed, order kept |
| AnimationClips.PrimaryIsFullWithoutMouth | com.murasaqi.vrmexpressionexporter/Editor/VRMExpressionExporter.cs:659-663 | the mouth-excluded clip is the full clip with its mouth curves removed, order kept |
| AnimationClips.CurveValuesArePercentages | com.murasaqi.vrmexpressionexporter/Editor/VRMExpressionExporter.cs:665-676 | settings with values in 0-100 give curves with values in 0-100 |
| AnimationClips.PerExpression | com.murasaqi.vrmexpressionexporter/Editor/VRMExpressionExporter.cs:563-604 | an expression yields 2 clips per mesh exactly when mouth exclusion and the with-mouth version are both on, else 1 |
| AnimationClips.ClipsForExpression | com.murasaqi.vrmexpressionexporter/Editor/VRMExpressionExporter.cs:563-604 | one expression on one mesh yields as many clips as `PerExpression` says |
| AnimationClips.ClipsOfExpression | com.murasaqi.vrmexpressionexporter/Editor/VRMExpressionExporter.cs:563-604 | the branch creates the mouth-free clip and its "WithMouth" partner, or the single full clip |
| AnimationClips.ClipsOfMesh | com.murasaqi.vrmexpressionexporter/Editor/VRMExpressionExporter.cs:561-605 | the expression loop creates each expression's clips, in order |
| AnimationClips.ClipsOfTable | com.murasaqi.vrmexpressionexporter/Editor/VRMExpressionExporter.cs:557-606 | the mesh loop creates the clips of every table path, in table order |
| AnimationClips.ClipsOfCharacter | com.murasaqi.vrmexpressionexporter/Editor/VRMExpressionExporter.cs:541-606 | a character without an expression set or without expressions gets no clip, else its table's clips |
| AnimationClips.GenerateAnimationClips | com.murasaqi.vrmexpressionexporter/Editor/VRMExpressionExporter.cs:532-610 | the clips of every character in order, and a total equal to their number |
| AnimationClips.MeshClipsCount | com.murasaqi.vrmexpressionexporter/Editor/VRMExpressionExporter.cs:561-605 | a mesh gets `PerExpression` clips for each expression |
| AnimationClips.TableClipsCount | com.murasaqi.vrmexpressionexporter/Editor/VRMExpressionExporter.cs:557-606 | a table gets paths × expressions × `PerExpression` clips |
| AnimationClips.CharacterClipsCount | com.murasaqi.vrmexpressionexporter/Editor/VRMExpressionExporter.cs:541-606 | no clip when the expression set is missing or the extraction yields nothing; otherwise paths × expressions × `PerExpression` |
| AnimationClips.MeshClipsMembership | com.murasaqi.vrmexpressionexporter/Editor/VRMExpressionExporter.cs:561-605 | a clip of a mesh is a clip of one of the expressions, and every such clip is there |
| AnimationClips.TableClipsMembership | com.murasaqi.vrmexpressionexporter/Editor/VRMExpressionExporter.cs:557-606 | a clip of a character is a clip of one of its table's paths, and every such clip is there |
| AnimationClips.ExpressionClipVariants | com.murasaqi.vrmexpressionexporter/Editor/VRMExpressionExporter.cs:563-604 | with exclusion the first clip has no mouth curve, and when the partner is made the first clip is the partner with its mouth curves removed and the partner's name is the first's plus "_WithMouth"; without exclusion the one clip has the curves of every kept shape, mouth ones included |
| AnimationClips.PlainClipCarriesSuffix | com.murasaqi.vrmexpressionexporter/Editor/VRMExpressionExporter.cs:593-604 | without exclusion the single clip is saved under the plain file name but its own name ends in "_WithMouth" |
| AnimationClips.CollidingClipPaths | com.murasaqi.vrmexpressionexporter/Editor/VRMExpressionExporter.cs:559-569 | meshes at "a/b" and "a_b" get the same asset path, so one clip overwrites the other |
| ExpressionList.HeaderFields | com.murasaqi.vrmexpressionexporter/Editor/VRMExpressionExporter.cs:241-248 | six header titles when capturing, else five |
| ExpressionList.RowOf | com.murasaqi.vrmexpressionexporter/Editor/VRMExpressionExporter.cs:265-296 | cells object, expression, path, name and value, then the image path `<dir>/<character>/<expression>.png` when capturing |
| ExpressionList.NonNullMembership | com.murasaqi.vrmexpressionexporter/Editor/VRMExpressionExporter.cs:228 | an object is processed exactly when it is selected and not null |
| ExpressionList.FilterNonNull | com.murasaqi.vrmexpressionexporter/Editor/VRMExpressionExporter.cs:228 | the filter keeps the non-null selection, in order |
| ExpressionList.AppendExpressionLines | com.murasaqi.vrmexpressionexporter/Editor/VRMExpressionExporter.cs:273-299 | the placeholder line for an expression without settings, else one line per setting |
| ExpressionList.AppendCharacterLines | com.murasaqi.vrmexpressionexporter/Editor/VRMExpressionExporter.cs:262-300 | every expression's lines in order, and the number of settings counted |
| ExpressionList.CollectObject | com.murasaqi.vrmexpressionexporter/Editor/VRMExpressionExporter.cs:256-301 | one object: its lines, its expression and setting counts, and 1 success when it yields any expression |
| ExpressionList.CollectRows | com.murasaqi.vrmexpressionexporter/Editor/VRMExpressionExporter.cs:254-302 | the lines of every object's expressions in order, and the three counters |
| ExpressionList.ExportExpressionList | com.murasaqi.vrmexpressionexporter/Editor/VRMExpressionExporter.cs:220-369 | stops on no valid object or no expression; otherwise the header and the lines, the counters and, when asked for, the clips |
| ExpressionList.RowWidth | com.murasaqi.vrmexpressionexporter/Editor/VRMExpressionExporter.cs:273-299 | every row has six cells when capturing, else five |
| ExpressionList.ExpressionRowsAt | com.murasaqi.vrmexpressionexporter/Editor/VRMExpressionExporter.cs:273-299 | one row per setting in setting order with its path, name and formatted value; one placeholder row with "0" when there is none |
| ExpressionList.ExpressionLinesAt | com.murasaqi.vrmexpressionexporter/Editor/VRMExpressionExporter.cs:278-296 | each line is its row with every cell quoted, in row order |
| ExpressionList.NoExpressionsIffNoSuccess | com.murasaqi.vrmexpressionexporter/Editor/VRMExpressionExporter.cs:257-260 | there is no expression exactly when no object succeeded |
| ExpressionList.StopsWithoutExpressions | com.murasaqi.vrmexpressionexporter/Editor/VRMExpressionExporter.cs:228-309 | the run stops for no valid object exactly when all are null, and for no expression exactly when some is selected and none yields one |
| ExpressionList.QuotesAreNotEscaped | com.murasaqi.vrmexpressionexporter/Editor/VRMExpressionExporter.cs:292 | a cell holding `a","b` gives the same line as the two cells `a` and `b` |
| ExcelExport.CountOf | com.murasaqi.vrmexpressionexporter/Editor/ExcelExporter.cs:71-72 | a type count is at most the number of expressions |
| ExcelExport.CountOfZero | com.murasaqi.vrmexpressionexporter/Editor/ExcelExporter.cs:71-72 | a type count is zero exactly when no expression has that type |
| ExcelExport.PresetPlusCustom | com.murasaqi.vrmexpressionexporter/Editor/ExcelExporter.cs:71-75 | the preset and custom counts add up to the total |
| ExcelExport.AnyPreviewIff | com.murasaqi.vrmexpressionexporter/Editor/ExcelExporter.cs:73 | "Yes" exactly when some expression has a non-empty preview path |
| ExcelExport.CreateSummaryFile | com.murasaqi.vrmexpressionexporter/Editor/ExcelExporter.cs:57-78 | `VRM_Expression_Summary.csv` in the output folder, with the summary lines |
| ExcelExport.SummaryAt | com.murasaqi.vrmexpressionexporter/Editor/ExcelExporter.cs:64-76 | a BOM-prefixed header, then character i's row on line i+1; its counts add up and its flag is "Yes" exactly when it has a preview |
| ExcelExport.ShapeKeysIff | com.murasaqi.vrmexpressionexporter/Editor/ExcelExporter.cs:89-93 | a key is collected exactly when some shape of the expression has it as `RelativePath:Name` (or `Index_<n>`) |
| ExcelExport.KeySetIff | com.murasaqi.vrmexpressionexporter/Editor/ExcelExporter.cs:86-94 | a key is collected exactly when some expression has a shape with that key |
| ExcelExport.Columns | com.murasaqi.vrmexpressionexporter/Editor/ExcelExporter.cs:96 | the columns are strictly sorted (so unique) and are exactly the collected keys |
| ExcelExport.ColumnsIgnoreOrder | com.murasaqi.vrmexpressionexporter/Editor/ExcelExporter.cs:86-96 | the columns depend only on which expressions there are, not on their order |
| ExcelExport.AddShapeKeys | com.murasaqi.vrmexpressionexporter/Editor/ExcelExporter.cs:89-93 | the inner loop adds the keys of one expression's shapes |
| ExcelExport.CollectKeys | com.murasaqi.vrmexpressionexporter/Editor/ExcelExporter.cs:86-94 | the loops collect the keys of every expression |
| ExcelExport.CollectValues | com.murasaqi.vrmexpressionexporter/Editor/ExcelExporter.cs:120-125 | the loop builds the key-to-weight map of one expression |
| ExcelExport.DetailHeader | com.murasaqi.vrmexpressionexporter/Editor/ExcelExporter.cs:104-111 | "Expression Name,Type,Preview Image Path" then one quoted column per sorted key |
| ExcelExport.DetailRow | com.murasaqi.vrmexpressionexporter/Editor/ExcelExporter.cs:116-140 | the quoted name, type and path, then one value cell per column |
| ExcelExport.DetailRows | com.murasaqi.vrmexpressionexporter/Editor/ExcelExporter.cs:114-141 | one row per expression, in order |
| ExcelExport.CreateCharacterDetailFile | com.murasaqi.vrmexpressionexporter/Editor/ExcelExporter.cs:80-143 | `<CharacterName>_Expressions.csv` with the sorted columns, the header and the rows |
| ExcelExport.ValueMapKeys | com.murasaqi.vrmexpressionexporter/Editor/ExcelExporter.cs:120-125 | the map has a key exactly when some shape of the expression has it |
| ExcelExport.ValueMapLastWins | com.murasaqi.vrmexpressionexporter/Editor/ExcelExporter.cs:120-125 | a key repeated within an expression maps to its last shape's weight |
| ExcelExport.DetailCellMeaning | com.murasaqi.vrmexpressionexporter/Editor/ExcelExporter.cs:114-140 | a row has 3 + columns fields; a column is "0" when no shape has its key, else the formatted weight of the last shape that has it |
| ExcelExport.DetailLinesAt | com.murasaqi.vrmexpressionexporter/Editor/ExcelExporter.cs:98-141 | a BOM-prefixed header, then expression i's row on line i+1 |
| ExcelExport.AppendShapeRows | com.murasaqi.vrmexpressionexporter/Editor/ExcelExporter.cs:209-213 | one table row per shape with a positive weight, in order |
| ExcelExport.AppendCard | com.murasaqi.vrmexpressionexporter/Editor/ExcelExporter.cs:184-219 | the card lines of one expression |
| ExcelExport.AppendSection | com.murasaqi.vrmexpressionexporter/Editor/ExcelExporter.cs:177-223 | one character's section: heading, file name and a card per expression in order |
| ExcelExport.CreateHTMLViewer | com.murasaqi.vrmexpressionexporter/Editor/ExcelExporter.cs:145-230 | `VRM_Expression_Viewer.html` with the fixed head, a section per character in order, and the tail |
| ExcelExport.PositiveMembership | com.murasaqi.vrmexpressionexporter/Editor/ExcelExporter.cs:209 | the listed shapes are exactly those with a weight above zero |
| ExcelExport.TableSize | com.murasaqi.vrmexpressionexporter/Editor/ExcelExporter.cs:202-217 | no table for an expression without shapes; else six fixed lines and one per positive shape |
| ExcelExport.CardImageIff | com.murasaqi.vrmexpressionexporter/Editor/ExcelExporter.cs:184-219 | the image line is shown when the path is non-empty and the file exists, and the "No Preview" line exactly otherwise; the table follows the name and type |
| ExcelExport.ExportToCSV | com.murasaqi.vrmexpressionexporter/Editor/ExcelExporter.cs:19-55 | nothing for a null or empty list; otherwise the `ExcelExport` folder with the summary, one detail file per character and the viewer |
| ExcelExport.ExportFiles | com.murasaqi.vrmexpressionexporter/Editor/ExcelExporter.cs:37-41 | a non-empty list gives one detail file per character, the i-th being character i's |
| PreviewCapture.GetMaterialPropertyName | com.murasaqi.vrmexpressionexporter/Editor/VRMPreviewCapture.cs:318-335 | the mapping is total, gives one of the five property names, and `_Color` for any other kind |
| PreviewCapture.MaterialPropertyRoundTrip | com.murasaqi.vrmexpressionexporter/Editor/VRMPreviewCapture.cs:318-335 | each named kind maps to its own property name, and any other kind to that of color |
| PreviewCapture.ModelBounds | com.murasaqi.vrmexpressionexporter/Editor/VRMPreviewCapture.cs:152-163 | the model box contains the model's position and every renderer's box |
| PreviewCapture.ModelBoundsSmallest | com.murasaqi.vrmexpressionexporter/Editor/VRMPreviewCapture.cs:152-163 | every box with that position and those boxes contains the model box |
| PreviewCapture.GetModelBounds | com.murasaqi.vrmexpressionexporter/Editor/VRMPreviewCapture.cs:152-163 | the loop from the zero-size box at the position computes the model box |
| PreviewCapture.Grow | com.murasaqi.vrmexpressionexporter/Editor/VRMPreviewCapture.cs:186-193 | the grown box contains the renderer's box and the box so far |
| PreviewCapture.TierBoundsNone | com.murasaqi.vrmexpressionexporter/Editor/VRMPreviewCapture.cs:172-196 | a tier has no box exactly when no renderer belongs to it |
| PreviewCapture.TierBoundsCover | com.murasaqi.vrmexpressionexporter/Editor/VRMPreviewCapture.cs:172-196 | a tier's box contains the box of every renderer in the tier |
| PreviewCapture.TierBoundsSmallest | com.murasaqi.vrmexpressionexporter/Editor/VRMPreviewCapture.cs:172-196 | a tier's box lies inside every box containing the tier's renderers |
| PreviewCapture.FaceTierWithinShapedTier | com.murasaqi.vrmexpressionexporter/Editor/VRMPreviewCapture.cs:172-221 | the face tier's box lies inside the box of all blend-shape-bearing renderers |
| PreviewCapture.AccumulateTier | com.murasaqi.vrmexpressionexporter/Editor/VRMPreviewCapture.cs:172-196 | the nullable accumulator loop computes the tier's box |
| PreviewCapture.GetFaceMeshBounds | com.murasaqi.vrmexpressionexporter/Editor/VRMPreviewCapture.cs:165-231 | the method computes the three-tier face box |
| PreviewCapture.FaceMeshBoundsMeaning | com.murasaqi.vrmexpressionexporter/Editor/VRMPreviewCapture.cs:165-231 | the smallest box over the face meshes if any; else over the blend-shape-bearing meshes if any; else the model box, which contains the position |
| PreviewCapture.PositionCamera | com.murasaqi.vrmexpressionexporter/Editor/VRMPreviewCapture.cs:119-147 | target height at least 0.5 and distance at least 0.25; x and z kept; height kept from 0.5 up; distance 2.5 × height from 0.1 up; a face centre below 0.5 is lifted to 1.5 and a face under 0.1 high gets distance 0.625; camera in front along +z |
| PreviewCapture.SetWeight | com.murasaqi.vrmexpressionexporter/Editor/VRMPreviewCapture.cs:283-290 | setting one weight keeps the number of meshes and of weights per mesh |
| PreviewCapture.Applied | com.murasaqi.vrmexpressionexporter/Editor/VRMPreviewCapture.cs:279-293 | applying the bindings keeps the number of meshes and of weights per mesh |
| PreviewCapture.AppliedUntouched | com.murasaqi.vrmexpressionexporter/Editor/VRMPreviewCapture.cs:279-293 | a weight that no binding hits keeps its value |
| PreviewCapture.AppliedLastWins | com.murasaqi.vrmexpressionexporter/Editor/VRMPreviewCapture.cs:279-293 | a weight hit by bindings gets the last such binding's weight × 100 |
| PreviewCapture.Zeroed | com.murasaqi.vrmexpressionexporter/Editor/VRMPreviewCapture.cs:337-351 | every weight of every active renderer is 0, an inactive renderer keeps its weights, and every renderer keeps its number of blend shapes |
| PreviewCapture.ResetForgetsExpression | com.murasaqi.vrmexpressionexporter/Editor/VRMPreviewCapture.cs:337-351 | on an active renderer, resetting after applying an expression gives what resetting alone gives; an inactive renderer keeps what the expression wrote |
| PreviewCapture.ResetIsNotRestore | com.murasaqi.vrmexpressionexporter/Editor/VRMPreviewCapture.cs:337-351 | a weight of 50 does not come back after an empty expression and a reset |
| PreviewCapture.DisabledMeshKeepsExpression | com.murasaqi.vrmexpressionexporter/Editor/VRMPreviewCapture.cs:276-351 | a binding on a disabled mesh is applied through `Transform.Find` and survives the reset at 100 times its weight |
| PreviewCapture.Avatar.ApplyExpression | com.murasaqi.vrmexpressionexporter/Editor/VRMPreviewCapture.cs:276-293 | the weights become the old weights with the bindings applied; none when the list is missing |
| PreviewCapture.Avatar.ResetExpression | com.murasaqi.vrmexpressionexporter/Editor/VRMPreviewCapture.cs:337-351 | every weight of every active renderer becomes 0 and the others are kept |
| PreviewCapture.CaptureExpression | com.murasaqi.vrmexpressionexporter/Editor/VRMPreviewCapture.cs:22-66 | "" and no change without an avatar or an expression; otherwise the path `<out>/<character>/<expression>.png`, the weights applied and then reset to 0 on the active renderers, every node under the avatar root given the root's original layer, and every other node keeping its layer |
| CsvToExcel.GroupBy | Assets/VRMExpressionExporter/Editor/convert_csv_to_excel.py:41-47 | the `defaultdict` loop builds the grouping |
| CsvToExcel.GroupedKeys | Assets/VRMExpressionExporter/Editor/convert_csv_to_excel.py:41-47 | the groups come in order of each key's first appearance |
| CsvToExcel.GroupedKeySet | Assets/VRMExpressionExporter/Editor/convert_csv_to_excel.py:41-47 | every key occurs once, and the keys are exactly those of the rows |
| CsvToExcel.GroupedRows | Assets/VRMExpressionExporter/Editor/convert_csv_to_excel.py:41-47 | each group holds exactly the rows with its key, in their original order |
| CsvToExcel.GroupedIsPermutation | Assets/VRMExpressionExporter/Editor/convert_csv_to_excel.py:41-47 | the groups together are a permutation of the input rows |
| CsvToExcel.GroupsNonEmpty | Assets/VRMExpressionExporter/Editor/convert_csv_to_excel.py:113-116 | no group is empty |
| CsvToExcel.SheetName | Assets/VRMExpressionExporter/Editor/convert_csv_to_excel.py:100-101 | at most 31 characters, no '/' or '\\', and an already valid name is kept |
| CsvToExcel.SheetTitle | Assets/VRMExpressionExporter/Editor/convert_csv_to_excel.py:100-102 | the title the sheet gets: never empty, the cleaned name when that is not empty |
| CsvToExcel.EmptyNameGetsDefaultTitle | Assets/VRMExpressionExporter/Editor/convert_csv_to_excel.py:100-102 | an empty name gets the default title "Sheet", which is a valid title |
| CsvToExcel.HasRefusedIff | Assets/VRMExpressionExporter/Editor/convert_csv_to_excel.py:100-102 | the recursive test finds one of `* ? : [ ]` exactly when one occurs at some position |
| CsvToExcel.RejectedIff | Assets/VRMExpressionExporter/Editor/convert_csv_to_excel.py:100-102 | a name is rejected exactly when its sheet title contains a character openpyxl refuses in a title |
| CsvToExcel.DefaultOutputPathStep | Assets/VRMExpressionExporter/Editor/convert_csv_to_excel.py:78-79 | every ".csv" is replaced, not only a final extension |
| CsvToExcel.DefaultOutputPathSuffix | Assets/VRMExpressionExporter/Editor/convert_csv_to_excel.py:78-79 | a dot-free name with ".csv" becomes the name with "_with_images.xlsx" |
| CsvToExcel.PlaceImage | Assets/VRMExpressionExporter/Editor/convert_csv_to_excel.py:126-161 | the image cell and anchor of an expression's first row |
| CsvToExcel.WriteRecords | Assets/VRMExpressionExporter/Editor/convert_csv_to_excel.py:164-171 | the records on consecutive rows, the counter ending on the last record's row |
| CsvToExcel.WriteGroup | Assets/VRMExpressionExporter/Editor/convert_csv_to_excel.py:120-182 | one expression's cells, merges and image, with the next expression starting right after its rows |
| CsvToExcel.WriteSheet | Assets/VRMExpressionExporter/Editor/convert_csv_to_excel.py:102-182 | one character's sheet: the header, then its expressions from row 2 |
| CsvToExcel.CreateExcelFile | Assets/VRMExpressionExporter/Editor/convert_csv_to_excel.py:75-210 | the default or given output path, and one sheet per character in order of first appearance, or no workbook when some title is refused |
| CsvToExcel.WorkbookFailsIff | Assets/VRMExpressionExporter/Editor/convert_csv_to_excel.py:96-102 | no workbook is saved exactly when some record's object name gives a refused title |
| CsvToExcel.ColonInNameFails | Assets/VRMExpressionExporter/Editor/convert_csv_to_excel.py:100-102 | a character named "a:b" makes the whole conversion fail |
| CsvToExcel.RecordRows | Assets/VRMExpressionExporter/Editor/convert_csv_to_excel.py:164-171 | record j's path, name and value are in columns C-E of row start + j, and no record cell is written elsewhere |
| CsvToExcel.MissingImageMarker | Assets/VRMExpressionExporter/Editor/convert_csv_to_excel.py:127-161 | "画像なし" is in column B of the first row exactly when the first record names an image whose joined path does not exist |
| CsvToExcel.GroupsAreContiguous | Assets/VRMExpressionExporter/Editor/convert_csv_to_excel.py:119-182 | the first expression starts at row 2, each next one right after its predecessor's rows, and a group spans one row per record |
| CsvToExcel.MergeMembership | Assets/VRMExpressionExporter/Editor/convert_csv_to_excel.py:173-176 | the merges are exactly columns A and B over the rows of each expression with more than one record |
| CsvToExcel.SheetRowCount | Assets/VRMExpressionExporter/Editor/convert_csv_to_excel.py:112-182 | the expressions of a sheet span exactly as many rows as it has records |
| Paths.Combine | com.murasaqi.vrmexpressionexporter/Editor/ExcelExporter.cs:28 | a rooted second part, or an empty first part, gives the second part; an empty second part gives the first; a first part ending in '/' is followed directly by the second; otherwise the two are joined with one '/' |
| Paths.PosixJoin | Assets/VRMExpressionExporter/Editor/convert_csv_to_excel.py:128 | an absolute second part wins; a first part ending in '/' is followed directly by the second; otherwise joined with one '/' |
| Strings.ContainsIff | com.murasaqi.vrmexpressionexporter/Editor/VRMExpressionExporter.cs:726 | the substring test holds exactly when the pattern occurs at some position |
| Strings.ToLower | com.murasaqi.vrmexpressionexporter/Editor/VRMExpressionExporter.cs:915 | same length; each character lower-cased on its own |
| Strings.ReplaceChar | com.murasaqi.vrmexpressionexporter/Editor/ExcelExporter.cs:190 | same length; exactly the occurrences of the character replaced |
| Strings.NatToStringRoundTrip | com.murasaqi.vrmexpressionexporter/Editor/VRMExpressionExporter.cs:499 | the index in an `Index_<n>` label is rendered in decimal digits that read back as the number |
| Strings.IntToStringInjective | com.murasaqi.vrmexpressionexporter/Editor/VRMExpressionExporter.cs:499 | distinct indices give distinct labels, with a '-' exactly for negative ones |
| Strings.SortSet | com.murasaqi.vrmexpressionexporter/Editor/ExcelExporter.cs:96 | the keys, each once, in ascending order |
| Strings.SortedUnique | com.murasaqi.vrmexpressionexporter/Editor/ExcelExporter.cs:96 | two strictly sorted lists with the same elements are equal, so the sort is determined by the key set |

## Left out

- Editor UI: the window, drag and drop, dialogs, progress bars, log messages and `RevealInFinder` have no counterpart. `CSVToExcelConverter.cs`, a window that starts the Python script as an external process, is not part of this model.
- File system and asset database: directory creation, file writes and asset creation are not modelled. A written file is a `TextFile` value with its path and lines, and a created clip is a `ClipAsset` value. `File.Exists`, `os.path.exists` and `Path.GetRelativePath` are function parameters.
- Number formatting: `F1` and `F2` are function parameters, so the model does not fix their digits or their culture. Weights, values and bounds are `real`, so float rounding is not modelled. `Weight * 100f` is exact in the model.
- Column sort: `OrderBy` on strings is culture-sensitive in .NET. The model sorts in ordinal order.
- Character classes: `ToLower` lower-cases only ASCII letters, with no Unicode case mapping.
- Rendering: `SetupPreviewEnvironment`, `PositionModel`, `SetupLighting`, `CaptureToFile`, the camera's `LookAt`, render textures and PNG encoding are not modelled. `PositionCamera` returns the target, distance and position it would set.
- Scene clean-up: `CleanupAllPreviewObjects` and `CleanupPreviewEnvironment` scan the whole scene by name, so they are left out. So is `CaptureExpressionImages`, which instantiates clones and calls the capture for each expression.
- Material colours: applying a colour needs `renderer.materials`, `HasProperty` and `SetColor`, so it is not modelled. Only the property-name mapping is.
- Unity lookups: `Transform.Find` is the path-to-mesh map `meshAt`. `GetComponentsInChildren` is the renderer list, given in hierarchy order; the per-renderer `active` flags say which of them the reset's `GetComponentsInChildren<SkinnedMeshRenderer>()` returns, while `resolve` reaches inactive renderers too, as `Transform.Find` does. A renderer without a mesh has no weights. A renderer's `name` and its transform's `name` are the same game object name, so the face test checks it once.
- PreviewCapture.Avatar.ApplyExpression: a binding whose index is out of range for its mesh is ignored, as Unity does. The weights form one `seq<seq<real>>` field of the avatar, one sequence per mesh, not an array per renderer.
- ExpressionExtraction.ExtractExpressionsFromVRM: an exception is modelled as the position of the expression whose construction throws, a field of the character. What throws and why is not modelled.
- PreviewCapture.CaptureExpression: a throw from `CaptureToFile` is not modelled. In the source, such a throw skips the reset while still restoring the layers.
- ExpressionExtraction.GetVRM10Expression: its own contract states only the missing-instance case. The lookup's behaviour is stated by LookupFindsPresetEntry, LookupFindsCustomClip and PresetKeysShadowCustomClips.
- Python styling: fonts, fills, borders, column widths and row heights are not modelled. Neither are image resizing and embedding, or `utf-8-sig` decoding. A CSV record is a map from header title to field.
- Python image errors: the "画像読み込みエラー" branch for an image that exists but fails to load is not modelled. A placed image is an anchor at `B<row>`, and `ctx.loadsImage` decides whether one is placed.
- Sheet titles: two characters whose names sanitise to the same title would get titles made unique by openpyxl. That is not modelled.
- CsvToExcel.CreateExcelFile: a title containing `* ? : [ ]` makes `create_sheet` raise, and `main` then exits with status 1 (convert_csv_to_excel.py:222-229). The model returns no workbook; the exit status and the message are not modelled.
- CsvToExcel.CreateExcelFile: with no records the sheet list is empty. What `wb.save` does with a workbook without sheets is not modelled.
- Expression type: the source stores the type as a string. The model uses the two-valued type the record documents. The summary's preset and custom counts (PresetPlusCustom) rely on this: with the string, a value other than "Preset" and "Custom" would be counted in neither.
- The project root (`Path(csv_path).parent.parent`) is a parameter.
- Paths.Combine: joins with '/', the separator on macOS and Linux. On Windows .NET uses '\\'.

## Notes on the source

- IsMouthBlendShape matches case-sensitively, pattern by pattern. "Cheek" counts as a mouth shape because it contains "ee". "mOUTH" counts because it contains the listed "OU".
- Curve values are the extracted percentages (`Weight * 100`), not 0-1 weights.
- Mesh names replace '/' by '_', so the meshes "a/b" and "a_b" get the same clip path. The empty path and a mesh named "Root" collide the same way.
- Without mouth exclusion, the single clip is saved under the plain file name. Its clip name still ends in "_WithMouth".
- If the lower-cased name is a preset key, the lookup by name returns that slot even when the slot is empty. It does not go on to the custom clips.
- The blend-shape table keeps its keys in insertion order. A later renderer at the same path replaces the names but keeps the path's place.
- CSV fields are wrapped in double quotes, but quotes inside a field are not escaped.
- The default workbook path replaces every ".csv" in the CSV path, not only the extension.
- After a capture, every node of the avatar gets the root's original layer, not its own.
- Resetting sets every weight to 0; it does not restore the weights from before the capture.
- The reset only reaches active renderers, while the expression is applied through `Transform.Find`, which also finds inactive ones. A binding on a disabled mesh therefore keeps its weight after the capture.
- Each animation curve is bound with relative path "" (VRMExpressionExporter.cs:678), that is to a SkinnedMeshRenderer on the object the clip is played on, not to the mesh at the path the clip was built from. The model's curves carry no binding path for this reason.
- The summary and detail CSV files are opened with `Encoding.UTF8`, which already writes the UTF-8 preamble, and then an explicit '\uFEFF' is written (ExcelExporter.cs:61-64, 98-101). Each file therefore starts with two byte-order marks. The model's lines hold the characters written, so they start with the one explicit BOM.
