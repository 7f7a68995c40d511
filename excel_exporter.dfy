/**
 * The Excel-friendly export of expression records: a summary CSV with one row
 * per character, a wide detail CSV per character with one column per blend
 * shape, and an HTML viewer with one card per expression.
 */
module ExcelExport {
  import opened Wrappers
  import opened Strings
  import opened Paths
  import opened Sequences
  import opened ExpressionModel
  import ExpressionExtraction

  /** A written text file: its path and its lines. */
  datatype TextFile = TextFile(path: string, lines: seq<string>)

  /** The byte-order mark written before the header of each CSV file. */
  const Bom: char := '\U{FEFF}'

  // ---------------------------------------------------------------------------
  // Summary

  /** The number of expressions with tag `t` (LINQ `Count`). */
  function CountOf(es: seq<ExpressionInfo>, t: ExpressionType): (n: nat)
    ensures n <= |es|
  {
    if es == [] then 0
    else CountOf(es[..|es| - 1], t) + (if es[|es| - 1].exprType == t then 1 else 0)
  }

  /** No expression carries the tag exactly when the count is zero. */
  lemma {:induction false} CountOfZero(es: seq<ExpressionInfo>, t: ExpressionType)
    ensures CountOf(es, t) == 0 <==> forall i :: 0 <= i < |es| ==> es[i].exprType != t
  {
    if es != [] {
      var n := |es| - 1;
      CountOfZero(es[..n], t);
      assert forall i :: 0 <= i < n ==> es[..n][i] == es[i];
    }
  }

  /** Every expression is a preset or a custom one. */
  lemma {:induction false} PresetPlusCustom(es: seq<ExpressionInfo>)
    ensures CountOf(es, Preset) + CountOf(es, Custom) == |es|
  {
    if es != [] {
      PresetPlusCustom(es[..|es| - 1]);
    }
  }

  predicate HasPreview(e: ExpressionInfo) {
    e.previewImagePath.Some? && e.previewImagePath.value != ""
  }

  /** LINQ `Any(e => !string.IsNullOrEmpty(e.PreviewImagePath))`. */
  function AnyPreview(es: seq<ExpressionInfo>): bool {
    if es == [] then false else AnyPreview(es[..|es| - 1]) || HasPreview(es[|es| - 1])
  }

  lemma {:induction false} AnyPreviewIff(es: seq<ExpressionInfo>)
    ensures AnyPreview(es) <==> exists i :: 0 <= i < |es| && HasPreview(es[i])
  {
    if es != [] {
      var n := |es| - 1;
      AnyPreviewIff(es[..n]);
      if i :| 0 <= i < |es| && HasPreview(es[i]) {
        if i < n {
          assert es[..n][i] == es[i];
        }
      }
      if i :| 0 <= i < n && HasPreview(es[..n][i]) {
        assert es[..n][i] == es[i];
      }
    }
  }

  const SummaryHeader := "Character Name,File Name,Total Expressions,Preset Expressions,Custom Expressions,Has Preview Images"

  /** One character's summary line. */
  function SummaryRow(d: VRMExpressionData): string {
    Quoted(d.characterName) + "," + Quoted(d.fileName) + ","
    + IntToString(|d.expressions|) + "," + IntToString(CountOf(d.expressions, Preset)) + ","
    + IntToString(CountOf(d.expressions, Custom)) + "," + (if AnyPreview(d.expressions) then "Yes" else "No")
  }

  function SummaryLine(d: VRMExpressionData): seq<string> {
    [SummaryRow(d)]
  }

  /** The summary file: the marked header, then one line per character in order. */
  function SummaryLines(list: seq<VRMExpressionData>): seq<string> {
    [[Bom] + SummaryHeader] + ConcatMap(list, SummaryLine)
  }

  /** `CreateSummaryFile`: the writer loop over the characters. */
  method CreateSummaryFile(list: seq<VRMExpressionData>, outputDir: string) returns (f: TextFile)
    ensures f == TextFile(Combine(outputDir, "VRM_Expression_Summary.csv"), SummaryLines(list))
  {
    var lines := [[Bom] + SummaryHeader];
    for i := 0 to |list|
      invariant lines == [[Bom] + SummaryHeader] + ConcatMap(list[..i], SummaryLine)
    {
      var d := list[i];
      var presetCount := CountOf(d.expressions, Preset);
      var customCount := CountOf(d.expressions, Custom);
      var hasImages := AnyPreview(d.expressions);
      ConcatMapSnoc(list, SummaryLine, i);
      lines := lines + [Quoted(d.characterName) + "," + Quoted(d.fileName) + ","
        + IntToString(|d.expressions|) + "," + IntToString(presetCount) + ","
        + IntToString(customCount) + "," + (if hasImages then "Yes" else "No")];
    }
    assert list[..|list|] == list;
    f := TextFile(Combine(outputDir, "VRM_Expression_Summary.csv"), lines);
  }

  /**
   * The summary has the header and one line per character, in input order,
   * whose counts split the character's expressions into presets and customs
   * and whose last field says whether any of them has a preview image.
   */
  lemma SummaryAt(list: seq<VRMExpressionData>, i: nat)
    requires i < |list|
    ensures |SummaryLines(list)| == |list| + 1
    ensures SummaryLines(list)[0][0] == Bom
    ensures SummaryLines(list)[i + 1] == SummaryRow(list[i])
    ensures CountOf(list[i].expressions, Preset) + CountOf(list[i].expressions, Custom) == |list[i].expressions|
    ensures AnyPreview(list[i].expressions) <==> exists j :: 0 <= j < |list[i].expressions| && HasPreview(list[i].expressions[j])
  {
    ConcatMapUnitAt(list, SummaryLine, i);
    PresetPlusCustom(list[i].expressions);
    AnyPreviewIff(list[i].expressions);
  }

  // ---------------------------------------------------------------------------
  // Detail

  /** The shape's name, or `Index_<n>` when it has none. */
  function DisplayName(b: BlendShapeInfo): string {
    if b.name.Some? then b.name.value else ExpressionExtraction.FallbackName(b.index)
  }

  /** The column of a blend shape: `<path>:<name>`. */
  function ColumnKey(b: BlendShapeInfo): string {
    b.relativePath + ":" + DisplayName(b)
  }

  function ShapeKeys(bs: seq<BlendShapeInfo>): set<string> {
    if bs == [] then {} else ShapeKeys(bs[..|bs| - 1]) + {ColumnKey(bs[|bs| - 1])}
  }

  /** Every column key over all expressions of a character. */
  function KeySet(es: seq<ExpressionInfo>): set<string> {
    if es == [] then {} else KeySet(es[..|es| - 1]) + ShapeKeys(es[|es| - 1].blendShapes)
  }

  lemma {:induction false} ShapeKeysIff(bs: seq<BlendShapeInfo>, k: string)
    ensures k in ShapeKeys(bs) <==> exists j :: 0 <= j < |bs| && ColumnKey(bs[j]) == k
  {
    if bs != [] {
      var n := |bs| - 1;
      ShapeKeysIff(bs[..n], k);
      assert forall j :: 0 <= j < n ==> bs[..n][j] == bs[j];
    }
  }

  /** Some blend shape of the expression has column key `k`. */
  predicate HasKey(e: ExpressionInfo, k: string) {
    k in ShapeKeys(e.blendShapes)
  }

  /** A key is a column exactly when some blend shape of some expression has it. */
  lemma {:induction false} KeySetIff(es: seq<ExpressionInfo>, k: string)
    ensures k in KeySet(es) <==> exists i :: 0 <= i < |es| && HasKey(es[i], k)
  {
    if es != [] {
      var n := |es| - 1;
      KeySetIff(es[..n], k);
      assert k in KeySet(es) <==> k in KeySet(es[..n]) || HasKey(es[n], k);
      if i :| 0 <= i < |es| && HasKey(es[i], k) {
        if i < n {
          assert es[..n][i] == es[i];
        }
      }
      if i :| 0 <= i < n && HasKey(es[..n][i], k) {
        assert es[..n][i] == es[i];
      }
    }
  }

  /** The sorted, duplicate-free column list of a character. */
  ghost function Columns(es: seq<ExpressionInfo>): (r: seq<string>)
    ensures StrictlySorted(r)
    ensures forall k :: k in r <==> k in KeySet(es)
  {
    SortedOf(KeySet(es))
  }

  /** The columns depend on which expressions there are, not on their order or repetition. */
  lemma ColumnsIgnoreOrder(es1: seq<ExpressionInfo>, es2: seq<ExpressionInfo>)
    requires forall e :: e in es1 <==> e in es2
    ensures Columns(es1) == Columns(es2)
  {
    forall k ensures k in KeySet(es1) <==> k in KeySet(es2) {
      KeySetIff(es1, k);
      KeySetIff(es2, k);
      if i :| 0 <= i < |es1| && HasKey(es1[i], k) {
        assert es1[i] in es2;
      }
      if i :| 0 <= i < |es2| && HasKey(es2[i], k) {
        assert es2[i] in es1;
      }
    }
    SortedUnique(Columns(es1), Columns(es2));
  }

  /** One expression's weights by column; a later blend shape on the same column wins. */
  function ValueMap(bs: seq<BlendShapeInfo>): map<string, real> {
    if bs == [] then map[]
    else ValueMap(bs[..|bs| - 1])[ColumnKey(bs[|bs| - 1]) := bs[|bs| - 1].weight]
  }

  /** The cell of one column: the formatted weight, or "0". */
  function Cell(values: map<string, real>, col: string, fmt: real -> string): string {
    if col in values then fmt(values[col]) else "0"
  }

  function CellsFor(values: map<string, real>, cols: seq<string>, fmt: real -> string): (r: seq<string>)
    ensures |r| == |cols|
  {
    if cols == [] then []
    else CellsFor(values, cols[..|cols| - 1], fmt) + [Cell(values, cols[|cols| - 1], fmt)]
  }

  /** The header cells: three fixed titles, then each column quoted. */
  function DetailHeaderCells(cols: seq<string>): seq<string> {
    ["Expression Name", "Type", "Preview Image Path"] + ConcatMap(cols, QuotedField)
  }

  function QuotedField(s: string): seq<string> {
    [Quoted(s)]
  }

  /** The cells of one expression's row; `fmt` is the two-decimal format. */
  function DetailCells(e: ExpressionInfo, cols: seq<string>, fmt: real -> string): seq<string> {
    [Quoted(e.name), Quoted(TypeTag(e.exprType)),
     Quoted(if e.previewImagePath.Some? then e.previewImagePath.value else "")]
    + CellsFor(ValueMap(e.blendShapes), cols, fmt)
  }

  function DetailLineOf(cols: seq<string>, fmt: real -> string): ExpressionInfo -> seq<string> {
    e => [Join(DetailCells(e, cols, fmt), ",")]
  }

  /** The detail file's lines for given columns. */
  function DetailLines(d: VRMExpressionData, cols: seq<string>, fmt: real -> string): seq<string> {
    [[Bom] + Join(DetailHeaderCells(cols), ",")] + ConcatMap(d.expressions, DetailLineOf(cols, fmt))
  }

  /** `CreateCharacterDetailFile`: `<CharacterName>_Expressions.csv` over the sorted columns. */
  ghost function DetailFile(d: VRMExpressionData, outputDir: string, fmt: real -> string): TextFile {
    TextFile(Combine(outputDir, d.characterName + "_Expressions.csv"), DetailLines(d, Columns(d.expressions), fmt))
  }

  lemma ShapeKeysSnoc(bs: seq<BlendShapeInfo>, j: nat)
    requires j < |bs|
    ensures ShapeKeys(bs[..j + 1]) == ShapeKeys(bs[..j]) + {ColumnKey(bs[j])}
  {
    assert bs[..j + 1][..j] == bs[..j];
  }

  lemma KeySetSnoc(es: seq<ExpressionInfo>, i: nat)
    requires i < |es|
    ensures KeySet(es[..i + 1]) == KeySet(es[..i]) + ShapeKeys(es[i].blendShapes)
  {
    assert es[..i + 1][..i] == es[..i];
  }

  /** The inner loop adding one expression's keys to the set. */
  method AddShapeKeys(keys: set<string>, bs: seq<BlendShapeInfo>) returns (r: set<string>)
    ensures r == keys + ShapeKeys(bs)
  {
    r := keys;
    for j := 0 to |bs|
      invariant r == keys + ShapeKeys(bs[..j])
    {
      ShapeKeysSnoc(bs, j);
      var b := bs[j];
      var name := if b.name.Some? then b.name.value else "Index_" + IntToString(b.index);
      r := r + {b.relativePath + ":" + name};
    }
    assert bs[..|bs|] == bs;
  }

  /** The `HashSet` loop over every blend shape of every expression. */
  method CollectKeys(es: seq<ExpressionInfo>) returns (keys: set<string>)
    ensures keys == KeySet(es)
  {
    keys := {};
    for i := 0 to |es|
      invariant keys == KeySet(es[..i])
    {
      KeySetSnoc(es, i);
      keys := AddShapeKeys(keys, es[i].blendShapes);
    }
    assert es[..|es|] == es;
  }

  lemma ValueMapSnoc(bs: seq<BlendShapeInfo>, j: nat)
    requires j < |bs|
    ensures ValueMap(bs[..j + 1]) == ValueMap(bs[..j])[ColumnKey(bs[j]) := bs[j].weight]
  {
    assert bs[..j + 1][..j] == bs[..j];
  }

  /** The per-row dictionary loop. */
  method CollectValues(bs: seq<BlendShapeInfo>) returns (values: map<string, real>)
    ensures values == ValueMap(bs)
  {
    values := map[];
    for j := 0 to |bs|
      invariant values == ValueMap(bs[..j])
    {
      ValueMapSnoc(bs, j);
      values := values[ColumnKey(bs[j]) := bs[j].weight];
    }
    assert bs[..|bs|] == bs;
  }

  lemma CellsForSnoc(values: map<string, real>, cols: seq<string>, fmt: real -> string, i: nat)
    requires i < |cols|
    ensures CellsFor(values, cols[..i + 1], fmt) == CellsFor(values, cols[..i], fmt) + [Cell(values, cols[i], fmt)]
  {
    assert cols[..i + 1][..i] == cols[..i];
  }

  /** One expression's row, built by appending `,value` per column. */
  method DetailRow(e: ExpressionInfo, cols: seq<string>, fmt: real -> string) returns (row: string)
    ensures row == Join(DetailCells(e, cols, fmt), ",")
  {
    var path := if e.previewImagePath.Some? then e.previewImagePath.value else "";
    var nameCell, typeCell, pathCell := Quoted(e.name), Quoted(TypeTag(e.exprType)), Quoted(path);
    row := nameCell + "," + typeCell + "," + pathCell;
    ghost var fixed := [nameCell, typeCell, pathCell];
    JoinThree(nameCell, typeCell, pathCell, ",");
    var values := CollectValues(e.blendShapes);
    assert fixed + CellsFor(values, cols[..0], fmt) == fixed;
    for i := 0 to |cols|
      invariant row == Join(fixed + CellsFor(values, cols[..i], fmt), ",")
    {
      var cell := if cols[i] in values then fmt(values[cols[i]]) else "0";
      CellsForSnoc(values, cols, fmt, i);
      assert fixed + CellsFor(values, cols[..i + 1], fmt) == (fixed + CellsFor(values, cols[..i], fmt)) + [cell];
      JoinSnoc(fixed + CellsFor(values, cols[..i], fmt), ",", cell);
      row := row + "," + cell;
    }
    assert cols[..|cols|] == cols;
  }

  /** The header, built by appending `,"column"` per column. */
  method DetailHeader(cols: seq<string>) returns (header: string)
    ensures header == Join(DetailHeaderCells(cols), ",")
  {
    header := "Expression Name" + "," + "Type" + "," + "Preview Image Path";
    ghost var fixed := ["Expression Name", "Type", "Preview Image Path"];
    JoinThree("Expression Name", "Type", "Preview Image Path", ",");
    assert fixed + ConcatMap(cols[..0], QuotedField) == fixed;
    for i := 0 to |cols|
      invariant header == Join(fixed + ConcatMap(cols[..i], QuotedField), ",")
    {
      ConcatMapSnoc(cols, QuotedField, i);
      assert fixed + ConcatMap(cols[..i + 1], QuotedField) == (fixed + ConcatMap(cols[..i], QuotedField)) + [Quoted(cols[i])];
      JoinSnoc(fixed + ConcatMap(cols[..i], QuotedField), ",", Quoted(cols[i]));
      header := header + "," + Quoted(cols[i]);
    }
    assert cols[..|cols|] == cols;
  }

  /** The row loop of the detail file: one line per expression, in order. */
  method DetailRows(es: seq<ExpressionInfo>, cols: seq<string>, fmt: real -> string) returns (lines: seq<string>)
    ensures lines == ConcatMap(es, DetailLineOf(cols, fmt))
  {
    lines := [];
    for i := 0 to |es|
      invariant lines == ConcatMap(es[..i], DetailLineOf(cols, fmt))
    {
      var row := DetailRow(es[i], cols, fmt);
      ConcatMapSnoc(es, DetailLineOf(cols, fmt), i);
      lines := lines + [row];
    }
    assert es[..|es|] == es;
  }

  /** `CreateCharacterDetailFile`: the column set, its sorted order, the header and one row per expression. */
  method CreateCharacterDetailFile(d: VRMExpressionData, outputDir: string, fmt: real -> string)
    returns (f: TextFile, columns: seq<string>)
    ensures columns == Columns(d.expressions)
    ensures f == DetailFile(d, outputDir, fmt)
  {
    var keys := CollectKeys(d.expressions);
    columns := SortSet(keys);
    var header := DetailHeader(columns);
    var rows := DetailRows(d.expressions, columns, fmt);
    f := TextFile(Combine(outputDir, d.characterName + "_Expressions.csv"), [[Bom] + header] + rows);
  }

  lemma CellsForAt(values: map<string, real>, cols: seq<string>, fmt: real -> string, i: nat)
    requires i < |cols|
    ensures CellsFor(values, cols, fmt)[i] == Cell(values, cols[i], fmt)
  {
    var n := |cols| - 1;
    if i < n {
      CellsForAt(values, cols[..n], fmt, i);
    }
  }

  /** The row's dictionary has exactly the column keys of the expression's blend shapes. */
  lemma {:induction false} ValueMapKeys(bs: seq<BlendShapeInfo>, k: string)
    ensures k in ValueMap(bs) <==> k in ShapeKeys(bs)
  {
    if bs != [] {
      ValueMapKeys(bs[..|bs| - 1], k);
    }
  }

  /** The dictionary holds the weight of the last blend shape with the key. */
  lemma {:induction false} ValueMapLastWins(bs: seq<BlendShapeInfo>, k: string, j: nat)
    requires j < |bs| && ColumnKey(bs[j]) == k
    requires forall i :: j < i < |bs| ==> ColumnKey(bs[i]) != k
    ensures k in ValueMap(bs) && ValueMap(bs)[k] == bs[j].weight
  {
    var n := |bs| - 1;
    if j < n {
      assert bs[..n][j] == bs[j];
      assert forall i :: j < i < n ==> bs[..n][i] == bs[i];
      ValueMapLastWins(bs[..n], k, j);
    }
  }

  /**
   * A detail row has three fixed cells and one per column; a column's cell is
   * "0" when no blend shape of the expression has that key, and otherwise the
   * weight of the last one that has it.
   */
  lemma DetailCellMeaning(e: ExpressionInfo, cols: seq<string>, fmt: real -> string, c: nat, j: nat)
    requires c < |cols|
    ensures |DetailCells(e, cols, fmt)| == 3 + |cols|
    ensures (forall i :: 0 <= i < |e.blendShapes| ==> ColumnKey(e.blendShapes[i]) != cols[c])
      ==> DetailCells(e, cols, fmt)[3 + c] == "0"
    ensures j < |e.blendShapes| && ColumnKey(e.blendShapes[j]) == cols[c]
      && (forall i :: j < i < |e.blendShapes| ==> ColumnKey(e.blendShapes[i]) != cols[c])
      ==> DetailCells(e, cols, fmt)[3 + c] == fmt(e.blendShapes[j].weight)
  {
    var values := ValueMap(e.blendShapes);
    CellsForAt(values, cols, fmt, c);
    ValueMapKeys(e.blendShapes, cols[c]);
    ShapeKeysIff(e.blendShapes, cols[c]);
    if j < |e.blendShapes| && ColumnKey(e.blendShapes[j]) == cols[c]
      && (forall i :: j < i < |e.blendShapes| ==> ColumnKey(e.blendShapes[i]) != cols[c]) {
      ValueMapLastWins(e.blendShapes, cols[c], j);
    }
  }

  /** The detail file has the marked header and one row per expression, in order. */
  lemma DetailLinesAt(d: VRMExpressionData, cols: seq<string>, fmt: real -> string, i: nat)
    requires i < |d.expressions|
    ensures |DetailLines(d, cols, fmt)| == |d.expressions| + 1
    ensures DetailLines(d, cols, fmt)[0][0] == Bom
    ensures DetailLines(d, cols, fmt)[i + 1] == Join(DetailCells(d.expressions[i], cols, fmt), ",")
  {
    ConcatMapUnitAt(d.expressions, DetailLineOf(cols, fmt), i);
  }

  // ---------------------------------------------------------------------------
  // HTML viewer

  /**
   * What the viewer needs from outside: the output folder, `File.Exists`,
   * `Path.GetRelativePath` and the one-decimal number format.
   */
  datatype HtmlContext = HtmlContext(
    outputDir: string,
    fileExists: string -> bool,
    relativePath: (string, string) -> string,
    fmt: real -> string)

  const HtmlHead: seq<string> := [
    "<!DOCTYPE html>",
    "<html lang=\"ja\">",
    "<head>",
    "    <meta charset=\"UTF-8\">",
    "    <meta name=\"viewport\" content=\"width=device-width, initial-scale=1.0\">",
    "    <title>VRM Expression Viewer</title>",
    "    <style>",
    "        body { font-family: Arial, sans-serif; margin: 20px; background-color: #f5f5f5; }",
    "        .character { background: white; padding: 20px; margin-bottom: 30px; border-radius: 8px; box-shadow: 0 2px 4px rgba(0,0,0,0.1); }",
    "        .character h2 { color: #333; border-bottom: 2px solid #4CAF50; padding-bottom: 10px; }",
    "        .expression-grid { display: grid; grid-template-columns: repeat(auto-fill, minmax(200px, 1fr)); gap: 20px; margin-top: 20px; }",
    "        .expression-card { background: #f9f9f9; border: 1px solid #ddd; border-radius: 4px; padding: 10px; text-align: center; }",
    "        .expression-card img { max-width: 100%; height: auto; border-radius: 4px; }",
    "        .expression-name { font-weight: bold; margin-top: 10px; }",
    "        .expression-type { color: #666; font-size: 0.9em; }",
    "        .no-image { background: #eee; height: 150px; display: flex; align-items: center; justify-content: center; color: #999; }",
    "        table { border-collapse: collapse; width: 100%; margin-top: 10px; }",
    "        th, td { border: 1px solid #ddd; padding: 8px; text-align: left; }",
    "        th { background-color: #4CAF50; color: white; }",
    "        .blend-shape-value { text-align: right; }",
    "    </style>",
    "</head>",
    "<body>",
    "    <h1>VRM Expression Viewer</h1>"]

  const HtmlTail: seq<string> := ["</body>", "</html>"]

  /** The card shows the image when the path is non-empty and the file exists. */
  predicate ShowsImage(ctx: HtmlContext, e: ExpressionInfo) {
    e.previewImagePath.Some? && e.previewImagePath.value != "" && ctx.fileExists(e.previewImagePath.value)
  }

  const NoPreviewLine := "                <div class=\"no-image\">No Preview</div>"

  /** The `<img>` line, the path relative to the output folder with '/' separators. */
  function ImageLine(ctx: HtmlContext, e: ExpressionInfo): string
    requires e.previewImagePath.Some?
  {
    "                <img src=\"" + ReplaceChar(ctx.relativePath(ctx.outputDir, e.previewImagePath.value), '\\', '/')
    + "\" alt=\"" + e.name + "\">"
  }

  function ImageLines(ctx: HtmlContext, e: ExpressionInfo): seq<string> {
    if ShowsImage(ctx, e) then [ImageLine(ctx, e)] else [NoPreviewLine]
  }

  function PositiveOne(b: BlendShapeInfo): seq<BlendShapeInfo> {
    if b.weight > 0.0 then [b] else []
  }

  /** `Where(b => b.Weight > 0)`. */
  function Positive(bs: seq<BlendShapeInfo>): seq<BlendShapeInfo> {
    ConcatMap(bs, PositiveOne)
  }

  function ShapeRowLine(ctx: HtmlContext, b: BlendShapeInfo): string {
    "                        <tr><td>" + DisplayName(b) + "</td><td class=\"blend-shape-value\">" + ctx.fmt(b.weight) + "</td></tr>"
  }

  function ShapeRowsOf(ctx: HtmlContext): BlendShapeInfo -> seq<string> {
    b => [ShapeRowLine(ctx, b)]
  }

  const TableOpen: seq<string> := [
    "                <details>",
    "                    <summary>Blend Shapes</summary>",
    "                    <table>",
    "                        <tr><th>Name</th><th>Weight</th></tr>"]

  const TableClose: seq<string> := ["                    </table>", "                </details>"]

  /** The blend-shape table: only for a non-empty list, with a row per positive weight. */
  function TableLines(ctx: HtmlContext, bs: seq<BlendShapeInfo>): seq<string> {
    if |bs| > 0 then TableOpen + ConcatMap(Positive(bs), ShapeRowsOf(ctx)) + TableClose else []
  }

  function CardLines(ctx: HtmlContext, e: ExpressionInfo): seq<string> {
    ["            <div class=\"expression-card\">"]
    + ImageLines(ctx, e)
    + ["                <div class=\"expression-name\">" + e.name + "</div>",
       "                <div class=\"expression-type\">" + TypeTag(e.exprType) + "</div>"]
    + TableLines(ctx, e.blendShapes)
    + ["            </div>"]
  }

  function CardsOf(ctx: HtmlContext): ExpressionInfo -> seq<string> {
    e => CardLines(ctx, e)
  }

  function SectionLines(ctx: HtmlContext, d: VRMExpressionData): seq<string> {
    ["    <div class=\"character\">",
     "        <h2>" + d.characterName + "</h2>",
     "        <p>File: " + d.fileName + "</p>",
     "        <div class=\"expression-grid\">"]
    + ConcatMap(d.expressions, CardsOf(ctx))
    + ["        </div>", "    </div>"]
  }

  function SectionsOf(ctx: HtmlContext): VRMExpressionData -> seq<string> {
    d => SectionLines(ctx, d)
  }

  /** The viewer: the fixed head, a section per character in order, the tail. */
  function HtmlLines(ctx: HtmlContext, list: seq<VRMExpressionData>): seq<string> {
    HtmlHead + ConcatMap(list, SectionsOf(ctx)) + HtmlTail
  }

  /** The `Where` loop over one expression's blend shapes. */
  method AppendShapeRows(ctx: HtmlContext, bs: seq<BlendShapeInfo>) returns (lines: seq<string>)
    ensures lines == ConcatMap(Positive(bs), ShapeRowsOf(ctx))
  {
    lines := [];
    for j := 0 to |bs|
      invariant lines == ConcatMap(Positive(bs[..j]), ShapeRowsOf(ctx))
    {
      ConcatMapSnoc(bs, PositiveOne, j);
      ConcatMapAppend(Positive(bs[..j]), PositiveOne(bs[j]), ShapeRowsOf(ctx));
      if bs[j].weight > 0.0 {
        ConcatMapSnoc([bs[j]], ShapeRowsOf(ctx), 0);
        lines := lines + [ShapeRowLine(ctx, bs[j])];
      }
    }
    assert bs[..|bs|] == bs;
  }

  /** One card: the image or its placeholder, the name and type, and the table when there are blend shapes. */
  method AppendCard(ctx: HtmlContext, e: ExpressionInfo) returns (lines: seq<string>)
    ensures lines == CardLines(ctx, e)
  {
    var image: seq<string>;
    if e.previewImagePath.Some? && e.previewImagePath.value != "" && ctx.fileExists(e.previewImagePath.value) {
      var relative := ctx.relativePath(ctx.outputDir, e.previewImagePath.value);
      relative := ReplaceChar(relative, '\\', '/');
      image := ["                <img src=\"" + relative + "\" alt=\"" + e.name + "\">"];
    } else {
      image := [NoPreviewLine];
    }
    var table: seq<string> := [];
    if |e.blendShapes| > 0 {
      var rows := AppendShapeRows(ctx, e.blendShapes);
      table := TableOpen + rows + TableClose;
    }
    lines := ["            <div class=\"expression-card\">"]
      + image
      + ["                <div class=\"expression-name\">" + e.name + "</div>",
         "                <div class=\"expression-type\">" + TypeTag(e.exprType) + "</div>"]
      + table
      + ["            </div>"];
  }

  /** One character's section: the heading lines, a card per expression in order, the closing lines. */
  method AppendSection(ctx: HtmlContext, d: VRMExpressionData) returns (lines: seq<string>)
    ensures lines == SectionLines(ctx, d)
  {
    var cards: seq<string> := [];
    for i := 0 to |d.expressions|
      invariant cards == ConcatMap(d.expressions[..i], CardsOf(ctx))
    {
      var card := AppendCard(ctx, d.expressions[i]);
      ConcatMapSnoc(d.expressions, CardsOf(ctx), i);
      cards := cards + card;
    }
    assert d.expressions[..|d.expressions|] == d.expressions;
    lines := ["    <div class=\"character\">",
              "        <h2>" + d.characterName + "</h2>",
              "        <p>File: " + d.fileName + "</p>",
              "        <div class=\"expression-grid\">"]
      + cards
      + ["        </div>", "    </div>"];
  }

  /** `CreateHTMLViewer`: `VRM_Expression_Viewer.html` in the output folder. */
  method CreateHTMLViewer(list: seq<VRMExpressionData>, ctx: HtmlContext) returns (f: TextFile)
    ensures f == TextFile(Combine(ctx.outputDir, "VRM_Expression_Viewer.html"), HtmlLines(ctx, list))
  {
    var sections: seq<string> := [];
    for i := 0 to |list|
      invariant sections == ConcatMap(list[..i], SectionsOf(ctx))
    {
      var section := AppendSection(ctx, list[i]);
      ConcatMapSnoc(list, SectionsOf(ctx), i);
      sections := sections + section;
    }
    assert list[..|list|] == list;
    f := TextFile(Combine(ctx.outputDir, "VRM_Expression_Viewer.html"), HtmlHead + sections + HtmlTail);
  }

  /** The rows of the table are exactly the blend shapes with a positive weight. */
  lemma PositiveMembership(bs: seq<BlendShapeInfo>, b: BlendShapeInfo)
    ensures b in Positive(bs) <==> b in bs && b.weight > 0.0
  {
    ConcatMapMembership(bs, PositiveOne, b);
    if b in bs && b.weight > 0.0 {
      var j :| 0 <= j < |bs| && bs[j] == b;
      assert b in PositiveOne(bs[j]);
    }
  }

  /** The table has its six frame lines and one row per positive weight, or is absent for an empty list. */
  lemma TableSize(ctx: HtmlContext, bs: seq<BlendShapeInfo>)
    ensures |TableLines(ctx, bs)| == if bs == [] then 0 else 6 + |Positive(bs)|
  {
    ConcatMapCount(Positive(bs), ShapeRowsOf(ctx), 1);
  }

  /**
   * The card's second line is the `<img>` line exactly when the preview path
   * is non-empty and names an existing file, and the "No Preview" placeholder
   * otherwise; the table, when present, follows the name and type lines.
   */
  lemma CardImageIff(ctx: HtmlContext, e: ExpressionInfo)
    ensures |CardLines(ctx, e)| == 5 + |TableLines(ctx, e.blendShapes)|
    ensures ShowsImage(ctx, e) ==> CardLines(ctx, e)[1] == ImageLine(ctx, e)
    ensures CardLines(ctx, e)[1] == NoPreviewLine <==> !ShowsImage(ctx, e)
    ensures CardLines(ctx, e)[4..4 + |TableLines(ctx, e.blendShapes)|] == TableLines(ctx, e.blendShapes)
  {
    if ShowsImage(ctx, e) {
      var prefix := "                <img src=\"";
      assert ImageLine(ctx, e)[17] == prefix[17] == 'i';
      assert NoPreviewLine[17] == 'd';
    }
  }

  // ---------------------------------------------------------------------------
  // The export

  /** The three kinds of file an export writes. */
  datatype ExportOutput = ExportOutput(exportDir: string, summary: TextFile, details: seq<TextFile>, viewer: TextFile)

  ghost function DetailFilesOf(dir: string, fmt: real -> string): VRMExpressionData -> seq<TextFile> {
    d => [DetailFile(d, dir, fmt)]
  }

  /**
   * `ExportToCSV`: nothing for a missing or empty list; otherwise, in the
   * `ExcelExport` sub-folder, the summary, a detail file per character and the
   * viewer.
   */
  ghost function ExportOf(list: Option<seq<VRMExpressionData>>, outputPath: string, fmt1: real -> string,
                          fmt2: real -> string, fileExists: string -> bool,
                          relativePath: (string, string) -> string): Option<ExportOutput>
  {
    if list.None? || |list.value| == 0 then None
    else
      var dir := Combine(outputPath, "ExcelExport");
      Some(ExportOutput(dir,
        TextFile(Combine(dir, "VRM_Expression_Summary.csv"), SummaryLines(list.value)),
        ConcatMap(list.value, DetailFilesOf(dir, fmt2)),
        TextFile(Combine(dir, "VRM_Expression_Viewer.html"),
                 HtmlLines(HtmlContext(dir, fileExists, relativePath, fmt1), list.value))))
  }

  method ExportToCSV(list: Option<seq<VRMExpressionData>>, outputPath: string, fmt1: real -> string,
                     fmt2: real -> string, fileExists: string -> bool, relativePath: (string, string) -> string)
    returns (r: Option<ExportOutput>)
    ensures r == ExportOf(list, outputPath, fmt1, fmt2, fileExists, relativePath)
  {
    if list.None? || |list.value| == 0 {
      return None;
    }
    var dataList := list.value;
    var exportDir := Combine(outputPath, "ExcelExport");
    var summary := CreateSummaryFile(dataList, exportDir);
    var details: seq<TextFile> := [];
    for i := 0 to |dataList|
      invariant details == ConcatMap(dataList[..i], DetailFilesOf(exportDir, fmt2))
    {
      var detail, columns := CreateCharacterDetailFile(dataList[i], exportDir, fmt2);
      ConcatMapSnoc(dataList, DetailFilesOf(exportDir, fmt2), i);
      details := details + [detail];
    }
    assert dataList[..|dataList|] == dataList;
    var viewer := CreateHTMLViewer(dataList, HtmlContext(exportDir, fileExists, relativePath, fmt1));
    r := Some(ExportOutput(exportDir, summary, details, viewer));
  }

  /** A non-empty list gives one detail file per character, in order, next to the summary and the viewer. */
  lemma ExportFiles(list: seq<VRMExpressionData>, outputPath: string, fmt1: real -> string, fmt2: real -> string,
                    fileExists: string -> bool, relativePath: (string, string) -> string, i: nat)
    requires i < |list|
    ensures var r := ExportOf(Some(list), outputPath, fmt1, fmt2, fileExists, relativePath);
      r.Some? && |r.value.details| == |list|
      && r.value.details[i] == DetailFile(list[i], Combine(outputPath, "ExcelExport"), fmt2)
  {
    ConcatMapUnitAt(list, DetailFilesOf(Combine(outputPath, "ExcelExport"), fmt2), i);
  }
}
