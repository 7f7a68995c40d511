/**
 * The expression list the exporter writes as CSV: a header, then one quoted row
 * per blend-shape setting of every extracted expression (a placeholder row for an
 * expression without settings), with the counters reported at the end and the
 * two ways the run stops early.
 */
module ExpressionList {
  import opened Wrappers
  import opened Strings
  import opened Sequences
  import opened VrmSource
  import opened ExpressionExtraction
  import opened AnimationClips

  /** The shape-name cell of the row of an expression without settings. */
  const Placeholder := "（ブレンドシェイプなし）"

  /** The switches and folders of a run. */
  datatype ListOptions = ListOptions(
    capturePreviewImages: bool,
    imageOutputPath: string,
    generateAnimationClips: bool,
    animationOutputPath: string,
    clips: ClipOptions)

  /** Why a run stops before writing the file. */
  datatype ListError = NoValidObjects | NoExpressions

  /**
   * What a run produces: the lines of the file, the counters it reports and the
   * animation clips it creates (none unless asked for).
   */
  datatype ListReport = ListReport(
    lines: seq<string>,
    successCount: nat,
    objectCount: nat,
    totalExpressions: nat,
    totalBlendShapes: nat,
    clips: seq<ClipAsset>)

  // ---------------------------------------------------------------------------
  // Rows

  /** The header's column titles; the image-path column only when capturing. */
  function HeaderFields(capture: bool): (r: seq<string>)
    ensures |r| == if capture then 6 else 5
  {
    ["オブジェクト名", "表情名", "ブレンドシェイプパス", "ブレンドシェイプ名", "値(%)"]
    + (if capture then ["画像パス"] else [])
  }

  /** The header line: the titles separated by commas, unquoted. */
  function Header(capture: bool): string {
    Join(HeaderFields(capture), ",")
  }

  /** `{imageOutputPath}/{characterName}/{ExpressionName}.png` when capturing, else empty. */
  function ImagePath(o: ListOptions, e: ExpressionData): string {
    if o.capturePreviewImages then o.imageOutputPath + "/" + e.characterName + "/" + e.expressionName + ".png"
    else ""
  }

  /** The cells of one row. */
  function RowOf(o: ListOptions, e: ExpressionData, path: string, name: string, value: string): (r: seq<string>)
    ensures |r| == if o.capturePreviewImages then 6 else 5
    ensures r[0] == e.objectName && r[1] == e.expressionName && r[2] == path && r[3] == name && r[4] == value
    ensures o.capturePreviewImages ==> r[5] == ImagePath(o, e)
  {
    [e.objectName, e.expressionName, path, name, value]
    + (if o.capturePreviewImages then [ImagePath(o, e)] else [])
  }

  /** The row of one setting; `fmt` is the one-decimal number format. */
  function SettingRow(o: ListOptions, fmt: real -> string, e: ExpressionData, b: BlendShapeSetting): seq<string> {
    RowOf(o, e, b.path, b.name, fmt(b.value))
  }

  /** The settings of an expression, each as a one-row block. */
  function SettingRowsOf(o: ListOptions, fmt: real -> string, e: ExpressionData): BlendShapeSetting -> seq<seq<string>> {
    b => [SettingRow(o, fmt, e, b)]
  }

  /** The rows of one expression: one per setting, or the placeholder row. */
  function ExpressionRows(o: ListOptions, fmt: real -> string, e: ExpressionData): seq<seq<string>> {
    if e.settings == [] then [RowOf(o, e, "", Placeholder, "0")]
    else ConcatMap(e.settings, SettingRowsOf(o, fmt, e))
  }

  function QuotedCell(field: string): seq<string> {
    [Quoted(field)]
  }

  /** A row as a line: every cell quoted, separated by commas. */
  function QuotedLine(fields: seq<string>): string {
    Join(ConcatMap(fields, QuotedCell), ",")
  }

  function LineOf(row: seq<string>): seq<string> {
    [QuotedLine(row)]
  }

  /** The lines of one expression. */
  function ExpressionLines(o: ListOptions, fmt: real -> string, e: ExpressionData): seq<string> {
    ConcatMap(ExpressionRows(o, fmt, e), LineOf)
  }

  function LinesOf(o: ListOptions, fmt: real -> string): ExpressionData -> seq<string> {
    e => ExpressionLines(o, fmt, e)
  }

  /** The lines of several expressions, one after the other. */
  function AllLines(o: ListOptions, fmt: real -> string, exprs: seq<ExpressionData>): seq<string> {
    ConcatMap(exprs, LinesOf(o, fmt))
  }

  // ---------------------------------------------------------------------------
  // A run

  function Present(x: Option<Character>): seq<Character> {
    if x.Some? then [x.value] else []
  }

  /** The selected objects that are not null, in order. */
  function NonNull(objects: seq<Option<Character>>): seq<Character> {
    ConcatMap(objects, Present)
  }

  /** The expressions extracted from a character, none when extraction gives null. */
  function ExtractedList(c: Character): seq<ExpressionData> {
    if Extracted(c).Some? then Extracted(c).value else []
  }

  /** Every expression of every object, in order. */
  function AllExpressions(valid: seq<Character>): seq<ExpressionData> {
    ConcatMap(valid, ExtractedList)
  }

  function SuccessOf(c: Character): seq<Character> {
    if ExtractedList(c) != [] then [c] else []
  }

  /** The objects counted as a success: those with at least one expression. */
  function Successes(valid: seq<Character>): seq<Character> {
    ConcatMap(valid, SuccessOf)
  }

  function SettingsList(e: ExpressionData): seq<BlendShapeSetting> {
    e.settings
  }

  /** Every setting of every expression, in order. */
  function AllSettings(exprs: seq<ExpressionData>): seq<BlendShapeSetting> {
    ConcatMap(exprs, SettingsList)
  }

  /**
   * `ExportExpressionList`: no valid object or no expression stops the run;
   * otherwise the header and the rows of every expression, the counters, and
   * the clips when they are asked for.
   */
  ghost function ExpressionListOf(o: ListOptions, fmt: real -> string, objects: seq<Option<Character>>)
    : Result<ListReport, ListError>
    requires forall i :: 0 <= i < |objects| && objects[i].Some? ==> RenderersPlaced(objects[i].value)
  {
    var valid := NonNull(objects);
    var exprs := AllExpressions(valid);
    if valid == [] then Err(NoValidObjects)
    else if exprs == [] then Err(NoExpressions)
    else
      NonNullPlaced(objects);
      Ok(ListReport(
        [Header(o.capturePreviewImages)] + AllLines(o, fmt, exprs),
        |Successes(valid)|, |valid|, |exprs|, |AllSettings(exprs)|,
        if o.generateAnimationClips then AllClips(o.animationOutputPath, valid, o.clips) else []))
  }

  /** The objects kept are exactly the non-null ones. */
  lemma NonNullMembership(objects: seq<Option<Character>>, c: Character)
    ensures c in NonNull(objects) <==> Some(c) in objects
  {
    ConcatMapMembership(objects, Present, c);
    if Some(c) in objects {
      var i :| 0 <= i < |objects| && objects[i] == Some(c);
      assert c in Present(objects[i]);
    }
  }

  lemma NonNullPlaced(objects: seq<Option<Character>>)
    requires forall i :: 0 <= i < |objects| && objects[i].Some? ==> RenderersPlaced(objects[i].value)
    ensures forall i :: 0 <= i < |NonNull(objects)| ==> RenderersPlaced(NonNull(objects)[i])
  {
    forall i | 0 <= i < |NonNull(objects)| ensures RenderersPlaced(NonNull(objects)[i]) {
      NonNullMembership(objects, NonNull(objects)[i]);
    }
  }

  // ---------------------------------------------------------------------------
  // The loops

  /** The rows of one expression, appended setting by setting. */
  method AppendExpressionLines(o: ListOptions, fmt: real -> string, e: ExpressionData) returns (lines: seq<string>)
    ensures lines == ExpressionLines(o, fmt, e)
  {
    ghost var rows := ExpressionRows(o, fmt, e);
    if |e.settings| == 0 {
      lines := [QuotedLine(RowOf(o, e, "", Placeholder, "0"))];
      assert rows[..1] == rows;
      ConcatMapSnoc(rows, LineOf, 0);
      return;
    }
    ghost var f := SettingRowsOf(o, fmt, e);
    lines := [];
    for i := 0 to |e.settings|
      invariant lines == ConcatMap(ConcatMap(e.settings[..i], f), LineOf)
    {
      var b := e.settings[i];
      var row := RowOf(o, e, b.path, b.name, fmt(b.value));
      ConcatMapSnoc(e.settings, f, i);
      ConcatMapAppend(ConcatMap(e.settings[..i], f), [row], LineOf);
      ConcatMapSnoc([row], LineOf, 0);
      lines := lines + [QuotedLine(row)];
    }
    assert e.settings[..|e.settings|] == e.settings;
  }

  /** The expression loop of one object. */
  method AppendCharacterLines(o: ListOptions, fmt: real -> string, exprs: seq<ExpressionData>)
    returns (lines: seq<string>, blendShapes: nat)
    ensures lines == AllLines(o, fmt, exprs)
    ensures blendShapes == |AllSettings(exprs)|
  {
    lines := [];
    blendShapes := 0;
    for i := 0 to |exprs|
      invariant lines == AllLines(o, fmt, exprs[..i])
      invariant blendShapes == |AllSettings(exprs[..i])|
    {
      var more := AppendExpressionLines(o, fmt, exprs[i]);
      ConcatMapSnoc(exprs, LinesOf(o, fmt), i);
      ConcatMapSnoc(exprs, SettingsList, i);
      lines := lines + more;
      blendShapes := blendShapes + |exprs[i].settings|;
    }
    assert exprs[..|exprs|] == exprs;
  }

  /** The filter loop over the selection. */
  method FilterNonNull(objects: seq<Option<Character>>) returns (valid: seq<Character>)
    ensures valid == NonNull(objects)
  {
    valid := [];
    for i := 0 to |objects|
      invariant valid == NonNull(objects[..i])
    {
      ConcatMapSnoc(objects, Present, i);
      if objects[i].Some? {
        valid := valid + [objects[i].value];
      }
    }
    assert objects[..|objects|] == objects;
  }

  /** One object's step of the run: its expressions follow those of the objects before it. */
  lemma RunStep(o: ListOptions, fmt: real -> string, valid: seq<Character>, i: nat)
    requires i < |valid|
    ensures AllExpressions(valid[..i + 1]) == AllExpressions(valid[..i]) + ExtractedList(valid[i])
    ensures AllLines(o, fmt, AllExpressions(valid[..i + 1]))
      == AllLines(o, fmt, AllExpressions(valid[..i])) + AllLines(o, fmt, ExtractedList(valid[i]))
    ensures AllSettings(AllExpressions(valid[..i + 1]))
      == AllSettings(AllExpressions(valid[..i])) + AllSettings(ExtractedList(valid[i]))
    ensures Successes(valid[..i + 1]) == Successes(valid[..i]) + SuccessOf(valid[i])
  {
    ConcatMapSnoc(valid, ExtractedList, i);
    ConcatMapSnoc(valid, SuccessOf, i);
    ConcatMapAppend(AllExpressions(valid[..i]), ExtractedList(valid[i]), LinesOf(o, fmt));
    ConcatMapAppend(AllExpressions(valid[..i]), ExtractedList(valid[i]), SettingsList);
  }

  /** One object of the loop: its lines and what it adds to each counter. */
  method CollectObject(o: ListOptions, fmt: real -> string, c: Character)
    returns (lines: seq<string>, expressionCount: nat, blendShapes: nat, success: nat)
    ensures lines == AllLines(o, fmt, ExtractedList(c))
    ensures expressionCount == |ExtractedList(c)|
    ensures blendShapes == |AllSettings(ExtractedList(c))|
    ensures success == |SuccessOf(c)|
  {
    var expressions := ExtractExpressionsFromVRM(c);
    if expressions.Some? && |expressions.value| > 0 {
      expressionCount := |expressions.value|;
      success := 1;
      lines, blendShapes := AppendCharacterLines(o, fmt, expressions.value);
    } else {
      lines, expressionCount, blendShapes, success := [], 0, 0, 0;
    }
  }

  /** The object loop: the lines and counters of every object. */
  method CollectRows(o: ListOptions, fmt: real -> string, valid: seq<Character>)
    returns (lines: seq<string>, totalExpressions: nat, totalBlendShapes: nat, successCount: nat)
    ensures lines == AllLines(o, fmt, AllExpressions(valid))
    ensures totalExpressions == |AllExpressions(valid)|
    ensures totalBlendShapes == |AllSettings(AllExpressions(valid))|
    ensures successCount == |Successes(valid)|
  {
    lines := [];
    totalExpressions, totalBlendShapes, successCount := 0, 0, 0;
    for i := 0 to |valid|
      invariant lines == AllLines(o, fmt, AllExpressions(valid[..i]))
      invariant totalExpressions == |AllExpressions(valid[..i])|
      invariant totalBlendShapes == |AllSettings(AllExpressions(valid[..i]))|
      invariant successCount == |Successes(valid[..i])|
    {
      var more, expressionCount, count, success := CollectObject(o, fmt, valid[i]);
      RunStep(o, fmt, valid, i);
      lines := lines + more;
      totalExpressions := totalExpressions + expressionCount;
      totalBlendShapes := totalBlendShapes + count;
      successCount := successCount + success;
    }
    assert valid[..|valid|] == valid;
  }

  /** `ExportExpressionList`, from the selection to what is written and reported. */
  method ExportExpressionList(o: ListOptions, fmt: real -> string, objects: seq<Option<Character>>)
    returns (r: Result<ListReport, ListError>)
    requires forall i :: 0 <= i < |objects| && objects[i].Some? ==> RenderersPlaced(objects[i].value)
    ensures r == ExpressionListOf(o, fmt, objects)
  {
    var valid := FilterNonNull(objects);
    if |valid| == 0 {
      return Err(NoValidObjects);
    }
    NonNullPlaced(objects);
    var rows, totalExpressions, totalBlendShapes, successCount := CollectRows(o, fmt, valid);
    if totalExpressions == 0 {
      return Err(NoExpressions);
    }
    var clips: seq<ClipAsset> := [];
    if o.generateAnimationClips {
      var total;
      clips, total := GenerateAnimationClips(o.animationOutputPath, valid, o.clips);
    }
    r := Ok(ListReport([Header(o.capturePreviewImages)] + rows, successCount, |valid|,
                       totalExpressions, totalBlendShapes, clips));
  }

  // ---------------------------------------------------------------------------
  // Properties of the list

  /** Every row has five cells, six when capturing. */
  lemma RowWidth(o: ListOptions, fmt: real -> string, e: ExpressionData, row: seq<string>)
    requires row in ExpressionRows(o, fmt, e)
    ensures |row| == if o.capturePreviewImages then 6 else 5
  {
    if e.settings != [] {
      ConcatMapMembership(e.settings, SettingRowsOf(o, fmt, e), row);
    }
  }

  /**
   * An expression gets one row per setting, in setting order, with the
   * setting's path, name and formatted value; an expression without settings
   * gets only the placeholder row with value "0".
   */
  lemma ExpressionRowsAt(o: ListOptions, fmt: real -> string, e: ExpressionData, i: nat)
    ensures |ExpressionRows(o, fmt, e)| == if e.settings == [] then 1 else |e.settings|
    ensures e.settings == [] ==> ExpressionRows(o, fmt, e)[0] == RowOf(o, e, "", Placeholder, "0")
    ensures i < |e.settings| ==>
      ExpressionRows(o, fmt, e)[i] == RowOf(o, e, e.settings[i].path, e.settings[i].name, fmt(e.settings[i].value))
  {
    if e.settings != [] {
      ConcatMapUnitAt(e.settings, SettingRowsOf(o, fmt, e), if i < |e.settings| then i else 0);
    }
  }

  /** The lines of an expression are its rows, quoted, in order. */
  lemma ExpressionLinesAt(o: ListOptions, fmt: real -> string, e: ExpressionData, i: nat)
    requires i < |ExpressionRows(o, fmt, e)|
    ensures |ExpressionLines(o, fmt, e)| == |ExpressionRows(o, fmt, e)|
    ensures ExpressionLines(o, fmt, e)[i] == QuotedLine(ExpressionRows(o, fmt, e)[i])
  {
    ConcatMapUnitAt(ExpressionRows(o, fmt, e), LineOf, i);
  }

  /** No expression means no successful object, and conversely. */
  lemma NoExpressionsIffNoSuccess(valid: seq<Character>)
    ensures AllExpressions(valid) == [] <==> Successes(valid) == []
  {
    ConcatMapEmpty(valid, ExtractedList);
    ConcatMapEmpty(valid, SuccessOf);
  }

  /**
   * The run stops for want of expressions exactly when some object is selected
   * and every selected object yields no expression.
   */
  lemma StopsWithoutExpressions(o: ListOptions, fmt: real -> string, objects: seq<Option<Character>>)
    requires forall i :: 0 <= i < |objects| && objects[i].Some? ==> RenderersPlaced(objects[i].value)
    ensures ExpressionListOf(o, fmt, objects) == Err(NoValidObjects) <==> forall i :: 0 <= i < |objects| ==> objects[i].None?
    ensures ExpressionListOf(o, fmt, objects) == Err(NoExpressions) <==>
      (exists i :: 0 <= i < |objects| && objects[i].Some?)
      && forall i :: 0 <= i < |objects| && objects[i].Some? ==> ExtractedList(objects[i].value) == []
  {
    var valid := NonNull(objects);
    ConcatMapEmpty(objects, Present);
    ConcatMapEmpty(valid, ExtractedList);
    forall i | 0 <= i < |objects| && objects[i].Some? ensures objects[i].value in valid {
      NonNullMembership(objects, objects[i].value);
    }
    forall j | 0 <= j < |valid| ensures Some(valid[j]) in objects {
      NonNullMembership(objects, valid[j]);
    }
  }

  /** The line of one cell, and of two. */
  lemma QuotedLineSmall(a: string, b: string)
    ensures QuotedLine([a]) == Quoted(a)
    ensures QuotedLine([a, b]) == Quoted(a) + "," + Quoted(b)
  {
    var two := [a, b];
    assert [a][..0] == [] && two[..1] == [a] && two[..2] == two;
    ConcatMapSnoc([a], QuotedCell, 0);
    ConcatMapSnoc(two, QuotedCell, 0);
    ConcatMapSnoc(two, QuotedCell, 1);
    var qs := [Quoted(a), Quoted(b)];
    assert ConcatMap(two, QuotedCell) == qs;
    assert qs[..1] == [Quoted(a)];
  }

  /**
   * Without a quote-escaping step, a cell holding `a","b` gives the same line as
   * the two cells `a` and `b`.
   */
  lemma QuotesAreNotEscaped(a: string, b: string)
    ensures QuotedLine([a + "\",\"" + b]) == QuotedLine([a, b])
  {
    QuotedLineSmall(a + "\",\"" + b, "");
    QuotedLineSmall(a, b);
    assert "\",\"" == "\"" + "," + "\"";
  }
}
