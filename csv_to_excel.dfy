/**
 * The converter script that turns the exported expression list into a
 * workbook: rows grouped by character into one sheet each, and within a sheet
 * grouped by expression, each expression occupying consecutive rows with its
 * name and image cells merged over them.
 */
module CsvToExcel {
  import opened Wrappers
  import opened Strings
  import opened Paths
  import opened Sequences

  /** A CSV record as `csv.DictReader` yields it: header title to field. */
  type Row = map<string, string>

  const ObjectKey := "オブジェクト名"
  const ExpressionKey := "表情名"
  const ImageKey := "画像パス"
  const PathKey := "ブレンドシェイプパス"
  const NameKey := "ブレンドシェイプ名"
  const ValueKey := "値(%)"

  /** `row.get(key, default)`. */
  function Get(row: Row, key: string, default: string): string {
    if key in row then row[key] else default
  }

  // ---------------------------------------------------------------------------
  // Grouping

  /** One `defaultdict(list)` entry: a key and the rows appended under it. */
  datatype Group = Group(key: string, rows: seq<Row>)

  function KeysOf(gs: seq<Group>): (r: seq<string>)
    ensures |r| == |gs| && forall i :: 0 <= i < |gs| ==> r[i] == gs[i].key
  {
    seq(|gs|, i requires 0 <= i < |gs| => gs[i].key)
  }

  /** Where the key's list is, if the dictionary has it. */
  function IndexOf(gs: seq<Group>, k: string): (r: Option<nat>)
    ensures r.Some? ==> r.value < |gs| && gs[r.value].key == k
    ensures r.None? ==> forall i :: 0 <= i < |gs| ==> gs[i].key != k
  {
    if gs == [] then None
    else if gs[|gs| - 1].key == k then Some(|gs| - 1)
    else IndexOf(gs[..|gs| - 1], k)
  }

  /** `grouped[k].append(row)`: onto the existing list, or a new entry at the end. */
  function AddRow(gs: seq<Group>, k: string, row: Row): seq<Group> {
    var i := IndexOf(gs, k);
    if i.Some? then gs[i.value := Group(k, gs[i.value].rows + [row])] else gs + [Group(k, [row])]
  }

  /** The dictionary after every row has been appended under its key. */
  function Grouped(rows: seq<Row>, key: string, default: string): seq<Group> {
    if rows == [] then []
    else
      var row := rows[|rows| - 1];
      AddRow(Grouped(rows[..|rows| - 1], key, default), Get(row, key, default), row)
  }

  /** The loop filling the `defaultdict`. */
  method GroupBy(rows: seq<Row>, key: string, default: string) returns (groups: seq<Group>)
    ensures groups == Grouped(rows, key, default)
  {
    groups := [];
    for j := 0 to |rows|
      invariant groups == Grouped(rows[..j], key, default)
    {
      assert rows[..j + 1][..j] == rows[..j];
      var row := rows[j];
      var k := Get(row, key, default);
      var idx := IndexOf(groups, k);
      if idx.Some? {
        groups := groups[idx.value := Group(k, groups[idx.value].rows + [row])];
      } else {
        groups := groups + [Group(k, [row])];
      }
    }
    assert rows[..|rows|] == rows;
  }

  /** The key of every row, in order. */
  function KeyColumn(rows: seq<Row>, key: string, default: string): (r: seq<string>)
    ensures |r| == |rows| && forall j :: 0 <= j < |rows| ==> r[j] == Get(rows[j], key, default)
  {
    seq(|rows|, j requires 0 <= j < |rows| => Get(rows[j], key, default))
  }

  /** The distinct values of a sequence in order of first appearance. */
  function Dedup(s: seq<string>): seq<string> {
    if s == [] then []
    else
      var prev := Dedup(s[..|s| - 1]);
      if s[|s| - 1] in prev then prev else prev + [s[|s| - 1]]
  }

  /** `Dedup` keeps every value once. */
  lemma {:induction false} DedupFacts(s: seq<string>)
    ensures forall x :: x in Dedup(s) <==> x in s
    ensures forall i, j :: 0 <= i < j < |Dedup(s)| ==> Dedup(s)[i] != Dedup(s)[j]
  {
    if s != [] {
      var n := |s| - 1;
      DedupFacts(s[..n]);
      assert s == s[..n] + [s[n]];
    }
  }

  /** The rows with key `k`, in their original order. */
  function Where(rows: seq<Row>, key: string, default: string, k: string): seq<Row> {
    if rows == [] then []
    else
      var row := rows[|rows| - 1];
      Where(rows[..|rows| - 1], key, default, k) + (if Get(row, key, default) == k then [row] else [])
  }

  lemma {:induction false} WhereMembership(rows: seq<Row>, key: string, default: string, k: string, x: Row)
    ensures x in Where(rows, key, default, k) <==> x in rows && Get(x, key, default) == k
  {
    if rows != [] {
      var n := |rows| - 1;
      WhereMembership(rows[..n], key, default, k, x);
      assert rows == rows[..n] + [rows[n]];
    }
  }

  /** The entries come in order of each key's first appearance. */
  lemma {:induction false} GroupedKeys(rows: seq<Row>, key: string, default: string)
    ensures KeysOf(Grouped(rows, key, default)) == Dedup(KeyColumn(rows, key, default))
  {
    if rows != [] {
      var n := |rows| - 1;
      GroupedKeys(rows[..n], key, default);
      var g := Grouped(rows[..n], key, default);
      var k := Get(rows[n], key, default);
      assert KeyColumn(rows, key, default)[..n] == KeyColumn(rows[..n], key, default);
      if IndexOf(g, k).Some? {
        var i := IndexOf(g, k).value;
        assert k == KeysOf(g)[i];
        assert KeysOf(AddRow(g, k, rows[n])) == KeysOf(g);
      } else {
        assert k !in KeysOf(g);
        assert KeysOf(AddRow(g, k, rows[n])) == KeysOf(g) + [k];
      }
    }
  }

  /** Every key occurs once, and exactly the keys of the rows occur. */
  lemma GroupedKeySet(rows: seq<Row>, key: string, default: string)
    ensures var gs := Grouped(rows, key, default);
      && (forall i, j :: 0 <= i < j < |gs| ==> gs[i].key != gs[j].key)
      && (forall k :: k in KeysOf(gs) <==> k in KeyColumn(rows, key, default))
  {
    var gs := Grouped(rows, key, default);
    GroupedKeys(rows, key, default);
    DedupFacts(KeyColumn(rows, key, default));
    forall i, j | 0 <= i < j < |gs| ensures gs[i].key != gs[j].key {
      assert KeysOf(gs)[i] == gs[i].key && KeysOf(gs)[j] == gs[j].key;
    }
  }

  /** No row has a key that is absent from the key column. */
  lemma {:induction false} WhereEmpty(rows: seq<Row>, key: string, default: string, k: string)
    requires k !in KeyColumn(rows, key, default)
    ensures Where(rows, key, default, k) == []
  {
    if rows != [] {
      var n := |rows| - 1;
      assert KeyColumn(rows, key, default)[..n] == KeyColumn(rows[..n], key, default);
      assert KeyColumn(rows, key, default)[n] == Get(rows[n], key, default);
      WhereEmpty(rows[..n], key, default, k);
    }
  }

  /** Each entry holds exactly the rows with its key, in their original relative order. */
  lemma {:induction false} GroupedRows(rows: seq<Row>, key: string, default: string)
    ensures var gs := Grouped(rows, key, default);
      forall i :: 0 <= i < |gs| ==> gs[i].rows == Where(rows, key, default, gs[i].key)
  {
    if rows != [] {
      var n := |rows| - 1;
      var prev := rows[..n];
      GroupedRows(prev, key, default);
      GroupedKeySet(prev, key, default);
      var g := Grouped(prev, key, default);
      var row := rows[n];
      var k := Get(row, key, default);
      assert rows[..n] == prev;
      var gs := Grouped(rows, key, default);
      assert gs == AddRow(g, k, row);
      if IndexOf(g, k).Some? {
        var i := IndexOf(g, k).value;
        forall m | 0 <= m < |gs| ensures gs[m].rows == Where(rows, key, default, gs[m].key) {
          if m != i {
            assert g[m].key != k;
          }
        }
      } else {
        assert k !in KeysOf(g);
        WhereEmpty(prev, key, default, k);
      }
    }
  }

  function GroupRows(g: Group): seq<Row> {
    g.rows
  }

  /** All entries' rows, one entry after another. */
  function Flatten(gs: seq<Group>): seq<Row> {
    ConcatMap(gs, GroupRows)
  }

  lemma {:induction false} FlattenUpdate(gs: seq<Group>, i: nat, row: Row)
    requires i < |gs|
    ensures multiset(Flatten(gs[i := Group(gs[i].key, gs[i].rows + [row])])) == multiset(Flatten(gs)) + multiset{row}
  {
    var n := |gs| - 1;
    var g2 := Group(gs[i].key, gs[i].rows + [row]);
    var gs' := gs[i := g2];
    assert Flatten(gs) == Flatten(gs[..n]) + gs[n].rows;
    assert Flatten(gs') == Flatten(gs'[..n]) + gs'[n].rows;
    if i == n {
      assert gs'[..n] == gs[..n];
    } else {
      assert gs'[..n] == gs[..n][i := g2];
      FlattenUpdate(gs[..n], i, row);
    }
  }

  /** Grouping only rearranges: the entries together hold every row exactly as often as the input. */
  lemma {:induction false} GroupedIsPermutation(rows: seq<Row>, key: string, default: string)
    ensures multiset(Flatten(Grouped(rows, key, default))) == multiset(rows)
  {
    if rows != [] {
      var n := |rows| - 1;
      var g := Grouped(rows[..n], key, default);
      var k := Get(rows[n], key, default);
      calc {
        multiset(Flatten(Grouped(rows, key, default)));
        multiset(Flatten(AddRow(g, k, rows[n])));
        { AddRowFlatten(g, k, rows[n]); }
        multiset(Flatten(g)) + multiset{rows[n]};
        { GroupedIsPermutation(rows[..n], key, default); }
        multiset(rows[..n]) + multiset{rows[n]};
        { assert rows == rows[..n] + [rows[n]]; }
        multiset(rows);
      }
    }
  }

  /** Appending a row under any key adds exactly that row to the entries. */
  lemma AddRowFlatten(g: seq<Group>, k: string, row: Row)
    ensures multiset(Flatten(AddRow(g, k, row))) == multiset(Flatten(g)) + multiset{row}
  {
    if IndexOf(g, k).Some? {
      var i := IndexOf(g, k).value;
      assert AddRow(g, k, row) == g[i := Group(g[i].key, g[i].rows + [row])];
      FlattenUpdate(g, i, row);
    } else {
      var gs := g + [Group(k, [row])];
      ConcatMapSnoc(gs, GroupRows, |g|);
      assert gs[..|g|] == g && gs[..|g| + 1] == gs;
    }
  }

  /** No entry is empty. */
  lemma GroupsNonEmpty(rows: seq<Row>, key: string, default: string)
    ensures var gs := Grouped(rows, key, default);
      forall i :: 0 <= i < |gs| ==> gs[i].rows != []
  {
    var gs := Grouped(rows, key, default);
    GroupedRows(rows, key, default);
    GroupedKeySet(rows, key, default);
    forall i | 0 <= i < |gs| ensures gs[i].rows != [] {
      assert KeysOf(gs)[i] in KeyColumn(rows, key, default);
      var j :| 0 <= j < |rows| && KeyColumn(rows, key, default)[j] == gs[i].key;
      WhereMembership(rows, key, default, gs[i].key, rows[j]);
    }
  }

  // ---------------------------------------------------------------------------
  // Names

  /** The sheet title: at most 31 characters, then each slash and backslash made '_'. */
  function SheetName(charName: string): (r: string)
    ensures |r| <= 31
    ensures forall i :: 0 <= i < |r| ==> r[i] != '/' && r[i] != '\\'
    ensures |charName| <= 31 && (forall i :: 0 <= i < |charName| ==> charName[i] != '/' && charName[i] != '\\') ==> r == charName
  {
    var s := if |charName| > 31 then charName[..31] else charName;
    var r := ReplaceChar(ReplaceChar(s, '/', '_'), '\\', '_');
    r
  }

  /** The characters an openpyxl sheet title may not contain. */
  const InvalidTitleChars: set<char> := {'*', '?', ':', '[', ']', '/', '\\'}

  /** A title that openpyxl's `create_sheet` accepts instead of raising `ValueError`. */
  predicate TitleAccepted(t: string) {
    forall i :: 0 <= i < |t| ==> t[i] !in InvalidTitleChars
  }

  /** The title the sheet gets: an empty cleaned name falls back to openpyxl's default "Sheet". */
  function SheetTitle(charName: string): (t: string)
    ensures t != ""
    ensures SheetName(charName) != "" ==> t == SheetName(charName)
  {
    if SheetName(charName) == "" then "Sheet" else SheetName(charName)
  }

  /** `output_path or csv_path.replace('.csv', '_with_images.xlsx')`. */
  function DefaultOutputPath(csvPath: string, outputPath: Option<string>): string {
    if outputPath.Some? then outputPath.value else ReplaceAll(csvPath, ".csv", "_with_images.xlsx")
  }

  /**
   * Every `.csv` in the path is replaced, not only the extension: a dot-free
   * part followed by `.csv` becomes that part followed by `_with_images.xlsx`,
   * and the rest is rewritten in the same way.
   */
  lemma DefaultOutputPathStep(stem: string, rest: string)
    requires '.' !in stem
    ensures ReplaceAll(stem + ".csv" + rest, ".csv", "_with_images.xlsx")
      == stem + "_with_images.xlsx" + ReplaceAll(rest, ".csv", "_with_images.xlsx")
  {
    var s := ".csv" + rest;
    assert stem + ".csv" + rest == stem + s;
    ReplaceAllSkipsPrefix(stem, s, ".csv", "_with_images.xlsx");
    assert s[..4] == ".csv" && s[4..] == rest;
  }

  /** A dot-free name has its `.csv` extension replaced by `_with_images.xlsx`. */
  lemma DefaultOutputPathSuffix(stem: string)
    requires '.' !in stem
    ensures DefaultOutputPath(stem + ".csv", None) == stem + "_with_images.xlsx"
  {
    DefaultOutputPathStep(stem, "");
    assert stem + ".csv" + "" == stem + ".csv";
  }

  // ---------------------------------------------------------------------------
  // Sheet layout

  /** A value written to a cell (1-based row and column). */
  datatype CellWrite = CellWrite(row: nat, column: nat, value: string)

  /** A merged range of one column over rows `first..last`. */
  datatype Merge = Merge(column: char, first: nat, last: nat)

  /** An image placed at cell `B<row>`. */
  datatype ImageAnchor = ImageAnchor(row: nat, path: string)

  datatype Sheet = Sheet(title: string, cells: seq<CellWrite>, merges: seq<Merge>, images: seq<ImageAnchor>)

  /**
   * What the layout needs from outside: the project root (the CSV file's
   * grandparent folder), `os.path.exists`, and whether the image loads.
   */
  datatype Context = Context(projectRoot: string, fileExists: string -> bool, loadsImage: string -> bool)

  const Titles: seq<string> := ["表情名", "画像", "ブレンドシェイプパス", "ブレンドシェイプ名", "値(%)"]

  function HeaderCells(): seq<CellWrite> {
    [CellWrite(1, 1, Titles[0]), CellWrite(1, 2, Titles[1]), CellWrite(1, 3, Titles[2]),
     CellWrite(1, 4, Titles[3]), CellWrite(1, 5, Titles[4])]
  }

  /** The rows an expression occupies: one per record, and one even without records. */
  function Span(g: Group): nat {
    if |g.rows| > 1 then |g.rows| else 1
  }

  function SpanSum(gs: seq<Group>): nat {
    if gs == [] then 0 else SpanSum(gs[..|gs| - 1]) + Span(gs[|gs| - 1])
  }

  /** The first sheet row of entry `i`: row 2, after everything before it. */
  function GroupStart(gs: seq<Group>, i: nat): nat
    requires i <= |gs|
  {
    2 + SpanSum(gs[..i])
  }

  /** The image path of the first record joined to the project root, when that record has one. */
  function ImagePathOf(g: Group, ctx: Context): Option<string> {
    if |g.rows| > 0 && ImageKey in g.rows[0] then Some(PosixJoin(ctx.projectRoot, g.rows[0][ImageKey])) else None
  }

  /** Column B of the first row: empty under a placed image, "画像なし" for a missing file. */
  function ImageCells(g: Group, start: nat, ctx: Context): seq<CellWrite> {
    var p := ImagePathOf(g, ctx);
    if p.None? then []
    else if !ctx.fileExists(p.value) then [CellWrite(start, 2, "画像なし")]
    else if ctx.loadsImage(p.value) then [CellWrite(start, 2, "")]
    else []
  }

  function ImagesOfGroup(g: Group, start: nat, ctx: Context): seq<ImageAnchor> {
    var p := ImagePathOf(g, ctx);
    if p.Some? && ctx.fileExists(p.value) && ctx.loadsImage(p.value) then [ImageAnchor(start, p.value)] else []
  }

  /** Columns C to E of one record. */
  function RowCells(r: nat, row: Row): seq<CellWrite> {
    [CellWrite(r, 3, Get(row, PathKey, "")), CellWrite(r, 4, Get(row, NameKey, "")), CellWrite(r, 5, Get(row, ValueKey, ""))]
  }

  /** The records of one expression on consecutive rows from `start`. */
  function DataCells(rows: seq<Row>, start: nat): seq<CellWrite> {
    if rows == [] then [] else DataCells(rows[..|rows| - 1], start) + RowCells(start + |rows| - 1, rows[|rows| - 1])
  }

  function GroupCells(g: Group, start: nat, ctx: Context): seq<CellWrite> {
    [CellWrite(start, 1, g.key)] + ImageCells(g, start, ctx) + DataCells(g.rows, start)
  }

  /** Columns A and B merged over the expression's rows, only when it has more than one. */
  function GroupMerges(g: Group, start: nat): seq<Merge> {
    if |g.rows| > 1 then [Merge('A', start, start + |g.rows| - 1), Merge('B', start, start + |g.rows| - 1)] else []
  }

  function Layout(gs: seq<Group>, ctx: Context): seq<CellWrite> {
    if gs == [] then [] else Layout(gs[..|gs| - 1], ctx) + GroupCells(gs[|gs| - 1], GroupStart(gs, |gs| - 1), ctx)
  }

  function MergesOf(gs: seq<Group>): seq<Merge> {
    if gs == [] then [] else MergesOf(gs[..|gs| - 1]) + GroupMerges(gs[|gs| - 1], GroupStart(gs, |gs| - 1))
  }

  function ImagesOf(gs: seq<Group>, ctx: Context): seq<ImageAnchor> {
    if gs == [] then [] else ImagesOf(gs[..|gs| - 1], ctx) + ImagesOfGroup(gs[|gs| - 1], GroupStart(gs, |gs| - 1), ctx)
  }

  /** One character's sheet: the header row, then its records grouped by expression name. */
  function SheetFor(c: Group, ctx: Context): Sheet {
    var gs := Grouped(c.rows, ExpressionKey, "");
    Sheet(SheetTitle(c.key), HeaderCells() + Layout(gs, ctx), MergesOf(gs), ImagesOf(gs, ctx))
  }

  function SheetsOf(ctx: Context): Group -> seq<Sheet> {
    c => [SheetFor(c, ctx)]
  }

  /** The characters that survive the cleaning and still make openpyxl refuse the title. */
  const RefusedChars: set<char> := {'*', '?', ':', '[', ']'}

  /** Some character of `s` is refused in a sheet title. */
  predicate HasRefused(s: string) {
    s != [] && (s[0] in RefusedChars || HasRefused(s[1..]))
  }

  lemma {:induction false} HasRefusedIff(s: string)
    ensures HasRefused(s) <==> exists i :: 0 <= i < |s| && s[i] in RefusedChars
  {
    if s != [] {
      HasRefusedIff(s[1..]);
      if HasRefused(s[1..]) {
        var i :| 0 <= i < |s[1..]| && s[1..][i] in RefusedChars;
        assert s[i + 1] in RefusedChars;
      }
      if exists i :: 0 <= i < |s| && s[i] in RefusedChars {
        var i :| 0 <= i < |s| && s[i] in RefusedChars;
        if i > 0 {
          assert s[1..][i - 1] in RefusedChars;
        }
      }
    }
  }

  /** One of the first 31 characters of the name is refused in a sheet title. */
  predicate Rejected(charName: string) {
    HasRefused(if |charName| > 31 then charName[..31] else charName)
  }

  /** `Rejected` is exactly openpyxl refusing the title built from the name. */
  lemma RejectedIff(charName: string)
    ensures Rejected(charName) <==> !TitleAccepted(SheetTitle(charName))
  {
    var cut := if |charName| > 31 then charName[..31] else charName;
    HasRefusedIff(cut);
    var t := SheetTitle(charName);
    if SheetName(charName) != "" {
      assert forall i :: 0 <= i < |t| ==> (t[i] in InvalidTitleChars <==> cut[i] in RefusedChars);
      if Rejected(charName) {
        var i :| 0 <= i < |cut| && cut[i] in RefusedChars;
        assert t[i] in InvalidTitleChars;
      }
    } else {
      assert |cut| == 0;
      assert t == "Sheet";
      assert TitleAccepted(t);
    }
  }

  /** Character `i`'s sheet title makes `create_sheet` raise. */
  predicate RejectedAt(cs: seq<Group>, i: int) {
    0 <= i < |cs| && Rejected(cs[i].key)
  }

  /** The first `n` characters all get accepted titles. */
  predicate AcceptedUpTo(cs: seq<Group>, n: int) {
    forall j :: 0 <= j < n ==> !RejectedAt(cs, j)
  }

  /**
   * The workbook: a sheet per character, in order of first appearance; none at
   * all when some title is rejected, since the error ends the script before
   * `wb.save`.
   */
  function Workbook(data: seq<Row>, ctx: Context): Option<seq<Sheet>> {
    var cs := Grouped(data, ObjectKey, "Unknown");
    if exists i :: 0 <= i < |cs| && RejectedAt(cs, i) then None else Some(ConcatMap(cs, SheetsOf(ctx)))
  }

  lemma GroupStartPrefix(gs: seq<Group>, n: nat, i: nat)
    requires i <= n <= |gs|
    ensures GroupStart(gs[..n], i) == GroupStart(gs, i)
  {
    assert gs[..n][..i] == gs[..i];
  }

  /** One more entry: its cells, merges and images follow the earlier ones, from its start row. */
  lemma PrefixStep(gs: seq<Group>, i: nat, ctx: Context)
    requires i < |gs|
    ensures GroupStart(gs, i + 1) == GroupStart(gs, i) + Span(gs[i])
    ensures Layout(gs[..i + 1], ctx) == Layout(gs[..i], ctx) + GroupCells(gs[i], GroupStart(gs, i), ctx)
    ensures MergesOf(gs[..i + 1]) == MergesOf(gs[..i]) + GroupMerges(gs[i], GroupStart(gs, i))
    ensures ImagesOf(gs[..i + 1], ctx) == ImagesOf(gs[..i], ctx) + ImagesOfGroup(gs[i], GroupStart(gs, i), ctx)
  {
    var p := gs[..i + 1];
    assert p[..i] == gs[..i];
    GroupStartPrefix(gs, i + 1, i);
  }

  lemma DataCellsSnoc(rows: seq<Row>, start: nat, i: nat)
    requires i < |rows|
    ensures DataCells(rows[..i + 1], start) == DataCells(rows[..i], start) + RowCells(start + i, rows[i])
  {
    assert rows[..i + 1][..i] == rows[..i];
  }

  /** The image cell of an expression's first row. */
  method PlaceImage(g: Group, current: nat, ctx: Context) returns (cells: seq<CellWrite>, images: seq<ImageAnchor>)
    ensures cells == ImageCells(g, current, ctx) && images == ImagesOfGroup(g, current, ctx)
  {
    cells, images := [], [];
    if |g.rows| > 0 && ImageKey in g.rows[0] {
      var imagePath := PosixJoin(ctx.projectRoot, g.rows[0][ImageKey]);
      if ctx.fileExists(imagePath) {
        if ctx.loadsImage(imagePath) {
          images := [ImageAnchor(current, imagePath)];
          cells := [CellWrite(current, 2, "")];
        }
      } else {
        cells := [CellWrite(current, 2, "画像なし")];
      }
    }
  }

  /** The records of one expression, the row counter moving down from the second record on. */
  method WriteRecords(rows: seq<Row>, start: nat) returns (cells: seq<CellWrite>, current: nat)
    ensures cells == DataCells(rows, start)
    ensures current == if rows == [] then start else start + |rows| - 1
  {
    current := start;
    cells := [];
    for i := 0 to |rows|
      invariant current == if i == 0 then start else start + i - 1
      invariant cells == DataCells(rows[..i], start)
    {
      if i > 0 {
        current := current + 1;
      }
      DataCellsSnoc(rows, start, i);
      var row := rows[i];
      cells := cells + [CellWrite(current, 3, Get(row, PathKey, "")), CellWrite(current, 4, Get(row, NameKey, "")),
                        CellWrite(current, 5, Get(row, ValueKey, ""))];
    }
    assert rows[..|rows|] == rows;
  }

  /** One expression: its name, its image cell, its records, then the merges when it spans several rows. */
  method WriteGroup(g: Group, start: nat, ctx: Context) returns (cells: seq<CellWrite>, merges: seq<Merge>,
                                                                 images: seq<ImageAnchor>, next: nat)
    ensures cells == GroupCells(g, start, ctx) && merges == GroupMerges(g, start)
    ensures images == ImagesOfGroup(g, start, ctx) && next == start + Span(g)
  {
    var current := start;
    var imageCells;
    imageCells, images := PlaceImage(g, current, ctx);
    var records;
    records, current := WriteRecords(g.rows, start);
    cells := [CellWrite(start, 1, g.key)] + imageCells + records;
    merges := [];
    if |g.rows| > 1 {
      merges := [Merge('A', start, current), Merge('B', start, current)];
    }
    current := current + 1;
    next := current;
  }

  /** `ws` for one character: the header, then every expression from row 2 on. */
  method WriteSheet(c: Group, ctx: Context) returns (sheet: Sheet)
    ensures sheet == SheetFor(c, ctx)
  {
    var title := SheetTitle(c.key);
    var cells := HeaderCells();
    var gs := GroupBy(c.rows, ExpressionKey, "");
    var layout: seq<CellWrite> := [];
    var merges: seq<Merge> := [];
    var images: seq<ImageAnchor> := [];
    var current := 2;
    for i := 0 to |gs|
      invariant current == GroupStart(gs, i)
      invariant layout == Layout(gs[..i], ctx) && merges == MergesOf(gs[..i]) && images == ImagesOf(gs[..i], ctx)
    {
      PrefixStep(gs, i, ctx);
      var groupCells, groupMerges, groupImages, next := WriteGroup(gs[i], current, ctx);
      layout := layout + groupCells;
      merges := merges + groupMerges;
      images := images + groupImages;
      current := next;
    }
    assert gs[..|gs|] == gs;
    sheet := Sheet(title, cells + layout, merges, images);
  }

  /**
   * `create_excel_file`: the output path and one sheet per character, or no
   * workbook when a sheet title is rejected.
   */
  method CreateExcelFile(csvPath: string, outputPath: Option<string>, data: seq<Row>, ctx: Context)
    returns (path: string, book: Option<seq<Sheet>>)
    ensures path == DefaultOutputPath(csvPath, outputPath)
    ensures book == Workbook(data, ctx)
  {
    path := if outputPath.Some? then outputPath.value else ReplaceAll(csvPath, ".csv", "_with_images.xlsx");
    var characters := GroupBy(data, ObjectKey, "Unknown");
    var sheets: seq<Sheet> := [];
    for i := 0 to |characters|
      invariant sheets == ConcatMap(characters[..i], SheetsOf(ctx))
      invariant AcceptedUpTo(characters, i)
    {
      if Rejected(characters[i].key) {
        WorkbookRejected(data, ctx, i);
        return path, None;
      }
      var sheet := WriteSheet(characters[i], ctx);
      ConcatMapSnoc(characters, SheetsOf(ctx), i);
      sheets := sheets + [sheet];
    }
    assert characters[..|characters|] == characters;
    WorkbookAccepted(data, ctx);
    book := Some(sheets);
  }

  lemma WorkbookRejected(data: seq<Row>, ctx: Context, i: nat)
    requires RejectedAt(Grouped(data, ObjectKey, "Unknown"), i)
    ensures Workbook(data, ctx) == None
  {
  }

  lemma WorkbookAccepted(data: seq<Row>, ctx: Context)
    requires AcceptedUpTo(Grouped(data, ObjectKey, "Unknown"), |Grouped(data, ObjectKey, "Unknown")|)
    ensures Workbook(data, ctx) == Some(ConcatMap(Grouped(data, ObjectKey, "Unknown"), SheetsOf(ctx)))
  {
  }

  /** No workbook is written exactly when some record's object name gives a rejected title. */
  lemma WorkbookFailsIff(data: seq<Row>, ctx: Context)
    ensures Workbook(data, ctx).None? <==>
      exists j :: 0 <= j < |data| && Rejected(Get(data[j], ObjectKey, "Unknown"))
  {
    var cs := Grouped(data, ObjectKey, "Unknown");
    if exists i :: 0 <= i < |cs| && RejectedAt(cs, i) {
      var i :| 0 <= i < |cs| && RejectedAt(cs, i);
      RejectedCharacterHasRecord(data, i);
    }
    if exists j :: 0 <= j < |data| && Rejected(Get(data[j], ObjectKey, "Unknown")) {
      var j :| 0 <= j < |data| && Rejected(Get(data[j], ObjectKey, "Unknown"));
      RejectedRecordHasCharacter(data, j);
    }
  }

  lemma RejectedCharacterHasRecord(data: seq<Row>, i: nat)
    requires RejectedAt(Grouped(data, ObjectKey, "Unknown"), i)
    ensures exists j :: 0 <= j < |data| && Rejected(Get(data[j], ObjectKey, "Unknown"))
  {
    var cs := Grouped(data, ObjectKey, "Unknown");
    var col := KeyColumn(data, ObjectKey, "Unknown");
    GroupedKeySet(data, ObjectKey, "Unknown");
    assert KeysOf(cs)[i] == cs[i].key;
    assert cs[i].key in KeysOf(cs);
    assert cs[i].key in col;
    var j :| 0 <= j < |col| && col[j] == cs[i].key;
    assert Rejected(Get(data[j], ObjectKey, "Unknown"));
  }

  lemma RejectedRecordHasCharacter(data: seq<Row>, j: nat)
    requires j < |data| && Rejected(Get(data[j], ObjectKey, "Unknown"))
    ensures exists i :: 0 <= i < |Grouped(data, ObjectKey, "Unknown")| && RejectedAt(Grouped(data, ObjectKey, "Unknown"), i)
  {
    var cs := Grouped(data, ObjectKey, "Unknown");
    var col := KeyColumn(data, ObjectKey, "Unknown");
    GroupedKeySet(data, ObjectKey, "Unknown");
    assert col[j] in col;
    var i :| 0 <= i < |KeysOf(cs)| && KeysOf(cs)[i] == col[j];
    assert RejectedAt(cs, i);
  }

  /** A character called "a:b" makes the whole conversion fail. */
  lemma ColonInNameFails(row: Row, ctx: Context)
    requires ObjectKey in row && row[ObjectKey] == "a:b"
    ensures Workbook([row], ctx).None?
  {
    assert HasRefused("a:b"[1..]) by { assert "a:b"[1..][0] == ':'; }
    WorkbookFailsIff([row], ctx);
    assert Get([row][0], ObjectKey, "Unknown") == "a:b";
  }

  /** A character without a name gets the default title "Sheet". */
  lemma EmptyNameGetsDefaultTitle()
    ensures SheetTitle("") == "Sheet" && TitleAccepted("Sheet")
  {
  }

  // ---------------------------------------------------------------------------
  // Layout properties

  lemma {:induction false} DataCellsBounds(rows: seq<Row>, start: nat, c: CellWrite)
    requires c in DataCells(rows, start)
    ensures start <= c.row < start + |rows| && 3 <= c.column <= 5
  {
    var n := |rows| - 1;
    if c in DataCells(rows[..n], start) {
      DataCellsBounds(rows[..n], start, c);
    }
  }

  lemma {:induction false} DataCellsHasRecord(rows: seq<Row>, start: nat, j: nat)
    requires j < |rows|
    ensures forall c :: c in RowCells(start + j, rows[j]) ==> c in DataCells(rows, start)
  {
    var n := |rows| - 1;
    if j < n {
      DataCellsHasRecord(rows[..n], start, j);
      assert rows[..n][j] == rows[j];
    }
  }

  /** Path, name and value of record `j` are in columns C, D and E of row `start + j`. */
  predicate RecordWritten(rows: seq<Row>, start: nat, j: nat)
    requires j < |rows|
  {
    && CellWrite(start + j, 3, Get(rows[j], PathKey, "")) in DataCells(rows, start)
    && CellWrite(start + j, 4, Get(rows[j], NameKey, "")) in DataCells(rows, start)
    && CellWrite(start + j, 5, Get(rows[j], ValueKey, "")) in DataCells(rows, start)
  }

  /**
   * Record `j` of an expression starting at `start` has its path, name and
   * value written in columns C to E of row `start + j`, and nothing of the
   * records is written outside rows `start..start + |rows| - 1` or columns C to E.
   */
  lemma RecordRows(rows: seq<Row>, start: nat, c: CellWrite)
    ensures c in DataCells(rows, start) ==> start <= c.row < start + |rows| && 3 <= c.column <= 5
    ensures forall j :: 0 <= j < |rows| ==> RecordWritten(rows, start, j)
  {
    if c in DataCells(rows, start) {
      DataCellsBounds(rows, start, c);
    }
    forall j | 0 <= j < |rows| ensures RecordWritten(rows, start, j) {
      DataCellsHasRecord(rows, start, j);
    }
  }

  /**
   * "画像なし" goes into column B of the expression's first row exactly when its
   * first record names an image and the joined path does not exist.
   */
  lemma MissingImageMarker(g: Group, start: nat, ctx: Context)
    ensures CellWrite(start, 2, "画像なし") in GroupCells(g, start, ctx)
      <==> ImagePathOf(g, ctx).Some? && !ctx.fileExists(ImagePathOf(g, ctx).value)
  {
    var c := CellWrite(start, 2, "画像なし");
    RecordRows(g.rows, start, c);
  }

  /** Each expression begins right after the previous one ends; the first at row 2. */
  lemma GroupsAreContiguous(gs: seq<Group>, i: nat)
    requires i < |gs|
    ensures GroupStart(gs, 0) == 2
    ensures GroupStart(gs, i + 1) == GroupStart(gs, i) + Span(gs[i])
    ensures gs[i].rows != [] ==> Span(gs[i]) == |gs[i].rows|
  {
    assert gs[..i + 1][..i] == gs[..i];
  }

  /** `m` merges column A or B over all rows of entry `i`, which has more than one record. */
  predicate MergedOver(gs: seq<Group>, i: nat, m: Merge)
    requires i < |gs|
  {
    && |gs[i].rows| > 1
    && m.first == GroupStart(gs, i) && m.last == GroupStart(gs, i) + |gs[i].rows| - 1
    && (m.column == 'A' || m.column == 'B')
  }

  /** The merges are exactly columns A and B over each expression with more than one record. */
  lemma {:induction false} MergeMembership(gs: seq<Group>, m: Merge)
    ensures m in MergesOf(gs) <==> exists i :: 0 <= i < |gs| && MergedOver(gs, i, m)
  {
    if gs != [] {
      var n := |gs| - 1;
      MergeMembership(gs[..n], m);
      forall i | 0 <= i < n ensures MergedOver(gs[..n], i, m) <==> MergedOver(gs, i, m) {
        GroupStartPrefix(gs, n, i);
        assert gs[..n][i] == gs[i];
      }
      assert m in GroupMerges(gs[n], GroupStart(gs, n)) <==> MergedOver(gs, n, m);
    }
  }

  lemma {:induction false} SpanSumOfNonEmpty(gs: seq<Group>)
    requires forall i :: 0 <= i < |gs| ==> gs[i].rows != []
    ensures SpanSum(gs) == |Flatten(gs)|
  {
    if gs != [] {
      var n := |gs| - 1;
      assert forall i :: 0 <= i < n ==> gs[..n][i] == gs[i];
      SpanSumOfNonEmpty(gs[..n]);
    }
  }

  /**
   * A sheet's records fill rows 2 to `|rows| + 1` with no gap: the expression
   * entries together span exactly as many rows as the character has records.
   */
  lemma SheetRowCount(rows: seq<Row>)
    ensures SpanSum(Grouped(rows, ExpressionKey, "")) == |rows|
  {
    var gs := Grouped(rows, ExpressionKey, "");
    GroupsNonEmpty(rows, ExpressionKey, "");
    SpanSumOfNonEmpty(gs);
    GroupedIsPermutation(rows, ExpressionKey, "");
    PermutationLength(Flatten(gs), rows);
  }

  lemma PermutationLength(a: seq<Row>, b: seq<Row>)
    requires multiset(a) == multiset(b)
    ensures |a| == |b|
  {
    assert |multiset(a)| == |a| && |multiset(b)| == |b|;
  }
}
