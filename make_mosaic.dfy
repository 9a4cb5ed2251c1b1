/**
  * The mosaic page generator. It reads a CSV (plain or gzipped) that lists
  * image paths, picks the column holding them, cleans every value, and writes
  * one HTML card per path, optionally with a click-to-enlarge lightbox. The
  * CSV arrives here already split into rows of fields (`csv.reader`'s view),
  * and `html.escape`, `Path.name` and the head and lightbox templates are
  * parameters.
  */
module Mosaic {
  import opened Wrappers
  import opened Text

  /** The defaults of `--col` and `-o/--output`. */
  const DefaultColumn: string := "filepath"
  const DefaultOutput: string := "mosaic.html"

  // ---------------------------------------------------------------- columns

  /**
    * `detect_column`: the preferred name when it is non-empty and among the
    * field names, otherwise the first field name, and nothing for an empty
    * header. An empty preferred name is returned only when it happens to be
    * the first field name.
    */
  function DetectColumn(fieldnames: seq<string>, preferred: string): (col: Option<string>)
    ensures col == None <==> fieldnames == []
    ensures col.Some? ==> col.value in fieldnames
    ensures col == Some(preferred) <==> preferred in fieldnames && (preferred != "" || fieldnames[0] == "")
    ensures col.Some? && col.value != preferred ==> col.value == fieldnames[0]
  {
    if preferred != "" && preferred in fieldnames then Some(preferred)
    else if fieldnames != [] then Some(fieldnames[0])
    else None
  }

  // --------------------------------------------------------------- cleaning

  predicate IsQuote(c: char) {
    c == '"'
  }

  /** `v.strip().strip('"')`: the result neither starts nor ends with a double quote. */
  function Clean(v: string): (c: string)
    ensures c == [] || (c[0] != '"' && c[|c| - 1] != '"')
    ensures |c| <= |v|
  {
    Strip(Strip(v, IsSpace), IsQuote)
  }

  /** `if val: rows.append(val)`: the cleaned value, kept only when non-empty. */
  function Kept(v: string): seq<string> {
    var c := Clean(v);
    if c == "" then [] else [c]
  }

  lemma KeptMembers(v: string, p: string)
    ensures p in Kept(v) <==> p != "" && p == Clean(v)
  {
  }

  // ---------------------------------------------------- the DictReader rows

  /** The position of the last occurrence of `x` in `xs`. */
  function LastIndexOf(xs: seq<string>, x: string): (r: Option<nat>)
    ensures r == None <==> x !in xs
    ensures r.Some? ==> r.value < |xs| && xs[r.value] == x
    ensures r.Some? ==> forall k :: r.value < k < |xs| ==> xs[k] != x
    decreases |xs|
  {
    if xs == [] then None
    else if xs[|xs| - 1] == x then Some(|xs| - 1)
    else
      var init := xs[..|xs| - 1];
      assert xs == init + [xs[|xs| - 1]];
      LastIndexOf(init, x)
  }

  /** `dict(zip(keys, values))` for at least as many values as keys: a later key overrides an equal earlier one. */
  function Zip(keys: seq<string>, values: seq<string>): map<string, Option<string>>
    requires |keys| <= |values|
    decreases |keys|
  {
    if keys == [] then map[]
    else Zip(keys[..|keys| - 1], values)[keys[|keys| - 1] := Some(values[|keys| - 1])]
  }

  /** `for key in keys: d[key] = self.restval`, the missing fields of a short row becoming None. */
  function Rest(d: map<string, Option<string>>, keys: seq<string>): map<string, Option<string>>
    decreases |keys|
  {
    if keys == [] then d else Rest(d, keys[..|keys| - 1])[keys[|keys| - 1] := None]
  }

  /**
    * The dictionary `csv.DictReader` yields for `row` under `header`. The
    * surplus values of a long row go under the key None, which is never a
    * column name, so that entry is not represented.
    */
  function RowDict(header: seq<string>, row: seq<string>): map<string, Option<string>> {
    if |header| <= |row| then Zip(header, row)
    else Rest(Zip(header[..|row|], row), header[|row|..])
  }

  /** `r.get(col) or ""` */
  function FieldValue(header: seq<string>, row: seq<string>, col: string): string {
    var d := RowDict(header, row);
    if col in d && d[col].Some? then d[col].value else ""
  }

  lemma {:induction false} ZipLookup(keys: seq<string>, values: seq<string>, col: string)
    requires |keys| <= |values|
    ensures col in Zip(keys, values) <==> col in keys
    ensures col in keys ==> Zip(keys, values)[col] == Some(values[LastIndexOf(keys, col).value])
    decreases |keys|
  {
    if keys != [] {
      var init := keys[..|keys| - 1];
      assert keys == init + [keys[|keys| - 1]];
      ZipLookup(init, values, col);
    }
  }

  lemma {:induction false} RestLookup(d: map<string, Option<string>>, keys: seq<string>, col: string)
    ensures col in keys ==> col in Rest(d, keys) && Rest(d, keys)[col] == None
    ensures col !in keys ==> (col in Rest(d, keys) <==> col in d)
    ensures col !in keys && col in d ==> Rest(d, keys)[col] == d[col]
    decreases |keys|
  {
    if keys != [] {
      var init := keys[..|keys| - 1];
      assert keys == init + [keys[|keys| - 1]];
      RestLookup(d, init, col);
    }
  }

  /** The last occurrence in `front + back` lies in `back` when there is one there. */
  lemma {:induction false} LastIndexOfAppend(front: seq<string>, back: seq<string>, x: string)
    ensures LastIndexOf(front + back, x) ==
      if x in back then Some(|front| + LastIndexOf(back, x).value) else LastIndexOf(front, x)
    decreases |back|
  {
    if back == [] {
      assert front + back == front;
    } else {
      var init, last := back[..|back| - 1], back[|back| - 1];
      var all := front + back;
      assert all[..|all| - 1] == front + init && all[|all| - 1] == last;
      assert back == init + [last];
      if last != x {
        assert LastIndexOf(all, x) == LastIndexOf(front + init, x);
        assert LastIndexOf(back, x) == LastIndexOf(init, x);
        assert x in back <==> x in init;
        LastIndexOfAppend(front, init, x);
      }
    }
  }

  /**
    * What a row's dictionary holds for a column, stated without dictionaries:
    * the value under the column's last occurrence in the header, or "" when
    * the column is not in the header or that occurrence lies past the end of
    * the row.
    */
  lemma FieldValueLastIndex(header: seq<string>, row: seq<string>, col: string)
    ensures FieldValue(header, row, col) ==
      match LastIndexOf(header, col)
      case None => ""
      case Some(j) => if j < |row| then row[j] else ""
  {
    if |header| <= |row| {
      ZipLookup(header, row, col);
    } else {
      var front, back := header[..|row|], header[|row|..];
      assert header == front + back;
      LastIndexOfAppend(front, back, col);
      ZipLookup(front, row, col);
      RestLookup(Zip(front, row), back, col);
    }
  }

  // ------------------------------------------------------------------ paths

  /** The first value of a non-empty row, cleaned and kept when non-empty. */
  function FirstColumnValue(row: seq<string>): seq<string> {
    if row == [] then [] else Kept(row[0])
  }

  /** The `csv.reader` branches: rows in order, an empty row skipped. */
  function FirstColumnPaths(rows: seq<seq<string>>): seq<string> {
    ConcatMap(FirstColumnValue, rows)
  }

  /** A non-empty row's value under `col`, cleaned and kept when non-empty. */
  function ColumnValue(header: seq<string>, col: string, row: seq<string>): seq<string> {
    if row == [] then [] else Kept(FieldValue(header, row, col))
  }

  /** The `csv.DictReader` branch over the rows after the header, an empty row skipped. */
  function ColumnPaths(header: seq<string>, col: string, rows: seq<seq<string>>): seq<string> {
    ConcatMap(row => ColumnValue(header, col, row), rows)
  }

  /** `[c.strip() for c in reader.fieldnames]` */
  function StripFields(header: seq<string>): (fn: seq<string>)
    ensures |fn| == |header|
  {
    seq(|header|, i requires 0 <= i < |header| => Strip(header[i], IsSpace))
  }

  /** A single header field whose stripped, lower-cased form is "" or "x". */
  predicate JunkHeader(fn: seq<string>) {
    |fn| == 1 && (Lower(fn[0]) == "" || Lower(fn[0]) == "x")
  }

  /**
    * The paths `main` collects. Without a header (an empty file or an empty
    * first row) and under a junk header, the first column of every row is
    * read, the header row included. Otherwise the column is chosen among the
    * stripped field names, but looked up under the header as written.
    */
  function CollectedPaths(rows: seq<seq<string>>, preferred: string): seq<string> {
    if rows == [] || rows[0] == [] then FirstColumnPaths(rows)
    else
      var fn := StripFields(rows[0]);
      if JunkHeader(fn) then FirstColumnPaths(rows)
      else ColumnPaths(rows[0], DetectColumn(fn, preferred).value, rows[1..])
  }

  /** The first-column paths are exactly the non-empty cleaned first values of the non-empty rows. */
  lemma FirstColumnPathsMembers(rows: seq<seq<string>>, p: string)
    ensures p in FirstColumnPaths(rows) <==>
      p != "" && exists i :: 0 <= i < |rows| && rows[i] != [] && Clean(rows[i][0]) == p
  {
    ConcatMapMembers(FirstColumnValue, rows, p);
    if p in FirstColumnPaths(rows) {
      var i :| 0 <= i < |rows| && p in FirstColumnValue(rows[i]);
      KeptMembers(rows[i][0], p);
    }
  }

  /** The column paths are exactly the non-empty cleaned field values of the non-empty rows. */
  lemma ColumnPathsMembers(header: seq<string>, col: string, rows: seq<seq<string>>, p: string)
    ensures p in ColumnPaths(header, col, rows) <==>
      p != "" && exists i :: 0 <= i < |rows| && rows[i] != [] && Clean(FieldValue(header, rows[i], col)) == p
  {
    var f := row => ColumnValue(header, col, row);
    ConcatMapMembers(f, rows, p);
    if p in ColumnPaths(header, col, rows) {
      var i :| 0 <= i < |rows| && p in f(rows[i]);
      KeptMembers(FieldValue(header, rows[i], col), p);
    }
  }

  /** Every first-column path is non-empty and neither starts nor ends with a double quote. */
  lemma FirstColumnPathsClean(rows: seq<seq<string>>)
    ensures forall p :: p in FirstColumnPaths(rows) ==> p != "" && p[0] != '"' && p[|p| - 1] != '"'
  {
    forall p | p in FirstColumnPaths(rows)
      ensures p != "" && p[0] != '"' && p[|p| - 1] != '"'
    {
      FirstColumnPathsMembers(rows, p);
    }
  }

  /** Every column path is non-empty and neither starts nor ends with a double quote. */
  lemma ColumnPathsClean(header: seq<string>, col: string, rows: seq<seq<string>>)
    ensures forall p :: p in ColumnPaths(header, col, rows) ==> p != "" && p[0] != '"' && p[|p| - 1] != '"'
  {
    forall p | p in ColumnPaths(header, col, rows)
      ensures p != "" && p[0] != '"' && p[|p| - 1] != '"'
    {
      ColumnPathsMembers(header, col, rows, p);
    }
  }

  /** Every collected path is non-empty and neither starts nor ends with a double quote. */
  lemma CollectedPathsClean(rows: seq<seq<string>>, preferred: string)
    ensures forall p :: p in CollectedPaths(rows, preferred) ==> p != "" && p[0] != '"' && p[|p| - 1] != '"'
  {
    if rows == [] || rows[0] == [] {
      FirstColumnPathsClean(rows);
    } else {
      var fn := StripFields(rows[0]);
      if JunkHeader(fn) {
        FirstColumnPathsClean(rows);
      } else {
        ColumnPathsClean(rows[0], DetectColumn(fn, preferred).value, rows[1..]);
      }
    }
  }

  /** A value with no space and no quote at either end is kept as it is. */
  lemma CleanUnchanged(v: string)
    requires v != [] && !IsSpace(v[0]) && !IsSpace(v[|v| - 1]) && v[0] != '"' && v[|v| - 1] != '"'
    ensures Clean(v) == v
  {
    assert Strip(v, IsSpace) == v;
  }

  /** A one-field header is stripped field by field. */
  lemma StripFieldsOne(h: string)
    ensures StripFields([h]) == [Strip(h, IsSpace)]
  {
    assert StripFields([h])[0] == Strip(h, IsSpace);
  }

  lemma FirstColumnOfTwo(a: string, b: string)
    ensures FirstColumnPaths([[a], [b]]) == Kept(a) + Kept(b)
  {
    var rows := [[a], [b]];
    var one := [[a]];
    assert rows[..1] == one;
    assert one[..0] == [];
    assert ConcatMap(FirstColumnValue, one) == FirstColumnValue([a]);
  }

  /** Under a junk header `CollectedPaths` takes its first-column branch (a step used by the examples). */
  lemma JunkHeaderReadsFirstColumn(rows: seq<seq<string>>, preferred: string)
    requires rows != [] && rows[0] != [] && JunkHeader(StripFields(rows[0]))
    ensures CollectedPaths(rows, preferred) == FirstColumnPaths(rows)
  {
  }

  /** Under any other header `CollectedPaths` takes its column branch (a step used by the examples). */
  lemma HeaderReadsColumn(rows: seq<seq<string>>, preferred: string)
    requires rows != [] && rows[0] != [] && !JunkHeader(StripFields(rows[0]))
    ensures CollectedPaths(rows, preferred) == ColumnPaths(rows[0], DetectColumn(StripFields(rows[0]), preferred).value, rows[1..])
  {
  }

  /**
    * Under a junk header the paths are exactly the non-empty cleaned first
    * values of the non-empty rows, the header row (row 0) included.
    */
  lemma JunkHeaderPathsMembers(rows: seq<seq<string>>, preferred: string, p: string)
    requires rows != [] && rows[0] != [] && JunkHeader(StripFields(rows[0]))
    ensures p in CollectedPaths(rows, preferred) <==>
      p != "" && exists i :: 0 <= i < |rows| && rows[i] != [] && Clean(rows[i][0]) == p
  {
    assert CollectedPaths(rows, preferred) == FirstColumnPaths(rows);
    FirstColumnPathsMembers(rows, p);
  }

  /**
    * Under any other header the paths are exactly the non-empty cleaned values
    * that the rows after the header (rows 1 on) hold under the column
    * `detect_column` picks from the stripped names, looked up under the header
    * as written.
    */
  lemma HeaderPathsMembers(rows: seq<seq<string>>, preferred: string, p: string)
    requires rows != [] && rows[0] != [] && !JunkHeader(StripFields(rows[0]))
    ensures var col := DetectColumn(StripFields(rows[0]), preferred).value;
      p in CollectedPaths(rows, preferred) <==>
      p != "" && exists i :: 1 <= i < |rows| && rows[i] != [] && Clean(FieldValue(rows[0], rows[i], col)) == p
  {
    var header := rows[0];
    var col := DetectColumn(StripFields(header), preferred).value;
    assert CollectedPaths(rows, preferred) == ColumnPaths(header, col, rows[1..]);
    ColumnPathsAfterHeader(header, col, rows, p);
  }

  /** The column paths of the rows after the first, with row indices counted in `rows`. */
  lemma ColumnPathsAfterHeader(header: seq<string>, col: string, rows: seq<seq<string>>, p: string)
    requires rows != []
    ensures p in ColumnPaths(header, col, rows[1..]) <==>
      p != "" && exists i :: 1 <= i < |rows| && rows[i] != [] && Clean(FieldValue(header, rows[i], col)) == p
  {
    ColumnPathsMembers(header, col, rows[1..], p);
    ShiftWitness(rows, row => FieldValue(header, row, col), p);
  }

  /** A row of `rows[1..]` at index j is the row of `rows` at index j + 1. */
  lemma ShiftWitness(rows: seq<seq<string>>, f: seq<string> -> string, p: string)
    requires rows != []
    ensures (exists j :: 0 <= j < |rows[1..]| && rows[1..][j] != [] && Clean(f(rows[1..][j])) == p) <==>
            (exists i :: 1 <= i < |rows| && rows[i] != [] && Clean(f(rows[i])) == p)
  {
    var body := rows[1..];
    if exists j :: 0 <= j < |body| && body[j] != [] && Clean(f(body[j])) == p {
      var j :| 0 <= j < |body| && body[j] != [] && Clean(f(body[j])) == p;
      assert rows[j + 1] == body[j];
    }
    if exists i :: 1 <= i < |rows| && rows[i] != [] && Clean(f(rows[i])) == p {
      var i :| 1 <= i < |rows| && rows[i] != [] && Clean(f(rows[i])) == p;
      assert body[i - 1] == rows[i];
    }
  }

  /** The column paths of a single row are that row's kept value. */
  lemma ColumnPathsOne(header: seq<string>, col: string, row: seq<string>)
    ensures ColumnPaths(header, col, [row]) == ColumnValue(header, col, row)
  {
    ColumnPathsStep(header, col, [row], 0);
    assert [row][..0] == [] && [row][..1] == [row];
  }

  /** Clean values are kept as they are. */
  lemma KeptClean(v: string)
    requires v != [] && !IsSpace(v[0]) && !IsSpace(v[|v| - 1]) && v[0] != '"' && v[|v| - 1] != '"'
    ensures Kept(v) == [v]
  {
    CleanUnchanged(v);
  }

  /** One leading space is stripped off a string that is otherwise clean at both ends. */
  lemma StripOneLeadingSpace(c: char, w: string)
    requires IsSpace(c) && w != [] && !IsSpace(w[0]) && !IsSpace(w[|w| - 1])
    ensures Strip([c] + w, IsSpace) == w
  {
    var padded := [c] + w;
    assert padded[1..] == w;
    assert TrimStart(padded, IsSpace) == TrimStart(w, IsSpace) == w;
  }

  /** `main`'s reading loops: the rows a branch appends are the paths `CollectedPaths` specifies. */
  method CollectPaths(rows: seq<seq<string>>, preferred: string) returns (paths: seq<string>)
    ensures paths == CollectedPaths(rows, preferred)
  {
    if rows == [] || rows[0] == [] {
      paths := ReadFirstColumn(rows);
    } else {
      var fn := StripFields(rows[0]);
      var col := DetectColumn(fn, preferred);
      if JunkHeader(fn) {
        paths := ReadFirstColumn(rows);
      } else {
        paths := ReadColumn(rows[0], col.value, rows[1..]);
      }
    }
  }

  method ReadFirstColumn(rows: seq<seq<string>>) returns (paths: seq<string>)
    ensures paths == FirstColumnPaths(rows)
  {
    paths := [];
    var i := 0;
    while i < |rows|
      invariant 0 <= i <= |rows|
      invariant paths == FirstColumnPaths(rows[..i])
    {
      ConcatMapStep(FirstColumnValue, rows, i);
      if rows[i] != [] {
        var val := Clean(rows[i][0]);
        if val != "" {
          paths := paths + [val];
        }
      }
      i := i + 1;
    }
    assert rows[..i] == rows;
  }

  /** One more row adds its own column value, if any, to the column paths. */
  lemma ColumnPathsStep(header: seq<string>, col: string, rows: seq<seq<string>>, i: nat)
    requires i < |rows|
    ensures ColumnPaths(header, col, rows[..i + 1]) == ColumnPaths(header, col, rows[..i]) + ColumnValue(header, col, rows[i])
  {
    ConcatMapStep(row => ColumnValue(header, col, row), rows, i);
  }

  /**
    * `r.get(col) or ""` computed without building the dictionary: the header
    * is searched from its end for the column, whose last occurrence is the
    * one the dictionary keeps, and a position past a short row reads as "".
    */
  method GetField(header: seq<string>, row: seq<string>, col: string) returns (v: string)
    ensures v == FieldValue(header, row, col)
  {
    var j := |header|;
    while j > 0 && header[j - 1] != col
      invariant 0 <= j <= |header|
      invariant forall k :: j <= k < |header| ==> header[k] != col
    {
      j := j - 1;
    }
    FieldValueLastIndex(header, row, col);
    if j == 0 {
      assert col !in header;
      v := "";
    } else {
      assert LastIndexOf(header, col) == Some(j - 1);
      v := if j - 1 < |row| then row[j - 1] else "";
    }
  }

  method ReadColumn(header: seq<string>, col: string, rows: seq<seq<string>>) returns (paths: seq<string>)
    ensures paths == ColumnPaths(header, col, rows)
  {
    paths := [];
    var i := 0;
    while i < |rows|
      invariant 0 <= i <= |rows|
      invariant paths == ColumnPaths(header, col, rows[..i])
    {
      ColumnPathsStep(header, col, rows, i);
      if rows[i] != [] {
        var field := GetField(header, rows[i], col);
        var val := Clean(field);
        if val != "" {
          paths := paths + [val];
        }
      }
      i := i + 1;
    }
    assert rows[..i] == rows;
  }

  // ------------------------------------------------------------ output name

  /** Where the page goes: the path given with `-o`, or a file named `name` in the CSV's directory. */
  datatype Target = Given(path: string) | BesideCsv(csvFile: string, name: string)

  /** The CSV's file name without a trailing `.gz`, then without a trailing `.csv`, both case-insensitively. */
  function Stem(name: string): string {
    var base := if EndsWith(Lower(name), ".gz") then name[..|name| - 3] else name;
    if EndsWith(Lower(base), ".csv") then base[..|base| - 4] else base
  }

  /** The output is derived only when `-o` is left at its default. */
  function OutputTarget(output: string, csvFile: string, csvName: string): (t: Target)
    ensures t.Given? <==> output != DefaultOutput
    ensures t.Given? ==> t.path == output
    ensures t.BesideCsv? ==>
      t.csvFile == csvFile && EndsWith(t.name, ".html") && t.name[..|t.name| - 5] == Stem(csvName)
  {
    if output == DefaultOutput then BesideCsv(csvFile, Stem(csvName) + ".html") else Given(output)
  }

  /** Once `.gz` is dropped, a `.csv` ending is left exactly when the name ended in `.csv.gz`. */
  lemma GzThenCsv(name: string)
    requires EndsWith(Lower(name), ".gz")
    ensures EndsWith(Lower(name[..|name| - 3]), ".csv") <==> EndsWith(Lower(name), ".csv.gz")
  {
    var n, lower := |name|, Lower(name);
    LowerSlice(name, 0, n - 3);
    assert lower[n - 3..] == ".gz";
    if n >= 7 {
      assert lower[n - 7..] == lower[n - 7..n - 3] + lower[n - 3..];
    }
  }

  /**
    * The stem is a prefix of the name, what it drops is a case variant of
    * `.gz`, `.csv` or `.csv.gz`, and it drops nothing exactly when the name
    * ends in neither suffix. Which suffix goes is fixed by the name's
    * lower-case ending: `.csv.gz` loses seven characters, any other `.gz`
    * three, and `.csv` four.
    */
  lemma StemDropsSuffix(name: string)
    ensures |Stem(name)| <= |name| && Stem(name) == name[..|Stem(name)|]
    ensures Lower(name[|Stem(name)|..]) in {"", ".gz", ".csv", ".csv.gz"}
    ensures Stem(name) == name <==> !EndsWith(Lower(name), ".gz") && !EndsWith(Lower(name), ".csv")
    ensures EndsWith(Lower(name), ".csv.gz") ==> Stem(name) == name[..|name| - 7]
    ensures EndsWith(Lower(name), ".gz") && !EndsWith(Lower(name), ".csv.gz") ==> Stem(name) == name[..|name| - 3]
    ensures !EndsWith(Lower(name), ".gz") && EndsWith(Lower(name), ".csv") ==> Stem(name) == name[..|name| - 4]
  {
    var n, lower := |name|, Lower(name);
    if EndsWith(lower, ".gz") {
      GzThenCsv(name);
      if EndsWith(lower, ".csv.gz") {
        assert Stem(name) == name[..n - 7];
        LowerSlice(name, n - 7, n);
        assert Lower(name[n - 7..]) == ".csv.gz";
      } else {
        assert Stem(name) == name[..n - 3];
        LowerSlice(name, n - 3, n);
        assert Lower(name[n - 3..]) == ".gz";
      }
    } else if EndsWith(lower, ".csv") {
      assert Stem(name) == name[..n - 4];
      LowerSlice(name, n - 4, n);
      assert Lower(name[n - 4..]) == ".csv";
    } else {
      assert Stem(name) == name;
      assert name[n..] == "";
    }
  }

  /** `main`'s rewriting of `base` and `args.output`, step by step. */
  method DeriveOutput(output: string, csvFile: string, csvName: string) returns (target: Target)
    ensures target == OutputTarget(output, csvFile, csvName)
  {
    if output == DefaultOutput {
      var base := csvName;
      if EndsWith(Lower(base), ".gz") {
        base := base[..|base| - 3];
      }
      if EndsWith(Lower(base), ".csv") {
        base := base[..|base| - 4];
      }
      target := BesideCsv(csvFile, base + ".html");
    } else {
      target := Given(output);
    }
  }

  // ------------------------------------------------------------------- page

  /** `TEMPLATE_HEAD`, `LIGHTBOX_HTML` and `LIGHTBOX_JS`, whose text is not modelled. */
  datatype Templates = Templates(head: string, lightboxHtml: string, lightboxJs: string)

  /**
    * The four lines of one card; `escape` is `html.escape` and `baseName` is
    * `Path(path).name`.
    */
  function Card(path: string, lightbox: bool, escape: string -> string, baseName: string -> string): (lines: seq<string>)
    ensures |lines| == 4
  {
    var src := escape(path);
    var caption := escape(baseName(path));
    var img := "  <img src=\"" + src + "\" loading=\"lazy\" alt=\"" + caption + "\">";
    var captionLine := "  <div class=\"caption\">" + caption + "</div>";
    if lightbox then
      ["<a class=\"card\" href=\"" + src + "\" data-lightbox data-caption=\"" + caption + "\">", img, captionLine, "</a>"]
    else
      ["<div class=\"card\">", img, captionLine, "</div>"]
  }

  const FootOpen: string := "\n</div> <!-- .grid -->\n</div> <!-- .container -->\n"
  const FootClose: string := "\n</body>\n</html>\n"

  /** `TEMPLATE_FOOT.format(...)`, the lightbox parts empty without the flag. */
  function Footer(tpl: Templates, lightbox: bool): string {
    var markup := if lightbox then tpl.lightboxHtml else "";
    var script := if lightbox then tpl.lightboxJs else "";
    FootOpen + markup + "\n" + script + FootClose
  }

  function Cards(paths: seq<string>, lightbox: bool, escape: string -> string, baseName: string -> string): seq<string> {
    ConcatMap(p => Card(p, lightbox, escape, baseName), paths)
  }

  /** The lines `out` holds before `"\n".join(out)`. */
  function PageLines(tpl: Templates, paths: seq<string>, lightbox: bool,
                     escape: string -> string, baseName: string -> string): seq<string> {
    [tpl.head] + Cards(paths, lightbox, escape, baseName) + [Footer(tpl, lightbox)]
  }

  lemma {:induction false} CardsLayout(paths: seq<string>, lightbox: bool, escape: string -> string, baseName: string -> string)
    ensures |Cards(paths, lightbox, escape, baseName)| == 4 * |paths|
    ensures forall i :: 0 <= i < |paths| ==>
      Cards(paths, lightbox, escape, baseName)[4 * i..4 * i + 4] == Card(paths[i], lightbox, escape, baseName)
    decreases |paths|
  {
    if paths != [] {
      var init := paths[..|paths| - 1];
      CardsLayout(init, lightbox, escape, baseName);
      var before := Cards(init, lightbox, escape, baseName);
      var last := Card(paths[|paths| - 1], lightbox, escape, baseName);
      assert Cards(paths, lightbox, escape, baseName) == before + last;
      forall i | 0 <= i < |paths|
        ensures (before + last)[4 * i..4 * i + 4] == Card(paths[i], lightbox, escape, baseName)
      {
        if i < |init| {
          assert (before + last)[4 * i..4 * i + 4] == before[4 * i..4 * i + 4];
          assert init[i] == paths[i];
        } else {
          assert (before + last)[4 * i..4 * i + 4] == last;
        }
      }
    }
  }

  /**
    * The page is the head, then exactly one four-line card per path in the
    * order of the paths, then the footer.
    */
  lemma PageLayout(tpl: Templates, paths: seq<string>, lightbox: bool, escape: string -> string, baseName: string -> string)
    ensures |PageLines(tpl, paths, lightbox, escape, baseName)| == 4 * |paths| + 2
    ensures PageLines(tpl, paths, lightbox, escape, baseName)[0] == tpl.head
    ensures PageLines(tpl, paths, lightbox, escape, baseName)[4 * |paths| + 1] == Footer(tpl, lightbox)
    ensures forall i :: 0 <= i < |paths| ==>
      PageLines(tpl, paths, lightbox, escape, baseName)[4 * i + 1..4 * i + 5] == Card(paths[i], lightbox, escape, baseName)
  {
    CardsLayout(paths, lightbox, escape, baseName);
    var cards := Cards(paths, lightbox, escape, baseName);
    var lines := PageLines(tpl, paths, lightbox, escape, baseName);
    forall i | 0 <= i < |paths|
      ensures lines[4 * i + 1..4 * i + 5] == Card(paths[i], lightbox, escape, baseName)
    {
      assert lines[4 * i + 1..4 * i + 5] == cards[4 * i..4 * i + 4];
    }
  }

  /**
    * The lightbox markup and script appear when the flag is set, and without
    * it the page does not depend on them at all; a card opens with an `<a`
    * link exactly in lightbox mode.
    */
  lemma LightboxOnlyWhenEnabled(tpl: Templates, other: Templates, paths: seq<string>,
                                escape: string -> string, baseName: string -> string, path: string, lightbox: bool)
    requires other.head == tpl.head
    ensures PageLines(tpl, paths, false, escape, baseName) == PageLines(other, paths, false, escape, baseName)
    ensures Footer(tpl, true)[|FootOpen|..|FootOpen| + |tpl.lightboxHtml|] == tpl.lightboxHtml
    ensures Footer(tpl, true)[|FootOpen| + |tpl.lightboxHtml| + 1..|FootOpen| + |tpl.lightboxHtml| + 1 + |tpl.lightboxJs|] == tpl.lightboxJs
    ensures Card(path, lightbox, escape, baseName)[0][..3] == "<a " <==> lightbox
  {
    var card := Card(path, lightbox, escape, baseName);
    if !lightbox {
      assert card[0][..3] == "<di";
    }
  }

  /** `main`'s HTML loop: the lines it appends to `out`. */
  method BuildPage(tpl: Templates, paths: seq<string>, lightbox: bool,
                   escape: string -> string, baseName: string -> string) returns (out: seq<string>)
    ensures out == PageLines(tpl, paths, lightbox, escape, baseName)
  {
    out := [tpl.head];
    var i := 0;
    while i < |paths|
      invariant 0 <= i <= |paths|
      invariant out == [tpl.head] + Cards(paths[..i], lightbox, escape, baseName)
    {
      ConcatMapStep(p => Card(p, lightbox, escape, baseName), paths, i);
      var path := paths[i];
      var src := escape(path);
      var caption := escape(baseName(path));
      if lightbox {
        out := out + ["<a class=\"card\" href=\"" + src + "\" data-lightbox data-caption=\"" + caption + "\">"];
        out := out + ["  <img src=\"" + src + "\" loading=\"lazy\" alt=\"" + caption + "\">"];
        out := out + ["  <div class=\"caption\">" + caption + "</div>"];
        out := out + ["</a>"];
      } else {
        out := out + ["<div class=\"card\">"];
        out := out + ["  <img src=\"" + src + "\" loading=\"lazy\" alt=\"" + caption + "\">"];
        out := out + ["  <div class=\"caption\">" + caption + "</div>"];
        out := out + ["</div>"];
      }
      i := i + 1;
    }
    assert paths[..i] == paths;
    out := out + [Footer(tpl, lightbox)];
  }

  // -------------------------------------------------------------------- main

  /** The command line: `csvfile`, `-o/--output`, `--col` and `--lightbox`. */
  datatype Args = Args(csvFile: string, output: string, col: string, lightbox: bool)

  /** How `main` ends: an exit status, or the page text and where it is written. */
  datatype RunOutcome = Exit(status: int) | Written(target: Target, html: string)

  /**
    * `main`: exit status 2 when the CSV does not exist, exit status 3 and no
    * page when it yields no path, and otherwise the page for the collected
    * paths, its lines joined by newlines. `csvExists` is the file-system test
    * and `rows` the CSV's parsed rows.
    */
  method Run(args: Args, csvExists: bool, rows: seq<seq<string>>, tpl: Templates,
             escape: string -> string, baseName: string -> string) returns (r: RunOutcome)
    ensures !csvExists ==> r == Exit(2)
    ensures csvExists && CollectedPaths(rows, args.col) == [] ==> r == Exit(3)
    ensures csvExists && CollectedPaths(rows, args.col) != [] ==>
      r == Written(OutputTarget(args.output, args.csvFile, baseName(args.csvFile)),
                   Join(PageLines(tpl, CollectedPaths(rows, args.col), args.lightbox, escape, baseName), '\n'))
  {
    if !csvExists {
      return Exit(2);
    }
    var target := DeriveOutput(args.output, args.csvFile, baseName(args.csvFile));
    var paths := CollectPaths(rows, args.col);
    if |paths| == 0 {
      return Exit(3);
    }
    var out := BuildPage(tpl, paths, args.lightbox, escape, baseName);
    r := Written(target, Join(out, '\n'));
  }
}
