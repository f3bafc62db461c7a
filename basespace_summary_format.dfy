/** bin/BaseSpace_summary_format.py: reformats run summary tables copied from
    BaseSpace. Each input file's name gives a run ID and a date; its non-blank lines
    are split into tab cells and cleaned; the rows up to the "Total" row form the first
    table, and the rows after it form the second, with level rows folded into a first
    column; both tables are appended to two output files, prefixed with the file name,
    run ID and date, with a header line taken from the first file only.

    A file's lines are given by the `contents` parameter and whether it exists by
    `isFile`; the two output files are the sequences of lines written to them. */
module BaseSpaceSummaryFormat {
  import opened Wrappers
  import opened PyStr

  // ---------------------------------------------------------------------------------
  // parse_file_name

  /** The AssertionError of a file name with more than one `__`. */
  function FileNameAssertion(fileName: string): Error
  {
    AssertionError("File name parsing error: \"" + fileName + "\"")
  }

  /** `parse_file_name(file_name)`: the run ID and the date around the first `__`, the
      date `'NA'` when there is no `__`, and an AssertionError when there are two. */
  function ParseFileName(fileName: string): (r: Result<seq<string>>)
    ensures r.Ok? ==> |r.value| == 2
    ensures !Contains(fileName, "__") ==> r == Ok([fileName, "NA"])
    ensures r.Ok? && Contains(fileName, "__") ==>
      r.value[0] + "__" + r.value[1] == fileName
      && !Contains(r.value[0], "__") && !Contains(r.value[1], "__")
    ensures r.Err? ==> r.error == FileNameAssertion(fileName)
  {
    match Find(fileName, "__")
    case None => Ok([fileName, "NA"])
    case Some(i) =>
      var rest := fileName[i + 2..];
      if Contains(rest, "__") then Err(FileNameAssertion(fileName))
      else
        assert fileName[..i] + "__" + rest == fileName by {
          assert fileName[i..i + 2] == "__";
        }
        assert !Contains(fileName[..i], "__") by {
          forall j | OccursAt(fileName[..i], "__", j) ensures false {
            assert fileName[..i][j..j + 2] == fileName[j..j + 2];
            assert OccursAt(fileName, "__", j);
          }
        }
        Ok([fileName[..i], rest])
  }

  /** The first `__` of `a + "__" + x` is the one after `a`, when `a` has none and does
      not end in an underscore. */
  lemma FirstSeparator(a: string, x: string)
    requires !Contains(a, "__") && (a == [] || a[|a| - 1] != '_')
    ensures Find(a + "__" + x, "__") == Some(|a|)
  {
    var s := a + "__" + x;
    assert s[|a|..|a| + 2] == "__";
    assert OccursAt(s, "__", |a|);
    forall j | 0 <= j < |a| ensures !OccursAt(s, "__", j) {
      if j + 1 < |a| {
        assert a[j..j + 2] == s[j..j + 2];
        assert !OccursAt(a, "__", j);
      } else {
        assert s[j..j + 2][0] == s[j] == a[|a| - 1];
      }
    }
  }

  /** A run ID and a date, each without `__` and the run ID not ending in `_`, are read
      back from `runID__date`. */
  lemma ParseFileNameRoundTrip(runID: string, date: string)
    requires !Contains(runID, "__") && (runID == [] || runID[|runID| - 1] != '_')
    requires !Contains(date, "__")
    ensures ParseFileName(runID + "__" + date) == Ok([runID, date])
  {
    FirstSeparator(runID, date);
    var s := runID + "__" + date;
    assert s[..|runID|] == runID && s[|runID| + 2..] == date;
  }

  /** A name with two separators fails the assertion. */
  lemma ParseFileNameTwoSeparators(a: string, b: string, c: string)
    requires !Contains(a, "__") && (a == [] || a[|a| - 1] != '_')
    ensures ParseFileName(a + "__" + b + "__" + c) == Err(FileNameAssertion(a + "__" + b + "__" + c))
  {
    var s := a + "__" + b + "__" + c;
    assert s == a + "__" + (b + "__" + c);
    FirstSeparator(a, b + "__" + c);
    assert s[|a| + 2..] == b + "__" + c;
    ContainsMiddle(b, "__", c);
  }

  // ---------------------------------------------------------------------------------
  // read_file

  /** `re.sub(' +', ' ', s)`: every run of spaces becomes one space. */
  function CollapseSpaces(s: string): (r: string)
    ensures |r| <= |s|
    decreases |s|
  {
    if s == [] then []
    else if s[0] == ' ' then " " + CollapseSpaces(LStripSet(s, {' '}))
    else [s[0]] + CollapseSpaces(s[1..])
  }

  /** The characters of `s` other than spaces, in order. */
  function NonSpace(s: string): string
  {
    if s == [] then [] else (if s[0] == ' ' then [] else [s[0]]) + NonSpace(s[1..])
  }

  /** Dropping leading spaces keeps the other characters. */
  lemma {:induction false} NonSpaceLStrip(s: string)
    ensures NonSpace(LStripSet(s, {' '})) == NonSpace(s)
    decreases |s|
  {
    if s != [] && s[0] == ' ' {
      NonSpaceLStrip(s[1..]);
    }
  }

  /** Collapsing keeps every other character in order, and leaves no two spaces side
      by side. */
  lemma {:induction false} CollapseSpacesSound(s: string)
    ensures var r := CollapseSpaces(s);
      NonSpace(r) == NonSpace(s) && forall k :: 0 <= k < |r| - 1 ==> !(r[k] == ' ' && r[k + 1] == ' ')
    decreases |s|
  {
    if s != [] {
      if s[0] == ' ' {
        var t := LStripSet(s, {' '});
        CollapseSpacesSound(t);
        NonSpaceLStrip(s);
        var c := CollapseSpaces(t);
        assert c == [] || c[0] != ' ' by {
          if c != [] {
            assert t[0] != ' ';
          }
        }
        assert (" " + c)[1..] == c;
      } else {
        CollapseSpacesSound(s[1..]);
        assert ([s[0]] + CollapseSpaces(s[1..]))[1..] == CollapseSpaces(s[1..]);
      }
    }
  }

  /** `re.sub('[()]', '', s)`: the parentheses are removed. */
  function RemoveParens(s: string): (r: string)
    ensures '(' !in r && ')' !in r
    ensures |r| <= |s|
  {
    if s == [] then []
    else (if s[0] == '(' || s[0] == ')' then [] else [s[0]]) + RemoveParens(s[1..])
  }

  /** Removing the parentheses keeps every other character, in order. */
  lemma {:induction false} RemoveParensKeeps(s: string, c: char)
    requires c != '(' && c != ')'
    ensures c in RemoveParens(s) <==> c in s
    decreases |s|
  {
    if s != [] {
      RemoveParensKeeps(s[1..], c);
      assert s == [s[0]] + s[1..];
    }
  }

  /** One cell: stripped of whitespace, runs of spaces collapsed, parentheses removed. */
  function CleanCell(x: string): string
  {
    RemoveParens(CollapseSpaces(Strip(x)))
  }

  /** The row a line gives, or nothing for a line that is blank once right-stripped. */
  function CleanLine(line: string): (row: Option<seq<string>>)
    ensures row.Some? ==> |row.value| >= 1
    ensures row.Some? ==> forall c :: 0 <= c < |row.value| ==> '(' !in row.value[c] && ')' !in row.value[c]
  {
    var t := RStrip(line);
    if t == [] then None
    else
      var cells := Split(t, '\t');
      Some(seq(|cells|, k requires 0 <= k < |cells| => CleanCell(cells[k])))
  }

  /** `read_file(inFile)` on the file's lines: the rows of the non-blank lines, in order. */
  function ReadFileSpec(lines: seq<string>): (data: seq<seq<string>>)
    ensures |data| <= |lines|
  {
    if lines == [] then []
    else
      var front := ReadFileSpec(lines[..|lines| - 1]);
      match CleanLine(lines[|lines| - 1])
      case None => front
      case Some(row) => front + [row]
  }

  /** Every row has a cell, and no cell holds a parenthesis. */
  predicate WellFormedRows(data: seq<seq<string>>)
  {
    forall k :: 0 <= k < |data| ==>
      (|data[k]| >= 1 && forall c :: 0 <= c < |data[k]| ==> '(' !in data[k][c] && ')' !in data[k][c])
  }

  /** The rows read are well formed. */
  lemma {:induction false} ReadRowsWellFormed(lines: seq<string>)
    ensures WellFormedRows(ReadFileSpec(lines))
  {
    if lines != [] {
      var front := lines[..|lines| - 1];
      ReadRowsWellFormed(front);
      match CleanLine(lines[|lines| - 1])
      case None =>
        assert ReadFileSpec(lines) == ReadFileSpec(front);
      case Some(row) =>
        var data := ReadFileSpec(front) + [row];
        assert forall k :: 0 <= k < |data| - 1 ==> data[k] == ReadFileSpec(front)[k];
    }
  }

  /** The reading loop: each line right-stripped, blank ones skipped, the others split
      and cleaned and appended. */
  method ReadFile(lines: seq<string>) returns (data: seq<seq<string>>)
    ensures data == ReadFileSpec(lines)
  {
    data := [];
    var i := 0;
    while i < |lines|
      invariant 0 <= i <= |lines|
      invariant data == ReadFileSpec(lines[..i])
      decreases |lines| - i
    {
      assert lines[..i + 1][..i] == lines[..i];
      var line := RStrip(lines[i]);
      if line != [] {
        var cells := Split(line, '\t');
        var row := seq(|cells|, k requires 0 <= k < |cells| => CleanCell(cells[k]));
        data := data + [row];
      }
      i := i + 1;
    }
    assert lines[..i] == lines;
  }

  // ---------------------------------------------------------------------------------
  // parse_data

  /** The two tables `parse_data` returns. */
  datatype Tables = Tables(tbl1: seq<seq<string>>, tbl2: seq<seq<string>>)

  predicate IsTotal(row: seq<string>)
  {
    |row| > 0 && row[0] == "Total"
  }

  /** Every row from index `j` on has a first cell. */
  predicate NonEmptyFrom(data: seq<seq<string>>, j: nat)
  {
    forall k :: j <= k < |data| ==> |data[k]| > 0
  }

  /** The index of the first "Total" row, or the number of rows when there is none. */
  function FirstTotal(data: seq<seq<string>>): (t: nat)
    ensures t <= |data|
    ensures t < |data| ==> IsTotal(data[t])
    ensures forall k :: 0 <= k < t ==> !IsTotal(data[k])
  {
    if data == [] then 0
    else if IsTotal(data[0]) then 0
    else 1 + FirstTotal(data[1..])
  }

  /** Where the first table ends: just after the "Total" row. */
  function Cut(data: seq<seq<string>>): (c: nat)
    ensures c <= |data|
  {
    var t := FirstTotal(data);
    if t < |data| then t + 1 else |data|
  }

  /** A single-cell "Lane" row is renamed "Level"; that is the first cell the rest of
      the row is judged by. */
  function FirstCell(row: seq<string>): string
    requires |row| > 0
  {
    if row[0] == "Lane" then "Level" else row[0]
  }

  /** A row after "Total" that only sets the level: a single cell other than "Level"
      once renamed. */
  predicate IsLevelRow(row: seq<string>)
    requires |row| > 0
  {
    |row| == 1 && FirstCell(row) != "Level"
  }

  /** The second table from row `j` on, under the current level: a level row sets the
      level, every other row is emitted with the level as its first cell. */
  function Tbl2At(data: seq<seq<string>>, j: nat, level: string): (t: seq<seq<string>>)
    requires j <= |data| && NonEmptyFrom(data, j)
    ensures |t| <= |data| - j
    decreases |data| - j
  {
    if j == |data| then []
    else if IsLevelRow(data[j]) then Tbl2At(data, j + 1, FirstCell(data[j]))
    else [[level] + data[j][1..]] + Tbl2At(data, j + 1, level)
  }

  /** The number of level rows from row `j` on. */
  function LevelRows(data: seq<seq<string>>, j: nat): nat
    requires j <= |data| && NonEmptyFrom(data, j)
    decreases |data| - j
  {
    if j == |data| then 0
    else (if IsLevelRow(data[j]) then 1 else 0) + LevelRows(data, j + 1)
  }

  /** `parse_data(data)`: every row is looked at by its first cell, so an empty row
      raises; otherwise the rows up to and including the first "Total" row are the first
      table (every row, when there is none), and the second is built from the rest with
      the level starting empty. */
  function ParseDataSpec(data: seq<seq<string>>): (r: Result<Tables>)
    ensures r.Err? <==> !NonEmptyFrom(data, 0)
    ensures r.Ok? ==> forall k :: 0 <= k < |r.value.tbl1| - 1 ==> !IsTotal(r.value.tbl1[k])
    ensures r.Ok? ==>
      (r.value.tbl1 != [] && IsTotal(r.value.tbl1[|r.value.tbl1| - 1]))
      || (r.value.tbl1 == data && r.value.tbl2 == [])
  {
    if !NonEmptyFrom(data, 0) then Err(IndexError("list index out of range"))
    else
      var c := Cut(data);
      Ok(Tables(data[..c], Tbl2At(data, c, "")))
  }

  /** Each row after "Total" is emitted or sets the level, never both. */
  lemma {:induction false} Tbl2Count(data: seq<seq<string>>, j: nat, level: string)
    requires j <= |data| && NonEmptyFrom(data, j)
    ensures |Tbl2At(data, j, level)| + LevelRows(data, j) == |data| - j
    decreases |data| - j
  {
    if j < |data| {
      if IsLevelRow(data[j]) {
        Tbl2Count(data, j + 1, FirstCell(data[j]));
      } else {
        Tbl2Count(data, j + 1, level);
      }
    }
  }

  /** Every row is accounted for: the two tables and the level rows add up to the
      input. */
  lemma RowsAccounted(data: seq<seq<string>>)
    requires NonEmptyFrom(data, 0)
    ensures var t := ParseDataSpec(data).value;
      |t.tbl1| + |t.tbl2| + LevelRows(data, Cut(data)) == |data|
  {
    Tbl2Count(data, Cut(data), "");
  }

  /** A "Lane" row is emitted with the current level as its only cell: the "Level"
      it is renamed to never reaches the second table. */
  lemma LaneRowTakesLevel(data: seq<seq<string>>, j: nat, level: string)
    requires j < |data| && NonEmptyFrom(data, j) && data[j] == ["Lane"]
    ensures Tbl2At(data, j, level) == [[level]] + Tbl2At(data, j + 1, level)
  {
    assert FirstCell(data[j]) == "Level";
    assert [level] + data[j][1..] == [level];
  }

  /** Rows read from a file always have a first cell, so parsing them never raises. */
  lemma ReadDataParses(lines: seq<string>)
    ensures ParseDataSpec(ReadFileSpec(lines)).Ok?
  {
    ReadRowsWellFormed(lines);
  }

  /** One row after "Total": a "Lane" first cell is renamed "Level"; a single cell
      other than "Level" becomes the level, any other row is appended with its first
      cell replaced by the level. What is left to emit is unchanged. */
  method SecondTableStep(data: seq<seq<string>>, i: nat, level: string, tbl2: seq<seq<string>>)
    returns (newLevel: string, newTbl2: seq<seq<string>>)
    requires i < |data| && |data[i]| > 0
    ensures NonEmptyFrom(data, i + 1) ==>
      NonEmptyFrom(data, i) && newTbl2 + Tbl2At(data, i + 1, newLevel) == tbl2 + Tbl2At(data, i, level)
  {
    var line := data[i];
    if line[0] == "Lane" {
      line := line[0 := "Level"];
    }
    if |line| == 1 && line[0] != "Level" {
      newLevel, newTbl2 := line[0], tbl2;
    } else {
      line := line[0 := level];
      assert line == [level] + data[i][1..];
      newLevel, newTbl2 := level, tbl2 + [line];
    }
    if NonEmptyFrom(data, i + 1) {
      assert NonEmptyFrom(data, i) by {
        assert forall k :: i < k < |data| ==> |data[k]| > 0;
      }
    }
  }

  /** The parsing loop, with its `end` flag and `level` variable. */
  method ParseData(data: seq<seq<string>>) returns (r: Result<Tables>)
    ensures r == ParseDataSpec(data)
  {
    var tbl1: seq<seq<string>> := [];
    var tbl2: seq<seq<string>> := [];
    var end := 0;
    var level := "";
    var i := 0;
    ghost var t := FirstTotal(data);
    while i < |data|
      invariant 0 <= i <= |data| && (end == 0 || end == 1)
      invariant forall k :: 0 <= k < i ==> |data[k]| > 0
      invariant end == 0 ==> tbl1 == data[..i] && tbl2 == [] && level == "" && t >= i
      invariant end == 1 ==> t < i && tbl1 == data[..t + 1]
      invariant end == 1 && NonEmptyFrom(data, i) ==> tbl2 + Tbl2At(data, i, level) == Tbl2At(data, t + 1, "")
      decreases |data| - i
    {
      var line := data[i];
      if |line| == 0 {
        assert ParseDataSpec(data) == Err(IndexError("list index out of range")) by {
          assert |data[i]| == 0;
          assert !NonEmptyFrom(data, 0);
        }
        return Err(IndexError("list index out of range"));
      }
      if end == 0 {
        assert data[..i + 1] == data[..i] + [line];
        tbl1 := tbl1 + [line];
        if line[0] == "Total" {
          assert IsTotal(data[i]) && t == i;
          end := 1;
        }
      } else {
        level, tbl2 := SecondTableStep(data, i, level, tbl2);
      }
      i := i + 1;
    }
    r := Ok(Tables(tbl1, tbl2));
    assert r == ParseDataSpec(data) by {
      assert data[..i] == data;
      assert NonEmptyFrom(data, 0);
      if end == 0 {
        assert Cut(data) == |data| && tbl1 == data[..Cut(data)];
        assert Tbl2At(data, |data|, "") == [];
      } else {
        assert Cut(data) == t + 1;
        assert NonEmptyFrom(data, i);
        assert Tbl2At(data, i, level) == [];
        assert tbl2 + [] == tbl2;
        assert tbl2 == Tbl2At(data, Cut(data), "");
      }
      assert ParseDataSpec(data) == Ok(Tables(data[..Cut(data)], Tbl2At(data, Cut(data), "")));
    }
  }

  // ---------------------------------------------------------------------------------
  // write_table

  /** The header line: the three prefix column names, then the table's first row. */
  function HeaderLine(first: seq<string>): string
  {
    Join(["file_name", "runID", "run_date"] + first, "\t") + "\n"
  }

  /** A body line: the file name, run ID and date, then the row. */
  function BodyLine(fileName: string, runID: string, date: string, row: seq<string>): string
  {
    Join([fileName, runID, date] + row, "\t") + "\n"
  }

  /** `write_table(fh, tbl, file_name, runID, date, header)`: the lines written, or the
      IndexError of a header asked of an empty table. */
  function TableLines(tbl: seq<seq<string>>, fileName: string, runID: string, date: string, header: bool)
    : (r: Result<seq<string>>)
    ensures r.Err? <==> header && tbl == []
    ensures r.Ok? ==> |r.value| == (if tbl == [] then 0 else |tbl| - 1) + (if header then 1 else 0)
    ensures r.Ok? && header ==> r.value[0] == HeaderLine(tbl[0])
    ensures r.Ok? ==> forall k :: 1 <= k < |tbl| ==>
      r.value[k - 1 + (if header then 1 else 0)] == BodyLine(fileName, runID, date, tbl[k])
  {
    if header && tbl == [] then Err(IndexError("list index out of range"))
    else
      var head := if header then [HeaderLine(tbl[0])] else [];
      var body := if tbl == [] then [] else
        seq(|tbl| - 1, k requires 0 <= k < |tbl| - 1 => BodyLine(fileName, runID, date, tbl[k + 1]));
      Ok(head + body)
  }

  /** With no tab in the prefix or the cells, a body line read back gives the prefix
      and the row. */
  lemma BodyLineFields(fileName: string, runID: string, date: string, row: seq<string>)
    requires '\t' !in fileName && '\t' !in runID && '\t' !in date
    requires forall c :: 0 <= c < |row| ==> '\t' !in row[c]
    ensures var line := BodyLine(fileName, runID, date, row);
      Split(line[..|line| - 1], '\t') == [fileName, runID, date] + row
  {
    var fields := [fileName, runID, date] + row;
    var line := BodyLine(fileName, runID, date, row);
    assert line[..|line| - 1] == Join(fields, "\t");
    assert forall c :: 0 <= c < |fields| ==> '\t' !in fields[c] by {
      forall c | 0 <= c < |fields| ensures '\t' !in fields[c] {
        if c >= 3 {
          assert fields[c] == row[c - 3];
        }
      }
    }
    SplitJoin(fields, '\t');
  }

  /** The writing loop: the header if asked, then one line per row after the first. */
  method WriteTable(tbl: seq<seq<string>>, fileName: string, runID: string, date: string, header: bool)
    returns (r: Result<seq<string>>)
    ensures r == TableLines(tbl, fileName, runID, date, header)
  {
    var lines: seq<string> := [];
    if header {
      if tbl == [] {
        return Err(IndexError("list index out of range"));
      }
      lines := lines + [Join(["file_name", "runID", "run_date"] + tbl[0], "\t") + "\n"];
    }
    ghost var head := lines;
    var rest := if tbl == [] then [] else tbl[1..];
    var k := 0;
    while k < |rest|
      invariant 0 <= k <= |rest|
      invariant |lines| == |head| + k && lines[..|head|] == head
      invariant forall j :: 0 <= j < k ==> lines[|head| + j] == BodyLine(fileName, runID, date, rest[j])
      decreases |rest| - k
    {
      lines := lines + [Join([fileName, runID, date] + rest[k], "\t") + "\n"];
      k := k + 1;
    }
    r := Ok(lines);
    assert TableLines(tbl, fileName, runID, date, header).Ok?;
    assert lines == TableLines(tbl, fileName, runID, date, header).value;
  }

  // ---------------------------------------------------------------------------------
  // main

  /** What the two output files hold, and the exception that stopped the run, if any. */
  datatype Output = Output(out1: seq<string>, out2: seq<string>, err: Option<Error>)

  /** One input file's run ID, date and tables. */
  datatype FileTables = FileTables(runID: string, date: string, tables: Tables)

  /** The checks and parsing of one input file. */
  function ProcessFile(fileName: string, isFile: string -> bool, contents: string -> seq<string>)
    : (r: Result<FileTables>)
    ensures r.Ok? ==> isFile(fileName)
  {
    if !isFile(fileName) then Err(AssertionError("Cannot find: \"" + fileName + "\""))
    else
      match ParseFileName(fileName)
      case Err(e) => Err(e)
      case Ok(x) =>
        match ParseDataSpec(ReadFileSpec(contents(fileName)))
        case Err(e) => Err(e)
        case Ok(t) => Ok(FileTables(x[0], x[1], t))
  }

  /** The loop of `main` from file `i` on, with `header` still to be written when it is
      true and what the output files already hold. */
  function SummaryFrom(files: seq<string>, i: nat, header: bool, isFile: string -> bool,
                       contents: string -> seq<string>, out1: seq<string>, out2: seq<string>): Output
    requires i <= |files|
    decreases |files| - i
  {
    if i == |files| then Output(out1, out2, None)
    else
      match ProcessFile(files[i], isFile, contents)
      case Err(e) => Output(out1, out2, Some(e))
      case Ok(ft) =>
        match TableLines(ft.tables.tbl1, files[i], ft.runID, ft.date, header)
        case Err(e) => Output(out1, out2, Some(e))
        case Ok(w1) =>
          match TableLines(ft.tables.tbl2, files[i], ft.runID, ft.date, header)
          case Err(e) => Output(out1 + w1, out2, Some(e))
          case Ok(w2) => SummaryFrom(files, i + 1, false, isFile, contents, out1 + w1, out2 + w2)
  }

  /** `main(uargs)` on the list of table files: both output files start empty and the
      header is written with the first file. */
  function SummarySpec(files: seq<string>, isFile: string -> bool, contents: string -> seq<string>): Output
  {
    SummaryFrom(files, 0, true, isFile, contents, [], [])
  }

  /** The body lines the first tables of files `i` on contribute. */
  function BodyCount(files: seq<string>, i: nat, isFile: string -> bool, contents: string -> seq<string>): nat
    requires i <= |files|
    decreases |files| - i
  {
    if i == |files| then 0
    else
      var r := ProcessFile(files[i], isFile, contents);
      var n := if r.Err? || r.value.tables.tbl1 == [] then 0 else |r.value.tables.tbl1| - 1;
      n + BodyCount(files, i + 1, isFile, contents)
  }

  /** A run that finishes writes one header line to the first output file, whatever the
      number of input files, and otherwise the body lines of every file's first table. */
  lemma {:induction false} OneHeaderLine(files: seq<string>, i: nat, header: bool, isFile: string -> bool,
                                         contents: string -> seq<string>, out1: seq<string>, out2: seq<string>)
    requires i <= |files|
    requires SummaryFrom(files, i, header, isFile, contents, out1, out2).err.None?
    ensures |SummaryFrom(files, i, header, isFile, contents, out1, out2).out1|
      == |out1| + (if header && i < |files| then 1 else 0) + BodyCount(files, i, isFile, contents)
    decreases |files| - i
  {
    if i < |files| {
      var ft := ProcessFile(files[i], isFile, contents).value;
      var w1 := TableLines(ft.tables.tbl1, files[i], ft.runID, ft.date, header).value;
      var w2 := TableLines(ft.tables.tbl2, files[i], ft.runID, ft.date, header).value;
      OneHeaderLine(files, i + 1, false, isFile, contents, out1 + w1, out2 + w2);
    }
  }

  /** `main`: for each file, its checks, reading, parsing and the two writes; the
      header flag is cleared after the first file. */
  method Summarize(files: seq<string>, isFile: string -> bool, contents: string -> seq<string>)
    returns (out: Output)
    ensures out == SummarySpec(files, isFile, contents)
  {
    var out1: seq<string> := [];
    var out2: seq<string> := [];
    var header := true;
    var i := 0;
    while i < |files|
      invariant 0 <= i <= |files|
      invariant SummarySpec(files, isFile, contents) == SummaryFrom(files, i, header, isFile, contents, out1, out2)
      decreases |files| - i
    {
      var fileName := files[i];
      if !isFile(fileName) {
        return Output(out1, out2, Some(AssertionError("Cannot find: \"" + fileName + "\"")));
      }
      var x := ParseFileName(fileName);
      if x.Err? {
        return Output(out1, out2, Some(x.error));
      }
      var runID, date := x.value[0], x.value[1];
      var data := ReadFile(contents(fileName));
      var tables := ParseData(data);
      if tables.Err? {
        return Output(out1, out2, Some(tables.error));
      }
      var w1 := WriteTable(tables.value.tbl1, fileName, runID, date, header);
      if w1.Err? {
        return Output(out1, out2, Some(w1.error));
      }
      out1 := out1 + w1.value;
      var w2 := WriteTable(tables.value.tbl2, fileName, runID, date, header);
      if w2.Err? {
        return Output(out1, out2, Some(w2.error));
      }
      out2 := out2 + w2.value;
      header := false;
      i := i + 1;
    }
    out := Output(out1, out2, None);
  }
}
