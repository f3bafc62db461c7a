/** What lib/gasicBatch/MetaFile.py and lib/gasicBatch/objects.py both do when they are
    built: turn the given stages into strings and load the metadata table with pandas.
    `pd.read_csv` is the `readCsv` parameter; a table is its column names and its rows,
    each row a map from column name to cell text. */
module MetaTable {
  import opened Wrappers
  import opened PyStr

  /** One element of a `stages` argument: a number such as 150, or a string. */
  datatype StageValue = StageInt(n: int) | StageText(s: string)

  /** A `stages` argument: something that cannot be iterated (None, a number), a list,
      or a string (whose characters are what a loop over it yields). */
  datatype StagesArg = NotIterable(typeName: string) | Items(items: seq<StageValue>) | Text(s: string)

  /** Where `pd.read_csv` reads from: a path, or an open file object. */
  datatype CsvSource = Path(name: string) | Stream(handle: string)

  datatype Table = Table(columns: seq<string>, rows: seq<map<string, string>>)

  /** The default stages of both metadata classes, `[150, 100]`. */
  const DefaultStages: StagesArg := Items([StageInt(150), StageInt(100)])

  /** `str(x)` for one stage. */
  function StageString(v: StageValue): string
  {
    match v
    case StageInt(n) => IntToString(n)
    case StageText(s) => s
  }

  /** `[str(x) for x in stages]`, including the TypeError of a non-iterable argument. */
  function StringifyStages(stages: StagesArg): (r: Result<seq<string>>)
    ensures r.Err? <==> stages.NotIterable?
    ensures r.Err? ==> r.error == TypeError("'" + stages.typeName + "' object is not iterable")
    ensures stages.Items? ==> (|r.value| == |stages.items|
      && forall i :: 0 <= i < |stages.items| ==> r.value[i] == StageString(stages.items[i]))
    ensures stages.Text? ==> (|r.value| == |stages.s|
      && forall i :: 0 <= i < |stages.s| ==> r.value[i] == [stages.s[i]])
  {
    match stages
    case NotIterable(t) => Err(TypeError("'" + t + "' object is not iterable"))
    case Items(xs) => Ok(seq(|xs|, i requires 0 <= i < |xs| => StageString(xs[i])))
    case Text(s) => Ok(seq(|s|, i requires 0 <= i < |s| => [s[i]]))
  }

  /** A stage given as a non-negative number becomes its decimal digits, which read back
      as that number. */
  lemma StageNumberReadsBack(n: nat)
    ensures var s := StageString(StageInt(n));
      (forall i :: 0 <= i < |s| ==> IsDigit(s[i])) && DigitsValue(s) == n
  {
    NatToStringValue(n);
  }

  /** The default stages become "150" and "100". */
  lemma DefaultStagesStrings()
    ensures StringifyStages(DefaultStages) == Ok(["150", "100"])
  {
    assert NatToString(150) == "150" by {
      assert NatToString(15) == "15";
    }
    assert NatToString(100) == "100" by {
      assert NatToString(10) == "10";
    }
    var r := StringifyStages(DefaultStages).value;
    assert |r| == 2;
    assert r[0] == StageString(StageInt(150)) == IntToString(150);
    assert r[1] == StageString(StageInt(100)) == IntToString(100);
    assert r == ["150", "100"];
  }

  /** Loading the table: `fileName` when given, else `fileObject`, else IOError. */
  function LoadTable(fileName: Option<string>, fileObject: Option<string>,
                     readCsv: CsvSource -> Table): (r: Result<Table>)
    ensures r.Err? <==> fileName.None? && fileObject.None?
    ensures r.Err? ==> r.error == IOError("Provide either fileName or fileObject")
    ensures fileName.Some? ==> r == Ok(readCsv(Path(fileName.value)))
    ensures fileName.None? && fileObject.Some? ==> r == Ok(readCsv(Stream(fileObject.value)))
  {
    if fileName.Some? then Ok(readCsv(Path(fileName.value)))
    else if fileObject.Some? then Ok(readCsv(Stream(fileObject.value)))
    else Err(IOError("Provide either fileName or fileObject"))
  }

  /** `tbl[col]` raising on a missing column, as the column checks use it. */
  function RequireColumn(t: Table, col: string, message: string): (r: Result<Table>)
    ensures r.Ok? <==> col in t.columns
    ensures r.Ok? ==> r.value == t
    ensures r.Err? ==> r.error == IOError(message)
  {
    if col in t.columns then Ok(t) else Err(IOError(message))
  }
}
