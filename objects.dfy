/** lib/gasicBatch/objects.py: the older `metaFile` class. It checks the database kind
    and its required column, yields the accession of each row, and sends one download
    request per stage.

    The table is loaded by the `readCsv` parameter, as in the newer class. The requests
    are the URLs sent, in order; their responses are only printed, so they are not
    modelled. */
module Objects {
  import opened Wrappers
  import opened PyStr
  import opened MetaTable
  import opened MgRastId

  /** The table object after `metaFile.__init__` succeeded. */
  datatype ObjMetaFile = ObjMetaFile(fileName: Option<string>, fileObject: Option<string>,
                                     seqDB: string, stages: seq<string>, tbl: Table)

  const BadSeqDB: string := "seqDB must be \"MGRAST\" or \"SRA\""
  const NoMgRastId: string := "MGRAST metaFile does not have \"id\" column"
  const NoSraFtp: string := "SRA metaFile does not have \"ftp\" column"

  /** The column a database kind requires. */
  function RequiredColumn(seqDB: string): string
  {
    if seqDB == "MGRAST" then "id" else "ftp"
  }

  /** `metaFile(fileName, fileObject, seqDB='MGRAST', stages=[150, 100])`: the stages are
      stringified (a TypeError escapes), then the database kind is checked, then the table
      is loaded, then the kind's column is required. */
  function NewObjMetaFile(fileName: Option<string>, fileObject: Option<string>,
                          readCsv: CsvSource -> Table, seqDB: string := "MGRAST",
                          stages: StagesArg := DefaultStages): (r: Result<ObjMetaFile>)
    ensures stages.NotIterable? ==> r == Err(StringifyStages(stages).error)
    ensures !stages.NotIterable? && seqDB != "MGRAST" && seqDB != "SRA" ==> r == Err(IOError(BadSeqDB))
    ensures (!stages.NotIterable? && (seqDB == "MGRAST" || seqDB == "SRA") && fileName.None? && fileObject.None?
             ==> r == Err(IOError("Provide either fileName or fileObject")))
    ensures r.Ok? <==> (!stages.NotIterable? && (seqDB == "MGRAST" || seqDB == "SRA")
                        && (fileName.Some? || fileObject.Some?)
                        && RequiredColumn(seqDB) in LoadTable(fileName, fileObject, readCsv).value.columns)
    ensures r.Ok? ==> r.value == ObjMetaFile(fileName, fileObject, seqDB, StringifyStages(stages).value,
                                             LoadTable(fileName, fileObject, readCsv).value)
    ensures (r.Err? && !stages.NotIterable? && (seqDB == "MGRAST" || seqDB == "SRA")
             && (fileName.Some? || fileObject.Some?)
             ==> r == Err(IOError(if seqDB == "MGRAST" then NoMgRastId else NoSraFtp)))
  {
    match StringifyStages(stages)
    case Err(e) => Err(e)
    case Ok(st) =>
      if seqDB != "MGRAST" && seqDB != "SRA" then Err(IOError(BadSeqDB))
      else
        match LoadTable(fileName, fileObject, readCsv)
        case Err(e) => Err(e)
        case Ok(t) =>
          var checked := if seqDB == "MGRAST" then RequireColumn(t, "id", NoMgRastId)
                         else RequireColumn(t, "ftp", NoSraFtp);
          match checked
          case Err(e) => Err(e)
          case Ok(_) => Ok(ObjMetaFile(fileName, fileObject, seqDB, st, t))
  }

  /** The database kind is checked before any table is read: a wrong kind fails the same
      way whatever the file and its contents. */
  lemma SeqDBCheckedBeforeLoad(fileName: Option<string>, fileObject: Option<string>,
                               readCsv: CsvSource -> Table, fileName': Option<string>,
                               fileObject': Option<string>, readCsv': CsvSource -> Table,
                               seqDB: string, stages: StagesArg)
    requires seqDB != "MGRAST" && seqDB != "SRA"
    ensures NewObjMetaFile(fileName, fileObject, readCsv, seqDB, stages)
         == NewObjMetaFile(fileName', fileObject', readCsv', seqDB, stages)
  {
  }

  /** One pass of `iterByRow()`'s loop: the row's id must match the accession pattern
      (ValueError otherwise), and group 1 is yielded. */
  function IdStep(row: map<string, string>): (r: Result<string>)
    ensures r.Ok? <==> "id" in row && MatchId(row["id"]).Some?
    ensures r.Ok? ==> r.value <= row["id"] && |r.value| >= 9
    ensures "id" !in row ==> r == Err(KeyError("id"))
    ensures "id" in row && MatchId(row["id"]).None? ==> r == Err(NotMgRastId(row["id"]))
  {
    if "id" !in row then Err(KeyError("id"))
    else
      match MatchId(row["id"])
      case None => Err(NotMgRastId(row["id"]))
      case Some(g) => Ok(g)
  }

  /** Each row's loop pass, in table order. */
  function IdSteps(rows: seq<map<string, string>>): (steps: seq<Result<string>>)
    ensures |steps| == |rows|
  {
    seq(|rows|, j requires 0 <= j < |rows| => IdStep(rows[j]))
  }

  /** `iterByRow()` over a loaded table: accessions in table order until a row fails. */
  function IterByRowSpec(m: ObjMetaFile): Iteration<string>
  {
    RunFrom(IdSteps(m.tbl.rows), 0)
  }

  /** A yielded accession is a prefix of its row's id and is its own match: extracting
      it again changes nothing. */
  lemma YieldedIsAccession(m: ObjMetaFile, k: nat)
    requires k < |IterByRowSpec(m).yielded|
    ensures var y := IterByRowSpec(m).yielded[k];
      "id" in m.tbl.rows[k] && y <= m.tbl.rows[k]["id"] && MatchId(y) == Some(y)
  {
    var it := IterByRowSpec(m);
    var steps := IdSteps(m.tbl.rows);
    assert steps[k] == Ok(it.yielded[k]);
    var id := m.tbl.rows[k]["id"];
    MatchIdIdempotent(id);
  }

  /** Text after the accession is dropped: a row whose id is an accession followed by
      anything yields the accession alone. */
  lemma TrailingTextDropped(row: map<string, string>, g: string, rest: string)
    requires MatchId(g) == Some(g) && "id" in row && row["id"] == g + rest
    ensures IdStep(row) == Ok(g)
  {
    MatchIgnoresSuffix(g, rest);
  }

  /** `iterByRow()` run to its end: the accessions yielded, then the exception that
      stopped it, if any. */
  method IterByRow(m: ObjMetaFile) returns (ids: seq<string>, stop: Option<Error>)
    ensures ids == IterByRowSpec(m).yielded && stop == IterByRowSpec(m).stop
  {
    var rows := m.tbl.rows;
    ghost var steps := IdSteps(rows);
    ids := [];
    var i := 0;
    while i < |rows|
      invariant 0 <= i <= |rows|
      invariant IterByRowSpec(m) == Prepend(ids, RunFrom(steps, i))
      decreases |rows| - i
    {
      var r := IdStep(rows[i]);
      if r.Err? {
        RunFromRaises(steps, ids, i);
        return ids, Some(r.error);
      }
      RunFromYields(steps, ids, i);
      ids := ids + [r.value];
      i := i + 1;
    }
    assert ids + [] == ids;
    stop := None;
  }

  /** The request URL of one stage. */
  function DownloadUrl(ID: string, stage: string): string
  {
    ApiBase + ID + "?stage=" + stage
  }

  /** Different stages of one metagenome are requested at different URLs. */
  lemma DownloadUrlsDistinct(ID: string, a: string, b: string)
    requires a != b
    ensures DownloadUrl(ID, a) != DownloadUrl(ID, b)
  {
    var n := |ApiBase| + |ID| + 7;
    assert DownloadUrl(ID, a)[n..] == a;
    assert DownloadUrl(ID, b)[n..] == b;
  }

  /** `download(ID)`: one request per stage, in stage order. A missing ID fails the
      first concatenation, so it raises only when there is a stage to try. */
  method Download(m: ObjMetaFile, ID: Option<string>) returns (requests: seq<string>, err: Option<Error>)
    ensures err.Some? <==> ID.None? && |m.stages| > 0
    ensures err.Some? ==> err.value == TypeError("cannot concatenate 'str' and 'NoneType' objects")
    ensures err.Some? ==> requests == []
    ensures err.None? ==> (|requests| == |m.stages|
      && forall k :: 0 <= k < |m.stages| ==> requests[k] == DownloadUrl(ID.value, m.stages[k]))
  {
    requests := [];
    err := None;
    var i := 0;
    while i < |m.stages|
      invariant 0 <= i <= |m.stages|
      invariant i > 0 ==> ID.Some?
      invariant |requests| == i
      invariant forall k :: 0 <= k < i ==> requests[k] == DownloadUrl(ID.value, m.stages[k])
      decreases |m.stages| - i
    {
      if ID.None? {
        return [], Some(TypeError("cannot concatenate 'str' and 'NoneType' objects"));
      }
      var url := ApiBase + ID.value + "?stage=" + m.stages[i];
      requests := requests + [url];
      i := i + 1;
    }
  }
}
