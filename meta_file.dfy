/** lib/gasicBatch/MetaFile.py: the MG-RAST metadata table (`MetaFile_MGRAST`), the
    rows it yields (`MetaFile_MGRAST_row`), the platform a row's sequencing method names,
    and the download of a metagenome's reads stage by stage.

    The HTTP request is the `server` parameter, from URL to response. A 200 response
    either decompresses completely, leaving a file of some size, or fails part way,
    leaving the bytes written before the failure. The file system is a map from file
    name to size. The reads parser is the `parse` parameter, from file name and format
    to the records' sequences. */
module MetaFile {
  import opened Wrappers
  import opened PyStr
  import opened MetaTable
  import opened MgRastId

  /** The table object after `MetaFile_MGRAST.__init__` succeeded. */
  datatype MetaFileMgRast = MetaFileMgRast(fileName: Option<string>, fileObject: Option<string>,
                                           stages: Option<seq<string>>, tbl: Table)

  /** `MetaFile.__init__`'s stages: the strings of the given stages, or None when they
      cannot be iterated (the TypeError is caught). */
  function NormaliseStages(stages: StagesArg): (r: Option<seq<string>>)
    ensures r.None? <==> stages.NotIterable?
    ensures r.Some? ==> StringifyStages(stages) == Ok(r.value)
  {
    match StringifyStages(stages)
    case Err(_) => None
    case Ok(s) => Some(s)
  }

  const NoIdColumn: string := "MGRAST metaFile does not have \"id\" column"

  /** `MetaFile_MGRAST(fileName, fileObject, stages=[150, 100])`: the stages, the table
      load and `checkFile`. Stages never make construction fail. */
  function NewMetaFileMgRast(fileName: Option<string>, fileObject: Option<string>,
                             readCsv: CsvSource -> Table, stages: StagesArg := DefaultStages): (r: Result<MetaFileMgRast>)
    ensures r.Ok? <==> (fileName.Some? || fileObject.Some?) && "id" in LoadTable(fileName, fileObject, readCsv).value.columns
    ensures r.Ok? ==> r.value == MetaFileMgRast(fileName, fileObject, NormaliseStages(stages),
                                                LoadTable(fileName, fileObject, readCsv).value)
    ensures fileName.None? && fileObject.None? ==> r == Err(IOError("Provide either fileName or fileObject"))
    ensures (fileName.Some? || fileObject.Some?) && r.Err? ==> r == Err(IOError(NoIdColumn))
  {
    var st := NormaliseStages(stages);
    match LoadTable(fileName, fileObject, readCsv)
    case Err(e) => Err(e)
    case Ok(t) =>
      match RequireColumn(t, "id", NoIdColumn)
      case Err(e) => Err(e)
      case Ok(_) => Ok(MetaFileMgRast(fileName, fileObject, st, t))
  }

  /** The platform a sequencing-method text names, searched case-insensitively in a fixed
      order: "454" or "pyro", then "illumina", then "sanger". */
  function Classify(seqMethod: string): (p: Option<string>)
    ensures var m := Lower(seqMethod);
      && (p == Some("454") <==> Contains(m, "454") || Contains(m, "pyro"))
      && (p == Some("illumina") <==> !Contains(m, "454") && !Contains(m, "pyro") && Contains(m, "illumina"))
      && (p == Some("sanger") <==> !Contains(m, "454") && !Contains(m, "pyro") && !Contains(m, "illumina")
                                    && Contains(m, "sanger"))
      && (p.None? <==> !Contains(m, "454") && !Contains(m, "pyro") && !Contains(m, "illumina")
                       && !Contains(m, "sanger"))
  {
    var m := Lower(seqMethod);
    if Contains(m, "454") || Contains(m, "pyro") then Some("454")
    else if Contains(m, "illumina") then Some("illumina")
    else if Contains(m, "sanger") then Some("sanger")
    else None
  }

  /** `getPlatform()`: KeyError, with the extra text, when the row has no seq_method. */
  function GetPlatform(row: map<string, string>): (r: Result<Option<string>>)
    ensures r.Err? <==> "seq_method" !in row
    ensures r.Err? ==> r.error == KeyError("seq_method. \"seq_meth\" column not in metadata file!")
    ensures r.Ok? ==> r.value == Classify(row["seq_method"])
  {
    if "seq_method" in row then Ok(Classify(row["seq_method"]))
    else Err(KeyError("seq_method. \"seq_meth\" column not in metadata file!"))
  }

  /** A text without one of the characters of `sub` does not contain it. */
  lemma MissingCharNotContained(s: string, sub: string, k: nat)
    requires k < |sub| && sub[k] !in s
    ensures !Contains(s, sub)
  {
    forall j ensures !OccursAt(s, sub, j) {
      if 0 <= j && j + |sub| <= |s| {
        assert s[j..j + |sub|][k] == s[j + k];
      }
    }
  }

  /** Lower-casing twice is lower-casing once. */
  lemma LowerIdempotent(s: string)
    ensures Lower(Lower(s)) == Lower(s)
  {
    assert forall i :: 0 <= i < |s| ==> Lower(Lower(s))[i] == Lower(s)[i];
  }

  /** Classification ignores case: a text and its lower-cased form name the same platform. */
  lemma ClassifyIgnoresCase(seqMethod: string)
    ensures Classify(seqMethod) == Classify(Lower(seqMethod))
  {
    LowerIdempotent(seqMethod);
  }

  /** Lower-casing distributes over concatenation. */
  lemma LowerConcat(a: string, b: string)
    ensures Lower(a + b) == Lower(a) + Lower(b)
  {
    assert forall i :: 0 <= i < |a + b| ==> Lower(a + b)[i] == (Lower(a) + Lower(b))[i];
  }

  /** A method text mentioning 454 anywhere is a 454 run, whatever else it names. */
  lemma ClassifyMentions454(a: string, b: string)
    ensures Classify(a + "454" + b) == Some("454")
  {
    LowerConcat(a + "454", b);
    LowerConcat(a, "454");
    assert Lower("454") == "454";
    ContainsMiddle(Lower(a), "454", Lower(b));
  }

  /** "pyro" is found in any letter case, and also makes a 454 run. */
  lemma ClassifyMentionsPyro(a: string, w: string, b: string)
    requires Lower(w) == "pyro"
    ensures Classify(a + w + b) == Some("454")
  {
    LowerConcat(a + w, b);
    LowerConcat(a, w);
    ContainsMiddle(Lower(a), "pyro", Lower(b));
  }

  /** A text without one of the characters of each platform word names no platform. */
  lemma ClassifyUnknown(seqMethod: string)
    requires '4' !in Lower(seqMethod) && 'y' !in Lower(seqMethod)
    requires 'l' !in Lower(seqMethod) && 'g' !in Lower(seqMethod)
    ensures Classify(seqMethod) == None
  {
    var m := Lower(seqMethod);
    MissingCharNotContained(m, "454", 0);
    MissingCharNotContained(m, "pyro", 1);
    MissingCharNotContained(m, "illumina", 1);
    MissingCharNotContained(m, "sanger", 3);
  }

  /** What `MetaFile_MGRAST_row.__init__` stores: the raw id, the row, its index, the
      table's stages and the platform. */
  datatype RowData = RowData(ID: Option<string>, row: map<string, string>, rowIndex: nat,
                             stages: Option<seq<string>>, platform: Option<string>)

  /** One pass of `iterByRow()`'s loop over row `index`: the id is checked against the
      accession pattern (ValueError otherwise), then the row object is built, which reads
      the platform (KeyError without seq_method). The row object keeps the raw id; group 1
      is computed and dropped. */
  function RowStep(row: map<string, string>, index: nat, stages: Option<seq<string>>): (r: Result<RowData>)
    ensures r.Ok? <==> "id" in row && MatchId(row["id"]).Some? && "seq_method" in row
    ensures r.Ok? ==> r.value == RowData(Some(row["id"]), row, index, stages, Classify(row["seq_method"]))
    ensures "id" in row && MatchId(row["id"]).None? ==> r == Err(NotMgRastId(row["id"]))
    ensures "id" in row && MatchId(row["id"]).Some? && "seq_method" !in row ==> r == Err(GetPlatform(row).error)
  {
    if "id" !in row then Err(KeyError("id"))
    else if MatchId(row["id"]).None? then Err(NotMgRastId(row["id"]))
    else
      match GetPlatform(row)
      case Err(e) => Err(e)
      case Ok(p) => Ok(RowData(Some(row["id"]), row, index, stages, p))
  }

  /** Each row's loop pass, in table order. */
  function RowSteps(rows: seq<map<string, string>>, stages: Option<seq<string>>): (steps: seq<Result<RowData>>)
    ensures |steps| == |rows|
  {
    seq(|rows|, j requires 0 <= j < |rows| => RowStep(rows[j], j, stages))
  }

  /** `iterByRow()` over a loaded table: rows are yielded in table order until one
      fails, and that row's error ends the iteration. */
  function IterByRowSpec(m: MetaFileMgRast): Iteration<RowData>
  {
    RunFrom(RowSteps(m.tbl.rows, m.stages), 0)
  }

  /** A table whose rows all carry a well-formed id and a seq_method is iterated to the
      end, one row object per row. */
  lemma IterByRowComplete(m: MetaFileMgRast)
    requires forall k :: 0 <= k < |m.tbl.rows| ==>
      "id" in m.tbl.rows[k] && MatchId(m.tbl.rows[k]["id"]).Some? && "seq_method" in m.tbl.rows[k]
    ensures IterByRowSpec(m).stop.None?
    ensures |IterByRowSpec(m).yielded| == |m.tbl.rows|
  {
  }

  /** The response to one request: its status, and for a 200 the outcome of
      decompressing the body into the output file. */
  datatype Response = Response(status: int, body: Body)
  datatype Body = Decoded(size: nat) | Corrupt(written: nat)

  /** The sizes of the files on disk. */
  type FileSizes = map<string, nat>

  /** What a download attempt leaves: the file it reports (None for the falsy 0), the
      URLs requested in order, and the files afterwards. */
  datatype DlOutcome = DlOutcome(result: Option<string>, requests: seq<string>, files: FileSizes)

  /** An outcome after some earlier requests. */
  function Preceded(earlier: seq<string>, o: DlOutcome): DlOutcome
  {
    DlOutcome(o.result, earlier + o.requests, o.files)
  }

  /** `_dlStage`'s default last iteration. */
  const DefaultLastIter: nat := 9

  /** The URL of a stage's pipeline iteration. */
  function StageUrl(ID: string, stage: string, iteration: nat): string
  {
    ApiBase + ID + "?file=" + stage + "." + NatToString(iteration)
  }

  /** The file a stage's reads are written to, whatever the iteration. */
  function StageFile(ID: string, stage: string): string
  {
    ID + "_stage" + stage + ".fasta"
  }

  /** `_dlStage(stage, ID, iteration, lastIter)` as written: after a failed
      decompression it retries the next iteration (with `lastIter` back at its default),
      ignores what the retry returns, and reports the file if it is non-empty, whichever
      attempt left its bytes there. */
  function DlStageAsWritten(ID: string, stage: string, iteration: nat, lastIter: int,
                            server: string -> Response, files: FileSizes): (o: DlOutcome)
    ensures files.Keys <= o.files.Keys
    ensures iteration > lastIter ==> o == DlOutcome(None, [], files)
    ensures o.result.Some? ==> o.result.value == StageFile(ID, stage)
    ensures o.result.Some? <==> (iteration <= lastIter && server(StageUrl(ID, stage, iteration)).status == 200
      && StageFile(ID, stage) in o.files && o.files[StageFile(ID, stage)] > 0)
    decreases (if lastIter > DefaultLastIter then lastIter else DefaultLastIter) + 1 - iteration
  {
    if iteration > lastIter then DlOutcome(None, [], files)
    else
      var url := StageUrl(ID, stage, iteration);
      var resp := server(url);
      if resp.status != 200 then DlOutcome(None, [url], files)
      else
        var out := StageFile(ID, stage);
        match resp.body
        case Decoded(n) => DlOutcome(if n != 0 then Some(out) else None, [url], files[out := n])
        case Corrupt(w) =>
          var retry := DlStageAsWritten(ID, stage, iteration + 1, DefaultLastIter, server, files[out := w]);
          DlOutcome(if retry.files[out] != 0 then Some(out) else None, [url] + retry.requests, retry.files)
  }

  /** Iteration `k` of a stage answers 200 and decompresses to a non-empty file. */
  predicate GoodAt(server: string -> Response, ID: string, stage: string, k: nat)
  {
    var r := server(StageUrl(ID, stage, k));
    r.status == 200 && r.body.Decoded? && r.body.size > 0
  }

  /** Iteration `k` of a stage answers 200 with a body that fails to decompress. */
  predicate CorruptAt(server: string -> Response, ID: string, stage: string, k: nat)
  {
    var r := server(StageUrl(ID, stage, k));
    r.status == 200 && r.body.Corrupt?
  }

  /** Starting at `iteration`, the retries reach iteration `k` and it delivers. */
  predicate DeliversAt(server: string -> Response, ID: string, stage: string, iteration: nat, k: nat)
  {
    iteration <= k && GoodAt(server, ID, stage, k)
    && forall m: nat :: iteration <= m < k ==> CorruptAt(server, ID, stage, m)
  }

  /** `_dlStage` as evidently intended: a failed decompression makes the result that of
      the retry. Requests go to consecutive iterations, never past `lastIter`, and a
      reported file is the stage's file and is non-empty. */
  function DlStage(ID: string, stage: string, iteration: nat, lastIter: int,
                   server: string -> Response, files: FileSizes): (o: DlOutcome)
    ensures files.Keys <= o.files.Keys
    ensures forall m :: 0 <= m < |o.requests| ==> o.requests[m] == StageUrl(ID, stage, iteration + m)
    ensures iteration + |o.requests| <= (if lastIter + 1 > iteration then lastIter + 1 else iteration)
    ensures o.result.Some? ==> (o.result.value == StageFile(ID, stage)
      && o.result.value in o.files && o.files[o.result.value] > 0)
    decreases lastIter + 1 - iteration
  {
    if iteration > lastIter then DlOutcome(None, [], files)
    else
      var url := StageUrl(ID, stage, iteration);
      var resp := server(url);
      if resp.status != 200 then DlOutcome(None, [url], files)
      else
        var out := StageFile(ID, stage);
        match resp.body
        case Decoded(n) => DlOutcome(if n != 0 then Some(out) else None, [url], files[out := n])
        case Corrupt(w) =>
          var retry := DlStage(ID, stage, iteration + 1, lastIter, server, files[out := w]);
          DlOutcome(retry.result, [url] + retry.requests, retry.files)
  }

  /** The corrected stage download reports a file exactly when some iteration up to
      `lastIter` delivers after corrupt bodies only; what was on disk before plays no part. */
  lemma {:induction false} DlStageDelivers(ID: string, stage: string, iteration: nat, lastIter: int,
                                           server: string -> Response, files: FileSizes)
    ensures DlStage(ID, stage, iteration, lastIter, server, files).result.Some?
      <==> exists k: nat :: k <= lastIter && DeliversAt(server, ID, stage, iteration, k)
    decreases lastIter + 1 - iteration
  {
    var o := DlStage(ID, stage, iteration, lastIter, server, files);
    if iteration <= lastIter {
      var resp := server(StageUrl(ID, stage, iteration));
      if resp.status == 200 && resp.body.Corrupt? {
        var files' := files[StageFile(ID, stage) := resp.body.written];
        DlStageDelivers(ID, stage, iteration + 1, lastIter, server, files');
        assert CorruptAt(server, ID, stage, iteration);
        assert !GoodAt(server, ID, stage, iteration);
        if o.result.Some? {
          var k: nat :| k <= lastIter && DeliversAt(server, ID, stage, iteration + 1, k);
          assert DeliversAt(server, ID, stage, iteration, k);
        } else {
          forall k: nat | k <= lastIter && DeliversAt(server, ID, stage, iteration, k)
            ensures false
          {
            assert DeliversAt(server, ID, stage, iteration + 1, k);
          }
        }
      } else if o.result.Some? {
        assert DeliversAt(server, ID, stage, iteration, iteration);
      } else {
        forall k: nat | k <= lastIter ensures !DeliversAt(server, ID, stage, iteration, k) {
          assert !GoodAt(server, ID, stage, iteration) && !CorruptAt(server, ID, stage, iteration);
        }
      }
    }
  }

  /** Different iterations are requested at different URLs. */
  lemma StageUrlsDistinct(ID: string, stage: string, i: nat, j: nat)
    requires i != j
    ensures StageUrl(ID, stage, i) != StageUrl(ID, stage, j)
  {
    var pre := ApiBase + ID + "?file=" + stage + ".";
    assert StageUrl(ID, stage, i) == pre + NatToString(i);
    assert StageUrl(ID, stage, j) == pre + NatToString(j);
    if StageUrl(ID, stage, i) == StageUrl(ID, stage, j) {
      assert NatToString(i) == (pre + NatToString(i))[|pre|..];
      assert NatToString(j) == (pre + NatToString(j))[|pre|..];
      NatToStringValue(i);
      NatToStringValue(j);
    }
  }

  /** A stage download never requests the same URL twice. */
  lemma DlStageRequestsDistinct(ID: string, stage: string, iteration: nat, lastIter: int,
                                server: string -> Response, files: FileSizes)
    ensures var rs := DlStage(ID, stage, iteration, lastIter, server, files).requests;
      forall a, b :: 0 <= a < b < |rs| ==> rs[a] != rs[b]
  {
    var rs := DlStage(ID, stage, iteration, lastIter, server, files).requests;
    forall a, b | 0 <= a < b < |rs| ensures rs[a] != rs[b] {
      StageUrlsDistinct(ID, stage, iteration + a, iteration + b);
    }
  }

  /** The code as written reports a corrupt file: iteration 1 answers 200 but fails to
      decompress after some bytes, iteration 2 answers 404, and the partial file is
      returned, although no iteration delivered. */
  lemma DlStageAsWrittenReportsPartialFile(ID: string, stage: string, files: FileSizes)
    ensures var server := (url: string) =>
        if url == StageUrl(ID, stage, 1) then Response(200, Corrupt(5)) else Response(404, Decoded(0));
      && DlStageAsWritten(ID, stage, 1, DefaultLastIter, server, files).result == Some(StageFile(ID, stage))
      && DlStage(ID, stage, 1, DefaultLastIter, server, files).result.None?
  {
    var server := (url: string) =>
      if url == StageUrl(ID, stage, 1) then Response(200, Corrupt(5)) else Response(404, Decoded(0));
    StageUrlsDistinct(ID, stage, 1, 2);
    var out := StageFile(ID, stage);
    var retry := DlStageAsWritten(ID, stage, 2, DefaultLastIter, server, files[out := 5]);
    assert retry.files == files[out := 5];
  }

  /** `download()`'s loop from stage `i` on, with the corrected stage download: the
      first stage that delivers ends it. */
  function DownloadFrom(ID: string, stages: seq<string>, i: nat, server: string -> Response,
                        files: FileSizes): (o: DlOutcome)
    requires i <= |stages|
    ensures o.result.Some? ==> exists s :: i <= s < |stages| && o.result.value == StageFile(ID, stages[s])
    decreases |stages| - i
  {
    if i == |stages| then DlOutcome(None, [], files)
    else
      var d := DlStage(ID, stages[i], 1, DefaultLastIter, server, files);
      if d.result.Some? then d
      else
        Preceded(d.requests, DownloadFrom(ID, stages, i + 1, server, d.files))
  }

  /** `download()`'s loop from stage `i` on, with `_dlStage` as written. */
  function DownloadFromAsWritten(ID: string, stages: seq<string>, i: nat, server: string -> Response,
                                 files: FileSizes): (o: DlOutcome)
    requires i <= |stages|
    ensures o.result.Some? ==> exists s :: i <= s < |stages| && o.result.value == StageFile(ID, stages[s])
    decreases |stages| - i
  {
    if i == |stages| then DlOutcome(None, [], files)
    else
      var d := DlStageAsWritten(ID, stages[i], 1, DefaultLastIter, server, files);
      if d.result.Some? then d
      else
        Preceded(d.requests, DownloadFromAsWritten(ID, stages, i + 1, server, d.files))
  }

  /** As written, `download()` succeeds with the partial file of a stage none of whose
      iterations delivers (iteration 1 corrupt, iteration 2 missing), where the corrected
      loop reports no file. */
  lemma DownloadAsWrittenReportsPartialFile(ID: string, stage: string, files: FileSizes)
    ensures var server := (url: string) =>
        if url == StageUrl(ID, stage, 1) then Response(200, Corrupt(5)) else Response(404, Decoded(0));
      && !StageDelivers(server, ID, stage)
      && DownloadFromAsWritten(ID, [stage], 0, server, files).result == Some(StageFile(ID, stage))
      && DownloadFrom(ID, [stage], 0, server, files).result.None?
  {
    var server := (url: string) =>
      if url == StageUrl(ID, stage, 1) then Response(200, Corrupt(5)) else Response(404, Decoded(0));
    DlStageAsWrittenReportsPartialFile(ID, stage, files);
    DlStageDelivers(ID, stage, 1, DefaultLastIter, server, files);
  }

  /** As written, whether a stage reports its file, what it requests and the size it
      leaves behind depend only on the server, not on the files already on disk. */
  lemma {:induction false} DlStageAsWrittenIgnoresFiles(ID: string, stage: string, iteration: nat, lastIter: int,
                                                        server: string -> Response, f1: FileSizes, f2: FileSizes)
    ensures var o1 := DlStageAsWritten(ID, stage, iteration, lastIter, server, f1);
      var o2 := DlStageAsWritten(ID, stage, iteration, lastIter, server, f2);
      && o1.result == o2.result && o1.requests == o2.requests
      && (iteration <= lastIter && server(StageUrl(ID, stage, iteration)).status == 200 ==>
            StageFile(ID, stage) in o1.files && StageFile(ID, stage) in o2.files
            && o1.files[StageFile(ID, stage)] == o2.files[StageFile(ID, stage)])
    decreases (if lastIter > DefaultLastIter then lastIter else DefaultLastIter) + 1 - iteration
  {
    var resp := server(StageUrl(ID, stage, iteration));
    if iteration <= lastIter && resp.status == 200 && resp.body.Corrupt? {
      var out := StageFile(ID, stage);
      var w := resp.body.written;
      DlStageAsWrittenIgnoresFiles(ID, stage, iteration + 1, DefaultLastIter, server, f1[out := w], f2[out := w]);
    }
  }

  /** As written, the stage reports its file: iteration 1 answers 200 and the stage's own
      requests leave a non-empty file (files on disk beforehand play no part). */
  predicate StageReportsAsWritten(server: string -> Response, ID: string, stage: string)
  {
    DlStageAsWritten(ID, stage, 1, DefaultLastIter, server, map[]).result.Some?
  }

  /** As written, the download succeeds exactly when some stage reports its file, and the
      file is that of the first such stage in the given order. */
  lemma {:induction false} DownloadAsWrittenFirstReporting(ID: string, stages: seq<string>, i: nat,
                                                           server: string -> Response, files: FileSizes)
    requires i <= |stages|
    ensures var o := DownloadFromAsWritten(ID, stages, i, server, files);
      (o.result.Some? <==> exists s :: i <= s < |stages| && StageReportsAsWritten(server, ID, stages[s]))
      && (o.result.Some? ==> exists s :: (i <= s < |stages| && StageReportsAsWritten(server, ID, stages[s])
            && o.result.value == StageFile(ID, stages[s])
            && forall t :: i <= t < s ==> !StageReportsAsWritten(server, ID, stages[t])))
    decreases |stages| - i
  {
    if i < |stages| {
      var d := DlStageAsWritten(ID, stages[i], 1, DefaultLastIter, server, files);
      DlStageAsWrittenIgnoresFiles(ID, stages[i], 1, DefaultLastIter, server, files, map[]);
      DownloadAsWrittenFirstReporting(ID, stages, i + 1, server, d.files);
    }
  }

  /** Some iteration of the stage delivers within the default limit. */
  predicate StageDelivers(server: string -> Response, ID: string, stage: string)
  {
    exists k: nat :: k <= DefaultLastIter && DeliversAt(server, ID, stage, 1, k)
  }

  /** The download succeeds exactly when some stage delivers, and the file it reports is
      that of the first such stage in the given order. */
  lemma {:induction false} DownloadFirstDelivering(ID: string, stages: seq<string>, i: nat,
                                                   server: string -> Response, files: FileSizes)
    requires i <= |stages|
    ensures var o := DownloadFrom(ID, stages, i, server, files);
      (o.result.Some? <==> exists s :: i <= s < |stages| && StageDelivers(server, ID, stages[s]))
      && (o.result.Some? ==> exists s :: (i <= s < |stages| && StageDelivers(server, ID, stages[s])
            && o.result.value == StageFile(ID, stages[s])
            && forall t :: i <= t < s ==> !StageDelivers(server, ID, stages[t])))
    decreases |stages| - i
  {
    if i < |stages| {
      var d := DlStage(ID, stages[i], 1, DefaultLastIter, server, files);
      DlStageDelivers(ID, stages[i], 1, DefaultLastIter, server, files);
      DownloadFirstDelivering(ID, stages, i + 1, server, d.files);
      if d.result.Some? {
        assert StageDelivers(server, ID, stages[i]);
      }
    }
  }

  /** The parsed statistics of a reads file; mean, median and deviation are left out. */
  datatype ReadStats = ReadStats(min: nat, max: nat)

  /** The smallest element. */
  function SeqMin(s: seq<nat>): (m: nat)
    requires |s| > 0
    ensures m in s && forall i :: 0 <= i < |s| ==> m <= s[i]
  {
    if |s| == 1 then s[0]
    else
      var r := SeqMin(s[1..]);
      assert forall i :: 1 <= i < |s| ==> s[i] == s[1..][i - 1];
      if s[0] <= r then s[0] else r
  }

  /** The largest element. */
  function SeqMax(s: seq<nat>): (m: nat)
    requires |s| > 0
    ensures m in s && forall i :: 0 <= i < |s| ==> s[i] <= m
  {
    if |s| == 1 then s[0]
    else
      var r := SeqMax(s[1..]);
      assert forall i :: 1 <= i < |s| ==> s[i] == s[1..][i - 1];
      if s[0] >= r then s[0] else r
  }

  /** One pass of `download()`'s loop, after `requests` were sent: the stage's download
      either ends the loop or is followed by the remaining stages. */
  lemma DownloadStep(ID: string, stages: seq<string>, i: nat, server: string -> Response,
                     files: FileSizes, requests: seq<string>, d: DlOutcome)
    requires i < |stages| && d == DlStage(ID, stages[i], 1, DefaultLastIter, server, files)
    ensures Preceded(requests, DownloadFrom(ID, stages, i, server, files))
         == if d.result.Some? then DlOutcome(d.result, requests + d.requests, d.files)
            else Preceded(requests + d.requests, DownloadFrom(ID, stages, i + 1, server, d.files))
  {
    var rest := DownloadFrom(ID, stages, i + 1, server, d.files).requests;
    assert requests + (d.requests + rest) == requests + d.requests + rest;
  }

  /** The loop of `download()`: each stage in turn until one delivers. */
  method TryStages(ID: string, stages: seq<string>, server: string -> Response, files: FileSizes)
    returns (found: Option<string>, requests: seq<string>, files': FileSizes)
    ensures DownloadFrom(ID, stages, 0, server, files) == DlOutcome(found, requests, files')
  {
    requests, files' := [], files;
    var i := 0;
    while i < |stages|
      invariant 0 <= i <= |stages|
      invariant DownloadFrom(ID, stages, 0, server, files) == Preceded(requests, DownloadFrom(ID, stages, i, server, files'))
      decreases |stages| - i
    {
      var d := DlStage(ID, stages[i], 1, DefaultLastIter, server, files');
      DownloadStep(ID, stages, i, server, files', requests, d);
      requests, files' := requests + d.requests, d.files;
      if d.result.Some? {
        return d.result, requests, files';
      }
      i := i + 1;
    }
    assert requests + [] == requests;
    found := None;
  }

  /** One yielded row object. An attribute never set is None. */
  class MetaFileRow {
    const ID: Option<string>
    const row: map<string, string>
    const rowIndex: nat
    const stages: Option<seq<string>>
    const platform: Option<string>
    var readFile: Option<string>
    var readStats: Option<ReadStats>

    /** `MetaFile_MGRAST_row(row, stages, rowIndex)` once the platform is known. */
    constructor (d: RowData)
      ensures Data() == d && readFile.None? && readStats.None?
    {
      ID := d.ID;
      row := d.row;
      rowIndex := d.rowIndex;
      stages := d.stages;
      platform := d.platform;
      readFile := None;
      readStats := None;
    }

    /** What the object was built from. */
    function Data(): RowData
    {
      RowData(ID, row, rowIndex, stages, platform)
    }

    /** `download()`: TypeError without an ID, TypeError when the stages could not be
        iterated; otherwise the stages are tried in order and the first file downloaded
        becomes `readFile`, with 1 returned; 0 when none delivers, `readFile` untouched. */
    method Download(server: string -> Response, files: FileSizes)
      returns (r: Result<int>, requests: seq<string>, files': FileSizes)
      modifies this`readFile
      ensures ID.None? ==> (r == Err(TypeError("ID cannot be None type")) && requests == [] && files' == files
                           && readFile == old(readFile))
      ensures ID.Some? && stages.None? ==> (r == Err(TypeError("'NoneType' object is not iterable"))
                           && requests == [] && files' == files && readFile == old(readFile))
      ensures ID.Some? && stages.Some? ==> var o := DownloadFrom(ID.value, stages.value, 0, server, files);
        && r == Ok(if o.result.Some? then 1 else 0)
        && requests == o.requests && files' == o.files
        && readFile == (if o.result.Some? then o.result else old(readFile))
    {
      requests, files' := [], files;
      if ID.None? {
        return Err(TypeError("ID cannot be None type")), requests, files';
      }
      if stages.None? {
        return Err(TypeError("'NoneType' object is not iterable")), requests, files';
      }
      var found;
      found, requests, files' := TryStages(ID.value, stages.value, server, files);
      if found.Some? {
        readFile := found;
        return Ok(1), requests, files';
      }
      r := Ok(0);
    }

    /** `get_readStats(readFile, fileFormat)`: the explicit file, else the downloaded one
        (AttributeError when there is none); the length of every record is collected, the
        empty list fails in `min`, otherwise the minimum and maximum are stored. */
    method GetReadStats(readFileArg: Option<string>, parse: (string, string) -> seq<string>,
                        fileFormat: string := "fasta")
      returns (r: Result<int>)
      modifies this`readStats
      ensures readFileArg.None? && old(readFile).None? ==> r == Err(AttributeError("readFile"))
      ensures readFileArg.Some? || old(readFile).Some? ==>
        var recs := parse(if readFileArg.Some? then readFileArg.value else old(readFile).value, fileFormat);
        && (r.Ok? <==> |recs| > 0)
        && (r.Ok? ==> r.value == 1)
        && (r.Err? ==> r.error == ValueError("min() arg is an empty sequence"))
        && (|recs| > 0 ==> var lens := seq(|recs|, i requires 0 <= i < |recs| => |recs[i]|);
              && readStats == Some(ReadStats(SeqMin(lens), SeqMax(lens)))
              && (forall i :: 0 <= i < |lens| ==> readStats.value.min <= lens[i] <= readStats.value.max)
              && readStats.value.min in lens && readStats.value.max in lens)
      ensures r.Err? ==> readStats == old(readStats)
    {
      var file: string;
      if readFileArg.Some? {
        file := readFileArg.value;
      } else if readFile.Some? {
        file := readFile.value;
      } else {
        return Err(AttributeError("readFile"));
      }
      var recs := parse(file, fileFormat);
      var seqLens: seq<nat> := [];
      var k := 0;
      while k < |recs|
        invariant 0 <= k <= |recs|
        invariant seqLens == seq(k, i requires 0 <= i < k => |recs[i]|)
      {
        seqLens := seqLens + [|recs[k]|];
        k := k + 1;
      }
      if seqLens == [] {
        return Err(ValueError("min() arg is an empty sequence"));
      }
      assert seqLens == seq(|recs|, i requires 0 <= i < |recs| => |recs[i]|);
      readStats := Some(ReadStats(SeqMin(seqLens), SeqMax(seqLens)));
      r := Ok(1);
    }
  }

  /** One pass of `iterByRow()`'s loop: the id check, then the row object. */
  method NewRow(row: map<string, string>, index: nat, stages: Option<seq<string>>) returns (r: Result<MetaFileRow>)
    ensures r.Err? ==> RowStep(row, index, stages) == Err(r.error)
    ensures r.Ok? ==> fresh(r.value) && RowStep(row, index, stages) == Ok(r.value.Data())
  {
    var step := RowStep(row, index, stages);
    if step.Err? {
      return Err(step.error);
    }
    var o := new MetaFileRow(step.value);
    r := Ok(o);
  }

  /** What each object was built from. */
  function DataOf(objs: seq<MetaFileRow>): (ds: seq<RowData>)
    ensures |ds| == |objs|
  {
    seq(|objs|, k requires 0 <= k < |objs| => objs[k].Data())
  }

  /** One more pass that yields a row object. */
  lemma DataOfYields(steps: seq<Result<RowData>>, objs: seq<MetaFileRow>, o: MetaFileRow, i: nat)
    requires i < |steps| && steps[i] == Ok(o.Data())
    ensures Prepend(DataOf(objs), RunFrom(steps, i)) == Prepend(DataOf(objs + [o]), RunFrom(steps, i + 1))
  {
    RunFromYields(steps, DataOf(objs), i);
    assert DataOf(objs + [o]) == DataOf(objs) + [o.Data()];
  }

  /** `iterByRow()` run to its end: one row object per yielded row, in table order,
      then the exception that stopped it, if any. */
  method IterByRow(m: MetaFileMgRast) returns (objs: seq<MetaFileRow>, stop: Option<Error>)
    ensures stop == IterByRowSpec(m).stop && DataOf(objs) == IterByRowSpec(m).yielded
  {
    var rows := m.tbl.rows;
    ghost var steps := RowSteps(rows, m.stages);
    objs := [];
    var i := 0;
    while i < |rows|
      invariant 0 <= i <= |rows|
      invariant IterByRowSpec(m) == Prepend(DataOf(objs), RunFrom(steps, i))
      decreases |rows| - i
    {
      var r := NewRow(rows[i], i, m.stages);
      if r.Err? {
        RunFromRaises(steps, DataOf(objs), i);
        return objs, Some(r.error);
      }
      DataOfYields(steps, objs, r.value, i);
      objs := objs + [r.value];
      i := i + 1;
    }
    assert DataOf(objs) + [] == DataOf(objs);
    stop := None;
  }
}
