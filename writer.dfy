/** The output rows of lib/gasicBatch/Writer.py. Each method of `OutputWriter` writes a
    diagnostic to stderr and prints one row to stdout; here each is a function returning
    both texts (`print` ends the row with a newline). */
module Writer {
  import opened Wrappers
  import opened PyStr

  /** Fields set once by the constructor. `nCol` holds the number of NA columns. */
  datatype OutputWriter = OutputWriter(mgID: string, nCol: int, sep: string)

  /** What one writer call emits. */
  datatype Emission = Emission(stderr: string, stdout: string)

  /** `OutputWriter(metagenome_ID, nCol=8, sep='\t')` */
  function NewOutputWriter(metagenomeID: string, nCol: int := 8, sep: string := "\t"): (w: OutputWriter)
    ensures w.mgID == metagenomeID && w.sep == sep
    ensures w.nCol + 2 == nCol
  {
    OutputWriter(metagenomeID, nCol - 2, sep)
  }

  /** The fields of an error row: the ID, `ERROR:<reason>`, then `nCol` NAs. */
  function ErrorFields(w: OutputWriter, reason: string): (fields: seq<string>)
  {
    [w.mgID, "ERROR:" + reason] + Repeat("NA", w.nCol)
  }

  /** The printed error row. */
  function ErrorRow(w: OutputWriter, reason: string): string
  {
    Join(ErrorFields(w, reason), w.sep) + "\n"
  }

  /** An error row has the ID, the tagged reason and then only NAs; a writer built with
      `nCol >= 2` gives rows of exactly `nCol` fields. */
  lemma ErrorFieldsShape(metagenomeID: string, nCol: int, sep: string, reason: string)
    ensures var fields := ErrorFields(NewOutputWriter(metagenomeID, nCol, sep), reason);
      && |fields| == (if nCol < 2 then 2 else nCol)
      && fields[0] == metagenomeID && fields[1] == "ERROR:" + reason
      && forall i :: 2 <= i < |fields| ==> fields[i] == "NA"
  {
  }

  /** With a one-character separator that occurs in none of the fields, splitting an
      error row (without its newline) gives back the fields it was joined from. */
  lemma ErrorRowSplits(w: OutputWriter, reason: string, c: char)
    requires w.sep == [c]
    requires c !in w.mgID && c !in "ERROR:" + reason && c !in "NA"
    ensures Split(Join(ErrorFields(w, reason), w.sep), c) == ErrorFields(w, reason)
  {
    SplitJoin(ErrorFields(w, reason), c);
  }

  /** `writeValues(outvals)`: the eight named values, tab-joined whatever `sep` is;
      the first missing name, in template order, raises KeyError. */
  function WriteValues(outvals: map<string, string>): (r: Result<string>)
    ensures r.Ok? <==> forall k :: k in ValueKeys ==> k in outvals
    ensures r.Ok? ==> r.value == Join(seq(8, i requires 0 <= i < 8 => outvals[ValueKeys[i]]), "\t") + "\n"
    ensures r.Err? ==> r.error.KeyError? && r.error.key in ValueKeys && r.error.key !in outvals
    ensures r.Err? ==> exists j :: 0 <= j < 8 && r.error == KeyError(ValueKeys[j]) &&
                                   ValueKeys[j] !in outvals &&
                                   forall m :: 0 <= m < j ==> ValueKeys[m] in outvals
  {
    FirstMissing(outvals, ValueKeys, 0)
  }

  /** The names `writeValues` formats, in output order. */
  const ValueKeys: seq<string> := ["mgID", "ref", "total", "mapped", "corr", "error", "pval", "mg_platform"]

  function FirstMissing(outvals: map<string, string>, keys: seq<string>, i: nat): (r: Result<string>)
    requires |keys| == 8 && i <= 8
    requires forall j :: 0 <= j < i ==> keys[j] in outvals
    ensures r.Ok? <==> forall k :: k in keys ==> k in outvals
    ensures r.Ok? ==> r.value == Join(seq(8, j requires 0 <= j < 8 => outvals[keys[j]]), "\t") + "\n"
    ensures r.Err? ==> r.error.KeyError? && r.error.key in keys && r.error.key !in outvals
    ensures r.Err? ==> exists j :: i <= j < 8 && r.error == KeyError(keys[j]) &&
                                   keys[j] !in outvals &&
                                   forall m :: 0 <= m < j ==> keys[m] in outvals
    decreases 8 - i
  {
    if i == 8 then Ok(Join(seq(8, j requires 0 <= j < 8 => outvals[keys[j]]), "\t") + "\n")
    else if keys[i] !in outvals then Err(KeyError(keys[i]))
    else FirstMissing(outvals, keys, i + 1)
  }

  /** `noReadFile()` */
  function NoReadFile(w: OutputWriter): (e: Emission)
    ensures e.stdout == ErrorRow(w, "no_metagenome_read_file")
    ensures Contains(e.stderr, w.mgID)
  {
    ContainsMiddle("No read file downloaded for Metagenome ", w.mgID, ". Skipping metagenome\n\n");
    Emission("No read file downloaded for Metagenome " + w.mgID + ". Skipping metagenome\n\n",
             ErrorRow(w, "no_metagenome_read_file"))
  }

  /** `str(platform)`, where a missing platform prints as None. */
  function PlatformText(platform: Option<string>): string
  {
    match platform
    case Some(p) => p
    case None => "None"
  }

  /** `platformUserSkip(platform)`: the platform goes only into the diagnostic. */
  function PlatformUserSkip(w: OutputWriter, platform: Option<string>): (e: Emission)
    ensures e.stdout == ErrorRow(w, "undesired_platform")
    ensures Contains(e.stderr, PlatformText(platform))
  {
    var p := PlatformText(platform);
    ContainsMiddle(" The platform \"", p, "\" is in the --platform list. Skipping metagenome.\n\n");
    Emission(" The platform \"" + p + "\" is in the --platform list. Skipping metagenome.\n\n",
             ErrorRow(w, "undesired_platform"))
  }

  /** `platformUnknown(platform)`: the platform goes only into the diagnostic. */
  function PlatformUnknown(w: OutputWriter, platform: Option<string>): (e: Emission)
    ensures e.stdout == ErrorRow(w, "undetermined_platform")
    ensures Contains(e.stderr, PlatformText(platform))
  {
    var p := PlatformText(platform);
    ContainsMiddle(" The platform \"", p, "\" could not be determined. Skipping metagenome.\n\n");
    Emission(" The platform \"" + p + "\" could not be determined. Skipping metagenome.\n\n",
             ErrorRow(w, "undetermined_platform"))
  }

  /** `simReadError()` */
  function SimReadError(w: OutputWriter): (e: Emission)
    ensures e.stdout == ErrorRow(w, "read_simulation_error")
    ensures Contains(e.stderr, w.mgID)
  {
    var pre := "\n  WARNING: Read simulation error for metagenome \"";
    var post := "\". Skipping metagenome.\n\n";
    ContainsMiddle(pre, w.mgID, post);
    Emission(pre + w.mgID + post, ErrorRow(w, "read_simulation_error"))
  }

  /** `readFileFormatConversionError()` */
  function ReadFileFormatConversionError(w: OutputWriter): (e: Emission)
    ensures e.stdout == ErrorRow(w, "read_file_format_conversion_error")
    ensures Contains(e.stderr, w.mgID)
  {
    var pre := "\n  WARNING: error during read file format conversion for metagenome \"";
    var post := "\". Skipping metagenome.\n\n";
    ContainsMiddle(pre, w.mgID, post);
    Emission(pre + w.mgID + post, ErrorRow(w, "read_file_format_conversion_error"))
  }

  /** The skip rows do not depend on the platform at all. */
  lemma PlatformNotInRow(w: OutputWriter, p1: Option<string>, p2: Option<string>)
    ensures PlatformUserSkip(w, p1).stdout == PlatformUserSkip(w, p2).stdout
    ensures PlatformUnknown(w, p1).stdout == PlatformUnknown(w, p2).stdout
  {
  }

  /** The reasons of the five error rows, in the order the writer declares them. */
  const Reasons: seq<string> := ["no_metagenome_read_file", "undesired_platform", "undetermined_platform",
                                 "read_simulation_error", "read_file_format_conversion_error"]

  /** The five error rows carry five different reasons. */
  lemma ReasonsDistinct(w: OutputWriter)
    ensures forall a, b :: 0 <= a < b < |Reasons| ==> ErrorFields(w, Reasons[a])[1] != ErrorFields(w, Reasons[b])[1]
  {
    forall a, b | 0 <= a < b < |Reasons|
      ensures ErrorFields(w, Reasons[a])[1] != ErrorFields(w, Reasons[b])[1]
    {
      var x, y := "ERROR:" + Reasons[a], "ERROR:" + Reasons[b];
      if Reasons[a][0] != Reasons[b][0] {
        assert x[6] != y[6];
      } else if a == 1 {
        assert x[10] != y[10];
      } else {
        assert x[11] != y[11];
      }
    }
  }
}
