/** The read mapper factory of lib/gasicBatch/ReadMapper.py and its bowtie2 strategy.
    Whether an executable is on the PATH is the `onPath` parameter; running a command
    is left to the caller, so each operation returns the command line it would run. */
module ReadMapper {
  import opened Wrappers
  import opened PyStr
  import opened PyPath

  /** A bowtie2 mapper and the executables it checked for. */
  datatype MapperBowtie2 = MapperBowtie2(exe: seq<string>)

  /** The command line a mapper call runs and the file name it returns. */
  datatype Invocation = Invocation(cmd: string, outFile: string)

  /** The executables `MapperBowtie2()` checks for, in order. */
  const Bowtie2Executables: seq<string> := ["bowtie2-build", "bowtie2"]

  /** `exeExists(exe)`: 1 when the executable is found, IOError otherwise. */
  function ExeExists(exe: string, onPath: string -> bool): (r: Result<int>)
    ensures r.Ok? <==> onPath(exe)
    ensures r.Ok? ==> r.value == 1
    ensures r.Err? ==> r.error == IOError("\"" + exe + "\" is not in your $PATH")
  {
    if onPath(exe) then Ok(1) else Err(IOError("\"" + exe + "\" is not in your $PATH"))
  }

  /** The executables checked in order; the first one missing raises. */
  function CheckAll(executable: seq<string>, onPath: string -> bool): (r: Result<int>)
    ensures r.Ok? <==> forall i :: 0 <= i < |executable| ==> onPath(executable[i])
    ensures r.Err? ==> exists i :: (0 <= i < |executable| && !onPath(executable[i]) &&
      r.error == IOError("\"" + executable[i] + "\" is not in your $PATH") &&
      forall j :: 0 <= j < i ==> onPath(executable[j]))
  {
    if executable == [] then Ok(1)
    else match ExeExists(executable[0], onPath)
      case Err(e) => Err(e)
      case Ok(_) =>
        var rest := CheckAll(executable[1..], onPath);
        if rest.Err? then
          var i :| 0 <= i < |executable| - 1 && !onPath(executable[1..][i]) &&
            rest.error == IOError("\"" + executable[1..][i] + "\" is not in your $PATH") &&
            forall j :: 0 <= j < i ==> onPath(executable[1..][j]);
          assert !onPath(executable[i + 1]) && forall j :: 0 <= j < i + 1 ==> onPath(executable[j]);
          rest
        else rest
  }

  /** `MapperBowtie2(executable)`: every executable must be on the PATH. */
  function NewMapperBowtie2(executable: seq<string>, onPath: string -> bool): (r: Result<MapperBowtie2>)
    ensures r.Ok? <==> forall i :: 0 <= i < |executable| ==> onPath(executable[i])
    ensures r.Ok? ==> r.value.exe == executable
    ensures r.Err? ==> r.error.IOError?
  {
    match CheckAll(executable, onPath)
    case Err(e) => Err(e)
    case Ok(_) => Ok(MapperBowtie2(executable))
  }

  /** `ReadMapper.getMapper(mapper)`: only the exact name "bowtie2" is known; any other
      name, or none, raises TypeError before any executable is looked up. */
  function GetMapper(mapper: Option<string>, onPath: string -> bool): (r: Result<MapperBowtie2>)
    ensures r.Ok? <==> mapper == Some("bowtie2") && onPath("bowtie2-build") && onPath("bowtie2")
    ensures mapper != Some("bowtie2") ==> r == Err(TypeError("mapper: \"{0}\" not implemented"))
    ensures mapper == Some("bowtie2") && r.Err? ==> r.error.IOError?
    ensures r.Ok? ==> r.value.exe == Bowtie2Executables
  {
    if mapper == Some("bowtie2") then NewMapperBowtie2(Bowtie2Executables, onPath)
    else Err(TypeError("mapper: \"{0}\" not implemented"))
  }

  /** The name is matched case-sensitively. */
  lemma GetMapperCaseSensitive(onPath: string -> bool)
    ensures GetMapper(Some("Bowtie2"), onPath).Err?
    ensures GetMapper(Some("bowtie2"), onPath).Ok? <==> onPath("bowtie2-build") && onPath("bowtie2")
  {
    assert "Bowtie2"[0] != "bowtie2"[0];
  }

  /** The SAM file a mapping writes: the explicit name, or the index's root with ".sam". */
  function SamOutFile(indexFile: string, outFile: Option<string>): string
  {
    match outFile
    case Some(o) => o
    case None => SplitExt(indexFile).0 + ".sam"
  }

  /** Without an explicit name, an index with an extension gets that extension replaced
      by ".sam": `splitext` of the result gives the index's root and ".sam". */
  lemma SamOutFileSwapsExtension(indexFile: string)
    requires SplitExt(indexFile).1 != []
    ensures SplitExt(SamOutFile(indexFile, None)) == (SplitExt(indexFile).0, ".sam")
  {
    var (root, ext) := SplitExt(indexFile);
    SplitExtParts(indexFile);
    var k :| RFind(indexFile, '/') < k < |root| && root[k] != '.';
    assert '/' !in ext;
    RFindAppend(root, ext, '/');
    assert root + "." + "sam" == root + ".sam";
    SplitExtAddExt(root, "sam", k);
  }

  /** One `-k v` option per keyword argument, in the given order. */
  function KwargOptions(kwargs: seq<(string, string)>): (opts: seq<string>)
    ensures |opts| == |kwargs|
    ensures forall i :: 0 <= i < |kwargs| ==> opts[i] == "-" + kwargs[i].0 + " " + kwargs[i].1
  {
    seq(|kwargs|, i requires 0 <= i < |kwargs| => "-" + kwargs[i].0 + " " + kwargs[i].1)
  }

  /** The option words `-k1 v1 -k2 v2 ...`, one flag and one value per argument. */
  function KwargWords(kwargs: seq<(string, string)>): (ws: seq<string>)
    ensures |ws| == 2 * |kwargs|
  {
    if kwargs == [] then [] else ["-" + kwargs[0].0, kwargs[0].1] + KwargWords(kwargs[1..])
  }

  /** `params` of `run_mapper`: the space-joined options, then " -f" for FASTA reads. */
  function MapperParams(kwargs: seq<(string, string)>, fileType: string): string
  {
    Join(KwargOptions(kwargs), " ") + (if Lower(fileType) == "fasta" then " -f" else "")
  }

  /** No keyword arguments and non-FASTA reads give no parameters at all; FASTA reads
      always end the parameters with " -f". */
  lemma MapperParamsEmpty(kwargs: seq<(string, string)>, fileType: string)
    ensures MapperParams(kwargs, fileType) == [] <==> kwargs == [] && Lower(fileType) != "fasta"
    ensures Lower(fileType) == "fasta" ==>
      var p := MapperParams(kwargs, fileType); |p| >= 3 && p[|p| - 3..] == " -f"
  {
    var p := MapperParams(kwargs, fileType);
    var j := Join(KwargOptions(kwargs), " ");
    if kwargs != [] {
      var o := KwargOptions(kwargs);
      assert |o[0]| >= 1;
      if |o| == 1 { assert j == o[0]; } else { assert j == o[0] + " " + Join(o[1..], " "); }
      assert |j| >= 1;
    }
    if Lower(fileType) == "fasta" {
      assert p == j + " -f";
      assert p[|p| - 3..] == " -f";
    }
  }

  /** With keys and values free of spaces, the parameters split into the option words
      (one empty word when there are no options), then "-f" for FASTA reads. */
  lemma MapperParamsWords(kwargs: seq<(string, string)>, fileType: string)
    requires forall i :: 0 <= i < |kwargs| ==> ' ' !in kwargs[i].0 && ' ' !in kwargs[i].1
    ensures Split(MapperParams(kwargs, fileType), ' ')
      == (if kwargs == [] then [""] else KwargWords(kwargs))
         + (if Lower(fileType) == "fasta" then ["-f"] else [])
  {
    var j := Join(KwargOptions(kwargs), " ");
    if kwargs == [] {
      assert j == "";
      SplitNoSeparator(j, ' ');
    } else {
      OptionsWords(kwargs);
    }
    FlagWords(j, MapperParams(kwargs, fileType), Lower(fileType) == "fasta");
  }

  lemma FlagWords(j: string, p: string, fasta: bool)
    requires p == j + (if fasta then " -f" else "")
    ensures Split(p, ' ') == Split(j, ' ') + (if fasta then ["-f"] else [])
  {
    if fasta {
      assert p == j + [' '] + "-f";
      SplitConcat(j, ' ', "-f");
      SplitNoSeparator("-f", ' ');
    } else {
      assert p == j;
      assert Split(j, ' ') + [] == Split(j, ' ');
    }
  }

  lemma {:induction false} OptionsWords(kwargs: seq<(string, string)>)
    requires |kwargs| >= 1
    requires forall i :: 0 <= i < |kwargs| ==> ' ' !in kwargs[i].0 && ' ' !in kwargs[i].1
    ensures Split(Join(KwargOptions(kwargs), " "), ' ') == KwargWords(kwargs)
  {
    var opts := KwargOptions(kwargs);
    var (k, v) := kwargs[0];
    OptionWords(k, v);
    if |kwargs| == 1 {
      assert Join(opts, " ") == opts[0];
      assert KwargWords(kwargs) == ["-" + k, v] + [];
    } else {
      OptionsWords(kwargs[1..]);
      assert opts[1..] == KwargOptions(kwargs[1..]);
      assert Join(opts, " ") == opts[0] + [' '] + Join(opts[1..], " ");
      SplitConcat(opts[0], ' ', Join(opts[1..], " "));
    }
  }

  lemma OptionWords(k: string, v: string)
    requires ' ' !in k && ' ' !in v
    ensures Split("-" + k + " " + v, ' ') == ["-" + k, v]
  {
    assert ' ' !in "-" + k;
    assert "-" + k + " " + v == "-" + k + [' '] + v;
    SplitAtFirst("-" + k, ' ', v);
    SplitNoSeparator(v, ' ');
  }

  /** The bowtie2 mapping command: `bowtie2 -U {reads} -x {index} -S {samfile} --local {params}`. */
  function Bowtie2Command(readFile: string, index: string, samFile: string, params: string): string
  {
    Join(["bowtie2", "-U", readFile, "-x", index, "-S", samFile, "--local", params], " ")
  }

  /** Reads, index and SAM file land right after their flags, and the parameters come
      last, when the names hold no spaces. */
  lemma Bowtie2CommandWords(readFile: string, index: string, samFile: string, params: string)
    requires ' ' !in readFile && ' ' !in index && ' ' !in samFile
    ensures Split(Bowtie2Command(readFile, index, samFile, params), ' ')
      == ["bowtie2", "-U", readFile, "-x", index, "-S", samFile, "--local"] + Split(params, ' ')
  {
    var a := ["bowtie2", "-U", readFile, "-x", index, "-S", samFile, "--local"];
    assert ["bowtie2", "-U", readFile, "-x", index, "-S", samFile, "--local", params] == a + [params] + [];
    SplitTemplate(a, params, [], ' ');
    assert a + Split(params, ' ') + [] == a + Split(params, ' ');
  }

  /** `run_mapper(indexFile, readFile, outFile, fileType, **kwargs)`: the command it
      runs and the SAM file name it returns. */
  function RunMapper(m: MapperBowtie2, indexFile: string, readFile: string, outFile: Option<string>,
                     fileType: string, kwargs: seq<(string, string)>): (r: Invocation)
    ensures r.outFile == SamOutFile(indexFile, outFile)
    ensures r.cmd == Bowtie2Command(readFile, indexFile, r.outFile, MapperParams(kwargs, fileType))
  {
    var o := SamOutFile(indexFile, outFile);
    Invocation(Bowtie2Command(readFile, indexFile, o, MapperParams(kwargs, fileType)), o)
  }

  /** `make_index(subjectFile, outFile, **kwargs)`: with no output name the default
      branch reads an undefined `indexFile` and raises NameError; otherwise the command
      is `bowtie2-build {subject} {outFile}`, which the keyword arguments never reach. */
  function MakeIndex(m: MapperBowtie2, subjectFile: string, outFile: Option<string>,
                     kwargs: seq<(string, string)>): (r: Result<Invocation>)
    ensures r.Err? <==> outFile.None?
    ensures r.Err? ==> r.error == NameError("indexFile")
    ensures r.Ok? ==> r.value.outFile == outFile.value
  {
    match outFile
    case None => Err(NameError("indexFile"))
    case Some(o) => Ok(Invocation(Join(["bowtie2-build", subjectFile, o], " "), o))
  }

  /** The index command splits into the tool, the subject and the output name, and does
      not depend on the keyword arguments. */
  lemma MakeIndexWords(m: MapperBowtie2, subjectFile: string, o: string,
                       kw1: seq<(string, string)>, kw2: seq<(string, string)>)
    requires ' ' !in subjectFile && ' ' !in o
    ensures MakeIndex(m, subjectFile, Some(o), kw1) == MakeIndex(m, subjectFile, Some(o), kw2)
    ensures Split(MakeIndex(m, subjectFile, Some(o), kw1).value.cmd, ' ') == ["bowtie2-build", subjectFile, o]
  {
    SplitJoin(["bowtie2-build", subjectFile, o], ' ');
  }
}
