/** The read simulator factory of lib/gasicBatch/ReadSimulator.py and its mason
    strategy. Whether an executable is on the PATH is the `onPath` parameter; the
    simulation command is returned instead of run. */
module ReadSimulator {
  import opened Wrappers
  import opened PyStr
  import opened PyPath

  /** The simulator objects the factory can build. */
  datatype Simulator = Mason(exe: string) | Grinder

  /** The mason command line, the log file it redirects to and the reads file returned. */
  datatype SimInvocation = SimInvocation(cmd: string, logFile: string, outFile: string)

  /** mason's parameters when the caller gives none. */
  const DefaultMasonParams: string := "illumina -N 10000 -hi 0 -hs 0 -n 72 -sq"

  /** `getSimulator(simulator)` as written: the name is lower-cased and looked up among
      "mason" and "griner". Building a mason object calls `exeExists`, whose
      `find_executable` is never imported in this file, so it raises NameError. */
  function GetSimulatorAsWritten(simulator: string): (r: Result<Simulator>)
    ensures r.Ok? <==> Lower(simulator) == "griner"
    ensures Lower(simulator) == "mason" ==> r == Err(NameError("find_executable"))
    ensures Lower(simulator) != "mason" && Lower(simulator) != "griner" ==>
      r == Err(TypeError("Simulator: \"" + Lower(simulator) + "\" not supported\n"))
  {
    var name := Lower(simulator);
    if name == "mason" then Err(NameError("find_executable"))
    else if name == "griner" then Ok(Grinder)
    else Err(TypeError("Simulator: \"" + name + "\" not supported\n"))
  }

  /** No spelling of "mason" yields a simulator from the code as written. */
  lemma MasonUnreachableAsWritten(simulator: string)
    requires Lower(simulator) == "mason"
    ensures GetSimulatorAsWritten(simulator).Err?
    ensures GetSimulatorAsWritten(simulator).error.NameError?
  {
  }

  /** `exeExists(exe)` with `find_executable` available: 1, or IOError. */
  function ExeExists(exe: string, onPath: string -> bool): (r: Result<int>)
    ensures r.Ok? <==> onPath(exe)
    ensures r.Ok? ==> r.value == 1
    ensures r.Err? ==> r.error == IOError("\"" + exe + "\" is not in your $PATH")
  {
    if onPath(exe) then Ok(1) else Err(IOError("\"" + exe + "\" is not in your $PATH"))
  }

  /** `getSimulator(simulator)` with the lookup of executables working: mason is built
      when "mason" is on the PATH; "griner" builds the grinder stub; anything else,
      after lower-casing, raises TypeError naming the lower-cased name. */
  function GetSimulator(simulator: string, onPath: string -> bool): (r: Result<Simulator>)
    ensures r.Ok? <==> (Lower(simulator) == "mason" && onPath("mason")) || Lower(simulator) == "griner"
    ensures r.Ok? && Lower(simulator) == "mason" ==> r.value == Mason("mason")
    ensures Lower(simulator) == "mason" && r.Err? ==> r.error.IOError?
    ensures Lower(simulator) != "mason" ==> r == GetSimulatorAsWritten(simulator)
  {
    var name := Lower(simulator);
    if name == "mason" then
      match ExeExists("mason", onPath)
      case Err(e) => Err(e)
      case Ok(_) => Ok(Mason("mason"))
    else GetSimulatorAsWritten(simulator)
  }

  /** The lookup ignores case, and the misspelt registry key means "grinder" itself is
      not accepted. */
  lemma GetSimulatorNames(onPath: string -> bool)
    ensures GetSimulator("MaSoN", onPath) == GetSimulator("mason", onPath)
    ensures GetSimulator("grinder", onPath) == Err(TypeError("Simulator: \"grinder\" not supported\n"))
    ensures GetSimulator("Griner", onPath) == Ok(Grinder)
  {
    assert Lower("MaSoN") == "mason";
    assert Lower("mason") == "mason";
    assert Lower("grinder") == "grinder" && |"grinder"| == 7;
    assert "Simulator: \"" + "grinder" + "\" not supported\n" == "Simulator: \"grinder\" not supported\n";
    assert Lower("Griner") == "griner";
  }

  /** The reads file before re-rooting: the explicit name, or the reference's root
      with "_simReads.fq". */
  function SimBaseFile(refFile: string, outFile: Option<string>): string
  {
    match outFile
    case Some(o) => o
    case None => SplitExt(refFile).0 + "_simReads.fq"
  }

  /** The reads file `run_simulator` writes and returns: the base name moved into
      `outDir` when one is given, whether or not the name was explicit. */
  function SimOutFile(refFile: string, outFile: Option<string>, outDir: Option<string>): string
  {
    var base := SimBaseFile(refFile, outFile);
    match outDir
    case None => base
    case Some(d) => PathJoin(d, Basename(base))
  }

  /** The mason command: `mason {params} -o {outFile} {refFile} > {logFile}`. */
  function MasonCommand(params: string, outFile: string, refFile: string, logFile: string): string
  {
    Join(["mason", params, "-o", outFile, refFile, ">", logFile], " ")
  }

  /** `mason.run_simulator(refFile, outFile, outDir, params)`. */
  function RunSimulator(m: Simulator, refFile: string, outFile: Option<string>, outDir: Option<string>,
                        params: string := DefaultMasonParams): (r: SimInvocation)
    requires m.Mason?
    ensures r.outFile == SimOutFile(refFile, outFile, outDir)
    ensures r.logFile == r.outFile + ".log"
    ensures r.cmd == MasonCommand(params, r.outFile, refFile, r.logFile)
  {
    var o := SimOutFile(refFile, outFile, outDir);
    SimInvocation(MasonCommand(params, o, refFile, o + ".log"), o + ".log", o)
  }

  /** With an output directory the reads file keeps its base name and sits in that
      directory; the log file always sits next to the reads file. */
  lemma SimFilesPlacement(m: Simulator, refFile: string, outFile: Option<string>, outDir: Option<string>, params: string)
    requires m.Mason?
    ensures var r := RunSimulator(m, refFile, outFile, outDir, params);
      && (outDir.Some? ==> Basename(r.outFile) == Basename(SimBaseFile(refFile, outFile)))
      && Basename(r.logFile) == Basename(r.outFile) + ".log"
  {
    var r := RunSimulator(m, refFile, outFile, outDir, params);
    if outDir.Some? {
      BasenameOfJoin(outDir.value, Basename(SimBaseFile(refFile, outFile)));
    }
    BasenameAppend(r.outFile, ".log");
  }

  /** The default reads file swaps the reference's extension for "_simReads" plus the
      extension ".fq". */
  lemma SimDefaultExtension(refFile: string)
    ensures SplitExt(SimOutFile(refFile, None, None)) == (SplitExt(refFile).0 + "_simReads", ".fq")
  {
    var root := SplitExt(refFile).0 + "_simReads";
    var k := |root| - 1;
    assert root[k] == 's';
    assert RFind(root, '/') != k;
    var p := SimOutFile(refFile, None, None);
    assert p == root + "." + "fq";
    SplitExtAddExt(root, "fq", k);
    assert "." + "fq" == ".fq";
  }

  /** With names free of spaces, the command is the tool, the parameters, then `-o`,
      the reads file, the reference, and a redirection into the log file. */
  lemma MasonCommandWords(params: string, outFile: string, refFile: string, logFile: string)
    requires ' ' !in outFile && ' ' !in refFile && ' ' !in logFile
    ensures Split(MasonCommand(params, outFile, refFile, logFile), ' ')
      == ["mason"] + Split(params, ' ') + ["-o", outFile, refFile, ">", logFile]
  {
    var b := ["-o", outFile, refFile, ">", logFile];
    assert ["mason", params, "-o", outFile, refFile, ">", logFile] == ["mason"] + [params] + b;
    SplitTemplate(["mason"], params, b, ' ');
  }
}
