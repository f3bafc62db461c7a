/** The tool registry of lib/gasicBatch/core/tools.py: reading a names file, and the
    caller functions that run a read mapper or a read simulator through the shell. A
    caller is modelled by the shell commands it runs, in order, and the value it
    returns; what the commands do is outside the model. */
module Tools {
  import opened Wrappers
  import opened PyStr

  /** The characters `read_names` strips from the end of each line. */
  const LineEnd: set<char> := {'\n', '\r'}

  /** `read_names(filename)`, the file given as its lines (each with its line end). */
  function ReadNames(lines: seq<string>): (names: seq<string>)
    ensures |names| == |lines|
    ensures forall i :: 0 <= i < |lines| ==> names[i] <= lines[i]
  {
    seq(|lines|, i requires 0 <= i < |lines| => RStripSet(lines[i], LineEnd))
  }

  /** No name ends in a line-end character, and only line-end characters were dropped. */
  lemma NamesHaveNoLineEnd(lines: seq<string>, i: nat)
    requires i < |lines|
    ensures var nm := ReadNames(lines)[i];
      && (nm == [] || nm[|nm| - 1] !in LineEnd)
      && forall k :: |nm| <= k < |lines[i]| ==> lines[i][k] in LineEnd
  {
  }

  /** A name followed by line-end characters is read back exactly, trailing spaces and
      tabs included. */
  lemma ReadNameKeepsText(lines: seq<string>, i: nat, name: string, ending: string)
    requires i < |lines| && lines[i] == name + ending
    requires name == [] || name[|name| - 1] !in LineEnd
    requires forall k :: 0 <= k < |ending| ==> ending[k] in LineEnd
    ensures ReadNames(lines)[i] == name
  {
    RStripSetTrailing(name, ending, LineEnd);
    RStripSetKeeps(name, LineEnd);
  }

  /** The mappers of the `run_mapper` registry. */
  datatype MapperTool = Bowtie | Bowtie2 | Bwa | Bwasw

  /** The simulators of the `run_simulator` registry. */
  datatype SimulatorTool = MasonIllumina | Dwgsim

  /** What a caller does: the shell commands it runs, in order, and what it returns. */
  datatype ToolRun = ToolRun(commands: seq<string>, ret: int)

  /** `run_mapper[name]` */
  function MapperRegistry(name: string): (t: Option<MapperTool>)
    ensures t.Some? <==> name in {"bowtie", "bowtie2", "bwa", "bwasw"}
    ensures name == "bowtie" ==> t == Some(Bowtie)
    ensures name == "bowtie2" ==> t == Some(Bowtie2)
    ensures name == "bwa" ==> t == Some(Bwa)
    ensures name == "bwasw" ==> t == Some(Bwasw)
  {
    if name == "bowtie" then Some(Bowtie)
    else if name == "bowtie2" then Some(Bowtie2)
    else if name == "bwa" then Some(Bwa)
    else if name == "bwasw" then Some(Bwasw)
    else None
  }

  /** `run_simulator[name]` */
  function SimulatorRegistry(name: string): (t: Option<SimulatorTool>)
    ensures t.Some? <==> name in {"mason_illumina", "dwgsim"}
    ensures name == "mason_illumina" ==> t == Some(MasonIllumina)
    ensures name == "dwgsim" ==> t == Some(Dwgsim)
  {
    if name == "mason_illumina" then Some(MasonIllumina)
    else if name == "dwgsim" then Some(Dwgsim)
    else None
  }

  /** The temporary alignment file of the bwa caller. */
  const BwaTemp: string := "/tmp/res.sai"

  /** The fixed words around `{param}` in each mapper's first command. */
  function MapperHead(t: MapperTool, index: string, readFile: string): seq<string>
  {
    match t
    case Bowtie2 => ["bowtie2", "-U", readFile, "-x", index, "-S"]
    case Bowtie => ["bowtie", "-S", "-p", "2", "-q", "-3", "30", "-v", "2"]
    case Bwa => ["bwa", "aln"]
    case Bwasw => ["bwa", "bwasw"]
  }

  function MapperTail(t: MapperTool, index: string, readFile: string, out: string): seq<string>
  {
    match t
    case Bowtie2 => ["--local", "-M", "0", ""]
    case Bowtie => [index, readFile, ">", out]
    case Bwa => [index, readFile, ">", BwaTemp]
    case Bwasw => [index, readFile, ">", out]
  }

  /** The commands each mapper caller runs:
      bowtie2: `bowtie2 -U {reads} -x {index} -S {samfile} {param} --local -M 0 `;
      bowtie:  `bowtie -S -p 2 -q -3 30 -v 2 {param} {index} {reads} > {samfile}`;
      bwa:     `bwa aln {param} {index} {reads} > /tmp/res.sai`, then
               `bwa samse {index} /tmp/res.sai {reads} > {out} && rm /tmp/res.sai`;
      bwasw:   `bwa bwasw {param} {index} {reads} > {samfile}`. */
  function MapperCommands(t: MapperTool, index: string, readFile: string, out: string, param: string): seq<string>
  {
    match t
    case Bowtie2 =>
      [Join(["bowtie2", "-U", readFile, "-x", index, "-S", out, param, "--local", "-M", "0", ""], " ")]
    case Bwa =>
      [Join(MapperHead(t, index, readFile) + [param] + MapperTail(t, index, readFile, out), " "),
       Join(["bwa", "samse", index, BwaTemp, readFile, ">", out, "&&", "rm", BwaTemp], " ")]
    case _ => [Join(MapperHead(t, index, readFile) + [param] + MapperTail(t, index, readFile, out), " ")]
  }

  /** Calling a registered mapper: its commands, and 1 whatever they do. */
  function RunMapper(t: MapperTool, index: string, readFile: string, out: string, param: string := ""): (r: ToolRun)
    ensures r.ret == 1
    ensures |r.commands| == if t == Bwa then 2 else 1
  {
    ToolRun(MapperCommands(t, index, readFile, out, param), 1)
  }

  /** With names free of spaces, every mapper's first command is its fixed words with
      the words of `param` in their place; the output goes where the template says:
      after `-S` for bowtie2, to the temporary file for bwa, redirected otherwise. */
  lemma MapperCommandWords(t: MapperTool, index: string, readFile: string, out: string, param: string)
    requires ' ' !in index && ' ' !in readFile && ' ' !in out
    ensures t != Bowtie2 ==>
      Split(MapperCommands(t, index, readFile, out, param)[0], ' ')
        == MapperHead(t, index, readFile) + Split(param, ' ') + MapperTail(t, index, readFile, out)
    ensures t == Bowtie2 ==>
      Split(MapperCommands(t, index, readFile, out, param)[0], ' ')
        == MapperHead(t, index, readFile) + [out] + Split(param, ' ') + MapperTail(t, index, readFile, out)
  {
    var head := MapperHead(t, index, readFile);
    var tail := MapperTail(t, index, readFile, out);
    if t == Bowtie2 {
      assert ["bowtie2", "-U", readFile, "-x", index, "-S", out, param, "--local", "-M", "0", ""]
        == (head + [out]) + [param] + tail;
      SplitTemplate(head + [out], param, tail, ' ');
    } else {
      SplitTemplate(head, param, tail, ' ');
    }
  }

  /** bwa writes its alignment to a fixed temporary file, so its first command does not
      depend on the output name, and only the second one names it. */
  lemma BwaFirstCommandIgnoresOut(index: string, readFile: string, out1: string, out2: string, param: string)
    ensures MapperCommands(Bwa, index, readFile, out1, param)[0] == MapperCommands(Bwa, index, readFile, out2, param)[0]
  {
  }

  /** The commands each simulator caller runs:
      mason_illumina: `mason illumina -N 10000 -hi 0 -hs 0 -n 72  -sq -o {out} {ref}`, then
                      `rm {out}.sam`;
      dwgsim: `dwgsim -c 2 -1 80 -2 0 -r 0 -y 0 -e 0.002 -N 100000 -f TACG {ref} {out}`, then
              `mv {out}.bfast.fastq {out} && rm {out}.bwa.read1.fastq && rm {out}.bwa.read2.fastq && rm {out}.mutations.txt`. */
  function SimulatorCommands(t: SimulatorTool, ref: string, out: string): seq<string>
  {
    match t
    case MasonIllumina =>
      [Join(MasonIlluminaArgs + ["-o", out, ref], " "), "rm " + out + ".sam"]
    case Dwgsim =>
      [Join(DwgsimArgs + [ref, out], " "),
       Join(["mv", out + ".bfast.fastq", out, "&&", "rm", out + ".bwa.read1.fastq", "&&", "rm",
             out + ".bwa.read2.fastq", "&&", "rm", out + ".mutations.txt"], " ")]
  }

  /** The fixed mason words; the doubled space before `-sq` gives an empty word. */
  const MasonIlluminaArgs: seq<string> :=
    ["mason", "illumina", "-N", "10000", "-hi", "0", "-hs", "0", "-n", "72", "", "-sq"]

  const DwgsimArgs: seq<string> :=
    ["dwgsim", "-c", "2", "-1", "80", "-2", "0", "-r", "0", "-y", "0", "-e", "0.002", "-N", "100000", "-f", "TACG"]

  /** Calling a registered simulator: its two commands, and 1 whatever they do. */
  function RunSimulator(t: SimulatorTool, ref: string, out: string): (r: ToolRun)
    ensures r.ret == 1
    ensures |r.commands| == 2
  {
    ToolRun(SimulatorCommands(t, ref, out), 1)
  }

  /** With names free of spaces, each simulator's first command ends with its two file
      arguments: mason takes `-o out` then `ref`, dwgsim takes `ref` then `out`. */
  lemma SimulatorCommandWords(t: SimulatorTool, ref: string, out: string)
    requires ' ' !in ref && ' ' !in out
    ensures t == MasonIllumina ==>
      Split(SimulatorCommands(t, ref, out)[0], ' ') == MasonIlluminaArgs + ["-o", out, ref]
    ensures t == Dwgsim ==>
      Split(SimulatorCommands(t, ref, out)[0], ' ') == DwgsimArgs + [ref, out]
  {
    if t == MasonIllumina {
      var ws := MasonIlluminaArgs + ["-o", out, ref];
      assert forall i :: 0 <= i < |ws| ==> ' ' !in ws[i] by {
        forall i | 0 <= i < |ws| ensures ' ' !in ws[i] {
          if i < |MasonIlluminaArgs| { assert ws[i] == MasonIlluminaArgs[i]; }
        }
      }
      SplitJoin(ws, ' ');
    } else {
      var ws := DwgsimArgs + [ref, out];
      assert forall i :: 0 <= i < |ws| ==> ' ' !in ws[i] by {
        forall i | 0 <= i < |ws| ensures ' ' !in ws[i] {
          if i < |DwgsimArgs| { assert ws[i] == DwgsimArgs[i]; }
        }
      }
      SplitJoin(ws, ' ');
    }
  }
}
