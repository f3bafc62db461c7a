/** lib/gasic-r16/gasic_create_matrix.py: `similarity_matrix_raw`, which simulates
    reads for every reference genome, maps every genome's reads against every reference,
    and fills the raw similarity tensor from the resulting SAM files.

    The tools it runs are recorded as actions, in order; what they write is given by two
    parameters: `fastqCount` (the number of records of a FASTQ file) and `samOf` (the
    records of a SAM file). Whether the temporary directory exists is the `isDir`
    parameter. */
module GasicCreateMatrix {
  import opened Wrappers
  import opened PyStr
  import opened Sam
  import opened Tools
  import opened CorrectAbundances

  /** What the function does to the outside world, in order. */
  datatype Action =
    | MakeDirs(path: string)
    | Simulate(simulator: SimulatorTool, ref: string, out: string)
    | Align(mapper: MapperTool, index: string, readFile: string, out: string)

  /** How `'%s' % x` shows an optional argument: `None` when it is missing. */
  function ArgText(a: Option<string>): string
  {
    if a.None? then "None" else a.value
  }

  /** `mapper in tools.run_mapper`, and the registered caller; `None` is never a key. */
  function MapperOf(mapper: Option<string>): (t: Option<MapperTool>)
    ensures t.Some? ==> mapper.Some? && MapperRegistry(mapper.value) == t
  {
    if mapper.None? then None else MapperRegistry(mapper.value)
  }

  /** `simulator in tools.run_simulator`, and the registered caller. */
  function SimulatorOf(simulator: Option<string>): (t: Option<SimulatorTool>)
    ensures t.Some? ==> simulator.Some? && SimulatorRegistry(simulator.value) == t
  {
    if simulator.None? then None else SimulatorRegistry(simulator.value)
  }

  function MapperMissing(mapper: Option<string>): Error
  {
    Exception("Aborting. Mapper \"" + ArgText(mapper) + "\" not found in tools.py")
  }

  function SimulatorMissing(simulator: Option<string>): Error
  {
    Exception("Aborting. Simulator \"" + ArgText(simulator) + "\" not found in tools.py")
  }

  // ---------------------------------------------------------------------------------
  // File names

  /** `[pattern % nm for nm in names]`: the list, or the exception of the first name
      the pattern cannot take. */
  function Formatted(pattern: string, names: seq<string>): (r: Result<seq<string>>)
    ensures r.Ok? ==> |r.value| == |names|
  {
    var it := RunFrom(FormatSteps(pattern, names), 0);
    if it.stop.Some? then Err(it.stop.value) else Ok(it.yielded)
  }

  /** The list holds `pattern % nm` for each name, in order, when the pattern takes every
      name; otherwise the exception is that of the first name it cannot take. */
  lemma FormattedNames(pattern: string, names: seq<string>)
    ensures var r := Formatted(pattern, names);
      && (r.Ok? <==> forall i :: 0 <= i < |names| ==> PercentFormat(pattern, names[i]).Ok?)
      && (r.Ok? ==> (|r.value| == |names|
            && forall i :: 0 <= i < |names| ==> r.value[i] == PercentFormat(pattern, names[i]).value))
      && (r.Err? ==> exists i :: (0 <= i < |names| && PercentFormat(pattern, names[i]) == Err(r.error)
            && forall k :: 0 <= k < i ==> PercentFormat(pattern, names[k]).Ok?))
  {
    var steps := FormatSteps(pattern, names);
    assert forall k :: 0 <= k < |names| ==> steps[k] == PercentFormat(pattern, names[k]);
    var it := RunFrom(steps, 0);
    assert forall k :: 0 <= k < |it.yielded| ==> steps[k] == Ok(it.yielded[k]);
    if it.stop.Some? {
      var i := |it.yielded|;
      assert steps[i] == Err(it.stop.value);
      assert forall k :: 0 <= k < i ==> steps[k].Ok?;
    } else {
      assert forall k :: 0 <= k < |names| ==> steps[k].Ok?;
    }
  }

  /** The simulated reads of genome `nm`. */
  function SimFile(tempDir: string, nm: string): string
  {
    tempDir + "/" + nm + ".fastq"
  }

  /** The SAM file of genome `a`'s reads mapped to reference `b`. */
  function SamFile(tempDir: string, a: string, b: string): string
  {
    tempDir + "/" + a + "-" + b + ".sam"
  }

  /** Genome names without a dash give different SAM files for the two directions of a
      pair. */
  lemma SamFilesDiffer(tempDir: string, a: string, b: string)
    requires a != b && '-' !in a && '-' !in b
    ensures SamFile(tempDir, a, b) != SamFile(tempDir, b, a)
  {
    var d := |tempDir| + 1;
    var ab, ba := SamFile(tempDir, a, b), SamFile(tempDir, b, a);
    assert forall k :: 0 <= k < |a| ==> ab[d + k] == a[k];
    assert forall k :: 0 <= k < |b| ==> ba[d + k] == b[k];
    assert ab[d + |a|] == '-' && ba[d + |b|] == '-';
    if |a| < |b| {
      assert ba[d + |a|] == b[|a|];
    } else if |b| < |a| {
      assert ab[d + |b|] == a[|b|];
    } else {
      var k :| 0 <= k < |a| && a[k] != b[k];
      assert ab[d + k] != ba[d + k];
    }
  }

  /** Dashes can make the two directions of a pair share one SAM file. */
  lemma DashedNamesShareSamFile()
    ensures SamFile("t", "-", "") == SamFile("t", "", "-")
  {
  }

  // ---------------------------------------------------------------------------------
  // The order of the tool calls

  /** The simulator run for each genome, in name order. */
  function SimCalls(t: SimulatorTool, refFiles: seq<string>, simFiles: seq<string>): (calls: seq<Action>)
    requires |refFiles| == |simFiles|
    ensures |calls| == |refFiles|
    ensures forall i :: 0 <= i < |calls| ==> calls[i] == Simulate(t, refFiles[i], simFiles[i])
  {
    seq(|refFiles|, i requires 0 <= i < |refFiles| => Simulate(t, refFiles[i], simFiles[i]))
  }

  /** The mapper runs of genome `i`'s reads: against every reference `j`, in order. */
  function MapRow(t: MapperTool, names: seq<string>, indexFiles: seq<string>, simFiles: seq<string>,
                  tempDir: string, i: nat): (row: seq<Action>)
    requires |indexFiles| == |names| && |simFiles| == |names| && i < |names|
    ensures |row| == |names|
  {
    seq(|names|, j requires 0 <= j < |names| =>
      Align(t, indexFiles[j], simFiles[i], SamFile(tempDir, names[i], names[j])))
  }

  /** The rows, one after another. */
  function Flatten<T>(rows: seq<seq<T>>): seq<T>
  {
    if rows == [] then [] else Flatten(rows[..|rows| - 1]) + rows[|rows| - 1]
  }

  /** Rows of `m` elements each flatten to `|rows| * m` elements, row `i`'s element `j`
      at position `i * m + j`. */
  lemma {:induction false} FlattenAt<T>(rows: seq<seq<T>>, m: nat, i: nat, j: nat)
    requires forall r :: 0 <= r < |rows| ==> |rows[r]| == m
    requires i < |rows| && j < m
    ensures |Flatten(rows)| == |rows| * m
    ensures i * m + j < |Flatten(rows)| && Flatten(rows)[i * m + j] == rows[i][j]
  {
    var front := rows[..|rows| - 1];
    assert |Flatten(rows)| == |rows| * m by {
      FlattenLength(rows, m);
    }
    FlattenLength(front, m);
    if i < |rows| - 1 {
      FlattenAt(front, m, i, j);
      assert i * m + j < |front| * m;
    } else {
      assert i * m == |Flatten(front)|;
    }
  }

  /** Rows of `m` elements each flatten to `|rows| * m` elements. */
  lemma {:induction false} FlattenLength<T>(rows: seq<seq<T>>, m: nat)
    requires forall r :: 0 <= r < |rows| ==> |rows[r]| == m
    ensures |Flatten(rows)| == |rows| * m
  {
    if rows != [] {
      var front := rows[..|rows| - 1];
      assert forall r :: 0 <= r < |front| ==> front[r] == rows[r];
      FlattenLength(front, m);
      assert |Flatten(rows)| == |Flatten(front)| + |rows[|rows| - 1]|;
      assert |rows| * m == |front| * m + m;
    }
  }

  /** All mapper runs, row by row. */
  function MapCalls(t: MapperTool, names: seq<string>, indexFiles: seq<string>, simFiles: seq<string>,
                    tempDir: string): seq<Action>
    requires |indexFiles| == |names| && |simFiles| == |names|
  {
    Flatten(MapRows(t, names, indexFiles, simFiles, tempDir))
  }

  function MapRows(t: MapperTool, names: seq<string>, indexFiles: seq<string>, simFiles: seq<string>,
                   tempDir: string): (rows: seq<seq<Action>>)
    requires |indexFiles| == |names| && |simFiles| == |names|
    ensures |rows| == |names|
    ensures forall i :: 0 <= i < |names| ==> rows[i] == MapRow(t, names, indexFiles, simFiles, tempDir, i)
  {
    seq(|names|, i requires 0 <= i < |names| => MapRow(t, names, indexFiles, simFiles, tempDir, i))
  }

  /** The mapper runs `n * n` times, and run `i * n + j` maps genome `i`'s reads to
      reference `j`'s index, writing `temp_dir/names[i]-names[j].sam`. */
  lemma MapCallOrder(t: MapperTool, names: seq<string>, indexFiles: seq<string>, simFiles: seq<string>,
                     tempDir: string, i: nat, j: nat)
    requires |indexFiles| == |names| && |simFiles| == |names| && i < |names| && j < |names|
    ensures var calls := MapCalls(t, names, indexFiles, simFiles, tempDir);
      |calls| == |names| * |names|
      && calls[i * |names| + j] == Align(t, indexFiles[j], simFiles[i], SamFile(tempDir, names[i], names[j]))
  {
    FlattenAt(MapRows(t, names, indexFiles, simFiles, tempDir), |names|, i, j);
  }

  // ---------------------------------------------------------------------------------
  // The tensor

  /** The slice `[i, j, :]` each SAM file gives, for reference `j` in order. */
  function PairRow(names: seq<string>, tempDir: string, samOf: string -> seq<SamRecord>, numReads: nat,
                   i: nat): (steps: seq<Result<seq<int>>>)
    requires i < |names|
    ensures |steps| == |names|
  {
    seq(|names|, j requires 0 <= j < |names| => FileRow(samOf(SamFile(tempDir, names[i], names[j])), numReads))
  }

  /** The inner loop for genome `i`: its slices, or the first assignment that raises. */
  function RowOutcome(names: seq<string>, tempDir: string, samOf: string -> seq<SamRecord>, numReads: nat,
                      i: nat): Result<seq<seq<int>>>
    requires i < |names|
  {
    var it := RunFrom(PairRow(names, tempDir, samOf, numReads, i), 0);
    if it.stop.Some? then Err(it.stop.value) else Ok(it.yielded)
  }

  function TensorSteps(names: seq<string>, tempDir: string, samOf: string -> seq<SamRecord>, numReads: nat)
    : (steps: seq<Result<seq<seq<int>>>>)
    ensures |steps| == |names|
  {
    seq(|names|, i requires 0 <= i < |names| => RowOutcome(names, tempDir, samOf, numReads, i))
  }

  /** The parsing loops: the tensor `mapped_reads`, or the first assignment that raises. */
  function TensorSpec(names: seq<string>, tempDir: string, samOf: string -> seq<SamRecord>, numReads: nat)
    : Result<seq<seq<seq<int>>>>
  {
    var it := RunFrom(TensorSteps(names, tempDir, samOf, numReads), 0);
    if it.stop.Some? then Err(it.stop.value) else Ok(it.yielded)
  }

  /** Cell `[i][j]` of a filled tensor is the row of the SAM file of genome `i`'s reads
      mapped to reference `j`, of `numReads` entries. */
  lemma TensorCell(names: seq<string>, tempDir: string, samOf: string -> seq<SamRecord>, numReads: nat,
                   i: nat, j: nat)
    requires TensorSpec(names, tempDir, samOf, numReads).Ok? && i < |names| && j < |names|
    ensures var t := TensorSpec(names, tempDir, samOf, numReads).value;
      var row := FileRow(samOf(SamFile(tempDir, names[i], names[j])), numReads);
      |t| == |names| && |t[i]| == |names| && row.Ok? && t[i][j] == row.value && |t[i][j]| == numReads
  {
    var steps := TensorSteps(names, tempDir, samOf, numReads);
    var it := RunFrom(steps, 0);
    assert steps[i] == Ok(it.yielded[i]);
    var inner := RunFrom(PairRow(names, tempDir, samOf, numReads, i), 0);
    assert PairRow(names, tempDir, samOf, numReads, i)[j] == Ok(inner.yielded[j]);
  }

  /** Where the SAM file holds `numReads` records, `[i][j][k]` is 1 exactly when its
      record `k` is mapped. */
  lemma TensorEntry(names: seq<string>, tempDir: string, samOf: string -> seq<SamRecord>, numReads: nat,
                    i: nat, j: nat, k: nat)
    requires TensorSpec(names, tempDir, samOf, numReads).Ok? && i < |names| && j < |names| && k < numReads
    requires |samOf(SamFile(tempDir, names[i], names[j]))| == numReads
    ensures var t := TensorSpec(names, tempDir, samOf, numReads).value;
      var rs := samOf(SamFile(tempDir, names[i], names[j]));
      t[i][j][k] == 1 <==> !IsUnmapped(rs[k])
  {
    TensorCell(names, tempDir, samOf, numReads, i, j);
  }

  /** No symmetry is imposed: `[i][j]` and `[j][i]` come from two files, and where
      those disagree on record `k`, so does the tensor. */
  lemma NotSymmetric(names: seq<string>, tempDir: string, samOf: string -> seq<SamRecord>, numReads: nat,
                     i: nat, j: nat, k: nat)
    requires TensorSpec(names, tempDir, samOf, numReads).Ok? && i < |names| && j < |names| && k < numReads
    requires |samOf(SamFile(tempDir, names[i], names[j]))| == numReads
    requires |samOf(SamFile(tempDir, names[j], names[i]))| == numReads
    requires IsUnmapped(samOf(SamFile(tempDir, names[i], names[j]))[k])
      != IsUnmapped(samOf(SamFile(tempDir, names[j], names[i]))[k])
    ensures var t := TensorSpec(names, tempDir, samOf, numReads).value;
      |t| == |names| && |t[i]| == |names| && |t[j]| == |names|
      && |t[i][j]| == numReads && |t[j][i]| == numReads && t[i][j][k] != t[j][i][k]
  {
    TensorCell(names, tempDir, samOf, numReads, i, j);
    TensorCell(names, tempDir, samOf, numReads, j, i);
  }

  /** A SAM file with a record count other than `numReads` (and not 1) stops the fill
      with numpy's broadcast error, unless an earlier file already did. */
  lemma TensorFailsOnShortFile(names: seq<string>, tempDir: string, samOf: string -> seq<SamRecord>,
                               numReads: nat, i: nat, j: nat)
    requires i < |names| && j < |names|
    requires var n := |samOf(SamFile(tempDir, names[i], names[j]))|; n != numReads && n != 1
    ensures TensorSpec(names, tempDir, samOf, numReads).Err?
  {
    var row := PairRow(names, tempDir, samOf, numReads, i);
    RunFromStops(row, 0, j);
    RunFromStops(TensorSteps(names, tempDir, samOf, numReads), 0, i);
  }

  // ---------------------------------------------------------------------------------
  // The whole call

  /** What a call does and what it gives back. */
  datatype Run = Run(actions: seq<Action>, result: Result<seq<seq<seq<int>>>>)

  /** `similarity_matrix_raw(names, ref_pattern, index_pattern, temp_dir, simulator,
      mapper)`: the registry checks, then the rest of the call. */
  function SimilarityMatrixRawSpec(names: seq<string>, refPattern: string, indexPattern: string,
                                   tempDir: string, simulator: Option<string>, mapper: Option<string>,
                                   isDir: bool, fastqCount: string -> nat, samOf: string -> seq<SamRecord>): Run
  {
    match MapperOf(mapper)
    case None => Run([], Err(MapperMissing(mapper)))
    case Some(mt) =>
      match SimulatorOf(simulator)
      case None => Run([], Err(SimulatorMissing(simulator)))
      case Some(st) => RegisteredRun(mt, st, names, refPattern, indexPattern, tempDir, isDir, fastqCount, samOf)
  }

  /** The call past its registry checks: the directory, the file names, the simulator
      runs, the read count of the first simulated file, the mapper runs, then the
      tensor. */
  function RegisteredRun(mt: MapperTool, st: SimulatorTool, names: seq<string>, refPattern: string,
                         indexPattern: string, tempDir: string, isDir: bool, fastqCount: string -> nat,
                         samOf: string -> seq<SamRecord>): Run
  {
    var made := if isDir then [] else [MakeDirs(tempDir)];
    match Formatted(refPattern, names)
    case Err(e) => Run(made, Err(e))
    case Ok(refFiles) =>
      match Formatted(indexPattern, names)
      case Err(e) => Run(made, Err(e))
      case Ok(indexFiles) => After(made, NamedRun(mt, st, names, refFiles, indexFiles, tempDir, fastqCount, samOf))
  }

  /** A run after some actions already taken. */
  function After(done: seq<Action>, run: Run): Run
  {
    Run(done + run.actions, run.result)
  }

  /** The call once every file is named: the simulator runs, the read count of the
      first simulated file, the mapper runs, then the tensor. */
  function NamedRun(mt: MapperTool, st: SimulatorTool, names: seq<string>, refFiles: seq<string>,
                    indexFiles: seq<string>, tempDir: string, fastqCount: string -> nat,
                    samOf: string -> seq<SamRecord>): Run
    requires |refFiles| == |names| && |indexFiles| == |names|
  {
    var simFiles := SimFiles(tempDir, names);
    var simulated := SimCalls(st, refFiles, simFiles);
    if |names| == 0 then Run(simulated, Err(IndexError("list index out of range")))
    else
      Run(simulated + MapCalls(mt, names, indexFiles, simFiles, tempDir),
          TensorSpec(names, tempDir, samOf, fastqCount(simFiles[0])))
  }

  /** `[temp_dir + '/' + nm + '.fastq' for nm in names]` */
  function SimFiles(tempDir: string, names: seq<string>): (files: seq<string>)
    ensures |files| == |names|
    ensures forall i :: 0 <= i < |names| ==> files[i] == SimFile(tempDir, names[i])
  {
    seq(|names|, i requires 0 <= i < |names| => SimFile(tempDir, names[i]))
  }

  /** An unknown mapper or simulator raises before anything is done. */
  lemma UnknownToolDoesNothing(names: seq<string>, refPattern: string, indexPattern: string,
                               tempDir: string, simulator: Option<string>, mapper: Option<string>,
                               isDir: bool, fastqCount: string -> nat, samOf: string -> seq<SamRecord>)
    requires MapperOf(mapper).None? || SimulatorOf(simulator).None?
    ensures var run := SimilarityMatrixRawSpec(names, refPattern, indexPattern, tempDir, simulator, mapper,
                                               isDir, fastqCount, samOf);
      run.actions == [] && run.result.Err? && run.result.error.Exception?
  {
  }

  /** Once the files are named, the simulator runs once per genome in name order, and
      the `n * n` mapper runs all come after it. */
  lemma SimulationBeforeMapping(mt: MapperTool, st: SimulatorTool, names: seq<string>, refFiles: seq<string>,
                                indexFiles: seq<string>, tempDir: string, fastqCount: string -> nat,
                                samOf: string -> seq<SamRecord>)
    requires |refFiles| == |names| && |indexFiles| == |names| && |names| > 0
    ensures var run := NamedRun(mt, st, names, refFiles, indexFiles, tempDir, fastqCount, samOf);
      var n := |names|;
      && |run.actions| == n + n * n
      && (forall i :: 0 <= i < n ==> run.actions[i] == Simulate(st, refFiles[i], SimFile(tempDir, names[i])))
      && (forall p :: n <= p < |run.actions| ==> run.actions[p].Align?)
  {
    var simFiles := SimFiles(tempDir, names);
    var rows := MapRows(mt, names, indexFiles, simFiles, tempDir);
    FlattenLength(rows, |names|);
    var calls := MapCalls(mt, names, indexFiles, simFiles, tempDir);
    forall p | 0 <= p < |calls| ensures calls[p].Align? {
      FlattenAligns(rows, p);
    }
  }

  /** With known tools, the missing directory is created first, and nothing else creates
      one. */
  lemma DirectoryFirst(names: seq<string>, refPattern: string, indexPattern: string,
                       tempDir: string, simulator: Option<string>, mapper: Option<string>,
                       isDir: bool, fastqCount: string -> nat, samOf: string -> seq<SamRecord>)
    requires MapperOf(mapper).Some? && SimulatorOf(simulator).Some?
    ensures var run := SimilarityMatrixRawSpec(names, refPattern, indexPattern, tempDir, simulator, mapper,
                                               isDir, fastqCount, samOf);
      var made := if isDir then 0 else 1;
      && |run.actions| >= made
      && (!isDir ==> run.actions[0] == MakeDirs(tempDir))
      && (forall p :: made <= p < |run.actions| ==> !run.actions[p].MakeDirs?)
  {
    var mt, st := MapperOf(mapper).value, SimulatorOf(simulator).value;
    var refFiles, indexFiles := Formatted(refPattern, names), Formatted(indexPattern, names);
    if refFiles.Ok? && indexFiles.Ok? {
      var named := NamedRun(mt, st, names, refFiles.value, indexFiles.value, tempDir, fastqCount, samOf);
      if |names| > 0 {
        SimulationBeforeMapping(mt, st, names, refFiles.value, indexFiles.value, tempDir, fastqCount, samOf);
      }
      assert forall p :: 0 <= p < |named.actions| ==> !named.actions[p].MakeDirs?;
    }
  }

  lemma {:induction false} FlattenAligns(rows: seq<seq<Action>>, p: nat)
    requires forall r, c :: 0 <= r < |rows| && 0 <= c < |rows[r]| ==> rows[r][c].Align?
    requires p < |Flatten(rows)|
    ensures Flatten(rows)[p].Align?
  {
    var front := rows[..|rows| - 1];
    if p >= |Flatten(front)| {
      assert Flatten(rows)[p] == rows[|rows| - 1][p - |Flatten(front)|];
    } else {
      FlattenAligns(front, p);
    }
  }

  /** The read count is that of the first genome's simulated file only. */
  lemma ReadCountFromFirstFile(names: seq<string>, refPattern: string, indexPattern: string,
                               tempDir: string, simulator: Option<string>, mapper: Option<string>,
                               isDir: bool, fastqCount: string -> nat, samOf: string -> seq<SamRecord>)
    requires MapperOf(mapper).Some? && SimulatorOf(simulator).Some? && |names| > 0
    requires Formatted(refPattern, names).Ok? && Formatted(indexPattern, names).Ok?
    ensures SimilarityMatrixRawSpec(names, refPattern, indexPattern, tempDir, simulator, mapper,
                                    isDir, fastqCount, samOf).result
         == TensorSpec(names, tempDir, samOf, fastqCount(SimFile(tempDir, names[0])))
  {
  }

  // ---------------------------------------------------------------------------------
  // The imperative function

  /** The contents of a 3-D array. */
  function Cube(a: array3<int>): seq<seq<seq<int>>>
    reads a
  {
    seq(a.Length0, i requires 0 <= i < a.Length0 reads a =>
      seq(a.Length1, j requires 0 <= j < a.Length1 reads a =>
        seq(a.Length2, k requires 0 <= k < a.Length2 reads a => a[i, j, k])))
  }

  /** `mapped_reads[i,j,:] = row`: that slice changes, nothing else does. */
  method FillSlice(a: array3<int>, i: nat, j: nat, row: seq<int>)
    requires i < a.Length0 && j < a.Length1 && |row| == a.Length2
    modifies a
    ensures Cube(a) == old(Cube(a))[i := old(Cube(a))[i][j := row]]
  {
    var k := 0;
    while k < |row|
      invariant 0 <= k <= |row|
      invariant forall p, q, r :: 0 <= p < a.Length0 && 0 <= q < a.Length1 && 0 <= r < a.Length2 ==>
        a[p, q, r] == if p == i && q == j && r < k then row[r] else old(a[p, q, r])
      decreases |row| - k
    {
      a[i, j, k] := row[k];
      k := k + 1;
    }
    ghost var before := old(Cube(a));
    ghost var after := before[i := before[i][j := row]];
    forall p | 0 <= p < a.Length0 ensures Cube(a)[p] == after[p] {
      forall q | 0 <= q < a.Length1 ensures Cube(a)[p][q] == after[p][q] {
        assert forall r :: 0 <= r < a.Length2 ==> Cube(a)[p][q][r] == after[p][q][r];
      }
    }
  }

  /** The two mapping loops: one mapper run per pair, row by row. */
  method RunMappers(mt: MapperTool, names: seq<string>, indexFiles: seq<string>, simFiles: seq<string>,
                    tempDir: string) returns (calls: seq<Action>)
    requires |indexFiles| == |names| && |simFiles| == |names|
    ensures calls == MapCalls(mt, names, indexFiles, simFiles, tempDir)
  {
    ghost var rows := MapRows(mt, names, indexFiles, simFiles, tempDir);
    calls := [];
    var i := 0;
    while i < |names|
      invariant 0 <= i <= |names|
      invariant calls == Flatten(rows[..i])
      decreases |names| - i
    {
      var j := 0;
      while j < |names|
        invariant 0 <= j <= |names|
        invariant calls == Flatten(rows[..i]) + rows[i][..j]
        decreases |names| - j
      {
        var samfile := tempDir + "/" + names[i] + "-" + names[j] + ".sam";
        calls := calls + [Align(mt, indexFiles[j], simFiles[i], samfile)];
        assert rows[i][..j + 1] == rows[i][..j] + [rows[i][j]];
        j := j + 1;
      }
      assert rows[..i + 1][..i] == rows[..i];
      assert rows[i][..|names|] == rows[i];
      i := i + 1;
    }
    assert rows[..|names|] == rows;
  }

  /** The inner parsing loop for genome `i`: slices `[i, j, :]` for every `j`, or the
      exception of the first assignment that raises. */
  method FillRowOfSlices(a: array3<int>, names: seq<string>, tempDir: string, samOf: string -> seq<SamRecord>,
                         i: nat) returns (err: Option<Error>)
    requires a.Length0 == |names| && a.Length1 == |names| && i < |names|
    modifies a
    ensures err.Some? <==> RowOutcome(names, tempDir, samOf, a.Length2, i).Err?
    ensures err.Some? ==> RowOutcome(names, tempDir, samOf, a.Length2, i).error == err.value
    ensures err.None? ==>
      Cube(a)[..i + 1] == old(Cube(a))[..i] + [RowOutcome(names, tempDir, samOf, a.Length2, i).value]
  {
    ghost var steps := PairRow(names, tempDir, samOf, a.Length2, i);
    ghost var done: seq<seq<int>> := [];
    var j := 0;
    while j < |names|
      invariant 0 <= j <= |names| && |done| == j
      invariant RunFrom(steps, 0) == Prepend(done, RunFrom(steps, j))
      invariant Cube(a)[..i] == old(Cube(a))[..i]
      invariant Cube(a)[i][..j] == done
      decreases |names| - j
    {
      var samfile := SamFile(tempDir, names[i], names[j]);
      var row := FileRow(samOf(samfile), a.Length2);
      if row.Err? {
        RunFromRaises(steps, done, j);
        return Some(row.error);
      }
      ghost var before := Cube(a);
      FillSlice(a, i, j, row.value);
      assert Cube(a)[..i] == before[..i];
      UpdatedPrefix(before[i], j, row.value);
      RunFromYields(steps, done, j);
      done := done + [row.value];
      j := j + 1;
    }
    assert done + [] == done;
    assert Cube(a)[i] == Cube(a)[i][..j];
    assert Cube(a)[..i + 1] == Cube(a)[..i] + [Cube(a)[i]];
    err := None;
  }

  /** The parsing loops over a zeroed tensor: the filled tensor, or the exception. */
  method FillTensor(a: array3<int>, names: seq<string>, tempDir: string, samOf: string -> seq<SamRecord>)
    returns (err: Option<Error>)
    requires a.Length0 == |names| && a.Length1 == |names|
    modifies a
    ensures err.Some? ==> TensorSpec(names, tempDir, samOf, a.Length2) == Err(err.value)
    ensures err.None? ==> TensorSpec(names, tempDir, samOf, a.Length2) == Ok(Cube(a))
  {
    ghost var steps := TensorSteps(names, tempDir, samOf, a.Length2);
    ghost var done: seq<seq<seq<int>>> := [];
    var i := 0;
    while i < |names|
      invariant 0 <= i <= |names| && |done| == i
      invariant RunFrom(steps, 0) == Prepend(done, RunFrom(steps, i))
      invariant Cube(a)[..i] == done
      decreases |names| - i
    {
      err := FillRowOfSlices(a, names, tempDir, samOf, i);
      if err.Some? {
        RunFromRaises(steps, done, i);
        return;
      }
      RunFromYields(steps, done, i);
      done := done + [steps[i].value];
      i := i + 1;
    }
    assert done + [] == done;
    assert Cube(a) == Cube(a)[..i];
    err := None;
  }

  /** The simulation loop: one simulator run per genome, in order. */
  method RunSimulators(st: SimulatorTool, refFiles: seq<string>, simFiles: seq<string>) returns (calls: seq<Action>)
    requires |refFiles| == |simFiles|
    ensures calls == SimCalls(st, refFiles, simFiles)
  {
    calls := [];
    var i := 0;
    while i < |refFiles|
      invariant 0 <= i <= |refFiles|
      invariant calls == SimCalls(st, refFiles, simFiles)[..i]
      decreases |refFiles| - i
    {
      calls := calls + [Simulate(st, refFiles[i], simFiles[i])];
      i := i + 1;
    }
  }

  /** `similarity_matrix_raw`: the actions taken, and the tensor or the exception. */
  method SimilarityMatrixRaw(names: seq<string>, refPattern: string, indexPattern: string,
                             tempDir: string, simulator: Option<string>, mapper: Option<string>,
                             isDir: bool, fastqCount: string -> nat, samOf: string -> seq<SamRecord>)
    returns (actions: seq<Action>, r: Result<array3<int>>)
    ensures var spec := SimilarityMatrixRawSpec(names, refPattern, indexPattern, tempDir, simulator, mapper,
                                                isDir, fastqCount, samOf);
      && actions == spec.actions
      && (r.Err? ==> spec.result == Err(r.error))
      && (r.Ok? ==> fresh(r.value) && spec.result == Ok(Cube(r.value)))
  {
    var mt := MapperOf(mapper);
    if mt.None? {
      return [], Err(MapperMissing(mapper));
    }
    var st := SimulatorOf(simulator);
    if st.None? {
      return [], Err(SimulatorMissing(simulator));
    }
    actions, r := RunRegistered(mt.value, st.value, names, refPattern, indexPattern, tempDir, isDir, fastqCount, samOf);
  }

  /** The call past its registry checks. */
  method RunRegistered(mt: MapperTool, st: SimulatorTool, names: seq<string>, refPattern: string,
                       indexPattern: string, tempDir: string, isDir: bool, fastqCount: string -> nat,
                       samOf: string -> seq<SamRecord>) returns (actions: seq<Action>, r: Result<array3<int>>)
    ensures var spec := RegisteredRun(mt, st, names, refPattern, indexPattern, tempDir, isDir, fastqCount, samOf);
      && actions == spec.actions
      && (r.Err? ==> spec.result == Err(r.error))
      && (r.Ok? ==> fresh(r.value) && spec.result == Ok(Cube(r.value)))
  {
    actions := [];
    if !isDir {
      actions := actions + [MakeDirs(tempDir)];
    }
    var refFiles := Formatted(refPattern, names);
    if refFiles.Err? {
      return actions, Err(refFiles.error);
    }
    var indexFiles := Formatted(indexPattern, names);
    if indexFiles.Err? {
      return actions, Err(indexFiles.error);
    }
    var named, result := RunNamed(mt, st, names, refFiles.value, indexFiles.value, tempDir, fastqCount, samOf);
    actions, r := actions + named, result;
  }

  /** The call once every file is named. */
  method RunNamed(mt: MapperTool, st: SimulatorTool, names: seq<string>, refFiles: seq<string>,
                  indexFiles: seq<string>, tempDir: string, fastqCount: string -> nat,
                  samOf: string -> seq<SamRecord>) returns (actions: seq<Action>, r: Result<array3<int>>)
    requires |refFiles| == |names| && |indexFiles| == |names|
    ensures var spec := NamedRun(mt, st, names, refFiles, indexFiles, tempDir, fastqCount, samOf);
      && actions == spec.actions
      && (r.Err? ==> spec.result == Err(r.error))
      && (r.Ok? ==> fresh(r.value) && spec.result == Ok(Cube(r.value)))
  {
    var n := |names|;
    var simFiles := SimFiles(tempDir, names);
    actions := RunSimulators(st, refFiles, simFiles);
    if n == 0 {
      return actions, Err(IndexError("list index out of range"));
    }
    var numReads := fastqCount(simFiles[0]);
    var calls := RunMappers(mt, names, indexFiles, simFiles, tempDir);
    actions := actions + calls;
    var mapped := new int[n, n, numReads]((_, _, _) => 0);
    var err := FillTensor(mapped, names, tempDir, samOf);
    if err.Some? {
      return actions, Err(err.value);
    }
    r := Ok(mapped);
  }
}
