/** lib/gasicBatch/CorrectAbundances.py: the mapping matrix that the similarity
    correction starts from, the per-species count of unique reads, and the record that
    holds a correction's results.

    Reading a SAM file is the `samOf` parameter, from file name to its records.
    `gasic.bootstrap_par`, which turns the matrix into the corrected abundances, is not
    part of this model. */
module CorrectAbundances {
  import opened Wrappers
  import opened PyStr
  import opened Sam

  // ---------------------------------------------------------------------------------
  // The mapping matrix of `similarityCorrection`

  /** numpy's message when a row of one length is assigned to a row of another. */
  function BroadcastMessage(given: nat, total: nat): string
  {
    "could not broadcast input array from shape (" + NatToString(given) + ") into shape ("
      + NatToString(total) + ")"
  }

  /** numpy's row assignment `mapped[i,:] = row` into a row of `total` cells: a row of
      that length is copied, a single value is repeated, any other length raises. */
  function Broadcast(row: seq<int>, total: nat): (r: Result<seq<int>>)
    ensures r.Ok? <==> |row| == total || |row| == 1
    ensures r.Ok? ==> |r.value| == total
    ensures r.Ok? ==> forall j :: 0 <= j < total ==> r.value[j] == row[if |row| == total then j else 0]
    ensures r.Err? ==> r.error == ValueError(BroadcastMessage(|row|, total))
  {
    if |row| == total then Ok(row)
    else if |row| == 1 then Ok(seq(total, _ => row[0]))
    else Err(ValueError(BroadcastMessage(|row|, total)))
  }

  /** The row a SAM file gives in a matrix of `total` columns. */
  function FileRow(rs: seq<SamRecord>, total: nat): Result<seq<int>>
  {
    Broadcast(Indicators(rs), total)
  }

  /** Each file's row, in file order. */
  function SamRows(samFiles: seq<string>, samOf: string -> seq<SamRecord>, total: nat): (steps: seq<Result<seq<int>>>)
    ensures |steps| == |samFiles|
  {
    seq(|samFiles|, i requires 0 <= i < |samFiles| => FileRow(samOf(samFiles[i]), total))
  }

  /** `total`, the matrix `mapped` and `num_reads`, as values. */
  datatype MappingTable = MappingTable(total: nat, mapped: seq<seq<int>>, numReads: seq<int>)

  /** The sum of each row. */
  function RowSums(rows: seq<seq<int>>): (sums: seq<int>)
    ensures |sums| == |rows|
  {
    seq(|rows|, i requires 0 <= i < |rows| => Sum(rows[i]))
  }

  /** Filling rows in order until one raises. */
  function Tabulate(total: nat, steps: seq<Result<seq<int>>>): Result<MappingTable>
  {
    var it := RunFrom(steps, 0);
    if it.stop.Some? then Err(it.stop.value) else Ok(MappingTable(total, it.yielded, RowSums(it.yielded)))
  }

  /** `similarityCorrection` up to the bootstrap: `total` is the record count of the
      first file (IndexError without files), then each file fills its row and its count. */
  function MappingSpec(samFiles: seq<string>, samOf: string -> seq<SamRecord>): Result<MappingTable>
  {
    if |samFiles| == 0 then Err(IndexError("list index out of range"))
    else
      var total := |samOf(samFiles[0])|;
      Tabulate(total, SamRows(samFiles, samOf, total))
  }

  /** A successful run has one row of `total` cells and one count per file. */
  lemma MappingShape(samFiles: seq<string>, samOf: string -> seq<SamRecord>)
    requires MappingSpec(samFiles, samOf).Ok?
    ensures var t := MappingSpec(samFiles, samOf).value;
      && t.total == |samOf(samFiles[0])|
      && |t.mapped| == |samFiles| && |t.numReads| == |samFiles|
      && forall i :: 0 <= i < |samFiles| ==> |t.mapped[i]| == t.total
  {
    var total := |samOf(samFiles[0])|;
    var steps := SamRows(samFiles, samOf, total);
    var it := RunFrom(steps, 0);
    forall i | 0 <= i < |samFiles| ensures |it.yielded[i]| == total {
      assert steps[i] == FileRow(samOf(samFiles[i]), total);
    }
  }

  /** Where a file holds `total` records, entry `j` of its row is 1 exactly when record
      `j` is mapped, and its count is the number of mapped records. */
  lemma MappedEntries(samFiles: seq<string>, samOf: string -> seq<SamRecord>, i: nat)
    requires MappingSpec(samFiles, samOf).Ok? && i < |samFiles|
    requires |samOf(samFiles[i])| == |samOf(samFiles[0])|
    ensures var t := MappingSpec(samFiles, samOf).value; var rs := samOf(samFiles[i]);
      && |t.mapped[i]| == |rs|
      && (forall j :: 0 <= j < |rs| ==> (t.mapped[i][j] == 1 <==> !IsUnmapped(rs[j])))
      && t.numReads[i] == CountMapped(rs)
  {
    var total := |samOf(samFiles[0])|;
    var steps := SamRows(samFiles, samOf, total);
    var it := RunFrom(steps, 0);
    assert steps[i] == FileRow(samOf(samFiles[i]), total);
    assert it.yielded[i] == Indicators(samOf(samFiles[i]));
    SumIndicators(samOf(samFiles[i]));
  }

  /** A row of zeros and ones sums to at most its length. */
  lemma {:induction false} SumIndicatorRow(s: seq<int>)
    requires forall j :: 0 <= j < |s| ==> s[j] == 0 || s[j] == 1
    ensures 0 <= Sum(s) <= |s|
  {
    if s != [] {
      var front := s[..|s| - 1];
      assert forall j :: 0 <= j < |front| ==> front[j] == s[j];
      SumIndicatorRow(front);
    }
  }

  /** Every count lies between 0 and `total`, a repeated single value included. */
  lemma NumReadsBounded(samFiles: seq<string>, samOf: string -> seq<SamRecord>, i: nat)
    requires MappingSpec(samFiles, samOf).Ok? && i < |samFiles|
    ensures var t := MappingSpec(samFiles, samOf).value; 0 <= t.numReads[i] <= t.total
  {
    var total := |samOf(samFiles[0])|;
    var steps := SamRows(samFiles, samOf, total);
    var it := RunFrom(steps, 0);
    var ind := Indicators(samOf(samFiles[i]));
    assert steps[i] == Broadcast(ind, total);
    var row := it.yielded[i];
    assert forall j :: 0 <= j < |row| ==> row[j] == 0 || row[j] == 1 by {
      forall j | 0 <= j < |row| ensures row[j] == 0 || row[j] == 1 {
        var k := if |ind| == total then j else 0;
        assert row[j] == ind[k];
      }
    }
    SumIndicatorRow(row);
  }

  /** With at least one file, the computation raises exactly when some file's record
      count is neither `total` nor 1, and then with the ValueError of the first such
      file. */
  lemma MappingFails(samFiles: seq<string>, samOf: string -> seq<SamRecord>)
    requires |samFiles| > 0
    ensures var total := |samOf(samFiles[0])|;
      MappingSpec(samFiles, samOf).Err? <==>
        exists i :: 0 <= i < |samFiles| && |samOf(samFiles[i])| != total && |samOf(samFiles[i])| != 1
    ensures var total := |samOf(samFiles[0])|;
      forall i :: (0 <= i < |samFiles| && |samOf(samFiles[i])| != total && |samOf(samFiles[i])| != 1
        && (forall k :: 0 <= k < i ==> |samOf(samFiles[k])| == total || |samOf(samFiles[k])| == 1)
        ==> MappingSpec(samFiles, samOf) == Err(ValueError(BroadcastMessage(|samOf(samFiles[i])|, total))))
  {
    var total := |samOf(samFiles[0])|;
    var steps := SamRows(samFiles, samOf, total);
    var it := RunFrom(steps, 0);
    if it.stop.Some? {
      var i := |it.yielded|;
      assert steps[i] == FileRow(samOf(samFiles[i]), total);
    }
    assert forall k :: 0 <= k < |it.yielded| ==> steps[k] == Ok(it.yielded[k]);
    forall i | 0 <= i < |samFiles| && |samOf(samFiles[i])| != total && |samOf(samFiles[i])| != 1
      ensures it.stop.Some? && |it.yielded| <= i
    {
      assert steps[i] == FileRow(samOf(samFiles[i]), total);
    }
    forall i | (0 <= i < |samFiles| && |samOf(samFiles[i])| != total && |samOf(samFiles[i])| != 1
        && (forall k :: 0 <= k < i ==> |samOf(samFiles[k])| == total || |samOf(samFiles[k])| == 1))
      ensures |it.yielded| == i
    {
      assert steps[i] == FileRow(samOf(samFiles[i]), total);
      var e := |it.yielded|;
      assert steps[e] == FileRow(samOf(samFiles[e]), total);
    }
  }

  /** The contents of a 2-D array, row by row. */
  function Rows(a: array2<int>): (rows: seq<seq<int>>)
    reads a
    ensures |rows| == a.Length0
    ensures forall i :: 0 <= i < a.Length0 ==> |rows[i]| == a.Length1
  {
    seq(a.Length0, i requires 0 <= i < a.Length0 reads a =>
      seq(a.Length1, j requires 0 <= j < a.Length1 reads a => a[i, j]))
  }

  /** The arrays `similarityCorrection` fills. */
  datatype Mapping = Mapping(total: nat, mapped: array2<int>, numReads: array<int>)

  /** What the arrays hold. */
  function Contents(m: Mapping): MappingTable
    reads m.mapped, m.numReads
  {
    MappingTable(m.total, Rows(m.mapped), m.numReads[..])
  }

  /** `mapped[i,:] = row` followed by `num_reads[i] = sum(mapped[i,:])`: row `i` and
      count `i` change, nothing else does. */
  method FillRow(mapped: array2<int>, numReads: array<int>, i: nat, row: seq<int>)
    requires i < mapped.Length0 == numReads.Length && |row| == mapped.Length1
    modifies mapped, numReads
    ensures Rows(mapped) == old(Rows(mapped))[i := row]
    ensures numReads[..] == old(numReads[..])[i := Sum(row)]
  {
    var s := 0;
    var j := 0;
    while j < |row|
      invariant 0 <= j <= |row|
      invariant s == Sum(row[..j])
      invariant unchanged(numReads)
      invariant forall i', j' :: 0 <= i' < mapped.Length0 && 0 <= j' < mapped.Length1 ==>
        mapped[i', j'] == if i' == i && j' < j then row[j'] else old(mapped[i', j'])
      decreases |row| - j
    {
      mapped[i, j] := row[j];
      assert row[..j + 1][..j] == row[..j];
      s := s + row[j];
      j := j + 1;
    }
    assert row[..|row|] == row;
    numReads[i] := s;
    forall k | 0 <= k < mapped.Length0 ensures Rows(mapped)[k] == old(Rows(mapped))[i := row][k] {
      if k == i {
        assert forall j' :: 0 <= j' < |row| ==> Rows(mapped)[k][j'] == row[j'];
      } else {
        assert forall j' :: 0 <= j' < mapped.Length1 ==> Rows(mapped)[k][j'] == old(Rows(mapped))[k][j'];
      }
    }
  }

  /** Updating element `i` and keeping the elements up to it. */
  lemma UpdatedPrefix<T>(s: seq<T>, i: nat, x: T)
    requires i < |s|
    ensures s[i := x][..i + 1] == s[..i] + [x]
  {
  }

  /** `similarityCorrection(samFiles, ...)` up to the bootstrap: the arrays it fills, or
      the exception it raises. */
  method SimilarityCorrection(samFiles: seq<string>, samOf: string -> seq<SamRecord>) returns (r: Result<Mapping>)
    ensures r.Err? ==> MappingSpec(samFiles, samOf) == Err(r.error)
    ensures r.Ok? ==> (fresh(r.value.mapped) && fresh(r.value.numReads)
      && MappingSpec(samFiles, samOf) == Ok(Contents(r.value)))
  {
    if |samFiles| == 0 {
      return Err(IndexError("list index out of range"));
    }
    var total := |samOf(samFiles[0])|;
    ghost var steps := SamRows(samFiles, samOf, total);
    var mapped := new int[|samFiles|, total]((_, _) => 0);
    var numReads := new int[|samFiles|](_ => 0);
    ghost var done: seq<seq<int>> := [];
    var i := 0;
    while i < |samFiles|
      invariant 0 <= i <= |samFiles| && |done| == i
      invariant RunFrom(steps, 0) == Prepend(done, RunFrom(steps, i))
      invariant Rows(mapped)[..i] == done && numReads[..i] == RowSums(done)
      decreases |samFiles| - i
    {
      var row := FileRow(samOf(samFiles[i]), total);
      if row.Err? {
        RunFromRaises(steps, done, i);
        return Err(row.error);
      }
      ghost var rowsBefore, countsBefore := Rows(mapped), numReads[..];
      FillRow(mapped, numReads, i, row.value);
      UpdatedPrefix(rowsBefore, i, row.value);
      UpdatedPrefix(countsBefore, i, Sum(row.value));
      assert RowSums(done + [row.value]) == RowSums(done) + [Sum(row.value)];
      RunFromYields(steps, done, i);
      done := done + [row.value];
      i := i + 1;
    }
    assert done + [] == done;
    assert Rows(mapped) == Rows(mapped)[..i] && numReads[..] == numReads[..i];
    r := Ok(Mapping(total, mapped, numReads));
  }

  // ---------------------------------------------------------------------------------
  // Unique reads

  /** The union of `sets[m]` over `m < upTo` other than `n`. */
  function UnionExcept(sets: seq<set<string>>, n: int, upTo: nat): set<string>
    requires upTo <= |sets|
  {
    if upTo == 0 then {}
    else UnionExcept(sets, n, upTo - 1) + (if upTo - 1 != n then sets[upTo - 1] else {})
  }

  lemma {:induction false} UnionExceptMember(sets: seq<set<string>>, n: int, upTo: nat, x: string)
    requires upTo <= |sets|
    ensures x in UnionExcept(sets, n, upTo) <==> exists m :: 0 <= m < upTo && m != n && x in sets[m]
  {
    if upTo > 0 {
      UnionExceptMember(sets, n, upTo - 1, x);
    }
  }

  /** The read names mapped in species `n` and in no other species. */
  function UniqueSets(sets: seq<set<string>>): (u: seq<set<string>>)
    ensures |u| == |sets|
  {
    seq(|sets|, n requires 0 <= n < |sets| => sets[n] - UnionExcept(sets, n, |sets|))
  }

  /** A name is unique to species `n` exactly when species `n` has it and no other does. */
  lemma UniqueMember(sets: seq<set<string>>, n: nat, x: string)
    requires n < |sets|
    ensures x in UniqueSets(sets)[n] <==> x in sets[n] && forall m :: 0 <= m < |sets| && m != n ==> x !in sets[m]
  {
    UnionExceptMember(sets, n, |sets|, x);
  }

  /** Unique sets of different species share no name, and each lies within its
      species' mapped names. */
  lemma UniqueDisjoint(sets: seq<set<string>>, n: nat, m: nat)
    requires n < |sets| && m < |sets| && n != m
    ensures UniqueSets(sets)[n] !! UniqueSets(sets)[m]
    ensures UniqueSets(sets)[n] <= sets[n]
  {
    forall x | x in UniqueSets(sets)[n] ensures x !in UniqueSets(sets)[m] && x in sets[n] {
      UniqueMember(sets, n, x);
      UniqueMember(sets, m, x);
    }
  }

  /** The sizes of the sets, as `np.array([len(unq) for unq in ...])`. */
  function Sizes(sets: seq<set<string>>): (sizes: seq<int>)
    ensures |sizes| == |sets|
  {
    seq(|sets|, n requires 0 <= n < |sets| => |sets[n]|)
  }

  /** Each file name `sam_pattern % nm`, in name order. */
  function FormatSteps(samPattern: string, names: seq<string>): (steps: seq<Result<string>>)
    ensures |steps| == |names|
  {
    seq(|names|, n requires 0 <= n < |names| => PercentFormat(samPattern, names[n]))
  }

  /** `unique(names, sam_pattern)`: the number of unique mapped read names per species,
      or the exception of the first name the pattern cannot take. */
  function UniqueSpec(names: seq<string>, samPattern: string, samOf: string -> seq<SamRecord>): Result<seq<int>>
  {
    var it := RunFrom(FormatSteps(samPattern, names), 0);
    if it.stop.Some? then Err(it.stop.value)
    else Ok(Sizes(UniqueSets(seq(|names|, n requires 0 <= n < |names| => MappedNames(samOf(it.yielded[n]))))))
  }

  /** The inner loop of `unique`'s first pass: the names of a file's mapped reads,
      added one record at a time to the species' set, which starts empty. */
  method CollectMappedNames(rs: seq<SamRecord>) returns (names: set<string>)
    ensures names == MappedNames(rs)
  {
    names := {};
    var j := 0;
    while j < |rs|
      invariant 0 <= j <= |rs|
      invariant names == MappedNames(rs[..j])
      decreases |rs| - j
    {
      assert rs[..j + 1][..j] == rs[..j];
      if !IsUnmapped(rs[j]) {
        names := names + {rs[j].qname};
      }
      j := j + 1;
    }
    assert rs[..|rs|] == rs;
  }

  /** The inner loop of `unique`'s second pass: the union of the other species' sets. */
  method Others(sets: seq<set<string>>, n: nat) returns (others: set<string>)
    ensures others == UnionExcept(sets, n, |sets|)
  {
    others := {};
    var m := 0;
    while m < |sets|
      invariant 0 <= m <= |sets|
      invariant others == UnionExcept(sets, n, m)
      decreases |sets| - m
    {
      if n != m {
        others := others + sets[m];
      }
      m := m + 1;
    }
  }

  /** `unique(names, sam_pattern)`: the first loop collects each species' mapped read
      names, the second removes those of the other species. */
  method Unique(names: seq<string>, samPattern: string, samOf: string -> seq<SamRecord>) returns (r: Result<seq<int>>)
    ensures r == UniqueSpec(names, samPattern, samOf)
  {
    ghost var steps := FormatSteps(samPattern, names);
    ghost var files: seq<string> := [];
    var mappedNames: seq<set<string>> := seq(|names|, _ => {});
    var n := 0;
    while n < |names|
      invariant 0 <= n <= |names| && |files| == n && |mappedNames| == |names|
      invariant RunFrom(steps, 0) == Prepend(files, RunFrom(steps, n))
      invariant forall k :: 0 <= k < n ==> mappedNames[k] == MappedNames(samOf(files[k]))
      decreases |names| - n
    {
      var f := PercentFormat(samPattern, names[n]);
      if f.Err? {
        RunFromRaises(steps, files, n);
        return Err(f.error);
      }
      var found := CollectMappedNames(samOf(f.value));
      mappedNames := mappedNames[n := found];
      RunFromYields(steps, files, n);
      files := files + [f.value];
      n := n + 1;
    }
    assert files + [] == files;
    assert mappedNames == seq(|names|, k requires 0 <= k < |names| => MappedNames(samOf(files[k])));
    var uniqueNames: seq<set<string>> := seq(|names|, _ => {});
    n := 0;
    while n < |names|
      invariant 0 <= n <= |names| && |uniqueNames| == |names|
      invariant forall k :: 0 <= k < n ==> uniqueNames[k] == UniqueSets(mappedNames)[k]
      decreases |names| - n
    {
      var others := Others(mappedNames, n);
      uniqueNames := uniqueNames[n := mappedNames[n] - others];
      n := n + 1;
    }
    assert uniqueNames == UniqueSets(mappedNames);
    r := Ok(Sizes(uniqueNames));
  }

  // ---------------------------------------------------------------------------------
  // The results record

  /** `CorrAbundRes`: a correction's results, kept as given. */
  class CorrAbundRes {
    var total: nat
    var numReads: seq<int>
    var corr: seq<real>
    var err: seq<real>
    var p: seq<real>

    constructor (total: nat, numReads: seq<int>, corr: seq<real>, err: seq<real>, p: seq<real>)
      ensures this.total == total && this.numReads == numReads
      ensures this.corr == corr && this.err == err && this.p == p
    {
      this.total := total;
      this.numReads := numReads;
      this.corr := corr;
      this.err := err;
      this.p := p;
    }
  }
}
