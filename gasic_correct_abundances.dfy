/** lib/gasic-r16/gasic_correct_abundances.py: the script form of the similarity
    correction. Its SAM files are named by `sam_pattern % name`; otherwise the matrix is
    filled as in lib/gasicBatch/CorrectAbundances.py, whose model it reuses, and its
    `unique` is the same code, modelled there as `CorrectAbundances.Unique`. The script
    then writes one results line per genome. */
module GasicCorrectAbundances {
  import opened Wrappers
  import opened PyStr
  import opened Sam
  import opened CorrectAbundances

  /** Each name's row: its SAM file name, then the row that file gives. */
  function PatternRows(names: seq<string>, samPattern: string, samOf: string -> seq<SamRecord>, total: nat)
    : (steps: seq<Result<seq<int>>>)
    ensures |steps| == |names|
  {
    seq(|names|, i requires 0 <= i < |names| =>
      match PercentFormat(samPattern, names[i])
      case Err(e) => Err(e)
      case Ok(f) => FileRow(samOf(f), total))
  }

  /** `similarity_correction(names, smat_raw, sam_pattern, ...)` up to the bootstrap:
      `total` is the record count of the first name's file, then every name fills its
      row in turn. */
  function PatternMappingSpec(names: seq<string>, samPattern: string, samOf: string -> seq<SamRecord>)
    : Result<MappingTable>
  {
    if |names| == 0 then Err(IndexError("list index out of range"))
    else
      match PercentFormat(samPattern, names[0])
      case Err(e) => Err(e)
      case Ok(f) =>
        var total := |samOf(f)|;
        Tabulate(total, PatternRows(names, samPattern, samOf, total))
  }

  /** The file names `sam_pattern % name`, when the pattern takes every name. */
  function SamFileNames(names: seq<string>, samPattern: string): (files: seq<string>)
    requires forall i :: 0 <= i < |names| ==> PercentFormat(samPattern, names[i]).Ok?
    ensures |files| == |names|
  {
    seq(|names|, i requires 0 <= i < |names| => PercentFormat(samPattern, names[i]).value)
  }

  /** When the pattern takes every name, the script computes what `similarityCorrection`
      computes on the named files. */
  lemma PatternAgreesWithFiles(names: seq<string>, samPattern: string, samOf: string -> seq<SamRecord>)
    requires forall i :: 0 <= i < |names| ==> PercentFormat(samPattern, names[i]).Ok?
    ensures PatternMappingSpec(names, samPattern, samOf) == MappingSpec(SamFileNames(names, samPattern), samOf)
  {
    if |names| > 0 {
      var files := SamFileNames(names, samPattern);
      var total := |samOf(files[0])|;
      assert PatternRows(names, samPattern, samOf, total) == SamRows(files, samOf, total);
    }
  }

  /** A pattern without a `%s` cannot name any file: the script raises before reading
      anything. */
  lemma PatternWithoutPlaceholder(names: seq<string>, samPattern: string, samOf: string -> seq<SamRecord>)
    requires '%' !in samPattern && |names| > 0
    ensures PatternMappingSpec(names, samPattern, samOf).Err?
  {
    NoPlaceholderRaises(samPattern, names[0]);
  }

  /** `similarity_correction` up to the bootstrap: the arrays it fills, or the exception
      it raises. */
  method SimilarityCorrection(names: seq<string>, samPattern: string, samOf: string -> seq<SamRecord>)
    returns (r: Result<Mapping>)
    ensures r.Err? ==> PatternMappingSpec(names, samPattern, samOf) == Err(r.error)
    ensures r.Ok? ==> (fresh(r.value.mapped) && fresh(r.value.numReads)
      && PatternMappingSpec(names, samPattern, samOf) == Ok(Contents(r.value)))
  {
    if |names| == 0 {
      return Err(IndexError("list index out of range"));
    }
    var first := PercentFormat(samPattern, names[0]);
    if first.Err? {
      return Err(first.error);
    }
    var total := |samOf(first.value)|;
    ghost var steps := PatternRows(names, samPattern, samOf, total);
    var mapped := new int[|names|, total]((_, _) => 0);
    var numReads := new int[|names|](_ => 0);
    ghost var done: seq<seq<int>> := [];
    var i := 0;
    while i < |names|
      invariant 0 <= i <= |names| && |done| == i
      invariant RunFrom(steps, 0) == Prepend(done, RunFrom(steps, i))
      invariant Rows(mapped)[..i] == done && numReads[..i] == RowSums(done)
      decreases |names| - i
    {
      var file := PercentFormat(samPattern, names[i]);
      var row := if file.Err? then Err(file.error) else FileRow(samOf(file.value), total);
      if row.Err? {
        RunFromRaises(steps, done, i);
        return Err(row.error);
      }
      ghost var rowsBefore, countsBefore := Rows(mapped), numReads[..];
      FillRow(mapped, numReads, i, row.value);
      UpdatedPrefix(rowsBefore, i, row.value);
      UpdatedPrefix(countsBefore, i, Sum(row.value));
      assert RowSums(done + [row.value]) == RowSums(done) + [Sum(row.value)];
      RunFromYields(steps, done, i);
      done := done + [row.value];
      i := i + 1;
    }
    assert done + [] == done;
    assert Rows(mapped) == Rows(mapped)[..i] && numReads[..] == numReads[..i];
    r := Ok(Mapping(total, mapped, numReads));
  }

  // ---------------------------------------------------------------------------------
  // How unique counts add up

  /** The union of all the sets. */
  function UnionAll(sets: seq<set<string>>): set<string>
  {
    UnionExcept(sets, -1, |sets|)
  }

  /** No two of the sets share an element. */
  predicate PairwiseDisjoint(u: seq<set<string>>)
  {
    forall m, n :: 0 <= m < n < |u| ==> u[m] !! u[n]
  }

  /** The sizes of the first `k` of pairwise disjoint sets add up to the size of their
      union. */
  lemma {:induction false} DisjointSizesSum(u: seq<set<string>>, k: nat)
    requires k <= |u| && PairwiseDisjoint(u)
    ensures Sum(Sizes(u)[..k]) == |UnionExcept(u, -1, k)|
  {
    if k > 0 {
      DisjointSizesSum(u, k - 1);
      var sizes := Sizes(u);
      assert sizes[..k][..k - 1] == sizes[..k - 1];
      var before := UnionExcept(u, -1, k - 1);
      forall x | x in before ensures x !in u[k - 1] {
        UnionExceptMember(u, -1, k - 1, x);
      }
      assert before * u[k - 1] == {};
    }
  }

  /** The unique sets of different species are disjoint. */
  lemma UniquePairwiseDisjoint(sets: seq<set<string>>)
    ensures PairwiseDisjoint(UniqueSets(sets))
  {
    forall m, n | 0 <= m < n < |sets| ensures UniqueSets(sets)[m] !! UniqueSets(sets)[n] {
      UniqueDisjoint(sets, m, n);
    }
  }

  /** Every unique name is a mapped name of some species. */
  lemma UniqueWithinUnion(sets: seq<set<string>>)
    ensures UnionAll(UniqueSets(sets)) <= UnionAll(sets)
  {
    var u := UniqueSets(sets);
    forall x | x in UnionAll(u) ensures x in UnionAll(sets) {
      UnionExceptMember(u, -1, |u|, x);
      var m :| 0 <= m < |u| && x in u[m];
      UniqueMember(sets, m, x);
      UnionExceptMember(sets, -1, |sets|, x);
    }
  }

  /** The unique counts of all species add up to at most the number of distinct mapped
      read names. */
  lemma UniqueSumBound(sets: seq<set<string>>)
    ensures Sum(Sizes(UniqueSets(sets))) <= |UnionAll(sets)|
  {
    var u := UniqueSets(sets);
    UniquePairwiseDisjoint(sets);
    DisjointSizesSum(u, |sets|);
    assert Sizes(u)[..|sets|] == Sizes(u);
    UniqueWithinUnion(sets);
    var a, b := UnionAll(u), UnionAll(sets);
    assert b == a + (b - a);
  }

  // ---------------------------------------------------------------------------------
  // The results file

  const ResultsHeader: string := "#genome name\tmapped reads\testimated reads\testimated error\tp-value\n"

  /** The printed estimates of one genome: corrected reads, their error and the p-value,
      as the float formatting gives them. */
  datatype Estimate = Estimate(corr: string, error: string, pval: string)

  /** `'{}'.format(x)` of a float that holds a whole number. */
  function FloatText(n: int): string
  {
    IntToString(n) + ".0"
  }

  /** The fields of one results line. */
  function ResultFields(name: string, mapped: int, e: Estimate): seq<string>
  {
    [name, FloatText(mapped), e.corr, e.error, e.pval]
  }

  /** One results line: its fields joined by tabs, then a newline. */
  function ResultLine(name: string, mapped: int, e: Estimate): string
  {
    Join(ResultFields(name, mapped, e), "\t") + "\n"
  }

  /** The writing loop of the main block: the header, then one line per name in order. */
  method WriteResults(names: seq<string>, numReads: seq<int>, estimates: seq<Estimate>) returns (lines: seq<string>)
    requires |numReads| == |names| && |estimates| == |names|
    ensures |lines| == |names| + 1 && lines[0] == ResultsHeader
    ensures forall k :: 0 <= k < |names| ==> lines[k + 1] == ResultLine(names[k], numReads[k], estimates[k])
  {
    lines := [ResultsHeader];
    var k := 0;
    while k < |names|
      invariant 0 <= k <= |names| && |lines| == k + 1 && lines[0] == ResultsHeader
      invariant forall j :: 0 <= j < k ==> lines[j + 1] == ResultLine(names[j], numReads[j], estimates[j])
      decreases |names| - k
    {
      var line := ResultLine(names[k], numReads[k], estimates[k]);
      assert forall j :: 0 <= j < |lines| ==> (lines + [line])[j] == lines[j];
      lines := lines + [line];
      k := k + 1;
    }
  }

  /** A line read back: without its newline and split on tabs, it gives the name, the
      mapped count and the estimates, provided none of them holds a tab. */
  lemma ResultLineFields(name: string, mapped: int, e: Estimate)
    requires '\t' !in name && '\t' !in e.corr && '\t' !in e.error && '\t' !in e.pval
    ensures var line := ResultLine(name, mapped, e);
      Split(line[..|line| - 1], '\t') == [name, FloatText(mapped), e.corr, e.error, e.pval]
  {
    var fields := ResultFields(name, mapped, e);
    var line := ResultLine(name, mapped, e);
    assert line[..|line| - 1] == Join(fields, "\t");
    assert '\t' !in FloatText(mapped);
    SplitJoin(fields, '\t');
  }
}
