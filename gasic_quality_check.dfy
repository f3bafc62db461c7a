/** lib/gasic-r16/gasic_quality_check.py: the per-file loop of the main block. For
    each SAM file it lays the reference's contigs end to end in one coverage array,
    adds one to every position each mapped read covers, and counts the reads.

    A SAM file is given as its header's contig lengths (`sf.lengths`) and its records.
    The floating-point statistics, the histogram and the report file are not modelled. */
module GasicQualityCheck {
  import opened Wrappers
  import opened PyStr
  import opened PyPath
  import opened Sam

  /** `os.path.splitext(os.path.split(nm)[1])[0]`: the file's base name without its
      extension. */
  function DatasetName(nm: string): string
  {
    SplitExt(Basename(nm)).0
  }

  /** A file `root.sam` in any directory is named `root`, provided the root has a
      character other than a dot. */
  lemma DatasetNameOfSamFile(dir: string, root: string, k: nat)
    requires '/' !in root && k < |root| && root[k] != '.'
    ensures DatasetName(PathJoin(dir, root + ".sam")) == root
  {
    BasenameOfJoin(dir, root + ".sam");
    assert root + ".sam" == root + "." + "sam";
    assert RFind(root, '/') == -1;
    SplitExtAddExt(root, "sam", k);
  }

  // ---------------------------------------------------------------------------------
  // Where each contig starts

  /** `np.cumsum(lengths)`: the running totals. */
  function CumSum(lengths: seq<nat>): (c: seq<int>)
    ensures |c| == |lengths|
    ensures forall k :: 0 <= k < |lengths| ==> c[k] == Sum(lengths[..k + 1])
  {
    seq(|lengths|, k requires 0 <= k < |lengths| => Sum(lengths[..k + 1]))
  }

  /** `np.cumsum(sf.lengths) - sf.lengths[0]`, as the script computes the start of each
      contig; a header without contigs raises on `sf.lengths[0]`. */
  function StartPosAsWritten(lengths: seq<nat>): (r: Result<seq<int>>)
    ensures r.Err? <==> |lengths| == 0
  {
    if |lengths| == 0 then Err(IndexError("tuple index out of range"))
    else
      var c := CumSum(lengths);
      Ok(seq(|lengths|, k requires 0 <= k < |lengths| => c[k] - lengths[0]))
  }

  /** The start of each contig in the concatenation: the total length of the contigs
      before it. */
  function StartPos(lengths: seq<nat>): (r: Result<seq<int>>)
    ensures r.Err? <==> |lengths| == 0
    ensures r.Ok? ==> |r.value| == |lengths|
  {
    if |lengths| == 0 then Err(IndexError("tuple index out of range"))
    else Ok(seq(|lengths|, k requires 0 <= k < |lengths| => Sum(lengths[..k])))
  }

  /** `sum(sf.lengths)`, the length of the coverage array. */
  function GenomeLength(lengths: seq<nat>): (n: nat)
    ensures n == Sum(lengths)
  {
    SumNonNegative(lengths);
    Sum(lengths)
  }

  /** The sum of a sequence of naturals is natural. */
  lemma {:induction false} SumNonNegative(s: seq<nat>)
    ensures Sum(s) >= 0
  {
    if s != [] {
      SumNonNegative(s[..|s| - 1]);
    }
  }

  /** The corrected starts lay the contigs end to end: the first starts at 0, each one
      starts where the previous ends, and the last ends at the total length. */
  lemma StartPosTiles(lengths: seq<nat>, k: nat)
    requires k < |lengths|
    ensures var sp := StartPos(lengths).value;
      && sp[0] == 0
      && sp[k] >= 0
      && sp[k] + lengths[k] == (if k + 1 < |lengths| then sp[k + 1] else Sum(lengths))
  {
    var sp := StartPos(lengths).value;
    assert lengths[..0] == [];
    assert lengths[..k + 1][..k] == lengths[..k];
    SumNonNegative(lengths[..k]);
    if k + 1 == |lengths| {
      assert lengths[..k + 1] == lengths;
    }
  }

  /** The script's start of contig `k` is right exactly when contig `k` is as long as
      the first one: it subtracts the first length from the running total where the
      length of contig `k` itself was meant. */
  lemma AsWrittenRightOnlyForFirstLength(lengths: seq<nat>, k: nat)
    requires k < |lengths|
    ensures StartPosAsWritten(lengths).value[k] == StartPos(lengths).value[k] <==> lengths[k] == lengths[0]
  {
    assert lengths[..k + 1][..k] == lengths[..k];
  }

  /** Two contigs of lengths 2 and 3: the script starts the second at 3, not 2. */
  lemma AsWrittenMisplacesSecondContig()
    ensures StartPosAsWritten([2, 3]).value == [0, 3]
    ensures StartPos([2, 3]).value == [0, 2]
  {
    var l: seq<nat> := [2, 3];
    assert l[..0] == [] && l[..1] == [2] && l[..2] == l;
    assert Sum(l[..1]) == 2 && Sum(l) == 5;
    var w, c := StartPosAsWritten(l).value, StartPos(l).value;
    assert |w| == 2 && w[0] == 0 && w[1] == 3;
    assert |c| == 2 && c[0] == 0 && c[1] == 2;
  }

  // ---------------------------------------------------------------------------------
  // One read

  /** numpy's bound of a slice `cov[x:]` or `cov[:x]` over `n` cells: a negative bound
      counts from the end, then the bound is clipped to `[0, n]`. */
  function SliceBound(x: int, n: nat): (b: nat)
    ensures b <= n
    ensures 0 <= x <= n ==> b == x
    ensures x > n ==> b == n
  {
    if x < 0 then (if x + n < 0 then 0 else x + n)
    else if x > n then n
    else x
  }

  /** `cov[lo:hi] += 1` on the cell values, with `lo` and `hi` already clipped. */
  function AddOne(cov: seq<int>, lo: nat, hi: nat): (c: seq<int>)
    ensures |c| == |cov|
    ensures forall p :: 0 <= p < |cov| ==> c[p] == if lo <= p < hi then cov[p] + 1 else cov[p]
  {
    seq(|cov|, p requires 0 <= p < |cov| => if lo <= p < hi then cov[p] + 1 else cov[p])
  }

  /** numpy's `start_pos[tid]`: a negative index counts from the end. */
  function Lookup(sp: seq<int>, tid: int): (r: Result<int>)
    ensures r.Ok? <==> -|sp| <= tid < |sp|
    ensures r.Ok? ==> r.value == sp[if tid < 0 then tid + |sp| else tid]
  {
    if tid < -|sp| || tid >= |sp| then
      Err(IndexError("index " + IntToString(tid) + " is out of bounds for axis 0 with size " + NatToString(|sp|)))
    else if tid < 0 then Ok(sp[tid + |sp|])
    else Ok(sp[tid])
  }

  /** The clipped interval of a mapped read: `[start_pos[tid] + pos, start_pos[tid] + pos + qlen)`. */
  function Interval(sp: seq<int>, r: SamRecord, n: nat): Result<(nat, nat)>
  {
    match Lookup(sp, r.tid)
    case Err(e) => Err(e)
    case Ok(base) => Ok((SliceBound(base + r.pos, n), SliceBound(base + r.pos + r.qlen, n)))
  }

  /** The number of positions a read covers once clipped; none for an unmapped read. */
  function Covered(sp: seq<int>, r: SamRecord, n: nat): nat
  {
    if IsUnmapped(r) then 0
    else match Interval(sp, r, n)
      case Err(_) => 0
      case Ok((lo, hi)) => if lo <= hi then hi - lo else 0
  }

  /** One pass of the read loop on the coverage: an unmapped read changes nothing, a
      mapped one adds one over its clipped interval. */
  function Step(sp: seq<int>, cov: seq<int>, r: SamRecord): (c: Result<seq<int>>)
    ensures IsUnmapped(r) ==> c == Ok(cov)
    ensures c.Ok? ==> |c.value| == |cov|
  {
    if IsUnmapped(r) then Ok(cov)
    else
      match Interval(sp, r, |cov|)
      case Err(e) => Err(e)
      case Ok((lo, hi)) => Ok(AddOne(cov, lo, hi))
  }

  /** The read loop on the coverage: every read in order, until one raises. */
  function Cover(sp: seq<int>, cov: seq<int>, rs: seq<SamRecord>): (c: Result<seq<int>>)
    ensures c.Ok? ==> |c.value| == |cov|
    decreases |rs|
  {
    if rs == [] then Ok(cov)
    else
      match Step(sp, cov, rs[0])
      case Err(e) => Err(e)
      case Ok(c) => Cover(sp, c, rs[1..])
  }

  /** The mapped reads, in order. */
  function MappedOnly(rs: seq<SamRecord>): (m: seq<SamRecord>)
    ensures |m| <= |rs|
    ensures forall k :: 0 <= k < |m| ==> !IsUnmapped(m[k])
  {
    if rs == [] then []
    else (if IsUnmapped(rs[0]) then [] else [rs[0]]) + MappedOnly(rs[1..])
  }

  /** Unmapped reads leave the coverage unchanged: the loop gives what it gives on the
      mapped reads alone. */
  lemma {:induction false} UnmappedIgnored(sp: seq<int>, cov: seq<int>, rs: seq<SamRecord>)
    ensures Cover(sp, cov, rs) == Cover(sp, cov, MappedOnly(rs))
    decreases |rs|
  {
    if rs != [] {
      var m := MappedOnly(rs[1..]);
      if IsUnmapped(rs[0]) {
        UnmappedIgnored(sp, cov, rs[1..]);
        assert MappedOnly(rs) == m;
      } else {
        assert MappedOnly(rs) == [rs[0]] + m;
        assert MappedOnly(rs)[1..] == m;
        match Step(sp, cov, rs[0])
        case Err(e) =>
        case Ok(c) =>
          UnmappedIgnored(sp, c, rs[1..]);
      }
    }
  }

  /** Adding one over `[lo, hi)` adds the number of cells in it to the total. */
  lemma {:induction false} SumAddOne(cov: seq<int>, lo: nat, hi: nat)
    requires lo <= |cov| && hi <= |cov|
    ensures Sum(AddOne(cov, lo, hi)) == Sum(cov) + (if lo <= hi then hi - lo else 0)
    decreases |cov|
  {
    if cov != [] {
      var n := |cov| - 1;
      var front := cov[..n];
      var lo', hi' := if lo > n then n else lo, if hi > n then n else hi;
      SumAddOne(front, lo', hi');
      assert AddOne(cov, lo, hi)[..n] == AddOne(front, lo', hi');
    }
  }

  /** The clipped lengths of the reads, added up; a read that raises and those after it
      add nothing. */
  function TotalCovered(sp: seq<int>, rs: seq<SamRecord>, n: nat): int
  {
    if rs == [] then 0 else Covered(sp, rs[0], n) + TotalCovered(sp, rs[1..], n)
  }

  /** After the loop, the coverage adds up to what it started with plus the clipped
      length of every mapped read. */
  lemma {:induction false} CoverageSum(sp: seq<int>, cov: seq<int>, rs: seq<SamRecord>)
    requires Cover(sp, cov, rs).Ok?
    ensures Sum(Cover(sp, cov, rs).value) == Sum(cov) + TotalCovered(sp, rs, |cov|)
    decreases |rs|
  {
    if rs != [] {
      var c := Step(sp, cov, rs[0]).value;
      if !IsUnmapped(rs[0]) {
        var (lo, hi) := Interval(sp, rs[0], |cov|).value;
        SumAddOne(cov, lo, hi);
      }
      CoverageSum(sp, c, rs[1..]);
    }
  }

  /** A prefix of naturals sums to at most the whole. */
  lemma {:induction false} SumPrefixAtMost(s: seq<nat>, k: nat)
    requires k <= |s|
    ensures Sum(s[..k]) <= Sum(s)
    decreases |s|
  {
    if k < |s| {
      var front := s[..|s| - 1];
      SumPrefixAtMost(front, k);
      assert front[..k] == s[..k];
    } else {
      assert s[..k] == s;
    }
  }

  /** With the corrected starts, a mapped read that lies within its contig is not
      clipped: it covers its own positions of that contig, `qlen` of them. */
  lemma ReadStaysInContig(lengths: seq<nat>, r: SamRecord)
    requires 0 <= r.tid < |lengths| && 0 <= r.pos && r.pos + r.qlen <= lengths[r.tid]
    requires !IsUnmapped(r)
    ensures var sp := StartPos(lengths).value;
      && Interval(sp, r, GenomeLength(lengths)) == Ok((sp[r.tid] + r.pos, sp[r.tid] + r.pos + r.qlen))
      && Covered(sp, r, GenomeLength(lengths)) == r.qlen
  {
    var k := r.tid;
    StartPosTiles(lengths, k);
    SumPrefixAtMost(lengths, k + 1);
    assert lengths[..k + 1][..k] == lengths[..k];
  }

  /** The script's starts push a read over the end of the array: on contigs of lengths 2
      and 3, a read over the whole second contig covers 2 positions instead of 3. */
  lemma AsWrittenClipsLastContig()
    ensures var r := SamRecord("read", 0, 1, 0, 3);
      && Covered(StartPosAsWritten([2, 3]).value, r, 5) == 2
      && Covered(StartPos([2, 3]).value, r, 5) == 3
  {
    AsWrittenMisplacesSecondContig();
  }

  // ---------------------------------------------------------------------------------
  // The imperative loop

  /** `cov[lo:hi] += 1` in place, bounds already clipped. */
  method AddOneInPlace(cov: array<int>, lo: nat, hi: nat)
    modifies cov
    ensures cov[..] == AddOne(old(cov[..]), lo, hi)
  {
    var p := lo;
    while p < hi && p < cov.Length
      invariant lo <= p && (p <= hi || p <= lo)
      invariant forall q :: 0 <= q < cov.Length ==>
        cov[q] == if lo <= q < p && q < hi then old(cov[q]) + 1 else old(cov[q])
      decreases cov.Length - p
    {
      cov[p] := cov[p] + 1;
      p := p + 1;
    }
  }

  /** The statistics gathered for one file. */
  datatype Stats = Stats(cov: array<int>, totalReads: nat, mappedReads: nat)

  /** The loop over one file's reads: the coverage array of `sum(sf.lengths)` zeros is
      filled in place over the reads, and every read and every mapped read is counted. */
  method ScanFile(lengths: seq<nat>, rs: seq<SamRecord>) returns (r: Result<Stats>)
    ensures StartPos(lengths).Err? ==> r == Err(StartPos(lengths).error)
    ensures r.Err? && StartPos(lengths).Ok? ==>
      Cover(StartPos(lengths).value, seq(GenomeLength(lengths), _ => 0), rs) == Err(r.error)
    ensures r.Ok? ==> (fresh(r.value.cov) && StartPos(lengths).Ok?
      && Cover(StartPos(lengths).value, seq(GenomeLength(lengths), _ => 0), rs) == Ok(r.value.cov[..])
      && r.value.totalReads == |rs| && r.value.mappedReads == CountMapped(rs))
  {
    var cov := new int[GenomeLength(lengths)](_ => 0);
    var startPos := StartPos(lengths);
    if startPos.Err? {
      return Err(startPos.error);
    }
    var sp := startPos.value;
    ghost var zeros := cov[..];
    assert zeros == seq(GenomeLength(lengths), _ => 0);
    var totalReads, mappedReads := 0, 0;
    var i := 0;
    while i < |rs|
      invariant 0 <= i <= |rs|
      invariant Cover(sp, zeros, rs) == Cover(sp, cov[..], rs[i..])
      invariant totalReads == i && mappedReads == CountMapped(rs[..i])
      decreases |rs| - i
    {
      var read := rs[i];
      assert rs[..i + 1][..i] == rs[..i];
      totalReads := totalReads + 1;
      if !IsUnmapped(read) {
        var base := Lookup(sp, read.tid);
        if base.Err? {
          assert rs[i..][0] == read;
          return Err(base.error);
        }
        var rStart := base.value + read.pos;
        var rEnd := base.value + read.pos + read.qlen;
        ghost var before := cov[..];
        assert Step(sp, before, read) == Ok(AddOne(before, SliceBound(rStart, cov.Length), SliceBound(rEnd, cov.Length)));
        AddOneInPlace(cov, SliceBound(rStart, cov.Length), SliceBound(rEnd, cov.Length));
        mappedReads := mappedReads + 1;
      }
      assert rs[i..][1..] == rs[i + 1..];
      i := i + 1;
    }
    assert rs[..i] == rs && rs[i..] == [];
    r := Ok(Stats(cov, totalReads, mappedReads));
  }

  /** The mapped-read counter never passes the read counter. */
  lemma MappedAtMostTotal(rs: seq<SamRecord>)
    ensures CountMapped(rs) <= |rs|
    ensures CountMapped(MappedOnly(rs)) == |MappedOnly(rs)|
  {
    var m := MappedOnly(rs);
    CountMappedExtremes(m);
  }
}
