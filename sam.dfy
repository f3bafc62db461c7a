/** SAM alignment records as pysam yields them, and the "mapped" indicator the GASiC
    scripts derive from them. A record is unmapped when bit 0x4 of its FLAG is set
    (section 1.4 of the SAM/BAM Format Specification, SAMv1). Parsing a SAM file is
    not modelled: a file is the sequence of its records. */
module Sam {

  /** One record: the read name, FLAG, reference index (`tid`), 0-based leftmost
      position (`pos`) and aligned query length (`qlen`). */
  datatype SamRecord = SamRecord(qname: string, flag: nat, tid: int, pos: int, qlen: nat)

  /** `read.is_unmapped`: bit 0x4 of the FLAG. */
  predicate IsUnmapped(r: SamRecord)
  {
    (r.flag / 4) % 2 == 1
  }

  /** Bit 0x4 is set exactly when the FLAG's remainder modulo 8 is at least 4: bits 0x1
      and 0x2 and those above 0x4 do not matter. */
  lemma UnmappedBit(r: SamRecord)
    ensures IsUnmapped(r) <==> r.flag % 8 >= 4
  {
    var q := r.flag / 8;
    assert r.flag == 8 * q + r.flag % 8;
    assert r.flag / 4 == 2 * q + (r.flag % 8) / 4;
  }

  /** `int(not rd.is_unmapped)`. */
  function Indicator(r: SamRecord): int
  {
    if IsUnmapped(r) then 0 else 1
  }

  /** The indicator of every record of a file, in file order. */
  function Indicators(rs: seq<SamRecord>): (row: seq<int>)
    ensures |row| == |rs|
    ensures forall j :: 0 <= j < |rs| ==> (row[j] == 1 <==> !IsUnmapped(rs[j])) && (row[j] == 0 || row[j] == 1)
  {
    seq(|rs|, j requires 0 <= j < |rs| => Indicator(rs[j]))
  }

  /** The sum of a row, added from the front as Python's `sum` does. */
  function Sum(s: seq<int>): int
  {
    if s == [] then 0 else Sum(s[..|s| - 1]) + s[|s| - 1]
  }

  /** The number of mapped records. */
  function CountMapped(rs: seq<SamRecord>): (n: nat)
    ensures n <= |rs|
  {
    if rs == [] then 0 else CountMapped(rs[..|rs| - 1]) + Indicator(rs[|rs| - 1])
  }

  /** The sum of a file's indicators is its number of mapped records. */
  lemma {:induction false} SumIndicators(rs: seq<SamRecord>)
    ensures Sum(Indicators(rs)) == CountMapped(rs)
  {
    if rs != [] {
      var front := rs[..|rs| - 1];
      SumIndicators(front);
      assert Indicators(rs)[..|rs| - 1] == Indicators(front);
    }
  }

  /** A file counts all its records exactly when none is unmapped, and none exactly
      when all are. */
  lemma {:induction false} CountMappedExtremes(rs: seq<SamRecord>)
    ensures CountMapped(rs) == |rs| <==> forall j :: 0 <= j < |rs| ==> !IsUnmapped(rs[j])
    ensures CountMapped(rs) == 0 <==> forall j :: 0 <= j < |rs| ==> IsUnmapped(rs[j])
  {
    if rs != [] {
      var front := rs[..|rs| - 1];
      CountMappedExtremes(front);
      assert forall j :: 0 <= j < |front| ==> front[j] == rs[j];
    }
  }

  /** The names of the mapped records of a file. */
  function MappedNames(rs: seq<SamRecord>): set<string>
  {
    if rs == [] then {}
    else MappedNames(rs[..|rs| - 1]) + (if IsUnmapped(rs[|rs| - 1]) then {} else {rs[|rs| - 1].qname})
  }

  /** A name is collected exactly when some mapped record carries it: unmapped records
      contribute nothing. */
  lemma {:induction false} MappedNamesMember(rs: seq<SamRecord>, x: string)
    ensures x in MappedNames(rs) <==> exists j :: 0 <= j < |rs| && !IsUnmapped(rs[j]) && rs[j].qname == x
  {
    if rs != [] {
      var front := rs[..|rs| - 1];
      MappedNamesMember(front, x);
      assert forall j :: 0 <= j < |front| ==> front[j] == rs[j];
    }
  }
}
