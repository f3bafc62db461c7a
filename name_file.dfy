/** The reference registry of lib/gasicBatch/NameFile.py: a name file of one or two
    tab-separated columns (reference sequence, mapper index) read into an ordered list
    of per-reference dicts, which the batch run later extends key by key. */
module NameFile {
  import opened Wrappers
  import opened PyStr

  /** A value stored in an entry's dict. */
  datatype Value = VNone | VStr(s: string) | VInt(i: int)

  /** One registry row: a dict from key to value. */
  type Entry = map<string, Value>

  /** The entry that line number `lineCount` of a name file gives: the first tab field
      of the right-stripped line is the reference file, the second (if any) the index
      file, and further fields are ignored. */
  function ParseLine(line: string, lineCount: nat): (e: Entry)
    ensures e.Keys == {"refFile", "indexFile", "rowIndex"}
    ensures e["rowIndex"] == VInt(lineCount)
  {
    var row := Split(RStrip(line), '\t');
    map["refFile" := VStr(row[0]),
        "indexFile" := (if |row| >= 2 then VStr(row[1]) else VNone),
        "rowIndex" := VInt(lineCount)]
  }

  /** The registry a whole name file gives: one entry per line, blank lines included,
      in file order, numbered from 0. */
  function ParseLines(lines: seq<string>): (names: seq<Entry>)
    ensures |names| == |lines|
    ensures forall i :: 0 <= i < |lines| ==> names[i] == ParseLine(lines[i], i)
  {
    seq(|lines|, i requires 0 <= i < |lines| => ParseLine(lines[i], i))
  }

  /** A two-column line: reference and index, whatever trailing whitespace follows. */
  lemma TwoColumns(ref: string, idx: string, ws: string, n: nat)
    requires '\t' !in ref && '\t' !in idx
    requires |idx| > 0 && idx[|idx| - 1] !in Whitespace
    requires forall i :: 0 <= i < |ws| ==> ws[i] in Whitespace
    ensures ParseLine(ref + "\t" + idx + ws, n)
      == map["refFile" := VStr(ref), "indexFile" := VStr(idx), "rowIndex" := VInt(n)]
  {
    var body := ref + "\t" + idx;
    assert ref + "\t" + idx + ws == body + ws;
    RStripSetTrailing(body, ws, Whitespace);
    RStripSetKeeps(body, Whitespace);
    SplitJoin([ref, idx], '\t');
    assert Join([ref, idx], "\t") == body;
  }

  /** A one-column line gives no index file; so does a reference followed only by
      whitespace, tabs included, since the line is right-stripped before it is split. */
  lemma OneColumn(ref: string, ws: string, n: nat)
    requires '\t' !in ref
    requires ref == [] || ref[|ref| - 1] !in Whitespace
    requires forall i :: 0 <= i < |ws| ==> ws[i] in Whitespace
    ensures ParseLine(ref + ws, n)
      == map["refFile" := VStr(ref), "indexFile" := VNone, "rowIndex" := VInt(n)]
  {
    RStripSetTrailing(ref, ws, Whitespace);
    RStripSetKeeps(ref, Whitespace);
    SplitNoSeparator(ref, '\t');
  }

  /** Columns after the second are ignored. */
  lemma ExtraColumnsIgnored(ref: string, idx: string, rest: string, n: nat)
    requires '\t' !in ref && '\t' !in idx
    requires RStrip(rest) != []
    ensures ParseLine(ref + "\t" + idx + "\t" + rest, n)
      == map["refFile" := VStr(ref), "indexFile" := VStr(idx), "rowIndex" := VInt(n)]
  {
    var head := ref + "\t" + idx + "\t";
    assert ref + "\t" + idx + "\t" + rest == head + rest;
    RStripSetAppend(head, rest, Whitespace);
    var r := RStrip(rest);
    assert head + r == ref + [('\t')] + (idx + [('\t')] + r);
    SplitAtFirst(ref, '\t', idx + "\t" + r);
    SplitAtFirst(idx, '\t', r);
  }

  /** The registry object; `names` is the list of entry dicts. */
  class NameFile {
    var names: seq<Entry>

    /** `NameFile(nameFile)`, the file given as its lines. */
    constructor (lines: seq<string>)
      ensures names == ParseLines(lines)
    {
      names := [];
      new;
      ReadNameFile(lines);
    }

    /** `read_nameFile`: append one entry per line, counting lines from 0. */
    method ReadNameFile(lines: seq<string>)
      modifies this
      ensures names == ParseLines(lines)
    {
      names := [];
      var lineCount := 0;
      while lineCount < |lines|
        invariant 0 <= lineCount <= |lines|
        invariant names == ParseLines(lines[..lineCount])
      {
        var row := Split(RStrip(lines[lineCount]), '\t');
        var indexFile := if |row| >= 2 then VStr(row[1]) else VNone;
        names := names + [map["refFile" := VStr(row[0]), "indexFile" := indexFile,
                               "rowIndex" := VInt(lineCount)]];
        lineCount := lineCount + 1;
      }
      assert lines[..lineCount] == lines;
    }

    /** `iter_names`: every stored entry, in stored order. */
    method IterNames() returns (rows: seq<Entry>)
      ensures rows == names
    {
      rows := [];
      var k := 0;
      while k < |names|
        invariant 0 <= k <= |names|
        invariant rows == names[..k]
      {
        rows := rows + [names[k]];
        k := k + 1;
      }
    }

    /** `set_names_keypair(i, k, v)`: with a valid (possibly negative) index, set key
        `k` of that entry to `v` and return 1; otherwise raise IndexError and change
        nothing. */
    method SetNamesKeypair(i: int, k: string, v: Value) returns (r: Result<int>)
      modifies this
      ensures ListIndex(i, |old(names)|).None? ==>
        r.Err? && r.error.IndexError? && names == old(names)
      ensures ListIndex(i, |old(names)|).Some? ==>
        var j := ListIndex(i, |old(names)|).value;
        r == Ok(1) && |names| == |old(names)| &&
        names[j] == old(names)[j][k := v] &&
        forall m :: 0 <= m < |names| && m != j ==> names[m] == old(names)[m]
    {
      var j := ListIndex(i, |names|);
      if j.None? {
        return Err(IndexError("list index out of range. Index: \"" + IntToString(i) + "\" not found"));
      }
      names := names[j.value := names[j.value][k := v]];
      return Ok(1);
    }

    /** `get_names_row(i)`: entry `i`, counting from the end for a negative index. */
    function GetNamesRow(i: int): (r: Result<Entry>)
      reads this
      ensures r.Ok? <==> 0 <= i + |names| && i < |names|
      ensures r.Ok? ==> r.value == names[if i < 0 then i + |names| else i]
      ensures r.Err? ==> r.error.IndexError?
    {
      match ListIndex(i, |names|)
      case Some(j) => Ok(names[j])
      case None => Err(IndexError("list index out of range"))
    }

    /** `len()`: the number of entries. */
    function Len(): (n: nat)
      reads this
      ensures n == |names|
    {
      |names|
    }
  }
}
