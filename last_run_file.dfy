/** The run ledger of lib/gasicBatch/lastRunFile.py: the headerless tab-separated output
    of an earlier batch run, queried by metagenome ID (its first column) so that a rerun
    can replay finished metagenomes. The table is only assigned when the ledger is
    loaded, so the model is an immutable value and every query a function of it. */
module LastRunFile {

  /** A ledger row; column 0 is the metagenome ID and is always present. */
  type Row = r: seq<string> | |r| >= 1 witness [""]

  /** `lastRunFile(inFile)`: the file name and the table read from it. */
  datatype Ledger = Ledger(fileName: string, tbl: seq<Row>)

  /** `mgID_iter`: yield `row[0]` for each row, in order. */
  function MgIDIter(rows: seq<Row>): (ids: seq<string>)
  {
    if rows == [] then [] else [rows[0][0]] + MgIDIter(rows[1..])
  }

  /** `get_mgIDs`: column 0 as a list. */
  function GetMgIDs(f: Ledger): (ids: seq<string>)
    ensures |ids| == |f.tbl|
    ensures forall r :: 0 <= r < |f.tbl| ==> ids[r] == f.tbl[r][0]
  {
    seq(|f.tbl|, r requires 0 <= r < |f.tbl| => f.tbl[r][0])
  }

  /** The generator and the list agree. */
  lemma {:induction false} MgIDIterIsGetMgIDs(f: Ledger)
    ensures MgIDIter(f.tbl) == GetMgIDs(f)
  {
    IterColumn(f.tbl);
  }

  lemma {:induction false} IterColumn(rows: seq<Row>)
    ensures |MgIDIter(rows)| == |rows|
    ensures forall r :: 0 <= r < |rows| ==> MgIDIter(rows)[r] == rows[r][0]
  {
    if rows != [] {
      IterColumn(rows[1..]);
    }
  }

  /** `mgID_exists(mgIDs)`: `tbl[0].isin(mgIDs)`, one flag per row. */
  function MgIDExists(f: Ledger, mgIDs: seq<string>): (mask: seq<bool>)
    ensures |mask| == |f.tbl|
    ensures forall r :: 0 <= r < |f.tbl| ==> (mask[r] <==> f.tbl[r][0] in mgIDs)
  {
    seq(|f.tbl|, r requires 0 <= r < |f.tbl| => f.tbl[r][0] in mgIDs)
  }

  /** `tbl.loc[mask]`: the rows whose flag is set, in order. */
  function Select(rows: seq<Row>, mask: seq<bool>): seq<Row>
    requires |mask| == |rows|
  {
    if rows == [] then []
    else (if mask[0] then [rows[0]] else []) + Select(rows[1..], mask[1..])
  }

  /** `mgEntries(mgIDs)`: the rows selected by the membership mask. */
  function MgEntries(f: Ledger, mgIDs: seq<string>): seq<Row>
  {
    Select(f.tbl, MgIDExists(f, mgIDs))
  }

  /** Reference definition: the rows whose ID is listed, in order, duplicates kept. */
  function RowsWithIds(rows: seq<Row>, mgIDs: seq<string>): seq<Row>
  {
    if rows == [] then []
    else (if rows[0][0] in mgIDs then [rows[0]] else []) + RowsWithIds(rows[1..], mgIDs)
  }

  lemma {:induction false} SelectByIds(rows: seq<Row>, mask: seq<bool>, mgIDs: seq<string>)
    requires |mask| == |rows|
    requires forall r :: 0 <= r < |rows| ==> (mask[r] <==> rows[r][0] in mgIDs)
    ensures Select(rows, mask) == RowsWithIds(rows, mgIDs)
  {
    if rows != [] {
      SelectByIds(rows[1..], mask[1..], mgIDs);
    }
  }

  /** `mgEntries` returns exactly the rows whose ID is in `mgIDs`, in table order. */
  lemma MgEntriesFilters(f: Ledger, mgIDs: seq<string>)
    ensures MgEntries(f, mgIDs) == RowsWithIds(f.tbl, mgIDs)
  {
    SelectByIds(f.tbl, MgIDExists(f, mgIDs), mgIDs);
  }

  /** Each row is kept as often as it occurs when its ID is listed, and dropped otherwise. */
  lemma {:induction false} RowsWithIdsCounts(rows: seq<Row>, mgIDs: seq<string>, x: Row)
    ensures multiset(RowsWithIds(rows, mgIDs))[x]
      == if x[0] in mgIDs then multiset(rows)[x] else 0
  {
    if rows != [] {
      RowsWithIdsCounts(rows[1..], mgIDs, x);
      assert rows == [rows[0]] + rows[1..];
    }
  }

  /** Every returned row has a listed ID. */
  lemma {:induction false} RowsWithIdsListed(rows: seq<Row>, mgIDs: seq<string>)
    ensures forall k :: 0 <= k < |RowsWithIds(rows, mgIDs)| ==> RowsWithIds(rows, mgIDs)[k][0] in mgIDs
  {
    if rows != [] {
      RowsWithIdsListed(rows[1..], mgIDs);
    }
  }

  /** No listed IDs select nothing. */
  lemma {:induction false} RowsWithNoIds(rows: seq<Row>)
    ensures RowsWithIds(rows, []) == []
  {
    if rows != [] {
      RowsWithNoIds(rows[1..]);
    }
  }

  /** A list that covers every ID selects the whole table. */
  lemma {:induction false} RowsWithAllIds(rows: seq<Row>, mgIDs: seq<string>)
    requires forall r :: 0 <= r < |rows| ==> rows[r][0] in mgIDs
    ensures RowsWithIds(rows, mgIDs) == rows
  {
    if rows != [] {
      RowsWithAllIds(rows[1..], mgIDs);
      assert [rows[0]] + rows[1..] == rows;
    }
  }

  /** `mgEntries([])` is empty and `mgEntries(get_mgIDs())` is the whole table. */
  lemma MgEntriesExtremes(f: Ledger)
    ensures MgEntries(f, []) == []
    ensures MgEntries(f, GetMgIDs(f)) == f.tbl
  {
    MgEntriesFilters(f, []);
    RowsWithNoIds(f.tbl);
    MgEntriesFilters(f, GetMgIDs(f));
    RowsWithAllIds(f.tbl, GetMgIDs(f));
  }
}
