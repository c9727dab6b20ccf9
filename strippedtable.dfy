// StrippedTable: a QueryTable whose string columns have their right padding
// removed when the table is read.  _stripTable replaces each string column,
// one at a time, by its right-stripped copy; read loads a table (the loaded
// table is an input here) and strips it in place.

module StrippedTable {
  import opened Wrappers
  import opened Ordering
  import opened Text
  import opened QueryTable

  /** A cell after stripping column k: string cells of string columns lose trailing whitespace. */
  function StripCell(cols: seq<ColumnDef>, k: nat, v: Value): Value
  {
    if k < |cols| && cols[k].kind == StrK && v.StrV? then StrV(RStrip(v.s)) else v
  }

  /** A row with its first n columns stripped. */
  function StripUpTo(cols: seq<ColumnDef>, r: Row, n: nat): (r': Row)
    ensures |r'| == |r|
  {
    seq(|r|, k requires 0 <= k < |r| => if k < n then StripCell(cols, k, r[k]) else r[k])
  }

  /** Stripping one more column updates just that column's cell. */
  lemma StripStep(cols: seq<ColumnDef>, r: Row, n: nat)
    ensures StripUpTo(cols, r, n + 1) ==
      if n < |r| then StripUpTo(cols, r, n)[n := StripCell(cols, n, r[n])] else StripUpTo(cols, r, n)
  {
  }

  function StripRow(cols: seq<ColumnDef>, r: Row): Row
  {
    StripUpTo(cols, r, |cols|)
  }

  /** Every row with every string column right-stripped. */
  function StrippedRows(cols: seq<ColumnDef>, rows: seq<Row>): (r: seq<Row>)
    ensures |r| == |rows|
  {
    seq(|rows|, i requires 0 <= i < |rows| => StripRow(cols, rows[i]))
  }

  class StrippedTable {
    var cols: seq<ColumnDef>
    var rows: seq<Row>

    /** cls(table): wrap a loaded table. */
    constructor (t: Table)
      ensures cols == t.cols && rows == t.rows
    {
      cols := t.cols;
      rows := t.rows;
    }

    function Snapshot(): Table
      reads this
    {
      Table(cols, rows)
    }

    /** _stripTable: replace each string column by its right-stripped copy, in place. */
    method StripTable()
      modifies this
      ensures cols == old(cols)
      ensures rows == StrippedRows(cols, old(rows))
    {
      var k := 0;
      while k < |cols|
        invariant 0 <= k <= |cols| && cols == old(cols) && |rows| == |old(rows)|
        invariant forall i :: 0 <= i < |rows| ==> rows[i] == StripUpTo(cols, old(rows)[i], k)
      {
        var rs, cs, n := rows, cols, k;
        forall i | 0 <= i < |rs| ensures StripUpTo(cols, old(rows)[i], n + 1) ==
          if n < |rs[i]| then rs[i][n := StripCell(cols, n, rs[i][n])] else rs[i]
        {
          StripStep(cols, old(rows)[i], n);
        }
        if cols[k].kind == StrK {
          rows := seq(|rs|, i requires 0 <= i < |rs| =>
            if n < |rs[i]| then rs[i][n := StripCell(cs, n, rs[i][n])] else rs[i]);
        } else {
          forall i | 0 <= i < |rs| && n < |rs[i]| ensures rs[i][n := StripCell(cs, n, rs[i][n])] == rs[i] {
          }
        }
        k := k + 1;
      }
    }

    /** StrippedTable.read on a table already loaded from the file. */
    static method Read(t: Table) returns (st: StrippedTable)
      ensures fresh(st)
      ensures st.cols == t.cols && st.rows == StrippedRows(t.cols, t.rows)
    {
      st := new StrippedTable(t);
      st.StripTable();
    }
  }

  /**
   * After read, each string cell of a string column is its original with the
   * trailing whitespace removed: a prefix, the removed part all whitespace,
   * nothing left to strip.  Every other cell is unchanged.
   */
  lemma StripMeaning(cols: seq<ColumnDef>, rows: seq<Row>, i: int, k: int)
    requires 0 <= i < |rows| && 0 <= k < |rows[i]|
    ensures var v := rows[i][k];
      var w := StrippedRows(cols, rows)[i][k];
      if k < |cols| && cols[k].kind == StrK && v.StrV? then
        (w.StrV? && w.s == RStrip(v.s) && |w.s| <= |v.s| && w.s == v.s[..|w.s|] && AllSpace(v.s[|w.s|..]) &&
         (|w.s| == 0 || !IsSpace(w.s[|w.s| - 1])))
      else w == v
  {
    var v := rows[i][k];
    if v.StrV? {
      RStripShape(v.s);
    }
  }

  /** Stripping keeps the number of rows, each row's length, and so the column positions. */
  lemma StripShape(cols: seq<ColumnDef>, rows: seq<Row>)
    ensures |StrippedRows(cols, rows)| == |rows|
    ensures forall i :: 0 <= i < |rows| ==> |StrippedRows(cols, rows)[i]| == |rows[i]|
  {
  }

  /** A well-formed table stays well-formed: stripping keeps every cell's type and shape. */
  lemma StripWellFormed(t: Table)
    requires WellFormed(t)
    ensures WellFormed(Table(t.cols, StrippedRows(t.cols, t.rows)))
  {
    var s := StrippedRows(t.cols, t.rows);
    forall i | 0 <= i < |s| ensures RowFits(t.cols, s[i]) {
      assert RowFits(t.cols, t.rows[i]);
      forall k | 0 <= k < |s[i]| ensures CellFits(t.cols[k], s[i][k]) {
        assert CellFits(t.cols[k], t.rows[i][k]);
      }
    }
  }

  /** Reading an already stripped table changes nothing. */
  lemma StripIdempotent(cols: seq<ColumnDef>, rows: seq<Row>)
    ensures StrippedRows(cols, StrippedRows(cols, rows)) == StrippedRows(cols, rows)
  {
    var s := StrippedRows(cols, rows);
    forall i | 0 <= i < |rows| ensures StrippedRows(cols, s)[i] == s[i] {
      forall k | 0 <= k < |rows[i]| ensures StrippedRows(cols, s)[i][k] == s[i][k] {
        var v := rows[i][k];
        if v.StrV? {
          RStripIdempotent(v.s);
        }
      }
    }
  }

  /** A cell with no trailing whitespace to strip. */
  predicate Unpadded(v: Value)
  {
    v.StrV? ==> |v.s| == 0 || !IsSpace(v.s[|v.s| - 1])
  }

  /** Every cell of a stripped well-formed table is unpadded. */
  lemma StrippedCellUnpadded(t: Table, i: int, k: int)
    requires WellFormed(t) && 0 <= i < |t.rows| && 0 <= k < |t.rows[i]|
    ensures Unpadded(StrippedRows(t.cols, t.rows)[i][k])
  {
    assert RowFits(t.cols, t.rows[i]) && CellFits(t.cols[k], t.rows[i][k]);
    StripMeaning(t.cols, t.rows, i, k);
  }

  /** No string cell among the unique records of a read table ends in whitespace. */
  lemma ReadUnique(t: Table, names: seq<string>)
    requires WellFormed(t)
    ensures var s := Table(t.cols, StrippedRows(t.cols, t.rows));
      WellFormed(s) &&
      (GetUnique(s, names).Ok? ==>
        StrictlySorted(GetUnique(s, names).value, RowLess) &&
        forall x: Row, j: int :: x in GetUnique(s, names).value && 0 <= j < |x| ==> Unpadded(x[j]))
  {
    var s := Table(t.cols, StrippedRows(t.cols, t.rows));
    StripWellFormed(t);
    GetUniqueMeaning(s, names);
    if GetUnique(s, names).Ok? {
      var ks := Indices(s.cols, names).value;
      var u := GetUnique(s, names).value;
      forall x: Row, j: int | x in u && 0 <= j < |x|
        ensures Unpadded(x[j])
      {
        var i :| 0 <= i < |s.rows| && x == Project(s.rows[i], ks);
        assert x[j] == s.rows[i][ks[j]];
        StrippedCellUnpadded(t, i, ks[j]);
      }
    }
  }
}
