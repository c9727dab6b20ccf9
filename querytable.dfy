// An astropy Table as the calibration code uses it: named, typed columns and
// rows of cells.  QueryTable adds conjunctive row selection (query), the
// matching boolean mask (mask) and numpy.unique over named columns
// (getUnique); copyTable builds an empty table with the same column layout.

module QueryTable {
  import opened Wrappers
  import opened Ordering

  datatype Kind = IntK | RealK | StrK | BoolK | ArrK

  /** One cell: a scalar, or a one-dimensional float array such as DATA. */
  datatype Value = IntV(i: int) | RealV(r: real) | StrV(s: string) | BoolV(b: bool) | ArrV(a: seq<real>)

  /** The element shape of a column: () for scalars, (n,) for arrays. */
  datatype Shape = Scalar | Vector(len: nat)

  datatype ColumnDef = ColumnDef(name: string, kind: Kind, shape: Shape)

  type Row = seq<Value>

  datatype Table = Table(cols: seq<ColumnDef>, rows: seq<Row>)

  /** A query condition `column=value`. */
  datatype Cond = Cond(column: string, value: Value)

  function KindOf(v: Value): Kind
  {
    match v
    case IntV(_) => IntK
    case RealV(_) => RealK
    case StrV(_) => StrK
    case BoolV(_) => BoolK
    case ArrV(_) => ArrK
  }

  function ShapeOf(v: Value): Shape
  {
    if v.ArrV? then Vector(|v.a|) else Scalar
  }

  predicate CellFits(d: ColumnDef, v: Value)
  {
    KindOf(v) == d.kind && ShapeOf(v) == d.shape
  }

  predicate RowFits(cols: seq<ColumnDef>, r: Row)
  {
    |r| == |cols| && forall k :: 0 <= k < |r| ==> CellFits(cols[k], r[k])
  }

  predicate DistinctNames(cols: seq<ColumnDef>)
  {
    forall i, j :: 0 <= i < j < |cols| ==> cols[i].name != cols[j].name
  }

  /** Column names are distinct and every cell has its column's type and shape. */
  predicate WellFormed(t: Table)
  {
    DistinctNames(t.cols) && forall i :: 0 <= i < |t.rows| ==> RowFits(t.cols, t.rows[i])
  }

  /** The position of the named column. */
  function Index(cols: seq<ColumnDef>, name: string): (r: Option<nat>)
    ensures r.Some? ==> r.value < |cols| && cols[r.value].name == name
    ensures r.None? <==> forall k :: 0 <= k < |cols| ==> cols[k].name != name
  {
    if |cols| == 0 then None
    else if cols[0].name == name then Some(0)
    else
      var r := Index(cols[1..], name);
      assert forall k :: 1 <= k < |cols| ==> cols[k] == cols[1..][k - 1];
      if r.Some? then Some(r.value + 1) else None
  }

  lemma IndexOfDistinct(cols: seq<ColumnDef>, k: nat)
    requires DistinctNames(cols) && k < |cols|
    ensures Index(cols, cols[k].name) == Some(k)
  {
  }

  /** The rows whose k-th cell equals v, in order: self[self[column] == value]. */
  function Where(rows: seq<Row>, k: nat, v: Value): (r: seq<Row>)
    ensures |r| <= |rows|
    ensures forall x :: x in r ==> x in rows
  {
    if |rows| == 0 then []
    else if k < |rows[0]| && rows[0][k] == v then [rows[0]] + Where(rows[1..], k, v)
    else Where(rows[1..], k, v)
  }

  /** One condition holds of a row: the column exists and the row's cell equals the value. */
  predicate Holds(cols: seq<ColumnDef>, r: Row, c: Cond)
  {
    var k := Index(cols, c.column);
    k.Some? && k.value < |r| && r[k.value] == c.value
  }

  /** Every condition holds of a row. */
  predicate Sat(cols: seq<ColumnDef>, r: Row, conds: seq<Cond>)
  {
    forall j :: 0 <= j < |conds| ==> Holds(cols, r, conds[j])
  }

  /** The rows meeting every condition, in their original order. */
  function Select(cols: seq<ColumnDef>, rows: seq<Row>, conds: seq<Cond>): seq<Row>
  {
    if |rows| == 0 then []
    else if Sat(cols, rows[0], conds) then [rows[0]] + Select(cols, rows[1..], conds)
    else Select(cols, rows[1..], conds)
  }

  predicate ColumnsExist(cols: seq<ColumnDef>, conds: seq<Cond>)
  {
    forall j :: 0 <= j < |conds| ==> Index(cols, conds[j].column).Some?
  }

  /** QueryTable.query: filter by each condition in turn; an unknown column raises KeyError. */
  function QuerySpec(t: Table, conds: seq<Cond>): Result<Table>
    decreases |conds|
  {
    if |conds| == 0 then Ok(t)
    else
      match Index(t.cols, conds[0].column)
      case None => Err(KeyError)
      case Some(k) => QuerySpec(Table(t.cols, Where(t.rows, k, conds[0].value)), conds[1..])
  }

  method Query(t: Table, conds: seq<Cond>) returns (r: Result<Table>)
    ensures r == QuerySpec(t, conds)
  {
    var cur := t;
    var i := 0;
    while i < |conds|
      invariant 0 <= i <= |conds| && cur.cols == t.cols
      invariant QuerySpec(cur, conds[i..]) == QuerySpec(t, conds)
    {
      assert conds[i..][1..] == conds[i + 1..];
      var k := Index(cur.cols, conds[i].column);
      if k.None? {
        return Err(KeyError);
      }
      cur := Table(cur.cols, Where(cur.rows, k.value, conds[i].value));
      i := i + 1;
    }
    return Ok(cur);
  }

  lemma SatCons(cols: seq<ColumnDef>, r: Row, c: Cond, rest: seq<Cond>)
    ensures Sat(cols, r, [c] + rest) <==> Holds(cols, r, c) && Sat(cols, r, rest)
  {
    var all := [c] + rest;
    if Sat(cols, r, all) {
      assert Holds(cols, r, all[0]);
      forall j | 0 <= j < |rest| ensures Holds(cols, r, rest[j]) {
        assert all[j + 1] == rest[j];
      }
    }
    if Holds(cols, r, c) && Sat(cols, r, rest) {
      forall j | 0 <= j < |all| ensures Holds(cols, r, all[j]) {
        if j > 0 {
          assert all[j] == rest[j - 1];
        }
      }
    }
  }

  /** Filtering by one more condition after a selection is the selection by all of them. */
  lemma {:induction false} WhereSelect(cols: seq<ColumnDef>, rows: seq<Row>, c: Cond, k: nat, rest: seq<Cond>)
    requires Index(cols, c.column) == Some(k)
    ensures Select(cols, Where(rows, k, c.value), rest) == Select(cols, rows, [c] + rest)
  {
    if |rows| > 0 {
      WhereSelect(cols, rows[1..], c, k, rest);
      var r := rows[0];
      SatCons(cols, r, c, rest);
      if k < |r| && r[k] == c.value {
        assert Where(rows, k, c.value) == [r] + Where(rows[1..], k, c.value);
      }
    }
  }

  lemma {:induction false} SelectNone(cols: seq<ColumnDef>, rows: seq<Row>)
    ensures Select(cols, rows, []) == rows
  {
    if |rows| > 0 {
      SelectNone(cols, rows[1..]);
      assert rows == [rows[0]] + rows[1..];
    }
  }

  /**
   * query returns exactly the rows meeting every condition, in their original
   * order, and raises KeyError exactly when a condition names an unknown column.
   */
  lemma {:induction false} QueryMeaning(t: Table, conds: seq<Cond>)
    decreases |conds|
    ensures QuerySpec(t, conds) ==
      if ColumnsExist(t.cols, conds) then Ok(Table(t.cols, Select(t.cols, t.rows, conds))) else Err(KeyError)
  {
    if |conds| == 0 {
      SelectNone(t.cols, t.rows);
    } else {
      var c, rest := conds[0], conds[1..];
      assert conds == [c] + rest;
      assert ColumnsExist(t.cols, conds) <==> Index(t.cols, c.column).Some? && ColumnsExist(t.cols, rest) by {
        assert forall j :: 1 <= j < |conds| ==> conds[j] == rest[j - 1];
      }
      match Index(t.cols, c.column)
      case None =>
      case Some(k) =>
        var t' := Table(t.cols, Where(t.rows, k, c.value));
        QueryMeaning(t', rest);
        WhereSelect(t.cols, t.rows, c, k, rest);
    }
  }

  /** Selection depends only on which conditions are given, not on their order or repetition. */
  lemma {:induction false} SelectSameConds(cols: seq<ColumnDef>, rows: seq<Row>, c1: seq<Cond>, c2: seq<Cond>)
    requires forall c :: c in c1 <==> c in c2
    ensures Select(cols, rows, c1) == Select(cols, rows, c2)
  {
    if |rows| > 0 {
      SelectSameConds(cols, rows[1..], c1, c2);
      assert Sat(cols, rows[0], c1) <==> Sat(cols, rows[0], c2) by {
        if Sat(cols, rows[0], c1) {
          forall j | 0 <= j < |c2| ensures Holds(cols, rows[0], c2[j]) {
            assert c2[j] in c2;
            assert c2[j] in c2;
          var i :| 0 <= i < |c1| && c1[i] == c2[j];
          }
        }
        if Sat(cols, rows[0], c2) {
          forall j | 0 <= j < |c1| ensures Holds(cols, rows[0], c1[j]) {
            assert c1[j] in c1;
            assert c1[j] in c1;
          var i :| 0 <= i < |c2| && c2[i] == c1[j];
          }
        }
      }
    }
  }

  /** The order of the conditions does not change the result. */
  lemma QueryOrderIrrelevant(t: Table, c1: seq<Cond>, c2: seq<Cond>)
    requires forall c :: c in c1 <==> c in c2
    ensures QuerySpec(t, c1) == QuerySpec(t, c2)
  {
    QueryMeaning(t, c1);
    QueryMeaning(t, c2);
    assert ColumnsExist(t.cols, c1) <==> ColumnsExist(t.cols, c2) by {
      if ColumnsExist(t.cols, c1) {
        forall j | 0 <= j < |c2| ensures Index(t.cols, c2[j].column).Some? {
          assert c2[j] in c2;
          var i :| 0 <= i < |c1| && c1[i] == c2[j];
        }
      }
      if ColumnsExist(t.cols, c2) {
        forall j | 0 <= j < |c1| ensures Index(t.cols, c1[j].column).Some? {
          assert c1[j] in c1;
          var i :| 0 <= i < |c2| && c2[i] == c1[j];
        }
      }
    }
    SelectSameConds(t.cols, t.rows, c1, c2);
  }

  /** A query with no conditions returns the table unchanged. */
  lemma QueryNothing(t: Table)
    ensures QuerySpec(t, []) == Ok(t)
  {
  }

  lemma {:induction false} SelectSat(cols: seq<ColumnDef>, rows: seq<Row>, conds: seq<Cond>)
    ensures forall x :: x in Select(cols, rows, conds) ==> Sat(cols, x, conds) && x in rows
  {
    if |rows| > 0 {
      SelectSat(cols, rows[1..], conds);
    }
  }

  lemma {:induction false} SelectAllSat(cols: seq<ColumnDef>, rows: seq<Row>, conds: seq<Cond>)
    requires forall x :: x in rows ==> Sat(cols, x, conds)
    ensures Select(cols, rows, conds) == rows
  {
    if |rows| > 0 {
      SelectAllSat(cols, rows[1..], conds);
      assert rows == [rows[0]] + rows[1..];
    }
  }

  /** Running the same query on its own result changes nothing. */
  lemma QueryIdempotent(t: Table, conds: seq<Cond>)
    requires QuerySpec(t, conds).Ok?
    ensures QuerySpec(QuerySpec(t, conds).value, conds) == QuerySpec(t, conds)
  {
    QueryMeaning(t, conds);
    var u := QuerySpec(t, conds).value;
    QueryMeaning(u, conds);
    SelectSat(t.cols, t.rows, conds);
    SelectAllSat(u.cols, u.rows, conds);
  }

  /** The rows at the positions where the mask is true, in order. */
  function Masked(rows: seq<Row>, mask: seq<bool>): seq<Row>
    requires |rows| == |mask|
  {
    if |rows| == 0 then []
    else if mask[0] then [rows[0]] + Masked(rows[1..], mask[1..])
    else Masked(rows[1..], mask[1..])
  }

  /**
   * QueryTable.mask: start all-true and AND in one condition at a time; an
   * unknown column raises KeyError.
   */
  method Mask(t: Table, conds: seq<Cond>) returns (r: Result<seq<bool>>)
    ensures r.Ok? <==> ColumnsExist(t.cols, conds)
    ensures r.Err? ==> r.error == KeyError
    ensures r.Ok? ==> |r.value| == |t.rows|
    ensures r.Ok? ==> forall i :: 0 <= i < |t.rows| ==> (r.value[i] <==> Sat(t.cols, t.rows[i], conds))
  {
    var n := |t.rows|;
    var mask := seq(n, _ => true);
    var j := 0;
    while j < |conds|
      invariant 0 <= j <= |conds| && |mask| == n
      invariant ColumnsExist(t.cols, conds[..j])
      invariant forall i :: 0 <= i < n ==> (mask[i] <==> Sat(t.cols, t.rows[i], conds[..j]))
    {
      var k := Index(t.cols, conds[j].column);
      if k.None? {
        return Err(KeyError);
      }
      var c := conds[j];
      assert conds[..j + 1] == conds[..j] + [c];
      mask := seq(n, i requires 0 <= i < n =>
        (k.value < |t.rows[i]| && t.rows[i][k.value] == c.value) && mask[i]);
      j := j + 1;
    }
    assert conds[..j] == conds;
    return Ok(mask);
  }

  /** A mask with every entry true keeps every row; Select agrees with the mask it induces. */
  lemma {:induction false} MaskedSelect(cols: seq<ColumnDef>, rows: seq<Row>, conds: seq<Cond>, mask: seq<bool>)
    requires |mask| == |rows|
    requires forall i :: 0 <= i < |rows| ==> (mask[i] <==> Sat(cols, rows[i], conds))
    ensures Masked(rows, mask) == Select(cols, rows, conds)
  {
    if |rows| > 0 {
      MaskedSelect(cols, rows[1..], conds, mask[1..]);
    }
  }

  /** table[table.mask(**kv)] is table.query(**kv). */
  lemma MaskAgreesWithQuery(t: Table, conds: seq<Cond>, mask: seq<bool>)
    requires ColumnsExist(t.cols, conds) && |mask| == |t.rows|
    requires forall i :: 0 <= i < |t.rows| ==> (mask[i] <==> Sat(t.cols, t.rows[i], conds))
    ensures QuerySpec(t, conds) == Ok(Table(t.cols, Masked(t.rows, mask)))
  {
    QueryMeaning(t, conds);
    MaskedSelect(t.cols, t.rows, conds, mask);
  }

  /** With no conditions the mask is all true. */
  lemma MaskOfNothing(t: Table, i: int)
    requires 0 <= i < |t.rows|
    ensures Sat(t.cols, t.rows[i], [])
  {
  }

  // ---- numpy.unique over named columns ----

  function Rank(v: Value): int
  {
    match v
    case BoolV(_) => 0
    case IntV(_) => 1
    case RealV(_) => 2
    case StrV(_) => 3
    case ArrV(_) => 4
  }

  /** The order numpy sorts cells by: by value within a type (False < True). */
  function ValueLess(a: Value, b: Value): bool
  {
    if Rank(a) != Rank(b) then Rank(a) < Rank(b)
    else match (a, b)
      case (BoolV(x), BoolV(y)) => !x && y
      case (IntV(x), IntV(y)) => x < y
      case (RealV(x), RealV(y)) => x < y
      case (StrV(x), StrV(y)) => StrLess(x, y)
      case (ArrV(x), ArrV(y)) => LexLess(x, y, RealLess)
      case _ => false
  }

  /** Records of several columns compare field by field. */
  function RowLess(a: Row, b: Row): bool
  {
    LexLess(a, b, ValueLess)
  }

  lemma ValueLessIsStrictTotal()
    ensures StrictTotalOrder(ValueLess)
  {
    StrLessIsStrictTotal();
    BasicOrders();
    forall a: Value ensures !ValueLess(a, a) {
      if a.ArrV? {
        LexIrreflexive(a.a, RealLess);
      }
    }
    forall a: Value, b: Value, c: Value | ValueLess(a, b) && ValueLess(b, c)
      ensures ValueLess(a, c)
    {
      if a.ArrV? && b.ArrV? && c.ArrV? {
        LexTransitive(a.a, b.a, c.a, RealLess);
      }
    }
    forall a: Value, b: Value | a != b ensures ValueLess(a, b) || ValueLess(b, a) {
      if a.ArrV? && b.ArrV? {
        LexTotal(a.a, b.a, RealLess);
      }
    }
  }

  lemma RowLessIsStrictTotal()
    ensures StrictTotalOrder(RowLess)
  {
    ValueLessIsStrictTotal();
    forall a: Row ensures !RowLess(a, a) {
      LexIrreflexive(a, ValueLess);
    }
    forall a: Row, b: Row, c: Row | RowLess(a, b) && RowLess(b, c) ensures RowLess(a, c) {
      LexTransitive(a, b, c, ValueLess);
    }
    forall a: Row, b: Row | a != b ensures RowLess(a, b) || RowLess(b, a) {
      LexTotal(a, b, ValueLess);
    }
  }

  /** A row cut down to the given column positions. */
  function Project(r: Row, ks: seq<nat>): Row
    requires forall j :: 0 <= j < |ks| ==> ks[j] < |r|
  {
    seq(|ks|, j requires 0 <= j < |ks| => r[ks[j]])
  }

  /** The positions of the named columns, or None if one is unknown. */
  function Indices(cols: seq<ColumnDef>, names: seq<string>): (r: Option<seq<nat>>)
    ensures r.Some? ==> |r.value| == |names|
    ensures r.Some? ==> forall j :: 0 <= j < |names| ==> r.value[j] < |cols| && cols[r.value[j]].name == names[j]
    ensures r.None? <==> exists j :: 0 <= j < |names| && Index(cols, names[j]).None?
  {
    if |names| == 0 then Some([])
    else
      var k := Index(cols, names[0]);
      var rest := Indices(cols, names[1..]);
      assert forall j :: 1 <= j < |names| ==> names[j] == names[1..][j - 1];
      if k.None? || rest.None? then None else Some([k.value] + rest.value)
  }

  function Projections(t: Table, ks: seq<nat>): (r: seq<Row>)
    requires WellFormed(t) && forall j :: 0 <= j < |ks| ==> ks[j] < |t.cols|
    ensures |r| == |t.rows| && forall i :: 0 <= i < |r| ==> r[i] == Project(t.rows[i], ks)
  {
    seq(|t.rows|, i requires 0 <= i < |t.rows| => Project(t.rows[i], ks))
  }

  /** numpy.unique(self[columnNames]): the distinct records of those columns, sorted. */
  function GetUnique(t: Table, names: seq<string>): (r: Result<seq<Row>>)
    requires WellFormed(t)
  {
    match Indices(t.cols, names)
    case None => Err(KeyError)
    case Some(ks) => Ok(SortedUnique(Projections(t, ks), RowLess))
  }

  /**
   * getUnique gives a strictly increasing list holding exactly the records
   * that occur in the named columns; any unknown name raises KeyError.
   */
  lemma GetUniqueMeaning(t: Table, names: seq<string>)
    requires WellFormed(t)
    ensures GetUnique(t, names).Err? <==> exists j :: 0 <= j < |names| && Index(t.cols, names[j]).None?
    ensures GetUnique(t, names).Ok? ==> StrictlySorted(GetUnique(t, names).value, RowLess)
    ensures GetUnique(t, names).Ok? ==> forall x :: x in GetUnique(t, names).value <==>
      (exists i :: 0 <= i < |t.rows| && x == Project(t.rows[i], Indices(t.cols, names).value))
  {
    RowLessIsStrictTotal();
    if Indices(t.cols, names).Some? {
      var ks := Indices(t.cols, names).value;
      SortedUniqueProperties(Projections(t, ks), RowLess);
    }
  }

  // ---- copyTable ----

  /** The columns copyTable copies: all of them for None or [], else the named ones. */
  function Chosen(t: Table, columns: seq<string>): Result<seq<nat>>
  {
    if |columns| == 0 then Ok(seq(|t.cols|, k => k))
    else
      match Indices(t.cols, columns)
      case None => Err(KeyError)
      case Some(ks) =>
        if exists i, j :: 0 <= i < j < |ks| && ks[i] == ks[j] then Err(ValueError("Duplicate column names"))
        else Ok(ks)
  }

  /**
   * copyTable: a table with no rows whose columns have the names, dtypes and
   * element shapes of the chosen columns; the shape is read from the first
   * row, so a non-empty selection from an empty table raises IndexError.
   */
  method CopyTable(t: Table, columns: seq<string>) returns (r: Result<Table>)
    requires WellFormed(t)
    ensures Chosen(t, columns).Err? ==> r == Err(Chosen(t, columns).error)
    ensures Chosen(t, columns).Ok? ==>
      var ks := Chosen(t, columns).value;
      (if |ks| > 0 && |t.rows| == 0 then r == Err(IndexError)
       else (r.Ok? && r.value.rows == [] &&
             r.value.cols == seq(|ks|, j requires 0 <= j < |ks| => t.cols[ks[j]])))
  {
    var chosen := Chosen(t, columns);
    if chosen.Err? {
      return Err(chosen.error);
    }
    var ks := chosen.value;
    assert forall j :: 0 <= j < |ks| ==> ks[j] < |t.cols|;
    var bare: seq<ColumnDef> := [];
    var j := 0;
    while j < |ks|
      invariant 0 <= j <= |ks| && |bare| == j
      invariant j > 0 ==> |t.rows| > 0
      invariant forall m :: 0 <= m < j ==> bare[m] == t.cols[ks[m]]
    {
      if |t.rows| == 0 {
        return Err(IndexError);
      }
      var old0 := t.rows[0][ks[j]];
      assert RowFits(t.cols, t.rows[0]);
      bare := bare + [ColumnDef(t.cols[ks[j]].name, KindOf(old0), ShapeOf(old0))];
      j := j + 1;
    }
    return Ok(Table(bare, []));
  }
}
