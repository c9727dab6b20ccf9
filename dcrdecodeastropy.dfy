// DcrDecodeAstropy: the astropy-era decoder and calibrator of DCR scans.
// mapDcrDataToPort lays DATA out by port and CAL state; consolidateFitsData
// is DcrTable's consolidation without the RECEIVER check, giving no table
// when the IF table has no DCR rows; calibrateMultiFeed calibrates each feed
// of one polarization and subtracts the beams; calibrateDefaultDcrPolarizations
// collects one result per polarization key and their average.

module DcrDecodeAstropy {
  import opened Wrappers
  import opened Ordering
  import opened DcrTable
  import Decode
  import Text
  import DcrCalibrate
  import SrcCalibrators
  import InterOps

  // ---- mapDcrDataToPort ----

  /** One row of the port table: PORT (1-based), CAL and the DATA slice. */
  datatype PortRow = PortRow(port: int, cal: int, data: seq<real>)

  /** The rows a run of appends added, and the exception that stopped it, if any. */
  datatype Appended = Appended(rows: seq<PortRow>, error: Option<Error>)

  /** numpy accepts an index i of an axis of length n when -n <= i < n. */
  predicate InAxis(i: int, n: nat)
  {
    -(n as int) <= i < n
  }

  /** The position an accepted index denotes; negative indices count from the end. */
  function AxisIndex(i: int, n: nat): (r: nat)
    requires InAxis(i, n)
    ensures r < n && (i >= 0 ==> r == i)
  {
    if i < 0 then i + n else i
  }

  /**
   * The rows the inner loop appends for port position p: one per CAL state in
   * order, up to the first state whose DATA slice does not exist.
   */
  function CalStateRows(d: DcrData, p: nat, port: int, cs: seq<int>): Appended
    requires Shaped(d)
    decreases |cs|
  {
    if |cs| == 0 then Appended([], None)
    else
      var prev := CalStateRows(d, p, port, cs[..|cs| - 1]);
      var c := cs[|cs| - 1];
      if prev.error.Some? then prev
      else if !(p < d.ports && InAxis(c, d.phases)) then Appended(prev.rows, Some(IndexError))
      else Appended(prev.rows + [PortRow(port, c, Slice(d, p, AxisIndex(c, d.phases)))], None)
  }

  /** The rows both loops append for the given ports, up to the first missing slice. */
  function PortsRows(d: DcrData, ports: seq<int>, cs: seq<int>): Appended
    requires Shaped(d)
    decreases |ports|
  {
    if |ports| == 0 then Appended([], None)
    else
      var prev := PortsRows(d, ports[..|ports| - 1], cs);
      if prev.error.Some? then prev
      else
        var next := CalStateRows(d, |ports| - 1, ports[|ports| - 1] + 1, cs);
        Appended(prev.rows + next.rows, next.error)
  }

  /** Every (port position, CAL state) pair of the loops names a DATA slice. */
  predicate Indexable(d: DcrData, nPorts: nat, cs: seq<int>)
  {
    nPorts == 0 || |cs| == 0 || (nPorts <= d.ports && forall j :: 0 <= j < |cs| ==> InAxis(cs[j], d.phases))
  }

  /** Row i·n + j of a table with n rows per port. */
  function Pos(i: nat, j: nat, m: nat, n: nat): (k: nat)
    requires i < m && j < n
    ensures k < m * n
  {
    MulAddBound(i, j, m, n);
    i * n + j
  }

  /** The inner loop appends one row per CAL state, or stops with IndexError. */
  lemma {:induction false} CalStateRowsMeaning(d: DcrData, p: nat, port: int, cs: seq<int>)
    requires Shaped(d)
    ensures var r := CalStateRows(d, p, port, cs);
      (r.error.None? <==> |cs| == 0 || (p < d.ports && forall j :: 0 <= j < |cs| ==> InAxis(cs[j], d.phases))) &&
      (r.error.Some? ==> r.error == Some(IndexError)) &&
      (r.error.None? ==> (|r.rows| == |cs| &&
        forall j :: 0 <= j < |cs| ==> (p < d.ports && InAxis(cs[j], d.phases) &&
          r.rows[j] == PortRow(port, cs[j], Slice(d, p, AxisIndex(cs[j], d.phases))))))
    decreases |cs|
  {
    if |cs| > 0 {
      var init := cs[..|cs| - 1];
      CalStateRowsMeaning(d, p, port, init);
      assert forall j :: 0 <= j < |init| ==> init[j] == cs[j];
    }
  }

  /** The loops stop with IndexError exactly when some (port, CAL state) pair has no DATA slice. */
  lemma {:induction false} PortsRowsErrors(d: DcrData, ports: seq<int>, cs: seq<int>)
    requires Shaped(d)
    ensures var r := PortsRows(d, ports, cs);
      (r.error.None? <==> Indexable(d, |ports|, cs)) && (r.error.Some? ==> r.error == Some(IndexError))
    decreases |ports|
  {
    if |ports| > 0 {
      var k := |ports| - 1;
      PortsRowsErrors(d, ports[..k], cs);
      CalStateRowsMeaning(d, k, ports[k] + 1, cs);
    }
  }

  /**
   * mapDcrDataToPort adds one row per (port, CAL state), port-major, with
   * the port shifted to 1-based and DATA[..., portIndex, calState] as its data.
   */
  lemma {:induction false} PortsRowsLayout(d: DcrData, ports: seq<int>, cs: seq<int>)
    requires Shaped(d) && PortsRows(d, ports, cs).error.None?
    ensures LaidOut(d, ports, cs, PortsRows(d, ports, cs).rows)
    decreases |ports|
  {
    if |ports| > 0 {
      var k := |ports| - 1;
      var init := ports[..k];
      var prev := PortsRows(d, init, cs);
      assert prev.error.None?;
      PortsRowsLayout(d, init, cs);
      var next := CalStateRows(d, k, ports[k] + 1, cs);
      assert PortsRows(d, ports, cs) == Appended(prev.rows + next.rows, next.error);
      CalStateRowsMeaning(d, k, ports[k] + 1, cs);
      LaidOutStep(d, ports, cs, prev.rows, next.rows);
    }
  }

  /** The rows hold, port-major, one row per (port, CAL state) with its DATA slice. */
  predicate LaidOut(d: DcrData, ports: seq<int>, cs: seq<int>, rows: seq<PortRow>)
    requires Shaped(d)
  {
    |rows| == |ports| * |cs| &&
    forall i, j :: 0 <= i < |ports| && 0 <= j < |cs| ==> (i < d.ports && InAxis(cs[j], d.phases) &&
      rows[Pos(i, j, |ports|, |cs|)] == PortRow(ports[i] + 1, cs[j], Slice(d, i, AxisIndex(cs[j], d.phases))))
  }

  /** The rows of the first ports followed by the last port's block are the rows of all ports. */
  lemma LaidOutStep(d: DcrData, ports: seq<int>, cs: seq<int>, prev: seq<PortRow>, next: seq<PortRow>)
    requires Shaped(d) && |ports| > 0
    requires LaidOut(d, ports[..|ports| - 1], cs, prev)
    requires |next| == |cs| && forall j :: 0 <= j < |cs| ==> (|ports| - 1 < d.ports && InAxis(cs[j], d.phases) &&
      next[j] == PortRow(ports[|ports| - 1] + 1, cs[j], Slice(d, |ports| - 1, AxisIndex(cs[j], d.phases))))
    ensures LaidOut(d, ports, cs, prev + next)
  {
    var k := |ports| - 1;
    BlockAt(prev, next, k, |cs|, 0, 0);
    forall i, j | 0 <= i < |ports| && 0 <= j < |cs|
      ensures i < d.ports && InAxis(cs[j], d.phases) &&
        (prev + next)[Pos(i, j, |ports|, |cs|)] == PortRow(ports[i] + 1, cs[j], Slice(d, i, AxisIndex(cs[j], d.phases)))
    {
      BlockAt(prev, next, k, |cs|, i, j);
      if i < k {
        assert ports[..k][i] == ports[i];
      }
    }
  }

  /** Row (i, j) of k blocks of n rows followed by one more block. */
  lemma BlockAt<T>(prev: seq<T>, next: seq<T>, k: nat, n: nat, i: nat, j: nat)
    requires |prev| == k * n && |next| == n && i <= k && (j < n || i == j == 0)
    ensures |prev + next| == (k + 1) * n
    ensures j < n && i < k ==> (prev + next)[Pos(i, j, k + 1, n)] == prev[Pos(i, j, k, n)]
    ensures j < n && i == k ==> (prev + next)[Pos(i, j, k + 1, n)] == next[j]
  {
    assert (k + 1) * n == k * n + n;
  }

  /** Once the inner loop has stopped, later CAL states add nothing. */
  lemma {:induction false} CalStateRowsStop(d: DcrData, p: nat, port: int, cs: seq<int>, j: nat)
    requires Shaped(d) && j <= |cs| && CalStateRows(d, p, port, cs[..j]).error.Some?
    ensures CalStateRows(d, p, port, cs) == CalStateRows(d, p, port, cs[..j])
    decreases |cs|
  {
    if j < |cs| {
      assert cs[..|cs| - 1][..j] == cs[..j];
      CalStateRowsStop(d, p, port, cs[..|cs| - 1], j);
    } else {
      assert cs[..j] == cs;
    }
  }

  /** Once the outer loop has stopped, later ports add nothing. */
  lemma {:induction false} PortsRowsStop(d: DcrData, ports: seq<int>, cs: seq<int>, i: nat)
    requires Shaped(d) && i <= |ports| && PortsRows(d, ports[..i], cs).error.Some?
    ensures PortsRows(d, ports, cs) == PortsRows(d, ports[..i], cs)
    decreases |ports|
  {
    if i < |ports| {
      assert ports[..|ports| - 1][..i] == ports[..i];
      PortsRowsStop(d, ports[..|ports| - 1], cs, i);
    } else {
      assert ports[..i] == ports;
    }
  }

  /** The astropy table that mapDcrDataToPort appends to. */
  class PortTable {
    var rows: seq<PortRow>

    constructor ()
      ensures rows == []
    {
      rows := [];
    }
  }

  /**
   * mapDcrDataToPort: appends to the table, in place, the rows of every
   * port (shifted to 1-based) and CAL state; an IndexError leaves the rows
   * appended before it.
   */
  method MapDcrDataToPort(d: DcrData, dcrPorts: seq<int>, table: PortTable, calStates: seq<int>)
    returns (err: Option<Error>)
    requires Shaped(d)
    modifies table
    ensures table.rows == old(table.rows) + PortsRows(d, dcrPorts, calStates).rows
    ensures err == PortsRows(d, dcrPorts, calStates).error
  {
    ghost var start := table.rows;
    var i := 0;
    while i < |dcrPorts|
      invariant 0 <= i <= |dcrPorts|
      invariant PortsRows(d, dcrPorts[..i], calStates).error.None?
      invariant table.rows == start + PortsRows(d, dcrPorts[..i], calStates).rows
    {
      PortsRowsNext(d, dcrPorts, calStates, i);
      ghost var before := table.rows;
      err := AppendCalStates(d, i, dcrPorts[i] + 1, table, calStates);
      assert table.rows == start + (PortsRows(d, dcrPorts[..i], calStates).rows +
        CalStateRows(d, i, dcrPorts[i] + 1, calStates).rows);
      if err.Some? {
        PortsRowsStop(d, dcrPorts, calStates, i + 1);
        return err;
      }
      i := i + 1;
    }
    assert dcrPorts[..i] == dcrPorts;
    return None;
  }

  /** One more port appends its block after the rows of the ports before it. */
  lemma PortsRowsNext(d: DcrData, ports: seq<int>, cs: seq<int>, i: nat)
    requires Shaped(d) && i < |ports| && PortsRows(d, ports[..i], cs).error.None?
    ensures var next := CalStateRows(d, i, ports[i] + 1, cs);
      PortsRows(d, ports[..i + 1], cs) == Appended(PortsRows(d, ports[..i], cs).rows + next.rows, next.error)
  {
    assert ports[..i + 1][..i] == ports[..i];
  }

  /** The inner loop of mapDcrDataToPort: the rows of one port, one per CAL state. */
  method AppendCalStates(d: DcrData, p: nat, port: int, table: PortTable, calStates: seq<int>)
    returns (err: Option<Error>)
    requires Shaped(d)
    modifies table
    ensures table.rows == old(table.rows) + CalStateRows(d, p, port, calStates).rows
    ensures err == CalStateRows(d, p, port, calStates).error
  {
    ghost var start := table.rows;
    var j := 0;
    while j < |calStates|
      invariant 0 <= j <= |calStates|
      invariant CalStateRows(d, p, port, calStates[..j]).error.None?
      invariant table.rows == start + CalStateRows(d, p, port, calStates[..j]).rows
    {
      var c := calStates[j];
      assert calStates[..j + 1][..j] == calStates[..j];
      if !(p < d.ports && InAxis(c, d.phases)) {
        CalStateRowsStop(d, p, port, calStates, j + 1);
        return Some(IndexError);
      }
      table.rows := table.rows + [PortRow(port, c, Slice(d, p, AxisIndex(c, d.phases)))];
      j := j + 1;
    }
    assert calStates[..j] == calStates;
    return None;
  }

  // ---- consolidateFitsData ----

  function ReshapeMsg(): string { "cannot reshape array" }

  /** The CAL and SIGREF checks, the only ones this consolidation makes before the layout. */
  predicate StatesChecked(state: seq<StateRow>)
  {
    ValidStates(CalValues(state)) && ValidStates(SigRefValues(state))
  }

  /**
   * DATA reshapes to (integrations, ports, SIGREF values, CAL values): the
   * sizes agree, or there are no integrations.
   */
  predicate ReshapeFits(state: seq<StateRow>, ifRows: seq<IfRow>, d: DcrData)
  {
    |d.samples| == 0 ||
    d.ports * d.phases == |UniquePorts(state, ifRows, |d.samples|)| * (|UniqueSigRefs(state)| * |UniqueCals(state)|)
  }

  /** Each SIGREF and CAL value is a position on its axis of the reshaped DATA. */
  predicate StateAxesFit(state: seq<StateRow>)
  {
    UniqueSigRefs(state) != [1] && UniqueCals(state) != [1]
  }

  /** A STATE table that passes the checks has one phase at least, and so does each checked axis. */
  lemma StatesCheckedPhases(state: seq<StateRow>, ifRows: seq<IfRow>, n: nat)
    requires StatesChecked(state) && |ifRows| > 0
    ensures |UniquePorts(state, ifRows, n)| > 0 && |UniqueSigRefs(state)| > 0 && |UniqueCals(state)| > 0
  {
    ValidStatesMeaning(CalValues(state));
    SortedUniqueLength(state, StateLess);
    var sk := Skeleton(state, ifRows, n);
    assert |sk| > 0 by {
      MulMonotone(|ifRows|, 1, NumPhases(state));
    }
    SortedUniqueLength(Ports(sk), IntLess);
    SortedUniqueLength(SigRefValues(state), IntLess);
    SortedUniqueLength(CalValues(state), IntLess);
  }

  /**
   * The reshaped-DATA axes fit exactly when some STATE row has SIGREF 0 and
   * some STATE row has CAL 0: a scan whose every phase has the diode on, or
   * whose every phase is a reference phase, fails on the comparison with the
   * reshaped DATA.
   */
  lemma StateAxesFitMeaning(state: seq<StateRow>)
    requires StatesChecked(state)
    ensures StateAxesFit(state) <==> 0 in SigRefValues(state) && 0 in CalValues(state)
  {
    BasicOrders();
    SortedUniqueProperties(SigRefValues(state), IntLess);
    SortedUniqueProperties(CalValues(state), IntLess);
    assert 0 in UniqueSigRefs(state) <==> 0 in SigRefValues(state);
    assert 0 in UniqueCals(state) <==> 0 in CalValues(state);
  }

  /**
   * consolidateFitsData on the STATE rows, the DCR rows of the IF table and
   * the DATA array: the CAL and SIGREF checks, no table when the IF table has
   * no DCR rows, the reshape, and then the triple loop, whose first pass
   * fails on the reshaped DATA when a state axis holds only the value 1.
   */
  method ConsolidateFitsData(state: seq<StateRow>, ifRows: seq<IfRow>, d: DcrData)
    returns (r: Result<Option<seq<DcrRow>>>)
    requires Shaped(d)
    ensures !ValidStates(CalValues(state)) ==> r == Err(ValueError(CalMsg()))
    ensures ValidStates(CalValues(state)) && !ValidStates(SigRefValues(state)) ==> r == Err(ValueError(SigRefMsg()))
    ensures StatesChecked(state) && |ifRows| == 0 ==> r == Ok(None)
    ensures StatesChecked(state) && |ifRows| > 0 ==>
      (r.Ok? <==> ReshapeFits(state, ifRows, d) && StateAxesFit(state) && Consolidates(state, ifRows, d))
    ensures StatesChecked(state) && r.Err? ==>
      r.error in {IndexError, ValueError(PhaseMsg()), ValueError(ReshapeMsg())}
    ensures r.Ok? && r.value.Some? ==> StatesChecked(state) && |ifRows| > 0 && ConsolidatedRows(r.value.value, state, ifRows, d)
  {
    if !ValidStates(CalValues(state)) {
      return Err(ValueError(CalMsg()));
    }
    if !ValidStates(SigRefValues(state)) {
      return Err(ValueError(SigRefMsg()));
    }
    if |ifRows| == 0 {
      return Ok(None);
    }
    var rows := ConsolidateChecked(state, ifRows, d);
    if rows.Err? {
      return Err(rows.error);
    }
    return Ok(Some(rows.value));
  }

  /** The reshape and the triple loop, once the STATE checks have passed and there are DCR rows. */
  method ConsolidateChecked(state: seq<StateRow>, ifRows: seq<IfRow>, d: DcrData)
    returns (r: Result<seq<DcrRow>>)
    requires Shaped(d) && StatesChecked(state) && |ifRows| > 0
    ensures r.Ok? <==> ReshapeFits(state, ifRows, d) && StateAxesFit(state) && Consolidates(state, ifRows, d)
    ensures r.Err? ==> r.error in {IndexError, ValueError(PhaseMsg()), ValueError(ReshapeMsg())}
    ensures r.Ok? ==> ConsolidatedRows(r.value, state, ifRows, d)
  {
    var n := |d.samples|;
    var skeleton := Skeleton(state, ifRows, n);
    var ports := SortedUnique(Ports(skeleton), IntLess);
    var us, uc := UniqueSigRefs(state), UniqueCals(state);
    StatesCheckedPhases(state, ifRows, n);
    if n > 0 && d.ports * d.phases != |ports| * (|us| * |uc|) {
      return Err(ValueError(ReshapeMsg()));
    }
    if us == [1] || uc == [1] {
      // The first pass (port 0, us[0], uc[0]) resolves its phase, takes its
      // DATA slice and then indexes the reshaped DATA at 1 on an axis of length 1.
      if Count(state, StateRow(us[0], uc[0])) != 1 {
        return Err(ValueError(PhaseMsg()));
      }
      return Err(IndexError);
    }
    var col := WritePhaseData(|skeleton|, |ports|, us, uc, state, d);
    if col.Err? {
      return Err(col.error);
    }
    WithDataConsolidated(state, ifRows, d, col.value);
    return Ok(WithData(skeleton, col.value));
  }

  // ---- calibrateMultiFeed ----

  /** A row of the consolidated astropy table, with the columns the calibration reads. */
  datatype DataRow = DataRow(feed: int, receptor: string, polarize: string, centerSky: real, bandwidth: real,
                             highCal: int, srFeed1: int, srFeed2: int, receiver: string, cal: int,
                             data: seq<real>)

  /** len(numpy.unique(values)): how many distinct values there are. */
  function NumUnique<T(==,!new)>(values: seq<T>): nat
  {
    |Dedup(values)|
  }

  /** One distinct value means a non-empty column whose values all agree. */
  lemma NumUniqueOne<T(!new)>(values: seq<T>)
    ensures NumUnique(values) == 1 <==> |values| > 0 && forall i :: 0 <= i < |values| ==> values[i] == values[0]
    ensures NumUnique(values) < 2 <==> forall i :: 0 <= i < |values| ==> values[i] == values[0]
  {
    var u := Dedup(values);
    if |values| > 0 {
      assert values[0] in u;
    }
    if forall i :: 0 <= i < |values| ==> values[i] == values[0] {
      if |u| > 1 {
        assert u[0] in values && u[1] in values;
      }
    }
    if |u| < 2 {
      forall i | 0 <= i < |values| ensures values[i] == values[0] {
        assert values[i] in u && values[0] in u;
      }
    }
  }

  function FeedColumn(rows: seq<DataRow>): (r: seq<int>)
    ensures |r| == |rows| && forall i :: 0 <= i < |r| ==> r[i] == rows[i].feed
  {
    seq(|rows|, i requires 0 <= i < |rows| => rows[i].feed)
  }

  /** The (FEED, POLARIZE) records, POLARIZE as stored. */
  function FeedPolColumn(rows: seq<DataRow>): (r: seq<(int, string)>)
    ensures |r| == |rows| && forall i :: 0 <= i < |r| ==> r[i] == (rows[i].feed, rows[i].polarize)
  {
    seq(|rows|, i requires 0 <= i < |rows| => (rows[i].feed, rows[i].polarize))
  }

  function ReceptorColumn(rows: seq<DataRow>): (r: seq<string>)
    ensures |r| == |rows| && forall i :: 0 <= i < |r| ==> r[i] == rows[i].receptor
  {
    seq(|rows|, i requires 0 <= i < |rows| => rows[i].receptor)
  }

  function CenterSkyColumn(rows: seq<DataRow>): (r: seq<real>)
    ensures |r| == |rows| && forall i :: 0 <= i < |r| ==> r[i] == rows[i].centerSky
  {
    seq(|rows|, i requires 0 <= i < |rows| => rows[i].centerSky)
  }

  function BandwidthColumn(rows: seq<DataRow>): (r: seq<real>)
    ensures |r| == |rows| && forall i :: 0 <= i < |r| ==> r[i] == rows[i].bandwidth
  {
    seq(|rows|, i requires 0 <= i < |rows| => rows[i].bandwidth)
  }

  function HighCalColumn(rows: seq<DataRow>): (r: seq<int>)
    ensures |r| == |rows| && forall i :: 0 <= i < |r| ==> r[i] == rows[i].highCal
  {
    seq(|rows|, i requires 0 <= i < |rows| => rows[i].highCal)
  }

  function CalColumn(rows: seq<DataRow>): (r: seq<int>)
    ensures |r| == |rows| && forall i :: 0 <= i < |r| ==> r[i] == rows[i].cal
  {
    seq(|rows|, i requires 0 <= i < |rows| => rows[i].cal)
  }

  function SrFeed1Column(rows: seq<DataRow>): (r: seq<int>)
    ensures |r| == |rows| && forall i :: 0 <= i < |r| ==> r[i] == rows[i].srFeed1
  {
    seq(|rows|, i requires 0 <= i < |rows| => rows[i].srFeed1)
  }

  function SrFeed2Column(rows: seq<DataRow>): (r: seq<int>)
    ensures |r| == |rows| && forall i :: 0 <= i < |r| ==> r[i] == rows[i].srFeed2
  {
    seq(|rows|, i requires 0 <= i < |rows| => rows[i].srFeed2)
  }

  function ReceiverColumn(rows: seq<DataRow>): (r: seq<string>)
    ensures |r| == |rows| && forall i :: 0 <= i < |r| ==> r[i] == rows[i].receiver
  {
    seq(|rows|, i requires 0 <= i < |rows| => rows[i].receiver)
  }

  /** The rows of a feed whose POLARIZE, right-stripped, is the polarization. */
  function FeedPolRows(rows: seq<DataRow>, feed: int, pol: string): (r: seq<DataRow>)
    ensures forall x :: x in r <==> x in rows && x.feed == feed && Text.RStrip(x.polarize) == pol
  {
    if |rows| == 0 then []
    else
      var rest := FeedPolRows(rows[1..], feed, pol);
      assert forall x :: x in rows <==> x == rows[0] || x in rows[1..];
      if rows[0].feed == feed && Text.RStrip(rows[0].polarize) == pol then [rows[0]] + rest else rest
  }

  /** The rows of a CAL state, in order. */
  function CalRows(rows: seq<DataRow>, cal: int): (r: seq<DataRow>)
    ensures forall x :: x in r <==> x in rows && x.cal == cal
  {
    if |rows| == 0 then []
    else
      var rest := CalRows(rows[1..], cal);
      assert forall x :: x in rows <==> x == rows[0] || x in rows[1..];
      if rows[0].cal == cal then [rows[0]] + rest else rest
  }

  /** DATA of the rows, flattened: their samples one after another. */
  function Flatten(rows: seq<DataRow>): (r: seq<real>)
  {
    if |rows| == 0 then [] else rows[0].data + Flatten(rows[1..])
  }

  /** getTcal for a feed, receptor, polarization, HIGH_CAL, center frequency and bandwidth. */
  type TcalLookup = (int, string, string, int, real, real) -> Result<real>

  /**
   * getTcal over the receiver calibration table: the mask compares FEED as
   * it is and RECEPTOR and POLARIZE right-stripped, then the band is
   * integrated as decode's getTcal does.
   */
  function RcvrTcal(rcvrCal: seq<Decode.CalRow>): TcalLookup
  {
    (feed, receptor, pol, highCal, center, bw) =>
      Decode.TcalOver(StrippedMatching(rcvrCal, feed, receptor, pol), highCal, center, bw)
  }

  /** The rows whose FEED, right-stripped RECEPTOR and right-stripped POLARIZE match, in order. */
  function StrippedMatching(rows: seq<Decode.CalRow>, feed: int, receptor: string, pol: string): seq<Decode.CalRow>
  {
    if |rows| == 0 then []
    else
      var rest := StrippedMatching(rows[1..], feed, receptor, pol);
      if rows[0].feed == feed && Text.RStrip(rows[0].receptor) == receptor && Text.RStrip(rows[0].polarize) == pol
      then [rows[0]] + rest else rest
  }

  /** The stripped mask keeps exactly the rows whose stripped columns match, and no more rows. */
  lemma {:induction false} StrippedMatchingMeaning(rows: seq<Decode.CalRow>, feed: int, receptor: string, pol: string)
    ensures |StrippedMatching(rows, feed, receptor, pol)| <= |rows|
    ensures forall q :: q in StrippedMatching(rows, feed, receptor, pol) <==>
      q in rows && q.feed == feed && Text.RStrip(q.receptor) == receptor && Text.RStrip(q.polarize) == pol
  {
    if |rows| > 0 {
      StrippedMatchingMeaning(rows[1..], feed, receptor, pol);
      assert forall q :: q in rows <==> q == rows[0] || q in rows[1..];
    }
  }

  /** A table whose RECEPTOR and POLARIZE carry no trailing blanks selects what decode's exact mask selects. */
  lemma {:induction false} StrippedMatchingAgrees(rows: seq<Decode.CalRow>, feed: int, receptor: string, pol: string)
    requires forall k :: 0 <= k < |rows| ==>
      Text.RStrip(rows[k].receptor) == rows[k].receptor && Text.RStrip(rows[k].polarize) == rows[k].polarize
    ensures StrippedMatching(rows, feed, receptor, pol) == Decode.Matching(rows, feed, receptor, pol)
    ensures forall highCal, center, bw ::
      RcvrTcal(rows)(feed, receptor, pol, highCal, center, bw) == Decode.Tcal(rows, feed, receptor, pol, highCal, center, bw)
  {
    if |rows| > 0 {
      assert forall k :: 0 <= k < |rows[1..]| ==> rows[1..][k] == rows[k + 1];
      StrippedMatchingAgrees(rows[1..], feed, receptor, pol);
    }
  }

  /**
   * A RECEPTOR stored with a trailing blank still matches its receptor
   * here, where decode's exact mask selects nothing and fails on x[0].
   */
  lemma RcvrTcalStrips()
    ensures var rows := [Decode.CalRow(0, "R1 ", "X", 0.0, 1.0, 1.0), Decode.CalRow(0, "R1 ", "X", 10.0, 1.0, 1.0)];
      RcvrTcal(rows)(0, "R1", "X", 1, 5.0, 2.0) == Ok(1.0) &&
      Decode.Tcal(rows, 0, "R1", "X", 1, 5.0, 2.0) == Err(IndexError)
  {
    var rows := [Decode.CalRow(0, "R1 ", "X", 0.0, 1.0, 1.0), Decode.CalRow(0, "R1 ", "X", 10.0, 1.0, 1.0)];
    TrailingBlank();
    assert StrippedMatching(rows, 0, "R1", "X") == rows;
    FlatBand(rows);
    assert Decode.Matching(rows, 0, "R1", "X") == [];
  }

  lemma TrailingBlank()
    ensures Text.RStrip("R1 ") == "R1" && Text.RStrip("X") == "X"
  {
    assert "R1 "[..2] == "R1";
  }

  /** Frequencies 0 and 10 at 1 K over the band [4, 6]: a Tcal of 1. */
  lemma FlatBand(rows: seq<Decode.CalRow>)
    requires |rows| == 2 && rows[0].frequency == 0.0 && rows[1].frequency == 10.0
    requires rows[0].highCalTemp == 1.0 && rows[1].highCalTemp == 1.0
    ensures Decode.TcalOver(rows, 1, 5.0, 2.0) == Ok(1.0)
  {
    var x, y := [0.0, 10.0], [1.0, 1.0];
    assert Decode.Frequencies(rows) == x && Decode.CalTemps(rows, 1) == y;
    assert Decode.Mid(x, 1) == 5.0;
    assert Decode.FindStart(x, 4.0, 1) == Some(1);
    assert Decode.SweepBins(x, y, 6.0, Decode.Cursor(2, 5.0, 1.0)) == Decode.Cursor(2, 5.0, 1.0);
  }

  /** The five asserts on the rows of one feed and polarization. */
  predicate FeedChecked(m: seq<DataRow>)
  {
    NumUnique(FeedPolColumn(m)) == 1 && NumUnique(ReceptorColumn(m)) == 1 && NumUnique(CenterSkyColumn(m)) == 1 &&
    NumUnique(BandwidthColumn(m)) == 1 && NumUnique(HighCalColumn(m)) == 1
  }

  /**
   * The body of calibrateMultiFeed's loop for one feed: the asserts on the
   * rows of the feed and polarization, no result (None) when they hold fewer
   * than two CAL values, else the feed's antenna temperature.
   */
  function FeedPower(rows: seq<DataRow>, pol: string, tcal: TcalLookup, feed: int): Result<Option<seq<real>>>
  {
    CheckedPower(FeedPolRows(rows, feed, pol), TaStep(pol, tcal, feed))
  }

  /** The asserts and the CAL count, before the calibration proper. */
  function CheckedPower(m: seq<DataRow>, calibrate: seq<DataRow> -> Result<seq<real>>): Result<Option<seq<real>>>
  {
    if !FeedChecked(m) then Err(AssertionError)
    else if NumUnique(CalColumn(m)) < 2 then Ok(None)
    else MaybePower(calibrate(m))
  }

  /** A computed power as a result that holds a power. */
  function MaybePower(power: Result<seq<real>>): Result<Option<seq<real>>>
  {
    match power
    case Err(e) => Err(e)
    case Ok(v) => Ok(Some(v))
  }

  /**
   * calibrateTotalPower: the antenna temperature of the flattened cal-on and
   * cal-off DATA with the Tcal of the first row's receptor (right-stripped),
   * HIGH_CAL, center frequency and bandwidth.
   */
  function TaStep(pol: string, tcal: TcalLookup, feed: int): seq<DataRow> -> Result<seq<real>>
  {
    (m: seq<DataRow>) => if |m| == 0 then Err(IndexError) else
      var tc :- tcal(feed, Text.RStrip(m[0].receptor), pol, m[0].highCal, m[0].centerSky, m[0].bandwidth);
      Decode.AntennaTemperature(Flatten(CalRows(m, 1)), Flatten(CalRows(m, 0)), tc)
  }

  /** The rows agree on every column the asserts look at, and there is one at least. */
  predicate Agree(m: seq<DataRow>)
  {
    |m| > 0 && forall i :: 0 <= i < |m| ==>
      (m[i].feed == m[0].feed && m[i].polarize == m[0].polarize && m[i].receptor == m[0].receptor &&
       m[i].centerSky == m[0].centerSky && m[i].bandwidth == m[0].bandwidth && m[i].highCal == m[0].highCal)
  }

  /** The rows agree on CAL. */
  predicate Flat(m: seq<DataRow>)
  {
    forall i :: 0 <= i < |m| ==> m[i].cal == m[0].cal
  }

  /** The five asserts pass exactly when the rows agree. */
  lemma FeedCheckedMeaning(m: seq<DataRow>)
    ensures FeedChecked(m) <==> Agree(m)
  {
    NumUniqueOne(FeedPolColumn(m));
    NumUniqueOne(ReceptorColumn(m));
    NumUniqueOne(CenterSkyColumn(m));
    NumUniqueOne(BandwidthColumn(m));
    NumUniqueOne(HighCalColumn(m));
    if Agree(m) {
      assert forall i :: 0 <= i < |m| ==> FeedPolColumn(m)[i] == FeedPolColumn(m)[0];
    }
  }

  /**
   * The rows of a feed and polarization fail the asserts exactly when they
   * do not agree; rows that agree give no result exactly when they also
   * agree on CAL, and otherwise the calibration's outcome.
   */
  lemma CheckedPowerMeaning(m: seq<DataRow>, calibrate: seq<DataRow> -> Result<seq<real>>)
    ensures !Agree(m) ==> CheckedPower(m, calibrate) == Err(AssertionError)
    ensures Agree(m) && Flat(m) ==> CheckedPower(m, calibrate) == Ok(None)
    ensures Agree(m) && !Flat(m) ==>
      (CheckedPower(m, calibrate).Ok? <==> calibrate(m).Ok?) &&
      (calibrate(m).Ok? ==> CheckedPower(m, calibrate) == Ok(Some(calibrate(m).value))) &&
      (calibrate(m).Err? ==> CheckedPower(m, calibrate) == Err(calibrate(m).error))
  {
    FeedCheckedMeaning(m);
    NumUniqueOne(CalColumn(m));
  }

  /**
   * For rows of a feed that agree but not on CAL, the power is the antenna
   * temperature with the first row's Tcal, and the lookup's error otherwise.
   */
  lemma FeedPowerComputed(rows: seq<DataRow>, pol: string, tcal: TcalLookup, feed: int)
    requires Agree(FeedPolRows(rows, feed, pol)) && !Flat(FeedPolRows(rows, feed, pol))
    ensures var m := FeedPolRows(rows, feed, pol);
      var r := FeedPower(rows, pol, tcal, feed);
      var tc := tcal(feed, Text.RStrip(m[0].receptor), pol, m[0].highCal, m[0].centerSky, m[0].bandwidth);
      (tc.Err? ==> r == Err(tc.error)) &&
      (tc.Ok? ==> var ta := Decode.AntennaTemperature(Flatten(CalRows(m, 1)), Flatten(CalRows(m, 0)), tc.value);
        (ta.Ok? ==> r == Ok(Some(ta.value))) && (ta.Err? ==> r == Err(ta.error)))
  {
    CheckedPowerMeaning(FeedPolRows(rows, feed, pol), TaStep(pol, tcal, feed));
  }

  /** The per-feed step of the loop. */
  function PowerStep(rows: seq<DataRow>, pol: string, tcal: TcalLookup): int -> Result<Option<seq<real>>>
  {
    feed => FeedPower(rows, pol, tcal, feed)
  }

  /**
   * The loop over the feeds: each feed's power goes into the map, the
   * first feed without a result ends the calibration with None, and the
   * first error ends it with that error.
   */
  function FeedPowers(power: int -> Result<Option<seq<real>>>, feeds: seq<int>, acc: map<int, seq<real>>)
    : (r: Result<Option<map<int, seq<real>>>>)
    ensures r.Ok? && r.value.Some? ==>
      (forall f :: f in acc ==> f in r.value.value) && forall k :: 0 <= k < |feeds| ==> feeds[k] in r.value.value
  {
    if |feeds| == 0 then Ok(Some(acc))
    else match power(feeds[0])
      case Err(e) => Err(e)
      case Ok(None) => Ok(None)
      case Ok(Some(v)) => FeedPowers(power, feeds[1..], acc[feeds[0] := v])
  }

  lemma FeedPowersStep(power: int -> Result<Option<seq<real>>>, feeds: seq<int>, i: int, acc: map<int, seq<real>>)
    requires 0 <= i < |feeds|
    ensures FeedPowers(power, feeds[i..], acc) ==
      match power(feeds[i])
      case Err(e) => Err(e)
      case Ok(None) => Ok(None)
      case Ok(Some(v)) => FeedPowers(power, feeds[i + 1..], acc[feeds[i] := v])
  {
    assert feeds[i..][1..] == feeds[i + 1..];
  }

  /** Every feed before position k yielded a power. */
  predicate AllPowered(power: int -> Result<Option<seq<real>>>, feeds: seq<int>, k: int)
  {
    forall j :: 0 <= j < k && j < |feeds| ==> power(feeds[j]).Ok? && power(feeds[j]).value.Some?
  }

  /**
   * The loop yields a map exactly when every feed yields a power, and the
   * map then holds each feed's power over acc; otherwise the first feed
   * that yields none or raises decides between None and its error.
   */
  lemma FeedPowersMeaning(power: int -> Result<Option<seq<real>>>, feeds: seq<int>, acc: map<int, seq<real>>)
    ensures var r := FeedPowers(power, feeds, acc);
      (r.Ok? && r.value.Some? <==> AllPowered(power, feeds, |feeds|)) &&
      (r.Ok? && r.value.Some? ==>
        (forall f :: f in r.value.value ==> f in acc || f in feeds) &&
        (forall f :: f in acc ==> f in r.value.value) &&
        (forall k :: 0 <= k < |feeds| ==> feeds[k] in r.value.value && r.value.value[feeds[k]] == power(feeds[k]).value.value) &&
        (forall f :: f in acc && f !in feeds ==> r.value.value[f] == acc[f])) &&
      (r == Ok(None) ==> exists k :: 0 <= k < |feeds| && AllPowered(power, feeds, k) && power(feeds[k]) == Ok(None)) &&
      (r.Err? ==> exists k :: 0 <= k < |feeds| && AllPowered(power, feeds, k) && power(feeds[k]) == Err(r.error))
  {
    FeedPowersMap(power, feeds, acc);
    FeedPowersStop(power, feeds, acc);
  }

  /** The map case of FeedPowersMeaning. */
  lemma {:induction false} FeedPowersMap(power: int -> Result<Option<seq<real>>>, feeds: seq<int>, acc: map<int, seq<real>>)
    ensures var r := FeedPowers(power, feeds, acc);
      (r.Ok? && r.value.Some? <==> AllPowered(power, feeds, |feeds|)) &&
      (r.Ok? && r.value.Some? ==>
        (forall f :: f in r.value.value ==> f in acc || f in feeds) &&
        (forall f :: f in acc ==> f in r.value.value) &&
        (forall k :: 0 <= k < |feeds| ==> feeds[k] in r.value.value && r.value.value[feeds[k]] == power(feeds[k]).value.value) &&
        (forall f :: f in acc && f !in feeds ==> r.value.value[f] == acc[f]))
    decreases |feeds|
  {
    if |feeds| > 0 {
      var tail := feeds[1..];
      assert forall k :: 0 <= k < |tail| ==> tail[k] == feeds[k + 1];
      assert forall f :: f in feeds <==> f == feeds[0] || f in tail;
      var v := power(feeds[0]);
      if v.Ok? && v.value.Some? {
        var acc' := acc[feeds[0] := v.value.value];
        FeedPowersMap(power, tail, acc');
        var r := FeedPowers(power, feeds, acc);
        assert r == FeedPowers(power, tail, acc');
        assert AllPowered(power, feeds, |feeds|) <==> AllPowered(power, tail, |tail|);
        if r.Ok? && r.value.Some? {
          var m := r.value.value;
          forall k | 0 <= k < |feeds| ensures feeds[k] in m && m[feeds[k]] == power(feeds[k]).value.value {
            if k > 0 {
              assert feeds[k] == tail[k - 1];
            }
          }
        }
      } else {
        assert !AllPowered(power, feeds, |feeds|);
      }
    }
  }

  /** The None and error cases of FeedPowersMeaning. */
  lemma {:induction false} FeedPowersStop(power: int -> Result<Option<seq<real>>>, feeds: seq<int>, acc: map<int, seq<real>>)
    ensures var r := FeedPowers(power, feeds, acc);
      (r == Ok(None) ==> exists k :: 0 <= k < |feeds| && AllPowered(power, feeds, k) && power(feeds[k]) == Ok(None)) &&
      (r.Err? ==> exists k :: 0 <= k < |feeds| && AllPowered(power, feeds, k) && power(feeds[k]) == Err(r.error))
    decreases |feeds|
  {
    if |feeds| > 0 {
      var tail := feeds[1..];
      var v := power(feeds[0]);
      var r := FeedPowers(power, feeds, acc);
      if v.Ok? && v.value.Some? {
        var acc' := acc[feeds[0] := v.value.value];
        FeedPowersStop(power, tail, acc');
        assert r == FeedPowers(power, tail, acc');
        if r == Ok(None) {
          var k :| 0 <= k < |tail| && AllPowered(power, tail, k) && power(tail[k]) == Ok(None);
          assert feeds[k + 1] == tail[k];
          assert AllPowered(power, feeds, k + 1);
        } else if r.Err? {
          var k :| 0 <= k < |tail| && AllPowered(power, tail, k) && power(tail[k]) == Err(r.error);
          assert feeds[k + 1] == tail[k];
          assert AllPowered(power, feeds, k + 1);
        }
      } else {
        assert AllPowered(power, feeds, 0);
      }
    }
  }

  /** The signal and reference feeds: SRFEED2 and SRFEED1, swapped when a given track beam is not SRFEED2. */
  function SigAndRef(refFeed: int, sigFeed: int, trackBeam: Option<int>): (int, int)
  {
    if trackBeam.None? || sigFeed == trackBeam.value then (sigFeed, refFeed) else (refFeed, sigFeed)
  }

  /**
   * The end of calibrateMultiFeed: the SRFEED asserts, then one feed's power,
   * or the signal feed's power less the reference feed's with two feeds, or
   * TypeError with more.
   */
  function BeamResult(rows: seq<DataRow>, feeds: seq<int>, m: map<int, seq<real>>, trackBeam: Option<int>)
    : Result<Option<seq<real>>>
    requires forall k :: 0 <= k < |feeds| ==> feeds[k] in m
  {
    if NumUnique(SrFeed1Column(rows)) != 1 || NumUnique(SrFeed2Column(rows)) != 1 then Err(AssertionError)
    else if |feeds| == 1 then Ok(Some(m[feeds[0]]))
    else if |feeds| == 2 then
      assert Dedup(SrFeed1Column(rows))[0] in SrFeed1Column(rows);
      var (sig, ref) := SigAndRef(rows[0].srFeed1, rows[0].srFeed2, trackBeam);
      if sig !in m || ref !in m then Err(KeyError)
      else MaybePower(SrcCalibrators.Difference(m[sig], m[ref]))
    else Err(TypeError)
  }

  /** numpy.unique(dataTable['FEED']) */
  function TableFeeds(rows: seq<DataRow>): seq<int>
  {
    SortedUnique(FeedColumn(rows), IntLess)
  }

  /** calibrateMultiFeed on the consolidated rows, with getTcal as a lookup. */
  function MultiFeedSpec(rows: seq<DataRow>, pol: string, tcal: TcalLookup, trackBeam: Option<int>)
    : Result<Option<seq<real>>>
  {
    MultiFeedWith(rows, PowerStep(rows, pol, tcal), trackBeam)
  }

  /** The loop over the table's feeds with a given per-feed step, then the beam combination. */
  function MultiFeedWith(rows: seq<DataRow>, power: int -> Result<Option<seq<real>>>, trackBeam: Option<int>)
    : Result<Option<seq<real>>>
  {
    var feeds := TableFeeds(rows);
    var r :- FeedPowers(power, feeds, map[]);
    if r.None? then Ok(None) else BeamResult(rows, feeds, r.value, trackBeam)
  }

  /**
   * calibrateMultiFeed: calibrates every feed of the polarization in turn and
   * combines the powers.
   */
  method CalibrateMultiFeed(rows: seq<DataRow>, pol: string, rcvrCal: seq<Decode.CalRow>, trackBeam: Option<int>)
    returns (r: Result<Option<seq<real>>>)
    ensures r == MultiFeedSpec(rows, pol, RcvrTcal(rcvrCal), trackBeam)
  {
    var feeds := TableFeeds(rows);
    var step := PowerStep(rows, pol, RcvrTcal(rcvrCal));
    var mapFeedToData: map<int, seq<real>> := map[];
    var i := 0;
    while i < |feeds|
      invariant 0 <= i <= |feeds|
      invariant FeedPowers(step, feeds, map[]) == FeedPowers(step, feeds[i..], mapFeedToData)
    {
      var feed := feeds[i];
      FeedPowersStep(step, feeds, i, mapFeedToData);
      var power := FeedPower(rows, pol, RcvrTcal(rcvrCal), feed);
      assert power == step(feed);
      if power.Err? {
        return Err(power.error);
      }
      if power.value.None? {
        return Ok(None);
      }
      mapFeedToData := mapFeedToData[feed := power.value.value];
      i := i + 1;
    }
    assert feeds[i..] == [];
    r := BeamResult(rows, feeds, mapFeedToData, trackBeam);
  }

  /** SRFEED1 and SRFEED2 each hold one value over the table, which has a row. */
  predicate SrFeedsAgree(rows: seq<DataRow>)
  {
    |rows| > 0 && forall i :: 0 <= i < |rows| ==> rows[i].srFeed1 == rows[0].srFeed1 && rows[i].srFeed2 == rows[0].srFeed2
  }

  /**
   * The SRFEED asserts fail exactly when the table's SRFEED columns do not
   * agree; one feed gives its power; two give the signal feed's power less
   * the reference feed's, or KeyError when one has no power, or ValueError
   * when the lengths differ; more raise TypeError.  There is always a power
   * when there is no error.
   */
  lemma BeamResultMeaning(rows: seq<DataRow>, feeds: seq<int>, m: map<int, seq<real>>, trackBeam: Option<int>)
    requires forall k :: 0 <= k < |feeds| ==> feeds[k] in m
    ensures var r := BeamResult(rows, feeds, m, trackBeam);
      (r.Ok? ==> r.value.Some?) &&
      (!SrFeedsAgree(rows) ==> r == Err(AssertionError)) &&
      (SrFeedsAgree(rows) && |feeds| == 1 ==> r == Ok(Some(m[feeds[0]]))) &&
      (SrFeedsAgree(rows) && |feeds| != 1 && |feeds| != 2 ==> r == Err(TypeError)) &&
      (SrFeedsAgree(rows) && |feeds| == 2 ==>
        var (sig, ref) := SigAndRef(rows[0].srFeed1, rows[0].srFeed2, trackBeam);
        (sig !in m || ref !in m ==> r == Err(KeyError)) &&
        (sig in m && ref in m ==>
          (r.Ok? <==> |m[sig]| == |m[ref]|) &&
          (r.Ok? ==> (|r.value.value| == |m[sig]| &&
            forall j :: 0 <= j < |m[sig]| ==> r.value.value[j] == m[sig][j] - m[ref][j]))))
  {
    NumUniqueOne(SrFeed1Column(rows));
    NumUniqueOne(SrFeed2Column(rows));
    if SrFeedsAgree(rows) {
      assert forall i :: 0 <= i < |rows| ==> SrFeed1Column(rows)[i] == SrFeed1Column(rows)[0];
      assert forall i :: 0 <= i < |rows| ==> SrFeed2Column(rows)[i] == SrFeed2Column(rows)[0];
    }
  }

  /**
   * A track beam equal to SRFEED2 keeps SRFEED2 as the signal feed, as no
   * track beam does; any other track beam swaps the two feeds, which negates
   * the two-feed difference.
   */
  lemma TrackBeamSwaps(refFeed: int, sigFeed: int, tb: int, m: map<int, seq<real>>)
    requires refFeed in m && sigFeed in m
    ensures SigAndRef(refFeed, sigFeed, Some(sigFeed)) == SigAndRef(refFeed, sigFeed, None) == (sigFeed, refFeed)
    ensures tb != sigFeed ==> SigAndRef(refFeed, sigFeed, Some(tb)) == (refFeed, sigFeed)
    ensures SrcCalibrators.Difference(m[sigFeed], m[refFeed]).Ok? <==> SrcCalibrators.Difference(m[refFeed], m[sigFeed]).Ok?
    ensures SrcCalibrators.Difference(m[sigFeed], m[refFeed]).Ok? ==>
      var a, b := SrcCalibrators.Difference(m[sigFeed], m[refFeed]).value, SrcCalibrators.Difference(m[refFeed], m[sigFeed]).value;
      |a| == |b| && forall j :: 0 <= j < |a| ==> b[j] == -a[j]
  {
  }

  /** The loop yields None exactly when the first feed without a power yields None. */
  lemma FeedPowersNone(power: int -> Result<Option<seq<real>>>, feeds: seq<int>, acc: map<int, seq<real>>)
    ensures FeedPowers(power, feeds, acc) == Ok(None) <==>
      exists k :: 0 <= k < |feeds| && AllPowered(power, feeds, k) && power(feeds[k]) == Ok(None)
  {
    var r := FeedPowers(power, feeds, acc);
    FeedPowersMeaning(power, feeds, acc);
    if exists k :: 0 <= k < |feeds| && AllPowered(power, feeds, k) && power(feeds[k]) == Ok(None) {
      var k :| 0 <= k < |feeds| && AllPowered(power, feeds, k) && power(feeds[k]) == Ok(None);
      assert !AllPowered(power, feeds, |feeds|);
    }
  }

  /** A feed yields no power exactly when its rows pass the asserts and agree on CAL. */
  lemma FeedPowerNone(rows: seq<DataRow>, pol: string, tcal: TcalLookup, feed: int)
    ensures FeedPower(rows, pol, tcal, feed) == Ok(None) <==>
      Agree(FeedPolRows(rows, feed, pol)) && Flat(FeedPolRows(rows, feed, pol))
  {
    var m := FeedPolRows(rows, feed, pol);
    CheckedPowerMeaning(m, TaStep(pol, tcal, feed));
  }

  /**
   * calibrateMultiFeed returns None exactly when some feed, all feeds before
   * it having been calibrated, has rows that pass the asserts but hold a
   * single CAL value.
   */
  lemma MultiFeedNone(rows: seq<DataRow>, pol: string, tcal: TcalLookup, trackBeam: Option<int>)
    ensures var feeds, step := TableFeeds(rows), PowerStep(rows, pol, tcal);
      MultiFeedSpec(rows, pol, tcal, trackBeam) == Ok(None) <==>
        exists k :: 0 <= k < |feeds| && AllPowered(step, feeds, k) &&
          Agree(FeedPolRows(rows, feeds[k], pol)) && Flat(FeedPolRows(rows, feeds[k], pol))
  {
    var feeds, step := TableFeeds(rows), PowerStep(rows, pol, tcal);
    var r := FeedPowers(step, feeds, map[]);
    FeedPowersNone(step, feeds, map[]);
    if r.Ok? && r.value.Some? {
      BeamResultMeaning(rows, feeds, r.value.value, trackBeam);
    }
    forall k | 0 <= k < |feeds|
      ensures step(feeds[k]) == Ok(None) <==> Agree(FeedPolRows(rows, feeds[k], pol)) && Flat(FeedPolRows(rows, feeds[k], pol))
    {
      FeedPowerNone(rows, pol, tcal, feeds[k]);
    }
  }

  /**
   * When every feed is calibrated (power is the per-feed step, PowerStep
   * for calibrateMultiFeed): one feed gives its own power, two give
   * the signal feed's power less the reference feed's (KeyError when SRFEED1
   * or SRFEED2 is not a feed of the table), more raise TypeError, all after
   * the SRFEED asserts.
   */
  lemma MultiFeedCombines(rows: seq<DataRow>, power: int -> Result<Option<seq<real>>>, trackBeam: Option<int>)
    requires AllPowered(power, TableFeeds(rows), |TableFeeds(rows)|)
    ensures var feeds, r := TableFeeds(rows), MultiFeedWith(rows, power, trackBeam);
      (!SrFeedsAgree(rows) ==> r == Err(AssertionError)) &&
      (SrFeedsAgree(rows) && |feeds| == 1 ==> r == Ok(Some(power(feeds[0]).value.value))) &&
      (SrFeedsAgree(rows) && |feeds| > 2 ==> r == Err(TypeError)) &&
      (SrFeedsAgree(rows) && |feeds| == 2 ==>
        var (sig, ref) := SigAndRef(rows[0].srFeed1, rows[0].srFeed2, trackBeam);
        (sig !in feeds || ref !in feeds ==> r == Err(KeyError)) &&
        (sig in feeds && ref in feeds ==>
          var ps, pr := power(sig).value.value, power(ref).value.value;
          (r.Ok? <==> |ps| == |pr|) &&
          (r.Ok? ==> (r.value.Some? && |r.value.value| == |ps| &&
            forall j :: 0 <= j < |ps| ==> r.value.value[j] == ps[j] - pr[j]))))
  {
    var feeds := TableFeeds(rows);
    FeedPowersMeaning(power, feeds, map[]);
    var m := FeedPowers(power, feeds, map[]).value.value;
    BeamResultMeaning(rows, feeds, m, trackBeam);
    if SrFeedsAgree(rows) && |feeds| == 2 {
      var (sig, ref) := SigAndRef(rows[0].srFeed1, rows[0].srFeed2, trackBeam);
      if sig in feeds && ref in feeds {
        var i :| 0 <= i < |feeds| && feeds[i] == sig;
        var j :| 0 <= j < |feeds| && feeds[j] == ref;
        assert m[sig] == power(sig).value.value;
        assert m[ref] == power(ref).value.value;
        assert MultiFeedWith(rows, power, trackBeam) == BeamResult(rows, feeds, m, trackBeam);
      }
    }
  }

  // ---- calibrateDcrData ----

  /** The table holds one RECEIVER, one CENTER_SKY and one BANDWDTH value, and a row. */
  predicate OneBand(rows: seq<DataRow>)
  {
    |rows| > 0 && forall i :: 0 <= i < |rows| ==>
      (rows[i].receiver == rows[0].receiver && rows[i].centerSky == rows[0].centerSky &&
       rows[i].bandwidth == rows[0].bandwidth)
  }

  /** calibrateDcrData: the table's asserts, then calibrateMultiFeed without a track beam. */
  function CalibrateDcrDataSpec(rows: seq<DataRow>, pol: string, tcal: TcalLookup): Result<Option<seq<real>>>
  {
    if NumUnique(ReceiverColumn(rows)) != 1 || NumUnique(CenterSkyColumn(rows)) != 1 ||
       NumUnique(BandwidthColumn(rows)) != 1
    then Err(AssertionError)
    else MultiFeedSpec(rows, pol, tcal, None)
  }

  /** The asserts fail exactly when the table does not hold one receiver, frequency and bandwidth. */
  lemma CalibrateDcrDataMeaning(rows: seq<DataRow>, pol: string, tcal: TcalLookup)
    ensures !OneBand(rows) ==> CalibrateDcrDataSpec(rows, pol, tcal) == Err(AssertionError)
    ensures OneBand(rows) ==> CalibrateDcrDataSpec(rows, pol, tcal) == MultiFeedSpec(rows, pol, tcal, None)
  {
    OneBandChecks(rows);
  }

  /** The three asserts pass exactly when the table is one band. */
  lemma OneBandChecks(rows: seq<DataRow>)
    ensures OneBand(rows) <==>
      NumUnique(ReceiverColumn(rows)) == 1 && NumUnique(CenterSkyColumn(rows)) == 1 && NumUnique(BandwidthColumn(rows)) == 1
  {
    NumUniqueOne(ReceiverColumn(rows));
    NumUniqueOne(CenterSkyColumn(rows));
    NumUniqueOne(BandwidthColumn(rows));
    if OneBand(rows) {
      assert forall i :: 0 <= i < |rows| ==> ReceiverColumn(rows)[i] == ReceiverColumn(rows)[0];
    }
  }

  /**
   * calibrateDcrData on the consolidated rows; the beam argument is not
   * used.
   */
  method CalibrateDcrData(rows: seq<DataRow>, beam: int, pol: string, rcvrCal: seq<Decode.CalRow>)
    returns (r: Result<Option<seq<real>>>)
    ensures r == CalibrateDcrDataSpec(rows, pol, RcvrTcal(rcvrCal))
  {
    if NumUnique(ReceiverColumn(rows)) != 1 || NumUnique(CenterSkyColumn(rows)) != 1 ||
       NumUnique(BandwidthColumn(rows)) != 1 {
      return Err(AssertionError);
    }
    r := CalibrateMultiFeed(rows, pol, rcvrCal, None);
  }

  // ---- calibrateDefaultDcrPolarizations ----

  /** A result dictionary keyed by (mode, polarization key). */
  type PolMap = map<(string, string), seq<real>>

  function PolarizeColumn(rows: seq<DataRow>): (r: seq<string>)
    ensures |r| == |rows| && forall i :: 0 <= i < |rows| ==> r[i] == rows[i].polarize
  {
    seq(|rows|, i requires 0 <= i < |rows| => rows[i].polarize)
  }

  function StripAll(values: seq<string>): (r: seq<string>)
    ensures |r| == |values| && forall i :: 0 <= i < |values| ==> r[i] == Text.Strip(values[i])
  {
    seq(|values|, i requires 0 <= i < |values| => Text.Strip(values[i]))
  }

  /**
   * The table's polarizations: each distinct POLARIZE value, stripped.  A
   * Python set has no defined order; the model takes first occurrence.
   */
  function TablePols(rows: seq<DataRow>): seq<string>
  {
    StripAll(Dedup(PolarizeColumn(rows)))
  }

  /** TotalPower for a single-feed table, DualBeam otherwise. */
  function Mode(rows: seq<DataRow>): string
  {
    if |TableFeeds(rows)| == 1 then "TotalPower" else "DualBeam"
  }

  /** The default calibration of one polarization of the table. */
  function PolStep(rows: seq<DataRow>, tcal: TcalLookup, trackBeam: Option<int>): string -> Result<Option<seq<real>>>
  {
    (pol: string) => MultiFeedSpec(rows, pol, tcal, trackBeam)
  }

  /**
   * The loop over the polarizations: the key lookup (KeyError before any
   * calibration of that polarization), the calibration, and the store when
   * there is a power.
   */
  function PolPowers(power: string -> Result<Option<seq<real>>>, mode: string, pols: seq<string>, acc: PolMap)
    : Result<PolMap>
  {
    if |pols| == 0 then Ok(acc)
    else
      var key :- DcrCalibrate.PolKey(pols[0]);
      var p :- power(pols[0]);
      PolPowers(power, mode, pols[1..], if p.Some? then acc[(mode, key) := p.value] else acc)
  }

  lemma PolPowersStep(power: string -> Result<Option<seq<real>>>, mode: string, pols: seq<string>, i: int, acc: PolMap)
    requires 0 <= i < |pols|
    ensures PolPowers(power, mode, pols[i..], acc) ==
      match DcrCalibrate.PolKey(pols[i])
      case Err(e) => Err(e)
      case Ok(key) =>
        match power(pols[i])
        case Err(e) => Err(e)
        case Ok(None) => PolPowers(power, mode, pols[i + 1..], acc)
        case Ok(Some(v)) => PolPowers(power, mode, pols[i + 1..], acc[(mode, key) := v])
  {
    assert pols[i..][1..] == pols[i + 1..];
  }

  /** The polarization yields a power. */
  predicate Powered(power: string -> Result<Option<seq<real>>>, pol: string)
  {
    power(pol).Ok? && power(pol).value.Some?
  }

  /** Some polarization of pols stores its power under key k. */
  predicate Hits(power: string -> Result<Option<seq<real>>>, mode: string, pols: seq<string>, k: (string, string))
  {
    exists i :: 0 <= i < |pols| && k.0 == mode && DcrCalibrate.PolKey(pols[i]) == Ok(k.1) && Powered(power, pols[i])
  }

  /** The polarization at position i shares its key with no other. */
  predicate OwnKey(pols: seq<string>, i: int)
    requires 0 <= i < |pols|
  {
    forall j :: 0 <= j < |pols| && j != i ==> DcrCalibrate.PolKey(pols[j]) != DcrCalibrate.PolKey(pols[i])
  }

  /** The polarization has a key and calibrates without error. */
  predicate Clean(power: string -> Result<Option<seq<real>>>, pol: string)
  {
    DcrCalibrate.PolKey(pol).Ok? && power(pol).Ok?
  }

  /** The error the loop raises at a polarization that is not clean. */
  predicate FailsWith(power: string -> Result<Option<seq<real>>>, pol: string, e: Error)
  {
    if DcrCalibrate.PolKey(pol).Err? then e == KeyError else power(pol) == Err(e)
  }

  /**
   * The loop succeeds exactly when every polarization has a key and
   * calibrates without error; otherwise the error is that of the first
   * polarization without a key or with a failed calibration.
   */
  lemma {:induction false} PolPowersErrors(power: string -> Result<Option<seq<real>>>, mode: string, pols: seq<string>,
                                           acc: PolMap)
    ensures var r := PolPowers(power, mode, pols, acc);
      (r.Ok? <==> forall i :: 0 <= i < |pols| ==> Clean(power, pols[i])) &&
      (r.Err? ==> exists i :: (0 <= i < |pols| && (forall j :: 0 <= j < i ==> Clean(power, pols[j])) &&
                                FailsWith(power, pols[i], r.error)))
    decreases |pols|
  {
    if |pols| > 0 {
      var key := DcrCalibrate.PolKey(pols[0]);
      var r := PolPowers(power, mode, pols, acc);
      if Clean(power, pols[0]) {
        var p := power(pols[0]).value;
        var acc' := if p.Some? then acc[(mode, key.value) := p.value] else acc;
        var rest := pols[1..];
        PolPowersErrors(power, mode, rest, acc');
        assert r == PolPowers(power, mode, rest, acc');
        assert forall i :: 1 <= i < |pols| ==> pols[i] == rest[i - 1];
        if r.Err? {
          var i :| 0 <= i < |rest| && (forall j :: 0 <= j < i ==> Clean(power, rest[j])) && FailsWith(power, rest[i], r.error);
          assert pols[i + 1] == rest[i];
        }
      } else {
        assert FailsWith(power, pols[0], r.error);
      }
    }
  }

  /**
   * After a successful loop the dictionary holds the starting entries and
   * exactly one entry per key of a polarization with a power, and the keys
   * no polarization stores under keep their starting value.
   */
  lemma {:induction false} PolPowersKeys(power: string -> Result<Option<seq<real>>>, mode: string, pols: seq<string>,
                                         acc: PolMap)
    ensures var r := PolPowers(power, mode, pols, acc);
      (r.Ok? ==> forall k :: k in r.value <==> k in acc || Hits(power, mode, pols, k)) &&
      (r.Ok? ==> forall k :: k in acc && !Hits(power, mode, pols, k) ==> r.value[k] == acc[k])
    decreases |pols|
  {
    if |pols| > 0 {
      var key := DcrCalibrate.PolKey(pols[0]);
      if key.Ok? && power(pols[0]).Ok? {
        var p := power(pols[0]).value;
        var acc' := if p.Some? then acc[(mode, key.value) := p.value] else acc;
        var rest := pols[1..];
        PolPowersKeys(power, mode, rest, acc');
        var r := PolPowers(power, mode, pols, acc);
        assert r == PolPowers(power, mode, rest, acc');
        if r.Ok? {
          forall k
            ensures k in r.value <==> k in acc || Hits(power, mode, pols, k)
          {
            if Hits(power, mode, rest, k) {
              var i :| 0 <= i < |rest| && k.0 == mode && DcrCalibrate.PolKey(rest[i]) == Ok(k.1) && Powered(power, rest[i]);
              assert pols[i + 1] == rest[i];
            }
            if Hits(power, mode, pols, k) {
              var i :| 0 <= i < |pols| && k.0 == mode && DcrCalibrate.PolKey(pols[i]) == Ok(k.1) && Powered(power, pols[i]);
              if i > 0 {
                assert rest[i - 1] == pols[i];
              }
            }
          }
          forall k | k in acc && !Hits(power, mode, pols, k)
            ensures r.value[k] == acc[k]
          {
            assert forall i :: 0 <= i < |rest| ==> rest[i] == pols[i + 1];
            if p.Some? {
              assert k != (mode, key.value);
            }
          }
        }
      }
    }
  }

  /** After a successful loop a polarization with a key of its own finds its power under that key. */
  lemma {:induction false} PolPowersOwn(power: string -> Result<Option<seq<real>>>, mode: string, pols: seq<string>,
                                        acc: PolMap, i: int)
    requires 0 <= i < |pols| && Powered(power, pols[i]) && OwnKey(pols, i)
    requires PolPowers(power, mode, pols, acc).Ok?
    ensures DcrCalibrate.PolKey(pols[i]).Ok?
    ensures var r, k := PolPowers(power, mode, pols, acc), (mode, DcrCalibrate.PolKey(pols[i]).value);
      k in r.value && r.value[k] == power(pols[i]).value.value
    decreases |pols|
  {
    var key := DcrCalibrate.PolKey(pols[0]);
    PolPowersErrors(power, mode, pols, acc);
    var p := power(pols[0]).value;
    var acc' := if p.Some? then acc[(mode, key.value) := p.value] else acc;
    var rest := pols[1..];
    var r := PolPowers(power, mode, pols, acc);
    assert r == PolPowers(power, mode, rest, acc');
    if i == 0 {
      var k := (mode, key.value);
      PolPowersKeys(power, mode, rest, acc');
      forall j | 0 <= j < |rest|
        ensures DcrCalibrate.PolKey(rest[j]) != Ok(k.1)
      {
        assert rest[j] == pols[j + 1];
      }
      assert !Hits(power, mode, rest, k);
    } else {
      assert rest[i - 1] == pols[i];
      forall j | 0 <= j < |rest| && j != i - 1
        ensures DcrCalibrate.PolKey(rest[j]) != DcrCalibrate.PolKey(rest[i - 1])
      {
        assert pols[j + 1] == rest[j];
      }
      PolPowersOwn(power, mode, rest, acc', i - 1);
    }
  }

  /** The elementwise mean of two powers; numpy cannot broadcast unequal lengths. */
  function PairMean(a: seq<real>, b: seq<real>): (r: Result<seq<real>>)
    ensures r.Ok? <==> |a| == |b|
    ensures r.Err? ==> r.error == ValueError(InterOps.BroadcastMsg())
  {
    if |a| != |b| then Err(ValueError(InterOps.BroadcastMsg()))
    else Ok(seq(|a|, j requires 0 <= j < |a| => (a[j] + b[j]) / 2.0))
  }

  /**
   * The mean does not depend on which power comes first, so neither does
   * the Avg entry on the order of the two polarizations; each element lies
   * between the two powers' elements, and the mean of a power with itself
   * is that power.
   */
  lemma PairMeanMeaning(a: seq<real>, b: seq<real>)
    ensures PairMean(a, b) == PairMean(b, a)
    ensures PairMean(a, a) == Ok(a)
    ensures PairMean(a, b).Ok? ==> forall j :: 0 <= j < |a| ==>
      (a[j] <= b[j] ==> a[j] <= PairMean(a, b).value[j] <= b[j]) &&
      (b[j] <= a[j] ==> b[j] <= PairMean(a, b).value[j] <= a[j])
  {
    if |a| == |b| {
      assert PairMean(a, b).value == PairMean(b, a).value;
    }
    assert PairMean(a, a).value == a;
  }

  /** The Avg entry of the first two polarizations, when both have a power. */
  function WithAverage(m: PolMap, mode: string, pols: seq<string>): Result<PolMap>
  {
    if |pols| > 1 then
      var key1 :- DcrCalibrate.PolKey(pols[0]);
      var key2 :- DcrCalibrate.PolKey(pols[1]);
      if (mode, key1) in m && (mode, key2) in m then
        var avg :- PairMean(m[(mode, key1)], m[(mode, key2)]);
        Ok(m[(mode, "Avg") := avg])
      else Ok(m)
    else Ok(m)
  }

  /** calibrateDefaultDcrPolarizations with a given per-polarization calibration. */
  function DefaultPolsWith(rows: seq<DataRow>, power: string -> Result<Option<seq<real>>>): Result<PolMap>
  {
    var m :- PolPowers(power, Mode(rows), TablePols(rows), map[]);
    WithAverage(m, Mode(rows), TablePols(rows))
  }

  /** Both of the first two polarizations have a key and a stored power. */
  predicate AvgPair(m: PolMap, mode: string, pols: seq<string>)
  {
    |pols| > 1 && DcrCalibrate.PolKey(pols[0]).Ok? && DcrCalibrate.PolKey(pols[1]).Ok? &&
    (mode, DcrCalibrate.PolKey(pols[0]).value) in m && (mode, DcrCalibrate.PolKey(pols[1]).value) in m
  }

  /**
   * Every key of the result carries the table's mode and is XL, YR or Avg;
   * Avg is present exactly when the first two polarizations both have a
   * power, and is then their elementwise mean (ValueError when their lengths
   * differ); every other entry is the loop's.
   */
  lemma DefaultPolsResult(rows: seq<DataRow>, power: string -> Result<Option<seq<real>>>)
    ensures var mode, pols := Mode(rows), TablePols(rows);
      var m, r := PolPowers(power, mode, pols, map[]), DefaultPolsWith(rows, power);
      (m.Err? ==> r == Err(m.error)) &&
      (r.Ok? ==> forall k :: k in r.value ==> k.0 == mode && (k.1 == "XL" || k.1 == "YR" || k.1 == "Avg")) &&
      (m.Ok? ==>
        (!AvgPair(m.value, mode, pols) ==> r == m) &&
        (AvgPair(m.value, mode, pols) ==>
          var a := m.value[(mode, DcrCalibrate.PolKey(pols[0]).value)];
          var b := m.value[(mode, DcrCalibrate.PolKey(pols[1]).value)];
          (r.Err? <==> |a| != |b|) &&
          (r.Err? ==> r.error == ValueError(InterOps.BroadcastMsg())) &&
          (r.Ok? ==>
            (mode, "Avg") in r.value && |r.value[(mode, "Avg")]| == |a| &&
            (forall j :: 0 <= j < |a| ==> r.value[(mode, "Avg")][j] == (a[j] + b[j]) / 2.0) &&
            forall k :: k != (mode, "Avg") ==> (k in r.value <==> k in m.value) && (k in m.value ==> r.value[k] == m.value[k]))))
  {
    var mode, pols := Mode(rows), TablePols(rows);
    var m := PolPowers(power, mode, pols, map[]);
    PolPowersErrors(power, mode, pols, map[]);
    if m.Ok? {
      assert |pols| > 1 ==> Clean(power, pols[0]) && Clean(power, pols[1]);
      PolPowersModeKeys(power, mode, pols);
      WithAverageMeaning(m.value, mode, pols);
    }
  }

  /** The loop's keys carry the mode and are XL or YR. */
  lemma PolPowersModeKeys(power: string -> Result<Option<seq<real>>>, mode: string, pols: seq<string>)
    ensures var m := PolPowers(power, mode, pols, map[]);
      m.Ok? ==> forall k :: k in m.value ==> k.0 == mode && (k.1 == "XL" || k.1 == "YR")
  {
    var m := PolPowers(power, mode, pols, map[]);
    PolPowersKeys(power, mode, pols, map[]);
    if m.Ok? {
      forall k | k in m.value
        ensures k.0 == mode && (k.1 == "XL" || k.1 == "YR")
      {
        var i :| 0 <= i < |pols| && k.0 == mode && DcrCalibrate.PolKey(pols[i]) == Ok(k.1) && Powered(power, pols[i]);
      }
    }
  }

  /**
   * Adding the average changes nothing unless both of the first two
   * polarizations have a power; it then stores their elementwise mean under
   * Avg, or fails when their lengths differ.
   */
  lemma WithAverageMeaning(m: PolMap, mode: string, pols: seq<string>)
    requires |pols| > 1 ==> DcrCalibrate.PolKey(pols[0]).Ok? && DcrCalibrate.PolKey(pols[1]).Ok?
    ensures var r := WithAverage(m, mode, pols);
      (!AvgPair(m, mode, pols) ==> r == Ok(m)) &&
      (AvgPair(m, mode, pols) ==>
        var a := m[(mode, DcrCalibrate.PolKey(pols[0]).value)];
        var b := m[(mode, DcrCalibrate.PolKey(pols[1]).value)];
        (r.Err? <==> |a| != |b|) &&
        (r.Err? ==> r.error == ValueError(InterOps.BroadcastMsg())) &&
        (r.Ok? ==> r.value == m[(mode, "Avg") := seq(|a|, j requires 0 <= j < |a| => (a[j] + b[j]) / 2.0)]))
  {
  }

  /**
   * calibrateDefaultDcrPolarizations on the consolidated table (None when the
   * scan has no IF rows, which the POLARIZE lookup rejects).
   */
  function DefaultPolsSpec(data: Option<seq<DataRow>>, tcal: TcalLookup, trackBeam: Option<int>): Result<PolMap>
  {
    match data
    case None => Err(TypeError)
    case Some(rows) => DefaultPolsWith(rows, PolStep(rows, tcal, trackBeam))
  }

  method CalibrateDefaultDcrPolarizations(data: Option<seq<DataRow>>, rcvrCal: seq<Decode.CalRow>, trackBeam: Option<int>)
    returns (r: Result<PolMap>)
    ensures r == DefaultPolsSpec(data, RcvrTcal(rcvrCal), trackBeam)
  {
    if data.None? {
      return Err(TypeError);
    }
    var rows := data.value;
    var pols := TablePols(rows);
    var mode := Mode(rows);
    var dataMap := CalibratePols(rows, rcvrCal, trackBeam, mode, pols);
    if dataMap.Err? {
      return Err(dataMap.error);
    }
    r := AddAverage(dataMap.value, mode, pols);
  }

  /** The loop over the polarizations: each one's power goes under its (mode, key). */
  method CalibratePols(rows: seq<DataRow>, rcvrCal: seq<Decode.CalRow>, trackBeam: Option<int>, mode: string,
                       pols: seq<string>)
    returns (r: Result<PolMap>)
    ensures r == PolPowers(PolStep(rows, RcvrTcal(rcvrCal), trackBeam), mode, pols, map[])
  {
    var step := PolStep(rows, RcvrTcal(rcvrCal), trackBeam);
    var dataMap: PolMap := map[];
    var i := 0;
    while i < |pols|
      invariant 0 <= i <= |pols|
      invariant PolPowers(step, mode, pols, map[]) == PolPowers(step, mode, pols[i..], dataMap)
    {
      PolPowersStep(step, mode, pols, i, dataMap);
      var polKey := DcrCalibrate.PolKey(pols[i]);
      if polKey.Err? {
        return Err(polKey.error);
      }
      var power := CalibrateMultiFeed(rows, pols[i], rcvrCal, trackBeam);
      assert power == step(pols[i]);
      if power.Err? {
        return Err(power.error);
      }
      if power.value.Some? {
        dataMap := dataMap[(mode, polKey.value) := power.value.value];
      }
      i := i + 1;
    }
    assert pols[i..] == [];
    r := Ok(dataMap);
  }

  /** The Avg entry: the mean of the first two polarizations' powers when both are stored. */
  method AddAverage(dataMap: PolMap, mode: string, pols: seq<string>) returns (r: Result<PolMap>)
    ensures r == WithAverage(dataMap, mode, pols)
  {
    r := Ok(dataMap);
    if |pols| > 1 {
      var key1 := DcrCalibrate.PolKey(pols[0]);
      var key2 := DcrCalibrate.PolKey(pols[1]);
      if key1.Err? {
        return Err(key1.error);
      }
      if key2.Err? {
        return Err(key2.error);
      }
      if (mode, key1.value) in dataMap && (mode, key2.value) in dataMap {
        var avg := PairMean(dataMap[(mode, key1.value)], dataMap[(mode, key2.value)]);
        if avg.Err? {
          return Err(avg.error);
        }
        r := Ok(dataMap[(mode, "Avg") := avg.value]);
      }
    }
  }
}
