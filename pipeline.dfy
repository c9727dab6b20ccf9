// The three-stage pipeline of Calibrator.calibrate.  The first stage turns
// the raw table into a cal table of one converted series per (FEED,
// POLARIZE) (attenuate), or keeps the cal-off rows as they are
// (dontAttenuate).  The second turns the cal table into a feed table of one
// series per FEED (inter-pol averaging, or selection of one polarization).
// The third turns the feed table into the result (beam subtraction, or
// selection of one feed).  The functions are the specification; the class
// Calibrator at the end runs the same stages with the source's loops.

module Pipeline {
  import opened Wrappers
  import opened RealSeq
  import opened Ordering
  import opened DcrTable
  import opened Decode
  import opened Converter
  import opened Attenuation
  import opened InterOps
  import opened Calibrators

  /** The stage switches the calibrator is constructed with. */
  datatype Flags = Flags(attenuation: bool, interPol: bool, interBeam: bool)

  // ---- attenuate ----

  /** A (FEED, POLARIZE) pair of getUnique(['FEED', 'POLARIZE']). */
  datatype FeedPol = FeedPol(feed: int, pol: string)

  /** numpy's order on the pairs: by feed, then by polarization. */
  function FeedPolLess(a: FeedPol, b: FeedPol): bool
  {
    if a.feed != b.feed then a.feed < b.feed else StrLess(a.pol, b.pol)
  }

  lemma FeedPolLessIsStrictTotal()
    ensures StrictTotalOrder(FeedPolLess)
  {
    StrLessIsStrictTotal();
  }

  function FeedPolOf(x: DcrRow): FeedPol
  {
    FeedPol(x.feed, x.polarize)
  }

  function FeedPolsOf(rows: seq<DcrRow>): (r: seq<FeedPol>)
    ensures |r| == |rows| && forall i :: 0 <= i < |r| ==> r[i] == FeedPolOf(rows[i])
  {
    seq(|rows|, i requires 0 <= i < |rows| => FeedPolOf(rows[i]))
  }

  /** getUnique(['FEED', 'POLARIZE']) */
  function FeedPols(rows: seq<DcrRow>): seq<FeedPol>
  {
    SortedUnique(FeedPolsOf(rows), FeedPolLess)
  }

  /** The pairs are sorted, and they are exactly the pairs that occur in the rows. */
  lemma FeedPolsMeaning(rows: seq<DcrRow>)
    ensures StrictlySorted(FeedPols(rows), FeedPolLess)
    ensures forall p :: p in FeedPols(rows) <==> exists i :: 0 <= i < |rows| && FeedPolOf(rows[i]) == p
  {
    FeedPolLessIsStrictTotal();
    SortedUniqueProperties(FeedPolsOf(rows), FeedPolLess);
    assert forall i :: 0 <= i < |rows| ==> FeedPolsOf(rows)[i] in FeedPolsOf(rows);
  }

  /** table.query(FEED=feed, POLARIZE=pol) */
  function PairTable(t: DcrTable, p: FeedPol): DcrTable
  {
    t.(rows := Filter(t.rows, (x: DcrRow) => FeedPolOf(x) == p))
  }

  /**
   * One iteration of attenuate's loop: the pair's rows, the FACTOR of the
   * first of them, and the attenuator applied to them.
   */
  function AttenuatePair(t: DcrTable, conv: AttenuatorKind, p: FeedPol): Result<CalTableRow>
  {
    var q := PairTable(t, p);
    if |q.rows| == 0 then Err(IndexError)
    else
      var power :- Attenuation.Attenuate(conv, q);
      Ok(CalTableRow(p.feed, p.pol, q.rows[0].factor, power))
  }

  function AttenuateStep(t: DcrTable, conv: AttenuatorKind): FeedPol -> Result<CalTableRow>
  {
    p => AttenuatePair(t, conv, p)
  }

  /**
   * attenuate after findCalFactors: initCalTable reads the first row of
   * the table (IndexError on an empty one), then each pair adds one row.
   */
  function AttenuateRows(c: CalibratorClass, t: DcrTable): Result<seq<CalTableRow>>
  {
    if |t.rows| == 0 then Err(IndexError)
    else
      var conv :- AttenuatorOf(c);
      Collect(AttenuateStep(t, conv), FeedPols(t.rows), [])
  }

  /**
   * The cal table has one row per (FEED, POLARIZE) pair of the table, in
   * sorted order, each the pair's own conversion; it fails exactly when the
   * table is empty or some pair fails.
   */
  lemma AttenuateRowsMeaning(c: CalibratorClass, t: DcrTable)
    requires AttenuatorOf(c).Ok?
    ensures var pairs, conv := FeedPols(t.rows), AttenuatorOf(c).value;
      AttenuateRows(c, t).Ok? <==>
        |t.rows| > 0 && forall k :: 0 <= k < |pairs| ==> AttenuatePair(t, conv, pairs[k]).Ok?
    ensures var pairs, conv := FeedPols(t.rows), AttenuatorOf(c).value;
      AttenuateRows(c, t).Ok? ==>
        var r := AttenuateRows(c, t).value;
        |r| == |pairs| && forall k :: 0 <= k < |r| ==> r[k] == AttenuatePair(t, conv, pairs[k]).value
  {
    var conv, pairs := AttenuatorOf(c).value, FeedPols(t.rows);
    var step := AttenuateStep(t, conv);
    CollectAll(step, pairs);
    assert forall k :: 0 <= k < |pairs| ==> step(pairs[k]) == AttenuatePair(t, conv, pairs[k]);
    if |t.rows| > 0 {
      assert AttenuateRows(c, t) == Collect(step, pairs, []);
    }
  }

  /**
   * A pair of the table converts, with the FACTOR of its first row, exactly
   * when the attenuator accepts the pair's rows; the row holds the
   * attenuator's result.
   */
  lemma AttenuatePairMeaning(t: DcrTable, conv: AttenuatorKind, p: FeedPol)
    requires p in FeedPols(t.rows)
    ensures var q := PairTable(t, p);
      |q.rows| > 0 && (AttenuatePair(t, conv, p).Ok? <==> Attenuation.Attenuate(conv, q).Ok?)
    ensures var q := PairTable(t, p);
      AttenuatePair(t, conv, p).Ok? ==>
        AttenuatePair(t, conv, p).value == CalTableRow(p.feed, p.pol, q.rows[0].factor, Attenuation.Attenuate(conv, q).value)
  {
    FeedPolsMeaning(t.rows);
    var i :| 0 <= i < |t.rows| && FeedPolOf(t.rows[i]) == p;
    assert t.rows[i] in PairTable(t, p).rows;
  }

  /** The rows of a cal-table pair: every row of one feed and one polarization. */
  lemma PairTableMeaning(t: DcrTable, p: FeedPol)
    ensures forall x :: x in PairTable(t, p).rows <==> x in t.rows && x.feed == p.feed && x.polarize == p.pol
  {
  }

  // ---- dontAttenuate ----

  /** A table row as a cal-table row: FEED, POLARIZE, FACTOR, DATA. */
  function CalTableRowOf(x: DcrRow): CalTableRow
  {
    CalTableRow(x.feed, x.polarize, x.factor, x.data)
  }

  function CalOffRows(rows: seq<DcrRow>): seq<DcrRow>
  {
    Filter(rows, (x: DcrRow) => x.cal == 0)
  }

  /** dontAttenuate: the CAL=0 rows' FEED, POLARIZE, FACTOR and DATA, unmodified and in order. */
  function DontAttenuateRows(t: DcrTable): (r: seq<CalTableRow>)
  {
    seq(|CalOffRows(t.rows)|, i requires 0 <= i < |CalOffRows(t.rows)| => CalTableRowOf(CalOffRows(t.rows)[i]))
  }

  /** The cal table holds exactly the cal-off rows' four columns, and nothing from a cal-on row. */
  lemma DontAttenuateMeaning(t: DcrTable)
    ensures forall y :: y in DontAttenuateRows(t) <==>
      exists i :: 0 <= i < |t.rows| && t.rows[i].cal == 0 && y == CalTableRowOf(t.rows[i])
    ensures (forall i :: 0 <= i < |t.rows| ==> t.rows[i].cal != 0) ==> DontAttenuateRows(t) == []
  {
    var off := CalOffRows(t.rows);
    var r := DontAttenuateRows(t);
    forall y ensures y in r <==> exists i :: 0 <= i < |t.rows| && t.rows[i].cal == 0 && y == CalTableRowOf(t.rows[i]) {
      if y in r {
        var k :| 0 <= k < |r| && r[k] == y;
        assert off[k] in off;
        var i :| 0 <= i < |t.rows| && t.rows[i] == off[k];
      }
      if exists i :: 0 <= i < |t.rows| && t.rows[i].cal == 0 && y == CalTableRowOf(t.rows[i]) {
        var i :| 0 <= i < |t.rows| && t.rows[i].cal == 0 && y == CalTableRowOf(t.rows[i]);
        assert t.rows[i] in off;
        var k :| 0 <= k < |off| && off[k] == t.rows[i];
        assert r[k] == y;
      }
    }
    if |r| > 0 {
      assert r[0] in r;
    }
  }

  // ---- KaCalibrator.dontAttenuate ----

  function FeedRowsOf(rows: seq<DcrRow>, feed: int): seq<DcrRow>
  {
    Filter(rows, (x: DcrRow) => x.feed == feed)
  }

  function SigRefRows(rows: seq<DcrRow>, sigref: int): seq<DcrRow>
  {
    Filter(rows, (x: DcrRow) => x.sigref == sigref)
  }

  /**
   * One feed of Ka's dontAttenuate: the feed's cal-off SIGREF=0 data minus
   * its SIGREF=1 data, with the POLARIZE and FACTOR of its first cal-off row.
   */
  function KaFeedPower(off: seq<DcrRow>, feed: int): Result<CalTableRow>
  {
    var f := FeedRowsOf(off, feed);
    var sig := SigRefRows(f, 0);
    var ref := SigRefRows(f, 1);
    if |f| == 0 then Err(IndexError)
    else if |sig| != 1 || |ref| != 1 || |sig[0].data| != |ref[0].data| then Err(ValueError(BroadcastMsg()))
    else Ok(CalTableRow(feed, f[0].polarize, f[0].factor, Sub(sig[0].data, ref[0].data)))
  }

  function KaFeedStep(off: seq<DcrRow>): int -> Result<CalTableRow>
  {
    feed => KaFeedPower(off, feed)
  }

  /** KaCalibrator.dontAttenuate: initCalTable, then one row per feed of the cal-off rows. */
  function KaDontAttenuateRows(t: DcrTable): Result<seq<CalTableRow>>
  {
    if |t.rows| == 0 then Err(IndexError)
    else
      var off := CalOffRows(t.rows);
      Collect(KaFeedStep(off), UniqueFeeds(t.(rows := off)), [])
  }

  /**
   * The row Ka's dontAttenuate gives a feed: the feed has exactly one
   * cal-off row at SIGREF 0 and one at SIGREF 1, and the row holds the
   * first's data minus the second's.
   */
  predicate KaRow(off: seq<DcrRow>, feed: int, row: CalTableRow)
  {
    var sig := SigRefRows(FeedRowsOf(off, feed), 0);
    var ref := SigRefRows(FeedRowsOf(off, feed), 1);
    row.feed == feed && |sig| == 1 && |ref| == 1 && sig[0].cal == 0 && ref[0].cal == 0 &&
    sig[0].feed == feed && ref[0].feed == feed &&
    |row.data| == |sig[0].data| == |ref[0].data| &&
    forall j :: 0 <= j < |row.data| ==> row.data[j] == sig[0].data[j] - ref[0].data[j]
  }

  /**
   * Ka without attenuation: one row per feed that has a cal-off row, in
   * increasing feed order, holding that feed's signal-minus-reference
   * cal-off data; it fails unless each feed has one such row of each.
   */
  lemma KaDontAttenuateMeaning(t: DcrTable)
    ensures KaDontAttenuateRows(t).Ok? ==>
      var off := CalOffRows(t.rows);
      var feeds := UniqueFeeds(t.(rows := off));
      var r := KaDontAttenuateRows(t).value;
      |r| == |feeds| && forall k :: 0 <= k < |r| ==> KaRow(off, feeds[k], r[k])
  {
    if |t.rows| > 0 {
      var off := CalOffRows(t.rows);
      var feeds := UniqueFeeds(t.(rows := off));
      CollectAll(KaFeedStep(off), feeds);
      if KaDontAttenuateRows(t).Ok? {
        var r := KaDontAttenuateRows(t).value;
        forall k | 0 <= k < |r|
          ensures KaRow(off, feeds[k], r[k])
        {
          assert KaFeedStep(off)(feeds[k]).Ok? && r[k] == KaFeedStep(off)(feeds[k]).value;
          KaFeedPowerMeaning(t.rows, feeds[k]);
        }
      }
    }
  }

  /** A feed's row, when there is one, is the row KaRow describes. */
  lemma KaFeedPowerMeaning(rows: seq<DcrRow>, feed: int)
    ensures var off := CalOffRows(rows);
      KaFeedPower(off, feed).Ok? ==> KaRow(off, feed, KaFeedPower(off, feed).value)
  {
    var off := CalOffRows(rows);
    var f := FeedRowsOf(off, feed);
    var sig := SigRefRows(f, 0);
    var ref := SigRefRows(f, 1);
    if KaFeedPower(off, feed).Ok? {
      assert sig[0] in sig && ref[0] in ref;
    }
  }

  // ---- KaCalibrator.getSigFeedTa and attenuate ----

  function OneRowEachMsg(): string { "expected one row each" }
  function SameTcalMsg(): string { "tCal should be identical" }

  /** The track feed's rows at one SIGREF and one CAL. */
  function TrackRows(t: DcrTable, sigref: int, cal: int): seq<DcrRow>
  {
    Filter(t.rows, (x: DcrRow) => x.feed == t.trackBeam && x.sigref == sigref && x.cal == cal)
  }

  /**
   * getSigFeedTa: the antenna temperature of the track feed at one SIGREF,
   * from its single cal-on and single cal-off row, which must agree on FACTOR.
   */
  function SigFeedTa(t: DcrTable, sigref: int, tcal: real): Result<seq<real>>
  {
    var off := TrackRows(t, sigref, 0);
    var on := TrackRows(t, sigref, 1);
    if |off| != 1 || |on| != 1 then Err(ValueError(OneRowEachMsg()))
    else if off[0].factor != on[0].factor then Err(ValueError(SameTcalMsg()))
    else AntennaTemperature(on[0].data, off[0].data, tcal)
  }

  /**
   * The temperature exists only with one cal-on and one cal-off row of the
   * track feed at that SIGREF sharing FACTOR; it is then the diode formula
   * applied to those two rows with the given Tcal.
   */
  lemma SigFeedTaMeaning(t: DcrTable, sigref: int, tcal: real)
    ensures SigFeedTa(t, sigref, tcal).Ok? ==>
      var off, on := TrackRows(t, sigref, 0), TrackRows(t, sigref, 1);
      |off| == 1 && |on| == 1 && off[0].factor == on[0].factor &&
      off[0].feed == t.trackBeam && on[0].feed == t.trackBeam &&
      off[0].sigref == sigref && on[0].sigref == sigref && off[0].cal == 0 && on[0].cal == 1 &&
      SigFeedTa(t, sigref, tcal) == AntennaTemperature(on[0].data, off[0].data, tcal)
    ensures |TrackRows(t, sigref, 0)| != 1 || |TrackRows(t, sigref, 1)| != 1 ==>
      SigFeedTa(t, sigref, tcal) == Err(ValueError(OneRowEachMsg()))
  {
    var off, on := TrackRows(t, sigref, 0), TrackRows(t, sigref, 1);
    if |off| == 1 && |on| == 1 {
      assert off[0] in off && on[0] in on;
    }
  }

  /**
   * KaCalibrator.attenuate after findCalFactors: two cal-table rows, the
   * signal feed's and the reference feed's, both temperatures taken from the
   * track feed (SIGREF 0 and 1), with the Tcal of each feed's first row.
   */
  function KaAttenuateRows(t: DcrTable): Result<seq<CalTableRow>>
  {
    if |t.rows| == 0 then Err(IndexError)
    else
      var (sig, ref) :- GetSigAndRefFeeds(t);
      var sigRows, refRows := FeedRowsOf(t.rows, sig), FeedRowsOf(t.rows, ref);
      if |sigRows| == 0 || |refRows| == 0 then Err(IndexError)
      else
        var sigTa :- SigFeedTa(t, 0, sigRows[0].factor);
        var refTa :- SigFeedTa(t, 1, refRows[0].factor);
        Ok([CalTableRow(sig, sigRows[0].polarize, sigRows[0].factor, sigTa),
            CalTableRow(ref, refRows[0].polarize, refRows[0].factor, refTa)])
  }

  /**
   * Ka attenuation gives the signal feed's row then the reference feed's:
   * the SIGREF 0 temperature with the signal feed's Tcal and the SIGREF 1
   * temperature with the reference feed's Tcal; fewer than two feeds fail
   * with getSigAndRefFeeds' ValueError.
   */
  lemma KaAttenuateMeaning(t: DcrTable)
    ensures KaAttenuateRows(t).Ok? ==>
      var (sig, ref) := GetSigAndRefFeeds(t).value;
      var r := KaAttenuateRows(t).value;
      GetSigAndRefFeeds(t).Ok? && sig != ref && |r| == 2 &&
      r[0].feed == sig && r[1].feed == ref &&
      r[0].factor == FeedRowsOf(t.rows, sig)[0].factor && r[1].factor == FeedRowsOf(t.rows, ref)[0].factor &&
      SigFeedTa(t, 0, r[0].factor) == Ok(r[0].data) && SigFeedTa(t, 1, r[1].factor) == Ok(r[1].data)
    ensures |t.rows| > 0 && |UniqueFeeds(t)| < 2 ==>
      KaAttenuateRows(t).Err? && KaAttenuateRows(t).error.ValueError?
  {
    SigAndRefFeedsMeaning(t);
  }

  // ---- the first stage ----

  /**
   * attenuate: findCalFactors writes FACTOR into the table (its error stops
   * the stage, keeping what it wrote), then the class's conversion.
   */
  function AttenuateSpec(c: CalibratorClass, t: DcrTable, inputs: Inputs, scanNum: int): (DcrTable, Result<seq<CalTableRow>>)
  {
    var (rows, err) := FindCalFactorsSpec(c, t.rows, inputs, scanNum);
    var t' := t.(rows := rows);
    if err.Some? then (t', Err(err.value))
    else if c == KaCalibrator then (t', KaAttenuateRows(t'))
    else (t', AttenuateRows(c, t'))
  }

  /** dontAttenuate, overridden by Ka. */
  function DontAttenuateSpec(c: CalibratorClass, t: DcrTable): Result<seq<CalTableRow>>
  {
    if c == KaCalibrator then KaDontAttenuateRows(t) else Ok(DontAttenuateRows(t))
  }

  // ---- the second stage ----

  /** calTable[mask] for a condition on the cal-table rows, in order. */
  function SelectRows(cal: seq<CalTableRow>, keep: CalTableRow -> bool): (r: seq<CalTableRow>)
    ensures |r| <= |cal|
    ensures forall y :: y in r <==> y in cal && keep(y)
  {
    if |cal| == 0 then []
    else
      var rest := SelectRows(cal[1..], keep);
      assert forall y :: y in cal <==> y == cal[0] || y in cal[1..];
      if keep(cal[0]) then [cal[0]] + rest else rest
  }

  /** initFeedTable: numpy.unique of the cal table's FEED column. */
  function CalFeeds(cal: seq<CalTableRow>): seq<int>
  {
    SortedUnique(CalFeedColumn(cal), IntLess)
  }

  function CalFeedColumn(cal: seq<CalTableRow>): (r: seq<int>)
    ensures |r| == |cal| && forall i :: 0 <= i < |cal| ==> r[i] == cal[i].feed
  {
    seq(|cal|, i requires 0 <= i < |cal| => cal[i].feed)
  }

  lemma CalFeedsMeaning(cal: seq<CalTableRow>)
    ensures StrictlySorted(CalFeeds(cal), IntLess)
    ensures forall f :: f in CalFeeds(cal) <==> exists i :: 0 <= i < |cal| && cal[i].feed == f
  {
    var fs := CalFeedColumn(cal);
    BasicOrders();
    SortedUniqueProperties(fs, IntLess);
    assert forall i :: 0 <= i < |cal| ==> fs[i] in fs;
  }

  /**
   * row['DATA'] = column: assigning a one-row selection's DATA to a feed
   * row; any other number of rows cannot be broadcast into it.
   */
  function Single(rows: seq<CalTableRow>): (r: Result<seq<real>>)
    ensures r.Ok? <==> |rows| == 1
    ensures r.Ok? ==> r.value == rows[0].data
    ensures r.Err? ==> r.error == ValueError(BroadcastMsg())
  {
    if |rows| != 1 then Err(ValueError(BroadcastMsg())) else Ok(rows[0].data)
  }

  /**
   * What the second stage stores for each feed: the inter-pol calibrator's
   * result over the feed's rows, the feed's row of one polarization
   * (dontInterPolCalibrate), or the feed's only row (Ka's override).
   */
  datatype PolStep = AveragePols(kind: InterPolKind) | SelectPol(pol: string) | SelectFeed

  /** calTable['FEED'] == feed */
  function OfFeed(cal: seq<CalTableRow>, feed: int): seq<CalTableRow>
  {
    SelectRows(cal, (y: CalTableRow) => y.feed == feed)
  }

  /** calTable.query(POLARIZE=pol, FEED=feed) */
  function OfPolAndFeed(cal: seq<CalTableRow>, pol: string, feed: int): seq<CalTableRow>
  {
    SelectRows(cal, (y: CalTableRow) => y.polarize == pol && y.feed == feed)
  }

  function FeedValue(cal: seq<CalTableRow>, step: PolStep, feed: int): (r: Result<FeedRow>)
    ensures r.Ok? ==> r.value.feed == feed
  {
    var data :- match step
      case AveragePols(k) => InterPolCalibrate(k, OfFeed(cal, feed))
      case SelectPol(pol) => Single(OfPolAndFeed(cal, pol, feed))
      case SelectFeed => Single(OfFeed(cal, feed));
    Ok(FeedRow(feed, data))
  }

  function FeedStep(cal: seq<CalTableRow>, step: PolStep): int -> Result<FeedRow>
  {
    feed => FeedValue(cal, step, feed)
  }

  /** The loop over the feed table's rows. */
  function FillFeeds(cal: seq<CalTableRow>, step: PolStep): Result<seq<FeedRow>>
  {
    Collect(FeedStep(cal, step), CalFeeds(cal), [])
  }

  /**
   * The feed table has one row per feed of the cal table, in increasing
   * order, each holding what the step gives for that feed; it fails exactly
   * when the step fails for some feed.
   */
  lemma FillFeedsMeaning(cal: seq<CalTableRow>, step: PolStep)
    ensures FillFeeds(cal, step).Ok? <==> forall k :: 0 <= k < |CalFeeds(cal)| ==> FeedValue(cal, step, CalFeeds(cal)[k]).Ok?
    ensures FillFeeds(cal, step).Ok? ==>
      var feeds, r := CalFeeds(cal), FillFeeds(cal, step).value;
      |r| == |feeds| && forall k :: 0 <= k < |r| ==> r[k] == FeedValue(cal, step, feeds[k]).value && r[k].feed == feeds[k]
  {
    var feeds, f := CalFeeds(cal), FeedStep(cal, step);
    CollectAll(f, feeds);
    assert forall k :: 0 <= k < |feeds| ==> f(feeds[k]) == FeedValue(cal, step, feeds[k]);
  }

  /** interPolCalibrate or dontInterPolCalibrate; the debug line of the former reads the class attribute first. */
  function InterPolStage(c: CalibratorClass, cal: seq<CalTableRow>, pol: string, perform: bool): Result<seq<FeedRow>>
  {
    if perform then
      var k :- InterPolOf(c);
      FillFeeds(cal, AveragePols(k))
    else if c == KaCalibrator then FillFeeds(cal, SelectFeed)
    else FillFeeds(cal, SelectPol(pol))
  }

  // ---- the third stage ----

  /**
   * interBeamCalibrate as written: it passes three arguments to a
   * two-argument calibrate, so once the class attribute exists it raises
   * TypeError whatever the tables hold.
   */
  function InterBeamAsWritten(c: CalibratorClass, t: DcrTable, feedTable: seq<FeedRow>): Result<seq<real>>
  {
    var k :- InterBeamOf(c);
    Err(TypeError)
  }

  /** No table lets the inter-beam stage as written produce data. */
  lemma InterBeamAsWrittenFails(c: CalibratorClass, t: DcrTable, feedTable: seq<FeedRow>)
    ensures InterBeamAsWritten(c, t, feedTable).Err?
    ensures c != CalibratorBase ==> InterBeamAsWritten(c, t, feedTable) == Err(TypeError)
  {
  }

  /**
   * The third stage: the inter-beam calibrator applied to the raw table and
   * the feed table (the call the stage intends), or the feed table's row of
   * the feed getFeedForPol selects.
   */
  function InterBeamStage(c: CalibratorClass, t: DcrTable, feedTable: seq<FeedRow>, pol: string, perform: bool): Result<seq<real>>
  {
    if perform then
      var k :- InterBeamOf(c);
      InterBeamCalibrate(k, t, feedTable)
    else
      var feed :- FeedForPol(t, pol);
      FeedData(feedTable, feed)
  }

  // ---- calibrate ----

  /** The second and third stages and the final debug line, which reads data[0] and data[-1]. */
  function Finish(c: CalibratorClass, t: DcrTable, cal: seq<CalTableRow>, flags: Flags, pol: string): Result<seq<real>>
  {
    var feedTable :- InterPolStage(c, cal, pol, flags.interPol);
    var data :- InterBeamStage(c, t, feedTable, pol, flags.interBeam);
    if |data| == 0 then Err(IndexError) else Ok(data)
  }

  /**
   * calibrate: the table it leaves (findCalFactors writes FACTOR) and its
   * result.
   */
  function CalibrateSpec(c: CalibratorClass, t: DcrTable, flags: Flags, inputs: Inputs, scanNum: int, pol: string): (DcrTable, Result<seq<real>>)
  {
    var (t', cal) := if flags.attenuation then AttenuateSpec(c, t, inputs, scanNum) else (t, DontAttenuateSpec(c, t));
    if cal.Err? then (t', Err(cal.error)) else (t', Finish(c, t', cal.value, flags, pol))
  }

  // ---- what the pipeline computes ----

  /** A feed's row of a successfully filled feed table holds what the step gives for that feed. */
  lemma FeedTableData(cal: seq<CalTableRow>, step: PolStep, feed: int)
    requires FillFeeds(cal, step).Ok? && FeedData(FillFeeds(cal, step).value, feed).Ok?
    ensures FeedValue(cal, step, feed).Ok?
    ensures FeedData(FillFeeds(cal, step).value, feed).value == FeedValue(cal, step, feed).value.data
  {
    var ft := FillFeeds(cal, step).value;
    FillFeedsMeaning(cal, step);
    var k :| 0 <= k < |ft| && ft[k].feed == feed && ft[k].data == FeedData(ft, feed).value;
    assert CalFeeds(cal)[k] == feed;
  }

  /**
   * Without any stage (calMode Raw, one polarization) a non-Ka calibrator
   * leaves the table as it is and returns the DATA of a cal-off row of the
   * requested polarization on the feed getFeedForPol selects.
   */
  lemma RawSelectsCalOff(c: CalibratorClass, t: DcrTable, inputs: Inputs, scanNum: int, pol: string)
    requires c != KaCalibrator
    ensures CalibrateSpec(c, t, Flags(false, false, false), inputs, scanNum, pol).0 == t
    ensures var r := CalibrateSpec(c, t, Flags(false, false, false), inputs, scanNum, pol).1;
      r.Ok? ==>
        FeedForPol(t, pol).Ok? && |r.value| > 0 &&
        exists i :: 0 <= i < |t.rows| && t.rows[i].cal == 0 && t.rows[i].polarize == pol &&
          t.rows[i].feed == FeedForPol(t, pol).value && t.rows[i].data == r.value
  {
    var cal := DontAttenuateRows(t);
    var r := CalibrateSpec(c, t, Flags(false, false, false), inputs, scanNum, pol).1;
    if r.Ok? {
      var feed := FeedForPol(t, pol).value;
      FeedTableData(cal, SelectPol(pol), feed);
      var sel := OfPolAndFeed(cal, pol, feed);
      assert sel[0] in sel;
      DontAttenuateMeaning(t);
      var i :| 0 <= i < |t.rows| && t.rows[i].cal == 0 && sel[0] == CalTableRowOf(t.rows[i]);
    }
  }

  /** An inter-pol average is the mean of the two rows, sample by sample. */
  lemma AverageIsMean(rows: seq<CalTableRow>)
    requires Average(rows).Ok?
    ensures |rows| == 2 && |Average(rows).value| == |rows[0].data| == |rows[1].data|
    ensures forall j :: 0 <= j < |Average(rows).value| ==>
      Average(rows).value[j] == (rows[0].data[j] + rows[1].data[j]) / 2.0
  {
    AverageMeaning(rows);
  }

  /**
   * With both the inter-pol and the inter-beam stage, polarizations are
   * averaged before beams are subtracted: each sample is the signal feed's
   * two-polarization mean minus the reference feed's.
   */
  lemma InterPolThenInterBeam(c: CalibratorClass, t: DcrTable, cal: seq<CalTableRow>, flags: Flags, pol: string)
    requires flags.interPol && flags.interBeam
    ensures Finish(c, t, cal, flags, pol).Ok? ==>
      var d := Finish(c, t, cal, flags, pol).value;
      var (sig, ref) := GetSigAndRefFeeds(t).value;
      var s, q := OfFeed(cal, sig), OfFeed(cal, ref);
      GetSigAndRefFeeds(t).Ok? && |s| == 2 && |q| == 2 &&
      |d| == |s[0].data| == |s[1].data| == |q[0].data| == |q[1].data| &&
      forall j :: 0 <= j < |d| ==> d[j] == (s[0].data[j] + s[1].data[j]) / 2.0 - (q[0].data[j] + q[1].data[j]) / 2.0
  {
    if Finish(c, t, cal, flags, pol).Ok? {
      var k := InterPolOf(c).value;
      var ft := FillFeeds(cal, AveragePols(k)).value;
      var (sig, ref) := GetSigAndRefFeeds(t).value;
      BeamSubtractionMeaning(t, ft);
      FeedTableData(cal, AveragePols(k), sig);
      FeedTableData(cal, AveragePols(k), ref);
      AverageIsMean(OfFeed(cal, sig));
      AverageIsMean(OfFeed(cal, ref));
    }
  }

  /**
   * The base Calibrator defines no stage: asking for any of the three makes
   * calibrate fail (findCalFactors raises NotImplementedError, and the
   * inter-pol and inter-beam stages find no class attribute).
   */
  lemma BaseHasNoStages(t: DcrTable, inputs: Inputs, scanNum: int, pol: string, flags: Flags)
    requires flags.attenuation || flags.interPol || flags.interBeam
    ensures CalibrateSpec(CalibratorBase, t, flags, inputs, scanNum, pol).1.Err?
  {
  }

  // ---- the class ----

  /**
   * A calibrator object: its class, its copy of the table, the scan number,
   * the stage switches and what its lookups read (receiver calibration
   * table, scan log, gains).  Only the table changes: findCalFactors writes
   * its FACTOR column.
   */
  class Calibrator {
    const kind: CalibratorClass
    const scanNum: int
    const flags: Flags
    const inputs: Inputs
    var table: DcrTable

    /** __init__: a copy of the table with FACTOR = 1.0 in every row. */
    constructor (kind: CalibratorClass, t: DcrTable, scanNum: int, flags: Flags, inputs: Inputs)
      requires !t.hasFactor
      ensures this.kind == kind && this.scanNum == scanNum && this.flags == flags && this.inputs == inputs
      ensures table == WithUnitFactors(t)
    {
      this.kind := kind;
      this.scanNum := scanNum;
      this.flags := flags;
      this.inputs := inputs;
      table := WithUnitFactors(t);
    }

    /** Traditional findCalFactors: table['FACTOR'][mask] = tCal, grouping by grouping. */
    method StoreTcals() returns (err: Option<Error>)
      modifies this
      ensures (table.rows, err) == TraditionalFactors(old(table.rows), TcalOf(old(table.rows), inputs.rcvrCal))
      ensures table == old(table).(rows := table.rows)
    {
      var rows := table.rows;
      var tcal := TcalOf(rows, inputs.rcvrCal);
      var gs := Groups(rows);
      var cur := rows;
      var i := 0;
      while i < |gs|
        invariant 0 <= i <= |gs|
        invariant ApplyGroups(gs, tcal, rows) == ApplyGroups(gs[i..], tcal, cur)
      {
        assert gs[i..][1..] == gs[i + 1..];
        var v := tcal(gs[i]);
        if v.Err? {
          table := table.(rows := cur);
          return Some(v.error);
        }
        cur := SetFactor(cur, gs[i], v.value);
        i := i + 1;
      }
      table := table.(rows := cur);
      return None;
    }

    /** CalSeq findCalFactors with gains: row['FACTOR'] = gains[str(FEED) + POLARIZE], row by row. */
    method StoreGains(gains: map<string, real>) returns (err: Option<Error>)
      modifies this
      ensures (table.rows, err) == GainFactors(old(table.rows), gains)
      ensures table == old(table).(rows := table.rows)
    {
      var rows := table.rows;
      ghost var k := FirstMissing(rows, gains);
      var cur := rows;
      var i := 0;
      while i < |rows|
        invariant 0 <= i <= k && |cur| == |rows|
        invariant forall j :: 0 <= j < |rows| ==> cur[j] == if j < i then Gained(rows[j], gains) else rows[j]
      {
        var key := GainKey(rows[i]);
        if key !in gains {
          GainedUpToMissing(rows, gains, cur, i);
          table := table.(rows := cur);
          return Some(KeyError);
        }
        assert i < k;
        cur := cur[i := rows[i].(factor := gains[key])];
        i := i + 1;
      }
      GainedUpToMissing(rows, gains, cur, i);
      table := table.(rows := cur);
      return None;
    }

    /** findCalFactors of the object's class. */
    method FindCalFactors() returns (err: Option<Error>)
      modifies this
      ensures (table.rows, err) == FindCalFactorsSpec(kind, old(table.rows), inputs, scanNum)
      ensures table == old(table).(rows := table.rows)
    {
      if kind == CalibratorBase {
        err := Some(NotImplemented);
      } else if kind == TraditionalCalibrator || kind == KaCalibrator {
        err := StoreTcals();
      } else {
        var gains := GetGains(kind, inputs, scanNum);
        if gains.Err? {
          err := Some(gains.error);
        } else if gains.value.None? {
          err := None;
        } else {
          err := StoreGains(gains.value.value);
        }
      }
    }

    /** attenuate: findCalFactors, then one cal-table row per (FEED, POLARIZE) pair (or Ka's two rows). */
    method Attenuate() returns (r: Result<seq<CalTableRow>>)
      modifies this
      ensures (table, r) == AttenuateSpec(kind, old(table), inputs, scanNum)
    {
      var err := FindCalFactors();
      if err.Some? {
        return Err(err.value);
      }
      if kind == KaCalibrator {
        return KaAttenuateRows(table);
      }
      if |table.rows| == 0 {
        return Err(IndexError);
      }
      var conv := AttenuatorOf(kind);
      if conv.Err? {
        return Err(conv.error);
      }
      r := ConvertPairs(table, conv.value);
    }

    /** The loop of attenuate: each (FEED, POLARIZE) pair adds the attenuator's row to the cal table. */
    static method ConvertPairs(t: DcrTable, conv: AttenuatorKind) returns (r: Result<seq<CalTableRow>>)
      ensures r == Collect(AttenuateStep(t, conv), FeedPols(t.rows), [])
    {
      var pairs := FeedPols(t.rows);
      var calTable := [];
      var i := 0;
      while i < |pairs|
        invariant 0 <= i <= |pairs|
        invariant Collect(AttenuateStep(t, conv), pairs, []) == Collect(AttenuateStep(t, conv), pairs[i..], calTable)
      {
        CollectStep(AttenuateStep(t, conv), pairs, i, calTable);
        var row := AttenuatePair(t, conv, pairs[i]);
        if row.Err? {
          return Err(row.error);
        }
        calTable := calTable + [row.value];
        i := i + 1;
      }
      return Ok(calTable);
    }

    /** dontAttenuate: the cal-off rows; Ka's override builds one row per feed. */
    method DontAttenuate() returns (r: Result<seq<CalTableRow>>)
      ensures r == DontAttenuateSpec(kind, table)
    {
      if kind != KaCalibrator {
        return Ok(DontAttenuateRows(table));
      }
      if |table.rows| == 0 {
        return Err(IndexError);
      }
      var off := CalOffRows(table.rows);
      var feeds := UniqueFeeds(table.(rows := off));
      var calTable := [];
      var i := 0;
      while i < |feeds|
        invariant 0 <= i <= |feeds|
        invariant Collect(KaFeedStep(off), feeds, []) == Collect(KaFeedStep(off), feeds[i..], calTable)
      {
        CollectStep(KaFeedStep(off), feeds, i, calTable);
        var row := KaFeedPower(off, feeds[i]);
        if row.Err? {
          return Err(row.error);
        }
        calTable := calTable + [row.value];
        i := i + 1;
      }
      return Ok(calTable);
    }

    /** The loop over the feed table's rows shared by the inter-pol stage and its alternatives. */
    method FillFeedTable(calTable: seq<CalTableRow>, step: PolStep) returns (r: Result<seq<FeedRow>>)
      ensures r == FillFeeds(calTable, step)
    {
      var feeds := CalFeeds(calTable);
      var feedTable := [];
      var i := 0;
      while i < |feeds|
        invariant 0 <= i <= |feeds|
        invariant Collect(FeedStep(calTable, step), feeds, []) == Collect(FeedStep(calTable, step), feeds[i..], feedTable)
      {
        CollectStep(FeedStep(calTable, step), feeds, i, feedTable);
        var row := FeedValue(calTable, step, feeds[i]);
        if row.Err? {
          return Err(row.error);
        }
        feedTable := feedTable + [row.value];
        i := i + 1;
      }
      return Ok(feedTable);
    }

    /**
     * calibrate: the conversion stage, then the inter-pol stage or the
     * selection of one polarization, then the inter-beam stage or the
     * selection of one feed.
     */
    method Calibrate(pol: string) returns (r: Result<seq<real>>)
      modifies this
      ensures (table, r) == CalibrateSpec(kind, old(table), flags, inputs, scanNum, pol)
    {
      var calTable;
      if flags.attenuation {
        calTable := Attenuate();
      } else {
        calTable := DontAttenuate();
      }
      if calTable.Err? {
        return Err(calTable.error);
      }
      var feedTable;
      if flags.interPol {
        var k := InterPolOf(kind);
        if k.Err? {
          return Err(k.error);
        }
        feedTable := FillFeedTable(calTable.value, AveragePols(k.value));
      } else if kind == KaCalibrator {
        feedTable := FillFeedTable(calTable.value, SelectFeed);
      } else {
        feedTable := FillFeedTable(calTable.value, SelectPol(pol));
      }
      if feedTable.Err? {
        return Err(feedTable.error);
      }
      var data := InterBeamStage(kind, table, feedTable.value, pol, flags.interBeam);
      if data.Err? {
        return Err(data.error);
      }
      if |data.value| == 0 {
        return Err(IndexError);
      }
      return data;
    }
  }
}
