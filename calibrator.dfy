// The calibrator class hierarchy of gbtcal/calibrator.py and what each class
// contributes: its attenuator, inter-pol and inter-beam operations, the way
// it fills FACTOR (receiver Tcal per grouping, or calibration-sequence
// gains found through the scan log), and getFeedForPol.  The constructor's
// FACTOR column of ones is here too; the stages and the class itself are in
// module Pipeline.

module Calibrators {
  import opened Wrappers
  import opened RealSeq
  import opened Ordering
  import opened Text
  import opened DcrTable
  import opened Decode
  import opened Converter
  import opened Attenuation
  import opened InterOps
  import Argus

  /** The classes of the hierarchy. */
  datatype CalibratorClass =
    | CalibratorBase
    | TraditionalCalibrator
    | KaCalibrator
    | CalSeqCalibrator
    | WBandCalibrator
    | ArgusCalibrator

  /**
   * The attenuator class attribute.  The base class's properties are
   * defined inside __init__ by mistake, so the base class has none.
   */
  function AttenuatorOf(c: CalibratorClass): Result<AttenuatorKind>
  {
    match c
    case CalibratorBase => Err(AttributeError)
    case TraditionalCalibrator => Ok(CalDiodeAttenuate)
    case KaCalibrator => Ok(CalDiodeAttenuate)
    case _ => Ok(CalSeqAttenuate)
  }

  function InterPolOf(c: CalibratorClass): Result<InterPolKind>
  {
    if c == CalibratorBase then Err(AttributeError) else Ok(InterPolAverage)
  }

  function InterBeamOf(c: CalibratorClass): Result<InterBeamKind>
  {
    if c == CalibratorBase then Err(AttributeError) else Ok(BeamSubtractionDBA)
  }

  /** One entry of the project's scan log: scan number, PROCNAME of its GO file, and file name. */
  datatype ScanEntry = ScanEntry(scan: int, procname: string, file: string)

  /**
   * What the calibrators read from disk: the receiver calibration table of
   * the scan, the scan log, the gains a WBandCalibration computes for a
   * CALSEQ scan number, and the Argus scan stored under a file name.
   */
  datatype Inputs = Inputs(rcvrCal: seq<CalRow>, scanLog: seq<ScanEntry>,
                           wbandGains: int -> map<string, real>,
                           argusScans: string -> Argus.ArgusScan)

  // ---- the constructor ----

  /** The copy of the table with a FACTOR column of ones. */
  function WithUnitFactors(t: DcrTable): DcrTable
  {
    t.(rows := seq(|t.rows|, i requires 0 <= i < |t.rows| => t.rows[i].(factor := 1.0)), hasFactor := true)
  }

  /** Two row lists that differ at most in FACTOR. */
  predicate SameButFactor(a: seq<DcrRow>, b: seq<DcrRow>)
  {
    |a| == |b| && forall i :: 0 <= i < |a| ==> a[i] == b[i].(factor := a[i].factor)
  }

  /**
   * The new table keeps every row apart from FACTOR, which is 1.0 in every
   * row, so a non-empty table has the single FACTOR 1.0.
   */
  lemma WithUnitFactorsMeaning(t: DcrTable)
    ensures var r := WithUnitFactors(t);
      SameButFactor(r.rows, t.rows) && (forall i :: 0 <= i < |r.rows| ==> r.rows[i].factor == 1.0) &&
      r.hasFactor && r.receiver == t.receiver && r.trackBeam == t.trackBeam
    ensures |t.rows| > 0 ==> GetFactor(WithUnitFactors(t)) == Ok(1.0)
  {
    GetFactorMeaning(WithUnitFactors(t));
  }

  // ---- getFeedForPol ----

  /** POLOPTS.AVG */
  function Avg(): string { "Avg" }

  /** A row carries a requested polarization; every row carries Avg. */
  predicate Carries(x: DcrRow, pol: string)
  {
    pol == Avg() || x.polarize == pol
  }

  /** The rows that carry a requested polarization. */
  function PolRows(t: DcrTable, pol: string): seq<DcrRow>
  {
    if pol == Avg() then t.rows else Filter(t.rows, (x: DcrRow) => x.polarize == pol)
  }

  function Polarizations(rows: seq<DcrRow>): (r: seq<string>)
    ensures |r| == |rows| && forall i :: 0 <= i < |r| ==> r[i] == rows[i].polarize
  {
    seq(|rows|, i requires 0 <= i < |rows| => rows[i].polarize)
  }

  /** The feeds that carry a requested polarization, in increasing order. */
  function FeedsForPol(t: DcrTable, pol: string): seq<int>
  {
    UniqueFeeds(t.(rows := PolRows(t, pol)))
  }

  /**
   * getFeedForPol: the track feed when it carries the polarization, else the
   * smallest feed that does.  An absent polarization fails at
   * feedsForPol[0], so the ValueError after it is never raised.
   */
  function FeedForPol(t: DcrTable, pol: string): Result<int>
  {
    var feeds := FeedsForPol(t, pol);
    if t.trackBeam !in feeds && |feeds| == 0 then Err(IndexError)
    else
      var feed := if t.trackBeam in feeds then t.trackBeam else feeds[0];
      if pol !in SortedUnique(Polarizations(t.rows), StrLess) && pol != Avg() then
        Err(ValueError("no such polarization"))
      else Ok(feed)
  }

  /** The candidate feeds are exactly the feeds of the rows that carry the polarization. */
  lemma FeedsForPolMeaning(t: DcrTable, pol: string)
    ensures StrictlySorted(FeedsForPol(t, pol), IntLess)
    ensures forall f :: f in FeedsForPol(t, pol) <==>
      exists i :: 0 <= i < |t.rows| && Carries(t.rows[i], pol) && t.rows[i].feed == f
  {
    var sub := t.(rows := PolRows(t, pol));
    UniqueFeedsMeaning(sub);
    assert forall x :: x in sub.rows <==> x in t.rows && Carries(x, pol);
    forall f ensures f in FeedsForPol(t, pol) ==>
      exists i :: 0 <= i < |t.rows| && Carries(t.rows[i], pol) && t.rows[i].feed == f
    {
      if f in FeedsForPol(t, pol) {
        var k :| 0 <= k < |sub.rows| && sub.rows[k].feed == f;
        assert sub.rows[k] in sub.rows;
      }
    }
    forall i | 0 <= i < |t.rows| && Carries(t.rows[i], pol) ensures t.rows[i].feed in FeedsForPol(t, pol) {
      assert t.rows[i] in sub.rows;
      var k :| 0 <= k < |sub.rows| && sub.rows[k] == t.rows[i];
    }
  }

  /** A requested polarization other than Avg that some row carries is among the table's polarizations. */
  lemma CarriedPolListed(t: DcrTable, pol: string, i: int)
    requires 0 <= i < |t.rows| && Carries(t.rows[i], pol) && pol != Avg()
    ensures pol in SortedUnique(Polarizations(t.rows), StrLess)
  {
    StrLessIsStrictTotal();
    SortedUniqueProperties(Polarizations(t.rows), StrLess);
    assert Polarizations(t.rows)[i] == pol;
  }

  /**
   * The selection succeeds exactly when some row carries the polarization
   * (any row for Avg), and otherwise fails with IndexError.
   */
  lemma FeedForPolDefined(t: DcrTable, pol: string)
    ensures FeedForPol(t, pol).Ok? <==> exists i :: 0 <= i < |t.rows| && Carries(t.rows[i], pol)
    ensures FeedForPol(t, pol).Err? ==> FeedForPol(t, pol).error == IndexError
  {
    FeedsForPolMeaning(t, pol);
    var feeds := FeedsForPol(t, pol);
    assert |feeds| > 0 ==> feeds[0] in feeds;
    if exists i :: 0 <= i < |t.rows| && Carries(t.rows[i], pol) {
      var i :| 0 <= i < |t.rows| && Carries(t.rows[i], pol);
      assert t.rows[i].feed in feeds;
      if pol != Avg() {
        CarriedPolListed(t, pol, i);
      }
    }
  }

  /**
   * The selected feed carries the polarization; it is the track feed when
   * the track feed carries it, and otherwise the smallest feed that does.
   */
  lemma FeedForPolChoice(t: DcrTable, pol: string)
    requires FeedForPol(t, pol).Ok?
    ensures var f := FeedForPol(t, pol).value;
      (exists i :: 0 <= i < |t.rows| && Carries(t.rows[i], pol) && t.rows[i].feed == f) &&
      ((exists i :: 0 <= i < |t.rows| && Carries(t.rows[i], pol) && t.rows[i].feed == t.trackBeam) ==> f == t.trackBeam) &&
      (f != t.trackBeam ==> forall i :: 0 <= i < |t.rows| && Carries(t.rows[i], pol) ==> f <= t.rows[i].feed)
  {
    FeedsForPolMeaning(t, pol);
    var feeds := FeedsForPol(t, pol);
    var f := FeedForPol(t, pol).value;
    assert f in feeds;
    if f != t.trackBeam {
      forall i | 0 <= i < |t.rows| && Carries(t.rows[i], pol) ensures f <= t.rows[i].feed {
        assert t.rows[i].feed in feeds;
        FirstIsLeast(feeds, IntLess, t.rows[i].feed);
      }
    }
  }

  // ---- TraditionalCalibrator.findCalFactors ----

  /** A (FEED, POLARIZE, CENTER_SKY, BANDWDTH, HIGH_CAL) grouping. */
  datatype Group = Group(feed: int, pol: string, center: real, bandwidth: real, highCal: int)

  function GroupOf(x: DcrRow): Group
  {
    Group(x.feed, x.polarize, x.centerSky, x.bandwidth, x.highCal)
  }

  /** numpy's order on the structured rows: field by field. */
  function GroupLess(a: Group, b: Group): bool
  {
    if a.feed != b.feed then a.feed < b.feed
    else if a.pol != b.pol then StrLess(a.pol, b.pol)
    else if a.center != b.center then a.center < b.center
    else if a.bandwidth != b.bandwidth then a.bandwidth < b.bandwidth
    else a.highCal < b.highCal
  }

  lemma GroupLessIsStrictTotal()
    ensures StrictTotalOrder(GroupLess)
  {
    StrLessIsStrictTotal();
  }

  function GroupsOf(rows: seq<DcrRow>): (r: seq<Group>)
    ensures |r| == |rows| && forall i :: 0 <= i < |r| ==> r[i] == GroupOf(rows[i])
  {
    seq(|rows|, i requires 0 <= i < |rows| => GroupOf(rows[i]))
  }

  /** numpy.unique over the five grouping columns. */
  function Groups(rows: seq<DcrRow>): seq<Group>
  {
    SortedUnique(GroupsOf(rows), GroupLess)
  }

  lemma GroupsMeaning(rows: seq<DcrRow>)
    ensures StrictlySorted(Groups(rows), GroupLess)
    ensures forall i :: 0 <= i < |rows| ==> GroupOf(rows[i]) in Groups(rows)
    ensures forall g :: g in Groups(rows) ==> exists i :: 0 <= i < |rows| && GroupOf(rows[i]) == g
  {
    GroupLessIsStrictTotal();
    SortedUniqueProperties(GroupsOf(rows), GroupLess);
    assert forall i :: 0 <= i < |rows| ==> GroupsOf(rows)[i] in GroupsOf(rows);
  }

  /** maskedTable['RECEPTOR']: the receptors of a group's rows, in order. */
  function GroupReceptors(rows: seq<DcrRow>, g: Group): (r: seq<string>)
    ensures |r| <= |rows|
  {
    if |rows| == 0 then []
    else (if GroupOf(rows[0]) == g then [rows[0].receptor] else []) + GroupReceptors(rows[1..], g)
  }

  lemma {:induction false} GroupReceptorsMeaning(rows: seq<DcrRow>, g: Group)
    ensures forall s :: s in GroupReceptors(rows, g) <==>
      exists i :: 0 <= i < |rows| && GroupOf(rows[i]) == g && rows[i].receptor == s
  {
    if |rows| > 0 {
      GroupReceptorsMeaning(rows[1..], g);
      forall s ensures s in GroupReceptors(rows, g) <==>
        exists i :: 0 <= i < |rows| && GroupOf(rows[i]) == g && rows[i].receptor == s
      {
        if exists i :: 0 <= i < |rows| && GroupOf(rows[i]) == g && rows[i].receptor == s {
          var i :| 0 <= i < |rows| && GroupOf(rows[i]) == g && rows[i].receptor == s;
          if i > 0 {
            assert rows[1..][i - 1] == rows[i];
          }
        }
        if s in GroupReceptors(rows[1..], g) {
          var i :| 0 <= i < |rows[1..]| && GroupOf(rows[1..][i]) == g && rows[1..][i].receptor == s;
          assert rows[i + 1] == rows[1..][i];
        }
      }
    }
  }

  /** The ValueError raised for a grouping with several receptors (shortened). */
  function ReceptorMsg(): string { "RECEPTOR not unique" }

  /** The single receptor of a grouping's rows; several distinct ones raise ValueError. */
  function GroupReceptor(rows: seq<DcrRow>, g: Group): Result<string>
  {
    var receptors := GroupReceptors(rows, g);
    if |SortedUnique(receptors, StrLess)| != 1 then Err(ValueError(ReceptorMsg()))
    else
      SortedUniqueLength(receptors, StrLess);
      Ok(receptors[0])
  }

  /** The Tcal of one grouping, looked up for its receptor. */
  function GroupTcal(rows: seq<DcrRow>, rcvrCal: seq<CalRow>, g: Group): Result<real>
  {
    var receptor :- GroupReceptor(rows, g);
    Tcal(rcvrCal, g.feed, receptor, g.pol, g.highCal, g.center, g.bandwidth)
  }

  /** Two rows of a grouping with different receptors make the grouping fail with ValueError. */
  lemma GroupReceptorConflict(rows: seq<DcrRow>, g: Group, i: int, j: int)
    requires 0 <= i < |rows| && GroupOf(rows[i]) == g
    requires 0 <= j < |rows| && GroupOf(rows[j]) == g && rows[j].receptor != rows[i].receptor
    ensures GroupReceptor(rows, g) == Err(ValueError(ReceptorMsg()))
  {
    var receptors := GroupReceptors(rows, g);
    GroupReceptorsMeaning(rows, g);
    assert rows[i].receptor in receptors && rows[j].receptor in receptors;
    SortedUniqueOfTwo(receptors, StrLess, rows[i].receptor, rows[j].receptor);
  }

  /** A grouping whose rows all have receptor x lists only x. */
  lemma {:induction false} GroupReceptorsCopies(rows: seq<DcrRow>, g: Group, x: string)
    requires forall j :: 0 <= j < |rows| && GroupOf(rows[j]) == g ==> rows[j].receptor == x
    ensures forall k :: 0 <= k < |GroupReceptors(rows, g)| ==> GroupReceptors(rows, g)[k] == x
  {
    if |rows| > 0 {
      assert forall j :: 0 <= j < |rows[1..]| ==> rows[1..][j] == rows[j + 1];
      GroupReceptorsCopies(rows[1..], g, x);
    }
  }

  /** When all rows of a grouping have the receptor of row i, that is the grouping's receptor. */
  lemma GroupReceptorUniform(rows: seq<DcrRow>, g: Group, i: int)
    requires 0 <= i < |rows| && GroupOf(rows[i]) == g
    requires forall j :: 0 <= j < |rows| && GroupOf(rows[j]) == g ==> rows[j].receptor == rows[i].receptor
    ensures GroupReceptor(rows, g) == Ok(rows[i].receptor)
  {
    var receptors := GroupReceptors(rows, g);
    assert |receptors| > 0 by {
      GroupReceptorsMeaning(rows, g);
      assert rows[i].receptor in receptors;
    }
    GroupReceptorsCopies(rows, g, rows[i].receptor);
    SortedUniqueOfCopies(receptors, StrLess, rows[i].receptor);
  }

  /** table['FACTOR'][mask] = tCal for the rows of one grouping. */
  function SetFactor(rows: seq<DcrRow>, g: Group, v: real): (r: seq<DcrRow>)
    ensures |r| == |rows|
  {
    seq(|rows|, i requires 0 <= i < |rows| => if GroupOf(rows[i]) == g then rows[i].(factor := v) else rows[i])
  }

  /**
   * The loop over the groupings: each grouping's Tcal is stored in its rows;
   * the first failing grouping stops the loop and leaves the factors
   * written so far.
   */
  function ApplyGroups(gs: seq<Group>, tcal: Group -> Result<real>, cur: seq<DcrRow>): (r: (seq<DcrRow>, Option<Error>))
    ensures |r.0| == |cur|
  {
    if |gs| == 0 then (cur, None)
    else match tcal(gs[0])
      case Err(e) => (cur, Some(e))
      case Ok(v) => ApplyGroups(gs[1..], tcal, SetFactor(cur, gs[0], v))
  }

  /** getTcal for each grouping of the table's rows, as the loop looks it up. */
  function TcalOf(rows: seq<DcrRow>, rcvrCal: seq<CalRow>): Group -> Result<real>
  {
    g => GroupTcal(rows, rcvrCal, g)
  }

  /**
   * findCalFactors of TraditionalCalibrator and KaCalibrator, given the
   * groupings' Tcal lookup (TcalOf of the rows as they were; the loop writes
   * only FACTOR, so the groupings do not change on the way).
   */
  function TraditionalFactors(rows: seq<DcrRow>, tcal: Group -> Result<real>): (r: (seq<DcrRow>, Option<Error>))
    ensures |r.0| == |rows|
  {
    ApplyGroups(Groups(rows), tcal, rows)
  }

  /**
   * The loop changes FACTOR only; it succeeds exactly when every grouping
   * has a Tcal, and then every row of a listed grouping holds its
   * grouping's Tcal while the other rows are untouched.  A failure is the
   * error of a listed grouping.
   */
  lemma {:induction false} ApplyGroupsMeaning(gs: seq<Group>, tcal: Group -> Result<real>, cur: seq<DcrRow>)
    ensures SameButFactor(ApplyGroups(gs, tcal, cur).0, cur)
    ensures ApplyGroups(gs, tcal, cur).1.None? <==> forall k :: 0 <= k < |gs| ==> tcal(gs[k]).Ok?
    ensures ApplyGroups(gs, tcal, cur).1.Some? ==>
      exists k :: 0 <= k < |gs| && tcal(gs[k]) == Err(ApplyGroups(gs, tcal, cur).1.value)
    ensures ApplyGroups(gs, tcal, cur).1.None? ==>
      var r := ApplyGroups(gs, tcal, cur).0;
      forall i :: 0 <= i < |cur| ==>
        r[i] == if GroupOf(cur[i]) in gs then cur[i].(factor := tcal(GroupOf(cur[i])).value) else cur[i]
  {
    if |gs| > 0 {
      var t := tcal(gs[0]);
      if t.Ok? {
        var next := SetFactor(cur, gs[0], t.value);
        ApplyGroupsMeaning(gs[1..], tcal, next);
        assert forall k :: 0 <= k < |gs[1..]| ==> gs[1..][k] == gs[k + 1];
        assert forall x :: x in gs <==> x == gs[0] || x in gs[1..];
        assert forall i :: 0 <= i < |cur| ==> GroupOf(next[i]) == GroupOf(cur[i]);
        if ApplyGroups(gs, tcal, cur).1.Some? {
          var k :| 0 <= k < |gs[1..]| && tcal(gs[1..][k]) == Err(ApplyGroups(gs, tcal, cur).1.value);
          assert tcal(gs[k + 1]) == Err(ApplyGroups(gs, tcal, cur).1.value);
        }
      }
    }
  }

  /**
   * Traditional factors: success exactly when every grouping of the table
   * has a Tcal; then every row holds its grouping's Tcal, so the CAL=0 and
   * CAL=1 rows of a grouping share FACTOR.  Only FACTOR changes.
   */
  lemma TraditionalFactorsMeaning(rows: seq<DcrRow>, tcal: Group -> Result<real>)
    ensures SameButFactor(TraditionalFactors(rows, tcal).0, rows)
    ensures TraditionalFactors(rows, tcal).1.None? <==> forall i :: 0 <= i < |rows| ==> tcal(GroupOf(rows[i])).Ok?
    ensures TraditionalFactors(rows, tcal).1.None? ==>
      var r := TraditionalFactors(rows, tcal).0;
      forall i :: 0 <= i < |rows| ==> r[i].factor == tcal(GroupOf(rows[i])).value
    ensures TraditionalFactors(rows, tcal).1.Some? ==>
      exists i :: 0 <= i < |rows| && tcal(GroupOf(rows[i])) == Err(TraditionalFactors(rows, tcal).1.value)
  {
    var gs := Groups(rows);
    GroupsMeaning(rows);
    ApplyGroupsMeaning(gs, tcal, rows);
    if TraditionalFactors(rows, tcal).1.Some? {
      var k :| 0 <= k < |gs| && tcal(gs[k]) == Err(TraditionalFactors(rows, tcal).1.value);
      assert gs[k] in gs;
      var i :| 0 <= i < |rows| && GroupOf(rows[i]) == gs[k];
    }
    if forall i :: 0 <= i < |rows| ==> tcal(GroupOf(rows[i])).Ok? {
      forall k | 0 <= k < |gs| ensures tcal(gs[k]).Ok? {
        assert gs[k] in gs;
        var i :| 0 <= i < |rows| && GroupOf(rows[i]) == gs[k];
      }
    }
  }

  /** After successful Traditional factors, two rows of one grouping hold the same FACTOR. */
  lemma GroupSharesFactor(rows: seq<DcrRow>, tcal: Group -> Result<real>, i: int, j: int)
    requires 0 <= i < |rows| && 0 <= j < |rows| && GroupOf(rows[i]) == GroupOf(rows[j])
    requires TraditionalFactors(rows, tcal).1.None?
    ensures TraditionalFactors(rows, tcal).0[i].factor == TraditionalFactors(rows, tcal).0[j].factor
  {
    TraditionalFactorsMeaning(rows, tcal);
  }

  // ---- CalSeqCalibrator.findCalFactors ----

  /** str(row['FEED']) + row['POLARIZE'], the key of a row's gain. */
  function GainKey(x: DcrRow): string
  {
    IntToStr(x.feed) + x.polarize
  }

  /** The position of the first row whose key has no gain, or |rows|. */
  function FirstMissing(rows: seq<DcrRow>, gains: map<string, real>): (r: nat)
    ensures r <= |rows|
    ensures forall k :: 0 <= k < r ==> GainKey(rows[k]) in gains
    ensures r < |rows| ==> GainKey(rows[r]) !in gains
  {
    if |rows| == 0 then 0
    else if GainKey(rows[0]) !in gains then 0
    else
      var r := FirstMissing(rows[1..], gains);
      assert forall k :: 1 <= k < 1 + r ==> rows[k] == rows[1..][k - 1];
      assert r < |rows| - 1 ==> rows[1 + r] == rows[1..][r];
      1 + r
  }

  /** A row with its FACTOR replaced by the gain of its key, when there is one. */
  function Gained(x: DcrRow, gains: map<string, real>): DcrRow
  {
    if GainKey(x) in gains then x.(factor := gains[GainKey(x)]) else x
  }

  /**
   * The loop over the rows: each row gets the gain of its key; the first
   * row without one raises KeyError and leaves the later rows unchanged.
   */
  function GainFactors(rows: seq<DcrRow>, gains: map<string, real>): (r: (seq<DcrRow>, Option<Error>))
    ensures |r.0| == |rows|
  {
    var k := FirstMissing(rows, gains);
    (seq(|rows|, i requires 0 <= i < |rows| => if i < k then Gained(rows[i], gains) else rows[i]),
     if k < |rows| then Some(KeyError) else None)
  }

  /** Rows gained up to the first missing key, and unchanged from there, are the loop's rows. */
  lemma GainedUpToMissing(rows: seq<DcrRow>, gains: map<string, real>, cur: seq<DcrRow>, i: nat)
    requires i == FirstMissing(rows, gains) && |cur| == |rows|
    requires forall j :: 0 <= j < |rows| ==> cur[j] == if j < i then Gained(rows[j], gains) else rows[j]
    ensures cur == GainFactors(rows, gains).0
  {
  }

  /**
   * Only FACTOR changes.  The gains are applied exactly when every row's key
   * has a gain, and then each row's FACTOR is the gain of its key; otherwise
   * the error is KeyError and the row at fault still has its old FACTOR.
   */
  lemma GainFactorsMeaning(rows: seq<DcrRow>, gains: map<string, real>)
    ensures SameButFactor(GainFactors(rows, gains).0, rows)
    ensures GainFactors(rows, gains).1.None? <==> forall i :: 0 <= i < |rows| ==> GainKey(rows[i]) in gains
    ensures GainFactors(rows, gains).1.None? ==>
      forall i :: 0 <= i < |rows| ==> GainFactors(rows, gains).0[i].factor == gains[GainKey(rows[i])]
    ensures GainFactors(rows, gains).1.Some? ==>
      GainFactors(rows, gains).1 == Some(KeyError) &&
      exists i :: 0 <= i < |rows| && GainKey(rows[i]) !in gains && GainFactors(rows, gains).0[i] == rows[i]
  {
  }

  /**
   * The gain of a (feed, polarization) pair lands in every row of that pair:
   * two rows with the same feed and polarization share FACTOR.
   */
  lemma GainsSharedByPair(rows: seq<DcrRow>, gains: map<string, real>, i: int, j: int)
    requires 0 <= i < |rows| && 0 <= j < |rows|
    requires rows[i].feed == rows[j].feed && rows[i].polarize == rows[j].polarize
    requires GainFactors(rows, gains).1.None?
    ensures GainFactors(rows, gains).0[i].factor == GainFactors(rows, gains).0[j].factor
  {
    GainFactorsMeaning(rows, gains);
  }

  /** Different feeds or polarizations have different keys: str(FEED) is injective. */
  lemma GainKeysDistinct(x: DcrRow, y: DcrRow)
    requires x.polarize == y.polarize && x.feed != y.feed
    ensures GainKey(x) != GainKey(y)
  {
    if GainKey(x) == GainKey(y) {
      var a, b := IntToStr(x.feed), IntToStr(y.feed);
      assert |a| == |b|;
      assert a == GainKey(x)[..|a|] && b == GainKey(y)[..|b|];
      IntToStrInjective(x.feed, y.feed);
    }
  }

  // ---- _findMostRecentProcScans ----

  /** A slot of the returned list: 0 when unfilled, else a (scan, file) pair. */
  datatype Slot = Empty | Found(scan: int, file: string)

  /** The (scan, file) pairs of the log with scan <= scanNum and the given procname, in log order. */
  function ProcScans(log: seq<ScanEntry>, scanNum: int, procname: string): (r: seq<Slot>)
    ensures |r| <= |log| && forall k :: 0 <= k < |r| ==> r[k].Found?
  {
    if |log| == 0 then []
    else
      var rest := ProcScans(log[1..], scanNum, procname);
      if log[0].scan <= scanNum && log[0].procname == procname then [Found(log[0].scan, log[0].file)] + rest
      else rest
  }

  /** The pairs come from the log entries that qualify, and every such entry is listed. */
  lemma {:induction false} ProcScansMeaning(log: seq<ScanEntry>, scanNum: int, procname: string)
    ensures forall x :: x in ProcScans(log, scanNum, procname) <==>
      exists k :: 0 <= k < |log| && log[k].scan <= scanNum && log[k].procname == procname &&
        x == Found(log[k].scan, log[k].file)
  {
    if |log| > 0 {
      ProcScansMeaning(log[1..], scanNum, procname);
      assert forall k :: 0 <= k < |log[1..]| ==> log[1..][k] == log[k + 1];
      forall x ensures x in ProcScans(log, scanNum, procname) ==>
        exists k :: 0 <= k < |log| && log[k].scan <= scanNum && log[k].procname == procname &&
          x == Found(log[k].scan, log[k].file)
      {
        if x in ProcScans(log, scanNum, procname) && x != Found(log[0].scan, log[0].file) {
          assert x in ProcScans(log[1..], scanNum, procname);
        }
      }
      forall k | 0 <= k < |log| && log[k].scan <= scanNum && log[k].procname == procname
        ensures Found(log[k].scan, log[k].file) in ProcScans(log, scanNum, procname)
      {
        if k > 0 {
          assert log[k] == log[1..][k - 1];
        }
      }
    }
  }

  /**
   * The list _findMostRecentProcScans returns: [] without a match; otherwise
   * count slots whose last min(|matches|, count) hold the last matches in
   * log order and whose leading slots are 0.
   */
  function MostRecent(matches: seq<Slot>, count: nat): (r: seq<Slot>)
    ensures |r| == (if |matches| == 0 then 0 else count)
  {
    if |matches| == 0 then []
    else
      var n := if |matches| < count then |matches| else count;
      seq(count, j requires 0 <= j < count => if j >= count - n then matches[|matches| - count + j] else Empty)
  }

  /**
   * The method: a list of count zeros, whose slot -i-1 receives match -i-1
   * for each i below min(|matches|, count).
   */
  method FindMostRecentProcScans(log: seq<ScanEntry>, scanNum: int, procname: string, count: nat)
    returns (r: seq<Slot>)
    ensures r == MostRecent(ProcScans(log, scanNum, procname), count)
  {
    var matches := ProcScans(log, scanNum, procname);
    if |matches| == 0 {
      return [];
    }
    var slots := seq(count, j => Empty);
    var n := if |matches| < count then |matches| else count;
    var i := 0;
    while i < n
      invariant 0 <= i <= n && |slots| == count
      invariant forall j :: 0 <= j < count ==>
        slots[j] == if j >= count - i then matches[|matches| - count + j] else Empty
    {
      slots := slots[count - i - 1 := matches[|matches| - i - 1]];
      i := i + 1;
    }
    ghost var spec := MostRecent(matches, count);
    assert |spec| == count;
    assert forall j :: 0 <= j < count ==> slots[j] == spec[j];
    r := slots;
  }

  /**
   * With a match, the last slot holds the most recent qualifying entry of
   * the log, and every filled slot holds a qualifying entry; the filled
   * slots are the trailing ones.
   */
  lemma MostRecentMeaning(log: seq<ScanEntry>, scanNum: int, procname: string, count: nat)
    ensures var r := MostRecent(ProcScans(log, scanNum, procname), count);
      (|r| == 0 <==> count == 0 || forall k :: 0 <= k < |log| ==> !(log[k].scan <= scanNum && log[k].procname == procname)) &&
      (forall j :: 0 <= j < |r| && r[j].Found? ==>
        exists k :: 0 <= k < |log| && log[k].scan <= scanNum && log[k].procname == procname &&
          r[j] == Found(log[k].scan, log[k].file)) &&
      (forall j, j' :: 0 <= j < j' < |r| && r[j].Found? ==> r[j'].Found?)
    ensures var m := ProcScans(log, scanNum, procname);
      var r := MostRecent(m, count);
      |m| > 0 && count > 0 ==> r[count - 1] == m[|m| - 1]
  {
    var m := ProcScans(log, scanNum, procname);
    ProcScansMeaning(log, scanNum, procname);
    if |m| > 0 {
      assert m[0] in m;
    }
    forall j | 0 <= j < |MostRecent(m, count)| && MostRecent(m, count)[j].Found?
      ensures MostRecent(m, count)[j] in m
    {
    }
  }

  // ---- getGains ----

  /**
   * getGains of the CalSeq family: None when no gains were found (the
   * factors then stay 1.0), the base CalSeqCalibrator defines none.
   * WBand takes the most recent CALSEQ scan; Argus the two most recent
   * VANECAL scans, vane first.
   */
  function GetGains(c: CalibratorClass, inputs: Inputs, scanNum: int): Result<Option<map<string, real>>>
  {
    match c
    case WBandCalibrator =>
      var info := MostRecent(ProcScans(inputs.scanLog, scanNum, "CALSEQ"), 1);
      if |info| > 0 then
        (if info[0].Found? then Ok(Some(inputs.wbandGains(info[0].scan))) else Err(TypeError))
      else Ok(None)
    case ArgusCalibrator =>
      var nums := MostRecent(ProcScans(inputs.scanLog, scanNum, "VANECAL"), 2);
      if forall j :: 0 <= j < |nums| ==> nums[j].Found? then
        if |nums| < 2 then Err(IndexError)
        else
          var g :- Argus.GetGain(inputs.argusScans(nums[0].file), inputs.argusScans(nums[1].file));
          Ok(Some(g))
      else Ok(None)
    case _ => Err(NotImplemented)
  }

  /** WBand: no CALSEQ scan gives None; otherwise the gains of the most recent one at or before the scan. */
  lemma WBandGains(inputs: Inputs, scanNum: int)
    ensures var m := ProcScans(inputs.scanLog, scanNum, "CALSEQ");
      GetGains(WBandCalibrator, inputs, scanNum) ==
        if |m| == 0 then Ok(None) else Ok(Some(inputs.wbandGains(m[|m| - 1].scan)))
  {
  }

  /** Argus with no VANECAL scan: all([]) is true, and calSeqNums[0] raises IndexError. */
  lemma ArgusNoVaneScan(inputs: Inputs, scanNum: int)
    requires |ProcScans(inputs.scanLog, scanNum, "VANECAL")| == 0
    ensures GetGains(ArgusCalibrator, inputs, scanNum) == Err(IndexError)
  {
  }

  /** Argus with one VANECAL scan: the first slot stays 0, so there are no gains. */
  lemma ArgusOneVaneScan(inputs: Inputs, scanNum: int)
    requires |ProcScans(inputs.scanLog, scanNum, "VANECAL")| == 1
    ensures GetGains(ArgusCalibrator, inputs, scanNum) == Ok(None)
  {
    assert !MostRecent(ProcScans(inputs.scanLog, scanNum, "VANECAL"), 2)[0].Found?;
  }

  /**
   * Argus with two or more VANECAL scans: the gains of the last two, the
   * earlier one read as the vane scan and the later one as the sky scan.
   */
  lemma ArgusTwoVaneScans(inputs: Inputs, scanNum: int)
    requires |ProcScans(inputs.scanLog, scanNum, "VANECAL")| >= 2
    ensures var m := ProcScans(inputs.scanLog, scanNum, "VANECAL");
      var g := Argus.GetGain(inputs.argusScans(m[|m| - 2].file), inputs.argusScans(m[|m| - 1].file));
      GetGains(ArgusCalibrator, inputs, scanNum) == if g.Ok? then Ok(Some(g.value)) else Err(g.error)
  {
  }

  // ---- findCalFactors ----

  /**
   * findCalFactors of each class, as the FACTOR values it leaves and the
   * error it raises: the base class has none; Traditional and Ka store each
   * grouping's Tcal; the CalSeq family stores the gains, or leaves the ones
   * when there are none.
   */
  function FindCalFactorsSpec(c: CalibratorClass, rows: seq<DcrRow>, inputs: Inputs, scanNum: int): (r: (seq<DcrRow>, Option<Error>))
    ensures |r.0| == |rows|
  {
    match c
    case CalibratorBase => (rows, Some(NotImplemented))
    case TraditionalCalibrator => TraditionalFactors(rows, TcalOf(rows, inputs.rcvrCal))
    case KaCalibrator => TraditionalFactors(rows, TcalOf(rows, inputs.rcvrCal))
    case _ =>
      match GetGains(c, inputs, scanNum)
      case Err(e) => (rows, Some(e))
      case Ok(None) => (rows, None)
      case Ok(Some(g)) => GainFactors(rows, g)
  }

  /**
   * Every class's findCalFactors writes FACTOR and nothing else; without
   * gains the CalSeq family keeps every FACTOR, and the base class and the
   * CalSeqCalibrator itself raise NotImplementedError.
   */
  lemma FindCalFactorsMeaning(c: CalibratorClass, rows: seq<DcrRow>, inputs: Inputs, scanNum: int)
    ensures SameButFactor(FindCalFactorsSpec(c, rows, inputs, scanNum).0, rows)
    ensures c == CalibratorBase || c == CalSeqCalibrator ==>
      FindCalFactorsSpec(c, rows, inputs, scanNum) == (rows, Some(NotImplemented))
    ensures (c == WBandCalibrator || c == ArgusCalibrator) && GetGains(c, inputs, scanNum) == Ok(None) ==>
      FindCalFactorsSpec(c, rows, inputs, scanNum) == (rows, None)
  {
    match c
    case CalibratorBase =>
    case TraditionalCalibrator => TraditionalFactorsMeaning(rows, TcalOf(rows, inputs.rcvrCal));
    case KaCalibrator => TraditionalFactorsMeaning(rows, TcalOf(rows, inputs.rcvrCal));
    case CalSeqCalibrator =>
    case WBandCalibrator => GainsMeaning(c, rows, inputs, scanNum);
    case ArgusCalibrator => GainsMeaning(c, rows, inputs, scanNum);
  }

  lemma GainsMeaning(c: CalibratorClass, rows: seq<DcrRow>, inputs: Inputs, scanNum: int)
    ensures match GetGains(c, inputs, scanNum)
      case Ok(Some(g)) => SameButFactor(GainFactors(rows, g).0, rows)
      case _ => true
  {
    match GetGains(c, inputs, scanNum)
    case Ok(Some(g)) => GainFactorsMeaning(rows, g);
    case _ =>
  }
}
