// The calibrator classes of the monolithic src/Calibrators.py.  calibrate
// copies the consolidated table, adds FACTOR = 1.0, lets findCalFactors
// store the Tcal or gain values when gains are wanted, and doMath then
// computes each feed's power averaged over the polarizations: the track
// feed's power for total power, or for the dual-beam modes the signal feed's
// power less the reference feed's (Ka: the beam-switched difference of the
// signal feed's two SIGREF phases).

module SrcCalibrators {
  import opened Wrappers
  import opened RealSeq
  import opened Ordering
  import opened DcrTable
  import Decode
  import Converter
  import InterOps
  import Calibrators
  import Constants
  import CalSeqScans

  /** The calibrator classes of this version; CalSeq stands for its WBand and Argus subclasses. */
  datatype Subclass = Base | Traditional | Ka | CalSeq

  /**
   * A calibrator object: its class, the table it was made from, and what
   * its findCalFactors reads from files: the receiver calibration table
   * (Traditional and Ka) and the value getGains returned (CalSeq).
   */
  datatype Calibrator = Calibrator(kind: Subclass, ifDcrDataTable: DcrTable, rcvrCal: seq<Decode.CalRow>,
                                   gains: Option<map<string, real>>)

  function InvalidPolsMsg(): string { "invalid pols" }
  function TrackBeamMsg(): string { "trackBeam not a feed" }
  function TwoFeedsMsg(): string { "need two feeds" }
  function PolMsg(): string { "invalid pol" }
  function FreqMsg(): string { "one CENTER_SKY" }
  function OneRowMsg(): string { "one row of data" }
  function OnOffMsg(): string { "one on, one off" }
  function FactorMsg(): string { "on/off FACTOR" }
  function SigTcalMsg(): string { "sig tCal" }
  function OneTcalMsg(): string { "one tCal" }
  function RefRowsMsg(): string { "ref rows" }
  function RefTcalMsg(): string { "ref tCal" }
  function DuplicateMsg(): string { "Duplicate column names" }

  // ---- row selections (the boolean masks) ----

  function PolRows(rows: seq<DcrRow>, feed: int, pol: string): seq<DcrRow>
  {
    Filter(rows, (x: DcrRow) => x.feed == feed && x.polarize == pol)
  }

  function FreqRows(rows: seq<DcrRow>, feed: int, pol: string, freq: real): seq<DcrRow>
  {
    Filter(rows, (x: DcrRow) => x.feed == feed && x.polarize == pol && x.centerSky == freq)
  }

  /** The rows of one feed, polarization and frequency in one (SIGREF, CAL) phase. */
  function PhaseRows(rows: seq<DcrRow>, feed: int, pol: string, freq: real, phase: StateRow): seq<DcrRow>
  {
    Filter(rows, (x: DcrRow) => x.feed == feed && x.sigref == phase.sigref && x.cal == phase.cal &&
                                x.centerSky == freq && x.polarize == pol)
  }

  /** The rows with the given CAL and SIGREF. */
  function CalRows(rows: seq<DcrRow>, cal: int, sigref: int): seq<DcrRow>
  {
    Filter(rows, (x: DcrRow) => x.cal == cal && x.sigref == sigref)
  }

  function FeedRows(rows: seq<DcrRow>, feed: int): seq<DcrRow>
  {
    Filter(rows, (x: DcrRow) => x.feed == feed)
  }

  function CenterSkies(rows: seq<DcrRow>): (r: seq<real>)
    ensures |r| == |rows| && forall i :: 0 <= i < |r| ==> r[i] == rows[i].centerSky
  {
    seq(|rows|, i requires 0 <= i < |rows| => rows[i].centerSky)
  }

  /** A column has a single distinct value exactly when it is non-empty and constant. */
  lemma OneDistinct(s: seq<real>)
    ensures |SortedUnique(s, RealLess)| == 1 <==> |s| > 0 && forall i :: 0 <= i < |s| ==> s[i] == s[0]
  {
    var u := SortedUnique(s, RealLess);
    BasicOrders();
    SortedUniqueProperties(s, RealLess);
    SortedUniqueLength(s, RealLess);
    if |s| > 0 {
      assert s[0] in s;
      if forall i :: 0 <= i < |s| ==> s[i] == s[0] {
        assert forall y :: y in u ==> y == s[0];
        StrictlySortedDetermined(u, [s[0]], RealLess);
      }
      if |u| == 1 {
        forall i | 0 <= i < |s| ensures s[i] == s[0] {
          assert s[i] in s;
        }
      }
    }
  }

  // ---- the Ka maps ----

  /** Ka's kaPolMap {'R': 1, 'L': 2}: the one feed that carries each polarization. */
  function KaFeed(pol: string): Result<int>
  {
    if pol == "R" then Ok(1) else if pol == "L" then Ok(2) else Err(KeyError)
  }

  /** calibrateBeamSwitchedTBOnly's {1: 'R', 2: 'L'}: the polarization of each Ka feed. */
  function KaPol(feed: int): Result<string>
  {
    if feed == 1 then Ok("R") else if feed == 2 then Ok("L") else Err(KeyError)
  }

  /** The two Ka maps are inverse to each other, and are defined on R, L and on feeds 1, 2 only. */
  lemma KaMapsInverse(pol: string, feed: int)
    ensures KaFeed(pol).Ok? <==> pol == "R" || pol == "L"
    ensures KaPol(feed).Ok? <==> feed == 1 || feed == 2
    ensures KaFeed(pol).Ok? ==> KaPol(KaFeed(pol).value) == Ok(pol)
    ensures KaPol(feed).Ok? ==> KaFeed(KaPol(feed).value) == Ok(feed)
  {
  }

  /** The feed a lookup uses: Ka's overrides replace it by the polarization's feed. */
  function FeedFor(kind: Subclass, feed: int, pol: string): Result<int>
  {
    if kind == Ka then KaFeed(pol) else Ok(feed)
  }

  // ---- getFreqForData ----

  /** Calibrator.getFreqForData: the single CENTER_SKY of the feed's rows with the polarization. */
  function BaseFreqForData(t: DcrTable, feed: int, pol: string): Result<real>
  {
    if !Constants.IsValid(Constants.POLS, pol) then Err(ValueError(PolMsg()))
    else
      var rows := PolRows(t.rows, feed, pol);
      if |SortedUnique(CenterSkies(rows), RealLess)| != 1 then Err(ValueError(FreqMsg()))
      else
        OneDistinct(CenterSkies(rows));
        Ok(rows[0].centerSky)
  }

  function FreqForData(kind: Subclass, t: DcrTable, feed: int, pol: string): Result<real>
  {
    var f :- FeedFor(kind, feed, pol);
    BaseFreqForData(t, f, pol)
  }

  /**
   * getFreqForData succeeds exactly for one of X, Y, L, R carried by rows of
   * the feed that all share one CENTER_SKY, which it returns.  Ka looks in
   * the polarization's own feed, and raises KeyError for X and Y.
   */
  lemma FreqForDataMeaning(kind: Subclass, t: DcrTable, feed: int, pol: string)
    ensures kind == Ka && pol != "R" && pol != "L" ==> FreqForData(kind, t, feed, pol) == Err(KeyError)
    ensures FeedFor(kind, feed, pol).Ok? ==>
      var f := FeedFor(kind, feed, pol).value;
      var rows := PolRows(t.rows, f, pol);
      (FreqForData(kind, t, feed, pol).Ok? <==>
        (pol == "X" || pol == "Y" || pol == "L" || pol == "R") && |rows| > 0 &&
        forall i :: 0 <= i < |rows| ==> rows[i].centerSky == rows[0].centerSky) &&
      (FreqForData(kind, t, feed, pol).Ok? ==>
        forall x :: x in t.rows && x.feed == f && x.polarize == pol ==> x.centerSky == FreqForData(kind, t, feed, pol).value)
  {
    Constants.PolsValid(pol);
    if FeedFor(kind, feed, pol).Ok? {
      var f := FeedFor(kind, feed, pol).value;
      var rows := PolRows(t.rows, f, pol);
      OneDistinct(CenterSkies(rows));
      if FreqForData(kind, t, feed, pol).Ok? {
        forall x | x in t.rows && x.feed == f && x.polarize == pol
          ensures x.centerSky == FreqForData(kind, t, feed, pol).value
        {
          assert x in rows;
          var i :| 0 <= i < |rows| && rows[i] == x;
          assert CenterSkies(rows)[i] == CenterSkies(rows)[0];
        }
      }
    }
  }

  // ---- getRawPower ----

  /** The single row's DATA, as `table[mask]['DATA']` with the length check. */
  function OneRowData(rows: seq<DcrRow>): Result<seq<real>>
  {
    if |rows| != 1 then Err(ValueError(OneRowMsg())) else Ok(rows[0].data)
  }

  /** The signal phase: (0, 0) when the table has several phases, else its only one. */
  function SignalPhase(t: DcrTable): Result<StateRow>
  {
    var phases := CalSeqScans.Phases(t.rows);
    if |phases| > 1 then Ok(StateRow(0, 0))
    else if |phases| == 0 then Err(IndexError)
    else Ok(phases[0])
  }

  /** The reference phase (SIGREF 1, CAL 0). */
  function RefPhase(): StateRow { StateRow(1, 0) }

  function SignalRawPower(t: DcrTable, feed: int, pol: string, freq: real): Result<seq<real>>
  {
    var phase :- SignalPhase(t);
    OneRowData(PhaseRows(t.rows, feed, pol, freq, phase))
  }

  /** getRefRawPower: None when the table has no reference phase. */
  function RefRawPower(t: DcrTable, feed: int, pol: string, freq: real): Result<Option<seq<real>>>
  {
    if RefPhase() !in CalSeqScans.Phases(t.rows) then Ok(None)
    else
      var data :- OneRowData(PhaseRows(t.rows, feed, pol, freq, RefPhase()));
      Ok(Some(data))
  }

  /** a − b elementwise; series of different lengths do not broadcast. */
  function Difference(a: seq<real>, b: seq<real>): (r: Result<seq<real>>)
    ensures r.Ok? <==> |a| == |b|
    ensures r.Ok? ==> |r.value| == |a| && forall j :: 0 <= j < |a| ==> r.value[j] == a[j] - b[j]
    ensures r.Err? ==> r.error == ValueError(InterOps.BroadcastMsg())
  {
    if |a| != |b| then Err(ValueError(InterOps.BroadcastMsg())) else Ok(Sub(a, b))
  }

  /** Calibrator.getRawPower: signal minus reference, or the signal alone without a reference phase. */
  function BaseRawPower(t: DcrTable, feed: int, pol: string, freq: real): Result<seq<real>>
  {
    var sig :- SignalRawPower(t, feed, pol, freq);
    var ref :- RefRawPower(t, feed, pol, freq);
    if ref.None? then Ok(sig) else Difference(sig, ref.value)
  }

  function RawPower(kind: Subclass, t: DcrTable, feed: int, pol: string, freq: real): Result<seq<real>>
  {
    var f :- FeedFor(kind, feed, pol);
    BaseRawPower(t, f, pol, freq)
  }

  /**
   * The raw power needs exactly one row in the signal phase, which is
   * (0, 0) when the table has several phases; with a (1, 0) phase in the
   * table it also needs exactly one reference row and is the signal DATA
   * minus the reference DATA, otherwise it is the signal DATA itself.
   */
  lemma RawPowerMeaning(t: DcrTable, feed: int, pol: string, freq: real)
    ensures |CalSeqScans.Phases(t.rows)| > 1 ==> SignalPhase(t) == Ok(StateRow(0, 0))
    ensures |CalSeqScans.Phases(t.rows)| == 1 ==> SignalPhase(t) == Ok(CalSeqScans.Phases(t.rows)[0])
    ensures BaseRawPower(t, feed, pol, freq).Ok? ==>
      var sig := PhaseRows(t.rows, feed, pol, freq, SignalPhase(t).value);
      var ref := PhaseRows(t.rows, feed, pol, freq, RefPhase());
      var r := BaseRawPower(t, feed, pol, freq).value;
      SignalPhase(t).Ok? && |sig| == 1 &&
      (RefPhase() in CalSeqScans.Phases(t.rows) ==>
         |ref| == 1 && |r| == |sig[0].data| == |ref[0].data| &&
         forall j :: 0 <= j < |r| ==> r[j] == sig[0].data[j] - ref[0].data[j]) &&
      (RefPhase() !in CalSeqScans.Phases(t.rows) ==> r == sig[0].data)
    ensures BaseRawPower(t, feed, pol, freq).Err? ==>
      BaseRawPower(t, feed, pol, freq).error in {IndexError, ValueError(OneRowMsg()), ValueError(InterOps.BroadcastMsg())}
  {
  }

  /** A table without rows has no phase: the raw power fails with IndexError. */
  lemma RawPowerOfEmpty(t: DcrTable, feed: int, pol: string, freq: real)
    requires |t.rows| == 0
    ensures BaseRawPower(t, feed, pol, freq) == Err(IndexError)
  {
    assert seq(|t.rows|, i requires 0 <= i < |t.rows| => CalSeqScans.StateOf(t.rows[i])) == [];
  }

  // ---- calibrateTotalPower ----

  /**
   * TraditionalCalibrator.calibrateTotalPower in the signal phase: exactly
   * one cal-on and one cal-off row with equal FACTOR, converted by the
   * antenna-temperature formula with that FACTOR as Tcal.
   */
  function TraditionalTotalPower(t: DcrTable, feed: int, pol: string, freq: real): Result<seq<real>>
  {
    var rows := FreqRows(t.rows, feed, pol, freq);
    var on, off := CalRows(rows, 1, 0), CalRows(rows, 0, 0);
    if |on| != 1 || |off| != 1 then Err(ValueError(OnOffMsg()))
    else if on[0].factor != off[0].factor then Err(ValueError(FactorMsg()))
    else Decode.AntennaTemperature(on[0].data, off[0].data, on[0].factor)
  }

  /** CalSeqCalibrator.calibrateTotalPower: the one CAL = 0 row of any SIGREF, centred on its median and scaled by its gain. */
  function CalSeqTotalPower(t: DcrTable, feed: int, pol: string, freq: real): Result<seq<real>>
  {
    Converter.CalSeqTotalPower(t.(rows := Filter(FreqRows(t.rows, feed, pol, freq), (x: DcrRow) => x.cal == 0)))
  }

  /** calibrateTotalPower of each class; the base class has none. */
  function TotalPower(kind: Subclass, t: DcrTable, feed: int, pol: string, freq: real): Result<seq<real>>
  {
    match kind
    case Base => Err(AttributeError)
    case Traditional => TraditionalTotalPower(t, feed, pol, freq)
    case Ka =>
      var f :- KaFeed(pol);
      TraditionalTotalPower(t, f, pol, freq)
    case CalSeq => CalSeqTotalPower(t, feed, pol, freq)
  }

  /**
   * Traditional total power succeeds exactly with one cal-on and one
   * cal-off row of equal FACTOR in the signal phase whose counts convert;
   * counts that are a gain times a sky temperature, with the diode adding
   * the gain times FACTOR, convert back to that temperature.
   */
  lemma TraditionalTotalPowerMeaning(t: DcrTable, feed: int, pol: string, freq: real)
    ensures var rows := FreqRows(t.rows, feed, pol, freq);
      var on, off := CalRows(rows, 1, 0), CalRows(rows, 0, 0);
      TraditionalTotalPower(t, feed, pol, freq).Ok? ==>
        |on| == 1 && |off| == 1 && on[0].factor == off[0].factor &&
        on[0] in t.rows && on[0].feed == feed && on[0].polarize == pol && on[0].centerSky == freq &&
        on[0].cal == 1 && on[0].sigref == 0 &&
        off[0] in t.rows && off[0].feed == feed && off[0].polarize == pol && off[0].centerSky == freq &&
        off[0].cal == 0 && off[0].sigref == 0 &&
        TraditionalTotalPower(t, feed, pol, freq) == Decode.AntennaTemperature(on[0].data, off[0].data, on[0].factor)
  {
    var rows := FreqRows(t.rows, feed, pol, freq);
    var on, off := CalRows(rows, 1, 0), CalRows(rows, 0, 0);
    if |on| == 1 && |off| == 1 {
      assert on[0] in on && off[0] in off;
    }
  }

  /** Counts that follow the diode model convert back to the sky temperatures. */
  lemma TraditionalRecovers(t: DcrTable, feed: int, pol: string, freq: real, temps: seq<real>, g: real)
    requires g != 0.0 && |temps| > 0
    requires var rows := FreqRows(t.rows, feed, pol, freq);
      var on, off := CalRows(rows, 1, 0), CalRows(rows, 0, 0);
      |on| == 1 && |off| == 1 && on[0].factor == off[0].factor != 0.0 &&
      |off[0].data| == |temps| && (forall j :: 0 <= j < |temps| ==> off[0].data[j] == g * temps[j]) &&
      |on[0].data| == |temps| && (forall j :: 0 <= j < |temps| ==> on[0].data[j] == off[0].data[j] + g * on[0].factor)
    ensures TraditionalTotalPower(t, feed, pol, freq) == Ok(temps)
  {
    var rows := FreqRows(t.rows, feed, pol, freq);
    var on, off := CalRows(rows, 1, 0), CalRows(rows, 0, 0);
    Decode.AntennaTemperatureRecovers(temps, g, on[0].factor, on[0].data, off[0].data);
  }

  /**
   * CalSeq total power succeeds exactly with one CAL = 0 row of the feed,
   * polarization and frequency; each sample is that row's gain times the
   * sample's distance from the median, so a gain of 1.0 leaves the
   * median-centred counts.
   */
  lemma CalSeqTotalPowerMeaning(t: DcrTable, feed: int, pol: string, freq: real)
    ensures var off := Filter(FreqRows(t.rows, feed, pol, freq), (x: DcrRow) => x.cal == 0);
      (CalSeqTotalPower(t, feed, pol, freq).Ok? <==> |off| == 1) &&
      (CalSeqTotalPower(t, feed, pol, freq).Ok? ==>
        var r := CalSeqTotalPower(t, feed, pol, freq).value;
        off[0] in t.rows && off[0].cal == 0 && off[0].feed == feed && off[0].polarize == pol && off[0].centerSky == freq &&
        |r| == |off[0].data| &&
        forall j :: 0 <= j < |r| ==> r[j] == off[0].factor * (off[0].data[j] - Median(off[0].data)))
  {
    var off := Filter(FreqRows(t.rows, feed, pol, freq), (x: DcrRow) => x.cal == 0);
    Converter.CalSeqTotalPowerMeaning(t.(rows := off));
    if |off| == 1 {
      assert off[0] in off;
    }
  }

  // ---- doMath ----

  /** The power of one feed and polarization: the frequency lookup, then total or raw power. */
  function Power(kind: Subclass, t: DcrTable, doGain: bool, feed: int, pol: string): Result<seq<real>>
  {
    var freq :- FreqForData(kind, t, feed, pol);
    if doGain then TotalPower(kind, t, feed, pol, freq) else RawPower(kind, t, feed, pol, freq)
  }

  /** The inner loop's step over the polarizations of one feed. */
  function PowerStep(kind: Subclass, t: DcrTable, doGain: bool, feed: int): string -> Result<seq<real>>
  {
    pol => Power(kind, t, doGain, feed, pol)
  }

  /** Ka's lookups ignore the feed they are given: the result depends on the polarization only. */
  lemma KaIgnoresFeed(t: DcrTable, doGain: bool, feed: int, feed': int, pol: string)
    ensures Power(Ka, t, doGain, feed, pol) == Power(Ka, t, doGain, feed', pol)
  {
  }

  predicate SameWidth(powers: seq<seq<real>>)
  {
    forall k :: 0 <= k < |powers| ==> |powers[k]| == |powers[0]|
  }

  /** Sample j of every series. */
  function Column(powers: seq<seq<real>>, j: nat): (r: seq<real>)
    ensures |r| == |powers|
  {
    seq(|powers|, k requires 0 <= k < |powers| => if j < |powers[k]| then powers[k][j] else 0.0)
  }

  /**
   * numpy.sum(polPowers, axis=0) / len(pols): the elementwise mean of
   * equally long series; the empty sum divided by zero is not finite.
   */
  function PolMean(powers: seq<seq<real>>): (r: Result<seq<real>>)
    ensures r.Ok? <==> |powers| > 0 && SameWidth(powers)
    ensures r.Ok? ==> |r.value| == |powers[0]|
  {
    if |powers| == 0 then Err(NonFinite)
    else if !SameWidth(powers) then Err(ValueError(InterOps.BroadcastMsg()))
    else Ok(seq(|powers[0]|, j requires 0 <= j < |powers[0]| => Sum(Column(powers, j)) / (|powers| as real)))
  }

  /** One polarization's mean is its own power. */
  lemma PolMeanSingle(p: seq<real>)
    ensures PolMean([p]) == Ok(p)
  {
    var r := PolMean([p]).value;
    forall j | 0 <= j < |p| ensures r[j] == p[j] {
      var col := Column([p], j);
      assert r[j] == Sum(col) / (1 as real);
      assert col == [p[j]];
      assert col[1..] == [];
      assert Sum(col) == p[j] + Sum([]);
    }
    assert r == p;
  }

  /** Two polarizations average sample by sample, in either order. */
  lemma PolMeanPair(a: seq<real>, b: seq<real>)
    requires |a| == |b|
    ensures PolMean([a, b]).Ok? && PolMean([a, b]) == PolMean([b, a])
    ensures forall j :: 0 <= j < |a| ==> PolMean([a, b]).value[j] == (a[j] + b[j]) / 2.0
  {
    var r, r' := PolMean([a, b]).value, PolMean([b, a]).value;
    forall j | 0 <= j < |a| ensures r[j] == (a[j] + b[j]) / 2.0 == r'[j] {
      var col, col' := Column([a, b], j), Column([b, a], j);
      assert r[j] == Sum(col) / (2 as real) && r'[j] == Sum(col') / (2 as real);
      assert col == [a[j], b[j]] && col' == [b[j], a[j]];
      assert col[1..] == [b[j]] && col[1..][1..] == [];
      assert col'[1..] == [a[j]] && col'[1..][1..] == [];
      assert Sum(col[1..][1..]) == 0.0 && Sum(col'[1..][1..]) == 0.0;
      assert Sum(col[1..]) == b[j] && Sum(col'[1..]) == a[j];
    }
    assert r == r';
  }

  /** totals[feed] = numpy.sum(polPowers, axis=0) / len(pols). */
  function FeedTotal(kind: Subclass, t: DcrTable, doGain: bool, pols: seq<string>, feed: int): Result<seq<real>>
  {
    var powers :- Collect(PowerStep(kind, t, doGain, feed), pols, []);
    PolMean(powers)
  }

  /** The outer loop's step: one feed's total. */
  function TotalStep(kind: Subclass, t: DcrTable, doGain: bool, pols: seq<string>): int -> Result<seq<real>>
  {
    feed => FeedTotal(kind, t, doGain, pols, feed)
  }

  /** The outer loop: each feed's total lands in the map; the first failing feed stops it. */
  function FeedTotals(total: int -> Result<seq<real>>, feeds: seq<int>, acc: map<int, seq<real>>): (r: Result<map<int, seq<real>>>)
    ensures r.Ok? ==> (forall f :: f in acc ==> f in r.value) && forall k :: 0 <= k < |feeds| ==> feeds[k] in r.value
  {
    if |feeds| == 0 then Ok(acc)
    else match total(feeds[0])
      case Err(e) => Err(e)
      case Ok(v) => FeedTotals(total, feeds[1..], acc[feeds[0] := v])
  }

  lemma FeedTotalsStep(total: int -> Result<seq<real>>, feeds: seq<int>, i: int, acc: map<int, seq<real>>)
    requires 0 <= i < |feeds|
    ensures FeedTotals(total, feeds[i..], acc) ==
      if total(feeds[i]).Err? then Err(total(feeds[i]).error)
      else FeedTotals(total, feeds[i + 1..], acc[feeds[i] := total(feeds[i]).value])
  {
    assert feeds[i..][1..] == feeds[i + 1..];
  }

  /**
   * The loop succeeds exactly when every feed's total does; the map then
   * holds each listed feed's total and is otherwise what it was.
   */
  lemma {:induction false} FeedTotalsMeaning(total: int -> Result<seq<real>>, feeds: seq<int>, acc: map<int, seq<real>>)
    ensures FeedTotals(total, feeds, acc).Ok? <==> forall k :: 0 <= k < |feeds| ==> total(feeds[k]).Ok?
    ensures FeedTotals(total, feeds, acc).Ok? ==>
      var m := FeedTotals(total, feeds, acc).value;
      (forall f :: f in m ==> f in acc || f in feeds) &&
      (forall f :: f in acc ==> f in m) &&
      (forall k :: 0 <= k < |feeds| ==> feeds[k] in m && m[feeds[k]] == total(feeds[k]).value) &&
      (forall f :: f in acc && f !in feeds ==> m[f] == acc[f])
    ensures FeedTotals(total, feeds, acc).Err? ==>
      exists k :: 0 <= k < |feeds| && total(feeds[k]) == Err(FeedTotals(total, feeds, acc).error)
  {
    if |feeds| > 0 {
      var v := total(feeds[0]);
      assert forall k :: 0 <= k < |feeds[1..]| ==> feeds[1..][k] == feeds[k + 1];
      assert forall f :: f in feeds <==> f == feeds[0] || f in feeds[1..];
      if v.Ok? {
        FeedTotalsMeaning(total, feeds[1..], acc[feeds[0] := v.value]);
        var r := FeedTotals(total, feeds, acc);
        if r.Ok? {
          var m := r.value;
          forall k | 0 <= k < |feeds| ensures feeds[k] in m && m[feeds[k]] == total(feeds[k]).value {
            if k > 0 {
              assert feeds[k] == feeds[1..][k - 1];
            }
          }
        } else {
          var k :| 0 <= k < |feeds[1..]| && total(feeds[1..][k]) == Err(r.error);
          assert total(feeds[k + 1]) == Err(r.error);
        }
      } else {
        assert total(feeds[0]) == Err(FeedTotals(total, feeds, acc).error);
      }
    }
  }

  /** numpy.unique(table['POLARIZE']) */
  function UniquePols(rows: seq<DcrRow>): seq<string>
  {
    SortedUnique(Calibrators.Polarizations(rows), StrLess)
  }

  /**
   * doMath's checks and choices: every polarization must be one of X, Y,
   * L, R and the track beam one of the feeds; Avg uses all polarizations,
   * and without a reference beam only the track feed is processed.
   */
  function Plan(t: DcrTable, polOption: string, refBeam: bool): Result<(seq<string>, seq<int>)>
  {
    var allPols := UniquePols(t.rows);
    if !Constants.AreValid(Constants.POLS, allPols) then Err(ValueError(InvalidPolsMsg()))
    else if t.trackBeam !in UniqueFeeds(t) then Err(ValueError(TrackBeamMsg()))
    else Ok((if polOption == Calibrators.Avg() then allPols else [polOption],
             if refBeam then UniqueFeeds(t) else [t.trackBeam]))
  }

  /**
   * calibrateDualBeam: signal feed minus reference feed from the totals; Ka
   * overrides it with the beam-switched calibration.
   */
  function DualBeam(kind: Subclass, t: DcrTable, totals: map<int, seq<real>>): Result<seq<real>>
  {
    if kind == Ka then BeamSwitchedTBOnly(t)
    else
      var (sig, ref) :- GetSigAndRefFeeds(t);
      if sig !in totals || ref !in totals then Err(KeyError)
      else Difference(totals[sig], totals[ref])
  }

  /** The end of doMath: the dual-beam difference of exactly two feeds, or the track feed's total. */
  function Finish(kind: Subclass, t: DcrTable, totals: map<int, seq<real>>, refBeam: bool): Result<seq<real>>
  {
    if refBeam then
      if |UniqueFeeds(t)| != 2 then Err(ValueError(TwoFeedsMsg())) else DualBeam(kind, t, totals)
    else if t.trackBeam in totals then Ok(totals[t.trackBeam])
    else Err(KeyError)
  }

  function DoMathSpec(kind: Subclass, t: DcrTable, doGain: bool, polOption: string, refBeam: bool): Result<seq<real>>
  {
    var (pols, feeds) :- Plan(t, polOption, refBeam);
    var totals :- FeedTotals(TotalStep(kind, t, doGain, pols), feeds, map[]);
    Finish(kind, t, totals, refBeam)
  }

  /** The polarizations doMath averages: all of them for Avg, else the one named. */
  function ChosenPols(t: DcrTable, polOption: string): seq<string>
  {
    if polOption == Calibrators.Avg() then UniquePols(t.rows) else [polOption]
  }

  /** doMath raises ValueError for a polarization outside X, Y, L, R, or a track beam that is not a feed. */
  lemma DoMathChecks(kind: Subclass, t: DcrTable, doGain: bool, polOption: string, refBeam: bool)
    ensures !Constants.AreValid(Constants.POLS, UniquePols(t.rows)) ==>
      DoMathSpec(kind, t, doGain, polOption, refBeam) == Err(ValueError(InvalidPolsMsg()))
    ensures Constants.AreValid(Constants.POLS, UniquePols(t.rows)) && t.trackBeam !in UniqueFeeds(t) ==>
      DoMathSpec(kind, t, doGain, polOption, refBeam) == Err(ValueError(TrackBeamMsg()))
    ensures Plan(t, polOption, refBeam).Ok? <==>
      Constants.AreValid(Constants.POLS, UniquePols(t.rows)) && t.trackBeam in UniqueFeeds(t)
    ensures Plan(t, polOption, refBeam).Ok? ==>
      Plan(t, polOption, refBeam).value == (ChosenPols(t, polOption), if refBeam then UniqueFeeds(t) else [t.trackBeam])
  {
  }

  /** Without a reference beam, once the checks pass, the result is the track feed's mean power. */
  lemma DoMathTrackFeed(kind: Subclass, t: DcrTable, doGain: bool, polOption: string)
    requires Plan(t, polOption, false).Ok?
    ensures DoMathSpec(kind, t, doGain, polOption, false) == FeedTotal(kind, t, doGain, ChosenPols(t, polOption), t.trackBeam)
  {
    var total := TotalStep(kind, t, doGain, ChosenPols(t, polOption));
    FeedTotalsMeaning(total, [t.trackBeam], map[]);
  }

  /**
   * With a reference beam, outside Ka, once the checks pass and both feeds'
   * powers are defined: the table must have two feeds, and then the result
   * is the signal feed's mean power less the reference feed's.
   */
  lemma DoMathDualBeam(kind: Subclass, t: DcrTable, doGain: bool, polOption: string)
    requires kind != Ka && Plan(t, polOption, true).Ok?
    requires forall k :: 0 <= k < |UniqueFeeds(t)| ==> FeedTotal(kind, t, doGain, ChosenPols(t, polOption), UniqueFeeds(t)[k]).Ok?
    ensures |UniqueFeeds(t)| != 2 ==> DoMathSpec(kind, t, doGain, polOption, true) == Err(ValueError(TwoFeedsMsg()))
    ensures |UniqueFeeds(t)| == 2 ==>
      (GetSigAndRefFeeds(t).Ok? &&
       var (sig, ref) := GetSigAndRefFeeds(t).value;
       var pols := ChosenPols(t, polOption);
       sig != ref && {sig, ref} == {UniqueFeeds(t)[0], UniqueFeeds(t)[1]} &&
       DoMathSpec(kind, t, doGain, polOption, true) ==
         Difference(FeedTotal(kind, t, doGain, pols, sig).value, FeedTotal(kind, t, doGain, pols, ref).value))
  {
    var pols := ChosenPols(t, polOption);
    var total := TotalStep(kind, t, doGain, pols);
    DoMathSpecSteps(kind, t, doGain, polOption, true);
    DualBeamOfTotals(kind, t, total);
  }

  /** The dual-beam end of the feed loop, for any per-feed total that is defined on both feeds. */
  lemma DualBeamOfTotals(kind: Subclass, t: DcrTable, total: int -> Result<seq<real>>)
    requires kind != Ka
    requires forall k :: 0 <= k < |UniqueFeeds(t)| ==> total(UniqueFeeds(t)[k]).Ok?
    ensures FeedTotals(total, UniqueFeeds(t), map[]).Ok?
    ensures |UniqueFeeds(t)| != 2 ==>
      Finish(kind, t, FeedTotals(total, UniqueFeeds(t), map[]).value, true) == Err(ValueError(TwoFeedsMsg()))
    ensures |UniqueFeeds(t)| == 2 ==>
      (GetSigAndRefFeeds(t).Ok? &&
       var (sig, ref) := GetSigAndRefFeeds(t).value;
       sig != ref && {sig, ref} == {UniqueFeeds(t)[0], UniqueFeeds(t)[1]} &&
       Finish(kind, t, FeedTotals(total, UniqueFeeds(t), map[]).value, true) == Difference(total(sig).value, total(ref).value))
  {
    var feeds := UniqueFeeds(t);
    var none: map<int, seq<real>> := map[];
    FeedTotalsMeaning(total, feeds, none);
    var totals := FeedTotals(total, feeds, none).value;
    if |feeds| == 2 {
      FinishDualBeam(kind, t, totals);
      var (sig, ref) := GetSigAndRefFeeds(t).value;
      assert sig == feeds[0] || sig == feeds[1];
      assert ref == feeds[0] || ref == feeds[1];
    }
  }

  /** doMath runs the plan, the loop over the feeds, and the end, stopping at the first error. */
  lemma DoMathSpecSteps(kind: Subclass, t: DcrTable, doGain: bool, polOption: string, refBeam: bool)
    requires Plan(t, polOption, refBeam).Ok?
    ensures var (pols, feeds) := Plan(t, polOption, refBeam).value;
      var totals := FeedTotals(TotalStep(kind, t, doGain, pols), feeds, map[]);
      DoMathSpec(kind, t, doGain, polOption, refBeam) ==
        if totals.Err? then Err(totals.error) else Finish(kind, t, totals.value, refBeam)
  {
  }

  /** Outside Ka, the dual-beam end of doMath is totals[sig] − totals[ref], with both feeds among the table's two. */
  lemma FinishDualBeam(kind: Subclass, t: DcrTable, totals: map<int, seq<real>>)
    requires kind != Ka && |UniqueFeeds(t)| == 2
    requires forall k :: 0 <= k < |UniqueFeeds(t)| ==> UniqueFeeds(t)[k] in totals
    ensures GetSigAndRefFeeds(t).Ok?
    ensures var (sig, ref) := GetSigAndRefFeeds(t).value;
      sig != ref && {sig, ref} == {UniqueFeeds(t)[0], UniqueFeeds(t)[1]} && sig in totals && ref in totals &&
      Finish(kind, t, totals, true) == Difference(totals[sig], totals[ref])
  {
    SigAndRefFeedsMeaning(t);
    var (sig, ref) := GetSigAndRefFeeds(t).value;
    var feeds := UniqueFeeds(t);
    assert sig == feeds[0] || sig == feeds[1];
    assert ref == feeds[0] || ref == feeds[1];
  }

  /** With the polarization named, one polarization is used and the total is its power. */
  lemma SinglePolTotal(kind: Subclass, t: DcrTable, doGain: bool, pol: string, feed: int)
    ensures FeedTotal(kind, t, doGain, [pol], feed) == Power(kind, t, doGain, feed, pol)
  {
    CollectMeaning(PowerStep(kind, t, doGain, feed), [pol], []);
    if Power(kind, t, doGain, feed, pol).Ok? {
      PolMeanSingle(Power(kind, t, doGain, feed, pol).value);
    }
  }

  // ---- KaCalibrator.calibrateBeamSwitchedTBOnly ----

  /**
   * sigTa − refTa, both from the signal feed's rows at its polarization and
   * frequency: sigTa from the SIGREF 0 rows with the signal feed's Tcal,
   * refTa from the SIGREF 1 rows with the first reference-feed row's FACTOR.
   */
  function BeamSwitchedTBOnly(t: DcrTable): Result<seq<real>>
  {
    var (sig, ref) :- GetSigAndRefFeeds(t);
    var sigPol :- KaPol(sig);
    var sigFreq :- FreqForData(Ka, t, sig, sigPol);
    BeamSwitchedFrom(FreqRows(t.rows, sig, sigPol, sigFreq), RefTcal(t.rows, ref))
  }

  /** The FACTOR of the first row of the reference feed (an IndexError when it has none). */
  function RefTcal(rows: seq<DcrRow>, ref: int): Result<real>
  {
    var refRows := FeedRows(rows, ref);
    if |refRows| == 0 then Err(IndexError) else Ok(refRows[0].factor)
  }

  /** The arithmetic of calibrateBeamSwitchedTBOnly on the signal feed's rows sft. */
  function BeamSwitchedFrom(sft: seq<DcrRow>, refTcal: Result<real>): Result<seq<real>>
  {
    var sigOn, sigOff := CalRows(sft, 1, 0), CalRows(sft, 0, 0);
    if |sigOn| == 0 || |sigOff| == 0 then Err(IndexError)
    else if sigOn[0].factor != sigOff[0].factor then Err(ValueError(SigTcalMsg()))
    else if |SortedUnique(Factors(sft), RealLess)| != 1 then Err(ValueError(OneTcalMsg()))
    else
      var sigTa :- Decode.AntennaTemperature(sigOn[0].data, sigOff[0].data, sft[0].factor);
      var refOn, refOff := CalRows(sft, 1, 1), CalRows(sft, 0, 1);
      if |refOff| != 1 || |refOn| != 1 then Err(ValueError(RefRowsMsg()))
      else if refOn[0].factor != refOff[0].factor then Err(ValueError(RefTcalMsg()))
      else
        var rt :- refTcal;
        var refTa :- Decode.AntennaTemperature(refOn[0].data, refOff[0].data, rt);
        Difference(sigTa, refTa)
  }

  /**
   * The beam-switched result is the signal phase's temperature less the
   * reference phase's, both read from the signal feed's rows: with single
   * on and off rows in each phase, the only FACTOR of those rows as the
   * signal Tcal and the reference feed's FACTOR as the reference Tcal.
   */
  lemma BeamSwitchedMeaning(sft: seq<DcrRow>, refTcal: Result<real>)
    requires BeamSwitchedFrom(sft, refTcal).Ok?
    ensures var sigOn, sigOff, refOn, refOff := CalRows(sft, 1, 0), CalRows(sft, 0, 0), CalRows(sft, 1, 1), CalRows(sft, 0, 1);
      |sigOn| > 0 && |sigOff| > 0 && |refOn| == 1 && |refOff| == 1 && refTcal.Ok? &&
      (forall x :: x in sft ==> x.factor == sigOn[0].factor) &&
      var sigTa := Decode.AntennaTemperature(sigOn[0].data, sigOff[0].data, sigOn[0].factor);
      var refTa := Decode.AntennaTemperature(refOn[0].data, refOff[0].data, refTcal.value);
      sigTa.Ok? && refTa.Ok? && BeamSwitchedFrom(sft, refTcal) == Difference(sigTa.value, refTa.value)
  {
    var sigOn := CalRows(sft, 1, 0);
    assert sigOn[0] in sigOn;
    OneDistinct(Factors(sft));
    forall x | x in sft ensures x.factor == sft[0].factor {
      var i :| 0 <= i < |sft| && sft[i] == x;
      assert Factors(sft)[i] == Factors(sft)[0];
    }
  }

  /** Two row lists that differ at most in the DATA of the given feed's rows. */
  predicate SameButFeedData(a: seq<DcrRow>, b: seq<DcrRow>, feed: int)
  {
    |a| == |b| && forall i :: 0 <= i < |a| ==> a[i] == (if b[i].feed == feed then b[i].(data := a[i].data) else b[i])
  }

  /** A selection that keeps none of the changed rows is unchanged. */
  lemma {:induction false} FilterUnchanged(a: seq<DcrRow>, b: seq<DcrRow>, feed: int, keep: DcrRow -> bool)
    requires SameButFeedData(a, b, feed)
    requires forall x :: keep(x) ==> x.feed != feed
    ensures Filter(a, keep) == Filter(b, keep)
  {
    if |a| > 0 {
      FilterUnchanged(a[1..], b[1..], feed, keep);
    }
  }

  /** Changing the counts of a feed's rows keeps their first FACTOR. */
  lemma {:induction false} RefTcalUnchanged(a: seq<DcrRow>, b: seq<DcrRow>, feed: int)
    requires SameButFeedData(a, b, feed)
    ensures RefTcal(a, feed) == RefTcal(b, feed)
  {
    if |a| > 0 {
      assert SameButFeedData(a[1..], b[1..], feed);
      RefTcalUnchanged(a[1..], b[1..], feed);
    }
  }

  /** The Ka frequency lookup and selection of the signal feed do not see another feed's counts. */
  lemma KaSelectionUnchanged(t: DcrTable, rows': seq<DcrRow>, sig: int, ref: int, pol: string)
    requires sig != ref && SameButFeedData(rows', t.rows, ref) && KaFeed(pol) == Ok(sig)
    ensures FreqForData(Ka, t.(rows := rows'), sig, pol) == FreqForData(Ka, t, sig, pol)
    ensures forall freq :: FreqRows(rows', sig, pol, freq) == FreqRows(t.rows, sig, pol, freq)
  {
    FilterUnchanged(rows', t.rows, ref, (x: DcrRow) => x.feed == sig && x.polarize == pol);
    assert PolRows(rows', sig, pol) == PolRows(t.rows, sig, pol);
    forall freq ensures FreqRows(rows', sig, pol, freq) == FreqRows(t.rows, sig, pol, freq) {
      FilterUnchanged(rows', t.rows, ref, (x: DcrRow) => x.feed == sig && x.polarize == pol && x.centerSky == freq);
    }
  }

  /**
   * The beam-switched result reads the reference feed's rows only for their
   * Tcal: changing those rows' counts leaves it unchanged.
   */
  lemma BeamSwitchedIgnoresReferenceCounts(t: DcrTable, rows': seq<DcrRow>)
    requires GetSigAndRefFeeds(t).Ok?
    requires SameButFeedData(rows', t.rows, GetSigAndRefFeeds(t).value.1)
    ensures BeamSwitchedTBOnly(t.(rows := rows')) == BeamSwitchedTBOnly(t)
  {
    var (sig, ref) := GetSigAndRefFeeds(t).value;
    assert Feeds(rows') == Feeds(t.rows);
    assert GetSigAndRefFeeds(t.(rows := rows')) == GetSigAndRefFeeds(t);
    SigAndRefFeedsMeaning(t);
    RefTcalUnchanged(rows', t.rows, ref);
    if KaPol(sig).Ok? {
      KaSelectionUnchanged(t, rows', sig, ref, KaPol(sig).value);
    }
  }

  /** The beam-switched calibration needs the signal feed to be one of the Ka feeds 1 and 2. */
  lemma BeamSwitchedNeedsKaFeed(t: DcrTable)
    requires GetSigAndRefFeeds(t).Ok?
    requires GetSigAndRefFeeds(t).value.0 != 1 && GetSigAndRefFeeds(t).value.0 != 2
    ensures BeamSwitchedTBOnly(t) == Err(KeyError)
  {
  }

  // ---- findCalFactors and calibrate ----

  /** findCalFactors of each class: the new rows, and the error that stopped the loop. */
  function FactorsSpec(c: Calibrator, rows: seq<DcrRow>): (r: (seq<DcrRow>, Option<Error>))
  {
    match c.kind
    case Base => (rows, Some(NotImplemented))
    case Traditional => Calibrators.TraditionalFactors(rows, Calibrators.TcalOf(rows, c.rcvrCal))
    case Ka => Calibrators.TraditionalFactors(rows, Calibrators.TcalOf(rows, c.rcvrCal))
    case CalSeq => if c.gains.None? then (rows, None) else Calibrators.GainFactors(rows, c.gains.value)
  }

  /**
   * calibrate: a copy of the table with FACTOR = 1.0, findCalFactors only
   * when gains are wanted, then doMath on the updated copy.
   */
  function CalibrateSpec(c: Calibrator, polOption: string, doGain: bool, refBeam: bool): Result<seq<real>>
  {
    if c.ifDcrDataTable.hasFactor then Err(ValueError(DuplicateMsg()))
    else
      var t := Calibrators.WithUnitFactors(c.ifDcrDataTable);
      if !doGain then DoMathSpec(c.kind, t, false, polOption, refBeam)
      else
        var (rows, err) := FactorsSpec(c, t.rows);
        if err.Some? then Err(err.value) else DoMathSpec(c.kind, t.(rows := rows), true, polOption, refBeam)
  }

  /**
   * Without gains the calibration never consults the receiver calibration
   * table or the gains, and works on FACTOR = 1.0 throughout; the base
   * class cannot compute gains; a CalSeq calibrator without gains keeps
   * FACTOR at 1.0.
   */
  lemma CalibrateMeaning(c: Calibrator, polOption: string, refBeam: bool,
                         rcvrCal: seq<Decode.CalRow>, gains: Option<map<string, real>>)
    requires !c.ifDcrDataTable.hasFactor
    ensures CalibrateSpec(c, polOption, false, refBeam) ==
      CalibrateSpec(c.(rcvrCal := rcvrCal, gains := gains), polOption, false, refBeam)
    ensures CalibrateSpec(c, polOption, false, refBeam) ==
      DoMathSpec(c.kind, Calibrators.WithUnitFactors(c.ifDcrDataTable), false, polOption, refBeam)
    ensures c.kind == Base ==> CalibrateSpec(c, polOption, true, refBeam) == Err(NotImplemented)
    ensures c.kind == CalSeq && c.gains.None? ==>
      CalibrateSpec(c, polOption, true, refBeam) ==
        DoMathSpec(CalSeq, Calibrators.WithUnitFactors(c.ifDcrDataTable), true, polOption, refBeam)
  {
  }

  /**
   * The table calibrate works on: newTable, a copy of the input table with
   * a FACTOR column, and the calibratedData entry doMath puts in its meta.
   */
  class WorkTable {
    var rows: seq<DcrRow>
    var calibratedData: map<int, seq<real>>
    const receiver: string
    const trackBeam: int

    function Snapshot(): DcrTable
      reads this`rows
    {
      DcrTable(rows, receiver, trackBeam, true)
    }

    /** ifDcrDataTable.copy() with a FACTOR column of ones. */
    constructor (t: DcrTable)
      ensures Snapshot() == Calibrators.WithUnitFactors(t) && calibratedData == map[]
    {
      rows := Calibrators.WithUnitFactors(t).rows;
      receiver := t.receiver;
      trackBeam := t.trackBeam;
      calibratedData := map[];
    }

    /** Traditional findCalFactors: FACTOR = getTcal(...) for the rows of each grouping. */
    method StoreTcals(rcvrCal: seq<Decode.CalRow>) returns (err: Option<Error>)
      modifies this`rows
      ensures (rows, err) == Calibrators.TraditionalFactors(old(rows), Calibrators.TcalOf(old(rows), rcvrCal))
    {
      var rows0 := rows;
      var tcal := Calibrators.TcalOf(rows0, rcvrCal);
      var gs := Calibrators.Groups(rows0);
      var cur := rows0;
      var i := 0;
      while i < |gs|
        invariant 0 <= i <= |gs|
        invariant Calibrators.ApplyGroups(gs, tcal, rows0) == Calibrators.ApplyGroups(gs[i..], tcal, cur)
      {
        assert gs[i..][1..] == gs[i + 1..];
        var v := tcal(gs[i]);
        if v.Err? {
          rows := cur;
          return Some(v.error);
        }
        cur := Calibrators.SetFactor(cur, gs[i], v.value);
        i := i + 1;
      }
      rows := cur;
      return None;
    }

    /** CalSeq findCalFactors: FACTOR = gains[str(FEED) + POLARIZE], row by row. */
    method StoreGains(gains: map<string, real>) returns (err: Option<Error>)
      modifies this`rows
      ensures (rows, err) == Calibrators.GainFactors(old(rows), gains)
    {
      var rows0 := rows;
      ghost var k := Calibrators.FirstMissing(rows0, gains);
      var cur := rows0;
      var i := 0;
      while i < |rows0|
        invariant 0 <= i <= k && |cur| == |rows0|
        invariant forall j :: 0 <= j < |rows0| ==> cur[j] == if j < i then Calibrators.Gained(rows0[j], gains) else rows0[j]
      {
        var key := Calibrators.GainKey(rows0[i]);
        if key !in gains {
          Calibrators.GainedUpToMissing(rows0, gains, cur, i);
          rows := cur;
          return Some(KeyError);
        }
        assert i < k;
        cur := cur[i := rows0[i].(factor := gains[key])];
        i := i + 1;
      }
      Calibrators.GainedUpToMissing(rows0, gains, cur, i);
      rows := cur;
      return None;
    }
  }

  /** findCalFactors of the calibrator's class, on the working table. */
  method FindCalFactors(c: Calibrator, table: WorkTable) returns (err: Option<Error>)
    modifies table`rows
    ensures (table.rows, err) == FactorsSpec(c, old(table.rows))
  {
    match c.kind
    case Base =>
      err := Some(NotImplemented);
    case Traditional =>
      err := table.StoreTcals(c.rcvrCal);
    case Ka =>
      err := table.StoreTcals(c.rcvrCal);
    case CalSeq =>
      if c.gains.None? {
        err := None;
      } else {
        err := table.StoreGains(c.gains.value);
      }
  }

  /** The inner loop of doMath: the powers of one feed's polarizations, then their mean. */
  method FeedPower(kind: Subclass, t: DcrTable, doGain: bool, pols: seq<string>, feed: int) returns (r: Result<seq<real>>)
    ensures r == FeedTotal(kind, t, doGain, pols, feed)
  {
    var polPowers := PolPowers(PowerStep(kind, t, doGain, feed), pols);
    if polPowers.Err? {
      return Err(polPowers.error);
    }
    r := PolMean(polPowers.value);
  }

  /** The loop over one feed's polarizations, each power computed by step. */
  method PolPowers(step: string -> Result<seq<real>>, pols: seq<string>) returns (r: Result<seq<seq<real>>>)
    ensures r == Collect(step, pols, [])
  {
    var polPowers := [];
    var j := 0;
    while j < |pols|
      invariant 0 <= j <= |pols|
      invariant Collect(step, pols, []) == Collect(step, pols[j..], polPowers)
    {
      CollectStep(step, pols, j, polPowers);
      var p := step(pols[j]);
      if p.Err? {
        return Err(p.error);
      }
      polPowers := polPowers + [p.value];
      j := j + 1;
    }
    assert pols[j..] == [];
    r := Ok(polPowers);
  }

  /** The outer loop of doMath: totals[feed] for each feed in turn. */
  method FeedLoop(kind: Subclass, t: DcrTable, doGain: bool, pols: seq<string>, feeds: seq<int>)
    returns (r: Result<map<int, seq<real>>>)
    ensures r == FeedTotals(TotalStep(kind, t, doGain, pols), feeds, map[])
  {
    var totals := map[];
    var i := 0;
    while i < |feeds|
      invariant 0 <= i <= |feeds|
      invariant FeedTotals(TotalStep(kind, t, doGain, pols), feeds, map[]) ==
        FeedTotals(TotalStep(kind, t, doGain, pols), feeds[i..], totals)
    {
      FeedTotalsStep(TotalStep(kind, t, doGain, pols), feeds, i, totals);
      var total := FeedPower(kind, t, doGain, pols, feeds[i]);
      if total.Err? {
        return Err(total.error);
      }
      totals := totals[feeds[i] := total.value];
      i := i + 1;
    }
    assert feeds[i..] == [];
    return Ok(totals);
  }

  /** doMath: the checks, the loop over the feeds, the totals stored in the table's meta, and the result. */
  method DoMath(kind: Subclass, table: WorkTable, doGain: bool, polOption: string, refBeam: bool)
    returns (r: Result<seq<real>>)
    modifies table`calibratedData
    ensures r == DoMathSpec(kind, table.Snapshot(), doGain, polOption, refBeam)
    ensures var t := table.Snapshot();
      var plan := Plan(t, polOption, refBeam);
      table.calibratedData ==
        if plan.Ok? && FeedTotals(TotalStep(kind, t, doGain, plan.value.0), plan.value.1, map[]).Ok?
        then FeedTotals(TotalStep(kind, t, doGain, plan.value.0), plan.value.1, map[]).value
        else old(table.calibratedData)
  {
    var t := table.Snapshot();
    var plan := Plan(t, polOption, refBeam);
    if plan.Err? {
      return Err(plan.error);
    }
    var (pols, feeds) := plan.value;
    var totals := FeedLoop(kind, t, doGain, pols, feeds);
    if totals.Err? {
      return Err(totals.error);
    }
    table.calibratedData := totals.value;
    r := Finish(kind, t, totals.value, refBeam);
  }

  /** Calibrator.calibrate. */
  method Calibrate(c: Calibrator, polOption: string, doGain: bool, refBeam: bool) returns (r: Result<seq<real>>)
    ensures r == CalibrateSpec(c, polOption, doGain, refBeam)
  {
    if c.ifDcrDataTable.hasFactor {
      return Err(ValueError(DuplicateMsg()));
    }
    var table := new WorkTable(c.ifDcrDataTable);
    if doGain {
      var err := FindCalFactors(c, table);
      if err.Some? {
        return Err(err.value);
      }
    }
    r := DoMath(c.kind, table, doGain, polOption, refBeam);
  }
}
