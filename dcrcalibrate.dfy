// The early dictionary-based calibration script of dcr_calibrate.py.  The
// data map reads (feed, polarization, frequency, phase name) to a pair of
// counts and Tcal.  The supported modes follow from how many phases and
// feeds the keys mention; calibrate takes the first frequency, averages the
// total power of the chosen polarizations for the first feed (or every
// feed in DualBeam mode), and returns the last feed's power or the
// difference of feeds 1 and 2.

module DcrCalibrate {
  import opened Wrappers
  import opened RealSeq
  import opened Ordering
  import Decode
  import SrcCalibrators

  /** A key of the data map: (feed, polarization, frequency, phase name). */
  datatype DataKey = DataKey(feed: int, pol: string, freq: real, phase: string)

  /** A value of the data map: the counts and the Tcal that goes with them. */
  datatype Entry = Entry(data: seq<real>, tcal: real)

  /** The data dictionary: its keys in iteration order, and the entries by key. */
  datatype DataMap = DataMap(keys: seq<DataKey>, entries: map<DataKey, Entry>)

  function Raw(): string { "Raw" }
  function TotalPowerMode(): string { "TotalPower" }
  function DualBeamMode(): string { "DualBeam" }
  function Avg(): string { "Avg" }
  function OnPhase(): string { "Signal / Cal" }
  function OffPhase(): string { "Signal / No Cal" }
  function ModeMsg(): string { "Mode not supported" }
  function PolMsg(): string { "pol not supported" }

  // ---- list(set(...)) of one key component, in order of first occurrence ----

  function KeyPhases(keys: seq<DataKey>): seq<string>
  {
    Dedup(seq(|keys|, i requires 0 <= i < |keys| => keys[i].phase))
  }

  function KeyFeeds(keys: seq<DataKey>): (r: seq<int>)
    ensures |r| > 0 <==> |keys| > 0
    ensures |keys| > 0 ==> r[0] == keys[0].feed
  {
    DedupHead(seq(|keys|, i requires 0 <= i < |keys| => keys[i].feed));
    Dedup(seq(|keys|, i requires 0 <= i < |keys| => keys[i].feed))
  }

  function KeyPols(keys: seq<DataKey>): (r: seq<string>)
    ensures |r| > 0 <==> |keys| > 0
    ensures |keys| > 0 ==> r[0] == keys[0].pol
  {
    DedupHead(seq(|keys|, i requires 0 <= i < |keys| => keys[i].pol));
    Dedup(seq(|keys|, i requires 0 <= i < |keys| => keys[i].pol))
  }

  function KeyFreqs(keys: seq<DataKey>): (r: seq<real>)
    ensures |r| > 0 <==> |keys| > 0
    ensures |keys| > 0 ==> r[0] == keys[0].freq
  {
    DedupHead(seq(|keys|, i requires 0 <= i < |keys| => keys[i].freq));
    Dedup(seq(|keys|, i requires 0 <= i < |keys| => keys[i].freq))
  }

  /** A non-empty list has distinct elements, and the first of them is its head. */
  lemma {:induction false} DedupHead<T(!new)>(s: seq<T>)
    ensures |Dedup(s)| > 0 <==> |s| > 0
    ensures |s| > 0 ==> Dedup(s)[0] == s[0]
  {
    if |s| > 0 {
      DedupHead(s[..|s| - 1]);
      if |s| > 1 {
        assert s[..|s| - 1][0] == s[0];
      }
    }
  }

  /**
   * getSupportedModes: Raw always; TotalPower as well when the keys have
   * more than one phase; DualBeam as well when they also have more than one
   * feed.  The list is always a prefix of Raw, TotalPower, DualBeam.
   */
  function SupportedModes(keys: seq<DataKey>): (r: seq<string>)
    ensures 1 <= |r| <= 3 && r == [Raw(), TotalPowerMode(), DualBeamMode()][..|r|]
    ensures TotalPowerMode() in r <==> |KeyPhases(keys)| > 1
    ensures DualBeamMode() in r <==> |KeyPhases(keys)| > 1 && |KeyFeeds(keys)| > 1
  {
    if |KeyPhases(keys)| <= 1 then [Raw()]
    else if |KeyFeeds(keys)| <= 1 then [Raw(), TotalPowerMode()]
    else [Raw(), TotalPowerMode(), DualBeamMode()]
  }

  /** The last supported mode, the default one, is the most capable the keys allow. */
  lemma DefaultModeIsHighest(keys: seq<DataKey>)
    ensures var modes := SupportedModes(keys);
      var last := modes[|modes| - 1];
      (last == DualBeamMode() <==> |KeyPhases(keys)| > 1 && |KeyFeeds(keys)| > 1) &&
      (last == TotalPowerMode() <==> |KeyPhases(keys)| > 1 && |KeyFeeds(keys)| <= 1) &&
      (last == Raw() <==> |KeyPhases(keys)| <= 1)
  {
  }

  /** getPolKey: X and L share the key XL, Y and R the key YR; anything else is a KeyError. */
  function PolKey(pol: string): (r: Result<string>)
    ensures r.Ok? <==> pol in ["X", "L", "Y", "R"]
    ensures r.Ok? ==> (r.value == "XL" <==> pol == "X" || pol == "L")
    ensures r.Ok? ==> (r.value == "YR" <==> pol == "Y" || pol == "R")
    ensures r.Err? ==> r.error == KeyError
  {
    if pol == "X" || pol == "L" then Ok("XL")
    else if pol == "Y" || pol == "R" then Ok("YR")
    else Err(KeyError)
  }

  /** Two polarizations share a key exactly when they are the two polarizations of one receptor pairing. */
  lemma PolKeyPairs(p: string, q: string)
    requires PolKey(p).Ok? && PolKey(q).Ok? && p != q
    ensures PolKey(p) == PolKey(q) <==> {p, q} == {"X", "L"} || {p, q} == {"Y", "R"}
  {
    if {p, q} == {"X", "L"} {
      assert p in {p, q};
    }
    if {p, q} == {"Y", "R"} {
      assert p in {p, q};
    }
  }

  /**
   * calibrateTotalPower: the antenna temperature of the (feed, pol, freq)
   * cal-on and cal-off counts, with the Tcal stored beside the cal-off
   * counts (the second unpacking overwrites the first); a missing key is a
   * KeyError.
   */
  function CalibrateTotalPower(d: DataMap, feed: int, pol: string, freq: real): Result<seq<real>>
  {
    var onKey, offKey := DataKey(feed, pol, freq, OnPhase()), DataKey(feed, pol, freq, OffPhase());
    if onKey !in d.entries || offKey !in d.entries then Err(KeyError)
    else Decode.AntennaTemperature(d.entries[onKey].data, d.entries[offKey].data, d.entries[offKey].tcal)
  }

  /**
   * Total power needs both phase entries; the cal-on entry's Tcal plays no
   * part: replacing it leaves the result unchanged.
   */
  lemma CalibrateTotalPowerMeaning(d: DataMap, feed: int, pol: string, freq: real, tcal: real)
    ensures var onKey, offKey := DataKey(feed, pol, freq, OnPhase()), DataKey(feed, pol, freq, OffPhase());
      (onKey !in d.entries || offKey !in d.entries ==> CalibrateTotalPower(d, feed, pol, freq) == Err(KeyError)) &&
      (onKey in d.entries ==>
        var d' := d.(entries := d.entries[onKey := d.entries[onKey].(tcal := tcal)]);
        CalibrateTotalPower(d', feed, pol, freq) == CalibrateTotalPower(d, feed, pol, freq))
  {
    var onKey, offKey := DataKey(feed, pol, freq, OnPhase()), DataKey(feed, pol, freq, OffPhase());
    assert onKey != offKey;
  }

  /** Counts that follow the diode model convert back to the sky temperatures. */
  lemma CalibrateTotalPowerRecovers(d: DataMap, feed: int, pol: string, freq: real, temps: seq<real>, g: real)
    requires g != 0.0 && |temps| > 0
    requires var onKey, offKey := DataKey(feed, pol, freq, OnPhase()), DataKey(feed, pol, freq, OffPhase());
      onKey in d.entries && offKey in d.entries && d.entries[offKey].tcal != 0.0 &&
      var on, off, tCal := d.entries[onKey].data, d.entries[offKey].data, d.entries[offKey].tcal;
      |off| == |temps| && (forall j :: 0 <= j < |temps| ==> off[j] == g * temps[j]) &&
      |on| == |temps| && (forall j :: 0 <= j < |temps| ==> on[j] == off[j] + g * tCal)
    ensures CalibrateTotalPower(d, feed, pol, freq) == Ok(temps)
  {
    var onKey, offKey := DataKey(feed, pol, freq, OnPhase()), DataKey(feed, pol, freq, OffPhase());
    Decode.AntennaTemperatureRecovers(temps, g, d.entries[offKey].tcal, d.entries[onKey].data, d.entries[offKey].data);
  }

  /** calibrateDualBeam: feed 1 less feed 2 when tracking with beam 1, else feed 2 less feed 1. */
  function CalibrateDualBeam(totals: map<int, seq<real>>, trackBeam: int): Result<seq<real>>
  {
    var (sig, ref) := if trackBeam == 1 then (1, 2) else (2, 1);
    if sig !in totals || ref !in totals then Err(KeyError)
    else SrcCalibrators.Difference(totals[sig], totals[ref])
  }

  /**
   * The dual-beam difference is signal less reference: it needs both feeds'
   * totals, and tracking with beam 2 (or any beam but 1) gives the negation
   * of tracking with beam 1.
   */
  lemma CalibrateDualBeamMeaning(totals: map<int, seq<real>>, trackBeam: int)
    ensures CalibrateDualBeam(totals, trackBeam).Ok? <==> 1 in totals && 2 in totals && |totals[1]| == |totals[2]|
    ensures trackBeam != 1 ==> CalibrateDualBeam(totals, trackBeam) == CalibrateDualBeam(totals, 2)
    ensures CalibrateDualBeam(totals, 1).Ok? ==>
      var a, b := CalibrateDualBeam(totals, 1).value, CalibrateDualBeam(totals, 2).value;
      |a| == |b| == |totals[1]| && (forall j :: 0 <= j < |a| ==> a[j] == totals[1][j] - totals[2][j] && b[j] == -a[j])
  {
  }

  // ---- calibrate ----

  /** The polarizations to average: all of them for Avg, else the one named. */
  function ChosenPols(keys: seq<DataKey>, polarization: string): seq<string>
  {
    if polarization == Avg() then KeyPols(keys) else [polarization]
  }

  /** The inner loop's step: the total power of one polarization of a feed. */
  function PolStep(d: DataMap, feed: int, freq: real): string -> Result<seq<real>>
  {
    pol => CalibrateTotalPower(d, feed, pol, freq)
  }

  /** totals[feed] = sum(polPowers) / len(pols). */
  function FeedTotal(d: DataMap, pols: seq<string>, freq: real, feed: int): Result<seq<real>>
  {
    var powers :- Collect(PolStep(d, feed, freq), pols, []);
    SrcCalibrators.PolMean(powers)
  }

  /** The outer loop's step. */
  function FeedStep(d: DataMap, pols: seq<string>, freq: real): int -> Result<seq<real>>
  {
    feed => FeedTotal(d, pols, freq, feed)
  }

  /** The feeds calibrate visits: all of them in DualBeam mode, else only the first. */
  function ChosenFeeds(keys: seq<DataKey>, mode: string): seq<int>
    requires |keys| > 0
  {
    if mode != DualBeamMode() then [KeyFeeds(keys)[0]] else KeyFeeds(keys)
  }

  /**
   * calibrate: IndexError without any key; otherwise the feed loop at the
   * first frequency, then the last feed's total, or the dual-beam difference
   * when DualBeam mode visited at least two feeds.
   */
  function CalibrateSpec(d: DataMap, mode: string, polarization: string, trackBeam: int): Result<seq<real>>
  {
    if |d.keys| == 0 then Err(IndexError)
    else
          var freq := KeyFreqs(d.keys)[0];
      var pols := ChosenPols(d.keys, polarization);
      var feeds := ChosenFeeds(d.keys, mode);
      var totals :- SrcCalibrators.FeedTotals(FeedStep(d, pols, freq), feeds, map[]);
      if mode != DualBeamMode() || |feeds| < 2 then Ok(totals[feeds[|feeds| - 1]])
      else CalibrateDualBeam(totals, trackBeam)
  }

  /** Only DualBeam mode differs: Raw mode calibrates the total power just as TotalPower mode does. */
  lemma RawModeIsTotalPower(d: DataMap, polarization: string, trackBeam: int)
    ensures CalibrateSpec(d, Raw(), polarization, trackBeam) == CalibrateSpec(d, TotalPowerMode(), polarization, trackBeam)
  {
  }

  /**
   * Outside DualBeam mode, with one polarization named, the result is the
   * total power of the first key's feed at the first key's frequency.
   */
  lemma SingleFeedTotalPower(d: DataMap, mode: string, pol: string, trackBeam: int)
    requires mode != DualBeamMode() && pol != Avg() && |d.keys| > 0
    ensures CalibrateSpec(d, mode, pol, trackBeam) == CalibrateTotalPower(d, d.keys[0].feed, pol, d.keys[0].freq)
  {
    var feed, freq := d.keys[0].feed, d.keys[0].freq;
    SrcCalibrators.FeedTotalsMeaning(FeedStep(d, [pol], freq), [feed], map[]);
    CollectMeaning(PolStep(d, feed, freq), [pol], []);
    assert FeedStep(d, [pol], freq)(feed) == FeedTotal(d, [pol], freq, feed);
    if CalibrateTotalPower(d, feed, pol, freq).Ok? {
      var p := CalibrateTotalPower(d, feed, pol, freq).value;
      assert Collect(PolStep(d, feed, freq), [pol], []) == Ok([p]);
      SrcCalibrators.PolMeanSingle(p);
    }
  }

  /** calibrate runs the feed loop over the chosen feeds at the first frequency, then picks its result. */
  lemma CalibrateSpecSteps(d: DataMap, mode: string, polarization: string, trackBeam: int)
    requires |d.keys| > 0
    ensures var total := FeedStep(d, ChosenPols(d.keys, polarization), KeyFreqs(d.keys)[0]);
      var feeds := ChosenFeeds(d.keys, mode);
      var totals := SrcCalibrators.FeedTotals(total, feeds, map[]);
      CalibrateSpec(d, mode, polarization, trackBeam) ==
        if totals.Err? then Err(totals.error)
        else if mode != DualBeamMode() || |feeds| < 2 then Ok(totals.value[feeds[|feeds| - 1]])
        else CalibrateDualBeam(totals.value, trackBeam)
  {
  }

  /** The dual-beam end of the loop reads only the totals of feeds 1 and 2. */
  lemma DualBeamOfTotals(total: int -> Result<seq<real>>, feeds: seq<int>, trackBeam: int)
    requires forall k :: 0 <= k < |feeds| ==> total(feeds[k]).Ok?
    requires 1 in feeds && 2 in feeds
    ensures SrcCalibrators.FeedTotals(total, feeds, map[]).Ok?
    ensures CalibrateDualBeam(SrcCalibrators.FeedTotals(total, feeds, map[]).value, trackBeam) ==
      CalibrateDualBeam(map[1 := total(1).value, 2 := total(2).value], trackBeam)
  {
    SrcCalibrators.FeedTotalsMeaning(total, feeds, map[]);
    var totals := SrcCalibrators.FeedTotals(total, feeds, map[]).value;
    var i :| 0 <= i < |feeds| && feeds[i] == 1;
    var j :| 0 <= j < |feeds| && feeds[j] == 2;
    assert totals[1] == total(1).value;
    assert totals[2] == total(2).value;
    DualBeamReadsOneAndTwo(totals, map[1 := total(1).value, 2 := total(2).value], trackBeam);
  }

  /** Without a feed 1 or a feed 2 the dual-beam end is a KeyError. */
  lemma DualBeamMissingFeed(total: int -> Result<seq<real>>, feeds: seq<int>, trackBeam: int)
    requires forall k :: 0 <= k < |feeds| ==> total(feeds[k]).Ok?
    requires 1 !in feeds || 2 !in feeds
    ensures SrcCalibrators.FeedTotals(total, feeds, map[]).Ok?
    ensures CalibrateDualBeam(SrcCalibrators.FeedTotals(total, feeds, map[]).value, trackBeam) == Err(KeyError)
  {
    SrcCalibrators.FeedTotalsMeaning(total, feeds, map[]);
    var totals := SrcCalibrators.FeedTotals(total, feeds, map[]).value;
    assert 1 !in totals || 2 !in totals;
  }

  /** The dual-beam difference depends on the totals of feeds 1 and 2 only. */
  lemma DualBeamReadsOneAndTwo(a: map<int, seq<real>>, b: map<int, seq<real>>, trackBeam: int)
    requires 1 in a && 2 in a && 1 in b && 2 in b && a[1] == b[1] && a[2] == b[2]
    ensures CalibrateDualBeam(a, trackBeam) == CalibrateDualBeam(b, trackBeam)
  {
  }

  /**
   * In DualBeam mode over at least two feeds whose totals are all defined,
   * the result is the dual-beam difference of feeds 1 and 2.
   */
  lemma DualBeamCalibration(d: DataMap, polarization: string, trackBeam: int)
    requires |d.keys| > 0 && |KeyFeeds(d.keys)| >= 2
    requires forall k :: 0 <= k < |KeyFeeds(d.keys)| ==>
      FeedTotal(d, ChosenPols(d.keys, polarization), KeyFreqs(d.keys)[0], KeyFeeds(d.keys)[k]).Ok?
    ensures var pols, freq := ChosenPols(d.keys, polarization), KeyFreqs(d.keys)[0];
      CalibrateSpec(d, DualBeamMode(), polarization, trackBeam) ==
        if 1 !in KeyFeeds(d.keys) || 2 !in KeyFeeds(d.keys) then Err(KeyError)
        else CalibrateDualBeam(map[1 := FeedTotal(d, pols, freq, 1).value, 2 := FeedTotal(d, pols, freq, 2).value], trackBeam)
  {
    var total := FeedStep(d, ChosenPols(d.keys, polarization), KeyFreqs(d.keys)[0]);
    CalibrateSpecSteps(d, DualBeamMode(), polarization, trackBeam);
    if 1 in KeyFeeds(d.keys) && 2 in KeyFeeds(d.keys) {
      DualBeamOfTotals(total, KeyFeeds(d.keys), trackBeam);
    } else {
      DualBeamMissingFeed(total, KeyFeeds(d.keys), trackBeam);
    }
  }

  /** The feed loop of calibrate, with its inner loop over the polarizations. */
  method Calibrate(d: DataMap, mode: string, polarization: string, trackBeam: int) returns (r: Result<seq<real>>)
    ensures r == CalibrateSpec(d, mode, polarization, trackBeam)
  {
    if |d.keys| == 0 {
      return Err(IndexError);
    }
    var freq := KeyFreqs(d.keys)[0];
    var pols := ChosenPols(d.keys, polarization);
    var feeds := ChosenFeeds(d.keys, mode);
    var totals := map[];
    var i := 0;
    while i < |feeds|
      invariant 0 <= i <= |feeds|
      invariant SrcCalibrators.FeedTotals(FeedStep(d, pols, freq), feeds, map[]) ==
        SrcCalibrators.FeedTotals(FeedStep(d, pols, freq), feeds[i..], totals)
    {
      SrcCalibrators.FeedTotalsStep(FeedStep(d, pols, freq), feeds, i, totals);
      var total := PolPowers(d, pols, freq, feeds[i]);
      if total.Err? {
        return Err(total.error);
      }
      totals := totals[feeds[i] := total.value];
      i := i + 1;
    }
    assert feeds[i..] == [];
    if mode != DualBeamMode() || |feeds| < 2 {
      r := Ok(totals[feeds[|feeds| - 1]]);
    } else {
      r := CalibrateDualBeam(totals, trackBeam);
    }
  }

  /** The inner loop: polPowers, then their mean. */
  method PolPowers(d: DataMap, pols: seq<string>, freq: real, feed: int) returns (r: Result<seq<real>>)
    ensures r == FeedTotal(d, pols, freq, feed)
  {
    var polPowers := [];
    var j := 0;
    while j < |pols|
      invariant 0 <= j <= |pols|
      invariant Collect(PolStep(d, feed, freq), pols, []) == Collect(PolStep(d, feed, freq), pols[j..], polPowers)
    {
      CollectStep(PolStep(d, feed, freq), pols, j, polPowers);
      var p := CalibrateTotalPower(d, feed, pols[j], freq);
      if p.Err? {
        return Err(p.error);
      }
      polPowers := polPowers + [p.value];
      j := j + 1;
    }
    assert pols[j..] == [];
    r := SrcCalibrators.PolMean(polPowers);
  }

  /**
   * calibrateDcrData on the data map: a mode must be supported and a
   * polarization other than Avg must occur in the keys; the mode defaults
   * to the last supported one, the polarization to the first one, and the
   * track beam is 1.
   */
  function CalibrateDcrDataSpec(d: DataMap, mode: Option<string>, polarization: Option<string>): Result<seq<real>>
  {
    var modes := SupportedModes(d.keys);
    var pols := KeyPols(d.keys);
    if mode.Some? && mode.value !in modes then Err(ValueError(ModeMsg()))
    else if polarization != Some(Avg()) && polarization.Some? && polarization.value !in pols then Err(ValueError(PolMsg()))
    else if polarization.None? && |pols| == 0 then Err(IndexError)
    else
      var m := if mode.Some? then mode.value else modes[|modes| - 1];
      var p := if polarization.Some? then polarization.value else pols[0];
      CalibrateSpec(d, m, p, 1)
  }

  method CalibrateDcrData(d: DataMap, mode: Option<string>, polarization: Option<string>) returns (r: Result<seq<real>>)
    ensures r == CalibrateDcrDataSpec(d, mode, polarization)
  {
    var modes := SupportedModes(d.keys);
    if mode.Some? && mode.value !in modes {
      return Err(ValueError(ModeMsg()));
    }
    var pols := KeyPols(d.keys);
    if polarization != Some(Avg()) && polarization.Some? && polarization.value !in pols {
      return Err(ValueError(PolMsg()));
    }
    var m := if mode.Some? then mode.value else modes[|modes| - 1];
    if polarization.None? && |pols| == 0 {
      return Err(IndexError);
    }
    var p := if polarization.Some? then polarization.value else pols[0];
    r := Calibrate(d, m, p, 1);
  }

  /**
   * The checks of calibrateDcrData: an unsupported mode and an absent
   * polarization are ValueErrors; with neither given, a map without keys
   * has no polarization to pick; DualBeam is the default exactly when the
   * keys have several phases and several feeds.
   */
  lemma CalibrateDcrDataMeaning(d: DataMap, mode: Option<string>, polarization: Option<string>)
    ensures mode.Some? && mode.value !in SupportedModes(d.keys) ==>
      CalibrateDcrDataSpec(d, mode, polarization) == Err(ValueError(ModeMsg()))
    ensures ((mode.None? || mode.value in SupportedModes(d.keys)) && polarization.Some? &&
             polarization.value != Avg() && polarization.value !in KeyPols(d.keys)) ==>
      CalibrateDcrDataSpec(d, mode, polarization) == Err(ValueError(PolMsg()))
    ensures |d.keys| == 0 && mode.None? && polarization.None? ==> CalibrateDcrDataSpec(d, mode, polarization) == Err(IndexError)
  {
  }

  /** With neither given, the mode is the highest supported and the polarization the first key's. */
  lemma CalibrateDcrDataDefaults(d: DataMap)
    requires |d.keys| > 0
    ensures var modes := SupportedModes(d.keys);
      CalibrateDcrDataSpec(d, None, None) == CalibrateSpec(d, modes[|modes| - 1], d.keys[0].pol, 1)
  {
  }
}
