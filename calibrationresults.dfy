// CalibrationResults: the bookkeeping of one W-band calibration sequence.
// Each arriving scan says where it sits in its sequence (PROCSEQN of
// PROCSIZE); the object collects the sequence's scans, and once it has all
// of them gathers their classified data, averages the load temperatures of
// the Cold scans and computes, per channel, the gain
// (Twarm - Tcold) / (median(Vwarm) - median(Vcold)) and the system
// temperature of each sky position.

module CalResults {
  import opened Wrappers
  import opened RealSeq
  import opened Text
  import opened CalSeqScans

  // ---------------------------------------------------------------------
  // float64 results

  /** A numpy float64: a finite value, or one of inf and nan. */
  datatype Num = Finite(v: real) | NotFinite

  function Minus(a: Num, b: Num): (r: Num)
    ensures r.Finite? <==> a.Finite? && b.Finite?
    ensures r.Finite? ==> r.v == a.v - b.v
  {
    if a.Finite? && b.Finite? then Finite(a.v - b.v) else NotFinite
  }

  /** Division; a zero divisor gives inf or nan. */
  function Divide(a: Num, b: Num): (r: Num)
    ensures r.Finite? <==> a.Finite? && b.Finite? && b.v != 0.0
    ensures r.Finite? ==> r.v * b.v == a.v
  {
    if a.Finite? && b.Finite? && b.v != 0.0 then Finite(a.v / b.v) else NotFinite
  }

  /** numpy.mean; the mean of nothing is nan. */
  function MeanOf(s: seq<real>): Num
  {
    if |s| == 0 then NotFinite else Finite(Sum(s) / |s| as real)
  }

  /** numpy.median; the median of nothing is nan. */
  function MedianOf(s: seq<real>): Num
  {
    if |s| == 0 then NotFinite else Finite(Median(s))
  }

  /** gain * x for one sample. */
  function Scale(g: Num, x: real): Num
  {
    if g.Finite? then Finite(g.v * x) else NotFinite
  }

  /** gain * array */
  function ScaleAll(g: Num, s: seq<real>): (r: seq<Num>)
    ensures |r| == |s| && forall i :: 0 <= i < |s| ==> r[i] == Scale(g, s[i])
  {
    seq(|s|, i requires 0 <= i < |s| => Scale(g, s[i]))
  }

  function Times(g: real): real -> real
  {
    x => g * x
  }

  /** numpy.median(gain * array): every sample is non-finite when the gain is. */
  function MedianScaled(g: Num, s: seq<real>): Num
  {
    if g.Finite? && |s| > 0 then Finite(Median(Map(s, Times(g.v)))) else NotFinite
  }

  /** For a positive gain the system temperature is the gain times the median sample. */
  lemma MedianScaledMeaning(g: real, s: seq<real>)
    requires g > 0.0 && |s| > 0
    ensures MedianScaled(Finite(g), s) == Finite(g * Median(s))
  {
    AffineIsIncreasing(g, 0.0, Times(g));
    MedianMap(s, Times(g));
  }

  // ---------------------------------------------------------------------
  // The sequence's scan numbers

  /** determineScans: the scan numbers of the sequence this scan belongs to. */
  function DetermineScans(scannum: int, procseqn: int, procsize: int): seq<int>
  {
    var first := scannum - procseqn + 1;
    var n := if procsize > 0 then procsize else 0;
    seq(n, k requires 0 <= k < n => first + k)
  }

  /**
   * The sequence is procsize consecutive scans; it holds this scan exactly
   * when 1 <= procseqn <= procsize, at position procseqn.
   */
  lemma DetermineScansMeaning(scannum: int, procseqn: int, procsize: int)
    ensures var r := DetermineScans(scannum, procseqn, procsize);
      |r| == (if procsize > 0 then procsize else 0) &&
      (forall k :: 0 <= k < |r| - 1 ==> r[k + 1] == r[k] + 1) &&
      (|r| > 0 ==> r[0] == scannum - procseqn + 1) &&
      (scannum in r <==> 1 <= procseqn <= procsize) &&
      (1 <= procseqn <= procsize ==> r[procseqn - 1] == scannum)
  {
    var r := DetermineScans(scannum, procseqn, procsize);
    if scannum in r {
      var k :| 0 <= k < |r| && r[k] == scannum;
    }
    if 1 <= procseqn <= procsize {
      assert r[procseqn - 1] == scannum;
    }
  }

  /** No scan number appears twice, so a scan's position in the list is unique. */
  lemma DetermineScansDistinct(scannum: int, procseqn: int, procsize: int)
    ensures var r := DetermineScans(scannum, procseqn, procsize);
      forall i, j :: 0 <= i < j < |r| ==> r[i] < r[j]
  {
  }

  // ---------------------------------------------------------------------
  // Scans

  /**
   * One CalSeqScan after processCalseqScan: its backend name, CALPOS, the
   * receiver's Twarm and the configured Tcold, its channel list and scanData.
   */
  datatype ScanSummary = ScanSummary(backendName: string, calPos: string, twarm: real, tcold: real,
                                     channels: seq<string>, scanData: map<string, ChannelData>)

  /** A scan found by number: whether it is a calseq scan, its PROCSEQN and PROCSIZE. */
  datatype ScanCandidate = ScanCandidate(isCalSeq: bool, seqn: int, size: int, summary: ScanSummary)

  /** No element appears twice. */
  predicate Distinct<T(==)>(s: seq<T>)
  {
    forall a, b :: 0 <= a < b < |s| ==> s[a] != s[b]
  }

  /** The elements of a sequence as a set. */
  function Elements<T(==)>(s: seq<T>): set<T>
  {
    set x | x in s
  }

  /**
   * The scans dictionary: the scans by number, and the numbers in the
   * order they were first stored, which is the order they are visited in.
   */
  datatype ScanSet = ScanSet(order: seq<int>, byNumber: map<int, ScanSummary>)

  predicate WellFormed(ss: ScanSet)
  {
    Distinct(ss.order) &&
    (forall i :: 0 <= i < |ss.order| ==> ss.order[i] in ss.byNumber) &&
    forall k :: k in ss.byNumber ==> k in ss.order
  }

  /** scans[k] = v: a new number goes to the end of the order, a known one keeps its place. */
  function Put(ss: ScanSet, k: int, v: ScanSummary): (r: ScanSet)
    ensures r.byNumber == ss.byNumber[k := v]
    ensures WellFormed(ss) ==> WellFormed(r)
    ensures k in ss.byNumber ==> r.order == ss.order
    ensures k !in ss.byNumber ==> r.order == ss.order + [k]
  {
    ScanSet(if k in ss.byNumber then ss.order else ss.order + [k], ss.byNumber[k := v])
  }

  /** checkScan: a calseq scan at the expected place of a sequence of the expected size. */
  predicate CheckScan(scan: ScanCandidate, expectedSeqn: int, expectedSize: int)
  {
    scan.isCalSeq && scan.seqn == expectedSeqn && scan.size == expectedSize
  }

  /** addScan: a scan found in the lookup joins the set if it checks out. */
  function AddScanTo(scans: ScanSet, scannum: int, lookup: map<int, ScanCandidate>, seqn: int, size: int): ScanSet
  {
    if scannum in lookup && CheckScan(lookup[scannum], seqn, size) then Put(scans, scannum, lookup[scannum].summary) else scans
  }

  /** The completion loop from position i: every missing scan number is looked up. */
  function Complete(scans: ScanSet, scannums: seq<int>, lookup: map<int, ScanCandidate>, size: int, i: nat): (r: ScanSet)
    requires i <= |scannums|
    ensures WellFormed(scans) ==> WellFormed(r)
    decreases |scannums| - i
  {
    if i == |scannums| then scans
    else
      var s := scannums[i];
      var next := if s !in scans.byNumber then AddScanTo(scans, s, lookup, i + 1, size) else scans;
      Complete(next, scannums, lookup, size, i + 1)
  }

  /** A scan number that should be at position i and may join. */
  predicate Joins(scans: map<int, ScanSummary>, scannums: seq<int>, lookup: map<int, ScanCandidate>, size: int, i: int)
    requires 0 <= i < |scannums|
  {
    scannums[i] !in scans && scannums[i] in lookup && CheckScan(lookup[scannums[i]], i + 1, size)
  }

  /**
   * Completing keeps every scan already held and adds exactly the missing
   * scan numbers whose lookup checks out at their position.
   */
  lemma {:induction false} CompleteMeaning(scans: ScanSet, scannums: seq<int>, lookup: map<int, ScanCandidate>, size: int, i: nat)
    requires i <= |scannums| && Distinct(scannums)
    ensures var r := Complete(scans, scannums, lookup, size, i).byNumber;
      (forall s :: s in scans.byNumber ==> s in r && r[s] == scans.byNumber[s]) &&
      (forall s :: s in r && s !in scans.byNumber ==>
        exists k :: i <= k < |scannums| && scannums[k] == s && Joins(scans.byNumber, scannums, lookup, size, k) && r[s] == lookup[s].summary) &&
      (forall k :: i <= k < |scannums| && Joins(scans.byNumber, scannums, lookup, size, k) ==> scannums[k] in r)
    decreases |scannums| - i
  {
    if i < |scannums| {
      var s := scannums[i];
      var next := if s !in scans.byNumber then AddScanTo(scans, s, lookup, i + 1, size) else scans;
      CompleteMeaning(next, scannums, lookup, size, i + 1);
      forall k | i < k < |scannums| && Joins(scans.byNumber, scannums, lookup, size, k)
        ensures Joins(next.byNumber, scannums, lookup, size, k)
      {
        assert scannums[k] != s;
      }
      forall k | i < k < |scannums| && Joins(next.byNumber, scannums, lookup, size, k)
        ensures Joins(scans.byNumber, scannums, lookup, size, k)
      {
      }
    }
  }

  /** Without any scan to look up, completing adds nothing. */
  lemma {:induction false} CompleteWithoutLookup(scans: ScanSet, scannums: seq<int>, size: int, i: nat)
    requires i <= |scannums|
    ensures Complete(scans, scannums, map[], size, i) == scans
    decreases |scannums| - i
  {
    if i < |scannums| {
      CompleteWithoutLookup(scans, scannums, size, i + 1);
    }
  }

  /** The scan numbers held once this scan has arrived: a new first scan number starts a new set. */
  function Arrived(scans: ScanSet, firstscan: Option<int>, scannums: seq<int>, scanNum: int, scan: ScanSummary): ScanSet
    requires |scannums| > 0
  {
    Put(if firstscan == Some(scannums[0]) then scans else ScanSet([], map[]), scanNum, scan)
  }

  /**
   * Counting is enough: when the scans held all belong to the sequence,
   * holding as many scans as the sequence has means holding every one.
   */
  lemma {:induction false} HaveAllMeaning(keys: set<int>, scannums: seq<int>)
    requires Distinct(scannums)
    requires forall k :: k in keys ==> k in scannums
    ensures |keys| <= |scannums|
    ensures |keys| == |scannums| <==> forall i :: 0 <= i < |scannums| ==> scannums[i] in keys
  {
    if |scannums| == 0 {
      assert forall k :: k !in keys;
      assert keys == {};
    } else {
      var n := |scannums| - 1;
      var x := scannums[n];
      var rest := keys - {x};
      forall k | k in rest ensures k in scannums[..n] {
        var i :| 0 <= i < |scannums| && scannums[i] == k;
        assert i != n;
        assert scannums[..n][i] == k;
      }
      HaveAllMeaning(rest, scannums[..n]);
      if x in keys {
        assert |keys| == |rest| + 1;
      } else {
        assert rest == keys;
      }
      if forall i :: 0 <= i < |scannums| ==> scannums[i] in keys {
        forall i | 0 <= i < n ensures scannums[..n][i] in rest {
          assert scannums[..n][i] == scannums[i] != x;
        }
      } else {
        var j :| 0 <= j < |scannums| && scannums[j] !in keys;
        if j < n {
          assert scannums[..n][j] !in rest;
        }
      }
    }
  }

  // ---------------------------------------------------------------------
  // getCalSeqData

  /** What getCalSeqData gathers: the Cold scans' load temperatures and the per-channel entries. */
  datatype CalSeqAcc = CalSeqAcc(twarms: seq<real>, tcolds: seq<real>, data: map<string, Buckets>)

  /** One channel of one scan: an auto list replaces the entry, a manual pair is appended. */
  function AddChannel(data: map<string, Buckets>, sd: map<string, ChannelData>, channel: string): Result<map<string, Buckets>>
  {
    if channel !in sd then Err(KeyError)
    else if sd[channel].Auto? then Ok(data[channel := sd[channel].entries])
    else
      var prior := if channel in data then data[channel] else [];
      Ok(data[channel := prior + [(sd[channel].kind, sd[channel].data)]])
  }

  /** The loop over a scan's channel list, which holds each channel once per phase. */
  function AddChannels(data: map<string, Buckets>, sd: map<string, ChannelData>, chs: seq<string>): Result<map<string, Buckets>>
    decreases |chs|
  {
    if |chs| == 0 then Ok(data)
    else
      var d :- AddChannel(data, sd, chs[0]);
      AddChannels(d, sd, chs[1..])
  }

  /** How often a channel appears in the list. */
  function Count(chs: seq<string>, c: string): nat
  {
    if |chs| == 0 then 0 else (if chs[0] == c then 1 else 0) + Count(chs[1..], c)
  }

  lemma {:induction false} CountPositive(chs: seq<string>, c: string)
    ensures Count(chs, c) > 0 <==> c in chs
  {
    if |chs| > 0 {
      CountPositive(chs[1..], c);
      assert c in chs <==> c == chs[0] || c in chs[1..];
    }
  }

  function Copies(x: (string, seq<real>), n: nat): (r: Buckets)
    ensures |r| == n && forall i :: 0 <= i < n ==> r[i] == x
  {
    seq(n, i requires 0 <= i < n => x)
  }

  /** What a listed channel holds after a scan's channels are gathered. */
  function Gathered(data: map<string, Buckets>, sd: map<string, ChannelData>, chs: seq<string>, c: string): Buckets
    requires c in sd
  {
    if sd[c].Auto? then sd[c].entries
    else (if c in data then data[c] else []) + Copies((sd[c].kind, sd[c].data), Count(chs, c))
  }

  /** Gathering succeeds exactly when every listed channel has scanData; otherwise it is a KeyError. */
  lemma {:induction false} AddChannelsSucceeds(data: map<string, Buckets>, sd: map<string, ChannelData>, chs: seq<string>)
    ensures AddChannels(data, sd, chs).Ok? <==> forall i :: 0 <= i < |chs| ==> chs[i] in sd
    ensures AddChannels(data, sd, chs).Err? ==> AddChannels(data, sd, chs).error == KeyError
    decreases |chs|
  {
    if |chs| > 0 && chs[0] in sd {
      AddChannelsSucceeds(AddChannel(data, sd, chs[0]).value, sd, chs[1..]);
      assert forall i :: 1 <= i < |chs| ==> chs[i] == chs[1..][i - 1];
    }
  }

  /** A successful gathering holds the channels that were there or listed; unlisted ones keep their entries. */
  lemma {:induction false} AddChannelsKeys(data: map<string, Buckets>, sd: map<string, ChannelData>, chs: seq<string>)
    requires AddChannels(data, sd, chs).Ok?
    ensures var r := AddChannels(data, sd, chs).value;
      (forall c :: c in r <==> c in data || c in chs) &&
      forall c :: c in data && c !in chs ==> r[c] == data[c]
    decreases |chs|
  {
    if |chs| > 0 {
      AddChannelsKeys(AddChannel(data, sd, chs[0]).value, sd, chs[1..]);
      assert forall c :: c in chs <==> c == chs[0] || c in chs[1..];
    }
  }

  /** One step of the gathering, seen from a channel that is listed again later. */
  lemma GatheredStep(data: map<string, Buckets>, sd: map<string, ChannelData>, chs: seq<string>, c: string)
    requires |chs| > 0 && chs[0] in sd && c in sd && c in chs[1..]
    ensures Gathered(AddChannel(data, sd, chs[0]).value, sd, chs[1..], c) == Gathered(data, sd, chs, c)
  {
    CountPositive(chs[1..], c);
    if c == chs[0] && sd[c].Manual? {
      var x := (sd[c].kind, sd[c].data);
      var prior := if c in data then data[c] else [];
      assert Copies(x, Count(chs, c)) == [x] + Copies(x, Count(chs[1..], c));
      assert prior + [x] + Copies(x, Count(chs[1..], c)) == prior + Copies(x, Count(chs, c));
    }
  }

  /**
   * After a successful gathering an auto channel holds its list and a
   * manual channel has gained its pair once per listing.
   */
  lemma {:induction false} AddChannelsListed(data: map<string, Buckets>, sd: map<string, ChannelData>, chs: seq<string>)
    requires AddChannels(data, sd, chs).Ok?
    ensures forall c :: c in chs ==>
      c in sd && c in AddChannels(data, sd, chs).value && AddChannels(data, sd, chs).value[c] == Gathered(data, sd, chs, c)
    decreases |chs|
  {
    if |chs| > 0 {
      var c0 := chs[0];
      var d := AddChannel(data, sd, c0).value;
      AddChannelsListed(d, sd, chs[1..]);
      AddChannelsKeys(d, sd, chs[1..]);
      forall c | c in chs
        ensures c in sd && c in AddChannels(data, sd, chs).value && AddChannels(data, sd, chs).value[c] == Gathered(data, sd, chs, c)
      {
        if c in chs[1..] {
          GatheredStep(data, sd, chs, c);
        } else {
          assert c == c0;
          CountPositive(chs[1..], c);
        }
      }
    }
  }

  /** Whether a scan's CALPOS names a Cold position. */
  predicate IsCold(s: ScanSummary)
  {
    Contains(s.calPos, "Cold")
  }

  /** One scan of getCalSeqData. */
  function AddScanData(acc: CalSeqAcc, s: ScanSummary): Result<CalSeqAcc>
  {
    var d :- AddChannels(acc.data, s.scanData, s.channels);
    Ok(CalSeqAcc(acc.twarms + (if IsCold(s) then [s.twarm] else []),
                 acc.tcolds + (if IsCold(s) then [s.tcold] else []), d))
  }

  /** getCalSeqData's loop over the scans in the given order. */
  function GatherScans(scans: map<int, ScanSummary>, order: seq<int>, acc: CalSeqAcc): Result<CalSeqAcc>
    requires forall i :: 0 <= i < |order| ==> order[i] in scans
    decreases |order|
  {
    if |order| == 0 then Ok(acc)
    else
      var acc1 :- AddScanData(acc, scans[order[0]]);
      GatherScans(scans, order[1..], acc1)
  }

  /** What getCalSeqData makes of the scans held, visited in their dictionary order. */
  function Outcome(ss: ScanSet): Result<CalSeqAcc>
    requires WellFormed(ss)
  {
    GatherScans(ss.byNumber, ss.order, CalSeqAcc([], [], map[]))
  }

  /** The Twarm readings of the Cold scans, in order. */
  function ColdTwarms(scans: map<int, ScanSummary>, order: seq<int>): seq<real>
    requires forall i :: 0 <= i < |order| ==> order[i] in scans
  {
    if |order| == 0 then []
    else (if IsCold(scans[order[0]]) then [scans[order[0]].twarm] else []) + ColdTwarms(scans, order[1..])
  }

  /** The Tcold readings of the Cold scans, in order. */
  function ColdTcolds(scans: map<int, ScanSummary>, order: seq<int>): seq<real>
    requires forall i :: 0 <= i < |order| ==> order[i] in scans
  {
    if |order| == 0 then []
    else (if IsCold(scans[order[0]]) then [scans[order[0]].tcold] else []) + ColdTcolds(scans, order[1..])
  }

  /** Only the Cold scans contribute load temperatures, one reading each. */
  lemma {:induction false} GatherColdLoads(scans: map<int, ScanSummary>, order: seq<int>, acc: CalSeqAcc)
    requires forall i :: 0 <= i < |order| ==> order[i] in scans
    ensures GatherScans(scans, order, acc).Ok? ==>
      GatherScans(scans, order, acc).value.twarms == acc.twarms + ColdTwarms(scans, order) &&
      GatherScans(scans, order, acc).value.tcolds == acc.tcolds + ColdTcolds(scans, order)
    decreases |order|
  {
    if |order| > 0 {
      var r := AddScanData(acc, scans[order[0]]);
      if r.Ok? {
        GatherColdLoads(scans, order[1..], r.value);
        var s := scans[order[0]];
        var w := if IsCold(s) then [s.twarm] else [];
        var c := if IsCold(s) then [s.tcold] else [];
        assert acc.twarms + w + ColdTwarms(scans, order[1..]) == acc.twarms + (w + ColdTwarms(scans, order[1..]));
        assert acc.tcolds + c + ColdTcolds(scans, order[1..]) == acc.tcolds + (c + ColdTcolds(scans, order[1..]));
      }
    }
  }

  /** Twarm and Tcold are averaged over the Cold scans alone. */
  lemma OutcomeLoads(ss: ScanSet)
    requires WellFormed(ss)
    ensures Outcome(ss).Ok? ==>
      Outcome(ss).value.twarms == ColdTwarms(ss.byNumber, ss.order) &&
      Outcome(ss).value.tcolds == ColdTcolds(ss.byNumber, ss.order)
  {
    GatherColdLoads(ss.byNumber, ss.order, CalSeqAcc([], [], map[]));
  }

  // ---------------------------------------------------------------------
  // calcGainTsys

  /** channelData: the entries of a channel by type, a later entry replacing an earlier one. */
  function ChannelTable(entries: Buckets): map<string, seq<real>>
  {
    if |entries| == 0 then map[]
    else ChannelTable(entries[..|entries| - 1])[entries[|entries| - 1].0 := entries[|entries| - 1].1]
  }

  /** A type is in the table iff some entry has it, and it holds that type's last entry. */
  lemma {:induction false} ChannelTableMeaning(entries: Buckets, t: string)
    ensures t in ChannelTable(entries) <==> exists i :: 0 <= i < |entries| && entries[i].0 == t
    ensures t in ChannelTable(entries) ==>
      exists i :: 0 <= i < |entries| && entries[i].0 == t && ChannelTable(entries)[t] == entries[i].1 &&
        forall j :: i < j < |entries| ==> entries[j].0 != t
  {
    if |entries| > 0 {
      var n := |entries| - 1;
      ChannelTableMeaning(entries[..n], t);
      if entries[n].0 != t && t in ChannelTable(entries) {
        var i :| 0 <= i < n && entries[..n][i].0 == t && ChannelTable(entries[..n])[t] == entries[..n][i].1 &&
          forall j :: i < j < n ==> entries[..n][j].0 != t;
        assert forall j :: i < j < |entries| ==> entries[j].0 != t;
      }
      if exists i :: 0 <= i < |entries| && entries[i].0 == t {
        var i :| 0 <= i < |entries| && entries[i].0 == t;
        if i < n {
          assert entries[..n][i].0 == t;
        }
      }
    }
  }

  /** gain for one channel: 1.0 unless both Vwarm and Vcold are present. */
  function GainOf(twarm: Num, tcold: Num, t: map<string, seq<real>>): Num
  {
    if "Vwarm" in t && "Vcold" in t then
      Divide(Minus(twarm, tcold), Minus(MedianOf(t["Vwarm"]), MedianOf(t["Vcold"])))
    else Finite(1.0)
  }

  /**
   * With both loads present and finite, the gain turns the warm-minus-cold
   * counts back into Twarm - Tcold; a missing load gives gain 1.0.
   */
  lemma GainMeaning(twarm: real, tcold: real, t: map<string, seq<real>>)
    ensures !("Vwarm" in t && "Vcold" in t) ==> GainOf(Finite(twarm), Finite(tcold), t) == Finite(1.0)
    ensures ("Vwarm" in t && "Vcold" in t && |t["Vwarm"]| > 0 && |t["Vcold"]| > 0 &&
             Median(t["Vwarm"]) != Median(t["Vcold"])) ==>
      GainOf(Finite(twarm), Finite(tcold), t).Finite? &&
      GainOf(Finite(twarm), Finite(tcold), t).v * (Median(t["Vwarm"]) - Median(t["Vcold"])) == twarm - tcold
    ensures "Vwarm" in t && "Vcold" in t && (|t["Vwarm"]| == 0 || |t["Vcold"]| == 0) ==>
      GainOf(Finite(twarm), Finite(tcold), t) == NotFinite
  {
  }


  /** The sky positions a system temperature is computed for. */
  function Skies(): seq<string>
  {
    ["Observing", "Position2", "Position5"]
  }

  /** The gains of the given channels. */
  function GainMap(data: map<string, Buckets>, done: set<string>, twarm: Num, tcold: Num): map<string, Num>
  {
    map ch | ch in done && ch in data :: GainOf(twarm, tcold, ChannelTable(data[ch]))
  }

  /** The (channel, sky) keys of one channel: the listed sky positions it has data for. */
  function SkyKeys(ch: string, t: map<string, seq<real>>, skies: seq<string>): set<(string, string)>
  {
    set sky | sky in skies && sky in t :: (ch, sky)
  }

  /** One channel's system temperatures: the median of gain * data per sky position. */
  function SkyTsys(ch: string, g: Num, t: map<string, seq<real>>, skies: seq<string>): map<(string, string), Num>
  {
    if |skies| == 0 then map[]
    else
      var m := SkyTsys(ch, g, t, skies[..|skies| - 1]);
      var sky := skies[|skies| - 1];
      if sky in t then m[(ch, sky) := MedianScaled(g, t[sky])] else m
  }

  /** One channel's system-temperature arrays: gain * data per sky position. */
  function SkyTsysData(ch: string, g: Num, t: map<string, seq<real>>, skies: seq<string>): map<(string, string), seq<Num>>
  {
    if |skies| == 0 then map[]
    else
      var m := SkyTsysData(ch, g, t, skies[..|skies| - 1]);
      var sky := skies[|skies| - 1];
      if sky in t then m[(ch, sky) := ScaleAll(g, t[sky])] else m
  }

  /** A channel's sky entries are keyed by the listed sky positions it has data for. */
  lemma SkyTsysMeaning(ch: string, g: Num, t: map<string, seq<real>>, skies: seq<string>)
    ensures forall p :: p in SkyTsys(ch, g, t, skies) <==> p in SkyKeys(ch, t, skies)
    ensures forall p :: p in SkyTsysData(ch, g, t, skies) <==> p in SkyKeys(ch, t, skies)
    ensures forall p :: p in SkyTsys(ch, g, t, skies) ==> p.0 == ch && p.1 in t && SkyTsys(ch, g, t, skies)[p] == MedianScaled(g, t[p.1])
    ensures forall p :: p in SkyTsysData(ch, g, t, skies) ==> p.0 == ch && p.1 in t && SkyTsysData(ch, g, t, skies)[p] == ScaleAll(g, t[p.1])
  {
    SkyTsysKeys(ch, g, t, skies);
    SkyTsysDataKeys(ch, g, t, skies);
  }

  /** The sky positions of a list are those of its prefix and its last element. */
  lemma SkiesSnoc(skies: seq<string>)
    requires |skies| > 0
    ensures var n := |skies| - 1;
      (forall s :: s in skies <==> s in skies[..n] || s == skies[n])
  {
    var n := |skies| - 1;
    assert skies == skies[..n] + [skies[n]];
  }

  lemma {:induction false} SkyTsysKeys(ch: string, g: Num, t: map<string, seq<real>>, skies: seq<string>)
    ensures forall p :: p in SkyTsys(ch, g, t, skies) <==> p in SkyKeys(ch, t, skies)
    ensures forall p :: p in SkyTsys(ch, g, t, skies) ==> p.0 == ch && p.1 in t && SkyTsys(ch, g, t, skies)[p] == MedianScaled(g, t[p.1])
  {
    if |skies| > 0 {
      var n := |skies| - 1;
      SkyTsysKeys(ch, g, t, skies[..n]);
      SkiesSnoc(skies);
      assert SkyKeys(ch, t, skies) == SkyKeys(ch, t, skies[..n]) + (if skies[n] in t then {(ch, skies[n])} else {});
    }
  }

  lemma {:induction false} SkyTsysDataKeys(ch: string, g: Num, t: map<string, seq<real>>, skies: seq<string>)
    ensures forall p :: p in SkyTsysData(ch, g, t, skies) <==> p in SkyKeys(ch, t, skies)
    ensures forall p :: p in SkyTsysData(ch, g, t, skies) ==> p.0 == ch && p.1 in t && SkyTsysData(ch, g, t, skies)[p] == ScaleAll(g, t[p.1])
  {
    if |skies| > 0 {
      var n := |skies| - 1;
      SkyTsysDataKeys(ch, g, t, skies[..n]);
      SkiesSnoc(skies);
      assert SkyKeys(ch, t, skies) == SkyKeys(ch, t, skies[..n]) + (if skies[n] in t then {(ch, skies[n])} else {});
    }
  }

  /** The (channel, sky) keys of the given channels. */
  function TsysKeys(data: map<string, Buckets>, done: set<string>): set<(string, string)>
  {
    set ch, sky | ch in done && ch in data && sky in Skies() && sky in ChannelTable(data[ch]) :: (ch, sky)
  }

  /** The gain of a channel times its data at one sky position. */
  function TsysDataOf(data: map<string, Buckets>, twarm: Num, tcold: Num, ch: string, sky: string): seq<Num>
    requires ch in data && sky in ChannelTable(data[ch])
  {
    ScaleAll(GainOf(twarm, tcold, ChannelTable(data[ch])), ChannelTable(data[ch])[sky])
  }

  /** The median of a channel's gain times its data at one sky position. */
  function TsysOf(data: map<string, Buckets>, twarm: Num, tcold: Num, ch: string, sky: string): Num
    requires ch in data && sky in ChannelTable(data[ch])
  {
    MedianScaled(GainOf(twarm, tcold, ChannelTable(data[ch])), ChannelTable(data[ch])[sky])
  }

  /** Tsys[(channel, sky)] over the given channels. */
  function TsysMap(data: map<string, Buckets>, done: set<string>, twarm: Num, tcold: Num): map<(string, string), Num>
  {
    map p | p in TsysKeys(data, done) && p.0 in data && p.1 in ChannelTable(data[p.0]) :: TsysOf(data, twarm, tcold, p.0, p.1)
  }

  /** Tsys_data[(channel, sky)] over the given channels. */
  function TsysDataMap(data: map<string, Buckets>, done: set<string>, twarm: Num, tcold: Num): map<(string, string), seq<Num>>
  {
    map p | p in TsysKeys(data, done) && p.0 in data && p.1 in ChannelTable(data[p.0]) :: TsysDataOf(data, twarm, tcold, p.0, p.1)
  }

  /**
   * A channel has a system temperature for exactly the sky positions it
   * has data for, and it is the median of its gain times that data.
   */
  lemma TsysMapMeaning(data: map<string, Buckets>, twarm: Num, tcold: Num, ch: string, sky: string)
    requires ch in data
    ensures (ch, sky) in TsysMap(data, data.Keys, twarm, tcold) <==> sky in Skies() && sky in ChannelTable(data[ch])
    ensures (ch, sky) in TsysMap(data, data.Keys, twarm, tcold) ==>
      TsysMap(data, data.Keys, twarm, tcold)[(ch, sky)] ==
        MedianScaled(GainMap(data, data.Keys, twarm, tcold)[ch], ChannelTable(data[ch])[sky]) &&
      TsysDataMap(data, data.Keys, twarm, tcold)[(ch, sky)] ==
        ScaleAll(GainMap(data, data.Keys, twarm, tcold)[ch], ChannelTable(data[ch])[sky])
  {
    if sky in Skies() && sky in ChannelTable(data[ch]) {
      assert (ch, sky) in TsysKeys(data, data.Keys);
    }
  }

  /** Adding one channel to those done adds its gain. */
  lemma GainMapStep(data: map<string, Buckets>, done: set<string>, twarm: Num, tcold: Num, ch: string)
    requires ch in data
    ensures GainMap(data, done + {ch}, twarm, tcold) ==
      GainMap(data, done, twarm, tcold)[ch := GainOf(twarm, tcold, ChannelTable(data[ch]))]
  {
  }

  /** Adding one channel to those done adds its sky keys. */
  lemma TsysKeysStep(data: map<string, Buckets>, done: set<string>, ch: string)
    requires ch in data
    ensures TsysKeys(data, done + {ch}) == TsysKeys(data, done) + SkyKeys(ch, ChannelTable(data[ch]), Skies())
  {
    var t := ChannelTable(data[ch]);
    forall p | p in TsysKeys(data, done + {ch}) ensures p in TsysKeys(data, done) + SkyKeys(ch, t, Skies()) {
      if p.0 == ch {
        assert p.1 in Skies() && p.1 in t;
      }
    }
  }

  /** The entries of TsysMap and TsysDataMap, one key at a time. */
  lemma TsysMapAt(data: map<string, Buckets>, done: set<string>, twarm: Num, tcold: Num, p: (string, string))
    ensures p in TsysMap(data, done, twarm, tcold) <==> p in TsysKeys(data, done)
    ensures p in TsysDataMap(data, done, twarm, tcold) <==> p in TsysKeys(data, done)
    ensures p in TsysKeys(data, done) ==>
      (p.0 in data && p.1 in ChannelTable(data[p.0]) &&
       TsysMap(data, done, twarm, tcold)[p] == TsysOf(data, twarm, tcold, p.0, p.1) &&
       TsysDataMap(data, done, twarm, tcold)[p] == TsysDataOf(data, twarm, tcold, p.0, p.1))
  {
  }

  /** One key of TsysMapStep. */
  lemma TsysMapStepAt(data: map<string, Buckets>, done: set<string>, twarm: Num, tcold: Num, ch: string, p: (string, string))
    requires ch in data
    ensures var t := ChannelTable(data[ch]);
      var after, before, added := TsysMap(data, done + {ch}, twarm, tcold), TsysMap(data, done, twarm, tcold), SkyTsys(ch, GainOf(twarm, tcold, t), t, Skies());
      (p in after <==> p in before + added) && (p in after ==> after[p] == (before + added)[p])
  {
    TsysKeysStep(data, done, ch);
    var t := ChannelTable(data[ch]);
    SkyTsysKeys(ch, GainOf(twarm, tcold, t), t, Skies());
    TsysMapAt(data, done + {ch}, twarm, tcold, p);
    TsysMapAt(data, done, twarm, tcold, p);
  }

  /** One key of TsysDataMapStep. */
  lemma TsysDataMapStepAt(data: map<string, Buckets>, done: set<string>, twarm: Num, tcold: Num, ch: string, p: (string, string))
    requires ch in data
    ensures var t := ChannelTable(data[ch]);
      var after, before, added := TsysDataMap(data, done + {ch}, twarm, tcold), TsysDataMap(data, done, twarm, tcold), SkyTsysData(ch, GainOf(twarm, tcold, t), t, Skies());
      (p in after <==> p in before + added) && (p in after ==> after[p] == (before + added)[p])
  {
    TsysKeysStep(data, done, ch);
    var t := ChannelTable(data[ch]);
    SkyTsysDataKeys(ch, GainOf(twarm, tcold, t), t, Skies());
    TsysMapAt(data, done + {ch}, twarm, tcold, p);
    TsysMapAt(data, done, twarm, tcold, p);
  }

  /** Adding one channel to those done adds its system temperatures. */
  lemma TsysMapStep(data: map<string, Buckets>, done: set<string>, twarm: Num, tcold: Num, ch: string)
    requires ch in data
    ensures var t := ChannelTable(data[ch]);
      TsysMap(data, done + {ch}, twarm, tcold) ==
        TsysMap(data, done, twarm, tcold) + SkyTsys(ch, GainOf(twarm, tcold, t), t, Skies())
  {
    var t := ChannelTable(data[ch]);
    var after, before, added := TsysMap(data, done + {ch}, twarm, tcold), TsysMap(data, done, twarm, tcold), SkyTsys(ch, GainOf(twarm, tcold, t), t, Skies());
    forall p ensures (p in after <==> p in before + added) && (p in after ==> after[p] == (before + added)[p]) {
      TsysMapStepAt(data, done, twarm, tcold, ch, p);
    }
    MapsEqual(after, before + added);
  }

  lemma TsysDataMapStep(data: map<string, Buckets>, done: set<string>, twarm: Num, tcold: Num, ch: string)
    requires ch in data
    ensures var t := ChannelTable(data[ch]);
      TsysDataMap(data, done + {ch}, twarm, tcold) ==
        TsysDataMap(data, done, twarm, tcold) + SkyTsysData(ch, GainOf(twarm, tcold, t), t, Skies())
  {
    var t := ChannelTable(data[ch]);
    var after, before, added := TsysDataMap(data, done + {ch}, twarm, tcold), TsysDataMap(data, done, twarm, tcold), SkyTsysData(ch, GainOf(twarm, tcold, t), t, Skies());
    forall p ensures (p in after <==> p in before + added) && (p in after ==> after[p] == (before + added)[p]) {
      TsysDataMapStepAt(data, done, twarm, tcold, ch, p);
    }
    MapsEqual(after, before + added);
  }

  /** Two maps with the same keys and the same value at each are equal. */
  lemma MapsEqual<K, V>(a: map<K, V>, b: map<K, V>)
    requires forall k :: (k in a <==> k in b) && (k in a ==> a[k] == b[k])
    ensures a == b
  {
  }

  /** Storing into a merged dictionary is storing into its newer half. */
  lemma UpdateMerged<K, V>(a: map<K, V>, b: map<K, V>, k: K, v: V)
    ensures (a + b)[k := v] == a + b[k := v]
  {
  }

  lemma MergeAssociative<K, V>(a: map<K, V>, b: map<K, V>, c: map<K, V>)
    ensures (a + b) + c == a + (b + c)
  {
  }

  /** The gain and system-temperature dictionaries, as calcGainTsys fills them. */
  datatype GainTsys = GainTsys(gain: map<string, Num>, gainData: map<string, Num>,
                               tsys: map<(string, string), Num>, tsysData: map<(string, string), seq<Num>>)

  /** The dictionaries after one channel with table t and gain g: its gain, and its sky entries merged in. */
  function WithChannel(r: GainTsys, ch: string, g: Num, t: map<string, seq<real>>): GainTsys
  {
    GainTsys(r.gain[ch := g], r.gainData[ch := g], r.tsys + SkyTsys(ch, g, t, Skies()), r.tsysData + SkyTsysData(ch, g, t, Skies()))
  }

  /** The dictionaries once the given channels have been calibrated on top of base. */
  function Accumulated(base: GainTsys, data: map<string, Buckets>, done: set<string>, twarm: Num, tcold: Num): GainTsys
  {
    GainTsys(base.gain + GainMap(data, done, twarm, tcold), base.gainData + GainMap(data, done, twarm, tcold),
             base.tsys + TsysMap(data, done, twarm, tcold), base.tsysData + TsysDataMap(data, done, twarm, tcold))
  }

  /** With no channel calibrated the dictionaries are the starting ones. */
  lemma AccumulatedNone(base: GainTsys, data: map<string, Buckets>, twarm: Num, tcold: Num)
    ensures Accumulated(base, data, {}, twarm, tcold) == base
  {
    assert GainMap(data, {}, twarm, tcold) == map[];
    assert TsysKeys(data, {}) == {};
    assert TsysMap(data, {}, twarm, tcold) == map[];
    assert TsysDataMap(data, {}, twarm, tcold) == map[];
    assert base.gain + map[] == base.gain && base.gainData + map[] == base.gainData;
    assert base.tsys + map[] == base.tsys && base.tsysData + map[] == base.tsysData;
  }

  /** Calibrating one more channel stores its gain and merges in its sky entries. */
  lemma AccumulatedStep(base: GainTsys, data: map<string, Buckets>, done: set<string>, twarm: Num, tcold: Num, ch: string)
    requires ch in data
    ensures var t := ChannelTable(data[ch]);
      var g := GainOf(twarm, tcold, t);
      Accumulated(base, data, done + {ch}, twarm, tcold) == WithChannel(Accumulated(base, data, done, twarm, tcold), ch, g, t)
  {
    var t := ChannelTable(data[ch]);
    var g := GainOf(twarm, tcold, t);
    GainMapStep(data, done, twarm, tcold, ch);
    TsysMapStep(data, done, twarm, tcold, ch);
    TsysDataMapStep(data, done, twarm, tcold, ch);
    UpdateMerged(base.gain, GainMap(data, done, twarm, tcold), ch, g);
    UpdateMerged(base.gainData, GainMap(data, done, twarm, tcold), ch, g);
    MergeAssociative(base.tsys, TsysMap(data, done, twarm, tcold), SkyTsys(ch, g, t, Skies()));
    MergeAssociative(base.tsysData, TsysDataMap(data, done, twarm, tcold), SkyTsysData(ch, g, t, Skies()));
  }

  /** What saveData keeps: the project, the backend, the scan numbers, the gains and Tsys. */
  datatype CalData = CalData(project: string, backend: Option<string>, scans: seq<int>,
                             gain: map<string, Num>, tsys: map<(string, string), Num>)

  /** projPath.split('/')[-1] */
  function ProjectName(projPath: string): string
  {
    var parts := Split(projPath, '/');
    parts[|parts| - 1]
  }

  /** The project name is the last path component: it has no '/', and a bare name is kept whole. */
  lemma ProjectNameMeaning(projPath: string)
    ensures '/' !in ProjectName(projPath)
    ensures '/' !in projPath ==> ProjectName(projPath) == projPath
  {
    SplitPiecesFree(projPath, '/');
    if '/' !in projPath {
      SplitWithoutSep(projPath, '/');
    }
  }

  // ---------------------------------------------------------------------
  // The results object

  class CalibrationResults {
    var calibrated: bool
    var firstscan: Option<int>
    var backend: Option<string>
    var twarm: Option<Num>
    var tcold: Option<Num>
    var scans: ScanSet
    var scannums: seq<int>
    var gain: map<string, Num>
    var gainData: map<string, Num>
    var tsys: map<(string, string), Num>
    var tsysData: map<(string, string), seq<Num>>
    var calData: Option<CalData>

    predicate Valid()
      reads this
    {
      WellFormed(scans)
    }

    /** The slate InitObservation leaves. */
    predicate Clean()
      reads this
    {
      !calibrated && firstscan.None? && backend.None? && twarm.None? && tcold.None? &&
      scans == ScanSet([], map[]) && gain == map[] && gainData == map[] && tsys == map[] && tsysData == map[] &&
      calData.None?
    }

    function Results(): GainTsys
      reads this
    {
      GainTsys(gain, gainData, tsys, tsysData)
    }

    constructor ()
      ensures Valid() && Clean() && scannums == []
    {
      calibrated, firstscan, backend, twarm, tcold := false, None, None, None, None;
      scans, scannums := ScanSet([], map[]), [];
      gain, gainData, tsys, tsysData := map[], map[], map[], map[];
      calData := None;
    }

    /** InitObservation: a clean slate for a new sequence; the scan numbers stay. */
    method InitObservation()
      modifies this`calibrated, this`firstscan, this`backend, this`twarm, this`tcold, this`scans
      modifies this`gain, this`gainData, this`tsys, this`tsysData, this`calData
      ensures Valid() && Clean() && scannums == old(scannums)
    {
      calibrated, firstscan, backend, twarm, tcold := false, None, None, None, None;
      scans := ScanSet([], map[]);
      gain, gainData, tsys, tsysData := map[], map[], map[], map[];
      calData := None;
    }

    /** addScan, with the scan lookup as a table of the scans found by number. */
    method AddScan(scannum: int, lookup: map<int, ScanCandidate>, seqn: int, size: int)
      requires Valid()
      modifies this`scans
      ensures Valid() && scans == AddScanTo(old(scans), scannum, lookup, seqn, size)
    {
      if scannum !in lookup {
        return;
      }
      var scan := lookup[scannum];
      if CheckScan(scan, seqn, size) {
        scans := Put(scans, scannum, scan.summary);
      }
    }

    /** makeCalObservation: try to complete the set; are all scans there? */
    method MakeCalObservation(lookup: map<int, ScanCandidate>, procsize: int) returns (haveAll: bool)
      requires Valid()
      modifies this`scans
      ensures Valid()
      ensures scans == if |old(scans).byNumber| != |scannums| then Complete(old(scans), scannums, lookup, procsize, 0) else old(scans)
      ensures haveAll <==> |scans.byNumber| == |scannums|
    {
      if |scans.byNumber| != |scannums| {
        var i := 0;
        while i < |scannums|
          invariant 0 <= i <= |scannums| && Valid()
          invariant Complete(old(scans), scannums, lookup, procsize, 0) == Complete(scans, scannums, lookup, procsize, i)
        {
          if scannums[i] !in scans.byNumber {
            AddScan(scannums[i], lookup, i + 1, procsize);
          }
          i := i + 1;
        }
      }
      haveAll := |scans.byNumber| == |scannums|;
    }

    /** The table of one channel's entries, built by the loop over them. */
    static method BuildChannelTable(entries: Buckets) returns (t: map<string, seq<real>>)
      ensures t == ChannelTable(entries)
    {
      t := map[];
      var i := 0;
      while i < |entries|
        invariant 0 <= i <= |entries| && t == ChannelTable(entries[..i])
      {
        assert entries[..i + 1][..i] == entries[..i];
        t := t[entries[i].0 := entries[i].1];
        i := i + 1;
      }
      assert entries[..i] == entries;
    }

    /** The loop over one scan's channel list; keys lists the gathered channels as they first appear. */
    static method GatherChannels(data0: map<string, Buckets>, keys0: seq<string>, sd: map<string, ChannelData>, chs: seq<string>)
      returns (r: Result<map<string, Buckets>>, keys: seq<string>)
      requires Distinct(keys0) && Elements(keys0) == data0.Keys
      ensures r == AddChannels(data0, sd, chs)
      ensures r.Ok? ==> Distinct(keys) && Elements(keys) == r.value.Keys
    {
      var data := data0;
      keys := keys0;
      var i := 0;
      while i < |chs|
        invariant 0 <= i <= |chs|
        invariant AddChannels(data0, sd, chs) == AddChannels(data, sd, chs[i..])
        invariant Distinct(keys) && Elements(keys) == data.Keys
      {
        assert chs[i..][0] == chs[i] && chs[i..][1..] == chs[i + 1..];
        var channel := chs[i];
        if channel !in sd {
          return Err(KeyError), keys;
        }
        if channel !in data {
          keys := keys + [channel];
        }
        if sd[channel].Auto? {
          data := data[channel := sd[channel].entries];
        } else {
          var prior := if channel in data then data[channel] else [];
          data := data[channel := prior + [(sd[channel].kind, sd[channel].data)]];
        }
        i := i + 1;
      }
      assert chs[i..] == [];
      return Ok(data), keys;
    }

    /**
     * getCalSeqData: gather the scans in dictionary order; Twarm and Tcold
     * become the means over the Cold scans. chans lists the channels
     * gathered, each once.
     */
    method GetCalSeqData() returns (r: Result<map<string, Buckets>>, chans: seq<string>)
      requires Valid()
      modifies this`twarm, this`tcold
      ensures r.Err? ==> Outcome(scans).Err? && r.error == Outcome(scans).error && twarm == old(twarm) && tcold == old(tcold)
      ensures r.Ok? ==>
        Outcome(scans).Ok? && r.value == Outcome(scans).value.data &&
        twarm == Some(MeanOf(Outcome(scans).value.twarms)) && tcold == Some(MeanOf(Outcome(scans).value.tcolds)) &&
        Distinct(chans) && Elements(chans) == r.value.Keys
    {
      var tw: seq<real> := [];
      var tc: seq<real> := [];
      var data: map<string, Buckets> := map[];
      chans := [];
      var order := scans.order;
      var i := 0;
      while i < |order|
        invariant 0 <= i <= |order|
        invariant Outcome(scans) == GatherScans(scans.byNumber, order[i..], CalSeqAcc(tw, tc, data))
        invariant Distinct(chans) && Elements(chans) == data.Keys
        invariant twarm == old(twarm) && tcold == old(tcold)
      {
        assert order[i..][0] == order[i] && order[i..][1..] == order[i + 1..];
        var s := scans.byNumber[order[i]];
        var d;
        d, chans := GatherChannels(data, chans, s.scanData, s.channels);
        if d.Err? {
          assert AddScanData(CalSeqAcc(tw, tc, data), s) == Err(d.error);
          return Err(d.error), chans;
        }
        ghost var acc := CalSeqAcc(tw, tc, data);
        assert tw + [] == tw && tc + [] == tc;
        if IsCold(s) {
          tw := tw + [s.twarm];
          tc := tc + [s.tcold];
        }
        data := d.value;
        assert AddScanData(acc, s) == Ok(CalSeqAcc(tw, tc, data));
        i := i + 1;
      }
      assert order[i..] == [];
      twarm := Some(MeanOf(tw));
      tcold := Some(MeanOf(tc));
      return Ok(data), chans;
    }

    /** The sky loop of one channel: a system temperature for each sky position it has data for. */
    method AddSkies(ch: string, g: Num, t: map<string, seq<real>>)
      modifies this`tsys, this`tsysData
      ensures tsys == old(tsys) + SkyTsys(ch, g, t, Skies())
      ensures tsysData == old(tsysData) + SkyTsysData(ch, g, t, Skies())
    {
      var skies := Skies();
      var i := 0;
      while i < |skies|
        invariant 0 <= i <= |skies|
        invariant tsys == old(tsys) + SkyTsys(ch, g, t, skies[..i])
        invariant tsysData == old(tsysData) + SkyTsysData(ch, g, t, skies[..i])
      {
        assert skies[..i + 1][..i] == skies[..i];
        var sky := skies[i];
        if sky in t {
          var arr := ScaleAll(g, t[sky]);
          var med := MedianScaled(g, t[sky]);
          UpdateMerged(old(tsysData), SkyTsysData(ch, g, t, skies[..i]), (ch, sky), arr);
          UpdateMerged(old(tsys), SkyTsys(ch, g, t, skies[..i]), (ch, sky), med);
          tsysData := tsysData[(ch, sky) := arr];
          tsys := tsys[(ch, sky) := med];
        }
        i := i + 1;
      }
      assert skies[..i] == skies;
    }

    /** One channel of calcGainTsys: its gain, then its system temperatures. */
    method CalibrateChannel(data: map<string, Buckets>, ch: string, tw: Num, tc: Num)
      requires ch in data
      modifies this`gain, this`gainData, this`tsys, this`tsysData
      ensures var t := ChannelTable(data[ch]);
        Results() == WithChannel(old(Results()), ch, GainOf(tw, tc, t), t)
    {
      var t := BuildChannelTable(data[ch]);
      var g := GainOf(tw, tc, t);
      gainData := gainData[ch := g];
      gain := gain[ch := g];
      AddSkies(ch, g, t);
    }

    /**
     * calcGainTsys: gather the data, then per channel set the gain and the
     * system temperature of each sky position it has; afterwards the
     * results are complete.
     */
    method CalcGainTsys() returns (err: Option<Error>)
      requires Valid()
      modifies this`twarm, this`tcold, this`gain, this`gainData, this`tsys, this`tsysData, this`calibrated
      ensures err.Some? ==>
        Outcome(scans).Err? && err.value == Outcome(scans).error &&
        calibrated == old(calibrated) && Results() == old(Results())
      ensures err.None? ==>
        Outcome(scans).Ok? && calibrated &&
        var tw, tc := MeanOf(Outcome(scans).value.twarms), MeanOf(Outcome(scans).value.tcolds);
        twarm == Some(tw) && tcold == Some(tc) &&
        Results() == Accumulated(old(Results()), Outcome(scans).value.data, Outcome(scans).value.data.Keys, tw, tc)
    {
      var r, chans := GetCalSeqData();
      if r.Err? {
        return Some(r.error);
      }
      CalibrateChannels(r.value, chans, twarm.value, tcold.value);
      calibrated := true;
      err := None;
    }

    /** The channel loop of calcGainTsys. */
    method CalibrateChannels(data: map<string, Buckets>, chans: seq<string>, tw: Num, tc: Num)
      requires Elements(chans) == data.Keys
      modifies this`gain, this`gainData, this`tsys, this`tsysData
      ensures Results() == Accumulated(old(Results()), data, data.Keys, tw, tc)
    {
      ghost var base := Results();
      assert Elements(chans[..0]) == {};
      AccumulatedNone(base, data, tw, tc);
      var i := 0;
      while i < |chans|
        invariant 0 <= i <= |chans|
        invariant Results() == Accumulated(base, data, Elements(chans[..i]), tw, tc)
      {
        var ch := chans[i];
        assert Elements(chans[..i + 1]) == Elements(chans[..i]) + {ch} by {
          assert chans[..i + 1] == chans[..i] + [ch];
        }
        assert ch in data;
        AccumulatedStep(base, data, Elements(chans[..i]), tw, tc, ch);
        CalibrateChannel(data, ch, tw, tc);
        i := i + 1;
      }
      assert chans[..i] == chans;
    }

    /** saveData: keep the scan information with the gains and the system temperatures. */
    method SaveData(projectName: string)
      modifies this`calData
      ensures calData == Some(CalData(projectName, backend, scannums, gain, tsys))
    {
      calData := Some(CalData(projectName, backend, scannums, gain, tsys));
    }

    /**
     * makeCalScan for a scan at PROCSEQN of PROCSIZE: a scan of a new
     * sequence starts a clean slate; the scan joins the set, the set is
     * completed from the lookup, and a complete set is calibrated and saved.
     */
    method MakeCalScan(projPath: string, scanNum: int, procseqn: int, procsize: int, scan: ScanSummary, lookup: map<int, ScanCandidate>)
      returns (r: Result<bool>)
      requires Valid()
      modifies this
      ensures Valid()
      ensures scannums == DetermineScans(scanNum, procseqn, procsize)
      ensures |scannums| == 0 ==> r == Err(IndexError) && scans == old(scans) && firstscan == old(firstscan)
      ensures |scannums| > 0 ==>
        var arrived := Arrived(old(scans), old(firstscan), scannums, scanNum, scan);
        firstscan == Some(scannums[0]) && backend == Some(scan.backendName) &&
        scans == (if |arrived.byNumber| != |scannums| then Complete(arrived, scannums, lookup, procsize, 0) else arrived) &&
        (r == Ok(false) <==> |scans.byNumber| != |scannums|) &&
        (r.Err? ==> |scans.byNumber| == |scannums| && Outcome(scans).Err? && r.error == Outcome(scans).error) &&
        (r == Ok(true) ==>
          |scans.byNumber| == |scannums| && Outcome(scans).Ok? && calibrated &&
          calData == Some(CalData(ProjectName(projPath), backend, scannums, gain, tsys)))
    {
      var projectName := ProjectName(projPath);
      scannums := DetermineScans(scanNum, procseqn, procsize);
      if |scannums| == 0 {
        return Err(IndexError);
      }
      Arrive(scanNum, scan);
      r := Conclude(projectName, lookup, procsize);
    }

    /** The rest of makeCalScan: complete the set, and calibrate and save a complete one. */
    method Conclude(projectName: string, lookup: map<int, ScanCandidate>, procsize: int) returns (r: Result<bool>)
      requires Valid()
      modifies this`twarm, this`tcold, this`gain, this`gainData, this`tsys, this`tsysData, this`calibrated
      modifies this`scans, this`calData
      ensures Valid()
      ensures scans == (if |old(scans).byNumber| != |scannums| then Complete(old(scans), scannums, lookup, procsize, 0) else old(scans))
      ensures r == Ok(false) <==> |scans.byNumber| != |scannums|
      ensures r.Err? ==> |scans.byNumber| == |scannums| && Outcome(scans).Err? && r.error == Outcome(scans).error
      ensures r == Ok(true) ==>
        |scans.byNumber| == |scannums| && Outcome(scans).Ok? && calibrated &&
        calData == Some(CalData(projectName, backend, scannums, gain, tsys))
    {
      var haveAll := MakeCalObservation(lookup, procsize);
      if !haveAll {
        return Ok(false);
      }
      r := CalibrateAndSave(projectName);
    }

    /** A complete set: calibrate it and save the results. */
    method CalibrateAndSave(projectName: string) returns (r: Result<bool>)
      requires Valid()
      modifies this`twarm, this`tcold, this`gain, this`gainData, this`tsys, this`tsysData, this`calibrated, this`calData
      ensures r != Ok(false)
      ensures r.Err? ==> Outcome(scans).Err? && r.error == Outcome(scans).error
      ensures r.Ok? ==> Outcome(scans).Ok? && calibrated && calData == Some(CalData(projectName, backend, scannums, gain, tsys))
    {
      var err := CalcGainTsys();
      if err.Some? {
        return Err(err.value);
      }
      SaveData(projectName);
      return Ok(true);
    }
  
    /** The arrival of this scan: a new first scan number starts a clean slate, then the scan joins. */
    method Arrive(scanNum: int, scan: ScanSummary)
      requires Valid() && |scannums| > 0
      modifies this`calibrated, this`firstscan, this`backend, this`twarm, this`tcold, this`scans
      modifies this`gain, this`gainData, this`tsys, this`tsysData, this`calData
      ensures Valid() && scans == Arrived(old(scans), old(firstscan), scannums, scanNum, scan)
      ensures firstscan == Some(scannums[0]) && backend == Some(scan.backendName)
    {
      if Some(scannums[0]) != firstscan {
        InitObservation();
        firstscan := Some(scannums[0]);
      }
      scans := Put(scans, scanNum, scan);
      backend := Some(scan.backendName);
    }
  }
}
