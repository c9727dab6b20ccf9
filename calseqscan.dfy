// CalSeqScan: the raw data of one W-band calibration-sequence scan sorted
// by calibration-wheel position.  The DCR backend provides the consolidated
// DATA rows, the TIMETAG column and the integration time; the receiver
// object (Rcvr68_92) says where the wheel was.  processCalseqScan visits
// every (channel, phase) pair and fills scanData: one (type, data) pair per
// channel for a manual scan, a list of (type, samples) buckets for an auto
// scan.

module CalSeqScans {
  import opened Wrappers
  import opened RealSeq
  import opened Ordering
  import opened Text
  import opened DcrTable
  import Decode
  import opened Rcvr6892

  /** The DCR backend after consolidation: DATA rows, integration start times, DURATION. */
  datatype Backend = Backend(data: seq<DcrRow>, timetags: seq<real>, tint: real)

  // ---------------------------------------------------------------------
  // Backend lookups

  /** The (feed, polarization) of a row's descriptor. */
  function FeedPol(row: DcrRow): (int, string)
  {
    (Decode.DescriptorOf(row).feed, Decode.DescriptorOf(row).pol)
  }

  /** "%s%s" % (feed, pol) */
  function ChannelName(feed: int, pol: string): string
  {
    IntToStr(feed) + pol
  }

  /**
   * Backend.channels: one name per distinct (feed, polarization) of the
   * rows, taken in order of first occurrence.
   */
  function Channels(rows: seq<DcrRow>): seq<string>
  {
    var pairs := Dedup(seq(|rows|, i requires 0 <= i < |rows| => FeedPol(rows[i])));
    seq(|pairs|, k requires 0 <= k < |pairs| => ChannelName(pairs[k].0, pairs[k].1))
  }

  /** The channels are exactly the names of the rows' feeds and stripped polarizations. */
  lemma ChannelsMeaning(rows: seq<DcrRow>)
    ensures forall ch :: ch in Channels(rows) <==>
      exists i :: 0 <= i < |rows| && ch == ChannelName(rows[i].feed, Strip(rows[i].polarize))
  {
    var fp := seq(|rows|, i requires 0 <= i < |rows| => FeedPol(rows[i]));
    var pairs := Dedup(fp);
    forall ch | ch in Channels(rows)
      ensures exists i :: 0 <= i < |rows| && ch == ChannelName(rows[i].feed, Strip(rows[i].polarize))
    {
      var k :| 0 <= k < |pairs| && Channels(rows)[k] == ch;
      assert pairs[k] in fp;
      var i :| 0 <= i < |rows| && fp[i] == pairs[k];
    }
    forall ch, i | 0 <= i < |rows| && ch == ChannelName(rows[i].feed, Strip(rows[i].polarize))
      ensures ch in Channels(rows)
    {
      assert fp[i] in pairs;
      var k :| 0 <= k < |pairs| && pairs[k] == fp[i];
      assert Channels(rows)[k] == ch;
    }
  }

  /** With one-character polarizations no two distinct (feed, pol) pairs share a channel name. */
  lemma ChannelsDistinct(rows: seq<DcrRow>)
    requires forall i :: 0 <= i < |rows| ==> |Strip(rows[i].polarize)| == 1
    ensures forall i, j :: 0 <= i < j < |Channels(rows)| ==> Channels(rows)[i] != Channels(rows)[j]
  {
    var fp := seq(|rows|, i requires 0 <= i < |rows| => FeedPol(rows[i]));
    var pairs := Dedup(fp);
    forall i, j | 0 <= i < j < |pairs| ensures Channels(rows)[i] != Channels(rows)[j] {
      assert pairs[i] in fp && pairs[j] in fp;
      if Channels(rows)[i] == Channels(rows)[j] {
        var a, b := pairs[i], pairs[j];
        var na, nb := IntToStr(a.0), IntToStr(b.0);
        assert |a.1| == 1 && |b.1| == 1;
        assert na + a.1 == nb + b.1;
        assert |na| == |nb|;
        assert na == (na + a.1)[..|na|] && nb == (nb + b.1)[..|nb|];
        assert a.1 == (na + a.1)[|na|..] && b.1 == (nb + b.1)[|nb|..];
        IntToStrInjective(a.0, b.0);
        assert false;
      }
    }
  }

  /** The row fields GetRawPower's mask compares. */
  predicate Matches(row: DcrRow, feed: int, pol: string, phase: StateRow)
  {
    row.feed == feed && RStrip(row.polarize) == pol && row.sigref == phase.sigref && row.cal == phase.cal
  }

  /** The index of the first matching row, -1 when none matches. */
  function FirstMatch(rows: seq<DcrRow>, feed: int, pol: string, phase: StateRow): (k: int)
    ensures -1 <= k < |rows|
    ensures k >= 0 ==> Matches(rows[k], feed, pol, phase) && forall j :: 0 <= j < k ==> !Matches(rows[j], feed, pol, phase)
    ensures k < 0 ==> forall j :: 0 <= j < |rows| ==> !Matches(rows[j], feed, pol, phase)
  {
    if |rows| == 0 then -1
    else if Matches(rows[0], feed, pol, phase) then 0
    else
      var k := FirstMatch(rows[1..], feed, pol, phase);
      assert forall j :: 1 <= j < |rows| ==> rows[j] == rows[1..][j - 1];
      if k < 0 then -1 else k + 1
  }

  /**
   * GetRawPower: the DATA of the first row of the feed, polarization and
   * phase; indexing an empty selection raises IndexError.
   */
  function GetRawPower(rows: seq<DcrRow>, feed: int, pol: string, phase: StateRow): (r: Result<seq<real>>)
    ensures r.Err? <==> forall j :: 0 <= j < |rows| ==> !Matches(rows[j], feed, pol, phase)
    ensures r.Err? ==> r.error == IndexError
    ensures r.Ok? ==>
      exists k :: 0 <= k < |rows| && Matches(rows[k], feed, pol, phase) && r.value == rows[k].data &&
        forall j :: 0 <= j < k ==> !Matches(rows[j], feed, pol, phase)
  {
    var k := FirstMatch(rows, feed, pol, phase);
    if k < 0 then Err(IndexError) else Ok(rows[k].data)
  }

  /** The (SIGREF, CAL) state of a row. */
  function StateOf(row: DcrRow): StateRow
  {
    StateRow(row.sigref, row.cal)
  }

  /** GetPhases: numpy.unique of the (SIGREF, CAL) pairs. */
  function Phases(rows: seq<DcrRow>): seq<StateRow>
  {
    SortedUnique(seq(|rows|, i requires 0 <= i < |rows| => StateOf(rows[i])), StateLess)
  }

  /** The phases are the rows' distinct states in increasing order. */
  lemma PhasesMeaning(rows: seq<DcrRow>)
    ensures StrictlySorted(Phases(rows), StateLess)
    ensures forall p :: p in Phases(rows) <==> exists i :: 0 <= i < |rows| && p == StateOf(rows[i])
  {
    var st := seq(|rows|, i requires 0 <= i < |rows| => StateOf(rows[i]));
    StateLessIsStrictTotal();
    SortedUniqueProperties(st, StateLess);
    forall p ensures p in st <==> exists i :: 0 <= i < |rows| && p == StateOf(rows[i]) {
      if p in st {
        var i :| 0 <= i < |st| && st[i] == p;
        assert p == StateOf(rows[i]);
      }
      if exists i :: 0 <= i < |rows| && p == StateOf(rows[i]) {
        var i :| 0 <= i < |rows| && p == StateOf(rows[i]);
        assert st[i] == p;
      }
    }
  }

  // ---------------------------------------------------------------------
  // getDataType

  /** A two-element tuple indexed Python's way: -2 and -1 count from the end. */
  function PairAt(first: string, second: string, k: int): Result<string>
  {
    if k == 0 || k == -2 then Ok(first)
    else if k == 1 || k == -1 then Ok(second)
    else Err(IndexError)
  }

  /**
   * getDataType: a Cold position becomes the load the feed looks at,
   * beamLoad[calPos][feed - 1]; other positions pass through.
   */
  function GetDataType(calPos: string, feed: int): Result<string>
  {
    if Contains(calPos, "Cold") then
      if calPos == "Cold1" then PairAt("Vcold", "Vwarm", feed - 1)
      else if calPos == "Cold2" then PairAt("Vwarm", "Vcold", feed - 1)
      else Err(KeyError)
    else Ok(calPos)
  }

  lemma Cold1HasCold()
    ensures Contains("Cold1", "Cold")
  {
    assert "Cold1"[..4] == "Cold";
  }

  lemma Cold2HasCold()
    ensures Contains("Cold2", "Cold")
  {
    assert "Cold2"[..4] == "Cold";
  }

  /** Cold1 puts feed 1 on the cold load and feed 2 on the warm one; Cold2 the reverse. */
  lemma DataTypeLoads()
    ensures GetDataType("Cold1", 1) == Ok("Vcold") && GetDataType("Cold1", 2) == Ok("Vwarm")
    ensures GetDataType("Cold2", 1) == Ok("Vwarm") && GetDataType("Cold2", 2) == Ok("Vcold")
  {
    Cold1HasCold();
    Cold2HasCold();
  }

  /** In either Cold position the two feeds see opposite loads. */
  lemma OppositeLoads(calPos: string)
    requires calPos == "Cold1" || calPos == "Cold2"
    ensures GetDataType(calPos, 1).Ok? && GetDataType(calPos, 2).Ok?
    ensures GetDataType(calPos, 1).value != GetDataType(calPos, 2).value
    ensures {GetDataType(calPos, 1).value, GetDataType(calPos, 2).value} == {"Vcold", "Vwarm"}
  {
    DataTypeLoads();
  }

  /**
   * Positions without "Cold" pass through; any other Cold string is a
   * KeyError; in a Cold position a feed outside -1..2 is an IndexError.
   */
  lemma DataTypeCases(calPos: string, feed: int)
    ensures !Contains(calPos, "Cold") ==> GetDataType(calPos, feed) == Ok(calPos)
    ensures Contains(calPos, "Cold") && calPos != "Cold1" && calPos != "Cold2" ==> GetDataType(calPos, feed) == Err(KeyError)
    ensures (calPos == "Cold1" || calPos == "Cold2") && (feed < -1 || feed > 2) ==> GetDataType(calPos, feed) == Err(IndexError)
    ensures GetDataType(calPos, feed).Ok? && Contains(calPos, "Cold") ==>
      GetDataType(calPos, feed).value == "Vcold" || GetDataType(calPos, feed).value == "Vwarm"
  {
    Cold1HasCold();
    Cold2HasCold();
  }

  // ---------------------------------------------------------------------
  // Channel names

  /** int(channel[0]) and channel[1]: the feed digit and the polarization letter. */
  function ParseChannel(channel: string): Result<(int, string)>
  {
    if |channel| == 0 then Err(IndexError)
    else if !IsDigit(channel[0]) then Err(ValueError("invalid literal for int()"))
    else if |channel| < 2 then Err(IndexError)
    else Ok((DigitValue(channel[0]), [channel[1]]))
  }

  /** A one-digit feed's channel parses back to its feed and first polarization letter. */
  lemma ParseChannelName(feed: int, pol: string)
    requires 0 <= feed < 10 && |pol| >= 1
    ensures ParseChannel(ChannelName(feed, pol)) == Ok((feed, [pol[0]]))
  {
    DigitRoundTrip(feed);
    assert IntToStr(feed) == [DigitChar(feed)];
  }

  /** A two-digit feed parses as its first digit, with the second digit as polarization. */
  lemma ParseChannelTwoDigits()
    ensures ChannelName(10, "X") == "10X"
    ensures ParseChannel("10X") == Ok((1, "0"))
  {
    assert NatToStr(10) == NatToStr(1) + [DigitChar(0)];
  }

  // ---------------------------------------------------------------------
  // Auto scans: wheel positions and sample buckets

  /** receiver.getPosition(dmjd, tint) for each start time in turn, threading the cursor. */
  function Positions(info: WheelInfo, c: Cursor, tags: seq<real>, tint: real): (r: (seq<string>, Cursor))
    requires WellFormed(info) && InRange(info.dmjds, c)
    ensures |r.0| == |tags| && InRange(info.dmjds, r.1)
    decreases |tags|
  {
    if |tags| == 0 then ([], c)
    else
      var (p, c1) := PositionSpec(info, c, Some(tags[0]), Some(tint));
      PositionSpecInRange(info, c, Some(tags[0]), Some(tint));
      var (ps, c2) := Positions(info, c1, tags[1..], tint);
      ([p] + ps, c2)
  }

  /**
   * Where the wheel was at time t by its table alone: "Unknown" when it
   * moved in the integration window around t, else the position of the
   * last row at or before t ("Unknown" before the table).
   */
  function PositionAt(info: WheelInfo, t: real, tint: real): string
    requires WellFormed(info)
  {
    var s := info.dmjds;
    var half := HalfWindow(tint);
    if MovingBetween(info, LastAtOrBefore(s, t - half), LastAtOrBefore(s, t + half)) then "Unknown"
    else
      var k := LastAtOrBefore(s, t);
      if k >= 0 then info.positions[k] else "Unknown"
  }

  lemma PositionStep(info: WheelInfo, c: Cursor, t: real, tint: real)
    requires WellFormed(info) && Sorted(info.dmjds) && |info.dmjds| > 0
    requires InRange(info.dmjds, c) && Consistent(info.dmjds, c) && IsAuto(info)
    ensures PositionSpec(info, c, Some(t), Some(tint)).0 == PositionAt(info, t, tint)
    ensures Consistent(info.dmjds, PositionSpec(info, c, Some(t), Some(tint)).1)
  {
    MovingWindow(info, c, t, tint);
    var c1 := MovingSpec(info, c, Some(t), Some(tint)).1;
    MovingSpecInRange(info, c, Some(t), Some(tint));
    if !MovingSpec(info, c, Some(t), Some(tint)).0 {
      PositionAtTime(info, c, t, tint);
      QueryIsLastAtOrBefore(info.dmjds, c1, t);
    }
  }

  /**
   * On an auto scan with sorted timestamps and a consistent cursor, the
   * cursor is only a cache: every position is the table's answer for its time.
   */
  lemma {:induction false} PositionsMeaning(info: WheelInfo, c: Cursor, tags: seq<real>, tint: real)
    requires WellFormed(info) && Sorted(info.dmjds) && |info.dmjds| > 0
    requires InRange(info.dmjds, c) && Consistent(info.dmjds, c) && IsAuto(info)
    ensures forall k :: 0 <= k < |tags| ==> Positions(info, c, tags, tint).0[k] == PositionAt(info, tags[k], tint)
    ensures Consistent(info.dmjds, Positions(info, c, tags, tint).1)
    decreases |tags|
  {
    if |tags| > 0 {
      PositionStep(info, c, tags[0], tint);
      PositionSpecInRange(info, c, Some(tags[0]), Some(tint));
      var (p, c1) := PositionSpec(info, c, Some(tags[0]), Some(tint));
      var rest := Positions(info, c1, tags[1..], tint);
      PositionsMeaning(info, c1, tags[1..], tint);
      assert Positions(info, c, tags, tint) == ([p] + rest.0, rest.1);
      var r := [p] + rest.0;
      forall k | 0 <= k < |tags| ensures r[k] == PositionAt(info, tags[k], tint) {
        if k > 0 {
          assert r[k] == rest.0[k - 1];
          assert tags[1..][k - 1] == tags[k];
        }
      }
    }
  }

  /** autoData: (type, samples) buckets in order of first appearance. */
  type Buckets = seq<(string, seq<real>)>

  /** The bucket holding type t, -1 when there is none. */
  function KeyIndex(b: Buckets, t: string): (r: int)
    ensures -1 <= r < |b|
    ensures r >= 0 ==> b[r].0 == t
    ensures r < 0 ==> forall k :: 0 <= k < |b| ==> b[k].0 != t
  {
    if |b| == 0 then -1
    else if b[|b| - 1].0 == t then |b| - 1
    else KeyIndex(b[..|b| - 1], t)
  }

  /** autoData[t].append(v), or a fresh list [v] on KeyError. */
  function AddSample(b: Buckets, t: string, v: real): Buckets
  {
    var k := KeyIndex(b, t);
    if k >= 0 then b[k := (t, b[k].1 + [v])] else b + [(t, [v])]
  }

  /** The samples of type t, none when there is no such bucket. */
  function Samples(b: Buckets, t: string): seq<real>
  {
    var k := KeyIndex(b, t);
    if k >= 0 then b[k].1 else []
  }

  predicate DistinctKeys(b: Buckets)
  {
    forall i, j :: 0 <= i < j < |b| ==> b[i].0 != b[j].0
  }

  predicate NonEmptyBuckets(b: Buckets)
  {
    forall i :: 0 <= i < |b| ==> |b[i].1| > 0
  }

  lemma SamplesAt(b: Buckets, k: int)
    requires DistinctKeys(b) && 0 <= k < |b|
    ensures Samples(b, b[k].0) == b[k].1
  {
  }

  /** Adding a sample appends it to its type's samples and to no other type's. */
  lemma AddSampleMeaning(b: Buckets, t: string, v: real)
    requires DistinctKeys(b) && NonEmptyBuckets(b)
    ensures DistinctKeys(AddSample(b, t, v)) && NonEmptyBuckets(AddSample(b, t, v))
    ensures forall u :: Samples(AddSample(b, t, v), u) == Samples(b, u) + (if u == t then [v] else [])
  {
    var b' := AddSample(b, t, v);
    assert forall k :: 0 <= k < |b| ==> b'[k].0 == b[k].0;
    assert |b'| == |b| || (|b'| == |b| + 1 && b'[|b|].0 == t);
    forall u ensures Samples(b', u) == Samples(b, u) + (if u == t then [v] else []) {
      var i := KeyIndex(b, u);
      var i' := KeyIndex(b', u);
      if i >= 0 {
        SamplesAt(b', i);
      } else if i' >= 0 {
        assert i' == |b| && u == t;
      }
    }
  }

  /**
   * The loop over integrations from sample i: unknown positions are
   * skipped, the others classified and added to their bucket.
   */
  function AutoData(ps: seq<string>, feed: int, data: seq<real>, i: nat, acc: Buckets): Result<Buckets>
    requires i <= |ps|
    decreases |ps| - i
  {
    if i == |ps| then Ok(acc)
    else if ps[i] == "Unknown" then AutoData(ps, feed, data, i + 1, acc)
    else
      var t :- GetDataType(ps[i], feed);
      if i >= |data| then Err(IndexError)
      else AutoData(ps, feed, data, i + 1, AddSample(acc, t, data[i]))
  }

  /** Sample i has a known position that classifies as u. */
  predicate IsOfType(ps: seq<string>, feed: int, i: int, u: string)
    requires 0 <= i < |ps|
  {
    ps[i] != "Unknown" && GetDataType(ps[i], feed) == Ok(u)
  }

  /** The reference answer: the samples before n whose position classifies as u, in time order. */
  function Typed(ps: seq<string>, feed: int, data: seq<real>, n: nat, u: string): seq<real>
    requires n <= |ps| && n <= |data|
  {
    if n == 0 then []
    else Typed(ps, feed, data, n - 1, u) + (if IsOfType(ps, feed, n - 1, u) then [data[n - 1]] else [])
  }

  /** Every known position from i on can be classified, and has a sample to take. */
  predicate Classifiable(ps: seq<string>, feed: int, data: seq<real>, i: nat)
  {
    forall j :: i <= j < |ps| && ps[j] != "Unknown" ==> GetDataType(ps[j], feed).Ok? && j < |data|
  }

  /** The error a classification can raise. */
  predicate ClassError(e: Error)
  {
    e == IndexError || e == KeyError
  }

  lemma DataTypeErrors(calPos: string, feed: int)
    ensures GetDataType(calPos, feed).Err? ==> ClassError(GetDataType(calPos, feed).error)
  {
  }

  /** The pass succeeds exactly when every known position from i on classifies and has a sample. */
  lemma {:induction false} AutoDataSucceeds(ps: seq<string>, feed: int, data: seq<real>, i: nat, acc: Buckets)
    requires i <= |ps|
    ensures AutoData(ps, feed, data, i, acc).Ok? <==> Classifiable(ps, feed, data, i)
    ensures AutoData(ps, feed, data, i, acc).Err? ==> ClassError(AutoData(ps, feed, data, i, acc).error)
    decreases |ps| - i
  {
    if i < |ps| {
      if ps[i] == "Unknown" {
        AutoDataSucceeds(ps, feed, data, i + 1, acc);
      } else if GetDataType(ps[i], feed).Err? {
        DataTypeErrors(ps[i], feed);
      } else if i < |data| {
        var t := GetDataType(ps[i], feed).value;
        AutoDataSucceeds(ps, feed, data, i + 1, AddSample(acc, t, data[i]));
      }
    }
  }

  /** The buckets built from sample i on extend the buckets of the samples before i. */
  lemma {:induction false} AutoDataContents(ps: seq<string>, feed: int, data: seq<real>, i: nat, acc: Buckets)
    requires i <= |ps| <= |data| && DistinctKeys(acc) && NonEmptyBuckets(acc)
    requires forall u :: Samples(acc, u) == Typed(ps, feed, data, i, u)
    ensures AutoData(ps, feed, data, i, acc).Ok? ==>
      var b := AutoData(ps, feed, data, i, acc).value;
      DistinctKeys(b) && NonEmptyBuckets(b) && forall u :: Samples(b, u) == Typed(ps, feed, data, |ps|, u)
    decreases |ps| - i
  {
    if i < |ps| {
      if ps[i] == "Unknown" {
        forall u ensures Samples(acc, u) == Typed(ps, feed, data, i + 1, u) {
          assert !IsOfType(ps, feed, i, u);
        }
        AutoDataContents(ps, feed, data, i + 1, acc);
      } else if GetDataType(ps[i], feed).Ok? {
        var t := GetDataType(ps[i], feed).value;
        var acc' := AddSample(acc, t, data[i]);
        AddSampleMeaning(acc, t, data[i]);
        forall u ensures Samples(acc', u) == Typed(ps, feed, data, i + 1, u) {
          assert IsOfType(ps, feed, i, u) <==> u == t;
        }
        AutoDataContents(ps, feed, data, i + 1, acc');
      }
    }
  }

  /**
   * The buckets of a successful auto pass: each type's bucket holds, in
   * time order, exactly the samples whose known position classifies as
   * that type; keys are distinct and no bucket is empty.
   */
  lemma AutoBuckets(ps: seq<string>, feed: int, data: seq<real>)
    requires |ps| <= |data|
    ensures AutoData(ps, feed, data, 0, []).Ok? <==> Classifiable(ps, feed, data, 0)
    ensures AutoData(ps, feed, data, 0, []).Err? ==> ClassError(AutoData(ps, feed, data, 0, []).error)
    ensures AutoData(ps, feed, data, 0, []).Ok? ==>
      var b := AutoData(ps, feed, data, 0, []).value;
      DistinctKeys(b) && NonEmptyBuckets(b) &&
      forall u :: Samples(b, u) == Typed(ps, feed, data, |ps|, u)
  {
    AutoDataSucceeds(ps, feed, data, 0, []);
    AutoDataContents(ps, feed, data, 0, []);
  }

  /** A bucket exists for exactly the types some sample classifies as. */
  lemma {:induction false} BucketKeys(b: Buckets, u: string)
    requires DistinctKeys(b) && NonEmptyBuckets(b)
    ensures (exists k :: 0 <= k < |b| && b[k].0 == u) <==> |Samples(b, u)| > 0
  {
    if exists k :: 0 <= k < |b| && b[k].0 == u {
      var k :| 0 <= k < |b| && b[k].0 == u;
      SamplesAt(b, k);
    }
  }

  /** The samples of a type, extended by one more known sample of it, grow by that sample. */
  lemma {:induction false} TypedGrows(ps: seq<string>, feed: int, data: seq<real>, n: nat, u: string)
    requires n < |ps| && n < |data|
    ensures |Typed(ps, feed, data, n + 1, u)| == |Typed(ps, feed, data, n, u)| + (if IsOfType(ps, feed, n, u) then 1 else 0)
  {
  }

  /** A type has samples before n exactly when some known sample before n classifies as it. */
  lemma {:induction false} TypedNonEmpty(ps: seq<string>, feed: int, data: seq<real>, n: nat, u: string)
    requires n <= |ps| && n <= |data|
    ensures |Typed(ps, feed, data, n, u)| > 0 <==> exists i :: 0 <= i < n && IsOfType(ps, feed, i, u)
  {
    if n > 0 {
      TypedNonEmpty(ps, feed, data, n - 1, u);
    }
  }

  // ---------------------------------------------------------------------
  // scanData and the scan loop

  /** scanData[channel]: a manual (type, data) pair or an auto list of buckets. */
  datatype ChannelData = Manual(kind: string, data: seq<real>) | Auto(entries: Buckets)

  /** What processCalseqScan changes: the channel list, scanData and the receiver's cursor. */
  datatype ScanState = ScanState(channels: seq<string>, scanData: map<string, ChannelData>, cursor: Cursor)

  /**
   * The loop over an auto pass's buckets: append each to scanData[channel],
   * starting a list on KeyError; appending to a manual pair fails.
   */
  function AppendAuto(sd: map<string, ChannelData>, channel: string, b: Buckets): Result<map<string, ChannelData>>
    decreases |b|
  {
    if |b| == 0 then Ok(sd)
    else if channel in sd && sd[channel].Manual? then Err(AttributeError)
    else
      var prior := if channel in sd then sd[channel].entries else [];
      AppendAuto(sd[channel := Auto(prior + [b[0]])], channel, b[1..])
  }

  /**
   * The buckets join the end of the channel's list, which an empty pass does
   * not create; other channels are untouched.
   */
  lemma {:induction false} AppendAutoMeaning(sd: map<string, ChannelData>, channel: string, b: Buckets)
    ensures channel in sd && sd[channel].Manual? && |b| > 0 ==> AppendAuto(sd, channel, b) == Err(AttributeError)
    ensures channel in sd && sd[channel].Auto? ==> AppendAuto(sd, channel, b) == Ok(sd[channel := Auto(sd[channel].entries + b)])
    ensures channel !in sd && |b| > 0 ==> AppendAuto(sd, channel, b) == Ok(sd[channel := Auto(b)])
    ensures |b| == 0 ==> AppendAuto(sd, channel, b) == Ok(sd)
    decreases |b|
  {
    if |b| > 0 && !(channel in sd && sd[channel].Manual?) {
      AppendAutoJoins(sd, channel, b);
      if channel !in sd {
        assert [] + b == b;
      }
    } else if |b| == 0 && channel in sd && sd[channel].Auto? {
      assert sd[channel].entries + b == sd[channel].entries;
      assert sd[channel := Auto(sd[channel].entries)] == sd;
    }
  }

  /** A non-empty pass over a channel that is not a manual pair ends with the channel's list extended by it. */
  lemma {:induction false} AppendAutoJoins(sd: map<string, ChannelData>, channel: string, b: Buckets)
    requires |b| > 0 && !(channel in sd && sd[channel].Manual?)
    ensures var prior := if channel in sd then sd[channel].entries else [];
      AppendAuto(sd, channel, b) == Ok(sd[channel := Auto(prior + b)])
    decreases |b|
  {
    var prior := if channel in sd then sd[channel].entries else [];
    var sd' := sd[channel := Auto(prior + [b[0]])];
    assert b == [b[0]] + b[1..];
    if |b| == 1 {
      assert prior + [b[0]] == prior + b;
    } else {
      AppendAutoJoins(sd', channel, b[1..]);
      assert prior + [b[0]] + b[1..] == prior + b;
      assert sd'[channel := Auto(prior + b)] == sd[channel := Auto(prior + b)];
    }
  }

  /**
   * One (channel, phase) visit: record the channel, parse it, fetch its
   * data, then classify it by the receiver.  Without a receiver isAuto
   * raises AttributeError.
   */
  function Step(b: Backend, info: Option<WheelInfo>, st: ScanState, channel: string, phase: StateRow): (r: Result<ScanState>)
    requires info.Some? ==> WellFormed(info.value) && InRange(info.value.dmjds, st.cursor)
    ensures r.Ok? ==> r.value.channels == st.channels + [channel]
    ensures r.Ok? && info.Some? ==> InRange(info.value.dmjds, r.value.cursor)
  {
    var parsed :- ParseChannel(channel);
    var data :- GetRawPower(b.data, parsed.0, parsed.1, phase);
    if info.None? then Err(AttributeError)
    else if IsAuto(info.value) then
      var (ps, c) := Positions(info.value, st.cursor, b.timetags, b.tint);
      var buckets :- AutoData(ps, parsed.0, data, 0, []);
      var sd :- AppendAuto(st.scanData, channel, buckets);
      Ok(ScanState(st.channels + [channel], sd, c))
    else
      var t :- GetDataType(info.value.calPos, parsed.0);
      Ok(ScanState(st.channels + [channel], st.scanData[channel := Manual(t, data)], st.cursor))
  }

  /** The visits in order, stopping at the first exception. */
  function Process(b: Backend, info: Option<WheelInfo>, st: ScanState, pairs: seq<(string, StateRow)>): (r: Result<ScanState>)
    requires info.Some? ==> WellFormed(info.value) && InRange(info.value.dmjds, st.cursor)
    ensures r.Ok? && info.Some? ==> InRange(info.value.dmjds, r.value.cursor)
    decreases |pairs|
  {
    if |pairs| == 0 then Ok(st)
    else
      var st1 :- Step(b, info, st, pairs[0].0, pairs[0].1);
      Process(b, info, st1, pairs[1..])
  }

  /** The visits of one channel: one per phase. */
  function ChannelPairs(channel: string, phases: seq<StateRow>): (r: seq<(string, StateRow)>)
    ensures |r| == |phases| && forall k :: 0 <= k < |r| ==> r[k] == (channel, phases[k])
  {
    if |phases| == 0 then [] else [(channel, phases[0])] + ChannelPairs(channel, phases[1..])
  }

  /** A channel's visits: the first phase's step, then the rest. */
  lemma ProcessCons(b: Backend, info: Option<WheelInfo>, st: ScanState, channel: string, phases: seq<StateRow>)
    requires info.Some? ==> WellFormed(info.value) && InRange(info.value.dmjds, st.cursor)
    requires |phases| > 0
    ensures Process(b, info, st, ChannelPairs(channel, phases)) ==
      var r := Step(b, info, st, channel, phases[0]);
      if r.Err? then Err(r.error) else Process(b, info, r.value, ChannelPairs(channel, phases[1..]))
  {
    var cp := ChannelPairs(channel, phases);
    assert cp[0] == (channel, phases[0]) && cp[1..] == ChannelPairs(channel, phases[1..]);
  }

  /** The visits of the nested loops: every channel, and in it every phase. */
  function Pairs(channels: seq<string>, phases: seq<StateRow>): seq<(string, StateRow)>
  {
    if |channels| == 0 then [] else ChannelPairs(channels[0], phases) + Pairs(channels[1..], phases)
  }

  /** Running two lists of visits is running their concatenation. */
  lemma {:induction false} ProcessAppend(b: Backend, info: Option<WheelInfo>, st: ScanState, p: seq<(string, StateRow)>, q: seq<(string, StateRow)>)
    requires info.Some? ==> WellFormed(info.value) && InRange(info.value.dmjds, st.cursor)
    ensures Process(b, info, st, p + q) ==
      match Process(b, info, st, p)
      case Err(e) => Err(e)
      case Ok(st1) => Process(b, info, st1, q)
    decreases |p|
  {
    if |p| > 0 {
      assert (p + q)[0] == p[0] && (p + q)[1..] == p[1..] + q;
      var r := Step(b, info, st, p[0].0, p[0].1);
      if r.Ok? {
        ProcessAppend(b, info, r.value, p[1..], q);
      }
    } else {
      assert p + q == q;
    }
  }

  /** A successful scan records each channel once per phase, in visiting order. */
  lemma {:induction false} ProcessChannels(b: Backend, info: Option<WheelInfo>, st: ScanState, pairs: seq<(string, StateRow)>)
    requires info.Some? ==> WellFormed(info.value) && InRange(info.value.dmjds, st.cursor)
    ensures Process(b, info, st, pairs).Ok? ==>
      Process(b, info, st, pairs).value.channels == st.channels + seq(|pairs|, k requires 0 <= k < |pairs| => pairs[k].0)
    decreases |pairs|
  {
    if |pairs| > 0 {
      var r := Step(b, info, st, pairs[0].0, pairs[0].1);
      if r.Ok? {
        ProcessChannels(b, info, r.value, pairs[1..]);
        var names := seq(|pairs|, k requires 0 <= k < |pairs| => pairs[k].0);
        var rest := seq(|pairs| - 1, k requires 0 <= k < |pairs| - 1 => pairs[1..][k].0);
        assert names == [pairs[0].0] + rest;
      }
    }
  }

  /**
   * In a manual scan each visit overwrites the channel's pair with the
   * CALPOS type and the phase's data, so after a channel's phases the last
   * phase's data is what remains.
   */
  lemma {:induction false} ManualLastPhaseWins(b: Backend, info: WheelInfo, st: ScanState, channel: string, phases: seq<StateRow>)
    requires WellFormed(info) && InRange(info.dmjds, st.cursor) && !IsAuto(info)
    requires |phases| > 0
    requires Process(b, Some(info), st, ChannelPairs(channel, phases)).Ok?
    ensures var parsed := ParseChannel(channel);
      var last := phases[|phases| - 1];
      parsed.Ok? && GetRawPower(b.data, parsed.value.0, parsed.value.1, last).Ok? &&
      GetDataType(info.calPos, parsed.value.0).Ok? &&
      Process(b, Some(info), st, ChannelPairs(channel, phases)).value.scanData ==
        st.scanData[channel := Manual(GetDataType(info.calPos, parsed.value.0).value,
                                      GetRawPower(b.data, parsed.value.0, parsed.value.1, last).value)]
    decreases |phases|
  {
    var cp := ChannelPairs(channel, phases);
    assert cp[0] == (channel, phases[0]) && cp[1..] == ChannelPairs(channel, phases[1..]);
    var st1 := Step(b, Some(info), st, channel, phases[0]).value;
    if |phases| > 1 {
      ManualLastPhaseWins(b, info, st1, channel, phases[1..]);
      assert phases[1..][|phases[1..]| - 1] == phases[|phases| - 1];
      assert st1.scanData[channel := Manual(GetDataType(info.calPos, ParseChannel(channel).value.0).value,
        GetRawPower(b.data, ParseChannel(channel).value.0, ParseChannel(channel).value.1, phases[|phases| - 1]).value)] ==
        st.scanData[channel := Manual(GetDataType(info.calPos, ParseChannel(channel).value.0).value,
        GetRawPower(b.data, ParseChannel(channel).value.0, ParseChannel(channel).value.1, phases[|phases| - 1]).value)];
    }
  }

  /** The receiver's answers without a time: the header keyword, or a manual scan's first row. */
  function LoadWithoutTime(info: WheelInfo, keyword: real, column: seq<real>): real
    requires |column| == |info.dmjds| && WellFormed(info)
  {
    if !IsAuto(info) && info.hasTable then column[0] else keyword
  }

  // ---------------------------------------------------------------------
  // The scan object

  class CalSeqScan {
    const backend: Backend
    const receiver: Rcvr68_92?
    var channels: seq<string>
    var scanData: map<string, ChannelData>

    /** The receiver's table, when there is a receiver. */
    function Info(): Option<WheelInfo>
    {
      if receiver == null then None else Some(receiver.info)
    }

    function State(): ScanState
      reads this, receiver
    {
      ScanState(channels, scanData, if receiver == null then InitialCursor() else receiver.State())
    }

    predicate Valid()
      reads this, receiver
    {
      receiver != null ==> receiver.Valid()
    }

    /** __init__ after SetBackend, SetReceiver and InitData. */
    constructor (backend: Backend, receiver: Rcvr68_92?)
      requires receiver != null ==> receiver.Valid()
      ensures this.backend == backend && this.receiver == receiver && Valid()
      ensures channels == [] && scanData == map[]
    {
      this.backend := backend;
      this.receiver := receiver;
      channels := [];
      scanData := map[];
    }

    /** InitData */
    method InitData()
      modifies this
      ensures scanData == map[] && channels == old(channels)
    {
      scanData := map[];
    }

    /** getTwarm: the receiver's TWARM without a time, 0 without a receiver. */
    method GetTwarm() returns (r: real)
      requires Valid()
      modifies receiver
      ensures Valid()
      ensures receiver == null ==> r == 0.0
      ensures receiver != null ==>
        r == LoadWithoutTime(receiver.info, receiver.info.twarm, receiver.info.twarmCol) &&
        receiver.State() == old(receiver.State())
    {
      if receiver == null {
        return 0.0;
      }
      r := receiver.GetTwarm(None);
    }

    /** The inner loop of an auto visit: classify each integration by the wheel position. */
    method AutoPass(feed: int, data: seq<real>) returns (r: Result<Buckets>)
      requires receiver != null && receiver.Valid()
      modifies receiver
      ensures receiver.Valid()
      ensures var (ps, c) := Positions(receiver.info, old(receiver.State()), backend.timetags, backend.tint);
        r == AutoData(ps, feed, data, 0, []) && (r.Ok? ==> receiver.State() == c)
    {
      var tags := backend.timetags;
      ghost var spec := Positions(receiver.info, receiver.State(), tags, backend.tint);
      var acc: Buckets := [];
      ghost var done: seq<string> := [];
      var i := 0;
      assert tags[0..] == tags;
      assert done + spec.0 == spec.0;
      while i < |tags|
        invariant 0 <= i <= |tags| && |done| == i && receiver.Valid()
        invariant var rest := Positions(receiver.info, receiver.State(), tags[i..], backend.tint);
          spec == (done + rest.0, rest.1)
        invariant AutoData(spec.0, feed, data, 0, []) == AutoData(spec.0, feed, data, i, acc)
      {
        ghost var before := Positions(receiver.info, receiver.State(), tags[i..], backend.tint);
        assert tags[i..][0] == tags[i] && tags[i..][1..] == tags[i + 1..];
        var p := receiver.GetPosition(Some(tags[i]), Some(backend.tint));
        assert before == ([p] + Positions(receiver.info, receiver.State(), tags[i + 1..], backend.tint).0,
                          Positions(receiver.info, receiver.State(), tags[i + 1..], backend.tint).1);
        assert spec.0[i] == p;
        if p != "Unknown" {
          var t := GetDataType(p, feed);
          if t.Err? {
            return Err(t.error);
          }
          if i >= |data| {
            return Err(IndexError);
          }
          acc := AddSample(acc, t.value, data[i]);
        }
        assert done + [p] + Positions(receiver.info, receiver.State(), tags[i + 1..], backend.tint).0 ==
          done + ([p] + Positions(receiver.info, receiver.State(), tags[i + 1..], backend.tint).0);
        done := done + [p];
        i := i + 1;
      }
      assert tags[i..] == [];
      return Ok(acc);
    }

    /** The loop over an auto pass's buckets, on scanData. */
    method AppendBuckets(channel: string, b: Buckets) returns (err: Option<Error>)
      modifies this
      ensures channels == old(channels)
      ensures (err.None? ==> AppendAuto(old(scanData), channel, b) == Ok(scanData)) &&
              (err.Some? ==> AppendAuto(old(scanData), channel, b) == Err(err.value))
    {
      var k := 0;
      while k < |b|
        invariant 0 <= k <= |b| && channels == old(channels)
        invariant AppendAuto(old(scanData), channel, b) == AppendAuto(scanData, channel, b[k..])
      {
        assert b[k..][0] == b[k] && b[k..][1..] == b[k + 1..];
        if channel in scanData && scanData[channel].Manual? {
          return Some(AttributeError);
        }
        ghost var prior := if channel in scanData then scanData[channel].entries else [];
        assert AppendAuto(scanData, channel, b[k..]) == AppendAuto(scanData[channel := Auto(prior + [b[k]])], channel, b[k + 1..]);
        if channel in scanData {
          scanData := scanData[channel := Auto(scanData[channel].entries + [b[k]])];
        } else {
          assert prior + [b[k]] == [b[k]];
          scanData := scanData[channel := Auto([b[k]])];
        }
        k := k + 1;
      }
      assert b[k..] == [];
      return None;
    }

    /** One (channel, phase) visit of processCalseqScan. */
    method Visit(channel: string, phase: StateRow) returns (err: Option<Error>)
      requires Valid()
      modifies this, receiver
      ensures Valid()
      ensures var r := Step(backend, Info(), old(State()), channel, phase);
        (err.None? ==> r == Ok(State())) && (err.Some? ==> r == Err(err.value))
    {
      channels := channels + [channel];
      var parsed := ParseChannel(channel);
      if parsed.Err? {
        return Some(parsed.error);
      }
      var feed, pol := parsed.value.0, parsed.value.1;
      var data := GetRawPower(backend.data, feed, pol, phase);
      if data.Err? {
        return Some(data.error);
      }
      if receiver == null {
        return Some(AttributeError);
      }
      if IsAuto(receiver.info) {
        var buckets := AutoPass(feed, data.value);
        if buckets.Err? {
          return Some(buckets.error);
        }
        err := AppendBuckets(channel, buckets.value);
      } else {
        var t := GetDataType(receiver.info.calPos, feed);
        if t.Err? {
          return Some(t.error);
        }
        scanData := scanData[channel := Manual(t.value, data.value)];
        err := None;
      }
    }

    /** The phase loop of one channel. */
    method VisitChannel(channel: string, phases: seq<StateRow>) returns (err: Option<Error>)
      requires Valid()
      modifies this, receiver
      ensures Valid()
      ensures var r := Process(backend, Info(), old(State()), ChannelPairs(channel, phases));
        (err.None? ==> r == Ok(State())) && (err.Some? ==> r == Err(err.value))
    {
      ghost var spec := Process(backend, Info(), State(), ChannelPairs(channel, phases));
      var k := 0;
      while k < |phases|
        invariant 0 <= k <= |phases| && Valid()
        invariant spec == Process(backend, Info(), State(), ChannelPairs(channel, phases[k..]))
      {
        assert phases[k..][0] == phases[k] && phases[k..][1..] == phases[k + 1..];
        ProcessCons(backend, Info(), State(), channel, phases[k..]);
        err := Visit(channel, phases[k]);
        if err.Some? {
          return;
        }
        k := k + 1;
      }
      assert phases[k..] == [];
      return None;
    }

    /** processCalseqScan, DCR branch: every channel, and in it every phase. */
    method ProcessCalseqScan() returns (err: Option<Error>)
      requires Valid()
      modifies this, receiver
      ensures Valid()
      ensures var r := Process(backend, Info(), old(State()), Pairs(Channels(backend.data), Phases(backend.data)));
        (err.None? ==> r == Ok(State())) && (err.Some? ==> r == Err(err.value))
    {
      var chs := Channels(backend.data);
      var phases := Phases(backend.data);
      ghost var spec := Process(backend, Info(), State(), Pairs(chs, phases));
      var i := 0;
      while i < |chs|
        invariant 0 <= i <= |chs| && Valid()
        invariant spec == Process(backend, Info(), State(), Pairs(chs[i..], phases))
      {
        assert chs[i..][0] == chs[i] && chs[i..][1..] == chs[i + 1..];
        ProcessAppend(backend, Info(), State(), ChannelPairs(chs[i], phases), Pairs(chs[i + 1..], phases));
        err := VisitChannel(chs[i], phases);
        if err.Some? {
          return;
        }
        i := i + 1;
      }
      assert chs[i..] == [];
      return None;
    }
  }
}
