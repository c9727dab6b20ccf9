// The inter-polarization and inter-beam stages.  The cal table holds one
// converted series per (FEED, POLARIZE); the feed table one series per FEED.
// InterPolAverage averages a feed's two polarizations; BeamSubtractionDBA
// subtracts the reference feed's series from the signal feed's.

module InterOps {
  import opened Wrappers
  import opened RealSeq
  import opened Ordering
  import opened DcrTable

  /** A row of the cal table: the FEED, POLARIZE, FACTOR and DATA columns. */
  datatype CalTableRow = CalTableRow(feed: int, polarize: string, factor: real, data: seq<real>)

  /** A row of the feed table. */
  datatype FeedRow = FeedRow(feed: int, data: seq<real>)

  function BroadcastMsg(): string { "cannot broadcast" }

  // ---- inter-polarization ----

  /** The inter-pol classes; the base class defines no operation. */
  datatype InterPolKind = BaseInterPol | InterPolAverage

  /** InterPolAverage.calibrate: the elementwise mean of exactly two rows' DATA. */
  function Average(rows: seq<CalTableRow>): Result<seq<real>>
  {
    if |rows| != 2 then Err(ValueError("InterPolAverage requires exactly two polarizations to be given"))
    else if |rows[0].data| != |rows[1].data| then Err(ValueError(BroadcastMsg()))
    else Ok(seq(|rows[0].data|, j requires 0 <= j < |rows[0].data| => (rows[0].data[j] + rows[1].data[j]) / 2.0))
  }

  function InterPolCalibrate(kind: InterPolKind, rows: seq<CalTableRow>): (r: Result<seq<real>>)
    ensures kind == BaseInterPol ==> r == Err(NotImplemented)
  {
    match kind
    case BaseInterPol => Err(NotImplemented)
    case InterPolAverage => Average(rows)
  }

  /**
   * The average needs exactly two rows of one width; each sample then lies
   * between the two polarizations' samples and the width is kept.
   */
  lemma AverageMeaning(rows: seq<CalTableRow>)
    ensures Average(rows).Ok? <==> |rows| == 2 && |rows[0].data| == |rows[1].data|
    ensures Average(rows).Err? ==> Average(rows).error.ValueError?
    ensures Average(rows).Ok? ==>
      var a, b, r := rows[0].data, rows[1].data, Average(rows).value;
      |r| == |a| && forall j :: 0 <= j < |r| ==>
        (a[j] <= r[j] <= b[j] || b[j] <= r[j] <= a[j]) && r[j] - a[j] == b[j] - r[j]
  {
  }

  /** The average does not depend on which polarization comes first. */
  lemma AverageSymmetric(x: CalTableRow, y: CalTableRow)
    ensures Average([x, y]) == Average([y, x])
  {
    if |x.data| == |y.data| {
      var r, r' := Average([x, y]).value, Average([y, x]).value;
      forall j | 0 <= j < |r| ensures r[j] == r'[j] {
      }
      assert r == r';
    }
  }

  /** Two equal polarizations average to that series. */
  lemma AverageIdempotent(x: CalTableRow, y: CalTableRow)
    requires x.data == y.data
    ensures Average([x, y]) == Ok(x.data)
  {
    var r := Average([x, y]).value;
    forall j | 0 <= j < |r| ensures r[j] == x.data[j] {
    }
    assert r == x.data;
  }

  // ---- inter-beam ----

  /** The inter-beam classes; the base class defines no operation. */
  datatype InterBeamKind = BaseInterBeam | BeamSubtractionDBA

  /** feedTable.query(FEED=feed)['DATA'][0]: the first row of the feed, IndexError when there is none. */
  function FeedData(feedTable: seq<FeedRow>, feed: int): (r: Result<seq<real>>)
    ensures r.Ok? <==> exists k :: 0 <= k < |feedTable| && feedTable[k].feed == feed
    ensures r.Err? ==> r.error == IndexError
    ensures r.Ok? ==> exists k :: (0 <= k < |feedTable| && feedTable[k].feed == feed && feedTable[k].data == r.value &&
      forall i :: 0 <= i < k ==> feedTable[i].feed != feed)
  {
    if |feedTable| == 0 then Err(IndexError)
    else if feedTable[0].feed == feed then Ok(feedTable[0].data)
    else
      var r := FeedData(feedTable[1..], feed);
      assert forall k :: 1 <= k < |feedTable| ==> feedTable[k] == feedTable[1..][k - 1];
      if r.Ok? then
        assert exists k :: (0 <= k < |feedTable[1..]| && feedTable[1..][k].feed == feed && feedTable[1..][k].data == r.value &&
          forall i :: 0 <= i < k ==> feedTable[1..][i].feed != feed);
        var k :| (0 <= k < |feedTable[1..]| && feedTable[1..][k].feed == feed && feedTable[1..][k].data == r.value &&
          forall i :: 0 <= i < k ==> feedTable[1..][i].feed != feed);
        assert feedTable[k + 1].feed == feed && forall i :: 0 <= i < k + 1 ==> feedTable[i].feed != feed;
        r
      else r
  }

  /**
   * BeamSubtractionDBA.calibrate: the signal feed's DATA minus the reference
   * feed's, with the feeds taken from the raw table's getSigAndRefFeeds.
   */
  function BeamSubtraction(raw: DcrTable, feedTable: seq<FeedRow>): Result<seq<real>>
  {
    var (sig, ref) :- GetSigAndRefFeeds(raw);
    var sigData :- FeedData(feedTable, sig);
    var refData :- FeedData(feedTable, ref);
    if |sigData| != |refData| then Err(ValueError(BroadcastMsg()))
    else Ok(Sub(sigData, refData))
  }

  function InterBeamCalibrate(kind: InterBeamKind, raw: DcrTable, feedTable: seq<FeedRow>): (r: Result<seq<real>>)
    ensures kind == BaseInterBeam ==> r == Err(NotImplemented)
  {
    match kind
    case BaseInterBeam => Err(NotImplemented)
    case BeamSubtractionDBA => BeamSubtraction(raw, feedTable)
  }

  /** Fewer than two feeds in the raw table propagate getSigAndRefFeeds' ValueError. */
  lemma BeamSubtractionNeedsTwoFeeds(raw: DcrTable, feedTable: seq<FeedRow>)
    requires |UniqueFeeds(raw)| < 2
    ensures BeamSubtraction(raw, feedTable) == GetSigAndRefFeeds(raw).PropagateFailure()
    ensures BeamSubtraction(raw, feedTable).Err? && BeamSubtraction(raw, feedTable).error.ValueError?
  {
    SigAndRefFeedsMeaning(raw);
  }

  /** The result is the first signal-feed row's data minus the first reference-feed row's data. */
  lemma BeamSubtractionMeaning(raw: DcrTable, feedTable: seq<FeedRow>)
    ensures BeamSubtraction(raw, feedTable).Ok? ==>
      var (sig, ref) := GetSigAndRefFeeds(raw).value;
      var r := BeamSubtraction(raw, feedTable).value;
      GetSigAndRefFeeds(raw).Ok? && sig != ref &&
      FeedData(feedTable, sig).Ok? && FeedData(feedTable, ref).Ok? &&
      |r| == |FeedData(feedTable, sig).value| &&
      forall j :: 0 <= j < |r| ==> r[j] == FeedData(feedTable, sig).value[j] - FeedData(feedTable, ref).value[j]
  {
    SigAndRefFeedsMeaning(raw);
  }

  /**
   * Moving the track beam from one of the two smallest feeds to the other
   * swaps signal and reference, and so negates the difference.
   */
  lemma BeamSwapNegates(raw: DcrTable, feedTable: seq<FeedRow>, other: int)
    requires |UniqueFeeds(raw)| >= 2
    requires var feeds := UniqueFeeds(raw);
      (raw.trackBeam == feeds[0] && other == feeds[1]) || (raw.trackBeam == feeds[1] && other == feeds[0])
    ensures var r, r' := BeamSubtraction(raw, feedTable), BeamSubtraction(raw.(trackBeam := other), feedTable);
      r.Ok? <==> r'.Ok?
    ensures var r, r' := BeamSubtraction(raw, feedTable), BeamSubtraction(raw.(trackBeam := other), feedTable);
      r.Ok? ==> |r.value| == |r'.value| && forall j :: 0 <= j < |r.value| ==> r'.value[j] == -r.value[j]
  {
    var raw' := raw.(trackBeam := other);
    assert UniqueFeeds(raw') == UniqueFeeds(raw);
    var feeds := UniqueFeeds(raw);
    UniqueFeedsMeaning(raw);
    assert feeds[0] != feeds[1] by {
      assert IntLess(feeds[0], feeds[1]);
    }
  }
}
