// The W-band receiver's calibration wheel, gbtcal/Rcvr68_92.py.  The
// receiver's FITS file gives keywords (CALSEQ, CALPOS, TCOLD, TWARM) and a
// table of timestamps with, for each, whether the wheel was moving, its
// position and the two load temperatures.  Lookups by time go through a
// cursor (the last queried time and index) that getIndexFromDMJD moves
// forwards or backwards from where the previous query left it.

module Rcvr6892 {
  import opened Wrappers
  import opened RealSeq

  /**
   * What readInfo parses: the keywords and the table columns.  CALSEQ is
   * already mapped to 'auto', 'manual' or 'Unknown'.
   */
  datatype WheelInfo = WheelInfo(
    calSeq: string, calPos: string, tcold: real, twarm: real, hasTable: bool,
    dmjds: seq<real>, moving: seq<bool>, positions: seq<string>, tcoldCol: seq<real>, twarmCol: seq<real>)

  /** The shapes a complete readInfo leaves: one value per timestamp in every column, and a table exactly when there are timestamps. */
  predicate WellFormed(info: WheelInfo)
  {
    |info.moving| == |info.dmjds| && |info.positions| == |info.dmjds| &&
    |info.tcoldCol| == |info.dmjds| && |info.twarmCol| == |info.dmjds| &&
    (info.hasTable <==> |info.dmjds| > 0)
  }

  /** The CALPOS values, in the order of their integer codes. */
  function CalPosTypes(): seq<string>
  {
    ["Observing", "Cold1", "Position2", "Position3", "Cold2", "Position5"]
  }

  /** getCalPosString */
  function CalPosString(k: int): string
  {
    if 0 <= k < |CalPosTypes()| then CalPosTypes()[k] else "Unknown"
  }

  /** A code names its position when it is one of the six, and "Unknown" otherwise. */
  lemma CalPosStringMeaning(k: int)
    ensures 0 <= k < 6 ==> CalPosString(k) == CalPosTypes()[k]
    ensures (k < 0 || k >= 6) ==> CalPosString(k) == "Unknown"
    ensures CalPosString(1) == "Cold1" && CalPosString(4) == "Cold2"
  {
  }

  predicate IsAuto(info: WheelInfo)
  {
    info.calSeq == "auto"
  }

  /** numrows */
  function NumRows(info: WheelInfo): int
  {
    if info.hasTable then |info.positions| else 0
  }

  /** The table has one row per timestamp. */
  lemma NumRowsMeaning(info: WheelInfo)
    requires WellFormed(info)
    ensures NumRows(info) == |info.dmjds|
    ensures NumRows(info) > 0 <==> info.hasTable
  {
  }

  // ---- the time cursor ----

  /** lastQueriedDMJD, lastQueriedIndex and the timeIndexes record of every answer. */
  datatype Cursor = Cursor(last: real, index: int, timeIndexes: map<real, int>)

  /** The state readInfo and __init__ leave. */
  function InitialCursor(): Cursor
  {
    Cursor(0.0, -1, map[])
  }

  /** The reference answer: the last timestamp at or before x, or -1 when there is none. */
  function LastAtOrBefore(s: seq<real>, x: real): (r: int)
    ensures -1 <= r < |s|
    ensures r >= 0 ==> s[r] <= x
    ensures forall j :: r < j < |s| ==> s[j] > x
  {
    if |s| == 0 then -1
    else if s[|s| - 1] <= x then |s| - 1
    else LastAtOrBefore(s[..|s| - 1], x)
  }

  /** The reference answer is the only index with nothing later at or before x and itself at or before x. */
  lemma LastIs(s: seq<real>, x: real, k: int)
    requires -1 <= k < |s|
    requires k >= 0 ==> s[k] <= x
    requires forall j :: k < j < |s| ==> s[j] > x
    ensures LastAtOrBefore(s, x) == k
  {
  }

  /** On sorted timestamps everything up to the answer is at or before x. */
  lemma LastSorted(s: seq<real>, x: real, j: int)
    requires Sorted(s) && 0 <= j <= LastAtOrBefore(s, x)
    ensures s[j] <= x
  {
  }

  /** The cursor's index is the reference answer for its own time. */
  predicate Consistent(s: seq<real>, c: Cursor)
  {
    c.index == LastAtOrBefore(s, c.last)
  }

  /** The forward search: advance over timestamps at or before x, stopping at the first later one. */
  function Forward(s: seq<real>, i: nat, x: real, idx: int): int
    decreases |s| - i
  {
    if i >= |s| || x < s[i] then idx else Forward(s, i + 1, x, i)
  }

  /** The backward search as written: step down until a timestamp is strictly before x. */
  function BackwardAsWritten(s: seq<real>, i: nat, x: real): int
    requires i < |s|
  {
    if x > s[i] || i == 0 then i else BackwardAsWritten(s, i - 1, x)
  }

  /** The backward search as intended: step down until a timestamp is at or before x. */
  function Backward(s: seq<real>, i: nat, x: real): int
    requires i < |s|
  {
    if x >= s[i] || i == 0 then i else Backward(s, i - 1, x)
  }

  predicate InRange(s: seq<real>, c: Cursor)
  {
    -1 <= c.index < |s|
  }

  /**
   * getIndexFromDMJD as written: the answer and the new cursor.  No time or
   * no timestamps answer -1 and leave the cursor alone.
   */
  function QueryAsWritten(s: seq<real>, c: Cursor, dmjd: Option<real>): (r: (int, Cursor))
    requires InRange(s, c)
    ensures -1 <= r.0 < |s| && InRange(s, r.1)
    ensures dmjd.None? || |s| == 0 ==> r == (-1, c)
    ensures dmjd.Some? && |s| > 0 ==> r.1 == Cursor(dmjd.value, r.0, c.timeIndexes[dmjd.value := r.0])
  {
    if dmjd.None? || |s| == 0 then (-1, c)
    else
      var x := dmjd.value;
      var idx :=
        if x > c.last then Forward(s, c.index + 1, x, c.index)
        else if x < c.last then
          var b := if c.index >= 0 then BackwardAsWrittenInRange(s, c.index, x); BackwardAsWritten(s, c.index, x) else c.index;
          if x < s[0] then -1 else b
        else c.index;
      ForwardInRange(s, c.index + 1, x, c.index);
      (idx, Cursor(x, idx, c.timeIndexes[x := idx]))
  }

  lemma {:induction false} BackwardAsWrittenInRange(s: seq<real>, i: nat, x: real)
    requires i < |s|
    ensures 0 <= BackwardAsWritten(s, i, x) <= i
  {
    if !(x > s[i] || i == 0) {
      BackwardAsWrittenInRange(s, i - 1, x);
    }
  }

  /** The two backward searches part only at a timestamp equal to the time, below the start and above row 0. */
  lemma {:induction false} BackwardAgrees(s: seq<real>, i: nat, x: real)
    requires i < |s| && forall j :: 0 < j <= i ==> s[j] != x
    ensures BackwardAsWritten(s, i, x) == Backward(s, i, x)
  {
    if !(x > s[i] || i == 0) {
      assert x != s[i];
      BackwardAgrees(s, i - 1, x);
    }
  }

  /**
   * getIndexFromDMJD as written answers what the corrected query answers,
   * with the same cursor, unless it goes backwards to a time equal to one
   * of the timestamps above row 0 and at or below the cursor's index.
   */
  lemma QueryAsWrittenAgrees(s: seq<real>, c: Cursor, dmjd: Option<real>)
    requires InRange(s, c)
    ensures (dmjd.None? || |s| == 0 || dmjd.value >= c.last ||
             forall j :: 0 < j <= c.index ==> s[j] != dmjd.value) ==>
      QueryAsWritten(s, c, dmjd) == Query(s, c, dmjd)
  {
    if dmjd.Some? && |s| > 0 && dmjd.value < c.last && c.index >= 0 &&
       forall j :: 0 < j <= c.index ==> s[j] != dmjd.value {
      BackwardAgrees(s, c.index, dmjd.value);
    }
  }

  /**
   * A backward query for a time equal to a timestamp steps past it: with
   * timestamps 1, 2, 3, going back from 5 to 2 answers index 0, whereas a
   * first query for 2 answers index 1, the timestamp at 2.
   */
  lemma BackwardSkipsEqualTimestamp()
    ensures var s := [1.0, 2.0, 3.0];
      QueryAsWritten(s, Cursor(5.0, 2, map[]), Some(2.0)).0 == 0 &&
      QueryAsWritten(s, InitialCursor(), Some(2.0)).0 == 1 &&
      LastAtOrBefore(s, 2.0) == 1
  {
    var s := [1.0, 2.0, 3.0];
    assert BackwardAsWritten(s, 1, 2.0) == 0;
    assert Forward(s, 2, 2.0, 1) == 1;
    LastIs(s, 2.0, 1);
  }

  /** getIndexFromDMJD with the backward search as intended. */
  function Query(s: seq<real>, c: Cursor, dmjd: Option<real>): (r: (int, Cursor))
    requires InRange(s, c)
    ensures -1 <= r.0 < |s| && InRange(s, r.1)
    ensures dmjd.None? || |s| == 0 ==> r == (-1, c)
    ensures dmjd.Some? && |s| > 0 ==> r.1 == Cursor(dmjd.value, r.0, c.timeIndexes[dmjd.value := r.0])
  {
    if dmjd.None? || |s| == 0 then (-1, c)
    else
      var x := dmjd.value;
      var idx :=
        if x > c.last then Forward(s, c.index + 1, x, c.index)
        else if x < c.last then
          var b := if c.index >= 0 then BackwardInRange(s, c.index, x); Backward(s, c.index, x) else c.index;
          if x < s[0] then -1 else b
        else c.index;
      ForwardInRange(s, c.index + 1, x, c.index);
      (idx, Cursor(x, idx, c.timeIndexes[x := idx]))
  }

  lemma {:induction false} ForwardInRange(s: seq<real>, i: nat, x: real, idx: int)
    requires -1 <= idx < |s|
    requires i <= |s| || idx == |s| - 1
    ensures -1 <= Forward(s, i, x, idx) < |s|
    decreases |s| - i
  {
    if i < |s| && x >= s[i] {
      ForwardInRange(s, i + 1, x, i);
    }
  }

  lemma {:induction false} BackwardInRange(s: seq<real>, i: nat, x: real)
    requires i < |s|
    ensures 0 <= Backward(s, i, x) <= i
  {
    if !(x >= s[i] || i == 0) {
      BackwardInRange(s, i - 1, x);
    }
  }

  /** From a consistent cursor the forward search finds the reference answer. */
  lemma {:induction false} ForwardFinds(s: seq<real>, i: nat, x: real, idx: int)
    requires Sorted(s) && i <= |s| && idx == i - 1
    requires forall j :: 0 <= j < i ==> s[j] <= x
    ensures Forward(s, i, x, idx) == LastAtOrBefore(s, x)
    decreases |s| - i
  {
    if i < |s| && x >= s[i] {
      ForwardFinds(s, i + 1, x, i);
    } else {
      LastIs(s, x, idx);
    }
  }

  /** With everything after i later than x, the intended backward search finds the reference answer. */
  lemma {:induction false} BackwardFinds(s: seq<real>, i: nat, x: real)
    requires Sorted(s) && i < |s| && x >= s[0]
    requires forall j :: i < j < |s| ==> s[j] > x
    ensures Backward(s, i, x) == LastAtOrBefore(s, x)
  {
    if x >= s[i] {
      LastIs(s, x, i);
    } else {
      BackwardFinds(s, i - 1, x);
    }
  }

  /**
   * On sorted timestamps, a query from a consistent cursor answers the last
   * timestamp at or before the time, whichever way the cursor moves, and
   * leaves the cursor consistent: the answer does not depend on the
   * queries before it.
   */
  lemma QueryIsLastAtOrBefore(s: seq<real>, c: Cursor, x: real)
    requires Sorted(s) && |s| > 0 && InRange(s, c) && Consistent(s, c)
    ensures Query(s, c, Some(x)).0 == LastAtOrBefore(s, x)
    ensures Consistent(s, Query(s, c, Some(x)).1)
  {
    if x > c.last {
      forall j | 0 <= j < c.index + 1 ensures s[j] <= x {
        LastSorted(s, c.last, j);
      }
      ForwardFinds(s, c.index + 1, x, c.index);
    } else if x < c.last {
      if x < s[0] {
        LastIs(s, x, -1);
      } else {
        assert c.index >= 0;
        BackwardFinds(s, c.index, x);
      }
    }
  }

  /** Positive timestamps make the initial cursor consistent. */
  lemma InitialConsistent(s: seq<real>)
    requires forall j :: 0 <= j < |s| ==> s[j] > 0.0
    ensures InRange(s, InitialCursor()) && Consistent(s, InitialCursor())
  {
    LastIs(s, 0.0, -1);
  }

  /** Repeating a query answers the same index and leaves the cursor where the first left it. */
  lemma QueryRepeat(s: seq<real>, c: Cursor, dmjd: Option<real>)
    requires InRange(s, c)
    ensures var (r, c') := Query(s, c, dmjd); Query(s, c', dmjd) == (r, c')
  {
    var (r, c') := Query(s, c, dmjd);
    if dmjd.Some? && |s| > 0 {
      assert c'.timeIndexes[dmjd.value := r] == c'.timeIndexes;
    }
  }

  // ---- the lookups built on the cursor ----

  /** A day in seconds, the unit change of isMoving's duration. */
  const SecondsPerDay: real := 24.0 * 60.0 * 60.0

  /** Half the window, in days, of a duration in seconds. */
  function HalfWindow(duration: real): real
  {
    duration / SecondsPerDay / 2.0
  }

  /**
   * isMoving's answer for two window ends mapped to indices: the motion at
   * that index when both agree, else whether any row from the start (row 0
   * when before the table) to the stop (the last row when before the table)
   * was moving.
   */
  predicate MovingBetween(info: WheelInfo, start: int, stop: int)
    requires WellFormed(info) && -1 <= start < |info.dmjds| && -1 <= stop < |info.dmjds|
  {
    if start == stop then start >= 0 && info.moving[start]
    else
      var lo := if start < 0 then 0 else start;
      var hi := if stop < 0 then NumRows(info) - 1 else stop;
      exists i :: lo <= i <= hi && info.moving[i]
  }

  /** isMoving: the answer and the cursor after its two queries. */
  function MovingSpec(info: WheelInfo, c: Cursor, dmjd: Option<real>, duration: Option<real>): (bool, Cursor)
    requires WellFormed(info) && InRange(info.dmjds, c)
  {
    if !IsAuto(info) then (false, c)
    else if dmjd.None? || duration.None? then (true, c)
    else
      var half := HalfWindow(duration.value);
      var (start, c1) := Query(info.dmjds, c, Some(dmjd.value - half));
      var (stop, c2) := Query(info.dmjds, c1, Some(dmjd.value + half));
      (MovingBetween(info, start, stop), c2)
  }

  /** Manual scans never move; an auto scan without a time or a duration counts as moving. */
  lemma MovingDefaults(info: WheelInfo, c: Cursor, dmjd: Option<real>, duration: Option<real>)
    requires WellFormed(info) && InRange(info.dmjds, c)
    ensures !IsAuto(info) ==> MovingSpec(info, c, dmjd, duration) == (false, c)
    ensures IsAuto(info) && (dmjd.None? || duration.None?) ==> MovingSpec(info, c, dmjd, duration) == (true, c)
  {
  }

  /**
   * On sorted timestamps from a consistent cursor, an auto scan's motion is
   * decided by the last rows at or before the two ends of the window
   * dmjd ± duration/2 (duration in seconds).
   */
  lemma MovingWindow(info: WheelInfo, c: Cursor, dmjd: real, duration: real)
    requires WellFormed(info) && Sorted(info.dmjds) && |info.dmjds| > 0
    requires InRange(info.dmjds, c) && Consistent(info.dmjds, c) && IsAuto(info)
    ensures var half := HalfWindow(duration);
      var s := info.dmjds;
      var r := MovingSpec(info, c, Some(dmjd), Some(duration));
      r.0 == MovingBetween(info, LastAtOrBefore(s, dmjd - half), LastAtOrBefore(s, dmjd + half)) &&
      Consistent(s, r.1)
  {
    var half := HalfWindow(duration);
    var s := info.dmjds;
    QueryIsLastAtOrBefore(s, c, dmjd - half);
    var c1 := Query(s, c, Some(dmjd - half)).1;
    QueryIsLastAtOrBefore(s, c1, dmjd + half);
  }

  /**
   * getPosition: manual scans give the first table position, or CALPOS
   * without a table; auto scans give "Unknown" while moving, else the
   * position at the time's index ("Unknown" before the table).
   */
  function PositionSpec(info: WheelInfo, c: Cursor, dmjd: Option<real>, duration: Option<real>): (string, Cursor)
    requires WellFormed(info) && InRange(info.dmjds, c)
  {
    if !IsAuto(info) then
      (if NumRows(info) > 0 then info.positions[0] else info.calPos, c)
    else
      var (mv, c1) := MovingSpec(info, c, dmjd, duration);
      MovingSpecInRange(info, c, dmjd, duration);
      if mv then ("Unknown", c1)
      else
        var (idx, c2) := Query(info.dmjds, c1, dmjd);
        (if idx >= 0 then info.positions[idx] else "Unknown", c2)
  }

  lemma MovingSpecInRange(info: WheelInfo, c: Cursor, dmjd: Option<real>, duration: Option<real>)
    requires WellFormed(info) && InRange(info.dmjds, c)
    ensures InRange(info.dmjds, MovingSpec(info, c, dmjd, duration).1)
  {
  }

  lemma PositionSpecInRange(info: WheelInfo, c: Cursor, dmjd: Option<real>, duration: Option<real>)
    requires WellFormed(info) && InRange(info.dmjds, c)
    ensures InRange(info.dmjds, PositionSpec(info, c, dmjd, duration).1)
  {
    if IsAuto(info) {
      MovingSpecInRange(info, c, dmjd, duration);
    }
  }

  /**
   * On sorted timestamps from a consistent cursor, a still auto scan is at
   * the position of the last row at or before the time.
   */
  lemma PositionAtTime(info: WheelInfo, c: Cursor, dmjd: real, duration: real)
    requires WellFormed(info) && Sorted(info.dmjds) && |info.dmjds| > 0
    requires InRange(info.dmjds, c) && Consistent(info.dmjds, c) && IsAuto(info)
    requires !MovingSpec(info, c, Some(dmjd), Some(duration)).0
    ensures var k := LastAtOrBefore(info.dmjds, dmjd);
      PositionSpec(info, c, Some(dmjd), Some(duration)).0 == if k >= 0 then info.positions[k] else "Unknown"
  {
    MovingWindow(info, c, dmjd, duration);
    var c1 := MovingSpec(info, c, Some(dmjd), Some(duration)).1;
    QueryIsLastAtOrBefore(info.dmjds, c1, dmjd);
  }

  /**
   * getPosition(2.0, 17280 s) on a fresh cursor over timestamps 1, 2, 3 of
   * a still auto scan: isMoving queries 1.9 and 2.1, and getPosition's own
   * query for 2.0 then goes backwards.  As written that query answers row
   * 0; the corrected query, which getPosition here uses, answers row 1.
   */
  lemma PositionQueriesAsWritten(info: WheelInfo)
    requires WellFormed(info) && IsAuto(info)
    requires info.dmjds == [1.0, 2.0, 3.0] && info.moving == [false, false, false]
    ensures var s, half := info.dmjds, HalfWindow(17280.0);
      var (a, c1) := QueryAsWritten(s, InitialCursor(), Some(2.0 - half));
      var (b, c2) := QueryAsWritten(s, c1, Some(2.0 + half));
      var (k, c3) := QueryAsWritten(s, c2, Some(2.0));
      a == 0 && b == 1 && !MovingBetween(info, a, b) && k == 0
    ensures PositionSpec(info, InitialCursor(), Some(2.0), Some(17280.0)).0 == info.positions[1]
  {
    var s := info.dmjds;
    assert HalfWindow(17280.0) == 0.1;
    assert Forward(s, 0, 1.9, -1) == 0;
    assert Forward(s, 1, 2.1, 0) == 1;
    assert BackwardAsWritten(s, 1, 2.0) == 0;
    assert Backward(s, 1, 2.0) == 1;
  }

  /** A manual scan's position is its first table position, or CALPOS without a table. */
  lemma PositionManual(info: WheelInfo, c: Cursor, dmjd: Option<real>, duration: Option<real>)
    requires WellFormed(info) && InRange(info.dmjds, c) && !IsAuto(info)
    ensures PositionSpec(info, c, dmjd, duration) ==
      (if info.hasTable then info.positions[0] else info.calPos, c)
  {
  }

  /**
   * getTcold / getTwarm for one load: the keyword value by default; a
   * manual scan with a table uses the column's first value, an auto scan
   * the value at the time's index.
   */
  function LoadSpec(info: WheelInfo, keyword: real, column: seq<real>, c: Cursor, dmjd: Option<real>): (real, Cursor)
    requires WellFormed(info) && InRange(info.dmjds, c) && |column| == |info.dmjds|
  {
    if !IsAuto(info) then
      (if info.hasTable then column[0] else keyword, c)
    else
      var (idx, c1) := Query(info.dmjds, c, dmjd);
      (if idx >= 0 then column[idx] else keyword, c1)
  }

  /**
   * The load temperature is the keyword's unless a row applies: the first
   * row for a manual scan, and for an auto scan on sorted timestamps from a
   * consistent cursor the last row at or before the time.
   */
  lemma LoadMeaning(info: WheelInfo, keyword: real, column: seq<real>, c: Cursor, dmjd: real)
    requires WellFormed(info) && InRange(info.dmjds, c) && |column| == |info.dmjds|
    ensures !IsAuto(info) ==>
      LoadSpec(info, keyword, column, c, Some(dmjd)).0 == if |info.dmjds| > 0 then column[0] else keyword
    ensures IsAuto(info) && Sorted(info.dmjds) && Consistent(info.dmjds, c) ==>
      var k := LastAtOrBefore(info.dmjds, dmjd);
      LoadSpec(info, keyword, column, c, Some(dmjd)).0 == if k >= 0 then column[k] else keyword
    ensures IsAuto(info) ==> LoadSpec(info, keyword, column, c, None) == (keyword, c)
  {
    if IsAuto(info) && Sorted(info.dmjds) && Consistent(info.dmjds, c) && |info.dmjds| > 0 {
      QueryIsLastAtOrBefore(info.dmjds, c, dmjd);
    }
  }

  /** The receiver's calibration data for one scan, with its time cursor. */
  class Rcvr68_92 {
    const info: WheelInfo
    var lastQueriedDMJD: real
    var lastQueriedIndex: int
    var timeIndexes: map<real, int>

    function State(): Cursor
      reads this
    {
      Cursor(lastQueriedDMJD, lastQueriedIndex, timeIndexes)
    }

    predicate Valid()
      reads this
    {
      WellFormed(info) && InRange(info.dmjds, State())
    }

    /** __init__ after readInfo: the cursor before any query. */
    constructor (info: WheelInfo)
      requires WellFormed(info)
      ensures this.info == info && State() == InitialCursor() && Valid()
    {
      this.info := info;
      lastQueriedDMJD := 0.0;
      lastQueriedIndex := -1;
      timeIndexes := map[];
    }

    /** getIndexFromDMJD: the cursor moves from where the last query left it. */
    method GetIndexFromDMJD(dmjd: Option<real>) returns (r: int)
      requires Valid()
      modifies this
      ensures Valid()
      ensures (r, State()) == Query(info.dmjds, old(State()), dmjd)
    {
      var s := info.dmjds;
      if dmjd.None? || |s| == 0 {
        return -1;
      }
      var x := dmjd.value;
      ghost var spec := Query(s, State(), dmjd);
      var idx := lastQueriedIndex;
      if x > lastQueriedDMJD {
        var i := idx + 1;
        while i < |s|
          invariant lastQueriedIndex + 1 <= i && idx == i - 1
          invariant Forward(s, lastQueriedIndex + 1, x, lastQueriedIndex) == Forward(s, i, x, idx)
          decreases |s| - i
        {
          if x < s[i] {
            break;
          }
          idx := i;
          i := i + 1;
        }
      } else if x < lastQueriedDMJD {
        var pastIndex := idx;
        if pastIndex >= 0 {
          var i := pastIndex;
          while i >= 0
            invariant -1 <= i <= pastIndex
            invariant i >= 0 ==> Backward(s, pastIndex, x) == Backward(s, i, x)
            invariant i < 0 ==> idx == 0 && Backward(s, pastIndex, x) == 0
            decreases i
          {
            idx := i;
            if x >= s[i] {
              break;
            }
            i := i - 1;
          }
        }
        if x < s[0] {
          idx := -1;
        }
      }
      assert idx == spec.0;
      lastQueriedDMJD := x;
      lastQueriedIndex := idx;
      timeIndexes := timeIndexes[x := idx];
      return idx;
    }

    /** isMoving */
    method IsMoving(dmjd: Option<real>, duration: Option<real>) returns (result: bool)
      requires Valid()
      modifies this
      ensures Valid()
      ensures (result, State()) == MovingSpec(info, old(State()), dmjd, duration)
    {
      if !IsAuto(info) {
        return false;
      }
      if dmjd.None? || duration.None? {
        return true;
      }
      var half := HalfWindow(duration.value);
      var startIndex := GetIndexFromDMJD(Some(dmjd.value - half));
      var stopIndex := GetIndexFromDMJD(Some(dmjd.value + half));
      ghost var spec := MovingBetween(info, startIndex, stopIndex);
      if startIndex == stopIndex {
        result := if startIndex < 0 then false else info.moving[startIndex];
      } else {
        result := false;
        if startIndex < 0 {
          startIndex := 0;
        }
        if stopIndex < 0 {
          stopIndex := NumRows(info) - 1;
        }
        result := AnyMoving(info.moving, startIndex, stopIndex);
      }
      assert result == spec;
    }

    /** getPosition */
    method GetPosition(dmjd: Option<real>, duration: Option<real>) returns (result: string)
      requires Valid()
      modifies this
      ensures Valid()
      ensures (result, State()) == PositionSpec(info, old(State()), dmjd, duration)
    {
      if !IsAuto(info) {
        if NumRows(info) > 0 {
          return info.positions[0];
        }
        return info.calPos;
      }
      var mv := IsMoving(dmjd, duration);
      if mv {
        return "Unknown";
      }
      var index := GetIndexFromDMJD(dmjd);
      if index >= 0 {
        return info.positions[index];
      }
      return "Unknown";
    }

    /** getTcold */
    method GetTcold(dmjd: Option<real>) returns (result: real)
      requires Valid()
      modifies this
      ensures Valid()
      ensures (result, State()) == LoadSpec(info, info.tcold, info.tcoldCol, old(State()), dmjd)
    {
      result := GetLoad(info.tcold, info.tcoldCol, dmjd);
    }

    /** getTwarm */
    method GetTwarm(dmjd: Option<real>) returns (result: real)
      requires Valid()
      modifies this
      ensures Valid()
      ensures (result, State()) == LoadSpec(info, info.twarm, info.twarmCol, old(State()), dmjd)
    {
      result := GetLoad(info.twarm, info.twarmCol, dmjd);
    }

    /** The body getTcold and getTwarm share, for one keyword and its column. */
    method GetLoad(keyword: real, column: seq<real>, dmjd: Option<real>) returns (result: real)
      requires Valid() && |column| == |info.dmjds|
      modifies this
      ensures Valid()
      ensures (result, State()) == LoadSpec(info, keyword, column, old(State()), dmjd)
    {
      result := keyword;
      if !IsAuto(info) {
        if info.hasTable {
          result := column[0];
        }
      } else {
        var index := GetIndexFromDMJD(dmjd);
        if index >= 0 {
          result := column[index];
        }
      }
    }
  }

  /** The loop of isMoving over rows lo..hi, stopping at the first moving row. */
  method AnyMoving(moving: seq<bool>, lo: int, hi: int) returns (result: bool)
    requires 0 <= lo && hi < |moving|
    ensures result <==> exists i :: lo <= i <= hi && moving[i]
  {
    result := false;
    var i := lo;
    while i <= hi
      invariant lo <= i && (i <= hi + 1 || i == lo)
      invariant result <==> exists j :: lo <= j < i && moving[j]
    {
      result := result || moving[i];
      if result {
        return;
      }
      i := i + 1;
    }
  }
}
