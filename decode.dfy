// Decode: the receiver-calibration arithmetic of the DCR decoding.  The
// histogram integration of a calibration-temperature curve over a band, the
// noise-diode temperature (Tcal) of a band, the antenna temperature from
// cal-on and cal-off counts, and the phase names and row descriptors.

module Decode {
  import opened Wrappers
  import opened RealSeq
  import opened Text
  import opened DcrTable

  // ---- getHistogramArea ----

  /** The boundary between histogram bins i - 1 and i: the midpoint of x[i - 1] and x[i]. */
  function Mid(x: seq<real>, i: nat): real
    requires 1 <= i < |x|
  {
    (x[i] + x[i - 1]) / 2.0
  }

  /**
   * The start search: the first bin boundary from i on that is not below
   * left, or None when the search runs off the end of x.
   */
  function FindStart(x: seq<real>, left: real, i: nat): (r: Option<nat>)
    requires i >= 1
    ensures r.Some? ==> i <= r.value < |x| && Mid(x, r.value) >= left
    ensures r.Some? ==> forall k :: i <= k < r.value ==> Mid(x, k) < left
    ensures r.None? ==> forall k :: i <= k < |x| ==> Mid(x, k) < left
    decreases |x| - i
  {
    if i >= |x| then None
    else if Mid(x, i) < left then FindStart(x, left, i + 1)
    else Some(i)
  }

  /** The area of a piece of a bin: its width times the bin's value. */
  function Bin(width: real, value: real): real
  {
    width * value
  }

  /** Where the summation stands: the next index, the last boundary added, the area so far. */
  datatype Cursor = Cursor(i: nat, mid: real, area: real)

  /** The middle loop: add whole bins while the next boundary is within right. */
  function SweepBins(x: seq<real>, y: seq<real>, right: real, c: Cursor): (r: Cursor)
    requires |y| == |x| && 1 <= c.i
    ensures c.i <= r.i && (c.i <= |x| ==> r.i <= |x|)
    ensures r.i < |x| ==> Mid(x, r.i) > right
    decreases |x| - c.i
  {
    if c.i >= |x| then c
    else
      var m := Mid(x, c.i);
      if m > right then c
      else SweepBins(x, y, right, Cursor(c.i + 1, m, c.area + Bin(m - c.mid, y[c.i - 1])))
  }

  /** The checks getHistogramArea asserts, in order; an empty x fails on x[0]. */
  function AreaChecks(left: real, right: real, x: seq<real>, y: seq<real>): Option<Error>
  {
    if |x| == 0 then Some(IndexError)
    else if !(x[0] < x[|x| - 1]) then Some(AssertionError)
    else if !(left < right) then Some(AssertionError)
    else if |x| != |y| then Some(AssertionError)
    else None
  }

  /** getHistogramArea as written. */
  function HistogramAreaOf(left: real, right: real, x: seq<real>, y: seq<real>): Result<real>
  {
    match AreaChecks(left, right, x, y)
    case Some(e) => Err(e)
    case None =>
      if right < x[0] then Ok(Bin(right - left, y[0]))
      else if x[|x| - 1] < left then Ok(Bin(right - left, y[|y| - 1]))
      else
        match FindStart(x, left, 1)
        case None => Err(IndexError)
        case Some(i) =>
          var c := SweepBins(x, y, right, Cursor(i + 1, Mid(x, i), Bin(Mid(x, i) - left, y[i - 1])));
          Ok(c.area + Bin(right - c.mid, y[c.i - 1]))
  }

  /**
   * getHistogramArea: the area under y from left to right, each y[k] standing
   * for the bin between the boundaries around x[k].
   */
  method HistogramArea(left: real, right: real, x: seq<real>, y: seq<real>) returns (r: Result<real>)
    ensures r == HistogramAreaOf(left, right, x, y)
  {
    var e := AreaChecks(left, right, x, y);
    if e.Some? {
      return Err(e.value);
    }
    if right < x[0] {
      return Ok(Bin(right - left, y[0]));
    }
    if x[|x| - 1] < left {
      return Ok(Bin(right - left, y[|y| - 1]));
    }
    var start := StartIndex(x, left);
    if start.None? {
      return Err(IndexError);
    }
    var i := start.value;
    var mid := (x[i] + x[i - 1]) / 2.0;
    var c := Sweep(x, y, right, Cursor(i + 1, mid, Bin(mid - left, y[i - 1])));
    return Ok(c.area + Bin(right - c.mid, y[c.i - 1]));
  }

  /** The first loop of getHistogramArea: step i until the boundary before x[i] reaches left. */
  method StartIndex(x: seq<real>, left: real) returns (r: Option<nat>)
    requires |x| >= 2
    ensures r == FindStart(x, left, 1)
  {
    var i := 1;
    var mid := (x[i] + x[i - 1]) / 2.0;
    while mid < left
      invariant 1 <= i < |x| && mid == Mid(x, i)
      invariant FindStart(x, left, i) == FindStart(x, left, 1)
      decreases |x| - i
    {
      i := i + 1;
      if i >= |x| {
        return None;
      }
      mid := (x[i] + x[i - 1]) / 2.0;
    }
    return Some(i);
  }

  /** The second loop of getHistogramArea: add whole bins while the next boundary is within right. */
  method Sweep(x: seq<real>, y: seq<real>, right: real, c: Cursor) returns (r: Cursor)
    requires |y| == |x| && 1 <= c.i <= |x|
    ensures r == SweepBins(x, y, right, c)
  {
    var i, mid, area := c.i, c.mid, c.area;
    while i < |x|
      invariant c.i <= i <= |x|
      invariant SweepBins(x, y, right, Cursor(i, mid, area)) == SweepBins(x, y, right, c)
      decreases |x| - i
    {
      var newMid := (x[i] + x[i - 1]) / 2.0;
      if newMid > right {
        return Cursor(i, mid, area);
      }
      area := area + Bin(newMid - mid, y[i - 1]);
      mid := newMid;
      i := i + 1;
    }
    return Cursor(i, mid, area);
  }

  /**
   * The histogram area with its two edge cases corrected: a band that starts
   * in the last bin, and a band that ends in the bin it starts in, are that
   * bin's value times the band width.
   */
  function CorrectedArea(left: real, right: real, x: seq<real>, y: seq<real>): Result<real>
  {
    match AreaChecks(left, right, x, y)
    case Some(e) => Err(e)
    case None =>
      if right < x[0] then Ok(Bin(right - left, y[0]))
      else if x[|x| - 1] < left then Ok(Bin(right - left, y[|y| - 1]))
      else
        match FindStart(x, left, 1)
        case None => Ok(Bin(right - left, y[|y| - 1]))
        case Some(i) =>
          if Mid(x, i) > right then Ok(Bin(right - left, y[i - 1]))
          else
            var c := SweepBins(x, y, right, Cursor(i + 1, Mid(x, i), Bin(Mid(x, i) - left, y[i - 1])));
            Ok(c.area + Bin(right - c.mid, y[c.i - 1]))
  }

  /** The asserts fail exactly when x is not increasing end to end, the band is empty, or the lengths differ. */
  lemma AreaChecksMeaning(left: real, right: real, x: seq<real>, y: seq<real>)
    requires |x| > 0
    ensures AreaChecks(left, right, x, y).None? <==> x[0] < x[|x| - 1] && left < right && |x| == |y|
    ensures AreaChecks(left, right, x, y).Some? ==> AreaChecks(left, right, x, y).value == AssertionError
  {
  }

  /** With constant y the bins telescope: the area grows by c times the distance covered. */
  lemma {:induction false} SweepConstant(x: seq<real>, y: seq<real>, right: real, c: Cursor, k: real)
    requires |y| == |x| && 1 <= c.i && IsConstant(y, k)
    ensures SweepBins(x, y, right, c).area == c.area + (SweepBins(x, y, right, c).mid - c.mid) * k
    decreases |x| - c.i
  {
    if c.i < |x| && Mid(x, c.i) <= right {
      var m := Mid(x, c.i);
      assert y[c.i - 1] == k;
      var next := Cursor(c.i + 1, m, c.area + Bin(m - c.mid, k));
      assert SweepBins(x, y, right, c) == SweepBins(x, y, right, next);
      SweepConstant(x, y, right, next, k);
      var r := SweepBins(x, y, right, next);
      assert (m - c.mid) * k + (r.mid - m) * k == (r.mid - c.mid) * k;
    }
  }

  /** The area the sweep gives from the first boundary at or after left. */
  function SweptArea(left: real, right: real, x: seq<real>, y: seq<real>, i: nat): real
    requires |y| == |x| && 1 <= i < |x|
  {
    var c := SweepBins(x, y, right, Cursor(i + 1, Mid(x, i), Bin(Mid(x, i) - left, y[i - 1])));
    c.area + Bin(right - c.mid, y[c.i - 1])
  }

  lemma SweptConstant(left: real, right: real, x: seq<real>, y: seq<real>, i: nat, k: real)
    requires |y| == |x| && 1 <= i < |x| && IsConstant(y, k)
    ensures SweptArea(left, right, x, y, i) == (right - left) * k
  {
    var m := Mid(x, i);
    var c0 := Cursor(i + 1, m, Bin(m - left, y[i - 1]));
    assert y[i - 1] == k;
    SweepConstant(x, y, right, c0, k);
    var c := SweepBins(x, y, right, c0);
    assert y[c.i - 1] == k;
    assert (m - left) * k + (c.mid - m) * k + (right - c.mid) * k == (right - left) * k;
  }

  /** The as-written area in the sweep case is the swept area. */
  lemma HistogramSweeps(left: real, right: real, x: seq<real>, y: seq<real>)
    requires AreaChecks(left, right, x, y).None? && x[0] <= right && left <= x[|x| - 1]
    ensures FindStart(x, left, 1).Some? ==>
      HistogramAreaOf(left, right, x, y) == Ok(SweptArea(left, right, x, y, FindStart(x, left, 1).value))
    ensures FindStart(x, left, 1).None? ==> HistogramAreaOf(left, right, x, y) == Err(IndexError)
  {
  }

  /** The corrected area in each of its cases. */
  lemma CorrectedCases(left: real, right: real, x: seq<real>, y: seq<real>)
    requires AreaChecks(left, right, x, y).None? && x[0] <= right && left <= x[|x| - 1]
    ensures var f := FindStart(x, left, 1);
      CorrectedArea(left, right, x, y) ==
        if f.None? then Ok(Bin(right - left, y[|y| - 1]))
        else if Mid(x, f.value) > right then Ok(Bin(right - left, y[f.value - 1]))
        else Ok(SweptArea(left, right, x, y, f.value))
  {
  }

  /** As written, a constant curve c that gives an area gives (right - left) * c. */
  lemma HistogramConstant(left: real, right: real, x: seq<real>, y: seq<real>, k: real)
    requires IsConstant(y, k)
    ensures HistogramAreaOf(left, right, x, y).Ok? ==> HistogramAreaOf(left, right, x, y).value == (right - left) * k
  {
    if AreaChecks(left, right, x, y).None? && x[0] <= right && left <= x[|x| - 1] {
      HistogramSweeps(left, right, x, y);
      if FindStart(x, left, 1).Some? {
        SweptConstant(left, right, x, y, FindStart(x, left, 1).value, k);
      }
    }
  }

  /** Corrected, a constant curve c gives (right - left) * c. */
  lemma CorrectedConstant(left: real, right: real, x: seq<real>, y: seq<real>, k: real)
    requires IsConstant(y, k)
    ensures CorrectedArea(left, right, x, y).Ok? ==> CorrectedArea(left, right, x, y).value == (right - left) * k
  {
    if AreaChecks(left, right, x, y).None? && x[0] <= right && left <= x[|x| - 1] {
      CorrectedCases(left, right, x, y);
      var f := FindStart(x, left, 1);
      if f.None? {
        assert y[|y| - 1] == k;
      } else if Mid(x, f.value) > right {
        assert y[f.value - 1] == k;
      } else {
        SweptConstant(left, right, x, y, f.value, k);
      }
    } else if AreaChecks(left, right, x, y).None? {
      assert y[0] == k && y[|y| - 1] == k;
    }
  }

  /** Corrected, the only failures are the asserts. */
  lemma CorrectedTotal(left: real, right: real, x: seq<real>, y: seq<real>)
    ensures CorrectedArea(left, right, x, y).Err? <==> AreaChecks(left, right, x, y).Some?
  {
  }

  lemma MulBounds(w: real, v: real, lo: real, hi: real)
    requires w >= 0.0 && lo <= v <= hi
    ensures lo * w <= Bin(w, v) <= hi * w
  {
  }

  /** On increasing x the bin boundaries increase. */
  lemma MidIncreasing(x: seq<real>, i: nat)
    requires Sorted(x) && 2 <= i < |x|
    ensures Mid(x, i - 1) <= Mid(x, i)
  {
    assert x[i - 2] <= x[i] && x[i - 1] <= x[i];
  }

  lemma BinMonotone(w: real, v: real, v': real)
    requires w >= 0.0 && v <= v'
    ensures Bin(w, v) <= Bin(w, v')
  {
  }

  predicate Below(y: seq<real>, y': seq<real>)
  {
    |y| == |y'| && forall k :: 0 <= k < |y| ==> y[k] <= y'[k]
  }

  /** One step of the sweep. */
  lemma SweepStep(x: seq<real>, y: seq<real>, right: real, c: Cursor)
    requires |y| == |x| && 1 <= c.i < |x| && Mid(x, c.i) <= right
    ensures SweepBins(x, y, right, c) ==
      SweepBins(x, y, right, Cursor(c.i + 1, Mid(x, c.i), c.area + Bin(Mid(x, c.i) - c.mid, y[c.i - 1])))
  {
  }

  /** The bins the sweep visits depend on x and right only; it ends on a boundary within right. */
  lemma SweepPath(x: seq<real>, y: seq<real>, y': seq<real>, right: real, c: Cursor, a': real)
    requires |y| == |x| && |y'| == |x| && 2 <= c.i <= |x| && c.mid == Mid(x, c.i - 1) && c.mid <= right
    ensures var r, r' := SweepBins(x, y, right, c), SweepBins(x, y', right, c.(area := a'));
      r.i == r'.i && r.mid == r'.mid && c.i <= r.i <= |x| && r.mid == Mid(x, r.i - 1) && r.mid <= right
  {
    SweepSameStop(x, y, y', right, c, a');
    SweepEnd(x, y, right, c);
  }

  /** Two sweeps from the same boundary stop at the same boundary, whatever the curves and areas. */
  lemma {:induction false} SweepSameStop(x: seq<real>, y: seq<real>, y': seq<real>, right: real, c: Cursor, a': real)
    requires |y| == |x| && |y'| == |x| && 1 <= c.i
    ensures var r, r' := SweepBins(x, y, right, c), SweepBins(x, y', right, c.(area := a'));
      r.i == r'.i && r.mid == r'.mid
    decreases |x| - c.i
  {
    if c.i < |x| && Mid(x, c.i) <= right {
      var c' := c.(area := a');
      SweepStep(x, y, right, c);
      SweepStep(x, y', right, c');
      var m := Mid(x, c.i);
      var n := Cursor(c.i + 1, m, c.area + Bin(m - c.mid, y[c.i - 1]));
      var b' := a' + Bin(m - c.mid, y'[c.i - 1]);
      assert SweepBins(x, y', right, c') == SweepBins(x, y', right, n.(area := b'));
      SweepSameStop(x, y, y', right, n, b');
    }
  }

  /** A sweep from a boundary within right ends on a boundary within right. */
  lemma {:induction false} SweepEnd(x: seq<real>, y: seq<real>, right: real, c: Cursor)
    requires |y| == |x| && 2 <= c.i <= |x| && c.mid == Mid(x, c.i - 1) && c.mid <= right
    ensures var r := SweepBins(x, y, right, c);
      c.i <= r.i <= |x| && r.mid == Mid(x, r.i - 1) && r.mid <= right
    decreases |x| - c.i
  {
    if c.i < |x| && Mid(x, c.i) <= right {
      SweepStep(x, y, right, c);
      var m := Mid(x, c.i);
      SweepEnd(x, y, right, Cursor(c.i + 1, m, c.area + Bin(m - c.mid, y[c.i - 1])));
    }
  }

  /** On increasing x, a curve that is nowhere higher sweeps no more area. */
  lemma {:induction false} SweepMonotone(x: seq<real>, y: seq<real>, y': seq<real>, right: real, c: Cursor, a': real)
    requires |y| == |x| && Below(y, y') && 2 <= c.i <= |x| && c.mid == Mid(x, c.i - 1) && c.mid <= right
    requires Sorted(x) && c.area <= a'
    ensures SweepBins(x, y, right, c).area <= SweepBins(x, y', right, c.(area := a')).area
    decreases |x| - c.i
  {
    if c.i < |x| && Mid(x, c.i) <= right {
      var c' := c.(area := a');
      var m := Mid(x, c.i);
      MidIncreasing(x, c.i);
      BinMonotone(m - c.mid, y[c.i - 1], y'[c.i - 1]);
      SweepStep(x, y, right, c);
      SweepStep(x, y', right, c');
      var n := Cursor(c.i + 1, m, c.area + Bin(m - c.mid, y[c.i - 1]));
      var b' := a' + Bin(m - c.mid, y'[c.i - 1]);
      assert n.area <= b';
      assert SweepBins(x, y', right, c') == SweepBins(x, y', right, n.(area := b'));
      SweepMonotone(x, y, y', right, n, b');
    }
  }

  /** The swept area is monotone in the curve. */
  lemma SweptMonotone(left: real, right: real, x: seq<real>, y: seq<real>, y': seq<real>, i: nat)
    requires |y| == |x| && Below(y, y') && 1 <= i < |x| && Sorted(x) && left <= Mid(x, i) <= right
    ensures SweptArea(left, right, x, y, i) <= SweptArea(left, right, x, y', i)
  {
    var m := Mid(x, i);
    var a, a' := Bin(m - left, y[i - 1]), Bin(m - left, y'[i - 1]);
    BinMonotone(m - left, y[i - 1], y'[i - 1]);
    var c0 := Cursor(i + 1, m, a);
    SweepMonotone(x, y, y', right, c0, a');
    SweepPath(x, y, y', right, c0, a');
    var r, r' := SweepBins(x, y, right, c0), SweepBins(x, y', right, c0.(area := a'));
    assert SweptArea(left, right, x, y, i) == r.area + Bin(right - r.mid, y[r.i - 1]);
    assert SweptArea(left, right, x, y', i) == r'.area + Bin(right - r.mid, y'[r.i - 1]);
    BinMonotone(right - r.mid, y[r.i - 1], y'[r.i - 1]);
  }

  /** Corrected, the area over increasing x is monotone in the curve. */
  lemma CorrectedMonotone(left: real, right: real, x: seq<real>, y: seq<real>, y': seq<real>)
    requires Sorted(x) && Below(y, y')
    ensures CorrectedArea(left, right, x, y).Ok? <==> CorrectedArea(left, right, x, y').Ok?
    ensures CorrectedArea(left, right, x, y).Ok? ==>
      CorrectedArea(left, right, x, y).value <= CorrectedArea(left, right, x, y').value
  {
    if AreaChecks(left, right, x, y).None? {
      var w := right - left;
      if right < x[0] {
        BinMonotone(w, y[0], y'[0]);
      } else if x[|x| - 1] < left {
        BinMonotone(w, y[|y| - 1], y'[|y| - 1]);
      } else {
        CorrectedCases(left, right, x, y);
        CorrectedCases(left, right, x, y');
        var f := FindStart(x, left, 1);
        if f.None? {
          BinMonotone(w, y[|y| - 1], y'[|y| - 1]);
        } else if Mid(x, f.value) > right {
          BinMonotone(w, y[f.value - 1], y'[f.value - 1]);
        } else {
          SweptMonotone(left, right, x, y, y', f.value);
        }
      }
    }
  }

  /**
   * Corrected, the area of a curve between lo and hi over increasing x lies
   * between lo and hi times the band width.
   */
  lemma CorrectedBounds(left: real, right: real, x: seq<real>, y: seq<real>, lo: real, hi: real)
    requires Sorted(x) && forall k :: 0 <= k < |y| ==> lo <= y[k] <= hi
    ensures CorrectedArea(left, right, x, y).Ok? ==>
      Bin(right - left, lo) <= CorrectedArea(left, right, x, y).value <= Bin(right - left, hi)
  {
    var low, high := Constant(|y|, lo), Constant(|y|, hi);
    CorrectedMonotone(left, right, x, low, y);
    CorrectedMonotone(left, right, x, y, high);
    CorrectedConstant(left, right, x, low, lo);
    CorrectedConstant(left, right, x, high, hi);
  }

  /** As written, a band inside the last bin makes the start search read x past its end. */
  lemma HistogramReadsPastEnd()
    ensures HistogramAreaOf(6.0, 8.0, [0.0, 10.0], [1.0, 1.0]) == Err(IndexError)
    ensures CorrectedArea(6.0, 8.0, [0.0, 10.0], [1.0, 1.0]) == Ok(2.0)
  {
    assert Mid([0.0, 10.0], 1) == 5.0;
  }

  /**
   * As written, a band that ends before the first boundary it finds charges
   * the overshoot to the next bin: a curve of 1 and 3 gets a negative area.
   */
  lemma HistogramNegative()
    ensures HistogramAreaOf(1.0, 2.0, [0.0, 10.0], [1.0, 3.0]) == Ok(-5.0)
    ensures CorrectedArea(1.0, 2.0, [0.0, 10.0], [1.0, 3.0]) == Ok(1.0)
  {
    var x, y := [0.0, 10.0], [1.0, 3.0];
    assert Mid(x, 1) == 5.0;
    assert FindStart(x, 1.0, 1) == Some(1);
    assert SweepBins(x, y, 2.0, Cursor(2, 5.0, 4.0)) == Cursor(2, 5.0, 4.0);
  }

  // ---- getTcal ----

  /** One row of the receiver calibration table. */
  datatype CalRow = CalRow(feed: int, receptor: string, polarize: string, frequency: real,
                           highCalTemp: real, lowCalTemp: real)

  /** The rows of a feed, receptor and polarization, in order. */
  function Matching(rows: seq<CalRow>, feed: int, receptor: string, pol: string): seq<CalRow>
  {
    if |rows| == 0 then []
    else
      var rest := Matching(rows[1..], feed, receptor, pol);
      if rows[0].feed == feed && rows[0].receptor == receptor && rows[0].polarize == pol
      then [rows[0]] + rest else rest
  }

  /** The selection keeps exactly the rows of the feed, receptor and polarization, and no more rows. */
  lemma {:induction false} MatchingMeaning(rows: seq<CalRow>, feed: int, receptor: string, pol: string)
    ensures |Matching(rows, feed, receptor, pol)| <= |rows|
    ensures forall q :: q in Matching(rows, feed, receptor, pol) <==>
      q in rows && q.feed == feed && q.receptor == receptor && q.polarize == pol
  {
    if |rows| > 0 {
      MatchingMeaning(rows[1..], feed, receptor, pol);
      assert forall q :: q in rows <==> q == rows[0] || q in rows[1..];
    }
  }

  function Frequencies(rows: seq<CalRow>): (r: seq<real>)
    ensures |r| == |rows| && forall k :: 0 <= k < |r| ==> r[k] == rows[k].frequency
  {
    seq(|rows|, k requires 0 <= k < |rows| => rows[k].frequency)
  }

  /** HIGH_CAL_TEMP when highCal is set, LOW_CAL_TEMP otherwise. */
  function CalTemps(rows: seq<CalRow>, highCal: int): (r: seq<real>)
    ensures |r| == |rows|
    ensures forall k :: 0 <= k < |r| ==> r[k] == if highCal != 0 then rows[k].highCalTemp else rows[k].lowCalTemp
  {
    seq(|rows|, k requires 0 <= k < |rows| => if highCal != 0 then rows[k].highCalTemp else rows[k].lowCalTemp)
  }

  function Abs(v: real): real
  {
    if v < 0.0 then -v else v
  }

  /**
   * getTcal: the histogram area of the matching rows' calibration
   * temperatures over the band [center - bandwidth / 2, center + bandwidth / 2],
   * divided by the width of the band.
   */
  function Tcal(rows: seq<CalRow>, feed: int, receptor: string, pol: string, highCal: int,
                center: real, bandwidth: real): Result<real>
  {
    TcalOver(Matching(rows, feed, receptor, pol), highCal, center, bandwidth)
  }

  /** The rest of getTcal once the mask has selected the rows m. */
  function TcalOver(m: seq<CalRow>, highCal: int, center: real, bandwidth: real): Result<real>
  {
    HistogramMean(center - bandwidth / 2.0, center + bandwidth / 2.0, Frequencies(m), CalTemps(m, highCal))
  }

  /** The as-written area under y over [left, right] divided by the width of the band. */
  function HistogramMean(left: real, right: real, x: seq<real>, y: seq<real>): Result<real>
  {
    var area :- HistogramAreaOf(left, right, x, y);
    Ok(Ratio(area, Abs(right - left)))
  }

  /** getTcal as evidently intended: the mean of the curve over the band, from the corrected area. */
  function CorrectedTcal(rows: seq<CalRow>, feed: int, receptor: string, pol: string, highCal: int,
                         center: real, bandwidth: real): Result<real>
  {
    var m := Matching(rows, feed, receptor, pol);
    BandMean(center - bandwidth / 2.0, center + bandwidth / 2.0, Frequencies(m), CalTemps(m, highCal))
  }

  /** The area under y over [left, right] divided by the width of the band. */
  function BandMean(left: real, right: real, x: seq<real>, y: seq<real>): Result<real>
  {
    var area :- CorrectedArea(left, right, x, y);
    Ok(Ratio(area, Abs(right - left)))
  }

  /** area / width, kept as a function so that the division stays out of unrelated proofs. */
  function Ratio(area: real, width: real): real
  {
    if width == 0.0 then 0.0 else area / width
  }

  /**
   * The two cases where getHistogramArea goes wrong: the band lies inside x,
   * and the start search either runs off the end of x or stops at a bin
   * boundary already past right.
   */
  predicate StartOverruns(left: real, right: real, x: seq<real>)
  {
    |x| > 0 && x[0] <= right && left <= x[|x| - 1] &&
    (FindStart(x, left, 1).None? || Mid(x, FindStart(x, left, 1).value) > right)
  }

  /**
   * getTcal succeeds exactly when some row matches, the matching frequencies
   * increase end to end, the bandwidth is positive, and the band lies outside
   * the frequencies or some bin boundary is at or past its start; an empty
   * selection and a start search that runs off the end fail with IndexError,
   * the rest on the asserts.
   */
  lemma TcalErrors(rows: seq<CalRow>, feed: int, receptor: string, pol: string, highCal: int,
                   center: real, bandwidth: real)
    ensures var m := Matching(rows, feed, receptor, pol);
      var left, right, x := center - bandwidth / 2.0, center + bandwidth / 2.0, Frequencies(m);
      (Tcal(rows, feed, receptor, pol, highCal, center, bandwidth).Ok? <==>
        |m| > 0 && m[0].frequency < m[|m| - 1].frequency && bandwidth > 0.0 &&
        (right < m[0].frequency || m[|m| - 1].frequency < left || exists k :: 1 <= k < |m| && Mid(x, k) >= left)) &&
      (|m| == 0 ==> Tcal(rows, feed, receptor, pol, highCal, center, bandwidth) == Err(IndexError)) &&
      (|m| > 0 && m[0].frequency < m[|m| - 1].frequency && bandwidth > 0.0 && m[0].frequency <= right &&
       left <= m[|m| - 1].frequency && (forall k :: 1 <= k < |m| ==> Mid(x, k) < left) ==>
        Tcal(rows, feed, receptor, pol, highCal, center, bandwidth) == Err(IndexError))
  {
    var m := Matching(rows, feed, receptor, pol);
    var left, right := center - bandwidth / 2.0, center + bandwidth / 2.0;
    var x, y := Frequencies(m), CalTemps(m, highCal);
    assert left < right <==> bandwidth > 0.0;
    HistogramTotal(left, right, x, y);
    assert Tcal(rows, feed, receptor, pol, highCal, center, bandwidth).Ok? <==> HistogramAreaOf(left, right, x, y).Ok?;
    if |m| > 0 {
      assert x[0] == m[0].frequency && x[|x| - 1] == m[|m| - 1].frequency;
      AreaChecksMeaning(left, right, x, y);
    }
  }

  /**
   * The as-written area exists exactly when the checks pass and the band
   * lies outside x or some bin boundary is at or past left; inside x with
   * every boundary below left it is IndexError.
   */
  lemma HistogramTotal(left: real, right: real, x: seq<real>, y: seq<real>)
    ensures HistogramAreaOf(left, right, x, y).Ok? <==>
      AreaChecks(left, right, x, y).None? &&
      (right < x[0] || x[|x| - 1] < left || exists k :: 1 <= k < |x| && Mid(x, k) >= left)
    ensures (AreaChecks(left, right, x, y).None? && x[0] <= right && left <= x[|x| - 1] &&
      forall k :: 1 <= k < |x| ==> Mid(x, k) < left) ==> HistogramAreaOf(left, right, x, y) == Err(IndexError)
  {
    if AreaChecks(left, right, x, y).None? {
      var f := FindStart(x, left, 1);
      if f.Some? {
        assert 1 <= f.value < |x| && Mid(x, f.value) >= left;
      }
    }
  }

  /**
   * The corrected getTcal succeeds exactly when some row matches, the
   * matching frequencies increase end to end and the bandwidth is positive;
   * an empty selection fails on x[0], the rest on the asserts.
   */
  lemma CorrectedTcalErrors(rows: seq<CalRow>, feed: int, receptor: string, pol: string, highCal: int,
                            center: real, bandwidth: real)
    ensures var m := Matching(rows, feed, receptor, pol);
      (CorrectedTcal(rows, feed, receptor, pol, highCal, center, bandwidth).Ok? <==>
        |m| > 0 && m[0].frequency < m[|m| - 1].frequency && bandwidth > 0.0) &&
      (|m| == 0 ==> CorrectedTcal(rows, feed, receptor, pol, highCal, center, bandwidth) == Err(IndexError))
  {
    var m := Matching(rows, feed, receptor, pol);
    var left, right := center - bandwidth / 2.0, center + bandwidth / 2.0;
    var x, y := Frequencies(m), CalTemps(m, highCal);
    assert left < right <==> bandwidth > 0.0;
    CorrectedTotal(left, right, x, y);
    assert CorrectedTcal(rows, feed, receptor, pol, highCal, center, bandwidth).Ok? <==> AreaChecks(left, right, x, y).None?;
    if |m| > 0 {
      assert x[0] == m[0].frequency && x[|x| - 1] == m[|m| - 1].frequency;
      AreaChecksMeaning(left, right, x, y);
    }
  }

  /** An area accepted by the checks comes from a band of positive width. */
  lemma PositiveWidth(left: real, right: real, x: seq<real>, y: seq<real>)
    ensures CorrectedArea(left, right, x, y).Ok? ==> left < right && Abs(right - left) == right - left
  {
    if |x| > 0 {
      AreaChecksMeaning(left, right, x, y);
    }
  }

  lemma DivideOut(a: Result<real>, w: real, k: real)
    requires a.Ok? ==> w > 0.0 && a.value == w * k
    ensures a.Ok? ==> Ratio(a.value, w) == k
  {
  }

  lemma DivideBetween(a: Result<real>, w: real, lo: real, hi: real)
    requires a.Ok? ==> w > 0.0 && Bin(w, lo) <= a.value <= Bin(w, hi)
    ensures a.Ok? ==> lo <= Ratio(a.value, w) <= hi
  {
    if a.Ok? {
      assert a.value / w * w == a.value;
    }
  }

  /** A constant curve k gives a mean of k over the band. */
  lemma MeanOfConstant(left: real, right: real, x: seq<real>, y: seq<real>, k: real)
    requires IsConstant(y, k)
    ensures BandMean(left, right, x, y).Ok? ==> BandMean(left, right, x, y).value == k
  {
    var a := CorrectedArea(left, right, x, y);
    CorrectedConstant(left, right, x, y, k);
    PositiveWidth(left, right, x, y);
    DivideOut(a, right - left, k);
  }

  /** Every value of y lies in [lo, hi]. */
  predicate Within(y: seq<real>, lo: real, hi: real)
  {
    |y| == 0 || (lo <= y[0] <= hi && Within(y[1..], lo, hi))
  }

  lemma {:induction false} WithinAll(y: seq<real>, lo: real, hi: real)
    ensures Within(y, lo, hi) <==> forall k :: 0 <= k < |y| ==> lo <= y[k] <= hi
  {
    if |y| > 0 {
      WithinAll(y[1..], lo, hi);
      assert forall k :: 1 <= k < |y| ==> y[k] == y[1..][k - 1];
    }
  }

  /** A curve between lo and hi over increasing x has a mean between lo and hi over the band. */
  lemma MeanBounded(left: real, right: real, x: seq<real>, y: seq<real>, lo: real, hi: real)
    requires Sorted(x) && Within(y, lo, hi)
    ensures BandMean(left, right, x, y).Ok? ==> lo <= BandMean(left, right, x, y).value <= hi
  {
    var a := CorrectedArea(left, right, x, y);
    WithinAll(y, lo, hi);
    CorrectedBounds(left, right, x, y, lo, hi);
    PositiveWidth(left, right, x, y);
    DivideBetween(a, right - left, lo, hi);
  }

  /** A calibration temperature that is the same c at every frequency gives Tcal = c, as written too. */
  lemma TcalConstant(rows: seq<CalRow>, feed: int, receptor: string, pol: string, highCal: int,
                     center: real, bandwidth: real, k: real)
    requires IsConstant(CalTemps(Matching(rows, feed, receptor, pol), highCal), k)
    ensures Tcal(rows, feed, receptor, pol, highCal, center, bandwidth).Ok? ==>
      Tcal(rows, feed, receptor, pol, highCal, center, bandwidth).value == k
  {
    var m := Matching(rows, feed, receptor, pol);
    HistogramMeanConstant(center - bandwidth / 2.0, center + bandwidth / 2.0, Frequencies(m), CalTemps(m, highCal), k);
  }

  /** As written, a constant curve k that gives an area gives k once divided by the band width. */
  lemma HistogramMeanConstant(left: real, right: real, x: seq<real>, y: seq<real>, k: real)
    requires IsConstant(y, k)
    ensures HistogramMean(left, right, x, y).Ok? ==> HistogramMean(left, right, x, y).value == k
  {
    var a := HistogramAreaOf(left, right, x, y);
    HistogramConstant(left, right, x, y, k);
    if a.Ok? {
      AreaChecksMeaning(left, right, x, y);
      DivideOut(a, right - left, k);
    }
  }

  /**
   * getTcal as written is the band mean of the matching curve whenever it
   * succeeds and the start search neither runs off the end nor stops past
   * the band; a success is always one of the corrected getTcal too.
   */
  lemma TcalIsBandMean(rows: seq<CalRow>, feed: int, receptor: string, pol: string, highCal: int,
                       center: real, bandwidth: real)
    ensures var m := Matching(rows, feed, receptor, pol);
      var left, right := center - bandwidth / 2.0, center + bandwidth / 2.0;
      var t := Tcal(rows, feed, receptor, pol, highCal, center, bandwidth);
      (t.Ok? ==> BandMean(left, right, Frequencies(m), CalTemps(m, highCal)).Ok?) &&
      (t.Ok? && !StartOverruns(left, right, Frequencies(m)) ==>
        t == BandMean(left, right, Frequencies(m), CalTemps(m, highCal)))
  {
    var m := Matching(rows, feed, receptor, pol);
    var left, right := center - bandwidth / 2.0, center + bandwidth / 2.0;
    var x, y := Frequencies(m), CalTemps(m, highCal);
    HistogramAgrees(left, right, x, y);
  }

  /**
   * The as-written area exists only where the corrected one does, and the
   * two agree unless the start search runs off the end or stops past the band.
   */
  lemma HistogramAgrees(left: real, right: real, x: seq<real>, y: seq<real>)
    ensures HistogramAreaOf(left, right, x, y).Ok? ==> CorrectedArea(left, right, x, y).Ok?
    ensures HistogramAreaOf(left, right, x, y).Ok? && !StartOverruns(left, right, x) ==>
      HistogramAreaOf(left, right, x, y) == CorrectedArea(left, right, x, y)
    ensures HistogramMean(left, right, x, y).Ok? ==> BandMean(left, right, x, y).Ok?
    ensures HistogramMean(left, right, x, y).Ok? && !StartOverruns(left, right, x) ==>
      HistogramMean(left, right, x, y) == BandMean(left, right, x, y)
  {
    if AreaChecks(left, right, x, y).None? && x[0] <= right && left <= x[|x| - 1] {
      HistogramSweeps(left, right, x, y);
      CorrectedCases(left, right, x, y);
    }
  }

  /**
   * Over increasing frequencies, getTcal lies between the smallest and
   * largest calibration temperature, unless the start search stops past the
   * band (where the as-written area can go negative).
   */
  lemma TcalBounds(rows: seq<CalRow>, feed: int, receptor: string, pol: string, highCal: int,
                   center: real, bandwidth: real, lo: real, hi: real)
    requires Sorted(Frequencies(Matching(rows, feed, receptor, pol)))
    requires Within(CalTemps(Matching(rows, feed, receptor, pol), highCal), lo, hi)
    ensures (Tcal(rows, feed, receptor, pol, highCal, center, bandwidth).Ok? &&
      !StartOverruns(center - bandwidth / 2.0, center + bandwidth / 2.0, Frequencies(Matching(rows, feed, receptor, pol)))) ==>
      lo <= Tcal(rows, feed, receptor, pol, highCal, center, bandwidth).value <= hi
  {
    var m := Matching(rows, feed, receptor, pol);
    TcalIsBandMean(rows, feed, receptor, pol, highCal, center, bandwidth);
    MeanBounded(center - bandwidth / 2.0, center + bandwidth / 2.0, Frequencies(m), CalTemps(m, highCal), lo, hi);
  }

  /** Over increasing frequencies, the corrected getTcal always lies between the smallest and largest temperature. */
  lemma CorrectedTcalBounds(rows: seq<CalRow>, feed: int, receptor: string, pol: string, highCal: int,
                            center: real, bandwidth: real, lo: real, hi: real)
    requires Sorted(Frequencies(Matching(rows, feed, receptor, pol)))
    requires Within(CalTemps(Matching(rows, feed, receptor, pol), highCal), lo, hi)
    ensures CorrectedTcal(rows, feed, receptor, pol, highCal, center, bandwidth).Ok? ==>
      lo <= CorrectedTcal(rows, feed, receptor, pol, highCal, center, bandwidth).value <= hi
  {
    var m := Matching(rows, feed, receptor, pol);
    assert CorrectedTcal(rows, feed, receptor, pol, highCal, center, bandwidth) ==
      BandMean(center - bandwidth / 2.0, center + bandwidth / 2.0, Frequencies(m), CalTemps(m, highCal));
    MeanBounded(center - bandwidth / 2.0, center + bandwidth / 2.0, Frequencies(m), CalTemps(m, highCal), lo, hi);
  }

  /**
   * The two edge cases at the level of getTcal: a band [6, 8] over
   * frequencies 0 and 10 raises IndexError, and a band [1, 2] over a curve of
   * 1 and 3 gives -5 where the corrected mean is 1.
   */
  lemma TcalEdgeCases()
    ensures var rows := [CalRow(0, "R", "X", 0.0, 1.0, 1.0), CalRow(0, "R", "X", 10.0, 1.0, 1.0)];
      Tcal(rows, 0, "R", "X", 1, 7.0, 2.0) == Err(IndexError) &&
      CorrectedTcal(rows, 0, "R", "X", 1, 7.0, 2.0) == Ok(1.0)
    ensures var rows := [CalRow(0, "R", "X", 0.0, 1.0, 1.0), CalRow(0, "R", "X", 10.0, 3.0, 3.0)];
      Tcal(rows, 0, "R", "X", 1, 1.5, 1.0) == Ok(-5.0) &&
      CorrectedTcal(rows, 0, "R", "X", 1, 1.5, 1.0) == Ok(1.0)
  {
    var rows := [CalRow(0, "R", "X", 0.0, 1.0, 1.0), CalRow(0, "R", "X", 10.0, 1.0, 1.0)];
    assert Matching(rows, 0, "R", "X") == rows;
    assert Frequencies(rows) == [0.0, 10.0] && CalTemps(rows, 1) == [1.0, 1.0];
    HistogramReadsPastEnd();
    var rows' := [CalRow(0, "R", "X", 0.0, 1.0, 1.0), CalRow(0, "R", "X", 10.0, 3.0, 3.0)];
    assert Matching(rows', 0, "R", "X") == rows';
    assert Frequencies(rows') == [0.0, 10.0] && CalTemps(rows', 1) == [1.0, 3.0];
    HistogramNegative();
  }

  // ---- getAntennaTemperature ----

  /** The mean over the integrations of (on - off) / tCal: counts per kelvin. */
  function CountsPerKelvin(on: seq<real>, off: seq<real>, tCal: real): real
    requires |on| == |off| && |on| > 0 && tCal != 0.0
  {
    Sum(seq(|on|, j requires 0 <= j < |on| => (on[j] - off[j]) / tCal)) / (|on| as real)
  }

  /**
   * getAntennaTemperature: the mean of cal-on and cal-off counts in kelvin,
   * less half the diode temperature.  Arrays of different lengths do not
   * broadcast; a zero tCal or a zero counts-per-kelvin gives no finite result.
   */
  function AntennaTemperature(on: seq<real>, off: seq<real>, tCal: real): (r: Result<seq<real>>)
    ensures r.Ok? ==> |r.value| == |on|
    ensures r.Err? <==> |on| != |off| || (|on| > 0 && (tCal == 0.0 || CountsPerKelvin(on, off, tCal) == 0.0))
  {
    if |on| != |off| then Err(ValueError("cannot broadcast"))
    else if |on| == 0 then Ok([])
    else if tCal == 0.0 then Err(NonFinite)
    else
      var cpk := CountsPerKelvin(on, off, tCal);
      if cpk == 0.0 then Err(NonFinite)
      else Ok(seq(|on|, j requires 0 <= j < |on| => 0.5 * (on[j] + off[j]) / cpk - 0.5 * tCal))
  }

  lemma GainRecovered(g: real, tCal: real, t: real, off: real)
    requires g != 0.0 && tCal != 0.0 && off == g * t
    ensures ((off + g * tCal) - off) / tCal == g
    ensures 0.5 * ((off + g * tCal) + off) / g - 0.5 * tCal == t
  {
    assert (off + g * tCal) - off == g * tCal;
    assert 0.5 * ((off + g * tCal) + off) == g * (t + 0.5 * tCal);
  }

  /**
   * Counts that are a gain g times the sky temperature, with the diode
   * adding g × tCal when on, convert back to the sky temperature.
   */
  lemma AntennaTemperatureRecovers(temps: seq<real>, g: real, tCal: real, on: seq<real>, off: seq<real>)
    requires g != 0.0 && tCal != 0.0 && |temps| > 0
    requires |off| == |temps| && forall j :: 0 <= j < |off| ==> off[j] == g * temps[j]
    requires |on| == |temps| && forall j :: 0 <= j < |on| ==> on[j] == off[j] + g * tCal
    ensures AntennaTemperature(on, off, tCal) == Ok(temps)
  {
    var ratios := seq(|on|, j requires 0 <= j < |on| => (on[j] - off[j]) / tCal);
    forall j | 0 <= j < |on| ensures ratios[j] == g {
      GainRecovered(g, tCal, temps[j], off[j]);
    }
    SumConstant(ratios, g);
    assert CountsPerKelvin(on, off, tCal) == g;
    var ta := seq(|on|, j requires 0 <= j < |on| => 0.5 * (on[j] + off[j]) / g - 0.5 * tCal);
    assert AntennaTemperature(on, off, tCal) == Ok(ta);
    forall j | 0 <= j < |on| ensures ta[j] == temps[j] {
      GainRecovered(g, tCal, temps[j], off[j]);
    }
    assert ta == temps;
  }

  // ---- phase names and descriptors ----

  /** sigCalStateToPhaseName */
  function PhaseName(sigref: int, cal: int): string
  {
    (if sigref == 0 then "Signal" else "Reference") + " / " + (if cal == 1 then "Cal" else "No Cal")
  }

  /** Reading a phase name back. */
  function PhaseOfName(name: string): Option<StateRow>
  {
    if name == "Signal / No Cal" then Some(StateRow(0, 0))
    else if name == "Signal / Cal" then Some(StateRow(0, 1))
    else if name == "Reference / No Cal" then Some(StateRow(1, 0))
    else if name == "Reference / Cal" then Some(StateRow(1, 1))
    else None
  }

  /** "Signal" exactly for SIGREF 0 and "Cal" exactly for CAL 1; names of 0/1 states read back, so the four differ. */
  lemma PhaseNameMeaning(sigref: int, cal: int)
    ensures StartsWith(PhaseName(sigref, cal), "Signal") <==> sigref == 0
    ensures StartsWith(PhaseName(sigref, cal), "Signal / Cal") || StartsWith(PhaseName(sigref, cal), "Reference / Cal")
      <==> cal == 1
    ensures (sigref == 0 || sigref == 1) && (cal == 0 || cal == 1) ==>
      PhaseOfName(PhaseName(sigref, cal)) == Some(StateRow(sigref, cal))
  {
    var n := PhaseName(sigref, cal);
    if sigref != 0 {
      assert n[0] == 'R';
    }
    if cal != 1 {
      if sigref == 0 {
        assert n[9] == 'N';
      } else {
        assert n[12] == 'N' && n[0] == 'R';
      }
    }
  }

  /** One entry of getDcrDataDescriptors. */
  datatype Descriptor = Descriptor(feed: int, pol: string, freq: real, phase: string)

  function DescriptorOf(row: DcrRow): Descriptor
  {
    Descriptor(row.feed, Strip(row.polarize), row.centerSky, PhaseName(row.sigref, row.cal))
  }

  /** getDcrDataDescriptors: one descriptor per row, in row order. */
  method DcrDataDescriptors(rows: seq<DcrRow>) returns (ds: seq<Descriptor>)
    ensures |ds| == |rows| && forall k :: 0 <= k < |rows| ==> ds[k] == DescriptorOf(rows[k])
  {
    ds := [];
    var k := 0;
    while k < |rows|
      invariant 0 <= k <= |rows| && |ds| == k
      invariant forall j :: 0 <= j < k ==> ds[j] == DescriptorOf(rows[j])
    {
      var row := rows[k];
      var pol := Strip(row.polarize);
      var phase := PhaseName(row.sigref, row.cal);
      ds := ds + [Descriptor(row.feed, pol, row.centerSky, phase)];
      k := k + 1;
    }
  }

  /** A descriptor keeps the row's feed and sky frequency, and its phase name gives back SIGREF and CAL. */
  lemma DescriptorRecovers(row: DcrRow)
    requires (row.sigref == 0 || row.sigref == 1) && (row.cal == 0 || row.cal == 1)
    ensures PhaseOfName(DescriptorOf(row).phase) == Some(StateRow(row.sigref, row.cal))
    ensures DescriptorOf(row).feed == row.feed && DescriptorOf(row).freq == row.centerSky
  {
    PhaseNameMeaning(row.sigref, row.cal);
  }
}
