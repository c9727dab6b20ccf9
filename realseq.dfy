// Exact-real models of the numpy array arithmetic the calibration code uses:
// sums, elementwise operations, and the median (numpy.median sorts and takes
// the middle element, or the mean of the two middle elements).

module RealSeq {

  /** numpy.sum over a one-dimensional array. */
  function Sum(s: seq<real>): real
  {
    if |s| == 0 then 0.0 else s[0] + Sum(s[1..])
  }

  function Add(a: seq<real>, b: seq<real>): (r: seq<real>)
    requires |a| == |b|
    ensures |r| == |a| && forall j :: 0 <= j < |r| ==> r[j] == a[j] + b[j]
  {
    seq(|a|, j requires 0 <= j < |a| => a[j] + b[j])
  }

  function Sub(a: seq<real>, b: seq<real>): (r: seq<real>)
    requires |a| == |b|
    ensures |r| == |a| && forall j :: 0 <= j < |r| ==> r[j] == a[j] - b[j]
  {
    seq(|a|, j requires 0 <= j < |a| => a[j] - b[j])
  }

  /** f applied to every element. */
  function Map(s: seq<real>, f: real -> real): (r: seq<real>)
    ensures |r| == |s|
  {
    if |s| == 0 then [] else [f(s[0])] + Map(s[1..], f)
  }

  lemma {:induction false} MapAt(s: seq<real>, f: real -> real, j: int)
    requires 0 <= j < |s|
    ensures Map(s, f)[j] == f(s[j])
  {
    if j > 0 {
      MapAt(s[1..], f, j - 1);
    }
  }

  /** An order-preserving map; numpy.median commutes with the affine ones. */
  ghost predicate Increasing(f: real -> real)
  {
    forall a, b :: (a <= b) == (f(a) <= f(b))
  }

  function Constant(n: nat, c: real): (r: seq<real>)
    ensures |r| == n && forall j :: 0 <= j < n ==> r[j] == c
  {
    seq(n, _ => c)
  }

  predicate IsConstant(s: seq<real>, c: real)
  {
    forall j :: 0 <= j < |s| ==> s[j] == c
  }

  /** The sum of n copies of c. */
  lemma {:induction false} SumConstant(s: seq<real>, c: real)
    requires IsConstant(s, c)
    ensures Sum(s) == |s| as real * c
  {
    if |s| > 0 {
      SumConstant(s[1..], c);
      assert (|s| - 1) as real * c + c == |s| as real * c;
    }
  }

  predicate Sorted(s: seq<real>)
  {
    forall i, j :: 0 <= i < j < |s| ==> s[i] <= s[j]
  }

  function Insert(x: real, s: seq<real>): (r: seq<real>)
    ensures |r| == |s| + 1
  {
    if |s| == 0 then [x]
    else if x <= s[0] then [x] + s
    else [s[0]] + Insert(x, s[1..])
  }

  /** Insertion sort: the sorted rearrangement numpy.median works on. */
  function Sort(s: seq<real>): (r: seq<real>)
    ensures |r| == |s|
  {
    if |s| == 0 then [] else Insert(s[0], Sort(s[1..]))
  }

  lemma {:induction false} InsertCount(x: real, s: seq<real>)
    ensures multiset(Insert(x, s)) == multiset(s) + multiset{x}
    ensures |Insert(x, s)| == |s| + 1
  {
    if |s| > 0 && x > s[0] {
      InsertCount(x, s[1..]);
      assert s == [s[0]] + s[1..];
    }
  }

  lemma {:induction false} InsertLowerBound(x: real, s: seq<real>, lo: real)
    requires lo <= x && forall k :: 0 <= k < |s| ==> lo <= s[k]
    ensures forall k :: 0 <= k < |Insert(x, s)| ==> lo <= Insert(x, s)[k]
  {
    if |s| > 0 && x > s[0] {
      InsertLowerBound(x, s[1..], lo);
    }
  }

  lemma {:induction false} InsertSorted(x: real, s: seq<real>)
    requires Sorted(s)
    ensures Sorted(Insert(x, s))
  {
    if |s| > 0 && x > s[0] {
      InsertSorted(x, s[1..]);
      InsertLowerBound(x, s[1..], s[0]);
    }
  }

  lemma {:induction false} SortProperties(s: seq<real>)
    ensures Sorted(Sort(s))
    ensures multiset(Sort(s)) == multiset(s)
    ensures |Sort(s)| == |s|
  {
    if |s| > 0 {
      SortProperties(s[1..]);
      InsertSorted(s[0], Sort(s[1..]));
      InsertCount(s[0], Sort(s[1..]));
      assert s == [s[0]] + s[1..];
    }
  }

  /** The mean of two values, the even-length case of the median. */
  function Mean2(a: real, b: real): real
  {
    (a + b) / 2.0
  }

  /** The middle element of a sorted series, or the mean of the two middle ones. */
  function Middle(t: seq<real>): real
    requires |t| > 0
  {
    var n := |t|;
    if n % 2 == 1 then t[n / 2] else Mean2(t[n / 2 - 1], t[n / 2])
  }

  /** numpy.median of a non-empty array. */
  function Median(s: seq<real>): real
    requires |s| > 0
  {
    Middle(Sort(s))
  }

  lemma {:induction false} SortConstant(s: seq<real>, c: real)
    requires IsConstant(s, c)
    ensures IsConstant(Sort(s), c)
  {
    SortProperties(s);
    var t := Sort(s);
    forall k | 0 <= k < |t| ensures t[k] == c {
      assert t[k] in multiset(s);
      var i :| 0 <= i < |s| && s[i] == t[k];
    }
  }

  /** The median of a constant series is that constant. */
  lemma MedianOfConstant(s: seq<real>, c: real)
    requires |s| > 0 && IsConstant(s, c)
    ensures Median(s) == c
  {
    SortConstant(s, c);
    SortProperties(s);
  }

  lemma {:induction false} InsertMap(x: real, s: seq<real>, f: real -> real)
    requires Increasing(f)
    ensures Insert(f(x), Map(s, f)) == Map(Insert(x, s), f)
  {
    if |s| == 0 {
      assert [x][1..] == [];
      assert Map([], f) == [];
      assert Map([x], f) == [f([x][0])] + Map([x][1..], f);
    } else {
      var a := Map(s, f);
      assert a == [f(s[0])] + Map(s[1..], f);
      assert a[0] == f(s[0]) && a[1..] == Map(s[1..], f);
      assert (f(x) <= f(s[0])) == (x <= s[0]);
      if x <= s[0] {
        var u := [x] + s;
        assert u[0] == x && u[1..] == s;
        assert Map(u, f) == [f(x)] + a;
      } else {
        InsertMap(x, s[1..], f);
        var u := [s[0]] + Insert(x, s[1..]);
        assert u[0] == s[0] && u[1..] == Insert(x, s[1..]);
        assert Map(u, f) == [f(s[0])] + Map(Insert(x, s[1..]), f);
      }
    }
  }

  lemma {:induction false} SortMap(s: seq<real>, f: real -> real)
    requires Increasing(f)
    ensures Sort(Map(s, f)) == Map(Sort(s), f)
  {
    if |s| > 0 {
      SortMap(s[1..], f);
      InsertMap(s[0], Sort(s[1..]), f);
      var a := Map(s, f);
      assert a == [f(s[0])] + Map(s[1..], f);
      assert a[0] == f(s[0]) && a[1..] == Map(s[1..], f);
    }
  }

  /** A map that sends the mean of two values to the mean of their images. */
  ghost predicate PreservesMeans(f: real -> real)
  {
    forall a, b {:trigger Mean2(a, b)} :: f(Mean2(a, b)) == Mean2(f(a), f(b))
  }

  /** Every increasing affine map qualifies for MedianMap. */
  lemma AffineIsIncreasing(g: real, c: real, f: real -> real)
    requires g > 0.0
    requires forall x :: f(x) == g * x + c
    ensures Increasing(f) && PreservesMeans(f)
  {
    forall a: real, b: real
      ensures (a <= b) == (f(a) <= f(b))
    {
      assert g * b - g * a == g * (b - a);
    }
    forall a: real, b: real
      ensures f(Mean2(a, b)) == Mean2(f(a), f(b))
    {
      assert g * ((a + b) / 2.0) + c == (g * a + c + (g * b + c)) / 2.0;
    }
  }

  lemma MiddleMap(t: seq<real>, f: real -> real)
    requires |t| > 0 && PreservesMeans(f)
    ensures Middle(Map(t, f)) == f(Middle(t))
  {
    var n, m := |t|, Map(t, f);
    MapAt(t, f, n / 2);
    if n % 2 == 0 {
      MapAt(t, f, n / 2 - 1);
      var a, b := t[n / 2 - 1], t[n / 2];
      assert Middle(m) == Mean2(f(a), f(b));
      assert f(Mean2(a, b)) == Mean2(f(a), f(b));
    } else {
      assert Middle(m) == f(t[n / 2]);
    }
  }

  /** The median commutes with an increasing map that preserves means. */
  lemma MedianMap(s: seq<real>, f: real -> real)
    requires |s| > 0 && Increasing(f) && PreservesMeans(f)
    ensures Median(Map(s, f)) == f(Median(s))
  {
    SortMap(s, f);
    MiddleMap(Sort(s), f);
  }

  /** The median lies between the smallest and the largest element. */
  lemma MedianBounded(s: seq<real>, lo: real, hi: real)
    requires |s| > 0
    requires forall j :: 0 <= j < |s| ==> lo <= s[j] <= hi
    ensures lo <= Median(s) <= hi
  {
    SortProperties(s);
    var t := Sort(s);
    forall k | 0 <= k < |t| ensures lo <= t[k] <= hi {
      assert t[k] in multiset(s);
      var i :| 0 <= i < |s| && s[i] == t[k];
    }
  }
}
