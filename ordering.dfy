// numpy.unique returns the sorted distinct values of an array.  The order is
// the natural one for numbers, code-point lexicographic order for strings and
// lexicographic order for records of several columns.  This module defines
// those orders generically and the sorted-distinct list they give.

module Ordering {

  ghost predicate StrictTotalOrder<T(!new)>(less: (T, T) -> bool)
  {
    && (forall a :: !less(a, a))
    && (forall a, b, c :: less(a, b) && less(b, c) ==> less(a, c))
    && (forall a, b :: a != b ==> less(a, b) || less(b, a))
  }

  function IntLess(a: int, b: int): bool { a < b }
  function RealLess(a: real, b: real): bool { a < b }
  function CharLess(a: char, b: char): bool { a < b }

  lemma BasicOrders()
    ensures StrictTotalOrder(IntLess)
    ensures StrictTotalOrder(RealLess)
    ensures StrictTotalOrder(CharLess)
  {
  }

  /** Lexicographic order; a proper prefix comes first (Python's order on str). */
  function LexLess<T(==)>(a: seq<T>, b: seq<T>, less: (T, T) -> bool): bool
  {
    if |a| == 0 then |b| > 0
    else if |b| == 0 then false
    else if a[0] == b[0] then LexLess(a[1..], b[1..], less)
    else less(a[0], b[0])
  }

  lemma {:induction false} LexIrreflexive<T(!new)>(a: seq<T>, less: (T, T) -> bool)
    ensures !LexLess(a, a, less)
  {
    if |a| > 0 {
      LexIrreflexive(a[1..], less);
    }
  }

  lemma {:induction false} LexTransitive<T(!new)>(a: seq<T>, b: seq<T>, c: seq<T>, less: (T, T) -> bool)
    requires StrictTotalOrder(less)
    requires LexLess(a, b, less) && LexLess(b, c, less)
    ensures LexLess(a, c, less)
  {
    if |a| > 0 && |b| > 0 && |c| > 0 && a[0] == b[0] && b[0] == c[0] {
      LexTransitive(a[1..], b[1..], c[1..], less);
    }
  }

  lemma {:induction false} LexTotal<T(!new)>(a: seq<T>, b: seq<T>, less: (T, T) -> bool)
    requires StrictTotalOrder(less)
    requires a != b
    ensures LexLess(a, b, less) || LexLess(b, a, less)
  {
    if |a| > 0 && |b| > 0 && a[0] == b[0] {
      assert a == [a[0]] + a[1..] && b == [b[0]] + b[1..];
      LexTotal(a[1..], b[1..], less);
    }
  }

  /** A proper prefix comes first. */
  lemma {:induction false} LexPrefixLess<T>(a: seq<T>, b: seq<T>, less: (T, T) -> bool)
    requires |a| < |b| && b[..|a|] == a
    ensures LexLess(a, b, less)
  {
    if |a| > 0 {
      assert b[1..][..|a| - 1] == a[1..];
      LexPrefixLess(a[1..], b[1..], less);
    }
  }

  /** Strings ordered by code point, as Python and numpy compare them. */
  function StrLess(a: string, b: string): bool
  {
    LexLess(a, b, CharLess)
  }

  /** Strings whose first characters differ are ordered by those characters. */
  lemma FirstCharLess(a: string, b: string)
    requires |a| > 0 && |b| > 0 && a[0] < b[0]
    ensures StrLess(a, b)
  {
  }

  lemma StrLessIsStrictTotal()
    ensures StrictTotalOrder(StrLess)
  {
    BasicOrders();
    forall a: string ensures !StrLess(a, a) {
      LexIrreflexive(a, CharLess);
    }
    forall a: string, b: string, c: string | StrLess(a, b) && StrLess(b, c)
      ensures StrLess(a, c)
    {
      LexTransitive(a, b, c, CharLess);
    }
    forall a: string, b: string | a != b ensures StrLess(a, b) || StrLess(b, a) {
      LexTotal(a, b, CharLess);
    }
  }

  predicate StrictlySorted<T>(s: seq<T>, less: (T, T) -> bool)
  {
    forall i, j :: 0 <= i < j < |s| ==> less(s[i], s[j])
  }

  /** Increasing neighbours make a strictly sorted list. */
  lemma {:induction false} ChainStrictlySorted<T(!new)>(s: seq<T>, less: (T, T) -> bool)
    requires StrictTotalOrder(less)
    requires forall k :: 0 <= k < |s| - 1 ==> less(s[k], s[k + 1])
    ensures StrictlySorted(s, less)
  {
    if |s| > 1 {
      ChainStrictlySorted(s[1..], less);
      forall j | 1 <= j < |s| ensures less(s[0], s[j]) {
        if j > 1 {
          assert s[1..][j - 1] == s[j];
          assert less(s[1], s[j]);
        }
      }
      forall i, j | 0 <= i < j < |s| ensures less(s[i], s[j]) {
        if i > 0 {
          assert s[1..][i - 1] == s[i] && s[1..][j - 1] == s[j];
        }
      }
    }
  }

  /** list(set(s)) taken in order of first occurrence: each element once. */
  function Dedup<T(==,!new)>(s: seq<T>): (r: seq<T>)
    ensures forall x :: x in r <==> x in s
    ensures forall i, j :: 0 <= i < j < |r| ==> r[i] != r[j]
  {
    if |s| == 0 then []
    else
      var r := Dedup(s[..|s| - 1]);
      assert forall x :: x in s <==> x in s[..|s| - 1] || x == s[|s| - 1];
      if s[|s| - 1] in r then r else r + [s[|s| - 1]]
  }

  function InsertUnique<T(==)>(x: T, s: seq<T>, less: (T, T) -> bool): seq<T>
  {
    if |s| == 0 then [x]
    else if x == s[0] then s
    else if less(x, s[0]) then [x] + s
    else [s[0]] + InsertUnique(x, s[1..], less)
  }

  /** numpy.unique: the distinct elements of s in increasing order. */
  function SortedUnique<T(==)>(s: seq<T>, less: (T, T) -> bool): seq<T>
  {
    if |s| == 0 then [] else InsertUnique(s[0], SortedUnique(s[1..], less), less)
  }

  lemma {:induction false} InsertUniqueElements<T(!new)>(x: T, s: seq<T>, less: (T, T) -> bool)
    ensures forall y :: y in InsertUnique(x, s, less) <==> y == x || y in s
  {
    if |s| > 0 && x != s[0] && !less(x, s[0]) {
      InsertUniqueElements(x, s[1..], less);
      assert s == [s[0]] + s[1..];
    }
  }

  lemma {:induction false} InsertUniqueSorted<T(!new)>(x: T, s: seq<T>, less: (T, T) -> bool)
    requires StrictTotalOrder(less) && StrictlySorted(s, less)
    ensures StrictlySorted(InsertUnique(x, s, less), less)
  {
    if |s| > 0 && x != s[0] && !less(x, s[0]) {
      InsertUniqueSorted(x, s[1..], less);
      InsertUniqueElements(x, s[1..], less);
      var t := InsertUnique(x, s[1..], less);
      forall k | 0 <= k < |t| ensures less(s[0], t[k]) {
        assert t[k] in t;
        if t[k] != x {
          var i :| 0 <= i < |s[1..]| && s[1..][i] == t[k];
          assert s[i + 1] == t[k];
        }
      }
    }
  }

  lemma {:induction false} SortedUniqueProperties<T(!new)>(s: seq<T>, less: (T, T) -> bool)
    requires StrictTotalOrder(less)
    ensures StrictlySorted(SortedUnique(s, less), less)
    ensures forall y :: y in SortedUnique(s, less) <==> y in s
  {
    if |s| > 0 {
      SortedUniqueProperties(s[1..], less);
      InsertUniqueSorted(s[0], SortedUnique(s[1..], less), less);
      InsertUniqueElements(s[0], SortedUnique(s[1..], less), less);
      assert s == [s[0]] + s[1..];
    }
  }

  lemma {:induction false} InsertUniqueLength<T>(x: T, s: seq<T>, less: (T, T) -> bool)
    ensures 0 < |InsertUnique(x, s, less)| <= |s| + 1
  {
    if |s| > 0 && x != s[0] && !less(x, s[0]) {
      InsertUniqueLength(x, s[1..], less);
    }
  }

  /** numpy.unique never lengthens its input, and keeps a non-empty input non-empty. */
  lemma {:induction false} SortedUniqueLength<T>(s: seq<T>, less: (T, T) -> bool)
    ensures |SortedUnique(s, less)| <= |s|
    ensures |s| > 0 ==> |SortedUnique(s, less)| > 0
  {
    if |s| > 0 {
      SortedUniqueLength(s[1..], less);
      InsertUniqueLength(s[0], SortedUnique(s[1..], less), less);
    }
  }

  /** The first element of a strictly sorted list is below every other element. */
  lemma FirstIsLeast<T(!new)>(s: seq<T>, less: (T, T) -> bool, y: T)
    requires StrictlySorted(s, less) && y in s && |s| > 0
    ensures y == s[0] || less(s[0], y)
  {
    var i :| 0 <= i < |s| && s[i] == y;
    if i > 0 {
      assert less(s[0], s[i]);
    }
  }

  /** A strictly sorted list is determined by its set of elements. */
  lemma {:induction false} StrictlySortedDetermined<T(!new)>(a: seq<T>, b: seq<T>, less: (T, T) -> bool)
    requires StrictTotalOrder(less)
    requires StrictlySorted(a, less) && StrictlySorted(b, less)
    requires forall y :: y in a <==> y in b
    ensures a == b
  {
    if |a| > 0 {
      assert a[0] in a;
    }
    if |b| > 0 {
      assert b[0] in b;
    }
    if |a| > 0 && |b| > 0 {
      assert a[0] == b[0] by {
        FirstIsLeast(a, less, b[0]);
        FirstIsLeast(b, less, a[0]);
      }
      forall y ensures y in a[1..] <==> y in b[1..] {
        if y in a[1..] {
          var i :| 0 <= i < |a[1..]| && a[1..][i] == y;
          assert a[i + 1] == y && less(a[0], y);
          assert y in b;
          var j :| 0 <= j < |b| && b[j] == y;
          assert j != 0;
          assert b[1..][j - 1] == y;
        }
        if y in b[1..] {
          var j :| 0 <= j < |b[1..]| && b[1..][j] == y;
          assert b[j + 1] == y && less(b[0], y);
          assert y in a;
          var i :| 0 <= i < |a| && a[i] == y;
          assert i != 0;
          assert a[1..][i - 1] == y;
        }
      }
      StrictlySortedDetermined(a[1..], b[1..], less);
      assert a == [a[0]] + a[1..] && b == [b[0]] + b[1..];
    }
  }

  /** Two equal elements of a strictly sorted list are at the same position. */
  lemma StrictlySortedInjective<T(!new)>(s: seq<T>, less: (T, T) -> bool, i: int, j: int)
    requires StrictTotalOrder(less) && StrictlySorted(s, less)
    requires 0 <= i < |s| && 0 <= j < |s| && s[i] == s[j]
    ensures i == j
  {
  }

  /** The distinct list holds exactly the elements of its input, whatever the order. */
  lemma {:induction false} SortedUniqueElements<T(!new)>(s: seq<T>, less: (T, T) -> bool)
    ensures forall y :: y in SortedUnique(s, less) <==> y in s
  {
    if |s| > 0 {
      SortedUniqueElements(s[1..], less);
      InsertUniqueElements(s[0], SortedUnique(s[1..], less), less);
      assert s == [s[0]] + s[1..];
    }
  }

  /** A non-empty list of copies of one value has that value as its only distinct element. */
  lemma {:induction false} SortedUniqueOfCopies<T>(s: seq<T>, less: (T, T) -> bool, x: T)
    requires |s| > 0 && forall k :: 0 <= k < |s| ==> s[k] == x
    ensures SortedUnique(s, less) == [x]
  {
    if |s| > 1 {
      SortedUniqueOfCopies(s[1..], less, x);
    }
  }

  /** A list holding two different values has at least two distinct elements. */
  lemma SortedUniqueOfTwo<T(!new)>(s: seq<T>, less: (T, T) -> bool, a: T, b: T)
    requires a in s && b in s && a != b
    ensures |SortedUnique(s, less)| >= 2
  {
    SortedUniqueElements(s, less);
    var u := SortedUnique(s, less);
    assert a in u && b in u;
  }
}
