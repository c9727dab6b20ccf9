// The string operations the calibration code relies on: Python's str.rstrip,
// str.strip, the `in` substring test, str.split on one separator character
// and str() of an integer.

module Text {

  /** The ASCII whitespace characters; str.rstrip also removes non-ASCII whitespace, which is not modelled. */
  predicate IsSpace(c: char)
  {
    c == ' ' || c == '\t' || c == '\n' || c == '\r' || c == '\U{000B}' || c == '\U{000C}'
  }

  predicate AllSpace(s: string)
  {
    forall k :: 0 <= k < |s| ==> IsSpace(s[k])
  }

  /** str.rstrip(): drop trailing whitespace. */
  function RStrip(s: string): string
  {
    if |s| > 0 && IsSpace(s[|s| - 1]) then RStrip(s[..|s| - 1]) else s
  }

  /** str.lstrip(): drop leading whitespace. */
  function LStrip(s: string): string
  {
    if |s| > 0 && IsSpace(s[0]) then LStrip(s[1..]) else s
  }

  /** str.strip(): drop whitespace at both ends. */
  function Strip(s: string): string
  {
    LStrip(RStrip(s))
  }

  /**
   * RStrip keeps a prefix, removes only whitespace, and leaves no
   * trailing whitespace behind.
   */
  lemma {:induction false} RStripShape(s: string)
    ensures |RStrip(s)| <= |s| && RStrip(s) == s[..|RStrip(s)|]
    ensures AllSpace(s[|RStrip(s)|..])
    ensures |RStrip(s)| > 0 ==> !IsSpace(RStrip(s)[|RStrip(s)| - 1])
  {
    if |s| > 0 && IsSpace(s[|s| - 1]) {
      var t := s[..|s| - 1];
      RStripShape(t);
      var n := |RStrip(t)|;
      assert s[..n] == t[..n];
      forall k | 0 <= k < |s[n..]| ensures IsSpace(s[n..][k]) {
        if n + k < |t| {
          assert s[n..][k] == t[n..][k];
        }
      }
    }
  }

  /** Stripping twice changes nothing more. */
  lemma RStripIdempotent(s: string)
    ensures RStrip(RStrip(s)) == RStrip(s)
  {
    RStripShape(s);
  }

  /** A string without trailing whitespace is its own RStrip. */
  lemma RStripNoTrailing(s: string)
    requires |s| == 0 || !IsSpace(s[|s| - 1])
    ensures RStrip(s) == s
  {
  }

  /** LStrip keeps a suffix and removes only whitespace. */
  lemma {:induction false} LStripShape(s: string)
    ensures |LStrip(s)| <= |s| && LStrip(s) == s[|s| - |LStrip(s)|..]
    ensures AllSpace(s[..|s| - |LStrip(s)|])
    ensures |LStrip(s)| > 0 ==> !IsSpace(LStrip(s)[0])
  {
    if |s| > 0 && IsSpace(s[0]) {
      var t := s[1..];
      LStripShape(t);
      var n := |LStrip(t)|;
      assert s[|s| - n..] == t[|t| - n..];
      forall k | 0 <= k < |s| - n ensures IsSpace(s[k]) {
        if k > 0 {
          assert s[k] == t[..|t| - n][k - 1];
        }
      }
    }
  }

  /** Strip leaves no whitespace at either end. */
  lemma StripEnds(s: string)
    ensures |Strip(s)| > 0 ==> !IsSpace(Strip(s)[0]) && !IsSpace(Strip(s)[|Strip(s)| - 1])
    ensures |Strip(s)| <= |s|
  {
    var r := RStrip(s);
    RStripShape(s);
    LStripShape(r);
    var t := LStrip(r);
    assert Strip(s) == t;
    if |t| > 0 {
      assert t[|t| - 1] == r[|r| - 1];
    }
  }

  /** Python's s.startswith(prefix). */
  predicate StartsWith(s: string, prefix: string)
  {
    |prefix| <= |s| && s[..|prefix|] == prefix
  }

  /** Python's `sub in s` for strings. */
  predicate Contains(s: string, sub: string)
  {
    StartsWith(s, sub) || (|s| > 0 && Contains(s[1..], sub))
  }

  /** str.split(sep): the pieces between occurrences of sep, in order. */
  function Split(s: string, sep: char): (r: seq<string>)
    ensures |r| >= 1
  {
    if |s| == 0 then [""]
    else
      var rest := Split(s[1..], sep);
      if s[0] == sep then [""] + rest else [[s[0]] + rest[0]] + rest[1..]
  }

  /** sep.join(parts): the inverse of Split. */
  function Join(parts: seq<string>, sep: char): string
  {
    if |parts| == 0 then ""
    else if |parts| == 1 then parts[0]
    else parts[0] + [sep] + Join(parts[1..], sep)
  }

  /** Joining the pieces of a split gives the string back, and no piece holds sep. */
  lemma SplitJoin(s: string, sep: char)
    ensures Join(Split(s, sep), sep) == s
    ensures forall k :: 0 <= k < |Split(s, sep)| ==> sep !in Split(s, sep)[k]
  {
    JoinSplit(s, sep);
    SplitPiecesFree(s, sep);
  }

  lemma {:induction false} JoinSplit(s: string, sep: char)
    ensures Join(Split(s, sep), sep) == s
  {
    if |s| > 0 {
      var rest := Split(s[1..], sep);
      JoinSplit(s[1..], sep);
      if s[0] == sep {
        assert Split(s, sep) == [""] + rest;
        assert ([""] + rest)[1..] == rest;
        assert s == [sep] + s[1..];
      } else {
        var r := [[s[0]] + rest[0]] + rest[1..];
        assert Split(s, sep) == r;
        if |rest| == 1 {
          assert s == [s[0]] + rest[0];
        } else {
          assert r[1..] == rest[1..];
          assert Join(rest, sep) == rest[0] + [sep] + Join(rest[1..], sep);
          assert s == [s[0]] + s[1..];
        }
      }
    }
  }

  lemma {:induction false} SplitPiecesFree(s: string, sep: char)
    ensures forall k :: 0 <= k < |Split(s, sep)| ==> sep !in Split(s, sep)[k]
  {
    if |s| > 0 {
      var rest := Split(s[1..], sep);
      SplitPiecesFree(s[1..], sep);
      if s[0] != sep {
        var r := [[s[0]] + rest[0]] + rest[1..];
        assert Split(s, sep) == r;
        forall k | 0 <= k < |r| ensures sep !in r[k] {
          if k > 0 {
            assert r[k] == rest[k];
          }
        }
      }
    }
  }

  /** When sep does not occur, split gives one piece: the string itself. */
  lemma {:induction false} SplitWithoutSep(s: string, sep: char)
    requires sep !in s
    ensures Split(s, sep) == [s]
  {
    if |s| > 0 {
      SplitWithoutSep(s[1..], sep);
      assert s == [s[0]] + s[1..];
    }
  }

  predicate IsDigit(c: char)
  {
    '0' <= c <= '9'
  }

  function DigitChar(d: int): (c: char)
    requires 0 <= d < 10
    ensures IsDigit(c)
  {
    "0123456789"[d]
  }

  function DigitValue(c: char): (d: int)
    requires IsDigit(c)
    ensures 0 <= d < 10
  {
    c as int - '0' as int
  }

  /** The decimal digits of a natural number, most significant first. */
  function NatToStr(n: nat): (s: string)
    ensures |s| >= 1 && forall k :: 0 <= k < |s| ==> IsDigit(s[k])
  {
    if n < 10 then [DigitChar(n)] else NatToStr(n / 10) + [DigitChar(n % 10)]
  }

  /** Python's str(n) for an int. */
  function IntToStr(n: int): string
  {
    if n < 0 then "-" + NatToStr(-n) else NatToStr(n)
  }

  /** Python's int(s) for a string of decimal digits. */
  function DigitsValue(s: string): nat
    requires forall k :: 0 <= k < |s| ==> IsDigit(s[k])
  {
    if |s| == 0 then 0 else DigitsValue(s[..|s| - 1]) * 10 + DigitValue(s[|s| - 1])
  }

  lemma DigitRoundTrip(d: int)
    requires 0 <= d < 10
    ensures DigitValue(DigitChar(d)) == d
  {
  }

  /** Reading back the digits of str(n) gives n. */
  lemma {:induction false} NatToStrRoundTrip(n: nat)
    ensures DigitsValue(NatToStr(n)) == n
  {
    var s := NatToStr(n);
    if n < 10 {
      DigitRoundTrip(n);
      assert s[..0] == [];
    } else {
      NatToStrRoundTrip(n / 10);
      DigitRoundTrip(n % 10);
      assert s[..|s| - 1] == NatToStr(n / 10);
    }
  }

  lemma NatToStrInjective(a: nat, b: nat)
    requires NatToStr(a) == NatToStr(b)
    ensures a == b
  {
    NatToStrRoundTrip(a);
    NatToStrRoundTrip(b);
  }

  /** str(n) starts with '-' exactly for negative n. */
  lemma SignChar(n: int)
    ensures |IntToStr(n)| > 0 && (IntToStr(n)[0] == '-' <==> n < 0)
  {
    if n >= 0 {
      assert IsDigit(NatToStr(n)[0]);
    }
  }

  /** str is injective on ints. */
  lemma IntToStrInjective(a: int, b: int)
    requires IntToStr(a) == IntToStr(b)
    ensures a == b
  {
    var sa, sb := IntToStr(a), IntToStr(b);
    SignChar(a);
    SignChar(b);
    if a < 0 {
      assert NatToStr(-a) == sa[1..] == sb[1..] == NatToStr(-b);
      NatToStrInjective(-a, -b);
    } else {
      NatToStrInjective(a, b);
    }
  }

  lemma NatToStrLast(n: nat)
    ensures NatToStr(n)[|NatToStr(n)| - 1] == DigitChar(n % 10)
  {
  }

  lemma TwoDigitsValue(hi: char, lo: char)
    requires IsDigit(hi) && IsDigit(lo)
    ensures DigitsValue([hi, lo]) == DigitValue(hi) * 10 + DigitValue(lo)
  {
    var s := [hi, lo];
    assert s[..1] == [hi] && [hi][..0] == [];
    assert DigitsValue([hi]) == DigitValue(hi);
    assert DigitsValue(s) == DigitsValue(s[..1]) * 10 + DigitValue(lo);
  }

  lemma Mod100(n: nat)
    ensures (n / 10 % 10) * 10 + n % 10 == n % 100
  {
    var q, r := n / 100, n % 100;
    assert n == 100 * q + r;
    assert n / 10 == 10 * q + r / 10;
    assert n / 10 % 10 == r / 10;
    assert n % 10 == r % 10;
  }

  /** The last two digits of a number's decimal form read as its value mod 100. */
  lemma LastTwoDigits(n: nat)
    ensures var s := NatToStr(n);
      var t := if |s| >= 2 then s[|s| - 2..] else s;
      DigitsValue(t) == n % 100
  {
    if n < 10 {
      NatToStrRoundTrip(n);
    } else {
      var s := NatToStr(n);
      LastTwoChars(n);
      var hi, lo := n / 10 % 10, n % 10;
      TwoDigitsValue(DigitChar(hi), DigitChar(lo));
      DigitRoundTrip(hi);
      DigitRoundTrip(lo);
      Mod100(n);
    }
  }

  /** A number of two digits or more ends in the digits of n / 10 mod 10 and n mod 10. */
  lemma LastTwoChars(n: nat)
    requires n >= 10
    ensures var s := NatToStr(n);
      |s| >= 2 && s[|s| - 2..] == [DigitChar(n / 10 % 10), DigitChar(n % 10)]
  {
    var p := NatToStr(n / 10);
    assert NatToStr(n) == p + [DigitChar(n % 10)];
    NatToStrLast(n / 10);
  }
}
