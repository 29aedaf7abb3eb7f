/** Python's `str(int)`, slicing and `in` on strings, as functions on `seq<char>`. */
module Strings {

  function Pow10(k: nat): (p: nat)
    ensures p >= 1
  {
    if k == 0 then 1 else 10 * Pow10(k - 1)
  }

  predicate IsDigit(ch: char) { '0' <= ch <= '9' }

  predicate AllDigits(s: string) { forall i :: 0 <= i < |s| ==> IsDigit(s[i]) }

  function DigitChar(d: nat): (ch: char)
    requires d < 10
    ensures IsDigit(ch) && ch as int - '0' as int == d
  {
    ('0' as int + d) as char
  }

  /** `str(n)` for a non-negative integer: most significant digit first, no leading zero. */
  function Decimal(n: nat): (s: string)
    ensures |s| >= 1 && AllDigits(s)
    ensures n >= 10 ==> s[0] != '0'
  {
    if n < 10 then [DigitChar(n)] else Decimal(n / 10) + [DigitChar(n % 10)]
  }

  /** `str(i)` for any integer: a leading '-' for negatives. */
  function IntToString(i: int): (s: string)
    ensures |s| >= 1
    ensures i >= 0 ==> s == Decimal(i)
    ensures i < 0 ==> s[0] == '-' && s[1..] == Decimal(-i)
  {
    if i < 0 then "-" + Decimal(-i) else Decimal(i)
  }

  /** `int(s)` for a non-empty string of decimal digits. */
  function ParseNat(s: string): nat
    requires |s| >= 1 && AllDigits(s)
  {
    var d := s[|s| - 1] as int - '0' as int;
    if |s| == 1 then d else 10 * ParseNat(s[..|s| - 1]) + d
  }

  /** Reading back the rendered digits gives the number. */
  lemma {:induction false} ParseDecimal(n: nat)
    ensures ParseNat(Decimal(n)) == n
  {
    if n >= 10 {
      var s := Decimal(n);
      assert s[..|s| - 1] == Decimal(n / 10);
      ParseDecimal(n / 10);
    }
  }

  lemma MulAtLeast(d: nat, x: int)
    requires d > 0 && x >= 1
    ensures d * x >= d
  {
    var y := x - 1;
    assert d * x == d * y + d;
    assert d * y >= 0;
  }

  /** The quotient is the only q with n == d * q + r and 0 <= r < d. */
  lemma DivUnique(n: int, d: nat, q: int, r: int)
    requires d > 0 && 0 <= r < d && n == d * q + r
    ensures n / d == q
  {
    var x := q - n / d;
    assert n == d * (n / d) + n % d;
    assert d * x == n % d - r by {
      assert d * q - d * (n / d) == d * x;
    }
    if x >= 1 {
      MulAtLeast(d, x);
    } else if x <= -1 {
      MulAtLeast(d, -x);
    }
  }

  lemma DivDiv(n: nat, k: nat)
    ensures n / Pow10(k) / 10 == n / Pow10(k + 1)
  {
    var p := Pow10(k);
    var q := n / p;
    var r := n % p;
    var q2 := q / 10;
    var r2 := q % 10;
    assert n == p * q + r;
    assert q == 10 * q2 + r2;
    assert n == (10 * p) * q2 + (p * r2 + r) by {
      assert p * q == p * (10 * q2) + p * r2;
      assert p * (10 * q2) == (10 * p) * q2;
    }
    assert p * r2 <= p * 9 by {
      assert p * 9 - p * r2 == p * (9 - r2);
    }
    DivUnique(n, 10 * p, q2, p * r2 + r);
  }

  /** A quotient by a divisor no larger than the dividend is at least 1. */
  lemma DivAtLeastOne(n: nat, p: nat)
    requires 1 <= p <= n
    ensures n / p >= 1
  {
  }

  /** Rendering a number at or above 10^k and dropping its last k characters renders n / 10^k. */
  lemma {:induction false} DecimalDropDigits(n: nat, k: nat)
    requires n >= Pow10(k)
    ensures |Decimal(n)| > k
    ensures Decimal(n)[..|Decimal(n)| - k] == Decimal(n / Pow10(k))
  {
    if k > 0 {
      assert Pow10(k) >= Pow10(k - 1);
      DecimalDropDigits(n, k - 1);
      var e := Decimal(n / Pow10(k - 1));
      DivDiv(n, k - 1);
      assert n / Pow10(k - 1) >= 10 by {
        var p := Pow10(k);
        DivAtLeastOne(n, p);
        var x := n / Pow10(k - 1);
        assert x / 10 >= 1;
        assert x == 10 * (x / 10) + x % 10;
      }
      assert e == Decimal(n / Pow10(k - 1) / 10) + [DigitChar(n / Pow10(k - 1) % 10)];
      var d := Decimal(n);
      assert d[..|d| - k] == d[..|d| - (k - 1)][..|e| - 1];
    }
  }

  /** A number below 10^k renders with at most k digits. */
  lemma {:induction false} DecimalShort(n: nat, k: nat)
    requires 1 <= k && n < Pow10(k)
    ensures |Decimal(n)| <= k
  {
    if n >= 10 {
      assert k >= 2;
      DecimalShort(n / 10, k - 1);
    }
  }

  /** Python's `s[:-k]` for k >= 1: everything but the last k characters, or "" when s is shorter. */
  function DropLast(s: string, k: nat): (r: string)
    requires k >= 1
    ensures |r| == if |s| <= k then 0 else |s| - k
    ensures r <= s
  {
    if |s| <= k then "" else s[..|s| - k]
  }

  /** Python's `needle in haystack` on strings. */
  predicate IsSubstring(needle: string, haystack: string)
    decreases |haystack|
  {
    needle <= haystack || (|haystack| > 0 && IsSubstring(needle, haystack[1..]))
  }

  predicate OccursAt(needle: string, haystack: string, i: int)
  {
    0 <= i && i + |needle| <= |haystack| && haystack[i..i + |needle|] == needle
  }

  /** An occurrence in the tail is an occurrence one place further on in the whole. */
  lemma OccursShift(needle: string, haystack: string, i: nat)
    requires |haystack| > 0
    ensures OccursAt(needle, haystack[1..], i) <==> OccursAt(needle, haystack, i + 1)
  {
    if i + 1 + |needle| <= |haystack| {
      assert haystack[1..][i..i + |needle|] == haystack[i + 1..i + 1 + |needle|];
    }
  }

  /** The recursive test agrees with "occurs at some offset". */
  lemma {:induction false} IsSubstringAt(needle: string, haystack: string)
    ensures IsSubstring(needle, haystack) <==> exists i :: OccursAt(needle, haystack, i)
    decreases |haystack|
  {
    if needle <= haystack {
      assert OccursAt(needle, haystack, 0);
    } else if |haystack| > 0 {
      var h := haystack[1..];
      IsSubstringAt(needle, h);
      forall i | OccursAt(needle, h, i)
        ensures OccursAt(needle, haystack, i + 1)
      {
        OccursShift(needle, haystack, i);
      }
      forall i | OccursAt(needle, haystack, i) && i > 0
        ensures OccursAt(needle, h, i - 1)
      {
        OccursShift(needle, haystack, i - 1);
      }
    }
  }

  /** `str.lower()` restricted to ASCII letters. */
  function LowerChar(ch: char): (r: char)
    ensures 'A' <= ch <= 'Z' ==> 'a' <= r <= 'z'
    ensures !('A' <= ch <= 'Z') ==> r == ch
  {
    if 'A' <= ch <= 'Z' then (ch as int - 'A' as int + 'a' as int) as char else ch
  }

  function Lower(s: string): (r: string)
    ensures |r| == |s|
    ensures forall i :: 0 <= i < |s| ==> r[i] == LowerChar(s[i])
  {
    if s == [] then [] else [LowerChar(s[0])] + Lower(s[1..])
  }

  /** `s.partition(sep)` when `sep` occurs: the text before and after its first occurrence. */
  function SplitOnce(s: string, sep: char): (r: (string, string))
    ensures sep !in r.0
    ensures sep in s ==> r.0 + [sep] + r.1 == s
    ensures sep !in s ==> r == (s, "")
  {
    if s == [] then ("", "")
    else if s[0] == sep then ("", s[1..])
    else
      var rest := SplitOnce(s[1..], sep);
      assert s == [s[0]] + s[1..];
      ([s[0]] + rest.0, rest.1)
  }

  /** Splitting a rendered number followed by a separator gives the number's digits back. */
  lemma {:induction false} SplitAfterDigits(d: string, u: string)
    requires AllDigits(d)
    ensures SplitOnce(d + " " + u, ' ') == (d, u)
  {
    var s := d + " " + u;
    if d == [] {
      assert s[0] == ' ' && s[1..] == u;
    } else {
      assert s[0] == d[0] && IsDigit(d[0]);
      assert s[1..] == d[1..] + " " + u;
      SplitAfterDigits(d[1..], u);
      assert [d[0]] + d[1..] == d;
    }
  }
}
