/** The few pieces of Python's string behaviour the chat app relies on:
    `str.isspace` per character, `str.strip()`, `str(n)` for a non-negative
    integer, and the substring test `a in b`. */
module PyText {

  /** Whether Python's `str.isspace` holds of the one-character string `c`
      (the characters of Unicode category Zs and of bidirectional class
      WS, B or S). */
  predicate IsSpace(c: char) {
    var n := c as int;
    (0x09 <= n <= 0x0D) || (0x1C <= n <= 0x20) || n == 0x85 || n == 0xA0
    || n == 0x1680 || (0x2000 <= n <= 0x200A) || n == 0x2028 || n == 0x2029
    || n == 0x202F || n == 0x205F || n == 0x3000
  }

  /** Every character of `s` is whitespace (vacuously true of ""). */
  predicate AllSpace(s: string) {
    forall i :: 0 <= i < |s| ==> IsSpace(s[i])
  }

  /** `s.lstrip()`: drop leading whitespace. */
  function LStrip(s: string): (r: string)
    ensures |r| <= |s| && r == s[|s| - |r|..]
    ensures AllSpace(s[..|s| - |r|])
    ensures r != [] ==> !IsSpace(r[0])
  {
    if |s| > 0 && IsSpace(s[0]) then
      var r := LStrip(s[1..]);
      assert s[..|s| - |r|] == [s[0]] + s[1..][..|s| - 1 - |r|];
      r
    else s
  }

  /** `s.rstrip()`: drop trailing whitespace. */
  function RStrip(s: string): (r: string)
    ensures |r| <= |s| && r == s[..|r|]
    ensures AllSpace(s[|r|..])
    ensures r != [] ==> !IsSpace(r[|r| - 1])
  {
    if |s| > 0 && IsSpace(s[|s| - 1]) then
      var t := s[..|s| - 1];
      var r := RStrip(t);
      assert s[|r|..] == t[|r|..] + [s[|s| - 1]];
      r
    else s
  }

  /** `s.strip()` with no argument: the slice of `s` left once the runs of
      whitespace at both ends are removed. */
  function Strip(s: string): (r: string)
    ensures |r| <= |s|
    ensures exists a :: StripsTo(s, a, r)
    ensures r != [] ==> !IsSpace(r[0]) && !IsSpace(r[|r| - 1])
  {
    var l := LStrip(s);
    var r := RStrip(l);
    StripSlice(s, l, r);
    r
  }

  /** `r` is `s[a..]` cut short, with only whitespace around it. */
  predicate StripsTo(s: string, a: int, r: string) {
    0 <= a && a + |r| <= |s| && r == s[a..a + |r|]
    && AllSpace(s[..a]) && AllSpace(s[a + |r|..])
  }

  lemma StripSlice(s: string, l: string, r: string)
    requires |l| <= |s| && l == s[|s| - |l|..] && AllSpace(s[..|s| - |l|])
    requires |r| <= |l| && r == l[..|r|] && AllSpace(l[|r|..])
    ensures StripsTo(s, |s| - |l|, r)
  {
    var a := |s| - |l|;
    assert s[a + |r|..] == l[|r|..];
  }

  lemma {:induction false} LStripEmpty(s: string)
    ensures LStrip(s) == [] <==> AllSpace(s)
  {
    if |s| > 0 && IsSpace(s[0]) {
      var t := s[1..];
      LStripEmpty(t);
      assert LStrip(s) == LStrip(t);
      assert AllSpace(s) <==> AllSpace(t) by {
        if AllSpace(t) {
          forall i | 0 <= i < |s| ensures IsSpace(s[i]) {
            if i > 0 { assert s[i] == t[i - 1]; }
          }
        }
        if AllSpace(s) {
          forall i | 0 <= i < |t| ensures IsSpace(t[i]) {
            assert t[i] == s[i + 1];
          }
        }
      }
    } else if |s| > 0 {
      assert LStrip(s) == s;
      assert !IsSpace(s[0]);
    }
  }

  lemma {:induction false} RStripEmpty(s: string)
    ensures RStrip(s) == [] <==> AllSpace(s)
  {
    if |s| > 0 && IsSpace(s[|s| - 1]) {
      var t := s[..|s| - 1];
      RStripEmpty(t);
      assert AllSpace(s) <==> AllSpace(t) by {
        if AllSpace(t) {
          forall i | 0 <= i < |s| ensures IsSpace(s[i]) {
            if i < |s| - 1 { assert s[i] == t[i]; }
          }
        }
      }
    } else if |s| > 0 {
      assert !IsSpace(s[|s| - 1]);
    }
  }

  /** The chat form's blank test, `not txt or txt.strip() == ""`. */
  predicate IsBlank(txt: string) {
    |txt| == 0 || Strip(txt) == ""
  }

  /** A submission is blank exactly when every one of its characters is
      whitespace; in particular the empty string is blank. */
  lemma BlankIffAllSpace(txt: string)
    ensures IsBlank(txt) <==> AllSpace(txt)
  {
    var l := LStrip(txt);
    LStripEmpty(txt);
    RStripEmpty(l);
    if l != [] {
      assert !IsSpace(l[0]);
    }
  }

  /** The decimal digit for `d`. */
  function Digit(d: nat): (c: char)
    requires d < 10
    ensures '0' <= c <= '9' && (c as int) - ('0' as int) == d
  {
    (('0' as int) + d) as char
  }

  predicate IsDigit(c: char) {
    '0' as int <= c as int <= '9' as int
  }

  /** The value of one decimal digit. */
  function DigitValue(c: char): (d: nat)
    requires IsDigit(c)
    ensures d < 10
  {
    (c as int) - ('0' as int)
  }

  /** `str(n)` for a non-negative integer: its decimal numeral without
      leading zeros. */
  function Decimal(n: nat): (r: string)
    ensures |r| >= 1
    ensures forall i :: 0 <= i < |r| ==> IsDigit(r[i])
    ensures r[0] == '0' ==> n == 0
    decreases n
  {
    if n < 10 then [Digit(n)] else Decimal(n / 10) + [Digit(n % 10)]
  }

  /** The value of a string of decimal digits. */
  function DecimalValue(s: string): nat
    requires forall i :: 0 <= i < |s| ==> IsDigit(s[i])
  {
    if |s| == 0 then 0
    else DecimalValue(s[..|s| - 1]) * 10 + DigitValue(s[|s| - 1])
  }

  /** `Decimal` loses nothing: the numeral reads back as the number. */
  lemma {:induction false} DecimalRoundTrip(n: nat)
    ensures DecimalValue(Decimal(n)) == n
    decreases n
  {
    var r := Decimal(n);
    if n < 10 {
      assert r[..0] == [];
    } else {
      DecimalRoundTrip(n / 10);
      assert r[..|r| - 1] == Decimal(n / 10);
    }
  }

  /** Python's `needle in haystack` for two strings. */
  predicate IsSubstring(needle: string, haystack: string) {
    needle <= haystack || (|haystack| > 0 && IsSubstring(needle, haystack[1..]))
  }
}
