/**
 * The PHP string behaviour the models rely on: truthiness of string
 * attributes, ASCII `strtolower`, `str_replace` for one search string,
 * `intval` on decimal strings, and the character classes of `trim` and of
 * PCRE's `\s`. Strings are sequences of characters, one per PHP byte.
 */
module PhpStrings {
  import opened Wrappers

  /** PHP's `if ($x)` on a nullable string attribute: null, "" and "0" are falsy. */
  predicate Truthy(o: Option<string>) {
    o.Some? && o.value != "" && o.value != "0"
  }

  /** The characters PCRE's `\s` matches without the `u` flag (also what `intval` skips). */
  predicate IsAsciiSpace(c: char) {
    c == ' ' || c == '\t' || c == '\n' || c == '\r' || c == '\U{B}' || c == '\U{C}'
  }

  /** The characters `trim` removes by default: space, \t, \n, \r, \0 and \x0B. */
  predicate IsTrimChar(c: char) {
    c == ' ' || c == '\t' || c == '\n' || c == '\r' || c == '\0' || c == '\U{B}'
  }

  predicate IsDigit(c: char) {
    '0' <= c <= '9'
  }

  /** The class `[a-z0-9]` under the case-insensitive flag. */
  predicate IsAsciiAlnum(c: char) {
    IsDigit(c) || 'a' <= c <= 'z' || 'A' <= c <= 'Z'
  }

  function LowerChar(c: char): char {
    if 'A' <= c <= 'Z' then (c as int + 32) as char else c
  }

  /** `strtolower`, ASCII letters only. */
  function Lower(s: string): (r: string)
    ensures |r| == |s|
    ensures forall i :: 0 <= i < |s| ==> r[i] == LowerChar(s[i])
  {
    seq(|s|, i requires 0 <= i < |s| => LowerChar(s[i]))
  }

  lemma LowerIdempotent(s: string)
    ensures Lower(Lower(s)) == Lower(s)
  {
  }

  /** `pat` occurs somewhere in `s` (every string contains the empty one). */
  predicate Occurs(pat: string, s: string)
    decreases |s|
  {
    |pat| <= |s| && (s[..|pat|] == pat || (|s| > 0 && Occurs(pat, s[1..])))
  }

  /**
   * `str_replace(pat, rep, s)`: scans left to right and replaces every
   * non-overlapping occurrence; a replacement is never rescanned.
   * An empty search string leaves the subject unchanged.
   */
  function ReplaceAll(s: string, pat: string, rep: string): string
    decreases |s|
  {
    if |pat| == 0 || |s| < |pat| then s
    else if s[..|pat|] == pat then rep + ReplaceAll(s[|pat|..], pat, rep)
    else [s[0]] + ReplaceAll(s[1..], pat, rep)
  }

  /** Replacing a string that does not occur changes nothing. */
  lemma {:induction false} ReplaceAllAbsent(s: string, pat: string, rep: string)
    requires !Occurs(pat, s)
    ensures ReplaceAll(s, pat, rep) == s
    decreases |s|
  {
    if |s| < |pat| {
    } else {
      assert s[..|pat|] != pat;
      ReplaceAllAbsent(s[1..], pat, rep);
      assert [s[0]] + s[1..] == s;
    }
  }

  /** A string that lacks one of the pattern's characters cannot contain the pattern. */
  lemma {:induction false} MissingCharNoOccurrence(pat: string, s: string, c: char)
    requires c in pat && c !in s
    ensures !Occurs(pat, s)
    decreases |s|
  {
    if |pat| <= |s| && |s| > 0 {
      MissingCharNoOccurrence(pat, s[1..], c);
    }
  }

  /** Text that cannot start a match is copied through by `str_replace`. */
  lemma {:induction false} ReplaceAllSkipsPlain(a: string, t: string, pat: string, rep: string)
    requires |pat| > 0 && pat[0] !in a
    ensures ReplaceAll(a + t, pat, rep) == a + ReplaceAll(t, pat, rep)
    decreases |a|
  {
    if |a| == 0 {
      assert a + t == t;
    } else {
      var u := a + t;
      assert u[0] == a[0] && u[0] != pat[0];
      assert |u| >= |pat| ==> u[..|pat|][0] != pat[0];
      assert ReplaceAll(u, pat, rep) == [u[0]] + ReplaceAll(u[1..], pat, rep);
      assert u[1..] == a[1..] + t;
      ReplaceAllSkipsPlain(a[1..], t, pat, rep);
      assert [a[0]] + (a[1..] + ReplaceAll(t, pat, rep)) == a + ReplaceAll(t, pat, rep);
    }
  }

  /** An occurrence at the scan position is replaced and scanning resumes after it. */
  lemma ReplaceAllMatch(pat: string, t: string, rep: string)
    requires |pat| > 0
    ensures ReplaceAll(pat + t, pat, rep) == rep + ReplaceAll(t, pat, rep)
  {
    var u := pat + t;
    assert u[..|pat|] == pat && u[|pat|..] == t;
  }

  /** `a` can be obtained from `b` by deleting characters. */
  predicate IsSubsequence(a: string, b: string)
    decreases |b|
  {
    |a| <= |b| &&
    (|a| == 0 || (a[0] == b[0] && IsSubsequence(a[1..], b[1..])) || IsSubsequence(a, b[1..]))
  }

  lemma {:induction false} SubsequenceChars(a: string, b: string)
    requires IsSubsequence(a, b)
    ensures forall c :: c in a ==> c in b
    decreases |b|
  {
    if |a| == 0 {
    } else if a[0] == b[0] && IsSubsequence(a[1..], b[1..]) {
      SubsequenceChars(a[1..], b[1..]);
      forall c | c in a ensures c in b {
        if c != a[0] {
          assert c in a[1..];
        }
      }
    } else {
      SubsequenceChars(a, b[1..]);
    }
  }

  lemma {:induction false} SubsequenceOfSuffix(a: string, b: string, n: nat)
    requires n <= |b|
    requires IsSubsequence(a, b[n..])
    ensures IsSubsequence(a, b)
    decreases n
  {
    if n > 0 {
      assert b[1..][n - 1..] == b[n..];
      SubsequenceOfSuffix(a, b[1..], n - 1);
    }
  }

  function DigitChar(d: nat): char
    requires d < 10
  {
    "0123456789"[d]
  }

  function DigitValue(c: char): nat
    requires IsDigit(c)
  {
    c as int - '0' as int
  }

  /** The decimal spelling of `n` with no sign and no leading zeros. */
  function NatToDecimal(n: nat): (r: string)
    ensures |r| > 0
    ensures forall i :: 0 <= i < |r| ==> IsDigit(r[i])
  {
    if n < 10 then [DigitChar(n)] else NatToDecimal(n / 10) + [DigitChar(n % 10)]
  }

  /** Length of the run of decimal digits at the start of `s`. */
  function DigitRun(s: string): (n: nat)
    ensures n <= |s|
    ensures forall i :: 0 <= i < n ==> IsDigit(s[i])
    ensures n < |s| ==> !IsDigit(s[n])
  {
    if |s| > 0 && IsDigit(s[0]) then 1 + DigitRun(s[1..]) else 0
  }

  function DecimalValue(d: string): nat
    requires forall i :: 0 <= i < |d| ==> IsDigit(d[i])
  {
    if |d| == 0 then 0 else DecimalValue(d[..|d| - 1]) * 10 + DigitValue(d[|d| - 1])
  }

  function SkipSpaces(s: string): (r: string)
    ensures |r| <= |s| && r == s[|s| - |r|..]
    ensures |r| > 0 ==> !IsAsciiSpace(r[0])
  {
    if |s| > 0 && IsAsciiSpace(s[0]) then SkipSpaces(s[1..]) else s
  }

  function UnsignedPrefix(t: string): nat {
    DecimalValue(t[..DigitRun(t)])
  }

  /**
   * `intval` of a string: leading whitespace, an optional sign, then the
   * longest run of decimal digits; 0 when there are no digits.
   */
  function IntVal(s: string): int {
    var t := SkipSpaces(s);
    if |t| > 0 && t[0] == '-' then -(UnsignedPrefix(t[1..]) as int)
    else if |t| > 0 && t[0] == '+' then UnsignedPrefix(t[1..])
    else UnsignedPrefix(t)
  }

  lemma {:induction false} DecimalValueOfDecimal(n: nat)
    ensures DecimalValue(NatToDecimal(n)) == n
  {
    if n >= 10 {
      var d := NatToDecimal(n);
      assert d[..|d| - 1] == NatToDecimal(n / 10);
      DecimalValueOfDecimal(n / 10);
    }
  }

  /** `intval` reads back the decimal spelling of every natural number. */
  lemma IntValOfDecimal(n: nat)
    ensures IntVal(NatToDecimal(n)) == n
  {
    var d := NatToDecimal(n);
    assert SkipSpaces(d) == d;
    assert DigitRun(d) == |d| by {
      DigitRunOfDigits(d);
    }
    assert d[..|d|] == d;
    DecimalValueOfDecimal(n);
  }

  lemma {:induction false} DigitRunOfDigits(d: string)
    requires forall i :: 0 <= i < |d| ==> IsDigit(d[i])
    ensures DigitRun(d) == |d|
  {
    if |d| > 0 {
      DigitRunOfDigits(d[1..]);
    }
  }
}
