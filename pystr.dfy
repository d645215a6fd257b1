/** The parts of Python's `str` semantics that the assistant's text handling
    relies on. A Dafny `char` is a Unicode scalar value; for Python strings
    without lone surrogates (U+D800 to U+DFFF), whose elements are then the
    same values, lengths here agree with Python's `len`.
    Scanning functions work on positions of one string rather than on ever
    shorter slices of it. */
module PyStr {

  /** `c.isspace()`: the characters that `str.strip()`, `str.split()` and the
      regular-expression class `\s` all treat as whitespace. */
  predicate IsSpace(c: char) {
    || ('\t' <= c <= '\r')
    || ('\U{1C}' <= c <= '\U{1F}')
    || c == ' '
    || c == '\U{85}'
    || c == '\U{A0}'
    || c == '\U{1680}'
    || ('\U{2000}' <= c <= '\U{200A}')
    || c == '\U{2028}'
    || c == '\U{2029}'
    || c == '\U{202F}'
    || c == '\U{205F}'
    || c == '\U{3000}'
  }

  /** An ASCII decimal digit: what `str(n)` produces and what `\d` is taken to match. */
  predicate IsDigit(c: char) {
    '0' <= c <= '9'
  }

  predicate HasNoSpace(s: string) {
    forall i :: 0 <= i < |s| ==> !IsSpace(s[i])
  }

  predicate AllDigits(s: string) {
    forall i :: 0 <= i < |s| ==> IsDigit(s[i])
  }

  predicate AllSpace(s: string) {
    forall i :: 0 <= i < |s| ==> IsSpace(s[i])
  }

  /** The end of the whitespace run that starts at position `i`. */
  function SkipSpace(s: string, i: nat): (j: nat)
    requires i <= |s|
    ensures i <= j <= |s|
    ensures forall k :: i <= k < j ==> IsSpace(s[k])
    ensures j < |s| ==> !IsSpace(s[j])
    decreases |s| - i
  {
    if i < |s| && IsSpace(s[i]) then SkipSpace(s, i + 1) else i
  }

  /** The start of the whitespace run that ends at position `j`. */
  function TrimSpace(s: string, j: nat): (i: nat)
    requires j <= |s|
    ensures i <= j
    ensures forall k :: i <= k < j ==> IsSpace(s[k])
    ensures 0 < i ==> !IsSpace(s[i - 1])
  {
    if 0 < j && IsSpace(s[j - 1]) then TrimSpace(s, j - 1) else j
  }

  /** The end of the run of non-whitespace characters that starts at `i`. */
  function TokenEnd(s: string, i: nat): (j: nat)
    requires i <= |s|
    ensures i <= j <= |s|
    ensures forall k :: i <= k < j ==> !IsSpace(s[k])
    ensures j < |s| ==> IsSpace(s[j])
    decreases |s| - i
  {
    if i < |s| && !IsSpace(s[i]) then TokenEnd(s, i + 1) else i
  }

  /** The end of the run of digits that starts at `i`. */
  function DigitEnd(s: string, i: nat): (j: nat)
    requires i <= |s|
    ensures i <= j <= |s|
    ensures forall k :: i <= k < j ==> IsDigit(s[k])
    ensures j < |s| ==> !IsDigit(s[j])
    decreases |s| - i
  {
    if i < |s| && IsDigit(s[i]) then DigitEnd(s, i + 1) else i
  }

  /** `s.lstrip()` */
  function LStrip(s: string): string {
    s[SkipSpace(s, 0)..]
  }

  /** `s.rstrip()` */
  function RStrip(s: string): string {
    s[..TrimSpace(s, |s|)]
  }

  /** `s.strip()` */
  function Strip(s: string): string {
    RStrip(LStrip(s))
  }

  /** `strip` takes off exactly the whitespace at both ends: what it returns is
      a slice of the text with nothing but whitespace on either side of it, and
      it neither starts nor ends with whitespace. */
  lemma StripSpec(s: string)
    ensures exists lo, hi ::
      && 0 <= lo <= hi <= |s| && Strip(s) == s[lo..hi]
      && (forall k :: 0 <= k < lo ==> IsSpace(s[k]))
      && (forall k :: hi <= k < |s| ==> IsSpace(s[k]))
    ensures Strip(s) != [] ==> !IsSpace(Strip(s)[0]) && !IsSpace(Strip(s)[|Strip(s)| - 1])
  {
    var lo := SkipSpace(s, 0);
    var l := s[lo..];
    var m := TrimSpace(l, |l|);
    assert Strip(s) == s[lo..lo + m];
    forall k | lo + m <= k < |s|
      ensures IsSpace(s[k])
    {
      assert s[k] == l[k - lo];
    }
    if m > 0 {
      assert Strip(s)[0] == l[0];
      assert Strip(s)[m - 1] == l[m - 1];
    }
  }

  /** `s.startswith(prefix)` */
  predicate StartsWith(s: string, prefix: string) {
    |prefix| <= |s| && forall k :: 0 <= k < |prefix| ==> s[k] == prefix[k]
  }

  /** The position of the first `c` at or after `i`, or `|s|` when there is none. */
  function FindFrom(s: string, c: char, i: nat): (k: nat)
    requires i <= |s|
    ensures i <= k <= |s|
    ensures forall m :: i <= m < k ==> s[m] != c
    ensures k < |s| ==> s[k] == c
    decreases |s| - i
  {
    if i == |s| || s[i] == c then i else FindFrom(s, c, i + 1)
  }

  /** The pieces of `s[i..]` between successive occurrences of `sep`. */
  function SplitFrom(s: string, sep: char, i: nat): (parts: seq<string>)
    requires i <= |s|
    ensures |parts| >= 1
    decreases |s| - i
  {
    var k := FindFrom(s, sep, i);
    if k == |s| then [s[i..]] else [s[i..k]] + SplitFrom(s, sep, k + 1)
  }

  /** `s.split(sep)` for a one-character separator: there is always one more
      piece than separators, so the empty string splits into `[""]`. */
  function Split(s: string, sep: char): seq<string> {
    SplitFrom(s, sep, 0)
  }

  /** `sep.join(parts)` */
  function Join(parts: seq<string>, sep: string): string {
    if |parts| == 0 then ""
    else if |parts| == 1 then parts[0]
    else parts[0] + sep + Join(parts[1..], sep)
  }

  lemma JoinCons(p: string, ps: seq<string>, sep: string)
    requires ps != []
    ensures Join([p] + ps, sep) == p + sep + Join(ps, sep)
  {
    assert ([p] + ps)[1..] == ps;
  }

  /** The occurrences of `c` at or after position `i`. */
  function CountFrom(s: string, c: char, i: nat): nat
    requires i <= |s|
    decreases |s| - i
  {
    if i == |s| then 0 else (if s[i] == c then 1 else 0) + CountFrom(s, c, i + 1)
  }

  /** `s.count(c)` for one character. */
  function Count(s: string, c: char): nat {
    CountFrom(s, c, 0)
  }

  /** No piece of a split contains the separator. */
  lemma {:induction false} SplitPieces(s: string, sep: char, i: nat)
    requires i <= |s|
    ensures forall j :: 0 <= j < |SplitFrom(s, sep, i)| ==> sep !in SplitFrom(s, sep, i)[j]
    decreases |s| - i
  {
    var k := FindFrom(s, sep, i);
    if k == |s| {
      assert sep !in s[i..] by {
        forall m | 0 <= m < |s| - i
          ensures s[i..][m] != sep
        {
          assert s[i..][m] == s[i + m];
        }
      }
    } else {
      SplitPieces(s, sep, k + 1);
      assert sep !in s[i..k] by {
        forall m | 0 <= m < k - i
          ensures s[i..k][m] != sep
        {
          assert s[i..k][m] == s[i + m];
        }
      }
    }
  }

  /** Joining the pieces of a split with the separator gives back the text. */
  lemma {:induction false} JoinSplitFrom(s: string, sep: char, i: nat)
    requires i <= |s|
    ensures Join(SplitFrom(s, sep, i), [sep]) == s[i..]
    decreases |s| - i
  {
    var k := FindFrom(s, sep, i);
    if k < |s| {
      var rest := SplitFrom(s, sep, k + 1);
      assert SplitFrom(s, sep, i) == [s[i..k]] + rest;
      JoinSplitFrom(s, sep, k + 1);
      JoinCons(s[i..k], rest, [sep]);
      SliceAt(s, i, k);
    }
  }

  /** `s[i..]` is `s[i..k]`, then `s[k]`, then `s[k + 1..]`. */
  lemma SliceAt(s: string, i: nat, k: nat)
    requires i <= k < |s|
    ensures s[i..] == s[i..k] + [s[k]] + s[k + 1..]
  {
  }

  lemma JoinSplit(s: string, sep: char)
    ensures Join(Split(s, sep), [sep]) == s
  {
    JoinSplitFrom(s, sep, 0);
    assert s[0..] == s;
  }

  /** A stretch without `c` adds nothing to the count. */
  lemma {:induction false} CountSkip(s: string, c: char, i: nat, k: nat)
    requires i <= k <= |s|
    requires forall m :: i <= m < k ==> s[m] != c
    ensures CountFrom(s, c, i) == CountFrom(s, c, k)
    decreases k - i
  {
    if i < k {
      CountSkip(s, c, i + 1, k);
    }
  }

  /** The pieces of `s[i..]` are one more than its separators. */
  lemma {:induction false} SplitFromCount(s: string, sep: char, i: nat)
    requires i <= |s|
    ensures |SplitFrom(s, sep, i)| == CountFrom(s, sep, i) + 1
    decreases |s| - i
  {
    var k := FindFrom(s, sep, i);
    CountSkip(s, sep, i, k);
    if k < |s| {
      SplitFromCount(s, sep, k + 1);
    }
  }

  /** `s.split(sep)` has exactly one more piece than `s` has separators. */
  lemma SplitCount(s: string, sep: char)
    ensures |Split(s, sep)| == Count(s, sep) + 1
  {
    SplitFromCount(s, sep, 0);
  }

  /** The words of `s[i..]`: its maximal runs of non-whitespace characters. */
  function WordsFrom(s: string, i: nat): (ws: seq<string>)
    requires i <= |s|
    ensures forall j :: 0 <= j < |ws| ==> ws[j] != [] && HasNoSpace(ws[j])
    decreases |s| - i
  {
    var start := SkipSpace(s, i);
    if start == |s| then []
    else
      var stop := TokenEnd(s, start);
      assert HasNoSpace(s[start..stop]) by {
        forall m | 0 <= m < stop - start
          ensures !IsSpace(s[start..stop][m])
        {
          assert s[start..stop][m] == s[start + m];
        }
      }
      [s[start..stop]] + WordsFrom(s, stop)
  }

  /** `s.split()` */
  function Words(s: string): seq<string> {
    WordsFrom(s, 0)
  }

  function DigitChar(d: nat): (c: char)
    requires d < 10
    ensures IsDigit(c)
  {
    ('0' as int + d) as char
  }

  function DigitValue(c: char): nat
    requires IsDigit(c)
  {
    c as int - '0' as int
  }

  /** `str(n)` for a non-negative integer: its decimal digits, most
      significant first, with no leading zero. */
  function NatToString(n: nat): (s: string)
    ensures |s| >= 1 && AllDigits(s)
    ensures (s[0] == '0') == (n == 0)
  {
    if n < 10 then [DigitChar(n)] else NatToString(n / 10) + [DigitChar(n % 10)]
  }

  /** `str(n)` for any integer. */
  function IntToString(n: int): (s: string)
    ensures |s| >= 1
    ensures n >= 0 ==> AllDigits(s)
    ensures n < 0 ==> s[0] == '-' && AllDigits(s[1..])
  {
    if n < 0 then "-" + NatToString(-n) else NatToString(n)
  }

  /** The value of a string of decimal digits: `int(s)`. */
  function DigitsValue(s: string): nat
    requires AllDigits(s)
  {
    if s == [] then 0 else DigitsValue(s[..|s| - 1]) * 10 + DigitValue(s[|s| - 1])
  }

  /** Reading back `str(n)` gives `n`. */
  lemma {:induction false} NatToStringRoundTrip(n: nat)
    ensures DigitsValue(NatToString(n)) == n
  {
    var s := NatToString(n);
    if n >= 10 {
      NatToStringRoundTrip(n / 10);
      assert s[..|s| - 1] == NatToString(n / 10);
    }
  }
}
