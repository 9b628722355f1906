/**
 * The pattern shared by the two score readers: a literal marker, optional
 * whitespace, then a decimal digit, searched for leftmost-first the way
 * Python's `re.search` does.  Only ASCII is modelled: `\d` is '0'..'9' and
 * `\s` is the ASCII code points Python treats as whitespace.
 */
module MarkerSearch {
  import opened Options

  predicate IsDigit(c: char) {
    '0' <= c <= '9'
  }

  /** Tab, line feed, vertical tab, form feed, carriage return, the four
      ASCII separators 0x1C..0x1F, and space. */
  predicate IsSpace(c: char) {
    9 <= c as int <= 13 || 28 <= c as int <= 32
  }

  predicate AllDigits(s: string) {
    forall k :: 0 <= k < |s| ==> IsDigit(s[k])
  }

  predicate AllSpaces(s: string) {
    forall k :: 0 <= k < |s| ==> IsSpace(s[k])
  }

  /** A marker that can neither start nor end a run of spaces or digits. */
  predicate PlainMarker(marker: string) {
    |marker| > 0 && forall k :: 0 <= k < |marker| ==> !IsSpace(marker[k]) && !IsDigit(marker[k])
  }

  function DigitValue(c: char): (d: nat)
    requires IsDigit(c)
    ensures d < 10
    ensures DigitChar(d) == c
  {
    c as int - '0' as int
  }

  function DigitChar(d: nat): (c: char)
    requires d < 10
    ensures IsDigit(c)
  {
    ('0' as int + d) as char
  }

  /** The first position at or after `k` that is not whitespace (greedy `\s*`). */
  function SkipSpaces(s: string, k: nat): (j: nat)
    requires k <= |s|
    ensures k <= j <= |s|
    ensures forall m :: k <= m < j ==> IsSpace(s[m])
    ensures j == |s| || !IsSpace(s[j])
    decreases |s| - k
  {
    if k == |s| || !IsSpace(s[k]) then k else SkipSpaces(s, k + 1)
  }

  /** The first position at or after `k` that is not a digit (greedy `\d+`). */
  function SkipDigits(s: string, k: nat): (j: nat)
    requires k <= |s|
    ensures k <= j <= |s|
    ensures AllDigits(s[k..j])
    ensures j == |s| || !IsDigit(s[j])
    decreases |s| - k
  {
    if k == |s| || !IsDigit(s[k]) then k else SkipDigits(s, k + 1)
  }

  /**
   * The regular-expression reading of `marker\s*\d` at position `i`, with the
   * digit at `j`: the marker, then nothing but whitespace, then a digit.
   */
  ghost predicate PatternAt(s: string, marker: string, i: nat, j: nat) {
    && i + |marker| <= j < |s|
    && s[i..i + |marker|] == marker
    && (forall m :: i + |marker| <= m < j ==> IsSpace(s[m]))
    && IsDigit(s[j])
  }

  /** Where the captured digits begin for a marker occurrence at `i`. */
  function CaptureStart(s: string, marker: string, i: nat): nat
    requires i + |marker| <= |s|
  {
    SkipSpaces(s, i + |marker|)
  }

  /** The executable test for a match of `marker\s*\d` starting at `i`. */
  predicate MatchesAt(s: string, marker: string, i: nat) {
    && i + |marker| <= |s|
    && s[i..i + |marker|] == marker
    && CaptureStart(s, marker, i) < |s|
    && IsDigit(s[CaptureStart(s, marker, i)])
  }

  /**
   * The executable test agrees with the regular-expression reading, and the
   * digit the expression can capture is unique: backtracking out of `\s*`
   * never yields a second match at the same start.
   */
  lemma MatchesAtIsPattern(s: string, marker: string, i: nat)
    ensures MatchesAt(s, marker, i) <==> exists j :: PatternAt(s, marker, i, j)
    ensures forall j :: PatternAt(s, marker, i, j) ==> j == CaptureStart(s, marker, i)
  {
    forall j: nat | PatternAt(s, marker, i, j)
      ensures j == CaptureStart(s, marker, i)
    {
    }
    if MatchesAt(s, marker, i) {
      assert PatternAt(s, marker, i, CaptureStart(s, marker, i));
    }
  }

  /**
   * The leftmost match at or after `from`, as `re.search` scans: the first
   * start position at which the whole pattern matches.
   */
  function LeftmostMatch(s: string, marker: string, from: nat): (r: Option<nat>)
    requires from <= |s|
    ensures r.Some? ==> from <= r.value && MatchesAt(s, marker, r.value)
    ensures r.Some? ==> forall i :: from <= i < r.value ==> !MatchesAt(s, marker, i)
    ensures r.None? ==> forall i :: from <= i ==> !MatchesAt(s, marker, i)
    decreases |s| - from
  {
    if from == |s| then None
    else if MatchesAt(s, marker, from) then Some(from)
    else LeftmostMatch(s, marker, from + 1)
  }

  /**
   * The value of a run of decimal digits (leading zeros allowed), as `int()`
   * reads it within CPython's digit limit (`Verifier.IntMaxStrDigits`).
   */
  function DecimalValue(ds: string): (v: nat)
    requires AllDigits(ds)
    ensures v < Pow10(|ds|)
  {
    if ds == [] then 0
    else DecimalValue(ds[..|ds| - 1]) * 10 + DigitValue(ds[|ds| - 1])
  }

  function Pow10(n: nat): (p: nat)
    ensures p >= 1
  {
    if n == 0 then 1 else 10 * Pow10(n - 1)
  }

  /** The canonical decimal rendering of a number, as `str()` writes it. */
  function NatToDecimal(n: nat): (ds: string)
    ensures |ds| > 0 && AllDigits(ds)
    ensures |ds| > 1 ==> ds[0] != '0'
    ensures DecimalValue(ds) == n
  {
    if n < 10 then [DigitChar(n)]
    else
      var ds := NatToDecimal(n / 10) + [DigitChar(n % 10)];
      assert ds[..|ds| - 1] == NatToDecimal(n / 10);
      ds
  }

  /** A number's rendering has at most `k` digits exactly when the number is below 10^k. */
  lemma {:induction false} DecimalLength(n: nat, k: nat)
    requires k >= 1
    ensures |NatToDecimal(n)| <= k <==> n < Pow10(k)
    decreases n
  {
    if n >= 10 {
      if k == 1 {
        assert Pow10(1) == 10;
      } else {
        DecimalLength(n / 10, k - 1);
        assert n / 10 < Pow10(k - 1) <==> n < 10 * Pow10(k - 1);
      }
    } else {
      assert Pow10(k) == 10 * Pow10(k - 1);
    }
  }

  /** `s` begins with `pre`, followed by `marker`. */
  predicate MarkerAfter(s: string, pre: string, marker: string) {
    |pre| + |marker| <= |s| && s[..|pre|] == pre && s[|pre|..|pre| + |marker|] == marker
  }

  /** A match that starts inside `pre` cannot reach into the marker that follows it. */
  lemma MatchStaysInPrefix(s: string, pre: string, marker: string, i: nat)
    requires PlainMarker(marker)
    requires MarkerAfter(s, pre, marker)
    requires i < |pre|
    requires MatchesAt(s, marker, i)
    ensures MatchesAt(pre, marker, i)
  {
    var c := CaptureStart(s, marker, i);
    MatchesAtIsPattern(s, marker, i);
    assert i + |marker| < |pre|;
    assert s[|pre|] == marker[0] by {
      assert s[|pre|..|pre| + |marker|][0] == s[|pre|];
    }
    assert c < |pre|;
    assert pre[i..i + |marker|] == s[i..i + |marker|];
    assert forall m :: 0 <= m < |pre| ==> pre[m] == s[m];
    assert PatternAt(pre, marker, i, c);
    MatchesAtIsPattern(pre, marker, i);
  }

  /**
   * When nothing in `pre` matches and `s` continues `pre` with the marker,
   * whitespace `ws` and a digit, the leftmost match is that marker and its
   * capture starts right after `ws`.
   */
  lemma FindsMarkerAfter(s: string, pre: string, marker: string, ws: string)
    requires PlainMarker(marker)
    requires forall i :: !MatchesAt(pre, marker, i)
    requires MarkerAfter(s, pre, marker)
    requires |pre| + |marker| + |ws| < |s|
    requires s[|pre| + |marker|..|pre| + |marker| + |ws|] == ws && AllSpaces(ws)
    requires IsDigit(s[|pre| + |marker| + |ws|])
    ensures LeftmostMatch(s, marker, 0) == Some(|pre|)
    ensures CaptureStart(s, marker, |pre|) == |pre| + |marker| + |ws|
  {
    var j := |pre| + |marker| + |ws|;
    forall i: nat | i < |pre|
      ensures !MatchesAt(s, marker, i)
    {
      if MatchesAt(s, marker, i) {
        MatchStaysInPrefix(s, pre, marker, i);
      }
    }
    assert forall m :: |pre| + |marker| <= m < j ==> s[m] == ws[m - |pre| - |marker|];
    assert PatternAt(s, marker, |pre|, j);
    MatchesAtIsPattern(s, marker, |pre|);
  }

  /** The greedy digit run starting at `j` is exactly `ds` when `ds` is followed by a non-digit or the end. */
  lemma {:induction false} DigitRunIs(s: string, j: nat, ds: string)
    requires j + |ds| <= |s| && s[j..j + |ds|] == ds
    requires AllDigits(ds)
    requires j + |ds| == |s| || !IsDigit(s[j + |ds|])
    ensures SkipDigits(s, j) == j + |ds|
    decreases |ds|
  {
    if ds != [] {
      assert s[j] == ds[0];
      assert s[j + 1..j + 1 + |ds[1..]|] == ds[1..];
      DigitRunIs(s, j + 1, ds[1..]);
    }
  }

  lemma NothingMatchesEmpty(marker: string)
    requires |marker| > 0
    ensures forall i :: !MatchesAt("", marker, i)
  {
  }
}
