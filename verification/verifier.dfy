/** The answer-verification node (src/nodes/verifier.py). */
module Verifier {
  import opened Options
  import opened LearningState
  import opened MarkerSearch
  import opened Collaborators

  const PercentMarker: string := "FINAL_PERCENTAGE:"

  /** The score used when the grading report carries no readable marker. */
  const DefaultPercentage: int := 0

  /**
   * The most digits `int()` converts from a string: CPython's default
   * `int_max_str_digits`.  A longer run makes `int()` raise `ValueError`,
   * and the node's `except` turns that into the default score.
   */
  const IntMaxStrDigits: nat := 4300

  lemma PercentMarkerIsPlain()
    ensures PlainMarker(PercentMarker)
  {
  }

  /**
   * The grading report's percentage: find the leftmost place where the
   * marker, optional whitespace and at least one digit follow one another,
   * and read the whole digit run there as a decimal number; with no such
   * place, or with a run too long for `int()`, 0.  Nothing caps the value
   * at 100.
   */
  function ParsePercentage(response: string): (score: int)
    ensures score >= 0
  {
    match LeftmostMatch(response, PercentMarker, 0)
    case None => DefaultPercentage
    case Some(i) =>
      var j := CaptureStart(response, PercentMarker, i);
      var ds := response[j..SkipDigits(response, j)];
      if |ds| > IntMaxStrDigits then DefaultPercentage else DecimalValue(ds)
  }

  /** A reply with no match of the marker anywhere reads as the default. */
  lemma PercentageDefaultsWithoutMarker(response: string)
    requires forall i :: !MatchesAt(response, PercentMarker, i)
    ensures ParsePercentage(response) == DefaultPercentage
  {
  }

  /**
   * The reader returns the value of the digits after the first marker: no
   * match in the text before it, any whitespace after it, and the digit run
   * ending at a non-digit or at the end of the text.  A run longer than
   * `int()` accepts reads as the default.  The lemma hands back the reply it
   * assembles from those parts.
   */
  lemma PercentageReadsFirstMarker(pre: string, ws: string, ds: string, rest: string)
    returns (reply: string)
    requires forall i :: !MatchesAt(pre, PercentMarker, i)
    requires AllSpaces(ws)
    requires |ds| > 0 && AllDigits(ds)
    requires rest == [] || !IsDigit(rest[0])
    ensures reply == pre + PercentMarker + ws + ds + rest
    ensures ParsePercentage(reply) == if |ds| <= IntMaxStrDigits then DecimalValue(ds) else DefaultPercentage
  {
    PercentMarkerIsPlain();
    reply := pre + PercentMarker + ws + ds + rest;
    var j := |pre| + |PercentMarker| + |ws|;
    assert reply[..|pre|] == pre;
    assert reply[|pre|..|pre| + |PercentMarker|] == PercentMarker;
    assert reply[|pre| + |PercentMarker|..j] == ws;
    assert reply[j..j + |ds|] == ds;
    assert reply[j] == ds[0];
    FindsMarkerAfter(reply, pre, PercentMarker, ws);
    if rest != [] {
      assert reply[j + |ds|] == rest[0];
    }
    DigitRunIs(reply, j, ds);
    ReadsCapturedRun(reply, |pre|, j, ds);
  }

  /** Reading a reply whose leftmost match captures exactly the digit run `ds`. */
  lemma ReadsCapturedRun(s: string, i: nat, j: nat, ds: string)
    requires |ds| > 0 && AllDigits(ds)
    requires i + |PercentMarker| <= |s|
    requires LeftmostMatch(s, PercentMarker, 0) == Some(i)
    requires CaptureStart(s, PercentMarker, i) == j
    requires j + |ds| <= |s| && SkipDigits(s, j) == j + |ds|
    requires s[j..j + |ds|] == ds
    ensures ParsePercentage(s) == if |ds| <= IntMaxStrDigits then DecimalValue(ds) else DefaultPercentage
  {
  }

  /**
   * Rendering a percentage after the marker reads back as that number when
   * it has at most 4300 digits, and as the default when it has more.
   */
  lemma PercentageRoundTrip(n: nat)
    ensures |NatToDecimal(n)| <= IntMaxStrDigits ==> ParsePercentage(PercentMarker + " " + NatToDecimal(n)) == n
    ensures |NatToDecimal(n)| > IntMaxStrDigits ==> ParsePercentage(PercentMarker + " " + NatToDecimal(n)) == DefaultPercentage
  {
    var ds := NatToDecimal(n);
    NothingMatchesEmpty(PercentMarker);
    var reply := PercentageReadsFirstMarker("", " ", ds, "");
    assert reply == PercentMarker + " " + ds;
  }

  /** "FINAL_PERCENTAGE: 250" reads as 250: the value is not capped. */
  lemma PercentageIsNotCapped()
    ensures ParsePercentage("FINAL_PERCENTAGE: 250") == 250
  {
    PercentageRoundTrip(250);
    assert NatToDecimal(250) == "250";
    assert PercentMarker + " " + "250" == "FINAL_PERCENTAGE: 250";
  }

  /** The verification node: it writes the understanding score and nothing else. */
  function VerifyUnderstanding(b: Backends, s: State): (u: Update)
    ensures Writes(u) == {UnderstandingScore}
    ensures u.understandingScore.Some? && u.understandingScore.value >= 0
  {
    var response := b.grade(s.gatheredContext, s.questions, s.learnerAnswers);
    NoUpdate.(understandingScore := Some(ParsePercentage(response)))
  }
}
