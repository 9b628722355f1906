/** The context-validation node (src/nodes/validator.py). */
module Validator {
  import opened Options
  import opened LearningState
  import opened MarkerSearch
  import opened Collaborators

  const ScoreMarker: string := "FINAL_SCORE:"

  /** The score used when the judgement carries no readable marker. */
  const DefaultRelevance: int := 1

  lemma ScoreMarkerIsPlain()
    ensures PlainMarker(ScoreMarker)
  {
  }

  /**
   * The judgement's relevance score: find the leftmost place where the
   * marker, optional whitespace and a digit follow one another, and read
   * that one digit; with no such place, 1.
   */
  function ParseRelevance(response: string): (score: int)
    ensures 0 <= score <= 9
  {
    match LeftmostMatch(response, ScoreMarker, 0)
    case None => DefaultRelevance
    case Some(i) => DigitValue(response[CaptureStart(response, ScoreMarker, i)])
  }

  /** A reply with no match of the marker anywhere reads as the default. */
  lemma RelevanceDefaultsWithoutMarker(response: string)
    requires forall i :: !MatchesAt(response, ScoreMarker, i)
    ensures ParseRelevance(response) == DefaultRelevance
  {
  }

  /**
   * The reader returns the digit after the first marker: with no match in
   * the text before it, any whitespace after it, and anything at all after
   * the digit (so a second digit is ignored).
   */
  lemma RelevanceReadsFirstMarker(pre: string, ws: string, d: nat, rest: string)
    requires forall i :: !MatchesAt(pre, ScoreMarker, i)
    requires AllSpaces(ws)
    requires d < 10
    ensures ParseRelevance(pre + ScoreMarker + ws + [DigitChar(d)] + rest) == d
  {
    ScoreMarkerIsPlain();
    var s := pre + ScoreMarker + ws + [DigitChar(d)] + rest;
    var j := |pre| + |ScoreMarker| + |ws|;
    assert s[..|pre|] == pre;
    assert s[|pre|..|pre| + |ScoreMarker|] == ScoreMarker;
    assert s[|pre| + |ScoreMarker|..j] == ws;
    assert s[j] == DigitChar(d);
    FindsMarkerAfter(s, pre, ScoreMarker, ws);
  }

  /** "FINAL_SCORE: 10" reads as 1: only one digit is captured. */
  lemma TwoDigitScoreReadsFirstDigit()
    ensures ParseRelevance("FINAL_SCORE: 10") == 1
  {
    NothingMatchesEmpty(ScoreMarker);
    RelevanceReadsFirstMarker("", " ", 1, "0");
    assert "" + ScoreMarker + " " + [DigitChar(1)] + "0" == "FINAL_SCORE: 10";
  }

  /**
   * The validation node: bump the retry counter by one and store the
   * judged relevance; no other key is written.
   */
  function ValidateContext(b: Backends, s: State): (u: Update)
    ensures Writes(u) == {RelevanceScore, SearchRetryCount}
    ensures u.searchRetryCount == Some(s.searchRetryCount + 1)
    ensures u.relevanceScore.Some? && 0 <= u.relevanceScore.value <= 9
  {
    var response := b.judge(s.topic, s.objectives, s.gatheredContext);
    NoUpdate.(relevanceScore := Some(ParseRelevance(response)),
              searchRetryCount := Some(s.searchRetryCount + 1))
  }

  /**
   * Validating an unchanged context twice gives the same relevance both
   * times, and each pass still adds exactly one to the counter.
   */
  lemma ValidateTwice(b: Backends, s: State)
    ensures var s1 := Merge(s, ValidateContext(b, s));
            var s2 := Merge(s1, ValidateContext(b, s1));
            && s2.relevanceScore == s1.relevanceScore
            && s1.searchRetryCount == s.searchRetryCount + 1
            && s2.searchRetryCount == s.searchRetryCount + 2
            && s2 == s1.(searchRetryCount := s1.searchRetryCount + 1)
  {
  }
}
