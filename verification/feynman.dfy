/** The Feynman re-teaching node (src/nodes/feynman.py). */
module Feynman {
  import opened Options
  import opened LearningState
  import opened Collaborators

  /** The prefix that marks a question entry as an explanation. */
  const Tag: string := "FEYNMAN_PHASE|"

  predicate IsTagged(entry: string) {
    |Tag| <= |entry| && entry[..|Tag|] == Tag
  }

  function Tagged(text: string): (entry: string)
    ensures IsTagged(entry)
    ensures |entry| == |Tag| + |text|
    ensures entry[|Tag|..] == text
  {
    Tag + text
  }

  function Untagged(entry: string): (text: string)
    requires IsTagged(entry)
    ensures Tagged(text) == entry
  {
    entry[|Tag|..]
  }

  /** Stripping the tag gives back exactly the text that was tagged. */
  lemma TagRoundTrip(text: string)
    ensures Untagged(Tagged(text)) == text
  {
  }

  /** Tagging is one-to-one: different explanations give different entries. */
  lemma TaggedInjective(a: string, b: string)
    requires Tagged(a) == Tagged(b)
    ensures a == b
  {
    TagRoundTrip(a);
    TagRoundTrip(b);
  }

  /** The explanation requested for state `s`. */
  function Explanation(b: Backends, s: State): string {
    b.explain(s.understandingScore, s.gatheredContext, s.questions, s.learnerAnswers, s.topic, s.objectives)
  }

  /**
   * The node: one tagged explanation replaces the questions, the answers
   * are cleared, and the understanding score is written back unchanged.
   */
  function FeynmanTeaching(b: Backends, s: State): (u: Update)
    ensures Writes(u) == {Questions, LearnerAnswers, UnderstandingScore}
    ensures u.questions.Some? && |u.questions.value| == 1 && IsTagged(u.questions.value[0])
    ensures u.learnerAnswers == Some("")
    ensures u.understandingScore == Some(s.understandingScore)
  {
    NoUpdate.(questions := Some([Tagged(Explanation(b, s))]),
              learnerAnswers := Some(""),
              understandingScore := Some(s.understandingScore))
  }

  /**
   * After merging: a single entry whose untagged text is the explanation,
   * no answers, and every other key, the score included, as before.
   */
  lemma FeynmanEffect(b: Backends, s: State)
    ensures var t := Merge(s, FeynmanTeaching(b, s));
            && |t.questions| == 1
            && IsTagged(t.questions[0])
            && Untagged(t.questions[0]) == Explanation(b, s)
            && t.learnerAnswers == ""
            && SameOutside(s, t, {Questions, LearnerAnswers})
  {
    TagRoundTrip(Explanation(b, s));
  }
}
