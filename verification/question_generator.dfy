/** The question-generation node (src/nodes/question_generator.py). */
module QuestionGenerator {
  import opened Options
  import opened LearningState
  import opened Collaborators
  import opened Feynman

  /** The question block requested for state `s`. */
  function QuestionBlock(b: Backends, s: State): string {
    b.generate(s.gatheredContext, s.topic, s.objectives)
  }

  /** The node: the questions become the one block, verbatim; nothing else is written. */
  function GenerateQuestions(b: Backends, s: State): (u: Update)
    ensures Writes(u) == {Questions}
    ensures u.questions.Some? && |u.questions.value| == 1
  {
    NoUpdate.(questions := Some([QuestionBlock(b, s)]))
  }

  /**
   * After merging: whatever was there before, tagged or not, is replaced by
   * the untouched block; the entry is tagged only if the block itself
   * starts with the tag; answers and scores are kept.
   */
  lemma GenerateEffect(b: Backends, s: State)
    ensures var t := Merge(s, GenerateQuestions(b, s));
            && t.questions == [QuestionBlock(b, s)]
            && (IsTagged(t.questions[0]) <==> IsTagged(QuestionBlock(b, s)))
            && SameOutside(s, t, {Questions})
  {
  }

  /**
   * Re-teaching followed by question generation leaves no trace of the
   * explanation in the questions: the block, generated from the unchanged
   * context, topic and objectives, is all that remains.
   */
  lemma GenerateOverwritesExplanation(b: Backends, s: State)
    ensures var f := Merge(s, FeynmanTeaching(b, s));
            var t := Merge(f, GenerateQuestions(b, f));
            && t.questions == [QuestionBlock(b, s)]
            && t.learnerAnswers == ""
            && t.understandingScore == s.understandingScore
  {
    FeynmanEffect(b, s);
    GenerateEffect(b, Merge(s, FeynmanTeaching(b, s)));
  }
}
