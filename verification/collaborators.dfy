/**
 * The external services the graph calls: web search plus retrieval plus
 * summarisation, and the language model behind the relevance judgement,
 * the question writing, the grading and the explanation.  Each is an
 * uninterpreted function of the values the calling node puts into its
 * request.
 */
module Collaborators {
  import opened Options
  import opened LearningState

  datatype Backends = Backends(
    /** (topic, objectives) to study material, or the gatherer's error text */
    gather: (string, string) -> string,
    /** (topic, objectives, context) to a free-text relevance judgement */
    judge: (string, string, string) -> string,
    /** (context, topic, objectives) to a block of multiple-choice questions */
    generate: (string, string, string) -> string,
    /** (context, questions, answers) to a free-text grading report */
    grade: (string, seq<string>, string) -> string,
    /** (score, context, questions, answers, topic, objectives) to an explanation */
    explain: (int, string, seq<string>, string, string, string) -> string)

  /**
   * The gathering node: it writes the study material and nothing else.
   * Whatever the search and summarising steps do inside, including their
   * error fallbacks, is folded into `gather`.
   */
  function GatherContext(b: Backends, s: State): (u: Update)
    ensures Writes(u) == {GatheredContext}
    ensures u.gatheredContext == Some(b.gather(s.topic, s.objectives))
  {
    NoUpdate.(gatheredContext := Some(b.gather(s.topic, s.objectives)))
  }
}
