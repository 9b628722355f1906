/**
 * The learning state threaded through every node of the tutoring graph
 * (the `LearningState` record, src/state.py), and the field-wise overwrite
 * merge that folds a node's partial update into it.
 */
module LearningState {
  import opened Options

  /** One topic-checkpoint's record. Every key is always present. */
  datatype State = State(
    topic: string,
    objectives: string,
    gatheredContext: string,
    relevanceScore: int,
    questions: seq<string>,
    learnerAnswers: string,
    understandingScore: int,
    searchRetryCount: int)

  /** The eight keys of the record. */
  datatype Field =
    | Topic | Objectives | GatheredContext | RelevanceScore
    | Questions | LearnerAnswers | UnderstandingScore | SearchRetryCount

  /** A node's return value: the keys it writes, each with its new value. */
  datatype Update = Update(
    topic: Option<string>,
    objectives: Option<string>,
    gatheredContext: Option<string>,
    relevanceScore: Option<int>,
    questions: Option<seq<string>>,
    learnerAnswers: Option<string>,
    understandingScore: Option<int>,
    searchRetryCount: Option<int>)

  /** The update that writes nothing. */
  const NoUpdate: Update := Update(None, None, None, None, None, None, None, None)

  /** Whether `u` writes key `f`. */
  predicate Written(u: Update, f: Field) {
    match f
    case Topic => u.topic.Some?
    case Objectives => u.objectives.Some?
    case GatheredContext => u.gatheredContext.Some?
    case RelevanceScore => u.relevanceScore.Some?
    case Questions => u.questions.Some?
    case LearnerAnswers => u.learnerAnswers.Some?
    case UnderstandingScore => u.understandingScore.Some?
    case SearchRetryCount => u.searchRetryCount.Some?
  }

  /** The keys an update writes. */
  function Writes(u: Update): (w: set<Field>)
    ensures u == NoUpdate <==> w == {}
  {
    var w := set f: Field | Written(u, f);
    assert u != NoUpdate ==>
      Topic in w || Objectives in w || GatheredContext in w || RelevanceScore in w ||
      Questions in w || LearnerAnswers in w || UnderstandingScore in w || SearchRetryCount in w;
    w
  }

  /** `s` and `t` hold the same value in every key outside `w`. */
  predicate SameOutside(s: State, t: State, w: set<Field>)
  {
    && (Topic !in w ==> s.topic == t.topic)
    && (Objectives !in w ==> s.objectives == t.objectives)
    && (GatheredContext !in w ==> s.gatheredContext == t.gatheredContext)
    && (RelevanceScore !in w ==> s.relevanceScore == t.relevanceScore)
    && (Questions !in w ==> s.questions == t.questions)
    && (LearnerAnswers !in w ==> s.learnerAnswers == t.learnerAnswers)
    && (UnderstandingScore !in w ==> s.understandingScore == t.understandingScore)
    && (SearchRetryCount !in w ==> s.searchRetryCount == t.searchRetryCount)
  }

  /** `t` holds, in every key `u` writes, the value `u` gives it. */
  predicate Carries(t: State, u: Update)
  {
    && (u.topic.Some? ==> t.topic == u.topic.value)
    && (u.objectives.Some? ==> t.objectives == u.objectives.value)
    && (u.gatheredContext.Some? ==> t.gatheredContext == u.gatheredContext.value)
    && (u.relevanceScore.Some? ==> t.relevanceScore == u.relevanceScore.value)
    && (u.questions.Some? ==> t.questions == u.questions.value)
    && (u.learnerAnswers.Some? ==> t.learnerAnswers == u.learnerAnswers.value)
    && (u.understandingScore.Some? ==> t.understandingScore == u.understandingScore.value)
    && (u.searchRetryCount.Some? ==> t.searchRetryCount == u.searchRetryCount.value)
  }

  /**
   * Fold a partial update into the state: a written key takes the update's
   * value (last write wins), every other key keeps its old value.
   */
  function Merge(s: State, u: Update): (t: State)
    ensures Carries(t, u)
    ensures SameOutside(s, t, Writes(u))
  {
    State(
      Overwrite(u.topic, s.topic),
      Overwrite(u.objectives, s.objectives),
      Overwrite(u.gatheredContext, s.gatheredContext),
      Overwrite(u.relevanceScore, s.relevanceScore),
      Overwrite(u.questions, s.questions),
      Overwrite(u.learnerAnswers, s.learnerAnswers),
      Overwrite(u.understandingScore, s.understandingScore),
      Overwrite(u.searchRetryCount, s.searchRetryCount))
  }

  /** Merging is determined by the two properties in Merge's contract. */
  lemma MergeUnique(s: State, u: Update, t: State)
    requires Carries(t, u)
    requires SameOutside(s, t, Writes(u))
    ensures t == Merge(s, u)
  {
  }
}
