/** What one pass over the tutoring graph does, proved about every pass. */
module PassProperties {
  import opened Options
  import opened LearningState
  import opened Graph
  import Validator
  import Verifier
  import Feynman
  import QuestionGenerator

  /** `k` rounds of gathering followed by validation. */
  function Cycles(k: nat): (path: seq<Node>)
    ensures |path| == 2 * k
  {
    if k == 0 then [] else [GatherContext, ValidateContext] + Cycles(k - 1)
  }

  lemma {:induction false} CyclesCount(k: nat)
    ensures multiset(Cycles(k))[ValidateContext] == k
    ensures multiset(Cycles(k))[GatherContext] == k
    ensures VerifyUnderstanding !in Cycles(k) && FeynmanTeaching !in Cycles(k) && GenerateQuestions !in Cycles(k)
  {
    if k > 0 {
      CyclesCount(k - 1);
      assert multiset(Cycles(k)) == multiset([GatherContext, ValidateContext]) + multiset(Cycles(k - 1));
    }
  }

  /** In every run, each gathering step is immediately followed by validation. */
  lemma {:induction false} RunGatherThenValidate(b: Backends, n: Node, s: State, fuel: nat)
    requires Run(b, n, s, fuel).Some?
    ensures var path := Run(b, n, s, fuel).value.path;
            forall i :: 0 <= i < |path| && path[i] == GatherContext ==> i + 1 < |path| && path[i + 1] == ValidateContext
    decreases fuel
  {
    var t := Merge(s, NodeUpdate(b, n, s));
    match Edge(n, t)
    case End =>
    case Goto(m) =>
      RunGatherThenValidate(b, m, t, fuel - 1);
  }

  /**
   * No node writes the topic or the objectives, and the retry count grows
   * by exactly the number of validations the run made.
   */
  lemma {:induction false} RunCountsValidations(b: Backends, n: Node, s: State, fuel: nat)
    requires Run(b, n, s, fuel).Some?
    ensures var p := Run(b, n, s, fuel).value;
            && p.state.topic == s.topic
            && p.state.objectives == s.objectives
            && p.state.searchRetryCount == s.searchRetryCount + multiset(p.path)[ValidateContext]
    decreases fuel
  {
    var t := Merge(s, NodeUpdate(b, n, s));
    StepKeepsIdentity(b, n, s);
    if Edge(n, t).Goto? {
      var m := Edge(n, t).node;
      RunCountsValidations(b, m, t, fuel - 1);
      ValidationsAfter(n, Run(b, m, t, fuel - 1).value.path);
    }
  }

  /** Putting `n` in front of a path adds one validation exactly when `n` validates. */
  lemma ValidationsAfter(n: Node, path: seq<Node>)
    ensures multiset([n] + path)[ValidateContext] == multiset(path)[ValidateContext] + (if n == ValidateContext then 1 else 0)
  {
    assert multiset([n] + path) == multiset([n]) + multiset(path);
  }

  /** One node leaves topic and objectives alone and raises the retry count only when it validates. */
  lemma StepKeepsIdentity(b: Backends, n: Node, s: State)
    ensures var t := Merge(s, NodeUpdate(b, n, s));
            && t.topic == s.topic && t.objectives == s.objectives
            && t.searchRetryCount == s.searchRetryCount + (if n == ValidateContext then 1 else 0)
  {
  }

  /** The state after the gathering node has run on `s`. */
  function Gathered(b: Backends, s: State): State {
    s.(gatheredContext := b.gather(s.topic, s.objectives))
  }

  /** The state after the validation node has run on `s`. */
  function Validated(b: Backends, s: State): State {
    s.(relevanceScore := Validator.ParseRelevance(b.judge(s.topic, s.objectives, s.gatheredContext)),
       searchRetryCount := s.searchRetryCount + 1)
  }

  /** The state after the verification node has run on `s`. */
  function Verified(b: Backends, s: State): State {
    s.(understandingScore := Verifier.ParsePercentage(b.grade(s.gatheredContext, s.questions, s.learnerAnswers)))
  }

  /** The state after the question-generation node has run on `s`. */
  function Generated(b: Backends, s: State): State {
    s.(questions := [QuestionGenerator.QuestionBlock(b, s)])
  }

  /** The state after the re-teaching node has run on `s`. */
  function Taught(b: Backends, s: State): State {
    s.(questions := [Feynman.Tagged(Feynman.Explanation(b, s))], learnerAnswers := "")
  }

  lemma GatherStep(b: Backends, s: State, fuel: nat)
    requires fuel > 0
    ensures Run(b, GatherContext, s, fuel) == Then(GatherContext, Run(b, ValidateContext, Gathered(b, s), fuel - 1))
  {
    assert Merge(s, NodeUpdate(b, GatherContext, s)) == Gathered(b, s);
  }

  lemma ValidateStep(b: Backends, s: State, fuel: nat)
    requires fuel > 0
    ensures Run(b, ValidateContext, s, fuel)
         == Then(ValidateContext, Run(b, DecidePath(Validated(b, s)), Validated(b, s), fuel - 1))
  {
    assert Merge(s, NodeUpdate(b, ValidateContext, s)) == Validated(b, s);
  }

  lemma GenerateStep(b: Backends, s: State, fuel: nat)
    requires fuel > 0
    ensures Run(b, GenerateQuestions, s, fuel) == Some(Pass(Generated(b, s), [GenerateQuestions]))
  {
    assert Merge(s, NodeUpdate(b, GenerateQuestions, s)) == Generated(b, s);
  }

  lemma VerifyStep(b: Backends, s: State, fuel: nat)
    requires fuel > 0
    ensures CheckMastery(Verified(b, s)) == End ==>
      Run(b, VerifyUnderstanding, s, fuel) == Some(Pass(Verified(b, s), [VerifyUnderstanding]))
    ensures CheckMastery(Verified(b, s)) != End ==>
      Run(b, VerifyUnderstanding, s, fuel) == Then(VerifyUnderstanding, Run(b, FeynmanTeaching, Verified(b, s), fuel - 1))
  {
    assert Merge(s, NodeUpdate(b, VerifyUnderstanding, s)) == Verified(b, s);
  }

  lemma TeachStep(b: Backends, s: State, fuel: nat)
    requires fuel > 0
    ensures Run(b, FeynmanTeaching, s, fuel) == Then(FeynmanTeaching, Run(b, GenerateQuestions, Taught(b, s), fuel - 1))
  {
    assert Merge(s, NodeUpdate(b, FeynmanTeaching, s)) == Taught(b, s);
  }

  /** The state a pass on `s` ends in when no answer is pending, after `k` validations. */
  function UnansweredResult(b: Backends, s: State, k: nat): State {
    var g := b.gather(s.topic, s.objectives);
    s.(gatheredContext := g,
       relevanceScore := Validator.ParseRelevance(b.judge(s.topic, s.objectives, g)),
       questions := [b.generate(g, s.topic, s.objectives)],
       searchRetryCount := s.searchRetryCount + k)
  }

  /** `p` is what a pass on `s` with no pending answer ends with. */
  predicate UnansweredShape(b: Backends, s: State, p: Pass) {
    var k := p.state.searchRetryCount - s.searchRetryCount;
    && 1 <= k <= Rounds(s.searchRetryCount)
    && p.path == Cycles(k) + [GenerateQuestions]
    && p.state == UnansweredResult(b, s, k)
  }

  /** The first validation passes the content or exhausts the retries: questions follow at once. */
  lemma UnansweredStops(b: Backends, s: State, fuel: nat)
    requires s.learnerAnswers == ""
    requires Run(b, GatherContext, s, fuel).Some?
    requires DecidePath(Validated(b, Gathered(b, s))) == GenerateQuestions
    ensures UnansweredShape(b, s, Run(b, GatherContext, s, fuel).value)
  {
    var t1 := Gathered(b, s);
    var t2 := Validated(b, t1);
    GatherStep(b, s, fuel);
    ValidateStep(b, t1, fuel - 1);
    GenerateStep(b, t2, fuel - 2);
    assert Run(b, GatherContext, s, fuel).value.path == [GatherContext] + ([ValidateContext] + [GenerateQuestions]);
    assert Cycles(1) == [GatherContext, ValidateContext];
    assert Generated(b, t2) == UnansweredResult(b, s, 1);
  }

  /** The first validation sends the pass back to gathering, on the validated state. */
  lemma UnansweredContinues(b: Backends, s: State, fuel: nat)
    requires Run(b, GatherContext, s, fuel).Some?
    requires DecidePath(Validated(b, Gathered(b, s))) == GatherContext
    ensures fuel >= 2
    ensures Run(b, GatherContext, s, fuel)
         == Then(GatherContext, Then(ValidateContext, Run(b, GatherContext, Validated(b, Gathered(b, s)), fuel - 2)))
  {
    GatherStep(b, s, fuel);
    ValidateStep(b, Gathered(b, s), fuel - 1);
  }

  /** A repeated round puts one more gather/validate pair in front of the rest of the pass. */
  lemma UnansweredRepeats(b: Backends, s: State, p: Pass, p2: Pass)
    requires s.learnerAnswers == ""
    requires DecidePath(Validated(b, Gathered(b, s))) == GatherContext
    requires UnansweredShape(b, Validated(b, Gathered(b, s)), p2)
    requires p.state == p2.state && p.path == [GatherContext] + ([ValidateContext] + p2.path)
    ensures UnansweredShape(b, s, p)
  {
    var t2 := Validated(b, Gathered(b, s));
    assert t2.searchRetryCount == s.searchRetryCount + 1 < RetryLimit;
    var k2 := p2.state.searchRetryCount - t2.searchRetryCount;
    assert 1 <= k2 + 1 <= Rounds(s.searchRetryCount);
    CyclesThenGenerate(k2);
    assert t2.topic == s.topic && t2.objectives == s.objectives;
    assert p.state == UnansweredResult(b, s, k2 + 1);
  }

  /** One more round in front of `k` rounds and question generation. */
  lemma CyclesThenGenerate(k: nat)
    ensures [GatherContext] + ([ValidateContext] + (Cycles(k) + [GenerateQuestions])) == Cycles(k + 1) + [GenerateQuestions]
  {
    assert Cycles(k + 1) == [GatherContext, ValidateContext] + Cycles(k);
  }

  /**
   * Entered at gathering with no answer pending, a run makes between one
   * and max(1, 3 - c) gather/validate rounds, then generates questions and
   * stops; it never verifies or re-teaches.
   */
  lemma {:induction false} UnansweredRun(b: Backends, s: State, fuel: nat)
    requires s.learnerAnswers == ""
    requires Run(b, GatherContext, s, fuel).Some?
    ensures UnansweredShape(b, s, Run(b, GatherContext, s, fuel).value)
    decreases fuel
  {
    var t2 := Validated(b, Gathered(b, s));
    if DecidePath(t2) == GenerateQuestions {
      UnansweredStops(b, s, fuel);
    } else {
      UnansweredContinues(b, s, fuel);
      UnansweredRun(b, t2, fuel - 2);
      UnansweredExtends(b, s, fuel);
    }
  }

  /** A pass that goes round again has the shape of the rest of the pass with one more round in front. */
  lemma UnansweredExtends(b: Backends, s: State, fuel: nat)
    requires s.learnerAnswers == ""
    requires DecidePath(Validated(b, Gathered(b, s))) == GatherContext
    requires fuel >= 2 && Run(b, GatherContext, Validated(b, Gathered(b, s)), fuel - 2).Some?
    requires Run(b, GatherContext, s, fuel)
          == Then(GatherContext, Then(ValidateContext, Run(b, GatherContext, Validated(b, Gathered(b, s)), fuel - 2)))
    requires UnansweredShape(b, Validated(b, Gathered(b, s)), Run(b, GatherContext, Validated(b, Gathered(b, s)), fuel - 2).value)
    ensures UnansweredShape(b, s, Run(b, GatherContext, s, fuel).value)
  {
    var t2 := Validated(b, Gathered(b, s));
    UnansweredRepeats(b, s, Run(b, GatherContext, s, fuel).value, Run(b, GatherContext, t2, fuel - 2).value);
  }

  /** `p` is what a pass on `s` with a pending answer ends with. */
  predicate AnsweredShape(b: Backends, s: State, p: Pass) {
    var v := Verified(b, Validated(b, Gathered(b, s)));
    if v.understandingScore < MasteryThreshold then
      && p.path == [GatherContext, ValidateContext, VerifyUnderstanding, FeynmanTeaching, GenerateQuestions]
      && p.state == Generated(b, Taught(b, v))
    else
      && p.path == [GatherContext, ValidateContext, VerifyUnderstanding]
      && p.state == v
  }

  /**
   * Entered at gathering with an answer pending, a run gathers and
   * validates once, verifies, and, below the mastery threshold, re-teaches
   * and generates new questions.
   */
  lemma AnsweredRun(b: Backends, s: State, fuel: nat)
    requires s.learnerAnswers != ""
    requires Run(b, GatherContext, s, fuel).Some?
    ensures AnsweredShape(b, s, Run(b, GatherContext, s, fuel).value)
  {
    var t2 := Validated(b, Gathered(b, s));
    AnsweredReachesVerify(b, s, fuel);
    VerifiedRun(b, t2, fuel - 2);
    AnsweredAssembles(b, s, Run(b, GatherContext, s, fuel).value, Run(b, VerifyUnderstanding, t2, fuel - 2).value);
  }

  /** With an answer pending, gathering and one validation lead straight to verification. */
  lemma AnsweredReachesVerify(b: Backends, s: State, fuel: nat)
    requires s.learnerAnswers != ""
    requires Run(b, GatherContext, s, fuel).Some?
    ensures fuel >= 2
    ensures Run(b, GatherContext, s, fuel)
         == Then(GatherContext, Then(ValidateContext, Run(b, VerifyUnderstanding, Validated(b, Gathered(b, s)), fuel - 2)))
  {
    GatherStep(b, s, fuel);
    ValidateStep(b, Gathered(b, s), fuel - 1);
    assert DecidePath(Validated(b, Gathered(b, s))) == VerifyUnderstanding;
  }

  /** The rest of an answered pass, after one gather/validate pair, gives the pass its shape. */
  lemma AnsweredAssembles(b: Backends, s: State, p: Pass, p2: Pass)
    requires VerifiedShape(b, Validated(b, Gathered(b, s)), p2)
    requires p.state == p2.state && p.path == [GatherContext] + ([ValidateContext] + p2.path)
    ensures AnsweredShape(b, s, p)
  {
  }

  /** `p` is what a pass entered at verification on `t` ends with. */
  predicate VerifiedShape(b: Backends, t: State, p: Pass) {
    var v := Verified(b, t);
    if v.understandingScore < MasteryThreshold then
      p.path == [VerifyUnderstanding, FeynmanTeaching, GenerateQuestions] && p.state == Generated(b, Taught(b, v))
    else
      p.path == [VerifyUnderstanding] && p.state == v
  }

  /** From verification on an answered state: the grade ends the pass or leads to re-teaching and new questions. */
  lemma VerifiedRun(b: Backends, t: State, fuel: nat)
    requires t.learnerAnswers != ""
    requires Run(b, VerifyUnderstanding, t, fuel).Some?
    ensures VerifiedShape(b, t, Run(b, VerifyUnderstanding, t, fuel).value)
  {
    var v := Verified(b, t);
    VerifyStep(b, t, fuel);
    if v.understandingScore < MasteryThreshold {
      TeachStep(b, v, fuel - 1);
      GenerateStep(b, Taught(b, v), fuel - 2);
      assert [VerifyUnderstanding] + ([FeynmanTeaching] + [GenerateQuestions]) == [VerifyUnderstanding, FeynmanTeaching, GenerateQuestions];
    }
  }

  /** A pass is the run from the entry with the budget as fuel. */
  lemma InvokeIsRun(b: Backends, s: State)
    ensures Run(b, GatherContext, s, Budget(GatherContext, s)) == Some(Invoke(b, s))
  {
    var p := Invoke(b, s);
    assert Run(b, Entry, s, Budget(GatherContext, s)) == Some(p);
  }

  /** No node writes the topic or the objectives. */
  lemma PassKeepsIdentity(b: Backends, s: State)
    ensures Invoke(b, s).state.topic == s.topic
    ensures Invoke(b, s).state.objectives == s.objectives
  {
    InvokeIsRun(b, s);
    RunCountsValidations(b, Entry, s, Budget(Entry, s));
  }

  /** The understanding score verification gives on `s`, after the pass re-gathers. */
  function VerificationScore(b: Backends, s: State): int {
    Verifier.ParsePercentage(b.grade(b.gather(s.topic, s.objectives), s.questions, s.learnerAnswers))
  }

  /**
   * A pass with an answer pending, in terms of its input: one validation;
   * the score is the grade of the answer against the re-gathered material;
   * below the threshold the answer is cleared and the questions are one
   * fresh generator block, at or above it the questions and answer stay.
   */
  lemma AnsweredPass(b: Backends, s: State)
    requires s.learnerAnswers != ""
    ensures var p := Invoke(b, s);
            var g := b.gather(s.topic, s.objectives);
            && p.state.gatheredContext == g
            && p.state.relevanceScore == Validator.ParseRelevance(b.judge(s.topic, s.objectives, g))
            && p.state.searchRetryCount == s.searchRetryCount + 1
            && p.state.understandingScore == VerificationScore(b, s)
            && p.state.topic == s.topic && p.state.objectives == s.objectives
            && (VerificationScore(b, s) < MasteryThreshold ==>
                  && p.path == [GatherContext, ValidateContext, VerifyUnderstanding, FeynmanTeaching, GenerateQuestions]
                  && p.state.learnerAnswers == ""
                  && p.state.questions == [b.generate(g, s.topic, s.objectives)])
            && (VerificationScore(b, s) >= MasteryThreshold ==>
                  && p.path == [GatherContext, ValidateContext, VerifyUnderstanding]
                  && p.state.learnerAnswers == s.learnerAnswers
                  && p.state.questions == s.questions)
  {
    InvokeIsRun(b, s);
    AnsweredRun(b, s, Budget(Entry, s));
  }

  /**
   * A pass with no answer pending, in terms of its input: material
   * re-gathered, between one and max(1, 3 - c) validations, one fresh
   * generator block as the questions, and the answer and score untouched.
   */
  lemma UnansweredPass(b: Backends, s: State)
    requires s.learnerAnswers == ""
    ensures var p := Invoke(b, s);
            var k := p.state.searchRetryCount - s.searchRetryCount;
            var g := b.gather(s.topic, s.objectives);
            && 1 <= k <= Rounds(s.searchRetryCount)
            && p.path == Cycles(k) + [GenerateQuestions]
            && p.state.gatheredContext == g
            && p.state.questions == [b.generate(g, s.topic, s.objectives)]
            && p.state.learnerAnswers == ""
            && p.state.understandingScore == s.understandingScore
            && p.state.topic == s.topic && p.state.objectives == s.objectives
  {
    InvokeIsRun(b, s);
    UnansweredRun(b, s, Budget(Entry, s));
  }

  /**
   * Every pass is entered at gathering, follows every gathering step with
   * validation, and validates at least once and at most max(1, 3 - c)
   * times (exactly once with an answer pending); the retry count grows by
   * the number of validations, so it grows on every pass.
   */
  lemma PassValidations(b: Backends, s: State)
    ensures var p := Invoke(b, s);
            var k := multiset(p.path)[ValidateContext];
            && p.path[0] == GatherContext
            && (forall i :: 0 <= i < |p.path| && p.path[i] == GatherContext ==> i + 1 < |p.path| && p.path[i + 1] == ValidateContext)
            && 1 <= k <= Rounds(s.searchRetryCount)
            && (s.learnerAnswers != "" ==> k == 1)
            && p.state.searchRetryCount == s.searchRetryCount + k
  {
    InvokeIsRun(b, s);
    RunGatherThenValidate(b, Entry, s, Budget(Entry, s));
    RunCountsValidations(b, Entry, s, Budget(Entry, s));
    if s.learnerAnswers == "" {
      UnansweredPass(b, s);
    } else {
      AnsweredPass(b, s);
    }
  }

  /**
   * After any pass the topic is mastered, or exactly one entry waits for an
   * answer: a pass never ends with an answer pending below the threshold,
   * and never ends without questions below it.
   */
  lemma PassEndsMasteredOrAsking(b: Backends, s: State)
    ensures var t := Invoke(b, s).state;
            t.understandingScore >= MasteryThreshold || (|t.questions| == 1 && t.learnerAnswers == "")
  {
    if s.learnerAnswers == "" {
      UnansweredPass(b, s);
    } else {
      AnsweredPass(b, s);
    }
  }

  /**
   * When a pass re-teaches, the explanation it tags is gone by the end of
   * the pass: the questions are one generator block, which carries the tag
   * only if the generator wrote it.
   */
  lemma RemediationIsOverwritten(b: Backends, s: State)
    requires FeynmanTeaching in Invoke(b, s).path
    ensures var t := Invoke(b, s).state;
            && t.questions == [b.generate(b.gather(s.topic, s.objectives), s.topic, s.objectives)]
            && (Feynman.IsTagged(t.questions[0]) <==> Feynman.IsTagged(b.generate(b.gather(s.topic, s.objectives), s.topic, s.objectives)))
            && t.learnerAnswers == ""
            && t.understandingScore == VerificationScore(b, s) < MasteryThreshold
  {
    if s.learnerAnswers == "" {
      UnansweredPass(b, s);
      CyclesCount(Invoke(b, s).state.searchRetryCount - s.searchRetryCount);
    } else {
      AnsweredPass(b, s);
    }
  }
}
