/**
 * The tutoring graph (src/graph.py): five nodes, one entry point, the
 * fixed edges and the two conditional ones, and one pass over it as the
 * graph runtime executes it: run the node, merge its update, follow the
 * edge chosen on the merged state, until an edge leads to the end.
 */
module Graph {
  import opened Options
  import opened LearningState
  import Collaborators
  import Validator
  import Verifier
  import Feynman
  import QuestionGenerator

  type Backends = Collaborators.Backends

  datatype Node =
    | GatherContext
    | ValidateContext
    | GenerateQuestions
    | VerifyUnderstanding
    | FeynmanTeaching

  datatype Next = Goto(node: Node) | End

  /** Every pass starts here. */
  const Entry: Node := GatherContext

  /** Relevance at or above which gathered content is good enough. */
  const PassingRelevance: int := 4

  /** Validations after which questions are generated whatever the relevance. */
  const RetryLimit: int := 3

  /** Understanding score at or above which a topic is mastered. */
  const MasteryThreshold: int := 70

  /** The routing decision after validation. */
  function DecidePath(s: State): (n: Node)
    ensures n == VerifyUnderstanding <==> s.learnerAnswers != ""
    ensures n == GenerateQuestions <==>
      s.learnerAnswers == "" && (s.relevanceScore >= PassingRelevance || s.searchRetryCount >= RetryLimit)
    ensures n == GatherContext <==>
      s.learnerAnswers == "" && s.relevanceScore < PassingRelevance && s.searchRetryCount < RetryLimit
  {
    if s.learnerAnswers != "" then VerifyUnderstanding
    else if s.relevanceScore >= PassingRelevance || s.searchRetryCount >= RetryLimit then GenerateQuestions
    else GatherContext
  }

  /** The mastery decision after verification. */
  function CheckMastery(s: State): (next: Next)
    ensures next == Goto(FeynmanTeaching) <==> s.understandingScore < MasteryThreshold && s.learnerAnswers != ""
    ensures next != Goto(FeynmanTeaching) <==> next == End
  {
    if s.understandingScore < MasteryThreshold && s.learnerAnswers != "" then Goto(FeynmanTeaching)
    else End
  }

  /** The keys the node registered under each name returns, on every state. */
  function Keys(n: Node): set<Field> {
    match n
    case GatherContext => {GatheredContext}
    case ValidateContext => {RelevanceScore, SearchRetryCount}
    case GenerateQuestions => {Questions}
    case VerifyUnderstanding => {UnderstandingScore}
    case FeynmanTeaching => {Questions, LearnerAnswers, UnderstandingScore}
  }

  /** The partial update the node registered as `n` returns when it runs on `s`. */
  function NodeUpdate(b: Backends, n: Node, s: State): (u: Update)
    ensures Writes(u) == Keys(n)
  {
    match n
    case GatherContext => Collaborators.GatherContext(b, s)
    case ValidateContext => Validator.ValidateContext(b, s)
    case GenerateQuestions => QuestionGenerator.GenerateQuestions(b, s)
    case VerifyUnderstanding => Verifier.VerifyUnderstanding(b, s)
    case FeynmanTeaching => Feynman.FeynmanTeaching(b, s)
  }

  /**
   * The edge leaving `n`, chosen on the state `t` after `n`'s update.
   * Validation is entered only from gathering, gathering is re-entered
   * only from validation, re-teaching only from verification, and the
   * pass ends only after question generation or verification.
   */
  function Edge(n: Node, t: State): (e: Next)
    ensures n == GatherContext ==> e == Goto(ValidateContext)
    ensures n == FeynmanTeaching ==> e == Goto(GenerateQuestions)
    ensures n == GenerateQuestions ==> e == End
    ensures e == Goto(ValidateContext) ==> n == GatherContext
    ensures e == Goto(GatherContext) ==> n == ValidateContext
    ensures e == Goto(FeynmanTeaching) ==> n == VerifyUnderstanding
    ensures e == End ==> n == GenerateQuestions || n == VerifyUnderstanding
  {
    match n
    case GatherContext => Goto(ValidateContext)
    case ValidateContext => Goto(DecidePath(t))
    case VerifyUnderstanding => CheckMastery(t)
    case FeynmanTeaching => Goto(GenerateQuestions)
    case GenerateQuestions => End
  }

  /** The state a pass ends in, and the nodes it ran, in order. */
  datatype Pass = Pass(state: State, path: seq<Node>)

  /**
   * Run the graph from node `n` for at most `fuel` node executions; None
   * when the step limit is reached before an edge leads to the end.
   */
  function Run(b: Backends, n: Node, s: State, fuel: nat): (r: Option<Pass>)
    ensures r.Some? ==> 0 < |r.value.path| <= fuel && r.value.path[0] == n
    ensures r.Some? ==> r.value.path[|r.value.path| - 1] in {GenerateQuestions, VerifyUnderstanding}
    decreases fuel
  {
    if fuel == 0 then None
    else
      var t := Merge(s, NodeUpdate(b, n, s));
      match Edge(n, t)
      case End => Some(Pass(t, [n]))
      case Goto(m) => Then(n, Run(b, m, t, fuel - 1))
  }

  /** A run that executes `n` first and then the run `r`. */
  function Then(n: Node, r: Option<Pass>): (r': Option<Pass>)
    ensures r'.Some? <==> r.Some?
    ensures r.Some? ==> r'.value.state == r.value.state && r'.value.path == [n] + r.value.path
  {
    match r
    case None => None
    case Some(p) => Some(Pass(p.state, [n] + p.path))
  }

  /**
   * Validations a pass makes at most when no answer is pending and the
   * count starts at `c`: the fewest validations, at least one, after which
   * the count has reached the retry limit.
   */
  function Rounds(c: int): (k: nat)
    ensures k >= 1
    ensures c + k >= RetryLimit
    ensures k == 1 || c + k - 1 < RetryLimit
  {
    if c >= RetryLimit - 1 then 1 else RetryLimit - c
  }

  /** Node executions that suffice to finish a pass entered at `n` on `s`. */
  function Budget(n: Node, s: State): nat {
    var afterValidate := if s.learnerAnswers != "" then 4 else 2 * Rounds(s.searchRetryCount);
    match n
    case GenerateQuestions => 1
    case FeynmanTeaching => 2
    case VerifyUnderstanding => 3
    case ValidateContext => afterValidate
    case GatherContext => 1 + afterValidate
  }

  /**
   * A pass always ends within its budget: the validator raises the retry
   * count on every round, so routing leaves the gather/validate cycle once
   * the count reaches the limit.
   */
  lemma {:induction false} RunCompletes(b: Backends, n: Node, s: State, fuel: nat)
    requires fuel >= Budget(n, s)
    ensures Run(b, n, s, fuel).Some?
    decreases fuel
  {
    var t := Merge(s, NodeUpdate(b, n, s));
    match n
    case GenerateQuestions =>
    case GatherContext =>
      assert t.learnerAnswers == s.learnerAnswers;
      RunCompletes(b, ValidateContext, t, fuel - 1);
    case ValidateContext =>
      assert t.learnerAnswers == s.learnerAnswers;
      assert t.searchRetryCount == s.searchRetryCount + 1;
      RunCompletes(b, DecidePath(t), t, fuel - 1);
    case VerifyUnderstanding =>
      if CheckMastery(t) == Goto(FeynmanTeaching) {
        RunCompletes(b, FeynmanTeaching, t, fuel - 1);
      }
    case FeynmanTeaching =>
      RunCompletes(b, GenerateQuestions, t, fuel - 1);
  }

  /** Extra fuel changes nothing once a run has ended. */
  lemma {:induction false} RunFuelIrrelevant(b: Backends, n: Node, s: State, fuel: nat, more: nat)
    requires Run(b, n, s, fuel).Some?
    requires fuel <= more
    ensures Run(b, n, s, more) == Run(b, n, s, fuel)
    decreases fuel
  {
    var t := Merge(s, NodeUpdate(b, n, s));
    if Edge(n, t).Goto? {
      RunFuelIrrelevant(b, Edge(n, t).node, t, fuel - 1, more - 1);
    }
  }

  /** One invocation of the compiled graph on `s`. */
  function Invoke(b: Backends, s: State): (p: Pass)
    ensures 0 < |p.path| <= Budget(GatherContext, s) && p.path[0] == GatherContext
    ensures forall fuel: nat :: fuel >= Budget(GatherContext, s) ==> Run(b, Entry, s, fuel) == Some(p)
  {
    RunCompletes(b, Entry, s, Budget(Entry, s));
    forall fuel: nat | fuel >= Budget(GatherContext, s)
      ensures Run(b, Entry, s, fuel) == Run(b, Entry, s, Budget(Entry, s))
    {
      RunFuelIrrelevant(b, Entry, s, Budget(Entry, s), fuel);
    }
    Run(b, Entry, s, Budget(Entry, s)).value
  }
}
