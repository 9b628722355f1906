# Autonomous learning agent: the tutoring loop, in Dafny

This project models the control logic of the autonomous learning agent, a
tutor that takes a list of checkpoints (a topic and its learning
objectives), gathers study material for each, quizzes the learner, grades
the reply and re-teaches with the Feynman technique until the learner
reaches 70%.

What is modelled:

- **The learning state** (`LearningState`, `state.dfy`): the eight-key
  record every node reads, the partial update a node returns, and the
  key-wise overwrite merge the graph runtime applies to a `TypedDict` state.
- **The score readers** (`marker_search.dfy`, `validator.dfy`,
  `verifier.dfy`): the search for a marker, optional whitespace and a
  digit, leftmost first, as Python's `re.search` does it; the validator's
  one-digit relevance score (default 1) and the verifier's uncapped
  percentage (default 0, also for a digit run longer than the 4300 digits
  `int()` converts).
- **The nodes** (`collaborators.dfy`, `validator.dfy`, `verifier.dfy`,
  `feynman.dfy`, `question_generator.dfy`): what each writes and what it
  keeps. The web search, retrieval and language-model calls are the
  uninterpreted functions of a `Backends` record.
- **The graph** (`graph.dfy`, `pass_properties.dfy`): the entry point, the
  fixed edges, the two routing decisions, and one invocation as a run of
  node steps. The run is bounded by a step count, and a budget is proved
  to always suffice. The properties of a whole pass are proved for every
  input state.
- **The checkpoint driver** (`orchestrator.dfy`): the loop of
  `run_checkpoint` with its four-way decision after each pass, and the
  checkpoints run in list order. The learner's replies are a function from
  reply number to text.

Two facts about the code come out of the proofs:

- Every pass ends with the topic mastered, or with exactly one question
  entry and no answer pending (`PassProperties.PassEndsMasteredOrAsking`).
  So the driver's answer-clearing branch (main.py:58-61) and its safety
  stop (main.py:63-65) are never taken after a pass
  (`Orchestrator.LoopOnlyMastersOrAsks`). The comments at main.py:55-60
  present that clearing branch as the path remediation takes. In the
  code, the Feynman node clears the answer itself and question generation
  follows it in the same pass, so the driver simply asks again. The model
  follows the code.
- The Feynman node's tagged explanation never survives a pass: question
  generation follows it and overwrites the questions
  (`PassProperties.RemediationIsOverwritten`). The driver therefore never
  sees the Feynman node's entry; it sees a tagged entry only when the
  question generator's own block starts with the tag.

## Model

| member | source | states |
|---|---|---|
| LearningState.Writes | src/state.py:3-11 | an update writes no key exactly when every one of its eight entries is absent |
| LearningState.Merge | src/graph.py:10 | merging a node's return value overwrites each key it returns with the returned value and keeps every other key |
| LearningState.MergeUnique | src/graph.py:10 | the overwrite merge is the only state that holds the returned keys and agrees elsewhere with the old state |
| MarkerSearch.SkipSpaces | src/nodes/validator.py:25 | the greedy `\s*` stops at the first non-whitespace character, and everything it skips is whitespace |
| MarkerSearch.SkipDigits | src/nodes/verifier.py:35 | the greedy `\d+` run consists of digits only and ends at a non-digit or the end of the text |
| MarkerSearch.MatchesAtIsPattern | src/nodes/validator.py:25 | the match test at a position holds exactly when marker, whitespace and a digit occur there, and the captured digit is the only one the pattern can capture there |
| MarkerSearch.LeftmostMatch | src/nodes/validator.py:25 | the search returns a matching position with no match before it, or nothing when no position matches |
| MarkerSearch.DigitValue | src/nodes/validator.py:26 | a digit character converts to a value below 10 and back to the same character |
| MarkerSearch.DecimalValue | src/nodes/verifier.py:36 | a run of n digits converts to a value below 10^n |
| MarkerSearch.DecimalLength | src/nodes/verifier.py:36 | a number is written with at most k digits exactly when it is below 10^k, so the runs `int()` converts are exactly the renderings of numbers below 10^4300 |
| MarkerSearch.NatToDecimal | src/nodes/verifier.py:29 | every number has a non-empty digit rendering without leading zeros that converts back to it |
| MarkerSearch.MatchStaysInPrefix | src/nodes/validator.py:25 | a match that starts in text followed by the marker is already a match of that text alone |
| MarkerSearch.FindsMarkerAfter | src/nodes/validator.py:25 | with no match in the text before it, the marker followed by whitespace and a digit is the leftmost match, and its capture starts after the whitespace |
| MarkerSearch.DigitRunIs | src/nodes/verifier.py:35 | a digit run followed by a non-digit or the end is exactly what the greedy run captures |
| Validator.ParseRelevance | src/nodes/validator.py:24-28 | the relevance score is one digit, so it lies in 0..9, and reading it never fails |
| Validator.RelevanceDefaultsWithoutMarker | src/nodes/validator.py:26 | a judgement with no match anywhere scores 1 |
| Validator.RelevanceReadsFirstMarker | src/nodes/validator.py:25-26 | the score is the digit after the first marker whatever precedes that marker without matching, whatever whitespace follows it and whatever follows the digit |
| Validator.TwoDigitScoreReadsFirstDigit | src/nodes/validator.py:25 | "FINAL_SCORE: 10" scores 1, because only one digit is captured |
| Validator.ValidateContext | src/nodes/validator.py:5-31 | validation writes only the relevance score, a value in 0..9, and the retry count, which becomes the old one plus 1 |
| Validator.ValidateTwice | src/nodes/validator.py:9-31 | validating the same context twice gives the same relevance both times, while the retry count grows by 1 on each call |
| Verifier.ParsePercentage | src/nodes/verifier.py:34-38 | the percentage is never negative, and reading it never fails: a run too long for `int()` falls to the `except` branch's 0 |
| Verifier.PercentageDefaultsWithoutMarker | src/nodes/verifier.py:36 | a grading report with no match anywhere scores 0 |
| Verifier.PercentageReadsFirstMarker | src/nodes/verifier.py:34-38 | the score is the value of the whole digit run after the first marker, whatever precedes the marker without matching and whatever non-digit text follows the run, when the run has at most 4300 digits; a longer run makes `int()` raise and scores 0 |
| Verifier.PercentageRoundTrip | src/nodes/verifier.py:29-38 | a report in the requested format `FINAL_PERCENTAGE: n` reads back as n when n has at most 4300 digits, and as 0 when it has more |
| Verifier.PercentageIsNotCapped | src/nodes/verifier.py:35-36 | "FINAL_PERCENTAGE: 250" scores 250, because nothing caps the value at 100 |
| Verifier.VerifyUnderstanding | src/nodes/verifier.py:40 | verification writes only the understanding score, a non-negative value |
| Collaborators.GatherContext | src/nodes/gatherer.py:7-67 | gathering writes only the study material, which depends on the topic and the objectives alone |
| Feynman.Tagged | src/nodes/feynman.py:52 | the tagged entry is the Feynman tag followed by the explanation, and the text after the tag is the explanation |
| Feynman.Untagged | src/nodes/feynman.py:52 | removing the prefix from a tagged entry gives the text that tags back to that entry |
| Feynman.TagRoundTrip | src/nodes/feynman.py:52 | removing the prefix from a tagged explanation gives back the explanation |
| Feynman.TaggedInjective | src/nodes/feynman.py:52 | two different explanations never give the same tagged entry |
| Feynman.FeynmanTeaching | src/nodes/feynman.py:51-55 | re-teaching writes exactly the questions, the answer and the score: one tagged entry, an empty answer, and the score it found |
| Feynman.FeynmanEffect | src/nodes/feynman.py:51-55 | after re-teaching, the questions are one entry whose text without the tag is the explanation, the answer is empty, and every other key, the score included, is unchanged |
| QuestionGenerator.GenerateQuestions | src/nodes/question_generator.py:36-38 | question generation writes only the questions, as a list of exactly one entry |
| QuestionGenerator.GenerateEffect | src/nodes/question_generator.py:38 | after generation the questions are exactly the generator's block, tagged only when the block itself starts with the tag, and every other key is unchanged |
| QuestionGenerator.GenerateOverwritesExplanation | src/graph.py:41 | re-teaching followed by generation leaves only the generator's block as the questions, an empty answer and the original score |
| Graph.DecidePath | src/graph.py:22-27 | a pending answer always leads to verification; otherwise a passing relevance of 4 or more or a retry count of 3 or more leads to question generation, and everything else to gathering again |
| Graph.CheckMastery | src/graph.py:32-37 | verification leads to re-teaching exactly when the score is below 70 and an answer is pending, and otherwise ends the pass |
| Graph.NodeUpdate | src/graph.py:13-17 | the node registered under each name returns exactly its own keys, on every state: gathering the material; validation the relevance and the retry count; generation the questions; verification the score; re-teaching the questions, the answer and the score |
| Graph.Edge | src/graph.py:19-44 | gathering always goes to validation and only gathering does; re-teaching always goes to question generation; question generation always ends the pass; a pass ends only after generation or verification |
| Graph.Rounds | src/graph.py:25 | the most validations a pass with no pending answer makes from retry count c is the fewest, at least one, after which the count reaches the limit of 3 |
| Graph.Run | src/graph.py:9-46 | a finished run executes at least one node and no more than its step limit, starts at its entry node, and ends at question generation or verification |
| Graph.RunCompletes | src/graph.py:22-27 | every pass finishes within its step budget, because each validation raises the retry count and routing leaves the gather/validate cycle at 3 |
| Graph.RunFuelIrrelevant | main.py:34 | once a run has finished, a larger step limit gives the same result |
| Graph.Invoke | main.py:34 | an invocation starts at gathering, stays within the step budget, and is the result of every run with at least that budget |
| PassProperties.RunGatherThenValidate | src/graph.py:19-20 | in every run, each gathering step is immediately followed by a validation step |
| PassProperties.RunCountsValidations | src/nodes/validator.py:9 | a run never changes the topic or objectives, and it raises the retry count by exactly the number of validations it made |
| PassProperties.UnansweredRun | src/graph.py:22-27 | with no answer pending, a run gathers and validates k times, with 1 <= k <= max(1, 3 - c), then generates questions and stops, never verifying or re-teaching |
| PassProperties.AnsweredRun | src/graph.py:22-44 | with an answer pending, a run gathers, validates and verifies once; below 70 it re-teaches and regenerates, otherwise it ends |
| PassProperties.VerifiedRun | src/graph.py:32-44 | from verification with an answer pending, a score of 70 or more ends the pass at once, and a lower one leads to re-teaching and then question generation, which ends it |
| PassProperties.PassKeepsIdentity | main.py:34 | a pass never changes the topic or the objectives |
| PassProperties.AnsweredPass | src/graph.py:19-44 | a pass with an answer re-gathers, validates once, grades the answer against the new material, and below 70 clears the answer and leaves one fresh generator block; at 70 or above the questions and the answer stay |
| PassProperties.UnansweredPass | src/graph.py:19-27 | a pass without an answer re-gathers, validates between 1 and max(1, 3 - c) times, and leaves one fresh generator block, the answer empty and the score unchanged |
| PassProperties.PassValidations | src/graph.py:19-27 | every pass starts at gathering, follows each gathering with validation, validates between 1 and max(1, 3 - c) times (once when an answer is pending), and raises the retry count by that number |
| PassProperties.PassEndsMasteredOrAsking | main.py:38-65 | after any pass the score is at least 70, or there is exactly one question entry and no answer |
| PassProperties.RemediationIsOverwritten | src/graph.py:34-44 | a pass that re-teaches ends with the generator's block as the only entry, untagged unless the generator wrote the tag, an empty answer and the verification score below 70 |
| Orchestrator.InitialState | main.py:20-29 | a checkpoint starts with its topic and objectives, empty texts, no questions and zero numbers |
| Orchestrator.Decide | main.py:38-65 | after a pass the driver stops with mastery at 70 or above; otherwise it asks when there are questions and no answer, clears the answer when the score is positive, and stops in every other case |
| Orchestrator.Resume | main.py:44-61 | between passes the driver writes the answer, the learner's reply or the empty text, and nothing else |
| Orchestrator.Loop | main.py:31-65 | the loop ends at the first pass that scores 70 or more (mastery) or whose decision is to stop, and at no other: every state it inspected but the last asks or clears the answer, and all of them do when the pass limit runs out; the topic and objectives never change |
| Orchestrator.LoopStarts | main.py:31-34 | the first state the loop inspects is the graph invoked on the state the loop starts from |
| Orchestrator.LoopTrace | main.py:31-61 | every later inspected state is the graph invoked on the previous one with only the answer written: the learner's next reply after a prompt, the empty text after a clear; the replies used are exactly those asked for, and a loop still running holds the resumed last state |
| Orchestrator.LoopOnlyMastersOrAsks | main.py:58-65 | the loop never takes its safety stop, and every pass except a mastering one consumes exactly one reply |
| Orchestrator.FirstPassAsks | main.py:31-53 | the first pass of a fresh checkpoint validates 1 to 3 times, ends with one generator block and no score, and leads to a prompt |
| Orchestrator.MasteredOnSecondPass | main.py:31-40 | with a non-empty first reply and a grading model that always reports 70 or more, a checkpoint is mastered on its second pass after one reply |
| Orchestrator.SilentLearnerIsNeverGraded | main.py:44-53 | a learner who always replies with an empty text is asked again on every pass and never graded, so the loop runs until its pass limit |
| Orchestrator.RunCheckpoint | main.py:12-67 | a checkpoint starts its first pass on the fresh state, keeps its topic and objectives, and never ends on the safety stop |
| Orchestrator.RunCheckpoints | main.py:83-84 | the checkpoints run in list order, each from a fresh state for its own topic and objectives, continuing with the learner's next reply; a checkpoint starts only after every earlier one has ended |
| Orchestrator.CheckpointsStopOnlyWhenRunning | main.py:83-84 | later checkpoints are left unstarted only behind a checkpoint whose loop is still running |
| Orchestrator.SilentLearnerHoldsUpCatalog | main.py:83-84 | a learner who only replies with the empty text never gets past the first checkpoint |
| Orchestrator.PassingLearnerCompletesCatalog | main.py:83-84 | with replies that are never empty and passing grades, every checkpoint is mastered on its second pass with one reply each |

## Left out

- The gatherer's web search, vector-store retrieval, truncation and
  formatting (src/nodes/gatherer.py), with their error fallbacks, are
  folded into the opaque `gather(topic, objectives)`, one fixed function
  of topic and objectives. The source searches the web again on every
  pass (src/nodes/gatherer.py:14-17), so its material can differ between
  passes of one checkpoint; no property here depends on it being the
  same. src/rag.py,
  src/utils.py, test_api.py and the Streamlit front end app_simple.py are
  not part of this model.
- The language model is a set of deterministic functions of the values
  each prompt interpolates. A real model may answer the same prompt
  differently, and its reply is assumed to be text.
- A failing model call in the validation, verification, re-teaching or
  question-generation node raises out of the node and out of the graph,
  because those `invoke` calls sit outside the `try` blocks. The
  gatherer's formatting call sits inside one and falls back to the
  unformatted material (src/nodes/gatherer.py:62-67); that fallback is
  folded into `gather`. The model's backends always answer, so the
  raising path is not modelled.
- The validator's `except` branch is unreachable for text replies: a
  match always has its group, and one ASCII digit always converts. The
  verifier's `except` branch is reached only when `int()` refuses a run
  of more than 4300 digits, and the model scores that run 0.
- The 4300-digit limit (`Verifier.IntMaxStrDigits`) is CPython's default.
  An interpreter started with another limit (`PYTHONINTMAXSTRDIGITS`,
  `sys.set_int_max_str_digits`) or one without the limit reads other
  runs; the model fixes the default.
- Python's Unicode `\d` and `\s` are modelled as ASCII only: digits
  '0'..'9', and the whitespace code points 9-13 and 28-32.
- The `.get(key, 0)` defaults are not modelled, because the driver
  always supplies all eight keys.
- Console output, the prompt texts and `input()` are left out. The
  learner's replies are a parameter.
- LangGraph itself is replaced by its merge and edge semantics. Its
  recursion limit of 25 steps is not modelled. From any state the driver
  builds, a pass takes at most 7 steps; only a negative retry count,
  which the driver never builds, could lengthen the gather/validate cycle.
- Orchestrator.Loop: its own contract states the order of decisions. How
  each inspected state follows from the previous one is stated by
  Orchestrator.LoopStarts and Orchestrator.LoopTrace.
- Orchestrator.Loop: the source loop has no bound on its passes. The model
  takes a pass limit `fuel`, and the extra outcome `OutOfFuel` stands for
  a loop that is still running. A learner who keeps failing or keeps
  replying with nothing keeps the source loop running for ever.
- Validator.ParseRelevance: its contract states only the range. The value
  for every reply is stated by Validator.RelevanceReadsFirstMarker and
  Validator.RelevanceDefaultsWithoutMarker.
- Verifier.ParsePercentage: its contract states only that the value is
  non-negative. The value for every reply is stated by
  Verifier.PercentageReadsFirstMarker and
  Verifier.PercentageDefaultsWithoutMarker.
