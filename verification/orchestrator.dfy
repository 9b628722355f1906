/**
 * The checkpoint driver (`LearningAgentOrchestrator.run_checkpoint` and the
 * checkpoint list in main.py): invoke the graph, inspect the state, ask the
 * learner or clear the answer, and invoke again.  The learner's replies
 * are a parameter, numbered in the order they are requested.
 */
module Orchestrator {
  import opened LearningState
  import opened Graph
  import opened PassProperties
  import Verifier

  /** The state a checkpoint starts from. */
  function InitialState(topic: string, objectives: string): (s: State)
    ensures s.topic == topic && s.objectives == objectives
    ensures s.gatheredContext == "" && s.learnerAnswers == "" && s.questions == []
    ensures s.relevanceScore == 0 && s.understandingScore == 0 && s.searchRetryCount == 0
  {
    State(topic, objectives, "", 0, [], "", 0, 0)
  }

  /** What the loop does after a pass. */
  datatype Decision = Mastered | AskLearner | ClearAnswers | Stop

  /** The four-way decision, in the source's order: mastery first. */
  function Decide(s: State): (d: Decision)
    ensures d == Mastered <==> s.understandingScore >= MasteryThreshold
    ensures d == AskLearner <==>
      s.understandingScore < MasteryThreshold && |s.questions| > 0 && s.learnerAnswers == ""
    ensures d == ClearAnswers <==>
      0 < s.understandingScore < MasteryThreshold && !(|s.questions| > 0 && s.learnerAnswers == "")
    ensures d == Stop <==>
      s.understandingScore <= 0 && !(|s.questions| > 0 && s.learnerAnswers == "")
  {
    if s.understandingScore >= MasteryThreshold then Mastered
    else if |s.questions| > 0 && s.learnerAnswers == "" then AskLearner
    else if s.understandingScore > 0 then ClearAnswers
    else Stop
  }

  /** Between passes the loop writes the answer and nothing else. */
  function Resume(s: State, d: Decision, input: string): (t: State)
    requires d == AskLearner || d == ClearAnswers
    ensures t == s.(learnerAnswers := t.learnerAnswers)
    ensures d == AskLearner ==> t.learnerAnswers == input
    ensures d == ClearAnswers ==> t.learnerAnswers == ""
  {
    if d == AskLearner then s.(learnerAnswers := input) else s.(learnerAnswers := "")
  }

  /** Why a checkpoint's loop ended. */
  datatype Halt = Mastery | Halted | OutOfFuel

  /**
   * The final state, why the loop ended, the passes run and the replies used
   * so far, and the state the loop inspected after each of its passes.
   */
  datatype Outcome = Outcome(state: State, halt: Halt, passes: nat, prompts: nat, seen: seq<State>)

  /** After this pass the loop goes on: it asks the learner or clears the answer. */
  predicate GoesOn(s: State) {
    Decide(s) == AskLearner || Decide(s) == ClearAnswers
  }

  /**
   * The checkpoint loop from state `s`, after `passes` passes and with
   * reply number `prompts` next; at most `fuel` more passes.  It ends at the
   * first pass after which the topic is mastered or the loop stops, and at
   * no other: every inspected state but the last goes on, and all of them
   * do when the fuel runs out.
   */
  function Loop(b: Backends, learner: nat -> string, s: State, passes: nat, prompts: nat, fuel: nat): (o: Outcome)
    ensures |o.seen| == o.passes - passes
    ensures o.halt == Mastery ==> Decide(o.state) == Mastered && o.state.understandingScore >= MasteryThreshold
    ensures o.halt == Halted ==> Decide(o.state) == Stop
    ensures o.halt != OutOfFuel ==> 0 < |o.seen| <= fuel && o.seen[|o.seen| - 1] == o.state
    ensures o.halt == OutOfFuel ==> |o.seen| == fuel && forall i :: 0 <= i < |o.seen| ==> GoesOn(o.seen[i])
    ensures forall i :: 0 <= i < |o.seen| - 1 ==> GoesOn(o.seen[i])
    ensures o.prompts >= prompts
    ensures o.state.topic == s.topic && o.state.objectives == s.objectives
    decreases fuel
  {
    if fuel == 0 then Outcome(s, OutOfFuel, passes, prompts, [])
    else
      var t := Invoke(b, s).state;
      PassKeepsIdentity(b, s);
      match Decide(t)
      case Mastered => Outcome(t, Mastery, passes + 1, prompts, [t])
      case AskLearner =>
        var o := Loop(b, learner, Resume(t, AskLearner, learner(prompts)), passes + 1, prompts + 1, fuel - 1);
        o.(seen := [t] + o.seen)
      case ClearAnswers =>
        var o := Loop(b, learner, Resume(t, ClearAnswers, ""), passes + 1, prompts, fuel - 1);
        o.(seen := [t] + o.seen)
      case Stop => Outcome(t, Halted, passes + 1, prompts, [t])
  }

  /** How many replies the loop asks for after the passes that ended in `ss`. */
  function Asks(ss: seq<State>): (n: nat)
    ensures n <= |ss|
  {
    if ss == [] then 0 else (if Decide(ss[0]) == AskLearner then 1 else 0) + Asks(ss[1..])
  }

  /** The state the next pass starts from after a pass ended in `t`, with reply number `k` next. */
  function Next(learner: nat -> string, t: State, k: nat): State
    requires GoesOn(t)
  {
    Resume(t, Decide(t), learner(k))
  }

  /**
   * The recorded states of `o` form a chain: each is the pass run on the
   * previous one with the answer written in between, the replies are taken
   * in order from number `prompts`, and a loop that ran out of passes ends
   * on the resumed last state.
   */
  predicate Chained(b: Backends, learner: nat -> string, prompts: nat, o: Outcome) {
    && o.prompts == prompts + Asks(o.seen)
    && (forall i :: 0 <= i < |o.seen| - 1 ==> Linked(b, learner, prompts, o.seen, i))
    && (o.halt == OutOfFuel && |o.seen| > 0 ==>
          var last := o.seen[|o.seen| - 1];
          GoesOn(last) && o.state == Next(learner, last, prompts + Asks(o.seen[..|o.seen| - 1])))
  }

  /** The state recorded after pass `i + 1` is the pass run on the resumed state recorded after pass `i`. */
  predicate Linked(b: Backends, learner: nat -> string, prompts: nat, seen: seq<State>, i: nat)
    requires i + 1 < |seen|
  {
    GoesOn(seen[i]) && seen[i + 1] == Invoke(b, Next(learner, seen[i], prompts + Asks(seen[..i]))).state
  }

  /**
   * What the loop passes from one pass to the next: every recorded state
   * after the first is the pass run on the previous one with only the
   * answer written, and the replies used are exactly those the loop asked
   * for.  `LoopStarts` gives the first recorded state.
   */
  lemma {:induction false} LoopTrace(b: Backends, learner: nat -> string, s: State, passes: nat, prompts: nat, fuel: nat)
    ensures Chained(b, learner, prompts, Loop(b, learner, s, passes, prompts, fuel))
    decreases fuel
  {
    if fuel > 0 {
      var t := Invoke(b, s).state;
      if GoesOn(t) {
        var k := prompts + (if Decide(t) == AskLearner then 1 else 0);
        LoopTrace(b, learner, Next(learner, t, prompts), passes + 1, k, fuel - 1);
        TraceGoesOn(b, learner, s, passes, prompts, fuel);
      } else {
        assert Asks([t]) == 0;
      }
    }
  }

  /** The chain of the rest of the loop, with the state of one more pass in front. */
  lemma TraceGoesOn(b: Backends, learner: nat -> string, s: State, passes: nat, prompts: nat, fuel: nat)
    requires fuel > 0 && GoesOn(Invoke(b, s).state)
    requires var t := Invoke(b, s).state;
             Chained(b, learner, prompts + (if Decide(t) == AskLearner then 1 else 0),
                     Loop(b, learner, Next(learner, t, prompts), passes + 1,
                          prompts + (if Decide(t) == AskLearner then 1 else 0), fuel - 1))
    ensures Chained(b, learner, prompts, Loop(b, learner, s, passes, prompts, fuel))
  {
    var t := Invoke(b, s).state;
    var k := prompts + (if Decide(t) == AskLearner then 1 else 0);
    var s' := Next(learner, t, prompts);
    LoopStarts(b, learner, s', passes + 1, k, fuel - 1);
    LoopGoesOn(b, learner, s, passes, prompts, fuel);
    var o' := Loop(b, learner, s', passes + 1, k, fuel - 1);
    ChainedCons(b, learner, t, prompts, o', o'.(seen := [t] + o'.seen));
  }

  /**
   * The loop's first recorded state is the pass run on the state it starts
   * from; with no passes left it returns that state untouched.
   */
  lemma LoopStarts(b: Backends, learner: nat -> string, s: State, passes: nat, prompts: nat, fuel: nat)
    ensures var o := Loop(b, learner, s, passes, prompts, fuel);
            && (fuel == 0 ==> o.state == s && o.seen == [])
            && (fuel > 0 ==> |o.seen| > 0 && o.seen[0] == Invoke(b, s).state)
  {
    if fuel > 0 && GoesOn(Invoke(b, s).state) {
      LoopGoesOn(b, learner, s, passes, prompts, fuel);
    }
  }

  /** A pass after which the loop goes on puts its state in front of the rest of the loop. */
  lemma LoopGoesOn(b: Backends, learner: nat -> string, s: State, passes: nat, prompts: nat, fuel: nat)
    requires fuel > 0 && GoesOn(Invoke(b, s).state)
    ensures var t := Invoke(b, s).state;
            var o' := Loop(b, learner, Next(learner, t, prompts), passes + 1,
                           prompts + (if Decide(t) == AskLearner then 1 else 0), fuel - 1);
            Loop(b, learner, s, passes, prompts, fuel) == o'.(seen := [t] + o'.seen)
  {
    var t := Invoke(b, s).state;
    if Decide(t) == ClearAnswers {
      assert Next(learner, t, prompts) == Resume(t, ClearAnswers, "");
    }
  }

  /** Putting the state of one more pass in front of a chain keeps it a chain. */
  lemma ChainedCons(b: Backends, learner: nat -> string, t: State, prompts: nat, o': Outcome, o: Outcome)
    requires GoesOn(t)
    requires Chained(b, learner, prompts + (if Decide(t) == AskLearner then 1 else 0), o')
    requires |o'.seen| > 0 ==> o'.seen[0] == Invoke(b, Next(learner, t, prompts)).state
    requires |o'.seen| == 0 ==> o'.state == Next(learner, t, prompts)
    requires o == o'.(seen := [t] + o'.seen)
    ensures Chained(b, learner, prompts, o)
  {
    var k := prompts + (if Decide(t) == AskLearner then 1 else 0);
    AsksCons(t, o'.seen);
    forall i | 0 <= i < |o.seen| - 1
      ensures Linked(b, learner, prompts, o.seen, i)
    {
      if i == 0 {
        assert o.seen[..0] == [];
      } else {
        LinkedCons(b, learner, t, prompts, o'.seen, i);
      }
    }
    if o.halt == OutOfFuel && |o.seen| > 0 {
      if |o'.seen| == 0 {
        assert o.seen[..0] == [];
      } else {
        assert o.seen[..|o.seen| - 1] == [t] + o'.seen[..|o'.seen| - 1];
        AsksCons(t, o'.seen[..|o'.seen| - 1]);
      }
    }
  }

  /** A link of the shorter chain is the next link of the chain with `t` in front. */
  lemma LinkedCons(b: Backends, learner: nat -> string, t: State, prompts: nat, seen': seq<State>, i: nat)
    requires 0 < i < |seen'|
    requires Linked(b, learner, prompts + (if Decide(t) == AskLearner then 1 else 0), seen', i - 1)
    ensures Linked(b, learner, prompts, [t] + seen', i)
  {
    var seen := [t] + seen';
    assert seen[..i] == [t] + seen'[..i - 1];
    AsksCons(t, seen'[..i - 1]);
    assert seen[i] == seen'[i - 1] && seen[i + 1] == seen'[i];
  }

  lemma AsksCons(t: State, ss: seq<State>)
    ensures Asks([t] + ss) == (if Decide(t) == AskLearner then 1 else 0) + Asks(ss)
  {
    assert ([t] + ss)[1..] == ss;
  }

  /**
   * One checkpoint, from a fresh state, with reply number `start` next: its
   * first pass runs on the fresh state, the topic and objectives stay, and
   * the safety stop is never taken.
   */
  function RunCheckpoint(b: Backends, learner: nat -> string, topic: string, objectives: string, start: nat, fuel: nat): (o: Outcome)
    ensures o.state.topic == topic && o.state.objectives == objectives
    ensures o.halt != Halted
    ensures fuel > 0 ==> |o.seen| > 0 && o.seen[0] == Invoke(b, InitialState(topic, objectives)).state
  {
    var s := InitialState(topic, objectives);
    LoopOnlyMastersOrAsks(b, learner, s, 0, start, fuel);
    LoopStarts(b, learner, s, 0, start, fuel);
    Loop(b, learner, s, 0, start, fuel)
  }

  /**
   * The loop never stops defensively and never clears an answer: every
   * pass ends mastered or asking, so every pass but a mastering one asks
   * for exactly one reply.
   */
  lemma {:induction false} LoopOnlyMastersOrAsks(b: Backends, learner: nat -> string, s: State, passes: nat, prompts: nat, fuel: nat)
    ensures var o := Loop(b, learner, s, passes, prompts, fuel);
            && o.halt != Halted
            && o.prompts - prompts == o.passes - passes - (if o.halt == Mastery then 1 else 0)
    decreases fuel
  {
    if fuel > 0 {
      var t := Invoke(b, s).state;
      PassEndsMasteredOrAsking(b, s);
      if Decide(t) == AskLearner {
        LoopOnlyMastersOrAsks(b, learner, Resume(t, AskLearner, learner(prompts)), passes + 1, prompts + 1, fuel - 1);
      }
    }
  }

  /**
   * A fresh checkpoint's first pass gathers, validates one to three times,
   * generates questions and asks for a reply.
   */
  lemma FirstPassAsks(b: Backends, topic: string, objectives: string)
    ensures var t := Invoke(b, InitialState(topic, objectives)).state;
            && 1 <= t.searchRetryCount <= RetryLimit
            && t.questions == [b.generate(b.gather(topic, objectives), topic, objectives)]
            && t.learnerAnswers == ""
            && t.understandingScore == 0
            && Decide(t) == AskLearner
  {
    UnansweredPass(b, InitialState(topic, objectives));
  }

  /**
   * With a non-empty first reply and a grading model that always reports a passing
   * percentage, a fresh checkpoint is mastered on its second pass.
   */
  lemma MasteredOnSecondPass(b: Backends, learner: nat -> string, topic: string, objectives: string, start: nat, fuel: nat)
    requires fuel >= 2
    requires learner(start) != ""
    requires forall c, q, a :: Verifier.ParsePercentage(b.grade(c, q, a)) >= MasteryThreshold
    ensures var o := RunCheckpoint(b, learner, topic, objectives, start, fuel);
            && o.halt == Mastery
            && o.passes == 2
            && o.prompts == start + 1
            && o.state.learnerAnswers == learner(start)
  {
    var s0 := InitialState(topic, objectives);
    FirstPassAsks(b, topic, objectives);
    var t0 := Invoke(b, s0).state;
    var s1 := Resume(t0, AskLearner, learner(start));
    var o1 := Loop(b, learner, s1, 1, start + 1, fuel - 1);
    assert Loop(b, learner, s0, 0, start, fuel) == o1.(seen := [t0] + o1.seen);
    AnsweredPass(b, s1);
    var t1 := Invoke(b, s1).state;
    assert t1.understandingScore
        == Verifier.ParsePercentage(b.grade(b.gather(s1.topic, s1.objectives), s1.questions, s1.learnerAnswers));
    assert Decide(t1) == Mastered;
  }

  /**
   * A learner who only ever replies with an empty answer is never graded:
   * every pass generates questions again and asks again, until the fuel
   * runs out.
   */
  lemma {:induction false} SilentLearnerIsNeverGraded(b: Backends, learner: nat -> string, s: State, passes: nat, prompts: nat, fuel: nat)
    requires forall k :: learner(k) == ""
    requires s.learnerAnswers == "" && s.understandingScore == 0
    ensures var o := Loop(b, learner, s, passes, prompts, fuel);
            && o.halt == OutOfFuel
            && o.state.understandingScore == 0
            && o.prompts == prompts + fuel
    decreases fuel
  {
    if fuel > 0 {
      UnansweredPass(b, s);
      var t := Invoke(b, s).state;
      assert Decide(t) == AskLearner;
      SilentLearnerIsNeverGraded(b, learner, Resume(t, AskLearner, learner(prompts)), passes + 1, prompts + 1, fuel - 1);
    }
  }

  /** A topic and its objectives: one entry of the checkpoint list. */
  datatype Checkpoint = Checkpoint(topic: string, objectives: string)

  /**
   * The checkpoints in list order.  Each starts from a fresh state; the
   * only thing carried from one to the next is the position in the
   * learner's replies.  A checkpoint whose loop is still running when the
   * fuel runs out holds up every later one, which never starts.
   */
  function RunCheckpoints(b: Backends, learner: nat -> string, catalog: seq<Checkpoint>, start: nat, fuel: nat): (rs: seq<Outcome>)
    ensures |rs| <= |catalog|
    ensures |catalog| > 0 ==> |rs| > 0
    ensures |rs| > 0 ==> rs[0] == RunCheckpoint(b, learner, catalog[0].topic, catalog[0].objectives, start, fuel)
    ensures forall i :: 0 < i < |rs| ==>
      rs[i] == RunCheckpoint(b, learner, catalog[i].topic, catalog[i].objectives, rs[i - 1].prompts, fuel)
    ensures forall i :: 0 <= i < |rs| - 1 ==> rs[i].halt != OutOfFuel
    ensures forall i :: 0 <= i < |rs| ==>
      rs[i].state.topic == catalog[i].topic && rs[i].state.objectives == catalog[i].objectives
    decreases |catalog|
  {
    if catalog == [] then []
    else
      var o := RunCheckpoint(b, learner, catalog[0].topic, catalog[0].objectives, start, fuel);
      if o.halt == OutOfFuel then [o]
      else
        var rest := RunCheckpoints(b, learner, catalog[1..], o.prompts, fuel);
        [o] + rest
  }

  /** The list is cut short only by a checkpoint whose loop is still running. */
  lemma {:induction false} CheckpointsStopOnlyWhenRunning(b: Backends, learner: nat -> string, catalog: seq<Checkpoint>, start: nat, fuel: nat)
    ensures var rs := RunCheckpoints(b, learner, catalog, start, fuel);
            |rs| < |catalog| ==> rs[|rs| - 1].halt == OutOfFuel
    decreases |catalog|
  {
    if catalog != [] {
      var o := RunCheckpoint(b, learner, catalog[0].topic, catalog[0].objectives, start, fuel);
      if o.halt != OutOfFuel {
        var rest := RunCheckpoints(b, learner, catalog[1..], o.prompts, fuel);
        CheckpointsStopOnlyWhenRunning(b, learner, catalog[1..], o.prompts, fuel);
        assert RunCheckpoints(b, learner, catalog, start, fuel) == [o] + rest;
      }
    }
  }

  /**
   * A learner who only ever replies with an empty answer holds the whole
   * list at its first checkpoint.
   */
  lemma SilentLearnerHoldsUpCatalog(b: Backends, learner: nat -> string, catalog: seq<Checkpoint>, start: nat, fuel: nat)
    requires forall k :: learner(k) == ""
    requires |catalog| > 0
    ensures var rs := RunCheckpoints(b, learner, catalog, start, fuel);
            |rs| == 1 && rs[0].halt == OutOfFuel
  {
    SilentLearnerIsNeverGraded(b, learner, InitialState(catalog[0].topic, catalog[0].objectives), 0, start, fuel);
  }

  /**
   * With replies that are never empty and a grading model that always
   * reports a passing percentage, every checkpoint of the list is mastered
   * on its second pass, using one reply each.
   */
  lemma {:induction false} PassingLearnerCompletesCatalog(b: Backends, learner: nat -> string, catalog: seq<Checkpoint>, start: nat, fuel: nat)
    requires fuel >= 2
    requires forall k :: learner(k) != ""
    requires forall c, q, a :: Verifier.ParsePercentage(b.grade(c, q, a)) >= MasteryThreshold
    ensures var rs := RunCheckpoints(b, learner, catalog, start, fuel);
            && |rs| == |catalog|
            && forall i :: 0 <= i < |rs| ==> rs[i].halt == Mastery && rs[i].passes == 2 && rs[i].prompts == start + i + 1
    decreases |catalog|
  {
    if catalog != [] {
      MasteredOnSecondPass(b, learner, catalog[0].topic, catalog[0].objectives, start, fuel);
      PassingLearnerCompletesCatalog(b, learner, catalog[1..], start + 1, fuel);
    }
  }
}
