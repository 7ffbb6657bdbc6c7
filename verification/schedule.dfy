/** How a run of the graph is scheduled, for any node functions with the
    executor's shape: the executor records one past step for the head of the
    plan and consumes that step only when it is runnable. Which steps are
    runnable and what evidence each gets are parameters here; `Loop` and
    `Corrected` supply them. */
module Schedule {

  import opened Wrappers
  import opened State
  import opened Graph

  /** The executor's update on a non-empty plan: record the head step with
      its evidence, and drop it from the plan when it is runnable. */
  function ExecutorUpdate(s: RunState, runnable: string -> bool, evidence: string -> string): RunState
    requires s.plan != []
  {
    var entry := PastStep(s.plan[0], evidence(s.plan[0]));
    if runnable(s.plan[0]) then s.(plan := s.plan[1..], pastSteps := s.pastSteps + [entry])
    else s.(pastSteps := s.pastSteps + [entry])
  }

  /** `f` is an executor that on every non-empty plan performs
      `ExecutorUpdate`. */
  ghost predicate IsExecutor(f: RunState -> Option<RunState>, runnable: string -> bool, evidence: string -> string) {
    forall s: RunState :: s.plan != [] ==> f(s) == Some(ExecutorUpdate(s, runnable, evidence))
  }

  /** `f` never changes the message list. */
  ghost predicate KeepsMessages(f: RunState -> Option<RunState>) {
    forall s: RunState :: f(s).Some? ==> f(s).value.messages == s.messages
  }

  /** Every step of the plan is runnable. */
  predicate AllRunnable(runnable: string -> bool, plan: seq<string>) {
    forall k :: 0 <= k < |plan| ==> runnable(plan[k])
  }

  /** The state after the executor has consumed every step of the plan:
      the plan is empty, the messages are untouched, and one past step per
      plan step has been recorded (`ExecuteAllRecords` says which). */
  function ExecuteAll(s: RunState, evidence: string -> string): (r: RunState)
    ensures r.plan == [] && r.messages == s.messages
    ensures |r.pastSteps| == |s.pastSteps| + |s.plan|
    decreases |s.plan|
  {
    if s.plan == [] then s
    else ExecuteAll(s.(plan := s.plan[1..], pastSteps := s.pastSteps + [PastStep(s.plan[0], evidence(s.plan[0]))]), evidence)
  }

  /** `ExecuteAll` keeps the past steps already there and records after them
      each plan step with its evidence, in plan order. */
  lemma {:induction false} ExecuteAllRecords(s: RunState, evidence: string -> string)
    ensures ExecuteAll(s, evidence).pastSteps[..|s.pastSteps|] == s.pastSteps
    ensures forall k :: 0 <= k < |s.plan| ==>
              ExecuteAll(s, evidence).pastSteps[|s.pastSteps| + k] == PastStep(s.plan[k], evidence(s.plan[k]))
    decreases |s.plan|
  {
    if s.plan != [] {
      var s' := s.(plan := s.plan[1..], pastSteps := s.pastSteps + [PastStep(s.plan[0], evidence(s.plan[0]))]);
      var r := ExecuteAll(s', evidence);
      ExecuteAllRecords(s', evidence);
      assert r.pastSteps[..|s.pastSteps|] == r.pastSteps[..|s'.pastSteps|][..|s.pastSteps|];
      forall k | 0 <= k < |s.plan|
        ensures r.pastSteps[|s.pastSteps| + k] == PastStep(s.plan[k], evidence(s.plan[k]))
      {
        if k == 0 {
          assert r.pastSteps[|s.pastSteps|] == r.pastSteps[..|s'.pastSteps|][|s.pastSteps|];
        } else {
          assert s.plan[k] == s'.plan[k - 1];
          assert r.pastSteps[|s.pastSteps| + k] == r.pastSteps[|s'.pastSteps| + (k - 1)];
        }
      }
    }
  }

  /** The step texts `ExecuteAll` records are the plan's, after the ones
      already recorded. */
  lemma ExecuteAllSteps(s: RunState, evidence: string -> string)
    ensures StepsOf(ExecuteAll(s, evidence).pastSteps) == StepsOf(s.pastSteps) + s.plan
  {
    var r := ExecuteAll(s, evidence);
    var n := |s.pastSteps|;
    var b := StepsOf(s.pastSteps) + s.plan;
    ExecuteAllRecords(s, evidence);
    forall k | 0 <= k < |r.pastSteps|
      ensures r.pastSteps[k].step == b[k]
    {
      if k < n {
        assert r.pastSteps[k] == r.pastSteps[..n][k] == s.pastSteps[k];
      } else {
        assert r.pastSteps[n + (k - n)] == PastStep(s.plan[k - n], evidence(s.plan[k - n]));
      }
    }
    StepsOfIs(r.pastSteps, b);
  }

  /** From no past steps, `ExecuteAll` records exactly the plan's steps with
      their evidence. */
  lemma ExecuteAllFresh(s: RunState, evidence: string -> string)
    requires s.pastSteps == []
    ensures |ExecuteAll(s, evidence).pastSteps| == |s.plan|
    ensures forall k :: 0 <= k < |s.plan| ==> ExecuteAll(s, evidence).pastSteps[k] == PastStep(s.plan[k], evidence(s.plan[k]))
  {
    var r := ExecuteAll(s, evidence);
    ExecuteAllRecords(s, evidence);
    forall k | 0 <= k < |s.plan|
      ensures r.pastSteps[k] == PastStep(s.plan[k], evidence(s.plan[k]))
    {
      assert r.pastSteps[|s.pastSteps| + k] == PastStep(s.plan[k], evidence(s.plan[k]));
    }
  }

  /** `n` copies of `x`. */
  function Repeat<T>(x: T, n: nat): (r: seq<T>)
    ensures |r| == n
    ensures forall k :: 0 <= k < n ==> r[k] == x
  {
    if n == 0 then [] else [x] + Repeat(x, n - 1)
  }

  /** One more copy in front of the rest of the copies. */
  lemma RepeatAfter<T>(xs: seq<T>, x: T, n: nat)
    requires n > 0
    ensures xs + [x] + Repeat(x, n - 1) == xs + Repeat(x, n)
  {
    assert Repeat(x, n) == [x] + Repeat(x, n - 1);
  }

  /** The planner runs and hands over to the executor. */
  lemma RunPlannerOnce(g: Nodes, s: RunState, fuel: nat)
    requires g.planner(s).Some? && fuel > 0
    ensures Run(g, Planner, s, fuel) == Run(g, Executor, g.planner(s).value, fuel - 1)
  {
    assert Step(g, Planner, s) == g.planner(s);
  }

  /** A node that raises crashes the run. */
  lemma RunRaises(g: Nodes, n: Node, s: RunState, fuel: nat)
    requires n != End && Step(g, n, s) == None && fuel > 0
    ensures Run(g, n, s, fuel) == Crash(n, s)
  {
  }

  /** The synthesizer runs and the graph ends. */
  lemma RunSynthesizerOnce(g: Nodes, s: RunState, fuel: nat)
    requires g.synthesizer(s).Some? && fuel > 0
    ensures Run(g, Synthesizer, s, fuel) == Done(g.synthesizer(s).value)
  {
    assert Step(g, Synthesizer, s) == g.synthesizer(s);
  }

  /** One executor run on a non-empty plan, then the conditional edge. */
  lemma RunExecutorOnce(g: Nodes, runnable: string -> bool, evidence: string -> string, s: RunState, fuel: nat)
    requires IsExecutor(g.executor, runnable, evidence)
    requires s.plan != [] && fuel > 0
    ensures Run(g, Executor, s, fuel)
              == Run(g, ShouldContinue(ExecutorUpdate(s, runnable, evidence)), ExecutorUpdate(s, runnable, evidence), fuel - 1)
  {
    assert Step(g, Executor, s) == Some(ExecutorUpdate(s, runnable, evidence));
  }

  /** The first step of `ExecuteAll`. */
  lemma ExecuteAllHead(s: RunState, evidence: string -> string)
    requires s.plan != []
    ensures ExecuteAll(s, evidence)
              == ExecuteAll(s.(plan := s.plan[1..], pastSteps := s.pastSteps + [PastStep(s.plan[0], evidence(s.plan[0]))]), evidence)
  {
  }

  /** A runnable head step leaves the plan with its evidence recorded, and
      the rest of a runnable plan is runnable. */
  lemma RunnableHead(s: RunState, runnable: string -> bool, evidence: string -> string)
    requires s.plan != [] && AllRunnable(runnable, s.plan)
    ensures ExecutorUpdate(s, runnable, evidence)
              == s.(plan := s.plan[1..], pastSteps := s.pastSteps + [PastStep(s.plan[0], evidence(s.plan[0]))])
    ensures AllRunnable(runnable, s.plan[1..])
  {
    assert runnable(s.plan[0]);
  }

  /** Running the first `n` steps is running the head step, then the
      next `n - 1`. */
  lemma ExecuteAllPrefixShift(s: RunState, evidence: string -> string, n: nat)
    requires 0 < n < |s.plan|
    ensures var s1 := s.(plan := s.plan[1..], pastSteps := s.pastSteps + [PastStep(s.plan[0], evidence(s.plan[0]))]);
            ExecuteAll(s.(plan := s.plan[..n]), evidence).(plan := s.plan[n..])
              == ExecuteAll(s1.(plan := s1.plan[..n - 1]), evidence).(plan := s1.plan[n - 1..])
  {
    var s1 := s.(plan := s.plan[1..], pastSteps := s.pastSteps + [PastStep(s.plan[0], evidence(s.plan[0]))]);
    var p := s.(plan := s.plan[..n]);
    assert p.plan[1..] == s1.plan[..n - 1];
    ExecuteAllHead(p, evidence);
    assert s1.plan[n - 1..] == s.plan[n..];
  }

  /** With a runnable plan of n steps, after fewer than n node executions
      the run is still in the executor: the steps run so far are recorded and
      the rest of the plan is left. */
  lemma {:induction false} ExecutorPartway(g: Nodes, runnable: string -> bool, evidence: string -> string,
                                           s: RunState, fuel: nat)
    requires IsExecutor(g.executor, runnable, evidence)
    requires AllRunnable(runnable, s.plan) && fuel < |s.plan|
    ensures Run(g, Executor, s, fuel)
              == Exhausted(Executor, ExecuteAll(s.(plan := s.plan[..fuel]), evidence).(plan := s.plan[fuel..]))
    decreases fuel
  {
    if fuel == 0 {
      assert s.plan[0..] == s.plan;
    } else {
      var s1 := ExecutorUpdate(s, runnable, evidence);
      RunnableHead(s, runnable, evidence);
      RunExecutorOnce(g, runnable, evidence, s, fuel);
      ExecutorPartway(g, runnable, evidence, s1, fuel - 1);
      ExecuteAllPrefixShift(s, evidence, fuel);
    }
  }

  /** With a runnable plan of n steps and at least n node executions, the
      executor runs exactly n times and hands `ExecuteAll`'s state to the
      synthesizer. */
  lemma {:induction false} ExecutorDrains(g: Nodes, runnable: string -> bool, evidence: string -> string,
                                          s: RunState, fuel: nat)
    requires IsExecutor(g.executor, runnable, evidence)
    requires s.plan != [] && AllRunnable(runnable, s.plan) && fuel >= |s.plan|
    ensures Run(g, Executor, s, fuel) == Run(g, Synthesizer, ExecuteAll(s, evidence), fuel - |s.plan|)
    decreases |s.plan|
  {
    var s1 := ExecutorUpdate(s, runnable, evidence);
    assert s1 == s.(plan := s.plan[1..], pastSteps := s.pastSteps + [PastStep(s.plan[0], evidence(s.plan[0]))]);
    ExecuteAllHead(s, evidence);
    RunExecutorOnce(g, runnable, evidence, s, fuel);
    if s1.plan != [] {
      assert AllRunnable(runnable, s1.plan);
      ExecutorDrains(g, runnable, evidence, s1, fuel - 1);
    }
  }

  /** A head step that is not runnable stays at the head: whatever the step
      budget, the run is still in the executor with the same plan, and each
      executor run has recorded the same past step once more. */
  lemma {:induction false} StuckHead(g: Nodes, runnable: string -> bool, evidence: string -> string,
                                     s: RunState, fuel: nat)
    requires IsExecutor(g.executor, runnable, evidence)
    requires s.plan != [] && !runnable(s.plan[0])
    ensures Run(g, Executor, s, fuel)
              == Exhausted(Executor, s.(pastSteps := s.pastSteps + Repeat(PastStep(s.plan[0], evidence(s.plan[0])), fuel)))
    decreases fuel
  {
    var entry := PastStep(s.plan[0], evidence(s.plan[0]));
    if fuel == 0 {
      assert s.pastSteps + Repeat(entry, 0) == s.pastSteps;
    } else {
      var s1 := s.(pastSteps := s.pastSteps + [entry]);
      assert ExecutorUpdate(s, runnable, evidence) == s1;
      RunExecutorOnce(g, runnable, evidence, s, fuel);
      assert ShouldContinue(s1) == Executor;
      StuckHead(g, runnable, evidence, s1, fuel - 1);
      RepeatAfter(s.pastSteps, entry, fuel);
      assert s1.(pastSteps := s1.pastSteps + Repeat(entry, fuel - 1)) == s.(pastSteps := s.pastSteps + Repeat(entry, fuel));
    }
  }

  /** When the planner and the executor leave the messages alone, a run that
      ends does so by the synthesizer on a state with an empty plan and the
      original messages, and a run that crashes or runs out of budget stops
      with the original messages. */
  lemma {:induction false} RunKeepsMessages(g: Nodes, n: Node, s: RunState, fuel: nat)
    requires KeepsMessages(g.planner) && KeepsMessages(g.executor)
    requires n != End && (n == Synthesizer ==> s.plan == [])
    ensures Run(g, n, s, fuel).Done? ==>
              exists t: RunState :: t.plan == [] && t.messages == s.messages && g.synthesizer(t) == Some(Run(g, n, s, fuel).final)
    ensures !Run(g, n, s, fuel).Done? ==> Run(g, n, s, fuel).state.messages == s.messages
    ensures !Run(g, n, s, fuel).Done? && Run(g, n, s, fuel).node == Synthesizer ==> Run(g, n, s, fuel).state.plan == []
    decreases fuel
  {
    if fuel > 0 && Step(g, n, s).Some? {
      var s' := Step(g, n, s).value;
      var m := Successor(n, s');
      if m == End {
        assert g.synthesizer(s) == Some(s');
      } else {
        assert s'.messages == s.messages;
        RunKeepsMessages(g, m, s', fuel - 1);
      }
    }
  }

  /** A synthesizer node: on a state with a message it appends one AI
      message whose text depends only on the first message's content and
      the past steps. */
  ghost predicate IsSynthesizer(f: RunState -> Option<RunState>, answer: (string, seq<PastStep>) -> string) {
    forall s: RunState :: |s.messages| > 0 ==>
      f(s) == Some(s.(messages := s.messages + [Message(Ai, answer(s.messages[0].content, s.pastSteps), None)]))
  }

  /** With such a synthesizer, a run that ends has added exactly one message
      to the original ones: the answer to the first question and the final
      past steps, given on an empty plan. */
  lemma RunAnswers(g: Nodes, answer: (string, seq<PastStep>) -> string, n: Node, s: RunState, fuel: nat)
    requires KeepsMessages(g.planner) && KeepsMessages(g.executor) && IsSynthesizer(g.synthesizer, answer)
    requires n != End && (n == Synthesizer ==> s.plan == []) && |s.messages| > 0
    ensures Run(g, n, s, fuel).Done? ==>
              && Run(g, n, s, fuel).final.plan == []
              && Run(g, n, s, fuel).final.messages
                 == s.messages + [Message(Ai, answer(s.messages[0].content, Run(g, n, s, fuel).final.pastSteps), None)]
  {
    RunKeepsMessages(g, n, s, fuel);
    if Run(g, n, s, fuel).Done? {
      var t: RunState :| t.plan == [] && t.messages == s.messages && g.synthesizer(t) == Some(Run(g, n, s, fuel).final);
      assert g.synthesizer(t) == Some(t.(messages := t.messages + [Message(Ai, answer(t.messages[0].content, t.pastSteps), None)]));
    }
  }

  /** From the planner: a non-empty runnable plan is run step by step and the
      synthesizer answers on `ExecuteAll`'s state, given a budget for the
      planner, one executor run per step and the synthesizer. */
  lemma PlanRunsToEnd(g: Nodes, runnable: string -> bool, evidence: string -> string, s: RunState, fuel: nat)
    requires IsExecutor(g.executor, runnable, evidence)
    requires g.planner(s).Some? && g.planner(s).value.plan != [] && AllRunnable(runnable, g.planner(s).value.plan)
    requires g.synthesizer(ExecuteAll(g.planner(s).value, evidence)).Some?
    requires fuel >= |g.planner(s).value.plan| + 2
    ensures Run(g, Planner, s, fuel) == Done(g.synthesizer(ExecuteAll(g.planner(s).value, evidence)).value)
  {
    var p := g.planner(s).value;
    RunPlannerOnce(g, s, fuel);
    ExecutorDrains(g, runnable, evidence, p, fuel - 1);
    RunSynthesizerOnce(g, ExecuteAll(p, evidence), fuel - 1 - |p.plan|);
  }

  /** From the planner: an empty plan goes to the executor, which raises. */
  lemma EmptyPlanCrashes(g: Nodes, s: RunState, fuel: nat)
    requires g.planner(s).Some? && g.planner(s).value.plan == [] && g.executor(g.planner(s).value) == None
    requires fuel >= 2
    ensures Run(g, Planner, s, fuel) == Crash(Executor, g.planner(s).value)
  {
    RunPlannerOnce(g, s, fuel);
    RunRaises(g, Executor, g.planner(s).value, fuel - 1);
  }

  /** From the planner: a plan whose first step is not runnable never gets
      past the executor. */
  lemma StuckAfterPlanner(g: Nodes, runnable: string -> bool, evidence: string -> string, s: RunState, fuel: nat)
    requires IsExecutor(g.executor, runnable, evidence)
    requires g.planner(s).Some? && g.planner(s).value.plan != [] && !runnable(g.planner(s).value.plan[0])
    ensures Run(g, Planner, s, fuel).Exhausted?
    ensures fuel > 0 ==> Run(g, Planner, s, fuel).node == Executor
  {
    if fuel > 0 {
      RunPlannerOnce(g, s, fuel);
      StuckHead(g, runnable, evidence, g.planner(s).value, fuel - 1);
    }
  }

  /** Every step is runnable: an executor that consumes the head whatever
      happened to it. */
  predicate AnyStep(step: string) {
    true
  }

  /** `f` hands a state with an empty plan on unchanged. */
  ghost predicate PassesEmptyPlan(f: RunState -> Option<RunState>) {
    forall s: RunState :: s.plan == [] ==> f(s) == Some(s)
  }

  /** From the planner, with an executor that consumes every head step and
      passes an empty plan on: once the budget covers the planner, one
      executor run per step (at least one) and the synthesizer, the
      synthesizer answers on `ExecuteAll`'s state. */
  lemma PlanAlwaysRunsToEnd(g: Nodes, evidence: string -> string, s: RunState, fuel: nat)
    requires IsExecutor(g.executor, AnyStep, evidence) && PassesEmptyPlan(g.executor)
    requires g.planner(s).Some? && g.synthesizer(ExecuteAll(g.planner(s).value, evidence)).Some?
    requires fuel >= |g.planner(s).value.plan| + 3
    ensures Run(g, Planner, s, fuel) == Done(g.synthesizer(ExecuteAll(g.planner(s).value, evidence)).value)
  {
    var p := g.planner(s).value;
    if p.plan == [] {
      RunPlannerOnce(g, s, fuel);
      assert Step(g, Executor, p) == Some(p);
      RunSynthesizerOnce(g, p, fuel - 2);
    } else {
      assert AllRunnable(AnyStep, p.plan);
      PlanRunsToEnd(g, AnyStep, evidence, s, fuel);
    }
  }

  /** The same run, in terms of what the synthesizer is given: one past step
      per plan step, in plan order, each with its evidence, and the
      synthesizer's one answer added to the original messages. */
  lemma EveryPlanAnswered(g: Nodes, evidence: string -> string, answer: (string, seq<PastStep>) -> string,
                          s: RunState, fuel: nat)
    requires IsExecutor(g.executor, AnyStep, evidence) && PassesEmptyPlan(g.executor)
    requires IsSynthesizer(g.synthesizer, answer)
    requires |s.messages| > 0 && g.planner(s).Some?
    requires g.planner(s).value.messages == s.messages && g.planner(s).value.pastSteps == []
    requires fuel >= |g.planner(s).value.plan| + 3
    ensures Run(g, Planner, s, fuel).Done?
    ensures Run(g, Planner, s, fuel).final.plan == []
    ensures |Run(g, Planner, s, fuel).final.pastSteps| == |g.planner(s).value.plan|
    ensures forall k :: 0 <= k < |g.planner(s).value.plan| ==>
              Run(g, Planner, s, fuel).final.pastSteps[k]
                == PastStep(g.planner(s).value.plan[k], evidence(g.planner(s).value.plan[k]))
    ensures Run(g, Planner, s, fuel).final.messages
              == s.messages + [Message(Ai, answer(s.messages[0].content, Run(g, Planner, s, fuel).final.pastSteps), None)]
  {
    var p := g.planner(s).value;
    var q := ExecuteAll(p, evidence);
    assert q.messages == s.messages;
    var f := q.(messages := s.messages + [Message(Ai, answer(s.messages[0].content, q.pastSteps), None)]);
    assert g.synthesizer(q) == Some(f);
    PlanAlwaysRunsToEnd(g, evidence, s, fuel);
    assert Run(g, Planner, s, fuel) == Done(f);
    ExecuteAllFresh(p, evidence);
  }
}
