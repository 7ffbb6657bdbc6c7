/** The graph of `src/graph/builder.py` with the two defects of its executor
    loop repaired, as the comments of `should_continue` (lines 136-141 of
    that file) intend the loop to behave: go back to the executor while plan
    steps remain, and move on to the synthesizer once they are all done. A
    step that cannot be run is recorded as evidence and consumed, so the run
    goes on with the rest of the plan, and an empty plan leads to the
    synthesizer with no evidence instead of an `IndexError`. The planner and
    the synthesizer of that graph are the built ones.

    A second, separate repair makes the synthesizer answer the question the
    planner planned for: the last message, rather than the first message,
    which on later turns of a checkpointed session is an older question. */
module Corrected {

  import opened Wrappers
  import opened PyStr
  import opened State
  import opened Graph
  import opened Builder
  import opened Schedule
  import opened Loop

  /** The repaired executor: the head step always leaves the plan, with the
      evidence the original executor records for it; an empty plan is passed
      on unchanged. */
  function FixedExecutorNode(s: RunState, env: Env): (r: RunState)
    ensures r.messages == s.messages
    ensures |r.plan| == if s.plan == [] then 0 else |s.plan| - 1
  {
    if s.plan == [] then s
    else s.(plan := s.plan[1..], pastSteps := s.pastSteps + [PastStep(s.plan[0], StepEvidence(env, s.plan[0]))])
  }

  /** On a step naming a registered tool the repaired executor does exactly
      what the original does; on any other step it records the same past
      step, and differs only in dropping the step from the plan. */
  lemma FixedAgreesWithOriginal(s: RunState, env: Env)
    requires s.plan != []
    ensures Runnable(s.plan[0]) ==> FixedExecutorNode(s, env) == ExecutorNode(s, env)
    ensures !Runnable(s.plan[0]) ==>
              && FixedExecutorNode(s, env).pastSteps == ExecutorNode(s, env).pastSteps
              && FixedExecutorNode(s, env).plan == ExecutorNode(s, env).plan[1..]
  {
  }

  /** The repaired graph: the built planner and synthesizer, the repaired
      executor, the same edges. */
  function FixedGraph(env: Env): (g: Nodes)
    ensures g.planner == BuildGraph(env).planner && g.synthesizer == BuildGraph(env).synthesizer
    ensures forall s {:trigger g.executor(s)} :: g.executor(s) == Some(FixedExecutorNode(s, env))
  {
    Nodes(BuildGraph(env).planner, (s: RunState) => Some(FixedExecutorNode(s, env)), BuildGraph(env).synthesizer)
  }

  /** The repaired executor consumes every head step, with the evidence of
      the original, and passes an empty plan on. */
  lemma FixedExecutor(env: Env)
    ensures IsExecutor(FixedGraph(env).executor, AnyStep, Evidencer(env))
    ensures PassesEmptyPlan(FixedGraph(env).executor)
  {
    forall s: RunState | s.plan != []
      ensures FixedGraph(env).executor(s) == Some(ExecutorUpdate(s, AnyStep, Evidencer(env)))
    {
      assert Evidencer(env)(s.plan[0]) == StepEvidence(env, s.plan[0]);
    }
  }

  /** Every plan is answered. From the planner, on a state with a message,
      once the budget covers the planner, one executor run per plan step (at
      least one) and the synthesizer, the repaired run ends; the past steps
      are the plan's steps in order, each with the evidence the original
      executor gives it (the "unknown tool" or "malformed step" text for a
      step that cannot run); and the one new message is the model's answer to
      the first question and that evidence. */
  lemma FixedRunAnswers(env: Env, s: RunState, fuel: nat)
    requires |s.messages| > 0
    requires fuel >= |PlannerNode(s, env).plan| + 3
    ensures Run(FixedGraph(env), Planner, s, fuel).Done?
    ensures Run(FixedGraph(env), Planner, s, fuel).final.plan == []
    ensures |Run(FixedGraph(env), Planner, s, fuel).final.pastSteps| == |PlannerNode(s, env).plan|
    ensures forall k :: 0 <= k < |PlannerNode(s, env).plan| ==>
              Run(FixedGraph(env), Planner, s, fuel).final.pastSteps[k]
                == PastStep(PlannerNode(s, env).plan[k], StepEvidence(env, PlannerNode(s, env).plan[k]))
    ensures Run(FixedGraph(env), Planner, s, fuel).final.messages
              == s.messages + [Message(Ai, env.complete(SynthesisPrompt(s.messages[0].content,
                                                  Evidence(Run(FixedGraph(env), Planner, s, fuel).final.pastSteps))), None)]
  {
    var g := FixedGraph(env);
    var p := PlannerNode(s, env);
    assert g.planner(s) == Some(p);
    FixedExecutor(env);
    BuiltSynthesizer(env);
    EveryPlanAnswered(g, Evidencer(env), Answerer(env), s, fuel);
    var f := Run(g, Planner, s, fuel).final;
    assert Answerer(env)(s.messages[0].content, f.pastSteps)
           == env.complete(SynthesisPrompt(s.messages[0].content, Evidence(f.pastSteps)));
    forall k | 0 <= k < |p.plan|
      ensures f.pastSteps[k] == PastStep(p.plan[k], StepEvidence(env, p.plan[k]))
    {
      assert Evidencer(env)(p.plan[k]) == StepEvidence(env, p.plan[k]);
    }
  }

  /** The repaired run never crashes: from any node, on a state with a
      message, it either ends or is still running when the budget is spent. */
  lemma FixedNeverCrashes(env: Env, n: Node, s: RunState, fuel: nat)
    requires n != End && |s.messages| > 0 && (n == Synthesizer ==> s.plan == [])
    ensures !Run(FixedGraph(env), n, s, fuel).Crash?
  {
    var g := FixedGraph(env);
    BuiltKeepsMessages(env);
    assert KeepsMessages(g.executor);
    RunKeepsMessages(g, n, s, fuel);
  }

  /** A one-step plan is answered by the repaired run, from that step's
      evidence alone. */
  lemma FixedSingleStepAnswered(env: Env, s: RunState, fuel: nat, step: string)
    requires |s.messages| > 0 && fuel >= 4
    requires PlannerNode(s, env).plan == [step]
    ensures Run(FixedGraph(env), Planner, s, fuel).Done?
    ensures Run(FixedGraph(env), Planner, s, fuel).final.pastSteps == [PastStep(step, StepEvidence(env, step))]
  {
    FixedRunAnswers(env, s, fuel);
    var f := Run(FixedGraph(env), Planner, s, fuel).final;
    assert f.pastSteps == [f.pastSteps[0]];
  }

  /** A plan of the one step `1. [Tool: ghost_tool] x` is answered by the
      repaired run, from the "unknown tool" evidence of that step. */
  lemma FixedGhostToolAnswered(env: Env, s: RunState, fuel: nat)
    requires |s.messages| > 0 && fuel >= 4
    requires PlannerNode(s, env).plan == [FormatStep("1. ", "ghost_tool", "x")]
    ensures Run(FixedGraph(env), Planner, s, fuel).Done?
    ensures Run(FixedGraph(env), Planner, s, fuel).final.pastSteps == [PastStep(FormatStep("1. ", "ghost_tool", "x"), UnknownToolText)]
  {
    GhostToolEvidence(env);
    FixedSingleStepAnswered(env, s, fuel, FormatStep("1. ", "ghost_tool", "x"));
  }

  // ---------------------------------------------------------------------------
  // Answering the question of the current turn
  // ---------------------------------------------------------------------------

  /** The synthesizer repaired to answer the question the planner planned
      for: the last message, which is the new question on every turn of a
      checkpointed session. On a first turn, with one message, it is the
      original synthesizer. */
  function FixedSynthesizerNode(s: RunState, env: Env): (r: RunState)
    requires |s.messages| > 0
    ensures r.plan == s.plan && r.pastSteps == s.pastSteps
    ensures |r.messages| == |s.messages| + 1 && r.messages[..|s.messages|] == s.messages
    ensures |s.messages| == 1 ==> r == SynthesizerNode(s, env)
  {
    var answer := env.complete(SynthesisPrompt(s.messages[|s.messages| - 1].content, Evidence(s.pastSteps)));
    s.(messages := s.messages + [Message(Ai, answer, None)])
  }

  /** The built graph with the repaired synthesizer. */
  function QuestionGraph(env: Env): (g: Nodes)
    ensures g.planner == BuildGraph(env).planner && g.executor == BuildGraph(env).executor
    ensures forall s {:trigger g.synthesizer(s)} :: g.synthesizer(s) == if |s.messages| == 0 then None else Some(FixedSynthesizerNode(s, env))
  {
    Nodes(BuildGraph(env).planner, BuildGraph(env).executor,
          (s: RunState) => if |s.messages| == 0 then None else Some(FixedSynthesizerNode(s, env)))
  }

  /** On any turn, with a plan of registered-tool steps and the budget for
      it, the repaired run ends, records the plan's steps in order, and adds
      one message: the model's answer to the last message, the same question
      `PlannerNode` planned for, from the evidence gathered for it. */
  lemma LaterTurnAnswered(env: Env, s: RunState, fuel: nat)
    requires |s.messages| > 0
    requires PlannerNode(s, env).plan != [] && AllRunnable(Runnable, PlannerNode(s, env).plan)
    requires fuel >= |PlannerNode(s, env).plan| + 2
    ensures Run(QuestionGraph(env), Planner, s, fuel).Done?
    ensures StepsOf(Run(QuestionGraph(env), Planner, s, fuel).final.pastSteps) == PlannerNode(s, env).plan
    ensures Run(QuestionGraph(env), Planner, s, fuel).final.messages
              == s.messages + [Message(Ai, env.complete(SynthesisPrompt(s.messages[|s.messages| - 1].content,
                                                  Evidence(Run(QuestionGraph(env), Planner, s, fuel).final.pastSteps))), None)]
  {
    var g := QuestionGraph(env);
    var p := PlannerNode(s, env);
    var q := ExecuteAll(p, Evidencer(env));
    assert g.planner(s) == Some(p);
    assert q.messages == s.messages;
    assert g.synthesizer(q) == Some(FixedSynthesizerNode(q, env));
    BuiltExecutor(env);
    PlanRunsToEnd(g, Runnable, Evidencer(env), s, fuel);
    ExecuteAllSteps(p, Evidencer(env));
    assert StepsOf(p.pastSteps) == [];
  }
}
