/** How the graph that `src/graph/builder.py` compiles
    behaves as a whole: when a run ends, when it cannot, and when it
    crashes. */
module Loop {

  import opened Wrappers
  import opened PyStr
  import opened State
  import opened Graph
  import opened Builder
  import opened Schedule
  import ApiCallTool

  /** The evidence the executor records for each step. */
  function Evidencer(env: Env): string -> string {
    step => StepEvidence(env, step)
  }

  /** The built executor records the head step with `StepEvidence` and
      consumes it exactly when it names a registered tool. */
  lemma BuiltExecutor(env: Env)
    ensures IsExecutor(BuildGraph(env).executor, Runnable, Evidencer(env))
  {
    forall s: RunState | s.plan != []
      ensures BuildGraph(env).executor(s) == Some(ExecutorUpdate(s, Runnable, Evidencer(env)))
    {
      assert Evidencer(env)(s.plan[0]) == StepEvidence(env, s.plan[0]);
    }
  }

  /** Neither the planner nor the executor touches the messages. */
  lemma BuiltKeepsMessages(env: Env)
    ensures KeepsMessages(BuildGraph(env).planner) && KeepsMessages(BuildGraph(env).executor)
  {
    var g := BuildGraph(env);
    forall s: RunState | g.planner(s).Some?
      ensures g.planner(s).value.messages == s.messages
    {
      assert g.planner(s) == Some(PlannerNode(s, env));
    }
    forall s: RunState | g.executor(s).Some?
      ensures g.executor(s).value.messages == s.messages
    {
      assert g.executor(s) == Some(ExecutorNode(s, env));
    }
  }

  /** The synthesizer's reply: the model's answer to the question and the
      evidence of the past steps. */
  function Answerer(env: Env): (string, seq<PastStep>) -> string {
    (question, ps) => env.complete(SynthesisPrompt(question, Evidence(ps)))
  }

  /** The built synthesizer appends the model's answer to the first
      message's question and the evidence. */
  lemma BuiltSynthesizer(env: Env)
    ensures IsSynthesizer(BuildGraph(env).synthesizer, Answerer(env))
  {
    forall s: RunState | |s.messages| > 0
      ensures BuildGraph(env).synthesizer(s)
              == Some(s.(messages := s.messages + [Message(Ai, Answerer(env)(s.messages[0].content, s.pastSteps), None)]))
    {
      assert Answerer(env)(s.messages[0].content, s.pastSteps) == env.complete(SynthesisPrompt(s.messages[0].content, Evidence(s.pastSteps)));
    }
  }

  /** A run from any node, on a state with a message, ends only after the
      synthesizer has answered on an empty plan, adding exactly one AI
      message: the model's reply to the first message's question and the
      evidence of every past step. */
  lemma RunEndsWithAnswer(env: Env, n: Node, s: RunState, fuel: nat)
    requires n != End && |s.messages| > 0 && (n == Synthesizer ==> s.plan == [])
    ensures Run(BuildGraph(env), n, s, fuel).Done? ==>
              var f := Run(BuildGraph(env), n, s, fuel).final;
              && f.plan == []
              && f.messages == s.messages + [Message(Ai, env.complete(SynthesisPrompt(s.messages[0].content, Evidence(f.pastSteps))), None)]
  {
    BuiltKeepsMessages(env);
    BuiltSynthesizer(env);
    RunAnswers(BuildGraph(env), Answerer(env), n, s, fuel);
    var o := Run(BuildGraph(env), n, s, fuel);
    if o.Done? {
      assert Answerer(env)(s.messages[0].content, o.final.pastSteps)
             == env.complete(SynthesisPrompt(s.messages[0].content, Evidence(o.final.pastSteps)));
    }
  }

  /** A run on a state with a message crashes only in the executor, on an
      empty plan, with the original messages. */
  lemma RunCrashesOnlyInExecutor(env: Env, n: Node, s: RunState, fuel: nat)
    requires n != End && |s.messages| > 0 && (n == Synthesizer ==> s.plan == [])
    ensures Run(BuildGraph(env), n, s, fuel).Crash? ==>
              && Run(BuildGraph(env), n, s, fuel).node == Executor
              && Run(BuildGraph(env), n, s, fuel).state.plan == []
              && Run(BuildGraph(env), n, s, fuel).state.messages == s.messages
  {
    BuiltKeepsMessages(env);
    RunKeepsMessages(BuildGraph(env), n, s, fuel);
  }

  /** From the planner: when the model's plan is non-empty, every step names
      a registered tool and the budget covers the planner, one executor run
      per step and the synthesizer, the run ends, the past steps are the
      plan's steps in plan order, and the one new message is the model's
      answer to the evidence they carry. */
  lemma GoodPlanFromPlanner(env: Env, s: RunState, fuel: nat)
    requires |s.messages| > 0
    requires PlannerNode(s, env).plan != [] && AllRunnable(Runnable, PlannerNode(s, env).plan)
    requires fuel >= |PlannerNode(s, env).plan| + 2
    ensures Run(BuildGraph(env), Planner, s, fuel).Done?
    ensures StepsOf(Run(BuildGraph(env), Planner, s, fuel).final.pastSteps) == PlannerNode(s, env).plan
    ensures Run(BuildGraph(env), Planner, s, fuel).final.messages
              == s.messages + [Message(Ai, env.complete(SynthesisPrompt(s.messages[0].content,
                                                  Evidence(Run(BuildGraph(env), Planner, s, fuel).final.pastSteps))), None)]
  {
    var g := BuildGraph(env);
    var p := PlannerNode(s, env);
    var q := ExecuteAll(p, Evidencer(env));
    assert g.planner(s) == Some(p);
    assert g.synthesizer(q) == Some(SynthesizerNode(q, env));
    BuiltExecutor(env);
    PlanRunsToEnd(g, Runnable, Evidencer(env), s, fuel);
    ExecuteAllSteps(p, Evidencer(env));
    assert StepsOf(p.pastSteps) == [];
  }

  /** A later turn of a checkpointed session: the run starts from the
      earlier turns' messages with the new question appended. The planner
      plans for the new question, but the synthesizer answers the first
      turn's question from the evidence gathered for the new one. */
  lemma LaterTurnAnswersFirstQuestion(env: Env, s: RunState, earlier: seq<Message>, question: Message, fuel: nat)
    requires earlier != [] && s.messages == earlier + [question]
    requires PlannerNode(s, env).plan != [] && AllRunnable(Runnable, PlannerNode(s, env).plan)
    requires fuel >= |PlannerNode(s, env).plan| + 2
    ensures PlannerNode(s, env).plan == PlanLines(env.complete(PlanPrompt(question.content)))
    ensures Run(BuildGraph(env), Planner, s, fuel).Done?
    ensures Run(BuildGraph(env), Planner, s, fuel).final.messages
              == s.messages + [Message(Ai, env.complete(SynthesisPrompt(earlier[0].content,
                                                  Evidence(Run(BuildGraph(env), Planner, s, fuel).final.pastSteps))), None)]
  {
    assert s.messages[0] == earlier[0] && s.messages[|s.messages| - 1] == question;
    GoodPlanFromPlanner(env, s, fuel);
  }

  /** A head step that is malformed or names an unregistered tool is never
      consumed: whatever the step budget, the run is still in the executor
      with the same plan, having recorded the same rejection once per
      executor run. The loop has no decreasing measure. */
  lemma BadHeadNeverFinishes(env: Env, s: RunState, fuel: nat)
    requires s.plan != [] && !Runnable(s.plan[0])
    ensures Run(BuildGraph(env), Executor, s, fuel)
              == Exhausted(Executor, s.(pastSteps := s.pastSteps + Repeat(PastStep(s.plan[0], StepEvidence(env, s.plan[0])), fuel)))
  {
    BuiltExecutor(env);
    StuckHead(BuildGraph(env), Runnable, Evidencer(env), s, fuel);
  }

  /** A model reply that is all white space gives an empty plan, and the
      unconditional planner -> executor edge then runs the executor on it:
      the run crashes with `IndexError` instead of reaching the synthesizer. */
  lemma BlankPlanCrashes(env: Env, s: RunState, fuel: nat)
    requires |s.messages| > 0 && fuel >= 2
    requires IsBlank(env.complete(PlanPrompt(s.messages[|s.messages| - 1].content)))
    ensures Run(BuildGraph(env), Planner, s, fuel) == Crash(Executor, PlannerNode(s, env))
  {
    PlanLinesEmpty(env.complete(PlanPrompt(s.messages[|s.messages| - 1].content)));
    var g := BuildGraph(env);
    var p := PlannerNode(s, env);
    assert g.planner(s) == Some(p);
    assert g.executor(p) == None;
    EmptyPlanCrashes(g, s, fuel);
  }

  /** A preamble line before the steps (one without the `[Tool: ` marker)
      becomes the first plan step, is malformed, and so the run never ends. */
  lemma PreambleNeverFinishes(env: Env, s: RunState, fuel: nat, preamble: string, rest: string)
    requires |s.messages| > 0
    requires env.complete(PlanPrompt(s.messages[|s.messages| - 1].content)) == preamble + "\n" + rest
    requires '\n' !in preamble && !IsBlank(preamble) && !Contains(preamble, ToolMarker)
    ensures PlannerNode(s, env).plan != [] && PlannerNode(s, env).plan[0] == Strip(preamble)
    ensures Classify(PlannerNode(s, env).plan[0]) == Malformed
    ensures Run(BuildGraph(env), Planner, s, fuel).Exhausted?
  {
    PlanLinesAppend(preamble, rest);
    PlanLinesOneLine(preamble);
    var p := PlannerNode(s, env);
    assert p.plan[0] == Strip(preamble);
    StripKeepsAbsence(preamble, ToolMarker);
    var g := BuildGraph(env);
    assert g.planner(s) == Some(p);
    BuiltExecutor(env);
    StuckAfterPlanner(g, Runnable, Evidencer(env), s, fuel);
  }

  /** A step `<pre>[Tool: api_caller] <query>` calls the dummy API with the
      stripped query, leaves the plan, and records the youth product exactly
      when the query mentions "청년" (youth), the general product otherwise. */
  lemma ApiCallerStep(env: Env, s: RunState, pre: string, query: string)
    requires IsNumbering(pre) && ']' !in query
    requires s.plan != [] && s.plan[0] == FormatStep(pre, "api_caller", query)
    ensures ExecutorNode(s, env).plan == s.plan[1..]
    ensures ExecutorNode(s, env).pastSteps == s.pastSteps + [PastStep(s.plan[0], ApiCallTool.CallApi(Strip(query)))]
    ensures ApiCallTool.CallApi(Strip(query)) == ApiCallTool.YouthFund <==> Contains(Strip(query), ApiCallTool.YouthKeyword)
  {
    AbsentFirstChar("api_caller", ToolMarker);
    ClassifyFormatStep(pre, "api_caller", query);
    LookupToolName(ApiCaller);
    assert Classify(s.plan[0]) == KnownTool(ApiCaller, Strip(query));
  }

  /** A well-formed step naming an unregistered tool, such as
      `[Tool: ghost_tool] x`, stays at the head: the run keeps recording
      "unknown tool" and never reaches the synthesizer. */
  lemma UnknownToolNeverFinishes(env: Env, s: RunState, pre: string, name: string, query: string, fuel: nat)
    requires name !in RegisteredNames && IsNumbering(pre) && ']' !in name && !Contains(name, ToolMarker) && ']' !in query
    requires s.plan != [] && s.plan[0] == FormatStep(pre, name, query)
    ensures Run(BuildGraph(env), Executor, s, fuel)
              == Exhausted(Executor, s.(pastSteps := s.pastSteps + Repeat(PastStep(s.plan[0], UnknownToolText), fuel)))
  {
    ClassifyFormatStep(pre, name, query);
    assert Classify(s.plan[0]) == UnknownTool(name);
    BadHeadNeverFinishes(env, s, fuel);
  }

  /** The numbered step `1. [Tool: api_caller] 청년 정책자금 조건` ("youth
      policy fund terms") passes that query to the dummy API, leaves the
      plan and records the youth product. */
  lemma YouthFundStep(env: Env, s: RunState)
    requires s.plan != [] && s.plan[0] == FormatStep("1. ", "api_caller", "청년 정책자금 조건")
    ensures ExecutorNode(s, env).plan == s.plan[1..]
    ensures ExecutorNode(s, env).pastSteps == s.pastSteps + [PastStep(s.plan[0], ApiCallTool.YouthFund)]
  {
    StripOfStripped("청년 정책자금 조건");
    ApiCallerStep(env, s, "1. ", "청년 정책자금 조건");
    assert OccursAt("청년 정책자금 조건", ApiCallTool.YouthKeyword, 0);
  }

  /** The step `1. [Tool: ghost_tool] x` names no registered tool, so the
      run that reaches it never gets past it. */
  lemma GhostToolNeverFinishes(env: Env, s: RunState, fuel: nat)
    requires s.plan != [] && s.plan[0] == FormatStep("1. ", "ghost_tool", "x")
    ensures Run(BuildGraph(env), Executor, s, fuel)
              == Exhausted(Executor, s.(pastSteps := s.pastSteps + Repeat(PastStep(s.plan[0], UnknownToolText), fuel)))
  {
    AbsentFirstChar("ghost_tool", ToolMarker);
    UnknownToolNeverFinishes(env, s, "1. ", "ghost_tool", "x", fuel);
  }

  /** The evidence for `1. [Tool: ghost_tool] x` is the "unknown tool"
      text: the step parses, but no tool of that name is registered. */
  lemma GhostToolEvidence(env: Env)
    ensures StepEvidence(env, FormatStep("1. ", "ghost_tool", "x")) == UnknownToolText
  {
    AbsentFirstChar("ghost_tool", ToolMarker);
    ClassifyFormatStep("1. ", "ghost_tool", "x");
  }
}
