# Plan-execute-synthesize chatbot graph, in Dafny

This project models the orchestration core of a small-business advice
chatbot. The core is a LangGraph `StateGraph` with three nodes, defined in
`src/graph/builder.py`:

- The **planner** asks the language model for a plan and keeps every
  non-blank line of the reply, stripped, as one step.
- The **executor** takes the head step `[Tool: <name>] <query>`, looks the
  tool up in the registry (`data_analyzer`, `web_searcher`, `api_caller`),
  runs it, and records `(step, result)` in `past_steps`.
- The **synthesizer** joins the recorded evidence into one text and asks the
  model for the final answer.

The executor loops back to itself while the plan has steps left and hands
over to the synthesizer once it is empty. The `api_caller` tool is the dummy
policy-fund API of `src/tools/api_call_tool.py`. The stand-alone agent of
`src/agents/api_call_agent.py` carries its own copy of that API.

Modules:

- `PyStr` (`pystr.dfy`): the Python `str` operations the code relies on:
  `in`, `split`, indexing a split, `join`, `strip` and `isspace`.
  Each comes with its algebra: split/join round trips, and `strip` pinned
  down by a declarative `StripsTo` relation.
- `State` (`state.dfy`): messages, past steps and the run state.
- `Graph` (`graph.dfy`): nodes, `should_continue`, the edges, and a run of
  the compiled graph with a step budget.
- `ApiCallTool` (`api_call_tool.dfy`) and `ApiCallAgent`
  (`api_call_agent.dfy`): the dummy API and the agent.
- `Builder` (`builder.dfy`): the tool registry, the three nodes and the
  graph built from them.
- `Schedule` (`schedule.dfy`): how any executor of this shape drives the
  loop. It covers the runnable plan that drains, the head step that never
  leaves, and the empty plan.
- `Loop` (`loop.dfy`): the same facts for the built graph, including the
  defects listed under Findings.
- `Corrected` (`corrected.dfy`): the graph with a repaired executor, and
  the graph with a repaired synthesizer, each with the intended behaviour
  proved.

The language model, the data-analysis tool and the web-search tool are
fields of an `Env` record: total functions from their input to their output.
Every node is therefore a pure function of the run state. A node that raises
is `None`. A run ends as `Done`, `Crash` (a node raised) or `Exhausted` (the
step budget ran out).

## Model

| member | source | states |
|---|---|---|
| PyStr.Split | src/graph/builder.py:59 | `s.split(sep)` has at least one piece; it has two or more exactly when `sep` occurs in `s`; no piece contains `sep` |
| PyStr.JoinSplit | src/graph/builder.py:59 | joining the pieces of a split with the same separator gives back the original string |
| PyStr.SplitJoinChar | src/graph/builder.py:59-61 | splitting on a character that no piece holds undoes joining on it |
| PyStr.SplitPiece | src/graph/builder.py:71-72 | `s.split(sep)[0]` always exists; `[1]` exists exactly when `sep` occurs; no piece holds `sep`; a missing piece is the `IndexError` |
| PyStr.JoinAppend | src/graph/builder.py:100-102 | joining one more piece adds the separator and the piece after the join of the rest |
| PyStr.Strip | src/graph/builder.py:59 | `s.strip()` is the stripped infix of `s` with only white space around it; it is empty exactly when `s` is blank |
| PyStr.StripsToUnique | src/graph/builder.py:59 | only one string is `s` with white space removed from both ends, so the relation determines `strip` |
| PyStr.StripOfStripped | src/graph/builder.py:59 | a string with no white space at either end is left unchanged |
| PyStr.StripIdempotent | src/graph/builder.py:59 | stripping twice is stripping once |
| PyStr.StripLeadingSpace | src/graph/builder.py:72 | a leading white-space character, such as the blank after `]`, makes no difference to `strip` |
| PyStr.StripKeepsAbsence | src/graph/builder.py:59 | a string that lacks a substring still lacks it after stripping |
| Builder.Lookup | src/graph/builder.py:21-25 | a name finds a tool exactly when it is one of the three registry keys, and the tool found has that name |
| Builder.LookupToolName | src/graph/builder.py:21-25 | each tool is found under its own key |
| Builder.Invoke | src/graph/builder.py:78-81 | the `api_caller` tool never raises, and it returns the youth product exactly when the query mentions "청년" |
| Builder.KeepNonBlank | src/graph/builder.py:59 | the filter keeps at most one step per line; each step is non-empty and stripped |
| Builder.PlanLines | src/graph/builder.py:59 | every plan step is non-empty, stripped and free of line breaks |
| Builder.PlannerNode | src/graph/builder.py:29-62 | the planner plans from the last message, resets `past_steps` to empty, leaves the messages alone, and yields only non-empty, stripped, single-line steps |
| Builder.KeepNonBlankAppend | src/graph/builder.py:59 | the line filter distributes over concatenation |
| Builder.PlanLinesAppend | src/graph/builder.py:59 | two texts joined by a line break plan as the first text's steps followed by the second's, in order |
| Builder.PlanLinesOneLine | src/graph/builder.py:59 | one line gives its stripped form as the only step, or no step when it is blank |
| Builder.PlanLinesEmpty | src/graph/builder.py:59 | the plan is empty exactly when the model's whole reply is white space |
| Builder.PlanLinesOfJoin | src/graph/builder.py:59 | steps written one per line are planned back unchanged |
| Builder.ParseStep | src/graph/builder.py:70-74 | parsing fails exactly when the step lacks `[Tool: ` or `]`; a parsed tool name holds no `]`; the query is stripped and holds no `]` |
| Builder.ParseFormatStep | src/graph/builder.py:70-74 | a step `<numbering>[Tool: <name>] <query>` parses back to the name and the stripped query, whatever bracket-free numbering comes first, when neither the name nor the query holds `]` and the name holds no marker |
| Builder.ParseBracketQuery | src/graph/builder.py:71-72 | when the query part holds a `]`, only the text before it, stripped, becomes the query: `split("]")[1]` is the piece between the first and the second `]` |
| Builder.BracketYearQuery | src/graph/builder.py:71-72 | `1. [Tool: web_searcher] [2024] 트렌드` sends the query `[2024` to the web searcher |
| Builder.Classify | src/graph/builder.py:70-79 | a step is malformed exactly when parsing fails; it names an unknown tool exactly when it parses to a name outside the registry; otherwise it names the tool and the query |
| Builder.ClassifyFormatStep | src/graph/builder.py:70-79 | a formatted step is classified by looking its name up, with the stripped query |
| Builder.ExecutorNode | src/graph/builder.py:64-93 | one past step is appended after the old ones, recording the head step. The head leaves the plan exactly when it names a registered tool; otherwise the plan is unchanged. The recorded text is the malformed-step text, the unknown-tool text, the error prefix plus the exception text, or the tool's return value. The messages are untouched |
| Builder.Blocks | src/graph/builder.py:100-102 | one labelled block per past step, in order |
| Builder.EvidenceAppend | src/graph/builder.py:100-102 | no past steps give empty evidence; a later step's block follows all earlier ones after one blank line |
| Builder.SynthesizerNode | src/graph/builder.py:95-118 | exactly one AI message is appended. It is the model's reply to the first message's question and the evidence. Plan and past steps are unchanged |
| Builder.BuildGraph | src/graph/builder.py:122-143 | the planner and the synthesizer raise exactly on an empty message list; the executor raises exactly on an empty plan; otherwise each node is the node function |
| Graph.ShouldContinue | src/graph/builder.py:136-141 | back to the executor exactly when steps remain, to the synthesizer exactly when the plan is empty |
| Graph.Successor | src/graph/builder.py:129-143 | planner to executor, synthesizer to the end, executor by `should_continue`; no edge re-enters the planner |
| Graph.Run | src/graph/builder.py:122-146 | a run ends only right after the synthesizer; it crashes only where a node raises |
| ApiCallTool.FundsDiffer | src/tools/api_call_tool.py:13-26 | the two product records are different texts |
| ApiCallTool.PolicyFundInfo | src/tools/api_call_tool.py:8-26 | the youth product exactly when the topic contains "청년", the general product exactly when it does not |
| ApiCallTool.CallApi | src/tools/api_call_tool.py:28-33 | the registered tool answers the same way from its query |
| ApiCallTool.CallApiIsPolicyFundInfo | src/tools/api_call_tool.py:28-37 | the tool passes its query to the API unchanged |
| ApiCallTool.YouthSurvivesContext | src/tools/api_call_tool.py:13 | text added before or after a topic that gets the youth product keeps it |
| ApiCallAgent.GetPolicyFundInfo | src/agents/api_call_agent.py:4-22 | the agent's copy answers with the youth product exactly when the topic contains "청년" |
| ApiCallAgent.AgentAgreesWithTool | src/agents/api_call_agent.py:4-22 | the agent's copy and the tool's function agree on every topic |
| ApiCallAgent.ApiCallAgentNode | src/agents/api_call_agent.py:24-31 | an empty message list is the `IndexError`. Otherwise the update is one human message named `api_call_agent`. It holds the youth product exactly when the last message mentions "청년", and otherwise the general one |
| ApiCallAgent.AgentAnswersLastMessage | src/agents/api_call_agent.py:24-31 | the reply is the API's answer to the last message's content; earlier messages do not matter |
| Schedule.ExecuteAll | src/graph/builder.py:64-93 | consuming the whole plan empties it, keeps the messages, and adds one past step per plan step |
| Schedule.ExecuteAllRecords | src/graph/builder.py:88-91 | the old past steps stay in front; after them comes each plan step with its evidence, in plan order |
| Schedule.ExecuteAllSteps | src/graph/builder.py:88-91 | the recorded step texts are the old ones followed by the plan |
| Schedule.ExecuteAllFresh | src/graph/builder.py:62-91 | from no past steps, exactly the plan's steps with their evidence are recorded |
| Schedule.ExecutorPartway | src/graph/builder.py:136-143 | with a runnable plan of n steps and a budget below n, the run is still in the executor. The steps run so far are recorded and the rest of the plan is left |
| Schedule.ExecutorDrains | src/graph/builder.py:136-143 | with a runnable plan of n steps and a budget of at least n, the executor runs exactly n times, then hands the fully executed state to the synthesizer |
| Schedule.StuckHead | src/graph/builder.py:72-74 | a head step the executor does not consume stays at the head for any budget; each executor run records it once more |
| Schedule.RunKeepsMessages | src/graph/builder.py:62-93 | when neither the planner nor the executor touches the messages, a finished run was answered on an empty plan with the original messages; any other run stops with them |
| Schedule.RunAnswers | src/graph/builder.py:104-118 | a finished run has added exactly one message: the answer to the first question from the final past steps, on an empty plan |
| Schedule.PlanRunsToEnd | src/graph/builder.py:129-143 | from the planner, a non-empty runnable plan runs step by step to the synthesizer, given a budget of planner + steps + synthesizer |
| Schedule.EmptyPlanCrashes | src/graph/builder.py:133 | from the planner, an empty plan goes straight to the executor, which raises |
| Schedule.StuckAfterPlanner | src/graph/builder.py:133-143 | from the planner, a plan whose first step is not consumed never leaves the executor |
| Schedule.PlanAlwaysRunsToEnd | src/graph/builder.py:136-143 | with an executor that consumes every step and passes an empty plan on, every plan reaches the synthesizer |
| Schedule.EveryPlanAnswered | src/graph/builder.py:136-143 | the synthesizer is then given one past step per plan step, in order, each with its evidence, and adds one answer |
| Loop.BuiltExecutor | src/graph/builder.py:64-93 | the built executor records the head with its evidence and consumes it exactly when it names a registered tool |
| Loop.BuiltKeepsMessages | src/graph/builder.py:62-93 | the built planner and executor never change the messages |
| Loop.BuiltSynthesizer | src/graph/builder.py:95-118 | the built synthesizer appends the model's answer to the first question and the evidence |
| Loop.RunEndsWithAnswer | src/graph/builder.py:95-143 | a finished run of the built graph has an empty plan. It has exactly one new message: the model's reply to the first question and the evidence of every past step |
| Loop.RunCrashesOnlyInExecutor | src/graph/builder.py:68 | a crash of the built graph happens only in the executor, on an empty plan, with the original messages |
| Loop.GoodPlanFromPlanner | src/graph/builder.py:29-143 | a non-empty plan of registered-tool steps, given enough budget, finishes. The past steps are the plan's steps in order, and the one new message answers their evidence |
| Loop.LaterTurnAnswersFirstQuestion | src/graph/builder.py:53-108 | on a later turn, with earlier messages before the new question, the planner plans for the new question, but the finished run's one new message answers the first turn's question from the evidence gathered for the new one |
| Loop.BadHeadNeverFinishes | src/graph/builder.py:71-74 | a malformed or unknown-tool head step never leaves the plan. For any budget, the run is still in the executor, having recorded the same rejection once per run |
| Loop.BlankPlanCrashes | src/graph/builder.py:59-68 | a blank model reply gives an empty plan, and the run crashes in the executor with `IndexError` |
| Loop.PreambleNeverFinishes | src/graph/builder.py:59-74 | a preamble line without the `[Tool: ` marker becomes the first step, is malformed, and the run never ends |
| Loop.ApiCallerStep | src/graph/builder.py:70-91 | `[Tool: api_caller] <q>` calls the dummy API with the stripped query. It leaves the plan and records the youth product exactly when the query mentions "청년" |
| Loop.UnknownToolNeverFinishes | src/graph/builder.py:92-93 | a well-formed step naming an unregistered tool is recorded as "unknown tool" once per executor run, forever |
| Loop.YouthFundStep | src/graph/builder.py:70-91 | `1. [Tool: api_caller] 청년 정책자금 조건` records the youth product and leaves the plan |
| Loop.GhostToolNeverFinishes | src/graph/builder.py:92-93 | the step `1. [Tool: ghost_tool] x` never gets past the executor |
| Loop.GhostToolEvidence | src/graph/builder.py:92-93 | that step's evidence is the unknown-tool text |
| Corrected.FixedExecutorNode | src/graph/builder.py:136-141 | the repaired executor keeps the messages and shortens a non-empty plan by exactly one step |
| Corrected.FixedAgreesWithOriginal | src/graph/builder.py:64-93 | on a registered-tool step the repair is the original executor; on any other step it records the same past step and also drops the step |
| Corrected.FixedGraph | src/graph/builder.py:122-143 | the built planner and synthesizer, the repaired executor |
| Corrected.FixedExecutor | src/graph/builder.py:136-141 | the repaired executor consumes every head step with the original evidence and passes an empty plan on |
| Corrected.FixedRunAnswers | src/graph/builder.py:136-141 | every plan is answered. With a budget of planner + steps + 2, the run ends with an empty plan and one past step per plan step, in order, each with the original evidence. The one new message is the answer from that evidence |
| Corrected.FixedNeverCrashes | src/graph/builder.py:68 | the repaired run never crashes |
| Corrected.FixedSingleStepAnswered | src/graph/builder.py:136-141 | a one-step plan is answered from that step's evidence alone |
| Corrected.FixedSynthesizerNode | src/graph/builder.py:104-118 | the repaired synthesizer appends exactly one message and keeps plan and past steps; on a first turn, with one message, it is the original synthesizer |
| Corrected.QuestionGraph | src/graph/builder.py:122-143 | the built planner and executor, with the repaired synthesizer |
| Corrected.LaterTurnAnswered | src/graph/builder.py:53-108 | on any turn, a plan of registered-tool steps runs to the end, its steps are recorded in order, and the one new message answers the last message: the question the planner planned for |
| Corrected.FixedGhostToolAnswered | src/graph/builder.py:92-93 | a plan of only `1. [Tool: ghost_tool] x` is answered from the unknown-tool evidence |

## Left out

- The `plan` and `past_steps` keys are not declared in `AgentState`
  (`src/graph/state.py:5-13`), but the nodes read and return them. They are
  modelled as fields of `RunState`. A node's returned keys become record
  updates: `messages` is appended to and the others are overwritten.
  `state.get("past_steps", [])` on a missing key is the empty list that
  every run starts with. The unused `next` key is not modelled.
- LangGraph's recursion limit, which stops a run that never reaches `END`
  with an error, belongs to the framework. Runs take a step budget (`fuel`)
  instead, and a run that spends it ends as `Exhausted`.
- Every `print` is output only and is left out.
- The wording of the planner and synthesizer prompts is reduced to the
  `Prompt` datatype, which carries only the data the prompt embeds: the
  question, plus the evidence for the synthesizer.
- The chat model, `data_analysis_tool` and `web_search_tool` are total
  functions in `Env`. Errors of the model call itself (network,
  authentication) are not modelled. Tool exceptions are modelled as
  `Raised`, with the exception's text.
- The `json.dumps(..., ensure_ascii=False)` outputs are written out as
  constant strings in the default separator style, not computed from a
  dictionary.
- `MemorySaver` (a checkpointer, `src/graph/builder.py:146`) is not
  modelled as a component. With one `thread_id` per session
  (`src/main.py:19`, `src/main.py:40`), it carries the earlier turns'
  messages into each run, and the new question is appended to them. The
  model covers this because a run may start from any message list:
  `Loop.LaterTurnAnswersFirstQuestion` is such a run. `load_dotenv` only
  reads configuration and is left out.
- The other agents and tools of the repository are not part of this model.
  The data-analysis and web-search tools appear only as the `Env` functions
  above.
- Builder.ExecutorNode: its precondition excludes an empty plan. The
  `IndexError` of `state["plan"][0]` is modelled one level up, where
  `Builder.BuildGraph` makes the executor `None` on an empty plan.
- Builder.PlannerNode and Builder.SynthesizerNode: likewise, the
  `IndexError` on an empty message list is the `None` of `Builder.BuildGraph`.

## Findings

| source | as written | input that shows it | evidently intended | confidence | as-written member | corrected member |
|---|---|---|---|---|---|---|
| src/graph/builder.py:59-68 | a blank model reply gives `plan == []`. The unconditional planner to executor edge (line 133) then runs `state["plan"][0]` on it | the model answers `"\n  \n"` | an empty plan goes to the synthesizer, as `should_continue` sends it once no steps remain | not executed | Loop.BlankPlanCrashes | Corrected.FixedRunAnswers, Corrected.FixedNeverCrashes |
| src/graph/builder.py:71-74 | a malformed step, or one naming an unknown tool (lines 92-93), returns no `plan` update. The step stays at the head, and `should_continue` loops back to it until the recursion limit | a plan whose first line is `Here is the plan:` or `1. [Tool: ghost_tool] x` | the step is recorded as failed evidence and consumed, so the run moves on and synthesizes once the plan is empty | not executed | Loop.BadHeadNeverFinishes, Loop.PreambleNeverFinishes, Loop.GhostToolNeverFinishes | Corrected.FixedRunAnswers, Corrected.FixedGhostToolAnswered |
| src/graph/builder.py:108 | the synthesizer asks about `messages[0]`, while the planner plans for `messages[-1]` (line 53). With `MemorySaver` and one `thread_id` per session (`src/main.py:19`, `src/main.py:39-40`), a later turn starts from the earlier turns' messages | a second turn: messages `[q1, a1, q2]`, where the plan and the evidence are for `q2` and the answer is asked for `q1` | the answer addresses the question the plan was made for, the new one | not executed | Loop.LaterTurnAnswersFirstQuestion | Corrected.FixedSynthesizerNode, Corrected.LaterTurnAnswered |
