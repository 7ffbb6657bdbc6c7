/** The plan-execute-synthesize graph of `src/graph/builder.py`: the tool
    registry, the three nodes, and the graph that wires them together.
    The language model and the two tools whose internals are external are
    fields of `Env`, so every node is a pure function of the run state. */
module Builder {

  import opened Wrappers
  import opened PyStr
  import opened State
  import opened Graph
  import ApiCallTool

  // ---------------------------------------------------------------------------
  // Tool registry
  // ---------------------------------------------------------------------------

  /** The three registered tools. */
  datatype ToolKind = DataAnalyzer | WebSearcher | ApiCaller

  /** The registry key of each tool. */
  function ToolName(k: ToolKind): string {
    match k
    case DataAnalyzer => "data_analyzer"
    case WebSearcher => "web_searcher"
    case ApiCaller => "api_caller"
  }

  /** The keys of the `tools` dictionary. */
  const RegisteredNames: set<string> := {"data_analyzer", "web_searcher", "api_caller"}

  /** `tools[name]` guarded by `name in tools`. */
  function Lookup(name: string): (r: Option<ToolKind>)
    ensures r.Some? <==> name in RegisteredNames
    ensures r.Some? ==> ToolName(r.value) == name
  {
    if name == "data_analyzer" then Some(DataAnalyzer)
    else if name == "web_searcher" then Some(WebSearcher)
    else if name == "api_caller" then Some(ApiCaller)
    else None
  }

  /** Looking a tool up by its own key finds that tool. */
  lemma LookupToolName(k: ToolKind)
    ensures Lookup(ToolName(k)) == Some(k)
  {
  }

  /** What `tool.invoke(query)` does: return a value (already passed through
      `str`) or raise an exception (kept as the text `f"{e}"` would give). */
  datatype ToolOutcome = Returned(text: string) | Raised(error: string)

  /** The two prompts the graph sends to the language model, reduced to the
      data they carry: the question to plan for, and the question plus the
      evidence to answer from. */
  datatype Prompt = PlanPrompt(question: string) | SynthesisPrompt(question: string, evidence: string)

  /** The collaborators outside the model: the chat model and the two tools
      whose internals are file, network and model access. */
  datatype Env = Env(
    complete: Prompt -> string,
    analyze: string -> ToolOutcome,
    search: string -> ToolOutcome)

  /** `tools[k].invoke(query)`. The `api_caller` tool is the dummy API and
      never raises. */
  function Invoke(env: Env, k: ToolKind, query: string): (r: ToolOutcome)
    ensures k == ApiCaller ==> r.Returned?
    ensures k == ApiCaller ==> (r.text == ApiCallTool.YouthFund <==> Contains(query, ApiCallTool.YouthKeyword))
    ensures k == ApiCaller ==> (r.text == ApiCallTool.GeneralFund <==> !Contains(query, ApiCallTool.YouthKeyword))
  {
    match k
    case DataAnalyzer => env.analyze(query)
    case WebSearcher => env.search(query)
    case ApiCaller => Returned(ApiCallTool.CallApi(query))
  }

  // ---------------------------------------------------------------------------
  // Planner
  // ---------------------------------------------------------------------------

  /** One line's contribution to the plan: the stripped line, unless it is
      blank. */
  function KeptLine(line: string): (r: seq<string>)
    ensures |r| <= 1
    ensures forall k :: 0 <= k < |r| ==> r[k] != [] && IsStripped(r[k])
    ensures '\n' !in line ==> forall k :: 0 <= k < |r| ==> '\n' !in r[k]
  {
    StripKeepsChars(line, '\n');
    if Strip(line) != [] then [Strip(line)] else []
  }

  /** `[line.strip() for line in lines if line.strip()]`. */
  function KeepNonBlank(lines: seq<string>): (r: seq<string>)
    ensures |r| <= |lines|
    ensures forall k :: 0 <= k < |r| ==> r[k] != [] && IsStripped(r[k])
    ensures (forall j :: 0 <= j < |lines| ==> '\n' !in lines[j]) ==> forall k :: 0 <= k < |r| ==> '\n' !in r[k]
  {
    if lines == [] then [] else KeptLine(lines[0]) + KeepNonBlank(lines[1..])
  }

  /** The plan the planner builds from the model's text: every non-blank line,
      stripped, in order. No line is dropped for lacking a `[Tool:` marker. */
  function PlanLines(text: string): (r: seq<string>)
    ensures forall k :: 0 <= k < |r| ==> r[k] != [] && IsStripped(r[k]) && '\n' !in r[k]
  {
    SplitCharPieces(text, '\n');
    KeepNonBlank(Split(text, "\n"))
  }

  /** `planner_node`: ask the model for a plan for the last message and start
      with no past steps. */
  function PlannerNode(s: RunState, env: Env): (r: RunState)
    requires |s.messages| > 0
    ensures r.messages == s.messages && r.pastSteps == []
    ensures forall k :: 0 <= k < |r.plan| ==> r.plan[k] != [] && IsStripped(r.plan[k]) && '\n' !in r.plan[k]
    ensures r.plan == PlanLines(env.complete(PlanPrompt(s.messages[|s.messages| - 1].content)))
  {
    var text := env.complete(PlanPrompt(s.messages[|s.messages| - 1].content));
    s.(plan := PlanLines(text), pastSteps := [])
  }

  /** Filtering distributes over concatenation. */
  lemma {:induction false} KeepNonBlankAppend(a: seq<string>, b: seq<string>)
    ensures KeepNonBlank(a + b) == KeepNonBlank(a) + KeepNonBlank(b)
    decreases |a|
  {
    if a == [] {
      assert a + b == b;
    } else {
      assert (a + b)[0] == a[0];
      assert (a + b)[1..] == a[1..] + b;
      KeepNonBlankAppend(a[1..], b);
      assert KeepNonBlank(a + b) == KeptLine(a[0]) + (KeepNonBlank(a[1..]) + KeepNonBlank(b));
    }
  }

  /** Lines joined by a line break plan as their two plans one after the
      other: order is kept and lines are handled independently. */
  lemma PlanLinesAppend(a: string, b: string)
    ensures PlanLines(a + "\n" + b) == PlanLines(a) + PlanLines(b)
  {
    SplitCharAppend(a, '\n', b);
    KeepNonBlankAppend(Split(a, "\n"), Split(b, "\n"));
  }

  /** A single line becomes one step, stripped, unless it is blank. */
  lemma PlanLinesOneLine(line: string)
    requires '\n' !in line
    ensures PlanLines(line) == if IsBlank(line) then [] else [Strip(line)]
  {
    ContainsChar(line, '\n');
    assert Split(line, "\n") == [line];
  }

  /** The plan is empty exactly when the model's text is all white space. */
  lemma {:induction false} PlanLinesEmpty(text: string)
    ensures PlanLines(text) == [] <==> IsBlank(text)
    decreases |text|
  {
    if '\n' !in text {
      PlanLinesOneLine(text);
    } else {
      var a, b := SplitAtFirstChar(text, '\n');
      PlanLinesOneLine(a);
      PlanLinesEmpty(b);
      PlanLinesAppend(a, b);
      BlankConcat(a, '\n', b);
    }
  }

  /** Lines that are already plan steps survive the filter unchanged. */
  lemma {:induction false} KeepNonBlankOfSteps(lines: seq<string>)
    requires forall k :: 0 <= k < |lines| ==> lines[k] != [] && IsStripped(lines[k])
    ensures KeepNonBlank(lines) == lines
    decreases |lines|
  {
    if lines != [] {
      StripOfStripped(lines[0]);
      KeepNonBlankOfSteps(lines[1..]);
    }
  }

  /** Writing a plan one step per line and planning from that text gives the
      plan back. */
  lemma PlanLinesOfJoin(steps: seq<string>)
    requires forall k :: 0 <= k < |steps| ==> steps[k] != [] && IsStripped(steps[k]) && '\n' !in steps[k]
    ensures PlanLines(Join("\n", steps)) == steps
  {
    if steps == [] {
      PlanLinesOneLine("");
    } else {
      SplitJoinChar('\n', steps);
      KeepNonBlankOfSteps(steps);
    }
  }

  // ---------------------------------------------------------------------------
  // Executor
  // ---------------------------------------------------------------------------

  /** The marker that opens the tool name of a step. */
  const ToolMarker: string := "[Tool: "

  /** A parsed step: the tool name and the sub-query passed to it. */
  datatype ParsedStep = ParsedStep(toolName: string, query: string)

  /** The `try` block of `executor_node`:
      `tool_name = step.split("[Tool: ")[1].split("]")[0]` and
      `query = step.split("]")[1].strip()`; `None` is the `IndexError`. */
  function ParseStep(step: string): (r: Option<ParsedStep>)
    ensures r.None? <==> !Contains(step, ToolMarker) || !Contains(step, "]")
    ensures r.Some? ==> !Contains(r.value.toolName, "]")
    ensures r.Some? ==> IsStripped(r.value.query) && !Contains(r.value.query, "]")
  {
    match SplitPiece(step, ToolMarker, 1)
    case None => None
    case Some(afterMarker) =>
      var toolName := SplitPiece(afterMarker, "]", 0).value;
      match SplitPiece(step, "]", 1)
      case None => None
      case Some(piece) =>
        StripKeepsAbsence(piece, "]");
        Some(ParsedStep(toolName, Strip(piece)))
  }

  /** Text the model may put in front of a step, such as the `1. ` of the
      numbered examples in the planner prompt: it holds no bracket. */
  predicate IsNumbering(pre: string) {
    '[' !in pre && ']' !in pre
  }

  /** A step written the way the planner prompt asks for, after the
      numbering `pre`: `<pre>[Tool: <toolName>] <query>`. */
  function FormatStep(pre: string, toolName: string, query: string): string {
    pre + ToolMarker + toolName + "] " + query
  }

  /** The first marker of `pre + [Tool: + rest` is the one after `pre`, so
      the split on the marker starts with `pre`. */
  lemma SplitAfterNumbering(pre: string, rest: string)
    requires '[' !in pre
    ensures Split(pre + ToolMarker + rest, ToolMarker) == [pre] + Split(rest, ToolMarker)
  {
    var s := pre + ToolMarker + rest;
    var m := |ToolMarker|;
    forall j: nat | j < |pre|
      ensures !OccursAt(s, ToolMarker, j)
    {
      if j + m <= |s| {
        assert s[j..j + m][0] == s[j] == pre[j];
      }
    }
    assert s[|pre|..|pre| + m] == ToolMarker;
    FindFirst(s, ToolMarker, |pre|);
    assert s[..|pre|] == pre;
    assert s[|pre| + m..] == rest;
  }

  /** No match of the marker starts inside the tool name or at the `]` that
      closes it. */
  lemma NoMarkerBeforeBracket(name: string, rest: string)
    requires !Contains(name, ToolMarker)
    ensures forall j: nat :: j <= |name| ==> !OccursAt(name + "]" + rest, ToolMarker, j)
  {
    var t := name + "]" + rest;
    forall j: nat | j <= |name|
      ensures !OccursAt(t, ToolMarker, j)
    {
      if j + |ToolMarker| <= |name| {
        assert t[j..j + |ToolMarker|] == name[j..j + |ToolMarker|];
        assert !OccursAt(name, ToolMarker, j);
      } else if j + |ToolMarker| <= |t| {
        assert t[j..j + |ToolMarker|][|name| - j] == t[|name|] == ']';
        assert ']' !in ToolMarker;
      }
    }
  }

  /** The text after the marker, cut at the next marker, still begins with
      the tool name and its `]`. */
  lemma HeadKeepsName(name: string, rest: string)
    requires ']' !in name && !Contains(name, ToolMarker)
    ensures SplitPiece(Split(name + "]" + rest, ToolMarker)[0], "]", 0) == Some(name)
  {
    var t := name + "]" + rest;
    var head := Split(t, ToolMarker)[0];
    NoMarkerBeforeBracket(name, rest);
    SplitHead(t, ToolMarker);
    assert head[..|name|] == name && head[|name|] == ']';
    assert head == name + "]" + head[|name| + 1..];
    SplitCharCons(name, ']', head[|name| + 1..]);
  }

  /** The tool name is read back from a well-formed step. */
  lemma ToolNameOfFormat(pre: string, name: string, query: string)
    requires IsNumbering(pre) && ']' !in name && !Contains(name, ToolMarker)
    ensures SplitPiece(FormatStep(pre, name, query), ToolMarker, 1).Some?
    ensures SplitPiece(SplitPiece(FormatStep(pre, name, query), ToolMarker, 1).value, "]", 0) == Some(name)
  {
    var rest := name + "]" + (" " + query);
    assert FormatStep(pre, name, query) == pre + ToolMarker + rest;
    SplitAfterNumbering(pre, rest);
    HeadKeepsName(name, " " + query);
  }

  /** The query is read back, with its leading space, from a well-formed
      step. */
  lemma QueryOfFormat(pre: string, name: string, query: string)
    requires IsNumbering(pre) && ']' !in name && ']' !in query
    ensures SplitPiece(FormatStep(pre, name, query), "]", 1) == Some(" " + query)
  {
    assert ']' !in pre + ToolMarker + name;
    assert FormatStep(pre, name, query) == (pre + ToolMarker + name) + "]" + (" " + query);
    SplitCharCons(pre + ToolMarker + name, ']', " " + query);
    ContainsChar(" " + query, ']');
  }

  /** Formatting a step and parsing it gives back the tool name and the
      stripped query, whatever numbering comes before it, provided the name
      holds neither `]` nor the marker and the query holds no `]`. */
  lemma ParseFormatStep(pre: string, name: string, query: string)
    requires IsNumbering(pre) && ']' !in name && !Contains(name, ToolMarker) && ']' !in query
    ensures ParseStep(FormatStep(pre, name, query)) == Some(ParsedStep(name, Strip(query)))
  {
    ToolNameOfFormat(pre, name, query);
    QueryOfFormat(pre, name, query);
    StripLeadingSpace(' ', query);
  }

  /** The piece after the first `]` of a step whose query holds a `]` is
      the text up to that `]`. */
  lemma QueryOfBracket(pre: string, name: string, q: string, rest: string)
    requires IsNumbering(pre) && ']' !in name && ']' !in q
    ensures SplitPiece(FormatStep(pre, name, q + "]" + rest), "]", 1) == Some(" " + q)
  {
    var head := pre + ToolMarker + name;
    var tail := (" " + q) + "]" + rest;
    assert ']' !in head;
    assert FormatStep(pre, name, q + "]" + rest) == head + "]" + tail;
    SplitCharCons(head, ']', tail);
    assert ']' !in " " + q;
    SplitCharCons(" " + q, ']', rest);
  }

  /** A query holding a `]` is cut at it: `step.split("]")[1]` is the text
      between the first and the second `]`, so only that part, stripped,
      reaches the tool. */
  lemma ParseBracketQuery(pre: string, name: string, q: string, rest: string)
    requires IsNumbering(pre) && ']' !in name && !Contains(name, ToolMarker) && ']' !in q
    ensures ParseStep(FormatStep(pre, name, q + "]" + rest)) == Some(ParsedStep(name, Strip(" " + q)))
  {
    ToolNameOfFormat(pre, name, q + "]" + rest);
    QueryOfBracket(pre, name, q, rest);
  }

  /** `1. [Tool: web_searcher] [2024] 트렌드` ("trends") sends the query
      `[2024` to the web searcher: the text after the year's `]` is lost. */
  lemma BracketYearQuery()
    ensures ParseStep(FormatStep("1. ", "web_searcher", "[2024] 트렌드")) == Some(ParsedStep("web_searcher", "[2024"))
  {
    AbsentFirstChar("web_searcher", ToolMarker);
    assert "[2024] 트렌드" == "[2024" + "]" + " 트렌드";
    ParseBracketQuery("1. ", "web_searcher", "[2024", " 트렌드");
    var year := "[2024";
    assert " " + year == [' '] + year;
    StripLeadingSpace(' ', year);
    PrintableNotSpace(year[0]);
    PrintableNotSpace(year[|year| - 1]);
    StripOfStripped(year);
  }

  /** The evidence text recorded when the step is malformed ("error: the plan
      format is wrong"). */
  const MalformedStepText: string := "오류: 계획 형식이 잘못되었습니다."

  /** The evidence text recorded for an unregistered tool ("error: unknown tool"). */
  const UnknownToolText: string := "오류: 알 수 없는 도구입니다."

  /** The prefix of the evidence text recorded when a tool raises ("error while
      running the tool: "). */
  const ToolErrorPrefix: string := "도구 실행 중 오류 발생: "

  /** The four ways `executor_node` can treat the head step. */
  datatype StepKind = Malformed | UnknownTool(name: string) | KnownTool(tool: ToolKind, query: string)

  /** Parse the step, then look its tool up. */
  function Classify(step: string): (r: StepKind)
    ensures r.Malformed? <==> ParseStep(step).None?
    ensures r.UnknownTool? <==> ParseStep(step).Some? && ParseStep(step).value.toolName !in RegisteredNames
    ensures r.KnownTool? ==> ToolName(r.tool) == ParseStep(step).value.toolName && r.query == ParseStep(step).value.query
  {
    match ParseStep(step)
    case None => Malformed
    case Some(p) =>
      match Lookup(p.toolName)
      case None => UnknownTool(p.toolName)
      case Some(k) => KnownTool(k, p.query)
  }

  /** The head step names a registered tool, so the executor consumes it. */
  predicate Runnable(step: string) {
    Classify(step).KnownTool?
  }

  /** A step written the way the planner prompt asks for is classified by
      its tool name, with the stripped query. */
  lemma ClassifyFormatStep(pre: string, name: string, query: string)
    requires IsNumbering(pre) && ']' !in name && !Contains(name, ToolMarker) && ']' !in query
    ensures Classify(FormatStep(pre, name, query))
              == match Lookup(name) case None => UnknownTool(name) case Some(k) => KnownTool(k, Strip(query))
  {
    ParseFormatStep(pre, name, query);
  }

  /** The evidence text of a tool call: its value, or the error text. */
  function OutcomeText(o: ToolOutcome): (r: string)
    ensures o.Raised? ==> r == ToolErrorPrefix + o.error
  {
    match o
    case Returned(t) => t
    case Raised(e) => ToolErrorPrefix + e
  }

  /** The evidence text the executor records for a step. */
  function StepEvidence(env: Env, step: string): string {
    match Classify(step)
    case Malformed => MalformedStepText
    case UnknownTool(_) => UnknownToolText
    case KnownTool(k, q) => OutcomeText(Invoke(env, k, q))
  }

  /** `executor_node`: run the head step of the plan and record one past step.
      Only a step naming a registered tool leaves the plan; a malformed step
      or an unknown tool returns no `plan` update, so the plan stays as it
      was. Python raises `IndexError` on an empty plan. */
  function ExecutorNode(s: RunState, env: Env): (r: RunState)
    requires s.plan != []
    ensures r.messages == s.messages
    ensures |r.pastSteps| == |s.pastSteps| + 1 && r.pastSteps[..|s.pastSteps|] == s.pastSteps
    ensures r.pastSteps[|s.pastSteps|].step == s.plan[0]
    ensures Runnable(s.plan[0]) ==> r.plan == s.plan[1..]
    ensures !Runnable(s.plan[0]) ==> r.plan == s.plan
    ensures ParseStep(s.plan[0]).None? ==> r.pastSteps[|s.pastSteps|].result == MalformedStepText
    ensures Classify(s.plan[0]).UnknownTool? ==> r.pastSteps[|s.pastSteps|].result == UnknownToolText
    ensures Classify(s.plan[0]).KnownTool? && Invoke(env, Classify(s.plan[0]).tool, Classify(s.plan[0]).query).Raised? ==>
              r.pastSteps[|s.pastSteps|].result
                == ToolErrorPrefix + Invoke(env, Classify(s.plan[0]).tool, Classify(s.plan[0]).query).error
    ensures Classify(s.plan[0]).KnownTool? && Invoke(env, Classify(s.plan[0]).tool, Classify(s.plan[0]).query).Returned? ==>
              r.pastSteps[|s.pastSteps|].result == Invoke(env, Classify(s.plan[0]).tool, Classify(s.plan[0]).query).text
  {
    var step := s.plan[0];
    var entry := PastStep(step, StepEvidence(env, step));
    if Runnable(step) then
      s.(plan := s.plan[1..], pastSteps := s.pastSteps + [entry])
    else
      s.(pastSteps := s.pastSteps + [entry])
  }

  // ---------------------------------------------------------------------------
  // Synthesizer
  // ---------------------------------------------------------------------------

  /** The labelled block of one past step ("plan step:" / "evidence
      collected:"). */
  function Block(p: PastStep): string {
    "**실행 계획:** " + p.step + "\n**수집된 근거:**\n" + p.result
  }

  /** The blocks of all past steps, in order. */
  function Blocks(ps: seq<PastStep>): (r: seq<string>)
    ensures |r| == |ps|
    ensures forall k :: 0 <= k < |ps| ==> r[k] == Block(ps[k])
  {
    if ps == [] then [] else [Block(ps[0])] + Blocks(ps[1..])
  }

  /** The evidence text: the blocks joined by a blank line. */
  function Evidence(ps: seq<PastStep>): string {
    Join("\n\n", Blocks(ps))
  }

  /** No past steps give no evidence; a later step's block comes after all
      earlier ones, separated by a blank line. */
  lemma EvidenceAppend(ps: seq<PastStep>, p: PastStep)
    ensures Evidence([]) == []
    ensures Evidence(ps + [p]) == if ps == [] then Block(p) else Evidence(ps) + "\n\n" + Block(p)
  {
    assert Blocks(ps + [p]) == Blocks(ps) + [Block(p)];
    JoinAppend("\n\n", Blocks(ps), Block(p));
  }

  /** `synthesizer_node`: answer from the evidence and append the model's
      reply, verbatim, as one AI message. The question is the first message's
      content. */
  function SynthesizerNode(s: RunState, env: Env): (r: RunState)
    requires |s.messages| > 0
    ensures r.plan == s.plan && r.pastSteps == s.pastSteps
    ensures |r.messages| == |s.messages| + 1 && r.messages[..|s.messages|] == s.messages
    ensures r.messages[|s.messages|].role == Ai && r.messages[|s.messages|].name == None
    ensures r.messages[|s.messages|].content
              == env.complete(SynthesisPrompt(s.messages[0].content, Evidence(s.pastSteps)))
  {
    var answer := env.complete(SynthesisPrompt(s.messages[0].content, Evidence(s.pastSteps)));
    s.(messages := s.messages + [Message(Ai, answer, None)])
  }

  // ---------------------------------------------------------------------------
  // Graph
  // ---------------------------------------------------------------------------

  /** The graph the module compiles: the three nodes wired together. Each node raises
      `IndexError` where Python indexes an empty list: the planner and the
      synthesizer on an empty message list, the executor on an empty plan. */
  function BuildGraph(env: Env): (g: Nodes)
    ensures forall s {:trigger g.planner(s)} :: g.planner(s) == if |s.messages| == 0 then None else Some(PlannerNode(s, env))
    ensures forall s {:trigger g.executor(s)} :: g.executor(s) == if s.plan == [] then None else Some(ExecutorNode(s, env))
    ensures forall s {:trigger g.synthesizer(s)} :: g.synthesizer(s) == if |s.messages| == 0 then None else Some(SynthesizerNode(s, env))
  {
    Nodes(
      (s: RunState) => if |s.messages| == 0 then None else Some(PlannerNode(s, env)),
      (s: RunState) => if s.plan == [] then None else Some(ExecutorNode(s, env)),
      (s: RunState) => if |s.messages| == 0 then None else Some(SynthesizerNode(s, env)))
  }
}
