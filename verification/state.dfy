/** The run state the graph nodes share (`AgentState` in `src/graph/state.py`,
    plus the `plan` and `past_steps` keys the nodes of `src/graph/builder.py`
    read and write). */
module State {

  import opened Wrappers

  /** `HumanMessage` or `AIMessage`. */
  datatype Role = Human | Ai

  /** A chat message: its kind, its text and its optional `name` tag. */
  datatype Message = Message(role: Role, content: string, name: Option<string>)

  /** One `past_steps` entry: the plan step's text and the evidence text
      recorded for it. */
  datatype PastStep = PastStep(step: string, result: string)

  /** The state of one graph run. `messages` is append-only; `plan` and
      `pastSteps` are overwritten by whichever node returns them. */
  datatype RunState = RunState(messages: seq<Message>, plan: seq<string>, pastSteps: seq<PastStep>)

  /** The step texts of a `past_steps` list, in order. */
  function StepsOf(ps: seq<PastStep>): (r: seq<string>)
    ensures |r| == |ps|
    ensures forall k :: 0 <= k < |ps| ==> r[k] == ps[k].step
  {
    if ps == [] then [] else [ps[0].step] + StepsOf(ps[1..])
  }

  /** A list of step texts matching the entries one by one is their
      `StepsOf`. */
  lemma StepsOfIs(ps: seq<PastStep>, xs: seq<string>)
    requires |ps| == |xs|
    requires forall k :: 0 <= k < |ps| ==> ps[k].step == xs[k]
    ensures StepsOf(ps) == xs
  {
  }
}
