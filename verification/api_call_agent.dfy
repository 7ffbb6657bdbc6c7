/** The stand-alone policy-fund agent of `src/agents/api_call_agent.py`. It
    carries its own copy of the dummy API, written out again in that file. */
module ApiCallAgent {

  import opened Wrappers
  import opened PyStr
  import opened State
  import ApiCallTool

  /** The agent file's own copy of the youth product record. */
  const AgentYouthFund: string :=
    "{\"product_name\": \"청년 소상공인 특별자금\", \"interest_rate\": \"2.5%\", \"limit\": \"1억원 이내\", \"conditions\": \"만 39세 이하 청년 창업가\"}"

  /** The agent file's own copy of the general product record. */
  const AgentGeneralFund: string :=
    "{\"product_name\": \"일반 소상공인 성장자금\", \"interest_rate\": \"3.0%~\", \"limit\": \"5억원 이내\", \"conditions\": \"업력 1년 이상 소상공인\"}"

  /** The `name` tag the agent puts on its reply. */
  const AgentName: string := "api_call_agent"

  /** `get_policy_fund_info(topic)`: the youth record exactly when the topic
      mentions "청년", the general record otherwise. */
  function GetPolicyFundInfo(topic: string): (r: string)
    ensures r == ApiCallTool.YouthFund <==> Contains(topic, ApiCallTool.YouthKeyword)
    ensures r == ApiCallTool.GeneralFund <==> !Contains(topic, ApiCallTool.YouthKeyword)
  {
    ApiCallTool.FundsDiffer();
    if Contains(topic, "청년") then AgentYouthFund else AgentGeneralFund
  }

  /** The duplicated function agrees with the tool's on every topic. */
  lemma AgentAgreesWithTool(topic: string)
    ensures GetPolicyFundInfo(topic) == ApiCallTool.PolicyFundInfo(topic)
  {
  }

  /** `api_call_agent(state)`: the `messages` update it returns, one human
      message tagged with the agent's name whose text answers the content of
      the last message. On an empty message list Python's `[-1]` raises
      `IndexError`, modelled as `None`. */
  function ApiCallAgentNode(messages: seq<Message>): (r: Option<seq<Message>>)
    ensures r.None? <==> messages == []
    ensures r.Some? ==> |r.value| == 1
    ensures r.Some? ==> r.value[0].role == Human && r.value[0].name == Some(AgentName)
    ensures r.Some? ==>
              (r.value[0].content == ApiCallTool.YouthFund <==> Contains(messages[|messages| - 1].content, ApiCallTool.YouthKeyword))
    ensures r.Some? ==> r.value[0].content == ApiCallTool.YouthFund || r.value[0].content == ApiCallTool.GeneralFund
  {
    if messages == [] then None
    else
      var query := messages[|messages| - 1].content;
      Some([Message(Human, GetPolicyFundInfo(query), Some(AgentName))])
  }

  /** The agent's reply is the policy-fund tool's answer to the last message,
      and only the last message matters. */
  lemma AgentAnswersLastMessage(earlier: seq<Message>, last: Message)
    ensures ApiCallAgentNode(earlier + [last])
              == Some([Message(Human, ApiCallTool.PolicyFundInfo(last.content), Some(AgentName))])
  {
    AgentAgreesWithTool(last.content);
  }
}
