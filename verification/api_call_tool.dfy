/** The dummy policy-fund API of `src/tools/api_call_tool.py`: a total
    function of the topic text that answers with one of two fixed product
    records, serialised by `json.dumps(..., ensure_ascii=False)`. */
module ApiCallTool {

  import opened PyStr

  /** The keyword ("youth") whose presence in the topic selects the youth product. */
  const YouthKeyword: string := "청년"

  /** The youth start-up fund record as `json.dumps` writes it. */
  const YouthFund: string :=
    "{\"product_name\": \"청년 소상공인 특별자금\", \"interest_rate\": \"2.5%\", \"limit\": \"1억원 이내\", \"conditions\": \"만 39세 이하 청년 창업가\"}"

  /** The general small-business growth fund record as `json.dumps` writes it. */
  const GeneralFund: string :=
    "{\"product_name\": \"일반 소상공인 성장자금\", \"interest_rate\": \"3.0%~\", \"limit\": \"5억원 이내\", \"conditions\": \"업력 1년 이상 소상공인\"}"

  /** The two answers are different texts. */
  lemma FundsDiffer()
    ensures YouthFund != GeneralFund
  {
    assert |YouthFund| == 109 && |GeneralFund| == 108;
  }

  /** `_get_policy_fund_info(topic)`: the youth product exactly when the topic
      mentions the keyword, the general product otherwise; it never fails. */
  function PolicyFundInfo(topic: string): (r: string)
    ensures r == YouthFund <==> Contains(topic, YouthKeyword)
    ensures r == GeneralFund <==> !Contains(topic, YouthKeyword)
  {
    FundsDiffer();
    if Contains(topic, YouthKeyword) then YouthFund else GeneralFund
  }

  /** `_call_api(query)`, the function registered as the `api_caller` tool. */
  function CallApi(query: string): (r: string)
    ensures r == YouthFund <==> Contains(query, YouthKeyword)
    ensures r == GeneralFund <==> !Contains(query, YouthKeyword)
  {
    PolicyFundInfo(query)
  }

  /** `_call_api` passes its query through unchanged. */
  lemma CallApiIsPolicyFundInfo(query: string)
    ensures CallApi(query) == PolicyFundInfo(query)
  {
  }

  /** Text around a topic never loses the youth product: a topic that gets it
      still gets it with anything added before or after. */
  lemma YouthSurvivesContext(before: string, topic: string, after: string)
    requires PolicyFundInfo(topic) == YouthFund
    ensures PolicyFundInfo(before + topic + after) == YouthFund
  {
    var i: nat :| i <= |topic| && OccursAt(topic, YouthKeyword, i);
    var s := before + topic + after;
    assert s[|before| + i..|before| + i + |YouthKeyword|] == topic[i..i + |YouthKeyword|];
    assert OccursAt(s, YouthKeyword, |before| + i);
  }
}
