/** What the page does with an agent's answer: the normalisation of the
    `result` payload into summary, details, action items and alerts, and the
    text of the assistant's reply for each way a request can end.

    Payloads are JSON values: the code reads fields with `?.` and `??` and
    checks only `Array.isArray`, so no field is known to be text. */
module Agent {
  import opened Wrappers

  datatype Json =
    | JNull
    | JBool(b: bool)
    | JNum(n: int)
    | JStr(s: string)
    | JArr(items: seq<Json>)
    | JObj(fields: map<string, Json>)

  /** `v?.name`: only an object has fields; `None` is `undefined`. */
  function Member(v: Option<Json>, name: string): (r: Option<Json>)
    ensures r.Some? <==> v.Some? && v.value.JObj? && name in v.value.fields
    ensures r.Some? ==> r.value == v.value.fields[name]
  {
    match v
    case Some(JObj(m)) => if name in m then Some(m[name]) else None
    case _ => None
  }

  /** Absent (`undefined`) or `null`: what `??` replaces. */
  predicate Nullish(v: Option<Json>)
  {
    v.None? || v.value.JNull?
  }

  /** `v ?? fallback`. */
  function Coalesce(v: Option<Json>, fallback: Json): (r: Json)
    ensures Nullish(v) ==> r == fallback
    ensures !Nullish(v) ==> r == v.value
  {
    if Nullish(v) then fallback else v.value
  }

  /** `Array.isArray(v) ? v : []`. */
  function ArrayOrEmpty(v: Option<Json>): (r: seq<Json>)
    ensures v.Some? && v.value.JArr? ==> r == v.value.items
    ensures !(v.Some? && v.value.JArr?) ==> r == []
  {
    if v.Some? && v.value.JArr? then v.value.items else []
  }

  /** The shape the page stores as `parsedResponse` and as `aiSummary`. */
  datatype Normalized = Normalized(summary: Json, details: Json, actionItems: seq<Json>, alerts: seq<Json>)

  /** `result?.response?.result`, passed through `parseLLMJson` when it is a
      string. `parse` stands for `parseLLMJson`, whose code is not part of
      this model; `None` is a null or undefined answer. */
  function Resolve(raw: Option<Json>, parse: string -> Option<Json>): (parsed: Option<Json>)
    ensures raw.Some? && raw.value.JStr? ==> parsed == parse(raw.value.s)
    ensures !(raw.Some? && raw.value.JStr?) ==> parsed == raw
  {
    if raw.Some? && raw.value.JStr? then parse(raw.value.s) else raw
  }

  const EmptyText: Json := JStr("")

  /** The field `name` of `parsed` is present and is an array. */
  predicate ArrayField(parsed: Option<Json>, name: string)
  {
    parsed.Some? && parsed.value.JObj? && name in parsed.value.fields && parsed.value.fields[name].JArr?
  }

  /** The four reads of the normalisation block. Summary and details are the
      empty text exactly when the field is absent, null, or itself the empty
      text; any other value is kept as it is, whatever its type. Action items
      and alerts are passed through exactly when they are arrays, elements
      unchecked, and are empty otherwise. */
  function Normalize(parsed: Option<Json>): (n: Normalized)
    ensures n.summary == EmptyText <==>
      Nullish(Member(parsed, "summary")) || Member(parsed, "summary") == Some(EmptyText)
    ensures n.details == EmptyText <==>
      Nullish(Member(parsed, "details")) || Member(parsed, "details") == Some(EmptyText)
    ensures !Nullish(Member(parsed, "summary")) ==> n.summary == parsed.value.fields["summary"]
    ensures !Nullish(Member(parsed, "details")) ==> n.details == parsed.value.fields["details"]
    ensures ArrayField(parsed, "action_items") ==> n.actionItems == parsed.value.fields["action_items"].items
    ensures ArrayField(parsed, "alerts") ==> n.alerts == parsed.value.fields["alerts"].items
    ensures !ArrayField(parsed, "action_items") ==> n.actionItems == []
    ensures !ArrayField(parsed, "alerts") ==> n.alerts == []
  {
    Normalized(
      Coalesce(Member(parsed, "summary"), EmptyText),
      Coalesce(Member(parsed, "details"), EmptyText),
      ArrayOrEmpty(Member(parsed, "action_items")),
      ArrayOrEmpty(Member(parsed, "alerts")))
  }

  const EmptyAnswer: Normalized := Normalized(EmptyText, EmptyText, [], [])

  /** Anything that is not an object, and an answer that did not parse,
      normalises to the empty response. */
  lemma NonObjectIsEmpty(parsed: Option<Json>)
    requires !(parsed.Some? && parsed.value.JObj?)
    ensures Normalize(parsed) == EmptyAnswer
  {
  }

  /** A well-formed answer, given as text, comes through field for field. */
  lemma WellFormedAnswer(text: string, parse: string -> Option<Json>, summary: string, details: string,
                         items: seq<Json>, alerts: seq<Json>)
    requires parse(text) == Some(JObj(map["summary" := JStr(summary), "details" := JStr(details),
                                          "action_items" := JArr(items), "alerts" := JArr(alerts)]))
    ensures Normalize(Resolve(Some(JStr(text)), parse)) == Normalized(JStr(summary), JStr(details), items, alerts)
  {
  }

  /** Free text holding `{"summary":"ok","alerts":["late"]}`: the missing
      fields default, the present ones come through. */
  lemma PartialAnswerExample(text: string, parse: string -> Option<Json>)
    requires parse(text) == Some(JObj(map["summary" := JStr("ok"), "alerts" := JArr([JStr("late")])]))
    ensures Normalize(Resolve(Some(JStr(text)), parse)) == Normalized(JStr("ok"), EmptyText, [], [JStr("late")])
  {
  }

  // ---------------------------------------------------------------------------
  // Outcomes and replies

  /** How `callAIAgent` ended: `success` with a `response` value, a reported
      failure with an optional `error` text, or a thrown exception. */
  datatype AgentOutcome =
    | Success(response: Option<Json>)
    | Reported(error: Option<string>)
    | Thrown

  /** The normalised answer of a successful call: a missing `result`, text
      that does not parse and anything else that is not an object give the
      empty answer; an object `result` is normalised as it is, unparsed. */
  function Answer(response: Option<Json>, parse: string -> Option<Json>): (n: Normalized)
    ensures Member(response, "result").None? ==> n == EmptyAnswer
    ensures var raw := Member(response, "result");
      raw.Some? && raw.value.JStr? ==> n == Normalize(parse(raw.value.s))
    ensures var parsed := Resolve(Member(response, "result"), parse);
      !(parsed.Some? && parsed.value.JObj?) ==> n == EmptyAnswer
    ensures var raw := Member(response, "result");
      raw.Some? && raw.value.JObj? ==> n == Normalize(raw)
  {
    Normalize(Resolve(Member(response, "result"), parse))
  }

  /** JavaScript truthiness of a JSON value. */
  predicate Truthy(v: Json)
  {
    match v
    case JNull => false
    case JBool(b) => b
    case JNum(n) => n != 0
    case JStr(s) => s != ""
    case JArr(_) => true
    case JObj(_) => true
  }

  const ResponseReceived: string := "Response received."
  const CouldNotProcess: string := "I could not process your request. "
  const PleaseTryAgain: string := "Please try again."
  const NetworkError: string := "A network error occurred. Please try again."

  /** `summary || details || 'Response received.'`. */
  function SuccessContent(n: Normalized): (content: Json)
    ensures Truthy(n.summary) ==> content == n.summary
    ensures !Truthy(n.summary) && Truthy(n.details) ==> content == n.details
    ensures !Truthy(n.summary) && !Truthy(n.details) ==> content == JStr(ResponseReceived)
    ensures Truthy(content)
  {
    if Truthy(n.summary) then n.summary
    else if Truthy(n.details) then n.details
    else JStr(ResponseReceived)
  }

  /** The reply to a reported failure: the error text, or a request to try
      again when there is none. */
  function FailureContent(error: Option<string>): (content: string)
    ensures |CouldNotProcess| <= |content| && content[..|CouldNotProcess|] == CouldNotProcess
    ensures error.Some? ==> content == CouldNotProcess + error.value
    ensures error.None? ==> content == CouldNotProcess + PleaseTryAgain
  {
    CouldNotProcess + error.GetOr(PleaseTryAgain)
  }

  /** The assistant message's content and `parsedResponse` for an outcome:
      only a success carries a parsed response. */
  function Reply(outcome: AgentOutcome, parse: string -> Option<Json>): (r: (Json, Option<Normalized>))
    ensures r.1.Some? <==> outcome.Success?
    ensures outcome.Success? ==> r.1 == Some(Answer(outcome.response, parse)) && r.0 == SuccessContent(r.1.value)
    ensures outcome.Reported? ==> r.0 == JStr(FailureContent(outcome.error))
    ensures outcome.Thrown? ==> r.0 == JStr(NetworkError)
    ensures Truthy(r.0)
  {
    match outcome
    case Success(response) =>
      var n := Answer(response, parse);
      (SuccessContent(n), Some(n))
    case Reported(error) => (JStr(FailureContent(error)), None)
    case Thrown => (JStr(NetworkError), None)
  }

  /** `aiSummary` after `generateAISummary`: replaced by the normalised
      answer on success, kept on a reported failure or an exception. */
  function SummaryAfter(previous: Option<Normalized>, outcome: AgentOutcome, parse: string -> Option<Json>): (r: Option<Normalized>)
    ensures outcome.Success? ==> r == Some(Answer(outcome.response, parse))
    ensures !outcome.Success? ==> r == previous
  {
    if outcome.Success? then Some(Answer(outcome.response, parse)) else previous
  }

  /** The chat reply and the dashboard summary normalise an answer the same
      way. */
  lemma SummaryMatchesReply(previous: Option<Normalized>, outcome: AgentOutcome, parse: string -> Option<Json>)
    requires outcome.Success?
    ensures SummaryAfter(previous, outcome, parse) == Reply(outcome, parse).1
  {
  }

  /** A string answer that fails to parse, or a missing `result`, is shown as
      the fixed acknowledgement. */
  lemma UnparsedAnswerAcknowledged(response: Option<Json>, parse: string -> Option<Json>)
    requires Member(response, "result").None? ||
             (Member(response, "result").value.JStr? && parse(Member(response, "result").value.s).None?)
    ensures Reply(Success(response), parse) == (JStr(ResponseReceived), Some(EmptyAnswer))
  {
  }
}
