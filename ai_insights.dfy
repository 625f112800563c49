/** `POST /api/farmer/ai-insights`: a farmer's sales analytics go to the LLM and its text comes back
    as the insights; a failure is answered 429 when its message points at a rate limit and 500
    otherwise. */
module AiInsights {
  import opened Wrappers
  import opened Strings
  import opened Types
  import opened JsonValues
  import opened Llm

  /** The payloads: 401, the insights, the rate-limit payload (`rateLimited: true` with the fixed
      waiting advice), and the generic failure with its `error` text. */
  datatype InsightsResponse =
    | Unauthorized
    | Insights(insights: string)
    | RateLimitExceeded
    | InsightsFailed(error: string)
  {
    function Status(): nat
    {
      match this
      case Unauthorized => 401
      case Insights(_) => 200
      case RateLimitExceeded => 429
      case InsightsFailed(_) => 500
    }

    /** The `insights` text each payload carries. */
    function InsightsText(): string
    {
      match this
      case Unauthorized => ""
      case Insights(text) => text
      case RateLimitExceeded => RateLimitAdvice
      case InsightsFailed(_) => FailureAdvice
    }
  }

  const RateLimitAdvice := "The AI service is currently experiencing high demand. Please wait a moment and try again. Rate limits are in place to ensure fair usage for all users."
  const FailureAdvice := "Sorry, I encountered an error while analyzing your data. Please try again later."
  const FailureHead := "Failed to get AI insights: "

  /** `session.user?.farmId` is present and not empty. */
  predicate HasFarm(session: Session)
  {
    session.Some? && session.value.farmId != ""
  }

  /** The catch block's rate-limit test. */
  predicate NamesRateLimit(msg: string)
  {
    Contains(msg, "429") || Contains(msg, "Rate limit") || Contains(msg, "Too Many Requests")
  }

  /** The catch block, on the thrown error's message. */
  function Caught(message: string): (r: InsightsResponse)
    ensures r.RateLimitExceeded? <==> NamesRateLimit(DefaultMessage(message))
    ensures !r.RateLimitExceeded? ==> r == InsightsFailed(FailureHead + DefaultMessage(message))
  {
    var m := DefaultMessage(message);
    if NamesRateLimit(m) then RateLimitExceeded else InsightsFailed(FailureHead + m)
  }

  /** The request body: one `request.json()` rejects (or, being `null`, cannot be destructured),
      with the thrown message, or an object whose `analytics` may be missing. */
  datatype InsightsBody = NotJson(parseError: string) | Analytics(analytics: Option<Json>)

  /** `callLLM(userPrompt, systemPrompt)` as a function of the analytics. */
  type InsightsCall = Option<Json> -> Reply

  const AnalystSystemPrompt := "You are an expert agricultural business analyst. Analyze farm sales data and return structured JSON insights. Focus on weather impact, demand planning, and local consumer preferences."
  const AnalystPromptHead := "Analyze the farm sales data and return a JSON object with exactly three sections.\n\nOUTPUT FORMAT (JSON only, no markdown, no code blocks):\n{\n  \"weatherImpact\": {\n    \"title\": \"Weather Impact Analysis\",\n    \"insights\": [\n      \"Insight 1 about weather impact\",\n      \"Insight 2 about weather impact\",\n      \"Insight 3 about weather impact\"\n    ]\n  },\n  \"demandPlanning\": {\n    \"title\": \"Demand Planning\",\n    \"insights\": [\n      \"Insight 1 about demand planning\",\n      \"Insight 2 about demand planning\",\n      \"Insight 3 about demand planning\"\n    ]\n  },\n  \"consumerPreferences\": {\n    \"title\": \"Local Consumer Preferences\",\n    \"insights\": [\n      \"Insight 1 about consumer preferences\",\n      \"Insight 2 about consumer preferences\",\n      \"Insight 3 about consumer preferences\"\n    ]\n  }\n}\n\nREQUIREMENTS:\n- Return ONLY valid JSON, no other text\n- Each section must have exactly 3-5 insights\n- Insights should be concise, actionable, and agriculture-relevant\n- Use specific numbers and percentages from the data when available\n- If data is missing, provide generic but relevant insights\n\nData:\n"

  /** The call the handler makes on an LLM, with `stringify` standing for `JSON.stringify(_, null, 2)`
      as the template literal shows it (`"undefined"` for a missing value). */
  function AskAnalyst(llm: LlmCall, stringify: Option<Json> -> string): InsightsCall
  {
    (analytics: Option<Json>) => llm(AnalystPromptHead + stringify(analytics), AnalystSystemPrompt)
  }

  /** The handler. */
  function Respond(session: Session, body: InsightsBody, ask: InsightsCall): InsightsResponse
  {
    if !HasFarm(session) then Unauthorized
    else match body
      case NotJson(message) => Caught(message)
      case Analytics(analytics) =>
        match ask(analytics)
        case Text(text) => Insights(text)
        case Failure(e) => Caught(Message(e))
  }

  // ---------------------------------------------------------------- properties

  /** 401 exactly without a farm; otherwise the LLM's text unchanged, or the failure of the
      thrown message: 429 exactly when that names a rate limit, else 500 with the message. */
  lemma ResponseCases(session: Session, body: InsightsBody, ask: InsightsCall)
    ensures var r := Respond(session, body, ask);
      (r.Status() == 401 <==> !HasFarm(session))
      && (HasFarm(session) && body.Analytics? ==>
            var reply := ask(body.analytics);
            (r.Status() == 200 <==> reply.Text?)
            && (reply.Text? ==> r.insights == reply.text)
            && (reply.Failure? ==> r == Caught(Message(reply.error))))
      && (HasFarm(session) && body.NotJson? ==> r == Caught(body.parseError))
      && (r.Status() == 429 ==> r.InsightsText() == RateLimitAdvice)
  {
  }

  /** The LLM client's rate-limit error, thrown once its retries are used up, is answered 429. */
  lemma ExhaustedRateLimitIs429(session: Session, body: InsightsBody, ask: InsightsCall)
    requires HasFarm(session) && body.Analytics?
    requires ask(body.analytics) == Reply.Failure(RateLimited)
    ensures Respond(session, body, ask).Status() == 429
  {
    RateLimitedMentions429();
    assert DefaultMessage(Message(RateLimited)) == Message(RateLimited);
  }

  /** An error text that names no rate limit reaches the caller in full after the fixed head. */
  lemma OtherErrorsKeepTheirMessage(message: string)
    requires message != "" && !NamesRateLimit(message)
    ensures Caught(message).Status() == 500
    ensures Caught(message).error == FailureHead + message
    ensures Caught(message).InsightsText() == FailureAdvice
  {
  }
}
