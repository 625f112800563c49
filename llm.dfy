/** The Gemini client of lib/llm.ts: key validation, the retrying call with its error
    classification, the embedding with its hash fallback, and the nutrition-advice reply handling.
    The model and the Hugging Face endpoint are oracles passed in by the caller. */
module Llm {
  import opened Wrappers
  import opened Strings
  import opened JsonValues
  import opened Types

  const Placeholder := "your_gemini_api_key_here"
  const MinKeyLength := 20
  const GeminiModel := "gemini-2.0-flash-exp"
  const DefaultRetries := 3

  /** The errors `callLLM` throws; `Message` gives the text of each. */
  datatype LlmError =
    | KeyMissing          // GEMINI_API_KEY unset or empty
    | KeyInvalid          // the placeholder, or shorter than 20 characters
    | KeyMisconfigured    // any other refused key
    | InvalidKey          // the model reported an API-key problem
    | ModelNotFound
    | RateLimited
    | Generic(msg: string)
    | AfterRetries

  function Message(e: LlmError): string
  {
    match e
    case KeyMissing => "GEMINI" + KeyMissingTail
    case KeyInvalid => "GEMINI" + KeyInvalidTail
    case KeyMisconfigured => "GEMINI" + KeyMisconfiguredTail
    case InvalidKey => "Gemini" + InvalidKeyTail
    case ModelNotFound => "Gemini" + (" API error: Model " + GeminiModel + ModelNotFoundTail)
    case RateLimited => RateLimitedHead + "429" + RateLimitedTail
    case Generic(msg) => "Failed to call " + "Gemini" + (" API: " + msg)
    case AfterRetries => "Failed to call " + "Gemini" + " API after retries"
  }

  const KeyMissingTail := "_API_KEY is not configured. Please add it to your .env.local file. Get your API key from https://aistudio.google.com/app/apikey"
  const KeyInvalidTail := "_API_KEY is invalid. Please check your .env.local file. API key should be at least 20 characters long. Get your API key from https://aistudio.google.com/app/apikey"
  const KeyMisconfiguredTail := "_API_KEY is not configured correctly. Please check your .env.local file."
  const InvalidKeyTail := " API error: Invalid API key. Please check your GEMINI_API_KEY in .env.local file. Get your API key from https://aistudio.google.com/app/apikey"
  const ModelNotFoundTail := " not found. Please check if the model name is correct or try a different model."
  const RateLimitedHead := "Gemini API error: Rate limit exceeded ("
  const RateLimitedTail := " Too Many Requests). Please wait a moment and try again. The API has usage limits - you may need to wait before making more requests."

  /** What `callLLM` resolves to: the model's text, or the error it throws. */
  datatype Reply = Text(text: string) | Failure(error: LlmError)

  /** What the LLM call returns or throws: `callLLM(userPrompt, systemPrompt)`. */
  type LlmCall = (string, string) -> Reply

  /** `process.env.X?.trim() || ''`. */
  function TrimmedEnv(raw: Option<string>): string
  {
    if raw.Some? then Trim(raw.value) else ""
  }

  /** `getApiKey`: the trimmed key when it is set, not the placeholder and long enough; else ''. */
  function GetApiKey(raw: Option<string>): (r: string)
    ensures r != "" <==> TrimmedEnv(raw) != "" && TrimmedEnv(raw) != Placeholder && |TrimmedEnv(raw)| >= MinKeyLength
    ensures r != "" ==> r == TrimmedEnv(raw) && !IsJsWhitespace(r[0]) && !IsJsWhitespace(r[|r| - 1])
  {
    var key := TrimmedEnv(raw);
    if key == "" || key == Placeholder then ""
    else if |key| < MinKeyLength then ""
    else key
  }

  /** The error `callLLM` throws before any model call when `getApiKey` returned ''. */
  function KeyError(raw: Option<string>): LlmError
  {
    if raw.None? || raw.value == "" then KeyMissing
    else if Trim(raw.value) == Placeholder || |Trim(raw.value)| < MinKeyLength then KeyInvalid
    else KeyMisconfigured
  }

  /** Whenever the key is refused, a missing variable gives the "not configured" message and
      any other value the "invalid" one; the third message is never produced. */
  lemma KeyErrorCases(raw: Option<string>)
    requires GetApiKey(raw) == ""
    ensures raw.None? || raw.value == "" ==> KeyError(raw) == KeyMissing
    ensures raw.Some? && raw.value != "" ==> KeyError(raw) == KeyInvalid
  {
    if raw.Some? && raw.value != "" {
      assert TrimmedEnv(raw) == Trim(raw.value);
      if Trim(raw.value) == "" {
        assert |Trim(raw.value)| < MinKeyLength;
      }
    }
  }

  predicate MentionsRateLimit(msg: string)
  {
    Contains(msg, "429") || Contains(msg, "Too Many Requests") || Contains(msg, "Resource exhausted")
  }

  predicate MentionsApiKey(msg: string)
  {
    Contains(msg, "API_KEY") || Contains(msg, "api key") || Contains(msg, "API key")
  }

  predicate MentionsNotFound(msg: string)
  {
    Contains(msg, "not found") || Contains(msg, "404")
  }

  /** The message thrown for an error that is not retried, tested in a fixed order:
      API key, then model not found, then rate limit, then anything else. */
  function ClassifyError(msg: string): (r: LlmError)
    ensures r.InvalidKey? <==> MentionsApiKey(msg)
    ensures r.ModelNotFound? <==> !MentionsApiKey(msg) && MentionsNotFound(msg)
    ensures r.RateLimited? <==> !MentionsApiKey(msg) && !MentionsNotFound(msg) && MentionsRateLimit(msg)
    ensures r.Generic? <==> !MentionsApiKey(msg) && !MentionsNotFound(msg) && !MentionsRateLimit(msg)
    ensures r.Generic? ==> r.msg == msg
  {
    if MentionsApiKey(msg) then InvalidKey
    else if MentionsNotFound(msg) then ModelNotFound
    else if MentionsRateLimit(msg) then RateLimited
    else Generic(msg)
  }

  /** The prompt sent to the model: the system prompt and a blank line in front when there is one. */
  function FullPrompt(prompt: string, systemPrompt: Option<string>): (r: string)
    ensures |r| >= |prompt| && r[|r| - |prompt|..] == prompt
    ensures systemPrompt.Some? && systemPrompt.value != "" ==>
              |r| == |systemPrompt.value| + 2 + |prompt| && r[..|systemPrompt.value|] == systemPrompt.value
              && r[|systemPrompt.value|..|systemPrompt.value| + 2] == "\n\n"
    ensures !(systemPrompt.Some? && systemPrompt.value != "") ==> r == prompt
  {
    if systemPrompt.Some? && systemPrompt.value != "" then systemPrompt.value + "\n\n" + prompt else prompt
  }

  function Pow2(n: nat): (r: nat)
    ensures r >= 1
  {
    if n == 0 then 1 else 2 * Pow2(n - 1)
  }

  /** The wait before retrying after attempt `attempt`, in milliseconds. */
  function Backoff(attempt: nat): nat
  {
    Pow2(attempt) * 1000
  }

  /** `error?.message || 'Unknown error'`. */
  function DefaultMessage(m: string): (r: string)
  {
    if m == "" then UnknownError() else m
  }

  function UnknownError(): string
  {
    "Unknown error"
  }

  /** The model, as an oracle: the text of attempt `attempt` on a prompt, or the error's message
      (the empty string standing for an error without one). */
  type Generator = (nat, string) -> Result<string>

  /** What a run of `callLLM` returns, which waits it takes and how many model calls it makes. */
  datatype Attempted = Attempted(result: Reply, waits: seq<nat>, calls: nat)

  /** The attempts from `attempt` on. */
  function Attempts(full: string, retries: int, generate: Generator, attempt: nat): Attempted
    decreases if retries > attempt then retries - attempt else 0
  {
    if attempt >= retries then Attempted(Failure(AfterRetries), [], 0)
    else match generate(attempt, full)
      case Ok(text) => Attempted(Text(text), [], 1)
      case Err(m) =>
        var msg := DefaultMessage(m);
        if MentionsRateLimit(msg) && attempt < retries - 1 then
          var rest := Attempts(full, retries, generate, attempt + 1);
          Attempted(rest.result, [Backoff(attempt)] + rest.waits, rest.calls + 1)
        else Attempted(Failure(ClassifyError(msg)), [], 1)
  }

  /** `callLLM(prompt, systemPrompt, retries)` for the environment value `raw` of GEMINI_API_KEY. */
  function CallOutcome(raw: Option<string>, prompt: string, systemPrompt: Option<string>, retries: int, generate: Generator): Attempted
  {
    if GetApiKey(raw) == "" then Attempted(Failure(KeyError(raw)), [], 0)
    else Attempts(FullPrompt(prompt, systemPrompt), retries, generate, 0)
  }

  function Prepend(waits: seq<nat>, calls: nat, a: Attempted): Attempted
  {
    Attempted(a.result, waits + a.waits, calls + a.calls)
  }

  /** `callLLM`: the key check, then the attempt loop on the full prompt. */
  method CallLlm(raw: Option<string>, prompt: string, systemPrompt: Option<string>, retries: int, generate: Generator)
    returns (r: Reply, waits: seq<nat>, calls: nat)
    ensures Attempted(r, waits, calls) == CallOutcome(raw, prompt, systemPrompt, retries, generate)
  {
    if GetApiKey(raw) == "" {
      return Failure(KeyError(raw)), [], 0;
    }
    r, waits, calls := AttemptLoop(FullPrompt(prompt, systemPrompt), retries, generate);
  }

  /** The `for` loop over the attempts, with its `continue` on a retried rate limit. */
  method AttemptLoop(full: string, retries: int, generate: Generator) returns (r: Reply, waits: seq<nat>, calls: nat)
    ensures Attempted(r, waits, calls) == Attempts(full, retries, generate, 0)
  {
    waits, calls := [], 0;
    var attempt: nat := 0;
    while attempt < retries
      invariant calls == attempt
      invariant Attempts(full, retries, generate, 0) == Prepend(waits, calls, Attempts(full, retries, generate, attempt))
      decreases retries - attempt
    {
      var reply := generate(attempt, full);
      calls := calls + 1;
      if reply.Ok? {
        return Text(reply.value), waits, calls;
      }
      var msg := DefaultMessage(reply.message);
      if MentionsRateLimit(msg) && attempt < retries - 1 {
        RetryStep(full, retries, generate, attempt, waits, calls - 1);
        waits := waits + [Backoff(attempt)];
        attempt := attempt + 1;
        continue;
      }
      return Failure(ClassifyError(msg)), waits, calls;
    }
    r := Failure(AfterRetries);
  }

  /** A retried rate limit moves the run one attempt on, after one more call and one more wait. */
  lemma RetryStep(full: string, retries: int, generate: Generator, attempt: nat, waits: seq<nat>, calls: nat)
    requires attempt < retries - 1 && generate(attempt, full).Err?
    requires MentionsRateLimit(DefaultMessage(generate(attempt, full).message))
    ensures Prepend(waits, calls, Attempts(full, retries, generate, attempt))
            == Prepend(waits + [Backoff(attempt)], calls + 1, Attempts(full, retries, generate, attempt + 1))
  {
    var rest := Attempts(full, retries, generate, attempt + 1);
    assert Attempts(full, retries, generate, attempt)
           == Attempted(rest.result, [Backoff(attempt)] + rest.waits, rest.calls + 1);
    assert waits + ([Backoff(attempt)] + rest.waits) == waits + [Backoff(attempt)] + rest.waits;
  }

  /** From attempt `attempt` on, at most `retries - attempt` model calls are made, every call but
      the last is followed by a wait, and the after-retries error is reached only when no attempt
      is left to make. */
  lemma {:induction false} AttemptsCalls(full: string, retries: int, generate: Generator, attempt: nat)
    ensures var a := Attempts(full, retries, generate, attempt);
            (attempt < retries ==> 1 <= a.calls <= retries - attempt && |a.waits| == a.calls - 1)
            && (attempt >= retries ==> a.calls == 0 && a.waits == [])
            && (a.result == Failure(AfterRetries) <==> attempt >= retries)
    decreases if retries > attempt then retries - attempt else 0
  {
    if attempt < retries {
      match generate(attempt, full)
      case Ok(_) =>
      case Err(m) =>
        if MentionsRateLimit(DefaultMessage(m)) && attempt < retries - 1 {
          AttemptsCalls(full, retries, generate, attempt + 1);
        }
    }
  }

  /** The waits of `n` successive retries starting at attempt `start`. */
  function BackoffRun(start: nat, n: nat): (r: seq<nat>)
    ensures |r| == n
    decreases n
  {
    if n == 0 then [] else [Backoff(start)] + BackoffRun(start + 1, n - 1)
  }

  /** The k-th wait of a run is the backoff of attempt `start + k`: 1000 ms doubled k times from 0. */
  lemma {:induction false} BackoffRunEntries(start: nat, n: nat)
    ensures forall k :: 0 <= k < n ==> BackoffRun(start, n)[k] == Backoff(start + k)
    decreases n
  {
    if n > 0 {
      BackoffRunEntries(start + 1, n - 1);
      var r := BackoffRun(start, n);
      forall k | 0 <= k < n
        ensures r[k] == Backoff(start + k)
      {
        if k > 0 {
          assert r[k] == BackoffRun(start + 1, n - 1)[k - 1];
          assert start + 1 + (k - 1) == start + k;
        }
      }
    }
  }

  /** The waits taken from attempt `attempt` on are the backoffs of consecutive attempts. */
  lemma {:induction false} AttemptsWaits(full: string, retries: int, generate: Generator, attempt: nat)
    ensures var a := Attempts(full, retries, generate, attempt);
            a.waits == BackoffRun(attempt, |a.waits|)
    decreases if retries > attempt then retries - attempt else 0
  {
    if attempt < retries {
      match generate(attempt, full)
      case Ok(_) =>
      case Err(m) =>
        if MentionsRateLimit(DefaultMessage(m)) && attempt < retries - 1 {
          AttemptsWaits(full, retries, generate, attempt + 1);
        }
    }
  }

  /** The schedule of the attempt loop: at most `retries` model calls, waits of 1000, 2000,
      4000, ... milliseconds, and the after-retries error exactly when `retries` allows no attempt. */
  lemma LoopSchedule(full: string, retries: int, generate: Generator)
    ensures var a := Attempts(full, retries, generate, 0);
            a.calls <= (if retries > 0 then retries else 0)
            && (forall k :: 0 <= k < |a.waits| ==> a.waits[k] == Pow2(k) * 1000)
            && (a.calls == 0 ==> a.result.Failure?)
            && (a.result == Failure(AfterRetries) <==> retries <= 0)
  {
    var a := Attempts(full, retries, generate, 0);
    AttemptsCalls(full, retries, generate, 0);
    AttemptsWaits(full, retries, generate, 0);
    BackoffRunEntries(0, |a.waits|);
  }

  /** The schedule of a whole call: at most `retries` model calls, waits of 1000, 2000, 4000, ...
      milliseconds, no model call without a failure, and, with a usable key, the after-retries
      error exactly when `retries` allows no attempt at all. */
  lemma CallSchedule(raw: Option<string>, prompt: string, systemPrompt: Option<string>, retries: int, generate: Generator)
    ensures var a := CallOutcome(raw, prompt, systemPrompt, retries, generate);
            a.calls <= (if retries > 0 then retries else 0)
            && (forall k :: 0 <= k < |a.waits| ==> a.waits[k] == Pow2(k) * 1000)
            && (a.calls == 0 ==> a.result.Failure?)
            && (GetApiKey(raw) != "" ==> (a.result == Failure(AfterRetries) <==> retries <= 0))
  {
    if GetApiKey(raw) != "" {
      LoopSchedule(FullPrompt(prompt, systemPrompt), retries, generate);
    }
  }

  predicate MentionsGemini(msg: string)
  {
    Contains(msg, "Gemini") || Contains(msg, "GEMINI")
  }

  lemma KeyMessagesMentionGemini()
    ensures MentionsGemini(Message(KeyMissing)) && MentionsGemini(Message(KeyInvalid))
    ensures MentionsGemini(Message(KeyMisconfigured))
  {
    ContainsPrefix("GEMINI", KeyMissingTail);
    ContainsPrefix("GEMINI", KeyInvalidTail);
    ContainsPrefix("GEMINI", KeyMisconfiguredTail);
  }

  lemma ApiMessagesMentionGemini()
    ensures MentionsGemini(Message(InvalidKey)) && MentionsGemini(Message(ModelNotFound))
  {
    ContainsPrefix("Gemini", InvalidKeyTail);
    ContainsPrefix("Gemini", " API error: Model " + GeminiModel + ModelNotFoundTail);
  }

  lemma RateLimitedMentionsGemini()
    ensures MentionsGemini(Message(RateLimited))
  {
    assert RateLimitedHead[..6] == "Gemini";
    assert (RateLimitedHead + "429")[..6] == RateLimitedHead[..6];
    StartsThenContains(RateLimitedHead + "429", RateLimitedTail, "Gemini");
  }

  /** The text of every error mentions "Gemini" or "GEMINI". */
  lemma MessageMentionsGemini(e: LlmError)
    ensures MentionsGemini(Message(e))
  {
    match e
    case KeyMissing => KeyMessagesMentionGemini();
    case KeyInvalid => KeyMessagesMentionGemini();
    case KeyMisconfigured => KeyMessagesMentionGemini();
    case InvalidKey => ApiMessagesMentionGemini();
    case ModelNotFound => ApiMessagesMentionGemini();
    case RateLimited => RateLimitedMentionsGemini();
    case Generic(msg) => ContainsMiddle("Failed to call ", "Gemini", " API: " + msg);
    case AfterRetries => ContainsMiddle("Failed to call ", "Gemini", " API after retries");
  }

  /** The rate-limit text carries the status code. */
  lemma RateLimitedMentions429()
    ensures Contains(Message(RateLimited), "429")
  {
    ContainsMiddle(RateLimitedHead, "429", RateLimitedTail);
  }

  /** Every message `callLLM` can throw mentions "Gemini" or "GEMINI". */
  lemma CallErrorsMentionGemini(raw: Option<string>, prompt: string, systemPrompt: Option<string>, retries: int, generate: Generator)
    ensures var a := CallOutcome(raw, prompt, systemPrompt, retries, generate);
            a.result.Failure? ==> MentionsGemini(Message(a.result.error))
  {
    var a := CallOutcome(raw, prompt, systemPrompt, retries, generate);
    if a.result.Failure? {
      MessageMentionsGemini(a.result.error);
    }
  }

  // ---- embeddings -------------------------------------------------------------

  const EmbeddingSize := 384
  const HfPlaceholder := "your_huggingface_api_key_here"

  /** `text.split('').reduce((acc, c) => acc + c.charCodeAt(0), 0)`. */
  function CodeSum(s: string): nat
  {
    if s == [] then 0 else CodeSum(s[..|s| - 1]) + s[|s| - 1] as nat
  }

  lemma {:induction false} CodeSumAppend(a: string, b: string)
    ensures CodeSum(a + b) == CodeSum(a) + CodeSum(b)
    decreases |b|
  {
    if b == [] {
      assert a + b == a;
    } else {
      assert (a + b)[..|a + b| - 1] == a + b[..|b| - 1];
      CodeSumAppend(a, b[..|b| - 1]);
    }
  }

  /** Entry `i` of the hash embedding times 100: `(i + Σ codes) % 200 - 100`. */
  function HashNumerator(text: string, i: nat): (k: int)
    ensures -100 <= k <= 99
    ensures (k + 100) % 200 == (i + CodeSum(text)) % 200
  {
    (i + CodeSum(text)) % 200 - 100
  }

  /** `generateHashEmbedding` (with n = 384) and the 128-entry fallback of lib/gemini.ts. */
  function HashEmbedding(text: string, n: nat): (r: seq<real>)
    ensures |r| == n
    ensures forall i :: 0 <= i < n ==> r[i] == HashNumerator(text, i) as real / 100.0 && -1.0 <= r[i] <= 0.99
  {
    seq(n, i requires 0 <= i < n => HashNumerator(text, i) as real / 100.0)
  }

  /** The hash embedding repeats every 200 entries and depends on the text only through the sum
      of its character codes, so it cannot tell two halves of a text apart when they swap places. */
  lemma HashEmbeddingProperties(a: string, b: string, n: nat)
    ensures forall i :: 0 <= i && i + 200 < n ==> HashEmbedding(a, n)[i] == HashEmbedding(a, n)[i + 200]
    ensures HashEmbedding(a + b, n) == HashEmbedding(b + a, n)
  {
    CodeSumAppend(a, b);
    CodeSumAppend(b, a);
    forall i | 0 <= i && i + 200 < n
      ensures HashNumerator(a, i) == HashNumerator(a, i + 200)
    {
      assert (i + 200 + CodeSum(a)) % 200 == (i + CodeSum(a)) % 200;
    }
  }

  /** What the Hugging Face request produced: a failed request, a non-OK status, or an OK
      response whose body is JSON (`Some`) or not (`None`). */
  datatype HfReply = RequestFailed | NotOk | Received(body: Option<Json>)

  /** `data.embeddings` is a non-empty array. */
  predicate HasEmbeddings(fields: map<string, Json>)
  {
    "embeddings" in fields && fields["embeddings"].JArr? && |fields["embeddings"].items| > 0
  }

  /** The three accepted body shapes: `[[...], ...]` gives its first vector, `[n, ...]` the array
      itself, and `{ embeddings: [...] }` its first vector or the list itself. */
  function HfVector(data: Json): (r: Option<seq<Json>>)
    ensures data.JArr? && |data.items| > 0 && data.items[0].JArr? ==> r == Some(data.items[0].items)
    ensures data.JArr? && |data.items| > 0 && data.items[0].JNum? ==> r == Some(data.items)
    ensures data.JArr? && (|data.items| == 0 || !(data.items[0].JArr? || data.items[0].JNum?)) ==> r.None?
    ensures !data.JArr? && !data.JObj? ==> r.None?
    ensures data.JObj? && HasEmbeddings(data.fields) && data.fields["embeddings"].items[0].JArr? ==>
              r == Some(data.fields["embeddings"].items[0].items)
    ensures data.JObj? && HasEmbeddings(data.fields) && !data.fields["embeddings"].items[0].JArr? ==>
              r == Some(data.fields["embeddings"].items)
    ensures data.JObj? && !HasEmbeddings(data.fields) ==> r.None?
  {
    match data
    case JArr(xs) =>
      if |xs| > 0 && xs[0].JArr? then Some(xs[0].items)
      else if |xs| > 0 && xs[0].JNum? then Some(xs)
      else None
    case JObj(fields) =>
      if HasEmbeddings(fields) then
        var es := fields["embeddings"].items;
        if es[0].JArr? then Some(es[0].items) else Some(es)
      else None
    case _ => None
  }

  predicate HfKeyUsable(raw: Option<string>)
  {
    var key := TrimmedEnv(raw);
    key != "" && key != HfPlaceholder && |key| >= MinKeyLength
  }

  /** `getTextEmbedding`: the remote vector when the key is usable and the reply has an accepted
      shape; the 384-entry hash embedding in every other case. */
  function GetTextEmbedding(raw: Option<string>, text: string, reply: HfReply): (r: seq<Json>)
    ensures var remote := HfKeyUsable(raw) && reply.Received? && reply.body.Some? && HfVector(reply.body.value).Some?;
            (remote ==> r == HfVector(reply.body.value).value)
            && (!remote ==> r == Numbers(HashEmbedding(text, EmbeddingSize)))
  {
    if HfKeyUsable(raw) && reply.Received? && reply.body.Some? && HfVector(reply.body.value).Some? then
      HfVector(reply.body.value).value
    else
      Numbers(HashEmbedding(text, EmbeddingSize))
  }

  // ---- nutrition advice -----------------------------------------------------

  const TargetNutrients: seq<string> := ["Protein", "Fiber", "Vitamin C", "Iron", "Calcium"]
  const LowGap := "Some nutrients may be below recommended levels based on your current intake"
  const DefaultGap := "Consider adding more variety to your weekly produce selection"
  const PlaceholderRecommendation := Recommendation("Consult the full analysis for specific recommendations",
                                                    "AI analysis suggests adding more variety to meet nutritional goals")

  /** The reply handling of `getNutritionAdvice`: the parsed JSON block's fields, or advice
      computed by the source itself. */
  datatype AdviceOutcome =
    | ParsedAdvice(targetNutrients: Json, gaps: Json, recommendations: Json)
    | Computed(advice: NutritionAdvisorResult)

  /** The advice returned when the call or the parse throws. */
  const FallbackAdvice := NutritionAdvisorResult(
    TargetNutrients,
    ["Your current intake may be low in some essential nutrients. Consider adding more variety."],
    [Recommendation("Leafy greens (spinach, kale)", "High in iron, vitamin C, and fiber"),
     Recommendation("Legumes (beans, lentils)", "Excellent source of protein and fiber"),
     Recommendation("Citrus fruits", "Rich in vitamin C"),
     Recommendation("Nuts and seeds", "Good source of protein and healthy fats"),
     Recommendation("Whole grains", "High in fiber and B vitamins")])

  predicate MentionsShortfall(lower: string)
  {
    Contains(lower, "low") || Contains(lower, "deficient") || Contains(lower, "lacking")
  }

  predicate MentionsRecommendation(lower: string)
  {
    Contains(lower, "recommend") || Contains(lower, "suggest")
  }

  /** The keyword fallback for a reply without a JSON block. */
  function TextAdvice(text: string): (r: NutritionAdvisorResult)
    ensures r.targetNutrients == TargetNutrients
    ensures |r.gaps| == 1 && (r.gaps[0] == LowGap <==> MentionsShortfall(ToLowerAscii(text)))
    ensures !MentionsShortfall(ToLowerAscii(text)) ==> r.gaps == [DefaultGap]
    ensures |r.recommendations| <= 1
    ensures |r.recommendations| == 1 <==> MentionsRecommendation(ToLowerAscii(text))
    ensures |r.recommendations| == 1 ==> r.recommendations[0] == PlaceholderRecommendation
  {
    var lower := ToLowerAscii(text);
    var gaps := if MentionsShortfall(lower) then [LowGap] else [];
    var recs := if MentionsRecommendation(lower) then [PlaceholderRecommendation] else [];
    NutritionAdvisorResult(TargetNutrients, if |gaps| > 0 then gaps else [DefaultGap], recs)
  }

  /** `getNutritionAdvice` given the outcome of `callLLM` and a `JSON.parse` oracle (`None` when
      the text is not JSON). */
  function NutritionAdvice(reply: Reply, parse: string -> Option<Json>): (r: AdviceOutcome)
    ensures reply.Failure? ==> r == Computed(FallbackAdvice)
    ensures reply.Text? && BraceSpan(reply.text).None? ==> r == Computed(TextAdvice(reply.text))
    ensures reply.Text? && BraceSpan(reply.text).Some? ==>
              var parsed := parse(BraceSpan(reply.text).value);
              if parsed.None? || parsed.value.JNull? then r == Computed(FallbackAdvice)
              else r.ParsedAdvice? && Truthy(r.targetNutrients) && Truthy(r.gaps) && Truthy(r.recommendations)
                   && r.gaps == OrEmptyArray(Field(parsed.value, "gaps"))
                   && r.targetNutrients == OrEmptyArray(Field(parsed.value, "target_nutrients"))
                   && r.recommendations == OrEmptyArray(Field(parsed.value, "recommendations"))
  {
    match reply
    case Failure(_) => Computed(FallbackAdvice)
    case Text(text) =>
      match BraceSpan(text)
      case None => Computed(TextAdvice(text))
      case Some(block) =>
        match parse(block)
        case None => Computed(FallbackAdvice)
        case Some(v) =>
          if v.JNull? then Computed(FallbackAdvice)
          else ParsedAdvice(OrEmptyArray(Field(v, "target_nutrients")), OrEmptyArray(Field(v, "gaps")),
                            OrEmptyArray(Field(v, "recommendations")))
  }

  const AdviceSystemPrompt := "You are a dietitian style assistant. Analyze a weekly list of produce items and recommend missing nutrients precisely."
  const AdvicePromptHead := "Allergies and notes:\n"
  const AdvicePromptMiddle := "\n\nWeekly items with nutrition per unit and quantity:\n"
  const AdvicePromptTail := "\n\nTask:\nReturn JSON with:\n- target_nutrients: list of strings\n- gaps: list of strings\n- recommendations: list of up to five items available in city with a short why\n\nReturn only valid JSON, no markdown formatting."

  /** The user prompt of `getNutritionAdvice`: the notes, then the items table, verbatim. */
  function AdviceUserPrompt(allergiesAndNotes: string, weeklyItemsTable: string): string
  {
    AdvicePromptHead + allergiesAndNotes + AdvicePromptMiddle + weeklyItemsTable + AdvicePromptTail
  }

  /** `getNutritionAdvice(allergiesAndNotes, weeklyItemsTable)`: one LLM call on the prompts above;
      every failure is caught, so it never throws. */
  function GetNutritionAdvice(allergiesAndNotes: string, weeklyItemsTable: string, llm: LlmCall,
                              parse: string -> Option<Json>): AdviceOutcome
  {
    NutritionAdvice(llm(AdviceUserPrompt(allergiesAndNotes, weeklyItemsTable), AdviceSystemPrompt), parse)
  }
}
