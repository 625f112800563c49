/** The older Gemini client of lib/gemini.ts: a shorter key check, a fixed list of models tried
    in turn, the remapping of whatever was thrown, and the embedding with its hash fallback. */
module Gemini {
  import opened Wrappers
  import opened Strings
  import opened JsonValues
  import opened Llm

  const MinGeminiKeyLength := 10
  const ModelNames: seq<string> := ["gemini-1.5-flash", "gemini-pro", "gemini-1.5-pro"]
  const GeminiEmbeddingSize := 128

  /** `getApiKey` of this client: the trimmed key when set, not the placeholder and at least 10 long. */
  function GetGeminiKey(raw: Option<string>): (r: string)
    ensures r != "" <==> TrimmedEnv(raw) != "" && TrimmedEnv(raw) != Placeholder && |TrimmedEnv(raw)| >= MinGeminiKeyLength
    ensures r != "" ==> r == TrimmedEnv(raw) && !IsJsWhitespace(r[0]) && !IsJsWhitespace(r[|r| - 1])
  {
    var key := TrimmedEnv(raw);
    if key == "" || key == Placeholder then ""
    else if |key| < MinGeminiKeyLength then ""
    else key
  }

  /** What `getGenAI` throws when the key is refused. */
  function KeyRefusedMessage(): string
  {
    "GEMINI_" + "API_KEY" + " is not configured. Please check your .env.local file."
  }

  predicate MentionsUnavailable(msg: string)
  {
    Contains(msg, "404") || Contains(msg, "not found") || Contains(msg, "not supported")
  }

  const NoModelHead := "No available Gemini model found. Tried: "
  const NoModelTail := " may not have access to these models, or the models are not available in your region."

  /** The error thrown after every model reported itself unavailable. */
  function NoModelMessage(lastMessage: string): string
  {
    NoModelHead + Join(ModelNames, ", ") + ". Last error: " + (if lastMessage == "" then "Unknown" else lastMessage)
    + ". The " + "API key" + NoModelTail
  }

  /** The model, as an oracle: the text for a model name and prompt, or the error's message. */
  type ModelGenerator = (string, string) -> Result<string>

  /** What the `try` block ends with: the text, or the message of what it threw. */
  datatype Inner = Got(text: string) | Threw(message: string)

  /** The models tried from index `i` on, `last` being the previous model's error message. */
  function TryModels(full: string, generate: ModelGenerator, i: nat, last: string): (r: Inner)
    decreases |ModelNames| - i
  {
    if i >= |ModelNames| then Threw(NoModelMessage(last))
    else match generate(ModelNames[i], full)
      case Ok(text) => Got(text)
      case Err(m) => if MentionsUnavailable(m) then TryModels(full, generate, i + 1, m) else Threw(m)
  }

  /** The errors `callGemini` throws; every thrown message is remapped to one of these. */
  datatype GeminiError = KeyRejected | ModelUnavailable(detail: string) | ApiError(detail: string)

  function GeminiMessage(e: GeminiError): string
  {
    match e
    case KeyRejected => "GEMINI_API_KEY is invalid or not configured. Please check your .env.local file."
    case ModelUnavailable(d) => "Model not available. Please check your API key has access to Gemini models. Error: " + d
    case ApiError(d) => "Gemini API error: " + d
  }

  /** The outer `catch`: API key first, then an unavailable model, else a generic API error. */
  function Remap(thrown: string): (r: GeminiError)
    ensures r.KeyRejected? <==> MentionsApiKey(DefaultMessage(thrown))
    ensures r.ModelUnavailable? <==> !MentionsApiKey(DefaultMessage(thrown))
                                     && (Contains(DefaultMessage(thrown), "not found") || Contains(DefaultMessage(thrown), "not supported"))
    ensures !r.KeyRejected? ==> r.detail == DefaultMessage(thrown)
  {
    var msg := DefaultMessage(thrown);
    if MentionsApiKey(msg) then KeyRejected
    else if Contains(msg, "not found") || Contains(msg, "not supported") then ModelUnavailable(msg)
    else ApiError(msg)
  }

  datatype GeminiReply = GeminiText(text: string) | GeminiFailure(error: GeminiError)

  /** `callGemini(prompt, systemPrompt)`. */
  function CallGeminiOutcome(raw: Option<string>, prompt: string, systemPrompt: Option<string>, generate: ModelGenerator): GeminiReply
  {
    if GetGeminiKey(raw) == "" then GeminiFailure(KeyRejected)
    else match TryModels(FullPrompt(prompt, systemPrompt), generate, 0, "")
      case Got(text) => GeminiText(text)
      case Threw(m) => GeminiFailure(Remap(m))
  }

  /** The `for … of` loop over the model names, with `continue` on an unavailable model and an
      immediate rethrow on anything else; `tried` lists the models asked, in order. */
  method TryEachModel(full: string, generate: ModelGenerator) returns (r: Inner, tried: seq<string>)
    ensures r == TryModels(full, generate, 0, "")
    ensures 1 <= |tried| <= |ModelNames| && tried == ModelNames[..|tried|]
    ensures forall i :: 0 <= i < |tried| - 1 ==>
              generate(tried[i], full).Err? && MentionsUnavailable(generate(tried[i], full).message)
  {
    var last := "";
    tried := [];
    var i := 0;
    while i < |ModelNames|
      invariant 0 <= i <= |ModelNames| && tried == ModelNames[..i]
      invariant TryModels(full, generate, 0, "") == TryModels(full, generate, i, last)
      invariant forall k :: 0 <= k < i ==> generate(ModelNames[k], full).Err? && MentionsUnavailable(generate(ModelNames[k], full).message)
    {
      tried := tried + [ModelNames[i]];
      var reply := generate(ModelNames[i], full);
      if reply.Ok? {
        return Got(reply.value), tried;
      }
      if MentionsUnavailable(reply.message) {
        last := reply.message;
        i := i + 1;
        continue;
      }
      return Threw(reply.message), tried;
    }
    r := Threw(NoModelMessage(last));
  }

  /** `callGemini`: the key check, the model loop and the remapping of what it threw. */
  method CallGemini(raw: Option<string>, prompt: string, systemPrompt: Option<string>, generate: ModelGenerator)
    returns (r: GeminiReply, tried: seq<string>)
    ensures r == CallGeminiOutcome(raw, prompt, systemPrompt, generate)
    ensures |tried| <= |ModelNames| && tried == ModelNames[..|tried|]
    ensures GetGeminiKey(raw) == "" <==> tried == []
    ensures forall i :: 0 <= i < |tried| - 1 ==>
              generate(tried[i], FullPrompt(prompt, systemPrompt)).Err?
              && MentionsUnavailable(generate(tried[i], FullPrompt(prompt, systemPrompt)).message)
  {
    if GetGeminiKey(raw) == "" {
      return GeminiFailure(KeyRejected), [];
    }
    var inner;
    inner, tried := TryEachModel(FullPrompt(prompt, systemPrompt), generate);
    match inner
    case Got(text) => r := GeminiText(text);
    case Threw(m) => r := GeminiFailure(Remap(m));
  }

  /** A successful call returns the text of the first model, in list order, that did not report
      itself unavailable, and every earlier model did. */
  lemma {:induction false} TryModelsFirstSuccess(full: string, generate: ModelGenerator, i: nat, last: string)
    requires TryModels(full, generate, i, last).Got?
    ensures exists k :: i <= k < |ModelNames| && generate(ModelNames[k], full) == Ok(TryModels(full, generate, i, last).text)
                        && forall j :: i <= j < k ==> generate(ModelNames[j], full).Err? && MentionsUnavailable(generate(ModelNames[j], full).message)
    decreases |ModelNames| - i
  {
    if generate(ModelNames[i], full).Err? {
      var m := generate(ModelNames[i], full).message;
      TryModelsFirstSuccess(full, generate, i + 1, m);
    }
  }

  /** When every model reports itself unavailable, the thrown message mentions the API key, so
      the caller receives the key message rather than the model message. */
  lemma AllUnavailableGivesKeyMessage(full: string, generate: ModelGenerator, last: string)
    ensures TryModels(full, generate, |ModelNames|, last).Threw?
    ensures Remap(TryModels(full, generate, |ModelNames|, last).message) == KeyRejected
  {
    var shown := if last == "" then "Unknown" else last;
    var m := NoModelMessage(last);
    ContainsMiddle(NoModelHead + Join(ModelNames, ", ") + ". Last error: " + shown + ". The ", "API key", NoModelTail);
    assert m != "";
  }

  /** Any other error stops the loop at once: the call fails with that message remapped. */
  lemma OtherErrorStops(full: string, generate: ModelGenerator, i: nat, last: string)
    requires i < |ModelNames| && generate(ModelNames[i], full).Err?
    requires !MentionsUnavailable(generate(ModelNames[i], full).message)
    ensures TryModels(full, generate, i, last) == Threw(generate(ModelNames[i], full).message)
  {
  }

  /** The error `getGenAI` throws for a refused key is remapped to the key message, which is
      why a refused key is reported as `KeyRejected` without reaching a model. */
  lemma RefusedKeyIsRemapped()
    ensures Remap(KeyRefusedMessage()) == KeyRejected
  {
    ContainsMiddle("GEMINI_", "API_KEY", " is not configured. Please check your .env.local file.");
  }

  /** What `embedContent` produced: it threw, or its `embedding` (`None` for undefined). */
  datatype EmbedReply = EmbedThrew | Embedded(embedding: Option<Json>)

  /** `getGeminiEmbedding`: an array embedding as it is, an object's `values`, and the 128-entry
      hash embedding otherwise, including when the key is refused or the SDK throws. */
  function GeminiEmbedding(raw: Option<string>, text: string, reply: EmbedReply): (r: Json)
    ensures var hashed := JArr(Numbers(HashEmbedding(text, GeminiEmbeddingSize)));
            (GetGeminiKey(raw) == "" || reply.EmbedThrew? || reply.embedding.None? ==> r == hashed)
            && (GetGeminiKey(raw) != "" && reply.Embedded? && reply.embedding.Some? ==>
                  var e := reply.embedding.value;
                  (e.JArr? ==> r == e)
                  && (e.JObj? && "values" in e.fields ==> r == e.fields["values"])
                  && (!e.JArr? && !(e.JObj? && "values" in e.fields) ==> r == hashed))
  {
    var hashed := JArr(Numbers(HashEmbedding(text, GeminiEmbeddingSize)));
    if GetGeminiKey(raw) == "" then hashed
    else match reply
      case EmbedThrew => hashed
      case Embedded(None) => hashed
      case Embedded(Some(e)) =>
        if e.JArr? then e
        else if e.JObj? && "values" in e.fields then e.fields["values"]
        else hashed
  }
}
