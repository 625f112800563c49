/** `POST /api/ai/chat`: retrieval over the knowledge passages, then one LLM call.
    The passages for the caller's city are scored against the question's embedding, the three
    best (ties in corpus order) become the prompt's context and the answer's sources, and an
    error from the LLM is turned into one of two fixed failure payloads. */
module ChatRoute {
  import opened Wrappers
  import opened Seqs
  import opened Strings
  import opened Types
  import opened JsonValues
  import opened Llm
  import DataStore

  /** `cosineSimilarity` from the utilities module, left uninterpreted. */
  type Cosine = (seq<real>, seq<real>) -> real

  /** The request body; `NotJson` is a body `request.json()` rejects, with the parser's message. */
  datatype ChatBody =
    | NotJson(parseError: string)
    | ChatRequest(message: string, cityId: Option<string>, role: Option<string>, history: Option<Json>)

  datatype Source = Source(id: string, title: string)

  /** The response payloads: the answer, the API-key failure, the generic LLM failure (carrying the
      LLM's message) and the outer failure (carrying the thrown message). */
  datatype ChatOutcome =
    | Answered(response: string, sources: seq<Source>)
    | KeyNotConfigured
    | AnswerFailed(detail: string)
    | HandlerFailed(detail: string)
  {
    function Status(): nat
    {
      if Answered? then 200 else 500
    }
  }

  // ---------------------------------------------------------------- candidates and scores

  /** The passages a question is answered from: with a city, those of that city or of no city. */
  function Candidates(docs: seq<RagDocument>, cityId: Option<string>): (r: seq<RagDocument>)
    ensures !DataStore.Given(cityId) ==> r == docs
    ensures DataStore.Given(cityId) ==>
              (forall i :: 0 <= i < |r| ==> r[i] in docs && (r[i].city == cityId.value || r[i].city == ""))
              && (forall j :: 0 <= j < |docs| && (docs[j].city == cityId.value || docs[j].city == "") ==> docs[j] in r)
  {
    if DataStore.Given(cityId) then Filter(docs, (d: RagDocument) => d.city == cityId.value || d.city == "")
    else docs
  }

  /** The query embedding the ranking uses: a throwing embedding call leaves it empty. */
  function QueryEmbedding(embedding: Result<seq<real>>): (r: seq<real>)
    ensures embedding.Err? ==> r == []
  {
    if embedding.Ok? then embedding.value else []
  }

  /** A passage's similarity: the cosine when both embeddings are non-empty, 0.5 otherwise. */
  function Similarity(query: seq<real>, doc: RagDocument, cos: Cosine): real
  {
    if |query| > 0 && |doc.embedding| > 0 then cos(query, doc.embedding) else 0.5
  }

  /** A candidate's similarity and its position among the candidates; the position is what makes
      the (stable) sort's treatment of ties explicit. */
  datatype Scored = Scored(similarity: real, position: nat)

  /** The candidates' scores, in candidate order. */
  function Score(candidates: seq<RagDocument>, query: seq<real>, cos: Cosine): (r: seq<Scored>)
    ensures |r| == |candidates|
    ensures forall i :: 0 <= i < |r| ==> r[i] == Scored(Similarity(query, candidates[i], cos), i)
  {
    seq(|candidates|, i requires 0 <= i < |candidates| => Scored(Similarity(query, candidates[i], cos), i))
  }

  // ---------------------------------------------------------------- the stable descending sort

  /** `a` comes before `b` in `sort((a, b) => b.similarity - a.similarity)`, which is stable: a higher
      similarity first, and on a tie the earlier candidate first. */
  predicate Before(a: Scored, b: Scored)
  {
    a.similarity > b.similarity || (a.similarity == b.similarity && a.position < b.position)
  }

  /** Sorted: every element comes before each later one. */
  predicate Ranked(s: seq<Scored>)
  {
    forall i, j :: 0 <= i < j < |s| ==> Before(s[i], s[j])
  }

  predicate DistinctPositions(s: seq<Scored>)
  {
    forall i, j :: 0 <= i < j < |s| ==> s[i].position != s[j].position
  }

  /** Insert `x` ahead of the first element it comes before. */
  function Insert(x: Scored, s: seq<Scored>): (r: seq<Scored>)
    ensures |r| == |s| + 1
  {
    if s == [] || Before(x, s[0]) then [x] + s
    else [s[0]] + Insert(x, s[1..])
  }

  /** The scores in ranking order (an insertion sort). */
  function Sort(s: seq<Scored>): (r: seq<Scored>)
    ensures |r| == |s|
  {
    if s == [] then [] else Insert(s[0], Sort(s[1..]))
  }

  /** Inserting into a sorted sequence an element whose position is new keeps it sorted and adds
      exactly that element. */
  lemma {:induction false} InsertKeepsRanked(x: Scored, s: seq<Scored>)
    requires Ranked(s)
    requires forall i :: 0 <= i < |s| ==> s[i].position != x.position
    ensures var r := Insert(x, s);
            Ranked(r) && x in r
            && (forall i :: 0 <= i < |s| ==> s[i] in r)
            && (forall i :: 0 <= i < |r| ==> r[i] == x || r[i] in s)
  {
    if s == [] || Before(x, s[0]) {
      assert forall i :: 0 < i < |s| ==> Before(s[0], s[i]);
    } else {
      var t := s[1..];
      assert Ranked(t) by {
        assert forall i :: 0 <= i < |t| ==> t[i] == s[i + 1];
      }
      InsertKeepsRanked(x, t);
      InsertBehindHead(x, s, Insert(x, t));
    }
  }

  /** `x` inserted behind the head of `s`, which comes before it, into the tail. */
  lemma InsertBehindHead(x: Scored, s: seq<Scored>, rest: seq<Scored>)
    requires s != [] && Ranked(s) && !Before(x, s[0])
    requires forall i :: 0 <= i < |s| ==> s[i].position != x.position
    requires Ranked(rest) && x in rest && (forall i :: 0 <= i < |s[1..]| ==> s[1..][i] in rest)
    requires forall i :: 0 <= i < |rest| ==> rest[i] == x || rest[i] in s[1..]
    ensures var r := [s[0]] + rest;
            Ranked(r) && x in r
            && (forall i :: 0 <= i < |s| ==> s[i] in r)
            && (forall i :: 0 <= i < |r| ==> r[i] == x || r[i] in s)
  {
    assert Before(s[0], x);
    forall i | 0 <= i < |rest| ensures Before(s[0], rest[i]) {
      if rest[i] != x {
        var k :| 0 <= k < |s[1..]| && s[1..][k] == rest[i];
        assert s[k + 1] == rest[i];
      }
    }
    var r := [s[0]] + rest;
    assert forall i :: 0 < i < |r| ==> r[i] == rest[i - 1];
    forall i | 0 <= i < |s| ensures s[i] in r {
      if i > 0 {
        assert s[1..][i - 1] == s[i];
      }
    }
    forall i | 0 <= i < |r| ensures r[i] == x || r[i] in s {
      if i > 0 && r[i] != x {
        var k :| 0 <= k < |s[1..]| && s[1..][k] == r[i];
        assert s[k + 1] == r[i];
      }
    }
  }

  /** Sorting scores with distinct positions gives a sorted sequence of the same scores. */
  lemma {:induction false} SortIsRankedPermutation(s: seq<Scored>)
    requires DistinctPositions(s)
    ensures var r := Sort(s);
            Ranked(r)
            && (forall i :: 0 <= i < |s| ==> s[i] in r)
            && (forall i :: 0 <= i < |r| ==> r[i] in s)
  {
    if s != [] {
      var t := s[1..];
      var rest := Sort(t);
      assert DistinctPositions(t) by {
        assert forall i :: 0 <= i < |t| ==> t[i] == s[i + 1];
      }
      SortIsRankedPermutation(t);
      HeadPositionIsNew(s, rest);
      InsertKeepsRanked(s[0], rest);
      InsertedHeadMembers(s, rest, Insert(s[0], rest));
    }
  }

  /** The head's position is none of the positions in a reordering of the tail. */
  lemma HeadPositionIsNew(s: seq<Scored>, rest: seq<Scored>)
    requires s != [] && DistinctPositions(s)
    requires forall i :: 0 <= i < |rest| ==> rest[i] in s[1..]
    ensures forall i :: 0 <= i < |rest| ==> rest[i].position != s[0].position
  {
    forall i | 0 <= i < |rest| ensures rest[i].position != s[0].position {
      var k :| 0 <= k < |s[1..]| && s[1..][k] == rest[i];
      assert s[k + 1] == rest[i];
    }
  }

  /** The head inserted into a reordering of the tail holds exactly the elements of `s`. */
  lemma InsertedHeadMembers(s: seq<Scored>, rest: seq<Scored>, r: seq<Scored>)
    requires s != []
    requires (forall i :: 0 <= i < |s[1..]| ==> s[1..][i] in rest) && (forall i :: 0 <= i < |rest| ==> rest[i] in s[1..])
    requires s[0] in r && (forall i :: 0 <= i < |rest| ==> rest[i] in r)
    requires forall i :: 0 <= i < |r| ==> r[i] == s[0] || r[i] in rest
    ensures (forall i :: 0 <= i < |s| ==> s[i] in r) && (forall i :: 0 <= i < |r| ==> r[i] in s)
  {
    forall i | 0 <= i < |r| ensures r[i] in s {
      if r[i] != s[0] {
        var k :| 0 <= k < |rest| && rest[k] == r[i];
        var m :| 0 <= m < |s[1..]| && s[1..][m] == rest[k];
        assert s[m + 1] == r[i];
      }
    }
    forall i | 0 <= i < |s| ensures s[i] in r {
      if i > 0 {
        assert s[1..][i - 1] == s[i];
        var k :| 0 <= k < |rest| && rest[k] == s[i];
      }
    }
  }

  /** `sort(...).slice(0, 3)` on the scores: each entry names a candidate and carries its score. */
  function Ranking(candidates: seq<RagDocument>, query: seq<real>, cos: Cosine): (r: seq<Scored>)
    ensures forall i :: 0 <= i < |r| ==>
              (r[i].position < |candidates| && r[i].similarity == Similarity(query, candidates[r[i].position], cos))
  {
    var scored := Score(candidates, query, cos);
    var sorted := Sort(scored);
    var r := sorted[..if |sorted| < 3 then |sorted| else 3];
    SortIsRankedPermutation(scored);
    assert forall i :: 0 <= i < |r| ==> r[i] in scored;
    r
  }

  /** The matched passages, in rank order. */
  function Matches(docs: seq<RagDocument>, cityId: Option<string>, query: seq<real>, cos: Cosine): (r: seq<RagDocument>)
    ensures var c := Candidates(docs, cityId);
            var k := Ranking(c, query, cos);
            |r| == |k| && forall i :: 0 <= i < |k| ==> r[i] == c[k[i].position]
  {
    var c := Candidates(docs, cityId);
    var k := Ranking(c, query, cos);
    seq(|k|, i requires 0 <= i < |k| => c[k[i].position])
  }

  // ---------------------------------------------------------------- prompts and sources

  const SystemPrompt: string :=
    "You are a helpful assistant for Farm2Table, a platform connecting local farms to customers. \n"
    + "Brand tone: friendly, sustainable, community-focused.\n"
    + "Mission: We pledge to donate 30% of our net income or equivalent food to local community partners like food banks.\n"
    + "Plan rules:\n"
    + "- Basic plan: Weekly fixed bundle, users can remove items before cutoff but cannot add\n"
    + "- Premium plan: Build your own weekly box, choose delivery date and time, can skip weeks\n"
    + "Only use information from the provided context. If you don't know something, say so."

  /** One context entry: `[title]: text`. */
  function Snippet(doc: RagDocument): (r: string)
    ensures StartsWith(r, "[" + doc.title + "]: ")
    ensures |r| == |doc.title| + 4 + |doc.text| && r[|r| - |doc.text|..] == doc.text
  {
    var head := "[" + doc.title + "]: ";
    var r := head + doc.text;
    assert r[..|head|] == head;
    r
  }

  /** The blank line between context entries. */
  const EntrySeparator: string := "\n\n"

  /** The context block: one snippet per match, in rank order, separated by a blank line. */
  function Context(matches: seq<RagDocument>): (r: string)
    ensures matches == [] <==> r == ""
    ensures |matches| > 0 ==> StartsWith(r, Snippet(matches[0]))
  {
    var snippets := Map(matches, Snippet);
    var r := Join(snippets, EntrySeparator);
    assert |matches| > 1 ==> r[..|snippets[0]|] == snippets[0] by {
      if |matches| > 1 {
        assert r == snippets[0] + EntrySeparator + Join(snippets[1..], EntrySeparator);
      }
    }
    r
  }

  /** Where the `i`-th entry starts in the context. */
  function EntryOffset(matches: seq<RagDocument>, i: nat): nat
    requires i < |matches|
  {
    JoinOffset(Map(matches, Snippet), EntrySeparator, i)
  }

  /** Every match is in the context: the `i`-th entry right after the earlier entries and their
      blank lines, followed by a blank line unless it is the last, which ends the context. */
  lemma ContextHoldsEveryMatch(matches: seq<RagDocument>, i: nat)
    requires i < |matches|
    ensures OccursAt(Context(matches), Snippet(matches[i]), EntryOffset(matches, i))
    ensures i + 1 < |matches| ==> OccursAt(Context(matches), EntrySeparator, EntryOffset(matches, i) + |Snippet(matches[i])|)
    ensures i + 1 == |matches| ==> |Context(matches)| == EntryOffset(matches, i) + |Snippet(matches[i])|
  {
    var xs := Map(matches, Snippet);
    JoinLayout(xs, EntrySeparator, i);
    assert xs[i] == Snippet(matches[i]);
  }

  const ContextHead: string := "Context:\n"

  const QuestionHead: string := "\n\nUser question: "

  const PromptTail: string :=
    "\n\nProvide a concise, helpful answer based on the context above. Include source titles when referencing specific information."

  /** The user prompt holds the context and then the question, each at a fixed offset. */
  function UserPrompt(context: string, message: string): (r: string)
    ensures OccursAt(r, context, |ContextHead|)
    ensures OccursAt(r, message, |ContextHead| + |context| + |QuestionHead|)
    ensures StartsWith(r, ContextHead)
  {
    var a := ContextHead + context + QuestionHead;
    var r := a + message + PromptTail;
    assert r[|ContextHead|..|ContextHead| + |context|] == context;
    assert r[|a|..|a| + |message|] == message;
    assert r[..|ContextHead|] == ContextHead;
    r
  }

  function SourceOf(doc: RagDocument): Source
  {
    Source(doc.id, doc.title)
  }

  /** The answer's sources: one `(id, title)` per match, in rank order. */
  function Sources(matches: seq<RagDocument>): (r: seq<Source>)
    ensures |r| == |matches|
    ensures forall i :: 0 <= i < |r| ==> r[i].id == matches[i].id && r[i].title == matches[i].title
  {
    Map(matches, SourceOf)
  }

  // ---------------------------------------------------------------- the handler

  /** The LLM catch block: `error?.message || 'Unknown error'`, then the API-key check. */
  function LlmFailure(message: string): (r: ChatOutcome)
    ensures r == KeyNotConfigured || r == AnswerFailed(DefaultMessage(message))
    ensures r == KeyNotConfigured <==> MentionsApiKey(DefaultMessage(message)) || MentionsGemini(DefaultMessage(message))
  {
    var m := DefaultMessage(message);
    if MentionsApiKey(m) || MentionsGemini(m) then KeyNotConfigured else AnswerFailed(m)
  }

  /** The outer catch: `error?.message || 'Failed to get AI response'`. */
  function OuterFailure(message: string): (r: ChatOutcome)
    ensures r.HandlerFailed? && (message != "" ==> r.detail == message)
  {
    HandlerFailed(if message == "" then "Failed to get AI response" else message)
  }

  /** The handler, with the key's raw environment value and the model as `callLLM` sees them, the
      embedding call and the similarity. */
  function Chat(docs: seq<RagDocument>, body: ChatBody, embed: string -> Result<seq<real>>, cos: Cosine,
                raw: Option<string>, generate: Generator): ChatOutcome
  {
    Respond(docs, body, embed, cos, (u, s) => CallOutcome(raw, u, Some(s), DefaultRetries, generate).result, SystemPrompt)
  }

  /** The handler for any LLM call and system prompt; the properties below hold for all of them. */
  function Respond(docs: seq<RagDocument>, body: ChatBody, embed: string -> Result<seq<real>>, cos: Cosine,
                   llm: LlmCall, systemPrompt: string): ChatOutcome
  {
    match body
    case NotJson(e) => OuterFailure(e)
    case ChatRequest(message, cityId, _, _) =>
      Answer(Matches(docs, cityId, QueryEmbedding(embed(message)), cos), message, llm, systemPrompt)
  }

  /** The LLM call on the prompts built from the matches, and the payload it leads to; a thrown
      error reaches the catch block as its message. */
  function Answer(matches: seq<RagDocument>, message: string, llm: LlmCall, systemPrompt: string): ChatOutcome
  {
    match llm(UserPrompt(Context(matches), message), systemPrompt)
    case Text(text) => Answered(text, Sources(matches))
    case Failure(e) => LlmFailure(Message(e))
  }

  // ---------------------------------------------------------------- properties

  /** The ranking holds as many entries as there are candidates, at most three, in sorted order and
      each candidate at most once. */
  lemma RankingIsSortedAndDistinct(c: seq<RagDocument>, query: seq<real>, cos: Cosine)
    ensures var k := Ranking(c, query, cos);
            |k| == (if |c| < 3 then |c| else 3) && Ranked(k) && DistinctPositions(k)
  {
    var scored := Score(c, query, cos);
    var sorted := Sort(scored);
    SortIsRankedPermutation(scored);
    var k := Ranking(c, query, cos);
    forall i, j | 0 <= i < j < |k| ensures k[i].position != k[j].position {
      assert Before(sorted[i], sorted[j]);
      var a :| 0 <= a < |scored| && scored[a] == sorted[i];
      var b :| 0 <= b < |scored| && scored[b] == sorted[j];
    }
  }

  /** In a sorted sequence, an element outside the first `n` comes after each of them. */
  lemma PrefixOutranksRest(sorted: seq<Scored>, n: nat, x: Scored)
    requires Ranked(sorted) && n <= |sorted| && x in sorted && x !in sorted[..n]
    ensures forall i :: 0 <= i < n ==> Before(sorted[i], x)
  {
    var q :| 0 <= q < |sorted| && sorted[q] == x;
    assert forall j :: 0 <= j < n ==> sorted[j] != x by {
      assert forall j :: 0 <= j < n ==> sorted[..n][j] == sorted[j];
    }
  }

  /** Every entry of the ranking ranks ahead of every candidate that was not chosen (score first,
      then candidate order), so the entries are the top three. */
  lemma RankingIsTopThree(c: seq<RagDocument>, query: seq<real>, cos: Cosine, p: nat)
    requires p < |c|
    requires forall j :: 0 <= j < |Ranking(c, query, cos)| ==> Ranking(c, query, cos)[j].position != p
    ensures forall i :: 0 <= i < |Ranking(c, query, cos)| ==>
              Before(Ranking(c, query, cos)[i], Scored(Similarity(query, c[p], cos), p))
  {
    var scored := Score(c, query, cos);
    var sorted := Sort(scored);
    SortIsRankedPermutation(scored);
    var k := Ranking(c, query, cos);
    var n := if |sorted| < 3 then |sorted| else 3;
    assert k == sorted[..n];
    assert scored[p] in sorted;
    assert scored[p] !in k;
    PrefixOutranksRest(sorted, n, scored[p]);
  }

  /** Sorting what is already in ranking order changes nothing. */
  lemma {:induction false} SortRankedIsIdentity(s: seq<Scored>)
    requires DistinctPositions(s) && Ranked(s)
    ensures Sort(s) == s
  {
    if s != [] {
      SortRankedIsIdentity(s[1..]);
      assert s == [s[0]] + s[1..];
    }
  }

  /** Without a query embedding (also when the embedding call throws) every passage scores 0.5,
      and the matches are the first three candidates in corpus order. */
  lemma {:induction false} EmptyQueryKeepsCorpusOrder(docs: seq<RagDocument>, cityId: Option<string>, cos: Cosine)
    ensures var c := Candidates(docs, cityId);
            Matches(docs, cityId, [], cos) == c[..if |c| < 3 then |c| else 3]
  {
    var c := Candidates(docs, cityId);
    var scored := Score(c, [], cos);
    assert Ranked(scored);
    SortRankedIsIdentity(scored);
  }

  /** The answer is the LLM's text with the matches as sources, sent with the user prompt built
      from the matches and the question; a failure goes through the catch block. */
  lemma AnswerCarriesSources(docs: seq<RagDocument>, message: string, cityId: Option<string>, role: Option<string>,
                             history: Option<Json>, embed: string -> Result<seq<real>>, cos: Cosine,
                             llm: LlmCall, systemPrompt: string)
    ensures var m := Matches(docs, cityId, QueryEmbedding(embed(message)), cos);
            var reply := llm(UserPrompt(Context(m), message), systemPrompt);
            var r := Respond(docs, ChatRequest(message, cityId, role, history), embed, cos, llm, systemPrompt);
            (r.Answered? <==> reply.Text?)
            && (r.Answered? ==> r.response == reply.text && r.sources == Sources(m))
            && (!r.Answered? ==> r == LlmFailure(Message(reply.error)))
  {
  }

  /** `role` and `history` are read but change nothing. */
  lemma RoleAndHistoryIgnored(docs: seq<RagDocument>, message: string, cityId: Option<string>,
                              role: Option<string>, history: Option<Json>, role': Option<string>, history': Option<Json>,
                              embed: string -> Result<seq<real>>, cos: Cosine, llm: LlmCall, systemPrompt: string)
    ensures Respond(docs, ChatRequest(message, cityId, role, history), embed, cos, llm, systemPrompt)
         == Respond(docs, ChatRequest(message, cityId, role', history'), embed, cos, llm, systemPrompt)
  {
    AnswerCarriesSources(docs, message, cityId, role, history, embed, cos, llm, systemPrompt);
    AnswerCarriesSources(docs, message, cityId, role', history', embed, cos, llm, systemPrompt);
  }

  /** A message naming Gemini always gives the API-key payload. */
  lemma GeminiMessageIsKeyPayload(message: string)
    requires MentionsGemini(message)
    ensures LlmFailure(message) == KeyNotConfigured
  {
    assert DefaultMessage(message) == message;
  }

  /** Every message `callLLM` throws names Gemini, so it gives the API-key payload. */
  lemma CallLlmErrorIsKeyPayload(e: LlmError)
    ensures LlmFailure(Message(e)) == KeyNotConfigured
  {
    MessageMentionsGemini(e);
    GeminiMessageIsKeyPayload(Message(e));
  }

  /** Behind `callLLM` the generic "Failed to get AI response:" payload never occurs: a request
      the handler can read is answered or gets the API-key payload. */
  lemma ReadableRequestIsAnsweredOrKeyPayload(docs: seq<RagDocument>, message: string, cityId: Option<string>,
                                              role: Option<string>, history: Option<Json>,
                                              embed: string -> Result<seq<real>>, cos: Cosine, llm: LlmCall, systemPrompt: string)
    ensures var r := Respond(docs, ChatRequest(message, cityId, role, history), embed, cos, llm, systemPrompt);
            r.Answered? || r.KeyNotConfigured?
  {
    AnswerIsTextOrKeyPayload(Matches(docs, cityId, QueryEmbedding(embed(message)), cos), message, llm, systemPrompt);
  }

  lemma AnswerIsTextOrKeyPayload(matches: seq<RagDocument>, message: string, llm: LlmCall, systemPrompt: string)
    ensures var r := Answer(matches, message, llm, systemPrompt);
            r.Answered? || r.KeyNotConfigured?
  {
    var reply := llm(UserPrompt(Context(matches), message), systemPrompt);
    if reply.Failure? {
      CallLlmErrorIsKeyPayload(reply.error);
    }
  }
}
