# Farm2Table, modelled in Dafny

Farm2Table is a marketplace where farmers list produce, customers on a basic or premium plan
order it, and drivers deliver it, with a hosted LLM (Gemini) answering chat questions, writing
nutrition advice, recipes and sales insights. This project models the deterministic decision
logic of that system and proves what it promises:

- the in-memory store (`DataStore.Store`, a class whose `seq` fields are the module-level tables of
  `lib/data-store.ts`): first-match lookups, filtered listings, merge updates that replace only the
  first record with the id, appends, first-match delete, the guarded stock decrement, and the
  state machine deriving an order's status from its items' statuses;
- the route handlers: order listing and placement, retrieval ranking for chat, product
  create/update/delete, AI insights, nutrition advice, recipes and the weekly bundle, each as a
  function from the request, the session and the store to the response (with its status code),
  and as a method where the handler changes the store or runs a loop;
- the LLM clients of `lib/llm.ts` and `lib/gemini.ts`: key validation, the retry and backoff
  loop, error classification, the model-fallback loop and its error remapping, the hash embedding,
  and the keyword fallbacks of the nutrition advisor;
- the logic inside three dashboards: the farmer dashboard's insights cleaning and line parser,
  the customer dashboard's cart and premium aggregation and nutrition bars, and the driver
  dashboard's fixed-sequence route;
- the order e-mail of `lib/gmail.ts`: grouping by farm, the body built with `+=`, the raw message
  layout, and the URL-safe base64 alphabet of section 5 of RFC 4648 with the padding dropped as
  section 3.2 of RFC 4648 permits.

Calls the model cannot see are parameters: the LLM (`LlmCall`, a function from the prompt and
system prompt to a text or an error), `JSON.parse` (a function returning `None` where it throws),
the Hugging Face and Gemini embedding replies, `Buffer`'s base64 encoder and the Gmail send,
number formatting, `Date.now()` ids and timestamps, the session, and `Math.random`. The shuffle is given by a
sequence of choices. Every sequence gives a permutation, and every permutation is given by some
sequence.

Some properties show dead paths in the source:

- `callLLM` never throws its third key message (`Llm.KeyErrorCases`).
- Every error `callLLM` throws names Gemini, so the chat route's generic error payload cannot
  follow from it (`ChatRoute.CallLlmErrorIsKeyPayload`).
- When all three Gemini models are unavailable, the caller gets the API-key message rather than
  the model message (`Gemini.AllUnavailableGivesKeyMessage`).
- The farmer dashboard's plain-lines fallback can never show a line
  (`FarmerDashboard.PlainFallbackIsEmpty`).

## Model

| member | source | states |
|---|---|---|
| DataStore.MergeProductFieldwise | Codebase/Farm2Table/lib/data-store.ts:65 | `{ ...product, ...updates }` takes each given field from the patch and keeps every other field; merging the same patch twice equals merging it once |
| DataStore.MinRank | Codebase/Farm2Table/lib/data-store.ts:133-135 | the least advanced item's progress rank: at most that of every item and equal to that of some item |
| DataStore.DeriveIsLeastAdvanced | Codebase/Farm2Table/lib/data-store.ts:133-144 | once every item has at least started preparing, the order status is the least advanced item's status; otherwise the current status is kept, so an order never falls back to created |
| DataStore.WithItemStatus | Codebase/Farm2Table/lib/data-store.ts:128-144 | no result exactly when no item has the (productId, farmId) pair; otherwise only the first such item gets the new status, the order status is re-derived, and `deliveredAt` is stamped exactly when every item is delivered; every other field of the order is unchanged |
| DataStore.Store.constructor | Codebase/Farm2Table/lib/data-store.ts:13-21 | each table starts as the copy of its seed data |
| DataStore.Store.CityById | Codebase/Farm2Table/lib/data-store.ts:25 | `find`: none exactly when no city has the id, else the first city with it |
| DataStore.Store.UserByEmail | Codebase/Farm2Table/lib/data-store.ts:29 | none exactly when no user has the email, else the first user with it |
| DataStore.Store.UserIndex | Codebase/Farm2Table/lib/data-store.ts:32-33 | `findIndex`: -1 exactly when no user has the id, else the first position holding it |
| DataStore.Store.UserById | Codebase/Farm2Table/lib/data-store.ts:30 | none exactly when no user has the id, else the first user with it |
| DataStore.Store.GetFarms | Codebase/Farm2Table/lib/data-store.ts:39-42 | the whole table without a (non-empty) city id; otherwise exactly the farms of that city, in table order |
| DataStore.Store.FarmIndex | Codebase/Farm2Table/lib/data-store.ts:45-46 | -1 exactly when no farm has the id, else the first position holding it |
| DataStore.Store.FarmById | Codebase/Farm2Table/lib/data-store.ts:43 | none exactly when no farm has the id, else the first farm with it |
| DataStore.Store.GetProducts | Codebase/Farm2Table/lib/data-store.ts:52-60 | the products the two optional filters keep, in table order |
| DataStore.Store.ProductIndex | Codebase/Farm2Table/lib/data-store.ts:63-64 | -1 exactly when no product has the id, else the first position holding it |
| DataStore.Store.ProductById | Codebase/Farm2Table/lib/data-store.ts:61 | none exactly when no product has the id, else the first product with it |
| DataStore.Store.SubscriptionByUserId | Codebase/Farm2Table/lib/data-store.ts:94-96 | none exactly when no subscription belongs to the user, else the first one that does |
| DataStore.Store.SubscriptionIndex | Codebase/Farm2Table/lib/data-store.ts:98-99 | -1 exactly when no subscription has the id, else the first position holding it |
| DataStore.Store.GetOrders | Codebase/Farm2Table/lib/data-store.ts:105-108 | every order without a (non-empty) user id; otherwise exactly that user's orders, in table order |
| DataStore.Store.OrderIndex | Codebase/Farm2Table/lib/data-store.ts:120-121 | -1 exactly when no order has the id, else the first position holding it |
| DataStore.Store.OrderById | Codebase/Farm2Table/lib/data-store.ts:109 | none exactly when no order has the id, else the first order with it |
| DataStore.Store.TimelineIndex | Codebase/Farm2Table/lib/data-store.ts:154 | none exactly when the product has no timeline, else the first position of one |
| DataStore.Store.GrowthTimelineByProductId | Codebase/Farm2Table/lib/data-store.ts:150-152 | none exactly when the product has no timeline, else its first timeline |
| DataStore.Store.UpdateUser | Codebase/Farm2Table/lib/data-store.ts:31-36 | for an unknown id: undefined and the table unchanged; otherwise only the first user with the id is replaced by the merge, which is returned |
| DataStore.Store.UpdateFarm | Codebase/Farm2Table/lib/data-store.ts:44-49 | for an unknown id: undefined and the table unchanged; otherwise only the first farm with the id is replaced by the merge, which is returned |
| DataStore.Store.UpdateProduct | Codebase/Farm2Table/lib/data-store.ts:62-67 | for an unknown id: undefined and the table unchanged; otherwise only the first product with the id is replaced by the merge, which is returned |
| DataStore.Store.CreateProduct | Codebase/Farm2Table/lib/data-store.ts:68-75 | exactly one product is appended: the given fields under the new id |
| DataStore.Store.DecrementProductQuantity | Codebase/Farm2Table/lib/data-store.ts:76-81 | false with nothing changed for a missing product or a quantity below the amount; otherwise only the first match loses the amount; a non-negative amount keeps all stock non-negative |
| DataStore.Store.DeleteProduct | Codebase/Farm2Table/lib/data-store.ts:82-87 | false with the table unchanged for an unknown id; otherwise exactly the first product with the id is removed and the rest keep their order |
| DataStore.Store.UpdateSubscription | Codebase/Farm2Table/lib/data-store.ts:97-102 | for an unknown id: undefined and the table unchanged; otherwise only the first subscription with the id is replaced by the merge |
| DataStore.Store.CreateOrder | Codebase/Farm2Table/lib/data-store.ts:110-118 | exactly one order is appended: the given fields under the new id and creation time |
| DataStore.Store.UpdateOrder | Codebase/Farm2Table/lib/data-store.ts:119-124 | for an unknown id: undefined and the table unchanged; otherwise only the first order with the id is replaced by the merge |
| DataStore.Store.UpdateOrderItemStatus | Codebase/Farm2Table/lib/data-store.ts:125-147 | false with nothing changed when the order or the item is missing; otherwise only that order changes, as `WithItemStatus` describes |
| DataStore.Store.UpdateGrowthTimeline | Codebase/Farm2Table/lib/data-store.ts:153-166 | the product's first timeline gets the new entries; without one, a new timeline is appended; no other timeline changes |
| DataStore.Store.UpdateRagEmbeddings | Codebase/Farm2Table/lib/data-store.ts:170-172 | the corpus becomes the given documents |
| DataStore.SelectedProducts | Codebase/Farm2Table/lib/data-store.ts:52-60 | exactly the products that pass both optional filters, each one from the table |
| DataStore.CityFarmIds | Codebase/Farm2Table/lib/data-store.ts:56 | the id list of a city's farms holds exactly the ids of the farms in that city |
| DataStore.SelectionInTwoSteps | Codebase/Farm2Table/lib/data-store.ts:53-59 | the farm filter followed by the city-farm-id filter selects the same sequence as `SelectedProducts` |
| OrdersRoute.ListOrders | Codebase/Farm2Table/app/api/orders/route.ts:16-27 | 401 exactly without a signed-in user; a driver gets every order, anyone else exactly their own orders, in table order |
| OrdersRoute.PriceItem | Codebase/Farm2Table/app/api/orders/route.ts:53-70 | an accepted item's line copies its product id, quantity and farm id and has status created |
| OrdersRoute.PriceItemAccepts | Codebase/Farm2Table/app/api/orders/route.ts:53-67 | an item is accepted exactly when the first product with its id exists, belongs to the requested farm, is available and has at least the requested quantity; the line then carries that product's price |
| OrdersRoute.PriceItems | Codebase/Farm2Table/app/api/orders/route.ts:52-71 | either every item is priced, one line per item in request order, or the result is the error of the first item that fails |
| OrdersRoute.PriceAll | Codebase/Farm2Table/app/api/orders/route.ts:51-71 | the loop computes `PriceItems`, and its running total is the sum of price times quantity over the lines |
| OrdersRoute.PlaceOrder | Codebase/Farm2Table/app/api/orders/route.ts:34-89 | the outcome is `PlaceOutcomeFor` on the tables as the request finds them; the product table is left unchanged; exactly one order is appended when the order is placed, and none otherwise |
| OrdersRoute.PlaceOutcomeCases | Codebase/Farm2Table/app/api/orders/route.ts:36-48 | 401 exactly without a user, 400 exactly for a body the schema refuses, an order exactly when the subscription is the caller's and every item prices; the order belongs to the caller, has status created, the new id, a total equal to the sum of the lines, and quantities of at least 1 |
| OrdersRoute.PriceItemsFailsAtPrefix | Codebase/Farm2Table/app/api/orders/route.ts:52-62 | once a prefix of the items fails, the whole request fails with the same error |
| OrdersRoute.PlacedOrderIsPriced | Codebase/Farm2Table/app/api/orders/route.ts:63-70 | every line of a placed order names an existing, available product of the requested farm with enough stock, and carries its price |
| ChatRoute.Candidates | Codebase/Farm2Table/app/api/ai/chat/route.ts:12-18 | the whole corpus without a city; with one, exactly the documents of that city or of no city, each from the corpus |
| ChatRoute.QueryEmbedding | Codebase/Farm2Table/app/api/ai/chat/route.ts:21-26 | a throwing embedding call leaves the query embedding empty |
| ChatRoute.Score | Codebase/Farm2Table/app/api/ai/chat/route.ts:29-35 | one score per candidate: the cosine when both embeddings are non-empty and 0.5 otherwise, tagged with the candidate's position |
| ChatRoute.Insert | Codebase/Farm2Table/app/api/ai/chat/route.ts:36 | inserting one score lengthens the sequence by one |
| ChatRoute.Sort | Codebase/Farm2Table/app/api/ai/chat/route.ts:36 | sorting keeps the length |
| ChatRoute.InsertKeepsRanked | Codebase/Farm2Table/app/api/ai/chat/route.ts:36 | inserting into a ranked sequence keeps it ranked and adds exactly that element |
| ChatRoute.SortIsRankedPermutation | Codebase/Farm2Table/app/api/ai/chat/route.ts:36 | the sorted scores are in descending similarity, ties in candidate order, and are exactly the input scores |
| ChatRoute.Ranking | Codebase/Farm2Table/app/api/ai/chat/route.ts:29-37 | every ranked entry names a candidate and carries that candidate's similarity |
| ChatRoute.Matches | Codebase/Farm2Table/app/api/ai/chat/route.ts:29-37 | the matches are the candidates the ranking names, in rank order |
| ChatRoute.Snippet | Codebase/Farm2Table/app/api/ai/chat/route.ts:50 | an entry is `[title]: ` followed by the document's text |
| ChatRoute.Context | Codebase/Farm2Table/app/api/ai/chat/route.ts:49-51 | the context is empty exactly when there are no matches, and otherwise starts with the first match's entry |
| ChatRoute.ContextHoldsEveryMatch | Codebase/Farm2Table/app/api/ai/chat/route.ts:49-51 | every match's `[title]: text` entry is in the context, in rank order: each entry starts right after the earlier entries and their blank lines, a blank line follows every entry but the last, and the last entry ends the context |
| Strings.JoinLayout | Codebase/Farm2Table/app/api/ai/chat/route.ts:51 | `join(sep)` places each piece right after the earlier pieces and their separators, puts a separator after every piece but the last, and ends with the last piece |
| Strings.JoinFirst | Codebase/Farm2Table/app/api/ai/chat/route.ts:51 | a join starts with its first piece, followed by the separator when more pieces follow and by nothing otherwise |
| ChatRoute.UserPrompt | Codebase/Farm2Table/app/api/ai/chat/route.ts:53-58 | the prompt starts with `Context:` and holds the context and then the question, each at its fixed offset |
| ChatRoute.Sources | Codebase/Farm2Table/app/api/ai/chat/route.ts:90-93 | one source per match, in rank order, with the match's id and title |
| ChatRoute.LlmFailure | Codebase/Farm2Table/app/api/ai/chat/route.ts:63-86 | the API-key payload exactly when the message (with the `Unknown error` default) names API_KEY, api key, API key, GEMINI or Gemini; otherwise the generic payload with the message |
| ChatRoute.OuterFailure | Codebase/Farm2Table/app/api/ai/chat/route.ts:96-104 | the outer failure carries the thrown message when there is one |
| ChatRoute.RankingIsSortedAndDistinct | Codebase/Farm2Table/app/api/ai/chat/route.ts:36-37 | the ranking has min(3, candidates) entries, is sorted and names each candidate at most once |
| ChatRoute.PrefixOutranksRest | Codebase/Farm2Table/app/api/ai/chat/route.ts:36-37 | in a sorted sequence, each of the first n elements comes before any element outside them |
| ChatRoute.RankingIsTopThree | Codebase/Farm2Table/app/api/ai/chat/route.ts:36-37 | every ranked entry ranks ahead of every candidate that was not chosen |
| ChatRoute.SortRankedIsIdentity | Codebase/Farm2Table/app/api/ai/chat/route.ts:36 | sorting an already ranked sequence changes nothing (the sort is stable) |
| ChatRoute.EmptyQueryKeepsCorpusOrder | Codebase/Farm2Table/app/api/ai/chat/route.ts:21-37 | without a query embedding, including when the embedding call throws, the matches are the first three candidates in corpus order |
| ChatRoute.AnswerCarriesSources | Codebase/Farm2Table/app/api/ai/chat/route.ts:49-95 | the LLM is sent the prompt built from the matches and the question; an answer carries its text unchanged and the matches as sources; a failure goes through the catch block |
| ChatRoute.RoleAndHistoryIgnored | Codebase/Farm2Table/app/api/ai/chat/route.ts:9 | the response does not depend on `role` or `history` |
| ChatRoute.GeminiMessageIsKeyPayload | Codebase/Farm2Table/app/api/ai/chat/route.ts:68-78 | a message naming Gemini always gives the API-key payload |
| ChatRoute.CallLlmErrorIsKeyPayload | Codebase/Farm2Table/app/api/ai/chat/route.ts:68-78 | every error `callLLM` throws gives the API-key payload |
| ChatRoute.ReadableRequestIsAnsweredOrKeyPayload | Codebase/Farm2Table/app/api/ai/chat/route.ts:61-95 | behind `callLLM`, a readable request is answered or gets the API-key payload; the generic payload never occurs |
| ChatRoute.AnswerIsTextOrKeyPayload | Codebase/Farm2Table/app/api/ai/chat/route.ts:60-87 | for any matches and question, the LLM step answers or gives the API-key payload |
| Llm.GetApiKey | Codebase/Farm2Table/lib/llm.ts:5-24 | a key exactly when the trimmed value is non-empty, not the placeholder and at least 20 characters long; the key is then the trimmed value |
| Llm.KeyErrorCases | Codebase/Farm2Table/lib/llm.ts:49-59 | for a refused key, a missing or empty variable gives the "not configured" message and any other value the "invalid" one; the third message is never thrown |
| Llm.ClassifyError | Codebase/Farm2Table/lib/llm.ts:84-97 | a non-retried error is classified in a fixed order: API key, then model not found or 404, then rate limit, then the generic message carrying the original text |
| Llm.FullPrompt | Codebase/Farm2Table/lib/llm.ts:67 | with a non-empty system prompt, the system prompt, a blank line and the prompt; otherwise the prompt alone |
| Llm.Pow2 | Codebase/Farm2Table/lib/llm.ts:78 | `Math.pow(2, attempt)` is at least 1 |
| Llm.CallLlm | Codebase/Farm2Table/lib/llm.ts:48-102 | the call returns exactly the reply, the waits and the number of model calls of `CallOutcome`: the key error before any call, else the attempt loop on the full prompt |
| Llm.AttemptLoop | Codebase/Farm2Table/lib/llm.ts:61-101 | the loop returns exactly the reply, the waits and the number of model calls of `Attempts` from attempt 0 |
| Llm.RetryStep | Codebase/Farm2Table/lib/llm.ts:76-82 | a retried rate limit moves the run on by one attempt, after one more call and one wait of the attempt's backoff |
| Llm.AttemptsCalls | Codebase/Farm2Table/lib/llm.ts:61-101 | at most `retries - attempt` model calls are made, each call but the last is followed by a wait, and the after-retries error occurs exactly when no attempt is left |
| Llm.BackoffRun | Codebase/Farm2Table/lib/llm.ts:78 | a run of n retries has n waits |
| Llm.BackoffRunEntries | Codebase/Farm2Table/lib/llm.ts:78 | the k-th wait of a run starting at attempt s is the backoff of attempt s + k |
| Llm.AttemptsWaits | Codebase/Farm2Table/lib/llm.ts:61-82 | the waits are the backoffs of consecutive attempts |
| Llm.LoopSchedule | Codebase/Farm2Table/lib/llm.ts:61-101 | the loop makes at most `retries` model calls, waits 1000, 2000, 4000, ... ms, fails when it makes no call, and ends in the after-retries error exactly when `retries` allows no attempt |
| Llm.CallSchedule | Codebase/Farm2Table/lib/llm.ts:48-102 | at most `retries` model calls; the waits are 1000, 2000, 4000, ... ms; no model call means a failure; with a usable key, the after-retries error occurs exactly when `retries` allows no attempts |
| Llm.MessageMentionsGemini | Codebase/Farm2Table/lib/llm.ts:53-101 | the text of every error names Gemini or GEMINI |
| Llm.RateLimitedMentions429 | Codebase/Farm2Table/lib/llm.ts:94 | the rate-limit message contains 429 |
| Llm.CallErrorsMentionGemini | Codebase/Farm2Table/lib/llm.ts:48-102 | every failure of a call names Gemini or GEMINI |
| Llm.CodeSumAppend | Codebase/Farm2Table/lib/llm.ts:166 | the character-code sum of a concatenation is the sum of the parts' sums |
| Llm.HashNumerator | Codebase/Farm2Table/lib/llm.ts:166-167 | `hash % 200 - 100` lies in [-100, 99] and is congruent to i plus the code sum, modulo 200 |
| Llm.HashEmbedding | Codebase/Farm2Table/lib/llm.ts:164-169 | n entries; entry i is the numerator over 100, within [-1, 0.99] |
| Llm.HashEmbeddingProperties | Codebase/Farm2Table/lib/llm.ts:164-169 | the embedding repeats every 200 entries and cannot tell a text from its two halves swapped |
| Llm.HfVector | Codebase/Farm2Table/lib/llm.ts:136-151 | `[[...]]` gives the first vector and `[n, ...]` the array itself; `{ embeddings: [...] }` with a non-empty array gives its first vector when that is an array and the list itself otherwise; an object without a non-empty `embeddings` array, any other array, or a value that is neither an array nor an object, gives none |
| Llm.GetTextEmbedding | Codebase/Farm2Table/lib/llm.ts:110-159 | the remote vector when the key is usable and the reply has an accepted shape; the 384-entry hash embedding in every other case |
| Llm.TextAdvice | Codebase/Farm2Table/lib/llm.ts:268-290 | the five fixed target nutrients; one gap message, the shortfall one exactly when the lowercased text says low, deficient or lacking; one placeholder recommendation exactly when it says recommend or suggest |
| Llm.NutritionAdvice | Codebase/Farm2Table/lib/llm.ts:257-304 | a failed call gives the fixed fallback advice; a reply without a brace span gives the keyword advice; a span that parses gives its three fields, each defaulting to an empty array; a span that does not parse gives the fallback |
| Gemini.GetGeminiKey | Codebase/Farm2Table/lib/gemini.ts:5-17 | a key exactly when the trimmed value is non-empty, not the placeholder and at least 10 characters long |
| Gemini.Remap | Codebase/Farm2Table/lib/gemini.ts:89-100 | the outer catch: the key message exactly for an error naming the API key; the model message for one saying not found or not supported; else the generic message; the last two keep the original text |
| Gemini.TryEachModel | Codebase/Farm2Table/lib/gemini.ts:54-88 | the loop computes `TryModels`; it asks a non-empty prefix of the three models in list order, and every model but the last asked reported itself unavailable |
| Gemini.CallGemini | Codebase/Farm2Table/lib/gemini.ts:44-101 | the outcome is `CallGeminiOutcome`; no model is asked exactly when the key is refused; the models asked are a prefix of the list, all but the last unavailable |
| Gemini.TryModelsFirstSuccess | Codebase/Farm2Table/lib/gemini.ts:63-72 | a success is the text of the first model, in list order, that did not report itself unavailable |
| Gemini.AllUnavailableGivesKeyMessage | Codebase/Farm2Table/lib/gemini.ts:88-94 | when every model is unavailable, the thrown message names the API key, so the caller gets the key message |
| Gemini.OtherErrorStops | Codebase/Farm2Table/lib/gemini.ts:79-83 | any other error stops the loop at once with that error |
| Gemini.RefusedKeyIsRemapped | Codebase/Farm2Table/lib/gemini.ts:22-35 | the error for a refused key is remapped to the key message |
| Gemini.GeminiEmbedding | Codebase/Farm2Table/lib/gemini.ts:103-130 | an array embedding as it is, an object's `values`, and the 128-entry hash embedding in every other case, including a refused key or a throwing call |
| FarmerDashboard.DigitRun | Codebase/Farm2Table/components/farmer-dashboard.tsx:693 | the length of the digit run a text starts with: all digits, and the next character, if any, is not one |
| FarmerDashboard.SpaceRun | Codebase/Farm2Table/components/farmer-dashboard.tsx:693 | the length of the whitespace run a text starts with, with no whitespace after it |
| FarmerDashboard.LabelFrom | Codebase/Farm2Table/components/farmer-dashboard.tsx:693 | a label found is a prefix of the text, at least as long as the shortest length still to be tried |
| FarmerDashboard.Label | Codebase/Farm2Table/components/farmer-dashboard.tsx:693-705 | the group of `(.+?):\*\*` is a non-empty prefix of the text |
| FarmerDashboard.LabelFromIsLazy | Codebase/Farm2Table/components/farmer-dashboard.tsx:693-705 | the lazy group: `:**` follows the label, the label has no line terminator, and no shorter candidate is followed by `:**`; no label exactly when every `:**` has a line terminator before it |
| FarmerDashboard.LabelIsLazy | Codebase/Farm2Table/components/farmer-dashboard.tsx:693-705 | the same, from the first character |
| FarmerDashboard.TitleAfterSpaces | Codebase/Farm2Table/components/farmer-dashboard.tsx:693 | a title found is non-empty |
| FarmerDashboard.TitleAfterSpacesIsGreedy | Codebase/Farm2Table/components/farmer-dashboard.tsx:693 | `\s*` gives back whitespace one character at a time: the title is the label after the longest whitespace prefix that lets one match, and none exactly when no prefix does |
| FarmerDashboard.MainHeader | Codebase/Farm2Table/components/farmer-dashboard.tsx:693 | a numbered header starts with `**` and a digit, and has a non-empty title |
| FarmerDashboard.ProductHeader | Codebase/Farm2Table/components/farmer-dashboard.tsx:705 | a product header starts with `**` and its name is the text right after it |
| FarmerDashboard.MainHeaderExample | Codebase/Farm2Table/components/farmer-dashboard.tsx:693 | "**1. Tip:**" is a numbered header titled "Tip" |
| FarmerDashboard.ProductHeaderExample | Codebase/Farm2Table/components/farmer-dashboard.tsx:693-705 | "**Kale:**" is a product header named "Kale" and not a numbered header |
| FarmerDashboard.ItemText | Codebase/Farm2Table/components/farmer-dashboard.tsx:711-712 | a bullet loses its marker and the whitespace after it and is trimmed again; any other line is kept |
| FarmerDashboard.TrimStartSkipsWhitespace | Codebase/Farm2Table/components/farmer-dashboard.tsx:712 | leading whitespace does not change a trim |
| FarmerDashboard.Closed | Codebase/Farm2Table/components/farmer-dashboard.tsx:731-733 | the sections handed over: the finished ones, then the open one if any |
| FarmerDashboard.Step | Codebase/Farm2Table/components/farmer-dashboard.tsx:686-729 | one line keeps the parser state well formed, never drops a finished section, and leaves a section open exactly when one was open or the line has text |
| FarmerDashboard.TextStep | Codebase/Farm2Table/components/farmer-dashboard.tsx:693-728 | a line with text leaves a section open and never drops a finished section |
| FarmerDashboard.BlankLineClosesGroup | Codebase/Farm2Table/components/farmer-dashboard.tsx:688-691 | a blank line adds nothing and closes the open product group |
| FarmerDashboard.MainHeaderOpensSection | Codebase/Farm2Table/components/farmer-dashboard.tsx:695-701 | a numbered header finishes the open section and opens an empty one under the trimmed title |
| FarmerDashboard.ProductHeaderOpensGroup | Codebase/Farm2Table/components/farmer-dashboard.tsx:702-708 | inside a section, a product header appends an empty group under the trimmed name and makes it the open group |
| FarmerDashboard.ItemGoesToOpenGroup | Codebase/Farm2Table/components/farmer-dashboard.tsx:709-723 | inside a section, any other line with text becomes one item, of the open group if there is one, else of the section's regular items |
| FarmerDashboard.TextBeforeAnySectionIsInsights | Codebase/Farm2Table/components/farmer-dashboard.tsx:724-729 | before any section, a line with text that is not a numbered header opens "Insights" holding the trimmed line itself |
| FarmerDashboard.Run | Codebase/Farm2Table/components/farmer-dashboard.tsx:686-729 | the state after any lines is well formed |
| FarmerDashboard.ParseInsightText | Codebase/Farm2Table/components/farmer-dashboard.tsx:682-734 | the `forEach` and the final push give exactly the sections of `ParseSpec` |
| FarmerDashboard.OpenAfterFirstText | Codebase/Farm2Table/components/farmer-dashboard.tsx:686-729 | a section is open exactly after the first line with text, and nothing is finished before it |
| FarmerDashboard.EmptyIffAllBlank | Codebase/Farm2Table/components/farmer-dashboard.tsx:731-736 | the parse has no section exactly when every line is blank |
| FarmerDashboard.SectionsInInputOrder | Codebase/Farm2Table/components/farmer-dashboard.tsx:686-733 | sections are finished in input order and the open one comes last |
| FarmerDashboard.SectionsSizeSnoc | Codebase/Farm2Table/components/farmer-dashboard.tsx:731-733 | the entries of one more section add up |
| FarmerDashboard.GroupsSizeSnoc | Codebase/Farm2Table/components/farmer-dashboard.tsx:707 | the entries of one more product group add up |
| FarmerDashboard.ImplicitStartHasText | Codebase/Farm2Table/components/farmer-dashboard.tsx:724-727 | a report whose first line with text is not a numbered header has text |
| FarmerDashboard.StepCounts | Codebase/Farm2Table/components/farmer-dashboard.tsx:686-729 | one line adds one entry if it has text, plus the "Insights" title when it opens that section, and nothing otherwise |
| FarmerDashboard.EveryTextLineLandsOnce | Codebase/Farm2Table/components/farmer-dashboard.tsx:682-734 | every line with text lands exactly once, as a title, a product name or an item; the only other entry is an implicit "Insights" title |
| FarmerDashboard.StripMarker | Codebase/Farm2Table/components/farmer-dashboard.tsx:647-649 | removing a marker never lengthens the text and leaves a text without it unchanged |
| FarmerDashboard.FenceAtIsOccurrence | Codebase/Farm2Table/components/farmer-dashboard.tsx:649 | a fence at a position is an occurrence of three backticks there |
| FarmerDashboard.NoFenceAcross | Codebase/Farm2Table/components/farmer-dashboard.tsx:649 | two fence-free texts joined, the first not ending in a backtick, hold no fence |
| FarmerDashboard.BeforeFirstFence | Codebase/Farm2Table/components/farmer-dashboard.tsx:649 | before the first fence there is none, and no backtick right in front of it |
| FarmerDashboard.StripLeavesNoFence | Codebase/Farm2Table/components/farmer-dashboard.tsx:649 | removing every fence leaves no fence |
| FarmerDashboard.NoFenceInSlice | Codebase/Farm2Table/components/farmer-dashboard.tsx:650-655 | a slice of a fence-free text is fence-free |
| FarmerDashboard.NoFenceInTrim | Codebase/Farm2Table/components/farmer-dashboard.tsx:650 | trimming a fence-free text leaves it fence-free |
| FarmerDashboard.NoFenceInBraceSpan | Codebase/Farm2Table/components/farmer-dashboard.tsx:652-655 | the brace span of a fence-free text is fence-free |
| FarmerDashboard.CleanedTextHasNoFence | Codebase/Farm2Table/components/farmer-dashboard.tsx:647-657 | the text handed to `JSON.parse` holds no code fence |
| FarmerDashboard.Cards | Codebase/Farm2Table/components/farmer-dashboard.tsx:815-819 | at most three cards, each truthy |
| FarmerDashboard.View | Codebase/Farm2Table/components/farmer-dashboard.tsx:637-736 | nothing for an empty report; the structured cards exactly when the cleaned text parses with one of the three fields truthy; otherwise the parsed sections when there are any |
| FarmerDashboard.CardsInKeyOrder | Codebase/Farm2Table/components/farmer-dashboard.tsx:815-819 | the cards keep the order weather, demand, consumer and skip exactly the missing or falsy fields |
| FarmerDashboard.PlainFallbackIsEmpty | Codebase/Farm2Table/components/farmer-dashboard.tsx:736-745 | the plain-lines fallback never shows a line, since there is no section only when every line is blank |
| CustomerDashboard.NewLine | Codebase/Farm2Table/components/customer-dashboard.tsx:1212-1219 | a new line is for the product, with one unit at the product's price |
| CustomerDashboard.SetQuantity | Codebase/Farm2Table/components/customer-dashboard.tsx:1227-1231 | the product's lines get the new quantity and every other line is unchanged |
| CustomerDashboard.Without | Codebase/Farm2Table/components/customer-dashboard.tsx:1236 | no line for the product is left |
| CustomerDashboard.AddToCart | Codebase/Farm2Table/components/customer-dashboard.tsx:1203-1221 | a product already in the cart gets one more unit and nothing else changes; a new product gets a one-unit line at the end |
| CustomerDashboard.UpdateQuantity | Codebase/Farm2Table/components/customer-dashboard.tsx:1223-1233 | a quantity of zero or less removes the product's line; any other sets it, changing nothing else |
| CustomerDashboard.RemoveFromCart | Codebase/Farm2Table/components/customer-dashboard.tsx:1235-1237 | the product has no line afterwards |
| CustomerDashboard.WithoutKeepsOthers | Codebase/Farm2Table/components/customer-dashboard.tsx:1236 | the lines kept are exactly those for other products |
| CustomerDashboard.WithoutDropsTheLine | Codebase/Farm2Table/components/customer-dashboard.tsx:1236 | with one line per product, filtering drops exactly that line and keeps the order of the rest |
| CustomerDashboard.WithoutAbsent | Codebase/Farm2Table/components/customer-dashboard.tsx:1236 | filtering out a product without a line changes nothing |
| CustomerDashboard.RemoveKeepsOrder | Codebase/Farm2Table/components/customer-dashboard.tsx:1235-1237 | removing drops exactly the product's line and keeps the others in order |
| CustomerDashboard.WithoutKeepsDistinct | Codebase/Farm2Table/components/customer-dashboard.tsx:1236 | filtering keeps one line per product and every line's quantity positive |
| CustomerDashboard.CartOpsKeepDistinct | Codebase/Farm2Table/components/customer-dashboard.tsx:1203-1237 | adding, updating and removing keep one line per product |
| CustomerDashboard.ApplyKeepsInvariant | Codebase/Farm2Table/components/customer-dashboard.tsx:1334-1388 | every button keeps one line per product and at least one unit per line |
| CustomerDashboard.ReachableCartsArePositive | Codebase/Farm2Table/components/customer-dashboard.tsx:1334-1388 | every cart the buttons can reach has one line per product, each with at least one unit |
| CustomerDashboard.AddRaisesTotal | Codebase/Farm2Table/components/customer-dashboard.tsx:1273 | adding raises the total by one unit's price: the line's price for a product in the cart, the product's for a new one |
| CustomerDashboard.RemoveLowersTotal | Codebase/Farm2Table/components/customer-dashboard.tsx:1273 | removing a line lowers the total by that line's price times quantity |
| CustomerDashboard.Ids | Codebase/Farm2Table/components/customer-dashboard.tsx:330-333 | the ids of the weekly entries, in order |
| CustomerDashboard.Position | Codebase/Farm2Table/components/customer-dashboard.tsx:325 | the entry of the id, and none exactly when the map has no such key |
| CustomerDashboard.TallySnoc | Codebase/Farm2Table/components/customer-dashboard.tsx:323-328 | one more item records itself into the map |
| CustomerDashboard.TallyStep | Codebase/Farm2Table/components/customer-dashboard.tsx:323-328 | the inner loop's step records the next item |
| CustomerDashboard.PremiumWeeklyItems | Codebase/Farm2Table/components/customer-dashboard.tsx:320-334 | the nested loops give exactly the tally of all the orders' items |
| CustomerDashboard.RecordItems | Codebase/Farm2Table/components/customer-dashboard.tsx:323-326 | the inner loop over one order's items extends the tally of the earlier items to the tally with this order's items |
| CustomerDashboard.RecordItem | Codebase/Farm2Table/components/customer-dashboard.tsx:324-325 | one `set` adds the item's quantity to its product's entry in place, or appends a new entry |
| CustomerDashboard.ProductIds | Codebase/Farm2Table/components/customer-dashboard.tsx:325-326 | the product ids of the items, in order |
| CustomerDashboard.TallyInFirstSeenOrder | Codebase/Farm2Table/components/customer-dashboard.tsx:320-334 | one entry per product, in the order in which products first appear |
| CustomerDashboard.TallySumsPerProduct | Codebase/Farm2Table/components/customer-dashboard.tsx:320-334 | each entry holds its product's summed quantity; a product without an entry has no items |
| CustomerDashboard.TallyKeepsGrandTotal | Codebase/Farm2Table/components/customer-dashboard.tsx:320-334 | the entries' quantities add up to all the items' quantities |
| CustomerDashboard.FirstSeenIsDistinct | Codebase/Farm2Table/components/customer-dashboard.tsx:330 | the map's keys are the occurring ids, each once |
| CustomerDashboard.Percentage | Codebase/Farm2Table/components/customer-dashboard.tsx:756 | the bar's percentage is at most 100, and exactly 100 when the amount reaches the goal |
| CustomerDashboard.Classify | Codebase/Farm2Table/components/customer-dashboard.tsx:757-759 | low below 70, good from 70 to below 100, high from 100: exactly one holds |
| CustomerDashboard.ScaleKeepsOrder | Codebase/Farm2Table/components/customer-dashboard.tsx:756-757 | multiplying by a positive factor keeps strict order |
| CustomerDashboard.LowBelowSeventyPercent | Codebase/Farm2Table/components/customer-dashboard.tsx:756-757 | the bar is low exactly when the amount is below 70% of the goal, the same condition the advice list uses |
| CustomerDashboard.BarLevels | Codebase/Farm2Table/components/customer-dashboard.tsx:755-782 | "Goal met!" exactly when the amount reaches the goal, "Needs more" exactly below 70% of it |
| CustomerDashboard.QuotientScale | Codebase/Farm2Table/components/customer-dashboard.tsx:756 | dividing and multiplying back by a positive goal gives the amount |
| DriverDashboard.PendingOrders | Codebase/Farm2Table/components/driver-dashboard.tsx:61-63 | exactly the fetched orders that are not delivered and have non-zero coordinates |
| DriverDashboard.ById_IsLastWithId | Codebase/Farm2Table/components/driver-dashboard.tsx:79-82 | the map knows exactly the orders' ids, each mapped to the last order with that id |
| DriverDashboard.ById_IsKeyedById | Codebase/Farm2Table/components/driver-dashboard.tsx:79-82 | every order is stored under its own id |
| DriverDashboard.BuildOrdersMap | Codebase/Farm2Table/components/driver-dashboard.tsx:79-82 | the `forEach` builds exactly `ById` |
| DriverDashboard.StopFor | Codebase/Farm2Table/components/driver-dashboard.tsx:86-99 | a stop exactly for an id whose order has coordinates, copying that order's id, coordinates and "street, city, state" |
| DriverDashboard.Stops | Codebase/Farm2Table/components/driver-dashboard.tsx:85-100 | at most one stop per id of the sequence |
| DriverDashboard.OptimizeRoute | Codebase/Farm2Table/components/driver-dashboard.tsx:71-104 | nothing changes without orders; otherwise at most seven stops |
| DriverDashboard.StopIds | Codebase/Farm2Table/components/driver-dashboard.tsx:92 | the order ids of the stops, in order |
| DriverDashboard.StopsFollowSequence | Codebase/Farm2Table/components/driver-dashboard.tsx:85-100 | the stops' ids are the sequence's ids that have an order with coordinates, in sequence order, each stop being that order's |
| DriverDashboard.StopsAreDistinct | Codebase/Farm2Table/components/driver-dashboard.tsx:85-100 | distinct ids give distinct stops |
| DriverDashboard.RouteOrderIdsAreDistinct | Codebase/Farm2Table/components/driver-dashboard.tsx:77 | the fixed sequence repeats no id |
| DriverDashboard.RouteIsFixedSequence | Codebase/Farm2Table/components/driver-dashboard.tsx:71-104 | with orders, the route has at most seven distinct stops in the fixed order, each its order's; with all orders located, its ids are exactly the sequence's ids among the orders |
| DriverDashboard.RoutePath | Codebase/Farm2Table/components/driver-dashboard.tsx:142-147 | empty without a route; otherwise the depot followed by each stop's coordinates |
| DriverDashboard.EstimatedDistance | Codebase/Farm2Table/components/driver-dashboard.tsx:262 | never negative, zero exactly for an empty route, and at most 17.5 exactly for seven stops or fewer |
| DriverDashboard.EachStopAddsDistance | Codebase/Farm2Table/components/driver-dashboard.tsx:262 | 2.5 km per stop: one more stop adds exactly 2.5 to the estimate |
| DriverDashboard.StatusLabel | Codebase/Farm2Table/components/driver-dashboard.tsx:126-139 | the four statuses get their fixed labels and any other text is shown as it is |
| DriverDashboard.StatusColor | Codebase/Farm2Table/components/driver-dashboard.tsx:111-124 | grey exactly for a text that is not one of the four statuses |
| DriverDashboard.StatusBadgesAreDistinct | Codebase/Farm2Table/components/driver-dashboard.tsx:111-139 | different statuses get different labels and different colours |
| WeeklyBox.Lookup | Codebase/Farm2Table/lib/data-store.ts:61 | a product found for an id carries that id |
| WeeklyBox.LookupFindsFirst | Codebase/Farm2Table/lib/data-store.ts:61 | the lookup gives the first product with the id, and nothing exactly when no product has it |
| WeeklyBox.Known | Codebase/Farm2Table/app/api/nutrition/advice/route.ts:33-36 | the items whose product exists, in request order, at most as many as requested |
| WeeklyBox.KnownSnoc | Codebase/Farm2Table/app/api/nutrition/advice/route.ts:33-46 | one more item adds itself to the known items exactly when its product exists |
| WeeklyBox.AllergiesAndNotes | Codebase/Farm2Table/app/api/nutrition/advice/route.ts:49 | the given allergies when non-empty, and "None" when missing or empty |
| WeeklyBox.UnknownItemsAreSkipped | Codebase/Farm2Table/app/api/nutrition/recipe/route.ts:27-33 | an item whose product is unknown leaves no text (the `null` the `filter(Boolean)` drops) |
| WeeklyBox.OneTextPerKnownItem | Codebase/Farm2Table/app/api/nutrition/recipe/route.ts:27-33 | one text per known item, in request order, made from its product and the requested quantity |
| NutritionAdvice.EffectiveQuantity | Codebase/Farm2Table/app/api/nutrition/advice/route.ts:38 | `item.quantity \|\| 1`: zero counts as one, any other quantity as itself |
| NutritionAdvice.RoundToCents | Codebase/Farm2Table/app/api/nutrition/advice/route.ts:57-61 | `Math.round(x * 100) / 100` is a whole number of hundredths within half a hundredth of x |
| NutritionAdvice.RoundingKeepsCents | Codebase/Farm2Table/app/api/nutrition/advice/route.ts:57-61 | a whole number of hundredths is not changed by the rounding, so rounding is idempotent |
| NutritionAdvice.RoundedTotals | Codebase/Farm2Table/app/api/nutrition/advice/route.ts:56-62 | each of the five weekly totals is rounded to hundredths |
| NutritionAdvice.TableStep | Codebase/Farm2Table/app/api/nutrition/advice/route.ts:34-45 | one more item adds its line and its nutrients times its effective quantity exactly when its product exists |
| NutritionAdvice.TableAndTotals | Codebase/Farm2Table/app/api/nutrition/advice/route.ts:27-47 | the loop builds exactly the items table (known items' lines joined by newlines) and the five running totals |
| NutritionAdvice.Post | Codebase/Farm2Table/app/api/nutrition/advice/route.ts:16-71 | the handler's answer is `Respond` |
| NutritionAdvice.ResponseCases | Codebase/Farm2Table/app/api/nutrition/advice/route.ts:16-71 | 401 exactly without a user id; 400 exactly for a body of the wrong shape; 500 exactly for one that is not JSON; otherwise the advisor's answer on the notes and the table, with the rounded totals |
| NutritionAdvice.UnknownItemsAddNothing | Codebase/Farm2Table/app/api/nutrition/advice/route.ts:35-36 | an item whose product is unknown adds nothing to the totals |
| NutritionAdvice.PlusAssociates | Codebase/Farm2Table/app/api/nutrition/advice/route.ts:39-43 | adding nutrient records is associative |
| NutritionAdvice.TotalsAdd | Codebase/Farm2Table/app/api/nutrition/advice/route.ts:27-45 | the totals over two runs of items are the sum of the totals over each |
| NutritionAdvice.SingleItemTotals | Codebase/Farm2Table/app/api/nutrition/advice/route.ts:37-43 | a known item adds its product's nutrition times its effective quantity |
| NutritionAdvice.ZeroCountsAsOne | Codebase/Farm2Table/app/api/nutrition/advice/route.ts:38-44 | a zero quantity is totalled as one unit while the table still shows the zero |
| ProductRoute.Draft | Codebase/Farm2Table/app/api/product/route.ts:7-23 | the new product's draft keeps the body's fields; `available` defaults to true and a missing nutrition becomes all zeros |
| ProductRoute.Updates | Codebase/Farm2Table/app/api/product/route.ts:25-41 | the updates are the body's optional fields and never an id or a farm id, which the update schema does not know |
| ProductRoute.Post | Codebase/Farm2Table/app/api/product/route.ts:43-75 | the answer is `CreateOutcome`; the product table gains the created product at its end exactly when one is created, and is unchanged otherwise |
| ProductRoute.Put | Codebase/Farm2Table/app/api/product/route.ts:77-101 | the answer is `UpdateOutcome` on the table as found; on success only the first product with the id is replaced, by the merged product; otherwise the table is unchanged |
| ProductRoute.Delete | Codebase/Farm2Table/app/api/product/route.ts:103-127 | the answer is `DeleteOutcome`; on success the first product with the id is removed and the rest keep their order; otherwise the table is unchanged |
| ProductRoute.CreateCases | Codebase/Farm2Table/app/api/product/route.ts:43-75 | 401 exactly for a non-farmer, 500 exactly for a body that is not JSON, 400 exactly for one the schema refuses, 200 otherwise; the created product carries the new id and the body's fields, with a non-negative price and quantity |
| ProductRoute.UpdateCases | Codebase/Farm2Table/app/api/product/route.ts:77-101 | 401, 500 and 400 as for creation; 404 exactly when no product has the id; otherwise the first product with the id, merged, keeping its id and its farm |
| ProductRoute.UpdateAppliesGivenFields | Codebase/Farm2Table/app/api/product/route.ts:87-88 | a field the body leaves out keeps the product's value and a given one replaces it; id and farm id never change |
| ProductRoute.DeleteCases | Codebase/Farm2Table/app/api/product/route.ts:103-127 | 401 exactly for a non-farmer; 400 exactly for a missing or empty id; 404 exactly when no product has it; 200 exactly when one does |
| AiInsights.Caught | Codebase/Farm2Table/app/api/farmer/ai-insights/route.ts:60-83 | the catch block answers 429 exactly when the message (or "Unknown error" for an empty one) names 429, "Rate limit" or "Too Many Requests", and otherwise 500 with that message after the fixed head |
| AiInsights.ResponseCases | Codebase/Farm2Table/app/api/farmer/ai-insights/route.ts:6-83 | 401 exactly without a farm id; otherwise the LLM's text unchanged as the insights, or the catch block on the thrown message; a 429 always carries the waiting advice |
| AiInsights.ExhaustedRateLimitIs429 | Codebase/Farm2Table/app/api/farmer/ai-insights/route.ts:65-73 | the rate-limit error the LLM client throws after its retries is answered 429 |
| AiInsights.OtherErrorsKeepTheirMessage | Codebase/Farm2Table/app/api/farmer/ai-insights/route.ts:76-82 | an error that names no rate limit is answered 500 with its full message after the fixed head, and with the apology as insights |
| WeeklyBundle.Without | Codebase/Farm2Table/app/api/orders/weekly-bundle/route.ts:24 | removing one element shortens the candidates by one |
| WeeklyBundle.Pick | Codebase/Farm2Table/app/api/orders/weekly-bundle/route.ts:24 | a choice always names a position among the remaining candidates |
| WeeklyBundle.Shuffle | Codebase/Farm2Table/app/api/orders/weekly-bundle/route.ts:24 | the random sort keeps the number of candidates |
| WeeklyBundle.ShuffleIsPermutation | Codebase/Farm2Table/app/api/orders/weekly-bundle/route.ts:24 | every outcome of the random sort is a permutation of the candidates |
| WeeklyBundle.EveryOrderIsReachable | Codebase/Farm2Table/app/api/orders/weekly-bundle/route.ts:24 | every permutation of the candidates is an outcome of the random sort |
| WeeklyBundle.ShuffleKeepsDistinct | Codebase/Farm2Table/app/api/orders/weekly-bundle/route.ts:24 | the random sort of distinct candidates repeats none |
| WeeklyBundle.Picked | Codebase/Farm2Table/app/api/orders/weekly-bundle/route.ts:23-25 | `slice(0, 5)` keeps min(5, number of candidates) of them, a sub-multiset of the candidates |
| WeeklyBundle.BundleContents | Codebase/Farm2Table/app/api/orders/weekly-bundle/route.ts:19-33 | the bundle has min(5, number of candidates) items; each is a candidate with quantity 1 and that candidate's id, name, unit, price and farm |
| WeeklyBundle.BundleHasNoRepeats | Codebase/Farm2Table/app/api/orders/weekly-bundle/route.ts:23-25 | distinct candidates give a bundle without repeats |
| WeeklyBundle.ResponseCases | Codebase/Farm2Table/app/api/orders/weekly-bundle/route.ts:6-76 | 401 exactly without a user id; 400 exactly without a basic-plan subscription; otherwise a bundle of the in-stock products of the subscription's city, with the message only from `POST` |
| WeeklyBundle.CandidatesAreInStock | Codebase/Farm2Table/app/api/orders/weekly-bundle/route.ts:20 | the candidates are exactly the city's products that are available with a quantity above zero |
| NutritionRecipe.FallbackRecipe | Codebase/Farm2Table/app/api/nutrition/recipe/route.ts:79-90 | the fixed recipe: title "Custom Recipe", 4 servings, three instructions, and ingredients that join back into the foods string |
| NutritionRecipe.FromReply | Codebase/Farm2Table/app/api/nutrition/recipe/route.ts:67-90 | the parsed brace span exactly when the reply has one and it parses; the fallback recipe otherwise |
| NutritionRecipe.ResponseCases | Codebase/Farm2Table/app/api/nutrition/recipe/route.ts:16-98 | 401 exactly without a user id; 400 exactly for a body of the wrong shape; 500 exactly for a body that is not JSON or a failing LLM call; otherwise the recipe read out of the reply |
| NutritionRecipe.FallbackRecoversEntries | Codebase/Farm2Table/app/api/nutrition/recipe/route.ts:27-34 | when at least one product is known and no entry contains ", ", the fallback's ingredients are exactly the food entries |
| NutritionRecipe.EntryWithSeparatorSplits | Codebase/Farm2Table/app/api/nutrition/recipe/route.ts:83 | a single entry that contains ", " is split into two or more ingredients |
| NutritionRecipe.NoKnownProductGivesOneEmptyIngredient | Codebase/Farm2Table/app/api/nutrition/recipe/route.ts:27-34 | with no known product the foods string is empty and the fallback lists one empty ingredient |
| Gmail.FarmIds | Codebase/Farm2Table/lib/gmail.ts:24 | the keys of `itemsByFarm`, in its order |
| Gmail.GroupIndex | Codebase/Farm2Table/lib/gmail.ts:30 | the position of the farm's entry, and none exactly when the map has no such key |
| Gmail.GroupByFarm | Codebase/Farm2Table/lib/gmail.ts:24-34 | the loop builds exactly `Grouped` |
| Gmail.FirstSeenIsDistinct | Codebase/Farm2Table/lib/gmail.ts:30-32 | the farms with an entry are the farms of the items with a product, each once |
| Gmail.NoLinesForUnseenFarm | Codebase/Farm2Table/lib/gmail.ts:27-28 | a farm none of whose items has a product has no lines |
| Gmail.AddLineFarmIds | Codebase/Farm2Table/lib/gmail.ts:30-33 | adding a line creates an entry at the end exactly when the farm has none |
| Gmail.AddLineLines | Codebase/Farm2Table/lib/gmail.ts:33 | the line is pushed onto its farm's entry and no other |
| Gmail.GroupOrder | Codebase/Farm2Table/lib/gmail.ts:24-34 | the entries are in the order of each farm's first item with a product, each farm once |
| Gmail.LinesOfStep | Codebase/Farm2Table/lib/gmail.ts:26-34 | one more item adds its line to its farm exactly when its product exists |
| Gmail.GroupLines | Codebase/Farm2Table/lib/gmail.ts:24-34 | each entry holds exactly the lines of its farm's items with a product, in item order |
| Gmail.ItemLinesStep | Codebase/Farm2Table/lib/gmail.ts:51-53 | one more item appends its line to the farm's lines |
| Gmail.SectionsStep | Codebase/Farm2Table/lib/gmail.ts:48-54 | one more farm appends its heading and its item lines to the sections |
| Gmail.BuildSection | Codebase/Farm2Table/lib/gmail.ts:50-53 | the inner loop gives the farm's heading followed by its item lines |
| Gmail.BuildBody | Codebase/Farm2Table/lib/gmail.ts:36-58 | the `+=` loops give exactly the body: the opening block, one section per farm entry in order, then the totals and the link |
| Gmail.JoinWithBlankLine | Codebase/Farm2Table/lib/gmail.ts:85-91 | joining the five message lines puts "\n" between them, giving one blank line before the body |
| Gmail.RawMessageIsHeadersThenBody | Codebase/Farm2Table/lib/gmail.ts:85-91 | the raw message is the three header lines, a blank line and the body |
| Gmail.ThreeLines | Codebase/Farm2Table/lib/gmail.ts:86-88 | three non-empty lines without line breaks, joined, hold no empty line |
| Gmail.FirstBlankLine | Codebase/Farm2Table/lib/gmail.ts:89-90 | after a block with no empty line, the first "\n\n" is the one right after it |
| Gmail.ContentTypeIsOneLine | Codebase/Farm2Table/lib/gmail.ts:88 | the content-type header is one non-empty line |
| Gmail.HeadersEndAtFirstBlankLine | Codebase/Farm2Table/lib/gmail.ts:85-91 | with no line break in the recipient or subject, the first blank line ends the headers, so the body is never read as a header |
| Gmail.ReplaceChar | Codebase/Farm2Table/lib/gmail.ts:95-96 | every occurrence of the character is replaced and nothing else changes |
| Gmail.StripTrailing | Codebase/Farm2Table/lib/gmail.ts:97 | the longest prefix not ending in the character; what is removed is that character only |
| Gmail.ToUrlAlphabet | Codebase/Farm2Table/lib/gmail.ts:95-96 | `+` becomes `-`, `/` becomes `_`, every other character is kept |
| Gmail.UrlSafe | Codebase/Farm2Table/lib/gmail.ts:93-97 | the result has no `+` or `/` and does not end in `=` |
| Gmail.Padding | Codebase/Farm2Table/lib/gmail.ts:97 | n `=` characters |
| Gmail.FromUrlAlphabet | Codebase/Farm2Table/lib/gmail.ts:95-96 | the inverse rewrite of the alphabet, character by character |
| Gmail.AlphabetRoundTrip | Codebase/Farm2Table/lib/gmail.ts:95-96 | on base64 characters the rewrite gives URL-safe characters other than `=` and is undone exactly |
| Gmail.PaddedAlphabet | Codebase/Farm2Table/lib/gmail.ts:95-97 | the alphabet rewrite leaves the padding as it is |
| Gmail.StripPadding | Codebase/Farm2Table/lib/gmail.ts:97 | stripping trailing `=` removes exactly the padding of a text that does not end in `=` |
| Gmail.PadCount | Codebase/Farm2Table/lib/gmail.ts:97 | the padding is recovered from the length of the unpadded text |
| Gmail.UrlSafeOfPadded | Codebase/Farm2Table/lib/gmail.ts:93-97 | padded base64 comes out as its characters in the URL-safe alphabet, padding dropped |
| Gmail.UrlSafeRoundTrip | Codebase/Farm2Table/lib/gmail.ts:93-97 | on base64 text the encoding has only URL-safe characters and decodes back to the original, padding included |
| Gmail.SendOrderEmail | Codebase/Farm2Table/lib/gmail.ts:8-112 | "Order not found" and "User not found" without sending, and failure exactly then; MOCK mode succeeds without sending; otherwise the URL-safe encoding of the raw message is sent and the message says whether delivery worked |
| Strings.TrimStart | Codebase/Farm2Table/components/farmer-dashboard.tsx:687 | what is removed from the front is whitespace, and what is left does not start with whitespace |
| Strings.TrimEnd | Codebase/Farm2Table/components/farmer-dashboard.tsx:687 | what is removed from the end is whitespace, and what is left does not end with whitespace |
| Strings.Trim | Codebase/Farm2Table/components/farmer-dashboard.tsx:687 | `trim` is no longer than its input, has no whitespace at its ends, and is empty exactly for an all-whitespace text |
| Strings.TrimShape | Codebase/Farm2Table/components/farmer-dashboard.tsx:687 | `trim` gives a slice of its input with only whitespace cut at both ends |
| Strings.TrimIdempotent | Codebase/Farm2Table/components/farmer-dashboard.tsx:687 | trimming twice is trimming once |
| Strings.IndexOf | Codebase/Farm2Table/app/api/nutrition/recipe/route.ts:83 | the position of the first occurrence, and none exactly when there is no occurrence |
| Strings.Split | Codebase/Farm2Table/app/api/nutrition/recipe/route.ts:83 | `split` always gives at least one piece |
| Strings.JoinSplit | Codebase/Farm2Table/app/api/nutrition/recipe/route.ts:83 | joining the pieces of a split with the same separator gives the text back |
| Strings.SplitJoin | Codebase/Farm2Table/app/api/nutrition/recipe/route.ts:83 | splitting a join recovers the pieces when no piece contains the (unbordered) separator |
| Strings.ToLowerAscii | Codebase/Farm2Table/lib/llm.ts:269 | `toLowerCase` maps each character on its own and keeps the length |
| Strings.LastIndexOfChar | Codebase/Farm2Table/app/api/nutrition/recipe/route.ts:68 | the last position holding the character, and none exactly when it does not occur |
| Strings.BraceSpan | Codebase/Farm2Table/app/api/nutrition/recipe/route.ts:68 | a match of `/\{[\s\S]*\}/` opens with `{` and closes with `}` |
| Strings.BraceSpanIsGreedy | Codebase/Farm2Table/app/api/nutrition/recipe/route.ts:68 | the match runs from the first `{` to the last `}` after it, and there is none exactly when no `{` comes before a `}` |
| Seqs.FirstIndex | Codebase/Farm2Table/lib/data-store.ts:63 | `findIndex`: the first position satisfying the predicate, and none exactly when no element does |
| Seqs.Find | Codebase/Farm2Table/lib/data-store.ts:61 | `find`: the first element satisfying the predicate, and none exactly when no element does |
| Seqs.Filter | Codebase/Farm2Table/app/api/orders/weekly-bundle/route.ts:20 | `filter`: the elements satisfying the predicate, all of them, a sub-multiset of the input |
| Seqs.FilterAppend | Codebase/Farm2Table/app/api/orders/weekly-bundle/route.ts:20 | filtering a concatenation is concatenating the filtered parts |
| Seqs.Map | Codebase/Farm2Table/app/api/orders/weekly-bundle/route.ts:26-33 | `map`: same length, each element transformed |
| JsonValues.Field | Codebase/Farm2Table/components/farmer-dashboard.tsx:664 | a property read is the object's field, and undefined for a missing one or a non-object |
| JsonValues.OrEmptyArray | Codebase/Farm2Table/lib/llm.ts:262-266 | `value \|\| []`: a truthy value as it is, an empty array otherwise |

## Left out

- Numbers: money, quantities and nutrients are exact `real`s, not IEEE doubles. Rounding error, NaN and infinities are not modelled. Cart quantities are `int`s, since the cart buttons only ever add or subtract one.
- Number formatting (`String(n)` in template literals, `toFixed`): `show` and `money` parameters. The text they produce is not modelled.
- The seed tables of `lib/data-store.ts` (13-21) are loaded from JSON files that are not part of this model. `DataStore.Store.constructor` takes them as arguments.
- `getCities`, `getUsers`, `getTestimonials`, `getSubscriptions` and `getRAGDocuments` return a whole table. They are reads of the class's fields and have no member of their own.
- Network and SDK calls are parameters (oracles): the Gemini SDK, the Hugging Face `fetch`, the Gmail API with its OAuth client, next-auth's `getServerSession`, `JSON.parse`, `JSON.stringify` and Node's `Buffer` base64 encoder. The base64 encoder's output is assumed to be base64 text, as section 4 of RFC 4648 defines it.
- The cached `genAI` clients of `lib/llm.ts` (27-40) and `lib/gemini.ts` (20-42): the cache changes nothing observable, so clients are not modelled.
- Zod `parse`: each request body is a datatype with three cases (not JSON, wrong shape, the fields), and the schema's numeric bounds are predicates. Zod's own error messages are not modelled.
- The backoff waits of `callLLM` (`setTimeout`) are recorded as a list of waits in milliseconds, not taken. The same goes for the driver dashboard's 500 ms delay and its loading flag.
- `Math.random`: the comparator `() => Math.random() - 0.5` is abstracted as an arbitrary permutation (`WeeklyBundle.Shuffle` of a sequence of choices). Which permutations a given engine's sort produces, and how likely each is, is not modelled.
- `Date.now()` ids and `new Date().toISOString()` timestamps are parameters.
- Console logging is not modelled.
- `cosineSimilarity` (`lib/utils`) is not part of this model. It is an uninterpreted function returning a `real`.
- Characters are Dafny `char`s. `charCodeAt` in the hash embedding is the character's code, which equals the UTF-16 code unit only for characters of the Basic Multilingual Plane.
- `toLowerCase` is modelled for ASCII letters only (`Strings.ToLowerAscii`). Regular expressions are modelled only for the patterns the code uses: numbered and product headers, bullet markers, code fences, the `{…}` span and trailing `=`.
- ChatRoute.Chat: the body is either not JSON or an object with a string `message`. A JSON `null` body, whose destructuring throws a `TypeError` into the outer catch, is not modelled. Neither is an object whose `message` is missing or not a string: `getTextEmbedding` then throws, and the prompt would hold the value's `String` form.
- ChatRoute.Chat: the query embedding is the parameter `embed`, not `Llm.GetTextEmbedding`. That function returns JSON values, and a remote vector may hold non-numbers, while the ranking works on `real`s. The conversion, and the cosine of non-numbers, are not modelled. For a string message `getTextEmbedding` never throws, so the `Err` case of `embed` stands for the non-string `message` above.
- In `app/api/farmer/ai-insights/route.ts`, a body that is JSON `null` cannot be destructured and throws a `TypeError`. It is folded into the not-JSON case, with the thrown message.
- The raw e-mail joins its lines with LF, as the code does, not with the CRLF of RFC 5322. The model follows the code.
- `Gmail.BuildBody`: each farm's lines are built by `Gmail.BuildSection` and then appended. The code grows `emailBody` with `+=` directly; the resulting text is the same.
- The second, identical premium aggregation in `components/customer-dashboard.tsx` (606-618) is covered by the same member as the first (`CustomerDashboard.PremiumWeeklyItems`).
- UI and browser state are not modelled:
  - JSX rendering, React state and hooks, react-query, localStorage;
  - the Leaflet map, charts, and the static and marketing components and pages;
  - the driver dashboard's `fetch` of `/api/orders`.
- The carbon calculator (its component, its route and `calculateCarbonReduction` in both LLM files) is floating-point estimation outside the decision logic.
- The thin routes (`app/api/farm`, `app/api/farms`, `app/api/products`, `app/api/subscription`, `app/api/farmer/analytics`) and next-auth's own route only forward to store operations that are modelled.
- Concurrency: each request handler is one sequential step. Interleavings of requests over the shared store are not modelled.
