# Retrieval core of a RAG chatbot backend, modelled in Dafny

This project models the sequential logic around the MongoDB knowledge store and
the HuggingFace providers of a retrieval-augmented chatbot backend:

- **Knowledge store** (`src/services/db.ts`). The process-wide connection has
  `client` and `db` singletons, placeholder validation of the connection string,
  connect-once with a reused handle, and the "not connected" guard. The store adds
  the upsert by `question` and the three-tier `searchByVector`: Atlas `$search` on
  the default index, then the same query on the index named `"default"`, then a
  local cosine scan ranked by descending score and cut to `k`.
- **Assistant handlers** (`src/routes/assistant.ts`). `/assistant` validates the
  message, embeds it, and degrades to an empty vector when embedding fails. It
  retrieves only when `useRag` is on and the vector is non-empty. A top score of at
  least 0.75 returns the stored answer verbatim. Otherwise it builds the prompt and
  generates, substituting a fixed text when generation fails.
  `/assistant/upsert-knowledge` checks the required fields, embeds, upserts, and
  maps caught errors to 503 or 500 by their text.
- **Embedding normalisation and generation defaults** (`src/services/hfClient.ts`).

Modules: `Wrappers` (Option / Result / Outcome), `Strings` (`includes`,
`toLowerCase`, `join`), `Config` (the configuration defaults), `Knowledge`
(documents and the keyed update), `Ranking` (cosine and the scan pipeline), `Db`
(the `KnowledgeStore` class), `HfClient` and `Assistant`.

Foreign calls are modelled by their outcomes:

- The two Atlas tiers are `Result<seq<Hit>>` parameters of `SearchByVector`, and the scan's fetch is an `Outcome` parameter.
- `client.connect()` and `updateOne` are `Outcome` parameters.
- The provider calls are `Result` parameters.
- `Math.sqrt` is an abstract function that is positive on positive arguments.

A `Trace` records which provider and search calls a request made, and with which
arguments. The collection is a `seq` held in the order the store enumerates it.
`Knowledge.Lookup` (the first match) gives its view as a map from `question` to
document.

Three points about `searchByVector` can be misread.

- **The scan's filter keeps everything.** The shape check in the scan's `map`
  (src/services/db.ts:119) gives a document whose embedding is not an array a
  score of -1. The check suggests such documents are meant to be dropped. The
  filter at src/services/db.ts:120 (`typeof s.score === 'number'`) is always true,
  so every fetched document is ranked and those documents are kept with score -1
  (`Ranking.KeepNumericRemovesNothing`, `Ranking.LocalScanKeepsMismatched`). The
  model does not claim they sort last: a genuine cosine of -1 ties with the
  sentinel, and with only a positive `sqrt` assumed a cosine can lie below it.
- **Tier rows are not truncated.** Rows from tier 1 or tier 2 are returned
  unchanged, with no truncation to `k` and no re-sorting. Only the local scan is
  sorted and cut to `k`.
- **Only tier errors are caught.** An error from tier 1 or tier 2 moves on to the
  next tier, exactly as an empty result does. The scan's own fetch
  (src/services/db.ts:100) is outside any `try`, so its failure becomes the
  search's error (the `scan` outcome of `Db.KnowledgeStore.SearchByVector`).

## Model

| member | source | states |
|---|---|---|
| `Knowledge.FindQuestion` | src/services/db.ts:39 | the position found holds the question and no earlier document does; when there is none, no document has the question |
| `Knowledge.UpsertKeepsUnique` | src/services/db.ts:39 | an upsert keeps "at most one document per question" |
| `Knowledge.UpsertExactlyOne` | src/services/db.ts:37-40 | after an upsert exactly one document has the payload's question; its question, answer, comment and embedding are the payload's, and its other fields are those of the document it replaced (none for a new one) |
| `Knowledge.UpsertOthersUnchanged` | src/services/db.ts:39 | documents with other questions keep their position and content; at most one document is appended, and it has the payload's question |
| `Knowledge.UpsertIsKeyedUpdate` | src/services/db.ts:37-40 | looking up the payload's question afterwards finds the updated or inserted document; every other question finds what it found before |
| `Knowledge.Lookup` | src/services/db.ts:39 | a document is found for q exactly when some stored document has question q; the one found is stored and has that question |
| `Knowledge.Apply` | src/services/db.ts:39 | `$set` on a matched document: the payload's question, answer, comment and embedding replace its own; its question is the payload's; the fields outside the payload are kept |
| `Knowledge.Fresh` | src/services/db.ts:39 | the document `upsert: true` inserts holds the payload and no other field; applying the payload to it again changes nothing |
| `Knowledge.Upserted` | src/services/db.ts:37-40 | the collection after the upsert: the first match is updated in place by `Apply`, or a `Fresh` document is appended; the length grows by one exactly when no document had the question |
| `Knowledge.FirstMatch` | src/services/db.ts:39 | the first document with a question is the one the update matches |
| `Ranking.Dot` | src/services/db.ts:104-113 | Σ a[i]·b[i] over equal-length vectors, accumulated from the front like the `dot`/`na`/`nb` loop; its properties are in `DotSymmetric` and `SquaredNorm` |
| `Ranking.Cosine` | src/services/db.ts:102-116 | `cosine(a, b)`: -1 for different lengths or a zero squared norm, otherwise dot / (sqrt(na)·sqrt(nb)); its properties are in `CosineSentinel`, `CosineSymmetric`, `CosineSelf` and `CosineLoop` |
| `Ranking.DotSymmetric` | src/services/db.ts:107-113 | the accumulated dot product does not depend on the order of its arguments |
| `Ranking.SquaredNorm` | src/services/db.ts:111-114 | a squared norm is non-negative, and is zero exactly for an all-zero (or empty) vector |
| `Ranking.CosineSentinel` | src/services/db.ts:102-116 | cosine is -1 when the lengths differ or either vector is all zeros (the empty one included); otherwise it is dot / (sqrt(na)·sqrt(nb)) |
| `Ranking.CosineSymmetric` | src/services/db.ts:102-116 | cosine(a, b) == cosine(b, a) for all inputs |
| `Ranking.CosineSelf` | src/services/db.ts:102-116 | a non-zero vector has cosine 1 with itself when sqrt is exact at its squared norm |
| `Ranking.CosineLoop` | src/services/db.ts:102-116 | the `for` loop accumulating dot, na and nb computes the cosine function |
| `Ranking.EmbeddingScore` | src/services/db.ts:119 | a document's score: the cosine with the query for an array embedding, -1 for any other value |
| `Ranking.Scored` | src/services/db.ts:119 | the `{...d, score}` object: the document's question, answer and comment with its numeric score |
| `Ranking.ScoreAll` | src/services/db.ts:118-119 | the `.map` step: one scored hit per fetched document, in order |
| `Ranking.WithEmbedding` | src/services/db.ts:100 | the fetched documents are exactly the stored ones that have an `embedding` field |
| `Ranking.ScoreAllScoresEveryDoc` | src/services/db.ts:118-119 | every fetched document gets a numeric score and keeps its question, answer and comment; a non-array embedding, or an array of the wrong length, scores -1 |
| `Ranking.KeepNumeric` | src/services/db.ts:120 | the filter keeps exactly the results whose score is a number |
| `Ranking.KeepNumericRemovesNothing` | src/services/db.ts:119-120 | applied to scored documents, the filter removes nothing |
| `Ranking.Insert` | src/services/db.ts:121 | insertion adds exactly one element to the multiset |
| `Ranking.InsertSorted` | src/services/db.ts:121 | inserting into a list sorted by descending score keeps it sorted |
| `Ranking.SortDesc` | src/services/db.ts:121 | the sort is a permutation of its input |
| `Ranking.SortDescSorted` | src/services/db.ts:121 | the sort's output is ordered by non-increasing score (`score ?? -1`) |
| `Ranking.SliceTo` | src/services/db.ts:122 | `slice(0, k)`: a prefix of the input; exactly k elements for 0 ≤ k ≤ n; for a negative k, max(0, n + k) elements |
| `Ranking.LocalScan` | src/services/db.ts:118-122 | the local scan: map to scores, filter, sort by descending score, slice to k; its properties are in `LocalScanLength`, `LocalScanIsTopK` and `LocalScanKeepsMismatched` |
| `Ranking.SortAndSlice` | src/services/db.ts:121-122 | sorting then slicing gives a sorted sub-multiset of the input; nothing left out has a higher key than anything kept |
| `Ranking.SortedPrefix` | src/services/db.ts:122 | a prefix of a sorted list is sorted, and nothing outside the prefix scores higher than anything in it |
| `Ranking.RankingKeepsEveryDoc` | src/services/db.ts:118-121 | before the slice, the ranked list holds every scored document |
| `Ranking.LocalScanLength` | src/services/db.ts:118-122 | the scan returns min(k, n) documents for k ≥ 0, and max(0, n + k) for a negative k (as `slice(0, k)` does) |
| `Ranking.LocalScanIsTopK` | src/services/db.ts:118-122 | the scan's output is sorted by non-increasing score; each element is a fetched document with its score; it is a sub-multiset of the scored documents; no omitted document scores higher than any returned one |
| `Ranking.LocalScanKeepsMismatched` | src/services/db.ts:119-122 | with k at least the number of fetched documents, all of them are returned, mismatched ones included |
| `Wrappers.ThrownText` | src/services/db.ts:24 | `err.message ? err.message : String(err)`: the error's message when it has one, otherwise "Error"; never empty |
| `Db.CheckUri` | src/services/db.ts:9-17 | a connection string passes exactly when it is non-empty and contains none of `<`, `>`, `your_password`, `<password>`, `PASSWORD`; otherwise it gets the matching error |
| `Db.PasswordTemplateRejected` | src/services/db.ts:12-13 | a string containing `<password>` is rejected as a placeholder, already by its `<` |
| `Db.KnowledgeStore.constructor` | src/services/db.ts:4-5 | the process starts with neither client nor database handle |
| `Db.KnowledgeStore.ConnectDB` | src/services/db.ts:7-30 | an existing handle is returned with nothing validated or changed; a bad string fails before a client is built; a failed connect gives `Failed to connect to MongoDB: ` plus the error's text and leaves `db` unset but the client built; a successful connect sets the handle; the result is Ok exactly when a handle is set |
| `Db.KnowledgeStore.GetDB` | src/services/db.ts:32-35 | fails with "DB not connected. Call connectDB() first." exactly when no handle is set |
| `Db.KnowledgeStore.UpsertKnowledge` | src/services/db.ts:37-40 | fails with the not-connected error, or the driver's error, and leaves the collection unchanged; otherwise the collection becomes the keyed update; uniqueness of questions is kept |
| `Db.KnowledgeStore.SearchByVector` | src/services/db.ts:42-126 | not connected gives the not-connected error and no tier runs. Tier 1 rows, if any, are returned unchanged and only tier 1 runs. Tier 2 runs exactly when tier 1 threw or was empty, and its rows are returned unchanged. The scan runs exactly when both threw or were empty; it returns the local scan of the stored documents that have an embedding, or the fetch's error when the fetch fails. Once connected, the result is an error exactly when both tiers and the fetch failed, so errors from tiers 1 and 2 alone never propagate |
| `HfClient.NormalizeEmbedding` | src/services/hfClient.ts:46-59 | a decoded embedding is never empty; every rejection carries the invalid-response message |
| `HfClient.GetEmbedding` | src/services/hfClient.ts:37-67 | success only when the provider answered with a decodable shape, and then non-empty; every failure starts with "HuggingFace embedding failed: " |
| `HfClient.EmbeddingDecodes` | src/services/hfClient.ts:48-59 | a response decodes to v exactly when v is non-empty and the response is the flat array v or a nested array whose first row is v |
| `HfClient.EmptyEmbeddingRejected` | src/services/hfClient.ts:53-59 | `[]`, `[[]]` (with any further rows) and non-arrays are rejected |
| `HfClient.MaxTokens` | src/services/hfClient.ts:13 | the limit is the argument when one is given, else HF_MAX_TOKENS |
| `HfClient.ReplyText` | src/services/hfClient.ts:26 | the reply is non-empty exactly when the first choice has non-empty content, and then it is that content |
| `HfClient.GenerateText` | src/services/hfClient.ts:12-34 | succeeds exactly when the provider call did, with the reply text; a failure is the provider's message with the "HuggingFace text generation failed: " prefix |
| `Assistant.RagRequested` | src/routes/assistant.ts:12 | `useRag` with its default `true` when the field is absent |
| `Assistant.QueryVector` | src/routes/assistant.ts:18-25 | the query vector is non-empty exactly when embedding succeeded |
| `Assistant.Contexts` | src/routes/assistant.ts:35 | one `Q: …\nA: …` block per result, in order |
| `Assistant.Prompt` | src/routes/assistant.ts:51 | the prompt template: the preamble, the context blocks joined by `\n---\n`, then `\n\nUser: {message}\nAssistant:`; its shape is proved in `PromptShape` |
| `Assistant.HighConfidence` | src/routes/assistant.ts:38 | the short-circuit test: a first source whose score is a number ≥ 0.75 |
| `Assistant.PromptShape` | src/routes/assistant.ts:51 | the prompt starts with the fixed preamble, ends with `\n\nUser: {message}\nAssistant:`, and contains every context block |
| `Assistant.PromptCarriesSources` | src/routes/assistant.ts:34-51 | every retrieved question and answer appears in the prompt |
| `Assistant.HandleAssistant` | src/routes/assistant.ts:10-69 | a falsy message gives 400 "message is required" and no call. Otherwise the reply has status 200 and the message is embedded. Search with k = 3 runs exactly when useRag (default true) holds and the embedding is non-empty. Sources are the search results, or [] when search was skipped or failed. A top score ≥ 0.75 returns that answer verbatim with no generation. Otherwise generation gets the exact prompt, and a failure gives the fallback text |
| `Assistant.DbUnavailable` | src/routes/assistant.ts:83 | the text contains "DB not connected" as written, or "could not connect" or "authentication failed" in its lower-cased form |
| `Assistant.ErrorResponse` | src/routes/assistant.ts:82-86 | 503 with the database-unavailable text exactly when the message contains "DB not connected" (case-sensitive), or "could not connect" or "authentication failed" (case-insensitive); otherwise 500 with the message |
| `Assistant.NotConnectedIsUnavailable` | src/routes/assistant.ts:83-84 | the store's not-connected error is reported as 503 |
| `Assistant.DriverPhrasesIgnoreCase` | src/routes/assistant.ts:83 | any capitalisation of the two driver phrases yields 503 |
| `Assistant.EmbeddingConnectFailureLooksLikeDb` | src/routes/assistant.ts:77-84 | an embedding failure whose text contains "could not connect" is also reported as 503 |
| `Assistant.HandleUpsert` | src/routes/assistant.ts:73-88 | missing question or answer gives 400 with no call and no change. The text `question\nanswer` is embedded with the client's default model. An embedding, not-connected or driver failure is classified and leaves the collection unchanged. Success gives 200 and the keyed update |
| `Strings.Contains` | src/routes/assistant.ts:83 | `s.includes(p)`: p occurs in s at some position |
| `Strings.Lower` | src/routes/assistant.ts:83 | `toLowerCase()` on ASCII letters: same length, each character lowered |
| `Strings.Join` | src/routes/assistant.ts:51 | `xs.join(sep)`: the elements in order with sep between neighbours; every element occurs in the result (`JoinContains`) |
| `Strings.JoinContains` | src/routes/assistant.ts:51 | every element of a joined list occurs in the joined string |
| `Strings.ContainsLower` | src/routes/assistant.ts:83 | an occurrence of p in s gives an occurrence of lower(p) in lower(s) |

## Left out

- Ranking.SortDesc: the lemmas prove the result is sorted and a permutation of its input. They do not state that documents with equal scores keep their `find` order, which is the stability of `Array.prototype.sort`.
- Db.KnowledgeStore.SearchByVector: the `k` sent to the Atlas tiers, and what Atlas does with it, are not modelled; tier rows are whatever the parameters say.
- Atlas `$search` / `knnBeta` semantics and MongoDB driver behaviour are not modelled: index selection, scores, generated `_id`s, `undefined` serialised as `null` under `$set`, and the real order `find` returns.
- The scan's result objects also carry `_id` and `embedding` (the `...d` spread). `Hit` keeps only question, answer, comment and score, the fields the handler copies into `sources`.
- The `Array.isArray(vector)` guard at src/services/db.ts:46 is not modelled: vectors are typed sequences, so it cannot fire.
- Floating point is not modelled: components are reals, and rounding, NaN and non-numeric array elements are left out. `Math.sqrt` is an abstract function that is known only to be positive on positive arguments.
- JavaScript truthiness is covered only for strings and missing fields: a non-string `message`, or a `useRag` that is neither a boolean nor absent, is not modelled.
- `toLowerCase` is modelled on ASCII letters only.
- The outer `catch` of `/assistant` (src/routes/assistant.ts:65-68) is not modelled: nothing in the modelled flow throws past the inner handlers.
- Logging, `async`/`await`, cross-request concurrency and the Express wiring in src/server.ts are not modelled.
- The `/debug/hf` probe (src/routes/assistant.ts:91-138) is left out; it is a network diagnostic.
- src/seed.ts and src/debug/inspect_knowledge.ts are left out; they drive I/O and print.
- Environment overrides in src/config.ts are not modelled; the defaults are constants in `Config`. The `HF_API_KEY` check when hfClient.ts loads is startup behaviour and is left out.
- The HuggingFace `featureExtraction` and `chatCompletion` calls are foreign. Only their outcomes are modelled, and the model and prompt they are given are only recorded in the `Trace`.
