/**
 * The decision logic of src/routes/assistant.ts: the `/assistant` handler
 * (embed, retrieve, verbatim short-circuit, prompt, generate, respond) and the
 * `/assistant/upsert-knowledge` handler with its error classification.
 *
 * What the providers and the store do is given as parameters; a `Trace`
 * records which of them the handler called and with which arguments.
 */
module Assistant {
  import opened Wrappers
  import opened Strings
  import opened Config
  import opened Knowledge
  import opened HfClient
  import Db

  /** The number of neighbours requested from the retrieval engine. */
  const RAG_K: int := 3
  /** A top score at or above this returns the stored answer verbatim. */
  const HIGH_CONFIDENCE: real := 0.75
  const PREAMBLE: string := "You are a helpful assistant. Use the context when available.\n\nContext:\n"
  const CONTEXT_SEPARATOR: string := "\n---\n"
  const FALLBACK_REPLY: string := "Sorry — the assistant is temporarily unavailable. Try again later."
  const MESSAGE_REQUIRED: string := "message is required"
  const FIELDS_REQUIRED: string := "question and answer are required"
  const DB_UNAVAILABLE: string := "Database unavailable — check MONGODB_URI, Atlas user/whitelist settings."

  /** The JSON bodies the two handlers send. */
  datatype Body =
    | ErrorBody(error: string)
    | ReplyBody(reply: string, sources: seq<Hit>)
    | OkBody

  datatype Response = Response(status: int, body: Body)

  datatype EmbedCall = EmbedCall(text: string, model: string)
  datatype SearchCall = SearchCall(vector: seq<real>, k: int)
  datatype GenerateCall = GenerateCall(prompt: string, model: string, maxTokens: int)

  /** The external calls one request made. */
  datatype Trace = Trace(embed: Option<EmbedCall>, search: Option<SearchCall>, generate: Option<GenerateCall>)

  /** A request field that JavaScript treats as true: present and not the empty string. */
  predicate Truthy(field: Option<string>) {
    field.Some? && field.value != ""
  }

  /** `useRag = true`: the default applies when the field is absent. */
  function RagRequested(useRag: Option<bool>): bool {
    match useRag
    case None => true
    case Some(b) => b
  }

  /** `qEmbedding` after step 1: the embedding, or `[]` when embedding failed. */
  function QueryVector(embed: Result<FeatureOutput>): (v: seq<real>)
    ensures v != [] <==> GetEmbedding(embed).Ok?
  {
    match GetEmbedding(embed)
    case Ok(v) => v
    case Err(_) => []
  }

  /** One context block, `Q: {question}\nA: {answer}`. */
  function ContextBlock(h: Hit): string {
    "Q: " + h.question + "\nA: " + h.answer
  }

  function Contexts(results: seq<Hit>): (r: seq<string>)
    ensures |r| == |results| && forall i :: 0 <= i < |results| ==> r[i] == ContextBlock(results[i])
  {
    seq(|results|, i requires 0 <= i < |results| => ContextBlock(results[i]))
  }

  /** The prompt template of step 3. */
  function Prompt(contexts: seq<string>, message: string): string {
    PREAMBLE + Join(contexts, CONTEXT_SEPARATOR) + "\n\nUser: " + message + "\nAssistant:"
  }

  /** The prompt opens with the preamble, closes with the user's turn, and carries every context block. */
  lemma PromptShape(contexts: seq<string>, message: string)
    ensures StartsWith(Prompt(contexts, message), PREAMBLE)
    ensures EndsWith(Prompt(contexts, message), "\n\nUser: " + message + "\nAssistant:")
    ensures forall i :: 0 <= i < |contexts| ==> Contains(Prompt(contexts, message), contexts[i])
  {
    var p := Prompt(contexts, message);
    var tail := "\n\nUser: " + message + "\nAssistant:";
    assert p == PREAMBLE + Join(contexts, CONTEXT_SEPARATOR) + tail;
    assert p[..|PREAMBLE|] == PREAMBLE;
    assert p[|p| - |tail|..] == tail;
    forall i | 0 <= i < |contexts| ensures Contains(p, contexts[i]) {
      JoinContains(contexts, CONTEXT_SEPARATOR, i);
      ContainsInContext(PREAMBLE, Join(contexts, CONTEXT_SEPARATOR), tail, contexts[i]);
    }
  }

  /** Every retrieved question and answer reaches the prompt. */
  lemma PromptCarriesSources(results: seq<Hit>, message: string, i: int)
    requires 0 <= i < |results|
    ensures Contains(Prompt(Contexts(results), message), "Q: " + results[i].question + "\nA: " + results[i].answer)
  {
    PromptShape(Contexts(results), message);
  }

  /** `sources.length > 0 && typeof sources[0].score === 'number' && sources[0].score >= 0.75`. */
  predicate HighConfidence(sources: seq<Hit>) {
    |sources| > 0 && sources[0].score.Some? && sources[0].score.value >= HIGH_CONFIDENCE
  }

  /**
   * POST /assistant. `embed`, `search` and `generate` are how `getEmbedding`'s provider
   * call, `searchByVector(qEmbedding, 3)` and `generateText`'s provider call end.
   */
  method HandleAssistant(message: Option<string>, useRag: Option<bool>,
                         embed: Result<FeatureOutput>, search: Result<seq<Hit>>, generate: Result<ChatResponse>)
    returns (resp: Response, trace: Trace)
    // invalid input: 400 and no call at all
    ensures !Truthy(message) ==> resp == Response(400, ErrorBody(MESSAGE_REQUIRED)) && trace == Trace(None, None, None)
    ensures Truthy(message) ==> resp.status == 200 && resp.body.ReplyBody?
    ensures Truthy(message) ==> trace.embed == Some(EmbedCall(message.value, HF_EMBEDDING_MODEL))
    // retrieval is gated on useRag and a non-empty embedding, and asks for k = 3
    ensures trace.search.Some? <==> Truthy(message) && RagRequested(useRag) && QueryVector(embed) != []
    ensures trace.search.Some? ==> trace.search.value == SearchCall(QueryVector(embed), RAG_K)
    // the sources are the search results, or [] when search was skipped or failed
    ensures Truthy(message) ==> resp.body.sources == (if trace.search.Some? && search.Ok? then search.value else [])
    // the verbatim short-circuit
    ensures trace.search.Some? && search.Ok? && HighConfidence(search.value) ==>
      resp.body.reply == search.value[0].answer && trace.generate == None
    // otherwise generation runs on the composed prompt, and its failure gives the fallback text
    ensures Truthy(message) && !(trace.search.Some? && search.Ok? && HighConfidence(search.value)) ==>
      && trace.generate == Some(GenerateCall(
           Prompt(if trace.search.Some? && search.Ok? then Contexts(search.value) else [], message.value),
           HF_TEXT_MODEL, MaxTokens(Some(HF_MAX_TOKENS))))
      && resp.body.reply == (if generate.Ok? then ReplyText(generate.value) else FALLBACK_REPLY)
  {
    if !Truthy(message) {
      return Response(400, ErrorBody(MESSAGE_REQUIRED)), Trace(None, None, None);
    }
    var text := message.value;
    trace := Trace(Some(EmbedCall(text, HF_EMBEDDING_MODEL)), None, None);

    // 1) embedding; a failure leaves the vector empty
    var qEmbedding: seq<real> := [];
    var embedding := GetEmbedding(embed);
    if embedding.Ok? {
      qEmbedding := embedding.value;
    }

    // 2) retrieval
    var contexts: seq<string> := [];
    var sources: seq<Hit> := [];
    if RagRequested(useRag) && |qEmbedding| > 0 {
      trace := trace.(search := Some(SearchCall(qEmbedding, RAG_K)));
      if search.Ok? {
        var results := search.value;
        sources := results;
        contexts := Contexts(results);
        if HighConfidence(sources) {
          return Response(200, ReplyBody(sources[0].answer, sources)), trace;
        }
      }
    }

    // 3) prompt, 4) generation with its fallback
    var prompt := Prompt(contexts, text);
    trace := trace.(generate := Some(GenerateCall(prompt, HF_TEXT_MODEL, MaxTokens(Some(HF_MAX_TOKENS)))));
    var generated := "";
    var reply := GenerateText(generate);
    if reply.Ok? {
      generated := reply.value;
    } else {
      generated := FALLBACK_REPLY;
    }

    // 5) reply and sources
    resp := Response(200, ReplyBody(generated, sources));
  }

  /** The test the upsert endpoint applies to a caught error's text. */
  predicate DbUnavailable(msg: string) {
    Contains(msg, "DB not connected")
      || Contains(Lower(msg), "could not connect")
      || Contains(Lower(msg), "authentication failed")
  }

  /** The response for an error caught by the upsert endpoint: 503 for store trouble, 500 otherwise. */
  function ErrorResponse(msg: string): (r: Response)
    ensures r.status == 503 <==> DbUnavailable(msg)
    ensures r.status == 503 ==> r.body == ErrorBody(DB_UNAVAILABLE)
    ensures r.status != 503 ==> r == Response(500, ErrorBody(msg))
  {
    if DbUnavailable(msg) then Response(503, ErrorBody(DB_UNAVAILABLE))
    else Response(500, ErrorBody(msg))
  }

  /** Using the store before `connectDB()` succeeded is reported as 503. */
  lemma NotConnectedIsUnavailable()
    ensures ErrorResponse(Db.NOT_CONNECTED).status == 503
  {
    assert MatchesAt(Db.NOT_CONNECTED, "DB not connected", 0);
  }

  /** The two driver phrases are matched in any capitalisation of their letters. */
  lemma DriverPhrasesIgnoreCase(msg: string, phrase: string)
    requires Lower(phrase) == "could not connect" || Lower(phrase) == "authentication failed"
    requires Contains(msg, phrase)
    ensures ErrorResponse(msg).status == 503
  {
    ContainsLower(msg, phrase);
  }

  /**
   * An embedding provider failure whose message mentions "could not connect" is
   * reported as database unavailability, since the classifier only looks at the text.
   */
  lemma EmbeddingConnectFailureLooksLikeDb(providerMsg: string)
    requires Contains(providerMsg, "could not connect")
    ensures GetEmbedding(Err(providerMsg)).Err?
    ensures ErrorResponse(ThrownText(GetEmbedding(Err(providerMsg)).error)).status == 503
  {
    var e := EMBEDDING_FAILED + providerMsg;
    assert GetEmbedding(Err(providerMsg)) == Err(e);
    PrefixKeepsPhrase(EMBEDDING_FAILED, providerMsg, "could not connect");
    ConnectPhraseIsLower();
    DriverPhrasesIgnoreCase(e, "could not connect");
    assert ThrownText(e) == e;
  }

  /** A phrase in a message is still there once a prefix is put in front of it. */
  lemma PrefixKeepsPhrase(prefix: string, msg: string, phrase: string)
    requires Contains(msg, phrase)
    ensures Contains(prefix + msg, phrase)
  {
    ContainsInContext(prefix, msg, "", phrase);
    assert prefix + msg + "" == prefix + msg;
  }

  lemma ConnectPhraseIsLower()
    ensures Lower("could not connect") == "could not connect"
  {
  }

  /**
   * POST /assistant/upsert-knowledge. `embed` is how the embedding provider call
   * ends, `update` how the driver's `updateOne` ends.
   */
  method HandleUpsert(store: Db.KnowledgeStore, question: Option<string>, answer: Option<string>, comment: Option<string>,
                      embed: Result<FeatureOutput>, update: Outcome)
    returns (resp: Response, embedCall: Option<EmbedCall>)
    requires store.Valid()
    modifies store
    ensures store.Valid()
    ensures store.db == old(store.db) && store.client == old(store.client)
    ensures !Truthy(question) || !Truthy(answer) ==>
      resp == Response(400, ErrorBody(FIELDS_REQUIRED)) && embedCall == None && store.docs == old(store.docs)
    ensures Truthy(question) && Truthy(answer) ==>
      embedCall == Some(EmbedCall(question.value + "\n" + answer.value, DEFAULT_EMBEDDING_MODEL))
    ensures Truthy(question) && Truthy(answer) && GetEmbedding(embed).Err? ==>
      resp == ErrorResponse(GetEmbedding(embed).error) && store.docs == old(store.docs)
    ensures Truthy(question) && Truthy(answer) && GetEmbedding(embed).Ok? && store.db.None? ==>
      resp == ErrorResponse(Db.NOT_CONNECTED) && store.docs == old(store.docs)
    ensures Truthy(question) && Truthy(answer) && GetEmbedding(embed).Ok? && store.db.Some? && update.Fail? ==>
      resp == ErrorResponse(ThrownText(update.error)) && store.docs == old(store.docs)
    ensures Truthy(question) && Truthy(answer) && GetEmbedding(embed).Ok? && store.db.Some? && update.Pass? ==>
      resp == Response(200, OkBody)
      && store.docs == Upserted(old(store.docs), Payload(question.value, answer.value, comment, GetEmbedding(embed).value))
  {
    if !Truthy(question) || !Truthy(answer) {
      return Response(400, ErrorBody(FIELDS_REQUIRED)), None;
    }
    var q, a := question.value, answer.value;
    embedCall := Some(EmbedCall(q + "\n" + a, DEFAULT_EMBEDDING_MODEL));
    var embedding := GetEmbedding(embed);
    if embedding.Err? {
      return ErrorResponse(ThrownText(embedding.error)), embedCall;
    }
    var written := store.UpsertKnowledge(Payload(q, a, comment, embedding.value), update);
    if written.Fail? {
      return ErrorResponse(ThrownText(written.error)), embedCall;
    }
    resp := Response(200, OkBody);
  }
}
