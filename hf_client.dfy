/**
 * The value-shaping part of src/services/hfClient.ts: how `getEmbedding` turns
 * the provider's `featureExtraction` response into a flat vector, and how
 * `generateText` picks its token limit and its reply. The provider calls
 * themselves are outside the model: their outcomes are parameters.
 */
module HfClient {
  import opened Wrappers
  import opened Strings
  import opened Config

  const DEFAULT_EMBEDDING_MODEL: string := "sentence-transformers/all-mpnet-base-v2"
  const INVALID_EMBEDDING: string := "Invalid embedding response from HuggingFace"
  const EMBEDDING_FAILED: string := "HuggingFace embedding failed: "
  const GENERATION_FAILED: string := "HuggingFace text generation failed: "

  /**
   * The shape of a `featureExtraction` response: an array whose element 0 is
   * itself an array (`first`, followed by the other rows), an array whose
   * element 0 is not an array (the empty array included), or not an array at all.
   */
  datatype FeatureOutput =
    | Nested(first: seq<real>, rest: seq<seq<real>>)
    | Flat(values: seq<real>)
    | NotArray

  /** The `if / else if / else` on the response shape and the emptiness check that follows it. */
  function NormalizeEmbedding(response: FeatureOutput): (r: Result<seq<real>>)
    ensures r.Ok? ==> |r.value| > 0
    ensures r.Err? ==> r.error == INVALID_EMBEDDING
  {
    var embedding :=
      match response
      case Nested(first, _) => Ok(first)
      case Flat(values) => Ok(values)
      case NotArray => Err(INVALID_EMBEDDING);
    if embedding.Ok? && |embedding.value| == 0 then Err(INVALID_EMBEDDING) else embedding
  }

  /**
   * `getEmbedding`: `call` is how `hf.featureExtraction` ended (the response, or the
   * thrown message); every failure is rethrown with the "embedding failed" prefix.
   */
  function GetEmbedding(call: Result<FeatureOutput>): (r: Result<seq<real>>)
    ensures r.Ok? ==> |r.value| > 0
    ensures r.Err? ==> StartsWith(r.error, EMBEDDING_FAILED)
    ensures r.Ok? <==> call.Ok? && NormalizeEmbedding(call.value).Ok?
  {
    match call
    case Err(m) => Err(EMBEDDING_FAILED + m)
    case Ok(response) =>
      match NormalizeEmbedding(response)
      case Ok(v) => Ok(v)
      case Err(m) => Err(EMBEDDING_FAILED + m)
  }

  /** The only responses that decode, and what they decode to: the first row, or the flat array itself. */
  lemma EmbeddingDecodes(response: FeatureOutput, v: seq<real>)
    ensures GetEmbedding(Ok(response)) == Ok(v) <==>
      v != [] && (response == Flat(v) || (response.Nested? && response.first == v))
  {
  }

  /** `[]`, `[[]]` and non-arrays are rejected with the invalid-response message. */
  lemma EmptyEmbeddingRejected(rest: seq<seq<real>>)
    ensures GetEmbedding(Ok(Flat([]))) == Err(EMBEDDING_FAILED + INVALID_EMBEDDING)
    ensures GetEmbedding(Ok(Nested([], rest))) == Err(EMBEDDING_FAILED + INVALID_EMBEDDING)
    ensures GetEmbedding(Ok(NotArray)) == Err(EMBEDDING_FAILED + INVALID_EMBEDDING)
  {
  }

  /** `typeof max_new_tokens === 'number' ? max_new_tokens : HF_MAX_TOKENS`. */
  function MaxTokens(maxNewTokens: Option<int>): (r: int)
    ensures maxNewTokens.Some? ==> r == maxNewTokens.value
    ensures maxNewTokens.None? ==> r == HF_MAX_TOKENS
  {
    match maxNewTokens
    case Some(n) => n
    case None => HF_MAX_TOKENS
  }

  /** The parts of a `chatCompletion` response that `generateText` reads; every level may be missing. */
  datatype ChatMessage = ChatMessage(content: Option<string>)
  datatype Choice = Choice(message: Option<ChatMessage>)
  datatype ChatResponse = ChatResponse(choices: Option<seq<Choice>>)

  /** `response.choices?.[0]?.message?.content || ""`. */
  function ReplyText(response: ChatResponse): (r: string)
    ensures r != "" <==>
      && response.choices.Some? && |response.choices.value| > 0
      && response.choices.value[0].message.Some?
      && response.choices.value[0].message.value.content.Some?
      && response.choices.value[0].message.value.content.value != ""
    ensures r != "" ==> r == response.choices.value[0].message.value.content.value
  {
    match response.choices
    case None => ""
    case Some(choices) =>
      if |choices| == 0 then ""
      else match choices[0].message
        case None => ""
        case Some(m) => match m.content
          case None => ""
          case Some(c) => c
  }

  /**
   * `generateText`: `call` is how `hf.chatCompletion` ended; a failure is rethrown
   * with the "text generation failed" prefix.
   */
  function GenerateText(call: Result<ChatResponse>): (r: Result<string>)
    ensures r.Ok? <==> call.Ok?
    ensures r.Ok? ==> r.value == ReplyText(call.value)
    ensures r.Err? ==> r.error == GENERATION_FAILED + call.error && StartsWith(r.error, GENERATION_FAILED)
  {
    match call
    case Ok(response) => Ok(ReplyText(response))
    case Err(m) => Err(GENERATION_FAILED + m)
  }
}
