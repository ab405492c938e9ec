/**
 * The values the embedding handler reads and builds: the parsed client request,
 * the model registry and its descriptors, the caller's credentials, the
 * executor's raw result and the public response schema.
 */
module Gateway {

  /** A 32-bit float kept as its bit pattern; the handler never does arithmetic on it. */
  datatype F32 = F32(bits: bv32)

  /** The `input` of a request: one text or several. */
  datatype EmbeddingInput = Single(text: string) | Many(texts: seq<string>)

  /** The parsed client request: the full model name, the input, and provider-specific options. */
  datatype CreateEmbeddingRequest = CreateEmbeddingRequest(
    model: string,
    input: EmbeddingInput,
    options: map<string, string>)

  /** A registered model binding; `model` is the name echoed back to the client. */
  datatype LlmModel = LlmModel(model: string, provider: string)

  /** The shared, read-only registry of models. */
  datatype AvailableModels = AvailableModels(models: seq<LlmModel>)

  /** The caller's provider credentials, attached to the request context upstream. */
  datatype Credentials = ApiKey(key: string)

  /** The errors the handler can return; both come from its collaborators. */
  datatype GatewayApiError =
    | ModelNotFound(name: string)
    | EngineError(cause: string)

  /** One item of the executor's raw result; `objectTag` is the JSON field `object`. */
  datatype RawEmbedding = RawEmbedding(objectTag: string, embedding: seq<F32>, index: nat)

  /** The executor's token counters. */
  datatype RawUsage = RawUsage(promptTokens: nat, totalTokens: nat)

  /** What the executor returns on success. */
  datatype RawEmbeddingResponse = RawEmbeddingResponse(data: seq<RawEmbedding>, usage: RawUsage)

  /** One item of the public response. */
  datatype EmbeddingData = EmbeddingData(objectTag: string, embedding: seq<F32>, index: nat)

  /** The public usage counters. */
  datatype EmbeddingUsage = EmbeddingUsage(promptTokens: nat, totalTokens: nat)

  /** The public response returned to the client. */
  datatype CreateEmbeddingResponse = CreateEmbeddingResponse(
    objectTag: string,
    data: seq<EmbeddingData>,
    model: string,
    usage: EmbeddingUsage)
}
