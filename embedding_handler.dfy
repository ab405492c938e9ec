/**
 * The embedding request pipeline: resolve the model, read the optional
 * credentials, invoke the executor, and normalise its raw result into the
 * public response. The first failure ends the run.
 */
module EmbeddingHandler {
  import opened Wrappers
  import opened Gateway

  /** Model lookup by full name; its behaviour is not part of this model. */
  type Resolver = (string, AvailableModels) -> Result<LlmModel, GatewayApiError>

  /** The executor call; its behaviour is not part of this model. */
  type Invoker = (CreateEmbeddingRequest, LlmModel, Option<Credentials>) -> Result<RawEmbeddingResponse, GatewayApiError>

  /** The arguments the invoker was called with. */
  datatype Invocation = Invocation(request: CreateEmbeddingRequest, model: LlmModel, credentials: Option<Credentials>)

  /** One run of the handler: what it returned and the invoker call it made, if any. */
  datatype HandlerRun = HandlerRun(
    result: Result<CreateEmbeddingResponse, GatewayApiError>,
    invoked: Option<Invocation>)

  /** Response item `d` carries raw item `v`'s tag, vector and index unchanged. */
  predicate Carries(v: RawEmbedding, d: EmbeddingData) {
    d.objectTag == v.objectTag && d.embedding == v.embedding && d.index == v.index
  }

  /**
   * The normalisation contract: `resp` is the response for raw result `raw`
   * under descriptor `m` — tag "list", the items carried one for one and in
   * order, the descriptor's name echoed, the counters copied.
   */
  predicate Normalizes(raw: RawEmbeddingResponse, m: LlmModel, resp: CreateEmbeddingResponse) {
    && resp.objectTag == "list"
    && |resp.data| == |raw.data|
    && (forall i :: 0 <= i < |raw.data| ==> Carries(raw.data[i], resp.data[i]))
    && resp.model == m.model
    && resp.usage.promptTokens == raw.usage.promptTokens
    && resp.usage.totalTokens == raw.usage.totalTokens
  }

  function ToEmbeddingData(v: RawEmbedding): EmbeddingData {
    EmbeddingData(v.objectTag, v.embedding, v.index)
  }

  /** The `iter().map(...).collect()` over the raw items. */
  function NormalizeData(items: seq<RawEmbedding>): (data: seq<EmbeddingData>)
    ensures |data| == |items|
    ensures forall i :: 0 <= i < |items| ==> Carries(items[i], data[i])
  {
    if items == [] then [] else [ToEmbeddingData(items[0])] + NormalizeData(items[1..])
  }

  /** The response built from the raw result and the resolved descriptor. */
  function Normalize(raw: RawEmbeddingResponse, m: LlmModel): (resp: CreateEmbeddingResponse)
    ensures Normalizes(raw, m, resp)
  {
    CreateEmbeddingResponse(
      "list",
      NormalizeData(raw.data),
      m.model,
      EmbeddingUsage(raw.usage.promptTokens, raw.usage.totalTokens))
  }

  /**
   * The handler. `credentials` is what the request context holds; `resolve`
   * and `invoke` are the two collaborators.
   */
  function EmbeddingsHandler(
    request: CreateEmbeddingRequest,
    models: AvailableModels,
    credentials: Option<Credentials>,
    resolve: Resolver,
    invoke: Invoker): (run: HandlerRun)
    // A failed resolution is the result, and the invoker is never called.
    ensures resolve(request.model, models).Failure? ==>
      run == HandlerRun(Failure(resolve(request.model, models).error), None)
    // After a successful resolution the invoker gets the request untouched, the
    // resolved descriptor and the credentials exactly as read, None included.
    ensures resolve(request.model, models).Success? ==>
      run.invoked == Some(Invocation(request, resolve(request.model, models).value, credentials))
    // A failed invocation is the result, unchanged.
    ensures run.invoked.Some? && invoke(request, run.invoked.value.model, credentials).Failure? ==>
      run.result == Failure(invoke(request, run.invoked.value.model, credentials).error)
    // Every error returned is one a collaborator produced.
    ensures run.result.Failure? ==>
      (resolve(request.model, models).Failure? && run.result.error == resolve(request.model, models).error) ||
      (run.invoked.Some? && invoke(request, run.invoked.value.model, credentials) == Failure(run.result.error))
    // A response exists exactly when both stages succeed, and it normalises the raw result.
    ensures run.result.Success? <==>
      run.invoked.Some? && invoke(request, run.invoked.value.model, credentials).Success?
    ensures run.result.Success? ==>
      Normalizes(invoke(request, run.invoked.value.model, credentials).value, run.invoked.value.model, run.result.value)
  {
    match resolve(request.model, models)
    case Failure(e) => HandlerRun(Failure(e), None)
    case Success(llmModel) =>
      var call := Invocation(request, llmModel, credentials);
      match invoke(request, llmModel, credentials)
      case Failure(e) => HandlerRun(Failure(e), Some(call))
      case Success(result) => HandlerRun(Success(Normalize(result, llmModel)), Some(call))
  }

  /** The normalisation contract leaves no freedom: it determines the response. */
  lemma NormalizesUnique(raw: RawEmbeddingResponse, m: LlmModel, resp: CreateEmbeddingResponse)
    requires Normalizes(raw, m, resp)
    ensures resp == Normalize(raw, m)
  {
  }

  /** Normalising items commutes with concatenation: items never move across a split. */
  lemma NormalizeDataAppend(a: seq<RawEmbedding>, b: seq<RawEmbedding>)
    ensures NormalizeData(a + b) == NormalizeData(a) + NormalizeData(b)
  {
  }

  /**
   * The echoed name depends only on what resolution returned: two requests
   * whose model strings resolve to the same descriptor, and whose invocations
   * return the same raw result, get the same response.
   */
  lemma ResponseIgnoresClientModelString(
    r1: CreateEmbeddingRequest, r2: CreateEmbeddingRequest,
    models: AvailableModels, c1: Option<Credentials>, c2: Option<Credentials>,
    resolve: Resolver, invoke: Invoker, m: LlmModel, raw: RawEmbeddingResponse)
    requires resolve(r1.model, models) == Success(m) && resolve(r2.model, models) == Success(m)
    requires invoke(r1, m, c1) == Success(raw) && invoke(r2, m, c2) == Success(raw)
    ensures EmbeddingsHandler(r1, models, c1, resolve, invoke).result
         == EmbeddingsHandler(r2, models, c2, resolve, invoke).result
         == Success(Normalize(raw, m))
    ensures Normalize(raw, m).model == m.model
  {
  }
}
