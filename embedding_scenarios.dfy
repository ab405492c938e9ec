/**
 * Concrete runs of the handler with a one-entry registry and a stub executor:
 * a registered model, an unregistered one, and an executor failure.
 */
module EmbeddingScenarios {
  import opened Wrappers
  import opened Gateway
  import opened EmbeddingHandler

  const Registered := LlmModel("embed-small", "provider-x")
  const Registry := AvailableModels([Registered])
  const Vector := [F32(0x3f80_0000), F32(0xbf00_0000)]
  const Raw := RawEmbeddingResponse([RawEmbedding("embedding", Vector, 0)], RawUsage(1, 1))

  /** Resolves only "provider-x/embed-small". */
  function StubResolve(name: string, models: AvailableModels): Result<LlmModel, GatewayApiError> {
    if name == "provider-x/embed-small" then Success(Registered) else Failure(ModelNotFound(name))
  }

  function Hello(model: string): CreateEmbeddingRequest {
    CreateEmbeddingRequest(model, Many(["hello"]), map[])
  }

  /** A registered model without credentials: one item, the descriptor's name echoed. */
  lemma RegisteredModelScenario()
    ensures EmbeddingsHandler(Hello("provider-x/embed-small"), Registry, None, StubResolve,
                              (r, m, c) => Success(Raw)).result
         == Success(CreateEmbeddingResponse("list", [EmbeddingData("embedding", Vector, 0)],
                                            "embed-small", EmbeddingUsage(1, 1)))
  {
    assert Raw.data[1..] == [];
    assert NormalizeData(Raw.data) == [EmbeddingData("embedding", Vector, 0)];
  }

  /** An unregistered model: ModelNotFound, and the executor is not called. */
  lemma UnknownModelScenario()
    ensures EmbeddingsHandler(Hello("unknown/model"), Registry, Some(ApiKey("k")), StubResolve,
                              (r, m, c) => Success(Raw))
         == HandlerRun(Failure(ModelNotFound("unknown/model")), None)
  {
  }

  /** The executor fails: its error is the result, with no response. */
  lemma EngineFailureScenario()
    ensures EmbeddingsHandler(Hello("provider-x/embed-small"), Registry, None, StubResolve,
                              (r, m, c) => Failure(EngineError("connection reset"))).result
         == Failure(EngineError("connection reset"))
  {
  }
}
