# Embedding request handler of an AI gateway

This project models the embeddings endpoint of a provider-agnostic AI gateway.
The handler `embeddings_handler` runs four stages in a fixed order:

1. It resolves the client's full model name to a registered model descriptor.
2. It reads the optional caller credentials from the request context.
3. It invokes the executor with the request, the descriptor and the credentials.
4. It normalises the executor's raw result into the public `CreateEmbeddingResponse`.

The first failing stage ends the run, and its error becomes the handler's result.
The Rust source is a chain of immutable bindings with `?` early returns, plus one `map`/`collect`. The model is therefore pure: datatypes, functions and lemmas.

Files:
- `wrappers.dfy`: `Option` and `Result`.
- `gateway_types.dfy`: the request, the descriptor, the registry, the credentials, the executor's raw result and the public response.
- `embedding_handler.dfy`: the normaliser, the handler and the lemmas about them.
- `embedding_scenarios.dfy`: three concrete runs with a stub resolver and stub executors.

Modelling choices:
- The two collaborators have no visible bodies, so they are function-typed parameters of the handler. `Resolver` stands for `find_model_by_full_name` and `Invoker` for `handle_embeddings_invoke`. Nothing is assumed about them beyond their signatures.
- The credentials found in the request context are passed in as an `Option<Credentials>` parameter.
- The handler returns a `HandlerRun` that holds its result and the arguments of the invoker call, if one was made. This is how the short-circuit is stated.
- An embedding value is its 32-bit pattern (`F32(bits: bv32)`), because the handler never does arithmetic on it.
- `object` is a reserved word in Dafny. The JSON field `object` is therefore named `objectTag`.

## Model

| member | source | states |
|---|---|---|
| `EmbeddingHandler.NormalizeData` | src/handler/embedding.rs:35-43 | the response items are as many as the raw items, and item i carries raw item i's object tag, vector and index unchanged (no reordering, no re-indexing) |
| `EmbeddingHandler.Normalize` | src/handler/embedding.rs:35-53 | the response has tag "list", the raw items carried one for one, the resolved descriptor's `model` as its name, and the raw prompt and total token counters copied |
| `EmbeddingHandler.EmbeddingsHandler` | src/handler/embedding.rs:22-53 | a failed resolution is returned as is, with no invoker call. After a successful resolution, the invoker gets the untouched request, the resolved descriptor and the credentials exactly as read (None included). A failed invocation is returned unchanged. Every returned error comes from a collaborator. A response exists if and only if both stages succeed, and it is the normalisation of the raw result under the resolved descriptor |
| `EmbeddingHandler.NormalizesUnique` | src/handler/embedding.rs:45-53 | the normalisation contract fixes every field, so any response meeting it equals the normaliser's output |
| `EmbeddingHandler.NormalizeDataAppend` | src/handler/embedding.rs:35-43 | normalising a concatenation equals concatenating the normalised parts, so no item moves across any split of the sequence |
| `EmbeddingHandler.ResponseIgnoresClientModelString` | src/handler/embedding.rs:24-48 | two requests whose model strings resolve to the same descriptor, and whose invocations return the same raw result, get the same response. Its name is the descriptor's, whatever string the client sent |
| `EmbeddingScenarios.RegisteredModelScenario` | src/handler/embedding.rs:24-53 | a registered model with no credentials yields a one-item "list" response that echoes the descriptor's name `embed-small` instead of the client's `provider-x/embed-small` |
| `EmbeddingScenarios.UnknownModelScenario` | src/handler/embedding.rs:24 | an unregistered model yields the resolver's `ModelNotFound` error, and the executor is never called |
| `EmbeddingScenarios.EngineFailureScenario` | src/handler/embedding.rs:27-33 | an executor failure is returned unchanged, and no response is built |

## Left out

- Actix-web plumbing is not modelled: `web::Json`, `web::Data`, `HttpResponse::Ok().json` and the HTTP status mapping of errors. The model returns the `CreateEmbeddingResponse` value itself.
- The `req.extensions().get::<Credentials>()` lookup is not modelled. It is only a pure read, so it becomes the `credentials` parameter.
- The internals of `find_model_by_full_name` and `handle_embeddings_invoke` are not part of this model. No exact-match, retry or error-taxonomy contract is assumed for them.
- The `?` operator's `From` conversion of collaborator errors is modelled as the identity. The collaborators are typed to return `GatewayApiError` directly.
- The shared `CallbackHandlerFn` telemetry sink is left out, because it carries side effects and no logic of this core. It is handed to the executor unchanged.
- The `async`/`.await` suspension and cancellation are left out, because they concern concurrency.
- The fields of `CreateEmbeddingRequest`, the model descriptor, `Credentials` and `GatewayApiError` are reduced to the ones the handler touches, plus opaque stand-ins. Their definitions are not part of this model.
- Float semantics of embedding values are not modelled. Each value is an opaque bit pattern that is only copied.
- The integer widths of `index` and of the token counters are not shown in the source, so they are modelled as `nat`. They are only copied, so width does not affect any property.
