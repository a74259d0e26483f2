/** The canonical response, and the stamp every reply leaves the gateway with. */
module ChatResponse {
  import opened Wrappers
  import opened ChatRequest
  import opened Pricing

  datatype CacheStatus = Miss | ExactHit | SemanticHit | Bypassed {
    predicate IsHit() { ExactHit? || SemanticHit? }
  }

  datatype ChatResponse = ChatResponse(
    id: string,
    model: string,
    provider: string,
    message: ChatMessage,
    usage: TokenUsage,
    costUsd: real,
    cacheStatus: CacheStatus,
    traceId: string,
    createdAt: int,
    latencyMs: int,
    adapterId: Option<string>,
    modelAlias: Option<string>,
    adapterStage: Option<string>)

  /** What a provider said: the part of a response no cache and no stamp touches. */
  datatype Answer = Answer(id: string, model: string, provider: string, message: ChatMessage, usage: TokenUsage,
      createdAt: int)

  function AnswerOf(r: ChatResponse): Answer {
    Answer(r.id, r.model, r.provider, r.message, r.usage, r.createdAt)
  }

  /** The reply is labelled with the asking request's own trace and adapter, whatever request
      it was made for. */
  predicate Labelled(reply: ChatResponse, traceId: string, request: ChatRequest) {
    && reply.traceId == traceId && reply.adapterId == request.adapterId
    && reply.modelAlias == request.modelAlias && reply.adapterStage == request.adapterStage
  }

  /** Hits cost nothing; everything else keeps its cost. */
  function Stamp(r: ChatResponse, traceId: string, status: CacheStatus, latencyMs: int, request: ChatRequest)
    : (stamped: ChatResponse)
    ensures AnswerOf(stamped) == AnswerOf(r) && Labelled(stamped, traceId, request)
    ensures stamped.cacheStatus == status && stamped.latencyMs == latencyMs
    ensures stamped.costUsd == if status.IsHit() then 0.0 else r.costUsd
  {
    r.(traceId := traceId, cacheStatus := status, latencyMs := latencyMs,
       costUsd := if status.IsHit() then 0.0 else r.costUsd,
       adapterId := request.adapterId, modelAlias := request.modelAlias, adapterStage := request.adapterStage)
  }
}
