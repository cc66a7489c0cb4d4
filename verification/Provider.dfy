/** Wire-level values shared by the adapters, the router and the handlers. */
module Provider {

  datatype Option<+T> = None | Some(value: T)

  datatype Sentinel =
    | ErrAuth
    | ErrRateLimited
    | ErrContextLength
    | ErrInvalidRequest
    | ErrUpstream
    | ErrUnavailable
    | ErrTimeout

  /** What a provider call can fail with. `ContextError` is the caller's own
      cancellation, `OtherError` anything that matches no sentinel. */
  datatype Error =
    | UpstreamError(sentinel: Sentinel, retryAfter: int)
    | ContextError
    | OtherError

  predicate IsRetryable(e: Error) {
    e.UpstreamError? && e.sentinel in {ErrRateLimited, ErrUpstream, ErrUnavailable, ErrTimeout}
  }

  /** The breaker's view of a finished call: `Some` counts as a failure. */
  function BreakerObservation(callErr: Option<Error>): (obs: Option<Error>)
    ensures obs.Some? <==> callErr.Some? && IsRetryable(callErr.value)
    ensures obs.Some? ==> obs == callErr
  {
    if callErr.Some? && IsRetryable(callErr.value) then callErr else None
  }

  const UPSTREAM_FAULT := UpstreamError(ErrUpstream, 0)

  datatype Usage = Usage(prompt: int, completion: int, total: int)

  datatype Delta = Delta(role: string, content: string)

  datatype StreamChoice = StreamChoice(index: int, delta: Delta, finishReason: string)

  datatype Chunk = Chunk(id: string, created: int, model: string, choices: seq<StreamChoice>, usage: Option<Usage>)

  /** Exactly one of a chunk and an error; an error event is the last one of its stream. */
  datatype StreamEvent = ChunkEvent(chunk: Chunk) | ErrEvent(err: Error)

  datatype Choice = Choice(index: int, content: string, finishReason: string)

  datatype Response = Response(id: string, created: int, model: string, choices: seq<Choice>, usage: Option<Usage>)
}
