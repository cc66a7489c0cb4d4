# X-Beacon gateway: a verified model

X-Beacon is an LLM gateway. This project models what sits between its HTTP layer and the
vendors, and proves what the gateway promises over whole runs.

| module | subject |
|---|---|
| `Provider` | errors, chunks, responses; the breaker's view of a finished call |
| `Sse` | the OpenAI and Anthropic readers, against the meaning of a whole upstream body |
| `Pipeline` | reader, router and handler of one streaming attempt, interleaved with cancellation and failing client writes |
| `Cancellation` | a caller that leaves while its stream is forwarded, and what the breaker hears of it |
| `Backoff`, `Router`, `Registry`, `Failover` | the retry delay on 64-bit integers; the retry and chain loops with breaker permits and the shared time budget; the provider chain; which providers a request reaches |
| `StreamRouter` | the chain and retry loops composed with `Pipeline` |
| `Wire` | the text on the client's connection, read back by the gateway's own OpenAI reader |
| `Replay`, `CacheWrite`, `AnthropicAgreement` | aggregating a stream, replaying a cached answer; what the stream handler writes to the cache; streamed against whole Anthropic answers |
| `SlidingWindow` | the Redis rate limiter as an atomic script on a scored set |
| `Tokenizer`, `Compressor` | token counts of both families and prompt truncation |
| `AuthCache`, `Billing`, `Pricing` | revocation against the auth cache, the billing queue, the pricing snapshot |
| `TimeSeries`, `Histogram`, `Classifier` | the minute ring, the latency quantile, the rule classifier |

How to read it. Loops and objects of the gateway are methods and classes here, each proved
against a function of its inputs or of its old state; the theorems are lemmas about those
functions. The interleaved protocols (`Pipeline`, `AuthCache`, `Billing`) are total step functions:
a run is any sequence of labels, and a label whose process cannot move changes nothing, so a
statement about all label sequences is one about all interleavings.

## Where the code and its documentation part

Each of these has a lemma with a concrete run, named first, and one that says for all inputs
exactly when the promise holds, named second.

- After a failed client write of a chunk, the stream handler still writes `[DONE]` (`Pipeline.FailedWriteThenDone`, `Pipeline.DoneMeansComplete`).
- After such a write, with the context still alive, the handler can cache a prefix of the answer (`CacheWrite.PrefixIsCached`, `CacheWrite.OfferedExact`). Both need a response writer that fails once and then recovers while the request context lives on; with the HTTP/1.1 server of net/http a failed write stays failed and the context is cancelled.
- A caller that leaves during the peek is documented as a clean observation, but it is reported to the breaker as a failure if the reader closed its channel first, or sent the error for a line that the cancelled read tore (`Pipeline.CancelledPeekMayCountAsFailure` and `Pipeline.TornLineMayCountAsFailure`, `Pipeline.CancelledPeekExact`).
- A caller that leaves during forwarding is documented as a clean end too, and can be reported as a failure for the same reason (`Cancellation.CancelledForwardMayCountAsFailure`, `Cancellation.CancelledForwardExact`).
- The aggregate of a stream is documented as what a non-streaming call would have returned; of a stream with several choices it mixes the contents (`Replay.ChoicesAreMixed`, `Replay.StoredContentExact`).
- The budget test adds two 64-bit durations; a huge `Retry-After` wraps it (`Router.WrappedBudget`, `Router.SleepBudget`).
- For a `BaseBackoff` of zero the documented formula gives no wait, and the loop waits up to `MaxBackoff` from the second retry on (`Backoff.ZeroBaseJumps`, `Backoff.EnvelopeExact`). The policy's documentation calls its zero value unusable; a configuration that sets only this field to zero is accepted.
- The advertised wait of the window limiter is right for calls of cost 1 only (`SlidingWindow.RetryAfterFailsForTokens`, `SlidingWindow.RetryExact`).
- Revoking a key deletes its cache entry, and later requests are meant to go to the table; a lookup in flight can write the entry back, a caller that has read it is still let in, and a write that timed out can be applied afterwards (`AuthCache.DeleteDoesNotSuffice`, `AuthCache.HeldHitIsAccepted` and `AuthCache.LateWriteIsAccepted`; `AuthCache.NeverAgain`).
- `Stop` of the billing worker reports a clean stop although nothing was drained when the workers were never started, or when a cancelled worker threw an event away (`Billing.StopWithoutStart` and `Billing.CancelledDiscards`, `Billing.CleanStop`).
- A pricing write whose reply was lost leaves table and snapshot different (`Pricing.LostReplyDisagrees`, `Pricing.SnapshotAgrees`).
- A clock that steps back a full hour makes the ring lose the later minute (`TimeSeries.HourBackLosesRecords`, `TimeSeries.PointExact`).
- A missing first metric hides the samples of all others (`Histogram.MissingFirstHidesAll`, `Histogram.MergeIsConcat`). This is a defensive path: a registry does not gather a histogram family whose first metric carries no histogram.

Two more need no second lemma. `Enqueue` panics exactly after `Stop` (`Billing.PanicExact`).
Without a tokenizer, one comment says that token checks are skipped and another that token rules
never match; in the code an upper bound always admits and a lower bound never does
(`Classifier.WithoutTokenizer`).

## Model

| member | source | states |
|---|---|---|
| `Sse.ErrorOnlyAtEnd` | internal/provider/openai/stream.go:91-155 | For every body of either vendor: the events are all chunks iff the upstream's own terminator was read; otherwise exactly the last event is an error. |
| `Sse.DataOfExact` | internal/provider/openai/stream.go:101-108 | A line carries a payload iff it is the field name, at most one blank, and the payload. |
| `Sse.CompleteExact` | internal/provider/anthropic/stream.go:145-272 | For both vendors, from lines and decoder alone: a body is read as complete iff it has the terminator (message_stop, `[DONE]`) and every payload before it decodes and is no error. |
| `Sse.OpenAiEvents` | internal/provider/openai/stream.go:98-136 | The events of a complete OpenAI body are all chunks decoded before the terminator, in order. |
| `Sse.FailureKind` | internal/provider/anthropic/stream.go:166-195 | A failed body ends with the retryable upstream error, or with the error that an Anthropic error event names. |
| `Sse.StreamErrorRetries` | internal/provider/anthropic/errors.go:56-90 | Which error types of a running Anthropic stream are retryable, and the sentinel of each of the vendor's types. |
| `Sse.Channel.Send` | internal/provider/openai/stream.go:160-167 | An event is appended to the channel or, only if the context is cancelled, not at all. |
| `Sse.HandlePayload` | internal/provider/openai/stream.go:108-139 | One payload is the terminator, one error event, or one chunk; a failed send means cancellation. |
| `Sse.ReadOpenAi` | internal/provider/openai/stream.go:91-155 | On return everything the body means was sent, in order; only if the context was cancelled a prefix of it, possibly with the error for a torn line. A body that just ends is never a normal end. |
| `Sse.AnthStreamState.HandleEvent` | internal/provider/anthropic/stream.go:204-272 | Per event type: the new stream metadata, the chunk or error sent, and whether the stream is over. |
| `Sse.ReadAnthropic` | internal/provider/anthropic/stream.go:145-195 | Same delivery guarantee as for OpenAI, for the event machine with metadata captured at message_start; an event that does not decode ends the stream with an error. |
| `Pipeline.StepKeepsInv` | internal/router/router.go:377-457 | Every step of reader, peek, forwarder, handler and cancellation, a line torn by a cancelled read included, keeps the joint invariant: what is sent, taken, forwarded and written are prefixes of one another, in order. |
| `Pipeline.ReachableInv` | internal/router/router.go:377-457 | The invariant holds in every state of every interleaving. |
| `Pipeline.DoneMeansComplete` | internal/server/chat_stream.go:92-133 | In every run, once `[DONE]` is on the wire, the client has exactly all chunks of a properly terminated upstream answer in order if and only if none of its writes failed. |
| `Pipeline.NoFalseDone` | internal/server/chat_stream.go:92-133 | Unless a client write failed, `[DONE]` is on the wire only if the upstream's own terminator came and every payload before it decoded to something other than an error. |
| `Pipeline.OpenAiOnTheWire` | internal/server/chat_stream.go:92-133 | For an OpenAI body, an undisturbed finished run has written exactly the decoded chunks before the terminator, in order, then `[DONE]`. |
| `Pipeline.FinishedRunIsExact` | internal/server/chat_stream.go:92-133 | When the handler is through with no cancellation, encoding failure or write failure, `[DONE]` was written iff the upstream finished, and then after the whole answer; otherwise the client got every chunk before the failure and one error frame. |
| `Pipeline.FailedWriteThenDone` | internal/server/chat_stream.go:119-133 | A run in which the chunk's write fails and `[DONE]` is written all the same. |
| `Pipeline.ReceivedPrefix` | internal/router/router.go:393-448 | What the caller has received is always a prefix of the attempt's events, after a cancellation possibly with the error for a torn line, and nothing before a first chunk was peeked. |
| `Pipeline.PermitReleasedOnce` | internal/router/router.go:377-448 | The attempt's permit is released once, at a failed peek or at the forwarder's end, never earlier, with the breaker's view of the peek's error or of the last error forwarded, and cleanly if the cancellation was seen; as a failure only for a retryable error of the upstream, for a stream that ended before its first event, or after a cancellation. |
| `Pipeline.CancelledPeekMayCountAsFailure` | internal/router/router.go:393-410 | A run in which a cancelled caller's attempt is reported as an upstream failure. |
| `Pipeline.TornLineMayCountAsFailure` | internal/provider/openai/stream.go:98-120 | A run in which the cancelled read tears the first line, the reader sends the decoding error, and the cancellation is reported as an upstream failure. |
| `Pipeline.CancelledPeekExact` | internal/router/router.go:393-414 | From any reachable state with the caller gone during the peek, some continuation reports a failure to the breaker iff the reader has sent nothing, or a retryable error first. |
| `Cancellation.CancelledForwardExact` | internal/router/router.go:423-448 | From any reachable state with the caller gone during forwarding, some continuation reports a failure iff the reader can still end in a retryable error (reported, being reported, or by a line left to tear) and the events up to it fit: the handler still reads, or the 16-place channel has room. |
| `Cancellation.CancelledForwardMayCountAsFailure` | internal/router/router.go:423-448 | A run in which the caller leaves after the first chunk of a well-formed body and the permit is released as a failure. |
| `Cancellation.RunGoal` | internal/provider/openai/stream.go:91-167 | After a cancellation no step brings the reader nearer to a retryable error than its state allows, and a handler that has stopped reads no more. |
| `Backoff.ComputeEnvelope` | internal/router/policy.go:65-76 | For every 64-bit base and cap and every attempt, the wrapping loop yields the envelope that unbounded arithmetic describes: the capped power for a positive base, the cap (or the capped power of a double that wrapped) for others. |
| `Backoff.DoublingExact` | internal/router/policy.go:66-76 | From a positive value wrapping never shows: n wrapping, capped doublings give min(cap, base * 2^n). |
| `Backoff.EnvelopeExact` | internal/router/policy.go:46-76 | The loop agrees with the documented min(MaxBackoff, BaseBackoff * 2^(attempt-1)) iff the base is positive, it is the first attempt, or the cap lies no higher than the documented power. |
| `Backoff.ZeroBaseJumps` | internal/router/policy.go:66-76 | A base of zero waits up to the cap from the second retry on. |
| `Backoff.BackoffDuration` | internal/router/policy.go:58-84 | A hint is returned as is; otherwise the jittered share of the exact envelope. |
| `Backoff.EnvelopeMonotone` | internal/router/policy.go:65-76 | Later attempts never have a smaller envelope, for every base and cap. |
| `Backoff.DelayBounds` | internal/router/policy.go:58-84 | Without a hint the delay is between 0 and the envelope, whatever the generator returns; it is never negative if base and cap are not; a hint is obeyed verbatim. |
| `Backoff.ShareExact` | internal/router/policy.go:77-83 | The delay is the drawn share of the envelope cut to a nanosecond; draws outside [0, 1) are clamped. |
| `Router.TryProvider` | internal/router/router.go:195-270 | The retry loop is the specified trial, and each granted permit is given back as soon as its call returns. |
| `Router.ChatCompletion` | internal/router/router.go:146-185 | The chain loop is the specified run; the breaker's books hold one release per call that returned. |
| `Router.Breaker.Settle` | internal/router/router.go:222-226 | A call that returned releases its permit with the breaker's view of it; a refused attempt releases nothing. |
| `Router.TryShape` | internal/router/router.go:195-270 | All attempts of a trial but the last failed transiently and slept to the end; the verdict is the last attempt's. |
| `Router.SleepsAreBackoffs` | internal/router/router.go:242-267 | Between two attempts on a provider lies exactly one sleep, of the length the policy asks for by retry number, Retry-After and random factor. |
| `Router.RunShape` | internal/router/router.go:146-270 | Every run visits a prefix of the chain in order, makes at most n * (MaxRetries + 1) attempts, none after a success, a non-retryable error or a cancelled sleep, moves on only after a refusal or a transient error, ends early on one only with 0 < MaxTotal <= elapsed, and returns its last attempt's result. |
| `Router.BudgetDecides` | internal/router/router.go:152-185 | In every run the time at the end is all calls, sleeps and failovers added up; a provider is left for the next one only with MaxTotal unset or not yet passed; an early end on a refusal or transient error means that it has passed. |
| `Router.GivesUpOnlyWhenSpent` | internal/router/router.go:235-258 | A provider is given up on a transient error only when its retries are used up or the next delay would exceed MaxTotal. |
| `Router.WhatIsRetried` | internal/provider/errors.go:65-75 | With retries and time left exactly rate limits, upstream faults, unavailability and timeouts are retried, after exactly the Retry-After if there is one. |
| `Router.PermitsBalanced` | internal/router/breaker.go:104-107 | Every granted permit is released exactly once and in order, as a failure iff the call ended in a retryable error. |
| `Router.BudgetTestExact` | internal/router/router.go:245-255 | The 64-bit budget test stops a retry iff the true sum exceeds MaxTotal and still fits 64 bits. |
| `Router.SleepBudget` | internal/router/router.go:146-270 | The sleeps of a run over all providers add up to at most MaxTotal iff no retry was taken whose budget test wrapped 64 bits. The if-part holds for every run; the other for requests not centuries old when the first test wrapped. |
| `Router.WrappedBudget` | internal/router/router.go:245-255 | With a Retry-After of 9223372036 seconds a 30-second budget sleeps for that long. |
| `Failover.RunWalks` | internal/router/router.go:152-185 | Every run starts at the first provider and goes on with the same or the next one. |
| `Failover.CallsChainPrefix` | internal/router/router.go:146-185 | For every provider table and model, the providers called are, without repetitions, a prefix of the resolved chain, and one that was left is never called again. |
| `StreamRouter.PermitOfAttempt` | internal/router/router.go:377-448 | On the streaming path each permit is released once, when its attempt is over; a non-retryable error is never reported as a failure. |
| `StreamRouter.ForwardedByAttempt` | internal/router/router.go:393-448 | Only a committed attempt has passed anything on. |
| `StreamRouter.OneAttemptReachesCaller` | internal/router/router.go:287-366 | In every streaming run, everything the caller receives is a prefix of the events of one attempt, the last one, up to the error for a torn line after a cancellation; earlier attempts passed nothing and gave back their permits; nothing follows a commit. |
| `StreamRouter.DoneEndToEnd` | internal/router/router.go:287-457 | Over retries, failover and all interleavings: `[DONE]` on the wire means a complete answer of one upstream iff no client write failed, and then that upstream's body had its terminator with nothing broken or failed before it. |
| `Wire.LinesCons` | internal/provider/openai/stream.go:98-108 | The line scanner takes a one-line text off the front at its line feed. |
| `Wire.WireRoundTrip` | internal/server/sse/writer.go:54-89 | The text of any frames, with heartbeat comments anywhere between them, is read back by the OpenAI reader as exactly those frames. |
| `Wire.CutNeverLooksComplete` | internal/server/sse/writer.go:54-89 | Wherever the text breaks off, even inside a frame, the reader takes it for complete only if it has read all that the frames mean, their terminator included. |
| `Wire.CompleteMeansUpstreamComplete` | internal/server/chat_stream.go:92-133 | Through the whole pipeline and a connection that may break after any character: what a reader downstream takes for complete is exactly a complete upstream stream, if no client write failed. |
| `Wire.RelayIsExact` | internal/server/chat_stream.go:92-133 | When handler and connection got through, the reader downstream sees exactly the upstream's events if its stream was complete, and otherwise all its chunks and one upstream error, never a complete stream. |
| `Registry.ChainBuilder.Add` | internal/provider/registry/registry.go:120-129 | The chain under construction is the claims so far without repetitions. |
| `Registry.ResolveChain` | internal/provider/registry/registry.go:116-148 | The chain is the exact, glob and fallback claims in that order, each provider once; malformed patterns claim nothing. |
| `Registry.ChainDistinct` | internal/provider/registry/registry.go:108-148 | No duplicates, exactly the claimants, and the highest-priority claim first. |
| `Registry.ChainOrdered` | internal/provider/registry/registry.go:108-148 | Providers keep the order of their first claims. |
| `Registry.ChainTiers` | internal/provider/registry/registry.go:108-148 | The exact owner comes first, matching patterns in declaration order, the fallback claims last, and exactly the claimants are in the chain. |
| `Replay.StreamStats.Observe` | internal/server/chat_stream.go:193-224 | One chunk folded into the accumulator: later nonempty header fields win, content is appended, counts only if positive. |
| `Replay.LatestWins` | internal/server/chat_stream.go:193-224 | Of several chunks naming a field the last decides; empty fields and zero counts change nothing. |
| `Replay.ShouldCacheResponse` | internal/server/chat.go:379-393 | True iff there are prompt tokens, the first choice finished with "stop" and some choice has content. |
| `Replay.ReplayContent` | internal/server/chat_stream.go:352-373 | One choice's pieces are written in order; a failed write leaves a prefix. |
| `Replay.ReplayContents` | internal/server/chat_stream.go:352-373 | The same for all choices, one after the other. |
| `Replay.ReplayCachedStream` | internal/server/chat_stream.go:313-408 | The wire holds openers, content pieces, closers with usage and `[DONE]`, or a prefix if a write failed. |
| `Replay.PiecesExact` | internal/server/chat_stream.go:352-373 | The pieces are nonempty, 32 runes long but for a shorter last one, and concatenate to the content. |
| `Replay.ObserveReplay` | internal/server/chat_stream.go:313-408 | What aggregating the replay of any single-choice answer gives. |
| `Replay.RoundTripExact` | internal/server/chat_stream.go:233-408 | For every chunk sequence: aggregate, replay, aggregate again gives the same answer iff the stream carried a finish reason. |
| `Replay.RoundTrip` | internal/server/chat.go:379-393 | In particular for everything the cache gate lets in. |
| `Replay.ReplayPerChoice` | internal/server/chat_stream.go:313-408 | With distinct choice indices, a client collects each choice's own content. |
| `Replay.ReplayEnds` | internal/server/chat_stream.go:313-408 | Every replay opens with an assistant role per choice and closes with a finish reason per choice ("stop" by default) and the usage, under one id, time and model. |
| `Replay.StoredDefaults` | internal/server/chat_stream.go:233-266 | What is stored for a stream that names nothing: the made-up id, the clock, the requested model. |
| `Replay.StoredContentExact` | internal/server/chat_stream.go:216-266 | The stored content is what the stream said for choice 0 iff no other choice carries content. |
| `Replay.ChoicesAreMixed` | internal/server/chat_stream.go:216-266 | Two choices "a" and "b" are stored as one "ab". |
| `CacheWrite.OfferedExact` | internal/server/chat_stream.go:92-159 | In every run, what the handler offers to the cache is one whole upstream answer iff the upstream finished it and at most its last chunk did not reach the client; always if no chunk write failed. |
| `CacheWrite.CachedAnswerIsWhole` | internal/server/chat_stream.go:140-159 | A cache entry made without a failed chunk write is the aggregate of a whole upstream answer, replaying it gives the same answer, and its content is that of choice 0 iff no other choice carried content. |
| `CacheWrite.PrefixIsCached` | internal/server/chat_stream.go:119-159 | A run that caches the first of two chunks of a complete answer after its write failed. |
| `AnthropicAgreement.FromAnthropicResponse` | internal/provider/anthropic/convert.go:100-128 | The whole-message conversion: text blocks concatenated, stop reason mapped, usage summed. |
| `AnthropicAgreement.FinishReasons` | internal/provider/anthropic/convert.go:133-146 | The finish reason of a converted message by the vendor's values: end_turn and stop_sequence give stop, max_tokens length, tool_use tool_calls, others are kept. |
| `AnthropicAgreement.StepSim` | internal/provider/anthropic/stream.go:204-272 | Each well-placed event keeps the aggregated chunks equal to the message assembled so far. |
| `AnthropicAgreement.Simulates` | internal/provider/anthropic/stream.go:145-272 | Every well-formed body is read to its terminator and its chunks aggregate to the message it denotes. |
| `AnthropicAgreement.StreamedEqualsWhole` | internal/provider/anthropic/convert.go:100-146 | The streamed and the whole answer agree in id, model, choices and usage iff the message has an id, a model (or the request names none) and nonzero usage. |
| `AnthropicAgreement.OnlyFinishedAnswersAreCached` | internal/server/chat.go:379-393 | A streamed or whole message passes the cache gate iff it finished by itself, has text, and there are prompt tokens: an answer cut at max_tokens never enters the cache. |
| `SlidingWindow.RedisKey.Allow` | internal/ratelimit/redis_window.go:84-168 | One call of the script: the new set, counter and expiry, and the decision. |
| `SlidingWindow.StepKeepsInv` | internal/ratelimit/redis_window.go:84-127 | One more call keeps: the set is exactly the admitted units newer than the cut, under consecutive numbers. |
| `SlidingWindow.SetExact` | internal/ratelimit/redis_window.go:84-127 | That holds after every run with nondecreasing caller clocks; members are distinct. |
| `SlidingWindow.ExpiryDropsNothingLive` | internal/ratelimit/redis_window.go:120-122 | When the key's time to live ends, no admitted unit is still in the window. |
| `SlidingWindow.TtlExact` | internal/ratelimit/redis_window.go:136-136 | The key outlives the window by more than four and at most five seconds. |
| `SlidingWindow.PopulationIsCost` | internal/ratelimit/redis_window.go:92-98 | The population the script checks is the total cost admitted in the caller's window. |
| `SlidingWindow.WindowSafety` | internal/ratelimit/redis_window.go:84-168 | In every run and for every t, the costs asked for by the calls admitted in (t - window, t], at least 1 each, add up to at most the limit. |
| `SlidingWindow.RetryByCost` | internal/ratelimit/redis_window.go:84-108 | A call after any run is admitted iff what is left of the last window leaves room for it. |
| `SlidingWindow.AnswerExact` | internal/ratelimit/redis_window.go:98-126 | A call is admitted iff its full cost fits what its window has left, and remaining is the limit less the cost admitted in the window and, if admitted, its own. |
| `SlidingWindow.RetryExact` | internal/ratelimit/redis_window.go:98-108 | For any cost, a denied call repeated without other traffic is admitted iff its cost is within the limit and the entry that blocks it has left the window: counted from the oldest, entry number (live entries + cost - limit). |
| `SlidingWindow.UnitRetryExact` | internal/ratelimit/redis_window.go:98-108 | For cost 1: iff the oldest entry has left the window. |
| `SlidingWindow.RetryAfterPromise` | internal/ratelimit/redis_window.go:163-166 | Waiting for the advertised milliseconds, or for the header's whole seconds, is enough for a cost-1 call; a millisecond less is denied again. |
| `SlidingWindow.SecondsCover` | internal/server/middleware/ratelimit.go:133-145 | The Retry-After header (section 7.1.3 of RFC 7231) says the advertised wait rounded up to the next second: never less, and less than a second more. |
| `SlidingWindow.RetryAfterFailsForTokens` | internal/ratelimit/redis_window.go:98-108 | A cost-2 call told to wait 4 s is denied again after 4 s. |
| `Tokenizer.CountMessages` | pkg/tokenizer/tokenizer.go:76-93 | Both families' counts: priming plus per-message overhead plus codec counts, scaled for Claude. |
| `Tokenizer.SingleCount` | pkg/tokenizer/tokenizer.go:76-93 | What one message costs: 6 and the codec counts of its nonempty parts; scaled for Claude. |
| `Tokenizer.CountAdditive` | pkg/tokenizer/tokenizer.go:76-93 | Joining two prompts saves exactly one priming overhead of 3; an empty prompt costs nothing. |
| `Tokenizer.Scale` | pkg/tokenizer/tokenizer.go:145-151 | The integer nearest to 1.15 n, halves upwards. |
| `Tokenizer.CountSubadditive` | pkg/tokenizer/tokenizer.go:137-151 | Counting two parts separately never comes out below counting them together, rounding included. |
| `Tokenizer.CountStrict` | pkg/tokenizer/tokenizer.go:137-151 | One more message's overhead always survives the rounding. |
| `Compressor.NewSlidingWindow` | internal/prompt/compressor.go:117-138 | The constructed options are in range: each is the given one, or, where that is out of range, the default 128000, 0.8 or 2. |
| `Compressor.Partition` | internal/prompt/compressor.go:159-169 | System messages and the rest, each in order. |
| `Compressor.WalkBack` | internal/prompt/compressor.go:176-190 | The backward walk stops at the start of the longest admissible suffix. |
| `Compressor.Compress` | internal/prompt/compressor.go:145-212 | The request's messages after the call, and the reported counts. |
| `Compressor.LongestSuffix` | internal/prompt/compressor.go:171-190 | A suffix starts at or after the kept tail iff the floor protects it or, counted message by message with the system part, it is within the trigger ratio of the model's own window. |
| `Compressor.BudgetExact` | internal/prompt/compressor.go:152-153 | The integer budget admits a count iff it is within the ratio of the model's configured window, or of the default one if it has no positive entry. |
| `Compressor.PiecesCoverWhole` | internal/prompt/compressor.go:171-211 | The recounted prompt never exceeds the sum the walk compared with the budget. |
| `Compressor.SplitCount` | internal/prompt/compressor.go:161-179 | Moving system messages to the front does not change the count. |
| `Compressor.CompressesExactly` | internal/prompt/compressor.go:145-219 | The messages change iff the prompt exceeds the ratio of its model's own window and has more non-system messages than the floor. |
| `Compressor.BudgetOrFloor` | internal/prompt/compressor.go:145-219 | After a compression, all system messages and a suffix of the rest remain, the count is smaller, and it is within the ratio of the model's own window or exactly the floor was kept. |
| `Compressor.CompressTwice` | internal/prompt/compressor.go:145-212 | A second compression changes nothing. |
| `AuthCache.StepKeepsInv` | internal/auth/cached.go:70-175 | Every step of callers, cache reads, flights, cache writes (late ones included), expiry and revocation keeps: positive entries, writes that timed out, hits in hand and pending results go back to a lookup before the revocation. |
| `AuthCache.BoundedStaleness` | internal/auth/cached.go:70-175 | In every run, an acceptance after the revocation rests on an earlier lookup, in its own flight or through a cache read less than posTTL after Redis applied its cache write. |
| `AuthCache.BoundedRefusal` | internal/auth/cached.go:147-175 | A key is refused from the cache only by a lookup that found no active row, written less than negTTL ago; faults are never remembered. |
| `AuthCache.NeverAgain` | internal/auth/keystore.go:223-274 | A revoked key is never accepted in any continuation iff there is no live positive entry, no positive write that timed out, no caller holding a hit and no flight with an earlier lookup. |
| `AuthCache.QuietForever` | internal/auth/keystore.go:223-274 | Such a state stays that way, and accepts nobody, under every label. |
| `AuthCache.DeleteDoesNotSuffice` | internal/auth/keystore.go:219-274 | A run in which the key is accepted from the cache after Revoke has deleted the entry. |
| `AuthCache.HeldHitIsAccepted` | internal/auth/cached.go:80-88 | A run in which a caller reads a hit, the key is revoked and its entry deleted with no flight around, and the caller is let in any time later. |
| `AuthCache.LateWriteIsAccepted` | internal/auth/cached.go:147-160 | A run in which a cache write that timed out is applied after the delete, with nothing else left, and the next caller is let in. |
| `Billing.StepConserves` | internal/billing/worker.go:133-201 | Each step moves an event from one place to the next, or leaves it. |
| `Billing.EnqueueDecides` | internal/billing/worker.go:133-145 | In every run an event is dropped iff the open buffer is full, accepted iff it has room, and panics iff the channel is closed. |
| `Billing.PersistDecides` | internal/billing/worker.go:246-263 | An insert that succeeds counts as written, one that fails as failed, and nothing else does. |
| `Billing.QueueIsFifo` | internal/billing/worker.go:133-201 | What is queued is always the latest of what was accepted, in order. |
| `Billing.Conservation` | internal/billing/worker.go:115-201 | In every reachable state, for every event: offered = dropped + panicked + queued + in hand + written + failed + discarded; the queue is within its capacity. |
| `Billing.NotPersistedTwice` | internal/billing/worker.go:192-265 | An event offered once is written, failed or dropped at most once in all. |
| `Billing.CleanStop` | internal/billing/worker.go:157-201 | After a stop without timeout, accepted = written + failed iff nothing was left queued or discarded: always if the workers were started and not cancelled; if they were never started, iff nothing was accepted. |
| `Billing.CleanOnlyWhenAllGone` | internal/billing/worker.go:157-174 | Stop is clean only at a moment when no worker is left. |
| `Billing.StopWithoutStart` | internal/billing/worker.go:157-186 | A clean stop with an event still queued. |
| `Billing.CancelledDiscards` | internal/billing/worker.go:192-201 | With any number of workers, a run that stops cleanly after a cancelled worker discarded an accepted event. |
| `Billing.PanicExact` | internal/billing/worker.go:133-160 | In every run, some Enqueue panicked iff one came after a Stop. |
| `Pricing.PricingCache.Reload` | internal/billing/pricing.go:109-142 | The snapshot becomes the table, or nothing changes; the old snapshot object is never touched. |
| `Pricing.PricingCache.Set` | internal/billing/pricing.go:147-183 | Table and snapshot after a write, for every reply of the database; a failed call publishes nothing. |
| `Pricing.PricingCache.Delete` | internal/billing/pricing.go:187-203 | The same for a delete. |
| `Pricing.PricingCache.Copy` | internal/billing/pricing.go:208-233 | A fresh map with all entries but the excepted one. |
| `Pricing.SnapshotAgrees` | internal/billing/pricing.go:109-233 | In every run and for every model, snapshot and table agree iff the model is not stale: a lost write that the snapshot did not already hold, or a lost delete of a model it holds, makes it stale; a reload, an acknowledged write and a delete that found the row clear it. |
| `Pricing.SnapshotEqualsTable` | internal/billing/pricing.go:109-233 | Snapshot and table are equal iff no model is stale. |
| `Pricing.EqualAfterReload` | internal/billing/pricing.go:109-233 | In particular after one successful reload with no lost reply since. |
| `Pricing.SetThenCharge` | internal/billing/pricing.go:147-183 | After an acknowledged write, lookups find its rates, its currency or USD, and its time, and requests are priced by it. |
| `Pricing.InvalidChangesNothing` | internal/billing/pricing.go:147-160 | A write without a model or with a negative rate changes nothing. |
| `Pricing.LostReplyDisagrees` | internal/billing/pricing.go:147-183 | One lost reply and they differ. |
| `Pricing.RoundingBound` | internal/billing/worker.go:215-228 | Over any N priced requests the recorded total times 1000 is at most the exact charge and at most 1998 N below it. |
| `Pricing.UnpricedIsFree` | internal/billing/pricing.go:242-248 | A model without a rate costs nothing. |
| `TimeSeries.Ring.Record` | internal/observability/timeseries.go:76-98 | The slot of the minute is bumped, a stale one restarted, all others kept. |
| `TimeSeries.Ring.Snapshot` | internal/observability/timeseries.go:103-124 | Sixty points, oldest first, each from its slot or zero. |
| `TimeSeries.RingOk` | internal/observability/timeseries.go:76-98 | After any records in any order of time, each slot holds the counts of the minute that last used it since it took the slot over. |
| `TimeSeries.KeptExact` | internal/observability/timeseries.go:76-98 | Of a minute nothing is lost iff no record of it was followed by one of another minute in its slot. |
| `TimeSeries.PointExact` | internal/observability/timeseries.go:76-132 | Whatever the clock did, a point of a snapshot is the full history's counts of its minute iff that minute was not overwritten. |
| `TimeSeries.SnapshotExact` | internal/observability/timeseries.go:76-132 | For every clock that steps back by less than an hour, every point is the full history's counts of its minute: nothing lost within the hour, nothing from older rotations. |
| `TimeSeries.HourBackLosesRecords` | internal/observability/timeseries.go:76-132 | A clock one hour back overwrites a minute that is then shown as zero. |
| `Histogram.AddInPlace` | internal/observability/stats.go:237-242 | Bucket counts are added slot by slot, extra buckets ignored. |
| `Histogram.MergeHistograms` | internal/observability/stats.go:215-245 | The loop is the fold of the metrics' histograms, on 64-bit counts. |
| `Histogram.MergeIsConcat` | internal/observability/stats.go:215-245 | The merge is the histogram of all label sets' samples together iff the first metric carries a histogram. |
| `Histogram.MissingFirstHidesAll` | internal/observability/stats.go:219-222 | With a missing first metric the merge is empty whatever was observed. |
| `Histogram.HistogramQuantile` | internal/observability/stats.go:254-280 | The scan with running edge and count is the recursive specification. |
| `Histogram.QuantileMonotone` | internal/observability/stats.go:254-280 | The estimate never decreases with q, for every cumulative histogram and every real q. |
| `Histogram.EstimateInTrueBucket` | internal/observability/stats.go:254-280 | The estimate lies in the very bucket of the true sample of rank ceil(q n), and is the last bound if that sample is above all buckets. |
| `Histogram.EstimateIsLinear` | internal/observability/stats.go:262-273 | The estimate is as far along its bucket's width as the target is along the bucket's samples. |
| `Histogram.NoDataIsZero` | internal/observability/stats.go:254-257 | Without data the estimate is 0. |
| `Histogram.RankExists` | internal/observability/stats.go:258-258 | Every q in (0, 1] asks for exactly one rank. |
| `Histogram.MergedQuantileError` | internal/observability/stats.go:215-280 | On the merge of all label sets, the estimate misses a true sample within the buckets by at most its bucket's width. |
| `Classifier.NewRuleClassifier` | internal/route/rule_classifier.go:84-107 | Accepts iff every rule has a name, a target, a weight in [0, 100] and a good glob and names are unique; otherwise reports the first bad rule and its first defect. |
| `Classifier.AcceptedExact` | internal/route/rule_classifier.go:84-107 | Acceptance written out: names and targets present, names unique, weights in [0, 100], patterns well formed. |
| `Classifier.AnyKeywordPresent` | internal/route/rule_classifier.go:209-219 | True iff some nonempty keyword, lowered, occurs. |
| `Classifier.JoinUserContent` | internal/route/rule_classifier.go:192-204 | User turns joined, a blank only after something was written. |
| `Classifier.JoinOfTwo` | internal/route/rule_classifier.go:192-204 | Two user turns are joined by one blank, unless the first is empty. |
| `Classifier.Examine` | internal/route/rule_classifier.go:133-163 | The deterministic conditions of one rule, with token count and content filled in only when needed and never changed. |
| `Classifier.Classify` | internal/route/rule_classifier.go:115-172 | The decision is that of the first rule whose whole condition holds; one draw per weighted, otherwise selected rule up to it; tokens counted and content joined once iff some rule looked at needs them. |
| `Classifier.ClassifyBuilt` | internal/route/classifier.go:36-36 | For accepted rules the decision is empty iff no rule's condition holds. |
| `Classifier.TokenRuleExact` | internal/route/rule_classifier.go:139-150 | A rule with token bounds alone fires iff the prompt, counted by its model's tokenizer family, is within them, ends included. |
| `Classifier.ModelRuleExact` | internal/route/rule_classifier.go:133-137 | A rule with a pattern alone fires iff the pattern matches the requested model. |
| `Classifier.KeywordRuleExact` | internal/route/rule_classifier.go:152-163 | A rule with keyword lists alone fires iff some nonempty word of the any-list, if it has one, and none of the none-list occurs in what the user said, case folded. |
| `Classifier.RollsExact` | internal/route/rule_classifier.go:165-167 | A number is drawn for a rule iff it is weighted and its other conditions hold. |
| `Classifier.WithoutTokenizer` | internal/route/rule_classifier.go:178-186 | Without a tokenizer the token conditions hold iff there is no lower bound. |
| `Classifier.KeywordInAnyTurn` | internal/route/rule_classifier.go:152-163 | A keyword in any one user turn satisfies an any-list and defeats a none-list. |
| `Classifier.OnlyUserTurnsCount` | internal/route/rule_classifier.go:188-204 | Other roles cannot influence the keyword checks. |
| `Classifier.CanaryShare` | internal/route/rule_classifier.go:165-167 | Over a uniform grid of draws, a weight of w wins for w percent of them, rounded up to one draw. |

## Left out

- HTTP clients, headers, JSON encoding, routing, CORS, logging, tracing, metrics and the heartbeat timer: input and output; encoding and decoding JSON are parameters, and `Wire` requires of them that chunks survive and that bodies are one-line objects; a chunk that cannot be encoded is a label.
- Internals of the circuit breaker, token-bucket, BPE, glob and database libraries: the breaker is a gate that refuses or grants one permit, the codec a nonnegative count, path.Match a parameter.
- The breaker's trip rule and setting defaults, `ResolveModel`, `Swap`, `AllModels`: easy next to the chain and permits.
- The in-memory limiter, the multi-rule limiter and the rule loader: their content is an unseen library and first-deny loops.
- Admin handlers, command-line tool, migrations, configuration, audit, log queries, cache key hashing: validation, SQL text, hashing.
- Liveness and fairness: the runs are safety statements over all interleavings.
- Floating point: trigger ratios, jitter, weights, bucket bounds and the quantile are reals, the 1.15 scale is decimal, the limiter's Lua numbers are exact integers.
- The 1 MiB line limit of the readers and broken connections: both are a body that runs out of lines.
- Passthrough fields of chunks and responses (extra JSON, object names, provider names) and tool calls in chunks.
- The rough character estimate that replaces a failing BPE codec.
- The order of equal scores inside the sorted set (by number here, lexicographic in Redis): only the lowest score and the size are used.
- A billing insert that took effect although its reply was lost counts as failed, as in the worker's own counters; partition creation is not modelled.
- Token and price sums beyond 64 bits, other than in the products of `Pricing.RoundingBound`; `uint64` sums in the histogram do wrap.
- Times before 1 January 1970 in the minute ring.
- Router.SleepBudget: the only-if part assumes that the request's age plus MaxTotal fits 64 bits of nanoseconds (292 years) up to the first wrapping test; without that a wrapped test may belong to a short sleep.
- SlidingWindow.WindowSafety: assumes nondecreasing caller timestamps in script order, and a Redis clock that gains at most four seconds on them between two calls.
