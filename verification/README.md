# Costguard: a verified model of the gateway's hard parts

Costguard is an LLM gateway: it translates between provider formats, meters what flows through it, and decides which
calls to make. This project models those parts in Dafny and proves what they promise. `dafny verify dfyconfig.toml`
checks all of it.

| file | models |
|---|---|
| `SseLines.dfy`, `StreamMeter.dfy` | the byte-level line splitter and the stream meter that bills a stream |
| `ChatStream.dfy`, `AnthropicStream.dfy`, `GeminiStream.dfy` | both stream translations, the same answers unstreamed, and the bill of each |
| `Breaker.dfy`, `Retry.dfy`, `Provider.dfy`, `Interleaving.dfy`, `CallRate.dfy`, `Unsent.dfy` | circuit breaker, retry loop, adapters and fallback, many requests sharing a breaker, how often an unhealthy provider is called, and what requests that are never sent do to a breaker |
| `Conversation.dfy`, `AnthropicRequest.dfy`, `GeminiRequest.dfy` | what becomes of a request's messages, tool results above all |
| `Cache.dfy`, `CacheMemory.dfy` | the response cache, as interleaved sections and as a class with shared storage |
| `Health.dfy` | the ring of recent outcomes and its snapshots |
| `Budget.dfy`, `Alerts.dfy` | budget admission and overspend, and the budget alerts |
| `Vision.dfy` | token estimates for images |
| `Wrappers.dfy`, `Reals.dfy`, `Strings.dfy` | shared result types and small facts |

How it is modelled:

- Objects whose methods update fields are classes; each method is tied to a function on values, and what the
  function means is proved beside it. Loops stay loops, with the source's locals.
- Concurrency is a state machine over the sections that run under one lock; a run is any sequence of enabled steps,
  under a clock that never goes back.
- What comes from outside (answers, faults, clocks, jitter, cancellation, map iteration order) is a parameter,
  so every statement holds for all of it.
- JSON is an encoder that the decoder inverts, whose output has no newline, does not end in a carriage return and is not
  `[DONE]`. Stored texts count characters, where Go counts bytes. Times and token counts are unbounded integers;
  money, backoff delays and averages are reals.

- The lemmas whose names end in `InFull`, and a few beside them, say what a function gives in plain fields, bytes,
  positions and counts of its input, without the function's own helpers. The larger theorems, which compare two paths or
  run a machine, rest on them: two paths that agree cannot both be wrong in the same way.

## Findings

Promises that the code keeps only under a condition are stated with that condition, and a run that breaks them without it.

- A streamed answer is billed like the unstreamed one exactly when its total is positive
  (`AnthropicStream.SameBill`; the "only" needs output counts that do not exceed the final one), and for Gemini when,
  beyond that, the model version is not a blank string that only one of the two paths replaces
  (`GeminiStream.SameBill`).
- A streamed answer has the text of the unstreamed one exactly without tool calls and with at most one text block
  (`AnthropicStream.SameText`) or, for Gemini, one text that is kept (`GeminiStream.SameText`). An Anthropic stream has
  the same tool calls exactly when the JSON pieces of each make up its arguments (`AnthropicStream.SameAnswer`): a tool
  without a piece gets "" (`AnthropicStream.NoPiecesNoArguments`).
- The breaker gets stuck half-open for ever exactly when callers report both counted and ignored failure categories
  (`CircuitBreaker.NeverWedgesExactly`). The gateway reports only counted ones, so its breakers never get stuck
  (`Interleaving.HalfOpenHasAnOwner`).
- Not all that a breaker records stems from its provider. An admitted call hands nothing to the provider's HTTP client,
  and still records a failure that counts, in exactly four cases: the client was gone before the first attempt; the registry
  does not hold the provider; the provider's adapter does not serve the path, which an Anthropic or Gemini one
  answers itself with a 501 (`/v1/responses` and the audio paths reach it); or the upstream request cannot be built. It
  hands over nothing and records a success exactly when the adapter refuses the request with its own 400
  (`ProviderCalls.BlamedForNothingExactly`, with a run of each: `ProviderCalls.CancellationCountsAgainstProvider`,
  `ProviderCalls.UnregisteredCountsAgainstProvider`, `ProviderCalls.UnservedPathCountsAgainstProvider`,
  `ProviderCalls.UnbuiltCountsAgainstProvider`, `ProviderCalls.RefusalCreditsProvider`). So requests that are never
  sent trip the breaker of a healthy provider (`Unsent.UnservedPathTripsBreaker`) and close one that was waiting for a
  probe (`Unsent.RefusalClosesBreaker`). A client that leaves between attempts is recorded as a failure too; where any
  record comes from is in `ProviderCalls.ResultStemsFrom`.
- A month's spend stays below limit + k * c, where k counts the requests that can still add to the month without being
  stopped (`Budgets.UnstoppableBoundsSpend`). No smaller number will do: from a month that is used up, they add
  at most their number times c (`Budgets.AtMostTheUnstoppable`), and they can add exactly that when their other checks
  have room (`Budgets.AllTheUnstoppable`), as they do under a monthly limit alone (`Budgets.AllOfTheMonthly`).
  Requests in flight since their clock reading cover them (`Budgets.OverspendIsBounded`). Admitted and unmetered requests cover them if no request is checked after the month of
  its clock reading has ended and the limit's check comes last (`Budgets.AdmittedBoundsSpend`). Without the first
  condition they bound nothing, for any scope (`Budgets.AdmittedOnlyBoundsNothing`); nor without the second, as far as
  the check that does come last has room (`Budgets.EarlyCheckBoundsNothing`).
- Without a log, an alert whose e-mail failed is marked as sent (`Alerts.UnloggedFailureIsMarked`).
- An alert is sent once exactly when no look-up starts an alert that is already delivered or that another request is
  about to send (`Alerts.SentOnceExactly`). Requests that look an alert up one at a time, and whose marks do not fail,
  keep to that (`Alerts.OneAtATimeSendsOnce`); two requests at once need not (`Alerts.TwoRequestsSendTwice`), nor two in
  a row when the first one's mark fails (`Alerts.FailedMarkSendsTwice`). From any point of a run, the alert can still be
  delivered twice exactly when alerts are on and it is not marked, or deliveries made and sends under way are two or more
  (`Alerts.CanSendTwiceExactly`).
- A tool result goes back to Gemini under the name of the last call with its id (`GeminiRequest.LastCallNames`). That is
  every call's own function exactly when no call id stands for two functions (`GeminiRequest.LookupIsRightExactly`),
  which the ids that the gateway makes up guarantee (`GeminiRequest.NamesComeBack`). A result whose id no call of the
  conversation has goes back under an empty name (`GeminiRequest.UnknownHasNoName`).

Where the code and its comments differ, the model follows the code:

- internal/breaker/breaker.go:74-76 promises exactly one concurrent probe; a late record of an earlier call allows a
  second one (`CircuitBreaker.StaleRecordAllowsTwoProbes`).
- internal/breaker/breaker.go:19-24 gives zero policy fields a default, which `New` does not apply; the model asks
  for a positive threshold and cooldown, as the application fills them in.
- internal/gateway/alerts.go:58-60 says that an alert is marked only when it was delivered; see above.
- internal/gateway/alerts.go names its function "once"; see above.
- internal/providers/gemini/transform.go replaces a blank model version on the unstreamed path (line 286) and only an
  empty one on the streamed path (line 361).

## Model

| member | source | states |
|---|---|---|
| SseLines.SplitAnywhere | internal/gateway/stream_meter.go:117-145 | cutting a byte stream anywhere changes neither its lines nor its unfinished tail, once the tail is carried over |
| SseLines.LinesInFull | internal/gateway/stream_meter.go:117-145 | nothing is lost: the lines, a newline behind each, and the tail make up the stream |
| SseLines.LinesHaveNoNewline | internal/gateway/stream_meter.go:117-145 | and no line contains a newline |
| SseLines.SplitterTracks | internal/gateway/stream_meter.go:117-145 | after any reads, the buffer is the unfinished line, unless that line has once been seen beyond the cap; the overflow flag says exactly that |
| SseLines.DeliveredExactly | internal/gateway/stream_meter.go:117-145 | for every split into reads, the lines processed are exactly, in order and once each, those that no read left unfinished beyond the cap |
| SseLines.DroppedLinesAreLong | internal/gateway/stream_meter.go:121-141 | only lines longer than the cap are dropped, also between oversized ones |
| SseLines.LongLinesAreDropped | internal/gateway/stream_meter.go:121-141 | with reads of at most K bytes, every line of at least cap + K bytes is dropped |
| SseLines.FittingStreamIsChunkInvariant | internal/gateway/stream_meter.go:117-145 | a stream whose lines and tail fit the cap is split into its lines by every sequence of reads |
| SseLines.BufferIsBounded | internal/gateway/stream_meter.go:117-131 | the buffer holds at most the cap after every read, and cap + K during one of at most K bytes |
| StreamMetering.StreamMeter.Read | internal/gateway/stream_meter.go:70-79 | a read inspects its bytes and, when it failed, finishes: the state is the step function's |
| StreamMetering.StreamMeter.Close | internal/gateway/stream_meter.go:83-86 | a close finishes |
| StreamMetering.StreamMeter.DoFinish | internal/gateway/stream_meter.go:88-113 | the state is that of `Finish`: one report and no second one; what it holds is `ChatStream.CompleteStreamBill` for a stream with usage and `ChatStream.EstimateInFull` for one without |
| StreamMetering.StreamMeter.DoInspect | internal/gateway/stream_meter.go:117-145 | the in-place loop over the buffer drains it as the specification function does |
| StreamMetering.StreamMeter.DoProcessLine | internal/gateway/stream_meter.go:149-193 | a line sets model and usage, adds text length, or finishes, and nothing else changes |
| StreamMetering.LineInFull | internal/gateway/stream_meter.go:149-176 | the bytes `data: `, a payload and any carriage returns count as that payload if it decodes, and end the stream exactly if it is [DONE] |
| StreamMetering.OtherLinesAreIgnored | internal/gateway/stream_meter.go:158-163 | a line that does not start with `data: ` does nothing |
| StreamMetering.InspectIsFeed | internal/gateway/stream_meter.go:117-145 | one run of the loop processes exactly the lines that the batch reading completes, and leaves its tail |
| StreamMetering.OnDoneFiresOnce | internal/gateway/stream_meter.go:70-113 | in every run that ends, whatever comes after the end, `onDone` fires exactly once, with the batch report of the delivered lines before the first [DONE] |
| StreamMetering.OnDoneFiresEarlyOnlyOnDone | internal/gateway/stream_meter.go:149-157 | before the end of the stream `onDone` has fired exactly when a [DONE] line was delivered |
| StreamMetering.ReportIsChunkInvariant | internal/gateway/stream_meter.go:68-145 | two runs over the same bytes, all lines within the cap, report the same, however the bytes were read |
| StreamMetering.LastUsageWins | internal/gateway/stream_meter.go:182-188 | the reported usage is the last one with a positive total, or none |
| StreamMetering.LastModelWins | internal/gateway/stream_meter.go:179-181 | the reported model is the last non-empty one, or the initial one |
| StreamMetering.TextLengthsAdd | internal/gateway/stream_meter.go:189-191 | the text length is additive over the lines in any grouping |
| ChatStream.LinesOfRender | internal/providers/anthropic/transform.go:432-435 | reading back the written bytes gives one data line and one blank line per chunk, and no tail |
| ChatStream.CompleteStreamBill | internal/gateway/stream_meter.go:88-113 | a complete stream whose last usage settles it is reported as that usage with the vision correction, also when other lines are oversized |
| ChatStream.UnsettledStreamBill | internal/gateway/stream_meter.go:96-102 | however its lines and reads fall, a stream without a positive usage is reported as an estimate; its numbers are in `ChatStream.EstimateInFull` |
| ChatStream.EstimateInFull | internal/gateway/stream_meter.go:88-113 | a complete stream without a positive usage, within the cap, is reported with the sum of the text and vision estimates as prompt, a quarter of the length of its texts as completion, their sum as total, no cache counts and its last non-empty model |
| ChatStream.DoMeterResponse | internal/gateway/metering.go:199-235 | the unstreamed record: the response's usage and model, corrected in place for vision and a missing model |
| AnthropicStream.ToOpenAIResponse | internal/providers/anthropic/transform.go:332-395 | the loop over the content blocks yields `CompletionOf`, whose every field is `AnthropicStream.CompletionInFull` and `AnthropicStream.BlockBecomes` |
| AnthropicStream.TranslateAnthropicStream | internal/providers/anthropic/transform.go:414-600 | the scan loop with its maps and counters emits what the event fold emits, for any lines; what that is, is `AnthropicStream.EventAt` and `AnthropicStream.ChunksInFull` |
| AnthropicStream.CompletionInFull | internal/providers/anthropic/transform.go:358-412 | prompt is the input count, completion the output count, each cache count in its place and total the sum of the four; the content is the texts joined, or null beside tool calls; the finish reason of every stop reason |
| AnthropicStream.BlockBecomes | internal/providers/anthropic/transform.go:336-364 | block i is the n-th call, with its own id, name and input, if n earlier blocks are calls; likewise for texts; and there are no others |
| AnthropicStream.EventAt | internal/providers/anthropic/transform.go:444-458 | the data of a line is read as the event that the last event line before it names; another name, or data that does not decode, does nothing |
| AnthropicStream.ChunksInFull | internal/providers/anthropic/transform.go:414-600 | for every sequence of events, well formed or not: what each becomes and where it stands, under the id and counts of the last message start and the last model named, a piece of a call under the number of the tool last started at its index, or 0 |
| AnthropicStream.ToolsAreAssembled | internal/providers/anthropic/transform.go:490-563 | with deltas of different blocks interleaved at will, a client reassembles exactly the started tools, in start order, indices 0..k-1, each with its own JSON pieces |
| AnthropicStream.SameAnswer | internal/providers/anthropic/transform.go:414-600 | the stream gives the finish reason, id, model and the number, ids and names of the tool calls of the unstreamed message; the calls are equal if and only if the JSON pieces of each make up its arguments |
| AnthropicStream.NoPiecesNoArguments | internal/providers/anthropic/transform.go:548-562 | a tool without a JSON piece reaches the client with empty arguments |
| AnthropicStream.TextsAreForwarded | internal/providers/anthropic/transform.go:526-547 | the text deltas, and no other text, are passed on in order |
| AnthropicStream.SameText | internal/providers/anthropic/transform.go:332-395 | when the deltas make up the text blocks, the streamed text is the unstreamed content if and only if there is no tool call and at most one text block |
| AnthropicStream.SameBill | internal/gateway/streaming.go:26-56 | for every message, event stream of it and split into reads, the streamed report equals the unstreamed record if the total is positive; and only if, when no delta's output count exceeds the final one |
| AnthropicStream.BillInFull | internal/gateway/streaming.go:26-56 | with a positive total, the report of the stream holds the message's input count as prompt, its output count as completion and both cache counts; a vision estimate stands in for a prompt of 0, with the total made anew |
| GeminiStream.ToOpenAIResponse | internal/providers/gemini/transform.go:241-300 | the loop over the parts yields `CompletionOf`, whose every field is `GeminiStream.CompletionInFull` and `GeminiStream.PartBecomes` |
| GeminiStream.TranslateGeminiStream | internal/providers/gemini/transform.go:325-442 | the loop over partial responses emits what the fold emits, then [DONE]; its calls and texts, part by part, are `GeminiStream.PartIsStreamed` |
| GeminiStream.DoEmitParts | internal/providers/gemini/transform.go:384-416 | one candidate's parts are emitted in order, tool calls numbered on from the count so far, each piece with its part's name and arguments (`GeminiStream.PartIsStreamed`) |
| GeminiStream.CompletionInFull | internal/providers/gemini/transform.go:241-313 | usage counts, id and model with their defaults, content, and the finish reason of every source value in any case |
| GeminiStream.PartBecomes | internal/providers/gemini/transform.go:249-270 | part i is the n-th call, with id call_ and its name, its name and its arguments, if n earlier parts are calls; likewise for texts that are not blank |
| GeminiStream.PartIsStreamed | internal/providers/gemini/transform.go:384-416 | the same for what a client assembles and reads from the stream, however the parts are spread |
| GeminiStream.PiecesAreFunctions | internal/providers/gemini/transform.go:384-416 | all streamed pieces of calls have the type function |
| GeminiStream.ReasonInFull | internal/providers/gemini/transform.go:302-313 | MAX_TOKENS gives length, the five filter reasons give content_filter, everything else stop, upper case or not |
| GeminiStream.SameAnswer | internal/providers/gemini/transform.go:325-442 | however the parts are spread over partials, the chunks give the unstreamed tool calls, with the arguments that `GeminiStream.PartIsStreamed` names, finish reason and texts; the role comes once and first, [DONE] once and last |
| GeminiStream.SameText | internal/providers/gemini/transform.go:241-300 | the streamed text is the unstreamed content if and only if there is no tool call and at most one text that is not blank |
| GeminiStream.SameBill | internal/gateway/streaming.go:26-56 | the streamed report equals the unstreamed record if and only if the total is positive and both paths default the model alike |
| GeminiStream.BillInFull | internal/gateway/streaming.go:26-56 | with a positive total, the report of the stream in fields of the response: every count in its place, with the vision correction |
| CircuitBreaker.SharedBreaker.DoAllow | internal/breaker/breaker.go:79-106 | verdict and new state of one call are those of the transition function |
| CircuitBreaker.SharedBreaker.DoRecordSuccess | internal/breaker/breaker.go:110-119 | the same for a success; that it starts the count of failures anew is `CircuitBreaker.ClosedExactly` |
| CircuitBreaker.SharedBreaker.DoRecordFailure | internal/breaker/breaker.go:127-152 | the same for a failure of a category |
| CircuitBreaker.SharedBreaker.IsRelevant | internal/breaker/breaker.go:179-186 | the search finds a category exactly when the policy lists it |
| CircuitBreaker.ClosedExactly | internal/breaker/breaker.go:110-152 | in every interleaving the breaker is closed if and only if fewer than threshold counted failures were recorded since the last success, and then its counter is their number |
| CircuitBreaker.AdmitsExactly | internal/breaker/breaker.go:79-106 | it admits a call exactly then, or when it is open and the cooldown since it opened has passed, which makes it half-open; while half-open it admits none |
| CircuitBreaker.DisabledAdmits | internal/breaker/breaker.go:79-135 | a disabled breaker admits every call and records nothing |
| CircuitBreaker.AlwaysConsistent | internal/breaker/breaker.go:79-152 | in every reachable state half-open holds exactly with the probe slot taken, and closed exactly below the threshold |
| CircuitBreaker.SlotAlwaysHeld | internal/breaker/breaker.go:92-150 | when all reported failures count, the call that took the half-open slot is still in flight |
| CircuitBreaker.IdleBreakerRecovers | internal/breaker/breaker.go:87-102 | then, with no call in flight, waiting out the cooldown lets the next call in |
| CircuitBreaker.AdmissionsAreSpaced | internal/breaker/breaker.go:87-150 | from an open breaker without successes, admissions are a cooldown apart, the first one a cooldown after the trip |
| CircuitBreaker.RateBound | internal/breaker/breaker.go:87-150 | so at most floor(T/C) calls are admitted in the T after a trip, in every interleaving |
| CircuitBreaker.NeverWedgesExactly | internal/breaker/breaker.go:121-138 | half-open always has an owner if and only if the reported categories are all counted or all ignored |
| CircuitBreaker.IgnoredFailureWedges | internal/breaker/breaker.go:131-133 | a run after which the breaker admits no call at any time, with none in flight |
| CircuitBreaker.AtMostOneProbe | internal/breaker/breaker.go:97-102 | without a counted record of another call while half-open, at most one probe is in flight |
| CircuitBreaker.StaleRecordAllowsTwoProbes | internal/breaker/breaker.go:110-150 | any run with one such record goes on to two probes in flight |
| Retry.CallWithRetry | internal/gateway/retry.go:97-217 | result and trace of calls, closes and waits are those of the step function over the script |
| Retry.DelayRange | internal/gateway/retry.go:127-143 | a Retry-After delay is kept unless it exceeds three times MaxBackoff, and no delay exceeds that |
| Retry.IdealInFull | internal/gateway/retry.go:50-54 | before jitter, attempt n waits 2^n times the first backoff, or MaxBackoff if that is less |
| Retry.JitterInFull | internal/gateway/retry.go:55-60 | the jitter is the random part itself, up to a tenth of the delay either way |
| Retry.DelayInFull | internal/gateway/retry.go:73-143 | what is waited after an attempt: for each form of Retry-After on a 429, and the backoff otherwise |
| Retry.RetriesInFull | internal/gateway/retry.go:109-200 | which replies are retried under which flags, and how a final timeout is wrapped |
| Retry.WaitsInFull | internal/gateway/retry.go:127-200 | the loop waits exactly those delays, one after each attempt but the last, and after that too if the client leaves then |
| Retry.CallsAndResult | internal/gateway/retry.go:113-216 | attempts 0, 1, ... up to the first reply not to be retried or the last allowed; without cancellation the result is exactly that reply, a timeout wrapped |
| Retry.NoCallExactly | internal/gateway/retry.go:114-118 | no call is made if and only if the context is cancelled before the first attempt, and the result is then the cancellation |
| Retry.BodiesAreClosed | internal/gateway/retry.go:122-166 | every retried response is closed exactly once before the next call or wait; at the end only the returned one is open |
| Retry.WaitingIsBounded | internal/gateway/retry.go:127-200 | total waiting is at most (attempts - 1) times three times MaxBackoff |
| ProviderCalls.UnavailableIsRetryable | internal/gateway/provider.go:334-380 | every error classified as an unavailable provider, and every upstream 5xx, goes to the fallback |
| ProviderCalls.CategoryCounts | internal/gateway/provider.go:104-125 | the classifier yields only categories that the default breaker policy counts |
| ProviderCalls.CategoryInFull | internal/gateway/provider.go:104-125 | which errors are an unavailable provider: timeouts, and network errors that mention no upstream 5xx; all others are upstream failures |
| ProviderCalls.RetryableInFull | internal/gateway/provider.go:334-380 | an error is worth a fallback if and only if it is a network error or its text, in lower case, has one of the twelve phrases |
| ProviderCalls.StatusInFull | internal/providers/provider.go:45-58 | the category of every status |
| ProviderCalls.LowerInFull | internal/gateway/provider.go:350 | lower case as `strings.ToLower` has it, as far as it gives an ASCII letter |
| ProviderCalls.OwnErrorsInFull | internal/gateway/provider.go:19-30 | the texts of the gateway's own errors, none of which counts as a network error by its type |
| ProviderCalls.DigitsInFull | internal/gateway/provider.go:28-30 | the status in such a text, read as a decimal number, is the status |
| ProviderCalls.AdapterDo | internal/providers/anthropic/client.go:73-138 | what the `Do` of each family does with a request before its HTTP client has it: hand it over, answer 501 or 400 itself, or fail |
| ProviderCalls.HandlingInFull | internal/providers/anthropic/client.go:73-138 | exactly which requests an adapter answers with 501 or with 400, and which fail |
| ProviderCalls.DoCall | internal/gateway/provider.go:250-325 | one run of the closure makes at most one upstream call, a run of the provider's adapter, noted once with the outcome its reply implies; what reply and outcome are for each status is `ProviderCalls.AnswerInFull` |
| ProviderCalls.AnswerInFull | internal/gateway/provider.go:264-325 | for a request handed over: below 400 the answer, noted as a success; from 400 to 499 the answer, noted with its category; from 500 on an upstream_5xx error, noted as an upstream failure; an unreadable body is an error |
| ProviderCalls.NoAnswerInFull | internal/gateway/provider.go:264-276 | an exchange that fails is an error, noted as an unavailable provider |
| ProviderCalls.ServerErrorCounts | internal/gateway/provider.go:201-246 | a 5xx at the last attempt of an admitted call is recorded as a failure that counts |
| ProviderCalls.ServerErrorFallsBack | internal/gateway/provider.go:134-142 | and sends the request to the fallback, if another provider is configured |
| ProviderCalls.CallSingleProvider | internal/gateway/provider.go:248-326 | the effects are those of the retry loop's calls, in order |
| ProviderCalls.CallThroughBreaker | internal/gateway/provider.go:201-246 | asks, calls and records in this order, or stops at a rejection |
| ProviderCalls.CallProviderWithFallback | internal/gateway/provider.go:134-197 | outcome, reported provider and model, and the whole trace of both calls |
| ProviderCalls.NoFallback | internal/gateway/provider.go:134-142 | a success, an error not worth it, or no other provider as fallback: outcome and trace are those of the one call |
| ProviderCalls.FallbackInFull | internal/gateway/provider.go:144-197 | otherwise those of the call to the fallback behind it, with the compatible model written into the body if there is another one, or the error of writing it |
| ProviderCalls.DefaultIsOneAttempt | internal/gateway/provider.go:127-132 | a provider without a retry policy of its own gets a single attempt |
| ProviderCalls.RequestObeysRules | internal/gateway/provider.go:201-325 | in the trace of every request each upstream call is followed by its one health outcome, each admission by its one record, a rejection by neither |
| ProviderCalls.RulesBalance | internal/gateway/provider.go:201-325 | obeying those rules means equal counts of calls and outcomes, and of admissions and records |
| ProviderCalls.RequestCounts | internal/gateway/provider.go:134-325 | at most max(1, attempts) upstream calls to each provider, no more of them sent, none to any but the primary and the fallback, with equal counts of outcomes and records |
| ProviderCalls.AnswerIsReportedHonestly | internal/gateway/provider.go:134-197 | a success is reported under the provider of the last upstream call and the model that this call's body asked for |
| ProviderCalls.GatewayErrorsAreRetryable | internal/gateway/provider.go:350-376 | the texts of the gateway's own errors are all recognised as worth a fallback, whatever the provider's name |
| ProviderCalls.RejectionFallsBack | internal/gateway/provider.go:140-196 | a request that the breaker rejects makes no call to its provider, and the fallback's result is its result |
| ProviderCalls.BlamedForNothingExactly | internal/gateway/provider.go:201-325 | an admitted call that is never sent records a failure, one that the default policy counts, if and only if the first attempt is cancelled, the provider is not registered, its adapter does not serve the path, or the upstream request cannot be built; it records a success if and only if the adapter refuses it; in all other cases something was sent |
| ProviderCalls.CancellationCountsAgainstProvider | internal/gateway/retry.go:114-118 | a call cancelled before its first attempt sends nothing and still records a counted failure |
| ProviderCalls.UnregisteredCountsAgainstProvider | internal/gateway/provider.go:250-262 | a call to a provider that the registry does not hold, the client still there and its error not retried, sends nothing and records a counted failure |
| ProviderCalls.UnservedPathCountsAgainstProvider | internal/providers/anthropic/client.go:78-90 | a path that the adapter does not serve is answered with its own 501, and the breaker records a counted failure |
| ProviderCalls.UnbuiltCountsAgainstProvider | internal/providers/openai/client.go:75-78 | so does an upstream request that cannot be built |
| ProviderCalls.RefusalCreditsProvider | internal/providers/anthropic/client.go:101-127 | the adapter's own 400 is noted as a failure of the provider and recorded as a success |
| ProviderCalls.ResultStemsFrom | internal/gateway/retry.go:113-216 | a call's result, and its record, comes from the client's going away, or else from the last attempt: its exchange with the provider if it was sent, the adapter's own 400, or a failure without a contact |
| ProviderCalls.RecordedFailuresCount | internal/gateway/provider.go:218-223 | every failure that a request records counts under the default policy |
| Interleaving.IsLegal | internal/gateway/provider.go:201-246 | every interleaving of whole requests drives a provider's breaker through a legal run whose calls in flight are exactly the requests on a call |
| Interleaving.HalfOpenHasAnOwner | internal/gateway/provider.go:201-246 | in every interleaving, a half-open breaker has an owner that has not recorded its outcome yet |
| Interleaving.QuietGatewayRecovers | internal/breaker/breaker.go:87-102 | once all requests are done, the cooldown alone lets the next one in |
| CallRate.AdmittedAfterTrip | internal/breaker/breaker.go:87-150 | in every interleaving of whole requests without a success, at most floor(T/C) requests are admitted to a provider in the T after a trip |
| CallRate.CallsAfterTrip | internal/gateway/provider.go:201-326 | these make at most floor(T/C) * max(1, attempts) upstream calls to it; only requests already on a call at the trip add to them, each within its attempts |
| Unsent.UnservedPathTripsBreaker | internal/gateway/provider.go:201-246 | as many requests as the threshold for a path that is not served trip the breaker, in a log without any call that was sent |
| Unsent.RefusalClosesBreaker | internal/gateway/provider.go:201-246 | from any reachable point where the breaker admits, half-open or not, a refused request closes it without a call that was sent |
| Conversation.CheckAllResults | internal/providers/anthropic/transform.go:167-177 | the loop decides whether a non-empty list holds only tool results |
| Conversation.MapAllInFull | internal/providers/anthropic/transform.go:245-267 | each element converted in its place, or an error if any fails |
| Conversation.PartsInFull | internal/providers/anthropic/transform.go:245-267 | which contents can be read as parts, and as which |
| Conversation.CoalescingIsBatch | internal/providers/anthropic/transform.go:115-131 | extending turns in place equals dropping skipped messages and merging each maximal run of tool results |
| Conversation.OrderIsKept | internal/providers/anthropic/transform.go:61-136 | no block is lost, added or moved |
| Conversation.ResultsAreMerged | internal/providers/gemini/transform.go:108-116 | no two adjacent turns hold only tool results |
| AnthropicRequest.UserContentToBlocks | internal/providers/anthropic/transform.go:245-267 | all parts converted in order, or the first error |
| AnthropicRequest.AssistantToBlocks | internal/providers/anthropic/transform.go:75-90 | text, if any, then one block per call in order |
| AnthropicRequest.AddMessage | internal/providers/anthropic/transform.go:61-136 | one message's effect on system text and turns, or its error |
| AnthropicRequest.UserInFull | internal/providers/anthropic/transform.go:105-113 | a user's message is a user's turn, part by part; an empty one has an empty text; it is refused exactly for unreadable parts or images |
| AnthropicRequest.CallsInFull | internal/providers/anthropic/transform.go:74-90 | an assistant's call j is a tool_use block in its place with its own id, name and arguments |
| AnthropicRequest.OthersInFull | internal/providers/anthropic/transform.go:61-136 | tool results under their own ids, assistant texts unless blank, system messages skipped, other roles refused |
| AnthropicRequest.TextInFull | internal/providers/anthropic/transform.go:306-330 | the text of every form of content |
| AnthropicRequest.ToAnthropicRequest | internal/providers/anthropic/transform.go:21-140 | the whole loop, with every error case in the order of the messages |
| AnthropicRequest.AcceptedRequest | internal/providers/anthropic/transform.go:61-140 | an accepted request has the batch form's turns, all blocks in order, exactly one result block per tool message, and no two adjacent result-only turns |
| AnthropicRequest.SystemIsJoined | internal/providers/anthropic/transform.go:63-72 | the accumulated system text is the non-empty texts joined with blank lines |
| AnthropicRequest.SystemInFull | internal/providers/anthropic/transform.go:63-72 | each system message with a text stands in its place among the texts joined |
| AnthropicRequest.RefusedInFull | internal/providers/anthropic/transform.go:21-140 | the error of a refused request: a missing model, no messages, the first bad message, or nothing left to send |
| GeminiRequest.CollectNames | internal/providers/gemini/transform.go:36-42 | the nested loops build the lookup in which a later call replaces an earlier one |
| GeminiRequest.UserContentToParts | internal/providers/gemini/transform.go:444-465 | all parts but blank texts, in order, or the first error |
| GeminiRequest.AssistantToParts | internal/providers/gemini/transform.go:69-84 | text unless blank, then one part per call in order |
| GeminiRequest.AddMessage | internal/providers/gemini/transform.go:47-121 | one message's effect on system texts and contents, or its error |
| GeminiRequest.UserInFull | internal/providers/gemini/transform.go:58-66 | a user's message is a user's turn of the parts that stay, each in its place |
| GeminiRequest.UserRefused | internal/providers/gemini/transform.go:444-465 | and it is refused exactly for content that is not parts or an image that cannot be read |
| GeminiRequest.CallsInFull | internal/providers/gemini/transform.go:69-84 | an assistant's call j is a function call in its place with its own name and arguments |
| GeminiRequest.OthersInFull | internal/providers/gemini/transform.go:47-121 | tool results under the name looked up for their ids, assistant texts unless blank, system messages skipped, other roles refused |
| GeminiRequest.TextInFull | internal/providers/gemini/transform.go:515-545 | the text of every form of content |
| GeminiRequest.SystemInFull | internal/providers/gemini/transform.go:49-57 | each system message with a text stands in its place in the instruction |
| GeminiRequest.NoInstruction | internal/providers/gemini/transform.go:49-57 | without a system text there is no instruction |
| GeminiRequest.RefusedInFull | internal/providers/gemini/transform.go:28-135 | the error of a refused request |
| GeminiRequest.ToGeminiRequest | internal/providers/gemini/transform.go:28-135 | the whole loop, with every error case in the order of the messages |
| GeminiRequest.AcceptedRequest | internal/providers/gemini/transform.go:47-125 | an accepted request has the batch form's contents, all parts in order, exactly one response per tool message, and no two adjacent response-only contents |
| GeminiRequest.LookupIsRightExactly | internal/providers/gemini/transform.go:36-42 | every call finds its own name if and only if no id stands for two names |
| GeminiRequest.LastCallNames | internal/providers/gemini/transform.go:99-107 | a tool message goes back under the name of the last call with its id |
| GeminiRequest.UnknownHasNoName | internal/providers/gemini/transform.go:99-107 | and under an empty name if no call has its id |
| GeminiRequest.NamesComeBack | internal/providers/gemini/transform.go:99-116 | for calls that came from a Gemini response, every tool message's function response names the function called, in any order and with repeated names |
| CacheModel.HitIsLatestAndFresh | internal/cache/memory.go:24-51 | under every interleaving a hit returns the latest value set for its key at that point, not expired when the `Get` began |
| CacheModel.NeverOverfull | internal/cache/memory.go:53-76 | the cache never holds more than maxKeys entries |
| CacheModel.GetKeepsLiveEntries | internal/cache/memory.go:35-48 | a `Get` deletes only an entry of its own key that had expired before the `Get` began |
| CacheModel.SetEvictsOneFromFull | internal/cache/memory.go:53-76 | a `Set` loses at most one live entry, and only from a full cache without expired ones |
| CacheModel.RemembersBelowCapacity | internal/cache/memory.go:53-76 | while fewer keys than the capacity were ever set, every unexpired latest value is present |
| CacheModel.MissIsHonest | internal/cache/memory.go:31-47 | then a miss means never set, or expired by now |
| CacheModel.GetInFull | internal/cache/memory.go:24-51 | each section of a `Get`, in the times of the entry and the call: hit, miss, or on to the write lock, and what is deleted there |
| CacheModel.SetInFull | internal/cache/memory.go:53-76 | which keys a `Set` leaves: all, the live ones, or all but the victim |
| CacheModel.SetIsPossible | internal/cache/memory.go:67-72 | there is always a victim to take |
| CacheMemory.CloneEntry | internal/cache/memory.go:78-93 | the copy has the same contents in entirely new storage |
| CacheMemory.Memory.Get | internal/cache/memory.go:24-51 | a hit's contents are the section's result and its storage is fresh |
| CacheMemory.Memory.GetRecheck | internal/cache/memory.go:35-48 | the second section under the write lock, likewise |
| CacheMemory.Memory.Set | internal/cache/memory.go:53-76 | the new map is that of the value-level `Set`, with storage that no caller shares |
| CacheMemory.Memory.DoSweep | internal/cache/memory.go:60-66 | deleting while iterating removes exactly the expired entries |
| Health.Ring.Add | internal/health/tracker.go:42-48 | the ring's contents become the last N of the old contents and the new outcome |
| Health.Ring.Entries | internal/health/tracker.go:51-62 | the modular indices give exactly the contents, oldest first |
| Health.WindowStep | internal/health/tracker.go:42-48 | the last N of a history can be kept up from the last N alone |
| Health.SlotFrom | internal/health/tracker.go:57-60 | the index arithmetic of `entries` names the slot of the i-th oldest entry |
| Health.BuildSnapshot | internal/health/tracker.go:133-170 | the accumulating loop yields counts, averages and newest timestamps of the entries |
| Health.SnapshotInFull | internal/health/tracker.go:133-170 | successes and failures are the numbers of the entries of either kind |
| Health.RateInFull | internal/health/tracker.go:164-166 | the success rate is successes by entries, -1 without entries |
| Health.LatencyInFull | internal/health/tracker.go:166-168 | the latency is the average over the successes alone, in whole milliseconds each |
| Health.MillisecondsInFull | internal/health/tracker.go:148-152 | whole milliseconds, cut toward zero |
| Health.LastNInFull | internal/health/tracker.go:42-48 | the window is the last n outcomes, in order |
| Health.CountsAddUp | internal/health/tracker.go:148-163 | successes and failures add up to the total |
| Health.NewestIsNewest | internal/health/tracker.go:156-162 | the last error is the category of the failure with the newest timestamp, the earliest one of equals |
| Health.NoFailureNoError | internal/health/tracker.go:156-162 | without failures there is no last error |
| Health.Tracker.Record | internal/health/tracker.go:85-94 | an outcome joins its provider's history and no other |
| Health.Tracker.TakeSnapshot | internal/health/tracker.go:98-108 | the snapshot is that of the provider's last windowSize outcomes |
| Budgets.CheckRequestBudget | internal/budget/service.go:133-206 | the verdict is that of the first check in order that does not pass |
| Budgets.AdmittedExactly | internal/budget/service.go:133-206 | a request is admitted if and only if every limit that applies to it could be read and is not reached |
| Budgets.VerdictInFull | internal/budget/service.go:133-206 | with all spends readable: the first reached limit in the order global, team, project, agent, each from its own table |
| Budgets.ReadsInFull | internal/budget/service.go:148-203 | a spend that cannot be read fails the request exactly if its limit is configured and the ones before have passed |
| Budgets.EnforcedInFull | internal/budget/service.go:148-203 | which limits can reject |
| Budgets.MonthlyInFull | internal/budget/service.go:76-97 | the alert states: from 80, 90 and 100 percent of the limit on |
| Budgets.SpendInFull | internal/budget/service.go:61-74 | a record counts for its own month and its own team, project and agent |
| Budgets.EnforcedIsChecked | internal/budget/service.go:148-203 | an enforced limit is checked for exactly the requests whose spend it counts |
| Budgets.UnstoppableBoundsSpend | internal/gateway/proxy.go:179-286 | with a cost of at most c each and never more than k requests that can still add to a month without being stopped, its spend stays below limit + k * c, in every interleaving, across month ends and late records |
| Budgets.OverspendIsBounded | internal/gateway/proxy.go:179-286 | the same with k the scope's requests in flight since their clock reading |
| Budgets.AdmittedBoundsSpend | internal/gateway/proxy.go:180-208 | the same with k the admitted and unmetered requests of the scope, if no request is checked after the month of its clock reading and the scope's check comes last |
| Budgets.ComesLastExactly | internal/budget/service.go:148-203 | a scope comes last if and only if it is the last check of every request that its spend counts |
| Budgets.AgentsComeLast | internal/budget/service.go:190-203 | an agent's check is always the last |
| Budgets.GlobalComesLast | internal/budget/service.go:148-158 | with no team, project or agent limit configured, the monthly check is the last one |
| Budgets.AtMostTheUnstoppable | internal/gateway/proxy.go:179-286 | from a month that is used up, u unstoppable requests add at most u * c to it in every continuation |
| Budgets.AllTheUnstoppable | internal/gateway/proxy.go:179-286 | for any scope, if the checks that its unstoppable requests have still to pass have room for all of them, some continuation adds exactly u * c |
| Budgets.AllOfTheMonthly | internal/gateway/proxy.go:179-286 | with the monthly limit alone that holds from any reachable point |
| Budgets.AdmittedOnlyBoundsNothing | internal/gateway/proxy.go:180-208 | with checks after the month of the clock reading and never more than one admitted and unmetered request, a month's spend in any scope still reaches n * c for every n |
| Budgets.EarlyCheckBoundsNothing | internal/budget/service.go:148-203 | so it does within one month, with no late check, for any scope that is not a request's last check, for every n that the last limit has room for |
| Alerts.AlertDesk.SendBudgetAlertEmail | internal/gateway/alerts.go:116-151 | what is delivered, and when an error is returned |
| Alerts.AlertDesk.EmitMonthlyBudgetAlertOnce | internal/gateway/alerts.go:11-76 | what one alert delivers and marks under every combination of faults |
| Alerts.AlertDesk.EmitAgentBudgetAlertOnce | internal/gateway/alerts.go:78-114 | what an agent alert marks under every combination of faults; it delivers nothing |
| Alerts.AlertDesk.CheckBudget | internal/gateway/proxy.go:179-286 | the alerts of one request, the agent's included, and its verdict, in the source's order |
| Alerts.AlertsAreExact | internal/gateway/proxy.go:192-210 | one request after another without faults, the thresholds marked in a month are exactly those reached by the spend seen in it, each delivered exactly once |
| Alerts.AgentAlertsAreExact | internal/gateway/alerts.go:78-114 | the agent alerts marked are exactly those of requests that an agent's limit rejected |
| Alerts.RejectedGlobally | internal/budget/service.go:148-158 | the 100% alert hangs on exactly the requests that see the monthly limit reached |
| Alerts.EmitIsThreeSteps | internal/gateway/alerts.go:23-75 | one alert alone is the look-up, the sending and the marking in a row |
| Alerts.LoggedSendsAreHonest | internal/gateway/alerts.go:61-75 | with a log, under every interleaving and all faults, what is marked was delivered |
| Alerts.MarksOnlyDeliveredExactly | internal/gateway/alerts.go:61-75 | that holds if and only if a log is configured or alerts are off |
| Alerts.UnloggedFailureIsMarked | internal/gateway/alerts.go:132-150 | without a log, a failed delivery ends up marked |
| Alerts.SentOnceExactly | internal/gateway/alerts.go:11-76 | in every legal run, no alert is delivered twice by the run or by the sends under way at any point of it, if and only if no look-up starts an alert already delivered or about to be sent by another request |
| Alerts.RiskSendsTwice | internal/gateway/alerts.go:23-69 | after any such look-up in any run, letting the sends under way succeed delivers the alert twice |
| Alerts.OneAtATimeSendsOnce | internal/gateway/alerts.go:23-75 | if no look-up starts an alert that is pending and no mark fails, every alert is delivered at most once |
| Alerts.TwoRequestsSendTwice | internal/gateway/alerts.go:23-69 | two requests at once deliver the same alert twice, without any fault |
| Alerts.FailedMarkSendsTwice | internal/gateway/alerts.go:69-75 | from any point of a run, a failed mark of a delivered alert lets the next request deliver it again |
| Alerts.CanSendTwiceExactly | internal/gateway/alerts.go:23-75 | from any point of any run, it can go on to deliver an alert twice if and only if alerts are on and the alert is not marked, or deliveries and sends under way are two or more |
| Alerts.MarkedIsFinal | internal/gateway/alerts.go:34-36 | once an alert is marked, deliveries and sends under way together never grow, whatever fails |
| Alerts.PendingPairNeedNotSend | internal/gateway/alerts.go:61-75 | a run with two alerts of one key under way that no continuation delivers even once |
| Vision.OpenAIResize | internal/providers/openaiformat/vision.go:188-216 | the updates of w and h are the two scaling steps |
| Vision.ScaledInFull | internal/providers/openaiformat/vision.go:165-216 | what a wide image is scaled to by either provider's rules |
| Vision.ScaleInFull | internal/providers/openaiformat/vision.go:165-216 | a scaled side is the exact one rounded down |
| Vision.TilesInFull | internal/providers/openaiformat/vision.go:158-183 | a side in tiles of 512, rounded up |
| Vision.UnscaledInFull | internal/providers/openaiformat/vision.go:69-97 | the tokens of an image that needs no scaling: 765 a tile and 65, or 170 a tile and 85, 85 for low detail |
| Vision.SumInFull | internal/providers/openaiformat/vision.go:69-97 | images are counted one by one |
| Vision.AnthropicFits | internal/providers/openaiformat/vision.go:167-175 | the result fits, with the longer side at the bound if it was beyond, and no side lost up to a ratio of 1568 |
| Vision.ResizesAreIdempotent | internal/providers/openaiformat/vision.go:165-216 | resizing twice is resizing once, for both |
| Vision.ResizesFlip | internal/providers/openaiformat/vision.go:165-216 | turning the image turns the result, for both |
| Vision.AnthropicTokensRange | internal/providers/openaiformat/vision.go:158-163 | 65 to 12305 tokens, turned or not, at least 830 if and only if the long side is at most 1568 times the short one |
| Vision.OpenAITokensRange | internal/providers/openaiformat/vision.go:178-183 | 85 to 1445 tokens, turned or not, at least 255 if and only if the long side is at most 2048 times the short one |
| Vision.RangesAreTight | internal/providers/openaiformat/vision.go:158-183 | both ends of both ranges occur |
| Vision.AnthropicImageTokens | internal/providers/openaiformat/vision.go:69-76 | the sum over the images |
| Vision.OpenAIImageTokens | internal/providers/openaiformat/vision.go:86-97 | the sum over the images, low detail at a flat price |
| Vision.EstimateVisionTokens | internal/gateway/metering.go:74-87 | the sum for the provider's family |
| Vision.EstimateRange | internal/gateway/metering.go:212-218 | the estimate is positive, and so able to correct a bill, exactly for requests with images to the two families, and bounded per image |

## Left out

- ProviderCalls.AdapterDo: does not decode the body; whether it can be translated and the upstream request built is a parameter of the attempt, and an error from building is taken to be neither a timeout nor to mention an upstream 5xx.
- ProviderCalls.BlamedForNothingExactly: takes what the HTTP client is handed as sent; a refused connection, or a client that leaves while it is under way, is one of the answers from outside.
- ProviderCalls.CallSingleProvider: does not model a response without a body; Go's HTTP client always sets one.
- ProviderCalls.CallThroughBreaker: does not model a panic between admission and record, which would keep the slot.
- Retry.WaitingIsBounded: does not model float rounding, the int64 overflow of `exponentialBackoff` or NaN and infinity in Retry-After; delays are reals and the random part is any amount in its range.
- StreamMetering.StreamMeter.Close: does not model a close in the middle of a read; events are atomic.
- AnthropicStream.SameText: takes the text deltas to make up the text blocks without saying which delta belongs to which block, since the source does not look.
- GeminiStream.SameAnswer: does not compare ids; the id of a stream is made up by the gateway.
- CacheModel.SetEvictsOneFromFull: does not exempt a key that is already present, because `Set` makes room before it looks.
- Budgets.OverspendIsBounded: does not model a record that the store loses; a request's cost is one record.
- Alerts.SentOnceExactly: does not model a send or a mark that takes effect and reports an error all the same.
- `bufio.Scanner`'s own limit of 1 MiB a line in the translators; input lines are taken to fit.
- JSON, multipart, base64 and time formatting, and reading the size from a PNG header: parameters or an abstract encoding.
- Image URLs: what the adapters make of one, and Gemini's download of it, is a parameter.
- Sampling parameters, stop sequences, tool schemas and tool_choice of a request: direct copies.
- `created`, `object` and time-stamped ids of responses: constants or parameters.
- The rest of the proxy (routing hints, cache keys, storing a response): plumbing around the parts modelled here. A fallback's response is cached under the primary's key.
- Router selection, price tables, model-name normalisation and cost per token: flat lookups.
- Audio, speech and embeddings proxies: they add no harder logic than chat.
- HTTP, SMTP, Postgres and file stores, logging, configuration, admin endpoints, reports: I/O and wiring.
- `Snapshots` and its sort in the health tracker, and the statistics getters of the breaker: they only read.
