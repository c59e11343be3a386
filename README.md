# LLM request scheduling and stream shaping, in Dafny

This project models the core of a Nuxt server that fronts several LLM
providers. It covers:

- **`AiRequestQueueService`**: the scheduler every model call goes through.
  It keeps a FIFO queue with a concurrency limit. Queued requests can be
  cancelled and replaced by key. Calls are paced by an interval that
  follows the time of day in UTC+8 and the activity level. The service
  also supports `setConcurrency`, `updateIntervalSettings`,
  `getQueueStatus` and `destroy`.
- **`LlmClient`**: the chat-completions URL builder, and the line-framed
  server-sent-events parser of `streamChatCompletion`.
- **`AiService`**: `performDirectStreamModel` folds the parser's chunks into
  a running response and notifies the caller. `performDirectCallModel`
  reads the first choice of a reply.
- **`GeminiClient`**: how it shapes requests and responses. Chat messages
  become Gemini `contents`. Candidate parts are split into answer text and
  thought text, and candidates become choices.
- **The chat endpoint's Gemini stream handler**: it scans the growing
  buffer for balanced `{...}` objects by counting braces. For each
  candidate it builds an OpenAI-style delta, taking the reasoning from one
  of three sources by precedence. It honours the `reasoning_to_content`
  flag.
- **The chat endpoint's DeepSeek transform**: it rewrites each
  `data:` line, moving `reasoning_content` into `content`.

## How it is modelled

- **Values.** Decoded JSON is the datatype `Json.Value`. The module also
  models JavaScript's optional chaining, truthiness, `typeof` and
  `for ... of`. `JSON.parse` is a parameter returning an `Option` (`None`
  where it throws), and `JSON.stringify` is a plain function parameter.
  Strings are `seq<char>`, so a character is a Unicode scalar value,
  where JavaScript counts UTF-16 code units. Only `slice(0, 50)` in the
  queue status depends on the difference (see `QueueModel.Snippet` under
  Left out). The other operations cut or compare at `\n`, `{`, `}`,
  `data:`, `[DONE]` or whitespace, all single UTF-16 code units, so they
  give the same strings either way. `trim`, `startsWith`, `indexOf` and
  `toLowerCase` are written out in module `Text`.
- **The scheduler** (`QueueModel`) is a pure state machine. Its state is
  the queue, the requests awaiting their provider, the `activeProcessors`
  counter, the limit, and a log of every `resolve`/`reject`. The class
  `RequestQueue.AiRequestQueueService` holds the same state in fields that
  its methods update in place. Each method is proved to move the state
  exactly as the matching `QueueModel` function does, and to keep the
  invariant `Valid()`. The invariant says four things:
  - the counter equals the number of executing requests;
  - the limit is at least 1;
  - at most one queued request carries a given non-empty key;
  - every submitted request is in exactly one of queued, executing and
    settled.

  `activeProcessors <= concurrencyLimit` is not part of `Valid()`:
  `setConcurrency` may lower the limit below the number of running
  requests, and the counter then stays above the limit until enough of
  them finish. Instead, submission, admission and completion are each
  proved to keep the counter within the limit when it was within the
  limit before.
- **Completion.** A provider call finishing is an explicit event,
  `CompleteRequest`. An abort signal firing is the event `Abort`.
- **Streams.** Every stream reader takes the response body as a sequence
  of decoded fragments. Each one is proved equal to a specification
  function of the whole text. For the OpenAI parser and the DeepSeek
  transform, that function is applied to the concatenated text, so their
  output does not depend on how the network split it. For the Gemini
  scanner, the output does depend on the split (see Findings), and the
  specification `Reads` follows the reads one by one.

## Model

| member | source | states |
|---|---|---|
| QueueModel.DispatchMoves | server/utils/llm.ts:350-357 | one admission step takes the head of the queue: it either starts executing (counter +1, recorded as started) or is rejected at once; limit and identities are unchanged |
| QueueModel.AdmitSpec | server/utils/llm.ts:349-358 | admission is FIFO: it removes a prefix of the queue, the requests of that prefix that can start are appended to the executing ones in order, the others are rejected in order, and the counter grows by the number started |
| QueueModel.AdmitExit | server/utils/llm.ts:350 | when admission stops the queue is empty or the counter has reached the limit, and the counter never rises above the larger of its old value and the limit |
| QueueModel.AdmitRespectsLimit | server/utils/llm.ts:350-351 | if the counter was within the limit, admission keeps it within the limit |
| QueueModel.DispatchTrace | server/utils/llm.ts:351-356 | one loop iteration logs the head's ticket as dispatched, and at most a pacing wait besides |
| QueueModel.AdmitDispatchOrder | server/utils/llm.ts:349-358 | the tickets admission dispatches are those of the requests it removed from the head, first to last |
| QueueModel.AbortedNeverStarts | server/utils/llm.ts:364-365 | a request whose signal has already fired is rejected with an `AbortError` "Request aborted before start", is never handed to a provider, and gives its slot straight back |
| QueueModel.FindKey | server/utils/llm.ts:335 | `findIndex`: the first queued request with the key, or -1 when none has it |
| QueueModel.EvictSpec | server/utils/llm.ts:333-340 | with a truthy key, at most one queued request is removed, exactly that one is rejected with "Request <id> was cancelled and replaced.", executing requests and the counter are untouched, and no queued request holds the key afterwards |
| QueueModel.SubmitReplaces | server/utils/llm.ts:333-344 | after a keyed submission the new request is the last in the queue and the only one with its key |
| QueueModel.Settle | server/utils/llm.ts:367-383 | a request is rejected exactly when its provider call failed, with that error; a transport-mode request resolves with no value, any other with the provider's response |
| QueueModel.SetConcurrencySpec | server/utils/llm.ts:406-412 | the stored limit is `max(1, limit)`; an unchanged limit changes nothing; a raised limit admits until the queue is empty or the new limit is reached |
| QueueModel.Destroy | server/utils/llm.ts:433-439 | every queued request is rejected with "AiRequestQueueService destroyed", in queue order, and the queue ends empty; executing requests are untouched |
| QueueModel.SubmitWf | server/utils/llm.ts:332-347 | a submission keeps the invariant (counter = executing, limit >= 1, keys unique in the queue, each request in exactly one place) |
| QueueModel.AdmitWf | server/utils/llm.ts:349-358 | admission keeps the invariant |
| QueueModel.EvictWf | server/utils/llm.ts:333-340 | eviction keeps the invariant |
| QueueModel.CompleteWf | server/utils/llm.ts:381-388 | settling an executing request, releasing its slot in `finally` and re-running admission keeps the invariant: the request is settled exactly once |
| QueueModel.SetConcurrencyWf | server/utils/llm.ts:406-412 | `setConcurrency` keeps the invariant |
| QueueModel.DestroyWf | server/utils/llm.ts:433-439 | `destroy` keeps the invariant |
| QueueModel.ClampBounds | server/utils/llm.ts:398 | `max(lo, min(hi, x))` lies in `[lo, hi]` when `lo <= hi`, is `lo` otherwise, keeps values already in range and is idempotent |
| QueueModel.OffPeakWindow | server/utils/llm.ts:393-396 | the off-peak test holds exactly from 00:30 to 08:30 inclusive in UTC+8, that is 16:30 to 00:30 inclusive in UTC |
| QueueModel.IntervalInBounds | server/utils/llm.ts:391-404 | both writers of the interval leave it in `[min, max]` when `min <= max`; off-peak selects the off-peak setting and peak time the peak setting when those lie in range |
| QueueModel.FirstUser | server/utils/llm.ts:429 | `find(m => m.role === 'user')`: the first user message, or -1 when there is none |
| QueueModel.Snippet | server/utils/llm.ts:429 | 'N/A' when there is no user message; otherwise the first 50 characters of the first user message (all of it when shorter); the result is 'N/A' exactly when there is no user message or those characters are 'N/A' |
| QueueModel.Summaries | server/utils/llm.ts:429 | the status lists the first twenty queued requests, in queue order |
| RequestQueue.AiRequestQueueService.constructor | server/utils/llm.ts:321-330 | the limit is `max(1, concurrency)`, the settings are stored, the interval is set from the time of day, the timer runs, and the invariant holds |
| RequestQueue.AiRequestQueueService.SubmitRequest | server/utils/llm.ts:332-347 | the new state is exactly `Submit` of the old one (evict by key, append with a fresh identity, admit), the invariant is kept, the counter stays within the limit if it was, and the new identity is returned |
| RequestQueue.AiRequestQueueService.CancelQueued | server/utils/llm.ts:333-340 | the queue and the settlements change exactly as `Evict` says |
| RequestQueue.AiRequestQueueService.Enqueue | server/utils/llm.ts:343-344 | the request joins the tail with the next identity; nothing else changes |
| RequestQueue.AiRequestQueueService.ProcessQueue | server/utils/llm.ts:349-358 | the loop moves the state exactly as `Admit` does, keeps the invariant, and keeps the counter within the limit if it was; its pacing steps are as listed under Left out |
| RequestQueue.AiRequestQueueService.DispatchHead | server/utils/llm.ts:351-356 | one loop iteration is exactly `Dispatch`: count the slot, shift the head, start it or reject it, and record a pacing wait when another slot is free and another request waits (after a rejection the source differs, see Left out) |
| RequestQueue.AiRequestQueueService.ExecuteSingleRequest | server/utils/llm.ts:362-380 | a request that fails before its first `await` is rejected with its error and releases its slot; any other is handed to its provider call |
| RequestQueue.AiRequestQueueService.CompleteRequest | server/utils/llm.ts:381-388 | the state becomes `Complete` of the old one: settle once, decrement the counter, run admission; the invariant is kept, and the counter stays within the limit if it was |
| RequestQueue.AiRequestQueueService.Abort | server/utils/llm.ts:342 | firing a request's signal marks only the queued requests with that identity as aborted and keeps the invariant |
| RequestQueue.AiRequestQueueService.AdjustIntervalForTimeOfDay | server/utils/llm.ts:391-399 | the interval becomes the off-peak or peak setting by the UTC+8 time, clamped to `[min, max]` |
| RequestQueue.AiRequestQueueService.TimerTick | server/utils/llm.ts:329 | the periodic timer re-evaluates the interval until `destroy` stops it |
| RequestQueue.AiRequestQueueService.SetActivityLevel | server/utils/llm.ts:401-404 | the interval is scaled by 0.66 when active and 1.5 when idle, then clamped; the invariant is kept |
| RequestQueue.AiRequestQueueService.SetConcurrency | server/utils/llm.ts:406-412 | the state becomes `QueueModel.SetConcurrency` of the old one |
| RequestQueue.AiRequestQueueService.UpdateIntervalSettings | server/utils/llm.ts:414-420 | each given setting replaces the stored one, with the minimum at least 10; the others are kept; the interval is recomputed from the time of day |
| RequestQueue.AiRequestQueueService.GetQueueStatus | server/utils/llm.ts:422-431 | the status reports the queue size, counter, limit, interval and the four interval settings, and summarises the first twenty queued requests in order: identity, type, model (`'default'` when empty) and `Snippet` of the messages |
| RequestQueue.AiRequestQueueService.Destroy | server/utils/llm.ts:433-439 | the timer stops and the state becomes `QueueModel.Destroy` of the old one |
| OpenAiStream.StripTrailingSlash | server/utils/llm.ts:455 | exactly one trailing slash is removed, and nothing else changes |
| OpenAiStream.ChatCompletionsUrl | server/utils/llm.ts:492-494 | the URL is the base followed by `/chat/completions` when the base ends with `/v1`, and by `/v1/chat/completions` otherwise (starts with the base, ends with the path, and has that length) |
| OpenAiStream.SameEndpoint | server/utils/llm.ts:478-494 | with the trailing slash stripped as the constructor does, a base written with or without a trailing slash and with or without `/v1` posts to the same `<base>/v1/chat/completions` |
| OpenAiStream.DeltaChunks | server/utils/llm.ts:552-555 | a payload yields at most two chunks, all non-empty, the reasoning before the content; each is yielded exactly when that delta field is a non-empty string, and carries that field's text |
| OpenAiStream.LineThenRest | server/utils/llm.ts:543-557 | a complete line other than `[DONE]` yields its chunks, followed by what the rest of the text yields |
| OpenAiStream.DoneStops | server/utils/llm.ts:549 | at `data: [DONE]` the generator returns, and nothing after it is yielded, not even the trailing line |
| OpenAiStream.TrailingLineDrained | server/utils/llm.ts:564-576 | a final line without a newline is still processed after the body ends |
| OpenAiStream.SkippedLine | server/utils/llm.ts:546-556 | blank lines, non-`data:` lines and payloads that do not parse yield nothing, and the rest of the text is still read |
| OpenAiStream.StreamChunksNonEmpty | server/utils/llm.ts:553-555 | every yielded chunk carries non-empty text |
| OpenAiStream.YieldDelta | server/utils/llm.ts:550-556 | reading one payload yields exactly `PayloadChunks` |
| OpenAiStream.ReadLine | server/utils/llm.ts:546-557 | one trimmed line signals `[DONE]` exactly when it is the end marker, and yields its chunks otherwise |
| OpenAiStream.CutLine | server/utils/llm.ts:543-545 | cutting at the first newline leaves a shorter buffer, and the line's chunks followed by the rest's chunks equal those of the whole |
| OpenAiStream.ReadLines | server/utils/llm.ts:543-558 | the inner loop consumes every complete line, or stops at `[DONE]`; what it yields, followed by what the rest yields, equals what the whole text yields |
| OpenAiStream.StreamChatCompletion | server/utils/llm.ts:533-577 | over any split of the body into reads, the generator yields exactly `Stream` of the concatenated text |
| AiService.AggregateSplits | server/utils/llm.ts:228-234 | the aggregated content is exactly the content chunks joined in order, and the reasoning exactly the reasoning chunks |
| AiService.AggregateGrows | server/utils/llm.ts:237 | every notification extends the previous one; content and reasoning only grow |
| AiService.ErrorText | server/utils/llm.ts:242-246 | an abort passes its message through; any other error reports its message, or 'stream error' when it has none |
| AiService.PerformDirectStreamModel | server/utils/llm.ts:220-248 | when `onChunk` never throws: one unfinished notification per chunk, holding the aggregate so far, then exactly one finished notification; the aggregate is returned, or the failure reported and rethrown. When the n-th `onChunk` call throws: the notifications up to that call, then the `catch`'s finished notification with the callback's error (none when the throwing call was the `catch`'s own), and the callback's error is rethrown, even for a stream that ended normally |
| AiService.PerformDirectCallModel | server/utils/llm.ts:207-209 | a `null` reply throws a `TypeError`; any other reply gives the first choice's message content when it is a string and '' otherwise, with reasoning '' |
| GeminiClient.RoleOf | server/utils/llm.ts:45-46 | the Gemini role is `model` exactly for `assistant`; every other role is `user` |
| GeminiClient.ToGeminiContents | server/utils/llm.ts:42-51 | one content per message, in order, with the mapped role and a single text part |
| GeminiClient.PartsPartition | server/utils/llm.ts:98-106 | every part's text goes to exactly one of answer and thought; without thought parts the answer is all the text, and with only thought parts the reasoning is |
| GeminiClient.SplitParts | server/utils/llm.ts:98-106 | the parts loop builds the answer text and the thought text |
| GeminiClient.ChoiceOf | server/utils/llm.ts:94-116 | a choice has the candidate's index and answer text; its reasoning is the thought text, or else the string `reasoning_content`, omitted when empty; its finish reason is the lowercased string, or null; it fails exactly when the parts cannot be iterated |
| GeminiClient.ChoicesOf | server/utils/llm.ts:92-116 | one choice per candidate, in order, numbered from 0; the call fails exactly when some candidate's parts cannot be iterated |
| GeminiClient.NoCandidatesNoChoices | server/utils/llm.ts:92 | a reply without a `candidates` array gives no choices |
| GeminiClient.CandidateChoice | server/utils/llm.ts:94-116 | the `map` callback computes exactly `ChoiceOf` |
| GeminiClient.CreateChatCompletionChoices | server/utils/llm.ts:92-116 | the choices of the reply are exactly `ChoicesOf` |
| BraceScan.CloseFrom | server/api/llm/chat.post.ts:106-112 | the inner loop's closing position, if found, lies in the rest of the buffer |
| BraceScan.Close | server/api/llm/chat.post.ts:104-112 | a closing position found for a `{` lies after it and inside the buffer |
| BraceScan.CloseBalanced | server/api/llm/chat.post.ts:104-113 | a found span starts with `{`, ends with `}`, has brace depth 0 and depth at least 1 on every proper prefix |
| BraceScan.CloseComplete | server/api/llm/chat.post.ts:104-112 | the inner loop misses no object: for a balanced span starting at a `{`, it finds exactly that span's end |
| BraceScan.SpansWellFormed | server/api/llm/chat.post.ts:103-188 | the spans cut from a buffer are balanced, in order and disjoint, and scanning resumes after each one |
| BraceScan.ParsedTextsBalanced | server/api/llm/chat.post.ts:113 | every substring handed to `JSON.parse` starts with `{`, ends with `}` and is brace-balanced |
| BraceScan.NoSpansNoClose | server/api/llm/chat.post.ts:103-111 | when nothing is cut, no `{` of the buffer closes |
| BraceScan.KeptSpec | server/api/llm/chat.post.ts:190-192 | the buffer left for the next read is the suffix after the last span, or the whole buffer when nothing was cut |
| BraceScan.KeptIsOpen | server/api/llm/chat.post.ts:183-192 | no `{` in the kept buffer closes within it |
| BraceScan.KeptHoldsNoObject | server/api/llm/chat.post.ts:183-192 | the kept buffer contains no balanced span at all |
| BraceScan.ReadsSnoc | server/api/llm/chat.post.ts:93-192 | each read appends its fragment to the kept buffer, cuts it, and adds the texts found to those of the earlier reads |
| BraceScan.SplitChangesParsedTexts | server/api/llm/chat.post.ts:103-113 | the same text `{{}}` parses as `{{}}` in one read but only as `{}` when it arrives as `{{}` and `}` |
| BraceScan.CutObjects | server/api/llm/chat.post.ts:102-189 | the nested loops, with `i = j` and `break`, find exactly `SpansFrom(buffer, 0)` and the position after the last span |
| BraceScan.CutIntendedSplit | server/api/llm/chat.post.ts:103-192 | the corrected scanner finds in a text what it finds in a prefix, followed by what it finds in the kept rest plus the remainder |
| BraceScan.KeptHasNoTexts | server/api/llm/chat.post.ts:190-192 | what the corrected scanner keeps holds no complete object |
| BraceScan.ReadTextsIntendedConcat | server/api/llm/chat.post.ts:93-192 | read by read, the corrected scanner finds exactly what it finds in the concatenated text |
| BraceScan.IntendedSplitInvariant | server/api/llm/chat.post.ts:93-192 | the corrected scanner's output does not depend on how the reads split the body |
| GeminiStream.Reasoning | server/api/llm/chat.post.ts:138-147 | the candidate's thought text wins; otherwise a non-empty string `thinking` of the object; otherwise a non-empty string `reasoning_content` of the candidate; otherwise '' |
| GeminiStream.BuildDelta | server/api/llm/chat.post.ts:150-164 | with the flag, only `content` is set: to the reasoning if non-empty, else the text, else nothing; without it, `content` is present exactly when the text is non-empty and `reasoning_content` exactly when the reasoning is; no field is ever empty |
| GeminiStream.DeltaEmptyIffNothing | server/api/llm/chat.post.ts:150-164 | the delta is empty exactly when both the text and the reasoning are empty |
| GeminiStream.FinishReason | server/api/llm/chat.post.ts:175 | a falsy `finishReason` gives null, a truthy string gives it lowercased, and a truthy non-string throws |
| GeminiStream.UntilThrowSpec | server/api/llm/chat.post.ts:116-182 | one chunk per candidate, in order, up to the first candidate that throws; the catch drops the rest of that object's candidates |
| GeminiStream.EventsOfAppend | server/api/llm/chat.post.ts:103-189 | the chunks of successive objects are the concatenation of each object's chunks |
| GeminiStream.EventsOfAreChunks | server/api/llm/chat.post.ts:118-178 | the objects write only data chunks |
| GeminiStream.DoneOnceAtEnd | server/api/llm/chat.post.ts:195-201 | `data: [DONE]` is written exactly once, last, when the body ends normally; a failure writes an error comment instead; every earlier write is a chunk |
| GeminiStream.AggregateReasoning | server/api/llm/chat.post.ts:138-147 | the three assignments compute exactly `Reasoning` |
| GeminiStream.MakeDelta | server/api/llm/chat.post.ts:150-164 | filling the delta field by field computes exactly `BuildDelta` |
| GeminiStream.BuildCandidateEvent | server/api/llm/chat.post.ts:120-178 | one candidate gives exactly `CandidateEvent`: a chunk with its delta and finish reason, or a throw |
| GeminiStream.EmitCandidates | server/api/llm/chat.post.ts:116-182 | the candidate loop writes exactly `UntilThrow` |
| GeminiStream.EmitObject | server/api/llm/chat.post.ts:113-182 | one balanced text writes exactly `ObjectEvents`: nothing when it does not parse or its candidates cannot be iterated |
| GeminiStream.ScanRead | server/api/llm/chat.post.ts:101-192 | one pass over the buffer writes the chunks of exactly the texts `Cut` finds, and keeps exactly `Kept` |
| GeminiStream.ReadFragment | server/api/llm/chat.post.ts:98-192 | one read writes the chunks of `ReadOnce` and keeps its buffer |
| GeminiStream.ReadAll | server/api/llm/chat.post.ts:93-193 | the read loop writes the chunks of exactly the texts `Reads` finds |
| GeminiStream.Finish | server/api/llm/chat.post.ts:195-201 | the final write is `[DONE]`, or `: error <message>` with 'Upstream error' for a non-string message |
| GeminiStream.GeminiStreamResponse | server/api/llm/chat.post.ts:93-203 | the handler writes exactly `StreamEvents`: the chunks of every object found, then the final write |
| DeepSeekTransform.RewriteDelta | server/api/llm/chat.post.ts:281-287 | a truthy `reasoning_content` becomes the `content` when that is falsy, and is then removed; a truthy content is kept; other fields are unchanged; a falsy `reasoning_content` changes nothing |
| DeepSeekTransform.Rewrite | server/api/llm/chat.post.ts:278-287 | the delta `choices?.[0]` reaches changes exactly as `RewriteDelta` says, and nothing else changes: a non-object payload, the other properties, the other choices (elements after the first, or properties other than `"0"`) and the other properties of that choice are kept; a payload without an object delta there is unchanged |
| DeepSeekTransform.RewriteIdempotent | server/api/llm/chat.post.ts:278-287 | rewriting a payload twice gives the same result as rewriting it once |
| DeepSeekTransform.LineWrite | server/api/llm/chat.post.ts:265-295 | every line write ends with a newline |
| DeepSeekTransform.LineThenRest | server/api/llm/chat.post.ts:261-296 | a complete line gives exactly one write, followed by the writes of the rest of the text |
| DeepSeekTransform.DoneLineIsDone | server/api/llm/chat.post.ts:270-272 | `data: [DONE]` is recognised as the end marker after trimming |
| DeepSeekTransform.DoneContinues | server/api/llm/chat.post.ts:272-275 | `data: [DONE]` is forwarded, and the lines after it are still rewritten |
| DeepSeekTransform.TrailingLineDropped | server/api/llm/chat.post.ts:253-297 | text after the last newline is never written |
| DeepSeekTransform.OneWritePerLine | server/api/llm/chat.post.ts:261-296 | there is exactly one write per newline of the body |
| DeepSeekTransform.WritesEndLines | server/api/llm/chat.post.ts:265-295 | every write ends with a newline |
| DeepSeekTransform.RewritePayload | server/api/llm/chat.post.ts:277-287 | the two statements on `choice.delta` compute exactly `Rewrite` |
| DeepSeekTransform.WriteLine | server/api/llm/chat.post.ts:265-295 | one trimmed line's write: '\n' for a blank line, the line plus '\n' for other lines, `[DONE]` as it came, a parsed payload rewritten and re-serialised, and an unparsable payload as it came |
| DeepSeekTransform.CutLine | server/api/llm/chat.post.ts:261-263 | cutting at the first newline leaves a shorter buffer; the line's write, followed by the rest's writes, equals the writes of the whole |
| DeepSeekTransform.WriteLines | server/api/llm/chat.post.ts:261-296 | the inner loop writes every complete line and leaves no newline in the buffer |
| DeepSeekTransform.TransformStream | server/api/llm/chat.post.ts:249-297 | over any split of the body into reads, the writes are exactly `Transform` of the concatenated text, followed by `: error <message>` when a read fails |

## Left out

- Network and transport.
  - `fetch`, HTTP status handling and the upstream-error writes are not
    modelled.
  - `TextDecoder` and the stream readers are not modelled: the body
    arrives as decoded string fragments.
  - Empty reads (`if (!value) continue`) are left out; they add nothing
    to the buffer.
  - `writeSSE` backpressure, response headers and `res.end()` are not
    modelled: a write is an element of the output sequence.
  - The pass-through branch of the chat endpoint for other providers
    (server/api/llm/chat.post.ts:298-310) is not modelled.
- Async interleaving. The admission loop runs without interruption; each
  pacing wait is recorded as a step in `trace`. A provider call ending
  is the event `CompleteRequest`. `performDirectStreamToResponse` is not
  part of this model: its outcome is a parameter of that event.
- Clocks and randomness.
  - `Date.now()` and `Math.random()` ids, `queuedAt`, ISO timestamps and
    the chunk ids and creation times are not modelled; the printable id
    is a parameter.
  - The time of day is given as a UTC hour and minute.
  - The 15-minute `setInterval` is the method `TimerTick`.
- Runtime configuration and the process-wide singleton are not modelled.
  The constructor takes its settings as parameters.
- Numbers.
  - Intervals are `real`, so floating-point rounding of `× 0.66` and
    `× 1.5` is not modelled.
  - A concurrency limit is an `int`; fractional limits are not modelled.
  - `toLowerCase` lowers only ASCII letters.
- JSON.
  - `JSON.parse` and `JSON.stringify` are parameters. Key order and the
    exact serialised text are not modelled.
  - The fields a chunk carries besides `choices[0].delta` and
    `finish_reason` are not modelled: `id`, `object`, `created`, `model`
    and `index`.
- QueueModel.Snippet: takes the first 50 Unicode characters, where
  `slice(0, 50)` takes the first 50 UTF-16 code units. A message with
  characters outside the Basic Multilingual Plane (emoji, for example)
  gives a longer snippet in the model, and the source can cut a
  surrogate pair in half, which a Dafny string cannot hold.
- RequestQueue.AiRequestQueueService.GetQueueStatus: its snippets count
  Unicode characters, as described for `QueueModel.Snippet`.
- AiService.PerformDirectStreamModel: does not model the fallback that
  appends a chunk that is neither `{reasoning}` nor `{content}` to the
  content. The parser yields only those two forms, so that branch is
  unreachable from `streamChatCompletion`.
- AiService.PerformDirectCallModel: a message `content` that is present
  but not a string (`?? ''` keeps it) is modelled as ''.
- QueueModel.Dispatch: after a request that fails before its first
  `await` (an aborted signal, a missing `onChunk` or response), the
  source's `finally` calls `processQueue` again before the failing call
  returns. That nested loop dispatches the next requests and runs its own
  pacing waits, and the outer loop can then wait as well, so two loops
  admit side by side. The model keeps one loop and logs a pacing wait
  after the rejection instead. So the position and number of `Paced`
  steps in `trace` can differ from the source: for limit 1 and the queue
  [aborted A, B], the model logs a wait between A and B and the source
  does not. The order of the dispatched tickets (`AdmitDispatchOrder`),
  the queue, the executing and settled requests and the counter are the
  same once admission has run to its end with no completion in between.
- RequestQueue.AiRequestQueueService.DispatchHead: computes `Dispatch`,
  so its pacing step after a rejected request differs from the source's
  re-entrant `processQueue` as described for `QueueModel.Dispatch`.
- GeminiStream.GeminiStreamResponse: within one read, the source parses
  and writes each object as soon as its closing brace is found. The model
  first cuts all the spans and then processes them. Processing never
  changes the buffer or the scan position, so the writes are the same. A
  read failure is modelled as arriving after the last delivered
  fragment.
- DeepSeekTransform.RewriteDelta: removes `reasoning_content` only when
  it is truthy, following the code (the `delete` is guarded by the same
  truthiness test). A `null` or '' value stays in the delta, although
  the transform is usually described as always removing the field.

## Findings

| source | as written | input that shows it | evidently intended | confidence | as-written member | corrected member |
|---|---|---|---|---|---|---|
| server/api/llm/chat.post.ts:103-113, 183-192 | A `{` that does not balance within the buffer is skipped, and scanning resumes at the next character. So an inner object of a still-incomplete outer object is cut out, parsed and sliced off the buffer, and the outer object is lost. What is parsed depends on how the network splits the body. | the body `{{}}` delivered in one read parses as `{{}}`; delivered as the reads `{{}` and `}`, only `{}` is parsed and the outer object is never seen | stop at the first `{` that does not balance and keep the buffer from there, so the result is the same for every split of the body | not executed | BraceScan.SplitChangesParsedTexts | BraceScan.IntendedSplitInvariant |
