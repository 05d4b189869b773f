# Verified model of the LLM streaming service's relay, chunk source and middleware

The service accepts a prompt on `POST /stream`, streams a generated answer
back chunk by chunk, and stores the exchange. This project models, in Dafny,
the three pieces of sequential logic behind that:

- **The relay** (`event_stream` in `app/routes.py`). It pulls chunks from a
  chunk source, appends each one to an accumulator and then yields it. When
  the stream ends it saves `(prompt, accumulator)`, whether the stream ended
  normally or by an `Exception`. On failure it re-raises the streaming error,
  even when the save failed as well. The save (`_persist_conversation`) adds
  one row to a database session and commits; on failure it rolls back and
  re-raises; a rollback that fails raises its own error instead. The prompt
  is the request's prompt with surrounding whitespace stripped.
- **The chunk source** (`app/llm.py`). The mock splits
  `"Echo: " + prompt + "\nThis is a simulated streaming response."` on
  whitespace and yields each token followed by one space. The real-provider
  path tries to create the stream up to three times and pauses
  `0.5 * 2^i` seconds after failed attempt `i`. It then yields the non-empty
  `content` of each event and skips events without one. `get_llm_streamer`
  picks the real provider iff an API key is set and the SDK imported.
- **The middleware decisions** (`app/middleware.py`): the client key taken
  from `X-Forwarded-For`, the API-key check, and the fixed-window rate
  limiter with its per-key store of `(reset, count)`.

Files: `wrappers.dfy` (Option, Result), `text.dfy` (Python's `isspace`,
`split()`, `strip()`, `" ".join`, `"".join`, `split(",")[0]`), `llm.dfy`,
`routes.dfy`, `middleware.dfy`.

How things are represented:

- A run of a generator is the sequence of pulls its consumer sees:
  `Outcome = Chunk(text) | Fail(error)`.
- A creation call to the provider is `Attempt = Opened(items) | Refused(error)`.
  An item of an open stream is an event, or `Broken(error)` when the stream's
  own iteration raises.
- The database session is a class with its committed `rows`, the `pending`
  rows added since the last commit, and an id counter standing in for uuid4.
  Whether the commit fails, and whether the rollback after it fails, are
  inputs (`commitFailure`, `rollbackFailure`).
- Sleeps are lists of whole milliseconds. Timestamps are whole seconds.

The relay method returns its effects in order: each `Yielded(chunk)`, then
one `Saved(prompt, response)`. It also returns how it ended, `Completed` or
`Raised(error)`, and, as a ghost record, the accumulator's value right after
each yield.

Three details of the code that the model follows:

- The code pauses after every failed attempt, the third included:
  three failures pause 0.5 + 1 + 2 = 3.5 s (`app/llm.py` lines 50-52).
- The code has no JSON output format. The relay emits raw text only, as a
  `text/plain` streaming response (`app/routes.py` line 174).
- The code checks the mock fallback twice: in `get_llm_streamer` and again
  inside `openai_stream_response`. The model proves that the two checks agree.

## Model

| member | source | states |
|---|---|---|
| `Llm.MockChunks` | src/backend/app/llm.py:20-23 | the mock yields one chunk per token of the prompt, plus `"Echo: "` first and five more words and `"response. "` last |
| `Llm.MockRun` | src/backend/app/llm.py:16-23 | a mock run pulls exactly the mock chunks, never raises, pauses 50 ms per chunk and makes no stream-creation call |
| `Llm.MockChunksAreTokens` | src/backend/app/llm.py:20-23 | the mock yields exactly the whitespace tokens of `"Echo: {prompt}\nThis is a simulated streaming response."`, in order, each followed by one space |
| `Llm.MockChunkShape` | src/backend/app/llm.py:21-23 | every mock chunk has at least two characters, ends in `' '` and has no other whitespace |
| `Llm.MockConcat` | src/backend/app/llm.py:20-23 | the mock chunks concatenated equal the tokens joined by `" "` plus one trailing `" "` |
| `Llm.MockTokens` | src/backend/app/llm.py:20-21 | the mock's tokens are `"Echo:"`, then the prompt's own tokens, then `This is a simulated streaming response.` split into words |
| `Llm.TailTokens` | src/backend/app/llm.py:20-21 | the fixed sentence splits into the six words `This`, `is`, `a`, `simulated`, `streaming`, `response.` |
| `Llm.MockIgnoresOuterSpace` | src/backend/app/llm.py:20-23 | the mock gives the same chunks for a prompt and for the prompt stripped |
| `Llm.Retry` | src/backend/app/llm.py:38-55 | at most 3 creation calls; they stop at the first success; every earlier call failed; the stream is the one that call opened; failed attempt `i` is followed by a `500 * 2^i` ms pause; if all 3 fail, the last error is raised after pauses of 500, 1000 and 2000 ms |
| `Llm.EstablishStream` | src/backend/app/llm.py:38-55 | the retry loop, with its `break` and `for ... else`, computes exactly `Retry` |
| `Llm.FirstOpened` | src/backend/app/llm.py:40-49 | the index of the first successful attempt: all earlier ones failed, and that one opened a stream (or none did) |
| `Llm.BackoffsAt` | src/backend/app/llm.py:52 | the pause list after `n` failures has `n` entries, and entry `i` is `500 * 2^i` ms |
| `Llm.ContentOf` | src/backend/app/llm.py:58-65 | an event contributes a chunk only when it has a non-empty content; a missing choice, an unexpected shape or an empty or missing content contributes nothing |
| `Llm.Filtered` | src/backend/app/llm.py:57-65 | the pulls of an open stream: at most one per item read; their content and order are fixed by the lemmas below |
| `Llm.RelayEvents` | src/backend/app/llm.py:57-65 | the event loop with skip-on-exception computes exactly `Filtered`: the contents in order, ended by any error the stream's iteration raises |
| `Llm.FilteredWellFormed` | src/backend/app/llm.py:57-65 | the filtered pulls hold only non-empty chunks, and an iteration error can only be the last pull |
| `Llm.FilteredAppend` | src/backend/app/llm.py:57-65 | filtering works item by item: the pulls of an error-free prefix come before those of the rest, in order |
| `Llm.FilteredStopsAtBreak` | src/backend/app/llm.py:57 | an error raised by the stream's own iteration is not caught: it ends the pulls, and no later item is read |
| `Llm.FilteredChunks` | src/backend/app/llm.py:57-65 | a chunk is pulled iff some event read before any iteration error has it as its non-empty content |
| `Llm.SelectStreamer` | src/backend/app/llm.py:68-72 | the real provider is chosen iff the API key is non-empty and the SDK is present; otherwise the mock is chosen |
| `Llm.OpenAIRun` | src/backend/app/llm.py:26-65 | no creation call is made iff the key is empty or the SDK is missing; at most 3 calls are made; the pauses are the mock's 50 ms ones or, on the provider path, `500 * 2^k` ms for pause `k` |
| `Llm.OpenAIStreamResponse` | src/backend/app/llm.py:26-65 | falls back to the mock on the same condition; otherwise its pulls are the single error of failed creation, or the filtered stream, together with the retry's pauses and call count |
| `Llm.SelectionAgreesWithFallback` | src/backend/app/llm.py:26-72 | running the selected streamer is the same as calling `openai_stream_response` directly, because both apply the same fallback rule |
| `Llm.SourceWellFormed` | src/backend/app/llm.py:16-72 | under any configuration, the source yields only non-empty chunks, and an Exception can only be its last pull |
| `Llm.AllAttemptsFail` | src/backend/app/llm.py:40-55 | if all three attempts fail, the only pull raises the last error, no chunk is produced, 3 calls were made, and 3500 ms were slept in all |
| `Llm.NoRetryAfterOpen` | src/backend/app/llm.py:40-57 | once attempt `k` opens a stream, exactly `k + 1` calls were made, and the pulls are the filtered stream whatever it raises later |
| `Text.Words` | src/backend/app/llm.py:21 | `split()` returns at most one token per character; token shape, order and contents are fixed by the lemmas below |
| `Text.WordsShape` | src/backend/app/llm.py:21 | every token of `split()` is non-empty and has no whitespace |
| `Text.WordsSplit` | src/backend/app/llm.py:21 | splitting at a whitespace character gives the tokens of the left side, then those of the right side |
| `Text.WordsJoinSpace` | src/backend/app/llm.py:21 | round trip: `split()` of `" ".join(ws)` gives `ws` back when the tokens are non-empty and whitespace-free |
| `Text.WordsKeepNonSpace` | src/backend/app/llm.py:21 | the tokens put back together are exactly the non-whitespace characters of the input, in order |
| `Text.WordsOfSpace` | src/backend/app/llm.py:21 | a whitespace-only string has no tokens |
| `Text.WordsOfWord` | src/backend/app/llm.py:21 | a non-empty whitespace-free string has itself as its only token |
| `Text.WordLen` | src/backend/app/llm.py:21 | the length of the leading run of non-whitespace characters: that run has no whitespace, and it ends at whitespace or at the end of the string |
| `Text.Strip` | src/backend/app/routes.py:155 | the result neither starts nor ends with whitespace; it is empty iff the input is all whitespace; it only has characters of the input |
| `Text.StripPadded` | src/backend/app/routes.py:155 | stripping undoes padding with whitespace on both sides |
| `Text.StripIdempotent` | src/backend/app/routes.py:155 | stripping twice is the same as stripping once |
| `Text.WordsOfStrip` | src/backend/app/routes.py:155 | stripping does not change the tokens that `split()` finds |
| `Text.FirstField` | src/backend/app/middleware.py:23 | `split(",")[0]` is a prefix of the input with no comma, ended by a comma or by the end of the input |
| `Text.FirstFieldOf` | src/backend/app/middleware.py:23 | the first field of `a + "," + b` is `a` when `a` has no comma |
| `Text.ConcatAppend` | src/backend/app/routes.py:162 | concatenating two lists of chunks is concatenating their concatenations |
| `Text.ConcatPrefix` | src/backend/app/routes.py:162 | the concatenation of a prefix of the chunks is a prefix of the concatenation of all of them |
| `Routes.Session.Add` | src/backend/app/routes.py:145 | `db.add` appends one row to the pending rows and changes nothing else |
| `Routes.Session.Commit` | src/backend/app/routes.py:146 | a commit either makes the pending rows durable, or raises and changes nothing |
| `Routes.Session.Rollback` | src/backend/app/routes.py:148 | a rollback drops the pending rows, leaves the committed rows unchanged, and raises its failure if it has one |
| `Routes.Session.Persist` | src/backend/app/routes.py:142-149 | adds exactly one row with a fresh id and commits it; when the commit fails it rolls back, leaves the rows unchanged and raises what `PersistError` says; it counts one save either way |
| `Routes.PersistError` | src/backend/app/routes.py:142-149 | the save raises iff the commit fails; it raises the commit's error unless the rollback raises, and then it raises the rollback's error |
| `Routes.RelayEffects` | src/backend/app/routes.py:157-172 | one effect per delivered chunk, in order, each yielding that chunk, then exactly one save, under the prompt, as the last effect |
| `Routes.RelayEnding` | src/backend/app/routes.py:164-172 | the run completes iff no pull raised and the save raised nothing; a streaming error wins over a save error; otherwise the save's error is raised |
| `Routes.Accumulators` | src/backend/app/routes.py:158-163 | one accumulator value per delivered chunk |
| `Routes.EventStream` | src/backend/app/routes.py:157-172 | yields the delivered chunks in order, then saves the prompt with their concatenation exactly once; it re-raises the stream error whatever the commit and rollback did, and otherwise raises the save's error or completes; after the `k`-th yield its accumulator is `Accumulators(upstream)[k]`; the rows grow iff the commit succeeds |
| `Routes.DeliveredUpToFailure` | src/backend/app/routes.py:159-167 | if the pulls raise at position `n`, the first `n` chunks are the ones delivered, and that error is the one that ends the stream |
| `Routes.CompletedRun` | src/backend/app/routes.py:170-172 | on normal exhaustion, every chunk is yielded and their concatenation is saved; a failing save reaches the caller, otherwise the run completes |
| `Routes.FailedRun` | src/backend/app/routes.py:161-169 | after `n` chunks and then an Exception, exactly those `n` chunks are saved, and the original error is raised even if the save fails |
| `Routes.FailedBeforeFirstChunk` | src/backend/app/routes.py:158-167 | if the first pull raises, a record with the empty response is saved and the error is raised |
| `Routes.SavedOnceAtEnd` | src/backend/app/routes.py:159-172 | every run saves exactly once, as its last effect, and it saves what the client was sent before that |
| `Routes.AccumulatorGrows` | src/backend/app/routes.py:158-163 | each yield's accumulator is the previous one (`""` before the first) plus exactly the chunk yielded; every value is a prefix of the saved response, and the value after the last yield is the saved response |
| `Routes.YieldedChunksOfYields` | src/backend/app/routes.py:163 | the chunks read back from the yield effects are the chunks yielded, in order |
| `Routes.Stream` | src/backend/app/routes.py:152-172 | streams and saves under the stripped prompt, using the streamer `get_llm_streamer` selects; the saved row holds everything the client was sent; the ending follows `RelayEnding` with the save's error |
| `Routes.MockRunDelivered` | src/backend/app/llm.py:20-23 | with the mock source, every mock chunk reaches the client; the saved response is the tokens joined by spaces plus a trailing space; the run completes unless the save fails |
| `Routes.HistoryParamsError` | src/backend/app/routes.py:52-62 | the parameters are accepted iff `1 <= limit <= max_page_limit` and `offset >= 0`; a bad limit is reported before a bad offset |
| `Middleware.ClientKey` | src/backend/app/middleware.py:19-24 | a non-empty `X-Forwarded-For` gives a key with no comma and no surrounding whitespace; without that header the key is the client host, or `"anon"` |
| `Middleware.ClientKeyFirstHop` | src/backend/app/middleware.py:21-23 | for a header `a, b, ...`, the key is `a` stripped |
| `Middleware.ClientKeySingleHop` | src/backend/app/middleware.py:21-23 | a header with no comma gives the whole header, stripped |
| `Middleware.Authenticate` | src/backend/app/middleware.py:39-45 | a request passes iff no API key is configured or its `x-api-key` header equals the key; a missing header is refused whenever a key is configured |
| `Middleware.Lookup` | src/backend/app/middleware.py:58 | a key has a stored window iff it is in the store, and then that is the window returned |
| `Middleware.Advance` | src/backend/app/middleware.py:58-63 | an unseen key starts a window ending at `now + window` with count 1; a window resets only when `now > reset` (strictly), and then it restarts at count 1; otherwise the count goes up by one |
| `Middleware.Decide` | src/backend/app/middleware.py:65-87 | a request is rejected iff `count > limit`, and then it reports `Remaining = 0`; an admitted request reports `limit - count` (so `max(0, limit - count)`) and the window's reset |
| `Middleware.RateLimiter.Handle` | src/backend/app/middleware.py:48-88 | when disabled, the request passes and the store is unchanged; otherwise the request's own key is written, rejected requests included, no other key changes, and the decision follows `Decide` |
| `Middleware.AdmittedWithinWindow` | src/backend/app/middleware.py:58-68 | while no reset happens, a key with count `c` gets `clamp(limit - c)` more of its requests admitted |
| `Middleware.FixedWindowBudget` | src/backend/app/middleware.py:58-68 | of the requests a new key makes before its first window ends, exactly `min(n, max(0, limit))` are admitted |
| `Middleware.LimitOneScenario` | src/backend/tests/test_app.py:90-105 | with limit 1 and a 60-second window, the first request is admitted and a second one inside the window is rejected with `Limit 1` and `Remaining 0` |

## Left out

- Framework wiring is not modelled: FastAPI routing, `StreamingResponse` and its `text/plain` media type, CORS, and the order in which middlewares are chained.
- Async generator, scheduling and cancellation are not modelled. The relay consumes a given sequence of pulls. A client disconnect raises `GeneratorExit` or `CancelledError`, which are `BaseException`s and bypass both save branches; only `Exception` failures are modelled, as `Fail` pulls.
- Real time is not modelled. `asyncio.sleep` and `time.time()` are floats; the model uses whole milliseconds for pauses and whole seconds for timestamps, so `int(reset)` in the rate-limit headers is the reset itself. The mock's 50 ms pause before each token is recorded in the pause list, but its order relative to the yields is not.
- The OpenAI SDK call itself (model, messages, temperature, max tokens) is not modelled. Each creation attempt's outcome and the opened stream's items are inputs. `Llm.Retry`, `Llm.EstablishStream` and `Llm.OpenAIStreamResponse` take one outcome per possible call (exactly three); outcomes after the first success are never read.
- The SDK's event objects are reduced to a choice list with an optional content (`Delta`) or an unreadable shape (`Malformed`). Content that is truthy but not a string is not modelled.
- Where the database fails is an input: the commit either succeeds or raises, and so does the rollback after a failed commit. A failure inside `db.add` or in building the row has the same effect in the model as a failed commit: nothing is stored and the error is re-raised.
- Routes.Session.Rollback: a failing rollback still discards the pending rows in the model. What a failed rollback leaves in a real session is not modelled; only its error, and that no row is stored, are.
- SQLAlchemy queries, the health check, `get_conversation`, the list query of `get_history` and the ORM and migration declarations are not modelled. Row timestamps (`utcnow`) are not modelled, and the uuid4 id is modelled as a counter that never repeats.
- UUID parsing in `get_conversation` relies on a library and is not modelled.
- `Routes.HistoryParamsError` reports which check failed, but not the text of the 422 detail message.
- `logging_middleware` and `request_context_middleware` (request ids, JSON logging, float durations) are not modelled.
- Configuration loading (`config.py`, pydantic-settings) is not modelled. Settings are parameters; the defaults used appear as constants.
- Request validation (`schemas.py`) is only the precondition `1 <= |prompt| <= 10000` of `Routes.Stream`.
- Header names are case-insensitive in the framework. The model receives the header values already looked up, as `Option<string>`.
- HTTP status codes and response bodies (401, 422, 429, the `detail` texts) are not modelled. The decisions are datatype constructors: `Unauthorized`, a `PageError`, `Rejected`.
- The configured defaults (60 requests, 10 and 100 for page limits) are parameters of the operations, not constants of the model. Only the 60-second window appears, in `Middleware.LimitOneScenario`.
