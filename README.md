# twit-stream-v2, modelled in Dafny

twit-stream-v2 is a Node.js client for Twitter's API v2 sampled stream.
This project models its two core parts and proves what they promise.

- **`TweetStreamParser`** (lib/parse_stream.js) is a stream transform. It keeps one byte buffer (`chunkBuffer`) and appends each incoming chunk to it, unless the buffer has already grown past 50 MiB. It then cuts every complete `\r\n`-terminated line off the front of the buffer and classifies the line:
  - an empty line is a heartbeat, and is pushed as "no value";
  - a line with truthy `data` is a tweet, and is pushed downstream;
  - a line with truthy `errors` is an API error report;
  - any other JSON value is reported as `other`;
  - a line that does not parse is a `stream-error` on the parser itself.
- **`StreamClient`** (index.js) wraps the HTTP request in a reconnect loop (`connect`):
  - a cancellation (a user `disconnect` while the request is pending) resolves;
  - a timeout or a retriable HTTP status emits `reconnect`, with a backoff computed by `rateLimiting` from the rate-limit headers, then tries again;
  - any other error rejects;
  - after `max_reconnects + 1` reconnects the loop gives up.
  - `buildConnection` installs a fresh cancel token each time. If a token is still installed, it first calls `disconnect` on it.

## Layout

| file | module | what it holds |
|---|---|---|
| wrappers.dfy | `Wrappers` | `Option`, for the source's `null`/`undefined` |
| framing.dfy | `Framing` | `\r\n` framing as pure functions (`Frame`, `Unframe`, `Feed`) and the lemmas about it: losslessness, its converse, split invariance |
| parse_stream.dfy | `ParseStream` | line classification (`LineActions`) and the `TweetStreamParser` class |
| js_number.dfy | `JsNumber` | `parseInt` without a radix, and `defaultNaN` |
| rate_limit.dfy | `RateLimit` | `isTimedout`, `retriableStatus`, `rateLimiting` |
| stream_client.dfy | `Client` | `Supervise`, the specification of the whole `connect` loop, and the `StreamClient` class |

Each imperative part is a class whose methods are proved against a specification function:
- `TweetStreamParser.ParseJson` (the `while` loop of `parseJSON`) is proved against `Frame`.
- `StreamClient.Connect` (the `while` loop of `connect`) is proved against `Supervise`.

The properties are proved as lemmas about those functions.

Inputs the model takes as parameters:
- **What the `try` block does to a line** is a parameter `parse: Bytes -> Option<Json>`: the UTF-8 decoding, `JSON.parse`, and the read of `json.data`. `None` stands for a throw of any of them. So `parse` answers `None` for text that is not JSON and also for `null`, whose `data` read throws. A parsed value is seen only through the truthiness of its `data` and `errors` fields.
- **The clock** is a parameter:
  - `now` for `rateLimiting`;
  - `now` for the re-arming of the liveness timer in `_transform`;
  - in each scripted step of `connect`, the failure time and the time the loop body ended.
- **The HTTP request of each attempt** is a scripted `Step`. A step says how the `buildConnection` promise settled:
  - the stream completed;
  - the request was cancelled by the user;
  - the request failed with a given error.
  A step also says whether the user called `disconnect` during the backoff sleep.

Where the code and its documentation disagree, the model follows the code:
- `connect({max_reconnects: m})` with `m >= 0` makes up to `m + 2` attempts, not `m + 1`. It rejects with `reconnects = m + 1`. So `max_reconnects: 1` makes three attempts (`MaxOneReconnectMakesThreeAttempts`).
- The rate-limited backoff is not clamped at zero. A reset time in the past gives a negative wait (`PastResetWaitIsNegative`).
- A `disconnect` during the backoff sleep does not end the loop. It only drops the token, so the next attempt emits no `disconnected` of its own.
- `stream-error` is emitted on the parser, never on the injected emitter. So the client never hears about malformed lines.
- `_flush` discards a trailing partial line without any event.
- A stream that ends cleanly does not resolve `connect`. The loop goes on and makes another attempt (`CompletedContinues`, index.js:132-148). The intended design ends the session on a clean close of the stream; the code resolves only on a cancellation (index.js:117, 136-137).
- The buffer-overflow error carries no diagnostics. Its message is the fixed text `Stream overproducing tweet data\n[object Object]`, because the details object is interpolated into a template string.
- The spacing wait is the time since `last_try`, clamped to [1000, 900000], because the inversion `delta = 1.0 - delta` is commented out. A stream that ran for 15 minutes before failing waits 15 minutes, while attempts close together wait only one second. The commented-out line shows the intended shaping, the opposite one: attempts close together back off more (`SpacingWait`).
- A retriable failure whose response has headers but no `x-rate-limit-remaining` reads `remaining` as 0. So it counts as rate limited. A 503 with an empty header map therefore waits the full 900000 ms (`MissingHeadersWaitFullWindow`).

## Model

| member | source | states |
|---|---|---|
| Framing.IndexOfTerminator | lib/parse_stream.js:22 | `Buffer.indexOf('\r\n')`: -1 exactly when the buffer holds no terminator, otherwise the position of the first one |
| Framing.IndexFrom | lib/parse_stream.js:22 | the search from position `k`: either -1 or a terminator at or after `k`, with none between `k` and it |
| Framing.Frame | lib/parse_stream.js:22-24 | what the framing loop leaves in the buffer holds no terminator and is no longer than the input |
| Framing.SplitAtTerminator | lib/parse_stream.js:23-24 | at a terminator, the buffer is the line before it, the two terminator bytes, and the rest |
| Framing.FrameWithoutTerminator | lib/parse_stream.js:22 | a buffer without a terminator yields no lines and stays as it is |
| Framing.FrameStep | lib/parse_stream.js:22-24 | one iteration cuts exactly the bytes before the first terminator, drops the 2-byte terminator, and leaves the suffix |
| Framing.PrefixBeforeFirstTerminator | lib/parse_stream.js:23 | the bytes before the first terminator contain none |
| Framing.FrameLinesHaveNoTerminator | lib/parse_stream.js:22-24 | no emitted line contains `\r\n` |
| Framing.FrameIsLossless | lib/parse_stream.js:22-24 | the lines, each re-terminated, followed by the leftover buffer, are exactly the input: no byte is lost or reordered |
| Framing.FirstTerminatorAfterLine | lib/parse_stream.js:22 | in `line + \r\n + t` with a terminator-free line, the first terminator is the one after the line |
| Framing.UnframeThenFrame | lib/parse_stream.js:22-24 | the converse of losslessness: terminator-free lines, terminated, plus a terminator-free rest, frame back to those lines and that rest |
| Framing.IndexOfAppend | lib/parse_stream.js:22 | appending bytes does not move a terminator already in the buffer |
| Framing.FrameAppendLines | lib/parse_stream.js:59-64 | the lines of `a + b` are the lines of `a`, then those of `a`'s leftover followed by `b` |
| Framing.FrameAppendRest | lib/parse_stream.js:59-64 | the leftover of `a + b` is the leftover of `a`'s leftover followed by `b` |
| Framing.FrameAppend | lib/parse_stream.js:59-64 | framing the concatenation equals framing `a`, then framing its leftover with `b` appended |
| Framing.Feed | lib/parse_stream.js:59-64 | along the append-and-frame path of `_transform`, after at least one chunk the buffer holds no terminator, and it is never longer than the starting buffer and the chunks together |
| Framing.FeedIsSplitInvariant | lib/parse_stream.js:59-64 | feeding chunks one at a time gives the same lines, in order, and the same final buffer as feeding their concatenation |
| ParseStream.LineActions | lib/parse_stream.js:26-45 | each cut line produces exactly one event, perhaps followed by one push; a `stream-error` goes to the parser itself, every other event to the sink |
| ParseStream.HeartbeatIffEmptyLine | lib/parse_stream.js:42-45 | a line yields a heartbeat exactly when it is empty; then exactly one heartbeat and a `push()` with no value, and no tweet, api-errors or other |
| ParseStream.ParsedLineClassification | lib/parse_stream.js:26-36 | a non-empty line that parses: `tweet` and a push iff `data` is truthy; `api-errors` iff only `errors` is; `other` iff neither; all on the injected emitter |
| ParseStream.MalformedLine | lib/parse_stream.js:37-41 | a line that fails to parse yields exactly one `stream-error` on the parser itself carrying the raw line, no tweet and no push |
| ParseStream.ActionsOfAppend | lib/parse_stream.js:22-46 | the actions of consecutive runs of lines are each run's actions, in order |
| ParseStream.MalformedLineDoesNotStopFraming | lib/parse_stream.js:22-46 | a malformed line between others contributes only its `stream-error`; the lines around it are handled as if it were absent |
| ParseStream.ActionsFollowTerminatorOrder | lib/parse_stream.js:22-46 | events come in the order their terminators appear: the first line's events, then those of the rest of the buffer |
| ParseStream.ActionsOfSnoc | lib/parse_stream.js:22-46 | handling one more line appends exactly that line's actions |
| ParseStream.FramingLoopStep | lib/parse_stream.js:22-24 | the loop invariant of `parseJSON` survives one cut: lines handled plus lines still to frame is the framing of the starting buffer, and the log grows by the cut line's actions |
| ParseStream.TweetStreamParser.constructor | lib/parse_stream.js:5-16 | events go to the given emitter, or to the parser itself when there is none; the buffer is empty and the timer is armed |
| ParseStream.TweetStreamParser.HandleLine | lib/parse_stream.js:26-45 | one loop body appends exactly the line's classified actions to the log |
| ParseStream.TweetStreamParser.ParseJson | lib/parse_stream.js:18-47 | afterwards the buffer is what framing leaves and holds no `\r\n`; the log grows by every cut line's actions, in order |
| ParseStream.TweetStreamParser.Transform | lib/parse_stream.js:49-69 | an error iff the existing buffer exceeds 50 MiB, and then it is the fixed `Stream overproducing tweet data\n[object Object]` message and nothing but the timer changes; otherwise the buffer becomes old ++ chunk, or the chunk alone, framed; the timer is re-armed |
| ParseStream.TweetStreamParser.Flush | lib/parse_stream.js:74-81 | the buffer is discarded, and a trailing partial line produces no event |
| ParseStream.FeedTwoChunks | lib/parse_stream.js:49-69 | whenever what the first chunk leaves after framing is within the 50 MiB limit, two chunks fed one after the other frame exactly the lines, and leave exactly the buffer, of their concatenation |
| JsNumber.DefaultNaN | index.js:33-39 | the default when the number is NaN, the number itself otherwise |
| JsNumber.DigitPrefixOfDigits | index.js:61-62 | `parseInt` reads a string made only of digits to its end |
| JsNumber.DecimalStringValue | index.js:61-62 | the value of a decimal numeral is the number it writes |
| JsNumber.ParseIntOfDecimal | index.js:61-62 | a decimal header value reads back as exactly its number |
| JsNumber.ParseIntOfNonNumeric | index.js:61-62 | a value that does not start with a sign or a digit after white space reads as NaN |
| JsNumber.ParseIntOfUndefined | index.js:61-62 | a missing header (`parseInt(undefined)`) reads as NaN |
| RateLimit.IsTimedout | index.js:15-17 | an error is a timeout iff its code is `ECONNABORTED` or its `isTimeout` flag is set |
| RateLimit.RetriableStatus | index.js:23-27 | a status is retried iff it is 420, 429, 500, 502, 503 or 504 |
| RateLimit.RetriableClassification | index.js:138 | every timeout is retried; any other error is retried iff it has a response with a retriable status |
| RateLimit.NoHeadersDefaults | index.js:64-67 | without a response or without headers: remaining -1, reset one window from now |
| RateLimit.MissingRemainingReadsZero | index.js:59-61 | headers without `x-rate-limit-remaining`: remaining reads as 0, so the response is rate limited, whatever the other header says |
| RateLimit.MissingResetDefaults | index.js:59-62 | headers without `x-rate-limit-reset`: the reset is one window from now, whatever the other header says |
| RateLimit.NonNumericRemainingReadsZero | index.js:61 | a non-numeric remaining header reads as 0, so the request is rate limited |
| RateLimit.NonNumericResetDefaults | index.js:62 | a reset header that does not start with a sign or a digit also puts the reset one window from now |
| RateLimit.DecimalHeaders | index.js:59-63 | decimal headers read as their values, the reset in seconds turned into milliseconds |
| RateLimit.RateLimitedWait | index.js:69-70 | when rate limited the wait is the time to the reset when that is at most the 15-minute window, exactly the window otherwise, never more, and negative when the reset is past |
| RateLimit.TooManyRequestsWaitsForReset | index.js:54-77 | a 429 whose reset is five minutes ahead waits exactly 300000 ms |
| RateLimit.PastResetWaitIsNegative | index.js:62-70 | a reset time in the past gives a negative wait: no clamp at zero |
| RateLimit.SpacingWait | index.js:71-75 | otherwise the wait lies in [1000, 900000], equals the time since the last attempt when that is in range, and does not decrease as the time since the last attempt grows |
| RateLimit.NoResponseIsSpaced | index.js:59-75 | a failure without a response is never rate limited; its wait lies in [1000, 900000] |
| RateLimit.MissingHeadersWaitFullWindow | index.js:59-70 | a response with headers but neither rate-limit header (a 503 with an empty map, say) waits exactly the 900000 ms window |
| Client.SuperviseShape | index.js:122-157 | every run of the loop: no attempt exactly when the loop test fails at once; at most one attempt per step plus one pending; it gives up only when the loop test fails; a pending attempt comes only after every step and holds its token |
| Client.GiveUpAt | index.js:127-156 | when the loop test fails the loop makes no attempt, emits nothing and rejects with the `reconnects` count |
| Client.AttemptsAreBounded | index.js:123-129 | from any point with a bound `m >= 0`, at most `m + 1 - reconnects` more attempts; giving up reports `reconnects = m + 1` |
| Client.ConnectionIsBounded | index.js:123-156 | with `max_reconnects = m >= 0`, at most `m + 2` calls of `buildConnection`; exhaustion rejects with `reconnects = m + 1` after exactly `m + 2` |
| Client.UnboundedNeverGivesUp | index.js:127 | with `max_reconnects = -1` the loop never exits by the bound |
| Client.RetriableFailuresExhaust | index.js:127-156 | enough retriable failures exhaust exactly the bound: `reconnects = m + 1` |
| Client.MaxOneReconnectMakesThreeAttempts | index.js:122-156 | `max_reconnects: 1` against an endpoint that always times out: three attempts, then rejection with `reconnects = 2` |
| Client.CancellationResolves | index.js:136-137 | a cancellation resolves at once, after one attempt, ending with `disconnected` and no token left |
| Client.FatalErrorRejects | index.js:144-146 | an error that is neither a timeout nor a retriable status rejects at once with that same error, not with a reconnect count |
| Client.RetriableErrorReconnects | index.js:138-143 | a retriable failure emits `reconnect` with the error and the `rateLimiting` wait measured from `last_try`, and the loop continues |
| Client.CompletedContinues | index.js:132-133 | a `buildConnection` that resolves normally does not settle `connect`; the loop continues |
| Client.SettlementHasACause | index.js:132-146 | `connect` resolves only after a cancellation, and rejects with an error only when some attempt failed with that error and it was not retriable |
| Client.StreamClient.AtMostOneLiveToken | index.js:215-218 | at most one cancel token is live at a time, and it is the installed one, the newest created |
| Client.StreamClient.constructor | index.js:101-110 | the request and stream timeouts default to 30000 ms; no token, nothing emitted |
| Client.StreamClient.Disconnect | index.js:163-172 | always emits `disconnected`; returns true iff a token was installed, and that token is cancelled; afterwards no token is installed |
| Client.StreamClient.BuildConnection | index.js:214-218 | disconnects a token left installed, emitting `disconnected`, then installs a fresh token |
| Client.StreamClient.AfterAttempt | index.js:134-147 | once an attempt settles: a cancellation resolves, a retriable failure emits `reconnect` and goes on, any other failure rejects |
| Client.StreamClient.Turn | index.js:129-148 | one loop turn stores `params` and `max_reconnects`, builds a connection, and either settles as the run says or leaves the rest of the run to the next step |
| Client.StreamClient.Connect | index.js:122-157 | the result, the emitted events, the number of tokens created and whether a token remains are exactly those `Supervise` describes |
| Client.DisconnectTwice | index.js:163-172 | a second `disconnect` right after the first returns false; both emit `disconnected` |

## Left out

- The HTTP transport (axios) is not modelled: the base URL, the bearer token, keep-alive agents, decompression, `maxContentLength`, and the request itself. Each attempt's outcome is a scripted `Step` instead.
- Node stream plumbing is not modelled: `pipeline`, `DevNull`, the `Transform` base class, the writable stream option, `hose.destroy`/`hose.end`, the `once('disconnected')` listener, and the `connected` and `close` events. All of this is runtime machinery.
- Timers are not modelled. The liveness timer is only a deadline field that each chunk re-arms. Its firing appears as a `Failed` step whose error has `isTimeout` set. `sleep` and the `skip_sleep` switch are not modelled, because the wait only delays the next step.
- `JSON.parse` and the UTF-8 decoding of a line are a parameter. The `encoding` argument of `_transform` is not modelled, because it is stored and never read.
- A `null` chunk is not modelled. Node never hands one to `_transform`.
- No floating point is modelled:
  - The spacing backoff uses the exact integer `max(min(900000, now - last_retry), 1000)` instead of the floating-point `delta` round trip.
  - The reset time is `seconds * 1000` in exact integers. So a missing reset header gives exactly `now + 900000`.
  - Reset values beyond the range of `Date`, which make the JavaScript wait NaN, are not modelled.
- JsNumber.ParseInt: models `parseInt` without a radix, on integers. It does not model the loss of precision of very long numerals, because JavaScript numbers are doubles.
- `new Error({...})` and its message are not modelled. Neither is `last_error`, which is never set. The exhaustion rejection is modelled by its `reconnects` count alone.
- The user's own `disconnect` while a stream is already flowing is not modelled. Its `disconnected` event and the token it drops never appear in the model; the scripted step says only how the attempt then ended. So after such a disconnect and an unretriable failure, the source has logged `disconnected` and holds no token, while the model logs nothing and keeps the token.
- lib/filtered_stream.js is not part of this model. It wraps REST calls for filter rules and depends on a file that is not part of the source.
- twitstream.d.ts and types.d.ts are not part of this model. They hold type declarations only.
- Client.StreamClient.Connect: when the script runs out while an attempt is pending, the model returns `Pending`. The JavaScript promise would simply not yet have settled.
- Framing.Feed: models only the append-and-frame path of `_transform` (lib/parse_stream.js:59-64), where the 50 MiB guard never fires. It has no overflow guard, so it still cuts lines from a chunk that arrives while the buffer left after framing is larger than 52428800 bytes, where the source refuses that chunk. A large chunk full of terminators leaves a small buffer, and the source accepts the next chunk then, as `Feed` does. `FeedIsSplitInvariant` is claimed for that path only. The guard itself is modelled in `TweetStreamParser.Transform`.
- The `source` of a `stream-error` is the raw line bytes. In the source it is the line decoded as UTF-8, where invalid sequences become U+FFFD. So two different lines can carry the same `source` there, but not in the model.
- Listeners are assumed never to throw. In the source, a throwing `tweet`, `api-errors` or `other` listener runs inside the `try` (lib/parse_stream.js:27-41). That line then yields its event, no push, and a `stream-error`. A throwing `heartbeat` listener (line 43) escapes `parseJSON`.
- Client.StreamClient.Connect: takes `params` and `max_reconnects` as required arguments. The defaults of `connect` (`params = {}`, `max_reconnects = -1`, index.js:122) are not modelled. The caller passes `map[]` and `-1` for them.
