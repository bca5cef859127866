# ShiroSight log collection, modelled in Dafny

ShiroSight collects application logs from AWS CloudWatch Logs. This project models and proves the core of that collection:

- **Retry decorator** (`circuit_breaker`). It retries an asynchronous operation a bounded number of times. Each attempt has a deadline, and a timeout is fatal.
- **Timestamp parser** (`parse_timestamp`). It reads `%Y-%m-%dT%H:%M:%S.%fZ` text into epoch milliseconds.
- **CloudWatch collector** (`CloudwatchCollector`). It builds the request parameters and lists a group's streams through the retry decorator. It fetches each stream's events page by page along the forward-token chain and gathers all streams' events.
- **Dataclasses** (`LogStream` and `LogEvent`). Their timestamp validation renders the value as ISO 8601 with milliseconds and checks the text against a pattern.
- **Error hierarchy** (`CloudWatchError`) and the texts its subclasses carry.
- **Runner** (`ShiroSightRunner`). It holds the configuration, checks the Athena parameters and hands the results of `run` back in order.
- **Python collect-logs Lambda.** It validates the parameters, collects the filtered events page by page and maps outcomes to status codes.
- **TypeScript collect-logs handler.** It checks the body's parameters on truthiness, sends the query, projects the returned events and maps outcomes to status codes.

There is one module per source file:

- `CircuitBreaker`
- `Timestamps`
- `Cloudwatch`
- `CollectorTypes`
- `CloudWatchErrors`
- `Runner`
- `CollectLogsLambda`
- `QueryHandler`

Two more modules support them:

- `Common`: Python values and truthiness, decimal digits and padding.
- `Calendar`: the proleptic Gregorian day numbers `datetime` uses.

Services, clocks and parsers the code calls are parameters of the model:

- The describe call is a function from request parameters to the outcome of each successive attempt.
- A stream's `get_log_events` replies are a finite script.
- The Lambda's paginator maps a request to its pages.
- `JSON.parse` and the TypeScript client's `send` are functions.

A loop that updates state is a method with its loop invariants. Its contract ties the result to a recursive function, and the lemmas are proved about that function.

## Model

| member | source | states |
|---|---|---|
| CircuitBreaker.Wrapper | src/ShiroSightUtilities/circuit_breaker.py:26-40 | The loop gives exactly what the recursive specification `CircuitBreaker.Retry` gives: the result of the retry function and the number of invocations. With no attempts allowed it raises "Maximum number of attempts (N) exceeded". Otherwise it invokes the operation between 1 and `max_attempts` times. |
| CircuitBreaker.RetrySkipsFailures | src/ShiroSightUtilities/circuit_breaker.py:35-39 | Non-timeout failures before attempt k only advance the counter. |
| CircuitBreaker.SucceedsAfterFailures | src/ShiroSightUtilities/circuit_breaker.py:28-32 | k failures (k < max) followed by a success return that value after k+1 invocations. |
| CircuitBreaker.TimeoutIsFatal | src/ShiroSightUtilities/circuit_breaker.py:33-34 | A timeout on any attempt raises `TimeoutError("Operation timed out after N seconds")` at once. No retry follows. |
| CircuitBreaker.ExhaustsAttempts | src/ShiroSightUtilities/circuit_breaker.py:35-38 | When every attempt fails, there are exactly `max_attempts` invocations. The text raised is "label: last failure". |
| CircuitBreaker.RetryShape | src/ShiroSightUtilities/circuit_breaker.py:26-40 | The result is decided by the last invocation, and every earlier invocation failed. |
| CircuitBreaker.DefaultTimeoutText | src/ShiroSightCollector/cloudwatch.py:57-61 | With the default deadline of 30 the timeout text is "Operation timed out after 30 seconds". |
| Timestamps.ParseTimestampValue | src/ShiroSightUtilities/timestamps.py:5-8 | Specifies `Timestamps.ParseTimestamp`. A parsed value is the instant's whole milliseconds, truncated toward the epoch. Before the epoch this rounds up. |
| Timestamps.ParseTimestampMonotone | src/ShiroSightUtilities/timestamps.py:5-8 | A later instant never parses to a smaller number. |
| Timestamps.EpochIs1970 | src/ShiroSightUtilities/timestamps.py:8 | 1970-01-01T00:00:00 is 0 milliseconds. |
| Timestamps.EpochMicrosStrictlyMonotone | src/ShiroSightUtilities/timestamps.py:7-8 | A strictly later valid date-time has strictly more microseconds since the epoch. |
| Timestamps.EpochMillisRoundTrip | src/ShiroSightUtilities/timestamps.py:7-8 | A valid date-time on a whole millisecond is recovered from its millisecond value. |
| Timestamps.FromMillis | src/collector/types.py:19 | `fromtimestamp(ms/1000, utc)` gives a valid calendar date and clock fields in range, with whole milliseconds. |
| Timestamps.FromMillisRoundTrip | src/collector/types.py:19 | Converting milliseconds to a date-time and back is the identity. |
| Timestamps.ClockOf | src/collector/types.py:19 | The millisecond of the day splits into hour, minute, second and microsecond fields in range that recombine to it. |
| Calendar.DateRoundTrip | src/collector/types.py:19 | Converting a valid date to its day number and back gives the same date. |
| Calendar.DayNumberStrictlyMonotone | src/ShiroSightUtilities/timestamps.py:7-8 | Day numbers increase strictly with the date. |
| CloudWatchErrors.Text | src/collector/exceptions.py:7-32 | `str(e)` of every subclass ends with ": " and the stored message. |
| CloudWatchErrors.TextDistinguishesKinds | src/collector/exceptions.py:9-32 | Errors of different kinds never have the same text. |
| CollectorTypes.IsoMillis | src/collector/types.py:19-21 | `strftime('%Y-%m-%dT%H:%M:%S.%f')[:-3] + 'Z'` is the date-time's text with its microseconds cut to milliseconds. |
| CollectorTypes.PadMillis | src/collector/types.py:21 | Six microsecond digits of a whole millisecond end in "000", so `[:-3]` leaves the three millisecond digits. |
| CollectorTypes.FirstFailure | src/collector/types.py:10-35 | No failure exactly when every check passes. Otherwise the result is the first failing check. |
| CollectorTypes.ValidateTimestampsFirstFailure | src/collector/types.py:9-35 | Specifies `CollectorTypes.ValidateTimestamps`. `validate_timestamps` passes exactly when every named field passes. Otherwise it raises the error of the first field that fails, carrying that value. |
| CollectorTypes.ValidateTimestampPasses | src/collector/types.py:12-30 | Specifies `CollectorTypes.ValidateTimestamp`. A value passes exactly when it is an `int` (a `bool` included) whose instant falls in the years 1000 to 9999. |
| CollectorTypes.IsoTextMatches | src/collector/types.py:21-30 | A rendering matches the pattern exactly when its year has four digits. |
| CollectorTypes.IsoTextFields | src/collector/types.py:21 | The rendering of a valid date-time on a whole millisecond, with year ≥ 1000, has the layout `parse_timestamp` reads and reads back as that date-time. |
| CollectorTypes.IsoMillisRoundTrip | src/collector/types.py:19-26 | Round trip: a timestamp that passes validation is parsed by `parse_timestamp` back from its rendering to the same milliseconds. |
| CollectorTypes.ParsedTextIsRendering | src/collector/types.py:21-26 | Reverse round trip: a text of the validated shape that `parse_timestamp` accepts, with year ≥ 1000, is the rendering of the value it parses to. |
| CollectorTypes.NewLogStream | src/collector/types.py:39-45 | Construction succeeds exactly when `lastEventTime` passes, and keeps the fields. Otherwise it raises that check's error. |
| CollectorTypes.NewLogEvent | src/collector/types.py:48-55 | Construction succeeds exactly when `timestamp` passes, and keeps the fields. Otherwise it raises that check's error. |
| CollectorTypes.ChecksAt | src/collector/types.py:10-11 | The i-th check is the check of the i-th named field. |
| Cloudwatch.StreamsPageParams | src/ShiroSightCollector/cloudwatch.py:78-86 | The keys are group, order and direction, plus `nextToken` only when the token is truthy, with their values. |
| Cloudwatch.EventsPageParams | src/ShiroSightCollector/cloudwatch.py:133-144 | The keys are group and stream, plus `startTime`, `endTime` and `nextToken` only when truthy, with their values. A start or end of 0 is dropped. |
| Cloudwatch.StreamNamesOf | src/ShiroSightCollector/cloudwatch.py:104 | The names are one per stream, in order, exactly when every stream has a name. Otherwise a `KeyError` is raised. |
| Cloudwatch.GetLogStreamNames | src/ShiroSightCollector/cloudwatch.py:88-109 | Exactly one page is requested, because the exit test compares the token with itself. The result is that page's names or the error raised. |
| Cloudwatch.ListStreamsAfterFailures | src/ShiroSightCollector/cloudwatch.py:97-109 | After fewer than 100 failed attempts, a successful describe gives that page's names in order. |
| Cloudwatch.ListStreamsTimeout | src/ShiroSightCollector/cloudwatch.py:57-61 | A timed-out describe makes the listing raise "Operation timed out after 30 seconds". |
| Cloudwatch.ListingStopsAfterFirstPageAsWritten | src/ShiroSightCollector/cloudwatch.py:102-107 | As written, the listing returns the first page's names however long the token chain. When a second page names a stream, the result misses it. |
| Cloudwatch.ListFromChain | src/ShiroSightCollector/cloudwatch.py:88-109 | The listing as documented ("all log stream names") ends on a chain of readable pages, and returns every page's names in page order. |
| Cloudwatch.ListFromFirstPage | src/ShiroSightCollector/cloudwatch.py:102-107 | The documented listing and the listing as written agree when the first page raises or ends the chain. |
| Cloudwatch.ReadStreamsPage | src/ShiroSightCollector/cloudwatch.py:103-105 | One pass of the listing loop gives the page's names, or the error reading it raises, and the token the page passes on. |
| Cloudwatch.GetAllLogStreamNames | src/ShiroSightCollector/cloudwatch.py:97-109 | The listing loop with the intended exit test requests pages until `nextToken` is falsy. It gives exactly the documented listing `ListFrom`. |
| Cloudwatch.FetchStep | src/ShiroSightCollector/cloudwatch.py:169-188 | One loop pass is either where the loop ends, or a step after which the rest of the loop completes the stream's result. |
| Cloudwatch.FetchLogStream | src/ShiroSightCollector/cloudwatch.py:146-190 | The events and the requests made are those of the specification. A bound that does not parse ends the loop with no events and no request. |
| Cloudwatch.FetchFromRequests | src/ShiroSightCollector/cloudwatch.py:166-183 | Each request after the first carries the `nextForwardToken` of the reply before it, which continued the chain. At most one request goes past the replies. |
| Cloudwatch.FetchFromStops | src/ShiroSightCollector/cloudwatch.py:169-188 | The loop stops at an exception, past the replies, or at a reply ending the chain. Its events are those of all replies received, in order. |
| Cloudwatch.PartialResultOnError | src/ShiroSightCollector/cloudwatch.py:180-188 | An exception after a chain of replies keeps exactly the events of those replies. |
| Cloudwatch.EchoRepeatsRequestAsWritten | src/ShiroSightCollector/cloudwatch.py:181-184 | As written, a reply that hands back the token it was sent, with no `nextToken` key, makes the loop send the same request again. |
| Cloudwatch.NoStopWithoutNextTokenAsWritten | src/ShiroSightCollector/cloudwatch.py:169-184 | As written, replies with a truthy `nextForwardToken` and no `nextToken` never end the loop. Every reply is requested, and one request more. |
| Cloudwatch.GuardedStopsOnEcho | src/ShiroSightCollector/cloudwatch.py:181-184 | With the stop test compared against the token sent, a reply echoing that token ends the loop at once and keeps its events. |
| Cloudwatch.ParamsDifferByToken | src/ShiroSightCollector/cloudwatch.py:133-144 | Requests for two different tokens, the second truthy, are different requests. |
| Cloudwatch.GuardedNeverRepeats | src/ShiroSightCollector/cloudwatch.py:169-184 | With the intended stop test, no two consecutive requests are the same. |
| Cloudwatch.GatherAppend | src/ShiroSightCollector/cloudwatch.py:217-221 | Flattening distributes over concatenation of results. |
| Cloudwatch.GatherMembership | src/ShiroSightCollector/cloudwatch.py:214-221 | An event is gathered exactly when a task that returned holds it. Nothing comes from failed tasks. |
| Cloudwatch.GetLogEvents | src/ShiroSightCollector/cloudwatch.py:192-221 | The result is the gathered events of one fetch per name, in order. |
| Cloudwatch.CollectLogs | src/ShiroSightCollector/cloudwatch.py:223-245 | A listing error propagates unchanged. Otherwise the result is the gathered events of the listed streams. |
| Runner.MissingAthenaParams | src/collector/main.py:55-63 | A parameter is reported missing exactly when Athena logs are collected and its value is falsy. Bucket comes before prefix. |
| Runner.AthenaParamsErrorText | src/collector/main.py:55-68 | Specifies `Runner.AthenaParamsError`. The check raises exactly when Athena logs are collected and the bucket or prefix is falsy. It gives the exact text for each case. |
| Runner.ShiroSightRunner.constructor | src/collector/main.py:22-53 | Every field is set. The Athena collector, bucket and prefix are kept only when Athena logs are collected. |
| Runner.ShiroSightRunner.S3ResultIndex | src/collector/main.py:87 | The uploader's result is the last task started. |
| Runner.ShiroSightRunner.Run | src/collector/main.py:70-90 | Each gathered result is handed back under its own name. There is no Athena result without an Athena collector. |
| Runner.NewRunner | src/collector/main.py:22-68 | Construction fails exactly when the Athena check fails, with its text. |
| Runner.ConstructionErrorAsWritten | src/collector/main.py:44-45 | As written, collecting Athena logs always raises the constructor's `TypeError`. |
| Runner.MissingParamsUnreachableAsWritten | src/collector/main.py:45 | Wherever the Athena check would raise, the caller sees a different error instead. |
| CollectLogsLambda.ParseArg | functions/collect-logs/app.py:39-43 | Parsing succeeds exactly when the value is a `str` that `parse_timestamp` accepts. A value that is not a `str` raises a `TypeError`. |
| CollectLogsLambda.ValidateParamsCases | functions/collect-logs/app.py:45-62 | Specifies `CollectLogsLambda.ValidateParams`. Status is True exactly when all four keys are present and both times parse. Start and end are not ordered. Key presence is checked first, then the start, then the end, each with its message. |
| CollectLogsLambda.CollectPages | functions/collect-logs/app.py:72-81 | The loop's result is the pages' events in page order, or the first page exception. |
| CollectLogsLambda.CollectLogs | functions/collect-logs/app.py:64-81 | One request is made for the stream between the parsed times, with page size 1000, and its pages are collected. |
| CollectLogsLambda.CollectedFails | functions/collect-logs/app.py:72-79 | Collection fails exactly when a page raises, with the first raising page's text. |
| CollectLogsLambda.CollectedMembership | functions/collect-logs/app.py:69-81 | An event is collected exactly when a page holds it. A missing `events` key counts as empty. |
| CollectLogsLambda.LambdaHandler | functions/collect-logs/app.py:84-116 | The handler answers 400 exactly on failed validation, with its message. It answers 200 exactly when collection succeeds, with the events. Otherwise it answers 500 with the prefixed text. |
| QueryHandler.ProjectEvents | functions/collect-logs/main.ts:45-49 | Each event maps to one projected event in order, keeping timestamp, message and stream name. Undefined `events` gives `[]`. |
| QueryHandler.Project | functions/collect-logs/main.ts:45-48 | The projection has one event per event, each with the same three fields. |
| QueryHandler.ProjectionForgetsOnlyDroppedFields | functions/collect-logs/main.ts:45-49 | Two replies project alike exactly when they agree event by event on the three kept fields. |
| QueryHandler.Handler | functions/collect-logs/main.ts:52-91 | 400 exactly when a non-null body lacks a truthy required parameter. 200 exactly when all are present and the query resolves, with the projected events. A parse error gives 500 with its message. |
| QueryHandler.AbsentBodyIsBadRequest | functions/collect-logs/main.ts:56-66 | An absent or empty body is answered 400 with the missing-parameters message. |
| QueryHandler.FalsyRequiredIsBadRequest | functions/collect-logs/main.ts:59-66 | A required parameter that is absent, `0`, `""`, `false` or `null` gives 400. |
| QueryHandler.NonObjectBodyIsBadRequest | functions/collect-logs/main.ts:56-66 | A body that parses to a number, string, boolean or array gives 400. |

## Findings

| source | as written | input that shows it | evidently intended | confidence | as-written member | corrected member |
|---|---|---|---|---|---|---|
| src/collector/main.py:45 | `__init__` passes four arguments to `AthenaLogsCollector`, whose constructor (src/collector/athena.py:6) takes at most two, so a `TypeError` is raised before `__post_init__` | `collect_athena_logs=True`, no bucket, no prefix: the caller gets the `TypeError`, not the `ValueError` naming both parameters | construct the collector and then run the Athena parameter check | high (not executed) | Runner.MissingParamsUnreachableAsWritten | Runner.NewRunner |
| src/ShiroSightCollector/cloudwatch.py:105-106 | the exit test compares `next_token` with `response.get("nextToken")`, the value it was just read from, so the loop always ends after the first page | a group whose first describe page carries `nextToken` "t" and whose second page names a stream: that stream is not listed | follow `nextToken` until it is falsy and list every page's names, as the docstring says | high (not executed) | Cloudwatch.ListingStopsAfterFirstPageAsWritten | Cloudwatch.GetAllLogStreamNames |
| src/ShiroSightCollector/cloudwatch.py:183 | the stuck-token test compares `nextForwardToken` with `response.get("nextToken")`, a key `get_log_events` replies do not carry, so it never fires | a stream whose last reply hands back the token it was sent (`nextForwardToken` "f" for a request with token "f"): the same request is sent again, without end | stop when the reply's `nextForwardToken` equals the token sent | medium (not executed) | Cloudwatch.EchoRepeatsRequestAsWritten | Cloudwatch.GuardedStopsOnEcho |

## Left out

- Timestamps.FromMillis: computes `ms / 1000` exactly. The source divides in double precision, which is exact to the microsecond only within about 2^33 seconds of the epoch (the years 1698 to 2242). Farther out, the rendered millisecond can be a neighbour of the true one. For example, worked out on the double, -30610224000004 gives microsecond 995998 and so ".995Z", where the model gives ".996Z".
- CollectorTypes.IsoMillisRoundTrip: the round trip holds in exact arithmetic only.
  - On the parse side, `int(dt.timestamp() * 1000)` multiplies a double `seconds + us/1e6`, and the product can fall just below the whole millisecond. Truncation then drops one millisecond, for dates of any year. Worked out on the double, "1970-01-01T00:00:01.001Z" gives 1000, and 1073741824001 renders correctly but parses back to 1073741824000.
  - On the render side, the division above can shift the millisecond outside the years 1698 to 2242.
- Timestamps.ParseTimestampValue: states the exact millisecond count. For the double product described above, the source can return one less, so "1970-01-01T00:00:01.001Z" gives 1000, not 1001.
- Timestamps.EpochMillisRoundTrip: holds for the exact millisecond count. With the source's double product, a date-time such as 1970-01-01T00:00:01.001 parses to 1000, which does not convert back to it.
- CollectorTypes.ParsedTextIsRendering: holds for the exact parse. The source parses "1970-01-01T00:00:01.001Z" to 1000, whose rendering ends ".000Z".
- Timestamps.ParseTimestamp: accepts every date from 0001-01-01 on. CPython's naive `timestamp()` also converts the instant a day earlier, so for any text dated 0001-01-01 it raises `ValueError("year 0 is out of range")`. The model returns a value there, so `CollectLogsLambda.ParseArg` and `ValidateParams` accept such a text where the source answers 400.
- Runner.ShiroSightRunner.Run: the results are parameters. `asyncio.gather(*tasks)` at src/collector/main.py:83 has no `return_exceptions`, so an exception raised by any collector task propagates out of `run` and no results are returned. That error path is not modelled.
- CollectorTypes.ValidateTimestampPasses: assumes a CPython that writes `%Y` without zero padding on Linux (releases before 3.13). Where `%Y` is padded to four digits, years 1 to 999 render as "0999-…" and pass too. The same assumption underlies CollectorTypes.IsoTextMatches.
- Float arithmetic and the local time zone. `int(dt.timestamp() * 1000)` is modelled as exact integer arithmetic in UTC, with truncation toward zero. The Lambda runtime's zone is UTC.
- Single-digit fields and non-ASCII digits in `strptime`, for Timestamps.ParseTimestamp and CollectLogsLambda.ParseArg. `strptime` also accepts one-digit month, day, hour, minute and second fields and a space-padded day. Its `\d` matches any Unicode decimal digit, such as full-width "２０２４". The model reads two ASCII digits per field only, so it rejects such texts.
- `OSError` and `OverflowError` from `fromtimestamp` at platform extremes. A year outside 1..9999 is modelled as CPython's `ValueError` text.
- Regular-expression corner cases. The pattern is matched against texts without line breaks; `$` before a trailing newline does not arise for rendered timestamps.
- Concurrency. The semaphores, `asyncio.gather` scheduling, `asyncio.timeout` wall-clock timing and event-loop setup are not modelled. A deadline that elapses is an outcome `Timeout` of the attempt.
- The service clients. boto3/aioboto3 sessions and clients, and opening the client for the stream listing, are not modelled. The services are parameters.
- Cloudwatch.FetchLogStream: a stream's replies are a finite script. An endless token chain is not modelled, and a request past the script fails like a rejected request.
- Cloudwatch.FetchLogStream: the timestamp parser is a parameter so that the loop's proof does not unfold it. `GetLogEvents` passes `parse_timestamp` itself.
- Logging calls and `logging.basicConfig`. They are side effects only.
- CollectLogsLambda.CollectLogs: requires parameters that pass validation, as its only caller ensures. The `KeyError` and parse errors for other inputs are not modelled.
- CollectLogsLambda.CollectLogs: a failure to open the client acts as an exception of the first page.
- The Lambda `context` argument is unused by the source and left out.
- QueryHandler.Handler: the response body is the object given to `JSON.stringify`, not its JSON text. Numbers are exact reals, and JSON text has no NaN.
- QueryHandler.Handler: property reads see own properties of parsed objects only. The prototype chain is not modelled.
- Cloudwatch.GetAllLogStreamNames: the corrected listing is defined for services whose token chain ends (`ChainEnds`). An endless chain is not modelled.
- Cloudwatch.GuardedStopsOnEcho: the corrected stop test is stated on the recursive definition `FetchFromGuarded`. `FetchLogStream`, `GetLogEvents` and `CollectLogs` keep the listing and the stop test as written.
- The uploader and the Athena collector's behaviour. src/collector/upload.py is not part of this model, and the Athena collector has no collecting method. `Run` takes their results as parameters.
- src/ShiroSightCollector/main.py. Its `__post_init__` reads attributes `__init__` never sets, so the only behaviour left is failed construction.
