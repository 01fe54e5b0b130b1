# Transcript fetch service — Dafny model

This project models the logic of a small HTTP service that fetches video transcripts through an
external transcript library. Two variants of the service are modelled.

- **The enhanced service** (`app.py`) has three parts:
  - proxy resolution from two environment variables (`get_proxy_config`);
  - a retry loop around the library call (`get_transcript_with_retry`);
  - two routes that turn the loop's `(transcript, error)` pair into a reply.
- **The basic service** (`youtube_transcript_api/app.py`) makes a single library call. It maps
  the kind of exception raised to a status code.

The library call is an oracle. `rounds[i]` is what the world looks like during attempt `i`: the
two proxy environment variables as read at that attempt, and the library's response, either a
transcript or an exception. The retry model returns the result pair plus a trace of the events it
produced:
- `Call(video id, language list?, proxy?)` for each attempt that reaches building the library
  client and calling it, with the arguments that call receives (an exception raised while the
  client is built counts as that attempt's exception);
- `Delay` for each random sleep.

This is how the contracts can state how many calls and delays happen, in what order, and with
which arguments.

The retry operation appears in two forms, both proved equal to a closed-form reference:
- `Retry.RunFrom` / `Retry.GetTranscriptWithRetry` is the state machine
  `START -> ATTEMPTING(i) -> {SUCCESS, ATTEMPTING(i+1), FAILED}`.
- `Retry.RetryLoop` is the source's `for` loop with its early returns.
- The reference they are proved equal to is `FirstFetched`, `AttemptsMade`, `ExpectedResult` and `Trace`:
  - the result is the first fetched transcript among the first `max_retries` responses;
  - otherwise it is the string of the last attempt's exception;
  - with no attempt at all it is the fallback `"Max retries exceeded"`;
  - there is one call per attempt made, and one delay before every attempt except the first.

Python truthiness is written out:
- `if languages:` treats `None` and `[]` alike. In both cases the call gets no language argument.
- `if transcript:` treats an empty transcript as a failure. The route then answers 400 with
  `error` set to `None`.
- `if proxy_config:` is modelled as "a configuration was returned". A `GenericProxyConfig` object
  is assumed always truthy.
- `os.environ.get(name, '')` reads an unset variable as the empty string.

A failed fetch is the pair `(None, str(e))`; there is no separate flag saying the budget was used
up. 3 is only the default of `max_retries`, which can be any integer. The model therefore takes
`maxRetries: int`, and zero or negative values take the fallback path.

## Model

| member | source | states |
|---|---|---|
| Proxy.GetProxyConfig | app.py:20-30 | A proxy config is returned exactly when at least one of HTTP_PROXY / HTTPS_PROXY is non-empty. It then carries both values verbatim, with an unset variable read as the empty string. |
| Proxy.OneSidedProxy | app.py:22-29 | With only one variable set, the config still exists and carries the other endpoint as the empty string. |
| Retry.ForwardedLanguages | app.py:52-55 | The call gets the language list unchanged exactly when the list is present and non-empty. An empty list behaves like None. |
| Retry.FirstFetched | app.py:35-57 | The attempt that returns is the first one whose response is a transcript: every earlier response raised. |
| Retry.AttemptsMade | app.py:35-64 | The number of attempts is 0 when the budget is not positive. Otherwise it is between 1 and the budget. |
| Retry.RunFrom | app.py:35-62 | From attempt i, with every earlier attempt failed, the state machine returns the reference result. Its trace is exactly the events of attempts i up to the number of attempts made. |
| Retry.GetTranscriptWithRetry | app.py:32-64 | The result equals the reference. Exactly one of transcript and error is present. The trace is one call per attempt made, with a delay before each retry. With max_retries <= 0 there is no call and no delay, and the result is (None, "Max retries exceeded"). |
| Retry.RetryLoop | app.py:35-64 | The for-loop with early returns computes the same result and trace as the reference. The attempt counter never reaches max_retries inside the loop. |
| RetryProperties.TraceOfAt | app.py:38-55 | Position by position, the events of a run of attempts alternate: the call of each attempt, preceded by a delay unless it is attempt 0. |
| RetryProperties.TraceOfCounts | app.py:38-55 | A run of attempts makes one call per attempt, and one delay per attempt other than attempt 0. |
| RetryProperties.RetryTraceShape | app.py:35-57 | A fetch makes as many calls as attempts and one delay fewer. Calls sit at even positions with that attempt's arguments and delays at odd positions. Every delay comes right before the call of a retry, never before the first call. |
| RetryProperties.CallsForwardRequest | app.py:43-55 | Every call forwards the video id unchanged. It forwards the language list exactly when it is non-empty. It uses a proxy exactly when that attempt's environment has a non-empty variable, because proxy resolution is redone on every attempt. |
| RetryProperties.FirstAttemptSucceeds | app.py:35-57 | If the first response is a transcript: exactly one call, no delay, and the result is (transcript, None) with the transcript unchanged. |
| RetryProperties.SucceedsOnAttempt | app.py:38-62 | If attempts before k fail and attempt k succeeds (k within the budget): exactly k+1 calls, exactly k delays, and attempt k's transcript is returned with no error. |
| RetryProperties.AllAttemptsFail | app.py:59-61 | If every attempt fails: exactly max_retries calls and max_retries - 1 delays. The error is the string of the last attempt's exception. |
| RetryProperties.SingleAttemptBudget | app.py:35-61 | With max_retries = 1 there is exactly one call and no delay, whatever the response. The response decides the pair. |
| RetryProperties.LaterRoundsIgnored | app.py:57-62 | Responses after the first success, or beyond the budget, have no influence on the result or the trace. |
| Service.Respond | app.py:92-134 | Status 200 exactly for a non-empty transcript, with the transcript unchanged and segments = its length. Otherwise 400 with the pair's error and the route's suggestion. The video id and language code are echoed. |
| Service.TranscriptRoute | app.py:87-105 | The plain route succeeds exactly when the first fetched transcript within 3 attempts is non-empty. It makes 1 to 3 calls, each with the video id and no language list. Its reply is the reply selection applied to the reference result, and its trace is the reference trace. |
| Service.LanguageRoute | app.py:114-134 | The language route succeeds under the same condition. Every call carries exactly the preference list [language_code], and the reply echoes the code. Reply and trace equal the reply selection of the reference result and the reference trace. |
| Service.FirstFetchReportsSegments | app.py:90-98 | A non-empty first fetch gives status 200 with the transcript and its segment count, after one call and no delay. |
| Service.EmptyTranscriptIsError | app.py:92-105 | An empty transcript fetched successfully is reported as 400 with error None. |
| Service.ExhaustedFetchIs400 | app.py:90-105 | Three failed attempts of any exception kind give 400 with the last exception's string, after three calls and two delays. |
| SingleShot.StatusFor | youtube_transcript_api/app.py:28-51 | Disabled maps to 400, not-found and unavailable map to 404, any other exception maps to 500. Each status is produced by exactly those kinds. |
| SingleShot.TranscriptRoute | youtube_transcript_api/app.py:18-51 | One call, with no language list and no proxy, and no retry. Success returns the transcript unchanged with the implicit 200. An exception gives its kind's status. Not-found has the fixed not-found text, and a generic exception's string is the error text. |
| SingleShot.LanguageRoute | youtube_transcript_api/app.py:53-89 | One call with exactly [language_code] and no retry. Success echoes the code. Not-found gives 404 with the not-found-in-language text followed by the language code. A generic exception gives 500 with its string. |
| SingleShot.RoutesAgreeOnStatus | youtube_transcript_api/app.py:18-89 | Both routes give every response the same status, and 200 exactly for a transcript. |
| SingleShot.FixedErrorTexts | youtube_transcript_api/app.py:28-82 | The disabled and unavailable replies are fixed texts that ignore the exception's string and the requested language. |

## Left out

- The random back-off (`random.uniform(1, 3)` and `time.sleep`, app.py:39-40) is a `Delay` event with no duration. Floating-point time is not modelled.
- The transcript library (`YouTubeTranscriptApi`, `GenericProxyConfig`, the exception classes) is replaced by the oracle of rounds and the `ErrorKind` / `FetchError` datatypes. An exception raised while building the client counts as that attempt's exception.
- Retry.GetTranscriptWithRetry: assumes the oracle supplies a round for every attempt the budget allows (`maxRetries <= |rounds|`). The source has no such limit, because it can call the library any number of times.
- Flask routing, `jsonify` and serialisation are left out. Only the status code and the chosen body fields are modelled.
- The static routes `/`, `/health` and `/status` are left out. They return fixed payloads apart from the proxy flag, which is `GetProxyConfig(...).Some?`.
- `USER_AGENTS` (app.py:12-18) is never used by the code.
- The startup blocks (`__main__`, the `PORT` variable, `app.run`) are left out.
- The outer `except` handlers of the enhanced routes (app.py:107-112, 136-142) are dead code, because `get_transcript_with_retry` catches every exception itself.
- Concurrency across requests is left out: the core keeps no shared mutable state.
- Idempotence of proxy resolution under an unchanged environment is immediate, because `GetProxyConfig` is a function of the environment. No separate lemma states it.
