# OutboundIQ for Laravel: a verified model of the call-capture and delivery logic

This project models, in Dafny, the three pieces of sequential logic of the
`laravel-outboundiq` package that sit between an application's outbound HTTP
calls and the OutboundIQ collector:

- **The HTTP-client listener** (`TrackHttpRequest`). It keeps two process-local maps keyed by
  request identity: start times and the user context captured at send time.
  On a response or a connection failure it hands exactly one `http` record to
  the agent's ingress `trackApiCall`, then forgets the request. The model is a
  class with two `map` fields keyed by request objects, so the key is object
  identity, as `spl_object_hash` gives it. The agent is a `Collector` object
  whose `calls` sequence grows by one record per `trackApiCall`.
- **The Guzzle tracking middleware** (`OutboundIQGuzzleClient`). Whichever way the next
  handler's promise settles, it reports one `guzzle` record and passes the
  settlement on unchanged. Failures are first classified into
  `timeout`, `dns_error`, `connection_error`, `http_error` or `unknown_error`.
  Body streams are modelled as objects with content, a read position and a
  seekable flag. The constructor guard installs the tracking handler stack
  only when the configuration sets no `handler`.
- **The queued delivery job** (`SendOutboundMetricsJob`). One attempt JSON-encodes the batch and
  base64-encodes the JSON (section 4 of RFC 4648, with padding). It configures
  a curl handle option by option and issues one POST. The attempt completes
  only on curl error 0 with HTTP 200 or 201; anything else makes the host
  queue retry (3 tries, 5 seconds apart). A batch that cannot be encoded ends
  the job without a request.

Abstractions: clock readings (`microtime`) are integers passed to each
handler. The framework state that `captureUserContext` consults is an
`Env` value: console or not, the current user, and whether the `queue.worker`
binding answers yes, no, or raises. `json_encode` and `curl_exec` are function
parameters of `Handle`. The base64 encoder is concrete, with a decoder proved
to be its inverse.

Three behaviours of the code that a reader might expect to be otherwise, modelled as written:

- the DNS test is the case-sensitive substring `Could not resolve`
  (`GuzzleClient.LowerCaseResolveIsConnectionError`);
- the job completes only on 200 and 201, not on every 2xx
  (`MetricsJob.OtherAnswersRetry`);
- body capture rewinds the stream to position 0. That restores the caller's
  position only when the stream was at 0 to begin with.

## Model

| member | source | states |
|---|---|---|
| `Tracking.Duration` | src/Listeners/TrackHttpRequest.php:147-150 | elapsed time in ms is a whole multiple of 1000 per clock second; it is non-negative exactly when the clock did not run backwards, and 0 exactly when no time passed |
| `Tracking.TagsDistinct` | src/Listeners/TrackHttpRequest.php:97-109 | the context tags (`authenticated`, `anonymous`, `job`, `console`), the request-type tags (`http` here, `guzzle` in the middleware, and `manual`, `curl`, `stream` used by the agent's own interceptors outside this repository) and the error-type tags of the middleware are distinct strings within each kind |
| `Listener.CaptureUserContext` | src/Listeners/TrackHttpRequest.php:95-118 | outside the console the context is `authenticated` iff a user is logged in, else `anonymous`; in the console it is `job` iff `queue.worker` is bound, else `console` (also when the check raises); never `manual`; user id and class are reported iff a user is present |
| `Listener.StartTime` | src/Listeners/TrackHttpRequest.php:131-134 | the recorded start time, or the current reading when none was recorded; then the duration is 0, and with a monotone clock it is never negative |
| `Listener.ContextFor` | src/Listeners/TrackHttpRequest.php:44 | the context captured at send time when there is one, a fresh capture otherwise |
| `Listener.TrackHttpRequest.constructor` | src/Listeners/TrackHttpRequest.php:13-21 | both maps start empty and the invariant (same keys in both maps) holds |
| `Listener.TrackHttpRequest.HandleSending` | src/Listeners/TrackHttpRequest.php:26-35 | stores the start time and the captured context under the request; no other key changes; nothing is reported |
| `Listener.TrackHttpRequest.Forget` | src/Listeners/TrackHttpRequest.php:139-142 | the request leaves both maps; all other entries are unchanged |
| `Listener.TrackHttpRequest.HandleResponse` | src/Listeners/TrackHttpRequest.php:40-62 | exactly one `http` record with the response's status, headers and body and the send-time context, or a fresh capture exactly when the request has no recorded start time (the two maps share their keys); then the request is gone from both maps and nothing else changed; duration 0 without a send, non-negative with a monotone clock |
| `Listener.TrackHttpRequest.HandleFailure` | src/Listeners/TrackHttpRequest.php:67-90 | exactly one `http` record with status 0, no response headers, null response body and the exception's message; same context, cleanup and duration guarantees |
| `Listener.TrackHttpRequest.SendAndReceive` | src/Listeners/TrackHttpRequest.php:26-62 | a send followed by its response reports one record carrying the sender's context (not the one in force at completion) and the send-to-answer duration, and leaves no bookkeeping behind |
| `GuzzleClient.Contains` | src/Http/OutboundIQGuzzleClient.php:77-81 | `strpos(...) !== false` holds exactly when the needle occurs at some position of the text (case-sensitive) |
| `GuzzleClient.Classify` | src/Http/OutboundIQGuzzleClient.php:71-85 | each of the five error types holds exactly in its case: connect + "timed out" is `timeout`; connect + "Could not resolve" without "timed out" is `dns_error`; other connect failures are `connection_error`; a request exception with a response is `http_error`; all else is `unknown_error`; the status is the response's for `http_error` and 0 otherwise |
| `GuzzleClient.TimeoutBeforeDns` | src/Http/OutboundIQGuzzleClient.php:77-80 | a message with both "timed out" and "Could not resolve" classifies as `timeout` |
| `GuzzleClient.LowerCaseResolveIsConnectionError` | src/Http/OutboundIQGuzzleClient.php:79 | "could not resolve host" (lower case) is a `connection_error`, not a `dns_error` |
| `GuzzleClient.CurlResolveMessageIsDnsError` | src/Http/OutboundIQGuzzleClient.php:79-80 | curl's "Could not resolve host" message is a `dns_error` |
| `GuzzleClient.BodyStream.Capturable` | src/Http/OutboundIQGuzzleClient.php:33-37 | a body is captured exactly for seekable streams, and it is the content from the read position on |
| `GuzzleClient.BodyStream.GetContents` | src/Http/OutboundIQGuzzleClient.php:35 | returns the content from the read position on and moves the position to the end |
| `GuzzleClient.BodyStream.Rewind` | src/Http/OutboundIQGuzzleClient.php:36 | moves the position to 0 and leaves the content alone |
| `GuzzleClient.CaptureBody` | src/Http/OutboundIQGuzzleClient.php:33-43 | a seekable stream yields its remaining content and is left at position 0; a non-seekable one yields null and keeps its position; the content never changes |
| `GuzzleClient.OnFulfilled` | src/Http/OutboundIQGuzzleClient.php:29-59 | exactly one `guzzle` record with the response's status and headers and both captured bodies; the same response is returned; each body keeps its content and ends at 0 if seekable, at its old position otherwise |
| `GuzzleClient.OnRejected` | src/Http/OutboundIQGuzzleClient.php:60-103 | exactly one `guzzle` record with the classified status and error type, the reason's message, no response headers and null response body; the same reason is rethrown; the request body keeps its content and ends at 0 if seekable, at its old position otherwise |
| `GuzzleClient.Track` | src/Http/OutboundIQGuzzleClient.php:25-105 | whichever way the promise settles, the settlement reaches the caller unchanged and exactly one `guzzle` record is appended: on fulfilment the record of the fulfilment handler (status, headers, both captured bodies), on rejection the classified record (status and type from the classifier, the reason's message, no response headers, null body); every stream it read keeps its content and ends at position 0 if seekable, at its old position otherwise |
| `GuzzleClient.WithTracking` | src/Http/OutboundIQGuzzleClient.php:20-109 | a configuration that sets `handler` passes through unchanged; otherwise (absent or null) `handler` becomes the tracking stack and every other key keeps its value |
| `GuzzleClient.WithTrackingIdempotent` | src/Http/OutboundIQGuzzleClient.php:20 | applying the guard twice gives the same configuration as once |
| `GuzzleClient.OutboundIQGuzzleClient.constructor` | src/Http/OutboundIQGuzzleClient.php:16-112 | keeps the agent and hands Guzzle the guarded configuration; the configuration defaults to empty |
| `Base64.CharOf` | src/Jobs/SendOutboundMetricsJob.php:86 | every alphabet character decodes back to its own index, and none is the pad character |
| `Base64.Encode` | src/Jobs/SendOutboundMetricsJob.php:86 | the encoding of n bytes is 4·⌈n/3⌉ characters long |
| `Base64.KnownAnswersShort` | src/Jobs/SendOutboundMetricsJob.php:86 | the encoding agrees with the RFC 4648 section 10 vectors "", "M", "Ma", "Man" |
| `Base64.KnownAnswersFoobar` | src/Jobs/SendOutboundMetricsJob.php:86 | the encoding agrees with the RFC 4648 section 10 vectors "foob" and "foobar" |
| `Base64.KnownAnswerHighAlphabet` | src/Jobs/SendOutboundMetricsJob.php:86 | bytes 251, 255 encode as `+/8=`, fixing alphabet positions 62 and 63 |
| `Base64.DecodeEncode` | src/Jobs/SendOutboundMetricsJob.php:86 | decoding the encoding gives back exactly the bytes that were encoded |
| `Base64.EncodeInjective` | src/Jobs/SendOutboundMetricsJob.php:86 | two byte strings with the same encoding are equal |
| `MetricsJob.DeliveryHeaders` | src/Jobs/SendOutboundMetricsJob.php:93-97 | exactly three headers in order, `Authorization: Bearer <key>`, `Content-Type: application/json`, `User-Agent: OutboundIQ-Laravel/<version>`; the key and version can be read back from them |
| `MetricsJob.DeliveryOptions` | src/Jobs/SendOutboundMetricsJob.php:90-101 | exactly the eight options: POST, connect timeout 5, overall timeout as stored, the three headers, the body, return-transfer on, peer verification on, host verification 2 |
| `MetricsJob.CurlHandle.SetOpt` | src/Jobs/SendOutboundMetricsJob.php:90 | the option takes the new value and every other option keeps its own |
| `MetricsJob.Decide` | src/Jobs/SendOutboundMetricsJob.php:107-110 | the attempt completes exactly when curl reports error 0 and HTTP 200 or 201; otherwise it is retried, carrying that HTTP code and curl error |
| `MetricsJob.OtherAnswersRetry` | src/Jobs/SendOutboundMetricsJob.php:107 | 202, 204, 500 and a curl error on a 200 all lead to a retry |
| `MetricsJob.SendOutboundMetricsJob.constructor` | src/Jobs/SendOutboundMetricsJob.php:26-73 | the five inputs are stored unchanged (timeout defaults to 10) and the policy is 3 tries with a 5-second backoff |
| `MetricsJob.SendOutboundMetricsJob.Handle` | src/Jobs/SendOutboundMetricsJob.php:78-113 | an unencodable batch ends normally with no request; otherwise exactly one request to the endpoint whose options are the delivery options over the base64 body, whose body decodes back to the JSON, and whose curl result decides the verdict |

## Left out

- Framework wiring (service provider, facade, service pass-through, console test command, helpers, Guzzle trait, configuration file): glue with no behaviour of its own to state.
- The buffering, batching and transport engine `OutboundIQ\Client`: not part of this repository; only its ingress `trackApiCall` is modelled, as an append-only record list.
- The host queue's retry scheduling: the job only declares `tries` and `backoff`, and the model gives the verdict of one attempt.
- `json_encode`, `curl_exec`, Laravel's `Auth` and container: abstract inputs (function parameters and the `Env` value).
- Floating-point time: an integer clock replaces `microtime`, and each handler call reads it once. On the fallback path the source reads the clock twice, so its duration is a tiny non-negative number, not exactly 0.
- Listener.TrackHttpRequest.HandleResponse: request identity is object identity; the reuse of an `spl_object_hash` value after its object is destroyed is not modelled.
- GuzzleClient.OnFulfilled: requires the request and response body streams to be different objects; aliased streams are not modelled.
- GuzzleClient.Track: the promise machinery (asynchronous settlement, `then` chaining) is not modelled; the settlement is an input. Like `OnFulfilled`, it requires the request and response body streams of a fulfilled promise to be different objects; aliased streams are not modelled.
- GuzzleClient.WithTracking: the default middleware that Guzzle's `HandlerStack::create` adds is Guzzle's and is not modelled; the stack is the curl handler with `outboundiq` pushed on top.
- MetricsJob.SendOutboundMetricsJob.Handle: the job calls `curl_close` only on success; handle lifetime is not modelled. The message text of the thrown exception is represented by the HTTP code and curl error it contains.
- Laravel response bodies and request headers are plain values (header lists as ordered name/value pairs); header normalisation by the framework is not modelled.
