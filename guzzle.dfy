/**
 * The Guzzle client subclass that installs a tracking middleware: every
 * settled request is reported once (as a `guzzle` record) and its outcome
 * passes through unchanged; failures are classified first.
 */
module GuzzleClient {
  import opened Wrappers
  import opened Tracking

  // ---------------------------------------------------------------- strpos

  ghost predicate OccursAt(haystack: string, needle: string, i: int)
  {
    0 <= i && i + |needle| <= |haystack| && haystack[i..i + |needle|] == needle
  }

  /** `strpos($haystack, $needle) !== false`: a case-sensitive substring test. */
  function Contains(haystack: string, needle: string): (b: bool)
    ensures b <==> exists i :: OccursAt(haystack, needle, i)
    decreases |haystack|
  {
    if |needle| > |haystack| then false
    else if haystack[..|needle|] == needle then
      assert OccursAt(haystack, needle, 0);
      true
    else
      var rest := Contains(haystack[1..], needle);
      assert forall i :: OccursAt(haystack, needle, i) && i > 0 ==> OccursAt(haystack[1..], needle, i - 1) by {
        forall i | OccursAt(haystack, needle, i) && i > 0
          ensures OccursAt(haystack[1..], needle, i - 1)
        {
          assert haystack[1..][i - 1..i - 1 + |needle|] == haystack[i..i + |needle|];
        }
      }
      assert forall j :: OccursAt(haystack[1..], needle, j) ==> OccursAt(haystack, needle, j + 1) by {
        forall j | OccursAt(haystack[1..], needle, j)
          ensures OccursAt(haystack, needle, j + 1)
        {
          assert haystack[1..][j..j + |needle|] == haystack[j + 1..j + 1 + |needle|];
        }
      }
      rest
  }

  /** A text that lacks some character of the needle cannot contain the needle. */
  lemma MissingCharacter(haystack: string, needle: string, k: int)
    requires 0 <= k < |needle| && needle[k] !in haystack
    ensures !Contains(haystack, needle)
  {
  }

  /** A text that holds the needle at position `i` contains it. */
  lemma PresentAt(haystack: string, needle: string, i: int)
    requires OccursAt(haystack, needle, i)
    ensures Contains(haystack, needle)
  {
  }

  // ---------------------------------------------------------------- failures

  /**
   * The rejection reason of a Guzzle promise: a `ConnectException`, a
   * `RequestException` (with the status of its response, if it has one),
   * or any other throwable.
   */
  datatype Failure =
    | ConnectException(message: string)
    | RequestException(message: string, responseStatus: Option<int>)
    | OtherException(message: string)

  datatype Classification = Classification(statusCode: int, errorType: ErrorType)

  const TimedOut := "timed out"
  const CouldNotResolve := "Could not resolve"

  /** The status code and error type the rejection handler reports. */
  function Classify(reason: Failure): (c: Classification)
    ensures c.errorType == Timeout <==>
      reason.ConnectException? && Contains(reason.message, TimedOut)
    ensures c.errorType == DnsError <==>
      reason.ConnectException? && !Contains(reason.message, TimedOut) && Contains(reason.message, CouldNotResolve)
    ensures c.errorType == ConnectionError <==>
      reason.ConnectException? && !Contains(reason.message, TimedOut) && !Contains(reason.message, CouldNotResolve)
    ensures c.errorType == HttpError <==> reason.RequestException? && reason.responseStatus.Some?
    ensures c.errorType == UnknownError <==>
      reason.OtherException? || (reason.RequestException? && reason.responseStatus.None?)
    // the status is recovered only from a request exception that has a response
    ensures c.statusCode == (if c.errorType == HttpError then reason.responseStatus.value else 0)
  {
    match reason
    case ConnectException(message) =>
      if Contains(message, TimedOut) then Classification(0, Timeout)
      else if Contains(message, CouldNotResolve) then Classification(0, DnsError)
      else Classification(0, ConnectionError)
    case RequestException(_, status) =>
      if status.Some? then Classification(status.value, HttpError)
      else Classification(0, UnknownError)
    case OtherException(_) => Classification(0, UnknownError)
  }

  /** A connect failure that both timed out and failed to resolve counts as a timeout. */
  lemma TimeoutBeforeDns(message: string)
    requires Contains(message, TimedOut) && Contains(message, CouldNotResolve)
    ensures Classify(ConnectException(message)) == Classification(0, Timeout)
  {
  }

  /**
   * The test is case-sensitive: a lower-case "could not resolve" is an
   * ordinary connection error, not a DNS error.
   */
  lemma LowerCaseResolveIsConnectionError(message: string)
    requires message == "could not resolve host"
    ensures Classify(ConnectException(message)).errorType == ConnectionError
  {
    assert TimedOut[1] == 'i' && 'i' !in message;
    MissingCharacter(message, TimedOut, 1);
    assert CouldNotResolve[0] == 'C' && 'C' !in message;
    MissingCharacter(message, CouldNotResolve, 0);
  }

  /** curl's own DNS message is classified as a DNS error. */
  lemma CurlResolveMessageIsDnsError(message: string)
    requires message == "cURL error 6: " + CouldNotResolve + " host: api.test"
    ensures Classify(ConnectException(message)).errorType == DnsError
  {
    var prefix := "cURL error 6: ";
    assert message[|prefix|..|prefix| + |CouldNotResolve|] == CouldNotResolve;
    PresentAt(message, CouldNotResolve, |prefix|);
    assert TimedOut[2] == 'm' && 'm' !in message;
    MissingCharacter(message, TimedOut, 2);
  }

  // ---------------------------------------------------------------- streams

  /** A PSR-7 body stream: its content, the read position, and whether it can seek. */
  class BodyStream {
    var content: string
    var pos: nat
    const seekable: bool

    ghost predicate Valid()
      reads this
    {
      pos <= |content|
    }

    constructor (content: string, pos: nat, seekable: bool)
      requires pos <= |content|
      ensures Valid()
      ensures this.content == content && this.pos == pos && this.seekable == seekable
    {
      this.content := content;
      this.pos := pos;
      this.seekable := seekable;
    }

    /** What body capture would record for this stream. */
    function Capturable(): (r: Option<string>)
      requires Valid()
      reads this
      ensures r.Some? <==> seekable
      ensures r.Some? ==> content == content[..pos] + r.value
    {
      if seekable then Some(content[pos..]) else None
    }

    /** `getContents`: everything from the read position on; the position moves to the end. */
    method GetContents() returns (s: string)
      requires Valid()
      modifies this
      ensures Valid()
      ensures s == old(content[pos..])
      ensures content == old(content) && pos == |content|
    {
      s := content[pos..];
      pos := |content|;
    }

    /** `rewind`: back to the start. */
    method Rewind()
      requires Valid() && seekable
      modifies this
      ensures Valid()
      ensures content == old(content) && pos == 0
    {
      pos := 0;
    }
  }

  /**
   * Body capture: a seekable stream is read from its position and rewound,
   * so that it can be read again in full; a non-seekable one is left alone.
   */
  method CaptureBody(body: BodyStream) returns (captured: Option<string>)
    requires body.Valid()
    modifies body
    ensures body.Valid() && body.content == old(body.content)
    ensures captured == old(body.Capturable())
    ensures body.seekable ==> body.pos == 0
    ensures !body.seekable ==> body.pos == old(body.pos)
  {
    captured := None;
    if body.seekable {
      var s := body.GetContents();
      body.Rewind();
      captured := Some(s);
    }
  }

  // ---------------------------------------------------------------- middleware

  datatype Request = Request(uri: string, httpMethod: string, headers: Headers, body: BodyStream)
  datatype Response = Response(status: int, headers: Headers, body: BodyStream)

  /** How the promise returned by the next handler settles. */
  datatype Settlement = Fulfilled(response: Response) | Rejected(reason: Failure)

  /** The record the fulfilment handler reports, given the bodies it captured. */
  function FulfilledCall(request: Request, response: Response, start: int, now: int,
                         requestBody: Option<string>, responseBody: Option<string>): TrackedCall
  {
    TrackedCall(
      request.uri, request.httpMethod, Duration(start, now), response.status,
      request.headers, requestBody, response.headers, responseBody,
      Guzzle, None, None, None)
  }

  /** The record the rejection handler reports: classified, without response headers or body. */
  function RejectedCall(request: Request, reason: Failure, start: int, now: int,
                        requestBody: Option<string>): TrackedCall
  {
    TrackedCall(
      request.uri, request.httpMethod, Duration(start, now), Classify(reason).statusCode,
      request.headers, requestBody, [], None,
      Guzzle, None, Some(reason.message), Some(Classify(reason).errorType))
  }

  /** The fulfilment handler: one `guzzle` record with both bodies, and the same response back. */
  method OnFulfilled(client: Collector, request: Request, response: Response, start: int, now: int)
    returns (result: Response)
    requires request.body.Valid() && response.body.Valid() && request.body != response.body
    modifies client, request.body, response.body
    ensures result == response
    ensures request.body.Valid() && request.body.content == old(request.body.content)
    ensures response.body.Valid() && response.body.content == old(response.body.content)
    ensures request.body.seekable ==> request.body.pos == 0
    ensures !request.body.seekable ==> request.body.pos == old(request.body.pos)
    ensures response.body.seekable ==> response.body.pos == 0
    ensures !response.body.seekable ==> response.body.pos == old(response.body.pos)
    ensures client.calls == old(client.calls) +
      [FulfilledCall(request, response, start, now, old(request.body.Capturable()), old(response.body.Capturable()))]
  {
    var requestBody := CaptureBody(request.body);
    var responseBody := CaptureBody(response.body);
    client.TrackApiCall(FulfilledCall(request, response, start, now, requestBody, responseBody));
    result := response;
  }

  /**
   * The rejection handler: one classified `guzzle` record without response
   * headers or body, and the same reason handed back to be rethrown.
   */
  method OnRejected(client: Collector, request: Request, reason: Failure, start: int, now: int)
    returns (rethrown: Failure)
    requires request.body.Valid()
    modifies client, request.body
    ensures rethrown == reason
    ensures request.body.Valid() && request.body.content == old(request.body.content)
    ensures request.body.seekable ==> request.body.pos == 0
    ensures !request.body.seekable ==> request.body.pos == old(request.body.pos)
    ensures client.calls == old(client.calls) + [RejectedCall(request, reason, start, now, old(request.body.Capturable()))]
  {
    var requestBody := CaptureBody(request.body);
    client.TrackApiCall(RejectedCall(request, reason, start, now, requestBody));
    rethrown := reason;
  }

  /**
   * The middleware around the next handler: whichever way the promise
   * settles, exactly one `guzzle` record is reported, the bodies it read are
   * rewound, and the settlement reaches the caller unchanged.
   */
  method Track(client: Collector, request: Request, settled: Settlement, start: int, now: int)
    returns (outcome: Settlement)
    requires request.body.Valid()
    requires settled.Fulfilled? ==> settled.response.body.Valid() && settled.response.body != request.body
    modifies client, request.body, if settled.Fulfilled? then {settled.response.body} else {}
    ensures outcome == settled
    ensures settled.Fulfilled? ==>
      (client.calls == old(client.calls) +
        [FulfilledCall(request, settled.response, start, now,
                       old(request.body.Capturable()), old(settled.response.body.Capturable()))])
    ensures settled.Rejected? ==>
      (client.calls == old(client.calls) +
        [RejectedCall(request, settled.reason, start, now, old(request.body.Capturable()))])
    ensures request.body.Valid() && request.body.content == old(request.body.content)
    ensures request.body.seekable ==> request.body.pos == 0
    ensures !request.body.seekable ==> request.body.pos == old(request.body.pos)
    ensures settled.Fulfilled? ==>
      && settled.response.body.Valid()
      && settled.response.body.content == old(settled.response.body.content)
      && (settled.response.body.seekable ==> settled.response.body.pos == 0)
      && (!settled.response.body.seekable ==> settled.response.body.pos == old(settled.response.body.pos))
  {
    match settled
    case Fulfilled(response) =>
      var r := OnFulfilled(client, request, response, start, now);
      outcome := Fulfilled(r);
    case Rejected(reason) =>
      var e := OnRejected(client, request, reason, start, now);
      outcome := Rejected(e);
  }

  // ---------------------------------------------------------------- constructor

  /** The handler stack the constructor builds: curl at the bottom, the tracker pushed as `outboundiq`. */
  datatype HandlerStack = HandlerStack(handler: string, middleware: seq<string>)

  const TrackingStack := HandlerStack("curl", ["outboundiq"])

  datatype ConfigValue = Null | Handler(stack: HandlerStack) | Setting(text: string)

  /** PHP's `isset($config[$key])`: present and not null. */
  predicate IsSet(config: map<string, ConfigValue>, key: string)
  {
    key in config && config[key] != Null
  }

  /** The configuration passed on to Guzzle: the tracking stack only when no handler was given. */
  function WithTracking(config: map<string, ConfigValue>): (c: map<string, ConfigValue>)
    ensures IsSet(c, "handler")
    ensures IsSet(config, "handler") ==> c == config
    ensures !IsSet(config, "handler") ==> c["handler"] == Handler(TrackingStack)
    ensures c.Keys == config.Keys + {"handler"}
    ensures forall k :: k in config && k != "handler" ==> c[k] == config[k]
  {
    if IsSet(config, "handler") then config else config["handler" := Handler(TrackingStack)]
  }

  /** Building the client twice over the same configuration installs nothing further. */
  lemma WithTrackingIdempotent(config: map<string, ConfigValue>)
    ensures WithTracking(WithTracking(config)) == WithTracking(config)
  {
  }

  class OutboundIQGuzzleClient {
    const outboundClient: Collector
    const config: map<string, ConfigValue>

    constructor (outboundClient: Collector, config: map<string, ConfigValue> := map[])
      ensures this.outboundClient == outboundClient
      ensures this.config == WithTracking(config)
    {
      this.outboundClient := outboundClient;
      this.config := WithTracking(config);
    }
  }
}
