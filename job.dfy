/**
 * The queued job that delivers one batch of metrics to the collector: one
 * authenticated POST of the base 64 text of the batch's JSON per attempt,
 * with the host queue re-running the job when the attempt fails.
 */
module MetricsJob {
  import opened Wrappers
  import Tracking
  import Base64

  // ---------------------------------------------------------------- curl

  /** The `curl_setopt` options the job sets. */
  datatype CurlOption =
    | Post | ConnectTimeout | Timeout | HttpHeader | PostFields
    | ReturnTransfer | SslVerifyPeer | SslVerifyHost

  datatype OptionValue = Flag(on: bool) | Number(n: int) | Text(s: string) | Lines(lines: seq<string>)

  /** A curl handle: the URL given to `curl_init` and the options set on it so far. */
  class CurlHandle {
    const url: string
    var options: map<CurlOption, OptionValue>

    constructor (url: string)
      ensures this.url == url && options == map[]
    {
      this.url := url;
      options := map[];
    }

    /** `curl_setopt`: the option takes the new value, every other option keeps its own. */
    method SetOpt(option: CurlOption, value: OptionValue)
      modifies this
      ensures options == old(options)[option := value]
    {
      options := options[option := value];
    }
  }

  /** What `curl_exec` leaves behind: `curl_errno` and `CURLINFO_HTTP_CODE`. */
  datatype CurlResult = CurlResult(errno: int, httpCode: int)

  /** The request the job hands to `curl_exec`. */
  datatype Issued = Issued(url: string, options: map<CurlOption, OptionValue>)

  // ---------------------------------------------------------------- the request

  const ConnectTimeoutSeconds := 5
  const VerifyHostLevel := 2
  const UserAgentPrefix := "User-Agent: OutboundIQ-Laravel/"

  /** The three request headers, in order. */
  function DeliveryHeaders(apiKey: string, version: string): (h: seq<string>)
    ensures |h| == 3
    ensures h[0] == "Authorization: Bearer " + apiKey
    ensures h[1] == "Content-Type: application/json"
    ensures h[2] == UserAgentPrefix + version
    // the key and the version can be read back from the headers
    ensures h[0][|"Authorization: Bearer "|..] == apiKey
    ensures h[2][|UserAgentPrefix|..] == version
  {
    ["Authorization: Bearer " + apiKey, "Content-Type: application/json", UserAgentPrefix + version]
  }

  /** The options of the delivery POST for a given body. */
  function DeliveryOptions(body: string, timeout: int, apiKey: string, version: string): (o: map<CurlOption, OptionValue>)
    ensures o.Keys == {Post, ConnectTimeout, Timeout, HttpHeader, PostFields, ReturnTransfer, SslVerifyPeer, SslVerifyHost}
    ensures o[Post] == Flag(true) && o[ReturnTransfer] == Flag(true)
    ensures o[ConnectTimeout] == Number(ConnectTimeoutSeconds) && o[Timeout] == Number(timeout)
    ensures o[HttpHeader] == Lines(DeliveryHeaders(apiKey, version))
    ensures o[PostFields] == Text(body)
    ensures o[SslVerifyPeer] == Flag(true) && o[SslVerifyHost] == Number(VerifyHostLevel)
  {
    map[Post := Flag(true), ConnectTimeout := Number(ConnectTimeoutSeconds), Timeout := Number(timeout),
        HttpHeader := Lines(DeliveryHeaders(apiKey, version)), PostFields := Text(body),
        ReturnTransfer := Flag(true), SslVerifyPeer := Flag(true), SslVerifyHost := Number(VerifyHostLevel)]
  }

  // ---------------------------------------------------------------- the verdict

  /** How an attempt ends for the host queue: normally, or by throwing so that it is retried. */
  datatype Verdict = Completed | Retry(httpCode: int, errno: int)

  /** Only a clean transfer answered with 200 or 201 completes the job. */
  function Decide(result: CurlResult): (v: Verdict)
    ensures v == Completed <==> result.errno == 0 && (result.httpCode == 200 || result.httpCode == 201)
    ensures v.Retry? ==> v.httpCode == result.httpCode && v.errno == result.errno
  {
    if result.errno != 0 || (result.httpCode != 200 && result.httpCode != 201) then
      Retry(result.httpCode, result.errno)
    else Completed
  }

  /** Other 2xx answers, a server error and a transport error are all retried. */
  lemma OtherAnswersRetry()
    ensures Decide(CurlResult(0, 202)).Retry? && Decide(CurlResult(0, 204)).Retry?
    ensures Decide(CurlResult(0, 500)).Retry?
    ensures Decide(CurlResult(28, 200)) == Retry(200, 28)
  {
  }

  // ---------------------------------------------------------------- the job

  const DefaultTimeout := 10

  class SendOutboundMetricsJob {
    /** The host queue's policy for this job: at most three attempts, five seconds apart. */
    const tries: int := 3
    const backoff: int := 5

    const metrics: seq<Tracking.TrackedCall>
    const endpoint: string
    const apiKey: string
    const version: string
    const timeout: int

    constructor (metrics: seq<Tracking.TrackedCall>, endpoint: string, apiKey: string, version: string,
                 timeout: int := DefaultTimeout)
      ensures tries == 3 && backoff == 5
      ensures this.metrics == metrics && this.endpoint == endpoint
      ensures this.apiKey == apiKey && this.version == version && this.timeout == timeout
    {
      this.metrics := metrics;
      this.endpoint := endpoint;
      this.apiKey := apiKey;
      this.version := version;
      this.timeout := timeout;
    }

    /**
     * One attempt. `jsonEncode` stands for `json_encode` (`None` when it
     * fails) and `curlExec` for the transfer. A batch that cannot be encoded
     * ends the job without a request; otherwise exactly one POST carrying the
     * base 64 text of the JSON is issued and its result decides the verdict.
     */
    method Handle(jsonEncode: seq<Tracking.TrackedCall> -> Option<seq<Base64.byte>>,
                  curlExec: Issued -> CurlResult)
      returns (issued: Option<Issued>, verdict: Verdict)
      ensures jsonEncode(metrics).None? ==> issued == None && verdict == Completed
      ensures jsonEncode(metrics).Some? ==>
        issued == Some(Issued(endpoint, DeliveryOptions(Base64.Encode(jsonEncode(metrics).value), timeout, apiKey, version)))
      ensures issued.Some? ==> verdict == Decide(curlExec(issued.value))
      ensures issued.Some? ==>
        (issued.value.options[PostFields].Text? &&
         Base64.Decode(issued.value.options[PostFields].s) == jsonEncode(metrics))
    {
      var jsonData := jsonEncode(metrics);
      if jsonData.None? {
        return None, Completed;
      }
      var encodedData := Base64.Encode(jsonData.value);

      var handle := new CurlHandle(endpoint);
      handle.SetOpt(Post, Flag(true));
      handle.SetOpt(ConnectTimeout, Number(ConnectTimeoutSeconds));
      handle.SetOpt(Timeout, Number(timeout));
      handle.SetOpt(HttpHeader, Lines(DeliveryHeaders(apiKey, version)));
      handle.SetOpt(PostFields, Text(encodedData));
      handle.SetOpt(ReturnTransfer, Flag(true));
      handle.SetOpt(SslVerifyPeer, Flag(true));
      handle.SetOpt(SslVerifyHost, Number(VerifyHostLevel));

      issued := Some(Issued(handle.url, handle.options));
      assert handle.options == DeliveryOptions(encodedData, timeout, apiKey, version);
      Base64.DecodeEncode(jsonData.value);
      var result := curlExec(issued.value);
      verdict := Decide(result);
    }
  }
}
