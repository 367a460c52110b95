/**
 * The normalised call record that every capture mechanism hands to the
 * monitoring agent's single ingress, `trackApiCall`, and the agent itself
 * seen only through that ingress.
 */
module Tracking {
  import opened Wrappers

  /** Header lists are kept as ordered name/value pairs. */
  type Headers = seq<(string, string)>

  /** The capture mechanism behind a record (its `request_type`). */
  datatype Mechanism = ManualCall | LaravelHttp | Guzzle | Curl | StreamWrapper {
    function Tag(): string {
      match this
      case ManualCall => "manual"
      case LaravelHttp => "http"
      case Guzzle => "guzzle"
      case Curl => "curl"
      case StreamWrapper => "stream"
    }
  }

  /** The execution context recorded in a user context (`context`). */
  datatype ContextTag = Authenticated | Anonymous | Job | Console | Manual {
    function Tag(): string {
      match this
      case Authenticated => "authenticated"
      case Anonymous => "anonymous"
      case Job => "job"
      case Console => "console"
      case Manual => "manual"
    }
  }

  /** A user's key: `Auth::id()` is an integer or a string. */
  datatype UserId = IntId(n: int) | StringId(s: string)

  /** `['user_id' => …, 'user_type' => …, 'context' => …]` */
  datatype UserContext = UserContext(userId: Option<UserId>, userType: Option<string>, context: ContextTag)

  /** The classified cause of a failed call (`error_type`). */
  datatype ErrorType = ConnectionError | Timeout | DnsError | HttpError | UnknownError {
    function Tag(): string {
      match this
      case ConnectionError => "connection_error"
      case Timeout => "timeout"
      case DnsError => "dns_error"
      case HttpError => "http_error"
      case UnknownError => "unknown_error"
    }
  }

  /**
   * The arguments of one `trackApiCall`. A status code of 0 means that no
   * response was received; absent optional arguments are `None`.
   */
  datatype TrackedCall = TrackedCall(
    url: string,
    httpMethod: string,
    duration: int,
    statusCode: int,
    requestHeaders: Headers,
    requestBody: Option<string>,
    responseHeaders: Headers,
    responseBody: Option<string>,
    requestType: Mechanism,
    userContext: Option<UserContext>,
    errorMessage: Option<string>,
    errorType: Option<ErrorType>)

  /** The wire tags stay distinct, so a record's mechanism, context and error type can be read back from them. */
  lemma TagsDistinct()
    ensures forall a: Mechanism, b: Mechanism :: a.Tag() == b.Tag() ==> a == b
    ensures forall a: ContextTag, b: ContextTag :: a.Tag() == b.Tag() ==> a == b
    ensures forall a: ErrorType, b: ErrorType :: a.Tag() == b.Tag() ==> a == b
  {
  }

  /**
   * Elapsed milliseconds between two clock readings in seconds:
   * `(now - start) * 1000`. The clock is an integer here.
   */
  function Duration(start: int, now: int): (d: int)
    ensures d >= 0 <==> start <= now
    ensures d == 0 <==> start == now
    ensures d % 1000 == 0 && d / 1000 == now - start
  {
    (now - start) * 1000
  }

  /**
   * The monitoring agent as the capture layer sees it: an ingress that
   * accepts one record per call. `calls` is everything accepted so far.
   */
  class Collector {
    var calls: seq<TrackedCall>

    constructor ()
      ensures calls == []
    {
      calls := [];
    }

    method TrackApiCall(call: TrackedCall)
      modifies this
      ensures calls == old(calls) + [call]
    {
      calls := calls + [call];
    }
  }
}
