/**
 * The listener on Laravel's HTTP-client events (`TrackHttpRequest`): it
 * remembers when each outbound request was sent and who sent it, and on
 * completion or failure hands exactly one record to the agent and forgets
 * the request again.
 */
module Listener {
  import opened Wrappers
  import opened Tracking

  /** The authenticated user as Laravel's `Auth` facade reports it. */
  datatype User = User(id: UserId, className: string)

  /** What `app()->bound('queue.worker')` does: answer yes, answer no, or raise. */
  datatype BoundCheck = Bound | Unbound | Raises

  /**
   * The parts of the framework's state that `captureUserContext` consults:
   * `app()->runningInConsole()`, the current user (`Auth::check()` holds
   * exactly when there is one), and the container's `queue.worker` binding.
   */
  datatype Env = Env(runningInConsole: bool, user: Option<User>, queueWorker: BoundCheck)

  /** The decision table of `captureUserContext`. */
  function CaptureUserContext(env: Env): (u: UserContext)
    // outside the console: authenticated exactly when a user is logged in
    ensures !env.runningInConsole ==> (u.context == Authenticated <==> env.user.Some?)
    ensures !env.runningInConsole ==> (u.context == Anonymous <==> env.user.None?)
    // in the console: job exactly when a queue worker is bound; a raising check reads as console
    ensures env.runningInConsole ==> (u.context == Job <==> env.queueWorker == Bound)
    ensures env.runningInConsole ==> (u.context == Console <==> env.queueWorker != Bound)
    ensures u.context != Manual
    // the identity is reported in every context
    ensures u.userId.Some? <==> env.user.Some?
    ensures env.user.Some? ==> u.userId.value == env.user.value.id && u.userType == Some(env.user.value.className)
    ensures env.user.None? ==> u.userType == None
  {
    var context :=
      if !env.runningInConsole then
        (if env.user.Some? then Authenticated else Anonymous)
      else
        match env.queueWorker
        case Bound => Job
        case Unbound => Console
        case Raises => Console;
    match env.user
    case Some(user) => UserContext(Some(user.id), Some(user.className), context)
    case None => UserContext(None, None, context)
  }

  /** A request passing through Laravel's HTTP client; its identity is the object itself. */
  class ClientRequest {
    const url: string
    const httpMethod: string
    const headers: Headers
    const body: string

    constructor (url: string, httpMethod: string, headers: Headers, body: string)
      ensures this.url == url && this.httpMethod == httpMethod
      ensures this.headers == headers && this.body == body
    {
      this.url := url;
      this.httpMethod := httpMethod;
      this.headers := headers;
      this.body := body;
    }
  }

  datatype ClientResponse = ClientResponse(status: int, headers: Headers, body: string)

  /** `getRequestStartTime`: the recorded start time, or the current reading when none was recorded. */
  function StartTime(requestTimes: map<ClientRequest, int>, request: ClientRequest, now: int): (t: int)
    ensures request in requestTimes ==> t == requestTimes[request]
    ensures request !in requestTimes ==> t == now
    ensures (request in requestTimes ==> requestTimes[request] <= now) ==> Duration(t, now) >= 0
    ensures request !in requestTimes ==> Duration(t, now) == 0
  {
    if request in requestTimes then requestTimes[request] else now
  }

  /** The context captured at send time, or a fresh capture when none was recorded. */
  function ContextFor(requestUserContext: map<ClientRequest, UserContext>, request: ClientRequest, env: Env): (u: UserContext)
    ensures request in requestUserContext ==> u == requestUserContext[request]
    ensures request !in requestUserContext ==> u == CaptureUserContext(env)
  {
    if request in requestUserContext then requestUserContext[request] else CaptureUserContext(env)
  }

  class TrackHttpRequest {
    const client: Collector
    var requestTimes: map<ClientRequest, int>
    var requestUserContext: map<ClientRequest, UserContext>

    /** Both maps always track the same in-flight requests. */
    ghost predicate Valid()
      reads this
    {
      requestTimes.Keys == requestUserContext.Keys
    }

    constructor (client: Collector)
      ensures Valid() && this.client == client
      ensures requestTimes == map[] && requestUserContext == map[]
    {
      this.client := client;
      requestTimes := map[];
      requestUserContext := map[];
    }

    /** `handleSending`: remember the start time and the sender's context; nothing is reported. */
    method HandleSending(request: ClientRequest, env: Env, now: int)
      requires Valid()
      modifies this
      ensures Valid()
      ensures requestTimes == old(requestTimes)[request := now]
      ensures requestUserContext == old(requestUserContext)[request := CaptureUserContext(env)]
    {
      requestTimes := requestTimes[request := now];
      requestUserContext := requestUserContext[request := CaptureUserContext(env)];
    }

    /** `removeRequestStartTime` followed by the unset of the captured context. */
    method Forget(request: ClientRequest)
      requires Valid()
      modifies this
      ensures Valid()
      ensures request !in requestTimes && request !in requestUserContext
      ensures requestTimes == old(requestTimes) - {request}
      ensures requestUserContext == old(requestUserContext) - {request}
    {
      requestTimes := requestTimes - {request};
      requestUserContext := requestUserContext - {request};
    }

    /** `handleResponse`: one `http` record with the response's status, headers and body, then cleanup. */
    method HandleResponse(request: ClientRequest, response: ClientResponse, env: Env, now: int)
      requires Valid()
      modifies this, client
      ensures Valid()
      ensures requestTimes == old(requestTimes) - {request}
      ensures requestUserContext == old(requestUserContext) - {request}
      ensures client.calls == old(client.calls) + [TrackedCall(
        request.url, request.httpMethod,
        Duration(StartTime(old(requestTimes), request, now), now),
        response.status, request.headers, Some(request.body),
        response.headers, Some(response.body), LaravelHttp,
        Some(ContextFor(old(requestUserContext), request, env)), None, None)]
      // with a clock that never runs backwards the duration is non-negative; without a send it is 0
      ensures (request in old(requestTimes) ==> old(requestTimes)[request] <= now) ==> client.calls[|client.calls| - 1].duration >= 0
      ensures request !in old(requestTimes) ==> client.calls[|client.calls| - 1].duration == 0
      // a request with no recorded start time also has no recorded context, so its context is captured now
      ensures request !in old(requestTimes) ==> client.calls[|client.calls| - 1].userContext == Some(CaptureUserContext(env))
      ensures request in old(requestTimes) ==> client.calls[|client.calls| - 1].userContext == Some(old(requestUserContext)[request])
    {
      var startTime := StartTime(requestTimes, request, now);
      var userContext := ContextFor(requestUserContext, request, env);
      client.TrackApiCall(TrackedCall(
        request.url, request.httpMethod, Duration(startTime, now),
        response.status, request.headers, Some(request.body),
        response.headers, Some(response.body), LaravelHttp,
        Some(userContext), None, None));
      Forget(request);
    }

    /** `handleFailure`: one `http` record with status 0, no response and the exception's message, then cleanup. */
    method HandleFailure(request: ClientRequest, errorMessage: string, env: Env, now: int)
      requires Valid()
      modifies this, client
      ensures Valid()
      ensures requestTimes == old(requestTimes) - {request}
      ensures requestUserContext == old(requestUserContext) - {request}
      ensures client.calls == old(client.calls) + [TrackedCall(
        request.url, request.httpMethod,
        Duration(StartTime(old(requestTimes), request, now), now),
        0, request.headers, Some(request.body),
        [], None, LaravelHttp,
        Some(ContextFor(old(requestUserContext), request, env)), Some(errorMessage), None)]
      ensures (request in old(requestTimes) ==> old(requestTimes)[request] <= now) ==> client.calls[|client.calls| - 1].duration >= 0
      ensures request !in old(requestTimes) ==> client.calls[|client.calls| - 1].duration == 0
      // a request with no recorded start time also has no recorded context, so its context is captured now
      ensures request !in old(requestTimes) ==> client.calls[|client.calls| - 1].userContext == Some(CaptureUserContext(env))
      ensures request in old(requestTimes) ==> client.calls[|client.calls| - 1].userContext == Some(old(requestUserContext)[request])
    {
      var startTime := StartTime(requestTimes, request, now);
      var userContext := ContextFor(requestUserContext, request, env);
      client.TrackApiCall(TrackedCall(
        request.url, request.httpMethod, Duration(startTime, now),
        0, request.headers, Some(request.body),
        [], None, LaravelHttp,
        Some(userContext), Some(errorMessage), None));
      Forget(request);
    }

    /**
     * One request's whole lifecycle: sent at `sentAt` under `sendEnv`,
     * answered at `answeredAt` under `answerEnv`. Exactly one record is
     * reported; it carries the sender's context, not the one in force at
     * completion, and the bookkeeping for the request is gone afterwards.
     */
    method SendAndReceive(request: ClientRequest, response: ClientResponse,
                          sendEnv: Env, sentAt: int, answerEnv: Env, answeredAt: int)
      requires Valid()
      modifies this, client
      ensures Valid()
      ensures requestTimes == old(requestTimes) - {request}
      ensures requestUserContext == old(requestUserContext) - {request}
      ensures |client.calls| == |old(client.calls)| + 1
      ensures client.calls[..|old(client.calls)|] == old(client.calls)
      ensures client.calls[|old(client.calls)|].userContext == Some(CaptureUserContext(sendEnv))
      ensures client.calls[|old(client.calls)|].duration == Duration(sentAt, answeredAt)
      ensures client.calls[|old(client.calls)|].statusCode == response.status
    {
      HandleSending(request, sendEnv, sentAt);
      HandleResponse(request, response, answerEnv, answeredAt);
    }
  }
}
