/**
 * The Next.js route handlers that stand between the browser and the backend.
 * Each makes at most one backend call and maps its outcome to one response:
 * the backend's body passed through with status 200, or a failure body with
 * status 500 (503 for the health check).
 */
module Forwarders {
  import opened Wrappers
  import opened Text
  import opened Http
  import Config

  const ConnectFailure := "Failed to connect to Harmony API"
  const ParallelFailure := "Failed to start parallel visualization"

  /** `{ success: false, message, error }`. */
  function FailureBody(message: string, error: string): Json
  {
    JObj(map["success" := JBool(false), "message" := JStr(message), "error" := JStr(error)])
  }

  /** What `errorData.message` throws when the failing answer's body is JSON `null`
      (the `.catch(() => ({}))` fallback applies only to a body that does not parse). */
  const NullMessageRead := "Cannot read properties of null (reading 'message')"

  /** The error a non-ok answer is turned into: the TypeError of reading
      `message` off a `null` body, else `errorData.message || status line`. */
  function NotOkError(status: nat, body: Parsed<Json>): (e: string)
    ensures body == Success(JNull) ==> e == NullMessageRead
    ensures body != Success(JNull) && MessageOf(body).Some? ==> e == MessageOf(body).value
    ensures body != Success(JNull) && MessageOf(body).None? ==> e == StatusText(status)
  {
    if body == Success(JNull) then NullMessageRead else OrElse(MessageOf(body), StatusText(status))
  }

  /** One handler invocation: the backend call it made (if any) and its response. */
  datatype Exchange = Exchange(sent: Option<Outgoing>, response: Response)

  /**
   * The POST forwarder shared by `/api/tempo/visualize/all` and
   * `/api/tempo/visualize/parallel`. The inbound body, once parsed, is sent on
   * unchanged in exactly one call; an ok answer is returned as is, whatever its
   * own `success` says; every failure becomes a 500 `FailureBody(failure, ...)`
   * whose error is the step's message: the inbound parse error, the network
   * error, the backend's non-empty message, the status line, the TypeError of
   * reading `message` off a `null` error body, or the parse error of an ok answer.
   */
  function Forward(url: string, headers: seq<Header>, failure: string,
                   inbound: Parsed<Json>, reply: Reply<Json>): (x: Exchange)
    ensures inbound.Failure? ==> x == Exchange(None, Response(500, FailureBody(failure, inbound.error)))
    ensures inbound.Success? ==> x.sent == Some(Outgoing("POST", url, headers, Some(inbound.value)))
    ensures x.response.status == 200 || x.response.status == 500
    ensures x.response.status == 500 ==> exists e :: x.response.body == FailureBody(failure, e)
    ensures x.response.status == 200 <==> inbound.Success? && reply.Ok() && reply.body.Success?
    ensures x.response.status == 200 ==> x.response.body == reply.body.value
    ensures inbound.Success? && reply.NetworkError? ==>
              x.response.body == FailureBody(failure, reply.reason)
    ensures inbound.Success? && reply.Answered? && !reply.Ok() && reply.body == Success(JNull) ==>
              x.response.body == FailureBody(failure, NullMessageRead)
    ensures inbound.Success? && reply.Answered? && !reply.Ok() && reply.body != Success(JNull) ==>
              x.response.body == FailureBody(failure, OrElse(MessageOf(reply.body), StatusText(reply.status)))
    ensures inbound.Success? && reply.Ok() && reply.body.Failure? ==>
              x.response.body == FailureBody(failure, reply.body.error)
  {
    match inbound
    case Failure(parseError) => Exchange(None, Response(500, FailureBody(failure, parseError)))
    case Success(body) =>
      var sent := Some(Outgoing("POST", url, headers, Some(body)));
      var response :=
        match reply
        case NetworkError(reason) => Response(500, FailureBody(failure, reason))
        case Answered(status, answer) =>
          if !reply.Ok() then Response(500, FailureBody(failure, NotOkError(status, answer)))
          else match answer
            case Failure(parseError) => Response(500, FailureBody(failure, parseError))
            case Success(data) => Response(200, data);
      Exchange(sent, response)
  }

  /** `POST /api/tempo/visualize/all`. */
  function PostAll(c: Config.Settings, inbound: Parsed<Json>, reply: Reply<Json>): (x: Exchange)
    ensures inbound.Success? ==> x.sent.Some? && x.sent.value.url == Config.Url(c, Config.VisualizeAll)
    ensures inbound.Success? ==> x.sent.value.headers == Config.DefaultHeaders(c)
    ensures x.response.status == 500 ==> exists e :: x.response.body == FailureBody(ConnectFailure, e)
  {
    Forward(Config.Url(c, Config.VisualizeAll), Config.DefaultHeaders(c), ConnectFailure, inbound, reply)
  }

  /** `POST /api/tempo/visualize/parallel`: the same mapping, with its own failure message. */
  function PostParallel(c: Config.Settings, inbound: Parsed<Json>, reply: Reply<Json>): (x: Exchange)
    ensures inbound.Success? ==> x.sent.Some? && x.sent.value.url == Config.Url(c, Config.VisualizeParallel)
    ensures inbound.Success? ==> x.sent.value.headers == Config.DefaultHeaders(c)
    ensures x.response.status == 500 ==> exists e :: x.response.body == FailureBody(ParallelFailure, e)
  {
    Forward(Config.Url(c, Config.VisualizeParallel), Config.DefaultHeaders(c), ParallelFailure, inbound, reply)
  }

  /** A backend answer that says `success: false` is still relayed as a 200. */
  lemma OkAnswerRelayedVerbatim(c: Config.Settings, inbound: Json, status: nat, answer: Json)
    requires 200 <= status <= 299
    ensures PostAll(c, Success(inbound), Answered(status, Success(answer))).response == Response(200, answer)
    ensures PostParallel(c, Success(inbound), Answered(status, Success(answer))).response == Response(200, answer)
  {
  }

  // ---------------------------------------------------------------------------
  // GET /api/health

  /** The health handler's target, written into the handler rather than taken from the configuration. */
  const HealthUrl := "http://localhost:8000/health"
  const HealthVersion := "1.0.0"

  /** `{ status: 'unhealthy', message, error, timestamp, version: '1.0.0' }`. */
  function UnhealthyBody(error: string, timestamp: string): Json
  {
    JObj(map["status" := JStr("unhealthy"), "message" := JStr(ConnectFailure), "error" := JStr(error),
             "timestamp" := JStr(timestamp), "version" := JStr(HealthVersion)])
  }

  /**
   * `GET /api/health`: one call to the fixed URL with a JSON content type and no
   * token; an ok answer is passed through, anything else is a 503 whose error
   * is the network error, the status line (the failing body is never read), or
   * the parse error of an ok answer. `now` is the handler's clock reading.
   */
  function GetHealth(reply: Reply<Json>, now: string): (x: Exchange)
    ensures x.sent == Some(Outgoing("GET", HealthUrl, [Header("Content-Type", "application/json")], None))
    ensures x.response.status == 200 || x.response.status == 503
    ensures x.response.status == 200 <==> reply.Ok() && reply.body.Success?
    ensures x.response.status == 200 ==> x.response.body == reply.body.value
    ensures reply.Answered? && !reply.Ok() ==> x.response.body == UnhealthyBody(StatusText(reply.status), now)
    ensures reply.NetworkError? ==> x.response.body == UnhealthyBody(reply.reason, now)
    ensures reply.Ok() && reply.body.Failure? ==> x.response.body == UnhealthyBody(reply.body.error, now)
  {
    var sent := Some(Outgoing("GET", HealthUrl, [Header("Content-Type", "application/json")], None));
    var response :=
      match reply
      case NetworkError(reason) => Response(503, UnhealthyBody(reason, now))
      case Answered(status, answer) =>
        if !reply.Ok() then Response(503, UnhealthyBody(StatusText(status), now))
        else match answer
          case Failure(parseError) => Response(503, UnhealthyBody(parseError, now))
          case Success(data) => Response(200, data);
    Exchange(sent, response)
  }

  /** The health target is the default configuration's health endpoint, whatever the environment says. */
  lemma HealthUrlIsDefault()
    ensures HealthUrl == Config.Url(Config.Load(Config.Env(None, None)), Config.HealthEndpoint)
  {
  }
}
