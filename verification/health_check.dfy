/** One health check of one server (`ping_server` in src/main.rs).

    The HTTP GET itself is not modelled: a check is given the `Response`
    the request produced, and this module classifies it. */
module HealthCheck {

  /** An HTTP status code as the HTTP client represents it: three decimal digits. */
  type StatusCode = c: int | 100 <= c < 1000 witness 200

  const StatusOk: StatusCode := 200
  const StatusRequestTimeout: StatusCode := 408

  /** What the GET of one check produced: a reply with a status code (for a
      200 reply, whether its body could be read), or a transport-level error
      (refused connection, DNS, TLS, the 10-second timeout expiring). */
  datatype Response =
    | Reply(status: StatusCode, bodyReadable: bool)
    | TransportError

  /** The two states a check can classify a server into. */
  datatype ServerState = ServerOk | ServerUnresponsive

  /** The result of one check: a classified state, the error returned when
      the body of a 200 reply cannot be read, or the panic raised for any
      other status code. */
  datatype Ping =
    | Classified(state: ServerState)
    | BodyReadFailed
    | UnexpectedStatus(status: StatusCode)

  /** Classifies one response. The classification is partial: only 200 and
      408 replies and transport errors are classified. */
  function PingServer(resp: Response): (p: Ping)
    ensures (p == Classified(ServerOk)) <==>
            (resp.Reply? && resp.status == StatusOk && resp.bodyReadable)
    ensures (p == Classified(ServerUnresponsive)) <==>
            (resp.TransportError? || (resp.Reply? && resp.status == StatusRequestTimeout))
    ensures (p == BodyReadFailed) <==>
            (resp.Reply? && resp.status == StatusOk && !resp.bodyReadable)
    ensures (p.UnexpectedStatus?) <==>
            (resp.Reply? && resp.status != StatusOk && resp.status != StatusRequestTimeout)
    ensures p.UnexpectedStatus? ==> p.status == resp.status
  {
    match resp
    case Reply(status, bodyReadable) =>
      if status == StatusOk then
        if bodyReadable then Classified(ServerOk) else BodyReadFailed
      else if status == StatusRequestTimeout then Classified(ServerUnresponsive)
      else UnexpectedStatus(status)
    case TransportError => Classified(ServerUnresponsive)
  }

  /** The check classifies the server as unresponsive. */
  predicate Unresponsive(resp: Response) {
    PingServer(resp) == Classified(ServerUnresponsive)
  }
}
