/**
  The plain-HTTP forward-proxy request callback: reject a target that is
  not an absolute `http://` URL with a 400, otherwise issue one outbound
  request built from the parsed target and the filtered headers, and answer
  the client with the origin's response or with a 500 on an origin error.
 */
module Proxy {
  import opened Wrappers
  import opened Strings
  import opened ProxyTarget
  import opened Headers

  /** The parts of the inbound request the callback reads. */
  datatype Request = Request(httpMethod: string, url: string, headers: HeaderMap)

  /** The options handed to `http.request`. */
  datatype RequestOptions = RequestOptions(
    hostname: string,
    port: PortValue,
    path: string,
    httpMethod: string,
    headers: HeaderMap)

  /** A response written to the client: status, headers and body. */
  datatype ClientResponse = ClientResponse(status: nat, headers: HeaderMap, body: string)

  /** What the outbound request produced: a response, or an `error` event. */
  datatype OriginResult =
    | OriginResponse(statusCode: nat, headers: HeaderMap, body: string)
    | OriginError

  /**
    What the call to `http.request` does: it may throw at once (Node
    validates the options synchronously, rejecting for instance a
    non-numeric or out-of-range port), or it issues the request, which ends
    in an `OriginResult`.
   */
  datatype OutboundAttempt = Thrown | Issued(result: OriginResult)

  /**
    What the client gets: a response, or none at all because an exception
    escaped the callback, which has no `try`, and ended the server process.
   */
  datatype ClientOutcome = Answered(response: ClientResponse) | ServerCrashed

  /** What the callback does with a request: answer it at once, or forward it. */
  datatype HandlerStep = Respond(response: ClientResponse) | Forward(options: RequestOptions)

  const PlainTextHeaders: HeaderMap := map["Content-Type" := "text/plain"]

  const BadRequestResponse: ClientResponse := ClientResponse(400, PlainTextHeaders, "Bad Request\n")

  const ProxyErrorResponse: ClientResponse := ClientResponse(500, PlainTextHeaders, "Proxy Error\n")

  /** The outbound request options for a parsed target. */
  function OptionsFor(req: Request, t: Target): (o: RequestOptions)
    ensures o.httpMethod == req.httpMethod
    ensures o.hostname == t.host && o.port == t.port && o.path == t.path
    ensures o.headers == ForwardHeaders(req.headers, t.host)
  {
    RequestOptions(t.host, t.port, t.path, req.httpMethod, ForwardHeaders(req.headers, t.host))
  }

  /** The callback's decision, as a function of the request. */
  function Handle(req: Request): (step: HandlerStep)
    ensures step.Respond? <==> ParseTarget(req.url).None?
    ensures step.Respond? ==> step.response == BadRequestResponse
    ensures step.Forward? ==> step.options == OptionsFor(req, ParseTarget(req.url).value)
  {
    match ParseTarget(req.url)
    case None => Respond(BadRequestResponse)
    case Some(t) => Forward(OptionsFor(req, t))
  }

  /**
    The callback up to the outbound request, step by step: match the
    target, split the authority, default port and path, then copy the
    header map, delete the two hop-by-hop keys and overwrite `host`.
   */
  method HandleRequest(req: Request) returns (step: HandlerStep)
    ensures step == Handle(req)
  {
    var matched := MatchTarget(req.url);
    if matched.None? {
      step := Respond(BadRequestResponse);
      return;
    }
    var parts := Split(matched.value.authority, ':');
    var targetHost := parts[0];
    var targetPort: Option<string> := if |parts| >= 2 then Some(parts[1]) else None;
    var port := if targetPort.Some? && targetPort.value != "" then PortText(targetPort.value)
                else PortNumber(DefaultPort);
    var relativePath := if matched.value.rest != "" then matched.value.rest else "/";

    var filtered := req.headers;
    filtered := filtered - {ProxyConnectionLower};
    filtered := filtered - {ProxyConnectionCapitalized};
    filtered := filtered[HostKey := targetHost];
    assert filtered == ForwardHeaders(req.headers, targetHost);

    step := Forward(RequestOptions(targetHost, port, relativePath, req.httpMethod, filtered));
  }

  /** The client's response once the outbound request has an outcome. */
  function Relay(result: OriginResult): (resp: ClientResponse)
    ensures result.OriginResponse? ==>
      resp.status == result.statusCode && resp.headers == result.headers && resp.body == result.body
    ensures result.OriginError? ==> resp == ProxyErrorResponse
  {
    match result
    case OriginResponse(status, headers, body) => ClientResponse(status, headers, body)
    case OriginError => ProxyErrorResponse
  }

  /**
    The whole exchange seen by the client, where `network` stands for
    Node's `http.request` and the origin: what calling it with the given
    options does.
   */
  function Exchange(req: Request, network: RequestOptions -> OutboundAttempt): (out: ClientOutcome)
    ensures Handle(req).Respond? ==> out == Answered(BadRequestResponse)
    ensures out.ServerCrashed? <==> Handle(req).Forward? && network(Handle(req).options).Thrown?
    ensures Handle(req).Forward? && network(Handle(req).options).Issued? ==>
      out == Answered(Relay(network(Handle(req).options).result))
  {
    match Handle(req)
    case Respond(r) => Answered(r)
    case Forward(o) =>
      match network(o)
      case Thrown => ServerCrashed
      case Issued(result) => Answered(Relay(result))
  }

  /** A rejected target gets the 400 whatever the network would do: no request goes out. */
  lemma RejectedTargetNeverReachesOrigin(req: Request, network1: RequestOptions -> OutboundAttempt,
                                         network2: RequestOptions -> OutboundAttempt)
    requires MatchTarget(req.url).None?
    ensures Exchange(req, network1) == Exchange(req, network2) == Answered(BadRequestResponse)
  {
  }

  /**
    An accepted target is forwarded exactly once, with the options built
    from it. Unless that call throws, the client sees the origin's status,
    headers and body, or the 500 on an origin error.
   */
  lemma AcceptedTargetRelaysOrigin(req: Request, network: RequestOptions -> OutboundAttempt)
    requires MatchTarget(req.url).Some?
    ensures var o := Handle(req).options;
      && (network(o).Thrown? ==> Exchange(req, network) == ServerCrashed)
      && (network(o).Issued? && network(o).result.OriginResponse? ==>
            var r := network(o).result;
            Exchange(req, network) == Answered(ClientResponse(r.statusCode, r.headers, r.body)))
      && (network(o) == Issued(OriginError) ==> Exchange(req, network) == Answered(ProxyErrorResponse))
  {
  }

  /**
    The client gets no response only when the forwarded call throws;
    otherwise the status is 400, 500, or the origin's own.
   */
  lemma ExchangeStatus(req: Request, network: RequestOptions -> OutboundAttempt)
    ensures Exchange(req, network).ServerCrashed? ==>
      Handle(req).Forward? && network(Handle(req).options).Thrown?
    ensures Exchange(req, network).Answered? ==>
      var s := Exchange(req, network).response.status;
      || s == 400
      || s == 500
      || (Handle(req).Forward? && network(Handle(req).options).Issued?
          && network(Handle(req).options).result.OriginResponse?
          && s == network(Handle(req).options).result.statusCode)
  {
  }

  /**
    What an outbound request carries: the inbound method, a path starting
    with `'/'`, a hostname free of `':'` and `'/'` that the `host` header
    repeats without the port, no `Proxy-Connection` header, and every
    other inbound header unchanged.
   */
  lemma ForwardedRequestFacts(req: Request)
    requires Handle(req).Forward?
    ensures var o := Handle(req).options;
      && o.httpMethod == req.httpMethod
      && |o.path| > 0 && o.path[0] == '/'
      && ':' !in o.hostname && '/' !in o.hostname
      && o.headers[HostKey] == o.hostname
      && ProxyConnectionLower !in o.headers && ProxyConnectionCapitalized !in o.headers
      && (forall k :: k in req.headers && k != HostKey && !IsDropped(k) ==>
            k in o.headers && o.headers[k] == req.headers[k])
  {

  }
}
