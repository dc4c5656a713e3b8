# Plain-HTTP forward-proxy request handler, modelled in Dafny

This project models the request callback of the intercepting proxy's
plain-HTTP path (`proxy.js`, the `http.createServer` callback). A client
sends a request whose target is an absolute URL. The callback does four things:

1. It matches the target against `/^http:\/\/([^\/]+)(.*)$/`. A non-matching
   target gets `400`, `Content-Type: text/plain` and the body `"Bad Request\n"`,
   and no outbound request is made.
2. It splits the authority (group 1) on `':'` into a host and a port. The port
   is 80 when it is missing or empty.
3. It takes the rest of the URL (group 2) as the path, or `"/"` when that is empty.
4. It copies the inbound header map, deletes `proxy-connection` and
   `Proxy-Connection`, and sets `host` to the target host. It then issues one
   outbound request with these headers, the inbound method and the parsed
   hostname, port and path.

The origin's response is relayed with its status code, headers and body
unchanged. An origin error gets `500`, `Content-Type: text/plain` and
`"Proxy Error\n"`.

Modules:

- `Strings` (Strings.dfy): `IndexOf`, and JavaScript's `split` with a
  one-character separator together with its inverse `Join`. Both round trips
  are proved.
- `ProxyTarget` (ProxyTarget.dfy): the regular expression. It is given both
  as a declarative predicate (`RegexMatch`) and as the computed greedy match
  (`MatchTarget`), and the two are proved to agree. The module also holds the
  host/port split, the path default, `ParseTarget`, and a parse-after-format
  round trip.
- `Headers` (Headers.dfy): the forwarded header map.
- `Proxy` (Proxy.dfy): the callback itself. `Handle` is its decision as a
  function. `HandleRequest` mirrors the callback step by step: early return,
  destructuring, `||` defaults, then the copy, two deletes and one
  assignment on the header map. `Relay` is the outcome rule. `Exchange`
  composes all of these with the network, which is passed in as a function
  from request options to what the call to `http.request` does. It either
  throws at once, or issues the request, which then ends in a response or an
  `error` event.
- `Examples` (Examples.dfy): concrete edge cases. These are an empty host,
  an empty port, extra colons (user information, a bracketed IPv6 literal),
  a missing path, and rejected targets including line terminators.

The JavaScript port value is either the non-empty text from the split or the
number 80. `PortValue` keeps that distinction and does not check that the
text is numeric. Requests and header maps are values, so the inbound header
map cannot change. `HandleRequest` builds its `filtered` map as a new value
and has no `modifies` clause. This is how the model states that the filtering
works on a copy.

The regular expression is modelled exactly, including its line-terminator
corner case. JavaScript's `.` does not match `\n`, `\r`, U+2028 or U+2029,
and `$` is the end of the input. A URL with one of those characters after the
authority therefore gets the 400. Inside the authority these characters are
accepted, because `[^\/]` matches them. There is no precondition on the URL.

The wider proxy is described as doing more on this path than proxy.js does.
The model follows proxy.js:

- On an origin error proxy.js answers 500, not a 502-class status.
- It does not strip `Accept-Encoding`.
- It does not recompute `Content-Length`, and does not remove it from the response.
- It does not record the exchange.
- It removes only the two literal spellings of `Proxy-Connection`, not every spelling of that header.

## Model

| member | source | states |
|---|---|---|
| Strings.IndexOf | proxy.js:8 | the index of the first occurrence of a character, or the length: everything before it differs from the character (the run `[^\/]+` takes) |
| Strings.Split | proxy.js:15 | `split(":")` yields at least one piece and no piece holds the separator |
| Strings.JoinSplit | proxy.js:15 | joining the pieces of a split with the separator gives back the original string |
| Strings.SplitJoin | proxy.js:15 | splitting the join of separator-free pieces gives back exactly those pieces |
| Strings.SplitFirst | proxy.js:15 | the first piece of a split is the text before the first separator and the others are the split of the remainder |
| ProxyTarget.MatchTarget | proxy.js:8 | a successful match is a real match of the regular expression, and group 2 is empty or starts with `'/'` (group 1 is the maximal non-`'/'` run) |
| ProxyTarget.MatchTargetComplete | proxy.js:8 | every decomposition the regular expression admits is found, and the reported authority is the longest one, as greedy backtracking reports it |
| ProxyTarget.MatchTargetExact | proxy.js:8 | a URL made of scheme, `'/'`-free authority and a line-terminator-free suffix starting with `'/'` gives exactly those two groups |
| ProxyTarget.MatchTargetAccepts | proxy.js:8-13 | a target is accepted iff it starts with `http://`, the next character exists and is not `'/'`, and no line terminator follows the authority |
| ProxyTarget.MatchTargetAcceptsPlain | proxy.js:8-13 | for a URL without line terminators: accepted iff it starts with `http://` followed by a character other than `'/'` |
| ProxyTarget.HostOf | proxy.js:15 | the host is a `':'`-free prefix of the authority that is all of it or is followed by `':'` |
| ProxyTarget.PortOf | proxy.js:15-16 | the port is non-empty `':'`-free text, or else the number 80 |
| ProxyTarget.PathOf | proxy.js:17 | the path is `"/"` when the suffix after the authority is empty, and that suffix otherwise |
| ProxyTarget.ParseTarget | proxy.js:8-17 | a target is parsed exactly when the regular expression matches |
| ProxyTarget.HostAndPortByColons | proxy.js:15-16 | for an authority `host:port[:...]`, the host is the text before the first `':'` and the port the text up to the second, 80 when that is empty, later pieces ignored |
| ProxyTarget.HostWithoutColon | proxy.js:15-16 | an authority without `':'` is all host and the port is 80 |
| ProxyTarget.ParseTargetPath | proxy.js:17 | the forwarded path starts with `'/'`; with a non-empty suffix, scheme + authority + path is the original URL; otherwise the path is `"/"` |
| ProxyTarget.ParseTargetHost | proxy.js:8-15 | the host is free of `':'` and `'/'` and is a prefix of the text after `http://` (it may be empty) |
| ProxyTarget.ParseFormatTarget | proxy.js:8-17 | parsing the URL written from a well-formed target gives that target back |
| Headers.ForwardHeaders | proxy.js:19-22 | the forwarded keys are the inbound keys minus the two `Proxy-Connection` spellings, plus `host`; `host` maps to the target host; every other key keeps its inbound value |
| Headers.ForwardHeadersIdempotent | proxy.js:19-22 | filtering an already forwarded header map for the same host changes nothing |
| Headers.ForwardHeadersIgnoresDropped | proxy.js:19-22 | inbound maps that agree on every key except `host` and the dropped ones forward identically |
| Proxy.OptionsFor | proxy.js:24-30 | the options carry the inbound method unchanged, the parsed hostname, port and path, and the forwarded headers for that host |
| Proxy.Handle | proxy.js:8-30 | the callback answers at once iff the target does not parse, and then with the 400 `"Bad Request\n"` text response; otherwise it forwards with the target's options |
| Proxy.HandleRequest | proxy.js:5-30 | the step-by-step callback (match, split, defaults, copy, two deletes, host assignment) makes the decision `Handle` specifies |
| Proxy.Relay | proxy.js:32-41 | an origin response reaches the client with its status code, headers and body unchanged; an origin error becomes the 500 `"Proxy Error\n"` text response |
| Proxy.Exchange | proxy.js:5-43 | a rejected target is answered with the 400; the client gets no response exactly when the target is forwarded and the call to `http.request` throws; otherwise the client gets the relay of the issued request's outcome |
| Proxy.RejectedTargetNeverReachesOrigin | proxy.js:9-13 | for a rejected target the client gets the 400 whatever the network would do, so no outbound request matters |
| Proxy.AcceptedTargetRelaysOrigin | proxy.js:32-43 | for an accepted target one outbound call is made with the target's options: if it throws, the client gets nothing; if it issues a request, the client gets the origin's response unchanged, or the 500 on an origin error |
| Proxy.ExchangeStatus | proxy.js:9-43 | the client gets no response only when the forwarded call throws; otherwise the status is 400, 500, or the status of the origin's response to the forwarded request |
| Proxy.ForwardedRequestFacts | proxy.js:15-30 | a forwarded request carries the inbound method and a path starting with `'/'`; its hostname has no `':'` or `'/'`, and its `host` header is that hostname without the port; no `Proxy-Connection` header is sent, and every other inbound header is unchanged |
| Examples.BareHost | proxy.js:15-17 | `http://example.com` parses to host `example.com`, port 80, path `"/"` |
| Examples.EmptyHost | proxy.js:15-16 | `http://:81/` is accepted with an empty host and port `"81"` |
| Examples.EmptyPort | proxy.js:15-16 | `http://h:/x` has port 80 because the port text is empty |
| Examples.UserInfo | proxy.js:15-16 | `http://user:pw@h/` has host `user` and port `"pw@h"` |
| Examples.Ipv6Literal | proxy.js:15-16 | `http://[::1]:8080/` has host `[` and port 80 |
| Examples.Rejected | proxy.js:8-13 | `http:///x`, `https://h/` and `/relative` are rejected |
| Examples.LineTerminators | proxy.js:8 | a line feed after the authority rejects the target; one inside the authority is kept in the host |

## Left out

- The server and socket plumbing are not modelled, because they are event-driven I/O: `http.createServer`, `server.listen` with its log line, `http.request`, and the `pipe` calls (proxy.js:5, 32-36, 43-48). The network is the `origin` parameter of `Exchange`.
- The request body that `req.pipe(proxyReq)` streams to the origin is not modelled. The response body is modelled as one string copied whole, not as a stream.
- Which options make Node's `http.request` throw is not modelled, because that is library code: the `network` parameter of `Exchange` decides it. A non-numeric or out-of-range port text (`http://h:abc/`, `http://h:99999/`, or `http://user:pw@h/` with port `"pw@h"`) is rejected by Node's synchronous port check. The exception escapes the callback, which has no `try`, so the client gets no response and the server process ends. `Exchange` returns `ServerCrashed` for this case.
- Other library behaviour of `http.request` is not modelled, for example Node's fallback to `localhost` for an empty hostname. An origin error that arrives after the response headers were written is not modelled either.
- Node lower-cases inbound header names, so in the running program only `proxy-connection` can occur and the delete of `Proxy-Connection` (proxy.js:21) never matches. `Request.headers` is any `map<string, string>`, so the model also admits mixed-case keys that Node never delivers. For those keys the model keeps the code's literal behaviour.
- Header maps are `map<string, string>`: the insertion order of JavaScript object keys, and Node's array-valued headers such as `set-cookie`, are not modelled.
- JavaScript strings are sequences of UTF-16 code units, but the model's strings are sequences of Unicode scalar values. All the characters the handler looks at lie in the Basic Multilingual Plane, so matching and splitting give the same pieces.
- main.js, storage.js and web-api.js are not part of this model. They cover process start-up, SQLite persistence and the Express administrative API. proxy.js calls none of them.
- TLS/CONNECT interception, certificate issuance, raw HTTP message decoding and the hidden-parameter scanner are not part of this model, because proxy.js does not implement them.
