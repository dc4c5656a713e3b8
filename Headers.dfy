/**
  The header map of the outbound request: a copy of the inbound headers
  without the `Proxy-Connection` hop-by-hop header and with `host` set to
  the target host.
 */
module Headers {

  type HeaderMap = map<string, string>

  /** The two spellings of the hop-by-hop header that are removed. */
  const ProxyConnectionLower: string := "proxy-connection"
  const ProxyConnectionCapitalized: string := "Proxy-Connection"

  /** The key that is overwritten with the target host. */
  const HostKey: string := "host"

  /** Whether a header is dropped before forwarding. */
  predicate IsDropped(key: string)
  {
    key == ProxyConnectionLower || key == ProxyConnectionCapitalized
  }

  /** The forwarded header map for `inbound` sent to `host`. */
  function ForwardHeaders(inbound: HeaderMap, host: string): (out: HeaderMap)
    ensures HostKey in out && out[HostKey] == host
    ensures forall k :: k in out <==> k == HostKey || (k in inbound && !IsDropped(k))
    ensures forall k :: k in inbound && k != HostKey && !IsDropped(k) ==> out[k] == inbound[k]
  {
    (inbound - {ProxyConnectionLower, ProxyConnectionCapitalized})[HostKey := host]
  }

  /** Filtering an already forwarded header map for the same host changes nothing. */
  lemma ForwardHeadersIdempotent(inbound: HeaderMap, host: string)
    ensures ForwardHeaders(ForwardHeaders(inbound, host), host) == ForwardHeaders(inbound, host)
  {

  }

  /** The forwarded headers depend on the inbound headers only through the kept keys. */
  lemma ForwardHeadersIgnoresDropped(a: HeaderMap, b: HeaderMap, host: string)
    requires forall k :: k != HostKey && !IsDropped(k) ==> (k in a <==> k in b)
    requires forall k :: k in a && k in b && k != HostKey && !IsDropped(k) ==> a[k] == b[k]
    ensures ForwardHeaders(a, host) == ForwardHeaders(b, host)
  {

  }
}
