/**
  Acceptance and parsing of a forward-proxy request target: the match of
  `/^http:\/\/([^\/]+)(.*)$/`, the split of the authority on `':'` into host
  and port, and the path default.
 */
module ProxyTarget {
  import opened Wrappers
  import opened Strings

  const Scheme: string := "http://"

  /** The port used when the authority names none (or an empty one). */
  const DefaultPort: nat := 80

  /** The characters JavaScript's `.` does not match without the `s` flag. */
  predicate IsLineTerminator(c: char)
  {
    c == '\n' || c == '\r' || c == '\U{2028}' || c == '\U{2029}'
  }

  predicate HasLineTerminator(s: string)
  {
    exists j :: 0 <= j < |s| && IsLineTerminator(s[j])
  }

  /**
    The declarative meaning of the regular expression with its two capture
    groups: `url` is the scheme, then a non-empty `authority` free of `'/'`
    (group 1, `[^\/]+`), then a `rest` free of line terminators (group 2,
    `(.*)$`, where `$` is the end of the input).
   */
  predicate RegexMatch(url: string, authority: string, rest: string)
  {
    && url == Scheme + authority + rest
    && |authority| > 0
    && '/' !in authority
    && !HasLineTerminator(rest)
  }

  /** The two capture groups of a successful match. */
  datatype TargetMatch = TargetMatch(authority: string, rest: string)

  /**
    The result of `url.match(...)`: the greedy `[^\/]+` takes the longest
    run of non-`'/'` characters after the scheme, and the match fails when
    that run is empty or what follows it holds a line terminator.
   */
  function MatchTarget(url: string): (m: Option<TargetMatch>)
    ensures m.Some? ==> RegexMatch(url, m.value.authority, m.value.rest)
    ensures m.Some? ==> m.value.rest == [] || m.value.rest[0] == '/'
  {
    if |url| < |Scheme| || url[..|Scheme|] != Scheme then None
    else
      var s := url[|Scheme|..];
      var i := IndexOf(s, '/');
      if i == 0 || HasLineTerminator(s[i..]) then None
      else
        assert url == Scheme + s[..i] + s[i..];
        Some(TargetMatch(s[..i], s[i..]))
  }

  /**
    Every way the regular expression can match is found, and the groups
    returned are those of the match with the longest authority, which is
    the one JavaScript's backtracking order reports first.
   */
  lemma MatchTargetComplete(url: string, authority: string, rest: string)
    requires RegexMatch(url, authority, rest)
    ensures MatchTarget(url).Some?
    ensures |authority| <= |MatchTarget(url).value.authority|
  {

  }

  /**
    A target is accepted exactly when it starts with the scheme, a
    character other than `'/'` follows, and no line terminator comes after
    the run of non-`'/'` characters.
   */
  lemma MatchTargetAccepts(url: string)
    ensures MatchTarget(url).Some? <==>
      && |url| > |Scheme|
      && url[..|Scheme|] == Scheme
      && url[|Scheme|] != '/'
      && !HasLineTerminator(url[|Scheme| + IndexOf(url[|Scheme|..], '/')..])
  {

  }

  /** Without line terminators, only the scheme and the next character matter. */
  lemma MatchTargetAcceptsPlain(url: string)
    requires !HasLineTerminator(url)
    ensures MatchTarget(url).Some? <==>
      |url| > |Scheme| && url[..|Scheme|] == Scheme && url[|Scheme|] != '/'
  {

  }

  /** A port as JavaScript holds it: the text from the split, or the number 80. */
  datatype PortValue = PortText(text: string) | PortNumber(number: nat)

  /** The parsed target: `hostname`, `port` and `path` of the outbound request. */
  datatype Target = Target(host: string, port: PortValue, path: string)

  /** `let [targetHost] = authority.split(":")`. */
  function HostOf(authority: string): (host: string)
    ensures ':' !in host
    ensures host <= authority
    ensures host == authority || authority[|host|] == ':'
  {
    var parts := Split(authority, ':');
    JoinSplit(authority, ':');
    assert parts[0] <= Join(parts, ':');
    parts[0]
  }

  /** `let [, targetPort] = authority.split(":"); targetPort = targetPort || 80`. */
  function PortOf(authority: string): (port: PortValue)
    ensures port.PortText? ==> port.text != [] && ':' !in port.text
    ensures port.PortNumber? ==> port.number == DefaultPort
  {
    var parts := Split(authority, ':');
    if |parts| >= 2 && parts[1] != "" then PortText(parts[1])
    else PortNumber(DefaultPort)
  }

  /** `match[2] || "/"`. */
  function PathOf(rest: string): (path: string)
    ensures rest == "" ==> path == "/"
    ensures rest != "" ==> path == rest
  {
    if rest == "" then "/" else rest
  }

  /** The parsed target of an accepted request, or `None` for a 400. */
  function ParseTarget(url: string): (t: Option<Target>)
    ensures t.Some? <==> MatchTarget(url).Some?
  {
    match MatchTarget(url)
    case None => None
    case Some(m) => Some(Target(HostOf(m.authority), PortOf(m.authority), PathOf(m.rest)))
  }

  /**
    The host is the authority text before its first `':'` and the port the
    text between the first and the second; later `':'`-pieces are ignored,
    an empty port text gives 80, and the text is not checked to be numeric.
   */
  lemma HostAndPortByColons(authority: string, host: string, port: string, tail: string)
    requires authority == host + [':'] + port + tail
    requires ':' !in host && ':' !in port
    requires tail == [] || tail[0] == ':'
    ensures HostOf(authority) == host
    ensures PortOf(authority) == if port == "" then PortNumber(DefaultPort) else PortText(port)
  {
    var after := port + tail;
    assert authority == host + [':'] + after;
    SplitFirst(host, ':', after);
    if tail == [] {
      assert after == port;
      SplitAbsent(port, ':');
    } else {
      assert after == port + [':'] + tail[1..];
      SplitFirst(port, ':', tail[1..]);
    }
  }

  /** An authority without `':'` is all host, and the port is 80. */
  lemma HostWithoutColon(authority: string)
    requires ':' !in authority
    ensures HostOf(authority) == authority
    ensures PortOf(authority) == PortNumber(DefaultPort)
  {

  }

  /**
    The path always starts with `'/'`; it is the URL's suffix after the
    authority, which rebuilds the URL, or `"/"` when that suffix is empty.
   */
  lemma ParseTargetPath(url: string)
    requires MatchTarget(url).Some?
    ensures var m := MatchTarget(url).value;
      var t := ParseTarget(url).value;
      && |t.path| > 0 && t.path[0] == '/'
      && (m.rest != [] ==> url == Scheme + m.authority + t.path)
      && (m.rest == [] ==> url == Scheme + m.authority && t.path == "/")
  {
  }

  /** The host is a `':'`-free and `'/'`-free prefix of the text after the scheme. */
  lemma ParseTargetHost(url: string)
    requires MatchTarget(url).Some?
    ensures var t := ParseTarget(url).value;
      && ':' !in t.host && '/' !in t.host
      && url[..|Scheme|] == Scheme
      && t.host <= url[|Scheme|..]
  {

  }

  /** The URL a target is written as: scheme, host, optional `:port`, path. */
  function FormatTarget(t: Target): string
  {
    Scheme + t.host
      + (match t.port case PortText(p) => [':'] + p case PortNumber(_) => "")
      + t.path
  }

  /** The targets that `FormatTarget` writes down without loss. */
  predicate WellFormedTarget(t: Target)
  {
    && ':' !in t.host && '/' !in t.host
    && (match t.port
        case PortText(p) => p != [] && ':' !in p && '/' !in p
        case PortNumber(n) => n == DefaultPort && t.host != [])
    && |t.path| > 0 && t.path[0] == '/'
    && !HasLineTerminator(t.path)
  }

  /** A URL whose suffix starts with `'/'` matches with exactly that authority and suffix. */
  lemma MatchTargetExact(authority: string, rest: string)
    requires RegexMatch(Scheme + authority + rest, authority, rest)
    requires rest == [] || rest[0] == '/'
    ensures MatchTarget(Scheme + authority + rest) == Some(TargetMatch(authority, rest))
  {
    var url := Scheme + authority + rest;
    assert url[..|Scheme|] == Scheme;
    assert url[|Scheme|..] == authority + rest;
    IndexOfAfterFreePrefix(authority, '/', rest);
  }

  /** Parsing a written-down well-formed target gives that target back. */
  lemma ParseFormatTarget(t: Target)
    requires WellFormedTarget(t)
    ensures ParseTarget(FormatTarget(t)) == Some(t)
  {
    match t.port
    case PortText(p) =>
      var authority := t.host + [':'] + p;
      assert FormatTarget(t) == Scheme + authority + t.path;
      MatchTargetExact(authority, t.path);
      HostAndPortByColons(authority, t.host, p, "");
    case PortNumber(_) =>
      assert FormatTarget(t) == Scheme + t.host + t.path;
      MatchTargetExact(t.host, t.path);
      HostWithoutColon(t.host);
  }
}
