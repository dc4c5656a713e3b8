/** Concrete targets that show the edge cases of the parse, as written. */
module Examples {
  import opened Wrappers
  import opened Strings
  import opened ProxyTarget

  /** No port and no path: port 80 and path `"/"`. */
  lemma BareHost()
    ensures ParseTarget("http://example.com") == Some(Target("example.com", PortNumber(80), "/"))
  {
    assert "http://example.com" == Scheme + "example.com" + "";
    assert '/' !in "example.com" && ':' !in "example.com";
    MatchTargetExact("example.com", "");
    HostWithoutColon("example.com");
  }

  /** An empty host is accepted. */
  lemma EmptyHost()
    ensures ParseTarget("http://:81/") == Some(Target("", PortText("81"), "/"))
  {
    assert "http://:81/" == Scheme + ":81" + "/";
    assert '/' !in ":81" && ':' !in "81";
    assert ":81" == "" + [':'] + "81" + "";
    MatchTargetExact(":81", "/");
    HostAndPortByColons(":81", "", "81", "");
  }

  /** An empty port text means port 80. */
  lemma EmptyPort()
    ensures ParseTarget("http://h:/x") == Some(Target("h", PortNumber(80), "/x"))
  {
    assert "http://h:/x" == Scheme + "h:" + "/x";
    assert '/' !in "h:" && ':' !in "h";
    assert "h:" == "h" + [':'] + "" + "";
    MatchTargetExact("h:", "/x");
    HostAndPortByColons("h:", "h", "", "");
  }

  /** User information is read as host and port: only the first two `':'`-pieces count. */
  lemma UserInfo()
    ensures ParseTarget("http://user:pw@h/") == Some(Target("user", PortText("pw@h"), "/"))
  {
    assert "http://user:pw@h/" == Scheme + "user:pw@h" + "/";
    assert '/' !in "user:pw@h" && ':' !in "user" && ':' !in "pw@h";
    assert "user:pw@h" == "user" + [':'] + "pw@h" + "";
    MatchTargetExact("user:pw@h", "/");
    HostAndPortByColons("user:pw@h", "user", "pw@h", "");
  }

  /** A bracketed IPv6 literal loses everything after its first `':'`. */
  lemma Ipv6Literal()
    ensures ParseTarget("http://[::1]:8080/") == Some(Target("[", PortNumber(80), "/"))
  {
    assert "http://[::1]:8080/" == Scheme + "[::1]:8080" + "/";
    assert '/' !in "[::1]:8080" && ':' !in "[";
    assert "[::1]:8080" == "[" + [':'] + "" + ":1]:8080";
    MatchTargetExact("[::1]:8080", "/");
    HostAndPortByColons("[::1]:8080", "[", "", ":1]:8080");
  }

  /** Targets that get the 400: an empty authority, another scheme, a relative target. */
  lemma Rejected()
    ensures ParseTarget("http:///x") == None
    ensures ParseTarget("https://h/") == None
    ensures ParseTarget("/relative") == None
  {
    assert "http:///x"[..|Scheme|] == Scheme;
    assert "https://h/"[4] != Scheme[4];
    assert |"/relative"| > |Scheme| && "/relative"[0] != Scheme[0];
  }

  /** A line terminator after the authority fails the match, one inside it does not. */
  lemma LineTerminators()
    ensures ParseTarget("http://h/a\nb") == None
    ensures ParseTarget("http://a\nb/") == Some(Target("a\nb", PortNumber(80), "/"))
  {
    var url := "http://h/a\nb";
    assert url[..|Scheme|] == Scheme && url[|Scheme|..] == "h/a\nb";
    assert "h/a\nb" == "h" + "/a\nb";
    IndexOfAfterFreePrefix("h", '/', "/a\nb");
    assert IsLineTerminator("/a\nb"[2]);
    assert "http://a\nb/" == Scheme + "a\nb" + "/";
    assert '/' !in "a\nb" && ':' !in "a\nb";
    MatchTargetExact("a\nb", "/");
    HostWithoutColon("a\nb");
  }
}
