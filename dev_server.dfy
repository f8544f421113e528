/** `resolveDevServerUrl` and `isIpv6` of src/html.ts: the URL the development
    snippet loads assets from, `<protocol>://<host>:<port>`, each part taken
    from the first of three sources that is set. */
module DevServer {
  import opened Wrappers
  import opened Text

  /** `AddressInfo.family`: a name such as "IPv4" or "IPv6", or, in some
      Node releases, a number. */
  datatype Family = FamilyName(name: string) | FamilyNumber(n: int)

  /** The listening socket's address. */
  datatype AddressInfo = AddressInfo(address: string, family: Family, port: int)

  /** `config.server.hmr`: only an object carries settings; `true`, `false`
      and an absent value all read as "no object". An absent field is `None`. */
  datatype Hmr =
    | HmrNotObject
    | HmrObject(protocol: Option<string>, host: Option<string>, clientPort: Option<int>)

  /** `config.server.host`: only a string is used; `true`, `false` and an
      absent value are `HostNotString`. */
  datatype Host = HostString(name: string) | HostNotString

  /** The parts of `config.server` the resolver reads; `https` is its
      truthiness. */
  datatype ServerSettings = ServerSettings(hmr: Hmr, https: bool, host: Host)

  /** `isIpv6(address)`: the family is `'IPv6'` or the number 6. */
  predicate IsIpv6(a: AddressInfo) {
    a.family == FamilyName("IPv6") || a.family == FamilyNumber(6)
  }

  /** The HMR protocol, when it is truthy (set and not empty). */
  function HmrProtocol(s: ServerSettings): Option<string> {
    if s.hmr.HmrObject? && s.hmr.protocol.Some? && s.hmr.protocol.value != "" then s.hmr.protocol
    else None
  }

  function Protocol(s: ServerSettings): (r: string)
    ensures NoChar(r, ':')
  {
    match HmrProtocol(s)
    case Some(p) => if p == "wss" then "https" else "http"
    case None => if s.https then "https" else "http"
  }

  /** `configHmrHost ?? configHost ?? serverAddress`: `??` passes over absent
      values only, so an empty HMR host is used as is. */
  function HostPart(a: AddressInfo, s: ServerSettings): string {
    if s.hmr.HmrObject? && s.hmr.host.Some? then s.hmr.host.value
    else if s.host.HostString? then s.host.name
    else if IsIpv6(a) then "[" + a.address + "]"
    else a.address
  }

  function Port(a: AddressInfo, s: ServerSettings): int {
    if s.hmr.HmrObject? && s.hmr.clientPort.Some? then s.hmr.clientPort.value else a.port
  }

  /** The template `${protocol}://${host}:${port}`. */
  function DevUrl(protocol: string, host: string, port: int): string {
    protocol + "://" + host + ":" + IntToString(port)
  }

  /** `resolveDevServerUrl(address, config)` */
  function ResolveDevServerUrl(a: AddressInfo, s: ServerSettings): string {
    DevUrl(Protocol(s), HostPart(a, s), Port(a, s))
  }

  /** Reads a development URL back: the protocol up to the first `:`, which
      must open `://`; the host up to the last `:`; the port after it. */
  function ParseDevUrl(url: string): Option<(string, string, int)> {
    var k := FirstIndex(url, ':');
    if k < 0 || !StartsWith(url[k..], "://") then None
    else
      var rest := url[k + 3..];
      var j := LastIndex(rest, ':');
      if j < 0 then None
      else
        match ParseInt(rest[j + 1..])
        case None => None
        case Some(port) => Some((url[..k], rest[..j], port))
  }

  /** The protocol is read up to the first colon, and the rest after `://`. */
  lemma ParseProtocol(protocol: string, rest: string)
    requires NoChar(protocol, ':')
    ensures
      var url := protocol + "://" + rest;
      var k := FirstIndex(url, ':');
      k == |protocol| && StartsWith(url[k..], "://") && url[..k] == protocol && url[k + 3..] == rest
  {
    var url := protocol + "://" + rest;
    assert url == protocol + [':'] + ("//" + rest);
    FirstIndexAfter(protocol, ':', "//" + rest);
    assert url[..|protocol|] == protocol;
    assert url[|protocol|..] == "://" + rest;
  }

  /** The port is read after the last colon. */
  lemma ParseHostPort(host: string, port: int)
    ensures
      var rest := host + ":" + IntToString(port);
      var j := LastIndex(rest, ':');
      j == |host| && rest[..j] == host && ParseInt(rest[j + 1..]) == Some(port)
  {
    var digits := IntToString(port);
    IntToStringNoChar(port, ':');
    LastIndexBefore(host, ':', digits);
    var rest := host + ":" + digits;
    assert rest[..|host|] == host;
    assert rest[|host| + 1..] == digits;
    IntToStringRoundTrip(port);
  }

  /** Any protocol without a colon, any host (an IPv6 host's colons included)
      and any port are read back from the URL they make. */
  lemma DevUrlRoundTrip(protocol: string, host: string, port: int)
    requires NoChar(protocol, ':')
    ensures ParseDevUrl(DevUrl(protocol, host, port)) == Some((protocol, host, port))
  {
    var rest := host + ":" + IntToString(port);
    ParseProtocol(protocol, rest);
    ParseHostPort(host, port);
    ParseParts(protocol + "://" + rest, protocol, rest, host, port);
    DevUrlShape(protocol, host, port);
  }

  /** A URL whose colons sit where a development URL's do is read as its
      protocol, host and port. */
  lemma ParseParts(url: string, protocol: string, rest: string, host: string, port: int)
    requires FirstIndex(url, ':') == |protocol| && StartsWith(url[|protocol|..], "://")
    requires url[..|protocol|] == protocol && url[|protocol| + 3..] == rest
    requires LastIndex(rest, ':') == |host| && rest[..|host|] == host
    requires ParseInt(rest[|host| + 1..]) == Some(port)
    ensures ParseDevUrl(url) == Some((protocol, host, port))
  {
  }

  /** The URL is the protocol and `://` followed by the host-and-port part. */
  lemma DevUrlShape(protocol: string, host: string, port: int)
    ensures DevUrl(protocol, host, port) == protocol + "://" + (host + ":" + IntToString(port))
  {
    AppendAssoc(protocol + "://", host, ":");
    AppendAssoc(protocol + "://", host + ":", IntToString(port));
  }

  /** The resolved URL reads back as the three parts it was made from. */
  lemma ResolvedParts(a: AddressInfo, s: ServerSettings)
    ensures ParseDevUrl(ResolveDevServerUrl(a, s)) == Some((Protocol(s), HostPart(a, s), Port(a, s)))
  {
    DevUrlRoundTrip(Protocol(s), HostPart(a, s), Port(a, s));
  }

  /** The protocol: `https` for an HMR protocol of `wss`, `http` for any other
      truthy HMR protocol, else `https` exactly when the server uses HTTPS. */
  lemma ProtocolRule(a: AddressInfo, s: ServerSettings)
    ensures ParseDevUrl(ResolveDevServerUrl(a, s)).Some?
    ensures
      var protocol := ParseDevUrl(ResolveDevServerUrl(a, s)).value.0;
      (protocol == "https" || protocol == "http") &&
      (s.hmr.HmrObject? && s.hmr.protocol == Some("wss") ==> protocol == "https") &&
      (s.hmr.HmrObject? && s.hmr.protocol.Some? && s.hmr.protocol.value != "" && s.hmr.protocol.value != "wss" ==>
         protocol == "http") &&
      (HmrProtocol(s).None? ==> (protocol == "https" <==> s.https))
  {
    ResolvedParts(a, s);
    ProtocolCases(s);
  }

  lemma ProtocolCases(s: ServerSettings)
    ensures
      var protocol := Protocol(s);
      (protocol == "https" || protocol == "http") &&
      (s.hmr.HmrObject? && s.hmr.protocol == Some("wss") ==> protocol == "https") &&
      (s.hmr.HmrObject? && s.hmr.protocol.Some? && s.hmr.protocol.value != "" && s.hmr.protocol.value != "wss" ==>
         protocol == "http") &&
      (HmrProtocol(s).None? ==> (protocol == "https" <==> s.https))
  {
    assert "https" != "http" by { assert |"https"| != |"http"|; }
  }

  /** The host: the HMR host if set (even when empty), else a string server
      host, else the socket address, bracketed exactly when it is IPv6. */
  lemma HostRule(a: AddressInfo, s: ServerSettings)
    ensures ParseDevUrl(ResolveDevServerUrl(a, s)).Some?
    ensures
      var host := ParseDevUrl(ResolveDevServerUrl(a, s)).value.1;
      (s.hmr.HmrObject? && s.hmr.host.Some? ==> host == s.hmr.host.value) &&
      (!(s.hmr.HmrObject? && s.hmr.host.Some?) && s.host.HostString? ==> host == s.host.name) &&
      (!(s.hmr.HmrObject? && s.hmr.host.Some?) && s.host.HostNotString? ==>
         host == (if IsIpv6(a) then "[" + a.address + "]" else a.address))
  {
    ResolvedParts(a, s);
  }

  /** The port: the HMR client port if set, else the socket's port. */
  lemma PortRule(a: AddressInfo, s: ServerSettings)
    ensures ParseDevUrl(ResolveDevServerUrl(a, s)).Some?
    ensures
      var port := ParseDevUrl(ResolveDevServerUrl(a, s)).value.2;
      port == (if s.hmr.HmrObject? && s.hmr.clientPort.Some? then s.hmr.clientPort.value else a.port)
  {
    ResolvedParts(a, s);
  }

  /** A setting higher in the chain hides everything below it: two
      configurations with the same HMR host give the same host whatever their
      server hosts and socket addresses. */
  lemma HmrHostHidesTheRest(a1: AddressInfo, s1: ServerSettings, a2: AddressInfo, s2: ServerSettings)
    requires s1.hmr.HmrObject? && s2.hmr.HmrObject? && s1.hmr.host.Some? && s1.hmr.host == s2.hmr.host
    ensures ParseDevUrl(ResolveDevServerUrl(a1, s1)).Some? && ParseDevUrl(ResolveDevServerUrl(a2, s2)).Some?
    ensures ParseDevUrl(ResolveDevServerUrl(a1, s1)).value.1 == ParseDevUrl(ResolveDevServerUrl(a2, s2)).value.1
  {
    HostRule(a1, s1);
    HostRule(a2, s2);
  }

  /** With no settings, a plain HTTP server on the IPv6 loopback. */
  lemma LoopbackExample()
    ensures ResolveDevServerUrl(AddressInfo("::1", FamilyNumber(6), 5173),
                                ServerSettings(HmrNotObject, false, HostNotString)) == "http://[::1]:5173"
  {
    assert NatToString(5173) == "5173" by {
      assert NatToString(5) == "5";
      assert NatToString(51) == "51";
      assert NatToString(517) == "517";
    }
  }

  /** A secure HMR connection through a proxy on port 443. */
  lemma SecureProxyExample()
    ensures ResolveDevServerUrl(AddressInfo("127.0.0.1", FamilyName("IPv4"), 5173),
                                ServerSettings(HmrObject(Some("wss"), Some("example.com"), Some(443)), false, HostString("localhost")))
            == "https://example.com:443"
  {
    assert NatToString(443) == "443" by {
      assert NatToString(4) == "4";
      assert NatToString(44) == "44";
    }
  }
}
