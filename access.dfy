/**
 * The server's local-only access guards: which peer addresses, Ollama URLs
 * and browser origins count as local, the decisions of the `cors` and
 * `localOnly` HTTP middlewares, and the strict listener that drops
 * non-local connections.
 */
module AccessGuard {
  import opened Wrappers
  import opened Text
  import opened NetIP

  // ---------------------------------------------------------------------
  // isLocalIP

  /** The Tailscale CGNAT test as the source writes it: bytes 0 and 1 of the slice itself. */
  predicate CgnatAsWritten(ip: IP) {
    To4(ip).Some? && ip[0] == 100 && ip[1] >= 64 && ip[1] <= 127
  }

  /** The CGNAT test on the IPv4 bytes, 100.64.0.0/10. */
  predicate Cgnat(ip: IP) {
    match To4(ip)
    case Some(a) => a[0] == 100 && a[1] >= 64 && a[1] <= 127
    case None => false
  }

  /** `isLocalIP` exactly as written; `None` is Go's nil address. */
  predicate IsLocalIPAsWritten(ip: Option<IP>) {
    ip.Some? &&
    (IsLoopback(ip.value) || IsPrivate(ip.value) || IsLinkLocalUnicast(ip.value) || CgnatAsWritten(ip.value))
  }

  /** `isLocalIP` with the CGNAT clause applied to the IPv4 bytes. */
  predicate IsLocalIP(ip: Option<IP>) {
    ip.Some? &&
    (IsLoopback(ip.value) || IsPrivate(ip.value) || IsLinkLocalUnicast(ip.value) || Cgnat(ip.value))
  }

  /** The local ranges written out as prefixes, for comparison with `IsLocalIP`. */
  predicate LocalRanges(ip: IP) {
    match To4(ip)
    case Some(a) =>
      a[0] == 127                                   // 127.0.0.0/8
      || a[0] == 10                                 // 10.0.0.0/8
      || (a[0] == 172 && InRange(a[1], 16, 31))     // 172.16.0.0/12
      || (a[0] == 192 && a[1] == 168)               // 192.168.0.0/16
      || (a[0] == 169 && a[1] == 254)               // 169.254.0.0/16
      || (a[0] == 100 && InRange(a[1], 64, 127))    // 100.64.0.0/10
    case None =>
      ip == Loopback6                                                 // ::1
      || (|ip| == 16 && InRange(ip[0], 0xfc, 0xfd))                   // fc00::/7
      || (|ip| == 16 && ip[0] == 0xfe && InRange(ip[1], 0x80, 0xbf))  // fe80::/10
  }

  /** `IsLocalIP` accepts exactly the loopback, private, link-local unicast and CGNAT ranges. */
  lemma IsLocalIPRanges(ip: IP)
    ensures IsLocalIP(Some(ip)) <==> LocalRanges(ip)
  {
    IsPrivateRanges(ip);
    IsLinkLocalUnicastRanges(ip);
  }

  /** Every address `ParseIP` yields is 16 bytes long, so the as-written CGNAT clause sees byte 0 == 0. */
  lemma CgnatAsWrittenNeverFires(s: string)
    requires ParseIP(s).Some?
    ensures !CgnatAsWritten(ParseIP(s).value)
  {
    var ip := ParseIP(s).value;
    To4Accepts(ip);
  }

  predicate LocalButNotCgnat(ip: IP) {
    IsLoopback(ip) || IsPrivate(ip) || IsLinkLocalUnicast(ip)
  }

  /** On parsed addresses the test as written reduces to loopback, private or link-local unicast. */
  lemma IsLocalIPAsWrittenOnParsed(s: string)
    ensures IsLocalIPAsWritten(ParseIP(s)) <==> ParseIP(s).Some? && LocalButNotCgnat(ParseIP(s).value)
  {
    if ParseIP(s).Some? {
      CgnatAsWrittenNeverFires(s);
    }
  }

  /** On parsed addresses the test as written is the corrected one minus 100.64.0.0/10, and no more. */
  lemma IsLocalIPAsWrittenGap(s: string)
    ensures IsLocalIPAsWritten(ParseIP(s)) <==> IsLocalIP(ParseIP(s)) && !Cgnat(ParseIP(s).value)
  {
    IsLocalIPAsWrittenOnParsed(s);
  }

  const CgnatSample: IP := [100, 64, 0, 1]

  lemma FormatCgnatSample()
    ensures FormatIPv4(CgnatSample) == "100.64.0.1"
  {
    assert CgnatSample[0] as nat == 100 && CgnatSample[1] as nat == 64;
    assert CgnatSample[2] as nat == 0 && CgnatSample[3] as nat == 1;
    assert NatToString(100) == "100";
    assert NatToString(64) == "64";
    assert NatToString(0) == "0" && NatToString(1) == "1";
    assert Join(["0", "1"], '.') == "0.1";
    assert Join(["64", "0", "1"], '.') == "64.0.1";
  }

  /** Every CGNAT address, written in dotted decimal, is refused by the test as written and accepted by the corrected one. */
  lemma CgnatRefusedAsWritten(a: IP)
    requires |a| == 4 && a[0] == 100 && 64 <= a[1] <= 127
    ensures ParseIP(FormatIPv4(a)) == Some(V4Mapped(a))
    ensures !IsLocalIPAsWritten(ParseIP(FormatIPv4(a)))
    ensures IsLocalIP(ParseIP(FormatIPv4(a)))
  {
    ParseFormatIPv4(a);
    CgnatMapped(a);
  }

  /** The IPv4-mapped form of a CGNAT address: refused as written, accepted when corrected. */
  lemma CgnatMapped(a: IP)
    requires |a| == 4 && a[0] == 100 && 64 <= a[1] <= 127
    ensures !IsLocalIPAsWritten(Some(V4Mapped(a)))
    ensures IsLocalIP(Some(V4Mapped(a)))
  {
    var ip := V4Mapped(a);
    To4OfV4Mapped(a);
    assert ip[0] == 0;
    assert a[0] != 127 && a[0] != 10 && a[0] != 172 && a[0] != 192 && a[0] != 169;
  }

  // ---------------------------------------------------------------------
  // isLocalConnection and the strict listener

  /** The peer's address: the host part of "host:port", parsed; None when either step fails. */
  function PeerAddress(remoteAddr: string): Option<IP> {
    match SplitHostPort(remoteAddr)
    case Failure(_) => None
    case Success((host, _)) => ParseIP(host)
  }

  /** The address classes `isLocalConnection` admits, with the CGNAT clause as written. */
  predicate LocalPeerAsWritten(ip: IP) {
    IsLoopback(ip) || IsPrivate(ip) || IsLinkLocalUnicast(ip) || IsLinkLocalMulticast(ip) || CgnatAsWritten(ip)
  }

  /** The same classes with the corrected CGNAT clause. */
  predicate LocalPeer(ip: IP) {
    IsLoopback(ip) || IsPrivate(ip) || IsLinkLocalUnicast(ip) || IsLinkLocalMulticast(ip) || Cgnat(ip)
  }

  /** `isLocalConnection` as written, on the peer's "host:port" text. */
  predicate IsLocalConnectionAsWritten(remoteAddr: string) {
    PeerAddress(remoteAddr).Some? && LocalPeerAsWritten(PeerAddress(remoteAddr).value)
  }

  /** `isLocalConnection` with the corrected CGNAT clause. */
  predicate IsLocalConnection(remoteAddr: string) {
    PeerAddress(remoteAddr).Some? && LocalPeer(PeerAddress(remoteAddr).value)
  }

  /**
   * A connection is local exactly when its host splits off and is an address
   * `IsLocalIP` accepts or a link-local multicast address.
   */
  lemma IsLocalConnectionSpec(remoteAddr: string)
    ensures IsLocalConnection(remoteAddr) <==>
      SplitHostPort(remoteAddr).Success? &&
      var ip := ParseIP(SplitHostPort(remoteAddr).value.0);
      IsLocalIP(ip) || (ip.Some? && IsLinkLocalMulticast(ip.value))
  {
  }

  /** The as-written listener test never admits a CGNAT peer that the other clauses refuse. */
  lemma IsLocalConnectionAsWrittenSpec(remoteAddr: string)
    ensures IsLocalConnectionAsWritten(remoteAddr) <==>
      SplitHostPort(remoteAddr).Success? &&
      var ip := ParseIP(SplitHostPort(remoteAddr).value.0);
      ip.Some? && (LocalButNotCgnat(ip.value) || IsLinkLocalMulticast(ip.value))
  {
    match SplitHostPort(remoteAddr)
    case Failure(_) =>
    case Success((host, _)) =>
      if ParseIP(host).Some? {
        CgnatAsWrittenNeverFires(host);
      }
  }

  /** The listener as written admits exactly the peers the corrected one admits outside 100.64.0.0/10. */
  lemma IsLocalConnectionAsWrittenGap(remoteAddr: string)
    ensures IsLocalConnectionAsWritten(remoteAddr) <==>
      IsLocalConnection(remoteAddr) && !Cgnat(PeerAddress(remoteAddr).value)
  {
    match SplitHostPort(remoteAddr)
    case Failure(_) =>
    case Success((host, _)) =>
      if ParseIP(host).Some? {
        CgnatAsWrittenNeverFires(host);
      }
  }

  /** A CGNAT peer such as "100.64.0.1:41641" is dropped by the listener as written and admitted by the corrected one. */
  lemma CgnatPeerDroppedAsWritten(a: IP, port: string)
    requires |a| == 4 && a[0] == 100 && 64 <= a[1] <= 127
    requires ':' !in port && '[' !in port && ']' !in port
    ensures SplitHostPort(FormatIPv4(a) + ":" + port) == Success((FormatIPv4(a), port))
    ensures !IsLocalIPAsWritten(ParseIP(FormatIPv4(a))) && IsLocalIP(ParseIP(FormatIPv4(a)))
    ensures !IsLocalConnectionAsWritten(FormatIPv4(a) + ":" + port)
    ensures IsLocalConnection(FormatIPv4(a) + ":" + port)
    ensures LocalOnly(true, FormatIPv4(a) + ":" + port) == PassOn
    ensures !NonLocalOriginHost(FormatIPv4(a) + ":" + port)
  {
    var host := FormatIPv4(a);
    ParseIPv4Format(a);
    ParseIPv4Chars(host);
    SplitJoinPlain(host, port);
    CgnatRefusedAsWritten(a);
  }

  /**
   * The peer "100.64.0.1:41641": dropped by the listener as written, and refused
   * with 403 by `localOnly` as written (its host fails the test as written); the
   * corrected listener and `LocalOnly` admit it.
   */
  lemma CgnatSamplePeer()
    ensures !IsLocalConnectionAsWritten("100.64.0.1:41641") && IsLocalConnection("100.64.0.1:41641")
    ensures SplitHostPort("100.64.0.1:41641") == Success(("100.64.0.1", "41641"))
    ensures !IsLocalIPAsWritten(ParseIP("100.64.0.1")) && IsLocalIP(ParseIP("100.64.0.1"))
    ensures LocalOnly(true, "100.64.0.1:41641") == PassOn
  {
    FormatCgnatSample();
    assert FormatIPv4(CgnatSample) + ":" + "41641" == "100.64.0.1:41641";
    CgnatPeerDroppedAsWritten(CgnatSample, "41641");
  }

  /**
   * The origin "http://100.64.0.1:3000", whose host is "100.64.0.1:3000": the
   * source as written refuses it in strict mode with 403, while `Cors` lets it
   * through, since the corrected test reads the host as local.
   */
  lemma CgnatSampleOrigin(verb: string)
    ensures !AllowedOriginPrefix("http://100.64.0.1:3000")
    ensures SplitHostPort("100.64.0.1:3000") == Success(("100.64.0.1", "3000"))
    ensures !IsLocalIPAsWritten(ParseIP("100.64.0.1"))
    ensures Cors(true, "http://100.64.0.1:3000", Some("100.64.0.1:3000"), verb) == (if verb == "OPTIONS" then NoContent else PassOn)
  {
    var origin := "http://100.64.0.1:3000";
    assert origin[0] == 'h' && origin[7] == '1' && origin[8] == '0';
    assert !AllowedOriginPrefix(origin);
    FormatCgnatSample();
    assert FormatIPv4(CgnatSample) + ":" + "3000" == "100.64.0.1:3000";
    CgnatPeerDroppedAsWritten(CgnatSample, "3000");
  }

  /**
   * `strictLocalListener.Accept`: take connections in arrival order, close
   * each non-local one and hand back the first local one. Running out of
   * connections stands for the listener's own error.
   */
  method AcceptLocal(remotes: seq<string>) returns (accepted: Option<nat>, closed: seq<string>)
    ensures accepted.Some? ==> accepted.value < |remotes| && IsLocalConnection(remotes[accepted.value])
    ensures accepted.Some? ==> closed == remotes[..accepted.value]
    ensures accepted.None? ==> closed == remotes
    ensures forall k :: 0 <= k < |closed| ==> !IsLocalConnection(closed[k])
  {
    accepted, closed := AcceptWhere(remotes, IsLocalConnection);
  }

  /** The accept loop for a given admission test. */
  method AcceptWhere(remotes: seq<string>, admit: string -> bool) returns (accepted: Option<nat>, closed: seq<string>)
    ensures accepted.Some? ==> accepted.value < |remotes| && admit(remotes[accepted.value])
    ensures accepted.Some? ==> closed == remotes[..accepted.value]
    ensures accepted.None? ==> closed == remotes
    ensures forall k :: 0 <= k < |closed| ==> !admit(closed[k])
  {
    closed := [];
    var i := 0;
    while i < |remotes|
      invariant 0 <= i <= |remotes|
      invariant closed == remotes[..i]
      invariant forall k :: 0 <= k < i ==> !admit(remotes[k])
    {
      if admit(remotes[i]) {
        return Some(i), closed;
      }
      closed := closed + [remotes[i]];
      i := i + 1;
    }
    assert remotes[..i] == remotes;
    accepted := None;
  }

  // ---------------------------------------------------------------------
  // isLocalURL

  /** The host `isLocalURL` looks at: after the first "://", up to "/" and then ":". */
  function UrlHost(url: string): (host: string)
    requires Contains(url, "://")
    ensures ':' !in host && '/' !in host
  {
    var parts := SplitOn(url, "://");
    SplitOnSecond(url, "://");
    var hostPort := Split(parts[1], '/')[0];
    Split(hostPort, ':')[0]
  }

  predicate LocalUrlPrefix(url: string) {
    StartsWith(url, "http://127.0.0.1") || StartsWith(url, "http://localhost") || StartsWith(url, "http://[::1]")
  }

  /** `isLocalURL` with the CGNAT clause as written. */
  predicate IsLocalURLAsWritten(url: string) {
    LocalUrlPrefix(url) || (Contains(url, "://") && ParseIP(UrlHost(url)).Some? && IsLocalIPAsWritten(ParseIP(UrlHost(url))))
  }

  /** A URL whose host parses as an address in 100.64.0.0/10. */
  predicate CgnatUrlHost(url: string) {
    Contains(url, "://") && ParseIP(UrlHost(url)).Some? && Cgnat(ParseIP(UrlHost(url)).value)
  }

  /** `isLocalURL`: a local prefix, or a host that parses as a local address. */
  predicate IsLocalURL(url: string) {
    LocalUrlPrefix(url) || (Contains(url, "://") && ParseIP(UrlHost(url)).Some? && IsLocalIP(ParseIP(UrlHost(url))))
  }

  /** As written, a URL is local exactly when the corrected test says so and, past the prefixes, its host is outside 100.64.0.0/10. */
  lemma IsLocalURLAsWrittenGap(url: string)
    ensures IsLocalURLAsWritten(url) <==> IsLocalURL(url) && (LocalUrlPrefix(url) || !CgnatUrlHost(url))
  {
    if Contains(url, "://") {
      IsLocalIPAsWrittenGap(UrlHost(url));
    }
  }

  /** Without a local prefix, a URL is local only when its host is dotted decimal (a host name never is). */
  lemma IsLocalURLHost(url: string)
    requires IsLocalURL(url) && !LocalUrlPrefix(url)
    ensures Contains(url, "://")
    ensures var h := UrlHost(url); ParseIPv4(h).Some? && forall k :: 0 <= k < |h| ==> h[k] == '.' || IsDigit(h[k])
  {
    var h := UrlHost(url);
    var i := FirstSep(h).value;
    assert h[i] != ':';
    ParseIPv4Chars(h);
  }

  /** A host containing anything but digits and dots is not local, whatever follows it. */
  lemma HostnameNotLocalURL(url: string)
    requires !LocalUrlPrefix(url)
    requires Contains(url, "://") ==> exists k :: 0 <= k < |UrlHost(url)| && UrlHost(url)[k] != '.' && !IsDigit(UrlHost(url)[k])
    ensures !IsLocalURL(url)
  {
    if IsLocalURL(url) {
      IsLocalURLHost(url);
    }
  }

  /** The prefix test is textual: "http://localhost.example.com" counts as local. */
  lemma LocalhostLookalikeIsLocal()
    ensures IsLocalURL("http://localhost.example.com")
  {
    assert "http://localhost.example.com"[..16] == "http://localhost";
  }

  // ---------------------------------------------------------------------
  // The cors and localOnly middlewares

  datatype Outcome =
    | Reject(code: int, message: string)   // http.Error
    | NoContent                            // 204 to a preflight request
    | PassOn                               // the wrapped handler runs

  predicate AllowedOriginPrefix(origin: string) {
    StartsWith(origin, "file://")
    || StartsWith(origin, "http://localhost") || StartsWith(origin, "http://127.0.0.1")
    || StartsWith(origin, "http://[::1]")
  }

  /** The host of an origin names a parseable, non-local address (with or without a port). */
  predicate NonLocalOriginHost(host: string) {
    match SplitHostPort(host)
    case Success((h, _)) => ParseIP(h).Some? && !IsLocalIP(ParseIP(h))
    case Failure(_) => ParseIP(host).Some? && !IsLocalIP(ParseIP(host))
  }

  /**
   * `cors`. `originHost` is the Host of `url.Parse(origin)`, or None when
   * parsing fails.
   */
  function Cors(strict: bool, origin: string, originHost: Option<string>, verb: string): (o: Outcome)
    ensures o.Reject? ==> o == Reject(403, "Forbidden: non-local origin")
    ensures o.Reject? <==>
      strict && origin != "" && !AllowedOriginPrefix(origin) && originHost.Some? && NonLocalOriginHost(originHost.value)
    ensures !o.Reject? ==> (o == NoContent <==> verb == "OPTIONS")
  {
    if strict && origin != "" && !AllowedOriginPrefix(origin) && originHost.Some?
       && NonLocalOriginHost(originHost.value)
    then Reject(403, "Forbidden: non-local origin")
    else if verb == "OPTIONS" then NoContent
    else PassOn
  }

  /** Origins whose host is a name rather than an address always pass `cors`. */
  lemma CorsPassesHostNames(strict: bool, origin: string, host: string, verb: string)
    requires ParseIP(host).None?
    requires SplitHostPort(host).Success? ==> ParseIP(SplitHostPort(host).value.0).None?
    ensures !Cors(strict, origin, Some(host), verb).Reject?
  {
  }

  /** `localOnly`, on the request's RemoteAddr. */
  function LocalOnly(strict: bool, remoteAddr: string): (o: Outcome)
    ensures o == PassOn || o == Reject(400, "Invalid remote address") || o == Reject(403, "Forbidden: non-local access")
    ensures !strict ==> o == PassOn
    ensures strict && SplitHostPort(remoteAddr).Failure? ==> o.Reject? && o.code == 400
    ensures o == PassOn <==> !strict || (SplitHostPort(remoteAddr).Success? && IsLocalIP(ParseIP(SplitHostPort(remoteAddr).value.0)))
  {
    if !strict then PassOn
    else match SplitHostPort(remoteAddr)
      case Failure(_) => Reject(400, "Invalid remote address")
      case Success((host, _)) =>
        if !IsLocalIP(ParseIP(host)) then Reject(403, "Forbidden: non-local access") else PassOn
  }

  /** The server's handler chain `cors(localOnly(mux))`. */
  function Guard(strict: bool, origin: string, originHost: Option<string>, verb: string, remoteAddr: string): Outcome {
    var c := Cors(strict, origin, originHost, verb);
    if c.PassOn? then LocalOnly(strict, remoteAddr) else c
  }

  /** The mux is reached only from a local peer (in strict mode), and preflights never reach `localOnly`. */
  lemma GuardSpec(strict: bool, origin: string, originHost: Option<string>, verb: string, remoteAddr: string)
    ensures var g := Guard(strict, origin, originHost, verb, remoteAddr);
            (g == PassOn ==> verb != "OPTIONS" && (strict ==> IsLocalConnectionByIP(remoteAddr)))
            && (verb == "OPTIONS" && !Cors(strict, origin, originHost, verb).Reject? ==> g == NoContent)
  {
  }

  predicate IsLocalConnectionByIP(remoteAddr: string) {
    SplitHostPort(remoteAddr).Success? && IsLocalIP(ParseIP(SplitHostPort(remoteAddr).value.0))
  }

  /** Every peer `localOnly` admits is also admitted by the listener. */
  lemma LocalOnlyWithinListener(remoteAddr: string)
    requires LocalOnly(true, remoteAddr) == PassOn
    ensures IsLocalConnection(remoteAddr)
  {
    IsLocalConnectionSpec(remoteAddr);
  }

  /** As written too: a peer whose host passes `isLocalIP` as written passes `isLocalConnection` as written. */
  lemma LocalOnlyWithinListenerAsWritten(remoteAddr: string)
    requires SplitHostPort(remoteAddr).Success?
    requires IsLocalIPAsWritten(ParseIP(SplitHostPort(remoteAddr).value.0))
    ensures IsLocalConnectionAsWritten(remoteAddr)
  {
    IsLocalConnectionAsWrittenSpec(remoteAddr);
    IsLocalIPAsWrittenOnParsed(SplitHostPort(remoteAddr).value.0);
  }
}
