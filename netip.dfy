/**
 * The parts of Go's `net` package the server's access guards rely on:
 * `ParseIP` (as implemented on top of `netip.ParseAddr`), the `To4`
 * conversion, the address-class predicates and `SplitHostPort`.
 * Addresses are byte sequences; `ParseIP` always yields the 16-byte form,
 * with IPv4 text giving the IPv4-mapped address ::ffff:a.b.c.d.
 */
module NetIP {
  import opened Wrappers
  import opened Text

  type Byte = bv8
  type IP = seq<Byte>

  function Zeros(n: nat): (z: IP)
    ensures |z| == n && forall k :: 0 <= k < n ==> z[k] == 0
  {
    if n == 0 then [] else Zeros(n - 1) + [0]
  }

  /** The IPv4-mapped IPv6 form of a 4-byte address. */
  function V4Mapped(a: IP): (ip: IP)
    requires |a| == 4
    ensures |ip| == 16 && ip[12..] == a
  {
    Zeros(10) + [0xff, 0xff] + a
  }

  /** ::1 */
  const Loopback6: IP := Zeros(15) + [1]

  // ---------------------------------------------------------------------
  // Address classes (net.IP methods)

  /** `ip.To4()`: the 4-byte form of an IPv4 or IPv4-mapped address. */
  function To4(ip: IP): (r: Option<IP>)
    ensures r.Some? ==> |ip| >= 4 && |r.value| == 4 && r.value == ip[|ip| - 4..]
    ensures |ip| == 4 ==> r == Some(ip)
  {
    if |ip| == 4 then Some(ip)
    else if |ip| == 16 && ip[..10] == Zeros(10) && ip[10] == 0xff && ip[11] == 0xff then Some(ip[12..])
    else None
  }

  /** To4 accepts exactly the 4-byte addresses and the IPv4-mapped 16-byte ones. */
  lemma To4Accepts(ip: IP)
    ensures To4(ip).Some? <==> |ip| == 4 || (|ip| == 16 && ip == V4Mapped(ip[12..]))
  {
    if |ip| == 16 {
      if ip == V4Mapped(ip[12..]) {
        assert ip[..10] == Zeros(10);
      }
      if ip[..10] == Zeros(10) && ip[10] == 0xff && ip[11] == 0xff {
        assert ip == ip[..10] + [ip[10], ip[11]] + ip[12..];
      }
    }
  }

  lemma To4OfV4Mapped(a: IP)
    requires |a| == 4
    ensures To4(V4Mapped(a)) == Some(a)
  {
    To4Accepts(V4Mapped(a));
  }

  /** `ip.IsLoopback()`. */
  predicate IsLoopback(ip: IP) {
    match To4(ip)
    case Some(ip4) => ip4[0] == 127
    case None => ip == Loopback6
  }

  /** `ip.IsPrivate()`: RFC 1918 and RFC 4193 ranges, checked with masks. */
  predicate IsPrivate(ip: IP) {
    match To4(ip)
    case Some(ip4) =>
      ip4[0] == 10 || (ip4[0] == 172 && ip4[1] & 0xf0 == 16) || (ip4[0] == 192 && ip4[1] == 168)
    case None => |ip| == 16 && ip[0] & 0xfe == 0xfc
  }

  /** `ip.IsLinkLocalUnicast()`: 169.254.0.0/16 and fe80::/10. */
  predicate IsLinkLocalUnicast(ip: IP) {
    match To4(ip)
    case Some(ip4) => ip4[0] == 169 && ip4[1] == 254
    case None => |ip| == 16 && ip[0] == 0xfe && ip[1] & 0xc0 == 0x80
  }

  /** `ip.IsLinkLocalMulticast()`: 224.0.0.0/24 and ff02::/16 (any flags). */
  predicate IsLinkLocalMulticast(ip: IP) {
    match To4(ip)
    case Some(ip4) => ip4[0] == 224 && ip4[1] == 0 && ip4[2] == 0
    case None => |ip| == 16 && ip[0] == 0xff && ip[1] & 0x0f == 0x02
  }

  // Reference definitions of the same classes, written as numeric ranges
  // (prefix lengths spelled out), for comparison with the masks above.

  predicate InRange(b: Byte, lo: int, hi: int) { lo <= b as int <= hi }

  predicate PrivateRanges(ip: IP) {
    match To4(ip)
    case Some(a) =>
      a[0] == 10                                  // 10.0.0.0/8
      || (a[0] == 172 && InRange(a[1], 16, 31))   // 172.16.0.0/12
      || (a[0] == 192 && a[1] == 168)             // 192.168.0.0/16
    case None => |ip| == 16 && InRange(ip[0], 0xfc, 0xfd)   // fc00::/7
  }

  predicate LinkLocalUnicastRanges(ip: IP) {
    match To4(ip)
    case Some(a) => a[0] == 169 && a[1] == 254                                 // 169.254.0.0/16
    case None => |ip| == 16 && ip[0] == 0xfe && InRange(ip[1], 0x80, 0xbf)     // fe80::/10
  }

  lemma MaskF0(b: Byte)
    ensures b & 0xf0 == 16 <==> InRange(b, 16, 31)
  {
    assert b & 0xf0 == 16 <==> 16 <= b <= 31;
  }

  lemma MaskFE(b: Byte)
    ensures b & 0xfe == 0xfc <==> InRange(b, 0xfc, 0xfd)
  {
    assert b & 0xfe == 0xfc <==> 0xfc <= b <= 0xfd;
  }

  lemma MaskC0(b: Byte)
    ensures b & 0xc0 == 0x80 <==> InRange(b, 0x80, 0xbf)
  {
    assert b & 0xc0 == 0x80 <==> 0x80 <= b <= 0xbf;
  }

  lemma IsPrivateRanges(ip: IP)
    ensures IsPrivate(ip) <==> PrivateRanges(ip)
  {
    match To4(ip)
    case Some(a) => MaskF0(a[1]);
    case None => if |ip| == 16 { MaskFE(ip[0]); }
  }

  lemma IsLinkLocalUnicastRanges(ip: IP)
    ensures IsLinkLocalUnicast(ip) <==> LinkLocalUnicastRanges(ip)
  {
    match To4(ip)
    case Some(a) =>
    case None => if |ip| == 16 { MaskC0(ip[1]); }
  }

  // ---------------------------------------------------------------------
  // ParseIP

  /** One dotted-decimal field: digits, no leading zero, at most 255. */
  predicate ValidOctet(f: string) {
    |f| >= 1 && AllDigits(f) && (f[0] == '0' ==> |f| == 1) && DecimalValue(f) <= 255
  }

  function OctetByte(f: string): Byte
    requires ValidOctet(f)
  {
    DecimalValue(f) as Byte
  }

  function OctetsOf(fields: seq<string>): (b: IP)
    requires forall k :: 0 <= k < |fields| ==> ValidOctet(fields[k])
    ensures |b| == |fields|
  {
    seq(|fields|, k requires 0 <= k < |fields| => OctetByte(fields[k]))
  }

  /** Dotted-decimal IPv4 text: exactly four valid fields. */
  function ParseIPv4(s: string): (r: Option<IP>)
    ensures r.Some? ==> |r.value| == 4
    ensures r.Some? <==> |Split(s, '.')| == 4 && forall k :: 0 <= k < 4 ==> ValidOctet(Split(s, '.')[k])
  {
    var fields := Split(s, '.');
    if |fields| == 4 && forall k :: 0 <= k < 4 ==> ValidOctet(fields[k]) then Some(OctetsOf(fields))
    else None
  }

  predicate IsHex(c: char) { '0' <= c <= '9' || 'a' <= c <= 'f' || 'A' <= c <= 'F' }

  function HexDigitValue(c: char): (d: nat)
    requires IsHex(c)
    ensures d < 16
  {
    if '0' <= c <= '9' then c as int - '0' as int
    else if 'a' <= c <= 'f' then c as int - 'a' as int + 10
    else c as int - 'A' as int + 10
  }

  /** Number of hexadecimal digits at the start of `s`. */
  function HexRun(s: string): (n: nat)
    ensures n <= |s| && forall k :: 0 <= k < n ==> IsHex(s[k])
    ensures n < |s| ==> !IsHex(s[n])
  {
    if s == [] || !IsHex(s[0]) then 0 else 1 + HexRun(s[1..])
  }

  function HexValue(s: string): (v: nat)
    requires forall k :: 0 <= k < |s| ==> IsHex(s[k])
    ensures |s| <= 4 ==> v < 0x10000
    ensures |s| <= 3 ==> v < 0x1000
    ensures |s| <= 2 ==> v < 0x100
    ensures |s| <= 1 ==> v < 0x10
  {
    if s == [] then 0 else HexValue(s[..|s| - 1]) * 16 + HexDigitValue(s[|s| - 1])
  }

  /** A 16-bit group as two bytes, most significant first. */
  function GroupBytes(v: nat): (b: IP)
    requires v < 0x10000
    ensures |b| == 2
  {
    var w := v as bv16;
    [(w >> 8) as Byte, (w & 0xff) as Byte]
  }

  /**
   * The group-by-group scan of colon-separated IPv6 text after any leading
   * "::" has been consumed: `acc` holds the bytes so far, `ell` the position
   * of the "::" if one was seen. Yields the bytes and the "::" position.
   */
  function Scan6(s: string, acc: IP, ell: Option<nat>): (r: Option<(IP, Option<nat>)>)
    requires |acc| < 16 && |acc| % 2 == 0 && (ell.Some? ==> ell.value <= |acc|)
    ensures r.Some? ==> |acc| < |r.value.0| <= 16 && acc <= r.value.0
    ensures r.Some? && r.value.1.Some? ==> r.value.1.value <= |r.value.0|
    decreases |s|
  {
    var n := HexRun(s);
    if n == 0 || n > 4 then None
    else if n < |s| && s[n] == '.' then
      // an embedded IPv4 address ends the text
      if ell.None? && |acc| != 12 then None
      else if |acc| + 4 > 16 then None
      else match ParseIPv4(s)
        case None => None
        case Some(b) => Some((acc + b, ell))
    else
      assert forall k :: 0 <= k < n ==> s[..n][k] == s[k];
      var acc' := acc + GroupBytes(HexValue(s[..n]));
      var rest := s[n..];
      if rest == [] then Some((acc', ell))
      else if rest[0] != ':' || |rest| == 1 then None
      else if rest[1] == ':' then
        if ell.Some? then None
        else if |rest| == 2 then Some((acc', Some(|acc'|)))
        else if |acc'| == 16 then None
        else Scan6(rest[2..], acc', Some(|acc'|))
      else if |acc'| == 16 then None
      else Scan6(rest[1..], acc', ell)
  }

  /** Colon-separated IPv6 text (no zone), giving 16 bytes. */
  function ParseIPv6(s: string): (r: Option<IP>)
    ensures r.Some? ==> |r.value| == 16
  {
    var (body, ell) := if |s| >= 2 && s[..2] == "::" then (s[2..], Some(0)) else (s, None);
    if ell.Some? && body == [] then Some(Zeros(16))
    else match Scan6(body, [], ell)
      case None => None
      case Some((b, e)) =>
        if |b| < 16 then
          if e.None? then None else Some(b[..e.value] + Zeros(16 - |b|) + b[e.value..])
        else if e.Some? then None   // "::" must stand for at least one zero group
        else Some(b)
  }

  /** Index of the first '.', ':' or '%' in `s`; it decides how `s` is parsed. */
  function FirstSep(s: string): (r: Option<nat>)
    ensures r.Some? ==> r.value < |s| && s[r.value] in ".:%"
    ensures r.Some? ==> forall k :: 0 <= k < r.value ==> s[k] !in ".:%"
    ensures r.None? ==> forall k :: 0 <= k < |s| ==> s[k] !in ".:%"
  {
    if s == [] then None
    else if s[0] in ".:%" then Some(0)
    else match FirstSep(s[1..])
      case None => None
      case Some(i) => Some(i + 1)
  }

  /**
   * `net.ParseIP`: IPv4 or IPv6 text, or None. A zone ("%eth0") is refused,
   * as is text with neither dots nor colons.
   */
  function ParseIP(s: string): (r: Option<IP>)
    ensures r.Some? ==> |r.value| == 16
    ensures '%' in s ==> r.None?
  {
    match FirstSep(s)
    case None => None
    case Some(i) =>
      if s[i] == '.' then
        match ParseIPv4(s)
        case Some(a) =>
          ParseIPv4Chars(s);
          Some(V4Mapped(a))
        case None => None
      else if s[i] == ':' && '%' !in s then ParseIPv6(s)
      else None
  }

  /** A character other than `c` at index `k` of `s` lies in one of its parts, the `j`th. */
  lemma {:induction false} SplitCharIn(s: string, c: char, k: nat) returns (j: nat)
    requires k < |s| && s[k] != c
    ensures j < |Split(s, c)| && s[k] in Split(s, c)[j]
    decreases |s|
  {
    match IndexOfChar(s, c)
    case None =>
      j := 0;
      assert Split(s, c)[0] == s;
    case Some(i) =>
      var rest := s[i + 1..];
      var parts := Split(s, c);
      assert parts == [s[..i]] + Split(rest, c);
      if k < i {
        j := 0;
        assert s[..i][k] == s[k];
      } else {
        assert k != i;
        assert rest[k - i - 1] == s[k];
        var j' := SplitCharIn(rest, c, k - i - 1);
        j := j' + 1;
        assert parts[j] == Split(rest, c)[j'];
      }
  }

  /** Text that parses as IPv4 holds only digits and dots. */
  lemma ParseIPv4Chars(s: string)
    requires ParseIPv4(s).Some?
    ensures forall k :: 0 <= k < |s| ==> s[k] == '.' || IsDigit(s[k])
    ensures '%' !in s && ':' !in s
  {
    var parts := Split(s, '.');
    forall k | 0 <= k < |s| ensures s[k] == '.' || IsDigit(s[k]) {
      if s[k] != '.' {
        var j := SplitCharIn(s, '.', k);
        assert ValidOctet(parts[j]);
      }
    }
  }

  // ---------------------------------------------------------------------
  // Formatting and the round trip for IPv4

  function FormatIPv4(a: IP): (s: string)
    requires |a| == 4
  {
    Join([NatToString(a[0] as nat), NatToString(a[1] as nat), NatToString(a[2] as nat),
          NatToString(a[3] as nat)], '.')
  }

  lemma OctetOfNatToString(n: nat)
    requires n <= 255
    ensures ValidOctet(NatToString(n)) && '.' !in NatToString(n)
    ensures DecimalValue(NatToString(n)) == n
  {
    DecimalValueOfNatToString(n);
    var f := NatToString(n);
    assert forall k :: 0 <= k < |f| ==> f[k] != '.';
  }

  lemma NoSepBeforeDot(p: string, rest: string)
    requires AllDigits(p) && |p| >= 1
    ensures FirstSep(p + ['.'] + rest) == Some(|p|)
  {
    var s := p + ['.'] + rest;
    assert forall k :: 0 <= k < |p| ==> s[k] == p[k];
    assert s[|p|] == '.';
    assert forall k :: 0 <= k < |p| ==> s[k] !in ".:%";
  }

  function FormatFields(a: IP): (fs: seq<string>)
    requires |a| == 4
    ensures |fs| == 4
    ensures forall k :: 0 <= k < 4 ==> ValidOctet(fs[k]) && '.' !in fs[k] && DecimalValue(fs[k]) == a[k] as nat
  {
    OctetOfNatToString(a[0] as nat);
    OctetOfNatToString(a[1] as nat);
    OctetOfNatToString(a[2] as nat);
    OctetOfNatToString(a[3] as nat);
    [NatToString(a[0] as nat), NatToString(a[1] as nat), NatToString(a[2] as nat), NatToString(a[3] as nat)]
  }

  lemma ParseIPv4Format(a: IP)
    requires |a| == 4
    ensures ParseIPv4(FormatIPv4(a)) == Some(a)
  {
    var fs := FormatFields(a);
    assert FormatIPv4(a) == Join(fs, '.');
    SplitJoin(fs, '.');
    var b := OctetsOf(fs);
    forall k | 0 <= k < 4 ensures b[k] == a[k] {
      assert b[k] == OctetByte(fs[k]) == (a[k] as nat) as Byte;
    }
    assert b == a;
  }

  /** Printing an IPv4 address in dotted decimal and parsing it back gives its mapped form. */
  lemma ParseFormatIPv4(a: IP)
    requires |a| == 4
    ensures ParseIP(FormatIPv4(a)) == Some(V4Mapped(a))
  {
    var fs := FormatFields(a);
    var s := FormatIPv4(a);
    assert s == fs[0] + ['.'] + Join(fs[1..], '.');
    NoSepBeforeDot(fs[0], Join(fs[1..], '.'));
    ParseIPv4Format(a);
  }

  // ---------------------------------------------------------------------
  // SplitHostPort

  const MissingPort := "missing port in address"
  const TooManyColons := "too many colons in address"

  /** `net.SplitHostPort`: host and port, or the error message. */
  function SplitHostPort(hostport: string): (r: Result<(string, string), string>)
    ensures r.Success? ==> ':' in hostport
    ensures r.Success? ==> ':' !in r.value.1 && '[' !in r.value.1 && ']' !in r.value.1
    ensures ':' !in hostport ==> r == Failure(MissingPort)
  {
    match LastIndexOfChar(hostport, ':')
    case None => Failure(MissingPort)
    case Some(i) =>
      var hp: Result<(string, nat, nat), string> :=
        if hostport[0] == '[' then
          match IndexOfChar(hostport, ']')
          case None => Failure("missing ']' in address")
          case Some(end) =>
            if end + 1 == |hostport| then Failure(MissingPort)
            else if end + 1 == i then Success((hostport[1..end], 1, end + 1))
            else if hostport[end + 1] == ':' then Failure(TooManyColons)
            else Failure(MissingPort)
        else
          var host := hostport[..i];
          if ':' in host then Failure(TooManyColons) else Success((host, 0, 0));
      match hp
      case Failure(e) => Failure(e)
      case Success((host, j, k)) =>
        if '[' in hostport[j..] then Failure("unexpected '[' in address")
        else if ']' in hostport[k..] then Failure("unexpected ']' in address")
        else
          SubstringNotIn(hostport, j, i + 1, '[');
          SubstringNotIn(hostport, k, i + 1, ']');
          Success((host, hostport[i + 1..]))
  }

  lemma SubstringNotIn(s: string, j: nat, i: nat, c: char)
    requires j <= i <= |s| && c !in s[j..]
    ensures c !in s[i..]
  {
    assert forall k :: 0 <= k < |s| - i ==> s[i..][k] == s[j..][k + i - j];
  }

  /** `net.JoinHostPort`. */
  function JoinHostPort(host: string, port: string): string {
    if ':' in host then "[" + host + "]:" + port else host + ":" + port
  }

  /** For hosts and ports without brackets (and ports without colons), SplitHostPort undoes JoinHostPort. */
  lemma SplitJoinHostPort(host: string, port: string)
    requires '[' !in host && ']' !in host
    requires ':' !in port && '[' !in port && ']' !in port
    ensures SplitHostPort(JoinHostPort(host, port)) == Success((host, port))
  {
    if ':' in host {
      SplitJoinBracketed(host, port);
    } else {
      SplitJoinPlain(host, port);
    }
  }

  lemma SplitJoinPlain(host: string, port: string)
    requires ':' !in host && '[' !in host && ']' !in host
    requires ':' !in port && '[' !in port && ']' !in port
    ensures SplitHostPort(host + ":" + port) == Success((host, port))
  {
    var hp := host + ":" + port;
    assert hp[|host| + 1..] == port;
    LastIndexOfCharIs(hp, ':', |host|);
    assert hp[..|host|] == host;
    assert hp[0] != '[' by {
      if |host| > 0 { assert hp[0] == host[0]; }
    }
    assert hp[0..] == hp;
  }

  lemma SplitJoinBracketed(host: string, port: string)
    requires '[' !in host && ']' !in host
    requires ':' !in port && '[' !in port && ']' !in port
    ensures SplitHostPort("[" + host + "]:" + port) == Success((host, port))
  {
    var hp := "[" + host + "]:" + port;
    var n := |host| + 2;
    assert hp[n + 1..] == port;
    LastIndexOfCharIs(hp, ':', n);
    assert hp[..|host| + 1] == "[" + host;
    IndexOfCharIs(hp, ']', |host| + 1);
    assert hp[1..|host| + 1] == host;
    assert hp[1..] == host + "]:" + port;
    assert hp[n..] == ":" + port;
  }
}
