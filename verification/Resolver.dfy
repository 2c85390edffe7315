/** The resolver setting: normalising it to host:port and splitting the result again. What counts as a
    textual IP address is a parameter, with the facts about its spelling that the normaliser relies on. */
module Resolver {
  import opened Common
  import opened DnsName

  const COLON := ':'
  const OPEN := '['
  const CLOSE := ']'
  const DEFAULT_PORT := "53"

  /** net.ParseIP and To4: `ip` are the accepted spellings, `v4` those that denote an IPv4 address. */
  datatype Addresses = Addresses(ip: string -> bool, v4: string -> bool)

  /** Addresses contain no brackets and are not empty, and one with a colon has at least two. */
  ghost predicate Spelled(a: Addresses) {
    forall s :: a.ip(s) ==>
      && s != "" && OPEN !in s && CLOSE !in s
      && forall i | 0 <= i < |s| && s[i] == COLON :: exists j | 0 <= j < |s| :: j != i && s[j] == COLON
  }

  /** Position of the last `c`, or -1. */
  function LastIndex(s: string, c: char): (r: int)
    ensures -1 <= r < |s|
    ensures r >= 0 ==> s[r] == c && forall k | r < k < |s| :: s[k] != c
    ensures r < 0 ==> c !in s
  {
    if s == "" then -1 else if s[|s| - 1] == c then |s| - 1 else LastIndex(s[..|s| - 1], c)
  }

  /** Position of the first `c`, or -1. */
  function FirstIndex(s: string, c: char): (r: int)
    ensures -1 <= r < |s|
    ensures r >= 0 ==> s[r] == c && forall k | 0 <= k < r :: s[k] != c
    ensures r < 0 ==> c !in s
  {
    if s == "" then -1 else if s[0] == c then 0
    else var r := FirstIndex(s[1..], c); if r < 0 then -1 else r + 1
  }

  datatype HostPort = HostPort(host: string, port: string)

  /** net.JoinHostPort. */
  function JoinHostPort(host: string, port: string): string {
    if COLON in host then [OPEN] + host + [CLOSE] + [COLON] + port else host + [COLON] + port
  }

  /** net.SplitHostPort; None for its errors. */
  function SplitHostPort(s: string): Option<HostPort> {
    var i := LastIndex(s, COLON);
    if i < 0 then None
    else if s[0] == OPEN then
      var end := FirstIndex(s, CLOSE);
      if end < 0 || end + 1 != i then None
      else if OPEN in s[1..] || CLOSE in s[end + 1..] then None
      else Some(HostPort(s[1..end], s[i + 1..]))
    else if COLON in s[..i] || OPEN in s || CLOSE in s then None
    else Some(HostPort(s[..i], s[i + 1..]))
  }

  predicate IsDigits(s: string) { s != "" && forall i | 0 <= i < |s| :: '0' <= s[i] <= '9' }

  function Value(digits: string): nat
    requires digits == "" || IsDigits(digits)
  {
    if digits == "" then 0 else 10 * Value(digits[..|digits| - 1]) + (digits[|digits| - 1] - '0') as nat
  }

  /** strconv.Atoi: an optional sign and decimal digits; None for its errors. */
  function Atoi(s: string): (r: Option<int>)
    ensures r.Some? ==> s != "" && '0' <= s[|s| - 1] <= '9'
    ensures r.Some? ==> COLON !in s && OPEN !in s && CLOSE !in s
  {
    if s == "" then None
    else if s[0] == '+' || s[0] == '-' then
      if !IsDigits(s[1..]) then None else
      var n: int := Value(s[1..]);
      assert forall k | 1 <= k < |s| :: s[k] == s[1..][k - 1];
      if s[0] == '-' then (if n > 0x8000_0000_0000_0000 then None else Some(-n))
      else if n > 0x7fff_ffff_ffff_ffff then None else Some(n)
    else if !IsDigits(s) then None
    else if Value(s) > 0x7fff_ffff_ffff_ffff then None else Some(Value(s))
  }

  ghost predicate GoodPort(port: string) { Atoi(port).Some? && 1 <= Atoi(port).value <= 65535 }

  ghost predicate GoodHost(a: Addresses, host: string) { a.ip(host) || Accepted(host, false) }

  /** Where the normaliser finds host and port, before it checks them; None for a malformed setting. */
  ghost function Parts(a: Addresses, s: string): Option<HostPort> {
    if s != "" && s[0] == OPEN && s[|s| - 1] == CLOSE then
      var host := s[1..|s| - 1];
      if a.ip(host) && !a.v4(host) then Some(HostPort(host, DEFAULT_PORT)) else None
    else if SplitHostPort(s).Some? then SplitHostPort(s)
    else if COLON in s then None
    else Some(HostPort(s, DEFAULT_PORT))
  }

  ghost function Normalised(a: Addresses, s: string): Option<string> {
    if a.ip(s) then Some(JoinHostPort(s, DEFAULT_PORT)) else
    var parts := Parts(a, s);
    if parts.Some? && parts.value.host != "" && GoodHost(a, parts.value.host) && GoodPort(parts.value.port)
    then Some(JoinHostPort(parts.value.host, parts.value.port)) else None
  }

  method ResolverAddress(a: Addresses, resolver: string) returns (r: Option<string>)
    ensures r == Normalised(a, resolver)
  {
    if a.ip(resolver) { return Some(JoinHostPort(resolver, DEFAULT_PORT)); }
    var host, port := resolver, DEFAULT_PORT;
    if resolver != "" && resolver[0] == OPEN && resolver[|resolver| - 1] == CLOSE {
      host := resolver[1..|resolver| - 1];
      if !a.ip(host) || a.v4(host) { return None; }
    } else {
      var split := SplitHostPort(resolver);
      if split.Some? {
        host, port := split.value.host, split.value.port;
      } else if COLON in resolver {
        return None;
      }
    }
    if host == "" { return None; }
    if !a.ip(host) {
      var valid := ValidDnsName(host, false);
      if !valid { return None; }
    }
    var n := Atoi(port);
    if n == None { return None; }
    if n.value < 1 || n.value > 65535 { return None; }
    return Some(JoinHostPort(host, port));
  }

  // ---- round trip ----

  predicate Plain(s: string) { OPEN !in s && CLOSE !in s }

  lemma LastColon(before: string, port: string)
    requires COLON !in port
    ensures var s := before + [COLON] + port;
      LastIndex(s, COLON) == |before| && s[..|before|] == before && s[|before| + 1..] == port
  {
    var s := before + [COLON] + port;
    assert s[|before|] == COLON;
    assert forall k | |before| < k < |s| :: s[k] == port[k - |before| - 1];
  }

  lemma SplitBracketed(host: string, port: string)
    requires Plain(host) && Plain(port) && COLON !in port
    ensures SplitHostPort([OPEN] + host + [CLOSE] + [COLON] + port) == Some(HostPort(host, port))
  {
    var s, end := [OPEN] + host + [CLOSE] + [COLON] + port, |host| + 1;
    LastColon([OPEN] + host + [CLOSE], port);
    assert s[0] == OPEN && s[end] == CLOSE;
    assert forall k | 1 <= k < end :: s[k] == host[k - 1];
    assert FirstIndex(s, CLOSE) == end;
    assert s[1..end] == host;
    assert s[1..] == host + [CLOSE] + [COLON] + port;
    assert s[end + 1..] == [COLON] + port;
  }

  lemma SplitPlain(host: string, port: string)
    requires Plain(host) && Plain(port) && COLON !in port && COLON !in host
    ensures SplitHostPort(host + [COLON] + port) == Some(HostPort(host, port))
  {
    LastColon(host, port);
    var s := host + [COLON] + port;
    assert Plain(s);
  }

  /** Joining a host and a port without brackets, the port without a colon, is undone by splitting. */
  lemma SplitJoinHostPort(host: string, port: string)
    requires Plain(host) && Plain(port) && COLON !in port
    ensures SplitHostPort(JoinHostPort(host, port)) == Some(HostPort(host, port))
  {
    if COLON in host { SplitBracketed(host, port); } else { SplitPlain(host, port); }
  }

  lemma NameIsPlain(host: string)
    requires Accepted(host, false)
    ensures Plain(host) && COLON !in host && host != ""
  {
    var t := TrimDot(host);
    JoinSplit(t);
    NoOddBytes(Split(t));
    assert host == t || host == t + [DOT];
  }

  lemma {:induction false} NoOddBytes(labels: seq<string>)
    requires labels != [] && forall l | l in labels :: IsLabel(l, false)
    ensures Plain(Join(labels)) && COLON !in Join(labels)
  {
    assert labels[0] in labels && IsLabel(labels[0], false);
    if |labels| > 1 { NoOddBytes(labels[1..]); }
  }

  lemma DefaultPortIsGood()
    ensures GoodPort(DEFAULT_PORT) && Atoi(DEFAULT_PORT) == Some(53)
  {
    assert Value("5") == 5;
    assert DEFAULT_PORT[..1] == "5";
  }

  /** An accepted setting has a host that is an address or a name and a port in range, and its normal form
      is their join. */
  lemma PartsOfAccepted(a: Addresses, s: string) returns (host: string, port: string)
    requires Spelled(a) && Normalised(a, s).Some?
    ensures Normalised(a, s) == Some(JoinHostPort(host, port))
    ensures GoodHost(a, host) && GoodPort(port) && Plain(host) && host != ""
  {
    if a.ip(s) {
      DefaultPortIsGood();
      return s, DEFAULT_PORT;
    }
    var parts := Parts(a, s).value;
    if !a.ip(parts.host) { NameIsPlain(parts.host); }
    return parts.host, parts.port;
  }

  lemma JoinIsNoAddress(a: Addresses, host: string, port: string)
    requires Spelled(a) && Plain(host) && COLON !in port
    ensures !a.ip(JoinHostPort(host, port))
  {
    var s := JoinHostPort(host, port);
    if COLON in host {
      assert s[0] == OPEN;
    } else {
      assert s[|host|] == COLON;
      assert forall j | 0 <= j < |s| && j != |host| :: s[j] == if j < |host| then host[j] else port[j - |host| - 1];
      assert forall j | 0 <= j < |s| && s[j] == COLON :: j == |host|;
    }
  }

  lemma PartsOfJoined(a: Addresses, host: string, port: string)
    requires Plain(host) && GoodPort(port)
    ensures Parts(a, JoinHostPort(host, port)) == Some(HostPort(host, port))
  {
    var t := JoinHostPort(host, port);
    SplitJoinHostPort(host, port);
    assert t[|t| - 1] == port[|port| - 1];
  }

  lemma JoinedIsNormal(a: Addresses, host: string, port: string)
    requires Spelled(a) && GoodHost(a, host) && GoodPort(port) && Plain(host) && host != ""
    ensures Normalised(a, JoinHostPort(host, port)) == Some(JoinHostPort(host, port))
  {
    PartsOfJoined(a, host, port);
    JoinIsNoAddress(a, host, port);
  }

  /** Normalising is idempotent, and splitting the normal form gives a valid host and a port in 1..65535. */
  lemma NormalFormRoundTrip(a: Addresses, s: string)
    requires Spelled(a) && Normalised(a, s).Some?
    ensures var t := Normalised(a, s).value;
      && Normalised(a, t) == Some(t)
      && SplitHostPort(t).Some?
      && GoodHost(a, SplitHostPort(t).value.host) && GoodPort(SplitHostPort(t).value.port)
  {
    var host, port := PartsOfAccepted(a, s);
    JoinedIsNormal(a, host, port);
    SplitJoinHostPort(host, port);
  }

  /** A host with the default port, spelled out. */
  function WithDefaultPort(host: string): string { if ':' in host then "[" + host + "]:53" else host + ":53" }

  lemma DefaultJoined(host: string)
    ensures JoinHostPort(host, DEFAULT_PORT) == WithDefaultPort(host)
  {
    assert [OPEN] + host + [CLOSE] + [COLON] + DEFAULT_PORT == "[" + host + "]:53";
  }

  /** An address or a name without a port gets the default port. */
  lemma BareFormsGetDefaultPort(a: Addresses, host: string)
    requires Spelled(a) && (a.ip(host) || Accepted(host, false))
    ensures Normalised(a, host) == Some(WithDefaultPort(host))
  {
    DefaultJoined(host);
    if a.ip(host) { return; }
    NameIsPlain(host);
    DefaultPortIsGood();
    assert Parts(a, host) == Some(HostPort(host, DEFAULT_PORT));
  }

  /** A bracketed address without a port is accepted exactly when it is IPv6, and then gets the default port. */
  lemma BracketedFormExactly(a: Addresses, host: string)
    requires Spelled(a)
    ensures Normalised(a, "[" + host + "]") == if a.ip(host) && !a.v4(host) then Some(WithDefaultPort(host)) else None
  {
    var s := "[" + host + "]";
    assert s[0] == OPEN && s[|s| - 1] == CLOSE && s[1..|s| - 1] == host;
    assert OPEN in s;
    DefaultPortIsGood();
    DefaultJoined(host);
  }

  /** The decimal text of a number. */
  function Decimal(n: nat): (s: string)
    ensures IsDigits(s)
  {
    if n < 10 then ['0' + n as char] else Decimal(n / 10) + ['0' + (n % 10) as char]
  }

  lemma {:induction false} ValueOfDecimal(n: nat)
    ensures Value(Decimal(n)) == n
  {
    if n < 10 {
      assert Decimal(n)[..0] == "";
    } else {
      ValueOfDecimal(n / 10);
      assert Decimal(n)[..|Decimal(n)| - 1] == Decimal(n / 10);
    }
  }

  /** A port in decimal digits is good exactly if it is from 1 to 65535. */
  lemma PortsExactly(n: nat)
    ensures GoodPort(Decimal(n)) <==> 1 <= n <= 65535
  {
    ValueOfDecimal(n);
    assert '0' <= Decimal(n)[0] <= '9';
  }
}
