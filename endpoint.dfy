/** Endpoint addresses of cluster nodes: the URL string
    "sock://" + host + ":" + port that a node's endpoint table stores, and the
    fact that the string determines host and port (so that looking a node up by
    its exact address string is looking it up by host and port). */
module Endpoint {

  import opened RedisTypes

  /** The transport's URL scheme prefix. */
  const SCHEME: string := "sock://"

  predicate IsDigit(c: char)
  {
    '0' <= c <= '9'
  }

  predicate AllDigits(s: string)
  {
    forall k :: 0 <= k < |s| ==> IsDigit(s[k])
  }

  function DigitChar(d: nat): (c: char)
    requires d < 10
    ensures IsDigit(c) && c as int - '0' as int == d
  {
    ('0' as int + d) as char
  }

  /** Decimal rendering of a non-negative number, as printf's "%d" writes it:
      at least one digit and no leading zero. */
  function Decimal(n: nat): (s: string)
    ensures |s| >= 1 && AllDigits(s)
    ensures s[0] == '0' <==> n == 0
    decreases n
  {
    if n < 10 then [DigitChar(n)] else Decimal(n / 10) + [DigitChar(n % 10)]
  }

  /** The number a string of decimal digits denotes. */
  function DecimalValue(s: string): nat
    requires AllDigits(s)
  {
    if s == [] then 0 else DecimalValue(s[..|s| - 1]) * 10 + (s[|s| - 1] as int - '0' as int)
  }

  lemma {:induction false} DecimalRoundTrip(n: nat)
    ensures DecimalValue(Decimal(n)) == n
  {
    if n >= 10 {
      var s := Decimal(n);
      assert s[..|s| - 1] == Decimal(n / 10);
      DecimalRoundTrip(n / 10);
    }
  }

  /** The endpoint URL for host and port. */
  function FormatUrl(host: string, port: nat): string
  {
    SCHEME + host + ":" + Decimal(port)
  }

  /** Position of the last ':' in s, if there is one. */
  function LastColon(s: string): (r: Option<nat>)
    ensures r.Some? ==> r.value < |s| && s[r.value] == ':'
    ensures r.Some? ==> forall k :: r.value < k < |s| ==> s[k] != ':'
    ensures r.None? ==> forall k :: 0 <= k < |s| ==> s[k] != ':'
  {
    if s == [] then None
    else if s[|s| - 1] == ':' then Some(|s| - 1)
    else LastColon(s[..|s| - 1])
  }

  /** The inverse of FormatUrl: splits a "sock://host:port" URL at its last
      colon. */
  function ParseUrl(url: string): Option<(string, nat)>
  {
    if |url| < |SCHEME| || url[..|SCHEME|] != SCHEME then None
    else
      var rest := url[|SCHEME|..];
      match LastColon(rest)
      case None => None
      case Some(c) =>
        var digits := rest[c + 1..];
        if digits == [] || !AllDigits(digits) then None
        else Some((rest[..c], DecimalValue(digits)))
  }

  lemma UrlRoundTrip(host: string, port: nat)
    ensures ParseUrl(FormatUrl(host, port)) == Some((host, port))
  {
    var url := FormatUrl(host, port);
    var digits := Decimal(port);
    var rest := host + ":" + digits;
    assert url[..|SCHEME|] == SCHEME;
    assert url[|SCHEME|..] == rest;
    var c := LastColon(rest);
    assert rest[|host|] == ':';
    assert forall k :: |host| < k < |rest| ==> rest[k] == digits[k - |host| - 1];
    assert c == Some(|host|);
    assert rest[|host| + 1..] == digits;
    assert rest[..|host|] == host;
    DecimalRoundTrip(port);
  }

  /** Distinct (host, port) pairs give distinct endpoint URLs. */
  lemma FormatUrlInjective(h1: string, p1: nat, h2: string, p2: nat)
    ensures FormatUrl(h1, p1) == FormatUrl(h2, p2) <==> h1 == h2 && p1 == p2
  {
    UrlRoundTrip(h1, p1);
    UrlRoundTrip(h2, p2);
  }
}
