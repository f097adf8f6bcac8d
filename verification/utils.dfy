/** The pure string helpers of the server: token generation, short-link formatting, the
    Host-header check and the path trimming used to extract a mapping. */
module Utils {
  import opened Decimal
  import opened Settings

  /** A random-number source: `draw(i)` is the raw value behind the i-th call of `Intn`. */
  type Draws = nat -> nat

  /** `rand.Intn(n)` as seen through the oracle: some value in [0, n). */
  function Intn(draw: Draws, i: nat, n: nat): (k: nat)
    requires n > 0
    ensures k < n
  {
    draw(i) % n
  }

  /** generateStringWithCharset: `length` positions, each a character of `charset` picked by
      the oracle. Characters are treated as the bytes Go indexes. */
  function GenerateString(length: nat, charset: string, draw: Draws): (r: string)
    requires length == 0 || |charset| > 0
    ensures |r| == length
    ensures forall i :: 0 <= i < |r| ==> r[i] in charset
  {
    seq(length, i requires 0 <= i < length => charset[Intn(draw, i, |charset|)])
  }

  /** The position of the first occurrence of `ch` in `s`. */
  function IndexOf(s: string, ch: char): (k: nat)
    requires ch in s
    ensures k < |s| && s[k] == ch
  {
    if s[0] == ch then 0 else 1 + IndexOf(s[1..], ch)
  }

  /** Position i of a generated token is the charset character the i-th draw picks. */
  lemma GenerateStringAt(length: nat, charset: string, draw: Draws, i: nat)
    requires |charset| > 0 && i < length
    ensures GenerateString(length, charset, draw)[i] == charset[draw(i) % |charset|]
  {
  }

  /** Draws that pick, at each position of t, the first occurrence of t's character. */
  function DrawsFor(charset: string, t: string): (draw: Draws)
    requires forall i :: 0 <= i < |t| ==> t[i] in charset
    ensures forall i :: 0 <= i < |t| ==> draw(i) < |charset| && charset[draw(i)] == t[i]
  {
    (i: nat) => if i < |t| then IndexOf(charset, t[i]) else 0
  }

  /** Every string of the right length over the charset is some run of the generator, so the
      oracle stands for the random source without ruling out any output. */
  lemma GenerateStringCoversAll(length: nat, charset: string, t: string)
    requires |charset| > 0
    requires |t| == length
    requires forall i :: 0 <= i < |t| ==> t[i] in charset
    ensures exists draw: Draws :: GenerateString(length, charset, draw) == t
  {
    var draw := DrawsFor(charset, t);
    var r := GenerateString(length, charset, draw);
    forall i | 0 <= i < length
      ensures r[i] == t[i]
    {
      GenerateStringAt(length, charset, draw, i);
      assert draw(i) % |charset| == draw(i);
    }
    assert r == t;
  }

  /** trimLeftChar: drops the first character (the first rune in Go); "" stays "". */
  function TrimLeftChar(s: string): (r: string)
    ensures |s| == 0 ==> r == ""
    ensures |s| > 0 ==> s == [s[0]] + r
  {
    if |s| == 0 then "" else s[1..]
  }

  /** A request path "/m" yields the mapping m. */
  lemma TrimLeftCharPath(m: string)
    ensures TrimLeftChar("/" + m) == m
  {
  }

  /** The scheme and host part of a short link: the port is written out unless it is the
      conventional one for http or https, and never for any other protocol. */
  function ShortLinkAuthority(c: Config): string {
    if c.protocol == "http" && c.port != 80 then
      "http://" + c.domain + ":" + Itoa(c.port)
    else if c.protocol == "https" && c.port != 443 then
      "https://" + c.domain + ":" + Itoa(c.port)
    else
      c.protocol + "://" + c.domain
  }

  /** buildMapping: the fully qualified short link for a token. */
  function BuildMapping(c: Config, mapping: string): (r: string)
    ensures |r| >= |c.protocol + "://" + c.domain| + 1 + |mapping|
    ensures r[..|c.protocol + "://" + c.domain|] == c.protocol + "://" + c.domain
    ensures r[|r| - |mapping| - 1..] == "/" + mapping
  {
    var a := ShortLinkAuthority(c);
    var p := c.protocol + "://" + c.domain;
    assert a[..|p|] == p;
    var r := a + "/" + mapping;
    assert r[..|p|] == a[..|p|];
    assert r[|r| - |mapping| - 1..] == "/" + mapping;
    r
  }

  /** The three cases of buildMapping, spelled out. */
  lemma BuildMappingCases(c: Config, mapping: string)
    ensures c.protocol == "http" && c.port != 80 ==>
      BuildMapping(c, mapping) == "http://" + c.domain + ":" + Itoa(c.port) + "/" + mapping
    ensures c.protocol == "https" && c.port != 443 ==>
      BuildMapping(c, mapping) == "https://" + c.domain + ":" + Itoa(c.port) + "/" + mapping
    ensures !(c.protocol == "http" && c.port != 80) && !(c.protocol == "https" && c.port != 443) ==>
      BuildMapping(c, mapping) == c.protocol + "://" + c.domain + "/" + mapping
  {
  }

  /** Distinct tokens give distinct short links under one configuration. */
  lemma BuildMappingInjective(c: Config, m1: string, m2: string)
    ensures BuildMapping(c, m1) == BuildMapping(c, m2) ==> m1 == m2
  {
    var a := ShortLinkAuthority(c);
    if BuildMapping(c, m1) == BuildMapping(c, m2) {
      assert |m1| == |m2|;
      assert m1 == BuildMapping(c, m1)[|a| + 1..];
    }
  }

  /** comingFromDomain: on ports 80 and 443 the Host header must be the bare domain, on any
      other port it must be "domain:port". */
  function ComingFromDomain(domain: string, port: int, host: string): (ok: bool)
    ensures ok ==> |domain| <= |host| && host[..|domain|] == domain
    ensures ok ==> (|host| == |domain| <==> port == 80 || port == 443)
  {
    if port != 80 && port != 443 then host == domain + ":" + Itoa(port) else host == domain
  }

  /** The two cases of the Host check. */
  lemma ComingFromDomainCases(domain: string, port: int, host: string)
    ensures (port == 80 || port == 443) ==> (ComingFromDomain(domain, port, host) <==> host == domain)
    ensures port != 80 && port != 443 ==>
      (ComingFromDomain(domain, port, host) <==> host == domain + ":" + Itoa(port))
  {
  }

  /** Off the default ports a Host header names exactly one port: the check for one port never
      accepts the Host of another. */
  lemma ComingFromDomainPortDetermined(domain: string, p1: int, p2: int, host: string)
    requires p1 != 80 && p1 != 443 && p2 != 80 && p2 != 443
    requires ComingFromDomain(domain, p1, host) && ComingFromDomain(domain, p2, host)
    ensures p1 == p2
  {
    assert Itoa(p1) == host[|domain| + 1..] == Itoa(p2);
    ItoaInjective(p1, p2);
  }

  /** A short link that writes its port names the port: two http (or two https) servers on the
      same domain and different non-default ports never hand out the same link. */
  lemma BuildMappingPortDetermined(c1: Config, c2: Config, mapping: string)
    requires c1.protocol == c2.protocol && c1.domain == c2.domain
    requires c1.protocol == "http" || c1.protocol == "https"
    requires c1.protocol == "http" ==> c1.port != 80 && c2.port != 80
    requires c1.protocol == "https" ==> c1.port != 443 && c2.port != 443
    requires BuildMapping(c1, mapping) == BuildMapping(c2, mapping)
    ensures c1.port == c2.port
  {
    var r := BuildMapping(c1, mapping);
    LinkAuthority(c1, mapping);
    LinkAuthority(c2, mapping);
    AuthorityWithPort(c1);
    AuthorityWithPort(c2);
    var a := r[..|r| - |mapping| - 1];
    var p := c1.protocol + "://" + c1.domain + ":";
    assert a == p + Itoa(c1.port);
    assert a == p + Itoa(c2.port);
    assert Itoa(c1.port) == a[|p|..];
    assert Itoa(c2.port) == a[|p|..];
    ItoaInjective(c1.port, c2.port);
  }

  /** When the port is written, the authority is protocol "://" domain ":" port. */
  lemma AuthorityWithPort(c: Config)
    requires (c.protocol == "http" && c.port != 80) || (c.protocol == "https" && c.port != 443)
    ensures ShortLinkAuthority(c) == c.protocol + "://" + c.domain + ":" + Itoa(c.port)
  {
  }

  /** The authority part of a link is everything before the "/" that precedes the token. */
  lemma LinkAuthority(c: Config, mapping: string)
    ensures var r := BuildMapping(c, mapping); r[..|r| - |mapping| - 1] == ShortLinkAuthority(c)
  {
    var a := ShortLinkAuthority(c);
    assert (a + "/" + mapping)[..|a|] == a;
  }

  /** On the default ports an explicit port in the Host header is refused. */
  lemma ComingFromDomainRefusesDefaultPort(domain: string, port: int)
    requires port == 80 || port == 443
    ensures !ComingFromDomain(domain, port, domain + ":" + Itoa(port))
  {
    assert |domain + ":" + Itoa(port)| > |domain|;
  }

  /** The host a short link names is a host the server accepts, whenever the protocol is http
      or https and the port is not the other protocol's default. */
  lemma ShortLinkHostAccepted(c: Config, mapping: string)
    requires c.protocol == "http" || c.protocol == "https"
    requires c.protocol == "http" ==> c.port != 443
    requires c.protocol == "https" ==> c.port != 80
    ensures exists host :: BuildMapping(c, mapping) == c.protocol + "://" + host + "/" + mapping
                        && ComingFromDomain(c.domain, c.port, host)
  {
    if c.port == 80 || c.port == 443 {
      assert ShortLinkAuthority(c) == c.protocol + "://" + c.domain;
      assert ComingFromDomain(c.domain, c.port, c.domain);
      assert BuildMapping(c, mapping) == c.protocol + "://" + c.domain + "/" + mapping;
    } else {
      var host := c.domain + ":" + Itoa(c.port);
      AuthorityWithPort(c);
      assert c.protocol + "://" + c.domain + ":" + Itoa(c.port) == c.protocol + "://" + host;
      assert ComingFromDomain(c.domain, c.port, host);
      assert BuildMapping(c, mapping) == c.protocol + "://" + host + "/" + mapping;
    }
  }

  /** Outside that case the link and the Host check disagree: an http server on port 443 hands
      out links naming "domain:443" but accepts only the bare domain. */
  lemma ShortLinkHostRefusedOnCrossedPort(c: Config, mapping: string)
    requires c.protocol == "http" && c.port == 443
    ensures BuildMapping(c, mapping) == "http://" + c.domain + ":443/" + mapping
    ensures !ComingFromDomain(c.domain, c.port, c.domain + ":443")
  {
    assert Itoa(443) == "443";
    assert |c.domain + ":443"| > |c.domain|;
  }
}
