/**
 * Client metadata of a request: `parseSessionMetasFromRequest`
 * (src/helpers/parseSessionMetasFromRequest.ts) and the inline computation of
 * the resolve hook (src/pluginFactory.ts:61-66).
 *
 * The request is given by its proxy chain `ips` (absent unless the server
 * trusts proxies), its socket address `ip` and its `user-agent` header.
 */
module MetasParsing {
  import opened Wrappers
  import opened Text
  import opened Types

  const Loopback: string := "127.0.0.1"

  /** `request?.ips || [request.ip]`: an array is truthy even when empty, so
      only an absent `ips` falls back to `ip`. */
  function Candidates(ips: Option<seq<string>>, ip: string): seq<string>
  {
    if ips.Some? then ips.value else [ip]
  }

  /** `.filter((ip) => ip !== "127.0.0.1")`: the addresses other than the IPv4
      loopback, in their order. */
  function FilterLoopback(xs: seq<string>): (r: seq<string>)
    ensures |r| <= |xs|
    ensures forall a :: a in r <==> a in xs && a != Loopback
    ensures (r == []) <==> (forall i :: 0 <= i < |xs| ==> xs[i] == Loopback)
    ensures r != [] ==> exists i :: 0 <= i < |xs| && xs[i] == r[0] && forall j :: 0 <= j < i ==> xs[j] == Loopback
  {
    if xs == [] then []
    else
      var rest := FilterLoopback(xs[1..]);
      if xs[0] == Loopback then
        assert forall a :: a in xs <==> a == xs[0] || a in xs[1..];
        if rest == [] then rest
        else
          var i :| 0 <= i < |xs[1..]| && xs[1..][i] == rest[0] && forall j :: 0 <= j < i ==> xs[1..][j] == Loopback;
          assert xs[i + 1] == rest[0] && forall j :: 0 <= j < i + 1 ==> xs[j] == Loopback;
          rest
      else
        assert forall a :: a in xs <==> a == xs[0] || a in xs[1..];
        [xs[0]] + rest
  }

  /** `ipAddresses.length >= 1 ? ipAddresses[0] : undefined`. */
  function DetectedIPAddress(ips: Option<seq<string>>, ip: string): (r: Option<string>)
    ensures r.Some? ==> r.value != Loopback && r.value in Candidates(ips, ip)
    ensures r.None? <==> forall i :: 0 <= i < |Candidates(ips, ip)| ==> Candidates(ips, ip)[i] == Loopback
    ensures r.Some? ==> exists i :: 0 <= i < |Candidates(ips, ip)| && Candidates(ips, ip)[i] == r.value
                                  && forall j :: 0 <= j < i ==> Candidates(ips, ip)[j] == Loopback
  {
    var filtered := FilterLoopback(Candidates(ips, ip));
    if |filtered| >= 1 then
      assert filtered[0] in filtered;
      Some(filtered[0])
    else None
  }

  /** The header if it is present and not blank after `trim`, untrimmed; else undefined. */
  function DetectedUserAgent(userAgent: Option<string>): (r: Option<string>)
    ensures r.None? <==> userAgent.None? || AllWhitespace(userAgent.value)
    ensures r.Some? ==> r == userAgent
  {
    if userAgent.Some? then
      TrimEmptyIff(userAgent.value);
      if Trim(userAgent.value) != "" then userAgent else None
    else None
  }

  /** The helper's result: both fields optional. */
  datatype DetectedMetas = DetectedMetas(detectedIPAddress: Option<string>, detectedUserAgent: Option<string>)

  function ParseSessionMetasFromRequest(ips: Option<seq<string>>, ip: string, userAgent: Option<string>): DetectedMetas
  {
    DetectedMetas(DetectedIPAddress(ips, ip), DetectedUserAgent(userAgent))
  }

  const NotSet: string := "<not-set>"

  /** The resolve hook's own copy: the same address, but the user agent is
      `header || "<not-set>"`, so only an absent or empty header is replaced. */
  function RequestMetas(ips: Option<seq<string>>, ip: string, userAgent: Option<string>): (m: Metas)
    ensures m.detectedIPAddress == DetectedIPAddress(ips, ip)
    ensures m.detectedUserAgent != ""
    ensures userAgent.None? || userAgent.value == "" ==> m.detectedUserAgent == NotSet
    ensures userAgent.Some? && userAgent.value != "" ==> m.detectedUserAgent == userAgent.value
  {
    Metas(DetectedIPAddress(ips, ip), if userAgent.Some? && userAgent.value != "" then userAgent.value else NotSet)
  }

  /** The inline copy agrees with the helper on the address, and on the user
      agent wherever the helper finds one; a blank but non-empty header is
      kept by the inline copy and dropped by the helper. */
  lemma InlineMetasVersusHelper(ips: Option<seq<string>>, ip: string, userAgent: Option<string>)
    ensures RequestMetas(ips, ip, userAgent).detectedIPAddress
         == ParseSessionMetasFromRequest(ips, ip, userAgent).detectedIPAddress
    ensures ParseSessionMetasFromRequest(ips, ip, userAgent).detectedUserAgent.Some? ==>
              (RequestMetas(ips, ip, userAgent).detectedUserAgent
               == ParseSessionMetasFromRequest(ips, ip, userAgent).detectedUserAgent.value)
    ensures userAgent == Some(" ") ==>
              RequestMetas(ips, ip, userAgent).detectedUserAgent == " "
              && ParseSessionMetasFromRequest(ips, ip, userAgent).detectedUserAgent == None
  {
    assert AllWhitespace("");
    if userAgent == Some(" ") {
      assert AllWhitespace(userAgent.value);
    }
  }

  /** A present empty proxy list yields no address, whatever the socket address. */
  lemma EmptyProxyListNoFallback(ip: string)
    ensures DetectedIPAddress(Some([]), ip) == None
  {
  }

  /** Only the exact IPv4 loopback is dropped: "::1" is kept. */
  lemma Ipv6LoopbackKept()
    ensures DetectedIPAddress(None, "::1") == Some("::1")
    ensures DetectedIPAddress(Some(["127.0.0.1", "::1"]), "10.0.0.1") == Some("::1")
  {
    assert "::1" != Loopback by { assert "::1"[0] != Loopback[0]; }
    assert FilterLoopback(["::1"]) == ["::1"] by {
      assert ["::1"][1..] == [];
    }
    assert ["127.0.0.1", "::1"][1..] == ["::1"];
  }
}
