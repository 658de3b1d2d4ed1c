/** What the generated server block promises, directive by directive. */
module ServerBlockFacts {
  import opened NginxConfig

  // The profile of each section: first for any lines of the section's shape,
  // then for the section itself.

  lemma RedirectShape(s: seq<Line>)
    requires |s| == 8
    requires s[0].directive == Comment && s[1].directive == Server && s[2].directive == Listen
      && s[3].directive == ServerName && s[4].directive == Blank && s[5].directive == Return
      && s[6].directive == Close && s[7].directive == Blank
    ensures ProfileOf(s) == NoArgs.(serverName := [s[3].rest], listen := [s[2].rest])
  {
    ArgsOne(s, ServerName, 3);
    ArgsOne(s, Listen, 2);
    ArgsNone(s, SslCertificate);
    ArgsNone(s, SslCertificateKey);
    ArgsNone(s, LimitReqZone);
    ArgsNone(s, ProxyPass);
    ArgsNone(s, ProxyHttpVersion);
  }

  lemma RedirectServerProfile(domain: string)
    ensures ProfileOf(RedirectServer(domain)) == NoArgs.(serverName := [ServerNames(domain)], listen := [" 80;"])
  {
    RedirectShape(RedirectServer(domain));
  }

  lemma TlsHeadShape(s: seq<Line>)
    requires |s| == 3
    requires s[0].directive == Server && s[1].directive == Listen && s[2].directive == ServerName
    ensures ProfileOf(s) == NoArgs.(serverName := [s[2].rest], listen := [s[1].rest])
  {
    ArgsOne(s, ServerName, 2);
    ArgsOne(s, Listen, 1);
    ArgsNone(s, SslCertificate);
    ArgsNone(s, SslCertificateKey);
    ArgsNone(s, LimitReqZone);
    ArgsNone(s, ProxyPass);
    ArgsNone(s, ProxyHttpVersion);
  }

  lemma TlsServerHeadProfile(domain: string)
    ensures ProfileOf(TlsServerHead(domain)) == NoArgs.(serverName := [ServerNames(domain)], listen := [" 443 ssl http2;"])
  {
    TlsHeadShape(TlsServerHead(domain));
  }

  /** Lines of which only line `k` uses a profiled directive, `d`. */
  lemma OneProfiledShape(s: seq<Line>, k: nat, d: Directive)
    requires k < |s| && s[k].directive == d
    requires d in {LimitReqZone, ProxyPass, ProxyHttpVersion}
    requires forall i :: 0 <= i < |s| && i != k ==> !Profiled(s[i].directive)
    ensures ProfileOf(s) == if d == LimitReqZone then NoArgs.(rateZone := [s[k].rest])
      else if d == ProxyPass then NoArgs.(proxyPass := [s[k].rest])
      else NoArgs.(httpVersion := [s[k].rest])
  {
    ArgsOne(s, d, k);
    ArgsNone(s, ServerName);
    ArgsNone(s, Listen);
    ArgsNone(s, SslCertificate);
    ArgsNone(s, SslCertificateKey);
    if d != LimitReqZone {
      ArgsNone(s, LimitReqZone);
    }
    if d != ProxyPass {
      ArgsNone(s, ProxyPass);
    }
    if d != ProxyHttpVersion {
      ArgsNone(s, ProxyHttpVersion);
    }
  }

  lemma RateLinesProfile(cfg: BlockSettings)
    ensures ProfileOf(RateLines(cfg)) == NoArgs.(rateZone := RateZoneArgs(cfg))
  {
    if cfg.rateLimit {
      OneProfiledShape(RateLines(cfg), 1, LimitReqZone);
    } else {
      UnprofiledNoArgs(RateLines(cfg));
    }
  }

  lemma CertificatesShape(s: seq<Line>)
    requires |s| == 3
    requires s[0].directive == SslCertificate && s[1].directive == SslCertificateKey && s[2].directive == Blank
    ensures ProfileOf(s) == NoArgs.(certificate := [s[0].rest], key := [s[1].rest])
  {
    ArgsOne(s, SslCertificate, 0);
    ArgsOne(s, SslCertificateKey, 1);
    ArgsNone(s, ServerName);
    ArgsNone(s, Listen);
    ArgsNone(s, LimitReqZone);
    ArgsNone(s, ProxyPass);
    ArgsNone(s, ProxyHttpVersion);
  }

  // Sections without a profiled directive.

  lemma TlsSettingsProfile(cfg: BlockSettings)
    ensures ProfileOf(TlsSettings(cfg)) == NoArgs
  {
    UnprofiledNoArgs(TlsSettings(cfg));
  }

  lemma SecurityHeadersProfile()
    ensures ProfileOf(SecurityHeaders()) == NoArgs
  {
    UnprofiledNoArgs(SecurityHeaders());
  }

  lemma ProxyTailProfile()
    ensures ProfileOf(ProxyTail()) == NoArgs
  {
    UnprofiledNoArgs(ProxyTail());
  }

  lemma HealthCheckProfile(cfg: BlockSettings)
    ensures ProfileOf(HealthCheck(cfg)) == NoArgs
  {
    UnprofiledNoArgs(HealthCheck(cfg));
  }

  lemma HardeningShape(c: seq<Line>, t: seq<Line>, h: seq<Line>, certificate: seq<string>, key: seq<string>)
    requires ProfileOf(c) == NoArgs.(certificate := certificate, key := key)
    requires ProfileOf(t) == NoArgs && ProfileOf(h) == NoArgs
    ensures ProfileOf(c + t + h) == NoArgs.(certificate := certificate, key := key)
  {
    ProfileAppend(c, t);
    ProfileAppend(c + t, h);
    MergeNoArgs(ProfileOf(c));
  }

  lemma HardeningProfile(domain: string, cfg: BlockSettings)
    ensures ProfileOf(Hardening(domain, cfg)) == NoArgs.(certificate := [CertificatePath(domain)], key := [KeyPath(domain)])
  {
    CertificatesShape(Certificates(domain));
    TlsSettingsProfile(cfg);
    SecurityHeadersProfile();
    HardeningShape(Certificates(domain), TlsSettings(cfg), SecurityHeaders(), [CertificatePath(domain)], [KeyPath(domain)]);
  }

  lemma ProxyHeadProfile(cfg: BlockSettings)
    ensures ProfileOf(ProxyHead(cfg)) == NoArgs.(proxyPass := [Backend(cfg)])
  {
    OneProfiledShape(ProxyHead(cfg), 1, ProxyPass);
  }

  /** Generic form of the `{websocket}` slot when it is filled: the
      request headers are those of lines 2 and 3. */
  lemma UpgradeShape(s: seq<Line>)
    requires |s| == 5
    requires s[0].directive == Blank && s[1].directive == ProxyHttpVersion
      && s[2].directive == ProxySetHeader && s[3].directive == ProxySetHeader && s[4].directive == Blank
    ensures Args(s, ProxySetHeader) == [s[2].rest, s[3].rest]
  {
    assert s == s[..2] + [s[2]] + [s[3]] + [s[4]];
    ArgsAppend(s[..2] + [s[2]] + [s[3]], [s[4]], ProxySetHeader);
    ArgsAppend(s[..2] + [s[2]], [s[3]], ProxySetHeader);
    ArgsAppend(s[..2], [s[2]], ProxySetHeader);
    ArgsNone(s[..2], ProxySetHeader);
    ArgsOne([s[2]], ProxySetHeader, 0);
    ArgsOne([s[3]], ProxySetHeader, 0);
    ArgsNone([s[4]], ProxySetHeader);
  }

  lemma WebSocketLinesProfile(cfg: BlockSettings)
    ensures ProfileOf(WebSocketLines(cfg)) == NoArgs.(httpVersion := HttpVersionArgs(cfg))
    ensures Args(WebSocketLines(cfg), ProxySetHeader) == UpgradeHeaders(cfg)
  {
    if cfg.websocket {
      OneProfiledShape(WebSocketLines(cfg), 1, ProxyHttpVersion);
      UpgradeShape(WebSocketLines(cfg));
    } else {
      UnprofiledNoArgs(WebSocketLines(cfg));
      ArgsNone(WebSocketLines(cfg), ProxySetHeader);
    }
  }

  /** Generic form of the proxy head: the request headers are those of
      lines 2 to 5. */
  lemma ForwardShape(s: seq<Line>)
    requires |s| == 6
    requires s[0].directive == Location && s[1].directive == ProxyPass
      && s[2].directive == ProxySetHeader && s[3].directive == ProxySetHeader
      && s[4].directive == ProxySetHeader && s[5].directive == ProxySetHeader
    ensures Args(s, ProxySetHeader) == [s[2].rest, s[3].rest, s[4].rest, s[5].rest]
  {
    assert s == s[..2] + [s[2]] + [s[3]] + [s[4]] + [s[5]];
    ArgsAppend(s[..2] + [s[2]] + [s[3]] + [s[4]], [s[5]], ProxySetHeader);
    ArgsAppend(s[..2] + [s[2]] + [s[3]], [s[4]], ProxySetHeader);
    ArgsAppend(s[..2] + [s[2]], [s[3]], ProxySetHeader);
    ArgsAppend(s[..2], [s[2]], ProxySetHeader);
    ArgsNone(s[..2], ProxySetHeader);
    ArgsOne([s[2]], ProxySetHeader, 0);
    ArgsOne([s[3]], ProxySetHeader, 0);
    ArgsOne([s[4]], ProxySetHeader, 0);
    ArgsOne([s[5]], ProxySetHeader, 0);
  }

  /** The proxy head forwards the four request headers, in order. */
  lemma ProxyHeadHeaders(cfg: BlockSettings)
    ensures Args(ProxyHead(cfg), ProxySetHeader) == ForwardedHeaders
  {
    ForwardShape(ProxyHead(cfg));
  }

  /** The arguments of three joined pieces, from those of the pieces. */
  lemma ArgsJoin3(a: seq<Line>, b: seq<Line>, c: seq<Line>, d: Directive, x: seq<string>, y: seq<string>, z: seq<string>)
    requires Args(a, d) == x && Args(b, d) == y && Args(c, d) == z
    ensures Args(a + b + c, d) == x + y + z
  {
    ArgsAppend(a, b, d);
    ArgsAppend(a + b, c, d);
  }

  lemma ProxyTailHeaders()
    ensures Args(ProxyTail(), ProxySetHeader) == []
  {
    ArgsNone(ProxyTail(), ProxySetHeader);
  }

  /** `location /` sets the forwarded headers, then the upgrade headers
      exactly when WebSocket support is on. */
  lemma RootLocationHeaders(cfg: BlockSettings)
    ensures Args(RootLocation(cfg), ProxySetHeader) == ForwardedHeaders + UpgradeHeaders(cfg)
  {
    ProxyHeadHeaders(cfg);
    WebSocketLinesProfile(cfg);
    ProxyTailHeaders();
    ArgsJoin3(ProxyHead(cfg), WebSocketLines(cfg), ProxyTail(), ProxySetHeader, ForwardedHeaders, UpgradeHeaders(cfg), []);
    assert ForwardedHeaders + UpgradeHeaders(cfg) + [] == ForwardedHeaders + UpgradeHeaders(cfg);
  }

  // Sections that set no request header.

  lemma RedirectServerHeaders(domain: string)
    ensures Args(RedirectServer(domain), ProxySetHeader) == []
  {
    ArgsNone(RedirectServer(domain), ProxySetHeader);
  }

  lemma TlsServerHeadHeaders(domain: string)
    ensures Args(TlsServerHead(domain), ProxySetHeader) == []
  {
    ArgsNone(TlsServerHead(domain), ProxySetHeader);
  }

  lemma RateLinesHeaders(cfg: BlockSettings)
    ensures Args(RateLines(cfg), ProxySetHeader) == []
  {
    ArgsNone(RateLines(cfg), ProxySetHeader);
  }

  lemma CertificatesHeaders(domain: string)
    ensures Args(Certificates(domain), ProxySetHeader) == []
  {
    ArgsNone(Certificates(domain), ProxySetHeader);
  }

  lemma TlsSettingsHeaders(cfg: BlockSettings)
    ensures Args(TlsSettings(cfg), ProxySetHeader) == []
  {
    ArgsNone(TlsSettings(cfg), ProxySetHeader);
  }

  lemma SecurityHeadersHeaders()
    ensures Args(SecurityHeaders(), ProxySetHeader) == []
  {
    ArgsNone(SecurityHeaders(), ProxySetHeader);
  }

  lemma HealthCheckHeaders(cfg: BlockSettings)
    ensures Args(HealthCheck(cfg), ProxySetHeader) == []
  {
    ArgsNone(HealthCheck(cfg), ProxySetHeader);
  }

  lemma HardeningHeaders(domain: string, cfg: BlockSettings)
    ensures Args(Hardening(domain, cfg), ProxySetHeader) == []
  {
    CertificatesHeaders(domain);
    TlsSettingsHeaders(cfg);
    SecurityHeadersHeaders();
    ArgsJoin3(Certificates(domain), TlsSettings(cfg), SecurityHeaders(), ProxySetHeader, [], [], []);
  }

  /** Generic form of the TLS server's headers: only the fourth of five pieces sets any. */
  lemma TlsHeadersShape(s1: seq<Line>, s2: seq<Line>, s3: seq<Line>, s4: seq<Line>, s5: seq<Line>, h: seq<string>)
    requires Args(s1, ProxySetHeader) == [] && Args(s2, ProxySetHeader) == [] && Args(s3, ProxySetHeader) == []
    requires Args(s4, ProxySetHeader) == h && Args(s5, ProxySetHeader) == []
    ensures Args(s1 + s2 + s3 + s4 + s5, ProxySetHeader) == h
  {
    ArgsJoin3(s1, s2, s3, ProxySetHeader, [], [], []);
    ArgsJoin3(s1 + s2 + s3, s4, s5, ProxySetHeader, [], h, []);
    assert [] + h + [] == h;
  }

  /** The TLS server sets request headers only in `location /`. */
  lemma TlsServerHeaders(domain: string, cfg: BlockSettings)
    ensures Args(TlsServer(domain, cfg), ProxySetHeader) == ForwardedHeaders + UpgradeHeaders(cfg)
  {
    TlsServerHeadHeaders(domain);
    RateLinesHeaders(cfg);
    HardeningHeaders(domain, cfg);
    RootLocationHeaders(cfg);
    HealthCheckHeaders(cfg);
    TlsHeadersShape(TlsServerHead(domain), RateLines(cfg), Hardening(domain, cfg), RootLocation(cfg), HealthCheck(cfg),
      ForwardedHeaders + UpgradeHeaders(cfg));
  }

  /** Of the whole block, only `location /` sets request headers. */
  lemma ServerBlockHeaders(domain: string, cfg: BlockSettings)
    ensures Args(ServerBlock(domain, cfg), ProxySetHeader) == ForwardedHeaders + UpgradeHeaders(cfg)
  {
    RedirectServerHeaders(domain);
    TlsServerHeaders(domain, cfg);
    ArgsAppend(RedirectServer(domain), TlsServer(domain, cfg), ProxySetHeader);
  }

  lemma RootLocationShape(h: seq<Line>, w: seq<Line>, t: seq<Line>, pass: seq<string>, version: seq<string>)
    requires ProfileOf(h) == NoArgs.(proxyPass := pass)
    requires ProfileOf(w) == NoArgs.(httpVersion := version)
    requires ProfileOf(t) == NoArgs
    ensures ProfileOf(h + w + t) == NoArgs.(proxyPass := pass, httpVersion := version)
  {
    ProfileAppend(h, w);
    ProfileAppend(h + w, t);
    assert pass + [] == pass;
    assert [] + version == version;
    MergeNoArgs(ProfileOf(h + w));
  }

  lemma RootLocationProfile(cfg: BlockSettings)
    ensures ProfileOf(RootLocation(cfg)) == NoArgs.(proxyPass := [Backend(cfg)], httpVersion := HttpVersionArgs(cfg))
  {
    ProxyHeadProfile(cfg);
    WebSocketLinesProfile(cfg);
    ProxyTailProfile();
    RootLocationShape(ProxyHead(cfg), WebSocketLines(cfg), ProxyTail(), [Backend(cfg)], HttpVersionArgs(cfg));
  }

  /** The five sections' profiles merge into the whole server's. */
  lemma TlsMerge(p: Profile)
    ensures Merge(Merge(Merge(Merge(
      NoArgs.(serverName := p.serverName, listen := p.listen),
      NoArgs.(rateZone := p.rateZone)),
      NoArgs.(certificate := p.certificate, key := p.key)),
      NoArgs.(proxyPass := p.proxyPass, httpVersion := p.httpVersion)),
      NoArgs) == p
  {
    assert p.serverName + [] + [] + [] == p.serverName;
    assert p.listen + [] + [] + [] == p.listen;
    assert [] + p.rateZone + [] + [] == p.rateZone;
    assert [] + [] + p.certificate + [] == p.certificate;
    assert [] + [] + p.key + [] == p.key;
    assert [] + [] + [] + p.proxyPass == p.proxyPass;
    assert [] + [] + [] + p.httpVersion == p.httpVersion;
    MergeNoArgs(p);
  }

  lemma TlsServerShape(s1: seq<Line>, s2: seq<Line>, s3: seq<Line>, s4: seq<Line>, s5: seq<Line>, p: Profile)
    requires ProfileOf(s1) == NoArgs.(serverName := p.serverName, listen := p.listen)
    requires ProfileOf(s2) == NoArgs.(rateZone := p.rateZone)
    requires ProfileOf(s3) == NoArgs.(certificate := p.certificate, key := p.key)
    requires ProfileOf(s4) == NoArgs.(proxyPass := p.proxyPass, httpVersion := p.httpVersion)
    requires ProfileOf(s5) == NoArgs
    ensures ProfileOf(s1 + s2 + s3 + s4 + s5) == p
  {
    ProfileAppend(s1, s2);
    ProfileAppend(s1 + s2, s3);
    ProfileAppend(s1 + s2 + s3, s4);
    ProfileAppend(s1 + s2 + s3 + s4, s5);
    TlsMerge(p);
  }

  lemma TlsServerProfile(domain: string, cfg: BlockSettings)
    ensures ProfileOf(TlsServer(domain, cfg)) == Profile(
      [ServerNames(domain)], [" 443 ssl http2;"], [CertificatePath(domain)], [KeyPath(domain)],
      RateZoneArgs(cfg), [Backend(cfg)], HttpVersionArgs(cfg))
  {
    TlsServerHeadProfile(domain);
    RateLinesProfile(cfg);
    HardeningProfile(domain, cfg);
    RootLocationProfile(cfg);
    HealthCheckProfile(cfg);
    TlsServerShape(TlsServerHead(domain), RateLines(cfg), Hardening(domain, cfg), RootLocation(cfg), HealthCheck(cfg),
      Profile([ServerNames(domain)], [" 443 ssl http2;"], [CertificatePath(domain)], [KeyPath(domain)],
        RateZoneArgs(cfg), [Backend(cfg)], HttpVersionArgs(cfg)));
  }

  lemma ServerBlockShape(r: seq<Line>, t: seq<Line>, names: string, port: string, p: Profile)
    requires ProfileOf(r) == NoArgs.(serverName := [names], listen := [port])
    requires ProfileOf(t) == p
    ensures ProfileOf(r + t) == p.(serverName := [names] + p.serverName, listen := [port] + p.listen)
  {
    ProfileAppend(r, t);
  }

  /** What the block says, directive by directive: both servers, and only
      they, name the domain and its www. alias; the first listens on port 80
      and the second on 443 with TLS; one certificate and one key, both under
      /etc/letsencrypt/live/{domain}/; `limit_req_zone` exactly when rate
      limiting is on; exactly one `proxy_pass`, to the configured backend;
      `proxy_http_version 1.1` and the `Upgrade` and `Connection` headers
      exactly when WebSocket support is on, after the four forwarded headers. */
  lemma ServerBlockDirectives(domain: string, cfg: BlockSettings)
    ensures Args(ServerBlock(domain, cfg), ServerName) == [ServerNames(domain), ServerNames(domain)]
    ensures Args(ServerBlock(domain, cfg), Listen) == [" 80;", " 443 ssl http2;"]
    ensures Args(ServerBlock(domain, cfg), SslCertificate) == [CertificatePath(domain)]
    ensures Args(ServerBlock(domain, cfg), SslCertificateKey) == [KeyPath(domain)]
    ensures Args(ServerBlock(domain, cfg), LimitReqZone) == RateZoneArgs(cfg)
    ensures Args(ServerBlock(domain, cfg), ProxyPass) == [Backend(cfg)]
    ensures Args(ServerBlock(domain, cfg), ProxyHttpVersion) == HttpVersionArgs(cfg)
    ensures Args(ServerBlock(domain, cfg), ProxySetHeader) == ForwardedHeaders + UpgradeHeaders(cfg)
  {
    ServerBlockHeaders(domain, cfg);
    RedirectServerProfile(domain);
    TlsServerProfile(domain, cfg);
    ServerBlockShape(RedirectServer(domain), TlsServer(domain, cfg), ServerNames(domain), " 80;",
      Profile([ServerNames(domain)], [" 443 ssl http2;"], [CertificatePath(domain)], [KeyPath(domain)],
        RateZoneArgs(cfg), [Backend(cfg)], HttpVersionArgs(cfg)));
  }
}
