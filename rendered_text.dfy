/** The text `_nginx_server_block` returns, read back at its line feeds: it
    splits into exactly the block's lines when no interpolated value holds a
    line feed, and a domain that holds one adds lines the block does not have. */
module RenderedText {
  import opened Strings
  import opened Settings
  import opened NginxConfig

  /** The text of each line, in order. */
  function Texts(lines: seq<Line>): (t: seq<string>)
    ensures |t| == |lines|
    ensures forall i :: 0 <= i < |lines| ==> t[i] == LineText(lines[i])
  {
    if lines == [] then [] else [LineText(lines[0])] + Texts(lines[1..])
  }

  /** No line's text holds a line feed. */
  predicate Unbroken(lines: seq<Line>)
  {
    forall i :: 0 <= i < |lines| ==> '\n' !in LineText(lines[i])
  }

  /** No line's rest holds a line feed. */
  predicate RestsUnbroken(lines: seq<Line>)
  {
    forall i :: 0 <= i < |lines| ==> '\n' !in lines[i].rest
  }

  lemma {:induction false} SplitRenderUnbroken(lines: seq<Line>)
    requires Unbroken(lines)
    ensures Split(Render(lines), '\n') == Texts(lines) + [""]
  {
    if lines != [] {
      SplitRenderUnbroken(lines[1..]);
      assert LineText(lines[0]) + "\n" + Render(lines[1..]) == LineText(lines[0]) + ['\n'] + Render(lines[1..]);
      SplitPrefix(LineText(lines[0]), Render(lines[1..]), '\n');
      assert Texts(lines) + [""] == [LineText(lines[0])] + (Texts(lines[1..]) + [""]);
    }
  }

  /** Splitting rendered lines at line feeds gives back each line's text and
      the empty piece after the final line feed, exactly when no line holds a
      line feed of its own. */
  lemma SplitRender(lines: seq<Line>)
    ensures Split(Render(lines), '\n') == Texts(lines) + [""] <==> Unbroken(lines)
  {
    if Unbroken(lines) {
      SplitRenderUnbroken(lines);
    } else {
      var i :| 0 <= i < |lines| && '\n' in LineText(lines[i]);
      assert (Texts(lines) + [""])[i] == LineText(lines[i]);
    }
  }

  // The directives' words hold no line feed, checked a few at a time.

  lemma WordsUnbrokenA(d: Directive)
    requires d in {Comment, Server, Close, Listen, ServerName, Return, Blank, Location}
    ensures '\n' !in d.Word()
  {
  }

  lemma WordsUnbrokenB(d: Directive)
    requires d in {LimitReqZone, SslCertificate, SslCertificateKey, SslProtocols}
    ensures '\n' !in d.Word()
  {
  }

  lemma WordsUnbrokenC(d: Directive)
    requires d in {SslCiphers, SslPreferServerCiphers, SslSessionCache, SslSessionTimeout}
    ensures '\n' !in d.Word()
  {
  }

  lemma WordsUnbrokenD(d: Directive)
    requires d in {AddHeader, ProxyPass, ProxySetHeader, ProxyHttpVersion}
    ensures '\n' !in d.Word()
  {
  }

  lemma WordsUnbrokenE(d: Directive)
    requires d in {ProxyConnectTimeout, ProxySendTimeout, ProxyReadTimeout, AccessLog}
    ensures '\n' !in d.Word()
  {
  }

  lemma WordUnbroken(d: Directive)
    ensures '\n' !in d.Word()
  {
    if d in {Comment, Server, Close, Listen, ServerName, Return, Blank, Location} {
      WordsUnbrokenA(d);
    } else if d in {LimitReqZone, SslCertificate, SslCertificateKey, SslProtocols} {
      WordsUnbrokenB(d);
    } else if d in {SslCiphers, SslPreferServerCiphers, SslSessionCache, SslSessionTimeout} {
      WordsUnbrokenC(d);
    } else if d in {AddHeader, ProxyPass, ProxySetHeader, ProxyHttpVersion} {
      WordsUnbrokenD(d);
    } else {
      WordsUnbrokenE(d);
    }
  }

  /** The indentation and the directive's word hold no line feed. */
  lemma LineBreakInRest(l: Line)
    ensures '\n' in LineText(l) <==> '\n' in l.rest
  {
    WordUnbroken(l.directive);
    var pad: string := seq(l.indent, _ => ' ');
    assert forall j :: 0 <= j < |pad| ==> pad[j] == ' ';
    assert LineText(l) == pad + l.directive.Word() + l.rest;
  }

  lemma RestsUnbrokenLines(lines: seq<Line>)
    requires RestsUnbroken(lines)
    ensures Unbroken(lines)
  {
    forall i | 0 <= i < |lines|
      ensures '\n' !in LineText(lines[i])
    {
      LineBreakInRest(lines[i]);
    }
  }

  lemma RestsAppend(a: seq<Line>, b: seq<Line>)
    requires RestsUnbroken(a) && RestsUnbroken(b)
    ensures RestsUnbroken(a + b)
  {
    forall i | 0 <= i < |a + b|
      ensures '\n' !in (a + b)[i].rest
    {
      if i >= |a| {
        assert (a + b)[i] == b[i - |a|];
      }
    }
  }

  /** No value the template interpolates holds a line feed; the rate-limit
      values count only when the zone line is written. */
  predicate ValuesUnbroken(domain: string, cfg: BlockSettings)
  {
    && '\n' !in domain
    && (cfg.rateLimit ==> '\n' !in cfg.rateZone && '\n' !in cfg.rateRate)
    && '\n' !in cfg.sslProtocols && '\n' !in cfg.sslCiphers
    && '\n' !in cfg.sessionCache && '\n' !in cfg.sessionTimeout
    && '\n' !in ValueText(cfg.backendHost) && '\n' !in ValueText(cfg.backendPort)
    && '\n' !in cfg.healthPath
  }

  // The template's literal text holds no line feed, checked a few literals
  // at a time.

  lemma RedirectLiteralsA()
    ensures '\n' !in " Custom domain configuration for "
  {
  }

  lemma RedirectLiteralsB()
    ensures '\n' !in " 301 https://$server_name$request_uri;"
    ensures '\n' !in " {" && '\n' !in " 80;" && '\n' !in " www." && '\n' !in ";"
  {
  }

  lemma TlsHeadLiterals()
    ensures '\n' !in " 443 ssl http2;"
  {
  }

  lemma RateLiterals()
    ensures '\n' !in " $binary_remote_addr zone=" && '\n' !in ":10m rate="
  {
  }

  lemma CertificateLiterals()
    ensures '\n' !in " /etc/letsencrypt/live/" && '\n' !in "/fullchain.pem;" && '\n' !in "/privkey.pem;"
  {
  }

  lemma SecurityLiteralsA()
    ensures '\n' !in " X-Frame-Options DENY;" && '\n' !in " X-Content-Type-Options nosniff;"
  {
  }

  lemma SecurityLiteralsB()
    ensures '\n' !in " X-XSS-Protection \"1; mode=block\";"
  {
  }

  lemma SecurityLiteralsC()
    ensures '\n' !in " Strict-Transport-Security" && '\n' !in " \"max-age=31536000;"
  {
  }

  lemma SecurityLiteralsD()
    ensures '\n' !in " includeSubDomains\" always;"
  {
  }

  lemma ProxyLiteralsA()
    ensures '\n' !in " / {" && '\n' !in " http://" && '\n' !in ":"
    ensures '\n' !in " Host $host;" && '\n' !in " X-Real-IP $remote_addr;"
  {
  }

  lemma ProxyLiteralsB()
    ensures '\n' !in " X-Forwarded-For $proxy_add_x_forwarded_for;"
  {
  }

  lemma ProxyLiteralsC()
    ensures '\n' !in " X-Forwarded-Proto $scheme;"
  {
  }

  lemma WebSocketLiterals()
    ensures '\n' !in " 1.1;" && '\n' !in " Upgrade $http_upgrade;" && '\n' !in " Connection \"upgrade\";"
  {
  }

  lemma HealthCheckLiterals()
    ensures '\n' !in " off;" && '\n' !in " 200 \"healthy\\n\";" && '\n' !in " Content-Type text/plain;"
  {
  }

  // One lemma per section: its rests hold a line feed only through a value.

  lemma RedirectServerRests(domain: string)
    requires '\n' !in domain
    ensures RestsUnbroken(RedirectServer(domain))
  {
    RedirectLiteralsA();
    RedirectLiteralsB();
    var s := RedirectServer(domain);
    assert '\n' !in s[0].rest && '\n' !in s[1].rest && '\n' !in s[2].rest && '\n' !in s[3].rest;
    assert '\n' !in s[4].rest && '\n' !in s[5].rest && '\n' !in s[6].rest && '\n' !in s[7].rest;
  }

  lemma TlsServerHeadRests(domain: string)
    requires '\n' !in domain
    ensures RestsUnbroken(TlsServerHead(domain))
  {
    RedirectLiteralsB();
    TlsHeadLiterals();
    var s := TlsServerHead(domain);
    assert '\n' !in s[0].rest && '\n' !in s[1].rest && '\n' !in s[2].rest;
  }

  lemma RateLinesRests(cfg: BlockSettings)
    requires cfg.rateLimit ==> '\n' !in cfg.rateZone && '\n' !in cfg.rateRate
    ensures RestsUnbroken(RateLines(cfg))
  {
    RateLiterals();
    RedirectLiteralsB();
    var s := RateLines(cfg);
    if cfg.rateLimit {
      assert '\n' !in s[0].rest && '\n' !in s[1].rest && '\n' !in s[2].rest;
    }
  }

  lemma CertificatesRests(domain: string)
    requires '\n' !in domain
    ensures RestsUnbroken(Certificates(domain))
  {
    CertificateLiterals();
    var s := Certificates(domain);
    assert '\n' !in s[0].rest && '\n' !in s[1].rest && '\n' !in s[2].rest;
  }

  lemma TlsSettingsRests(cfg: BlockSettings)
    requires '\n' !in cfg.sslProtocols && '\n' !in cfg.sslCiphers
    requires '\n' !in cfg.sessionCache && '\n' !in cfg.sessionTimeout
    ensures RestsUnbroken(TlsSettings(cfg))
  {
    HealthCheckLiterals();
    var s := TlsSettings(cfg);
    assert '\n' !in s[0].rest && '\n' !in s[1].rest && '\n' !in s[2].rest;
    assert '\n' !in s[3].rest && '\n' !in s[4].rest && '\n' !in s[5].rest;
  }

  lemma SecurityHeadersRests()
    ensures RestsUnbroken(SecurityHeaders())
  {
    SecurityLiteralsA();
    SecurityLiteralsB();
    SecurityLiteralsC();
    SecurityLiteralsD();
    var s := SecurityHeaders();
    assert '\n' !in s[0].rest && '\n' !in s[1].rest && '\n' !in s[2].rest;
    assert '\n' !in s[3].rest && '\n' !in s[4].rest;
  }

  lemma ProxyHeadRests(cfg: BlockSettings)
    requires '\n' !in ValueText(cfg.backendHost) && '\n' !in ValueText(cfg.backendPort)
    ensures RestsUnbroken(ProxyHead(cfg))
  {
    ProxyLiteralsA();
    ProxyLiteralsB();
    ProxyLiteralsC();
    RedirectLiteralsB();
    var s := ProxyHead(cfg);
    assert '\n' !in s[0].rest && '\n' !in s[1].rest && '\n' !in s[2].rest;
    assert '\n' !in s[3].rest && '\n' !in s[4].rest && '\n' !in s[5].rest;
  }

  lemma WebSocketLinesRests(cfg: BlockSettings)
    ensures RestsUnbroken(WebSocketLines(cfg))
  {
    WebSocketLiterals();
    var s := WebSocketLines(cfg);
    if cfg.websocket {
      assert '\n' !in s[0].rest && '\n' !in s[1].rest && '\n' !in s[2].rest;
      assert '\n' !in s[3].rest && '\n' !in s[4].rest;
    }
  }

  lemma ProxyTailRests()
    ensures RestsUnbroken(ProxyTail())
  {
  }

  lemma HealthCheckRests(cfg: BlockSettings)
    requires '\n' !in cfg.healthPath
    ensures RestsUnbroken(HealthCheck(cfg))
  {
    HealthCheckLiterals();
    RedirectLiteralsB();
    var s := HealthCheck(cfg);
    assert '\n' !in s[0].rest && '\n' !in s[1].rest && '\n' !in s[2].rest;
    assert '\n' !in s[3].rest && '\n' !in s[4].rest && '\n' !in s[5].rest;
  }

  lemma ServerBlockRests(domain: string, cfg: BlockSettings)
    requires ValuesUnbroken(domain, cfg)
    ensures RestsUnbroken(ServerBlock(domain, cfg))
  {
    RedirectServerRests(domain);
    TlsServerHeadRests(domain);
    RateLinesRests(cfg);
    CertificatesRests(domain);
    TlsSettingsRests(cfg);
    SecurityHeadersRests();
    ProxyHeadRests(cfg);
    WebSocketLinesRests(cfg);
    ProxyTailRests();
    HealthCheckRests(cfg);
    RestsAppend(Certificates(domain), TlsSettings(cfg));
    RestsAppend(Certificates(domain) + TlsSettings(cfg), SecurityHeaders());
    RestsAppend(ProxyHead(cfg), WebSocketLines(cfg));
    RestsAppend(ProxyHead(cfg) + WebSocketLines(cfg), ProxyTail());
    RestsAppend(TlsServerHead(domain), RateLines(cfg));
    RestsAppend(TlsServerHead(domain) + RateLines(cfg), Hardening(domain, cfg));
    RestsAppend(TlsServerHead(domain) + RateLines(cfg) + Hardening(domain, cfg), RootLocation(cfg));
    RestsAppend(TlsServerHead(domain) + RateLines(cfg) + Hardening(domain, cfg) + RootLocation(cfg), HealthCheck(cfg));
    RestsAppend(RedirectServer(domain), TlsServer(domain, cfg));
  }

  /** The written text is the block's lines, one per line feed, whenever no
      interpolated value holds a line feed; a domain holding one breaks the
      opening comment into lines the block does not have. */
  lemma ServerBlockTextLines(domain: string, cfg: BlockSettings)
    ensures ValuesUnbroken(domain, cfg) ==>
      Split(ServerBlockText(domain, cfg), '\n') == Texts(ServerBlock(domain, cfg)) + [""]
    ensures '\n' in domain ==>
      Split(ServerBlockText(domain, cfg), '\n') != Texts(ServerBlock(domain, cfg)) + [""]
  {
    SplitRender(ServerBlock(domain, cfg));
    if ValuesUnbroken(domain, cfg) {
      ServerBlockRests(domain, cfg);
      RestsUnbrokenLines(ServerBlock(domain, cfg));
    }
    if '\n' in domain {
      var first := ServerBlock(domain, cfg)[0];
      assert first == Line(0, Comment, " Custom domain configuration for " + domain);
      LineBreakInRest(first);
    }
  }

  lemma CipherLiteralsA()
    ensures '\n' !in "ECDHE-RSA-AES128-GCM-SHA256:" && '\n' !in "ECDHE-RSA-AES256-GCM-SHA384:"
  {
  }

  lemma CipherLiteralsB()
    ensures '\n' !in "ECDHE-RSA-AES128-SHA256:" && '\n' !in "ECDHE-RSA-AES256-SHA384"
  {
  }

  lemma DefaultLiterals()
    ensures '\n' !in "TLSv1.2 TLSv1.3" && '\n' !in "shared:SSL:10m" && '\n' !in "10m"
    ensures '\n' !in "127.0.0.1" && '\n' !in "3000" && '\n' !in "/health"
  {
  }

  /** The defaults of config.py with a domain free of line feeds meet the
      condition. */
  lemma DefaultsUnbroken(domain: string)
    requires '\n' !in domain
    ensures ValuesUnbroken(domain, ConfigDefaults)
  {
    CipherLiteralsA();
    CipherLiteralsB();
    DefaultLiterals();
    assert ValueText(ConfigDefaults.backendPort) == "3000";
  }
}
