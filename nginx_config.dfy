/** The nginx site configuration manage-domain.py writes for a domain
    (`_nginx_server_block`): a port-80 server that redirects to HTTPS and a
    TLS server that proxies to the backend, as a list of lines. */
module NginxConfig {
  import opened Settings

  /** The first word of a line. */
  datatype Directive =
    | Comment | Server | Close | Listen | ServerName | Return | LimitReqZone
    | SslCertificate | SslCertificateKey | SslProtocols | SslCiphers | SslPreferServerCiphers
    | SslSessionCache | SslSessionTimeout | AddHeader | Location | ProxyPass | ProxySetHeader
    | ProxyHttpVersion | ProxyConnectTimeout | ProxySendTimeout | ProxyReadTimeout | AccessLog
    | Blank
  {
    function Word(): string
    {
      match this
      case Comment => "#"
      case Server => "server"
      case Close => "}"
      case Listen => "listen"
      case ServerName => "server_name"
      case Return => "return"
      case LimitReqZone => "limit_req_zone"
      case SslCertificate => "ssl_certificate"
      case SslCertificateKey => "ssl_certificate_key"
      case SslProtocols => "ssl_protocols"
      case SslCiphers => "ssl_ciphers"
      case SslPreferServerCiphers => "ssl_prefer_server_ciphers"
      case SslSessionCache => "ssl_session_cache"
      case SslSessionTimeout => "ssl_session_timeout"
      case AddHeader => "add_header"
      case Location => "location"
      case ProxyPass => "proxy_pass"
      case ProxySetHeader => "proxy_set_header"
      case ProxyHttpVersion => "proxy_http_version"
      case ProxyConnectTimeout => "proxy_connect_timeout"
      case ProxySendTimeout => "proxy_send_timeout"
      case ProxyReadTimeout => "proxy_read_timeout"
      case AccessLog => "access_log"
      case Blank => ""
    }
  }

  /** A line: `indent` spaces, the directive's word, then the rest. */
  datatype Line = Line(indent: nat, directive: Directive, rest: string)

  function LineText(l: Line): string
  {
    seq(l.indent, _ => ' ') + l.directive.Word() + l.rest
  }

  /** The file's text: every line followed by a line feed. */
  function Render(lines: seq<Line>): string
  {
    if lines == [] then "" else LineText(lines[0]) + "\n" + Render(lines[1..])
  }

  /** The config.py settings the template interpolates. */
  datatype BlockSettings = BlockSettings(
    websocket: bool, rateLimit: bool, rateZone: string, rateRate: string,
    sslProtocols: string, sslCiphers: string, sessionCache: string, sessionTimeout: string,
    backendHost: Value, backendPort: Value, healthPath: string)

  const ConfigDefaults: BlockSettings := BlockSettings(
    true, false, "custom_domain", "10r/s",
    "TLSv1.2 TLSv1.3",
    "ECDHE-RSA-AES128-GCM-SHA256:" + "ECDHE-RSA-AES256-GCM-SHA384:" + "ECDHE-RSA-AES128-SHA256:" + "ECDHE-RSA-AES256-SHA384",
    "shared:SSL:10m", "10m",
    Str("127.0.0.1"), Int(3000), "/health")

  /** The arguments of both `server_name` lines. */
  function ServerNames(domain: string): string
  {
    " " + domain + " www." + domain + ";"
  }

  function RedirectServer(domain: string): seq<Line>
  {
    [ Line(0, Comment, " Custom domain configuration for " + domain),
      Line(0, Server, " {"),
      Line(4, Listen, " 80;"),
      Line(4, ServerName, ServerNames(domain)),
      Line(0, Blank, ""),
      Line(4, Return, " 301 https://$server_name$request_uri;"),
      Line(0, Close, ""),
      Line(0, Blank, "") ]
  }

  function TlsServerHead(domain: string): seq<Line>
  {
    [ Line(0, Server, " {"),
      Line(4, Listen, " 443 ssl http2;"),
      Line(4, ServerName, ServerNames(domain)) ]
  }

  /** The `{rate}` slot: a blank line, or the rate-limit zone between a blank
      line and an indented empty one. */
  function RateLines(cfg: BlockSettings): seq<Line>
  {
    if cfg.rateLimit then
      [ Line(0, Blank, ""),
        Line(4, LimitReqZone, " $binary_remote_addr zone=" + cfg.rateZone + ":10m rate=" + cfg.rateRate + ";"),
        Line(4, Blank, "") ]
    else
      [ Line(0, Blank, "") ]
  }

  function CertificatePath(domain: string): string
  {
    " /etc/letsencrypt/live/" + domain + "/fullchain.pem;"
  }

  function KeyPath(domain: string): string
  {
    " /etc/letsencrypt/live/" + domain + "/privkey.pem;"
  }

  function Certificates(domain: string): seq<Line>
  {
    [ Line(4, SslCertificate, CertificatePath(domain)),
      Line(4, SslCertificateKey, KeyPath(domain)),
      Line(0, Blank, "") ]
  }

  function TlsSettings(cfg: BlockSettings): seq<Line>
  {
    [ Line(4, SslProtocols, " " + cfg.sslProtocols + ";"),
      Line(4, SslCiphers, " " + cfg.sslCiphers + ";"),
      Line(4, SslPreferServerCiphers, " off;"),
      Line(4, SslSessionCache, " " + cfg.sessionCache + ";"),
      Line(4, SslSessionTimeout, " " + cfg.sessionTimeout + ";"),
      Line(0, Blank, "") ]
  }

  function SecurityHeaders(): seq<Line>
  {
    [ Line(4, AddHeader, " X-Frame-Options DENY;"),
      Line(4, AddHeader, " X-Content-Type-Options nosniff;"),
      Line(4, AddHeader, " X-XSS-Protection \"1; mode=block\";"),
      Line(4, AddHeader, " Strict-Transport-Security" + " \"max-age=31536000;" + " includeSubDomains\" always;"),
      Line(0, Blank, "") ]
  }

  /** The backend address the site proxies to. */
  function Backend(cfg: BlockSettings): string
  {
    " http://" + ValueText(cfg.backendHost) + ":" + ValueText(cfg.backendPort) + ";"
  }

  /** The `{websocket}` slot: an indented empty line, or the upgrade headers
      between an indented empty line and a less indented one. */
  function WebSocketLines(cfg: BlockSettings): seq<Line>
  {
    if cfg.websocket then
      [ Line(8, Blank, ""),
        Line(8, ProxyHttpVersion, " 1.1;"),
        Line(8, ProxySetHeader, " Upgrade $http_upgrade;"),
        Line(8, ProxySetHeader, " Connection \"upgrade\";"),
        Line(4, Blank, "") ]
    else
      [ Line(8, Blank, "") ]
  }

  function ProxyHead(cfg: BlockSettings): seq<Line>
  {
    [ Line(4, Location, " / {"),
      Line(8, ProxyPass, Backend(cfg)),
      Line(8, ProxySetHeader, " Host $host;"),
      Line(8, ProxySetHeader, " X-Real-IP $remote_addr;"),
      Line(8, ProxySetHeader, " X-Forwarded-For $proxy_add_x_forwarded_for;"),
      Line(8, ProxySetHeader, " X-Forwarded-Proto $scheme;") ]
  }

  function ProxyTail(): seq<Line>
  {
    [ Line(8, ProxyConnectTimeout, " 60s;"),
      Line(8, ProxySendTimeout, " 60s;"),
      Line(8, ProxyReadTimeout, " 60s;"),
      Line(4, Close, ""),
      Line(0, Blank, "") ]
  }

  function HealthCheck(cfg: BlockSettings): seq<Line>
  {
    [ Line(4, Location, " " + cfg.healthPath + " {"),
      Line(8, AccessLog, " off;"),
      Line(8, Return, " 200 \"healthy\\n\";"),
      Line(8, AddHeader, " Content-Type text/plain;"),
      Line(4, Close, ""),
      Line(0, Close, "") ]
  }

  /** `location /`: the proxy to the backend. */
  function RootLocation(cfg: BlockSettings): seq<Line>
  {
    ProxyHead(cfg) + WebSocketLines(cfg) + ProxyTail()
  }

  /** Certificates, TLS parameters and security headers. */
  function Hardening(domain: string, cfg: BlockSettings): seq<Line>
  {
    Certificates(domain) + TlsSettings(cfg) + SecurityHeaders()
  }

  /** The HTTPS server. */
  function TlsServer(domain: string, cfg: BlockSettings): seq<Line>
  {
    TlsServerHead(domain) + RateLines(cfg) + Hardening(domain, cfg) + RootLocation(cfg) + HealthCheck(cfg)
  }

  /** manage-domain.py `_nginx_server_block`, line by line. */
  function ServerBlock(domain: string, cfg: BlockSettings): seq<Line>
  {
    RedirectServer(domain) + TlsServer(domain, cfg)
  }

  /** The text `_nginx_server_block` returns. */
  function ServerBlockText(domain: string, cfg: BlockSettings): string
  {
    Render(ServerBlock(domain, cfg))
  }

  // ---------------------------------------------------------------------
  // Reading the lines back

  /** The rests of the lines that start with `d`, in order. */
  function Args(lines: seq<Line>, d: Directive): seq<string>
  {
    if lines == [] then []
    else (if lines[0].directive == d then [lines[0].rest] else []) + Args(lines[1..], d)
  }

  lemma {:induction false} ArgsAppend(a: seq<Line>, b: seq<Line>, d: Directive)
    ensures Args(a + b, d) == Args(a, d) + Args(b, d)
  {
    if a == [] {
      assert a + b == b;
    } else {
      assert (a + b)[0] == a[0];
      assert (a + b)[1..] == a[1..] + b;
      ArgsAppend(a[1..], b, d);
    }
  }

  /** Lines none of which starts with `d` contribute nothing. */
  lemma {:induction false} ArgsNone(s: seq<Line>, d: Directive)
    requires forall i :: 0 <= i < |s| ==> s[i].directive != d
    ensures Args(s, d) == []
  {
    if s != [] {
      ArgsNone(s[1..], d);
    }
  }

  /** Lines of which only line `k` starts with `d` contribute its rest. */
  lemma ArgsOne(s: seq<Line>, d: Directive, k: nat)
    requires k < |s| && s[k].directive == d
    requires forall i :: 0 <= i < |s| && i != k ==> s[i].directive != d
    ensures Args(s, d) == [s[k].rest]
  {
    assert s == s[..k] + [s[k]] + s[k + 1..];
    ArgsAppend(s[..k] + [s[k]], s[k + 1..], d);
    ArgsAppend(s[..k], [s[k]], d);
    ArgsNone(s[..k], d);
    ArgsNone(s[k + 1..], d);
    assert Args([s[k]], d) == [s[k].rest] + Args([], d);
  }

  /** The arguments of the directives the block's promises are about. */
  datatype Profile = Profile(
    serverName: seq<string>, listen: seq<string>, certificate: seq<string>, key: seq<string>,
    rateZone: seq<string>, proxyPass: seq<string>, httpVersion: seq<string>)

  function ProfileOf(lines: seq<Line>): Profile
  {
    Profile(Args(lines, ServerName), Args(lines, Listen), Args(lines, SslCertificate),
      Args(lines, SslCertificateKey), Args(lines, LimitReqZone), Args(lines, ProxyPass),
      Args(lines, ProxyHttpVersion))
  }

  function Merge(p: Profile, q: Profile): Profile
  {
    Profile(p.serverName + q.serverName, p.listen + q.listen, p.certificate + q.certificate,
      p.key + q.key, p.rateZone + q.rateZone, p.proxyPass + q.proxyPass,
      p.httpVersion + q.httpVersion)
  }

  const NoArgs: Profile := Profile([], [], [], [], [], [], [])

  lemma ProfileAppend(a: seq<Line>, b: seq<Line>)
    ensures ProfileOf(a + b) == Merge(ProfileOf(a), ProfileOf(b))
  {
    ArgsAppend(a, b, ServerName);
    ArgsAppend(a, b, Listen);
    ArgsAppend(a, b, SslCertificate);
    ArgsAppend(a, b, SslCertificateKey);
    ArgsAppend(a, b, LimitReqZone);
    ArgsAppend(a, b, ProxyPass);
    ArgsAppend(a, b, ProxyHttpVersion);
  }

  lemma MergeNoArgs(p: Profile)
    ensures Merge(p, NoArgs) == p && Merge(NoArgs, p) == p
  {
    assert p.serverName + [] == p.serverName;
  }

  /** The directives a profile records. */
  predicate Profiled(d: Directive)
  {
    d.ServerName? || d.Listen? || d.SslCertificate? || d.SslCertificateKey? || d.LimitReqZone?
    || d.ProxyPass? || d.ProxyHttpVersion?
  }

  /** Lines that use none of the profiled directives. */
  predicate Unprofiled(s: seq<Line>)
  {
    forall i :: 0 <= i < |s| ==> !Profiled(s[i].directive)
  }

  lemma UnprofiledNoArgs(s: seq<Line>)
    requires Unprofiled(s)
    ensures ProfileOf(s) == NoArgs
  {
    ArgsNone(s, ServerName);
    ArgsNone(s, Listen);
    ArgsNone(s, SslCertificate);
    ArgsNone(s, SslCertificateKey);
    ArgsNone(s, LimitReqZone);
    ArgsNone(s, ProxyPass);
    ArgsNone(s, ProxyHttpVersion);
  }

  function RateZoneArgs(cfg: BlockSettings): seq<string>
  {
    if cfg.rateLimit then [" $binary_remote_addr zone=" + cfg.rateZone + ":10m rate=" + cfg.rateRate + ";"] else []
  }

  function HttpVersionArgs(cfg: BlockSettings): seq<string>
  {
    if cfg.websocket then [" 1.1;"] else []
  }

  /** The request headers `location /` always forwards. */
  const ForwardedHeaders: seq<string> :=
    [" Host $host;", " X-Real-IP $remote_addr;", " X-Forwarded-For $proxy_add_x_forwarded_for;",
     " X-Forwarded-Proto $scheme;"]

  /** The connection-upgrade headers WebSocket support adds. */
  function UpgradeHeaders(cfg: BlockSettings): seq<string>
  {
    if cfg.websocket then [" Upgrade $http_upgrade;", " Connection \"upgrade\";"] else []
  }
}
