# Custom-domain onboarding scripts, modelled in Dafny

This project models the decision logic of two scripts of the
`Custom-Domain/python-scripts` tool set, which puts a customer's domain in
front of a backend behind nginx with a Let's Encrypt certificate.

- `verify-dns.py` checks that a domain is ready. It names the DNS provider
  from the base domain's nameservers. For a Cloudflare domain it tests
  whether the A records fall inside Cloudflare's IPv4 ranges, meaning the
  proxy is on. Otherwise it retries the A-record lookup with exponential
  backoff until an expected address shows up. It then prints a JSON verdict
  and exits 0 or 1.
- `manage-domain.py` keeps the registry on disk:
  - configs in `sites-available`;
  - entries in `sites-enabled`;
  - certificate directories under `/etc/letsencrypt/live`.

  It validates host names, generates the nginx server block, and runs the
  `request`, `check` and `delete` actions. It also reads five settings from
  the environment.

Everything outside the scripts becomes an input of the model:
- DNS answers (per lookup and per attempt);
- `dig` output;
- the fetched Cloudflare ranges;
- the exit status of `certbot`, `nginx -t` and the reload;
- failures of an unlink.

The file-system registry is a `class Host` whose methods change it in place.
Each method is proved against a specification function on the `Sites` value.
The loops of the scripts are methods with loop invariants:
- the NS lookup;
- the A-record retries;
- the `verify_dns` resolution and `dig` filter;
- the environment overrides.

Files:
- `wrappers.dfy`: `Option`.
- `strings.dfy`: Python's `str.split`, `strip`, `join`, `in` and `str(int)`,
  and `lower` on ASCII text, with their lemmas.
- `ipv4.dfy`: `ipaddress` parsing and network membership.
- `provider.dfy`: the base domain and provider fingerprinting.
- `dns_verification.dfy`: the proxy test, the retry loop and the verdict.
- `hostname.dfy`: `DOMAIN_RE`.
- `settings.dfy`: `config.py` values and `load_env_overrides`.
- `nginx_config.dfy`: the server block as lines.
- `server_block_facts.dfy`: what the block says, directive by directive.
- `rendered_text.dfy`: the written text split back into the block's lines.
- `dns_check.dfy`: `verify_dns`.
- `domain_sites.dfy`: the registry and the actions.

## Model

| member | source | states |
|---|---|---|
| DnsProvider.ExtractBaseDomain | Custom-Domain/python-scripts/verify-dns.py:38-42 | After stripping dots, a name with at least two dots yields a one-dot suffix of the stripped text that follows a dot; otherwise the unstripped input is returned |
| DnsProvider.LastTwoLabels | Custom-Domain/python-scripts/verify-dns.py:39-41 | The last two labels rejoined with "." hold one dot and are the suffix after the second-to-last dot |
| DnsProvider.OneDot | Custom-Domain/python-scripts/verify-dns.py:41 | Two dot-free labels joined by "." contain exactly one dot |
| DnsProvider.FirstSignature | Custom-Domain/python-scripts/verify-dns.py:65-81 | The provider is Unknown iff no signature occurs in the nameserver; otherwise it is the provider of the first signature, in table order, that occurs |
| DnsProvider.FirstSignatureAt | Custom-Domain/python-scripts/verify-dns.py:65-81 | When entry k is the first hit, entry k's provider is the answer (first match wins) |
| DnsProvider.ClassifyWith | Custom-Domain/python-scripts/verify-dns.py:65-81 | Unknown iff no nameserver names a provider; otherwise the provider of the first nameserver, in record order, that names one |
| DnsProvider.ClassifyPastFirst | Custom-Domain/python-scripts/verify-dns.py:65-66 | A first record naming nothing hands the decision to the remaining records, with indices shifted by one |
| DnsProvider.ClassifyIgnoresCase | Custom-Domain/python-scripts/verify-dns.py:65-66 | Nameservers that agree after lower-casing are classified alike |
| DnsProvider.SignaturesNameProviders | Custom-Domain/python-scripts/verify-dns.py:66-80 | Every table entry names a real provider, so "Unknown provider" only means no hit |
| DnsProvider.MissesFirstNine | Custom-Domain/python-scripts/verify-dns.py:66-74 | A nameserver without 'w', 'f', 'g', 'e' and 'z' contains none of the first nine signatures |
| DnsProvider.DomainControlText | Custom-Domain/python-scripts/verify-dns.py:65 | "ns1.domaincontrol.com" is already lower case |
| DnsProvider.DomainControlLetters | Custom-Domain/python-scripts/verify-dns.py:66-74 | "ns1.domaincontrol.com" has none of the letters that the first nine signatures need |
| DnsProvider.DomainControlHitsNs1 | Custom-Domain/python-scripts/verify-dns.py:75 | "ns1.domaincontrol.com" contains the "ns1" signature |
| DnsProvider.DomainControlIsNs1 | Custom-Domain/python-scripts/verify-dns.py:65-81 | Because of the table order, "ns1.domaincontrol.com" is classified as NS1 |
| DnsProvider.LookUpNameservers | Custom-Domain/python-scripts/verify-dns.py:59-64 | At most max(1, servers) lookups, stopping at the first non-empty answer; the records kept are that answer, or none after the last lookup |
| DnsProvider.NsRecordsFrom | Custom-Domain/python-scripts/verify-dns.py:59-64 | The NS records the lookup loop ends with. NsRecordsFromFirst: they are the first non-empty answer in range, and empty only when every lookup came back empty. LookUpNameservers returns them |
| DnsProvider.NsRecordsFromFirst | Custom-Domain/python-scripts/verify-dns.py:59-64 | The records are empty iff every lookup in range answered nothing; otherwise they are the answer of some lookup that every earlier lookup in range failed to beat |
| DnsProvider.Classify | Custom-Domain/python-scripts/verify-dns.py:65-81 | The classification with the script's signature table. ClassifyWith: Unknown iff no nameserver names a provider, otherwise the provider of the first record that names one. ClassifyIgnoresCase: case does not matter. DomainControlIsNs1: "ns1.domaincontrol.com" is classified as NS1 |
| DnsProvider.IdentifyDnsProvider | Custom-Domain/python-scripts/verify-dns.py:56-81 | The NS lookups are for the base domain; the provider is the classification of the first non-empty answer within the lookup budget; all earlier lookups were empty |
| IPv4.Pow2 | Custom-Domain/python-scripts/verify-dns.py:130 | Powers of two are positive |
| IPv4.ParseOctet | Custom-Domain/python-scripts/verify-dns.py:104 | A parsed octet is below 256 |
| IPv4.OctetsRecombine | Custom-Domain/python-scripts/verify-dns.py:101 | The four octets of an address recombine to the address |
| IPv4.ParseOctetOfNatToString | Custom-Domain/python-scripts/verify-dns.py:101 | The decimal text of an octet value parses back to it |
| IPv4.ParseFormatAddress | Custom-Domain/python-scripts/verify-dns.py:101 | Parsing an address's dotted-quad text gives the address back |
| IPv4.FormatAddressInjective | Custom-Domain/python-scripts/verify-dns.py:101 | Distinct addresses have distinct texts |
| IPv4.ParsePrefixLen | Custom-Domain/python-scripts/verify-dns.py:104 | A parsed prefix length is at most 32 |
| IPv4.ParseNetwork | Custom-Domain/python-scripts/verify-dns.py:104 | A parsed network has a prefix of at most 32 and a base aligned to its block; host bits set are rejected (strict mode) |
| IPv4.ParseFormatNetwork | Custom-Domain/python-scripts/verify-dns.py:104 | "a.b.c.d/n" parses back to the network iff its base is aligned, and is rejected otherwise |
| IPv4.InNetworkMask | Custom-Domain/python-scripts/verify-dns.py:104 | For an aligned network, membership is equality of the bits above the host part |
| IPv4.AlignedBlock | Custom-Domain/python-scripts/verify-dns.py:104 | An address is in an aligned block iff it has the block's quotient by the block size |
| IPv4.DivRange | Custom-Domain/python-scripts/verify-dns.py:104 | An address inside the q-th block of a size has quotient q |
| IPv4.IpInAnyCidr | Custom-Domain/python-scripts/verify-dns.py:100-108 | True iff some well-formed network of the list holds the address; malformed entries are skipped |
| IPv4.AddressTextExcludes | Custom-Domain/python-scripts/verify-dns.py:101 | An address's text holds only digits and dots |
| IPv4.ParseAddress | Custom-Domain/python-scripts/verify-dns.py:101 | `ip_address` on dotted text: by ParseFormatAddress every address's canonical text parses back to it, and by FormatAddressInjective no two addresses share a text |
| IPv4.Quad | Custom-Domain/python-scripts/verify-dns.py:93-97 | The address written "a.b.c.d" has octets a, b, c and d, most significant first |
| IPv4.FallbackAligned | Custom-Domain/python-scripts/verify-dns.py:93-97 | Each of the fifteen fallback networks has its base aligned to its prefix, so strict `ip_network` accepts it |
| IPv4.FallbackRanges | Custom-Domain/python-scripts/verify-dns.py:93-108 | Every fallback entry, whose text is the network's canonical "a.b.c.d/n", parses to that network, so none is skipped; with the fallback, an address is in a Cloudflare range exactly when one of the fifteen networks holds it |
| DnsVerification.CheckCloudflareProxy | Custom-Domain/python-scripts/verify-dns.py:110-119 | False without A records; true iff some A record lies in a listed IPv4 range (the IPv6 list plays no part) |
| DnsVerification.CloudflareV4 | Custom-Domain/python-scripts/verify-dns.py:83-98 | The ranges the proxy test uses: the fetched IPv4 list, or the fallback when the fetch fails. FallbackProxy: with the fallback, an A record is proxied exactly when one of the fifteen networks holds it |
| DnsVerification.FallbackProxy | Custom-Domain/python-scripts/verify-dns.py:92-119 | When the fetch fails, `check_cloudflare_proxy` is true exactly when some A record lies in one of the fifteen fallback networks |
| DnsVerification.NoRangesNoProxy | Custom-Domain/python-scripts/verify-dns.py:100-119 | With an empty range list nothing is proxied |
| DnsVerification.MatchesIff | Custom-Domain/python-scripts/verify-dns.py:151 | The `any(...)` test holds iff some expected address text is among the resolved ones |
| DnsVerification.Backoff | Custom-Domain/python-scripts/verify-dns.py:128-135 | One delay per attempt after the first |
| DnsVerification.NothingResolvedNoMatch | Custom-Domain/python-scripts/verify-dns.py:137-148 | An attempt without A records never matches, whatever its CNAME answer |
| DnsVerification.VerifyDomainARecords | Custom-Domain/python-scripts/verify-dns.py:121-158 | Empty expected list: false with no attempt. Otherwise, with at most max(1, retries) attempts, true exactly at the first matching attempt and false only after the last one; the delays are the backoff schedule |
| DnsVerification.MatchedFromIff | Custom-Domain/python-scripts/verify-dns.py:127-158 | Some attempt in a range matches iff the recursive outcome holds |
| DnsVerification.ARecordsVerifiedIff | Custom-Domain/python-scripts/verify-dns.py:121-158 | The outcome is true iff the expected list is non-empty and some permitted attempt shares an address with it |
| DnsVerification.ARecordsVerified | Custom-Domain/python-scripts/verify-dns.py:121-158 | The outcome of `verify_domain_a_records`. ARecordsVerifiedIff states it for every input: an expected list is given and some attempt within `max(1, retries)` has an A record in it. VerifyDomainARecords returns it |
| DnsVerification.AttemptCount | Custom-Domain/python-scripts/verify-dns.py:121-158 | How many attempts `verify_domain_a_records` makes. AttemptCountFirstMatch: up to and including the first matching attempt, or the whole budget when none matches. VerifyDomainARecords returns it |
| DnsVerification.AttemptsFromFirstMatch | Custom-Domain/python-scripts/verify-dns.py:128-158 | From attempt k on, the count stays within the budget. No attempt before the last one counted matches. The range holds a match iff the last attempt counted matches, and otherwise the whole budget is used |
| DnsVerification.AttemptCountFirstMatch | Custom-Domain/python-scripts/verify-dns.py:121-158 | The attempt count is at most max(1, retries). The outcome is true iff the last attempt made matches, and no earlier attempt does. A non-empty list that never matches uses the whole budget |
| DnsVerification.CnameOnlyFails | Custom-Domain/python-scripts/verify-dns.py:137-148 | If no attempt yields A records the verification fails; a CNAME never counts |
| DnsVerification.PropagationDelay | Custom-Domain/python-scripts/verify-dns.py:127-153 | Nothing on attempt 0 and an expected address on attempt 1 succeeds when at least two retries are allowed |
| DnsVerification.BackoffDoubles | Custom-Domain/python-scripts/verify-dns.py:129-130 | The delay before attempt i is 2^i: 2 s first, then doubling |
| DnsVerification.BackoffForThreeRetries | Custom-Domain/python-scripts/verify-dns.py:127-130 | With DNS_RETRIES = 3 the waits are 2 s and 4 s |
| DnsVerification.RunVerification | Custom-Domain/python-scripts/verify-dns.py:169-201 | The report is the verdict for the provider identified from the NS answers of the stripped argument's base domain, the proxy test and the A-record outcome; a proxied Cloudflare domain makes no A-record attempt; otherwise the attempts made are the attempt count of `verify_domain_a_records` |
| DnsVerification.VerdictExitCode | Custom-Domain/python-scripts/verify-dns.py:176-201 | Exit 0 iff the domain is a proxied Cloudflare domain or its A records matched; otherwise exit 1 |
| DnsVerification.ProxiedIgnoresMatch | Custom-Domain/python-scripts/verify-dns.py:177-185 | A proxied Cloudflare domain gets the "disable the proxy" message whatever the A-record outcome |
| DnsVerification.NoExpectedNotMatched | Custom-Domain/python-scripts/verify-dns.py:123-125 | Without expected addresses, every domain except a proxied Cloudflare one is "not matched" with exit 1 |
| DnsVerification.ProxyFieldOnlyForCloudflare | Custom-Domain/python-scripts/verify-dns.py:180-200 | The `cloudflare_proxy` field appears iff the provider is Cloudflare; `dnsProvider` is the provider's name |
| DnsVerification.Verdict | Custom-Domain/python-scripts/verify-dns.py:176-201 | The report of `main`. VerdictExitCode: exit 0 exactly for proxied Cloudflare or a match. ProxiedIgnoresMatch: the proxied branch wins. ProxyFieldOnlyForCloudflare: only Cloudflare reports the proxy field |
| Hostname.ValidateDomain | Custom-Domain/python-scripts/manage-domain.py:90-96 | An accepted name is non-empty, holds only letters, digits, hyphens and dots, and starts and ends with a letter or digit |
| Hostname.HostnameChars | Custom-Domain/python-scripts/manage-domain.py:90 | A valid host name holds only letters, digits, hyphens and dots |
| Hostname.HostnameEnds | Custom-Domain/python-scripts/manage-domain.py:90 | A valid host name is non-empty and starts and ends alphanumeric |
| Hostname.HostPatternIff | Custom-Domain/python-scripts/manage-domain.py:90 | The regular grammar `label(\.label)*` and the label-wise check agree on every string |
| Hostname.HostPattern | Custom-Domain/python-scripts/manage-domain.py:90 | The `DOMAIN_RE` grammar without its anchors: one label, or a label, a dot and again a host name. HostPatternIff: it accepts exactly the dot-joined valid labels |
| Hostname.PatternIsHostname | Custom-Domain/python-scripts/manage-domain.py:90 | Every string of the grammar passes the label-wise check |
| Hostname.HostnameIsPattern | Custom-Domain/python-scripts/manage-domain.py:90 | Every string that passes the label-wise check is in the grammar |
| Hostname.LabelThenHostname | Custom-Domain/python-scripts/manage-domain.py:90 | A label, a dot and a host name form a host name |
| Hostname.LabelHasNoDot | Custom-Domain/python-scripts/manage-domain.py:90 | A label holds no dot |
| Hostname.JoinedLabels | Custom-Domain/python-scripts/manage-domain.py:90 | Any non-empty list of valid labels joined by dots is accepted (single labels included) |
| Hostname.Repeat | Custom-Domain/python-scripts/manage-domain.py:90 | n copies of a label |
| Hostname.JoinRepeatLength | Custom-Domain/python-scripts/manage-domain.py:90 | n copies of a label joined by dots have length n·len + n − 1 |
| Hostname.NoLengthCap | Custom-Domain/python-scripts/manage-domain.py:90 | For every bound there is a longer accepted name: no total-length cap |
| Hostname.EmptyLabelRejected | Custom-Domain/python-scripts/manage-domain.py:90 | A leading, trailing or doubled dot is rejected |
| Hostname.TrailingNewlineAccepted | Custom-Domain/python-scripts/manage-domain.py:90-93 | The pattern as written accepts "a\n", which no valid host name is |
| Hostname.ValidateDomainIsPattern | Custom-Domain/python-scripts/manage-domain.py:90-96 | Without a final line feed, the pattern and `ValidateDomain` accept exactly the same names |
| Hostname.ValidateDomainAcceptedByPattern | Custom-Domain/python-scripts/manage-domain.py:90-96 | Every name `ValidateDomain` accepts matches the pattern as written |
| Hostname.DomainReMatches | Custom-Domain/python-scripts/manage-domain.py:90-93 | What `DOMAIN_RE.match` accepts: the pattern, or the pattern followed by one final line feed. TrailingNewlineAccepted shows "a\n" is accepted. ValidateDomainAcceptedByPattern shows the intended check accepts nothing more |
| Settings.IntToString | Custom-Domain/python-scripts/manage-domain.py:201 | The text of an int is never empty |
| Settings.DropUnderscores | Custom-Domain/python-scripts/manage-domain.py:86 | Removing underscores from digit groups leaves digits |
| Settings.DigitsAreGroups | Custom-Domain/python-scripts/manage-domain.py:86 | Plain digits are valid `int()` input and contain no underscore |
| Settings.IntTextParts | Custom-Domain/python-scripts/manage-domain.py:86 | The text of an int is a minus sign (iff negative) and digits, without surrounding whitespace |
| Settings.SignedIntText | Custom-Domain/python-scripts/manage-domain.py:86 | The sign-and-digits reader gives back the int |
| Settings.ParseIntToString | Custom-Domain/python-scripts/manage-domain.py:86 | `int(str(n)) == n` |
| Settings.ParsePyInt | Custom-Domain/python-scripts/manage-domain.py:86 | Python's `int()` on text: surrounding whitespace, a sign, and digit groups. ParseIntToString shows `int(str(n)) == n` for every int; PortOverrideIsInt and PortOverrideUnparsable give the port's two cases |
| Settings.OverrideValue | Custom-Domain/python-scripts/manage-domain.py:79-88 | "true"/"false" in any case become booleans; only the port becomes an int, exactly when `int()` accepts the text, and then it is `int()`'s value; anything else is the text as given |
| Settings.OverridesAmong | Custom-Domain/python-scripts/manage-domain.py:76-79 | An override exists exactly for the listed names that are set in the environment |
| Settings.DigitEndNotBool | Custom-Domain/python-scripts/manage-domain.py:81 | Text ending in a digit is never "true" or "false" |
| Settings.PortOverrideIsInt | Custom-Domain/python-scripts/manage-domain.py:85-88 | A decimal int for BACKEND_APP_PORT becomes that int |
| Settings.PortOverrideUnparsable | Custom-Domain/python-scripts/manage-domain.py:85-88 | A port text `int()` refuses is kept as text |
| Settings.OtherOverridesNeverInt | Custom-Domain/python-scripts/manage-domain.py:85 | Names other than the port never become ints |
| Settings.OverridesStep | Custom-Domain/python-scripts/manage-domain.py:76-88 | Reading one more name adds at most that name's override |
| Settings.OverridesOnlyNamed | Custom-Domain/python-scripts/manage-domain.py:76-78 | Settings outside the five names are never touched |
| Settings.Overrides | Custom-Domain/python-scripts/manage-domain.py:76-88 | The overrides `load_env_overrides` applies. OverridesAmong: one exactly for each of the five names set in the environment, with OverrideValue's conversion. OverridesOnlyNamed: no other setting. Config.LoadEnvOverrides applies them |
| Settings.Config.constructor | Custom-Domain/python-scripts/config.py:4-10 | The five overridable settings start as the values config.py assigns them |
| Settings.Config.LoadEnvOverrides | Custom-Domain/python-scripts/manage-domain.py:74-88 | The settings become the old ones updated with the environment's overrides; every other setting is unchanged |
| NginxConfig.ArgsAppend | Custom-Domain/python-scripts/manage-domain.py:174-218 | The arguments of a directive in two joined pieces are those of the first piece followed by those of the second |
| NginxConfig.ArgsNone | Custom-Domain/python-scripts/manage-domain.py:174-218 | Lines without a directive contribute no arguments for it |
| NginxConfig.ArgsOne | Custom-Domain/python-scripts/manage-domain.py:174-218 | Lines with a directive on a single line contribute that line's arguments |
| NginxConfig.ProfileAppend | Custom-Domain/python-scripts/manage-domain.py:174-218 | The profile of joined pieces merges the pieces' profiles |
| NginxConfig.UnprofiledNoArgs | Custom-Domain/python-scripts/manage-domain.py:174-218 | Pieces without any of the profiled directives have an empty profile |
| ServerBlockFacts.RedirectServerProfile | Custom-Domain/python-scripts/manage-domain.py:175-180 | The redirect server names the domain and its www. alias and listens on port 80 |
| ServerBlockFacts.TlsServerHeadProfile | Custom-Domain/python-scripts/manage-domain.py:182-184 | The TLS server listens on 443 with TLS and HTTP/2 and names the domain and its alias |
| ServerBlockFacts.RateLinesProfile | Custom-Domain/python-scripts/manage-domain.py:167-172 | `limit_req_zone` appears, with the configured zone and rate, exactly when rate limiting is on |
| ServerBlockFacts.HardeningProfile | Custom-Domain/python-scripts/manage-domain.py:186-198 | One certificate and one key under /etc/letsencrypt/live/{domain}/, and nothing else profiled |
| ServerBlockFacts.RootLocationProfile | Custom-Domain/python-scripts/manage-domain.py:200-210 | `location /` holds exactly one `proxy_pass`, to the backend; `proxy_http_version 1.1` appears exactly when WebSocket support is on |
| ServerBlockFacts.HealthCheckProfile | Custom-Domain/python-scripts/manage-domain.py:212-216 | The health-check location holds none of the profiled directives |
| ServerBlockFacts.TlsSettingsProfile | Custom-Domain/python-scripts/manage-domain.py:189-193 | The TLS protocol, cipher and session lines hold none of the profiled directives |
| ServerBlockFacts.SecurityHeadersProfile | Custom-Domain/python-scripts/manage-domain.py:195-198 | The security headers hold none of the profiled directives |
| ServerBlockFacts.ProxyHeadProfile | Custom-Domain/python-scripts/manage-domain.py:200-205 | The proxy location's header lines hold exactly one `proxy_pass`, to the configured backend host and port |
| ServerBlockFacts.WebSocketLinesProfile | Custom-Domain/python-scripts/manage-domain.py:161-165 | `proxy_http_version 1.1` and the `Upgrade $http_upgrade` and `Connection "upgrade"` headers appear exactly when WebSocket support is on |
| ServerBlockFacts.ProxyHeadHeaders | Custom-Domain/python-scripts/manage-domain.py:200-205 | `location /` always forwards Host, X-Real-IP, X-Forwarded-For and X-Forwarded-Proto, in that order |
| ServerBlockFacts.RootLocationHeaders | Custom-Domain/python-scripts/manage-domain.py:200-210 | The request headers of `location /` are the four forwarded ones, then the two upgrade headers exactly when WebSocket support is on |
| ServerBlockFacts.TlsServerHeaders | Custom-Domain/python-scripts/manage-domain.py:182-217 | In the TLS server only `location /` sets request headers |
| ServerBlockFacts.ServerBlockHeaders | Custom-Domain/python-scripts/manage-domain.py:153-218 | The whole block's `proxy_set_header` lines are the four forwarded headers, then the two upgrade headers iff WebSocket support is on |
| ServerBlockFacts.ProxyTailProfile | Custom-Domain/python-scripts/manage-domain.py:207-210 | The proxy timeouts and the closing lines hold none of the profiled directives |
| ServerBlockFacts.TlsServerProfile | Custom-Domain/python-scripts/manage-domain.py:182-217 | The whole TLS server's profile |
| ServerBlockFacts.ServerBlockDirectives | Custom-Domain/python-scripts/manage-domain.py:153-218 | Both servers, and only they, name "{domain} www.{domain}"; they listen on 80 and on 443; one certificate and one key under /etc/letsencrypt/live/{domain}/; `limit_req_zone` iff rate limiting; one `proxy_pass` to the backend; `proxy_http_version` and the `Upgrade`/`Connection` headers iff WebSocket, after the four forwarded headers. This holds of the block's lines, which are the written file's lines whenever no interpolated value holds a line feed (RenderedText.ServerBlockTextLines) |
| NginxConfig.ServerBlock | Custom-Domain/python-scripts/manage-domain.py:153-218 | The template as tagged lines. ServerBlockFacts.ServerBlockDirectives and ServerBlockHeaders state its directives; RenderedText.ServerBlockTextLines ties it to the text |
| NginxConfig.ServerBlockText | Custom-Domain/python-scripts/manage-domain.py:174-218 | The text `_nginx_server_block` returns: each line followed by a line feed. RenderedText.ServerBlockTextLines states how it splits back into lines |
| RenderedText.SplitRender | Custom-Domain/python-scripts/manage-domain.py:174-218 | Splitting rendered lines at line feeds gives each line's text and a final empty piece, if and only if no line holds a line feed |
| RenderedText.ServerBlockRests | Custom-Domain/python-scripts/manage-domain.py:153-218 | When no interpolated value holds a line feed, no line of the block does: the template's own text holds none |
| RenderedText.ServerBlockTextLines | Custom-Domain/python-scripts/manage-domain.py:153-218 | When no interpolated value holds a line feed, the written text splits into exactly the block's lines, so the directives proved of the lines are the file's. A domain holding a line feed splits the opening comment into lines the block does not have |
| RenderedText.DefaultsUnbroken | Custom-Domain/python-scripts/manage-domain.py:153-218 | config.py's values and a domain free of line feeds meet that condition |
| DnsCheck.SplitLines | Custom-Domain/python-scripts/manage-domain.py:269 | The pieces hold no line break |
| DnsCheck.DottedQuadChars | Custom-Domain/python-scripts/manage-domain.py:271 | A line the `dig` filter keeps holds only digits and dots and starts and ends with a digit |
| DnsCheck.DigKeptQuads | Custom-Domain/python-scripts/manage-domain.py:269-272 | Every kept line is four dot-separated digit runs |
| DnsCheck.DigKeptSnoc | Custom-Domain/python-scripts/manage-domain.py:269-272 | One more line adds exactly what that line contributes |
| DnsCheck.AnswerSet | Custom-Domain/python-scripts/manage-domain.py:261-262 | The set of answers is empty iff there were no answers |
| DnsCheck.DnsDecision | Custom-Domain/python-scripts/manage-domain.py:275-282 | False when nothing resolved; true for an empty expectation; otherwise true iff expected ∩ resolved is non-empty |
| DnsCheck.VerifyDns | Custom-Domain/python-scripts/manage-domain.py:246-282 | The resolved set is the resolver's answers, or the `dig` addresses when there were none; the result is the decision on it |
| DnsCheck.DigFallback | Custom-Domain/python-scripts/manage-domain.py:265-274 | The loop keeps the stripped lines that are dotted quads |
| DnsCheck.AnyResolved | Custom-Domain/python-scripts/manage-domain.py:282 | True iff some expected address was resolved |
| DnsCheck.DigOnlyWithoutAnswers | Custom-Domain/python-scripts/manage-domain.py:265 | With resolver answers, `dig` output plays no part |
| DnsCheck.DigKeepsDottedQuads | Custom-Domain/python-scripts/manage-domain.py:269-272 | Every address the fallback keeps is a dotted quad of ASCII digits |
| DnsCheck.SplitLinesNoBreak | Custom-Domain/python-scripts/manage-domain.py:269 | Text without a line break is one line |
| DnsCheck.DigKeepsQuadLine | Custom-Domain/python-scripts/manage-domain.py:269-272 | `dig` output that is one dotted quad yields that address |
| DnsCheck.JoinedQuad | Custom-Domain/python-scripts/manage-domain.py:271 | Four digit runs joined by dots form a dotted quad |
| DnsCheck.DigKeepsOutOfRange | Custom-Domain/python-scripts/manage-domain.py:271 | Octets are not range-checked: "999.999.999.999" is kept |
| DnsCheck.NothingResolvedFails | Custom-Domain/python-scripts/manage-domain.py:275-277 | Nothing resolved means failure, whatever is expected |
| DnsCheck.IsDottedQuad | Custom-Domain/python-scripts/manage-domain.py:271 | The pattern `^\d+\.\d+\.\d+\.\d+$`. DottedQuadChars: such a line holds only digits and dots. JoinedQuad: four digit runs joined by dots match. DigKeepsOutOfRange: octet values are not checked |
| DnsCheck.Kept | Custom-Domain/python-scripts/manage-domain.py:270-272 | One `dig` line's contribution: its stripped text when that is a dotted quad. DigKeepsQuadLine gives an example; DigKeepsDottedQuads shows nothing else is kept |
| DnsCheck.DigKept | Custom-Domain/python-scripts/manage-domain.py:269-272 | The addresses kept from all lines. DigKeptQuads: each one is a dotted quad. DigKeptSnoc is the loop step. DigFallback returns it |
| DnsCheck.DigAddresses | Custom-Domain/python-scripts/manage-domain.py:265-274 | The addresses of the `dig` fallback, none when `dig` fails. DigKeepsDottedQuads: only dotted quads. DigKeepsQuadLine: one dotted-quad line gives that address. DigFallback returns it |
| DnsCheck.Resolved | Custom-Domain/python-scripts/manage-domain.py:250-274 | The `resolved` set: the resolver answers when there are any, else the `dig` addresses. DigOnlyWithoutAnswers: `dig` plays no part when the resolver answered. NothingResolvedFails: an empty set fails. VerifyDns returns it |
| DomainSites.DanglingLinkNotConfigured | Custom-Domain/python-scripts/manage-domain.py:243-244 | A sites-enabled link whose target is gone does not make the domain configured |
| DomainSites.EnabledExists | Custom-Domain/python-scripts/manage-domain.py:244 | `.exists()` on sites-enabled/{d}, which follows a link. DanglingLinkNotConfigured: a link to a missing config does not count. EnableLinksConfig: the link `enable_nginx_site` adds does |
| DomainSites.DomainExists | Custom-Domain/python-scripts/manage-domain.py:243-244 | `check_domain_exists`: a config in sites-available, or an entry of sites-enabled that exists. DanglingLinkNotConfigured: a dangling link alone is not enough. RequestConfigures: a request that got a certificate leaves the domain configured |
| DomainSites.Enabled | Custom-Domain/python-scripts/manage-domain.py:229-241 | The registry after `enable_nginx_site`. EnableWithoutConfig: nothing changes without a config. EnableKeepsEntry: an existing entry is kept. EnableLinksConfig: otherwise a link is added. EnableIdempotent and EnableOthersUntouched hold |
| DomainSites.EnableIdempotent | Custom-Domain/python-scripts/manage-domain.py:229-241 | Enabling twice is enabling once |
| DomainSites.EnableWithoutConfig | Custom-Domain/python-scripts/manage-domain.py:232-234 | Without a config nothing changes |
| DomainSites.EnableKeepsEntry | Custom-Domain/python-scripts/manage-domain.py:236-238 | An existing entry, even a dangling link, is kept as it is |
| DomainSites.EnableLinksConfig | Custom-Domain/python-scripts/manage-domain.py:239 | With a config and no entry, a link to the config is added and the site is then enabled |
| DomainSites.EnableOthersUntouched | Custom-Domain/python-scripts/manage-domain.py:229-241 | Enabling one domain touches no other name |
| DomainSites.InvalidAfterDeleteOmitsDomain | Custom-Domain/python-scripts/manage-domain.py:338 | The message as written is the same for every domain |
| DomainSites.InvalidAfterDeleteNamesDomain | Custom-Domain/python-scripts/manage-domain.py:338 | With the domain filled in, the message tells the domains apart |
| DomainSites.DeleteExitCode | Custom-Domain/python-scripts/manage-domain.py:328-339 | Exit 0 iff `nginx -t` and the reload succeed; a failed removal only turns success into partial success |
| DomainSites.DeleteOthersUntouched | Custom-Domain/python-scripts/manage-domain.py:293-326 | Deleting one domain leaves every other name's config, entry and certificate as they were |
| DomainSites.DeleteRemovesDomain | Custom-Domain/python-scripts/manage-domain.py:298-326 | When every removal succeeds, no trace of the domain is left and `ok` stays true |
| DomainSites.DeleteAbsentIsOk | Custom-Domain/python-scripts/manage-domain.py:305-316 | Entries that are already absent are logged, not failures |
| DomainSites.AfterDelete | Custom-Domain/python-scripts/manage-domain.py:293-326 | The registry after `delete_domain`. DeleteOthersUntouched: other names are as they were. DeleteRemovesDomain: when every removal succeeds, no trace of the domain is left. DeleteAbsentIsOk: absent entries stay absent |
| DomainSites.DeleteOk | Custom-Domain/python-scripts/manage-domain.py:294-314 | The `ok` flag. DeleteRemovesDomain and DeleteAbsentIsOk: it is true when the removals succeed or the entries were absent. DeleteExitCode: it never changes the exit code |
| DomainSites.DeleteOutcome | Custom-Domain/python-scripts/manage-domain.py:328-339 | The message and exit code of `delete_domain`. DeleteExitCode: exit 0 exactly when `nginx -t` and the reload succeed, with "partially deleted" when a removal failed |
| DomainSites.RequestExistingNoChange | Custom-Domain/python-scripts/manage-domain.py:382-384 | A request for a configured domain changes nothing and exits 0 |
| DomainSites.RequestNeedsCertificate | Custom-Domain/python-scripts/manage-domain.py:385-395 | Nothing is written unless a certificate was issued; then the exit is 0 only for an already configured domain |
| DomainSites.RequestConfigures | Custom-Domain/python-scripts/manage-domain.py:385-387 | After issuance the config holds the generated block, the certificate is live, the domain is configured and a new link points to the config |
| DomainSites.RequestOthersUntouched | Custom-Domain/python-scripts/manage-domain.py:381-395 | A request touches no other name |
| DomainSites.AfterRequest | Custom-Domain/python-scripts/manage-domain.py:381-395 | The registry after `request`. RequestExistingNoChange, RequestNeedsCertificate, RequestConfigures and RequestOthersUntouched state it, and Host.Request leaves it |
| DomainSites.RequestExit | Custom-Domain/python-scripts/manage-domain.py:381-395 | The exit code of `request`. RequestExistingNoChange: 0 for a configured domain. RequestNeedsCertificate: without a certificate, 0 only for a configured domain. The reload's result is not looked at |
| DomainSites.CheckPassesIff | Custom-Domain/python-scripts/manage-domain.py:397-422 | `check` exits 0 iff the name is valid and configured, its certificate is live, nginx accepts the configuration, and, when addresses are given, one of them resolves |
| DomainSites.CheckExit | Custom-Domain/python-scripts/manage-domain.py:397-422 | The exit code of `check`. CheckPassesIff: 0 exactly when the domain is configured, its certificate is live, `nginx -t` passes and, when addresses are given, one of them resolved |
| DomainSites.Host.constructor | Custom-Domain/python-scripts/config.py:13-14 | The host starts in a given state of the registry (the sites-available and sites-enabled directories and the live certificates); the script reads that state and does not create it |
| DomainSites.Host.CreateNginxConfig | Custom-Domain/python-scripts/manage-domain.py:220-227 | sites-available/{domain} holds the generated block; nothing else changes |
| DomainSites.Host.EnableNginxSite | Custom-Domain/python-scripts/manage-domain.py:229-241 | Returns whether the config exists; the new state is the enable specification |
| DomainSites.Host.DeleteDomain | Custom-Domain/python-scripts/manage-domain.py:293-339 | The new state is the delete specification; the outcome follows from `ok`, `nginx -t` and the reload |
| DomainSites.Host.Delete | Custom-Domain/python-scripts/manage-domain.py:376-379 | An invalid name exits 1 with no change; otherwise the delete specification |
| DomainSites.Host.Request | Custom-Domain/python-scripts/manage-domain.py:376-395 | The new state and exit code are the request specification |
| DomainSites.Host.Check | Custom-Domain/python-scripts/manage-domain.py:397-422 | The exit code is the check specification; nothing changes |
| Strings.Split | Custom-Domain/python-scripts/verify-dns.py:39 | `str.split(sep)` gives at least one part, none holding the separator |
| Strings.Strip | Custom-Domain/python-scripts/verify-dns.py:39 | `str.strip(chars)` leaves no stripped character at either end |
| Strings.Lower | Custom-Domain/python-scripts/verify-dns.py:65 | `str.lower()` on ASCII letters keeps the length |
| Strings.ContainsIff | Custom-Domain/python-scripts/verify-dns.py:66-80 | `needle in text` holds iff the needle occurs at some position |

## Left out

- I/O is not modelled. That covers logging, ANSI colours, the log files, the JSON printing, `argparse`, the root check, dependency checks and `sys.exit` (exit codes are modelled as values). `time.sleep` is reduced to the delays it would sleep.
- DNS queries, the `dig` subprocess, the HTTP fetch of Cloudflare's ranges, and the `certbot`, `nginx -t` and reload subprocesses are inputs or oracles. So is `openssl` certificate-expiry reading. A successful `certbot` run is assumed to leave `/etc/letsencrypt/live/{domain}` in place: DomainSites.AfterRequest adds the domain to `live` when certbot succeeds, and the script never checks the directory.
- The resolver's timeout, lifetime and nameserver list are left out. `resolve_records` ignores its `nameserver` argument, so each lookup is one input.
- `renew`, `list`, `request_certificate`'s arguments (e-mail, staging, forced renewal) and `read_cert_expiry` are left out. They are command-line plumbing around certbot; only the certbot exit status is modelled.
- `setup.py` is not part of this model.
- IPv6 is left out. The `cf6` list is fetched but never used. IPv6 text in the IPv4 list parses to no network in the model, so it is skipped. In Python it parses to an IPv6 network that an IPv4 address is never in, so the result is the same: it never matches.
- `ipaddress.ip_network`'s netmask and hostmask forms ("a.b.c.d/255.255.0.0") are not modelled. Such entries are treated as malformed.
- DnsVerification.CheckCloudflareProxy: takes the A records as parsed addresses. An unparsable resolver answer, which would make `ip_address` raise, is not modelled.
- DnsVerification.VerifyDomainARecords: each attempt's A records are the resolver's texts. The CNAME answer is carried but only logged, as in the code.
- Settings.ParsePyInt: ASCII digits only. Python's `int()` also accepts other Unicode decimal digits.
- DnsCheck.IsDottedQuad: ASCII digits only. Python's `\d` in a `str` pattern also matches other Unicode digits.
- DnsCheck.SplitLines: a "\r\n" pair or a final line break gives an extra empty piece that `str.splitlines` does not. An empty piece is never kept, so the addresses are the same.
- ServerBlockFacts.ServerBlockDirectives: its directives are read one per line of the block. RenderedText.ServerBlockTextLines shows these are the written file's lines only while no interpolated value holds a line feed, and a value holding one adds lines the statement does not cover. `BACKEND_APP_HOST` from the environment is kept as it is, for example. A `;`, `{` or `}` inside a value, which nginx's own parser treats as ending a directive, is not modelled either. nginx's tokenizer is not part of this model.
- NginxConfig.ServerBlock: the config.py settings the template reads are a parameter (`BlockSettings`), with config.py's values as `ConfigDefaults`. They are not read from a module.
- DomainSites.Host.CreateNginxConfig: a failing `write_text` or `mkdir` is not modelled. It would raise and end the script.
- DomainSites.EnabledExists: a sites-enabled link is modelled as pointing at a sites-available entry. Links to other places are not modelled.
- DomainSites.Host.DeleteDomain: revoking and deleting the certificate is one oracle (`certbotRemoves`). Their exit codes are ignored by the code and do not affect `ok`.
- Strings.Lower: ASCII letters only. Python's `str.lower` also maps other Unicode letters (U+212A KELVIN SIGN becomes "k"); resolver answers are ASCII text, so the classification is the same for them.
- Hostname.ValidateDomain: the actions validate with the intended check, not with `DOMAIN_RE.match` as written. Names ending in one line feed, such as "a\n", which the script lets through (Hostname.TrailingNewlineAccepted), are rejected by the model. See "## Findings".
- DomainSites.AfterRequest: a name ending in one line feed is left unchanged by the model, while the script goes on to request a certificate for it.
- DomainSites.RequestExit: a name ending in one line feed exits 1 in the model, while the script treats it as a valid name.
- DomainSites.RequestNeedsCertificate: states the exit through the intended check, so it says nothing about names ending in one line feed.
- DomainSites.CheckExit: a name ending in one line feed exits 1 in the model, while the script goes on to check it.
- DomainSites.CheckPassesIff: "valid" is the intended check, so names ending in one line feed, which the script accepts, never pass in the model.
- DomainSites.Host.Delete: a name ending in one line feed exits 1 with no change in the model, while the script runs `delete_domain` for it.
- DomainSites.Host.Request: validates with the intended check, not `DOMAIN_RE.match` as written.
- DomainSites.Host.Check: validates with the intended check, not `DOMAIN_RE.match` as written.
- DomainSites.DeleteOutcome: when `nginx -t` fails, the message names the domain (DomainSites.InvalidAfterDelete), while the script prints the literal "{domain}" (DomainSites.InvalidAfterDeleteAsWritten). See "## Findings".
- DomainSites.Host.DeleteDomain: its outcome message is DeleteOutcome's, so the same message difference applies.
- The model follows the code:
  - no "force success" override;
  - a CNAME target is never compared with the expected addresses;
  - a hit in a CDN range does not count as a match;
  - no expected addresses means "not matched" (exit 1), not a configuration error;
  - the proxied-Cloudflare verdict is decided before the expected list is looked at.

## Findings

| source | as written | input that shows it | evidently intended | confidence | as-written member | corrected member |
|---|---|---|---|---|---|---|
| Custom-Domain/python-scripts/manage-domain.py:90-93 | `DOMAIN_RE.match` with a `$` anchor, which also matches before a final line feed | "a\n" is accepted, though no valid host name contains a line feed | accept exactly the dot-separated valid labels (`\Z` or `re.fullmatch`) | not executed | Hostname.TrailingNewlineAccepted | Hostname.ValidateDomainIsPattern |
| Custom-Domain/python-scripts/manage-domain.py:338 | `error("Nginx configuration is invalid after deleting {domain}")` lacks the `f` prefix | deleting any domain while `nginx -t` fails prints the literal "{domain}" | the message names the deleted domain | not executed | DomainSites.InvalidAfterDeleteOmitsDomain | DomainSites.InvalidAfterDeleteNamesDomain |
