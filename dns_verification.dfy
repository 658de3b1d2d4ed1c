// The decision logic of verify-dns.py: the Cloudflare proxy test, the
// A-record retry loop with exponential backoff, and the final verdict.
// Every DNS answer is an input: `answers[k]` is what the resolver returned
// on attempt `k`.

module DnsVerification {
  import opened Wrappers
  import opened IPv4
  import opened DnsProvider
  import opened Strings

  // ---------------------------------------------------------------------
  // Cloudflare proxy

  /** The IPv4 ranges the script tests against: the fetched list, or the
      built-in fallback when the fetch failed. */
  function CloudflareV4(fetched: Option<seq<string>>): seq<string>
  {
    match fetched
    case Some(v4) => v4
    case None => FallbackCloudflareV4
  }

  /** When the fetch fails, an A record counts as proxied exactly when one of
      the fifteen fallback networks holds it. */
  lemma FallbackProxy(aRecords: seq<Address>)
    ensures CheckCloudflareProxy(aRecords, CloudflareV4(None))
        <==> exists i, j ::
               0 <= i < |aRecords| && 0 <= j < |FallbackNetworks|
               && FallbackNetworks[j].prefixLen <= 32 && InNetwork(aRecords[i], FallbackNetworks[j])
  {
    forall i | 0 <= i < |aRecords|
      ensures IpInAnyCidr(aRecords[i], FallbackCloudflareV4)
        <==> exists j :: 0 <= j < |FallbackNetworks| && FallbackNetworks[j].prefixLen <= 32 && InNetwork(aRecords[i], FallbackNetworks[j])
    {
      FallbackRanges(aRecords[i]);
    }
  }

  /** verify-dns.py `check_cloudflare_proxy`: is some A record of the domain
      inside one of the Cloudflare IPv4 ranges? */
  function CheckCloudflareProxy(aRecords: seq<Address>, cf4: seq<string>): (r: bool)
    ensures aRecords == [] ==> !r
    ensures r <==> exists i :: 0 <= i < |aRecords| && IpInAnyCidr(aRecords[i], cf4)
  {
    if aRecords == [] then false
    else if IpInAnyCidr(aRecords[0], cf4) then true
    else
      var r := CheckCloudflareProxy(aRecords[1..], cf4);
      assert forall i :: 1 <= i < |aRecords| ==> aRecords[i] == aRecords[1..][i - 1];
      r
  }

  /** With no range list at all nothing is proxied. */
  lemma {:induction false} NoRangesNoProxy(aRecords: seq<Address>)
    ensures !CheckCloudflareProxy(aRecords, [])
  {
    if aRecords != [] {
      NoRangesNoProxy(aRecords[1..]);
    }
  }

  // ---------------------------------------------------------------------
  // A-record verification

  /** What one attempt saw: its A records as the resolver prints them
      (possibly none) and, when those were empty, the domain's CNAME targets. */
  datatype Lookup = Lookup(a: seq<string>, cname: seq<string>)

  function LookupAt(answers: seq<Lookup>, k: nat): Lookup
  {
    if k < |answers| then answers[k] else Lookup([], [])
  }

  /** `max(1, retries)`: how many attempts the loop may make. */
  function Budget(retries: int): nat
  {
    if retries < 1 then 1 else retries
  }

  /** `any(ip in resolved for ip in expected_ips)`: some expected text equals
      the text of some resolved address. */
  predicate Matches(expected: seq<string>, resolved: seq<string>)
  {
    expected != [] && (expected[0] in resolved || Matches(expected[1..], resolved))
  }

  lemma {:induction false} MatchesIff(expected: seq<string>, resolved: seq<string>)
    ensures Matches(expected, resolved) <==> exists i :: 0 <= i < |expected| && expected[i] in resolved
  {
    if expected != [] {
      MatchesIff(expected[1..], resolved);
      assert forall i :: 1 <= i < |expected| ==> expected[i] == expected[1..][i - 1];
    }
  }

  /** Whether attempt `k` shares an address with the expected list. */
  predicate AttemptMatches(expected: seq<string>, answers: seq<Lookup>, k: nat)
  {
    Matches(expected, LookupAt(answers, k).a)
  }

  /** Some attempt among `k` .. `budget - 1` matches. */
  function MatchedFrom(expected: seq<string>, answers: seq<Lookup>, k: nat, budget: nat): bool
    decreases budget - k
  {
    if k >= budget then false
    else AttemptMatches(expected, answers, k) || MatchedFrom(expected, answers, k + 1, budget)
  }

  /** The outcome `verify_domain_a_records` reports. */
  function ARecordsVerified(expected: seq<string>, retries: int, answers: seq<Lookup>): bool
  {
    expected != [] && MatchedFrom(expected, answers, 0, Budget(retries))
  }

  /** How many attempts the loop makes from attempt `k` on: up to and
      including the first that matches, or all up to `budget`. */
  function AttemptsFrom(expected: seq<string>, answers: seq<Lookup>, k: nat, budget: nat): nat
    decreases budget - k
  {
    if k >= budget then k
    else if AttemptMatches(expected, answers, k) then k + 1
    else AttemptsFrom(expected, answers, k + 1, budget)
  }

  /** The number of attempts `verify_domain_a_records` makes: none for an
      empty expected list. */
  function AttemptCount(expected: seq<string>, retries: int, answers: seq<Lookup>): nat
  {
    if expected == [] then 0 else AttemptsFrom(expected, answers, 0, Budget(retries))
  }

  lemma {:induction false} AttemptsFromFirstMatch(expected: seq<string>, answers: seq<Lookup>, k: nat, budget: nat)
    requires k <= budget
    ensures k <= AttemptsFrom(expected, answers, k, budget) <= budget
    ensures forall j :: k <= j < AttemptsFrom(expected, answers, k, budget) - 1 ==> !AttemptMatches(expected, answers, j)
    ensures MatchedFrom(expected, answers, k, budget)
        <==> (k < AttemptsFrom(expected, answers, k, budget)
          && AttemptMatches(expected, answers, AttemptsFrom(expected, answers, k, budget) - 1))
    ensures !MatchedFrom(expected, answers, k, budget) ==> AttemptsFrom(expected, answers, k, budget) == budget
    decreases budget - k
  {
    if k < budget && !AttemptMatches(expected, answers, k) {
      AttemptsFromFirstMatch(expected, answers, k + 1, budget);
    }
  }

  /** The attempt count stops at the first matching attempt, and uses the
      whole budget exactly when no attempt matches a non-empty list. */
  lemma AttemptCountFirstMatch(expected: seq<string>, retries: int, answers: seq<Lookup>)
    ensures AttemptCount(expected, retries, answers) <= Budget(retries)
    ensures ARecordsVerified(expected, retries, answers)
        <==> (1 <= AttemptCount(expected, retries, answers)
          && AttemptMatches(expected, answers, AttemptCount(expected, retries, answers) - 1))
    ensures forall j :: 0 <= j < AttemptCount(expected, retries, answers) - 1 ==> !AttemptMatches(expected, answers, j)
    ensures expected != [] && !ARecordsVerified(expected, retries, answers)
        ==> AttemptCount(expected, retries, answers) == Budget(retries)
  {
    if expected != [] {
      AttemptsFromFirstMatch(expected, answers, 0, Budget(retries));
    }
  }

  /** The backoff delays (seconds) before attempts 1 .. attempts - 1. */
  function Backoff(attempts: nat): (r: seq<nat>)
    ensures |r| == if attempts == 0 then 0 else attempts - 1
  {
    if attempts <= 1 then [] else Backoff(attempts - 1) + [Pow2(attempts - 1)]
  }

  lemma NothingResolvedNoMatch(expected: seq<string>, answers: seq<Lookup>, k: nat)
    requires LookupAt(answers, k).a == []
    ensures !AttemptMatches(expected, answers, k)
  {
    MatchesIff(expected, []);
  }

  /** verify-dns.py `verify_domain_a_records`. Returns the verdict, the number
      of attempts made and the delays slept between them. */
  method VerifyDomainARecords(expected: seq<string>, retries: int, answers: seq<Lookup>)
    returns (matched: bool, attempts: nat, delays: seq<nat>)
    ensures matched == ARecordsVerified(expected, retries, answers)
    ensures expected == [] ==> !matched && attempts == 0
    ensures attempts <= Budget(retries)
    ensures matched ==> 1 <= attempts && AttemptMatches(expected, answers, attempts - 1)
    ensures forall k :: 0 <= k < attempts - 1 ==> !AttemptMatches(expected, answers, k)
    ensures !matched && expected != [] ==> attempts == Budget(retries)
    ensures delays == Backoff(attempts)
    ensures attempts == AttemptCount(expected, retries, answers)
  {
    delays := [];
    attempts := 0;
    matched := false;
    if expected == [] {
      return;
    }
    var budget := Budget(retries);
    ARecordsVerifiedIff(expected, retries, answers);
    // Each failing branch of an attempt returns False only on the last
    // attempt and otherwise moves on, so the loop stops at the first match
    // or after the last attempt.
    while attempts < budget && !matched
      invariant 0 <= attempts <= budget
      invariant forall k :: 0 <= k < attempts - 1 ==> !AttemptMatches(expected, answers, k)
      invariant matched <==> 1 <= attempts && AttemptMatches(expected, answers, attempts - 1)
      invariant delays == Backoff(attempts)
      invariant AttemptCount(expected, retries, answers)
          == if matched then attempts else AttemptsFrom(expected, answers, attempts, budget)
    {
      var attempt := attempts;
      if attempt > 0 {
        delays := delays + [Pow2(attempt)];
      }
      var lookup := LookupAt(answers, attempt);
      var resolved := lookup.a;
      if resolved == [] {
        // No A records: CNAME targets, if any, are only logged.
        NothingResolvedNoMatch(expected, answers, attempt);
      } else {
        matched := Matches(expected, resolved);
      }
      attempts := attempts + 1;
    }
  }

  /** The reference reading of the outcome: the expected list is non-empty
      and one of the permitted attempts shares an address with it. */
  lemma {:induction false} MatchedFromIff(expected: seq<string>, answers: seq<Lookup>, k: nat, budget: nat)
    ensures MatchedFrom(expected, answers, k, budget)
        <==> exists j :: k <= j < budget && AttemptMatches(expected, answers, j)
    decreases budget - k
  {
    if k < budget {
      MatchedFromIff(expected, answers, k + 1, budget);
    }
  }

  lemma ARecordsVerifiedIff(expected: seq<string>, retries: int, answers: seq<Lookup>)
    ensures ARecordsVerified(expected, retries, answers)
        <==> expected != [] && exists j :: 0 <= j < Budget(retries) && AttemptMatches(expected, answers, j)
  {
    MatchedFromIff(expected, answers, 0, Budget(retries));
  }

  /** A CNAME never counts as a match: if no attempt returns A records the
      verification fails, whatever the CNAME targets are. */
  lemma CnameOnlyFails(expected: seq<string>, retries: int, answers: seq<Lookup>)
    requires forall k :: 0 <= k < |answers| ==> answers[k].a == []
    ensures !ARecordsVerified(expected, retries, answers)
  {
    ARecordsVerifiedIff(expected, retries, answers);
    forall j | 0 <= j < Budget(retries)
      ensures !AttemptMatches(expected, answers, j)
    {
      MatchesIff(expected, []);
    }
  }

  /** DNS still propagating: nothing on the first attempt, the expected
      address on the second. With at least two retries this succeeds. */
  lemma PropagationDelay(expected: seq<string>, retries: int, answers: seq<Lookup>, ip: string)
    requires retries >= 2 && |answers| >= 2
    requires answers[0].a == [] && ip in answers[1].a
    requires ip in expected
    ensures ARecordsVerified(expected, retries, answers)
  {
    ARecordsVerifiedIff(expected, retries, answers);
    MatchesIff(expected, answers[1].a);
    assert AttemptMatches(expected, answers, 1);
  }

  /** Each delay doubles the previous one, starting at two seconds. */
  lemma {:induction false} BackoffDoubles(attempts: nat)
    ensures forall i :: 0 <= i < |Backoff(attempts)| ==> Backoff(attempts)[i] == Pow2(i + 1)
    ensures |Backoff(attempts)| >= 1 ==> Backoff(attempts)[0] == 2
    ensures forall i :: 1 <= i < |Backoff(attempts)| ==> Backoff(attempts)[i] == 2 * Backoff(attempts)[i - 1]
  {
    if attempts > 1 {
      BackoffDoubles(attempts - 1);
    }
  }

  /** With the configured three retries the loop waits 2 s and then 4 s. */
  lemma BackoffForThreeRetries()
    ensures Backoff(Budget(3)) == [2, 4]
  {
    assert Pow2(1) == 2;
    assert Pow2(2) == 4;
  }

  // ---------------------------------------------------------------------
  // Verdict

  /** The JSON object `main` prints, and its exit status. */
  datatype Report = Report(message: string, dnsProvider: string, cloudflareProxy: Option<string>, exitCode: int)

  const DisableProxyMessage: string := "Please disable the proxy in Cloudflare to match SSL certificate"

  function MatchMessage(matched: bool): string
  {
    if matched then "matched" else "not matched"
  }

  /** The report for a provider, the proxy test and the A-record outcome. */
  function Verdict(provider: Provider, proxied: bool, matched: bool): Report
  {
    if provider == Cloudflare && proxied then
      Report(DisableProxyMessage, provider.Name(), Some("enabled"), 0)
    else if provider == Cloudflare then
      Report(MatchMessage(matched), provider.Name(), Some("disabled"), if matched then 0 else 1)
    else
      Report(MatchMessage(matched), provider.Name(), None, if matched then 0 else 1)
  }

  /** verify-dns.py `main` after argument parsing, for the `domain` argument.
      The DNS answers are inputs: the NS answers per queried name and lookup,
      the A records the proxy test sees, the fetched Cloudflare ranges (None
      when the fetch failed) and the per-attempt answers of the A-record
      verification. `aAttempts` counts the verification attempts made. */
  method RunVerification(
    domain: string, serverCount: nat, nsAnswersFor: string -> seq<seq<string>>,
    fetchedV4: Option<seq<string>>, proxyARecords: seq<Address>,
    expected: seq<string>, retries: int, answers: seq<Lookup>)
    returns (report: Report, aAttempts: nat)
    ensures report == Verdict(
      Classify(NsRecordsFrom(nsAnswersFor(ExtractBaseDomain(Strip(domain, Whitespace))), 0, Tries(serverCount))),
      CheckCloudflareProxy(proxyARecords, CloudflareV4(fetchedV4)),
      ARecordsVerified(expected, retries, answers))
    ensures report.dnsProvider == "Cloudflare" && report.cloudflareProxy == Some("enabled") ==> aAttempts == 0
    ensures aAttempts <= Budget(retries)
    ensures report.cloudflareProxy != Some("enabled") ==> aAttempts == AttemptCount(expected, retries, answers)
  {
    var name := Strip(domain, Whitespace);
    var provider, _ := IdentifyDnsProvider(name, serverCount, nsAnswersFor);
    var cf4 := CloudflareV4(fetchedV4);
    var matched: bool;
    var delays: seq<nat>;
    if provider == Cloudflare {
      if CheckCloudflareProxy(proxyARecords, cf4) {
        return Report(DisableProxyMessage, provider.Name(), Some("enabled"), 0), 0;
      }
      matched, aAttempts, delays := VerifyDomainARecords(expected, retries, answers);
      return Report(MatchMessage(matched), provider.Name(), Some("disabled"), if matched then 0 else 1), aAttempts;
    }
    matched, aAttempts, delays := VerifyDomainARecords(expected, retries, answers);
    report := Report(MatchMessage(matched), provider.Name(), None, if matched then 0 else 1);
  }

  /** The exit status is 0 exactly when the domain is proxied by Cloudflare
      or its A records matched; otherwise it is 1. */
  lemma VerdictExitCode(provider: Provider, proxied: bool, matched: bool)
    ensures Verdict(provider, proxied, matched).exitCode in {0, 1}
    ensures Verdict(provider, proxied, matched).exitCode == 0
        <==> (provider == Cloudflare && proxied) || matched
  {
  }

  /** A proxied Cloudflare domain gets the "disable the proxy" message whatever
      the A-record outcome, so even with no expected addresses. */
  lemma ProxiedIgnoresMatch(proxied: bool, m1: bool, m2: bool)
    requires proxied
    ensures Verdict(Cloudflare, proxied, m1) == Verdict(Cloudflare, proxied, m2)
    ensures Verdict(Cloudflare, proxied, m1).message == DisableProxyMessage
  {
  }

  /** Without expected addresses every domain that is not a proxied
      Cloudflare domain is reported "not matched" with exit status 1. */
  lemma NoExpectedNotMatched(provider: Provider, proxied: bool, retries: int, answers: seq<Lookup>)
    requires !(provider == Cloudflare && proxied)
    ensures Verdict(provider, proxied, ARecordsVerified([], retries, answers)).message == "not matched"
    ensures Verdict(provider, proxied, ARecordsVerified([], retries, answers)).exitCode == 1
  {
  }

  /** Only the Cloudflare branch reports the proxy field. */
  lemma ProxyFieldOnlyForCloudflare(provider: Provider, proxied: bool, matched: bool)
    ensures Verdict(provider, proxied, matched).cloudflareProxy.Some? <==> provider == Cloudflare
    ensures Verdict(provider, proxied, matched).dnsProvider == provider.Name()
  {
  }
}
