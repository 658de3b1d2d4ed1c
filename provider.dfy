/** The DNS-provider fingerprint of verify-dns.py: the base domain of a host
    name, and the provider named by the first authoritative nameserver that
    carries one of a fixed, ordered list of substrings. */
module DnsProvider {
  import opened Strings

  /** The providers verify-dns.py can name; `Unknown` when nothing matches. */
  datatype Provider =
    | Route53 | Cloudflare | GoDaddy | GoogleCloudDns | DnsMadeEasy | Namecheap
    | NetworkSolutions | AzureDns | DigitalOcean | Ns1 | UltraDns | YahooSmallBusiness
    | Akamai | Rackspace | OracleCloud | Unknown
  {
    /** The text the script prints for the provider. */
    function Name(): string
    {
      match this
      case Route53 => "Route 53"
      case Cloudflare => "Cloudflare"
      case GoDaddy => "GoDaddy"
      case GoogleCloudDns => "Google Cloud DNS"
      case DnsMadeEasy => "DNS Made Easy"
      case Namecheap => "Namecheap"
      case NetworkSolutions => "Network Solutions"
      case AzureDns => "Microsoft Azure DNS"
      case DigitalOcean => "DigitalOcean"
      case Ns1 => "NS1"
      case UltraDns => "UltraDNS"
      case YahooSmallBusiness => "Yahoo Small Business"
      case Akamai => "Akamai"
      case Rackspace => "Rackspace Cloud DNS"
      case OracleCloud => "Oracle Cloud DNS"
      case Unknown => "Unknown provider"
    }
  }

  /** The signature table, in the order the script tests it. */
  const Signatures: seq<(string, Provider)> := [
    ("awsdns", Route53), ("cloudflare", Cloudflare), ("godaddy", GoDaddy),
    ("dns.google", GoogleCloudDns), ("dnsmadeeasy", DnsMadeEasy),
    ("registrar-servers", Namecheap), ("networksolutions", NetworkSolutions),
    ("azure-dns", AzureDns), ("ns.digitalocean", DigitalOcean), ("ns1", Ns1),
    ("ultradns", UltraDns), ("yahoo", YahooSmallBusiness), ("akamai", Akamai),
    ("rackspace", Rackspace), ("oraclecloud", OracleCloud)
  ]

  /** No table entry names `Unknown`. */
  ghost predicate NamesProviders(table: seq<(string, Provider)>)
  {
    forall k :: 0 <= k < |table| ==> table[k].1 != Unknown
  }

  /** Entry `k` is the first of the table whose substring occurs in `ns`. */
  ghost predicate FirstHit(ns: string, table: seq<(string, Provider)>, k: int)
  {
    && 0 <= k < |table|
    && Contains(ns, table[k].0)
    && forall j :: 0 <= j < k ==> !Contains(ns, table[j].0)
  }

  /** The provider of the first table entry whose substring occurs in `ns`. */
  function FirstSignature(ns: string, table: seq<(string, Provider)>): (r: Provider)
    requires NamesProviders(table)
    ensures r == Unknown <==> forall k :: 0 <= k < |table| ==> !Contains(ns, table[k].0)
    ensures r != Unknown ==> exists k :: FirstHit(ns, table, k) && table[k].1 == r
  {
    if table == [] then Unknown
    else if Contains(ns, table[0].0) then
      assert FirstHit(ns, table, 0);
      table[0].1
    else
      var r := FirstSignature(ns, table[1..]);
      assert forall k :: 1 <= k < |table| ==> table[k] == table[1..][k - 1];
      assert r != Unknown ==> exists k :: FirstHit(ns, table, k) && table[k].1 == r by {
        if r != Unknown {
          var k :| FirstHit(ns, table[1..], k) && table[1..][k].1 == r;
          assert FirstHit(ns, table, k + 1);
        }
      }
      r
  }

  /** The first entry that occurs decides the provider. */
  lemma FirstSignatureAt(ns: string, table: seq<(string, Provider)>, k: int)
    requires NamesProviders(table) && FirstHit(ns, table, k)
    ensures FirstSignature(ns, table) == table[k].1
  {
    var r := FirstSignature(ns, table);
    var k' :| FirstHit(ns, table, k') && table[k'].1 == r;
    if k' < k {
      assert false;
    } else if k < k' {
      assert false;
    }
  }

  /** The provider one nameserver names: its lower-cased text against the table. */
  function NameserverProvider(ns: string, table: seq<(string, Provider)>): Provider
    requires NamesProviders(table)
  {
    FirstSignature(Lower(ns), table)
  }

  /** Record `i` is the first that names a provider. */
  ghost predicate FirstNamed(records: seq<string>, table: seq<(string, Provider)>, i: int)
    requires NamesProviders(table)
  {
    && 0 <= i < |records|
    && NameserverProvider(records[i], table) != Unknown
    && forall j :: 0 <= j < i ==> NameserverProvider(records[j], table) == Unknown
  }

  /** The provider named by the first nameserver, in order, that matches any
      signature of the table; `Unknown` when there are no records or none matches. */
  function ClassifyWith(records: seq<string>, table: seq<(string, Provider)>): (r: Provider)
    requires NamesProviders(table)
    ensures r == Unknown <==> forall i :: 0 <= i < |records| ==> NameserverProvider(records[i], table) == Unknown
    ensures r != Unknown ==> exists i :: FirstNamed(records, table, i) && r == NameserverProvider(records[i], table)
  {
    if records == [] then Unknown
    else if NameserverProvider(records[0], table) != Unknown then
      assert FirstNamed(records, table, 0);
      NameserverProvider(records[0], table)
    else
      var r := ClassifyWith(records[1..], table);
      ClassifyPastFirst(records, table, r);
      r
  }

  /** A first record that names nothing shifts the answer for the rest by one. */
  lemma ClassifyPastFirst(records: seq<string>, table: seq<(string, Provider)>, r: Provider)
    requires NamesProviders(table) && records != []
    requires NameserverProvider(records[0], table) == Unknown
    requires var rest := records[1..];
      && (r == Unknown <==> forall i :: 0 <= i < |rest| ==> NameserverProvider(rest[i], table) == Unknown)
      && (r != Unknown ==> exists i :: FirstNamed(rest, table, i) && r == NameserverProvider(rest[i], table))
    ensures r == Unknown <==> forall i :: 0 <= i < |records| ==> NameserverProvider(records[i], table) == Unknown
    ensures r != Unknown ==> exists i :: FirstNamed(records, table, i) && r == NameserverProvider(records[i], table)
  {
    var rest := records[1..];
    assert forall i :: 1 <= i < |records| ==> records[i] == rest[i - 1];
    if r != Unknown {
      var i :| FirstNamed(rest, table, i) && r == NameserverProvider(rest[i], table);
      assert FirstNamed(records, table, i + 1);
    }
  }

  /** identify_dns_provider's classification of the NS records it obtained. */
  function Classify(records: seq<string>): Provider
  {
    ClassifyWith(records, Signatures)
  }

  /** A nameserver's classification depends only on its lower-cased text. */
  lemma ClassifyIgnoresCase(ns: string, other: string)
    requires Lower(ns) == Lower(other)
    ensures Classify([ns]) == Classify([other])
  {
  }

  lemma SignaturesNameProviders()
    ensures NamesProviders(Signatures)
  {
  }

  /** A nameserver lacking 'w', 'f', 'g', 'e' and 'z' misses the first nine signatures. */
  lemma MissesFirstNine(ns: string)
    requires 'w' !in ns && 'f' !in ns && 'g' !in ns && 'e' !in ns && 'z' !in ns
    ensures forall j :: 0 <= j < 9 ==> !Contains(ns, Signatures[j].0)
  {
    MissingCharNotContained(ns, Signatures[0].0, 'w');
    MissingCharNotContained(ns, Signatures[1].0, 'f');
    MissingCharNotContained(ns, Signatures[2].0, 'g');
    MissingCharNotContained(ns, Signatures[3].0, 'g');
    MissingCharNotContained(ns, Signatures[4].0, 'e');
    MissingCharNotContained(ns, Signatures[5].0, 'e');
    MissingCharNotContained(ns, Signatures[6].0, 'e');
    MissingCharNotContained(ns, Signatures[7].0, 'z');
    MissingCharNotContained(ns, Signatures[8].0, 'g');
  }

  lemma DomainControlText(ns: string)
    requires ns == "ns1.domaincontrol.com"
    ensures Lower(ns) == ns
  {
  }

  lemma DomainControlLetters(ns: string)
    requires ns == "ns1.domaincontrol.com"
    ensures 'w' !in ns && 'f' !in ns && 'g' !in ns && 'e' !in ns && 'z' !in ns
  {
  }

  lemma DomainControlHitsNs1(ns: string)
    requires ns == "ns1.domaincontrol.com"
    ensures Contains(ns, Signatures[9].0) && Signatures[9].1 == Ns1
  {
    assert ns[..3] == "ns1";
  }

  /** The order of the table decides: "ns1.domaincontrol.com" reaches the
      "ns1" entry before any later one and is named NS1. */
  lemma DomainControlIsNs1(ns: string)
    requires ns == "ns1.domaincontrol.com"
    ensures Classify([ns]) == Ns1
  {
    SignaturesNameProviders();
    DomainControlText(ns);
    DomainControlLetters(ns);
    DomainControlHitsNs1(ns);
    MissesFirstNine(ns);
    FirstSignatureAt(ns, Signatures, 9);
  }

  // ---------------------------------------------------------------------
  // Nameserver lookup

  /** `max(1, n)`: the number of NS lookups for `n` configured DNS servers. */
  function Tries(serverCount: nat): nat
  {
    if serverCount < 1 then 1 else serverCount
  }

  /** The resolver's answer to lookup `k`; no answer (timeout, NXDOMAIN)
      is the empty list. */
  function AnswerAt<T>(answers: seq<seq<T>>, k: nat): seq<T>
  {
    if k < |answers| then answers[k] else []
  }

  /** The NS records of the first non-empty answer among lookups
      `k` .. `tries - 1`, or none. */
  function NsRecordsFrom(answers: seq<seq<string>>, k: nat, tries: nat): seq<string>
    decreases tries - k
  {
    if k >= tries then []
    else if AnswerAt(answers, k) != [] then AnswerAt(answers, k)
    else NsRecordsFrom(answers, k + 1, tries)
  }

  /** The records come from the first lookup in range that answered, and are
      empty only when every lookup in range came back empty. */
  lemma {:induction false} NsRecordsFromFirst(answers: seq<seq<string>>, k: nat, tries: nat)
    ensures NsRecordsFrom(answers, k, tries) == [] <==> forall j :: k <= j < tries ==> AnswerAt(answers, j) == []
    ensures NsRecordsFrom(answers, k, tries) != [] ==>
      exists j :: k <= j < tries && NsRecordsFrom(answers, k, tries) == AnswerAt(answers, j)
        && forall i :: k <= i < j ==> AnswerAt(answers, i) == []
    decreases tries - k
  {
    if k < tries && AnswerAt(answers, k) == [] {
      NsRecordsFromFirst(answers, k + 1, tries);
      var r := NsRecordsFrom(answers, k, tries);
      if r != [] {
        var j :| k + 1 <= j < tries && r == AnswerAt(answers, j) && forall i :: k + 1 <= i < j ==> AnswerAt(answers, i) == [];
        assert forall i :: k <= i < j ==> AnswerAt(answers, i) == [];
      }
    }
  }

  /** verify-dns.py `identify_dns_provider`: repeats the NS lookup of the base
      domain up to max(1, serverCount) times, stops at the first non-empty
      answer and classifies it. `nsAnswersFor(name)[k]` is the resolver's
      answer to lookup `k` of the NS records of `name`. */
  method IdentifyDnsProvider(domain: string, serverCount: nat, nsAnswersFor: string -> seq<seq<string>>)
    returns (provider: Provider, lookups: nat)
    ensures 1 <= lookups <= Tries(serverCount)
    ensures forall k :: 0 <= k < lookups - 1 ==> AnswerAt(nsAnswersFor(ExtractBaseDomain(domain)), k) == []
    ensures lookups < Tries(serverCount) ==> AnswerAt(nsAnswersFor(ExtractBaseDomain(domain)), lookups - 1) != []
    ensures provider == Classify(AnswerAt(nsAnswersFor(ExtractBaseDomain(domain)), lookups - 1))
    ensures provider == Classify(NsRecordsFrom(nsAnswersFor(ExtractBaseDomain(domain)), 0, Tries(serverCount)))
  {
    var base := ExtractBaseDomain(domain);
    var nsRecords;
    nsRecords, lookups := LookUpNameservers(Tries(serverCount), nsAnswersFor(base));
    provider := Classify(nsRecords);
  }

  /** The lookup loop of `identify_dns_provider`. */
  method LookUpNameservers(tries: nat, nsAnswers: seq<seq<string>>)
    returns (nsRecords: seq<string>, lookups: nat)
    requires tries >= 1
    ensures 1 <= lookups <= tries
    ensures forall k :: 0 <= k < lookups - 1 ==> AnswerAt(nsAnswers, k) == []
    ensures lookups < tries ==> nsRecords != []
    ensures nsRecords == AnswerAt(nsAnswers, lookups - 1)
    ensures nsRecords == NsRecordsFrom(nsAnswers, 0, tries)
  {
    nsRecords := [];
    lookups := 0;
    while lookups < tries
      invariant 0 <= lookups <= tries
      invariant forall k :: 0 <= k < lookups ==> AnswerAt(nsAnswers, k) == []
      invariant NsRecordsFrom(nsAnswers, 0, tries) == NsRecordsFrom(nsAnswers, lookups, tries)
      invariant nsRecords == [] && (lookups > 0 ==> nsRecords == AnswerAt(nsAnswers, lookups - 1))
    {
      nsRecords := AnswerAt(nsAnswers, lookups);
      lookups := lookups + 1;
      if nsRecords != [] {
        break;
      }
    }
  }

  // ---------------------------------------------------------------------
  // Base domain

  /** verify-dns.py `extract_base_domain`: after stripping leading and
      trailing dots, a name with more than two labels yields its last two
      labels joined by "."; otherwise the original, unstripped text. */
  function ExtractBaseDomain(domain: string): (r: string)
    ensures var t := Strip(domain, {'.'});
      if Count(t, '.') >= 2 then
        && Count(r, '.') == 1
        && |r| < |t|
        && r == t[|t| - |r|..]
        && t[|t| - |r| - 1] == '.'
      else r == domain
  {
    var t := Strip(domain, {'.'});
    var parts := Split(t, '.');
    SplitLength(t, '.');
    if |parts| > 2 then
      LastTwoLabels(t);
      parts[|parts| - 2] + "." + parts[|parts| - 1]
    else domain
  }

  /** The last two parts of a split, rejoined, are the suffix of the text
      that follows its second-to-last dot. */
  lemma LastTwoLabels(t: string)
    requires |Split(t, '.')| > 2
    ensures var parts := Split(t, '.');
      var r := parts[|parts| - 2] + "." + parts[|parts| - 1];
      && Count(r, '.') == 1
      && |r| < |t|
      && r == t[|t| - |r|..]
      && t[|t| - |r| - 1] == '.'
  {
    var parts := Split(t, '.');
    var n := |parts|;
    var a, b := parts[n - 2], parts[n - 1];
    var r := a + "." + b;
    JoinSplit(t, '.');
    assert parts == parts[..n - 2] + [a, b];
    JoinAppend(parts[..n - 2], [a, b], '.');
    var head := Join(parts[..n - 2], '.');
    assert Join([a, b], '.') == r;
    assert t == head + "." + r;
    assert t[|t| - |r|..] == r;
    assert t[|t| - |r| - 1] == '.';
    OneDot(a, b);
  }

  /** Two dot-free labels joined by a dot hold exactly one dot. */
  lemma OneDot(a: string, b: string)
    requires '.' !in a && '.' !in b
    ensures Count(a + "." + b, '.') == 1
  {
    CountAppend(a, "." + b, '.');
    CountAppend(".", b, '.');
    CountZero(a, '.');
    CountZero(b, '.');
    assert a + "." + b == a + ("." + b);
  }
}
