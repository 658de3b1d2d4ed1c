/** Host-name validation of manage-domain.py (`DOMAIN_RE` and
    `validate_domain`): one or more dot-separated labels, each 1 to 63
    letters, digits or hyphens that starts and ends with a letter or digit. */
module Hostname {
  import opened Strings

  predicate IsAlnum(c: char)
  {
    'A' <= c <= 'Z' || 'a' <= c <= 'z' || '0' <= c <= '9'
  }

  /** Letter, digit or hyphen. */
  predicate IsLdh(c: char)
  {
    IsAlnum(c) || c == '-'
  }

  /** One label: `[A-Za-z0-9]([A-Za-z0-9\-]{0,61}[A-Za-z0-9])?`. */
  predicate ValidLabel(l: string)
  {
    && 1 <= |l| <= 63
    && IsAlnum(l[0])
    && IsAlnum(l[|l| - 1])
    && forall i :: 0 <= i < |l| ==> IsLdh(l[i])
  }

  /** Every dot-separated label of `s` is valid. */
  predicate ValidHostname(s: string)
  {
    forall p :: p in Split(s, '.') ==> ValidLabel(p)
  }

  /** The pattern `label(\.label)*` read as a grammar: a label, or a label, a
      dot and again a host name. */
  ghost predicate HostPattern(s: string)
    decreases |s|
  {
    || ValidLabel(s)
    || exists k :: 0 <= k < |s| && s[k] == '.' && ValidLabel(s[..k]) && HostPattern(s[k + 1..])
  }

  /** What `DOMAIN_RE.match` accepts: the anchor `$` also matches just before
      a final line feed, so the pattern may be followed by one "\n". */
  ghost predicate DomainReMatches(s: string)
  {
    || HostPattern(s)
    || (|s| >= 1 && s[|s| - 1] == '\n' && HostPattern(s[..|s| - 1]))
  }

  /** manage-domain.py `validate_domain`, with the whole input required to be
      a host name. */
  function ValidateDomain(domain: string): (r: bool)
    ensures r ==> forall i :: 0 <= i < |domain| ==> IsLdh(domain[i]) || domain[i] == '.'
    ensures r ==> 1 <= |domain| && IsAlnum(domain[0]) && IsAlnum(domain[|domain| - 1])
  {
    var r := ValidHostname(domain);
    assert r ==> forall i :: 0 <= i < |domain| ==> IsLdh(domain[i]) || domain[i] == '.' by {
      if r {
        HostnameChars(domain);
      }
    }
    assert r ==> 1 <= |domain| && IsAlnum(domain[0]) && IsAlnum(domain[|domain| - 1]) by {
      if r {
        HostnameEnds(domain);
      }
    }
    r
  }

  lemma HostnameChars(s: string)
    requires ValidHostname(s)
    ensures forall i :: 0 <= i < |s| ==> IsLdh(s[i]) || s[i] == '.'
  {
    var parts := Split(s, '.');
    JoinSplit(s, '.');
    forall c | c != '.' && !IsLdh(c)
      ensures c !in s
    {
      forall i | 0 <= i < |parts|
        ensures c !in parts[i]
      {
        assert parts[i] in parts;
      }
      JoinExcludes(parts, '.', c);
    }
  }

  /** A valid host name is not empty and begins and ends with a letter or digit. */
  lemma HostnameEnds(s: string)
    requires ValidHostname(s)
    ensures 1 <= |s| && IsAlnum(s[0]) && IsAlnum(s[|s| - 1])
  {
    var parts := Split(s, '.');
    JoinSplit(s, '.');
    forall i | 0 <= i < |parts|
      ensures |parts[i]| >= 1
    {
      assert parts[i] in parts;
    }
    JoinEnds(parts, '.');
    assert parts[0] in parts;
    assert parts[|parts| - 1] in parts;
  }

  /** The host-name grammar and the label-wise reading agree. */
  lemma HostPatternIff(s: string)
    ensures HostPattern(s) <==> ValidHostname(s)
  {
    if HostPattern(s) {
      PatternIsHostname(s);
    }
    if ValidHostname(s) {
      HostnameIsPattern(s);
    }
  }

  lemma {:induction false} PatternIsHostname(s: string)
    requires HostPattern(s)
    ensures ValidHostname(s)
    decreases |s|
  {
    if ValidLabel(s) {
      LabelHasNoDot(s);
      SplitNoSep(s, '.');
    } else {
      var k :| 0 <= k < |s| && s[k] == '.' && ValidLabel(s[..k]) && HostPattern(s[k + 1..]);
      PatternIsHostname(s[k + 1..]);
      LabelThenHostname(s, k);
    }
  }

  /** A label, a dot and a host name form a host name. */
  lemma LabelThenHostname(s: string, k: nat)
    requires k < |s| && s[k] == '.'
    requires ValidLabel(s[..k]) && ValidHostname(s[k + 1..])
    ensures ValidHostname(s)
  {
    LabelHasNoDot(s[..k]);
    SplitPrefix(s[..k], s[k + 1..], '.');
    assert s == s[..k] + ['.'] + s[k + 1..];
  }

  lemma LabelHasNoDot(l: string)
    requires ValidLabel(l)
    ensures '.' !in l
  {
    forall i | 0 <= i < |l|
      ensures l[i] != '.'
    {
      assert IsLdh(l[i]);
    }
  }

  lemma {:induction false} HostnameIsPattern(s: string)
    requires ValidHostname(s)
    ensures HostPattern(s)
    decreases |s|
  {
    var parts := Split(s, '.');
    JoinSplit(s, '.');
    SplitLength(s, '.');
    assert parts[0] in parts;
    if |parts| == 1 {
      assert ValidLabel(s);
    } else {
      var p, rest := parts[0], Join(parts[1..], '.');
      assert s == p + ['.'] + rest;
      SplitJoin(parts[1..], '.');
      assert forall q :: q in Split(rest, '.') ==> q in parts;
      HostnameIsPattern(rest);
      var k := |p|;
      assert s[k] == '.' && s[..k] == p && s[k + 1..] == rest;
    }
  }

  /** Labels joined by dots form a valid host name: single-label names are
      accepted and nothing caps the total length. */
  lemma JoinedLabels(labels: seq<string>)
    requires |labels| >= 1
    requires forall i :: 0 <= i < |labels| ==> ValidLabel(labels[i])
    ensures ValidHostname(Join(labels, '.'))
  {
    SplitJoin(labels, '.');
  }

  function Repeat(l: string, n: nat): seq<string>
    ensures |Repeat(l, n)| == n
    ensures forall i :: 0 <= i < n ==> Repeat(l, n)[i] == l
  {
    if n == 0 then [] else Repeat(l, n - 1) + [l]
  }

  lemma {:induction false} JoinRepeatLength(l: string, n: nat)
    requires n >= 1
    ensures |Join(Repeat(l, n), '.')| == n * |l| + n - 1
  {
    if n > 1 {
      JoinRepeatLength(l, n - 1);
      JoinAppend(Repeat(l, n - 1), [l], '.');
    }
  }

  /** No total-length cap: for every bound there is a longer accepted name. */
  lemma NoLengthCap(bound: nat)
    ensures exists s :: |s| > bound && ValidateDomain(s)
  {
    var labels := Repeat("a", bound + 1);
    assert ValidLabel("a");
    JoinedLabels(labels);
    JoinRepeatLength("a", bound + 1);
    assert |Join(labels, '.')| > bound;
  }

  /** An empty label (a leading, trailing or doubled dot) is rejected. */
  lemma EmptyLabelRejected(s: string)
    requires "" in Split(s, '.')
    ensures !ValidateDomain(s)
  {
  }

  // ---------------------------------------------------------------------
  // The trailing line feed `$` lets through

  /** As written, `DOMAIN_RE.match` accepts a name followed by a line feed,
      which no valid host name contains. */
  lemma TrailingNewlineAccepted(s: string)
    requires s == "a\n"
    ensures DomainReMatches(s)
    ensures !ValidateDomain(s)
  {
    assert s[..1] == "a";
    assert ValidLabel(s[..1]);
    assert s[1] == '\n';
  }

  /** Without the trailing line feed, the pattern and `ValidateDomain` accept
      exactly the same names. */
  lemma ValidateDomainIsPattern(s: string)
    requires |s| == 0 || s[|s| - 1] != '\n'
    ensures ValidateDomain(s) <==> DomainReMatches(s)
  {
    HostPatternIff(s);
  }

  /** Every name `ValidateDomain` accepts also matches the pattern as written. */
  lemma ValidateDomainAcceptedByPattern(s: string)
    requires ValidateDomain(s)
    ensures DomainReMatches(s)
  {
    HostPatternIff(s);
  }
}
