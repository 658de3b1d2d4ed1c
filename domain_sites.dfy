/** The domain registry manage-domain.py keeps on disk: nginx configs in
    sites-available, entries in sites-enabled, and live certificate
    directories under /etc/letsencrypt/live. The `request`, `check` and
    `delete` actions change or read it; certbot, `nginx -t` and the reload
    are outside the model and their outcomes are inputs. */
module DomainSites {
  import opened Wrappers
  import opened Hostname
  import opened NginxConfig
  import opened DnsCheck

  /** An entry of sites-enabled: a symbolic link to the sites-available
      entry `to`, or a regular file. */
  datatype Entry = Link(to: string) | File

  /** The registry as a value: config text by name, sites-enabled entries by
      name, and the names with a live certificate directory. */
  datatype Sites = Sites(available: map<string, string>, enabled: map<string, Entry>, live: set<string>)

  /** `Path.exists()` on sites-enabled/{d}, which follows a link. */
  predicate EnabledExists(s: Sites, d: string)
  {
    d in s.enabled && (s.enabled[d].File? || s.enabled[d].to in s.available)
  }

  /** manage-domain.py `check_domain_exists`. */
  predicate DomainExists(s: Sites, d: string)
  {
    d in s.available || EnabledExists(s, d)
  }

  /** A link whose target is gone does not make its domain configured. */
  lemma DanglingLinkNotConfigured(s: Sites, d: string, target: string)
    requires d !in s.available && d in s.enabled && s.enabled[d] == Link(target)
    requires target !in s.available
    ensures !DomainExists(s, d)
  {
  }

  // ---------------------------------------------------------------------
  // enable_nginx_site

  /** The registry after `enable_nginx_site(d)`: a link to the config is
      added only when the config exists and nothing is in the way. */
  function Enabled(s: Sites, d: string): Sites
  {
    if d !in s.available || d in s.enabled then s
    else s.(enabled := s.enabled[d := Link(d)])
  }

  /** Enabling twice is enabling once. */
  lemma EnableIdempotent(s: Sites, d: string)
    ensures Enabled(Enabled(s, d), d) == Enabled(s, d)
  {
  }

  /** Without a config nothing changes. */
  lemma EnableWithoutConfig(s: Sites, d: string)
    requires d !in s.available
    ensures Enabled(s, d) == s
  {
  }

  /** An existing entry, even a dangling link or a regular file, is kept. */
  lemma EnableKeepsEntry(s: Sites, d: string)
    requires d in s.enabled
    ensures Enabled(s, d) == s
  {
  }

  /** With a config and no entry, the new link makes the domain configured. */
  lemma EnableLinksConfig(s: Sites, d: string)
    requires d in s.available && d !in s.enabled
    ensures Enabled(s, d).enabled == s.enabled[d := Link(d)]
    ensures EnabledExists(Enabled(s, d), d)
  {
  }

  /** Enabling `d` touches no other name. */
  lemma EnableOthersUntouched(s: Sites, d: string, e: string)
    requires e != d
    ensures Enabled(s, d).available == s.available && Enabled(s, d).live == s.live
    ensures e in Enabled(s, d).enabled <==> e in s.enabled
    ensures e in s.enabled ==> Enabled(s, d).enabled[e] == s.enabled[e]
  {
  }

  // ---------------------------------------------------------------------
  // delete_domain

  /** The outcomes of the operations `delete_domain` cannot decide itself. */
  datatype DeleteOracle = DeleteOracle(
    unlinkEnabledFails: bool, unlinkAvailableFails: bool, certbotRemoves: bool,
    nginxTestOk: bool, reloadOk: bool)

  /** The registry after `delete_domain(d)`. */
  function AfterDelete(s: Sites, d: string, o: DeleteOracle): Sites
  {
    Sites(
      if d in s.available && !o.unlinkAvailableFails then s.available - {d} else s.available,
      if d in s.enabled && !o.unlinkEnabledFails then s.enabled - {d} else s.enabled,
      if d in s.live && o.certbotRemoves then s.live - {d} else s.live)
  }

  /** The `ok` flag: false exactly when an existing entry could not be removed. */
  function DeleteOk(s: Sites, d: string, o: DeleteOracle): bool
  {
    !(d in s.enabled && o.unlinkEnabledFails) && !(d in s.available && o.unlinkAvailableFails)
  }

  /** What the script reports and how it exits. */
  datatype Outcome = Outcome(message: string, exitCode: int)

  /** The error logged when `nginx -t` fails after a deletion, as written:
      the string lacks its `f` prefix, so the braces are printed literally. */
  function InvalidAfterDeleteAsWritten(d: string): string
  {
    "Nginx configuration is invalid after deleting {domain}"
  }

  /** The same message with the domain filled in. */
  function InvalidAfterDelete(d: string): string
  {
    "Nginx configuration is invalid after deleting " + d
  }

  /** As written, the message is the same whatever domain was deleted. */
  lemma InvalidAfterDeleteOmitsDomain(d1: string, d2: string)
    ensures InvalidAfterDeleteAsWritten(d1) == InvalidAfterDeleteAsWritten(d2)
  {
  }

  /** With the domain filled in, the message tells the domains apart. */
  lemma InvalidAfterDeleteNamesDomain(d1: string, d2: string)
    requires InvalidAfterDelete(d1) == InvalidAfterDelete(d2)
    ensures d1 == d2
  {
    var prefix := "Nginx configuration is invalid after deleting ";
    assert d1 == InvalidAfterDelete(d1)[|prefix|..];
    assert d2 == InvalidAfterDelete(d2)[|prefix|..];
  }

  function DeleteOutcome(d: string, ok: bool, o: DeleteOracle): Outcome
  {
    if !o.nginxTestOk then Outcome(InvalidAfterDelete(d), 1)
    else if !o.reloadOk then Outcome("Failed to reload Nginx after deleting " + d, 1)
    else if ok then Outcome("Domain " + d + " deleted successfully", 0)
    else Outcome("Domain " + d + " partially deleted (some operations failed)", 0)
  }

  /** The exit code is 0 exactly when nginx accepts the configuration and
      reloads; a failed removal only turns success into partial success. */
  lemma DeleteExitCode(s: Sites, d: string, o: DeleteOracle)
    ensures DeleteOutcome(d, DeleteOk(s, d, o), o).exitCode == 0 <==> o.nginxTestOk && o.reloadOk
    ensures o.nginxTestOk && o.reloadOk && !DeleteOk(s, d, o) ==>
      DeleteOutcome(d, DeleteOk(s, d, o), o).message == "Domain " + d + " partially deleted (some operations failed)"
  {
  }

  /** Deleting `d` leaves every other name as it was. */
  lemma DeleteOthersUntouched(s: Sites, d: string, o: DeleteOracle, e: string)
    requires e != d
    ensures var t := AfterDelete(s, d, o);
      && (e in t.available <==> e in s.available) && (e in s.available ==> t.available[e] == s.available[e])
      && (e in t.enabled <==> e in s.enabled) && (e in s.enabled ==> t.enabled[e] == s.enabled[e])
      && (e in t.live <==> e in s.live)
  {
  }

  /** When every removal succeeds, no trace of `d` is left. */
  lemma DeleteRemovesDomain(s: Sites, d: string, o: DeleteOracle)
    requires !o.unlinkEnabledFails && !o.unlinkAvailableFails && o.certbotRemoves
    ensures var t := AfterDelete(s, d, o);
      d !in t.available && d !in t.enabled && d !in t.live && !DomainExists(t, d)
    ensures DeleteOk(s, d, o)
  {
  }

  /** Entries that are already absent are not failures. */
  lemma DeleteAbsentIsOk(s: Sites, d: string, o: DeleteOracle)
    requires d !in s.available && d !in s.enabled
    ensures DeleteOk(s, d, o)
    ensures AfterDelete(s, d, o).available == s.available && AfterDelete(s, d, o).enabled == s.enabled
  {
  }

  // ---------------------------------------------------------------------
  // The request and check actions of main

  /** The registry after `request d`, given certbot's outcome. */
  function AfterRequest(s: Sites, d: string, cfg: BlockSettings, certbotOk: bool): Sites
  {
    if !ValidateDomain(d) || DomainExists(s, d) || !certbotOk then s
    else Enabled(Sites(s.available[d := ServerBlockText(d, cfg)], s.enabled, s.live + {d}), d)
  }

  /** The exit code of `request d`; the reload's result is not looked at. */
  function RequestExit(s: Sites, d: string, certbotOk: bool, nginxTestOk: bool): int
  {
    if !ValidateDomain(d) then 1
    else if DomainExists(s, d) then 0
    else if !certbotOk then 1
    else if nginxTestOk then 0
    else 1
  }

  /** A domain that is already configured is left alone, and the run succeeds. */
  lemma RequestExistingNoChange(s: Sites, d: string, cfg: BlockSettings, certbotOk: bool, nginxTestOk: bool)
    requires ValidateDomain(d) && DomainExists(s, d)
    ensures AfterRequest(s, d, cfg, certbotOk) == s
    ensures RequestExit(s, d, certbotOk, nginxTestOk) == 0
  {
  }

  /** Nothing is written unless a certificate was issued. */
  lemma RequestNeedsCertificate(s: Sites, d: string, cfg: BlockSettings, nginxTestOk: bool)
    ensures AfterRequest(s, d, cfg, false) == s
    ensures RequestExit(s, d, false, nginxTestOk) == 0 <==> ValidateDomain(d) && DomainExists(s, d)
  {
  }

  /** After issuance the config holds the generated block, the certificate is
      live and the domain counts as configured, whatever `nginx -t` says. */
  lemma RequestConfigures(s: Sites, d: string, cfg: BlockSettings)
    requires ValidateDomain(d) && !DomainExists(s, d)
    ensures var t := AfterRequest(s, d, cfg, true);
      && d in t.available && t.available[d] == ServerBlockText(d, cfg)
      && d in t.live && DomainExists(t, d)
      && (d !in s.enabled ==> d in t.enabled && t.enabled[d] == Link(d))
  {
  }

  /** A request for `d` touches no other name's config, entry or certificate. */
  lemma RequestOthersUntouched(s: Sites, d: string, cfg: BlockSettings, certbotOk: bool, e: string)
    requires e != d
    ensures var t := AfterRequest(s, d, cfg, certbotOk);
      && (e in t.available <==> e in s.available) && (e in s.available ==> t.available[e] == s.available[e])
      && (e in t.enabled <==> e in s.enabled) && (e in s.enabled ==> t.enabled[e] == s.enabled[e])
      && (e in t.live <==> e in s.live)
  {
  }

  /** The exit code of `check d expected...`. */
  function CheckExit(s: Sites, d: string, expected: set<string>, nginxTestOk: bool,
                     answers: seq<string>, digOutput: Option<string>): int
  {
    if !ValidateDomain(d) || !DomainExists(s, d) || d !in s.live || !nginxTestOk then 1
    else if expected != {} && !DnsDecision(Resolved(answers, digOutput), expected) then 1
    else 0
  }

  /** `check` passes exactly when the domain is configured, has a live
      certificate, nginx accepts the configuration, and, when addresses are
      given, one of them resolves. */
  lemma CheckPassesIff(s: Sites, d: string, expected: set<string>, nginxTestOk: bool,
                       answers: seq<string>, digOutput: Option<string>)
    ensures CheckExit(s, d, expected, nginxTestOk, answers, digOutput) == 0 <==>
      && ValidateDomain(d) && DomainExists(s, d) && d in s.live && nginxTestOk
      && (expected != {} ==> expected * Resolved(answers, digOutput) != {})
  {
  }

  // ---------------------------------------------------------------------
  // The host's file system

  class Host {
    var available: map<string, string>
    var enabled: map<string, Entry>
    var live: set<string>

    function State(): Sites
      reads this
    {
      Sites(available, enabled, live)
    }

    constructor(s: Sites)
      ensures State() == s
    {
      available, enabled, live := s.available, s.enabled, s.live;
    }

    /** manage-domain.py `create_nginx_config`. */
    method CreateNginxConfig(d: string, cfg: BlockSettings)
      modifies this
      ensures State() == old(State()).(available := old(available)[d := ServerBlockText(d, cfg)])
    {
      available := available[d := ServerBlockText(d, cfg)];
    }

    /** manage-domain.py `enable_nginx_site`. */
    method EnableNginxSite(d: string) returns (r: bool)
      modifies this
      ensures r <==> d in old(available)
      ensures State() == Enabled(old(State()), d)
    {
      if d !in available {
        return false;
      }
      if d in enabled {
        return true;
      }
      enabled := enabled[d := Link(d)];
      return true;
    }

    /** manage-domain.py `delete_domain`. */
    method DeleteDomain(d: string, o: DeleteOracle) returns (outcome: Outcome)
      modifies this
      ensures State() == AfterDelete(old(State()), d, o)
      ensures outcome == DeleteOutcome(d, DeleteOk(old(State()), d, o), o)
    {
      ghost var before := State();
      var ok := true;
      if d in enabled {
        if o.unlinkEnabledFails {
          ok := false;
        } else {
          enabled := enabled - {d};
        }
      }
      if d in available {
        if o.unlinkAvailableFails {
          ok := false;
        } else {
          available := available - {d};
        }
      }
      if d in live && o.certbotRemoves {
        live := live - {d};
      }
      assert ok == DeleteOk(before, d, o);
      assert State() == AfterDelete(before, d, o);
      outcome := DeleteOutcome(d, ok, o);
    }

    /** `delete d`: validate, then `delete_domain`. */
    method Delete(d: string, o: DeleteOracle) returns (exitCode: int)
      modifies this
      ensures State() == if ValidateDomain(d) then AfterDelete(old(State()), d, o) else old(State())
      ensures exitCode == if ValidateDomain(d) then DeleteOutcome(d, DeleteOk(old(State()), d, o), o).exitCode else 1
    {
      if !ValidateDomain(d) {
        return 1;
      }
      var outcome := DeleteDomain(d, o);
      exitCode := outcome.exitCode;
    }

    /** `request d`: validate, stop if configured, obtain a certificate,
        write and enable the config, then test nginx. */
    method Request(d: string, cfg: BlockSettings, certbotOk: bool, nginxTestOk: bool) returns (exitCode: int)
      modifies this
      ensures State() == AfterRequest(old(State()), d, cfg, certbotOk)
      ensures exitCode == RequestExit(old(State()), d, certbotOk, nginxTestOk)
    {
      if !ValidateDomain(d) {
        return 1;
      }
      if DomainExists(State(), d) {
        return 0;
      }
      if !certbotOk {
        return 1;
      }
      live := live + {d};
      CreateNginxConfig(d, cfg);
      var _ := EnableNginxSite(d);
      exitCode := if nginxTestOk then 0 else 1;
    }

    /** `check d expected...`: the resolver's answers and the `dig` output
        are inputs, and are only consulted when addresses are given. */
    method Check(d: string, expected: set<string>, nginxTestOk: bool,
                 answers: seq<string>, digOutput: Option<string>) returns (exitCode: int)
      ensures exitCode == CheckExit(State(), d, expected, nginxTestOk, answers, digOutput)
    {
      if !ValidateDomain(d) || !DomainExists(State(), d) || d !in live || !nginxTestOk {
        return 1;
      }
      if expected != {} {
        var ok, _ := VerifyDns(answers, digOutput, expected);
        if !ok {
          return 1;
        }
      }
      return 0;
    }
  }
}
