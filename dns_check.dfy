/** manage-domain.py `verify_dns`: collect the domain's A records from the
    resolver, fall back to the lines `dig +short` prints when the resolver
    gave nothing, and compare them with the expected addresses. */
module DnsCheck {
  import opened Wrappers
  import opened Strings

  /** The characters at which Python's `str.splitlines` breaks a line. */
  const LineBreaks: set<char> :=
    {'\n', '\r', '\U{B}', '\U{C}', '\U{1C}', '\U{1D}', '\U{1E}', '\U{85}', '\U{2028}', '\U{2029}'}

  /** The pieces between line breaks. A "\r\n" pair and a final line break
      give an extra empty piece that `str.splitlines` does not; empty pieces
      never pass the filter below, so the kept addresses are the same. */
  function SplitLines(s: string): (lines: seq<string>)
    ensures |lines| >= 1
    ensures forall i :: 0 <= i < |lines| ==> forall c :: c in lines[i] ==> c !in LineBreaks
  {
    if s == [] then [""]
    else
      var rest := SplitLines(s[1..]);
      if s[0] in LineBreaks then [""] + rest
      else [[s[0]] + rest[0]] + rest[1..]
  }

  /** The pattern `^\d+\.\d+\.\d+\.\d+$`: four non-empty runs of digits
      separated by dots. The octets' values are not checked. */
  predicate IsDottedQuad(line: string)
  {
    var parts := Split(line, '.');
    |parts| == 4 && forall i :: 0 <= i < 4 ==> |parts[i]| >= 1 && AllDigits(parts[i])
  }

  /** A dotted quad holds digits and dots only, and starts and ends with a digit. */
  lemma DottedQuadChars(line: string)
    requires IsDottedQuad(line)
    ensures forall i :: 0 <= i < |line| ==> IsDigit(line[i]) || line[i] == '.'
    ensures |line| >= 1 && IsDigit(line[0]) && IsDigit(line[|line| - 1])
  {
    var parts := Split(line, '.');
    JoinSplit(line, '.');
    forall c | c != '.' && !IsDigit(c)
      ensures c !in line
    {
      assert forall i :: 0 <= i < |parts| ==> c !in parts[i];
      JoinExcludes(parts, '.', c);
    }
    JoinEnds(parts, '.');
  }

  /** What one line of `dig` output contributes: its stripped text when that
      is a dotted quad. */
  function Kept(line: string): set<string>
  {
    var t := Strip(line, Whitespace);
    if IsDottedQuad(t) then {t} else {}
  }

  /** The addresses kept from `lines`. */
  function DigKept(lines: seq<string>): set<string>
  {
    if lines == [] then {} else DigKept(lines[..|lines| - 1]) + Kept(lines[|lines| - 1])
  }

  /** Every kept address is a dotted quad. */
  lemma {:induction false} DigKeptQuads(lines: seq<string>, a: string)
    requires a in DigKept(lines)
    ensures IsDottedQuad(a)
  {
    var init := lines[..|lines| - 1];
    if a in DigKept(init) {
      DigKeptQuads(init, a);
    }
  }

  /** One more line adds what it contributes. */
  lemma DigKeptSnoc(lines: seq<string>, k: nat)
    requires k < |lines|
    ensures DigKept(lines[..k + 1]) == DigKept(lines[..k]) + Kept(lines[k])
  {
    assert lines[..k + 1][..k] == lines[..k];
  }

  /** The addresses the `dig` fallback yields; `None` when `dig` is missing or fails. */
  function DigAddresses(output: Option<string>): set<string>
  {
    if output.None? then {} else DigKept(SplitLines(output.value))
  }

  function AnswerSet(answers: seq<string>): (r: set<string>)
    ensures r == {} <==> answers == []
  {
    var r := set a | a in answers;
    assert answers != [] ==> answers[0] in r;
    r
  }

  /** The `resolved` set: the resolver's answers, or the `dig` addresses when
      it gave none. */
  function Resolved(answers: seq<string>, digOutput: Option<string>): set<string>
  {
    if answers != [] then AnswerSet(answers) else DigAddresses(digOutput)
  }

  /** The final decision of `verify_dns`. */
  function DnsDecision(resolved: set<string>, expected: set<string>): (ok: bool)
    ensures ok <==> resolved != {} && (expected == {} || expected * resolved != {})
  {
    if resolved == {} then false
    else if expected == {} then true
    else
      var ok := exists ip :: ip in expected && ip in resolved;
      assert ok <==> expected * resolved != {} by {
        if ok {
          var ip :| ip in expected && ip in resolved;
          assert ip in expected * resolved;
        }
      }
      ok
  }

  /** `verify_dns(domain, expected)`, with the resolver's answer texts (empty
      when dnspython is missing or the query fails) and the output of
      `dig +short` (`None` when it cannot be run) as inputs. */
  method VerifyDns(answers: seq<string>, digOutput: Option<string>, expected: set<string>)
    returns (ok: bool, resolved: set<string>)
    ensures resolved == Resolved(answers, digOutput)
    ensures ok == DnsDecision(resolved, expected)
  {
    resolved := {};
    for i := 0 to |answers|
      invariant resolved == AnswerSet(answers[..i])
    {
      assert answers[..i + 1] == answers[..i] + [answers[i]];
      resolved := resolved + {answers[i]};
    }
    assert answers[..|answers|] == answers;
    if answers == [] && digOutput.Some? {
      resolved := DigFallback(digOutput.value);
    }
    if resolved == {} {
      return false, resolved;
    }
    if expected == {} {
      return true, resolved;
    }
    ok := AnyResolved(expected, resolved);
  }

  /** The loop over the lines of `dig +short` output. */
  method DigFallback(output: string) returns (resolved: set<string>)
    ensures resolved == DigAddresses(Some(output))
  {
    resolved := {};
    var lines := SplitLines(output);
    for k := 0 to |lines|
      invariant resolved == DigKept(lines[..k])
    {
      DigKeptSnoc(lines, k);
      var line := Strip(lines[k], Whitespace);
      if IsDottedQuad(line) {
        resolved := resolved + {line};
      }
    }
    assert lines[..|lines|] == lines;
  }

  /** `any(ip in resolved for ip in expected_ips)`, visiting the expected
      addresses in any order. */
  method AnyResolved(expected: set<string>, resolved: set<string>) returns (found: bool)
    ensures found <==> expected * resolved != {}
  {
    var rest := expected;
    found := false;
    while rest != {} && !found
      invariant rest <= expected
      invariant found <==> exists ip :: ip in expected - rest && ip in resolved
      decreases |rest|
    {
      var ip :| ip in rest;
      found := ip in resolved;
      rest := rest - {ip};
    }
    if found {
      var ip :| ip in expected - rest && ip in resolved;
      assert ip in expected * resolved;
    }
  }

  /** The fallback is consulted only when the resolver gave nothing. */
  lemma DigOnlyWithoutAnswers(answers: seq<string>, digOutput: Option<string>)
    requires answers != []
    ensures Resolved(answers, digOutput) == AnswerSet(answers)
    ensures forall a :: a in Resolved(answers, digOutput) <==> a in answers
  {
  }

  /** Every address the fallback keeps is a dotted quad of ASCII digits,
      without surrounding whitespace. */
  lemma DigKeepsDottedQuads(output: Option<string>, a: string)
    requires a in DigAddresses(output)
    ensures IsDottedQuad(a)
    ensures forall i :: 0 <= i < |a| ==> IsDigit(a[i]) || a[i] == '.'
  {
    DigKeptQuads(SplitLines(output.value), a);
    DottedQuadChars(a);
  }

  lemma {:induction false} SplitLinesNoBreak(s: string)
    requires forall c :: c in s ==> c !in LineBreaks
    ensures SplitLines(s) == [s]
  {
    if s != [] {
      assert s[0] in s;
      assert forall c :: c in s[1..] ==> c in s;
      SplitLinesNoBreak(s[1..]);
      assert [s[0]] + s[1..] == s;
    }
  }

  /** `dig` output that is a single dotted quad yields that address. */
  lemma DigKeepsQuadLine(output: string)
    requires IsDottedQuad(output)
    ensures DigAddresses(Some(output)) == {output}
  {
    DottedQuadChars(output);
    SplitLinesNoBreak(output);
    StripKeepsEnds(output, Whitespace);
    assert [output][..0] == [];
    assert DigKept([output]) == Kept(output);
  }

  /** Four digit runs joined by dots form a dotted quad. */
  lemma JoinedQuad(a: string, b: string, c: string, d: string)
    requires |a| >= 1 && |b| >= 1 && |c| >= 1 && |d| >= 1
    requires AllDigits(a) && AllDigits(b) && AllDigits(c) && AllDigits(d)
    ensures IsDottedQuad(a + "." + b + "." + c + "." + d)
  {
    var parts := [a, b, c, d];
    assert Join(parts[3..], '.') == d;
    assert Join(parts[2..], '.') == c + "." + d;
    assert Join(parts[1..], '.') == b + "." + c + "." + d;
    assert Join(parts, '.') == a + "." + b + "." + c + "." + d;
    SplitJoin(parts, '.');
  }

  /** Octet values are not range-checked: "999.999.999.999" is kept. */
  lemma DigKeepsOutOfRange(output: string)
    requires output == "999.999.999.999"
    ensures DigAddresses(Some(output)) == {output}
  {
    assert output == "999" + "." + "999" + "." + "999" + "." + "999";
    JoinedQuad("999", "999", "999", "999");
    DigKeepsQuadLine(output);
  }

  /** Nothing resolved means failure, whatever is expected. */
  lemma NothingResolvedFails(answers: seq<string>, expected: set<string>)
    requires answers == []
    ensures !DnsDecision(Resolved(answers, None), expected)
  {
  }
}
