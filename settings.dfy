/** The settings of config.py that manage-domain.py reads, and
    `load_env_overrides`, which replaces five of them from the environment. */
module Settings {
  import opened Wrappers
  import opened Strings

  /** A setting's value: config.py holds booleans, integers and strings, and
      an override may turn any of the five overridable names into any of them. */
  datatype Value = Bool(b: bool) | Int(i: int) | Str(s: string)

  /** Python's str() of an int. */
  function IntToString(n: int): (r: string)
    ensures |r| >= 1
  {
    if n < 0 then "-" + NatToString(-n) else NatToString(n)
  }

  /** How a value appears inside an f-string. */
  function ValueText(v: Value): string
  {
    match v
    case Bool(b) => if b then "True" else "False"
    case Int(i) => IntToString(i)
    case Str(s) => s
  }

  // ---------------------------------------------------------------------
  // Python's int() on a string

  /** Digits with single underscores between them (PEP 515 grouping). */
  predicate DigitGroups(s: string)
  {
    && |s| >= 1
    && IsDigit(s[0])
    && IsDigit(s[|s| - 1])
    && (forall i :: 0 <= i < |s| ==> IsDigit(s[i]) || s[i] == '_')
    && (forall i :: 0 <= i < |s| - 1 ==> !(s[i] == '_' && s[i + 1] == '_'))
  }

  function DropUnderscores(s: string): (r: string)
    ensures (forall i :: 0 <= i < |s| ==> IsDigit(s[i]) || s[i] == '_') ==> AllDigits(r)
    ensures '_' !in s ==> r == s
  {
    if s == [] then []
    else (if s[0] == '_' then [] else [s[0]]) + DropUnderscores(s[1..])
  }

  /** Python's `int(s)` for base 10: surrounding whitespace, an optional sign,
      then digit groups; anything else raises, here `None`. */
  function ParsePyInt(s: string): Option<int>
  {
    ParseSignedGroups(Strip(s, Whitespace))
  }

  /** An optional sign followed by digit groups. */
  function ParseSignedGroups(t: string): Option<int>
  {
    var negative := |t| >= 1 && t[0] == '-';
    var body := if |t| >= 1 && (t[0] == '-' || t[0] == '+') then t[1..] else t;
    if DigitGroups(body) then
      var v: int := DigitsValue(DropUnderscores(body));
      Some(if negative then -v else v)
    else None
  }

  lemma {:induction false} NoUnderscoreInDigits(s: string)
    requires AllDigits(s)
    ensures '_' !in s
  {
  }

  lemma DigitsAreGroups(s: string)
    requires |s| >= 1 && AllDigits(s)
    ensures DigitGroups(s)
    ensures DropUnderscores(s) == s
  {
    NoUnderscoreInDigits(s);
  }

  /** The sign and digits `IntToString` produces, as `ParsePyInt` reads them. */
  lemma IntTextParts(n: int)
    ensures var t := IntToString(n);
      && |t| >= 1
      && (|t| >= 1 && t[0] == '-' <==> n < 0)
      && (|t| >= 1 && (t[0] == '-' || t[0] == '+') <==> n < 0)
      && (n < 0 ==> t[1..] == NatToString(-n))
      && (n >= 0 ==> t == NatToString(n))
      && t[0] !in Whitespace && t[|t| - 1] !in Whitespace
      && IsDigit(t[|t| - 1])
  {
    var t := IntToString(n);
    if n < 0 {
      assert t[1..] == NatToString(-n);
      assert t[|t| - 1] == NatToString(-n)[|NatToString(-n)| - 1];
    }
  }

  lemma SignedIntText(n: int)
    ensures ParseSignedGroups(IntToString(n)) == Some(n)
  {
    IntTextParts(n);
    var m: nat := if n < 0 then -n else n;
    DigitsAreGroups(NatToString(m));
    DigitsValueOfNatToString(m);
  }

  /** Reading back an int's decimal text gives the int. */
  lemma ParseIntToString(n: int)
    ensures ParsePyInt(IntToString(n)) == Some(n)
  {
    var t := IntToString(n);
    IntTextParts(n);
    StripKeepsEnds(t, Whitespace);
    SignedIntText(n);
  }

  // ---------------------------------------------------------------------
  // Environment overrides

  const Port: string := "BACKEND_APP_PORT"

  /** The only names `load_env_overrides` reads, in its order. */
  const OverridableNames: seq<string> := [Port, "BACKEND_APP_HOST", "EMAIL", "STAGING", "FORCE_RENEWAL"]

  /** The value an environment string gives the setting `name`: "true" and
      "false" in any letter case become booleans, the port becomes an int when
      int() accepts it, and everything else is kept as it is. */
  function OverrideValue(name: string, raw: string): (v: Value)
    ensures v.Bool? <==> Lower(raw) == "true" || Lower(raw) == "false"
    ensures v.Bool? ==> v.b == (Lower(raw) == "true")
    ensures v.Int? ==> name == Port && ParsePyInt(raw) == Some(v.i)
    ensures name == Port && !v.Bool? && ParsePyInt(raw).Some? ==> v == Int(ParsePyInt(raw).value)
    ensures v.Str? ==> v.s == raw
  {
    var lowered := Lower(raw);
    if lowered == "true" || lowered == "false" then Bool(lowered == "true")
    else if name == Port then
      match ParsePyInt(raw)
      case Some(n) => Int(n)
      case None => Str(raw)
    else Str(raw)
  }

  /** The overrides among `names` that the environment provides. */
  function OverridesAmong(env: map<string, string>, names: seq<string>): (m: map<string, Value>)
    ensures forall n :: n in m <==> n in names && n in env
  {
    map n | n in names && n in env :: OverrideValue(n, env[n])
  }

  function Overrides(env: map<string, string>): map<string, Value>
  {
    OverridesAmong(env, OverridableNames)
  }

  /** Text ending in a digit is neither "true" nor "false" in any case. */
  lemma DigitEndNotBool(t: string)
    requires |t| >= 1 && IsDigit(t[|t| - 1])
    ensures Lower(t) != "true" && Lower(t) != "false"
  {
    var l := Lower(t);
    assert IsDigit(l[|l| - 1]);
  }

  /** An int written in decimal for the port becomes that int. */
  lemma PortOverrideIsInt(n: int)
    ensures OverrideValue(Port, IntToString(n)) == Int(n)
  {
    ParseIntToString(n);
    IntTextParts(n);
    DigitEndNotBool(IntToString(n));
  }

  /** The port keeps the text when int() refuses it. */
  lemma PortOverrideUnparsable(raw: string)
    requires ParsePyInt(raw) == None
    requires Lower(raw) != "true" && Lower(raw) != "false"
    ensures OverrideValue(Port, raw) == Str(raw)
  {
  }

  /** Names other than the port never become ints. */
  lemma OtherOverridesNeverInt(name: string, raw: string)
    requires name != Port
    ensures !OverrideValue(name, raw).Int?
  {
  }

  /** Reading one more name adds at most that name's override. */
  lemma OverridesStep(env: map<string, string>, names: seq<string>, i: nat, base: map<string, Value>)
    requires i < |names|
    ensures var before := base + OverridesAmong(env, names[..i]);
      base + OverridesAmong(env, names[..i + 1])
        == if names[i] in env then before[names[i] := OverrideValue(names[i], env[names[i]])] else before
  {
    assert names[..i + 1] == names[..i] + [names[i]];
  }

  /** Overrides replace the five names only. */
  lemma OverridesOnlyNamed(env: map<string, string>, base: map<string, Value>)
    ensures forall n :: n !in OverridableNames ==>
      (n in base + Overrides(env) <==> n in base) && (n in base ==> (base + Overrides(env))[n] == base[n])
  {
  }

  /** config.py's values for the settings the model reads. */
  const Defaults: map<string, Value> := map[
    Port := Int(3000),
    "BACKEND_APP_HOST" := Str("127.0.0.1"),
    "EMAIL" := Str("siddhant@pearlthoughts"),
    "STAGING" := Bool(false),
    "FORCE_RENEWAL" := Bool(false)
  ]

  /** The `config` module as manage-domain.py sees it; `setattr` replaces
      entries of `values`. */
  class Config {
    var values: map<string, Value>

    constructor()
      ensures values == Defaults
    {
      values := Defaults;
    }

    /** manage-domain.py `load_env_overrides`. */
    method LoadEnvOverrides(env: map<string, string>)
      modifies this
      ensures values == old(values) + Overrides(env)
      ensures forall n :: n !in OverridableNames ==>
        (n in values <==> n in old(values)) && (n in values ==> values[n] == old(values)[n])
    {
      var i := 0;
      while i < |OverridableNames|
        invariant 0 <= i <= |OverridableNames|
        invariant values == old(values) + OverridesAmong(env, OverridableNames[..i])
      {
        var name := OverridableNames[i];
        OverridesStep(env, OverridableNames, i, old(values));
        if name in env {
          var val := env[name];
          values := values[name := OverrideValue(name, val)];
        }
        i := i + 1;
      }
      assert OverridableNames[..i] == OverridableNames;
      OverridesOnlyNamed(env, old(values));
    }
  }
}
