/** The registry of portal parameters: what each key is, and which values it accepts. */
module Registry {
  import opened Common
  import opened Naming

  datatype Kind = Text | Flag | Port | Url | Email | ProxyCIDRs

  datatype Def = Def(key: string, kind: Kind, secret: bool, editable: bool, required: bool)

  function Fixed(key: string, secret: bool): Def {
    Def(key, Text, secret, false, false)
  }

  function Needed(key: string, kind: Kind, secret: bool): Def {
    Def(key, kind, secret, true, true)
  }

  function Optional(key: string, kind: Kind, secret: bool): Def {
    Def(key, kind, secret, true, false)
  }

  const PORTAL_BASE_URL := "PORTAL_BASE_URL"
  const ADMIN_EMAIL := "ADMIN_EMAIL"
  const TRUSTED_PROXIES := "TRUSTED_PROXIES"
  const APISIX_ADMIN_URL := "APISIX_ADMIN_URL"
  const APISIX_ADMIN_KEY := "APISIX_ADMIN_KEY"
  const APISIX_SANDBOX_ADMIN_URL := "APISIX_SANDBOX_ADMIN_URL"
  const APISIX_SANDBOX_GATEWAY_URL := "APISIX_SANDBOX_GATEWAY_URL"
  const APISIX_SANDBOX_ADMIN_KEY := "APISIX_SANDBOX_ADMIN_KEY"
  const SMTP_HOST := "SMTP_HOST"
  const SMTP_FROM := "SMTP_FROM"
  const REQUIRE_EMAIL_VERIFICATION := "REQUIRE_EMAIL_VERIFICATION"
  const OIDC_ISSUER := "OIDC_ISSUER"
  const OIDC_CLIENT_ID_CLAIM := "OIDC_CLIENT_ID_CLAIM"
  const PROMETHEUS_URL := "PROMETHEUS_URL"

  /** Every parameter in display order. */
  function Defs(): seq<Def> {
    [ Fixed("PORTAL_ADDR", false),
      Fixed("PORTAL_ENV", false),
      Fixed("DATABASE_URL", true),
      Fixed("JWT_SECRET", true),
      Fixed("CREDENTIAL_ENC_KEY", true),
      Needed(PORTAL_BASE_URL, Url, false),
      Needed(ADMIN_EMAIL, Email, false),
      Optional(TRUSTED_PROXIES, ProxyCIDRs, false),
      Optional("UPSTREAM_ALLOW_PRIVATE", Flag, false),
      Needed(APISIX_ADMIN_URL, Url, false),
      Needed("APISIX_GATEWAY_URL", Url, false),
      Needed(APISIX_ADMIN_KEY, Text, true),
      Optional(APISIX_SANDBOX_ADMIN_URL, Url, false),
      Optional(APISIX_SANDBOX_GATEWAY_URL, Url, false),
      Optional(APISIX_SANDBOX_ADMIN_KEY, Text, true),
      Optional(SMTP_HOST, Text, false),
      Optional("SMTP_PORT", Port, false),
      Optional("SMTP_USERNAME", Text, false),
      Optional("SMTP_PASSWORD", Text, true),
      Optional(SMTP_FROM, Email, false),
      Optional(REQUIRE_EMAIL_VERIFICATION, Flag, false),
      Optional(OIDC_ISSUER, Url, false),
      Optional(OIDC_CLIENT_ID_CLAIM, Text, false),
      Optional(PROMETHEUS_URL, Url, false) ]
  }

  function Find(defs: seq<Def>, key: string): Option<Def> {
    if defs == [] then None
    else if defs[0].key == key then Some(defs[0])
    else Find(defs[1..], key)
  }

  function Lookup(key: string): Option<Def> {
    Find(Defs(), key)
  }

  lemma {:induction false} FindMember(defs: seq<Def>, key: string)
    ensures Find(defs, key).Some? <==> exists d :: d in defs && d.key == key
    ensures Find(defs, key).Some? ==> Find(defs, key).value in defs && Find(defs, key).value.key == key
  {
    if defs != [] {
      FindMember(defs[1..], key);
      assert defs == [defs[0]] + defs[1..];
    }
  }

  /** The keys whose values are secrets, and those that cannot be edited at run time. */
  const SECRETS: set<string> :=
    {"DATABASE_URL", "JWT_SECRET", "CREDENTIAL_ENC_KEY", "APISIX_ADMIN_KEY", "APISIX_SANDBOX_ADMIN_KEY",
     "SMTP_PASSWORD"}
  const FIXED: set<string> := {"PORTAL_ADDR", "PORTAL_ENV", "DATABASE_URL", "JWT_SECRET", "CREDENTIAL_ENC_KEY"}

  predicate Classified(d: Def) {
    (d.secret <==> d.key in SECRETS) && (d.editable <==> d.key !in FIXED)
  }

  lemma FirstDefs()
    ensures |Defs()| == 24 && forall i :: 0 <= i < 8 ==> Classified(Defs()[i])
  {
  }

  lemma MiddleDefs()
    ensures |Defs()| == 24 && forall i :: 8 <= i < 16 ==> Classified(Defs()[i])
  {
  }

  lemma LastDefs()
    ensures |Defs()| == 24 && forall i :: 16 <= i < 24 ==> Classified(Defs()[i])
  {
  }

  lemma FixedDefs()
    ensures var defs := Defs();
            && |defs| == 24
            && defs[0].key == "PORTAL_ADDR" && defs[1].key == "PORTAL_ENV" && defs[2].key == "DATABASE_URL"
            && defs[3].key == "JWT_SECRET" && defs[4].key == "CREDENTIAL_ENC_KEY"
  {
  }

  lemma SecretDefs()
    ensures var defs := Defs();
            && |defs| == 24 && defs[11].key == "APISIX_ADMIN_KEY"
            && defs[14].key == "APISIX_SANDBOX_ADMIN_KEY" && defs[18].key == "SMTP_PASSWORD"
  {
  }

  /** Of the registered keys exactly these are secret, and exactly these are read-only. */
  lemma SecretKeys(key: string)
    ensures key in SECRETS <==> Lookup(key).Some? && Lookup(key).value.secret
    ensures key in FIXED <==> Lookup(key).Some? && !Lookup(key).value.editable
  {
    hide Defs;
    FirstDefs();
    MiddleDefs();
    LastDefs();
    FixedDefs();
    SecretDefs();
    FindMember(Defs(), key);
    if Lookup(key).Some? {
      var i :| 0 <= i < 24 && Defs()[i] == Lookup(key).value;
      assert Classified(Defs()[i]);
    }
    if key in SECRETS || key in FIXED {
      var i :| i in {0, 1, 2, 3, 4, 11, 14, 18} && Defs()[i].key == key;
      assert Defs()[i] in Defs();
    }
  }

  /** The library parsers the registry relies on: whether a string is an http(s) URL with
      a host, and the networks a comma-separated list of CIDRs stands for. */
  datatype Parsers = Parsers(isURL: string -> bool, networks: string -> Option<seq<string>>) {
    /** An empty list parses to no networks. */
    ghost predicate Lawful() {
      networks("") == Some([])
    }
  }

  /** What each kind of value accepts. */
  lemma AcceptedValues(parsers: Parsers, d: Def, value: string)
    ensures value == "" ==> (Accepts(parsers, d, value) <==> !d.required)
    ensures d.kind.Flag? && value != "" ==> (Accepts(parsers, d, value) <==> value == "1")
    ensures d.kind.Email? && value != "" ==>
              (Accepts(parsers, d, value) <==> exists i :: 0 <= i < |value| && value[i] == '@')
    ensures d.kind.Url? && value != "" ==> (Accepts(parsers, d, value) <==> parsers.isURL(value))
    ensures d.kind.ProxyCIDRs? && value != "" ==> (Accepts(parsers, d, value) <==> parsers.networks(value).Some?)
    ensures d.kind.Text? && value != "" ==> Accepts(parsers, d, value)
  {
  }

  /** Of the decimal numerals a port accepts exactly those from 1 to 65535. */
  lemma AcceptedPorts(parsers: Parsers, d: Def, n: nat)
    requires d.kind.Port?
    ensures Accepts(parsers, d, Decimal(n)) <==> 1 <= n <= 65535
  {
    AtoiReadsDecimal(n);
  }

  lemma {:induction false} DigitsReadDecimal(n: nat)
    ensures Digits(Decimal(n)) == Some(n)
  {
    DigitIsRead(n % 10);
    if n < 10 {
      assert [Digit(n)][..0] == "";
    } else {
      DigitsReadDecimal(n / 10);
      var s := Decimal(n);
      assert s[..|s| - 1] == Decimal(n / 10) && s[|s| - 1] == Digit(n % 10);
    }
  }

  lemma DigitIsRead(d: nat)
    requires d < 10
    ensures DigitValue(Digit(d)) == Some(d)
  {
  }

  lemma {:induction false} FirstIsDigit(n: nat)
    ensures DigitValue(Decimal(n)[0]).Some?
  {
    if n < 10 {
      DigitIsRead(n);
    } else {
      FirstIsDigit(n / 10);
    }
  }

  /** strconv.Atoi reads back what %d prints. */
  lemma AtoiReadsDecimal(n: nat)
    ensures Atoi(Decimal(n)) == Some(n)
  {
    DigitsReadDecimal(n);
    FirstIsDigit(n);
  }

  function DigitValue(c: char): Option<int> {
    if '0' <= c <= '9' then Some(c as int - '0' as int) else None
  }

  function Digits(s: string): Option<nat> {
    if s == "" then Some(0)
    else
      var front, d := Digits(s[..|s| - 1]), DigitValue(s[|s| - 1]);
      if front.Some? && d.Some? then Some(10 * front.value + d.value) else None
  }

  /** strconv.Atoi, for values that fit the machine integer. */
  function Atoi(s: string): Option<int> {
    var unsigned := if s != "" && (s[0] == '-' || s[0] == '+') then s[1..] else s;
    if unsigned == "" then None
    else
      var n := Digits(unsigned);
      if n.None? then None
      else
        var v: int := n.value;
        Some(if s[0] == '-' then -v else v)
  }

  /** Whether the definition accepts the value. */
  predicate Accepts(parsers: Parsers, d: Def, value: string) {
    if value == "" then !d.required
    else
      match d.kind
      case Flag => value == "1"
      case Port => var n := Atoi(value); n.Some? && 1 <= n.value <= 65535
      case Url => parsers.isURL(value)
      case Email => '@' in value
      case ProxyCIDRs => parsers.networks(value).Some?
      case Text => true
  }
}
