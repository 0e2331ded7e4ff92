/** What the server derives from a settings snapshot: once at boot, and again by the
    change hook after every published change. */
module Bindings {
  import opened Common
  import opened Registry
  import opened SettingsModel
  import opened Gateways

  /** An Admin API client; the base URL carries no trailing slash. */
  datatype Client = Client(baseURL: string, apiKey: string)

  function TrimSlashes(url: string): (r: string)
    ensures r <= url && (r != "" ==> r[|r| - 1] != '/')
    ensures forall i :: |r| <= i < |url| ==> url[i] == '/'
  {
    if url != "" && url[|url| - 1] == '/' then TrimSlashes(url[..|url| - 1]) else url
  }

  function NewClient(baseURL: string, apiKey: string): Client {
    Client(TrimSlashes(baseURL), apiKey)
  }

  /** No client at all means that gateway is disabled. */
  datatype Bound = Bound(
    prod: Option<Client>, sandbox: Option<Client>,
    issuer: string, claim: string, handlerIssuer: string,
    usage: Option<string>, proxies: seq<string>,
    adminEmail: string, promoted: seq<string>)

  function ProdClient(e: Effective): Client {
    NewClient(e.Get(APISIX_ADMIN_URL), e.Get(APISIX_ADMIN_KEY))
  }

  function SandboxClient(e: Effective): Option<Client> {
    if !e.SandboxConfigured() then None
    else Some(NewClient(e.Get(APISIX_SANDBOX_ADMIN_URL), e.Get(APISIX_SANDBOX_ADMIN_KEY)))
  }

  function UsageReader(e: Effective): Option<string> {
    if e.Get(PROMETHEUS_URL) != "" then Some(e.Get(PROMETHEUS_URL)) else None
  }

  /** The proxies a booting server trusts; None means that it refuses to start. */
  function BootProxies(cfg: Config, e: Effective): Option<seq<string>> {
    var nets := cfg.parsers.networks(e.Get(TRUSTED_PROXIES));
    if nets.Some? then nets else cfg.parsers.networks(cfg.EnvDefault(TRUSTED_PROXIES))
  }

  /** The bindings a server booting on this snapshot starts with. */
  function BootBound(cfg: Config, e: Effective): Option<Bound> {
    var proxies := BootProxies(cfg, e);
    if proxies.None? then None
    else Some(Bound(Some(ProdClient(e)), SandboxClient(e), e.Get(OIDC_ISSUER), e.Get(OIDC_CLIENT_ID_CLAIM),
                    e.Get(OIDC_ISSUER),
                    UsageReader(e), proxies.value, e.Get(ADMIN_EMAIL), [e.Get(ADMIN_EMAIL)]))
  }

  /** What the change hook makes of the bindings. */
  function Rearmed(cfg: Config, b: Bound, e: Effective): Bound {
    var nets := cfg.parsers.networks(e.Get(TRUSTED_PROXIES));
    Bound(Some(ProdClient(e)), SandboxClient(e), e.Get(OIDC_ISSUER), e.Get(OIDC_CLIENT_ID_CLAIM), e.Get(OIDC_ISSUER),
          UsageReader(e), if nets.Some? then nets.value else b.proxies,
          e.Get(ADMIN_EMAIL), if e.Get(ADMIN_EMAIL) != b.adminEmail then b.promoted + [e.Get(ADMIN_EMAIL)]
                              else b.promoted)
  }

  class Server {
    const cfg: Config
    const prodGW: Swappable<Client>
    const sandboxGW: Swappable<Client>
    var issuer: string
    var claim: string
    var handlerIssuer: string
    var usage: Option<string>
    var proxies: seq<string>
    var prevAdminEmail: string
    /** The addresses EnsureAdminRole was asked to promote. */
    var promoted: seq<string>

    predicate Valid() {
      prodGW != sandboxGW
    }

    function Now(): Bound
      reads this, prodGW, sandboxGW
    {
      Bound(prodGW.inner, sandboxGW.inner, issuer, claim, handlerIssuer, usage, proxies, prevAdminEmail, promoted)
    }

    constructor (cfg: Config, snap: Effective)
      requires BootProxies(cfg, snap).Some?
      ensures this.cfg == cfg && Valid() && fresh(prodGW) && fresh(sandboxGW)
      ensures BootBound(cfg, snap) == Some(Now()) && LikeBooted(cfg, Now(), snap)
      ensures cfg.parsers.networks(snap.Get(TRUSTED_PROXIES)).None? ==>
                cfg.parsers.networks(cfg.EnvDefault(TRUSTED_PROXIES)) == Some(Now().proxies)
    {
      this.cfg := cfg;
      prodGW := new Swappable(Some(ProdClient(snap)));
      sandboxGW := new Swappable(SandboxClient(snap));
      issuer, claim := snap.Get(OIDC_ISSUER), snap.Get(OIDC_CLIENT_ID_CLAIM);
      handlerIssuer := snap.Get(OIDC_ISSUER);
      usage := if snap.Get(PROMETHEUS_URL) != "" then Some(snap.Get(PROMETHEUS_URL)) else None;
      proxies := BootProxies(cfg, snap).value;
      prevAdminEmail, promoted := snap.Get(ADMIN_EMAIL), [snap.Get(ADMIN_EMAIL)];
    }

    /** The change hook. */
    method Rearm(e: Effective)
      requires Valid()
      modifies this, prodGW, sandboxGW
      ensures Now() == Rearmed(cfg, old(Now()), e) && LikeBooted(cfg, Now(), e)
      ensures cfg.parsers.networks(e.Get(TRUSTED_PROXIES)).None? ==> proxies == old(proxies)
      ensures promoted == old(promoted) + if e.Get(ADMIN_EMAIL) == old(prevAdminEmail) then [] else [e.Get(ADMIN_EMAIL)]
      ensures prodGW.Get().Ok? && Calls(prodGW.Get().value, e.Get(APISIX_ADMIN_URL), e.Get(APISIX_ADMIN_KEY))
      ensures if e.Get(APISIX_SANDBOX_ADMIN_URL) == "" || e.Get(APISIX_SANDBOX_GATEWAY_URL) == ""
              then sandboxGW.Get() == Err(GatewayDisabled)
              else sandboxGW.Get().Ok?
                   && Calls(sandboxGW.Get().value, e.Get(APISIX_SANDBOX_ADMIN_URL), e.Get(APISIX_SANDBOX_ADMIN_KEY))
    {
      hide Calls;
      hide LikeBooted;
      hide ProdClient;
      ClientsCall(e);
      RearmedIsLikeBooted(cfg, Now(), e);
      prodGW.Swap(Some(ProdClient(e)));
      sandboxGW.Swap(SandboxClient(e));
      issuer, claim := e.Get(OIDC_ISSUER), e.Get(OIDC_CLIENT_ID_CLAIM);
      handlerIssuer := e.Get(OIDC_ISSUER);
      if e.Get(PROMETHEUS_URL) != "" {
        usage := Some(e.Get(PROMETHEUS_URL));
      } else {
        usage := None;
      }
      var nets := cfg.parsers.networks(e.Get(TRUSTED_PROXIES));
      if nets.Some? {
        proxies := nets.value;
      }
      var email := e.Get(ADMIN_EMAIL);
      if email != prevAdminEmail {
        prevAdminEmail := email;
        promoted := promoted + [email];
      }
    }
  }

  /** Servers that share no gateway. */
  ghost predicate Apart(hooks: seq<Server>) {
    && (forall h :: h in hooks ==> h.Valid())
    && (forall g, h :: g in hooks && h in hooks && g != h ==> {g.prodGW, g.sandboxGW} !! {h.prodGW, h.sandboxGW})
  }

  /** Running the hook twice on one snapshot is running it once. */
  lemma RearmedTwice(cfg: Config, b: Bound, e: Effective)
    ensures Rearmed(cfg, Rearmed(cfg, b, e), e) == Rearmed(cfg, b, e)
  {
  }

  /** The client calls the configured URL, without its trailing slashes, with that key. */
  predicate Calls(c: Client, url: string, key: string) {
    && c.apiKey == key && c.baseURL <= url
    && (c.baseURL != "" ==> c.baseURL[|c.baseURL| - 1] != '/')
    && forall i :: |c.baseURL| <= i < |url| ==> url[i] == '/'
  }

  /** What the snapshot asks of the bindings, value by value; of the trusted proxies only if
      the value parses. */
  ghost predicate LikeBooted(cfg: Config, b: Bound, e: Effective) {
    && b.prod.Some? && Calls(b.prod.value, e.Get(APISIX_ADMIN_URL), e.Get(APISIX_ADMIN_KEY))
    && (b.sandbox.Some? <==> e.Get(APISIX_SANDBOX_ADMIN_URL) != "" && e.Get(APISIX_SANDBOX_GATEWAY_URL) != "")
    && (b.sandbox.Some? ==> Calls(b.sandbox.value, e.Get(APISIX_SANDBOX_ADMIN_URL), e.Get(APISIX_SANDBOX_ADMIN_KEY)))
    && b.issuer == b.handlerIssuer == e.Get(OIDC_ISSUER)
    && b.claim == e.Get(OIDC_CLIENT_ID_CLAIM)
    && b.usage == (if e.Get(PROMETHEUS_URL) == "" then None else Some(e.Get(PROMETHEUS_URL)))
    && b.adminEmail == e.Get(ADMIN_EMAIL)
    && (var nets := cfg.parsers.networks(e.Get(TRUSTED_PROXIES)); nets.Some? ==> b.proxies == nets.value)
    && (BootBound(cfg, e).Some? && cfg.parsers.networks(e.Get(TRUSTED_PROXIES)).Some? ==>
          b.(promoted := []) == BootBound(cfg, e).value.(promoted := []))
  }

  /** The values leave no choice. */
  lemma CallsIsUnique(c: Client, d: Client, url: string, key: string)
    requires Calls(c, url, key) && Calls(d, url, key)
    ensures c == d
  {
    assert c.baseURL == url[..|c.baseURL|] && d.baseURL == url[..|d.baseURL|];
  }

  lemma ClientsCall(e: Effective)
    ensures Calls(ProdClient(e), e.Get(APISIX_ADMIN_URL), e.Get(APISIX_ADMIN_KEY))
    ensures SandboxClient(e).Some? <==> e.Get(APISIX_SANDBOX_ADMIN_URL) != "" && e.Get(APISIX_SANDBOX_GATEWAY_URL) != ""
    ensures SandboxClient(e).Some? ==>
              Calls(SandboxClient(e).value, e.Get(APISIX_SANDBOX_ADMIN_URL), e.Get(APISIX_SANDBOX_ADMIN_KEY))
  {
  }

  lemma RearmedIsLikeBooted(cfg: Config, b: Bound, e: Effective)
    ensures LikeBooted(cfg, Rearmed(cfg, b, e), e)
    ensures PromotedOncePerChange(b) ==> PromotedOncePerChange(Rearmed(cfg, b, e))
  {
    hide Calls;
    ClientsCall(e);
  }

  lemma BootedIsLikeBooted(cfg: Config, e: Effective)
    requires BootBound(cfg, e).Some?
    ensures LikeBooted(cfg, BootBound(cfg, e).value, e) && PromotedOncePerChange(BootBound(cfg, e).value)
  {
    hide Calls;
    ClientsCall(e);
  }

  /** Promotions follow the admin address, one per change. */
  ghost predicate PromotedOncePerChange(b: Bound) {
    && b.promoted != [] && b.promoted[|b.promoted| - 1] == b.adminEmail
    && forall i :: 0 < i < |b.promoted| ==> b.promoted[i - 1] != b.promoted[i]
  }
}
