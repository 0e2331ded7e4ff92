/** What the gateways should look like: the projection of the database to routes, and
    what rebuilding a route does for it, whether or not calls fail. */
module Reconciliation {
  import opened Common
  import opened Naming
  import opened AllowLists
  import opened Tables
  import opened Protocol
  import opened Runs
  import opened Queries
  import opened Integrity
  import opened Safety
  import opened Gateways

  datatype Side = Production | Sandboxed

  /** The name under which an application may call a product on one of the gateways:
      its consumer for a key-auth route, its client id for an oauth2 route. */
  function Caller(side: Side, db: Db, product: nat, app: nat): Option<string> {
    if !ActiveIn(db.subs, app, product) then None
    else if side.Sandboxed? then
      if app in db.creds && db.creds[app].sandboxKey != "" then Some(ConsumerName(app)) else None
    else if product in db.products && db.products[product].auth.OAuth2? then
      if app in db.apps && db.apps[app].clientId != "" then Some(db.apps[app].clientId) else None
    else if app in db.creds then Some(ConsumerName(app)) else None
  }

  /** The subscriber set of a product, projected from the database. */
  ghost function Audience(side: Side, db: Db, product: nat): set<string> {
    set k | k in db.subs && k.product == product && Caller(side, db, product, k.app).Some? ::
      Caller(side, db, product, k.app).value
  }

  function Backend(side: Side, p: Product): string {
    if side.Sandboxed? then p.sandboxUpstream else p.upstream
  }

  ghost function Names(ss: seq<string>): set<string> {
    set s | s in ss
  }

  /** The route exists exactly when someone may use it, and then it lists exactly them, once
      each, leads to the product's backend and asks for the product's kind of credential. */
  ghost predicate RouteMatches(side: Side, routes: map<string, Route>, product: nat, p: Product,
                               audience: set<string>) {
    && (RouteID(product) in routes <==> audience != {})
    && (RouteID(product) in routes ==>
          var route := routes[RouteID(product)];
          && Names(route.allowed) == audience && Distinct(route.allowed)
          && route.upstream == Backend(side, p)
          && (route.oauth <==> side.Production? && p.auth.OAuth2?))
  }

  ghost predicate Reconciled(side: Side, db: Db, routes: map<string, Route>, product: nat)
    requires product in db.products
  {
    var p := db.products[product];
    if side.Sandboxed? && p.sandboxUpstream == "" then RouteID(product) !in routes
    else RouteMatches(side, routes, product, p, Audience(side, db, product))
  }

  /** The product's route, if it has one, serves this path. */
  predicate OnPath(routes: map<string, Route>, product: nat, path: string) {
    RouteID(product) in routes ==> routes[RouteID(product)].uri == path
  }

  // ---- moving the refinement across a write

  lemma AudienceFrame(side: Side, db: Db, next: Db, product: nat)
    requires forall a: nat :: Caller(side, db, product, a) == Caller(side, next, product, a)
    ensures Audience(side, db, product) == Audience(side, next, product)
  {
    forall x ensures x in Audience(side, db, product) <==> x in Audience(side, next, product) {
      if x in Audience(side, db, product) {
        var k :| k in db.subs && k.product == product && Caller(side, db, product, k.app) == Some(x);
        assert Caller(side, next, product, k.app) == Some(x) && SubKey(k.app, product) in next.subs;
      }
      if x in Audience(side, next, product) {
        var k :| k in next.subs && k.product == product && Caller(side, next, product, k.app) == Some(x);
        assert Caller(side, db, product, k.app) == Some(x) && SubKey(k.app, product) in db.subs;
      }
    }
  }

  lemma AudienceMembers(side: Side, db: Db, product: nat)
    ensures forall x :: x in Audience(side, db, product) <==> exists a: nat :: Caller(side, db, product, a) == Some(x)
  {
    forall x ensures x in Audience(side, db, product) <==> exists a: nat :: Caller(side, db, product, a) == Some(x) {
      if a: nat :| Caller(side, db, product, a) == Some(x) {
        assert SubKey(a, product) in db.subs;
      }
    }
  }

  /** Only a sandbox can be closed: the product has no sandbox backend. */
  predicate Closed(side: Side, p: Product) {
    side.Sandboxed? && p.sandboxUpstream == ""
  }

  /** For this product the two databases ask for the same route, its path aside. */
  ghost predicate SameDemand(side: Side, db: Db, next: Db, product: nat) {
    && product in db.products && product in next.products
    && Backend(side, db.products[product]) == Backend(side, next.products[product])
    && (side.Production? ==> db.products[product].auth == next.products[product].auth)
    && (Closed(side, db.products[product])
        || forall a: nat :: Caller(side, db, product, a) == Caller(side, next, product, a))
  }

  /** They ask for the same route. */
  ghost predicate SameView(side: Side, db: Db, next: Db, product: nat) {
    SameDemand(side, db, next, product) && db.products[product].contextPath == next.products[product].contextPath
  }

  predicate SameRoute(routes: map<string, Route>, next: map<string, Route>, product: nat) {
    && (RouteID(product) in routes <==> RouteID(product) in next)
    && (RouteID(product) in routes ==> routes[RouteID(product)] == next[RouteID(product)])
  }

  /** Nobody may call the product, before or after. */
  ghost predicate Idle(side: Side, db: Db, next: Db, product: nat) {
    && side.Production? && product in db.products && product in next.products
    && Audience(side, db, product) == {} && Audience(side, next, product) == {}
  }

  /** The route stayed, and so did what the database asks of it but for the path. */
  ghost predicate Kept(side: Side, db: Db, next: Db, routes: map<string, Route>, nextRoutes: map<string, Route>,
                       product: nat) {
    SameRoute(routes, nextRoutes, product) && (SameDemand(side, db, next, product) || Idle(side, db, next, product))
  }

  /** Somebody joined the callers of an open product by its consumer name, and nobody left. */
  ghost predicate Joined(side: Side, db: Db, next: Db, product: nat) {
    && product in db.products && product in next.products
    && Backend(side, db.products[product]) == Backend(side, next.products[product])
    && (side.Production? ==> db.products[product].auth == next.products[product].auth)
    && !Closed(side, db.products[product]) && (side.Production? ==> db.products[product].auth.KeyAuth?)
    && (forall a: nat :: Caller(side, db, product, a).Some? ==>
        Caller(side, db, product, a) == Caller(side, next, product, a))
    && (exists a: nat ::
          Caller(side, next, product, a) == Some(ConsumerName(a)) && ConsumerName(a) !in Audience(side, db, product))
  }

  /** Some consumer that may call the product is not on its route. */
  ghost predicate Short(side: Side, db: Db, routes: map<string, Route>, product: nat) {
    && product in db.products && !Closed(side, db.products[product])
    && (side.Production? ==> db.products[product].auth.KeyAuth?)
    && exists a: nat :: Caller(side, db, product, a).Some?
                        && !(RouteID(product) in routes
                             && Caller(side, db, product, a).value in routes[RouteID(product)].allowed)
  }

  lemma ShortIsNotReconciled(side: Side, db: Db, routes: map<string, Route>, product: nat)
    requires Short(side, db, routes, product)
    ensures !Reconciled(side, db, routes, product) && Audience(side, db, product) != {}
  {
    hide Caller;
    hide Audience;
    AudienceMembers(side, db, product);
    var a: nat :| && Caller(side, db, product, a).Some?
                  && !(RouteID(product) in routes
                       && Caller(side, db, product, a).value in routes[RouteID(product)].allowed);
    assert Caller(side, db, product, a).value in Audience(side, db, product);
    if RouteID(product) in routes {
      assert Caller(side, db, product, a).value !in Names(routes[RouteID(product)].allowed);
    }
  }

  /** What was reconciled, or short, stays so while route and view are kept. */
  lemma KeptStays(side: Side, db: Db, next: Db, routes: map<string, Route>, nextRoutes: map<string, Route>,
                  product: nat)
    requires Kept(side, db, next, routes, nextRoutes, product)
    ensures Reconciled(side, db, routes, product) ==> Reconciled(side, next, nextRoutes, product)
    ensures Short(side, db, routes, product) ==> Short(side, next, nextRoutes, product)
  {
    hide Caller;
    hide Audience;
    if SameDemand(side, db, next, product) {
      if !Closed(side, db.products[product]) {
        AudienceFrame(side, db, next, product);
      }
    } else if Short(side, db, routes, product) {
      ShortIsNotReconciled(side, db, routes, product);
    }
  }

  lemma JoinedIsShort(side: Side, db: Db, next: Db, routes: map<string, Route>, nextRoutes: map<string, Route>,
                      product: nat)
    requires Joined(side, db, next, product) && SameRoute(routes, nextRoutes, product)
    requires Reconciled(side, db, routes, product) || Short(side, db, routes, product)
    ensures Short(side, next, nextRoutes, product)
  {
    hide Caller;
    hide Audience;
    if Short(side, db, routes, product) {
      var a: nat :| && Caller(side, db, product, a).Some?
                    && !(RouteID(product) in routes
                         && Caller(side, db, product, a).value in routes[RouteID(product)].allowed);
      assert Caller(side, next, product, a) == Caller(side, db, product, a);
    } else {
      var a: nat :| Caller(side, next, product, a) == Some(ConsumerName(a))
      && ConsumerName(a) !in Audience(side, db, product);
      if RouteID(product) in routes {
        assert ConsumerName(a) !in Names(routes[RouteID(product)].allowed);
      }
    }
  }

  // ---- rebuilding one route

  ghost function Given(extras: seq<string>): set<string> {
    set e | e in extras && e != ""
  }

  lemma KeyAuthAllowList(db: Db, product: nat, extras: seq<string>)
    requires Sound(db) && product in db.products && db.products[product].auth.KeyAuth? && "" !in extras
    ensures Names(WithExtras(db.ConsumersForProduct(product), extras))
            == Audience(Production, db, product) + Given(extras)
    ensures Distinct(WithExtras(db.ConsumersForProduct(product), extras))
  {
    hide Sound;
    NamesAreInjective();
    CollectIsDistinct(db.nextApp, db.ConsumerRow(product));
    WithExtrasIsDistinct(db.ConsumersForProduct(product), extras);
    ConsumersForProductMembers(db, product);
    WithExtrasMembers(db.ConsumersForProduct(product), extras);
    AudienceMembers(Production, db, product);
    forall x ensures x in db.ConsumersForProduct(product) <==> x in Audience(Production, db, product) {
      if a: nat :| db.Active(a, product) && a in db.creds && x == ConsumerName(a) {
        assert Caller(Production, db, product, a) == Some(x);
      }
    }
  }

  lemma OAuthAllowList(db: Db, product: nat, extras: seq<string>)
    requires Sound(db) && product in db.products && db.products[product].auth.OAuth2?
    ensures var allowed := db.OAuthClientsForProduct(product) + NonEmpty(extras);
            && Names(Dedup(allowed)) == Names(allowed) == Audience(Production, db, product) + Given(extras)
    ensures Distinct(Dedup(db.OAuthClientsForProduct(product) + NonEmpty(extras)))
  {
    hide Sound;
    DedupIsDistinct(db.OAuthClientsForProduct(product) + NonEmpty(extras));
    OAuthClientsForProductMembers(db, product);
    NonEmptyMembers(extras);
    DedupKeepsMembers(db.OAuthClientsForProduct(product) + NonEmpty(extras));
    AudienceMembers(Production, db, product);
    forall x ensures x in db.OAuthClientsForProduct(product) <==> x in Audience(Production, db, product) {
      if a: nat :| db.Active(a, product) && a in db.apps && db.apps[a].clientId != "" && x == db.apps[a].clientId {
        assert Caller(Production, db, product, a) == Some(x);
      }
    }
  }

  lemma SandboxAllowList(db: Db, product: nat, extras: seq<string>)
    requires Sound(db) && "" !in extras
    ensures Names(WithExtras(db.SandboxConsumersForProduct(product), extras))
            == Audience(Sandboxed, db, product) + Given(extras)
    ensures Distinct(WithExtras(db.SandboxConsumersForProduct(product), extras))
  {
    hide Sound;
    NamesAreInjective();
    CollectIsDistinct(db.nextApp, db.SandboxRow(product));
    WithExtrasIsDistinct(db.SandboxConsumersForProduct(product), extras);
    SandboxConsumersForProductMembers(db, product);
    WithExtrasMembers(db.SandboxConsumersForProduct(product), extras);
    AudienceMembers(Sandboxed, db, product);
    forall x ensures x in db.SandboxConsumersForProduct(product) <==> x in Audience(Sandboxed, db, product) {
      if a: nat :| db.Active(a, product) && a in db.creds && db.creds[a].sandboxKey != "" && x == ConsumerName(a) {
        assert Caller(Sandboxed, db, product, a) == Some(x);
      }
    }
  }

  lemma EmptyNames(ss: seq<string>)
    ensures ss == [] <==> Names(ss) == {}
  {
    if ss != [] {
      assert ss[0] in Names(ss);
    }
  }

  /** Only the product's own route changes. */
  ghost predicate OnlyRoute(routes: map<string, Route>, next: map<string, Route>, product: nat) {
    && (forall q: nat :: q != product ==> SameRoute(routes, next, q))
    && (forall q: nat :: RouteID(q) in next ==> RouteID(q) in routes || q == product)
  }

  lemma WrittenRoute(side: Side, live: Live, product: nat, p: Product, allowed: seq<string>, uri: string)
    requires allowed != [] && Distinct(allowed)
    ensures var oauth := side.Production? && p.auth.OAuth2?;
            var next := live.Effect(EnsureRoute(RouteID(product), Route(uri, Backend(side, p), allowed, oauth))).routes;
            RouteMatches(side, next, product, p, Names(allowed)) && OnlyRoute(live.routes, next, product)
            && OnPath(next, product, uri)
    ensures var next := live.Effect(DeleteRoute(RouteID(product))).routes;
            RouteMatches(side, next, product, p, {}) && OnlyRoute(live.routes, next, product)
            && OnPath(next, product, uri)
  {
    EmptyNames(allowed);
    NamesAreInjective();
  }

  predicate RouteCallFor(call: Call, product: nat) {
    (call.EnsureRoute? || call.DeleteRoute?) && call.id == RouteID(product)
  }

  lemma CallTouches(state: State, product: nat, call: Call)
    requires RouteCallFor(call, product)
    ensures OnlyRoute(state.live.routes, state.live.routes, product)
    ensures OnlyRoute(state.live.routes, state.After(call).live.routes, product)
  {
    NamesAreInjective();
  }

  /** Whatever fails, at most the product's own route changes. */
  lemma ReprovisionTouches(cfg: Config, w: World, product: nat, extras: seq<string>)
    ensures OnlyRoute(w.gw.live.routes, ReprovisionRoute(cfg, w, product, extras).w.gw.live.routes, product)
  {
    hide Quieter;
    hide OnlyRoute;
    hide State.After;
    CallTouches(w.gw, product, DeleteRoute(RouteID(product)));
    if product in w.db.products {
      var p := w.db.products[product];
      CallTouches(w.gw, product, OAuthCall(cfg, product, p.contextPath, p.upstream,
                                           w.db.OAuthClientsForProduct(product) + NonEmpty(extras)));
      CallTouches(w.gw, product, KeyAuthCall(product, p.contextPath, p.upstream,
                                             WithExtras(w.db.ConsumersForProduct(product), extras)));
    }
  }

  lemma ReprovisionSandboxTouches(cfg: Config, w: World, product: nat, extras: seq<string>)
    ensures OnlyRoute(w.sandbox.live.routes, ReprovisionSandboxRoute(cfg, w, product, extras).w.sandbox.live.routes,
                      product)
  {
    hide Quieter;
    hide OnlyRoute;
    hide State.After;
    CallTouches(w.sandbox, product, DeleteRoute(RouteID(product)));
    if product in w.db.products {
      var p := w.db.products[product];
      CallTouches(w.sandbox, product, KeyAuthCall(product, p.contextPath, p.sandboxUpstream,
                                                  WithExtras(w.db.SandboxConsumersForProduct(product), extras)));
    }
  }

  /** A rebuild that goes through makes the route the projection, with the extras added. */
  lemma ReprovisionMatches(cfg: Config, w: World, product: nat, extras: seq<string>)
    requires Sound(w.db) && cfg.issuer != "" && product in w.db.products
    requires w.db.products[product].auth.KeyAuth? ==> "" !in extras
    ensures var s := ReprovisionRoute(cfg, w, product, extras);
            && (Calm(w) ==> s.r.Ok?)
            && (s.r.Ok? ==>
                  && RouteMatches(Production, s.w.gw.live.routes, product, w.db.products[product],
                                  Audience(Production, w.db, product) + Given(extras))
                  && OnPath(s.w.gw.live.routes, product, w.db.products[product].contextPath))
  {
    hide Sound;
    hide Audience;
    hide RouteMatches;
    hide OnlyRoute;
    hide Quieter;
    hide Dedup;
    hide NonEmpty;
    hide WithExtras;
    hide Db.ConsumersForProduct;
    hide Db.OAuthClientsForProduct;
    var p := w.db.products[product];
    if p.auth.OAuth2? {
      OAuthAllowList(w.db, product, extras);
      var allowed := w.db.OAuthClientsForProduct(product) + NonEmpty(extras);
      EmptyNames(allowed);
      EmptyNames(Dedup(allowed));
      WrittenRoute(Production, w.gw.live, product, p, if allowed == [] then [""] else Dedup(allowed), p.contextPath);
    } else {
      KeyAuthAllowList(w.db, product, extras);
      var allowed := WithExtras(w.db.ConsumersForProduct(product), extras);
      EmptyNames(allowed);
      WrittenRoute(Production, w.gw.live, product, p, if allowed == [] then [""] else allowed, p.contextPath);
    }
  }

  lemma ReprovisionNeedsProduct(cfg: Config, w: World, product: nat)
    ensures ReprovisionRoute(cfg, w, product, []).r.Ok? ==> product in w.db.products
  {
  }

  lemma ReprovisionReconciles(cfg: Config, w: World, product: nat)
    requires Sound(w.db) && cfg.issuer != "" && product in w.db.products
    ensures var s := ReprovisionRoute(cfg, w, product, []);
            && (Calm(w) ==> s.r.Ok?)
            && (s.r.Ok? ==>
                  && Reconciled(Production, w.db, s.w.gw.live.routes, product)
                  && OnPath(s.w.gw.live.routes, product, w.db.products[product].contextPath))
  {
    hide Sound;
    hide Audience;
    hide RouteMatches;
    hide OnPath;
    hide ReprovisionRoute;
    ReprovisionMatches(cfg, w, product, []);
    assert Audience(Production, w.db, product) + Given([]) == Audience(Production, w.db, product);
  }

  lemma ReprovisionSandboxReconciles(cfg: Config, w: World, product: nat, extras: seq<string>)
    requires Sound(w.db) && product in w.db.products && cfg.sandboxOn && "" !in extras
    requires Given(extras) <= Audience(Sandboxed, w.db, product)
    ensures var s := ReprovisionSandboxRoute(cfg, w, product, extras);
            && (Calm(w) ==> s.r.Ok?)
            && (s.r.Ok? ==>
                  && Reconciled(Sandboxed, w.db, s.w.sandbox.live.routes, product)
                  && OnPath(s.w.sandbox.live.routes, product, w.db.products[product].contextPath))
  {
    hide Sound;
    hide Audience;
    hide OnlyRoute;
    var p := w.db.products[product];
    SandboxAllowList(w.db, product, extras);
    var allowed := WithExtras(w.db.SandboxConsumersForProduct(product), extras);
    EmptyNames(allowed);
    assert Audience(Sandboxed, w.db, product) + Given(extras) == Audience(Sandboxed, w.db, product);
    WrittenRoute(Sandboxed, w.sandbox.live, product, p, if allowed == [] then [""] else allowed, p.contextPath);
  }
}
