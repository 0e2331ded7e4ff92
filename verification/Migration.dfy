/** Moving a key-auth product to oauth2: the guard lets the edit through exactly when
    nobody would be stranded, and a completed edit strands nobody. */
module Migration {
  import opened Common
  import opened Naming
  import opened AllowLists
  import opened Tables
  import opened Protocol
  import opened Queries
  import opened Integrity
  import opened Safety
  import opened Gateways

  /** Every active subscriber has registered a client id. */
  ghost predicate EveryoneReady(db: Db, product: nat) {
    forall a: nat :: ActiveIn(db.subs, a, product) ==> a in db.apps && db.apps[a].clientId != ""
  }

  /** There are never more client ids than active subscribers, and as many exactly when
      every subscriber has one: the count alone decides. */
  lemma CountDecides(db: Db, product: nat)
    requires Sound(db)
    ensures var ready := |db.OAuthClientsForProduct(product)|;
            && ready <= db.CountActiveSubscriptions(product)
            && (ready == db.CountActiveSubscriptions(product) <==> EveryoneReady(db, product))
  {
    var narrow, wide := db.OAuthRow(product), db.ActiveRow(product);
    CollectNarrower(db.nextApp, narrow, wide);
    if EveryoneReady(db, product) {
      forall i: nat | i < db.nextApp && wide(i).Some? ensures narrow(i).Some? {
        assert ActiveIn(db.subs, i, product);
      }
      CollectNarrower(db.nextApp, wide, narrow);
    }
    if |db.OAuthClientsForProduct(product)| == db.CountActiveSubscriptions(product) {
      forall a: nat | ActiveIn(db.subs, a, product) ensures a in db.apps && db.apps[a].clientId != "" {
        assert a < db.nextApp && wide(a).Some?;
        assert narrow(a).Some?;
      }
    }
  }

  /** A guard that can read the store refuses a switch to oauth2 exactly when some active
      subscriber has no client id, and never refuses any other edit. */
  lemma GuardIsExact(w: World, id: nat, prior: Product, draft: Draft)
    requires Sound(w.db) && Calm(w)
    ensures var s := MigrationGuard(w, id, prior, draft);
            s.r == Err(OAuthMigrationBlocked) <==>
              draft.auth == Some(OAuth2) && prior.auth.KeyAuth? && !EveryoneReady(w.db, id)
    ensures var s := MigrationGuard(w, id, prior, draft); s.r.Err? ==> s.r.error.OAuthMigrationBlocked?
  {
    hide Sound;
    hide Db.OAuthClientsForProduct;
    hide Db.CountActiveSubscriptions;
    CountDecides(w.db, id);
    CountIsZero(w.db, id);
  }

  /** What a guard that passed has established, even amid faults. */
  lemma GuardPassed(w: World, id: nat, prior: Product, draft: Draft)
    requires Sound(w.db) && draft.auth == Some(OAuth2) && prior.auth.KeyAuth?
    ensures var s := MigrationGuard(w, id, prior, draft);
            s.r.Ok? ==> EveryoneReady(w.db, id) && s.r.value == Some(w.db.CountActiveSubscriptions(id))
  {
    hide Sound;
    hide Quieter;
    hide Db.OAuthClientsForProduct;
    hide Db.CountActiveSubscriptions;
    CountDecides(w.db, id);
    CountIsZero(w.db, id);
  }

  /** The oauth2 route lists exactly the active subscribers' client ids, once each. */
  ghost predicate ListsClients(db: Db, gw: Live, product: nat) {
    && RouteID(product) in gw.routes
    && var route := gw.routes[RouteID(product)];
    && route.oauth
    && (forall i, j :: 0 <= i < j < |route.allowed| ==> route.allowed[i] != route.allowed[j])
    && (forall x :: x in route.allowed <==>
          x != "" && exists a: nat :: ActiveIn(db.subs, a, product) && a in db.apps && x == db.apps[a].clientId)
  }

  lemma RebuiltOAuthRoute(cfg: Config, w: World, product: nat)
    requires Sound(w.db) && product in w.db.products && w.db.products[product].auth.OAuth2?
    requires w.db.OAuthClientsForProduct(product) != []
    ensures var s := ReprovisionRoute(cfg, w, product, []);
            s.r.Ok? ==>
              if cfg.issuer != "" then
                && ListsClients(w.db, s.w.gw.live, product)
                && s.w.gw.live.routes[RouteID(product)].upstream == w.db.products[product].upstream
              else RouteID(product) !in s.w.gw.live.routes
  {
    hide Sound;
    hide Quieter;
    hide Dedup;
    hide Db.OAuthClientsForProduct;
    var clients := w.db.OAuthClientsForProduct(product);
    assert clients + NonEmpty([]) == clients;
    ClientsOnce(w.db, product);
    var s := ReprovisionRoute(cfg, w, product, []);
    assert s.r.Ok? && cfg.issuer != "" ==> RouteID(product) in s.w.gw.live.routes;
    assert s.r.Ok? && cfg.issuer != "" ==> s.w.gw.live.routes[RouteID(product)].allowed == Dedup(clients);
  }

  /** Deduplicated, the subscribers' client ids are listed once each. */
  lemma ClientsOnce(db: Db, product: nat)
    requires Sound(db)
    ensures var once := Dedup(db.OAuthClientsForProduct(product));
            && (forall i, j :: 0 <= i < j < |once| ==> once[i] != once[j])
            && forall x :: x in once <==>
                 x != "" && exists a: nat :: ActiveIn(db.subs, a, product) && a in db.apps && x == db.apps[a].clientId
  {
    hide Sound;
    hide Dedup;
    var clients := db.OAuthClientsForProduct(product);
    OAuthClientsForProductMembers(db, product);
    DedupKeepsMembers(clients);
    var once := Dedup(clients);
    forall i, j | 0 <= i < j < |once| ensures once[i] != once[j] {
      assert First(clients, once[i]) < First(clients, once[j]);
    }
  }

  /** A successful switch to oauth2 leaves every active subscriber's client id in the
      rebuilt allow-list, whatever failed before; this holds exactly because the
      service is only asked to switch while an issuer is configured. */
  lemma MigrationStrandsNobody(cfg: Config, w: World, id: nat, draft: Draft)
    requires Sound(w.db) && id in w.db.products && w.db.products[id].auth.KeyAuth?
    requires draft.auth == Some(OAuth2)
    requires exists a: nat :: ActiveIn(w.db.subs, a, id)
    ensures var s := UpdateProduct(cfg, w, id, draft);
            s.r.Ok? ==>
              && s.w.db.subs == w.db.subs && s.w.db.apps == w.db.apps
              && EveryoneReady(s.w.db, id)
              && (cfg.issuer != "" <==> ListsClients(s.w.db, s.w.gw.live, id))
  {
    hide Sound;
    hide Quieter;
    hide EveryoneReady;
    hide ListsClients;
    hide EditRow;
    hide RebuildEdited;
    hide ReprovisionSandboxRoute;
    hide Db.UpdateProduct;
    hide Db.CountActiveSubscriptions;
    hide Db.OAuthClientsForProduct;
    EditRowCases(w, id, draft);
    var s1 := EditRow(w, id, draft);
    if s1.r.Ok? {
      MigratedRow(w, id, draft);
      CountIsZero(w.db, id);
      CountDecides(w.db, id);
      var a: nat :| ActiveIn(w.db.subs, a, id);
      assert w.db.Active(a, id);
      ProductsSound(w.db, id, draft.Row());
      EditKeepsSubscribers(w.db, s1.w.db, id);
      AfterMigration(cfg, s1.w, id, s1.r.value);
    }
  }

  /** A switch whose row went through has passed the guard. */
  lemma MigratedRow(w: World, id: nat, draft: Draft)
    requires Sound(w.db) && id in w.db.products && w.db.products[id].auth.KeyAuth? && draft.auth == Some(OAuth2)
    ensures var s := EditRow(w, id, draft);
            s.r.Ok? ==> EveryoneReady(w.db, id) && s.r.value.loaded == Some(w.db.CountActiveSubscriptions(id))
  {
    hide Sound;
    hide Quieter;
    hide EveryoneReady;
    hide PathGuard;
    hide MigrationGuard;
    hide Db.UniqueError;
    hide Db.CountActiveSubscriptions;
    var s1 := Read(w, w.db.GetProduct(id));
    var s2 := PathGuard(s1.w, id, w.db.products[id], draft);
    GuardPassed(s2.w, id, w.db.products[id], draft);
  }

  lemma EditKeepsSubscribers(db: Db, next: Db, id: nat)
    requires next.subs == db.subs && next.apps == db.apps && next.nextApp == db.nextApp
    ensures next.OAuthClientsForProduct(id) == db.OAuthClientsForProduct(id)
    ensures EveryoneReady(next, id) <==> EveryoneReady(db, id)
  {
    SameClientRows(db, next, id, db.nextApp);
  }

  lemma {:induction false} SameClientRows(db: Db, next: Db, product: nat, n: nat)
    requires next.subs == db.subs && next.apps == db.apps
    ensures Collect(n, db.OAuthRow(product)) == Collect(n, next.OAuthRow(product))
  {
    if n > 0 {
      SameClientRows(db, next, product, n - 1);
    }
  }

  /** A count that the guard has loaded is not loaded again: what is left of the edit is the
      rebuild, at once. */
  lemma CountIsLoadedOnce(cfg: Config, w: World, id: nat, e: Edit)
    requires e.loaded.Some? && e.loaded.value > 0 && e.prior.auth != e.updated.auth
    ensures e.updated.icon == "upload" ==> RebuildEdited(cfg, w, id, e) == ReprovisionRoute(cfg, w, id, [])
    ensures e.updated.icon != "upload" && !(w.faults != [] && w.faults[0].write) ==>
              RebuildEdited(cfg, w, id, e) == ReprovisionRoute(cfg, Tick(w), id, [])
  {
    hide Quieter;
    hide ReprovisionRoute;
    hide Db.CountActiveSubscriptions;
  }

  lemma AfterMigration(cfg: Config, w: World, id: nat, e: Edit)
    requires Sound(w.db) && id in w.db.products && w.db.products[id] == e.updated
    requires e.prior.auth.KeyAuth? && e.updated.auth.OAuth2? && e.loaded.Some? && e.loaded.value > 0
    requires w.db.OAuthClientsForProduct(id) != []
    ensures var s := RebuildEdited(cfg, w, id, e);
            s.r.Ok? ==> (cfg.issuer != "" <==> ListsClients(w.db, s.w.gw.live, id))
  {
    hide Sound;
    hide Quieter;
    hide ReprovisionRoute;
    hide Db.OAuthClientsForProduct;
    var s1 := if e.updated.icon != "upload" then Write(w, Ok(w.db)) else Return(w, ());
    RebuiltOAuthRoute(cfg, s1.w, id);
  }
}
