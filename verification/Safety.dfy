/** One-sided guarantees that hold in every run, whichever store and gateway calls fail:
    active means provisioned, allow-lists hold only approved applications, and a
    deleted application is cut off on both gateways for good. */
module Safety {
  import opened Common
  import opened Naming
  import opened AllowLists
  import opened Tables
  import opened Protocol
  import opened Runs
  import opened Queries
  import opened Integrity
  import opened Gateways

  ghost predicate InRouteOf(h: History, routeId: string, name: string) {
    exists a: nat, p: nat :: routeId == RouteID(p) && name == ConsumerName(a) && SubKey(a, p) in h.approved
  }

  /** The application has a credential and a consumer, and the product's key-auth route lists it. */
  ghost predicate Served(creds: map<nat, Credential>, gw: Live, app: nat, product: nat) {
    app in creds && ConsumerName(app) in gw.consumers && KeyListed(gw, product, ConsumerName(app))
  }

  ghost predicate Provisioned(db: Db, gw: Live, h: History) {
    forall a: nat, p: nat ::
      ActiveIn(db.subs, a, p) && p in db.products && db.products[p].auth.KeyAuth? && p !in h.switched ==>
        Served(db.creds, gw, a, p)
  }

  ghost predicate OnlyApproved(db: Db, gw: Live, h: History) {
    && (forall a: nat, p: nat :: ActiveIn(db.subs, a, p) ==> SubKey(a, p) in h.approved)
    && (forall r, n :: r in gw.routes && !gw.routes[r].oauth && n in gw.routes[r].allowed ==> InRouteOf(h, r, n))
  }

  /** The application holds a sandbox key; or it is gone, never to return, and its
      consumer with it. */
  predicate Entitled(db: Db, consumers: map<string, Consumer>, app: nat) {
    || (app in db.creds && db.creds[app].sandboxKey != "")
    || (app < db.nextApp && app !in db.apps && ConsumerName(app) !in consumers)
  }

  ghost predicate SandboxListing(cfg: Config, db: Db, sandbox: Live) {
    && (forall r, n, a: nat :: r in sandbox.routes && n in sandbox.routes[r].allowed && n == ConsumerName(a) ==>
          Entitled(db, sandbox.consumers, a))
    && (!cfg.sandboxOn ==> sandbox.routes == map[])
  }

  ghost predicate Credentialed(db: Db, gw: Live) {
    forall a: nat :: ConsumerName(a) in gw.consumers ==> a in db.creds
  }

  ghost predicate Safe(cfg: Config, db: Db, gw: Live, sandbox: Live, h: History) {
    && Credentialed(db, gw)
    && Provisioned(db, gw, h)
    && OnlyApproved(db, gw, h)
    && SandboxListing(cfg, db, sandbox)
  }

  ghost predicate SafeWorld(cfg: Config, w: World, h: History) {
    Sound(w.db) && Safe(cfg, w.db, w.gw.live, w.sandbox.live, h)
  }

  // ---- single database writes

  /** A write that activates nothing, switches no product to key-auth behind the history's
      back and takes no credential away. */
  ghost predicate QuietWrite(db: Db, next: Db, h: History) {
    && (forall a: nat, p: nat :: ActiveIn(next.subs, a, p) ==> ActiveIn(db.subs, a, p) && p in db.products)
    && (forall p :: p in db.products && p in next.products && next.products[p].auth.KeyAuth? && p !in h.switched ==>
          db.products[p].auth.KeyAuth?)
    && (forall a :: a in db.creds ==>
          a in next.creds && (db.creds[a].sandboxKey != "" ==> next.creds[a].sandboxKey != ""))
    && db.nextApp <= next.nextApp
    && (forall a :: a in next.apps && a < db.nextApp ==> a in db.apps)
  }

  lemma QuietWriteSafe(cfg: Config, db: Db, next: Db, gw: Live, sandbox: Live, h: History)
    requires Safe(cfg, db, gw, sandbox, h) && QuietWrite(db, next, h)
    ensures Safe(cfg, next, gw, sandbox, h)
  {
    hide ActiveIn;
    hide InRouteOf;
    QuietWriteListing(cfg, db, next, sandbox, h);
  }

  lemma QuietWriteListing(cfg: Config, db: Db, next: Db, sandbox: Live, h: History)
    requires SandboxListing(cfg, db, sandbox) && QuietWrite(db, next, h)
    ensures SandboxListing(cfg, next, sandbox)
  {
    hide ActiveIn;
    forall r, n, a: nat | r in sandbox.routes && n in sandbox.routes[r].allowed && n == ConsumerName(a)
      ensures Entitled(next, sandbox.consumers, a)
    {
      assert Entitled(db, sandbox.consumers, a);
    }
  }

  lemma QuietCredentialWrites(db: Db, h: History, app: nat, key: string)
    requires Sound(db)
    ensures var r := db.GetOrCreateCredential(app, key); r.Ok? ==> QuietWrite(db, r.value, h)
    ensures var r := db.UpdateCredentialKey(app, key); r.Ok? ==> QuietWrite(db, r.value, h)
    ensures var r := db.UpdateSandboxKey(app, key); r.Ok? && key != "" ==> QuietWrite(db, r.value, h)
  {
  }

  lemma QuietApplicationWrites(db: Db, h: History, app: nat, clientId: string, team: nat)
    requires Sound(db)
    ensures var r := db.SetClientID(app, clientId); r.Ok? ==> QuietWrite(db, r.value, h)
    ensures QuietWrite(db, db.CreateApplication(team), h)
  {
  }

  lemma QuietPlanWrites(db: Db, h: History, id: nat, plan: Plan)
    requires Sound(db)
    ensures var r := db.CreatePlan(plan); r.Ok? ==> QuietWrite(db, r.value, h)
    ensures var r := db.UpdatePlan(id, plan); r.Ok? ==> QuietWrite(db, r.value, h)
  {
  }

  lemma QuietProductWrites(db: Db, h: History, id: nat, row: Product)
    requires Sound(db)
    ensures var r := db.CreateProduct(row); r.Ok? ==> QuietWrite(db, r.value, h)
    ensures var r := db.UpdateProduct(id, row);
            r.Ok? && (db.products[id].auth.OAuth2? && row.auth.KeyAuth? ==> id in h.switched) ==>
                QuietWrite(db, r.value, h)
    ensures var r := db.DeleteProduct(id); r.Ok? ==> QuietWrite(db, r.value, h)
  {
  }

  lemma QuietSubscriptionWrites(db: Db, h: History, app: nat, product: nat, plan: nat, gone: set<SubKey>)
    requires Sound(db)
    ensures var r := db.SaveSubscription(app, product, plan); r.Ok? ==> QuietWrite(db, r.value, h)
    ensures QuietWrite(db, db.DropSubscriptions(gone), h)
  {
  }

  lemma SetStatusSafe(cfg: Config, db: Db, gw: Live, sandbox: Live, h: History, id: nat, status: Status)
    requires Safe(cfg, db, gw, sandbox, h) && id in db.subIds && db.subIds[id] in db.subs
    requires status.Active? ==>
               var k := db.subIds[id];
               && k in h.approved
               && (k.product in db.products && db.products[k.product].auth.KeyAuth? ==>
                   Served(db.creds, gw, k.app, k.product))
    ensures var r := db.SetSubscriptionStatus(id, status); r.Ok? && Safe(cfg, r.value, gw, sandbox, h)
  {
    hide Served;
    hide InRouteOf;
    assert forall a: nat, r :: Entitled(db, r, a) <==> Entitled(db.SetSubscriptionStatus(id, status).value, r, a);
  }

  /** Dropping an application none of whose consumers is left. */
  lemma DeleteApplicationRowSafe(cfg: Config, db: Db, gw: Live, sandbox: Live, h: History, app: nat)
    requires Safe(cfg, db, gw, sandbox, h)
    requires forall p :: SubKey(app, p) !in db.subs
    requires app in db.creds ==> app < db.nextApp
    requires ConsumerName(app) !in gw.consumers
    requires app in db.creds && db.creds[app].sandboxKey != "" && cfg.sandboxOn ==>
               ConsumerName(app) !in sandbox.consumers
    ensures Safe(cfg, db.DeleteApplication(app), gw, sandbox, h)
  {
    hide InRouteOf;
    NamesAreInjective();
    var next := db.DeleteApplication(app);
    assert next.subs == db.subs;
    forall r, n, a: nat | r in sandbox.routes && n in sandbox.routes[r].allowed && n == ConsumerName(a)
      ensures Entitled(next, sandbox.consumers, a)
    {
      assert Entitled(db, sandbox.consumers, a);
    }
  }

  // ---- single gateway calls

  lemma EnsureConsumerSafe(cfg: Config, db: Db, gw: Live, sandbox: Live, h: History, app: nat, consumer: Consumer)
    requires Safe(cfg, db, gw, sandbox, h) && app in db.creds
    ensures Safe(cfg, db, gw.Effect(EnsureConsumer(ConsumerName(app), consumer)), sandbox, h)
  {
    hide ActiveIn;
    hide InRouteOf;
    hide SandboxListing;
    NamesAreInjective();
  }

  lemma EnsureSandboxConsumerSafe(cfg: Config, db: Db, gw: Live, sandbox: Live, h: History, app: nat,
                                  consumer: Consumer)
    requires Safe(cfg, db, gw, sandbox, h) && app in db.apps
    ensures Safe(cfg, db, gw, sandbox.Effect(EnsureConsumer(ConsumerName(app), consumer)), h)
  {
    hide Provisioned;
    hide OnlyApproved;
    NamesAreInjective();
  }

  lemma DeleteConsumerSafe(cfg: Config, db: Db, gw: Live, sandbox: Live, h: History, app: nat)
    requires Safe(cfg, db, gw, sandbox, h) && forall p :: SubKey(app, p) !in db.subs
    ensures Safe(cfg, db, gw.Effect(DeleteConsumer(ConsumerName(app))), sandbox, h)
  {
    hide InRouteOf;
    hide SandboxListing;
    NamesAreInjective();
  }

  lemma DeleteSandboxConsumerSafe(cfg: Config, db: Db, gw: Live, sandbox: Live, h: History, app: nat)
    requires Safe(cfg, db, gw, sandbox, h)
    ensures Safe(cfg, db, gw, sandbox.Effect(DeleteConsumer(ConsumerName(app))), h)
  {
    hide Provisioned;
    hide OnlyApproved;
  }

  lemma EnsureRouteSafe(cfg: Config, db: Db, gw: Live, sandbox: Live, h: History, product: nat, route: Route)
    requires Safe(cfg, db, gw, sandbox, h)
    requires product in db.products && db.products[product].auth.KeyAuth? ==>
               !route.oauth && forall a: nat :: ActiveIn(db.subs, a, product) && a in db.creds ==>
                   ConsumerName(a) in route.allowed
    requires !route.oauth ==> forall n :: n in route.allowed ==> InRouteOf(h, RouteID(product), n)
    ensures Safe(cfg, db, gw.Effect(EnsureRoute(RouteID(product), route)), sandbox, h)
  {
    NamesAreInjective();
  }

  lemma DeleteRouteSafe(cfg: Config, db: Db, gw: Live, sandbox: Live, h: History, product: nat)
    requires Safe(cfg, db, gw, sandbox, h)
    requires product in db.products && db.products[product].auth.KeyAuth? ==>
               forall a: nat :: ActiveIn(db.subs, a, product) ==> a !in db.creds
    ensures Safe(cfg, db, gw.Effect(DeleteRoute(RouteID(product))), sandbox, h)
  {
    NamesAreInjective();
  }

  lemma DeleteSandboxRouteSafe(cfg: Config, db: Db, gw: Live, sandbox: Live, h: History, product: nat)
    requires Safe(cfg, db, gw, sandbox, h)
    ensures Safe(cfg, db, gw, sandbox.Effect(DeleteRoute(RouteID(product))), h)
  {
  }

  lemma EnsureSandboxRouteSafe(cfg: Config, db: Db, gw: Live, sandbox: Live, h: History, product: nat, route: Route)
    requires Safe(cfg, db, gw, sandbox, h) && cfg.sandboxOn
    requires forall a: nat :: ConsumerName(a) in route.allowed ==> a in db.creds && db.creds[a].sandboxKey != ""
    ensures Safe(cfg, db, gw, sandbox.Effect(EnsureRoute(RouteID(product), route)), h)
  {
  }

  // ---- the protocol's helpers

  /** The allow-list built for a key-auth route: every active subscriber and every extra,
      and nobody else. */
  lemma AllowListMembers(db: Db, h: History, product: nat, extras: seq<string>)
    requires Sound(db)
    requires forall a: nat :: ActiveIn(db.subs, a, product) ==> SubKey(a, product) in h.approved
    requires forall e :: e in extras ==> InRouteOf(h, RouteID(product), e)
    ensures var allowed := WithExtras(db.ConsumersForProduct(product), extras);
            && (forall n :: n in allowed ==> InRouteOf(h, RouteID(product), n))
            && (forall a: nat :: ActiveIn(db.subs, a, product) && a in db.creds ==> ConsumerName(a) in allowed)
            && (forall e :: e in extras ==> e in allowed)
  {
    hide Sound;
    ConsumersForProductMembers(db, product);
    WithExtrasMembers(db.ConsumersForProduct(product), extras);
    forall n | n in WithExtras(db.ConsumersForProduct(product), extras) ensures InRouteOf(h, RouteID(product), n) {
      if n !in extras {
        var a: nat :| db.Active(a, product) && a in db.creds && n == ConsumerName(a);
        assert SubKey(a, product) in h.approved;
      }
    }
    forall a: nat | ActiveIn(db.subs, a, product) && a in db.creds
      ensures ConsumerName(a) in WithExtras(db.ConsumersForProduct(product), extras)
    {
      assert db.Active(a, product);
    }
  }

  lemma ReprovisionSafe(cfg: Config, w: World, h: History, product: nat, extras: seq<string>)
    requires SafeWorld(cfg, w, h)
    requires forall e :: e in extras && product in w.db.products && w.db.products[product].auth.KeyAuth? ==>
               InRouteOf(h, RouteID(product), e)
    ensures var s := ReprovisionRoute(cfg, w, product, extras);
            && SafeWorld(cfg, s.w, h)
            && (s.r.Ok? ==> product in w.db.products)
            && (s.r.Ok? && w.db.products[product].auth.KeyAuth? ==>
                forall e :: e in extras ==> KeyListed(s.w.gw.live, product, e))
  {
    hide Sound;
    hide InRouteOf;
    hide SandboxListing;
    hide Provisioned;
    hide Credentialed;
    hide Quieter;
    if product in w.db.products {
      var p := w.db.products[product];
      if p.auth.OAuth2? {
        var allowed := w.db.OAuthClientsForProduct(product) + NonEmpty(extras);
        EnsureRouteSafe(cfg, w.db, w.gw.live, w.sandbox.live, h, product,
                        Route(p.contextPath, p.upstream, Dedup(allowed), true));
        DeleteRouteSafe(cfg, w.db, w.gw.live, w.sandbox.live, h, product);
      } else {
        AllowListMembers(w.db, h, product, extras);
        var allowed := WithExtras(w.db.ConsumersForProduct(product), extras);
        if allowed == [] {
          DeleteRouteSafe(cfg, w.db, w.gw.live, w.sandbox.live, h, product);
        } else {
          EnsureRouteSafe(cfg, w.db, w.gw.live, w.sandbox.live, h, product,
                          Route(p.contextPath, p.upstream, allowed, false));
        }
      }
    }
  }

  lemma ReprovisionSandboxSafe(cfg: Config, w: World, h: History, product: nat, extras: seq<string>)
    requires SafeWorld(cfg, w, h)
    requires forall a: nat :: ConsumerName(a) in extras ==> a in w.db.creds && w.db.creds[a].sandboxKey != ""
    ensures SafeWorld(cfg, ReprovisionSandboxRoute(cfg, w, product, extras).w, h)
  {
    hide Sound;
    hide Safe;
    if product in w.db.products && cfg.sandboxOn {
      var p := w.db.products[product];
      SandboxConsumersForProductMembers(w.db, product);
      var names := w.db.SandboxConsumersForProduct(product);
      WithExtrasMembers(names, extras);
      NamesAreInjective();
      EnsureSandboxRouteSafe(cfg, w.db, w.gw.live, w.sandbox.live, h, product,
                             Route(p.contextPath, p.sandboxUpstream, WithExtras(names, extras), false));
      DeleteSandboxRouteSafe(cfg, w.db, w.gw.live, w.sandbox.live, h, product);
    }
  }

  lemma {:induction false} ReprovisionAllSafe(cfg: Config, w: World, h: History, products: seq<nat>)
    requires SafeWorld(cfg, w, h)
    ensures SafeWorld(cfg, ReprovisionAll(cfg, w, products).w, h)
    decreases |products|
  {
    hide SafeWorld;
    if products != [] {
      ReprovisionSafe(cfg, w, h, products[0], []);
      ReprovisionAllSafe(cfg, ReprovisionRoute(cfg, w, products[0], []).w, h, products[1..]);
    }
  }

  lemma {:induction false} ReprovisionAllSandboxSafe(cfg: Config, w: World, h: History, products: seq<nat>, app: nat)
    requires SafeWorld(cfg, w, h) && app in w.db.creds && w.db.creds[app].sandboxKey != ""
    ensures SafeWorld(cfg, ReprovisionAllSandbox(cfg, w, products, ConsumerName(app)).w, h)
    decreases |products|
  {
    hide SafeWorld;
    if products != [] {
      NamesAreInjective();
      ReprovisionSandboxSafe(cfg, w, h, products[0], [ConsumerName(app)]);
      ReprovisionAllSandboxSafe(cfg, ReprovisionSandboxRoute(cfg, w, products[0], [ConsumerName(app)]).w, h,
                                products[1..], app);
    }
  }

  lemma UnsubscribeSafe(cfg: Config, w: World, h: History, app: nat, product: nat)
    requires SafeWorld(cfg, w, h)
    ensures var s := Unsubscribe(cfg, w, app, product);
            && SafeWorld(cfg, s.w, h)
            && s.w.db.subs.Keys <= w.db.subs.Keys
            && (s.r.Ok? ==> SubKey(app, product) !in s.w.db.subs)
  {
    hide Sound;
    hide Safe;
    DropSubscriptionsSound(w.db, {SubKey(app, product)});
    QuietSubscriptionWrites(w.db, h, app, product, 0, {SubKey(app, product)});
    QuietWriteSafe(cfg, w.db, w.db.DeleteSubscription(app, product), w.gw.live, w.sandbox.live, h);
    var s1 := Write(w, Ok(w.db.DeleteSubscription(app, product)));
    if s1.r.Ok? {
      ReprovisionSafe(cfg, s1.w, h, product, []);
      var s2 := ReprovisionRoute(cfg, s1.w, product, []);
      ReprovisionSandboxSafe(cfg, s2.w, h, product, []);
    }
  }

  lemma {:induction false} UnsubscribeAllSafe(cfg: Config, w: World, h: History, app: nat, products: seq<nat>)
    requires SafeWorld(cfg, w, h)
    ensures var s := UnsubscribeAll(cfg, w, app, products);
            && SafeWorld(cfg, s.w, h)
            && s.w.db.subs.Keys <= w.db.subs.Keys
            && (s.r.Ok? ==> forall p :: p in products ==> SubKey(app, p) !in s.w.db.subs)
    decreases |products|
  {
    hide SafeWorld;
    hide Unsubscribe;
    if products != [] {
      UnsubscribeSafe(cfg, w, h, app, products[0]);
      UnsubscribeAllSafe(cfg, Unsubscribe(cfg, w, app, products[0]).w, h, app, products[1..]);
    }
  }

  /** Once an application has no subscription, taking its consumers away is safe, and it
      leaves none behind that a sandbox route could list. */
  lemma RemoveConsumersSafe(cfg: Config, w: World, h: History, app: nat)
    requires SafeWorld(cfg, w, h)
    requires forall p :: SubKey(app, p) !in w.db.subs
    ensures var s := RemoveConsumers(cfg, w, app);
            && SafeWorld(cfg, s.w, h)
            && (s.r.Ok? ==> ConsumerName(app) !in s.w.gw.live.consumers)
            && (s.r.Ok? && app in w.db.creds && w.db.creds[app].sandboxKey != "" && cfg.sandboxOn ==>
                  ConsumerName(app) !in s.w.sandbox.live.consumers)
  {
    hide Sound;
    hide Provisioned;
    hide OnlyApproved;
    hide SandboxListing;
    var gw' := w.gw.live.Effect(DeleteConsumer(ConsumerName(app)));
    DeleteConsumerSafe(cfg, w.db, w.gw.live, w.sandbox.live, h, app);
    DeleteSandboxConsumerSafe(cfg, w.db, gw', w.sandbox.live, h, app);
  }

  lemma DeleteApplicationSafe(cfg: Config, w: World, h: History, app: nat)
    requires SafeWorld(cfg, w, h)
    ensures var s := DeleteApplication(cfg, w, app); SafeWorld(cfg, s.w, h) && (s.r.Ok? ==> app !in s.w.db.apps)
  {
    hide Safe;
    hide Sound;
    hide UnsubscribeAll;
    hide RemoveConsumers;
    var products := w.db.SubscriptionsForApp(app);
    var s1 := Read(w, Ok(products));
    if s1.r.Ok? {
      SubscriptionsForAppMembers(w.db, app);
      UnsubscribeAllSafe(cfg, s1.w, h, app, products);
      var s2 := UnsubscribeAll(cfg, s1.w, app, products);
      if s2.r.Ok? {
        RemoveConsumersSafe(cfg, s2.w, h, app);
        var s3 := RemoveConsumers(cfg, s2.w, app);
        if s3.r.Ok? {
          DeleteApplicationSound(s3.w.db, app);
          CredentialIds(s3.w.db, app);
          DeleteApplicationRowSafe(cfg, s3.w.db, s3.w.gw.live, s3.w.sandbox.live, h, app);
        }
      }
    }
  }

  // ---- the operations

  lemma GrantSandboxSafe(cfg: Config, w: World, h: History, app: nat, product: nat)
    requires SafeWorld(cfg, w, h)
    ensures SafeWorld(cfg, GrantSandbox(cfg, w, app, product).w, h)
  {
    hide Sound;
    hide Safe;
    NamesAreInjective();
    var key := Read(w, w.db.GetSandboxKey(app));
    if key.r.Ok? && key.r.value != "" {
      ReprovisionSandboxSafe(cfg, key.w, h, product, [ConsumerName(app)]);
    }
  }

  lemma ActivateKeyAuthSafe(cfg: Config, w: World, h: History, id: nat, rec: SubRecord, newKey: string)
    requires SafeWorld(cfg, w, h)
    requires w.db.GetSubscription(id) == Ok(rec) && SubKey(rec.app, rec.product) in h.approved
    requires rec.product in w.db.products && w.db.products[rec.product].auth.KeyAuth?
    ensures SafeWorld(cfg, ActivateKeyAuth(cfg, w, id, rec, newKey).w, h)
  {
    hide Sound;
    hide Safe;
    hide Quieter;
    hide Write;
    hide ListAndActivate;
    hide Db.GetOrCreateCredential;
    var s1 := Read(w, w.db.GetPlan(rec.plan));
    if s1.r.Ok? {
      NewCredentialSafe(cfg, w.db, w.gw.live, w.sandbox.live, h, rec.app, newKey);
      var s2 := Write(s1.w, s1.w.db.GetOrCreateCredential(rec.app, newKey));
      WriteCases(s1.w, s1.w.db.GetOrCreateCredential(rec.app, newKey));
      if s2.r.Ok? {
        CredentialStored(w.db, rec.app, newKey);
        var consumer := Consumer(s2.w.db.creds[rec.app].key, Limit(s1.r.value));
        EnsureConsumerSafe(cfg, s2.w.db, s2.w.gw.live, s2.w.sandbox.live, h, rec.app, consumer);
        var s3 := OnGateway(s2.w, EnsureConsumer(ConsumerName(rec.app), consumer));
        if s3.r.Ok? {
          ListAndActivateSafe(cfg, s3.w, h, id, rec);
        }
      }
    }
  }

  lemma CredentialStored(db: Db, app: nat, newKey: string)
    ensures var r := db.GetOrCreateCredential(app, newKey);
            r.Ok? ==> app in r.value.creds && r.value == db.(creds := r.value.creds)
  {
  }

  lemma ListAndActivateSafe(cfg: Config, w: World, h: History, id: nat, rec: SubRecord)
    requires SafeWorld(cfg, w, h)
    requires w.db.GetSubscription(id) == Ok(rec) && SubKey(rec.app, rec.product) in h.approved
    requires rec.product in w.db.products && w.db.products[rec.product].auth.KeyAuth?
    requires rec.app in w.db.creds && ConsumerName(rec.app) in w.gw.live.consumers
    ensures SafeWorld(cfg, ListAndActivate(cfg, w, id, rec).w, h)
  {
    hide Sound;
    hide Safe;
    hide GrantSandbox;
    assert InRouteOf(h, RouteID(rec.product), ConsumerName(rec.app));
    ReprovisionSafe(cfg, w, h, rec.product, [ConsumerName(rec.app)]);
    var s1 := ReprovisionRoute(cfg, w, rec.product, [ConsumerName(rec.app)]);
    if s1.r.Ok? {
      SetStatusSound(s1.w.db, id, Active);
      SetStatusSafe(cfg, s1.w.db, s1.w.gw.live, s1.w.sandbox.live, h, id, Active);
      var s2 := Write(s1.w, s1.w.db.SetSubscriptionStatus(id, Active));
      GrantSandboxSafe(cfg, s2.w, h, rec.app, rec.product);
    }
  }

  lemma ActivateOAuthSafe(cfg: Config, w: World, h: History, id: nat, rec: SubRecord)
    requires SafeWorld(cfg, w, h)
    requires w.db.GetSubscription(id) == Ok(rec) && SubKey(rec.app, rec.product) in h.approved
    requires rec.product in w.db.products && w.db.products[rec.product].auth.OAuth2?
    ensures SafeWorld(cfg, ActivateOAuth(cfg, w, id, rec).w, h)
  {
    hide Sound;
    hide Safe;
    hide Quieter;
    hide Write;
    hide ReprovisionRoute;
    var cid := Read(w, w.db.GetClientID(rec.app));
    var extras := [if cid.r.Ok? then cid.r.value else ""];
    ReprovisionSafe(cfg, cid.w, h, rec.product, extras);
    var s1 := ReprovisionRoute(cfg, cid.w, rec.product, extras);
    if s1.r.Ok? {
      SetStatusSound(s1.w.db, id, Active);
      SetStatusSafe(cfg, s1.w.db, s1.w.gw.live, s1.w.sandbox.live, h, id, Active);
      WriteCases(s1.w, s1.w.db.SetSubscriptionStatus(id, Active));
    }
  }

  lemma BillingSafe(cfg: Config, w: World, h: History, app: nat, sub: nat, planId: nat)
    requires SafeWorld(cfg, w, h)
    ensures SafeWorld(cfg, SubscriptionActivated(w, app, sub, planId).w, h)
  {
    hide Sound;
    hide Safe;
    hide Quieter;
    hide SameOutsideLedger;
    hide IssueInvoice;
    var s1 := Read(w, w.db.GetPlan(planId));
    var s2 := Read(s1.w, Ok(s1.w.db.PendingInvoiceExists(sub)));
    if s1.r.Ok? {
      IssueInvoiceSafe(cfg, s2.w, h, app, sub, s1.r.value);
    }
  }

  lemma IssueInvoiceSafe(cfg: Config, w: World, h: History, app: nat, sub: nat, plan: Plan)
    requires SafeWorld(cfg, w, h)
    ensures SafeWorld(cfg, IssueInvoice(w, app, sub, plan).w, h)
  {
    hide Sound;
    hide Safe;
    hide Quieter;
    hide SameOutsideLedger;
    var s1 := Read(w, w.db.TeamForApp(app));
    if s1.r.Ok? {
      var accounted := w.db.EnsureAccount(s1.r.value);
      BillingSound(w.db, 0, s1.r.value, sub, plan);
      LedgerSafe(cfg, w.db, accounted, w.gw.live, w.sandbox.live, h);
      BillingSound(accounted, accounted.accounts[s1.r.value], s1.r.value, sub, plan);
      var r := accounted.CreateInvoice(accounted.accounts[s1.r.value], s1.r.value, sub, plan);
      if r.Ok? {
        LedgerSafe(cfg, accounted, r.value, w.gw.live, w.sandbox.live, h);
      }
    }
  }

  lemma LedgerSafe(cfg: Config, db: Db, next: Db, gw: Live, sandbox: Live, h: History)
    requires Safe(cfg, db, gw, sandbox, h) && Sound(db) && SameOutsideLedger(db, next)
    ensures Safe(cfg, next, gw, sandbox, h)
  {
    hide Safe;
    QuietWriteSafe(cfg, db, next, gw, sandbox, h);
  }

  lemma ApproveSafe(cfg: Config, w: World, h: History, id: nat, newKey: string)
    requires SafeWorld(cfg, w, h)
    requires Approvable(w.db, id) ==> w.db.subIds[id] in h.approved
    ensures SafeWorld(cfg, Approve(cfg, w, id, newKey).w, h)
  {
    hide Sound;
    hide Safe;
    hide ActivateKeyAuth;
    hide ActivateOAuth;
    hide SubscriptionActivated;
    var s1 := Read(w, w.db.GetSubscription(id));
    if s1.r.Ok? && !s1.r.value.status.Rejected? {
      var rec := s1.r.value;
      var s2 := Read(s1.w, s1.w.db.GetProduct(rec.product));
      if s2.r.Ok? {
        if s2.r.value.auth.OAuth2? {
          ActivateOAuthSafe(cfg, s2.w, h, id, rec);
          BillingSafe(cfg, ActivateOAuth(cfg, s2.w, id, rec).w, h, rec.app, id, rec.plan);
        } else {
          ActivateKeyAuthSafe(cfg, s2.w, h, id, rec, newKey);
          BillingSafe(cfg, ActivateKeyAuth(cfg, s2.w, id, rec, newKey).w, h, rec.app, id, rec.plan);
        }
      }
    }
  }

  lemma RejectSafe(cfg: Config, w: World, h: History, id: nat)
    requires SafeWorld(cfg, w, h)
    ensures SafeWorld(cfg, Reject(cfg, w, id).w, h)
  {
    hide Sound;
    hide Safe;
    hide ReprovisionRoute;
    hide ReprovisionSandboxRoute;
    var s1 := Read(w, w.db.GetSubscription(id));
    if s1.r.Ok? && !s1.r.value.status.Rejected? {
      var rec := s1.r.value;
      SetStatusSound(w.db, id, Rejected);
      SetStatusSafe(cfg, w.db, w.gw.live, w.sandbox.live, h, id, Rejected);
      var s2 := Write(s1.w, s1.w.db.SetSubscriptionStatus(id, Rejected));
      if s2.r.Ok? {
        ReprovisionSafe(cfg, s2.w, h, rec.product, []);
        var s3 := ReprovisionRoute(cfg, s2.w, rec.product, []);
        ReprovisionSandboxSafe(cfg, s3.w, h, rec.product, []);
      }
    }
  }

  lemma RecordRequestSafe(cfg: Config, w: World, h: History, auth: Auth, app: nat, product: nat, plan: nat,
                          newKey: string)
    requires SafeWorld(cfg, w, h)
    ensures SafeWorld(cfg, RecordRequest(w, auth, app, product, plan, newKey).w, h)
  {
    hide Sound;
    hide Safe;
    hide QuietWrite;
    hide Db.SaveSubscription;
    SaveSubscriptionSafe(cfg, w.db, w.gw.live, w.sandbox.live, h, app, product, plan);
    NewCredentialSafe(cfg, w.db, w.gw.live, w.sandbox.live, h, app, newKey);
    var r := w.db.GetOrCreateCredential(app, newKey);
    if r.Ok? {
      SaveSubscriptionSafe(cfg, r.value, w.gw.live, w.sandbox.live, h, app, product, plan);
    }
  }

  lemma SubscribeSafe(cfg: Config, w: World, h: History, app: nat, product: nat, plan: nat, newKey: string)
    requires SafeWorld(cfg, w, h)
    ensures SafeWorld(cfg, Subscribe(w, app, product, plan, newKey).w, h)
  {
    hide Sound;
    hide Safe;
    hide RecordRequest;
    var s1 := Read(w, w.db.GetProduct(product));
    if s1.r.Ok? {
      var s2 := Read(s1.w, s1.w.db.GetPlan(plan));
      var s3 := Read(s2.w, Ok(s2.w.db.SubscriptionStatus(app, product)));
      RecordRequestSafe(cfg, s3.w, h, s1.r.value.auth, app, product, plan, newKey);
    }
  }

  lemma SaveSubscriptionSafe(cfg: Config, db: Db, gw: Live, sandbox: Live, h: History, app: nat, product: nat,
                             plan: nat)
    requires Sound(db) && Safe(cfg, db, gw, sandbox, h)
    ensures var r := db.SaveSubscription(app, product, plan);
            r.Ok? ==> Sound(r.value) && Safe(cfg, r.value, gw, sandbox, h)
  {
    hide Sound;
    hide Safe;
    hide QuietWrite;
    var r := db.SaveSubscription(app, product, plan);
    if r.Ok? {
      SaveSubscriptionSound(db, app, product, plan);
      QuietSubscriptionWrites(db, h, app, product, plan, {});
      QuietWriteSafe(cfg, db, r.value, gw, sandbox, h);
    }
  }

  lemma NewCredentialSafe(cfg: Config, db: Db, gw: Live, sandbox: Live, h: History, app: nat, newKey: string)
    requires Sound(db) && Safe(cfg, db, gw, sandbox, h)
    ensures var r := db.GetOrCreateCredential(app, newKey);
            r.Ok? ==> Sound(r.value) && Safe(cfg, r.value, gw, sandbox, h)
  {
    hide Sound;
    hide Safe;
    hide QuietWrite;
    var r := db.GetOrCreateCredential(app, newKey);
    if r.Ok? {
      CredentialsSound(db, app, newKey);
      QuietCredentialWrites(db, h, app, newKey);
      QuietWriteSafe(cfg, db, r.value, gw, sandbox, h);
    }
  }

  lemma SetOIDCClientIDSafe(cfg: Config, w: World, h: History, app: nat, clientId: string)
    requires SafeWorld(cfg, w, h)
    ensures SafeWorld(cfg, SetOIDCClientID(cfg, w, app, clientId).w, h)
  {
    hide Sound;
    hide Safe;
    hide QuietWrite;
    hide ReprovisionAll;
    var r := w.db.SetClientID(app, clientId);
    if r.Ok? {
      ApplicationsSound(w.db, app, 0, clientId);
      QuietApplicationWrites(w.db, h, app, clientId, 0);
      QuietWriteSafe(cfg, w.db, r.value, w.gw.live, w.sandbox.live, h);
      var s1 := Write(w, r);
      var s2 := Read(s1.w, Ok(s1.w.db.OAuthProductsForApp(app)));
      if s1.r.Ok? && s2.r.Ok? {
        ReprovisionAllSafe(cfg, s2.w, h, s2.r.value);
      }
    }
  }

  lemma RotateKeySafe(cfg: Config, w: World, h: History, app: nat, newKey: string)
    requires SafeWorld(cfg, w, h)
    ensures SafeWorld(cfg, RotateKey(w, app, newKey).w, h)
  {
    hide Sound;
    hide Safe;
    hide QuietWrite;
    var s1 := Read(w, w.db.GetCredential(app));
    var s2 := Read(s1.w, s1.w.db.ActivePlanForApp(app));
    if s1.r.Ok? && s2.r.Ok? {
      var consumer := Consumer(newKey, Limit(s2.r.value));
      EnsureConsumerSafe(cfg, w.db, w.gw.live, w.sandbox.live, h, app, consumer);
      CredentialsSound(w.db, app, newKey);
      QuietCredentialWrites(w.db, h, app, newKey);
      QuietWriteSafe(cfg, w.db, w.db.UpdateCredentialKey(app, newKey).value,
                     w.gw.live.Effect(EnsureConsumer(ConsumerName(app), consumer)), w.sandbox.live, h);
    }
  }

  lemma RotateSandboxKeySafe(cfg: Config, w: World, h: History, app: nat, newKey: string)
    requires SafeWorld(cfg, w, h) && newKey != ""
    ensures SafeWorld(cfg, RotateSandboxKey(cfg, w, app, newKey).w, h)
  {
    hide Sound;
    hide Safe;
    hide QuietWrite;
    var s1 := Read(w, w.db.GetCredential(app));
    var s2 := Read(s1.w, s1.w.db.GetSandboxKey(app));
    var s3 := Read(s2.w, s2.w.db.ActivePlanForApp(app));
    if s1.r.Ok? && s2.r.Ok? && s3.r.Ok? {
      SandboxKeyInstalledSafe(cfg, w.db, w.gw.live, w.sandbox.live, h, app, newKey, Limit(s3.r.value));
    }
  }

  /** Writing a sandbox key to the gateway consumer, and then to the database. */
  lemma SandboxKeyInstalledSafe(cfg: Config, db: Db, gw: Live, sandbox: Live, h: History, app: nat, key: string,
                                limit: RateLimit)
    requires Sound(db) && Safe(cfg, db, gw, sandbox, h) && app in db.creds && key != ""
    ensures var installed := sandbox.Effect(EnsureConsumer(ConsumerName(app), Consumer(key, limit)));
            var r := db.UpdateSandboxKey(app, key);
            && Safe(cfg, db, gw, installed, h)
            && r.Ok? && Sound(r.value) && Safe(cfg, r.value, gw, installed, h)
  {
    hide Sound;
    hide Safe;
    hide QuietWrite;
    CredentialIds(db, app);
    EnsureSandboxConsumerSafe(cfg, db, gw, sandbox, h, app, Consumer(key, limit));
    CredentialsSound(db, app, key);
    QuietCredentialWrites(db, h, app, key);
    QuietWriteSafe(cfg, db, db.UpdateSandboxKey(app, key).value, gw,
                   sandbox.Effect(EnsureConsumer(ConsumerName(app), Consumer(key, limit))), h);
  }

  lemma EnableSandboxSafe(cfg: Config, w: World, h: History, app: nat, newKey: string)
    requires SafeWorld(cfg, w, h) && newKey != ""
    ensures SafeWorld(cfg, EnableSandbox(cfg, w, app, newKey).w, h)
  {
    hide Sound;
    hide Safe;
    hide ProvisionSandbox;
    var s1 := Read(w, w.db.GetCredential(app));
    var s2 := Read(s1.w, s1.w.db.ActivePlanForApp(app));
    var s3 := Read(s2.w, Ok(s2.w.db.SandboxProductsForApp(app)));
    if s1.r.Ok? && s2.r.Ok? && s3.r.Ok? {
      ProvisionSandboxSafe(cfg, s3.w, h, app, s2.r.value, s3.r.value, newKey);
    }
  }

  lemma ProvisionSandboxSafe(cfg: Config, w: World, h: History, app: nat, plan: Plan, products: seq<nat>,
                             newKey: string)
    requires SafeWorld(cfg, w, h) && newKey != "" && app in w.db.creds
    ensures SafeWorld(cfg, ProvisionSandbox(cfg, w, app, plan, products, newKey).w, h)
  {
    hide Sound;
    hide Safe;
    hide Quieter;
    hide Write;
    hide Db.UpdateSandboxKey;
    hide ReprovisionAllSandbox;
    var s1 := Read(w, w.db.GetSandboxKey(app));
    if s1.r.Ok? {
      var key := if s1.r.value == "" then newKey else s1.r.value;
      SandboxKeyInstalledSafe(cfg, w.db, w.gw.live, w.sandbox.live, h, app, key, Limit(plan));
      SandboxKeyStored(w.db, app, key);
      var s2 := OnSandbox(s1.w, EnsureConsumer(ConsumerName(app), Consumer(key, Limit(plan))));
      var s3 := Write(s2.w, s2.w.db.UpdateSandboxKey(app, key));
      WriteCases(s2.w, s2.w.db.UpdateSandboxKey(app, key));
      if s2.r.Ok? && s3.r.Ok? {
        ReprovisionAllSandboxSafe(cfg, s3.w, h, products, app);
      }
    }
  }

  lemma SandboxKeyStored(db: Db, app: nat, key: string)
    requires app in db.creds
    ensures var r := db.UpdateSandboxKey(app, key);
            r.Ok? && app in r.value.creds && r.value.creds[app].sandboxKey == key
  {
  }

  lemma {:induction false} EnsureAllSafe(cfg: Config, w: World, h: History, consumers: seq<PlanConsumer>, plan: Plan)
    requires SafeWorld(cfg, w, h)
    requires forall c :: c in consumers ==> c.app in w.db.creds
    ensures SafeWorld(cfg, EnsureAll(w, consumers, plan).w, h)
    decreases |consumers|
  {
    hide Sound;
    hide Safe;
    if consumers != [] {
      var c := consumers[0];
      EnsureConsumerSafe(cfg, w.db, w.gw.live, w.sandbox.live, h, c.app, Consumer(c.key, Limit(plan)));
      var s := OnGateway(w, EnsureConsumer(ConsumerName(c.app), Consumer(c.key, Limit(plan))));
      EnsureAllSafe(cfg, s.w, h, consumers[1..], plan);
    }
  }

  lemma {:induction false} EnsureAllSandboxSafe(cfg: Config, w: World, h: History, consumers: seq<PlanConsumer>,
                                                plan: Plan)
    requires SafeWorld(cfg, w, h)
    requires forall c :: c in consumers ==> c.app in w.db.creds
    ensures SafeWorld(cfg, EnsureAllSandbox(w, consumers, plan).w, h)
    decreases |consumers|
  {
    hide Sound;
    hide Safe;
    if consumers != [] {
      var c := consumers[0];
      CredentialIds(w.db, c.app);
      EnsureSandboxConsumerSafe(cfg, w.db, w.gw.live, w.sandbox.live, h, c.app, Consumer(c.key, Limit(plan)));
      var s := OnSandbox(w, EnsureConsumer(ConsumerName(c.app), Consumer(c.key, Limit(plan))));
      EnsureAllSandboxSafe(cfg, s.w, h, consumers[1..], plan);
    }
  }

  lemma ReprovisionPlanSafe(cfg: Config, w: World, h: History, id: nat)
    requires SafeWorld(cfg, w, h)
    ensures SafeWorld(cfg, ReprovisionPlan(cfg, w, id).w, h)
  {
    hide SafeWorld;
    hide EnsureAll;
    hide EnsureAllSandbox;
    PlanConsumersMembers(w.db, id);
    MoreFaultsConsumed(cfg, w, h);
    var s1 := Read(w, w.db.GetPlan(id));
    MoreFaultsConsumed(cfg, s1.w, h);
    var s2 := Read(s1.w, Ok(s1.w.db.ConsumersForPlan(id)));
    if s1.r.Ok? && s2.r.Ok? {
      EnsureAllSafe(cfg, s2.w, h, s2.r.value, s1.r.value);
      var s3 := EnsureAll(s2.w, s2.r.value, s1.r.value);
      MoreFaultsConsumed(cfg, s3.w, h);
      var s4 := Read(s3.w, Ok(s3.w.db.SandboxConsumersForPlan(id)));
      if s3.r.Ok? && s4.r.Ok? {
        EnsureAllSandboxSafe(cfg, s4.w, h, s4.r.value, s1.r.value);
      }
    }
  }

  lemma MoreFaultsConsumed(cfg: Config, w: World, h: History)
    ensures SafeWorld(cfg, Tick(w), h) <==> SafeWorld(cfg, w, h)
  {
  }

  lemma UpdatePlanSafe(cfg: Config, w: World, h: History, id: nat, plan: Plan)
    requires SafeWorld(cfg, w, h)
    ensures SafeWorld(cfg, UpdatePlan(cfg, w, id, plan).w, h)
  {
    hide Sound;
    hide Safe;
    hide QuietWrite;
    hide ReprovisionPlan;
    var s1 := Read(w, w.db.GetPlan(id));
    var s2 := Write(s1.w, s1.w.db.UpdatePlan(id, plan));
    if s1.r.Ok? && s2.r.Ok? {
      PlansSound(w.db, id, plan);
      QuietPlanWrites(w.db, h, id, plan);
      QuietWriteSafe(cfg, w.db, s2.w.db, w.gw.live, w.sandbox.live, h);
      ReprovisionPlanSafe(cfg, s2.w, h, id);
    }
  }

  lemma CreateProductSafe(cfg: Config, w: World, h: History, draft: Draft)
    requires SafeWorld(cfg, w, h)
    ensures SafeWorld(cfg, CreateProduct(w, draft).w, h)
  {
    hide Sound;
    hide Safe;
    hide QuietWrite;
    var r := w.db.CreateProduct(draft.Row());
    if r.Ok? {
      ProductsSound(w.db, 0, draft.Row());
      QuietProductWrites(w.db, h, 0, draft.Row());
      QuietWriteSafe(cfg, w.db, r.value, w.gw.live, w.sandbox.live, h);
    }
  }

  lemma ReprovisionIfChangedSafe(cfg: Config, w: World, h: History, id: nat, prior: Product, updated: Product,
                                 loaded: Option<nat>)
    requires SafeWorld(cfg, w, h)
    ensures SafeWorld(cfg, ReprovisionIfChanged(cfg, w, id, prior, updated, loaded).w, h)
  {
    hide Sound;
    hide Safe;
    hide ReprovisionRoute;
    ReprovisionSafe(cfg, w, h, id, []);
    ReprovisionSafe(cfg, Tick(w), h, id, []);
  }

  lemma RebuildEditedSafe(cfg: Config, w: World, h: History, id: nat, e: Edit)
    requires SafeWorld(cfg, w, h)
    ensures SafeWorld(cfg, RebuildEdited(cfg, w, id, e).w, h)
  {
    hide Sound;
    hide Safe;
    hide ReprovisionIfChanged;
    var s1 := if e.updated.icon != "upload" then Write(w, Ok(w.db)) else Return(w, ());
    ReprovisionIfChangedSafe(cfg, s1.w, h, id, e.prior, e.updated, e.loaded);
  }

  /** What a row update that went through left behind, and that one that did not changed nothing. */
  lemma EditRowCases(w: World, id: nat, draft: Draft)
    ensures var s := EditRow(w, id, draft);
            if s.r.Ok? then
              && id in w.db.products && w.db.UpdateProduct(id, draft.Row()) == Ok(s.w.db)
              && s.w.db == w.db.(products := w.db.products[id := draft.Row()])
              && s.r.value.prior == w.db.products[id] && s.r.value.updated == draft.Row()
              && (s.r.value.loaded.Some? ==> s.r.value.loaded.value == w.db.CountActiveSubscriptions(id))
            else s.w.db == w.db
  {
    hide Quieter;
    hide PathGuard;
    hide MigrationGuard;
    hide Db.UniqueError;
    hide Db.CountActiveSubscriptions;
  }

  lemma EditRowSafe(cfg: Config, w: World, h: History, id: nat, draft: Draft)
    requires SafeWorld(cfg, w, h)
    requires SwitchesBack(w, id, draft) ==> id in h.switched
    ensures SafeWorld(cfg, EditRow(w, id, draft).w, h)
  {
    hide Sound;
    hide Safe;
    hide QuietWrite;
    hide EditRow;
    hide Db.UpdateProduct;
    EditRowCases(w, id, draft);
    var s := EditRow(w, id, draft);
    if s.r.Ok? {
      ProductsSound(w.db, id, draft.Row());
      QuietProductWrites(w.db, h, id, draft.Row());
      QuietWriteSafe(cfg, w.db, s.w.db, w.gw.live, w.sandbox.live, h);
    }
  }

  lemma UpdateProductSafe(cfg: Config, w: World, h: History, id: nat, draft: Draft)
    requires SafeWorld(cfg, w, h)
    requires SwitchesBack(w, id, draft) ==> id in h.switched
    ensures SafeWorld(cfg, UpdateProduct(cfg, w, id, draft).w, h)
  {
    hide Sound;
    hide Safe;
    hide SwitchesBack;
    hide EditRow;
    hide RebuildEdited;
    hide ReprovisionSandboxRoute;
    EditRowSafe(cfg, w, h, id, draft);
    var s1 := EditRow(w, id, draft);
    if s1.r.Ok? {
      RebuildEditedSafe(cfg, s1.w, h, id, s1.r.value);
      ReprovisionSandboxSafe(cfg, RebuildEdited(cfg, s1.w, id, s1.r.value).w, h, id, []);
    }
  }

  // ---- switching a product back to key-auth

  /** A key-auth route that was rebuilt lists exactly the active subscribers with a
      credential; one that was not is as it was. */
  lemma RebuiltKeyRoute(cfg: Config, w: World, product: nat, app: nat)
    requires Sound(w.db) && product in w.db.products && w.db.products[product].auth.KeyAuth?
    requires ActiveIn(w.db.subs, app, product)
    ensures var s := ReprovisionRoute(cfg, w, product, []);
            if s.r.Ok? then KeyListed(s.w.gw.live, product, ConsumerName(app)) <==> app in w.db.creds
            else s.w.gw.live == w.gw.live
  {
    hide Sound;
    hide Quieter;
    ConsumersForProductMembers(w.db, product);
    NamesAreInjective();
    assert WithExtras(w.db.ConsumersForProduct(product), []) == w.db.ConsumersForProduct(product);
    if app in w.db.creds {
      assert w.db.Active(app, product);
      assert ConsumerName(app) in w.db.ConsumersForProduct(product);
    }
  }

  lemma RebuiltSwitch(cfg: Config, w: World, id: nat, e: Edit, app: nat)
    requires Sound(w.db) && id in w.db.products && w.db.products[id] == e.updated
    requires e.prior.auth.OAuth2? && e.updated.auth.KeyAuth? && ActiveIn(w.db.subs, app, id)
    requires e.loaded.Some? ==> e.loaded.value == w.db.CountActiveSubscriptions(id)
    ensures var s := RebuildEdited(cfg, w, id, e);
            if s.r.Ok? then KeyListed(s.w.gw.live, id, ConsumerName(app)) <==> app in w.db.creds
            else s.w.gw.live == w.gw.live
  {
    hide Sound;
    hide Quieter;
    hide KeyListed;
    hide ReprovisionRoute;
    hide Db.CountActiveSubscriptions;
    assert w.db.Active(app, id);
    CountIsZero(w.db, id);
    var s1 := if e.updated.icon != "upload" then Write(w, Ok(w.db)) else Return(w, ());
    if s1.r.Ok? {
      RebuiltKeyRoute(cfg, s1.w, id, app);
      RebuiltKeyRoute(cfg, Tick(s1.w), id, app);
    }
  }

  /** Whatever fails, after a switch back to key-auth an active subscriber is provisioned
      exactly if the switch did not strand it. */
  lemma SwitchProvisionsExactly(cfg: Config, w: World, id: nat, draft: Draft, app: nat)
    requires Sound(w.db) && SwitchesBack(w, id, draft) && ActiveIn(w.db.subs, app, id)
    ensures var end := UpdateProduct(cfg, w, id, draft).w;
            && ActiveIn(end.db.subs, app, id) && end.db.products == w.db.products[id := draft.Row()]
            && (Served(end.db.creds, end.gw.live, app, id) <==> !Strands(cfg, w, id, draft, app))
  {
    hide Sound;
    hide Quieter;
    hide KeyListed;
    hide EditRow;
    hide RebuildEdited;
    hide ReprovisionSandboxRoute;
    hide Db.CountActiveSubscriptions;
    hide Db.UpdateProduct;
    EditRowCases(w, id, draft);
    ProductsSound(w.db, id, draft.Row());
    var s1 := EditRow(w, id, draft);
    SameCount(w.db, s1.w.db, id);
    RebuiltSwitch(cfg, s1.w, id, s1.r.value, app);
  }

  lemma SameCount(db: Db, next: Db, id: nat)
    requires db.subs == next.subs && db.nextApp == next.nextApp
    ensures db.CountActiveSubscriptions(id) == next.CountActiveSubscriptions(id)
  {
    SameActiveRows(db, next, id, db.nextApp);
  }

  lemma {:induction false} SameActiveRows(db: Db, next: Db, id: nat, n: nat)
    requires db.subs == next.subs
    ensures Collect(n, db.ActiveRow(id)) == Collect(n, next.ActiveRow(id))
  {
    if n > 0 {
      SameActiveRows(db, next, id, n - 1);
    }
  }

  /** An edit keeps the invariants, and a switch that strands nobody keeps its product
      under them. */
  lemma EditProductSafe(cfg: Config, w: World, h: History, id: nat, draft: Draft)
    requires SafeWorld(cfg, w, h)
    requires SwitchesBack(w, id, draft) && (exists app: nat :: Strands(cfg, w, id, draft, app)) ==> id in h.switched
    ensures SafeWorld(cfg, UpdateProduct(cfg, w, id, draft).w, h)
  {
    hide Sound;
    hide Safe;
    hide UpdateProduct;
    hide SwitchesBack;
    hide Strands;
    if SwitchesBack(w, id, draft) && id !in h.switched {
      var h' := h.(switched := h.switched + {id});
      var end := UpdateProduct(cfg, w, id, draft).w;
      MoreHistoryStaysSafe(cfg, w, h, h');
      UpdateProductSafe(cfg, w, h', id, draft);
      EditKeepsSubscriptions(cfg, w, id, draft);
      forall app: nat | ActiveIn(end.db.subs, app, id) ensures Served(end.db.creds, end.gw.live, app, id) {
        SwitchProvisionsExactly(cfg, w, id, draft, app);
      }
      OneProductBack(cfg, end, h, id);
    } else {
      UpdateProductSafe(cfg, w, h, id, draft);
    }
  }

  lemma EditKeepsSubscriptions(cfg: Config, w: World, id: nat, draft: Draft)
    ensures UpdateProduct(cfg, w, id, draft).w.db.subs == w.db.subs
  {
    hide Quieter;
    hide EditRow;
    hide RebuildEdited;
    hide ReprovisionSandboxRoute;
    EditRowCases(w, id, draft);
  }

  lemma OneProductBack(cfg: Config, w: World, h: History, id: nat)
    requires SafeWorld(cfg, w, h.(switched := h.switched + {id}))
    requires forall app: nat :: ActiveIn(w.db.subs, app, id) ==> Served(w.db.creds, w.gw.live, app, id)
    ensures SafeWorld(cfg, w, h)
  {
    hide Sound;
    hide SandboxListing;
    hide Credentialed;
    hide Served;
    var h' := h.(switched := h.switched + {id});
    forall r, n | r in w.gw.live.routes && !w.gw.live.routes[r].oauth && n in w.gw.live.routes[r].allowed
      ensures InRouteOf(h, r, n) {
      assert InRouteOf(h', r, n);
    }
  }

  lemma DeleteProductSafe(cfg: Config, w: World, h: History, id: nat)
    requires SafeWorld(cfg, w, h)
    ensures SafeWorld(cfg, DeleteProduct(w, id).w, h)
  {
    hide Sound;
    hide Safe;
    hide QuietWrite;
    var r := w.db.DeleteProduct(id);
    if r.Ok? {
      DeleteProductSound(w.db, id);
      QuietProductWrites(w.db, h, id, w.db.products[id]);
      QuietWriteSafe(cfg, w.db, r.value, w.gw.live, w.sandbox.live, h);
      DeleteRouteSafe(cfg, r.value, w.gw.live, w.sandbox.live, h, id);
    }
  }

  lemma SettleSafe(cfg: Config, w: World, h: History, id: nat, status: InvoiceStatus)
    requires SafeWorld(cfg, w, h)
    ensures SafeWorld(cfg, Protocol.SettleInvoice(w, id, status).w, h)
  {
    hide Sound;
    hide Safe;
    hide Quieter;
    hide SameOutsideLedger;
    hide Db.SettleInvoice;
    SettleSound(w.db, id, status);
    LedgerSafe(cfg, w.db, w.db.SettleInvoice(id, status), w.gw.live, w.sandbox.live, h);
  }

  lemma NewRowSafe(cfg: Config, w: World, h: History, team: nat, plan: Plan)
    requires SafeWorld(cfg, w, h)
    ensures SafeWorld(cfg, Write(w, Ok(w.db.CreateApplication(team))).w, h)
    ensures SafeWorld(cfg, Write(w, w.db.CreatePlan(plan)).w, h)
  {
    hide Sound;
    hide Safe;
    hide QuietWrite;
    ApplicationsSound(w.db, 0, team, "");
    PlansSound(w.db, 0, plan);
    QuietApplicationWrites(w.db, h, 0, "", team);
    QuietPlanWrites(w.db, h, 0, plan);
    QuietWriteSafe(cfg, w.db, w.db.CreateApplication(team), w.gw.live, w.sandbox.live, h);
    if w.db.CreatePlan(plan).Ok? {
      QuietWriteSafe(cfg, w.db, w.db.CreatePlan(plan).value, w.gw.live, w.sandbox.live, h);
    }
  }

  // ---- runs

  lemma MoreHistoryStaysSafe(cfg: Config, w: World, h: History, h': History)
    requires SafeWorld(cfg, w, h) && h.approved <= h'.approved && h.switched <= h'.switched
    ensures SafeWorld(cfg, w, h')
  {
    hide SandboxListing;
    forall r, n | r in w.gw.live.routes && !w.gw.live.routes[r].oauth && n in w.gw.live.routes[r].allowed
      ensures InRouteOf(h', r, n) {
      assert InRouteOf(h, r, n);
    }
  }

  lemma DoSafe(cfg: Config, w: World, op: Op, h: History)
    requires SafeWorld(cfg, w, h)
    ensures SafeWorld(cfg, Do(cfg, w, op).w, Record(cfg, w, op, h))
  {
    hide Subscribe;
    hide Approve;
    hide Reject;
    hide Unsubscribe;
    hide SetOIDCClientID;
    hide RotateKey;
    hide EnableSandbox;
    hide RotateSandboxKey;
    hide DeleteApplication;
    hide UpdatePlan;
    hide CreateProduct;
    hide UpdateProduct;
    hide DeleteProduct;
    hide SafeWorld;
    hide SwitchesBack;
    hide Strands;
    var h' := Record(cfg, w, op, h);
    MoreHistoryStaysSafe(cfg, w, h, h');
    match op
    case NewApplication(team) => NewRowSafe(cfg, w, h', team, Plan("", 0, 0, 0, ""));
    case NewProduct(draft) => CreateProductSafe(cfg, w, h', draft);
    case EditProduct(id, draft) => if Acceptable(cfg, draft) { EditProductSafe(cfg, w, h', id, draft); }
    case RemoveProduct(id) => DeleteProductSafe(cfg, w, h', id);
    case NewPlan(plan) => NewRowSafe(cfg, w, h', 0, plan);
    case EditPlan(id, plan) => UpdatePlanSafe(cfg, w, h', id, plan);
    case Request(app, product, planId, newKey) => SubscribeSafe(cfg, w, h', app, product, planId, newKey);
    case Grant(sub, newKey) => ApproveSafe(cfg, w, h', sub, newKey);
    case Refuse(sub) => RejectSafe(cfg, w, h', sub);
    case Cancel(app, product) => UnsubscribeSafe(cfg, w, h', app, product);
    case RegisterClient(app, clientId) => SetOIDCClientIDSafe(cfg, w, h', app, clientId);
    case Rotate(app, newKey) => RotateKeySafe(cfg, w, h', app, newKey);
    case OpenSandbox(app, newKey) => EnableSandboxSafe(cfg, w, h', app, newKey);
    case RotateSandbox(app, newKey) => RotateSandboxKeySafe(cfg, w, h', app, newKey);
    case RemoveApplication(app) => DeleteApplicationSafe(cfg, w, h', app);
    case Settle(invoice) => SettleSafe(cfg, w, h', invoice, Paid);
    case VoidInvoice(invoice) => SettleSafe(cfg, w, h', invoice, Void);
  }

  lemma {:induction false} RunSafe(cfg: Config, w: World, ops: seq<Op>)
    requires Fresh(w)
    ensures SafeWorld(cfg, Run(cfg, w, ops), Past(cfg, w, ops))
  {
    if ops != [] {
      var before := ops[..|ops| - 1];
      RunSafe(cfg, w, before);
      DoSafe(cfg, Run(cfg, w, before), ops[|ops| - 1], Past(cfg, w, before));
    }
  }
}
