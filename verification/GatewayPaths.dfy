/** The paths the gateways serve: whatever fails, a route carries its product's context path
    unless some edit moved the path without rebuilding the route, and so no two such
    routes answer the same request. */
module GatewayPaths {
  import opened Common
  import opened Naming
  import opened ContextPaths
  import opened Tables
  import opened Protocol
  import opened Runs
  import opened Integrity
  import opened Safety
  import opened Evolution
  import opened Guarantees
  import opened Gateways
  import opened Reconciliation
  import opened Effects
  import opened OperationEffects
  import opened AllowLists

  /** The edit changed the path of a product that has a route on this gateway, and did not
      get as far as rebuilding it. */
  ghost predicate MovedAlone(side: Side, cfg: Config, w: World, op: Op, product: nat) {
    && op.EditProduct? && op.id == product && Acceptable(cfg, op.draft)
    && RouteID(product) in RoutesOf(side, w)
    && var e := EditRow(w, product, op.draft);
    && e.r.Ok? && e.r.value.updated.contextPath != e.r.value.prior.contextPath
    && !(Rebuilds(side, w.db, product, op.draft.Row()) && On(cfg, side) && Through(side, cfg, w, op))
  }

  ghost predicate MovedAt(side: Side, cfg: Config, w: World, ops: seq<Op>, product: nat, k: nat) {
    k < |ops| && MovedAlone(side, cfg, Run(cfg, w, ops[..k]), ops[k], product)
  }

  /** Routes are of known products, and serve their path unless it was moved alone. */
  ghost predicate PathsTrue(side: Side, w: World, moved: set<nat>) {
    AllOnPath(w.db.products, w.db.nextProduct, RoutesOf(side, w), moved)
  }

  ghost predicate AllOnPath(products: map<nat, Product>, known: nat, routes: map<string, Route>, moved: set<nat>) {
    forall p: nat :: RouteID(p) in routes ==>
      p < known && (p in products && p !in moved ==> routes[RouteID(p)].uri == products[p].contextPath)
  }

  /** Routes are only ever written for existing products, with their path. */
  ghost predicate PathsKept(products: map<nat, Product>, routes: map<string, Route>, next: map<string, Route>) {
    forall p: nat :: RouteID(p) in next ==>
      || (p in products && next[RouteID(p)].uri == products[p].contextPath)
      || (RouteID(p) in routes && next[RouteID(p)] == routes[RouteID(p)])
  }

  /** A step that leaves the products alone. */
  ghost predicate PathStep(side: Side, w: World, next: World) {
    && next.db.products == w.db.products && next.db.nextProduct == w.db.nextProduct
    && PathsKept(w.db.products, RoutesOf(side, w), RoutesOf(side, next))
  }

  lemma PathStepTransitive(side: Side, w: World, mid: World, next: World)
    requires PathStep(side, w, mid) && PathStep(side, mid, next)
    ensures PathStep(side, w, next)
  {
  }

  lemma NoPathStep(side: Side, w: World, next: World)
    requires next.db.products == w.db.products && next.db.nextProduct == w.db.nextProduct
             && RoutesOf(side, next) == RoutesOf(side, w)
    ensures PathStep(side, w, next)
  {
  }

  lemma CallPaths(db: Db, state: State, product: nat, call: Call)
    requires RouteCallFor(call, product) && product in db.products
    requires call.EnsureRoute? ==> call.route.uri == db.products[product].contextPath
    ensures PathsKept(db.products, state.live.routes, state.After(call).live.routes)
  {
    NamesAreInjective();
  }

  lemma ReprovisionPaths(side: Side, cfg: Config, w: World, product: nat, extras: seq<string>)
    ensures PathStep(side, w, ReprovisionRoute(cfg, w, product, extras).w)
  {
    hide Quieter;
    hide PathsKept;
    hide State.After;
    hide NonEmpty;
    hide WithExtras;
    hide Db.ConsumersForProduct;
    hide Db.OAuthClientsForProduct;
    SamePaths(side, w);
    if side.Production? && product in w.db.products {
      var p := w.db.products[product];
      CallPaths(w.db, w.gw, product, OAuthCall(cfg, product, p.contextPath, p.upstream,
                                               w.db.OAuthClientsForProduct(product) + NonEmpty(extras)));
      CallPaths(w.db, w.gw, product, KeyAuthCall(product, p.contextPath, p.upstream,
                                                 WithExtras(w.db.ConsumersForProduct(product), extras)));
    }
  }

  lemma ReprovisionSandboxPaths(side: Side, cfg: Config, w: World, product: nat, extras: seq<string>)
    ensures PathStep(side, w, ReprovisionSandboxRoute(cfg, w, product, extras).w)
  {
    hide Quieter;
    hide PathsKept;
    hide State.After;
    SamePaths(side, w);
    if side.Sandboxed? && product in w.db.products {
      var p := w.db.products[product];
      CallPaths(w.db, w.sandbox, product, DeleteRoute(RouteID(product)));
      CallPaths(w.db, w.sandbox, product,
                KeyAuthCall(product, p.contextPath, p.sandboxUpstream,
                            WithExtras(w.db.SandboxConsumersForProduct(product), extras)));
    }
  }

  lemma SamePaths(side: Side, w: World)
    ensures PathsKept(w.db.products, RoutesOf(side, w), RoutesOf(side, w))
  {
  }

  lemma {:induction false} ReprovisionAllPaths(side: Side, cfg: Config, w: World, products: seq<nat>)
    ensures PathStep(side, w, ReprovisionAll(cfg, w, products).w)
    decreases |products|
  {
    hide PathStep;
    hide ReprovisionRoute;
    NoPathStep(side, w, w);
    if products != [] {
      ReprovisionPaths(side, cfg, w, products[0], []);
      var s := ReprovisionRoute(cfg, w, products[0], []);
      ReprovisionAllPaths(side, cfg, s.w, products[1..]);
      PathStepTransitive(side, w, s.w, ReprovisionAll(cfg, s.w, products[1..]).w);
    }
  }

  lemma {:induction false} ReprovisionAllSandboxPaths(side: Side, cfg: Config, w: World, products: seq<nat>,
                                                      extra: string)
    ensures PathStep(side, w, ReprovisionAllSandbox(cfg, w, products, extra).w)
    decreases |products|
  {
    hide PathStep;
    hide ReprovisionSandboxRoute;
    NoPathStep(side, w, w);
    if products != [] {
      ReprovisionSandboxPaths(side, cfg, w, products[0], [extra]);
      var s := ReprovisionSandboxRoute(cfg, w, products[0], [extra]);
      ReprovisionAllSandboxPaths(side, cfg, s.w, products[1..], extra);
      PathStepTransitive(side, w, s.w, ReprovisionAllSandbox(cfg, s.w, products[1..], extra).w);
    }
  }

  // ---- the operations

  lemma UnsubscribePaths(side: Side, cfg: Config, w: World, app: nat, product: nat)
    ensures PathStep(side, w, Unsubscribe(cfg, w, app, product).w)
  {
    hide PathStep;
    hide Quieter;
    hide ReprovisionRoute;
    hide ReprovisionSandboxRoute;
    var s1 := Write(w, Ok(w.db.DeleteSubscription(app, product)));
    NoPathStep(side, w, s1.w);
    ReprovisionPaths(side, cfg, s1.w, product, []);
    var s2 := ReprovisionRoute(cfg, s1.w, product, []);
    PathStepTransitive(side, w, s1.w, s2.w);
    var s3 := ReprovisionSandboxRoute(cfg, s2.w, product, []);
    ReprovisionSandboxPaths(side, cfg, s2.w, product, []);
    PathStepTransitive(side, w, s2.w, s3.w);
  }

  lemma {:induction false} UnsubscribeAllPaths(side: Side, cfg: Config, w: World, app: nat, products: seq<nat>)
    ensures PathStep(side, w, UnsubscribeAll(cfg, w, app, products).w)
    decreases |products|
  {
    hide PathStep;
    hide Unsubscribe;
    NoPathStep(side, w, w);
    if products != [] {
      UnsubscribePaths(side, cfg, w, app, products[0]);
      var s := Unsubscribe(cfg, w, app, products[0]);
      UnsubscribeAllPaths(side, cfg, s.w, app, products[1..]);
      PathStepTransitive(side, w, s.w, UnsubscribeAll(cfg, s.w, app, products[1..]).w);
    }
  }

  lemma DeleteApplicationPaths(side: Side, cfg: Config, w: World, app: nat)
    ensures PathStep(side, w, DeleteApplication(cfg, w, app).w)
  {
    hide PathStep;
    hide Quieter;
    hide UnsubscribeAll;
    hide RemoveConsumers;
    hide Db.SubscriptionsForApp;
    var s1 := Read(w, Ok(w.db.SubscriptionsForApp(app)));
    NoPathStep(side, w, s1.w);
    if s1.r.Ok? {
      UnsubscribeAllPaths(side, cfg, s1.w, app, s1.r.value);
      var s2 := UnsubscribeAll(cfg, s1.w, app, s1.r.value);
      PathStepTransitive(side, w, s1.w, s2.w);
      var s3 := RemoveConsumers(cfg, s2.w, app);
      NoPathStep(side, s2.w, s3.w);
      PathStepTransitive(side, w, s2.w, s3.w);
      var s4 := Write(s3.w, Ok(s3.w.db.DeleteApplication(app)));
      NoPathStep(side, s3.w, s4.w);
      PathStepTransitive(side, w, s3.w, s4.w);
    }
  }

  lemma StatusPaths(side: Side, w: World, id: nat, status: Status)
    ensures PathStep(side, w, Write(w, w.db.SetSubscriptionStatus(id, status)).w)
  {
    hide Quieter;
  }

  lemma RejectPaths(side: Side, cfg: Config, w: World, id: nat)
    ensures PathStep(side, w, Reject(cfg, w, id).w)
  {
    hide PathStep;
    hide Quieter;
    hide Write;
    hide ReprovisionRoute;
    hide ReprovisionSandboxRoute;
    var s1 := Read(w, w.db.GetSubscription(id));
    NoPathStep(side, w, s1.w);
    if s1.r.Ok? && !s1.r.value.status.Rejected? {
      var product := s1.r.value.product;
      StatusPaths(side, s1.w, id, Rejected);
      var s2 := Write(s1.w, s1.w.db.SetSubscriptionStatus(id, Rejected));
      PathStepTransitive(side, w, s1.w, s2.w);
      ReprovisionPaths(side, cfg, s2.w, product, []);
      var s3 := ReprovisionRoute(cfg, s2.w, product, []);
      PathStepTransitive(side, w, s2.w, s3.w);
      var s4 := ReprovisionSandboxRoute(cfg, s3.w, product, []);
      ReprovisionSandboxPaths(side, cfg, s3.w, product, []);
      PathStepTransitive(side, w, s3.w, s4.w);
    }
  }

  lemma ActivateOAuthPaths(side: Side, cfg: Config, w: World, id: nat, rec: SubRecord)
    ensures PathStep(side, w, ActivateOAuth(cfg, w, id, rec).w)
  {
    hide PathStep;
    hide Quieter;
    hide Write;
    hide ReprovisionRoute;
    var cid := Read(w, w.db.GetClientID(rec.app));
    NoPathStep(side, w, cid.w);
    var extras := [if cid.r.Ok? then cid.r.value else ""];
    ReprovisionPaths(side, cfg, cid.w, rec.product, extras);
    var s1 := ReprovisionRoute(cfg, cid.w, rec.product, extras);
    PathStepTransitive(side, w, cid.w, s1.w);
    StatusPaths(side, s1.w, id, Active);
    PathStepTransitive(side, w, s1.w, Write(s1.w, s1.w.db.SetSubscriptionStatus(id, Active)).w);
  }

  lemma GrantSandboxPaths(side: Side, cfg: Config, w: World, app: nat, product: nat)
    ensures PathStep(side, w, GrantSandbox(cfg, w, app, product).w)
  {
    hide PathStep;
    hide Quieter;
    hide ReprovisionSandboxRoute;
    var key := Read(w, w.db.GetSandboxKey(app));
    NoPathStep(side, w, w);
    NoPathStep(side, w, key.w);
    ReprovisionSandboxPaths(side, cfg, key.w, product, [ConsumerName(app)]);
    PathStepTransitive(side, w, key.w, ReprovisionSandboxRoute(cfg, key.w, product, [ConsumerName(app)]).w);
  }

  lemma ListAndActivatePaths(side: Side, cfg: Config, w: World, id: nat, rec: SubRecord)
    ensures PathStep(side, w, ListAndActivate(cfg, w, id, rec).w)
  {
    hide PathStep;
    hide Quieter;
    hide Write;
    hide GrantSandbox;
    hide ReprovisionRoute;
    ReprovisionPaths(side, cfg, w, rec.product, [ConsumerName(rec.app)]);
    var s1 := ReprovisionRoute(cfg, w, rec.product, [ConsumerName(rec.app)]);
    StatusPaths(side, s1.w, id, Active);
    var s2 := Write(s1.w, s1.w.db.SetSubscriptionStatus(id, Active));
    PathStepTransitive(side, w, s1.w, s2.w);
    var s3 := GrantSandbox(cfg, s2.w, rec.app, rec.product);
    GrantSandboxPaths(side, cfg, s2.w, rec.app, rec.product);
    PathStepTransitive(side, w, s2.w, s3.w);
  }

  lemma ActivateKeyAuthPaths(side: Side, cfg: Config, w: World, id: nat, rec: SubRecord, newKey: string)
    ensures PathStep(side, w, ActivateKeyAuth(cfg, w, id, rec, newKey).w)
  {
    hide PathStep;
    hide Quieter;
    hide Write;
    hide ListAndActivate;
    hide Db.GetOrCreateCredential;
    var s1 := Read(w, w.db.GetPlan(rec.plan));
    NoPathStep(side, w, s1.w);
    if s1.r.Ok? {
      var s2 := Write(s1.w, s1.w.db.GetOrCreateCredential(rec.app, newKey));
      IssuingPaths(side, s1.w, rec.app, newKey);
      PathStepTransitive(side, w, s1.w, s2.w);
      if s2.r.Ok? {
        var s3 := OnGateway(s2.w, EnsureConsumer(ConsumerName(rec.app),
                                                 Consumer(s2.w.db.creds[rec.app].key, Limit(s1.r.value))));
        NoPathStep(side, s2.w, s3.w);
        PathStepTransitive(side, w, s2.w, s3.w);
        ListAndActivatePaths(side, cfg, s3.w, id, rec);
        PathStepTransitive(side, w, s3.w, ListAndActivate(cfg, s3.w, id, rec).w);
      }
    }
  }

  lemma IssuingPaths(side: Side, w: World, app: nat, newKey: string)
    ensures var s := Write(w, w.db.GetOrCreateCredential(app, newKey));
            PathStep(side, w, s.w) && (s.r.Ok? ==> app in s.w.db.creds)
  {
    hide Quieter;
  }

  lemma ApprovePaths(side: Side, cfg: Config, w: World, id: nat, newKey: string)
    ensures PathStep(side, w, Approve(cfg, w, id, newKey).w)
  {
    hide PathStep;
    hide Quieter;
    hide ActivateKeyAuth;
    hide ActivateOAuth;
    hide SubscriptionActivated;
    var s1 := Read(w, w.db.GetSubscription(id));
    NoPathStep(side, w, s1.w);
    if s1.r.Ok? {
      var rec := s1.r.value;
      var s2 := Read(s1.w, s1.w.db.GetProduct(rec.product));
      NoPathStep(side, w, s2.w);
      ActivateOAuthPaths(side, cfg, s2.w, id, rec);
      ActivateKeyAuthPaths(side, cfg, s2.w, id, rec, newKey);
      var oauth, keyed := ActivateOAuth(cfg, s2.w, id, rec).w, ActivateKeyAuth(cfg, s2.w, id, rec, newKey).w;
      PathStepTransitive(side, w, s2.w, oauth);
      PathStepTransitive(side, w, s2.w, keyed);
      BilledPaths(side, w, oauth, rec, id);
      BilledPaths(side, w, keyed, rec, id);
    }
  }

  lemma BilledPaths(side: Side, w: World, mid: World, rec: SubRecord, id: nat)
    requires PathStep(side, w, mid)
    ensures PathStep(side, w, SubscriptionActivated(mid, rec.app, id, rec.plan).w)
  {
    hide PathStep;
    hide SubscriptionActivated;
    NoPathStep(side, mid, SubscriptionActivated(mid, rec.app, id, rec.plan).w);
    PathStepTransitive(side, w, mid, SubscriptionActivated(mid, rec.app, id, rec.plan).w);
  }

  lemma SetOIDCClientIDPaths(side: Side, cfg: Config, w: World, app: nat, clientId: string)
    ensures PathStep(side, w, SetOIDCClientID(cfg, w, app, clientId).w)
  {
    hide PathStep;
    hide Quieter;
    hide ReprovisionAll;
    hide Db.OAuthProductsForApp;
    NoPathStep(side, w, w);
    var s1 := Write(w, w.db.SetClientID(app, clientId));
    NoPathStep(side, w, s1.w);
    var s2 := Read(s1.w, Ok(s1.w.db.OAuthProductsForApp(app)));
    NoPathStep(side, w, s2.w);
    if s2.r.Ok? {
      ReprovisionAllPaths(side, cfg, s2.w, s2.r.value);
      PathStepTransitive(side, w, s2.w, ReprovisionAll(cfg, s2.w, s2.r.value).w);
    }
  }

  /** Requests, keys, plans and invoices have no part in it. */
  lemma QuietPaths(side: Side, cfg: Config, w: World, op: Op)
    requires || op.NewApplication? || op.NewPlan? || op.EditPlan? || op.Request? || op.Rotate? || op.RotateSandbox?
             || op.Settle? || op.VoidInvoice?
    ensures PathStep(side, w, Do(cfg, w, op).w)
  {
    hide PathStep;
    hide SameProducts;
    hide Subscribe;
    hide UpdatePlan;
    hide RotateKey;
    hide RotateSandboxKey;
    hide Protocol.SettleInvoice;
    match op {
      case NewApplication(team) => NewRowsKeepProducts(w, team, Plan("", 0, 0, 0, ""));
      case NewPlan(plan) => NewRowsKeepProducts(w, 0, plan);
      case EditPlan(id, plan) => PlanKeepsProducts(cfg, w, id, plan);
      case Request(app, product, planId, newKey) => SubscribeKeepsProducts(w, app, product, planId, newKey);
      case Rotate(app, newKey) => KeysKeepProducts(cfg, w, app, newKey);
      case RotateSandbox(app, newKey) => KeysKeepProducts(cfg, w, app, newKey);
      case Settle(i) => SettleKeepsProducts(w, i, Paid);
      case VoidInvoice(i) => SettleKeepsProducts(w, i, Void);
    }
    assert SameProducts(w, Do(cfg, w, op).w);
    SameProductsStep(side, w, Do(cfg, w, op).w);
  }

  lemma SameProductsStep(side: Side, w: World, next: World)
    requires SameProducts(w, next)
    ensures PathStep(side, w, next)
  {
    NoPathStep(side, w, next);
  }

  lemma NewRowsKeepProducts(w: World, team: nat, plan: Plan)
    ensures SameProducts(w, Write(w, Ok(w.db.CreateApplication(team))).w)
    ensures SameProducts(w, Write(w, w.db.CreatePlan(plan)).w)
  {
    hide Quieter;
    hide Db.CreatePlan;
    PlanRows(w.db, 0, plan);
  }

  lemma PlanKeepsProducts(cfg: Config, w: World, id: nat, plan: Plan)
    ensures SameProducts(w, UpdatePlan(cfg, w, id, plan).w)
  {
    hide UpdatePlan;
    UpdatePlanTables(cfg, w, id, plan);
  }

  lemma SettleKeepsProducts(w: World, id: nat, status: InvoiceStatus)
    ensures SameProducts(w, Protocol.SettleInvoice(w, id, status).w)
  {
    hide Protocol.SettleInvoice;
    SettleTables(w, id, status);
  }

  predicate SameProducts(w: World, next: World) {
    && next.db.products == w.db.products && next.db.nextProduct == w.db.nextProduct
    && next.gw.live.routes == w.gw.live.routes && next.sandbox.live.routes == w.sandbox.live.routes
  }

  lemma SubscribeKeepsProducts(w: World, app: nat, product: nat, plan: nat, newKey: string)
    ensures SameProducts(w, Subscribe(w, app, product, plan, newKey).w)
  {
    hide Subscribe;
    hide RecordRequest;
    SubscribeCases(w, app, product, plan, newKey);
    if product in w.db.products {
      RecordKeepsProducts(Tick(Tick(Tick(w))), w.db.products[product].auth, app, product, plan, newKey);
    }
  }

  lemma RecordKeepsProducts(w: World, auth: Auth, app: nat, product: nat, plan: nat, newKey: string)
    ensures SameProducts(w, RecordRequest(w, auth, app, product, plan, newKey).w)
  {
    hide Quieter;
    hide Db.SaveSubscription;
    hide Db.GetOrCreateCredential;
    SavingKeepsProducts(w.db, app, product, plan);
    var r := w.db.GetOrCreateCredential(app, newKey);
    if r.Ok? {
      IssuedRow(w.db, app, newKey);
      SavingKeepsProducts(r.value, app, product, plan);
    }
  }

  lemma SavingKeepsProducts(db: Db, app: nat, product: nat, plan: nat)
    ensures var r := db.SaveSubscription(app, product, plan);
            r.Ok? ==> r.value.products == db.products && r.value.nextProduct == db.nextProduct
  {
  }

  lemma KeysKeepProducts(cfg: Config, w: World, app: nat, newKey: string)
    ensures SameProducts(w, RotateKey(w, app, newKey).w)
    ensures SameProducts(w, RotateSandboxKey(cfg, w, app, newKey).w)
  {
    hide RotateKey;
    hide RotateSandboxKey;
    RotateKeyTables(w, app, newKey);
    RotateSandboxKeyTables(cfg, w, app, newKey);
  }

  lemma EnableSandboxPaths(side: Side, cfg: Config, w: World, app: nat, newKey: string)
    ensures PathStep(side, w, EnableSandbox(cfg, w, app, newKey).w)
  {
    hide PathStep;
    hide Quieter;
    hide ProvisionSandbox;
    hide Db.ActivePlanForApp;
    hide Db.SandboxProductsForApp;
    NoPathStep(side, w, w);
    var s1 := Read(w, w.db.GetCredential(app));
    NoPathStep(side, w, s1.w);
    var s2 := Read(s1.w, s1.w.db.ActivePlanForApp(app));
    NoPathStep(side, w, s2.w);
    var s3 := Read(s2.w, Ok(s2.w.db.SandboxProductsForApp(app)));
    NoPathStep(side, w, s3.w);
    if s2.r.Ok? && s3.r.Ok? {
      OpeningPaths(side, cfg, s3.w, app, s2.r.value, s3.r.value, newKey);
      PathStepTransitive(side, w, s3.w, ProvisionSandbox(cfg, s3.w, app, s2.r.value, s3.r.value, newKey).w);
    }
  }

  lemma OpeningPaths(side: Side, cfg: Config, w: World, app: nat, plan: Plan, products: seq<nat>, newKey: string)
    ensures PathStep(side, w, ProvisionSandbox(cfg, w, app, plan, products, newKey).w)
  {
    hide PathStep;
    hide Quieter;
    hide InstallSandboxKey;
    hide ReprovisionAllSandbox;
    var s1 := Read(w, w.db.GetSandboxKey(app));
    NoPathStep(side, w, s1.w);
    if s1.r.Ok? {
      var key := if s1.r.value == "" then newKey else s1.r.value;
      var s2 := InstallSandboxKey(s1.w, app, plan, key);
      InstallingPaths(side, s1.w, app, plan, key);
      PathStepTransitive(side, w, s1.w, s2.w);
      ReprovisionAllSandboxPaths(side, cfg, s2.w, products, ConsumerName(app));
      PathStepTransitive(side, w, s2.w, ReprovisionAllSandbox(cfg, s2.w, products, ConsumerName(app)).w);
    }
  }

  lemma InstallingPaths(side: Side, w: World, app: nat, plan: Plan, key: string)
    ensures PathStep(side, w, InstallSandboxKey(w, app, plan, key).w)
  {
    hide Quieter;
    hide InstallSandboxKey;
    InstallCases(w, app, plan, key);
    NoPathStep(side, w, InstallSandboxKey(w, app, plan, key).w);
  }

  // ---- steps and runs

  lemma SteppedPaths(side: Side, w: World, next: World, moved: set<nat>)
    requires Sound(w.db) && PathStep(side, w, next) && PathsTrue(side, w, moved)
    ensures PathsTrue(side, next, moved)
  {
  }

  lemma CreatedPaths(side: Side, w: World, draft: Draft, moved: set<nat>)
    requires PathsTrue(side, w, moved)
    ensures PathsTrue(side, CreateProduct(w, draft).w, moved)
  {
    hide Quieter;
    hide AllOnPath;
    hide Db.CreateProduct;
    hide Db.ContextPathOverlaps;
    CreatedRow(w.db, draft.Row());
    MorePaths(w.db.products, w.db.nextProduct, RoutesOf(side, w), moved, draft.Row());
  }

  lemma MorePaths(products: map<nat, Product>, known: nat, routes: map<string, Route>, moved: set<nat>, row: Product)
    requires AllOnPath(products, known, routes, moved)
    ensures AllOnPath(products[known := row], known + 1, routes, moved)
  {
  }

  lemma RemovedRow(db: Db, id: nat)
    ensures var r := db.DeleteProduct(id);
            r.Ok? ==> r.value.products == db.products - {id} && r.value.nextProduct == db.nextProduct
  {
  }

  lemma RemovedPaths(side: Side, w: World, id: nat, moved: set<nat>)
    requires PathsTrue(side, w, moved)
    ensures PathsTrue(side, DeleteProduct(w, id).w, moved)
  {
    hide Quieter;
    hide AllOnPath;
    hide Db.DeleteProduct;
    hide Db.CountActiveSubscriptions;
    RemovedRow(w.db, id);
    FewerPaths(w.db.products, w.db.nextProduct, RoutesOf(side, w), moved, id);
  }

  lemma FewerPaths(products: map<nat, Product>, known: nat, routes: map<string, Route>, moved: set<nat>, id: nat)
    requires AllOnPath(products, known, routes, moved)
    ensures AllOnPath(products - {id}, known, routes, moved)
            && AllOnPath(products - {id}, known, routes - {RouteID(id)}, moved)
  {
  }

  // ---- an edit

  lemma CallSets(state: State, product: nat, call: Call)
    requires RouteCallFor(call, product)
    ensures if state.Failing() then state.After(call).live == state.live
            else RouteID(product) in state.After(call).live.routes ==>
                   call.EnsureRoute? && state.After(call).live.routes[RouteID(product)] == call.route
  {
  }

  lemma RebuiltPath(cfg: Config, w: World, product: nat)
    requires product in w.db.products
    ensures var s := ReprovisionRoute(cfg, w, product, []);
            if s.r.Ok? then OnPath(s.w.gw.live.routes, product, w.db.products[product].contextPath)
            else s.w.gw.live.routes == w.gw.live.routes
  {
    hide Quieter;
    hide State.After;
    hide Db.OAuthClientsForProduct;
    hide Db.ConsumersForProduct;
    hide WithExtras;
    var p := w.db.products[product];
    CallSets(w.gw, product, OAuthCall(cfg, product, p.contextPath, p.upstream,
                                      w.db.OAuthClientsForProduct(product) + NonEmpty([])));
    CallSets(w.gw, product, KeyAuthCall(product, p.contextPath, p.upstream,
                                        WithExtras(w.db.ConsumersForProduct(product), [])));
  }

  lemma RebuiltSandboxPath(cfg: Config, w: World, product: nat)
    requires product in w.db.products
    ensures var s := ReprovisionSandboxRoute(cfg, w, product, []);
            if s.r.Ok? && cfg.sandboxOn then OnPath(s.w.sandbox.live.routes, product,
                                                    w.db.products[product].contextPath)
            else s.w.sandbox.live.routes == w.sandbox.live.routes
  {
    hide Quieter;
    hide State.After;
    var p := w.db.products[product];
    CallSets(w.sandbox, product, DeleteRoute(RouteID(product)));
    CallSets(w.sandbox, product, KeyAuthCall(product, p.contextPath, p.sandboxUpstream,
                                             WithExtras(w.db.SandboxConsumersForProduct(product), [])));
  }

  /** A production rebuild that an edit asks for and that goes through sets the path. */
  lemma RebuiltPaths(cfg: Config, w: World, id: nat, e: Edit)
    requires id in w.db.products && w.db.products[id] == e.updated
    requires e.loaded.Some? ==> e.loaded.value == w.db.CountActiveSubscriptions(id)
    ensures var s := RebuildEdited(cfg, w, id, e);
            if (e.updated.upstream != e.prior.upstream || e.updated.auth != e.prior.auth)
            && w.db.CountActiveSubscriptions(id) > 0 && s.r.Ok?
            then OnPath(s.w.gw.live.routes, id, e.updated.contextPath)
            else s.w.gw.live.routes == w.gw.live.routes
  {
    hide Quieter;
    hide OnPath;
    hide ReprovisionRoute;
    hide Db.CountActiveSubscriptions;
    var s1 := if e.updated.icon != "upload" then Write(w, Ok(w.db)) else Return(w, ());
    RebuiltPath(cfg, s1.w, id);
    RebuiltPath(cfg, Tick(s1.w), id);
  }

  /** What an edit makes of the product's own route, and of the others. */
  lemma EditedPath(side: Side, cfg: Config, w: World, id: nat, draft: Draft)
    requires Sound(w.db) && Acceptable(cfg, draft) && EditRow(w, id, draft).r.Ok?
    ensures var end := UpdateProduct(cfg, w, id, draft).w;
            && id in w.db.products && end.db.products == w.db.products[id := draft.Row()]
            && end.db.nextProduct == w.db.nextProduct
            && OnlyRoute(RoutesOf(side, w), RoutesOf(side, end), id)
            && (if Rebuilds(side, w.db, id, draft.Row()) && On(cfg, side)
                && Through(side, cfg, w, EditProduct(id, draft))
                then OnPath(RoutesOf(side, end), id, draft.contextPath)
                else RoutesOf(side, end) == RoutesOf(side, w))
  {
    hide Sound;
    hide Quieter;
    hide OnPath;
    hide OnlyRoute;
    hide EditRow;
    hide RebuildEdited;
    hide ReprovisionSandboxRoute;
    hide Db.UpdateProduct;
    hide Db.CountActiveSubscriptions;
    EditRowCases(w, id, draft);
    var s1 := EditRow(w, id, draft);
    var s2 := RebuildEdited(cfg, s1.w, id, s1.r.value);
    CallTouches(w.gw, id, DeleteRoute(RouteID(id)));
    if side.Production? {
      SameCount(w.db, s1.w.db, id);
      NobodyActive(side, w.db, id);
      RebuiltPaths(cfg, s1.w, id, s1.r.value);
      EditTouches(cfg, s1.w, id, s1.r.value);
    } else {
      CallTouches(w.sandbox, id, DeleteRoute(RouteID(id)));
      RebuiltSandboxPath(cfg, s2.w, id);
      ReprovisionSandboxTouches(cfg, s2.w, id, []);
    }
  }

  lemma EditTouches(cfg: Config, w: World, id: nat, e: Edit)
    ensures OnlyRoute(w.gw.live.routes, RebuildEdited(cfg, w, id, e).w.gw.live.routes, id)
  {
    hide Quieter;
    hide OnlyRoute;
    hide ReprovisionRoute;
    hide Db.CountActiveSubscriptions;
    CallTouches(w.gw, id, DeleteRoute(RouteID(id)));
    var s1 := if e.updated.icon != "upload" then Write(w, Ok(w.db)) else Return(w, ());
    ReprovisionTouches(cfg, s1.w, id, []);
    ReprovisionTouches(cfg, Tick(s1.w), id, []);
  }

  lemma EditPaths(side: Side, cfg: Config, w: World, id: nat, draft: Draft, moved: set<nat>)
    requires Sound(w.db) && Acceptable(cfg, draft) && PathsTrue(side, w, moved)
    requires MovedAlone(side, cfg, w, EditProduct(id, draft), id) ==> id in moved
    ensures PathsTrue(side, UpdateProduct(cfg, w, id, draft).w, moved)
  {
    hide AllOnPath;
    hide OnlyRoute;
    hide EditRow;
    hide UpdateProduct;
    hide RebuildEdited;
    hide Rebuilds;
    EditRowCases(w, id, draft);
    if EditRow(w, id, draft).r.Ok? {
      var routes, next := RoutesOf(side, w), RoutesOf(side, UpdateProduct(cfg, w, id, draft).w);
      EditedPath(side, cfg, w, id, draft);
      if id !in moved && next == routes {
        PathBefore(w.db.products, w.db.nextProduct, routes, moved, id);
      }
      EditedRoutes(w.db.products, w.db.nextProduct, routes, next, moved, id, draft.Row());
    } else {
      RefusedEdit(cfg, w, id, draft);
    }
  }

  lemma PathBefore(products: map<nat, Product>, known: nat, routes: map<string, Route>, moved: set<nat>, id: nat)
    requires AllOnPath(products, known, routes, moved) && id in products && id !in moved
    ensures OnPath(routes, id, products[id].contextPath)
  {
  }

  lemma EditedRoutes(products: map<nat, Product>, known: nat, routes: map<string, Route>, next: map<string, Route>,
                     moved: set<nat>,
                     id: nat, row: Product)
    requires AllOnPath(products, known, routes, moved) && OnlyRoute(routes, next, id) && id < known
    requires id in moved || OnPath(next, id, row.contextPath)
    ensures AllOnPath(products[id := row], known, next, moved)
  {
    var more := products[id := row];
    forall p: nat | RouteID(p) in next
      ensures p < known && (p in more && p !in moved ==> next[RouteID(p)].uri == more[p].contextPath)
    {
      if p != id {
        assert SameRoute(routes, next, p) && RouteID(p) in routes;
      }
    }
  }

  lemma RefusedEdit(cfg: Config, w: World, id: nat, draft: Draft)
    requires EditRow(w, id, draft).r.Err?
    ensures var end := UpdateProduct(cfg, w, id, draft).w; end.db == w.db && end.gw == w.gw && end.sandbox == w.sandbox
  {
    hide Quieter;
    hide EditRow;
    EditRowCases(w, id, draft);
  }

  /** Whatever fails, an edit that moves the path of a served product is followed by its
      route exactly if it did not move the path alone. */
  lemma MovedPathIsServedExactly(side: Side, cfg: Config, w: World, id: nat, draft: Draft)
    requires Sound(w.db) && Acceptable(cfg, draft) && EditRow(w, id, draft).r.Ok?
    requires id in w.db.products && draft.contextPath != w.db.products[id].contextPath
    requires RouteID(id) in RoutesOf(side, w) && RoutesOf(side, w)[RouteID(id)].uri == w.db.products[id].contextPath
    ensures var end := UpdateProduct(cfg, w, id, draft).w;
            && id in end.db.products
            && (OnPath(RoutesOf(side, end), id, end.db.products[id].contextPath) <==>
                  !MovedAlone(side, cfg, w, EditProduct(id, draft), id))
  {
    hide Sound;
    hide EditRow;
    hide UpdateProduct;
    hide RebuildEdited;
    hide Rebuilds;
    EditRowCases(w, id, draft);
    EditedPath(side, cfg, w, id, draft);
  }

  // ---- all operations

  lemma DoPaths(side: Side, cfg: Config, w: World, op: Op, moved: set<nat>)
    requires Sound(w.db) && PathsTrue(side, w, moved)
    requires op.EditProduct? && MovedAlone(side, cfg, w, op, op.id) ==> op.id in moved
    ensures PathsTrue(side, Do(cfg, w, op).w, moved)
  {
    hide Sound;
    hide PathStep;
    hide PathsTrue;
    hide Approve;
    hide Reject;
    hide Unsubscribe;
    hide SetOIDCClientID;
    hide EnableSandbox;
    hide DeleteApplication;
    hide CreateProduct;
    hide UpdateProduct;
    hide DeleteProduct;
    hide MovedAlone;
    match op
    case EditProduct(id, draft) => if Acceptable(cfg, draft) { EditPaths(side, cfg, w, id, draft, moved); }
    case NewProduct(draft) => CreatedPaths(side, w, draft, moved);
    case RemoveProduct(id) => RemovedPaths(side, w, id, moved);
    case Grant(sub, newKey) => ApprovePaths(side, cfg, w, sub, newKey); SteppedPaths(side, w, Do(cfg, w, op).w, moved);
    case Refuse(sub) => RejectPaths(side, cfg, w, sub); SteppedPaths(side, w, Do(cfg, w, op).w, moved);
    case Cancel(app, product) =>
      UnsubscribePaths(side, cfg, w, app, product);
      SteppedPaths(side, w, Do(cfg, w, op).w, moved);
    case RegisterClient(app, clientId) =>
      SetOIDCClientIDPaths(side, cfg, w, app, clientId);
      SteppedPaths(side, w, Do(cfg, w, op).w, moved);
    case OpenSandbox(app, newKey) =>
      EnableSandboxPaths(side, cfg, w, app, newKey);
      SteppedPaths(side, w, Do(cfg, w, op).w, moved);
    case RemoveApplication(app) =>
      DeleteApplicationPaths(side, cfg, w, app);
      SteppedPaths(side, w, Do(cfg, w, op).w, moved);
    case _ => QuietPaths(side, cfg, w, op); SteppedPaths(side, w, Do(cfg, w, op).w, moved);
  }

  /** The products whose path was moved alone, and whose route has not been rebuilt since. */
  ghost function MovedAfter(side: Side, cfg: Config, w: World, op: Op, moved: set<nat>): set<nat> {
    if op.EditProduct? && MovedAlone(side, cfg, w, op, op.id) then moved + {op.id}
    else if Through(side, cfg, w, op) && !Overlooked(side, w, op) then moved - Rebuilt(side, w.db, op)
    else moved
  }

  ghost function Moved(side: Side, cfg: Config, w: World, ops: seq<Op>): set<nat> {
    if ops == [] then {}
    else
      var before := ops[..|ops| - 1];
      MovedAfter(side, cfg, Run(cfg, w, before), ops[|ops| - 1], Moved(side, cfg, w, before))
  }

  lemma DoMoved(side: Side, cfg: Config, w: World, op: Op, moved: set<nat>)
    requires Sound(w.db) && cfg.issuer != "" && On(cfg, side) && PathsTrue(side, w, moved)
    ensures PathsTrue(side, Do(cfg, w, op).w, MovedAfter(side, cfg, w, op, moved))
  {
    hide Sound;
    hide Do;
    hide MovedAlone;
    hide Overlooked;
    hide Covered;
    hide Kept;
    hide Reconciled;
    hide Touched;
    hide Rebuilt;
    hide Through;
    var edited := op.EditProduct? && MovedAlone(side, cfg, w, op, op.id);
    var wider := if edited then moved + {op.id} else moved;
    MorePathsMoved(side, w, moved, wider);
    DoPaths(side, cfg, w, op, wider);
    if !edited && Through(side, cfg, w, op) && !Overlooked(side, w, op) {
      DoEffect(side, cfg, w, op);
      RebuiltAndTouched(side, w.db, op);
    }
  }

  lemma RebuiltAndTouched(side: Side, db: Db, op: Op)
    ensures Rebuilt(side, db, op) <= Touched(side, db, op)
    ensures op.RemoveProduct? ==> Rebuilt(side, db, op) == {}
  {
  }

  lemma MorePathsMoved(side: Side, w: World, moved: set<nat>, wider: set<nat>)
    requires PathsTrue(side, w, moved) && moved <= wider
    ensures PathsTrue(side, w, wider)
  {
  }

  lemma {:induction false} RunMoved(side: Side, cfg: Config, w: World, ops: seq<Op>)
    requires Fresh(w) && cfg.issuer != "" && On(cfg, side)
    ensures PathsTrue(side, Run(cfg, w, ops), Moved(side, cfg, w, ops))
  {
    hide Do;
    hide Safe;
    hide Sound;
    hide MovedAfter;
    if ops != [] {
      var before := ops[..|ops| - 1];
      RunMoved(side, cfg, w, before);
      RunSafe(cfg, w, before);
      DoMoved(side, cfg, Run(cfg, w, before), ops[|ops| - 1], Moved(side, cfg, w, before));
    }
  }

  /** Whatever fails, a route serves the stored context path of its product, unless the
      path was moved alone and the route has not been rebuilt since. */
  lemma RouteServesItsPath(side: Side, cfg: Config, w: World, ops: seq<Op>, product: nat)
    requires Fresh(w) && cfg.issuer != "" && On(cfg, side) && product !in Moved(side, cfg, w, ops)
    requires product in Run(cfg, w, ops).db.products
    ensures var end := Run(cfg, w, ops); OnPath(RoutesOf(side, end), product, end.db.products[product].contextPath)
  {
    hide Run;
    hide Moved;
    RunMoved(side, cfg, w, ops);
  }

  /** So no request is answered by the routes of two such products. */
  lemma RoutesStayDisjoint(side: Side, cfg: Config, w: World, ops: seq<Op>, p: nat, q: nat, request: string)
    requires Fresh(w) && cfg.issuer != "" && On(cfg, side)
    requires p !in Moved(side, cfg, w, ops) && q !in Moved(side, cfg, w, ops)
    requires var end := Run(cfg, w, ops);
             var routes := RoutesOf(side, end);
             && p in end.db.products && RouteID(p) in routes && Serves(routes[RouteID(p)].uri, request)
             && q in end.db.products && RouteID(q) in routes && Serves(routes[RouteID(q)].uri, request)
    ensures p == q
  {
    hide Run;
    hide Moved;
    RouteServesItsPath(side, cfg, w, ops, p);
    RouteServesItsPath(side, cfg, w, ops, q);
    PathsStayDisjoint(cfg, w, ops, p, q, request);
  }

  // ---- at every moment

  lemma {:induction false} RunPaths(side: Side, cfg: Config, w: World, ops: seq<Op>, moved: set<nat>)
    requires Fresh(w) && forall p: nat, k: nat :: MovedAt(side, cfg, w, ops, p, k) ==> p in moved
    ensures PathsTrue(side, Run(cfg, w, ops), moved)
  {
    hide Do;
    hide Safe;
    hide Sound;
    hide MovedAlone;
    if ops != [] {
      var n := |ops| - 1;
      var before := ops[..n];
      forall p: nat, k: nat | MovedAt(side, cfg, w, before, p, k) ensures p in moved {
        assert before[..k] == ops[..k];
        assert MovedAt(side, cfg, w, ops, p, k);
      }
      RunPaths(side, cfg, w, before, moved);
      RunSafe(cfg, w, before);
      if ops[n].EditProduct? && MovedAlone(side, cfg, Run(cfg, w, before), ops[n], ops[n].id) {
        assert MovedAt(side, cfg, w, ops, ops[n].id, n);
      }
      DoPaths(side, cfg, Run(cfg, w, before), ops[n], moved);
    }
  }

  lemma MovedEdits(side: Side, cfg: Config, w: World, op: Op, product: nat)
    ensures MovedAlone(side, cfg, w, op, product) ==> op.EditProduct? && op.id == product
  {
    hide EditRow;
    hide RebuildEdited;
  }

  /** The product's route, if there is one, serves its stored path. */
  ghost predicate ServedIn(side: Side, w: World, product: nat) {
    product in w.db.products ==> OnPath(RoutesOf(side, w), product, w.db.products[product].contextPath)
  }

  lemma NeverMoved(side: Side, cfg: Config, w: World, ops: seq<Op>, product: nat)
    requires Fresh(w) && forall k: nat :: !MovedAt(side, cfg, w, ops, product, k)
    ensures ServedIn(side, Run(cfg, w, ops), product)
  {
    hide Run;
    hide MovedAlone;
    var moved := set k: nat | k < |ops| && ops[k].EditProduct? && ops[k].id != product :: ops[k].id;
    forall p: nat, k: nat | MovedAt(side, cfg, w, ops, p, k) ensures p in moved {
      MovedEdits(side, cfg, Run(cfg, w, ops[..k]), ops[k], p);
      assert ops[k].id in moved;
    }
    RunPaths(side, cfg, w, ops, moved);
  }

  /** Whatever fails, and with or without an issuer: the route serves the stored path at
      every moment of a run exactly if no edit of the run moved the path alone. */
  lemma PathServedExactlyWhen(side: Side, cfg: Config, w: World, ops: seq<Op>, product: nat)
    requires Fresh(w)
    ensures (forall n: nat :: n <= |ops| ==> ServedIn(side, Run(cfg, w, ops[..n]), product)) <==>
            (forall k: nat :: !MovedAt(side, cfg, w, ops, product, k))
  {
    hide Run;
    hide ServedIn;
    hide MovedAlone;
    if k: nat :| MovedAt(side, cfg, w, ops, product, k) {
      var before := Run(cfg, w, ops[..k]);
      RunStep(cfg, w, ops, k);
      RunSafe(cfg, w, ops[..k]);
      if ServedIn(side, before, product) {
        MovedIsNotServed(side, cfg, before, ops[k], product);
        assert !ServedIn(side, Run(cfg, w, ops[..k + 1]), product);
      }
    } else {
      forall n: nat | n <= |ops| ensures ServedIn(side, Run(cfg, w, ops[..n]), product) {
        forall k: nat ensures !MovedAt(side, cfg, w, ops[..n], product, k) {
          if k < n {
            assert ops[..n][..k] == ops[..k];
            assert !MovedAt(side, cfg, w, ops, product, k);
          }
        }
        NeverMoved(side, cfg, w, ops[..n], product);
      }
    }
  }

  lemma MovedIsNotServed(side: Side, cfg: Config, w: World, op: Op, product: nat)
    requires Sound(w.db) && MovedAlone(side, cfg, w, op, product) && ServedIn(side, w, product)
    ensures !ServedIn(side, Do(cfg, w, op).w, product)
  {
    hide Sound;
    hide EditRow;
    hide UpdateProduct;
    hide RebuildEdited;
    hide Rebuilds;
    EditRowCases(w, product, op.draft);
    MovedPathIsServedExactly(side, cfg, w, product, op.draft);
  }
}
