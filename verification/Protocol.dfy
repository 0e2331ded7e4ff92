/** The provisioning protocol as functions: each service operation is the sequence of
    store and gateway calls the services make, with the early return at the first
    call that fails. The imperative services of module Services compute these. */
module Protocol {
  import opened Common
  import opened Naming
  import opened ContextPaths
  import opened AllowLists
  import opened Tables
  import Gateways

  type Gate = Gateways.State

  /** Whether the store's next call fails, should it be a read or a write. */
  datatype StoreFault = StoreFault(read: bool, write: bool)

  /** The database, the store's fault tape, and the production and sandbox gateways. */
  datatype World = World(db: Db, faults: seq<StoreFault>, gw: Gate, sandbox: Gate)

  /** No fault is left on any tape. */
  predicate Calm(w: World) {
    w.faults == [] && w.gw.faults == [] && w.sandbox.faults == []
  }

  /** Reads and gateway calls may fail, database writes do not. */
  predicate WritesSucceed(w: World) {
    NoWriteFails(w.faults)
  }

  predicate NoWriteFails(faults: seq<StoreFault>) {
    faults == [] || (!faults[0].write && NoWriteFails(faults[1..]))
  }

  /** Faults are only ever consumed: a calm world stays calm, and so on. */
  predicate Quieter(w: World, next: World) {
    (Calm(w) ==> Calm(next)) && (WritesSucceed(w) ==> WritesSucceed(next))
  }

  /** What the settings fix for a run. */
  datatype Config = Config(issuer: string, claim: string, sandboxOn: bool)

  /** Where an operation got to and what it returned there. */
  datatype Step<+T> = Step(w: World, r: Result<T>) {
    predicate IsFailure() {
      r.Err?
    }

    function PropagateFailure<U>(): Step<U>
      requires r.Err?
    {
      Step(w, Err(r.error))
    }

    function Extract(): (World, T)
      requires r.Ok?
    {
      (w, r.value)
    }
  }

  function Return<T>(w: World, value: T): Step<T> {
    Step(w, Ok(value))
  }

  function Fail<T>(w: World, e: Error): Step<T> {
    Step(w, Err(e))
  }

  // ---- single calls

  function Tick(w: World): World {
    if w.faults == [] then w else w.(faults := w.faults[1..])
  }

  /** One store query whose answer is `answer`. */
  function Read<T>(w: World, answer: Result<T>): (s: Step<T>)
    ensures Quieter(w, s.w)
  {
    if w.faults != [] && w.faults[0].read then Fail(Tick(w), StoreFailed) else Step(Tick(w), answer)
  }

  /** One store write leading to `next`, or to the error `next` carries. */
  function Write(w: World, next: Result<Db>): (s: Step<()>)
    ensures Quieter(w, s.w)
  {
    if w.faults != [] && w.faults[0].write then Fail(Tick(w), StoreFailed)
    else if next.Err? then Fail(Tick(w), next.error)
    else Return(Tick(w).(db := next.value), ())
  }

  /** A write that fails leaves the database alone. */
  lemma WriteCases(w: World, next: Result<Db>)
    ensures var s := Write(w, next);
            if s.r.Ok? then next.Ok? && s.w == Tick(w).(db := next.value) else s.w == Tick(w)
  {
  }

  function OnGateway(w: World, call: Gateways.Call): (s: Step<()>)
    ensures Quieter(w, s.w)
  {
    Step(w.(gw := w.gw.After(call)), w.gw.Answer())
  }

  function OnSandbox(w: World, call: Gateways.Call): (s: Step<()>)
    ensures Quieter(w, s.w)
  {
    Step(w.(sandbox := w.sandbox.After(call)), w.sandbox.Answer())
  }

  function Limit(plan: Plan): Gateways.RateLimit {
    Gateways.RateLimit(plan.count, plan.window)
  }

  // ---- route provisioning

  /** The call that brings a key-auth route up to date: a route is written while somebody
      is on its allow-list, and deleted otherwise. */
  function KeyAuthCall(product: nat, uri: string, upstream: string, allowed: seq<string>): (call: Gateways.Call)
    ensures call.EnsureRoute? || call.DeleteRoute?
  {
    if allowed == [] then Gateways.DeleteRoute(RouteID(product))
    else Gateways.EnsureRoute(RouteID(product), Gateways.Route(uri, upstream, allowed, false))
  }

  /** Likewise for an oauth2 route, which also needs an issuer. */
  function OAuthCall(cfg: Config, product: nat, uri: string, upstream: string,
                     allowed: seq<string>): (call: Gateways.Call)
    ensures call.EnsureRoute? || call.DeleteRoute?
  {
    if allowed == [] || cfg.issuer == "" then Gateways.DeleteRoute(RouteID(product))
    else Gateways.EnsureRoute(RouteID(product), Gateways.Route(uri, upstream, Dedup(allowed), true))
  }

  function ReprovisionRoute(cfg: Config, w: World, product: nat, extras: seq<string>): (s: Step<()>)
    ensures Quieter(w, s.w)
    ensures s.w.db == w.db && s.w.sandbox == w.sandbox && s.w.gw.live.consumers == w.gw.live.consumers
  {
    hide WritesSucceed;
    hide Db.ConsumersForProduct;
    hide Db.OAuthClientsForProduct;
    var (w1, prod) :- Read(w, w.db.GetProduct(product));
    if prod.auth.OAuth2? then
      var (w2, clients) :- Read(w1, Ok(w1.db.OAuthClientsForProduct(product)));
      OnGateway(w2, OAuthCall(cfg, product, prod.contextPath, prod.upstream, clients + NonEmpty(extras)))
    else
      var (w2, names) :- Read(w1, Ok(w1.db.ConsumersForProduct(product)));
      OnGateway(w2, KeyAuthCall(product, prod.contextPath, prod.upstream, WithExtras(names, extras)))
  }

  function ReprovisionSandboxRoute(cfg: Config, w: World, product: nat, extras: seq<string>): (s: Step<()>)
    ensures Quieter(w, s.w)
    ensures s.w.db == w.db && s.w.gw == w.gw && s.w.sandbox.live.consumers == w.sandbox.live.consumers
  {
    if !cfg.sandboxOn then Return(w, ())
    else
      var (w1, prod) :- Read(w, w.db.GetProduct(product));
      if prod.sandboxUpstream == "" then OnSandbox(w1, Gateways.DeleteRoute(RouteID(product)))
      else
        var (w2, names) :- Read(w1, Ok(w1.db.SandboxConsumersForProduct(product)));
        OnSandbox(w2, KeyAuthCall(product, prod.contextPath, prod.sandboxUpstream, WithExtras(names, extras)))
  }

  function ReprovisionAll(cfg: Config, w: World, products: seq<nat>): (s: Step<()>)
    ensures Quieter(w, s.w)
    ensures s.w.db == w.db && s.w.sandbox == w.sandbox && s.w.gw.live.consumers == w.gw.live.consumers
    decreases |products|
  {
    if products == [] then Return(w, ())
    else
      var (w1, _) :- ReprovisionRoute(cfg, w, products[0], []);
      ReprovisionAll(cfg, w1, products[1..])
  }

  function ReprovisionAllSandbox(cfg: Config, w: World, products: seq<nat>, extra: string): (s: Step<()>)
    ensures Quieter(w, s.w)
    ensures s.w.db == w.db && s.w.gw == w.gw && s.w.sandbox.live.consumers == w.sandbox.live.consumers
    decreases |products|
  {
    if products == [] then Return(w, ())
    else
      var (w1, _) :- ReprovisionSandboxRoute(cfg, w, products[0], [extra]);
      ReprovisionAllSandbox(cfg, w1, products[1..], extra)
  }

  // ---- subscriptions

  /** Subscribe once the request is acceptable: the credential (none for an oauth2
      product), then the pending row. Returns the API key. */
  function RecordRequest(w: World, auth: Auth, app: nat, product: nat, plan: nat,
                         newKey: string): (s: Step<Option<string>>)
    ensures Quieter(w, s.w)
  {
    if auth.OAuth2? then
      var (w1, _) :- Write(w, w.db.SaveSubscription(app, product, plan));
      Return(w1, None)
    else
      var (w1, _) :- Write(w, w.db.GetOrCreateCredential(app, newKey));
      var key := w1.db.creds[app].key;
      var (w2, _) :- Write(w1, w1.db.SaveSubscription(app, product, plan));
      Return(w2, Some(key))
  }

  function Subscribe(w: World, app: nat, product: nat, plan: nat, newKey: string): (s: Step<Option<string>>)
    ensures Quieter(w, s.w)
  {
    var (w1, prod) :- Read(w, w.db.GetProduct(product));
    if !prod.published then Fail(w1, NotFound)
    else if !prod.lifecycle.Live? then Fail(w1, ProductDeprecated)
    else
      var (w2, _) :- Read(w1, w1.db.GetPlan(plan));
      var (w3, existing) :- Read(w2, Ok(w2.db.SubscriptionStatus(app, product)));
      if existing == Some(Active) then Fail(w3, AlreadySubscribed)
      else RecordRequest(w3, prod.auth, app, product, plan, newKey)
  }

  /** A request is refused with nothing changed, or recorded after three queries. */
  lemma SubscribeCases(w: World, app: nat, product: nat, plan: nat, newKey: string)
    ensures var s := Subscribe(w, app, product, plan, newKey);
            || (s.r.Err? && s.w == w.(faults := s.w.faults))
            || (&& product in w.db.products && !w.db.Active(app, product)
                && s == RecordRequest(Tick(Tick(Tick(w))), w.db.products[product].auth, app, product, plan, newKey))
  {
    hide Quieter;
    hide RecordRequest;
  }

  function Unsubscribe(cfg: Config, w: World, app: nat, product: nat): (s: Step<()>)
    ensures Quieter(w, s.w)
  {
    var (w1, _) :- Write(w, Ok(w.db.DeleteSubscription(app, product)));
    var (w2, _) :- ReprovisionRoute(cfg, w1, product, []);
    ReprovisionSandboxRoute(cfg, w2, product, [])
  }

  function UnsubscribeAll(cfg: Config, w: World, app: nat, products: seq<nat>): (s: Step<()>)
    ensures Quieter(w, s.w)
    decreases |products|
  {
    if products == [] then Return(w, ())
    else
      var (w1, _) :- Unsubscribe(cfg, w, app, products[0]);
      UnsubscribeAll(cfg, w1, app, products[1..])
  }

  /** Deletes the application's consumers; without a credential there are none. */
  function RemoveConsumers(cfg: Config, w: World, app: nat): (s: Step<()>)
    ensures Quieter(w, s.w)
    ensures s.w.db == w.db && s.w.gw.live.routes == w.gw.live.routes && s.w.sandbox.live.routes == w.sandbox.live.routes
  {
    hide WritesSucceed;
    var cred := Read(w, w.db.GetCredential(app));
    if cred.r == Err(NotFound) then Return(cred.w, ())
    else
      var (w1, _) :- cred;
      var (w2, _) :- OnGateway(w1, Gateways.DeleteConsumer(ConsumerName(app)));
      if !cfg.sandboxOn then Return(w2, ())
      else
        var (w3, key) :- Read(w2, w2.db.GetSandboxKey(app));
        if key == "" then Return(w3, ()) else OnSandbox(w3, Gateways.DeleteConsumer(ConsumerName(app)))
  }

  function DeleteApplication(cfg: Config, w: World, app: nat): (s: Step<()>)
    ensures Quieter(w, s.w)
  {
    var (w1, products) :- Read(w, Ok(w.db.SubscriptionsForApp(app)));
    var (w2, _) :- UnsubscribeAll(cfg, w1, app, products);
    var (w3, _) :- RemoveConsumers(cfg, w2, app);
    Write(w3, Ok(w3.db.DeleteApplication(app)))
  }

  /** The oauth2 branch of Approve. A failed read of the client id is ignored. */
  function ActivateOAuth(cfg: Config, w: World, id: nat, rec: SubRecord): (s: Step<()>)
    ensures Quieter(w, s.w)
  {
    var cid := Read(w, w.db.GetClientID(rec.app));
    var (w1, _) :- ReprovisionRoute(cfg, cid.w, rec.product, [if cid.r.Ok? then cid.r.value else ""]);
    Write(w1, w1.db.SetSubscriptionStatus(id, Active))
  }

  /** The sandbox step of Approve: taken for applications that hold a sandbox key. */
  function GrantSandbox(cfg: Config, w: World, app: nat, product: nat): (s: Step<()>)
    ensures Quieter(w, s.w)
    ensures s.w.db == w.db && s.w.gw == w.gw && s.w.sandbox.live.consumers == w.sandbox.live.consumers
  {
    if !cfg.sandboxOn then Return(w, ())
    else
      var key := Read(w, w.db.GetSandboxKey(app));
      if key.r.Ok? && key.r.value != "" then ReprovisionSandboxRoute(cfg, key.w, product, [ConsumerName(app)])
      else Return(key.w, ())
  }

  /** The key-auth branch of Approve once the consumer exists: the route first, and only
      then the status. */
  function ListAndActivate(cfg: Config, w: World, id: nat, rec: SubRecord): (s: Step<()>)
    ensures Quieter(w, s.w)
  {
    var (w1, _) :- ReprovisionRoute(cfg, w, rec.product, [ConsumerName(rec.app)]);
    var (w2, _) :- Write(w1, w1.db.SetSubscriptionStatus(id, Active));
    GrantSandbox(cfg, w2, rec.app, rec.product)
  }

  function ActivateKeyAuth(cfg: Config, w: World, id: nat, rec: SubRecord, newKey: string): (s: Step<()>)
    ensures Quieter(w, s.w)
  {
    var (w1, plan) :- Read(w, w.db.GetPlan(rec.plan));
    var (w2, _) :- Write(w1, w1.db.GetOrCreateCredential(rec.app, newKey));
    var cred := w2.db.creds[rec.app];
    var (w3, _) :- OnGateway(w2, Gateways.EnsureConsumer(ConsumerName(rec.app),
                                                         Gateways.Consumer(cred.key, Limit(plan))));
    ListAndActivate(cfg, w3, id, rec)
  }

  function Approve(cfg: Config, w: World, id: nat, newKey: string): (s: Step<()>)
    ensures Quieter(w, s.w)
  {
    var (w1, rec) :- Read(w, w.db.GetSubscription(id));
    if rec.status.Rejected? then Fail(w1, InvalidTransition)
    else
      var (w2, prod) :- Read(w1, w1.db.GetProduct(rec.product));
      var (w3, _) :- if prod.auth.OAuth2? then ActivateOAuth(cfg, w2, id, rec)
                     else ActivateKeyAuth(cfg, w2, id, rec, newKey);
      SubscriptionActivated(w3, rec.app, id, rec.plan)
  }

  function Reject(cfg: Config, w: World, id: nat): (s: Step<()>)
    ensures Quieter(w, s.w)
  {
    var (w1, rec) :- Read(w, w.db.GetSubscription(id));
    if rec.status.Rejected? then Fail(w1, InvalidTransition)
    else
      var (w2, _) :- Write(w1, w1.db.SetSubscriptionStatus(id, Rejected));
      var (w3, _) :- ReprovisionRoute(cfg, w2, rec.product, []);
      ReprovisionSandboxRoute(cfg, w3, rec.product, [])
  }

  predicate ValidClientID(s: string) {
    1 <= |s| <= 200 && forall i :: 0 <= i < |s| ==> IsAlnum(s[i]) || s[i] in "._:@-"
  }

  function SetOIDCClientID(cfg: Config, w: World, app: nat, clientId: string): (s: Step<()>)
    ensures Quieter(w, s.w)
  {
    if clientId != "" && !ValidClientID(clientId) then Fail(w, InvalidClientID)
    else
      var (w1, _) :- Write(w, w.db.SetClientID(app, clientId));
      var (w2, products) :- Read(w1, Ok(w1.db.OAuthProductsForApp(app)));
      ReprovisionAll(cfg, w2, products)
  }

  // ---- keys, plans and the sandbox

  function RotateKey(w: World, app: nat, newKey: string): (s: Step<string>)
    ensures Quieter(w, s.w)
  {
    var cred := Read(w, w.db.GetCredential(app));
    if cred.r == Err(NotFound) then Fail(cred.w, NoCredential)
    else
      var (w1, _) :- cred;
      var (w2, plan) :- Read(w1, w1.db.ActivePlanForApp(app));
      var (w3, _) :- OnGateway(w2, Gateways.EnsureConsumer(ConsumerName(app), Gateways.Consumer(newKey, Limit(plan))));
      var (w4, _) :- Write(w3, w3.db.UpdateCredentialKey(app, newKey));
      Return(w4, newKey)
  }

  /** The consumer first, and then the row. */
  function InstallSandboxKey(w: World, app: nat, plan: Plan, key: string): (s: Step<()>)
    ensures Quieter(w, s.w)
    ensures s.w.gw == w.gw && s.w.sandbox.live.routes == w.sandbox.live.routes
  {
    var (w1, _) :- OnSandbox(w, Gateways.EnsureConsumer(ConsumerName(app), Gateways.Consumer(key, Limit(plan))));
    Write(w1, w1.db.UpdateSandboxKey(app, key))
  }

  /** A key is stored only after the consumer has it. */
  lemma InstallCases(w: World, app: nat, plan: Plan, key: string)
    ensures var s := InstallSandboxKey(w, app, plan, key);
            s.w.db == w.db || (w.db.UpdateSandboxKey(app, key).Ok? && s.w.db == w.db.UpdateSandboxKey(app, key).value)
  {
    hide Quieter;
    hide Write;
    hide Db.UpdateSandboxKey;
    var s1 := OnSandbox(w, Gateways.EnsureConsumer(ConsumerName(app), Gateways.Consumer(key, Limit(plan))));
    WriteCases(s1.w, s1.w.db.UpdateSandboxKey(app, key));
  }

  function RotateSandboxKey(cfg: Config, w: World, app: nat, newKey: string): (s: Step<string>)
    ensures Quieter(w, s.w)
  {
    if !cfg.sandboxOn then Fail(w, SandboxNotConfigured)
    else
      var cred := Read(w, w.db.GetCredential(app));
      if cred.r == Err(NotFound) then Fail(cred.w, NoSandboxKey)
      else
        var (w1, _) :- cred;
        var (w2, existing) :- Read(w1, w1.db.GetSandboxKey(app));
        if existing == "" then Fail(w2, NoSandboxKey)
        else
          var (w3, plan) :- Read(w2, w2.db.ActivePlanForApp(app));
          var (w4, _) :- InstallSandboxKey(w3, app, plan, newKey);
          Return(w4, newKey)
  }

  /** EnableSandbox once the application is known to be eligible. */
  function ProvisionSandbox(cfg: Config, w: World, app: nat, plan: Plan, products: seq<nat>,
                            newKey: string): (s: Step<string>)
    ensures Quieter(w, s.w)
  {
    var (w1, existing) :- Read(w, w.db.GetSandboxKey(app));
    var key := if existing == "" then newKey else existing;
    var (w2, _) :- InstallSandboxKey(w1, app, plan, key);
    var (w3, _) :- ReprovisionAllSandbox(cfg, w2, products, ConsumerName(app));
    Return(w3, key)
  }

  function EnableSandbox(cfg: Config, w: World, app: nat, newKey: string): (s: Step<string>)
    ensures Quieter(w, s.w)
  {
    if !cfg.sandboxOn then Fail(w, SandboxNotConfigured)
    else
      var cred := Read(w, w.db.GetCredential(app));
      if cred.r == Err(NotFound) then Fail(cred.w, NoSandboxEligibleSubscription)
      else
        var (w1, _) :- cred;
        var active := Read(w1, w1.db.ActivePlanForApp(app));
        if active.r == Err(NoActiveSubscription) then Fail(active.w, NoSandboxEligibleSubscription)
        else
          var (w2, plan) :- active;
          var (w3, products) :- Read(w2, Ok(w2.db.SandboxProductsForApp(app)));
          if products == [] then Fail(w3, NoSandboxEligibleSubscription)
          else ProvisionSandbox(cfg, w3, app, plan, products, newKey)
  }

  function EnsureAll(w: World, consumers: seq<PlanConsumer>, plan: Plan): (s: Step<()>)
    ensures Quieter(w, s.w)
    ensures s.w.db == w.db && s.w.sandbox == w.sandbox && s.w.gw.live.routes == w.gw.live.routes
    decreases |consumers|
  {
    if consumers == [] then Return(w, ())
    else
      var (w1, _) :- OnGateway(w, Gateways.EnsureConsumer(ConsumerName(consumers[0].app),
                                                          Gateways.Consumer(consumers[0].key, Limit(plan))));
      EnsureAll(w1, consumers[1..], plan)
  }

  function EnsureAllSandbox(w: World, consumers: seq<PlanConsumer>, plan: Plan): (s: Step<()>)
    ensures Quieter(w, s.w)
    ensures s.w.db == w.db && s.w.gw == w.gw && s.w.sandbox.live.routes == w.sandbox.live.routes
    decreases |consumers|
  {
    if consumers == [] then Return(w, ())
    else
      var (w1, _) :- OnSandbox(w, Gateways.EnsureConsumer(ConsumerName(consumers[0].app),
                                                          Gateways.Consumer(consumers[0].key, Limit(plan))));
      EnsureAllSandbox(w1, consumers[1..], plan)
  }

  function ReprovisionPlan(cfg: Config, w: World, id: nat): (s: Step<()>)
    ensures Quieter(w, s.w)
    ensures s.w.db == w.db && s.w.gw.live.routes == w.gw.live.routes && s.w.sandbox.live.routes == w.sandbox.live.routes
  {
    hide WritesSucceed;
    hide Db.ConsumersForPlan;
    hide Db.SandboxConsumersForPlan;
    var (w1, plan) :- Read(w, w.db.GetPlan(id));
    var (w2, consumers) :- Read(w1, Ok(w1.db.ConsumersForPlan(id)));
    var (w3, _) :- EnsureAll(w2, consumers, plan);
    if !cfg.sandboxOn then Return(w3, ())
    else
      var (w4, sandboxed) :- Read(w3, Ok(w3.db.SandboxConsumersForPlan(id)));
      EnsureAllSandbox(w4, sandboxed, plan)
  }

  /** admin.PlanService.Update. */
  function UpdatePlan(cfg: Config, w: World, id: nat, plan: Plan): (s: Step<Plan>)
    ensures Quieter(w, s.w)
  {
    var (w1, prior) :- Read(w, w.db.GetPlan(id));
    var (w2, _) :- Write(w1, w1.db.UpdatePlan(id, plan));
    var (w3, _) :- if plan.count != prior.count || plan.window != prior.window then ReprovisionPlan(cfg, w2, id)
                   else Return(w2, ());
    Return(w3, plan)
  }

  // ---- admin.Service

  function CreateProduct(w: World, draft: Draft): (s: Step<Product>)
    ensures Quieter(w, s.w)
  {
    var (w1, overlaps) :- Read(w, Ok(w.db.ContextPathOverlaps(draft.contextPath, None)));
    if overlaps then Fail(w1, ContextPathTaken)
    else
      var (w2, _) :- Write(w1, w1.db.CreateProduct(draft.Row()));
      Return(w2, draft.Row())
  }

  function PathGuard(w: World, id: nat, prior: Product, draft: Draft): (s: Step<()>)
    ensures Quieter(w, s.w)
    ensures s.w == w.(faults := s.w.faults)
  {
    if draft.contextPath == prior.contextPath then Return(w, ())
    else
      var (w1, overlaps) :- Read(w, Ok(w.db.ContextPathOverlaps(draft.contextPath, Some(id))));
      if overlaps then Fail(w1, ContextPathTaken) else Return(w1, ())
  }

  /** Refuses a switch to oauth2 while some active subscriber has no client id. Returns
      the active count if it was loaded. */
  function MigrationGuard(w: World, id: nat, prior: Product, draft: Draft): (s: Step<Option<nat>>)
    ensures Quieter(w, s.w)
    ensures s.w == w.(faults := s.w.faults)
    ensures s.r.Ok? && s.r.value.Some? ==> s.r.value.value == w.db.CountActiveSubscriptions(id)
  {
    if !(draft.auth == Some(OAuth2) && prior.auth != OAuth2) then Return(w, None)
    else
      var (w1, n) :- Read(w, Ok(w.db.CountActiveSubscriptions(id)));
      if n == 0 then Return(w1, Some(n))
      else
        var (w2, clients) :- Read(w1, Ok(w1.db.OAuthClientsForProduct(id)));
        if |clients| < n then Fail(w2, OAuthMigrationBlocked) else Return(w2, Some(n))
  }

  /** Rebuilds the production route if the upstream or the auth type changed and the
      product has active subscribers; the count is loaded at most once per Update. */
  function ReprovisionIfChanged(cfg: Config, w: World, id: nat, prior: Product, updated: Product,
                                loaded: Option<nat>): (s: Step<()>)
    ensures Quieter(w, s.w)
    ensures s.w.db == w.db && s.w.sandbox == w.sandbox && s.w.gw.live.consumers == w.gw.live.consumers
  {
    if updated.upstream == prior.upstream && updated.auth == prior.auth then Return(w, ())
    else
      var (w1, n) :- if loaded.Some? then Return(w, loaded.value) else Read(w, Ok(w.db.CountActiveSubscriptions(id)));
      if n > 0 then ReprovisionRoute(cfg, w1, id, []) else Return(w1, ())
  }

  /** A row update that went through: the row before and after, and the active count if
      the guard loaded it. */
  datatype Edit = Edit(prior: Product, updated: Product, loaded: Option<nat>)

  /** Update up to and including the row's write. */
  function EditRow(w: World, id: nat, draft: Draft): (s: Step<Edit>)
    ensures Quieter(w, s.w)
    ensures s.w.gw == w.gw && s.w.sandbox == w.sandbox
  {
    var (w1, prior) :- Read(w, w.db.GetProduct(id));
    var (w2, _) :- PathGuard(w1, id, prior, draft);
    var (w3, loaded) :- MigrationGuard(w2, id, prior, draft);
    var (w4, _) :- Write(w3, w3.db.UpdateProduct(id, draft.Row()));
    Return(w4, Edit(prior, draft.Row(), loaded))
  }

  /** Dropping a stored custom icon, which is one more store write (icons are not
      modelled), and rebuilding the production route if the edit asks for it. */
  function RebuildEdited(cfg: Config, w: World, id: nat, e: Edit): (s: Step<()>)
    ensures Quieter(w, s.w)
    ensures s.w.db == w.db && s.w.sandbox == w.sandbox && s.w.gw.live.consumers == w.gw.live.consumers
  {
    var (w1, _) :- if e.updated.icon != "upload" then Write(w, Ok(w.db)) else Return(w, ());
    ReprovisionIfChanged(cfg, w1, id, e.prior, e.updated, e.loaded)
  }

  function UpdateProduct(cfg: Config, w: World, id: nat, draft: Draft): (s: Step<Product>)
    ensures Quieter(w, s.w)
  {
    var (w1, e) :- EditRow(w, id, draft);
    var (w2, _) :- RebuildEdited(cfg, w1, id, e);
    var (w3, _) :- if e.updated.sandboxUpstream != e.prior.sandboxUpstream
        then ReprovisionSandboxRoute(cfg, w2, id, []) else Return(w2, ());
    Return(w3, e.updated)
  }

  /** The route teardown at the end is best effort: its failure is ignored. */
  function DeleteProduct(w: World, id: nat): (s: Step<()>)
    ensures Quieter(w, s.w)
  {
    var (w1, n) :- Read(w, Ok(w.db.CountActiveSubscriptions(id)));
    if n > 0 then Fail(w1, HasSubscriptions)
    else
      var (w2, _) :- Write(w1, w1.db.DeleteProduct(id));
      Return(OnGateway(w2, Gateways.DeleteRoute(RouteID(id))).w, ())
  }

  // ---- billing.Service

  function IssueInvoice(w: World, app: nat, sub: nat, plan: Plan): (s: Step<()>)
    ensures Quieter(w, s.w)
    ensures s.w.gw == w.gw && s.w.sandbox == w.sandbox && SameOutsideLedger(w.db, s.w.db)
  {
    hide WritesSucceed;
    var (w1, team) :- Read(w, w.db.TeamForApp(app));
    var (w2, _) :- Write(w1, Ok(w1.db.EnsureAccount(team)));
    Write(w2, w2.db.CreateInvoice(w2.db.accounts[team], team, sub, plan))
  }

  function SubscriptionActivated(w: World, app: nat, sub: nat, planId: nat): (s: Step<()>)
    ensures Quieter(w, s.w)
    ensures s.w.gw == w.gw && s.w.sandbox == w.sandbox && SameOutsideLedger(w.db, s.w.db)
  {
    hide WritesSucceed;
    var (w1, plan) :- Read(w, w.db.GetPlan(planId));
    if plan.priceCents == 0 then Return(w1, ())
    else
      var (w2, invoiced) :- Read(w1, Ok(w1.db.PendingInvoiceExists(sub)));
      if invoiced then Return(w2, ()) else IssueInvoice(w2, app, sub, plan)
  }

  /** MarkPaid and Void. When no pending row was there to move, a second query tells a
      missing invoice from a settled one; should that query fail, the answer is the
      latter. */
  function SettleInvoice(w: World, id: nat, status: InvoiceStatus): (s: Step<()>)
    ensures Quieter(w, s.w)
  {
    var (w1, _) :- Write(w, Ok(w.db.SettleInvoice(id, status)));
    if w.db.Unsettled(id) then Return(w1, ())
    else
      var found := Read(w1, w1.db.GetInvoice(id));
      Fail(found.w, if found.r == Err(NotFound) then NotFound else InvalidTransition)
  }
}
