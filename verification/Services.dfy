/** The services as objects: they drive the store and the two gateways call by call and
    return at the first call that fails. Each method is
    proved to compute the protocol function of the same name. */
module Services {
  import opened Common
  import opened Naming
  import opened Tables
  import opened AllowLists
  import Gateways
  import P = Protocol
  import SavedProducts

  /** The database behind its connection: any query or write may fail. */
  class Store {
    var db: Db
    var faults: seq<P.StoreFault>

    constructor (db: Db, faults: seq<P.StoreFault>)
      ensures this.db == db && this.faults == faults
    {
      this.db, this.faults := db, faults;
    }

    predicate Failing(write: bool)
      reads this
    {
      faults != [] && if write then faults[0].write else faults[0].read
    }

    function Rest(): seq<P.StoreFault>
      reads this
    {
      if faults == [] then [] else faults[1..]
    }

    method Read<T>(answer: Result<T>) returns (r: Result<T>)
      modifies this`faults
      ensures faults == old(Rest())
      ensures r == if old(Failing(false)) then Err(StoreFailed) else answer
    {
      r := if faults != [] && faults[0].read then Err(StoreFailed) else answer;
      if faults != [] {
        faults := faults[1..];
      }
    }

    method Write(next: Result<Db>) returns (r: Result<()>)
      modifies this
      ensures faults == old(Rest())
      ensures r == if old(Failing(true)) then Err(StoreFailed) else if next.Err? then Err(next.error) else Ok(())
      ensures db == if r.Ok? then next.value else old(db)
    {
      var failing := faults != [] && faults[0].write;
      if faults != [] {
        faults := faults[1..];
      }
      if failing { return Err(StoreFailed); }
      var value :- next;
      db := value;
      return Ok(());
    }
  }

  class Service {
    const store: Store
    const gw: Gateways.Gateway
    const sandboxGW: Gateways.Gateway
    var issuer: string
    var claim: string
    var sandboxOn: bool

    constructor (store: Store, gw: Gateways.Gateway, sandboxGW: Gateways.Gateway)
      requires gw != sandboxGW
      ensures Valid() && this.store == store && this.gw == gw && this.sandboxGW == sandboxGW
      ensures Cfg() == P.Config("", "", false)
    {
      this.store, this.gw, this.sandboxGW := store, gw, sandboxGW;
      issuer, claim, sandboxOn := "", "", false;
    }

    predicate Valid() {
      gw != sandboxGW
    }

    function Cfg(): P.Config
      reads this
    {
      P.Config(issuer, claim, sandboxOn)
    }

    function World(): P.World
      reads store, gw, sandboxGW
    {
      P.World(store.db, store.faults, gw.Now(), sandboxGW.Now())
    }

    method ConfigureOIDC(issuer: string, claim: string)
      modifies this
      ensures Cfg() == old(Cfg()).(issuer := issuer, claim := claim)
    {
      this.issuer, this.claim := issuer, claim;
    }

    method SetSandboxEnabled(on: bool)
      modifies this
      ensures Cfg() == old(Cfg()).(sandboxOn := on)
    {
      sandboxOn := on;
    }

    method ReprovisionRoute(product: nat, extras: seq<string>) returns (r: Result<()>)
      requires Valid()
      modifies store, gw, sandboxGW
      ensures P.Step(World(), r) == P.ReprovisionRoute(Cfg(), old(World()), product, extras)
    {
      var prod :- store.Read(store.db.GetProduct(product));
      if prod.auth.OAuth2? {
        var clients :- store.Read(Ok(store.db.OAuthClientsForProduct(product)));
        var allowed := AppendNonEmpty(clients, extras);
        if allowed == [] || issuer == "" {
          r := gw.DeleteRoute(RouteID(product));
          return;
        }
        var unique := DedupStrings(allowed);
        r := gw.EnsureOAuthRoute(RouteID(product), prod.contextPath, prod.upstream, issuer, claim, unique);
        return;
      }
      var names :- store.Read(Ok(store.db.ConsumersForProduct(product)));
      var allowed := AppendMissing(names, extras);
      if allowed == [] {
        r := gw.DeleteRoute(RouteID(product));
      } else {
        r := gw.EnsureRoute(RouteID(product), prod.contextPath, prod.upstream, allowed);
      }
    }

    method ReprovisionSandboxRoute(product: nat, extras: seq<string>) returns (r: Result<()>)
      requires Valid()
      modifies store, gw, sandboxGW
      ensures P.Step(World(), r) == P.ReprovisionSandboxRoute(Cfg(), old(World()), product, extras)
    {
      if !sandboxOn { return Ok(()); }
      var prod :- store.Read(store.db.GetProduct(product));
      if prod.sandboxUpstream == "" {
        r := sandboxGW.DeleteRoute(RouteID(product));
        return;
      }
      var names :- store.Read(Ok(store.db.SandboxConsumersForProduct(product)));
      var allowed := AppendMissing(names, extras);
      if allowed == [] {
        r := sandboxGW.DeleteRoute(RouteID(product));
      } else {
        r := sandboxGW.EnsureRoute(RouteID(product), prod.contextPath, prod.sandboxUpstream, allowed);
      }
    }

    method SetOIDCClientID(app: nat, clientId: string) returns (r: Result<()>)
      requires Valid()
      modifies store, gw, sandboxGW
      ensures P.Step(World(), r) == P.SetOIDCClientID(Cfg(), old(World()), app, clientId)
    {
      if clientId != "" && !P.ValidClientID(clientId) { return Err(InvalidClientID); }
      var _ :- store.Write(store.db.SetClientID(app, clientId));
      var products :- store.Read(Ok(store.db.OAuthProductsForApp(app)));
      r := ReprovisionRoutes(products);
    }

    /** The loop over an application's oauth2 products. */
    method ReprovisionRoutes(products: seq<nat>) returns (r: Result<()>)
      requires Valid()
      modifies store, gw, sandboxGW
      ensures P.Step(World(), r) == P.ReprovisionAll(Cfg(), old(World()), products)
    {
      ghost var whole := P.ReprovisionAll(Cfg(), World(), products);
      for i := 0 to |products|
        invariant P.ReprovisionAll(Cfg(), World(), products[i..]) == whole
      {
        assert products[i..][1..] == products[i + 1..];
        var _ :- ReprovisionRoute(products[i], []);
      }
      return Ok(());
    }

    method EnsureConsumers(gateway: Gateways.Gateway, consumers: seq<PlanConsumer>, plan: Plan) returns (r: Result<()>)
      requires Valid() && gateway in {gw, sandboxGW}
      modifies gateway
      ensures P.Step(World(), r) == if gateway == gw then P.EnsureAll(old(World()), consumers, plan)
                                    else P.EnsureAllSandbox(old(World()), consumers, plan)
    {
      for i := 0 to |consumers|
        invariant gateway == gw ==>
                    P.EnsureAll(World(), consumers[i..], plan) == P.EnsureAll(old(World()), consumers, plan)
        invariant gateway == sandboxGW ==>
                    P.EnsureAllSandbox(World(), consumers[i..], plan)
                        == P.EnsureAllSandbox(old(World()), consumers, plan)
      {
        assert consumers[i..][1..] == consumers[i + 1..];
        var _ :- gateway.EnsureConsumer(ConsumerName(consumers[i].app), consumers[i].key, P.Limit(plan));
      }
      return Ok(());
    }

    method ReprovisionPlan(id: nat) returns (r: Result<()>)
      requires Valid()
      modifies store, gw, sandboxGW
      ensures P.Step(World(), r) == P.ReprovisionPlan(Cfg(), old(World()), id)
    {
      var plan :- store.Read(store.db.GetPlan(id));
      var consumers :- store.Read(Ok(store.db.ConsumersForPlan(id)));
      var _ :- EnsureConsumers(gw, consumers, plan);
      if !sandboxOn { return Ok(()); }
      var sandboxed :- store.Read(Ok(store.db.SandboxConsumersForPlan(id)));
      r := EnsureConsumers(sandboxGW, sandboxed, plan);
    }

    method Subscribe(app: nat, product: nat, plan: nat, newKey: string) returns (r: Result<Option<string>>)
      requires Valid()
      modifies store
      ensures P.Step(World(), r) == P.Subscribe(old(World()), app, product, plan, newKey)
    {
      var prod :- store.Read(store.db.GetProduct(product));
      if !prod.published { return Err(NotFound); }
      if prod.lifecycle.Deprecated? || prod.lifecycle.Sunset? { return Err(ProductDeprecated); }
      var _ :- store.Read(store.db.GetPlan(plan));
      var existing :- store.Read(Ok(store.db.SubscriptionStatus(app, product)));
      if existing == Some(Active) { return Err(AlreadySubscribed); }
      r := RecordRequest(prod.auth, app, product, plan, newKey);
    }

    method RecordRequest(auth: Auth, app: nat, product: nat, plan: nat,
                         newKey: string) returns (r: Result<Option<string>>)
      requires Valid()
      modifies store
      ensures P.Step(World(), r) == P.RecordRequest(old(World()), auth, app, product, plan, newKey)
    {
      if auth.OAuth2? {
        var _ :- store.Write(store.db.SaveSubscription(app, product, plan));
        return Ok(None);
      }
      var _ :- store.Write(store.db.GetOrCreateCredential(app, newKey));
      var key := store.db.creds[app].key;
      var _ :- store.Write(store.db.SaveSubscription(app, product, plan));
      return Ok(Some(key));
    }

    method Unsubscribe(app: nat, product: nat) returns (r: Result<()>)
      requires Valid()
      modifies store, gw, sandboxGW
      ensures P.Step(World(), r) == P.Unsubscribe(Cfg(), old(World()), app, product)
    {
      var _ :- store.Write(Ok(store.db.DeleteSubscription(app, product)));
      var _ :- ReprovisionRoute(product, []);
      r := ReprovisionSandboxRoute(product, []);
    }

    method RemoveConsumers(app: nat) returns (r: Result<()>)
      requires Valid()
      modifies store, gw, sandboxGW
      ensures P.Step(World(), r) == P.RemoveConsumers(Cfg(), old(World()), app)
    {
      var cred := store.Read(store.db.GetCredential(app));
      if cred == Err(NotFound) { return Ok(()); }
      var _ :- cred;
      var _ :- gw.DeleteConsumer(ConsumerName(app));
      if sandboxOn {
        var key :- store.Read(store.db.GetSandboxKey(app));
        if key != "" {
          r := sandboxGW.DeleteConsumer(ConsumerName(app));
          return;
        }
      }
      return Ok(());
    }

    method DeleteApplication(app: nat) returns (r: Result<()>)
      requires Valid()
      modifies store, gw, sandboxGW
      ensures P.Step(World(), r) == P.DeleteApplication(Cfg(), old(World()), app)
    {
      hide P.UnsubscribeAll;
      hide P.RemoveConsumers;
      hide P.Quieter;
      hide Db.DeleteApplication;
      hide Db.SubscriptionsForApp;
      var products :- store.Read(Ok(store.db.SubscriptionsForApp(app)));
      var _ :- UnsubscribeAll(app, products);
      var _ :- RemoveConsumers(app);
      r := store.Write(Ok(store.db.DeleteApplication(app)));
    }

    method UnsubscribeAll(app: nat, products: seq<nat>) returns (r: Result<()>)
      requires Valid()
      modifies store, gw, sandboxGW
      ensures P.Step(World(), r) == P.UnsubscribeAll(Cfg(), old(World()), app, products)
    {
      for i := 0 to |products|
        invariant P.UnsubscribeAll(Cfg(), World(), app, products[i..])
                  == P.UnsubscribeAll(Cfg(), old(World()), app, products)
      {
        assert products[i..][1..] == products[i + 1..];
        var _ :- Unsubscribe(app, products[i]);
      }
      return Ok(());
    }

    method Approve(id: nat, newKey: string) returns (r: Result<()>)
      requires Valid()
      modifies store, gw, sandboxGW
      ensures P.Step(World(), r) == P.Approve(Cfg(), old(World()), id, newKey)
    {
      var rec :- store.Read(store.db.GetSubscription(id));
      if rec.status.Rejected? { return Err(InvalidTransition); }
      var prod :- store.Read(store.db.GetProduct(rec.product));
      if prod.auth.OAuth2? {
        var _ :- ActivateOAuth(id, rec);
      } else {
        var _ :- ActivateKeyAuth(id, rec, newKey);
      }
      r := SubscriptionActivated(rec.app, id, rec.plan);
    }

    method ActivateOAuth(id: nat, rec: SubRecord) returns (r: Result<()>)
      requires Valid()
      modifies store, gw, sandboxGW
      ensures P.Step(World(), r) == P.ActivateOAuth(Cfg(), old(World()), id, rec)
    {
      var cid := store.Read(store.db.GetClientID(rec.app));
      var _ :- ReprovisionRoute(rec.product, [if cid.Ok? then cid.value else ""]);
      r := store.Write(store.db.SetSubscriptionStatus(id, Active));
    }

    method ActivateKeyAuth(id: nat, rec: SubRecord, newKey: string) returns (r: Result<()>)
      requires Valid()
      modifies store, gw, sandboxGW
      ensures P.Step(World(), r) == P.ActivateKeyAuth(Cfg(), old(World()), id, rec, newKey)
    {
      var plan :- store.Read(store.db.GetPlan(rec.plan));
      var _ :- store.Write(store.db.GetOrCreateCredential(rec.app, newKey));
      var cred := store.db.creds[rec.app];
      var _ :- gw.EnsureConsumer(ConsumerName(rec.app), cred.key, P.Limit(plan));
      r := ListAndActivate(id, rec);
    }

    method ListAndActivate(id: nat, rec: SubRecord) returns (r: Result<()>)
      requires Valid()
      modifies store, gw, sandboxGW
      ensures P.Step(World(), r) == P.ListAndActivate(Cfg(), old(World()), id, rec)
    {
      var _ :- ReprovisionRoute(rec.product, [ConsumerName(rec.app)]);
      var _ :- store.Write(store.db.SetSubscriptionStatus(id, Active));
      if sandboxOn {
        var key := store.Read(store.db.GetSandboxKey(rec.app));
        if key.Ok? && key.value != "" {
          r := ReprovisionSandboxRoute(rec.product, [ConsumerName(rec.app)]);
          return;
        }
      }
      return Ok(());
    }

    method Reject(id: nat) returns (r: Result<()>)
      requires Valid()
      modifies store, gw, sandboxGW
      ensures P.Step(World(), r) == P.Reject(Cfg(), old(World()), id)
    {
      var rec :- store.Read(store.db.GetSubscription(id));
      if rec.status.Rejected? { return Err(InvalidTransition); }
      var _ :- store.Write(store.db.SetSubscriptionStatus(id, Rejected));
      var _ :- ReprovisionRoute(rec.product, []);
      r := ReprovisionSandboxRoute(rec.product, []);
    }

    method ReprovisionAllSandbox(products: seq<nat>, extra: string) returns (r: Result<()>)
      requires Valid()
      modifies store, gw, sandboxGW
      ensures P.Step(World(), r) == P.ReprovisionAllSandbox(Cfg(), old(World()), products, extra)
    {
      for i := 0 to |products|
        invariant P.ReprovisionAllSandbox(Cfg(), World(), products[i..], extra)
                  == P.ReprovisionAllSandbox(Cfg(), old(World()), products, extra)
      {
        assert products[i..][1..] == products[i + 1..];
        var _ :- ReprovisionSandboxRoute(products[i], [extra]);
      }
      return Ok(());
    }

    method ProvisionSandbox(app: nat, plan: Plan, products: seq<nat>, newKey: string) returns (r: Result<string>)
      requires Valid()
      modifies store, gw, sandboxGW
      ensures P.Step(World(), r) == P.ProvisionSandbox(Cfg(), old(World()), app, plan, products, newKey)
    {
      var key :- store.Read(store.db.GetSandboxKey(app));
      if key == "" {
        key := newKey;
      }
      var _ :- sandboxGW.EnsureConsumer(ConsumerName(app), key, P.Limit(plan));
      var _ :- store.Write(store.db.UpdateSandboxKey(app, key));
      var _ :- ReprovisionAllSandbox(products, ConsumerName(app));
      return Ok(key);
    }

    method EnableSandbox(app: nat, newKey: string) returns (r: Result<string>)
      requires Valid()
      modifies store, gw, sandboxGW
      ensures P.Step(World(), r) == P.EnableSandbox(Cfg(), old(World()), app, newKey)
    {
      if !sandboxOn { return Err(SandboxNotConfigured); }
      var cred := store.Read(store.db.GetCredential(app));
      if cred == Err(NotFound) { return Err(NoSandboxEligibleSubscription); }
      var _ :- cred;
      var active := store.Read(store.db.ActivePlanForApp(app));
      if active == Err(NoActiveSubscription) { return Err(NoSandboxEligibleSubscription); }
      var plan :- active;
      var products :- store.Read(Ok(store.db.SandboxProductsForApp(app)));
      if products == [] { return Err(NoSandboxEligibleSubscription); }
      r := ProvisionSandbox(app, plan, products, newKey);
    }

    method RotateSandboxKey(app: nat, newKey: string) returns (r: Result<string>)
      requires Valid()
      modifies store, gw, sandboxGW
      ensures P.Step(World(), r) == P.RotateSandboxKey(Cfg(), old(World()), app, newKey)
    {
      if !sandboxOn { return Err(SandboxNotConfigured); }
      var cred := store.Read(store.db.GetCredential(app));
      if cred == Err(NotFound) { return Err(NoSandboxKey); }
      var _ :- cred;
      var existing :- store.Read(store.db.GetSandboxKey(app));
      if existing == "" { return Err(NoSandboxKey); }
      var plan :- store.Read(store.db.ActivePlanForApp(app));
      var _ :- sandboxGW.EnsureConsumer(ConsumerName(app), newKey, P.Limit(plan));
      var _ :- store.Write(store.db.UpdateSandboxKey(app, newKey));
      return Ok(newKey);
    }

    method RotateKey(app: nat, newKey: string) returns (r: Result<string>)
      requires Valid()
      modifies store, gw, sandboxGW
      ensures P.Step(World(), r) == P.RotateKey(old(World()), app, newKey)
    {
      var cred := store.Read(store.db.GetCredential(app));
      if cred == Err(NotFound) { return Err(NoCredential); }
      var _ :- cred;
      var plan :- store.Read(store.db.ActivePlanForApp(app));
      var _ :- gw.EnsureConsumer(ConsumerName(app), newKey, P.Limit(plan));
      var _ :- store.Write(store.db.UpdateCredentialKey(app, newKey));
      return Ok(newKey);
    }

    // ---- admin.PlanService and admin.Service

    method UpdatePlan(id: nat, plan: Plan) returns (r: Result<Plan>)
      requires Valid()
      modifies store, gw, sandboxGW
      ensures P.Step(World(), r) == P.UpdatePlan(Cfg(), old(World()), id, plan)
    {
      var prior :- store.Read(store.db.GetPlan(id));
      var _ :- store.Write(store.db.UpdatePlan(id, plan));
      if plan.count != prior.count || plan.window != prior.window {
        var _ :- ReprovisionPlan(id);
      }
      return Ok(plan);
    }

    method CreateProduct(draft: Draft) returns (r: Result<Product>)
      requires Valid()
      modifies store
      ensures P.Step(World(), r) == P.CreateProduct(old(World()), draft)
      ensures r.Ok? ==>
                && Keeps(r.value, draft)
                && store.db.products == old(store.db.products)[old(store.db.nextProduct) := r.value]
    {
      SavedProducts.CreatedKeeps(World(), draft);
      var overlaps :- store.Read(Ok(store.db.ContextPathOverlaps(draft.contextPath, None)));
      if overlaps { return Err(ContextPathTaken); }
      var _ :- store.Write(store.db.CreateProduct(draft.Row()));
      return Ok(draft.Row());
    }

    method PathGuard(id: nat, prior: Product, draft: Draft) returns (r: Result<()>)
      requires Valid()
      modifies store
      ensures P.Step(World(), r) == P.PathGuard(old(World()), id, prior, draft)
    {
      if draft.contextPath != prior.contextPath {
        var overlaps :- store.Read(Ok(store.db.ContextPathOverlaps(draft.contextPath, Some(id))));
        if overlaps { return Err(ContextPathTaken); }
      }
      return Ok(());
    }

    method MigrationGuard(id: nat, prior: Product, draft: Draft) returns (r: Result<Option<nat>>)
      requires Valid()
      modifies store
      ensures P.Step(World(), r) == P.MigrationGuard(old(World()), id, prior, draft)
    {
      if draft.auth == Some(OAuth2) && prior.auth != OAuth2 {
        var n :- store.Read(Ok(store.db.CountActiveSubscriptions(id)));
        if n > 0 {
          var clients :- store.Read(Ok(store.db.OAuthClientsForProduct(id)));
          if |clients| < n { return Err(OAuthMigrationBlocked); }
        }
        return Ok(Some(n));
      }
      return Ok(None);
    }

    method ReprovisionIfChanged(id: nat, prior: Product, updated: Product, loaded: Option<nat>) returns (r: Result<()>)
      requires Valid()
      modifies store, gw, sandboxGW
      ensures P.Step(World(), r) == P.ReprovisionIfChanged(Cfg(), old(World()), id, prior, updated, loaded)
    {
      if updated.upstream != prior.upstream || updated.auth != prior.auth {
        var activeCount := loaded;
        if activeCount.None? {
          var n :- store.Read(Ok(store.db.CountActiveSubscriptions(id)));
          activeCount := Some(n);
        }
        if activeCount.value > 0 {
          r := ReprovisionRoute(id, []);
          return;
        }
      }
      return Ok(());
    }

    method EditRow(id: nat, draft: Draft) returns (r: Result<P.Edit>)
      requires Valid()
      modifies store
      ensures P.Step(World(), r) == P.EditRow(old(World()), id, draft)
    {
      var prior :- store.Read(store.db.GetProduct(id));
      var _ :- PathGuard(id, prior, draft);
      var loaded :- MigrationGuard(id, prior, draft);
      var _ :- store.Write(store.db.UpdateProduct(id, draft.Row()));
      return Ok(P.Edit(prior, draft.Row(), loaded));
    }

    method RebuildEdited(id: nat, e: P.Edit) returns (r: Result<()>)
      requires Valid()
      modifies store, gw, sandboxGW
      ensures P.Step(World(), r) == P.RebuildEdited(Cfg(), old(World()), id, e)
    {
      if e.updated.icon != "upload" {
        var _ :- store.Write(Ok(store.db));
      }
      r := ReprovisionIfChanged(id, e.prior, e.updated, e.loaded);
    }

    method UpdateProduct(id: nat, draft: Draft) returns (r: Result<Product>)
      requires Valid()
      modifies store, gw, sandboxGW
      ensures P.Step(World(), r) == P.UpdateProduct(Cfg(), old(World()), id, draft)
      ensures r.Ok? ==> Keeps(r.value, draft) && store.db.products == old(store.db.products)[id := r.value]
    {
      SavedProducts.EditedKeeps(Cfg(), World(), id, draft);
      var e :- EditRow(id, draft);
      var _ :- RebuildEdited(id, e);
      if e.updated.sandboxUpstream != e.prior.sandboxUpstream {
        var _ :- ReprovisionSandboxRoute(id, []);
      }
      return Ok(e.updated);
    }

    method DeleteProduct(id: nat) returns (r: Result<()>)
      requires Valid()
      modifies store, gw
      ensures P.Step(World(), r) == P.DeleteProduct(old(World()), id)
    {
      var n :- store.Read(Ok(store.db.CountActiveSubscriptions(id)));
      if n > 0 { return Err(HasSubscriptions); }
      var _ :- store.Write(store.db.DeleteProduct(id));
      var _ := gw.DeleteRoute(RouteID(id));
      return Ok(());
    }

    // ---- billing

    method MarkPaid(id: nat) returns (r: Result<()>)
      requires Valid()
      modifies store
      ensures P.Step(World(), r) == P.SettleInvoice(old(World()), id, Paid)
    {
      var pending := store.db.Unsettled(id);
      var _ :- store.Write(Ok(store.db.SettleInvoice(id, Paid)));
      if pending { return Ok(()); }
      r := TransitionError(id);
    }

    method Void(id: nat) returns (r: Result<()>)
      requires Valid()
      modifies store
      ensures P.Step(World(), r) == P.SettleInvoice(old(World()), id, InvoiceStatus.Void)
    {
      var pending := store.db.Unsettled(id);
      var _ :- store.Write(Ok(store.db.SettleInvoice(id, InvoiceStatus.Void)));
      if pending { return Ok(()); }
      r := TransitionError(id);
    }

    /** Why no row moved. */
    method TransitionError(id: nat) returns (r: Result<()>)
      modifies store`faults
      ensures store.faults == old(store.Rest())
      ensures r == Err(if !old(store.Failing(false)) && id !in store.db.invoices then NotFound else InvalidTransition)
    {
      var found := store.Read(store.db.GetInvoice(id));
      return Err(if found == Err(NotFound) then NotFound else InvalidTransition);
    }

    method SubscriptionActivated(app: nat, sub: nat, planId: nat) returns (r: Result<()>)
      requires Valid()
      modifies store
      ensures P.Step(World(), r) == P.SubscriptionActivated(old(World()), app, sub, planId)
    {
      var plan :- store.Read(store.db.GetPlan(planId));
      if plan.priceCents == 0 { return Ok(()); }
      var invoiced :- store.Read(Ok(store.db.PendingInvoiceExists(sub)));
      if invoiced { return Ok(()); }
      var team :- store.Read(store.db.TeamForApp(app));
      var _ :- store.Write(Ok(store.db.EnsureAccount(team)));
      r := store.Write(store.db.CreateInvoice(store.db.accounts[team], team, sub, plan));
    }
  }
}
