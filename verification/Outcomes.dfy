/** When an operation succeeds, told from the database alone, which refusal it gives
    otherwise, and what it then returns; for worlds in which no call fails. A refusal
    leaves everything as it was. */
module Outcomes {
  import opened Common
  import opened Naming
  import opened ContextPaths
  import opened AllowLists
  import opened Tables
  import opened Protocol
  import opened Runs
  import opened Queries
  import opened Integrity
  import opened Safety
  import opened PlanEdits
  import opened Migration
  import opened Gateways
  import opened Reconciliation
  import opened Effects
  import opened OperationEffects

  /** Nothing is about to fail, the tables are sound and an issuer is configured. */
  ghost predicate Ready(cfg: Config, w: World) {
    Calm(w) && Sound(w.db) && cfg.issuer != ""
  }

  predicate Available(db: Db, product: nat) {
    product in db.products && db.products[product].published && db.products[product].lifecycle.Live?
  }

  /** A request is accepted exactly for an existing application, a published live product
      and an existing plan, unless the subscription is already active. It leaves a
      pending row that keeps its id, and a key that is issued only once. */
  lemma SubscribeOutcome(w: World, app: nat, product: nat, plan: nat, newKey: string)
    requires Calm(w)
    ensures var s := Subscribe(w, app, product, plan, newKey);
            var db := w.db;
            && (s.r.Ok? <==> app in db.apps && plan in db.plans && !db.Active(app, product) && Available(db, product))
            && (s.r == Err(NotFound) <==>
                  || product !in db.products || !db.products[product].published
                  || (Available(db, product) && plan !in db.plans))
            && (s.r == Err(ProductDeprecated) <==>
                  product in db.products && db.products[product].published && !db.products[product].lifecycle.Live?)
            && (s.r == Err(AlreadySubscribed) <==>
                  db.Active(app, product) && plan in db.plans && Available(db, product))
            && (s.r == Err(ForeignKey) <==>
                  app !in db.apps && !db.Active(app, product) && plan in db.plans && Available(db, product))
            && (s.r.Err? ==> s.w == w)
            && (s.r.Ok? ==>
                  var k := SubKey(app, product);
                  && k in s.w.db.subs
                  && s.w.db.subs[k] == Sub(if k in db.subs then db.subs[k].id else db.nextSub, plan, Pending)
                  && (if db.products[product].auth.OAuth2? then s.r == Ok(None) && s.w.db.creds == db.creds
                      else && app in s.w.db.creds && s.r == Ok(Some(s.w.db.creds[app].key))
                           && s.w.db.creds[app] == (if app in db.creds then db.creds[app] else Credential(newKey, ""))))
  {
    hide Quieter;
    hide RecordRequest;
    if product in w.db.products {
      RecordFailure(w, w.db.products[product].auth, app, product, plan, newKey);
      if app in w.db.apps && plan in w.db.plans {
        RecordOutcome(w, w.db.products[product].auth, app, product, plan, newKey);
      }
    }
  }

  lemma RecordOutcome(w: World, auth: Auth, app: nat, product: nat, plan: nat, newKey: string)
    requires Calm(w) && app in w.db.apps && product in w.db.products && plan in w.db.plans
    ensures var s, k := RecordRequest(w, auth, app, product, plan, newKey), SubKey(app, product);
            && s.r.Ok? && k in s.w.db.subs
            && s.w.db.subs[k] == Sub(if k in w.db.subs then w.db.subs[k].id else w.db.nextSub, plan, Pending)
            && (if auth.OAuth2? then s.r == Ok(None) && s.w.db.creds == w.db.creds
                else && app in s.w.db.creds && s.r == Ok(Some(s.w.db.creds[app].key))
                     && s.w.db.creds[app] == (if app in w.db.creds then w.db.creds[app] else Credential(newKey, "")))
  {
    hide Quieter;
  }

  lemma RecordFailure(w: World, auth: Auth, app: nat, product: nat, plan: nat, newKey: string)
    requires Calm(w) && product in w.db.products
    ensures var s := RecordRequest(w, auth, app, product, plan, newKey);
            && (plan in w.db.plans ==> (s.r.Ok? <==> app in w.db.apps))
            && (s.r.Err? ==> s.r.error.ForeignKey?)
            && (plan in w.db.plans && s.r.Err? ==> s.w == w)
  {
    hide Quieter;
  }

  // ---- approving and rejecting

  /** An approval goes through exactly for a subscription that exists and was not
      rejected, and then the subscription is active; approving twice is harmless. */
  lemma ApproveOutcome(cfg: Config, w: World, id: nat, newKey: string)
    requires Ready(cfg, w)
    ensures var s := Approve(cfg, w, id, newKey);
            && (s.r.Ok? <==> Approvable(w.db, id))
            && (s.r == Err(NotFound) <==> id !in w.db.subIds)
            && (s.r.Err? && id in w.db.subIds ==> s.r == Err(InvalidTransition))
            && (s.r.Err? ==> s.w == w)
            && (s.r.Ok? ==> s.w.db.subs == w.db.subs[w.db.subIds[id] := w.db.subs[w.db.subIds[id]].(status := Active)])
  {
    hide Sound;
    hide Quieter;
    hide ActivateKeyAuth;
    hide ActivateOAuth;
    hide SubscriptionActivated;
    SubscriptionExists(w.db, id);
    if Approvable(w.db, id) {
      var rec := w.db.GetSubscription(id).value;
      if w.db.products[rec.product].auth.OAuth2? {
        OAuthActivationSucceeds(cfg, w, id, rec);
        BillingSucceeds(ActivateOAuth(cfg, w, id, rec).w, rec.app, id, rec.plan);
      } else {
        KeyAuthActivationSucceeds(cfg, w, id, rec, newKey);
        BillingSucceeds(ActivateKeyAuth(cfg, w, id, rec, newKey).w, rec.app, id, rec.plan);
      }
    }
  }

  lemma SubscriptionExists(db: Db, id: nat)
    requires Sound(db)
    ensures db.GetSubscription(id).Ok? <==> id in db.subIds
    ensures id in db.subIds ==>
              var k := db.subIds[id];
              && k in db.subs && k.app in db.apps && k.product in db.products && db.subs[k].plan in db.plans
              && db.GetSubscription(id) == Ok(SubRecord(k.app, k.product, db.subs[k].plan, db.subs[k].status))
  {
  }

  lemma BillingSucceeds(w: World, app: nat, sub: nat, planId: nat)
    requires Calm(w) && planId in w.db.plans && app in w.db.apps && sub in w.db.subIds
    ensures SubscriptionActivated(w, app, sub, planId).r.Ok?
  {
    hide Quieter;
    hide Db.PendingInvoiceExists;
  }

  /** What both kinds of activation leave of the tables billing reads. */
  ghost predicate Activated(w: World, next: World, id: nat) {
    && Calm(next) && id in w.db.subIds && w.db.subIds[id] in w.db.subs
    && next.db.subs == w.db.subs[w.db.subIds[id] := w.db.subs[w.db.subIds[id]].(status := Active)]
    && next.db.plans == w.db.plans && next.db.apps == w.db.apps && next.db.subIds == w.db.subIds
  }

  lemma OAuthActivationSucceeds(cfg: Config, w: World, id: nat, rec: SubRecord)
    requires Ready(cfg, w) && w.db.GetSubscription(id) == Ok(rec)
    requires rec.product in w.db.products && w.db.products[rec.product].auth.OAuth2?
    ensures var s := ActivateOAuth(cfg, w, id, rec); s.r.Ok? && Activated(w, s.w, id)
  {
    hide Sound;
    hide ReprovisionRoute;
    hide RouteMatches;
    hide Audience;
    var cid := w.db.GetClientID(rec.app);
    ReprovisionMatches(cfg, w, rec.product, [if cid.Ok? then cid.value else ""]);
  }

  lemma KeyAuthActivationSucceeds(cfg: Config, w: World, id: nat, rec: SubRecord, newKey: string)
    requires Ready(cfg, w) && w.db.GetSubscription(id) == Ok(rec)
    requires rec.product in w.db.products && rec.plan in w.db.plans && rec.app in w.db.apps
    requires w.db.products[rec.product].auth.KeyAuth?
    ensures var s := ActivateKeyAuth(cfg, w, id, rec, newKey); s.r.Ok? && Activated(w, s.w, id)
  {
    hide Sound;
    hide Quieter;
    hide ListAndActivate;
    CredentialsSound(w.db, rec.app, newKey);
    var next := w.db.GetOrCreateCredential(rec.app, newKey).value;
    var s := OnGateway(w.(db := next), EnsureConsumer(ConsumerName(rec.app),
                                                      Consumer(next.creds[rec.app].key, Limit(w.db.plans[rec.plan]))));
    ListingSucceeds(cfg, s.w, id, rec);
  }

  lemma ListingSucceeds(cfg: Config, w: World, id: nat, rec: SubRecord)
    requires Ready(cfg, w) && w.db.GetSubscription(id) == Ok(rec)
    requires rec.product in w.db.products && w.db.products[rec.product].auth.KeyAuth?
    ensures var s := ListAndActivate(cfg, w, id, rec); s.r.Ok? && Activated(w, s.w, id)
  {
    hide Sound;
    hide ReprovisionRoute;
    hide ReprovisionSandboxRoute;
    hide RouteMatches;
    hide Audience;
    ReprovisionMatches(cfg, w, rec.product, [ConsumerName(rec.app)]);
    var s1 := ReprovisionRoute(cfg, w, rec.product, [ConsumerName(rec.app)]);
    var next := w.db.SetSubscriptionStatus(id, Active).value;
    GrantSandboxSucceeds(cfg, s1.w.(db := next), rec.app, rec.product);
  }

  lemma GrantSandboxSucceeds(cfg: Config, w: World, app: nat, product: nat)
    requires Calm(w) && product in w.db.products
    ensures GrantSandbox(cfg, w, app, product).r.Ok?
  {
    hide Db.SandboxConsumersForProduct;
    hide WithExtras;
  }

  lemma RebuildSucceeds(cfg: Config, w: World, product: nat)
    requires Ready(cfg, w) && product in w.db.products
    ensures ReprovisionRoute(cfg, w, product, []).r.Ok? && ReprovisionSandboxRoute(cfg, w, product, []).r.Ok?
  {
    hide Sound;
    hide ReprovisionRoute;
    hide Reconciled;
    ReprovisionReconciles(cfg, w, product);
    if cfg.sandboxOn { ReprovisionSandboxReconciles(cfg, w, product, []); }
  }

  /** A rejection goes through exactly for a subscription that exists and is not yet
      rejected. Together with ApproveOutcome: only a new request leads out of rejection. */
  lemma RejectOutcome(cfg: Config, w: World, id: nat)
    requires Ready(cfg, w)
    ensures var s := Reject(cfg, w, id);
            && (s.r.Ok? <==> Approvable(w.db, id))
            && (s.r == Err(NotFound) <==> id !in w.db.subIds)
            && (s.r.Err? && id in w.db.subIds ==> s.r == Err(InvalidTransition))
            && (s.r.Err? ==> s.w == w)
            && (s.r.Ok? ==>
                  s.w.db.subs == w.db.subs[w.db.subIds[id] := w.db.subs[w.db.subIds[id]].(status := Rejected)])
  {
    hide Sound;
    hide ReprovisionRoute;
    hide ReprovisionSandboxRoute;
    SubscriptionExists(w.db, id);
    if Approvable(w.db, id) {
      SetStatusSound(w.db, id, Rejected);
      var next := w.db.SetSubscriptionStatus(id, Rejected).value;
      var k := w.db.subIds[id];
      RebuildSucceeds(cfg, w.(db := next), k.product);
      RebuildSucceeds(cfg, ReprovisionRoute(cfg, w.(db := next), k.product, []).w, k.product);
    }
  }

  // ---- keys

  lemma {:induction false} NewestIsNewest(db: Db, app: nat, n: nat)
    ensures db.NewestActive(app, n).None? <==> forall p: nat :: p < n ==> !db.Active(app, p)
    ensures forall p: nat :: p < n && db.Active(app, p) ==>
              db.NewestActive(app, n).Some? && db.subs[SubKey(app, p)].id <= db.NewestActive(app, n).value.id
    ensures db.NewestActive(app, n).Some? ==>
              exists p: nat :: p < n && db.Active(app, p) && db.NewestActive(app, n).value == db.subs[SubKey(app, p)]
  {
    if n > 0 {
      NewestIsNewest(db, app, n - 1);
      var rest, newest := db.NewestActive(app, n - 1), db.NewestActive(app, n);
      assert newest == rest || (db.Active(app, n - 1) && newest == Some(db.subs[SubKey(app, n - 1)]));
      assert newest.None? ==> !db.Active(app, n - 1);
    }
  }

  /** The application's newest active subscription is for this product. */
  ghost predicate NewestFor(db: Db, app: nat, product: nat) {
    db.Active(app, product) && forall q: nat :: db.Active(app, q) ==>
        db.subs[SubKey(app, q)].id <= db.subs[SubKey(app, product)].id
  }

  /** The plan whose limit a rotation re-applies is that of the newest active subscription,
      and there is one exactly if there is an active subscription. */
  lemma ActivePlanIsNewest(db: Db, app: nat)
    requires Sound(db)
    ensures db.ActivePlanForApp(app).Ok? <==> exists p: nat :: db.Active(app, p)
    ensures db.ActivePlanForApp(app).Err? ==> db.ActivePlanForApp(app).error.NoActiveSubscription?
    ensures db.ActivePlanForApp(app).Ok? ==>
              exists p: nat :: NewestFor(db, app, p) && db.subs[SubKey(app, p)].plan in db.plans
                               && db.ActivePlanForApp(app).value == db.plans[db.subs[SubKey(app, p)].plan]
  {
    NewestIsNewest(db, app, db.nextProduct);
    if p: nat :| db.Active(app, p) {
      ActiveProduct(db, app, p);
      var q: nat :| q < db.nextProduct && db.Active(app, q)
                    && db.NewestActive(app, db.nextProduct).value == db.subs[SubKey(app, q)];
      forall r: nat | db.Active(app, r) ensures db.subs[SubKey(app, r)].id <= db.subs[SubKey(app, q)].id {
        ActiveProduct(db, app, r);
      }
      assert NewestFor(db, app, q);
    }
  }

  /** A rotation goes through exactly for an application with a credential and an active
      subscription, and then the database, the consumer and the answer hold the new key,
      and the consumer keeps the limit of the newest active plan. */
  lemma RotateKeyOutcome(cfg: Config, w: World, app: nat, newKey: string)
    requires Ready(cfg, w)
    ensures var s := RotateKey(w, app, newKey);
            && (s.r.Ok? <==> app in w.db.creds && exists p: nat :: w.db.Active(app, p))
            && (s.r == Err(NoCredential) <==> app !in w.db.creds)
            && (s.r.Err? && app in w.db.creds ==> s.r == Err(NoActiveSubscription))
            && (s.r.Err? ==> s.w == w)
            && (s.r.Ok? ==>
                  && s.r.value == newKey && s.w.db.creds == w.db.creds[app := w.db.creds[app].(key := newKey)]
                  && Carries(s.w.gw.live.consumers, app, newKey, w.db.ActivePlanForApp(app).value))
  {
    hide Sound;
    hide Quieter;
    hide Db.ActivePlanForApp;
    ActivePlanIsNewest(w.db, app);
  }

  lemma RotateSandboxKeyOutcome(cfg: Config, w: World, app: nat, newKey: string)
    requires Ready(cfg, w)
    ensures var s := RotateSandboxKey(cfg, w, app, newKey);
            && (s.r.Ok? <==> cfg.sandboxOn && HoldsSandboxKey(w.db, app) && exists p: nat :: w.db.Active(app, p))
            && (s.r == Err(SandboxNotConfigured) <==> !cfg.sandboxOn)
            && (s.r == Err(NoSandboxKey) <==> cfg.sandboxOn && !HoldsSandboxKey(w.db, app))
            && (s.r.Err? && cfg.sandboxOn && HoldsSandboxKey(w.db, app) ==> s.r == Err(NoActiveSubscription))
            && (s.r.Err? ==> s.w == w)
            && (s.r.Ok? ==>
                  && s.r.value == newKey && s.w.db.creds == w.db.creds[app := w.db.creds[app].(sandboxKey := newKey)]
                  && Carries(s.w.sandbox.live.consumers, app, newKey, w.db.ActivePlanForApp(app).value))
  {
    hide Sound;
    hide Quieter;
    hide Db.ActivePlanForApp;
    ActivePlanIsNewest(w.db, app);
  }

  /** The sandbox opens exactly for an application with a credential that is active on a
      product with a sandbox. A key is generated only the first time; the answer, the
      database and the sandbox consumer agree on it. */
  lemma EnableSandboxOutcome(cfg: Config, w: World, app: nat, newKey: string)
    requires Ready(cfg, w) && newKey != ""
    ensures var s := EnableSandbox(cfg, w, app, newKey);
            && (s.r.Ok? <==>
                  && cfg.sandboxOn && app in w.db.creds
                  && exists p: nat :: w.db.Active(app, p) && w.db.products[p].sandboxUpstream != "")
            && (s.r == Err(SandboxNotConfigured) <==> !cfg.sandboxOn)
            && (s.r.Err? && cfg.sandboxOn ==> s.r == Err(NoSandboxEligibleSubscription))
            && (s.r.Err? ==> s.w == w)
            && (s.r.Ok? ==>
                  var key := if w.db.creds[app].sandboxKey != "" then w.db.creds[app].sandboxKey else newKey;
                  && s.r.value == key
                  && s.w.db == w.db.(creds := w.db.creds[app := w.db.creds[app].(sandboxKey := key)])
                  && Carries(s.w.sandbox.live.consumers, app, key, w.db.ActivePlanForApp(app).value))
  {
    hide Sound;
    hide Quieter;
    hide ProvisionSandbox;
    hide Db.ActivePlanForApp;
    hide Db.SandboxProductsForApp;
    ActivePlanIsNewest(w.db, app);
    SandboxProductsForAppMembers(w.db, app);
    var products := w.db.SandboxProductsForApp(app);
    if products != [] {
      assert products[0] in products;
    }
    forall p: nat | w.db.Active(app, p) ensures p in w.db.products {
      ActiveProduct(w.db, app, p);
    }
    if p: nat :| w.db.Active(app, p) && w.db.products[p].sandboxUpstream != "" {
      assert p in products;
    }
    if cfg.sandboxOn && app in w.db.creds && w.db.ActivePlanForApp(app).Ok? {
      ProvisionSandboxSucceeds(cfg, w, app, w.db.ActivePlanForApp(app).value, newKey);
    }
  }

  lemma ProvisionSandboxSucceeds(cfg: Config, w: World, app: nat, plan: Plan, newKey: string)
    requires Calm(w) && Sound(w.db) && cfg.sandboxOn && app in w.db.creds && newKey != ""
    ensures var s := ProvisionSandbox(cfg, w, app, plan, w.db.SandboxProductsForApp(app), newKey);
            var key := if w.db.creds[app].sandboxKey != "" then w.db.creds[app].sandboxKey else newKey;
            && s.r == Ok(key)
            && s.w.db == w.db.(creds := w.db.creds[app := w.db.creds[app].(sandboxKey := key)])
            && Carries(s.w.sandbox.live.consumers, app, key, plan)
  {
    hide Sound;
    hide ReprovisionAllSandbox;
    hide Db.SandboxProductsForApp;
    var key := if w.db.creds[app].sandboxKey == "" then newKey else w.db.creds[app].sandboxKey;
    var installed := w.sandbox.After(EnsureConsumer(ConsumerName(app), Consumer(key, Limit(plan))));
    SandboxesRebuilt(cfg, w.(sandbox := installed), app, key);
  }

  lemma SandboxesRebuilt(cfg: Config, w: World, app: nat, key: string)
    requires Calm(w) && Sound(w.db) && cfg.sandboxOn && app in w.db.creds && key != ""
    ensures var next := w.db.UpdateSandboxKey(app, key).value;
            ReprovisionAllSandbox(cfg, w.(db := next), w.db.SandboxProductsForApp(app), ConsumerName(app)).r.Ok?
  {
    hide Sound;
    hide ReprovisionAllSandbox;
    hide Db.SandboxProductsForApp;
    hide Framed;
    hide Settled;
    hide Audience;
    CredentialsSound(w.db, app, key);
    SandboxProductsForAppMembers(w.db, app);
    KeyHolderIsCalled(w.db, app, key);
    var products := w.db.SandboxProductsForApp(app);
    RebuildAllSandboxes(cfg, w.(db := w.db.UpdateSandboxKey(app, key).value), products, ConsumerName(app),
                        set p | p in products);
  }

  // ---- cancelling and deleting applications

  /** Cancelling works for every existing product, subscribed or not, and removes just the
      one subscription. */
  lemma UnsubscribeOutcome(cfg: Config, w: World, app: nat, product: nat)
    requires Ready(cfg, w)
    ensures var s := Unsubscribe(cfg, w, app, product);
            && (s.r.Ok? <==> product in w.db.products)
            && (s.r.Err? ==> s.r == Err(NotFound) && s.w == w)
            && s.w.db == w.db.DeleteSubscription(app, product)
            && s.w.db.subs == w.db.subs - {SubKey(app, product)}
  {
    hide Sound;
    hide ReprovisionSandboxRoute;
    hide Db.DropSubscriptions;
    UnsubscribedRow(w.db, app, product);
    var next := w.db.DeleteSubscription(app, product);
    if product in w.db.products {
      RebuildSucceeds(cfg, w.(db := next), product);
      RebuildSucceeds(cfg, ReprovisionRoute(cfg, w.(db := next), product, []).w, product);
    } else {
      NoSubscription(w.db, app, product);
      UnsubscribedNothing(w.db, app, product);
    }
  }

  lemma UnsubscribedRow(db: Db, app: nat, product: nat)
    requires Sound(db)
    ensures var next := db.DeleteSubscription(app, product);
            && Sound(next) && next.subs == db.subs - {SubKey(app, product)}
            && next.products == db.products && next.apps == db.apps && next.creds == db.creds
  {
    DropSubscriptionsSound(db, {SubKey(app, product)});
  }

  lemma {:induction false} UnsubscribeAllSucceeds(cfg: Config, w: World, app: nat, products: seq<nat>)
    requires Ready(cfg, w) && forall p :: p in products ==> p in w.db.products
    ensures var s := UnsubscribeAll(cfg, w, app, products);
            && s.r.Ok? && Ready(cfg, s.w) && s.w.db.apps == w.db.apps && s.w.db.creds == w.db.creds
            && s.w.gw.live.consumers == w.gw.live.consumers && s.w.sandbox.live.consumers == w.sandbox.live.consumers
            && forall k :: k in s.w.db.subs <==> k in w.db.subs && !(k.app == app && k.product in products)
    decreases |products|
  {
    hide Sound;
    hide Unsubscribe;
    if products != [] {
      UnsubscribedRow(w.db, app, products[0]);
      UnsubscribeOutcome(cfg, w, app, products[0]);
      UnsubscribeKeepsConsumers(cfg, w, app, products[0]);
      UnsubscribeAllSucceeds(cfg, Unsubscribe(cfg, w, app, products[0]).w, app, products[1..]);
      assert products == [products[0]] + products[1..];
    }
  }

  lemma UnsubscribeKeepsConsumers(cfg: Config, w: World, app: nat, product: nat)
    ensures var s := Unsubscribe(cfg, w, app, product);
            s.w.gw.live.consumers == w.gw.live.consumers && s.w.sandbox.live.consumers == w.sandbox.live.consumers
  {
    hide Quieter;
    hide ReprovisionRoute;
    hide ReprovisionSandboxRoute;
  }

  /** Deleting an application always goes through and takes exactly its own rows, the
      application, its credential and its subscriptions, and exactly its own consumers:
      in production if it has a credential, in the sandbox if it holds a sandbox key. */
  lemma DeleteApplicationOutcome(cfg: Config, w: World, app: nat)
    requires Ready(cfg, w)
    ensures var s := DeleteApplication(cfg, w, app);
            && s.r.Ok? && s.w.db.apps == w.db.apps - {app} && s.w.db.creds == w.db.creds - {app}
            && (forall k :: k in s.w.db.subs <==> k in w.db.subs && k.app != app)
            && s.w.gw.live.consumers == w.gw.live.consumers - (if app in w.db.creds then {ConsumerName(app)} else {})
            && s.w.sandbox.live.consumers
               == w.sandbox.live.consumers
                  - (if cfg.sandboxOn && HoldsSandboxKey(w.db, app) then {ConsumerName(app)} else {})
  {
    hide Sound;
    hide UnsubscribeAll;
    hide RemoveConsumers;
    hide Db.SubscriptionsForApp;
    var products := w.db.SubscriptionsForApp(app);
    SubscriptionsForAppMembers(w.db, app);
    forall p | p in products ensures p in w.db.products {
      SubscribedProduct(w.db, app, p);
    }
    UnsubscribeAllSucceeds(cfg, w, app, products);
    RemovalSucceeds(cfg, UnsubscribeAll(cfg, w, app, products).w, app);
  }

  lemma SubscribedProduct(db: Db, app: nat, product: nat)
    requires Sound(db) && SubKey(app, product) in db.subs
    ensures product in db.products
  {
  }

  lemma RemovalSucceeds(cfg: Config, w: World, app: nat)
    requires Calm(w)
    ensures var s := RemoveConsumers(cfg, w, app);
            && s.r.Ok? && Calm(s.w)
            && s.w.gw.live.consumers == w.gw.live.consumers - (if app in w.db.creds then {ConsumerName(app)} else {})
            && s.w.sandbox.live.consumers
               == w.sandbox.live.consumers
                  - (if cfg.sandboxOn && HoldsSandboxKey(w.db, app) then {ConsumerName(app)} else {})
  {
  }

  /** Registering a client id works for every existing application and every well-formed
      or empty id. */
  lemma SetOIDCClientIDOutcome(cfg: Config, w: World, app: nat, clientId: string)
    requires Ready(cfg, w)
    ensures var s := SetOIDCClientID(cfg, w, app, clientId);
            && (s.r.Ok? <==> app in w.db.apps && (clientId == "" || ValidClientID(clientId)))
            && (s.r == Err(InvalidClientID) <==> clientId != "" && !ValidClientID(clientId))
            && (s.r.Err? && (clientId == "" || ValidClientID(clientId)) ==> s.r == Err(NotFound))
            && (s.r.Err? ==> s.w == w)
            && (s.r.Ok? ==> s.w.db == w.db.(apps := w.db.apps[app := w.db.apps[app].(clientId := clientId)]))
  {
    hide Sound;
    hide ReprovisionAll;
    hide Framed;
    hide Settled;
    hide Db.OAuthProductsForApp;
    if app in w.db.apps {
      var next := w.db.SetClientID(app, clientId).value;
      ApplicationsSound(w.db, app, 0, clientId);
      OAuthProductsForAppMembers(next, app);
      var products := next.OAuthProductsForApp(app);
      forall p | p in products ensures p in next.products {
        ActiveProduct(next, app, p);
      }
      RebuildAll(cfg, w.(db := next), products, set p | p in products);
    }
  }

  // ---- products, plans and invoices

  /** A product can be deleted exactly while nobody is active on it; its production route
      and its remaining subscriptions go with it. */
  lemma DeleteProductOutcome(cfg: Config, w: World, id: nat)
    requires Ready(cfg, w)
    ensures var s := DeleteProduct(w, id);
            && (s.r.Ok? <==> id in w.db.products && forall a: nat :: !w.db.Active(a, id))
            && (s.r == Err(HasSubscriptions) <==> exists a: nat :: w.db.Active(a, id))
            && (s.r.Err? && (forall a: nat :: !w.db.Active(a, id)) ==> s.r == Err(NotFound))
            && (s.r.Err? ==> s.w == w)
            && (s.r.Ok? ==>
                  && s.w.db.products == w.db.products - {id}
                  && (forall k :: k in s.w.db.subs <==> k in w.db.subs && k.product != id)
                  && RouteID(id) !in s.w.gw.live.routes)
  {
    hide Sound;
    hide Quieter;
    hide Db.CountActiveSubscriptions;
    CountIsZero(w.db, id);
  }

  /** A product can be created exactly if its context path overlaps no stored one and its
      slug is free. */
  lemma CreateProductOutcome(w: World, draft: Draft)
    requires Calm(w)
    ensures var s := CreateProduct(w, draft);
            && (s.r.Ok? <==>
                  && !w.db.ContextPathOverlaps(draft.contextPath, None)
                  && forall p :: p in w.db.products ==> w.db.products[p].slug != draft.slug)
            && (s.r == Err(ContextPathTaken) <==> w.db.ContextPathOverlaps(draft.contextPath, None))
            && (s.r.Err? && !w.db.ContextPathOverlaps(draft.contextPath, None) ==> s.r == Err(SlugTaken))
            && (s.r.Err? ==> s.w == w)
            && (s.r.Ok? ==>
                  && Keeps(s.r.value, draft)
                  && s.w.db == w.db.(products := w.db.products[w.db.nextProduct := s.r.value],
                                     nextProduct := w.db.nextProduct + 1)
                  && s.w.gw == w.gw && s.w.sandbox == w.sandbox)
  {
    hide Quieter;
    if p :| p in w.db.products && w.db.products[p].contextPath == draft.contextPath {
      assert w.db.ContextPathOverlaps(draft.contextPath, None);
    }
  }

  /** The edit moves the path onto one that overlaps another product's. */
  predicate PathBlocked(db: Db, id: nat, draft: Draft)
    requires id in db.products
  {
    draft.contextPath != db.products[id].contextPath && db.ContextPathOverlaps(draft.contextPath, Some(id))
  }

  /** The edit turns a key-auth product to oauth2 while an active subscriber has no client id. */
  ghost predicate MigrationBlocked(db: Db, id: nat, draft: Draft)
    requires id in db.products
  {
    draft.auth == Some(OAuth2) && db.products[id].auth.KeyAuth? && !EveryoneReady(db, id)
  }

  /** Another product has the slug. */
  predicate SlugUsed(db: Db, id: nat, slug: string) {
    exists p :: p in db.products && p != id && db.products[p].slug == slug
  }

  /** Another product has the very path. */
  predicate PathUsed(db: Db, id: nat, path: string) {
    exists p :: p in db.products && p != id && db.products[p].contextPath == path
  }

  /** The product exists and nothing speaks against the edit. */
  ghost predicate Editable(db: Db, id: nat, draft: Draft) {
    && id in db.products && !PathBlocked(db, id, draft) && !MigrationBlocked(db, id, draft)
    && !SlugUsed(db, id, draft.slug) && !PathUsed(db, id, draft.contextPath)
  }

  /** A product can be edited exactly if it exists, a new path overlaps none of the others,
      a switch to oauth2 finds everybody ready, and slug and path are free. Each obstacle
      has its error; the path comes before the switch, and the switch before the slug. */
  lemma UpdateProductOutcome(cfg: Config, w: World, id: nat, draft: Draft)
    requires Ready(cfg, w)
    ensures var s, db := UpdateProduct(cfg, w, id, draft), w.db;
            && (s.r.Ok? <==> Editable(db, id, draft))
            && (s.r == Err(NotFound) <==> id !in db.products)
            && (id in db.products ==>
                  && (s.r == Err(OAuthMigrationBlocked) <==>
                        !PathBlocked(db, id, draft) && MigrationBlocked(db, id, draft))
                  && (s.r == Err(SlugTaken) <==>
                        !PathBlocked(db, id, draft) && !MigrationBlocked(db, id, draft) && SlugUsed(db, id, draft.slug))
                  && (s.r == Err(ContextPathTaken) <==>
                        || PathBlocked(db, id, draft)
                        || (!MigrationBlocked(db, id, draft) && !SlugUsed(db, id, draft.slug)
                            && PathUsed(db, id, draft.contextPath))))
            && (s.r.Err? ==> s.r.error in {NotFound, ContextPathTaken, OAuthMigrationBlocked, SlugTaken})
            && (s.r.Err? ==> s.w == w)
            && (s.r.Ok? ==> Keeps(s.r.value, draft) && s.w.db == db.(products := db.products[id := s.r.value]))
  {
    hide Sound;
    hide PathBlocked;
    hide MigrationBlocked;
    hide EditRow;
    hide RebuildEdited;
    hide ReprovisionSandboxRoute;
    EditRowCases(w, id, draft);
    EditRowOutcome(w, id, draft);
    CalmEditRow(w, id, draft);
    var s1 := EditRow(w, id, draft);
    if s1.r.Ok? {
      ProductsSound(w.db, id, draft.Row());
      CalmRebuild(cfg, s1.w, id, s1.r.value);
      RebuildSucceeds(cfg, RebuildEdited(cfg, s1.w, id, s1.r.value).w, id);
    }
  }

  /** Which edits get as far as their row, and what stops the others. */
  lemma EditRowOutcome(w: World, id: nat, draft: Draft)
    requires Calm(w) && Sound(w.db)
    ensures var r, db := EditRow(w, id, draft).r, w.db;
            && (r.Ok? <==> Editable(db, id, draft))
            && (id !in db.products ==> r == Err(NotFound))
            && (id in db.products ==>
                  && (PathBlocked(db, id, draft) ==> r == Err(ContextPathTaken))
                  && (!PathBlocked(db, id, draft) && MigrationBlocked(db, id, draft) ==>
                      r == Err(OAuthMigrationBlocked))
                  && (!PathBlocked(db, id, draft) && !MigrationBlocked(db, id, draft) && r.Err? ==>
                        r == Err(if SlugUsed(db, id, draft.slug) then SlugTaken else ContextPathTaken)))
  {
    hide Sound;
    hide Quieter;
    hide MigrationGuard;
    hide EveryoneReady;
    hide Db.UniqueError;
    hide Db.ContextPathOverlaps;
    hide Db.CountActiveSubscriptions;
    if id in w.db.products {
      var prior := w.db.products[id];
      UniqueErrorIs(w.db, draft.Row(), id);
      GuardIsExact(w, id, prior, draft);
      CalmGuard(w, id, prior, draft);
    }
  }

  lemma UniqueErrorIs(db: Db, row: Product, id: nat)
    ensures db.UniqueError(row, Some(id))
            == if SlugUsed(db, id, row.slug) then Some(SlugTaken)
               else if PathUsed(db, id, row.contextPath) then Some(ContextPathTaken) else None
  {
    if p :| p in db.products && p != id && db.products[p].slug == row.slug {
      assert Some(id) != Some(p);
    }
    if p :| p in db.products && p != id && db.products[p].contextPath == row.contextPath {
      assert Some(id) != Some(p);
    }
  }

  lemma CalmGuard(w: World, id: nat, prior: Product, draft: Draft)
    requires Calm(w)
    ensures MigrationGuard(w, id, prior, draft).w == w
  {
    hide Db.CountActiveSubscriptions;
    hide Db.OAuthClientsForProduct;
  }

  lemma CalmEditRow(w: World, id: nat, draft: Draft)
    requires Calm(w)
    ensures EditRow(w, id, draft).r.Err? ==> EditRow(w, id, draft).w == w
  {
    hide Db.UniqueError;
    hide Db.ContextPathOverlaps;
    hide Db.CountActiveSubscriptions;
    hide Db.OAuthClientsForProduct;
  }

  lemma CalmRebuild(cfg: Config, w: World, id: nat, e: Edit)
    requires Ready(cfg, w) && id in w.db.products
    ensures RebuildEdited(cfg, w, id, e).r.Ok?
  {
    hide Sound;
    hide ReprovisionRoute;
    hide Db.CountActiveSubscriptions;
    RebuildSucceeds(cfg, w, id);
  }

  /** A new application belongs to the given team, has no client id, and changes no other
      row; a new plan is stored as submitted, exactly if its name is free. */
  lemma NewRowOutcome(w: World, team: nat, plan: Plan)
    requires Calm(w)
    ensures var s, db := Write(w, Ok(w.db.CreateApplication(team))), w.db;
            s.r.Ok? && s.w == w.(db := db.(apps := db.apps[db.nextApp := App(team, "")], nextApp := db.nextApp + 1))
    ensures var s, db := Write(w, w.db.CreatePlan(plan)), w.db;
            && (s.r.Ok? <==> forall p :: p in db.plans ==> db.plans[p].name != plan.name)
            && (s.r.Err? ==> s.r == Err(Error.PlanNameTaken) && s.w == w)
            && (s.r.Ok? ==> s.w == w.(db := db.(plans := db.plans[db.nextPlan := plan], nextPlan := db.nextPlan + 1)))
  {
    hide Quieter;
  }

  /** A plan can be edited exactly if it exists and its name stays unique. */
  lemma UpdatePlanOutcome(cfg: Config, w: World, id: nat, plan: Plan)
    requires Calm(w)
    ensures var s := UpdatePlan(cfg, w, id, plan);
            && (s.r.Ok? <==>
                  id in w.db.plans && forall p :: p in w.db.plans && p != id ==> w.db.plans[p].name != plan.name)
            && (s.r == Err(NotFound) <==> id !in w.db.plans)
            && (s.r.Err? && id in w.db.plans ==> s.r == Err(Error.PlanNameTaken))
            && (s.r.Err? ==> s.w == w)
            && (s.r.Ok? ==> s.r.value == plan && s.w.db == w.db.(plans := w.db.plans[id := plan]))
            && (id in w.db.plans && plan.count == w.db.plans[id].count && plan.window == w.db.plans[id].window ==>
                  s.w.gw == w.gw && s.w.sandbox == w.sandbox)
  {
    hide ReprovisionPlan;
    if id in w.db.plans {
      CalmReprovisionPlan(cfg, w.(db := w.db.(plans := w.db.plans[id := plan])), id);
    }
  }

  lemma CalmReprovisionPlan(cfg: Config, w: World, id: nat)
    requires Calm(w) && id in w.db.plans
    ensures ReprovisionPlan(cfg, w, id).r.Ok?
  {
    hide EnsureAll;
    hide EnsureAllSandbox;
    hide Db.ConsumersForPlan;
    hide Db.SandboxConsumersForPlan;
    var s3 := EnsureAll(w, w.db.ConsumersForPlan(id), w.db.plans[id]);
    CalmEnsureAll(w, w.db.ConsumersForPlan(id), w.db.plans[id]);
    CalmEnsureAll(s3.w, s3.w.db.SandboxConsumersForPlan(id), w.db.plans[id]);
  }

  lemma {:induction false} CalmEnsureAll(w: World, consumers: seq<PlanConsumer>, plan: Plan)
    requires Calm(w)
    ensures EnsureAll(w, consumers, plan).r.Ok? && EnsureAllSandbox(w, consumers, plan).r.Ok?
    decreases |consumers|
  {
    if consumers != [] {
      var c := consumers[0];
      CalmEnsureAll(OnGateway(w, EnsureConsumer(ConsumerName(c.app), Consumer(c.key, Limit(plan)))).w,
                    consumers[1..], plan);
      CalmEnsureAll(OnSandbox(w, EnsureConsumer(ConsumerName(c.app), Consumer(c.key, Limit(plan)))).w,
                    consumers[1..], plan);
    }
  }

  /** An invoice can be settled exactly while it is pending. */
  lemma SettleInvoiceOutcome(w: World, id: nat, status: InvoiceStatus)
    requires Calm(w)
    ensures var s := Protocol.SettleInvoice(w, id, status);
            && (s.r.Ok? <==> w.db.Unsettled(id))
            && (s.r == Err(NotFound) <==> id !in w.db.invoices)
            && (s.r == Err(InvalidTransition) <==> id in w.db.invoices && !w.db.invoices[id].status.Unpaid?)
            && (s.r.Err? ==> s.w == w)
            && (s.r.Ok? ==> s.w.db == w.db.(invoices := w.db.invoices[id := w.db.invoices[id].(status := status)]))
  {
  }

  // ---- every operation

  /** What an operation needs, told from the database before it. */
  ghost predicate Accepted(cfg: Config, db: Db, op: Op) {
    match op
    case NewApplication(_) => true
    case NewProduct(draft) =>
      && Runs.Acceptable(cfg, draft) && !db.ContextPathOverlaps(draft.contextPath, None)
      && forall p :: p in db.products ==> db.products[p].slug != draft.slug
    case EditProduct(id, draft) => Runs.Acceptable(cfg, draft) && Editable(db, id, draft)
    case RemoveProduct(id) => id in db.products && forall a: nat :: !db.Active(a, id)
    case NewPlan(plan) => forall p :: p in db.plans ==> db.plans[p].name != plan.name
    case EditPlan(id, plan) => id in db.plans && forall p :: p in db.plans && p != id ==> db.plans[p].name != plan.name
    case Request(app, product, planId, _) =>
      app in db.apps && planId in db.plans && !db.Active(app, product) && Available(db, product)
    case Grant(sub, _) => Approvable(db, sub)
    case Refuse(sub) => Approvable(db, sub)
    case Cancel(_, product) => product in db.products
    case RegisterClient(app, clientId) => app in db.apps && (clientId == "" || ValidClientID(clientId))
    case Rotate(app, _) => app in db.creds && exists p: nat :: db.Active(app, p)
    case OpenSandbox(app, _) =>
      && cfg.sandboxOn && app in db.creds
      && exists p: nat :: db.Active(app, p) && p in db.products && db.products[p].sandboxUpstream != ""
    case RotateSandbox(app, _) => cfg.sandboxOn && HoldsSandboxKey(db, app) && exists p: nat :: db.Active(app, p)
    case RemoveApplication(_) => true
    case Settle(invoice) => db.Unsettled(invoice)
    case VoidInvoice(invoice) => db.Unsettled(invoice)
  }

  /** An operation goes through exactly if it is acceptable; one that is refused leaves
      tables and gateways as they were. */
  lemma AcceptedExactly(cfg: Config, w: World, op: Op)
    requires Ready(cfg, w)
    ensures Do(cfg, w, op).r.Ok? <==> Accepted(cfg, w.db, op)
    ensures Do(cfg, w, op).r.Err? ==> Do(cfg, w, op).w == w
  {
    hide Sound;
    hide Quieter;
    hide Do;
    hide Accepted;
    match op
    case NewApplication(_) => CatalogueAccepted(cfg, w, op);
    case NewProduct(_) => CatalogueAccepted(cfg, w, op);
    case EditProduct(_, _) => CatalogueAccepted(cfg, w, op);
    case RemoveProduct(_) => CatalogueAccepted(cfg, w, op);
    case NewPlan(_) => CatalogueAccepted(cfg, w, op);
    case EditPlan(_, _) => CatalogueAccepted(cfg, w, op);
    case Settle(_) => CatalogueAccepted(cfg, w, op);
    case VoidInvoice(_) => CatalogueAccepted(cfg, w, op);
    case Rotate(_, _) => KeysAccepted(cfg, w, op);
    case OpenSandbox(_, _) => KeysAccepted(cfg, w, op);
    case RotateSandbox(_, _) => KeysAccepted(cfg, w, op);
    case _ => SubscriptionsAccepted(cfg, w, op);
  }

  lemma CatalogueAccepted(cfg: Config, w: World, op: Op)
    requires Ready(cfg, w)
    requires || op.NewApplication? || op.NewProduct? || op.EditProduct? || op.RemoveProduct?
             || op.NewPlan? || op.EditPlan? || op.Settle? || op.VoidInvoice?
    ensures Do(cfg, w, op).r.Ok? <==> Accepted(cfg, w.db, op)
    ensures Do(cfg, w, op).r.Err? ==> Do(cfg, w, op).w == w
  {
    hide Sound;
    hide Quieter;
    hide UpdatePlan;
    hide CreateProduct;
    hide UpdateProduct;
    hide DeleteProduct;
    hide Protocol.SettleInvoice;
    hide Editable;
    match op
    case NewApplication(team) => NewRowOutcome(w, team, Plan("", 0, 0, 0, ""));
    case NewProduct(draft) => CreateProductOutcome(w, draft);
    case EditProduct(id, draft) => UpdateProductOutcome(cfg, w, id, draft);
    case RemoveProduct(id) => DeleteProductOutcome(cfg, w, id);
    case NewPlan(plan) => NewRowOutcome(w, 0, plan);
    case EditPlan(id, plan) => UpdatePlanOutcome(cfg, w, id, plan);
    case Settle(invoice) => SettleInvoiceOutcome(w, invoice, Paid);
    case VoidInvoice(invoice) => SettleInvoiceOutcome(w, invoice, Void);
  }

  lemma KeysAccepted(cfg: Config, w: World, op: Op)
    requires Ready(cfg, w) && (op.Rotate? || op.OpenSandbox? || op.RotateSandbox?)
    ensures Do(cfg, w, op).r.Ok? <==> Accepted(cfg, w.db, op)
    ensures Do(cfg, w, op).r.Err? ==> Do(cfg, w, op).w == w
  {
    hide Sound;
    hide Quieter;
    hide RotateKey;
    hide EnableSandbox;
    hide RotateSandboxKey;
    match op
    case Rotate(app, newKey) => RotateKeyOutcome(cfg, w, app, newKey);
    case RotateSandbox(app, newKey) => RotateSandboxKeyOutcome(cfg, w, app, newKey);
    case OpenSandbox(app, newKey) =>
      EnableSandboxOutcome(cfg, w, app, newKey);
      forall p: nat | w.db.Active(app, p) ensures p in w.db.products {
        ActiveProduct(w.db, app, p);
      }
  }

  lemma SubscriptionsAccepted(cfg: Config, w: World, op: Op)
    requires Ready(cfg, w)
    requires op.Request? || op.Grant? || op.Refuse? || op.Cancel? || op.RegisterClient? || op.RemoveApplication?
    ensures Do(cfg, w, op).r.Ok? <==> Accepted(cfg, w.db, op)
    ensures Do(cfg, w, op).r.Err? ==> Do(cfg, w, op).w == w
  {
    hide Sound;
    hide Quieter;
    hide Subscribe;
    hide Approve;
    hide Reject;
    hide Unsubscribe;
    hide SetOIDCClientID;
    hide DeleteApplication;
    match op
    case Request(app, product, planId, newKey) => SubscribeOutcome(w, app, product, planId, newKey);
    case Grant(sub, newKey) => ApproveOutcome(cfg, w, sub, newKey);
    case Refuse(sub) => RejectOutcome(cfg, w, sub);
    case Cancel(app, product) => UnsubscribeOutcome(cfg, w, app, product);
    case RegisterClient(app, clientId) => SetOIDCClientIDOutcome(cfg, w, app, clientId);
    case RemoveApplication(app) => DeleteApplicationOutcome(cfg, w, app);
  }
}
