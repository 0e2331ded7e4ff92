/** Rate limits follow the plan: an approval applies the subscribed plan's limit, and a
    plan edit that reports success has reached every consumer on the plan. */
module PlanEdits {
  import opened Common
  import opened Naming
  import opened Tables
  import opened Protocol
  import opened Queries
  import opened Gateways

  /** The consumer carries this key and the plan's count and window. */
  predicate Carries(consumers: map<string, Consumer>, app: nat, key: string, plan: Plan) {
    && ConsumerName(app) in consumers
    && consumers[ConsumerName(app)].key == key
    && consumers[ConsumerName(app)].limit.count == plan.count
    && consumers[ConsumerName(app)].limit.window == plan.window
  }

  /** Everybody actively subscribed on the plan. */
  lemma EveryoneOnPlan(db: Db, plan: nat, app: nat)
    requires Sound(db) && app in db.creds && db.OnPlan(app, plan)
    ensures PlanConsumer(app, db.creds[app].key) in db.ConsumersForPlan(plan)
    ensures db.creds[app].sandboxKey != "" ==>
              PlanConsumer(app, db.creds[app].sandboxKey) in db.SandboxConsumersForPlan(plan)
  {
    CollectMembers(db.nextApp, db.PlanRow(plan));
    CollectMembers(db.nextApp, db.SandboxPlanRow(plan));
    assert app < db.nextApp;
    assert db.creds[app].sandboxKey != "" ==>
             db.SandboxPlanRow(plan)(app) == Some(PlanConsumer(app, db.creds[app].sandboxKey));
    assert db.PlanRow(plan)(app) == Some(PlanConsumer(app, db.creds[app].key));
  }

  ghost predicate KeysMatch(consumers: seq<PlanConsumer>) {
    forall c, d :: c in consumers && d in consumers && c.app == d.app ==> c.key == d.key
  }

  /** Applying a consumer of the list does not disturb one that is up to date. */
  lemma Reapplied(live: map<string, Consumer>, c: PlanConsumer, plan: Plan, app: nat, key: string)
    requires Carries(live, app, key, plan) && (c.app == app ==> c.key == key)
    ensures Carries(live[ConsumerName(c.app) := Consumer(c.key, Limit(plan))], app, key, plan)
  {
    NamesAreInjective();
  }

  lemma Applied(live: map<string, Consumer>, c: PlanConsumer, plan: Plan)
    ensures Carries(live[ConsumerName(c.app) := Consumer(c.key, Limit(plan))], c.app, c.key, plan)
  {
  }

  /** Applying the list keeps what is up to date ... */
  lemma {:induction false} AllKept(w: World, consumers: seq<PlanConsumer>, plan: Plan, app: nat, key: string)
    requires forall c :: c in consumers && c.app == app ==> c.key == key
    ensures Carries(w.gw.live.consumers, app, key, plan) ==>
              Carries(EnsureAll(w, consumers, plan).w.gw.live.consumers, app, key, plan)
    ensures Carries(w.sandbox.live.consumers, app, key, plan) ==>
              Carries(EnsureAllSandbox(w, consumers, plan).w.sandbox.live.consumers, app, key, plan)
    decreases |consumers|
  {
    hide Quieter;
    hide Carries;
    if consumers != [] {
      var c := consumers[0];
      var call := EnsureConsumer(ConsumerName(c.app), Consumer(c.key, Limit(plan)));
      if Carries(w.gw.live.consumers, app, key, plan) { Reapplied(w.gw.live.consumers, c, plan, app, key); }
      if Carries(w.sandbox.live.consumers, app, key, plan) { Reapplied(w.sandbox.live.consumers, c, plan, app, key); }
      AllKept(OnGateway(w, call).w, consumers[1..], plan, app, key);
      AllKept(OnSandbox(w, call).w, consumers[1..], plan, app, key);
    }
  }

  /** ... and brings each of its consumers up to date. */
  lemma {:induction false} AllApplied(w: World, consumers: seq<PlanConsumer>, plan: Plan, c: PlanConsumer)
    requires KeysMatch(consumers) && c in consumers
    ensures var s := EnsureAll(w, consumers, plan); s.r.Ok? ==> Carries(s.w.gw.live.consumers, c.app, c.key, plan)
    ensures var s := EnsureAllSandbox(w, consumers, plan);
            s.r.Ok? ==> Carries(s.w.sandbox.live.consumers, c.app, c.key, plan)
    decreases |consumers|
  {
    hide Quieter;
    hide Carries;
    var first, rest := consumers[0], consumers[1..];
    var call := EnsureConsumer(ConsumerName(first.app), Consumer(first.key, Limit(plan)));
    if c in rest {
      AllApplied(OnGateway(w, call).w, rest, plan, c);
      AllApplied(OnSandbox(w, call).w, rest, plan, c);
    } else {
      assert c == first;
      Applied(w.gw.live.consumers, c, plan);
      Applied(w.sandbox.live.consumers, c, plan);
      AllKept(OnGateway(w, call).w, rest, plan, c.app, c.key);
      AllKept(OnSandbox(w, call).w, rest, plan, c.app, c.key);
    }
  }

  lemma ReprovisionedPlan(cfg: Config, w: World, id: nat, app: nat)
    requires Sound(w.db) && app in w.db.creds && w.db.OnPlan(app, id)
    ensures var s := ReprovisionPlan(cfg, w, id);
            s.r.Ok? ==>
              && id in w.db.plans
              && Carries(s.w.gw.live.consumers, app, w.db.creds[app].key, w.db.plans[id])
              && (cfg.sandboxOn && w.db.creds[app].sandboxKey != "" ==>
                    Carries(s.w.sandbox.live.consumers, app, w.db.creds[app].sandboxKey, w.db.plans[id]))
  {
    hide Sound;
    hide Quieter;
    hide Carries;
    hide EnsureAll;
    hide EnsureAllSandbox;
    hide Db.ConsumersForPlan;
    hide Db.SandboxConsumersForPlan;
    hide Db.OnPlan;
    PlanConsumersMembers(w.db, id);
    EveryoneOnPlan(w.db, id, app);
    var s1 := Read(w, w.db.GetPlan(id));
    var s2 := Read(s1.w, Ok(s1.w.db.ConsumersForPlan(id)));
    if s1.r.Ok? && s2.r.Ok? {
      AllApplied(s2.w, s2.r.value, s1.r.value, PlanConsumer(app, w.db.creds[app].key));
      var s3 := EnsureAll(s2.w, s2.r.value, s1.r.value);
      var s4 := Read(s3.w, Ok(s3.w.db.SandboxConsumersForPlan(id)));
      if s3.r.Ok? && s4.r.Ok? {
        if w.db.creds[app].sandboxKey != "" {
          AllApplied(s4.w, s4.r.value, s1.r.value, PlanConsumer(app, w.db.creds[app].sandboxKey));
        }
        assert SameProduction(s3.w, EnsureAllSandbox(s4.w, s4.r.value, s1.r.value).w);
      }
    }
  }

  predicate SameProduction(w: World, next: World) {
    next.gw == w.gw
  }

  /** The application has an active subscription on the plan. */
  ghost predicate SubscribedOn(db: Db, app: nat, plan: nat) {
    exists p: nat :: ActiveIn(db.subs, app, p) && db.subs[SubKey(app, p)].plan == plan
  }

  /** A plan edit that changes the limit and reports success has given the new limit to
      every active subscriber's consumer, on both gateways. */
  lemma EditReachesEveryone(cfg: Config, w: World, id: nat, plan: Plan, app: nat)
    requires Sound(w.db) && app in w.db.creds && SubscribedOn(w.db, app, id)
    ensures var s := UpdatePlan(cfg, w, id, plan);
            s.r.Ok? && (plan.count != w.db.plans[id].count || plan.window != w.db.plans[id].window) ==>
              && Carries(s.w.gw.live.consumers, app, w.db.creds[app].key, plan)
              && (cfg.sandboxOn && w.db.creds[app].sandboxKey != "" ==>
                    Carries(s.w.sandbox.live.consumers, app, w.db.creds[app].sandboxKey, plan))
  {
    hide Quieter;
    hide Carries;
    hide ReprovisionPlan;
    var r := w.db.UpdatePlan(id, plan);
    if r.Ok? {
      SubscriberIsOnPlan(r.value, app, id);
      var s2 := Write(Read(w, w.db.GetPlan(id)).w, r);
      if s2.r.Ok? {
        ReprovisionedPlan(cfg, s2.w, id, app);
      }
    }
  }

  lemma SubscriberIsOnPlan(db: Db, app: nat, plan: nat)
    ensures SubscribedOn(db, app, plan) ==> db.OnPlan(app, plan)
  {
    if p: nat :| ActiveIn(db.subs, app, p) && db.subs[SubKey(app, p)].plan == plan {
      assert SubKey(app, p) in db.subs;
    }
  }

  /** A successful key-auth approval leaves a consumer with the stored key and the limit of
      the plan that was asked for. */
  lemma ApprovalAppliesPlan(cfg: Config, w: World, id: nat, newKey: string)
    requires Sound(w.db) && w.db.GetSubscription(id).Ok?
    ensures var s, rec := Approve(cfg, w, id, newKey), w.db.GetSubscription(id).value;
            s.r.Ok? && w.db.products[rec.product].auth.KeyAuth? ==>
              && s.w.db.Active(rec.app, rec.product)
              && rec.app in s.w.db.creds
              && s.w.db.creds[rec.app].key == (if rec.app in w.db.creds then w.db.creds[rec.app].key else newKey)
              && Carries(s.w.gw.live.consumers, rec.app, s.w.db.creds[rec.app].key, w.db.plans[rec.plan])
  {
    hide Sound;
    hide Quieter;
    hide Carries;
    hide ActivateOAuth;
    hide ActivateKeyAuth;
    hide SubscriptionActivated;
    var rec := w.db.GetSubscription(id).value;
    SubscriptionParts(w.db, id);
    var s2 := Read(Read(w, Ok(rec)).w, w.db.GetProduct(rec.product));
    ActivationAppliesPlan(cfg, s2.w, id, rec, newKey);
  }

  lemma SubscriptionParts(db: Db, id: nat)
    requires Sound(db) && db.GetSubscription(id).Ok?
    ensures var rec := db.GetSubscription(id).value;
            rec.product in db.products && rec.plan in db.plans && db.subIds[id] == SubKey(rec.app, rec.product)
  {
  }

  lemma ActivationAppliesPlan(cfg: Config, w: World, id: nat, rec: SubRecord, newKey: string)
    requires w.db.GetSubscription(id) == Ok(rec) && rec.plan in w.db.plans
    ensures var s := ActivateKeyAuth(cfg, w, id, rec, newKey);
            s.r.Ok? ==>
              && s.w.db.Active(rec.app, rec.product)
              && rec.app in s.w.db.creds
              && s.w.db.creds[rec.app].key == (if rec.app in w.db.creds then w.db.creds[rec.app].key else newKey)
              && Carries(s.w.gw.live.consumers, rec.app, s.w.db.creds[rec.app].key, w.db.plans[rec.plan])
  {
    hide Quieter;
    hide Write;
    hide Carries;
    hide ListAndActivate;
    hide Db.GetOrCreateCredential;
    var s1 := Read(w, w.db.GetPlan(rec.plan));
    var s2 := Write(s1.w, s1.w.db.GetOrCreateCredential(rec.app, newKey));
    if s1.r.Ok? && s2.r.Ok? {
      IssuedKey(s1.w, rec.app, newKey);
      var cred := s2.w.db.creds[rec.app];
      var s3 := OnGateway(s2.w, EnsureConsumer(ConsumerName(rec.app), Consumer(cred.key, Limit(s1.r.value))));
      Applied(s2.w.gw.live.consumers, PlanConsumer(rec.app, cred.key), s1.r.value);
      ListingActivates(cfg, s3.w, id, rec);
    }
  }

  /** A credential is issued once. */
  lemma IssuedKey(w: World, app: nat, newKey: string)
    ensures var s := Write(w, w.db.GetOrCreateCredential(app, newKey));
            s.r.Ok? ==>
              && app in s.w.db.creds && s.w.db.creds[app].key
                  == (if app in w.db.creds then w.db.creds[app].key else newKey)
              && s.w.db == w.db.(creds := s.w.db.creds) && s.w.gw == w.gw && s.w.sandbox == w.sandbox
  {
    hide Quieter;
  }

  lemma ListingActivates(cfg: Config, w: World, id: nat, rec: SubRecord)
    requires w.db.GetSubscription(id) == Ok(rec)
    ensures var s := ListAndActivate(cfg, w, id, rec);
            && s.w.db.creds == w.db.creds && s.w.gw.live.consumers == w.gw.live.consumers
            && (s.r.Ok? ==> s.w.db.Active(rec.app, rec.product))
  {
    hide Quieter;
    hide ReprovisionRoute;
    hide GrantSandbox;
  }
}
