/** Which consumers an operation may write, and with which key and limit: whatever fails, no
    operation touches another consumer, on either gateway. */
module ConsumerWrites {
  import opened Common
  import opened Naming
  import opened Tables
  import opened Protocol
  import opened Runs
  import opened Queries
  import opened Safety
  import opened Gateways
  import opened Reconciliation
  import opened Effects
  import opened OperationEffects
  import opened Outcomes
  import opened PlanEdits
  import opened KeyAgreement

  /** The consumer has this key and the plan's limit. */
  predicate HasPlan(c: Consumer, key: string, plan: Plan) {
    c.key == key && c.limit.count == plan.count && c.limit.window == plan.window
  }

  /** The limit is that of the application's newest active subscription. */
  ghost predicate HasNewestPlan(db: Db, app: nat, c: Consumer, key: string) {
    exists p: nat ::
      NewestFor(db, app, p) && db.subs[SubKey(app, p)].plan in db.plans
      && HasPlan(c, key, db.plans[db.subs[SubKey(app, p)].plan])
  }

  /** What the operation may write under the application's name on this gateway. */
  ghost predicate Writes(side: Side, cfg: Config, db: Db, op: Op, app: nat, c: Consumer) {
    match op
    case Grant(sub, newKey) =>
      && side.Production? && sub in db.subIds && db.subIds[sub] in db.subs && db.subIds[sub].app == app
      && db.subIds[sub].product in db.products && db.products[db.subIds[sub].product].auth.KeyAuth?
      && db.subs[db.subIds[sub]].plan in db.plans
      && HasPlan(c, if app in db.creds then db.creds[app].key else newKey, db.plans[db.subs[db.subIds[sub]].plan])
    case Rotate(a, newKey) => side.Production? && a == app && app in db.creds && HasNewestPlan(db, app, c, newKey)
    case RotateSandbox(a, newKey) =>
      side.Sandboxed? && cfg.sandboxOn && a == app && HoldsSandboxKey(db, app) && HasNewestPlan(db, app, c, newKey)
    case OpenSandbox(a, newKey) =>
      && side.Sandboxed? && cfg.sandboxOn && a == app && app in db.creds
      && HasNewestPlan(db, app, c, if HoldsSandboxKey(db, app) then db.creds[app].sandboxKey else newKey)
    case EditPlan(id, plan) =>
      && id in db.plans && (plan.count != db.plans[id].count || plan.window != db.plans[id].window)
      && SubscribedOn(db, app, id) && app in db.creds
      && (side.Sandboxed? ==> cfg.sandboxOn && HoldsSandboxKey(db, app))
      && HasPlan(c, KeyOf(side, db.creds[app]), plan)
    case _ => false
  }

  predicate SameEntry(was: Consumers, now: Consumers, name: string) {
    (name in was <==> name in now) && (name in was ==> was[name] == now[name])
  }

  ghost predicate Written(side: Side, cfg: Config, db: Db, op: Op, now: Consumers, name: string) {
    exists app: nat :: name == ConsumerName(app) && name in now && Writes(side, cfg, db, op, app, now[name])
  }

  /** The statement: kept, written as above, or removed with its application. */
  ghost predicate Touch(side: Side, cfg: Config, w: World, op: Op, next: World, name: string) {
    var was, now := ConsumersOf(side, w), ConsumersOf(side, next);
    || SameEntry(was, now, name)
    || Written(side, cfg, w.db, op, now, name)
    || (op.RemoveApplication? && name == ConsumerName(op.app) && name !in now)
  }

  lemma SameTouch(side: Side, cfg: Config, w: World, op: Op, next: World, name: string)
    requires ConsumersOf(side, next) == ConsumersOf(side, w)
    ensures Touch(side, cfg, w, op, next, name)
  {
  }

  /** One consumer is written. */
  lemma OneTouch(side: Side, cfg: Config, w: World, op: Op, next: World, name: string, app: nat, c: Consumer)
    requires ConsumersOf(side, next) == ConsumersOf(side, w)[ConsumerName(app) := c]
             && Writes(side, cfg, w.db, op, app, c)
    ensures Touch(side, cfg, w, op, next, name)
  {
    hide Writes;
    hide ConsumerName;
    if name == ConsumerName(app) {
      assert Written(side, cfg, w.db, op, ConsumersOf(side, next), name);
    }
  }

  lemma NewestHasPlan(db: Db, app: nat, key: string)
    requires Sound(db) && db.ActivePlanForApp(app).Ok?
    ensures HasNewestPlan(db, app, Consumer(key, Limit(db.ActivePlanForApp(app).value)), key)
  {
    hide Sound;
    ActivePlanIsNewest(db, app);
    var p: nat :| NewestFor(db, app, p) && db.subs[SubKey(app, p)].plan in db.plans
                  && db.ActivePlanForApp(app).value == db.plans[db.subs[SubKey(app, p)].plan];
    assert HasPlan(Consumer(key, Limit(db.ActivePlanForApp(app).value)), key, db.plans[db.subs[SubKey(app, p)].plan]);
  }

  // ---- keys

  lemma RotateTouches(side: Side, cfg: Config, w: World, app: nat, newKey: Key, name: string)
    requires Sound(w.db)
    ensures Touch(side, cfg, w, Rotate(app, newKey), RotateKey(w, app, newKey).w, name)
  {
    hide Sound;
    hide RotateKey;
    hide RotationCut;
    hide HasNewestPlan;
    hide Touch;
    hide Db.ActivePlanForApp;
    var op, end := Rotate(app, newKey), RotateKey(w, app, newKey).w;
    RotateKeyCases(w, app, newKey);
    if ConsumersOf(side, end) == ConsumersOf(side, w) {
      SameTouch(side, cfg, w, op, end, name);
    } else {
      NewestHasPlan(w.db, app, newKey);
      OneTouch(side, cfg, w, op, end, name, app, Consumer(newKey, Limit(w.db.ActivePlanForApp(app).value)));
    }
  }

  lemma RotateSandboxTouches(side: Side, cfg: Config, w: World, app: nat, newKey: Key, name: string)
    requires Sound(w.db)
    ensures Touch(side, cfg, w, RotateSandbox(app, newKey), RotateSandboxKey(cfg, w, app, newKey).w, name)
  {
    hide Sound;
    hide RotateSandboxKey;
    hide HasNewestPlan;
    hide Touch;
    hide Db.ActivePlanForApp;
    var op, end := RotateSandbox(app, newKey), RotateSandboxKey(cfg, w, app, newKey).w;
    RotateSandboxKeyCases(cfg, w, app, newKey);
    SandboxRotationSteps(cfg, w, app, newKey);
    if ConsumersOf(side, end) == ConsumersOf(side, w) {
      SameTouch(side, cfg, w, op, end, name);
    } else {
      NewestHasPlan(w.db, app, newKey);
      OneTouch(side, cfg, w, op, end, name, app, Consumer(newKey, Limit(w.db.ActivePlanForApp(app).value)));
    }
  }

  lemma OpenTouches(side: Side, cfg: Config, w: World, app: nat, newKey: Key, name: string)
    requires Sound(w.db)
    ensures Touch(side, cfg, w, OpenSandbox(app, newKey), EnableSandbox(cfg, w, app, newKey).w, name)
  {
    hide Sound;
    hide EnableSandbox;
    hide OpeningCut;
    hide HasNewestPlan;
    hide Touch;
    hide Db.ActivePlanForApp;
    var op, end := OpenSandbox(app, newKey), EnableSandbox(cfg, w, app, newKey).w;
    EnableSandboxCases(cfg, w, app, newKey);
    if ConsumersOf(side, end) == ConsumersOf(side, w) {
      SameTouch(side, cfg, w, op, end, name);
    } else {
      var key := if w.db.creds[app].sandboxKey == "" then newKey else w.db.creds[app].sandboxKey;
      NewestHasPlan(w.db, app, key);
      OneTouch(side, cfg, w, op, end, name, app, Consumer(key, Limit(w.db.ActivePlanForApp(app).value)));
    }
  }

  // ---- approving

  lemma ActivationTouches(side: Side, cfg: Config, w: World, id: nat, rec: SubRecord, newKey: Key)
    ensures var now := ConsumersOf(side, ActivateKeyAuth(cfg, w, id, rec, newKey).w);
            || now == ConsumersOf(side, w)
            || (&& side.Production? && rec.plan in w.db.plans
                && var key := if rec.app in w.db.creds then w.db.creds[rec.app].key else newKey;
                now == ConsumersOf(side, w)[ConsumerName(rec.app) := Consumer(key, Limit(w.db.plans[rec.plan]))])
  {
    hide Quieter;
    hide Write;
    hide ConsumerName;
    hide ListAndActivate;
    hide Db.GetOrCreateCredential;
    var s1 := Read(w, w.db.GetPlan(rec.plan));
    if s1.r.Ok? {
      var s2 := Write(s1.w, s1.w.db.GetOrCreateCredential(rec.app, newKey));
      WriteCases(s1.w, s1.w.db.GetOrCreateCredential(rec.app, newKey));
      IssuedKey(s1.w, rec.app, newKey);
      if s2.r.Ok? {
        var consumer := Consumer(s2.w.db.creds[rec.app].key, Limit(s1.r.value));
        var s3 := OnGateway(s2.w, EnsureConsumer(ConsumerName(rec.app), consumer));
        ListAndActivateKeepsKeys(cfg, s3.w, id, rec);
      }
    }
  }

  lemma ApprovalKeepsConsumers(side: Side, cfg: Config, w: World, id: nat, newKey: Key)
    requires Sound(w.db)
    ensures var now := ConsumersOf(side, Approve(cfg, w, id, newKey).w);
            || now == ConsumersOf(side, w)
            || (&& side.Production? && id in w.db.subIds && w.db.GetSubscription(id).Ok?
                && var rec := w.db.GetSubscription(id).value;
                var key := if rec.app in w.db.creds then w.db.creds[rec.app].key else newKey;
                && rec.product in w.db.products && w.db.products[rec.product].auth.KeyAuth? && rec.plan in w.db.plans
                && now == ConsumersOf(side, w)[ConsumerName(rec.app) := Consumer(key, Limit(w.db.plans[rec.plan]))])
  {
    hide Sound;
    hide Quieter;
    hide ConsumerName;
    hide ActivateKeyAuth;
    hide ActivateOAuth;
    hide SubscriptionActivated;
    SubscriptionExists(w.db, id);
    if id in w.db.subIds {
      var rec := w.db.GetSubscription(id).value;
      ActivateOAuthKeepsKeys(cfg, Tick(Tick(w)), id, rec);
      ActivationTouches(side, cfg, Tick(Tick(w)), id, rec, newKey);
    }
  }

  lemma GrantTouches(side: Side, cfg: Config, w: World, id: nat, newKey: Key, name: string)
    requires Sound(w.db)
    ensures Touch(side, cfg, w, Grant(id, newKey), Approve(cfg, w, id, newKey).w, name)
  {
    hide Sound;
    hide Touch;
    hide Approve;
    hide ConsumerName;
    var op, end := Grant(id, newKey), Approve(cfg, w, id, newKey).w;
    SubscriptionExists(w.db, id);
    ApprovalKeepsConsumers(side, cfg, w, id, newKey);
    if ConsumersOf(side, end) == ConsumersOf(side, w) {
      SameTouch(side, cfg, w, op, end, name);
    } else {
      var rec := w.db.GetSubscription(id).value;
      var key := if rec.app in w.db.creds then w.db.creds[rec.app].key else newKey;
      OneTouch(side, cfg, w, op, end, name, rec.app, Consumer(key, Limit(w.db.plans[rec.plan])));
    }
  }

  // ---- changing a plan

  /** The consumer is one of the list's, with the plan's limit. */
  ghost predicate Reapplication(consumers: seq<PlanConsumer>, plan: Plan, name: string, now: Consumers) {
    exists c :: c in consumers && name == ConsumerName(c.app) && name in now && HasPlan(now[name], c.key, plan)
  }

  lemma {:induction false} AllTouch(w: World, consumers: seq<PlanConsumer>, plan: Plan, name: string)
    ensures var now := EnsureAll(w, consumers, plan).w.gw.live.consumers;
            SameEntry(w.gw.live.consumers, now, name) || Reapplication(consumers, plan, name, now)
    decreases |consumers|
  {
    hide Quieter;
    hide ConsumerName;
    if consumers != [] {
      var c := consumers[0];
      AllTouch(OnGateway(w, EnsureConsumer(ConsumerName(c.app), Consumer(c.key, Limit(plan)))).w, consumers[1..],
               plan, name);
      assert forall d :: d in consumers[1..] ==> d in consumers;
    }
  }

  lemma {:induction false} AllTouchSandbox(w: World, consumers: seq<PlanConsumer>, plan: Plan, name: string)
    ensures var now := EnsureAllSandbox(w, consumers, plan).w.sandbox.live.consumers;
            SameEntry(w.sandbox.live.consumers, now, name) || Reapplication(consumers, plan, name, now)
    decreases |consumers|
  {
    hide Quieter;
    hide ConsumerName;
    if consumers != [] {
      var c := consumers[0];
      var call := EnsureConsumer(ConsumerName(c.app), Consumer(c.key, Limit(plan)));
      AllTouchSandbox(OnSandbox(w, call).w, consumers[1..], plan, name);
      assert forall d :: d in consumers[1..] ==> d in consumers;
    }
  }

  /** Who is on the list has an active subscription on the plan. */
  lemma ListedIsSubscribed(db: Db, plan: nat, c: PlanConsumer)
    ensures c in db.ConsumersForPlan(plan) ==>
              SubscribedOn(db, c.app, plan) && c.app in db.creds && c.key == db.creds[c.app].key
    ensures c in db.SandboxConsumersForPlan(plan) ==>
              SubscribedOn(db, c.app, plan) && HoldsSandboxKey(db, c.app) && c.key == db.creds[c.app].sandboxKey
  {
    CollectMembers(db.nextApp, db.PlanRow(plan));
    CollectMembers(db.nextApp, db.SandboxPlanRow(plan));
    if db.OnPlan(c.app, plan) {
      var k :| k in db.subs && k.app == c.app && db.subs[k].status.Active? && db.subs[k].plan == plan;
      assert ActiveIn(db.subs, c.app, k.product) && SubKey(c.app, k.product) == k;
    }
  }

  /** An edit that changes neither count nor window leaves both gateways exactly as they
      were, and makes no call to them. */
  lemma UnlimitedEditTouchesNothing(cfg: Config, w: World, id: nat, plan: Plan)
    requires id in w.db.plans && plan.count == w.db.plans[id].count && plan.window == w.db.plans[id].window
    ensures var s := UpdatePlan(cfg, w, id, plan);
            s.w.gw == w.gw && s.w.sandbox == w.sandbox && s.w.db == w.db.(plans := s.w.db.plans)
  {
    hide Quieter;
    hide ReprovisionPlan;
    hide Db.UpdatePlan;
    PlanRows(w.db, id, plan);
  }

  lemma ReprovisionTouchesListed(side: Side, cfg: Config, w: World, id: nat, name: string)
    ensures var was, now := ConsumersOf(side, w), ConsumersOf(side, ReprovisionPlan(cfg, w, id).w);
            || SameEntry(was, now, name)
            || (&& id in w.db.plans && On(cfg, side)
                && Reapplication(if side.Production? then w.db.ConsumersForPlan(id)
                                 else w.db.SandboxConsumersForPlan(id),
                                 w.db.plans[id], name, now))
  {
    hide Quieter;
    hide ConsumerName;
    hide Reapplication;
    hide EnsureAll;
    hide EnsureAllSandbox;
    hide Db.ConsumersForPlan;
    hide Db.SandboxConsumersForPlan;
    var s1 := Read(w, w.db.GetPlan(id));
    var s2 := Read(s1.w, Ok(s1.w.db.ConsumersForPlan(id)));
    if s1.r.Ok? && s2.r.Ok? {
      AllTouch(s2.w, s2.r.value, s1.r.value, name);
      var s3 := EnsureAll(s2.w, s2.r.value, s1.r.value);
      var s4 := Read(s3.w, Ok(s3.w.db.SandboxConsumersForPlan(id)));
      if s3.r.Ok? && s4.r.Ok? {
        AllTouchSandbox(s4.w, s4.r.value, s1.r.value, name);
      }
    }
  }

  lemma ListedWrites(side: Side, cfg: Config, db: Db, next: Db, id: nat, plan: Plan, name: string, now: Consumers)
    requires id in db.plans && LimitChanges(db, id, plan) && next == db.(plans := next.plans) && On(cfg, side)
    requires Reapplication(if side.Production? then next.ConsumersForPlan(id) else next.SandboxConsumersForPlan(id),
                           plan, name, now)
    ensures Written(side, cfg, db, EditPlan(id, plan), now, name)
  {
    hide ConsumerName;
    hide Db.ConsumersForPlan;
    hide Db.SandboxConsumersForPlan;
    var consumers := if side.Production? then next.ConsumersForPlan(id) else next.SandboxConsumersForPlan(id);
    var c :| c in consumers && name == ConsumerName(c.app) && name in now && HasPlan(now[name], c.key, plan);
    ListedIsSubscribed(next, id, c);
    var p: nat :| ActiveIn(next.subs, c.app, p) && next.subs[SubKey(c.app, p)].plan == id;
    assert SubscribedOn(db, c.app, id);
    assert Writes(side, cfg, db, EditPlan(id, plan), c.app, now[name]);
  }

  lemma EditPlanTouches(side: Side, cfg: Config, w: World, id: nat, plan: Plan, name: string)
    ensures Touch(side, cfg, w, EditPlan(id, plan), UpdatePlan(cfg, w, id, plan).w, name)
  {
    hide Quieter;
    hide Written;
    hide Reapplication;
    hide ReprovisionPlan;
    hide Db.PlanNameTaken;
    hide Db.ConsumersForPlan;
    hide Db.SandboxConsumersForPlan;
    var s1 := Read(w, w.db.GetPlan(id));
    var s2 := Write(s1.w, s1.w.db.UpdatePlan(id, plan));
    if s1.r.Ok? && s2.r.Ok? && LimitChanges(w.db, id, plan) {
      ReprovisionTouchesListed(side, cfg, s2.w, id, name);
      var now := ConsumersOf(side, ReprovisionPlan(cfg, s2.w, id).w);
      if !SameEntry(ConsumersOf(side, w), now, name) {
        ListedWrites(side, cfg, w.db, s2.w.db, id, plan, name, now);
      }
    }
  }

  // ---- every operation

  lemma RemovalTouches(side: Side, cfg: Config, w: World, app: nat, name: string)
    ensures Touch(side, cfg, w, RemoveApplication(app), DeleteApplication(cfg, w, app).w, name)
  {
    hide Quieter;
    hide Written;
    hide ConsumerName;
    hide UnsubscribeAll;
    hide RemoveConsumers;
    hide Db.DeleteApplication;
    hide Db.SubscriptionsForApp;
    var s1 := Read(w, Ok(w.db.SubscriptionsForApp(app)));
    if s1.r.Ok? {
      UnsubscribeAllKeepsKeys(cfg, s1.w, app, s1.r.value);
      var s2 := UnsubscribeAll(cfg, s1.w, app, s1.r.value);
      RemoveConsumersCases(cfg, s2.w, app);
      RemoveSandboxConsumerCases(cfg, s2.w, app);
    }
  }

  lemma RequestKeepsConsumers(w: World, app: nat, product: nat, plan: nat, newKey: string)
    ensures var s := Subscribe(w, app, product, plan, newKey); s.w.gw == w.gw && s.w.sandbox == w.sandbox
  {
    hide Subscribe;
    hide Quieter;
    hide Db.SaveSubscription;
    hide Db.GetOrCreateCredential;
    SubscribeCases(w, app, product, plan, newKey);
  }

  /** Whatever fails, an operation leaves each consumer on each gateway as it was, but for
      the ones it may write, with the key and limit it may write, and those it removes with
      their application. */
  lemma DoTouches(side: Side, cfg: Config, w: World, op: Op, name: string)
    requires Sound(w.db)
    ensures Touch(side, cfg, w, op, Do(cfg, w, op).w, name)
  {
    hide Sound;
    hide Touch;
    hide Subscribe;
    hide Approve;
    hide RotateKey;
    hide EnableSandbox;
    hide RotateSandboxKey;
    hide DeleteApplication;
    hide UpdatePlan;
    match op
    case EditPlan(id, plan) => EditPlanTouches(side, cfg, w, id, plan, name);
    case Grant(sub, newKey) => GrantTouches(side, cfg, w, sub, newKey, name);
    case Rotate(app, newKey) => RotateTouches(side, cfg, w, app, newKey, name);
    case OpenSandbox(app, newKey) => OpenTouches(side, cfg, w, app, newKey, name);
    case RotateSandbox(app, newKey) => RotateSandboxTouches(side, cfg, w, app, newKey, name);
    case RemoveApplication(app) => RemovalTouches(side, cfg, w, app, name);
    case Request(app, product, planId, newKey) =>
      RequestKeepsConsumers(w, app, product, planId, newKey);
      SameTouch(side, cfg, w, op, Do(cfg, w, op).w, name);
    case _ => KeepingOps(cfg, w, op); SameTouch(side, cfg, w, op, Do(cfg, w, op).w, name);
  }

  /** Operation k wrote this consumer as it is. */
  ghost predicate WrittenAt(side: Side, cfg: Config, w: World, ops: seq<Op>, name: string, consumers: Consumers,
                            k: nat) {
    k < |ops| && Written(side, cfg, Run(cfg, w, ops[..k]).db, ops[k], consumers, name)
  }

  /** So in every run each consumer is as some operation of the run was to write it. */
  lemma {:induction false} EveryConsumerWasWritten(side: Side, cfg: Config, w: World, ops: seq<Op>, name: string)
    requires Fresh(w) && name in ConsumersOf(side, Run(cfg, w, ops))
    ensures exists k: nat :: WrittenAt(side, cfg, w, ops, name, ConsumersOf(side, Run(cfg, w, ops)), k)
  {
    hide Do;
    hide Safe;
    hide Sound;
    hide Writes;
    if ops == [] {
      assert false;
    } else {
      var n := |ops| - 1;
      var before := ops[..n];
      var w1, end := Run(cfg, w, before), Run(cfg, w, ops);
      RunSafe(cfg, w, before);
      DoTouches(side, cfg, w1, ops[n], name);
      if Written(side, cfg, w1.db, ops[n], ConsumersOf(side, end), name) {
        assert WrittenAt(side, cfg, w, ops, name, ConsumersOf(side, end), n);
      } else {
        EveryConsumerWasWritten(side, cfg, w, before, name);
        var k: nat :| WrittenAt(side, cfg, w, before, name, ConsumersOf(side, w1), k);
        assert before[..k] == ops[..k];
        assert WrittenAt(side, cfg, w, ops, name, ConsumersOf(side, end), k);
      }
    }
  }
}
