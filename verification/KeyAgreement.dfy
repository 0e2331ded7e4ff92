/** Credential agreement: whichever calls fail, a consumer on a gateway carries the key the
    database stores for its application, unless the one write failed that should have
    stored a key the gateway had already been given. */
module KeyAgreement {
  import opened Common
  import opened Naming
  import opened Tables
  import opened Protocol
  import opened Runs
  import opened Queries
  import opened Safety
  import opened Guarantees
  import opened Gateways
  import opened Reconciliation
  import opened Effects
  import opened OperationEffects

  type Consumers = map<string, Consumer>

  function ConsumersOf(side: Side, w: World): Consumers {
    if side.Production? then w.gw.live.consumers else w.sandbox.live.consumers
  }

  function KeyOf(side: Side, c: Credential): string {
    if side.Production? then c.key else c.sandboxKey
  }

  function WithKey(side: Side, c: Credential, key: string): Credential {
    if side.Production? then c.(key := key) else c.(sandboxKey := key)
  }

  /** The application's consumer, if any, has its key; in the sandbox that is not empty. */
  predicate KeyAgrees(side: Side, creds: map<nat, Credential>, consumers: Consumers, app: nat) {
    ConsumerName(app) in consumers ==>
      && app in creds && consumers[ConsumerName(app)].key == KeyOf(side, creds[app])
      && (side.Sandboxed? ==> creds[app].sandboxKey != "")
  }

  /** Every consumer is named after an application, and the keys agree but for the lost. */
  ghost predicate Agree(side: Side, cfg: Config, creds: map<nat, Credential>, consumers: Consumers, lost: set<nat>) {
    && (forall n :: n in consumers ==> exists a: nat :: n == ConsumerName(a))
    && (forall a: nat :: a !in lost ==> KeyAgrees(side, creds, consumers, a))
    && (!On(cfg, side) ==> consumers == map[])
  }

  ghost predicate AgreeWorld(side: Side, cfg: Config, w: World, lost: set<nat>) {
    Agree(side, cfg, w.db.creds, ConsumersOf(side, w), lost)
  }

  // ---- single steps

  /** The consumer gets a new key; the row gets it too, or the key is lost. */
  lemma KeyInstalled(side: Side, cfg: Config, creds: map<nat, Credential>, consumers: Consumers, lost: set<nat>,
                     app: nat, key: string, limit: RateLimit)
    requires Agree(side, cfg, creds, consumers, lost) && app in creds && key != "" && On(cfg, side)
    ensures var more := consumers[ConsumerName(app) := Consumer(key, limit)];
            && Agree(side, cfg, creds[app := WithKey(side, creds[app], key)], more, lost - {app})
            && Agree(side, cfg, creds, more, lost + {app})
  {
    hide KeyAgrees;
    forall a: nat {
      KeyChanged(side, creds, consumers, app, key, limit, a);
    }
  }

  lemma KeyChanged(side: Side, creds: map<nat, Credential>, consumers: Consumers, app: nat, key: string,
                   limit: RateLimit, a: nat)
    requires app in creds && key != ""
    ensures var more := consumers[ConsumerName(app) := Consumer(key, limit)];
            && (a == app || KeyAgrees(side, creds, consumers, a) ==>
                KeyAgrees(side, creds[app := WithKey(side, creds[app], key)], more, a))
            && (a != app && KeyAgrees(side, creds, consumers, a) ==> KeyAgrees(side, creds, more, a))
  {
    NamesAreInjective();
  }

  /** A new key for one gateway does not concern the other. */
  lemma KeyElsewhere(side: Side, cfg: Config, creds: map<nat, Credential>, consumers: Consumers, lost: set<nat>,
                     other: Side, app: nat, key: string)
    requires Agree(side, cfg, creds, consumers, lost) && app in creds && other != side
    ensures Agree(side, cfg, creds[app := WithKey(other, creds[app], key)], consumers, lost)
  {
  }

  lemma CredentialIssued(side: Side, cfg: Config, creds: map<nat, Credential>, consumers: Consumers, lost: set<nat>,
                         app: nat, key: string)
    requires Agree(side, cfg, creds, consumers, lost) && app !in creds
    ensures Agree(side, cfg, creds[app := Credential(key, "")], consumers, lost)
  {
  }

  /** Re-applying a consumer with the stored key. */
  lemma ConsumerReapplied(side: Side, cfg: Config, creds: map<nat, Credential>, consumers: Consumers, lost: set<nat>,
                          app: nat, limit: RateLimit)
    requires Agree(side, cfg, creds, consumers, lost) && app in creds && On(cfg, side)
    requires side.Sandboxed? ==> creds[app].sandboxKey != ""
    ensures Agree(side, cfg, creds, consumers[ConsumerName(app) := Consumer(KeyOf(side, creds[app]), limit)],
                  lost - {app})
  {
    NamesAreInjective();
  }

  lemma ConsumerRemoved(side: Side, cfg: Config, creds: map<nat, Credential>, consumers: Consumers, lost: set<nat>,
                        app: nat)
    requires Agree(side, cfg, creds, consumers, lost)
    ensures Agree(side, cfg, creds, consumers - {ConsumerName(app)}, lost - {app})
  {
    NamesAreInjective();
  }

  lemma CredentialRemoved(side: Side, cfg: Config, creds: map<nat, Credential>, consumers: Consumers, lost: set<nat>,
                          app: nat)
    requires Agree(side, cfg, creds, consumers, lost) && (app !in lost ==> ConsumerName(app) !in consumers)
    ensures Agree(side, cfg, creds - {app}, consumers, lost)
  {
  }

  /** Without a credential, or without a sandbox key, there is no such consumer. */
  lemma NoConsumer(side: Side, cfg: Config, creds: map<nat, Credential>, consumers: Consumers, lost: set<nat>, app: nat)
    requires Agree(side, cfg, creds, consumers, lost) && app !in lost
    requires app !in creds || !On(cfg, side) || (side.Sandboxed? && creds[app].sandboxKey == "")
    ensures ConsumerName(app) !in consumers
  {
  }

  lemma MoreLost(side: Side, cfg: Config, creds: map<nat, Credential>, consumers: Consumers, lost: set<nat>,
                 more: set<nat>)
    requires Agree(side, cfg, creds, consumers, lost) && lost <= more
    ensures Agree(side, cfg, creds, consumers, more)
  {
  }

  lemma MoreLostWorld(side: Side, cfg: Config, w: World, lost: set<nat>, more: set<nat>)
    requires AgreeWorld(side, cfg, w, lost) && lost <= more
    ensures AgreeWorld(side, cfg, w, more)
  {
    hide Agree;
    MoreLost(side, cfg, w.db.creds, ConsumersOf(side, w), lost, more);
  }

  // ---- the operations that touch keys or consumers

  predicate SameKeys(w: World, next: World) {
    next.db.creds == w.db.creds && next.gw.live.consumers == w.gw.live.consumers
    && next.sandbox.live.consumers == w.sandbox.live.consumers
  }

  lemma SameKeysAgree(side: Side, cfg: Config, w: World, next: World, lost: set<nat>)
    requires AgreeWorld(side, cfg, w, lost) && SameKeys(w, next)
    ensures AgreeWorld(side, cfg, next, lost)
  {
    hide Agree;
  }

  lemma SideAgrees(side: Side, cfg: Config, w: World, next: World, lost: set<nat>)
    requires AgreeWorld(side, cfg, w, lost)
    requires next.db.creds == w.db.creds && ConsumersOf(side, next) == ConsumersOf(side, w)
    ensures AgreeWorld(side, cfg, next, lost)
  {
    hide Agree;
  }

  lemma NewCredentialAgrees(side: Side, cfg: Config, w: World, lost: set<nat>, app: nat, newKey: string)
    requires AgreeWorld(side, cfg, w, lost)
    ensures AgreeWorld(side, cfg, Write(w, w.db.GetOrCreateCredential(app, newKey)).w, lost)
  {
    hide Agree;
    hide Quieter;
    if app !in w.db.creds {
      CredentialIssued(side, cfg, w.db.creds, ConsumersOf(side, w), lost, app, newKey);
    }
  }

  lemma ActivateOAuthKeepsKeys(cfg: Config, w: World, id: nat, rec: SubRecord)
    ensures SameKeys(w, ActivateOAuth(cfg, w, id, rec).w)
  {
    hide Quieter;
    hide ReprovisionRoute;
  }

  lemma ListAndActivateKeepsKeys(cfg: Config, w: World, id: nat, rec: SubRecord)
    ensures SameKeys(w, ListAndActivate(cfg, w, id, rec).w)
  {
    hide Quieter;
    hide ReprovisionRoute;
    hide GrantSandbox;
  }

  /** The production consumer that an operation names, while the sandbox is left alone. */
  function Named(side: Side, app: nat): set<nat> {
    if side.Production? then {app} else {}
  }

  /** A key-auth approval writes the consumer with the stored key. */
  lemma ActivateKeyAuthAgrees(side: Side, cfg: Config, w: World, lost: set<nat>, id: nat, rec: SubRecord,
                              newKey: string)
    requires AgreeWorld(side, cfg, w, lost)
    ensures var s := ActivateKeyAuth(cfg, w, id, rec, newKey);
            AgreeWorld(side, cfg, s.w, if s.r.Ok? then lost - Named(side, rec.app) else lost)
  {
    hide AgreeWorld;
    hide Quieter;
    hide SameKeys;
    hide Write;
    hide ListAndActivate;
    hide Db.GetOrCreateCredential;
    var s1 := Read(w, w.db.GetPlan(rec.plan));
    assert SameKeys(w, s1.w) by { TickKeepsKeys(w); }
    SameKeysAgree(side, cfg, w, s1.w, lost);
    if s1.r.Ok? {
      NewCredentialAgrees(side, cfg, s1.w, lost, rec.app, newKey);
      var s2 := Write(s1.w, s1.w.db.GetOrCreateCredential(rec.app, newKey));
      if s2.r.Ok? {
        WrittenCredential(s1.w, rec.app, newKey);
        ConsumerCallAgrees(side, cfg, s2.w, lost, rec.app, Limit(s1.r.value));
        var s3 := OnGateway(s2.w, EnsureConsumer(ConsumerName(rec.app),
                                                 Consumer(s2.w.db.creds[rec.app].key, Limit(s1.r.value))));
        var s4 := ListAndActivate(cfg, s3.w, id, rec);
        ListAndActivateKeepsKeys(cfg, s3.w, id, rec);
        if s3.r.Ok? {
          SameKeysAgree(side, cfg, s3.w, s4.w, lost - Named(side, rec.app));
          MoreLostWorld(side, cfg, s4.w, lost - Named(side, rec.app), lost);
        }
      }
    }
  }

  lemma ConsumerCallAgrees(side: Side, cfg: Config, w: World, lost: set<nat>, app: nat, limit: RateLimit)
    requires AgreeWorld(side, cfg, w, lost) && app in w.db.creds
    ensures var s := OnGateway(w, EnsureConsumer(ConsumerName(app), Consumer(w.db.creds[app].key, limit)));
            AgreeWorld(side, cfg, s.w, if s.r.Ok? then lost - Named(side, app) else lost)
  {
    hide Agree;
    hide Quieter;
    if side.Production? {
      ConsumerReapplied(side, cfg, w.db.creds, ConsumersOf(side, w), lost, app, limit);
    } else {
      assert lost - Named(side, app) == lost;
    }
  }

  lemma TickKeepsKeys(w: World)
    ensures SameKeys(w, Tick(w))
  {
  }

  lemma WrittenCredential(w: World, app: nat, newKey: string)
    ensures var s := Write(w, w.db.GetOrCreateCredential(app, newKey)); s.r.Ok? ==> app in s.w.db.creds
  {
    hide Quieter;
  }

  /** The application whose production consumer the approval writes: none for an oauth2
      product. */
  ghost function Approved(side: Side, db: Db, sub: nat): set<nat> {
    if sub in db.subIds && db.subIds[sub].product in db.products && db.products[db.subIds[sub].product].auth.KeyAuth?
    then Named(side, db.subIds[sub].app) else {}
  }

  lemma ApproveAgrees(side: Side, cfg: Config, w: World, lost: set<nat>, id: nat, newKey: string)
    requires AgreeWorld(side, cfg, w, lost)
    ensures var s := Approve(cfg, w, id, newKey);
            AgreeWorld(side, cfg, s.w, if s.r.Ok? then lost - Approved(side, w.db, id) else lost)
  {
    hide AgreeWorld;
    hide Quieter;
    hide ActivateKeyAuth;
    hide ActivateOAuth;
    hide SubscriptionActivated;
    var s1 := Read(w, w.db.GetSubscription(id));
    SameKeysAgree(side, cfg, w, s1.w, lost);
    if s1.r.Ok? {
      var rec := s1.r.value;
      var s2 := Read(s1.w, s1.w.db.GetProduct(rec.product));
      SameKeysAgree(side, cfg, w, s2.w, lost);
      if s2.r.Ok? {
        if s2.r.value.auth.OAuth2? {
          var oauth := ActivateOAuth(cfg, s2.w, id, rec);
          ActivateOAuthKeepsKeys(cfg, s2.w, id, rec);
          SameKeysAgree(side, cfg, s2.w, oauth.w, lost);
          assert lost - {} == lost;
          BillingAgrees(side, cfg, oauth, lost, {}, rec, id);
        } else {
          ActivateKeyAuthAgrees(side, cfg, s2.w, lost, id, rec, newKey);
          BillingAgrees(side, cfg, ActivateKeyAuth(cfg, s2.w, id, rec, newKey), lost, Named(side, rec.app), rec, id);
        }
      }
    }
  }

  /** Billing, the last step of an approval. */
  lemma BillingAgrees(side: Side, cfg: Config, s: Protocol.Step<()>, lost: set<nat>, restored: set<nat>,
                      rec: SubRecord, id: nat)
    requires AgreeWorld(side, cfg, s.w, if s.r.Ok? then lost - restored else lost)
    ensures var end := Billed(s, rec, id); AgreeWorld(side, cfg, end.w, if end.r.Ok? then lost - restored else lost)
  {
    hide AgreeWorld;
    hide SubscriptionActivated;
    if s.r.Ok? {
      SameKeysAgree(side, cfg, s.w, Billed(s, rec, id).w, lost - restored);
      MoreLostWorld(side, cfg, Billed(s, rec, id).w, lost - restored, lost);
    }
  }

  lemma SubscribeAgrees(side: Side, cfg: Config, w: World, lost: set<nat>, app: nat, product: nat, plan: nat,
                        newKey: string)
    requires AgreeWorld(side, cfg, w, lost)
    ensures AgreeWorld(side, cfg, Subscribe(w, app, product, plan, newKey).w, lost)
  {
    hide AgreeWorld;
    hide Subscribe;
    hide RecordRequest;
    var s, w3 := Subscribe(w, app, product, plan, newKey), Tick(Tick(Tick(w)));
    SubscribeCases(w, app, product, plan, newKey);
    if s.w == w.(faults := s.w.faults) {
      SameKeysAgree(side, cfg, w, s.w, lost);
    } else {
      SameKeysAgree(side, cfg, w, w3, lost);
      RecordRequestAgrees(side, cfg, w3, lost, w.db.products[product].auth, app, product, plan, newKey);
    }
  }

  lemma SavingKeepsCredentials(w: World, app: nat, product: nat, plan: nat)
    ensures SameKeys(w, Write(w, w.db.SaveSubscription(app, product, plan)).w)
  {
    hide Quieter;
  }

  lemma RecordRequestAgrees(side: Side, cfg: Config, w: World, lost: set<nat>, auth: Auth, app: nat, product: nat,
                            plan: nat, newKey: string)
    requires AgreeWorld(side, cfg, w, lost)
    ensures AgreeWorld(side, cfg, RecordRequest(w, auth, app, product, plan, newKey).w, lost)
  {
    hide AgreeWorld;
    hide Quieter;
    hide Write;
    hide SameKeys;
    SavingKeepsCredentials(w, app, product, plan);
    SameKeysAgree(side, cfg, w, Write(w, w.db.SaveSubscription(app, product, plan)).w, lost);
    NewCredentialAgrees(side, cfg, w, lost, app, newKey);
    WrittenCredential(w, app, newKey);
    var s1 := Write(w, w.db.GetOrCreateCredential(app, newKey));
    SavingKeepsCredentials(s1.w, app, product, plan);
    SameKeysAgree(side, cfg, s1.w, Write(s1.w, s1.w.db.SaveSubscription(app, product, plan)).w, lost);
  }

  // ---- new keys

  /** The n-th store call from here is a write that fails. */
  predicate WriteFails(w: World, n: nat) {
    n < |w.faults| && w.faults[n].write
  }

  /** Of the calls of a rotation just the last one fails, the write that stores the key. */
  predicate RotationCut(w: World, app: nat) {
    && app in w.db.creds && w.db.ActivePlanForApp(app).Ok?
    && !ReadFails(w, 0) && !ReadFails(w, 1) && !w.gw.Failing() && WriteFails(w, 2)
  }

  /** The application may rotate its sandbox key, and the queries go through. */
  predicate MayRotateSandbox(cfg: Config, w: World, app: nat) {
    && cfg.sandboxOn && HoldsSandboxKey(w.db, app) && w.db.ActivePlanForApp(app).Ok?
    && !ReadFails(w, 0) && !ReadFails(w, 1) && !ReadFails(w, 2)
  }

  predicate SandboxRotationCut(cfg: Config, w: World, app: nat) {
    MayRotateSandbox(cfg, w, app) && !w.sandbox.Failing() && WriteFails(w, 3)
  }

  /** The application is found eligible for the sandbox. */
  predicate Eligible(cfg: Config, w: World, app: nat) {
    && cfg.sandboxOn && app in w.db.creds && w.db.ActivePlanForApp(app).Ok? && w.db.SandboxProductsForApp(app) != []
    && !ReadFails(w, 0) && !ReadFails(w, 1) && !ReadFails(w, 2)
  }

  /** Likewise for opening the sandbox for the first time, up to the write of the row. */
  predicate OpeningCut(cfg: Config, w: World, app: nat) {
    && Eligible(cfg, w, app) && w.db.creds[app].sandboxKey == ""
    && !ReadFails(w, 3) && !w.sandbox.Failing() && WriteFails(w, 4)
  }

  /** The operation gives the gateway a key for the application that is not the stored
      one, and the write that should store it fails: told from the tables and tapes. */
  predicate LosesKey(side: Side, cfg: Config, w: World, op: Op, app: nat) {
    match op
    case Rotate(a, newKey) => side.Production? && a == app && RotationCut(w, app) && newKey != w.db.creds[app].key
    case RotateSandbox(a, newKey) =>
      side.Sandboxed? && a == app && SandboxRotationCut(cfg, w, app) && newKey != w.db.creds[app].sandboxKey
    case OpenSandbox(a, _) => side.Sandboxed? && a == app && OpeningCut(cfg, w, app)
    case _ => false
  }

  /** The applications whose consumer a success has written with the stored key, or removed. */
  ghost function Restored(side: Side, cfg: Config, w: World, op: Op): set<nat> {
    if Do(cfg, w, op).r.Err? then {}
    else
      match op
      case Grant(sub, _) => Approved(side, w.db, sub)
      case Rotate(app, _) => Named(side, app)
      case RotateSandbox(app, _) => if side.Sandboxed? then {app} else {}
      case OpenSandbox(app, _) => if side.Sandboxed? then {app} else {}
      case RemoveApplication(app) =>
        if CallsFor(side, cfg, w.db, app) then {app} else {}
      case EditPlan(id, plan) =>
        if LimitChanges(w.db, id, plan) && On(cfg, side) then Subscribers(side, w.db, id) else {}
      case _ => {}
  }

  predicate LimitChanges(db: Db, id: nat, plan: Plan) {
    id in db.plans && (plan.count != db.plans[id].count || plan.window != db.plans[id].window)
  }

  /** The applications whose consumers a change of the plan's limit writes. */
  ghost function Subscribers(side: Side, db: Db, plan: nat): set<nat> {
    Owners(if side.Production? then db.ConsumersForPlan(plan) else db.SandboxConsumersForPlan(plan))
  }

  ghost function Owners(consumers: seq<PlanConsumer>): set<nat> {
    set c | c in consumers :: c.app
  }

  ghost function Losers(side: Side, cfg: Config, w: World, op: Op): set<nat> {
    if (op.Rotate? || op.RotateSandbox? || op.OpenSandbox?) && LosesKey(side, cfg, w, op, op.app) then {op.app} else {}
  }

  /** The applications whose key is lost after one more operation. */
  ghost function LostAfter(side: Side, cfg: Config, w: World, op: Op, lost: set<nat>): set<nat> {
    lost - Restored(side, cfg, w, op) + Losers(side, cfg, w, op)
  }

  /** The consumer first, and then the row. */
  lemma StoringCases(w: World, app: nat, newKey: string, plan: Plan)
    requires app in w.db.creds
    ensures var s1 := OnGateway(w, EnsureConsumer(ConsumerName(app), Consumer(newKey, Limit(plan))));
            var s2 := Write(s1.w, s1.w.db.UpdateCredentialKey(app, newKey));
            && s1.w.db == w.db && s1.w.sandbox == s2.w.sandbox == w.sandbox && s2.w.gw == s1.w.gw
            && (if w.gw.Failing() then s1.r.Err? && s1.w.gw.live == w.gw.live
                else
                  && s1.r.Ok?
                  && s2.w.gw.live.consumers == w.gw.live.consumers[ConsumerName(app) := Consumer(newKey, Limit(plan))])
            && (if WriteFails(w, 0) then s2.r.Err? && s2.w.db == w.db
                else s2.r.Ok? && s2.w.db.creds == w.db.creds[app := w.db.creds[app].(key := newKey)])
  {
    hide Quieter;
  }

  /** What a rotation may leave: nothing done, the gateway only, or both. */
  lemma RotateKeyCases(w: World, app: nat, newKey: string)
    ensures var s := RotateKey(w, app, newKey);
            && s.w.sandbox == w.sandbox
            && (s.r.Ok? ==> app in w.db.creds && s.w.db.creds == w.db.creds[app := w.db.creds[app].(key := newKey)])
            && (s.r.Err? ==> s.w.db == w.db)
            && (if s.r.Ok? || RotationCut(w, app)
                then
                  && app in w.db.creds && w.db.ActivePlanForApp(app).Ok?
                  && s.w.gw.live.consumers
                     == w.gw.live.consumers[
                          ConsumerName(app) := Consumer(newKey, Limit(w.db.ActivePlanForApp(app).value))]
                else s.w.gw.live == w.gw.live)
            && (RotationCut(w, app) ==> s.r.Err?)
  {
    hide Quieter;
    hide Write;
    hide OnGateway;
    hide Db.ActivePlanForApp;
    hide Db.UpdateCredentialKey;
    hide ConsumerName;
    if app in w.db.creds && w.db.ActivePlanForApp(app).Ok? {
      var plan := w.db.ActivePlanForApp(app).value;
      StoringCases(Tick(Tick(w)), app, newKey, plan);
      assert RotateKey(w, app, newKey).r.Ok? || RotationCut(w, app) ==>
          RotateKey(w, app, newKey).w.gw.live.consumers
              == w.gw.live.consumers[ConsumerName(app) := Consumer(newKey, Limit(plan))];
    }
  }

  lemma RotateKeyAgrees(side: Side, cfg: Config, w: World, lost: set<nat>, app: nat, newKey: Key)
    requires AgreeWorld(side, cfg, w, lost)
    ensures AgreeWorld(side, cfg, RotateKey(w, app, newKey).w, LostAfter(side, cfg, w, Rotate(app, newKey), lost))
  {
    hide Agree;
    hide RotateKey;
    hide RotationCut;
    RotateKeyCases(w, app, newKey);
    var s, after := RotateKey(w, app, newKey), LostAfter(side, cfg, w, Rotate(app, newKey), lost);
    if s.r.Ok? || RotationCut(w, app) {
      var limit := Limit(w.db.ActivePlanForApp(app).value);
      NewKeyAgrees(Production, side, cfg, w, s.w, s.r.Ok?, lost, app, newKey, limit, after);
    } else {
      SameKeysAgree(side, cfg, w, s.w, lost);
      MoreLostWorld(side, cfg, s.w, lost, after);
    }
  }

  /** A key that the consumer on one gateway has got, and the row too unless it is cut. */
  lemma NewKeyAgrees(at: Side, side: Side, cfg: Config, w: World, next: World, stored: bool, lost: set<nat>,
                     app: nat, key: Key, limit: RateLimit, after: set<nat>)
    requires AgreeWorld(side, cfg, w, lost) && app in w.db.creds && On(cfg, at)
    requires ConsumersOf(at, next) == ConsumersOf(at, w)[ConsumerName(app) := Consumer(key, limit)]
    requires at != side ==> ConsumersOf(side, next) == ConsumersOf(side, w)
    requires next.db.creds == if stored then w.db.creds[app := WithKey(at, w.db.creds[app], key)] else w.db.creds
    requires lost - {app} <= after && (at != side ==> lost <= after)
    requires at == side && !stored && key != KeyOf(side, w.db.creds[app]) ==> lost + {app} <= after
    ensures AgreeWorld(side, cfg, next, after)
  {
    hide Agree;
    if at != side {
      KeyElsewhere(side, cfg, w.db.creds, ConsumersOf(side, w), lost, at, app, key);
      MoreLostWorld(side, cfg, next, lost, after);
    } else {
      KeyInstalled(side, cfg, w.db.creds, ConsumersOf(side, w), lost, app, key, limit);
      SameRow(side, w.db.creds, app);
      var now := if stored || key == KeyOf(side, w.db.creds[app]) then lost - {app} else lost + {app};
      MoreLostWorld(side, cfg, next, now, after);
    }
  }

  lemma SameRow(side: Side, creds: map<nat, Credential>, app: nat)
    requires app in creds
    ensures creds[app := WithKey(side, creds[app], KeyOf(side, creds[app]))] == creds
  {
  }

  /** Nothing done, the gateway only, or both. */
  lemma InstallKeyCases(w: World, app: nat, plan: Plan, key: string)
    requires app in w.db.creds
    ensures var s := InstallSandboxKey(w, app, plan, key);
            if w.sandbox.Failing() then s.r.Err? && s.w.db == w.db && s.w.sandbox.live == w.sandbox.live
            else
              && s.w.sandbox.live.consumers == w.sandbox.live.consumers[ConsumerName(app) := Consumer(key, Limit(plan))]
              && if WriteFails(w, 0) then s.r.Err? && s.w.db == w.db
                 else s.r.Ok? && s.w.db.creds == w.db.creds[app := w.db.creds[app].(sandboxKey := key)]
  {
    hide Quieter;
  }

  lemma SandboxRotationSteps(cfg: Config, w: World, app: nat, newKey: string)
    ensures var s, w3 := RotateSandboxKey(cfg, w, app, newKey), Tick(Tick(Tick(w)));
            && (if MayRotateSandbox(cfg, w, app)
                then var t := InstallSandboxKey(w3, app, w.db.ActivePlanForApp(app).value, newKey);
                     s.w == t.w && (s.r.Ok? <==> t.r.Ok?)
                else s.r.Err? && s.w.db == w.db && s.w.gw == w.gw && s.w.sandbox == w.sandbox)
            && WriteFails(w3, 0) == WriteFails(w, 3)
  {
    hide Quieter;
    hide InstallSandboxKey;
    hide Db.ActivePlanForApp;
  }

  lemma RotateSandboxKeyCases(cfg: Config, w: World, app: nat, newKey: string)
    ensures var s := RotateSandboxKey(cfg, w, app, newKey);
            && s.w.gw == w.gw
            && (s.r.Ok? ==>
                  app in w.db.creds && cfg.sandboxOn
                  && s.w.db.creds == w.db.creds[app := w.db.creds[app].(sandboxKey := newKey)])
            && (s.r.Err? ==> s.w.db == w.db)
            && (if s.r.Ok? || SandboxRotationCut(cfg, w, app)
                then
                  && app in w.db.creds && cfg.sandboxOn && w.db.ActivePlanForApp(app).Ok?
                  && s.w.sandbox.live.consumers
                     == w.sandbox.live.consumers[
                          ConsumerName(app) := Consumer(newKey, Limit(w.db.ActivePlanForApp(app).value))]
                else s.w.sandbox.live == w.sandbox.live)
            && (SandboxRotationCut(cfg, w, app) ==> s.r.Err?)
  {
    hide RotateSandboxKey;
    hide InstallSandboxKey;
    hide ReadFails;
    hide WriteFails;
    hide ConsumerName;
    hide Db.ActivePlanForApp;
    SandboxRotationSteps(cfg, w, app, newKey);
    if MayRotateSandbox(cfg, w, app) {
      InstallKeyCases(Tick(Tick(Tick(w))), app, w.db.ActivePlanForApp(app).value, newKey);
    }
  }

  lemma RotateSandboxKeyAgrees(side: Side, cfg: Config, w: World, lost: set<nat>, app: nat, newKey: Key)
    requires AgreeWorld(side, cfg, w, lost)
    ensures AgreeWorld(side, cfg, RotateSandboxKey(cfg, w, app, newKey).w,
                       LostAfter(side, cfg, w, RotateSandbox(app, newKey), lost))
  {
    hide Agree;
    hide RotateSandboxKey;
    hide SandboxRotationCut;
    RotateSandboxKeyCases(cfg, w, app, newKey);
    var s, after := RotateSandboxKey(cfg, w, app, newKey), LostAfter(side, cfg, w, RotateSandbox(app, newKey), lost);
    if s.r.Ok? || SandboxRotationCut(cfg, w, app) {
      var limit := Limit(w.db.ActivePlanForApp(app).value);
      NewKeyAgrees(Sandboxed, side, cfg, w, s.w, s.r.Ok?, lost, app, newKey, limit, after);
    } else {
      SameKeysAgree(side, cfg, w, s.w, lost);
      MoreLostWorld(side, cfg, s.w, lost, after);
    }
  }

  /** Likewise when the sandbox is opened; should the application hold a key already, that
      key is used. */
  lemma ProvisionSandboxCases(cfg: Config, w: World, app: nat, plan: Plan, products: seq<nat>, newKey: string)
    requires app in w.db.creds
    ensures var s := ProvisionSandbox(cfg, w, app, plan, products, newKey);
            var key := if w.db.creds[app].sandboxKey == "" then newKey else w.db.creds[app].sandboxKey;
            && s.w.gw == w.gw
            && if ReadFails(w, 0) || w.sandbox.Failing()
               then s.r.Err? && s.w.db == w.db && s.w.sandbox.live == w.sandbox.live
               else
                 && s.w.sandbox.live.consumers
                     == w.sandbox.live.consumers[ConsumerName(app) := Consumer(key, Limit(plan))]
                 && if WriteFails(w, 1) then s.r.Err? && s.w.db == w.db
                    else s.w.db.creds == w.db.creds[app := w.db.creds[app].(sandboxKey := key)]
  {
    hide Quieter;
    hide InstallSandboxKey;
    hide ReprovisionAllSandbox;
    var s1 := Read(w, w.db.GetSandboxKey(app));
    if s1.r.Ok? {
      InstallKeyCases(s1.w, app, plan, if s1.r.value == "" then newKey else s1.r.value);
    }
  }

  lemma EligibleCases(cfg: Config, w: World, app: nat, newKey: string)
    ensures var s, w3 := EnableSandbox(cfg, w, app, newKey), Tick(Tick(Tick(w)));
            if Eligible(cfg, w, app)
            then s == ProvisionSandbox(cfg, w3, app, w.db.ActivePlanForApp(app).value,
                                       w.db.SandboxProductsForApp(app), newKey)
            else s.r.Err? && s.w.db == w.db && s.w.gw == w.gw && s.w.sandbox == w.sandbox
    ensures ReadFails(Tick(Tick(Tick(w))), 0) == ReadFails(w, 3)
            && WriteFails(Tick(Tick(Tick(w))), 1) == WriteFails(w, 4)
  {
    hide Quieter;
    hide ProvisionSandbox;
    hide Db.ActivePlanForApp;
    hide Db.SandboxProductsForApp;
    OnlyNoPlan(w.db, app);
  }

  lemma OnlyNoPlan(db: Db, app: nat)
    ensures db.ActivePlanForApp(app).Err? ==> db.ActivePlanForApp(app) == Err(NoActiveSubscription)
  {
  }

  lemma EnableSandboxCases(cfg: Config, w: World, app: nat, newKey: string)
    ensures var s := EnableSandbox(cfg, w, app, newKey);
            && s.w.gw == w.gw
            && ((s.r.Err? && s.w.db == w.db && s.w.sandbox.live == w.sandbox.live && !OpeningCut(cfg, w, app))
                || (&& app in w.db.creds && cfg.sandboxOn && w.db.ActivePlanForApp(app).Ok?
                    && var key := if w.db.creds[app].sandboxKey == "" then newKey else w.db.creds[app].sandboxKey;
                    && s.w.sandbox.live.consumers
                       == w.sandbox.live.consumers[ConsumerName(app) :=
                           Consumer(key, Limit(w.db.ActivePlanForApp(app).value))]
                    && ((s.r.Err? && s.w.db == w.db && (w.db.creds[app].sandboxKey == "" <==> OpeningCut(cfg, w, app)))
                        || (s.w.db.creds == w.db.creds[app := w.db.creds[app].(sandboxKey := key)]
                            && !OpeningCut(cfg, w, app)))))
  {
    hide Quieter;
    hide EnableSandbox;
    hide ProvisionSandbox;
    hide ReadFails;
    hide WriteFails;
    hide Db.ActivePlanForApp;
    hide Db.SandboxProductsForApp;
    EligibleCases(cfg, w, app, newKey);
    if Eligible(cfg, w, app) {
      ProvisionSandboxCases(cfg, Tick(Tick(Tick(w))), app, w.db.ActivePlanForApp(app).value,
                            w.db.SandboxProductsForApp(app), newKey);
    }
  }

  lemma EnableSandboxAgrees(side: Side, cfg: Config, w: World, lost: set<nat>, app: nat, newKey: Key)
    requires AgreeWorld(side, cfg, w, lost)
    ensures AgreeWorld(side, cfg, EnableSandbox(cfg, w, app, newKey).w,
                       LostAfter(side, cfg, w, OpenSandbox(app, newKey), lost))
  {
    hide Agree;
    hide EnableSandbox;
    hide OpeningCut;
    EnableSandboxCases(cfg, w, app, newKey);
    var s, after := EnableSandbox(cfg, w, app, newKey), LostAfter(side, cfg, w, OpenSandbox(app, newKey), lost);
    if s.w.db == w.db && s.w.sandbox.live == w.sandbox.live && !OpeningCut(cfg, w, app) && s.r.Err? {
      SameKeysAgree(side, cfg, w, s.w, lost);
      MoreLostWorld(side, cfg, s.w, lost, after);
    } else {
      var held := w.db.creds[app].sandboxKey;
      var key := if held == "" then newKey else held;
      var limit := Limit(w.db.ActivePlanForApp(app).value);
      NewKeyAgrees(Sandboxed, side, cfg, w, s.w, s.w.db.creds != w.db.creds, lost, app, key, limit, after);
    }
  }

  // ---- re-applying a plan

  lemma {:induction false} EnsureAllAgrees(cfg: Config, w: World, lost: set<nat>, consumers: seq<PlanConsumer>,
                                           plan: Plan)
    requires AgreeWorld(Production, cfg, w, lost)
    requires forall c :: c in consumers ==> c.app in w.db.creds && c.key == w.db.creds[c.app].key
    ensures var s := EnsureAll(w, consumers, plan);
            AgreeWorld(Production, cfg, s.w, if s.r.Ok? then lost - Owners(consumers) else lost)
    decreases |consumers|
  {
    hide Agree;
    hide Quieter;
    if consumers == [] {
      assert lost - Owners(consumers) == lost;
    } else {
      var c := consumers[0];
      assert Owners(consumers) == {c.app} + Owners(consumers[1..]);
      ConsumerReapplied(Production, cfg, w.db.creds, w.gw.live.consumers, lost, c.app, Limit(plan));
      var s1 := OnGateway(w, EnsureConsumer(ConsumerName(c.app), Consumer(c.key, Limit(plan))));
      if s1.r.Ok? {
        EnsureAllAgrees(cfg, s1.w, lost - {c.app}, consumers[1..], plan);
        assert lost - {c.app} - Owners(consumers[1..]) == lost - Owners(consumers);
        var s := EnsureAll(s1.w, consumers[1..], plan);
        if s.r.Err? { MoreLostWorld(Production, cfg, s.w, lost - {c.app}, lost); }
      }
    }
  }

  lemma {:induction false} EnsureAllSandboxAgrees(cfg: Config, w: World, lost: set<nat>,
                                                  consumers: seq<PlanConsumer>, plan: Plan)
    requires AgreeWorld(Sandboxed, cfg, w, lost) && cfg.sandboxOn
    requires forall c :: c in consumers ==> c.app in w.db.creds && c.key == w.db.creds[c.app].sandboxKey && c.key != ""
    ensures var s := EnsureAllSandbox(w, consumers, plan);
            AgreeWorld(Sandboxed, cfg, s.w, if s.r.Ok? then lost - Owners(consumers) else lost)
    decreases |consumers|
  {
    hide Agree;
    hide Quieter;
    if consumers == [] {
      assert lost - Owners(consumers) == lost;
    } else {
      var c := consumers[0];
      assert Owners(consumers) == {c.app} + Owners(consumers[1..]);
      ConsumerReapplied(Sandboxed, cfg, w.db.creds, w.sandbox.live.consumers, lost, c.app, Limit(plan));
      var s1 := OnSandbox(w, EnsureConsumer(ConsumerName(c.app), Consumer(c.key, Limit(plan))));
      if s1.r.Ok? {
        EnsureAllSandboxAgrees(cfg, s1.w, lost - {c.app}, consumers[1..], plan);
        assert lost - {c.app} - Owners(consumers[1..]) == lost - Owners(consumers);
        var s := EnsureAllSandbox(s1.w, consumers[1..], plan);
        if s.r.Err? { MoreLostWorld(Sandboxed, cfg, s.w, lost - {c.app}, lost); }
      }
    }
  }

  /** Re-applying a plan's limit writes the stored keys. */
  lemma ReprovisionPlanAgrees(side: Side, cfg: Config, w: World, lost: set<nat>, id: nat)
    requires AgreeWorld(side, cfg, w, lost)
    ensures var s := ReprovisionPlan(cfg, w, id);
            AgreeWorld(side, cfg, s.w, if s.r.Ok? && On(cfg, side) then lost - Subscribers(side, w.db, id) else lost)
  {
    hide AgreeWorld;
    hide Quieter;
    hide EnsureAll;
    hide EnsureAllSandbox;
    hide Db.ConsumersForPlan;
    hide Db.SandboxConsumersForPlan;
    PlanConsumersMembers(w.db, id);
    var s1 := Read(w, w.db.GetPlan(id));
    SameKeysAgree(side, cfg, w, s1.w, lost);
    var s2 := Read(s1.w, Ok(s1.w.db.ConsumersForPlan(id)));
    SameKeysAgree(side, cfg, w, s2.w, lost);
    if s1.r.Ok? && s2.r.Ok? {
      var s3 := EnsureAll(s2.w, s2.r.value, s1.r.value);
      if side.Production? {
        var now := if s3.r.Ok? then lost - Subscribers(side, w.db, id) else lost;
        EnsureAllAgrees(cfg, s2.w, lost, s2.r.value, s1.r.value);
        SideAgrees(side, cfg, s3.w, ReprovisionPlan(cfg, w, id).w, now);
        MoreLostWorld(side, cfg, ReprovisionPlan(cfg, w, id).w, now, lost);
      } else {
        SideAgrees(side, cfg, s2.w, s3.w, lost);
        var s4 := Read(s3.w, Ok(s3.w.db.SandboxConsumersForPlan(id)));
        SideAgrees(side, cfg, s3.w, s4.w, lost);
        if s3.r.Ok? && s4.r.Ok? && cfg.sandboxOn {
          EnsureAllSandboxAgrees(cfg, s4.w, lost, s4.r.value, s1.r.value);
        }
      }
    }
  }

  lemma UpdatePlanAgrees(side: Side, cfg: Config, w: World, lost: set<nat>, id: nat, plan: Plan)
    requires AgreeWorld(side, cfg, w, lost)
    ensures var s := UpdatePlan(cfg, w, id, plan);
            AgreeWorld(side, cfg, s.w, if s.r.Ok? && LimitChanges(w.db, id, plan) && On(cfg, side)
                                       then lost - Subscribers(side, w.db, id) else lost)
  {
    hide AgreeWorld;
    hide Quieter;
    hide ReprovisionPlan;
    hide Subscribers;
    hide Db.UpdatePlan;
    PlanRows(w.db, id, plan);
    var s1 := Read(w, w.db.GetPlan(id));
    SameKeysAgree(side, cfg, w, s1.w, lost);
    var s2 := Write(s1.w, s1.w.db.UpdatePlan(id, plan));
    SameKeysAgree(side, cfg, w, s2.w, lost);
    ReprovisionPlanAgrees(side, cfg, s2.w, lost, id);
    if s1.r.Ok? && s2.r.Ok? {
      SameSubscribers(side, w.db, s2.w.db, id);
    }
  }

  lemma SameSubscribers(side: Side, db: Db, next: Db, id: nat)
    requires next == db.(plans := next.plans)
    ensures Subscribers(side, db, id) == Subscribers(side, next, id)
  {
    SamePlanRows(db, next, id, db.nextApp);
  }

  lemma {:induction false} SamePlanRows(db: Db, next: Db, id: nat, n: nat)
    requires next.subs == db.subs && next.creds == db.creds
    ensures Collect(n, db.PlanRow(id)) == Collect(n, next.PlanRow(id))
    ensures Collect(n, db.SandboxPlanRow(id)) == Collect(n, next.SandboxPlanRow(id))
  {
    if n > 0 {
      SamePlanRows(db, next, id, n - 1);
    }
  }

  // ---- deleting an application

  lemma {:induction false} UnsubscribeAllKeepsKeys(cfg: Config, w: World, app: nat, products: seq<nat>)
    ensures SameKeys(w, UnsubscribeAll(cfg, w, app, products).w)
    decreases |products|
  {
    hide Unsubscribe;
    if products != [] {
      UnsubscribeKeepsKeys(cfg, w, app, products[0]);
      UnsubscribeAllKeepsKeys(cfg, Unsubscribe(cfg, w, app, products[0]).w, app, products[1..]);
    }
  }

  lemma UnsubscribeKeepsKeys(cfg: Config, w: World, app: nat, product: nat)
    ensures SameKeys(w, Unsubscribe(cfg, w, app, product).w)
  {
    hide Quieter;
    hide ReprovisionRoute;
    hide ReprovisionSandboxRoute;
  }

  /** What removing the consumers leaves on the production gateway and in the sandbox: a
      success has removed those that the application's row calls for. */
  lemma RemoveConsumersCases(cfg: Config, w: World, app: nat)
    ensures var s := RemoveConsumers(cfg, w, app);
            var gone := {ConsumerName(app)};
            && (s.w.gw.live.consumers == w.gw.live.consumers || s.w.gw.live.consumers == w.gw.live.consumers - gone)
            && (s.r.Ok? && app in w.db.creds ==> s.w.gw.live.consumers == w.gw.live.consumers - gone)
  {
    hide Quieter;
    hide Db.GetSandboxKey;
  }

  lemma RemoveSandboxConsumerCases(cfg: Config, w: World, app: nat)
    ensures var s := RemoveConsumers(cfg, w, app);
            var gone := {ConsumerName(app)};
            && (s.w.sandbox.live.consumers == w.sandbox.live.consumers
                || s.w.sandbox.live.consumers == w.sandbox.live.consumers - gone)
            && (s.r.Ok? && cfg.sandboxOn && HoldsSandboxKey(w.db, app) ==>
                s.w.sandbox.live.consumers == w.sandbox.live.consumers - gone)
  {
    hide Quieter;
  }

  /** The application's row calls for a consumer on that gateway. */
  predicate CallsFor(side: Side, cfg: Config, db: Db, app: nat) {
    app in db.creds && On(cfg, side) && (side.Sandboxed? ==> db.creds[app].sandboxKey != "")
  }

  lemma RemoveConsumersAgrees(side: Side, cfg: Config, w: World, lost: set<nat>, app: nat)
    requires AgreeWorld(side, cfg, w, lost)
    ensures var s := RemoveConsumers(cfg, w, app);
            && AgreeWorld(side, cfg, s.w, if s.r.Ok? && CallsFor(side, cfg, w.db, app) then lost - {app} else lost)
            && (s.r.Ok? && (CallsFor(side, cfg, w.db, app) || app !in lost) ==>
                ConsumerName(app) !in ConsumersOf(side, s.w))
  {
    hide Agree;
    hide RemoveConsumers;
    RemoveConsumersCases(cfg, w, app);
    RemoveSandboxConsumerCases(cfg, w, app);
    var s := RemoveConsumers(cfg, w, app);
    ConsumerRemoved(side, cfg, w.db.creds, ConsumersOf(side, w), lost, app);
    MoreLost(side, cfg, w.db.creds, ConsumersOf(side, w) - {ConsumerName(app)}, lost - {app}, lost);
    if app !in lost && !CallsFor(side, cfg, w.db, app) {
      NoConsumer(side, cfg, w.db.creds, ConsumersOf(side, w), lost, app);
    }
  }

  lemma DeleteApplicationAgrees(side: Side, cfg: Config, w: World, lost: set<nat>, app: nat)
    requires AgreeWorld(side, cfg, w, lost)
    ensures var s := DeleteApplication(cfg, w, app);
            AgreeWorld(side, cfg, s.w, if s.r.Ok? && CallsFor(side, cfg, w.db, app) then lost - {app} else lost)
  {
    hide AgreeWorld;
    hide Quieter;
    hide UnsubscribeAll;
    hide RemoveConsumers;
    hide Db.DeleteApplication;
    hide Db.SubscriptionsForApp;
    var s1 := Read(w, Ok(w.db.SubscriptionsForApp(app)));
    SameKeysAgree(side, cfg, w, s1.w, lost);
    if s1.r.Ok? {
      UnsubscribeAllKeepsKeys(cfg, s1.w, app, s1.r.value);
      var s2 := UnsubscribeAll(cfg, s1.w, app, s1.r.value);
      SameKeysAgree(side, cfg, s1.w, s2.w, lost);
      if s2.r.Ok? {
        RemoveConsumersAgrees(side, cfg, s2.w, lost, app);
        var s3 := RemoveConsumers(cfg, s2.w, app);
        var now := if s3.r.Ok? && CallsFor(side, cfg, w.db, app) then lost - {app} else lost;
        MoreLostWorld(side, cfg, s3.w, now, lost);
        if s3.r.Ok? {
          DeletedRowAgrees(side, cfg, s3.w, now, app);
          var s4 := Write(s3.w, Ok(s3.w.db.DeleteApplication(app)));
          MoreLostWorld(side, cfg, s4.w, now, lost);
        }
      }
    }
  }

  lemma DeletedRowAgrees(side: Side, cfg: Config, w: World, lost: set<nat>, app: nat)
    requires AgreeWorld(side, cfg, w, lost) && (app !in lost ==> ConsumerName(app) !in ConsumersOf(side, w))
    ensures AgreeWorld(side, cfg, Write(w, Ok(w.db.DeleteApplication(app))).w, lost)
  {
    hide Agree;
    hide Quieter;
    hide Db.DropSubscriptions;
    CredentialRemoved(side, cfg, w.db.creds, ConsumersOf(side, w), lost, app);
  }

  // ---- the operations that touch neither

  lemma RejectKeepsKeys(cfg: Config, w: World, id: nat)
    ensures SameKeys(w, Reject(cfg, w, id).w)
  {
    hide Quieter;
    hide ReprovisionRoute;
    hide ReprovisionSandboxRoute;
  }

  lemma SetOIDCClientIDKeepsKeys(cfg: Config, w: World, app: nat, clientId: string)
    ensures SameKeys(w, SetOIDCClientID(cfg, w, app, clientId).w)
  {
    hide Quieter;
    hide ReprovisionAll;
    hide Db.OAuthProductsForApp;
  }

  lemma CreateProductKeepsKeys(w: World, draft: Draft)
    ensures SameKeys(w, CreateProduct(w, draft).w)
  {
    hide Quieter;
    hide Db.CreateProduct;
    hide Db.ContextPathOverlaps;
    CreatedRow(w.db, draft.Row());
  }

  lemma UpdateProductKeepsKeys(cfg: Config, w: World, id: nat, draft: Draft)
    ensures SameKeys(w, UpdateProduct(cfg, w, id, draft).w)
  {
    hide Quieter;
    hide EditRow;
    hide RebuildEdited;
    hide ReprovisionSandboxRoute;
    EditRowCases(w, id, draft);
  }

  lemma DeleteProductKeepsKeys(w: World, id: nat)
    ensures SameKeys(w, DeleteProduct(w, id).w)
  {
    hide Quieter;
    hide Db.CountActiveSubscriptions;
  }

  lemma SettleKeepsKeys(w: World, id: nat, status: InvoiceStatus)
    ensures SameKeys(w, Protocol.SettleInvoice(w, id, status).w)
  {
    hide Protocol.SettleInvoice;
    SettleTables(w, id, status);
  }

  lemma NewRowKeepsKeys(w: World, team: nat, plan: Plan)
    ensures SameKeys(w, Write(w, Ok(w.db.CreateApplication(team))).w)
    ensures SameKeys(w, Write(w, w.db.CreatePlan(plan)).w)
  {
    hide Quieter;
    hide Db.CreatePlan;
    PlanRows(w.db, 0, plan);
  }

  // ---- runs

  lemma ItselfKeepsKeys(w: World)
    ensures SameKeys(w, w)
  {
  }

  lemma KeepingOps(cfg: Config, w: World, op: Op)
    requires op.NewApplication? || op.NewProduct? || op.EditProduct? || op.RemoveProduct? || op.NewPlan?
             || op.Refuse? || op.Cancel? || op.RegisterClient? || op.Settle? || op.VoidInvoice?
    ensures SameKeys(w, Do(cfg, w, op).w)
  {
    hide SameKeys;
    hide Reject;
    hide Unsubscribe;
    hide SetOIDCClientID;
    hide CreateProduct;
    hide UpdateProduct;
    hide DeleteProduct;
    hide Protocol.SettleInvoice;
    match op
    case NewApplication(team) => NewRowKeepsKeys(w, team, Plan("", 0, 0, 0, ""));
    case NewProduct(draft) => CreateProductKeepsKeys(w, draft); ItselfKeepsKeys(w);
    case EditProduct(id, draft) => UpdateProductKeepsKeys(cfg, w, id, draft); ItselfKeepsKeys(w);
    case RemoveProduct(id) => DeleteProductKeepsKeys(w, id);
    case NewPlan(plan) => NewRowKeepsKeys(w, 0, plan);
    case Refuse(sub) => RejectKeepsKeys(cfg, w, sub);
    case Cancel(app, product) => UnsubscribeKeepsKeys(cfg, w, app, product);
    case RegisterClient(app, clientId) => SetOIDCClientIDKeepsKeys(cfg, w, app, clientId);
    case Settle(invoice) => SettleKeepsKeys(w, invoice, Paid);
    case VoidInvoice(invoice) => SettleKeepsKeys(w, invoice, Void);
  }

  lemma StoredKeyOps(side: Side, cfg: Config, w: World, op: Op, lost: set<nat>)
    requires AgreeWorld(side, cfg, w, lost) && (op.EditPlan? || op.Request? || op.Grant? || op.RemoveApplication?)
    ensures AgreeWorld(side, cfg, Do(cfg, w, op).w, lost - Restored(side, cfg, w, op))
  {
    hide AgreeWorld;
    hide Approved;
    hide Subscribers;
    hide LimitChanges;
    hide CallsFor;
    hide Subscribe;
    hide Approve;
    hide DeleteApplication;
    hide UpdatePlan;
    assert lost - {} == lost;
    match op
    case EditPlan(id, plan) => UpdatePlanAgrees(side, cfg, w, lost, id, plan);
    case Request(app, product, planId, newKey) => SubscribeAgrees(side, cfg, w, lost, app, product, planId, newKey);
    case Grant(sub, newKey) => ApproveAgrees(side, cfg, w, lost, sub, newKey);
    case RemoveApplication(app) => DeleteApplicationAgrees(side, cfg, w, lost, app);
  }

  /** What one operation makes of the lost keys. */
  lemma DoAgrees(side: Side, cfg: Config, w: World, op: Op, lost: set<nat>)
    requires AgreeWorld(side, cfg, w, lost)
    ensures AgreeWorld(side, cfg, Do(cfg, w, op).w, LostAfter(side, cfg, w, op, lost))
  {
    hide AgreeWorld;
    hide SameKeys;
    hide LosesKey;
    hide Restored;
    hide LostAfter;
    hide RotateKey;
    hide EnableSandbox;
    hide RotateSandboxKey;
    match op
    case Rotate(app, newKey) => RotateKeyAgrees(side, cfg, w, lost, app, newKey);
    case OpenSandbox(app, newKey) => EnableSandboxAgrees(side, cfg, w, lost, app, newKey);
    case RotateSandbox(app, newKey) => RotateSandboxKeyAgrees(side, cfg, w, lost, app, newKey);
    case EditPlan(_, _) => StoredKeyOps(side, cfg, w, op, lost); NoLosers(side, cfg, w, op, lost);
    case Request(_, _, _, _) => StoredKeyOps(side, cfg, w, op, lost); NoLosers(side, cfg, w, op, lost);
    case Grant(_, _) => StoredKeyOps(side, cfg, w, op, lost); NoLosers(side, cfg, w, op, lost);
    case RemoveApplication(_) => StoredKeyOps(side, cfg, w, op, lost); NoLosers(side, cfg, w, op, lost);
    case _ =>
      KeepingOps(cfg, w, op);
      SameKeysAgree(side, cfg, w, Do(cfg, w, op).w, lost);
      NoLosers(side, cfg, w, op, lost);
  }

  lemma NoLosers(side: Side, cfg: Config, w: World, op: Op, lost: set<nat>)
    requires !op.Rotate? && !op.RotateSandbox? && !op.OpenSandbox?
    ensures LostAfter(side, cfg, w, op, lost) == lost - Restored(side, cfg, w, op)
    ensures !op.EditPlan? && !op.Grant? && !op.RemoveApplication? ==> LostAfter(side, cfg, w, op, lost) == lost
  {
    hide Do;
  }

  /** The applications whose key on this gateway is lost, and not written again since. */
  ghost function LostKeys(side: Side, cfg: Config, w: World, ops: seq<Op>): set<nat> {
    if ops == [] then {}
    else
      var before := ops[..|ops| - 1];
      LostAfter(side, cfg, Run(cfg, w, before), ops[|ops| - 1], LostKeys(side, cfg, w, before))
  }

  lemma {:induction false} RunAgrees(side: Side, cfg: Config, w: World, ops: seq<Op>)
    requires Fresh(w)
    ensures AgreeWorld(side, cfg, Run(cfg, w, ops), LostKeys(side, cfg, w, ops))
  {
    hide Do;
    hide LostAfter;
    hide Agree;
    if ops == [] {
      FreshAgrees(side, cfg, w);
    } else {
      var before := ops[..|ops| - 1];
      RunAgrees(side, cfg, w, before);
      DoAgrees(side, cfg, Run(cfg, w, before), ops[|ops| - 1], LostKeys(side, cfg, w, before));
    }
  }

  lemma FreshAgrees(side: Side, cfg: Config, w: World)
    requires Fresh(w)
    ensures AgreeWorld(side, cfg, w, {})
  {
  }

  ghost predicate AgreesIn(side: Side, w: World, app: nat) {
    KeyAgrees(side, w.db.creds, ConsumersOf(side, w), app)
  }

  /** In every run, whatever fails, the consumer of an application carries the stored key
      unless the write of a new key failed after the gateway had it, and no later rotation,
      approval, change of limits or deletion has put that right. */
  lemma KeysAgreeUnlessLost(side: Side, cfg: Config, w: World, ops: seq<Op>, app: nat)
    requires Fresh(w) && app !in LostKeys(side, cfg, w, ops)
    ensures AgreesIn(side, Run(cfg, w, ops), app)
    ensures var consumers := ConsumersOf(side, Run(cfg, w, ops));
            (forall n :: n in consumers ==> exists a: nat :: n == ConsumerName(a))
            && (!On(cfg, side) ==> consumers == map[])
  {
    hide Run;
    hide LostKeys;
    RunAgrees(side, cfg, w, ops);
  }

  /** Operation k loses a key of the application. */
  ghost predicate LosesKeyAt(side: Side, cfg: Config, w: World, ops: seq<Op>, app: nat, k: nat) {
    k < |ops| && LosesKey(side, cfg, Run(cfg, w, ops[..k]), ops[k], app)
  }

  lemma LoserIsOwner(side: Side, cfg: Config, w: World, op: Op, app: nat)
    ensures LosesKey(side, cfg, w, op, app) ==> (op.Rotate? || op.RotateSandbox? || op.OpenSandbox?) && op.app == app
  {
  }

  lemma {:induction false} NothingLost(side: Side, cfg: Config, w: World, ops: seq<Op>, app: nat)
    requires forall k: nat :: !LosesKeyAt(side, cfg, w, ops, app, k)
    ensures app !in LostKeys(side, cfg, w, ops)
  {
    hide Run;
    hide Restored;
    hide LosesKey;
    if ops != [] {
      var n := |ops| - 1;
      var before := ops[..n];
      forall k: nat ensures !LosesKeyAt(side, cfg, w, before, app, k) {
        if k < n {
          assert before[..k] == ops[..k];
          assert !LosesKeyAt(side, cfg, w, ops, app, k);
        }
      }
      NothingLost(side, cfg, w, before, app);
      assert !LosesKeyAt(side, cfg, w, ops, app, n);
    }
  }

  /** A lost key is the consumer's and not the stored one. */
  lemma LostKeyDisagrees(side: Side, cfg: Config, w: World, op: Op, app: nat)
    requires LosesKey(side, cfg, w, op, app)
    ensures !AgreesIn(side, Do(cfg, w, op).w, app)
  {
    hide RotateKey;
    hide RotateSandboxKey;
    hide EnableSandbox;
    hide RotationCut;
    hide SandboxRotationCut;
    hide Eligible;
    match op {
      case Rotate(_, newKey) => RotateKeyCases(w, app, newKey);
      case RotateSandbox(_, newKey) => RotateSandboxKeyCases(cfg, w, app, newKey);
      case OpenSandbox(_, newKey) => EnableSandboxCases(cfg, w, app, newKey);
      case _ =>
    }
  }

  /** An application's key agrees at every moment of a run exactly if no operation of the
      run loses it. */
  lemma KeysAgreeExactlyWhen(side: Side, cfg: Config, w: World, ops: seq<Op>, app: nat)
    requires Fresh(w)
    ensures (forall n: nat :: n <= |ops| ==> AgreesIn(side, Run(cfg, w, ops[..n]), app)) <==>
            (forall k: nat :: !LosesKeyAt(side, cfg, w, ops, app, k))
  {
    hide Run;
    hide LosesKey;
    hide AgreesIn;
    if k: nat :| LosesKeyAt(side, cfg, w, ops, app, k) {
      RunStep(cfg, w, ops, k);
      LostKeyDisagrees(side, cfg, Run(cfg, w, ops[..k]), ops[k], app);
      assert !AgreesIn(side, Run(cfg, w, ops[..k + 1]), app);
    } else {
      forall n: nat | n <= |ops| ensures AgreesIn(side, Run(cfg, w, ops[..n]), app) {
        forall k: nat ensures !LosesKeyAt(side, cfg, w, ops[..n], app, k) {
          if k < n {
            assert ops[..n][..k] == ops[..k];
            assert !LosesKeyAt(side, cfg, w, ops, app, k);
          }
        }
        NothingLost(side, cfg, w, ops[..n], app);
        KeysAgreeUnlessLost(side, cfg, w, ops[..n], app);
      }
    }
  }

  // ---- when database writes succeed

  lemma {:induction false} NoWriteEverFails(faults: seq<StoreFault>, n: nat)
    requires NoWriteFails(faults) && n < |faults|
    ensures !faults[n].write
  {
    if n > 0 {
      NoWriteEverFails(faults[1..], n - 1);
    }
  }

  lemma WritesKeepKeys(side: Side, cfg: Config, w: World, op: Op, app: nat)
    requires WritesSucceed(w)
    ensures !LosesKey(side, cfg, w, op, app)
  {
    hide NoWriteFails;
    hide Db.ActivePlanForApp;
    hide Db.SandboxProductsForApp;
    forall n: nat ensures !WriteFails(w, n) {
      if n < |w.faults| { NoWriteEverFails(w.faults, n); }
    }
  }

  lemma {:induction false} RunWritesSucceed(cfg: Config, w: World, ops: seq<Op>)
    requires WritesSucceed(w)
    ensures WritesSucceed(Run(cfg, w, ops))
  {
    hide Do;
    hide WritesSucceed;
    if ops != [] {
      RunWritesSucceed(cfg, w, ops[..|ops| - 1]);
    }
  }

  /** In every run whose database writes succeed all keys agree, whichever queries and
      gateway calls fail. */
  lemma KeysAlwaysAgree(side: Side, cfg: Config, w: World, ops: seq<Op>, app: nat)
    requires Fresh(w) && WritesSucceed(w)
    ensures AgreesIn(side, Run(cfg, w, ops), app)
  {
    hide Run;
    hide LosesKey;
    hide WritesSucceed;
    forall k: nat ensures !LosesKeyAt(side, cfg, w, ops, app, k) {
      if k < |ops| {
        RunWritesSucceed(cfg, w, ops[..k]);
        WritesKeepKeys(side, cfg, Run(cfg, w, ops[..k]), ops[k], app);
      }
    }
    NothingLost(side, cfg, w, ops, app);
    KeysAgreeUnlessLost(side, cfg, w, ops, app);
  }
}
