/** One statement for every operation: which products it touches, which gain a caller
    without their route being rebuilt, and which are reconciled once it reports success. */
module OperationEffects {
  import opened Common
  import opened Naming
  import opened Tables
  import opened Protocol
  import opened Runs
  import opened Queries
  import opened Integrity
  import opened Safety
  import opened Gateways
  import opened Reconciliation
  import opened Effects

  /** The products whose route the operation sets out to rebuild, or whose row it edits. */
  ghost function Touched(side: Side, db: Db, op: Op): set<nat> {
    match op
    case Grant(sub, _) =>
      if sub !in db.subIds then {}
      else
        var p := db.subIds[sub].product;
        if side.Sandboxed? && p in db.products && db.products[p].auth.OAuth2? then {} else {p}
    case Refuse(sub) => if sub in db.subIds then {db.subIds[sub].product} else {}
    case Cancel(_, product) => if product in db.products then {product} else {}
    case RegisterClient(app, _) => if side.Production? then OAuthProducts(db, app) else {}
    case OpenSandbox(app, _) => if side.Sandboxed? then OpenSandboxes(db, app) else {}
    case RemoveApplication(app) => Subscribed(db, app)
    case EditProduct(id, _) => if id in db.products then {id} else {}
    case RemoveProduct(id) => if id in db.products then {id} else {}
    case _ => {}
  }

  /** Of these, the ones that a success has rebuilt. */
  ghost function Rebuilt(side: Side, db: Db, op: Op): set<nat> {
    match op
    case Grant(sub, _) =>
      if side.Production? || (sub in db.subIds && HoldsSandboxKey(db, db.subIds[sub].app)) then Touched(side, db, op)
      else {}
    case EditProduct(id, draft) => if id in db.products && Rebuilds(side, db, id, draft.Row()) then {id} else {}
    case RemoveProduct(_) => {}
    case _ => Touched(side, db, op)
  }

  /** An edit rebuilds the production route of a product in use when its upstream or auth
      type changes, and the sandbox route when the sandbox upstream does. */
  ghost predicate Rebuilds(side: Side, db: Db, id: nat, row: Product)
    requires id in db.products
  {
    if side.Sandboxed? then db.products[id].sandboxUpstream != row.sandboxUpstream
    else && (db.products[id].upstream != row.upstream || db.products[id].auth != row.auth)
         && exists a: nat :: ActiveIn(db.subs, a, id)
  }

  /** The products that gain a caller whose route is not rebuilt: a first credential makes
      an application a caller of all key-auth products it is active on, and an oauth2
      approval does not look at the sandbox. */
  ghost function Late(side: Side, db: Db, next: Db, op: Op): set<nat> {
    match op
    case Request(app, _, _, _) => LateKeys(side, db, next, app)
    case Grant(sub, _) =>
      if sub !in db.subIds then {}
      else
        LateKeys(side, db, next, db.subIds[sub].app) + LateSandbox(side, db, next, db.subIds[sub])
        - Touched(side, db, op)
    case _ => {}
  }

  /** The one query whose failure an approval ignores: the client id on an oauth2 product,
      the sandbox key on a key-auth one. */
  predicate Overlooked(side: Side, w: World, op: Op) {
    && op.Grant? && op.sub in w.db.subIds && w.db.subIds[op.sub].product in w.db.products
    && if w.db.products[w.db.subIds[op.sub].product].auth.OAuth2? then side.Production? && ReadFails(w, 2)
       else side.Sandboxed? && ReadFails(w, 7)
  }

  /** The part of a key-auth approval that concerns the production gateway. */
  function KeyAuthHalf(cfg: Config, w: World, id: nat, rec: SubRecord, newKey: string): Step<()> {
    var (w1, plan) :- Read(w, w.db.GetPlan(rec.plan));
    var (w2, _) :- Write(w1, w1.db.GetOrCreateCredential(rec.app, newKey));
    var (w3, _) :- OnGateway(w2, EnsureConsumer(ConsumerName(rec.app),
                                                Consumer(w2.db.creds[rec.app].key, Limit(plan))));
    ListHalf(cfg, w3, id, rec)
  }

  /** The part of an approval that concerns this gateway's routes: all but the billing and,
      for the production gateway, the sandbox. */
  function ApprovalPart(side: Side, cfg: Config, w: World, id: nat, newKey: string): Step<()> {
    var (w1, rec) :- Read(w, w.db.GetSubscription(id));
    if rec.status.Rejected? then Fail(w1, InvalidTransition)
    else
      var (w2, prod) :- Read(w1, w1.db.GetProduct(rec.product));
      if prod.auth.OAuth2? then ActivateOAuth(cfg, w2, id, rec)
      else if side.Production? then KeyAuthHalf(cfg, w2, id, rec, newKey)
      else ActivateKeyAuth(cfg, w2, id, rec, newKey)
  }

  /** The edit got as far as its production half goes. */
  predicate EditHalf(cfg: Config, w: World, id: nat, draft: Draft) {
    var e := EditRow(w, id, draft); e.r.Ok? && RebuildEdited(cfg, e.w, id, e.r.value).r.Ok?
  }

  /** The operation got as far as this gateway's routes are concerned, even if it fails
      later on, in the sandbox or in billing. */
  predicate Through(side: Side, cfg: Config, w: World, op: Op) {
    || Do(cfg, w, op).r.Ok?
    || match op
       case Grant(sub, newKey) => ApprovalPart(side, cfg, w, sub, newKey).r.Ok?
       case Refuse(sub) => side.Production? && RejectHalf(cfg, w, sub).r.Ok?
       case Cancel(app, product) => side.Production? && CancelHalf(cfg, w, app, product).r.Ok?
       case EditProduct(id, draft) => side.Production? && Acceptable(cfg, draft) && EditHalf(cfg, w, id, draft)
       case _ => false
  }

  /** The products whose turn in a loop over several was over before a call failed. */
  function Reached(side: Side, cfg: Config, w: World, op: Op): set<nat> {
    match op
    case RegisterClient(app, clientId) => RegisteredSoFar(side, cfg, w, app, clientId)
    case OpenSandbox(app, newKey) => OpenedSoFar(side, cfg, w, app, newKey)
    case RemoveApplication(app) => CancelledSoFar(side, cfg, w, app)
    case _ => {}
  }

  /** What an operation that got through leaves of the touched products. */
  ghost predicate Finished(side: Side, w: World, next: World, touched: set<nat>, rebuilt: set<nat>) {
    forall p: nat :: p in touched ==>
      if p in rebuilt then Settled(side, next, p)
      else Kept(side, w.db, next.db, RoutesOf(side, w), RoutesOf(side, next), p)
  }

  // ---- approving

  lemma ActivateKeyAuthEffect(side: Side, cfg: Config, w: World, id: nat, rec: SubRecord, newKey: string)
    requires Sound(w.db) && cfg.issuer != "" && On(cfg, side) && w.db.GetSubscription(id) == Ok(rec)
    requires w.db.products[rec.product].auth.KeyAuth?
    ensures var s := ActivateKeyAuth(cfg, w, id, rec, newKey);
            && Covered(side, w, s.w, {rec.product}, LateKeys(side, w.db, s.w.db, rec.app) - {rec.product})
            && s.w.db.products == w.db.products
            && (s.r.Ok? ==> KeyAuthHalf(cfg, w, id, rec, newKey).r.Ok?)
            && ((if side.Production? then KeyAuthHalf(cfg, w, id, rec, newKey).r.Ok?
                 else s.r.Ok? && !ReadFails(w, 5)) ==>
                  if side.Production? || HoldsSandboxKey(w.db, rec.app) then Settled(side, s.w, rec.product)
                  else Covered(side, w, s.w, {}, {}))
  {
    hide Sound;
    hide Framed;
    hide Covered;
    hide Settled;
    hide Everyone;
    hide Joined;
    hide SameView;
    hide Quieter;
    hide ListAndActivate;
    hide Db.GetOrCreateCredential;
    SubscriptionIds(w.db, id);
    var s1 := Read(w, w.db.GetPlan(rec.plan));
    NothingYet(side, w, s1.w, {rec.product});
    assert LateKeys(side, w.db, w.db, rec.app) - {rec.product} == {};
    if s1.r.Ok? {
      var s2 := Write(s1.w, s1.w.db.GetOrCreateCredential(rec.app, newKey));
      if s2.r.Ok? {
        IssuedRow(w.db, rec.app, newKey);
        CredentialJoins(side, w.db, rec.app, newKey);
        CredentialsSound(w.db, rec.app, newKey);
        var consumer := Consumer(s2.w.db.creds[rec.app].key, Limit(s1.r.value));
        var s3 := OnGateway(s2.w, EnsureConsumer(ConsumerName(rec.app), consumer));
        CoveredByWrite(side, w, s3.w, LateKeys(side, w.db, s3.w.db, rec.app));
        if s3.r.Ok? {
          KeyAuthListed(side, cfg, w, s3.w, id, rec);
        } else {
          CoveredWider(side, w, s3.w, {rec.product}, LateKeys(side, w.db, s3.w.db, rec.app));
        }
      } else {
        NothingYet(side, w, s2.w, {rec.product});
      }
    }
  }

  lemma NothingYet(side: Side, w: World, next: World, touched: set<nat>)
    requires next.db == w.db && RoutesOf(side, next) == RoutesOf(side, w)
    ensures Covered(side, w, next, touched, {}) && Framed(side, w, next, touched)
  {
    hide SameView;
    hide New;
    Itself(side, w.db);
  }

  lemma CoveredWider(side: Side, w: World, next: World, touched: set<nat>, late: set<nat>)
    requires Covered(side, w, next, {}, late)
    ensures Covered(side, w, next, touched, late) && Covered(side, w, next, touched, late - touched)
  {
    hide SameView;
    hide SameRoute;
    hide Joined;
    hide New;
  }

  lemma IssuedRow(db: Db, app: nat, newKey: string)
    requires db.GetOrCreateCredential(app, newKey).Ok?
    ensures var next := db.GetOrCreateCredential(app, newKey).value;
            && next == db.(creds := next.creds) && next.creds.Keys == db.creds.Keys + {app}
            && (HoldsSandboxKey(next, app) <==> HoldsSandboxKey(db, app))
  {
    if app in db.creds {
      assert db.creds.Keys + {app} == db.creds.Keys;
      assert db.(creds := db.creds) == db;
    }
  }

  lemma KeyAuthListed(side: Side, cfg: Config, w: World, w3: World, id: nat, rec: SubRecord)
    requires Sound(w3.db) && cfg.issuer != "" && On(cfg, side) && w.db.GetSubscription(id) == Ok(rec)
    requires w3.db == w.db.(creds := w3.db.creds) && w3.db.creds.Keys == w.db.creds.Keys + {rec.app}
    requires HoldsSandboxKey(w3.db, rec.app) <==> HoldsSandboxKey(w.db, rec.app)
    requires rec.product in w.db.products && w.db.products[rec.product].auth.KeyAuth?
    requires Covered(side, w, w3, {}, LateKeys(side, w.db, w3.db, rec.app))
    ensures var s := ListAndActivate(cfg, w3, id, rec);
            && Covered(side, w, s.w, {rec.product}, LateKeys(side, w.db, s.w.db, rec.app) - {rec.product})
            && s.w.db.products == w.db.products
            && (s.r.Ok? ==> ListHalf(cfg, w3, id, rec).r.Ok?)
            && ((if side.Production? then ListHalf(cfg, w3, id, rec).r.Ok? else s.r.Ok? && !ReadFails(w3, 3)) ==>
                  if side.Production? || HoldsSandboxKey(w.db, rec.app) then Settled(side, s.w, rec.product)
                  else Covered(side, w, s.w, {}, {}))
  {
    hide Sound;
    hide Framed;
    hide Covered;
    hide Settled;
    hide Quieter;
    hide ListAndActivate;
    var late := LateKeys(side, w.db, w3.db, rec.app);
    var s := ListAndActivate(cfg, w3, id, rec);
    ListingKeepsKeys(cfg, w3, id, rec);
    CoveredWider(side, w, w3, {rec.product}, late);
    if side.Production? {
      ListAndActivateEffect(cfg, w3, id, rec);
    } else {
      ListAndActivateSandboxEffect(cfg, w3, id, rec);
      if Framed(side, w3, s.w, {}) {
        assert late - {} == {};
        CoveredThenFramed(side, w, w3, s.w, {}, late);
      }
    }
    CoveredThenFramed(side, w, w3, s.w, {rec.product}, late);
  }

  lemma ListingKeepsKeys(cfg: Config, w: World, id: nat, rec: SubRecord)
    ensures var s := ListAndActivate(cfg, w, id, rec);
            s.w.db.creds == w.db.creds && s.w.db.products == w.db.products
            && (s.r.Ok? ==> ListHalf(cfg, w, id, rec).r.Ok?)
  {
    hide Quieter;
    hide ReprovisionRoute;
    hide GrantSandbox;
  }

  lemma BillingFrames(side: Side, w: World, app: nat, sub: nat, planId: nat)
    ensures Framed(side, w, SubscriptionActivated(w, app, sub, planId).w, {})
    ensures forall p :: Settled(side, w, p) ==> Settled(side, SubscriptionActivated(w, app, sub, planId).w, p)
  {
    hide Framed;
    hide Settled;
    hide Everyone;
    hide SubscriptionActivated;
    var s := SubscriptionActivated(w, app, sub, planId);
    SameTables(side, w.db, s.w.db);
    Unnoticed(side, w, s.w, {});
  }

  ghost predicate ApprovalCovered(side: Side, w: World, s: Step<()>, id: nat, done: bool) {
    var op := Grant(id, "k");
    && Covered(side, w, s.w, Touched(side, w.db, op), Late(side, w.db, s.w.db, op))
    && (s.r.Ok? ==> done)
    && (done && !Overlooked(side, w, op) ==> Finished(side, w, s.w, Touched(side, w.db, op), Rebuilt(side, w.db, op)))
  }

  /** Billing, the last step of both kinds of approval. */
  function Billed(s: Step<()>, rec: SubRecord, id: nat): Step<()> {
    if s.r.Ok? then SubscriptionActivated(s.w, rec.app, id, rec.plan) else s
  }

  lemma OAuthKeepsTables(cfg: Config, w: World, id: nat, rec: SubRecord)
    ensures var s := ActivateOAuth(cfg, w, id, rec);
            s.w.db.creds == w.db.creds && s.w.db.products == w.db.products
  {
    hide Quieter;
    hide ReprovisionRoute;
  }

  lemma OAuthApproved(side: Side, cfg: Config, w: World, id: nat, rec: SubRecord)
    requires Sound(w.db) && cfg.issuer != "" && On(cfg, side) && w.db.GetSubscription(id) == Ok(rec)
    requires rec.product in w.db.products && w.db.products[rec.product].auth.OAuth2?
    ensures var s := ActivateOAuth(cfg, Tick(Tick(w)), id, rec);
            ApprovalCovered(side, w, Billed(s, rec, id), id, s.r.Ok?)
  {
    hide Sound;
    hide Framed;
    hide Covered;
    hide Settled;
    hide Quieter;
    hide ActivateOAuth;
    hide SubscriptionActivated;
    var w2 := Tick(Tick(w));
    var s3 := ActivateOAuth(cfg, w2, id, rec);
    var s := Billed(s3, rec, id);
    var k := w.db.subIds[id];
    OAuthKeepsTables(cfg, w2, id, rec);
    BillingFrames(side, s3.w, rec.app, id, rec.plan);
    if side.Production? {
      ActivateOAuthEffect(cfg, w2, id, rec);
      FromAlike(side, w2, w, s3.w, {rec.product}, {});
      FramedWider(side, s3.w, SubscriptionActivated(s3.w, rec.app, id, rec.plan).w, {}, {rec.product});
      FramedTransitive(side, w, s3.w, SubscriptionActivated(s3.w, rec.app, id, rec.plan).w, {rec.product});
      FramedIsCovered(side, w, s.w, {rec.product});
      assert Late(side, w.db, s.w.db, Grant(id, "k")) == {};
    } else {
      ActivateOAuthSandboxEffect(cfg, w2, id, rec);
      var late := LateSandbox(side, w.db, s3.w.db, k);
      FromAlike(side, w2, w, s3.w, {}, late);
      CoveredThenFramed(side, w, s3.w, SubscriptionActivated(s3.w, rec.app, id, rec.plan).w, {}, late);
      assert late - {} == late;
      assert Late(side, w.db, s.w.db, Grant(id, "k")) == late;
    }
  }

  lemma KeyAuthApproved(side: Side, cfg: Config, w: World, id: nat, rec: SubRecord, newKey: string)
    requires Sound(w.db) && cfg.issuer != "" && On(cfg, side) && w.db.GetSubscription(id) == Ok(rec)
    requires rec.product in w.db.products && w.db.products[rec.product].auth.KeyAuth?
    ensures var s := ActivateKeyAuth(cfg, Tick(Tick(w)), id, rec, newKey);
            ApprovalCovered(side, w, Billed(s, rec, id), id,
                            if side.Production? then KeyAuthHalf(cfg, Tick(Tick(w)), id, rec, newKey).r.Ok?
                            else s.r.Ok?)
  {
    hide Sound;
    hide KeyAuthHalf;
    hide HoldsSandboxKey;
    hide Framed;
    hide Covered;
    hide Settled;
    hide Quieter;
    hide Kept;
    hide ActivateKeyAuth;
    hide SubscriptionActivated;
    var w2 := Tick(Tick(w));
    var s3 := ActivateKeyAuth(cfg, w2, id, rec, newKey);
    var bill := SubscriptionActivated(s3.w, rec.app, id, rec.plan);
    var s := Billed(s3, rec, id);
    var late := LateKeys(side, w.db, s3.w.db, rec.app) - {rec.product};
    ActivateKeyAuthEffect(side, cfg, w2, id, rec, newKey);
    FromAlike(side, w2, w, s3.w, {rec.product}, late);
    FromAlike(side, w2, w, s3.w, {}, {});
    BillingFrames(side, s3.w, rec.app, id, rec.plan);
    FramedWider(side, s3.w, bill.w, {}, {rec.product});
    CoveredThenFramed(side, w, s3.w, bill.w, {rec.product}, late);
    assert late - {rec.product} == late;
    assert Late(side, w.db, s.w.db, Grant(id, "k")) == late;
    if Covered(side, w, s3.w, {}, {}) {
      CoveredThenFramed(side, w, s3.w, bill.w, {}, {});
      CoveredKept(side, w, bill.w, rec.product);
    }
  }

  lemma CoveredKept(side: Side, w: World, next: World, product: nat)
    requires Covered(side, w, next, {}, {} - {}) && product in w.db.products
    ensures Kept(side, w.db, next.db, RoutesOf(side, w), RoutesOf(side, next), product)
  {
    hide SameDemand;
  }

  lemma NothingApproved(side: Side, w: World, next: World, id: nat, e: Error)
    requires next.db == w.db && RoutesOf(side, next) == RoutesOf(side, w)
    ensures ApprovalCovered(side, w, Fail(next, e), id, false)
  {
    hide Covered;
    hide Framed;
    var op := Grant(id, "k");
    NothingYet(side, w, next, Touched(side, w.db, op));
    assert Late(side, w.db, next.db, op) == {};
  }

  lemma ApproveEffect(side: Side, cfg: Config, w: World, id: nat, newKey: string)
    requires Sound(w.db) && cfg.issuer != "" && On(cfg, side)
    ensures ApprovalCovered(side, w, Approve(cfg, w, id, newKey), id, ApprovalPart(side, cfg, w, id, newKey).r.Ok?)
  {
    hide Sound;
    hide ApprovalCovered;
    hide Quieter;
    hide ActivateKeyAuth;
    hide ActivateOAuth;
    hide SubscriptionActivated;
    var s1 := Read(w, w.db.GetSubscription(id));
    if s1.r.Ok? && !s1.r.value.status.Rejected? {
      var rec := s1.r.value;
      SubscriptionIds(w.db, id);
      var s2 := Read(s1.w, s1.w.db.GetProduct(rec.product));
      if s2.r.Ok? {
        if s2.r.value.auth.OAuth2? {
          OAuthApproved(side, cfg, w, id, rec);
        } else {
          KeyAuthApproved(side, cfg, w, id, rec, newKey);
        }
      } else {
        NothingApproved(side, w, s2.w, id, s2.r.error);
      }
    } else {
      NothingApproved(side, w, s1.w, id, if s1.r.Ok? then InvalidTransition else s1.r.error);
    }
  }

  /** The status is written last: whatever fails, an approval that leaves the subscription
      newly active has brought the product's production route up to date before, unless it
      overlooked a failed query of the client id. */
  lemma ActivationComesLast(cfg: Config, w: World, id: nat, newKey: string)
    requires Sound(w.db) && cfg.issuer != "" && id in w.db.subIds && !ReadFails(w, 2)
    ensures var end, k := Approve(cfg, w, id, newKey).w, w.db.subIds[id];
            !w.db.Active(k.app, k.product) && end.db.Active(k.app, k.product) ==> Settled(Production, end, k.product)
  {
    hide Sound;
    hide Settled;
    hide Covered;
    hide Approve;
    hide ApprovalPart;
    var end, k := Approve(cfg, w, id, newKey).w, w.db.subIds[id];
    ApproveEffect(Production, cfg, w, id, newKey);
    SubscriptionIds(w.db, id);
    if !w.db.Active(k.app, k.product) && end.db.Active(k.app, k.product) {
      StatusIsLast(cfg, w, id, newKey);
    }
  }

  /** Billing comes after that: whatever fails, an approval that has written an invoice has
      left the subscription active. */
  lemma BillingComesLast(cfg: Config, w: World, id: nat, newKey: string)
    requires Sound(w.db)
    ensures var end := Approve(cfg, w, id, newKey).w.db;
            end.invoices != w.db.invoices ==>
                id in w.db.subIds && end.Active(w.db.subIds[id].app, w.db.subIds[id].product)
  {
    hide Sound;
    hide Quieter;
    hide ActivateOAuth;
    hide ActivateKeyAuth;
    hide SubscriptionActivated;
    var s1 := Read(w, w.db.GetSubscription(id));
    if s1.r.Ok? {
      var rec := s1.r.value;
      SubscriptionIds(w.db, id);
      ActivationThenBilling(cfg, Tick(Tick(w)), id, rec, newKey);
    }
  }

  lemma ActivationThenBilling(cfg: Config, w: World, id: nat, rec: SubRecord, newKey: string)
    requires w.db.GetSubscription(id) == Ok(rec)
    ensures var s := ActivateOAuth(cfg, w, id, rec);
            s.w.db.invoices == w.db.invoices && (s.r.Ok? ==> s.w.db.Active(rec.app, rec.product))
    ensures var s := ActivateKeyAuth(cfg, w, id, rec, newKey);
            s.w.db.invoices == w.db.invoices && (s.r.Ok? ==> s.w.db.Active(rec.app, rec.product))
  {
    OAuthActivates(cfg, w, id, rec);
    KeyAuthActivates(cfg, w, id, rec, newKey);
  }

  lemma OAuthActivates(cfg: Config, w: World, id: nat, rec: SubRecord)
    requires w.db.GetSubscription(id) == Ok(rec)
    ensures var s := ActivateOAuth(cfg, w, id, rec);
            s.w.db.invoices == w.db.invoices && (s.r.Ok? ==> s.w.db.Active(rec.app, rec.product))
  {
    hide Quieter;
    hide Write;
    hide ReprovisionRoute;
    hide Db.SetSubscriptionStatus;
    var cid := Read(w, w.db.GetClientID(rec.app));
    var s1 := ReprovisionRoute(cfg, cid.w, rec.product, [if cid.r.Ok? then cid.r.value else ""]);
    WriteCases(s1.w, w.db.SetSubscriptionStatus(id, Active));
    ActiveRowOf(w.db, id, rec);
  }

  lemma ActiveRowOf(db: Db, id: nat, rec: SubRecord)
    requires db.GetSubscription(id) == Ok(rec)
    ensures var r := db.SetSubscriptionStatus(id, Active);
            r.Ok? && r.value.invoices == db.invoices && r.value.Active(rec.app, rec.product)
  {
  }

  lemma KeyAuthActivates(cfg: Config, w: World, id: nat, rec: SubRecord, newKey: string)
    requires w.db.GetSubscription(id) == Ok(rec)
    ensures var s := ActivateKeyAuth(cfg, w, id, rec, newKey);
            s.w.db.invoices == w.db.invoices && (s.r.Ok? ==> s.w.db.Active(rec.app, rec.product))
  {
    hide Quieter;
    hide Write;
    hide ConsumerName;
    hide ListAndActivate;
    hide Db.GetOrCreateCredential;
    var s1 := Read(w, w.db.GetPlan(rec.plan));
    if s1.r.Ok? {
      var s2 := Write(s1.w, s1.w.db.GetOrCreateCredential(rec.app, newKey));
      WriteCases(s1.w, s1.w.db.GetOrCreateCredential(rec.app, newKey));
      if s2.r.Ok? {
        IssuedRow(s1.w.db, rec.app, newKey);
        var consumer := Consumer(s2.w.db.creds[rec.app].key, Limit(s1.r.value));
        var s3 := OnGateway(s2.w, EnsureConsumer(ConsumerName(rec.app), consumer));
        ListingThenActive(cfg, s3.w, id, rec);
      }
    }
  }

  lemma ListingThenActive(cfg: Config, w: World, id: nat, rec: SubRecord)
    requires w.db.GetSubscription(id) == Ok(rec)
    ensures var s := ListAndActivate(cfg, w, id, rec);
            s.w.db.invoices == w.db.invoices && (s.r.Ok? ==> s.w.db.Active(rec.app, rec.product))
  {
    hide Quieter;
    hide Write;
    hide ConsumerName;
    hide GrantSandbox;
    hide ReprovisionRoute;
    hide Db.SetSubscriptionStatus;
    var s1 := ReprovisionRoute(cfg, w, rec.product, [ConsumerName(rec.app)]);
    WriteCases(s1.w, w.db.SetSubscriptionStatus(id, Active));
    ActiveRowOf(w.db, id, rec);
  }

  /** The consumer comes first: whatever fails, an approval that has changed a key-auth
      product's production route has given the application a consumer with its stored key. */
  lemma ConsumerComesFirst(cfg: Config, w: World, id: nat, newKey: string)
    requires Sound(w.db) && id in w.db.subIds
    ensures var end, k := Approve(cfg, w, id, newKey).w, w.db.subIds[id];
            k.product in w.db.products && w.db.products[k.product].auth.KeyAuth?
            && end.gw.live.routes != w.gw.live.routes ==>
              && k.app in end.db.creds && ConsumerName(k.app) in end.gw.live.consumers
              && end.gw.live.consumers[ConsumerName(k.app)].key == end.db.creds[k.app].key
  {
    hide Sound;
    hide Quieter;
    hide ConsumerName;
    hide ActivateOAuth;
    hide ActivateKeyAuth;
    hide SubscriptionActivated;
    var s1 := Read(w, w.db.GetSubscription(id));
    if s1.r.Ok? {
      SubscriptionIds(w.db, id);
      ActivatedConsumer(cfg, Tick(Tick(w)), id, s1.r.value, newKey);
    }
  }

  lemma ActivatedConsumer(cfg: Config, w: World, id: nat, rec: SubRecord, newKey: string)
    ensures var end := ActivateKeyAuth(cfg, w, id, rec, newKey).w;
            end.gw.live.routes != w.gw.live.routes ==>
              && rec.app in end.db.creds && ConsumerName(rec.app) in end.gw.live.consumers
              && end.gw.live.consumers[ConsumerName(rec.app)].key == end.db.creds[rec.app].key
  {
    hide Quieter;
    hide Write;
    hide ConsumerName;
    hide ListAndActivate;
    hide Db.GetOrCreateCredential;
    var s1 := Read(w, w.db.GetPlan(rec.plan));
    if s1.r.Ok? {
      var s2 := Write(s1.w, s1.w.db.GetOrCreateCredential(rec.app, newKey));
      WriteCases(s1.w, s1.w.db.GetOrCreateCredential(rec.app, newKey));
      if s2.r.Ok? {
        IssuedRow(s1.w.db, rec.app, newKey);
        var consumer := Consumer(s2.w.db.creds[rec.app].key, Limit(s1.r.value));
        var s3 := OnGateway(s2.w, EnsureConsumer(ConsumerName(rec.app), consumer));
        ListingKeepsConsumers(cfg, s3.w, id, rec);
      }
    }
  }

  lemma ListingKeepsConsumers(cfg: Config, w: World, id: nat, rec: SubRecord)
    ensures var s := ListAndActivate(cfg, w, id, rec);
            s.w.db.creds == w.db.creds && s.w.gw.live.consumers == w.gw.live.consumers
  {
    hide Quieter;
    hide ReprovisionRoute;
    hide GrantSandbox;
  }

  lemma StatusIsLast(cfg: Config, w: World, id: nat, newKey: string)
    ensures Approve(cfg, w, id, newKey).w.db.subs != w.db.subs ==> ApprovalPart(Production, cfg, w, id, newKey).r.Ok?
  {
    hide Quieter;
    hide ActivateOAuth;
    hide ActivateKeyAuth;
    hide KeyAuthHalf;
    hide SubscriptionActivated;
    var s1 := Read(w, w.db.GetSubscription(id));
    if s1.r.Ok? {
      var rec := s1.r.value;
      var s2 := Read(s1.w, s1.w.db.GetProduct(rec.product));
      OAuthStatusIsLast(cfg, s2.w, id, rec);
      KeyAuthStatusIsLast(cfg, s2.w, id, rec, newKey);
    }
  }

  lemma OAuthStatusIsLast(cfg: Config, w: World, id: nat, rec: SubRecord)
    ensures var s := ActivateOAuth(cfg, w, id, rec); s.w.db.subs != w.db.subs ==> s.r.Ok?
  {
    hide Quieter;
    hide ReprovisionRoute;
  }

  lemma KeyAuthStatusIsLast(cfg: Config, w: World, id: nat, rec: SubRecord, newKey: string)
    ensures var s := ActivateKeyAuth(cfg, w, id, rec, newKey);
            s.w.db.subs != w.db.subs ==> KeyAuthHalf(cfg, w, id, rec, newKey).r.Ok?
  {
    hide Quieter;
    hide Write;
    hide ConsumerName;
    hide ListHalf;
    hide ListAndActivate;
    hide Db.GetOrCreateCredential;
    var s1 := Read(w, w.db.GetPlan(rec.plan));
    if s1.r.Ok? {
      var s2 := Write(s1.w, s1.w.db.GetOrCreateCredential(rec.app, newKey));
      WriteCases(s1.w, s1.w.db.GetOrCreateCredential(rec.app, newKey));
      if s2.r.Ok? {
        IssuedRow(s1.w.db, rec.app, newKey);
        var consumer := Consumer(s2.w.db.creds[rec.app].key, Limit(s1.r.value));
        var s3 := OnGateway(s2.w, EnsureConsumer(ConsumerName(rec.app), consumer));
        ListingIsLast(cfg, s3.w, id, rec);
      }
    }
  }

  lemma ListingIsLast(cfg: Config, w: World, id: nat, rec: SubRecord)
    ensures var s := ListAndActivate(cfg, w, id, rec); s.w.db.subs != w.db.subs ==> ListHalf(cfg, w, id, rec).r.Ok?
  {
    hide Quieter;
    hide ReprovisionRoute;
    hide GrantSandbox;
  }

  // ---- the other operations

  lemma SubscribeEffect(side: Side, cfg: Config, w: World, app: nat, product: nat, plan: nat, newKey: string)
    ensures var s := Subscribe(w, app, product, plan, newKey);
            Covered(side, w, s.w, {}, LateKeys(side, w.db, s.w.db, app))
  {
    hide Covered;
    hide Subscribe;
    hide RecordRequest;
    var s, w3 := Subscribe(w, app, product, plan, newKey), Tick(Tick(Tick(w)));
    SubscribeCases(w, app, product, plan, newKey);
    if s.w == w.(faults := s.w.faults) {
      NothingYet(side, w, s.w, {});
    } else {
      RecordRequestEffect(side, w3, w.db.products[product].auth, app, product, plan, newKey);
      FromAlike(side, w3, w, s.w, {}, LateKeys(side, w.db, s.w.db, app));
    }
  }

  lemma RecordRequestEffect(side: Side, w: World, auth: Auth, app: nat, product: nat, plan: nat, newKey: string)
    requires !ActiveIn(w.db.subs, app, product)
    ensures var s := RecordRequest(w, auth, app, product, plan, newKey);
            Covered(side, w, s.w, {}, LateKeys(side, w.db, s.w.db, app))
  {
    hide Covered;
    hide Framed;
    hide Joined;
    hide SameView;
    hide Quieter;
    hide Db.SaveSubscription;
    hide Db.GetOrCreateCredential;
    NothingYet(side, w, Tick(w), {});
    if auth.OAuth2? {
      PendingFrames(side, w, app, product, plan);
      SavedTables(w.db, app, product, plan);
    } else {
      var s1 := Write(w, w.db.GetOrCreateCredential(app, newKey));
      if s1.r.Ok? {
        IssuedRow(w.db, app, newKey);
        CredentialJoins(side, w.db, app, newKey);
        CoveredByWrite(side, w, s1.w, LateKeys(side, w.db, s1.w.db, app));
        PendingFrames(side, s1.w, app, product, plan);
        SavedTables(s1.w.db, app, product, plan);
        var s2 := Write(s1.w, s1.w.db.SaveSubscription(app, product, plan));
        CoveredThenFramed(side, w, s1.w, s2.w, {}, LateKeys(side, w.db, s1.w.db, app));
        assert LateKeys(side, w.db, s1.w.db, app) - {} == LateKeys(side, w.db, s2.w.db, app);
      }
    }
  }

  lemma SavedTables(db: Db, app: nat, product: nat, plan: nat)
    ensures var r := db.SaveSubscription(app, product, plan);
            r.Ok? ==> r.value.creds == db.creds && r.value.products == db.products
  {
  }

  lemma PendingFrames(side: Side, w: World, app: nat, product: nat, plan: nat)
    requires !ActiveIn(w.db.subs, app, product)
    ensures var s := Write(w, w.db.SaveSubscription(app, product, plan));
            Framed(side, w, s.w, {}) && Covered(side, w, s.w, {}, {})
  {
    hide Everyone;
    hide Framed;
    hide Covered;
    hide Quieter;
    hide Db.SaveSubscription;
    Itself(side, w.db);
    PendingKeepsEveryone(side, w.db, app, product, plan);
    var s := Write(w, w.db.SaveSubscription(app, product, plan));
    FramedByNone(side, w, s.w);
    FramedIsCovered(side, w, s.w, {});
  }

  /** Operations that only rename keys, limits or invoices. */
  lemma QuietEffect(side: Side, w: World, next: World)
    requires next.db.subs == w.db.subs && next.db.products == w.db.products && next.db.apps == w.db.apps
    requires next.db.creds.Keys == w.db.creds.Keys
    requires forall a :: a in w.db.creds ==> (w.db.creds[a].sandboxKey == "" <==> next.db.creds[a].sandboxKey == "")
    requires RoutesOf(side, next) == RoutesOf(side, w)
    ensures Covered(side, w, next, {}, {})
  {
    hide Everyone;
    hide Framed;
    SameTables(side, w.db, next.db);
    FramedByNone(side, w, next);
    FramedIsCovered(side, w, next, {});
  }

  lemma RotateKeyEffect(side: Side, w: World, app: nat, newKey: string)
    ensures Covered(side, w, RotateKey(w, app, newKey).w, {}, {})
  {
    hide Covered;
    hide RotateKey;
    RotateKeyTables(w, app, newKey);
    QuietEffect(side, w, RotateKey(w, app, newKey).w);
  }

  lemma RotateKeyTables(w: World, app: nat, newKey: string)
    ensures var s := RotateKey(w, app, newKey);
            && (s.w.db == w.db || (app in w.db.creds && Ok(s.w.db) == w.db.UpdateCredentialKey(app, newKey)))
            && s.w.gw.live.routes == w.gw.live.routes && s.w.sandbox.live == w.sandbox.live
  {
    hide Quieter;
    hide Db.ActivePlanForApp;
    hide Db.UpdateCredentialKey;
  }

  lemma RotateSandboxKeyEffect(side: Side, cfg: Config, w: World, app: nat, newKey: string)
    requires newKey != ""
    ensures Covered(side, w, RotateSandboxKey(cfg, w, app, newKey).w, {}, {})
  {
    hide Covered;
    hide RotateSandboxKey;
    RotateSandboxKeyTables(cfg, w, app, newKey);
    QuietEffect(side, w, RotateSandboxKey(cfg, w, app, newKey).w);
  }

  lemma RotateSandboxKeyTables(cfg: Config, w: World, app: nat, newKey: string)
    ensures var s := RotateSandboxKey(cfg, w, app, newKey);
            && (s.w.db == w.db
                || (app in w.db.creds && w.db.creds[app].sandboxKey != ""
                    && Ok(s.w.db) == w.db.UpdateSandboxKey(app, newKey)))
            && s.w.gw.live == w.gw.live && s.w.sandbox.live.routes == w.sandbox.live.routes
  {
    hide Quieter;
    hide InstallSandboxKey;
    hide Db.ActivePlanForApp;
    hide Db.UpdateSandboxKey;
    hide Db.GetCredential;
    hide Db.GetSandboxKey;
    HeldKey(w.db, app);
    var s1 := Read(w, w.db.GetCredential(app));
    var s2 := Read(s1.w, s1.w.db.GetSandboxKey(app));
    var s3 := Read(s2.w, s2.w.db.ActivePlanForApp(app));
    if s3.r.Ok? {
      InstallCases(s3.w, app, s3.r.value, newKey);
    }
  }

  lemma HeldKey(db: Db, app: nat)
    ensures db.GetCredential(app).Ok? <==> app in db.creds
    ensures db.GetSandboxKey(app).Ok? ==> app in db.creds && db.GetSandboxKey(app).value == db.creds[app].sandboxKey
  {
  }

  lemma UpdatePlanEffect(side: Side, cfg: Config, w: World, id: nat, plan: Plan)
    ensures Covered(side, w, UpdatePlan(cfg, w, id, plan).w, {}, {})
  {
    hide Covered;
    hide UpdatePlan;
    UpdatePlanTables(cfg, w, id, plan);
    QuietEffect(side, w, UpdatePlan(cfg, w, id, plan).w);
  }

  lemma UpdatePlanTables(cfg: Config, w: World, id: nat, plan: Plan)
    ensures var s := UpdatePlan(cfg, w, id, plan);
            && s.w.db == w.db.(plans := s.w.db.plans)
            && s.w.gw.live.routes == w.gw.live.routes && s.w.sandbox.live.routes == w.sandbox.live.routes
  {
    hide Quieter;
    hide Write;
    hide ReprovisionPlan;
    hide Db.UpdatePlan;
    PlanRows(w.db, id, plan);
    WriteCases(Tick(w), w.db.UpdatePlan(id, plan));
  }

  /** Plans are not part of any projection. */
  lemma PlanRows(db: Db, id: nat, plan: Plan)
    ensures var r := db.UpdatePlan(id, plan); r.Ok? ==> r.value == db.(plans := r.value.plans)
    ensures var r := db.CreatePlan(plan); r.Ok? ==> r.value == db.(plans := r.value.plans, nextPlan := r.value.nextPlan)
  {
    hide Db.PlanNameTaken;
  }

  lemma SettleEffect(side: Side, w: World, id: nat, status: InvoiceStatus)
    ensures Covered(side, w, Protocol.SettleInvoice(w, id, status).w, {}, {})
  {
    hide Covered;
    hide Protocol.SettleInvoice;
    SettleTables(w, id, status);
    QuietEffect(side, w, Protocol.SettleInvoice(w, id, status).w);
  }

  lemma SettleTables(w: World, id: nat, status: InvoiceStatus)
    ensures var s := Protocol.SettleInvoice(w, id, status);
            s.w.db == w.db.(invoices := s.w.db.invoices) && s.w.gw == w.gw && s.w.sandbox == w.sandbox
  {
    hide Quieter;
    hide Db.SettleInvoice;
    SettledRow(w.db, id, status);
  }

  lemma SettledRow(db: Db, id: nat, status: InvoiceStatus)
    ensures var next := db.SettleInvoice(id, status); next == db.(invoices := next.invoices)
  {
  }

  lemma NewRowEffect(side: Side, w: World, team: nat, plan: Plan)
    requires Sound(w.db)
    ensures Covered(side, w, Write(w, Ok(w.db.CreateApplication(team))).w, {}, {})
    ensures Covered(side, w, Write(w, w.db.CreatePlan(plan)).w, {}, {})
  {
    hide Covered;
    hide Framed;
    hide Everyone;
    hide Quieter;
    hide Db.CreatePlan;
    PlanRows(w.db, 0, plan);
    QuietEffect(side, w, Write(w, w.db.CreatePlan(plan)).w);
    var s := Write(w, Ok(w.db.CreateApplication(team)));
    Itself(side, w.db);
    NewApplicationKeepsEveryone(side, w.db, team);
    FramedByNone(side, w, s.w);
    FramedIsCovered(side, w, s.w, {});
  }

  // ---- products

  lemma CreatedRow(db: Db, row: Product)
    ensures var r := db.CreateProduct(row);
            r.Ok? ==> r.value == db.(products := db.products[db.nextProduct := row], nextProduct := db.nextProduct + 1)
  {
    hide Db.UniqueError;
  }

  lemma CreateProductEffect(side: Side, w: World, draft: Draft)
    requires Sound(w.db)
    ensures Covered(side, w, CreateProduct(w, draft).w, {}, {})
  {
    hide Sound;
    hide Covered;
    hide Framed;
    hide Quieter;
    hide Db.CreateProduct;
    hide Db.ContextPathOverlaps;
    CreatedRow(w.db, draft.Row());
    var s := CreateProduct(w, draft);
    if s.w.db == w.db {
      NothingYet(side, w, s.w, {});
    } else {
      NewProductCovered(side, w, s.w, draft.Row());
    }
  }

  lemma NewProductCovered(side: Side, w: World, next: World, row: Product)
    requires Sound(w.db) && next.db == w.db.(products := w.db.products[w.db.nextProduct := row],
                                             nextProduct := w.db.nextProduct + 1)
    requires RoutesOf(side, next) == RoutesOf(side, w)
    ensures Covered(side, w, next, {}, {})
  {
    var id := w.db.nextProduct;
    assert New(side, w.db, next.db, id);
    assert forall q: nat :: q != id && q in w.db.products ==> SameView(side, w.db, next.db, q);
  }

  lemma DeleteProductEffect(side: Side, w: World, id: nat)
    requires Sound(w.db)
    ensures var s := DeleteProduct(w, id);
            && Covered(side, w, s.w, {id}, {})
            && (s.r.Ok? ==> id !in s.w.db.products && Audience(side, w.db, id) == {}
                            && (RouteID(id) in RoutesOf(side, s.w) ==> RouteID(id) in RoutesOf(side, w)))
  {
    hide Sound;
    hide Audience;
    hide Covered;
    hide Framed;
    hide Others;
    hide Quieter;
    hide OnlyRoute;
    hide Db.CountActiveSubscriptions;
    NobodyActive(side, w.db, id);
    var s := DeleteProduct(w, id);
    if s.w.db == w.db {
      CallTouches(w.gw, id, DeleteRoute(RouteID(id)));
      FramedByOne(side, w, s.w, id);
      FramedIsCovered(side, w, s.w, {id});
    } else {
      RemovedProductKeepsOthers(side, w.db, id);
      CallTouches(w.gw, id, DeleteRoute(RouteID(id)));
      FramedByOne(side, w, s.w, id);
      FramedIsCovered(side, w, s.w, {id});
    }
  }

  lemma NobodyActive(side: Side, db: Db, product: nat)
    requires Sound(db)
    ensures db.CountActiveSubscriptions(product) == 0 ==> Audience(side, db, product) == {}
    ensures db.CountActiveSubscriptions(product) == 0 <==> !exists a: nat :: ActiveIn(db.subs, a, product)
  {
    CountIsZero(db, product);
    if db.CountActiveSubscriptions(product) == 0 {
      forall k | k in db.subs && k.product == product ensures Caller(side, db, product, k.app).None? {
        assert !db.Active(k.app, product);
      }
    }
    if a: nat :| ActiveIn(db.subs, a, product) {
      assert db.Active(a, product);
    }
  }

  lemma UpdateProductEffect(side: Side, cfg: Config, w: World, id: nat, draft: Draft)
    requires Sound(w.db) && cfg.issuer != "" && On(cfg, side)
    ensures var s := UpdateProduct(cfg, w, id, draft);
            && Covered(side, w, s.w, {id}, {})
            && (s.r.Ok? || (side.Production? && EditHalf(cfg, w, id, draft)) ==>
                  Finished(side, w, s.w, {id}, Rebuilt(side, w.db, EditProduct(id, draft))))
  {
    hide Sound;
    hide Framed;
    hide Covered;
    hide Settled;
    hide Kept;
    hide Others;
    hide Quieter;
    hide EditRow;
    hide RebuildEdited;
    hide ReprovisionSandboxRoute;
    EditRowCases(w, id, draft);
    var s1 := EditRow(w, id, draft);
    var s := UpdateProduct(cfg, w, id, draft);
    if s1.r.Err? {
      NothingYet(side, w, s1.w, {id});
    } else {
      ProductsSound(w.db, id, draft.Row());
      EditKeepsOthers(side, w.db, id, draft.Row());
      if side.Production? {
        EditedProduction(cfg, w, s1.w, id, s1.r.value);
        ToAlike(side, w, RebuildEdited(cfg, s1.w, id, s1.r.value).w, s.w, {id});
      } else {
        EditedSandbox(cfg, w, RebuildEdited(cfg, s1.w, id, s1.r.value).w, id, s1.r.value);
      }
      FramedIsCovered(side, w, s.w, {id});
    }
  }

  /** What both halves of an edit start from: the row replaced, the routes as they were. */
  ghost predicate Edited(side: Side, w: World, w1: World, id: nat, e: Edit) {
    && id in w.db.products && w1.db == w.db.(products := w.db.products[id := e.updated])
    && e.prior == w.db.products[id] && RoutesOf(side, w1) == RoutesOf(side, w)
    && (e.loaded.Some? ==> e.loaded.value == w.db.CountActiveSubscriptions(id))
  }

  lemma EditedProduction(cfg: Config, w: World, w1: World, id: nat, e: Edit)
    requires Sound(w.db) && Sound(w1.db) && cfg.issuer != "" && Edited(Production, w, w1, id, e)
    requires Others(Production, w.db, w1.db, id)
    ensures var s := RebuildEdited(cfg, w1, id, e);
            && Framed(Production, w, w1, {id}) && Framed(Production, w, s.w, {id})
            && (s.r.Ok? ==> if Rebuilds(Production, w.db, id, e.updated) then Settled(Production, s.w, id)
                            else Kept(Production, w.db, s.w.db, RoutesOf(Production, w), RoutesOf(Production, s.w), id))
  {
    hide Sound;
    hide Settled;
    hide SameDemand;
    hide Framed;
    hide Others;
    hide Quieter;
    hide OnlyRoute;
    hide Audience;
    hide Reconciled;
    hide ReprovisionRoute;
    hide Db.CountActiveSubscriptions;
    var w2 := if e.updated.icon != "upload" then Tick(w1) else w1;
    FramedByOne(Production, w, w1, id);
    FramedByOne(Production, w, w2, id);
    NobodyActive(Production, w.db, id);
    NobodyActive(Production, w1.db, id);
    SameCount(w.db, w1.db, id);
    EditKeepsOthers(Production, w.db, id, e.updated);
    EditRebuilt(cfg, w, w2, id);
    EditRebuilt(cfg, w, Tick(w2), id);
    FramedByOne(Production, w, Tick(w2), id);
  }

  lemma EditRebuilt(cfg: Config, w: World, w2: World, id: nat)
    requires Sound(w2.db) && cfg.issuer != "" && Others(Production, w.db, w2.db, id) && id in w2.db.products
    requires RoutesOf(Production, w2) == RoutesOf(Production, w)
    ensures var s := ReprovisionRoute(cfg, w2, id, []);
            Framed(Production, w, s.w, {id}) && (s.r.Ok? ==> Settled(Production, s.w, id))
  {
    hide Sound;
    hide Framed;
    hide Others;
    hide OnlyRoute;
    hide Settled;
    hide ReprovisionRoute;
    ReprovisionTouches(cfg, w2, id, []);
    FramedByOne(Production, w, ReprovisionRoute(cfg, w2, id, []).w, id);
    RebuiltSettled(cfg, w2, id);
  }

  lemma EditedSandbox(cfg: Config, w: World, w2: World, id: nat, e: Edit)
    requires Sound(w.db) && Sound(w2.db) && cfg.sandboxOn && Edited(Sandboxed, w, w2, id, e)
    requires Others(Sandboxed, w.db, w2.db, id)
    ensures var s := if e.updated.sandboxUpstream != e.prior.sandboxUpstream
            then ReprovisionSandboxRoute(cfg, w2, id, []) else Return(w2, ());
            && Framed(Sandboxed, w, w2, {id}) && Framed(Sandboxed, w, s.w, {id})
            && (s.r.Ok? ==> if Rebuilds(Sandboxed, w.db, id, e.updated) then Settled(Sandboxed, s.w, id)
                            else Kept(Sandboxed, w.db, s.w.db, RoutesOf(Sandboxed, w), RoutesOf(Sandboxed, s.w), id))
  {
    hide Sound;
    hide Framed;
    hide Others;
    hide OnlyRoute;
    hide Audience;
    hide Reconciled;
    hide ReprovisionSandboxRoute;
    hide Db.CountActiveSubscriptions;
    FramedByOne(Sandboxed, w, w2, id);
    EditKeepsOthers(Sandboxed, w.db, id, e.updated);
    ReprovisionSandboxTouches(cfg, w2, id, []);
    FramedByOne(Sandboxed, w, ReprovisionSandboxRoute(cfg, w2, id, []).w, id);
    ReprovisionSandboxReconciles(cfg, w2, id, []);
  }

  // ---- what is not there cannot be touched

  lemma MissingProduct(side: Side, cfg: Config, w: World, app: nat, id: nat, draft: Draft)
    requires Sound(w.db) && id !in w.db.products
    ensures Covered(side, w, Unsubscribe(cfg, w, app, id).w, {}, {}) && Unsubscribe(cfg, w, app, id).r.Err?
    ensures Covered(side, w, UpdateProduct(cfg, w, id, draft).w, {}, {}) && UpdateProduct(cfg, w, id, draft).r.Err?
    ensures Covered(side, w, DeleteProduct(w, id).w, {}, {}) && DeleteProduct(w, id).r.Err?
  {
    hide Sound;
    hide Covered;
    hide Framed;
    hide Quieter;
    hide EditRow;
    hide Db.CountActiveSubscriptions;
    NoSubscription(w.db, app, id);
    UnsubscribedNothing(w.db, app, id);
    EditRowCases(w, id, draft);
    NothingYet(side, w, Unsubscribe(cfg, w, app, id).w, {});
    NothingYet(side, w, EditRow(w, id, draft).w, {});
    NothingYet(side, w, DeleteProduct(w, id).w, {});
  }

  lemma UnsubscribedNothing(db: Db, app: nat, product: nat)
    requires Sound(db) && SubKey(app, product) !in db.subs
    ensures db.DeleteSubscription(app, product) == db
  {
    var next := db.DeleteSubscription(app, product);
    assert next.subs == db.subs;
    assert next.subIds == db.subIds;
    assert next.invoices == db.invoices;
  }

  // ---- every operation

  lemma ProductOps(side: Side, cfg: Config, w: World, op: Op)
    requires Sound(w.db) && cfg.issuer != "" && On(cfg, side)
    requires op.EditProduct? || op.RemoveProduct? || op.Cancel?
    ensures DoneRight(side, cfg, w, op)
  {
    hide Sound;
    hide Covered;
    hide Settled;
    hide Framed;
    hide Kept;
    hide Audience;
    hide UpdateProduct;
    hide DeleteProduct;
    hide Unsubscribe;
    match op
    case EditProduct(id, draft) =>
      if !Acceptable(cfg, draft) { NothingYet(side, w, w, Touched(side, w.db, op)); }
      else if id in w.db.products { UpdateProductEffect(side, cfg, w, id, draft); }
      else { MissingProduct(side, cfg, w, 0, id, draft); }
    case RemoveProduct(id) =>
      if id in w.db.products { DeleteProductEffect(side, w, id); }
      else { MissingProduct(side, cfg, w, 0, id, Draft("", "", "", "", false, None, None, "")); }
    case Cancel(app, product) =>
      if product in w.db.products {
        UnsubscribeEffect(side, cfg, w, app, product);
        FramedIsCovered(side, w, Unsubscribe(cfg, w, app, product).w, {product});
      } else {
        MissingProduct(side, cfg, w, app, product, Draft("", "", "", "", false, None, None, ""));
      }
  }

  /** The statement: what every operation keeps, and what one that got through achieves. */
  ghost predicate DoneRight(side: Side, cfg: Config, w: World, op: Op) {
    var s := Do(cfg, w, op);
    && Covered(side, w, s.w, Touched(side, w.db, op), Late(side, w.db, s.w.db, op))
    && (forall p :: p in Reached(side, cfg, w, op) ==> p in Touched(side, w.db, op) && Settled(side, s.w, p))
    && (Through(side, cfg, w, op) && !op.RemoveProduct? && !Overlooked(side, w, op) ==>
          Finished(side, w, s.w, Touched(side, w.db, op), Rebuilt(side, w.db, op)))
    && (s.r.Ok? && op.RemoveProduct? ==>
          && op.id in w.db.products && op.id !in s.w.db.products && Audience(side, w.db, op.id) == {}
          && (RouteID(op.id) in RoutesOf(side, s.w) ==> RouteID(op.id) in RoutesOf(side, w)))
  }

  lemma ApplicationOps(side: Side, cfg: Config, w: World, op: Op)
    requires Sound(w.db) && cfg.issuer != "" && On(cfg, side)
    requires op.Grant? || op.Refuse? || op.RegisterClient? || op.OpenSandbox? || op.RemoveApplication?
    ensures DoneRight(side, cfg, w, op)
  {
    hide Sound;
    hide Covered;
    hide Settled;
    hide Framed;
    hide Kept;
    hide Approve;
    hide Reject;
    hide SetOIDCClientID;
    hide EnableSandbox;
    hide DeleteApplication;
    hide RegisteredSoFar;
    hide OpenedSoFar;
    hide CancelledSoFar;
    match op
    case Grant(sub, newKey) => ApproveEffect(side, cfg, w, sub, newKey);
    case Refuse(sub) =>
      RejectEffect(side, cfg, w, sub);
      FramedIsCovered(side, w, Do(cfg, w, op).w, Touched(side, w.db, op));
    case RegisterClient(app, clientId) =>
      SetOIDCClientIDEffect(side, cfg, w, app, clientId);
      FramedIsCovered(side, w, Do(cfg, w, op).w, Touched(side, w.db, op));
    case OpenSandbox(app, newKey) =>
      EnableSandboxEffect(side, cfg, w, app, newKey);
      FramedIsCovered(side, w, Do(cfg, w, op).w, Touched(side, w.db, op));
    case RemoveApplication(app) =>
      DeleteApplicationEffect(side, cfg, w, app);
      FramedIsCovered(side, w, Do(cfg, w, op).w, Touched(side, w.db, op));
  }

  predicate TouchesNothing(op: Op) {
    || op.NewApplication? || op.NewProduct? || op.NewPlan? || op.EditPlan? || op.Request? || op.Rotate?
    || op.RotateSandbox?
    || op.Settle? || op.VoidInvoice?
  }

  lemma QuietDone(side: Side, cfg: Config, w: World, op: Op)
    requires TouchesNothing(op) && Covered(side, w, Do(cfg, w, op).w, {}, Late(side, w.db, Do(cfg, w, op).w.db, op))
    ensures DoneRight(side, cfg, w, op)
  {
    hide Do;
    hide Covered;
    hide Late;
  }

  lemma QuietOps(side: Side, cfg: Config, w: World, op: Op)
    requires Sound(w.db) && TouchesNothing(op)
    ensures Covered(side, w, Do(cfg, w, op).w, {}, Late(side, w.db, Do(cfg, w, op).w.db, op))
  {
    hide Sound;
    hide Covered;
    hide LateKeys;
    hide LateSandbox;
    hide Subscribe;
    hide RotateKey;
    hide RotateSandboxKey;
    hide UpdatePlan;
    hide CreateProduct;
    hide Protocol.SettleInvoice;
    match op
    case NewApplication(team) => NewRowEffect(side, w, team, Plan("", 0, 0, 0, ""));
    case NewProduct(draft) => CreateProductEffect(side, w, draft); NothingYet(side, w, w, {});
    case NewPlan(plan) => NewRowEffect(side, w, 0, plan);
    case EditPlan(id, plan) => UpdatePlanEffect(side, cfg, w, id, plan);
    case Request(app, product, planId, newKey) => SubscribeEffect(side, cfg, w, app, product, planId, newKey);
    case Rotate(app, newKey) => RotateKeyEffect(side, w, app, newKey);
    case RotateSandbox(app, newKey) => RotateSandboxKeyEffect(side, cfg, w, app, newKey);
    case Settle(invoice) => SettleEffect(side, w, invoice, Paid);
    case VoidInvoice(invoice) => SettleEffect(side, w, invoice, Void);
  }

  lemma DoEffect(side: Side, cfg: Config, w: World, op: Op)
    requires Sound(w.db) && cfg.issuer != "" && On(cfg, side)
    ensures DoneRight(side, cfg, w, op)
  {
    hide Sound;
    hide DoneRight;
    match op
    case EditProduct(_, _) => ProductOps(side, cfg, w, op);
    case RemoveProduct(_) => ProductOps(side, cfg, w, op);
    case Cancel(_, _) => ProductOps(side, cfg, w, op);
    case Grant(_, _) => ApplicationOps(side, cfg, w, op);
    case Refuse(_) => ApplicationOps(side, cfg, w, op);
    case RegisterClient(_, _) => ApplicationOps(side, cfg, w, op);
    case OpenSandbox(_, _) => ApplicationOps(side, cfg, w, op);
    case RemoveApplication(_) => ApplicationOps(side, cfg, w, op);
    case _ => QuietOps(side, cfg, w, op); QuietDone(side, cfg, w, op);
  }
}
