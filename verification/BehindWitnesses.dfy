/** Two short runs without faults from an empty portal that leave a route behind, one on
    each gateway. What is behind follows from the tables, so that only those are computed. */
module BehindWitnesses {
  import opened Common
  import opened Naming
  import opened ContextPaths
  import opened Tables
  import opened Protocol
  import opened Runs
  import opened Integrity
  import opened Safety
  import opened Reconciliation
  import opened Effects
  import opened OperationEffects
  import opened Outcomes
  import opened Migration
  import opened ReconciledRuns
  import opened CalmRuns
  import opened Witnesses
  import Gateways

  const CONFIG := Config("https://issuer", "client_id", true)

  const EMPTY := World(EMPTY_DB, [], Gateways.State(NO_ROUTES, []), Gateways.State(NO_ROUTES, []))

  function Offer(slug: string, path: string, auth: Auth): Draft {
    Draft(slug, path, "http://backend", "http://sandbox", true, Some(auth), None, "")
  }

  // ---- the tables after one more operation

  lemma RunReady(ops: seq<Op>)
    ensures Fresh(EMPTY) && Calm(EMPTY) && Ready(CONFIG, Run(CONFIG, EMPTY, ops))
  {
    hide Run;
    RunExact(Production, CONFIG, EMPTY, ops);
    RunSound(CONFIG, EMPTY, ops);
  }

  lemma AddsProduct(ops: seq<Op>, db: Db, draft: Draft)
    requires Run(CONFIG, EMPTY, ops).db == db && Accepted(CONFIG, db, NewProduct(draft))
    ensures Run(CONFIG, EMPTY, ops + [NewProduct(draft)]).db
            == db.(products := db.products[db.nextProduct := draft.Row()], nextProduct := db.nextProduct + 1)
  {
    hide Run;
    hide Db.CreateProduct;
    hide Db.ContextPathOverlaps;
    RunReady(ops);
    RunMore(CONFIG, EMPTY, ops, NewProduct(draft));
    CreateProductOutcome(Run(CONFIG, EMPTY, ops), draft);
    CreatedRow(db, draft.Row());
  }

  lemma AddsRequest(ops: seq<Op>, db: Db, app: nat, product: nat, key: Key)
    requires Run(CONFIG, EMPTY, ops).db == db && Accepted(CONFIG, db, Request(app, product, 0, key))
             && SubKey(app, product) !in db.subs
    ensures var creds := if db.products[product].auth.OAuth2? || app in db.creds then db.creds
                         else db.creds[app := Credential(key, "")];
            Run(CONFIG, EMPTY, ops + [Request(app, product, 0, key)]).db
            == db.(creds := creds, subs := db.subs[SubKey(app, product) := Sub(db.nextSub, 0, Pending)],
                   subIds := db.subIds[db.nextSub := SubKey(app, product)], nextSub := db.nextSub + 1)
  {
    hide Run;
    hide Quieter;
    hide RecordRequest;
    RunReady(ops);
    RunMore(CONFIG, EMPTY, ops, Request(app, product, 0, key));
    Recorded(Run(CONFIG, EMPTY, ops), db.products[product].auth, app, product, key);
  }

  lemma Recorded(w: World, auth: Auth, app: nat, product: nat, key: Key)
    requires Calm(w) && app in w.db.apps && product in w.db.products && 0 in w.db.plans
             && SubKey(app, product) !in w.db.subs
    ensures var creds := if auth.OAuth2? || app in w.db.creds then w.db.creds
                         else w.db.creds[app := Credential(key, "")];
            RecordRequest(w, auth, app, product, 0, key).w.db
            == w.db.(creds := creds, subs := w.db.subs[SubKey(app, product) := Sub(w.db.nextSub, 0, Pending)],
                     subIds := w.db.subIds[w.db.nextSub := SubKey(app, product)], nextSub := w.db.nextSub + 1)
  {
    hide Quieter;
  }

  /** The approval of a subscription to a plan without a price. */
  lemma AddsGrant(ops: seq<Op>, db: Db, sub: nat, key: Key)
    requires Run(CONFIG, EMPTY, ops).db == db && Accepted(CONFIG, db, Grant(sub, key))
    requires var k := db.subIds[sub];
             && k.product in db.products && (db.products[k.product].auth.KeyAuth? ==> k.app in db.creds)
             && db.subs[k].plan in db.plans && db.plans[db.subs[k].plan].priceCents == 0
    ensures Run(CONFIG, EMPTY, ops + [Grant(sub, key)]).db
            == db.(subs := db.subs[db.subIds[sub] := db.subs[db.subIds[sub]].(status := Active)])
  {
    hide Run;
    hide Approve;
    RunReady(ops);
    RunMore(CONFIG, EMPTY, ops, Grant(sub, key));
    ApproveOutcome(CONFIG, Run(CONFIG, EMPTY, ops), sub, key);
    FreeGrant(Run(CONFIG, EMPTY, ops), sub, key);
  }

  /** It writes no table but the subscriptions. */
  lemma FreeGrant(w: World, sub: nat, key: Key)
    requires Approvable(w.db, sub)
    requires var k := w.db.subIds[sub];
             && k.product in w.db.products && (w.db.products[k.product].auth.KeyAuth? ==> k.app in w.db.creds)
             && w.db.subs[k].plan in w.db.plans && w.db.plans[w.db.subs[k].plan].priceCents == 0
    ensures var s := Approve(CONFIG, w, sub, key); s.w.db == w.db.(subs := s.w.db.subs)
  {
    hide Quieter;
    hide ActivateOAuth;
    hide ActivateKeyAuth;
    hide SubscriptionActivated;
    var rec := w.db.GetSubscription(sub).value;
    var w2 := Tick(Tick(w));
    if w.db.products[rec.product].auth.OAuth2? {
      OAuthStatus(w2, sub, rec);
      FreeOfCharge(ActivateOAuth(CONFIG, w2, sub, rec).w, rec, sub);
    } else {
      KeyAuthStatus(w2, sub, rec, key);
      FreeOfCharge(ActivateKeyAuth(CONFIG, w2, sub, rec, key).w, rec, sub);
    }
  }

  lemma OAuthStatus(w: World, sub: nat, rec: SubRecord)
    ensures var s := ActivateOAuth(CONFIG, w, sub, rec); s.w.db == w.db.(subs := s.w.db.subs)
  {
    hide Quieter;
    hide ReprovisionRoute;
  }

  lemma KeyAuthStatus(w: World, sub: nat, rec: SubRecord, key: Key)
    requires rec.app in w.db.creds
    ensures var s := ActivateKeyAuth(CONFIG, w, sub, rec, key); s.w.db == w.db.(subs := s.w.db.subs)
  {
    hide Quieter;
    hide Write;
    hide ConsumerName;
    hide WritesSucceed;
    hide ListAndActivate;
    hide Db.GetOrCreateCredential;
    var s1 := Read(w, w.db.GetPlan(rec.plan));
    if s1.r.Ok? {
      var s2 := Write(s1.w, s1.w.db.GetOrCreateCredential(rec.app, key));
      CredentialKept(s1.w, rec.app, key);
      if s2.r.Ok? {
        var limit := Limit(s1.r.value);
        var s3 := OnGateway(s2.w, Gateways.EnsureConsumer(ConsumerName(rec.app),
                                                          Gateways.Consumer(s2.w.db.creds[rec.app].key, limit)));
        ListStatus(s3.w, sub, rec);
      }
    }
  }

  lemma CredentialKept(w: World, app: nat, key: Key)
    requires app in w.db.creds
    ensures Write(w, w.db.GetOrCreateCredential(app, key)).w.db == w.db
  {
    hide Quieter;
  }

  lemma ListStatus(w: World, sub: nat, rec: SubRecord)
    ensures var s := ListAndActivate(CONFIG, w, sub, rec); s.w.db == w.db.(subs := s.w.db.subs)
  {
    hide Quieter;
    hide ReprovisionRoute;
    hide GrantSandbox;
  }

  lemma FreeOfCharge(w: World, rec: SubRecord, sub: nat)
    requires rec.plan in w.db.plans && w.db.plans[rec.plan].priceCents == 0
    ensures SubscriptionActivated(w, rec.app, sub, rec.plan).w.db == w.db
  {
  }

  /** The first products of the two runs. */
  const FIRST := (auth: Auth) => [NewApplication(0)] + [NewPlan(PLAN)] + [NewProduct(Offer("orders", "/v1", auth))]

  function Begun(auth: Auth): Db {
    EMPTY_DB.(apps := map[0 := App(0, "")], plans := map[0 := PLAN],
              products := map[0 := Offer("orders", "/v1", auth).Row()],
              nextApp := 1, nextPlan := 1, nextProduct := 1)
  }

  lemma Begins(auth: Auth)
    ensures Run(CONFIG, EMPTY, FIRST(auth)).db == Begun(auth)
  {
    hide Run;
    Paths();
    var db := Begun(auth).(products := map[], nextProduct := 0);
    Stocks();
    assert !db.ContextPathOverlaps("/v1", None);
    AddsProduct([NewApplication(0)] + [NewPlan(PLAN)], db, Offer("orders", "/v1", auth));
  }

  lemma Stocks()
    ensures Run(CONFIG, EMPTY, [NewApplication(0)] + [NewPlan(PLAN)]).db
            == EMPTY_DB.(apps := map[0 := App(0, "")], plans := map[0 := PLAN], nextApp := 1, nextPlan := 1)
  {
    hide Run;
    hide Quieter;
    var one := [NewApplication(0)];
    NothingRun();
    RunMore(CONFIG, EMPTY, [], NewApplication(0));
    assert [] + one == one;
    RunReady(one);
    RunMore(CONFIG, EMPTY, one, NewPlan(PLAN));
  }

  lemma NothingRun()
    ensures Run(CONFIG, EMPTY, []) == EMPTY
  {
  }

  lemma AddsEdit(ops: seq<Op>, db: Db, id: nat, draft: Draft)
    requires Run(CONFIG, EMPTY, ops).db == db && Accepted(CONFIG, db, EditProduct(id, draft))
    ensures Run(CONFIG, EMPTY, ops + [EditProduct(id, draft)]).db == db.(products := db.products[id := draft.Row()])
  {
    hide Run;
    hide Editable;
    hide UpdateProduct;
    RunReady(ops);
    RunMore(CONFIG, EMPTY, ops, EditProduct(id, draft));
    UpdateProductOutcome(CONFIG, Run(CONFIG, EMPTY, ops), id, draft);
  }

  lemma AddsSandbox(ops: seq<Op>, db: Db, app: nat, key: Key)
    requires Run(CONFIG, EMPTY, ops).db == db && Accepted(CONFIG, db, OpenSandbox(app, key))
             && db.creds[app].sandboxKey == ""
    ensures Run(CONFIG, EMPTY, ops + [OpenSandbox(app, key)]).db
            == db.(creds := db.creds[app := db.creds[app].(sandboxKey := key)])
  {
    hide Run;
    hide EnableSandbox;
    RunReady(ops);
    RunMore(CONFIG, EMPTY, ops, OpenSandbox(app, key));
    EnableSandboxOutcome(CONFIG, Run(CONFIG, EMPTY, ops), app, key);
  }

  function Subscriber(auth: Auth): Db {
    Begun(auth).(creds := if auth.OAuth2? then map[] else map[0 := Credential("k", "")],
                 subs := map[KEY := Sub(0, 0, Active)], subIds := map[0 := KEY], nextSub := 1)
  }

  function SECOND(auth: Auth): seq<Op> {
    FIRST(auth) + [Request(0, 0, 0, "k")] + [Grant(0, "k")]
  }

  lemma Subscribes(auth: Auth)
    ensures Run(CONFIG, EMPTY, SECOND(auth)).db == Subscriber(auth)
  {
    hide Run;
    Begins(auth);
    AddsRequest(FIRST(auth), Begun(auth), 0, 0, "k");
    var pending := Run(CONFIG, EMPTY, FIRST(auth) + [Request(0, 0, 0, "k")]).db;
    assert pending == Subscriber(auth).(subs := map[KEY := Sub(0, 0, Pending)]);
    AddsGrant(FIRST(auth) + [Request(0, 0, 0, "k")], pending, 0, "k");
  }

  // ---- production

  const BACK := EditProduct(0, Offer("orders", "/v1", KeyAuth))
  const OTHER := (auth: Auth) => NewProduct(Offer("items", "/v2", auth))

  const SWITCHED := SECOND(OAuth2) + [BACK] + [OTHER(KeyAuth)]

  /** The product is switched back to key-auth; then its subscriber, who has no credential,
      asks for another product and gets one. It is a caller of the first product, whose
      route does not list it. */
  lemma SwitchLeavesBehind()
    ensures var end := Run(CONFIG, EMPTY, SWITCHED + [Request(0, 1, 0, "k")]);
            && Fresh(EMPTY) && Calm(EMPTY) && 0 in end.db.products
            && Short(Production, end.db, end.gw.live.routes, 0)
            && !Reconciled(Production, end.db, end.gw.live.routes, 0)
  {
    hide Run;
    hide Short;
    hide Reconciled;
    hide Accepted;
    hide Joins;
    RunReady([]);
    Switches();
    assert Accepted(CONFIG, Run(CONFIG, EMPTY, SWITCHED).db, Request(0, 1, 0, "k"))
           && 0 in Joins(Production, Run(CONFIG, EMPTY, SWITCHED).db, Request(0, 1, 0, "k")) by {
      RequestJoins(Run(CONFIG, EMPTY, SWITCHED).db);
    }
    JoiningLeavesBehind(Production, CONFIG, EMPTY, SWITCHED, Request(0, 1, 0, "k"), 0);
  }

  lemma RequestJoins(db: Db)
    requires db == Subscriber(OAuth2).(products := map[0 := BACK.draft.Row(), 1 := OTHER(KeyAuth).draft.Row()],
                                       nextProduct := 2)
    ensures Accepted(CONFIG, db, Request(0, 1, 0, "k")) && 0 in Joins(Production, db, Request(0, 1, 0, "k"))
  {
  }

  lemma Switches()
    ensures Run(CONFIG, EMPTY, SWITCHED).db
            == Subscriber(OAuth2).(products := map[0 := BACK.draft.Row(), 1 := OTHER(KeyAuth).draft.Row()],
                                   nextProduct := 2)
  {
    hide Run;
    var three := SECOND(OAuth2) + [BACK];
    var switched := Subscriber(OAuth2).(products := map[0 := BACK.draft.Row()]);
    Subscribes(OAuth2);
    BackAccepted();
    AddsEdit(SECOND(OAuth2), Subscriber(OAuth2), 0, BACK.draft);
    assert Run(CONFIG, EMPTY, three).db == switched;
    OtherAccepted(switched, KeyAuth);
    AddsProduct(three, switched, OTHER(KeyAuth).draft);
  }

  lemma BackAccepted()
    ensures Accepted(CONFIG, Subscriber(OAuth2), BACK)
  {
    Paths();
  }

  lemma OtherAccepted(db: Db, auth: Auth)
    requires db.products.Keys == {0} && db.products[0].slug == "orders" && db.products[0].contextPath == "/v1"
    ensures Accepted(CONFIG, db, OTHER(auth))
  {
    Paths();
    LikeIsPrefix("/v1", "/v2");
    LikeIsPrefix("/v2", "/v1");
    assert !SqlOverlap("/v1", "/v2");
  }

  // ---- sandbox

  const ENTERED := SECOND(KeyAuth) + [OpenSandbox(0, "s")] + [OTHER(OAuth2)]

  /** The subscriber of a key-auth product opens its sandbox and is then approved for an
      oauth2 product that has one, too: the sandbox does not list it there. */
  lemma ApprovalLeavesSandboxBehind()
    ensures var end := Run(CONFIG, EMPTY, ENTERED + [Request(0, 1, 0, "k")] + [Grant(1, "k")]);
            && Fresh(EMPTY) && Calm(EMPTY) && 1 in end.db.products
            && Short(Sandboxed, end.db, end.sandbox.live.routes, 1)
            && !Reconciled(Sandboxed, end.db, end.sandbox.live.routes, 1)
  {
    hide Run;
    hide Short;
    hide Reconciled;
    hide LateApproval;
    RunReady([]);
    Asks();
    OAuthApprovalIsLate(CONFIG, EMPTY, ENTERED + [Request(0, 1, 0, "k")], Grant(1, "k"), 1);
  }

  lemma Asks()
    ensures LateApproval(Run(CONFIG, EMPTY, ENTERED + [Request(0, 1, 0, "k")]).db, Grant(1, "k"), 1)
  {
    hide Run;
    Enters();
    AddsRequest(ENTERED, Run(CONFIG, EMPTY, ENTERED).db, 0, 1, "k");
  }

  lemma Enters()
    ensures Run(CONFIG, EMPTY, ENTERED).db
            == Subscriber(KeyAuth).(creds := map[0 := Credential("k", "s")], nextProduct := 2,
                                    products := Begun(KeyAuth).products[1 := OTHER(OAuth2).draft.Row()])
  {
    hide Run;
    var three := SECOND(KeyAuth) + [OpenSandbox(0, "s")];
    var open := Subscriber(KeyAuth).(creds := map[0 := Credential("k", "s")]);
    Subscribes(KeyAuth);
    SandboxAccepted();
    AddsSandbox(SECOND(KeyAuth), Subscriber(KeyAuth), 0, "s");
    assert Run(CONFIG, EMPTY, three).db == open;
    OtherAccepted(open, OAuth2);
    AddsProduct(three, open, OTHER(OAuth2).draft);
  }

  lemma SandboxAccepted()
    ensures Accepted(CONFIG, Subscriber(KeyAuth), OpenSandbox(0, "s"))
  {
    assert Subscriber(KeyAuth).Active(0, 0);
  }
}
