/** Short runs from an empty portal that end where a guarantee stops: each shows that the
    exception the guarantee names does occur. */
module Witnesses {
  import opened Common
  import opened Naming
  import opened ContextPaths
  import opened AllowLists
  import opened Tables
  import opened Protocol
  import opened Runs
  import Gateways

  const CFG := Config("https://issuer", "client_id", false)
  const PLAN := Plan("free", 10, 60, 0, "EUR")

  const NO_ROUTES := Gateways.Live(map[], map[])

  function Listing(path: string, auth: Auth): Draft {
    Draft("orders", path, "http://backend", "", true, Some(auth), None, "")
  }

  /** The first n store calls succeed. */
  function Clear(n: nat, rest: seq<StoreFault>): seq<StoreFault> {
    if n == 0 then rest else [StoreFault(false, false)] + Clear(n - 1, rest)
  }

  function Portal(faults: seq<StoreFault>, gw: seq<bool>): World {
    World(EMPTY_DB, faults, Gateways.State(NO_ROUTES, gw), Gateways.State(NO_ROUTES, []))
  }

  lemma Cleared(w: World, n: nat, rest: seq<StoreFault>)
    requires n > 0 && w.faults == Clear(n, rest)
    ensures Tick(w).faults == Clear(n - 1, rest) && w.faults != [] && w.faults[0] == StoreFault(false, false)
  {
  }

  /** One application, one plan, one product. */
  function Stocked(auth: Auth): Db {
    EMPTY_DB.(apps := map[0 := App(0, "")], plans := map[0 := PLAN], products := map[0 := Listing("/v1", auth).Row()],
              nextApp := 1, nextPlan := 1, nextProduct := 1)
  }

  const STOCKING := (auth: Auth) => [NewApplication(0), NewPlan(PLAN), NewProduct(Listing("/v1", auth))]

  lemma Paths()
    ensures ValidContextPath("/v1") && ValidContextPath("/v2")
  {
  }

  lemma StockedPortal(auth: Auth, rest: seq<StoreFault>, gw: seq<bool>)
    ensures Run(CFG, Portal(Clear(4, rest), gw), STOCKING(auth)) == Portal(rest, gw).(db := Stocked(auth))
  {
    hide Run;
    hide Do;
    hide Clear;
    var w0 := Portal(Clear(4, rest), gw);
    var op1, op2, op3 := NewApplication(0), NewPlan(PLAN), NewProduct(Listing("/v1", auth));
    ApplicationStep(w0, rest);
    PlanStep(Do(CFG, w0, op1).w, rest);
    ProductStep(Do(CFG, Do(CFG, w0, op1).w, op2).w, auth, rest);
    RunThree(CFG, w0, op1, op2, op3);
  }

  lemma ApplicationStep(w: World, rest: seq<StoreFault>)
    requires w.db == EMPTY_DB && w.faults == Clear(4, rest)
    ensures Do(CFG, w, NewApplication(0)).w
            == w.(db := EMPTY_DB.(apps := map[0 := App(0, "")], nextApp := 1), faults := Clear(3, rest))
  {
    hide Quieter;
    Cleared(w, 4, rest);
  }

  lemma PlanStep(w: World, rest: seq<StoreFault>)
    requires w.db == EMPTY_DB.(apps := map[0 := App(0, "")], nextApp := 1) && w.faults == Clear(3, rest)
    ensures Do(CFG, w, NewPlan(PLAN)).w == w.(db := w.db.(plans := map[0 := PLAN], nextPlan := 1),
                                              faults := Clear(2, rest))
  {
    hide Quieter;
    Cleared(w, 3, rest);
    assert w.db.CreatePlan(PLAN) == Ok(w.db.(plans := map[0 := PLAN], nextPlan := 1));
  }

  lemma ProductStep(w: World, auth: Auth, rest: seq<StoreFault>)
    requires w.db == EMPTY_DB.(apps := map[0 := App(0, "")], nextApp := 1, plans := map[0 := PLAN], nextPlan := 1)
    requires w.faults == Clear(2, rest)
    ensures Do(CFG, w, NewProduct(Listing("/v1", auth))).w == w.(db := Stocked(auth), faults := rest)
  {
    hide Quieter;
    Paths();
    Cleared(w, 2, rest);
    Cleared(Tick(w), 1, rest);
    assert !w.db.ContextPathOverlaps("/v1", None);
    assert w.db.CreateProduct(Listing("/v1", auth).Row()) == Ok(Stocked(auth));
  }

  lemma RunThree(cfg: Config, w: World, op1: Op, op2: Op, op3: Op)
    ensures Run(cfg, w, [op1, op2, op3]) == Do(cfg, Do(cfg, Do(cfg, w, op1).w, op2).w, op3).w
  {
    hide Do;
    var one, two := [op1], [op1, op2];
    assert one[..0] == [] && two[..1] == one && [op1, op2, op3][..2] == two;
    assert Run(cfg, w, one) == Do(cfg, w, op1).w;
    assert Run(cfg, w, two) == Do(cfg, Run(cfg, w, one), op2).w;
  }

  lemma RunMore(cfg: Config, w: World, ops: seq<Op>, op: Op)
    ensures Run(cfg, w, ops + [op]) == Do(cfg, Run(cfg, w, ops), op).w
  {
    assert (ops + [op])[..|ops|] == ops;
  }

  // ---- a key-auth product with one subscriber

  const KEY := SubKey(0, 0)

  function Requested(): Db {
    Stocked(KeyAuth).(creds := map[0 := Credential("k", "")], subs := map[KEY := Sub(0, 0, Pending)],
                      subIds := map[0 := KEY], nextSub := 1)
  }

  function Approved(): Db {
    Requested().(subs := map[KEY := Sub(0, 0, Active)])
  }

  function Serving(): Gateways.Live {
    Gateways.Live(map[ConsumerName(0) := Gateways.Consumer("k", Gateways.RateLimit(10, 60))],
                  map[RouteID(0) := Gateways.Route("/v1", "http://backend", [ConsumerName(0)], false)])
  }

  function SERVING(): seq<Op> {
    STOCKING(KeyAuth) + [Request(0, 0, 0, "k")] + [Grant(0, "k")]
  }

  lemma RequestedPortal(rest: seq<StoreFault>, gw: seq<bool>)
    ensures Run(CFG, Portal(Clear(9, rest), gw), STOCKING(KeyAuth) + [Request(0, 0, 0, "k")])
            == Portal(rest, gw).(db := Requested())
  {
    hide Do;
    hide Run;
    hide Clear;
    var five := Clear(5, rest);
    ClearSum(4, 5, rest);
    StockedPortal(KeyAuth, five, gw);
    var w := Portal(five, gw).(db := Stocked(KeyAuth));
    RunMore(CFG, Portal(Clear(9, rest), gw), STOCKING(KeyAuth), Request(0, 0, 0, "k"));
    RequestStep(w, rest);
  }

  lemma {:induction false} ClearSum(m: nat, n: nat, rest: seq<StoreFault>)
    ensures Clear(m, Clear(n, rest)) == Clear(m + n, rest)
  {
    if m > 0 { ClearSum(m - 1, n, rest); }
  }

  lemma RequestStep(w: World, rest: seq<StoreFault>)
    requires w.db == Stocked(KeyAuth) && w.faults == Clear(5, rest)
    ensures Do(CFG, w, Request(0, 0, 0, "k")).w == w.(db := Requested(), faults := rest)
  {
    hide Quieter;
    Cleared(w, 5, rest);
    var w1 := Tick(w);
    Cleared(w1, 4, rest);
    var w2 := Tick(w1);
    Cleared(w2, 3, rest);
    var w3 := Tick(w2);
    Cleared(w3, 2, rest);
    var s4 := Write(w3, w3.db.GetOrCreateCredential(0, "k"));
    assert s4.w == Tick(w3).(db := Stocked(KeyAuth).(creds := map[0 := Credential("k", "")]));
    Cleared(s4.w, 1, rest);
    var s5 := Write(s4.w, s4.w.db.SaveSubscription(0, 0, 0));
    assert s5.w == Tick(s4.w).(db := Requested());
  }

  lemma ApprovedPortal(rest: seq<StoreFault>, gw: seq<bool>)
    ensures Run(CFG, Portal(Clear(17, rest), [false, false] + gw), SERVING())
            == World(Approved(), rest, Gateways.State(Serving(), gw), Gateways.State(NO_ROUTES, []))
  {
    hide Do;
    hide Run;
    hide Clear;
    var eight := Clear(8, rest);
    ClearSum(9, 8, rest);
    RequestedPortal(eight, [false, false] + gw);
    RunMore(CFG, Portal(Clear(17, rest), [false, false] + gw), STOCKING(KeyAuth) + [Request(0, 0, 0, "k")],
            Grant(0, "k"));
    GrantStep(Portal(eight, [false, false] + gw).(db := Requested()), rest, gw);
  }

  lemma NoneYet()
    ensures Requested().ConsumersForProduct(0) == []
  {
    assert Collect(0, Requested().ConsumerRow(0)) == [];
  }

  lemma GrantStep(w: World, rest: seq<StoreFault>, gw: seq<bool>)
    requires w == Portal(Clear(8, rest), [false, false] + gw).(db := Requested())
    ensures Do(CFG, w, Grant(0, "k")).w == World(Approved(), rest, Gateways.State(Serving(), gw),
                                                 Gateways.State(NO_ROUTES, []))
  {
    hide Quieter;
    hide ActivateKeyAuth;
    hide ActivateOAuth;
    hide SubscriptionActivated;
    Cleared(w, 8, rest);
    Cleared(Tick(w), 7, rest);
    var w2 := Tick(Tick(w));
    var rec := SubRecord(0, 0, 0, Pending);
    var s3 := ActivateKeyAuth(CFG, w2, 0, rec, "k");
    ActivateStep(w2, rest, gw);
    BillStep(s3.w, rest);
  }

  lemma BillStep(w: World, rest: seq<StoreFault>)
    requires w.db == Approved() && w.faults == Clear(1, rest)
    ensures SubscriptionActivated(w, 0, 0, 0).w == w.(faults := rest)
  {
    Cleared(w, 1, rest);
  }

  lemma ReadOk<T>(w: World, answer: Result<T>)
    ensures w.faults == [] || !w.faults[0].read ==> Read(w, answer) == Step(Tick(w), answer)
  {
  }

  lemma WriteOk(w: World, next: Db)
    ensures w.faults == [] || !w.faults[0].write ==> Write(w, Ok(next)) == Return(Tick(w).(db := next), ())
  {
  }

  lemma RequestedRows()
    ensures var db := Requested();
            && db.GetPlan(0) == Ok(PLAN) && db.GetOrCreateCredential(0, "k") == Ok(db)
            && 0 in db.creds && db.creds[0] == Credential("k", "")
            && db.SetSubscriptionStatus(0, Active) == Ok(Approved())
  {
    assert Requested().subs[KEY := Sub(0, 0, Active)] == map[KEY := Sub(0, 0, Active)];
  }

  lemma ActivateStep(w: World, rest: seq<StoreFault>, gw: seq<bool>)
    requires w == Portal(Clear(6, rest), [false, false] + gw).(db := Requested())
    ensures ActivateKeyAuth(CFG, w, 0, SubRecord(0, 0, 0, Pending), "k")
            == Return(World(Approved(), Clear(1, rest), Gateways.State(Serving(), gw),
                            Gateways.State(NO_ROUTES, [])), ())
  {
    hide Quieter;
    hide Read;
    hide Write;
    hide Clear;
    hide Requested;
    hide Approved;
    hide ListAndActivate;
    RequestedRows();
    Cleared(w, 6, rest);
    Cleared(Tick(w), 5, rest);
    ReadOk(w, w.db.GetPlan(0));
    WriteOk(Tick(w), Requested());
    var w2 := Tick(Tick(w));
    var consumer := Gateways.Consumer("k", Gateways.RateLimit(10, 60));
    var s3 := OnGateway(w2, Gateways.EnsureConsumer(ConsumerName(0), consumer));
    assert s3.w == w2.(gw := Gateways.State(Gateways.Live(map[ConsumerName(0) := consumer], map[]), [false] + gw));
    ListStep(s3.w, rest, gw);
  }

  lemma ListStep(w: World, rest: seq<StoreFault>, gw: seq<bool>)
    requires w.db == Requested() && w.faults == Clear(4, rest)
    requires w.gw == Gateways.State(Gateways.Live(Serving().consumers, map[]), [false] + gw)
    ensures ListAndActivate(CFG, w, 0, SubRecord(0, 0, 0, Pending))
            == Return(w.(db := Approved(), faults := Clear(1, rest), gw := Gateways.State(Serving(), gw)), ())
  {
    hide Quieter;
    hide Write;
    hide Requested;
    hide Approved;
    hide Serving;
    hide ReprovisionRoute;
    RequestedRows();
    RouteStep(w, rest, gw);
    var s4 := ReprovisionRoute(CFG, w, 0, [ConsumerName(0)]);
    Cleared(s4.w, 2, rest);
    WriteOk(s4.w, Approved());
  }

  lemma RouteStep(w: World, rest: seq<StoreFault>, gw: seq<bool>)
    requires w.db == Requested() && w.faults == Clear(4, rest)
    requires w.gw == Gateways.State(Gateways.Live(Serving().consumers, map[]), [false] + gw)
    ensures ReprovisionRoute(CFG, w, 0, [ConsumerName(0)])
            == Return(w.(faults := Clear(2, rest), gw := Gateways.State(Serving(), gw)), ())
  {
    hide Quieter;
    Cleared(w, 4, rest);
    Cleared(Tick(w), 3, rest);
    NoneYet();
    assert WithExtras([ConsumerName(0)], []) == [ConsumerName(0)];
    assert [ConsumerName(0)][1..] == [];
    assert WithExtras([], [ConsumerName(0)]) == [ConsumerName(0)];
    assert ([false] + gw)[1..] == gw;
  }

  /** The cancellation is interrupted after its row is gone, and the deletion of the product
      is answered Ok although its teardown fails: the product is gone, and its route still
      lists a consumer that exists. */
  lemma DeletedProductStillServed()
    ensures var w := Portal(Clear(18, [StoreFault(true, true)]), [false, false, true]);
            var before := Run(CFG, w, SERVING());
            var cancelled := Do(CFG, before, Cancel(0, 0));
            var removed := Do(CFG, cancelled.w, RemoveProduct(0));
            var end := Run(CFG, w, SERVING() + [Cancel(0, 0)] + [RemoveProduct(0)]);
            && Fresh(w) && cancelled.r == Err(StoreFailed) && removed.r == Ok(()) && end == removed.w
            && 0 !in end.db.products && KEY !in end.db.subs
            && Lists(end.gw.live, 0, ConsumerName(0)) && ConsumerName(0) in end.gw.live.consumers
  {
    hide Run;
    hide Do;
    hide Clear;
    var failing := [StoreFault(true, true)];
    var rest := Clear(1, failing);
    var w := Portal(Clear(18, failing), [false, false, true]);
    ClearSum(17, 1, failing);
    assert [false, false, true] == [false, false] + [true];
    ApprovedPortal(rest, [true]);
    RunMore(CFG, w, SERVING(), Cancel(0, 0));
    RunMore(CFG, w, SERVING() + [Cancel(0, 0)], RemoveProduct(0));
    InterruptedSteps(Run(CFG, w, SERVING()));
  }

  /** The row goes, and the rebuild does not begin. */
  lemma InterruptedCancel(w: World)
    requires w.faults == Clear(1, [StoreFault(true, true)])
    ensures Do(CFG, w, Cancel(0, 0)) == Fail(w.(db := w.db.DeleteSubscription(0, 0), faults := []), StoreFailed)
  {
    hide Quieter;
    hide Db.DeleteSubscription;
    Cleared(w, 1, [StoreFault(true, true)]);
    WriteOk(w, w.db.DeleteSubscription(0, 0));
  }

  lemma InterruptedSteps(w: World)
    requires w == World(Approved(), Clear(1, [StoreFault(true, true)]), Gateways.State(Serving(), [true]),
                        Gateways.State(NO_ROUTES, []))
    ensures var cancelled := Do(CFG, w, Cancel(0, 0));
            var removed := Do(CFG, cancelled.w, RemoveProduct(0));
            && cancelled.r == Err(StoreFailed) && removed.r == Ok(())
            && removed.w.gw.live == Serving() && Lists(removed.w.gw.live, 0, ConsumerName(0))
            && 0 !in removed.w.db.products && KEY !in removed.w.db.subs
  {
    hide Quieter;
    hide Unsubscribe;
    InterruptedCancel(w);
    var db := w.db.DeleteSubscription(0, 0);
    assert db.subs == map[];
    assert Collect(0, db.ActiveRow(0)) == [];
    assert db.CountActiveSubscriptions(0) == 0;
  }

  /** A rotation whose last write fails: the gateway has the new key, the database the old. */
  lemma KeyIsLost()
    ensures var w := Portal(Clear(19, [StoreFault(true, true)]), [false, false]);
            var before := Run(CFG, w, SERVING());
            var s := Do(CFG, before, Rotate(0, "n"));
            && Fresh(w) && s.r == Err(StoreFailed)
            && ConsumerName(0) in s.w.gw.live.consumers && s.w.gw.live.consumers[ConsumerName(0)].key == "n"
            && 0 in s.w.db.creds && s.w.db.creds[0].key == "k"
  {
    hide Run;
    hide Clear;
    var failing := [StoreFault(true, true)];
    var rest := Clear(2, failing);
    var w := Portal(Clear(19, failing), [false, false]);
    ClearSum(17, 2, failing);
    assert [false, false] == [false, false] + [];
    ApprovedPortal(rest, []);
    RotateStep(Run(CFG, w, SERVING()));
  }

  lemma RotateStep(w: World)
    requires w == World(Approved(), Clear(2, [StoreFault(true, true)]), Gateways.State(Serving(), []),
                        Gateways.State(NO_ROUTES, []))
    ensures var s := Do(CFG, w, Rotate(0, "n"));
            && s.r == Err(StoreFailed) && s.w.db == w.db
            && ConsumerName(0) in s.w.gw.live.consumers && s.w.gw.live.consumers[ConsumerName(0)].key == "n"
  {
    hide Quieter;
    var failing := [StoreFault(true, true)];
    Cleared(w, 2, failing);
    Cleared(Tick(w), 1, failing);
    assert Approved().NewestActive(0, 0) == None;
    assert Approved().NewestActive(0, 1) == Some(Sub(0, 0, Active));
    assert Approved().ActivePlanForApp(0) == Ok(PLAN);
  }

  // ---- an oauth2 product with one subscriber

  function Signed(clientId: string): Db {
    Stocked(OAuth2).(apps := map[0 := App(0, clientId)])
  }

  function Asked(clientId: string): Db {
    Signed(clientId).(subs := map[KEY := Sub(0, 0, Pending)], subIds := map[0 := KEY], nextSub := 1)
  }

  function Granted(clientId: string): Db {
    Asked(clientId).(subs := map[KEY := Sub(0, 0, Active)])
  }

  lemma AskStep(w: World, clientId: string, rest: seq<StoreFault>)
    requires w.db == Signed(clientId) && w.faults == Clear(4, rest)
    ensures Do(CFG, w, Request(0, 0, 0, "k")).w == w.(db := Asked(clientId), faults := rest)
  {
    hide Quieter;
    Cleared(w, 4, rest);
    Cleared(Tick(w), 3, rest);
    Cleared(Tick(Tick(w)), 2, rest);
    var w3 := Tick(Tick(Tick(w)));
    Cleared(w3, 1, rest);
    var s4 := Write(w3, w3.db.SaveSubscription(0, 0, 0));
    assert s4.w == Tick(w3).(db := Asked(clientId));
  }

  /** An approval for an application without a client id, or one whose client id cannot be
      read just now, is answered Ok and writes no route. */
  lemma GrantUnlisted(w: World, clientId: string)
    requires w == Portal(w.faults, []).(db := Asked(clientId))
    requires (clientId == "" && w.faults == []) || w.faults == Clear(2, [StoreFault(true, true)])
    ensures var s := Do(CFG, w, Grant(0, "k")); s == Return(Portal([], []).(db := Granted(clientId)), ())
  {
    hide Quieter;
    hide ActivateKeyAuth;
    hide ActivateOAuth;
    hide SubscriptionActivated;
    if w.faults != [] {
      Cleared(w, 2, [StoreFault(true, true)]);
      Cleared(Tick(w), 1, [StoreFault(true, true)]);
    }
    var w2 := Tick(Tick(w));
    UnlistedStep(w2, clientId);
    FreeStep(ActivateOAuth(CFG, w2, 0, SubRecord(0, 0, 0, Pending)).w);
  }

  lemma FreeStep(w: World)
    requires w.faults == [] && 0 in w.db.plans && w.db.plans[0] == PLAN
    ensures SubscriptionActivated(w, 0, 0, 0) == Return(w, ())
  {
  }

  lemma UnlistedStep(w: World, clientId: string)
    requires w == Portal(w.faults, []).(db := Asked(clientId))
    requires (clientId == "" && w.faults == []) || w.faults == [StoreFault(true, true)]
    ensures ActivateOAuth(CFG, w, 0, SubRecord(0, 0, 0, Pending))
            == Return(Portal([], []).(db := Granted(clientId)), ())
  {
    hide Quieter;
    hide ReprovisionRoute;
    var cid := Read(w, w.db.GetClientID(0));
    var s1 := ReprovisionRoute(CFG, cid.w, 0, [""]);
    NobodyListed(cid.w, clientId);
    var s2 := Write(s1.w, s1.w.db.SetSubscriptionStatus(0, Active));
    assert s2.w.db == Granted(clientId);
  }

  lemma NobodyListed(w: World, clientId: string)
    requires w == Portal([], []).(db := Asked(clientId))
    ensures ReprovisionRoute(CFG, w, 0, [""]) == Return(w, ())
  {
    hide Quieter;
    assert Collect(0, w.db.OAuthRow(0)) == [];
    assert w.db.OAuthClientsForProduct(0) == [];
    assert [""][1..] == [];
    assert NonEmpty([""]) == [];
    assert map[] - {RouteID(0)} == NO_ROUTES.routes;
  }

  /** The portal switches the product back to key-auth without a fault: the subscriber is
      still active, has no credential, and there is no route. */
  lemma SwitchStrandsSubscriber()
    ensures var w := Portal(Clear(4, []), []);
            var ops := STOCKING(OAuth2) + [Request(0, 0, 0, "k")] + [Grant(0, "k")];
            var s := Do(CFG, Run(CFG, w, ops), EditProduct(0, Listing("/v1", KeyAuth)));
            && Fresh(w) && s.r == Ok(()) && 0 in s.w.db.products && s.w.db.products[0].auth.KeyAuth?
            && ActiveIn(s.w.db.subs, 0, 0) && 0 !in s.w.db.creds && RouteID(0) !in s.w.gw.live.routes
  {
    hide Run;
    var w := Portal(Clear(4, []), []);
    var ops := STOCKING(OAuth2);
    StockedPortal(OAuth2, [], []);
    assert Stocked(OAuth2) == Signed("");
    RunMore(CFG, w, ops, Request(0, 0, 0, "k"));
    AskCalm(Portal([], []).(db := Signed("")), "");
    RunMore(CFG, w, ops + [Request(0, 0, 0, "k")], Grant(0, "k"));
    GrantUnlisted(Portal([], []).(db := Asked("")), "");
    SwitchStep(Portal([], []).(db := Granted("")));
  }

  lemma AskCalm(w: World, clientId: string)
    requires w.db == Signed(clientId) && w.faults == []
    ensures Do(CFG, w, Request(0, 0, 0, "k")).w == w.(db := Asked(clientId))
  {
    hide Quieter;
    var s4 := Write(w, w.db.SaveSubscription(0, 0, 0));
    assert s4.w == w.(db := Asked(clientId));
  }

  lemma SwitchStep(w: World)
    requires w == Portal([], []).(db := Granted(""))
    ensures var s := Do(CFG, w, EditProduct(0, Listing("/v1", KeyAuth)));
            && s.r == Ok(()) && s.w.gw == w.gw && s.w.db.creds == map[] && s.w.db.subs == w.db.subs
            && s.w.db.products == map[0 := Listing("/v1", KeyAuth).Row()]
  {
    hide Quieter;
    hide ReprovisionIfChanged;
    Paths();
    var row := Listing("/v1", KeyAuth).Row();
    var next := w.db.(products := map[0 := row]);
    assert w.db.products[0 := row] == map[0 := row];
    assert w.db.UniqueError(row, Some(0)) == None;
    assert w.db.UpdateProduct(0, row) == Ok(next);
    assert EditRow(w, 0, Listing("/v1", KeyAuth)) == Return(w.(db := next), Edit(w.db.products[0], row, None));
    KeylessRebuild(w.(db := next), w.db.products[0], row);
  }

  lemma KeylessRebuild(w: World, prior: Product, row: Product)
    requires w.faults == [] && w.gw.faults == [] && w.gw.live == NO_ROUTES
    requires w.db == Granted("").(products := map[0 := row]) && row == Listing("/v1", KeyAuth).Row()
             && prior == Listing("/v1", OAuth2).Row()
    ensures ReprovisionIfChanged(CFG, w, 0, prior, row, None) == Return(w, ())
  {
    hide Quieter;
    assert Collect(0, w.db.ConsumerRow(0)) == [];
    assert w.db.ConsumersForProduct(0) == [];
    assert WithExtras([], []) == [];
    assert map[] - {RouteID(0)} == NO_ROUTES.routes;
  }

  /** A failed query of the client id is overlooked: the approval is answered Ok, the
      subscription is active, its application has a client id, and there is no route. */
  lemma ApprovalOverlooksClient()
    ensures var w := Portal(Clear(12, [StoreFault(true, true)]), []);
            var ops := STOCKING(OAuth2) + [RegisterClient(0, "c")] + [Request(0, 0, 0, "k")];
            var s := Do(CFG, Run(CFG, w, ops), Grant(0, "k"));
            && Fresh(w) && s.r == Ok(()) && ActiveIn(s.w.db.subs, 0, 0)
            && 0 in s.w.db.apps && s.w.db.apps[0].clientId == "c" && RouteID(0) !in s.w.gw.live.routes
  {
    hide Run;
    hide Clear;
    var failing := [StoreFault(true, true)];
    var w := Portal(Clear(12, failing), []);
    ClearSum(4, 8, failing);
    ClearSum(2, 6, failing);
    ClearSum(4, 2, failing);
    var ops := STOCKING(OAuth2);
    StockedPortal(OAuth2, Clear(8, failing), []);
    RunMore(CFG, w, ops, RegisterClient(0, "c"));
    RegisterStep(Portal(Clear(8, failing), []).(db := Stocked(OAuth2)), Clear(6, failing));
    RunMore(CFG, w, ops + [RegisterClient(0, "c")], Request(0, 0, 0, "k"));
    AskStep(Portal(Clear(6, failing), []).(db := Signed("c")), "c", Clear(2, failing));
    GrantUnlisted(Portal(Clear(2, failing), []).(db := Asked("c")), "c");
  }

  lemma RegisterStep(w: World, rest: seq<StoreFault>)
    requires w.db == Stocked(OAuth2) && w.faults == Clear(2, rest)
    ensures Do(CFG, w, RegisterClient(0, "c")).w == w.(db := Signed("c"), faults := rest)
  {
    hide Quieter;
    Cleared(w, 2, rest);
    var s1 := Write(w, w.db.SetClientID(0, "c"));
    assert s1.w == Tick(w).(db := Signed("c"));
    Cleared(s1.w, 1, rest);
    assert Collect(0, s1.w.db.OAuthProductRow(0)) == [];
    assert s1.w.db.OAuthProductsForApp(0) == [];
  }

  // ---- a client id that outlives its application

  function ClientRoute(): Gateways.Live {
    Gateways.Live(map[], map[RouteID(0) := Gateways.Route("/v1", "http://backend", ["c"], true)])
  }

  lemma GrantListed(w: World, rest: seq<StoreFault>)
    requires w == Portal(Clear(7, rest), []).(db := Asked("c"))
    ensures Do(CFG, w, Grant(0, "k")).w == Portal(rest, []).(db := Granted("c"),
                                                             gw := Gateways.State(ClientRoute(), []))
  {
    hide Quieter;
    hide Approve;
    hide ActivateOAuth;
    hide SubscriptionActivated;
    hide Asked;
    hide Granted;
    hide ClientRoute;
    Cleared(w, 7, rest);
    Cleared(Tick(w), 6, rest);
    var w2 := Tick(Tick(w));
    var rec := SubRecord(0, 0, 0, Pending);
    var s3 := ActivateOAuth(CFG, w2, 0, rec);
    ListedStep(w2, rest);
    Cleared(s3.w, 1, rest);
    PaidStep(s3.w);
    OAuthApproval(w, rec);
  }

  /** An approval on the oauth2 product whose first two queries succeed. */
  lemma OAuthApproval(w: World, rec: SubRecord)
    requires w.db == Asked("c") && rec == SubRecord(0, 0, 0, Pending)
    requires |w.faults| > 1 && !w.faults[0].read && !w.faults[1].read
    ensures var s := ActivateOAuth(CFG, Tick(Tick(w)), 0, rec);
            s.r.Ok? ==> Approve(CFG, w, 0, "k") == SubscriptionActivated(s.w, 0, 0, 0)
  {
    hide Quieter;
    hide ActivateKeyAuth;
    hide ActivateOAuth;
    hide SubscriptionActivated;
  }

  lemma PaidStep(w: World)
    requires w.faults != [] && !w.faults[0].read && w.db == Granted("c")
    ensures SubscriptionActivated(w, 0, 0, 0) == Return(Tick(w), ())
  {
  }

  lemma ListedStep(w: World, rest: seq<StoreFault>)
    requires w == Portal(Clear(5, rest), []).(db := Asked("c"))
    ensures ActivateOAuth(CFG, w, 0, SubRecord(0, 0, 0, Pending))
            == Return(Portal(Clear(1, rest), []).(db := Granted("c"), gw := Gateways.State(ClientRoute(), [])), ())
  {
    hide Quieter;
    hide ReprovisionRoute;
    Cleared(w, 5, rest);
    ClientStep(Tick(w), rest);
    var s1 := ReprovisionRoute(CFG, Tick(w), 0, ["c"]);
    Cleared(s1.w, 2, rest);
    var s2 := Write(s1.w, s1.w.db.SetSubscriptionStatus(0, Active));
    assert s2.w.db == Granted("c");
  }

  lemma ClientStep(w: World, rest: seq<StoreFault>)
    requires w == Portal(Clear(4, rest), []).(db := Asked("c"))
    ensures ReprovisionRoute(CFG, w, 0, ["c"])
            == Return(w.(faults := Clear(2, rest), gw := Gateways.State(ClientRoute(), [])), ())
  {
    hide Quieter;
    hide Clear;
    hide Dedup;
    hide NonEmpty;
    hide Db.OAuthClientsForProduct;
    Cleared(w, 4, rest);
    Cleared(Tick(w), 3, rest);
    NobodyYet(w.db);
    OneClient();
  }

  lemma NobodyYet(db: Db)
    requires db == Asked("c")
    ensures db.OAuthClientsForProduct(0) == []
  {
    assert Collect(0, db.OAuthRow(0)) == [];
  }

  lemma OneClient()
    ensures [] + NonEmpty(["c"]) == ["c"] && Dedup(["c"]) == ["c"]
  {
    assert ["c"][1..] == [] && NonEmpty([]) == [];
    assert NonEmpty(["c"]) == ["c"];
    assert ["c"][..0] == [] && Dedup([]) == [];
  }

  /** A cancellation is interrupted after its row is gone, and then the application is
      deleted without a fault: the route still lists its client id. */
  lemma DeletedClientStillListed()
    ensures var w := Portal(Clear(18, [StoreFault(true, true)]), []);
            var ops := STOCKING(OAuth2) + [RegisterClient(0, "c")] + [Request(0, 0, 0, "k")] + [Grant(0, "k")];
            var cancelled := Do(CFG, Run(CFG, w, ops), Cancel(0, 0));
            var removed := Do(CFG, cancelled.w, RemoveApplication(0));
            && Fresh(w) && cancelled.r == Err(StoreFailed) && removed.r == Ok(())
            && 0 !in removed.w.db.apps && 0 in removed.w.db.products && Lists(removed.w.gw.live, 0, "c")
  {
    hide Run;
    hide Do;
    hide Clear;
    var failing := [StoreFault(true, true)];
    var w := Portal(Clear(18, failing), []);
    ClearSum(4, 14, failing);
    ClearSum(2, 12, failing);
    ClearSum(4, 8, failing);
    ClearSum(7, 1, failing);
    var ops := STOCKING(OAuth2);
    StockedPortal(OAuth2, Clear(14, failing), []);
    RunMore(CFG, w, ops, RegisterClient(0, "c"));
    RegisterStep(Portal(Clear(14, failing), []).(db := Stocked(OAuth2)), Clear(12, failing));
    RunMore(CFG, w, ops + [RegisterClient(0, "c")], Request(0, 0, 0, "k"));
    AskStep(Portal(Clear(12, failing), []).(db := Signed("c")), "c", Clear(8, failing));
    RunMore(CFG, w, ops + [RegisterClient(0, "c")] + [Request(0, 0, 0, "k")], Grant(0, "k"));
    GrantListed(Portal(Clear(8, failing), []).(db := Asked("c")), Clear(1, failing));
    ForgottenClient(Portal(Clear(1, failing), []).(db := Granted("c"), gw := Gateways.State(ClientRoute(), [])));
  }

  lemma ForgottenClient(w: World)
    requires w == Portal(Clear(1, [StoreFault(true, true)]), []).(db := Granted("c"),
                                                                  gw := Gateways.State(ClientRoute(), []))
    ensures var cancelled := Do(CFG, w, Cancel(0, 0));
            var removed := Do(CFG, cancelled.w, RemoveApplication(0));
            && cancelled.r == Err(StoreFailed) && removed.r == Ok(())
            && 0 !in removed.w.db.apps && 0 in removed.w.db.products && Lists(removed.w.gw.live, 0, "c")
  {
    hide Quieter;
    hide Unsubscribe;
    InterruptedCancel(w);
    var next := w.(db := w.db.DeleteSubscription(0, 0), faults := []);
    assert next.db.subs == map[];
    assert Collect(0, next.db.SubscribedRow(0)) == [];
    assert next.db.SubscriptionsForApp(0) == [];
    assert RemoveConsumers(CFG, next, 0) == Return(next, ());
    assert "c" in ClientRoute().routes[RouteID(0)].allowed;
  }

  // ---- a moved path

  /** The path of a served product is moved without a fault, and alone: the database has the
      new path, the gateway serves the old one. */
  lemma MovedPathIsNotServed()
    ensures var w := Portal(Clear(17, []), [false, false]);
            var s := Do(CFG, Run(CFG, w, SERVING()), EditProduct(0, Listing("/v2", KeyAuth)));
            && Fresh(w) && s.r == Ok(()) && 0 in s.w.db.products && s.w.db.products[0].contextPath == "/v2"
            && RouteID(0) in s.w.gw.live.routes && s.w.gw.live.routes[RouteID(0)].uri == "/v1"
  {
    hide Run;
    assert [false, false] == [false, false] + [];
    ApprovedPortal([], []);
    var w := World(Approved(), [], Gateways.State(Serving(), []), Gateways.State(NO_ROUTES, []));
    MoveStep(w);
  }

  lemma MoveStep(w: World)
    requires w == World(Approved(), [], Gateways.State(Serving(), []), Gateways.State(NO_ROUTES, []))
    ensures var s := Do(CFG, w, EditProduct(0, Listing("/v2", KeyAuth)));
            s.r == Ok(()) && s.w.gw == w.gw && s.w.db.products == map[0 := Listing("/v2", KeyAuth).Row()]
  {
    hide Quieter;
    Paths();
    var row := Listing("/v2", KeyAuth).Row();
    var next := w.db.(products := map[0 := row]);
    assert !w.db.ContextPathOverlaps("/v2", Some(0));
    assert w.db.products[0 := row] == map[0 := row];
    assert w.db.UniqueError(row, Some(0)) == None;
    assert w.db.UpdateProduct(0, row) == Ok(next);
    assert EditRow(w, 0, Listing("/v2", KeyAuth)) == Return(w.(db := next), Edit(w.db.products[0], row, None));
  }
}
