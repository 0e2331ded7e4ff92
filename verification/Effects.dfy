/** What each operation does to the two projections, whichever calls fail: the products
    it does not touch keep route and view, or gain a caller the route does not know of
    yet; the ones it touches are reconciled when it reports success. */
module Effects {
  import opened Common
  import opened Naming
  import opened Tables
  import opened Protocol
  import opened Runs
  import opened Queries
  import opened Integrity
  import opened Safety
  import opened Gateways
  import opened Reconciliation

  function RoutesOf(side: Side, w: World): map<string, Route> {
    if side.Production? then w.gw.live.routes else w.sandbox.live.routes
  }

  /** The sandbox gateway only counts while it is on. */
  predicate On(cfg: Config, side: Side) {
    side.Sandboxed? ==> cfg.sandboxOn
  }

  /** The product's route is the projection of the database, and serves its path. */
  ghost predicate Settled(side: Side, w: World, product: nat) {
    && product in w.db.products && Reconciled(side, w.db, RoutesOf(side, w), product)
    && OnPath(RoutesOf(side, w), product, w.db.products[product].contextPath)
  }

  /** Every product but the touched ones keeps its route and its view. */
  ghost predicate Framed(side: Side, w: World, next: World, touched: set<nat>) {
    forall p: nat :: p !in touched ==>
      && SameRoute(RoutesOf(side, w), RoutesOf(side, next), p)
      && (p in w.db.products || p in next.db.products ==> SameView(side, w.db, next.db, p))
  }

  /** A product that was not there before, and that nobody may call yet. */
  ghost predicate New(side: Side, db: Db, next: Db, product: nat) {
    product !in db.products && product in next.products && Audience(side, next, product) == {}
  }

  /** Likewise, but products may appear, and the late ones gain a caller. */
  ghost predicate Covered(side: Side, w: World, next: World, touched: set<nat>, late: set<nat>) {
    forall p: nat :: p !in touched ==>
      && SameRoute(RoutesOf(side, w), RoutesOf(side, next), p)
      && (p in w.db.products || p in next.db.products ==>
            if p in late then Joined(side, w.db, next.db, p)
            else SameView(side, w.db, next.db, p) || New(side, w.db, next.db, p))
  }

  // ---- composing

  ghost predicate Others(side: Side, db: Db, next: Db, product: nat) {
    forall q: nat :: q != product && (q in db.products || q in next.products) ==> SameView(side, db, next, q)
  }

  ghost predicate Everyone(side: Side, db: Db, next: Db) {
    forall q: nat :: q in db.products || q in next.products ==> SameView(side, db, next, q)
  }

  lemma Itself(side: Side, db: Db)
    ensures Everyone(side, db, db)
  {
  }

  lemma FramedByOne(side: Side, w: World, next: World, product: nat)
    requires next.db == w.db || Others(side, w.db, next.db, product)
    requires RoutesOf(side, next) == RoutesOf(side, w) || OnlyRoute(RoutesOf(side, w), RoutesOf(side, next), product)
    ensures Framed(side, w, next, {product})
  {
    hide SameView;
    Itself(side, w.db);
  }

  lemma FramedByNone(side: Side, w: World, next: World)
    requires Everyone(side, w.db, next.db) && RoutesOf(side, next) == RoutesOf(side, w)
    ensures Framed(side, w, next, {})
  {
    hide SameView;
  }

  lemma FramedWider(side: Side, w: World, next: World, touched: set<nat>, wider: set<nat>)
    requires Framed(side, w, next, touched) && touched <= wider
    ensures Framed(side, w, next, wider)
  {
    hide SameView;
    hide SameRoute;
  }

  lemma SameViewTransitive(side: Side, db: Db, mid: Db, next: Db, product: nat)
    requires SameView(side, db, mid, product) && SameView(side, mid, next, product)
    ensures SameView(side, db, next, product)
  {
    hide Caller;
  }

  lemma FramedTransitive(side: Side, w: World, mid: World, next: World, touched: set<nat>)
    requires Framed(side, w, mid, touched) && Framed(side, mid, next, touched)
    ensures Framed(side, w, next, touched)
  {
    hide SameView;
    forall p: nat | p !in touched && (p in w.db.products || p in next.db.products)
      ensures SameView(side, w.db, next.db, p) {
      ViewedExists(side, w.db, mid.db, p);
      ViewedExists(side, mid.db, next.db, p);
      SameViewTransitive(side, w.db, mid.db, next.db, p);
    }
  }

  lemma FramedIsCovered(side: Side, w: World, next: World, touched: set<nat>)
    requires Framed(side, w, next, touched)
    ensures Covered(side, w, next, touched, {})
  {
    hide SameView;
    hide SameRoute;
  }

  lemma JoinedThenSame(side: Side, db: Db, mid: Db, next: Db, product: nat)
    requires Joined(side, db, mid, product) && SameView(side, mid, next, product)
    ensures Joined(side, db, next, product)
  {
    hide Caller;
    hide Audience;
  }

  /** Callers joining before changes that keep them. */
  lemma CoveredThenFramed(side: Side, w: World, mid: World, next: World, touched: set<nat>, late: set<nat>)
    requires Covered(side, w, mid, touched, late) && Framed(side, mid, next, touched)
    requires mid.db.products.Keys <= w.db.products.Keys
    ensures Covered(side, w, next, touched, late - touched)
  {
    hide SameView;
    hide Joined;
    forall p: nat | p !in touched && (p in w.db.products || p in next.db.products)
      ensures if p in late then Joined(side, w.db, next.db, p) else SameView(side, w.db, next.db, p)
    {
      ViewedExists(side, w.db, mid.db, p);
      ViewedExists(side, mid.db, next.db, p);
      if p in late {
        JoinedThenSame(side, w.db, mid.db, next.db, p);
      } else {
        SameViewTransitive(side, w.db, mid.db, next.db, p);
      }
    }
  }

  lemma ViewedExists(side: Side, db: Db, next: Db, product: nat)
    ensures SameView(side, db, next, product) || Joined(side, db, next, product) ==>
              product in db.products && product in next.products
  {
  }

  /** A settled product stays settled while it is framed. */
  lemma FramedStaysSettled(side: Side, w: World, next: World, touched: set<nat>, product: nat)
    requires Framed(side, w, next, touched) && product !in touched && Settled(side, w, product)
    ensures Settled(side, next, product)
  {
    hide SameDemand;
    hide Reconciled;
    SameDemandExists(side, w.db, next.db, product);
    KeptStays(side, w.db, next.db, RoutesOf(side, w), RoutesOf(side, next), product);
  }

  lemma SameDemandExists(side: Side, db: Db, next: Db, product: nat)
    ensures SameDemand(side, db, next, product) ==> product in db.products && product in next.products
  {
  }

  // ---- what the writes change

  lemma StatusKeepsOthers(side: Side, db: Db, id: nat, status: Status)
    requires db.SetSubscriptionStatus(id, status).Ok?
    ensures Others(side, db, db.SetSubscriptionStatus(id, status).value, db.subIds[id].product)
  {
  }

  lemma CancelKeepsOthers(side: Side, db: Db, app: nat, product: nat)
    ensures Others(side, db, db.DeleteSubscription(app, product), product)
  {
  }

  /** Everything that may change between two databases without a caller noticing. */
  lemma SameTables(side: Side, db: Db, next: Db)
    requires next.subs == db.subs && next.products == db.products && next.apps == db.apps
             && next.creds.Keys == db.creds.Keys
    requires forall a :: a in db.creds ==> (db.creds[a].sandboxKey == "" <==> next.creds[a].sandboxKey == "")
    ensures Everyone(side, db, next)
  {
  }

  lemma PendingKeepsEveryone(side: Side, db: Db, app: nat, product: nat, plan: nat)
    requires !ActiveIn(db.subs, app, product)
    ensures var r := db.SaveSubscription(app, product, plan); r.Ok? ==> Everyone(side, db, r.value)
  {
    var r := db.SaveSubscription(app, product, plan);
    if r.Ok? {
      assert forall a: nat, q: nat :: ActiveIn(r.value.subs, a, q) <==> ActiveIn(db.subs, a, q);
    }
  }

  lemma EditKeepsOthers(side: Side, db: Db, id: nat, row: Product)
    requires id in db.products
    ensures var next := db.(products := db.products[id := row]);
            && Others(side, db, next, id)
            && (Backend(side, db.products[id]) == Backend(side, row)
                && (side.Production? ==> db.products[id].auth == row.auth) ==>
                  SameDemand(side, db, next, id))
  {
  }

  lemma RemovedProductKeepsOthers(side: Side, db: Db, id: nat)
    ensures var r := db.DeleteProduct(id); r.Ok? ==> Others(side, db, r.value, id)
  {
  }

  lemma RemovedApplicationKeepsEveryone(side: Side, db: Db, app: nat)
    requires forall p :: SubKey(app, p) !in db.subs
    ensures Everyone(side, db, db.DeleteApplication(app))
  {
    assert db.DeleteApplication(app).subs == db.subs;
  }

  lemma NewApplicationKeepsEveryone(side: Side, db: Db, team: nat)
    requires Sound(db)
    ensures Everyone(side, db, db.CreateApplication(team))
  {
  }

  /** Only the oauth2 products the application is active on notice its client id. */
  ghost function OAuthProducts(db: Db, app: nat): set<nat> {
    set p | p in db.products && ActiveIn(db.subs, app, p) && db.products[p].auth.OAuth2?
  }

  lemma ClientIDKeepsOthers(side: Side, db: Db, app: nat, clientId: string)
    requires app in db.apps
    ensures var next := db.SetClientID(app, clientId).value;
            forall q: nat :: q in next.products && !(side.Production? && q in OAuthProducts(db, app)) ==>
                SameView(side, db, next, q)
  {
  }

  /** Only the open sandboxes the application is active on notice its sandbox key. */
  ghost function OpenSandboxes(db: Db, app: nat): set<nat> {
    set p | p in db.products && ActiveIn(db.subs, app, p) && db.products[p].sandboxUpstream != ""
  }

  lemma SandboxKeyKeepsOthers(side: Side, db: Db, app: nat, key: string)
    requires app in db.creds
    ensures var next := db.UpdateSandboxKey(app, key).value;
            next.products == db.products &&
            forall q: nat :: q in next.products && !(side.Sandboxed? && q in OpenSandboxes(db, app)) ==>
                SameView(side, db, next, q)
  {
  }

  /** The key-auth products an application is active on when its first credential is
      issued: it becomes their caller, and their routes do not know. */
  ghost function LateKeys(side: Side, db: Db, next: Db, app: nat): set<nat> {
    if side.Production? && app !in db.creds && app in next.creds
    then set q | q in db.products && db.products[q].auth.KeyAuth? && ActiveIn(db.subs, app, q)
    else {}
  }

  lemma CredentialJoins(side: Side, db: Db, app: nat, newKey: string)
    requires db.GetOrCreateCredential(app, newKey).Ok?
    ensures var next := db.GetOrCreateCredential(app, newKey).value;
            forall q: nat :: q in next.products ==>
              if q in LateKeys(side, db, next, app) then Joined(side, db, next, q) else SameView(side, db, next, q)
  {
    hide Audience;
    var next := db.GetOrCreateCredential(app, newKey).value;
    NamesAreInjective();
    forall q: nat | q in LateKeys(side, db, next, app) ensures Joined(side, db, next, q) {
      AudienceMembers(side, db, q);
      assert Caller(side, next, q, app) == Some(ConsumerName(app));
    }
  }

  /** Activating a subscription adds its application to the callers, and nobody else. */
  lemma ActivationAddsCaller(side: Side, db: Db, id: nat)
    requires db.SetSubscriptionStatus(id, Active).Ok?
    ensures var next := db.SetSubscriptionStatus(id, Active).value;
            var k := db.subIds[id];
            var caller := Caller(side, next, k.product, k.app);
            Audience(side, next, k.product)
                == Audience(side, db, k.product) + (if caller.Some? then {caller.value} else {})
  {
    hide Audience;
    hide Caller;
    var next := db.SetSubscriptionStatus(id, Active).value;
    var k := db.subIds[id];
    AudienceMembers(side, db, k.product);
    AudienceMembers(side, next, k.product);
    OneCallerMore(side, db, id);
    var caller := Caller(side, next, k.product, k.app);
    forall x ensures x in Audience(side, next, k.product) <==>
                     x in Audience(side, db, k.product) || caller == Some(x)
    {
      if x in Audience(side, next, k.product) {
        var a: nat :| Caller(side, next, k.product, a) == Some(x);
      }
      if x in Audience(side, db, k.product) {
        var a: nat :| Caller(side, db, k.product, a) == Some(x);
        assert Caller(side, next, k.product, a) == Some(x);
      }
    }
  }

  lemma OneCallerMore(side: Side, db: Db, id: nat)
    requires db.SetSubscriptionStatus(id, Active).Ok?
    ensures var next := db.SetSubscriptionStatus(id, Active).value;
            var k := db.subIds[id];
            && (forall a: nat :: a != k.app ==> Caller(side, db, k.product, a) == Caller(side, next, k.product, a))
            && (Caller(side, db, k.product, k.app).Some? ==>
                  Caller(side, db, k.product, k.app) == Caller(side, next, k.product, k.app))
  {
  }

  // ---- rebuilding

  /** A write that only one product notices, followed by rebuilding its two routes. */
  lemma RebuildBoth(side: Side, cfg: Config, w: World, w1: World, product: nat)
    requires Sound(w1.db) && cfg.issuer != "" && On(cfg, side)
    requires Others(side, w.db, w1.db, product) && w1.gw.live == w.gw.live && w1.sandbox.live == w.sandbox.live
    ensures var s2 := ReprovisionRoute(cfg, w1, product, []);
            var s3 := ReprovisionSandboxRoute(cfg, s2.w, product, []);
            && Framed(side, w, w1, {product}) && Framed(side, w, s2.w, {product}) && Framed(side, w, s3.w, {product})
            && (s2.r.Ok? && (side.Production? || s3.r.Ok?) ==> Settled(side, s3.w, product))
  {
    hide Sound;
    hide Framed;
    hide Others;
    hide OnlyRoute;
    hide Reconciled;
    hide ReprovisionRoute;
    hide ReprovisionSandboxRoute;
    var s2 := ReprovisionRoute(cfg, w1, product, []);
    var s3 := ReprovisionSandboxRoute(cfg, s2.w, product, []);
    ReprovisionTouches(cfg, w1, product, []);
    ReprovisionSandboxTouches(cfg, s2.w, product, []);
    FramedByOne(side, w, w1, product);
    FramedByOne(side, w, s2.w, product);
    FramedByOne(side, w, s3.w, product);
    ReprovisionNeedsProduct(cfg, w1, product);
    if product in w1.db.products {
      ReprovisionReconciles(cfg, w1, product);
      if side.Sandboxed? {
        ReprovisionSandboxReconciles(cfg, s2.w, product, []);
      }
    }
  }

  /** The products of the list whose production route is rebuilt before a call fails. */
  function Rewritten(cfg: Config, w: World, products: seq<nat>): set<nat>
    decreases |products|
  {
    if products == [] then {}
    else
      var s := ReprovisionRoute(cfg, w, products[0], []);
      if s.r.Err? then {} else {products[0]} + Rewritten(cfg, s.w, products[1..])
  }

  /** Rebuilding a list of production routes. */
  lemma {:induction false} RebuildAll(cfg: Config, w: World, products: seq<nat>, touched: set<nat>)
    requires Sound(w.db) && cfg.issuer != "" && forall p :: p in products ==> p in touched
    ensures var s := ReprovisionAll(cfg, w, products);
            && Framed(Production, w, s.w, touched)
            && Rewritten(cfg, w, products) <= touched
            && (forall p :: p in Rewritten(cfg, w, products) ==> Settled(Production, s.w, p))
            && (s.r.Ok? ==> forall p :: p in products ==> p in Rewritten(cfg, w, products))
            && (Calm(w) && (forall p :: p in products ==> p in w.db.products) ==> s.r.Ok?)
    decreases |products|
  {
    hide Sound;
    hide Framed;
    hide OnlyRoute;
    hide Reconciled;
    hide ReprovisionRoute;
    FramedItself(Production, w, touched);
    if products != [] {
      var p := products[0];
      var s1 := ReprovisionRoute(cfg, w, p, []);
      ReprovisionTouches(cfg, w, p, []);
      FramedByOne(Production, w, s1.w, p);
      FramedWider(Production, w, s1.w, {p}, touched);
      ReprovisionNeedsProduct(cfg, w, p);
      if p in w.db.products {
        ReprovisionReconciles(cfg, w, p);
      }
      if s1.r.Ok? {
        RebuildAll(cfg, s1.w, products[1..], touched);
        RestKeepsFirst(cfg, s1.w, products[1..], p);
        FramedTransitive(Production, w, s1.w, ReprovisionAll(cfg, s1.w, products[1..]).w, touched);
      }
    }
  }

  lemma FramedItself(side: Side, w: World, touched: set<nat>)
    ensures Framed(side, w, w, touched)
  {
    hide SameView;
    Itself(side, w.db);
  }

  /** Rebuilding other routes, or the same one again, leaves a settled product settled. */
  lemma {:induction false} RestKeepsFirst(cfg: Config, w: World, products: seq<nat>, p: nat)
    requires Sound(w.db) && cfg.issuer != "" && Settled(Production, w, p)
    ensures Settled(Production, ReprovisionAll(cfg, w, products).w, p)
    decreases |products|
  {
    hide Sound;
    hide Framed;
    hide OnlyRoute;
    hide Settled;
    hide ReprovisionRoute;
    if products != [] {
      var s1 := ReprovisionRoute(cfg, w, products[0], []);
      if products[0] == p {
        RebuiltSettled(cfg, w, p);
      } else {
        ReprovisionTouches(cfg, w, products[0], []);
        FramedByOne(Production, w, s1.w, products[0]);
        FramedStaysSettled(Production, w, s1.w, {products[0]}, p);
      }
      if s1.r.Ok? {
        RestKeepsFirst(cfg, s1.w, products[1..], p);
      }
    }
  }

  /** A rebuild that fails leaves the gateway as it was. */
  lemma FailedRebuild(cfg: Config, w: World, product: nat, extras: seq<string>)
    ensures var s := ReprovisionRoute(cfg, w, product, extras); s.r.Err? ==> s.w.gw.live == w.gw.live
    ensures var s := ReprovisionSandboxRoute(cfg, w, product, extras); s.r.Err? ==> s.w.sandbox.live == w.sandbox.live
  {
    hide Quieter;
  }

  lemma RebuiltSettled(cfg: Config, w: World, p: nat)
    requires Sound(w.db) && cfg.issuer != ""
    ensures var s := ReprovisionRoute(cfg, w, p, []);
            s.r.Ok? || Settled(Production, w, p) ==> Settled(Production, s.w, p)
  {
    hide Sound;
    hide Reconciled;
    hide ReprovisionRoute;
    FailedRebuild(cfg, w, p, []);
    ReprovisionNeedsProduct(cfg, w, p);
    if p in w.db.products { ReprovisionReconciles(cfg, w, p); }
  }

  lemma RebuiltSandboxSettled(cfg: Config, w: World, p: nat, extra: string)
    requires Sound(w.db) && cfg.sandboxOn && extra != ""
    requires p in w.db.products && extra in Audience(Sandboxed, w.db, p)
    ensures var s := ReprovisionSandboxRoute(cfg, w, p, [extra]);
            (s.r.Ok? || Settled(Sandboxed, w, p) ==> Settled(Sandboxed, s.w, p)) && (Calm(w) ==> s.r.Ok?)
  {
    hide Sound;
    hide Reconciled;
    hide Audience;
    hide ReprovisionSandboxRoute;
    assert Given([extra]) == {extra};
    FailedRebuild(cfg, w, p, [extra]);
    ReprovisionSandboxReconciles(cfg, w, p, [extra]);
  }

  /** The extra consumer is a caller of every product on the list already. */
  ghost predicate CalledEverywhere(db: Db, products: seq<nat>, extra: string) {
    extra != "" && forall p :: p in products ==> p in db.products && extra in Audience(Sandboxed, db, p)
  }

  /** The products of the list whose sandbox route is rebuilt before a call fails. */
  function RewrittenSandboxes(cfg: Config, w: World, products: seq<nat>, extra: string): set<nat>
    decreases |products|
  {
    if products == [] then {}
    else
      var s := ReprovisionSandboxRoute(cfg, w, products[0], [extra]);
      if s.r.Err? then {} else {products[0]} + RewrittenSandboxes(cfg, s.w, products[1..], extra)
  }

  lemma {:induction false} RebuildAllSandboxes(cfg: Config, w: World, products: seq<nat>, extra: string,
                                               touched: set<nat>)
    requires Sound(w.db) && cfg.sandboxOn && CalledEverywhere(w.db, products, extra)
    requires forall p :: p in products ==> p in touched
    ensures var s := ReprovisionAllSandbox(cfg, w, products, extra);
            && Framed(Sandboxed, w, s.w, touched)
            && RewrittenSandboxes(cfg, w, products, extra) <= touched
            && (forall p :: p in RewrittenSandboxes(cfg, w, products, extra) ==> Settled(Sandboxed, s.w, p))
            && (s.r.Ok? ==> forall p :: p in products ==> p in RewrittenSandboxes(cfg, w, products, extra))
            && (Calm(w) ==> s.r.Ok?)
    decreases |products|
  {
    hide Sound;
    hide Framed;
    hide OnlyRoute;
    hide Reconciled;
    hide Audience;
    hide ReprovisionSandboxRoute;
    FramedItself(Sandboxed, w, touched);
    if products != [] {
      var p := products[0];
      var s1 := ReprovisionSandboxRoute(cfg, w, p, [extra]);
      ReprovisionSandboxTouches(cfg, w, p, [extra]);
      FramedByOne(Sandboxed, w, s1.w, p);
      FramedWider(Sandboxed, w, s1.w, {p}, touched);
      RebuiltSandboxSettled(cfg, w, p, extra);
      if s1.r.Ok? {
        RebuildAllSandboxes(cfg, s1.w, products[1..], extra, touched);
        RestKeepsFirstSandbox(cfg, s1.w, products[1..], extra, p);
        FramedTransitive(Sandboxed, w, s1.w, ReprovisionAllSandbox(cfg, s1.w, products[1..], extra).w, touched);
      }
    }
  }

  lemma {:induction false} RestKeepsFirstSandbox(cfg: Config, w: World, products: seq<nat>, extra: string, p: nat)
    requires Sound(w.db) && cfg.sandboxOn && CalledEverywhere(w.db, products, extra) && Settled(Sandboxed, w, p)
    ensures Settled(Sandboxed, ReprovisionAllSandbox(cfg, w, products, extra).w, p)
    decreases |products|
  {
    hide Sound;
    hide Framed;
    hide OnlyRoute;
    hide Settled;
    hide Audience;
    hide ReprovisionSandboxRoute;
    if products != [] {
      var s1 := ReprovisionSandboxRoute(cfg, w, products[0], [extra]);
      if products[0] == p {
        RebuiltSandboxSettled(cfg, w, p, extra);
      } else {
        ReprovisionSandboxTouches(cfg, w, products[0], [extra]);
        FramedByOne(Sandboxed, w, s1.w, products[0]);
        FramedStaysSettled(Sandboxed, w, s1.w, {products[0]}, p);
      }
      if s1.r.Ok? {
        RestKeepsFirstSandbox(cfg, s1.w, products[1..], extra, p);
      }
    }
  }

  // ---- cancelling, rejecting, deleting an application

  /** The production half of a cancellation. */
  function CancelHalf(cfg: Config, w: World, app: nat, product: nat): Step<()> {
    var (w1, _) :- Write(w, Ok(w.db.DeleteSubscription(app, product)));
    ReprovisionRoute(cfg, w1, product, [])
  }

  /** The production half of a rejection. */
  function RejectHalf(cfg: Config, w: World, id: nat): Step<()> {
    var (w1, rec) :- Read(w, w.db.GetSubscription(id));
    if rec.status.Rejected? then Fail(w1, InvalidTransition)
    else
      var (w2, _) :- Write(w1, w1.db.SetSubscriptionStatus(id, Rejected));
      ReprovisionRoute(cfg, w2, rec.product, [])
  }

  /** For the production route its half is enough. */
  lemma UnsubscribeEffect(side: Side, cfg: Config, w: World, app: nat, product: nat)
    requires Sound(w.db) && cfg.issuer != "" && On(cfg, side)
    ensures var s := Unsubscribe(cfg, w, app, product);
            && Framed(side, w, s.w, {product})
            && (s.r.Ok? || (side.Production? && CancelHalf(cfg, w, app, product).r.Ok?) ==> Settled(side, s.w, product))
  {
    hide Sound;
    hide Framed;
    hide Settled;
    hide Others;
    hide ReprovisionRoute;
    hide ReprovisionSandboxRoute;
    var next := w.db.DeleteSubscription(app, product);
    DropSubscriptionsSound(w.db, {SubKey(app, product)});
    CancelKeepsOthers(side, w.db, app, product);
    FramedByOne(side, w, Tick(w), product);
    RebuildBoth(side, cfg, w, Tick(w).(db := next), product);
  }

  lemma UnsubscribeRows(cfg: Config, w: World, app: nat, product: nat)
    requires Sound(w.db)
    ensures var s := Unsubscribe(cfg, w, app, product);
            && Sound(s.w.db) && s.w.db.subs.Keys <= w.db.subs.Keys && s.w.db.products == w.db.products
            && s.w.db.apps == w.db.apps && s.w.db.creds == w.db.creds
            && (s.r.Ok? ==> SubKey(app, product) !in s.w.db.subs)
  {
    hide Sound;
    hide Quieter;
    hide ReprovisionRoute;
    hide ReprovisionSandboxRoute;
    DropSubscriptionsSound(w.db, {SubKey(app, product)});
  }

  /** The products of the list that are cancelled, as far as this gateway is concerned,
      before a call fails. */
  function Cancelled(side: Side, cfg: Config, w: World, app: nat, products: seq<nat>): set<nat>
    decreases |products|
  {
    if products == [] then {}
    else
      var s := Unsubscribe(cfg, w, app, products[0]);
      if s.r.Ok? then {products[0]} + Cancelled(side, cfg, s.w, app, products[1..])
      else if side.Production? && CancelHalf(cfg, w, app, products[0]).r.Ok? then {products[0]}
      else {}
  }

  lemma {:induction false} UnsubscribeAllEffect(side: Side, cfg: Config, w: World, app: nat, products: seq<nat>,
                                                touched: set<nat>)
    requires Sound(w.db) && cfg.issuer != "" && On(cfg, side) && Distinct(products)
             && forall p :: p in products ==> p in touched
    ensures var s := UnsubscribeAll(cfg, w, app, products);
            && Sound(s.w.db) && s.w.db.subs.Keys <= w.db.subs.Keys && s.w.db.products == w.db.products
            && Framed(side, w, s.w, touched)
            && Cancelled(side, cfg, w, app, products) <= touched
            && (forall p :: p in Cancelled(side, cfg, w, app, products) ==> Settled(side, s.w, p))
            && (s.r.Ok? ==> forall p :: p in products ==>
                p in Cancelled(side, cfg, w, app, products) && SubKey(app, p) !in s.w.db.subs)
    decreases |products|
  {
    hide Sound;
    hide Framed;
    hide Settled;
    hide Unsubscribe;
    hide CancelHalf;
    FramedItself(side, w, touched);
    if products != [] {
      var p := products[0];
      var s1 := Unsubscribe(cfg, w, app, p);
      UnsubscribeEffect(side, cfg, w, app, p);
      UnsubscribeRows(cfg, w, app, p);
      FramedWider(side, w, s1.w, {p}, touched);
      if s1.r.Ok? {
        UnsubscribeAllEffect(side, cfg, s1.w, app, products[1..], touched);
        CancelsKeepFirst(side, cfg, s1.w, app, products[1..], p);
        FramedTransitive(side, w, s1.w, UnsubscribeAll(cfg, s1.w, app, products[1..]).w, touched);
      }
    }
  }

  lemma {:induction false} CancelsKeepFirst(side: Side, cfg: Config, w: World, app: nat, products: seq<nat>, p: nat)
    requires Sound(w.db) && cfg.issuer != "" && On(cfg, side) && Settled(side, w, p) && p !in products
    ensures Settled(side, UnsubscribeAll(cfg, w, app, products).w, p)
    decreases |products|
  {
    hide Sound;
    hide Framed;
    hide Settled;
    hide Unsubscribe;
    hide CancelHalf;
    if products != [] {
      var s1 := Unsubscribe(cfg, w, app, products[0]);
      UnsubscribeEffect(side, cfg, w, app, products[0]);
      UnsubscribeRows(cfg, w, app, products[0]);
      FramedStaysSettled(side, w, s1.w, {products[0]}, p);
      if s1.r.Ok? {
        CancelsKeepFirst(side, cfg, s1.w, app, products[1..], p);
      }
    }
  }

  ghost function Subscribed(db: Db, app: nat): set<nat> {
    set p | p in db.products && SubKey(app, p) in db.subs
  }

  lemma SubscribedMembers(db: Db, app: nat)
    requires Sound(db)
    ensures forall p: nat :: p in db.SubscriptionsForApp(app) <==> p in Subscribed(db, app)
    ensures forall p: nat :: SubKey(app, p) in db.subs <==> p in Subscribed(db, app)
    ensures Distinct(db.SubscriptionsForApp(app))
  {
    SubscriptionsForAppMembers(db, app);
    CollectIsDistinct(db.nextProduct, db.SubscribedRow(app));
  }

  /** The products that a deletion of the application cancels before a call fails. */
  function CancelledSoFar(side: Side, cfg: Config, w: World, app: nat): set<nat> {
    var s1 := Read(w, Ok(w.db.SubscriptionsForApp(app)));
    if s1.r.Err? then {} else Cancelled(side, cfg, s1.w, app, s1.r.value)
  }

  /** Whether or not it then succeeds, these are settled. */
  lemma DeleteApplicationEffect(side: Side, cfg: Config, w: World, app: nat)
    requires Sound(w.db) && cfg.issuer != "" && On(cfg, side)
    ensures var s := DeleteApplication(cfg, w, app);
            && Framed(side, w, s.w, Subscribed(w.db, app))
            && CancelledSoFar(side, cfg, w, app) <= Subscribed(w.db, app)
            && (forall p :: p in CancelledSoFar(side, cfg, w, app) ==> Settled(side, s.w, p))
            && (s.r.Ok? ==> CancelledSoFar(side, cfg, w, app) == Subscribed(w.db, app))
  {
    hide Sound;
    hide Framed;
    hide Settled;
    hide Everyone;
    hide Distinct;
    hide Cancelled;
    hide UnsubscribeAll;
    hide RemoveConsumers;
    hide Db.SubscriptionsForApp;
    hide Db.DeleteApplication;
    var touched := Subscribed(w.db, app);
    var products := w.db.SubscriptionsForApp(app);
    SubscribedMembers(w.db, app);
    FramedItself(side, w, touched);
    ReadFrames(side, w, touched);
    var s1 := Read(w, Ok(products));
    if s1.r.Ok? {
      UnsubscribeAllEffect(side, cfg, s1.w, app, products, touched);
      var s2 := UnsubscribeAll(cfg, s1.w, app, products);
      FramedTransitive(side, w, s1.w, s2.w, touched);
      if s2.r.Ok? {
        var s3 := RemoveConsumers(cfg, s2.w, app);
        Itself(side, s2.w.db);
        Unnoticed(side, s2.w, s3.w, touched);
        FramedTransitive(side, w, s2.w, s3.w, touched);
        if s3.r.Ok? {
          var s4 := Write(s3.w, Ok(s3.w.db.DeleteApplication(app)));
          RemovedApplicationKeepsEveryone(side, s2.w.db, app);
          Unnoticed(side, s2.w, s4.w, touched);
          FramedTransitive(side, w, s2.w, s4.w, touched);
        }
      }
    }
  }

  lemma ReadFrames(side: Side, w: World, touched: set<nat>)
    ensures Framed(side, w, Tick(w), touched)
  {
    hide SameView;
    Itself(side, w.db);
  }

  /** A step nobody notices keeps all products settled. */
  lemma Unnoticed(side: Side, w: World, next: World, touched: set<nat>)
    requires Everyone(side, w.db, next.db) && RoutesOf(side, next) == RoutesOf(side, w)
    ensures Framed(side, w, next, touched)
    ensures forall p :: Settled(side, w, p) ==> Settled(side, next, p)
  {
    hide Settled;
    hide Framed;
    hide Everyone;
    FramedByNone(side, w, next);
    FramedWider(side, w, next, {}, touched);
    forall p | Settled(side, w, p) ensures Settled(side, next, p) {
      FramedStaysSettled(side, w, next, {}, p);
    }
  }

  lemma RejectEffect(side: Side, cfg: Config, w: World, id: nat)
    requires Sound(w.db) && cfg.issuer != "" && On(cfg, side)
    ensures var s := Reject(cfg, w, id);
            var touched := if id in w.db.subIds then {w.db.subIds[id].product} else {};
            && Framed(side, w, s.w, touched)
            && (s.r.Ok? || (side.Production? && RejectHalf(cfg, w, id).r.Ok?) ==>
                forall p :: p in touched ==> Settled(side, s.w, p))
  {
    hide Sound;
    hide Framed;
    hide Settled;
    hide Others;
    hide Quieter;
    hide ReprovisionRoute;
    hide ReprovisionSandboxRoute;
    var touched := if id in w.db.subIds then {w.db.subIds[id].product} else {};
    ReadFrames(side, w, touched);
    var s1 := Read(w, w.db.GetSubscription(id));
    if s1.r.Ok? && !s1.r.value.status.Rejected? {
      var k := w.db.subIds[id];
      SetStatusSound(w.db, id, Rejected);
      StatusKeepsOthers(side, w.db, id, Rejected);
      FramedByOne(side, w, Tick(s1.w), k.product);
      RebuildBoth(side, cfg, w, Tick(s1.w).(db := w.db.SetSubscriptionStatus(id, Rejected).value), k.product);
    }
  }

  // ---- client ids and sandbox keys

  /** The oauth2 products that registering a client id rebuilds before a call fails. */
  function RegisteredSoFar(side: Side, cfg: Config, w: World, app: nat, clientId: string): set<nat> {
    if side.Sandboxed? || (clientId != "" && !ValidClientID(clientId)) then {}
    else
      var s1 := Write(w, w.db.SetClientID(app, clientId));
      var s2 := Read(s1.w, Ok(s1.w.db.OAuthProductsForApp(app)));
      if s1.r.Err? || s2.r.Err? then {} else Rewritten(cfg, s2.w, s2.r.value)
  }

  lemma SetOIDCClientIDEffect(side: Side, cfg: Config, w: World, app: nat, clientId: string)
    requires Sound(w.db) && cfg.issuer != ""
    ensures var s := SetOIDCClientID(cfg, w, app, clientId);
            var touched := if side.Production? then OAuthProducts(w.db, app) else {};
            && Framed(side, w, s.w, touched)
            && RegisteredSoFar(side, cfg, w, app, clientId) <= touched
            && (forall p :: p in RegisteredSoFar(side, cfg, w, app, clientId) ==> Settled(side, s.w, p))
            && (s.r.Ok? ==> RegisteredSoFar(side, cfg, w, app, clientId) == touched)
  {
    hide Sound;
    hide Framed;
    hide Settled;
    hide Quieter;
    hide Rewritten;
    hide ReprovisionAll;
    hide Db.OAuthProductsForApp;
    var touched := if side.Production? then OAuthProducts(w.db, app) else {};
    ReadFrames(side, w, touched);
    FramedItself(side, w, touched);
    var r := w.db.SetClientID(app, clientId);
    var s1 := Write(w, r);
    if s1.r.Ok? {
      ApplicationsSound(w.db, app, 0, clientId);
      ClientIDKeepsOthers(side, w.db, app, clientId);
      FramedByWrite(side, w, s1.w, touched);
      OAuthProductsForAppMembers(s1.w.db, app);
      var products := s1.w.db.OAuthProductsForApp(app);
      var s2 := Read(s1.w, Ok(products));
      ReadFrames(side, s1.w, touched);
      FramedTransitive(side, w, s1.w, s2.w, touched);
      if s2.r.Ok? {
        var s3 := ReprovisionAll(cfg, s2.w, products);
        if side.Production? {
          RebuildAll(cfg, s2.w, products, touched);
        } else {
          Itself(side, s2.w.db);
          Unnoticed(side, s2.w, s3.w, touched);
        }
        FramedTransitive(side, w, s2.w, s3.w, touched);
      }
    }
  }

  lemma FramedByWrite(side: Side, w: World, next: World, touched: set<nat>)
    requires forall q: nat :: q in next.db.products && q !in touched ==> SameView(side, w.db, next.db, q)
    requires w.db.products.Keys == next.db.products.Keys
    requires RoutesOf(side, next) == RoutesOf(side, w)
    ensures Framed(side, w, next, touched)
  {
    hide SameView;
  }

  /** The open sandboxes that are rebuilt before a call fails, from the key query on. */
  function ProvisionedSoFar(cfg: Config, w: World, app: nat, plan: Plan, products: seq<nat>, newKey: string): set<nat> {
    var s1 := Read(w, w.db.GetSandboxKey(app));
    if s1.r.Err? then {}
    else
      var s2 := InstallSandboxKey(s1.w, app, plan, if s1.r.value == "" then newKey else s1.r.value);
      if s2.r.Err? then {} else RewrittenSandboxes(cfg, s2.w, products, ConsumerName(app))
  }

  /** The same from the beginning. */
  function OpenedSoFar(side: Side, cfg: Config, w: World, app: nat, newKey: string): set<nat> {
    var s1 := Read(w, w.db.GetCredential(app));
    var s2 := Read(s1.w, s1.w.db.ActivePlanForApp(app));
    var s3 := Read(s2.w, Ok(s2.w.db.SandboxProductsForApp(app)));
    if side.Production? || !cfg.sandboxOn || s1.r.Err? || s2.r.Err? || s3.r.Err? then {}
    else ProvisionedSoFar(cfg, s3.w, app, s2.r.value, s3.r.value, newKey)
  }

  lemma EnableSandboxEffect(side: Side, cfg: Config, w: World, app: nat, newKey: string)
    requires Sound(w.db) && newKey != ""
    ensures var s := EnableSandbox(cfg, w, app, newKey);
            var touched := if side.Sandboxed? then OpenSandboxes(w.db, app) else {};
            && Framed(side, w, s.w, touched)
            && OpenedSoFar(side, cfg, w, app, newKey) <= touched
            && (forall p :: p in OpenedSoFar(side, cfg, w, app, newKey) ==> Settled(side, s.w, p))
            && (s.r.Ok? ==> OpenedSoFar(side, cfg, w, app, newKey) == touched)
  {
    hide Sound;
    hide Framed;
    hide Settled;
    hide Quieter;
    hide ProvisionSandbox;
    hide ProvisionedSoFar;
    hide Db.ActivePlanForApp;
    hide Db.SandboxProductsForApp;
    var touched := if side.Sandboxed? then OpenSandboxes(w.db, app) else {};
    FramedItself(side, w, touched);
    Itself(side, w.db);
    var s1 := Read(w, w.db.GetCredential(app));
    Unnoticed(side, w, s1.w, touched);
    var s2 := Read(s1.w, s1.w.db.ActivePlanForApp(app));
    Unnoticed(side, w, s2.w, touched);
    var s3 := Read(s2.w, Ok(s2.w.db.SandboxProductsForApp(app)));
    Unnoticed(side, w, s3.w, touched);
    if cfg.sandboxOn && s1.r.Ok? && s2.r.Ok? && s3.r.Ok? {
      if s3.r.value == [] { NothingToRebuild(side, cfg, s3.w, app, s2.r.value, newKey); }
      ProvisionSandboxEffect(side, cfg, s3.w, app, s2.r.value, newKey);
      FramedTransitive(side, w, s3.w, ProvisionSandbox(cfg, s3.w, app, s2.r.value, s3.r.value, newKey).w, touched);
    }
  }

  lemma NothingToRebuild(side: Side, cfg: Config, w: World, app: nat, plan: Plan, newKey: string)
    ensures ProvisionedSoFar(cfg, w, app, plan, [], newKey) == {}
  {
  }

  lemma ProvisionSandboxEffect(side: Side, cfg: Config, w: World, app: nat, plan: Plan, newKey: string)
    requires Sound(w.db) && newKey != "" && cfg.sandboxOn && app in w.db.creds
    ensures var products := w.db.SandboxProductsForApp(app);
            var s := ProvisionSandbox(cfg, w, app, plan, products, newKey);
            var done := ProvisionedSoFar(cfg, w, app, plan, products, newKey);
            var touched := if side.Sandboxed? then OpenSandboxes(w.db, app) else {};
            && Framed(side, w, s.w, touched)
            && (side.Sandboxed? ==>
                  done <= touched && (s.r.Ok? ==> done == touched) && forall p :: p in done ==> Settled(side, s.w, p))
  {
    hide Sound;
    hide Framed;
    hide Settled;
    hide Quieter;
    hide InstallSandboxKey;
    hide RewrittenSandboxes;
    hide ReprovisionAllSandbox;
    hide Db.SandboxProductsForApp;
    hide Db.GetSandboxKey;
    HeldSandboxKey(w.db, app);
    var touched := if side.Sandboxed? then OpenSandboxes(w.db, app) else {};
    var s1 := Read(w, w.db.GetSandboxKey(app));
    ReadFrames(side, w, touched);
    if s1.r.Ok? {
      var key := if s1.r.value == "" then newKey else s1.r.value;
      KeyInstallFrames(side, w, s1.w, app, plan, key, touched);
      var s2 := InstallSandboxKey(s1.w, app, plan, key);
      if s2.r.Ok? {
        SandboxListRebuilt(side, cfg, w, s2.w, app, touched);
      }
    }
  }

  lemma HeldSandboxKey(db: Db, app: nat)
    ensures app in db.creds ==> db.GetSandboxKey(app) == Ok(db.creds[app].sandboxKey)
  {
  }

  /** Storing the sandbox key, from the world w1 that differs from w in its tape alone. */
  lemma KeyInstallFrames(side: Side, w: World, w1: World, app: nat, plan: Plan, key: string, touched: set<nat>)
    requires Sound(w.db) && key != "" && app in w.db.creds && w1 == w.(faults := w1.faults)
    requires touched == if side.Sandboxed? then OpenSandboxes(w.db, app) else {}
    ensures var s := InstallSandboxKey(w1, app, plan, key);
            && Framed(side, w, s.w, touched)
            && (s.r.Ok? ==>
                  && Sound(s.w.db)
                  && forall p: nat :: w.db.Active(app, p) ==>
                      p in s.w.db.products && ConsumerName(app) in Audience(Sandboxed, s.w.db, p))
  {
    hide Sound;
    hide Framed;
    hide Quieter;
    hide Write;
    hide Audience;
    hide Db.UpdateSandboxKey;
    Itself(side, w.db);
    var s2 := OnSandbox(w1, EnsureConsumer(ConsumerName(app), Consumer(key, Limit(plan))));
    Unnoticed(side, w, s2.w, touched);
    var s3 := Write(s2.w, s2.w.db.UpdateSandboxKey(app, key));
    WriteCases(s2.w, s2.w.db.UpdateSandboxKey(app, key));
    if s3.r.Ok? {
      SandboxKeyKeepsOthers(side, w.db, app, key);
      FramedByWrite(side, w, s3.w, touched);
      CredentialsSound(w.db, app, key);
      KeyHolderIsCalled(w.db, app, key);
    } else {
      Unnoticed(side, w, s3.w, touched);
    }
  }

  /** After the key has been stored: rebuilding the application's open sandboxes. */
  lemma SandboxListRebuilt(side: Side, cfg: Config, w: World, w1: World, app: nat, touched: set<nat>)
    requires Sound(w.db) && Sound(w1.db) && cfg.sandboxOn && Framed(side, w, w1, touched)
    requires touched == if side.Sandboxed? then OpenSandboxes(w.db, app) else {}
    requires forall p: nat :: w.db.Active(app, p) ==>
               p in w1.db.products && ConsumerName(app) in Audience(Sandboxed, w1.db, p)
    ensures var products := w.db.SandboxProductsForApp(app);
            var s := ReprovisionAllSandbox(cfg, w1, products, ConsumerName(app));
            var done := RewrittenSandboxes(cfg, w1, products, ConsumerName(app));
            && Framed(side, w, s.w, touched)
            && (side.Sandboxed? ==>
                  done <= touched && (s.r.Ok? ==> done == touched) && forall p :: p in done ==> Settled(side, s.w, p))
  {
    hide Sound;
    hide Framed;
    hide Settled;
    hide Audience;
    hide RewrittenSandboxes;
    hide ReprovisionAllSandbox;
    hide Db.SandboxProductsForApp;
    var products := w.db.SandboxProductsForApp(app);
    SandboxProductsForAppMembers(w.db, app);
    forall p | p in products ensures p in w.db.products {
      ActiveProduct(w.db, app, p);
    }
    forall p | p in OpenSandboxes(w.db, app) ensures p in products {
      assert w.db.Active(app, p);
    }
    var s := ReprovisionAllSandbox(cfg, w1, products, ConsumerName(app));
    if side.Sandboxed? {
      RebuildAllSandboxes(cfg, w1, products, ConsumerName(app), touched);
    } else {
      Itself(side, w1.db);
      Unnoticed(side, w1, s.w, touched);
    }
    FramedTransitive(side, w, w1, s.w, touched);
  }

  lemma KeyHolderIsCalled(db: Db, app: nat, key: string)
    requires Sound(db) && app in db.creds && key != ""
    ensures var r := db.UpdateSandboxKey(app, key);
            r.Ok? && forall p: nat :: db.Active(app, p) ==>
                p in r.value.products && ConsumerName(app) in Audience(Sandboxed, r.value, p)
  {
    hide Sound;
    var next := db.UpdateSandboxKey(app, key).value;
    forall p: nat | db.Active(app, p) ensures p in next.products && ConsumerName(app) in Audience(Sandboxed, next, p) {
      ActiveProduct(db, app, p);
      assert Caller(Sandboxed, next, p, app) == Some(ConsumerName(app));
      AudienceMembers(Sandboxed, next, p);
    }
  }

  // ---- approving

  /** The n-th store call from here is a query that fails. */
  predicate ReadFails(w: World, n: nat) {
    n < |w.faults| && w.faults[n].read
  }

  /** Starting from the same tables and routes. */
  predicate Alike(side: Side, w: World, w': World) {
    w.db == w'.db && RoutesOf(side, w) == RoutesOf(side, w')
  }

  lemma FromAlike(side: Side, w: World, w': World, next: World, touched: set<nat>, late: set<nat>)
    requires Alike(side, w, w')
    ensures Framed(side, w, next, touched) ==> Framed(side, w', next, touched)
    ensures Covered(side, w, next, touched, late) ==> Covered(side, w', next, touched, late)
  {
    hide SameView;
    hide Joined;
    hide New;
    hide SameRoute;
  }

  lemma ToAlike(side: Side, w: World, next: World, next': World, touched: set<nat>)
    requires Alike(side, next, next')
    ensures Framed(side, w, next, touched) ==> Framed(side, w, next', touched)
    ensures forall p :: Settled(side, next, p) ==> Settled(side, next', p)
  {
    hide SameView;
    hide SameRoute;
    hide Reconciled;
  }

  /** Rebuilding with one more caller, and then activating that caller. */
  lemma ActivationMatches(w: World, next: Db, routes: map<string, Route>, id: nat, caller: string)
    requires w.db.SetSubscriptionStatus(id, Active) == Ok(next)
    requires var k := w.db.subIds[id];
             && k.product in w.db.products
             && RouteMatches(Production, routes, k.product, w.db.products[k.product],
                             Audience(Production, w.db, k.product) + Given([caller]))
             && Caller(Production, next, k.product, k.app) == if caller == "" then None else Some(caller)
    ensures Reconciled(Production, next, routes, w.db.subIds[id].product)
  {
    hide Caller;
    hide Audience;
    hide RouteMatches;
    ActivationAddsCaller(Production, w.db, id);
    assert Given([caller]) == if caller == "" then {} else {caller};
    var k := w.db.subIds[id];
    assert Audience(Production, next, k.product) == Audience(Production, w.db, k.product) + Given([caller]);
  }

  lemma ActivateOAuthEffect(cfg: Config, w: World, id: nat, rec: SubRecord)
    requires Sound(w.db) && cfg.issuer != "" && w.db.GetSubscription(id) == Ok(rec)
    requires w.db.products[rec.product].auth.OAuth2?
    ensures var s := ActivateOAuth(cfg, w, id, rec);
            && Framed(Production, w, s.w, {rec.product})
            && (s.r.Ok? && !ReadFails(w, 0) ==> Settled(Production, s.w, rec.product))
  {
    hide Sound;
    hide Framed;
    hide Others;
    hide Quieter;
    hide Reconciled;
    hide RouteMatches;
    hide Audience;
    hide OnlyRoute;
    hide ReprovisionRoute;
    SubscriptionIds(w.db, id);
    var cid := Read(w, w.db.GetClientID(rec.app));
    var extra := if cid.r.Ok? then cid.r.value else "";
    var s1 := ReprovisionRoute(cfg, cid.w, rec.product, [extra]);
    var next := w.db.SetSubscriptionStatus(id, Active).value;
    var s2 := Write(s1.w, s1.w.db.SetSubscriptionStatus(id, Active));
    ReprovisionTouches(cfg, cid.w, rec.product, [extra]);
    StatusKeepsOthers(Production, w.db, id, Active);
    FramedByOne(Production, w, s1.w, rec.product);
    FramedByOne(Production, w, s2.w, rec.product);
    if s1.r.Ok? && s2.r.Ok? && !ReadFails(w, 0) {
      ReprovisionMatches(cfg, cid.w, rec.product, [extra]);
      ActivationMatches(w, next, s1.w.gw.live.routes, id, extra);
    }
  }

  /** Activation of an application that holds a sandbox key on an oauth2 product with a
      sandbox: a new sandbox caller, and no rebuild. */
  ghost function LateSandbox(side: Side, db: Db, next: Db, k: SubKey): set<nat> {
    if && side.Sandboxed? && k.product in db.products && db.products[k.product].auth.OAuth2?
    && db.products[k.product].sandboxUpstream != ""
       && k.app in db.creds && db.creds[k.app].sandboxKey != ""
       && !ActiveIn(db.subs, k.app, k.product) && ActiveIn(next.subs, k.app, k.product)
    then {k.product} else {}
  }

  lemma ActivationJoinsSandbox(db: Db, id: nat)
    requires db.SetSubscriptionStatus(id, Active).Ok?
    requires var k := db.subIds[id]; k.product in db.products && db.products[k.product].auth.OAuth2?
    ensures var next := db.SetSubscriptionStatus(id, Active).value;
            forall q: nat :: q in next.products ==>
              if q in LateSandbox(Sandboxed, db, next, db.subIds[id]) then Joined(Sandboxed, db, next, q)
              else SameView(Sandboxed, db, next, q)
  {
    hide Audience;
    var next := db.SetSubscriptionStatus(id, Active).value;
    var k := db.subIds[id];
    NamesAreInjective();
    AudienceMembers(Sandboxed, db, k.product);
    StatusKeepsOthers(Sandboxed, db, id, Active);
    if k.product in LateSandbox(Sandboxed, db, next, k) {
      assert Caller(Sandboxed, next, k.product, k.app) == Some(ConsumerName(k.app));
      assert Joined(Sandboxed, db, next, k.product);
    } else {
      assert SameView(Sandboxed, db, next, k.product);
    }
  }

  lemma CoveredByWrite(side: Side, w: World, next: World, late: set<nat>)
    requires forall q: nat :: q in next.db.products ==>
               if q in late then Joined(side, w.db, next.db, q) else SameView(side, w.db, next.db, q)
    requires w.db.products.Keys == next.db.products.Keys
    requires RoutesOf(side, next) == RoutesOf(side, w)
    ensures Covered(side, w, next, {}, late)
  {
    hide SameView;
    hide Joined;
    hide New;
  }

  lemma ActivateOAuthSandboxEffect(cfg: Config, w: World, id: nat, rec: SubRecord)
    requires Sound(w.db) && w.db.GetSubscription(id) == Ok(rec) && w.db.products[rec.product].auth.OAuth2?
    ensures var s := ActivateOAuth(cfg, w, id, rec);
            Covered(Sandboxed, w, s.w, {}, LateSandbox(Sandboxed, w.db, s.w.db, SubKey(rec.app, rec.product)))
  {
    hide Sound;
    hide Covered;
    hide Joined;
    hide Quieter;
    hide Everyone;
    hide ReprovisionRoute;
    SubscriptionIds(w.db, id);
    var s := ActivateOAuth(cfg, w, id, rec);
    Itself(Sandboxed, w.db);
    ActivationJoinsSandbox(w.db, id);
    if s.w.db == w.db {
      FramedByNone(Sandboxed, w, s.w);
      FramedIsCovered(Sandboxed, w, s.w, {});
    } else {
      CoveredByWrite(Sandboxed, w, s.w, LateSandbox(Sandboxed, w.db, s.w.db, SubKey(rec.app, rec.product)));
    }
  }

  /** Whether the approved application has opened its sandbox. */
  predicate HoldsSandboxKey(db: Db, app: nat) {
    app in db.creds && db.creds[app].sandboxKey != ""
  }

  /** The production half of ListAndActivate: route and status. */
  function ListHalf(cfg: Config, w: World, id: nat, rec: SubRecord): Step<()> {
    var (w1, _) :- ReprovisionRoute(cfg, w, rec.product, [ConsumerName(rec.app)]);
    Write(w1, w1.db.SetSubscriptionStatus(id, Active))
  }

  lemma ListAndActivateEffect(cfg: Config, w: World, id: nat, rec: SubRecord)
    requires Sound(w.db) && cfg.issuer != "" && w.db.GetSubscription(id) == Ok(rec) && rec.app in w.db.creds
    requires w.db.products[rec.product].auth.KeyAuth?
    ensures var s := ListAndActivate(cfg, w, id, rec);
            && Framed(Production, w, s.w, {rec.product})
            && (s.r.Ok? ==> ListHalf(cfg, w, id, rec).r.Ok?)
            && (ListHalf(cfg, w, id, rec).r.Ok? ==> Settled(Production, s.w, rec.product))
  {
    hide Sound;
    hide Framed;
    hide Others;
    hide Quieter;
    hide Reconciled;
    hide RouteMatches;
    hide Audience;
    hide OnlyRoute;
    hide ReprovisionRoute;
    hide GrantSandbox;
    SubscriptionIds(w.db, id);
    var name := ConsumerName(rec.app);
    var s1 := ReprovisionRoute(cfg, w, rec.product, [name]);
    var next := w.db.SetSubscriptionStatus(id, Active).value;
    var s2 := Write(s1.w, s1.w.db.SetSubscriptionStatus(id, Active));
    var s3 := GrantSandbox(cfg, s2.w, rec.app, rec.product);
    ReprovisionTouches(cfg, w, rec.product, [name]);
    StatusKeepsOthers(Production, w.db, id, Active);
    FramedByOne(Production, w, s1.w, rec.product);
    FramedByOne(Production, w, s2.w, rec.product);
    FramedByOne(Production, w, s3.w, rec.product);
    if s1.r.Ok? && s2.r.Ok? {
      ReprovisionMatches(cfg, w, rec.product, [name]);
      ActivationMatches(w, next, s1.w.gw.live.routes, id, name);
    }
  }

  lemma GrantSandboxEffect(cfg: Config, w: World, app: nat, product: nat)
    requires Sound(w.db) && cfg.sandboxOn && ActiveIn(w.db.subs, app, product) && app in w.db.creds
             && product in w.db.products
    ensures var s := GrantSandbox(cfg, w, app, product);
            && Framed(Sandboxed, w, s.w, {product})
            && (s.r.Ok? && !ReadFails(w, 0) ==>
                  if HoldsSandboxKey(w.db, app) then Settled(Sandboxed, s.w, product)
                  else RoutesOf(Sandboxed, s.w) == RoutesOf(Sandboxed, w))
  {
    hide Sound;
    hide Framed;
    hide Settled;
    hide Quieter;
    hide OnlyRoute;
    hide Audience;
    hide ReprovisionSandboxRoute;
    var key := Read(w, w.db.GetSandboxKey(app));
    FramedByOne(Sandboxed, w, key.w, product);
    if key.r.Ok? && key.r.value != "" {
      ReprovisionSandboxTouches(cfg, key.w, product, [ConsumerName(app)]);
      FramedByOne(Sandboxed, w, ReprovisionSandboxRoute(cfg, key.w, product, [ConsumerName(app)]).w, product);
      assert Caller(Sandboxed, w.db, product, app) == Some(ConsumerName(app));
      AudienceMembers(Sandboxed, w.db, product);
      RebuiltSandboxSettled(cfg, key.w, product, ConsumerName(app));
    }
  }

  /** Without a sandbox key the activation goes unnoticed in the sandbox. */
  lemma KeylessActivation(db: Db, id: nat)
    requires db.SetSubscriptionStatus(id, Active).Ok? && !HoldsSandboxKey(db, db.subIds[id].app)
    ensures Everyone(Sandboxed, db, db.SetSubscriptionStatus(id, Active).value)
  {
  }

  lemma ListAndActivateSandboxEffect(cfg: Config, w: World, id: nat, rec: SubRecord)
    requires Sound(w.db) && cfg.sandboxOn && w.db.GetSubscription(id) == Ok(rec) && rec.app in w.db.creds
    requires w.db.products[rec.product].auth.KeyAuth?
    ensures var s := ListAndActivate(cfg, w, id, rec);
            && Framed(Sandboxed, w, s.w, {rec.product})
            && (s.r.Ok? && !ReadFails(w, 3) ==>
                  if HoldsSandboxKey(w.db, rec.app) then Settled(Sandboxed, s.w, rec.product)
                  else Framed(Sandboxed, w, s.w, {}))
  {
    hide Sound;
    hide Framed;
    hide Settled;
    hide Others;
    hide Everyone;
    hide Quieter;
    hide ReprovisionRoute;
    hide GrantSandbox;
    SubscriptionIds(w.db, id);
    var s1 := ReprovisionRoute(cfg, w, rec.product, [ConsumerName(rec.app)]);
    var next := w.db.SetSubscriptionStatus(id, Active).value;
    var s2 := Write(s1.w, s1.w.db.SetSubscriptionStatus(id, Active));
    RouteCalls(cfg, w, rec.product, ConsumerName(rec.app));
    StatusKeepsOthers(Sandboxed, w.db, id, Active);
    FramedByOne(Sandboxed, w, s1.w, rec.product);
    FramedByOne(Sandboxed, w, s2.w, rec.product);
    if s1.r.Ok? && s2.r.Ok? {
      SetStatusSound(w.db, id, Active);
      GrantSandboxEffect(cfg, s2.w, rec.app, rec.product);
      var s3 := GrantSandbox(cfg, s2.w, rec.app, rec.product);
      FramedTransitive(Sandboxed, w, s2.w, s3.w, {rec.product});
      if !HoldsSandboxKey(w.db, rec.app) && RoutesOf(Sandboxed, s3.w) == RoutesOf(Sandboxed, w) {
        KeylessActivation(w.db, id);
        FramedByNone(Sandboxed, w, s3.w);
      }
    }
  }

  /** A key-auth rebuild that goes through has made two store calls. */
  lemma RouteCalls(cfg: Config, w: World, product: nat, extra: string)
    ensures var s := ReprovisionRoute(cfg, w, product, [extra]); s.r.Ok? ==> s.w.faults == Tick(Tick(w)).faults
  {
    hide Quieter;
  }
}
