/** What holds between any earlier and any later database of a run, whatever fails: ids are
    never reused, invoices are records that only move forward and carry their team's
    account, no subscription is billed twice, and the catalogue stays free of overlapping
    paths. */
module Evolution {
  import opened Common
  import opened Naming
  import opened ContextPaths
  import opened Tables
  import opened Protocol
  import opened Runs
  import opened OperationEffects
  import Gateways

  ghost predicate IdsNotReused(db: Db, next: Db) {
    && db.nextApp <= next.nextApp && (forall a :: a in next.apps && a < db.nextApp ==> a in db.apps)
    && db.nextProduct <= next.nextProduct && (forall p :: p in next.products && p < db.nextProduct ==> p in db.products)
    && db.nextSub <= next.nextSub && (forall i :: i in next.subIds && i < db.nextSub ==> i in db.subIds)
  }

  /** An invoice's account, team, plan name, price and currency are fixed; its
      subscription reference may be lost; paid and void are terminal. */
  predicate KeptInvoice(was: Invoice, now: Invoice) {
    && now == was.(sub := now.sub, status := now.status)
    && (now.sub == was.sub || now.sub == None)
    && (was.status.Unpaid? || now.status == was.status)
  }

  ghost predicate InvoicesKept(db: Db, next: Db) {
    && db.nextInvoice <= next.nextInvoice
    && (forall i :: i in db.invoices ==> i in next.invoices && KeptInvoice(db.invoices[i], next.invoices[i]))
  }

  predicate Billed(invoices: map<nat, Invoice>, i: nat, sub: nat) {
    i in invoices && invoices[i].sub == Some(sub) && !invoices[i].status.Void?
  }

  /** Invoice ids are below the counter, and no subscription has two live invoices. */
  ghost predicate BilledOnce(db: Db) {
    && (forall i :: i in db.invoices ==> i < db.nextInvoice)
    && (forall i, j, sub :: Billed(db.invoices, i, sub) && Billed(db.invoices, j, sub) ==> i == j)
  }

  /** Every stored path is valid and no two products' paths overlap. */
  ghost predicate Catalogue(products: map<nat, Product>) {
    && (forall p :: p in products ==> ValidContextPath(products[p].contextPath))
    && (forall p, q :: p in products && q in products && p != q ==>
        !SqlOverlap(products[p].contextPath, products[q].contextPath))
  }

  /** No two teams share an account. */
  ghost predicate AccountsApart(accounts: map<nat, nat>, next: nat) {
    && (forall t :: t in accounts ==> accounts[t] < next)
    && (forall t, u :: t in accounts && u in accounts && t != u ==> accounts[t] != accounts[u])
  }

  /** Accounts belong to one team each, and every invoice carries its team's. */
  ghost predicate Ledger(db: Db) {
    && AccountsApart(db.accounts, db.nextAccount)
    && (forall i :: i in db.invoices ==> i < db.nextInvoice && OnItsAccount(db, db.invoices[i]))
    && (forall i :: i in db.subIds ==> i < db.nextSub)
  }

  ghost predicate OnItsAccount(db: Db, invoice: Invoice) {
    && invoice.team in db.accounts && invoice.account == db.accounts[invoice.team]
    && (invoice.sub.Some? ==> invoice.sub.value < db.nextSub)
  }

  /** An invoice refers to its subscription for as long as that exists. */
  predicate RefersStill(was: Invoice, now: Invoice, subIds: map<nat, SubKey>) {
    now.sub == was.sub || (was.sub.Some? && now.sub == None && was.sub.value !in subIds)
  }

  ghost predicate LedgerKept(db: Db, next: Db) {
    && (forall t :: t in db.accounts ==> t in next.accounts && next.accounts[t] == db.accounts[t])
    && (forall i :: i in db.invoices ==>
          i in next.invoices && RefersStill(db.invoices[i], next.invoices[i], next.subIds))
  }

  ghost predicate InvoicesLater(db: Db, next: Db) {
    BilledOnce(db) ==> BilledOnce(next) && InvoicesKept(db, next)
  }

  ghost predicate LedgerLater(db: Db, next: Db) {
    Ledger(db) ==> Ledger(next) && LedgerKept(db, next)
  }

  ghost predicate CatalogueLater(db: Db, next: Db) {
    Catalogue(db.products) ==> Catalogue(next.products)
  }

  ghost predicate Later(db: Db, next: Db) {
    IdsNotReused(db, next) && InvoicesLater(db, next) && LedgerLater(db, next) && CatalogueLater(db, next)
  }

  lemma LaterTransitive(db: Db, mid: Db, next: Db)
    requires Later(db, mid) && Later(mid, next)
    ensures Later(db, next)
  {
    hide Catalogue;
    hide BilledOnce;
    hide Ledger;
    hide LedgerKept;
    hide KeptInvoice;
    if BilledOnce(db) {
      forall i | i in db.invoices ensures i in next.invoices && KeptInvoice(db.invoices[i], next.invoices[i]) {
        KeptTransitive(db.invoices[i], mid.invoices[i], next.invoices[i]);
      }
    }
    if Ledger(db) {
      LedgerTransitive(db, mid, next);
    }
  }

  lemma KeptTransitive(was: Invoice, mid: Invoice, now: Invoice)
    requires KeptInvoice(was, mid) && KeptInvoice(mid, now)
    ensures KeptInvoice(was, now)
  {
  }

  lemma LedgerTransitive(db: Db, mid: Db, next: Db)
    requires Ledger(db) && LedgerKept(db, mid) && LedgerKept(mid, next) && IdsNotReused(db, mid)
             && IdsNotReused(mid, next)
    ensures LedgerKept(db, next)
  {
    forall i | i in db.invoices
      ensures i in next.invoices && RefersStill(db.invoices[i], next.invoices[i], next.subIds)
    {
      assert OnItsAccount(db, db.invoices[i]);
    }
  }

  lemma SameProductsLater(db: Db, next: Db)
    requires next.products == db.products
    ensures CatalogueLater(db, next)
  {
  }

  lemma SameInvoicesLater(db: Db, next: Db)
    requires next.invoices == db.invoices && next.nextInvoice == db.nextInvoice
    ensures InvoicesLater(db, next)
  {
  }

  lemma SameLedgerLater(db: Db, next: Db)
    requires next.invoices == db.invoices && next.nextInvoice == db.nextInvoice
    requires next.accounts == db.accounts && next.nextAccount == db.nextAccount
    requires db.nextSub <= next.nextSub
    requires forall i :: i in next.subIds ==> i in db.subIds || db.nextSub <= i < next.nextSub
    ensures LedgerLater(db, next)
  {
  }

  /** Leaves applications, accounts, invoices and products alone, and of the subscriptions
      all but new ones. */
  lemma SameRowsLater(db: Db, next: Db)
    requires next.apps == db.apps && next.nextApp == db.nextApp
    requires next.products == db.products && next.nextProduct == db.nextProduct
    requires next.invoices == db.invoices && next.nextInvoice == db.nextInvoice
    requires next.accounts == db.accounts && next.nextAccount == db.nextAccount
    requires db.nextSub <= next.nextSub
    requires forall i :: i in next.subIds ==> i in db.subIds || db.nextSub <= i < next.nextSub
    ensures Later(db, next)
  {
    hide InvoicesLater;
    hide LedgerLater;
    hide CatalogueLater;
    SameProductsLater(db, next);
    SameInvoicesLater(db, next);
    SameLedgerLater(db, next);
  }

  // ---- writes

  lemma DropSubscriptionsLater(db: Db, gone: set<SubKey>)
    ensures Later(db, db.DropSubscriptions(gone))
  {
    hide InvoicesLater;
    hide LedgerLater;
    hide CatalogueLater;
    SameProductsLater(db, db.DropSubscriptions(gone));
    DropKeepsInvoices(db, gone);
    DropKeepsLedger(db, gone);
  }

  lemma DropKeepsInvoices(db: Db, gone: set<SubKey>)
    ensures InvoicesLater(db, db.DropSubscriptions(gone))
  {
    var next := db.DropSubscriptions(gone);
    assert forall i, sub :: Billed(next.invoices, i, sub) ==> Billed(db.invoices, i, sub);
  }

  lemma DropKeepsLedger(db: Db, gone: set<SubKey>)
    ensures LedgerLater(db, db.DropSubscriptions(gone))
  {
    var next := db.DropSubscriptions(gone);
    if Ledger(db) {
      forall i | i in db.invoices
        ensures OnItsAccount(next, next.invoices[i]) && RefersStill(db.invoices[i], next.invoices[i], next.subIds)
      {
        assert OnItsAccount(db, db.invoices[i]);
      }
    }
  }

  lemma RemovalsLater(db: Db, app: nat, product: nat)
    ensures Later(db, db.DeleteSubscription(app, product))
    ensures Later(db, db.DeleteApplication(app))
    ensures var r := db.DeleteProduct(product); r.Ok? ==> Later(db, r.value)
  {
    hide Later;
    hide Db.DropSubscriptions;
    DropSubscriptionsLater(db, {SubKey(app, product)});
    ApplicationGoneLater(db, app);
    ProductGoneLater(db, product);
  }

  lemma ApplicationGoneLater(db: Db, app: nat)
    ensures Later(db, db.DeleteApplication(app))
  {
    hide Later;
    var gone := set k | k in db.subs && k.app == app;
    DropSubscriptionsLater(db, gone);
    FewerRowsLater(db.DropSubscriptions(gone), app, 0);
    LaterTransitive(db, db.DropSubscriptions(gone), db.DeleteApplication(app));
  }

  lemma ProductGoneLater(db: Db, product: nat)
    ensures var r := db.DeleteProduct(product); r.Ok? ==> Later(db, r.value)
  {
    hide Later;
    var gone := set k | k in db.subs && k.product == product;
    DropSubscriptionsLater(db, gone);
    FewerRowsLater(db.DropSubscriptions(gone), 0, product);
    LaterTransitive(db, db.DropSubscriptions(gone), db.DropSubscriptions(gone).(products := db.products - {product}));
  }

  lemma FewerRowsLater(db: Db, app: nat, product: nat)
    ensures Later(db, db.(apps := db.apps - {app}, creds := db.creds - {app}))
    ensures Later(db, db.(products := db.products - {product}))
  {
    hide InvoicesLater;
    hide LedgerLater;
    hide CatalogueLater;
    var one, other := db.(apps := db.apps - {app}, creds := db.creds - {app}), db.(products := db.products - {product});
    SameProductsLater(db, one);
    SameInvoicesLater(db, one);
    SameLedgerLater(db, one);
    SameInvoicesLater(db, other);
    SameLedgerLater(db, other);
    FewerProductsLater(db, product);
  }

  lemma FewerProductsLater(db: Db, product: nat)
    ensures CatalogueLater(db, db.(products := db.products - {product}))
  {
  }

  lemma ApplicationsLater(db: Db, app: nat, team: nat, clientId: string)
    ensures Later(db, db.CreateApplication(team))
    ensures var r := db.SetClientID(app, clientId); r.Ok? ==> Later(db, r.value)
  {
    hide InvoicesLater;
    hide LedgerLater;
    hide CatalogueLater;
    var next := db.CreateApplication(team);
    SameProductsLater(db, next);
    SameInvoicesLater(db, next);
    SameLedgerLater(db, next);
    var r := db.SetClientID(app, clientId);
    if r.Ok? {
      SameProductsLater(db, r.value);
      SameInvoicesLater(db, r.value);
      SameLedgerLater(db, r.value);
    }
  }

  /** Credentials, subscriptions and plans are none of these rows. */
  lemma OtherTablesLater(db: Db, app: nat, product: nat, plan: nat, key: string, row: Plan)
    ensures var r := db.GetOrCreateCredential(app, key); r.Ok? ==> Later(db, r.value)
    ensures var r := db.UpdateCredentialKey(app, key); r.Ok? ==> Later(db, r.value)
    ensures var r := db.UpdateSandboxKey(app, key); r.Ok? ==> Later(db, r.value)
    ensures var r := db.SaveSubscription(app, product, plan); r.Ok? ==> Later(db, r.value)
    ensures var r := db.CreatePlan(row); r.Ok? ==> Later(db, r.value)
    ensures var r := db.UpdatePlan(plan, row); r.Ok? ==> Later(db, r.value)
  {
    hide Later;
    hide Db.SaveSubscription;
    CredentialsLater(db, app, key);
    SavedLater(db, app, product, plan);
    if db.CreatePlan(row).Ok? { SameRowsLater(db, db.CreatePlan(row).value); }
    if db.UpdatePlan(plan, row).Ok? { SameRowsLater(db, db.UpdatePlan(plan, row).value); }
  }

  lemma CredentialsLater(db: Db, app: nat, key: string)
    ensures var r := db.GetOrCreateCredential(app, key); r.Ok? ==> Later(db, r.value)
    ensures var r := db.UpdateCredentialKey(app, key); r.Ok? ==> Later(db, r.value)
    ensures var r := db.UpdateSandboxKey(app, key); r.Ok? ==> Later(db, r.value)
  {
    hide Later;
    if app in db.apps { SameRowsLater(db, db.GetOrCreateCredential(app, key).value); }
    if app in db.creds {
      SameRowsLater(db, db.UpdateCredentialKey(app, key).value);
      SameRowsLater(db, db.UpdateSandboxKey(app, key).value);
    }
  }

  lemma SavedLater(db: Db, app: nat, product: nat, plan: nat)
    ensures var r := db.SaveSubscription(app, product, plan); r.Ok? ==> Later(db, r.value)
  {
    hide Later;
    var r := db.SaveSubscription(app, product, plan);
    if r.Ok? { SameRowsLater(db, r.value); }
  }

  lemma SettleLater(db: Db, id: nat, status: InvoiceStatus)
    ensures Later(db, db.SettleInvoice(id, status))
  {
    hide Later;
    SameRowsLater(db, db);
    if db.Unsettled(id) {
      SettledLater(db, id, status);
    }
  }

  lemma SettledLater(db: Db, id: nat, status: InvoiceStatus)
    requires db.Unsettled(id)
    ensures Later(db, db.(invoices := db.invoices[id := db.invoices[id].(status := status)]))
  {
    hide InvoicesLater;
    hide LedgerLater;
    hide CatalogueLater;
    SameProductsLater(db, db.(invoices := db.invoices[id := db.invoices[id].(status := status)]));
    SettledInvoicesLater(db, id, status);
    SettledLedgerLater(db, id, status);
  }

  lemma SettledInvoicesLater(db: Db, id: nat, status: InvoiceStatus)
    requires db.Unsettled(id)
    ensures InvoicesLater(db, db.(invoices := db.invoices[id := db.invoices[id].(status := status)]))
  {
    var next := db.invoices[id := db.invoices[id].(status := status)];
    assert forall i, sub :: Billed(next, i, sub) ==> Billed(db.invoices, i, sub);
  }

  lemma SettledLedgerLater(db: Db, id: nat, status: InvoiceStatus)
    requires db.Unsettled(id)
    ensures LedgerLater(db, db.(invoices := db.invoices[id := db.invoices[id].(status := status)]))
  {
    var next := db.(invoices := db.invoices[id := db.invoices[id].(status := status)]);
    if Ledger(db) {
      forall i | i in db.invoices ensures OnItsAccount(next, next.invoices[i]) {
        assert OnItsAccount(db, db.invoices[i]);
      }
    }
  }

  /** One more invoice, for a subscription that has no live one. */
  lemma InvoiceLater(db: Db, team: nat, sub: nat, plan: Plan)
    requires !db.PendingInvoiceExists(sub) && team in db.accounts
    ensures var r := db.CreateInvoice(db.accounts[team], team, sub, plan); r.Ok? ==> Later(db, r.value)
  {
    hide InvoicesLater;
    hide LedgerLater;
    hide CatalogueLater;
    var r := db.CreateInvoice(db.accounts[team], team, sub, plan);
    if r.Ok? {
      SameProductsLater(db, r.value);
      NewInvoiceLater(db, team, sub, plan);
      NewEntryLater(db, team, sub, plan);
    }
  }

  lemma NewInvoiceLater(db: Db, team: nat, sub: nat, plan: Plan)
    requires !db.PendingInvoiceExists(sub) && team in db.accounts
    ensures var r := db.CreateInvoice(db.accounts[team], team, sub, plan); r.Ok? ==> InvoicesLater(db, r.value)
  {
    var r := db.CreateInvoice(db.accounts[team], team, sub, plan);
    if r.Ok? && BilledOnce(db) {
      assert forall i, s :: Billed(r.value.invoices, i, s) ==>
               Billed(db.invoices, i, s) || (i == db.nextInvoice && s == sub);
      assert forall i :: !Billed(db.invoices, i, sub);
    }
  }

  lemma NewEntryLater(db: Db, team: nat, sub: nat, plan: Plan)
    requires team in db.accounts
    ensures var r := db.CreateInvoice(db.accounts[team], team, sub, plan);
            r.Ok? ==> LedgerLater(db, r.value)
  {
    var r := db.CreateInvoice(db.accounts[team], team, sub, plan);
    if r.Ok? && Ledger(db) {
      forall i | i in db.invoices ensures OnItsAccount(r.value, db.invoices[i]) {
        assert OnItsAccount(db, db.invoices[i]);
      }
    }
  }

  lemma NewPathLater(db: Db, row: Product)
    requires ValidContextPath(row.contextPath) && !db.ContextPathOverlaps(row.contextPath, None)
    ensures var r := db.CreateProduct(row); r.Ok? ==> Later(db, r.value)
  {
    hide SqlOverlap;
    hide ValidContextPath;
    hide InvoicesLater;
    hide LedgerLater;
    hide Db.UniqueError;
    NewPathIsApart(db, row.contextPath);
    var r := db.CreateProduct(row);
    if r.Ok? {
      SameInvoicesLater(db, r.value);
      SameLedgerLater(db, r.value);
    }
  }

  lemma NewPathIsApart(db: Db, path: string)
    requires ValidContextPath(path) && !db.ContextPathOverlaps(path, None)
    ensures forall p :: p in db.products && ValidContextPath(db.products[p].contextPath) ==>
              !SqlOverlap(db.products[p].contextPath, path) && !SqlOverlap(path, db.products[p].contextPath)
  {
    hide SqlOverlap;
    hide ValidContextPath;
    forall p | p in db.products && ValidContextPath(db.products[p].contextPath)
      ensures !SqlOverlap(db.products[p].contextPath, path) && !SqlOverlap(path, db.products[p].contextPath)
    {
      OverlapMeansSharedRequest(db.products[p].contextPath, path);
    }
  }

  lemma EditedPathLater(db: Db, id: nat, row: Product)
    requires ValidContextPath(row.contextPath)
    requires id in db.products && (row.contextPath == db.products[id].contextPath
                                   || !db.ContextPathOverlaps(row.contextPath, Some(id)))
    ensures var r := db.UpdateProduct(id, row); r.Ok? ==> Later(db, r.value)
  {
    hide SqlOverlap;
    hide ValidContextPath;
    hide InvoicesLater;
    hide LedgerLater;
    hide Db.UniqueError;
    forall p | p in db.products && p != id && ValidContextPath(db.products[p].contextPath) && Catalogue(db.products)
      ensures !SqlOverlap(db.products[p].contextPath, row.contextPath)
              && !SqlOverlap(row.contextPath, db.products[p].contextPath)
    {
      OverlapMeansSharedRequest(db.products[p].contextPath, row.contextPath);
    }
    var r := db.UpdateProduct(id, row);
    if r.Ok? {
      SameInvoicesLater(db, r.value);
      SameLedgerLater(db, r.value);
    }
  }

  // ---- the operations

  lemma UnsubscribeLater(cfg: Config, w: World, app: nat, product: nat)
    ensures Later(w.db, Unsubscribe(cfg, w, app, product).w.db)
  {
    hide Later;
    hide ReprovisionRoute;
    hide ReprovisionSandboxRoute;
    RemovalsLater(w.db, app, product);
    SameRowsLater(w.db, w.db);
  }

  lemma {:induction false} UnsubscribeAllLater(cfg: Config, w: World, app: nat, products: seq<nat>)
    ensures Later(w.db, UnsubscribeAll(cfg, w, app, products).w.db)
    decreases |products|
  {
    hide Later;
    hide Unsubscribe;
    SameRowsLater(w.db, w.db);
    if products != [] {
      UnsubscribeLater(cfg, w, app, products[0]);
      var s := Unsubscribe(cfg, w, app, products[0]);
      UnsubscribeAllLater(cfg, s.w, app, products[1..]);
      LaterTransitive(w.db, s.w.db, UnsubscribeAll(cfg, s.w, app, products[1..]).w.db);
    }
  }

  lemma DeleteApplicationLater(cfg: Config, w: World, app: nat)
    ensures Later(w.db, DeleteApplication(cfg, w, app).w.db)
  {
    hide Later;
    hide UnsubscribeAll;
    hide RemoveConsumers;
    SameRowsLater(w.db, w.db);
    var products := w.db.SubscriptionsForApp(app);
    var s1 := Read(w, Ok(products));
    UnsubscribeAllLater(cfg, s1.w, app, products);
    var s2 := UnsubscribeAll(cfg, s1.w, app, products);
    RemovalsLater(s2.w.db, app, 0);
    LaterTransitive(w.db, s2.w.db, s2.w.db.DeleteApplication(app));
  }

  lemma RecordRequestLater(w: World, auth: Auth, app: nat, product: nat, plan: nat, newKey: string)
    ensures Later(w.db, RecordRequest(w, auth, app, product, plan, newKey).w.db)
  {
    hide Later;
    hide Quieter;
    hide Db.SaveSubscription;
    SameRowsLater(w.db, w.db);
    OtherTablesLater(w.db, app, product, plan, newKey, Plan("", 0, 0, 0, ""));
    var s1 := Write(w, w.db.GetOrCreateCredential(app, newKey));
    if s1.r.Ok? {
      OtherTablesLater(s1.w.db, app, product, plan, newKey, Plan("", 0, 0, 0, ""));
      var r := s1.w.db.SaveSubscription(app, product, plan);
      if r.Ok? {
        LaterTransitive(w.db, s1.w.db, r.value);
      }
    }
  }

  lemma SubscribeLater(w: World, app: nat, product: nat, plan: nat, newKey: string)
    ensures Later(w.db, Subscribe(w, app, product, plan, newKey).w.db)
  {
    hide Later;
    hide RecordRequest;
    SameRowsLater(w.db, w.db);
    var s1 := Read(w, w.db.GetProduct(product));
    if s1.r.Ok? {
      var s3 := Read(Read(s1.w, s1.w.db.GetPlan(plan)).w, Ok(w.db.SubscriptionStatus(app, product)));
      RecordRequestLater(s3.w, s1.r.value.auth, app, product, plan, newKey);
    }
  }

  lemma StatusLater(db: Db, id: nat, status: Status)
    ensures var r := db.SetSubscriptionStatus(id, status); r.Ok? ==> Later(db, r.value)
  {
    hide Later;
    var r := db.SetSubscriptionStatus(id, status);
    if r.Ok? {
      SameRowsLater(db, r.value);
    }
  }

  lemma RejectLater(cfg: Config, w: World, id: nat)
    ensures Later(w.db, Reject(cfg, w, id).w.db)
  {
    hide Later;
    hide ReprovisionRoute;
    hide ReprovisionSandboxRoute;
    SameRowsLater(w.db, w.db);
    StatusLater(w.db, id, Rejected);
  }

  lemma ActivateOAuthLater(cfg: Config, w: World, id: nat, rec: SubRecord)
    ensures Later(w.db, ActivateOAuth(cfg, w, id, rec).w.db)
  {
    hide Later;
    hide ReprovisionRoute;
    SameRowsLater(w.db, w.db);
    StatusLater(w.db, id, Active);
  }

  lemma ListAndActivateLater(cfg: Config, w: World, id: nat, rec: SubRecord)
    ensures Later(w.db, ListAndActivate(cfg, w, id, rec).w.db)
  {
    hide Later;
    hide ReprovisionRoute;
    hide GrantSandbox;
    SameRowsLater(w.db, w.db);
    StatusLater(w.db, id, Active);
  }

  lemma CredentialThere(db: Db, app: nat, newKey: string)
    ensures var r := db.GetOrCreateCredential(app, newKey); r.Ok? ==> app in r.value.creds
  {
  }

  lemma ActivateKeyAuthLater(cfg: Config, w: World, id: nat, rec: SubRecord, newKey: string)
    ensures Later(w.db, ActivateKeyAuth(cfg, w, id, rec, newKey).w.db)
  {
    hide Later;
    hide Quieter;
    hide Write;
    hide ListAndActivate;
    hide Db.GetOrCreateCredential;
    SameRowsLater(w.db, w.db);
    OtherTablesLater(w.db, rec.app, 0, 0, newKey, Plan("", 0, 0, 0, ""));
    var s1 := Read(w, w.db.GetPlan(rec.plan));
    if s1.r.Ok? {
      var s2 := Write(s1.w, s1.w.db.GetOrCreateCredential(rec.app, newKey));
      WriteCases(s1.w, s1.w.db.GetOrCreateCredential(rec.app, newKey));
      if s2.r.Ok? {
        CredentialThere(w.db, rec.app, newKey);
        var consumer := Gateways.Consumer(s2.w.db.creds[rec.app].key, Limit(s1.r.value));
        var s3 := OnGateway(s2.w, Gateways.EnsureConsumer(ConsumerName(rec.app), consumer));
        ListAndActivateLater(cfg, s3.w, id, rec);
        LaterTransitive(w.db, s2.w.db, ListAndActivate(cfg, s3.w, id, rec).w.db);
      }
    }
  }

  lemma BillingLater(w: World, app: nat, sub: nat, planId: nat)
    ensures Later(w.db, SubscriptionActivated(w, app, sub, planId).w.db)
  {
    hide Later;
    SameRowsLater(w.db, w.db);
    var s1 := Read(w, w.db.GetPlan(planId));
    var s2 := Read(s1.w, Ok(s1.w.db.PendingInvoiceExists(sub)));
    if s1.r.Ok? && s2.r.Ok? && !s2.r.value {
      IssueInvoiceLater(s2.w, app, sub, s1.r.value);
    }
  }

  lemma AccountLater(db: Db, team: nat)
    ensures var next := db.EnsureAccount(team);
            Later(db, next) && forall sub :: next.PendingInvoiceExists(sub) <==> db.PendingInvoiceExists(sub)
  {
    hide InvoicesLater;
    hide LedgerLater;
    hide CatalogueLater;
    var next := db.EnsureAccount(team);
    SameProductsLater(db, next);
    SameInvoicesLater(db, next);
    NewAccountLater(db, team);
  }

  lemma NewAccountLater(db: Db, team: nat)
    ensures LedgerLater(db, db.EnsureAccount(team))
  {
    hide AccountsApart;
    var next := db.EnsureAccount(team);
    if Ledger(db) && team !in db.accounts {
      OneMoreAccount(db.accounts, db.nextAccount, team);
      forall i | i in db.invoices ensures OnItsAccount(next, db.invoices[i]) {
        assert OnItsAccount(db, db.invoices[i]);
      }
    }
  }

  lemma OneMoreAccount(accounts: map<nat, nat>, next: nat, team: nat)
    requires AccountsApart(accounts, next) && team !in accounts
    ensures AccountsApart(accounts[team := next], next + 1)
  {
  }

  lemma IssueInvoiceLater(w: World, app: nat, sub: nat, plan: Plan)
    requires !w.db.PendingInvoiceExists(sub)
    ensures Later(w.db, IssueInvoice(w, app, sub, plan).w.db)
  {
    hide Later;
    hide Quieter;
    hide SameOutsideLedger;
    hide Db.EnsureAccount;
    hide Db.CreateInvoice;
    hide Db.PendingInvoiceExists;
    SameRowsLater(w.db, w.db);
    var s1 := Read(w, w.db.TeamForApp(app));
    if s1.r.Ok? {
      var next := w.db.EnsureAccount(s1.r.value);
      AccountLater(w.db, s1.r.value);
      InvoiceLater(next, s1.r.value, sub, plan);
      var r := next.CreateInvoice(next.accounts[s1.r.value], s1.r.value, sub, plan);
      if r.Ok? {
        LaterTransitive(w.db, next, r.value);
      }
    }
  }

  lemma ApproveLater(cfg: Config, w: World, id: nat, newKey: string)
    ensures Later(w.db, Approve(cfg, w, id, newKey).w.db)
  {
    hide Later;
    hide ActivateKeyAuth;
    hide ActivateOAuth;
    hide SubscriptionActivated;
    SameRowsLater(w.db, w.db);
    var s1 := Read(w, w.db.GetSubscription(id));
    if s1.r.Ok? {
      var rec := s1.r.value;
      var s2 := Read(s1.w, s1.w.db.GetProduct(rec.product));
      ActivateOAuthLater(cfg, s2.w, id, rec);
      ActivateKeyAuthLater(cfg, s2.w, id, rec, newKey);
      var oauth := ActivateOAuth(cfg, s2.w, id, rec).w;
      var keyed := ActivateKeyAuth(cfg, s2.w, id, rec, newKey).w;
      BillingLater(oauth, rec.app, id, rec.plan);
      BillingLater(keyed, rec.app, id, rec.plan);
      LaterTransitive(w.db, oauth.db, SubscriptionActivated(oauth, rec.app, id, rec.plan).w.db);
      LaterTransitive(w.db, keyed.db, SubscriptionActivated(keyed, rec.app, id, rec.plan).w.db);
    }
  }

  lemma SetOIDCClientIDLater(cfg: Config, w: World, app: nat, clientId: string)
    ensures Later(w.db, SetOIDCClientID(cfg, w, app, clientId).w.db)
  {
    hide Later;
    hide ReprovisionAll;
    SameRowsLater(w.db, w.db);
    ApplicationsLater(w.db, app, 0, clientId);
  }

  lemma RotateKeyLater(w: World, app: nat, newKey: string)
    ensures Later(w.db, RotateKey(w, app, newKey).w.db)
  {
    hide Later;
    hide RotateKey;
    hide Db.UpdateCredentialKey;
    SameRowsLater(w.db, w.db);
    OtherTablesLater(w.db, app, 0, 0, newKey, Plan("", 0, 0, 0, ""));
    RotateKeyTables(w, app, newKey);
  }

  lemma RotateSandboxKeyLater(cfg: Config, w: World, app: nat, newKey: string)
    ensures Later(w.db, RotateSandboxKey(cfg, w, app, newKey).w.db)
  {
    hide Later;
    hide RotateSandboxKey;
    hide Db.UpdateSandboxKey;
    SameRowsLater(w.db, w.db);
    OtherTablesLater(w.db, app, 0, 0, newKey, Plan("", 0, 0, 0, ""));
    RotateSandboxKeyTables(cfg, w, app, newKey);
  }

  lemma ProvisionSandboxLater(cfg: Config, w: World, app: nat, plan: Plan, products: seq<nat>, newKey: string)
    ensures Later(w.db, ProvisionSandbox(cfg, w, app, plan, products, newKey).w.db)
  {
    hide Later;
    hide Quieter;
    hide InstallSandboxKey;
    hide ReprovisionAllSandbox;
    hide Db.UpdateSandboxKey;
    SameRowsLater(w.db, w.db);
    var s1 := Read(w, w.db.GetSandboxKey(app));
    if s1.r.Ok? {
      var key := if s1.r.value == "" then newKey else s1.r.value;
      InstallCases(s1.w, app, plan, key);
      OtherTablesLater(w.db, app, 0, 0, key, Plan("", 0, 0, 0, ""));
    }
  }

  lemma EnableSandboxLater(cfg: Config, w: World, app: nat, newKey: string)
    ensures Later(w.db, EnableSandbox(cfg, w, app, newKey).w.db)
  {
    hide Later;
    hide ProvisionSandbox;
    SameRowsLater(w.db, w.db);
    var s1 := Read(w, w.db.GetCredential(app));
    var s2 := Read(s1.w, s1.w.db.ActivePlanForApp(app));
    var s3 := Read(s2.w, Ok(s2.w.db.SandboxProductsForApp(app)));
    if s2.r.Ok? && s3.r.Ok? {
      ProvisionSandboxLater(cfg, s3.w, app, s2.r.value, s3.r.value, newKey);
    }
  }

  lemma UpdatePlanLater(cfg: Config, w: World, id: nat, plan: Plan)
    ensures Later(w.db, UpdatePlan(cfg, w, id, plan).w.db)
  {
    hide Later;
    hide ReprovisionPlan;
    SameRowsLater(w.db, w.db);
    OtherTablesLater(w.db, 0, 0, id, "", plan);
  }

  lemma CreateProductLater(w: World, draft: Draft)
    requires ValidContextPath(draft.contextPath)
    ensures Later(w.db, CreateProduct(w, draft).w.db)
  {
    hide Later;
    hide Db.ContextPathOverlaps;
    SameRowsLater(w.db, w.db);
    if !w.db.ContextPathOverlaps(draft.contextPath, None) {
      NewPathLater(w.db, draft.Row());
    }
  }

  lemma UpdateProductLater(cfg: Config, w: World, id: nat, draft: Draft)
    requires ValidContextPath(draft.contextPath)
    ensures Later(w.db, UpdateProduct(cfg, w, id, draft).w.db)
  {
    hide Later;
    hide Quieter;
    hide EditRow;
    hide RebuildEdited;
    hide ReprovisionSandboxRoute;
    EditRowLater(w, id, draft);
  }

  lemma EditRowLater(w: World, id: nat, draft: Draft)
    requires ValidContextPath(draft.contextPath)
    ensures Later(w.db, EditRow(w, id, draft).w.db)
  {
    hide Later;
    hide Db.ContextPathOverlaps;
    hide MigrationGuard;
    SameRowsLater(w.db, w.db);
    if id in w.db.products && (draft.contextPath == w.db.products[id].contextPath
                               || !w.db.ContextPathOverlaps(draft.contextPath, Some(id))) {
      EditedPathLater(w.db, id, draft.Row());
    }
  }

  lemma DeleteProductLater(w: World, id: nat)
    ensures Later(w.db, DeleteProduct(w, id).w.db)
  {
    hide Later;
    SameRowsLater(w.db, w.db);
    RemovalsLater(w.db, 0, id);
  }

  lemma NewRowLater(w: World, team: nat, plan: Plan)
    ensures Later(w.db, Write(w, Ok(w.db.CreateApplication(team))).w.db)
    ensures Later(w.db, Write(w, w.db.CreatePlan(plan)).w.db)
  {
    hide Later;
    SameRowsLater(w.db, w.db);
    ApplicationsLater(w.db, 0, team, "");
    OtherTablesLater(w.db, 0, 0, 0, "", plan);
  }

  lemma SettleOpLater(w: World, id: nat, status: InvoiceStatus)
    ensures Later(w.db, Protocol.SettleInvoice(w, id, status).w.db)
  {
    hide Later;
    SameRowsLater(w.db, w.db);
    SettleLater(w.db, id, status);
  }

  lemma DoLater(cfg: Config, w: World, op: Op)
    ensures Later(w.db, Do(cfg, w, op).w.db)
  {
    hide Subscribe;
    hide Approve;
    hide Reject;
    hide Unsubscribe;
    hide SetOIDCClientID;
    hide RotateKey;
    hide EnableSandbox;
    hide RotateSandboxKey;
    hide DeleteApplication;
    hide UpdatePlan;
    hide CreateProduct;
    hide UpdateProduct;
    hide DeleteProduct;
    hide Later;
    SameRowsLater(w.db, w.db);
    match op
    case NewApplication(team) => NewRowLater(w, team, Plan("", 0, 0, 0, ""));
    case NewProduct(draft) => if Acceptable(cfg, draft) { CreateProductLater(w, draft); }
    case EditProduct(id, draft) => if Acceptable(cfg, draft) { UpdateProductLater(cfg, w, id, draft); }
    case RemoveProduct(id) => DeleteProductLater(w, id);
    case NewPlan(plan) => NewRowLater(w, 0, plan);
    case EditPlan(id, plan) => UpdatePlanLater(cfg, w, id, plan);
    case Request(app, product, planId, newKey) => SubscribeLater(w, app, product, planId, newKey);
    case Grant(sub, newKey) => ApproveLater(cfg, w, sub, newKey);
    case Refuse(sub) => RejectLater(cfg, w, sub);
    case Cancel(app, product) => UnsubscribeLater(cfg, w, app, product);
    case RegisterClient(app, clientId) => SetOIDCClientIDLater(cfg, w, app, clientId);
    case Rotate(app, newKey) => RotateKeyLater(w, app, newKey);
    case OpenSandbox(app, newKey) => EnableSandboxLater(cfg, w, app, newKey);
    case RotateSandbox(app, newKey) => RotateSandboxKeyLater(cfg, w, app, newKey);
    case RemoveApplication(app) => DeleteApplicationLater(cfg, w, app);
    case Settle(invoice) => SettleOpLater(w, invoice, Paid);
    case VoidInvoice(invoice) => SettleOpLater(w, invoice, Void);
  }

  lemma {:induction false} RunLater(cfg: Config, w: World, ops: seq<Op>)
    ensures Later(w.db, Run(cfg, w, ops).db)
  {
    hide Later;
    hide Do;
    SameRowsLater(w.db, w.db);
    if ops != [] {
      var before := Run(cfg, w, ops[..|ops| - 1]);
      RunLater(cfg, w, ops[..|ops| - 1]);
      DoLater(cfg, before, ops[|ops| - 1]);
      LaterTransitive(w.db, before.db, Run(cfg, w, ops).db);
    }
  }

  // ---- the catalogue and the ledger over whole runs

  /** At any time, at most one product answers a given request path. */
  lemma PathsStayDisjoint(cfg: Config, w: World, ops: seq<Op>, p: nat, q: nat, request: string)
    requires Fresh(w)
    requires var products := Run(cfg, w, ops).db.products;
             && p in products && q in products
             && Serves(products[p].contextPath, request) && Serves(products[q].contextPath, request)
    ensures p == q
  {
    hide Run;
    RunLater(cfg, w, ops);
    var products := Run(cfg, w, ops).db.products;
    OverlapMeansSharedRequest(products[p].contextPath, products[q].contextPath);
  }

  /** Whatever happens later, an issued invoice keeps what it recorded, and once paid or
      void it stays so. */
  lemma InvoicesAreRecords(cfg: Config, w: World, first: seq<Op>, second: seq<Op>, i: nat)
    requires Fresh(w) && i in Run(cfg, w, first).db.invoices
    ensures i in Run(cfg, w, first + second).db.invoices
    ensures KeptInvoice(Run(cfg, w, first).db.invoices[i], Run(cfg, w, first + second).db.invoices[i])
  {
    hide Run;
    RunLater(cfg, w, first);
    RunSplits(cfg, w, first, second);
    RunLater(cfg, Run(cfg, w, first), second);
  }

  /** In every run each invoice's team has an account, the invoice carries it, and no two
      teams share one. */
  lemma InvoicesCarryTheAccount(cfg: Config, w: World, ops: seq<Op>, i: nat, team: nat)
    requires Fresh(w) && i in Run(cfg, w, ops).db.invoices
    ensures var db := Run(cfg, w, ops).db;
            && db.invoices[i].team in db.accounts && db.invoices[i].account == db.accounts[db.invoices[i].team]
            && (team in db.accounts && db.accounts[team] == db.invoices[i].account ==> team == db.invoices[i].team)
  {
    hide Run;
    RunLater(cfg, w, ops);
    assert OnItsAccount(Run(cfg, w, ops).db, Run(cfg, w, ops).db.invoices[i]);
  }

  /** Whatever happens later, a team keeps its account, and an invoice refers to its
      subscription for as long as that exists. */
  lemma AccountsStay(cfg: Config, w: World, first: seq<Op>, second: seq<Op>, team: nat, i: nat)
    requires Fresh(w)
    ensures var was, now := Run(cfg, w, first).db, Run(cfg, w, first + second).db;
            && (team in was.accounts ==> team in now.accounts && now.accounts[team] == was.accounts[team])
            && (i in was.invoices ==> i in now.invoices && RefersStill(was.invoices[i], now.invoices[i], now.subIds))
  {
    hide Run;
    RunLater(cfg, w, first);
    RunSplits(cfg, w, first, second);
    RunLater(cfg, Run(cfg, w, first), second);
  }

  lemma NoDoubleBilling(cfg: Config, w: World, ops: seq<Op>, sub: nat, i: nat, j: nat)
    requires Fresh(w)
    requires Billed(Run(cfg, w, ops).db.invoices, i, sub) && Billed(Run(cfg, w, ops).db.invoices, j, sub)
    ensures i == j
  {
    hide Run;
    RunLater(cfg, w, ops);
  }

  /** Invoice i bills the subscription: one that was there before, or a new one that
      records the plan as it is, the application's team and that team's account. */
  ghost predicate BilledBy(was: Db, now: Db, i: nat, sub: nat, app: nat, plan: Plan) {
    && Billed(now.invoices, i, sub)
    && (i in was.invoices
        || (&& app in was.apps && now.invoices[i].team == was.apps[app].team && now.invoices[i].status.Unpaid?
            && was.apps[app].team in now.accounts && now.invoices[i].account == now.accounts[was.apps[app].team]
            && now.invoices[i].planName == plan.name && now.invoices[i].priceCents == plan.priceCents
            && now.invoices[i].currency == plan.currency))
  }

  /** An approval that succeeds on a plan with a price leaves the subscription billed,
      even when earlier attempts failed half-way. */
  lemma ApprovedIsBilled(cfg: Config, w: World, id: nat, newKey: string)
    requires w.db.GetSubscription(id).Ok?
    ensures var rec := w.db.GetSubscription(id).value;
            var s := Approve(cfg, w, id, newKey);
            s.r.Ok? && rec.plan in w.db.plans && w.db.plans[rec.plan].priceCents > 0 ==>
              exists i: nat :: BilledBy(w.db, s.w.db, i, id, rec.app, w.db.plans[rec.plan])
  {
    hide BilledBy;
    hide Quieter;
    hide ActivateKeyAuth;
    hide ActivateOAuth;
    hide SubscriptionActivated;
    var rec := w.db.GetSubscription(id).value;
    var s2 := Read(Read(w, Ok(rec)).w, w.db.GetProduct(rec.product));
    ActivationKeepsLedger(cfg, s2.w, id, rec, newKey);
    SuccessfulBilling(w.db, ActivateOAuth(cfg, s2.w, id, rec).w, rec.app, id, rec.plan);
    SuccessfulBilling(w.db, ActivateKeyAuth(cfg, s2.w, id, rec, newKey).w, rec.app, id, rec.plan);
  }

  /** An approval on a plan without a price, or of a subscription that is billed already,
      leaves accounts and invoices alone, whatever fails. */
  lemma BilledOnlyOnce(cfg: Config, w: World, id: nat, newKey: string)
    requires w.db.GetSubscription(id).Ok?
    requires var plan := w.db.GetSubscription(id).value.plan;
             || (plan in w.db.plans && w.db.plans[plan].priceCents == 0)
             || exists i :: Billed(w.db.invoices, i, id)
    ensures var end := Approve(cfg, w, id, newKey).w.db; end.invoices == w.db.invoices && end.accounts == w.db.accounts
  {
    hide Quieter;
    hide SubscriptionActivated;
    hide ActivateKeyAuth;
    hide ActivateOAuth;
    var rec := w.db.GetSubscription(id).value;
    var s2 := Read(Read(w, Ok(rec)).w, w.db.GetProduct(rec.product));
    ActivationKeepsLedger(cfg, s2.w, id, rec, newKey);
    NothingToBill(ActivateOAuth(cfg, s2.w, id, rec).w, rec.app, id, rec.plan);
    NothingToBill(ActivateKeyAuth(cfg, s2.w, id, rec, newKey).w, rec.app, id, rec.plan);
  }

  lemma NothingToBill(w: World, app: nat, sub: nat, planId: nat)
    ensures (planId in w.db.plans && w.db.plans[planId].priceCents == 0)
            || (exists i :: Billed(w.db.invoices, i, sub)) ==>
              SubscriptionActivated(w, app, sub, planId).w.db == w.db
  {
    hide Quieter;
    hide IssueInvoice;
    if i :| Billed(w.db.invoices, i, sub) {
      assert w.db.PendingInvoiceExists(sub);
    }
  }

  /** In every run: exactly one live invoice after such an approval. */
  lemma ApprovedIsBilledExactlyOnce(cfg: Config, w: World, ops: seq<Op>, id: nat, newKey: Key)
    requires Fresh(w)
    ensures var before := Run(cfg, w, ops);
            var s := Do(cfg, before, Grant(id, newKey));
            s.r.Ok? ==>
              && before.db.GetSubscription(id).Ok?
              && var rec := before.db.GetSubscription(id).value;
              rec.plan in before.db.plans && before.db.plans[rec.plan].priceCents > 0 ==>
                exists i: nat :: BilledBy(before.db, s.w.db, i, id, rec.app, before.db.plans[rec.plan])
                                 && forall j :: Billed(s.w.db.invoices, j, id) ==> j == i
  {
    hide Run;
    hide ActivateKeyAuth;
    hide ActivateOAuth;
    hide SubscriptionActivated;
    hide InvoicesKept;
    hide Catalogue;
    hide IdsNotReused;
    var before := Run(cfg, w, ops);
    RunLater(cfg, w, ops);
    DoLater(cfg, before, Grant(id, newKey));
    if before.db.GetSubscription(id).Ok? {
      ApprovedIsBilled(cfg, before, id, newKey);
    }
  }

  predicate SameLedger(db: Db, next: Db) {
    && next.plans == db.plans && next.apps == db.apps && next.accounts == db.accounts
    && next.invoices == db.invoices && next.nextInvoice == db.nextInvoice
  }

  lemma ActivationKeepsLedger(cfg: Config, w: World, id: nat, rec: SubRecord, newKey: string)
    ensures SameLedger(w.db, ActivateOAuth(cfg, w, id, rec).w.db)
    ensures SameLedger(w.db, ActivateKeyAuth(cfg, w, id, rec, newKey).w.db)
  {
    OAuthKeepsLedger(cfg, w, id, rec);
    KeyAuthKeepsLedger(cfg, w, id, rec, newKey);
  }

  lemma OAuthKeepsLedger(cfg: Config, w: World, id: nat, rec: SubRecord)
    ensures SameLedger(w.db, ActivateOAuth(cfg, w, id, rec).w.db)
  {
    hide Quieter;
    hide ReprovisionRoute;
  }

  lemma KeyAuthKeepsLedger(cfg: Config, w: World, id: nat, rec: SubRecord, newKey: string)
    ensures SameLedger(w.db, ActivateKeyAuth(cfg, w, id, rec, newKey).w.db)
  {
    hide Quieter;
    hide ListAndActivate;
    var s1 := Read(w, w.db.GetPlan(rec.plan));
    var s2 := Write(s1.w, s1.w.db.GetOrCreateCredential(rec.app, newKey));
    if s1.r.Ok? && s2.r.Ok? {
      var consumer := Gateways.Consumer(s2.w.db.creds[rec.app].key, Limit(s1.r.value));
      var s3 := OnGateway(s2.w, Gateways.EnsureConsumer(ConsumerName(rec.app), consumer));
      ListingKeepsLedger(cfg, s3.w, id, rec);
    }
  }

  lemma ListingKeepsLedger(cfg: Config, w: World, id: nat, rec: SubRecord)
    ensures SameLedger(w.db, ListAndActivate(cfg, w, id, rec).w.db)
  {
    hide Quieter;
    hide ReprovisionRoute;
    hide GrantSandbox;
  }

  lemma SuccessfulBilling(was: Db, w: World, app: nat, sub: nat, planId: nat)
    requires SameLedger(was, w.db)
    ensures var s := SubscriptionActivated(w, app, sub, planId);
            s.r.Ok? && planId in was.plans && was.plans[planId].priceCents > 0 ==>
              exists i: nat :: BilledBy(was, s.w.db, i, sub, app, was.plans[planId])
  {
    hide Quieter;
    hide SameOutsideLedger;
    hide IssueInvoice;
    if planId in was.plans && w.db.PendingInvoiceExists(sub) {
      var i :| i in w.db.invoices && w.db.invoices[i].sub == Some(sub) && !w.db.invoices[i].status.Void?;
      assert BilledBy(was, w.db, i, sub, app, was.plans[planId]);
    }
    var s1 := Read(w, w.db.GetPlan(planId));
    var s2 := Read(s1.w, Ok(s1.w.db.PendingInvoiceExists(sub)));
    if s1.r.Ok? {
      IssuedIsBilled(was, s2.w, app, sub, s1.r.value);
    }
  }

  lemma IssuedIsBilled(was: Db, w: World, app: nat, sub: nat, plan: Plan)
    requires SameLedger(was, w.db)
    ensures var s := IssueInvoice(w, app, sub, plan);
            s.r.Ok? ==> BilledBy(was, s.w.db, w.db.nextInvoice, sub, app, plan)
  {
    hide Quieter;
    hide SameOutsideLedger;
  }
}
