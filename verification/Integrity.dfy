/** Every write keeps the tables sound. */
module Integrity {
  import opened Common
  import opened Tables

  lemma DropSubscriptionsSound(db: Db, gone: set<SubKey>)
    requires Sound(db)
    ensures Sound(db.DropSubscriptions(gone))
  {
  }

  lemma SaveSubscriptionSound(db: Db, app: nat, product: nat, plan: nat)
    requires Sound(db)
    ensures var r := db.SaveSubscription(app, product, plan); r.Ok? ==> Sound(r.value)
  {
    hide Sound;
    var k := SubKey(app, product);
    if app in db.apps && product in db.products && plan in db.plans {
      if k in db.subs { RenewedSound(db, k, plan); } else { RequestedSound(db, k, plan); }
    }
  }

  lemma RenewedSound(db: Db, k: SubKey, plan: nat)
    requires Sound(db) && k in db.subs && plan in db.plans
    ensures Sound(db.(subs := db.subs[k := Sub(db.subs[k].id, plan, Pending)]))
  {
  }

  lemma RequestedSound(db: Db, k: SubKey, plan: nat)
    requires Sound(db) && k !in db.subs && k.app in db.apps && k.product in db.products && plan in db.plans
    ensures Sound(db.(subs := db.subs[k := Sub(db.nextSub, plan, Pending)],
                      subIds := db.subIds[db.nextSub := k], nextSub := db.nextSub + 1))
  {
  }

  lemma SetStatusSound(db: Db, id: nat, status: Status)
    requires Sound(db)
    ensures var r := db.SetSubscriptionStatus(id, status); r.Ok? ==> Sound(r.value)
  {
  }

  lemma CredentialsSound(db: Db, app: nat, key: string)
    requires Sound(db)
    ensures var r := db.GetOrCreateCredential(app, key); r.Ok? ==> Sound(r.value)
    ensures var r := db.UpdateCredentialKey(app, key); r.Ok? ==> Sound(r.value)
    ensures var r := db.UpdateSandboxKey(app, key); r.Ok? ==> Sound(r.value)
  {
    hide Sound;
    CredentialIds(db, app);
    if app in db.apps {
      CredentialRowSound(db, app, Credential(key, ""));
      if app in db.creds {
        CredentialRowSound(db, app, db.creds[app].(key := key));
        CredentialRowSound(db, app, db.creds[app].(sandboxKey := key));
      }
    }
  }

  lemma CredentialRowSound(db: Db, app: nat, cred: Credential)
    requires Sound(db) && app in db.apps
    ensures Sound(db.(creds := db.creds[app := cred]))
  {
  }

  lemma ApplicationsSound(db: Db, app: nat, team: nat, clientId: string)
    requires Sound(db)
    ensures Sound(db.CreateApplication(team))
    ensures var r := db.SetClientID(app, clientId); r.Ok? ==> Sound(r.value)
  {
  }

  lemma DeleteApplicationSound(db: Db, app: nat)
    requires Sound(db)
    ensures Sound(db.DeleteApplication(app))
    ensures forall p: nat :: SubKey(app, p) !in db.DeleteApplication(app).subs
  {
    DropSubscriptionsSound(db, set k | k in db.subs && k.app == app);
  }

  lemma ProductsSound(db: Db, id: nat, row: Product)
    requires Sound(db)
    ensures var r := db.CreateProduct(row); r.Ok? ==> Sound(r.value)
    ensures var r := db.UpdateProduct(id, row); r.Ok? ==> Sound(r.value)
  {
  }

  lemma DeleteProductSound(db: Db, id: nat)
    requires Sound(db)
    ensures var r := db.DeleteProduct(id); r.Ok? ==> Sound(r.value)
  {
    DropSubscriptionsSound(db, set k | k in db.subs && k.product == id);
  }

  lemma PlansSound(db: Db, id: nat, plan: Plan)
    requires Sound(db)
    ensures var r := db.CreatePlan(plan); r.Ok? ==> Sound(r.value)
    ensures var r := db.UpdatePlan(id, plan); r.Ok? ==> Sound(r.value)
  {
  }

  lemma LedgerSound(db: Db, next: Db)
    requires Sound(db) && SameOutsideLedger(db, next)
    requires forall i :: i in next.invoices ==> i < next.nextInvoice
    requires forall i :: i in next.invoices && next.invoices[i].sub.Some? ==> next.invoices[i].sub.value in next.subIds
    ensures Sound(next)
  {
  }

  lemma CredentialIds(db: Db, app: nat)
    requires Sound(db)
    ensures app in db.creds ==> app in db.apps && app < db.nextApp
  {
  }

  lemma SubscriptionIds(db: Db, id: nat)
    requires Sound(db) && id in db.subIds
    ensures db.subIds[id] in db.subs && db.subIds[id].app in db.apps && db.subIds[id].product in db.products
    ensures db.subs[db.subIds[id]].plan in db.plans
  {
  }

  lemma BillingSound(db: Db, account: nat, team: nat, sub: nat, plan: Plan)
    requires Sound(db)
    ensures Sound(db.EnsureAccount(team))
    ensures var r := db.CreateInvoice(account, team, sub, plan); r.Ok? ==> Sound(r.value)
  {
    LedgerSound(db, db.EnsureAccount(team));
    var r := db.CreateInvoice(account, team, sub, plan);
    if r.Ok? {
      LedgerSound(db, r.value);
    }
  }

  lemma SettleSound(db: Db, id: nat, status: InvoiceStatus)
    requires Sound(db)
    ensures var next := db.SettleInvoice(id, status); Sound(next) && SameOutsideLedger(db, next)
  {
  }

  lemma NoSubscription(db: Db, app: nat, product: nat)
    requires Sound(db) && product !in db.products
    ensures SubKey(app, product) !in db.subs
  {
  }

  lemma ActiveProduct(db: Db, app: nat, product: nat)
    requires Sound(db) && db.Active(app, product)
    ensures product in db.products && product < db.nextProduct
  {
  }
}
