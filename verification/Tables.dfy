/** The Postgres tables the provisioning services read and write, and the meaning of
    each SQL statement they issue. Every statement is one function of the database
    value: a query returns its rows, a write returns the next database or an error. */
module Tables {
  import opened Common
  import opened Naming
  import opened ContextPaths

  datatype Auth = KeyAuth | OAuth2
  datatype Lifecycle = Live | Deprecated | Sunset
  datatype Status = Pending | Active | Rejected
  datatype InvoiceStatus = Unpaid | Paid | Void

  datatype App = App(team: nat, clientId: string)

  /** A credentials row; the consumer username is always ConsumerName(app), and an empty
      sandbox key means the application has not opted into the sandbox. */
  datatype Credential = Credential(key: string, sandboxKey: string)

  datatype Product = Product(
    slug: string, contextPath: string, upstream: string, sandboxUpstream: string,
    published: bool, auth: Auth, lifecycle: Lifecycle, icon: string)

  /** A product as submitted: auth type and lifecycle may be left empty. */
  datatype Draft = Draft(
    slug: string, contextPath: string, upstream: string, sandboxUpstream: string,
    published: bool, auth: Option<Auth>, lifecycle: Option<Lifecycle>, icon: string)
  {
    /** COALESCE(NULLIF(..., ''), default) on the two defaulted columns. */
    function Row(): Product {
      Product(slug, contextPath, upstream, sandboxUpstream, published,
              if auth.Some? then auth.value else KeyAuth,
              if lifecycle.Some? then lifecycle.value else Live, icon)
    }
  }

  /** The row keeps what was submitted; an empty auth type stands for key-auth, an empty
      lifecycle for live. */
  predicate Keeps(row: Product, draft: Draft) {
    && row.slug == draft.slug && row.contextPath == draft.contextPath && row.icon == draft.icon
    && row.upstream == draft.upstream && row.sandboxUpstream == draft.sandboxUpstream
    && row.published == draft.published
    && (match draft.auth case Some(auth) => row.auth == auth case None => row.auth.KeyAuth?)
    && (match draft.lifecycle case Some(lifecycle) => row.lifecycle == lifecycle case None => row.lifecycle.Live?)
  }

  datatype Plan = Plan(name: string, count: int, window: int, priceCents: nat, currency: string)

  datatype SubKey = SubKey(app: nat, product: nat)
  datatype Sub = Sub(id: nat, plan: nat, status: Status)
  datatype SubRecord = SubRecord(app: nat, product: nat, plan: nat, status: Status)

  datatype Invoice = Invoice(account: nat, team: nat, sub: Option<nat>, planName: string,
                             priceCents: nat, currency: string, status: InvoiceStatus)

  /** A plan's subscriber as its consumer is re-applied: application and stored key. */
  datatype PlanConsumer = PlanConsumer(app: nat, key: string)

  predicate ActiveIn(subs: map<SubKey, Sub>, app: nat, product: nat) {
    SubKey(app, product) in subs && subs[SubKey(app, product)].status.Active?
  }

  datatype Db = Db(
    apps: map<nat, App>, creds: map<nat, Credential>, products: map<nat, Product>,
    plans: map<nat, Plan>, subs: map<SubKey, Sub>, subIds: map<nat, SubKey>,
    accounts: map<nat, nat>, invoices: map<nat, Invoice>,
    nextApp: nat, nextProduct: nat, nextPlan: nat, nextSub: nat, nextAccount: nat, nextInvoice: nat)
  {
    predicate Active(app: nat, product: nat) {
      ActiveIn(subs, app, product)
    }

    // ---- internal/subscriptions/repo.go: queries

    function GetProduct(id: nat): Result<Product> {
      if id in products then Ok(products[id]) else Err(NotFound)
    }

    function GetPlan(id: nat): Result<Plan> {
      if id in plans then Ok(plans[id]) else Err(NotFound)
    }

    function GetCredential(app: nat): Result<Credential> {
      if app in creds then Ok(creds[app]) else Err(NotFound)
    }

    function GetSandboxKey(app: nat): Result<string> {
      if app in creds then Ok(creds[app].sandboxKey) else Err(NotFound)
    }

    function GetClientID(app: nat): Result<string> {
      if app in apps then Ok(apps[app].clientId) else Err(NotFound)
    }

    function GetSubscription(id: nat): Result<SubRecord> {
      if id in subIds && subIds[id] in subs then
        var k := subIds[id];
        Ok(SubRecord(k.app, k.product, subs[k].plan, subs[k].status))
      else Err(NotFound)
    }

    function SubscriptionStatus(app: nat, product: nat): Option<Status> {
      if SubKey(app, product) in subs then Some(subs[SubKey(app, product)].status) else None
    }

    function ConsumerRow(product: nat): nat -> Option<string> {
      (app: nat) => if Active(app, product) && app in creds then Some(ConsumerName(app)) else None
    }

    function ConsumersForProduct(product: nat): seq<string> {
      Collect(nextApp, ConsumerRow(product))
    }

    function OAuthRow(product: nat): nat -> Option<string> {
      (app: nat) => if Active(app, product) && app in apps && apps[app].clientId != "" then Some(apps[app].clientId)
                    else None
    }

    function OAuthClientsForProduct(product: nat): seq<string> {
      Collect(nextApp, OAuthRow(product))
    }

    function SandboxRow(product: nat): nat -> Option<string> {
      (app: nat) => if Active(app, product) && app in creds
      && creds[app].sandboxKey != "" then Some(ConsumerName(app)) else None
    }

    function SandboxConsumersForProduct(product: nat): seq<string> {
      Collect(nextApp, SandboxRow(product))
    }

    predicate OnPlan(app: nat, plan: nat) {
      exists k :: k in subs && k.app == app && subs[k].status.Active? && subs[k].plan == plan
    }

    function PlanRow(plan: nat): nat -> Option<PlanConsumer> {
      (app: nat) => if app in creds && OnPlan(app, plan) then Some(PlanConsumer(app, creds[app].key)) else None
    }

    function ConsumersForPlan(plan: nat): seq<PlanConsumer> {
      Collect(nextApp, PlanRow(plan))
    }

    function SandboxPlanRow(plan: nat): nat -> Option<PlanConsumer> {
      (app: nat) => if app in creds && creds[app].sandboxKey != "" && OnPlan(app, plan)
        then Some(PlanConsumer(app, creds[app].sandboxKey)) else None
    }

    function SandboxConsumersForPlan(plan: nat): seq<PlanConsumer> {
      Collect(nextApp, SandboxPlanRow(plan))
    }

    function OAuthProductRow(app: nat): nat -> Option<nat> {
      (product: nat) => if Active(app, product) && product in products
      && products[product].auth.OAuth2? then Some(product) else None
    }

    function OAuthProductsForApp(app: nat): seq<nat> {
      Collect(nextProduct, OAuthProductRow(app))
    }

    function SandboxProductRow(app: nat): nat -> Option<nat> {
      (product: nat) => if Active(app, product) && product in products
      && products[product].sandboxUpstream != "" then Some(product) else None
    }

    function SandboxProductsForApp(app: nat): seq<nat> {
      Collect(nextProduct, SandboxProductRow(app))
    }

    function SubscribedRow(app: nat): nat -> Option<nat> {
      (product: nat) => if SubKey(app, product) in subs && product in products
      && subs[SubKey(app, product)].plan in plans
        then Some(product) else None
    }

    function SubscriptionsForApp(app: nat): seq<nat> {
      Collect(nextProduct, SubscribedRow(app))
    }

    /** The application's most recent active subscription among products below n. */
    function NewestActive(app: nat, n: nat): Option<Sub> {
      if n == 0 then None
      else
        var rest := NewestActive(app, n - 1);
        var k := SubKey(app, n - 1);
        if k in subs && subs[k].status.Active? && (rest.None? || rest.value.id < subs[k].id) then Some(subs[k])
        else rest
    }

    function ActivePlanForApp(app: nat): Result<Plan> {
      match NewestActive(app, nextProduct)
      case Some(s) => if s.plan in plans then Ok(plans[s.plan]) else Err(NoActiveSubscription)
      case None => Err(NoActiveSubscription)
    }

    // ---- internal/subscriptions/repo.go: writes

    /** INSERT ... ON CONFLICT DO NOTHING-like upsert: an existing credential is kept. */
    function GetOrCreateCredential(app: nat, newKey: string): Result<Db> {
      if app !in apps then Err(ForeignKey)
      else if app in creds then Ok(this)
      else Ok(this.(creds := creds[app := Credential(newKey, "")]))
    }

    function SaveSubscription(app: nat, product: nat, plan: nat): Result<Db> {
      var k := SubKey(app, product);
      if app !in apps || product !in products || plan !in plans then Err(ForeignKey)
      else if k in subs then Ok(this.(subs := subs[k := Sub(subs[k].id, plan, Pending)]))
      else Ok(this.(subs := subs[k := Sub(nextSub, plan, Pending)],
                    subIds := subIds[nextSub := k], nextSub := nextSub + 1))
    }

    function SetSubscriptionStatus(id: nat, status: Status): Result<Db> {
      if id in subIds && subIds[id] in subs then
        Ok(this.(subs := subs[subIds[id] := subs[subIds[id]].(status := status)]))
      else Err(NotFound)
    }

    /** Deleting subscription rows: invoices keep their row and lose the reference
        (ON DELETE SET NULL). */
    function DropSubscriptions(gone: set<SubKey>): Db {
      this.(subs := subs - gone,
            subIds := map i | i in subIds && subIds[i] !in gone :: subIds[i],
            invoices := map i | i in invoices ::
              if invoices[i].sub.Some? && invoices[i].sub.value in subIds && subIds[invoices[i].sub.value] in gone
              then invoices[i].(sub := None) else invoices[i])
    }

    function DeleteSubscription(app: nat, product: nat): Db {
      DropSubscriptions({SubKey(app, product)})
    }

    function UpdateCredentialKey(app: nat, key: string): Result<Db> {
      if app in creds then Ok(this.(creds := creds[app := creds[app].(key := key)])) else Err(NotFound)
    }

    function UpdateSandboxKey(app: nat, key: string): Result<Db> {
      if app in creds then Ok(this.(creds := creds[app := creds[app].(sandboxKey := key)])) else Err(NotFound)
    }

    function SetClientID(app: nat, clientId: string): Result<Db> {
      if app in apps then Ok(this.(apps := apps[app := apps[app].(clientId := clientId)])) else Err(NotFound)
    }

    /** DELETE FROM applications: credential and remaining subscriptions cascade. */
    function DeleteApplication(app: nat): Db {
      DropSubscriptions(set k | k in subs && k.app == app).(apps := apps - {app}, creds := creds - {app})
    }

    /** internal/applications: a new application with no client id. */
    function CreateApplication(team: nat): Db {
      this.(apps := apps[nextApp := App(team, "")], nextApp := nextApp + 1)
    }

    // ---- internal/admin/repo.go and plan_repo.go

    predicate ContextPathOverlaps(path: string, except: Option<nat>) {
      exists id :: id in products && except != Some(id) && SqlOverlap(products[id].contextPath, path)
    }

    /** The unique indexes on slug and context_path. */
    function UniqueError(row: Product, except: Option<nat>): Option<Error> {
      if exists id :: id in products && except != Some(id) && products[id].slug == row.slug then Some(SlugTaken)
      else if exists id ::
                id in products && except != Some(id)
                && products[id].contextPath == row.contextPath then Some(ContextPathTaken)
      else None
    }

    function CreateProduct(row: Product): Result<Db> {
      match UniqueError(row, None)
      case Some(e) => Err(e)
      case None => Ok(this.(products := products[nextProduct := row], nextProduct := nextProduct + 1))
    }

    function UpdateProduct(id: nat, row: Product): Result<Db> {
      if id !in products then Err(NotFound)
      else
        match UniqueError(row, Some(id))
        case Some(e) => Err(e)
        case None => Ok(this.(products := products[id := row]))
    }

    function DeleteProduct(id: nat): Result<Db> {
      if id !in products then Err(NotFound)
      else Ok(DropSubscriptions(set k | k in subs && k.product == id).(products := products - {id}))
    }

    function ActiveRow(product: nat): nat -> Option<nat> {
      (app: nat) => if Active(app, product) then Some(app) else None
    }

    function CountActiveSubscriptions(product: nat): nat {
      |Collect(nextApp, ActiveRow(product))|
    }

    /** The unique index on plan names. */
    predicate PlanNameTaken(name: string, except: Option<nat>) {
      exists id :: id in plans && except != Some(id) && plans[id].name == name
    }

    function CreatePlan(plan: Plan): Result<Db> {
      if PlanNameTaken(plan.name, None) then Err(Error.PlanNameTaken)
      else Ok(this.(plans := plans[nextPlan := plan], nextPlan := nextPlan + 1))
    }

    function UpdatePlan(id: nat, plan: Plan): Result<Db> {
      if id !in plans then Err(NotFound)
      else if PlanNameTaken(plan.name, Some(id)) then Err(Error.PlanNameTaken)
      else Ok(this.(plans := plans[id := plan]))
    }

    // ---- internal/billing/repo.go

    function TeamForApp(app: nat): Result<nat> {
      if app in apps then Ok(apps[app].team) else Err(NotFound)
    }

    function EnsureAccount(team: nat): (db: Db)
      ensures team in db.accounts && SameOutsideLedger(this, db)
    {
      if team in accounts then this
      else this.(accounts := accounts[team := nextAccount], nextAccount := nextAccount + 1)
    }

    predicate PendingInvoiceExists(sub: nat) {
      exists i :: i in invoices && invoices[i].sub == Some(sub) && !invoices[i].status.Void?
    }

    function CreateInvoice(account: nat, team: nat, sub: nat, plan: Plan): (r: Result<Db>)
      ensures r.Ok? ==> SameOutsideLedger(this, r.value)
    {
      if sub !in subIds then Err(ForeignKey)
      else Ok(this.(invoices := invoices[nextInvoice :=
          Invoice(account, team, Some(sub), plan.name, plan.priceCents, plan.currency, Unpaid)],
                    nextInvoice := nextInvoice + 1))
    }

    predicate Unsettled(id: nat) {
      id in invoices && invoices[id].status.Unpaid?
    }

    /** UPDATE ... WHERE status = 'pending': no other row moves. */
    function SettleInvoice(id: nat, status: InvoiceStatus): Db {
      if Unsettled(id) then this.(invoices := invoices[id := invoices[id].(status := status)]) else this
    }

    function GetInvoice(id: nat): Result<Invoice> {
      if id in invoices then Ok(invoices[id]) else Err(NotFound)
    }
  }

  /** Referential integrity: what the foreign keys, the (application, product) unique
      index and the BIGSERIAL ids guarantee. */
  ghost predicate Sound(db: Db) {
    && (forall a :: a in db.apps ==> a < db.nextApp)
    && (forall p :: p in db.products ==> p < db.nextProduct)
    && (forall a :: a in db.creds ==> a in db.apps)
    && (forall k :: k in db.subs ==> k.app in db.apps && k.product in db.products && db.subs[k].plan in db.plans)
    && (forall k :: k in db.subs ==> db.subs[k].id in db.subIds && db.subIds[db.subs[k].id] == k)
    && (forall i :: i in db.subIds ==> i < db.nextSub && db.subIds[i] in db.subs && db.subs[db.subIds[i]].id == i)
    && (forall p :: p in db.plans ==> p < db.nextPlan)
    && (forall i :: i in db.invoices ==> i < db.nextInvoice)
    && (forall i :: i in db.invoices && db.invoices[i].sub.Some? ==> db.invoices[i].sub.value in db.subIds)
  }

  /** Billing writes touch only the accounts and the invoices. */
  predicate SameOutsideLedger(db: Db, next: Db) {
    && next.apps == db.apps && next.creds == db.creds && next.products == db.products && next.plans == db.plans
    && next.subs == db.subs && next.subIds == db.subIds
    && next.nextApp == db.nextApp && next.nextProduct == db.nextProduct
    && next.nextPlan == db.nextPlan && next.nextSub == db.nextSub
  }
}
