/** What is stored of a product: in every run, whatever fails, its row keeps what was last
    saved, so that a product saved unpublished, or not live, takes no request. */
module SavedProducts {
  import opened Common
  import opened Tables
  import opened Protocol
  import opened Runs
  import opened Safety
  import opened Reconciliation
  import opened Effects
  import opened OperationEffects
  import opened GatewayPaths

  lemma CreatedKeeps(w: World, draft: Draft)
    ensures var s := CreateProduct(w, draft);
            && (s.r.Ok? ==>
                  Keeps(s.r.value, draft) && s.w.db.products == w.db.products[w.db.nextProduct := s.r.value])
            && (s.r.Err? ==> s.w.db == w.db)
  {
    hide Quieter;
    hide Db.CreateProduct;
    hide Db.ContextPathOverlaps;
    CreatedRow(w.db, draft.Row());
  }

  /** An edit whose row went through has saved the draft, even if it fails later on. */
  lemma EditedKeeps(cfg: Config, w: World, id: nat, draft: Draft)
    ensures var s := UpdateProduct(cfg, w, id, draft);
            && (s.r.Ok? ==>
                  && EditRow(w, id, draft).r.Ok? && Keeps(s.r.value, draft)
                  && s.w.db.products == w.db.products[id := s.r.value])
            && (EditRow(w, id, draft).r.Ok? ==>
                  && id in s.w.db.products && Keeps(s.w.db.products[id], draft)
                  && s.w.db.products == w.db.products[id := s.w.db.products[id]])
            && (EditRow(w, id, draft).r.Err? ==> s.w.db == w.db)
  {
    hide Quieter;
    hide EditRow;
    hide RebuildEdited;
    hide ReprovisionSandboxRoute;
    EditRowCases(w, id, draft);
  }

  // ---- runs

  /** The draft each product was last saved with. */
  ghost function SavedAfter(cfg: Config, w: World, op: Op, saved: map<nat, Draft>): map<nat, Draft> {
    match op
    case NewProduct(draft) => if Do(cfg, w, op).r.Ok? then saved[w.db.nextProduct := draft] else saved
    case EditProduct(id, draft) =>
      if Acceptable(cfg, draft) && EditRow(w, id, draft).r.Ok? then saved[id := draft] else saved
    case _ => saved
  }

  ghost function Saved(cfg: Config, w: World, ops: seq<Op>): map<nat, Draft> {
    if ops == [] then map[]
    else
      var before := ops[..|ops| - 1];
      SavedAfter(cfg, Run(cfg, w, before), ops[|ops| - 1], Saved(cfg, w, before))
  }

  ghost predicate AsSaved(products: map<nat, Product>, saved: map<nat, Draft>) {
    forall p :: p in products ==> p in saved && Keeps(products[p], saved[p])
  }

  lemma OtherOpsKeepProducts(cfg: Config, w: World, op: Op)
    requires !op.NewProduct? && !op.EditProduct? && !op.RemoveProduct?
    ensures Do(cfg, w, op).w.db.products == w.db.products
  {
    hide PathsKept;
    hide Approve;
    hide Reject;
    hide Unsubscribe;
    hide SetOIDCClientID;
    hide EnableSandbox;
    hide DeleteApplication;
    match op
    case Grant(sub, newKey) => ApprovePaths(Production, cfg, w, sub, newKey);
    case Refuse(sub) => RejectPaths(Production, cfg, w, sub);
    case Cancel(app, product) => UnsubscribePaths(Production, cfg, w, app, product);
    case RegisterClient(app, clientId) => SetOIDCClientIDPaths(Production, cfg, w, app, clientId);
    case OpenSandbox(app, newKey) => EnableSandboxPaths(Production, cfg, w, app, newKey);
    case RemoveApplication(app) => DeleteApplicationPaths(Production, cfg, w, app);
    case _ => QuietPaths(Production, cfg, w, op);
  }

  lemma RemovalKeepsProducts(w: World, id: nat)
    ensures var next := DeleteProduct(w, id).w.db.products; next == w.db.products || next == w.db.products - {id}
  {
    hide Quieter;
    hide Db.DeleteProduct;
    hide Db.CountActiveSubscriptions;
    RemovedRow(w.db, id);
  }

  lemma DoAsSaved(cfg: Config, w: World, op: Op, saved: map<nat, Draft>)
    requires AsSaved(w.db.products, saved)
    ensures AsSaved(Do(cfg, w, op).w.db.products, SavedAfter(cfg, w, op, saved))
  {
    hide Keeps;
    hide EditRow;
    hide CreateProduct;
    hide UpdateProduct;
    hide DeleteProduct;
    match op
    case NewProduct(draft) => CreatedKeeps(w, draft);
    case EditProduct(id, draft) => EditedKeeps(cfg, w, id, draft);
    case RemoveProduct(id) => RemovalKeepsProducts(w, id);
    case _ => OtherOpsKeepProducts(cfg, w, op);
  }

  /** In every run, whatever fails, each stored product keeps the draft it was last saved
      with. */
  lemma {:induction false} ProductsAreAsSaved(cfg: Config, w: World, ops: seq<Op>)
    requires Fresh(w)
    ensures AsSaved(Run(cfg, w, ops).db.products, Saved(cfg, w, ops))
  {
    hide Do;
    hide Keeps;
    hide SavedAfter;
    if ops != [] {
      var before := ops[..|ops| - 1];
      ProductsAreAsSaved(cfg, w, before);
      DoAsSaved(cfg, Run(cfg, w, before), ops[|ops| - 1], Saved(cfg, w, before));
    }
  }

  /** The draft offers the product: published, and neither deprecated nor retired. */
  predicate Offers(draft: Draft) {
    draft.published && (draft.lifecycle.Some? ==> draft.lifecycle.value.Live?)
  }

  lemma UnofferedRequest(w: World, app: nat, product: nat, plan: nat, newKey: string)
    requires product in w.db.products && !(w.db.products[product].published && w.db.products[product].lifecycle.Live?)
    ensures var s := Subscribe(w, app, product, plan, newKey);
            && s.w == Tick(w)
            && s.r == Err(if ReadFails(w, 0) then StoreFailed
                          else if w.db.products[product].published then ProductDeprecated else NotFound)
  {
    hide Quieter;
    hide RecordRequest;
  }

  /** So in every run, whatever fails, a request for a product that was last saved otherwise
      is refused and changes nothing. */
  lemma UnofferedTakesNoRequest(cfg: Config, w: World, ops: seq<Op>, app: nat, product: nat, plan: nat, newKey: Key)
    requires Fresh(w) && product in Saved(cfg, w, ops) && !Offers(Saved(cfg, w, ops)[product])
    ensures var end := Run(cfg, w, ops);
            var s := Do(cfg, end, Request(app, product, plan, newKey));
            && s.r.Err? && s.w == Tick(end)
            && (product in end.db.products && !ReadFails(end, 0) ==>
                  s.r == Err(if Saved(cfg, w, ops)[product].published then ProductDeprecated else NotFound))
  {
    hide Run;
    hide Saved;
    hide Subscribe;
    ProductsAreAsSaved(cfg, w, ops);
    var end := Run(cfg, w, ops);
    if product in end.db.products {
      UnofferedRequest(end, app, product, plan, newKey);
    } else {
      MissingRequest(end, app, product, plan, newKey);
    }
  }

  lemma MissingRequest(w: World, app: nat, product: nat, plan: nat, newKey: string)
    requires product !in w.db.products
    ensures var s := Subscribe(w, app, product, plan, newKey); s.r.Err? && s.w == Tick(w)
  {
    hide Quieter;
    hide RecordRequest;
  }
}
