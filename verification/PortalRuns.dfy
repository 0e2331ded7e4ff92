/** The services at work: any sequence of operations performed on the objects is a run of
    the protocol, so that what holds of runs holds of the gateways the objects drive. */
module PortalRuns {
  import opened Common
  import opened Naming
  import opened Tables
  import Gateways
  import opened Services
  import opened Runs
  import P = Protocol
  import Safety
  import opened Guarantees

  function Done<T>(r: Result<T>): Result<()> {
    if r.Ok? then Ok(()) else Err(r.error)
  }

  /** One operation, as the handlers call the services. */
  method Perform(service: Service, op: Op) returns (r: Result<()>)
    requires service.Valid()
    modifies service.store, service.gw, service.sandboxGW
    ensures P.Step(service.World(), r) == Do(service.Cfg(), old(service.World()), op)
  {
    match op {
      case NewApplication(team) =>
        r := service.store.Write(Ok(service.store.db.CreateApplication(team)));
      case NewPlan(plan) =>
        r := service.store.Write(service.store.db.CreatePlan(plan));
      case NewProduct(_) => r := PerformAdmin(service, op);
      case EditProduct(_, _) => r := PerformAdmin(service, op);
      case RemoveProduct(_) => r := PerformAdmin(service, op);
      case EditPlan(_, _) => r := PerformAdmin(service, op);
      case Request(_, _, _, _) => r := PerformKeyed(service, op);
      case Rotate(_, _) => r := PerformKeyed(service, op);
      case OpenSandbox(_, _) => r := PerformKeyed(service, op);
      case RotateSandbox(_, _) => r := PerformKeyed(service, op);
      case Settle(invoice) => r := service.MarkPaid(invoice);
      case VoidInvoice(invoice) => r := service.Void(invoice);
      case _ => r := PerformPlain(service, op);
    }
  }

  /** The operations that answer with success or failure only. */
  method PerformPlain(service: Service, op: Op) returns (r: Result<()>)
    requires service.Valid() && (op.Grant? || op.Refuse? || op.Cancel? || op.RegisterClient? || op.RemoveApplication?)
    modifies service.store, service.gw, service.sandboxGW
    ensures P.Step(service.World(), r) == Do(service.Cfg(), old(service.World()), op)
  {
    hide P.Approve;
    hide P.Reject;
    hide P.Unsubscribe;
    hide P.SetOIDCClientID;
    hide P.DeleteApplication;
    match op {
      case Grant(sub, newKey) => r := service.Approve(sub, newKey);
      case Refuse(sub) => r := service.Reject(sub);
      case Cancel(app, product) => r := service.Unsubscribe(app, product);
      case RegisterClient(app, clientId) => r := service.SetOIDCClientID(app, clientId);
      case RemoveApplication(app) => r := service.DeleteApplication(app);
    }
  }

  /** Products and plans, behind the admin handlers' checks. */
  method PerformAdmin(service: Service, op: Op) returns (r: Result<()>)
    requires service.Valid() && (op.NewProduct? || op.EditProduct? || op.RemoveProduct? || op.EditPlan?)
    modifies service.store, service.gw, service.sandboxGW
    ensures P.Step(service.World(), r) == Do(service.Cfg(), old(service.World()), op)
  {
    hide P.CreateProduct;
    hide P.UpdateProduct;
    hide P.DeleteProduct;
    hide P.UpdatePlan;
    match op {
      case NewProduct(draft) =>
        if !Acceptable(service.Cfg(), draft) { return Err(BadRequest); }
        var product := service.CreateProduct(draft);
        r := Done(product);
      case EditProduct(id, draft) =>
        if !Acceptable(service.Cfg(), draft) { return Err(BadRequest); }
        var product := service.UpdateProduct(id, draft);
        r := Done(product);
      case RemoveProduct(id) => r := service.DeleteProduct(id);
      case EditPlan(id, plan) =>
        var edited := service.UpdatePlan(id, plan);
        r := Done(edited);
    }
  }

  /** The operations that answer with a key. */
  method PerformKeyed(service: Service, op: Op) returns (r: Result<()>)
    requires service.Valid() && (op.Request? || op.Rotate? || op.OpenSandbox? || op.RotateSandbox?)
    modifies service.store, service.gw, service.sandboxGW
    ensures P.Step(service.World(), r) == Do(service.Cfg(), old(service.World()), op)
  {
    hide P.Subscribe;
    hide P.RotateKey;
    hide P.EnableSandbox;
    hide P.RotateSandboxKey;
    match op {
      case Request(app, product, planId, newKey) =>
        var key := service.Subscribe(app, product, planId, newKey);
        r := Done(key);
      case Rotate(app, newKey) =>
        var key := service.RotateKey(app, newKey);
        r := Done(key);
      case OpenSandbox(app, newKey) =>
        var key := service.EnableSandbox(app, newKey);
        r := Done(key);
      case RotateSandbox(app, newKey) =>
        var key := service.RotateSandboxKey(app, newKey);
        r := Done(key);
    }
  }

  /** Any sequence of operations is a run. */
  method Serve(service: Service, ops: seq<Op>)
    requires service.Valid()
    modifies service.store, service.gw, service.sandboxGW
    ensures service.World() == Run(service.Cfg(), old(service.World()), ops)
  {
    for i := 0 to |ops|
      invariant service.World() == Run(service.Cfg(), old(service.World()), ops[..i])
    {
      ghost var before := service.World();
      var r := Perform(service, ops[i]);
      RunStep(service.Cfg(), old(service.World()), ops, i);
    }
    assert ops[..|ops|] == ops;
  }

  /** An active subscriber of a key-auth product that was never switched back from oauth2
      with somebody left out has a consumer, and the product's route lists it. */
  ghost predicate EverybodyServed(cfg: P.Config, start: P.World, ops: seq<Op>, db: Db, gw: Gateways.Live) {
    forall app: nat, product: nat ::
      && ActiveIn(db.subs, app, product) && product in db.products && db.products[product].auth.KeyAuth?
      && (forall k: nat :: !StrandedAt(cfg, start, ops, product, k)) ==>
        ConsumerName(app) in gw.consumers && KeyListed(gw, product, ConsumerName(app))
  }

  lemma RunServes(cfg: P.Config, w: P.World, ops: seq<Op>)
    requires Fresh(w)
    ensures EverybodyServed(cfg, w, ops, Run(cfg, w, ops).db, Run(cfg, w, ops).gw.live)
  {
    hide Run;
    hide StrandedAt;
    var end := Run(cfg, w, ops);
    forall app: nat, product: nat |
      && ActiveIn(end.db.subs, app, product) && product in end.db.products && end.db.products[product].auth.KeyAuth?
      && (forall k: nat :: !StrandedAt(cfg, w, ops, product, k))
      ensures ConsumerName(app) in end.gw.live.consumers && KeyListed(end.gw.live, product, ConsumerName(app))
    {
      ActiveMeansProvisioned(cfg, w, ops, app, product);
    }
  }

  function Scratch(faults: seq<P.StoreFault>, gwFaults: seq<bool>, sandboxFaults: seq<bool>): P.World {
    P.World(EMPTY_DB, faults, Gateways.State(Gateways.Live(map[], map[]), gwFaults),
            Gateways.State(Gateways.Live(map[], map[]), sandboxFaults))
  }

  /** A portal that starts empty and serves these operations, with whatever faults the
      tapes hold: its gateway object serves every active subscriber. */
  method ServeFromScratch(issuer: string, claim: string, sandboxOn: bool,
                          faults: seq<P.StoreFault>, gwFaults: seq<bool>, sandboxFaults: seq<bool>, ops: seq<Op>)
    returns (service: Service)
    ensures fresh(service) && service.Valid() && service.Cfg() == P.Config(issuer, claim, sandboxOn)
    ensures EverybodyServed(P.Config(issuer, claim, sandboxOn), Scratch(faults, gwFaults, sandboxFaults), ops,
                            service.store.db, Gateways.Live(service.gw.consumers, service.gw.routes))
  {
    hide EverybodyServed;
    hide Run;
    var store := new Store(EMPTY_DB, faults);
    var gw := new Gateways.Gateway(gwFaults);
    var sandboxGW := new Gateways.Gateway(sandboxFaults);
    service := new Service(store, gw, sandboxGW);
    service.ConfigureOIDC(issuer, claim);
    service.SetSandboxEnabled(sandboxOn);
    assert service.World() == Scratch(faults, gwFaults, sandboxFaults);
    Serve(service, ops);
    RunServes(service.Cfg(), Scratch(faults, gwFaults, sandboxFaults), ops);
  }
}
