/** The refinement over whole runs. The history names the products whose route may be
    behind the database; every other route is exactly the projection, whatever fails, and
    without faults the history is exact. */
module ReconciledRuns {
  import opened Common
  import opened Naming
  import opened Tables
  import opened Protocol
  import opened Runs
  import opened Integrity
  import opened Safety
  import opened Guarantees
  import opened Gateways
  import opened Reconciliation
  import opened Effects
  import opened OperationEffects
  import opened Outcomes

  /** The operation left tables and gateways as they were. */
  predicate Unchanged(w: World, next: World) {
    next.db == w.db && next.gw.live == w.gw.live && next.sandbox.live == w.sandbox.live
  }

  /** The products whose route one more operation leaves behind: those that gain a caller
      without a rebuild; and, if it fails before it is through with this gateway's routes or
      overlooks a failed query, those it set out to rebuild and did not reach. The ones it
      has rebuilt go off the list. */
  ghost function BehindAfter(side: Side, cfg: Config, w: World, op: Op, behind: set<nat>): set<nat> {
    var s := Do(cfg, w, op);
    var late := Late(side, w.db, s.w.db, op);
    if Through(side, cfg, w, op) && !Overlooked(side, w, op) then behind - Rebuilt(side, w.db, op) + late
    else if Unchanged(w, s.w) then behind
    else behind + Touched(side, w.db, op) - Reached(side, cfg, w, op) + late
  }

  ghost function Behind(side: Side, cfg: Config, w: World, ops: seq<Op>): set<nat> {
    if ops == [] then {}
    else
      var before := ops[..|ops| - 1];
      BehindAfter(side, cfg, Run(cfg, w, before), ops[|ops| - 1], Behind(side, cfg, w, before))
  }

  /** A product that is not behind has exactly the route its subscribers call for, and one
      that does not exist has none. */
  ghost predicate UpToDate(side: Side, w: World, behind: set<nat>) {
    forall p: nat :: p !in behind ==>
      if p in w.db.products then Reconciled(side, w.db, RoutesOf(side, w), p) else RouteID(p) !in RoutesOf(side, w)
  }

  // ---- one operation

  /** A product the operation did not touch, or finished without a rebuild. */
  lemma UntouchedUpToDate(side: Side, w: World, next: World, touched: set<nat>, late: set<nat>, p: nat)
    requires Covered(side, w, next, touched, late) && p !in touched && p !in late
    requires if p in w.db.products then Reconciled(side, w.db, RoutesOf(side, w), p)
             else RouteID(p) !in RoutesOf(side, w)
    ensures if p in next.db.products then Reconciled(side, next.db, RoutesOf(side, next), p)
            else RouteID(p) !in RoutesOf(side, next)
  {
    hide Caller;
    hide Audience;
    if p in w.db.products || p in next.db.products {
      if SameView(side, w.db, next.db, p) {
        KeptStays(side, w.db, next.db, RoutesOf(side, w), RoutesOf(side, next), p);
      }
    }
  }

  lemma RemovedUpToDate(side: Side, cfg: Config, w: World, op: Op)
    requires op.RemoveProduct? && DoneRight(side, cfg, w, op) && Do(cfg, w, op).r.Ok?
    requires Reconciled(side, w.db, RoutesOf(side, w), op.id)
    ensures op.id !in Do(cfg, w, op).w.db.products && RouteID(op.id) !in RoutesOf(side, Do(cfg, w, op).w)
  {
    hide Covered;
    hide Finished;
    hide DeleteProduct;
    hide Audience;
  }

  lemma DoUpToDate(side: Side, cfg: Config, w: World, op: Op, behind: set<nat>)
    requires Sound(w.db) && cfg.issuer != "" && On(cfg, side) && UpToDate(side, w, behind)
    ensures UpToDate(side, Do(cfg, w, op).w, BehindAfter(side, cfg, w, op, behind))
  {
    hide Sound;
    hide Do;
    hide Reconciled;
    hide Kept;
    hide Covered;
    hide Touched;
    hide Rebuilt;
    hide Late;
    hide Reached;
    hide Through;
    hide Overlooked;
    DoEffect(side, cfg, w, op);
    var s := Do(cfg, w, op);
    var touched, late, after := Touched(side, w.db, op), Late(side, w.db, s.w.db, op),
        BehindAfter(side, cfg, w, op, behind);
    if Through(side, cfg, w, op) && !Overlooked(side, w, op) {
      forall p: nat | p !in after
        ensures if p in s.w.db.products then Reconciled(side, s.w.db, RoutesOf(side, s.w), p)
                else RouteID(p) !in RoutesOf(side, s.w)
      {
        if p !in touched {
          RebuiltIsTouched(side, w.db, op);
          UntouchedUpToDate(side, w, s.w, touched, late, p);
        } else {
          TouchedUpToDate(side, cfg, w, op, behind, p);
        }
      }
    } else if !Unchanged(w, s.w) {
      forall p: nat | p !in after
        ensures if p in s.w.db.products then Reconciled(side, s.w.db, RoutesOf(side, s.w), p)
                else RouteID(p) !in RoutesOf(side, s.w)
      {
        if p !in Reached(side, cfg, w, op) {
          UntouchedUpToDate(side, w, s.w, touched, late, p);
        }
      }
    }
  }

  lemma RebuiltIsTouched(side: Side, db: Db, op: Op)
    ensures Rebuilt(side, db, op) <= Touched(side, db, op)
  {
  }

  /** A success leaves a touched product rebuilt, kept or removed. */
  lemma TouchedUpToDate(side: Side, cfg: Config, w: World, op: Op, behind: set<nat>, p: nat)
    requires DoneRight(side, cfg, w, op) && Through(side, cfg, w, op) && !Overlooked(side, w, op)
    requires UpToDate(side, w, behind) && p in Touched(side, w.db, op) && p !in behind - Rebuilt(side, w.db, op)
    ensures var next := Do(cfg, w, op).w;
            if p in next.db.products then Reconciled(side, next.db, RoutesOf(side, next), p)
            else RouteID(p) !in RoutesOf(side, next)
  {
    hide Do;
    hide Covered;
    hide Kept;
    hide Reconciled;
    hide Overlooked;
    var next := Do(cfg, w, op).w;
    if op.RemoveProduct? {
      RemovedUpToDate(side, cfg, w, op);
    } else if p !in Rebuilt(side, w.db, op) {
      KeptExists(side, w.db, next.db, RoutesOf(side, w), RoutesOf(side, next), p);
      KeptStays(side, w.db, next.db, RoutesOf(side, w), RoutesOf(side, next), p);
    }
  }

  lemma KeptExists(side: Side, db: Db, next: Db, routes: map<string, Route>, nextRoutes: map<string, Route>,
                   product: nat)
    requires Kept(side, db, next, routes, nextRoutes, product)
    ensures product in db.products && product in next.products
  {
  }

  // ---- all runs, whatever fails

  lemma RunSound(cfg: Config, w: World, ops: seq<Op>)
    requires Fresh(w)
    ensures Sound(Run(cfg, w, ops).db)
  {
    hide Safe;
    RunSafe(cfg, w, ops);
  }

  lemma {:induction false} RunUpToDate(side: Side, cfg: Config, w: World, ops: seq<Op>)
    requires Fresh(w) && cfg.issuer != "" && On(cfg, side)
    ensures UpToDate(side, Run(cfg, w, ops), Behind(side, cfg, w, ops))
  {
    hide Do;
    hide Reconciled;
    hide Sound;
    hide BehindAfter;
    if ops != [] {
      var before := ops[..|ops| - 1];
      RunUpToDate(side, cfg, w, before);
      RunSound(cfg, w, before);
      DoUpToDate(side, cfg, Run(cfg, w, before), ops[|ops| - 1], Behind(side, cfg, w, before));
    }
  }

  // ---- what a reader of the gateways sees

  /** In every run, whatever fails, the routes of the products that are not behind are
      exact, and a deleted product that is not behind has left no route. */
  lemma RoutesStayTrue(side: Side, cfg: Config, w: World, ops: seq<Op>, product: nat)
    requires Fresh(w) && cfg.issuer != "" && On(cfg, side) && product !in Behind(side, cfg, w, ops)
    ensures var end := Run(cfg, w, ops);
            if product in end.db.products then Reconciled(side, end.db, RoutesOf(side, end), product)
            else RouteID(product) !in RoutesOf(side, end)
  {
    hide Run;
    hide Behind;
    hide Reconciled;
    RunUpToDate(side, cfg, w, ops);
  }

  /** Every name on a route that is not behind is a caller with an active subscription:
      of a deleted application neither the consumer nor the client id is left there. */
  lemma ListedMeansSubscribed(side: Side, cfg: Config, w: World, ops: seq<Op>, product: nat, name: string)
    requires Fresh(w) && cfg.issuer != "" && On(cfg, side) && product !in Behind(side, cfg, w, ops)
    requires var routes := RoutesOf(side, Run(cfg, w, ops));
             RouteID(product) in routes && name in routes[RouteID(product)].allowed
    ensures exists app: nat :: var db := Run(cfg, w, ops).db;
              app in db.apps && ActiveIn(db.subs, app, product) && Caller(side, db, product, app) == Some(name)
  {
    hide Run;
    hide Behind;
    hide Audience;
    RoutesStayTrue(side, cfg, w, ops, product);
    RunSound(cfg, w, ops);
    var end := Run(cfg, w, ops);
    AudienceMembers(side, end.db, product);
    assert name in Names(RoutesOf(side, end)[RouteID(product)].allowed);
  }

  /** Once an application has been deleted, the routes that are not behind list nobody but
      others: no client id is left there on its account, whatever happened before or since. */
  lemma DeletedIsUnlisted(side: Side, cfg: Config, w: World, before: seq<Op>, app: nat, after: seq<Op>,
                          product: nat, name: string)
    requires Fresh(w) && cfg.issuer != "" && On(cfg, side)
    requires app in Run(cfg, w, before).db.apps && Do(cfg, Run(cfg, w, before), RemoveApplication(app)).r.Ok?
    requires var ops := before + [RemoveApplication(app)] + after;
             var routes := RoutesOf(side, Run(cfg, w, ops));
             && product !in Behind(side, cfg, w, ops)
             && RouteID(product) in routes && name in routes[RouteID(product)].allowed
    ensures var db := Run(cfg, w, before + [RemoveApplication(app)] + after).db;
            exists a: nat ::
              a != app && a in db.apps && ActiveIn(db.subs, a, product) && Caller(side, db, product, a) == Some(name)
  {
    hide Run;
    hide Do;
    hide Behind;
    hide Caller;
    DeletedMeansCutOff(cfg, w, before, app, after);
    ListedMeansSubscribed(side, cfg, w, before + [RemoveApplication(app)] + after, product, name);
  }

  /** A retry converges: after any run with any faults, an operation that meets no fault
      and is not refused reconciles every route it sets out to rebuild. */
  lemma RetryConverges(side: Side, cfg: Config, w: World, ops: seq<Op>, op: Op, product: nat)
    requires Fresh(w) && cfg.issuer != "" && On(cfg, side)
    requires product in Rebuilt(side, Run(cfg, w, ops).db, op)
    ensures var s := Do(cfg, Calmed(Run(cfg, w, ops)), op);
            s.r.Ok? ==> Settled(side, s.w, product)
  {
    hide Run;
    hide Do;
    hide Sound;
    hide Covered;
    hide Reconciled;
    hide Kept;
    hide Touched;
    hide Rebuilt;
    RunSound(cfg, w, ops);
    var start := Calmed(Run(cfg, w, ops));
    DoEffect(side, cfg, start, op);
    RebuiltIsTouched(side, start.db, op);
    RemovalRebuildsNothing(side, start.db, op);
  }

  lemma RemovalRebuildsNothing(side: Side, db: Db, op: Op)
    ensures op.RemoveProduct? ==> Rebuilt(side, db, op) == {}
  {
  }

  /** The same tables and gateways, with no fault ahead. */
  function Calmed(w: World): World {
    w.(faults := [], gw := w.gw.(faults := []), sandbox := w.sandbox.(faults := []))
  }

  /** In particular an approval, a rejection or a cancellation can always be repeated to
      bring the product's production route up to date. */
  lemma ApprovalConverges(cfg: Config, w: World, ops: seq<Op>, op: Op)
    requires Fresh(w) && cfg.issuer != ""
    requires var db := Run(cfg, w, ops).db;
             || ((op.Grant? || op.Refuse?) && Approvable(db, op.sub))
             || (op.Cancel? && op.product in db.products)
    ensures var start, s := Run(cfg, w, ops), Do(cfg, Calmed(Run(cfg, w, ops)), op);
            var product := if op.Cancel? then op.product else start.db.subIds[op.sub].product;
            s.r.Ok? && Settled(Production, s.w, product)
  {
    hide Run;
    hide Sound;
    hide Reconciled;
    hide Approve;
    hide Reject;
    hide Unsubscribe;
    RunSound(cfg, w, ops);
    var start := Calmed(Run(cfg, w, ops));
    match op {
      case Grant(sub, newKey) => ApproveOutcome(cfg, start, sub, newKey);
      case Refuse(sub) => RejectOutcome(cfg, start, sub);
      case Cancel(app, product) => UnsubscribeOutcome(cfg, start, app, product);
      case _ =>
    }
    RetryConverges(Production, cfg, w, ops, op, if op.Cancel? then op.product else start.db.subIds[op.sub].product);
  }
}
