/** Runs without faults. What is behind is short of a caller, so that the history tells
    exactly which routes are the projection of the database; and without faults the
    history can be told from the tables alone. */
module CalmRuns {
  import opened Common
  import opened Naming
  import opened Tables
  import opened Protocol
  import opened Runs
  import opened Integrity
  import opened Safety
  import opened Guarantees
  import opened Gateways
  import opened Reconciliation
  import opened Effects
  import opened OperationEffects
  import opened Outcomes
  import opened PlanEdits
  import opened ReconciledRuns

  /** A product that is behind lacks one of its callers. */
  ghost predicate AllShort(side: Side, w: World, behind: set<nat>) {
    forall p: nat :: p in behind ==> Short(side, w.db, RoutesOf(side, w), p)
  }

  /** A product left behind stays short until it is rebuilt. */
  lemma BehindStaysShort(side: Side, cfg: Config, w: World, op: Op, behind: set<nat>, p: nat)
    requires DoneRight(side, cfg, w, op) && Do(cfg, w, op).r.Ok? && !Overlooked(side, w, op)
    requires UpToDate(side, w, behind) && AllShort(side, w, behind)
    requires p in BehindAfter(side, cfg, w, op, behind)
    ensures Short(side, Do(cfg, w, op).w.db, RoutesOf(side, Do(cfg, w, op).w), p)
  {
    hide Do;
    hide Kept;
    hide SameView;
    hide Joined;
    hide Short;
    hide New;
    hide SameRoute;
    hide Reconciled;
    hide Overlooked;
    hide Touched;
    hide Rebuilt;
    hide Late;
    var next := Do(cfg, w, op).w;
    var touched, late := Touched(side, w.db, op), Late(side, w.db, next.db, op);
    LateIsNotTouched(side, w.db, next.db, op);
    ShortExists(side, w, behind);
    if p in late {
      LateExists(side, w, next, touched, late, p);
      JoinedIsShort(side, w.db, next.db, RoutesOf(side, w), RoutesOf(side, next), p);
    } else if p in touched {
      if op.RemoveProduct? {
        RemovedWasNotShort(side, cfg, w, op, p);
      } else {
        KeptStays(side, w.db, next.db, RoutesOf(side, w), RoutesOf(side, next), p);
      }
    } else {
      ViewedIsKept(side, w, next, p);
      KeptStays(side, w.db, next.db, RoutesOf(side, w), RoutesOf(side, next), p);
    }
  }

  lemma ShortExists(side: Side, w: World, behind: set<nat>)
    requires AllShort(side, w, behind)
    ensures forall p :: p in behind ==> p in w.db.products
  {
  }

  lemma LateExists(side: Side, w: World, next: World, touched: set<nat>, late: set<nat>, p: nat)
    requires Covered(side, w, next, touched, late) && p in late && p !in touched && p in w.db.products
    ensures Joined(side, w.db, next.db, p) && SameRoute(RoutesOf(side, w), RoutesOf(side, next), p)
  {
  }

  lemma LateIsNotTouched(side: Side, db: Db, next: Db, op: Op)
    ensures Late(side, db, next, op) !! Touched(side, db, op)
    ensures forall p :: p in Late(side, db, next, op) ==> p in db.products
  {
  }

  lemma ViewedIsKept(side: Side, w: World, next: World, p: nat)
    requires p in w.db.products && SameRoute(RoutesOf(side, w), RoutesOf(side, next), p)
    requires SameView(side, w.db, next.db, p) || New(side, w.db, next.db, p)
    ensures Kept(side, w.db, next.db, RoutesOf(side, w), RoutesOf(side, next), p)
  {
  }

  lemma RemovedWasNotShort(side: Side, cfg: Config, w: World, op: Op, p: nat)
    requires DoneRight(side, cfg, w, op) && Do(cfg, w, op).r.Ok? && op.RemoveProduct? && p in Touched(side, w.db, op)
    ensures !Short(side, w.db, RoutesOf(side, w), p)
  {
    hide Do;
    hide Covered;
    hide Audience;
    if Short(side, w.db, RoutesOf(side, w), p) {
      ShortIsNotReconciled(side, w.db, RoutesOf(side, w), p);
    }
  }

  /** Without faults an operation gets through or is refused. */
  lemma ThroughIsAccepted(side: Side, cfg: Config, w: World, op: Op)
    requires Ready(cfg, w)
    ensures Through(side, cfg, w, op) <==> Accepted(cfg, w.db, op)
    ensures Do(cfg, w, op).r.Ok? <==> Accepted(cfg, w.db, op)
  {
    hide Sound;
    hide Do;
    hide Editable;
    hide EditRow;
    hide RebuildEdited;
    hide UnsubscribeAll;
    hide ReprovisionRoute;
    hide ActivateOAuth;
    hide ActivateKeyAuth;
    hide KeyAuthHalf;
    AcceptedExactly(cfg, w, op);
    match op
    case Cancel(app, product) =>
      ReprovisionNeedsProduct(cfg, Tick(w).(db := w.db.DeleteSubscription(app, product)), product);
    case EditProduct(id, draft) => EditRowOutcome(w, id, draft);
    case _ =>
  }

  /** Without faults: what is not behind is up to date, and what is behind is short. */
  lemma DoExact(side: Side, cfg: Config, w: World, op: Op, behind: set<nat>)
    requires Ready(cfg, w) && On(cfg, side) && UpToDate(side, w, behind) && AllShort(side, w, behind)
    ensures var next, after := Do(cfg, w, op).w, BehindAfter(side, cfg, w, op, behind);
            UpToDate(side, next, after) && AllShort(side, next, after)
  {
    hide Sound;
    hide Do;
    hide Short;
    hide UpToDate;
    hide DoneRight;
    hide Late;
    hide Touched;
    hide Rebuilt;
    hide Through;
    hide Accepted;
    ThroughIsAccepted(side, cfg, w, op);
    DoUpToDate(side, cfg, w, op, behind);
    AcceptedExactly(cfg, w, op);
    DoEffect(side, cfg, w, op);
    var s, after := Do(cfg, w, op), BehindAfter(side, cfg, w, op, behind);
    if s.r.Ok? {
      forall p | p in after ensures Short(side, s.w.db, RoutesOf(side, s.w), p) {
        BehindStaysShort(side, cfg, w, op, behind, p);
      }
    }
  }

  lemma {:induction false} RunExact(side: Side, cfg: Config, w: World, ops: seq<Op>)
    requires Fresh(w) && Calm(w) && cfg.issuer != "" && On(cfg, side)
    ensures var end, behind := Run(cfg, w, ops), Behind(side, cfg, w, ops);
            Calm(end) && UpToDate(side, end, behind) && AllShort(side, end, behind)
  {
    hide Do;
    hide Sound;
    hide Reconciled;
    hide Short;
    hide BehindAfter;
    if ops != [] {
      var before := ops[..|ops| - 1];
      RunExact(side, cfg, w, before);
      RunSound(cfg, w, before);
      DoExact(side, cfg, Run(cfg, w, before), ops[|ops| - 1], Behind(side, cfg, w, before));
    }
  }

  // ---- the history, told from the tables

  /** The key-auth products the application is active on. */
  ghost function KeyAuthProducts(db: Db, app: nat): set<nat> {
    set q | q in db.products && db.products[q].auth.KeyAuth? && db.Active(app, q)
  }

  /** The products to which the operation, if accepted, gives a caller without rebuilding
      their route: with its first credential an application may call every key-auth product
      it is active on, and an oauth2 approval does not look at the sandbox. */
  ghost function Joins(side: Side, db: Db, op: Op): set<nat> {
    match op
    case Request(app, product, _, _) =>
      if side.Production? && product in db.products && db.products[product].auth.KeyAuth? && app !in db.creds
      then KeyAuthProducts(db, app) else {}
    case Grant(sub, _) =>
      if sub !in db.subIds || db.subIds[sub].product !in db.products then {}
      else
        var k, p := db.subIds[sub], db.products[db.subIds[sub].product];
        if side.Production? then
          if p.auth.KeyAuth? && k.app !in db.creds then KeyAuthProducts(db, k.app) - {k.product} else {}
        else if p.auth.OAuth2? && p.sandboxUpstream != "" && HoldsSandboxKey(db, k.app) && !db.Active(k.app, k.product)
        then {k.product} else {}
    case _ => {}
  }

  /** Operation k was accepted and gave the product a caller its route does not know of. */
  ghost predicate JoinedAt(side: Side, cfg: Config, w: World, ops: seq<Op>, product: nat, k: nat) {
    k < |ops| && var db := Run(cfg, w, ops[..k]).db; Accepted(cfg, db, ops[k]) && product in Joins(side, db, ops[k])
  }

  /** Operation k was accepted and rebuilt the product's route. */
  ghost predicate RebuiltAt(side: Side, cfg: Config, w: World, ops: seq<Op>, product: nat, k: nat) {
    k < |ops| && var db := Run(cfg, w, ops[..k]).db; Accepted(cfg, db, ops[k]) && product in Rebuilt(side, db, ops[k])
  }

  /** A caller joined, and the route has not been rebuilt since. */
  ghost predicate LeftBehind(side: Side, cfg: Config, w: World, ops: seq<Op>, product: nat) {
    exists k: nat ::
      JoinedAt(side, cfg, w, ops, product, k) && forall j: nat :: k < j ==> !RebuiltAt(side, cfg, w, ops, product, j)
  }

  lemma LateIsJoins(side: Side, cfg: Config, w: World, op: Op)
    requires Ready(cfg, w) && Accepted(cfg, w.db, op)
    ensures Late(side, w.db, Do(cfg, w, op).w.db, op) == Joins(side, w.db, op)
  {
    hide Sound;
    hide Quieter;
    hide Subscribe;
    hide Approve;
    match op
    case Request(app, product, planId, newKey) => SubscribeOutcome(w, app, product, planId, newKey);
    case Grant(sub, newKey) => GrantedLate(side, cfg, w, sub, newKey);
    case _ =>
  }

  lemma GrantedLate(side: Side, cfg: Config, w: World, sub: nat, newKey: Key)
    requires Ready(cfg, w) && Approvable(w.db, sub)
    ensures Late(side, w.db, Approve(cfg, w, sub, newKey).w.db, Grant(sub, newKey))
            == Joins(side, w.db, Grant(sub, newKey))
  {
    hide Sound;
    hide Approve;
    SubscriptionExists(w.db, sub);
    ApproveOutcome(cfg, w, sub, newKey);
    ApprovedCredential(cfg, w, sub, newKey);
  }

  /** A key-auth approval leaves a credential, an oauth2 approval none that was not there. */
  lemma ApprovedCredential(cfg: Config, w: World, sub: nat, newKey: Key)
    requires Ready(cfg, w) && Approvable(w.db, sub)
    ensures var end, k := Approve(cfg, w, sub, newKey).w.db, w.db.subIds[sub];
            && k.product in w.db.products
            && (if w.db.products[k.product].auth.OAuth2? then end.creds == w.db.creds else k.app in end.creds)
  {
    hide Sound;
    hide Quieter;
    hide ActivateOAuth;
    hide ActivateKeyAuth;
    hide SubscriptionActivated;
    SubscriptionExists(w.db, sub);
    var rec := w.db.GetSubscription(sub).value;
    OAuthKeepsTables(cfg, w, sub, rec);
    ApproveOutcome(cfg, w, sub, newKey);
    ApprovalAppliesPlan(cfg, w, sub, newKey);
  }

  /** Without faults the history is what the accepted operations asked for. */
  lemma {:induction false} BehindIsLeftBehind(side: Side, cfg: Config, w: World, ops: seq<Op>, product: nat)
    requires Fresh(w) && Calm(w) && cfg.issuer != "" && On(cfg, side)
    ensures product in Behind(side, cfg, w, ops) <==> LeftBehind(side, cfg, w, ops, product)
  {
    hide Do;
    hide Late;
    hide Joins;
    hide Rebuilt;
    hide Touched;
    hide Through;
    hide Accepted;
    hide Sound;
    hide UpToDate;
    hide AllShort;
    if ops != [] {
      var n := |ops| - 1;
      var before := ops[..n];
      BehindIsLeftBehind(side, cfg, w, before, product);
      RunExact(side, cfg, w, before);
      RunSound(cfg, w, before);
      AcceptedExactly(cfg, Run(cfg, w, before), ops[n]);
      ThroughIsAccepted(side, cfg, Run(cfg, w, before), ops[n]);
      if Accepted(cfg, Run(cfg, w, before).db, ops[n]) {
        LateIsJoins(side, cfg, Run(cfg, w, before), ops[n]);
      }
      OneMore(side, cfg, w, ops, product);
    }
  }

  /** The last operation adds to the history, or takes off it, or neither. */
  lemma OneMore(side: Side, cfg: Config, w: World, ops: seq<Op>, product: nat)
    requires ops != []
    ensures var n := |ops| - 1;
            LeftBehind(side, cfg, w, ops, product) <==>
              || JoinedAt(side, cfg, w, ops, product, n)
              || (LeftBehind(side, cfg, w, ops[..n], product) && !RebuiltAt(side, cfg, w, ops, product, n))
  {
    hide Run;
    hide Joins;
    hide Rebuilt;
    hide Accepted;
    var n := |ops| - 1;
    var before := ops[..n];
    forall k: nat | k < n
      ensures JoinedAt(side, cfg, w, ops, product, k) <==> JoinedAt(side, cfg, w, before, product, k)
      ensures RebuiltAt(side, cfg, w, ops, product, k) <==> RebuiltAt(side, cfg, w, before, product, k)
    {
      assert before[..k] == ops[..k];
    }
  }

  // ---- the path

  /** Operation k was the last one that rebuilt the product's route. */
  ghost predicate LastRebuiltAt(side: Side, cfg: Config, w: World, ops: seq<Op>, product: nat, k: nat) {
    RebuiltAt(side, cfg, w, ops, product, k) && forall j: nat :: k < j ==> !RebuiltAt(side, cfg, w, ops, product, j)
  }

  /** The product's path after operation k. */
  function PathAfter(cfg: Config, w: World, ops: seq<Op>, product: nat, k: nat): string
    requires k < |ops|
  {
    var db := Run(cfg, w, ops[..k + 1]).db;
    if product in db.products then db.products[product].contextPath else ""
  }

  /** An accepted operation rebuilds a route with the new path, or leaves it alone. */
  lemma RouteStep(side: Side, cfg: Config, w: World, op: Op, product: nat)
    requires Ready(cfg, w) && On(cfg, side) && product in Do(cfg, w, op).w.db.products
    ensures var next := Do(cfg, w, op).w;
            if Accepted(cfg, w.db, op) && product in Rebuilt(side, w.db, op)
            then OnPath(RoutesOf(side, next), product, next.db.products[product].contextPath)
            else SameRoute(RoutesOf(side, w), RoutesOf(side, next), product)
  {
    hide Sound;
    hide Do;
    hide Accepted;
    hide Touched;
    hide Rebuilt;
    hide SameDemand;
    hide Idle;
    hide Reconciled;
    hide Joined;
    hide New;
    hide Audience;
    AcceptedExactly(cfg, w, op);
    DoEffect(side, cfg, w, op);
    RemovalTouchesOne(side, w.db, op);
    CalmOverlooksNothing(side, cfg, w, op);
  }

  lemma RemovalTouchesOne(side: Side, db: Db, op: Op)
    ensures op.RemoveProduct? ==> Touched(side, db, op) <= {op.id}
    ensures Rebuilt(side, db, op) <= Touched(side, db, op)
  {
  }

  lemma CalmOverlooksNothing(side: Side, cfg: Config, w: World, op: Op)
    requires Ready(cfg, w)
    ensures !Overlooked(side, w, op)
  {
    hide Sound;
  }

  /** In every run without faults a route serves the path that its product had when it was
      rebuilt last. */
  lemma {:induction false} RouteServesLastPath(side: Side, cfg: Config, w: World, ops: seq<Op>, product: nat)
    requires Fresh(w) && Calm(w) && cfg.issuer != "" && On(cfg, side)
    requires var end := Run(cfg, w, ops); product in end.db.products && RouteID(product) in RoutesOf(side, end)
    ensures exists k: nat :: LastRebuiltAt(side, cfg, w, ops, product, k)
                             && RoutesOf(side, Run(cfg, w, ops))[RouteID(product)].uri
                                 == PathAfter(cfg, w, ops, product, k)
  {
    hide Do;
    hide Accepted;
    hide Rebuilt;
    hide Sound;
    hide AllShort;
    hide Reconciled;
    if ops == [] {
      assert false;
    } else {
      var n := |ops| - 1;
      var before := ops[..n];
      var w1 := Run(cfg, w, before);
      RunExact(side, cfg, w, before);
      RunSound(cfg, w, before);
      RouteStep(side, cfg, w1, ops[n], product);
      if RebuiltAt(side, cfg, w, ops, product, n) {
        assert ops[..n + 1] == ops;
        assert LastRebuiltAt(side, cfg, w, ops, product, n);
      } else {
        ShortExists(side, w1, Behind(side, cfg, w, before));
        RouteServesLastPath(side, cfg, w, before, product);
        var k: nat :| LastRebuiltAt(side, cfg, w, before, product, k)
                      && RoutesOf(side, w1)[RouteID(product)].uri == PathAfter(cfg, w, before, product, k);
        StillLast(side, cfg, w, ops, product, k);
      }
    }
  }

  lemma StillLast(side: Side, cfg: Config, w: World, ops: seq<Op>, product: nat, k: nat)
    requires ops != [] && !RebuiltAt(side, cfg, w, ops, product, |ops| - 1)
    requires LastRebuiltAt(side, cfg, w, ops[..|ops| - 1], product, k)
    ensures LastRebuiltAt(side, cfg, w, ops, product, k) && k < |ops| - 1
    ensures PathAfter(cfg, w, ops, product, k) == PathAfter(cfg, w, ops[..|ops| - 1], product, k)
  {
    hide Run;
    hide Accepted;
    hide Rebuilt;
    var n := |ops| - 1;
    var before := ops[..n];
    assert before[..k + 1] == ops[..k + 1];
    forall j: nat | j < n
      ensures RebuiltAt(side, cfg, w, ops, product, j) <==> RebuiltAt(side, cfg, w, before, product, j)
    {
      assert before[..j] == ops[..j];
    }
  }

  /** The path was changed after the route was rebuilt last, and not back. */
  ghost predicate PathLags(side: Side, cfg: Config, w: World, ops: seq<Op>, product: nat) {
    exists k: nat :: LastRebuiltAt(side, cfg, w, ops, product, k)
                     && PathAfter(cfg, w, ops, product, k) != PathAfter(cfg, w, ops, product, |ops| - 1)
  }

  /** Somebody may call the product on this gateway. */
  ghost predicate Wanted(side: Side, db: Db, product: nat)
    requires product in db.products
  {
    !Closed(side, db.products[product]) && Audience(side, db, product) != {}
  }

  // ---- what a reader of the gateways sees

  /** In every run without faults a product's route is the projection of the database, its
      path aside, exactly unless a caller joined it and no later operation rebuilt it; and
      nothing else has a route. */
  lemma ReconciledExactlyWhen(side: Side, cfg: Config, w: World, ops: seq<Op>, product: nat)
    requires Fresh(w) && Calm(w) && cfg.issuer != "" && On(cfg, side)
    ensures var end := Run(cfg, w, ops);
            if product in end.db.products then
              Reconciled(side, end.db, RoutesOf(side, end), product) <==> !LeftBehind(side, cfg, w, ops, product)
            else RouteID(product) !in RoutesOf(side, end)
  {
    hide Run;
    hide Behind;
    hide LeftBehind;
    hide Reconciled;
    hide Short;
    RunExact(side, cfg, w, ops);
    BehindIsLeftBehind(side, cfg, w, ops, product);
    var end := Run(cfg, w, ops);
    if product in Behind(side, cfg, w, ops) {
      ShortExists(side, end, Behind(side, cfg, w, ops));
      ShortIsNotReconciled(side, end.db, RoutesOf(side, end), product);
    }
  }

  /** In every run without faults a product's route exists, lists its subscribers, leads to
      its backend and serves its path exactly as the database asks for, exactly if no caller
      joined it since it was rebuilt last, and its path has not changed since, or nobody may
      call it; and nothing else has a route. All of this is told from the tables. */
  lemma GatewaysMirrorTheDatabase(side: Side, cfg: Config, w: World, ops: seq<Op>, product: nat)
    requires Fresh(w) && Calm(w) && cfg.issuer != "" && On(cfg, side)
    ensures var end := Run(cfg, w, ops);
            if product in end.db.products then
              Settled(side, end, product) <==>
                !LeftBehind(side, cfg, w, ops, product)
                && !(PathLags(side, cfg, w, ops, product) && Wanted(side, end.db, product))
            else RouteID(product) !in RoutesOf(side, end)
  {
    hide Run;
    hide LeftBehind;
    hide Audience;
    hide RebuiltAt;
    ReconciledExactlyWhen(side, cfg, w, ops, product);
    var end := Run(cfg, w, ops);
    if product in end.db.products && RouteID(product) in RoutesOf(side, end) {
      RouteServesLastPath(side, cfg, w, ops, product);
      NotEmptyRun(cfg, w, ops, product);
    }
  }

  lemma NotEmptyRun(cfg: Config, w: World, ops: seq<Op>, product: nat)
    requires Fresh(w) && product in Run(cfg, w, ops).db.products
    ensures ops != [] && PathAfter(cfg, w, ops, product, |ops| - 1) == Run(cfg, w, ops).db.products[product].contextPath
  {
    hide Do;
    assert ops[..|ops|] == ops;
  }

  /** In production, without faults, only a switch back to key-auth that strands somebody
      can leave a product behind. */
  lemma OnlySwitchesLeaveBehind(cfg: Config, w: World, ops: seq<Op>, product: nat)
    requires Fresh(w) && Calm(w) && cfg.issuer != "" && LeftBehind(Production, cfg, w, ops, product)
    ensures exists k: nat :: StrandedAt(cfg, w, ops, product, k)
  {
    hide Run;
    hide Behind;
    hide Past;
    hide Sound;
    hide OnlyApproved;
    hide SandboxListing;
    RunExact(Production, cfg, w, ops);
    BehindIsLeftBehind(Production, cfg, w, ops, product);
    RunSafe(cfg, w, ops);
    PastIsWhatHappened(cfg, w, ops);
    var end := Run(cfg, w, ops);
    assert Short(Production, end.db, end.gw.live.routes, product);
    var a: nat :| && Caller(Production, end.db, product, a).Some?
                  && !(RouteID(product) in end.gw.live.routes
                       && Caller(Production, end.db, product, a).value in end.gw.live.routes[RouteID(product)].allowed);
  }

  /** Hence without such a switch its production route is exact. */
  lemma ProductionRouteIsExact(cfg: Config, w: World, ops: seq<Op>, product: nat)
    requires Fresh(w) && Calm(w) && cfg.issuer != "" && forall k: nat :: !StrandedAt(cfg, w, ops, product, k)
    requires product in Run(cfg, w, ops).db.products
    ensures var end := Run(cfg, w, ops); Reconciled(Production, end.db, end.gw.live.routes, product)
  {
    hide Run;
    hide LeftBehind;
    hide Reconciled;
    hide StrandedAt;
    ReconciledExactlyWhen(Production, cfg, w, ops, product);
    if LeftBehind(Production, cfg, w, ops, product) {
      OnlySwitchesLeaveBehind(cfg, w, ops, product);
    }
  }

  /** Operation k approved an application that holds a sandbox key for this product, which
      takes client ids in production and has a sandbox. */
  ghost predicate LateApprovalAt(cfg: Config, w: World, ops: seq<Op>, product: nat, k: nat) {
    k < |ops| && LateApproval(Run(cfg, w, ops[..k]).db, ops[k], product)
  }

  ghost predicate LateApproval(db: Db, op: Op, product: nat) {
    && op.Grant? && Approvable(db, op.sub) && db.subIds[op.sub].product == product
    && product in db.products && db.products[product].auth.OAuth2? && db.products[product].sandboxUpstream != ""
    && HoldsSandboxKey(db, db.subIds[op.sub].app) && !db.Active(db.subIds[op.sub].app, product)
  }

  lemma SandboxJoins(cfg: Config, db: Db, op: Op, product: nat)
    ensures Accepted(cfg, db, op) && product in Joins(Sandboxed, db, op) <==> LateApproval(db, op, product)
  {
    hide Editable;
  }

  /** In the sandbox, without faults, only the approval of an application with a sandbox key
      for an oauth2 product can leave a product behind. */
  lemma OnlyApprovalsLeaveSandboxBehind(cfg: Config, w: World, ops: seq<Op>, product: nat)
    requires LeftBehind(Sandboxed, cfg, w, ops, product)
    ensures exists k: nat :: LateApprovalAt(cfg, w, ops, product, k)
  {
    hide Run;
    hide Accepted;
    hide Joins;
    hide LateApproval;
    var k: nat :| JoinedAt(Sandboxed, cfg, w, ops, product, k);
    SandboxJoins(cfg, Run(cfg, w, ops[..k]).db, ops[k], product);
    assert LateApprovalAt(cfg, w, ops, product, k);
  }

  /** Hence without such an approval its sandbox route is exact: that of a product that never
      was oauth2 always is. */
  lemma SandboxRouteIsExact(cfg: Config, w: World, ops: seq<Op>, product: nat)
    requires Fresh(w) && Calm(w) && cfg.issuer != "" && cfg.sandboxOn
    requires product in Run(cfg, w, ops).db.products && forall k: nat :: !LateApprovalAt(cfg, w, ops, product, k)
    ensures var end := Run(cfg, w, ops); Reconciled(Sandboxed, end.db, end.sandbox.live.routes, product)
  {
    hide Run;
    hide LeftBehind;
    hide Reconciled;
    hide LateApprovalAt;
    ReconciledExactlyWhen(Sandboxed, cfg, w, ops, product);
    if LeftBehind(Sandboxed, cfg, w, ops, product) {
      OnlyApprovalsLeaveSandboxBehind(cfg, w, ops, product);
    }
  }

  /** An accepted operation that gives a product a caller without rebuilding its route does
      leave it behind: the route lacks a caller. */
  lemma JoiningLeavesBehind(side: Side, cfg: Config, w: World, ops: seq<Op>, op: Op, product: nat)
    requires Fresh(w) && Calm(w) && cfg.issuer != "" && On(cfg, side)
    requires var db := Run(cfg, w, ops).db; Accepted(cfg, db, op) && product in Joins(side, db, op)
    ensures var end := Run(cfg, w, ops + [op]);
            && Do(cfg, Run(cfg, w, ops), op).r.Ok? && product in end.db.products
            && Short(side, end.db, RoutesOf(side, end), product)
            && !Reconciled(side, end.db, RoutesOf(side, end), product)
  {
    hide Run;
    hide Do;
    hide Behind;
    hide Short;
    hide Sound;
    hide Accepted;
    hide Joins;
    hide Reconciled;
    hide UpToDate;
    var all := ops + [op];
    assert all[..|ops|] == ops;
    RunExact(side, cfg, w, ops);
    RunSound(cfg, w, ops);
    AcceptedExactly(cfg, Run(cfg, w, ops), op);
    assert JoinedAt(side, cfg, w, all, product, |ops|);
    assert LeftBehind(side, cfg, w, all, product);
    BehindIsLeftBehind(side, cfg, w, all, product);
    RunExact(side, cfg, w, all);
    ShortExists(side, Run(cfg, w, all), Behind(side, cfg, w, all));
    ShortIsNotReconciled(side, Run(cfg, w, all).db, RoutesOf(side, Run(cfg, w, all)), product);
  }

  /** So after any run without faults such an approval goes through, and the product's
      sandbox route lacks a caller. */
  lemma OAuthApprovalIsLate(cfg: Config, w: World, ops: seq<Op>, op: Op, product: nat)
    requires Fresh(w) && Calm(w) && cfg.issuer != "" && cfg.sandboxOn
    requires LateApproval(Run(cfg, w, ops).db, op, product)
    ensures var end := Run(cfg, w, ops + [op]);
            && Do(cfg, Run(cfg, w, ops), op).r.Ok? && product in end.db.products
            && Short(Sandboxed, end.db, end.sandbox.live.routes, product)
            && !Reconciled(Sandboxed, end.db, end.sandbox.live.routes, product)
  {
    hide Run;
    hide Do;
    hide Short;
    hide Accepted;
    hide Joins;
    hide Reconciled;
    SandboxJoins(cfg, Run(cfg, w, ops).db, op, product);
    JoiningLeavesBehind(Sandboxed, cfg, w, ops, op, product);
  }
}
