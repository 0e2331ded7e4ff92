/** What the one-sided invariants mean for a reader: statements over whole runs with
    arbitrary faults, in terms of the operations that were performed. */
module Guarantees {
  import opened Common
  import opened Naming
  import opened AllowLists
  import opened Tables
  import opened Protocol
  import opened Runs
  import opened Queries
  import opened Integrity
  import opened Safety
  import opened OperationEffects
  import opened Evolution
  import opened Gateways

  /** Operation k set out to approve this subscription and was not refused. */
  ghost predicate ApprovedAt(cfg: Config, w: World, ops: seq<Op>, key: SubKey, k: nat) {
    k < |ops| && Approves(Run(cfg, w, ops[..k]), ops[k], key)
  }

  /** Operation k turned the product back to key-auth and left somebody without access. */
  ghost predicate StrandedAt(cfg: Config, w: World, ops: seq<Op>, product: nat, k: nat) {
    k < |ops| && StrandingSwitch(cfg, Run(cfg, w, ops[..k]), ops[k], product)
  }

  /** The recorded history is what happened. */
  lemma {:induction false} PastIsWhatHappened(cfg: Config, w: World, ops: seq<Op>)
    ensures forall key :: key in Past(cfg, w, ops).approved <==> exists k: nat :: ApprovedAt(cfg, w, ops, key, k)
    ensures forall p: nat :: p in Past(cfg, w, ops).switched <==> exists k: nat :: StrandedAt(cfg, w, ops, p, k)
  {
    hide Run;
    hide StrandingSwitch;
    hide Approvable;
    if ops != [] {
      var n := |ops| - 1;
      var before := ops[..n];
      PastIsWhatHappened(cfg, w, before);
      forall k: nat | k < n ensures ops[..k] == before[..k] {
      }
      forall key ensures key in Past(cfg, w, ops).approved <==> exists k: nat :: ApprovedAt(cfg, w, ops, key, k) {
        if k: nat :| ApprovedAt(cfg, w, before, key, k) {
          assert ApprovedAt(cfg, w, ops, key, k);
        }
        if k: nat :| ApprovedAt(cfg, w, ops, key, k) && k < n {
          assert ApprovedAt(cfg, w, before, key, k);
        }
        if key in Past(cfg, w, ops).approved && key !in Past(cfg, w, before).approved {
          assert ApprovedAt(cfg, w, ops, key, n);
        }
      }
      forall p: nat ensures p in Past(cfg, w, ops).switched <==> exists k: nat :: StrandedAt(cfg, w, ops, p, k) {
        if k: nat :| StrandedAt(cfg, w, before, p, k) {
          assert StrandedAt(cfg, w, ops, p, k);
        }
        if k: nat :| StrandedAt(cfg, w, ops, p, k) && k < n {
          assert StrandedAt(cfg, w, before, p, k);
        }
        if p in Past(cfg, w, ops).switched && p !in Past(cfg, w, before).switched {
          assert StrandedAt(cfg, w, ops, p, n);
        }
        SwitchedProduct(cfg, Run(cfg, w, before), ops[n]);
      }
    }
  }

  lemma SwitchedProduct(cfg: Config, w: World, op: Op)
    ensures forall p: nat :: StrandingSwitch(cfg, w, op, p) ==> op.EditProduct? && p == op.id
  {
    hide SwitchesBack;
    hide Strands;
  }

  /** Active in the database means provisioned in the gateway: every active subscriber of
      the product, should it be a key-auth one, has a consumer that its route lists. */
  ghost predicate ProvisionedIn(w: World, product: nat) {
    product in w.db.products && w.db.products[product].auth.KeyAuth? ==>
      forall app: nat :: ActiveIn(w.db.subs, app, product) ==> Served(w.db.creds, w.gw.live, app, product)
  }

  /** Whatever fails, this holds for a product at every moment of a run exactly if no
      operation of the run was a switch back to key-auth that left somebody without
      access. */
  lemma ProvisionedExactlyWhen(cfg: Config, w: World, ops: seq<Op>, product: nat)
    requires Fresh(w)
    ensures (forall n: nat :: n <= |ops| ==> ProvisionedIn(Run(cfg, w, ops[..n]), product)) <==>
            (forall k: nat :: !StrandedAt(cfg, w, ops, product, k))
  {
    hide Run;
    hide StrandingSwitch;
    if k: nat :| StrandedAt(cfg, w, ops, product, k) {
      var before := Run(cfg, w, ops[..k]);
      RunStep(cfg, w, ops, k);
      RunSafe(cfg, w, ops[..k]);
      StrandedIsNotProvisioned(cfg, before, ops[k], product);
      assert !ProvisionedIn(Run(cfg, w, ops[..k + 1]), product);
    } else {
      forall n: nat | n <= |ops| ensures ProvisionedIn(Run(cfg, w, ops[..n]), product) {
        RunSafe(cfg, w, ops[..n]);
        PastIsWhatHappened(cfg, w, ops[..n]);
        forall k: nat ensures !StrandedAt(cfg, w, ops[..n], product, k) {
          if k < n {
            assert ops[..n][..k] == ops[..k];
            assert !StrandedAt(cfg, w, ops, product, k);
          }
        }
      }
    }
  }

  lemma RunStep(cfg: Config, w: World, ops: seq<Op>, k: nat)
    requires k < |ops|
    ensures Run(cfg, w, ops[..k + 1]) == Do(cfg, Run(cfg, w, ops[..k]), ops[k]).w
  {
    assert ops[..k + 1][..k] == ops[..k];
  }

  lemma StrandedIsNotProvisioned(cfg: Config, w: World, op: Op, product: nat)
    requires Sound(w.db) && StrandingSwitch(cfg, w, op, product)
    ensures !ProvisionedIn(Do(cfg, w, op).w, product)
  {
    hide Sound;
    hide SwitchesBack;
    hide Strands;
    hide Served;
    hide UpdateProduct;
    var app: nat :| Strands(cfg, w, product, op.draft, app);
    StrandedIsActive(cfg, w, product, op.draft, app);
    SwitchProvisionsExactly(cfg, w, product, op.draft, app);
  }

  lemma StrandedIsActive(cfg: Config, w: World, id: nat, draft: Draft, app: nat)
    requires SwitchesBack(w, id, draft) && Strands(cfg, w, id, draft, app)
    ensures ActiveIn(w.db.subs, app, id) && draft.Row().auth.KeyAuth?
  {
  }

  /** In particular at the end of a run without such a switch. */
  lemma ActiveMeansProvisioned(cfg: Config, w: World, ops: seq<Op>, app: nat, product: nat)
    requires Fresh(w) && forall k: nat :: !StrandedAt(cfg, w, ops, product, k)
    requires var db := Run(cfg, w, ops).db;
             ActiveIn(db.subs, app, product) && product in db.products && db.products[product].auth.KeyAuth?
    ensures var end := Run(cfg, w, ops);
            ConsumerName(app) in end.gw.live.consumers && KeyListed(end.gw.live, product, ConsumerName(app))
  {
    hide Run;
    hide StrandedAt;
    ProvisionedExactlyWhen(cfg, w, ops, product);
    assert ops[..|ops|] == ops;
    assert ProvisionedIn(Run(cfg, w, ops[..|ops|]), product);
  }

  /** Nobody is on a key-auth route's allow-list whom no admin ever approved for it. */
  lemma ListedMeansApproved(cfg: Config, w: World, ops: seq<Op>, product: nat, name: string)
    requires Fresh(w)
    requires var gw := Run(cfg, w, ops).gw.live;
             Lists(gw, product, name) && !gw.routes[RouteID(product)].oauth
    ensures exists app: nat, k: nat :: name == ConsumerName(app) && ApprovedAt(cfg, w, ops, SubKey(app, product), k)
  {
    hide Run;
    NamesAreInjective();
    RunSafe(cfg, w, ops);
    PastIsWhatHappened(cfg, w, ops);
    assert InRouteOf(Past(cfg, w, ops), RouteID(product), name);
  }

  /** A request never disturbs an active subscription, not even the requester's own. */
  lemma SubscribeKeepsActive(w: World, app: nat, product: nat, plan: nat, newKey: string, key: SubKey)
    requires ActiveIn(w.db.subs, key.app, key.product)
    ensures var end := Subscribe(w, app, product, plan, newKey).w;
            && key in end.db.subs && end.db.subs[key] == w.db.subs[key]
            && end.gw == w.gw && end.sandbox == w.sandbox
  {
    hide Subscribe;
    hide RecordRequest;
    SubscribeCases(w, app, product, plan, newKey);
    if product in w.db.products {
      var w3, auth := Tick(Tick(Tick(w))), w.db.products[product].auth;
      RecordingTouchesOneRow(w3, auth, app, product, plan, newKey);
      var end := RecordRequest(w3, auth, app, product, plan, newKey).w;
      var others := w.db.subs - {SubKey(app, product)};
      assert key != SubKey(app, product) ==> key in others && others[key] == w.db.subs[key];
      assert others == end.db.subs - {SubKey(app, product)};
    }
  }

  lemma RecordingTouchesOneRow(w: World, auth: Auth, app: nat, product: nat, plan: nat, newKey: string)
    ensures var end := RecordRequest(w, auth, app, product, plan, newKey).w;
            && end.db.subs - {SubKey(app, product)} == w.db.subs - {SubKey(app, product)}
            && end.gw == w.gw && end.sandbox == w.sandbox
  {
    hide Quieter;
    hide Db.SaveSubscription;
    SavingTouchesOneRow(w.db, app, product, plan);
    var r := w.db.GetOrCreateCredential(app, newKey);
    if r.Ok? {
      SavingTouchesOneRow(r.value, app, product, plan);
    }
  }

  lemma SavingTouchesOneRow(db: Db, app: nat, product: nat, plan: nat)
    ensures var r := db.SaveSubscription(app, product, plan);
            r.Ok? ==> r.value.subs - {SubKey(app, product)} == db.subs - {SubKey(app, product)}
  {
  }

  /** A request that fails, whichever call it was, has recorded no subscription. */
  lemma FailedRequestRecordsNothing(w: World, app: nat, product: nat, plan: nat, newKey: string)
    ensures var s := Subscribe(w, app, product, plan, newKey);
            s.r.Err? ==> s.w.db == w.db.(creds := s.w.db.creds)
  {
    hide Subscribe;
    hide Quieter;
    hide Db.SaveSubscription;
    hide Db.GetOrCreateCredential;
    SubscribeCases(w, app, product, plan, newKey);
    if w.db.GetOrCreateCredential(app, newKey).Ok? { IssuedRow(w.db, app, newKey); }
  }

  /** Some call of a cancellation fails, up to and including the one that writes the
      production route: the row's removal, the two queries of the rebuild, or the write. */
  predicate CancelInterrupted(w: World) {
    || (|w.faults| > 0 && w.faults[0].write)
    || (|w.faults| > 1 && w.faults[1].read)
    || (|w.faults| > 2 && w.faults[2].read)
    || w.gw.Failing()
  }

  /** A cancellation takes a listed subscriber off its key-auth route exactly if none of
      these calls fails; otherwise the route still lists it. */
  lemma CancelUnlistsExactly(cfg: Config, w: World, app: nat, product: nat)
    requires Sound(w.db) && product in w.db.products && w.db.products[product].auth.KeyAuth?
    requires ActiveIn(w.db.subs, app, product) && Lists(w.gw.live, product, ConsumerName(app))
    ensures var end := Unsubscribe(cfg, w, app, product).w;
            Lists(end.gw.live, product, ConsumerName(app)) <==> CancelInterrupted(w)
  {
    hide Sound;
    hide Quieter;
    hide Db.ConsumersForProduct;
    hide Db.DeleteSubscription;
    hide ReprovisionSandboxRoute;
    NamesAreInjective();
    var next := w.db.DeleteSubscription(app, product);
    CancelledRow(w.db, app, product);
    ConsumersForProductMembers(next, product);
    assert WithExtras(next.ConsumersForProduct(product), []) == next.ConsumersForProduct(product);
    assert ConsumerName(app) !in next.ConsumersForProduct(product);
  }

  lemma CancelledRow(db: Db, app: nat, product: nat)
    requires Sound(db)
    ensures var next := db.DeleteSubscription(app, product);
            Sound(next) && next.products == db.products && SubKey(app, product) !in next.subs
  {
    DropSubscriptionsSound(db, {SubKey(app, product)});
  }

  /** Once a deletion has gone through, the application's consumer is gone from the
      production gateway for good, and no sandbox route ever lists it while it exists. */
  lemma DeletedMeansCutOff(cfg: Config, w: World, before: seq<Op>, app: nat, after: seq<Op>)
    requires Fresh(w)
    requires app in Run(cfg, w, before).db.apps
    requires Do(cfg, Run(cfg, w, before), RemoveApplication(app)).r.Ok?
    ensures var end := Run(cfg, w, before + [RemoveApplication(app)] + after);
            && app !in end.db.apps
            && ConsumerName(app) !in end.gw.live.consumers
            && forall p: nat :: Lists(end.sandbox.live, p, ConsumerName(app)) ==>
                ConsumerName(app) !in end.sandbox.live.consumers
  {
    hide Run;
    hide Past;
    hide Safe;
    hide Later;
    hide Lists;
    hide DeleteApplication;
    var ops := before + [RemoveApplication(app)];
    var w1 := Run(cfg, w, before);
    var w2 := Run(cfg, w, ops);
    var end := Run(cfg, w, ops + after);
    RunOne(cfg, w, before, RemoveApplication(app));
    RunSafe(cfg, w, before);
    DeleteApplicationSafe(cfg, w1, Past(cfg, w, before), app);
    RunSafe(cfg, w, ops + after);
    RunSplits(cfg, w, ops, after);
    RunLater(cfg, w1, [RemoveApplication(app)]);
    RunSingle(cfg, w1, RemoveApplication(app));
    RunLater(cfg, w2, after);
    GoneStaysGone(w1.db, w2.db, end.db, app);
    CutOff(cfg, end, Past(cfg, w, ops + after), app);
  }

  lemma RunOne(cfg: Config, w: World, before: seq<Op>, op: Op)
    ensures Run(cfg, w, before + [op]) == Do(cfg, Run(cfg, w, before), op).w
  {
    assert (before + [op])[..|before|] == before;
  }

  lemma RunSingle(cfg: Config, w: World, op: Op)
    ensures Run(cfg, w, [op]) == Do(cfg, w, op).w
  {
    RunOne(cfg, w, [], op);
    assert [] + [op] == [op];
  }

  lemma GoneStaysGone(db: Db, deleted: Db, end: Db, app: nat)
    requires Sound(db) && app in db.apps && app !in deleted.apps && Later(db, deleted) && Later(deleted, end)
    ensures app !in end.apps
  {
  }

  /** In a safe world an application without a row is cut off. */
  lemma CutOff(cfg: Config, w: World, h: History, app: nat)
    requires SafeWorld(cfg, w, h) && app !in w.db.apps
    ensures ConsumerName(app) !in w.gw.live.consumers
    ensures forall p: nat :: Lists(w.sandbox.live, p, ConsumerName(app)) ==>
              ConsumerName(app) !in w.sandbox.live.consumers
  {
    hide Provisioned;
    hide OnlyApproved;
    forall p: nat | Lists(w.sandbox.live, p, ConsumerName(app)) ensures ConsumerName(app) !in w.sandbox.live.consumers {
      assert Entitled(w.db, w.sandbox.live.consumers, app);
    }
  }
}
