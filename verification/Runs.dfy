/** Serialized runs: any sequence of portal operations, one after another, from a fresh
    portal, with whatever faults the tapes hold. */
module Runs {
  import opened Common
  import opened Naming
  import opened ContextPaths
  import opened Tables
  import opened Protocol
  import Gateways

  /** A generated API key: never empty. */
  type Key = s: string | s != "" witness "k"

  datatype Op =
    | NewApplication(team: nat)
    | NewProduct(draft: Draft)
    | EditProduct(id: nat, draft: Draft)
    | RemoveProduct(id: nat)
    | NewPlan(plan: Plan)
    | EditPlan(id: nat, plan: Plan)
    | Request(app: nat, product: nat, planId: nat, newKey: Key)
    | Grant(sub: nat, newKey: Key)
    | Refuse(sub: nat)
    | Cancel(app: nat, product: nat)
    | RegisterClient(app: nat, clientId: string)
    | Rotate(app: nat, newKey: Key)
    | OpenSandbox(app: nat, newKey: Key)
    | RotateSandbox(app: nat, newKey: Key)
    | RemoveApplication(app: nat)
    | Settle(invoice: nat)
    | VoidInvoice(invoice: nat)

  /** What the admin handler checks before it calls the service, as far as provisioning
      depends on it. */
  predicate Acceptable(cfg: Config, draft: Draft) {
    ValidContextPath(draft.contextPath) && (draft.auth == Some(OAuth2) ==> cfg.issuer != "")
  }

  function Plain<T>(s: Step<T>): Step<()> {
    if s.r.Ok? then Return(s.w, ()) else Fail(s.w, s.r.error)
  }

  function Do(cfg: Config, w: World, op: Op): (s: Step<()>)
    ensures Quieter(w, s.w)
  {
    match op
    case NewApplication(team) => Write(w, Ok(w.db.CreateApplication(team)))
    case NewProduct(draft) => if Acceptable(cfg, draft) then Plain(CreateProduct(w, draft)) else Fail(w, BadRequest)
    case EditProduct(id, draft) =>
      if Acceptable(cfg, draft) then Plain(UpdateProduct(cfg, w, id, draft)) else Fail(w, BadRequest)
    case RemoveProduct(id) => DeleteProduct(w, id)
    case NewPlan(plan) => Write(w, w.db.CreatePlan(plan))
    case EditPlan(id, plan) => Plain(UpdatePlan(cfg, w, id, plan))
    case Request(app, product, planId, newKey) => Plain(Subscribe(w, app, product, planId, newKey))
    case Grant(sub, newKey) => Approve(cfg, w, sub, newKey)
    case Refuse(sub) => Reject(cfg, w, sub)
    case Cancel(app, product) => Unsubscribe(cfg, w, app, product)
    case RegisterClient(app, clientId) => SetOIDCClientID(cfg, w, app, clientId)
    case Rotate(app, newKey) => Plain(RotateKey(w, app, newKey))
    case OpenSandbox(app, newKey) => Plain(EnableSandbox(cfg, w, app, newKey))
    case RotateSandbox(app, newKey) => Plain(RotateSandboxKey(cfg, w, app, newKey))
    case RemoveApplication(app) => DeleteApplication(cfg, w, app)
    case Settle(invoice) => Protocol.SettleInvoice(w, invoice, Paid)
    case VoidInvoice(invoice) => Protocol.SettleInvoice(w, invoice, Void)
  }

  /** The world after a run. */
  function Run(cfg: Config, w: World, ops: seq<Op>): World {
    if ops == [] then w else Do(cfg, Run(cfg, w, ops[..|ops| - 1]), ops[|ops| - 1]).w
  }

  const EMPTY_DB: Db := Db(map[], map[], map[], map[], map[], map[], map[], map[], 0, 0, 0, 0, 0, 0)

  /** An empty database and two empty gateways; the fault tapes are arbitrary. */
  ghost predicate Fresh(w: World) {
    && w.db == EMPTY_DB
    && w.gw.live == w.sandbox.live == Gateways.Live(map[], map[])
  }

  ghost predicate Lists(g: Gateways.Live, product: nat, name: string) {
    RouteID(product) in g.routes && name in g.routes[RouteID(product)].allowed
  }

  /** The product's route takes API keys and lists the consumer. */
  ghost predicate KeyListed(g: Gateways.Live, product: nat, name: string) {
    Lists(g, product, name) && !g.routes[RouteID(product)].oauth
  }

  // ---- what has happened so far

  /** The edit's row write goes through and turns an oauth2 product into a key-auth one. */
  predicate SwitchesBack(w: World, id: nat, draft: Draft) {
    && id in w.db.products && w.db.products[id].auth.OAuth2? && draft.Row().auth.KeyAuth?
    && EditRow(w, id, draft).r.Ok?
  }

  /** The switch leaves this active subscriber without access: it has no credential or
      no consumer yet, or the rebuild does not get through and no earlier route lists it. */
  ghost predicate Strands(cfg: Config, w: World, id: nat, draft: Draft, app: nat)
    requires SwitchesBack(w, id, draft)
  {
    var e := EditRow(w, id, draft);
    && ActiveIn(w.db.subs, app, id)
    && !(&& app in w.db.creds && ConsumerName(app) in w.gw.live.consumers
         && (RebuildEdited(cfg, e.w, id, e.r.value).r.Ok? || KeyListed(w.gw.live, id, ConsumerName(app))))
  }

  ghost predicate StrandingSwitch(cfg: Config, w: World, op: Op, product: nat) {
    && op.EditProduct? && op.id == product && Acceptable(cfg, op.draft) && SwitchesBack(w, product, op.draft)
    && exists app: nat :: Strands(cfg, w, product, op.draft, app)
  }

  predicate Approvable(db: Db, sub: nat) {
    db.GetSubscription(sub).Ok? && !db.GetSubscription(sub).value.status.Rejected?
  }

  /** The operation sets out to approve this subscription and is not refused. */
  predicate Approves(w: World, op: Op, key: SubKey) {
    op.Grant? && Approvable(w.db, op.sub) && w.db.subIds[op.sub] == key
  }

  /** The subscriptions an admin has moved to approve, and the products whose switch from
      oauth2 back to key-auth left somebody without access. */
  datatype History = History(approved: set<SubKey>, switched: set<nat>)

  const NOTHING := History({}, {})

  ghost function Record(cfg: Config, w: World, op: Op, h: History): History {
    if op.Grant? && Approvable(w.db, op.sub) then h.(approved := h.approved + {w.db.subIds[op.sub]})
    else if op.EditProduct? && StrandingSwitch(cfg, w, op, op.id)
    then h.(switched := h.switched + {op.id})
    else h
  }

  ghost function Past(cfg: Config, w: World, ops: seq<Op>): History {
    if ops == [] then NOTHING
    else
      var before := ops[..|ops| - 1];
      Record(cfg, Run(cfg, w, before), ops[|ops| - 1], Past(cfg, w, before))
  }

  /** A run in parts. */
  lemma {:induction false} RunSplits(cfg: Config, w: World, first: seq<Op>, second: seq<Op>)
    ensures Run(cfg, w, first + second) == Run(cfg, Run(cfg, w, first), second)
  {
    hide Do;
    var all := first + second;
    if second == [] {
      assert all == first;
    } else {
      assert all[..|all| - 1] == first + second[..|second| - 1];
      RunSplits(cfg, w, first, second[..|second| - 1]);
    }
  }
}
