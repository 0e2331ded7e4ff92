# APISIX developer portal: a verified model

The portal sells access to APIs. Applications request subscriptions, admins approve
them, and the portal keeps two APISIX gateways (production and sandbox) in step with its
database: a *consumer* per application, a *route* per product, and on each route the
allow-list of consumers or OIDC client ids that may use it. There is no transaction
across the database and the gateways, so the order of the calls inside each operation is
the design. This project models that protocol, together with three smaller mechanisms of
the backend, and proves what each is for:

- **Provisioning.** `Tables` holds the Postgres tables and one function per SQL statement,
  `Gateways` the in-memory gateway. `Services` has the services as objects, whose methods
  drive the store and the gateways call by call; every call may fail without effect, as the
  fault tapes decide. Each method is proved to compute the function of the
  same name in `Protocol`, and `PortalRuns` that any sequence of the seventeen operations
  performed on the objects is a run of `Runs`. The theorems are about those runs, from an
  empty portal. `Reconciliation`, `Effects`, `OperationEffects` and `ReconciledRuns`: amid
  faults, the routes are the projection of the database wherever the last operation that
  should have rebuilt them got that far. `CalmRuns`: without faults they are so exactly
  when the tables say, and `BehindWitnesses` has a run for each way to fall behind.
  `Safety` and `Guarantees`: active means provisioned, listed means approved, deleted means
  cut off. `KeyAgreement` and `ConsumerWrites`: consumers carry the stored keys and the
  limits they should, and no operation touches another one. `GatewayPaths`: routes serve
  their context path. `SavedProducts`: product rows keep what was saved. `Evolution`: the
  catalogue stays disjoint, the invoice ledger is append-only and its accounts are right. `Outcomes`, `PlanEdits` and `Migration`: when operations succeed, told from
  the tables, which refusal they give otherwise, and what single edits achieve.
  `Witnesses` has short runs that end where a guarantee stops.
- **Context paths.** `ContextPaths` models SQL's LIKE and proves the overlap test exact.
- **Rate limiting.** `RateLimiter` is the token bucket with its idle sweep, over reals;
  `RateLimits` and `RateLimitsExact` prove its bounds over all call traces and the exact
  condition under which the sweep cannot be noticed.
- **Settings.** `Registry`, `SettingsModel`, `SettingsService` and `Bindings` model the runtime
  settings store, its audit log and the server bindings re-derived by the change hook;
  `SettingsRuns` proves them consistent over every run of Set and Reset, and
  `SettingsServing` that any sequence of such calls on the objects is a run.

## What the proofs found

- The comment on `Approve` says that active in the database always implies provisioned in
  the gateway. Whatever fails, this holds for a product at every moment of a run exactly if
  no edit of the run switched it from oauth2 back to key-auth while an active subscriber had
  no credential or consumer yet, or with a failing rebuild and no earlier route listing the
  subscriber (`Guarantees.ProvisionedExactlyWhen`; a run without faults that ends there is
  `Witnesses.SwitchStrandsSubscriber`).
- Without faults a product's route is exactly what the database asks for, its path
  included, exactly if no caller joined the product since its route was rebuilt last, and
  the path has not changed since or nobody may call it
  (`CalmRuns.GatewaysMirrorTheDatabase`). In production a caller joins unnoticed when an
  application that a switch back to key-auth stranded gets its first credential for another
  product (`CalmRuns.OnlySwitchesLeaveBehind`, `BehindWitnesses.SwitchLeavesBehind`); in
  the sandbox when an oauth2 approval gives the product a caller with a sandbox key, and in
  no other way (`CalmRuns.OnlyApprovalsLeaveSandboxBehind`, `CalmRuns.OAuthApprovalIsLate`,
  `BehindWitnesses.ApprovalLeavesSandboxBehind`).
- With faults a route can also be behind because an operation failed before it had rebuilt
  it, or because an approval overlooked a failed query of the client id or sandbox key: it
  then reports success (`Witnesses.ApprovalOverlooksClient`). All other routes stay exact,
  also those that an operation had rebuilt before it failed in the sandbox, in billing or
  later in a loop (`ReconciledRuns.RoutesStayTrue`), and repeating an operation repairs the
  rest (`ReconciledRuns.ApprovalConverges`).
- The comment on product deletion says that a leftover route lists nobody. A product that is
  not behind leaves no route at all; one that is behind can leave a route that still lists
  an application whose consumer exists (`Witnesses.DeletedProductStillServed`). A
  cancellation takes a consumer off its route exactly if none of its calls up to the
  route's write fails (`Guarantees.CancelUnlistsExactly`).
- A deleted application is cut off because its consumer is gone for good. Its client id can
  outlive it, on a route that is behind (`Witnesses.DeletedClientStillListed`).
- A consumer carries its application's stored key at every moment of a run exactly if no
  rotation, and no first opening of the sandbox, has all its calls go through but the write
  of a key that differs from the stored one (`KeyAgreement.KeysAgreeExactlyWhen`;
  `Witnesses.KeyIsLost`). A later rotation, approval, change of limits or deletion puts
  it right (`KeyAgreement.KeysAgreeUnlessLost`).
- A moved context path reaches the gateway exactly if the edit also rebuilds the route
  (`GatewayPaths.PathServedExactlyWhen`; `Witnesses.MovedPathIsNotServed`).
- The sweep of idle buckets is unnoticeable, and the admission bound holds, exactly if
  `burst < 1` or `burst <= 600 * refill`; for every other limiter there are traces that
  tell and traces that exceed the bound (`RateLimitsExact.InvisibleExactlyWhen`,
  `RateLimitsExact.AdmissionBoundExactlyWhen`). The portal's limiters are on the safe side.
- Within one process no snapshot published by Set or Reset can be inconsistent, even with
  force, but a boot takes the rows as they are: all snapshots of a process are consistent
  exactly if, at boot, verification comes with a mail server and a sender
  (`SettingsRuns.AlwaysConsistentExactlyWhen`, `SettingsRuns.BootMayBeInconsistent`).

## Model

| member | source | states |
|---|---|---|
| `CalmRuns.GatewaysMirrorTheDatabase` | internal/subscriptions/service.go:284-332 | After any fault-free run and on either gateway, a product's route exists iff its subscriber set in the database is non-empty, and then lists exactly that set, each once, with the product's backend, oauth flag and context path, exactly unless an accepted operation gave it a caller and none has rebuilt its route since, or its path changed after the last rebuild while somebody may call it; nothing else has a route. Which operations are accepted, rebuild or add a caller is told from the tables before them |
| `CalmRuns.ReconciledExactlyWhen` | internal/subscriptions/service.go:618-657 | Of these, everything but the path: exactly unless a caller joined without a rebuild since |
| `CalmRuns.RouteServesLastPath` | internal/admin/service.go:143-158 | Without faults a route serves the path that its product had when it was rebuilt last |
| `CalmRuns.JoiningLeavesBehind` | internal/subscriptions/service.go:531-550 | After any fault-free run, an accepted operation that gives a product a caller without rebuilding its route goes through, and that route then lacks a caller |
| `CalmRuns.OnlySwitchesLeaveBehind` | internal/subscriptions/service.go:512-518 | In production, without faults, only a product whose switch back to key-auth stranded somebody can be behind |
| `CalmRuns.ProductionRouteIsExact` | internal/subscriptions/service.go:512-518 | So without such a switch its production route is the projection of the database |
| `CalmRuns.OnlyApprovalsLeaveSandboxBehind` | internal/subscriptions/service.go:531-578 | In the sandbox, without faults, only the approval of an application with a sandbox key for an oauth2 product with a sandbox can leave that product behind |
| `CalmRuns.SandboxRouteIsExact` | internal/subscriptions/service.go:626-657 | So without such an approval its sandbox route is the projection of the database; that of a product that never was oauth2 always is |
| `CalmRuns.OAuthApprovalIsLate` | internal/subscriptions/service.go:531-550 | After any fault-free run such an approval goes through, and the product's sandbox route then lacks a caller |
| `BehindWitnesses.SwitchLeavesBehind` | internal/admin/service.go:143-153 | A run without faults after which a caller of a key-auth product is not on its production route |
| `BehindWitnesses.ApprovalLeavesSandboxBehind` | internal/subscriptions/service.go:531-550 | A run without faults after which a caller of an oauth2 product is not on its sandbox route |
| `ReconciledRuns.RoutesStayTrue` | internal/subscriptions/service.go:455-467 | After any run with any faults, a product that is not behind has exactly the route its subscribers call for, and a deleted one has none. Behind are those that gained a caller unnoticed, and those whose rebuild an operation set out to do and did not reach, until one gets that far; a failure after the rebuild, in the sandbox, in billing or later in a loop, does not count |
| `ReconciledRuns.ListedMeansSubscribed` | internal/subscriptions/service.go:469-474 | Every name on a route that is not behind, consumer or client id, is that of an application with an active subscription |
| `ReconciledRuns.DeletedIsUnlisted` | internal/subscriptions/service.go:469-510 | So after a deletion such a route lists nobody but other, existing applications with an active subscription |
| `ReconciledRuns.RetryConverges` | internal/subscriptions/service.go:516-518 | After any run with any faults, an operation that meets no fault and is not refused leaves every route it sets out to rebuild exact, path included |
| `ReconciledRuns.ApprovalConverges` | internal/subscriptions/service.go:562-566 | In particular approving, rejecting or cancelling again succeeds and brings the product's production route up to date |
| `OperationEffects.DoEffect` | internal/subscriptions/service.go:626-657 | Whichever calls fail, every operation keeps route and view of all products it does not touch, but for the ones that gain a caller unnoticed; one that gets through with a gateway's routes, whether or not it fails later, leaves the touched ones rebuilt or kept there, and a loop that is cut short the ones whose turn was over |
| `OperationEffects.UpdateProductEffect` | internal/admin/service.go:81-160 | An edit that succeeds has rebuilt what upstream, auth type or sandbox upstream call for, and otherwise kept route and view, or nobody may call the product |
| `OperationEffects.ApproveEffect` | internal/subscriptions/service.go:519-589 | An approval that succeeds, and overlooked no failed query, leaves both routes of the product reconciled or kept |
| `OperationEffects.ActivationComesLast` | internal/subscriptions/service.go:512-518 | Whatever fails, an approval that leaves the subscription newly active has brought the product's production route up to date before, for oauth2 as for key-auth, unless the query of the client id failed |
| `OperationEffects.ConsumerComesFirst` | internal/subscriptions/service.go:555-567 | Whatever fails, an approval that has changed a key-auth product's production route has given the application a consumer with its stored key |
| `OperationEffects.BillingComesLast` | internal/subscriptions/service.go:571-588 | Whatever fails, an approval that has written an invoice has left the subscription active |
| `Effects.DeleteApplicationEffect` | internal/subscriptions/service.go:475-510 | Deleting an application touches only the products it is subscribed to, and wherever it fails, the ones it has cancelled by then are exact, and after a success all of them |
| `Effects.SetOIDCClientIDEffect` | internal/subscriptions/service.go:342-359 | Rebuilding the application's oauth2 products is enough after its client id changed, and should a call fail the ones rebuilt by then are exact |
| `Effects.EnableSandboxEffect` | internal/subscriptions/service.go:664-710 | Rebuilding the open sandboxes of the application is enough after it got its sandbox key, and should a call fail the ones rebuilt by then are exact |
| `Safety.RunSafe` | internal/subscriptions/service.go:512-589 | The one-sided invariants hold after every run with arbitrary store and gateway faults |
| `Safety.ListAndActivateSafe` | internal/subscriptions/service.go:559-578 | Listing the consumer before setting the status keeps active subscribers provisioned wherever a call fails |
| `Safety.DeleteApplicationSafe` | internal/subscriptions/service.go:475-510 | However far the deletion gets the invariants hold, and if it succeeds the application is gone |
| `Safety.SwitchProvisionsExactly` | internal/admin/service.go:143-153 | Whatever fails, after a switch from oauth2 to key-auth whose row went through an active subscriber is provisioned exactly if it had a credential and a consumer and either the rebuild went through or an earlier key-auth route lists it |
| `Guarantees.ProvisionedExactlyWhen` | internal/subscriptions/service.go:512-518 | Whatever fails, every active subscriber of the product has a consumer on its key-auth route at every moment of a run, exactly if no operation of the run was a switch that stranded somebody |
| `Guarantees.ActiveMeansProvisioned` | internal/subscriptions/service.go:512-518 | So in every run without such a switch active means provisioned |
| `Guarantees.ListedMeansApproved` | internal/subscriptions/service.go:562-571 | In every run with any faults, a name on a key-auth route is an application that some earlier operation set out to approve for that product and that was not refused |
| `Guarantees.SubscribeKeepsActive` | internal/subscriptions/service.go:409-452 | No request changes an active subscription or touches a gateway |
| `Guarantees.FailedRequestRecordsNothing` | internal/subscriptions/service.go:409-452 | Whatever fails, a request that is not answered Ok records no subscription; at most the credential is new |
| `Guarantees.DeletedMeansCutOff` | internal/subscriptions/service.go:475-510 | After a deletion that succeeded, whatever faults came before and after, the application's production consumer never exists again and no sandbox route lists it while its sandbox consumer exists |
| `Guarantees.PastIsWhatHappened` | internal/subscriptions/service.go:519-526 | The history the invariants speak of contains exactly the approvals that were attempted and not refused, and the switches that stranded somebody |
| `Guarantees.CancelUnlistsExactly` | internal/subscriptions/service.go:455-467 | A cancellation leaves a listed subscriber on the key-auth route exactly if its write, one of the rebuild's queries or the route's write fails |
| `Witnesses.DeletedProductStillServed` | internal/admin/service.go:201-206 | A run after which a deleted product's route still lists an application whose consumer exists |
| `Witnesses.SwitchStrandsSubscriber` | internal/admin/service.go:143-153 | A run without faults after which an active subscriber of a key-auth product has no credential and no route |
| `Witnesses.ApprovalOverlooksClient` | internal/subscriptions/service.go:531-534 | A run in which an approval is answered Ok although the client id could not be read, and writes no route |
| `Witnesses.DeletedClientStillListed` | internal/subscriptions/service.go:475-510 | A run after which a deleted application's client id is still listed |
| `Witnesses.KeyIsLost` | internal/subscriptions/service.go:773-780 | A run after which the gateway has a new key and the database the old one |
| `Witnesses.MovedPathIsNotServed` | internal/admin/service.go:143-153 | A run without faults after which the gateway serves the old path |
| `KeyAgreement.KeysAgreeExactlyWhen` | internal/subscriptions/service.go:756-783 | On either gateway an application's consumer carries the stored key at every moment of a run, whatever fails, exactly if no operation of the run gets all its calls through but the write of a new key; which calls those are is told from tables and fault tapes |
| `KeyAgreement.KeysAgreeUnlessLost` | internal/subscriptions/service.go:756-783 | In every run with any faults, a key that is not lost, or has been written again since, agrees; every consumer is named after an application |
| `KeyAgreement.KeysAlwaysAgree` | internal/subscriptions/service.go:744-751 | So they always agree while database writes succeed |
| `KeyAgreement.LostKeyDisagrees` | internal/subscriptions/service.go:756-760 | A key lost in that way is the consumer's and not the stored one |
| `KeyAgreement.DoAgrees` | internal/subscriptions/service.go:559-562 | Rotations, key-auth approvals, changes of limits and deletions that go through put a lost key right, and no other operation disturbs the agreement |
| `KeyAgreement.ReprovisionPlanAgrees` | internal/subscriptions/service.go:363-391 | Re-applying a plan's limits keeps the agreement of either gateway wherever a call fails, and a success restores it for the plan's subscribers |
| `ConsumerWrites.DoTouches` | internal/subscriptions/service.go:363-391 | Whatever fails and on either gateway, an operation leaves every consumer as it was, but for those of the application it approves, rotates, opens or deletes, and of the active subscribers of a plan whose limit it changes; and it writes those with the right key and the limit of the right plan |
| `ConsumerWrites.UnlimitedEditTouchesNothing` | internal/admin/plan_service.go:43-60 | A plan edit that changes neither count nor window makes no gateway call, whatever fails |
| `ConsumerWrites.EveryConsumerWasWritten` | internal/subscriptions/service.go:555-558 | So in every run each consumer is as some operation of the run was to write it |
| `GatewayPaths.RouteServesItsPath` | internal/apisix/client.go:99-100 | Whatever fails, and on either gateway, a route carries its product's stored context path unless the path was moved alone and the route not rebuilt since |
| `GatewayPaths.PathServedExactlyWhen` | internal/admin/service.go:143-158 | It does so at every moment of a run exactly if no edit of the run moved the path of a product with a route without rebuilding it |
| `GatewayPaths.RoutesStayDisjoint` | internal/admin/service.go:67-94 | So no request is answered by the routes of two such products |
| `GatewayPaths.MovedPathIsServedExactly` | internal/admin/service.go:143-158 | Whatever fails, a moved path is served exactly if the edit also asks for the rebuild of that route, in production for a product in use, and got that far |
| `SavedProducts.ProductsAreAsSaved` | internal/admin/repo.go:69-103 | In every run, whatever fails, each product row keeps the slug, path, upstreams, published flag and icon it was last saved with, and the auth type and lifecycle, or their defaults |
| `SavedProducts.UnofferedTakesNoRequest` | internal/subscriptions/service.go:409-419 | So a product last saved unpublished, or deprecated or retired, takes no request: it is refused, with the error for its case, and nothing changes |
| `PortalRuns.Perform` | internal/admin/handler.go:381-409 | One operation on the objects is one step of the protocol |
| `PortalRuns.Serve` | internal/subscriptions/service.go:237-239 | Any sequence of operations on the objects is a run |
| `PortalRuns.ServeFromScratch` | internal/subscriptions/service.go:512-518 | The gateway object of a portal that started empty serves every active subscriber, whatever failed, under the condition of ProvisionedExactlyWhen |
| `Outcomes.SubscribeOutcome` | internal/subscriptions/service.go:409-452 | Exactly which requests are accepted and exactly when each refusal is given; an accepted one leaves a pending row that keeps its id and returns the stored key, issued only once, or none for oauth2 |
| `Outcomes.ApproveOutcome` | internal/subscriptions/service.go:519-589 | Without faults approval succeeds exactly for subscriptions that exist and are not rejected, is otherwise refused as not found or as an invalid transition, and changes only that row's status |
| `Outcomes.RejectOutcome` | internal/subscriptions/service.go:594-615 | Likewise for rejection |
| `Outcomes.RotateKeyOutcome` | internal/subscriptions/service.go:761-783 | A rotation succeeds exactly with a credential and an active subscription; then database, consumer and answer hold the new key, under the limit of the newest active plan; each refusal has its own error |
| `Outcomes.RotateSandboxKeyOutcome` | internal/subscriptions/service.go:722-754 | Likewise for the sandbox key, which must exist already |
| `Outcomes.EnableSandboxOutcome` | internal/subscriptions/service.go:664-710 | The sandbox opens exactly with a credential and an active subscription to a product with a sandbox; an existing key is kept, and answer, database and sandbox consumer agree on it |
| `Outcomes.ActivePlanIsNewest` | internal/subscriptions/repo.go:239-254 | A plan is found exactly if there is an active subscription, and it is the plan of the newest one |
| `Outcomes.UnsubscribeOutcome` | internal/subscriptions/service.go:455-467 | Cancelling succeeds exactly for existing products and removes just that subscription |
| `Outcomes.DeleteApplicationOutcome` | internal/subscriptions/service.go:475-510 | Without faults deletion always succeeds and takes exactly the application's rows, its production consumer if it has a credential, and its sandbox consumer if it holds a sandbox key |
| `Outcomes.SetOIDCClientIDOutcome` | internal/subscriptions/service.go:342-359 | Registering succeeds exactly for an existing application and an empty or well-formed client id |
| `Outcomes.DeleteProductOutcome` | internal/admin/service.go:190-208 | A product can be deleted exactly while it exists and nobody is active on it; its route and remaining subscriptions go with it |
| `Outcomes.CreateProductOutcome` | internal/admin/service.go:67-76 | A product can be created exactly if its path overlaps no stored one and its slug is free; the stored and returned row keeps every submitted field, with the defaults for the empty ones, and no other row changes |
| `Outcomes.UpdateProductOutcome` | internal/admin/service.go:81-160 | A product can be edited exactly if it exists, a new path overlaps no other product, a switch to oauth2 finds every active subscriber with a client id, and slug and path are unique; the obstacles are reported in the order path overlap, switch, slug; the stored and returned row keeps every submitted field, and a refusal changes nothing |
| `Outcomes.UpdatePlanOutcome` | internal/admin/plan_service.go:45-60 | A plan can be edited exactly if it exists and its name stays unique; it is stored as submitted, and both gateways stay untouched unless the limit changes |
| `Outcomes.NewRowOutcome` | internal/applications/repo.go:19-27 | A new application belongs to the given team and has no client id; a new plan is stored as submitted, exactly if its name is free |
| `Outcomes.SettleInvoiceOutcome` | internal/billing/repo.go:73-103 | An invoice can be settled exactly while it is pending, and a missing one is told from a settled one |
| `Outcomes.AcceptedExactly` | internal/subscriptions/service.go:409-452 | Without faults, an operation of any of the seventeen kinds goes through exactly if a condition on the tables before it holds, and one that is refused leaves tables and gateways as they were |
| `PlanEdits.EditReachesEveryone` | internal/admin/plan_service.go:45-60 | A limit change that reports success has given every active subscriber's consumer on the plan the new count and window, on both gateways |
| `PlanEdits.ApprovalAppliesPlan` | internal/subscriptions/service.go:547-571 | A successful key-auth approval leaves the subscription active and a consumer with the stored key, kept if there was one, and the limit of the requested plan |
| `Migration.MigrationStrandsNobody` | internal/admin/service.go:110-133 | A successful switch from key-auth to oauth2 of a product in use leaves a route listing exactly the active subscribers' client ids, once each, iff an issuer is configured |
| `Migration.GuardIsExact` | internal/admin/service.go:110-133 | The guard refuses exactly the switches that would strand an active subscriber without client id, and nothing else |
| `Migration.CountDecides` | internal/subscriptions/service.go:272-278 | Comparing the two counts decides whether everybody is ready |
| `Migration.CountIsLoadedOnce` | internal/admin/service.go:95-108 | A count that the guard has loaded is not loaded again: what follows is the rebuild, without another query |
| `Evolution.PathsStayDisjoint` | internal/admin/service.go:67-94 | In every run any request path is answered by the stored context path of at most one product |
| `Evolution.NoDoubleBilling` | internal/billing/service.go:31-60 | In every run a subscription id has at most one invoice that is not void |
| `Evolution.ApprovedIsBilledExactlyOnce` | internal/subscriptions/service.go:583-587 | After a successful approval on a plan with a price exactly one invoice is live, an earlier one or a new pending one with the plan's name, price and currency, the application's team and that team's account |
| `Evolution.BilledOnlyOnce` | internal/billing/service.go:31-46 | An approval on a plan without a price, or of a subscription billed already, touches neither accounts nor invoices, whatever fails |
| `Evolution.InvoicesCarryTheAccount` | internal/billing/service.go:50-58 | In every run each invoice's team has a billing account, the invoice carries it, and no two teams share one |
| `Evolution.AccountsStay` | internal/billing/repo.go:39-47 | Whatever happens later, a team keeps its account, and an invoice refers to its subscription for as long as that exists |
| `Evolution.InvoicesAreRecords` | internal/billing/repo.go:57-95 | Whatever happens later, an invoice keeps account, team, plan name, price and currency, and paid and void are final |
| `Evolution.RunLater` | internal/subscriptions/repo.go:302-305 | Between any two moments of a run no application, product or subscription id is reused, and the ledger and catalogue invariants carry over |
| `ContextPaths.OverlapMeansSharedRequest` | internal/admin/repo.go:106-117 | For valid paths the SQL test, with escaped underscores, holds iff some request is answered by both routes' URI pairs; it is symmetric |
| `ContextPaths.LikeIsPrefix` | internal/admin/repo.go:111-114 | The escaped LIKE pattern matches exactly the paths below a prefix |
| `AllowLists.DedupKeepsMembers` | internal/subscriptions/service.go:162-175 | Deduplication keeps exactly the non-empty strings, each once, in the order of first occurrence |
| `AllowLists.DedupStrings` | internal/subscriptions/service.go:162-175 | The loop over a set of seen strings computes it |
| `AllowLists.AppendMissing` | internal/subscriptions/service.go:311-322 | The nested loops append exactly the extras that are missing |
| `Naming.NamesAreInjective` | internal/subscriptions/service.go:158-178 | Different applications have different consumer names and different products different route ids |
| `Services.Service.ReprovisionRoute` | internal/subscriptions/service.go:284-332 | Computes the protocol function of that name, fault by fault |
| `Services.Service.ReprovisionSandboxRoute` | internal/subscriptions/service.go:626-657 | Likewise |
| `Services.Service.SetOIDCClientID` | internal/subscriptions/service.go:342-359 | Likewise, with the loop over the application's oauth2 products |
| `Services.Service.ReprovisionPlan` | internal/subscriptions/service.go:363-391 | Likewise, with the loops over both gateways' consumers |
| `Services.Service.Subscribe` | internal/subscriptions/service.go:409-452 | Likewise |
| `Services.Service.Unsubscribe` | internal/subscriptions/service.go:455-467 | Likewise |
| `Services.Service.DeleteApplication` | internal/subscriptions/service.go:475-510 | Likewise |
| `Services.Service.Approve` | internal/subscriptions/service.go:519-589 | Likewise |
| `Services.Service.Reject` | internal/subscriptions/service.go:594-615 | Likewise |
| `Services.Service.EnableSandbox` | internal/subscriptions/service.go:664-710 | Likewise |
| `Services.Service.RotateSandboxKey` | internal/subscriptions/service.go:722-754 | Likewise |
| `Services.Service.RotateKey` | internal/subscriptions/service.go:761-783 | Likewise |
| `Services.Service.CreateProduct` | internal/admin/service.go:67-76 | Likewise |
| `Services.Service.UpdateProduct` | internal/admin/service.go:81-160 | Likewise, with the active count loaded at most once |
| `Services.Service.DeleteProduct` | internal/admin/service.go:190-208 | Likewise, with the best-effort teardown |
| `Services.Service.SubscriptionActivated` | internal/billing/service.go:31-60 | Likewise |
| `Services.Service.UpdatePlan` | internal/admin/plan_service.go:45-60 | Likewise; plan names are unique, and the new row is returned |
| `Services.Service.MarkPaid` | internal/billing/repo.go:73-84 | Computes SettleInvoice: the conditional update and, if no row moved, the second query that chooses the error |
| `Services.Service.Void` | internal/billing/repo.go:86-95 | Likewise |
| `Gateways.Gateway.EnsureConsumer` | internal/apisix/fake.go:34-42 | The maps after the call, or unchanged if it fails |
| `Gateways.Gateway.EnsureRoute` | internal/apisix/fake.go:49-54 | Likewise |
| `Gateways.Gateway.DeleteRoute` | internal/apisix/fake.go:63-68 | Likewise; deleting what is not there changes nothing |
| `Gateways.Swappable.Swap` | internal/apisix/swappable.go:36-44 | From then on the client that calls are delegated to is exactly the one swapped in, or none |
| `RateLimiter.Limiter.Allow` | internal/httpx/ratelimit.go:151-179 | The answer and the next state, sweep included, are those of the bucket functions |
| `RateLimits.CallCosts` | internal/httpx/ratelimit.go:163-178 | An admitted call costs its key one token, a refused one nothing, now and later, and neither costs another key anything |
| `RateLimits.SweepIsInvisible` | internal/httpx/ratelimit.go:155-162 | If a bucket fills up within the idle time, every call of every trace gets the answer a limiter without sweep would give |
| `RateLimits.IdleBucketsGo` | internal/httpx/ratelimit.go:155-162 | After every call the limiter remembers only keys that called within the last eleven minutes, the idle time and one sweep interval |
| `RateLimitsExact.InvisibleExactlyWhen` | internal/httpx/ratelimit.go:14-17 | The exact condition: the sweep is unnoticeable iff burst < 1 or burst <= refill * 600 s |
| `RateLimitsExact.PortalLimiters` | internal/server/server.go:57-58 | The limiters the server builds meet it |
| `RateLimits.KeysAreIndependent` | internal/httpx/ratelimit.go:151-179 | The answer to a call is determined by the earlier calls for the same key |
| `RateLimitsExact.AdmissionBoundExactlyWhen` | internal/httpx/ratelimit.go:163-178 | In any window of any trace a key gets at most burst + refill * length calls admitted, exactly if burst < 1 or burst <= refill * 600 s |
| `RateLimits.RetryAfterIsEnough` | internal/httpx/ratelimit.go:48-51 | A refused key that stays silent for ceil(1/refill) seconds is admitted on its next call, whatever other keys and sweeps do |
| `SettingsService.Service.Set` | internal/settings/service.go:264-328 | Computes SetStep, of which the rows below say what it means: verdict, cross-field rule, probe and transaction in that order; all or nothing; the hooks see the published snapshot |
| `SettingsService.Service.Reset` | internal/settings/service.go:337-391 | Resolves what remains before deleting the row; all or nothing |
| `SettingsRuns.SetCompletesExactly` | internal/settings/service.go:264-291 | A Set that meets a working store is completed exactly if every key is known, editable and given an acceptable value, the merged values respect the mail rule, and the probe is passed or overruled; otherwise the first of these that fails is reported |
| `SettingsRuns.SetLeaves` | internal/settings/service.go:292-328 | The given keys have their new values, encrypted in the rows if secret, and no other key changes; an unforced Set has passed the probe with the very snapshot it publishes, and the probe refuses no forced one |
| `SettingsRuns.UnforcedChangesPassedTheProbe` | internal/settings/service.go:278-287 | In every run an unforced change that fails the probe reaches neither rows nor log nor snapshot |
| `SettingsRuns.ResetCompletesExactly` | internal/settings/service.go:337-391 | A Reset that meets a working store is completed exactly if the key is known and editable and what remains respects the mail rule; then just that key is back at its env default |
| `SettingsRuns.LogTellsWhatHappened` | internal/settings/service.go:304-323 | In every run each row logged since boot is that of a completed change: one of its keys, the acting admin, the force flag, never set for a Reset, and the values before and after, or "(secret)" twice |
| `SettingsRuns.SecretsAreNotLogged` | internal/settings/service.go:310-313 | So no value of a secret key is ever written to the log |
| `SettingsService.CheckKeys` | internal/settings/service.go:227-251 | Reports the alphabetically first unknown or read-only key, or else exactly the keys whose values are not accepted |
| `SettingsService.VerdictIsUnique` | internal/settings/service.go:220-226 | The same request always gets the same verdict |
| `SettingsService.BeforeIsLexicographic` | internal/settings/service.go:228-233 | The order the keys are checked in is byte order |
| `SettingsService.Service.LoadOverrides` | internal/settings/service.go:137-174 | Yields exactly the rows with a known key and a readable value |
| `SettingsService.Service.Resolve` | internal/settings/service.go:178-188 | Every registry key gets its override or its env default, and the source that says which |
| `SettingsRuns.SnapshotIsNeverStale` | internal/settings/service.go:208-218 | In every run the published snapshot, values and sources, is what a boot on the stored rows would resolve, although Set only overlays the previous one |
| `SettingsRuns.AuditIsAChain` | internal/settings/service.go:295-323 | For each key that is not secret the rows logged since boot form a chain from the boot value to the current value |
| `SettingsRuns.EntriesForKey` | internal/settings/service.go:304-323 | A Set logs one row for each key it was given and none for another |
| `SettingsRuns.ChangesAreSafe` | internal/settings/service.go:255-260 | A refused change leaves everything alone; after a change no snapshot is inconsistent, forced or not; read-only keys keep boot value and source; accepted values stay accepted |
| `SettingsRuns.BootIsConsistentExactlyWhen` | internal/settings/service.go:176-188 | A boot publishes a consistent snapshot exactly if mail server and sender resolve to values whenever verification resolves to on |
| `SettingsRuns.BootMayBeInconsistent` | internal/settings/service.go:137-174 | Where the environment names no mail server, one stored row is enough to make it inconsistent |
| `SettingsRuns.AlwaysConsistentExactlyWhen` | internal/settings/service.go:255-260 | The snapshots of a process are consistent from first to last exactly if its boot was |
| `SettingsRuns.BindingsFollow` | internal/server/server.go:169-196 | After every change, completed or refused, the production client has the snapshot's URL without trailing slashes and its key; there is a sandbox client, with its own two values, exactly if both sandbox URLs are set, and a usage reader exactly if the Prometheus URL is; issuer, claim and, if the value parses, trusted proxies are the snapshot's; the admin address is promoted once per change |
| `SettingsRuns.ProxiesAlwaysParse` | internal/server/server.go:59-74 | From acceptable settings the trusted proxies always are the parse of the published value |
| `SettingsServing.Serve` | internal/settings/service.go:208-218 | Any sequence of Set and Reset calls on the service object, with its hooks, is a run, and every registered server ends bound as the run says |
| `SettingsServing.ServeFromBoot` | internal/settings/service.go:208-218 | So a process that boots and serves such calls, whichever store calls fail, keeps object and server as a boot on its rows would make them |
| `Bindings.Server.constructor` | internal/server/server.go:63-102 | A booting server's bindings, value by value as above, with the fallback to the env value for unparsable proxies |
| `Bindings.Server.Rearm` | internal/server/server.go:169-196 | The hook's effect, value by value as above; unparsable proxies keep the previous ones, a changed admin address is promoted, and both gateways yield the clients of the snapshot, the sandbox only if it is configured |
| `Bindings.TrimSlashes` | internal/apisix/client.go:23-29 | The base URL without its trailing slashes and nothing else |
| `Registry.FindMember` | internal/settings/registry.go:74-82 | Lookup finds exactly the registered keys |
| `Registry.SecretKeys` | internal/settings/registry.go:47-72 | Which keys are secret and which are read-only, by name |
| `Registry.AcceptedPorts` | internal/settings/registry.go:98-102 | Of the decimal numerals a port accepts exactly those from 1 to 65535 |
| `Registry.AcceptedValues` | internal/settings/registry.go:86-120 | What each other kind of setting accepts |

## Left out

- Interleaved operations: the services hold no lock across their calls, so all run theorems are about serialized runs, where one operation finishes or aborts before the next starts.
- Calls that take effect but report failure, such as timeouts; a failed call has no effect. A stored key that cannot be decrypted is a failed read, and GetOrCreateCredential failing on decryption after its insert is not modelled.
- Changing the issuer, the sandbox availability or the gateways during a run: neither `ConfigureOIDC` nor `Swap` rebuilds anything. The route theorems are about runs with an issuer configured.
- Guarantees.DeletedMeansCutOff: speaks of the application's consumer; its client id can stay on a route that is behind, as `Witnesses.DeletedClientStillListed` shows, and on no other (`ReconciledRuns.DeletedIsUnlisted`).
- Guarantees.ActiveMeansProvisioned: the comment on Approve promises it for every run; it is false of some, and `Guarantees.ProvisionedExactlyWhen` says which.
- The issuer and claim inside an oauth2 route: the in-memory gateway keeps only a flag.
- Which of several plans limits an application's consumer in the long run: the limit is per application and the last operation to write it wins.
- Deleting plans, teams and ratings, catalogue search, changelogs and icons; an icon is only the store write that may fail. Products keep the fields that provisioning reads.
- The order in which queries without ORDER BY return rows: the model uses id order, and no theorem depends on it. Equal creation times of subscriptions are told apart by id.
- HTTP handlers, JSON, upstream validation and the Admin API client's requests and status codes; of the admin handler only the path check and the configured-issuer check are kept.
- Events, notifications and the billing provider's charge, which the manual provider makes a no-op.
- Floating-point rounding, a clock that runs backwards, and buckets as shared pointers: the limiter keeps bucket values, tokens and seconds as reals.
- AES-GCM: decrypting an encrypted value gives it back; key generation: any non-empty key. URL and CIDR parsing are parameters; the only law used is that an empty list parses to no networks.
- Probes are a parameter of Set; the connection test that probes without saving is not modelled.
- The delegating methods of the swappable gateway: the services are given the in-memory gateways themselves. The global Prometheus rule set at boot is not modelled.
