/** The settings service at work: any sequence of Set and Reset calls on the object, hooks
    included, is a run, so that what holds of runs holds of the object and its servers. */
module SettingsServing {
  import opened Common
  import opened Registry
  import opened SettingsModel
  import opened SettingsService
  import opened SettingsRuns
  import B = Bindings

  /** What an admin may ask for. */
  datatype Request =
    | ToSet(values: map<string, string>, admin: int, force: bool, probe: Effective -> bool, salt: string -> nat)
    | ToReset(key: string, admin: int)

  /** A server's bindings after one more event. */
  ghost predicate Follows(h: B.Server, was: B.Bound, event: Event)
    reads h, h.prodGW, h.sandboxGW
  {
    h.Now() == if Publishes(event) then B.Rearmed(h.cfg, was, event.next.snap) else was
  }

  predicate Publishes(event: Event) {
    event.outcome.Done? && !(event.change.Setting? && event.change.values == map[])
  }

  method Handle(service: Service, request: Request) returns (outcome: Outcome, ghost event: Event)
    requires B.Apart(service.hooks)
    modifies service, service.Footprint()
    ensures service.hooks == old(service.hooks) && event.outcome == outcome && event.next == service.Now()
    ensures SettingsRuns.Step(service.cfg, old(service.Now()), event.change, outcome, event.next)
    ensures forall h :: h in service.hooks ==> Follows(h, old(h.Now()), event)
  {
    hide SetStep;
    hide ResetStep;
    match request {
      case ToSet(values, admin, force, probe, salt) =>
        ghost var order;
        outcome, order := service.Set(values, admin, force, probe, salt);
        event := Event(Setting(values, admin, force, probe, salt, order), outcome, service.Now());
      case ToReset(key, admin) =>
        outcome := service.Reset(key, admin);
        event := Event(Resetting(key, admin), outcome, service.Now());
    }
  }

  /** Any sequence of requests to a service that has just booted is a run, and every
      registered server ends bound as the run says. */
  method Serve(service: Service, requests: seq<Request>) returns (ghost run: seq<Event>)
    requires B.Apart(service.hooks) && service.Now() == Boot(service.cfg, service.rows, service.audit)
    modifies service, service.Footprint()
    ensures service.hooks == old(service.hooks) && |run| == |requests|
    ensures IsRun(service.cfg, old(service.Now()), run) && End(old(service.Now()), run) == service.Now()
    ensures forall h :: h in service.hooks ==> h.Now() == Bound(h.cfg, old(h.Now()), run)
  {
    hide SettingsRuns.Step;
    hide Boot;
    run := [];
    for i := 0 to |requests|
      invariant service.hooks == old(service.hooks) && |run| == i
      invariant IsRun(service.cfg, old(service.Now()), run) && End(old(service.Now()), run) == service.Now()
      invariant forall h :: h in service.hooks ==> h.Now() == Bound(h.cfg, old(h.Now()), run)
    {
      ghost var before := run;
      var outcome;
      ghost var event;
      outcome, event := Handle(service, requests[i]);
      run := run + [event];
      RunGrows(service.cfg, old(service.Now()), before, event);
      forall h | h in service.hooks ensures h.Now() == Bound(h.cfg, old(h.Now()), run) {
        BoundGrows(h.cfg, old(h.Now()), before, event);
      }
    }
  }

  lemma RunGrows(cfg: Config, first: State, run: seq<Event>, event: Event)
    requires IsRun(cfg, first, run) && SettingsRuns.Step(cfg, End(first, run), event.change, event.outcome, event.next)
    ensures IsRun(cfg, first, run + [event]) && End(first, run + [event]) == event.next
  {
    hide SettingsRuns.Step;
    hide Boot;
    var more := run + [event];
    assert more[..|run|] == run;
    forall i | 0 <= i < |run| ensures more[..i] == run[..i] {
    }
  }

  lemma BoundGrows(cfg: Config, b: B.Bound, run: seq<Event>, event: Event)
    ensures Bound(cfg, b, run + [event])
            == if Publishes(event) then B.Rearmed(cfg, Bound(cfg, b, run), event.next.snap) else Bound(cfg, b, run)
  {
    assert (run + [event])[..|run|] == run;
  }

  /** A process that boots on these rows and handles these requests, whichever store calls
      fail: its snapshot is the one a boot on the rows it leaves would publish, its server
      is bound as if it had booted on that snapshot, and the snapshot is consistent unless
      nothing was ever published and the rows it booted on were not. */
  method ServeFromBoot(cfg: Config, rows: map<string, string>, audit: seq<AuditRow>, faults: seq<bool>,
                       requests: seq<Request>)
    returns (service: Service, server: B.Server)
    requires cfg.cipher.Lawful() && B.BootProxies(cfg, Boot(cfg, rows, audit).snap).Some?
    ensures service.cfg == cfg && service.Now() == Boot(cfg, service.rows, service.audit)
    ensures B.LikeBooted(cfg, server.Now(), service.snap) && B.PromotedOncePerChange(server.Now())
    ensures service.snap.Consistent() || (service.Now() == Boot(cfg, rows, audit) && !MailIfVerified(cfg, rows))
  {
    hide Boot;
    hide B.BootBound;
    hide B.BootProxies;
    hide B.LikeBooted;
    hide MailIfVerified;
    hide Bound;
    service := new Service(cfg, rows, audit);
    service.faults := faults;
    server := new B.Server(cfg, service.snap);
    service.OnChange(server);
    ghost var first, run := service.Now(), [];
    assert first == Boot(cfg, first.rows, first.audit) by { BootKeepsRows(cfg, rows, audit); }
    run := Serve(service, requests);
    SnapshotIsNeverStale(cfg, first, run);
    BindingsFollow(cfg, first, run);
    ChangesAreSafe(cfg, first, run);
    BootIsConsistentExactlyWhen(cfg, rows, audit);
  }

  lemma BootKeepsRows(cfg: Config, rows: map<string, string>, audit: seq<AuditRow>)
    ensures Boot(cfg, rows, audit).rows == rows && Boot(cfg, rows, audit).audit == audit
  {
  }
}
