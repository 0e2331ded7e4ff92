/** What the settings store guarantees over every run of Set and Reset in one process:
    the published snapshot is never stale, the audit log is a chain, no published
    snapshot breaks a rule, and the server's bindings follow it. */
module SettingsRuns {
  import opened Common
  import opened Registry
  import opened SettingsModel
  import opened Bindings

  datatype Change =
    | Setting(values: map<string, string>, admin: int, force: bool, probe: Effective -> bool, salt: string -> nat,
              order: seq<string>)
    | Resetting(key: string, admin: int)

  ghost predicate Step(cfg: Config, st: State, change: Change, outcome: Outcome, next: State) {
    match change
    case Setting(values, admin, force, probe, salt, order) =>
      SetStep(cfg, st, values, admin, force, probe, salt, order, outcome, next)
    case Resetting(key, admin) => ResetStep(cfg, st, key, admin, outcome, next)
  }

  datatype Event = Event(change: Change, outcome: Outcome, next: State)

  /** Where a run ends. */
  function End(first: State, run: seq<Event>): State {
    if run == [] then first else run[|run| - 1].next
  }

  /** A process that booted in `first` and then saw these changes, one after another. */
  ghost predicate IsRun(cfg: Config, first: State, run: seq<Event>) {
    && first == Boot(cfg, first.rows, first.audit)
    && forall i :: 0 <= i < |run| ==> Step(cfg, End(first, run[..i]), run[i].change, run[i].outcome, run[i].next)
  }

  lemma RunPrefix(cfg: Config, first: State, run: seq<Event>)
    requires IsRun(cfg, first, run) && run != []
    ensures var n := |run| - 1;
            IsRun(cfg, first, run[..n]) && Step(cfg, End(first, run[..n]), run[n].change, run[n].outcome, run[n].next)
  {
    hide Step;
    hide Boot;
    var before := run[..|run| - 1];
    forall i | 0 <= i < |before| ensures before[..i] == run[..i] {
    }
  }

  lemma KnownIsFound(key: string)
    ensures Lookup(key).Some? <==> key in KnownKeys()
    ensures Lookup(key).Some? ==> Lookup(key).value in Defs() && Lookup(key).value.key == key
  {
    hide Defs;
    FindMember(Defs(), key);
  }

  /** A change that goes through touches only keys that exist and may be edited. */
  lemma AcceptedKeys(cfg: Config, values: map<string, string>, key: string)
    requires Verdict(cfg, values, Done) && key in values
    ensures key in KnownKeys() && !Offends(key) && Acceptable(cfg, key, values[key])
  {
    hide KnownKeys;
    hide Find;
    hide Defs;
    KnownIsFound(key);
    assert key !in Offenders(values) && key !in Unaccepted(cfg, values);
  }

  // ---- the snapshot is the recomputation

  ghost predicate Current(cfg: Config, st: State) {
    st.snap == Build(cfg, Overrides(cfg, st.rows))
  }

  /** Storing a value and reading it back: secrets decrypt to what was encrypted. */
  lemma StoredReadsBack(cfg: Config, salt: string -> nat, key: string, value: string)
    requires cfg.cipher.Lawful() && Lookup(key).Some?
    ensures ReadRow(cfg, key, StoredForm(cfg, salt, key, value)) == Some(value)
  {
    hide Find;
  }

  lemma UpsertedOverrides(cfg: Config, rows: map<string, string>, salt: string -> nat, values: map<string, string>)
    requires cfg.cipher.Lawful() && forall k :: k in values ==> Lookup(k).Some?
    ensures Overrides(cfg, Upserted(cfg, rows, salt, values)) == Overrides(cfg, rows) + values
  {
    hide ReadRow;
    hide StoredForm;
    hide Lookup;
    forall k | k in values ensures ReadRow(cfg, k, StoredForm(cfg, salt, k, values[k])) == Some(values[k]) {
      StoredReadsBack(cfg, salt, k, values[k]);
    }
  }

  /** Overlaying the old snapshot is resolving the new overrides. */
  lemma OverlayIsRebuild(cfg: Config, overrides: map<string, string>, values: map<string, string>)
    requires forall k :: k in values ==> k in KnownKeys()
    ensures Candidate(Build(cfg, overrides), values) == Build(cfg, overrides + values)
  {
    hide KnownKeys;
    var one, two := Candidate(Build(cfg, overrides), values), Build(cfg, overrides + values);
    assert one.values == two.values;
    assert one.source == two.source;
  }

  lemma ResetOverrides(cfg: Config, rows: map<string, string>, key: string)
    ensures Overrides(cfg, rows - {key}) == Overrides(cfg, rows) - {key}
  {
    hide ReadRow;
  }

  lemma StepStaysCurrent(cfg: Config, st: State, change: Change, outcome: Outcome, next: State)
    requires cfg.cipher.Lawful() && Current(cfg, st) && Step(cfg, st, change, outcome, next)
    ensures Current(cfg, next)
  {
    hide Verdict;
    hide Build;
    hide Overrides;
    hide Upserted;
    hide Candidate;
    hide Find;
    match change {
      case Setting(values, admin, force, probe, salt, order) =>
        if next != st {
          forall k | k in values ensures k in KnownKeys() && Lookup(k).Some? {
            AcceptedKeys(cfg, values, k);
          }
          UpsertedOverrides(cfg, st.rows, salt, values);
          OverlayIsRebuild(cfg, Overrides(cfg, st.rows), values);
        }
      case Resetting(key, admin) =>
        ResetOverrides(cfg, st.rows, key);
    }
  }

  /** In every run the published snapshot, values and sources, is what a fresh boot on
      the stored rows would resolve. */
  lemma {:induction false} SnapshotIsNeverStale(cfg: Config, first: State, run: seq<Event>)
    requires cfg.cipher.Lawful() && IsRun(cfg, first, run)
    ensures var end := End(first, run);
            end.snap == Build(cfg, Overrides(cfg, end.rows)) && Boot(cfg, end.rows, end.audit) == end
  {
    hide Step;
    hide Build;
    hide Overrides;
    if run != [] {
      RunPrefix(cfg, first, run);
      var n := |run| - 1;
      SnapshotIsNeverStale(cfg, first, run[..n]);
      StepStaysCurrent(cfg, End(first, run[..n]), run[n].change, run[n].outcome, run[n].next);
    }
  }

  // ---- the audit log is a chain

  function ForKey(rows: seq<AuditRow>, key: string): seq<AuditRow> {
    if rows == [] then []
    else
      var last := rows[|rows| - 1];
      var rest := ForKey(rows[..|rows| - 1], key);
      if last.key == key then rest + [last] else rest
  }

  /** Each row starts where the one before it ended. */
  ghost predicate Chain(rows: seq<AuditRow>, first: string, last: string) {
    if rows == [] then first == last
    else rows[|rows| - 1].now == last && Chain(rows[..|rows| - 1], first, rows[|rows| - 1].was)
  }

  lemma ChainMore(rows: seq<AuditRow>, first: string, last: string, row: AuditRow)
    requires Chain(rows, first, last) && row.was == last
    ensures Chain(rows + [row], first, row.now)
  {
    assert (rows + [row])[..|rows|] == rows;
  }

  lemma {:induction false} ForKeySplits(rows: seq<AuditRow>, more: seq<AuditRow>, key: string)
    ensures ForKey(rows + more, key) == ForKey(rows, key) + ForKey(more, key)
  {
    if more == [] {
      assert rows + more == rows;
    } else {
      assert (rows + more)[..|rows + more| - 1] == rows + more[..|more| - 1];
      ForKeySplits(rows, more[..|more| - 1], key);
    }
  }

  /** A Set logs one row for each key it was given and none for any other. */
  lemma {:induction false} EntriesForKey(was: Effective, order: seq<string>, values: map<string, string>, admin: int,
                                         forced: bool, key: string)
    requires forall k :: k in order ==> k in values
    requires forall i, j :: 0 <= i < j < |order| ==> order[i] != order[j]
    ensures ForKey(Entries(was, order, values, admin, forced), key)
              == if key in order then [Entry(was, key, values[key], admin, forced)] else []
  {
    hide Entry;
    if order != [] {
      var n := |order| - 1;
      EntriesForKey(was, order[..n], values, admin, forced, key);
      var entries := Entries(was, order, values, admin, forced);
      assert entries[..n] == Entries(was, order[..n], values, admin, forced);
      assert order == order[..n] + [order[n]];
      EntryKey(was, order[n], values[order[n]], admin, forced);
    }
  }

  lemma EntryKey(was: Effective, key: string, value: string, admin: int, forced: bool)
    ensures Entry(was, key, value, admin, forced).key == key
  {
  }

  /** The log rows a completed change adds for one key of the given registry. */
  ghost predicate Logged(st: State, next: State, key: string) {
    exists more ::
      && next.audit == st.audit + more
      && Chain(ForKey(more, key), st.snap.Get(key), next.snap.Get(key))
      && |ForKey(more, key)| <= 1
  }

  predicate PlainKey(key: string) {
    Lookup(key).Some? && !Lookup(key).value.secret
  }

  lemma StepLogs(cfg: Config, st: State, change: Change, outcome: Outcome, next: State, key: string)
    requires Current(cfg, st) && Step(cfg, st, change, outcome, next) && PlainKey(key)
    ensures Logged(st, next, key)
  {
    hide Verdict;
    hide Build;
    hide Overrides;
    hide Upserted;
    hide Find;
    if next == st {
      assert next.audit == st.audit + [];
    } else {
      match change
      case Setting(values, admin, force, probe, salt, order) =>
        SetLogs(cfg, st, values, admin, force, salt, order, next, key);
      case Resetting(k, admin) =>
        ResetLogs(cfg, st, k, admin, next, key);
    }
  }

  lemma SetLogs(cfg: Config, st: State, values: map<string, string>, admin: int, force: bool, salt: string -> nat,
                order: seq<string>, next: State, key: string)
    requires PlainKey(key) && Enumerates(order, values.Keys)
    requires next.audit == st.audit + Entries(st.snap, order, values, admin, force)
             && next.snap == Candidate(st.snap, values)
    ensures Logged(st, next, key)
  {
    hide Find;
    hide Entries;
    var more := Entries(st.snap, order, values, admin, force);
    EntriesForKey(st.snap, order, values, admin, force, key);
    if key in values {
      ChainMore([], st.snap.Get(key), st.snap.Get(key), Entry(st.snap, key, values[key], admin, force));
      assert [] + [Entry(st.snap, key, values[key], admin, force)] == [Entry(st.snap, key, values[key], admin, force)];
    }
  }

  lemma ResetLogs(cfg: Config, st: State, k: string, admin: int, next: State, key: string)
    requires Current(cfg, st) && PlainKey(key)
    requires next.audit == st.audit + [Entry(st.snap, k, cfg.EnvDefault(k), admin, false)]
    requires next.snap == Build(cfg, Overrides(cfg, st.rows) - {k})
    ensures Logged(st, next, key)
  {
    hide Build;
    hide Overrides;
    hide Find;
    ResetValue(cfg, Overrides(cfg, st.rows), k, key);
    var row := Entry(st.snap, k, cfg.EnvDefault(k), admin, false);
    assert [row][..0] == [];
    if k == key {
      ChainMore([], st.snap.Get(key), st.snap.Get(key), row);
      assert [] + [row] == [row];
    }
    assert ForKey([row], key) == if k == key then [row] else [];
  }

  /** Dropping an override gives its key the env default and no other key another value. */
  lemma ResetValue(cfg: Config, overrides: map<string, string>, k: string, key: string)
    requires Lookup(key).Some?
    ensures Build(cfg, overrides - {k}).Get(key) == if k == key then cfg.EnvDefault(k)
                                                    else Build(cfg, overrides).Get(key)
  {
    hide KnownKeys;
    hide Find;
    KnownIsFound(key);
  }

  /** For each key that is not secret, the rows logged since boot form a chain from the
      boot value to the current one. */
  lemma {:induction false} AuditIsAChain(cfg: Config, first: State, run: seq<Event>, key: string)
    requires cfg.cipher.Lawful() && IsRun(cfg, first, run) && PlainKey(key)
    ensures first.audit <= End(first, run).audit
    ensures Chain(ForKey(End(first, run).audit[|first.audit|..], key), first.snap.Get(key),
                  End(first, run).snap.Get(key))
  {
    hide Step;
    hide PlainKey;
    hide Boot;
    hide Build;
    hide Overrides;
    hide Chain;
    if run == [] {
      assert first.audit[|first.audit|..] == [];
      NoLinks(first.snap.Get(key));
    } else {
      RunPrefix(cfg, first, run);
      var n := |run| - 1;
      var before, after := End(first, run[..n]), run[n].next;
      AuditIsAChain(cfg, first, run[..n], key);
      SnapshotIsNeverStale(cfg, first, run[..n]);
      StepLogs(cfg, before, run[n].change, run[n].outcome, after, key);
      var more :| && after.audit == before.audit + more
                  && Chain(ForKey(more, key), before.snap.Get(key), after.snap.Get(key))
                  && |ForKey(more, key)| <= 1;
      var rows := before.audit[|first.audit|..];
      assert after.audit[|first.audit|..] == rows + more;
      ForKeySplits(rows, more, key);
      OneMoreLink(ForKey(rows, key), ForKey(more, key), first.snap.Get(key), before.snap.Get(key), after.snap.Get(key));
    }
  }

  lemma NoLinks(value: string)
    ensures Chain([], value, value)
  {
  }

  lemma OneMoreLink(rows: seq<AuditRow>, more: seq<AuditRow>, first: string, mid: string, last: string)
    requires Chain(rows, first, mid) && Chain(more, mid, last) && |more| <= 1
    ensures Chain(rows + more, first, last)
  {
    if more == [] {
      assert rows + more == rows;
    } else {
      assert more[..0] == [] && more == [more[0]];
      ChainMore(rows, first, mid, more[0]);
    }
  }

  // ---- what a row of the log says

  /** The row is what this change should log for one of its keys, made while the snapshot
      was `was`: the value before and after, or neither for a secret; who made the change;
      and whether it was forced, which a Reset never is. */
  ghost predicate LogsChange(cfg: Config, was: Effective, change: Change, row: AuditRow) {
    match change
    case Setting(values, admin, force, _, _, _) =>
      && row.key in values && row.admin == admin && row.forced == force
      && if row.key in SECRETS then row.was == row.now == "(secret)"
         else row.was == was.Get(row.key) && row.now == values[row.key]
    case Resetting(key, admin) =>
      && row.key == key && row.admin == admin && !row.forced
      && if row.key in SECRETS then row.was == row.now == "(secret)"
         else row.was == was.Get(row.key) && row.now == cfg.EnvDefault(key)
  }

  lemma EntryShows(was: Effective, key: string, value: string, admin: int, forced: bool)
    requires Lookup(key).Some?
    ensures var row := Entry(was, key, value, admin, forced);
            && row.key == key && row.admin == admin && row.forced == forced
            && if key in SECRETS then row.was == row.now == "(secret)" else row.was == was.Get(key) && row.now == value
  {
    hide Find;
    SecretKeys(key);
  }

  lemma StepLogsChange(cfg: Config, st: State, change: Change, outcome: Outcome, next: State)
    requires Step(cfg, st, change, outcome, next)
    ensures st.audit <= next.audit
    ensures forall j :: |st.audit| <= j < |next.audit| ==>
              outcome.Done? && LogsChange(cfg, st.snap, change, next.audit[j])
  {
    hide Find;
    hide Verdict;
    hide Build;
    hide Overrides;
    hide Upserted;
    hide Entry;
    if next != st {
      match change
      case Setting(values, admin, force, probe, salt, order) =>
        var more := Entries(st.snap, order, values, admin, force);
        assert next.audit == st.audit + more;
        forall j | |st.audit| <= j < |next.audit| ensures LogsChange(cfg, st.snap, change, next.audit[j]) {
          var key := order[j - |st.audit|];
          assert key in order;
          AcceptedKeys(cfg, values, key);
          EntryShows(st.snap, key, values[key], admin, force);
        }
      case Resetting(key, admin) =>
        EntryShows(st.snap, key, cfg.EnvDefault(key), admin, false);
    }
  }

  ghost predicate LoggedBy(cfg: Config, first: State, run: seq<Event>, i: nat, row: AuditRow) {
    i < |run| && run[i].outcome.Done? && LogsChange(cfg, End(first, run[..i]).snap, run[i].change, row)
  }

  /** In every run each row logged since boot is that of a completed change of the run. */
  lemma {:induction false} LogTellsWhatHappened(cfg: Config, first: State, run: seq<Event>, j: nat)
    requires IsRun(cfg, first, run) && |first.audit| <= j < |End(first, run).audit|
    ensures exists i: nat :: LoggedBy(cfg, first, run, i, End(first, run).audit[j])
    decreases |run|
  {
    hide Step;
    hide Boot;
    hide LogsChange;
    RunPrefix(cfg, first, run);
    var n := |run| - 1;
    var before := End(first, run[..n]);
    StepLogsChange(cfg, before, run[n].change, run[n].outcome, run[n].next);
    if j < |before.audit| {
      LogTellsWhatHappened(cfg, first, run[..n], j);
      var i: nat :| LoggedBy(cfg, first, run[..n], i, before.audit[j]);
      assert run[..n][..i] == run[..i];
      assert LoggedBy(cfg, first, run, i, End(first, run).audit[j]);
    } else {
      assert LoggedBy(cfg, first, run, n, End(first, run).audit[j]);
    }
  }

  /** So no secret is ever written to the log. */
  lemma SecretsAreNotLogged(cfg: Config, first: State, run: seq<Event>, j: nat)
    requires IsRun(cfg, first, run) && |first.audit| <= j < |End(first, run).audit|
    requires End(first, run).audit[j].key in SECRETS
    ensures End(first, run).audit[j].was == End(first, run).audit[j].now == "(secret)"
  {
    hide IsRun;
    LogTellsWhatHappened(cfg, first, run, j);
  }

  // ---- what a change needs, and what it leaves

  /** The value of a key once these values are laid over the snapshot. */
  function Overlaid(cur: Effective, values: map<string, string>, key: string): string {
    if key in values then values[key] else cur.Get(key)
  }

  /** A Set that meets a working store is completed exactly if every key is known, editable
      and given a value its type accepts, verification comes with a mail server and a sender,
      and the probe is passed or overruled. */
  lemma SetCompletesExactly(cfg: Config, st: State, values: map<string, string>, admin: int, force: bool,
                            probe: Effective -> bool, salt: string -> nat, order: seq<string>,
                            outcome: Outcome, next: State)
    requires SetStep(cfg, st, values, admin, force, probe, salt, order, outcome, next)
    requires values != map[] && outcome != Refused(StoreDown)
    ensures outcome.Done? <==>
              && (forall k :: k in values ==>
                  Lookup(k).Some? && k !in FIXED && Accepts(cfg.parsers, Lookup(k).value, values[k]))
              && (Overlaid(st.snap, values, REQUIRE_EMAIL_VERIFICATION) == "1" ==>
                    Overlaid(st.snap, values, SMTP_HOST) != "" && Overlaid(st.snap, values, SMTP_FROM) != "")
              && (force || probe(Candidate(st.snap, values)))
    ensures outcome.Refused? && Verdict(cfg, values, Done) ==>
              outcome == Refused(if Candidate(st.snap, values).Consistent() then ProbeFailed else Inconsistent)
    ensures !Verdict(cfg, values, Done) ==> Verdict(cfg, values, outcome)
  {
    hide Find;
    hide Verdict;
    hide Candidate;
    hide Entries;
    hide Upserted;
    hide Enumerates;
    hide Effective.Consistent;
    AllAcceptable(cfg, values);
    MailRule(st.snap, values);
    VerdictIsNotTheProbe(cfg, values);
  }

  /** The verdict is favourable exactly if every key is known and editable and its value
      acceptable. */
  lemma AllAcceptable(cfg: Config, values: map<string, string>)
    ensures Verdict(cfg, values, Done) <==>
              forall k :: k in values ==>
                Lookup(k).Some? && k !in FIXED && Accepts(cfg.parsers, Lookup(k).value, values[k])
  {
    hide Find;
    hide Accepts;
    hide IsLeast;
    forall k | k in values
      ensures Lookup(k).Some? ==> (k in FIXED <==> !Lookup(k).value.editable)
    {
      SecretKeys(k);
    }
    if Offenders(values) == {} && Unaccepted(cfg, values) == {} {
      forall k | k in values ensures !Offends(k) && Acceptable(cfg, k, values[k]) {
        assert k !in Offenders(values) && k !in Unaccepted(cfg, values);
      }
    }
  }

  lemma MailRule(cur: Effective, values: map<string, string>)
    ensures Candidate(cur, values).Consistent() <==>
              (Overlaid(cur, values, REQUIRE_EMAIL_VERIFICATION) == "1" ==>
                 Overlaid(cur, values, SMTP_HOST) != "" && Overlaid(cur, values, SMTP_FROM) != "")
  {
  }

  /** What a completed Set leaves: the given keys have their new values, in the rows encrypted
      if they are secrets, and no other key changes; an unforced one has passed the probe
      with the very snapshot it publishes. The probe refuses no forced one. */
  lemma SetLeaves(cfg: Config, st: State, values: map<string, string>, admin: int, force: bool,
                  probe: Effective -> bool, salt: string -> nat, order: seq<string>,
                  outcome: Outcome, next: State, key: string)
    requires SetStep(cfg, st, values, admin, force, probe, salt, order, outcome, next) && values != map[]
    ensures outcome.Done? ==>
              && next.snap.Get(key) == Overlaid(st.snap, values, key)
              && (key in next.rows <==> key in st.rows || key in values)
              && (key in next.rows ==>
                    next.rows[key] == if key !in values then st.rows[key]
                                      else if key in SECRETS then cfg.cipher.seal(salt(key), values[key])
                                      else values[key])
              && (force || probe(next.snap))
    ensures outcome == Refused(ProbeFailed) ==> !force && !probe(Candidate(st.snap, values))
  {
    hide Find;
    hide Verdict;
    hide Entries;
    SecretKeys(key);
    VerdictIsNotTheProbe(cfg, values);
    if key in values && outcome.Done? {
      AcceptedKeys(cfg, values, key);
    }
  }

  lemma VerdictIsNotTheProbe(cfg: Config, values: map<string, string>)
    ensures !Verdict(cfg, values, Refused(ProbeFailed))
  {
  }

  /** The value of a key once this one is back at its env default. */
  function Reverted(cfg: Config, cur: Effective, reset: string, key: string): string {
    if key == reset then cfg.EnvDefault(key) else cur.Get(key)
  }

  /** A Reset that meets a working store is completed exactly if the key is known and
      editable and verification, if still on, keeps mail server and sender; then the key is
      back at its env default, its row is gone, and no other key changes. */
  lemma ResetCompletesExactly(cfg: Config, st: State, reset: string, admin: int, outcome: Outcome, next: State,
                              key: string)
    requires Current(cfg, st) && ResetStep(cfg, st, reset, admin, outcome, next) && outcome != Refused(StoreDown)
    ensures outcome.Done? <==>
              && Lookup(reset).Some? && reset !in FIXED
              && (Reverted(cfg, st.snap, reset, REQUIRE_EMAIL_VERIFICATION) == "1" ==>
                    Reverted(cfg, st.snap, reset, SMTP_HOST) != "" && Reverted(cfg, st.snap, reset, SMTP_FROM) != "")
    ensures outcome.Done? ==>
              && next.rows == st.rows - {reset}
              && (Lookup(key).Some? ==> next.snap.Get(key) == Reverted(cfg, st.snap, reset, key))
  {
    hide Find;
    hide Build;
    hide Overrides;
    hide PlainKey;
    SecretKeys(reset);
    HostDef();
    SenderDef();
    VerificationDef();
    RevertedValue(cfg, st, reset, SMTP_HOST);
    RevertedValue(cfg, st, reset, SMTP_FROM);
    RevertedValue(cfg, st, reset, REQUIRE_EMAIL_VERIFICATION);
    RevertedValue(cfg, st, reset, key);
  }

  lemma RevertedValue(cfg: Config, st: State, reset: string, key: string)
    requires Current(cfg, st)
    ensures Lookup(key).Some? || PlainKey(key) ==>
              Build(cfg, Overrides(cfg, st.rows) - {reset}).Get(key) == Reverted(cfg, st.snap, reset, key)
  {
    hide Find;
    hide Build;
    hide Overrides;
    if Lookup(key).Some? {
      ResetValue(cfg, Overrides(cfg, st.rows), reset, key);
    }
  }

  /** In every run, a change whose values fail the probe reaches neither rows nor log nor
      snapshot unless it is forced. */
  lemma UnforcedChangesPassedTheProbe(cfg: Config, first: State, run: seq<Event>, i: nat)
    requires IsRun(cfg, first, run) && i < |run| && run[i].change.Setting? && run[i].change.values != map[]
    requires !run[i].change.force
    ensures run[i].outcome.Done? ==> run[i].change.probe(run[i].next.snap)
    ensures !run[i].change.probe(Candidate(End(first, run[..i]).snap, run[i].change.values)) ==>
              run[i].outcome.Refused? && run[i].next == End(first, run[..i])
  {
    hide Boot;
    hide Verdict;
    hide Entries;
    hide Upserted;
    hide Enumerates;
    hide Candidate;
  }

  // ---- what no change can do

  /** A snapshot that follows the rules: no verification without mail, and every editable
      key has a value its type accepts. */
  ghost predicate AllAccepted(cfg: Config, e: Effective) {
    forall k :: k in KnownKeys() && !Offends(k) ==> Acceptable(cfg, k, e.Get(k))
  }

  ghost predicate EnvAccepted(cfg: Config) {
    forall k :: k in KnownKeys() && !Offends(k) ==> Acceptable(cfg, k, cfg.EnvDefault(k))
  }

  /** What one change keeps of the snapshot it replaces. */
  lemma StepKeeps(cfg: Config, st: State, change: Change, outcome: Outcome, next: State)
    requires Current(cfg, st) && Step(cfg, st, change, outcome, next)
    ensures outcome.Refused? ==> next == st
    ensures next != st ==> next.snap.Consistent()
    ensures forall k :: k in KnownKeys() && Offends(k) ==>
              next.snap.Get(k) == st.snap.Get(k) && (k in next.snap.source <==> k in st.snap.source)
              && (k in st.snap.source ==> next.snap.source[k] == st.snap.source[k])
    ensures EnvAccepted(cfg) && AllAccepted(cfg, st.snap) ==> AllAccepted(cfg, next.snap)
  {
    hide Verdict;
    hide Overrides;
    hide Upserted;
    hide KnownKeys;
    hide Offends;
    hide Acceptable;
    hide Entries;
    if change.Setting? && next != st {
      forall k | k in change.values ensures !Offends(k) && Acceptable(cfg, k, change.values[k]) {
        AcceptedKeys(cfg, change.values, k);
      }
    }
  }

  /** A refused change leaves rows, audit log and snapshot alone; once one change has
      gone through, no snapshot is inconsistent again, forced or not; and a key that may
      not be edited keeps its boot value and source for the whole run. */
  lemma {:induction false} ChangesAreSafe(cfg: Config, first: State, run: seq<Event>)
    requires cfg.cipher.Lawful() && IsRun(cfg, first, run)
    ensures forall i :: 0 <= i < |run| && run[i].outcome.Refused? ==> run[i].next == End(first, run[..i])
    ensures var end := End(first, run); end == first || end.snap.Consistent()
    ensures forall k :: k in KnownKeys() && Offends(k) ==>
              End(first, run).snap.Get(k) == first.snap.Get(k)
              && (k in End(first, run).snap.source <==> k in first.snap.source)
              && (k in first.snap.source ==> End(first, run).snap.source[k] == first.snap.source[k])
    ensures EnvAccepted(cfg) && AllAccepted(cfg, first.snap) ==> AllAccepted(cfg, End(first, run).snap)
  {
    hide Step;
    hide Boot;
    hide Build;
    hide Overrides;
    hide KnownKeys;
    hide Offends;
    hide AllAccepted;
    hide EnvAccepted;
    if run != [] {
      RunPrefix(cfg, first, run);
      var n := |run| - 1;
      var before := run[..n];
      ChangesAreSafe(cfg, first, before);
      SnapshotIsNeverStale(cfg, first, before);
      StepKeeps(cfg, End(first, before), run[n].change, run[n].outcome, run[n].next);
      forall i | 0 <= i < |run| && run[i].outcome.Refused? ensures run[i].next == End(first, run[..i]) {
        if i < n {
          assert before[i] == run[i] && before[..i] == run[..i];
        }
      }
    }
  }

  // ---- boots

  /** What a key that is not secret resolves to at boot. */
  function AtBoot(cfg: Config, rows: map<string, string>, key: string): string {
    if key in rows then rows[key] else cfg.EnvDefault(key)
  }

  /** Mail is configured, or not asked for. */
  predicate MailIfVerified(cfg: Config, rows: map<string, string>) {
    AtBoot(cfg, rows, REQUIRE_EMAIL_VERIFICATION) == "1" ==>
        AtBoot(cfg, rows, SMTP_HOST) != "" && AtBoot(cfg, rows, SMTP_FROM) != ""
  }

  /** A boot takes the rows as they are, whoever wrote them: its snapshot is consistent
      exactly if verification comes with a mail server and a sender. */
  lemma BootIsConsistentExactlyWhen(cfg: Config, rows: map<string, string>, audit: seq<AuditRow>)
    ensures Boot(cfg, rows, audit).snap.Consistent() <==> MailIfVerified(cfg, rows)
  {
    hide Build;
    hide Overrides;
    hide PlainKey;
    HostDef();
    SenderDef();
    VerificationDef();
    ResolvedAtBoot(cfg, rows, REQUIRE_EMAIL_VERIFICATION);
    ResolvedAtBoot(cfg, rows, SMTP_HOST);
    ResolvedAtBoot(cfg, rows, SMTP_FROM);
  }

  lemma ResolvedAtBoot(cfg: Config, rows: map<string, string>, key: string)
    requires PlainKey(key)
    ensures Build(cfg, Overrides(cfg, rows)).Get(key) == AtBoot(cfg, rows, key)
  {
    hide Defs;
    hide Find;
    KnownIsFound(key);
  }

  lemma HostDef()
    ensures PlainKey(SMTP_HOST)
  {
    hide Find;
    FoundAt(Defs(), 15);
  }

  lemma SenderDef()
    ensures PlainKey(SMTP_FROM)
  {
    hide Find;
    FoundAt(Defs(), 19);
  }

  lemma VerificationDef()
    ensures PlainKey(REQUIRE_EMAIL_VERIFICATION)
  {
    hide Find;
    FoundAt(Defs(), 20);
  }

  /** One row is enough where the environment names no mail server. */
  lemma BootMayBeInconsistent(cfg: Config)
    requires cfg.EnvDefault(SMTP_HOST) == ""
    ensures !Boot(cfg, map[REQUIRE_EMAIL_VERIFICATION := "1"], []).snap.Consistent()
  {
    hide Boot;
    BootIsConsistentExactlyWhen(cfg, map[REQUIRE_EMAIL_VERIFICATION := "1"], []);
  }

  /** So the snapshots of a process are consistent from first to last exactly if the rows
      it booted on were: no change makes one inconsistent, forced or not. */
  lemma AlwaysConsistentExactlyWhen(cfg: Config, first: State, run: seq<Event>)
    requires cfg.cipher.Lawful() && IsRun(cfg, first, run)
    ensures (forall n: nat :: n <= |run| ==>
              End(first, run[..n]).snap.Consistent()) <==> MailIfVerified(cfg, first.rows)
  {
    hide Step;
    hide Boot;
    hide MailIfVerified;
    BootIsConsistentExactlyWhen(cfg, first.rows, first.audit);
    assert run[..0] == [];
    forall n: nat | n <= |run| && MailIfVerified(cfg, first.rows) ensures End(first, run[..n]).snap.Consistent() {
      forall i | 0 <= i < n ensures run[..n][..i] == run[..i] {
      }
      ChangesAreSafe(cfg, first, run[..n]);
    }
    assert End(first, run[..0]) == first;
  }

  // ---- the bindings follow

  /** The hook runs after each change that went through. */
  function Bound(cfg: Config, b: Bindings.Bound, run: seq<Event>): Bindings.Bound {
    if run == [] then b
    else
      var last := run[|run| - 1];
      var before := Bound(cfg, b, run[..|run| - 1]);
      if last.outcome.Done? && !(last.change.Setting? && last.change.values == map[])
      then Rearmed(cfg, before, last.next.snap) else before
  }

  /** After every completed change, and after every refused one, the server is bound as
      if it had just booted on the published snapshot. */
  lemma {:induction false} BindingsFollow(cfg: Config, first: State, run: seq<Event>)
    requires cfg.cipher.Lawful() && IsRun(cfg, first, run) && BootBound(cfg, first.snap).Some?
    ensures var b := Bound(cfg, BootBound(cfg, first.snap).value, run);
            LikeBooted(cfg, b, End(first, run).snap) && PromotedOncePerChange(b)
  {
    hide Step;
    hide Boot;
    hide Rearmed;
    hide LikeBooted;
    hide PromotedOncePerChange;
    if run == [] {
      BootedIsLikeBooted(cfg, first.snap);
    } else {
      RunPrefix(cfg, first, run);
      var n := |run| - 1;
      BindingsFollow(cfg, first, run[..n]);
      RearmedIsLikeBooted(cfg, Bound(cfg, BootBound(cfg, first.snap).value, run[..n]), run[n].next.snap);
      UnpublishedIsUnchanged(cfg, End(first, run[..n]), run[n].change, run[n].outcome, run[n].next);
    }
  }

  lemma UnpublishedIsUnchanged(cfg: Config, st: State, change: Change, outcome: Outcome, next: State)
    requires Step(cfg, st, change, outcome, next)
    ensures outcome.Refused? || (change.Setting? && change.values == map[]) ==> next == st
  {
    hide Verdict;
    hide Build;
    hide Upserted;
    hide Entries;
    hide Find;
  }

  /** A value that saves is a value that boots: from acceptable settings the trusted
      proxies are always the parse of the published value. */
  lemma ProxiesAlwaysParse(cfg: Config, first: State, run: seq<Event>)
    requires cfg.cipher.Lawful() && cfg.parsers.Lawful() && IsRun(cfg, first, run)
    requires EnvAccepted(cfg) && AllAccepted(cfg, first.snap)
    ensures BootBound(cfg, first.snap).Some?
    ensures cfg.parsers.networks(End(first, run).snap.Get(TRUSTED_PROXIES))
              == Some(Bound(cfg, BootBound(cfg, first.snap).value, run).proxies)
  {
    hide Step;
    hide Boot;
    hide AllAccepted;
    hide KnownKeys;
    hide Offends;
    AcceptedProxiesParse(cfg, first.snap);
    ChangesAreSafe(cfg, first, run);
    AcceptedProxiesParse(cfg, End(first, run).snap);
    BindingsFollow(cfg, first, run);
  }

  lemma AcceptedProxiesParse(cfg: Config, e: Effective)
    requires cfg.parsers.Lawful() && AllAccepted(cfg, e)
    ensures cfg.parsers.networks(e.Get(TRUSTED_PROXIES)).Some?
  {
    hide Defs;
    hide Find;
    hide KnownKeys;
    ProxiesDef();
    KnownIsFound(TRUSTED_PROXIES);
    assert Acceptable(cfg, TRUSTED_PROXIES, e.Get(TRUSTED_PROXIES));
  }

  lemma ProxiesDef()
    ensures Lookup(TRUSTED_PROXIES) == Some(Optional(TRUSTED_PROXIES, ProxyCIDRs, false))
  {
    hide Find;
    FoundAt(Defs(), 7);
  }

  lemma {:induction false} FoundAt(defs: seq<Def>, i: nat)
    requires i < |defs| && forall j :: 0 <= j < i ==> defs[j].key != defs[i].key
    ensures Find(defs, defs[i].key) == Some(defs[i])
  {
    if i > 0 {
      FoundAt(defs[1..], i - 1);
    }
  }
}
