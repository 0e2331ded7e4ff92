/** The settings store as values: what a snapshot is, what it takes to resolve one from
    the stored rows, and what Set and Reset make of the whole state. */
module SettingsModel {
  import opened Common
  import opened Registry

  datatype Source = Env | Stored

  /** An immutable snapshot of the running configuration. */
  datatype Effective = Effective(values: map<string, string>, source: map<string, Source>) {
    function Get(key: string): string {
      if key in values then values[key] else ""
    }

    predicate Bool(key: string) {
      Get(key) == "1"
    }

    predicate SMTPConfigured() {
      Get(SMTP_HOST) != "" && Get(SMTP_FROM) != ""
    }

    predicate SandboxConfigured() {
      Get(APISIX_SANDBOX_ADMIN_URL) != "" && Get(APISIX_SANDBOX_GATEWAY_URL) != ""
    }

    /** The cross-field rule no snapshot may break. */
    predicate Consistent() {
      Bool(REQUIRE_EMAIL_VERIFICATION) ==> SMTPConfigured()
    }
  }

  datatype Refusal =
    | UnknownKey(key: string)
    | ReadOnlyKey(key: string)
    | InvalidFields(keys: set<string>)
    | Inconsistent
    | ProbeFailed
    | StoreDown

  datatype Outcome = Done | Refused(why: Refusal)

  datatype AuditRow = AuditRow(key: string, was: string, now: string, admin: int, forced: bool)

  /** Encryption of secrets; the first argument of seal is the randomness it draws. */
  datatype Cipher = Cipher(seal: (nat, string) -> string, open: string -> Option<string>) {
    ghost predicate Lawful() {
      forall n, v :: open(seal(n, v)) == Some(v)
    }
  }

  /** What is fixed while the process runs. */
  datatype Config = Config(env: map<string, string>, cipher: Cipher, parsers: Parsers) {
    function EnvDefault(key: string): string {
      if key in env then env[key] else ""
    }
  }

  /** The two tables and the published snapshot. */
  datatype State = State(rows: map<string, string>, audit: seq<AuditRow>, snap: Effective)

  ghost function KeysOf(defs: seq<Def>): set<string> {
    set d | d in defs :: d.key
  }

  ghost function KnownKeys(): set<string> {
    KeysOf(Defs())
  }

  // ---- resolving a snapshot from scratch

  /** What a row stands for: nothing if its key is unknown or its secret unreadable. */
  function ReadRow(cfg: Config, key: string, value: string): Option<string> {
    var d := Lookup(key);
    if d.None? then None
    else if d.value.secret then cfg.cipher.open(value)
    else Some(value)
  }

  function Overrides(cfg: Config, rows: map<string, string>): map<string, string> {
    map k | k in rows && ReadRow(cfg, k, rows[k]).Some? :: ReadRow(cfg, k, rows[k]).value
  }

  function Resolved(cfg: Config, keys: set<string>, overrides: map<string, string>): Effective {
    Effective(map k | k in keys :: if k in overrides then overrides[k] else cfg.EnvDefault(k),
              map k | k in keys :: if k in overrides then Stored else Env)
  }

  ghost function Build(cfg: Config, overrides: map<string, string>): Effective {
    Resolved(cfg, KnownKeys(), overrides)
  }

  /** What a process that boots on these rows publishes. */
  ghost function Boot(cfg: Config, rows: map<string, string>, audit: seq<AuditRow>): State {
    State(rows, audit, Build(cfg, Overrides(cfg, rows)))
  }

  // ---- changing it

  /** The current snapshot with the new values laid over it. */
  function Candidate(cur: Effective, values: map<string, string>): Effective {
    Effective(cur.values + values, cur.source + (map k | k in values :: Stored))
  }

  /** Byte order of strings. */
  predicate Before(a: string, b: string) {
    if b == "" then false
    else if a == "" then true
    else a[0] < b[0] || (a[0] == b[0] && Before(a[1..], b[1..]))
  }

  predicate Offends(key: string) {
    var d := Lookup(key); d.None? || !d.value.editable
  }

  predicate Acceptable(cfg: Config, key: string, value: string) {
    var d := Lookup(key); d.Some? && d.value.editable && Accepts(cfg.parsers, d.value, value)
  }

  ghost predicate IsLeast(key: string, keys: set<string>) {
    key in keys && forall j :: j in keys ==> j == key || Before(key, j)
  }

  ghost function Offenders(values: map<string, string>): set<string> {
    set k | k in values && Offends(k)
  }

  ghost function Unaccepted(cfg: Config, values: map<string, string>): set<string> {
    set k | k in values && !Offends(k) && !Acceptable(cfg, k, values[k])
  }

  /** The verdict on a set of new values: the alphabetically first unknown or read-only
      key, or else every key whose value is not accepted. */
  ghost predicate Verdict(cfg: Config, values: map<string, string>, outcome: Outcome) {
    var offenders, bad := Offenders(values), Unaccepted(cfg, values);
    if offenders != {} then
      && outcome.Refused? && (outcome.why.UnknownKey? || outcome.why.ReadOnlyKey?)
      && IsLeast(outcome.why.key, offenders)
      && (outcome.why.UnknownKey? <==> Lookup(outcome.why.key).None?)
    else if bad != {} then outcome == Refused(InvalidFields(bad))
    else outcome == Done
  }

  function StoredForm(cfg: Config, salt: string -> nat, key: string, value: string): string {
    var d := Lookup(key);
    if d.Some? && d.value.secret then cfg.cipher.seal(salt(key), value) else value
  }

  function Shown(key: string, value: string): string {
    var d := Lookup(key);
    if d.Some? && d.value.secret then "(secret)" else value
  }

  function Entry(was: Effective, key: string, value: string, admin: int, forced: bool): AuditRow {
    AuditRow(key, Shown(key, was.Get(key)), Shown(key, value), admin, forced)
  }

  function Entries(was: Effective, order: seq<string>, values: map<string, string>, admin: int,
                   forced: bool): seq<AuditRow>
    requires forall k :: k in order ==> k in values
  {
    seq(|order|, i requires 0 <= i < |order| => Entry(was, order[i], values[order[i]], admin, forced))
  }

  /** The order in which a run over the map visits its keys. */
  ghost predicate Enumerates(order: seq<string>, keys: set<string>) {
    && (forall k :: k in order <==> k in keys)
    && (forall i, j :: 0 <= i < j < |order| ==> order[i] != order[j])
  }

  /** Rows after the values were upserted. */
  function Upserted(cfg: Config, rows: map<string, string>, salt: string -> nat,
                    values: map<string, string>): map<string, string> {
    rows + map k | k in values :: StoredForm(cfg, salt, k, values[k])
  }

  // ---- the two operations

  /** What Set may answer and what it leaves behind. Only the visiting order and whether
      the store works are open; a refusal leaves everything as it was. */
  ghost predicate SetStep(cfg: Config, st: State, values: map<string, string>, admin: int, force: bool,
                          probe: Effective -> bool,
                          salt: string -> nat, order: seq<string>, outcome: Outcome, next: State)
  {
    var cand := Candidate(st.snap, values);
    if values == map[] then outcome == Done && next == st
    else if !Verdict(cfg, values, Done) then outcome.Refused? && Verdict(cfg, values, outcome) && next == st
    else if !cand.Consistent() then outcome == Refused(Inconsistent) && next == st
    else if !force && !probe(cand) then outcome == Refused(ProbeFailed) && next == st
    else if outcome.Done? then
      && Enumerates(order, values.Keys)
      && next == State(Upserted(cfg, st.rows, salt, values),
                       st.audit + Entries(st.snap, order, values, admin, force), cand)
    else outcome == Refused(StoreDown) && next == st
  }

  ghost predicate ResetStep(cfg: Config, st: State, key: string, admin: int, outcome: Outcome, next: State) {
    var restored := Build(cfg, Overrides(cfg, st.rows) - {key});
    if Lookup(key).None? then outcome == Refused(UnknownKey(key)) && next == st
    else if Offends(key) then outcome == Refused(ReadOnlyKey(key)) && next == st
    else if outcome.Done? then
      && restored.Consistent()
      && next == State(st.rows - {key}, st.audit + [Entry(st.snap, key, cfg.EnvDefault(key), admin, false)], restored)
    else
      && next == st
      && (outcome == Refused(StoreDown) || (outcome == Refused(Inconsistent) && !restored.Consistent()))
  }
}
