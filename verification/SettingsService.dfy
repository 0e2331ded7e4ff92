/** The runtime-settings service: rows, audit log and published snapshot, changed by Set
    and Reset. */
module SettingsService {
  import opened Common
  import opened Registry
  import opened SettingsModel
  import B = Bindings

  // ---- ordering keys

  lemma {:induction false} BeforeIsTotal(a: string, b: string)
    ensures Before(a, b) || Before(b, a) || a == b
    ensures !(Before(a, b) && Before(b, a)) && !Before(a, a)
  {
    if a != "" && b != "" {
      BeforeIsTotal(a[1..], b[1..]);
      assert a == [a[0]] + a[1..] && b == [b[0]] + b[1..];
    }
    if a != "" {
      BeforeItself(a);
    }
  }

  lemma {:induction false} BeforeItself(a: string)
    ensures !Before(a, a)
  {
    if a != "" {
      BeforeItself(a[1..]);
    }
  }

  lemma {:induction false} BeforeIsTransitive(a: string, b: string, c: string)
    requires Before(a, b) && Before(b, c)
    ensures Before(a, c)
  {
    if a != "" && a[0] == b[0] && b[0] == c[0] {
      BeforeIsTransitive(a[1..], b[1..], c[1..]);
    }
  }

  /** Byte order: a proper prefix comes first, and otherwise the first difference decides. */
  lemma {:induction false} BeforeIsLexicographic(a: string, b: string)
    ensures Before(a, b) <==> FirstDifference(a, b)
  {
    if a != "" && b != "" {
      BeforeIsLexicographic(a[1..], b[1..]);
      if a[0] == b[0] {
        if i: nat :| DiffersAt(a[1..], b[1..], i) {
          assert DiffersAt(a, b, i + 1);
        }
        if i: nat :| DiffersAt(a, b, i) {
          assert DiffersAt(a[1..], b[1..], i - 1);
        }
      } else {
        assert a[0] < b[0] ==> DiffersAt(a, b, 0);
      }
    }
  }

  ghost predicate DiffersAt(a: string, b: string, i: nat) {
    i < |a| && i < |b| && a[..i] == b[..i] && a[i] < b[i]
  }

  ghost predicate FirstDifference(a: string, b: string) {
    (a <= b && a != b) || exists i: nat :: DiffersAt(a, b, i)
  }

  ghost predicate Ascending(keys: seq<string>) {
    forall i, j :: 0 <= i < j < |keys| ==> Before(keys[i], keys[j])
  }

  method SortedKeys(keys: set<string>) returns (sorted: seq<string>)
    ensures Ascending(sorted) && forall k :: k in sorted <==> k in keys
  {
    sorted := [];
    var todo := keys;
    while todo != {}
      invariant Ascending(sorted) && todo <= keys
      invariant forall k :: k in sorted <==> k in keys && k !in todo
      decreases |todo|
    {
      var k :| k in todo;
      sorted := Insert(sorted, k);
      todo := todo - {k};
    }
  }

  method Insert(keys: seq<string>, k: string) returns (more: seq<string>)
    requires Ascending(keys) && k !in keys
    ensures Ascending(more) && forall x :: x in more <==> x in keys || x == k
  {
    var i := 0;
    while i < |keys| && Before(keys[i], k)
      invariant i <= |keys|
      invariant forall j :: 0 <= j < i ==> Before(keys[j], k)
    {
      i := i + 1;
    }
    forall j | i <= j < |keys| ensures Before(k, keys[j]) {
      BeforeIsTotal(keys[i], k);
      if j > i {
        BeforeIsTransitive(k, keys[i], keys[j]);
      }
    }
    more := keys[..i] + [k] + keys[i..];
    assert keys == keys[..i] + keys[i..];
  }

  /** Keys are checked in byte order, so that the same request always gets the same
      answer. */
  method CheckKeys(cfg: Config, values: map<string, string>) returns (outcome: Outcome)
    ensures Verdict(cfg, values, outcome)
  {
    var keys := SortedKeys(values.Keys);
    var bad: set<string> := {};
    ghost var offenders := Offenders(values);
    for i := 0 to |keys|
      invariant forall j :: 0 <= j < i ==> !Offends(keys[j])
      invariant bad == set k | k in keys[..i] && !Acceptable(cfg, k, values[k])
    {
      var k := keys[i];
      assert keys[..i + 1] == keys[..i] + [k];
      var d := Lookup(k);
      if d.None? || !d.value.editable {
        assert IsLeast(k, offenders) by {
          forall o | o in offenders ensures o == k || Before(k, o) {
            var j :| 0 <= j < |keys| && keys[j] == o;
          }
        }
        return Refused(if d.None? then UnknownKey(k) else ReadOnlyKey(k));
      }
      if !Accepts(cfg.parsers, d.value, values[k]) {
        bad := bad + {k};
      }
    }
    assert keys[..|keys|] == keys;
    assert offenders == {} by {
      forall k | k in values ensures !Offends(k) {
        var j :| 0 <= j < |keys| && keys[j] == k;
      }
    }
    assert bad == Unaccepted(cfg, values);
    return if bad != {} then Refused(InvalidFields(bad)) else Done;
  }

  /** There is only one verdict. */
  lemma VerdictIsUnique(cfg: Config, values: map<string, string>, one: Outcome, two: Outcome)
    requires Verdict(cfg, values, one) && Verdict(cfg, values, two)
    ensures one == two
  {
    if Offenders(values) != {} {
      BeforeIsTotal(one.why.key, two.why.key);
    }
  }

  // ---- the service

  class Service {
    const cfg: Config
    var rows: map<string, string>
    var audit: seq<AuditRow>
    var snap: Effective
    /** The outcomes of the next store and cipher calls, true for a failure. */
    var faults: seq<bool>
    var hooks: seq<B.Server>

    ghost function Now(): State
      reads this
    {
      State(rows, audit, snap)
    }

    method Fails() returns (failing: bool)
      modifies this`faults
      ensures failing == (old(faults) != [] && old(faults)[0])
      ensures faults == if old(faults) == [] then [] else old(faults)[1..]
    {
      failing := faults != [] && faults[0];
      if faults != [] {
        faults := faults[1..];
      }
    }

    method LoadOverrides() returns (overrides: map<string, string>)
      ensures overrides == Overrides(cfg, rows)
    {
      hide Lookup;
      overrides := map[];
      var todo := rows.Keys;
      while todo != {}
        invariant todo <= rows.Keys
        invariant overrides == map k | k in rows && k !in todo
                  && ReadRow(cfg, k, rows[k]).Some? :: ReadRow(cfg, k, rows[k]).value
        decreases |todo|
      {
        var k :| k in todo;
        todo := todo - {k};
        var d := Lookup(k);
        if d.Some? {
          if !d.value.secret {
            overrides := overrides[k := rows[k]];
          } else {
            var plain := cfg.cipher.open(rows[k]);
            if plain.Some? {
              overrides := overrides[k := plain.value];
            }
          }
        }
      }
    }

    method Resolve(overrides: map<string, string>) returns (e: Effective)
      ensures e == Build(cfg, overrides)
    {
      hide Defs;
      hide KeysOf;
      hide Resolved;
      var defs := Defs();
      e := Effective(map[], map[]);
      ResolvedStepwise(cfg, defs, 0, overrides);
      for i := 0 to |defs|
        invariant e == Resolved(cfg, KeysOf(defs[..i]), overrides)
      {
        ResolvedStepwise(cfg, defs, i, overrides);
        var key := defs[i].key;
        if key in overrides {
          e := Effective(e.values[key := overrides[key]], e.source[key := Stored]);
        } else {
          e := Effective(e.values[key := cfg.EnvDefault(key)], e.source[key := Env]);
        }
      }
      assert defs[..|defs|] == defs;
    }
  
    constructor (cfg: Config, rows: map<string, string>, audit: seq<AuditRow>)
      ensures this.cfg == cfg && Now() == Boot(cfg, rows, audit) && hooks == []
    {
      this.cfg, this.rows, this.audit := cfg, rows, audit;
      snap := Effective(map[], map[]);
      faults, hooks := [], [];
      new;
      var overrides := LoadOverrides();
      snap := Resolve(overrides);
    }

    /** What the hooks may change. */
    ghost function Footprint(): set<object>
      reads this
    {
      (set h: B.Server | h in hooks :: h) + (set h: B.Server | h in hooks ::
          h.prodGW) + (set h: B.Server | h in hooks :: h.sandboxGW)
    }

    method OnChange(hook: B.Server)
      modifies this`hooks
      ensures hooks == old(hooks) + [hook]
    {
      hooks := hooks + [hook];
    }

    /** Every registered server sees the new snapshot. */
    method Publish(e: Effective)
      requires B.Apart(hooks)
      modifies this`snap, Footprint()
      ensures snap == e
      ensures forall h :: h in hooks ==> h.Now() == B.Rearmed(h.cfg, old(h.Now()), e)
    {
      hide B.Rearmed;
      snap := e;
      for i := 0 to |hooks|
        invariant snap == e
        invariant forall h :: h in hooks ==>
                    h.Now() == if h in hooks[..i] then B.Rearmed(h.cfg, old(h.Now()), e) else old(h.Now())
      {
        assert hooks[..i + 1] == hooks[..i] + [hooks[i]];
        B.RearmedTwice(hooks[i].cfg, old(hooks[i].Now()), e);
        hooks[i].Rearm(e);
      }
      assert hooks[..|hooks|] == hooks;
    }

    /** The transaction of Set on working copies of the two tables. */
    method Persist(values: map<string, string>, admin: int, force: bool, salt: string -> nat)
      returns (ok: bool, newRows: map<string, string>, newAudit: seq<AuditRow>, ghost order: seq<string>)
      modifies this`faults
      ensures ok ==> Enumerates(order, values.Keys)
                     && newRows == Upserted(cfg, rows, salt, values)
                     && newAudit == audit + Entries(snap, order, values, admin, force)
      ensures old(faults) == [] ==> ok && faults == []
    {
      hide Persisted;
      hide Enumerates;
      hide Upserted;
      hide Entries;
      newRows, newAudit, order := rows, audit, [];
      var begin := Fails();
      if begin { return false, newRows, newAudit, order; }
      var todo := values.Keys;
      NothingPersisted(cfg, Now(), values, admin, force, salt);
      while todo != {}
        invariant todo <= values.Keys && forall k :: k in order <==> k in values && k !in todo
        invariant Persisted(cfg, Now(), values, admin, force, salt, order, newRows, newAudit)
        invariant old(faults) == [] ==> faults == []
        decreases |todo|
      {
        var k :| k in todo;
        var failed := Fails();
        if failed { return false, newRows, newAudit, order; }
        PersistedMore(cfg, Now(), values, admin, force, salt, order, newRows, newAudit, k);
        newRows := newRows[k := StoredForm(cfg, salt, k, values[k])];
        newAudit := newAudit + [Entry(snap, k, values[k], admin, force)];
        order := order + [k];
        todo := todo - {k};
      }
      PersistedAll(cfg, Now(), values, admin, force, salt, order, newRows, newAudit);
      var failed := Fails();
      ok := !failed;
    }

    /** Validates, enforces the cross-field rule, probes unless forced, persists all or
        nothing, publishes and runs the hooks. */
    method Set(values: map<string, string>, admin: int, force: bool, probe: Effective -> bool, salt: string -> nat)
      returns (outcome: Outcome, ghost order: seq<string>)
      requires B.Apart(hooks)
      modifies this, Footprint()
      ensures hooks == old(hooks)
      ensures SetStep(cfg, old(Now()), values, admin, force, probe, salt, order, outcome, Now())
      ensures old(faults) == [] ==> outcome != Refused(StoreDown)
      ensures forall h :: h in hooks ==>
                h.Now() == if outcome.Done? && values != map[] then B.Rearmed(h.cfg, old(h.Now()), snap)
                           else old(h.Now())
    {
      hide Verdict;
      hide Upserted;
      hide Enumerates;
      hide Entries;
      hide Candidate;
      order := [];
      if values == map[] { return Done, order; }
      var verdict := CheckKeys(cfg, values);
      if verdict != Done {
        VerdictForRefusal(cfg, values, verdict);
        return verdict, order;
      }
      var cand := Candidate(snap, values);
      if !cand.Consistent() { return Refused(Inconsistent), order; }
      if !force && !probe(cand) { return Refused(ProbeFailed), order; }
      var ok, newRows, newAudit;
      ok, newRows, newAudit, order := Persist(values, admin, force, salt);
      if !ok { return Refused(StoreDown), order; }
      rows, audit := newRows, newAudit;
      Publish(cand);
      return Done, order;
    }

    /** The transaction of Reset on working copies of the two tables. */
    method Forget(key: string, admin: int) returns (ok: bool, newRows: map<string, string>, newAudit: seq<AuditRow>)
      modifies this`faults
      ensures ok ==>
                newRows == rows - {key} && newAudit == audit + [Entry(snap, key, cfg.EnvDefault(key), admin, false)]
      ensures old(faults) == [] ==> ok && faults == []
    {
      hide Entry;
      newRows, newAudit := rows, audit;
      var begin := Fails();
      if begin { return false, newRows, newAudit; }
      var failed := Fails();
      if failed { return false, newRows, newAudit; }
      newRows := newRows - {key};
      failed := Fails();
      if failed { return false, newRows, newAudit; }
      newAudit := newAudit + [Entry(snap, key, cfg.EnvDefault(key), admin, false)];
      failed := Fails();
      ok := !failed;
    }

    /** Reverts a key to its env default, if what remains is consistent. */
    method Reset(key: string, admin: int) returns (outcome: Outcome)
      requires B.Apart(hooks)
      modifies this, Footprint()
      ensures hooks == old(hooks)
      ensures ResetStep(cfg, old(Now()), key, admin, outcome, Now())
      ensures old(faults) == [] ==> outcome != Refused(StoreDown)
      ensures forall h :: h in hooks ==>
                h.Now() == if outcome.Done? then B.Rearmed(h.cfg, old(h.Now()), snap) else old(h.Now())
    {
      hide Build;
      hide Overrides;
      hide Find;
      var d := Lookup(key);
      if d.None? { return Refused(UnknownKey(key)); }
      if !d.value.editable { return Refused(ReadOnlyKey(key)); }
      var failed := Fails();
      if failed { return Refused(StoreDown); }
      var overrides := LoadOverrides();
      var next := Resolve(overrides - {key});
      if !next.Consistent() { return Refused(Inconsistent); }
      var ok, newRows, newAudit := Forget(key, admin);
      if !ok { return Refused(StoreDown); }
      rows, audit := newRows, newAudit;
      Publish(next);
      return Done;
    }
  }

  /** The transaction after the keys in `order` have been written. */
  ghost predicate Persisted(cfg: Config, st: State, values: map<string, string>, admin: int, forced: bool,
                            salt: string -> nat,
                            order: seq<string>, rows: map<string, string>, audit: seq<AuditRow>)
  {
    && (forall k :: k in order ==> k in values)
    && (forall i, j :: 0 <= i < j < |order| ==> order[i] != order[j])
    && rows == st.rows + (map k | k in order :: StoredForm(cfg, salt, k, values[k]))
    && audit == st.audit + Entries(st.snap, order, values, admin, forced)
  }

  lemma NothingPersisted(cfg: Config, st: State, values: map<string, string>, admin: int, forced: bool,
                         salt: string -> nat)
    ensures Persisted(cfg, st, values, admin, forced, salt, [], st.rows, st.audit)
  {
  }

  lemma PersistedMore(cfg: Config, st: State, values: map<string, string>, admin: int, forced: bool,
                      salt: string -> nat,
                      order: seq<string>, rows: map<string, string>, audit: seq<AuditRow>, k: string)
    requires Persisted(cfg, st, values, admin, forced, salt, order, rows, audit) && k in values && k !in order
    ensures Persisted(cfg, st, values, admin, forced, salt, order + [k],
                      rows[k := StoredForm(cfg, salt, k, values[k])],
                          audit + [Entry(st.snap, k, values[k], admin, forced)])
  {
    hide StoredForm;
    hide Entry;
  }

  lemma PersistedAll(cfg: Config, st: State, values: map<string, string>, admin: int, forced: bool, salt: string -> nat,
                     order: seq<string>, rows: map<string, string>, audit: seq<AuditRow>)
    requires Persisted(cfg, st, values, admin, forced, salt, order, rows, audit)
             && forall k :: k in order <==> k in values
    ensures Enumerates(order, values.Keys) && rows == Upserted(cfg, st.rows, salt, values)
    ensures audit == st.audit + Entries(st.snap, order, values, admin, forced)
  {
    hide StoredForm;
  }

  lemma VerdictForRefusal(cfg: Config, values: map<string, string>, outcome: Outcome)
    requires Verdict(cfg, values, outcome) && outcome != Done
    ensures outcome.Refused? && !Verdict(cfg, values, Done)
  {
    if Verdict(cfg, values, Done) {
      VerdictIsUnique(cfg, values, outcome, Done);
    }
  }

  lemma ResolvedStepwise(cfg: Config, defs: seq<Def>, i: nat, overrides: map<string, string>)
    requires i <= |defs|
    ensures Resolved(cfg, KeysOf([]), overrides) == Effective(map[], map[]) && defs[..0] == []
    ensures i < |defs| ==>
              var e, key := Resolved(cfg, KeysOf(defs[..i]), overrides), defs[i].key;
              Resolved(cfg, KeysOf(defs[..i + 1]), overrides)
                == Effective(e.values[key := if key in overrides then overrides[key] else cfg.EnvDefault(key)],
                             e.source[key := if key in overrides then Stored else Env])
  {
    hide Resolved;
    NoKeys(cfg, overrides);
    if i < |defs| {
      OneMoreKey(defs, i);
      ResolvedMore(cfg, KeysOf(defs[..i]), defs[i].key, overrides);
    }
  }

  lemma NoKeys(cfg: Config, overrides: map<string, string>)
    ensures Resolved(cfg, KeysOf([]), overrides) == Effective(map[], map[])
  {
    assert KeysOf([]) == {};
  }

  lemma OneMoreKey(defs: seq<Def>, i: nat)
    requires i < |defs|
    ensures KeysOf(defs[..i + 1]) == KeysOf(defs[..i]) + {defs[i].key}
  {
    assert defs[..i + 1] == defs[..i] + [defs[i]];
  }

  lemma ResolvedMore(cfg: Config, keys: set<string>, key: string, overrides: map<string, string>)
    ensures var e := Resolved(cfg, keys, overrides);
            Resolved(cfg, keys + {key}, overrides)
              == Effective(e.values[key := if key in overrides then overrides[key] else cfg.EnvDefault(key)],
                           e.source[key := if key in overrides then Stored else Env])
  {
  }
}
