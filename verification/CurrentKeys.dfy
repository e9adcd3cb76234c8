/**
 Which key encrypts when there is a database: how often each key id is handed out,
 and under which version of it a plaintext is sealed. Nothing is asked of the runs
 here but that random ids do not repeat.
 */
module CurrentKeys {
  import opened Wrappers
  import opened Envelope
  import opened KeyStore
  import opened KeyTable
  import opened WarmLoad
  import opened Persistence

  ghost predicate LegalRun(v: Vault, actions: seq<Action>) {
    forall i | 0 <= i < |actions| :: Legal(Run(v, actions[..i]), actions[i])
  }

  lemma LegalPrefix(v: Vault, actions: seq<Action>, n: nat)
    requires LegalRun(v, actions) && n <= |actions|
    ensures LegalRun(v, actions[..n])
  {
    hide Legal, Run;
    forall i | 0 <= i < n ensures Legal(Run(v, actions[..n][..i]), actions[..n][i]) {
      assert actions[..n][..i] == actions[..i];
    }
  }

  // ---------------------------------------------------------------------
  // Counting answers
  // ---------------------------------------------------------------------

  /** The response an action answers with, if it is an encryption that is answered. */
  function Answer(v: Vault, a: Action): Option<Response> {
    if !a.Encrypt? then None
    else
      var r := EncryptFor(v, a.tenant, a.q, a.answer, a.d).0;
      if r.Ok? then Some(r.value) else None
  }

  /** How many encryptions of a run were answered under the key id. */
  function Uses(v: Vault, actions: seq<Action>, keyId: string): nat {
    if actions == [] then 0
    else
      var n := |actions| - 1;
      var r := Answer(Run(v, actions[..n]), actions[n]);
      Uses(v, actions[..n], keyId) + if r.Some? && r.value.keyId == keyId then 1 else 0
  }

  /** How many encryptions of the tenant were answered since the process started. */
  function Served(v: Vault, actions: seq<Action>, tenant: string): nat {
    if actions == [] || actions[|actions| - 1].Restart? then 0
    else
      var n := |actions| - 1;
      var r := Answer(Run(v, actions[..n]), actions[n]);
      Served(v, actions[..n], tenant) + if r.Some? && r.value.tenant == tenant then 1 else 0
  }

  /** The key ids under which they were. */
  function KeysServed(v: Vault, actions: seq<Action>, tenant: string): set<string> {
    if actions == [] || actions[|actions| - 1].Restart? then {}
    else
      var n := |actions| - 1;
      var r := Answer(Run(v, actions[..n]), actions[n]);
      KeysServed(v, actions[..n], tenant) + if r.Some? && r.value.tenant == tenant then {r.value.keyId} else {}
  }

  // ---------------------------------------------------------------------
  // What the public methods leave alone
  // ---------------------------------------------------------------------

  ghost predicate HasId(rows: seq<Row>, id: string) { exists r :: r in rows && r.id == id }

  ghost predicate KeepsIds(rows: seq<Row>, rows': seq<Row>) { forall r | r in rows :: HasId(rows', r.id) }

  /** Cached keys stay cached, for their owners. */
  predicate KeepsOwners(deks: map<string, DekEntry>, deks': map<string, DekEntry>) {
    forall k | k in deks :: k in deks' && deks'[k].tenant == deks[k].tenant
  }

  /** A step that hands out no key. */
  ghost predicate Quiet(v: Vault, v': Vault) {
    v'.store.current == v.store.current && KeepsOwners(v.store.deks, v'.store.deks) && KeepsIds(v.rows, v'.rows)
  }

  lemma WriteKeeps(outcome: Outcome, identity: Identity, tenants: set<string>, rows: seq<Row>, row: Row)
    ensures var (ok, rows') := Write(outcome, rows, Insert(identity, tenants, rows, row));
            KeepsIds(rows, rows') && (ok ==> HasId(rows', row.id))
  {
    var (ok, rows') := Write(outcome, rows, Insert(identity, tenants, rows, row));
    forall r | r in rows ensures HasId(rows', r.id) { assert r in rows'; }
    if ok { assert row in rows'; }
  }

  lemma KekQuiet(v: Vault, tenant: string, d: Draw)
    ensures var v' := TenantKekFor(v, tenant, d).1; Quiet(v, v') && v'.store.deks == v.store.deks
  {
    hide ParseUuid, Insert, Write, Clash;
    assert KeepsIds(v.rows, v.rows);
    if ParseUuid(tenant).Some? {
      var s := CreateKek(v.store, tenant, d.kek).1;
      if tenant in s.keks {
        WriteKeeps(d.db.kek, v.identity, v.tenants, v.rows, Row(d.kekRow, ParseUuid(tenant), 1, TenantKek, Active, s.keks[tenant].wrapped));
      }
    }
  }

  lemma QuietTransitive(a: Vault, b: Vault, c: Vault)
    requires Quiet(a, b) && Quiet(b, c)
    ensures Quiet(a, c)
  {
    forall r | r in a.rows ensures HasId(c.rows, r.id) {
      var x :| x in b.rows && x.id == r.id;
      assert HasId(c.rows, x.id);
    }
  }

  /** A new key id is in no cache, in any spelling, and in no row. */
  lemma UnusedIsNew(v: Vault, id: string)
    requires UnusedId(v, id)
    ensures id !in v.store.deks && !HasId(v.rows, id) && ParseUuid(id) == Some(id)
  {
    ParseUuidFixes(id);
  }

  lemma MintQuiet(v: Vault, tenant: string, d: Draw)
    requires d.keyId !in v.store.deks
    ensures var (r, v') := MintDek(v, tenant, d);
            && Quiet(v, v')
            && (r.Ok? ==> r.value == d.keyId && d.keyId in v'.store.deks && v'.store.deks[d.keyId].tenant == tenant
                          && v'.store.deks[d.keyId].raw == d.dek && HasId(v'.rows, d.keyId))
            && forall k | k in v.store.deks :: k in v'.store.deks && v'.store.deks[k] == v.store.deks[k]
  {
    hide ParseUuid, Insert, Write, TenantKekFor;
    KekQuiet(v, tenant, d);
    var (kek, w) := TenantKekFor(v, tenant, d);
    if kek.Ok? && ParseUuid(tenant).Some? {
      var entry := NewDek(d.keyId, tenant, kek.value, d.dek);
      WriteKeeps(d.db.dek, w.identity, w.tenants, w.rows, Row(d.keyId, ParseUuid(tenant), 1, DataEncryption, Active, entry.wrapped));
      var v' := MintDek(v, tenant, d).1;
      QuietMinted(v, w, v', d.keyId, entry);
    } else if kek.Ok? {
      QuietMinted(v, w, MintDek(v, tenant, d).1, d.keyId, NewDek(d.keyId, tenant, kek.value, d.dek));
    }
  }

  lemma QuietMinted(v: Vault, w: Vault, v': Vault, keyId: string, e: DekEntry)
    requires Quiet(v, w) && w.store.deks == v.store.deks && keyId !in v.store.deks
    requires v'.store == InsertDek(w.store, keyId, e) && KeepsIds(w.rows, v'.rows)
    ensures Quiet(v, v')
  {
    assert Quiet(w, v');
    QuietTransitive(v, w, v');
  }

  lemma HydrateQuiet(v: Vault, keyId: string, answer: seq<Row>, d: Draw)
    requires keyId !in v.store.deks
    ensures var v' := HydrateDek(v, keyId, answer, d).1;
            Quiet(v, v') && forall k | k in v.store.deks :: k in v'.store.deks && v'.store.deks[k] == v.store.deks[k]
  {
    hide ParseUuid, Hydrate, TenantKekFor;
    assert KeepsIds(v.rows, v.rows);
    if answer != [] && answer[0].tenant.Some? { KekQuiet(v, answer[0].tenant.value, d); }
  }

  lemma {:induction false} SetStateKeepsIds(rows: seq<Row>, id: string, state: KeyState)
    ensures KeepsIds(rows, SetState(rows, id, state))
  {
    var rows' := SetState(rows, id, state);
    forall r | r in rows ensures HasId(rows', r.id) {
      var i :| 0 <= i < |rows| && rows[i] == r;
      assert rows'[i] in rows' && rows'[i].id == r.id;
    }
  }

  lemma KeepsIdsTransitive(a: seq<Row>, b: seq<Row>, c: seq<Row>)
    requires KeepsIds(a, b) && KeepsIds(b, c)
    ensures KeepsIds(a, c)
  {
    forall r | r in a ensures HasId(c, r.id) {
      var x :| x in b && x.id == r.id;
      assert HasId(c, x.id);
    }
  }

  lemma SaveQuiet(v: Vault, tenant: string, keyId: string, version: nat, wrapped: Blob, d: Draw)
    ensures var v' := SaveRotation(v, tenant, keyId, version, wrapped, d).1; v'.store == v.store && KeepsIds(v.rows, v'.rows)
  {
    hide ParseUuid, Insert, SetState;
    assert KeepsIds(v.rows, v.rows);
    if ParseUuid(keyId).Some? && ParseUuid(tenant).Some? {
      var retired := Write(d.db.update, v.rows, Some(SetState(v.rows, ParseUuid(keyId).value, RotatingOut))).1;
      SetStateKeepsIds(v.rows, ParseUuid(keyId).value, RotatingOut);
      var row := Row(ParseUuid(keyId).value, ParseUuid(tenant), version, DataEncryption, Active, wrapped);
      WriteKeeps(d.db.dek, v.identity, v.tenants, retired, row);
      KeepsIdsTransitive(v.rows, retired, Write(d.db.dek, retired, Insert(v.identity, v.tenants, retired, row)).1);
    }
  }

  /** A rotation, once it has its KEK, puts the drawn key in the slot and the old one on the chain, saved or not. */
  lemma RotateLeaves(v: Vault, tenant: string, keyId: string, d: Draw)
    ensures var v' := RotateFor(v, tenant, keyId, d).1;
            && Quiet(v, v')
            && (forall k | k in v.store.deks && k != keyId :: k in v'.store.deks && v'.store.deks[k] == v.store.deks[k])
            && (keyId in v.store.deks && v.store.deks[keyId].tenant == tenant && TenantKekFor(v, tenant, d).0.Ok? ==>
                  && keyId in v'.store.deks && v'.store.deks[keyId].raw == d.dek
                  && v'.store.deks[keyId].superseded == v.store.deks[keyId].superseded + [v.store.deks[keyId].raw]
                  && v'.store.deks[keyId].version == v.store.deks[keyId].version + 1)
  {
    hide SaveRotation, TenantKekFor;
    assert KeepsIds(v.rows, v.rows);
    KekQuiet(v, tenant, d);
    var (kek, w) := TenantKekFor(v, tenant, d);
    if CheckOwner(v.store, tenant, keyId).Ok? && kek.Ok? {
      var (version, s) := CommitRotation(w.store, keyId, kek.value, d.dek);
      var cached := w.(store := s);
      SaveQuiet(cached, tenant, keyId, version.value, s.deks[keyId].wrapped, d);
      KeepsIdsTransitive(v.rows, cached.rows, RotateFor(v, tenant, keyId, d).1.rows);
    }
  }

  lemma LoadQuiet(v: Vault, kekRows: Option<seq<Row>>, dekRows: Option<seq<Row>>)
    ensures Quiet(v, OpenedAndLoaded(v, kekRows, dekRows))
  {
    hide LoadKeks, LoadDeks;
    assert KeepsIds(v.rows, v.rows);
    if kekRows.Some? && dekRows.Some? {
      var keks := LoadKeks(v.rootKey, v.store.keks, kekRows.value);
      forall k | k in v.store.deks
        ensures k in LoadDeks(Some(v.rootKey), keks, v.store.deks, dekRows.value)
             && LoadDeks(Some(v.rootKey), keks, v.store.deks, dekRows.value)[k].tenant == v.store.deks[k].tenant
      {
        LoadOwner(Some(v.rootKey), keks, v.store.deks, dekRows.value, k);
      }
    }
  }

  lemma ReplicateQuiet(v: Vault, tenant: string, keyId: string, raw: Key, q: Request, reply: Outcome)
    ensures var v' := Replicated(v, tenant, keyId, raw, q, reply); Quiet(v, v') && v'.store == v.store
  {
    var v' := Replicated(v, tenant, keyId, raw, q, reply);
    forall r | r in v.rows ensures HasId(v'.rows, r.id) { assert r in v'.rows; }
  }

  /** Everything but an encryption and a restart is quiet. */
  lemma StepQuiet(v: Vault, a: Action)
    requires Legal(v, a) && !a.Encrypt? && !a.Restart?
    ensures Quiet(v, Step(v, a))
  {
    hide MintDek, RotateFor, HydrateDek, Replicated, OpenedAndLoaded, ParseWire, Decrypt, UnusedId;
    assert KeepsIds(v.rows, v.rows);
    match a
    case Generate(tenant, d) =>
      UnusedIsNew(v, d.keyId);
      MintQuiet(v, tenant, d);
    case Rotate(tenant, keyId, d) => RotateLeaves(v, tenant, keyId, d);
    case DecryptAny(tenant, wire, aad, answer, d) =>
      var parsed := ParseWire(tenant, wire);
      if parsed.Ok? && parsed.value.0 !in v.store.deks { HydrateQuiet(v, parsed.value.0, answer, d); }
    case Replicate(tenant, keyId, raw, q, reply) => ReplicateQuiet(v, tenant, keyId, raw, q, reply);
    case Unseal(kekRows, dekRows) => LoadQuiet(v, kekRows, dekRows);
    case _ =>
  }

  // ---------------------------------------------------------------------
  // What an encryption does
  // ---------------------------------------------------------------------

  /** A current key has spent between one operation and all of them, is cached for its tenant, and is in the table. */
  ghost predicate CurrentOk(v: Vault, tenant: string)
    requires tenant in v.store.current
  {
    var c := v.store.current[tenant];
    && 1 <= c.operations <= DEK_MAX_OPERATIONS
    && c.keyId in v.store.deks && v.store.deks[c.keyId].tenant == tenant && HasId(v.rows, c.keyId)
  }

  predicate BudgetLeft(v: Vault, tenant: string) {
    tenant in v.store.current && v.store.current[tenant].operations < DEK_MAX_OPERATIONS
  }

  /** What an answered encryption uses and spends: one operation of the current key, or the first of a new one. */
  ghost predicate Spends(v: Vault, v': Vault, tenant: string, keyId: string, minted: string) {
    && KeepsOwners(v.store.deks, v'.store.deks) && KeepsIds(v.rows, v'.rows)
    && if BudgetLeft(v, tenant) then
         var c := v.store.current[tenant];
         keyId == c.keyId && v'.store.current == v.store.current[tenant := Current(keyId, c.operations + 1)]
       else
         && keyId == minted && v'.store.current == v.store.current[tenant := Current(minted, 1)]
         && minted in v'.store.deks && v'.store.deks[minted].tenant == tenant && HasId(v'.rows, minted)
  }

  lemma PickSpends(v: Vault, tenant: string, d: Draw)
    requires d.keyId !in v.store.deks && (tenant in v.store.current ==> CurrentOk(v, tenant))
    ensures var (r, v') := PickDek(v, tenant, d);
            && v'.issued == v.issued
            && if r.Ok? then
                 Spends(v, v', tenant, r.value, d.keyId) && r.value in v'.store.deks && v'.store.deks[r.value].tenant == tenant
               else Quiet(v, v')
  {
    hide MintDek;
    assert KeepsIds(v.rows, v.rows);
    MintQuiet(v, tenant, d);
    MintIssues(v, tenant, d);
  }

  lemma MintIssues(v: Vault, tenant: string, d: Draw)
    ensures MintDek(v, tenant, d).1.issued == v.issued
  {
    hide ParseUuid, Insert;
  }

  /** An encryption that is answered spends one operation and seals under the newest version of the key it names; one that
      is not answered spends none. */
  lemma EncryptSpends(v: Vault, tenant: string, q: Request, answer: seq<Row>, d: Draw)
    requires d.keyId !in v.store.deks && (tenant in v.store.current ==> CurrentOk(v, tenant))
    ensures var (r, v') := EncryptFor(v, tenant, q, answer, d);
            if r.Ok? then
              && Spends(v, v', tenant, r.value.keyId, d.keyId) && r.value.tenant == tenant && r.value.q == q
              && r.value.keyId in v'.store.deks
              && r.value.blob == Sealed(v'.store.deks[r.value.keyId].raw, q.plain, q.aad)
            else Quiet(v, v')
    ensures Blank(tenant) || q.plain == Data("") ==> EncryptFor(v, tenant, q, answer, d) == (Err(InvalidArgument), v)
  {
    hide PickDek, Spends, HydrateDek, Blank;
    assert KeepsIds(v.rows, v.rows);
    PickSpends(v, tenant, d);
    var (picked, w) := PickDek(v, tenant, d);
    if picked.Ok? {
      SpendsSame(v, w, EncryptFor(v, tenant, q, answer, d).1, tenant, picked.value, d.keyId);
    }
  }

  lemma SpendsSame(v: Vault, w: Vault, w': Vault, tenant: string, keyId: string, minted: string)
    requires Spends(v, w, tenant, keyId, minted)
    ensures w'.store == w.store && w'.rows == w.rows ==> Spends(v, w', tenant, keyId, minted)
  {
  }

  // ---------------------------------------------------------------------
  // The ledgers over runs
  // ---------------------------------------------------------------------

  ghost predicate TenantLedger(v0: Vault, actions: seq<Action>, tenant: string) {
    var v := Run(v0, actions);
    var n, keys := Served(v0, actions, tenant), KeysServed(v0, actions, tenant);
    && (forall id | id in keys :: HasId(v.rows, id))
    && if tenant in v.store.current then
         var c := v.store.current[tenant];
         && CurrentOk(v, tenant) && c.keyId in keys && Uses(v0, actions, c.keyId) == c.operations
         && n == (|keys| - 1) * DEK_MAX_OPERATIONS + c.operations
       else n == 0 && keys == {}
  }

  ghost predicate KeyLedger(v0: Vault, actions: seq<Action>, id: string) {
    Uses(v0, actions, id) <= DEK_MAX_OPERATIONS && (Uses(v0, actions, id) > 0 ==> HasId(Run(v0, actions).rows, id))
  }

  ghost predicate Ledgers(v0: Vault, actions: seq<Action>) {
    (forall t :: TenantLedger(v0, actions, t)) && (forall id :: KeyLedger(v0, actions, id))
  }

  lemma LedgersAt(v0: Vault, actions: seq<Action>, tenant: string)
    requires Ledgers(v0, actions)
    ensures var v := Run(v0, actions); tenant in v.store.current ==> CurrentOk(v, tenant)
  {
    hide Run, CurrentOk;
    assert TenantLedger(v0, actions, tenant);
  }

  lemma KeepsId(rows: seq<Row>, rows': seq<Row>, id: string)
    requires KeepsIds(rows, rows') && HasId(rows, id)
    ensures HasId(rows', id)
  {
    var r :| r in rows && r.id == id;
    assert HasId(rows', r.id);
  }

  /** Without an answer nothing is counted. */
  lemma QuietLedgers(v0: Vault, actions: seq<Action>, a: Action)
    requires Ledgers(v0, actions) && Quiet(Run(v0, actions), Step(Run(v0, actions), a))
    requires !a.Restart? && Answer(Run(v0, actions), a).None?
    ensures Ledgers(v0, actions + [a])
  {
    hide Step, Answer, CurrentOk;
    var longer := actions + [a];
    assert longer[..|actions|] == actions;
    var v, v' := Run(v0, actions), Run(v0, longer);
    forall t ensures TenantLedger(v0, longer, t) {
      assert TenantLedger(v0, actions, t);
      forall id | id in KeysServed(v0, longer, t) ensures HasId(v'.rows, id) { KeepsId(v.rows, v'.rows, id); }
      if t in v.store.current { CurrentStays(v, v', t); }
    }
    forall id ensures KeyLedger(v0, longer, id) {
      assert KeyLedger(v0, actions, id);
      if Uses(v0, actions, id) > 0 { KeepsId(v.rows, v'.rows, id); }
    }
  }

  lemma CurrentStays(v: Vault, v': Vault, tenant: string)
    requires KeepsOwners(v.store.deks, v'.store.deks) && KeepsIds(v.rows, v'.rows)
    requires tenant in v.store.current && tenant in v'.store.current && v'.store.current[tenant] == v.store.current[tenant]
    requires CurrentOk(v, tenant)
    ensures CurrentOk(v', tenant)
  {
    KeepsId(v.rows, v'.rows, v.store.current[tenant].keyId);
  }

  lemma RestartLedgers(v0: Vault, actions: seq<Action>)
    requires Ledgers(v0, actions)
    ensures Ledgers(v0, actions + [Restart])
  {
    var longer := actions + [Restart];
    assert longer[..|actions|] == actions;
    forall id ensures KeyLedger(v0, longer, id) { assert KeyLedger(v0, actions, id); }
  }

  /** What an answer adds to the counts. */
  lemma CountAnswer(v0: Vault, actions: seq<Action>, a: Action, r: Response)
    requires Answer(Run(v0, actions), a) == Some(r)
    ensures forall id :: Uses(v0, actions + [a], id) == Uses(v0, actions, id) + if id == r.keyId then 1 else 0
    ensures forall t :: Served(v0, actions + [a], t) == Served(v0, actions, t) + if t == r.tenant then 1 else 0
    ensures forall t :: KeysServed(v0, actions + [a], t) == KeysServed(v0, actions, t) + if t == r.tenant then {r.keyId} else {}
    ensures Run(v0, actions + [a]) == Step(Run(v0, actions), a)
  {
    hide Answer, Step;
    assert (actions + [a])[..|actions|] == actions;
    assert !a.Restart? by { RestartAnswers(Run(v0, actions), a); }
  }

  lemma RestartAnswers(v: Vault, a: Action)
    requires Answer(v, a).Some?
    ensures a.Encrypt?
  {
  }

  lemma AnswerLedgers(v0: Vault, actions: seq<Action>, a: Action, r: Response)
    requires Ledgers(v0, actions) && Answer(Run(v0, actions), a) == Some(r) && a.Encrypt?
    requires a.d.keyId !in Run(v0, actions).store.deks && !HasId(Run(v0, actions).rows, a.d.keyId)
    ensures Ledgers(v0, actions + [a])
  {
    hide Step, Run, Uses, Served, KeysServed, CurrentOk;
    var v := Run(v0, actions);
    var v' := Run(v0, actions + [a]);
    CountAnswer(v0, actions, a, r);
    LedgersAt(v0, actions, a.tenant);
    assert Spends(v, v', a.tenant, r.keyId, a.d.keyId) && r.tenant == a.tenant by { EncryptAnswers(v, a, r); }
    forall t ensures TenantLedger(v0, actions + [a], t) {
      assert TenantLedger(v0, actions, t) && TenantLedger(v0, actions, a.tenant);
      if t == a.tenant { SpendingTenant(v0, actions, a, r); } else { OtherTenant(v0, actions, a, r, t); }
    }
    forall id ensures KeyLedger(v0, actions + [a], id) {
      assert KeyLedger(v0, actions, id) && TenantLedger(v0, actions, a.tenant);
      SpendingKey(v0, actions, a, r, id);
    }
  }

  lemma EncryptAnswers(v: Vault, a: Action, r: Response)
    requires a.Encrypt? && Answer(v, a) == Some(r) && a.d.keyId !in v.store.deks
    requires a.tenant in v.store.current ==> CurrentOk(v, a.tenant)
    ensures Spends(v, Step(v, a), a.tenant, r.keyId, a.d.keyId) && r.tenant == a.tenant
  {
    hide EncryptFor, Spends;
    EncryptSpends(v, a.tenant, a.q, a.answer, a.d);
  }

  /** An answered encryption, in the ledgers before and after it. */
  ghost predicate Charged(v0: Vault, actions: seq<Action>, a: Action, r: Response) {
    && a.Encrypt? && r.tenant == a.tenant
    && Spends(Run(v0, actions), Run(v0, actions + [a]), a.tenant, r.keyId, a.d.keyId)
    && !HasId(Run(v0, actions).rows, a.d.keyId)
    && (forall id :: Uses(v0, actions + [a], id) == Uses(v0, actions, id) + if id == r.keyId then 1 else 0)
    && (forall t :: Served(v0, actions + [a], t) == Served(v0, actions, t) + if t == r.tenant then 1 else 0)
    && (forall t :: KeysServed(v0, actions + [a], t) == KeysServed(v0, actions, t) + if t == r.tenant then {r.keyId} else {})
  }

  lemma SpendingTenant(v0: Vault, actions: seq<Action>, a: Action, r: Response)
    requires Charged(v0, actions, a, r) && Ledgers(v0, actions)
    ensures TenantLedger(v0, actions + [a], a.tenant)
  {
    hide Run, Uses, Served, KeysServed;
    var v, v' := Run(v0, actions), Run(v0, actions + [a]);
    var keys := KeysServed(v0, actions, a.tenant);
    assert TenantLedger(v0, actions, a.tenant) && KeyLedger(v0, actions, r.keyId);
    forall id | id in keys ensures HasId(v'.rows, id) { KeepsId(v.rows, v'.rows, id); }
    if BudgetLeft(v, a.tenant) {
      KeepsId(v.rows, v'.rows, r.keyId);
      assert keys + {r.keyId} == keys;
    } else {
      assert r.keyId !in keys;
    }
  }

  lemma OtherTenant(v0: Vault, actions: seq<Action>, a: Action, r: Response, t: string)
    requires Charged(v0, actions, a, r) && t != a.tenant
    requires TenantLedger(v0, actions, t) && TenantLedger(v0, actions, a.tenant)
    ensures TenantLedger(v0, actions + [a], t)
  {
    hide Run, Uses, Served, KeysServed, CurrentOk, Spends;
    var v, v' := Run(v0, actions), Run(v0, actions + [a]);
    assert KeepsIds(v.rows, v'.rows) by { SpendsKeeps(v, v', a.tenant, r.keyId, a.d.keyId, t); }
    forall id | id in KeysServed(v0, actions, t) ensures HasId(v'.rows, id) { KeepsId(v.rows, v'.rows, id); }
    SpendsKeeps(v, v', a.tenant, r.keyId, a.d.keyId, t);
  }

  /** The current key of another tenant is another key, and stays as it is. */
  lemma SpendsKeeps(v: Vault, v': Vault, tenant: string, keyId: string, minted: string, t: string)
    requires Spends(v, v', tenant, keyId, minted) && !HasId(v.rows, minted) && t != tenant
    requires tenant in v.store.current ==> CurrentOk(v, tenant)
    requires t in v.store.current ==> CurrentOk(v, t)
    ensures KeepsIds(v.rows, v'.rows) && (t in v'.store.current <==> t in v.store.current)
    ensures t in v.store.current ==>
              && v'.store.current[t] == v.store.current[t] && CurrentOk(v', t) && v.store.current[t].keyId != keyId
  {
    if t in v.store.current { CurrentStays(v, v', t); }
  }

  lemma SpendingKey(v0: Vault, actions: seq<Action>, a: Action, r: Response, id: string)
    requires Charged(v0, actions, a, r) && KeyLedger(v0, actions, id) && TenantLedger(v0, actions, a.tenant)
    ensures KeyLedger(v0, actions + [a], id)
  {
    hide Run, Uses, Served, KeysServed;
    var v, v' := Run(v0, actions), Run(v0, actions + [a]);
    if Uses(v0, actions, id) > 0 || (id == r.keyId && BudgetLeft(v, a.tenant)) { KeepsId(v.rows, v'.rows, id); }
  }

  lemma StepLedgers(v0: Vault, actions: seq<Action>, a: Action)
    requires Ledgers(v0, actions) && Legal(Run(v0, actions), a)
    ensures Ledgers(v0, actions + [a])
  {
    hide Run, Step, Ledgers, Quiet, UnusedId;
    var v := Run(v0, actions);
    if a.Restart? {
      RestartLedgers(v0, actions);
    } else if a.Encrypt? {
      UnusedIsNew(v, a.d.keyId);
      var r := Answer(v, a);
      if r.Some? {
        AnswerLedgers(v0, actions, a, r.value);
      } else {
        LedgersAt(v0, actions, a.tenant);
        UnansweredQuiet(v, a);
        QuietLedgers(v0, actions, a);
      }
    } else {
      StepQuiet(v, a);
      QuietLedgers(v0, actions, a);
    }
  }

  lemma UnansweredQuiet(v: Vault, a: Action)
    requires a.Encrypt? && Answer(v, a).None? && a.d.keyId !in v.store.deks
    requires a.tenant in v.store.current ==> CurrentOk(v, a.tenant)
    ensures Quiet(v, Step(v, a))
  {
    hide EncryptFor, Spends, Quiet;
    EncryptSpends(v, a.tenant, a.q, a.answer, a.d);
  }

  lemma {:induction false} RunLedgers(identity: Identity, rootKey: Key, actions: seq<Action>)
    requires LegalRun(Init(identity, rootKey), actions)
    ensures Ledgers(Init(identity, rootKey), actions)
  {
    hide Step, Legal;
    if actions != [] {
      var n := |actions| - 1;
      LegalPrefix(Init(identity, rootKey), actions, n);
      RunLedgers(identity, rootKey, actions[..n]);
      assert Legal(Run(Init(identity, rootKey), actions[..n]), actions[n]);
      StepLedgers(Init(identity, rootKey), actions[..n], actions[n]);
      assert actions[..n] + [actions[n]] == actions;
    }
  }

  /**
   The budget with a database. Along every run, failures and restarts included, no key id answers more than 100,000
   encryptions; and the encryptions of a tenant that a process answered, n of them, were answered under exactly
   ceil(n / 100,000) keys.
   */
  lemma DatabaseBudget(identity: Identity, rootKey: Key, actions: seq<Action>, tenant: string, keyId: string)
    requires LegalRun(Init(identity, rootKey), actions)
    ensures var v0 := Init(identity, rootKey);
            && Uses(v0, actions, keyId) <= 100_000
            && |KeysServed(v0, actions, tenant)| == (Served(v0, actions, tenant) + 99_999) / 100_000
  {
    hide Run, Uses, Served, KeysServed;
    RunLedgers(identity, rootKey, actions);
    assert TenantLedger(Init(identity, rootKey), actions, tenant) && KeyLedger(Init(identity, rootKey), actions, keyId);
  }

  // ---------------------------------------------------------------------
  // Rotations
  // ---------------------------------------------------------------------

  /** The steps that may replace what is cached of a key. */
  predicate Replaces(a: Action, keyId: string) { a.Restart? || a.Unseal? || (a.Rotate? && a.keyId == keyId) }

  lemma EntryStays(v: Vault, a: Action, keyId: string)
    requires Legal(v, a) && keyId in v.store.deks && !Replaces(a, keyId)
    ensures keyId in Step(v, a).store.deks && Step(v, a).store.deks[keyId] == v.store.deks[keyId]
  {
    hide MintDek, RotateFor, HydrateDek, Replicated, PickDek, ParseWire, Decrypt, UnusedId, Quiet, GetDek;
    match a
    case Encrypt(tenant, q, answer, d) =>
      UnusedIsNew(v, d.keyId);
      PickLeaves(v, tenant, d, keyId);
      var (picked, w) := PickDek(v, tenant, d);
      if picked.Ok? && picked.value !in w.store.deks { HydrateQuiet(w, picked.value, answer, d); }
    case Generate(tenant, d) =>
      UnusedIsNew(v, d.keyId);
      MintQuiet(v, tenant, d);
    case Rotate(tenant, other, d) => RotateLeaves(v, tenant, other, d);
    case DecryptAny(tenant, wire, aad, answer, d) =>
      var parsed := ParseWire(tenant, wire);
      if parsed.Ok? && parsed.value.0 !in v.store.deks { HydrateQuiet(v, parsed.value.0, answer, d); }
    case Replicate(tenant, id, raw, q, reply) => ReplicateQuiet(v, tenant, id, raw, q, reply);
    case _ =>
  }

  lemma PickLeaves(v: Vault, tenant: string, d: Draw, keyId: string)
    requires d.keyId !in v.store.deks && keyId in v.store.deks
    ensures var w := PickDek(v, tenant, d).1; keyId in w.store.deks && w.store.deks[keyId] == v.store.deks[keyId]
  {
    hide MintDek;
    MintQuiet(v, tenant, d);
  }

  lemma {:induction false} EntryStaysAlong(v: Vault, actions: seq<Action>, keyId: string)
    requires LegalRun(v, actions) && keyId in v.store.deks && forall a | a in actions :: !Replaces(a, keyId)
    ensures keyId in Run(v, actions).store.deks && Run(v, actions).store.deks[keyId] == v.store.deks[keyId]
  {
    hide Step, Legal, Replaces;
    if actions != [] {
      var n := |actions| - 1;
      LegalPrefix(v, actions, n);
      assert actions[n] in actions && forall a | a in actions[..n] :: a in actions;
      EntryStaysAlong(v, actions[..n], keyId);
      assert Legal(Run(v, actions[..n]), actions[n]);
      EntryStays(Run(v, actions[..n]), actions[n], keyId);
    }
  }

  /** Whatever the caches hold, an answer is sealed under the newest version cached of the key it names. */
  lemma SealedUnderNewest(v: Vault, a: Action, r: Response)
    requires Answer(v, a) == Some(r)
    ensures var deks := Step(v, a).store.deks; r.keyId in deks && r.blob == Sealed(deks[r.keyId].raw, r.q.plain, r.q.aad)
  {
    hide PickDek, HydrateDek;
  }

  /**
   A rotation takes effect, whether or not the table took it: until the key is rotated again, loaded again or the process
   restarts, every encryption that names it is sealed under the material the rotation drew.
   */
  lemma RotationTakesEffect(v: Vault, tenant: string, keyId: string, d: Draw, more: seq<Action>, a: Action, r: Response)
    requires keyId in v.store.deks && v.store.deks[keyId].tenant == tenant && TenantKekFor(v, tenant, d).0.Ok?
    requires var v' := Step(v, Rotate(tenant, keyId, d));
             && LegalRun(v', more) && Legal(Run(v', more), a) && (forall b | b in more :: !Replaces(b, keyId))
             && Answer(Run(v', more), a) == Some(r) && r.keyId == keyId
    ensures r.blob == Sealed(d.dek, r.q.plain, r.q.aad)
  {
    hide Run, Legal, Answer, RotateFor, TenantKekFor;
    var v' := Step(v, Rotate(tenant, keyId, d));
    RotateLeaves(v, tenant, keyId, d);
    EntryStaysAlong(v', more, keyId);
    RestartAnswers(Run(v', more), a);
    EntryStays(Run(v', more), a, keyId);
    SealedUnderNewest(Run(v', more), a, r);
  }
}
