/** What survives restarts: the invariant that ties what was issued to the table, kept by every prudent step. */
module PersistenceRuns {
  import opened Wrappers
  import opened Envelope
  import opened KeyStore
  import opened KeyTable
  import opened WarmLoad
  import opened Persistence

  // ---------------------------------------------------------------------
  // The invariant
  // ---------------------------------------------------------------------

  predicate RowOk(root: Key, r: Row) {
    && Loadable(r) && CanonicalUuid(r.id)
    && r.tenant.Some? && CanonicalUuid(r.tenant.value)
    && (r.purpose == TenantKek ==> r.version == 1 && OpenKey(root, r.wrapped, KekAad(r.tenant.value)).Some?)
  }

  /** Rows of one id have one tenant and one purpose, and a tenant has one KEK row. */
  ghost predicate RowsOk(rows: seq<Row>, root: Key) {
    && (forall r | r in rows :: RowOk(root, r))
    && (forall a, b | a in rows && b in rows && a.id == b.id :: a.tenant == b.tenant && a.purpose == b.purpose)
    && (forall a, b | a in rows && b in rows && a.purpose == TenantKek == b.purpose && a.tenant == b.tenant :: a == b)
  }

  ghost predicate Referenced(tenants: set<string>, rows: seq<Row>) {
    forall r | r in rows :: r.tenant.Some? && r.tenant.value in tenants
  }

  /** A cached key agrees with its rows, if it has any, on whose it is. It need not be saved. */
  ghost predicate EntryOk(rows: seq<Row>, id: string, e: DekEntry) {
    && (CanonicalUuid(id) || exists r :: r in rows && ParseUuid(id) == Some(r.id))
    && WellSpelled(e.tenant)
    && forall r | r in rows && ParseUuid(id) == Some(r.id) :: r.tenant == Some(e.tenant) && r.purpose == DataEncryption
  }

  ghost predicate EntriesOk(rows: seq<Row>, deks: map<string, DekEntry>) {
    forall id | id in deks :: EntryOk(rows, id, deks[id])
  }

  ghost predicate CurrentOk(deks: map<string, DekEntry>, current: map<string, Current>) {
    forall t | t in current :: current[t].keyId in deks && deks[current[t].keyId].tenant == t && CanonicalUuid(current[t].keyId)
  }

  /** The table can give the material back, and a cached chain of the key holds it. */
  ghost predicate ResponseOk(rows: seq<Row>, root: Key, deks: map<string, DekEntry>, r: Response) {
    && r.blob.Sealed? && r.blob == Sealed(r.blob.key, r.q.plain, r.q.aad)
    && Stored(rows, root, r.keyId, r.tenant, r.blob.key)
    && (r.keyId in deks ==> Holds(deks, r.keyId, r.blob.key) && deks[r.keyId].tenant == r.tenant)
  }

  ghost predicate IssuedOk(rows: seq<Row>, root: Key, deks: map<string, DekEntry>, issued: set<Response>) {
    forall r | r in issued :: ResponseOk(rows, root, deks, r)
  }

  ghost predicate Inv(v: Vault) {
    && RowsOk(v.rows, v.rootKey) && Referenced(v.tenants, v.rows)
    && EntriesOk(v.rows, v.store.deks) && CurrentOk(v.store.deks, v.store.current)
    && IssuedOk(v.rows, v.rootKey, v.store.deks, v.issued)
    && (v.store.root.None? || v.store.root == Some(v.rootKey))
  }

  // ---------------------------------------------------------------------
  // The table grows
  // ---------------------------------------------------------------------

  lemma {:induction false} KekOfNone(rows: seq<Row>, root: Key, tenant: string)
    requires forall r | r in rows && r.purpose == TenantKek && r.tenant == Some(tenant) ::
               OpenKey(root, r.wrapped, KekAad(tenant)).Some?
    ensures KekOf(rows, root, tenant).None?
            <==> forall r | r in rows :: !(r.purpose == TenantKek && r.tenant == Some(tenant))
  {
    if rows != [] {
      assert rows == [rows[0]] + rows[1..];
      if !(rows[0].purpose == TenantKek && rows[0].tenant == Some(tenant)) {
        KekOfNone(rows[1..], root, tenant);
      }
    }
  }

  lemma {:induction false} KekOfAppend(rows: seq<Row>, root: Key, row: Row, tenant: string)
    ensures KekOf(rows, root, tenant).Some? ==> KekOf(rows + [row], root, tenant) == KekOf(rows, root, tenant)
    ensures !(row.purpose == TenantKek && row.tenant == Some(tenant)) ==>
              KekOf(rows + [row], root, tenant) == KekOf(rows, root, tenant)
    ensures row.purpose == TenantKek && row.tenant == Some(tenant)
            && (forall r | r in rows :: !(r.purpose == TenantKek && r.tenant == Some(tenant))) ==>
              KekOf(rows + [row], root, tenant) == OpenKey(root, row.wrapped, KekAad(tenant))
  {
    if rows == [] {
      assert (rows + [row])[1..] == [];
    } else {
      assert (rows + [row])[1..] == rows[1..] + [row];
      assert forall r | r in rows[1..] :: r in rows;
      KekOfAppend(rows[1..], root, row, tenant);
    }
  }

  lemma {:induction false} KekOfSetState(rows: seq<Row>, root: Key, id: string, state: KeyState, tenant: string)
    ensures KekOf(SetState(rows, id, state), root, tenant) == KekOf(rows, root, tenant)
  {
    if rows != [] {
      assert SetState(rows, id, state)[1..] == SetState(rows[1..], id, state);
      KekOfSetState(rows[1..], root, id, state, tenant);
    }
  }

  lemma {:induction false} KekOfRow(rows: seq<Row>, root: Key, r: Row)
    requires r in rows && r.purpose == TenantKek && r.tenant.Some?
    requires forall a | a in rows && a.purpose == TenantKek && a.tenant == r.tenant :: a == r
    ensures KekOf(rows, root, r.tenant.value) == OpenKey(root, r.wrapped, KekAad(r.tenant.value))
  {
    assert rows == [rows[0]] + rows[1..];
    if rows[0] != r {
      KekOfRow(rows[1..], root, r);
    } else {
      assert rows[0] in rows;
    }
  }

  /** Growth of the table: material that could be read back still can. */
  ghost predicate Grows(rows: seq<Row>, rows': seq<Row>, root: Key) {
    && (forall t | KekOf(rows, root, t).Some? :: KekOf(rows', root, t) == KekOf(rows, root, t))
    && (forall id, t, k | Stored(rows, root, id, t, k) :: Stored(rows', root, id, t, k))
  }

  lemma GrowsSame(rows: seq<Row>, root: Key)
    ensures Grows(rows, rows, root)
  {
  }

  lemma GrowsStored(rows: seq<Row>, rows': seq<Row>, root: Key, id: string, t: string, k: Key)
    requires Grows(rows, rows', root) && Stored(rows, root, id, t, k)
    ensures Stored(rows', root, id, t, k)
  {
  }

  lemma KeyOfAppend(rows: seq<Row>, root: Key, row: Row, r: Row)
    requires KeyOf(rows, root, r).Some?
    ensures KeyOf(rows + [row], root, r) == KeyOf(rows, root, r)
  {
    KekOfAppend(rows, root, row, r.tenant.value);
  }

  lemma AppendGrows(rows: seq<Row>, root: Key, row: Row)
    ensures Grows(rows, rows + [row], root)
  {
    hide KekOf, KeyOf;
    var rows' := rows + [row];
    forall t | KekOf(rows, root, t).Some? ensures KekOf(rows', root, t) == KekOf(rows, root, t) {
      KekOfAppend(rows, root, row, t);
    }
    forall id, t, k | Stored(rows, root, id, t, k) ensures Stored(rows', root, id, t, k) {
      var r :| r in rows && StoredIn(rows, root, id, t, k, r);
      KeyOfAppend(rows, root, row, r);
      assert r in rows' && StoredIn(rows', root, id, t, k, r);
    }
  }

  lemma AppendRowsOk(rows: seq<Row>, root: Key, row: Row)
    requires RowsOk(rows, root) && RowOk(root, row)
    requires forall r | r in rows && r.id == row.id :: r.tenant == row.tenant && r.purpose == row.purpose
    requires row.purpose == TenantKek ==> forall r | r in rows && r.purpose == TenantKek :: r.tenant != row.tenant
    ensures RowsOk(rows + [row], root)
  {
    hide CanonicalUuid;
  }

  /** The row an updated row was. */
  lemma SetStateFrom(rows: seq<Row>, id: string, r': Row) returns (r: Row)
    requires r' in SetState(rows, id, RotatingOut)
    ensures r in rows && r' == if r.id == id then r.(state := RotatingOut) else r
  {
    var i :| 0 <= i < |rows| && SetState(rows, id, RotatingOut)[i] == r';
    r := rows[i];
  }

  lemma SetStateRowsOk(rows: seq<Row>, root: Key, id: string)
    requires RowsOk(rows, root)
    ensures RowsOk(SetState(rows, id, RotatingOut), root)
  {
    hide CanonicalUuid;
    var rows' := SetState(rows, id, RotatingOut);
    forall r' | r' in rows' ensures RowOk(root, r') {
      var r := SetStateFrom(rows, id, r');
      assert RowOk(root, r);
    }
    forall a', b' | a' in rows' && b' in rows' && a'.id == b'.id ensures a'.tenant == b'.tenant && a'.purpose == b'.purpose {
      var a := SetStateFrom(rows, id, a');
      var b := SetStateFrom(rows, id, b');
    }
    forall a', b' | a' in rows' && b' in rows' && a'.purpose == TenantKek == b'.purpose && a'.tenant == b'.tenant
      ensures a' == b'
    {
      var a := SetStateFrom(rows, id, a');
      var b := SetStateFrom(rows, id, b');
    }
  }

  lemma SetStateGrows(rows: seq<Row>, root: Key, id: string)
    ensures Grows(rows, SetState(rows, id, RotatingOut), root)
  {
    var rows' := SetState(rows, id, RotatingOut);
    forall t ensures KekOf(rows', root, t) == KekOf(rows, root, t) {
      KekOfSetState(rows, root, id, RotatingOut, t);
    }
    forall kid, t, k | Stored(rows, root, kid, t, k) ensures Stored(rows', root, kid, t, k) {
      var r :| r in rows && StoredIn(rows, root, kid, t, k, r);
      var i :| 0 <= i < |rows| && rows[i] == r;
      assert rows'[i] in rows' && StoredIn(rows', root, kid, t, k, rows'[i]);
    }
  }

  // ---------------------------------------------------------------------
  // Frames
  // ---------------------------------------------------------------------

  /** Nothing that was issued depends on the KEKs in memory or on the order of use. */
  lemma KeksFree(v: Vault, keks: map<string, KekEntry>)
    requires Inv(v)
    ensures Inv(v.(store := v.store.(keks := keks)))
  {
    hide RowsOk, Referenced, EntriesOk, CurrentOk, IssuedOk;
  }

  lemma CurrentFree(v: Vault, current: map<string, Current>)
    requires Inv(v) && CurrentOk(v.store.deks, current)
    ensures Inv(v.(store := v.store.(current := current)))
  {
    hide RowsOk, Referenced, EntriesOk, CurrentOk, IssuedOk;
  }

  /** Responses stay readable when the table grows, chains only gain, and a newly cached chain holds all that is stored. */
  lemma IssuedCarry(
    rows: seq<Row>, rows': seq<Row>, root: Key, deks: map<string, DekEntry>, deks': map<string, DekEntry>, issued: set<Response>)
    requires IssuedOk(rows, root, deks, issued) && Grows(rows, rows', root)
    requires forall id | id in deks && id in deks' :: deks'[id].tenant == deks[id].tenant
    requires forall id, k | Holds(deks, id, k) && id in deks' :: Holds(deks', id, k)
    requires forall id, t, k | id in deks' && id !in deks && Stored(rows, root, id, t, k) ::
               Holds(deks', id, k) && deks'[id].tenant == t
    ensures IssuedOk(rows', root, deks', issued)
  {
    hide Grows, Stored, Holds;
    forall r | r in issued ensures ResponseOk(rows', root, deks', r) {
      assert ResponseOk(rows, root, deks, r);
      GrowsStored(rows, rows', root, r.keyId, r.tenant, r.blob.key);
    }
  }

  lemma IssuedGrows(rows: seq<Row>, rows': seq<Row>, root: Key, deks: map<string, DekEntry>, issued: set<Response>)
    requires IssuedOk(rows, root, deks, issued) && Grows(rows, rows', root)
    ensures IssuedOk(rows', root, deks, issued)
  {
    hide Grows, Stored, Holds;
    forall r | r in issued ensures ResponseOk(rows', root, deks, r) {
      assert ResponseOk(rows, root, deks, r);
      GrowsStored(rows, rows', root, r.keyId, r.tenant, r.blob.key);
    }
  }

  lemma EntriesAppend(rows: seq<Row>, deks: map<string, DekEntry>, row: Row)
    requires EntriesOk(rows, deks)
    requires forall k | k in deks && ParseUuid(k) == Some(row.id) ::
               row.tenant == Some(deks[k].tenant) && row.purpose == DataEncryption
    ensures EntriesOk(rows + [row], deks)
  {
    hide CanonicalUuid, ParseUuid;
    forall k | k in deks ensures EntryOk(rows + [row], k, deks[k]) {
      assert EntryOk(rows, k, deks[k]);
      if r :| r in rows && ParseUuid(k) == Some(r.id) { assert r in rows + [row]; }
    }
  }

  /** A row joins the table: of a registered tenant, agreeing with the rows and the cached keys of its id. */
  lemma AppendKeeps(v: Vault, row: Row)
    requires Inv(v) && RowOk(v.rootKey, row) && row.tenant.value in v.tenants
    requires forall r | r in v.rows && r.id == row.id :: r.tenant == row.tenant && r.purpose == row.purpose
    requires row.purpose == TenantKek ==> forall r | r in v.rows && r.purpose == TenantKek :: r.tenant != row.tenant
    requires forall k | k in v.store.deks && ParseUuid(k) == Some(row.id) ::
               row.tenant == Some(v.store.deks[k].tenant) && row.purpose == DataEncryption
    ensures Inv(v.(rows := v.rows + [row])) && Grows(v.rows, v.rows + [row], v.rootKey)
  {
    hide RowsOk, EntriesOk, CurrentOk, IssuedOk, RowOk, Grows, ParseUuid;
    AppendRowsOk(v.rows, v.rootKey, row);
    AppendGrows(v.rows, v.rootKey, row);
    EntriesAppend(v.rows, v.store.deks, row);
    assert RowOk(v.rootKey, row) ==> row.tenant.Some? by { TenantNamed(v.rootKey, row); }
    IssuedGrows(v.rows, v.rows + [row], v.rootKey, v.store.deks, v.issued);
  }

  lemma TenantNamed(root: Key, r: Row)
    ensures RowOk(root, r) ==> r.tenant.Some?
  {
  }

  lemma EntriesSetState(rows: seq<Row>, deks: map<string, DekEntry>, id: string)
    requires EntriesOk(rows, deks)
    ensures EntriesOk(SetState(rows, id, RotatingOut), deks)
  {
    hide CanonicalUuid, ParseUuid;
    var rows' := SetState(rows, id, RotatingOut);
    forall k | k in deks ensures EntryOk(rows', k, deks[k]) {
      assert EntryOk(rows, k, deks[k]);
      if r :| r in rows && ParseUuid(k) == Some(r.id) {
        var i :| 0 <= i < |rows| && rows[i] == r;
        assert rows'[i] in rows' && rows'[i].id == r.id;
      }
      forall r' | r' in rows' && ParseUuid(k) == Some(r'.id) ensures r'.tenant == Some(deks[k].tenant) && r'.purpose == DataEncryption {
        var r := SetStateFrom(rows, id, r');
      }
    }
  }

  lemma RetireKeeps(v: Vault, id: string)
    requires Inv(v)
    ensures Inv(v.(rows := SetState(v.rows, id, RotatingOut))) && Grows(v.rows, SetState(v.rows, id, RotatingOut), v.rootKey)
  {
    hide RowsOk, EntriesOk, CurrentOk, IssuedOk, Grows;
    var rows' := SetState(v.rows, id, RotatingOut);
    SetStateRowsOk(v.rows, v.rootKey, id);
    SetStateGrows(v.rows, v.rootKey, id);
    EntriesSetState(v.rows, v.store.deks, id);
    IssuedGrows(v.rows, rows', v.rootKey, v.store.deks, v.issued);
    forall r' | r' in rows' ensures r'.tenant.Some? && r'.tenant.value in v.tenants {
      var r := SetStateFrom(v.rows, id, r');
    }
  }

  predicate InEntry(e: DekEntry, k: Key) { k == e.raw || k in e.superseded }

  /** One cache entry is written: a new one with all that is stored of its key, or an old one with no key less. */
  lemma EntryWritten(v: Vault, id: string, e: DekEntry)
    requires Inv(v) && EntryOk(v.rows, id, e)
    requires id in v.store.deks ==> e.tenant == v.store.deks[id].tenant && forall k | Holds(v.store.deks, id, k) :: InEntry(e, k)
    requires id !in v.store.deks ==> forall t, k | Stored(v.rows, v.rootKey, id, t, k) :: InEntry(e, k) && e.tenant == t
    ensures Inv(v.(store := InsertDek(v.store, id, e)))
  {
    hide RowsOk, Referenced, Stored, EntryOk;
    var deks' := v.store.deks[id := e];
    assert forall k | InEntry(e, k) :: Holds(deks', id, k);
    assert forall kid, k | Holds(v.store.deks, kid, k) && kid != id :: Holds(deks', kid, k);
    GrowsSame(v.rows, v.rootKey);
    IssuedCarry(v.rows, v.rows, v.rootKey, v.store.deks, deks', v.issued);
  }

  // ---------------------------------------------------------------------
  // Tenant KEKs
  // ---------------------------------------------------------------------

  /** Whether the table takes a KEK row, for a registered tenant and a new id: exactly when it holds none for the tenant. */
  lemma KekInsertIff(v: Vault, tenant: string, id: string, wrapped: Blob)
    requires RowsOk(v.rows, v.rootKey) && forall r | r in v.rows :: r.id != id
    ensures var row := Row(id, Some(tenant), 1, TenantKek, Active, wrapped);
            Insert(v.identity, v.tenants, v.rows, row)
            == if tenant in v.tenants && KekOf(v.rows, v.rootKey, tenant).None? then Some(v.rows + [row]) else None
  {
    hide CanonicalUuid;
    assert forall r | r in v.rows :: RowOk(v.rootKey, r);
    KekOfNone(v.rows, v.rootKey, tenant);
    assert forall i | 0 <= i < |v.rows| :: v.rows[i] in v.rows;
    if KekOf(v.rows, v.rootKey, tenant).Some? {
      var existing :| existing in v.rows && existing.purpose == TenantKek && existing.tenant == Some(tenant);
      var i :| 0 <= i < |v.rows| && v.rows[i] == existing;
    }
  }

  function KekRow(v: Vault, tenant: string, d: Draw): Row {
    Row(d.kekRow, Some(tenant), 1, TenantKek, Active, Sealed(v.rootKey, RawKey(d.kek), KekAad(tenant)))
  }

  /** The table with a tenant's first KEK row. */
  lemma KekRowKeeps(v: Vault, tenant: string, d: Draw)
    requires Inv(v) && UnusedId(v, d.kekRow) && CanonicalUuid(tenant) && tenant in v.tenants
    requires KekOf(v.rows, v.rootKey, tenant).None?
    ensures var rows := v.rows + [KekRow(v, tenant, d)];
            && Inv(v.(rows := rows)) && Grows(v.rows, rows, v.rootKey) && KekOf(rows, v.rootKey, tenant) == Some(d.kek)
  {
    hide CanonicalUuid, ParseUuid, Inv, Grows, KekOf;
    var row := KekRow(v, tenant, d);
    InvRows(v);
    assert forall r | r in v.rows :: RowOk(v.rootKey, r);
    KekOfNone(v.rows, v.rootKey, tenant);
    KekOfAppend(v.rows, v.rootKey, row, tenant);
    AppendKeeps(v, row);
  }

  lemma InvRows(v: Vault)
    requires Inv(v)
    ensures RowsOk(v.rows, v.rootKey)
  {
  }

  /** What a request that asked for a tenant KEK leaves behind. */
  ghost predicate KekReady(v: Vault, tenant: string, d: Draw, r: Result<Key, Error>, v': Vault) {
    && Inv(v') && Grows(v.rows, v'.rows, v.rootKey)
    && v' == v.(rows := v'.rows, store := v.store.(keks := v'.store.keks))
    && (v'.rows == v.rows || v'.rows == v.rows + [KekRow(v, tenant, d)])
    && (tenant in v.store.keks ==> v' == v)
    && (r.Ok? ==> FindKek(v'.store, tenant) == Some(r.value))
    && (r.Ok? && tenant !in v.store.keks ==> r.value == d.kek && KekOf(v'.rows, v'.rootKey, tenant) == Some(d.kek))
  }

  lemma TenantKekKeeps(v: Vault, tenant: string, d: Draw)
    requires Inv(v) && LegalDraw(v, d) && WellSpelled(tenant)
    ensures var (r, v') := TenantKekFor(v, tenant, d); KekReady(v, tenant, d, r, v')
  {
    hide CanonicalUuid, ParseUuid, Inv, Grows, KekOf, Insert;
    var (r, v') := TenantKekFor(v, tenant, d);
    GrowsSame(v.rows, v.rootKey);
    KeksFree(v, v'.store.keks);
    if tenant !in v.store.keks && v.store.root.Some? && ParseUuid(tenant).Some? {
      ParseUuidFixes(tenant);
      InvRows(v);
      InvRoot(v);
      KekInsertIff(v, tenant, d.kekRow, Sealed(v.rootKey, RawKey(d.kek), KekAad(tenant)));
      if tenant in v.tenants && KekOf(v.rows, v.rootKey, tenant).None? {
        KekRowKeeps(v, tenant, d);
        KeksFree(v.(rows := v.rows + [KekRow(v, tenant, d)]), v'.store.keks);
      }
    }
  }

  lemma InvRoot(v: Vault)
    requires Inv(v)
    ensures v.store.root.None? || v.store.root == Some(v.rootKey)
  {
  }

  /** When a tenant gets its KEK: from memory, or by a first row that the database acknowledges. */
  lemma TenantKekServesIff(v: Vault, tenant: string, d: Draw)
    requires Inv(v) && LegalDraw(v, d) && CanonicalUuid(tenant)
    ensures TenantKekFor(v, tenant, d).0.Ok?
            <==> || tenant in v.store.keks
                 || (v.store.root.Some? && tenant in v.tenants && KekOf(v.rows, v.rootKey, tenant).None? && d.db.kek.Acked?)
  {
    hide CanonicalUuid, ParseUuid, Inv, KekOf, Insert;
    ParseUuidFixes(tenant);
    InvRows(v);
    InvRoot(v);
    KekInsertIff(v, tenant, d.kekRow, Sealed(v.rootKey, RawKey(d.kek), KekAad(tenant)));
  }

  /**
   Creating a KEK is durable exactly when the tenant is registered, the table holds none for it and the INSERT is carried
   out; it is reported as created when that is acknowledged too. Otherwise, as for a tenant that is not registered yet,
   after a failed warm load, or on a second replica, the process is left using a KEK that no restart recovers.
   */
  lemma CreatingKekDurableIff(v: Vault, tenant: string, d: Draw)
    requires Inv(v) && LegalDraw(v, d) && CanonicalUuid(tenant)
    requires tenant !in v.store.keks && v.store.root.Some? && KekOf(v.rows, v.rootKey, tenant) != Some(d.kek)
    ensures var (r, v') := TenantKekFor(v, tenant, d);
            var fits := tenant in v.tenants && KekOf(v.rows, v.rootKey, tenant).None?;
            && FindKek(v'.store, tenant) == Some(d.kek)
            && (KekSaved(v', tenant) <==> fits && !d.db.kek.Unreachable?)
            && (r.Ok? <==> fits && d.db.kek.Acked?)
  {
    hide CanonicalUuid, ParseUuid, Inv, KekOf, Insert;
    ParseUuidFixes(tenant);
    InvRows(v);
    InvRoot(v);
    KekInsertIff(v, tenant, d.kekRow, Sealed(v.rootKey, RawKey(d.kek), KekAad(tenant)));
    if tenant in v.tenants && KekOf(v.rows, v.rootKey, tenant).None? {
      KekRowKeeps(v, tenant, d);
    }
  }

  // ---------------------------------------------------------------------
  // Minting and encrypting
  // ---------------------------------------------------------------------

  /** A DEK wrapped under its tenant's stored KEK can be read back from its row. */
  lemma DekRowStored(rows: seq<Row>, root: Key, kek: Key, row: Row, tenant: string, raw: Key)
    requires row in rows && row.tenant == Some(tenant) && row.purpose == DataEncryption
    requires row.wrapped == Sealed(kek, RawKey(raw), ReloadAad(row.id)) && KekOf(rows, root, tenant) == Some(kek)
    ensures Stored(rows, root, row.id, tenant, raw)
  {
    hide KekOf;
    assert StoredIn(rows, root, row.id, tenant, raw, row);
  }

  /** A new key enters the cache, saved or not. */
  lemma FreshEntryKeeps(v: Vault, tenant: string, kek: Key, d: Draw)
    requires Inv(v) && UnusedId(v, d.keyId) && WellSpelled(tenant)
    ensures Inv(v.(store := InsertDek(v.store, d.keyId, NewDek(d.keyId, tenant, kek, d.dek))))
  {
    hide CanonicalUuid, ParseUuid, Inv;
    ParseUuidFixes(d.keyId);
    EntryWritten(v, d.keyId, NewDek(d.keyId, tenant, kek, d.dek));
  }

  function DekRow(tenant: string, id: string, version: nat, wrapped: Blob): Row {
    Row(id, Some(tenant), version, DataEncryption, Active, wrapped)
  }

  lemma FreshRowInserts(v: Vault, row: Row)
    requires row.purpose == DataEncryption && forall r | r in v.rows :: r.id != row.id
    ensures Insert(v.identity, v.tenants, v.rows, row)
            == if row.tenant.Some? && row.tenant.value !in v.tenants then None else Some(v.rows + [row])
  {
    assert forall i | 0 <= i < |v.rows| :: v.rows[i] in v.rows;
  }

  /** What minting leaves: the invariant, the key cached for its tenant, and, when the KEK is the stored one, saved. */
  ghost predicate Minted(v: Vault, tenant: string, d: Draw, r: Result<string, Error>, v': Vault) {
    && Inv(v') && v'.issued == v.issued && v'.rootKey == v.rootKey && v'.store.current == v.store.current
    && (r.Ok? ==>
          && r.value == d.keyId && d.keyId in v'.store.deks
          && v'.store.deks[d.keyId].tenant == tenant && v'.store.deks[d.keyId].raw == d.dek)
    && (r.Ok? && (tenant in v.store.keks ==> KekSaved(v, tenant)) ==> Stored(v'.rows, v'.rootKey, d.keyId, tenant, d.dek))
  }

  lemma MintKeeps(v: Vault, tenant: string, d: Draw)
    requires Inv(v) && LegalDraw(v, d) && WellSpelled(tenant)
    ensures var (r, v') := MintDek(v, tenant, d); Minted(v, tenant, d, r, v')
  {
    hide CanonicalUuid, ParseUuid, Inv, Grows, KekOf, Stored, Insert;
    TenantKekKeeps(v, tenant, d);
    var (kek, w) := TenantKekFor(v, tenant, d);
    if kek.Ok? {
      MintedUnder(v, w, tenant, kek.value, d);
    }
  }

  lemma MintedUnder(v: Vault, w: Vault, tenant: string, kek: Key, d: Draw)
    requires Inv(v) && LegalDraw(v, d) && WellSpelled(tenant)
    requires TenantKekFor(v, tenant, d) == (Ok(kek), w) && KekReady(v, tenant, d, Ok(kek), w)
    ensures var (r, v') := MintDek(v, tenant, d); Minted(v, tenant, d, r, v')
  {
    hide CanonicalUuid, ParseUuid, Inv, Grows, KekOf, Stored, Insert, TenantKekFor;
    var (r, v') := MintDek(v, tenant, d);
    assert UnusedId(w, d.keyId) by { StillUnused(v, w, tenant, d); }
    FreshEntryKeeps(w, tenant, kek, d);
    if ParseUuid(tenant).Some? {
      ParseUuidFixes(tenant);
      var row := DekRow(tenant, d.keyId, 1, Sealed(kek, RawKey(d.dek), ReloadAad(d.keyId)));
      FreshRowInserts(w, row);
      if tenant in w.tenants {
        FreshRowKeeps(w, NewDek(d.keyId, tenant, kek, d.dek), row);
        KekOfAppend(w.rows, w.rootKey, row, tenant);
        if KekOf(w.rows, w.rootKey, tenant) == Some(kek) {
          DekRowStored(w.rows + [row], w.rootKey, kek, row, tenant, d.dek);
        }
      }
    }
  }

  lemma StillUnused(v: Vault, w: Vault, tenant: string, d: Draw)
    requires LegalDraw(v, d) && w.store.deks == v.store.deks
    requires w.rows == v.rows || w.rows == v.rows + [KekRow(v, tenant, d)]
    ensures UnusedId(w, d.keyId)
  {
    hide CanonicalUuid, ParseUuid;
  }

  lemma FreshRowKeeps(w: Vault, e: DekEntry, row: Row)
    requires UnusedId(w, row.id) && Inv(w.(store := InsertDek(w.store, row.id, e)))
    requires row.tenant == Some(e.tenant) && e.tenant in w.tenants && CanonicalUuid(e.tenant)
    requires row.purpose == DataEncryption && row.state == Active
    ensures Inv(w.(store := InsertDek(w.store, row.id, e), rows := w.rows + [row])) && Grows(w.rows, w.rows + [row], w.rootKey)
  {
    hide CanonicalUuid, ParseUuid, Inv, Grows;
    ParseUuidFixes(row.id);
    AppendKeeps(w.(store := InsertDek(w.store, row.id, e)), row);
  }

  /** The key an encryption picks, and that it is saved when the encryption was prudent. */
  lemma PickKeeps(v: Vault, tenant: string, d: Draw)
    requires Inv(v) && LegalDraw(v, d) && WellSpelled(tenant)
    ensures var (r, v') := PickDek(v, tenant, d);
            && Inv(v') && v'.rootKey == v.rootKey && v'.issued == v.issued
            && (r.Ok? ==> r.value in v'.store.deks && v'.store.deks[r.value].tenant == tenant)
            && (r.Ok? && EncryptsSaved(v, tenant) ==>
                  Stored(v'.rows, v'.rootKey, r.value, tenant, v'.store.deks[r.value].raw))
  {
    hide CanonicalUuid, ParseUuid, Stored, KekOf, RowsOk, EntriesOk, IssuedOk, Referenced, KekSaved;
    var (taken, s) := TakeCurrent(v.store, tenant);
    if taken.Some? {
      CurrentFree(v, s.current);
    } else {
      MintKeeps(v, tenant, d);
      var (minted, w) := MintDek(v, tenant, d);
      if minted.Ok? {
        AdoptMine(w.store, tenant, minted.value);
        CurrentFree(w, AdoptCurrent(w.store, tenant, minted.value).1.current);
        UnspelledMintsFail(v, tenant, d);
      }
    }
  }

  lemma AdoptMine(s: Store, tenant: string, keyId: string)
    ensures TakeCurrent(s, tenant).0.None? ==> AdoptCurrent(s, tenant, keyId).0 == keyId
  {
  }

  lemma UnspelledMintsFail(v: Vault, tenant: string, d: Draw)
    ensures MintDek(v, tenant, d).0.Ok? ==> ParseUuid(tenant).Some?
  {
    hide ParseUuid, TenantKekFor, Insert;
  }

  lemma EncryptKeeps(v: Vault, tenant: string, q: Request, answer: seq<Row>, d: Draw)
    requires Inv(v) && LegalDraw(v, d) && WellSpelled(tenant) && EncryptsSaved(v, tenant)
    ensures Inv(EncryptFor(v, tenant, q, answer, d).1)
  {
    hide CanonicalUuid, Blank, Stored, KekOf, PickDek, EncryptsSaved, RowsOk, EntriesOk, CurrentOk, Referenced;
    PickKeeps(v, tenant, d);
    var (picked, w) := PickDek(v, tenant, d);
    if picked.Ok? {
      var v' := EncryptFor(v, tenant, q, answer, d).1;
      forall r | r in v'.issued ensures ResponseOk(v'.rows, v'.rootKey, v'.store.deks, r) {
        assert r in w.issued ==> ResponseOk(w.rows, w.rootKey, w.store.deks, r);
      }
    }
  }

  /** When an encryption is answered: a current key has budget left, or the tenant has or gets its KEK and the new key's row
      is taken and acknowledged. */
  lemma EncryptServesIff(v: Vault, tenant: string, q: Request, answer: seq<Row>, d: Draw)
    requires Inv(v) && LegalDraw(v, d) && CanonicalUuid(tenant)
    ensures var (r, v') := EncryptFor(v, tenant, q, answer, d);
            && (q.plain == Data("") ==> r == Err(InvalidArgument) && v' == v)
            && (r.Ok? <==>
                  && q.plain != Data("")
                  && (|| (tenant in v.store.current && v.store.current[tenant].operations < 100_000)
                      || (&& (|| tenant in v.store.keks
                              || (v.store.root.Some? && KekOf(v.rows, v.rootKey, tenant).None? && d.db.kek.Acked?))
                          && tenant in v.tenants && d.db.dek.Acked?)))
            && (r.Ok? ==> r.value.tenant == tenant && r.value.q == q && v'.issued == v.issued + {r.value})
  {
    hide CanonicalUuid, Blank, Inv, MintDek, AdoptCurrent, TenantKekFor, ParseUuid, KekOf;
    TenantNotBlank(tenant);
    ParseUuidFixes(tenant);
    PickKeeps(v, tenant, d);
    MintServesIff(v, tenant, d);
    TenantKekServesIff(v, tenant, d);
  }

  lemma MintServesIff(v: Vault, tenant: string, d: Draw)
    requires Inv(v) && LegalDraw(v, d) && CanonicalUuid(tenant)
    ensures MintDek(v, tenant, d).0.Ok? <==> TenantKekFor(v, tenant, d).0.Ok? && tenant in v.tenants && d.db.dek.Acked?
  {
    hide CanonicalUuid, ParseUuid, Inv, Grows, KekOf, Insert;
    ParseUuidFixes(tenant);
    TenantKekKeeps(v, tenant, d);
    var (kek, w) := TenantKekFor(v, tenant, d);
    if kek.Ok? {
      StillUnused(v, w, tenant, d);
      FreshRowInserts(w, DekRow(tenant, d.keyId, 1, Sealed(kek.value, RawKey(d.dek), ReloadAad(d.keyId))));
    }
  }

  lemma TenantNotBlank(tenant: string)
    requires CanonicalUuid(tenant)
    ensures !Blank(tenant)
  {
    CanonicalUuidShape(tenant);
  }

  // ---------------------------------------------------------------------
  // Hydration
  // ---------------------------------------------------------------------

  /** A hydrated entry holds exactly what its rows unwrap to. */
  lemma {:induction false} HydrateHolds(root: Option<Key>, kek: Key, tenant: string, rows: seq<Row>, k: Key)
    ensures var e := Hydrate(root, kek, tenant, rows);
            (e.Some? && InEntry(e.value, k)) <==> exists r :: r in rows && UnwrapDek(root, kek, r) == Some(k)
  {
    if rows != [] {
      var last := rows[|rows| - 1];
      var init := rows[..|rows| - 1];
      assert rows == init + [last];
      HydrateHolds(root, kek, tenant, init, k);
      HydrateSnoc(root, kek, tenant, init, last);
      var before := Hydrate(root, kek, tenant, init);
      if before.Some? {
        var chain := before.value.superseded + [before.value.raw];
        assert k in chain <==> k in before.value.superseded || k == before.value.raw;
      }
    }
  }

  lemma HydrateTenant(root: Option<Key>, kek: Key, tenant: string, rows: seq<Row>)
    ensures var e := Hydrate(root, kek, tenant, rows); e.Some? ==> e.value.tenant == tenant
  {
  }

  /** Something is hydrated exactly when some row opens. */
  lemma HydratesSomethingIff(root: Option<Key>, kek: Key, tenant: string, rows: seq<Row>)
    ensures Hydrate(root, kek, tenant, rows).Some? <==> exists r :: r in rows && UnwrapDek(root, kek, r).Some?
  {
    hide Hydrate, UnwrapDek;
    var e := Hydrate(root, kek, tenant, rows);
    if e.Some? {
      HydrateHolds(root, kek, tenant, rows, e.value.raw);
    } else {
      forall r | r in rows ensures UnwrapDek(root, kek, r).None? {
        if UnwrapDek(root, kek, r).Some? { HydrateHolds(root, kek, tenant, rows, UnwrapDek(root, kek, r).value); }
      }
    }
  }

  /** A KEK's row never opens as a DEK: it is wrapped for another context. */
  lemma KekRowWontOpen(rootKey: Key, root: Option<Key>, kek: Key, r: Row)
    requires r.purpose == TenantKek && RowOk(rootKey, r)
    ensures UnwrapDek(root, kek, r).None?
  {
    hide CanonicalUuid;
  }

  lemma StoredRow(rows: seq<Row>, root: Key, id: string, t: string, k: Key) returns (r: Row)
    requires Stored(rows, root, id, t, k)
    ensures r in rows && StoredIn(rows, root, id, t, k, r)
  {
    r :| r in rows && StoredIn(rows, root, id, t, k, r);
  }

  /** The rows of a cached-to-be key, as the version query answers them. */
  ghost predicate VersionsOf(rows: seq<Row>, keyId: string, answer: seq<Row>) {
    forall r :: r in answer <==> r in rows && ParseUuid(keyId) == Some(r.id)
  }

  lemma AnswerIsVersions(v: Vault, keyId: string, answer: seq<Row>)
    requires RowsOk(v.rows, v.rootKey) && LegalVersions(v, keyId, answer) && ParseUuid(keyId).Some?
    ensures VersionsOf(v.rows, keyId, answer)
  {
    hide CanonicalUuid, ParseUuid;
    AnswerElements(answer, LoadableVersions(v.rows, ParseUuid(keyId).value));
    assert forall r | r in v.rows :: RowOk(v.rootKey, r);
  }

  lemma HydratedKeeps(w: Vault, keyId: string, tenant: string, kek: Key, answer: seq<Row>)
    requires Inv(w) && keyId !in w.store.deks && VersionsOf(w.rows, keyId, answer)
    requires answer != [] && answer[0].tenant == Some(tenant) && OpensWhole(w, kek, answer)
    ensures var e := Hydrate(w.store.root, kek, tenant, answer);
            e.Some? ==> Inv(w.(store := InsertDek(w.store, keyId, e.value)))
  {
    hide CanonicalUuid, ParseUuid, Hydrate, UnwrapDek, KeyOf, Inv;
    var e := Hydrate(w.store.root, kek, tenant, answer);
    if e.Some? {
      HydrateTenant(w.store.root, kek, tenant, answer);
      HydratesSomethingIff(w.store.root, kek, tenant, answer);
      HydratedEntryOk(w, keyId, tenant, kek, answer);
      forall t, k | Stored(w.rows, w.rootKey, keyId, t, k) ensures InEntry(e.value, k) && tenant == t {
        var r := StoredRow(w.rows, w.rootKey, keyId, t, k);
        StoredIsAnswered(w, keyId, answer, r);
        HydrateHolds(w.store.root, kek, tenant, answer, k);
      }
      EntryWritten(w, keyId, e.value);
    }
  }

  lemma StoredIsAnswered(w: Vault, keyId: string, answer: seq<Row>, r: Row)
    requires Inv(w) && VersionsOf(w.rows, keyId, answer) && answer != [] && r in w.rows && r.id == keyId
    ensures r in answer && r.tenant == answer[0].tenant
  {
    hide CanonicalUuid, ParseUuid, EntriesOk, CurrentOk, IssuedOk, Referenced;
    assert RowOk(w.rootKey, r);
    ParseUuidFixes(keyId);
    assert answer[0] in answer;
  }

  lemma HydratedEntryOk(w: Vault, keyId: string, tenant: string, kek: Key, answer: seq<Row>)
    requires Inv(w) && VersionsOf(w.rows, keyId, answer) && answer != [] && answer[0].tenant == Some(tenant)
    requires exists r :: r in answer && UnwrapDek(w.store.root, kek, r).Some?
    ensures forall e: DekEntry | e.tenant == tenant :: EntryOk(w.rows, keyId, e)
  {
    hide ParseUuid, UnwrapDek, EntriesOk, CurrentOk, IssuedOk, Referenced, CanonicalUuid;
    assert answer[0] in answer && RowOk(w.rootKey, answer[0]);
    var x :| x in answer && UnwrapDek(w.store.root, kek, x).Some?;
    assert RowOk(w.rootKey, x);
    if x.purpose == TenantKek { KekRowWontOpen(w.rootKey, w.store.root, kek, x); }
  }

  /** A KEK that is the stored one, or that was just created, opens every row the table can give back. */
  lemma StoredKekOpensWhole(w: Vault, tenant: string, kek: Key, answer: seq<Row>)
    requires w.store.root == Some(w.rootKey) && KekOf(w.rows, w.rootKey, tenant) == Some(kek)
    requires forall r | r in answer :: r.tenant == Some(tenant)
    ensures OpensWhole(w, kek, answer)
  {
    hide KekOf;
  }

  lemma HydrateKeeps(v: Vault, keyId: string, answer: seq<Row>, d: Draw)
    requires Inv(v) && LegalDraw(v, d) && LegalVersions(v, keyId, answer) && keyId !in v.store.deks
    requires ParseUuid(keyId).Some? && d.db.query ==> HydratesWhole(v, answer)
    ensures var v' := HydrateDek(v, keyId, answer, d).1; Inv(v') && v'.issued == v.issued && v'.rootKey == v.rootKey
  {
    hide CanonicalUuid, ParseUuid, Inv, Hydrate, KekOf, Grows, OpensWhole, TenantKekFor, LegalVersions;
    if ParseUuid(keyId).Some? && d.db.query && answer != [] && answer[0].tenant.Some? {
      InvRows(v);
      AnswerIsVersions(v, keyId, answer);
      var tenant := answer[0].tenant.value;
      AnsweredTenant(v, keyId, answer);
      TenantKekKeeps(v, tenant, d);
      var (kek, w) := TenantKekFor(v, tenant, d);
      if kek.Ok? {
        StillVersions(v, w, tenant, keyId, answer, d);
        if tenant !in v.store.keks {
          CreatedUnderRoot(v, tenant, d);
          StoredKekOpensWhole(w, tenant, kek.value, answer);
        }
        HydratedKeeps(w, keyId, tenant, kek.value, answer);
      }
    }
  }

  lemma CreatedUnderRoot(v: Vault, tenant: string, d: Draw)
    requires Inv(v) && tenant !in v.store.keks && TenantKekFor(v, tenant, d).0.Ok?
    ensures v.store.root == Some(v.rootKey)
  {
    hide ParseUuid, Insert;
  }

  lemma AnsweredTenant(v: Vault, keyId: string, answer: seq<Row>)
    requires RowsOk(v.rows, v.rootKey) && VersionsOf(v.rows, keyId, answer) && answer != []
    ensures answer[0].tenant.Some? && WellSpelled(answer[0].tenant.value)
    ensures forall r | r in answer :: r.tenant == answer[0].tenant
  {
    hide ParseUuid, CanonicalUuid;
    assert answer[0] in answer;
    assert RowOk(v.rootKey, answer[0]);
  }

  lemma StillVersions(v: Vault, w: Vault, tenant: string, keyId: string, answer: seq<Row>, d: Draw)
    requires VersionsOf(v.rows, keyId, answer) && answer != [] && UnusedId(v, d.kekRow)
    requires w.rows == v.rows || w.rows == v.rows + [KekRow(v, tenant, d)]
    ensures VersionsOf(w.rows, keyId, answer)
  {
    hide ParseUuid, CanonicalUuid;
    assert answer[0] in answer;
  }

  // ---------------------------------------------------------------------
  // Rotation
  // ---------------------------------------------------------------------

  /** Two spellings of one cached key have one owner. */
  lemma SameOwner(rows: seq<Row>, deks: map<string, DekEntry>, a: string, b: string)
    requires EntriesOk(rows, deks) && a in deks && b in deks && ParseUuid(a).Some? && ParseUuid(a) == ParseUuid(b)
    ensures deks[a].tenant == deks[b].tenant
  {
    hide CanonicalUuid, ParseUuid;
    assert EntryOk(rows, a, deks[a]) && EntryOk(rows, b, deks[b]);
    ParseUuidFixes(a);
    ParseUuidFixes(b);
  }

  lemma DemoteKeeps(w: Vault, keyId: string, kek: Key, raw: Key)
    requires Inv(w) && keyId in w.store.deks
    ensures Inv(w.(store := CommitRotation(w.store, keyId, kek, raw).1))
  {
    hide CanonicalUuid, ParseUuid, Inv;
    var e := w.store.deks[keyId];
    var e' := Demote(e, raw, Sealed(kek, RawKey(raw), ReloadAad(keyId)), e.version + 1);
    EntryOfInv(w, keyId, e');
    assert forall k | k in e.superseded :: k in e'.superseded;
    assert e'.superseded[|e.superseded|] == e.raw;
    EntryWritten(w, keyId, e');
  }

  lemma EntryOfInv(w: Vault, keyId: string, e': DekEntry)
    requires Inv(w) && keyId in w.store.deks && e'.tenant == w.store.deks[keyId].tenant
    ensures EntryOk(w.rows, keyId, e')
  {
    hide CanonicalUuid, ParseUuid;
    assert EntryOk(w.rows, keyId, w.store.deks[keyId]);
  }

  lemma RotatedRowKeeps(v: Vault, keyId: string, row: Row)
    requires Inv(v) && keyId in v.store.deks && ParseUuid(keyId) == Some(row.id)
    requires row.tenant == Some(v.store.deks[keyId].tenant) && ParseUuid(row.tenant.value) == row.tenant && row.tenant.value in v.tenants
    requires row.purpose == DataEncryption && row.state == Active
    ensures Inv(v.(rows := v.rows + [row])) && Grows(v.rows, v.rows + [row], v.rootKey)
  {
    hide CanonicalUuid, ParseUuid, CurrentOk, IssuedOk, Referenced, RowsOk, Grows;
    assert EntryOk(v.rows, keyId, v.store.deks[keyId]);
    ParseUuidFixes(row.tenant.value);
    forall k | k in v.store.deks && ParseUuid(k) == Some(row.id) ensures row.tenant == Some(v.store.deks[k].tenant) {
      SameOwner(v.rows, v.store.deks, k, keyId);
    }
    AppendKeeps(v, row);
  }

  lemma SaveRotationKeeps(v: Vault, tenant: string, keyId: string, version: nat, wrapped: Blob, d: Draw)
    requires Inv(v) && keyId in v.store.deks && v.store.deks[keyId].tenant == tenant && WellSpelled(tenant)
    ensures Inv(SaveRotation(v, tenant, keyId, version, wrapped, d).1)
  {
    hide CanonicalUuid, ParseUuid, Inv, Grows, SetState;
    var key, uuid := ParseUuid(keyId), ParseUuid(tenant);
    if key.Some? && uuid.Some? {
      ParseUuidFixes(tenant);
      RetireKeeps(v, key.value);
      var retired := v.(rows := SetState(v.rows, key.value, RotatingOut));
      if tenant in v.tenants {
        RotatedRowKeeps(retired, keyId, DekRow(tenant, key.value, version, wrapped));
      }
    }
  }

  lemma RotateKeeps(v: Vault, tenant: string, keyId: string, d: Draw)
    requires Inv(v) && LegalDraw(v, d)
    ensures Inv(RotateFor(v, tenant, keyId, d).1)
  {
    hide CanonicalUuid, ParseUuid, Inv, Grows, KekOf, SaveRotation, TenantKekFor;
    if CheckOwner(v.store, tenant, keyId).Ok? {
      OwnerSpelled(v, keyId);
      TenantKekKeeps(v, tenant, d);
      var (kek, w) := TenantKekFor(v, tenant, d);
      if kek.Ok? {
        DemoteKeeps(w, keyId, kek.value, d.dek);
        var (version, s) := CommitRotation(w.store, keyId, kek.value, d.dek);
        SaveRotationKeeps(w.(store := s), tenant, keyId, version.value, s.deks[keyId].wrapped, d);
      }
    }
  }

  lemma OwnerSpelled(v: Vault, keyId: string)
    requires Inv(v) && keyId in v.store.deks
    ensures WellSpelled(v.store.deks[keyId].tenant)
  {
    hide CanonicalUuid, ParseUuid;
    assert EntryOk(v.rows, keyId, v.store.deks[keyId]);
  }

  // ---------------------------------------------------------------------
  // Warm load
  // ---------------------------------------------------------------------

  /** The KEKs in memory include every stored one. */
  ghost predicate Synced(rows: seq<Row>, root: Key, keks: map<string, KekEntry>) {
    forall t | KekOf(rows, root, t).Some? :: t in keks && keks[t].raw == KekOf(rows, root, t).value
  }

  /** Each loaded KEK row puts its tenant's stored KEK in memory, over whatever was there. */
  lemma {:induction false} LoadKeksStored(rows: seq<Row>, root: Key, keks: map<string, KekEntry>, answer: seq<Row>, r: Row)
    requires RowsOk(rows, root) && r in answer
    requires forall x | x in answer :: x in rows && x.purpose == TenantKek
    ensures var loaded := LoadKeks(root, keks, answer);
            && r.tenant.Some? && r.tenant.value in loaded
            && KekOf(rows, root, r.tenant.value) == Some(loaded[r.tenant.value].raw)
  {
    hide CanonicalUuid, KekOf;
    var n := |answer| - 1;
    var last := answer[n];
    assert answer == answer[..n] + [last];
    assert last in answer && r in rows;
    assert RowOk(root, last) && RowOk(root, r);
    KekOfRow(rows, root, last);
    if r in answer[..n] && r.tenant != last.tenant {
      LoadKeksStored(rows, root, keks, answer[..n], r);
    }
  }

  lemma LoadSyncs(v: Vault, kekRows: seq<Row>)
    requires RowsOk(v.rows, v.rootKey) && Answers(kekRows, LoadableRows(v.rows, TenantKek))
    ensures Synced(v.rows, v.rootKey, LoadKeks(v.rootKey, v.store.keks, kekRows))
  {
    hide CanonicalUuid, KekOf, LoadKeks;
    AnswerElements(kekRows, LoadableRows(v.rows, TenantKek));
    assert forall r | r in v.rows :: RowOk(v.rootKey, r);
    forall t | KekOf(v.rows, v.rootKey, t).Some?
      ensures var keks := LoadKeks(v.rootKey, v.store.keks, kekRows);
              t in keks && keks[t].raw == KekOf(v.rows, v.rootKey, t).value
    {
      KekOfNone(v.rows, v.rootKey, t);
      var r :| r in v.rows && r.purpose == TenantKek && r.tenant == Some(t);
      LoadKeksStored(v.rows, v.rootKey, v.store.keks, kekRows, r);
    }
  }

  /** A tenant whose KEK is in memory after a load had it there before, or stored. */
  lemma {:induction false} LoadKeksFrom(rows: seq<Row>, root: Key, keks: map<string, KekEntry>, answer: seq<Row>, t: string)
    requires RowsOk(rows, root) && forall x | x in answer :: x in rows && x.purpose == TenantKek
    requires t in LoadKeks(root, keks, answer) && t !in keks
    ensures KekOf(rows, root, t) == Some(LoadKeks(root, keks, answer)[t].raw)
  {
    hide CanonicalUuid, KekOf;
    var n := |answer| - 1;
    assert answer[n] in answer && RowOk(root, answer[n]);
    KekOfRow(rows, root, answer[n]);
    if answer[n].tenant != Some(t) {
      LoadKeksFrom(rows, root, keks, answer[..n], t);
    }
  }

  /** With the stored KEKs in memory, a row of a tenant that has one opens to whatever the table can give back of it. */
  lemma SyncedUnwraps(rows: seq<Row>, root: Key, keks: map<string, KekEntry>, r: Row)
    requires Synced(rows, root, keks) && KeyOf(rows, root, r).Some? && r.tenant.value in keks
    ensures UnwrapWith(Some(root), keks, r) == KeyOf(rows, root, r)
  {
  }

  /** What a load of answered DEK rows makes of the caches. */
  ghost predicate LoadedDeks(v: Vault, keks: map<string, KekEntry>, answer: seq<Row>, deks: map<string, DekEntry>) {
    && RowsOk(v.rows, v.rootKey) && Synced(v.rows, v.rootKey, keks)
    && deks == LoadDeks(Some(v.rootKey), keks, v.store.deks, answer)
    && (forall r | r in answer :: r in v.rows && r.purpose == DataEncryption)
  }

  /** The answer holds every row of the key, or none. */
  ghost predicate WholeIn(rows: seq<Row>, answer: seq<Row>, id: string) {
    forall x, r | x in answer && r in rows && x.id == id == r.id && r.purpose == DataEncryption :: r in answer
  }

  lemma LoadedComplete(v: Vault, keks: map<string, KekEntry>, answer: seq<Row>, deks: map<string, DekEntry>, id: string, t: string, k: Key)
    requires LoadedDeks(v, keks, answer, deks) && WholeIn(v.rows, answer, id)
    requires id in deks && id !in v.store.deks && Stored(v.rows, v.rootKey, id, t, k)
    ensures Holds(deks, id, k) && deks[id].tenant == t
  {
    hide CanonicalUuid, KekOf, KeyOf, LoadDeks, UnwrapDek, Synced;
    var r := StoredRow(v.rows, v.rootKey, id, t, k);
    LoadOwner(Some(v.rootKey), keks, v.store.deks, answer, id);
    var x :| x in answer && x.id == id && UnwrapWith(Some(v.rootKey), keks, x).Some? && x.tenant == Some(deks[id].tenant);
    SyncedUnwraps(v.rows, v.rootKey, keks, r);
    LoadHolds(Some(v.rootKey), keks, v.store.deks, answer, id, k);
  }

  /** A key that a load adds to the cache is of a tenant whose KEK is in memory. */
  lemma LoadedTenant(v: Vault, keks: map<string, KekEntry>, answer: seq<Row>, deks: map<string, DekEntry>, id: string, t: string, k: Key)
    requires LoadedDeks(v, keks, answer, deks) && id in deks && id !in v.store.deks && Stored(v.rows, v.rootKey, id, t, k)
    ensures t in keks
  {
    hide CanonicalUuid, KekOf, KeyOf, LoadDeks, UnwrapDek, Synced;
    var r := StoredRow(v.rows, v.rootKey, id, t, k);
    LoadOwner(Some(v.rootKey), keks, v.store.deks, answer, id);
    var x :| x in answer && x.id == id && UnwrapWith(Some(v.rootKey), keks, x).Some? && x.tenant == Some(deks[id].tenant);
  }

  lemma LoadedEntries(v: Vault, keks: map<string, KekEntry>, answer: seq<Row>, deks: map<string, DekEntry>)
    requires LoadedDeks(v, keks, answer, deks) && EntriesOk(v.rows, v.store.deks)
    ensures EntriesOk(v.rows, deks)
  {
    hide ParseUuid, CanonicalUuid, LoadDeks, UnwrapWith, Synced;
    forall id | id in deks ensures EntryOk(v.rows, id, deks[id]) {
      LoadOwner(Some(v.rootKey), keks, v.store.deks, answer, id);
      if id in v.store.deks {
        assert EntryOk(v.rows, id, v.store.deks[id]);
      } else {
        var x :| x in answer && x.id == id && UnwrapWith(Some(v.rootKey), keks, x).Some? && x.tenant == Some(deks[id].tenant);
        assert RowOk(v.rootKey, x);
        ParseUuidFixes(id);
      }
    }
  }

  lemma LoadedIssued(v: Vault, keks: map<string, KekEntry>, answer: seq<Row>, deks: map<string, DekEntry>)
    requires LoadedDeks(v, keks, answer, deks) && IssuedOk(v.rows, v.rootKey, v.store.deks, v.issued)
    requires forall r | r in v.issued && r.keyId !in v.store.deks && r.tenant in keks :: WholeIn(v.rows, answer, r.keyId)
    ensures IssuedOk(v.rows, v.rootKey, deks, v.issued)
  {
    hide LoadedDeks, Stored, Holds, WholeIn;
    forall r | r in v.issued ensures ResponseOk(v.rows, v.rootKey, deks, r) {
      assert ResponseOk(v.rows, v.rootKey, v.store.deks, r);
      if r.keyId in v.store.deks {
        LoadedKept(v, keks, answer, deks, r.keyId, r.blob.key);
      } else if r.keyId in deks {
        LoadedTenant(v, keks, answer, deks, r.keyId, r.tenant, r.blob.key);
        LoadedComplete(v, keks, answer, deks, r.keyId, r.tenant, r.blob.key);
      }
    }
  }

  lemma LoadedKept(v: Vault, keks: map<string, KekEntry>, answer: seq<Row>, deks: map<string, DekEntry>, id: string, k: Key)
    requires LoadedDeks(v, keks, answer, deks) && Holds(v.store.deks, id, k)
    ensures Holds(deks, id, k) && deks[id].tenant == v.store.deks[id].tenant
  {
    hide LoadDeks, UnwrapWith, RowsOk, Synced;
    LoadHolds(Some(v.rootKey), keks, v.store.deks, answer, id, k);
    LoadOwner(Some(v.rootKey), keks, v.store.deks, answer, id);
  }

  lemma LoadedCurrent(v: Vault, keks: map<string, KekEntry>, answer: seq<Row>, deks: map<string, DekEntry>)
    requires LoadedDeks(v, keks, answer, deks) && CurrentOk(v.store.deks, v.store.current)
    ensures CurrentOk(deks, v.store.current)
  {
    hide LoadDeks, UnwrapWith, RowsOk, Synced;
    forall t | t in v.store.current ensures v.store.current[t].keyId in deks && deks[v.store.current[t].keyId].tenant == t {
      LoadOwner(Some(v.rootKey), keks, v.store.deks, answer, v.store.current[t].keyId);
    }
  }

  /** An unsplit window answers all the rows of a key it answers any row of. */
  lemma WindowWhole(v: Vault, answer: seq<Row>, id: string)
    requires RowsOk(v.rows, v.rootKey) && Answers(answer, Window(v.rows, DataEncryption, WARM_LOAD_DEK_LIMIT))
    requires Unsplit(v.rows, id, WARM_LOAD_DEK_LIMIT)
    ensures WholeIn(v.rows, answer, id)
  {
    hide CanonicalUuid, Window;
    AnswerElements(answer, Window(v.rows, DataEncryption, WARM_LOAD_DEK_LIMIT));
    var all := LoadableRows(v.rows, DataEncryption);
    forall x, r | x in answer && r in v.rows && x.id == id == r.id && r.purpose == DataEncryption ensures r in answer {
      assert RowOk(v.rootKey, r);
      WindowElements(v.rows, x);
      assert r in all && x in all;
    }
  }

  lemma WindowElements(rows: seq<Row>, x: Row)
    requires x in Window(rows, DataEncryption, WARM_LOAD_DEK_LIMIT)
    ensures x in LoadableRows(rows, DataEncryption)
  {
  }

  lemma LoadedIs(v: Vault, kekRows: seq<Row>, dekRows: seq<Row>)
    requires RowsOk(v.rows, v.rootKey) && LegalLoad(v, Some(kekRows), Some(dekRows))
    ensures var s := OpenedAndLoaded(v, Some(kekRows), Some(dekRows)).store;
            && LoadedDeks(v, s.keks, dekRows, s.deks) && s.root == Some(v.rootKey) && s.current == v.store.current
            && s.keks == LoadKeks(v.rootKey, v.store.keks, kekRows)
  {
    hide Answers, Window, LoadKeks, LoadDeks, Synced, RowsOk;
    LoadSyncs(v, kekRows);
    AnswerElements(dekRows, Window(v.rows, DataEncryption, WARM_LOAD_DEK_LIMIT));
    forall r | r in dekRows ensures r in v.rows && r.purpose == DataEncryption { WindowElements(v.rows, r); }
  }

  lemma LoadedKekFrom(v: Vault, kekRows: seq<Row>, t: string)
    requires RowsOk(v.rows, v.rootKey) && Answers(kekRows, LoadableRows(v.rows, TenantKek))
    requires t in LoadKeks(v.rootKey, v.store.keks, kekRows)
    ensures LoadsTenant(v, t)
  {
    hide RowsOk, LoadKeks, KekOf;
    AnswerElements(kekRows, LoadableRows(v.rows, TenantKek));
    if t !in v.store.keks {
      LoadKeksFrom(v.rows, v.rootKey, v.store.keks, kekRows, t);
    }
  }

  /** An unseal keeps the invariant, whether its warm load succeeds or fails at either query. */
  lemma LoadKeeps(v: Vault, kekRows: Option<seq<Row>>, dekRows: Option<seq<Row>>)
    requires Inv(v) && LegalLoad(v, kekRows, dekRows)
    requires kekRows.Some? && dekRows.Some? ==> LoadsWhole(v)
    ensures Inv(OpenedAndLoaded(v, kekRows, dekRows))
  {
    hide RowsOk, Referenced, EntriesOk, CurrentOk, IssuedOk, Answers, Unsplit, LoadKeks, LoadDeks, LoadedDeks, WholeIn, Window;
    var v' := OpenedAndLoaded(v, kekRows, dekRows);
    if kekRows.Some? && dekRows.Some? {
      LoadedIs(v, kekRows.value, dekRows.value);
      forall r | r in v.issued && r.keyId !in v.store.deks && r.tenant in v'.store.keks
        ensures WholeIn(v.rows, dekRows.value, r.keyId)
      {
        LoadedKekFrom(v, kekRows.value, r.tenant);
        WindowWhole(v, dekRows.value, r.keyId);
      }
      LoadedEntries(v, v'.store.keks, dekRows.value, v'.store.deks);
      LoadedIssued(v, v'.store.keks, dekRows.value, v'.store.deks);
      LoadedCurrent(v, v'.store.keks, dekRows.value, v'.store.deks);
    }
  }

  // ---------------------------------------------------------------------
  // The other steps, and runs
  // ---------------------------------------------------------------------

  lemma ReplicateKeeps(v: Vault, tenant: string, keyId: string, raw: Key, q: Request, reply: Outcome)
    requires Inv(v) && CanonicalUuid(tenant) && (UnusedId(v, keyId) || exists r :: r in v.rows && r.id == keyId)
    ensures Inv(Replicated(v, tenant, keyId, raw, q, reply))
    ensures var v' := Replicated(v, tenant, keyId, raw, q, reply);
            if reply != Unreachable && tenant in v.tenants && UnusedId(v, keyId) then Stored(v'.rows, v'.rootKey, keyId, tenant, raw)
            else v' == v
  {
    hide CanonicalUuid, ParseUuid, Inv, Grows;
    var v' := Replicated(v, tenant, keyId, raw, q, reply);
    if v' != v {
      assert forall r | r in v.rows :: r.id != keyId;
      var row := DekRow(tenant, keyId, 1, Sealed(v.rootKey, RawKey(raw), TransportAad(keyId)));
      ParseUuidFixes(keyId);
      AppendKeeps(v, row);
      ReplicaStored(v.rows, v.rootKey, row, tenant, raw);
      ReplicaIssued(v.(rows := v.rows + [row]), v');
    }
  }

  lemma ReplicaStored(rows: seq<Row>, root: Key, row: Row, tenant: string, raw: Key)
    requires row.purpose == DataEncryption && row.tenant == Some(tenant) && row.wrapped == Sealed(root, RawKey(raw), TransportAad(row.id))
    ensures Stored(rows + [row], root, row.id, tenant, raw)
  {
    hide KekOf;
    assert row in rows + [row] && StoredIn(rows + [row], root, row.id, tenant, raw, row);
  }

  lemma ReplicaIssued(w: Vault, v': Vault)
    requires Inv(w) && v' == w.(issued := v'.issued)
    requires forall r | r in v'.issued && r !in w.issued :: ResponseOk(w.rows, w.rootKey, w.store.deks, r)
    ensures Inv(v')
  {
    hide RowsOk, Referenced, EntriesOk, CurrentOk, ResponseOk;
  }

  lemma QuietKeeps(v: Vault, tenant: string)
    requires Inv(v)
    ensures Inv(Restarted(v)) && Inv(v.(store := v.store.(root := None)))
    ensures Inv(v.(tenants := v.tenants + {tenant})) && Inv(Unregistered(v, tenant))
  {
    hide RowsOk, EntryOk, Stored, Holds;
    var v' := Restarted(v);
    forall r | r in v.issued ensures ResponseOk(v'.rows, v'.rootKey, v'.store.deks, r) {
      assert ResponseOk(v.rows, v.rootKey, v.store.deks, r);
    }
    assert forall r | r in v.rows :: exists i :: 0 <= i < |v.rows| && v.rows[i] == r;
  }

  lemma DecryptKeeps(v: Vault, tenant: string, wire: Text, aad: Aad, answer: seq<Row>, d: Draw)
    requires Inv(v)
    requires Legal(v, DecryptAny(tenant, wire, aad, answer, d)) && Prudent(v, DecryptAny(tenant, wire, aad, answer, d))
    ensures Inv(DecryptFor(v, tenant, wire, aad, answer, d).1)
  {
    hide CanonicalUuid, ParseUuid, ParseWire, Inv, LegalVersions, HydrateDek, HydratesWhole, Decrypt;
    var parsed := ParseWire(tenant, wire);
    if parsed.Ok? && parsed.value.0 !in v.store.deks {
      HydrateKeeps(v, parsed.value.0, answer, d);
    }
  }

  lemma StepKeeps(v: Vault, a: Action)
    requires Inv(v) && Legal(v, a) && Prudent(v, a)
    ensures Inv(Step(v, a))
  {
    hide CanonicalUuid, Inv, EncryptFor, DecryptFor, RotateFor, MintDek, OpenedAndLoaded, Replicated, EncryptsSaved, Unsplit;
    match a {
      case Encrypt(tenant, q, answer, d) => EncryptKeeps(v, tenant, q, answer, d);
      case Generate(tenant, d) => MintKeeps(v, tenant, d);
      case Rotate(tenant, keyId, d) => RotateKeeps(v, tenant, keyId, d);
      case DecryptAny(tenant, wire, aad, answer, d) => DecryptKeeps(v, tenant, wire, aad, answer, d);
      case Replicate(tenant, keyId, raw, q, reply) => ReplicateKeeps(v, tenant, keyId, raw, q, reply);
      case Register(tenant) => QuietKeeps(v, tenant);
      case Unregister(tenant) => QuietKeeps(v, tenant);
      case Restart => QuietKeeps(v, "");
      case Seal => QuietKeeps(v, "");
      case Unseal(kekRows, dekRows) => LoadKeeps(v, kekRows, dekRows);
    }
  }

  lemma InitKeeps(identity: Identity, rootKey: Key)
    ensures Inv(Init(identity, rootKey))
  {
  }

  lemma PrudentPrefix(v: Vault, actions: seq<Action>)
    requires PrudentRun(v, actions) && actions != []
    ensures PrudentRun(v, actions[..|actions| - 1])
  {
    hide Legal, Prudent, Step;
    var init := actions[..|actions| - 1];
    forall i | 0 <= i < |init| ensures Legal(Run(v, init[..i]), init[i]) && Prudent(Run(v, init[..i]), init[i]) {
      assert init[..i] == actions[..i];
    }
  }

  lemma {:induction false} RunKeeps(identity: Identity, rootKey: Key, actions: seq<Action>)
    requires PrudentRun(Init(identity, rootKey), actions)
    ensures Inv(Run(Init(identity, rootKey), actions))
  {
    hide Inv, Legal, Prudent, Step;
    var start := Init(identity, rootKey);
    if actions == [] {
      InitKeeps(identity, rootKey);
    } else {
      var n := |actions| - 1;
      PrudentPrefix(start, actions);
      RunKeeps(identity, rootKey, actions[..n]);
      StepKeeps(Run(start, actions[..n]), actions[n]);
    }
  }

  // ---------------------------------------------------------------------
  // Nothing encrypted becomes unreadable
  // ---------------------------------------------------------------------

  ghost predicate OpensUnder(v: Vault, id: string, kek: Key, k: Key) {
    exists row :: row in v.rows && row.id == id && UnwrapDek(v.store.root, kek, row) == Some(k)
  }

  /**
   Whether a read of a response finds its key. It does when the key is cached. Otherwise it has to be hydrated: under the
   tenant's KEK in memory, if that opens its row, or under a new KEK, which takes an open vault, a table that holds none
   for the tenant, and replies from the database.
   */
  ghost predicate Reaches(v: Vault, r: Response, d: Draw)
    requires r.blob.Sealed?
  {
    || r.keyId in v.store.deks
    || (d.db.query
        && if r.tenant in v.store.keks then OpensUnder(v, r.keyId, v.store.keks[r.tenant].raw, r.blob.key)
           else v.store.root.Some? && KekOf(v.rows, v.rootKey, r.tenant).None? && d.db.kek.Acked?)
  }

  lemma IssuedFacts(v: Vault, r: Response)
    requires Inv(v) && r in v.issued
    ensures r.blob.Sealed? && r.blob == Sealed(r.blob.key, r.q.plain, r.q.aad)
    ensures CanonicalUuid(r.keyId) && CanonicalUuid(r.tenant) && r.tenant in v.tenants
    ensures Stored(v.rows, v.rootKey, r.keyId, r.tenant, r.blob.key)
    ensures forall x | x in v.rows && x.id == r.keyId :: x.tenant == Some(r.tenant)
    ensures exists x :: x in v.rows && x.id == r.keyId
    ensures r.keyId in v.store.deks ==> Holds(v.store.deks, r.keyId, r.blob.key) && v.store.deks[r.keyId].tenant == r.tenant
  {
    hide CanonicalUuid, KeyOf, EntriesOk, CurrentOk;
    assert ResponseOk(v.rows, v.rootKey, v.store.deks, r);
    var x := StoredRow(v.rows, v.rootKey, r.keyId, r.tenant, r.blob.key);
    assert RowOk(v.rootKey, x);
  }

  /** What hydrating a key of a tenant brings into the cache. */
  lemma HydrationFinds(v: Vault, keyId: string, tenant: string, answer: seq<Row>, d: Draw, k: Key)
    requires VersionsOf(v.rows, keyId, answer) && answer != [] && answer[0].tenant == Some(tenant)
    requires keyId !in v.store.deks && ParseUuid(keyId).Some?
    ensures var (r, x) := HydrateDek(v, keyId, answer, d);
            var kek := TenantKekFor(v, tenant, d).0;
            && (r.Ok? ==> x.rootKey == v.rootKey && (keyId in x.store.deks ==> x.store.deks[keyId].tenant == tenant))
            && (r.Ok? && Holds(x.store.deks, keyId, k) <==>
                  d.db.query && kek.Ok? && exists row :: row in answer && UnwrapDek(v.store.root, kek.value, row) == Some(k))
            && (d.db.query && kek.Err? ==> r == Err(kek.error))
  {
    hide ParseUuid, Hydrate, UnwrapDek, TenantKekFor;
    var (kek, w) := TenantKekFor(v, tenant, d);
    KekLeavesDeks(v, tenant, d);
    if kek.Ok? {
      HydrateHolds(v.store.root, kek.value, tenant, answer, k);
      HydrateTenant(v.store.root, kek.value, tenant, answer);
    }
  }

  lemma EmptyAnswer(v: Vault, keyId: string, answer: seq<Row>)
    requires VersionsOf(v.rows, keyId, answer) && CanonicalUuid(keyId) && exists x :: x in v.rows && x.id == keyId
    ensures answer != [] && answer[0] in v.rows && answer[0].id == keyId && ParseUuid(keyId) == Some(keyId)
  {
    hide ParseUuid, CanonicalUuid;
    ParseUuidFixes(keyId);
    var x :| x in v.rows && x.id == keyId;
    assert x in answer && answer[0] in answer;
  }

  /** The read path finds a response's key exactly when it reaches it. */
  lemma FindsIff(v: Vault, r: Response, answer: seq<Row>, d: Draw)
    requires Inv(v) && r in v.issued && LegalDraw(v, d) && LegalVersions(v, r.keyId, answer) && r.blob.Sealed?
    ensures var (cached, x) := EnsureCached(v, r.keyId, answer, d);
            && (cached.Ok? && Holds(x.store.deks, r.keyId, r.blob.key) <==> Reaches(v, r, d))
            && (cached.Ok? && r.keyId in x.store.deks ==> x.store.deks[r.keyId].tenant == r.tenant)
  {
    hide CanonicalUuid, ParseUuid, Inv, LegalVersions, HydrateDek, UnwrapDek, TenantKekFor, KekOf, Stored;
    IssuedFacts(v, r);
    if r.keyId !in v.store.deks {
      InvRows(v);
      ParseUuidFixes(r.keyId);
      AnswerIsVersions(v, r.keyId, answer);
      EmptyAnswer(v, r.keyId, answer);
      HydrationFinds(v, r.keyId, r.tenant, answer, d, r.blob.key);
      TenantKekServesIff(v, r.tenant, d);
      if r.tenant in v.store.keks {
        CachedKekServes(v, r.tenant, d);
        SameRows(v, r.keyId, v.store.keks[r.tenant].raw, r.blob.key, answer);
      } else if TenantKekFor(v, r.tenant, d).0.Ok? {
        NewKekFinds(v, r, answer, d);
      }
    }
  }

  lemma CachedKekServes(v: Vault, tenant: string, d: Draw)
    requires tenant in v.store.keks
    ensures TenantKekFor(v, tenant, d) == (Ok(v.store.keks[tenant].raw), v)
  {
  }

  lemma SameRows(v: Vault, keyId: string, kek: Key, k: Key, answer: seq<Row>)
    requires VersionsOf(v.rows, keyId, answer) && ParseUuid(keyId) == Some(keyId)
    ensures OpensUnder(v, keyId, kek, k) <==> exists row :: row in answer && UnwrapDek(v.store.root, kek, row) == Some(k)
  {
    hide ParseUuid, UnwrapDek;
    if OpensUnder(v, keyId, kek, k) {
      var row :| row in v.rows && row.id == keyId && UnwrapDek(v.store.root, kek, row) == Some(k);
      assert row in answer;
    }
  }

  lemma NewKekFinds(v: Vault, r: Response, answer: seq<Row>, d: Draw)
    requires Inv(v) && VersionsOf(v.rows, r.keyId, answer) && ParseUuid(r.keyId) == Some(r.keyId) && r.blob.Sealed?
    requires Stored(v.rows, v.rootKey, r.keyId, r.tenant, r.blob.key) && r.tenant !in v.store.keks
    requires KekOf(v.rows, v.rootKey, r.tenant).None? && TenantKekFor(v, r.tenant, d).0.Ok?
    ensures var kek := TenantKekFor(v, r.tenant, d).0.value;
            exists row :: row in answer && UnwrapDek(v.store.root, kek, row) == Some(r.blob.key)
  {
    hide ParseUuid, Insert, KekOf;
    var row := StoredRow(v.rows, v.rootKey, r.keyId, r.tenant, r.blob.key);
    CreatedUnderRoot(v, r.tenant, d);
    assert row in answer && UnwrapDek(v.store.root, TenantKekFor(v, r.tenant, d).0.value, row) == Some(r.blob.key);
  }

  /**
   The read path, exactly. In every state of a prudent run a response reads back, to its plaintext, if and only if its
   key is reached; a reached response answers other tenants and other associated data with an error.
   */
  lemma IssuedReadableIff(v: Vault, r: Response, tenant: string, aad: Aad, answer: seq<Row>, d: Draw)
    requires Inv(v) && r in v.issued && LegalDraw(v, d) && LegalVersions(v, r.keyId, answer) && !Blank(tenant) && r.blob.Sealed?
    ensures var read := DecryptFor(v, tenant, Combined(r.keyId, r.blob), aad, answer, d).0;
            && (read.Ok? <==> Reaches(v, r, d) && tenant == r.tenant && aad == r.q.aad)
            && (read.Ok? ==> read.value == r.q.plain)
            && (Reaches(v, r, d) && tenant != r.tenant ==> read == Err(KeyNotFound))
            && (Reaches(v, r, d) && tenant == r.tenant && aad != r.q.aad ==> read == Err(DecryptionFailed))
  {
    hide CanonicalUuid, ParseUuid, Blank, Inv, LegalVersions, HydrateDek, ParseWire, Decrypt, Combined, Stored, Reaches, LegalDraw;
    IssuedFacts(v, r);
    ParseCombined(tenant, r.keyId, r.blob);
    FindsIff(v, r, answer, d);
    var (cached, x) := EnsureCached(v, r.keyId, answer, d);
    DecryptIff(x.store, tenant, r.keyId, r.blob.key, r.q.plain, r.q.aad, aad);
  }

  /** With the vault open, the stored KEKs in memory and the database answering, everything issued is reached. */
  lemma SyncedReaches(v: Vault, r: Response, d: Draw)
    requires Inv(v) && r in v.issued && r.blob.Sealed? && d.db.query && d.db.kek.Acked?
    requires v.store.root == Some(v.rootKey) && Synced(v.rows, v.rootKey, v.store.keks)
    ensures Reaches(v, r, d)
  {
    hide Inv, KekOf, CanonicalUuid;
    IssuedFacts(v, r);
    if r.tenant in v.store.keks {
      var row := StoredRow(v.rows, v.rootKey, r.keyId, r.tenant, r.blob.key);
      SyncedUnwraps(v.rows, v.rootKey, v.store.keks, row);
      assert row in v.rows && row.id == r.keyId && UnwrapDek(v.store.root, v.store.keks[r.tenant].raw, row) == Some(r.blob.key);
    }
  }

  /**
   Durability. Along every prudent run of encryptions, rotations, key generation, replication, reads, registrations,
   restarts and seal cycles, with any statement failing and any warm load failing, by any tenants: once the process is
   restarted and its keys are loaded, each ciphertext ever issued reads back for its tenant and associated data to
   exactly its plaintext, from the cache or by hydration, and for anyone else to an error.
   */
  lemma CiphertextsSurvive(
    identity: Identity, rootKey: Key, actions: seq<Action>, kekRows: seq<Row>, dekRows: seq<Row>,
    r: Response, tenant: string, aad: Aad, answer: seq<Row>, d: Draw)
    requires PrudentRun(Init(identity, rootKey), actions)
    requires var v := Restarted(Run(Init(identity, rootKey), actions));
             r in v.issued && LegalLoad(v, Some(kekRows), Some(dekRows)) && LoadsWhole(v)
    requires var w := OpenedAndLoaded(Restarted(Run(Init(identity, rootKey), actions)), Some(kekRows), Some(dekRows));
             LegalDraw(w, d) && LegalVersions(w, r.keyId, answer) && d.db.query && d.db.kek.Acked?
    requires !Blank(tenant)
    ensures var w := OpenedAndLoaded(Restarted(Run(Init(identity, rootKey), actions)), Some(kekRows), Some(dekRows));
            DecryptFor(w, tenant, Combined(r.keyId, r.blob), aad, answer, d).0
            == if tenant != r.tenant then Err(KeyNotFound)
               else if aad != r.q.aad then Err(DecryptionFailed)
               else Ok(r.q.plain)
  {
    hide Inv, Legal, Prudent, Step, Run, DecryptFor, LegalVersions, LegalDraw, Blank, LoadsWhole, LegalLoad, Reaches, Combined;
    RunKeeps(identity, rootKey, actions);
    var v := Restarted(Run(Init(identity, rootKey), actions));
    QuietKeeps(Run(Init(identity, rootKey), actions), "");
    RestartReads(v, kekRows, dekRows, r, tenant, aad, answer, d);
  }

  lemma RestartReads(
    v: Vault, kekRows: seq<Row>, dekRows: seq<Row>, r: Response, tenant: string, aad: Aad, answer: seq<Row>, d: Draw)
    requires Inv(v) && r in v.issued && LegalLoad(v, Some(kekRows), Some(dekRows)) && LoadsWhole(v)
    requires var w := OpenedAndLoaded(v, Some(kekRows), Some(dekRows));
             LegalDraw(w, d) && LegalVersions(w, r.keyId, answer) && d.db.query && d.db.kek.Acked?
    requires !Blank(tenant)
    ensures DecryptFor(OpenedAndLoaded(v, Some(kekRows), Some(dekRows)), tenant, Combined(r.keyId, r.blob), aad, answer, d).0
            == if tenant != r.tenant then Err(KeyNotFound)
               else if aad != r.q.aad then Err(DecryptionFailed)
               else Ok(r.q.plain)
  {
    hide Inv, DecryptFor, LegalVersions, LegalDraw, Blank, LoadsWhole, Reaches, Combined, LoadKeks, LoadDeks, Answers, Window;
    var w := OpenedAndLoaded(v, Some(kekRows), Some(dekRows));
    LoadKeeps(v, Some(kekRows), Some(dekRows));
    InvRows(v);
    LoadSyncs(v, kekRows);
    IssuedFacts(w, r);
    SyncedReaches(w, r, d);
    IssuedReadableIff(w, r, tenant, aad, answer, d);
  }

  /**
   After a failed warm load the vault is served on, in the belief that keys are fetched as they are needed. That holds
   for every tenant when the second query failed, for the KEKs are in memory then. When the first one failed it holds
   exactly for tenants that have no KEK in the table: for every other tenant the first read creates a KEK, the table
   refuses it, and the read fails.
   */
  lemma FailedLoadReadsIff(v: Vault, kekRows: Option<seq<Row>>, r: Response, answer: seq<Row>, d: Draw)
    requires Inv(v) && r in v.issued && LegalLoad(v, kekRows, None)
    requires var w := OpenedAndLoaded(Restarted(v), kekRows, None);
             LegalDraw(w, d) && LegalVersions(w, r.keyId, answer) && d.db.query && d.db.kek.Acked?
    ensures var w := OpenedAndLoaded(Restarted(v), kekRows, None);
            DecryptFor(w, r.tenant, Combined(r.keyId, r.blob), r.q.aad, answer, d).0
            == if kekRows.Some? || KekOf(v.rows, v.rootKey, r.tenant).None? then Ok(r.q.plain) else Err(Internal)
  {
    hide Inv, DecryptFor, LegalVersions, LegalDraw, Combined, KekOf;
    if kekRows.Some? {
      SecondQueryFails(v, kekRows.value, r, answer, d);
    } else {
      FirstQueryFails(v, r, answer, d);
    }
  }

  lemma SecondQueryFails(v: Vault, kekRows: seq<Row>, r: Response, answer: seq<Row>, d: Draw)
    requires Inv(v) && r in v.issued && LegalLoad(v, Some(kekRows), None)
    requires var w := OpenedAndLoaded(Restarted(v), Some(kekRows), None);
             LegalDraw(w, d) && LegalVersions(w, r.keyId, answer) && d.db.query && d.db.kek.Acked?
    ensures DecryptFor(OpenedAndLoaded(Restarted(v), Some(kekRows), None), r.tenant, Combined(r.keyId, r.blob), r.q.aad, answer, d).0
            == Ok(r.q.plain)
  {
    hide Inv, DecryptFor, LegalVersions, LegalDraw, Blank, Reaches, Combined, LoadKeks, Answers;
    var w := OpenedAndLoaded(Restarted(v), Some(kekRows), None);
    QuietKeeps(v, "");
    LoadKeeps(Restarted(v), Some(kekRows), None);
    InvRows(v);
    LoadSyncs(Restarted(v), kekRows);
    IssuedFacts(w, r);
    TenantNotBlank(r.tenant);
    SyncedReaches(w, r, d);
    IssuedReadableIff(w, r, r.tenant, r.q.aad, answer, d);
  }

  lemma FirstQueryFails(v: Vault, r: Response, answer: seq<Row>, d: Draw)
    requires Inv(v) && r in v.issued
    requires var w := OpenedAndLoaded(Restarted(v), None, None);
             LegalDraw(w, d) && LegalVersions(w, r.keyId, answer) && d.db.query && d.db.kek.Acked?
    ensures DecryptFor(OpenedAndLoaded(Restarted(v), None, None), r.tenant, Combined(r.keyId, r.blob), r.q.aad, answer, d).0
            == if KekOf(v.rows, v.rootKey, r.tenant).None? then Ok(r.q.plain) else Err(Internal)
  {
    hide Inv, LegalVersions, Blank, Combined, KekOf, CanonicalUuid, ParseUuid, HydrateDek, Decrypt, ParseWire, TenantKekFor;
    var w := OpenedAndLoaded(Restarted(v), None, None);
    QuietKeeps(v, "");
    LoadKeeps(Restarted(v), None, None);
    IssuedFacts(w, r);
    TenantNotBlank(r.tenant);
    IssuedReadableIff(w, r, r.tenant, r.q.aad, answer, d);
    if KekOf(v.rows, v.rootKey, r.tenant).Some? {
      InvRows(w);
      ParseUuidFixes(r.keyId);
      AnswerIsVersions(w, r.keyId, answer);
      EmptyAnswer(w, r.keyId, answer);
      ParseCombined(r.tenant, r.keyId, r.blob);
      TenantKekServesIff(w, r.tenant, d);
      KekErrorIs(w, r.tenant, d);
      HydrationFinds(w, r.keyId, r.tenant, answer, d, r.blob.key);
    }
  }

  lemma KekErrorIs(v: Vault, tenant: string, d: Draw)
    ensures var r := TenantKekFor(v, tenant, d).0; r.Err? ==> r.error == if v.store.root.None? then VaultSealed else Internal
  {
    hide ParseUuid, Insert;
  }
}
