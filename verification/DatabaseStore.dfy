/**
 The key store's public methods with a database behind them, as they run: caches
 first, then the table. Each is proved against its function in `Persistence`.
 */
module DatabaseStore {
  import opened Wrappers
  import opened Envelope
  import opened KeyStore
  import opened KeyTable
  import opened WarmLoad
  import opened Persistence

  /** `system.key_descriptors`, with the tenants its foreign key refers to. `reply` is how each write ends. */
  class KeyDescriptorTable {
    const identity: Identity
    var tenants: set<string>
    var rows: seq<Row>

    constructor (identity: Identity, tenants: set<string>)
      ensures this.identity == identity && this.tenants == tenants && rows == []
    {
      this.identity := identity;
      this.tenants := tenants;
      rows := [];
    }

    method InsertRow(row: Row, reply: Outcome) returns (ok: bool)
      modifies this`rows
      ensures (ok, rows) == Write(reply, old(rows), Insert(identity, tenants, old(rows), row))
      ensures rows == old(rows) || rows == old(rows) + [row]
      ensures rows == old(rows) + [row] <==>
                && reply != Unreachable && (row.tenant.Some? ==> row.tenant.value in tenants)
                && (forall x | x in old(rows) && x.id == row.id :: identity.ByIdVersion? && x.version != row.version)
                && (forall x | x in old(rows) && x.purpose == TenantKek == row.purpose && x.tenant == row.tenant && row.tenant.Some? ::
                      x.version != row.version)
      ensures ok <==> rows == old(rows) + [row] && reply == Acked
    {
      if reply.Unreachable? || (row.tenant.Some? && row.tenant.value !in tenants) {
        return false;
      }
      for i := 0 to |rows|
        invariant rows == old(rows)
        invariant forall j | 0 <= j < i :: !Clash(identity, rows[j], row)
      {
        if Clash(identity, rows[i], row) {
          return false;
        }
      }
      rows := rows + [row];
      ok := reply.Acked?;
    }

    method UpdateState(id: string, state: KeyState, reply: Outcome) returns (ok: bool)
      modifies this`rows
      ensures (ok, rows) == Write(reply, old(rows), Some(SetState(old(rows), id, state)))
      ensures |rows| == |old(rows)| && (ok <==> reply == Acked)
      ensures forall i | 0 <= i < |rows| ::
                rows[i] == if old(rows)[i].id == id && reply != Unreachable then old(rows)[i].(state := state) else old(rows)[i]
    {
      if reply.Unreachable? {
        return false;
      }
      for i := 0 to |rows|
        invariant |rows| == |old(rows)|
        invariant forall j | 0 <= j < i :: rows[j] == SetState(old(rows), id, state)[j]
        invariant forall j | i <= j < |rows| :: rows[j] == old(rows)[j]
      {
        if rows[i].id == id {
          rows := rows[i := rows[i].(state := state)];
        }
      }
      assert rows == SetState(old(rows), id, state);
      ok := reply.Acked?;
    }
  }

  /** The caches and the table as one vault; the rest of `v` is history the methods do not see. */
  ghost function Image(v: Vault, store: KekStore, table: KeyDescriptorTable): Vault
    reads store, table
  {
    v.(identity := table.identity, tenants := table.tenants, rows := table.rows, store := store.View())
  }

  method GetOrCreateTenantKek(store: KekStore, table: KeyDescriptorTable, tenant: string, d: Draw, ghost v: Vault)
    returns (r: Result<Key, Error>)
    requires v == Image(v, store, table)
    modifies store`keks, table`rows
    ensures (r, Image(v, store, table)) == TenantKekFor(v, tenant, d)
    ensures tenant in old(store.keks) ==> r == Ok(old(store.keks)[tenant].raw)
    ensures tenant in old(store.keks) || store.root.None? ==> store.keks == old(store.keks) && table.rows == old(table.rows)
    ensures tenant !in old(store.keks) && store.root.None? ==> r == Err(VaultSealed)
    ensures tenant !in old(store.keks) && store.root.Some? ==>
              && tenant in store.keks && store.keks == old(store.keks)[tenant := store.keks[tenant]] && store.keks[tenant].raw == d.kek
              && OpenKey(store.root.value, store.keks[tenant].wrapped, KekAad(tenant)) == Some(d.kek)
              && (r == Ok(d.kek) || r == Err(Internal))
              && (r.Ok? ==> ParseUuid(tenant).Some?
                            && table.rows == old(table.rows) + [Row(d.kekRow, ParseUuid(tenant), 1, TenantKek, Active, store.keks[tenant].wrapped)])
  {
    if tenant in store.keks {
      return Ok(store.keks[tenant].raw);
    }
    r := store.CreateTenantKek(tenant, d.kek);
    if r.Err? {
      return;
    }
    var uuid := ParseUuid(tenant);
    if uuid.None? {
      return Err(Internal);
    }
    var ok := table.InsertRow(Row(d.kekRow, uuid, 1, TenantKek, Active, store.keks[tenant].wrapped), d.db.kek);
    if !ok {
      r := Err(Internal);
    }
  }

  method GenerateAndStoreDek(store: KekStore, table: KeyDescriptorTable, tenant: string, d: Draw, ghost v: Vault)
    returns (r: Result<string, Error>)
    requires v == Image(v, store, table)
    modifies store`keks, store`deks, table`rows
    ensures (r, Image(v, store, table)) == MintDek(v, tenant, d)
    ensures r.Err? ==> r.error == Internal || (r.error == VaultSealed && store.root.None? && tenant !in old(store.keks))
    ensures r.Ok? ==> d.db.dek == Acked
    ensures r.Ok? ==>
              && r.value == d.keyId && tenant in store.keks && d.keyId in store.deks
              && store.deks == old(store.deks)[d.keyId := store.deks[d.keyId]]
              && store.deks[d.keyId] == DekEntry(d.dek, [], store.deks[d.keyId].wrapped, tenant, 1)
              && OpenKey(store.keks[tenant].raw, store.deks[d.keyId].wrapped, ReloadAad(d.keyId)) == Some(d.dek)
              && |table.rows| > 0
              && table.rows[|table.rows| - 1] == Row(d.keyId, ParseUuid(tenant), 1, DataEncryption, Active, store.deks[d.keyId].wrapped)
  {
    hide ParseUuid, Insert;
    var kek := GetOrCreateTenantKek(store, table, tenant, d, v);
    if kek.Err? {
      return Err(kek.error);
    }
    store.StoreDek(tenant, d.keyId, kek.value, d.dek);
    var uuid := ParseUuid(tenant);
    if uuid.None? {
      return Err(Internal);
    }
    var ok := table.InsertRow(Row(d.keyId, uuid, 1, DataEncryption, Active, store.deks[d.keyId].wrapped), d.db.dek);
    r := if ok then Ok(d.keyId) else Err(Internal);
  }

  method CurrentDekForEncrypt(store: KekStore, table: KeyDescriptorTable, tenant: string, d: Draw, ghost v: Vault)
    returns (r: Result<string, Error>)
    requires v == Image(v, store, table)
    modifies store`keks, store`deks, store`current, table`rows
    ensures (r, Image(v, store, table)) == PickDek(v, tenant, d)
    ensures tenant in old(store.current) && old(store.current)[tenant].operations < 100_000 ==>
              var c := old(store.current)[tenant];
              && r == Ok(c.keyId) && store.current == old(store.current)[tenant := Current(c.keyId, c.operations + 1)]
              && store.keks == old(store.keks) && store.deks == old(store.deks) && table.rows == old(table.rows)
    ensures !(tenant in old(store.current) && old(store.current)[tenant].operations < 100_000) ==>
              if r.Ok? then
                && r.value == d.keyId && store.current == old(store.current)[tenant := Current(d.keyId, 1)]
                && d.keyId in store.deks && store.deks[d.keyId].raw == d.dek && store.deks[d.keyId].tenant == tenant
              else store.current == old(store.current)
  {
    hide MintDek, TakeCurrent, AdoptCurrent;
    var taken := store.TakeCurrentDek(tenant);
    if taken.Some? {
      return Ok(taken.value);
    }
    assert v == Image(v, store, table) by { TakeNothing(v.store, tenant); }
    r := GenerateAndStoreDek(store, table, tenant, d, v);
    if r.Ok? {
      var chosen := store.AdoptCurrentDek(tenant, r.value);
      r := Ok(chosen);
    }
  }

  lemma TakeNothing(s: Store, tenant: string)
    ensures TakeCurrent(s, tenant).0.None? ==> TakeCurrent(s, tenant).1 == s
  {
  }

  method HydrateKey(store: KekStore, table: KeyDescriptorTable, keyId: string, answer: seq<Row>, d: Draw, ghost v: Vault)
    returns (r: Result<bool, Error>)
    requires v == Image(v, store, table)
    modifies store`keks, store`deks, table`rows
    ensures (r, Image(v, store, table)) == HydrateDek(v, keyId, answer, d)
    ensures ParseUuid(keyId).Some? && !d.db.query ==> r == Err(Database)
    ensures ParseUuid(keyId).None? || (d.db.query && (answer == [] || answer[0].tenant.None?)) ==> r == Ok(false)
    ensures ParseUuid(keyId).Some? && d.db.query && answer != [] && answer[0].tenant.Some? ==>
              var tenant := answer[0].tenant.value;
              && (tenant in old(store.keks) ==> r.Ok?) && (r.Ok? ==> tenant in store.keks)
              && (r.Ok? ==> (r.value <==> exists x :: x in answer && UnwrapDek(store.root, store.keks[tenant].raw, x).Some?))
    ensures r != Ok(true) ==> store.deks == old(store.deks)
    ensures r == Ok(true) ==>
              && ParseUuid(keyId).Some? && answer != [] && answer[0].tenant.Some?
              && keyId in store.deks && store.deks == old(store.deks)[keyId := store.deks[keyId]]
              && store.deks[keyId].tenant == answer[0].tenant.value
  {
    hide ParseUuid, TenantKekFor, UnwrapDek, Hydrate;
    if ParseUuid(keyId).None? {
      return Ok(false);
    }
    if !d.db.query {
      return Err(Database);
    }
    if answer == [] || answer[0].tenant.None? {
      return Ok(false);
    }
    var tenant := answer[0].tenant.value;
    var kek := GetOrCreateTenantKek(store, table, tenant, d, v);
    if kek.Err? {
      return Err(kek.error);
    }
    var entry := HydrateRows(store.root, kek.value, tenant, answer);
    HydrateIff(store.root, kek.value, tenant, answer);
    if entry.None? {
      return Ok(false);
    }
    store.deks := store.deks[keyId := entry.value];
    r := Ok(true);
  }

  method RotateDek(store: KekStore, table: KeyDescriptorTable, tenant: string, keyId: string, d: Draw, ghost v: Vault)
    returns (r: Result<nat, Error>)
    requires v == Image(v, store, table)
    modifies store`keks, store`deks, table`rows
    ensures (r, Image(v, store, table)) == RotateFor(v, tenant, keyId, d)
    ensures keyId !in old(store.deks) ==> r == Err(KeyNotFound)
    ensures keyId in old(store.deks) && old(store.deks)[keyId].tenant != tenant ==> r == Err(PermissionDenied)
    ensures keyId !in old(store.deks) || old(store.deks)[keyId].tenant != tenant ==>
              store.keks == old(store.keks) && store.deks == old(store.deks) && table.rows == old(table.rows)
    ensures keyId in old(store.deks) && old(store.deks)[keyId].tenant == tenant && tenant in old(store.keks) ==>
              && keyId in store.deks && store.deks[keyId].raw == d.dek && (r.Err? ==> r.error == Internal)
    ensures r.Ok? ==> d.db.update == Acked && d.db.dek == Acked
    ensures r.Ok? ==>
              && keyId in store.deks && store.deks == old(store.deks)[keyId := store.deks[keyId]]
              && var e, e' := old(store.deks)[keyId], store.deks[keyId];
              && r.value == e.version + 1
              && e' == DekEntry(d.dek, e.superseded + [e.raw], e'.wrapped, tenant, r.value)
              && tenant in store.keks && OpenKey(store.keks[tenant].raw, e'.wrapped, ReloadAad(keyId)) == Some(d.dek)
              && ParseUuid(keyId).Some? && |table.rows| > |old(table.rows)|
              && var id, n := ParseUuid(keyId).value, |table.rows| - 1;
              && table.rows[n] == Row(id, ParseUuid(tenant), r.value, DataEncryption, Active, e'.wrapped)
              && forall i | 0 <= i < n && table.rows[i].id == id :: table.rows[i].state == RotatingOut
  {
    hide ParseUuid, TenantKekFor, Insert, SetState, CommitRotation;
    if keyId !in store.deks {
      return Err(KeyNotFound);
    }
    if store.deks[keyId].tenant != tenant {
      return Err(PermissionDenied);
    }
    var kek := GetOrCreateTenantKek(store, table, tenant, d, v);
    if kek.Err? {
      return Err(kek.error);
    }
    KekLeavesDeks(v, tenant, d);
    RotationKeepsEntry(store.View(), keyId, kek.value, d.dek);
    r := store.RotateDek(keyId, kek.value, d.dek);
    if r.Err? {
      return;
    }
    var key, uuid := ParseUuid(keyId), ParseUuid(tenant);
    if key.None? || uuid.None? {
      return Err(Internal);
    }
    var ok := table.UpdateState(key.value, RotatingOut, d.db.update);
    if !ok {
      return Err(Internal);
    }
    ok := table.InsertRow(Row(key.value, uuid, r.value, DataEncryption, Active, store.deks[keyId].wrapped), d.db.dek);
    if !ok {
      r := Err(Internal);
    }
  }

  lemma RotationKeepsEntry(s: Store, keyId: string, kek: Key, raw: Key)
    ensures keyId in s.deks ==> keyId in CommitRotation(s, keyId, kek, raw).1.deks
  {
  }
}
