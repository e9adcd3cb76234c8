/**
 Restoring keys from the database: the bounded warm load that a start or an unseal
 runs over whatever the caches already hold, and the lazy hydration of one key.
 */
module WarmLoad {
  import opened Wrappers
  import opened Envelope
  import opened KeyStore
  import opened KeyTable

  const WARM_LOAD_DEK_LIMIT: nat := 10_000

  // ---------------------------------------------------------------------
  // Unwrapping rows
  // ---------------------------------------------------------------------

  /** A DEK row opens under the tenant KEK, or under the root key when a peer region replicated it. */
  function UnwrapDek(root: Option<Key>, kek: Key, row: Row): (raw: Option<Key>) {
    var own := OpenKey(kek, row.wrapped, ReloadAad(row.id));
    if own.Some? then own
    else if root.Some? then OpenKey(root.value, row.wrapped, TransportAad(row.id))
    else None
  }

  /** The two envelopes that a row can be read from, and the only ones. */
  lemma UnwrapDekIff(root: Option<Key>, kek: Key, row: Row, raw: Key)
    ensures UnwrapDek(root, kek, row) == Some(raw)
            <==> || row.wrapped == Sealed(kek, RawKey(raw), ReloadAad(row.id))
                 || (root.Some? && row.wrapped == Sealed(root.value, RawKey(raw), TransportAad(row.id)))
  {
  }

  function UnwrapWith(root: Option<Key>, keks: map<string, KekEntry>, row: Row): (raw: Option<Key>) {
    if row.tenant.None? || row.tenant.value !in keks then None
    else UnwrapDek(root, keks[row.tenant.value].raw, row)
  }

  // ---------------------------------------------------------------------
  // Warm load
  // ---------------------------------------------------------------------

  function LoadKek(root: Key, keks: map<string, KekEntry>, row: Row): (r: map<string, KekEntry>) {
    if row.tenant.None? then keks
    else
      var raw := OpenKey(root, row.wrapped, KekAad(row.tenant.value));
      if raw.None? then keks else keks[row.tenant.value := KekEntry(raw.value, row.wrapped, row.version)]
  }

  function LoadKeks(root: Key, keks: map<string, KekEntry>, rows: seq<Row>): (r: map<string, KekEntry>) {
    if rows == [] then keks else LoadKek(root, LoadKeks(root, keks, rows[..|rows| - 1]), rows[|rows| - 1])
  }

  /** A repeated key id demotes the incumbent: rows arrive oldest version first. */
  function LoadDek(root: Option<Key>, keks: map<string, KekEntry>, deks: map<string, DekEntry>, row: Row)
    : (r: map<string, DekEntry>)
  {
    var raw := UnwrapWith(root, keks, row);
    if raw.None? then deks
    else if row.id in deks then deks[row.id := Demote(deks[row.id], raw.value, row.wrapped, row.version)]
    else deks[row.id := DekEntry(raw.value, [], row.wrapped, row.tenant.value, row.version)]
  }

  function LoadDeks(root: Option<Key>, keks: map<string, KekEntry>, deks: map<string, DekEntry>, rows: seq<Row>)
    : (r: map<string, DekEntry>)
  {
    if rows == [] then deks else LoadDek(root, keks, LoadDeks(root, keks, deks, rows[..|rows| - 1]), rows[|rows| - 1])
  }

  /** Either query may fail. When the second does, the KEKs are in and the DEKs are not. */
  function LoadFromDb(s: Store, kekRows: Option<seq<Row>>, dekRows: Option<seq<Row>>): (r: (Result<(), Error>, Store)) {
    if s.root.None? then (Err(VaultSealed), s)
    else if kekRows.None? then (Err(Database), s)
    else
      var keks := LoadKeks(s.root.value, s.keks, kekRows.value);
      if dekRows.None? then (Err(Database), s.(keks := keks))
      else (Ok(()), s.(keks := keks, deks := LoadDeks(s.root, keks, s.deks, dekRows.value)))
  }

  /** The load as the service runs it: two passes over the answered rows, updating the caches row by row. */
  method LoadCaches(store: KekStore, kekRows: Option<seq<Row>>, dekRows: Option<seq<Row>>) returns (r: Result<(), Error>)
    modifies store`keks, store`deks
    ensures (r, store.View()) == LoadFromDb(old(store.View()), kekRows, dekRows)
    ensures r.Ok? <==> store.root.Some? && kekRows.Some? && dekRows.Some?
    ensures r.Err? ==> store.deks == old(store.deks) && r.error == if store.root.None? then VaultSealed else Database
  {
    if store.root.None? {
      return Err(VaultSealed);
    }
    if kekRows.None? {
      return Err(Database);
    }
    LoadKekRows(store, store.root.value, kekRows.value);
    if dekRows.None? {
      return Err(Database);
    }
    LoadDekRows(store, store.root.value, dekRows.value);
    r := Ok(());
  }

  method LoadKekRows(store: KekStore, root: Key, rows: seq<Row>)
    modifies store`keks
    ensures store.keks == LoadKeks(root, old(store.keks), rows)
  {
    for i := 0 to |rows|
      invariant store.keks == LoadKeks(root, old(store.keks), rows[..i])
    {
      assert rows[..i + 1][..i] == rows[..i];
      var row := rows[i];
      if row.tenant.Some? {
        var raw := OpenKey(root, row.wrapped, KekAad(row.tenant.value));
        if raw.Some? {
          store.keks := store.keks[row.tenant.value := KekEntry(raw.value, row.wrapped, row.version)];
        }
      }
    }
    assert rows[..|rows|] == rows;
  }

  method LoadDekRows(store: KekStore, root: Key, rows: seq<Row>)
    modifies store`deks
    ensures store.deks == LoadDeks(Some(root), store.keks, old(store.deks), rows)
  {
    for i := 0 to |rows|
      invariant store.deks == LoadDeks(Some(root), store.keks, old(store.deks), rows[..i])
    {
      assert rows[..i + 1][..i] == rows[..i];
      var row := rows[i];
      if row.tenant.Some? && row.tenant.value in store.keks {
        var raw := OpenKey(store.keks[row.tenant.value].raw, row.wrapped, ReloadAad(row.id));
        if raw.None? {
          raw := OpenKey(root, row.wrapped, TransportAad(row.id));
        }
        if raw.Some? {
          if row.id in store.deks {
            var existing := store.deks[row.id];
            existing := existing.(superseded := existing.superseded + [existing.raw]);
            existing := existing.(raw := raw.value, wrapped := row.wrapped, version := row.version);
            store.deks := store.deks[row.id := existing];
          } else {
            store.deks := store.deks[row.id := DekEntry(raw.value, [], row.wrapped, row.tenant.value, row.version)];
          }
        }
      }
    }
    assert rows[..|rows|] == rows;
  }

  // ---------------------------------------------------------------------
  // Hydration
  // ---------------------------------------------------------------------

  datatype Version = Version(version: nat, raw: Key, wrapped: Blob)

  function Versions(root: Option<Key>, kek: Key, rows: seq<Row>): (r: seq<Version>) {
    if rows == [] then []
    else
      var last := rows[|rows| - 1];
      var raw := UnwrapDek(root, kek, last);
      Versions(root, kek, rows[..|rows| - 1])
      + if raw.Some? then [Version(last.version, raw.value, last.wrapped)] else []
  }

  /** The last version that unwraps is current, the rest are superseded. */
  function HydratedEntry(tenant: string, versions: seq<Version>): (e: DekEntry)
    requires versions != []
  {
    var last := |versions| - 1;
    DekEntry(
      versions[last].raw,
      seq(last, i requires 0 <= i < last => versions[i].raw),
      versions[last].wrapped, tenant, versions[last].version)
  }

  function Hydrate(root: Option<Key>, kek: Key, tenant: string, rows: seq<Row>): (e: Option<DekEntry>) {
    var versions := Versions(root, kek, rows);
    if versions == [] then None else Some(HydratedEntry(tenant, versions))
  }

  /** Rows hydrate to an entry exactly when one of them unwraps. */
  lemma {:induction false} HydrateIff(root: Option<Key>, kek: Key, tenant: string, rows: seq<Row>)
    ensures Hydrate(root, kek, tenant, rows).Some? <==> exists r :: r in rows && UnwrapDek(root, kek, r).Some?
    ensures Hydrate(root, kek, tenant, rows).Some? ==> Hydrate(root, kek, tenant, rows).value.tenant == tenant
  {
    hide UnwrapDek;
    if rows != [] {
      var n := |rows| - 1;
      HydrateIff(root, kek, tenant, rows[..n]);
      assert rows == rows[..n] + [rows[n]];
      assert rows[n] in rows && forall r | r in rows[..n] :: r in rows;
    }
  }

  method HydrateRows(root: Option<Key>, kek: Key, tenant: string, rows: seq<Row>) returns (e: Option<DekEntry>)
    ensures e == Hydrate(root, kek, tenant, rows)
  {
    var versions: seq<Version> := [];
    for i := 0 to |rows|
      invariant versions == Versions(root, kek, rows[..i])
    {
      assert rows[..i + 1][..i] == rows[..i];
      var raw := OpenKey(kek, rows[i].wrapped, ReloadAad(rows[i].id));
      if raw.None? && root.Some? {
        raw := OpenKey(root.value, rows[i].wrapped, TransportAad(rows[i].id));
      }
      if raw.Some? {
        versions := versions + [Version(rows[i].version, raw.value, rows[i].wrapped)];
      }
    }
    assert rows[..|rows|] == rows;
    if versions == [] {
      return None;
    }
    var current := versions[|versions| - 1];
    var superseded: seq<Key> := [];
    for i := 0 to |versions| - 1
      invariant superseded == HydratedEntry(tenant, versions).superseded[..i]
    {
      superseded := superseded + [versions[i].raw];
    }
    assert superseded == HydratedEntry(tenant, versions).superseded;
    e := Some(DekEntry(current.raw, superseded, current.wrapped, tenant, current.version));
  }

  // ---------------------------------------------------------------------
  // What a load does to a chain
  // ---------------------------------------------------------------------

  /** A load adds exactly the keys its rows unwrap to, and removes none. */
  lemma {:induction false} LoadHolds(
    root: Option<Key>, keks: map<string, KekEntry>, deks: map<string, DekEntry>, rows: seq<Row>, id: string, k: Key)
    ensures Holds(LoadDeks(root, keks, deks, rows), id, k)
            <==> Holds(deks, id, k) || exists r :: r in rows && r.id == id && UnwrapWith(root, keks, r) == Some(k)
  {
    if rows != [] {
      var last := rows[|rows| - 1];
      var init := rows[..|rows| - 1];
      assert rows == init + [last];
      LoadHolds(root, keks, deks, init, id, k);
      var before := LoadDeks(root, keks, deks, init);
      var after := LoadDek(root, keks, before, last);
      DemoteHolds(root, keks, before, last, id, k);
    }
  }

  lemma DemoteHolds(
    root: Option<Key>, keks: map<string, KekEntry>, deks: map<string, DekEntry>, row: Row, id: string, k: Key)
    ensures Holds(LoadDek(root, keks, deks, row), id, k)
            <==> Holds(deks, id, k) || (row.id == id && UnwrapWith(root, keks, row) == Some(k))
  {
    if row.id == id && id in deks && UnwrapWith(root, keks, row).Some? {
      var chain := deks[id].superseded + [deks[id].raw];
      assert k in chain <==> k in deks[id].superseded || k == deks[id].raw;
    }
  }

  /** For whom a load leaves a key cached: a cached key keeps its owner whatever its rows say, and a new one is its
      first row's that unwraps. */
  lemma {:induction false} LoadOwner(
    root: Option<Key>, keks: map<string, KekEntry>, deks: map<string, DekEntry>, rows: seq<Row>, id: string)
    ensures var loaded := LoadDeks(root, keks, deks, rows);
            && (id in deks ==> id in loaded && loaded[id].tenant == deks[id].tenant)
            && (id in loaded && id !in deks ==>
                  exists r :: r in rows && r.id == id && UnwrapWith(root, keks, r).Some? && r.tenant == Some(loaded[id].tenant))
  {
    hide UnwrapDek;
    if rows != [] {
      var n := |rows| - 1;
      LoadOwner(root, keks, deks, rows[..n], id);
      var before := LoadDeks(root, keks, deks, rows[..n]);
      if id !in deks && id in before {
        var r :| r in rows[..n] && r.id == id && UnwrapWith(root, keks, r).Some? && r.tenant == Some(before[id].tenant);
        assert r in rows;
      } else if id !in deks {
        assert rows[n] in rows;
      }
    }
  }

  /**
   Loading again over populated caches, as every seal cycle does: when the rows of a key all unwrap and the
   newest comes last, the entry ends on the newest row's material, wrapped form and version, and no key that
   decrypted before stops decrypting.
   */
  lemma {:induction false} ReloadEndsOnNewest(
    root: Option<Key>, keks: map<string, KekEntry>, deks: map<string, DekEntry>, rows: seq<Row>, newest: Row)
    requires newest in rows
    requires forall r | r in rows && r.id == newest.id :: UnwrapWith(root, keks, r).Some?
    requires Ascending(rows)
    requires forall r | r in rows && r.id == newest.id && r != newest :: r.version < newest.version
    ensures var loaded := LoadDeks(root, keks, deks, rows);
            && newest.id in loaded
            && loaded[newest.id].version == newest.version
            && loaded[newest.id].wrapped == newest.wrapped
            && Some(loaded[newest.id].raw) == UnwrapWith(root, keks, newest)
            && forall k | Holds(deks, newest.id, k) :: Holds(loaded, newest.id, k)
  {
    hide Holds, UnwrapWith;
    var n := |rows| - 1;
    var last := rows[n];
    var init := rows[..n];
    var loaded := LoadDeks(root, keks, deks, rows);
    forall k | Holds(deks, newest.id, k) ensures Holds(loaded, newest.id, k) {
      LoadHolds(root, keks, deks, rows, newest.id, k);
    }
    if last != newest {
      var i :| 0 <= i < |rows| && rows[i] == newest;
      assert init[i] == newest;
      ReloadEndsOnNewest(root, keks, deks, init, newest);
      assert last.id != newest.id;
    }
  }

  // ---------------------------------------------------------------------
  // Hydration refines warm load
  // ---------------------------------------------------------------------

  /** The rows of one key, in the order they were answered. */
  function OfKey(rows: seq<Row>, id: string): (r: seq<Row>)
    ensures forall x :: x in r <==> x in rows && x.id == id
  {
    if rows == [] then []
    else
      var last := rows[|rows| - 1];
      assert forall x :: x in rows <==> x in rows[..|rows| - 1] || x == last;
      if last.id == id then OfKey(rows[..|rows| - 1], id) + [last] else OfKey(rows[..|rows| - 1], id)
  }

  /** One more row extends a hydrated entry exactly as it extends a warm-loaded one. */
  lemma HydrateSnoc(root: Option<Key>, kek: Key, tenant: string, rows: seq<Row>, row: Row)
    ensures var before := Hydrate(root, kek, tenant, rows);
            var raw := UnwrapDek(root, kek, row);
            Hydrate(root, kek, tenant, rows + [row])
            == if raw.None? then before
               else if before.None? then Some(DekEntry(raw.value, [], row.wrapped, tenant, row.version))
               else Some(Demote(before.value, raw.value, row.wrapped, row.version))
  {
    assert (rows + [row])[..|rows|] == rows;
    var raw := UnwrapDek(root, kek, row);
    var versions := Versions(root, kek, rows);
    assert versions + [] == versions;
    if raw.Some? && versions == [] {
      var only := [Version(row.version, raw.value, row.wrapped)];
      assert versions + only == only;
      assert HydratedEntry(tenant, only).superseded == [];
    } else if raw.Some? {
      var before := HydratedEntry(tenant, versions);
      var after := HydratedEntry(tenant, versions + [Version(row.version, raw.value, row.wrapped)]);
      assert after.superseded == before.superseded + [before.raw];
    }
  }

  /** From an empty cache, a warm load's entry for a key depends on that key's rows alone, and is what hydrating
      those rows builds: same current, same chain, same metadata, same skipped rows, same root-key fallback. */
  lemma {:induction false} WarmLoadIsHydration(
    root: Option<Key>, keks: map<string, KekEntry>, rows: seq<Row>, id: string, tenant: string)
    requires tenant in keks
    requires forall r | r in rows && r.id == id :: r.tenant == Some(tenant)
    ensures var loaded := LoadDeks(root, keks, map[], rows);
            Hydrate(root, keks[tenant].raw, tenant, OfKey(rows, id)) == if id in loaded then Some(loaded[id]) else None
  {
    hide Hydrate, UnwrapDek;
    if rows == [] {
      HydrateNone(root, keks[tenant].raw, tenant);
    } else {
      var last := rows[|rows| - 1];
      var init := rows[..|rows| - 1];
      assert rows == init + [last];
      WarmLoadIsHydration(root, keks, init, id, tenant);
      HydrateSnoc(root, keks[tenant].raw, tenant, OfKey(init, id), last);
    }
  }

  lemma HydrateNone(root: Option<Key>, kek: Key, tenant: string)
    ensures Hydrate(root, kek, tenant, []).None?
  {
  }

  ghost predicate StrictlyAscending(rows: seq<Row>) {
    forall i, j | 0 <= i < j < |rows| :: rows[i].version < rows[j].version
  }

  lemma EmptyTogether(a: seq<Row>, b: seq<Row>)
    requires forall x :: x in a <==> x in b
    ensures a == [] <==> b == []
  {
    if a != [] { assert a[0] in b; }
    if b != [] { assert b[0] in a; }
  }

  /** The newest row of two orders of the same rows. */
  lemma SameNewest(a: seq<Row>, b: seq<Row>)
    requires StrictlyAscending(a) && StrictlyAscending(b) && a != [] && b != []
    requires forall x :: x in a <==> x in b
    ensures a[|a| - 1] == b[|b| - 1]
  {
    var x, y := a[|a| - 1], b[|b| - 1];
    assert x in b && y in a;
    var i :| 0 <= i < |b| && b[i] == x;
    var j :| 0 <= j < |a| && a[j] == y;
  }

  lemma AllButNewest(a: seq<Row>, r: Row)
    requires StrictlyAscending(a) && a != []
    ensures StrictlyAscending(a[..|a| - 1])
    ensures r in a[..|a| - 1] <==> r in a && r != a[|a| - 1]
  {
    var n := |a| - 1;
    assert a == a[..n] + [a[n]];
  }

  /** Distinct versions leave one ascending order. */
  lemma {:induction false} AscendingUnique(a: seq<Row>, b: seq<Row>)
    requires StrictlyAscending(a) && StrictlyAscending(b)
    requires forall x :: x in a <==> x in b
    ensures a == b
  {
    hide StrictlyAscending;
    EmptyTogether(a, b);
    if a != [] && b != [] {
      var m, n := |a| - 1, |b| - 1;
      SameNewest(a, b);
      forall r ensures r in a[..m] <==> r in b[..n] {
        AllButNewest(a, r);
        AllButNewest(b, r);
      }
      AllButNewest(a, a[m]);
      AllButNewest(b, b[n]);
      AscendingUnique(a[..m], b[..n]);
      assert a == a[..m] + [a[m]] && b == b[..n] + [b[n]];
    }
  }

  /**
   Hydration refines warm load. When the warm answer holds every version of a key, the version query's own
   answer hydrates to exactly the entry the warm load builds from an empty cache.
   */
  lemma HydrationRefinesWarmLoad(
    root: Option<Key>, keks: map<string, KekEntry>, warm: seq<Row>, versions: seq<Row>, id: string, tenant: string)
    requires tenant in keks
    requires forall r :: r in versions <==> r in warm && r.id == id
    requires forall r | r in versions :: r.tenant == Some(tenant)
    requires StrictlyAscending(versions) && StrictlyAscending(OfKey(warm, id))
    ensures var loaded := LoadDeks(root, keks, map[], warm);
            Hydrate(root, keks[tenant].raw, tenant, versions) == if id in loaded then Some(loaded[id]) else None
  {
    AscendingUnique(versions, OfKey(warm, id));
    WarmLoadIsHydration(root, keks, warm, id, tenant);
  }
}
