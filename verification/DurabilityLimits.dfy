/**
 Exactly when a key is lost. Each clause of `Prudent` is shown to be needed: what is encrypted without it is gone with
 the process, or can no longer be read in it.
 */
module DurabilityLimits {
  import opened Wrappers
  import opened Envelope
  import opened KeyStore
  import opened KeyTable
  import opened WarmLoad
  import opened Persistence
  import opened PersistenceRuns

  // ---------------------------------------------------------------------
  // A process that starts from the table
  // ---------------------------------------------------------------------

  /** A freshly started process before it is opened. */
  predicate Fresh(v: Vault) { v.store == EmptyStore(None) && v.issued == {} }

  /** Whatever a fresh process holds after its load, the table stores. */
  lemma LoadedIsStored(v: Vault, kekRows: seq<Row>, dekRows: seq<Row>, id: string, k: Key)
    requires Inv(v) && Fresh(v) && LegalLoad(v, Some(kekRows), Some(dekRows))
    requires Holds(OpenedAndLoaded(v, Some(kekRows), Some(dekRows)).store.deks, id, k)
    ensures Stored(v.rows, v.rootKey, id, OpenedAndLoaded(v, Some(kekRows), Some(dekRows)).store.deks[id].tenant, k)
  {
    hide CanonicalUuid, KekOf, KeyOf, LoadKeks, LoadDeks, Answers, Window, Inv;
    var s := OpenedAndLoaded(v, Some(kekRows), Some(dekRows)).store;
    InvRows(v);
    LoadedIs(v, kekRows, dekRows);
    LoadHolds(Some(v.rootKey), s.keks, map[], dekRows, id, k);
    var r :| r in dekRows && r.id == id && UnwrapWith(Some(v.rootKey), s.keks, r) == Some(k);
    LoadOwner(Some(v.rootKey), s.keks, map[], dekRows, id);
    AnswerElements(kekRows, LoadableRows(v.rows, TenantKek));
    LoadKeksFrom(v.rows, v.rootKey, map[], kekRows, r.tenant.value);
    StoredUnwraps(v.rows, v.rootKey, s.keks, r);
    assert StoredIn(v.rows, v.rootKey, id, s.deks[id].tenant, k, r);
  }

  lemma StoredUnwraps(rows: seq<Row>, root: Key, keks: map<string, KekEntry>, r: Row)
    requires r.tenant.Some? && r.tenant.value in keks && KekOf(rows, root, r.tenant.value) == Some(keks[r.tenant.value].raw)
    ensures UnwrapWith(Some(root), keks, r) == KeyOf(rows, root, r)
  {
  }

  /** Nor does hydrating a key find material that the table does not store. */
  lemma HydratedIsStored(v: Vault, kekRows: seq<Row>, dekRows: seq<Row>, keyId: string, tenant: string, answer: seq<Row>, d: Draw, k: Key)
    requires Inv(v) && Fresh(v) && LegalLoad(v, Some(kekRows), Some(dekRows)) && CanonicalUuid(keyId)
    requires var w := OpenedAndLoaded(v, Some(kekRows), Some(dekRows));
             && LegalDraw(w, d) && LegalVersions(w, keyId, answer) && keyId !in w.store.deks
             && HydrateDek(w, keyId, answer, d).0.Ok? && Holds(HydrateDek(w, keyId, answer, d).1.store.deks, keyId, k)
             && HydrateDek(w, keyId, answer, d).1.store.deks[keyId].tenant == tenant
    ensures Stored(v.rows, v.rootKey, keyId, tenant, k)
  {
    hide CanonicalUuid, ParseUuid, KekOf, KeyOf, LoadKeks, LoadDeks, Answers, Window, Inv, Hydrate, TenantKekFor, UnwrapDek;
    var w := OpenedAndLoaded(v, Some(kekRows), Some(dekRows));
    InvRows(v);
    ParseUuidFixes(keyId);
    AnswerIsVersions(w, keyId, answer);
    AnsweredTenant(w, keyId, answer);
    var t := answer[0].tenant.value;
    KekLeavesDeks(w, t, d);
    HydrationFinds(w, keyId, t, answer, d, k);
    var kek := TenantKekFor(w, t, d).0.value;
    var row :| row in answer && UnwrapDek(w.store.root, kek, row) == Some(k);
    LoadedIs(v, kekRows, dekRows);
    KekAtHand(v, w, kekRows, dekRows, t, row, d);
    RowHoldsDek(v, row, w.store.root, kek);
    assert StoredIn(v.rows, v.rootKey, keyId, tenant, k, row);
  }

  lemma RowHoldsDek(v: Vault, row: Row, root: Option<Key>, kek: Key)
    requires RowsOk(v.rows, v.rootKey) && row in v.rows && UnwrapDek(root, kek, row).Some?
    ensures row.purpose == DataEncryption
  {
    hide UnwrapDek, CanonicalUuid;
    assert RowOk(v.rootKey, row);
    if row.purpose == TenantKek { KekRowWontOpen(v.rootKey, root, kek, row); }
  }

  /** The KEK a fresh process unwraps with is the stored one, or a new one that opens nothing of its own. */
  lemma KekAtHand(v: Vault, w: Vault, kekRows: seq<Row>, dekRows: seq<Row>, t: string, row: Row, d: Draw)
    requires Inv(v) && Fresh(v) && LegalLoad(v, Some(kekRows), Some(dekRows)) && w == OpenedAndLoaded(v, Some(kekRows), Some(dekRows))
    requires LegalDraw(w, d) && row in v.rows && row.tenant == Some(t) && TenantKekFor(w, t, d).0.Ok?
    requires w.store.keks == LoadKeks(v.rootKey, map[], kekRows)
    ensures UnwrapDek(w.store.root, TenantKekFor(w, t, d).0.value, row) == KeyOf(v.rows, v.rootKey, row)
  {
    hide CanonicalUuid, ParseUuid, KekOf, LoadKeks, LoadDeks, Answers, Window, Insert, Inv;
    InvRows(v);
    AnswerElements(kekRows, LoadableRows(v.rows, TenantKek));
    if t in w.store.keks {
      LoadKeksFrom(v.rows, v.rootKey, map[], kekRows, t);
    } else {
      LoadSyncs(v, kekRows);
    }
  }

  /**
   What a process that starts from the table, and loads it, reads back of an envelope: its plaintext, exactly when the
   table stores the material that sealed it.
   */
  lemma ReadsBackIff(
    v: Vault, tenant: string, keyId: string, k: Key, plain: Plain, aad: Aad,
    kekRows: seq<Row>, dekRows: seq<Row>, answer: seq<Row>, d: Draw)
    requires Inv(v) && Fresh(v) && LegalLoad(v, Some(kekRows), Some(dekRows)) && CanonicalUuid(keyId) && !Blank(tenant)
    requires LoadsTenant(v, tenant) ==> Unsplit(v.rows, keyId, WARM_LOAD_DEK_LIMIT)
    requires var w := OpenedAndLoaded(v, Some(kekRows), Some(dekRows));
             LegalDraw(w, d) && LegalVersions(w, keyId, answer) && d.db.query && d.db.kek.Acked?
    ensures var w := OpenedAndLoaded(v, Some(kekRows), Some(dekRows));
            DecryptFor(w, tenant, Combined(keyId, Sealed(k, plain, aad)), aad, answer, d).0 == Ok(plain)
            <==> Stored(v.rows, v.rootKey, keyId, tenant, k)
  {
    hide CanonicalUuid, ParseUuid, Blank, Inv, LegalVersions, LegalLoad, LegalDraw, Stored, Unsplit, Combined, DecryptFor, OpenedAndLoaded;
    var r := Response(tenant, keyId, Sealed(k, plain, aad), Request(plain, aad));
    if Stored(v.rows, v.rootKey, keyId, tenant, k) {
      var issued := v.(issued := {r});
      OneIssued(v, r);
      SameLoad(v, {r}, kekRows, dekRows, tenant, keyId, k, plain, aad, answer, d);
      RestartReads(issued, kekRows, dekRows, r, tenant, aad, answer, d);
    } else {
      NotReadBack(v, tenant, keyId, k, plain, aad, kekRows, dekRows, answer, d);
    }
  }

  lemma OneIssued(v: Vault, r: Response)
    requires Inv(v) && Fresh(v) && r.blob.Sealed? && r.blob == Sealed(r.blob.key, r.q.plain, r.q.aad)
    requires Stored(v.rows, v.rootKey, r.keyId, r.tenant, r.blob.key)
    ensures Inv(v.(issued := {r}))
  {
    hide RowsOk, Referenced, EntriesOk, CurrentOk, Stored;
  }

  /** What has been issued plays no part in a load or a read. */
  lemma SameLoad(
    v: Vault, issued: set<Response>, kekRows: seq<Row>, dekRows: seq<Row>,
    tenant: string, keyId: string, k: Key, plain: Plain, aad: Aad, answer: seq<Row>, d: Draw)
    ensures var w, w' := OpenedAndLoaded(v, Some(kekRows), Some(dekRows)), OpenedAndLoaded(v.(issued := issued), Some(kekRows), Some(dekRows));
            var wire := Combined(keyId, Sealed(k, plain, aad));
            && DecryptFor(w, tenant, wire, aad, answer, d).0 == DecryptFor(w', tenant, wire, aad, answer, d).0
            && (LegalDraw(w, d) <==> LegalDraw(w', d)) && (LegalVersions(w, keyId, answer) <==> LegalVersions(w', keyId, answer))
            && (LegalLoad(v, Some(kekRows), Some(dekRows)) <==> LegalLoad(v.(issued := issued), Some(kekRows), Some(dekRows)))
  {
    hide CanonicalUuid, ParseUuid, ParseWire, Decrypt, Hydrate, Insert, LoadKeks, LoadDeks, Answers, Window, Combined;
    var w, w' := OpenedAndLoaded(v, Some(kekRows), Some(dekRows)), OpenedAndLoaded(v.(issued := issued), Some(kekRows), Some(dekRows));
    assert w' == w.(issued := issued);
    forall t ensures TenantKekFor(w', t, d) == (TenantKekFor(w, t, d).0, TenantKekFor(w, t, d).1.(issued := issued)) {
    }
  }

  lemma NotReadBack(
    v: Vault, tenant: string, keyId: string, k: Key, plain: Plain, aad: Aad,
    kekRows: seq<Row>, dekRows: seq<Row>, answer: seq<Row>, d: Draw)
    requires Inv(v) && Fresh(v) && LegalLoad(v, Some(kekRows), Some(dekRows)) && CanonicalUuid(keyId) && !Blank(tenant)
    requires !Stored(v.rows, v.rootKey, keyId, tenant, k)
    requires var w := OpenedAndLoaded(v, Some(kekRows), Some(dekRows)); LegalDraw(w, d) && LegalVersions(w, keyId, answer)
    ensures DecryptFor(OpenedAndLoaded(v, Some(kekRows), Some(dekRows)), tenant, Combined(keyId, Sealed(k, plain, aad)), aad, answer, d).0
            != Ok(plain)
  {
    hide CanonicalUuid, ParseUuid, Blank, Inv, LegalVersions, LegalLoad, LegalDraw, Stored, Combined, OpenedAndLoaded, Decrypt, ParseWire, HydrateDek;
    var w := OpenedAndLoaded(v, Some(kekRows), Some(dekRows));
    ParseCombined(tenant, keyId, Sealed(k, plain, aad));
    var (cached, x) := EnsureCached(w, keyId, answer, d);
    DecryptIff(x.store, tenant, keyId, k, plain, aad, aad);
    if cached.Ok? && Holds(x.store.deks, keyId, k) && x.store.deks[keyId].tenant == tenant {
      if keyId in w.store.deks {
        LoadedIsStored(v, kekRows, dekRows, keyId, k);
      } else {
        HydratedIsStored(v, kekRows, dekRows, keyId, tenant, answer, d, k);
      }
    }
  }

  /** The process that starts from what another leaves in the table. */
  function Successor(v: Vault): Vault { Restarted(v).(issued := {}) }

  lemma SuccessorKeeps(v: Vault)
    requires Inv(v)
    ensures Inv(Successor(v)) && Fresh(Successor(v))
  {
    hide RowsOk, Referenced, EntriesOk, CurrentOk, IssuedOk;
    NothingCached(v);
  }

  lemma NothingCached(v: Vault)
    ensures EntriesOk(v.rows, map[]) && CurrentOk(map[], map[]) && IssuedOk(v.rows, v.rootKey, map[], {})
  {
  }

  // ---------------------------------------------------------------------
  // Keys minted under a KEK that is not saved
  // ---------------------------------------------------------------------

  /** The one row of a new id gives its key back exactly when the KEK that wraps it is the stored one. */
  lemma NewRowStoredIff(rows: seq<Row>, root: Key, row: Row, tenant: string, kek: Key, raw: Key)
    requires row.purpose == DataEncryption && row.tenant == Some(tenant) && forall r | r in rows :: r.id != row.id
    requires row.wrapped == Sealed(kek, RawKey(raw), ReloadAad(row.id))
    ensures Stored(rows + [row], root, row.id, tenant, raw) <==> KekOf(rows, root, tenant) == Some(kek)
  {
    hide KekOf;
    KekOfAppend(rows, root, row, tenant);
    assert row in rows + [row];
    assert forall x | x in rows + [row] && x.id == row.id :: x == row;
    assert Stored(rows + [row], root, row.id, tenant, raw) <==> StoredIn(rows + [row], root, row.id, tenant, raw, row);
  }

  lemma NotYetStored(rows: seq<Row>, root: Key, id: string, t: string, k: Key)
    requires forall r | r in rows :: r.id != id
    ensures !Stored(rows, root, id, t, k)
  {
  }

  /**
   A key minted under a cached KEK can be read back from the table exactly when that KEK is the stored one, the tenant is
   registered and the INSERT is carried out; the caller hears of success whether or not the KEK is.
   */
  lemma MintingDurableIff(v: Vault, tenant: string, d: Draw)
    requires Inv(v) && LegalDraw(v, d) && CanonicalUuid(tenant) && tenant in v.store.keks
    ensures var (r, v') := MintDek(v, tenant, d);
            && GetDek(v'.store, d.keyId, tenant) == Ok(d.dek)
            && (r.Ok? <==> tenant in v.tenants && d.db.dek.Acked?)
            && (Stored(v'.rows, v.rootKey, d.keyId, tenant, d.dek)
                <==> KekSaved(v, tenant) && tenant in v.tenants && !d.db.dek.Unreachable?)
  {
    hide CanonicalUuid, ParseUuid, Inv, KekOf, Stored, Insert;
    ParseUuidFixes(tenant);
    var kek := v.store.keks[tenant].raw;
    var row := DekRow(tenant, d.keyId, 1, Sealed(kek, RawKey(d.dek), ReloadAad(d.keyId)));
    CachedKekServes(v, tenant, d);
    FreshRowInserts(v, row);
    NewRowStoredIff(v.rows, v.rootKey, row, tenant, kek, d.dek);
    NotYetStored(v.rows, v.rootKey, d.keyId, tenant, d.dek);
  }

  // ---------------------------------------------------------------------
  // Encryptions
  // ---------------------------------------------------------------------

  lemma EncryptStoredIff(v: Vault, tenant: string, q: Request, answer: seq<Row>, d: Draw)
    requires Inv(v) && LegalDraw(v, d) && CanonicalUuid(tenant) && EncryptFor(v, tenant, q, answer, d).0.Ok?
    ensures var (r, v') := EncryptFor(v, tenant, q, answer, d);
            && r.value.tenant == tenant && r.value.blob.Sealed? && r.value.blob == Sealed(r.value.blob.key, q.plain, q.aad)
            && CanonicalUuid(r.value.keyId)
            && (Stored(v'.rows, v'.rootKey, r.value.keyId, tenant, r.value.blob.key) <==> EncryptsSaved(v, tenant))
            && Inv(v'.(issued := v.issued))
  {
    hide CanonicalUuid, ParseUuid, Blank, Inv, KekOf, Stored, MintDek, EncryptsSaved, AdoptCurrent, TakeCurrent;
    ParseUuidFixes(tenant);
    PickKeeps(v, tenant, d);
    PickedIdCanonical(v, tenant, d);
    var (picked, w) := PickDek(v, tenant, d);
    assert EncryptFor(v, tenant, q, answer, d).0.value.blob.key == w.store.deks[picked.value].raw;
    if !EncryptsSaved(v, tenant) {
      UnsavedPick(v, tenant, d);
    }
  }

  lemma UnsavedPick(v: Vault, tenant: string, d: Draw)
    requires Inv(v) && LegalDraw(v, d) && CanonicalUuid(tenant) && PickDek(v, tenant, d).0.Ok? && !EncryptsSaved(v, tenant)
    ensures var (r, v') := PickDek(v, tenant, d);
            r.value in v'.store.deks ==> !Stored(v'.rows, v'.rootKey, r.value, tenant, v'.store.deks[r.value].raw)
  {
    hide CanonicalUuid, ParseUuid, Inv, KekOf, Stored, MintDek, KekSaved;
    ParseUuidFixes(tenant);
    if TakeCurrent(v.store, tenant).0.None? {
      MintingDurableIff(v, tenant, d);
      MintKeeps(v, tenant, d);
      AdoptMine(MintDek(v, tenant, d).1.store, tenant, d.keyId);
    }
  }

  /** Key ids handed out for encryption are canonical. */
  lemma PickedIdCanonical(v: Vault, tenant: string, d: Draw)
    requires Inv(v) && LegalDraw(v, d) && CanonicalUuid(tenant) && PickDek(v, tenant, d).0.Ok?
    ensures CanonicalUuid(PickDek(v, tenant, d).0.value)
  {
    hide CanonicalUuid, ParseUuid, RowsOk, EntryOk, IssuedOk, Referenced, MintDek;
    if TakeCurrent(v.store, tenant).0.None? {
      ParseUuidFixes(tenant);
      MintKeeps(v, tenant, d);
      AdoptMine(MintDek(v, tenant, d).1.store, tenant, d.keyId);
    }
  }

  /**
   The guard on encryptions is exact. What an encryption issues reads back, from a process that starts from the table,
   if and only if the key it was about to use was in the table.
   */
  lemma EncryptDurableIff(
    v: Vault, tenant: string, q: Request, none: seq<Row>, d: Draw, kekRows: seq<Row>, dekRows: seq<Row>, answer: seq<Row>, d2: Draw)
    requires Inv(v) && LegalDraw(v, d) && CanonicalUuid(tenant) && EncryptFor(v, tenant, q, none, d).0.Ok?
    requires var (r, v') := EncryptFor(v, tenant, q, none, d);
             var w := OpenedAndLoaded(Successor(v'), Some(kekRows), Some(dekRows));
             && LegalLoad(Successor(v'), Some(kekRows), Some(dekRows)) && Unsplit(v'.rows, r.value.keyId, WARM_LOAD_DEK_LIMIT)
             && LegalDraw(w, d2) && LegalVersions(w, r.value.keyId, answer) && d2.db.query && d2.db.kek.Acked?
    ensures var (r, v') := EncryptFor(v, tenant, q, none, d);
            var w := OpenedAndLoaded(Successor(v'), Some(kekRows), Some(dekRows));
            DecryptFor(w, tenant, Combined(r.value.keyId, r.value.blob), q.aad, answer, d2).0 == Ok(q.plain)
            <==> EncryptsSaved(v, tenant)
  {
    hide CanonicalUuid, ParseUuid, Blank, Inv, LegalVersions, LegalLoad, LegalDraw, Stored, Unsplit, Combined, DecryptFor;
    hide OpenedAndLoaded, EncryptsSaved, EncryptFor;
    var (r, v') := EncryptFor(v, tenant, q, none, d);
    EncryptStoredIff(v, tenant, q, none, d);
    SuccessorKeeps(v'.(issued := v.issued));
    TenantNotBlank(tenant);
    ReadsBackIff(Successor(v'), tenant, r.value.keyId, r.value.blob.key, q.plain, q.aad, kekRows, dekRows, answer, d2);
  }

  /**
   A run that loses data. A tenant that is not registered yet sends a request: it is refused, and the KEK drawn for it
   stays in memory. The tenant is registered and asks again: the request succeeds. What it was given is gone with the
   process.
   */
  lemma UnregisteredTenantLosesWrites(
    v: Vault, tenant: string, q1: Request, q2: Request, none: seq<Row>, d1: Draw, d2: Draw,
    kekRows: seq<Row>, dekRows: seq<Row>, answer: seq<Row>, d3: Draw)
    requires Inv(v) && LegalDraw(v, d1) && v.store.root.Some? && CanonicalUuid(tenant)
    requires tenant !in v.tenants && tenant !in v.store.keks && tenant !in v.store.current
    requires q1.plain != Data("") && q2.plain != Data("")
    requires var v2 := Step(Step(v, Encrypt(tenant, q1, none, d1)), Register(tenant)); LegalDraw(v2, d2) && d2.db.dek.Acked?
    requires var (r, v') := EncryptFor(Step(Step(v, Encrypt(tenant, q1, none, d1)), Register(tenant)), tenant, q2, none, d2);
             var w := OpenedAndLoaded(Successor(v'), Some(kekRows), Some(dekRows));
             r.Ok? ==> && LegalLoad(Successor(v'), Some(kekRows), Some(dekRows)) && Unsplit(v'.rows, r.value.keyId, WARM_LOAD_DEK_LIMIT)
                       && LegalDraw(w, d3) && LegalVersions(w, r.value.keyId, answer) && d3.db.query && d3.db.kek.Acked?
    ensures EncryptFor(v, tenant, q1, none, d1).0 == Err(Internal)
    ensures var (r, v') := EncryptFor(Step(Step(v, Encrypt(tenant, q1, none, d1)), Register(tenant)), tenant, q2, none, d2);
            var w := OpenedAndLoaded(Successor(v'), Some(kekRows), Some(dekRows));
            && r.Ok?
            && DecryptFor(w, tenant, Combined(r.value.keyId, r.value.blob), q2.aad, answer, d3).0 != Ok(q2.plain)
  {
    hide CanonicalUuid, ParseUuid, Blank, Inv, LegalVersions, LegalLoad, LegalDraw, Stored, Unsplit, Combined, DecryptFor, OpenedAndLoaded, KekOf;
    FirstRequestRefused(v, tenant, q1, none, d1);
    var v2 := Step(Step(v, Encrypt(tenant, q1, none, d1)), Register(tenant));
    EncryptServesIff(v2, tenant, q2, none, d2);
    CachedKekServes(v2, tenant, d2);
    EncryptDurableIff(v2, tenant, q2, none, d2, kekRows, dekRows, answer, d3);
  }

  lemma FirstRequestRefused(v: Vault, tenant: string, q: Request, none: seq<Row>, d: Draw)
    requires Inv(v) && LegalDraw(v, d) && v.store.root.Some? && CanonicalUuid(tenant) && q.plain != Data("")
    requires tenant !in v.tenants && tenant !in v.store.keks && tenant !in v.store.current
    ensures EncryptFor(v, tenant, q, none, d).0 == Err(Internal)
    ensures var v2 := Step(Step(v, Encrypt(tenant, q, none, d)), Register(tenant));
            && Inv(v2) && tenant in v2.tenants && v2.store.current == v.store.current
            && tenant in v2.store.keks && KekOf(v2.rows, v2.rootKey, tenant).None?
  {
    hide CanonicalUuid, ParseUuid, Inv, KekOf, Blank, Insert;
    ParseUuidFixes(tenant);
    TenantNotBlank(tenant);
    InvRows(v);
    InvRoot(v);
    KekInsertIff(v, tenant, d.kekRow, Sealed(v.rootKey, RawKey(d.kek), KekAad(tenant)));
    NoRowsUnregistered(v, tenant);
    var v1 := v.(store := CreateKek(v.store, tenant, d.kek).1);
    assert TenantKekFor(v, tenant, d) == (Err(Internal), v1);
    KeksFree(v, v1.store.keks);
    QuietKeeps(v1, tenant);
  }

  lemma NoRowsUnregistered(v: Vault, tenant: string)
    requires Inv(v) && tenant !in v.tenants
    ensures KekOf(v.rows, v.rootKey, tenant).None?
  {
    hide CanonicalUuid, EntriesOk, IssuedOk, CurrentOk;
    assert forall r | r in v.rows :: RowOk(v.rootKey, r);
    KekOfNone(v.rows, v.rootKey, tenant);
  }

  // ---------------------------------------------------------------------
  // Rotations
  // ---------------------------------------------------------------------

  /** The table has room for another version of the key. */
  ghost predicate VersionFits(v: Vault, keyId: string, version: nat) {
    forall r | r in v.rows && r.id == keyId :: v.identity.ByIdVersion? && r.version != version
  }

  /** The row of a rotation against the retired rows of the key. */
  lemma RotationInsertIff(v: Vault, keyId: string, row: Row)
    requires row.id == keyId && row.purpose == DataEncryption && row.tenant.Some?
    ensures var retired := SetState(v.rows, keyId, RotatingOut);
            Insert(v.identity, v.tenants, retired, row)
            == if row.tenant.value in v.tenants && VersionFits(v, keyId, row.version) then Some(retired + [row]) else None
  {
    var retired := SetState(v.rows, keyId, RotatingOut);
    assert forall i | 0 <= i < |v.rows| :: v.rows[i] in v.rows && retired[i].id == v.rows[i].id && retired[i].version == v.rows[i].version;
    if !VersionFits(v, keyId, row.version) {
      var r :| r in v.rows && r.id == keyId && !(v.identity.ByIdVersion? && r.version != row.version);
      var i :| 0 <= i < |v.rows| && v.rows[i] == r;
      assert Clash(v.identity, retired[i], row);
    }
  }

  /** Retiring the old versions stores nothing new. */
  lemma RetiringStoresNothing(rows: seq<Row>, root: Key, id: string, t: string, k: Key)
    ensures Stored(SetState(rows, id, RotatingOut), root, id, t, k) <==> Stored(rows, root, id, t, k)
  {
    hide KekOf;
    var rows' := SetState(rows, id, RotatingOut);
    forall x ensures KekOf(rows', root, x) == KekOf(rows, root, x) { KekOfSetState(rows, root, id, RotatingOut, x); }
    if Stored(rows', root, id, t, k) {
      var r' := StoredRow(rows', root, id, t, k);
      var r := SetStateFrom(rows, id, r');
      assert StoredIn(rows, root, id, t, k, r);
    }
    if Stored(rows, root, id, t, k) {
      var r := StoredRow(rows, root, id, t, k);
      var i :| 0 <= i < |rows| && rows[i] == r;
      assert rows'[i] in rows' && StoredIn(rows', root, id, t, k, rows'[i]);
    }
  }

  /** Nor does a new KEK row: the drawn key wraps no row. */
  lemma NewKekStoresNothing(v: Vault, tenant: string, d: Draw, id: string, k: Key)
    requires RowsOk(v.rows, v.rootKey) && LegalDraw(v, d) && Stored(v.rows + [KekRow(v, tenant, d)], v.rootKey, id, tenant, k)
    ensures Stored(v.rows, v.rootKey, id, tenant, k)
  {
    hide CanonicalUuid, ParseUuid, KekOf;
    var rows' := v.rows + [KekRow(v, tenant, d)];
    var r := StoredRow(rows', v.rootKey, id, tenant, k);
    KekOfAppend(v.rows, v.rootKey, KekRow(v, tenant, d), tenant);
    assert r in v.rows && RowOk(v.rootKey, r);
    assert forall x | x in v.rows :: RowOk(v.rootKey, x);
    KekOfNone(v.rows, v.rootKey, tenant);
    assert StoredIn(v.rows, v.rootKey, id, tenant, k, r);
  }

  /** The new version's row gives its key back exactly when its KEK is the stored one. */
  lemma NewVersionStoredIff(rows: seq<Row>, root: Key, row: Row, tenant: string, kek: Key, raw: Key)
    requires row.purpose == DataEncryption && row.tenant == Some(tenant) && !Stored(rows, root, row.id, tenant, raw)
    requires row.wrapped == Sealed(kek, RawKey(raw), ReloadAad(row.id))
    ensures Stored(rows + [row], root, row.id, tenant, raw) <==> KekOf(rows, root, tenant) == Some(kek)
  {
    hide KekOf;
    KekOfAppend(rows, root, row, tenant);
    assert row in rows + [row];
    if Stored(rows + [row], root, row.id, tenant, raw) {
      var r := StoredRow(rows + [row], root, row.id, tenant, raw);
      assert forall x | x in rows :: !StoredIn(rows, root, row.id, tenant, raw, x);
      assert r == row;
    } else {
      assert !StoredIn(rows + [row], root, row.id, tenant, raw, row);
    }
  }

  lemma SaveRotationIff(v: Vault, tenant: string, keyId: string, version: nat, kek: Key, d: Draw)
    requires CanonicalUuid(keyId) && CanonicalUuid(tenant) && !Stored(v.rows, v.rootKey, keyId, tenant, d.dek)
    ensures var wrapped := Sealed(kek, RawKey(d.dek), ReloadAad(keyId));
            var (r, v') := SaveRotation(v, tenant, keyId, version, wrapped, d);
            var fits := tenant in v.tenants && VersionFits(v, keyId, version) && d.db.update.Acked?;
            && (r.Ok? <==> fits && d.db.dek.Acked?) && v' == v.(rows := v'.rows)
            && (Stored(v'.rows, v.rootKey, keyId, tenant, d.dek)
                <==> fits && !d.db.dek.Unreachable? && KekOf(v.rows, v.rootKey, tenant) == Some(kek))
  {
    hide CanonicalUuid, ParseUuid, KekOf, Stored, Insert, VersionFits, SetState;
    ParseUuidFixes(keyId);
    ParseUuidFixes(tenant);
    var row := DekRow(tenant, keyId, version, Sealed(kek, RawKey(d.dek), ReloadAad(keyId)));
    var retired := SetState(v.rows, keyId, RotatingOut);
    RotationInsertIff(v, keyId, row);
    RetiringStoresNothing(v.rows, v.rootKey, keyId, tenant, d.dek);
    KekOfSetState(v.rows, v.rootKey, keyId, RotatingOut, tenant);
    NewVersionStoredIff(retired, v.rootKey, row, tenant, kek, d.dek);
  }

  /**
   A rotation reaches the table exactly when a further version of the id may live there, its tenant is registered, both
   statements are carried out and the tenant's KEK in memory is the stored one. The new key is what encrypts from then
   on either way. Under the shipped primary key no saved key has room for another version.
   */
  lemma RotationDurableIff(v: Vault, tenant: string, keyId: string, d: Draw)
    requires Inv(v) && LegalDraw(v, d) && CheckOwner(v.store, tenant, keyId).Ok? && CanonicalUuid(keyId) && CanonicalUuid(tenant)
    requires TenantKekFor(v, tenant, d).0.Ok? && !Stored(v.rows, v.rootKey, keyId, tenant, d.dek)
    ensures var (r, v') := RotateFor(v, tenant, keyId, d);
            var fits := tenant in v.tenants && VersionFits(v, keyId, v.store.deks[keyId].version + 1) && d.db.update.Acked?;
            && GetDek(v'.store, keyId, tenant) == Ok(d.dek) && v'.rootKey == v.rootKey
            && (r.Ok? <==> fits && d.db.dek.Acked?)
            && (Stored(v'.rows, v.rootKey, keyId, tenant, d.dek)
                <==> fits && !d.db.dek.Unreachable? && (tenant in v.store.keks ==> KekSaved(v, tenant)))
    ensures v.identity.ById? && (exists x :: x in v.rows && x.id == keyId) ==> !VersionFits(v, keyId, v.store.deks[keyId].version + 1)
  {
    hide CanonicalUuid, ParseUuid, Inv, Grows, KekOf, Stored, SaveRotation, VersionFits, TenantKekFor;
    ParseUuidFixes(tenant);
    TenantKekKeeps(v, tenant, d);
    var (kek, w) := TenantKekFor(v, tenant, d);
    RoomStill(v, w, tenant, keyId, d);
    InvRows(v);
    if w.rows != v.rows && Stored(w.rows, v.rootKey, keyId, tenant, d.dek) {
      NewKekStoresNothing(v, tenant, d, keyId, d.dek);
    }
    var (version, s) := CommitRotation(w.store, keyId, kek.value, d.dek);
    SaveRotationIff(w.(store := s), tenant, keyId, version.value, kek.value, d);
  }

  lemma RoomStill(v: Vault, w: Vault, tenant: string, keyId: string, d: Draw)
    requires keyId in v.store.deks && UnusedId(v, d.kekRow) && CanonicalUuid(keyId) && w.identity == v.identity
    requires w.rows == v.rows || w.rows == v.rows + [KekRow(v, tenant, d)]
    ensures forall n, s :: VersionFits(w.(store := s), keyId, n) <==> VersionFits(v, keyId, n)
    ensures v.identity.ById? && (exists x :: x in v.rows && x.id == keyId) ==> !VersionFits(v, keyId, v.store.deks[keyId].version + 1)
  {
    hide CanonicalUuid, ParseUuid;
    ParseUuidFixes(keyId);
  }

  /**
   Under the shipped primary key, whatever is encrypted after a saved key was rotated reads back until the process ends,
   and is lost to every process that starts from the table.
   */
  lemma RotationLosesLaterWrites(
    v: Vault, tenant: string, keyId: string, d: Draw, plain: Plain, aad: Aad,
    kekRows: seq<Row>, dekRows: seq<Row>, answer: seq<Row>, d2: Draw)
    requires Inv(v) && LegalDraw(v, d) && CheckOwner(v.store, tenant, keyId).Ok? && CanonicalUuid(keyId) && CanonicalUuid(tenant)
    requires TenantKekFor(v, tenant, d).0.Ok? && !Stored(v.rows, v.rootKey, keyId, tenant, d.dek)
    requires v.identity.ById? && exists x :: x in v.rows && x.id == keyId
    requires var v' := RotateFor(v, tenant, keyId, d).1;
             var w := OpenedAndLoaded(Successor(v'), Some(kekRows), Some(dekRows));
             && LegalLoad(Successor(v'), Some(kekRows), Some(dekRows)) && Unsplit(v'.rows, keyId, WARM_LOAD_DEK_LIMIT)
             && LegalDraw(w, d2) && LegalVersions(w, keyId, answer) && d2.db.query && d2.db.kek.Acked?
    ensures var v' := RotateFor(v, tenant, keyId, d).1;
            var wire := Combined(keyId, Sealed(d.dek, plain, aad));
            && Decrypt(v'.store, tenant, wire, aad) == Ok(plain)
            && DecryptFor(OpenedAndLoaded(Successor(v'), Some(kekRows), Some(dekRows)), tenant, wire, aad, answer, d2).0 != Ok(plain)
  {
    hide CanonicalUuid, ParseUuid, Blank, Inv, LegalVersions, LegalLoad, LegalDraw, Stored, Unsplit, Combined, DecryptFor;
    hide OpenedAndLoaded, RotateFor, Decrypt, VersionFits, TenantKekFor, KekOf;
    var v' := RotateFor(v, tenant, keyId, d).1;
    RotationDurableIff(v, tenant, keyId, d);
    RotateKeeps(v, tenant, keyId, d);
    SuccessorKeeps(v');
    TenantNotBlank(tenant);
    DecryptIff(v'.store, tenant, keyId, d.dek, plain, aad, aad);
    ReadsBackIff(Successor(v'), tenant, keyId, d.dek, plain, aad, kekRows, dekRows, answer, d2);
  }

  // ---------------------------------------------------------------------
  // The warm-load window
  // ---------------------------------------------------------------------

  /**
   The warm-load window counts rows. A load into empty caches leaves a key with its whole chain, or uncached and so
   still to be hydrated, exactly when its tenant has no stored KEK, and the load skips its rows, or the window does not
   split them; a split key is served short for good.
   */
  lemma WindowCompleteIff(v: Vault, kekRows: seq<Row>, dekRows: seq<Row>, id: string, tenant: string)
    requires RowsOk(v.rows, v.rootKey) && v.store.keks == map[] && v.store.deks == map[]
    requires LegalLoad(v, Some(kekRows), Some(dekRows))
    requires forall r | r in v.rows && r.id == id ::
               r.purpose == DataEncryption && r.tenant == Some(tenant) && KeyOf(v.rows, v.rootKey, r).Some?
    requires forall a, b | a in v.rows && b in v.rows && a.id == id == b.id && KeyOf(v.rows, v.rootKey, a) == KeyOf(v.rows, v.rootKey, b) :: a == b
    ensures var deks := OpenedAndLoaded(v, Some(kekRows), Some(dekRows)).store.deks;
            (id in deks ==> forall r | r in v.rows && r.id == id :: Holds(deks, id, KeyOf(v.rows, v.rootKey, r).value))
            <==> (LoadsTenant(v, tenant) ==> Unsplit(v.rows, id, WARM_LOAD_DEK_LIMIT))
  {
    hide CanonicalUuid, KekOf, KeyOf, Unsplit, Answers, LoadKeks, LoadDeks, Holds, RowsOk, Window, LoadedDeks;
    LoadedIs(v, kekRows, dekRows);
    if LoadsTenant(v, tenant) {
      LoadedWindowIff(v, kekRows, dekRows, id, tenant);
    } else {
      SkippedKey(v, kekRows, dekRows, id, tenant);
    }
  }

  lemma SkippedKey(v: Vault, kekRows: seq<Row>, dekRows: seq<Row>, id: string, tenant: string)
    requires RowsOk(v.rows, v.rootKey) && LegalLoad(v, Some(kekRows), Some(dekRows)) && v.store.deks == map[]
    requires forall r | r in v.rows && r.id == id :: r.tenant == Some(tenant)
    requires !LoadsTenant(v, tenant)
    ensures id !in OpenedAndLoaded(v, Some(kekRows), Some(dekRows)).store.deks
  {
    hide CanonicalUuid, KekOf, KeyOf, Answers, LoadKeks, LoadDeks, RowsOk, Window, UnwrapDek, LoadsTenant;
    var s := OpenedAndLoaded(v, Some(kekRows), Some(dekRows)).store;
    LoadedIs(v, kekRows, dekRows);
    if id in s.deks {
      LoadOwner(Some(v.rootKey), s.keks, map[], dekRows, id);
      LoadedKekFrom(v, kekRows, tenant);
    }
  }

  lemma LoadedWindowIff(v: Vault, kekRows: seq<Row>, dekRows: seq<Row>, id: string, tenant: string)
    requires RowsOk(v.rows, v.rootKey) && v.store.deks == map[] && LegalLoad(v, Some(kekRows), Some(dekRows))
    requires v.store.keks == map[] && LoadsTenant(v, tenant)
    requires forall r | r in v.rows && r.id == id ::
               r.purpose == DataEncryption && r.tenant == Some(tenant) && KeyOf(v.rows, v.rootKey, r).Some?
    requires forall a, b | a in v.rows && b in v.rows && a.id == id == b.id && KeyOf(v.rows, v.rootKey, a) == KeyOf(v.rows, v.rootKey, b) :: a == b
    ensures var deks := OpenedAndLoaded(v, Some(kekRows), Some(dekRows)).store.deks;
            (id in deks ==> forall r | r in v.rows && r.id == id :: Holds(deks, id, KeyOf(v.rows, v.rootKey, r).value))
            <==> Unsplit(v.rows, id, WARM_LOAD_DEK_LIMIT)
  {
    hide CanonicalUuid, KekOf, KeyOf, Unsplit, Answers, LoadKeks, LoadDeks, Holds, RowsOk, Window, LoadedDeks;
    var s := OpenedAndLoaded(v, Some(kekRows), Some(dekRows)).store;
    LoadedIs(v, kekRows, dekRows);
    forall r | r in v.rows && r.id == id ensures Holds(s.deks, id, KeyOf(v.rows, v.rootKey, r).value) <==> r in dekRows {
      EmptyLoadHolds(v, s.keks, dekRows, s.deks, r);
    }
    EmptyLoadCaches(v, s.keks, dekRows, s.deks, id);
    UnsplitAnswer(v, dekRows, id);
  }

  lemma EmptyLoadHolds(v: Vault, keks: map<string, KekEntry>, answer: seq<Row>, deks: map<string, DekEntry>, r: Row)
    requires LoadedDeks(v, keks, answer, deks) && v.store.deks == map[] && r in v.rows
    requires forall b | b in v.rows && b.id == r.id ::
               && b.purpose == DataEncryption && KeyOf(v.rows, v.rootKey, b).Some? && KekOf(v.rows, v.rootKey, b.tenant.value).Some?
               && (KeyOf(v.rows, v.rootKey, b) == KeyOf(v.rows, v.rootKey, r) ==> b == r)
    ensures Holds(deks, r.id, KeyOf(v.rows, v.rootKey, r).value) <==> r in answer
  {
    hide CanonicalUuid, KekOf, LoadDeks, RowsOk, UnwrapWith;
    LoadHolds(Some(v.rootKey), keks, map[], answer, r.id, KeyOf(v.rows, v.rootKey, r).value);
    SyncedUnwraps(v.rows, v.rootKey, keks, r);
    forall b | b in answer && b.id == r.id ensures UnwrapWith(Some(v.rootKey), keks, b) == KeyOf(v.rows, v.rootKey, b) {
      SyncedUnwraps(v.rows, v.rootKey, keks, b);
    }
  }

  lemma EmptyLoadCaches(v: Vault, keks: map<string, KekEntry>, answer: seq<Row>, deks: map<string, DekEntry>, id: string)
    requires LoadedDeks(v, keks, answer, deks) && v.store.deks == map[]
    requires forall r | r in v.rows && r.id == id ::
               KeyOf(v.rows, v.rootKey, r).Some? && (Holds(deks, id, KeyOf(v.rows, v.rootKey, r).value) <==> r in answer)
    ensures id in deks <==> exists r :: r in answer && r.id == id
  {
    hide CanonicalUuid, KekOf, KeyOf, LoadDeks, RowsOk, UnwrapWith, Synced;
    LoadOwner(Some(v.rootKey), keks, map[], answer, id);
    if r :| r in answer && r.id == id {
      assert Holds(deks, id, KeyOf(v.rows, v.rootKey, r).value);
    }
  }

  lemma UnsplitAnswer(v: Vault, answer: seq<Row>, id: string)
    requires RowsOk(v.rows, v.rootKey) && Answers(answer, Window(v.rows, DataEncryption, WARM_LOAD_DEK_LIMIT))
    requires forall r | r in v.rows && r.id == id :: r.purpose == DataEncryption
    ensures Unsplit(v.rows, id, WARM_LOAD_DEK_LIMIT)
            <==> ((exists x :: x in answer && x.id == id) ==> forall r | r in v.rows && r.id == id :: r in answer)
  {
    hide CanonicalUuid, Answers, Window;
    AnswerElements(answer, Window(v.rows, DataEncryption, WARM_LOAD_DEK_LIMIT));
    var all := LoadableRows(v.rows, DataEncryption);
    forall r | r in v.rows && r.id == id ensures r in all { assert RowOk(v.rootKey, r); }
    forall x | x in answer ensures x in all { WindowElements(v.rows, x); }
  }

  // ---------------------------------------------------------------------
  // Hydration in part
  // ---------------------------------------------------------------------

  /**
   The guard on reads is exact. A hydration leaves a key whole, or uncached, if and only if the KEK at hand opens every
   row that the table can give back, or none; otherwise what it missed cannot be read in this process again.
   */
  lemma HydrationWholeIff(v: Vault, kek: Key, tenant: string, answer: seq<Row>)
    requires forall a, b | a in answer && b in answer && a.wrapped.Sealed? && b.wrapped.Sealed? && a.wrapped.plain == b.wrapped.plain :: a == b
    ensures var e := Hydrate(v.store.root, kek, tenant, answer);
            (e.Some? ==> forall r | r in answer && KeyOf(v.rows, v.rootKey, r).Some? :: InEntry(e.value, KeyOf(v.rows, v.rootKey, r).value))
            <==> OpensWhole(v, kek, answer)
  {
    hide Hydrate, KekOf;
    var e := Hydrate(v.store.root, kek, tenant, answer);
    HydratesSomethingIff(v.store.root, kek, tenant, answer);
    forall r | r in answer && KeyOf(v.rows, v.rootKey, r).Some?
      ensures e.Some? && InEntry(e.value, KeyOf(v.rows, v.rootKey, r).value)
              <==> UnwrapDek(v.store.root, kek, r) == KeyOf(v.rows, v.rootKey, r)
    {
      HydrateHolds(v.store.root, kek, tenant, answer, KeyOf(v.rows, v.rootKey, r).value);
    }
  }

  /** While sealed, that is: under the tenant's stored KEK, no row of the key needs the root key, or every row does. */
  lemma SealedHydrationIff(v: Vault, kek: Key, tenant: string, answer: seq<Row>)
    requires v.store.root.None? && KekOf(v.rows, v.rootKey, tenant) == Some(kek)
    requires forall r | r in answer :: r.tenant == Some(tenant) && KeyOf(v.rows, v.rootKey, r).Some?
    ensures OpensWhole(v, kek, answer)
            <==> || (forall r | r in answer :: OpenKey(kek, r.wrapped, ReloadAad(r.id)).Some?)
                 || (forall r | r in answer :: OpenKey(kek, r.wrapped, ReloadAad(r.id)).None?)
  {
    hide KekOf;
    assert forall r | r in answer :: UnwrapDek(v.store.root, kek, r) == OpenKey(kek, r.wrapped, ReloadAad(r.id));
  }

  // ---------------------------------------------------------------------
  // Misspelled tenants
  // ---------------------------------------------------------------------

  /** The row that a tenant id in another spelling writes: filed under the canonical id, wrapped for the spelling. */
  function MisspelledRow(v: Vault, tenant: string, uuid: string, d: Draw): Row {
    Row(d.kekRow, Some(uuid), 1, TenantKek, Active, Sealed(v.rootKey, RawKey(d.kek), KekAad(tenant)))
  }

  lemma MisspelledRowOpens(v: Vault, tenant: string, uuid: string, d: Draw)
    requires RowsOk(v.rows, v.rootKey) && KekOf(v.rows, v.rootKey, uuid).None? && tenant != uuid
    ensures KekOf(v.rows + [MisspelledRow(v, tenant, uuid, d)], v.rootKey, uuid).None?
  {
    hide CanonicalUuid, KekOf;
    assert forall r | r in v.rows :: RowOk(v.rootKey, r);
    KekOfNone(v.rows, v.rootKey, uuid);
    KekOfAppend(v.rows, v.rootKey, MisspelledRow(v, tenant, uuid, d), uuid);
  }

  lemma NoKekForMisspelling(v: Vault, tenant: string)
    requires RowsOk(v.rows, v.rootKey) && !CanonicalUuid(tenant)
    ensures KekOf(v.rows, v.rootKey, tenant).None?
  {
    hide CanonicalUuid;
    assert forall r | r in v.rows :: RowOk(v.rootKey, r);
    KekOfNone(v.rows, v.rootKey, tenant);
  }

  /**
   A first request that spells its tenant id otherwise than canonically succeeds, and takes the tenant's only KEK slot
   with a row that opens for nobody: neither spelling finds a KEK after a restart, and the canonical one is then
   refused a new one, for reads as for writes. The condition is exact: spelled canonically, the KEK is stored.
   */
  lemma MisspelledTenantLosesSlotIff(v: Vault, tenant: string, uuid: string, d: Draw, d2: Draw)
    requires Inv(v) && LegalDraw(v, d) && v.store.root.Some? && d.db.kek.Acked? && uuid in v.tenants
    requires ParseUuid(tenant) == Some(uuid) && tenant !in v.store.keks && KekOf(v.rows, v.rootKey, uuid).None?
    ensures var (r, v') := TenantKekFor(v, tenant, d);
            && r == Ok(d.kek)
            && (KekOf(v'.rows, v.rootKey, uuid).Some? <==> CanonicalUuid(tenant))
            && (!CanonicalUuid(tenant) ==>
                  && KekOf(v'.rows, v.rootKey, tenant).None?
                  && TenantKekFor(Opened(Restarted(v')), uuid, d2).0 == Err(Internal))
  {
    hide CanonicalUuid, ParseUuid, Inv, KekOf, Insert;
    ParseUuidFixes(tenant);
    ParseUuidFixes(uuid);
    InvRows(v);
    InvRoot(v);
    KekInsertIff(v, uuid, d.kekRow, Sealed(v.rootKey, RawKey(d.kek), KekAad(tenant)));
    var v' := TenantKekFor(v, tenant, d).1;
    assert v'.rows == v.rows + [MisspelledRow(v, tenant, uuid, d)];
    if CanonicalUuid(tenant) {
      KekRowKeeps(v, tenant, d);
    } else {
      MisspelledRowOpens(v, tenant, uuid, d);
      NoKekForMisspelling(v, tenant);
      KekOfAppend(v.rows, v.rootKey, MisspelledRow(v, tenant, uuid, d), tenant);
      SlotRefused(v, v', tenant, uuid, d, d2);
    }
  }

  lemma SlotRefused(v: Vault, v': Vault, tenant: string, uuid: string, d: Draw, d2: Draw)
    requires v'.rows == v.rows + [MisspelledRow(v, tenant, uuid, d)] && v'.rootKey == v.rootKey
    requires v'.identity == v.identity && v'.tenants == v.tenants && ParseUuid(uuid) == Some(uuid)
    ensures TenantKekFor(Opened(Restarted(v')), uuid, d2).0 == Err(Internal)
  {
    hide ParseUuid, Insert;
    SlotTaken(v, tenant, uuid, d, d2);
  }

  lemma SlotTaken(v: Vault, tenant: string, uuid: string, d: Draw, d2: Draw)
    ensures Insert(v.identity, v.tenants, v.rows + [MisspelledRow(v, tenant, uuid, d)],
                   Row(d2.kekRow, Some(uuid), 1, TenantKek, Active, Sealed(v.rootKey, RawKey(d2.kek), KekAad(uuid)))).None?
  {
    assert (v.rows + [MisspelledRow(v, tenant, uuid, d)])[|v.rows|] == MisspelledRow(v, tenant, uuid, d);
  }

  // ---------------------------------------------------------------------
  // While sealed
  // ---------------------------------------------------------------------

  /** No root key at hand, and no KEK that was not there before. */
  ghost predicate Shut(before: Vault, after: Vault) {
    && after.store.root.None?
    && forall t | t in after.store.keks :: t in before.store.keks && after.store.keks[t] == before.store.keks[t]
  }

  lemma SealedKekFor(v: Vault, tenant: string, d: Draw)
    requires v.store.root.None?
    ensures TenantKekFor(v, tenant, d)
            == if tenant in v.store.keks then (Ok(v.store.keks[tenant].raw), v) else (Err(VaultSealed), v)
  {
    hide ParseUuid, Insert;
  }

  lemma SealedMint(v: Vault, tenant: string, d: Draw)
    requires v.store.root.None?
    ensures Shut(v, MintDek(v, tenant, d).1) && Shut(v, PickDek(v, tenant, d).1)
  {
    hide TenantKekFor, ParseUuid, Insert;
    SealedKekFor(v, tenant, d);
  }

  lemma SealedHydrate(v: Vault, keyId: string, answer: seq<Row>, d: Draw)
    requires v.store.root.None?
    ensures Shut(v, HydrateDek(v, keyId, answer, d).1)
  {
    hide TenantKekFor, ParseUuid, Hydrate;
    if answer != [] && answer[0].tenant.Some? { SealedKekFor(v, answer[0].tenant.value, d); }
  }

  lemma SealedRotate(v: Vault, tenant: string, keyId: string, d: Draw)
    requires v.store.root.None?
    ensures Shut(v, RotateFor(v, tenant, keyId, d).1)
  {
    hide TenantKekFor, ParseUuid, Insert, SetState;
    SealedKekFor(v, tenant, d);
  }

  lemma SealedStep(v: Vault, a: Action)
    requires v.store.root.None? && !a.Unseal?
    ensures Shut(v, Step(v, a))
  {
    hide MintDek, PickDek, HydrateDek, RotateFor, ParseWire, Decrypt, GetDek, Blank;
    match a
    case Encrypt(tenant, _, answer, d) =>
      SealedMint(v, tenant, d);
      var (picked, w) := PickDek(v, tenant, d);
      if picked.Ok? { SealedHydrate(w, picked.value, answer, d); }
    case Generate(tenant, d) => SealedMint(v, tenant, d);
    case Rotate(tenant, keyId, d) => SealedRotate(v, tenant, keyId, d);
    case DecryptAny(tenant, wire, _, answer, d) =>
      if ParseWire(tenant, wire).Ok? { SealedHydrate(v, ParseWire(tenant, wire).value.0, answer, d); }
    case _ =>
  }

  /** From a sealing on, and until the vault is opened again, the process has no root key, and no tenant gets a KEK that it
      did not have, whatever is asked. */
  lemma {:induction false} SealedUntilOpened(v: Vault, actions: seq<Action>)
    requires forall a | a in actions :: !a.Unseal?
    ensures Shut(v, Run(Step(v, Seal), actions))
    decreases |actions|
  {
    hide Step;
    if actions == [] {
      SealedNow(v);
    } else {
      var n := |actions| - 1;
      assert actions[n] in actions && forall a | a in actions[..n] :: a in actions;
      SealedUntilOpened(v, actions[..n]);
      SealedStep(Run(Step(v, Seal), actions[..n]), actions[n]);
    }
  }

  lemma SealedNow(v: Vault)
    ensures Shut(v, Step(v, Seal)) && Step(v, Seal).store.keks == v.store.keks
  {
  }
}
