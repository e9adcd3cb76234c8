/**
 The key store backed by the database. Each public method runs to completion, and
 writes memory before it writes the table: when an INSERT is refused or fails, the
 caller is told so but the caches keep what was put there.
 */
module Persistence {
  import opened Wrappers
  import opened Envelope
  import opened KeyStore
  import opened KeyTable
  import opened WarmLoad

  /** `rootKey` is the key the seal guards; `store.root` is whether the process may use it now. */
  datatype Vault = Vault(
    identity: Identity, rootKey: Key, tenants: set<string>, rows: seq<Row>, store: Store, issued: set<Response>)

  /** What the database does with the statements one request may send: its query, its KEK row, its UPDATE, its DEK row. */
  datatype Replies = Replies(query: bool, kek: Outcome, update: Outcome, dek: Outcome)

  /** What one request meets: the random values it may draw, a KEK and its row id, a DEK and its key id, and the replies. */
  datatype Draw = Draw(kek: Key, kekRow: string, dek: Key, keyId: string, db: Replies)

  // ---------------------------------------------------------------------
  // The public methods
  // ---------------------------------------------------------------------

  /** `get_or_create_tenant_kek`: memory is consulted, the table never is. */
  function TenantKekFor(v: Vault, tenant: string, d: Draw): (r: (Result<Key, Error>, Vault)) {
    var (kek, s) := CreateKek(v.store, tenant, d.kek);
    if tenant in v.store.keks || kek.Err? then (kek, v)
    else
      var cached := v.(store := s);
      var uuid := ParseUuid(tenant);
      if uuid.None? then (Err(Internal), cached)
      else
        var row := Row(d.kekRow, uuid, 1, TenantKek, Active, s.keks[tenant].wrapped);
        var (ok, rows) := Write(d.db.kek, v.rows, Insert(v.identity, v.tenants, v.rows, row));
        (if ok then kek else Err(Internal), cached.(rows := rows))
  }

  lemma KekLeavesDeks(v: Vault, tenant: string, d: Draw)
    ensures var w := TenantKekFor(v, tenant, d).1;
            w.store.deks == v.store.deks && w.store.root == v.store.root && w.rootKey == v.rootKey
  {
    hide ParseUuid, Insert;
  }

  /** `generate_and_store_dek`. */
  function MintDek(v: Vault, tenant: string, d: Draw): (r: (Result<string, Error>, Vault)) {
    var (kek, w) := TenantKekFor(v, tenant, d);
    if kek.Err? then (Err(kek.error), w)
    else
      var entry := NewDek(d.keyId, tenant, kek.value, d.dek);
      var cached := w.(store := InsertDek(w.store, d.keyId, entry));
      var uuid := ParseUuid(tenant);
      if uuid.None? then (Err(Internal), cached)
      else
        var row := Row(d.keyId, uuid, 1, DataEncryption, Active, entry.wrapped);
        var (ok, rows) := Write(d.db.dek, w.rows, Insert(w.identity, w.tenants, w.rows, row));
        (if ok then Ok(d.keyId) else Err(Internal), cached.(rows := rows))
  }

  /** `current_dek_for_encrypt`. */
  function PickDek(v: Vault, tenant: string, d: Draw): (r: (Result<string, Error>, Vault)) {
    var (taken, s) := TakeCurrent(v.store, tenant);
    if taken.Some? then (Ok(taken.value), v.(store := s))
    else
      var (minted, w) := MintDek(v, tenant, d);
      if minted.Err? then (minted, w)
      else
        var (chosen, s) := AdoptCurrent(w.store, tenant, minted.value);
        (Ok(chosen), w.(store := s))
  }

  /** `hydrate_dek`, given the answer to its version query. */
  function HydrateDek(v: Vault, keyId: string, answer: seq<Row>, d: Draw): (r: (Result<bool, Error>, Vault)) {
    if ParseUuid(keyId).None? then (Ok(false), v)
    else if !d.db.query then (Err(Database), v)
    else if answer == [] || answer[0].tenant.None? then (Ok(false), v)
    else
      var tenant := answer[0].tenant.value;
      var (kek, w) := TenantKekFor(v, tenant, d);
      if kek.Err? then (Err(kek.error), w)
      else
        var entry := Hydrate(w.store.root, kek.value, tenant, answer);
        if entry.None? then (Ok(false), w)
        else (Ok(true), w.(store := InsertDek(w.store, keyId, entry.value)))
  }

  /** The preamble of `get_dek` and `get_dek_chain`: hydrate a key that is not cached. */
  function EnsureCached(v: Vault, keyId: string, answer: seq<Row>, d: Draw): (r: (Result<bool, Error>, Vault)) {
    if keyId in v.store.deks then (Ok(true), v) else HydrateDek(v, keyId, answer, d)
  }

  function EncryptFor(v: Vault, tenant: string, q: Request, answer: seq<Row>, d: Draw)
    : (r: (Result<Response, Error>, Vault))
  {
    if Blank(tenant) || q.plain == Data("") then (Err(InvalidArgument), v)
    else
      var (picked, w) := PickDek(v, tenant, d);
      if picked.Err? then (Err(picked.error), w)
      else
        var (cached, x) := EnsureCached(w, picked.value, answer, d);
        if cached.Err? then (Err(cached.error), x)
        else
          var dek := GetDek(x.store, picked.value, tenant);
          if dek.Err? then (Err(dek.error), x)
          else
            var response := Response(tenant, picked.value, Sealed(dek.value, q.plain, q.aad), q);
            (Ok(response), x.(issued := x.issued + {response}))
  }

  function DecryptFor(v: Vault, tenant: string, wire: Text, aad: Aad, answer: seq<Row>, d: Draw)
    : (r: (Result<Plain, Error>, Vault))
  {
    var parsed := ParseWire(tenant, wire);
    if parsed.Err? then (Err(parsed.error), v)
    else
      var (cached, w) := EnsureCached(v, parsed.value.0, answer, d);
      if cached.Err? then (Err(cached.error), w)
      else (Decrypt(w.store, tenant, wire, aad), w)
  }

  /** `rotate_dek`: the old rows turn `rotating_out`, then the new version is inserted under the same id. */
  function RotateFor(v: Vault, tenant: string, keyId: string, d: Draw): (r: (Result<nat, Error>, Vault)) {
    var owner := CheckOwner(v.store, tenant, keyId);
    if owner.Err? then (Err(owner.error), v)
    else
      var (kek, w) := TenantKekFor(v, tenant, d);
      if kek.Err? then (Err(kek.error), w)
      else
        var (version, s) := CommitRotation(w.store, keyId, kek.value, d.dek);
        var cached := w.(store := s);
        if version.Err? then (version, cached) else SaveRotation(cached, tenant, keyId, version.value, s.deks[keyId].wrapped, d)
  }

  /** The database half of a rotation. */
  function SaveRotation(v: Vault, tenant: string, keyId: string, version: nat, wrapped: Blob, d: Draw)
    : (r: (Result<nat, Error>, Vault))
  {
    var key, uuid := ParseUuid(keyId), ParseUuid(tenant);
    if key.None? || uuid.None? then (Err(Internal), v)
    else
      var (updated, retired) := Write(d.db.update, v.rows, Some(SetState(v.rows, key.value, RotatingOut)));
      if !updated then (Err(Internal), v.(rows := retired))
      else
        var row := Row(key.value, uuid, version, DataEncryption, Active, wrapped);
        var (ok, rows) := Write(d.db.dek, retired, Insert(v.identity, v.tenants, retired, row));
        (if ok then Ok(version) else Err(Internal), v.(rows := rows))
  }

  // ---------------------------------------------------------------------
  // The world around them
  // ---------------------------------------------------------------------

  /** A peer region's DEK arrives wrapped under the shared root key; a known id is left alone. */
  function Replicated(v: Vault, tenant: string, keyId: string, raw: Key, q: Request, reply: Outcome): (r: Vault) {
    var row := Row(keyId, Some(tenant), 1, DataEncryption, Active, Sealed(v.rootKey, RawKey(raw), TransportAad(keyId)));
    if reply.Unreachable? || tenant !in v.tenants || exists i | 0 <= i < |v.rows| :: v.rows[i].id == keyId then v
    else v.(rows := v.rows + [row], issued := v.issued + {Response(tenant, keyId, Sealed(raw, q.plain, q.aad), q)})
  }

  /** Removing a tenant is refused while key rows refer to it. */
  function Unregistered(v: Vault, tenant: string): (r: Vault) {
    if exists i | 0 <= i < |v.rows| :: v.rows[i].tenant == Some(tenant) then v else v.(tenants := v.tenants - {tenant})
  }

  function Restarted(v: Vault): (r: Vault) { v.(store := EmptyStore(None)) }

  function Opened(v: Vault): (r: Vault) { v.(store := v.store.(root := Some(v.rootKey))) }

  /** Unsealing opens the root key and warm-loads over whatever is cached. A load that fails is reported and served on. */
  function OpenedAndLoaded(v: Vault, kekRows: Option<seq<Row>>, dekRows: Option<seq<Row>>): (r: Vault) {
    var w := Opened(v);
    w.(store := LoadFromDb(w.store, kekRows, dekRows).1)
  }

  datatype Action =
    | Encrypt(tenant: string, q: Request, answer: seq<Row>, d: Draw)
    | Generate(tenant: string, d: Draw)
    | Rotate(tenant: string, keyId: string, d: Draw)
    | DecryptAny(tenant: string, wire: Text, aad: Aad, answer: seq<Row>, d: Draw)
    | Replicate(tenant: string, keyId: string, raw: Key, q: Request, reply: Outcome)
    | Register(tenant: string)
    | Unregister(tenant: string)
    | Restart
    | Seal
    | Unseal(kekRows: Option<seq<Row>>, dekRows: Option<seq<Row>>)

  function Step(v: Vault, a: Action): Vault {
    match a
    case Encrypt(tenant, q, answer, d) => EncryptFor(v, tenant, q, answer, d).1
    case Generate(tenant, d) => MintDek(v, tenant, d).1
    case Rotate(tenant, keyId, d) => RotateFor(v, tenant, keyId, d).1
    case DecryptAny(tenant, wire, aad, answer, d) => DecryptFor(v, tenant, wire, aad, answer, d).1
    case Replicate(tenant, keyId, raw, q, reply) => Replicated(v, tenant, keyId, raw, q, reply)
    case Register(tenant) => v.(tenants := v.tenants + {tenant})
    case Unregister(tenant) => Unregistered(v, tenant)
    case Restart => Restarted(v)
    case Seal => v.(store := v.store.(root := None))
    case Unseal(kekRows, dekRows) => OpenedAndLoaded(v, kekRows, dekRows)
  }

  function Run(v: Vault, actions: seq<Action>): Vault {
    if actions == [] then v else Step(Run(v, actions[..|actions| - 1]), actions[|actions| - 1])
  }

  function Init(identity: Identity, rootKey: Key): Vault { Vault(identity, rootKey, {}, [], EmptyStore(None), {}) }

  // ---------------------------------------------------------------------
  // What can happen
  // ---------------------------------------------------------------------

  /** A UUID that is in use nowhere, in any spelling. */
  ghost predicate UnusedId(v: Vault, id: string) {
    && CanonicalUuid(id)
    && (forall k | k in v.store.deks :: ParseUuid(k) != Some(id))
    && (forall r | r in v.rows :: r.id != id)
  }

  /** Random values repeat nothing: neither the ids nor a key that already wraps a row. */
  ghost predicate LegalDraw(v: Vault, d: Draw) {
    && UnusedId(v, d.kekRow) && UnusedId(v, d.keyId) && d.kekRow != d.keyId
    && (forall r | r in v.rows && r.wrapped.Sealed? :: r.wrapped.key != d.kek)
    && d.kek != v.rootKey
  }

  /** Answers are what the database can return for the query in hand. */
  ghost predicate LegalVersions(v: Vault, keyId: string, answer: seq<Row>) {
    ParseUuid(keyId).Some? ==> Answers(answer, LoadableVersions(v.rows, ParseUuid(keyId).value))
  }

  ghost predicate LegalLoad(v: Vault, kekRows: Option<seq<Row>>, dekRows: Option<seq<Row>>) {
    && (kekRows.Some? ==> Answers(kekRows.value, LoadableRows(v.rows, TenantKek)))
    && (dekRows.Some? ==> Answers(dekRows.value, Window(v.rows, DataEncryption, WARM_LOAD_DEK_LIMIT)))
  }

  ghost predicate Legal(v: Vault, a: Action) {
    match a
    case Encrypt(_, _, _, d) => LegalDraw(v, d)
    case Generate(_, d) => LegalDraw(v, d)
    case Rotate(_, _, d) => LegalDraw(v, d)
    case DecryptAny(tenant, wire, _, answer, d) =>
      LegalDraw(v, d)
      && (ParseWire(tenant, wire).Ok? ==> LegalVersions(v, ParseWire(tenant, wire).value.0, answer))
    case Replicate(tenant, keyId, _, _, _) =>
      CanonicalUuid(tenant) && (UnusedId(v, keyId) || exists r :: r in v.rows && r.id == keyId)
    case Unseal(kekRows, dekRows) => LegalLoad(v, kekRows, dekRows)
    case _ => true
  }

  // ---------------------------------------------------------------------
  // What the table alone can give back
  // ---------------------------------------------------------------------

  /** The KEK a tenant's row unwraps to. */
  function KekOf(rows: seq<Row>, root: Key, tenant: string): (kek: Option<Key>) {
    if rows == [] then None
    else if rows[0].purpose == TenantKek && rows[0].tenant == Some(tenant) then
      OpenKey(root, rows[0].wrapped, KekAad(tenant))
    else
      KekOf(rows[1..], root, tenant)
  }

  /** The DEK a row unwraps to, using nothing but the root key and the table. */
  function KeyOf(rows: seq<Row>, root: Key, r: Row): (key: Option<Key>) {
    if r.tenant.None? then None
    else
      var kek := KekOf(rows, root, r.tenant.value);
      if kek.Some? then UnwrapDek(Some(root), kek.value, r)
      else OpenKey(root, r.wrapped, TransportAad(r.id))
  }

  predicate StoredIn(rows: seq<Row>, root: Key, id: string, tenant: string, k: Key, r: Row) {
    r.id == id && r.purpose == DataEncryption && r.tenant == Some(tenant) && KeyOf(rows, root, r) == Some(k)
  }

  /** Some row of the key gives this material back. */
  ghost predicate Stored(rows: seq<Row>, root: Key, id: string, tenant: string, k: Key) {
    exists r :: r in rows && StoredIn(rows, root, id, tenant, k, r)
  }

  // ---------------------------------------------------------------------
  // What can be checked before a step
  // ---------------------------------------------------------------------

  /** A text that names a tenant to the database names it as the database does. */
  predicate WellSpelled(tenant: string) { ParseUuid(tenant).Some? ==> CanonicalUuid(tenant) }

  /** The KEK in memory is the tenant's own in the table. */
  predicate KekSaved(v: Vault, tenant: string) {
    FindKek(v.store, tenant) == KekOf(v.rows, v.rootKey, tenant)
  }

  /**
   The key an encryption is about to use is in the table: the current one, when it has budget left, or else the one it
   mints, for which a KEK that is already in memory has to be the stored one.
   */
  ghost predicate EncryptsSaved(v: Vault, tenant: string) {
    var taken := TakeCurrent(v.store, tenant).0;
    if taken.Some? then
      taken.value in v.store.deks ==> Stored(v.rows, v.rootKey, taken.value, tenant, v.store.deks[taken.value].raw)
    else
      ParseUuid(tenant).Some? && tenant in v.store.keks ==> KekSaved(v, tenant)
  }

  /** A hydration under a KEK in memory opens every row that the table can give back, or no row at all. */
  ghost predicate HydratesWhole(v: Vault, answer: seq<Row>) {
    answer != [] && answer[0].tenant.Some? && answer[0].tenant.value in v.store.keks ==>
      OpensWhole(v, v.store.keks[answer[0].tenant.value].raw, answer)
  }

  ghost predicate OpensWhole(v: Vault, kek: Key, answer: seq<Row>) {
    || (forall r | r in answer && KeyOf(v.rows, v.rootKey, r).Some? :: UnwrapDek(v.store.root, kek, r) == KeyOf(v.rows, v.rootKey, r))
    || (forall r | r in answer :: UnwrapDek(v.store.root, kek, r).None?)
  }

  /** A load takes in the rows of tenants whose KEK is cached or stored, and skips the others. */
  predicate LoadsTenant(v: Vault, tenant: string) {
    tenant in v.store.keks || KekOf(v.rows, v.rootKey, tenant).Some?
  }

  /** No issued key that a load would add to the cache straddles its window. */
  ghost predicate LoadsWhole(v: Vault) {
    forall r | r in v.issued && r.keyId !in v.store.deks && LoadsTenant(v, r.tenant) ::
      Unsplit(v.rows, r.keyId, WARM_LOAD_DEK_LIMIT)
  }

  /**
   The care that durability needs, and no more: tenants are not misspelled, nothing is encrypted under a key that is not
   in the table, no key is hydrated in part, and none that was used is loaded in part.
   */
  ghost predicate Prudent(v: Vault, a: Action) {
    match a
    case Encrypt(tenant, _, _, _) => WellSpelled(tenant) && EncryptsSaved(v, tenant)
    case Generate(tenant, _) => WellSpelled(tenant)
    case DecryptAny(tenant, wire, _, answer, d) =>
      var parsed := ParseWire(tenant, wire);
      parsed.Ok? && parsed.value.0 !in v.store.deks && ParseUuid(parsed.value.0).Some? && d.db.query ==>
        HydratesWhole(v, answer)
    case Unseal(kekRows, dekRows) =>
      kekRows.Some? && dekRows.Some? ==> LoadsWhole(v)
    case _ => true
  }

  ghost predicate PrudentRun(v: Vault, actions: seq<Action>) {
    forall i | 0 <= i < |actions| ::
      Legal(Run(v, actions[..i]), actions[i]) && Prudent(Run(v, actions[..i]), actions[i])
  }
}
