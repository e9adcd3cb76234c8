/**
 The crypto-service key store: tenant KEKs, versioned DEKs and each tenant's
 current DEK, all held in memory behind read/write locks.

 `Store` is the value of those maps. Every function over it is one lock section of
 the service; the class `KekStore` below carries the same sections out in place and
 is proved against them.
 */
module KeyStore {
  import opened Wrappers
  import opened Envelope

  datatype Error =
    InvalidArgument | KeyNotFound | PermissionDenied | DecryptionFailed | VaultSealed | Internal | Database

  /** Encryptions one DEK serves before it is rolled. */
  const DEK_MAX_OPERATIONS: nat := 100_000

  datatype KekEntry = KekEntry(raw: Key, wrapped: Blob, version: nat)

  /** `superseded` holds the material of earlier versions, oldest first. */
  datatype DekEntry = DekEntry(raw: Key, superseded: seq<Key>, wrapped: Blob, tenant: string, version: nat)

  datatype Current = Current(keyId: string, operations: nat)

  /** `root` is what the seal answers: the root key, or nothing while sealed. */
  datatype Store = Store(
    root: Option<Key>,
    keks: map<string, KekEntry>,
    deks: map<string, DekEntry>,
    current: map<string, Current>)

  datatype Request = Request(plain: Plain, aad: Aad)

  /** A response handed to a caller of encrypt, with the request it answers. */
  datatype Response = Response(tenant: string, keyId: string, blob: Blob, q: Request)

  function EmptyStore(root: Option<Key>): Store { Store(root, map[], map[], map[]) }

  // ---------------------------------------------------------------------
  // Tenant KEKs
  // ---------------------------------------------------------------------

  function FindKek(s: Store, tenant: string): (kek: Option<Key>) {
    if tenant in s.keks then Some(s.keks[tenant].raw) else None
  }

  /** The slow path under the write lock: re-check, then wrap `minted` under the root key. */
  function CreateKek(s: Store, tenant: string, minted: Key): (r: (Result<Key, Error>, Store)) {
    if tenant in s.keks then
      (Ok(s.keks[tenant].raw), s)
    else if s.root.None? then
      (Err(VaultSealed), s)
    else
      var entry := KekEntry(minted, Sealed(s.root.value, RawKey(minted), KekAad(tenant)), 1);
      (Ok(minted), s.(keks := s.keks[tenant := entry]))
  }

  // ---------------------------------------------------------------------
  // DEKs
  // ---------------------------------------------------------------------

  function NewDek(keyId: string, tenant: string, kek: Key, raw: Key): (e: DekEntry) {
    DekEntry(raw, [], Sealed(kek, RawKey(raw), ReloadAad(keyId)), tenant, 1)
  }

  function InsertDek(s: Store, keyId: string, entry: DekEntry): (s': Store) {
    s.(deks := s.deks[keyId := entry])
  }

  /** A newer version takes the active slot and the incumbent joins the chain. */
  function Demote(e: DekEntry, raw: Key, wrapped: Blob, version: nat): (e': DekEntry) {
    e.(raw := raw, superseded := e.superseded + [e.raw], wrapped := wrapped, version := version)
  }

  function GetDek(s: Store, keyId: string, tenant: string): (r: Result<Key, Error>) {
    if keyId !in s.deks || s.deks[keyId].tenant != tenant then Err(KeyNotFound)
    else Ok(s.deks[keyId].raw)
  }

  function Reversed<T>(s: seq<T>): (r: seq<T>)
    ensures |r| == |s|
    ensures forall i | 0 <= i < |s| :: r[i] == s[|s| - 1 - i]
  {
    seq(|s|, i requires 0 <= i < |s| => s[|s| - 1 - i])
  }

  /** Every key this entry decrypts with, newest first. */
  function Chain(e: DekEntry): (keys: seq<Key>) {
    [e.raw] + Reversed(e.superseded)
  }

  function GetDekChain(s: Store, keyId: string, tenant: string): (r: Result<seq<Key>, Error>) {
    if keyId !in s.deks || s.deks[keyId].tenant != tenant then Err(KeyNotFound)
    else Ok(Chain(s.deks[keyId]))
  }

  /** `key` decrypts for `keyId`: it is the current material or a superseded version. */
  predicate Holds(deks: map<string, DekEntry>, keyId: string, key: Key) {
    keyId in deks && (key == deks[keyId].raw || key in deks[keyId].superseded)
  }

  lemma ChainHolds(deks: map<string, DekEntry>, keyId: string, key: Key)
    requires keyId in deks
    ensures key in Chain(deks[keyId]) <==> Holds(deks, keyId, key)
  {
    var e := deks[keyId];
    var chain := Chain(e);
    if key in e.superseded {
      var j :| 0 <= j < |e.superseded| && e.superseded[j] == key;
      assert chain[|e.superseded| - j] == key;
    }
    assert key == e.raw ==> chain[0] == key;
  }

  /** Rotation's first read section. */
  function CheckOwner(s: Store, tenant: string, keyId: string): (r: Result<(), Error>) {
    if keyId !in s.deks then Err(KeyNotFound)
    else if s.deks[keyId].tenant != tenant then Err(PermissionDenied)
    else Ok(())
  }

  /** Rotation's write section: it looks the key up again but does not re-check the owner. */
  function CommitRotation(s: Store, keyId: string, kek: Key, minted: Key): (r: (Result<nat, Error>, Store)) {
    if keyId !in s.deks then
      (Err(KeyNotFound), s)
    else
      var e := s.deks[keyId];
      var e' := Demote(e, minted, Sealed(kek, RawKey(minted), ReloadAad(keyId)), e.version + 1);
      (Ok(e'.version), InsertDek(s, keyId, e'))
  }

  // ---------------------------------------------------------------------
  // The current DEK and its operation budget
  // ---------------------------------------------------------------------

  /** The fast path: spend one operation of a DEK that has budget left. */
  function TakeCurrent(s: Store, tenant: string): (r: (Option<string>, Store)) {
    if tenant in s.current && s.current[tenant].operations < DEK_MAX_OPERATIONS then
      var c := s.current[tenant];
      (Some(c.keyId), s.(current := s.current[tenant := Current(c.keyId, c.operations + 1)]))
    else
      (None, s)
  }

  /** After minting `keyId`: use a rival's fresh DEK when one was installed meanwhile, else adopt ours. */
  function AdoptCurrent(s: Store, tenant: string, keyId: string): (r: (string, Store)) {
    var taken := TakeCurrent(s, tenant);
    if taken.0.Some? then (taken.0.value, taken.1)
    else (keyId, s.(current := s.current[tenant := Current(keyId, 1)]))
  }

  // ---------------------------------------------------------------------
  // Decryption
  // ---------------------------------------------------------------------

  /** The first key of the chain that opens the envelope. */
  function TryKeys(keys: seq<Key>, blob: Blob, aad: Aad): (r: Option<Plain>) {
    if keys == [] then None
    else if Open(keys[0], blob, aad).Some? then Open(keys[0], blob, aad)
    else TryKeys(keys[1..], blob, aad)
  }

  /** Trying keys in any order is unambiguous: it answers the sealed plaintext iff the sealing key is present. */
  lemma {:induction false} TryKeysFinds(keys: seq<Key>, blob: Blob, aad: Aad)
    ensures TryKeys(keys, blob, aad)
            == if blob.Sealed? && blob.aad == aad && blob.key in keys then Some(blob.plain) else None
  {
    if keys != [] {
      TryKeysFinds(keys[1..], blob, aad);
      assert keys == [keys[0]] + keys[1..];
    }
  }

  /** Parsing of the combined field, with the refusals of the handler. */
  function ParseWire(tenant: string, wire: Text): (r: Result<(string, Blob), Error>) {
    if Blank(tenant) then Err(InvalidArgument)
    else
      var cut := SplitOnce(wire, Char(':'));
      if cut.None? || BlankText(cut.value.0) || BlankText(cut.value.1) then Err(InvalidArgument)
      else
        var keyId := Spelled(cut.value.0);
        if keyId.None? then Err(KeyNotFound) else Ok((keyId.value, Decoded(cut.value.1)))
  }

  function Decrypt(s: Store, tenant: string, wire: Text, aad: Aad): (r: Result<Plain, Error>) {
    var parsed := ParseWire(tenant, wire);
    if parsed.Err? then Err(parsed.error)
    else
      var chain := GetDekChain(s, parsed.value.0, tenant);
      if chain.Err? then Err(chain.error)
      else
        var plain := TryKeys(chain.value, parsed.value.1, aad);
        if plain.None? then Err(DecryptionFailed) else Ok(plain.value)
  }

  lemma ParseCombined(tenant: string, keyId: string, blob: Blob)
    requires CanonicalUuid(keyId) && !Blank(tenant)
    ensures ParseWire(tenant, Combined(keyId, blob)) == Ok((keyId, blob))
  {
    CanonicalUuidShape(keyId);
    CombinedRoundTrip(keyId, blob);
    var t := Chars(keyId);
    assert t[0] == Char(keyId[0]);
    assert !IsSpace(keyId[0]);
  }

  /** What the handler makes of its combined field: it cuts at the first colon, refuses a blank part, and finds no key for a
      part that spells none. */
  lemma ParseWireIs(tenant: string, before: Text, after: Text)
    requires Char(':') !in before
    ensures ParseWire(tenant, before + [Char(':')] + after)
            == if Blank(tenant) || BlankText(before) || BlankText(after) then Err(InvalidArgument)
               else if Spelled(before).None? then Err(KeyNotFound)
               else Ok((Spelled(before).value, Decoded(after)))
    ensures ParseWire(tenant, before) == Err(InvalidArgument)
  {
    hide Blank, BlankText, Spelled, Decoded;
    SplitOnceAt(before, after, Char(':'));
  }

  /**
   What a caller gets back for an envelope: the plaintext, exactly when the caller owns the key,
   the key still holds the sealing material and the associated data is the sealing one.
   */
  lemma DecryptIff(s: Store, tenant: string, keyId: string, key: Key, plain: Plain, sealAad: Aad, aad: Aad)
    requires CanonicalUuid(keyId) && !Blank(tenant)
    ensures Decrypt(s, tenant, Combined(keyId, Sealed(key, plain, sealAad)), aad)
            == if keyId !in s.deks || s.deks[keyId].tenant != tenant then Err(KeyNotFound)
               else if Holds(s.deks, keyId, key) && aad == sealAad then Ok(plain)
               else Err(DecryptionFailed)
  {
    var blob := Sealed(key, plain, sealAad);
    ParseCombined(tenant, keyId, blob);
    if keyId in s.deks {
      ChainHolds(s.deks, keyId, key);
      TryKeysFinds(Chain(s.deks[keyId]), blob, aad);
    }
  }

  // ---------------------------------------------------------------------
  // The store in place
  // ---------------------------------------------------------------------

  class KekStore {
    var root: Option<Key>
    var keks: map<string, KekEntry>
    var deks: map<string, DekEntry>
    var current: map<string, Current>

    ghost function View(): Store reads this {
      Store(root, keks, deks, current)
    }

    constructor (root: Option<Key>)
      ensures View() == EmptyStore(root)
    {
      this.root := root;
      keks, deks, current := map[], map[], map[];
    }

    method CreateTenantKek(tenant: string, minted: Key) returns (r: Result<Key, Error>)
      modifies this`keks
      ensures (r, View()) == CreateKek(old(View()), tenant, minted)
      ensures r.Ok? <==> tenant in old(keks) || root.Some?
      ensures r.Ok? ==> tenant in keks && r.value == keks[tenant].raw && keks == old(keks)[tenant := keks[tenant]]
      ensures r.Ok? ==> if tenant in old(keks) then keks == old(keks)
                        else r.value == minted && OpenKey(root.value, keks[tenant].wrapped, KekAad(tenant)) == Some(minted)
      ensures r.Err? ==> r.error == VaultSealed && keks == old(keks)
    {
      if tenant in keks {
        return Ok(keks[tenant].raw);
      }
      if root.None? {
        return Err(VaultSealed);
      }
      var envelope := Sealed(root.value, RawKey(minted), KekAad(tenant));
      keks := keks[tenant := KekEntry(minted, envelope, 1)];
      r := Ok(minted);
    }

    method StoreDek(tenant: string, keyId: string, kek: Key, raw: Key)
      modifies this`deks
      ensures View() == InsertDek(old(View()), keyId, NewDek(keyId, tenant, kek, raw))
      ensures keyId in deks && deks == old(deks)[keyId := deks[keyId]]
      ensures deks[keyId].raw == raw && deks[keyId].superseded == [] && deks[keyId].tenant == tenant && deks[keyId].version == 1
      ensures OpenKey(kek, deks[keyId].wrapped, ReloadAad(keyId)) == Some(raw)
    {
      var envelope := Sealed(kek, RawKey(raw), ReloadAad(keyId));
      deks := deks[keyId := DekEntry(raw, [], envelope, tenant, 1)];
    }

    method RotateDek(keyId: string, kek: Key, minted: Key) returns (r: Result<nat, Error>)
      modifies this`deks
      ensures (r, View()) == CommitRotation(old(View()), keyId, kek, minted)
      ensures r.Ok? <==> keyId in old(deks)
      ensures r.Ok? ==> keyId in deks && deks == old(deks)[keyId := deks[keyId]] && deks[keyId].raw == minted
      ensures r.Ok? ==> deks[keyId].superseded == old(deks)[keyId].superseded + [old(deks)[keyId].raw]
      ensures r.Ok? ==> r.value == deks[keyId].version == old(deks)[keyId].version + 1 && deks[keyId].tenant == old(deks)[keyId].tenant
      ensures r.Ok? ==> OpenKey(kek, deks[keyId].wrapped, ReloadAad(keyId)) == Some(minted)
      ensures r.Err? ==> r.error == KeyNotFound && deks == old(deks)
    {
      if keyId !in deks {
        return Err(KeyNotFound);
      }
      var entry := deks[keyId];
      var newVersion := entry.version + 1;
      entry := entry.(superseded := entry.superseded + [entry.raw]);
      entry := entry.(raw := minted, wrapped := Sealed(kek, RawKey(minted), ReloadAad(keyId)), version := newVersion);
      deks := deks[keyId := entry];
      r := Ok(newVersion);
    }

    method TakeCurrentDek(tenant: string) returns (r: Option<string>)
      modifies this`current
      ensures (r, View()) == TakeCurrent(old(View()), tenant)
      ensures r.Some? <==> tenant in old(current) && old(current)[tenant].operations < 100_000
      ensures r.Some? ==> current == old(current)[tenant := Current(r.value, old(current)[tenant].operations + 1)]
      ensures r.Some? ==> r.value == old(current)[tenant].keyId
      ensures r.None? ==> current == old(current)
    {
      r := None;
      if tenant in current {
        var entry := current[tenant];
        if entry.operations < DEK_MAX_OPERATIONS {
          current := current[tenant := entry.(operations := entry.operations + 1)];
          r := Some(entry.keyId);
        }
      }
    }

    method AdoptCurrentDek(tenant: string, keyId: string) returns (r: string)
      modifies this`current
      ensures (r, View()) == AdoptCurrent(old(View()), tenant, keyId)
      ensures tenant in current && current == old(current)[tenant := current[tenant]] && current[tenant].keyId == r
      ensures if tenant in old(current) && old(current)[tenant].operations < 100_000 then
                r == old(current)[tenant].keyId && current[tenant].operations == old(current)[tenant].operations + 1
              else r == keyId && current[tenant].operations == 1
    {
      var taken := TakeCurrentDek(tenant);
      if taken.Some? {
        return taken.value;
      }
      current := current[tenant := Current(keyId, 1)];
      r := keyId;
    }

    /** Current material first, then the superseded list walked backwards. */
    method DekChain(keyId: string, tenant: string) returns (r: Result<seq<Key>, Error>)
      ensures r == GetDekChain(View(), keyId, tenant)
      ensures r.Ok? <==> keyId in deks && deks[keyId].tenant == tenant
      ensures r.Ok? ==> |r.value| == 1 + |deks[keyId].superseded| && r.value[0] == deks[keyId].raw
      ensures r.Ok? ==> forall i | 0 < i < |r.value| :: r.value[i] == deks[keyId].superseded[|r.value| - 1 - i]
      ensures r.Err? ==> r.error == KeyNotFound
    {
      if keyId !in deks || deks[keyId].tenant != tenant {
        return Err(KeyNotFound);
      }
      var entry := deks[keyId];
      var chain := [entry.raw];
      var i := |entry.superseded|;
      while i > 0
        invariant 0 <= i <= |entry.superseded|
        invariant chain == Chain(entry)[..1 + |entry.superseded| - i]
      {
        i := i - 1;
        chain := chain + [entry.superseded[i]];
      }
      assert chain == Chain(entry);
      r := Ok(chain);
    }

    /** The decrypt handler: parse, fetch the chain, and walk it until a key opens the envelope. */
    method DecryptRequest(tenant: string, wire: Text, aad: Aad) returns (r: Result<Plain, Error>)
      ensures r == Decrypt(View(), tenant, wire, aad)
    {
      var parsed := ParseWire(tenant, wire);
      if parsed.Err? {
        return Err(parsed.error);
      }
      var (keyId, blob) := parsed.value;
      var chain := DekChain(keyId, tenant);
      if chain.Err? {
        return Err(chain.error);
      }
      var plain: Option<Plain> := None;
      var i := 0;
      while i < |chain.value| && plain.None?
        invariant 0 <= i <= |chain.value|
        invariant plain.None? ==> TryKeys(chain.value, blob, aad) == TryKeys(chain.value[i..], blob, aad)
        invariant plain.Some? ==> TryKeys(chain.value, blob, aad) == plain
        decreases |chain.value| - i
      {
        plain := Open(chain.value[i], blob, aad);
        assert chain.value[i..][1..] == chain.value[i + 1..];
        i := i + 1;
      }
      r := if plain.None? then Err(DecryptionFailed) else Ok(plain.value);
    }
  }
}
