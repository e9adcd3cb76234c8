/**
 One-time tenant invitations. Redeeming one mints an API key and claims the token in
 a single transaction whose conditional UPDATE is the only concurrency control.

 Invitations are indexed by token hash, which the schema declares unique; keys by id.
 */
module Invitations {
  import opened Wrappers

  datatype Invitation = Invitation(id: string, tenant: string, expires: int, usedAt: Option<int>, key: Option<string>)

  datatype ApiKey = ApiKey(id: string, tenant: string, name: string, revokedAt: Option<int>)

  datatype RedeemFailure = NotFound | AlreadyUsed | Expired

  type InvitationTable = map<string, Invitation>

  type KeyTable = map<string, ApiKey>

  // ---------------------------------------------------------------------
  // Statements
  // ---------------------------------------------------------------------

  /** The primary key, and the unique index over tenant and name of active keys. */
  predicate KeyClash(a: ApiKey, b: ApiKey) {
    a.id == b.id || (a.tenant == b.tenant && a.name == b.name && a.revokedAt.None? && b.revokedAt.None?)
  }

  predicate KeyRefused(keys: KeyTable, key: ApiKey) {
    key.id in keys || exists id | id in keys :: KeyClash(keys[id], key)
  }

  /** The WHERE clause of the claim. `now()` is the start of the transaction. */
  predicate Claimable(t: InvitationTable, hash: string, now: int) {
    hash in t && t[hash].usedAt.None? && t[hash].expires > now
  }

  function Claimed(t: InvitationTable, hash: string, keyId: string, now: int): InvitationTable
    requires hash in t
  {
    t[hash := t[hash].(usedAt := Some(now), key := Some(keyId))]
  }

  /** `classify_miss`. */
  function ClassifyMiss(t: InvitationTable, hash: string): RedeemFailure {
    if hash !in t then NotFound else if t[hash].usedAt.Some? then AlreadyUsed else Expired
  }

  /** The DELETE of `revoke`. */
  function Withdrawn(t: InvitationTable, id: string, tenant: string): InvitationTable {
    map h | h in t && !(t[h].id == id && t[h].tenant == tenant && t[h].usedAt.None?) :: t[h]
  }

  const DAY := 86400

  /** The WHERE clause of `reap_expired_invitations`, times in seconds. */
  predicate Reapable(i: Invitation, now: int) {
    if i.usedAt.None? then i.expires < now - 7 * DAY else i.usedAt.value < now - 90 * DAY
  }

  function Reaped(t: InvitationTable, now: int): InvitationTable { map h | h in t && !Reapable(t[h], now) :: t[h] }

  // ---------------------------------------------------------------------
  // One redemption, uninterrupted
  // ---------------------------------------------------------------------

  function Redeemed(t: InvitationTable, keys: KeyTable, hash: string, key: ApiKey, now: int)
    : (r: (Result<Invitation, RedeemFailure>, InvitationTable, KeyTable))
  {
    if KeyRefused(keys, key) then (Err(NotFound), t, keys)
    else if !Claimable(t, hash, now) then (Err(ClassifyMiss(t, hash)), t, keys)
    else
      var t' := Claimed(t, hash, key.id, now);
      (Ok(t'[hash]), t', keys[key.id := key])
  }

  /** The new key shares its id with no key, nor its name with an active key of its tenant, unless it is itself revoked. */
  ghost predicate KeyAccepted(keys: KeyTable, key: ApiKey) {
    && key.id !in keys
    && forall id | id in keys ::
         && keys[id].id != key.id
         && (keys[id].tenant == key.tenant && keys[id].name == key.name ==> keys[id].revokedAt.Some? || key.revokedAt.Some?)
  }

  /**
   When a redemption is granted, what it leaves, and what a refusal is called: a key that is not accepted and an unknown
   token are both not found; a known token was used, or has expired.
   */
  lemma RedeemedIff(t: InvitationTable, keys: KeyTable, hash: string, key: ApiKey, now: int)
    ensures var (r, t', keys') := Redeemed(t, keys, hash, key, now);
            && (r.Ok? <==> KeyAccepted(keys, key) && hash in t && t[hash].usedAt.None? && now < t[hash].expires)
            && (r.Ok? ==> && t' == t[hash := t[hash].(usedAt := Some(now), key := Some(key.id))]
                          && keys' == keys[key.id := key] && r.value == t'[hash])
            && (r.Err? ==> t' == t && keys' == keys)
            && (r == Err(AlreadyUsed) <==> KeyAccepted(keys, key) && hash in t && t[hash].usedAt.Some?)
            && (r == Err(Expired) <==> KeyAccepted(keys, key) && hash in t && t[hash].usedAt.None? && t[hash].expires <= now)
            && (r == Err(NotFound) <==> !KeyAccepted(keys, key) || hash !in t)
  {
    KeyRefusedIff(keys, key);
    hide KeyRefused, KeyAccepted;
  }

  lemma KeyRefusedIff(keys: KeyTable, key: ApiKey)
    ensures KeyRefused(keys, key) <==> !KeyAccepted(keys, key)
  {
    if !KeyRefused(keys, key) {
      forall id | id in keys
        ensures keys[id].id != key.id
             && (keys[id].tenant == key.tenant && keys[id].name == key.name ==> keys[id].revokedAt.Some? || key.revokedAt.Some?)
      {
        assert !KeyClash(keys[id], key);
      }
    }
  }

  class InvitationStore {
    var invitations: InvitationTable
    var keys: KeyTable

    constructor ()
      ensures invitations == map[] && keys == map[]
    {
      invitations, keys := map[], map[];
    }

    /** Insert the key, claim the token, and undo the insert when the claim matches no row. */
    method Redeem(hash: string, key: ApiKey, now: int) returns (r: Result<Invitation, RedeemFailure>)
      modifies this
      ensures (r, invitations, keys) == Redeemed(old(invitations), old(keys), hash, key, now)
      ensures r.Ok? <==> && KeyAccepted(old(keys), key) && hash in old(invitations)
                         && old(invitations)[hash].usedAt.None? && now < old(invitations)[hash].expires
      ensures r.Ok? ==> && invitations == old(invitations)[hash := old(invitations)[hash].(usedAt := Some(now), key := Some(key.id))]
                        && keys == old(keys)[key.id := key]
      ensures r.Err? ==> invitations == old(invitations) && keys == old(keys)
    {
      RedeemedIff(invitations, keys, hash, key, now);
      var savedKeys := keys;
      if KeyRefused(keys, key) {
        return Err(NotFound);
      }
      keys := keys[key.id := key];
      if hash in invitations && invitations[hash].usedAt.None? && invitations[hash].expires > now {
        invitations := invitations[hash := invitations[hash].(usedAt := Some(now), key := Some(key.id))];
        return Ok(invitations[hash]);
      }
      var reason := NotFound;
      if hash in invitations {
        reason := if invitations[hash].usedAt.Some? then AlreadyUsed else Expired;
      }
      keys := savedKeys;
      r := Err(reason);
    }

    method Revoke(id: string, tenant: string) returns (revoked: bool)
      modifies this`invitations
      ensures invitations == Withdrawn(old(invitations), id, tenant)
      ensures forall h | h in old(invitations) ::
                var i := old(invitations)[h];
                h in invitations <==> i.id != id || i.tenant != tenant || i.usedAt.Some?
      ensures forall h | h in invitations :: h in old(invitations) && invitations[h] == old(invitations)[h]
      ensures revoked <==> exists h :: h in old(invitations) && h !in invitations
    {
      var before := invitations;
      invitations := map h | h in before && !(before[h].id == id && before[h].tenant == tenant && before[h].usedAt.None?) :: before[h];
      revoked := |invitations| < |before|;
      Shrinks(before, invitations);
    }

    method ReapExpired(now: int) returns (removed: nat)
      modifies this`invitations
      ensures invitations == Reaped(old(invitations), now)
      ensures forall h | h in old(invitations) ::
                var i := old(invitations)[h];
                h in invitations <==> if i.usedAt.None? then i.expires >= now - 7 * 86400 else i.usedAt.value >= now - 90 * 86400
      ensures forall h | h in invitations :: h in old(invitations) && invitations[h] == old(invitations)[h]
      ensures removed == |old(invitations)| - |invitations|
    {
      var before := invitations;
      invitations := map h | h in before && !Reapable(before[h], now) :: before[h];
      Subset(invitations.Keys, before.Keys);
      removed := |before| - |invitations|;
    }
  }

  lemma Shrinks(before: InvitationTable, after: InvitationTable)
    requires forall h | h in after :: h in before
    ensures |after| < |before| <==> exists h :: h in before && h !in after
  {
    assert after.Keys <= before.Keys;
    if h :| h in before && h !in after {
      Subset(after.Keys, before.Keys - {h});
    } else {
      assert after.Keys == before.Keys;
    }
  }

  lemma Subset(a: set<string>, b: set<string>)
    requires a <= b
    ensures |a| <= |b|
  {
    assert b == a + (b - a);
  }

  // ---------------------------------------------------------------------
  // Many redemptions
  // ---------------------------------------------------------------------

  datatype Phase = Begun | KeyInserted | TokenClaimed | Missed

  datatype Tx = Tx(hash: string, key: ApiKey, began: int, phase: Phase)

  /** How a redemption ended. The caller of `LostAck` sees a failure, though the commit took place. */
  datatype Outcome = Granted(hash: string) | Refused(why: RedeemFailure) | LostAck(hash: string)

  /**
   Committed tables, row locks on invitations, open transactions, and three ledgers: who minted a key, how each
   redemption ended, and the used invitations that the reaper has removed.
   */
  datatype Db = Db(
    invitations: InvitationTable, keys: KeyTable, locks: map<string, nat>, txs: map<nat, Tx>,
    minted: map<string, nat>, outcomes: map<nat, Outcome>, reaped: InvitationTable)

  datatype Action =
    | Invite(hash: string, id: string, tenant: string, expires: int)
    | RevokeInvitation(id: string, tenant: string)
    | Reap(now: int)
    | CreateKey(key: ApiKey)
    | RevokeKey(id: string, tenant: string, now: int)
    | Begin(tx: nat, hash: string, key: ApiKey, now: int)
    | InsertKey(tx: nat)
    | Claim(tx: nat)
    | Classify(tx: nat)
    | Commit(tx: nat, acked: bool)
    | Fail(tx: nat)

  function Start(): Db { Db(map[], map[], map[], map[], map[], map[], map[]) }

  /** The invitations on record: those in the table, and the used ones that were reaped. */
  function Issued(db: Db): InvitationTable { db.reaped + db.invitations }

  function Close(db: Db, tx: nat, outcome: Outcome): Db {
    db.(locks := map h | h in db.locks && db.locks[h] != tx :: db.locks[h], txs := db.txs - {tx},
        outcomes := db.outcomes[tx := outcome])
  }

  function SetPhase(db: Db, tx: nat, phase: Phase): Db
    requires tx in db.txs
  {
    db.(txs := db.txs[tx := db.txs[tx].(phase := phase)])
  }

  /** An uncommitted key of another transaction clashes: the INSERT waits. */
  predicate KeyWaits(db: Db, tx: nat, key: ApiKey) {
    exists u | u in db.txs :: u != tx && Holding(db.txs[u]) && KeyClash(db.txs[u].key, key)
  }

  predicate Holding(t: Tx) { !t.phase.Begun? }

  function DoInsert(db: Db, tx: nat): Db
    requires tx in db.txs
  {
    var t := db.txs[tx];
    if !t.phase.Begun? || KeyWaits(db, tx, t.key) then db
    else if KeyRefused(db.keys, t.key) then Close(db, tx, Refused(NotFound))
    else SetPhase(db, tx, KeyInserted)
  }

  /** A matching row that another transaction has claimed makes the UPDATE wait; it is then judged afresh. */
  function DoClaim(db: Db, tx: nat): Db
    requires tx in db.txs
  {
    var t := db.txs[tx];
    if !t.phase.KeyInserted? then db
    else if !Claimable(db.invitations, t.hash, t.began) then SetPhase(db, tx, Missed)
    else if t.hash in db.locks then db
    else SetPhase(db, tx, TokenClaimed).(locks := db.locks[t.hash := tx])
  }

  function DoCommit(db: Db, tx: nat, acked: bool): Db
    requires tx in db.txs
  {
    var t := db.txs[tx];
    if !t.phase.TokenClaimed? || t.hash !in db.invitations then db
    else
      Close(db, tx, if acked then Granted(t.hash) else LostAck(t.hash)).(
        invitations := Claimed(db.invitations, t.hash, t.key.id, t.began),
        keys := db.keys[t.key.id := t.key],
        minted := db.minted[t.key.id := tx])
  }

  /** A row that is claimed makes the DELETE wait. */
  function DoReap(db: Db, now: int): Db {
    if exists h | h in db.locks :: h in db.invitations && Reapable(db.invitations[h], now) then db
    else
      db.(invitations := Reaped(db.invitations, now),
          reaped := db.reaped + map h | h in db.invitations && Reapable(db.invitations[h], now) && db.invitations[h].usedAt.Some? ::
                                  db.invitations[h])
  }

  /** A token is 256 random bits: one that was used is not drawn again. */
  function DoInvite(db: Db, hash: string, id: string, tenant: string, expires: int): Db {
    if hash in Issued(db) then db
    else db.(invitations := db.invitations[hash := Invitation(id, tenant, expires, None, None)])
  }

  function DoWithdraw(db: Db, id: string, tenant: string): Db {
    if exists h | h in db.locks :: h in db.invitations && db.invitations[h].id == id then db
    else db.(invitations := Withdrawn(db.invitations, id, tenant))
  }

  function Step(db: Db, a: Action): Db {
    match a
    case Invite(hash, id, tenant, expires) => DoInvite(db, hash, id, tenant, expires)
    case RevokeInvitation(id, tenant) => DoWithdraw(db, id, tenant)
    case Reap(now) => DoReap(db, now)
    case CreateKey(key) =>
      if KeyRefused(db.keys, key) || exists u | u in db.txs :: Holding(db.txs[u]) && KeyClash(db.txs[u].key, key) then db
      else db.(keys := db.keys[key.id := key])
    case RevokeKey(id, tenant, now) =>
      if id in db.keys && db.keys[id].tenant == tenant && db.keys[id].revokedAt.None? then
        db.(keys := db.keys[id := db.keys[id].(revokedAt := Some(now))])
      else db
    case Begin(tx, hash, key, now) =>
      if tx in db.txs || tx in db.outcomes then db else db.(txs := db.txs[tx := Tx(hash, key, now, Begun)])
    case InsertKey(tx) => if tx in db.txs then DoInsert(db, tx) else db
    case Claim(tx) => if tx in db.txs then DoClaim(db, tx) else db
    case Classify(tx) =>
      if tx in db.txs && db.txs[tx].phase.Missed? then Close(db, tx, Refused(ClassifyMiss(db.invitations, db.txs[tx].hash)))
      else db
    case Commit(tx, acked) => if tx in db.txs then DoCommit(db, tx, acked) else db
    case Fail(tx) => if tx in db.txs then Close(db, tx, Refused(NotFound)) else db
  }

  function Run(db: Db, actions: seq<Action>): Db {
    if actions == [] then db else Step(Run(db, actions[..|actions| - 1]), actions[|actions| - 1])
  }

  // ---------------------------------------------------------------------
  // What every step keeps
  // ---------------------------------------------------------------------

  /** A used invitation names the key that the redemption granted on it minted; an unused one names none. */
  ghost predicate InvitationOk(db: Db, h: string)
    requires h in Issued(db)
  {
    var i := Issued(db)[h];
    if i.usedAt.None? then i.key.None?
    else
      && i.usedAt.value < i.expires
      && i.key.Some? && i.key.value in db.minted
      && var tx := db.minted[i.key.value]; tx in db.outcomes && !db.outcomes[tx].Refused? && db.outcomes[tx].hash == h
  }

  /** Every minted key is stored, belongs to exactly one used invitation, and was minted by a redemption that committed. */
  ghost predicate KeyOk(db: Db, k: string)
    requires k in db.minted
  {
    && k in db.keys
    && db.minted[k] in db.outcomes && !db.outcomes[db.minted[k]].Refused?
    && var h := db.outcomes[db.minted[k]].hash;
       h in Issued(db) && Issued(db)[h].key == Some(k)
  }

  ghost predicate OutcomeOk(db: Db, tx: nat)
    requires tx in db.outcomes
  {
    db.outcomes[tx].Refused?
    || (var h := db.outcomes[tx].hash;
        h in Issued(db) && Issued(db)[h].usedAt.Some? && Issued(db)[h].key.Some?
        && Issued(db)[h].key.value in db.minted && db.minted[Issued(db)[h].key.value] == tx)
  }

  ghost predicate TxOk(db: Db, tx: nat)
    requires tx in db.txs
  {
    var t := db.txs[tx];
    && tx !in db.outcomes
    && (Holding(t) ==> t.key.id !in db.keys)
    && (t.phase.TokenClaimed? ==>
          && t.hash in db.locks && db.locks[t.hash] == tx && t.hash in db.invitations
          && db.invitations[t.hash].usedAt.None? && t.began < db.invitations[t.hash].expires)
  }

  /** No two open transactions hold uncommitted keys with one id. */
  ghost predicate KeysApart(txs: map<nat, Tx>) {
    forall u, v | u in txs && v in txs && u != v && Holding(txs[u]) && Holding(txs[v]) :: txs[u].key.id != txs[v].key.id
  }

  ghost predicate Inv(db: Db) {
    && db.reaped.Keys !! db.invitations.Keys
    && (forall h | h in Issued(db) :: InvitationOk(db, h))
    && (forall k | k in db.minted :: KeyOk(db, k))
    && (forall tx | tx in db.outcomes :: OutcomeOk(db, tx))
    && (forall tx | tx in db.txs :: TxOk(db, tx))
    && KeysApart(db.txs)
  }

  lemma CommitKeeps(db: Db, tx: nat, acked: bool)
    requires Inv(db) && tx in db.txs
    ensures Inv(DoCommit(db, tx, acked))
  {
    hide Issued, KeysApart, InvitationOk, KeyOk, OutcomeOk, TxOk;
    var db' := DoCommit(db, tx, acked);
    if db' != db {
      IssuedClaim(db, tx, acked);
      forall h | h in Issued(db') ensures InvitationOk(db', h) { CommitInvitation(db, tx, acked, h); }
      forall k | k in db'.minted ensures KeyOk(db', k) { CommitMints(db, tx, acked, k); }
      forall u | u in db'.outcomes ensures OutcomeOk(db', u) { CommitOutcome(db, tx, acked, u); }
      forall u | u in db'.txs ensures TxOk(db', u) { CommitLeaves(db, tx, acked, u); }
      ApartWithout(db.txs, tx);
    }
  }

  ghost predicate Committing(db: Db, tx: nat) {
    Inv(db) && tx in db.txs && db.txs[tx].phase.TokenClaimed? && db.txs[tx].hash in db.invitations
  }

  lemma CommitInvitation(db: Db, tx: nat, acked: bool, h: string)
    requires Committing(db, tx) && h in Issued(DoCommit(db, tx, acked))
    ensures InvitationOk(DoCommit(db, tx, acked), h)
  {
    hide Issued, KeysApart, OutcomeOk;
    assert TxOk(db, tx);
    IssuedClaim(db, tx, acked);
    assert InvitationOk(db, h);
    assert forall k | k in db.minted :: KeyOk(db, k) && k in db.keys;
  }

  lemma CommitMints(db: Db, tx: nat, acked: bool, k: string)
    requires Committing(db, tx) && k in DoCommit(db, tx, acked).minted
    ensures KeyOk(DoCommit(db, tx, acked), k)
  {
    hide Issued, KeysApart, OutcomeOk, InvitationOk;
    assert TxOk(db, tx);
    IssuedClaim(db, tx, acked);
    if k in db.minted && k != db.txs[tx].key.id {
      CommittedElsewhere(db, tx, k);
    }
  }

  lemma CommitOutcome(db: Db, tx: nat, acked: bool, u: nat)
    requires Committing(db, tx) && u in DoCommit(db, tx, acked).outcomes
    ensures OutcomeOk(DoCommit(db, tx, acked), u)
  {
    hide Issued, KeysApart, InvitationOk;
    assert TxOk(db, tx);
    IssuedClaim(db, tx, acked);
    assert forall k | k in db.minted :: KeyOk(db, k) && k in db.keys;
    if u != tx { assert OutcomeOk(db, u); }
  }

  lemma CommitLeaves(db: Db, tx: nat, acked: bool, u: nat)
    requires Inv(db) && tx in db.txs && u in db.txs && u != tx
    requires db.txs[tx].phase.TokenClaimed? && db.txs[tx].hash in db.invitations
    ensures u in DoCommit(db, tx, acked).txs && TxOk(DoCommit(db, tx, acked), u)
  {
    hide Issued, InvitationOk, KeyOk, OutcomeOk;
    assert TxOk(db, tx) && TxOk(db, u);
  }

  lemma ApartWithout(txs: map<nat, Tx>, tx: nat)
    requires KeysApart(txs)
    ensures KeysApart(txs - {tx})
  {
  }

  lemma IssuedClaim(db: Db, tx: nat, acked: bool)
    requires tx in db.txs && db.txs[tx].phase.TokenClaimed? && db.txs[tx].hash in db.invitations
    requires db.reaped.Keys !! db.invitations.Keys
    ensures var t, db' := db.txs[tx], DoCommit(db, tx, acked);
            t.hash in Issued(db) && Issued(db)[t.hash] == db.invitations[t.hash]
            && Issued(db') == Claimed(Issued(db), t.hash, t.key.id, t.began)
            && db'.reaped.Keys !! db'.invitations.Keys
  {
  }

  lemma CommittedElsewhere(db: Db, tx: nat, k: string)
    requires Inv(db) && tx in db.txs && db.txs[tx].phase.TokenClaimed? && k in db.minted
    ensures KeyOk(db, k) && db.outcomes[db.minted[k]].hash != db.txs[tx].hash && db.minted[k] != tx
  {
    assert KeyOk(db, k) && TxOk(db, tx);
    assert InvitationOk(db, db.txs[tx].hash);
  }

  /** The steps that leave invitations, minted keys and settled outcomes as they were. */
  lemma TablesSame(db: Db, db': Db)
    requires Inv(db)
    requires db'.invitations == db.invitations && db'.reaped == db.reaped && db'.minted == db.minted
    requires forall k | k in db.keys :: k in db'.keys
    requires forall u | u in db.outcomes :: u in db'.outcomes && db'.outcomes[u] == db.outcomes[u]
    requires forall u | u in db'.outcomes && u !in db.outcomes :: db'.outcomes[u].Refused?
    requires forall u | u in db'.txs :: TxOk(db', u)
    requires KeysApart(db'.txs)
    ensures Inv(db')
  {
    forall h | h in Issued(db') ensures InvitationOk(db', h) { assert InvitationOk(db, h); }
    forall k | k in db'.minted ensures KeyOk(db', k) { assert KeyOk(db, k); }
    forall u | u in db'.outcomes ensures OutcomeOk(db', u) { if u in db.outcomes { assert OutcomeOk(db, u); } }
  }

  lemma CloseKeeps(db: Db, tx: nat, why: RedeemFailure)
    requires Inv(db) && tx in db.txs
    ensures Inv(Close(db, tx, Refused(why)))
  {
    var db' := Close(db, tx, Refused(why));
    assert TxOk(db, tx);
    forall u | u in db'.txs ensures TxOk(db', u) { assert TxOk(db, u); }
    TablesSame(db, db');
  }

  lemma KeysApartStill(txs: map<nat, Tx>, tx: nat, t: Tx)
    requires KeysApart(txs)
    requires Holding(t) ==> tx in txs && Holding(txs[tx]) && txs[tx].key == t.key
    ensures KeysApart(txs[tx := t])
  {
  }

  lemma BeginKeeps(db: Db, a: Action)
    requires Inv(db) && a.Begin?
    ensures Inv(Step(db, a))
  {
    hide InvitationOk, KeyOk, OutcomeOk, KeysApart;
    var db' := Step(db, a);
    if db' != db {
      forall u | u in db'.txs ensures TxOk(db', u) {
        if u in db.txs { assert TxOk(db, u); }
      }
      KeysApartStill(db.txs, a.tx, db'.txs[a.tx]);
      TablesSame(db, db');
    }
  }

  lemma InsertKeeps(db: Db, tx: nat)
    requires Inv(db) && tx in db.txs
    ensures Inv(DoInsert(db, tx))
  {
    hide InvitationOk, KeyOk, OutcomeOk;
    var db' := DoInsert(db, tx);
    var key := db.txs[tx].key;
    if db' == SetPhase(db, tx, KeyInserted) {
      assert key.id !in db.keys || db' == db;
      forall u | u in db'.txs ensures TxOk(db', u) { assert TxOk(db, u); }
      TablesSame(db, db');
    } else if db' != db {
      CloseKeeps(db, tx, NotFound);
    }
  }

  /** A transaction that holds its key moves on, possibly with one more row lock. */
  lemma PhaseKeeps(db: Db, tx: nat, phase: Phase, locks: map<string, nat>)
    requires Inv(db) && tx in db.txs && Holding(db.txs[tx]) && !phase.Begun?
    requires forall h | h in db.locks :: h in locks && locks[h] == db.locks[h]
    requires var h := db.txs[tx].hash;
             phase.TokenClaimed? ==>
               && h in locks && locks[h] == tx && h in db.invitations
               && db.invitations[h].usedAt.None? && db.txs[tx].began < db.invitations[h].expires
    ensures Inv(SetPhase(db, tx, phase).(locks := locks))
  {
    hide InvitationOk, KeyOk, OutcomeOk, KeysApart;
    var db' := SetPhase(db, tx, phase).(locks := locks);
    forall u | u in db'.txs ensures TxOk(db', u) { assert TxOk(db, u); }
    KeysApartStill(db.txs, tx, db'.txs[tx]);
    TablesSame(db, db');
  }

  lemma ClaimKeeps(db: Db, tx: nat)
    requires Inv(db) && tx in db.txs
    ensures Inv(DoClaim(db, tx))
  {
    hide Inv;
    var t := db.txs[tx];
    if t.phase.KeyInserted? {
      if !Claimable(db.invitations, t.hash, t.began) {
        PhaseKeeps(db, tx, Missed, db.locks);
      } else if t.hash !in db.locks {
        PhaseKeeps(db, tx, TokenClaimed, db.locks[t.hash := tx]);
      }
    }
  }

  /** New, withdrawn or reaped invitations: the used ones stay on record, and the claimed ones in the table. */
  lemma InvitationsChange(db: Db, db': Db)
    requires Inv(db) && db' == db.(invitations := db'.invitations, reaped := db'.reaped)
    requires db'.reaped.Keys !! db'.invitations.Keys
    requires forall h | h in Issued(db') ::
               if h in Issued(db) then Issued(db')[h] == Issued(db)[h]
               else Issued(db')[h].usedAt.None? && Issued(db')[h].key.None?
    requires forall h | h in Issued(db) && Issued(db)[h].usedAt.Some? :: h in Issued(db')
    requires forall h | h in db.invitations && h in db.locks :: h in db'.invitations
    ensures Inv(db')
  {
    hide Issued;
    forall h | h in Issued(db') ensures InvitationOk(db', h) { if h in Issued(db) { assert InvitationOk(db, h); } }
    forall k | k in db'.minted ensures KeyOk(db', k) {
      assert KeyOk(db, k);
      assert InvitationOk(db, db.outcomes[db.minted[k]].hash);
    }
    forall u | u in db'.outcomes ensures OutcomeOk(db', u) { assert OutcomeOk(db, u); }
    forall u | u in db'.txs ensures TxOk(db', u) { assert TxOk(db, u); TableSame(db, db', db.txs[u].hash); }
  }

  lemma TableSame(db: Db, db': Db, h: string)
    requires h in db.invitations && h in db'.invitations && h in Issued(db) && h in Issued(db') ==> Issued(db')[h] == Issued(db)[h]
    ensures h in db.invitations && h in db'.invitations ==> db'.invitations[h] == db.invitations[h]
  {
  }

  lemma InviteKeeps(db: Db, hash: string, id: string, tenant: string, expires: int)
    requires Inv(db)
    ensures Inv(DoInvite(db, hash, id, tenant, expires))
  {
    hide InvitationOk, KeyOk, OutcomeOk, TxOk, KeysApart;
    if hash !in Issued(db) { InvitationsChange(db, DoInvite(db, hash, id, tenant, expires)); }
  }

  lemma WithdrawKeeps(db: Db, id: string, tenant: string)
    requires Inv(db)
    ensures Inv(DoWithdraw(db, id, tenant))
  {
    hide InvitationOk, KeyOk, OutcomeOk, TxOk, KeysApart;
    var db' := DoWithdraw(db, id, tenant);
    if db' != db { InvitationsChange(db, db'); }
  }

  lemma ReapKeeps(db: Db, now: int)
    requires Inv(db)
    ensures Inv(DoReap(db, now))
  {
    hide InvitationOk, KeyOk, OutcomeOk, TxOk, KeysApart;
    var db' := DoReap(db, now);
    if db' != db { InvitationsChange(db, db'); }
  }

  lemma KeyStepsKeep(db: Db, a: Action)
    requires Inv(db) && (a.CreateKey? || a.RevokeKey?)
    ensures Inv(Step(db, a))
  {
    hide InvitationOk, KeyOk, OutcomeOk, KeysApart;
    var db' := Step(db, a);
    if db' != db {
      forall u | u in db'.txs ensures TxOk(db', u) { assert TxOk(db, u); }
      TablesSame(db, db');
    }
  }

  lemma StepKeeps(db: Db, a: Action)
    requires Inv(db)
    ensures Inv(Step(db, a))
  {
    hide Inv, InvitationOk, KeyOk, OutcomeOk, TxOk;
    match a {
      case Invite(hash, id, tenant, expires) => InviteKeeps(db, hash, id, tenant, expires);
      case RevokeInvitation(id, tenant) => WithdrawKeeps(db, id, tenant);
      case Reap(now) => ReapKeeps(db, now);
      case CreateKey(_) => KeyStepsKeep(db, a);
      case RevokeKey(_, _, _) => KeyStepsKeep(db, a);
      case Begin(_, _, _, _) => BeginKeeps(db, a);
      case InsertKey(tx) => if tx in db.txs { InsertKeeps(db, tx); }
      case Claim(tx) => if tx in db.txs { ClaimKeeps(db, tx); }
      case Classify(tx) => if tx in db.txs { CloseKeeps(db, tx, ClassifyMiss(db.invitations, db.txs[tx].hash)); }
      case Commit(tx, acked) => if tx in db.txs { CommitKeeps(db, tx, acked); }
      case Fail(tx) => if tx in db.txs { CloseKeeps(db, tx, NotFound); }
    }
  }

  lemma {:induction false} RunKeeps(actions: seq<Action>)
    ensures Inv(Run(Start(), actions))
  {
    hide Step;
    if actions != [] {
      RunKeeps(actions[..|actions| - 1]);
      StepKeeps(Run(Start(), actions[..|actions| - 1]), actions[|actions| - 1]);
    }
  }

  // ---------------------------------------------------------------------
  // Theorems
  // ---------------------------------------------------------------------

  /** Used invitations and minted keys correspond one to one. */
  ghost predicate Bijection(db: Db) {
    && (forall h | h in Issued(db) && Issued(db)[h].usedAt.Some? ::
          Issued(db)[h].key.Some? && Issued(db)[h].key.value in db.minted && Issued(db)[h].key.value in db.keys)
    && (forall h, g | h in Issued(db) && g in Issued(db) && Issued(db)[h].key.Some?
                      && Issued(db)[h].key == Issued(db)[g].key :: h == g)
    && (forall k | k in db.minted :: exists h :: h in Issued(db) && Issued(db)[h].usedAt.Some? && Issued(db)[h].key == Some(k))
    && (forall h | h in Issued(db) && Issued(db)[h].usedAt.None? :: Issued(db)[h].key.None?)
  }

  /**
   For any interleaving of redemptions, revocations, invitations and other key changes, lost acknowledgements included:
   used invitations and minted keys are in bijection, a redemption that ended in a refusal minted nothing, and no two
   redemptions are granted on one invitation.
   */
  lemma SingleUse(actions: seq<Action>)
    ensures var db := Run(Start(), actions);
            && Bijection(db)
            && (forall k | k in db.minted :: db.minted[k] in db.outcomes && !db.outcomes[db.minted[k]].Refused?)
            && (forall tx, u | tx in db.outcomes && u in db.outcomes && !db.outcomes[tx].Refused? && !db.outcomes[u].Refused?
                               && db.outcomes[tx].hash == db.outcomes[u].hash :: tx == u)
  {
    hide Step, Run;
    RunKeeps(actions);
    var db := Run(Start(), actions);
    InvIsBijection(db);
    forall k | k in db.minted ensures db.minted[k] in db.outcomes && !db.outcomes[db.minted[k]].Refused? { assert KeyOk(db, k); }
    forall tx, u | tx in db.outcomes && u in db.outcomes && !db.outcomes[tx].Refused? && !db.outcomes[u].Refused?
                   && db.outcomes[tx].hash == db.outcomes[u].hash
      ensures tx == u
    {
      assert OutcomeOk(db, tx) && OutcomeOk(db, u);
    }
  }

  lemma InvIsBijection(db: Db)
    requires Inv(db)
    ensures Bijection(db)
  {
    forall h | h in Issued(db) && Issued(db)[h].key.Some? ensures
        Issued(db)[h].usedAt.Some? && Issued(db)[h].key.value in db.minted && Issued(db)[h].key.value in db.keys
    {
      assert InvitationOk(db, h) && KeyOk(db, Issued(db)[h].key.value);
    }
    forall h | h in Issued(db) && Issued(db)[h].usedAt.Some? ensures Issued(db)[h].key.Some? { assert InvitationOk(db, h); }
    forall h, g | h in Issued(db) && g in Issued(db) && Issued(db)[h].key.Some? && Issued(db)[h].key == Issued(db)[g].key
      ensures h == g
    {
      KeyHash(db, h);
      KeyHash(db, g);
    }
    forall k | k in db.minted ensures exists h :: h in Issued(db) && Issued(db)[h].usedAt.Some? && Issued(db)[h].key == Some(k) {
      assert KeyOk(db, k);
      var h := db.outcomes[db.minted[k]].hash;
      assert InvitationOk(db, h);
    }
  }

  /** The redemption that minted a used invitation's key is the one granted on that invitation. */
  lemma KeyHash(db: Db, h: string)
    requires Inv(db) && h in Issued(db) && Issued(db)[h].key.Some?
    ensures Issued(db)[h].key.value in db.minted
    ensures var tx := db.minted[Issued(db)[h].key.value]; tx in db.outcomes && !db.outcomes[tx].Refused? && db.outcomes[tx].hash == h
  {
    assert InvitationOk(db, h);
    assert KeyOk(db, Issued(db)[h].key.value);
  }

  /** In every run, however redemptions wait for each other, an invitation was used before it expired. */
  lemma UsedInTime(actions: seq<Action>, h: string)
    requires var db := Run(Start(), actions); h in Issued(db) && Issued(db)[h].usedAt.Some?
    ensures var i := Issued(Run(Start(), actions))[h]; i.usedAt.value < i.expires
  {
    hide Run, Step, Issued;
    RunKeeps(actions);
    assert InvitationOk(Run(Start(), actions), h);
  }

  /**
   Once used, an invitation stays on record as it is: no later step of any kind frees or reassigns it, and nobody can
   claim its token again. It leaves the table only when the reaper runs more than 90 days after the use.
   */
  lemma {:induction false} UsedForGood(db: Db, actions: seq<Action>, h: string)
    requires Inv(db) && h in Issued(db) && Issued(db)[h].usedAt.Some?
    ensures var db' := Run(db, actions);
            && Inv(db') && h in Issued(db') && Issued(db')[h] == Issued(db)[h]
            && (forall now :: !Claimable(db'.invitations, h, now))
            && (h in db.invitations && h !in db'.invitations ==>
                  exists a | a in actions :: a.Reap? && db.invitations[h].usedAt.value < a.now - 90 * DAY)
  {
    hide Inv, Step, Issued;
    if actions != [] {
      var n := |actions| - 1;
      var before := Run(db, actions[..n]);
      UsedForGood(db, actions[..n], h);
      StepKeeps(before, actions[n]);
      UsedStep(before, actions[n], h);
      assert actions[n] in actions && forall a | a in actions[..n] :: a in actions;
      StillThere(db, h);
      StillThere(before, h);
    }
    Unclaimable(Run(db, actions), h);
  }

  lemma StillThere(db: Db, h: string)
    ensures h in db.invitations ==> h in Issued(db) && db.invitations[h] == Issued(db)[h]
  {
  }

  lemma Unclaimable(db: Db, h: string)
    requires h in Issued(db) && Issued(db)[h].usedAt.Some?
    ensures forall now :: !Claimable(db.invitations, h, now)
  {
  }

  lemma UsedStep(db: Db, a: Action, h: string)
    requires Inv(db) && h in Issued(db) && Issued(db)[h].usedAt.Some?
    ensures var db' := Step(db, a);
            && h in Issued(db') && Issued(db')[h] == Issued(db)[h]
            && (h in db.invitations && h !in db'.invitations ==> a.Reap? && db.invitations[h].usedAt.value < a.now - 90 * DAY)
  {
    hide Inv, Step, Issued;
    if a.Commit? {
      UsedCommit(db, a, h);
    } else if a.Invite? || a.RevokeInvitation? || a.Reap? {
      UsedTableStep(db, a, h);
    } else {
      TablesStay(db, a);
      SameIssued(db, Step(db, a));
    }
  }

  lemma SameIssued(db: Db, db': Db)
    requires db'.invitations == db.invitations && db'.reaped == db.reaped
    ensures Issued(db') == Issued(db)
  {
  }

  ghost predicate Kept(db: Db, db': Db, h: string)
    requires h in Issued(db)
  {
    h in Issued(db') && Issued(db')[h] == Issued(db)[h]
  }

  lemma UsedTableStep(db: Db, a: Action, h: string)
    requires h in Issued(db) && Issued(db)[h].usedAt.Some? && (a.Invite? || a.RevokeInvitation? || a.Reap?)
    ensures Kept(db, Step(db, a), h)
    ensures h in db.invitations && h !in Step(db, a).invitations ==> a.Reap? && db.invitations[h].usedAt.value < a.now - 90 * DAY
  {
    hide Issued, Kept, DoInvite, DoWithdraw, DoReap;
    if a.Invite? {
      UsedInvite(db, a, h);
    } else if a.Reap? {
      UsedReap(db, a.now, h);
    } else {
      UsedWithdraw(db, a.id, a.tenant, h);
    }
  }

  lemma UsedInvite(db: Db, a: Action, h: string)
    requires h in Issued(db) && a.Invite?
    ensures var db' := DoInvite(db, a.hash, a.id, a.tenant, a.expires); Kept(db, db', h) && (h in db.invitations ==> h in db'.invitations)
  {
  }

  lemma UsedWithdraw(db: Db, id: string, tenant: string, h: string)
    requires h in Issued(db) && Issued(db)[h].usedAt.Some?
    ensures var db' := DoWithdraw(db, id, tenant); Kept(db, db', h) && (h in db.invitations ==> h in db'.invitations)
  {
  }

  lemma UsedReap(db: Db, now: int, h: string)
    requires h in Issued(db) && Issued(db)[h].usedAt.Some?
    ensures Kept(db, DoReap(db, now), h)
    ensures h in db.invitations && h !in DoReap(db, now).invitations ==> db.invitations[h].usedAt.value < now - 90 * DAY
  {
  }

  lemma TablesStay(db: Db, a: Action)
    requires !a.Commit? && !a.Invite? && !a.RevokeInvitation? && !a.Reap?
    ensures Step(db, a).invitations == db.invitations && Step(db, a).reaped == db.reaped
  {
    hide KeyRefused, KeyWaits, KeyClash, Claimable, Reaped, Withdrawn, Claimed, Issued, ClassifyMiss, DoInsert, DoClaim;
    if a.InsertKey? && a.tx in db.txs {
      InsertStays(db, a.tx);
    } else if a.Claim? && a.tx in db.txs {
      ClaimStays(db, a.tx);
    }
  }

  lemma InsertStays(db: Db, tx: nat)
    requires tx in db.txs
    ensures DoInsert(db, tx).invitations == db.invitations && DoInsert(db, tx).reaped == db.reaped
  {
    hide KeyRefused, KeyWaits;
  }

  lemma ClaimStays(db: Db, tx: nat)
    requires tx in db.txs
    ensures DoClaim(db, tx).invitations == db.invitations && DoClaim(db, tx).reaped == db.reaped
  {
    hide Claimable, SetPhase;
    PhaseStays(db, tx);
  }

  lemma PhaseStays(db: Db, tx: nat)
    requires tx in db.txs
    ensures forall phase :: SetPhase(db, tx, phase).invitations == db.invitations && SetPhase(db, tx, phase).reaped == db.reaped
  {
  }

  lemma UsedCommit(db: Db, a: Action, h: string)
    requires Inv(db) && h in Issued(db) && Issued(db)[h].usedAt.Some? && a.Commit?
    ensures var db' := Step(db, a);
            h in Issued(db') && Issued(db')[h] == Issued(db)[h] && (h in db.invitations ==> h in db'.invitations)
  {
    hide Issued, InvitationOk, KeyOk, OutcomeOk, KeysApart;
    if a.tx in db.txs && db.txs[a.tx].phase.TokenClaimed? {
      assert TxOk(db, a.tx);
      IssuedClaim(db, a.tx, a.acked);
    }
  }

  lemma RunFive(db: Db, a: Action, b: Action, c: Action, d: Action, e: Action)
    ensures Run(db, [a, b, c, d, e]) == Step(Step(Step(Step(Step(db, a), b), c), d), e)
  {
    hide Step;
    assert [a, b, c, d, e][..4] == [a, b, c, d] && [a, b, c, d][..3] == [a, b, c] && [a, b, c][..2] == [a, b] && [a, b][..1] == [a];
    assert Run(db, [a]) == Step(Run(db, []), a);
    assert Run(db, [a, b]) == Step(Run(db, [a]), b);
    assert Run(db, [a, b, c]) == Step(Run(db, [a, b]), c);
    assert Run(db, [a, b, c, d]) == Step(Run(db, [a, b, c]), d);
  }

  lemma SoloInsert(db: Db, tx: nat, hash: string, key: ApiKey, now: int)
    requires db.txs == map[] && db.locks == map[] && tx !in db.outcomes
    ensures Step(Step(db, Begin(tx, hash, key, now)), InsertKey(tx))
            == if KeyRefused(db.keys, key) then db.(outcomes := db.outcomes[tx := Refused(NotFound)])
               else db.(txs := map[tx := Tx(hash, key, now, KeyInserted)])
  {
    hide KeyRefused;
    assert Step(db, Begin(tx, hash, key, now)) == db.(txs := map[tx := Tx(hash, key, now, Begun)]);
  }

  lemma SoloClaim(db: Db, tx: nat, hash: string, key: ApiKey, now: int)
    requires db.txs == map[] && db.locks == map[]
    ensures Step(db.(txs := map[tx := Tx(hash, key, now, KeyInserted)]), Claim(tx))
            == if Claimable(db.invitations, hash, now) then
                 db.(txs := map[tx := Tx(hash, key, now, TokenClaimed)], locks := map[hash := tx])
               else db.(txs := map[tx := Tx(hash, key, now, Missed)])
  {
    hide Claimable;
  }

  lemma SoloClassify(db: Db, tx: nat, hash: string, key: ApiKey, now: int)
    requires db.txs == map[] && db.locks == map[]
    ensures Step(db.(txs := map[tx := Tx(hash, key, now, Missed)]), Classify(tx))
            == db.(outcomes := db.outcomes[tx := Refused(ClassifyMiss(db.invitations, hash))])
    ensures var d := db.(txs := map[tx := Tx(hash, key, now, TokenClaimed)], locks := map[hash := tx]); Step(d, Classify(tx)) == d
  {
    hide ClassifyMiss;
  }

  lemma SoloCommit(db: Db, tx: nat, hash: string, key: ApiKey, now: int)
    requires db.txs == map[] && db.locks == map[] && hash in db.invitations
    ensures Step(db.(txs := map[tx := Tx(hash, key, now, TokenClaimed)], locks := map[hash := tx]), Commit(tx, true))
            == db.(invitations := Claimed(db.invitations, hash, key.id, now), keys := db.keys[key.id := key],
                   minted := db.minted[key.id := tx], outcomes := db.outcomes[tx := Granted(hash)])
  {
  }

  lemma NoSuchTx(db: Db, tx: nat)
    requires tx !in db.txs
    ensures Step(db, Claim(tx)) == Step(db, Classify(tx)) == Step(db, Commit(tx, true)) == db
  {
  }

  /** Left alone, the steps of one redemption do what the uninterrupted one does, and tell the caller the same. */
  lemma SoloRedemption(db: Db, tx: nat, hash: string, key: ApiKey, now: int)
    requires db.txs == map[] && db.locks == map[] && tx !in db.outcomes
    ensures var (r, invitations, keys) := Redeemed(db.invitations, db.keys, hash, key, now);
            Run(db, [Begin(tx, hash, key, now), InsertKey(tx), Claim(tx), Classify(tx), Commit(tx, true)])
            == db.(invitations := invitations, keys := keys,
                   minted := if r.Ok? then db.minted[key.id := tx] else db.minted,
                   outcomes := db.outcomes[tx := if r.Ok? then Granted(hash) else Refused(r.error)])
  {
    hide KeyRefused, Run, Step, ClassifyMiss, Claimable, Claimed, Issued;
    RunFive(db, Begin(tx, hash, key, now), InsertKey(tx), Claim(tx), Classify(tx), Commit(tx, true));
    SoloInsert(db, tx, hash, key, now);
    if KeyRefused(db.keys, key) {
      NoSuchTx(db.(outcomes := db.outcomes[tx := Refused(NotFound)]), tx);
    } else {
      SoloClaims(db, tx, hash, key, now);
    }
  }

  lemma SoloClaims(db: Db, tx: nat, hash: string, key: ApiKey, now: int)
    requires db.txs == map[] && db.locks == map[] && tx !in db.outcomes && !KeyRefused(db.keys, key)
    ensures var (r, invitations, keys) := Redeemed(db.invitations, db.keys, hash, key, now);
            var inserted := db.(txs := map[tx := Tx(hash, key, now, KeyInserted)]);
            Step(Step(Step(inserted, Claim(tx)), Classify(tx)), Commit(tx, true))
            == db.(invitations := invitations, keys := keys,
                   minted := if r.Ok? then db.minted[key.id := tx] else db.minted,
                   outcomes := db.outcomes[tx := if r.Ok? then Granted(hash) else Refused(r.error)])
  {
    hide KeyRefused, Step, ClassifyMiss, Issued;
    SoloClaim(db, tx, hash, key, now);
    SoloClassify(db, tx, hash, key, now);
    if Claimable(db.invitations, hash, now) {
      SoloCommit(db, tx, hash, key, now);
    } else {
      NoSuchTx(db.(outcomes := db.outcomes[tx := Refused(ClassifyMiss(db.invitations, hash))]), tx);
    }
  }
}
