/**
 Appending to the audit table: what the columns keep of an event, one append as a
 transaction, and any number of appenders interleaved under the per-tenant lock.
 */
module AuditWriters {
  import opened Wrappers
  import opened Envelope
  import opened AuditMessage
  import opened AuditChain

  /** How three columns change what is written to them: `inet` may refuse, the others normalise. */
  datatype Columns = Columns(inet: string -> Option<string>, json: string -> string, instant: string -> string)

  /** The service: MAC, per-tenant key derivation, the lock's hash of a tenant id, the table's columns. */
  datatype Service = Service(mac: Mac, keyFor: string -> Key, lockKey: string -> int, columns: Columns)

  datatype AppendError = InvalidTenant | Database

  /** A stored record as a query returns it, and the event it was written from. */
  datatype Row = Row(record: Record, event: Record)

  // ---------------------------------------------------------------------
  // Columns
  // ---------------------------------------------------------------------

  function TrimLeft(s: string): (t: string)
    ensures |t| <= |s| && t == s[|s| - |t|..] && Blank(s[..|s| - |t|]) && (t != [] ==> !IsSpace(t[0]))
  {
    if s != [] && IsSpace(s[0]) then TrimLeft(s[1..]) else s
  }

  function TrimRight(s: string): (t: string)
    ensures t <= s && Blank(s[|t|..]) && (t != [] ==> !IsSpace(t[|t| - 1]))
  {
    if s != [] && IsSpace(s[|s| - 1]) then TrimRight(s[..|s| - 1]) else s
  }

  function Trim(s: string): (t: string) { TrimRight(TrimLeft(s)) }

  /** Trimming keeps a stretch of the text that neither starts nor ends with white space, and drops only white space. */
  lemma TrimKeepsMiddle(s: string) returns (i: nat, j: nat)
    ensures i <= j <= |s| && Trim(s) == s[i..j] && Blank(s[..i]) && Blank(s[j..])
    ensures i < j ==> !IsSpace(s[i]) && !IsSpace(s[j - 1])
  {
    hide IsSpace, Blank;
    var left := TrimLeft(s);
    i := |s| - |left|;
    j := i + |Trim(s)|;
    assert left[|Trim(s)|..] == s[j..];
  }

  /** `client_ip_or_null` and back: an absent address is NULL, and NULL reads as the empty text. */
  function ClientIpColumn(c: Columns, ip: string): (r: Option<string>) {
    if Trim(ip) == "" then Some("") else c.inet(Trim(ip))
  }

  predicate AnyNul(texts: seq<string>) { exists i | 0 <= i < |texts| :: NUL in texts[i] }

  /** What a query returns for an event, or nothing when the INSERT is refused: text columns cannot hold NUL. */
  function ReadBack(c: Columns, e: Record): (r: Option<Record>) {
    var tenant, ip := ParseUuid(e.tenant), ClientIpColumn(c, e.clientIp);
    if tenant.None? || ip.None? || AnyNul(Texts(e)) then None
    else Some(e.(tenant := tenant.value, clientIp := ip.value, timestamp := c.instant(e.timestamp), details := c.json(e.details)))
  }

  /** Every column returns what was written. */
  predicate RoundTrips(c: Columns, e: Record) {
    && CanonicalUuid(e.tenant) && ClientIpColumn(c, e.clientIp) == Some(e.clientIp)
    && c.instant(e.timestamp) == e.timestamp && c.json(e.details) == e.details
  }

  /** The row for an event at a position. The signature covers the event as supplied, not as stored. */
  function NewRow(s: Service, e: Record, seqNo: int, prevHash: string): (r: Option<Row>) {
    var stored := ReadBack(s.columns, e);
    if stored.None? then None
    else
      var signature := Sign(s.mac, s.keyFor(e.tenant), e, seqNo, prevHash);
      Some(Row(stored.value.(seqNo := seqNo, prevHash := prevHash, signature := signature), e))
  }

  ghost predicate KeyedCollision(mac: Mac, k: Key, m: string, k2: Key, m2: string) {
    (k, m) != (k2, m2) && mac(k, m) == mac(k2, m2)
  }

  lemma ReadBackSame(c: Columns, e: Record)
    requires ReadBack(c, e).Some?
    ensures ReadBack(c, e) == Some(e) <==> RoundTrips(c, e)
  {
    hide CanonicalUuid, ClientIpColumn, AnyNul;
    ParseUuidFixes(e.tenant);
  }

  /**
   A row verifies when it is read back exactly when every column returned what was written and the reader names the
   tenant as the writer did, collisions of the MAC aside: an uppercase tenant id, an address that `inet` prints with
   its mask, or a timestamp finer than the column, makes an untouched row look tampered with.
   */
  lemma ReadBackVerifiesIff(s: Service, e: Record, seqNo: int, prevHash: string, asked: string)
    requires NewRow(s, e, seqNo, prevHash).Some? && Typed(e, prevHash)
    ensures var r := NewRow(s, e, seqNo, prevHash).value.record;
            var ok := VerifySignature(s.mac, r, s.keyFor(asked), r.signature);
            && (RoundTrips(s.columns, e) && s.keyFor(asked) == s.keyFor(e.tenant) ==> ok)
            && (ok ==> (RoundTrips(s.columns, e) && s.keyFor(asked) == s.keyFor(e.tenant))
                       || KeyedCollision(s.mac, s.keyFor(asked), Message(r, seqNo, prevHash), s.keyFor(e.tenant), Message(e, seqNo, prevHash)))
  {
    hide HexDecode, HexEncode, Lower, Message, Fields, ReadBack, RoundTrips;
    var r := NewRow(s, e, seqNo, prevHash).value.record;
    ReadBackSame(s.columns, e);
    var stored := ReadBack(s.columns, e).value;
    LowerEncoded(s.mac(s.keyFor(e.tenant), Message(e, seqNo, prevHash)));
    HexDecodeIff(r.signature, s.mac(s.keyFor(e.tenant), Message(e, seqNo, prevHash)));
    SameProtected(r, stored, seqNo, prevHash);
    if Message(r, seqNo, prevHash) == Message(e, seqNo, prevHash) {
      StoredTextsNulFree(s.columns, e);
      MessageInjective(e, seqNo, prevHash, r, seqNo, prevHash);
      StoredPosition(s.columns, e);
    }
  }

  /** The message does not cover the position and signature columns twice. */
  lemma SameProtected(r: Record, stored: Record, seqNo: int, prevHash: string)
    requires r == stored.(seqNo := r.seqNo, prevHash := r.prevHash, signature := r.signature)
    ensures Message(r, seqNo, prevHash) == Message(stored, seqNo, prevHash)
  {
    assert Fields(r, seqNo, prevHash) == Fields(stored, seqNo, prevHash);
  }

  lemma StoredTextsNulFree(c: Columns, e: Record)
    requires ReadBack(c, e).Some?
    ensures NulFree(Texts(e))
  {
  }

  lemma StoredPosition(c: Columns, e: Record)
    requires ReadBack(c, e).Some?
    ensures var r := ReadBack(c, e).value; r.seqNo == e.seqNo && r.prevHash == e.prevHash && r.signature == e.signature
  {
  }

  // ---------------------------------------------------------------------
  // One append
  // ---------------------------------------------------------------------

  /** The records of one tenant, in commit order. */
  function Chain(rows: seq<Row>, tenant: string): (log: seq<Record>) {
    if rows == [] then []
    else
      var n := |rows| - 1;
      Chain(rows[..n], tenant) + if rows[n].record.tenant == tenant then [rows[n].record] else []
  }

  /** `audit_chain_tip`: the highest number of the tenant and its signature. */
  function Tip(rows: seq<Row>, tenant: string): (tip: Option<(int, string)>) {
    if rows == [] then None
    else
      var r, rest := rows[|rows| - 1].record, Tip(rows[..|rows| - 1], tenant);
      if r.tenant != tenant then rest
      else if rest.Some? && rest.value.0 > r.seqNo then rest
      else Some((r.seqNo, r.signature))
  }

  function NextPosition(rows: seq<Row>, tenant: string): (p: (int, string)) {
    var tip := Tip(rows, tenant);
    if tip.None? then (1, "") else (tip.value.0 + 1, tip.value.1)
  }

  /** On an intact chain, the next position follows the newest record. */
  lemma {:induction false} TipIsNewest(rows: seq<Row>, tenant: string)
    requires Linked(Chain(rows, tenant))
    ensures Tip(rows, tenant) == if Chain(rows, tenant) == [] then None
                                 else Some((|Chain(rows, tenant)|, TipSignature(Chain(rows, tenant))))
    ensures NextPosition(rows, tenant) == (|Chain(rows, tenant)| + 1, TipSignature(Chain(rows, tenant)))
  {
    hide Linked;
    if rows != [] {
      var n := |rows| - 1;
      var log, before := Chain(rows, tenant), Chain(rows[..n], tenant);
      assert before == log[..|before|];
      LinkedStart(log, |before|);
      TipIsNewest(rows[..n], tenant);
      if rows[n].record.tenant == tenant { LinkedNumber(log, |before|); }
    }
  }

  lemma LinkedNumber(log: seq<Record>, i: nat)
    requires Linked(log) && i < |log|
    ensures log[i].seqNo == i + 1
  {
  }

  /** `insert_event_chained`, run without interruption. */
  function Append(s: Service, rows: seq<Row>, e: Record): (r: (Result<(int, string), AppendError>, seq<Row>)) {
    var tenant := ParseUuid(e.tenant);
    if tenant.None? then (Err(InvalidTenant), rows)
    else
      var (seqNo, prevHash) := NextPosition(rows, tenant.value);
      var row := NewRow(s, e, seqNo, prevHash);
      if row.None? then (Err(Database), rows) else (Ok((seqNo, prevHash)), rows + [row.value])
  }

  lemma TrimBlank(s: string)
    ensures Trim(s) == "" <==> Blank(s)
  {
    hide Trim;
    var i, j := TrimKeepsMiddle(s);
    if Trim(s) == "" {
      assert s == s[..i] + s[j..];
    } else {
      assert !IsSpace(s[i]);
    }
  }

  /** What the client address column gives back: nothing for a blank address, else what `inet` makes of it trimmed. */
  ghost predicate AddressKept(c: Columns, ip: string, kept: string) {
    if Blank(ip) then kept == "" else c.inet(Trim(ip)) == Some(kept)
  }

  /** An event can be stored: its tenant is a UUID, no text of it holds NUL, and its address is blank or an address. */
  ghost predicate Storable(c: Columns, e: Record) {
    && ParseUuid(e.tenant).Some?
    && NUL !in e.tenant && NUL !in e.principal && NUL !in e.action && NUL !in e.resource
    && NUL !in e.outcome && NUL !in e.outcomeDetail && NUL !in e.clientIp
    && (Blank(e.clientIp) || c.inet(Trim(e.clientIp)).Some?)
  }

  /** What is stored of an event: its own fields, as the columns give them back, the answered position, and a signature
      over the event as supplied. */
  ghost predicate Stores(s: Service, e: Record, position: (int, string), row: Row) {
    var r, c := row.record, s.columns;
    && row.event == e && (r.seqNo, r.prevHash) == position
    && Some(r.tenant) == ParseUuid(e.tenant) && AddressKept(c, e.clientIp, r.clientIp)
    && r.timestamp == c.instant(e.timestamp) && r.details == c.json(e.details)
    && r.id == e.id && r.principal == e.principal && r.action == e.action && r.resource == e.resource
    && r.outcome == e.outcome && r.outcomeDetail == e.outcomeDetail
    && r.signature == Sign(s.mac, s.keyFor(e.tenant), e, position.0, position.1)
  }

  /**
   When an append succeeds, and what it stores. A tenant that is no UUID is refused as invalid, anything else that a
   column cannot hold by the database; a blank address is no obstacle. On an intact chain the answered position is the
   one after the newest record.
   */
  lemma AppendIff(s: Service, rows: seq<Row>, e: Record)
    ensures var (r, rows') := Append(s, rows, e);
            && (r.Ok? <==> Storable(s.columns, e))
            && (r.Err? ==> rows' == rows && r.error == if ParseUuid(e.tenant).None? then InvalidTenant else Database)
            && (r.Ok? ==> |rows'| == |rows| + 1 && rows <= rows' && Stores(s, e, r.value, rows'[|rows|]))
            && (r.Ok? ==> var log := Chain(rows, ParseUuid(e.tenant).value);
                          Linked(log) ==> r.value == (|log| + 1, TipSignature(log)))
  {
    hide ParseUuid, NextPosition, Chain, Linked, NewRow, Storable, Stores;
    if ParseUuid(e.tenant).None? {
      NotStorable(s.columns, e);
    } else {
      var tenant := ParseUuid(e.tenant).value;
      RowStores(s, e, NextPosition(rows, tenant).0, NextPosition(rows, tenant).1);
      if Linked(Chain(rows, tenant)) { TipIsNewest(rows, tenant); }
    }
  }

  lemma NotStorable(c: Columns, e: Record)
    requires ParseUuid(e.tenant).None?
    ensures !Storable(c, e)
  {
  }

  lemma TextsAre(e: Record)
    ensures AnyNul(Texts(e)) <==>
              || NUL in e.tenant || NUL in e.principal || NUL in e.action || NUL in e.resource
              || NUL in e.outcome || NUL in e.outcomeDetail || NUL in e.clientIp
  {
    var t := Texts(e);
    assert t[0] == e.tenant && t[1] == e.principal && t[2] == e.action && t[3] == e.resource;
    assert t[4] == e.outcome && t[5] == e.outcomeDetail && t[6] == e.clientIp;
  }

  class AuditTable {
    var rows: seq<Row>

    constructor ()
      ensures rows == []
    {
      rows := [];
    }

    method ReadTip(tenant: string) returns (tip: Option<(int, string)>)
      ensures tip == Tip(rows, tenant)
    {
      tip := None;
      for i := 0 to |rows|
        invariant tip == Tip(rows[..i], tenant)
      {
        assert rows[..i + 1][..i] == rows[..i];
        var r := rows[i].record;
        if r.tenant == tenant && (tip.None? || tip.value.0 <= r.seqNo) {
          tip := Some((r.seqNo, r.signature));
        }
      }
      assert rows[..|rows|] == rows;
    }

    method InsertEventChained(s: Service, e: Record) returns (r: Result<(int, string), AppendError>)
      modifies this
      ensures (r, rows) == Append(s, old(rows), e)
      ensures r.Ok? <==> Storable(s.columns, e)
      ensures if r.Ok? then |rows| == |old(rows)| + 1 && old(rows) <= rows && Stores(s, e, r.value, rows[|rows| - 1])
              else rows == old(rows)
    {
      hide ParseUuid, Storable, Stores, Sign, ReadBack, Tip;
      AppendIff(s, rows, e);
      var tenant := ParseUuid(e.tenant);
      if tenant.None? {
        return Err(InvalidTenant);
      }
      var tip := ReadTip(tenant.value);
      var prevSeq, prevHash := 0, "";
      if tip.Some? {
        prevSeq, prevHash := tip.value.0, tip.value.1;
      }
      var seqNo := prevSeq + 1;
      var signature := Sign(s.mac, s.keyFor(e.tenant), e, seqNo, prevHash);
      var stored := ReadBack(s.columns, e);
      if stored.None? {
        return Err(Database);
      }
      rows := rows + [Row(stored.value.(seqNo := seqNo, prevHash := prevHash, signature := signature), e)];
      r := Ok((seqNo, prevHash));
    }
  }

  // ---------------------------------------------------------------------
  // Many appenders
  // ---------------------------------------------------------------------

  datatype Phase = Begun | Locked | TipRead(seqNo: int, prevHash: string) | Inserted(row: Row)

  datatype Tx = Tx(event: Record, tenant: string, phase: Phase)

  /** Committed rows, advisory locks and the transactions that hold them, open transactions. */
  datatype Db = Db(rows: seq<Row>, locks: map<int, nat>, txs: map<nat, Tx>)

  datatype Action =
    | Begin(tx: nat, event: Record)
    | Lock(tx: nat)
    | ReadTip(tx: nat)
    | InsertRow(tx: nat)
    | Commit(tx: nat)
    | Abort(tx: nat)

  function Start(): Db { Db([], map[], map[]) }

  /** The end of a transaction, either way: its locks go with it. */
  function Close(db: Db, tx: nat): Db {
    db.(locks := map k | k in db.locks && db.locks[k] != tx :: db.locks[k], txs := db.txs - {tx})
  }

  function SetPhase(db: Db, tx: nat, phase: Phase): Db
    requires tx in db.txs
  {
    db.(txs := db.txs[tx := db.txs[tx].(phase := phase)])
  }

  function Step(s: Service, db: Db, a: Action): Db {
    if a.Begin? then
      var tenant := ParseUuid(a.event.tenant);
      if a.tx in db.txs || tenant.None? then db else db.(txs := db.txs[a.tx := Tx(a.event, tenant.value, Begun)])
    else if a.tx !in db.txs then db
    else
      var t := db.txs[a.tx];
      match a
      case Lock(tx) =>
        if t.phase.Begun? && s.lockKey(t.tenant) !in db.locks then
          SetPhase(db, tx, Locked).(locks := db.locks[s.lockKey(t.tenant) := tx])
        else db
      case ReadTip(tx) =>
        if t.phase.Locked? then
          SetPhase(db, tx, TipRead(NextPosition(db.rows, t.tenant).0, NextPosition(db.rows, t.tenant).1))
        else db
      case InsertRow(tx) =>
        if t.phase.TipRead? then
          var row := NewRow(s, t.event, t.phase.seqNo, t.phase.prevHash);
          if row.None? then Close(db, tx) else SetPhase(db, tx, Inserted(row.value))
        else db
      case Commit(tx) => if t.phase.Inserted? then Close(db, tx).(rows := db.rows + [t.phase.row]) else db
      case Abort(tx) => Close(db, tx)
  }

  function Run(s: Service, db: Db, actions: seq<Action>): Db {
    if actions == [] then db else Step(s, Run(s, db, actions[..|actions| - 1]), actions[|actions| - 1])
  }

  // ---------------------------------------------------------------------
  // What every step keeps
  // ---------------------------------------------------------------------

  /** A row was signed for the position it is at. */
  ghost predicate RowOk(s: Service, r: Row) {
    NewRow(s, r.event, r.record.seqNo, r.record.prevHash) == Some(r)
  }

  /** A transaction past its lock holds it, and what it read is still the tip. */
  ghost predicate TxOk(s: Service, db: Db, tx: nat)
    requires tx in db.txs
  {
    var t := db.txs[tx];
    && ParseUuid(t.event.tenant) == Some(t.tenant)
    && (!t.phase.Begun? ==> s.lockKey(t.tenant) in db.locks && db.locks[s.lockKey(t.tenant)] == tx)
    && (t.phase.TipRead? ==> (t.phase.seqNo, t.phase.prevHash) == NextPosition(db.rows, t.tenant))
    && (t.phase.Inserted? ==>
          && (t.phase.row.record.seqNo, t.phase.row.record.prevHash) == NextPosition(db.rows, t.tenant)
          && t.phase.row.record.tenant == t.tenant && RowOk(s, t.phase.row))
  }

  ghost predicate Inv(s: Service, db: Db) {
    && (forall t :: Linked(Chain(db.rows, t)))
    && (forall r | r in db.rows :: RowOk(s, r))
    && (forall tx | tx in db.txs :: TxOk(s, db, tx))
  }

  lemma RowTenant(s: Service, e: Record, seqNo: int, prevHash: string)
    requires NewRow(s, e, seqNo, prevHash).Some?
    ensures var row := NewRow(s, e, seqNo, prevHash).value;
            && ParseUuid(e.tenant) == Some(row.record.tenant) && row.event == e
            && row.record.seqNo == seqNo && row.record.prevHash == prevHash
            && row.record.signature == Sign(s.mac, s.keyFor(e.tenant), e, seqNo, prevHash)
  {
    hide ParseUuid, ClientIpColumn, Sign;
  }

  lemma ChainAppend(rows: seq<Row>, row: Row, tenant: string)
    ensures Chain(rows + [row], tenant) == if row.record.tenant == tenant then Chain(rows, tenant) + [row.record] else Chain(rows, tenant)
    ensures row.record.tenant != tenant ==> NextPosition(rows + [row], tenant) == NextPosition(rows, tenant)
  {
    assert (rows + [row])[..|rows|] == rows;
  }

  /** A commit extends its own tenant's chain; every other transaction's reading survives, for it has another tenant. */
  lemma CommitKeeps(s: Service, db: Db, tx: nat)
    requires Inv(s, db) && tx in db.txs && db.txs[tx].phase.Inserted?
    ensures Inv(s, Step(s, db, Commit(tx)))
  {
    hide ParseUuid, NextPosition, Linked, Chain, RowOk;
    var db' := Step(s, db, Commit(tx));
    var t := db.txs[tx];
    var row := t.phase.row;
    assert TxOk(s, db, tx);
    forall u ensures Linked(Chain(db'.rows, u)) {
      ChainAppend(db.rows, row, u);
      if u == t.tenant {
        TipIsNewest(db.rows, u);
        LinkedAppend(Chain(db.rows, u), row.record);
      }
    }
    forall tx' | tx' in db'.txs ensures TxOk(s, db', tx') {
      var t' := db'.txs[tx'];
      assert TxOk(s, db, tx');
      ChainAppend(db.rows, row, t'.tenant);
    }
  }

  lemma StepKeeps(s: Service, db: Db, a: Action)
    requires Inv(s, db)
    ensures Inv(s, Step(s, db, a))
  {
    hide ParseUuid, NextPosition, Linked, Chain, NewRow;
    var db' := Step(s, db, a);
    if a.Commit? && a.tx in db.txs && db.txs[a.tx].phase.Inserted? {
      CommitKeeps(s, db, a.tx);
    } else {
      assert db'.rows == db.rows;
      forall tx | tx in db'.txs ensures TxOk(s, db', tx) {
        if tx in db.txs {
          assert TxOk(s, db, tx);
          if a.InsertRow? && tx == a.tx && db.txs[tx].phase.TipRead? {
            RowTenant(s, db.txs[tx].event, db.txs[tx].phase.seqNo, db.txs[tx].phase.prevHash);
          }
        }
      }
    }
  }

  lemma {:induction false} RunKeeps(s: Service, actions: seq<Action>)
    ensures Inv(s, Run(s, Start(), actions))
  {
    hide Step;
    if actions != [] {
      RunKeeps(s, actions[..|actions| - 1]);
      StepKeeps(s, Run(s, Start(), actions[..|actions| - 1]), actions[|actions| - 1]);
    }
  }

  // ---------------------------------------------------------------------
  // Theorems
  // ---------------------------------------------------------------------

  lemma {:induction false} ChainRow(rows: seq<Row>, tenant: string, i: nat) returns (r: Row)
    requires i < |Chain(rows, tenant)|
    ensures r in rows && r.record == Chain(rows, tenant)[i] && r.record.tenant == tenant
  {
    var n := |rows| - 1;
    if i < |Chain(rows[..n], tenant)| {
      r := ChainRow(rows[..n], tenant, i);
    } else {
      r := rows[n];
    }
  }

  /**
   For every interleaving of any number of appenders over any number of tenants, aborts included: each tenant's
   committed chain is numbered 1 to n without gap or fork, names each predecessor, and each record was signed, under
   its tenant's key, for the position it is at.
   */
  lemma ChainsNeverFork(s: Service, actions: seq<Action>, tenant: string)
    ensures var rows := Run(s, Start(), actions).rows;
            && Linked(Chain(rows, tenant))
            && forall r | r in rows ::
                 && ParseUuid(r.event.tenant) == Some(r.record.tenant)
                 && r.record.signature == Sign(s.mac, s.keyFor(r.event.tenant), r.event, r.record.seqNo, r.record.prevHash)
  {
    hide Step, Linked, Chain, ParseUuid, Sign, NewRow, Run;
    RunKeeps(s, actions);
    var rows := Run(s, Start(), actions).rows;
    forall r | r in rows
      ensures ParseUuid(r.event.tenant) == Some(r.record.tenant)
      ensures r.record.signature == Sign(s.mac, s.keyFor(r.event.tenant), r.event, r.record.seqNo, r.record.prevHash)
    {
      assert RowOk(s, r);
      RowTenant(s, r.event, r.record.seqNo, r.record.prevHash);
    }
  }

  /** Every committed row keeps what its event said, at the position it is at, and only storable events have one. */
  lemma CommittedRowsStore(s: Service, actions: seq<Action>, r: Row)
    requires r in Run(s, Start(), actions).rows
    ensures Storable(s.columns, r.event) && Stores(s, r.event, (r.record.seqNo, r.record.prevHash), r)
  {
    hide Step, Run, NewRow, Storable, Stores, Chain, Linked;
    RunKeeps(s, actions);
    assert RowOk(s, r);
    RowStores(s, r.event, r.record.seqNo, r.record.prevHash);
  }

  lemma RowStores(s: Service, e: Record, seqNo: int, prevHash: string)
    ensures NewRow(s, e, seqNo, prevHash).Some? <==> Storable(s.columns, e)
    ensures NewRow(s, e, seqNo, prevHash).Some? ==> Stores(s, e, (seqNo, prevHash), NewRow(s, e, seqNo, prevHash).value)
  {
    hide ParseUuid, Trim, Blank, Sign;
    TrimBlank(e.clientIp);
    TextsAre(e);
  }

  /** Where the tenant's columns round-trip, every record of its committed chain verifies where it stands. */
  lemma CommittedChainsVerify(s: Service, actions: seq<Action>, tenant: string)
    requires var rows := Run(s, Start(), actions).rows;
             forall r | r in rows && r.record.tenant == tenant :: RoundTrips(s.columns, r.event)
    ensures Verified(s.mac, s.keyFor(tenant), Chain(Run(s, Start(), actions).rows, tenant))
  {
    hide Step, Run, Linked, Chain, ParseUuid, Sign, VerifySignature, RoundTrips, NewRow;
    RunKeeps(s, actions);
    var rows := Run(s, Start(), actions).rows;
    var log := Chain(rows, tenant);
    forall i | 0 <= i < |log| ensures VerifySignature(s.mac, log[i], s.keyFor(tenant), log[i].signature) {
      var r := ChainRow(rows, tenant, i);
      RowTenant(s, r.event, r.record.seqNo, r.record.prevHash);
      RoundTripVerifies(s, r.event, r.record.seqNo, r.record.prevHash);
      RoundTripTenant(s.columns, r.event, tenant);
    }
  }

  lemma RoundTripTenant(c: Columns, e: Record, tenant: string)
    requires RoundTrips(c, e) && ParseUuid(e.tenant) == Some(tenant)
    ensures e.tenant == tenant
  {
    hide CanonicalUuid, ParseUuid;
    ParseUuidFixes(e.tenant);
  }

  lemma RoundTripVerifies(s: Service, e: Record, seqNo: int, prevHash: string)
    requires NewRow(s, e, seqNo, prevHash).Some? && RoundTrips(s.columns, e)
    ensures var r := NewRow(s, e, seqNo, prevHash).value.record; VerifySignature(s.mac, r, s.keyFor(e.tenant), r.signature)
  {
    hide Message, Lower, HexDecode, HexEncode, ReadBack, RoundTrips;
    var r := NewRow(s, e, seqNo, prevHash).value.record;
    ReadBackSame(s.columns, e);
    SameProtected(r, e, seqNo, prevHash);
    VerifyIff(s.mac, r, s.keyFor(e.tenant), r.signature);
  }

  /** Committed rows are never changed or removed by a later step. */
  lemma {:induction false} RowsOnlyGrow(s: Service, db: Db, actions: seq<Action>)
    ensures db.rows <= Run(s, db, actions).rows
  {
    hide NewRow, NextPosition, ParseUuid;
    if actions != [] {
      RowsOnlyGrow(s, db, actions[..|actions| - 1]);
    }
  }

  /** Left alone, the five steps of one append do what the uninterrupted append does. */
  lemma SoloAppend(s: Service, db: Db, tx: nat, e: Record)
    requires tx !in db.txs && db.locks == map[]
    ensures Run(s, db, [Begin(tx, e), Lock(tx), ReadTip(tx), InsertRow(tx), Commit(tx)])
            == db.(rows := Append(s, db.rows, e).1)
  {
    hide ParseUuid, NextPosition, NewRow, Run;
    var d1 := Step(s, db, Begin(tx, e));
    var d2 := Step(s, d1, Lock(tx));
    var d3 := Step(s, d2, ReadTip(tx));
    var d4 := Step(s, d3, InsertRow(tx));
    var d5 := Step(s, d4, Commit(tx));
    RunFive(s, db, Begin(tx, e), Lock(tx), ReadTip(tx), InsertRow(tx), Commit(tx));
    if ParseUuid(e.tenant).Some? {
      var t := Tx(e, ParseUuid(e.tenant).value, Begun);
      assert d2 == Db(db.rows, map[s.lockKey(t.tenant) := tx], db.txs[tx := t.(phase := Locked)]);
      CloseSolo(d2, db, tx, s.lockKey(t.tenant));
      CloseSolo(d4, db, tx, s.lockKey(t.tenant));
    }
  }

  lemma CloseSolo(d: Db, db: Db, tx: nat, k: int)
    ensures tx !in db.txs && db.locks == map[] && d.locks == map[k := tx] && d.txs - {tx} == db.txs ==>
              Close(d, tx).locks == db.locks && Close(d, tx).txs == db.txs
  {
  }

  lemma RunFive(s: Service, db: Db, a: Action, b: Action, c: Action, d: Action, e: Action)
    ensures Run(s, db, [a, b, c, d, e]) == Step(s, Step(s, Step(s, Step(s, Step(s, db, a), b), c), d), e)
  {
    hide Step;
    assert [a, b, c, d, e][..4] == [a, b, c, d] && [a, b, c, d][..3] == [a, b, c] && [a, b, c][..2] == [a, b] && [a, b][..1] == [a];
    assert Run(s, db, [a]) == Step(s, Run(s, db, []), a);
    assert Run(s, db, [a, b]) == Step(s, Run(s, db, [a]), b);
    assert Run(s, db, [a, b, c]) == Step(s, Run(s, db, [a, b]), c);
    assert Run(s, db, [a, b, c, d]) == Step(s, Run(s, db, [a, b, c]), d);
  }
}
