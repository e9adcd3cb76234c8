/**
 One key's recovery codes under concurrent transactions. A login spends codes in one
 UPDATE; a replacement may spend one as its proof, then deletes the old set and
 inserts the new. At READ COMMITTED each UPDATE and DELETE picks its rows from what is
 committed when it starts, and then takes them one by one, waiting for rows that
 another transaction holds and passing over rows that are gone or spent by then.
 */
module RecoveryRuns {
  import opened Wrappers
  import Mfa

  datatype Code = Code(hash: string, used: bool)

  /**
   One transaction: the rows its current statement has still to visit, the rows it holds as spent or erased, the rows
   it inserted, and where the history stood when its DELETE began.
   */
  datatype Tx = Tx(todo: set<nat>, spent: set<nat>, erased: set<nat>, added: map<nat, string>, cleared: Option<nat>)

  datatype Event = Used | Replaced(since: nat, ids: set<nat>)

  /** Committed rows by row id, the open transactions, the next row id, and what committed, in order. */
  datatype Db = Db(rows: map<nat, Code>, txs: map<nat, Tx>, next: nat, history: seq<Event>)

  datatype Action =
    | Begin(tx: nat) | Spend(tx: nat, candidates: seq<string>) | Clear(tx: nat) | Visit(tx: nat, id: nat)
    | Insert(tx: nat, hash: string) | Commit(tx: nat) | Abort(tx: nat)

  function Start(): Db { Db(map[], map[], 0, []) }

  function Unused(rows: map<nat, Code>): set<nat> { set id | id in rows && !rows[id].used }

  function Matching(rows: map<nat, Code>, candidates: seq<string>): set<nat> {
    set id | id in rows && !rows[id].used && rows[id].hash in candidates
  }

  function Held(t: Tx): set<nat> { t.spent + t.erased }

  predicate HeldByOther(db: Db, tx: nat, id: nat) { exists u | u in db.txs :: u != tx && id in Held(db.txs[u]) }

  /** The UPDATE starts: it will visit the unused rows among the candidates. */
  function DoSpend(db: Db, tx: nat, candidates: seq<string>): Db
    requires tx in db.txs
  {
    var t := db.txs[tx];
    if t.todo != {} || t.spent != {} || t.cleared.Some? then db
    else db.(txs := db.txs[tx := t.(todo := Matching(db.rows, candidates))])
  }

  /** The DELETE starts: it will visit every committed row. */
  function DoClear(db: Db, tx: nat): Db
    requires tx in db.txs
  {
    var t := db.txs[tx];
    if t.todo != {} || t.cleared.Some? then db
    else db.(txs := db.txs[tx := t.(todo := db.rows.Keys, cleared := Some(|db.history|))])
  }

  /** A statement reaches one of its rows: it waits, passes over it, or takes it. */
  function DoVisit(db: Db, tx: nat, id: nat): Db
    requires tx in db.txs
  {
    var t := db.txs[tx];
    if id !in t.todo || HeldByOther(db, tx, id) then db
    else
      var rest := t.(todo := t.todo - {id});
      var visited :=
        if id !in db.rows then rest
        else if t.cleared.Some? then rest.(erased := t.erased + {id})
        else if db.rows[id].used then rest
        else rest.(spent := t.spent + {id});
      db.(txs := db.txs[tx := visited])
  }

  /** The unique index: a live row with the hash refuses it, an undecided one makes it wait. */
  predicate Refused(db: Db, tx: nat, hash: string)
    requires tx in db.txs
  {
    || (exists id | id in db.rows :: db.rows[id].hash == hash && id !in db.txs[tx].erased)
    || (exists id | id in db.txs[tx].added :: db.txs[tx].added[id] == hash)
  }

  predicate Undecided(db: Db, tx: nat, hash: string) {
    exists u | u in db.txs :: u != tx
      && ((exists id | id in db.txs[u].added :: db.txs[u].added[id] == hash)
          || (exists id | id in db.txs[u].erased && id in db.rows :: db.rows[id].hash == hash))
  }

  function DoInsert(db: Db, tx: nat, hash: string): Db
    requires tx in db.txs
  {
    var t := db.txs[tx];
    if t.cleared.None? || t.todo != {} || Undecided(db, tx, hash) then db
    else if Refused(db, tx, hash) then db.(txs := db.txs - {tx})
    else db.(txs := db.txs[tx := t.(added := t.added[db.next := hash])], next := db.next + 1)
  }

  function Written(rows: map<nat, Code>, t: Tx): map<nat, Code> {
    map id | id in (rows.Keys - t.erased) + t.added.Keys ::
      if id in t.added then Code(t.added[id], false) else rows[id].(used := rows[id].used || id in t.spent)
  }

  /** A transaction that spent a row is a use; one that cleared the set is a replacement; a proof by code is both. */
  function Events(t: Tx): seq<Event> {
    (if t.spent != {} then [Used] else []) + (if t.cleared.Some? then [Replaced(t.cleared.value, t.added.Keys)] else [])
  }

  function DoCommit(db: Db, tx: nat): Db
    requires tx in db.txs
  {
    var t := db.txs[tx];
    if t.todo != {} then db
    else Db(Written(db.rows, t), db.txs - {tx}, db.next, db.history + Events(t))
  }

  function Step(db: Db, a: Action): Db {
    if a.Begin? then
      if a.tx in db.txs then db else db.(txs := db.txs[a.tx := Tx({}, {}, {}, map[], None)])
    else if a.tx !in db.txs then db
    else
      match a
      case Begin(_) => db
      case Spend(tx, candidates) => DoSpend(db, tx, candidates)
      case Clear(tx) => DoClear(db, tx)
      case Visit(tx, id) => DoVisit(db, tx, id)
      case Insert(tx, hash) => DoInsert(db, tx, hash)
      case Commit(tx) => DoCommit(db, tx)
      case Abort(tx) => db.(txs := db.txs - {tx})
  }

  function Run(db: Db, actions: seq<Action>): Db {
    if actions == [] then db else Step(Run(db, actions[..|actions| - 1]), actions[|actions| - 1])
  }

  // ---------------------------------------------------------------------
  // What a history allows
  // ---------------------------------------------------------------------

  /** The uses since the last replacement. */
  function UsesSince(h: seq<Event>): nat {
    if h == [] || h[|h| - 1].Replaced? then 0 else UsesSince(h[..|h| - 1]) + 1
  }

  /** The rows inserted by the replacements committed from a moment on, and how many they are. */
  function Inserted(h: seq<Event>, since: nat): set<nat> {
    if |h| <= since then {}
    else Inserted(h[..|h| - 1], since) + if h[|h| - 1].Replaced? then h[|h| - 1].ids else {}
  }

  function InsertedCount(h: seq<Event>, since: nat): nat {
    if |h| <= since then 0
    else InsertedCount(h[..|h| - 1], since) + if h[|h| - 1].Replaced? then |h[|h| - 1].ids| else 0
  }

  /** The codes of the last replacement, and those of the replacements that committed while it was under way. */
  function Allowance(h: seq<Event>): nat {
    if h == [] then 0
    else
      var n := |h| - 1;
      if h[n].Replaced? then |h[n].ids| + InsertedCount(h[..n], h[n].since) else Allowance(h[..n])
  }

  lemma InsertedAppend(h: seq<Event>, e: Event, since: nat)
    requires since <= |h|
    ensures Inserted(h + [e], since) == Inserted(h, since) + if e.Replaced? then e.ids else {}
    ensures InsertedCount(h + [e], since) == InsertedCount(h, since) + if e.Replaced? then |e.ids| else 0
  {
    assert (h + [e])[..|h|] == h;
  }

  lemma {:induction false} CountBounds(h: seq<Event>, since: nat)
    ensures |Inserted(h, since)| <= InsertedCount(h, since)
  {
    if |h| > since {
      CountBounds(h[..|h| - 1], since);
    }
  }

  lemma LedgerAppend(h: seq<Event>, e: Event)
    ensures UsesSince(h + [e]) == if e.Replaced? then 0 else UsesSince(h) + 1
    ensures Allowance(h + [e]) == if e.Replaced? then |e.ids| + InsertedCount(h, e.since) else Allowance(h)
  {
    assert (h + [e])[..|h|] == h;
  }

  // ---------------------------------------------------------------------
  // What every step keeps
  // ---------------------------------------------------------------------

  /** A transaction holds committed rows, the spent ones unused; its own rows are not committed yet. */
  ghost predicate TxOk(db: Db, t: Tx) {
    && Held(t) <= db.rows.Keys && t.spent <= Unused(db.rows)
    && t.added.Keys !! db.rows.Keys && (forall id | id in t.added :: id < db.next)
    && (t.cleared.None? ==> t.erased == {} && t.added == map[])
    && (t.cleared.Some? ==> ClearOk(db, t, t.cleared.value))
  }

  /** What a DELETE did not visit was committed after it began, and it visits nothing of that. */
  ghost predicate ClearOk(db: Db, t: Tx, since: nat) {
    && since <= |db.history|
    && db.rows.Keys <= t.erased + t.todo + Inserted(db.history, since)
    && (t.erased + t.todo) !! Inserted(db.history, since)
    && (forall id | id in t.todo :: id < db.next)
    && (forall u | u in db.txs :: (t.erased + t.todo) !! db.txs[u].added.Keys)
  }

  ghost predicate Apart(db: Db) {
    forall u, v | u in db.txs && v in db.txs && u != v ::
      Held(db.txs[u]) !! Held(db.txs[v]) && db.txs[u].added.Keys !! db.txs[v].added.Keys
  }

  ghost predicate Inv(db: Db) {
    && (forall id | id in db.rows :: id < db.next)
    && (forall tx | tx in db.txs :: TxOk(db, db.txs[tx]))
    && Apart(db)
    && UsesSince(db.history) + |Unused(db.rows)| <= Allowance(db.history)
  }

  /** A statement that only changes one transaction, and no row of it is new, keeps the others as they are. */
  lemma OneTxKeeps(db: Db, tx: nat, t: Tx)
    requires Inv(db) && tx in db.txs && t.added == db.txs[tx].added && TxOk(db.(txs := db.txs[tx := t]), t)
    requires forall u | u in db.txs && u != tx :: Held(t) !! Held(db.txs[u])
    ensures Inv(db.(txs := db.txs[tx := t]))
  {
    hide Unused, Inserted, UsesSince, Allowance, Held, TxOk;
    var db' := db.(txs := db.txs[tx := t]);
    forall u | u in db'.txs && u != tx ensures TxOk(db', db'.txs[u]) { SameAccounts(db, tx, t, u); }
    forall u, v | u in db'.txs && v in db'.txs && u != v
      ensures Held(db'.txs[u]) !! Held(db'.txs[v]) && db'.txs[u].added.Keys !! db'.txs[v].added.Keys
    {
      assert Held(db.txs[u]) !! Held(db.txs[v]) && db.txs[u].added.Keys !! db.txs[v].added.Keys;
    }
  }

  lemma SameAccounts(db: Db, tx: nat, t: Tx, u: nat)
    requires tx in db.txs && u in db.txs && u != tx && t.added == db.txs[tx].added && TxOk(db, db.txs[u])
    ensures TxOk(db.(txs := db.txs[tx := t]), db.txs[u])
  {
    hide Unused, Inserted, Held;
  }

  lemma SpendKeeps(db: Db, tx: nat, candidates: seq<string>)
    requires Inv(db) && tx in db.txs
    ensures Inv(DoSpend(db, tx, candidates))
  {
    hide Inv, Inserted;
    var t := db.txs[tx];
    InvAt(db, tx);
    if t.todo == {} && t.spent == {} && t.cleared.None? {
      OneTxKeeps(db, tx, t.(todo := Matching(db.rows, candidates)));
    }
  }

  /** The invariant, for one transaction. */
  lemma InvAt(db: Db, tx: nat)
    requires Inv(db) && tx in db.txs
    ensures TxOk(db, db.txs[tx]) && (forall id | id in db.rows :: id < db.next)
    ensures forall u | u in db.txs :: db.rows.Keys !! db.txs[u].added.Keys
    ensures forall u | u in db.txs && u != tx :: Held(db.txs[tx]) !! Held(db.txs[u])
  {
    hide Unused, Inserted, UsesSince, Allowance, Held;
    forall u | u in db.txs ensures db.rows.Keys !! db.txs[u].added.Keys { assert TxOk(db, db.txs[u]); }
  }

  lemma ClearKeeps(db: Db, tx: nat)
    requires Inv(db) && tx in db.txs
    ensures Inv(DoClear(db, tx))
  {
    hide Inv, Unused;
    var t := db.txs[tx];
    InvAt(db, tx);
    if t.todo == {} && t.cleared.None? {
      OneTxKeeps(db, tx, t.(todo := db.rows.Keys, cleared := Some(|db.history|)));
    }
  }

  lemma VisitKeeps(db: Db, tx: nat, id: nat)
    requires Inv(db) && tx in db.txs
    ensures Inv(DoVisit(db, tx, id))
  {
    hide Inv, Inserted;
    var t := db.txs[tx];
    InvAt(db, tx);
    var db' := DoVisit(db, tx, id);
    if id in t.todo && !HeldByOther(db, tx, id) {
      OneTxKeeps(db, tx, db'.txs[tx]);
    }
  }

  lemma DropKeeps(db: Db, tx: nat)
    requires Inv(db)
    ensures Inv(db.(txs := db.txs - {tx}))
  {
    hide Unused, Inserted, UsesSince, Allowance, Held;
    var db' := db.(txs := db.txs - {tx});
    forall u | u in db'.txs ensures TxOk(db', db'.txs[u]) { assert TxOk(db, db.txs[u]); }
    forall u, v | u in db'.txs && v in db'.txs && u != v
      ensures Held(db'.txs[u]) !! Held(db'.txs[v]) && db'.txs[u].added.Keys !! db'.txs[v].added.Keys
    {
      assert Held(db.txs[u]) !! Held(db.txs[v]) && db.txs[u].added.Keys !! db.txs[v].added.Keys;
    }
  }

  lemma BeginKeeps(db: Db, tx: nat)
    requires Inv(db) && tx !in db.txs
    ensures Inv(db.(txs := db.txs[tx := Tx({}, {}, {}, map[], None)]))
  {
    hide Unused, Inserted, UsesSince, Allowance;
    var db' := db.(txs := db.txs[tx := Tx({}, {}, {}, map[], None)]);
    forall u | u in db'.txs ensures TxOk(db', db'.txs[u]) { if u != tx { assert TxOk(db, db.txs[u]); } }
    forall u, v | u in db'.txs && v in db'.txs && u != v
      ensures Held(db'.txs[u]) !! Held(db'.txs[v]) && db'.txs[u].added.Keys !! db'.txs[v].added.Keys
    {
      if u != tx && v != tx {
        assert Held(db.txs[u]) !! Held(db.txs[v]) && db.txs[u].added.Keys !! db.txs[v].added.Keys;
      }
    }
  }

  lemma InsertKeeps(db: Db, tx: nat, hash: string)
    requires Inv(db) && tx in db.txs
    ensures Inv(DoInsert(db, tx, hash))
  {
    hide Unused, Inserted, UsesSince, Allowance, Held, Refused, Undecided;
    var db', t := DoInsert(db, tx, hash), db.txs[tx];
    if t.cleared.Some? && t.todo == {} && !Undecided(db, tx, hash) {
      if Refused(db, tx, hash) {
        DropKeeps(db, tx);
      } else {
        HeldSame(db, tx, hash);
        forall u | u in db'.txs ensures TxOk(db', db'.txs[u]) {
          assert TxOk(db, db.txs[u]);
          EarlierIds(db, u);
        }
        forall u, v | u in db'.txs && v in db'.txs && u != v
          ensures Held(db'.txs[u]) !! Held(db'.txs[v]) && db'.txs[u].added.Keys !! db'.txs[v].added.Keys
        {
          assert Held(db.txs[u]) !! Held(db.txs[v]) && db.txs[u].added.Keys !! db.txs[v].added.Keys;
          assert TxOk(db, db.txs[u]) && TxOk(db, db.txs[v]);
        }
      }
    }
  }

  lemma HeldSame(db: Db, tx: nat, hash: string)
    requires tx in db.txs
    ensures var t := db.txs[tx]; Held(t.(added := t.added[db.next := hash])) == Held(t)
  {
  }

  /** No row id that a transaction knows is the next one. */
  lemma EarlierIds(db: Db, tx: nat)
    requires Inv(db) && tx in db.txs
    ensures var t := db.txs[tx];
            db.next !in t.added && db.next !in t.erased && (t.cleared.Some? ==> db.next !in t.todo)
  {
    assert TxOk(db, db.txs[tx]);
  }

  // ---------------------------------------------------------------------
  // Commits
  // ---------------------------------------------------------------------

  lemma WrittenLaw(rows: map<nat, Code>, t: Tx)
    requires t.added.Keys !! rows.Keys
    ensures Written(rows, t).Keys == (rows.Keys - t.erased) + t.added.Keys
    ensures Unused(Written(rows, t)) == (Unused(rows) - t.erased - t.spent) + t.added.Keys
  {
  }

  /** The invariant, for the history. */
  lemma Ledger(db: Db)
    requires Inv(db)
    ensures UsesSince(db.history) + |Unused(db.rows)| <= Allowance(db.history)
  {
  }

  /** After a use, the rows it held are spent and one use more is counted. */
  lemma UseFits(db: Db, tx: nat)
    requires Inv(db) && tx in db.txs && db.txs[tx].todo == {} && db.txs[tx].cleared.None?
    ensures var db' := DoCommit(db, tx);
            UsesSince(db'.history) + |Unused(db'.rows)| <= Allowance(db'.history)
  {
    hide UsesSince, Allowance, Unused, Written, Inv, TxOk;
    var t, db' := db.txs[tx], DoCommit(db, tx);
    SpenderAt(db, tx);
    Ledger(db);
    SpenderWrites(db.rows, t);
    Spends(Unused(db.rows), t.spent);
    if t.spent == {} {
      assert db'.history == db.history;
    } else {
      assert db'.history == db.history + [Used];
      LedgerAppend(db.history, Used);
    }
  }

  lemma SpenderWrites(rows: map<nat, Code>, t: Tx)
    requires t.erased == {} && t.added == map[]
    ensures Unused(Written(rows, t)) == Unused(rows) - t.spent
  {
  }

  lemma SpenderAt(db: Db, tx: nat)
    requires Inv(db) && tx in db.txs && db.txs[tx].cleared.None?
    ensures var t := db.txs[tx]; t.spent <= Unused(db.rows) && t.erased == {} && t.added == map[]
  {
    hide Unused, Inserted, UsesSince, Allowance;
    assert TxOk(db, db.txs[tx]);
  }

  lemma Spends(all: set<nat>, spent: set<nat>)
    requires spent <= all
    ensures |all - spent| <= |all| && (spent != {} ==> |all - spent| + 1 <= |all|)
  {
    assert all == (all - spent) + spent;
  }

  /** After a replacement, what is unused is its own or came in while it was under way. */
  lemma ReplacementFits(db: Db, tx: nat)
    requires Inv(db) && tx in db.txs && db.txs[tx].todo == {} && db.txs[tx].cleared.Some?
    ensures var db' := DoCommit(db, tx);
            UsesSince(db'.history) + |Unused(db'.rows)| <= Allowance(db'.history)
  {
    hide UsesSince, Allowance, Inserted, InsertedCount, Written, Inv;
    var t, db' := db.txs[tx], DoCommit(db, tx);
    InvAt(db, tx);
    var since := t.cleared.value;
    var before := if t.spent != {} then db.history + [Used] else db.history;
    var e := Replaced(since, t.added.Keys);
    assert db'.history == before + [e];
    LedgerAppend(before, e);
    InsertedAppend(db.history, Used, since);
    WrittenLaw(db.rows, t);
    var late := db.rows.Keys - t.erased;
    UnusedRows(db.rows);
    SubsetFits(Unused(db'.rows), late + t.added.Keys);
    SubsetFits(late, Inserted(before, since));
    CountBounds(before, since);
  }

  lemma UnusedRows(rows: map<nat, Code>)
    ensures Unused(rows) <= rows.Keys
  {
  }

  lemma SubsetFits(a: set<nat>, b: set<nat>)
    requires a <= b
    ensures |a| <= |b|
  {
    assert b == a + (b - a);
  }

  lemma ApartAt(db: Db, u: nat, v: nat)
    requires Inv(db) && u in db.txs && v in db.txs && u != v
    ensures Held(db.txs[u]) !! Held(db.txs[v]) && db.txs[u].added.Keys !! db.txs[v].added.Keys
  {
  }

  /** What a commit leaves another transaction: its rows, and the accounts of its DELETE. */
  lemma CommitLeaves(db: Db, tx: nat, u: nat)
    requires Inv(db) && tx in db.txs && u in db.txs && u != tx && db.txs[tx].todo == {}
    ensures TxOk(DoCommit(db, tx), db.txs[u])
  {
    hide UsesSince, Allowance, Inserted, Unused, Written, Inv, Events;
    var t, o, db' := db.txs[tx], db.txs[u], DoCommit(db, tx);
    InvAt(db, tx);
    InvAt(db, u);
    ApartAt(db, tx, u);
    WrittenLaw(db.rows, t);
    if o.cleared.Some? {
      HistoryGrows(db, t, o.cleared.value);
      assert ClearOk(db', o, o.cleared.value);
    }
  }

  lemma HistoryGrows(db: Db, t: Tx, since: nat)
    requires since <= |db.history| && (t.cleared.None? ==> t.added == map[])
    ensures Inserted(db.history + Events(t), since) == Inserted(db.history, since) + t.added.Keys
  {
    hide Inserted;
    var h := db.history;
    InsertedAppend(h, Used, since);
    var before := if t.spent != {} then h + [Used] else h;
    if t.cleared.Some? {
      InsertedAppend(before, Replaced(t.cleared.value, t.added.Keys), since);
      assert h + Events(t) == before + [Replaced(t.cleared.value, t.added.Keys)];
    } else {
      assert h + Events(t) == before;
    }
  }

  lemma CommitKeeps(db: Db, tx: nat)
    requires Inv(db) && tx in db.txs
    ensures Inv(DoCommit(db, tx))
  {
    hide UsesSince, Allowance, Inserted, Unused, Held;
    var t, db' := db.txs[tx], DoCommit(db, tx);
    if t.todo == {} {
      assert TxOk(db, t);
      if t.cleared.Some? { ReplacementFits(db, tx); } else { UseFits(db, tx); }
      forall u | u in db'.txs ensures TxOk(db', db'.txs[u]) { CommitLeaves(db, tx, u); }
      forall u, v | u in db'.txs && v in db'.txs && u != v
        ensures Held(db'.txs[u]) !! Held(db'.txs[v]) && db'.txs[u].added.Keys !! db'.txs[v].added.Keys
      {
        assert Held(db.txs[u]) !! Held(db.txs[v]) && db.txs[u].added.Keys !! db.txs[v].added.Keys;
      }
    }
  }

  lemma StepKeeps(db: Db, a: Action)
    requires Inv(db)
    ensures Inv(Step(db, a))
  {
    hide Inv, DoSpend, DoClear, DoVisit, DoInsert, DoCommit;
    if a.Begin? {
      if a.tx !in db.txs { BeginKeeps(db, a.tx); }
    } else if a.tx in db.txs {
      match a
      case Begin(_) =>
      case Spend(tx, candidates) => SpendKeeps(db, tx, candidates);
      case Clear(tx) => ClearKeeps(db, tx);
      case Visit(tx, id) => VisitKeeps(db, tx, id);
      case Insert(tx, hash) => InsertKeeps(db, tx, hash);
      case Commit(tx) => CommitKeeps(db, tx);
      case Abort(tx) => DropKeeps(db, tx);
    }
  }

  lemma StartHolds()
    ensures Inv(Start())
  {
    assert Unused(Start().rows) == {};
  }

  lemma {:induction false} RunKeeps(actions: seq<Action>)
    ensures Inv(Run(Start(), actions))
  {
    hide Inv, Step;
    if actions == [] {
      StartHolds();
    } else {
      RunKeeps(actions[..|actions| - 1]);
      StepKeeps(Run(Start(), actions[..|actions| - 1]), actions[|actions| - 1]);
    }
  }

  // ---------------------------------------------------------------------
  // How often the codes let the holder in
  // ---------------------------------------------------------------------

  /**
   In every run, the uses committed since the last replacement and the codes still unused are together no more than the
   codes of that replacement and of the replacements that committed while its own transaction was under way.
   */
  lemma UsesWithinAllowance(actions: seq<Action>)
    ensures var db := Run(Start(), actions);
            UsesSince(db.history) + |Unused(db.rows)| <= Allowance(db.history)
  {
    hide Inv, Run, Step, UsesSince, Allowance, Unused;
    RunKeeps(actions);
    Ledger(Run(Start(), actions));
  }

  /** The replacement at `i` is the last, and none committed between its DELETE and its commit. */
  predicate LoneReplacement(h: seq<Event>, i: nat) {
    && i < |h| && h[i].Replaced?
    && (forall k | 0 <= k < |h| && k != i && (h[i].since <= k || i < k) :: !h[k].Replaced?)
  }

  lemma {:induction false} NoneInserted(h: seq<Event>, since: nat)
    requires forall k | since <= k < |h| :: !h[k].Replaced?
    ensures InsertedCount(h, since) == 0
  {
    if |h| > since {
      NoneInserted(h[..|h| - 1], since);
    }
  }

  lemma {:induction false} LoneAllowance(h: seq<Event>, i: nat)
    requires LoneReplacement(h, i)
    ensures Allowance(h) == |h[i].ids| && UsesSince(h) == |h| - 1 - i
  {
    var n := |h| - 1;
    if i == n {
      NoneInserted(h[..n], h[n].since);
    } else {
      LoneAllowance(h[..n], i);
    }
  }

  /** A replacement that no other overlaps bounds the uses after it by the number of its own codes. */
  lemma UsesNeverExceedCodes(actions: seq<Action>, i: nat)
    requires LoneReplacement(Run(Start(), actions).history, i)
    ensures var h := Run(Start(), actions).history; |h| - 1 - i <= |h[i].ids|
  {
    hide Run, Step, UsesSince, Allowance, Unused;
    UsesWithinAllowance(actions);
    LoneAllowance(Run(Start(), actions).history, i);
  }

  /**
   When a replacement commits, every earlier code is gone exactly when nothing is left of the replacements that
   committed since its DELETE began.
   */
  lemma ReplacementEndsOldCodesIff(actions: seq<Action>, tx: nat)
    requires var db := Run(Start(), actions);
             tx in db.txs && db.txs[tx].todo == {} && db.txs[tx].cleared.Some?
    ensures var db := Run(Start(), actions);
            var t := db.txs[tx];
            DoCommit(db, tx).rows.Keys == t.added.Keys <==> db.rows.Keys !! Inserted(db.history, t.cleared.value)
  {
    hide Inv, Run, Step, Inserted, Written, Unused;
    RunKeeps(actions);
    var db := Run(Start(), actions);
    var t := db.txs[tx];
    InvAt(db, tx);
    WrittenLaw(db.rows, t);
    var late := Inserted(db.history, t.cleared.value);
    assert db.rows.Keys - t.erased == db.rows.Keys * late;
    assert (db.rows.Keys - t.erased) !! t.added.Keys;
  }

  // ---------------------------------------------------------------------
  // Two replacements at once
  // ---------------------------------------------------------------------

  lemma {:induction false} RunConcat(db: Db, first: seq<Action>, second: seq<Action>)
    ensures Run(db, first + second) == Run(Run(db, first), second)
  {
    hide Step;
    if second == [] {
      assert first + second == first;
    } else {
      var n := |second| - 1;
      RunConcat(db, first, second[..n]);
      assert (first + second)[..|first| + n] == first + second[..n];
    }
  }

  /** Each state is the step before it. */
  ghost predicate Trace(states: seq<Db>, actions: seq<Action>) {
    |states| == |actions| + 1 && forall i | 0 <= i < |actions| :: Step(states[i], actions[i]) == states[i + 1]
  }

  lemma {:induction false} TraceRuns(states: seq<Db>, actions: seq<Action>)
    requires Trace(states, actions)
    ensures Run(states[0], actions) == states[|actions|]
  {
    hide Step;
    if actions != [] {
      TraceRuns(states[..|actions|], actions[..|actions| - 1]);
    }
  }

  // A key has one code. One request proves itself by authenticator and starts deleting; another proves itself by that
  // code, replaces the set and commits; then the first goes on, finds its rows gone, inserts its own set and commits.

  const IDLE := Tx({}, {}, {}, map[], None)
  const AFTER_ENROL := Db(map[0 := Code("a", false)], map[], 1, [Replaced(0, {0})])
  const BOTH_OPEN := Db(
    map[0 := Code("a", false)], map[1 := Tx({0}, {}, {}, map[], Some(1)), 2 := Tx({}, {0}, {}, map[], None)], 1, [Replaced(0, {0})])
  const SECOND_DONE := Db(
    map[1 := Code("b", false)], map[1 := Tx({0}, {}, {}, map[], Some(1))], 2, [Replaced(0, {0}), Used, Replaced(1, {1})])
  const BOTH_DONE := Db(
    map[1 := Code("b", false), 2 := Code("c", false)], map[], 3,
    [Replaced(0, {0}), Used, Replaced(1, {1}), Replaced(1, {2})])

  const ENROL := [Begin(0), Clear(0), Insert(0, "a"), Commit(0)]
  const OPEN := [Begin(1), Clear(1), Begin(2), Spend(2, ["a"]), Visit(2, 0)]
  const SECOND := [Clear(2), Visit(2, 0), Insert(2, "b"), Commit(2)]
  const FIRST := [Visit(1, 0), Insert(1, "c"), Commit(1)]
  const USE_B := [Begin(3), Spend(3, ["b"]), Visit(3, 1), Commit(3)]
  const USE_C := [Begin(4), Spend(4, ["c"]), Visit(4, 2), Commit(4)]

  lemma ClearStep(db: Db, tx: nat, keys: set<nat>)
    requires tx in db.txs && db.txs[tx].todo == {} && db.txs[tx].cleared.None? && keys == db.rows.Keys
    ensures Step(db, Clear(tx)) == db.(txs := db.txs[tx := db.txs[tx].(todo := keys, cleared := Some(|db.history|))])
  {
  }

  lemma SpendStep(db: Db, tx: nat, hash: string, id: nat)
    requires tx in db.txs && db.txs[tx] == IDLE && id in db.rows && db.rows[id] == Code(hash, false)
    requires forall other | other in db.rows && other != id :: db.rows[other].hash != hash
    ensures Step(db, Spend(tx, [hash])) == db.(txs := db.txs[tx := IDLE.(todo := {id})])
  {
    assert Matching(db.rows, [hash]) == {id};
  }

  lemma CommitStep(db: Db, tx: nat, rows: map<nat, Code>, txs: map<nat, Tx>, ids: set<nat>)
    requires tx in db.txs && db.txs[tx].todo == {} && txs == db.txs - {tx} && ids == db.txs[tx].added.Keys
    requires rows.Keys == Written(db.rows, db.txs[tx]).Keys
    requires forall id | id in rows :: rows[id] == Written(db.rows, db.txs[tx])[id]
    ensures var t := db.txs[tx];
            var used := if t.spent != {} then [Used] else [];
            var replaced := if t.cleared.Some? then [Replaced(t.cleared.value, ids)] else [];
            Step(db, Commit(tx)) == Db(rows, txs, db.next, db.history + (used + replaced))
  {
    assert rows == Written(db.rows, db.txs[tx]);
  }

  lemma VisitStep(db: Db, tx: nat, id: nat, t: Tx)
    requires tx in db.txs && id in db.txs[tx].todo
    requires forall u | u in db.txs && u != tx :: id !in Held(db.txs[u])
    requires var v := DoVisit(db, tx, id).txs[tx];
             t.todo == v.todo && t.spent == v.spent && t.erased == v.erased && t.added == v.added && t.cleared == v.cleared
    ensures Step(db, Visit(tx, id)) == db.(txs := db.txs[tx := t])
  {
    assert t == DoVisit(db, tx, id).txs[tx];
  }

  lemma InsertStep(db: Db, tx: nat, hash: string, added: map<nat, string>)
    requires tx in db.txs && db.txs[tx].todo == {} && db.txs[tx].cleared.Some? && !Undecided(db, tx, hash)
    requires !Refused(db, tx, hash) && added == db.txs[tx].added[db.next := hash]
    ensures Step(db, Insert(tx, hash)) == db.(txs := db.txs[tx := db.txs[tx].(added := added)], next := db.next + 1)
  {
  }

  lemma EnrolRun()
    ensures Run(Start(), ENROL) == AFTER_ENROL
  {
    hide Run;
    var s1 := Start().(txs := map[0 := IDLE]);
    var s2 := Start().(txs := map[0 := IDLE.(cleared := Some(0))]);
    var s3 := Db(map[], map[0 := Tx({}, {}, {}, map[0 := "a"], Some(0))], 1, []);
    assert Step(Start(), Begin(0)) == s1;
    ClearStep(s1, 0, {});
    assert Step(s1, Clear(0)) == s2;
    InsertStep(s2, 0, "a", map[0 := "a"]);
    assert Step(s2, Insert(0, "a")) == s3;
    CommitStep(s3, 0, AFTER_ENROL.rows, map[], {0});
    assert Step(s3, Commit(0)) == AFTER_ENROL;
    TraceRuns([Start(), s1, s2, s3, AFTER_ENROL], ENROL);
  }

  lemma OpenRun()
    ensures Run(AFTER_ENROL, OPEN) == BOTH_OPEN
  {
    hide Run;
    var first := Tx({0}, {}, {}, map[], Some(1));
    var s1 := AFTER_ENROL.(txs := map[1 := IDLE]);
    var s2 := AFTER_ENROL.(txs := map[1 := first]);
    var s3 := AFTER_ENROL.(txs := map[1 := first, 2 := IDLE]);
    var s4 := AFTER_ENROL.(txs := map[1 := first, 2 := IDLE.(todo := {0})]);
    assert Step(AFTER_ENROL, Begin(1)) == s1;
    ClearStep(s1, 1, {0});
    assert Step(s1, Clear(1)) == s2;
    assert Step(s2, Begin(2)) == s3;
    SpendStep(s3, 2, "a", 0);
    assert Step(s3, Spend(2, ["a"])) == s4;
    VisitStep(s4, 2, 0, IDLE.(spent := {0}));
    assert Step(s4, Visit(2, 0)) == BOTH_OPEN;
    TraceRuns([AFTER_ENROL, s1, s2, s3, s4, BOTH_OPEN], OPEN);
  }

  lemma SecondRun()
    ensures Run(BOTH_OPEN, SECOND) == SECOND_DONE
  {
    hide Run, Step;
    var first := Tx({0}, {}, {}, map[], Some(1));
    var s1 := BOTH_OPEN.(txs := map[1 := first, 2 := Tx({0}, {0}, {}, map[], Some(1))]);
    var s2 := BOTH_OPEN.(txs := map[1 := first, 2 := Tx({}, {0}, {0}, map[], Some(1))]);
    ClearStep(BOTH_OPEN, 2, {0});
    assert Step(BOTH_OPEN, Clear(2)) == s1;
    VisitStep(s1, 2, 0, Tx({}, {0}, {0}, map[], Some(1)));
    assert Step(s1, Visit(2, 0)) == s2;
    TraceRuns([BOTH_OPEN, s1, s2], [Clear(2), Visit(2, 0)]);
    SecondCommits(first, s2);
    RunConcat(BOTH_OPEN, [Clear(2), Visit(2, 0)], [Insert(2, "b"), Commit(2)]);
    assert SECOND == [Clear(2), Visit(2, 0)] + [Insert(2, "b"), Commit(2)];
  }

  lemma SecondCommits(first: Tx, s2: Db)
    requires first == Tx({0}, {}, {}, map[], Some(1))
    requires s2 == BOTH_OPEN.(txs := map[1 := first, 2 := Tx({}, {0}, {0}, map[], Some(1))])
    ensures Run(s2, [Insert(2, "b"), Commit(2)]) == SECOND_DONE
  {
    hide Run, Step;
    var s3 := s2.(txs := map[1 := first, 2 := Tx({}, {0}, {0}, map[1 := "b"], Some(1))], next := 2);
    InsertStep(s2, 2, "b", map[1 := "b"]);
    assert Step(s2, Insert(2, "b")) == s3;
    CommitStep(s3, 2, SECOND_DONE.rows, SECOND_DONE.txs, {1});
    assert Step(s3, Commit(2)) == SECOND_DONE;
    TraceRuns([s2, s3, SECOND_DONE], [Insert(2, "b"), Commit(2)]);
  }

  lemma FirstRun()
    ensures Run(SECOND_DONE, FIRST) == BOTH_DONE
  {
    hide Run;
    var s1 := SECOND_DONE.(txs := map[1 := Tx({}, {}, {}, map[], Some(1))]);
    var s2 := SECOND_DONE.(txs := map[1 := Tx({}, {}, {}, map[2 := "c"], Some(1))], next := 3);
    VisitStep(SECOND_DONE, 1, 0, IDLE.(cleared := Some(1)));
    assert Step(SECOND_DONE, Visit(1, 0)) == s1;
    InsertStep(s1, 1, "c", map[2 := "c"]);
    assert Step(s1, Insert(1, "c")) == s2;
    CommitStep(s2, 1, BOTH_DONE.rows, map[], {2});
    assert Step(s2, Commit(1)) == BOTH_DONE;
    TraceRuns([SECOND_DONE, s1, s2, BOTH_DONE], FIRST);
  }

  /** A lone use of an unused code. */
  lemma UseRun(db: Db, tx: nat, id: nat)
    requires db.txs == map[] && id in db.rows && !db.rows[id].used
    requires forall other | other in db.rows && other != id :: db.rows[other].hash != db.rows[id].hash
    ensures Run(db, [Begin(tx), Spend(tx, [db.rows[id].hash]), Visit(tx, id), Commit(tx)])
         == db.(rows := db.rows[id := db.rows[id].(used := true)], history := db.history + [Used])
  {
    hide Run;
    var hash := db.rows[id].hash;
    var s1 := db.(txs := map[tx := IDLE]);
    var s2 := db.(txs := map[tx := IDLE.(todo := {id})]);
    var t := IDLE.(spent := {id});
    var s3 := db.(txs := map[tx := t]);
    var s4 := db.(rows := db.rows[id := db.rows[id].(used := true)], history := db.history + [Used]);
    assert Step(db, Begin(tx)) == s1;
    SpendStep(s1, tx, hash, id);
    VisitStep(s2, tx, id, t);
    assert Step(s2, Visit(tx, id)) == s3;
    CommitStep(s3, tx, s4.rows, map[], {});
    TraceRuns([db, s1, s2, s3, s4], [Begin(tx), Spend(tx, [hash]), Visit(tx, id), Commit(tx)]);
  }

  /** Overlapping replacements leave both sets standing: the last one issued one code, and two uses follow it. */
  lemma OverlappingReplacementsAddUp()
    ensures var h := Run(Start(), ENROL + OPEN + SECOND + FIRST + USE_B + USE_C).history;
            |h| == 6 && h[3] == Replaced(1, {2}) && h[4] == Used && h[5] == Used
  {
    hide Run;
    EnrolRun();
    OpenRun();
    SecondRun();
    FirstRun();
    UseRun(BOTH_DONE, 3, 1);
    UseRun(Run(BOTH_DONE, USE_B), 4, 2);
    RunConcat(Start(), ENROL, OPEN);
    RunConcat(Start(), ENROL + OPEN, SECOND);
    RunConcat(Start(), ENROL + OPEN + SECOND, FIRST);
    RunConcat(Start(), ENROL + OPEN + SECOND + FIRST, USE_B);
    RunConcat(Start(), ENROL + OPEN + SECOND + FIRST + USE_B, USE_C);
  }

  // ---------------------------------------------------------------------
  // The unique index, and every unused code being good for a use
  // ---------------------------------------------------------------------

  /** No two committed rows share a hash, nor will they when the open transactions commit. */
  ghost predicate Indexed(db: Db) {
    && (forall i, j | i in db.rows && j in db.rows && db.rows[i].hash == db.rows[j].hash :: i == j)
    && (forall u, i, j | u in db.txs && i in db.txs[u].added && j in db.rows ::
          db.txs[u].added[i] == db.rows[j].hash ==> j in db.txs[u].erased)
    && (forall u, v, i, j | u in db.txs && v in db.txs && i in db.txs[u].added && j in db.txs[v].added ::
          db.txs[u].added[i] == db.txs[v].added[j] ==> u == v && i == j)
  }

  lemma IndexedStep(db: Db, a: Action)
    requires Indexed(db) && Inv(db)
    ensures Indexed(Step(db, a))
  {
    hide Inv, Indexed, DoCommit, DoInsert, DoVisit;
    if a.Begin? {
      if a.tx !in db.txs { IndexedTx(db, a.tx, IDLE); }
    } else if a.tx in db.txs {
      match a
      case Begin(_) =>
      case Spend(tx, candidates) => IndexedTx(db, tx, DoSpend(db, tx, candidates).txs[tx]);
      case Clear(tx) => IndexedTx(db, tx, DoClear(db, tx).txs[tx]);
      case Visit(tx, id) => IndexedVisit(db, tx, id);
      case Insert(tx, hash) => IndexedInsert(db, tx, hash);
      case Commit(tx) => IndexedCommit(db, tx);
      case Abort(tx) => IndexedDrop(db, tx);
    }
  }

  lemma IndexedTx(db: Db, tx: nat, t: Tx)
    requires Indexed(db)
    requires if tx in db.txs then t.added == db.txs[tx].added && db.txs[tx].erased <= t.erased else t.added == map[]
    ensures Indexed(db.(txs := db.txs[tx := t])) && (tx in db.txs && t == db.txs[tx] ==> db.(txs := db.txs[tx := t]) == db)
  {
  }

  lemma IndexedVisit(db: Db, tx: nat, id: nat)
    requires Indexed(db) && tx in db.txs
    ensures Indexed(DoVisit(db, tx, id))
  {
    hide Indexed;
    var t := DoVisit(db, tx, id).txs[tx];
    IndexedTx(db, tx, t);
  }

  lemma IndexedDrop(db: Db, tx: nat)
    requires Indexed(db)
    ensures Indexed(db.(txs := db.txs - {tx}))
  {
  }

  lemma IndexedCommit(db: Db, tx: nat)
    requires Indexed(db) && tx in db.txs
    ensures Indexed(DoCommit(db, tx))
  {
  }

  lemma IndexedInsert(db: Db, tx: nat, hash: string)
    requires Indexed(db) && Inv(db) && tx in db.txs
    ensures Indexed(DoInsert(db, tx, hash))
  {
    hide Inv, Refused, Undecided, Held;
    var t, db' := db.txs[tx], DoInsert(db, tx, hash);
    if t.cleared.Some? && t.todo == {} && !Undecided(db, tx, hash) && !Refused(db, tx, hash) {
      NotTaken(db, tx, hash);
      forall u, i, j | u in db'.txs && i in db'.txs[u].added && j in db'.rows && db'.txs[u].added[i] == db'.rows[j].hash
        ensures j in db'.txs[u].erased
      {
        assert u != tx || i != db.next ==> i in db.txs[u].added;
      }
      forall u, v, i, j | u in db'.txs && v in db'.txs && i in db'.txs[u].added && j in db'.txs[v].added
                          && db'.txs[u].added[i] == db'.txs[v].added[j]
        ensures u == v && i == j
      {
        assert u != tx || i != db.next ==> i in db.txs[u].added;
        assert v != tx || j != db.next ==> j in db.txs[v].added;
      }
    }
  }

  /** A hash that is neither refused nor undecided is nobody's, save of rows about to be erased. */
  lemma NotTaken(db: Db, tx: nat, hash: string)
    requires tx in db.txs && !Undecided(db, tx, hash) && !Refused(db, tx, hash)
    ensures forall j | j in db.rows && db.rows[j].hash == hash :: j in db.txs[tx].erased
    ensures forall u, i | u in db.txs && i in db.txs[u].added :: db.txs[u].added[i] != hash
  {
  }

  lemma {:induction false} IndexedRun(actions: seq<Action>)
    ensures Indexed(Run(Start(), actions))
  {
    hide Inv, Indexed, Step;
    if actions == [] {
      assert Indexed(Start()) by { IndexedStart(); }
    } else {
      IndexedRun(actions[..|actions| - 1]);
      RunKeeps(actions[..|actions| - 1]);
      IndexedStep(Run(Start(), actions[..|actions| - 1]), actions[|actions| - 1]);
    }
  }

  lemma IndexedStart()
    ensures Indexed(Start())
  {
  }

  /** The bound is attained: with nothing under way, the unused codes can all be used, one login each. */
  lemma {:induction false} EveryCodeWorks(actions: seq<Action>) returns (logins: seq<Action>)
    requires Run(Start(), actions).txs == map[]
    ensures var before, after := Run(Start(), actions), Run(Start(), actions + logins);
            Unused(after.rows) == {} && UsesSince(after.history) == UsesSince(before.history) + |Unused(before.rows)|
    decreases |Unused(Run(Start(), actions).rows)|
  {
    hide Run, Inv, Indexed, UsesSince, Unused;
    var db := Run(Start(), actions);
    if Unused(db.rows) == {} {
      logins := [];
      assert actions + [] == actions;
    } else {
      var id :| id in Unused(db.rows);
      IndexedRun(actions);
      OthersDiffer(db, id);
      var login := [Begin(0), Spend(0, [db.rows[id].hash]), Visit(0, id), Commit(0)];
      UseRun(db, 0, id);
      RunConcat(Start(), actions, login);
      var after := Run(Start(), actions + login);
      OneLess(db, id);
      LedgerAppend(db.history, Used);
      var rest := EveryCodeWorks(actions + login);
      assert actions + login + rest == actions + (login + rest);
      logins := login + rest;
    }
  }

  lemma OthersDiffer(db: Db, id: nat)
    requires Indexed(db) && id in Unused(db.rows)
    ensures id in db.rows && !db.rows[id].used
    ensures forall other | other in db.rows && other != id :: db.rows[other].hash != db.rows[id].hash
  {
  }

  lemma OneLess(db: Db, id: nat)
    requires id in db.rows && id in Unused(db.rows)
    ensures |Unused(db.rows[id := db.rows[id].(used := true)])| == |Unused(db.rows)| - 1
  {
    assert Unused(db.rows[id := db.rows[id].(used := true)]) == Unused(db.rows) - {id};
  }

  // ---------------------------------------------------------------------
  // A login left alone
  // ---------------------------------------------------------------------

  /** The rows hold these codes, hash by hash, with what is left of them. */
  ghost predicate Shows(rows: map<nat, Code>, codes: Mfa.Codes) {
    && (forall id | id in rows :: rows[id].hash in codes && codes[rows[id].hash] == !rows[id].used)
    && (forall h | h in codes :: exists id :: id in rows && rows[id].hash == h)
  }

  function Visits(tx: nat, order: seq<nat>): seq<Action> {
    seq(|order|, i requires 0 <= i < |order| => Visit(tx, order[i]))
  }

  function Elements(order: seq<nat>): set<nat> { set id | id in order }

  predicate NoRepeats(order: seq<nat>) { forall i, j | 0 <= i < j < |order| :: order[i] != order[j] }

  predicate Orders(order: seq<nat>, ids: set<nat>) { NoRepeats(order) && Elements(order) == ids }

  /** Visiting rows alone, in any order, takes them all. */
  lemma {:induction false} VisitsTake(db: Db, tx: nat, ids: set<nat>, order: seq<nat>)
    requires db.txs == map[tx := IDLE.(todo := ids)] && ids <= Unused(db.rows) && NoRepeats(order) && Elements(order) <= ids
    ensures Run(db, Visits(tx, order)) == db.(txs := map[tx := IDLE.(todo := ids - Elements(order), spent := Elements(order))])
  {
    hide Step;
    if order == [] {
      assert Elements(order) == {} && ids - {} == ids;
    } else {
      var n := |order| - 1;
      var front, id := order[..n], order[n];
      LastElement(order);
      var taken := Elements(front);
      VisitsTake(db, tx, ids, front);
      assert Visits(tx, order)[..n] == Visits(tx, front) && Visits(tx, order)[n] == Visit(tx, id);
      TakeOne(db, tx, ids, taken, id);
    }
  }

  lemma LastElement(order: seq<nat>)
    requires order != [] && NoRepeats(order)
    ensures var n := |order| - 1;
            NoRepeats(order[..n]) && order[n] !in Elements(order[..n]) && Elements(order) == Elements(order[..n]) + {order[n]}
  {
    assert order == order[..|order| - 1] + [order[|order| - 1]];
  }

  lemma TakeOne(db: Db, tx: nat, ids: set<nat>, taken: set<nat>, id: nat)
    requires ids <= Unused(db.rows) && id in ids && id !in taken
    ensures var mid := db.(txs := map[tx := IDLE.(todo := ids - taken, spent := taken)]);
            Step(mid, Visit(tx, id)) == db.(txs := map[tx := IDLE.(todo := ids - (taken + {id}), spent := taken + {id})])
  {
    hide Step;
    var mid := db.(txs := map[tx := IDLE.(todo := ids - taken, spent := taken)]);
    VisitStep(mid, tx, id, IDLE.(todo := ids - (taken + {id}), spent := taken + {id}));
  }

  function Login(tx: nat, candidates: seq<string>, order: seq<nat>): seq<Action> {
    [Begin(tx), Spend(tx, candidates)] + Visits(tx, order) + [Commit(tx)]
  }

  /** Left alone, a login's steps leave the rows with the matching codes spent, and are a use if there were any. */
  lemma LoginRun(db: Db, tx: nat, candidates: seq<string>, order: seq<nat>)
    requires db.txs == map[] && Orders(order, Matching(db.rows, candidates))
    ensures var ids := Matching(db.rows, candidates);
            Run(db, Login(tx, candidates, order))
            == db.(rows := Written(db.rows, IDLE.(spent := ids)), history := db.history + if ids != {} then [Used] else [])
  {
    hide Run, Step, Written, Elements;
    var ids := Matching(db.rows, candidates);
    var s1 := db.(txs := map[tx := IDLE]);
    var s2 := db.(txs := map[tx := IDLE.(todo := ids)]);
    LoginStarts(db, tx, candidates);
    TraceRuns([db, s1, s2], [Begin(tx), Spend(tx, candidates)]);
    VisitsTake(s2, tx, ids, order);
    assert ids - ids == {};
    var s3 := db.(txs := map[tx := IDLE.(spent := ids)]);
    LoginEnds(db, tx, ids);
    RunConcat(db, [Begin(tx), Spend(tx, candidates)], Visits(tx, order));
    RunConcat(db, [Begin(tx), Spend(tx, candidates)] + Visits(tx, order), [Commit(tx)]);
  }

  lemma LoginEnds(db: Db, tx: nat, ids: set<nat>)
    ensures Run(db.(txs := map[tx := IDLE.(spent := ids)]), [Commit(tx)])
            == db.(txs := map[], rows := Written(db.rows, IDLE.(spent := ids)), history := db.history + if ids != {} then [Used] else [])
  {
    hide Run, Step, Written;
    var s3 := db.(txs := map[tx := IDLE.(spent := ids)]);
    var rows := Written(db.rows, IDLE.(spent := ids));
    CommitStep(s3, tx, rows, map[], {});
    TraceRuns([s3, Step(s3, Commit(tx))], [Commit(tx)]);
  }

  lemma LoginStarts(db: Db, tx: nat, candidates: seq<string>)
    requires db.txs == map[]
    ensures var s1 := db.(txs := map[tx := IDLE]);
            && Step(db, Begin(tx)) == s1
            && Step(s1, Spend(tx, candidates)) == db.(txs := map[tx := IDLE.(todo := Matching(db.rows, candidates))])
  {
  }

  /** The login of the state machine, uninterrupted, is the one proved of the class: it spends the same codes and answers
      the same. */
  lemma SoloLoginIsConsume(actions: seq<Action>, codes: Mfa.Codes, tx: nat, candidates: seq<string>, order: seq<nat>)
    requires var db := Run(Start(), actions);
             db.txs == map[] && Shows(db.rows, codes) && Orders(order, Matching(db.rows, candidates))
    ensures var db := Run(Start(), actions);
            var after := Run(db, Login(tx, candidates, order));
            var (ok, left) := Mfa.Burn(codes, candidates);
            && Shows(after.rows, left)
            && after.history == db.history + if ok then [Used] else []
  {
    hide Run, Indexed, Written, Shows, Orders;
    var db := Run(Start(), actions);
    IndexedRun(actions);
    LoginRun(db, tx, candidates, order);
    BurnShows(db, codes, candidates);
  }

  lemma BurnShows(db: Db, codes: Mfa.Codes, candidates: seq<string>)
    requires Indexed(db) && Shows(db.rows, codes)
    ensures var ids := Matching(db.rows, candidates);
            && Shows(Written(db.rows, IDLE.(spent := ids)), Mfa.Burn(codes, candidates).1)
            && (Mfa.Burn(codes, candidates).0 <==> ids != {})
  {
    var ids := Matching(db.rows, candidates);
    var rows, left := Written(db.rows, IDLE.(spent := ids)), Mfa.Burn(codes, candidates).1;
    assert rows.Keys == db.rows.Keys;
    forall h | h in left ensures exists id :: id in rows && rows[id].hash == h {
      var id :| id in db.rows && db.rows[id].hash == h;
      assert id in rows && rows[id].hash == h;
    }
    if ids != {} {
      var id :| id in ids;
      assert codes[db.rows[id].hash] && db.rows[id].hash in candidates;
    }
    if Mfa.Burn(codes, candidates).0 {
      var h :| h in codes && codes[h] && h in candidates;
      var id :| id in db.rows && db.rows[id].hash == h;
      assert id in ids;
    }
  }

  // ---------------------------------------------------------------------
  // A replacement left alone
  // ---------------------------------------------------------------------

  function Inserts(tx: nat, hashes: seq<string>): seq<Action> {
    seq(|hashes|, i requires 0 <= i < |hashes| => Insert(tx, hashes[i]))
  }

  function Replacement(tx: nat, order: seq<nat>, hashes: seq<string>): seq<Action> {
    [Begin(tx), Clear(tx)] + Visits(tx, order) + Inserts(tx, hashes) + [Commit(tx)]
  }

  /** The rows that the inserts make, numbered from `next`. */
  function Numbered(next: nat, hashes: seq<string>): (m: map<nat, string>)
    ensures |m| == |hashes| && forall id | id in m :: id < next + |hashes|
  {
    if hashes == [] then map[]
    else
      var n := |hashes| - 1;
      Numbered(next, hashes[..n])[next + n := hashes[n]]
  }

  predicate Has(added: map<nat, string>, hash: string) { exists id | id in added :: added[id] == hash }

  lemma HasOneMore(added: map<nat, string>, id: nat, last: string, hash: string)
    requires id !in added
    ensures Has(added[id := last], hash) <==> Has(added, hash) || hash == last
  {
    var more := added[id := last];
    assert more[id] == last;
    if Has(added, hash) {
      var k :| k in added && added[k] == hash;
      assert more[k] == hash;
    }
  }

  lemma {:induction false} NumberedHas(next: nat, hashes: seq<string>, hash: string)
    ensures Has(Numbered(next, hashes), hash) <==> hash in hashes
  {
    if hashes != [] {
      var n := |hashes| - 1;
      NumberedHas(next, hashes[..n], hash);
      HasOneMore(Numbered(next, hashes[..n]), next + n, hashes[n], hash);
      assert hashes == hashes[..n] + [hashes[n]];
    }
  }

  /** A transaction whose DELETE, begun at `since`, has taken these rows. */
  function Clearing(since: nat, todo: set<nat>, erased: set<nat>, added: map<nat, string>): Tx {
    Tx(todo, {}, erased, added, Some(since))
  }

  lemma {:induction false} VisitsErase(db: Db, tx: nat, since: nat, order: seq<nat>)
    requires db.txs == map[tx := Clearing(since, db.rows.Keys, {}, map[])] && NoRepeats(order) && Elements(order) <= db.rows.Keys
    ensures Run(db, Visits(tx, order))
            == db.(txs := map[tx := Clearing(since, db.rows.Keys - Elements(order), Elements(order), map[])])
  {
    hide Step;
    if order == [] {
      assert Elements(order) == {} && db.rows.Keys - {} == db.rows.Keys;
    } else {
      var n := |order| - 1;
      LastElement(order);
      VisitsErase(db, tx, since, order[..n]);
      assert Visits(tx, order)[..n] == Visits(tx, order[..n]) && Visits(tx, order)[n] == Visit(tx, order[n]);
      EraseOne(db, tx, since, Elements(order[..n]), order[n]);
    }
  }

  lemma EraseOne(db: Db, tx: nat, since: nat, taken: set<nat>, id: nat)
    requires id in db.rows && id !in taken
    ensures var all := db.rows.Keys;
            Step(db.(txs := map[tx := Clearing(since, all - taken, taken, map[])]), Visit(tx, id))
            == db.(txs := map[tx := Clearing(since, all - (taken + {id}), taken + {id}, map[])])
  {
    assert db.rows.Keys - taken - {id} == db.rows.Keys - (taken + {id});
  }

  /** Inserting alone, once all rows are taken: each hash gets a row, and the first that repeats ends the transaction. */
  lemma {:induction false} InsertsAdd(db: Db, tx: nat, since: nat, hashes: seq<string>)
    requires db.txs == map[tx := Clearing(since, {}, db.rows.Keys, map[])]
    ensures var after := Run(db, Inserts(tx, hashes));
            if Mfa.Distinct(hashes) then
              after == db.(txs := map[tx := Clearing(since, {}, db.rows.Keys, Numbered(db.next, hashes))], next := db.next + |hashes|)
            else after == db.(txs := map[], next := after.next)
  {
    hide Step, Has;
    if hashes == [] {
      assert Numbered(db.next, hashes) == map[];
    } else {
      var n := |hashes| - 1;
      InsertsAdd(db, tx, since, hashes[..n]);
      assert Inserts(tx, hashes)[..n] == Inserts(tx, hashes[..n]) && Inserts(tx, hashes)[n] == Insert(tx, hashes[n]);
      DistinctLast(hashes);
      if Mfa.Distinct(hashes[..n]) {
        var mid := Run(db, Inserts(tx, hashes[..n]));
        NumberedHas(db.next, hashes[..n], hashes[n]);
        InsertOne(mid, tx, since, Numbered(db.next, hashes[..n]), hashes[n]);
      } else {
        Gone(Run(db, Inserts(tx, hashes[..n])), Insert(tx, hashes[n]));
      }
    }
  }

  lemma Gone(db: Db, a: Action)
    requires a.tx !in db.txs && !a.Begin?
    ensures Step(db, a) == db
  {
  }

  lemma DistinctLast(hashes: seq<string>)
    requires hashes != []
    ensures var n := |hashes| - 1; Mfa.Distinct(hashes) <==> Mfa.Distinct(hashes[..n]) && hashes[n] !in hashes[..n]
  {
    var n := |hashes| - 1;
    if Mfa.Distinct(hashes[..n]) && hashes[n] !in hashes[..n] {
      forall i, j | 0 <= i < j < |hashes| ensures hashes[i] != hashes[j] { assert hashes[i] == hashes[..n][i]; }
    }
  }

  lemma InsertOne(db: Db, tx: nat, since: nat, added: map<nat, string>, hash: string)
    requires db.txs == map[tx := Clearing(since, {}, db.rows.Keys, added)]
    ensures Step(db, Insert(tx, hash))
            == if Has(added, hash) then db.(txs := map[])
               else db.(txs := map[tx := Clearing(since, {}, db.rows.Keys, added[db.next := hash])], next := db.next + 1)
  {
    hide Step, Refused, Undecided, Has;
    assert db.txs[tx] == Clearing(since, {}, db.rows.Keys, added);
    AloneRefused(db, tx, hash);
    if !Has(added, hash) { InsertStep(db, tx, hash, added[db.next := hash]); }
  }

  /** With no other transaction and all rows taken, only the hashes inserted before are refused. */
  lemma AloneRefused(db: Db, tx: nat, hash: string)
    requires tx in db.txs && db.txs == map[tx := db.txs[tx]] && db.txs[tx].erased == db.rows.Keys
    requires db.txs[tx].cleared.Some? && db.txs[tx].todo == {}
    ensures !Undecided(db, tx, hash) && (Refused(db, tx, hash) <==> Has(db.txs[tx].added, hash))
    ensures Refused(db, tx, hash) ==> Step(db, Insert(tx, hash)) == db.(txs := map[])
  {
    assert db.txs - {tx} == map[];
  }

  /** Left alone, in whatever order its DELETE visits the rows, a replacement does what is proved of the class: the new codes
      and no others are there, all unused; or a hash repeats and every row is as it was. */
  lemma SoloReplacementIsReplace(db: Db, tx: nat, order: seq<nat>, hashes: seq<string>)
    requires db.txs == map[] && Orders(order, db.rows.Keys)
    ensures var after := Run(db, Replacement(tx, order, hashes));
            && after.txs == map[]
            && if Mfa.Distinct(hashes) then Shows(after.rows, Mfa.Fresh(hashes)) && |after.rows| == |hashes|
               else after.rows == db.rows && after.history == db.history
  {
    hide Run, Step, Elements, Shows;
    var all, since := db.rows.Keys, |db.history|;
    var s2 := db.(txs := map[tx := Clearing(since, all, {}, map[])]);
    ClearStarts(db, tx);
    TraceRuns([db, db.(txs := map[tx := IDLE]), s2], [Begin(tx), Clear(tx)]);
    VisitsErase(s2, tx, since, order);
    assert all - all == {};
    var s3 := db.(txs := map[tx := Clearing(since, {}, all, map[])]);
    InsertsAdd(s3, tx, since, hashes);
    var s4 := Run(s3, Inserts(tx, hashes));
    RunConcat(db, [Begin(tx), Clear(tx)], Visits(tx, order));
    RunConcat(db, [Begin(tx), Clear(tx)] + Visits(tx, order), Inserts(tx, hashes));
    RunConcat(db, [Begin(tx), Clear(tx)] + Visits(tx, order) + Inserts(tx, hashes), [Commit(tx)]);
    TraceRuns([s4, Step(s4, Commit(tx))], [Commit(tx)]);
    ReplacementEnds(db, tx, hashes, s4);
  }

  lemma ClearStarts(db: Db, tx: nat)
    requires db.txs == map[]
    ensures var s1 := db.(txs := map[tx := IDLE]);
            && Step(db, Begin(tx)) == s1
            && Step(s1, Clear(tx)) == db.(txs := map[tx := Clearing(|db.history|, db.rows.Keys, {}, map[])])
  {
  }

  lemma ReplacementEnds(db: Db, tx: nat, hashes: seq<string>, last: Db)
    requires if Mfa.Distinct(hashes) then
               last == db.(txs := map[tx := Clearing(|db.history|, {}, db.rows.Keys, Numbered(db.next, hashes))], next := last.next)
             else last == db.(txs := map[], next := last.next)
    ensures var after := Step(last, Commit(tx));
            && after.txs == map[]
            && if Mfa.Distinct(hashes) then Shows(after.rows, Mfa.Fresh(hashes)) && |after.rows| == |hashes|
               else after.rows == db.rows && after.history == db.history
  {
    hide Step, Shows, Numbered, Mfa.Distinct, Written;
    if Mfa.Distinct(hashes) {
      var added := Numbered(db.next, hashes);
      var rows := map id | id in added :: Code(added[id], false);
      NewRows(db, added, rows);
      assert last.txs - {tx} == map[];
      CommitStep(last, tx, rows, map[], added.Keys);
      assert |rows.Keys| == |added.Keys|;
      NewShow(rows, db.next, hashes);
    } else {
      Gone(last, Commit(tx));
    }
  }

  lemma NewRows(db: Db, added: map<nat, string>, rows: map<nat, Code>)
    requires rows == map id | id in added :: Code(added[id], false)
    ensures rows.Keys == added.Keys && Written(db.rows, Clearing(|db.history|, {}, db.rows.Keys, added)) == rows
  {
  }

  lemma NewShow(rows: map<nat, Code>, next: nat, hashes: seq<string>)
    requires var added := Numbered(next, hashes); rows == map id | id in added :: Code(added[id], false)
    ensures Shows(rows, Mfa.Fresh(hashes))
  {
    hide Numbered;
    var added := Numbered(next, hashes);
    forall h | h in Mfa.Fresh(hashes) ensures exists id :: id in rows && rows[id].hash == h {
      NumberedHas(next, hashes, h);
      var id :| id in added && added[id] == h;
      assert id in rows && rows[id].hash == h;
    }
    forall id | id in rows ensures rows[id].hash in Mfa.Fresh(hashes) {
      NumberedHas(next, hashes, added[id]);
      assert Has(added, added[id]);
    }
  }
}
