/**
 Second factors: TOTP steps and recovery codes, each consumed by one conditional
 UPDATE inside a transaction that holds the row until it ends.
 */
module Mfa {
  import opened Wrappers

  datatype Enrolment = Enrolment(tenant: string, secret: string, lastStep: int, confirmed: bool)

  datatype MfaError = AlreadyConfirmed | NothingToConfirm | Database

  /** The statements on an enrolment row. */
  datatype Op = Enrol(tenant: string, secret: string) | Confirm(step: int) | Consume(step: int) | Remove

  /** Whether the statement matches, and the row it leaves. */
  function Apply(row: Option<Enrolment>, op: Op): (r: (bool, Option<Enrolment>)) {
    match op
    case Enrol(tenant, secret) =>
      if row.None? then (true, Some(Enrolment(tenant, secret, 0, false)))
      else if row.value.confirmed then (false, row)
      else (true, Some(row.value.(secret := secret, lastStep := 0, confirmed := false)))
    case Confirm(step) =>
      if row.None? then (false, row) else (true, Some(row.value.(lastStep := step, confirmed := true)))
    case Consume(step) =>
      if row.Some? && row.value.lastStep < step then (true, Some(row.value.(lastStep := step))) else (false, row)
    case Remove => (row.Some?, None)
  }

  /** The table in place; `required` holds the API keys that demand a code at login. */
  class EnrolmentTable {
    var rows: map<string, Enrolment>
    var required: set<string>

    constructor ()
      ensures rows == map[] && required == {}
    {
      rows, required := map[], {};
    }

    method UpsertPending(key: string, tenant: string, secret: string) returns (r: Result<(), MfaError>)
      modifies this`rows
      ensures var (matched, row) := Apply(RowOf(old(rows), key), Enrol(tenant, secret));
              && r == (if matched then Ok(()) else Err(AlreadyConfirmed))
              && RowOf(rows, key) == row && forall k | k != key :: RowOf(rows, k) == RowOf(old(rows), k)
      ensures r.Err? <==> key in old(rows) && old(rows)[key].confirmed
      ensures r.Err? ==> rows == old(rows)
      ensures r.Ok? ==> rows == old(rows)[key := Enrolment(if key in old(rows) then old(rows)[key].tenant else tenant, secret, 0, false)]
    {
      if key in rows {
        if rows[key].confirmed {
          return Err(AlreadyConfirmed);
        }
        rows := rows[key := rows[key].(secret := secret, lastStep := 0, confirmed := false)];
      } else {
        rows := rows[key := Enrolment(tenant, secret, 0, false)];
      }
      r := Ok(());
    }

    /** Both updates or neither: a key never comes to demand a code that nobody can produce. */
    method Confirm(key: string, step: int) returns (r: Result<(), MfaError>)
      modifies this
      ensures r.Ok? <==> key in old(rows)
      ensures RowOf(rows, key) == Apply(RowOf(old(rows), key), Op.Confirm(step)).1
      ensures forall k | k != key :: RowOf(rows, k) == RowOf(old(rows), k)
      ensures required == if r.Ok? then old(required) + {key} else old(required)
      ensures r.Ok? ==> rows == old(rows)[key := old(rows)[key].(confirmed := true, lastStep := step)]
      ensures r.Err? ==> rows == old(rows)
    {
      if key !in rows {
        return Err(NothingToConfirm);
      }
      rows := rows[key := rows[key].(confirmed := true, lastStep := step)];
      required := required + {key};
      r := Ok(());
    }

    method TryConsumeStep(key: string, step: int) returns (accepted: bool)
      modifies this`rows
      ensures (accepted, RowOf(rows, key)) == Apply(RowOf(old(rows), key), Consume(step))
      ensures forall k | k != key :: RowOf(rows, k) == RowOf(old(rows), k)
      ensures accepted <==> key in old(rows) && old(rows)[key].lastStep < step
      ensures rows == if accepted then old(rows)[key := old(rows)[key].(lastStep := step)] else old(rows)
    {
      accepted := key in rows && rows[key].lastStep < step;
      if accepted {
        rows := rows[key := rows[key].(lastStep := step)];
      }
    }

    method Delete(key: string)
      modifies this`rows
      ensures RowOf(rows, key) == Apply(RowOf(old(rows), key), Remove).1
      ensures forall k | k != key :: RowOf(rows, k) == RowOf(old(rows), k)
      ensures key !in rows && rows == old(rows) - {key}
    {
      rows := rows - {key};
    }
  }

  // ---------------------------------------------------------------------
  // Steps under concurrency
  // ---------------------------------------------------------------------

  datatype Pending = Pending(key: string, op: Op, row: Option<Enrolment>)

  datatype Event = Event(key: string, op: Op)

  /** An enrolment as a transaction read it: the secret it checks the code against, and where the history stood. */
  datatype Look = Look(key: string, secret: string, since: nat)

  /**
   Committed rows, row locks, what each transaction read, the uncommitted statement of each, and what committed, in
   order.
   */
  datatype Db = Db(
    rows: map<string, Enrolment>, locks: map<string, nat>, looks: map<nat, Look>, pending: map<nat, Pending>,
    history: seq<Event>)

  datatype Action = Find(tx: nat, key: string) | Execute(tx: nat, key: string, op: Op) | Commit(tx: nat) | Abort(tx: nat)

  function Start(): Db { Db(map[], map[], map[], map[], []) }

  function RowOf(rows: map<string, Enrolment>, key: string): Option<Enrolment> {
    if key in rows then Some(rows[key]) else None
  }

  /** A plain read: it sees what is committed and waits for nobody. */
  function DoFind(db: Db, tx: nat, key: string): Db {
    if key !in db.rows then db else db.(looks := db.looks[tx := Look(key, db.rows[key].secret, |db.history|)])
  }

  /** A locked row makes the statement wait; an unlocked one is judged as committed. */
  function DoExecute(db: Db, tx: nat, key: string, op: Op): Db {
    if tx in db.pending || key in db.locks then db
    else
      var (matched, row) := Apply(RowOf(db.rows, key), op);
      if !matched then db
      else db.(locks := db.locks[key := tx], pending := db.pending[tx := Pending(key, op, row)])
  }

  function Close(db: Db, tx: nat): Db {
    db.(locks := map k | k in db.locks && db.locks[k] != tx :: db.locks[k], looks := db.looks - {tx},
        pending := db.pending - {tx})
  }

  function DoCommit(db: Db, tx: nat): Db {
    if tx !in db.pending then db
    else
      var p := db.pending[tx];
      Close(db, tx).(
        rows := if p.row.Some? then db.rows[p.key := p.row.value] else db.rows - {p.key},
        history := db.history + [Event(p.key, p.op)])
  }

  function Step(db: Db, a: Action): Db {
    match a
    case Find(tx, key) => DoFind(db, tx, key)
    case Execute(tx, key, op) => DoExecute(db, tx, key, op)
    case Commit(tx) => DoCommit(db, tx)
    case Abort(tx) => Close(db, tx)
  }

  function Run(db: Db, actions: seq<Action>): Db {
    if actions == [] then db else Step(Run(db, actions[..|actions| - 1]), actions[|actions| - 1])
  }

  // ---------------------------------------------------------------------
  // What every step keeps
  // ---------------------------------------------------------------------

  /** The row a history leaves for a key. */
  function Replay(history: seq<Event>, key: string): (row: Option<Enrolment>) {
    if history == [] then None
    else
      var n := |history| - 1;
      var before := Replay(history[..n], key);
      if history[n].key == key then Apply(before, history[n].op).1 else before
  }

  /** Every committed statement matched the row that the history before it leaves. */
  ghost predicate Matched(history: seq<Event>) {
    forall i | 0 <= i < |history| :: Apply(Replay(history[..i], history[i].key), history[i].op).0
  }

  ghost predicate PendingOk(db: Db, tx: nat)
    requires tx in db.pending
  {
    var p := db.pending[tx];
    p.key in db.locks && db.locks[p.key] == tx && (true, p.row) == Apply(RowOf(db.rows, p.key), p.op)
  }

  ghost predicate Inv(db: Db) {
    && Matched(db.history)
    && (forall k :: RowOf(db.rows, k) == Replay(db.history, k))
    && (forall tx | tx in db.pending :: PendingOk(db, tx))
    && (forall tx | tx in db.looks :: LookOk(db.history, db.looks[tx]))
  }

  /** What was read is what the history left at the time. */
  ghost predicate LookOk(history: seq<Event>, look: Look) {
    && look.since <= |history|
    && var row := Replay(history[..look.since], look.key); row.Some? && row.value.secret == look.secret
  }

  lemma LookStays(history: seq<Event>, e: Event, look: Look)
    requires LookOk(history, look)
    ensures LookOk(history + [e], look)
  {
    assert (history + [e])[..look.since] == history[..look.since];
  }

  lemma FindKeeps(db: Db, tx: nat, key: string)
    requires Inv(db)
    ensures Inv(DoFind(db, tx, key))
  {
    hide Apply, Replay, Matched;
    var db' := DoFind(db, tx, key);
    forall u | u in db'.pending ensures PendingOk(db', u) { assert PendingOk(db, u); }
    assert db.history[..|db.history|] == db.history;
    assert RowOf(db.rows, key) == Replay(db.history, key);
  }

  lemma ReplayAppend(history: seq<Event>, e: Event, key: string)
    ensures Replay(history + [e], key) == if e.key == key then Apply(Replay(history, key), e.op).1 else Replay(history, key)
  {
    assert (history + [e])[..|history|] == history;
  }

  lemma MatchedAppend(history: seq<Event>, e: Event)
    requires Matched(history) && Apply(Replay(history, e.key), e.op).0
    ensures Matched(history + [e])
  {
    hide Apply, Replay;
    var longer := history + [e];
    forall i | 0 <= i < |longer| ensures Apply(Replay(longer[..i], longer[i].key), longer[i].op).0 {
      assert longer[..i] == if i < |history| then history[..i] else history;
    }
  }

  lemma CommitKeeps(db: Db, tx: nat)
    requires Inv(db)
    ensures Inv(DoCommit(db, tx))
  {
    hide Apply, Replay, Matched;
    var db' := DoCommit(db, tx);
    if tx in db.pending {
      var p := db.pending[tx];
      assert PendingOk(db, tx);
      var e := Event(p.key, p.op);
      MatchedAppend(db.history, e);
      forall k ensures RowOf(db'.rows, k) == Replay(db'.history, k) {
        ReplayAppend(db.history, e, k);
      }
      forall u | u in db'.pending ensures PendingOk(db', u) { assert PendingOk(db, u); }
      forall u | u in db'.looks ensures LookOk(db'.history, db'.looks[u]) { LookStays(db.history, e, db.looks[u]); }
    }
  }

  lemma StepKeeps(db: Db, a: Action)
    requires Inv(db)
    ensures Inv(Step(db, a))
  {
    hide Apply, Replay, Matched;
    var db' := Step(db, a);
    if a.Commit? {
      CommitKeeps(db, a.tx);
    } else if a.Find? {
      FindKeeps(db, a.tx, a.key);
    } else {
      forall u | u in db'.pending ensures PendingOk(db', u) { if u in db.pending { assert PendingOk(db, u); } }
    }
  }

  lemma {:induction false} RunKeeps(actions: seq<Action>)
    ensures Inv(Run(Start(), actions))
  {
    hide Step;
    if actions != [] {
      RunKeeps(actions[..|actions| - 1]);
      StepKeeps(Run(Start(), actions[..|actions| - 1]), actions[|actions| - 1]);
    }
  }

  // ---------------------------------------------------------------------
  // No step twice
  // ---------------------------------------------------------------------

  /** Nothing but consumptions of the key's steps between two moments. */
  ghost predicate Undisturbed(history: seq<Event>, key: string, i: nat, j: nat)
    requires i <= j <= |history|
  {
    forall k | i <= k < j && history[k].key == key :: history[k].op.Consume?
  }

  /** Without a reset or confirmation, the highest accepted step only rises. */
  lemma {:induction false} LastStepRises(history: seq<Event>, key: string, i: nat, j: nat)
    requires Matched(history) && i <= j <= |history| && Undisturbed(history, key, i, j)
    requires Replay(history[..i], key).Some?
    ensures Replay(history[..j], key).Some?
    ensures Replay(history[..i], key).value.lastStep <= Replay(history[..j], key).value.lastStep
  {
    hide Replay;
    if i < j {
      LastStepRises(history, key, i, j - 1);
      assert history[..j] == history[..j - 1] + [history[j - 1]];
      ReplayAppend(history[..j - 1], history[j - 1], key);
      assert history[j - 1].key == key ==> Apply(Replay(history[..j - 1], key), history[j - 1].op).0;
    }
  }

  /** The step that an accepted code or a confirmation leaves as the highest. */
  function StepOf(op: Op): Option<int> {
    match op case Consume(step) => Some(step) case Confirm(step) => Some(step) case _ => None
  }

  /**
   Across any interleaving of concurrent transactions, the steps accepted for a key strictly increase until its
   enrolment is reset, removed or confirmed again, starting above the step that confirmed it: no code is accepted twice.
   */
  lemma StepsStrictlyIncrease(actions: seq<Action>, key: string, i: nat, j: nat)
    requires var h := Run(Start(), actions).history;
             && i < j < |h| && h[i].key == key == h[j].key
             && StepOf(h[i].op).Some? && h[j].op.Consume? && Undisturbed(h, key, i + 1, j)
    ensures var h := Run(Start(), actions).history; StepOf(h[i].op).value < h[j].op.step
  {
    hide Run, Step, Replay, Undisturbed, Apply, Matched;
    RunKeeps(actions);
    var h := Run(Start(), actions).history;
    StepLeft(h, i);
    LastStepRises(h, key, i + 1, j);
    StepAbove(h, j);
  }

  lemma StepLeft(h: seq<Event>, i: nat)
    requires Matched(h) && i < |h| && StepOf(h[i].op).Some?
    ensures var row := Replay(h[..i + 1], h[i].key); row.Some? && row.value.lastStep == StepOf(h[i].op).value
  {
    hide Replay;
    assert h[..i + 1] == h[..i] + [h[i]];
    ReplayAppend(h[..i], h[i], h[i].key);
    assert Apply(Replay(h[..i], h[i].key), h[i].op).0;
  }

  lemma StepAbove(h: seq<Event>, j: nat)
    requires Matched(h) && j < |h| && h[j].op.Consume?
    ensures var row := Replay(h[..j], h[j].key); row.Some? && row.value.lastStep < h[j].op.step
  {
    hide Replay;
    assert Apply(Replay(h[..j], h[j].key), h[j].op).0;
  }

  /** Once confirmed, an authenticator stays the same until it is removed: no enrolment, however it races, replaces its
      secret. */
  lemma {:induction false} ConfirmedSecretStays(h: seq<Event>, key: string, i: nat, j: nat)
    requires Matched(h) && i < j <= |h| && h[i].key == key && h[i].op.Confirm?
    requires forall k | i < k < j && h[k].key == key :: !h[k].op.Remove?
    ensures var before, after := Replay(h[..i], key), Replay(h[..j], key);
            before.Some? && after.Some? && after.value.confirmed && after.value.secret == before.value.secret
  {
    hide Replay;
    assert h[..j] == h[..j - 1] + [h[j - 1]];
    ReplayAppend(h[..j - 1], h[j - 1], key);
    assert h[j - 1].key == key ==> Apply(Replay(h[..j - 1], key), h[j - 1].op).0;
    if i < j - 1 {
      ConfirmedSecretStays(h, key, i, j - 1);
    }
  }

  lemma SecondFactorIsNotSwapped(actions: seq<Action>, key: string, i: nat, j: nat)
    requires var h := Run(Start(), actions).history;
             && i < j <= |h| && h[i].key == key && h[i].op.Confirm?
             && forall k | i < k < j && h[k].key == key :: !h[k].op.Remove?
    ensures var h := Run(Start(), actions).history;
            var before, after := Replay(h[..i], key), Replay(h[..j], key);
            before.Some? && after.Some? && after.value.confirmed && after.value.secret == before.value.secret
  {
    hide Run, Replay, Apply;
    RunKeeps(actions);
    ConfirmedSecretStays(Run(Start(), actions).history, key, i, j);
  }

  // ---------------------------------------------------------------------
  // Which secret a code confirms
  // ---------------------------------------------------------------------

  /** The secret of the last enrolment of the key committed from a moment on. */
  function LastEnrolled(h: seq<Event>, key: string, since: nat): Option<string> {
    if |h| <= since then None
    else
      var e := h[|h| - 1];
      if e.key == key && e.op.Enrol? then Some(e.op.secret) else LastEnrolled(h[..|h| - 1], key, since)
  }

  lemma {:induction false} SecretSince(h: seq<Event>, key: string, since: nat)
    requires Matched(h) && since <= |h| && Replay(h[..since], key).Some? && Replay(h, key).Some?
    ensures Replay(h, key).value.secret
            == match LastEnrolled(h, key, since) case Some(secret) => secret case None => Replay(h[..since], key).value.secret
  {
    hide Replay;
    if |h| > since {
      var n := |h| - 1;
      var e := h[n];
      assert h == h[..n] + [e] && Apply(Replay(h[..n], e.key), e.op).0;
      ReplayAppend(h[..n], e, key);
      if e.key != key || !e.op.Enrol? {
        MatchedPrefix(h, n);
        assert h[..n][..since] == h[..since];
        SecretSince(h[..n], key, since);
      }
    } else {
      assert h[..since] == h;
    }
  }

  lemma MatchedPrefix(h: seq<Event>, n: nat)
    requires Matched(h) && n <= |h|
    ensures Matched(h[..n])
  {
    hide Replay, Apply;
    forall i | 0 <= i < n ensures Apply(Replay(h[..n][..i], h[..n][i].key), h[..n][i].op).0 {
      assert h[..n][..i] == h[..i];
    }
  }

  /**
   The confirming UPDATE has no condition on the secret. What it confirms is the secret that the code was checked
   against exactly when the last enrolment committed since the read, if any, was with that same secret.
   */
  lemma ConfirmsProvedSecretIff(actions: seq<Action>, tx: nat)
    requires var db := Run(Start(), actions);
             tx in db.looks && tx in db.pending && db.pending[tx].op.Confirm? && db.pending[tx].key == db.looks[tx].key
    ensures var db := Run(Start(), actions);
            var look, row := db.looks[tx], RowOf(Step(db, Commit(tx)).rows, db.looks[tx].key);
            && row.Some? && row.value.confirmed
            && (row.value.secret == look.secret <==> LastEnrolled(db.history, look.key, look.since) in {None, Some(look.secret)})
  {
    hide Run, Replay, Matched, LastEnrolled;
    RunKeeps(actions);
    var db := Run(Start(), actions);
    assert PendingOk(db, tx) && LookOk(db.history, db.looks[tx]);
    assert RowOf(db.rows, db.looks[tx].key) == Replay(db.history, db.looks[tx].key);
    SecretSince(db.history, db.looks[tx].key, db.looks[tx].since);
  }

  // ---------------------------------------------------------------------
  // When a step is accepted twice
  // ---------------------------------------------------------------------

  /** The highest step that a fresh enrolment or a confirmation leaves, whatever it was before. */
  function Mark(op: Op): Option<int> {
    match op case Enrol(_, _) => Some(0) case Confirm(step) => Some(step) case _ => None
  }

  /** An enrolment or confirmation after `i` set the mark below the step, and only lower steps were accepted since. */
  ghost predicate Reopened(h: seq<Event>, key: string, step: int, i: nat, j: nat)
    requires j <= |h|
  {
    exists k | i < k < j ::
      && h[k].key == key && Mark(h[k].op).Some? && Mark(h[k].op).value < step
      && forall l | k < l < j && h[l].key == key :: h[l].op.Consume? && h[l].op.step < step
  }

  lemma ReopenedLater(h: seq<Event>, key: string, step: int, i: nat, j: nat)
    requires i + 1 < j <= |h|
    ensures var e := h[j - 1];
            Reopened(h, key, step, i, j) <==>
              if e.key != key then Reopened(h, key, step, i, j - 1)
              else if e.op.Consume? then Reopened(h, key, step, i, j - 1) && e.op.step < step
              else Mark(e.op).Some? && Mark(e.op).value < step
  {
    var e := h[j - 1];
    if e.key != key || e.op.Consume? {
      if Reopened(h, key, step, i, j) {
        var k :| i < k < j
          && h[k].key == key && Mark(h[k].op).Some? && Mark(h[k].op).value < step
          && forall l | k < l < j && h[l].key == key :: h[l].op.Consume? && h[l].op.step < step;
        assert k < j - 1;
      }
    } else if Mark(e.op).Some? && Mark(e.op).value < step {
      assert h[j - 1].key == key;
    }
  }

  /** In a history of matched statements, a step accepted at `i` is acceptable again at `j` exactly when it was reopened. */
  lemma {:induction false} AcceptedAgainIff(h: seq<Event>, key: string, i: nat, j: nat)
    requires Matched(h) && i < j <= |h| && h[i].key == key && h[i].op.Consume?
    ensures Apply(Replay(h[..j], key), h[i].op).0 <==> Reopened(h, key, h[i].op.step, i, j)
  {
    hide Replay, Reopened;
    assert h[..j] == h[..j - 1] + [h[j - 1]];
    ReplayAppend(h[..j - 1], h[j - 1], key);
    assert h[j - 1].key == key ==> Apply(Replay(h[..j - 1], key), h[j - 1].op).0;
    if j == i + 1 {
      NotReopened(h, key, h[i].op.step, i);
    } else {
      AcceptedAgainIff(h, key, i, j - 1);
      ReopenedLater(h, key, h[i].op.step, i, j);
    }
  }

  lemma NotReopened(h: seq<Event>, key: string, step: int, i: nat)
    requires i < |h|
    ensures !Reopened(h, key, step, i, i + 1)
  {
  }

  /**
   In every run, a step that was accepted is accepted again exactly when a confirmation at a lower step, or a new
   enrolment, came in between and no step as high was accepted since.
   */
  lemma ReplayIff(actions: seq<Action>, key: string, i: nat)
    requires var h := Run(Start(), actions).history; i < |h| && h[i].key == key && h[i].op.Consume?
    ensures var db := Run(Start(), actions);
            var op := db.history[i].op;
            Apply(RowOf(db.rows, key), op).0 <==> Reopened(db.history, key, op.step, i, |db.history|)
  {
    hide Run, Step, Replay, Apply, Reopened, Matched;
    RunKeeps(actions);
    var h := Run(Start(), actions).history;
    AcceptedAgainIff(h, key, i, |h|);
    assert h[..|h|] == h;
  }

  /** One statement in a transaction of its own. */
  function Solo(key: string, op: Op): seq<Action> { [Execute(0, key, op), Commit(0)] }

  function Row(tenant: string, secret: string, lastStep: int, confirmed: bool): Option<Enrolment> {
    Some(Enrolment(tenant, secret, lastStep, confirmed))
  }

  lemma SoloRun(actions: seq<Action>, key: string, op: Op, before: Option<Enrolment>, after: Option<Enrolment>)
    requires var db := Run(Start(), actions); db.locks == map[] && db.pending == map[] && RowOf(db.rows, key) == before
    requires Apply(before, op) == (true, after)
    ensures var db, db' := Run(Start(), actions), Run(Start(), actions + Solo(key, op));
            && db'.locks == map[] && db'.pending == map[] && RowOf(db'.rows, key) == after
            && db'.history == db.history + [Event(key, op)]
  {
    hide Apply;
    var longer := actions + Solo(key, op);
    assert longer[..|actions|] == actions;
    assert longer[..|actions| + 1][..|actions|] == actions;
    assert longer[..|longer| - 1] == longer[..|actions| + 1];
  }

  /** The run: a code is accepted, an older one still in its window confirms again, and the first is accepted anew. */
  lemma ReconfirmingReplays(key: string, tenant: string, secret: string, n: int)
    ensures var h := Run(Start(), Solo(key, Enrol(tenant, secret)) + Solo(key, Confirm(n)) + Solo(key, Consume(n + 1))
                                  + Solo(key, Confirm(n - 1)) + Solo(key, Consume(n + 1))).history;
            |h| == 5 && h[2] == h[4] == Event(key, Consume(n + 1))
  {
    hide Run, Solo, Step;
    var a1 := Solo(key, Enrol(tenant, secret));
    var a2 := a1 + Solo(key, Confirm(n));
    var a3 := a2 + Solo(key, Consume(n + 1));
    var a4 := a3 + Solo(key, Confirm(n - 1));
    assert Run(Start(), []) == Start() by { RunNone(); }
    assert [] + a1 == a1;
    SoloRun([], key, Enrol(tenant, secret), None, Row(tenant, secret, 0, false));
    SoloRun(a1, key, Confirm(n), Row(tenant, secret, 0, false), Row(tenant, secret, n, true));
    SoloRun(a2, key, Consume(n + 1), Row(tenant, secret, n, true), Row(tenant, secret, n + 1, true));
    SoloRun(a3, key, Confirm(n - 1), Row(tenant, secret, n + 1, true), Row(tenant, secret, n - 1, true));
    SoloRun(a4, key, Consume(n + 1), Row(tenant, secret, n - 1, true), Row(tenant, secret, n + 1, true));
  }

  lemma RunNone()
    ensures Run(Start(), []) == Start()
  {
  }

  lemma {:induction false} RunConcat(db: Db, first: seq<Action>, second: seq<Action>)
    ensures Run(db, first + second) == Run(Run(db, first), second)
  {
    hide Step;
    if second == [] {
      assert first + second == first;
    } else {
      var n := |second| - 1;
      RunConcat(db, first, second[..n]);
      assert (first + second)[..|first| + n] == first + second[..n];
    }
  }

  /**
   The run: a code for one secret is checked, another enrolment commits, and the confirmation that follows confirms the
   other secret, for which nobody has shown a code.
   */
  lemma ConfirmsOtherSecret(key: string, tenant: string, proved: string, other: string, n: int)
    ensures var before := Run(Start(), Solo(key, Enrol(tenant, proved)) + [Find(1, key)] + Solo(key, Enrol(tenant, other))
                                       + [Execute(1, key, Confirm(n))]);
            && 1 in before.looks && before.looks[1].key == key && before.looks[1].secret == proved
            && RowOf(Step(before, Commit(1)).rows, key) == Row(tenant, other, n, true)
  {
    hide Run;
    var a1 := Solo(key, Enrol(tenant, proved));
    var first := Enrolment(tenant, proved, 0, false);
    var look := Look(key, proved, 1);
    var s1 := Db(map[key := first], map[], map[], map[], [Event(key, Enrol(tenant, proved))]);
    SoloFrom(Start(), key, Enrol(tenant, proved), first, s1);
    var s2 := s1.(looks := map[1 := look]);
    assert Step(s1, Find(1, key)) == s2;
    var second := Enrolment(tenant, other, 0, false);
    var s3 := s2.(rows := map[key := second], history := s2.history + [Event(key, Enrol(tenant, other))]);
    SoloFrom(s2, key, Enrol(tenant, other), second, s3);
    RunOne(s1, Find(1, key));
    RunOne(s3, Execute(1, key, Confirm(n)));
    RunConcat(Start(), a1, [Find(1, key)]);
    RunConcat(Start(), a1 + [Find(1, key)], Solo(key, Enrol(tenant, other)));
    RunConcat(Start(), a1 + [Find(1, key)] + Solo(key, Enrol(tenant, other)), [Execute(1, key, Confirm(n))]);
  }

  lemma RunOne(db: Db, a: Action)
    ensures Run(db, [a]) == Step(db, a)
  {
    assert [a][..0] == [];
  }

  lemma SoloFrom(db: Db, key: string, op: Op, row: Enrolment, after: Db)
    requires db.locks == map[] && db.pending == map[] && 0 !in db.looks && Apply(RowOf(db.rows, key), op) == (true, Some(row))
    requires after == db.(rows := db.rows[key := row], history := db.history + [Event(key, op)])
    ensures Run(db, Solo(key, op)) == after
  {
    hide Apply;
    var mid := Step(db, Execute(0, key, op));
    assert mid == db.(locks := map[key := 0], pending := map[0 := Pending(key, op, Some(row))]);
    assert Solo(key, op)[..1] == [Execute(0, key, op)] && [Execute(0, key, op)][..0] == [];
    assert Run(db, [Execute(0, key, op)]) == mid;
  }

  // ---------------------------------------------------------------------
  // Recovery codes
  // ---------------------------------------------------------------------

  /** The codes of one key: hash to whether it is still unused. */
  type Codes = map<string, bool>

  function Unused(c: Codes): set<string> { set h | h in c && c[h] }

  /** The UPDATE: every unused code among the candidates is spent. */
  function Burn(c: Codes, candidates: seq<string>): (r: (bool, Codes)) {
    (exists h | h in c :: c[h] && h in candidates,
     map h | h in c :: c[h] && h !in candidates)
  }

  function Fresh(hashes: seq<string>): Codes { map h | h in hashes :: true }

  predicate Distinct(s: seq<string>) { forall i, j | 0 <= i < j < |s| :: s[i] != s[j] }

  class RecoveryCodes {
    var codes: Codes

    constructor ()
      ensures codes == map[]
    {
      codes := map[];
    }

    /** Delete, then insert one by one; a repeated hash violates the unique index and the transaction rolls back. */
    method Replace(hashes: seq<string>) returns (ok: bool)
      modifies this
      ensures ok <==> Distinct(hashes)
      ensures codes == if ok then Fresh(hashes) else old(codes)
      ensures ok ==> forall h :: (h in codes <==> h in hashes) && (h in codes ==> codes[h])
    {
      var saved := codes;
      codes := map[];
      for i := 0 to |hashes|
        invariant codes == Fresh(hashes[..i]) && Distinct(hashes[..i])
      {
        if hashes[i] in codes {
          codes := saved;
          return false;
        }
        codes := codes[hashes[i] := true];
      }
      assert hashes[..|hashes|] == hashes;
      ok := true;
    }

    method Consume(candidates: seq<string>) returns (ok: bool)
      modifies this
      ensures (ok, codes) == Burn(old(codes), candidates)
      ensures ok <==> exists h | h in candidates :: h in old(codes) && old(codes)[h]
      ensures codes.Keys == old(codes).Keys && forall h | h in codes :: codes[h] <==> old(codes)[h] && h !in candidates
    {
      var before := codes;
      ok := exists h | h in before :: before[h] && h in candidates;
      codes := map h | h in before :: before[h] && h !in candidates;
    }
  }

  lemma BurnShrinks(c: Codes, candidates: seq<string>)
    ensures var (ok, c') := Burn(c, candidates);
            && c'.Keys == c.Keys && Unused(c') == Unused(c) - (set h | h in candidates)
            && (ok ==> |Unused(c')| < |Unused(c)|) && (!ok ==> c' == c)
  {
    var (ok, c') := Burn(c, candidates);
    assert Unused(c') == Unused(c) - (set h | h in candidates);
    if ok {
      var h :| h in c && c[h] && h in candidates;
      Fewer(Unused(c'), Unused(c), h);
    } else {
      assert forall h | h in c :: c'[h] == c[h];
    }
  }

  lemma Fewer(a: set<string>, b: set<string>, x: string)
    requires a <= b && x in b && x !in a
    ensures |a| < |b|
  {
    assert b == a + (b - a) && x in b - a;
  }

  /** One use spends one code exactly when one unused code is among the candidates: two spellings that are both stored
      are both spent. */
  lemma UseSpendsOneIff(c: Codes, candidates: seq<string>)
    ensures |Unused(Burn(c, candidates).1)| == |Unused(c)| - 1 <==> |Unused(c) * (set h | h in candidates)| == 1
  {
    BurnShrinks(c, candidates);
    var u, m := Unused(c), set h | h in candidates;
    assert u == (u - m) + (u * m) && (u - m) !! (u * m);
  }
}
