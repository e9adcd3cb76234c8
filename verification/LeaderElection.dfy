/**
 Leader election over a session-scoped, re-entrant advisory lock: electors, their
 database sessions, and the server that frees a lock when its session ends.

 An elector that sees a query error drops its connection, which returns it to the
 pool: the session lives on until the server ends it.
 */
module LeaderElection {
  import opened Wrappers

  /** The database server: its live sessions and the one that holds the lock. */
  datatype Server = Server(alive: set<nat>, holder: Option<nat>)

  /** `answer` is an attempt whose result has not yet reached the flag. */
  datatype Node = Node(conn: Option<nat>, isLeader: bool, answer: Option<Answer>)

  datatype Answer = Won | Lost | Error

  datatype Cluster = Cluster(server: Server, nodes: map<nat, Node>)

  datatype Action =
    | Connect(node: nat, session: Option<nat>)
    | Attempt(node: nat, outcome: Outcome)
    | Settle(node: nat)
    | SessionEnds(ended: nat)
    | NodeStarts(node: nat)

  // ---------------------------------------------------------------------
  // One elector's round
  // ---------------------------------------------------------------------

  /** `pg_try_advisory_lock` on a session. A dead session is an error, and so is a reply that is lost on its way, though
      the server may have granted the lock. */
  function TryLock(s: Server, session: nat, outcome: Outcome): (r: (Answer, Server)) {
    if session !in s.alive || outcome.Unreachable? then (Error, s)
    else
      var granted := s.holder.None? || s.holder == Some(session);
      (if outcome.AckLost? then Error else if granted then Won else Lost,
       if granted then s.(holder := Some(session)) else s)
  }

  function Tried(n: Node, answer: Answer): Node
    requires n.conn.Some?
  {
    n.(conn := if answer == Error then None else n.conn, answer := Some(answer))
  }

  function Settled(n: Node): Node
    requires n.answer.Some?
  {
    n.(isLeader := n.answer.value == Won, answer := None)
  }

  /** One turn of the election loop: connect if need be, try the lock, set the flag. */
  function Round(s: Server, n: Node, session: Option<nat>, outcome: Outcome): (r: (Server, Node))
    requires n.answer.None?
  {
    var conn := if n.conn.Some? then n.conn else session;
    if conn.None? then (s, n.(isLeader := false))
    else
      var (answer, s') := TryLock(s, conn.value, outcome);
      (s', Settled(Tried(n.(conn := conn), answer)))
  }

  class LockServer {
    var alive: set<nat>
    var holder: Option<nat>

    ghost function View(): Server reads this { Server(alive, holder) }

    constructor ()
      ensures View() == Server({}, None)
    {
      alive, holder := {}, None;
    }

    method TryAdvisoryLock(session: nat, outcome: Outcome) returns (r: Answer)
      modifies this`holder
      ensures (r, View()) == TryLock(old(View()), session, outcome)
      ensures r == Won <==> session in alive && outcome == Acked && (old(holder).None? || old(holder) == Some(session))
      ensures r == Lost <==> session in alive && outcome == Acked && old(holder).Some? && old(holder) != Some(session)
      ensures holder == if session in alive && outcome != Unreachable && old(holder).None? then Some(session) else old(holder)
    {
      if session !in alive || outcome == Unreachable {
        return Error;
      }
      if holder.None? {
        holder := Some(session);
      }
      if outcome == AckLost {
        return Error;
      }
      r := if holder == Some(session) then Won else Lost;
    }
  }

  class LeaderElector {
    var lockConn: Option<nat>
    var isLeader: bool

    ghost function View(): Node reads this { Node(lockConn, isLeader, None) }

    constructor ()
      ensures View() == Node(None, false, None)
    {
      lockConn, isLeader := None, false;
    }

    /** `session` is what the pool hands out, or nothing when it fails to. */
    method RunOnce(server: LockServer, session: Option<nat>, outcome: Outcome)
      modifies this, server`holder
      ensures (server.View(), View()) == Round(old(server.View()), old(View()), session, outcome)
      ensures var conn := if old(lockConn).Some? then old(lockConn) else session;
              && (isLeader <==> conn.Some? && conn.value in server.alive && outcome == Acked && server.holder == conn)
              && lockConn == if conn.Some? && conn.value in server.alive && outcome == Acked then conn else None
    {
      if lockConn.None? {
        if session.None? {
          isLeader := false;
          return;
        }
        lockConn := session;
      }
      var attempt := server.TryAdvisoryLock(lockConn.value, outcome);
      if attempt == Error {
        lockConn := None;
      }
      isLeader := attempt == Won;
    }
  }

  // ---------------------------------------------------------------------
  // Many electors
  // ---------------------------------------------------------------------

  function Start(): Cluster { Cluster(Server({}, None), map[]) }

  predicate InUse(c: Cluster, session: nat) {
    exists n | n in c.nodes :: c.nodes[n].conn == Some(session)
  }

  /** The pool hands out a new session or an idle one, never one that is in use. */
  function DoConnect(c: Cluster, node: nat, session: Option<nat>): Cluster
    requires node in c.nodes
  {
    var n := c.nodes[node];
    if n.conn.Some? || n.answer.Some? then c
    else if session.None? then c.(nodes := c.nodes[node := n.(isLeader := false)])
    else if InUse(c, session.value) then c
    else
      c.(server := c.server.(alive := c.server.alive + {session.value}), nodes := c.nodes[node := n.(conn := session)])
  }

  function DoAttempt(c: Cluster, node: nat, outcome: Outcome): Cluster
    requires node in c.nodes
  {
    var n := c.nodes[node];
    if n.conn.None? || n.answer.Some? then c
    else
      var (answer, s) := TryLock(c.server, n.conn.value, outcome);
      Cluster(s, c.nodes[node := Tried(n, answer)])
  }

  function Step(c: Cluster, a: Action): Cluster {
    match a
    case Connect(node, session) => if node in c.nodes then DoConnect(c, node, session) else c
    case Attempt(node, outcome) => if node in c.nodes then DoAttempt(c, node, outcome) else c
    case Settle(node) =>
      if node in c.nodes && c.nodes[node].answer.Some? then c.(nodes := c.nodes[node := Settled(c.nodes[node])]) else c
    case SessionEnds(session) =>
      c.(server := Server(c.server.alive - {session}, if c.server.holder == Some(session) then None else c.server.holder))
    case NodeStarts(node) => c.(nodes := c.nodes[node := Node(None, false, None)])
  }

  function Run(c: Cluster, actions: seq<Action>): Cluster {
    if actions == [] then c else Step(Run(c, actions[..|actions| - 1]), actions[|actions| - 1])
  }

  // ---------------------------------------------------------------------
  // What every step keeps
  // ---------------------------------------------------------------------

  predicate Live(c: Cluster, node: nat)
    requires node in c.nodes
  {
    c.nodes[node].conn.Some? && c.nodes[node].conn.value in c.server.alive
  }

  /** A flag that is up, or about to go up, over a live session means that session holds the lock. */
  ghost predicate NodeOk(c: Cluster, node: nat)
    requires node in c.nodes
  {
    var n := c.nodes[node];
    && (Live(c, node) && (n.isLeader || n.answer == Some(Won)) ==> c.server.holder == n.conn)
    && (n.answer.Some? && n.answer.value != Error ==> n.conn.Some?)
    && (n.answer == Some(Error) ==> n.conn.None?)
    && (n.isLeader && n.conn.None? ==> n.answer == Some(Error))
    && (n.answer == Some(Lost) && Live(c, node) ==> c.server.holder != n.conn)
  }

  ghost predicate Inv(c: Cluster) {
    && (forall n | n in c.nodes :: NodeOk(c, n))
    && (forall m, n | m in c.nodes && n in c.nodes && m != n && c.nodes[m].conn.Some? :: c.nodes[m].conn != c.nodes[n].conn)
    && (c.server.holder.Some? ==> c.server.holder.value in c.server.alive)
  }

  lemma ConnectKeeps(c: Cluster, node: nat, session: Option<nat>)
    requires Inv(c) && node in c.nodes
    ensures Inv(DoConnect(c, node, session))
  {
    var c' := DoConnect(c, node, session);
    assert NodeOk(c, node);
    forall n | n in c'.nodes ensures NodeOk(c', n) { assert NodeOk(c, n); }
  }

  lemma AttemptKeeps(c: Cluster, node: nat, outcome: Outcome)
    requires Inv(c) && node in c.nodes
    ensures Inv(DoAttempt(c, node, outcome))
  {
    var c' := DoAttempt(c, node, outcome);
    assert NodeOk(c, node);
    forall n | n in c'.nodes ensures NodeOk(c', n) { assert NodeOk(c, n); }
  }

  lemma StepKeeps(c: Cluster, a: Action)
    requires Inv(c)
    ensures Inv(Step(c, a))
  {
    if a.Connect? && a.node in c.nodes {
      ConnectKeeps(c, a.node, a.session);
    } else if a.Attempt? && a.node in c.nodes {
      AttemptKeeps(c, a.node, a.outcome);
    } else {
      var c' := Step(c, a);
      forall n | n in c'.nodes ensures NodeOk(c', n) { if n in c.nodes { assert NodeOk(c, n); } }
    }
  }

  lemma {:induction false} RunKeeps(actions: seq<Action>)
    ensures Inv(Run(Start(), actions))
  {
    hide Step;
    if actions != [] {
      RunKeeps(actions[..|actions| - 1]);
      StepKeeps(Run(Start(), actions[..|actions| - 1]), actions[|actions| - 1]);
    }
  }

  // ---------------------------------------------------------------------
  // Theorems
  // ---------------------------------------------------------------------

  /** In every run, with sessions ending, queries failing and nodes restarting at any moment, at most one node has its
      flag up over a live lock session. */
  lemma AtMostOneLeader(actions: seq<Action>, m: nat, n: nat)
    requires var c := Run(Start(), actions);
             m in c.nodes && n in c.nodes && c.nodes[m].isLeader && Live(c, m) && c.nodes[n].isLeader && Live(c, n)
    ensures m == n
  {
    hide Step, Run;
    RunKeeps(actions);
    var c := Run(Start(), actions);
    assert NodeOk(c, m) && NodeOk(c, n);
  }

  /** Until a node settles, what its attempt was told stays what it was told, whatever the others do. */
  lemma {:induction false} AnswerWaits(c: Cluster, node: nat, actions: seq<Action>)
    requires node in c.nodes && c.nodes[node].answer.Some?
    requires forall a | a in actions :: a != Settle(node) && a != NodeStarts(node)
    ensures node in Run(c, actions).nodes && Run(c, actions).nodes[node] == c.nodes[node]
  {
    if actions != [] {
      var n := |actions| - 1;
      assert actions[n] in actions && forall a | a in actions[..n] :: a in actions;
      AnswerWaits(c, node, actions[..n]);
    }
  }

  /** A live leader's next attempt that the server answers keeps it leader, whatever happens before it reads the answer. */
  lemma LiveLeaderStays(c: Cluster, node: nat, others: seq<Action>)
    requires Inv(c) && node in c.nodes && c.nodes[node].isLeader && Live(c, node) && c.nodes[node].answer.None?
    requires forall a | a in others :: a != Settle(node) && a != NodeStarts(node)
    ensures var tried := Step(c, Attempt(node, Acked));
            var done := Step(Run(tried, others), Settle(node));
            && tried.server == c.server
            && node in done.nodes && done.nodes[node] == c.nodes[node]
  {
    hide Run;
    assert NodeOk(c, node);
    var tried := Step(c, Attempt(node, Acked));
    AnswerWaits(tried, node, others);
  }

  /** A node whose session has ended learns so from its next attempt and takes its flag down. */
  lemma DeadSessionClears(c: Cluster, node: nat, outcome: Outcome, others: seq<Action>)
    requires node in c.nodes && c.nodes[node].conn.Some? && !Live(c, node) && c.nodes[node].answer.None?
    requires forall a | a in others :: a != Settle(node) && a != NodeStarts(node)
    ensures var done := Step(Run(Step(c, Attempt(node, outcome)), others), Settle(node));
            node in done.nodes && done.nodes[node] == Node(None, false, None)
  {
    hide Run;
    AnswerWaits(Step(c, Attempt(node, outcome)), node, others);
  }

  /**
   Dropping the connection after a failed query does not free the lock: the session goes back to the pool holding it.
   Until the server ends that session, or the pool hands it out again, nobody can win.
   */
  lemma {:induction false} StrandedLock(c: Cluster, session: nat, actions: seq<Action>)
    requires Inv(c) && c.server.holder == Some(session) && !InUse(c, session)
    requires forall a | a in actions :: a != SessionEnds(session) && !(a.Connect? && a.session == Some(session))
    ensures var c' := Run(c, actions);
            && Inv(c') && c'.server.holder == Some(session) && !InUse(c', session)
            && forall n | n in c'.nodes && Live(c', n) :: !c'.nodes[n].isLeader && !TryLock(c'.server, c'.nodes[n].conn.value, Acked).0.Won?
  {
    hide Inv, Step;
    if actions != [] {
      var n := |actions| - 1;
      assert actions[n] in actions && forall a | a in actions[..n] :: a in actions;
      StrandedLock(c, session, actions[..n]);
      StepKeeps(Run(c, actions[..n]), actions[n]);
      StrandedStep(Run(c, actions[..n]), session, actions[n]);
    }
    NobodyWins(Run(c, actions), session);
  }

  lemma StrandedStep(c: Cluster, session: nat, a: Action)
    requires Inv(c) && c.server.holder == Some(session) && !InUse(c, session)
    requires a != SessionEnds(session) && !(a.Connect? && a.session == Some(session))
    ensures Step(c, a).server.holder == Some(session) && !InUse(Step(c, a), session)
  {
  }

  lemma NobodyWins(c: Cluster, session: nat)
    requires Inv(c) && c.server.holder == Some(session) && !InUse(c, session)
    ensures forall n | n in c.nodes && Live(c, n) :: !c.nodes[n].isLeader && !TryLock(c.server, c.nodes[n].conn.value, Acked).0.Won?
  {
    forall n | n in c.nodes && Live(c, n) ensures !c.nodes[n].isLeader && c.nodes[n].conn != Some(session) {
      assert NodeOk(c, n);
    }
  }

  /** One step lifts the strand exactly when it ends that session, or hands it to a node that is asking for one. */
  lemma StrandLiftsIff(c: Cluster, session: nat, a: Action)
    requires Inv(c) && c.server.holder == Some(session) && !InUse(c, session)
    ensures var c' := Step(c, a);
            c'.server.holder != Some(session) || InUse(c', session) <==>
              || a == SessionEnds(session)
              || (a.Connect? && a.session == Some(session) && a.node in c.nodes
                  && c.nodes[a.node].conn.None? && c.nodes[a.node].answer.None?)
  {
    var c' := Step(c, a);
    if a.Connect? && a.session == Some(session) && a.node in c.nodes && c.nodes[a.node].conn.None? && c.nodes[a.node].answer.None? {
      assert c'.nodes[a.node].conn == Some(session);
    } else if a != SessionEnds(session) {
      assert forall n | n in c'.nodes && c'.nodes[n].conn.Some? :: n in c.nodes && (c'.nodes[n].conn == c.nodes[n].conn || a.Connect?);
    }
  }

  /**
   An attempt on a session that has the lock, or is about to be granted it, fails or loses its reply: the lock is
   stranded. Another node's attempt loses, and wins once the session has ended; the node itself wins again if the pool
   hands it the same session.
   */
  lemma ErrorStrandsLock(c: Cluster, node: nat, other: nat, outcome: Outcome)
    requires Inv(c) && node in c.nodes && c.nodes[node].answer.None? && Live(c, node)
    requires if c.server.holder.None? then outcome.AckLost? else c.server.holder == c.nodes[node].conn && !outcome.Acked?
    requires other in c.nodes && other != node && Live(c, other) && c.nodes[other].answer.None?
    ensures var session := c.nodes[node].conn.value;
            var failed := Step(c, Attempt(node, outcome));
            var again := Step(Step(failed, Settle(node)), Connect(node, Some(session)));
            && failed.server.holder == Some(session) && !InUse(failed, session)
            && Step(failed, Attempt(other, Acked)).nodes[other].answer == Some(Lost)
            && Step(Step(failed, SessionEnds(session)), Attempt(other, Acked)).nodes[other].answer == Some(Won)
            && Step(again, Attempt(node, Acked)).nodes[node].answer == Some(Won)
  {
    assert NodeOk(c, node) && NodeOk(c, other);
    var session := c.nodes[node].conn.value;
    var settled := Step(Step(c, Attempt(node, outcome)), Settle(node));
    assert !InUse(settled, session);
  }

  /** The loop's turn is the three steps in a row. */
  lemma RoundIsThreeSteps(c: Cluster, node: nat, session: Option<nat>, outcome: Outcome)
    requires node in c.nodes && c.nodes[node].answer.None?
    requires c.nodes[node].conn.None? && session.Some? ==> !InUse(c, session.value) && session.value in c.server.alive
    ensures var c' := Step(Step(Step(c, Connect(node, session)), Attempt(node, outcome)), Settle(node));
            var (s, n) := Round(c.server, c.nodes[node], session, outcome);
            c'.server == s && c'.nodes == c.nodes[node := n]
  {
    var c1 := Step(c, Connect(node, session));
    assert c1.server.alive == c.server.alive;
  }
}
