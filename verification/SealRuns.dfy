/**
 The seal across replicas: any number of processes, restarts and concurrent init
 requests over one write-once database row. An init is four steps (check, write
 memory, save the row, answer), and other requests may run between any two.
 */
module SealRuns {
  import opened Wrappers
  import opened Envelope
  import opened Sealing

  datatype Phase = Checked | Written | Saved | Failed

  datatype Init<S> = Init(pid: nat, phase: Phase, made: Made<S>)

  /** A process: the root key it was started with, if any, and its seal. */
  datatype Process<S> = Process(legacy: Option<Key>, seal: SealState<S>)

  datatype World<S(==)> = World(
    row: Option<Material>,
    processes: map<nat, Process<S>>,
    inits: map<nat, Init<S>>,
    drawn: set<Made<S>>,
    released: seq<Made<S>>)

  datatype Action<S> =
    | Boot(pid: nat, legacy: Option<Key>)
    | InitStart(rid: nat, pid: nat, shares: Byte, threshold: Byte, root: Key, unsealKey: Key, seed: nat)
    | InitCommit(rid: nat)
    | InitSave(rid: nat, outcome: Outcome)
    | InitEnd(rid: nat)
    | Submit(pid: nat, sub: Submission<S>)
    | SealNow(pid: nat)
    | ResetProgress(pid: nat)

  function Start<S(==)>(): World<S> { World(None, map[], map[], {}, []) }

  /** `save_initial`: the row is inserted only when there is none. */
  function SaveInitial(row: Option<Material>, m: Material): (r: (bool, Option<Material>)) {
    if row.None? then (true, Some(m)) else (false, row)
  }

  /** A start, or restart: persisted material wins over a root key in the environment. */
  function Booted<S>(row: Option<Material>, legacy: Option<Key>): (p: Process<S>) {
    if row.Some? then Process(None, Loaded(row.value))
    else if legacy.Some? then Process(legacy, AdoptRoot(NewSeal(), legacy.value))
    else Process(None, NewSeal())
  }

  function SetSeal<S(==)>(w: World<S>, pid: nat, s: SealState<S>): World<S>
    requires pid in w.processes
  {
    w.(processes := w.processes[pid := w.processes[pid].(seal := s)])
  }

  function DoBoot<S(==)>(w: World<S>, pid: nat, legacy: Option<Key>): World<S> {
    w.(processes := w.processes[pid := Booted(w.row, legacy)],
       inits := map rid | rid in w.inits && w.inits[rid].pid != pid :: w.inits[rid])
  }

  function DoStart<S(==)>(
    c: Scheme<S>, w: World<S>, rid: nat, pid: nat, shares: Byte, threshold: Byte, root: Key, unsealKey: Key, seed: nat): World<S>
  {
    if pid !in w.processes || InitCheck(w.processes[pid].seal, shares, threshold).Err? then w
    else
      var m := Make(c, shares, threshold, root, unsealKey, seed);
      w.(inits := w.inits[rid := Init(pid, Checked, m)], drawn := w.drawn + {m})
  }

  function DoCommit<S(==)>(w: World<S>, rid: nat): World<S> {
    if rid !in w.inits || !w.inits[rid].phase.Checked? || w.inits[rid].pid !in w.processes then w
    else
      var i := w.inits[rid];
      SetSeal(w, i.pid, InitWrite(w.processes[i.pid].seal, i.made.material)).(inits := w.inits[rid := i.(phase := Written)])
  }

  function DoSave<S(==)>(w: World<S>, rid: nat, outcome: Outcome): World<S> {
    if rid !in w.inits || !w.inits[rid].phase.Written? then w
    else
      var i := w.inits[rid];
      var (inserted, row) := SaveInitial(w.row, i.made.material);
      if outcome.Unreachable? then w.(inits := w.inits[rid := i.(phase := Failed)])
      else w.(row := row, inits := w.inits[rid := i.(phase := if inserted && outcome.Acked? then Saved else Failed)])
  }

  /** The answer: shares after a save, or the seal closed again after a failure. */
  function DoEnd<S(==)>(w: World<S>, rid: nat): World<S> {
    if rid !in w.inits then w
    else
      var i := w.inits[rid];
      var done := w.(inits := w.inits - {rid});
      if i.phase.Saved? then done.(released := w.released + [i.made])
      else if i.phase.Failed? && i.pid in w.processes then SetSeal(done, i.pid, Closed(w.processes[i.pid].seal))
      else w
  }

  function Step<S(==)>(c: Scheme<S>, w: World<S>, a: Action<S>): World<S> {
    match a
    case Boot(pid, legacy) => DoBoot(w, pid, legacy)
    case InitStart(rid, pid, shares, threshold, root, unsealKey, seed) =>
      DoStart(c, w, rid, pid, shares, threshold, root, unsealKey, seed)
    case InitCommit(rid) => DoCommit(w, rid)
    case InitSave(rid, outcome) => DoSave(w, rid, outcome)
    case InitEnd(rid) => DoEnd(w, rid)
    case Submit(pid, sub) =>
      if pid in w.processes then SetSeal(w, pid, Unseal(c, w.processes[pid].seal, sub).1) else w
    case SealNow(pid) => if pid in w.processes then SetSeal(w, pid, Closed(w.processes[pid].seal)) else w
    case ResetProgress(pid) => if pid in w.processes then SetSeal(w, pid, Reset(w.processes[pid].seal)) else w
  }

  /** A new request has a new id and draws an unseal key nobody drew before. */
  ghost predicate Legal<S(!new)>(w: World<S>, a: Action<S>) {
    a.InitStart? ==> a.rid !in w.inits && forall m | m in w.drawn :: m.unsealKey != a.unsealKey
  }

  function Run<S(==)>(c: Scheme<S>, w: World<S>, actions: seq<Action<S>>): World<S> {
    if actions == [] then w else Step(c, Run(c, w, actions[..|actions| - 1]), actions[|actions| - 1])
  }

  ghost predicate LegalRun<S(!new)>(c: Scheme<S>, w: World<S>, actions: seq<Action<S>>) {
    forall i | 0 <= i < |actions| :: Legal(Run(c, w, actions[..i]), actions[i])
  }

  // ---------------------------------------------------------------------
  // What every step keeps
  // ---------------------------------------------------------------------

  ghost predicate DrawnOk<S(!new)>(c: Scheme<S>, drawn: set<Made<S>>) {
    && (forall m | m in drawn :: WellMade(c, m))
    && (forall m, n | m in drawn && n in drawn && m.unsealKey == n.unsealKey :: m == n)
  }

  ghost predicate FromDraw<S(!new)>(drawn: set<Made<S>>, material: Material) {
    exists m :: m in drawn && m.material == material
  }

  /** A root key in memory is the one sealed in the material, or the legacy one of a process that has no material. */
  ghost predicate SealOk<S(!new)>(drawn: set<Made<S>>, p: Process<S>) {
    && (p.seal.material.Some? ==> FromDraw(drawn, p.seal.material.value))
    && (p.seal.root.Some? ==>
          if p.seal.material.Some? then RootSealed(drawn, p.seal.material.value, p.seal.root.value)
          else p.seal.root == p.legacy)
  }

  ghost predicate RootSealed<S(!new)>(drawn: set<Made<S>>, material: Material, root: Key) {
    exists m :: m in drawn && m.material == material && m.root == root
  }

  ghost predicate InitsOk<S(!new)>(w: World<S>) {
    && (forall r | r in w.inits :: w.inits[r].made in w.drawn && w.inits[r].made !in w.released)
    && (forall r, q | r in w.inits && q in w.inits && r != q :: w.inits[r].made != w.inits[q].made)
    && (forall r | r in w.inits && w.inits[r].phase.Saved? :: w.row == Some(w.inits[r].made.material))
  }

  ghost predicate ReleasedOk<S(!new)>(w: World<S>) {
    && |w.released| <= 1
    && (forall m | m in w.released :: m in w.drawn && w.row == Some(m.material))
  }

  ghost predicate Inv<S(!new)>(c: Scheme<S>, w: World<S>) {
    && DrawnOk(c, w.drawn)
    && (w.row.Some? ==> FromDraw(w.drawn, w.row.value))
    && (forall pid | pid in w.processes :: SealOk(w.drawn, w.processes[pid]))
    && InitsOk(w) && ReleasedOk(w)
  }

  lemma StartKeeps<S(!new)>(c: Scheme<S>, w: World<S>, a: Action<S>)
    requires Contract(c) && Inv(c, w) && Legal(w, a) && a.InitStart?
    ensures Inv(c, Step(c, w, a))
  {
    hide WellMade, Contract, SealOk;
    var w' := Step(c, w, a);
    if w' != w {
      MakeIsWellMade(c, a.shares, a.threshold, a.root, a.unsealKey, a.seed);
      var m := Make(c, a.shares, a.threshold, a.root, a.unsealKey, a.seed);
      assert m !in w.drawn;
      forall pid | pid in w'.processes ensures SealOk(w'.drawn, w'.processes[pid]) {
        DrawsGrow(w.drawn, w'.drawn, w.processes[pid]);
      }
    }
  }

  lemma DrawsGrow<S(!new)>(drawn: set<Made<S>>, drawn': set<Made<S>>, p: Process<S>)
    requires SealOk(drawn, p) && drawn <= drawn'
    ensures SealOk(drawn', p)
  {
  }

  /** Unsealing only ever puts the root key sealed in the material into memory. */
  lemma UnsealKeeps<S(!new)>(c: Scheme<S>, drawn: set<Made<S>>, p: Process<S>, sub: Submission<S>)
    requires DrawnOk(c, drawn) && SealOk(drawn, p)
    ensures SealOk(drawn, p.(seal := Unseal(c, p.seal, sub).1))
  {
    var s' := Unseal(c, p.seal, sub).1;
    if s'.root != p.seal.root {
      var m :| m in drawn && m.material == p.seal.material.value;
      assert WellMade(c, m);
      assert m.root == s'.root.value;
    }
  }

  lemma CommitKeeps<S(!new)>(c: Scheme<S>, w: World<S>, rid: nat)
    requires Inv(c, w)
    ensures Inv(c, DoCommit(w, rid))
  {
    hide DrawnOk, RootSealed;
    var w' := DoCommit(w, rid);
    if w' != w {
      var i := w.inits[rid];
      assert i.made in w.drawn;
      assert SealOk(w.drawn, w'.processes[i.pid]);
    }
  }

  lemma SaveKeeps<S(!new)>(c: Scheme<S>, w: World<S>, rid: nat, outcome: Outcome)
    requires Inv(c, w)
    ensures Inv(c, DoSave(w, rid, outcome))
  {
    hide DrawnOk, SealOk;
    var w' := DoSave(w, rid, outcome);
    if w' != w {
      assert w.inits[rid].made in w.drawn;
      forall r | r in w'.inits && w'.inits[r].phase.Saved? ensures w'.row == Some(w'.inits[r].made.material) {
        assert r != rid ==> w.inits[r].phase.Saved?;
      }
    }
  }

  /** Only one request can find its own material in the row. */
  lemma SameMaterialSameDraw<S(!new)>(c: Scheme<S>, drawn: set<Made<S>>, m: Made<S>, n: Made<S>)
    requires DrawnOk(c, drawn) && m in drawn && n in drawn && m.material == n.material
    ensures m == n
  {
    assert WellMade(c, m) && WellMade(c, n);
  }

  lemma EndKeeps<S(!new)>(c: Scheme<S>, w: World<S>, rid: nat)
    requires Inv(c, w)
    ensures Inv(c, DoEnd(w, rid))
  {
    hide WellMade;
    if rid in w.inits && w.inits[rid].phase.Saved? {
      var m := w.inits[rid].made;
      if w.released != [] {
        assert w.released[0] in w.released;
        SameMaterialSameDraw(c, w.drawn, m, w.released[0]);
        assert false;
      }
      assert w.released + [m] == [m];
    }
  }

  lemma StepKeeps<S(!new)>(c: Scheme<S>, w: World<S>, a: Action<S>)
    requires Contract(c) && Inv(c, w) && Legal(w, a)
    ensures Inv(c, Step(c, w, a))
  {
    hide Contract, Unseal, DrawnOk, RootSealed, DoStart, DoCommit, DoSave, DoEnd;
    match a {
      case Boot(pid, legacy) =>
      case InitStart(_, _, _, _, _, _, _) => StartKeeps(c, w, a);
      case InitCommit(rid) => CommitKeeps(c, w, rid);
      case InitSave(rid, outcome) => SaveKeeps(c, w, rid, outcome);
      case InitEnd(rid) => EndKeeps(c, w, rid);
      case Submit(pid, sub) => if pid in w.processes { UnsealKeeps(c, w.drawn, w.processes[pid], sub); }
      case SealNow(pid) =>
      case ResetProgress(pid) =>
    }
  }

  lemma LegalPrefix<S(!new)>(c: Scheme<S>, w: World<S>, actions: seq<Action<S>>, n: nat)
    requires LegalRun(c, w, actions) && n <= |actions|
    ensures LegalRun(c, w, actions[..n])
  {
    hide Step, Legal;
    forall i | 0 <= i < n ensures Legal(Run(c, w, actions[..n][..i]), actions[..n][i]) {
      assert actions[..n][..i] == actions[..i];
    }
  }

  lemma {:induction false} RunKeeps<S(!new)>(c: Scheme<S>, actions: seq<Action<S>>)
    requires Contract(c) && LegalRun(c, Start(), actions)
    ensures Inv(c, Run(c, Start(), actions))
  {
    hide Step, Contract, Legal;
    if actions != [] {
      var n := |actions| - 1;
      LegalPrefix(c, Start(), actions, n);
      RunKeeps(c, actions[..n]);
      StepKeeps(c, Run(c, Start(), actions[..n]), actions[n]);
    }
  }

  // ---------------------------------------------------------------------
  // An initialized process stays initialized
  // ---------------------------------------------------------------------

  /** An init passes its check exactly for a possible threshold on a running process that has no material. */
  lemma InitStartsIff<S(!new)>(
    c: Scheme<S>, w: World<S>, rid: nat, pid: nat, shares: Byte, threshold: Byte, root: Key, unsealKey: Key, seed: nat)
    requires rid !in w.inits
    ensures var w' := Step(c, w, InitStart(rid, pid, shares, threshold, root, unsealKey, seed));
            var passes := pid in w.processes && 1 <= threshold <= shares && w.processes[pid].seal.material.None?;
            && (rid in w'.inits <==> passes) && (!passes ==> w' == w) && w'.processes == w.processes && w'.row == w.row
  {
  }

  /** Every init under way began at a process that had no material then. */
  ghost predicate BeganClean<S(!new)>(c: Scheme<S>, actions: seq<Action<S>>, rid: nat, pid: nat, m: nat) {
    && m < |actions| && actions[m].InitStart? && actions[m].rid == rid && actions[m].pid == pid
    && var w := Run(c, Start(), actions[..m]); pid in w.processes && w.processes[pid].seal.material.None?
  }

  lemma {:induction false} InitBegan<S(!new)>(c: Scheme<S>, actions: seq<Action<S>>, rid: nat) returns (m: nat)
    requires rid in Run(c, Start(), actions).inits
    ensures BeganClean(c, actions, rid, Run(c, Start(), actions).inits[rid].pid, m)
  {
    hide Step;
    var n := |actions| - 1;
    var before := Run(c, Start(), actions[..n]);
    NewInit(c, before, actions[n], rid);
    if rid in before.inits && before.inits[rid].pid == Run(c, Start(), actions).inits[rid].pid {
      m := InitBegan(c, actions[..n], rid);
      assert actions[..n][..m] == actions[..m];
    } else {
      m := n;
    }
  }

  lemma NewInit<S(!new)>(c: Scheme<S>, w: World<S>, a: Action<S>, rid: nat)
    requires rid in Step(c, w, a).inits
    ensures var pid := Step(c, w, a).inits[rid].pid;
            || (rid in w.inits && w.inits[rid].pid == pid)
            || (a.InitStart? && a.rid == rid && a.pid == pid && pid in w.processes && w.processes[pid].seal.material.None?)
  {
    hide Unseal;
  }

  /** The material of a process, once it runs. */
  function MaterialOf<S(==)>(w: World<S>, pid: nat): Option<Material> {
    if pid in w.processes then w.processes[pid].seal.material else None
  }

  lemma MaterialStep<S(!new)>(c: Scheme<S>, w: World<S>, a: Action<S>, pid: nat)
    requires MaterialOf(Step(c, w, a), pid) != MaterialOf(w, pid)
    ensures || (a.Boot? && a.pid == pid && MaterialOf(Step(c, w, a), pid) == w.row)
            || (a.InitCommit? && a.rid in w.inits && w.inits[a.rid].pid == pid
                && MaterialOf(Step(c, w, a), pid) == Some(w.inits[a.rid].made.material))
  {
    if a.Submit? && a.pid in w.processes { UnsealKeepsMaterial(c, w.processes[a.pid].seal, a.sub); }
  }

  lemma UnsealKeepsMaterial<S>(c: Scheme<S>, s: SealState<S>, sub: Submission<S>)
    ensures Unseal(c, s, sub).1.material == s.material
  {
  }

  /**
   In every run the material of a process changes only when the process starts, to what the row holds, or at the commit
   of an init that began while the process had none, to what that init made: an initialized process refuses to be
   initialized again.
   */
  lemma MaterialChangesOnly<S(!new)>(c: Scheme<S>, actions: seq<Action<S>>, pid: nat) returns (m: nat)
    requires actions != []
    requires var n := |actions| - 1;
             MaterialOf(Run(c, Start(), actions), pid) != MaterialOf(Run(c, Start(), actions[..n]), pid)
    ensures var n := |actions| - 1;
            var w, a := Run(c, Start(), actions[..n]), actions[n];
            || (a.Boot? && a.pid == pid && MaterialOf(Run(c, Start(), actions), pid) == w.row)
            || (a.InitCommit? && a.rid in w.inits && BeganClean(c, actions[..n], a.rid, pid, m)
                && MaterialOf(Run(c, Start(), actions), pid) == Some(w.inits[a.rid].made.material))
  {
    hide Step, BeganClean;
    var n := |actions| - 1;
    var w, a := Run(c, Start(), actions[..n]), actions[n];
    MaterialStep(c, w, a, pid);
    m := 0;
    if a.InitCommit? { m := InitBegan(c, actions[..n], a.rid); }
  }

  // ---------------------------------------------------------------------
  // Theorems
  // ---------------------------------------------------------------------

  lemma {:induction false} RowWrittenOnce<S>(c: Scheme<S>, w: World<S>, actions: seq<Action<S>>)
    requires w.row.Some?
    ensures Run(c, w, actions).row == w.row
  {
    if actions != [] {
      RowWrittenOnce(c, w, actions[..|actions| - 1]);
    }
  }

  /**
   Across any replicas, restarts and concurrent inits, at most one init ever answers with shares, and the row is its
   material. Any `threshold` of those shares, in any order, open any process that loads the row, to the root key that
   init generated.
   */
  lemma ReleasedSharesOpenTheVault<S(!new)>(c: Scheme<S>, actions: seq<Action<S>>, m: Made<S>, picked: seq<S>)
    requires Contract(c) && LegalRun(c, Start(), actions)
    requires m in Run(c, Start(), actions).released && Selection(picked, m.shares, m.material.threshold)
    ensures var w := Run(c, Start(), actions);
            && w.released == [m] && w.row == Some(m.material)
            && forall legacy ::
                 Feed(c, Booted<S>(w.row, legacy).seal, Submitted(picked)) == SealState(w.row, Some(m.root), [])
  {
    hide Step, Contract, Legal, LegalRun, Run, Feed;
    RunKeeps(c, actions);
    var w := Run(c, Start(), actions);
    assert w.released[0] == m;
    assert WellMade(c, m);
    ThresholdOpensIff(c, m, m, picked);
  }

  /**
   A root key held by a process that has material is the one sealed in it, at every moment of every run: the same
   before and after any number of seal and unseal cycles, and the same in any two processes with that material.
   A process without material holds at most the root key it was started with.
   */
  lemma HeldRootIsTheSealedOne<S(!new)>(c: Scheme<S>, actions: seq<Action<S>>, pid: nat)
    requires Contract(c) && LegalRun(c, Start(), actions)
    requires var w := Run(c, Start(), actions); pid in w.processes && w.processes[pid].seal.root.Some?
    ensures var w := Run(c, Start(), actions);
            var p := w.processes[pid];
            match p.seal.material
            case Some(material) =>
              exists unsealKey :: material.sealedRoot == Sealed(unsealKey, RawKey(p.seal.root.value), SEAL_AAD)
                                  && material.check == CheckOf(unsealKey)
            case None => p.seal.root == p.legacy
  {
    hide Step, Contract, Legal, LegalRun, Run;
    RunKeeps(c, actions);
    var w := Run(c, Start(), actions);
    var p := w.processes[pid];
    assert SealOk(w.drawn, p);
    if p.seal.material.Some? {
      var m :| m in w.drawn && m.material == p.seal.material.value && m.root == p.seal.root.value;
      assert WellMade(c, m);
    }
  }

  /** Seal and unseal as often as you like: whenever a process holds a root key over the same material, it is the same key. */
  lemma RootStableAcrossCycles<S(!new)>(c: Scheme<S>, actions: seq<Action<S>>, earlier: nat, pid: nat)
    requires Contract(c) && LegalRun(c, Start(), actions) && earlier <= |actions|
    requires var v, w := Run(c, Start(), actions[..earlier]), Run(c, Start(), actions);
             && pid in v.processes && pid in w.processes
             && v.processes[pid].seal.material.Some? && v.processes[pid].seal.material == w.processes[pid].seal.material
             && v.processes[pid].seal.root.Some? && w.processes[pid].seal.root.Some?
    ensures Run(c, Start(), actions[..earlier]).processes[pid].seal.root == Run(c, Start(), actions).processes[pid].seal.root
  {
    hide Step, Contract, Legal, LegalRun, Run;
    LegalPrefix(c, Start(), actions, earlier);
    HeldRootIsTheSealedOne(c, actions[..earlier], pid);
    HeldRootIsTheSealedOne(c, actions, pid);
  }

  /**
   The released shares open a sealed process with no shares pending exactly when its memory agrees with the row. Memory
   and row part ways when two inits of one process overlap, or when an init finds the row taken: such a process keeps
   material nobody has shares for, and needs a restart. Only if that material asks for fewer shares than were dealt for
   can it open at all, by a chance recovery, and then to nothing but the root key sealed in it.
   */
  lemma ReleasedSharesOpenProcessIff<S(!new)>(c: Scheme<S>, actions: seq<Action<S>>, m: Made<S>, picked: seq<S>, pid: nat)
    requires Contract(c) && LegalRun(c, Start(), actions)
    requires var w := Run(c, Start(), actions);
             && m in w.released && Selection(picked, m.shares, m.material.threshold)
             && pid in w.processes && w.processes[pid].seal.root.None? && w.processes[pid].seal.pending == []
             && w.processes[pid].seal.material.Some?
    ensures var w := Run(c, Start(), actions);
            var s := w.processes[pid].seal;
            var root := Feed(c, s, Submitted(picked)).root;
            && (s.material == w.row ==> root == Some(m.root))
            && (m.material.threshold <= s.material.value.threshold ==> (root.Some? <==> s.material == w.row))
            && (root.Some? ==> RootSealed(w.drawn, s.material.value, root.value))
  {
    hide Step, Contract, Legal, LegalRun, Run, Feed;
    RunKeeps(c, actions);
    var w := Run(c, Start(), actions);
    var s := w.processes[pid].seal;
    assert SealOk(w.drawn, w.processes[pid]);
    var n :| n in w.drawn && n.material == s.material.value;
    assert WellMade(c, m) && WellMade(c, n);
    ThresholdOpensIff(c, m, n, picked);
    if m.unsealKey == n.unsealKey { assert m == n; }
  }

  lemma RunFour<S>(c: Scheme<S>, w: World<S>, a: Action<S>, b: Action<S>, d: Action<S>, e: Action<S>)
    ensures Run(c, w, [a, b, d, e]) == Step(c, Step(c, Step(c, Step(c, w, a), b), d), e)
  {
    hide Step;
    assert [a, b, d, e][..3] == [a, b, d] && [a, b, d][..2] == [a, b] && [a, b][..1] == [a] && [a][..0] == [];
    assert Run(c, w, [a]) == Step(c, Run(c, w, []), a);
    assert Run(c, w, [a, b]) == Step(c, Run(c, w, [a]), b);
    assert Run(c, w, [a, b, d]) == Step(c, Run(c, w, [a, b]), d);
  }

  /**
   An init that nothing disturbs, however its save ends. One that does not pass its check changes nothing. One that does
   leaves the process sealed over the material it made; it answers with the shares exactly when the row was empty and the
   save was acknowledged, and the row is filled unless the database was out of reach.
   */
  lemma UndisturbedInitAnswersIff<S(!new)>(
    c: Scheme<S>, w: World<S>, rid: nat, pid: nat, shares: Byte, threshold: Byte, root: Key, unsealKey: Key, seed: nat,
    outcome: Outcome)
    requires rid !in w.inits
    ensures var w' := Run(c, w, [InitStart(rid, pid, shares, threshold, root, unsealKey, seed), InitCommit(rid),
                                 InitSave(rid, outcome), InitEnd(rid)]);
            if pid !in w.processes || w.processes[pid].seal.material.Some? || !(1 <= threshold <= shares) then w' == w
            else
              var m := Make(c, shares, threshold, root, unsealKey, seed);
              && w'.released == w.released + (if w.row.None? && outcome == Acked then [m] else [])
              && w'.row == (if w.row.None? && outcome != Unreachable then Some(m.material) else w.row)
              && w'.processes == w.processes[pid := w.processes[pid].(seal := SealState(Some(m.material), None, []))]
              && w'.inits == w.inits
  {
    hide Make, Run, Step;
    RunFour(c, w, InitStart(rid, pid, shares, threshold, root, unsealKey, seed), InitCommit(rid), InitSave(rid, outcome), InitEnd(rid));
    InitBegins(c, w, rid, pid, shares, threshold, root, unsealKey, seed);
    if pid in w.processes && w.processes[pid].seal.material.None? && 1 <= threshold <= shares {
      var m := Make(c, shares, threshold, root, unsealKey, seed);
      InitFinishes(c, w, rid, pid, m, outcome);
    } else {
      NoSuchInit(c, w, rid, outcome);
    }
  }

  /** The world in which one more init has written its material to memory. */
  function Begun<S(==)>(w: World<S>, rid: nat, pid: nat, m: Made<S>): World<S>
    requires pid in w.processes
  {
    SetSeal(w, pid, SealState(Some(m.material), None, [])).(inits := w.inits[rid := Init(pid, Written, m)], drawn := w.drawn + {m})
  }

  lemma InitBegins<S(!new)>(
    c: Scheme<S>, w: World<S>, rid: nat, pid: nat, shares: Byte, threshold: Byte, root: Key, unsealKey: Key, seed: nat)
    requires rid !in w.inits
    ensures var w' := Step(c, Step(c, w, InitStart(rid, pid, shares, threshold, root, unsealKey, seed)), InitCommit(rid));
            if pid !in w.processes || w.processes[pid].seal.material.Some? || !(1 <= threshold <= shares) then w' == w
            else w' == Begun(w, rid, pid, Make(c, shares, threshold, root, unsealKey, seed))
  {
    hide Make, Unseal;
  }

  lemma InitFinishes<S(!new)>(c: Scheme<S>, w: World<S>, rid: nat, pid: nat, m: Made<S>, outcome: Outcome)
    requires rid !in w.inits && pid in w.processes
    ensures var w' := Step(c, Step(c, Begun(w, rid, pid, m), InitSave(rid, outcome)), InitEnd(rid));
            && w'.released == w.released + (if w.row.None? && outcome == Acked then [m] else [])
            && w'.row == (if w.row.None? && outcome != Unreachable then Some(m.material) else w.row)
            && w'.processes == Begun(w, rid, pid, m).processes && w'.inits == w.inits
  {
    hide Unseal;
  }

  lemma NoSuchInit<S(!new)>(c: Scheme<S>, w: World<S>, rid: nat, outcome: Outcome)
    requires rid !in w.inits
    ensures Step(c, Step(c, w, InitSave(rid, outcome)), InitEnd(rid)) == w
  {
    hide Unseal;
  }

  /** A process that starts again knows what the row says and nothing else: it is sealed over the row, or, where there is
      none, it runs on the root key it was given, if any. Its inits are gone. */
  lemma StartKnowsTheRow<S(!new)>(c: Scheme<S>, actions: seq<Action<S>>, pid: nat, legacy: Option<Key>)
    ensures var w, w' := Run(c, Start(), actions), Run(c, Start(), actions + [Boot(pid, legacy)]);
            && pid in w'.processes && w'.row == w.row && w'.released == w.released
            && w'.processes[pid].seal == (if w.row.Some? then SealState(w.row, None, []) else SealState(None, legacy, []))
            && (forall q | q in w.processes && q != pid :: q in w'.processes && w'.processes[q] == w.processes[q])
            && (forall rid :: rid in w'.inits <==> rid in w.inits && w.inits[rid].pid != pid)
  {
    assert (actions + [Boot(pid, legacy)])[..|actions|] == actions;
  }

  /**
   Two inits of one uninitialized process that overlap: the one that saves first answers with its shares, and the other
   has meanwhile put its own material into memory. The answered shares do not open the process that answered, unless
   that material asks for fewer of them; and then they can only open it to a root key that is in no row.
   */
  lemma OverlappingInitsStrand<S(!new)>(
    c: Scheme<S>, actions: seq<Action<S>>, first: nat, second: nat, pid: nat, picked: seq<S>)
    requires Contract(c) && LegalRun(c, Start(), actions)
    requires var w := Run(c, Start(), actions);
             && w.row.None? && pid in w.processes && first != second
             && first in w.inits && w.inits[first].pid == pid && w.inits[first].phase.Checked?
             && second in w.inits && w.inits[second].pid == pid && w.inits[second].phase.Checked?
             && Selection(picked, w.inits[first].made.shares, w.inits[first].made.material.threshold)
    ensures var w := Run(c, Start(), actions);
            var w' := Run(c, w, [InitCommit(first), InitSave(first, Acked), InitCommit(second), InitEnd(first)]);
            var m, n := w.inits[first].made, w.inits[second].made;
            && w'.released == w.released + [m] && w'.row == Some(m.material) && n.material != m.material
            && pid in w'.processes && w'.processes[pid].seal == Loaded(n.material)
            && var root := Feed(c, w'.processes[pid].seal, Submitted(picked)).root;
               && (root.None? || root == Some(n.root))
               && (m.material.threshold <= n.material.threshold ==> root.None?)
  {
    hide Contract, LegalRun, Feed, Inv, WellMade, Run;
    RunKeeps(c, actions);
    var w := Run(c, Start(), actions);
    TwoDraws(c, w, first, second);
    RunFour(c, w, InitCommit(first), InitSave(first, Acked), InitCommit(second), InitEnd(first));
    ThresholdOpensIff(c, w.inits[first].made, w.inits[second].made, picked);
  }

  lemma TwoDraws<S(!new)>(c: Scheme<S>, w: World<S>, first: nat, second: nat)
    requires Inv(c, w) && first in w.inits && second in w.inits && first != second
    ensures WellMade(c, w.inits[first].made) && WellMade(c, w.inits[second].made)
    ensures w.inits[first].made.unsealKey != w.inits[second].made.unsealKey
    ensures w.inits[first].made.material != w.inits[second].made.material
  {
    var m, n := w.inits[first].made, w.inits[second].made;
    assert m != n && m in w.drawn && n in w.drawn;
    assert WellMade(c, m) && WellMade(c, n);
  }

  /**
   Adopting the seal on a process that was started with a root key does not put that key under custody: once the new
   shares are submitted the process holds the generated key, and what was wrapped under the old one stays behind.
   */
  lemma AdoptingCustodyReplacesRoot<S(!new)>(c: Scheme<S>, m: Made<S>, legacy: Key, picked: seq<S>)
    requires WellMade(c, m) && Selection(picked, m.shares, m.material.threshold)
    ensures var s := InitWrite(Booted<S>(None, Some(legacy)).seal, m.material);
            && s.root.None?
            && Feed(c, s, Submitted(picked)).root == Some(m.root)
            && (Feed(c, s, Submitted(picked)).root == Some(legacy) <==> m.root == legacy)
  {
    ThresholdOpensIff(c, m, m, picked);
  }
}
