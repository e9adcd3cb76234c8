/**
 Nothing happens unasked. Across all interleavings, every response, every new key
 and every rotation goes back to a request that was let in at the door, and keys are
 rotated only for the tenant that owns them.
 */
module KeyRequests {
  import opened Wrappers
  import opened Envelope
  import opened KeyStore
  import opened KeyStoreRuns
  import opened KeyVersions

  /** What the request behind a thread asked for. */
  function GoalOf(pc: Pc): Purpose {
    match pc
    case TakingCurrent(q) => Mint(Some(q))
    case FindingKek(goal) => goal
    case CreatingKek(goal) => goal
    case StoringDek(_, q) => Mint(q)
    case Adopting(_, q) => Mint(Some(q))
    case ReadingDek(_, q) => Mint(Some(q))
    case CheckingOwner(keyId) => Purpose.Rotate(keyId)
    case CommittingRotation(keyId, _) => Purpose.Rotate(keyId)
  }

  /** The action is a request of the tenant for this purpose, and one that the handlers do not refuse. */
  predicate Requests(a: Action, tenant: string, goal: Purpose) {
    && !Blank(tenant)
    && match a
       case Encrypt(_, t, q) => t == tenant && goal == Mint(Some(q)) && q.plain != Data("")
       case GenerateDek(_, t) => t == tenant && goal == Mint(None)
       case RotateKey(_, t, keyId) => t == tenant && goal == Purpose.Rotate(keyId) && !Blank(keyId)
       case _ => false
  }

  ghost predicate Requested(actions: seq<Action>, tenant: string, goal: Purpose) {
    exists i :: 0 <= i < |actions| && Requests(actions[i], tenant, goal)
  }

  /** Every thread there is now was there before, for the same tenant and the same goal. */
  ghost predicate SameGoals(w: World, w': World) {
    forall t | t in w'.threads ::
      && t in w.threads && w'.threads[t].tenant == w.threads[t].tenant
      && GoalOf(w'.threads[t].pc) == GoalOf(w.threads[t].pc)
  }

  lemma SelectionKeepsGoal(w: World, tid: nat, mine: string, q: Request)
    requires tid in w.threads && GoalOf(w.threads[tid].pc) == Mint(Some(q))
    ensures SameGoals(w, Adopt(w, tid, mine, q))
    ensures TakeCurrent(w.store, w.threads[tid].tenant).0.Some? ==> SameGoals(w, Take(w, tid, q))
  {
    hide TakeCurrent, AdoptCurrent;
  }

  lemma CreateKeepsGoal(w: World, tid: nat, goal: Purpose, minted: Key)
    requires tid in w.threads && GoalOf(w.threads[tid].pc) == goal
    ensures SameGoals(w, Create(w, tid, goal, minted))
  {
    hide CreateKek;
  }

  lemma StoreKeepsGoal(w: World, tid: nat, kek: Key, q: Option<Request>, minted: Key, keyId: string)
    requires tid in w.threads && GoalOf(w.threads[tid].pc) == Mint(q)
    ensures SameGoals(w, StoreMinted(w, tid, kek, q, minted, keyId))
  {
    hide CanonicalUuid, NewDek;
  }

  lemma MoveKeepsGoal(w: World, tid: nat, pc: Pc)
    requires tid in w.threads && GoalOf(pc) == GoalOf(w.threads[tid].pc)
    ensures SameGoals(w, Goto(w, tid, pc)) && SameGoals(w, Done(w, tid))
  {
  }

  lemma ReadKeepsGoal(w: World, tid: nat, keyId: string, q: Request)
    requires tid in w.threads
    ensures SameGoals(w, Read(w, tid, keyId, q))
  {
    hide GetDek;
  }

  lemma EndKeepsGoal(w: World, tid: nat, s: Store)
    ensures SameGoals(w, Done(w, tid).(store := s))
  {
  }

  /** A lock section starts no thread, and leaves every one its tenant and its goal. */
  lemma SectionKeepsGoal(w: World, tid: nat, minted: Key, keyId: string)
    requires tid in w.threads
    ensures SameGoals(w, AdvanceThread(w, tid, minted, keyId))
  {
    hide TakeCurrent, CommitRotation, CheckOwner, Take, Adopt, Create, StoreMinted, Read, Goto, Done, SameGoals;
    var pc := w.threads[tid].pc;
    match pc
    case TakingCurrent(q) =>
      SelectionKeepsGoal(w, tid, "", q);
      MoveKeepsGoal(w, tid, FindingKek(GoalOf(pc)));
    case Adopting(mine, q) => SelectionKeepsGoal(w, tid, mine, q);
    case CreatingKek(goal) => CreateKeepsGoal(w, tid, goal, minted);
    case StoringDek(kek, q) => StoreKeepsGoal(w, tid, kek, q, minted, keyId);
    case FindingKek(goal) =>
      var kek := FindKek(w.store, w.threads[tid].tenant);
      MoveKeepsGoal(w, tid, if kek.None? then CreatingKek(goal) else if goal.Mint? then StoringDek(kek.value, goal.forEncrypt)
                            else CommittingRotation(goal.keyId, kek.value));
    case CheckingOwner(id) => MoveKeepsGoal(w, tid, FindingKek(Purpose.Rotate(id)));
    case ReadingDek(id, q) => ReadKeepsGoal(w, tid, id, q);
    case CommittingRotation(id, kek) => EndKeepsGoal(w, tid, CommitRotation(w.store, id, kek, minted).1);
  }

  lemma StepKeepsGoal(w: World, a: Action, t: nat)
    requires t in Step(w, a).threads
    ensures var after := Step(w, a).threads[t];
            || (t in w.threads && after.tenant == w.threads[t].tenant && GoalOf(after.pc) == GoalOf(w.threads[t].pc))
            || Requests(a, after.tenant, GoalOf(after.pc))
  {
    hide AdvanceThread, Blank;
    if a.Advance? && a.tid in w.threads { SectionKeepsGoal(w, a.tid, a.minted, a.keyId); }
  }

  lemma {:induction false} ThreadRequested(root: Option<Key>, actions: seq<Action>, t: nat)
    requires t in Run(Init(root), actions).threads
    ensures var thread := Run(Init(root), actions).threads[t]; Requested(actions, thread.tenant, GoalOf(thread.pc))
  {
    hide Step, Requests, GoalOf;
    var n := |actions| - 1;
    var w, thread := Run(Init(root), actions[..n]), Run(Init(root), actions).threads[t];
    StepKeepsGoal(w, actions[n], t);
    if !Requests(actions[n], thread.tenant, GoalOf(thread.pc)) {
      ThreadRequested(root, actions[..n], t);
      RequestedLonger(actions, n, thread.tenant, GoalOf(thread.pc));
    }
  }

  lemma RequestedLonger(actions: seq<Action>, n: nat, tenant: string, goal: Purpose)
    requires n <= |actions| && Requested(actions[..n], tenant, goal)
    ensures Requested(actions, tenant, goal)
  {
    hide Requests;
    var i :| 0 <= i < n && Requests(actions[..n][i], tenant, goal);
    assert actions[i] == actions[..n][i];
  }

  /** Every response answers an encryption that its own tenant asked for, with that plaintext and that associated data. */
  lemma ResponseRequested(root: Option<Key>, actions: seq<Action>, r: Response)
    requires r in Run(Init(root), actions).issued
    ensures Requested(actions, r.tenant, Mint(Some(r.q)))
  {
    hide Step, Run, Requests;
    assert r !in Init(root).issued;
    var n := IssuedAt(Init(root), actions, r);
    var w := Run(Init(root), actions[..n]);
    Answers(w, actions[n], r);
    ThreadRequested(root, actions[..n], actions[n].tid);
    RequestedLonger(actions, n, r.tenant, Mint(Some(r.q)));
  }

  lemma Answers(w: World, a: Action, r: Response)
    requires r in Step(w, a).issued && r !in w.issued
    ensures a.Advance? && a.tid in w.threads
    ensures w.threads[a.tid].tenant == r.tenant && GoalOf(w.threads[a.tid].pc) == Mint(Some(r.q))
  {
    hide AdvanceThread, Blank;
    if a.Advance? && a.tid in w.threads {
      if w.threads[a.tid].pc.ReadingDek? { ReadAnswer(w, a, r); } else { NoAnswer(w, a.tid, a.minted, a.keyId); }
    }
  }

  lemma ReadAnswer(w: World, a: Action, r: Response)
    requires a.Advance? && a.tid in w.threads && w.threads[a.tid].pc.ReadingDek? && r in Step(w, a).issued && r !in w.issued
    ensures w.threads[a.tid].tenant == r.tenant && w.threads[a.tid].pc.q == r.q
  {
  }

  /**
   Every change to a key was asked for. A step that adds a key draws it for a tenant that asked to encrypt or to generate;
   a step that changes one is a rotation that the owner asked for, and it retires the old material behind the drawn one.
   */
  lemma KeyChangeRequested(root: Option<Key>, actions: seq<Action>, a: Action, keyId: string)
    requires var w := Run(Init(root), actions);
             && keyId in Step(w, a).store.deks
             && (keyId in w.store.deks ==> Step(w, a).store.deks[keyId] != w.store.deks[keyId])
    ensures a.Advance?
    ensures var w := Run(Init(root), actions);
            var e := Step(w, a).store.deks[keyId];
            && e.raw == a.minted
            && if keyId in w.store.deks then
                 && e.tenant == w.store.deks[keyId].tenant && e.version == w.store.deks[keyId].version + 1
                 && e.superseded == w.store.deks[keyId].superseded + [w.store.deks[keyId].raw]
                 && Requested(actions, e.tenant, Purpose.Rotate(keyId))
               else
                 && keyId == a.keyId && e.version == 1 && e.superseded == []
                 && exists q :: Requested(actions, e.tenant, Mint(q))
  {
    hide Step, Run, Requests;
    var w := Run(Init(root), actions);
    RunKeepsInv(root, actions);
    Changed(w, a, keyId);
    ThreadRequested(root, actions, a.tid);
  }

  lemma Changed(w: World, a: Action, keyId: string)
    requires Inv(w) && keyId in Step(w, a).store.deks
    requires keyId in w.store.deks ==> Step(w, a).store.deks[keyId] != w.store.deks[keyId]
    ensures a.Advance? && a.tid in w.threads
    ensures var e, t := Step(w, a).store.deks[keyId], w.threads[a.tid];
            && e.raw == a.minted && e.tenant == t.tenant
            && if keyId in w.store.deks then
                 && e.tenant == w.store.deks[keyId].tenant && e.version == w.store.deks[keyId].version + 1
                 && e.superseded == w.store.deks[keyId].superseded + [w.store.deks[keyId].raw]
                 && GoalOf(t.pc) == Purpose.Rotate(keyId)
               else
                 && keyId == a.keyId && e.version == 1 && e.superseded == [] && GoalOf(t.pc).Mint?
  {
    hide AdvanceThread, Blank, Inv, CanonicalUuid;
    if a.Advance? && a.tid in w.threads {
      DeksAfter(w, a.tid, a.minted, a.keyId);
      ThreadOfInv(w, a.tid);
    }
  }
}
