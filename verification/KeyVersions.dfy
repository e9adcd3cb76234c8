/**
 Which version of a key encrypts: always the newest one. A rotation takes effect at
 once for every request that reads the key after it, and retired material decrypts
 but never encrypts again.
 */
module KeyVersions {
  import opened Wrappers
  import opened Envelope
  import opened KeyStore
  import opened KeyStoreRuns

  /** All the material of a key, oldest first. */
  function Material(e: DekEntry): seq<Key> { e.superseded + [e.raw] }

  /** Keys keep their material in order and only ever add to it. */
  ghost predicate Grown(s: Store, s': Store) {
    forall k | k in s.deks :: k in s'.deks && Material(s.deks[k]) <= Material(s'.deks[k])
  }

  /** The random source never returns a key that is in use. */
  ghost predicate FreshDraw(w: World, a: Action) {
    a.Advance? ==> forall k :: !Holds(w.store.deks, k, a.minted)
  }

  ghost predicate FreshDraws(w: World, actions: seq<Action>) {
    forall i | 0 <= i < |actions| :: FreshDraw(Run(w, actions[..i]), actions[i])
  }

  ghost predicate NoRepeats(s: Store) {
    forall k, i, j | k in s.deks && 0 <= i < j < |Material(s.deks[k])| :: Material(s.deks[k])[i] != Material(s.deks[k])[j]
  }

  // ---------------------------------------------------------------------
  // One step
  // ---------------------------------------------------------------------

  /** A new response is sealed under the newest material its key has at that moment. */
  lemma SealedUnderNewest(w: World, a: Action, r: Response)
    requires r in Step(w, a).issued && r !in w.issued
    ensures r.keyId in w.store.deks && w.store.deks[r.keyId].tenant == r.tenant
    ensures var m := Material(w.store.deks[r.keyId]); r.blob == Sealed(m[|m| - 1], r.q.plain, r.q.aad)
  {
    hide CanonicalUuid, AdvanceThread, Blank;
    if a.Advance? && a.tid in w.threads {
      if w.threads[a.tid].pc.ReadingDek? { OnlyReadAnswers(w, a, r); } else { NoAnswer(w, a.tid, a.minted, a.keyId); }
    }
  }

  lemma OnlyReadAnswers(w: World, a: Action, r: Response)
    requires a.Advance? && a.tid in w.threads && w.threads[a.tid].pc.ReadingDek? && r in Step(w, a).issued && r !in w.issued
    ensures r.keyId in w.store.deks && w.store.deks[r.keyId].tenant == r.tenant
    ensures var m := Material(w.store.deks[r.keyId]); r.blob == Sealed(m[|m| - 1], r.q.plain, r.q.aad)
  {
  }

  lemma NoAnswer(w: World, tid: nat, minted: Key, keyId: string)
    requires tid in w.threads && !w.threads[tid].pc.ReadingDek?
    ensures AdvanceThread(w, tid, minted, keyId).issued == w.issued
  {
    hide TakeCurrent, AdoptCurrent, CreateKek, CanonicalUuid, NewDek, CommitRotation;
  }

  /** Whether the step commits a rotation of the key. */
  predicate Rotates(w: World, a: Action, keyId: string) {
    a.Advance? && a.tid in w.threads && w.threads[a.tid].pc.CommittingRotation? && w.threads[a.tid].pc.keyId == keyId
  }

  /** A step adds to a key's material exactly when it commits a rotation of it, and then it adds the drawn key. */
  lemma MaterialAfter(w: World, a: Action, keyId: string)
    requires keyId in w.store.deks
    ensures keyId in Step(w, a).store.deks
    ensures Material(Step(w, a).store.deks[keyId])
            == Material(w.store.deks[keyId]) + if Rotates(w, a, keyId) then [a.minted] else []
  {
    hide TakeCurrent, CanonicalUuid, Blank;
    if Rotates(w, a, keyId) {
      assert Step(w, a).store.deks[keyId].superseded == Material(w.store.deks[keyId]);
    } else {
      SameEntry(w, a, keyId);
    }
  }

  lemma SameEntry(w: World, a: Action, keyId: string)
    requires keyId in w.store.deks && !Rotates(w, a, keyId)
    ensures keyId in Step(w, a).store.deks && Step(w, a).store.deks[keyId] == w.store.deks[keyId]
  {
    hide CanonicalUuid, Blank, Demote, NewDek, AdvanceThread;
    if a.Advance? && a.tid in w.threads { DeksAfter(w, a.tid, a.minted, a.keyId); }
  }

  /** What one lock section does to the DEKs. */
  lemma DeksAfter(w: World, tid: nat, minted: Key, keyId: string)
    requires tid in w.threads
    ensures var pc, deks := w.threads[tid].pc, AdvanceThread(w, tid, minted, keyId).store.deks;
            if pc.CommittingRotation? then deks == CommitRotation(w.store, pc.keyId, pc.kek, minted).1.deks
            else if pc.StoringDek? && UnusedId(w.store, keyId) then
              deks == w.store.deks[keyId := NewDek(keyId, w.threads[tid].tenant, pc.kek, minted)]
            else deks == w.store.deks
  {
    hide CanonicalUuid, NewDek, CommitRotation, Take, Adopt, Create, Read, TakeCurrent;
    match w.threads[tid].pc
    case TakingCurrent(q) => if TakeCurrent(w.store, w.threads[tid].tenant).0.Some? { SelectionLeaves(w, tid, "", q); }
    case Adopting(mine, q) => SelectionLeaves(w, tid, mine, q);
    case CreatingKek(goal) => CreationLeaves(w, tid, goal, minted);
    case ReadingDek(id, q) => ReadLeaves(w, tid, id, q);
    case _ =>
  }

  lemma SelectionLeaves(w: World, tid: nat, mine: string, q: Request)
    requires tid in w.threads
    ensures Adopt(w, tid, mine, q).store.deks == w.store.deks
    ensures TakeCurrent(w.store, w.threads[tid].tenant).0.Some? ==> Take(w, tid, q).store.deks == w.store.deks
  {
  }

  lemma CreationLeaves(w: World, tid: nat, goal: Purpose, minted: Key)
    requires tid in w.threads
    ensures Create(w, tid, goal, minted).store.deks == w.store.deks
  {
  }

  lemma ReadLeaves(w: World, tid: nat, keyId: string, q: Request)
    requires tid in w.threads
    ensures Read(w, tid, keyId, q).store == w.store
  {
  }

  /** A key that a step adds has one version. */
  lemma NewEntry(w: World, a: Action, keyId: string)
    requires keyId !in w.store.deks && keyId in Step(w, a).store.deks
    ensures Step(w, a).store.deks[keyId].superseded == []
  {
    hide CanonicalUuid, Blank, Demote, AdvanceThread;
    if a.Advance? && a.tid in w.threads { DeksAfter(w, a.tid, a.minted, a.keyId); }
  }

  lemma StepNoRepeats(w: World, a: Action)
    requires NoRepeats(w.store) && FreshDraw(w, a)
    ensures NoRepeats(Step(w, a).store)
  {
    hide Step;
    var s, s' := w.store, Step(w, a).store;
    forall k, i, j | k in s'.deks && 0 <= i < j < |Material(s'.deks[k])|
      ensures Material(s'.deks[k])[i] != Material(s'.deks[k])[j]
    {
      if k in s.deks {
        MaterialAfter(w, a, k);
        if j == |Material(s.deks[k])| { assert Holds(s.deks, k, Material(s.deks[k])[i]); }
      } else {
        NewEntry(w, a, k);
      }
    }
  }

  lemma StepGrows(w: World, a: Action)
    ensures Grown(w.store, Step(w, a).store)
  {
    hide Step, Material;
    forall k | k in w.store.deks
      ensures k in Step(w, a).store.deks && Material(w.store.deks[k]) <= Material(Step(w, a).store.deks[k])
    {
      MaterialAfter(w, a, k);
    }
  }

  // ---------------------------------------------------------------------
  // Runs
  // ---------------------------------------------------------------------

  lemma {:induction false} RunGrows(w: World, actions: seq<Action>)
    ensures Grown(w.store, Run(w, actions).store)
  {
    hide Step, Material;
    if actions != [] {
      var n := |actions| - 1;
      RunGrows(w, actions[..n]);
      StepGrows(Run(w, actions[..n]), actions[n]);
    }
  }

  lemma {:induction false} RunNoRepeats(w: World, actions: seq<Action>)
    requires NoRepeats(w.store) && FreshDraws(w, actions)
    ensures NoRepeats(Run(w, actions).store)
  {
    hide Step, NoRepeats, FreshDraw;
    if actions != [] {
      var n := |actions| - 1;
      FreshPrefix(w, actions, n);
      RunNoRepeats(w, actions[..n]);
      assert FreshDraw(Run(w, actions[..n]), actions[n]);
      StepNoRepeats(Run(w, actions[..n]), actions[n]);
    }
  }

  lemma FreshPrefix(w: World, actions: seq<Action>, n: nat)
    requires FreshDraws(w, actions) && n <= |actions|
    ensures FreshDraws(w, actions[..n])
  {
    hide FreshDraw, Run;
    forall i | 0 <= i < n ensures FreshDraw(Run(w, actions[..n][..i]), actions[..n][i]) {
      assert actions[..n][..i] == actions[..i];
    }
  }

  /** The moment at which a response of a run was issued. */
  lemma {:induction false} IssuedAt(w: World, actions: seq<Action>, r: Response) returns (n: nat)
    requires r in Run(w, actions).issued && r !in w.issued
    ensures n < |actions| && r !in Run(w, actions[..n]).issued && r in Step(Run(w, actions[..n]), actions[n]).issued
  {
    hide Step;
    n := |actions| - 1;
    if r in Run(w, actions[..n]).issued {
      var m := IssuedAt(w, actions[..n], r);
      assert actions[..n][..m] == actions[..m];
      n := m;
    }
  }

  /**
   Retired keys stay retired. Whatever interleaving follows, no response issued from a moment on is sealed under
   material that was superseded by then.
   */
  lemma RetiredNeverEncrypts(root: Option<Key>, actions: seq<Action>, more: seq<Action>, r: Response)
    requires var w := Run(Init(root), actions);
             && FreshDraws(Init(root), actions) && FreshDraws(w, more)
             && r in Run(w, more).issued && r !in w.issued && r.keyId in w.store.deks
    ensures r.blob.Sealed? && r.blob.key !in Run(Init(root), actions).store.deks[r.keyId].superseded
  {
    hide Step, Run, FreshDraws;
    var w := Run(Init(root), actions);
    var n := IssuedAt(w, more, r);
    var before := Run(w, more[..n]);
    SealedUnderNewest(before, more[n], r);
    RunNoRepeats(Init(root), actions);
    FreshPrefix(w, more, n);
    RunNoRepeats(w, more[..n]);
    RunGrows(w, more[..n]);
    var earlier, now := Material(w.store.deks[r.keyId]), Material(before.store.deks[r.keyId]);
    assert earlier <= now && now[|now| - 1] == r.blob.key;
    var retired := w.store.deks[r.keyId].superseded;
    forall i | 0 <= i < |retired| ensures retired[i] != r.blob.key { assert now[i] == earlier[i] == retired[i]; }
  }

  /** No step of the run commits a rotation of the key. */
  ghost predicate Unrotated(w: World, actions: seq<Action>, keyId: string) {
    forall i | 0 <= i < |actions| :: !Rotates(Run(w, actions[..i]), actions[i], keyId)
  }

  lemma {:induction false} UnrotatedSame(w: World, actions: seq<Action>, keyId: string)
    requires keyId in w.store.deks && Unrotated(w, actions, keyId)
    ensures keyId in Run(w, actions).store.deks && Run(w, actions).store.deks[keyId] == w.store.deks[keyId]
  {
    hide Step, Rotates;
    if actions != [] {
      var n := |actions| - 1;
      UnrotatedPrefix(w, actions, keyId, n);
      UnrotatedSame(w, actions[..n], keyId);
      assert !Rotates(Run(w, actions[..n]), actions[n], keyId);
      SameEntry(Run(w, actions[..n]), actions[n], keyId);
    }
  }

  lemma UnrotatedPrefix(w: World, actions: seq<Action>, keyId: string, n: nat)
    requires Unrotated(w, actions, keyId) && n <= |actions|
    ensures Unrotated(w, actions[..n], keyId)
  {
    hide Rotates, Run;
    forall i | 0 <= i < n ensures !Rotates(Run(w, actions[..n][..i]), actions[..n][i], keyId) {
      assert actions[..n][..i] == actions[..i];
    }
  }

  /**
   A rotation takes effect. Once it has committed, and until the key is rotated again, every response that names the key
   is sealed under the material the rotation drew, whichever request it answers and whenever that came in.
   */
  lemma RotationTakesEffect(w: World, a: Action, keyId: string, more: seq<Action>, r: Response)
    requires Rotates(w, a, keyId) && keyId in w.store.deks
    requires var w' := Step(w, a); Unrotated(w', more, keyId) && r in Run(w', more).issued && r !in w'.issued && r.keyId == keyId
    ensures r.blob == Sealed(a.minted, r.q.plain, r.q.aad)
    ensures Step(w, a).store.deks[keyId].version == w.store.deks[keyId].version + 1
  {
    hide Run, Unrotated;
    var w' := Step(w, a);
    MaterialAfter(w, a, keyId);
    RotationVersion(w, a, keyId);
    assert w'.store.deks[keyId].raw == a.minted by { LastMaterial(w'.store.deks[keyId]); }
    var n := IssuedAt(w', more, r);
    UnrotatedPrefix(w', more, keyId, n);
    UnrotatedSame(w', more[..n], keyId);
    SealedUnderNewest(Run(w', more[..n]), more[n], r);
  }

  lemma LastMaterial(e: DekEntry)
    ensures var m := Material(e); m[|m| - 1] == e.raw
  {
  }

  lemma RotationVersion(w: World, a: Action, keyId: string)
    requires Rotates(w, a, keyId) && keyId in w.store.deks
    ensures Step(w, a).store.deks[keyId].version == w.store.deks[keyId].version + 1
  {
  }
}
