/**
 Ephemeral mode under concurrency. Any number of encrypt, generate and rotate
 requests run at once and interleave at every lock section; the seal may open and
 close at any moment. The theorems hold after every sequence of such steps.
 */
module KeyStoreRuns {
  import opened Wrappers
  import opened Envelope
  import opened KeyStore

  /** What a request does once it has its tenant KEK. */
  datatype Purpose = Mint(forEncrypt: Option<Request>) | Rotate(keyId: string)

  /** Where a request stands between two lock sections, with the values it carries. */
  datatype Pc =
    | TakingCurrent(q: Request)
    | FindingKek(goal: Purpose)
    | CreatingKek(goal: Purpose)
    | StoringDek(kek: Key, forEncrypt: Option<Request>)
    | Adopting(keyId: string, q: Request)
    | ReadingDek(keyId: string, q: Request)
    | CheckingOwner(keyId: string)
    | CommittingRotation(keyId: string, kek: Key)

  datatype Thread = Thread(tenant: string, pc: Pc)

  /**
   `issued`, `calls`, `adopted` and `handed` record history: the responses returned, the successful
   key selections and adopted DEKs of each tenant, and how often each key id was selected.
   */
  datatype World = World(
    store: Store,
    threads: map<nat, Thread>,
    issued: set<Response>,
    calls: map<string, nat>,
    adopted: map<string, nat>,
    handed: map<string, nat>)

  datatype Action =
    | Encrypt(tid: nat, tenant: string, q: Request)
    | GenerateDek(tid: nat, tenant: string)
    | RotateKey(tid: nat, tenant: string, keyId: string)
    | Advance(tid: nat, minted: Key, keyId: string)
    | SetSeal(root: Option<Key>)

  function Init(root: Option<Key>): World {
    World(EmptyStore(root), map[], {}, map[], map[], map[])
  }

  function Count(m: map<string, nat>, k: string): nat { if k in m then m[k] else 0 }

  function Goto(w: World, tid: nat, pc: Pc): World
    requires tid in w.threads
  {
    w.(threads := w.threads[tid := w.threads[tid].(pc := pc)])
  }

  function Done(w: World, tid: nat): World { w.(threads := w.threads - {tid}) }

  /** One successful selection of `keyId` for the tenant. */
  function Selected(w: World, tid: nat, keyId: string, q: Request): World
    requires tid in w.threads
  {
    var tenant := w.threads[tid].tenant;
    Goto(w, tid, ReadingDek(keyId, q)).(
      calls := w.calls[tenant := Count(w.calls, tenant) + 1],
      handed := w.handed[keyId := Count(w.handed, keyId) + 1])
  }

  function WithKek(w: World, tid: nat, kek: Key, goal: Purpose): World
    requires tid in w.threads
  {
    match goal
    case Mint(q) => Goto(w, tid, StoringDek(kek, q))
    case Rotate(keyId) => Goto(w, tid, CommittingRotation(keyId, kek))
  }

  /** The UUID supply never repeats an id. */
  predicate UnusedId(s: Store, keyId: string) { CanonicalUuid(keyId) && keyId !in s.deks }

  function Create(w: World, tid: nat, goal: Purpose, minted: Key): World
    requires tid in w.threads
  {
    var (kek, s) := CreateKek(w.store, w.threads[tid].tenant, minted);
    if kek.Ok? then WithKek(w.(store := s), tid, kek.value, goal) else Done(w, tid)
  }

  function StoreMinted(w: World, tid: nat, kek: Key, forEncrypt: Option<Request>, minted: Key, keyId: string): World
    requires tid in w.threads
  {
    if !UnusedId(w.store, keyId) then w
    else
      var w' := w.(store := InsertDek(w.store, keyId, NewDek(keyId, w.threads[tid].tenant, kek, minted)));
      if forEncrypt.Some? then Goto(w', tid, Adopting(keyId, forEncrypt.value)) else Done(w', tid)
  }

  function Take(w: World, tid: nat, q: Request): World
    requires tid in w.threads && TakeCurrent(w.store, w.threads[tid].tenant).0.Some?
  {
    var (taken, s) := TakeCurrent(w.store, w.threads[tid].tenant);
    Selected(w.(store := s), tid, taken.value, q)
  }

  function Adopt(w: World, tid: nat, mine: string, q: Request): World
    requires tid in w.threads
  {
    var tenant := w.threads[tid].tenant;
    var (chosen, s) := AdoptCurrent(w.store, tenant, mine);
    var w' := Selected(w.(store := s), tid, chosen, q);
    if chosen != mine then w' else w'.(adopted := w.adopted[tenant := Count(w.adopted, tenant) + 1])
  }

  function Read(w: World, tid: nat, keyId: string, q: Request): World
    requires tid in w.threads
  {
    var tenant := w.threads[tid].tenant;
    var dek := GetDek(w.store, keyId, tenant);
    if dek.Err? then Done(w, tid)
    else
      var response := Response(tenant, keyId, Sealed(dek.value, q.plain, q.aad), q);
      Done(w, tid).(issued := w.issued + {response})
  }

  /** One lock section of one request. `minted` and `keyId` are what the random sources return, if asked. */
  function AdvanceThread(w: World, tid: nat, minted: Key, keyId: string): World
    requires tid in w.threads
  {
    var tenant := w.threads[tid].tenant;
    match w.threads[tid].pc
    case TakingCurrent(q) =>
      if TakeCurrent(w.store, tenant).0.Some? then Take(w, tid, q) else Goto(w, tid, FindingKek(Mint(Some(q))))
    case FindingKek(goal) =>
      var kek := FindKek(w.store, tenant);
      if kek.Some? then WithKek(w, tid, kek.value, goal) else Goto(w, tid, CreatingKek(goal))
    case CreatingKek(goal) => Create(w, tid, goal, minted)
    case StoringDek(kek, forEncrypt) => StoreMinted(w, tid, kek, forEncrypt, minted, keyId)
    case Adopting(mine, q) => Adopt(w, tid, mine, q)
    case ReadingDek(id, q) => Read(w, tid, id, q)
    case CheckingOwner(id) =>
      if CheckOwner(w.store, tenant, id).Ok? then Goto(w, tid, FindingKek(Rotate(id))) else Done(w, tid)
    case CommittingRotation(id, kek) =>
      Done(w, tid).(store := CommitRotation(w.store, id, kek, minted).1)
  }

  /** A new request takes a thread id nobody is using; blank tenants and empty plaintexts are refused at the door. */
  function Admit(w: World, tid: nat, tenant: string, pc: Pc): World {
    if tid in w.threads || Blank(tenant) then w
    else w.(threads := w.threads[tid := Thread(tenant, pc)])
  }

  function Step(w: World, a: Action): World {
    match a
    case Encrypt(tid, tenant, q) => if q.plain == Data("") then w else Admit(w, tid, tenant, TakingCurrent(q))
    case GenerateDek(tid, tenant) => Admit(w, tid, tenant, FindingKek(Mint(None)))
    case RotateKey(tid, tenant, keyId) => if Blank(keyId) then w else Admit(w, tid, tenant, CheckingOwner(keyId))
    case Advance(tid, minted, keyId) => if tid in w.threads then AdvanceThread(w, tid, minted, keyId) else w
    case SetSeal(root) => w.(store := w.store.(root := root))
  }

  function Run(w: World, actions: seq<Action>): World {
    if actions == [] then w else Step(Run(w, actions[..|actions| - 1]), actions[|actions| - 1])
  }

  // ---------------------------------------------------------------------
  // What every step keeps
  // ---------------------------------------------------------------------

  /** An entry describes itself: version counts the chain, and the wrapped form opens to the current material. */
  ghost predicate EntryOk(s: Store, keyId: string)
    requires keyId in s.deks
  {
    var e := s.deks[keyId];
    && CanonicalUuid(keyId)
    && !Blank(e.tenant)
    && e.version == 1 + |e.superseded|
    && e.tenant in s.keks
    && OpenKey(s.keks[e.tenant].raw, e.wrapped, ReloadAad(keyId)) == Some(e.raw)
  }

  ghost predicate ResponseOk(s: Store, r: Response) {
    && r.blob.Sealed?
    && r.blob == Sealed(r.blob.key, r.q.plain, r.q.aad)
    && Holds(s.deks, r.keyId, r.blob.key)
    && s.deks[r.keyId].tenant == r.tenant
  }

  /** The key id a request has been cleared to use, if any. */
  function OwnId(pc: Pc): Option<string> {
    match pc
    case Adopting(id, _) => Some(id)
    case ReadingDek(id, _) => Some(id)
    case FindingKek(Rotate(id)) => Some(id)
    case CreatingKek(Rotate(id)) => Some(id)
    case CommittingRotation(id, _) => Some(id)
    case _ => None
  }

  function OwnKek(pc: Pc): Option<Key> {
    match pc
    case StoringDek(kek, _) => Some(kek)
    case CommittingRotation(_, kek) => Some(kek)
    case _ => None
  }

  predicate Owns(s: Store, tenant: string, keyId: string) { keyId in s.deks && s.deks[keyId].tenant == tenant }

  /** A request only ever carries its own tenant's KEK and keys, and mints before it is selected. */
  ghost predicate ThreadOk(s: Store, handed: map<string, nat>, t: Thread) {
    && !Blank(t.tenant)
    && (OwnId(t.pc).Some? ==> Owns(s, t.tenant, OwnId(t.pc).value))
    && (OwnKek(t.pc).Some? ==> FindKek(s, t.tenant) == OwnKek(t.pc))
    && (t.pc.Adopting? ==> t.pc.keyId !in handed)
  }

  /** The ledger of a tenant: full DEKs before the current one, and the current one's own count. */
  ghost predicate LedgerOk(w: World, tenant: string) {
    var s := w.store;
    if tenant in s.current then
      var c := s.current[tenant];
      && 1 <= c.operations <= DEK_MAX_OPERATIONS
      && Count(w.handed, c.keyId) == c.operations
      && c.keyId in s.deks && s.deks[c.keyId].tenant == tenant
      && 1 <= Count(w.adopted, tenant)
      && Count(w.calls, tenant) == (Count(w.adopted, tenant) - 1) * DEK_MAX_OPERATIONS + c.operations
    else
      Count(w.calls, tenant) == 0 && Count(w.adopted, tenant) == 0
  }

  ghost predicate KeysOk(s: Store) {
    && (forall k | k in s.deks :: EntryOk(s, k))
    && (forall t | t in s.keks :: s.keks[t].version == 1)
  }

  ghost predicate ThreadsOk(w: World) {
    && (forall i | i in w.threads :: ThreadOk(w.store, w.handed, w.threads[i]))
    && (forall i, j | i in w.threads && j in w.threads && i != j
                      && w.threads[i].pc.Adopting? && w.threads[j].pc.Adopting? ::
          w.threads[i].pc.keyId != w.threads[j].pc.keyId)
  }

  ghost predicate LedgersOk(w: World) {
    && (forall t :: LedgerOk(w, t))
    && (forall k | k in w.handed :: k in w.store.deks && w.handed[k] <= DEK_MAX_OPERATIONS)
  }

  ghost predicate IssuedOk(s: Store, issued: set<Response>) {
    forall r | r in issued :: ResponseOk(s, r)
  }

  ghost predicate Inv(w: World) {
    KeysOk(w.store) && ThreadsOk(w) && LedgersOk(w) && IssuedOk(w.store, w.issued)
  }

  /** What later states keep of earlier ones: no key leaves a chain, no owner or tenant KEK changes. */
  ghost predicate Extends(s: Store, s': Store) {
    && (forall k | k in s.deks :: k in s'.deks && s'.deks[k].tenant == s.deks[k].tenant)
    && (forall k, x | Holds(s.deks, k, x) :: Holds(s'.deks, k, x))
    && (forall t | t in s.keks :: t in s'.keks && s'.keks[t] == s.keks[t])
  }

  lemma InitInv(root: Option<Key>)
    ensures Inv(Init(root))
  {
  }

  lemma RotationExtends(s: Store, keyId: string, kek: Key, minted: Key)
    requires KeysOk(s) && keyId in s.deks && FindKek(s, s.deks[keyId].tenant) == Some(kek)
    ensures var s' := CommitRotation(s, keyId, kek, minted).1; KeysOk(s') && Extends(s, s')
  {
    var s' := CommitRotation(s, keyId, kek, minted).1;
    forall k, x | Holds(s.deks, k, x) ensures Holds(s'.deks, k, x) {
      if k == keyId && x == s.deks[k].raw {
        var chain := s'.deks[k].superseded;
        assert chain[|chain| - 1] == x;
      }
    }
    forall k | k in s'.deks ensures EntryOk(s', k) {
      assert EntryOk(s, k);
    }
  }

  lemma InsertExtends(s: Store, keyId: string, tenant: string, kek: Key, minted: Key)
    requires KeysOk(s) && UnusedId(s, keyId) && FindKek(s, tenant) == Some(kek) && !Blank(tenant)
    ensures var s' := InsertDek(s, keyId, NewDek(keyId, tenant, kek, minted)); KeysOk(s') && Extends(s, s')
  {
    var s' := InsertDek(s, keyId, NewDek(keyId, tenant, kek, minted));
    forall k | k in s'.deks ensures EntryOk(s', k) {
      assert k != keyId ==> EntryOk(s, k);
    }
  }

  lemma CreateKekExtends(s: Store, tenant: string, minted: Key)
    requires KeysOk(s)
    ensures var (r, s') := CreateKek(s, tenant, minted);
            KeysOk(s') && Extends(s, s') && (r.Ok? ==> FindKek(s', tenant) == Some(r.value))
  {
    var s' := CreateKek(s, tenant, minted).1;
    forall k | k in s'.deks ensures EntryOk(s', k) {
      assert EntryOk(s, k);
    }
  }

  lemma IssuedCarry(s: Store, s': Store, issued: set<Response>)
    requires IssuedOk(s, issued) && Extends(s, s')
    ensures IssuedOk(s', issued)
  {
    forall r | r in issued ensures ResponseOk(s', r) {
      assert ResponseOk(s, r);
    }
  }

  lemma LedgersCarry(w: World, w': World)
    requires LedgersOk(w) && Extends(w.store, w'.store) && w'.store.current == w.store.current
    requires w'.calls == w.calls && w'.adopted == w.adopted && w'.handed == w.handed
    ensures LedgersOk(w')
  {
    forall t ensures LedgerOk(w', t) {
      assert LedgerOk(w, t);
    }
  }

  /** Threads other than `tid` are unaffected when the store only grows and no minted id is selected. */
  lemma ThreadsCarry(w: World, w': World, tid: nat)
    requires ThreadsOk(w) && Extends(w.store, w'.store)
    requires forall i | i in w'.threads && i != tid :: i in w.threads && w'.threads[i] == w.threads[i]
    requires forall i | i in w'.threads && i != tid && w.threads[i].pc.Adopting? :: w.threads[i].pc.keyId !in w'.handed
    requires tid in w'.threads ==> ThreadOk(w'.store, w'.handed, w'.threads[tid])
    requires tid in w'.threads && w'.threads[tid].pc.Adopting? ==> w'.threads[tid].pc.keyId !in w.store.deks
    ensures ThreadsOk(w')
  {
    forall i | i in w'.threads ensures ThreadOk(w'.store, w'.handed, w'.threads[i]) {
      assert i != tid ==> ThreadOk(w.store, w.handed, w.threads[i]);
    }
    forall i | i in w'.threads && i != tid && w'.threads[i].pc.Adopting? ensures w'.threads[i].pc.keyId in w.store.deks {
      assert ThreadOk(w.store, w.handed, w.threads[i]);
    }
  }

  /** A step that selects no key: the store only grows and at most one thread is new. */
  lemma QuietStep(w: World, w': World, tid: nat)
    requires Inv(w) && KeysOk(w'.store) && Extends(w.store, w'.store)
    requires w'.store.current == w.store.current
    requires w'.calls == w.calls && w'.adopted == w.adopted && w'.handed == w.handed
    requires forall i | i in w'.threads && i != tid :: i in w.threads && w'.threads[i] == w.threads[i]
    requires tid in w'.threads ==> ThreadOk(w'.store, w'.handed, w'.threads[tid])
    requires tid in w'.threads && w'.threads[tid].pc.Adopting? ==> w'.threads[tid].pc.keyId !in w.store.deks
    requires forall r | r in w'.issued :: r in w.issued || ResponseOk(w'.store, r)
    ensures Inv(w')
  {
    hide EntryOk, LedgerOk, ResponseOk, Extends;
    assert forall i | i in w'.threads && i != tid && w.threads[i].pc.Adopting? ::
        ThreadOk(w.store, w.handed, w.threads[i]);
    ThreadsCarry(w, w', tid);
    LedgersCarry(w, w');
    IssuedCarry(w.store, w'.store, w.issued);
  }

  lemma SameKeys(s: Store, s': Store)
    requires KeysOk(s) && s'.deks == s.deks && s'.keks == s.keks
    ensures KeysOk(s') && Extends(s, s')
  {
    forall k | k in s'.deks ensures EntryOk(s', k) {
      assert EntryOk(s, k);
    }
  }

  /** A selection from the current DEK: one more operation on one tenant's ledger. */
  lemma TakeKeepsLedgers(w: World, tid: nat, q: Request)
    requires LedgersOk(w) && tid in w.threads && TakeCurrent(w.store, w.threads[tid].tenant).0.Some?
    ensures LedgersOk(Take(w, tid, q))
  {
    var w' := Take(w, tid, q);
    assert LedgerOk(w, w.threads[tid].tenant);
    forall t ensures LedgerOk(w', t) {
      assert LedgerOk(w, t);
    }
  }

  lemma TakeKeepsInv(w: World, tid: nat, q: Request)
    requires Inv(w) && tid in w.threads && TakeCurrent(w.store, w.threads[tid].tenant).0.Some?
    ensures var w' := Take(w, tid, q); Inv(w') && Extends(w.store, w'.store)
  {
    hide EntryOk, ResponseOk, Blank, Extends;
    var w' := Take(w, tid, q);
    SameKeys(w.store, w'.store);
    TakeKeepsLedgers(w, tid, q);
    assert LedgerOk(w, w.threads[tid].tenant);
    assert forall i | i in w'.threads :: ThreadOk(w.store, w.handed, w.threads[i]);
    ThreadsCarry(w, w', tid);
    IssuedCarry(w.store, w'.store, w.issued);
  }

  /** Adoption: the tenant's budget was spent or never opened, so a fresh DEK starts at one operation. */
  lemma AdoptKeepsLedgers(w: World, tid: nat, mine: string, q: Request)
    requires LedgersOk(w) && tid in w.threads && w.threads[tid].pc == Adopting(mine, q)
    requires ThreadOk(w.store, w.handed, w.threads[tid])
    requires TakeCurrent(w.store, w.threads[tid].tenant).0.None?
    ensures LedgersOk(Adopt(w, tid, mine, q))
  {
    var w' := Adopt(w, tid, mine, q);
    forall t ensures LedgerOk(w', t) {
      assert LedgerOk(w, t);
    }
  }

  lemma AdoptFreshKeepsInv(w: World, tid: nat, mine: string, q: Request)
    requires Inv(w) && tid in w.threads && w.threads[tid].pc == Adopting(mine, q)
    requires TakeCurrent(w.store, w.threads[tid].tenant).0.None?
    ensures var w' := Adopt(w, tid, mine, q); Inv(w') && Extends(w.store, w'.store)
  {
    hide EntryOk, ResponseOk, Blank, Extends, LedgerOk;
    var w' := Adopt(w, tid, mine, q);
    assert forall i | i in w'.threads :: ThreadOk(w.store, w.handed, w.threads[i]);
    AdoptKeepsLedgers(w, tid, mine, q);
    SameKeys(w.store, w'.store);
    ThreadsCarry(w, w', tid);
    IssuedCarry(w.store, w'.store, w.issued);
  }

  /** Where a rival's key is current, adopting is taking it: it was selected before, and ours never was. */
  lemma AdoptTakes(w: World, tid: nat, mine: string, q: Request)
    requires Inv(w) && tid in w.threads && w.threads[tid].pc == Adopting(mine, q)
    requires TakeCurrent(w.store, w.threads[tid].tenant).0.Some?
    ensures Adopt(w, tid, mine, q) == Take(w, tid, q)
  {
    hide EntryOk, ResponseOk, Blank;
    assert LedgerOk(w, w.threads[tid].tenant) && ThreadOk(w.store, w.handed, w.threads[tid]);
  }

  lemma AdoptKeepsInv(w: World, tid: nat, mine: string, q: Request)
    requires Inv(w) && tid in w.threads && w.threads[tid].pc == Adopting(mine, q)
    ensures var w' := Adopt(w, tid, mine, q); Inv(w') && Extends(w.store, w'.store)
  {
    hide Inv, Extends, TakeCurrent, Take, Adopt;
    if TakeCurrent(w.store, w.threads[tid].tenant).0.Some? {
      AdoptTakes(w, tid, mine, q);
      TakeKeepsInv(w, tid, q);
    } else {
      AdoptFreshKeepsInv(w, tid, mine, q);
    }
  }

  lemma CreateKeepsInv(w: World, tid: nat, goal: Purpose, minted: Key)
    requires Inv(w) && tid in w.threads && w.threads[tid].pc == CreatingKek(goal)
    ensures var w' := Create(w, tid, goal, minted); Inv(w') && Extends(w.store, w'.store)
  {
    hide EntryOk, LedgerOk, ResponseOk, Blank, Extends;
    assert ThreadOk(w.store, w.handed, w.threads[tid]);
    CreateKekExtends(w.store, w.threads[tid].tenant, minted);
    QuietStep(w, Create(w, tid, goal, minted), tid);
  }

  lemma StoreKeepsInv(w: World, tid: nat, kek: Key, forEncrypt: Option<Request>, minted: Key, keyId: string)
    requires Inv(w) && tid in w.threads && w.threads[tid].pc == StoringDek(kek, forEncrypt)
    ensures var w' := StoreMinted(w, tid, kek, forEncrypt, minted, keyId); Inv(w') && Extends(w.store, w'.store)
  {
    hide EntryOk, LedgerOk, ResponseOk, Blank, CanonicalUuid, Extends;
    assert ThreadOk(w.store, w.handed, w.threads[tid]);
    SameKeys(w.store, w.store);
    if UnusedId(w.store, keyId) {
      InsertExtends(w.store, keyId, w.threads[tid].tenant, kek, minted);
      QuietStep(w, StoreMinted(w, tid, kek, forEncrypt, minted, keyId), tid);
    }
  }

  lemma ReadKeepsInv(w: World, tid: nat, keyId: string, q: Request)
    requires Inv(w) && tid in w.threads && w.threads[tid].pc == ReadingDek(keyId, q)
    ensures var w' := Read(w, tid, keyId, q); Inv(w') && Extends(w.store, w'.store)
  {
    hide EntryOk, LedgerOk, Extends, Blank;
    assert ThreadOk(w.store, w.handed, w.threads[tid]);
    SameKeys(w.store, w.store);
    QuietStep(w, Read(w, tid, keyId, q), tid);
  }

  lemma RotationKeepsInv(w: World, tid: nat, keyId: string, kek: Key, minted: Key)
    requires Inv(w) && tid in w.threads && w.threads[tid].pc == CommittingRotation(keyId, kek)
    ensures var w' := Done(w, tid).(store := CommitRotation(w.store, keyId, kek, minted).1);
            Inv(w') && Extends(w.store, w'.store)
  {
    assert ThreadOk(w.store, w.handed, w.threads[tid]);
    RotationExtends(w.store, keyId, kek, minted);
    QuietStep(w, Done(w, tid).(store := CommitRotation(w.store, keyId, kek, minted).1), tid);
  }

  /** Steps that leave the store alone and move one thread to a state that carries nothing new. */
  lemma MoveKeepsInv(w: World, tid: nat, pc: Pc)
    requires Inv(w) && tid in w.threads && !pc.Adopting?
    requires ThreadOk(w.store, w.handed, w.threads[tid].(pc := pc))
    ensures Inv(Goto(w, tid, pc))
  {
    QuietStep(w, Goto(w, tid, pc), tid);
  }

  lemma ThreadOfInv(w: World, tid: nat)
    requires Inv(w) && tid in w.threads
    ensures ThreadOk(w.store, w.handed, w.threads[tid]) && KeysOk(w.store)
  {
  }

  lemma AdvanceKeepsInv(w: World, tid: nat, minted: Key, keyId: string)
    requires Inv(w) && tid in w.threads
    ensures var w' := AdvanceThread(w, tid, minted, keyId); Inv(w') && Extends(w.store, w'.store)
  {
    hide Inv, TakeCurrent, Take, Adopt, Create, StoreMinted, Read, CommitRotation, Blank, Extends;
    var t := w.threads[tid];
    assert ThreadOk(w.store, w.handed, t) && KeysOk(w.store) by { ThreadOfInv(w, tid); }
    SameKeys(w.store, w.store);
    match t.pc
    case TakingCurrent(q) =>
      if TakeCurrent(w.store, t.tenant).0.Some? { TakeKeepsInv(w, tid, q); }
      else { MoveKeepsInv(w, tid, FindingKek(Mint(Some(q)))); }
    case Adopting(mine, q) => AdoptKeepsInv(w, tid, mine, q);
    case FindingKek(goal) => MoveKeepsInv(w, tid, AdvanceThread(w, tid, minted, keyId).threads[tid].pc);
    case CreatingKek(goal) => CreateKeepsInv(w, tid, goal, minted);
    case StoringDek(kek, forEncrypt) => StoreKeepsInv(w, tid, kek, forEncrypt, minted, keyId);
    case CommittingRotation(id, kek) => RotationKeepsInv(w, tid, id, kek, minted);
    case ReadingDek(id, q) => ReadKeepsInv(w, tid, id, q);
    case CheckingOwner(id) =>
      if CheckOwner(w.store, t.tenant, id).Ok? { MoveKeepsInv(w, tid, FindingKek(Rotate(id))); }
      else { QuietStep(w, Done(w, tid), tid); }
  }

  lemma AdmitKeepsInv(w: World, tid: nat, tenant: string, pc: Pc)
    requires Inv(w) && OwnId(pc).None? && OwnKek(pc).None?
    ensures Inv(Admit(w, tid, tenant, pc))
  {
    if tid !in w.threads && !Blank(tenant) {
      QuietStep(w, Admit(w, tid, tenant, pc), tid);
    }
  }

  lemma SealKeepsInv(w: World, root: Option<Key>)
    requires Inv(w)
    ensures var w' := w.(store := w.store.(root := root)); Inv(w') && Extends(w.store, w'.store)
  {
    hide EntryOk, LedgerOk, ResponseOk, Extends;
    var w' := w.(store := w.store.(root := root));
    SameKeys(w.store, w'.store);
    LedgersCarry(w, w');
    IssuedCarry(w.store, w'.store, w.issued);
    assert forall i | i in w'.threads :: ThreadOk(w.store, w.handed, w.threads[i]);
  }

  lemma ExtendsItself(s: Store)
    ensures Extends(s, s)
  {
  }

  lemma StepKeepsInv(w: World, a: Action)
    requires Inv(w)
    ensures Inv(Step(w, a)) && Extends(w.store, Step(w, a).store)
  {
    hide Inv, Extends;
    ExtendsItself(w.store);
    match a
    case Advance(tid, minted, keyId) => if tid in w.threads { AdvanceKeepsInv(w, tid, minted, keyId); }
    case Encrypt(tid, tenant, q) => AdmitKeepsInv(w, tid, tenant, TakingCurrent(q));
    case GenerateDek(tid, tenant) => AdmitKeepsInv(w, tid, tenant, FindingKek(Mint(None)));
    case RotateKey(tid, tenant, keyId) => AdmitKeepsInv(w, tid, tenant, CheckingOwner(keyId));
    case SetSeal(root) => SealKeepsInv(w, root);
  }

  lemma {:induction false} RunKeepsInv(root: Option<Key>, actions: seq<Action>)
    ensures Inv(Run(Init(root), actions))
  {
    if actions == [] {
      InitInv(root);
    } else {
      var last := |actions| - 1;
      RunKeepsInv(root, actions[..last]);
      StepKeepsInv(Run(Init(root), actions[..last]), actions[last]);
    }
  }

  // ---------------------------------------------------------------------
  // The theorems
  // ---------------------------------------------------------------------

  /**
   Nothing ever encrypted becomes unreadable. Whatever interleaving of encrypts, generations, rotations,
   rolls and seal changes led here, every response ever returned decrypts for its own tenant and associated
   data to exactly its plaintext, and for no other tenant or associated data to anything.
   */
  lemma NothingBecomesUnreadable(root: Option<Key>, actions: seq<Action>, r: Response, tenant: string, aad: Aad)
    requires r in Run(Init(root), actions).issued && !Blank(tenant)
    ensures var store := Run(Init(root), actions).store;
            Decrypt(store, tenant, Combined(r.keyId, r.blob), aad)
            == if tenant != r.tenant then Err(KeyNotFound)
               else if aad == r.q.aad then Ok(r.q.plain)
               else Err(DecryptionFailed)
  {
    RunKeepsInv(root, actions);
    var w := Run(Init(root), actions);
    assert ResponseOk(w.store, r);
    assert EntryOk(w.store, r.keyId);
    DecryptIff(w.store, tenant, r.keyId, r.blob.key, r.q.plain, r.q.aad, aad);
  }

  /**
   However callers race, no key id is selected for encryption more than 100,000 times, and a tenant that made
   n > 0 successful selections has adopted exactly ceil(n / 100,000) DEKs: racing mints waste no budget.
   */
  lemma OperationBudget(root: Option<Key>, actions: seq<Action>, tenant: string, keyId: string)
    ensures var w := Run(Init(root), actions);
            var n := Count(w.calls, tenant);
            && Count(w.handed, keyId) <= 100_000
            && Count(w.adopted, tenant) == (n + 99_999) / 100_000
  {
    RunKeepsInv(root, actions);
    var w := Run(Init(root), actions);
    assert LedgerOk(w, tenant);
  }

  /** The metadata a caller sees describes the live key: its version counts the rotations, and its wrapped
      form opens, under the one KEK its tenant will ever have, to the material that encrypts. */
  lemma MetadataDescribesKey(root: Option<Key>, actions: seq<Action>, more: seq<Action>, keyId: string)
    requires keyId in Run(Init(root), actions).store.deks
    ensures var s := Run(Init(root), actions).store;
            var e := s.deks[keyId];
            var later := Run(Init(root), actions + more).store;
            && e.version == 1 + |e.superseded|
            && e.tenant in s.keks && e.tenant in later.keks && later.keks[e.tenant] == s.keks[e.tenant]
            && OpenKey(s.keks[e.tenant].raw, e.wrapped, ReloadAad(keyId)) == Some(e.raw)
            && Holds(later.deks, keyId, e.raw)
  {
    RunKeepsInv(root, actions);
    assert EntryOk(Run(Init(root), actions).store, keyId);
    RunExtends(root, actions, more);
  }

  lemma {:induction false} RunExtends(root: Option<Key>, actions: seq<Action>, more: seq<Action>)
    ensures Extends(Run(Init(root), actions).store, Run(Init(root), actions + more).store)
  {
    hide Step, Inv, Init;
    if more == [] {
      assert actions + more == actions;
    } else {
      var last := |more| - 1;
      var all := actions + more;
      assert all[..|all| - 1] == actions + more[..last];
      RunExtends(root, actions, more[..last]);
      RunKeepsInv(root, actions + more[..last]);
      StepKeepsInv(Run(Init(root), actions + more[..last]), more[last]);
    }
  }

  // ---------------------------------------------------------------------
  // Requests get their answer
  // ---------------------------------------------------------------------

  /** The encryption a thread is serving, if it is. */
  function Serving(pc: Pc): Option<Request> {
    match pc
    case TakingCurrent(q) => Some(q)
    case FindingKek(Mint(q)) => q
    case CreatingKek(Mint(q)) => q
    case StoringDek(_, q) => q
    case Adopting(_, q) => Some(q)
    case ReadingDek(_, q) => Some(q)
    case _ => None
  }

  /** How many lock sections an encryption has ahead of it, at most. */
  function Ahead(pc: Pc): nat {
    match pc
    case TakingCurrent(_) => 6
    case FindingKek(_) => 5
    case CreatingKek(_) => 4
    case StoringDek(_, _) => 3
    case Adopting(_, _) => 2
    case _ => 1
  }

  /** One section on: same tenant, same request, less ahead, nothing answered yet. */
  ghost predicate Nearer(w: World, w': World, tid: nat, q: Request)
    requires tid in w.threads
  {
    && tid in w'.threads && w'.issued == w.issued && w'.threads[tid].tenant == w.threads[tid].tenant
    && Serving(w'.threads[tid].pc) == Some(q) && Ahead(w'.threads[tid].pc) < Ahead(w.threads[tid].pc)
  }

  lemma ReadAnswers(w: World, tid: nat, keyId: string, q: Request)
    requires tid in w.threads && Owns(w.store, w.threads[tid].tenant, keyId)
    ensures var tenant, w' := w.threads[tid].tenant, Read(w, tid, keyId, q);
            && tid !in w'.threads
            && w'.issued == w.issued + {Response(tenant, keyId, Sealed(w.store.deks[keyId].raw, q.plain, q.aad), q)}
  {
  }

  lemma MiddleSectionsNear(w: World, tid: nat, minted: Key, keyId: string)
    requires tid in w.threads && Serving(w.threads[tid].pc).Some? && UnusedId(w.store, keyId)
    requires w.threads[tid].pc.FindingKek? || w.threads[tid].pc.CreatingKek? || w.threads[tid].pc.StoringDek?
    ensures var t, w' := w.threads[tid], AdvanceThread(w, tid, minted, keyId);
            if t.pc.CreatingKek? && w.store.root.None? && FindKek(w.store, t.tenant).None? then
              tid !in w'.threads && w'.issued == w.issued
            else Nearer(w, w', tid, Serving(t.pc).value)
  {
    hide CanonicalUuid, TakeCurrent;
  }

  lemma SelectionNears(w: World, tid: nat, minted: Key, keyId: string)
    requires tid in w.threads && (w.threads[tid].pc.TakingCurrent? || w.threads[tid].pc.Adopting?)
    ensures Nearer(w, AdvanceThread(w, tid, minted, keyId), tid, Serving(w.threads[tid].pc).value)
  {
    hide TakeCurrent, AdoptCurrent;
  }

  /**
   Whatever the other requests do in between, each lock section brings an encryption nearer to its response: within six
   it is answered, under the material its key has now. The one exception is exact: it needs a new KEK while the vault is sealed.
   */
  lemma EncryptAdvances(w: World, tid: nat, minted: Key, keyId: string)
    requires Inv(w) && tid in w.threads && Serving(w.threads[tid].pc).Some? && UnusedId(w.store, keyId)
    ensures var t, w' := w.threads[tid], Step(w, Advance(tid, minted, keyId));
            var q := Serving(t.pc).value;
            if t.pc.CreatingKek? && w.store.root.None? && FindKek(w.store, t.tenant).None? then
              tid !in w'.threads && w'.issued == w.issued
            else if t.pc.ReadingDek? then
              && tid !in w'.threads && Owns(w.store, t.tenant, t.pc.keyId)
              && w'.issued == w.issued + {Response(t.tenant, t.pc.keyId, Sealed(w.store.deks[t.pc.keyId].raw, q.plain, q.aad), q)}
            else Nearer(w, w', tid, q)
  {
    hide Inv, Nearer, Read, Take, Adopt, Create, StoreMinted;
    var t := w.threads[tid];
    ThreadOfInv(w, tid);
    if t.pc.ReadingDek? {
      ReadAnswers(w, tid, t.pc.keyId, t.pc.q);
    } else if t.pc.TakingCurrent? || t.pc.Adopting? {
      SelectionNears(w, tid, minted, keyId);
    } else {
      MiddleSectionsNear(w, tid, minted, keyId);
    }
  }
}
