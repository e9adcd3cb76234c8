/**
 The seal: custody of the root key. The root key is stored only encrypted under an
 unseal key, and the unseal key exists only as shares held by separate people.

 Shares have an arbitrary type `S`; two submissions are the same share when their
 raw bytes are equal.
 */
module Sealing {
  import opened Wrappers
  import opened Envelope

  type Byte = n: int | 0 <= n < 256

  /** The value that tells a right reconstruction from a wrong one: a derivation of the unseal key that never collides. */
  datatype Check = CheckOf(key: Key)

  datatype Material = Material(shares: Byte, threshold: Byte, sealedRoot: Blob, check: Check)

  const SEAL_AAD: Aad := CallerAad("wslvault:seal:root-key:v1")

  datatype SealError =
    InvalidThreshold | AlreadyInitialized | NotInitialized | NotBase64Share | MalformedShare
    | CannotReconstruct | WrongLength | WrongShares | CorruptMaterial

  /** What an operator posts: text that is not base64, bytes that are no share, or a share. */
  datatype Submission<S> = NotBase64 | Malformed | Share(raw: S)

  datatype Status = Status(isSealed: bool, initialized: bool, threshold: Byte, shares: Byte, progress: Byte)

  // ---------------------------------------------------------------------
  // Secret sharing
  // ---------------------------------------------------------------------

  /** A sharing library: `deal(shares, threshold, secret, randomness)` and `recover(threshold, shares)`. */
  datatype Scheme<!S> = Scheme(deal: (Byte, Byte, Key, nat) -> seq<S>, recover: (Byte, seq<S>) -> Option<Plain>)

  predicate Distinct<S(==)>(s: seq<S>) {
    forall i, j | 0 <= i < j < |s| :: s[i] != s[j]
  }

  /** `picked` is a selection of `count` different shares of `dealt`, in any order. */
  ghost predicate Selection<S(!new)>(picked: seq<S>, dealt: seq<S>, count: nat) {
    |picked| == count && Distinct(picked) && forall x | x in picked :: x in dealt
  }

  ghost predicate GoodDeal<S(!new)>(c: Scheme<S>, shares: Byte, threshold: Byte, secret: Key, seed: nat) {
    var dealt := c.deal(shares, threshold, secret, seed);
    && |dealt| == shares && Distinct(dealt)
    && forall picked | Selection(picked, dealt, threshold) :: c.recover(threshold, picked) == Some(RawKey(secret))
  }

  /** What is asked of the library: any `threshold` of the dealt shares recover the secret. */
  ghost predicate Contract<S(!new)>(c: Scheme<S>) {
    forall shares: Byte, threshold: Byte, secret, seed | 1 <= threshold <= shares ::
      GoodDeal(c, shares, threshold, secret, seed)
  }

  // ---------------------------------------------------------------------
  // The seal's lock sections
  // ---------------------------------------------------------------------

  datatype SealState<S> = SealState(material: Option<Material>, root: Option<Key>, pending: seq<S>)

  function NewSeal<S>(): SealState<S> { SealState(None, None, []) }

  function StatusOf<S>(s: SealState<S>): Status {
    Status(
      s.root.None?, s.material.Some?,
      if s.material.Some? then s.material.value.threshold else 0,
      if s.material.Some? then s.material.value.shares else 0,
      |s.pending| % 256)
  }

  function Loaded<S>(material: Material): SealState<S> { SealState(Some(material), None, []) }

  function AdoptRoot<S>(s: SealState<S>, root: Key): SealState<S> { s.(root := Some(root), pending := []) }

  function Closed<S>(s: SealState<S>): SealState<S> { s.(root := None, pending := []) }

  function Reset<S>(s: SealState<S>): SealState<S> { s.(pending := []) }

  /** `init`, up to the end of its read section. */
  function InitCheck<S>(s: SealState<S>, shares: Byte, threshold: Byte): (r: Result<(), SealError>) {
    if threshold == 0 || shares == 0 || threshold > shares then Err(InvalidThreshold)
    else if s.material.Some? then Err(AlreadyInitialized)
    else Ok(())
  }

  /** What one `init` draws and builds before it takes the write lock. */
  datatype Made<S> = Made(root: Key, unsealKey: Key, material: Material, shares: seq<S>)

  function Make<S>(c: Scheme<S>, shares: Byte, threshold: Byte, root: Key, unsealKey: Key, seed: nat): (m: Made<S>) {
    Made(
      root, unsealKey,
      Material(shares, threshold, Sealed(unsealKey, RawKey(root), SEAL_AAD), CheckOf(unsealKey)),
      c.deal(shares, threshold, unsealKey, seed))
  }

  /** `init`'s write section: the material is adopted and any root key in memory is dropped. */
  function InitWrite<S>(s: SealState<S>, material: Material): SealState<S> { Loaded(material) }

  /** The end of `unseal`, once enough shares are pending. A failed recovery leaves them pending. */
  function Reconstruct<S>(c: Scheme<S>, s: SealState<S>, material: Material): (r: (Result<Status, SealError>, SealState<S>)) {
    var recovered := c.recover(material.threshold, s.pending);
    if recovered.None? then (Err(CannotReconstruct), s)
    else if !recovered.value.RawKey? then (Err(WrongLength), Reset(s))
    else if CheckOf(recovered.value.key) != material.check then (Err(WrongShares), Reset(s))
    else
      var plain := Open(recovered.value.key, material.sealedRoot, SEAL_AAD);
      if plain.None? || !plain.value.RawKey? then (Err(CorruptMaterial), s)
      else
        var s' := AdoptRoot(s, plain.value.key);
        (Ok(StatusOf(s')), s')
  }

  function Unseal<S(==)>(c: Scheme<S>, s: SealState<S>, sub: Submission<S>): (r: (Result<Status, SealError>, SealState<S>)) {
    if s.material.None? then (Err(NotInitialized), s)
    else if s.root.Some? then (Ok(StatusOf(s)), s)
    else if sub.NotBase64? then (Err(NotBase64Share), s)
    else if sub.Malformed? then (Err(MalformedShare), s)
    else if sub.raw in s.pending then (Ok(StatusOf(s)), s)
    else
      var s' := s.(pending := s.pending + [sub.raw]);
      if |s'.pending| % 256 < s.material.value.threshold then (Ok(StatusOf(s')), s')
      else Reconstruct(c, s', s.material.value)
  }

  // ---------------------------------------------------------------------
  // The seal in place
  // ---------------------------------------------------------------------

  class Seal<S(==)> {
    var material: Option<Material>
    var rootKey: Option<Key>
    var pending: seq<S>

    ghost function View(): SealState<S> reads this { SealState(material, rootKey, pending) }

    constructor ()
      ensures View() == NewSeal()
    {
      material, rootKey, pending := None, None, [];
    }

    method Load(m: Material)
      modifies this
      ensures View() == Loaded(m)
      ensures material == Some(m) && rootKey.None? && pending == []
    {
      material := Some(m);
      rootKey := None;
      pending := [];
    }

    method UnsealWithRootKey(root: Key)
      modifies this`rootKey, this`pending
      ensures View() == AdoptRoot(old(View()), root)
      ensures rootKey == Some(root) && pending == []
    {
      rootKey := Some(root);
      pending := [];
    }

    /**
     One process initializing alone: check, make, write. It succeeds exactly for a possible threshold on a process that
     has no material, and is sealed afterwards; anything else is refused and changes nothing.
     */
    method Init(c: Scheme<S>, shares: Byte, threshold: Byte, root: Key, unsealKey: Key, seed: nat)
      returns (r: Result<Made<S>, SealError>)
      modifies this
      ensures InitCheck(old(View()), shares, threshold).Err? ==>
                r == Err(InitCheck(old(View()), shares, threshold).error) && View() == old(View())
      ensures InitCheck(old(View()), shares, threshold).Ok? ==>
                var m := Make(c, shares, threshold, root, unsealKey, seed);
                r == Ok(m) && View() == InitWrite(old(View()), m.material)
      ensures r.Ok? <==> 1 <= threshold <= shares && old(material).None?
      ensures 1 <= threshold <= shares && old(material).Some? ==> r == Err(AlreadyInitialized)
      ensures !(1 <= threshold <= shares) ==> r == Err(InvalidThreshold)
      ensures r.Err? ==> material == old(material) && rootKey == old(rootKey) && pending == old(pending)
      ensures r.Ok? ==> material == Some(r.value.material) && rootKey.None? && pending == []
      ensures r.Ok? ==> r.value.root == root && r.value.shares == c.deal(shares, threshold, unsealKey, seed)
    {
      if threshold == 0 || shares == 0 {
        return Err(InvalidThreshold);
      }
      if threshold > shares {
        return Err(InvalidThreshold);
      }
      if material.Some? {
        return Err(AlreadyInitialized);
      }
      var sealedRoot := Sealed(unsealKey, RawKey(root), SEAL_AAD);
      var dealt := c.deal(shares, threshold, unsealKey, seed);
      var m := Material(shares, threshold, sealedRoot, CheckOf(unsealKey));
      material := Some(m);
      rootKey := None;
      pending := [];
      r := Ok(Made(root, unsealKey, m, dealt));
    }

    method SubmitShare(c: Scheme<S>, sub: Submission<S>) returns (r: Result<Status, SealError>)
      modifies this`rootKey, this`pending
      ensures (r, View()) == Unseal(c, old(View()), sub)
      ensures material.None? ==> r == Err(NotInitialized)
      ensures material.Some? && old(rootKey).None? && sub.NotBase64? ==> r == Err(NotBase64Share)
      ensures material.Some? && old(rootKey).None? && sub.Malformed? ==> r == Err(MalformedShare)
      ensures material.None? || old(rootKey).Some? || !sub.Share? || sub.raw in old(pending) ==> View() == old(View())
      ensures material.Some? && (old(rootKey).Some? || (sub.Share? && sub.raw in old(pending))) ==> r == Ok(StatusOf(View()))
    {
      if material.None? {
        return Err(NotInitialized);
      }
      if rootKey.Some? {
        var status := CurrentStatus();
        return Ok(status);
      }
      match sub {
        case NotBase64 => return Err(NotBase64Share);
        case Malformed => return Err(MalformedShare);
        case Share(raw) =>
          for i := 0 to |pending|
            invariant forall j | 0 <= j < i :: pending[j] != raw
            invariant View() == old(View())
          {
            if pending[i] == raw {
              var status := CurrentStatus();
              return Ok(status);
            }
          }
          pending := pending + [raw];
          if |pending| % 256 < material.value.threshold {
            var status := CurrentStatus();
            return Ok(status);
          }
          r := Recover(c);
      }
    }

    method Recover(c: Scheme<S>) returns (r: Result<Status, SealError>)
      requires material.Some?
      modifies this`rootKey, this`pending
      ensures (r, View()) == Reconstruct(c, old(View()), material.value)
    {
      var recovered := c.recover(material.value.threshold, pending);
      if recovered.None? {
        return Err(CannotReconstruct);
      }
      if recovered.value.Data? {
        pending := [];
        return Err(WrongLength);
      }
      var unsealKey := recovered.value.key;
      if CheckOf(unsealKey) != material.value.check {
        pending := [];
        return Err(WrongShares);
      }
      var plain := Open(unsealKey, material.value.sealedRoot, SEAL_AAD);
      if plain.None? || plain.value.Data? {
        return Err(CorruptMaterial);
      }
      rootKey := Some(plain.value.key);
      pending := [];
      var status := CurrentStatus();
      r := Ok(status);
    }

    method CurrentStatus() returns (status: Status)
      ensures status == StatusOf(View())
      ensures status.isSealed == rootKey.None? && status.initialized == material.Some? && status.progress == |pending| % 256
      ensures material.Some? ==> status.threshold == material.value.threshold && status.shares == material.value.shares
    {
      var threshold: Byte, shares: Byte := 0, 0;
      if material.Some? {
        threshold, shares := material.value.threshold, material.value.shares;
      }
      status := Status(rootKey.None?, material.Some?, threshold, shares, |pending| % 256);
    }

    method Close()
      modifies this`rootKey, this`pending
      ensures View() == Closed(old(View()))
      ensures rootKey.None? && pending == []
    {
      rootKey := None;
      pending := [];
    }

    method ResetProgress()
      modifies this`pending
      ensures View() == Reset(old(View()))
      ensures pending == []
    {
      pending := [];
    }
  }

  // ---------------------------------------------------------------------
  // One unseal attempt
  // ---------------------------------------------------------------------

  /** A run of submissions, oldest first. */
  function Feed<S(==)>(c: Scheme<S>, s: SealState<S>, subs: seq<Submission<S>>): SealState<S> {
    if subs == [] then s else Unseal(c, Feed(c, s, subs[..|subs| - 1]), subs[|subs| - 1]).1
  }

  function Submitted<S>(shares: seq<S>): seq<Submission<S>> {
    seq(|shares|, i requires 0 <= i < |shares| => Share(shares[i]))
  }

  /** The different shares among the submissions, in the order in which each was first sent. */
  function Firsts<S(==)>(subs: seq<Submission<S>>): (shares: seq<S>) {
    if subs == [] then []
    else
      var before, last := Firsts(subs[..|subs| - 1]), subs[|subs| - 1];
      if last.Share? && last.raw !in before then before + [last.raw] else before
  }

  lemma {:induction false} FirstsAre<S>(subs: seq<Submission<S>>)
    ensures Distinct(Firsts(subs)) && forall x :: x in Firsts(subs) <==> Share(x) in subs
  {
    if subs != [] {
      var n := |subs| - 1;
      FirstsAre(subs[..n]);
      assert subs == subs[..n] + [subs[n]];
    }
  }

  /**
   Below the threshold, progress is the number of different shares sent since the last clear, whoever dealt them and
   however often each was repeated. A share of another vault is counted like any other, contrary to the documented
   promise.
   */
  lemma {:induction false} ProgressCountsShares<S(!new)>(c: Scheme<S>, s: SealState<S>, subs: seq<Submission<S>>)
    requires s.material.Some? && s.root.None? && s.pending == [] && |Firsts(subs)| < s.material.value.threshold
    ensures Feed(c, s, subs) == s.(pending := Firsts(subs))
    ensures var m := s.material.value; StatusOf(Feed(c, s, subs)) == Status(true, true, m.threshold, m.shares, |Firsts(subs)|)
  {
    if subs != [] {
      ProgressCountsShares(c, s, subs[..|subs| - 1]);
    }
  }

  /**
   The submission that brings the last share needed: the vault opens exactly when the shares, of whatever vaults, recover
   the key of the check value. If they recover another key they are dropped. If the library cannot recover at all, or
   the material is corrupt, they stay pending.
   */
  lemma AttemptIff<S(!new)>(c: Scheme<S>, s: SealState<S>, subs: seq<Submission<S>>)
    requires s.material.Some? && s.root.None? && s.pending == [] && subs != []
    requires |Firsts(subs[..|subs| - 1])| < s.material.value.threshold == |Firsts(subs)|
    ensures var m, s' := s.material.value, Feed(c, s, subs);
            var recovered := c.recover(m.threshold, Firsts(subs));
            && s'.material == s.material
            && s'.root == (if recovered == Some(RawKey(m.check.key)) then OpenKey(m.check.key, m.sealedRoot, SEAL_AAD) else None)
            && (s'.root.None? ==>
                  s'.pending == if recovered.Some? && recovered != Some(RawKey(m.check.key)) then [] else Firsts(subs))
            && (s'.root.Some? ==> s'.pending == [] && StatusOf(s') == Status(false, true, m.threshold, m.shares, 0))
            && Unseal(c, Feed(c, s, subs[..|subs| - 1]), subs[|subs| - 1]).0
               == (if s'.root.Some? then Ok(StatusOf(s')) else
                   if recovered.None? then Err(CannotReconstruct) else
                   if recovered.value.Data? then Err(WrongLength) else
                   if recovered != Some(RawKey(m.check.key)) then Err(WrongShares) else Err(CorruptMaterial))
  {
    hide Unseal, Reconstruct, StatusOf, Distinct;
    var n := |subs| - 1;
    var shares := Firsts(subs);
    ProgressCountsShares(c, s, subs[..n]);
    FirstsAre(subs);
    assert shares == Firsts(subs[..n]) + [subs[n].raw] && shares[..|shares| - 1] == Firsts(subs[..n]);
    NextShare(c, s.material.value, shares);
    ReconstructIs(c, s.(pending := shares), s.material.value);
  }

  /** What comes of trying the pending shares. */
  lemma ReconstructIs<S(!new)>(c: Scheme<S>, s: SealState<S>, m: Material)
    requires s.material == Some(m) && s.root.None?
    ensures var (r, s') := Reconstruct(c, s, m);
            var recovered := c.recover(m.threshold, s.pending);
            && s'.material == s.material
            && s'.root == (if recovered == Some(RawKey(m.check.key)) then OpenKey(m.check.key, m.sealedRoot, SEAL_AAD) else None)
            && (s'.root.None? ==> s'.pending == if recovered.Some? && recovered != Some(RawKey(m.check.key)) then [] else s.pending)
            && (s'.root.Some? ==> s'.pending == [] && StatusOf(s') == Status(false, true, m.threshold, m.shares, 0))
            && r == (if s'.root.Some? then Ok(StatusOf(s')) else
                     if recovered.None? then Err(CannotReconstruct) else
                     if recovered.value.Data? then Err(WrongLength) else
                     if recovered != Some(RawKey(m.check.key)) then Err(WrongShares) else Err(CorruptMaterial))
  {
  }

  lemma {:induction false} DistinctFits<S>(s: seq<S>, pool: set<S>)
    requires Distinct(s) && forall x | x in s :: x in pool
    ensures |s| <= |pool|
  {
    if s != [] {
      var n := |s| - 1;
      assert forall x | x in s[..n] :: x in pool - {s[n]};
      DistinctFits(s[..n], pool - {s[n]});
    }
  }

  /** From any cleared state, fewer than `threshold` different shares never open the vault, whatever else is sent and
      however often any of it is repeated. */
  lemma FewerSharesNeverUnseal<S(!new)>(c: Scheme<S>, s: SealState<S>, subs: seq<Submission<S>>, sent: set<S>)
    requires s.material.Some? && s.root.None? && s.pending == []
    requires forall i | 0 <= i < |subs| && subs[i].Share? :: subs[i].raw in sent
    requires |sent| < s.material.value.threshold
    ensures Feed(c, s, subs).root.None?
    ensures StatusOf(Feed(c, s, subs)).progress <= |sent|
  {
    hide Firsts;
    FirstsAre(subs);
    DistinctFits(Firsts(subs), sent);
    ProgressCountsShares(c, s, subs);
  }

  ghost predicate WellMade<S(!new)>(c: Scheme<S>, m: Made<S>) {
    && m.material.sealedRoot == Sealed(m.unsealKey, RawKey(m.root), SEAL_AAD)
    && m.material.check == CheckOf(m.unsealKey)
    && 1 <= m.material.threshold <= m.material.shares
    && |m.shares| == m.material.shares && Distinct(m.shares)
    && forall picked | Selection(picked, m.shares, m.material.threshold) ::
         c.recover(m.material.threshold, picked) == Some(RawKey(m.unsealKey))
  }

  lemma MakeIsWellMade<S(!new)>(c: Scheme<S>, shares: Byte, threshold: Byte, root: Key, unsealKey: Key, seed: nat)
    requires Contract(c) && 1 <= threshold <= shares
    ensures WellMade(c, Make(c, shares, threshold, root, unsealKey, seed))
  {
    assert GoodDeal(c, shares, threshold, unsealKey, seed);
  }

  lemma SubmittedLast<S>(picked: seq<S>)
    requires picked != []
    ensures var subs := Submitted(picked);
            subs[..|subs| - 1] == Submitted(picked[..|picked| - 1]) && subs[|subs| - 1] == Share(picked[|picked| - 1])
  {
  }

  /** A further share is pushed, and the reconstruction is tried once enough are there. */
  lemma NextShare<S(!new)>(c: Scheme<S>, m: Material, picked: seq<S>)
    requires Distinct(picked) && 0 < |picked| <= m.threshold
    ensures var s := SealState(Some(m), None, picked);
            Unseal(c, s.(pending := picked[..|picked| - 1]), Share(picked[|picked| - 1]))
            == if |picked| < m.threshold then (Ok(StatusOf(s)), s) else Reconstruct(c, s, m)
  {
    hide Reconstruct;
    var n := |picked| - 1;
    assert picked[..n] + [picked[n]] == picked;
    assert picked[n] !in picked[..n];
  }

  /** The first shares of a selection pile up without opening anything. */
  lemma {:induction false} SharesPileUp<S(!new)>(c: Scheme<S>, m: Material, picked: seq<S>)
    requires Distinct(picked) && |picked| < m.threshold
    ensures Feed(c, Loaded(m), Submitted(picked)) == SealState(Some(m), None, picked)
  {
    hide Reconstruct, Unseal;
    if picked != [] {
      var n := |picked| - 1;
      SubmittedLast(picked);
      SharesPileUp(c, m, picked[..n]);
      NextShare(c, m, picked);
    }
  }

  /** Whatever is submitted, a process opens to nothing but the root key sealed in the material it loaded. */
  lemma {:induction false} OpensOnlyToSealedRoot<S(!new)>(c: Scheme<S>, loaded: Made<S>, subs: seq<Submission<S>>)
    requires WellMade(c, loaded)
    ensures var s := Feed(c, Loaded(loaded.material), subs);
            s.material == Some(loaded.material) && (s.root.None? || s.root == Some(loaded.root))
  {
    if subs != [] {
      OpensOnlyToSealedRoot(c, loaded, subs[..|subs| - 1]);
    }
  }

  /**
   Any `threshold` of the shares of an init, in any order, submitted to a process that has loaded some material. If the
   process asks for as many shares, it opens, to the root key of that init, exactly when the material it loaded is the
   one the shares were made with. If it asks for more, they stay pending. It never opens to any but its own root key.
   */
  lemma ThresholdOpensIff<S(!new)>(c: Scheme<S>, m: Made<S>, loaded: Made<S>, picked: seq<S>)
    requires WellMade(c, m) && WellMade(c, loaded)
    requires Selection(picked, m.shares, m.material.threshold)
    ensures var s := Feed(c, Loaded(loaded.material), Submitted(picked));
            && (s.root.None? || s.root == Some(loaded.root))
            && (m.material.threshold < loaded.material.threshold ==> s == SealState(Some(loaded.material), None, picked))
            && (m.material.threshold == loaded.material.threshold ==>
                  if loaded.unsealKey == m.unsealKey then s == SealState(Some(loaded.material), Some(loaded.root), [])
                  else s == Loaded(loaded.material))
  {
    hide Unseal, Distinct, Feed;
    OpensOnlyToSealedRoot(c, loaded, Submitted(picked));
    if m.material.threshold < loaded.material.threshold {
      SharesPileUp(c, loaded.material, picked);
    } else if m.material.threshold == loaded.material.threshold {
      AsManyOpenIff(c, m, loaded, picked);
    }
  }

  lemma AsManyOpenIff<S(!new)>(c: Scheme<S>, m: Made<S>, loaded: Made<S>, picked: seq<S>)
    requires WellMade(c, m) && WellMade(c, loaded) && m.material.threshold == loaded.material.threshold
    requires Selection(picked, m.shares, m.material.threshold)
    ensures var s := Feed(c, Loaded(loaded.material), Submitted(picked));
            if loaded.unsealKey == m.unsealKey then s == SealState(Some(loaded.material), Some(loaded.root), [])
            else s == Loaded(loaded.material)
  {
    hide Unseal, Distinct;
    SubmittedLast(picked);
    PrefixDistinct(picked);
    SharesPileUp(c, loaded.material, picked[..|picked| - 1]);
    NextShare(c, loaded.material, picked);
  }

  lemma PrefixDistinct<S>(s: seq<S>)
    requires Distinct(s) && s != []
    ensures Distinct(s[..|s| - 1])
  {
  }
}
