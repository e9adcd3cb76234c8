/**
 The read-through cache of token-signing keys: a lookup that misses may refetch the
 issuer's key document, at most once per ten seconds however many requests miss.
 */
module JwksCache {
  import opened Wrappers

  type Octets = seq<int>

  /** Ten seconds, in nanoseconds of the process's monotonic clock. */
  const JWKS_MIN_REFETCH: int := 10_000_000_000

  /** One entry of the document; `x` is what its base64url text decodes to, if it does. */
  datatype Entry = Entry(kid: string, x: Option<Octets>)

  datatype AuthFailure = NotConfigured | Unreachable | UnknownKey

  // ---------------------------------------------------------------------
  // Lock sections
  // ---------------------------------------------------------------------

  function Find(keys: map<string, Octets>, kid: string): (r: Option<Octets>) {
    if kid in keys then Some(keys[kid]) else None
  }

  /** The gate: `checked` is the clock when the age is read, `stamped` when the stamp is taken, both under the mutex. */
  function Gate(lastFetch: Option<int>, checked: int, stamped: int): (r: (bool, Option<int>)) {
    if lastFetch.Some? && checked - lastFetch.value < JWKS_MIN_REFETCH then (false, lastFetch) else (true, Some(stamped))
  }

  predicate Acceptable(e: Entry) { e.x.Some? && |e.x.value| == 32 }

  /** Entries are taken in order; malformed ones are skipped. */
  function Merge(keys: map<string, Octets>, doc: seq<Entry>): (r: map<string, Octets>) {
    if doc == [] then keys
    else
      var n := |doc| - 1;
      var before := Merge(keys, doc[..n]);
      if Acceptable(doc[n]) then before[doc[n].kid := doc[n].x.value] else before
  }

  predicate Lists(e: Entry, kid: string) { e.kid == kid && e.x.Some? && |e.x.value| == 32 }

  /** What a document leaves of a kid: its last well-formed entry, number `i` from one, or what was cached if it has none. */
  lemma {:induction false} MergeAt(keys: map<string, Octets>, doc: seq<Entry>, kid: string, i: nat)
    requires i <= |doc| && (i > 0 ==> Lists(doc[i - 1], kid)) && forall j | i <= j < |doc| :: !Lists(doc[j], kid)
    ensures Find(Merge(keys, doc), kid) == if i == 0 then Find(keys, kid) else doc[i - 1].x
  {
    if i < |doc| {
      MergeAt(keys, doc[..|doc| - 1], kid, i);
    }
  }

  class Cache {
    var keys: map<string, Octets>
    var lastFetch: Option<int>

    constructor ()
      ensures keys == map[] && lastFetch.None?
    {
      keys, lastFetch := map[], None;
    }

    method MayFetch(checked: int, stamped: int) returns (fetch: bool)
      modifies this`lastFetch
      ensures (fetch, lastFetch) == Gate(old(lastFetch), checked, stamped)
      ensures fetch <==> old(lastFetch).None? || checked - old(lastFetch).value >= 10_000_000_000
      ensures lastFetch == if fetch then Some(stamped) else old(lastFetch)
    {
      if lastFetch.Some? {
        if checked - lastFetch.value < JWKS_MIN_REFETCH {
          return false;
        }
      }
      lastFetch := Some(stamped);
      fetch := true;
    }

    method Adopt(doc: seq<Entry>)
      modifies this`keys
      ensures keys == Merge(old(keys), doc)
    {
      for i := 0 to |doc|
        invariant keys == Merge(old(keys), doc[..i])
      {
        assert doc[..i + 1][..i] == doc[..i];
        match doc[i].x {
          case Some(raw) => if |raw| == 32 { keys := keys[doc[i].kid := raw]; }
          case None =>
        }
      }
      assert doc[..|doc|] == doc;
    }
  }

  // ---------------------------------------------------------------------
  // Many requests
  // ---------------------------------------------------------------------

  datatype Phase = Looking | Gated | Fetching | Refreshed | Done(answer: Result<Octets, AuthFailure>)

  datatype Call = Call(kid: string, phase: Phase)

  /** The cache, the clock, the calls in progress, and the stamps of all fetches so far. */
  datatype World = World(keys: map<string, Octets>, lastFetch: Option<int>, now: int, calls: map<nat, Call>, stamps: seq<int>)

  datatype Action =
    | Ask(call: nat, kid: string)
    | Lookup(call: nat)
    | PassGate(call: nat, configured: bool, checked: int, stamped: int)
    | Receive(call: nat, doc: Option<seq<Entry>>)
    | LookAgain(call: nat)

  function Start(now: int): World { World(map[], None, now, map[], []) }

  function SetPhase(w: World, call: nat, phase: Phase): World
    requires call in w.calls
  {
    w.(calls := w.calls[call := w.calls[call].(phase := phase)])
  }

  function DoGate(w: World, call: nat, checked: int, stamped: int): World
    requires call in w.calls
  {
    var (fetch, last) := Gate(w.lastFetch, checked, stamped);
    SetPhase(w, call, if fetch then Fetching else Refreshed).(
      lastFetch := last, now := stamped, stamps := if fetch then w.stamps + [stamped] else w.stamps)
  }

  function Step(w: World, a: Action): World {
    if a.Ask? then (if a.call in w.calls then w else w.(calls := w.calls[a.call := Call(a.kid, Looking)]))
    else if a.call !in w.calls then w
    else
      var c := w.calls[a.call];
      match a
      case Lookup(call) =>
        if !c.phase.Looking? then w
        else SetPhase(w, call, if Find(w.keys, c.kid).Some? then Done(Ok(w.keys[c.kid])) else Gated)
      case PassGate(call, configured, checked, stamped) =>
        if !c.phase.Gated? then w
        else if !configured then SetPhase(w, call, Done(Err(NotConfigured)))
        else DoGate(w, call, checked, stamped)
      case Receive(call, doc) =>
        if !c.phase.Fetching? then w
        else if doc.None? then SetPhase(w, call, Done(Err(AuthFailure.Unreachable)))
        else SetPhase(w, call, Refreshed).(keys := Merge(w.keys, doc.value))
      case LookAgain(call) =>
        if !c.phase.Refreshed? then w
        else SetPhase(w, call, Done(if Find(w.keys, c.kid).Some? then Ok(w.keys[c.kid]) else Err(UnknownKey)))
  }

  /** The clock never runs back, and the issuer binds each kid to one key for good. */
  ghost predicate Legal(w: World, issuer: map<string, Octets>, a: Action) {
    && (a.PassGate? ==> w.now <= a.checked <= a.stamped)
    && (a.Receive? && a.doc.Some? ==>
          forall i | 0 <= i < |a.doc.value| && Acceptable(a.doc.value[i]) ::
            a.doc.value[i].kid in issuer && issuer[a.doc.value[i].kid] == a.doc.value[i].x.value)
  }

  function Run(w: World, actions: seq<Action>): World {
    if actions == [] then w else Step(Run(w, actions[..|actions| - 1]), actions[|actions| - 1])
  }

  ghost predicate LegalRun(w: World, issuer: map<string, Octets>, actions: seq<Action>) {
    forall i | 0 <= i < |actions| :: Legal(Run(w, actions[..i]), issuer, actions[i])
  }

  // ---------------------------------------------------------------------
  // What every step keeps
  // ---------------------------------------------------------------------

  ghost predicate Spaced(stamps: seq<int>) {
    forall i | 0 < i < |stamps| :: stamps[i] - stamps[i - 1] >= JWKS_MIN_REFETCH
  }

  ghost predicate FromIssuer(issuer: map<string, Octets>, kid: string, key: Octets) {
    kid in issuer && issuer[kid] == key && |key| == 32
  }

  ghost predicate Inv(w: World, issuer: map<string, Octets>) {
    && Spaced(w.stamps)
    && w.lastFetch == (if w.stamps == [] then None else Some(w.stamps[|w.stamps| - 1]))
    && (forall kid | kid in w.keys :: FromIssuer(issuer, kid, w.keys[kid]))
    && (forall c | c in w.calls && w.calls[c].phase.Done? && w.calls[c].phase.answer.Ok? ::
          FromIssuer(issuer, w.calls[c].kid, w.calls[c].phase.answer.value))
  }

  lemma {:induction false} MergeKeeps(issuer: map<string, Octets>, keys: map<string, Octets>, doc: seq<Entry>)
    requires forall kid | kid in keys :: FromIssuer(issuer, kid, keys[kid])
    requires forall i | 0 <= i < |doc| && Acceptable(doc[i]) :: doc[i].kid in issuer && issuer[doc[i].kid] == doc[i].x.value
    ensures forall kid | kid in Merge(keys, doc) :: FromIssuer(issuer, kid, Merge(keys, doc)[kid])
    ensures forall kid | kid in keys :: kid in Merge(keys, doc) && Merge(keys, doc)[kid] == keys[kid]
    ensures forall i | 0 <= i < |doc| && doc[i].x.Some? && |doc[i].x.value| == 32 :: doc[i].kid in Merge(keys, doc)
  {
    if doc != [] {
      var n := |doc| - 1;
      MergeKeeps(issuer, keys, doc[..n]);
    }
  }

  lemma StepKeeps(w: World, issuer: map<string, Octets>, a: Action)
    requires Inv(w, issuer) && Legal(w, issuer, a)
    ensures Inv(Step(w, a), issuer)
  {
    if a.Receive? && a.doc.Some? {
      MergeKeeps(issuer, w.keys, a.doc.value);
    }
  }

  lemma LegalPrefix(w: World, issuer: map<string, Octets>, actions: seq<Action>, n: nat)
    requires LegalRun(w, issuer, actions) && n <= |actions|
    ensures LegalRun(w, issuer, actions[..n])
  {
    hide Step, Legal;
    forall i | 0 <= i < n ensures Legal(Run(w, actions[..n][..i]), issuer, actions[..n][i]) {
      assert actions[..n][..i] == actions[..i];
    }
  }

  lemma {:induction false} RunKeeps(start: int, issuer: map<string, Octets>, actions: seq<Action>)
    requires LegalRun(Start(start), issuer, actions)
    ensures Inv(Run(Start(start), actions), issuer)
  {
    hide Step, Legal;
    if actions != [] {
      var n := |actions| - 1;
      LegalPrefix(Start(start), issuer, actions, n);
      RunKeeps(start, issuer, actions[..n]);
      StepKeeps(Run(Start(start), actions[..n]), issuer, actions[n]);
    }
  }

  // ---------------------------------------------------------------------
  // Theorems
  // ---------------------------------------------------------------------

  /** How many stamps fall in the closed window from `from` of length `length`. */
  function InWindow(stamps: seq<int>, from: int, length: nat): (n: nat) {
    if stamps == [] then 0
    else
      var last := stamps[|stamps| - 1];
      InWindow(stamps[..|stamps| - 1], from, length) + if from <= last <= from + length then 1 else 0
  }

  /** Counting from the newest stamp in the window back, each earlier one is ten seconds further away. */
  lemma {:induction false} WindowBound(stamps: seq<int>, from: int, length: nat)
    requires Spaced(stamps)
    ensures InWindow(stamps, from, length) <= length / JWKS_MIN_REFETCH + 1
  {
    if stamps != [] {
      var n := |stamps| - 1;
      var last := stamps[n];
      if from <= last <= from + length {
        if last - from < JWKS_MIN_REFETCH {
          NoneBefore(stamps[..n], from, last - JWKS_MIN_REFETCH, length);
        } else {
          var shorter := last - JWKS_MIN_REFETCH - from;
          SameCount(stamps[..n], from, length, shorter, last - JWKS_MIN_REFETCH);
          WindowBound(stamps[..n], from, shorter);
        }
      } else {
        WindowBound(stamps[..n], from, length);
      }
    }
  }

  lemma {:induction false} Ascend(stamps: seq<int>, i: nat)
    requires Spaced(stamps) && i < |stamps|
    ensures stamps[i] <= stamps[|stamps| - 1]
    decreases |stamps| - i
  {
    if i < |stamps| - 1 {
      Ascend(stamps, i + 1);
      assert stamps[i + 1] - stamps[i] >= JWKS_MIN_REFETCH;
    }
  }

  lemma {:induction false} NoneBefore(stamps: seq<int>, from: int, newest: int, length: nat)
    requires Spaced(stamps) && newest < from && (stamps != [] ==> stamps[|stamps| - 1] <= newest)
    ensures InWindow(stamps, from, length) == 0
  {
    if stamps != [] {
      var n := |stamps| - 1;
      if n > 0 { Ascend(stamps, n - 1); }
      NoneBefore(stamps[..n], from, newest, length);
    }
  }

  lemma {:induction false} SameCount(stamps: seq<int>, from: int, length: nat, shorter: nat, newest: int)
    requires Spaced(stamps) && newest == from + shorter <= from + length
    requires stamps != [] ==> stamps[|stamps| - 1] <= newest
    ensures InWindow(stamps, from, length) == InWindow(stamps, from, shorter)
  {
    if stamps != [] {
      var n := |stamps| - 1;
      if n > 0 { Ascend(stamps, n - 1); }
      SameCount(stamps[..n], from, length, shorter, newest);
    }
  }

  /**
   Under any interleaving of any number of missing lookups, fetch stamps are at least ten seconds apart, so a window
   of length T holds at most floor(T / 10 s) + 1 of them; and every key ever answered is the issuer's 32-byte key for
   the kid that was asked.
   */
  lemma FetchesSpacedAndKeysGenuine(start: int, issuer: map<string, Octets>, actions: seq<Action>, from: int, length: nat)
    requires LegalRun(Start(start), issuer, actions)
    ensures var w := Run(Start(start), actions);
            && Spaced(w.stamps)
            && InWindow(w.stamps, from, length) <= length / JWKS_MIN_REFETCH + 1
            && forall c | c in w.calls && w.calls[c].phase.Done? && w.calls[c].phase.answer.Ok? ::
                 FromIssuer(issuer, w.calls[c].kid, w.calls[c].phase.answer.value)
  {
    hide Run, LegalRun;
    RunKeeps(start, issuer, actions);
    WindowBound(Run(Start(start), actions).stamps, from, length);
  }

  /** A lookup that misses fetches exactly when an issuer is configured and nothing was fetched yet or the last fetch is ten
      seconds old; a fetch that fails is answered as such and counts, and a miss that comes too early is an unknown key. */
  lemma MissFetchesIff(
      start: int, issuer: map<string, Octets>, actions: seq<Action>, call: nat, configured: bool, checked: int, stamped: int)
    requires LegalRun(Start(start), issuer, actions)
    requires var w := Run(Start(start), actions);
             call in w.calls && w.calls[call].phase.Looking? && w.calls[call].kid !in w.keys
    ensures var w := Run(Start(start), actions);
            var w' := Step(Step(w, Lookup(call)), PassGate(call, configured, checked, stamped));
            var due := w.stamps == [] || checked - w.stamps[|w.stamps| - 1] >= 10_000_000_000;
            && w'.keys == w.keys && w'.stamps == (if configured && due then w.stamps + [stamped] else w.stamps)
            && w'.calls[call].phase
               == (if !configured then Done(Err(NotConfigured)) else if due then Fetching else Refreshed)
            && (configured && due ==> Step(w', Receive(call, None)) == SetPhase(w', call, Done(Err(AuthFailure.Unreachable))))
            && (configured && !due ==> Step(w', LookAgain(call)).calls[call].phase == Done(Err(UnknownKey)))
  {
    hide Run;
    RunKeeps(start, issuer, actions);
  }

  lemma {:induction false} KeysStay(start: int, issuer: map<string, Octets>, actions: seq<Action>, n: nat, kid: string)
    requires LegalRun(Start(start), issuer, actions) && n <= |actions| && kid in Run(Start(start), actions[..n]).keys
    ensures kid in Run(Start(start), actions).keys
    decreases |actions|
  {
    hide Step, Legal;
    if n == |actions| {
      assert actions[..n] == actions;
    } else {
      var last := |actions| - 1;
      LegalPrefix(Start(start), issuer, actions, last);
      assert actions[..last][..n] == actions[..n];
      KeysStay(start, issuer, actions[..last], n, kid);
      RunKeeps(start, issuer, actions[..last]);
      KeyStaysOneStep(Run(Start(start), actions[..last]), issuer, actions[last], kid);
    }
  }

  lemma KeyStaysOneStep(w: World, issuer: map<string, Octets>, a: Action, kid: string)
    requires Inv(w, issuer) && Legal(w, issuer, a) && kid in w.keys
    ensures kid in Step(w, a).keys
  {
    if a.Receive? && a.doc.Some? { MergeKeeps(issuer, w.keys, a.doc.value); }
  }

  /** Once a document that lists a kid with a well-formed key has arrived, every later lookup of that kid, by any call,
      answers with the issuer's key. */
  lemma FetchedKeyIsAnswered(start: int, issuer: map<string, Octets>, actions: seq<Action>, n: nat, i: nat, call: nat)
    requires LegalRun(Start(start), issuer, actions) && n < |actions|
    requires var w, a := Run(Start(start), actions[..n]), actions[n];
             && a.Receive? && a.doc.Some? && a.call in w.calls && w.calls[a.call].phase.Fetching?
             && i < |a.doc.value| && a.doc.value[i].x.Some? && |a.doc.value[i].x.value| == 32
    requires var w := Run(Start(start), actions);
             && call in w.calls && w.calls[call].kid == actions[n].doc.value[i].kid
             && (w.calls[call].phase.Looking? || w.calls[call].phase.Refreshed?)
    ensures var w := Run(Start(start), actions);
            var kid := actions[n].doc.value[i].kid;
            && kid in issuer
            && (w.calls[call].phase.Looking? ==> Step(w, Lookup(call)).calls[call].phase == Done(Ok(issuer[kid])))
            && (w.calls[call].phase.Refreshed? ==> Step(w, LookAgain(call)).calls[call].phase == Done(Ok(issuer[kid])))
  {
    hide Run, Legal;
    var kid := actions[n].doc.value[i].kid;
    DocumentArrives(start, issuer, actions, n, i);
    KeysStay(start, issuer, actions, n + 1, kid);
    RunKeeps(start, issuer, actions);
  }

  lemma DocumentArrives(start: int, issuer: map<string, Octets>, actions: seq<Action>, n: nat, i: nat)
    requires LegalRun(Start(start), issuer, actions) && n < |actions|
    requires var w, a := Run(Start(start), actions[..n]), actions[n];
             && a.Receive? && a.doc.Some? && a.call in w.calls && w.calls[a.call].phase.Fetching?
             && i < |a.doc.value| && a.doc.value[i].x.Some? && |a.doc.value[i].x.value| == 32
    ensures actions[n].doc.value[i].kid in Run(Start(start), actions[..n + 1]).keys
  {
    var w := Run(Start(start), actions[..n]);
    assert Legal(w, issuer, actions[n]);
    assert actions[..n + 1][..n] == actions[..n];
    LegalPrefix(Start(start), issuer, actions, n);
    RunKeeps(start, issuer, actions[..n]);
    MergeKeeps(issuer, w.keys, actions[n].doc.value);
  }
}
