/** The in-memory audit store: insertion, filtering and paging. */
module AuditQuery {
  import opened Wrappers

  datatype Entry = Entry(
    tenant: string, principal: string, action: string, at: int, signature: string, seqNo: int, prevHash: string)

  datatype Filter = Filter(
    tenant: string, start: Option<int>, end: Option<int>, action: Option<string>, principal: Option<string>)

  /** An absent filter, or an empty text, matches everything. */
  predicate TextMatches(wanted: Option<string>, actual: string) {
    wanted.None? || wanted.value == "" || actual == wanted.value
  }

  predicate Matches(f: Filter, e: Entry) {
    && e.tenant == f.tenant
    && (f.start.None? || e.at >= f.start.value)
    && (f.end.None? || e.at <= f.end.value)
    && TextMatches(f.action, e.action) && TextMatches(f.principal, e.principal)
  }

  /** What a filter asks for, bound by bound; an empty text asks for nothing. */
  predicate Asked(f: Filter, e: Entry) {
    && f.tenant == e.tenant
    && (f.start.Some? ==> f.start.value <= e.at)
    && (f.end.Some? ==> e.at <= f.end.value)
    && (f.action.Some? && f.action.value != "" ==> f.action.value == e.action)
    && (f.principal.Some? && f.principal.value != "" ==> f.principal.value == e.principal)
  }

  lemma MatchesAsked(f: Filter, e: Entry)
    ensures Matches(f, e) <==> Asked(f, e)
  {
  }

  function Matching(records: seq<Entry>, f: Filter): (r: seq<Entry>) {
    if records == [] then []
    else
      var n := |records| - 1;
      Matching(records[..n], f) + if Matches(f, records[n]) then [records[n]] else []
  }

  function Min(a: nat, b: nat): nat { if a < b then a else b }

  /** Skip `offset`, then take `limit`, or everything when `limit` is 0. */
  function Page(matching: seq<Entry>, limit: nat, offset: nat): (r: seq<Entry>) {
    var from := Min(offset, |matching|);
    matching[from..if limit == 0 then |matching| else Min(offset + limit, |matching|)]
  }

  function Query(records: seq<Entry>, f: Filter, limit: nat, offset: nat): (r: (seq<Entry>, nat)) {
    var matching := Matching(records, f);
    (Page(matching, limit, offset), |matching|)
  }

  /** Positions and links are over the whole store, not per tenant. */
  function Inserted(records: seq<Entry>, e: Entry): (r: seq<Entry>) {
    records + [e.(seqNo := |records| + 1, prevHash := if records == [] then "" else records[|records| - 1].signature)]
  }

  class InMemoryAuditStore {
    var records: seq<Entry>

    constructor ()
      ensures records == []
    {
      records := [];
    }

    method InsertRecord(e: Entry)
      modifies this
      ensures records == Inserted(old(records), e)
      ensures |records| == |old(records)| + 1 && old(records) <= records
    {
      var record := e.(seqNo := |records| + 1);
      if |records| > 0 {
        record := record.(prevHash := records[|records| - 1].signature);
      } else {
        record := record.(prevHash := "");
      }
      records := records + [record];
    }

    method QueryEvents(f: Filter, limit: nat, offset: nat) returns (page: seq<Entry>, total: nat)
      ensures (page, total) == Query(records, f, limit, offset)
      ensures forall e | e in page :: e in records && Asked(f, e)
      ensures |page| == if offset >= total then 0 else if limit == 0 then total - offset else Min(limit, total - offset)
    {
      var matching: seq<Entry> := [];
      for i := 0 to |records|
        invariant matching == Matching(records[..i], f)
      {
        assert records[..i + 1][..i] == records[..i];
        if Matches(f, records[i]) {
          matching := matching + [records[i]];
        }
      }
      assert records[..|records|] == records;
      total := |matching|;
      var rest := if offset < total then matching[offset..] else [];
      page := if limit == 0 || |rest| <= limit then rest else rest[..limit];
      assert page == Page(matching, limit, offset);
      MatchingAsked(records, f);
    }
  }

  lemma {:induction false} MatchingAsked(records: seq<Entry>, f: Filter)
    ensures forall e :: e in Matching(records, f) <==> e in records && Asked(f, e)
  {
    hide Matches, Asked;
    if records != [] {
      var n := |records| - 1;
      MatchingAsked(records[..n], f);
      MatchesAsked(f, records[n]);
      assert records == records[..n] + [records[n]];
    }
  }

  /** The store after a run of insertions. */
  function Filled(entries: seq<Entry>): (records: seq<Entry>) {
    if entries == [] then [] else Inserted(Filled(entries[..|entries| - 1]), entries[|entries| - 1])
  }

  /** Record `i` is the supplied entry at its position, naming its predecessor's signature. */
  ghost predicate LinkedAt(entries: seq<Entry>, records: seq<Entry>, i: nat)
    requires i < |entries| && i < |records|
  {
    records[i] == entries[i].(seqNo := i + 1, prevHash := if i == 0 then "" else records[i - 1].signature)
  }

  /** Records keep what was supplied, in order, numbered from 1 and linked across all tenants. */
  lemma {:induction false} InsertionsLink(entries: seq<Entry>)
    ensures |Filled(entries)| == |entries| && forall i | 0 <= i < |entries| :: LinkedAt(entries, Filled(entries), i)
  {
    if entries != [] {
      var n := |entries| - 1;
      InsertionsLink(entries[..n]);
      var before, records := Filled(entries[..n]), Filled(entries);
      forall i | 0 <= i < |entries| ensures LinkedAt(entries, records, i) {
        if i < n { assert LinkedAt(entries[..n], before, i); }
      }
    }
  }

  // ---------------------------------------------------------------------
  // Paging
  // ---------------------------------------------------------------------

  /** The first `count` pages, one after the other, as a client that walks the offsets collects them. */
  function Walk(records: seq<Entry>, f: Filter, limit: nat, count: nat): (r: seq<Entry>) {
    if count == 0 then [] else Walk(records, f, limit, count - 1) + Query(records, f, limit, (count - 1) * limit).0
  }

  lemma {:induction false} WalkIsPrefix(records: seq<Entry>, f: Filter, limit: nat, count: nat)
    requires limit > 0
    ensures var m := Matching(records, f); Walk(records, f, limit, count) == m[..Min(count * limit, |m|)]
  {
    if count > 0 {
      WalkIsPrefix(records, f, limit, count - 1);
      var m := Matching(records, f);
      var from := (count - 1) * limit;
      assert count * limit == from + limit;
    }
  }

  /** A subsequence by positions: what filtering keeps, in the order it was inserted. */
  ghost predicate KeepsOrder(records: seq<Entry>, f: Filter, kept: seq<Entry>, at: seq<nat>) {
    && |at| == |kept|
    && (forall i | 0 <= i < |at| :: at[i] < |records| && kept[i] == records[at[i]] && Asked(f, kept[i]))
    && (forall i, j | 0 <= i < j < |at| :: at[i] < at[j])
    && (forall k | 0 <= k < |records| && Asked(f, records[k]) :: k in at)
  }

  lemma OrderDropped(records: seq<Entry>, f: Filter, kept: seq<Entry>, at: seq<nat>, e: Entry)
    requires KeepsOrder(records, f, kept, at) && !Asked(f, e)
    ensures KeepsOrder(records + [e], f, kept, at)
  {
    hide Asked;
    forall k | 0 <= k < |records| + 1 && Asked(f, (records + [e])[k]) ensures k in at { assert k < |records|; }
  }

  lemma OrderKept(records: seq<Entry>, f: Filter, kept: seq<Entry>, at: seq<nat>, e: Entry)
    requires KeepsOrder(records, f, kept, at) && Asked(f, e)
    ensures KeepsOrder(records + [e], f, kept + [e], at + [|records|])
  {
    hide Asked;
    var more := at + [|records|];
    assert more[|at|] == |records|;
    forall k | 0 <= k < |records| + 1 && Asked(f, (records + [e])[k]) ensures k in more {
      if k < |records| { assert k in at; }
    }
    forall i | 0 <= i < |more| ensures (kept + [e])[i] == (records + [e])[more[i]] && Asked(f, (kept + [e])[i]) {}
  }

  lemma {:induction false} MatchingInOrder(records: seq<Entry>, f: Filter) returns (at: seq<nat>)
    ensures KeepsOrder(records, f, Matching(records, f), at)
  {
    hide Matches, Asked, KeepsOrder;
    if records == [] {
      at := [];
      NothingKept(f);
    } else {
      var n := |records| - 1;
      var before := MatchingInOrder(records[..n], f);
      assert records == records[..n] + [records[n]];
      MatchesAsked(f, records[n]);
      if Matches(f, records[n]) {
        at := before + [n];
        OrderKept(records[..n], f, Matching(records[..n], f), before, records[n]);
      } else {
        at := before;
        assert Matching(records, f) == Matching(records[..n], f);
        OrderDropped(records[..n], f, Matching(records[..n], f), before, records[n]);
      }
    }
  }

  lemma NothingKept(f: Filter)
    ensures KeepsOrder([], f, [], [])
  {
  }

  /** Without a limit one query from the start returns everything asked for, each record once and in insertion order. */
  lemma UnlimitedQuery(records: seq<Entry>, f: Filter) returns (at: seq<nat>)
    ensures KeepsOrder(records, f, Query(records, f, 0, 0).0, at) && Query(records, f, 0, 0).1 == |at|
  {
    hide KeepsOrder;
    at := MatchingInOrder(records, f);
    var m := Matching(records, f);
    assert m[0..|m|] == m;
    KeptLength(records, f, m, at);
  }

  lemma KeptLength(records: seq<Entry>, f: Filter, kept: seq<Entry>, at: seq<nat>)
    requires KeepsOrder(records, f, kept, at)
    ensures |at| == |kept|
  {
  }

  /**
   On an unchanging store, for any filters and any limit above 0, the pages at offsets 0, limit, 2*limit and so on
   concatenate to exactly the matching records, each once and in insertion order, and every page reports the same total.
   */
  lemma PagesConcatenate(records: seq<Entry>, f: Filter, limit: nat, count: nat, offset: nat) returns (at: seq<nat>)
    requires limit > 0 && count * limit >= |Matching(records, f)|
    ensures KeepsOrder(records, f, Walk(records, f, limit, count), at)
    ensures Query(records, f, limit, offset).1 == |Walk(records, f, limit, count)|
  {
    WalkIsPrefix(records, f, limit, count);
    var m := Matching(records, f);
    assert m[..|m|] == m;
    at := MatchingInOrder(records, f);
  }
}
