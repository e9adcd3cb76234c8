/**
 The table `system.key_descriptors`: rows of wrapped key material in creation
 order, its uniqueness constraints, and the queries the crypto-service sends.
 */
module KeyTable {
  import opened Wrappers
  import opened Envelope

  datatype Purpose = TenantKek | DataEncryption

  datatype KeyState = Active | RotatingOut | Retired | Destroyed

  datatype Row = Row(id: string, tenant: Option<string>, version: nat, purpose: Purpose, state: KeyState, wrapped: Blob)

  /** What identifies a row: `id` alone, as the shipped schema declares, or `id` with `version`, as rotation assumes. */
  datatype Identity = ById | ByIdVersion

  predicate Loadable(r: Row) { r.state == Active || r.state == RotatingOut }

  /** The primary key, and the unique index over tenant, purpose and version of KEK rows. */
  predicate Clash(identity: Identity, a: Row, b: Row) {
    || (a.id == b.id && (identity.ById? || a.version == b.version))
    || (a.purpose == TenantKek == b.purpose && a.tenant.Some? && a.tenant == b.tenant && a.version == b.version)
  }

  /** INSERT: refused when a row already in the table clashes, or the tenant is not registered. */
  function Insert(identity: Identity, tenants: set<string>, rows: seq<Row>, row: Row): (r: Option<seq<Row>>) {
    if row.tenant.Some? && row.tenant.value !in tenants then None
    else if exists i | 0 <= i < |rows| :: Clash(identity, rows[i], row) then None
    else Some(rows + [row])
  }

  /** A write as it ends: whether the caller is told of success, and the rows it leaves. */
  function Write(outcome: Outcome, rows: seq<Row>, written: Option<seq<Row>>): (r: (bool, seq<Row>)) {
    if outcome.Unreachable? || written.None? then (false, rows) else (outcome.Acked?, written.value)
  }

  /** UPDATE ... SET state WHERE id: every version of the key. */
  function SetState(rows: seq<Row>, id: string, state: KeyState): (r: seq<Row>) {
    seq(|rows|, i requires 0 <= i < |rows| => if rows[i].id == id then rows[i].(state := state) else rows[i])
  }

  function Filter(rows: seq<Row>, keep: Row -> bool): (r: seq<Row>)
    ensures forall x :: x in r <==> x in rows && keep(x)
  {
    if rows == [] then []
    else
      assert forall x :: x in rows <==> x == rows[0] || x in rows[1..];
      (if keep(rows[0]) then [rows[0]] else []) + Filter(rows[1..], keep)
  }

  function LoadableRows(rows: seq<Row>, purpose: Purpose): (r: seq<Row>)
    ensures forall x :: x in r <==> x in rows && x.purpose == purpose && Loadable(x)
  {
    Filter(rows, (r: Row) => r.purpose == purpose && Loadable(r))
  }

  function LoadableVersions(rows: seq<Row>, id: string): (r: seq<Row>)
    ensures forall x :: x in r <==> x in rows && x.id == id && Loadable(x)
  {
    Filter(rows, (r: Row) => r.id == id && Loadable(r))
  }

  /** The most recently created `limit` rows: the limit counts rows, not keys. */
  function Window(rows: seq<Row>, purpose: Purpose, limit: nat): (r: seq<Row>) {
    var all := LoadableRows(rows, purpose);
    if |all| <= limit then all else all[|all| - limit..]
  }

  lemma {:induction false} FilterConcat(a: seq<Row>, b: seq<Row>, keep: Row -> bool)
    ensures Filter(a + b, keep) == Filter(a, keep) + Filter(b, keep)
  {
    if a == [] {
      assert a + b == b;
    } else {
      FilterConcat(a[1..], b, keep);
      assert (a + b)[1..] == a[1..] + b && (a + b)[0] == a[0];
    }
  }

  /** Where to cut the rows so that so many of the kept ones come before. */
  lemma {:induction false} CutAt(rows: seq<Row>, keep: Row -> bool, before: nat) returns (cut: nat)
    requires before <= |Filter(rows, keep)|
    ensures cut <= |rows| && |Filter(rows[..cut], keep)| == before
  {
    if before == 0 {
      cut := 0;
    } else {
      var rest := CutAt(rows[1..], keep, if keep(rows[0]) then before - 1 else before);
      cut := rest + 1;
      assert rows[..cut][1..] == rows[1..][..rest] && rows[..cut][0] == rows[0];
    }
  }

  /** The window is the newest rows: what it leaves out was created before everything it holds, and it leaves out nothing
      while there is room. */
  lemma WindowIsNewest(rows: seq<Row>, purpose: Purpose, limit: nat) returns (cut: nat)
    ensures cut <= |rows| && Window(rows, purpose, limit) == LoadableRows(rows[cut..], purpose)
    ensures var n := |LoadableRows(rows, purpose)|; |Window(rows, purpose, limit)| == if n <= limit then n else limit
  {
    hide Filter;
    var keep := (r: Row) => r.purpose == purpose && Loadable(r);
    var all := Filter(rows, keep);
    cut := CutAt(rows, keep, if |all| <= limit then 0 else |all| - limit);
    FilterConcat(rows[..cut], rows[cut..], keep);
    assert rows[..cut] + rows[cut..] == rows;
    var older := Filter(rows[..cut], keep);
    assert all == older + Filter(rows[cut..], keep);
    assert all[|older|..] == Filter(rows[cut..], keep);
    assert all[0..] == all;
    SameFilter(rows, purpose, keep);
    SameFilter(rows[cut..], purpose, keep);
  }

  lemma SameFilter(rows: seq<Row>, purpose: Purpose, keep: Row -> bool)
    requires forall r :: keep(r) <==> r.purpose == purpose && Loadable(r)
    ensures Filter(rows, keep) == LoadableRows(rows, purpose)
  {
    FilterSame(rows, keep, (r: Row) => r.purpose == purpose && Loadable(r));
  }

  lemma {:induction false} FilterSame(rows: seq<Row>, keep: Row -> bool, keep': Row -> bool)
    requires forall r :: keep(r) <==> keep'(r)
    ensures Filter(rows, keep) == Filter(rows, keep')
  {
    if rows != [] { FilterSame(rows[1..], keep, keep'); }
  }

  predicate Ascending(rows: seq<Row>) {
    forall i, j | 0 <= i < j < |rows| :: rows[i].version <= rows[j].version
  }

  /** An answer the database may give: these rows, in version order, ties in any order. */
  ghost predicate Answers(answer: seq<Row>, rows: seq<Row>) {
    multiset(answer) == multiset(rows) && Ascending(answer)
  }

  lemma AnswerElements(answer: seq<Row>, rows: seq<Row>)
    requires Answers(answer, rows)
    ensures forall x :: x in answer <==> x in rows
  {
    assert forall x :: x in answer <==> x in multiset(answer);
    assert forall x :: x in rows <==> x in multiset(rows);
  }

  /** The window holds every loadable version of a key, or none. */
  ghost predicate Unsplit(rows: seq<Row>, id: string, limit: nat) {
    forall a, b | a in LoadableRows(rows, DataEncryption) && b in LoadableRows(rows, DataEncryption)
                  && a.id == id == b.id ::
      a in Window(rows, DataEncryption, limit) ==> b in Window(rows, DataEncryption, limit)
  }
}
