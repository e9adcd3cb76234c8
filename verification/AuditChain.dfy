/**
 The hash chain over one tenant's audit records: each signature covers the record,
 its position and its predecessor's signature.

 The MAC is an arbitrary function. Nothing is assumed about it: where two logs agree
 on a signature without agreeing on history, the theorem exhibits the collision.
 */
module AuditChain {
  import opened Wrappers
  import opened Envelope
  import opened AuditMessage

  type Mac = (Key, string) -> seq<Octet>

  /** `sign_event_chained`. */
  function Sign(mac: Mac, key: Key, r: Record, seqNo: int, prevHash: string): (s: string) {
    HexEncode(mac(key, Message(r, seqNo, prevHash)))
  }

  /** `verify_signature`, at the position the record says it has. */
  predicate VerifySignature(mac: Mac, r: Record, key: Key, signature: string) {
    HexDecode(signature) == Some(mac(key, Message(r, r.seqNo, r.prevHash)))
  }

  /** Verification accepts the signature and its other letter cases, and nothing else. */
  lemma VerifyIff(mac: Mac, r: Record, key: Key, signature: string)
    ensures VerifySignature(mac, r, key, signature) <==> Lower(signature) == Sign(mac, key, r, r.seqNo, r.prevHash)
    ensures VerifySignature(mac, r, key, Sign(mac, key, r, r.seqNo, r.prevHash))
  {
    hide HexDecode, HexEncode, Lower, Message;
    var bytes := mac(key, Message(r, r.seqNo, r.prevHash));
    HexDecodeIff(signature, bytes);
    LowerEncoded(bytes);
    HexDecodeIff(HexEncode(bytes), bytes);
  }

  // ---------------------------------------------------------------------
  // Chains
  // ---------------------------------------------------------------------

  function TipSignature(log: seq<Record>): string { if log == [] then "" else log[|log| - 1].signature }

  /** Numbered from 1, each record naming its predecessor's signature. */
  ghost predicate Linked(log: seq<Record>) {
    forall i | 0 <= i < |log| :: log[i].seqNo == i + 1 && log[i].prevHash == TipSignature(log[..i])
  }

  ghost predicate Verified(mac: Mac, key: Key, log: seq<Record>) {
    forall i | 0 <= i < |log| :: VerifySignature(mac, log[i], key, log[i].signature)
  }

  /** No field of the record holds NUL; a database text column cannot. */
  ghost predicate Clean(r: Record) { Typed(r, "") && NulFree(Texts(r)) }

  ghost predicate AllClean(log: seq<Record>) { forall i | 0 <= i < |log| :: Clean(log[i]) }

  /** Two different signed messages with one MAC. */
  ghost predicate Collides(mac: Mac, key: Key, r: Record, r2: Record) {
    && Message(r, r.seqNo, r.prevHash) != Message(r2, r2.seqNo, r2.prevHash)
    && mac(key, Message(r, r.seqNo, r.prevHash)) == mac(key, Message(r2, r2.seqNo, r2.prevHash))
  }

  ghost predicate CollisionIn(mac: Mac, key: Key, a: seq<Record>, b: seq<Record>) {
    exists r, r2 :: r in a && r2 in b && Collides(mac, key, r, r2)
  }

  lemma {:induction false} HexNulFree(s: string)
    requires HexDecode(s).Some?
    ensures NUL !in s
  {
    if |s| >= 2 {
      HexNulFree(s[2..]);
      assert s == [s[0], s[1]] + s[2..];
    }
  }

  lemma LinksNulFree(mac: Mac, key: Key, log: seq<Record>)
    requires Linked(log) && Verified(mac, key, log) && log != []
    ensures NUL !in log[|log| - 1].prevHash
  {
    hide HexDecode, Message;
    var n := |log| - 1;
    if n > 0 {
      assert log[n].prevHash == log[..n][n - 1].signature;
      HexNulFree(log[n - 1].signature);
    }
  }

  lemma LinkedStart(log: seq<Record>, n: nat)
    requires Linked(log) && n <= |log|
    ensures Linked(log[..n])
  {
    hide TipSignature;
    forall i | 0 <= i < n ensures log[..n][i].prevHash == TipSignature(log[..n][..i]) {
      assert log[..n][..i] == log[..i];
    }
  }

  lemma LinkedAppend(log: seq<Record>, r: Record)
    requires Linked(log) && (r.seqNo, r.prevHash) == (|log| + 1, TipSignature(log))
    ensures Linked(log + [r])
  {
    var log' := log + [r];
    forall i | 0 <= i < |log'| ensures log'[i].seqNo == i + 1 && log'[i].prevHash == TipSignature(log'[..i]) {
      assert i < |log| ==> log'[..i] == log[..i];
      assert i == |log| ==> log'[..i] == log;
    }
  }

  lemma LinkedPrefix(mac: Mac, key: Key, log: seq<Record>, n: nat)
    requires Linked(log) && Verified(mac, key, log) && n <= |log|
    ensures Linked(log[..n]) && Verified(mac, key, log[..n])
  {
    hide Linked, VerifySignature;
    LinkedStart(log, n);
  }

  /** Equal signatures on the newest records: the same record, or a collision. */
  lemma SameTip(mac: Mac, key: Key, a: seq<Record>, b: seq<Record>)
    requires Linked(a) && Verified(mac, key, a) && AllClean(a) && a != []
    requires Linked(b) && Verified(mac, key, b) && b != []
    requires TipSignature(a) == TipSignature(b)
    ensures a[|a| - 1] == b[|b| - 1] || Collides(mac, key, a[|a| - 1], b[|b| - 1])
  {
    hide HexDecode, Message, Fields, Linked;
    var r, r2 := a[|a| - 1], b[|b| - 1];
    assert VerifySignature(mac, r, key, r.signature) && VerifySignature(mac, r2, key, r2.signature);
    if Message(r, r.seqNo, r.prevHash) == Message(r2, r2.seqNo, r2.prevHash) {
      LinksNulFree(mac, key, a);
      MessageInjective(r, r.seqNo, r.prevHash, r2, r2.seqNo, r2.prevHash);
    }
  }

  /**
   Tamper evidence. Two well-linked logs that verify under one key and end in one signature are the same log, record
   for record, or hold two different messages with the same MAC. So no edit, excision, insertion or reordering keeps
   the tip.
   */
  lemma {:induction false} TamperEvident(mac: Mac, key: Key, a: seq<Record>, b: seq<Record>)
    requires Linked(a) && Verified(mac, key, a) && AllClean(a) && a != []
    requires Linked(b) && Verified(mac, key, b) && b != []
    requires TipSignature(a) == TipSignature(b)
    ensures a == b || CollisionIn(mac, key, a, b)
  {
    hide Linked, Verified, AllClean, TipSignature, CollisionIn, Collides;
    SameTip(mac, key, a, b);
    var n := |a| - 1;
    NewestRecord(mac, key, a);
    NewestRecord(mac, key, b);
    if a[n] == b[|b| - 1] {
      if n > 0 {
        assert AllClean(a[..n]) by { CleanPrefix(a, n); }
        TamperEvident(mac, key, a[..n], b[..n]);
      }
    }
    CollisionGrows(mac, key, a, b);
  }

  lemma NewestRecord(mac: Mac, key: Key, log: seq<Record>)
    requires Linked(log) && Verified(mac, key, log) && log != []
    ensures var n := |log| - 1;
            && Linked(log[..n]) && Verified(mac, key, log[..n])
            && log[n].seqNo == |log| && log[n].prevHash == TipSignature(log[..n])
            && log == log[..n] + [log[n]]
  {
    hide Verified, TipSignature;
    LinkedPrefix(mac, key, log, |log| - 1);
  }

  lemma CleanPrefix(log: seq<Record>, n: nat)
    requires AllClean(log) && n <= |log|
    ensures AllClean(log[..n])
  {
  }

  lemma CollisionGrows(mac: Mac, key: Key, a: seq<Record>, b: seq<Record>)
    requires a != [] && b != []
    ensures Collides(mac, key, a[|a| - 1], b[|b| - 1]) ==> CollisionIn(mac, key, a, b)
    ensures CollisionIn(mac, key, a[..|a| - 1], b[..|b| - 1]) ==> CollisionIn(mac, key, a, b)
  {
    hide Collides;
    if CollisionIn(mac, key, a[..|a| - 1], b[..|b| - 1]) {
      var r, r2 :| r in a[..|a| - 1] && r2 in b[..|b| - 1] && Collides(mac, key, r, r2);
      assert r in a && r2 in b;
    }
  }

  /** Appending at the tip, signed for that position, extends a chain. */
  lemma AppendExtends(mac: Mac, key: Key, log: seq<Record>, r: Record)
    requires Linked(log) && Verified(mac, key, log)
    requires r.seqNo == |log| + 1 && r.prevHash == TipSignature(log) && r.signature == Sign(mac, key, r, r.seqNo, r.prevHash)
    ensures Linked(log + [r]) && Verified(mac, key, log + [r])
  {
    hide VerifySignature, Sign, Linked;
    VerifyIff(mac, r, key, r.signature);
    LinkedAppend(log, r);
  }

  // ---------------------------------------------------------------------
  // The structural check
  // ---------------------------------------------------------------------

  predicate Breaks(before: Record, after: Record) {
    after.seqNo != before.seqNo + 1 || after.prevHash != before.signature
  }

  // The window functions order the tenant's rows by number, however they are stored.

  predicate SeqSorted(rows: seq<Record>) { forall i, j | 0 <= i < j < |rows| :: rows[i].seqNo <= rows[j].seqNo }

  function PutBySeq(rows: seq<Record>, r: Record): seq<Record> {
    if rows == [] || rows[|rows| - 1].seqNo <= r.seqNo then rows + [r]
    else PutBySeq(rows[..|rows| - 1], r) + [rows[|rows| - 1]]
  }

  function BySeq(rows: seq<Record>): seq<Record> {
    if rows == [] then [] else PutBySeq(BySeq(rows[..|rows| - 1]), rows[|rows| - 1])
  }

  lemma LastApart(rows: seq<Record>)
    requires rows != []
    ensures multiset(rows) == multiset(rows[..|rows| - 1]) + multiset{rows[|rows| - 1]}
  {
    assert rows == rows[..|rows| - 1] + [rows[|rows| - 1]];
  }

  lemma {:induction false} PutBySeqElements(rows: seq<Record>, r: Record)
    ensures multiset(PutBySeq(rows, r)) == multiset(rows) + multiset{r}
  {
    if rows != [] {
      LastApart(rows);
      PutBySeqElements(rows[..|rows| - 1], r);
    }
  }

  lemma FrontSorted(rows: seq<Record>)
    requires SeqSorted(rows) && rows != []
    ensures SeqSorted(rows[..|rows| - 1]) && forall r | r in rows :: r.seqNo <= rows[|rows| - 1].seqNo
  {
  }

  lemma AppendSorted(rows: seq<Record>, r: Record)
    requires SeqSorted(rows) && forall x | x in rows :: x.seqNo <= r.seqNo
    ensures SeqSorted(rows + [r])
  {
  }

  lemma {:induction false} PutBySeqSorts(rows: seq<Record>, r: Record)
    requires SeqSorted(rows)
    ensures SeqSorted(PutBySeq(rows, r))
  {
    hide SeqSorted;
    if rows == [] {
      AppendSorted(rows, r);
    } else {
      var n := |rows| - 1;
      FrontSorted(rows);
      if rows[n].seqNo <= r.seqNo {
        AppendSorted(rows, r);
      } else {
        var front := PutBySeq(rows[..n], r);
        PutBySeqSorts(rows[..n], r);
        forall x | x in front ensures x.seqNo <= rows[n].seqNo { PutBySeqFrom(rows[..n], r, x); }
        AppendSorted(front, rows[n]);
      }
    }
  }

  lemma PutBySeqFrom(rows: seq<Record>, r: Record, x: Record)
    requires x in PutBySeq(rows, r)
    ensures x == r || x in rows
  {
    hide PutBySeq;
    PutBySeqElements(rows, r);
    assert x in multiset(PutBySeq(rows, r));
  }

  lemma {:induction false} BySeqSorts(rows: seq<Record>)
    ensures SeqSorted(BySeq(rows)) && multiset(BySeq(rows)) == multiset(rows) && |BySeq(rows)| == |rows|
  {
    hide SeqSorted, PutBySeq;
    if rows == [] {
      assert SeqSorted([]) by { NoneSorted(); }
    } else {
      var n := |rows| - 1;
      BySeqSorts(rows[..n]);
      LastApart(rows);
      PutBySeqSorts(BySeq(rows[..n]), rows[n]);
      PutBySeqElements(BySeq(rows[..n]), rows[n]);
    }
    assert |BySeq(rows)| == |multiset(BySeq(rows))| == |multiset(rows)|;
  }

  lemma NoneSorted()
    ensures SeqSorted([])
  {
  }

  predicate SeqRising(log: seq<Record>) { forall i, j | 0 <= i < j < |log| :: log[i].seqNo < log[j].seqNo }

  lemma FrontRising(log: seq<Record>)
    requires SeqRising(log) && log != []
    ensures SeqRising(log[..|log| - 1])
    ensures forall r | r in log :: r == log[|log| - 1] || r.seqNo < log[|log| - 1].seqNo
  {
  }

  lemma SameLast(log: seq<Record>, rows: seq<Record>)
    requires SeqRising(log) && SeqSorted(rows) && multiset(rows) == multiset(log) && log != [] && rows != []
    ensures rows[|rows| - 1] == log[|log| - 1]
    ensures multiset(rows[..|rows| - 1]) == multiset(log[..|log| - 1])
  {
    hide SeqRising, SeqSorted;
    var x, y := log[|log| - 1], rows[|rows| - 1];
    FrontRising(log);
    FrontSorted(rows);
    assert x in multiset(rows) && y in multiset(log);
    assert x in rows && y in log;
    LastApart(log);
    LastApart(rows);
    Remove(multiset(rows[..|rows| - 1]), multiset(log[..|log| - 1]), x);
  }

  lemma Remove(a: multiset<Record>, b: multiset<Record>, x: Record)
    requires a + multiset{x} == b + multiset{x}
    ensures a == b
  {
    assert a == (a + multiset{x}) - multiset{x};
    assert b == (b + multiset{x}) - multiset{x};
  }

  /** Rows with rising numbers have only one order by number. */
  lemma {:induction false} OneOrder(log: seq<Record>, rows: seq<Record>)
    requires SeqRising(log) && SeqSorted(rows) && multiset(rows) == multiset(log)
    ensures rows == log
  {
    hide SeqRising, SeqSorted;
    assert |rows| == |multiset(rows)| == |multiset(log)| == |log|;
    if log != [] {
      var n := |log| - 1;
      SameLast(log, rows);
      FrontRising(log);
      FrontSorted(rows);
      OneOrder(log[..n], rows[..n]);
      assert rows == rows[..n] + [rows[n]];
    }
  }

  /** The numbers at which an ordered row does not follow the one before it. The first is not checked. */
  function StepBreaks(rows: seq<Record>): (at: seq<int>)
    ensures at == [] <==> forall i | 0 < i < |rows| :: !Breaks(rows[i - 1], rows[i])
  {
    if |rows| < 2 then []
    else
      var n := |rows| - 1;
      StepBreaks(rows[..n]) + if Breaks(rows[n - 1], rows[n]) then [rows[n].seqNo] else []
  }

  /** `audit_chain_breaks`, over the rows in whatever order they are stored. */
  function ChainBreaks(rows: seq<Record>): (at: seq<int>) { StepBreaks(BySeq(rows)) }

  /** The check and a look at the first record together tell exactly whether the rows make up a well-linked log. */
  lemma LinkedIff(rows: seq<Record>)
    ensures var ordered := BySeq(rows);
            |ordered| == |rows| && ((exists log :: multiset(log) == multiset(rows) && Linked(log)) <==>
              ChainBreaks(rows) == [] && (rows == [] || (ordered[0].seqNo == 1 && ordered[0].prevHash == "")))
  {
    hide BySeq, StepBreaks, SeqSorted;
    var ordered := BySeq(rows);
    BySeqSorts(rows);
    OrderedLinkedIff(ordered);
    if log :| multiset(log) == multiset(rows) && Linked(log) {
      OneOrder(log, ordered);
    }
  }

  lemma OrderedLinkedIff(rows: seq<Record>)
    ensures Linked(rows) <==> StepBreaks(rows) == [] && (rows == [] || (rows[0].seqNo == 1 && rows[0].prevHash == ""))
  {
    if Linked(rows) {
      forall i | 0 < i < |rows| ensures !Breaks(rows[i - 1], rows[i]) {
        assert rows[..i][i - 1] == rows[i - 1];
      }
    } else if StepBreaks(rows) == [] && rows != [] && rows[0].seqNo == 1 && rows[0].prevHash == "" {
      NumberedFromOne(rows, |rows| - 1);
      forall i | 0 <= i < |rows| ensures rows[i].seqNo == i + 1 && rows[i].prevHash == TipSignature(rows[..i]) {
        NumberedFromOne(rows, i);
        assert i > 0 ==> !Breaks(rows[i - 1], rows[i]) && rows[..i][i - 1] == rows[i - 1];
      }
      assert false;
    }
  }

  lemma {:induction false} NumberedFromOne(rows: seq<Record>, i: nat)
    requires forall i | 0 < i < |rows| :: !Breaks(rows[i - 1], rows[i])
    requires i < |rows| && rows[0].seqNo == 1
    ensures rows[i].seqNo == i + 1
  {
    if i > 0 {
      NumberedFromOne(rows, i - 1);
      assert !Breaks(rows[i - 1], rows[i]);
    }
  }

  function Select(log: seq<Record>, kept: seq<nat>): (r: seq<Record>)
    requires forall i | 0 <= i < |kept| :: kept[i] < |log|
    ensures |r| == |kept|
  {
    seq(|kept|, i requires 0 <= i < |kept| => log[kept[i]])
  }

  predicate Contiguous(kept: seq<nat>) { forall i | 0 < i < |kept| :: kept[i] == kept[i - 1] + 1 }

  predicate Increasing(kept: seq<nat>) { forall i, j | 0 <= i < j < |kept| :: kept[i] < kept[j] }

  /**
   Deleting records from an intact log goes unnoticed, by the structural check and by every signature, exactly when
   what is left is one unbroken stretch, in whatever order it is stored: removing the oldest records, the newest, or
   both, is not detected.
   */
  lemma DeletionPassesIff(mac: Mac, key: Key, log: seq<Record>, kept: seq<nat>, rows: seq<Record>)
    requires Linked(log) && Verified(mac, key, log) && Increasing(kept)
    requires forall i | 0 <= i < |kept| :: kept[i] < |log|
    requires multiset(rows) == multiset(Select(log, kept))
    ensures ChainBreaks(rows) == [] && Verified(mac, key, rows) <==> Contiguous(kept)
  {
    hide VerifySignature, BySeq, StepBreaks, SeqSorted, Verified, Select, SeqRising;
    var left := Select(log, kept);
    BySeqSorts(rows);
    KeptRising(mac, key, log, kept);
    OneOrder(left, BySeq(rows));
    VerifiedKept(mac, key, log, kept, rows);
    forall i | 0 < i < |left| ensures Breaks(left[i - 1], left[i]) <==> kept[i] != kept[i - 1] + 1 {
      KeptBreaks(log, kept, i);
    }
  }

  lemma KeptRising(mac: Mac, key: Key, log: seq<Record>, kept: seq<nat>)
    requires Linked(log) && Increasing(kept) && forall i | 0 <= i < |kept| :: kept[i] < |log|
    ensures SeqRising(Select(log, kept))
  {
  }

  lemma KeptBreaks(log: seq<Record>, kept: seq<nat>, i: nat)
    requires Linked(log) && 0 < i < |kept| && forall i | 0 <= i < |kept| :: kept[i] < |log|
    ensures var left := Select(log, kept); Breaks(left[i - 1], left[i]) <==> kept[i] != kept[i - 1] + 1
  {
    var k := kept[i];
    assert log[k].prevHash == TipSignature(log[..k]);
    assert k > 0 ==> log[..k][k - 1] == log[k - 1];
  }

  lemma VerifiedKept(mac: Mac, key: Key, log: seq<Record>, kept: seq<nat>, rows: seq<Record>)
    requires Verified(mac, key, log) && forall i | 0 <= i < |kept| :: kept[i] < |log|
    requires multiset(rows) == multiset(Select(log, kept))
    ensures Verified(mac, key, rows)
  {
    hide VerifySignature;
    forall i | 0 <= i < |rows| ensures VerifySignature(mac, rows[i], key, rows[i].signature) {
      assert rows[i] in multiset(rows);
      assert rows[i] in Select(log, kept);
    }
  }
}
