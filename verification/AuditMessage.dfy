/** The text an audit signature covers: twelve fields joined by NUL, and the signature's hexadecimal form. */
module AuditMessage {
  import opened Wrappers
  import opened Envelope

  const NUL: char := '\0'

  /** `details` and `timestamp` are the compact JSON and the RFC 3339 text that the message carries. */
  datatype Record = Record(
    id: string, tenant: string, principal: string, action: string, resource: string, outcome: string,
    outcomeDetail: string, clientIp: string, timestamp: string, details: string,
    seqNo: int, prevHash: string, signature: string)

  // ---------------------------------------------------------------------
  // Decimal
  // ---------------------------------------------------------------------

  function Digits(n: nat): (s: string)
    ensures s != [] && forall i | 0 <= i < |s| :: '0' <= s[i] <= '9'
  {
    var d := ['0' + (n % 10) as char];
    if n < 10 then d else Digits(n / 10) + d
  }

  function Decimal(n: int): (s: string)
    ensures NUL !in s && s != [] && (s[0] == '-' <==> n < 0)
  {
    if n < 0 then "-" + Digits(-n) else Digits(n)
  }

  function DigitsValue(s: string): (n: nat)
    requires forall i | 0 <= i < |s| :: '0' <= s[i] <= '9'
  {
    if s == [] then 0 else DigitsValue(s[..|s| - 1]) * 10 + (s[|s| - 1] as int - '0' as int)
  }

  lemma {:induction false} DigitsRoundTrip(n: nat)
    ensures DigitsValue(Digits(n)) == n
  {
    var s := Digits(n);
    if n >= 10 {
      DigitsRoundTrip(n / 10);
      assert s[..|s| - 1] == Digits(n / 10);
    }
  }

  lemma DecimalInjective(m: int, n: int)
    requires Decimal(m) == Decimal(n)
    ensures m == n
  {
    if m < 0 {
      assert Decimal(m)[1..] == Digits(-m) && Decimal(n)[1..] == Digits(-n);
      DigitsRoundTrip(-m);
      DigitsRoundTrip(-n);
    } else {
      DigitsRoundTrip(m);
      DigitsRoundTrip(n);
    }
  }

  // ---------------------------------------------------------------------
  // Joining and splitting
  // ---------------------------------------------------------------------

  function Join(fields: seq<string>): (s: string)
    requires fields != []
  {
    if |fields| == 1 then fields[0] else fields[0] + [NUL] + Join(fields[1..])
  }

  function Split(s: string): (fields: seq<string>)
    ensures fields != []
    ensures |fields| == 1 <==> NUL !in s
    decreases |s|
  {
    var cut := SplitOnce(s, NUL);
    if cut.None? then [s] else [cut.value.0] + Split(cut.value.1)
  }

  /** Splitting after a separator splits both sides. */
  lemma {:induction false} SplitAround(a: string, b: string)
    ensures Split(a + [NUL] + b) == Split(a) + Split(b)
    decreases |a|
  {
    var s := a + [NUL] + b;
    var cut := SplitOnce(a, NUL);
    if cut.None? {
      SplitOnceAt(a, b, NUL);
    } else {
      assert s == cut.value.0 + [NUL] + (cut.value.1 + [NUL] + b);
      SplitOnceAt(cut.value.0, cut.value.1 + [NUL] + b, NUL);
      SplitAround(cut.value.1, b);
    }
  }

  ghost predicate NulFree(fields: seq<string>) { forall i | 0 <= i < |fields| :: NUL !in fields[i] }

  lemma NulFreeCons(fields: seq<string>)
    requires fields != []
    ensures NulFree(fields) <==> NUL !in fields[0] && NulFree(fields[1..])
  {
    var rest := fields[1..];
    if NUL !in fields[0] && NulFree(rest) {
      forall i | 0 <= i < |fields| ensures NUL !in fields[i] { assert i > 0 ==> fields[i] == rest[i - 1]; }
    }
  }

  /** Splitting a join gives the fields back exactly when none of them holds the separator; otherwise it gives more. */
  lemma {:induction false} SplitJoinIff(fields: seq<string>)
    requires fields != []
    ensures |Split(Join(fields))| >= |fields|
    ensures |Split(Join(fields))| == |fields| <==> NulFree(fields)
    ensures NulFree(fields) ==> Split(Join(fields)) == fields
  {
    hide NulFree, SplitOnce;
    NulFreeCons(fields);
    if |fields| == 1 {
      assert NulFree(fields[1..]) by { NulFreeNone(fields[1..]); }
    } else {
      SplitJoinIff(fields[1..]);
      SplitAround(fields[0], Join(fields[1..]));
      assert fields == [fields[0]] + fields[1..];
    }
  }

  lemma NulFreeNone(fields: seq<string>)
    requires fields == []
    ensures NulFree(fields)
  {
  }

  lemma {:induction false} JoinAppend(f: seq<string>, g: seq<string>)
    requires f != [] && g != []
    ensures Join(f + g) == Join(f) + [NUL] + Join(g)
  {
    if |f| > 1 {
      JoinAppend(f[1..], g);
      assert (f + g)[1..] == f[1..] + g;
    } else {
      assert (f + g)[1..] == g;
    }
  }

  // ---------------------------------------------------------------------
  // The canonical message
  // ---------------------------------------------------------------------

  function Fields(r: Record, seqNo: int, prevHash: string): (fields: seq<string>)
    ensures |fields| == 12
  {
    [r.id, r.tenant, r.principal, r.action, r.resource, r.outcome, r.outcomeDetail, r.clientIp, r.timestamp, r.details,
     Decimal(seqNo), prevHash]
  }

  function Message(r: Record, seqNo: int, prevHash: string): (m: string) { Join(Fields(r, seqNo, prevHash)) }

  /** The message as it is laid out. */
  lemma MessageLayout(r: Record, seqNo: int, prevHash: string)
    ensures Message(r, seqNo, prevHash)
            == r.id + [NUL] + (r.tenant + [NUL] + (r.principal + [NUL] + (r.action + [NUL] + (r.resource + [NUL] + (
               r.outcome + [NUL] + (r.outcomeDetail + [NUL] + (r.clientIp + [NUL] + (r.timestamp + [NUL] + (
               r.details + [NUL] + (Decimal(seqNo) + [NUL] + prevHash))))))))))
  {
    hide Decimal, Join;
    var f := Fields(r, seqNo, prevHash);
    JoinFrom(f, 0); JoinFrom(f, 1); JoinFrom(f, 2); JoinFrom(f, 3); JoinFrom(f, 4); JoinFrom(f, 5);
    JoinFrom(f, 6); JoinFrom(f, 7); JoinFrom(f, 8); JoinFrom(f, 9); JoinFrom(f, 10);
    assert f[0..] == f && Join(f[11..]) == prevHash by { JoinLast(f); }
  }

  lemma JoinFrom(f: seq<string>, k: nat)
    requires k + 1 < |f|
    ensures Join(f[k..]) == f[k] + [NUL] + Join(f[k + 1..])
  {
    assert f[k..][1..] == f[k + 1..];
  }

  lemma JoinLast(f: seq<string>)
    requires f != []
    ensures Join(f[|f| - 1..]) == f[|f| - 1]
  {
  }

  /** The fields no type keeps free of NUL: the texts that callers supply. */
  function Texts(r: Record): seq<string> {
    [r.tenant, r.principal, r.action, r.resource, r.outcome, r.outcomeDetail, r.clientIp]
  }

  /** What the types of the other fields ensure: UUID, timestamp, JSON and hexadecimal text never hold NUL. */
  ghost predicate Typed(r: Record, prevHash: string) {
    NUL !in r.id && NUL !in r.timestamp && NUL !in r.details && NUL !in prevHash
  }

  lemma FieldsNulFree(r: Record, seqNo: int, prevHash: string)
    requires Typed(r, prevHash)
    ensures NulFree(Fields(r, seqNo, prevHash)) <==> NulFree(Texts(r))
  {
    var f, t := Fields(r, seqNo, prevHash), Texts(r);
    if NulFree(f) {
      forall i | 0 <= i < |t| ensures NUL !in t[i] { assert t[i] == f[i + 1]; }
    }
    if NulFree(t) {
      forall i | 0 <= i < |f| ensures NUL !in f[i] { assert 1 <= i <= 7 ==> f[i] == t[i - 1]; }
    }
  }

  /** The splitter inverts the join: a message without NUL in its texts fixes every field, the number and the link. */
  lemma MessageInjective(r: Record, seqNo: int, prevHash: string, r2: Record, seqNo2: int, prevHash2: string)
    requires Typed(r, prevHash) && NulFree(Texts(r))
    requires Message(r, seqNo, prevHash) == Message(r2, seqNo2, prevHash2)
    ensures Fields(r, seqNo, prevHash) == Fields(r2, seqNo2, prevHash2)
    ensures seqNo == seqNo2 && prevHash == prevHash2
    ensures r2 == r.(seqNo := r2.seqNo, prevHash := r2.prevHash, signature := r2.signature)
  {
    hide Join, Split, Decimal;
    var f, g := Fields(r, seqNo, prevHash), Fields(r2, seqNo2, prevHash2);
    FieldsNulFree(r, seqNo, prevHash);
    SplitJoinIff(f);
    SplitJoinIff(g);
    assert f[10] == g[10] && f[11] == g[11] && f[0] == g[0] && f[1] == g[1] && f[2] == g[2] && f[3] == g[3];
    assert f[4] == g[4] && f[5] == g[5] && f[6] == g[6] && f[7] == g[7] && f[8] == g[8] && f[9] == g[9];
    DecimalInjective(seqNo, seqNo2);
  }

  function FromFields(f: seq<string>, r: Record): Record
    requires |f| == 12
  {
    Record(f[0], f[1], f[2], f[3], f[4], f[5], f[6], f[7], f[8], f[9], r.seqNo, r.prevHash, r.signature)
  }

  /** Moving the boundary of two adjacent fields along one of their NULs leaves the join alone. */
  lemma ShiftBoundary(f: seq<string>, k: nat, x: string, y: string)
    requires k + 1 < |f| && x + [NUL] + y == f[k] + [NUL] + f[k + 1]
    ensures Join(f[k := x][k + 1 := y]) == Join(f)
  {
    var g := f[k := x][k + 1 := y];
    var pre, post := f[..k], f[k + 2..];
    assert f == pre + [f[k], f[k + 1]] + post && g == pre + [x, y] + post;
    assert Join([f[k], f[k + 1]]) == f[k] + [NUL] + f[k + 1] by { assert [f[k], f[k + 1]][1..] == [f[k + 1]]; }
    assert Join([x, y]) == x + [NUL] + y by { assert [x, y][1..] == [y]; }
    JoinMiddle(pre, [f[k], f[k + 1]], [x, y], post);
  }

  lemma JoinMiddle(pre: seq<string>, a: seq<string>, b: seq<string>, post: seq<string>)
    requires a != [] && b != [] && Join(a) == Join(b)
    ensures Join(pre + a + post) == Join(pre + b + post)
  {
    hide Join;
    JoinTail(a, b, post);
    if pre == [] {
      assert pre + a + post == a + post && pre + b + post == b + post;
    } else {
      assert pre + a + post == pre + (a + post) && pre + b + post == pre + (b + post);
      JoinAppend(pre, a + post);
      JoinAppend(pre, b + post);
    }
  }

  lemma JoinTail(a: seq<string>, b: seq<string>, post: seq<string>)
    requires a != [] && b != [] && Join(a) == Join(b)
    ensures Join(a + post) == Join(b + post)
  {
    hide Join;
    if post == [] {
      assert a + post == a && b + post == b;
    } else {
      JoinAppend(a, post);
      JoinAppend(b, post);
    }
  }

  /** Two adjacent fields, one of which holds a NUL, and another pair with the same join. */
  lemma Traded(a: string, b: string) returns (x: string, y: string)
    requires NUL in a || NUL in b
    ensures x + [NUL] + y == a + [NUL] + b && x != a
  {
    if NUL in a {
      var cut := SplitOnce(a, NUL).value;
      x, y := cut.0, cut.1 + [NUL] + b;
      assert |x| < |a|;
    } else {
      var cut := SplitOnce(b, NUL).value;
      x, y := a + [NUL] + cut.0, cut.1;
      assert |x| > |a|;
    }
  }

  /** A record whose text number `k` holds a NUL, and another with the same message. */
  lemma Twin(r: Record, seqNo: int, prevHash: string, k: nat) returns (r2: Record)
    requires Typed(r, prevHash) && k < 7 && NUL in Texts(r)[k]
    ensures Message(r2, seqNo, prevHash) == Message(r, seqNo, prevHash)
    ensures Typed(r2, prevHash) && Fields(r2, seqNo, prevHash) != Fields(r, seqNo, prevHash)
  {
    hide Join, Decimal, SplitOnce;
    var f := Fields(r, seqNo, prevHash);
    var at := if k < 6 then k + 1 else 6;
    assert Texts(r)[k] == f[k + 1];
    var x, y := Traded(f[at], f[at + 1]);
    ShiftBoundary(f, at, x, y);
    r2 := FromFields(f[at := x][at + 1 := y], r);
    FromFieldsInverse(f, at, x, y, r, seqNo, prevHash);
    assert f[at := x][at + 1 := y][at] == x;
  }

  lemma FromFieldsInverse(f: seq<string>, at: nat, x: string, y: string, r: Record, seqNo: int, prevHash: string)
    requires f == Fields(r, seqNo, prevHash) && 1 <= at <= 6 && Typed(r, prevHash)
    ensures var g := f[at := x][at + 1 := y];
            Fields(FromFields(g, r), seqNo, prevHash) == g && Typed(FromFields(g, r), prevHash)
  {
    hide Decimal;
  }

  /**
   Exactly when a message stands for one record. The claim that NUL delimiters alone prevent collisions is false: a
   NUL inside any of the seven texts can be traded with its neighbour.
   */
  lemma MessageUniqueIff(r: Record, seqNo: int, prevHash: string)
    requires Typed(r, prevHash)
    ensures NulFree(Texts(r))
            <==> forall r2: Record | Typed(r2, prevHash) && Message(r2, seqNo, prevHash) == Message(r, seqNo, prevHash) ::
                   Fields(r2, seqNo, prevHash) == Fields(r, seqNo, prevHash)
  {
    hide Join, Decimal, Message, Fields;
    if NulFree(Texts(r)) {
      forall r2: Record | Typed(r2, prevHash) && Message(r2, seqNo, prevHash) == Message(r, seqNo, prevHash)
        ensures Fields(r2, seqNo, prevHash) == Fields(r, seqNo, prevHash)
      {
        MessageInjective(r, seqNo, prevHash, r2, seqNo, prevHash);
      }
    } else {
      var k :| 0 <= k < 7 && NUL in Texts(r)[k];
      var r2 := Twin(r, seqNo, prevHash, k);
    }
  }

  // ---------------------------------------------------------------------
  // Hexadecimal
  // ---------------------------------------------------------------------

  type Octet = n: int | 0 <= n < 256

  function HexDigit(n: int): (c: char)
    requires 0 <= n < 16
    ensures IsLowerHex(c)
  {
    if n < 10 then '0' + n as char else 'a' + (n - 10) as char
  }

  function HexValue(c: char): (n: Option<int>)
    ensures n.Some? ==> 0 <= n.value < 16
  {
    if '0' <= c <= '9' then Some(c as int - '0' as int)
    else if 'a' <= c <= 'f' then Some(c as int - 'a' as int + 10)
    else if 'A' <= c <= 'F' then Some(c as int - 'A' as int + 10)
    else None
  }

  function HexEncode(bytes: seq<Octet>): (s: string)
    ensures |s| == 2 * |bytes| && NUL !in s
  {
    if bytes == [] then "" else [HexDigit(bytes[0] / 16), HexDigit(bytes[0] % 16)] + HexEncode(bytes[1..])
  }

  /** Decoding accepts either letter case and refuses odd lengths. */
  function HexDecode(s: string): (bytes: Option<seq<Octet>>) {
    if s == [] then Some([])
    else if |s| == 1 then None
    else
      var hi, lo, rest := HexValue(s[0]), HexValue(s[1]), HexDecode(s[2..]);
      if hi.None? || lo.None? || rest.None? then None else Some([hi.value * 16 + lo.value] + rest.value)
  }

  function Lower(s: string): (t: string)
    ensures |t| == |s|
  {
    if s == [] then [] else [LowerHex(s[0])] + Lower(s[1..])
  }

  lemma HexDigitValue(c: char, n: int)
    requires 0 <= n < 16
    ensures HexValue(c) == Some(n) <==> LowerHex(c) == HexDigit(n)
  {
  }

  /** A text decodes to the bytes exactly when it is their encoding, up to letter case. */
  lemma {:induction false} HexDecodeIff(s: string, bytes: seq<Octet>)
    ensures HexDecode(s) == Some(bytes) <==> Lower(s) == HexEncode(bytes)
  {
    hide HexDecode, HexEncode, Lower;
    if |s| < 2 || bytes == [] {
      HexShort(s, bytes);
    } else {
      HexDecodeIff(s[2..], bytes[1..]);
      HexDecodeStep(s, bytes);
      HexEncodeStep(s, bytes);
    }
  }

  lemma HexShort(s: string, bytes: seq<Octet>)
    requires |s| < 2 || bytes == []
    ensures HexDecode(s) == Some(bytes) <==> Lower(s) == HexEncode(bytes)
  {
  }

  lemma HexDecodeStep(s: string, bytes: seq<Octet>)
    requires |s| >= 2 && bytes != []
    ensures HexDecode(s) == Some(bytes)
            <==> HexValue(s[0]) == Some(bytes[0] / 16) && HexValue(s[1]) == Some(bytes[0] % 16)
                 && HexDecode(s[2..]) == Some(bytes[1..])
  {
    hide HexValue;
    var hi, lo, rest := HexValue(s[0]), HexValue(s[1]), HexDecode(s[2..]);
    if hi.Some? && lo.Some? && rest.Some? {
      var decoded := [hi.value * 16 + lo.value] + rest.value;
      assert decoded[1..] == rest.value;
      assert bytes == [bytes[0]] + bytes[1..];
      assert hi.value * 16 + lo.value == bytes[0] <==> hi.value == bytes[0] / 16 && lo.value == bytes[0] % 16;
    }
  }

  lemma HexEncodeStep(s: string, bytes: seq<Octet>)
    requires |s| >= 2 && bytes != []
    ensures Lower(s) == HexEncode(bytes)
            <==> HexValue(s[0]) == Some(bytes[0] / 16) && HexValue(s[1]) == Some(bytes[0] % 16)
                 && Lower(s[2..]) == HexEncode(bytes[1..])
  {
    hide HexValue, HexDigit, LowerHex, Lower;
    HexDigitValue(s[0], bytes[0] / 16);
    HexDigitValue(s[1], bytes[0] % 16);
    LowerTwo(s);
    var l, code := Lower(s), HexEncode(bytes);
    assert code[0] == HexDigit(bytes[0] / 16) && code[1] == HexDigit(bytes[0] % 16) && code[2..] == HexEncode(bytes[1..]);
    assert l == [l[0], l[1]] + l[2..] && code == [code[0], code[1]] + code[2..];
  }

  lemma LowerTwo(s: string)
    requires |s| >= 2
    ensures Lower(s)[0] == LowerHex(s[0]) && Lower(s)[1] == LowerHex(s[1]) && Lower(s)[2..] == Lower(s[2..])
  {
    assert s[1..][1..] == s[2..];
  }

  lemma {:induction false} LowerEncoded(bytes: seq<Octet>)
    ensures Lower(HexEncode(bytes)) == HexEncode(bytes)
  {
    if bytes != [] {
      LowerEncoded(bytes[1..]);
      var s := HexEncode(bytes);
      LowerTwo(s);
      assert s[2..] == HexEncode(bytes[1..]);
      assert s == [s[0], s[1]] + s[2..];
      assert Lower(s) == [Lower(s)[0], Lower(s)[1]] + Lower(s)[2..];
    }
  }
}
