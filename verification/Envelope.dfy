/**
 The cryptographic vocabulary of the crypto-service: 32-byte keys, AES-256-GCM
 envelopes and the text formats that carry them.

 An envelope is an ideal term: `Open` yields the plaintext for the sealing key
 and the sealing associated data, and nothing for any other.
 */
module Envelope {
  import opened Wrappers

  type Bytes = string

  /** A 32-byte key. Keys are told apart by a number; their octets are never inspected. */
  datatype Key = Key(n: nat)

  /** What an envelope can hold: a 32-byte key, or octets of some other length or use. */
  datatype Plain = RawKey(key: Key) | Data(bytes: Bytes)

  /** Associated data: the three contexts the service formats itself, and what a caller supplies. */
  datatype Aad = KekAad(tenant: string) | ReloadAad(keyId: string) | TransportAad(keyId: string) | CallerAad(bytes: Bytes)

  function Formatted(a: Aad): Bytes {
    match a
    case KekAad(tenant) => "tenant-kek:" + tenant
    case ReloadAad(keyId) => "dek:reload:" + keyId
    case TransportAad(keyId) => "dek:transport:" + keyId
    case CallerAad(bytes) => bytes
  }

  /** The formatted contexts never collide, so wrapped keys cannot be transplanted between them. */
  lemma FormattedInjective(a: Aad, b: Aad)
    requires !a.CallerAad? && !b.CallerAad? && Formatted(a) == Formatted(b)
    ensures a == b
  {
    assert Formatted(a)[0] == Formatted(b)[0] && Formatted(a)[4] == Formatted(b)[4];
    var n := if a.TransportAad? then 14 else 11;
    assert Formatted(a)[n..] == Formatted(b)[n..];
    match a {
      case KekAad(t) => assert Formatted(a)[n..] == t;
      case ReloadAad(t) => assert Formatted(a)[n..] == t;
      case TransportAad(t) => assert Formatted(a)[n..] == t;
    }
    match b {
      case KekAad(t) => assert Formatted(b)[n..] == t;
      case ReloadAad(t) => assert Formatted(b)[n..] == t;
      case TransportAad(t) => assert Formatted(b)[n..] == t;
    }
  }

  /** A stored envelope. `Garbage` is a column or a request that holds no envelope at all. */
  datatype Blob = Sealed(key: Key, plain: Plain, aad: Aad) | Garbage

  function Open(key: Key, blob: Blob, aad: Aad): (plain: Option<Plain>) {
    if blob.Sealed? && blob.key == key && blob.aad == aad then Some(blob.plain) else None
  }

  /** Unwrapping accepts nothing but 32 bytes. */
  function OpenKey(key: Key, blob: Blob, aad: Aad): (raw: Option<Key>) {
    var plain := Open(key, blob, aad);
    if plain.Some? && plain.value.RawKey? then Some(plain.value.key) else None
  }

  // ---------------------------------------------------------------------
  // Text
  // ---------------------------------------------------------------------

  /** The characters that trimming removes: Unicode White_Space. */
  predicate IsSpace(c: char) {
    var n := c as int;
    || 0x09 <= n <= 0x0D || n == 0x20 || n == 0x85 || n == 0xA0 || n == 0x1680
    || 0x2000 <= n <= 0x200A || n == 0x2028 || n == 0x2029 || n == 0x202F || n == 0x205F || n == 0x3000
  }

  predicate Blank(s: string) {
    forall i | 0 <= i < |s| :: IsSpace(s[i])
  }

  predicate IsLowerHex(c: char) { '0' <= c <= '9' || 'a' <= c <= 'f' }

  /** The text form in which UUIDs are minted and in which the database returns them. */
  predicate CanonicalUuid(s: string) {
    && |s| == 36
    && forall i | 0 <= i < 36 ::
         if i == 8 || i == 13 || i == 18 || i == 23 then s[i] == '-' else IsLowerHex(s[i])
  }

  function LowerHex(c: char): char {
    if 'A' <= c <= 'F' then (c as int - 'A' as int + 'a' as int) as char else c
  }

  function Lowered(s: string): (t: string)
    ensures |t| == |s|
  {
    seq(|s|, i requires 0 <= i < |s| => LowerHex(s[i]))
  }

  function Hyphenated(s: string): (t: string)
    requires |s| == 32
    ensures |t| == 36
  {
    s[..8] + "-" + s[8..12] + "-" + s[12..16] + "-" + s[16..20] + "-" + s[20..]
  }

  /** The hyphenated text inside one of the spellings that parsing accepts: plain, without hyphens, braced, or a URN. */
  function Unwrapped(s: string): (t: string) {
    if |s| == 32 then Hyphenated(s)
    else if |s| == 38 && s[0] == '{' && s[37] == '}' then s[1..37]
    else if |s| == 45 && s[..9] == "urn:uuid:" then s[9..]
    else s
  }

  /** UUID parsing reads these spellings in either letter case; printing the result gives the canonical text. */
  function ParseUuid(s: string): (u: Option<string>)
    ensures u.Some? ==> CanonicalUuid(u.value)
  {
    var t := Lowered(Unwrapped(s));
    if CanonicalUuid(t) then Some(t) else None
  }

  /** The text a caller supplied is the text the database returns exactly when it was canonical already. */
  lemma ParseUuidFixes(s: string)
    ensures ParseUuid(s) == Some(s) <==> CanonicalUuid(s)
  {
    if CanonicalUuid(s) {
      assert forall i | 0 <= i < |s| :: LowerHex(s[i]) == s[i];
      assert Lowered(s) == s;
    }
  }

  predicate CasedChar(c: char, d: char) { c == d || ('A' <= c <= 'F' && c as int + 32 == d as int) }

  /** The same text up to the case of its hexadecimal letters. */
  predicate Cased(s: string, u: string) {
    |s| == |u| && forall i | 0 <= i < |u| :: CasedChar(s[i], u[i])
  }

  /** The texts that parse to a UUID: in either case, its text, its digits alone, its text in braces, or its URN. */
  lemma ParseUuidIff(s: string, u: string)
    requires CanonicalUuid(u)
    ensures ParseUuid(s) == Some(u)
            <==> || Cased(s, u)
                 || Cased(s, u[..8] + u[9..13] + u[14..18] + u[19..23] + u[24..])
                 || (|s| == 38 && s[0] == '{' && s[37] == '}' && Cased(s[1..37], u))
                 || (|s| == 45 && s[..9] == "urn:uuid:" && Cased(s[9..], u))
  {
    assert |u| == 36;
    hide CanonicalUuid;
    CasedLowered(Unwrapped(s), u);
    if |s| == 32 { HyphenatedCased(s, u); }
  }

  lemma CasedLowered(s: string, u: string)
    requires CanonicalUuid(u)
    ensures Lowered(s) == u <==> Cased(s, u)
  {
  }

  /** Where digit `i` stands in the hyphenated text. */
  function DigitAt(i: nat): nat {
    if i < 8 then i else if i < 12 then i + 1 else if i < 16 then i + 2 else if i < 20 then i + 3 else i + 4
  }

  lemma HyphenatedCased(s: string, u: string)
    requires CanonicalUuid(u) && |s| == 32
    ensures Cased(Hyphenated(s), u) <==> Cased(s, u[..8] + u[9..13] + u[14..18] + u[19..23] + u[24..])
  {
    var h, bare := Hyphenated(s), u[..8] + u[9..13] + u[14..18] + u[19..23] + u[24..];
    assert u[8] == u[13] == u[18] == u[23] == '-' == h[8] == h[13] == h[18] == h[23];
    hide CanonicalUuid, CasedChar;
    forall i: nat | i < 32 ensures s[i] == h[DigitAt(i)] && bare[i] == u[DigitAt(i)] {}
    hide Hyphenated;
    if Cased(s, bare) {
      forall k | 0 <= k < 36 ensures CasedChar(h[k], u[k]) {
        var i := if k < 9 then k else if k < 14 then k - 1 else if k < 19 then k - 2 else if k < 24 then k - 3 else k - 4;
        if k == 8 || k == 13 || k == 18 || k == 23 { Same(h[k]); } else { assert k == DigitAt(i) && CasedChar(s[i], bare[i]); }
      }
    }
  }

  lemma Same(c: char)
    ensures CasedChar(c, c)
  {
  }

  lemma CanonicalUuidShape(s: string)
    requires CanonicalUuid(s)
    ensures ':' !in s && !Blank(s)
  {
    assert !IsSpace(s[0]);
  }

  // ---------------------------------------------------------------------
  // The combined field "<dek_id>:<base64 ciphertext>"
  // ---------------------------------------------------------------------

  /** One symbol of a request field: a character, or the base64 run that spells an envelope. */
  datatype Symbol = Char(c: char) | Cipher(blob: Blob)

  type Text = seq<Symbol>

  function Chars(s: string): (t: Text) {
    seq(|s|, i requires 0 <= i < |s| => Char(s[i]))
  }

  /** The characters of a text, or nothing when it holds an envelope. */
  function Spelled(t: Text): (s: Option<string>) {
    if forall i | 0 <= i < |t| :: t[i].Char? then
      Some(seq(|t|, i requires 0 <= i < |t| => t[i].c))
    else
      None
  }

  predicate BlankText(t: Text) {
    forall i | 0 <= i < |t| :: t[i].Char? && IsSpace(t[i].c)
  }

  /** The envelope a base64 text decodes to. */
  function Decoded(t: Text): (b: Blob) {
    if |t| == 1 && t[0].Cipher? then t[0].blob else Garbage
  }

  /** Splits at the first separator. */
  function SplitOnce<T(==)>(s: seq<T>, sep: T): (r: Option<(seq<T>, seq<T>)>)
    ensures r.None? <==> sep !in s
    ensures r.Some? ==> s == r.value.0 + [sep] + r.value.1 && sep !in r.value.0
  {
    if s == [] then
      None
    else if s[0] == sep then
      Some(([], s[1..]))
    else
      var rest := SplitOnce(s[1..], sep);
      if rest.None? then None else Some(([s[0]] + rest.value.0, rest.value.1))
  }

  /** The cut is at the first separator and nowhere else. */
  lemma SplitOnceAt<T>(before: seq<T>, after: seq<T>, sep: T)
    requires sep !in before
    ensures SplitOnce(before + [sep] + after, sep) == Some((before, after))
  {
    var s := before + [sep] + after;
    var cut := SplitOnce(s, sep);
    assert s[|before|] == sep;
    var n := |cut.value.0|;
    assert s[n] == sep && forall i | 0 <= i < n :: s[i] == cut.value.0[i];
    assert forall i | 0 <= i < |before| :: s[i] == before[i];
    assert cut.value.0 == s[..n] == before;
    assert cut.value.1 == s[n + 1..] == after;
  }

  function Combined(keyId: string, blob: Blob): (wire: Text) {
    Chars(keyId) + [Char(':'), Cipher(blob)]
  }

  /**
   The client joins with ':' and the service cuts at the first ':': the pair comes
   back exactly when the key id has no ':' of its own.
   */
  lemma CombinedRoundTrip(keyId: string, blob: Blob)
    ensures SplitOnce(Combined(keyId, blob), Char(':')) == Some((Chars(keyId), [Cipher(blob)]))
            <==> ':' !in keyId
    ensures Spelled(Chars(keyId)) == Some(keyId)
    ensures Decoded([Cipher(blob)]) == blob
  {
    assert Spelled(Chars(keyId)).value == keyId;
    if ':' in keyId {
      var j :| 0 <= j < |keyId| && keyId[j] == ':';
      assert Chars(keyId)[j] == Char(':');
    } else {
      SplitOnceAt(Chars(keyId), [Cipher(blob)], Char(':'));
      assert Combined(keyId, blob) == Chars(keyId) + [Char(':')] + [Cipher(blob)];
    }
  }
}
