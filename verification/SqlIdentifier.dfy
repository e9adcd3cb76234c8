/** Quoting of PostgreSQL identifiers, against a reader of delimited identifiers (section 5.2 of ISO/IEC 9075-2). */
module SqlIdentifier {
  import opened Wrappers

  datatype IdentifierError = Empty | TooLong | HasNul

  function Utf8Length(c: char): (n: nat)
    ensures 1 <= n <= 4
  {
    var v := c as int;
    if v < 0x80 then 1 else if v < 0x800 then 2 else if v < 0x10000 then 3 else 4
  }

  function ByteLength(s: string): (n: nat)
    ensures n >= |s|
  {
    if s == [] then 0 else ByteLength(s[..|s| - 1]) + Utf8Length(s[|s| - 1])
  }

  /** `validate_identifier`: what PostgreSQL can hold in a name column. */
  function Validate(id: string): (r: Result<(), IdentifierError>)
    ensures r.Ok? <==> 0 < ByteLength(id) <= 63 && '\0' !in id
  {
    if id == "" then Err(Empty) else if ByteLength(id) > 63 then Err(TooLong) else if '\0' in id then Err(HasNul) else Ok(())
  }

  function Doubled(s: string): (r: string) {
    if s == [] then [] else (if s[0] == '"' then "\"\"" else [s[0]]) + Doubled(s[1..])
  }

  /** `quote_identifier`. */
  function Quote(id: string): (r: string) { "\"" + Doubled(id) + "\"" }

  /** The body of a delimited identifier, after the opening quote: a doubled quote is a quote, a single one ends it. */
  function ReadBody(s: string): (r: Option<(string, string)>)
    ensures r.Some? ==> |r.value.1| < |s|
  {
    if s == [] then None
    else if s[0] != '"' then
      var rest := ReadBody(s[1..]);
      if rest.None? then None else Some(([s[0]] + rest.value.0, rest.value.1))
    else if |s| > 1 && s[1] == '"' then
      var rest := ReadBody(s[2..]);
      if rest.None? then None else Some((['"'] + rest.value.0, rest.value.1))
    else Some(("", s[1..]))
  }

  function Read(s: string): (r: Option<(string, string)>) {
    if s == [] || s[0] != '"' then None else ReadBody(s[1..])
  }

  predicate StartsWithQuote(s: string) { s != [] && s[0] == '"' }

  lemma {:induction false} ReadDoubled(id: string, rest: string)
    ensures !StartsWithQuote(rest) ==> ReadBody(Doubled(id) + "\"" + rest) == Some((id, rest))
  {
    var s := Doubled(id) + "\"" + rest;
    if id == [] {
      assert s == "\"" + rest;
    } else {
      ReadDoubled(id[1..], rest);
      var tail := Doubled(id[1..]) + "\"" + rest;
      if id[0] == '"' {
        assert s == "\"\"" + tail;
        assert s[2..] == tail;
      } else {
        assert s == [id[0]] + tail;
        assert s[1..] == tail;
      }
      assert id == [id[0]] + id[1..];
    }
  }

  /** What the reader accepts is exactly a quoted identifier followed by something that does not continue it. */
  lemma {:induction false} ReadBodyInverse(s: string)
    requires ReadBody(s).Some?
    ensures var (id, rest) := ReadBody(s).value; s == Doubled(id) + "\"" + rest && !StartsWithQuote(rest)
    decreases |s|
  {
    var (id, rest) := ReadBody(s).value;
    if s[0] != '"' {
      ReadBodyInverse(s[1..]);
      assert s == [s[0]] + s[1..];
      assert id[1..] == ReadBody(s[1..]).value.0;
    } else if |s| > 1 && s[1] == '"' {
      ReadBodyInverse(s[2..]);
      assert s == "\"\"" + s[2..];
      assert id[1..] == ReadBody(s[2..]).value.0;
    } else {
      assert s == "\"" + s[1..];
    }
  }

  /**
   Quoting is safe in any context: read back with whatever text follows, the identifier and that text come back intact,
   exactly when the text does not itself begin with a quote. It holds of every identifier, valid or not.
   */
  lemma QuoteRoundTripIff(id: string, rest: string)
    ensures Read(Quote(id) + rest) == Some((id, rest)) <==> !StartsWithQuote(rest)
  {
    var s := Quote(id) + rest;
    assert s[1..] == Doubled(id) + "\"" + rest;
    ReadDoubled(id, rest);
    if Read(s) == Some((id, rest)) {
      ReadBodyInverse(s[1..]);
    }
  }

  /** Two identifiers never quote to the same text. */
  lemma QuoteInjective(a: string, b: string)
    requires Quote(a) == Quote(b)
    ensures a == b
  {
    QuoteRoundTripIff(a, "");
    QuoteRoundTripIff(b, "");
    assert Quote(a) + "" == Quote(b) + "";
  }

  method QuoteIdentifier(id: string) returns (r: string)
    ensures r == Quote(id)
  {
    var body := "";
    for i := 0 to |id|
      invariant body == Doubled(id[..i])
    {
      DoubledSnoc(id[..i], id[i]);
      assert id[..i + 1] == id[..i] + [id[i]];
      body := body + if id[i] == '"' then "\"\"" else [id[i]];
    }
    assert id[..|id|] == id;
    r := "\"" + body + "\"";
  }

  lemma {:induction false} DoubledSnoc(s: string, c: char)
    ensures Doubled(s + [c]) == Doubled(s) + if c == '"' then "\"\"" else [c]
  {
    if s == [] {
      assert (s + [c])[1..] == [];
    } else {
      assert (s + [c])[1..] == s[1..] + [c];
      DoubledSnoc(s[1..], c);
    }
  }
}
