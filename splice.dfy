/** How the collection reads the value that the count and search templates
    splice between quotes (`"value": "%s"`, vault.go). The gateway writes
    the Go string there verbatim, so the collection reads it as the contents
    of a JSON string: escapes are decoded, and a raw quote or control
    character ends or breaks the string. The corrected splice encodes the
    value first, and the collection then reads back exactly the value. */
module Splice {
  import opened Domain
  import opened Vault
  import opened Remote

  predicate IsHexDigit(c: char) {
    '0' <= c <= '9' || 'a' <= c <= 'f' || 'A' <= c <= 'F'
  }

  function HexValue(c: char): (v: nat)
    requires IsHexDigit(c)
    ensures v < 16
  {
    if '0' <= c <= '9' then c as int - '0' as int
    else if 'a' <= c <= 'f' then c as int - 'a' as int + 10
    else c as int - 'A' as int + 10
  }

  /** The upper-case hex digit of a value below 16. */
  function HexChar(v: nat): (c: char)
    requires v < 16
    ensures IsHexDigit(c) && HexValue(c) == v
  {
    if v < 10 then ('0' as int + v) as char else ('A' as int + v - 10) as char
  }

  /** The character a two-character escape `\x` stands for, if `x` names one. */
  function ShortEscape(x: char): Option<char>
  {
    if x == '"' then Some('"')
    else if x == '\\' then Some('\\')
    else if x == '/' then Some('/')
    else if x == 'b' then Some(8 as char)
    else if x == 'f' then Some(12 as char)
    else if x == 'n' then Some('\n')
    else if x == 'r' then Some('\r')
    else if x == 't' then Some('\t')
    else None
  }

  /** A `\uXXXX` escape at the head of `t`, read as one character. */
  predicate UnicodeEscape(t: string) {
    |t| >= 6 && t[0] == '\\' && t[1] == 'u' &&
    IsHexDigit(t[2]) && IsHexDigit(t[3]) && IsHexDigit(t[4]) && IsHexDigit(t[5]) &&
    var v := HexCode(t);
    v < 0xD800 || 0xE000 <= v
  }

  function HexCode(t: string): nat
    requires |t| >= 6 && IsHexDigit(t[2]) && IsHexDigit(t[3]) && IsHexDigit(t[4]) && IsHexDigit(t[5])
  {
    4096 * HexValue(t[2]) + 256 * HexValue(t[3]) + 16 * HexValue(t[4]) + HexValue(t[5])
  }

  function Prepend(c: char, rest: Option<string>): Option<string>
  {
    match rest
    case None => None
    case Some(s) => Some([c] + s)
  }

  /** The contents of a JSON string (RFC 8259, section 7) as the collection
      reads them; `None` when the text is not the contents of one string. */
  function ReadString(t: string): Option<string>
    decreases |t|
  {
    if t == [] then Some([])
    else if t[0] == '"' || t[0] as int < 0x20 then None
    else if t[0] != '\\' then Prepend(t[0], ReadString(t[1..]))
    else if |t| >= 2 && ShortEscape(t[1]).Some? then Prepend(ShortEscape(t[1]).value, ReadString(t[2..]))
    else if UnicodeEscape(t) then Prepend(HexCode(t) as char, ReadString(t[6..]))
    else None
  }

  /** A plain value is read as itself. */
  lemma {:induction false} PlainReadsItself(t: string)
    requires JsonPlain(t)
    ensures ReadString(t) == Some(t)
    decreases |t|
  {
    if t != [] {
      PlainReadsItself(t[1..]);
      assert [t[0]] + t[1..] == t;
    }
  }

  // ------------------------------------------------------- the splice as written

  /** accountExists as written: the count compares "number" with what the
      collection reads from the spliced text; `None` when that text is not
      one string (the body is then malformed or says something else). */
  function CountAsWritten(docs: seq<Account>, number: string): Option<int>
  {
    match ReadString(number)
    case None => None
    case Some(v) => Some(|Select(docs, FieldQuery(NumberField, v))|)
  }

  /** For a plain number the splice as written counts that number. */
  lemma PlainCountAgrees(docs: seq<Account>, number: string)
    requires JsonPlain(number)
    ensures CountAsWritten(docs, number) == Some(|Select(docs, FieldQuery(NumberField, number))|)
  {
    PlainReadsItself(number);
  }

  /** With a record numbered `xA` stored, the unused seven-character number
      `x\u0041` is counted once, so handlerAdd answers 409 for a number no
      record holds. */
  lemma CountAsWrittenMisreads(a: Account, number: string)
    requires a.number == "xA" && number == ['x', '\\', 'u', '0', '0', '4', '1']
    ensures !HasNumber([a], number)
    ensures CountAsWritten([a], number) == Some(1)
  {
    ReadEscapedXA(number);
    assert |a.number| != |number|;
    assert Select([a], FieldQuery(NumberField, a.number)) == [a];
  }

  /** `x\u0041` is read as `xA`. */
  lemma ReadEscapedXA(t: string)
    requires t == ['x', '\\', 'u', '0', '0', '4', '1']
    ensures ReadString(t) == Some("xA")
  {
    var e := t[1..];
    assert e[0] == '\\' && e[1] == 'u' && ShortEscape(e[1]).None?;
    assert HexValue(e[2]) == 0 && HexValue(e[3]) == 0;
    assert HexValue(e[4]) == 4 && HexValue(e[5]) == 1;
    assert UnicodeEscape(e) && HexCode(e) == 0x41;
    assert e[6..] == [];
    assert ReadString(e) == Prepend(HexCode(e) as char, ReadString(e[6..]));
    var empty: string := [];
    assert ['A'] + empty == ['A'];
    assert ReadString(e) == Some(['A']);
    assert t[0] == 'x' && t[1..] == e;
    assert ReadString(t) == Prepend('x', ReadString(e));
    assert ['x'] + ['A'] == "xA";
  }

  /** A number starting with a quote is not read as one string: the body is
      then malformed, or compares another value (`", "value": "xA` makes it
      compare `xA`). The model answers `None` and says nothing about which. */
  lemma QuoteBreaksCount(docs: seq<Account>, number: string)
    requires |number| > 0 && number[0] == '"'
    ensures CountAsWritten(docs, number) == None
  {
  }

  // ------------------------------------------------------ the corrected splice

  /** One character as a JSON string encodes it: quote and backslash are
      escaped, control characters become `\u00XX`. */
  function QuoteChar(c: char): (r: string)
    ensures |r| > 0
  {
    if c == '"' then ['\\', '"']
    else if c == '\\' then ['\\', '\\']
    else if c as int < 0x20 then ['\\', 'u', '0', '0', HexChar(c as int / 16), HexChar(c as int % 16)]
    else [c]
  }

  /** The value encoded as the contents of a JSON string. */
  function QuoteValue(s: string): (r: string)
    ensures |r| >= |s|
  {
    if s == [] then [] else QuoteChar(s[0]) + QuoteValue(s[1..])
  }

  lemma ReadQuoteChar(c: char, rest: string)
    ensures ReadString(QuoteChar(c) + rest) == Prepend(c, ReadString(rest))
  {
    var t := QuoteChar(c) + rest;
    if c == '"' || c == '\\' {
      assert t[2..] == rest;
    } else if c as int < 0x20 {
      assert t[6..] == rest;
      assert t[1] == 'u' && ShortEscape(t[1]).None?;
      assert HexCode(t) == c as int;
      assert UnicodeEscape(t);
    } else {
      assert t[1..] == rest;
    }
  }

  /** The corrected splice round-trips: the collection reads back exactly
      the value that was encoded. */
  lemma {:induction false} QuoteRoundTrip(s: string)
    ensures ReadString(QuoteValue(s)) == Some(s)
    decreases |s|
  {
    if s != [] {
      QuoteRoundTrip(s[1..]);
      ReadQuoteChar(s[0], QuoteValue(s[1..]));
      assert [s[0]] + s[1..] == s;
    }
  }

  /** accountExists with the value encoded: the count compares "number" with
      the number itself, which is the count `Remote.Handle` answers; it is
      positive exactly when a record holds the number. */
  function CountCorrected(docs: seq<Account>, number: string): (r: Option<int>)
    ensures r == Some(|Select(docs, FieldQuery(NumberField, number))|)
    ensures r.value > 0 <==> HasNumber(docs, number)
  {
    QuoteRoundTrip(number);
    CountMeansHasNumber(docs, number);
    match ReadString(QuoteValue(number))
    case None => None
    case Some(v) => Some(|Select(docs, FieldQuery(NumberField, v))|)
  }

  /** The collection model answers accountExists with the corrected count,
      whatever characters the number holds. */
  lemma HandleCountsCorrected(st: State, number: string)
    requires st.present
    ensures Handle(st, AccountExistsRequest(number)) ==
            (Response(StatusOK, CountPayload(CountCorrected(st.docs, number).value)), st)
  {
    assert MethodPost != MethodPut && MethodPost != MethodGet;
    assert CountEndpoint != CollectionEndpoint;
  }

  /** On plain numbers the code as written and the corrected splice agree. */
  lemma PlainSpliceAgrees(docs: seq<Account>, number: string)
    requires JsonPlain(number)
    ensures CountAsWritten(docs, number) == CountCorrected(docs, number)
  {
    PlainCountAgrees(docs, number);
  }
}
