/** The JSON text of a checkpoint (sections 2 to 7 of RFC 8259), as Go's encoding/json writes
    and reads it.

    A checkpoint holds strings, one integer and one nested object. An array, a boolean or a
    fractional number is therefore an error wherever it stands, and so has no value here. */
module Json {
  import opened Results
  import opened GoStrings

  datatype Json = Null | Num(n: int) | Str(s: string) | Obj(fields: seq<Field>)
  datatype Field = Field(key: string, value: Json)

  // ---------- writing ----------

  function HexDigit(n: nat): char
    requires n < 16
  {
    "0123456789abcdef"[n]
  }

  function Hex4(n: nat): string
    requires n < 0x10000
  {
    [HexDigit(n / 0x1000), HexDigit(n / 0x100 % 16), HexDigit(n / 16 % 16), HexDigit(n % 16)]
  }

  /** The escapes encoding/json writes, with its HTML-safe ones. */
  function EscapeChar(c: char): string {
    if c == '"' then "\\\""
    else if c == '\\' then "\\\\"
    else if c == '\U{0008}' then "\\b"
    else if c == '\U{000C}' then "\\f"
    else if c == '\n' then "\\n"
    else if c == '\r' then "\\r"
    else if c == '\t' then "\\t"
    else if c < ' ' || c == '<' || c == '>' || c == '&' || c == '\U{2028}' || c == '\U{2029}' then "\\u" + Hex4(c as int)
    else [c]
  }

  // Every writer takes the text that follows, so that reading undoes writing piece by piece.

  function EscapeString(s: string, rest: string): string {
    if s == "" then rest else EscapeChar(s[0]) + EscapeString(s[1..], rest)
  }

  /** A string literal, then `rest`. */
  function Quote(s: string, rest: string): string {
    ['"'] + EscapeString(s, ['"'] + rest)
  }

  function Decimal(n: nat, rest: string): string {
    var digit := ('0' as int + n % 10) as char;
    if n < 10 then [digit] + rest else Decimal(n / 10, [digit] + rest)
  }

  function Print(j: Json, rest: string): string
    decreases j, 0
  {
    match j
    case Null => "null" + rest
    case Num(n) => if n < 0 then ['-'] + Decimal(-n, rest) else Decimal(n, rest)
    case Str(s) => Quote(s, rest)
    case Obj(fields) => ['{'] + PrintFields(fields, ['}'] + rest)
  }

  function PrintField(f: Field, rest: string): string
    decreases f, 1
  {
    Quote(f.key, [':'] + Print(f.value, rest))
  }

  function PrintFields(fields: seq<Field>, rest: string): string
    decreases fields, 0
  {
    if |fields| == 0 then rest
    else if |fields| == 1 then PrintField(fields[0], rest)
    else PrintField(fields[0], [','] + PrintFields(fields[1..], rest))
  }

  // ---------- reading ----------

  predicate IsBlank(c: char) {
    c == ' ' || c == '\t' || c == '\n' || c == '\r'
  }

  function SkipBlanks(s: string): (t: string)
    ensures |t| <= |s|
  {
    if s != "" && IsBlank(s[0]) then SkipBlanks(s[1..]) else s
  }

  function HexValue(c: char): (v: Option<nat>)
    ensures v.Some? ==> v.value < 16
  {
    if '0' <= c <= '9' then Some(c as int - '0' as int)
    else if 'a' <= c <= 'f' then Some(c as int - 'a' as int + 10)
    else if 'A' <= c <= 'F' then Some(c as int - 'A' as int + 10)
    else None
  }

  function ReadHex4(s: string): (v: Option<nat>)
    ensures v.Some? ==> |s| >= 4 && v.value < 0x10000
  {
    if |s| < 4 then None
    else
      match (HexValue(s[0]), HexValue(s[1]), HexValue(s[2]), HexValue(s[3]))
      case (Some(a), Some(b), Some(c), Some(d)) => Some(((a * 16 + b) * 16 + c) * 16 + d)
      case _ => None
  }

  /** The code point of a \u escape and how much text after the `u` it takes: a surrogate pair
      is joined, a lone surrogate reads as U+FFFD. */
  function ReadCodePoint(s: string): (r: Option<(char, nat)>)
    ensures r.Some? ==> 4 <= r.value.1 <= |s|
  {
    match ReadHex4(s)
    case None => None
    case Some(u) =>
      if u < 0xD800 || u > 0xDFFF then Some((u as char, 4))
      else
        var low := if |s| >= 6 && s[4] == '\\' && s[5] == 'u' then ReadHex4(s[6..]) else None;
        if u < 0xDC00 && low.Some? && 0xDC00 <= low.value <= 0xDFFF
        then Some(((0x10000 + (u - 0xD800) * 0x400 + (low.value - 0xDC00)) as char, 10))
        else Some(('\U{FFFD}', 4))
  }

  function SimpleEscape(c: char): Option<char> {
    if c == '"' || c == '\\' || c == '/' then Some(c)
    else if c == 'b' then Some('\U{0008}')
    else if c == 'f' then Some('\U{000C}')
    else if c == 'n' then Some('\n')
    else if c == 'r' then Some('\r')
    else if c == 't' then Some('\t')
    else None
  }

  datatype Parsed<T> = Parsed(value: T, rest: string)

  /** The first character of a string literal's body, unescaped. */
  function ReadChar(s: string): (r: Option<Parsed<char>>)
    ensures r.Some? ==> |r.value.rest| < |s|
  {
    if s == "" || s[0] == '"' || s[0] < ' ' then None
    else if s[0] != '\\' then Some(Parsed(s[0], s[1..]))
    else if |s| < 2 then None
    else if s[1] == 'u' then
      match ReadCodePoint(s[2..])
      case None => None
      case Some((c, n)) => Some(Parsed(c, s[2 + n..]))
    else
      match SimpleEscape(s[1])
      case None => None
      case Some(c) => Some(Parsed(c, s[2..]))
  }

  /** The rest of a string literal, up to and including its closing quote. */
  function ReadString(s: string): (r: Option<Parsed<string>>)
    ensures r.Some? ==> |r.value.rest| < |s|
  {
    if s != "" && s[0] == '"' then Some(Parsed("", s[1..]))
    else
      match ReadChar(s)
      case None => None
      case Some(Parsed(c, rest)) =>
        match ReadString(rest)
        case None => None
        case Some(Parsed(t, rest')) => Some(Parsed([c] + t, rest'))
  }

  predicate IsDigit(c: char) {
    '0' <= c <= '9'
  }

  function DigitCount(s: string): (n: nat)
    ensures n <= |s| && forall k :: 0 <= k < n ==> IsDigit(s[k])
  {
    if s != "" && IsDigit(s[0]) then 1 + DigitCount(s[1..]) else 0
  }

  function DigitsValue(s: string): nat
    requires forall k :: 0 <= k < |s| ==> IsDigit(s[k])
  {
    if s == "" then 0
    else
      assert IsDigit(s[|s| - 1]);
      DigitsValue(s[..|s| - 1]) * 10 + (s[|s| - 1] as int - '0' as int)
  }

  /** An integer literal: no leading zero, no fraction, no exponent. */
  function ReadNatural(s: string): (r: Option<Parsed<nat>>)
    ensures r.Some? ==> |r.value.rest| < |s|
  {
    var n := DigitCount(s);
    if n == 0 || (n > 1 && s[0] == '0') || (n < |s| && s[n] in {'.', 'e', 'E'}) then None
    else Some(Parsed(DigitsValue(s[..n]), s[n..]))
  }

  function ReadValue(s: string): (r: Option<Parsed<Json>>)
    ensures r.Some? ==> |r.value.rest| < |s|
    decreases |s|, 0
  {
    if s == "" then None
    else if s[0] == '"' then
      match ReadString(s[1..])
      case None => None
      case Some(Parsed(t, rest)) => Some(Parsed(Str(t), rest))
    else if s[0] == '{' then
      var t := SkipBlanks(s[1..]);
      if t != "" && t[0] == '}' then Some(Parsed(Obj([]), t[1..]))
      else
        match ReadFields(t)
        case None => None
        case Some(Parsed(fields, rest)) => Some(Parsed(Obj(fields), rest))
    else if HasPrefix(s, "null") then Some(Parsed(Null, s[4..]))
    else if s[0] == '-' then
      match ReadNatural(s[1..])
      case None => None
      case Some(Parsed(n, rest)) => Some(Parsed(Num(0 - n), rest))
    else
      match ReadNatural(s)
      case None => None
      case Some(Parsed(n, rest)) => Some(Parsed(Num(n), rest))
  }

  /** A key, the colon, and the value. */
  function ReadField(s: string): (r: Option<Parsed<Field>>)
    ensures r.Some? ==> |r.value.rest| < |s|
    decreases |s|, 1
  {
    if s == "" || s[0] != '"' then None
    else
      match ReadString(s[1..])
      case None => None
      case Some(Parsed(key, rest)) =>
        var t := SkipBlanks(rest);
        if t == "" || t[0] != ':' then None
        else
          match ReadValue(SkipBlanks(t[1..]))
          case None => None
          case Some(Parsed(value, rest')) => Some(Parsed(Field(key, value), rest'))
  }

  /** One or more fields, up to and including the closing brace. */
  function ReadFields(s: string): (r: Option<Parsed<seq<Field>>>)
    ensures r.Some? ==> |r.value.rest| < |s|
    decreases |s|, 2
  {
    match ReadField(s)
    case None => None
    case Some(Parsed(f, rest)) =>
      var t := SkipBlanks(rest);
      if t == "" then None
      else if t[0] == '}' then Some(Parsed([f], t[1..]))
      else if t[0] != ',' then None
      else
        match ReadFields(SkipBlanks(t[1..]))
        case None => None
        case Some(Parsed(fields, rest')) => Some(Parsed([f] + fields, rest'))
  }

  /** One value and nothing but blanks after it. */
  function ReadDocument(s: string): Option<Json> {
    match ReadValue(SkipBlanks(s))
    case None => None
    case Some(Parsed(j, rest)) => if SkipBlanks(rest) == "" then Some(j) else None
  }

  // ---------- reading undoes writing ----------

  lemma HexRoundTrip(n: nat)
    requires n < 16
    ensures HexValue(HexDigit(n)) == Some(n)
  {
  }

  lemma HexDigits(n: nat)
    requires n < 0x10000
    ensures n == ((n / 0x1000 * 16 + n / 0x100 % 16) * 16 + n / 16 % 16) * 16 + n % 16
  {
    assert n / 0x100 == n / 0x1000 * 16 + n / 0x100 % 16;
    assert n / 16 == n / 0x100 * 16 + n / 16 % 16;
  }

  lemma Hex4RoundTrip(n: nat, t: string)
    requires n < 0x10000
    ensures ReadHex4(Hex4(n) + t) == Some(n)
  {
    HexRoundTrip(n / 0x1000);
    HexRoundTrip(n / 0x100 % 16);
    HexRoundTrip(n / 16 % 16);
    HexRoundTrip(n % 16);
    HexDigits(n);
    var s := Hex4(n) + t;
    assert s[0] == Hex4(n)[0] && s[1] == Hex4(n)[1] && s[2] == Hex4(n)[2] && s[3] == Hex4(n)[3];
  }

  lemma ReadCodePointAfterHex(c: char, t: string)
    requires c as int < 0xD800
    ensures ReadCodePoint(Hex4(c as int) + t) == Some((c, 4))
  {
    Hex4RoundTrip(c as int, t);
  }

  lemma ReadCharAfterHex(c: char, t: string)
    requires c as int < 0xD800
    ensures ReadChar("\\u" + Hex4(c as int) + t) == Some(Parsed(c, t))
  {
    var e := "\\u" + Hex4(c as int);
    var s := e + t;
    hide Hex4, ReadCodePoint, SimpleEscape;
    HexHasFour(c as int);
    ReadCodePointAfterHex(c, t);
    assert s[0] == '\\' && s[1] == 'u';
    assert s[2..] == Hex4(c as int) + t;
    assert s[6..] == t;
  }

  lemma HexHasFour(n: nat)
    requires n < 0x10000
    ensures |Hex4(n)| == 4
  {
  }

  lemma ReadCharAfterShort(c: char, t: string)
    requires |EscapeChar(c)| <= 2
    ensures ReadChar(EscapeChar(c) + t) == Some(Parsed(c, t))
  {
    hide Hex4, ReadCodePoint;
    var e := EscapeChar(c);
    var s := e + t;
    if c as int < 0x10000 {
      HexHasFour(c as int);
    }
    assert s[0] == e[0] && (|e| > 1 ==> s[1] == e[1]);
    assert s[|e|..] == t;
  }

  lemma EscapeCharCases(c: char)
    ensures var e := EscapeChar(c);
      e != "" && e[0] != '"' && (|e| <= 2 || (c as int < 0xD800 && e == "\\u" + Hex4(c as int)))
  {
    hide Hex4;
  }

  lemma ReadCharAfterEscape(c: char, t: string)
    ensures ReadChar(EscapeChar(c) + t) == Some(Parsed(c, t))
    ensures (EscapeChar(c) + t)[0] != '"'
  {
    EscapeCharCases(c);
    if |EscapeChar(c)| <= 2 {
      ReadCharAfterShort(c, t);
    } else {
      ReadCharAfterHex(c, t);
    }
    hide EscapeChar, ReadChar, Hex4;
  }

  lemma {:induction false} ReadStringAfterEscape(s: string, rest: string)
    ensures ReadString(EscapeString(s, ['"'] + rest)) == Some(Parsed(s, rest))
  {
    if s != "" {
      ReadStringAfterEscape(s[1..], rest);
      ReadCharAfterEscape(s[0], EscapeString(s[1..], ['"'] + rest));
      assert [s[0]] + s[1..] == s;
    }
  }

  lemma ReadAfterQuote(s: string, rest: string)
    ensures Quote(s, rest) != "" && Quote(s, rest)[0] == '"'
    ensures ReadString(Quote(s, rest)[1..]) == Some(Parsed(s, rest))
  {
    ReadStringAfterEscape(s, rest);
    assert Quote(s, rest)[1..] == EscapeString(s, ['"'] + rest);
  }

  /** What the checkpoint encoder writes: one-digit integers, strings, and objects of these. */
  predicate Plain(j: Json)
    decreases j
  {
    match j
    case Null => false
    case Num(n) => 0 <= n < 10
    case Str(_) => true
    case Obj(fields) => forall i :: 0 <= i < |fields| ==> Plain(fields[i].value)
  }

  /** Text that cannot continue a number. */
  predicate EndsValue(rest: string) {
    rest != "" ==> rest[0] == ',' || rest[0] == '}'
  }

  lemma ReadDigit(n: nat, rest: string)
    requires n < 10 && EndsValue(rest)
    ensures Decimal(n, rest) != "" && IsDigit(Decimal(n, rest)[0])
    ensures ReadNatural(Decimal(n, rest)) == Some(Parsed(n, rest))
  {
    var s := Decimal(n, rest);
    var digit := s[..1];
    assert s[1..] == rest;
    assert DigitCount(rest) == 0;
    assert DigitCount(s) == 1;
    assert digit[..0] == "" && DigitsValue(digit) == n;
  }

  lemma {:induction false} ReadAfterPrint(j: Json, rest: string)
    requires Plain(j) && EndsValue(rest)
    ensures Print(j, rest) != "" && !IsBlank(Print(j, rest)[0])
    ensures ReadValue(Print(j, rest)) == Some(Parsed(j, rest))
    decreases j, 0
  {
    match j
    case Null =>
    case Num(n) => ReadDigit(n, rest);
    case Str(s) => ReadAfterQuote(s, rest);
    case Obj(fields) => ReadObjectAfterPrint(fields, rest);
  }

  /** An object ends itself: any text may follow it. */
  lemma {:induction false} ReadObjectAfterPrint(fields: seq<Field>, rest: string)
    requires forall i :: 0 <= i < |fields| ==> Plain(fields[i].value)
    ensures ReadValue(Print(Obj(fields), rest)) == Some(Parsed(Obj(fields), rest))
    decreases fields, 2
  {
    var body := PrintFields(fields, ['}'] + rest);
    assert Print(Obj(fields), rest)[1..] == body;
    if fields == [] {
      assert body[1..] == rest;
    } else {
      ReadFieldsAfterPrint(fields, rest);
      assert SkipBlanks(body) == body;
    }
  }

  lemma {:induction false} ReadFieldAfterPrint(f: Field, rest: string)
    requires Plain(f.value) && EndsValue(rest)
    ensures PrintField(f, rest) != "" && PrintField(f, rest)[0] == '"'
    ensures ReadField(PrintField(f, rest)) == Some(Parsed(f, rest))
    decreases f, 1
  {
    var value := Print(f.value, rest);
    ReadAfterPrint(f.value, rest);
    ReadAfterQuote(f.key, [':'] + value);
    assert ([':'] + value)[1..] == value;
    assert SkipBlanks([':'] + value) == [':'] + value && SkipBlanks(value) == value;
  }

  /** A separator, with the text after it, is not blank and is followed by that text. */
  lemma AfterSeparator(c: char, more: string)
    requires c == ',' || c == '}' || c == '"'
    ensures ([c] + more)[1..] == more && ([c] + more)[0] == c && SkipBlanks([c] + more) == [c] + more
  {
  }

  lemma QuotedIsNotBlank(text: string)
    requires text != "" && text[0] == '"'
    ensures SkipBlanks(text) == text
  {
  }

  lemma {:induction false} ReadFieldsAfterPrint(fields: seq<Field>, rest: string)
    requires fields != [] && forall i :: 0 <= i < |fields| ==> Plain(fields[i].value)
    ensures var text := PrintFields(fields, ['}'] + rest);
      text != "" && text[0] == '"' && ReadFields(text) == Some(Parsed(fields, rest))
    decreases fields, 0
  {
    hide PrintField, ReadField, SkipBlanks;
    assert [fields[0]] + fields[1..] == fields;
    if |fields| == 1 {
      AfterSeparator('}', rest);
      ReadFieldAfterPrint(fields[0], ['}'] + rest);
      assert [fields[0]] == fields;
    } else {
      var more := PrintFields(fields[1..], ['}'] + rest);
      ReadFieldsAfterPrint(fields[1..], rest);
      QuotedIsNotBlank(more);
      AfterSeparator(',', more);
      ReadFieldAfterPrint(fields[0], [','] + more);
    }
  }
}
