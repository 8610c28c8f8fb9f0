/**
 Compact JSON as the library emits it: trees of objects whose leaves are strings and literals,
 a printer, and a parser written independently from RFC 8259 (sections 4, 6 and 7, without
 insignificant whitespace). Parsing inverts printing.
 */
module Json {
  import opened Common

  // ---------------------------------------------------------------------------------------
  // Strings (section 7).

  /** The two serializers spell hexadecimal digits differently. */
  datatype HexCase = Upper | Lower

  function HexDigit(n: nat, hex: HexCase): (c: char)
    requires n < 16
    ensures HexValue(c) == n
  {
    if n < 10 then '0' + n as char else (if hex.Upper? then 'A' else 'a') + (n - 10) as char
  }

  /** The value of a hexadecimal digit, or 16. */
  function HexValue(c: char): nat {
    if '0' <= c <= '9' then (c - '0') as nat
    else if 'A' <= c <= 'F' then (c - 'A') as nat + 10
    else if 'a' <= c <= 'f' then (c - 'a') as nat + 10
    else 16
  }

  function EscapeChar(c: char, hex: HexCase): (e: string)
    ensures 1 <= |e| <= 6
    ensures c != '"' && c != '\\' && c >= ' ' ==> e == [c]
    ensures forall k :: 0 <= k < |e| ==> e[k] >= ' '
  {
    if c == '"' then "\\\""
    else if c == '\\' then "\\\\"
    else if c as int == 8 then "\\b"
    else if c as int == 12 then "\\f"
    else if c == '\n' then "\\n"
    else if c == '\r' then "\\r"
    else if c == '\t' then "\\t"
    else if c < ' ' then "\\u00" + [HexDigit(c as nat / 16, hex), HexDigit(c as nat % 16, hex)]
    else [c]
  }

  function Escape(s: string, hex: HexCase): string {
    if s == "" then "" else Escape(s[..|s| - 1], hex) + EscapeChar(s[|s| - 1], hex)
  }

  function Quote(s: string, hex: HexCase): string {
    "\"" + Escape(s, hex) + "\""
  }

  lemma EscapeNothing(hex: HexCase)
    ensures Escape("", hex) == ""
  {
  }

  lemma EscapeStep(s: string, i: nat, hex: HexCase)
    requires i < |s|
    ensures Escape(s[..i + 1], hex) == Escape(s[..i], hex) + EscapeChar(s[i], hex)
  {
    assert s[..i + 1][..i] == s[..i];
  }

  lemma {:induction false} EscapePrefixIsShorter(s: string, i: nat, hex: HexCase)
    requires i <= |s|
    ensures |Escape(s[..i], hex)| <= |Escape(s, hex)|
    decreases |s|
  {
    if i == |s| {
      assert s[..i] == s;
    } else {
      var front := s[..|s| - 1];
      assert front[..i] == s[..i];
      EscapePrefixIsShorter(front, i, hex);
    }
  }

  /** Escaped text has no control character: no NUL, no newline. */
  predicate Printable(s: string) {
    forall k :: 0 <= k < |s| ==> s[k] >= ' '
  }

  lemma {:induction false} EscapePrintable(s: string, hex: HexCase)
    ensures Printable(Escape(s, hex)) && Printable(Quote(s, hex))
    ensures |s| <= |Escape(s, hex)| <= 6 * |s|
  {
    if s != "" {
      EscapePrintable(s[..|s| - 1], hex);
    }
  }

  // ---------------------------------------------------------------------------------------
  // Literals (section 6 for numbers).

  predicate IsDigit(c: char) {
    '0' <= c <= '9'
  }

  function DigitRun(s: string): (k: nat)
    ensures k <= |s|
    ensures forall j :: 0 <= j < k ==> IsDigit(s[j])
  {
    if s == "" || !IsDigit(s[0]) then 0 else 1 + DigitRun(s[1..])
  }

  predicate IsExponent(s: string) {
    s == "" || (
      && (s[0] == 'e' || s[0] == 'E')
      && var d := if |s| > 1 && (s[1] == '+' || s[1] == '-') then s[2..] else s[1..];
         d != "" && DigitRun(d) == |d|)
  }

  predicate IsFraction(s: string) {
    if s != "" && s[0] == '.' then
      var k := DigitRun(s[1..]);
      k > 0 && IsExponent(s[1..][k..])
    else IsExponent(s)
  }

  predicate IsUnsignedNumber(s: string) {
    var k := DigitRun(s);
    k > 0 && (s[0] == '0' ==> k == 1) && IsFraction(s[k..])
  }

  predicate IsNumber(s: string) {
    if s != "" && s[0] == '-' then IsUnsignedNumber(s[1..]) else IsUnsignedNumber(s)
  }

  predicate IsLiteral(s: string) {
    s == "true" || s == "false" || s == "null" || IsNumber(s)
  }

  predicate IsTokenChar(c: char) {
    IsDigit(c) || 'a' <= c <= 'z' || 'A' <= c <= 'Z' || c == '+' || c == '-' || c == '.'
  }

  predicate AllTokenChars(s: string) {
    forall k :: 0 <= k < |s| ==> IsTokenChar(s[k])
  }

  lemma JoinTokenChars(s: string, k: nat)
    requires k <= |s| && AllTokenChars(s[..k]) && AllTokenChars(s[k..])
    ensures AllTokenChars(s)
  {
    forall j | 0 <= j < |s| ensures IsTokenChar(s[j]) {
      if j < k { assert s[j] == s[..k][j]; } else { assert s[j] == s[k..][j - k]; }
    }
  }

  lemma ExponentTokens(s: string)
    requires IsExponent(s)
    ensures AllTokenChars(s)
  {
    if s != "" {
      var k := if |s| > 1 && (s[1] == '+' || s[1] == '-') then 2 else 1;
      JoinTokenChars(s, k);
    }
  }

  lemma FractionTokens(s: string)
    requires IsFraction(s)
    ensures AllTokenChars(s)
  {
    if s != "" && s[0] == '.' {
      var k := DigitRun(s[1..]);
      ExponentTokens(s[1..][k..]);
      JoinTokenChars(s[1..], k);
      JoinTokenChars(s, 1);
    } else {
      ExponentTokens(s);
    }
  }

  lemma UnsignedTokens(s: string)
    requires IsUnsignedNumber(s)
    ensures AllTokenChars(s)
  {
    FractionTokens(s[DigitRun(s)..]);
    JoinTokenChars(s, DigitRun(s));
  }

  lemma LiteralTokens(s: string)
    requires IsLiteral(s)
    ensures s != "" && AllTokenChars(s) && Printable(s)
  {
    if IsNumber(s) {
      if s != "" && s[0] == '-' {
        UnsignedTokens(s[1..]);
        JoinTokenChars(s, 1);
      } else {
        UnsignedTokens(s);
      }
    }
  }

  // ---------------------------------------------------------------------------------------
  // Decimal integers.

  function Decimal(n: nat): (s: string)
    ensures s != ""
  {
    var d := [('0' + (n % 10) as char)];
    if n < 10 then d else Decimal(n / 10) + d
  }

  function DecimalInt(i: int): string {
    if i < 0 then "-" + Decimal(-i) else Decimal(i)
  }

  lemma {:induction false} DecimalDigits(n: nat)
    ensures DigitRun(Decimal(n)) == |Decimal(n)|
    ensures Decimal(n)[0] == '0' <==> n == 0
  {
    if n >= 10 {
      DecimalDigits(n / 10);
      AllDigitsRun(Decimal(n));
    } else {
      AllDigitsRun(Decimal(n));
    }
  }

  lemma {:induction false} AllDigitsRun(s: string)
    requires forall j :: 0 <= j < |s| ==> IsDigit(s[j])
    ensures DigitRun(s) == |s|
  {
    if s != "" {
      AllDigitsRun(s[1..]);
    }
  }

  lemma DecimalIsNumber(n: nat)
    ensures IsNumber(Decimal(n)) && Decimal(n)[0] != '-'
  {
    DecimalDigits(n);
    assert n < 10 ==> |Decimal(n)| == 1;
    assert IsDigit(Decimal(n)[0]);
    assert Decimal(n)[|Decimal(n)|..] == "";
  }

  lemma DecimalIntIsNumber(i: int)
    ensures IsNumber(DecimalInt(i))
  {
    if i < 0 {
      DecimalIsNumber(-i);
      var s := DecimalInt(i);
      assert s[1..] == Decimal(-i) && s[0] == '-';
    } else {
      DecimalIsNumber(i);
    }
  }

  function Pow10(k: nat): (p: nat)
    ensures p >= 1
  {
    if k == 0 then 1 else 10 * Pow10(k - 1)
  }

  lemma {:induction false} DecimalLength(n: nat, k: nat)
    requires k >= 1
    ensures |Decimal(n)| <= k <==> n < Pow10(k)
  {
    if k == 1 {
      assert Pow10(1) == 10 * Pow10(0);
    } else if n >= 10 {
      DecimalLength(n / 10, k - 1);
    }
  }

  /** A wider number never has fewer digits, and 20 digits hold every 64-bit value. */
  lemma DecimalWidth(m: nat, n: nat)
    requires m <= n
    ensures |Decimal(m)| <= |Decimal(n)|
    ensures n < TWO_64 ==> |Decimal(n)| <= 20
  {
    DecimalLength(n, |Decimal(n)|);
    DecimalLength(m, |Decimal(n)|);
    DecimalLength(n, 20);
    assert Pow10(20) == 100_000_000_000_000_000_000 by {
      assert Pow10(10) == 10_000_000_000;
    }
  }

  // ---------------------------------------------------------------------------------------
  // Trees and their text.

  datatype Value = Literal(text: string) | Text(content: string) | Object(members: Members)

  /** The members of an object in the order they were added. */
  datatype Members = Empty | Snoc(front: Members, name: string, value: Value)

  ghost predicate WellFormed(v: Value) {
    match v
    case Literal(t) => IsLiteral(t)
    case Text(_) => true
    case Object(m) => WellFormedMembers(m)
  }

  ghost predicate WellFormedMembers(m: Members) {
    match m
    case Empty => true
    case Snoc(front, _, v) => WellFormedMembers(front) && WellFormed(v)
  }

  function Print(v: Value): string {
    match v
    case Literal(t) => t
    case Text(s) => Quote(s, Upper)
    case Object(m) => "{" + PrintMembers(m) + "}"
  }

  function Separator(m: Members): string {
    if m.Empty? then "" else ","
  }

  function PrintMembers(m: Members): string {
    match m
    case Empty => ""
    case Snoc(front, name, v) => PrintMembers(front) + (Separator(front) + Member(name, Print(v)))
  }

  function Member(name: string, value: string): string {
    Quote(name, Upper) + ":" + value
  }

  function Names(m: Members): seq<string> {
    match m
    case Empty => []
    case Snoc(front, name, _) => Names(front) + [name]
  }

  lemma {:induction false} PrintPrintable(v: Value)
    requires WellFormed(v)
    ensures Printable(Print(v))
    decreases v
  {
    match v
    case Literal(t) => LiteralTokens(t);
    case Text(content) => EscapePrintable(content, Upper);
    case Object(m) => MembersPrintable(m);
  }

  lemma {:induction false} MembersPrintable(m: Members)
    requires WellFormedMembers(m)
    ensures Printable(PrintMembers(m))
    decreases m
  {
    hide Quote, Escape, Print;
    match m
    case Empty =>
    case Snoc(front, name, v) =>
      MembersPrintable(front);
      PrintPrintable(v);
      EscapePrintable(name, Upper);
      JoinPrintable(Quote(name, Upper), ":");
      JoinPrintable(Quote(name, Upper) + ":", Print(v));
      JoinPrintable(Separator(front), Member(name, Print(v)));
      JoinPrintable(PrintMembers(front), Separator(front) + Member(name, Print(v)));
  }

  lemma JoinPrintable(a: string, b: string)
    ensures Printable(a) && Printable(b) ==> Printable(a + b)
  {
  }

  // ---------------------------------------------------------------------------------------
  // The parser.

  datatype Parsed<+T> = Fail | Ok(value: T, rest: string)

  /** One escape sequence, the backslash included; code points above 0x7F are not needed here. */
  function ParseEscape(s: string): (r: Parsed<char>)
    ensures r.Ok? ==> |r.rest| < |s|
  {
    if |s| < 2 then Fail
    else if s[1] == '"' || s[1] == '\\' || s[1] == '/' then Ok(s[1], s[2..])
    else if s[1] == 'b' then Ok(8 as char, s[2..])
    else if s[1] == 'f' then Ok(12 as char, s[2..])
    else if s[1] == 'n' then Ok('\n', s[2..])
    else if s[1] == 'r' then Ok('\r', s[2..])
    else if s[1] == 't' then Ok('\t', s[2..])
    else if s[1] == 'u' && |s| >= 6 && s[2] == '0' && s[3] == '0' && HexValue(s[4]) < 8 && HexValue(s[5]) < 16 then
      Ok((16 * HexValue(s[4]) + HexValue(s[5])) as char, s[6..])
    else Fail
  }

  /** The rest of a string whose opening quote has been read. */
  function ParseChars(s: string): (r: Parsed<string>)
    ensures r.Ok? ==> |r.rest| < |s|
    decreases |s|
  {
    if s == "" || s[0] < ' ' then Fail
    else if s[0] == '"' then Ok("", s[1..])
    else if s[0] == '\\' then
      match ParseEscape(s)
      case Fail => Fail
      case Ok(c, rest) =>
        (match ParseChars(rest)
         case Fail => Fail
         case Ok(cs, end) => Ok([c] + cs, end))
    else
      match ParseChars(s[1..])
      case Fail => Fail
      case Ok(cs, end) => Ok([s[0]] + cs, end)
  }

  function TokenRun(s: string): (k: nat)
    ensures k <= |s|
  {
    if s == "" || !IsTokenChar(s[0]) then 0 else 1 + TokenRun(s[1..])
  }

  function ParseValue(s: string): (r: Parsed<Value>)
    ensures r.Ok? ==> |r.rest| < |s|
    decreases |s|, 0
  {
    if s == "" then Fail
    else if s[0] == '{' then ParseMembers(s[1..], Empty)
    else if s[0] == '"' then
      match ParseChars(s[1..])
      case Fail => Fail
      case Ok(cs, rest) => Ok(Text(cs), rest)
    else
      var k := TokenRun(s);
      if k > 0 && IsLiteral(s[..k]) then Ok(Literal(s[..k]), s[k..]) else Fail
  }

  /** The rest of an object of which the members `done` have been read. */
  function ParseMembers(s: string, done: Members): (r: Parsed<Value>)
    ensures r.Ok? ==> |r.rest| < |s|
    decreases |s|, 1
  {
    if s == "" then Fail
    else if s[0] == '}' then Ok(Object(done), s[1..])
    else if !done.Empty? && s[0] != ',' then Fail
    else ParseMember(if done.Empty? then s else s[1..], done)
  }

  function ParseMember(s: string, done: Members): (r: Parsed<Value>)
    ensures r.Ok? ==> |r.rest| < |s|
    decreases |s|, 0
  {
    if s == "" || s[0] != '"' then Fail
    else
      match ParseChars(s[1..])
      case Fail => Fail
      case Ok(name, colon) =>
        if colon == "" || colon[0] != ':' then Fail
        else
          (match ParseValue(colon[1..])
           case Fail => Fail
           case Ok(v, rest) => ParseMembers(rest, Snoc(done, name, v)))
  }

  // ---------------------------------------------------------------------------------------
  // Parsing inverts printing.

  lemma ParseEscapeInverts(c: char, hex: HexCase, rest: string)
    requires c < ' ' || c == '"' || c == '\\'
    ensures ParseEscape(EscapeChar(c, hex) + rest) == Ok(c, rest)
    ensures EscapeChar(c, hex)[0] == '\\'
  {
    var e := EscapeChar(c, hex);
    var s := e + rest;
    assert s[|e|..] == rest;
    assert s[0] == e[0] && s[1] == e[1];
    if |e| == 6 {
      assert s[2] == e[2] && s[3] == e[3] && s[4] == e[4] && s[5] == e[5];
      assert c as nat == 16 * (c as nat / 16) + c as nat % 16;
    }
  }

  /** Reading one escaped character of a string whose remainder is known. */
  lemma ParseCharsStep(c: char, hex: HexCase, after: string, cs: string, rest: string)
    requires ParseChars(after) == Ok(cs, rest)
    ensures ParseChars(EscapeChar(c, hex) + after) == Ok([c] + cs, rest)
  {
    var s := EscapeChar(c, hex) + after;
    if c < ' ' || c == '"' || c == '\\' {
      ParseEscapeInverts(c, hex, after);
      assert s[0] == '\\';
    } else {
      assert s[0] == c && s[1..] == after;
    }
  }

  lemma {:induction false} EscapeFirst(content: string, hex: HexCase)
    requires content != ""
    ensures Escape(content, hex) == EscapeChar(content[0], hex) + Escape(content[1..], hex)
  {
    hide EscapeChar;
    var n := |content| - 1;
    var front, tail := content[..n], content[1..];
    if n == 0 {
      assert Escape(front, hex) == "" == Escape(tail, hex);
    } else {
      EscapeFirst(front, hex);
      assert tail[..|tail| - 1] == front[1..] && tail[|tail| - 1] == content[n];
      Assoc(EscapeChar(content[0], hex), Escape(front[1..], hex), EscapeChar(content[n], hex));
    }
  }

  lemma EscapeFirstThen(content: string, hex: HexCase, end: string)
    requires content != ""
    ensures Escape(content, hex) + end == EscapeChar(content[0], hex) + (Escape(content[1..], hex) + end)
  {
    EscapeFirst(content, hex);
    Assoc(EscapeChar(content[0], hex), Escape(content[1..], hex), end);
  }

  /** Reading the escaped form of `content` up to the closing quote that starts `end`. */
  lemma {:induction false} ParseCharsInverts(content: string, hex: HexCase, end: string)
    requires end != "" && end[0] == '"'
    ensures ParseChars(Escape(content, hex) + end) == Ok(content, end[1..])
  {
    if content == "" {
      assert Escape(content, hex) + end == end;
    } else {
      EscapeFirstThen(content, hex, end);
      ParseCharsInverts(content[1..], hex, end);
      ParseCharsStep(content[0], hex, Escape(content[1..], hex) + end, content[1..], end[1..]);
      assert [content[0]] + content[1..] == content;
    }
  }

  lemma ParseQuoted(content: string, hex: HexCase, rest: string)
    ensures var s := Quote(content, hex) + rest; s[0] == '"' && ParseChars(s[1..]) == Ok(content, rest)
  {
    var end := ['"'] + rest;
    assert end[1..] == rest;
    ParseCharsInverts(content, hex, end);
    QuoteThen(Escape(content, hex), rest);
  }

  lemma QuoteThen(inside: string, rest: string)
    ensures var s := "\"" + inside + "\"" + rest; s[0] == '"' && s[1..] == inside + (['"'] + rest)
  {
  }

  lemma {:induction false} TokenRunStops(token: string, rest: string)
    requires AllTokenChars(token) && (rest == "" || !IsTokenChar(rest[0]))
    ensures TokenRun(token + rest) == |token|
  {
    if token == "" {
      assert token + rest == rest;
    } else {
      assert (token + rest)[1..] == token[1..] + rest;
      TokenRunStops(token[1..], rest);
    }
  }

  /** Text after which a literal is complete. */
  predicate Delimited(rest: string) {
    rest == "" || !IsTokenChar(rest[0])
  }

  lemma ParseLiteral(t: string, rest: string)
    requires IsLiteral(t) && Delimited(rest)
    ensures ParseValue(t + rest) == Ok(Literal(t), rest)
  {
    LiteralTokens(t);
    TokenRunStops(t, rest);
    var s := t + rest;
    assert s[0] == t[0] && s[..|t|] == t && s[|t|..] == rest;
  }

  lemma {:induction false} ParsePrint(v: Value, rest: string)
    requires WellFormed(v) && Delimited(rest)
    ensures ParseValue(Print(v) + rest) == Ok(v, rest)
    decreases v, 0
  {
    match v
    case Literal(t) => ParseLiteral(t, rest);
    case Text(content) => ParseQuoted(content, Upper, rest);
    case Object(m) =>
      var end := ['}'] + rest;
      assert end[1..] == rest;
      Absorb(m, end);
      assert ParseMembers(end, m) == Ok(v, rest);
      OpenBrace(v, rest, PrintMembers(m) + end);
  }

  lemma OpenBrace(v: Value, rest: string, inside: string)
    requires v.Object? && inside == PrintMembers(v.members) + (['}'] + rest)
    ensures ParseValue(Print(v) + rest) == ParseMembers(inside, Empty)
  {
    hide PrintMembers;
    BraceThenRest(PrintMembers(v.members), rest);
  }

  lemma BraceThenRest(inside: string, rest: string)
    ensures var s := "{" + inside + "}" + rest; s[0] == '{' && s[1..] == inside + (['}'] + rest)
  {
  }

  /** Reading the text of some members is the same as having read them. */
  lemma {:induction false} Absorb(m: Members, tail: string)
    requires WellFormedMembers(m) && tail != "" && Delimited(tail)
    ensures ParseMembers(PrintMembers(m) + tail, Empty) == ParseMembers(tail, m)
    decreases m, 1
  {
    match m
    case Empty =>
      assert PrintMembers(m) + tail == tail;
    case Snoc(front, name, v) =>
      var member := Separator(front) + Member(name, Print(v));
      Assoc(PrintMembers(front), member, tail);
      Absorb(front, member + tail);
      AbsorbMember(front, name, v, tail);
  }

  lemma {:induction false} AbsorbMember(done: Members, name: string, v: Value, tail: string)
    requires WellFormed(v) && Delimited(tail)
    ensures ParseMembers(Separator(done) + Member(name, Print(v)) + tail, done) == ParseMembers(tail, Snoc(done, name, v))
    decreases v, 1
  {
    ParsePrint(v, tail);
    EnterMember(done, name, Print(v) + tail);
    Assoc(Quote(name, Upper) + ":", Print(v), tail);
    Assoc(Separator(done), Member(name, Print(v)), tail);
  }

  /** What reading continues with once a member's value has been read. */
  function AfterValue(value: Parsed<Value>, done: Members, name: string): Parsed<Value> {
    if value.Fail? then Fail else ParseMembers(value.rest, Snoc(done, name, value.value))
  }

  lemma ParseMemberAt(done: Members, name: string, text: string)
    ensures ParseMember(Member(name, text), done) == AfterValue(ParseValue(text), done, name)
    ensures Member(name, text)[0] == '"'
  {
    var colon := ":" + text;
    assert colon[0] == ':' && colon[1..] == text;
    ParseQuoted(name, Upper, colon);
    Assoc(Quote(name, Upper), ":", text);
  }

  /** Reading a member's name leaves its value to be read. */
  lemma EnterMember(done: Members, name: string, text: string)
    ensures ParseMembers(Separator(done) + Member(name, text), done) == AfterValue(ParseValue(text), done, name)
  {
    ParseMemberAt(done, name, text);
    AfterSeparator(done, Member(name, text));
  }

  lemma AfterSeparator(done: Members, s: string)
    requires s != "" && s[0] == '"'
    ensures ParseMembers(Separator(done) + s, done) == ParseMember(s, done)
  {
    var whole := Separator(done) + s;
    if done.Empty? {
      assert whole == s;
    } else {
      assert whole[0] == ',' && whole[1..] == s;
    }
  }
}
