/** JSON values, the compact serialiser shared by the Rust and Python sides, and
    a reader that inverts it.

    Numbers carry their printed lexeme: how a library formats a number is not
    part of the model, only that the lexeme is made of number characters. */
module Json {
  import opened Wrappers

  datatype Value =
    | Null
    | Bool(flag: bool)
    | Number(lexeme: string)
    | Str(text: string)
    | Arr(items: seq<Value>)
    | Obj(members: seq<Member>)

  datatype Member = Member(key: string, value: Value)

  predicate NumberChar(c: char) {
    '0' <= c <= '9' || c == '+' || c == '-' || c == '.' || c == 'e' || c == 'E'
  }

  /** The number of decimal digits `s` begins with. */
  function DigitRun(s: string): (n: nat)
    ensures n <= |s| && forall i :: 0 <= i < n ==> '0' <= s[i] <= '9'
  {
    if s != "" && '0' <= s[0] <= '9' then 1 + DigitRun(s[1..]) else 0
  }

  predicate AllDigits(s: string) {
    s != "" && DigitRun(s) == |s|
  }

  predicate IsExponent(s: string) {
    && s != "" && (s[0] == 'e' || s[0] == 'E')
    && (AllDigits(s[1..]) || (|s| >= 2 && (s[1] == '+' || s[1] == '-') && AllDigits(s[2..])))
  }

  predicate IsFraction(s: string) {
    if s != "" && s[0] == '.' then
      var n := DigitRun(s[1..]);
      n > 0 && (s[1 + n..] == "" || IsExponent(s[1 + n..]))
    else s == "" || IsExponent(s)
  }

  predicate IsUnsigned(s: string) {
    var n := DigitRun(s);
    n > 0 && (s[0] == '0' ==> n == 1) && IsFraction(s[n..])
  }

  /** A number by the grammar of section 6 of RFC 8259. */
  predicate IsLexeme(s: string) {
    if s != "" && s[0] == '-' then IsUnsigned(s[1..]) else IsUnsigned(s)
  }

  predicate DistinctKeys(ms: seq<Member>) {
    forall i, j :: 0 <= i < j < |ms| ==> ms[i].key != ms[j].key
  }

  /** What the libraries' value types guarantee by construction. */
  predicate WellFormed(v: Value)
  {
    match v
    case Number(lexeme) => IsLexeme(lexeme)
    case Arr(items) => forall i :: 0 <= i < |items| ==> WellFormed(items[i])
    case Obj(ms) => DistinctKeys(ms) && forall i :: 0 <= i < |ms| ==> WellFormed(ms[i].value)
    case _ => true
  }

  /** An object's members as `serde_json::Map` holds them. */
  type JsonMap = ms: seq<Member> | WellFormed(Obj(ms)) witness []

  function Get(v: Value, key: string): (r: Option<Value>)
  {
    if v.Obj? then Lookup(v.members, key) else None
  }

  function Lookup(ms: seq<Member>, key: string): (r: Option<Value>)
    ensures r.Some? <==> exists i :: 0 <= i < |ms| && ms[i].key == key
  {
    if ms == [] then None
    else if ms[0].key == key then Some(ms[0].value)
    else Lookup(ms[1..], key)
  }

  function AsStr(v: Option<Value>): Option<string> {
    if v.Some? && v.value.Str? then Some(v.value.text) else None
  }

  // ---------------------------------------------------------------------
  // Printing
  // ---------------------------------------------------------------------

  function HexDigit(n: nat): (c: char)
    requires n < 16
  {
    if n < 10 then '0' + n as char else 'a' + (n - 10) as char
  }

  /** One character of a string literal: the same escapes in `serde_json` and
      in `json.dumps(..., ensure_ascii=False)`. */
  function Escape(c: char): (r: string)
    ensures r != ""
  {
    if c == '"' then "\\\""
    else if c == '\\' then "\\\\"
    else if c as int == 8 then "\\b"
    else if c as int == 9 then "\\t"
    else if c as int == 10 then "\\n"
    else if c as int == 12 then "\\f"
    else if c as int == 13 then "\\r"
    else if c as int < 32 then "\\u00" + [HexDigit(c as int / 16), HexDigit(c as int % 16)]
    else [c]
  }

  function EscapeAll(s: string): string {
    if s == "" then "" else Escape(s[0]) + EscapeAll(s[1..])
  }

  function PrintStr(s: string): string {
    "\"" + EscapeAll(s) + "\""
  }

  function Print(v: Value): string
    decreases v
  {
    match v
    case Null => "null"
    case Bool(flag) => if flag then "true" else "false"
    case Number(lexeme) => lexeme
    case Str(text) => PrintStr(text)
    case Arr(items) => if items == [] then "[]" else "[" + PrintItems(items)
    case Obj(ms) => if ms == [] then "{}" else "{" + PrintMembers(ms)
  }

  function PrintItems(items: seq<Value>): string
    requires items != []
    decreases items
  {
    Print(items[0]) + (if |items| == 1 then "]" else "," + PrintItems(items[1..]))
  }

  function PrintMembers(ms: seq<Member>): string
    requires ms != []
    decreases ms
  {
    PrintStr(ms[0].key) + ":" + Print(ms[0].value)
    + (if |ms| == 1 then "}" else "," + PrintMembers(ms[1..]))
  }

  // ---------------------------------------------------------------------
  // Reading
  // ---------------------------------------------------------------------

  datatype Read<+T> = Read(item: T, rest: string)

  function Starts(s: string, prefix: string): (r: bool)
    ensures r <==> prefix <= s
  {
    prefix <= s
  }

  function FromHex(c: char): Option<nat> {
    if '0' <= c <= '9' then Some(c as int - '0' as int)
    else if 'a' <= c <= 'f' then Some(c as int - 'a' as int + 10)
    else None
  }

  function UnescapeShort(c: char): Option<char> {
    if c == '"' then Some('"')
    else if c == '\\' then Some('\\')
    else if c == 'b' then Some(8 as char)
    else if c == 't' then Some(9 as char)
    else if c == 'n' then Some(10 as char)
    else if c == 'f' then Some(12 as char)
    else if c == 'r' then Some(13 as char)
    else None
  }

  /** One character of a string literal. */
  function ReadChar(s: string): (r: Option<Read<char>>)
    ensures r.Some? ==> |r.value.rest| < |s|
  {
    if s == "" || s[0] == '"' then None
    else if s[0] != '\\' then Some(Read(s[0], s[1..]))
    else if |s| >= 6 && s[1..4] == "u00" then
      match (FromHex(s[4]), FromHex(s[5]))
      case (Some(hi), Some(lo)) => Some(Read((hi * 16 + lo) as char, s[6..]))
      case _ => None
    else if |s| >= 2 && UnescapeShort(s[1]).Some? then Some(Read(UnescapeShort(s[1]).value, s[2..]))
    else None
  }

  /** The rest of a string literal, up to and including its closing quote. */
  function ReadStr(s: string): (r: Option<Read<string>>)
    ensures r.Some? ==> |r.value.rest| < |s|
    decreases |s|
  {
    if s != "" && s[0] == '"' then Some(Read("", s[1..]))
    else
      match ReadChar(s)
      case None => None
      case Some(front) =>
        match ReadStr(front.rest)
        case None => None
        case Some(tail) => Some(Read([front.item] + tail.item, tail.rest))
  }

  /** The longest run of number characters. */
  function Span(s: string): (r: Read<string>)
    ensures r.item + r.rest == s
  {
    if s == "" || !NumberChar(s[0]) then Read("", s)
    else
      var tail := Span(s[1..]);
      Read([s[0]] + tail.item, tail.rest)
  }

  function ReadWord(s: string, word: string, v: Value): (r: Option<Read<Value>>)
    requires word != ""
    ensures r.Some? ==> |r.value.rest| < |s|
  {
    if Starts(s, word) then Some(Read(v, s[|word|..])) else None
  }

  function ReadValue(s: string): (r: Option<Read<Value>>)
    ensures r.Some? ==> |r.value.rest| < |s|
    decreases |s|, 3
  {
    if s == "" then None
    else if s[0] == 'n' then ReadWord(s, "null", Null)
    else if s[0] == 't' then ReadWord(s, "true", Bool(true))
    else if s[0] == 'f' then ReadWord(s, "false", Bool(false))
    else if s[0] == '"' then
      match ReadStr(s[1..])
      case None => None
      case Some(text) => Some(Read(Str(text.item), text.rest))
    else if s[0] == '[' then
      if |s| >= 2 && s[1] == ']' then Some(Read(Arr([]), s[2..]))
      else
        match ReadItems(s[1..])
        case None => None
        case Some(items) => Some(Read(Arr(items.item), items.rest))
    else if s[0] == '{' then
      if |s| >= 2 && s[1] == '}' then Some(Read(Obj([]), s[2..]))
      else
        match ReadMembers(s[1..])
        case None => None
        case Some(ms) => Some(Read(Obj(ms.item), ms.rest))
    else if NumberChar(s[0]) then
      var run := Span(s);
      assert |run.item| + |run.rest| == |s|;
      if IsLexeme(run.item) then Some(Read(Number(run.item), run.rest)) else None
    else None
  }

  function ReadItems(s: string): (r: Option<Read<seq<Value>>>)
    ensures r.Some? ==> |r.value.rest| < |s|
    decreases |s|, 4
  {
    match ReadValue(s)
    case None => None
    case Some(front) =>
      if front.rest == "" then None
      else if front.rest[0] == ']' then Some(Read([front.item], front.rest[1..]))
      else if front.rest[0] == ',' then
        match ReadItems(front.rest[1..])
        case None => None
        case Some(tail) => Some(Read([front.item] + tail.item, tail.rest))
      else None
  }

  function ReadMember(s: string): (r: Option<Read<Member>>)
    ensures r.Some? ==> |r.value.rest| < |s|
    decreases |s|, 5
  {
    if s == "" || s[0] != '"' then None
    else
      match ReadStr(s[1..])
      case None => None
      case Some(key) =>
        if key.rest == "" || key.rest[0] != ':' then None
        else
          match ReadValue(key.rest[1..])
          case None => None
          case Some(v) => Some(Read(Member(key.item, v.item), v.rest))
  }

  function ReadMembers(s: string): (r: Option<Read<seq<Member>>>)
    ensures r.Some? ==> |r.value.rest| < |s|
    decreases |s|, 6
  {
    match ReadMember(s)
    case None => None
    case Some(front) =>
      if front.rest == "" then None
      else if front.rest[0] == '}' then Some(Read([front.item], front.rest[1..]))
      else if front.rest[0] == ',' then
        match ReadMembers(front.rest[1..])
        case None => None
        case Some(tail) => Some(Read([front.item] + tail.item, tail.rest))
      else None
  }

  /** A whole document. */
  function Parse(s: string): Option<Value> {
    match ReadValue(s)
    case Some(r) => if r.rest == "" then Some(r.item) else None
    case None => None
  }

  // ---------------------------------------------------------------------
  // Reading inverts printing
  // ---------------------------------------------------------------------

  lemma Regroup(a: string, b: string, c: string)
    ensures (a + b) + c == a + (b + c)
  {
  }

  lemma AfterFirst(a: string, b: string)
    requires a != ""
    ensures (a + b)[0] == a[0] && (a + b)[1..] == a[1..] + b
  {
  }

  lemma HexRoundTrip(n: nat)
    requires n < 16
    ensures FromHex(HexDigit(n)) == Some(n)
  {
  }

  lemma ReadEscapedChar(c: char, rest: string)
    ensures ReadChar(Escape(c) + rest) == Some(Read(c, rest))
    ensures Escape(c)[0] != '"'
  {
    var e := Escape(c);
    var s := e + rest;
    assert s[|e|..] == rest;
    if c as int < 32 && |e| == 6 {
      HexRoundTrip(c as int / 16);
      HexRoundTrip(c as int % 16);
      assert s[1..4] == "u00";
    } else if |e| == 2 {
      assert |s| >= 6 ==> s[1..4][0] == s[1];
    }
  }

  lemma {:induction false} ReadPrintedStr(text: string, rest: string)
    ensures ReadStr(EscapeAll(text) + "\"" + rest) == Some(Read(text, rest))
  {
    var s := EscapeAll(text) + "\"" + rest;
    if text != "" {
      var tail := EscapeAll(text[1..]) + "\"" + rest;
      assert s == Escape(text[0]) + tail;
      ReadEscapedChar(text[0], tail);
      ReadPrintedStr(text[1..], rest);
      assert [text[0]] + text[1..] == text;
    } else {
      assert s[1..] == rest;
    }
  }

  /** Nothing a number could swallow. */
  predicate Stops(rest: string) {
    rest == "" || !NumberChar(rest[0])
  }

  lemma {:induction false} SpanOfLexeme(lexeme: string, rest: string)
    requires forall i :: 0 <= i < |lexeme| ==> NumberChar(lexeme[i])
    requires Stops(rest)
    ensures Span(lexeme + rest) == Read(lexeme, rest)
  {
    if lexeme == "" {
      assert lexeme + rest == rest;
    } else {
      assert (lexeme + rest)[1..] == lexeme[1..] + rest;
      SpanOfLexeme(lexeme[1..], rest);
      assert [lexeme[0]] + lexeme[1..] == lexeme;
    }
  }

  predicate AllNumberChars(s: string) {
    forall i :: 0 <= i < |s| ==> NumberChar(s[i])
  }

  lemma CharsAppend(s: string, n: nat)
    requires n <= |s| && AllNumberChars(s[..n]) && AllNumberChars(s[n..])
    ensures AllNumberChars(s)
  {
    assert forall i :: n <= i < |s| ==> s[i] == s[n..][i - n];
    assert forall i :: 0 <= i < n ==> s[i] == s[..n][i];
  }

  lemma ExponentChars(s: string)
    requires IsExponent(s)
    ensures AllNumberChars(s)
  {
    if AllDigits(s[1..]) {
      CharsAppend(s, 1);
    } else {
      CharsAppend(s, 2);
    }
  }

  lemma FractionChars(s: string)
    requires IsFraction(s)
    ensures AllNumberChars(s)
  {
    if s != "" && s[0] == '.' {
      var n := DigitRun(s[1..]);
      if s[1 + n..] != "" {
        ExponentChars(s[1 + n..]);
      }
      assert forall i :: 1 <= i < 1 + n ==> s[i] == s[1..][i - 1];
      CharsAppend(s, 1 + n);
    } else if s != "" {
      ExponentChars(s);
    }
  }

  lemma LexemeChars(s: string)
    requires IsLexeme(s)
    ensures s != "" && AllNumberChars(s)
  {
    var u := if s[0] == '-' then s[1..] else s;
    FractionChars(u[DigitRun(u)..]);
    CharsAppend(u, DigitRun(u));
    if s[0] == '-' {
      CharsAppend(s, 1);
    }
  }

  /** The character that opens a value's text tells its kind. */
  lemma OpeningChar(v: Value)
    requires WellFormed(v)
    ensures var p := Print(v);
            p != "" &&
            match v
            case Null => p[0] == 'n'
            case Bool(flag) => p[0] == (if flag then 't' else 'f')
            case Number(_) => NumberChar(p[0])
            case Str(_) => p[0] == '"'
            case Arr(_) => p[0] == '['
            case Obj(_) => p[0] == '{'
  {
    if v.Number? {
      LexemeChars(v.lexeme);
    }
  }

  lemma ReadPrintedWord(v: Value, rest: string)
    requires v.Null? || v.Bool?
    ensures ReadValue(Print(v) + rest) == Some(Read(v, rest))
  {
    var s := Print(v) + rest;
    assert s[..|Print(v)|] == Print(v) && s[|Print(v)|..] == rest;
  }

  lemma {:induction false} ReadPrinted(v: Value, rest: string)
    requires WellFormed(v) && Stops(rest)
    ensures ReadValue(Print(v) + rest) == Some(Read(v, rest))
    decreases v, 0
  {
    match v
    case Null => ReadPrintedWord(v, rest);
    case Bool(flag) => ReadPrintedWord(v, rest);
    case Number(lexeme) =>
      LexemeChars(lexeme);
      SpanOfLexeme(lexeme, rest);
      assert (lexeme + rest)[0] == lexeme[0];
    case Str(text) => ReadPrintedText(text, rest);
    case Arr(items) => ReadPrintedArr(items, rest);
    case Obj(ms) => ReadPrintedObj(ms, rest);
  }

  lemma ReadPrintedText(text: string, rest: string)
    ensures ReadValue(PrintStr(text) + rest) == Some(Read(Str(text), rest))
  {
    AfterQuote(text, rest);
  }

  lemma ReadEmpty(rest: string)
    ensures ReadValue("[]" + rest) == Some(Read(Arr([]), rest))
    ensures ReadValue("{}" + rest) == Some(Read(Obj([]), rest))
  {
    assert ("[]" + rest)[2..] == rest;
    assert ("{}" + rest)[2..] == rest;
  }

  lemma ReadOpened(s: string)
    requires |s| >= 2
    ensures s[0] == '[' && s[1] != ']' && ReadItems(s[1..]).Some? ==>
              ReadValue(s) == Some(Read(Arr(ReadItems(s[1..]).value.item), ReadItems(s[1..]).value.rest))
    ensures s[0] == '{' && s[1] != '}' && ReadMembers(s[1..]).Some? ==>
              ReadValue(s) == Some(Read(Obj(ReadMembers(s[1..]).value.item), ReadMembers(s[1..]).value.rest))
  {
  }

  lemma {:induction false} ReadPrintedArr(items: seq<Value>, rest: string)
    requires forall i :: 0 <= i < |items| ==> WellFormed(items[i])
    ensures ReadValue(Print(Arr(items)) + rest) == Some(Read(Arr(items), rest))
    decreases items, 2
  {
    if items == [] {
      ReadEmpty(rest);
    } else {
      var body := PrintItems(items);
      OpeningChar(items[0]);
      assert body[0] == Print(items[0])[0];
      Regroup("[", body, rest);
      AfterFirst("[", body + rest);
      ReadPrintedItems(items, rest);
      ReadOpened("[" + (body + rest));
    }
  }

  lemma {:induction false} ReadPrintedObj(ms: seq<Member>, rest: string)
    requires forall i :: 0 <= i < |ms| ==> WellFormed(ms[i].value)
    ensures ReadValue(Print(Obj(ms)) + rest) == Some(Read(Obj(ms), rest))
    decreases ms, 3
  {
    if ms == [] {
      ReadEmpty(rest);
    } else {
      var body := PrintMembers(ms);
      assert body[0] == '"';
      Regroup("{", body, rest);
      AfterFirst("{", body + rest);
      ReadPrintedMembers(ms, rest);
      ReadOpened("{" + (body + rest));
    }
  }

  /** Reading one item and what follows it. */
  lemma ReadItemsStep(s: string, v: Value, after: string)
    requires after != "" && ReadValue(s) == Some(Read(v, after))
    ensures after[0] == ']' ==> ReadItems(s) == Some(Read([v], after[1..]))
    ensures after[0] == ',' && ReadItems(after[1..]).Some? ==>
              ReadItems(s) == Some(Read([v] + ReadItems(after[1..]).value.item, ReadItems(after[1..]).value.rest))
  {
  }

  /** The text of an item list is its first item and what follows it. */
  lemma ItemsSplit(items: seq<Value>, rest: string) returns (after: string)
    requires items != []
    ensures PrintItems(items) + rest == Print(items[0]) + after
    ensures after != "" && Stops(after)
    ensures |items| == 1 ==> after[0] == ']' && after[1..] == rest && [items[0]] == items
    ensures |items| > 1 ==>
              after[0] == ',' && after[1..] == PrintItems(items[1..]) + rest && [items[0]] + items[1..] == items
  {
    var tail := if |items| == 1 then "]" else "," + PrintItems(items[1..]);
    after := tail + rest;
    Regroup(Print(items[0]), tail, rest);
    AfterFirst(tail, rest);
  }

  lemma {:induction false} ReadPrintedItems(items: seq<Value>, rest: string)
    requires items != []
    requires forall i :: 0 <= i < |items| ==> WellFormed(items[i])
    ensures ReadItems(PrintItems(items) + rest) == Some(Read(items, rest))
    decreases items, 1
  {
    var s := PrintItems(items) + rest;
    var after := ItemsSplit(items, rest);
    ReadPrinted(items[0], after);
    ReadItemsStep(s, items[0], after);
    if |items| > 1 {
      ReadPrintedItems(items[1..], rest);
    }
  }

  lemma ReadMembersStep(s: string, m: Member, after: string)
    requires after != "" && ReadMember(s) == Some(Read(m, after))
    ensures after[0] == '}' ==> ReadMembers(s) == Some(Read([m], after[1..]))
    ensures after[0] == ',' && ReadMembers(after[1..]).Some? ==>
              ReadMembers(s) == Some(Read([m] + ReadMembers(after[1..]).value.item, ReadMembers(after[1..]).value.rest))
  {
  }

  lemma AfterQuote(text: string, rest: string)
    ensures (PrintStr(text) + rest)[0] == '"'
    ensures ReadStr((PrintStr(text) + rest)[1..]) == Some(Read(text, rest))
  {
    assert (PrintStr(text) + rest)[1..] == EscapeAll(text) + "\"" + rest;
    ReadPrintedStr(text, rest);
  }

  lemma ReadKey(key: string, colon: string)
    requires colon != "" && colon[0] == ':' && ReadValue(colon[1..]).Some?
    ensures var v := ReadValue(colon[1..]).value;
            ReadMember(PrintStr(key) + colon) == Some(Read(Member(key, v.item), v.rest))
  {
    AfterQuote(key, colon);
  }

  lemma {:induction false} ReadPrintedMember(m: Member, rest: string)
    requires WellFormed(m.value) && Stops(rest)
    ensures ReadMember(PrintStr(m.key) + ":" + Print(m.value) + rest) == Some(Read(m, rest))
    decreases m, 1
  {
    ReadPrinted(m.value, rest);
    var text := Print(m.value) + rest;
    AfterFirst(":", text);
    ReadKey(m.key, ":" + text);
    Regroup(PrintStr(m.key) + ":", Print(m.value), rest);
    Regroup(PrintStr(m.key), ":", text);
  }

  /** The text of a member list is its first member and what follows it. */
  lemma MembersSplit(ms: seq<Member>, rest: string) returns (after: string)
    requires ms != []
    ensures PrintMembers(ms) + rest == PrintStr(ms[0].key) + ":" + Print(ms[0].value) + after
    ensures after != "" && Stops(after)
    ensures |ms| == 1 ==> after[0] == '}' && after[1..] == rest && [ms[0]] == ms
    ensures |ms| > 1 ==> after[0] == ',' && after[1..] == PrintMembers(ms[1..]) + rest && [ms[0]] + ms[1..] == ms
  {
    var tail := if |ms| == 1 then "}" else "," + PrintMembers(ms[1..]);
    after := tail + rest;
    Regroup(PrintStr(ms[0].key) + ":" + Print(ms[0].value), tail, rest);
    AfterFirst(tail, rest);
  }

  lemma {:induction false} ReadPrintedMembers(ms: seq<Member>, rest: string)
    requires ms != []
    requires forall i :: 0 <= i < |ms| ==> WellFormed(ms[i].value)
    ensures ReadMembers(PrintMembers(ms) + rest) == Some(Read(ms, rest))
    decreases ms, 2
  {
    var s := PrintMembers(ms) + rest;
    var after := MembersSplit(ms, rest);
    ReadPrintedMember(ms[0], after);
    ReadMembersStep(s, ms[0], after);
    if |ms| > 1 {
      ReadPrintedMembers(ms[1..], rest);
    }
  }

  /** Every well-formed value is recovered from its text, so two values with
      the same text are the same value. */
  lemma ParseInvertsPrint(v: Value)
    requires WellFormed(v)
    ensures Parse(Print(v)) == Some(v)
  {
    ReadPrinted(v, "");
    assert Print(v) + "" == Print(v);
  }

  // ---------------------------------------------------------------------
  // Readers that print numbers in a form of their own
  // ---------------------------------------------------------------------

  /** The value with every number's text replaced. */
  function Relexed(v: Value, f: string -> string): Value
    decreases v
  {
    match v
    case Number(lexeme) => Number(f(lexeme))
    case Arr(items) => Arr(RelexedItems(items, f))
    case Obj(ms) => Obj(RelexedMembers(ms, f))
    case _ => v
  }

  function RelexedItems(items: seq<Value>, f: string -> string): (r: seq<Value>)
    ensures |r| == |items|
    decreases items
  {
    if items == [] then [] else [Relexed(items[0], f)] + RelexedItems(items[1..], f)
  }

  function RelexedMembers(ms: seq<Member>, f: string -> string): (r: seq<Member>)
    ensures |r| == |ms|
    decreases ms
  {
    if ms == [] then [] else [Member(ms[0].key, Relexed(ms[0].value, f))] + RelexedMembers(ms[1..], f)
  }

  function RelexedOption(v: Option<Value>, f: string -> string): Option<Value> {
    if v.Some? then Some(Relexed(v.value, f)) else None
  }

  lemma {:induction false} LookupRelexed(ms: seq<Member>, key: string, f: string -> string)
    ensures Lookup(RelexedMembers(ms, f), key) == RelexedOption(Lookup(ms, key), f)
  {
    if ms != [] && ms[0].key != key {
      LookupRelexed(ms[1..], key, f);
      assert RelexedMembers(ms, f)[1..] == RelexedMembers(ms[1..], f);
    }
  }

  /** Such a reader sees the same fields. */
  lemma GetRelexed(v: Value, key: string, f: string -> string)
    ensures Get(Relexed(v, f), key) == RelexedOption(Get(v, key), f)
  {
    if v.Obj? {
      LookupRelexed(v.members, key, f);
    }
  }
}
