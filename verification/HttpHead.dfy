/** Writing a request head and reading it back. */
module HttpHead {
  import opened Wrappers
  import opened Text
  import opened HttpReader

  datatype Field = Field(name: string, value: string)

  /** A word: no white space in it. */
  predicate Word(s: string) {
    s != "" && forall i :: 0 <= i < |s| ==> !IsSpace(s[i])
  }

  /** A header name as clients write it, in lower case. */
  predicate Name(s: string) {
    Word(s) && Lower(s) == s && ':' !in s
  }

  predicate FieldValue(s: string) {
    Trim(s) == s && '\n' !in s
  }

  predicate Sendable(fields: seq<Field>) {
    && (forall i :: 0 <= i < |fields| ==>
          Name(fields[i].name) && FieldValue(fields[i].value) && fields[i].name != "transfer-encoding")
    && (forall i, j :: 0 <= i < j < |fields| && fields[i].name == fields[j].name ==>
          fields[i].name != "host" && fields[i].name != "content-length")
  }

  function LineOf(f: Field): string {
    f.name + ": " + f.value
  }

  function FieldsText(fields: seq<Field>): string {
    if fields == [] then "\r\n" else LineOf(fields[0]) + "\r\n" + FieldsText(fields[1..])
  }

  function HeadText(verb: string, target: string, fields: seq<Field>): string {
    verb + " " + target + " HTTP/1.1" + "\r\n" + FieldsText(fields)
  }

  /** The last value given for each name. */
  function MapOf(fields: seq<Field>): HeaderMap {
    if fields == [] then map[]
    else MapOf(fields[..|fields| - 1])[fields[|fields| - 1].name := fields[|fields| - 1].value]
  }

  // ---------------------------------------------------------------------
  // Lines and words
  // ---------------------------------------------------------------------

  lemma {:induction false} IndexOfFirst(s: string, c: char, i: nat)
    requires i < |s| && s[i] == c && c !in s[..i]
    ensures IndexOf(s, c) == Some(i)
  {
    if i > 0 {
      assert s[0] in s[..i];
      assert s[..i] == [s[0]] + s[1..][..i - 1];
      IndexOfFirst(s[1..], c, i - 1);
    }
  }

  lemma LineFirst(line: string, rest: string)
    requires '\n' !in line
    ensures Lines(line + "\r\n" + rest) == [line] + Lines(rest)
  {
    var s := line + "\r\n" + rest;
    assert s[..|line| + 1] == line + "\r";
    IndexOfFirst(s, '\n', |line| + 1);
    assert s[..|line|] == line && s[|line| + 2..] == rest;
  }

  function FieldLines(fields: seq<Field>): (r: seq<string>)
    ensures |r| == |fields|
    ensures forall i :: 0 <= i < |r| ==> r[i] == LineOf(fields[i])
  {
    seq(|fields|, i requires 0 <= i < |fields| => LineOf(fields[i]))
  }

  lemma NoBreak(s: string)
    requires Word(s)
    ensures '\n' !in s
  {
    assert IsSpace('\n');
  }

  lemma {:induction false} LinesOfFields(fields: seq<Field>)
    requires Sendable(fields)
    ensures Lines(FieldsText(fields)) == FieldLines(fields) + [""]
  {
    if fields == [] {
      LineFirst("", "");
      assert "" + "\r\n" + "" == "\r\n";
      assert Lines("") == [];
    } else {
      NoBreak(fields[0].name);
      LineFirst(LineOf(fields[0]), FieldsText(fields[1..]));
      LinesOfFields(fields[1..]);
      assert FieldLines(fields) == [LineOf(fields[0])] + FieldLines(fields[1..]);
    }
  }

  lemma {:induction false} WordEndsAt(w: string, rest: string)
    requires forall i :: 0 <= i < |w| ==> !IsSpace(w[i])
    requires rest == "" || IsSpace(rest[0])
    ensures WordEnd(w + rest) == |w|
  {
    if w == "" {
      assert w + rest == rest;
    } else {
      assert (w + rest)[1..] == w[1..] + rest;
      WordEndsAt(w[1..], rest);
    }
  }

  lemma WordFirst(w: string, rest: string)
    requires Word(w) && (rest == "" || IsSpace(rest[0]))
    ensures Words(w + rest) == [w] + Words(rest)
  {
    WordEndsAt(w, rest);
    assert (w + rest)[..|w|] == w && (w + rest)[|w|..] == rest;
  }

  lemma SpaceFirst(rest: string)
    ensures Words(" " + rest) == Words(rest)
  {
    assert (" " + rest)[1..] == rest;
  }

  lemma TwoWords(w: string, rest: string)
    requires Word(w)
    ensures Words(w + (" " + rest)) == [w] + Words(rest)
  {
    WordFirst(w, " " + rest);
    SpaceFirst(rest);
  }

  lemma Regroup(a: string, b: string, c: string)
    ensures a + " " + b + c == a + (" " + (b + c))
  {
  }

  lemma NoBreaks(verb: string, target: string)
    requires Word(verb) && Word(target)
    ensures '\n' !in verb + " " + target + " HTTP/1.1"
  {
    NoBreak(verb);
    NoBreak(target);
  }

  lemma ThreeWords(verb: string, target: string)
    requires Word(verb) && Word(target)
    ensures Words(verb + (" " + (target + (" " + "HTTP/1.1")))) == [verb, target, "HTTP/1.1"]
  {
    WordFirst("HTTP/1.1", "");
    assert "HTTP/1.1" + "" == "HTTP/1.1";
    TwoWords(target, "HTTP/1.1");
    TwoWords(verb, target + (" " + "HTTP/1.1"));
  }

  lemma RequestLineRead(verb: string, target: string)
    requires Word(verb) && Word(target)
    ensures RequestLine(verb + " " + target + " HTTP/1.1") == Some((verb, target))
  {
    ThreeWords(verb, target);
    assert " " + "HTTP/1.1" == " HTTP/1.1";
    Regroup(verb, target, " HTTP/1.1");
  }

  // ---------------------------------------------------------------------
  // Fields
  // ---------------------------------------------------------------------

  lemma TrimWord(w: string)
    requires Word(w)
    ensures Trim(w) == w
  {
  }

  lemma {:induction false} KeepsInk(s: string, i: nat)
    requires i < |s| && !IsSpace(s[i])
    ensures TrimEnd(s) != ""
  {
    if IsSpace(s[|s| - 1]) {
      KeepsInk(s[..|s| - 1], i);
    }
  }

  lemma FieldLineRead(headers: HeaderMap, f: Field)
    requires Name(f.name) && FieldValue(f.value) && f.name != "transfer-encoding"
    requires f.name in headers ==> f.name != "host" && f.name != "content-length"
    ensures AddHeader(headers, LineOf(f)) == Some(headers[f.name := f.value])
  {
    var line := LineOf(f);
    assert line[0] == f.name[0];
    KeepsInk(line, 0);
    assert line[..|f.name|] == f.name;
    IndexOfFirst(line, ':', |f.name|);
    TrimWord(f.name);
    assert line[|f.name| + 1..] == " " + f.value;
    assert (" " + f.value)[1..] == f.value;
  }

  lemma {:induction false} NamesOfMap(fields: seq<Field>, name: string)
    ensures name in MapOf(fields) <==> exists i :: 0 <= i < |fields| && fields[i].name == name
  {
    if fields != [] {
      NamesOfMap(fields[..|fields| - 1], name);
    }
  }

  lemma {:induction false} FieldsRead(fields: seq<Field>)
    requires Sendable(fields)
    ensures HeadersOf(FieldLines(fields)) == Some(MapOf(fields))
  {
    if fields != [] {
      var n := |fields| - 1;
      FieldsRead(fields[..n]);
      assert FieldLines(fields)[..n] == FieldLines(fields[..n]);
      NamesOfMap(fields[..n], fields[n].name);
      FieldLineRead(MapOf(fields[..n]), fields[n]);
    }
  }

  lemma BlankLineLast(lines: seq<string>)
    ensures HeadersOf(lines + [""]) == HeadersOf(lines)
  {
    assert (lines + [""])[..|lines|] == lines;
    assert Trim("") == "";
  }

  /** A head written with any request line and any fields the reader allows is
      read back as that: the words of the line, the last value of every name,
      and the declared length. */
  lemma HeadRoundTrip(verb: string, target: string, fields: seq<Field>, length: nat)
    requires Word(verb) && Word(target) && Sendable(fields)
    requires DeclaredLength(MapOf(fields)) == Some(length) && length <= MAX_BODY_BYTES
    ensures HeadOf(HeadText(verb, target, fields)) == Some(Head(verb, target, MapOf(fields), length))
  {
    var line := verb + " " + target + " HTTP/1.1";
    RequestLineRead(verb, target);
    NoBreaks(verb, target);
    LineFirst(line, FieldsText(fields));
    LinesOfFields(fields);
    var lines := Lines(HeadText(verb, target, fields));
    assert lines[0] == line && lines[1..] == FieldLines(fields) + [""];
    FieldsRead(fields);
    BlankLineLast(FieldLines(fields));
  }
}
