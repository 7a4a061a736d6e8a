/** The reader of one HTTP request from a socket that delivers it in chunks. */
module HttpReader {
  import opened Wrappers
  import opened Text
  import opened Utf8

  const MAX_HEADER_BYTES: nat := 16 * 1024
  const MAX_BODY_BYTES: nat := 64 * 1024
  const CHUNK_BYTES: nat := 1024

  /** In milliseconds. */
  const SOCKET_TIMEOUT: nat := 15_000

  // ---------------------------------------------------------------------
  // The socket
  // ---------------------------------------------------------------------

  /** What the peer does, and after how long. A peer with nothing more to do
      stalls. */
  datatype Event = Chunk(bytes: Bytes, took: nat) | Closed(took: nat) | Broken(took: nat)

  predicate Deliverable(script: seq<Event>) {
    forall i :: 0 <= i < |script| && script[i].Chunk? ==> 0 < |script[i].bytes| <= CHUNK_BYTES
  }

  /** The bytes of the stream, however they are cut. */
  function Stream(script: seq<Event>): Bytes {
    if script == [] || !script[0].Chunk? then [] else script[0].bytes + Stream(script[1..])
  }

  /** How long the events take. */
  function Took(script: seq<Event>): nat {
    if script == [] then 0 else Took(script[..|script| - 1]) + script[|script| - 1].took
  }

  /** A chunk comes within the timeout of a read begun at `now`. */
  predicate Comes(event: Event, now: nat, deadline: nat) {
    event.Chunk? && now < deadline && event.took <= SOCKET_TIMEOUT && now + event.took <= deadline
  }

  predicate ComesAt(script: seq<Event>, n: nat, start: nat, deadline: nat) {
    n < |script| && Comes(script[n], start + Took(script[..n]), deadline)
  }

  /** The first `n` events are chunks that come in time. */
  ghost predicate Prompt(script: seq<Event>, n: nat, start: nat, deadline: nat) {
    n <= |script| && forall j :: 0 <= j < n ==> ComesAt(script, j, start, deadline)
  }

  function Sent(script: seq<Event>, n: nat): Bytes
    requires n <= |script|
  {
    Stream(script[..n])
  }

  lemma {:induction false} StreamAppend(a: seq<Event>, b: seq<Event>)
    requires forall j :: 0 <= j < |a| ==> a[j].Chunk?
    ensures Stream(a + b) == Stream(a) + Stream(b)
  {
    if a == [] {
      assert a + b == b;
    } else {
      assert (a + b)[1..] == a[1..] + b;
      StreamAppend(a[1..], b);
      assert a[0].bytes + (Stream(a[1..]) + Stream(b)) == a[0].bytes + Stream(a[1..]) + Stream(b);
    }
  }

  lemma SentGrows(script: seq<Event>, start: nat, deadline: nat, i: nat, n: nat)
    requires i <= n && Prompt(script, n, start, deadline)
    ensures Sent(script, n) == Sent(script, i) + Stream(script[i..n])
  {
    forall j | 0 <= j < i
      ensures script[..i][j].Chunk?
    {
      assert ComesAt(script, j, start, deadline);
    }
    StreamAppend(script[..i], script[i..n]);
    assert script[..i] + script[i..n] == script[..n];
  }

  lemma SentNext(script: seq<Event>, start: nat, deadline: nat, n: nat)
    requires Prompt(script, n, start, deadline) && ComesAt(script, n, start, deadline)
    ensures Prompt(script, n + 1, start, deadline)
    ensures Sent(script, n + 1) == Sent(script, n) + script[n].bytes
    ensures Took(script[..n + 1]) == Took(script[..n]) + script[n].took
  {
    SentGrows(script, start, deadline, n, n + 1);
    assert script[n..n + 1] == [script[n]] && [script[n]][1..] == [];
    assert script[n].bytes + [] == script[n].bytes;
    assert script[..n + 1][..n] == script[..n];
  }

  lemma {:induction false} TookGrows(script: seq<Event>, i: nat, n: nat)
    requires i <= n <= |script|
    ensures Took(script[..i]) <= Took(script[..n])
    decreases n
  {
    if i < n {
      assert script[..n][..n - 1] == script[..n - 1];
      TookGrows(script, i, n - 1);
    }
  }

  datatype IoError = IoError

  class Connection {
    var script: seq<Event>
    var now: nat
    /** The peer closed or stalled. */
    var ended: bool
    ghost var received: Bytes

    ghost predicate Valid(stream: Bytes)
      reads this
    {
      Deliverable(script) && received + Stream(script) == stream
    }

    /** The first `n` events of `script`, begun at `start`, are behind. */
    ghost predicate At(script: seq<Event>, start: nat, n: nat)
      reads this
    {
      && n <= |script| && Deliverable(script) && this.script == script[n..]
      && now == start + Took(script[..n]) && received == Sent(script, n)
    }

    constructor (script: seq<Event>, now: nat)
      requires Deliverable(script)
      ensures Valid(Stream(script)) && received == [] && !ended
      ensures this.script == script && this.now == now
    {
      this.script, this.now, ended, received := script, now, false, [];
      assert [] + Stream(script) == Stream(script);
    }

    /** `read_within_deadline`. Each read's timeout is what is left of the
        deadline, at most the socket timeout. */
    method ReadWithinDeadline(deadline: nat, ghost stream: Bytes) returns (r: Result<Option<Bytes>, IoError>)
      requires Valid(stream) && !ended
      modifies this
      ensures Valid(stream) && now >= old(now)
      ensures old(now) <= deadline ==> now <= deadline
      ensures r.Ok? && r.value.Some? ==>
                received == old(received) + r.value.value && |r.value.value| <= CHUNK_BYTES
      ensures r.Ok? ==> (ended <==> r.value.None? || r.value.value == [])
      ensures r.Err? || r.value.None? ==> received == old(received)
      ensures r.Ok? && r.value.Some? && r.value.value != [] <==>
                old(script) != [] && Comes(old(script)[0], old(now), deadline)
      ensures r.Ok? && r.value.Some? && r.value.value != [] ==>
                && r.value.value == old(script)[0].bytes && script == old(script)[1..]
                && now == old(now) + old(script)[0].took
    {
      if now >= deadline {
        ended := true;
        return Ok(None);
      }
      var timeout := if deadline - now <= SOCKET_TIMEOUT then deadline - now else SOCKET_TIMEOUT;
      if script == [] || script[0].took > timeout {
        now, ended := now + timeout, true;
        return Ok(None);
      }
      now := now + script[0].took;
      match script[0]
      case Closed(_) =>
        ended := true;
        assert received + [] == received;
        r := Ok(Some([]));
      case Broken(_) =>
        r := Err(IoError);
      case Chunk(bytes, _) =>
        assert received + (bytes + Stream(script[1..])) == (received + bytes) + Stream(script[1..]);
        received, script := received + bytes, script[1..];
        r := Ok(Some(bytes));
    }
  }

  // ---------------------------------------------------------------------
  // The head
  // ---------------------------------------------------------------------

  /** An empty line, that is `\r\n\r\n`, ends just before index `i`. */
  predicate EmptyLineAt(bytes: Bytes, i: int) {
    4 <= i <= |bytes| && bytes[i - 4] == 13 && bytes[i - 3] == 10 && bytes[i - 2] == 13 && bytes[i - 1] == 10
  }

  function HeaderEndFrom(bytes: Bytes, from: nat): (r: Option<nat>)
    ensures r.Some? ==> from <= r.value && EmptyLineAt(bytes, r.value)
    ensures r.Some? ==> forall i :: from <= i < r.value ==> !EmptyLineAt(bytes, i)
    ensures r.None? ==> forall i :: from <= i ==> !EmptyLineAt(bytes, i)
    decreases |bytes| - from
  {
    if from > |bytes| then None
    else if EmptyLineAt(bytes, from) then Some(from)
    else HeaderEndFrom(bytes, from + 1)
  }

  /** The index just past the first empty line. */
  function HeaderEnd(bytes: Bytes): (r: Option<nat>)
    ensures r.Some? ==> EmptyLineAt(bytes, r.value) && forall i :: 0 <= i < r.value ==> !EmptyLineAt(bytes, i)
    ensures r.None? ==> forall i :: 0 <= i ==> !EmptyLineAt(bytes, i)
  {
    HeaderEndFrom(bytes, 0)
  }

  lemma EmptyLineStable(bytes: Bytes, more: Bytes, i: nat)
    requires i <= |bytes|
    ensures EmptyLineAt(bytes + more, i) <==> EmptyLineAt(bytes, i)
  {
  }

  lemma HeaderEndStable(bytes: Bytes, more: Bytes)
    requires HeaderEnd(bytes).Some?
    ensures HeaderEnd(bytes + more) == HeaderEnd(bytes)
  {
    forall i: nat | i <= |bytes|
      ensures EmptyLineAt(bytes + more, i) <==> EmptyLineAt(bytes, i)
    {
      EmptyLineStable(bytes, more, i);
    }
  }

  type HeaderMap = map<string, string>

  datatype Head = Head(verb: string, target: string, headers: HeaderMap, contentLength: nat)

  datatype HttpRequest = HttpRequest(verb: string, target: string, headers: HeaderMap, body: Bytes)

  function AddHeader(headers: HeaderMap, line: string): Option<HeaderMap> {
    if Trim(line) == "" then Some(headers)
    else
      match IndexOf(line, ':')
      case None => None
      case Some(i) =>
        var key := Lower(Trim(line[..i]));
        if key == "transfer-encoding" then None
        else if (key == "host" || key == "content-length") && key in headers then None
        else Some(headers[key := Trim(line[i + 1..])])
  }

  function HeadersOf(lines: seq<string>): Option<HeaderMap> {
    if lines == [] then Some(map[])
    else
      match HeadersOf(lines[..|lines| - 1])
      case Some(before) => AddHeader(before, lines[|lines| - 1])
      case None => None
  }

  lemma {:induction false} HeadersOfPrefix(lines: seq<string>, n: nat)
    requires n <= |lines| && HeadersOf(lines[..n]).None?
    ensures HeadersOf(lines).None?
    decreases |lines| - n
  {
    if n == |lines| {
      assert lines[..n] == lines;
    } else {
      assert lines[..n + 1][..n] == lines[..n];
      HeadersOfPrefix(lines, n + 1);
    }
  }

  method ReadHeaders(lines: seq<string>) returns (r: Option<HeaderMap>)
    ensures r == HeadersOf(lines)
  {
    var headers: HeaderMap := map[];
    for i := 0 to |lines|
      invariant HeadersOf(lines[..i]) == Some(headers)
    {
      assert lines[..i + 1][..i] == lines[..i];
      var added := AddHeader(headers, lines[i]);
      if added.None? {
        HeadersOfPrefix(lines, i + 1);
        return None;
      }
      headers := added.value;
    }
    assert lines[..|lines|] == lines;
    r := Some(headers);
  }

  function RequestLine(line: string): Option<(string, string)> {
    var words := Words(line);
    if |words| == 3 && "HTTP/" <= words[2] then Some((words[0], words[1])) else None
  }

  function DeclaredLength(headers: HeaderMap): Option<nat> {
    if "content-length" in headers then ParseUsize(headers["content-length"]) else Some(0)
  }

  function HeadOf(text: string): Option<Head> {
    var lines := Lines(text);
    if lines == [] then None
    else
      match (RequestLine(lines[0]), HeadersOf(lines[1..]))
      case (Some(line), Some(headers)) =>
        (match DeclaredLength(headers)
         case Some(n) => if n <= MAX_BODY_BYTES then Some(Head(line.0, line.1, headers, n)) else None
         case None => None)
      case _ => None
  }

  method ParseHead(text: string) returns (r: Option<Head>)
    ensures r == HeadOf(text)
  {
    var lines := Lines(text);
    if lines == [] {
      return None;
    }
    var words := Words(lines[0]);
    if |words| < 3 || !("HTTP/" <= words[2]) || |words| > 3 {
      return None;
    }
    var headers := ReadHeaders(lines[1..]);
    if headers.None? {
      return None;
    }
    var length: nat := 0;
    if "content-length" in headers.value {
      var parsed := ParseUsize(headers.value["content-length"]);
      if parsed.None? {
        return None;
      }
      length := parsed.value;
    }
    if length > MAX_BODY_BYTES {
      return None;
    }
    r := Some(Head(words[0], words[1], headers.value, length));
  }

  predicate Declares(line: string, key: string) {
    Trim(line) != "" && IndexOf(line, ':').Some? && Lower(Trim(line[..IndexOf(line, ':').value])) == key
  }

  predicate DeclaresAt(lines: seq<string>, i: int, key: string) {
    0 <= i < |lines| && Declares(lines[i], key)
  }

  lemma {:induction false} KeysDeclared(lines: seq<string>, key: string)
    requires HeadersOf(lines).Some?
    ensures key in HeadersOf(lines).value <==> exists i :: DeclaresAt(lines, i, key)
  {
    if lines != [] {
      var n := |lines| - 1;
      var before := lines[..n];
      KeysDeclared(before, key);
      if i :| DeclaresAt(lines, i, key) {
        assert i < n ==> DeclaresAt(before, i, key);
      }
      if i :| DeclaresAt(before, i, key) {
        assert DeclaresAt(lines, i, key);
      }
      assert Declares(lines[n], key) ==> DeclaresAt(lines, n, key);
    }
  }

  lemma AddedLine(headers: HeaderMap, line: string)
    requires AddHeader(headers, line).Some?
    ensures !Declares(line, "transfer-encoding")
    ensures "content-length" in headers ==> !Declares(line, "content-length")
  {
  }

  lemma DeclaredBefore(lines: seq<string>, i: int, key: string)
    requires lines != [] && i < |lines| - 1
    ensures DeclaresAt(lines, i, key) <==> DeclaresAt(lines[..|lines| - 1], i, key)
  {
  }

  /** An accepted head frames its body in one way only: no line declares a
      transfer encoding, and at most one a content length. */
  lemma {:induction false} LengthDeclaredOnce(lines: seq<string>, i: int, j: int)
    requires HeadersOf(lines).Some?
    ensures !DeclaresAt(lines, j, "transfer-encoding")
    ensures i < j && DeclaresAt(lines, i, "content-length") ==> !DeclaresAt(lines, j, "content-length")
  {
    if lines != [] {
      var n := |lines| - 1;
      if j < n {
        LengthDeclaredOnce(lines[..n], i, j);
        DeclaredBefore(lines, j, "transfer-encoding");
        DeclaredBefore(lines, j, "content-length");
      } else if j == n {
        KeysDeclared(lines[..n], "content-length");
        AddedLine(HeadersOf(lines[..n]).value, lines[n]);
      }
      if i < n {
        DeclaredBefore(lines, i, "content-length");
      }
    }
  }

  // ---------------------------------------------------------------------
  // The request
  // ---------------------------------------------------------------------

  /** The request a byte stream holds. `lossy` is the library's UTF-8 reading,
      with replacement characters. */
  function RequestOf(lossy: Bytes -> string, stream: Bytes): Option<HttpRequest> {
    match HeaderEnd(stream)
    case None => None
    case Some(end) =>
      (match HeadOf(lossy(stream[..end]))
       case None => None
       case Some(head) =>
         if |stream| - end < head.contentLength then None
         else Some(HttpRequest(head.verb, head.target, head.headers, stream[end..end + head.contentLength])))
  }

  /** Bytes behind a complete request do not change it. */
  lemma RequestStable(lossy: Bytes -> string, stream: Bytes, more: Bytes)
    requires RequestOf(lossy, stream).Some?
    ensures RequestOf(lossy, stream + more) == RequestOf(lossy, stream)
  {
    HeaderEndStable(stream, more);
    var end := HeaderEnd(stream).value;
    assert (stream + more)[..end] == stream[..end];
    var n := HeadOf(lossy(stream[..end])).value.contentLength;
    assert (stream + more)[end..end + n] == stream[end..end + n];
  }

  /** Chunk `j`, if the request was not complete without it, keeps within the
      bound of the part being read. */
  ghost predicate FitsAt(lossy: Bytes -> string, script: seq<Event>, j: nat)
    requires j < |script|
  {
    var before := Sent(script, j);
    var size := |Sent(script, j + 1)|;
    if HeaderEnd(before).None? then size <= MAX_HEADER_BYTES
    else RequestOf(lossy, before).None? ==> size - HeaderEnd(before).value <= MAX_BODY_BYTES
  }

  /** A complete request comes with the first `n` events, within the bounds and
      before the deadline. */
  ghost predicate Arrives(lossy: Bytes -> string, script: seq<Event>, start: nat, deadline: nat, n: nat) {
    && Prompt(script, n, start, deadline) && start + Took(script[..n]) < deadline
    && RequestOf(lossy, Sent(script, n)).Some?
    && forall j :: 0 <= j < n ==> FitsAt(lossy, script, j)
  }

  ghost predicate NeverArrives(lossy: Bytes -> string, script: seq<Event>, start: nat, deadline: nat) {
    forall n: nat :: !Arrives(lossy, script, start, deadline, n)
  }

  /** There is no complete request before one more event. */
  lemma NoneBefore(lossy: Bytes -> string, script: seq<Event>, start: nat, deadline: nat, i: nat, n: nat)
    requires Prompt(script, i, start, deadline) && RequestOf(lossy, Sent(script, i)).None? && n <= i
    ensures RequestOf(lossy, Sent(script, n)).None?
  {
    if RequestOf(lossy, Sent(script, n)).Some? {
      SentGrows(script, start, deadline, n, i);
      RequestStable(lossy, Sent(script, n), Stream(script[n..i]));
    }
  }

  /** A reader that needs another chunk and does not get one, or gets one too
      many bytes, was never going to have a request. */
  lemma CutOff(lossy: Bytes -> string, script: seq<Event>, start: nat, deadline: nat, i: nat)
    requires Prompt(script, i, start, deadline) && RequestOf(lossy, Sent(script, i)).None?
    requires !ComesAt(script, i, start, deadline) || !FitsAt(lossy, script, i)
    ensures NeverArrives(lossy, script, start, deadline)
  {
    forall n: nat
      ensures !Arrives(lossy, script, start, deadline, n)
    {
      if n <= i {
        NoneBefore(lossy, script, start, deadline, i, n);
      }
    }
  }

  lemma BadHead(lossy: Bytes -> string, script: seq<Event>, start: nat, deadline: nat, i: nat)
    requires Prompt(script, i, start, deadline) && HeaderEnd(Sent(script, i)).Some?
    requires HeadOf(lossy(Sent(script, i)[..HeaderEnd(Sent(script, i)).value])).None?
    ensures NeverArrives(lossy, script, start, deadline)
  {
    forall n: nat
      ensures !Arrives(lossy, script, start, deadline, n)
    {
      if n <= i {
        NoneBefore(lossy, script, start, deadline, i, n);
      } else if Prompt(script, n, start, deadline) {
        SentGrows(script, start, deadline, i, n);
        HeadThenBody(Sent(script, i), HeaderEnd(Sent(script, i)).value, Sent(script, n));
      }
    }
  }

  /** Without its last chunk there was no request yet. */
  ghost predicate NotSooner(lossy: Bytes -> string, script: seq<Event>, n: nat)
    requires n <= |script|
  {
    n == 0 || RequestOf(lossy, Sent(script, n - 1)).None?
  }

  /** The reader has needed every chunk it read, and all came in time and kept
      within the bounds. */
  ghost predicate SoFar(lossy: Bytes -> string, script: seq<Event>, start: nat, deadline: nat, n: nat) {
    && Prompt(script, n, start, deadline) && NotSooner(lossy, script, n)
    && forall j :: 0 <= j < n ==> FitsAt(lossy, script, j)
  }

  /** The head ends at `end` and asks for a body of `wanted` bytes. */
  ghost predicate Wants(lossy: Bytes -> string, received: Bytes, end: int, wanted: nat) {
    && HeaderEnd(received) == Some(end)
    && HeadOf(lossy(received[..end])).Some? && HeadOf(lossy(received[..end])).value.contentLength == wanted
  }

  lemma StillWants(lossy: Bytes -> string, received: Bytes, end: nat, wanted: nat)
    requires Wants(lossy, received, end, wanted) && |received| - end < wanted
    ensures RequestOf(lossy, received).None?
  {
  }

  lemma WantsAsMuch(lossy: Bytes -> string, received: Bytes, more: Bytes, end: nat, wanted: nat)
    requires Wants(lossy, received, end, wanted)
    ensures Wants(lossy, received + more, end, wanted)
  {
    HeadThenBody(received, end, received + more);
  }

  lemma TooLate(lossy: Bytes -> string, script: seq<Event>, start: nat, deadline: nat, i: nat)
    requires Prompt(script, i, start, deadline) && NotSooner(lossy, script, i)
    requires start + Took(script[..i]) >= deadline
    ensures NeverArrives(lossy, script, start, deadline)
  {
    forall n: nat
      ensures !Arrives(lossy, script, start, deadline, n)
    {
      if n < i {
        NoneBefore(lossy, script, start, deadline, i - 1, n);
      } else if n <= |script| {
        TookGrows(script, i, n);
      }
    }
  }

  /** Why no request came of what was received. */
  ghost predicate Refused(lossy: Bytes -> string, received: Bytes, ended: bool, late: bool) {
    || ended
    || late
    || (|received| > MAX_HEADER_BYTES && HeaderEnd(received[..|received| - CHUNK_BYTES]).None?)
    || (HeaderEnd(received).Some? && HeadOf(lossy(received[..HeaderEnd(received).value])).None?)
    || (HeaderEnd(received).Some? && |received| - HeaderEnd(received).value > MAX_BODY_BYTES)
  }

  /** Before the last chunk there was no empty line. */
  lemma NoEndBefore(before: Bytes, chunk: Bytes, n: nat)
    requires n <= |before| && HeaderEnd(before).None?
    ensures HeaderEnd((before + chunk)[..n]).None?
  {
    assert (before + chunk)[..n] == before[..n];
    assert before[..n] + before[n..] == before;
    forall i: nat | i <= n
      ensures EmptyLineAt(before[..n], i) <==> EmptyLineAt(before, i)
    {
      EmptyLineStable(before[..n], before[n..], i);
    }
  }

  /** One read of either loop; an empty read ends the request like none. */
  method NextChunk(conn: Connection, deadline: nat, ghost script: seq<Event>, ghost start: nat, ghost n: nat)
    returns (r: Result<Option<Bytes>, IoError>)
    requires conn.At(script, start, n) && conn.Valid(Stream(script)) && !conn.ended
    modifies conn
    ensures conn.Valid(Stream(script))
    ensures old(conn.now) <= deadline ==> conn.now <= deadline
    ensures r.Ok? && r.value.Some? ==>
              && ComesAt(script, n, start, deadline) && r.value.value == script[n].bytes
              && |r.value.value| <= CHUNK_BYTES && conn.received == old(conn.received) + r.value.value && !conn.ended
    ensures r.Ok? && r.value.Some? && Prompt(script, n, start, deadline) ==>
              Prompt(script, n + 1, start, deadline) && conn.At(script, start, n + 1)
    ensures r.Err? || r.value.None? ==>
              !ComesAt(script, n, start, deadline) && conn.received == old(conn.received) && (r.Ok? ==> conn.ended)
  {
    r := conn.ReadWithinDeadline(deadline, Stream(script));
    if r.Err? || r.value.None? || r.value.value == [] {
      return if r.Err? then r else Ok(None);
    }
    if Prompt(script, n, start, deadline) {
      SentNext(script, start, deadline, n);
    }
  }

  lemma SoFarNext(lossy: Bytes -> string, script: seq<Event>, start: nat, deadline: nat, n: nat)
    requires SoFar(lossy, script, start, deadline, n) && Prompt(script, n + 1, start, deadline)
    requires RequestOf(lossy, Sent(script, n)).None? && FitsAt(lossy, script, n)
    ensures SoFar(lossy, script, start, deadline, n + 1)
  {
  }

  /** Still without an empty line, the header loop takes a chunk or gives up. */
  lemma HeaderTurn(lossy: Bytes -> string, script: seq<Event>, start: nat, deadline: nat, n: nat)
    requires SoFar(lossy, script, start, deadline, n) && HeaderEnd(Sent(script, n)).None?
    ensures !ComesAt(script, n, start, deadline) ==> NeverArrives(lossy, script, start, deadline)
    ensures ComesAt(script, n, start, deadline) ==>
              if |Sent(script, n + 1)| <= MAX_HEADER_BYTES then SoFar(lossy, script, start, deadline, n + 1)
              else NeverArrives(lossy, script, start, deadline)
  {
    if !ComesAt(script, n, start, deadline) {
      CutOff(lossy, script, start, deadline, n);
    } else {
      SentNext(script, start, deadline, n);
      if FitsAt(lossy, script, n) {
        SoFarNext(lossy, script, start, deadline, n);
      } else {
        CutOff(lossy, script, start, deadline, n);
      }
    }
  }

  /** Still short of its body, the body loop takes a chunk or gives up. */
  lemma BodyTurn(
    lossy: Bytes -> string, script: seq<Event>, start: nat, deadline: nat, n: nat, end: nat, wanted: nat)
    requires SoFar(lossy, script, start, deadline, n)
    requires Wants(lossy, Sent(script, n), end, wanted) && |Sent(script, n)| - end < wanted
    ensures !ComesAt(script, n, start, deadline) ==> NeverArrives(lossy, script, start, deadline)
    ensures ComesAt(script, n, start, deadline) ==>
              && Wants(lossy, Sent(script, n + 1), end, wanted)
              && if |Sent(script, n + 1)| - end <= MAX_BODY_BYTES then SoFar(lossy, script, start, deadline, n + 1)
                 else NeverArrives(lossy, script, start, deadline)
  {
    StillWants(lossy, Sent(script, n), end, wanted);
    if !ComesAt(script, n, start, deadline) {
      CutOff(lossy, script, start, deadline, n);
    } else {
      SentNext(script, start, deadline, n);
      WantsAsMuch(lossy, Sent(script, n), script[n].bytes, end, wanted);
      if FitsAt(lossy, script, n) {
        SoFarNext(lossy, script, start, deadline, n);
      } else {
        CutOff(lossy, script, start, deadline, n);
      }
    }
  }

  /** The header loop: read until the buffer holds an empty line. */
  method ReadHeader(
    conn: Connection, deadline: nat, ghost lossy: Bytes -> string, ghost script: seq<Event>, ghost start: nat)
    returns (r: Result<Option<Bytes>, IoError>, ghost n: nat)
    requires conn.At(script, start, 0) && conn.Valid(Stream(script)) && !conn.ended
    modifies conn
    ensures conn.Valid(Stream(script))
    ensures old(conn.now) <= deadline ==> conn.now <= deadline
    ensures |conn.received| <= MAX_HEADER_BYTES + CHUNK_BYTES
    ensures r.Ok? && r.value.Some? ==>
              && r.value.value == conn.received && !conn.ended && |conn.received| <= MAX_HEADER_BYTES
              && HeaderEnd(conn.received).Some?
    ensures r.Ok? && r.value.None? ==>
              || conn.ended
              || (|conn.received| > MAX_HEADER_BYTES && HeaderEnd(conn.received[..|conn.received| - CHUNK_BYTES]).None?)
    ensures r.Ok? && r.value.Some? ==> conn.At(script, start, n) && SoFar(lossy, script, start, deadline, n)
    ensures r.Err? || r.value.None? ==> NeverArrives(lossy, script, start, deadline)
  {
    var buffer: Bytes := [];
    n := 0;
    while HeaderEnd(buffer).None?
      invariant conn.Valid(Stream(script)) && conn.received == buffer && !conn.ended && |buffer| <= MAX_HEADER_BYTES
      invariant conn.At(script, start, n) && SoFar(lossy, script, start, deadline, n)
      invariant old(conn.now) <= deadline ==> conn.now <= deadline
      decreases MAX_HEADER_BYTES - |buffer|
    {
      HeaderTurn(lossy, script, start, deadline, n);
      var got := NextChunk(conn, deadline, script, start, n);
      if got.Err? || got.value.None? {
        return got, n;
      }
      ghost var before := buffer;
      buffer := buffer + got.value.value;
      if |buffer| > MAX_HEADER_BYTES {
        NoEndBefore(before, got.value.value, |buffer| - CHUNK_BYTES);
        return Ok(None), n;
      }
      n := n + 1;
    }
    r := Ok(Some(buffer));
  }

  lemma Regroup(head: Bytes, body: Bytes, more: Bytes)
    ensures head + (body + more) == head + body + more
    ensures body <= body + more
  {
  }

  /** The body loop: read until `wanted` bytes are there. */
  method ReadBody(
    conn: Connection, deadline: nat, ghost head: Bytes, first: Bytes, wanted: nat, ghost lossy: Bytes -> string,
    ghost script: seq<Event>, ghost start: nat, ghost from: nat)
    returns (r: Result<Option<Bytes>, IoError>, ghost n: nat)
    requires conn.At(script, start, from) && SoFar(lossy, script, start, deadline, from)
    requires conn.Valid(Stream(script)) && !conn.ended && wanted <= MAX_BODY_BYTES && |first| <= MAX_BODY_BYTES
    requires conn.received == head + first && Wants(lossy, head + first, |head|, wanted)
    modifies conn
    ensures conn.Valid(Stream(script))
    ensures old(conn.now) <= deadline ==> conn.now <= deadline
    ensures head + first <= conn.received && |conn.received| <= |head| + MAX_BODY_BYTES + CHUNK_BYTES
    ensures r.Ok? && r.value.Some? ==>
              && !conn.ended && wanted <= |r.value.value| <= MAX_BODY_BYTES
              && conn.received == head + r.value.value
              && conn.At(script, start, n) && SoFar(lossy, script, start, deadline, n)
    ensures r.Ok? && r.value.None? ==> conn.ended || |conn.received| - |head| > MAX_BODY_BYTES
    ensures r.Err? || r.value.None? ==> NeverArrives(lossy, script, start, deadline)
  {
    var body := first;
    n := from;
    while |body| < wanted
      invariant conn.Valid(Stream(script)) && !conn.ended && |body| <= MAX_BODY_BYTES
      invariant conn.At(script, start, n) && SoFar(lossy, script, start, deadline, n)
      invariant conn.received == head + body && first <= body && Wants(lossy, head + body, |head|, wanted)
      invariant old(conn.now) <= deadline ==> conn.now <= deadline
      decreases wanted - |body|
    {
      BodyTurn(lossy, script, start, deadline, n, |head|, wanted);
      var got := NextChunk(conn, deadline, script, start, n);
      if got.Err? || got.value.None? {
        return got, n;
      }
      Regroup(head, body, got.value.value);
      body := body + got.value.value;
      if |body| > MAX_BODY_BYTES {
        return Ok(None), n;
      }
      n := n + 1;
    }
    r := Ok(Some(body));
  }

  lemma HeadThenBody(buffer: Bytes, end: nat, received: Bytes)
    requires HeaderEnd(buffer) == Some(end) && buffer <= received
    ensures HeaderEnd(received) == Some(end) && end <= |received| && received[..end] == buffer[..end]
  {
    HeaderEndStable(buffer, received[|buffer|..]);
    assert buffer + received[|buffer|..] == received;
  }

  lemma Assembled(lossy: Bytes -> string, received: Bytes, end: nat, head: Head, body: Bytes)
    requires HeaderEnd(received) == Some(end) && HeadOf(lossy(received[..end])) == Some(head)
    requires received == received[..end] + body && head.contentLength <= |body|
    ensures RequestOf(lossy, received)
         == Some(HttpRequest(head.verb, head.target, head.headers, body[..head.contentLength]))
  {
    assert received[end..end + head.contentLength] == body[..head.contentLength];
  }

  /** `read_http_request_until`. A request is accepted exactly when a complete
      one arrives within the bounds and in time; it is the one the byte stream
      holds, whatever the chunks; a refusal has a reason; no more than fixed
      numbers of bytes are read; and time never passes the deadline. */
  method ReadHttpRequestUntil(conn: Connection, deadline: nat, lossy: Bytes -> string, ghost stream: Bytes)
    returns (r: Result<Option<HttpRequest>, IoError>)
    requires conn.Valid(stream) && conn.received == [] && !conn.ended
    modifies conn
    ensures old(conn.now) <= deadline ==> conn.now <= deadline
    ensures |conn.received| <= MAX_HEADER_BYTES + MAX_BODY_BYTES + CHUNK_BYTES
    ensures conn.received <= stream
    ensures r.Ok? && r.value.Some? ==>
              r.value == RequestOf(lossy, stream) && r.value == RequestOf(lossy, conn.received) && conn.now < deadline
    ensures r.Ok? && r.value.None? ==> Refused(lossy, conn.received, conn.ended, conn.now >= deadline)
    ensures r.Ok? && r.value.Some? <==>
              exists n: nat :: Arrives(lossy, old(conn.script), old(conn.now), deadline, n)
  {
    ghost var script, start := conn.script, conn.now;
    assert [] + Stream(script) == Stream(script);
    var header, n := ReadHeader(conn, deadline, lossy, script, start);
    if header.Err? || header.value.None? {
      return if header.Err? then Err(header.error) else Ok(None);
    }
    var buffer := header.value.value;
    var end := HeaderEnd(buffer).value;
    var head := ParseHead(lossy(buffer[..end]));
    if head.None? {
      BadHead(lossy, script, start, deadline, n);
      return Ok(None);
    }
    var wanted := head.value.contentLength;
    assert buffer[..end] + buffer[end..] == buffer;
    var body, m := ReadBody(conn, deadline, buffer[..end], buffer[end..], wanted, lossy, script, start, n);
    HeadThenBody(buffer, end, conn.received);
    if body.Err? || body.value.None? {
      return if body.Err? then Err(body.error) else Ok(None);
    }
    if conn.now >= deadline {
      TooLate(lossy, script, start, deadline, m);
      return Ok(None);
    }
    Assembled(lossy, conn.received, end, head.value, body.value.value);
    RequestStable(lossy, conn.received, Stream(conn.script));
    assert Arrives(lossy, script, start, deadline, m);
    r := Ok(Some(HttpRequest(head.value.verb, head.value.target, head.value.headers, body.value.value[..wanted])));
  }

  /** A complete request whose head and body leave room for the rest of a chunk
      is within the bounds, however it is cut. */
  lemma PromptRequestArrives(lossy: Bytes -> string, script: seq<Event>, start: nat, deadline: nat, n: nat)
    requires Deliverable(script) && Prompt(script, n, start, deadline) && start + Took(script[..n]) < deadline
    requires RequestOf(lossy, Sent(script, n)).Some?
    requires HeaderEnd(Sent(script, n)).value + CHUNK_BYTES - 1 <= MAX_HEADER_BYTES
    requires |RequestOf(lossy, Sent(script, n)).value.body| + CHUNK_BYTES - 1 <= MAX_BODY_BYTES
    ensures Arrives(lossy, script, start, deadline, n)
  {
    forall j | 0 <= j < n
      ensures FitsAt(lossy, script, j)
    {
      ChunkFits(lossy, script, start, deadline, j, n);
    }
  }

  lemma ChunkFits(lossy: Bytes -> string, script: seq<Event>, start: nat, deadline: nat, j: nat, n: nat)
    requires Deliverable(script) && Prompt(script, n, start, deadline) && j < n
    requires RequestOf(lossy, Sent(script, n)).Some?
    requires HeaderEnd(Sent(script, n)).value + CHUNK_BYTES - 1 <= MAX_HEADER_BYTES
    requires |RequestOf(lossy, Sent(script, n)).value.body| + CHUNK_BYTES - 1 <= MAX_BODY_BYTES
    ensures FitsAt(lossy, script, j)
  {
    var before := Sent(script, j);
    var whole := Sent(script, n);
    var end := HeaderEnd(whole).value;
    assert ComesAt(script, j, start, deadline);
    SentNext(script, start, deadline, j);
    SentGrows(script, start, deadline, j, n);
    assert whole == before + Stream(script[j..n]);
    if HeaderEnd(before).None? {
      if end <= |before| {
        EmptyLineStable(before, Stream(script[j..n]), end);
      }
    } else {
      HeaderEndStable(before, Stream(script[j..n]));
      assert whole[..end] == before[..end];
    }
  }
}
