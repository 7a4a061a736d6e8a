/** The stdio frame codec: a 4-byte big-endian length and that many UTF-8 bytes.

    `Source` is a byte stream whose `Read` calls follow an arbitrary script of
    short reads, interrupts and failures; the readers of both languages are
    methods over it, proved against functions of the bytes alone. */
module Framing {
  import opened Wrappers
  import opened Utf8

  const MAX_FRAME: nat := 8 * 1024 * 1024

  datatype FrameError = Eof | Truncated | TooLarge(size: nat) | Io | BadUtf8

  // ---------------------------------------------------------------------
  // The codec as functions of bytes
  // ---------------------------------------------------------------------

  function EncodeLength(n: nat): (r: Bytes)
    requires n < 0x1_0000_0000
    ensures |r| == 4
  {
    [n / 0x100_0000, n / 0x1_0000 % 0x100, n / 0x100 % 0x100, n % 0x100]
  }

  function DecodeLength(b: Bytes): (n: nat)
    requires |b| == 4
    ensures n < 0x1_0000_0000
  {
    Join(Join(Join(b[0], b[1]), b[2]), b[3])
  }

  function Join(high: nat, b: Byte): nat {
    high * 0x100 + b
  }

  predicate Fits(payload: string) {
    |Encode(payload)| <= MAX_FRAME
  }

  /** The bytes of one frame. */
  function Frame(payload: string): (r: Bytes)
    requires Fits(payload)
    ensures |r| == 4 + |Encode(payload)|
  {
    EncodeLength(|Encode(payload)|) + Encode(payload)
  }

  predicate AllFit(payloads: seq<string>) {
    forall i :: 0 <= i < |payloads| ==> Fits(payloads[i])
  }

  function FrameAll(payloads: seq<string>): Bytes
    requires AllFit(payloads)
  {
    if payloads == [] then [] else Frame(payloads[0]) + FrameAll(payloads[1..])
  }

  datatype Front = Front(payload: string, rest: Bytes)

  /** What reading `length` bytes into a buffer reports when the stream holds
      `b` and is then closed. */
  function FillOutcome(b: Bytes, length: nat): Result<(), FrameError> {
    if |b| >= length then Ok(())
    else if b == [] then Err(Eof)
    else Err(Truncated)
  }

  function Payload(b: Bytes, length: nat): Result<Front, FrameError>
    requires length <= |b|
  {
    match Decode(b[..length])
    case None => Err(BadUtf8)
    case Some(text) => Ok(Front(text, b[length..]))
  }

  /** The body of a frame in Rust: the routine that fills the length prefix is
      reused, so a missing body is reported as a missing prefix would be. */
  function RustBody(length: nat, b: Bytes): Result<Front, FrameError> {
    if length > MAX_FRAME then Err(TooLarge(length))
    else if FillOutcome(b, length).Err? then Err(FillOutcome(b, length).error)
    else Payload(b, length)
  }

  /** The body of a frame in Python: end of stream inside it is a truncation. */
  function PythonBody(length: nat, b: Bytes): Result<Front, FrameError> {
    if length > MAX_FRAME then Err(TooLarge(length))
    else if |b| < length then Err(Truncated)
    else Payload(b, length)
  }

  /** `read_frame` on a closed stream holding `b`. */
  function RustFront(b: Bytes): Result<Front, FrameError> {
    if FillOutcome(b, 4).Err? then Err(FillOutcome(b, 4).error)
    else RustBody(DecodeLength(b[..4]), b[4..])
  }

  function PythonFront(b: Bytes): Result<Front, FrameError> {
    if FillOutcome(b, 4).Err? then Err(FillOutcome(b, 4).error)
    else PythonBody(DecodeLength(b[..4]), b[4..])
  }

  datatype Stream = Stream(payloads: seq<string>, end: FrameError)

  lemma FrontShrinks(b: Bytes)
    ensures RustFront(b).Ok? ==> |RustFront(b).value.rest| < |b|
    ensures PythonFront(b).Ok? ==> |PythonFront(b).value.rest| < |b|
  {
  }

  /** Reading frames until the first error. */
  function RustStream(b: Bytes): Stream
    decreases |b|
  {
    match RustFront(b)
    case Err(e) => Stream([], e)
    case Ok(front) =>
      FrontShrinks(b);
      var tail := RustStream(front.rest);
      Stream([front.payload] + tail.payloads, tail.end)
  }

  function PythonStream(b: Bytes): Stream
    decreases |b|
  {
    match PythonFront(b)
    case Err(e) => Stream([], e)
    case Ok(front) =>
      FrontShrinks(b);
      var tail := PythonStream(front.rest);
      Stream([front.payload] + tail.payloads, tail.end)
  }

  // ---------------------------------------------------------------------
  // Round trips
  // ---------------------------------------------------------------------

  lemma JoinSplit(n: nat)
    ensures Join(n / 0x100, n % 0x100) == n
  {
  }

  lemma SplitJoin(high: nat, b: Byte)
    ensures Join(high, b) / 0x100 == high && Join(high, b) % 0x100 == b
  {
  }

  lemma LengthRoundTrip(n: nat)
    requires n < 0x1_0000_0000
    ensures DecodeLength(EncodeLength(n)) == n
  {
    JoinSplit(n);
    JoinSplit(n / 0x100);
    JoinSplit(n / 0x1_0000);
    assert n / 0x100 / 0x100 == n / 0x1_0000;
    assert n / 0x1_0000 / 0x100 == n / 0x100_0000;
  }

  lemma LengthUnique(b: Bytes)
    requires |b| == 4
    ensures EncodeLength(DecodeLength(b)) == b
  {
    var x1 := Join(b[0], b[1]);
    var x2 := Join(x1, b[2]);
    SplitJoin(b[0], b[1]);
    SplitJoin(x1, b[2]);
    SplitJoin(x2, b[3]);
    var n := DecodeLength(b);
    assert n / 0x100 / 0x100 == n / 0x1_0000;
    assert n / 0x1_0000 / 0x100 == n / 0x100_0000;
  }

  lemma HeaderFirst(header: Bytes, b: Bytes)
    requires |header| == 4
    ensures (header + b)[..4] == header && (header + b)[4..] == b
  {
  }

  lemma BodyOfFrame(payload: string, rest: Bytes)
    requires Fits(payload)
    ensures RustBody(|Encode(payload)|, Encode(payload) + rest) == Ok(Front(payload, rest))
    ensures PythonBody(|Encode(payload)|, Encode(payload) + rest) == Ok(Front(payload, rest))
  {
    var body := Encode(payload);
    assert (body + rest)[..|body|] == body;
    assert (body + rest)[|body|..] == rest;
    DecodeInvertsEncode(payload);
  }

  /** A frame at the front of a stream is read back whole, and what follows it
      is left untouched, in both languages. */
  lemma FrontOfFrame(payload: string, rest: Bytes)
    requires Fits(payload)
    ensures RustFront(Frame(payload) + rest) == Ok(Front(payload, rest))
    ensures PythonFront(Frame(payload) + rest) == Ok(Front(payload, rest))
  {
    var body := Encode(payload);
    var header := EncodeLength(|body|);
    LengthRoundTrip(|body|);
    assert Frame(payload) + rest == header + (body + rest);
    HeaderFirst(header, body + rest);
    BodyOfFrame(payload, rest);
  }

  lemma OnlyEncodedBodies(length: nat, b: Bytes)
    requires RustBody(length, b).Ok?
    ensures var front := RustBody(length, b).value;
            && length <= MAX_FRAME && |Encode(front.payload)| == length
            && b == Encode(front.payload) + front.rest
  {
    OnlyEncodingsDecode(b[..length]);
    assert b == b[..length] + b[length..];
  }

  /** Only the writer's own bytes are read as a payload. */
  lemma OnlyFramesAreRead(b: Bytes)
    requires RustFront(b).Ok?
    ensures var front := RustFront(b).value;
            Fits(front.payload) && b == Frame(front.payload) + front.rest
  {
    var header, body := b[..4], b[4..];
    LengthUnique(header);
    OnlyEncodedBodies(DecodeLength(header), body);
    assert b == header + body;
  }

  /** Both languages read back every list of payloads that was written. */
  lemma {:induction false} StreamRoundTrip(payloads: seq<string>)
    requires AllFit(payloads)
    ensures RustStream(FrameAll(payloads)) == Stream(payloads, Eof)
    ensures PythonStream(FrameAll(payloads)) == Stream(payloads, Eof)
  {
    if payloads != [] {
      FrontOfFrame(payloads[0], FrameAll(payloads[1..]));
      StreamRoundTrip(payloads[1..]);
      assert [payloads[0]] + payloads[1..] == payloads;
    }
  }

  /** A length prefix announcing a non-empty body, and nothing after it. */
  predicate BareHeader(b: Bytes) {
    |b| == 4 && 0 < DecodeLength(b) <= MAX_FRAME
  }

  /** `Eof` was meant to say that the stream ended at a frame boundary. The
      Rust reader also says it after a bare header, and only then. */
  lemma RustEofExactly(b: Bytes)
    ensures RustFront(b) == Err(Eof) <==> b == [] || BareHeader(b)
  {
    if |b| == 4 {
      assert b[..4] == b;
    }
  }

  lemma PythonEofExactly(b: Bytes)
    ensures PythonFront(b) == Err(Eof) <==> b == []
  {
  }

  /** The two readers disagree on a bare header and nowhere else. */
  lemma ReadersDisagreeExactly(b: Bytes)
    ensures RustFront(b) != PythonFront(b) <==> BareHeader(b)
  {
    if |b| == 4 {
      assert b[..4] == b;
    }
  }

  /** A concrete stream on which the Rust reader's `Eof` is not a boundary. */
  lemma BareHeaderWitness()
    ensures RustFront([0, 0, 0, 5]) == Err(Eof)
    ensures PythonFront([0, 0, 0, 5]) == Err(Truncated)
  {
    var b: Bytes := [0, 0, 0, 5];
    assert b[..4] == b;
  }

  /** A frame cut short never yields a payload: both readers report `Eof` or
      `Truncated`, and which one depends only on where the cut is. */
  lemma CutFrameYieldsNothing(payload: string, cut: nat)
    requires Fits(payload) && cut < |Frame(payload)|
    ensures RustFront(Frame(payload)[..cut]) == Err(if cut == 0 || cut == 4 then Eof else Truncated)
    ensures PythonFront(Frame(payload)[..cut]) == Err(if cut == 0 then Eof else Truncated)
  {
    var body := Encode(payload);
    var b := Frame(payload)[..cut];
    if cut >= 4 {
      assert b[..4] == EncodeLength(|body|);
      LengthRoundTrip(|body|);
    }
  }

  /** What any byte stream decodes to: its frames in order, then a tail that
      explains the error that ended the reading. */
  lemma {:induction false} StreamExplained(b: Bytes) returns (tail: Bytes)
    ensures var s := RustStream(b);
            && AllFit(s.payloads)
            && b == FrameAll(s.payloads) + tail
            && RustFront(tail) == Err(s.end)
    ensures RustStream(b).end == Eof ==> tail == [] || BareHeader(tail)
    decreases |b|
  {
    match RustFront(b)
    case Err(e) =>
      tail := b;
      RustEofExactly(b);
    case Ok(front) =>
      FrontShrinks(b);
      OnlyFramesAreRead(b);
      tail := StreamExplained(front.rest);
      FrameAllFirst(front.payload, RustStream(front.rest).payloads);
      Regroup(Frame(front.payload), FrameAll(RustStream(front.rest).payloads), tail);
  }

  lemma FrameAllFirst(first: string, payloads: seq<string>)
    requires Fits(first) && AllFit(payloads)
    ensures AllFit([first] + payloads)
    ensures FrameAll([first] + payloads) == Frame(first) + FrameAll(payloads)
  {
    assert ([first] + payloads)[1..] == payloads;
  }

  lemma {:induction false} FrameAllAppend(payloads: seq<string>, last: string)
    requires AllFit(payloads) && Fits(last)
    ensures FrameAll(payloads + [last]) == FrameAll(payloads) + Frame(last)
  {
    if payloads == [] {
      assert payloads + [last] == [last];
    } else {
      assert (payloads + [last])[1..] == payloads[1..] + [last];
      FrameAllAppend(payloads[1..], last);
    }
  }

  /** What a whole stream decodes to when `done` has been read from it and
      `rest` is still to come. */
  ghost function After(done: seq<string>, rest: Bytes): Stream {
    Stream(done + RustStream(rest).payloads, RustStream(rest).end)
  }

  lemma AfterStep(done: seq<string>, rest: Bytes)
    ensures match RustFront(rest)
            case Err(e) => After(done, rest) == Stream(done, e)
            case Ok(front) => After(done, rest) == After(done + [front.payload], front.rest)
  {
    match RustFront(rest)
    case Err(e) => assert done + [] == done;
    case Ok(front) =>
      var more := RustStream(front.rest).payloads;
      assert done + ([front.payload] + more) == (done + [front.payload]) + more;
  }

  lemma AfterFrame(done: seq<string>, payload: string, rest: Bytes)
    requires Fits(payload)
    ensures After(done, Frame(payload) + rest) == After(done + [payload], rest)
  {
    FrontOfFrame(payload, rest);
    AfterStep(done, Frame(payload) + rest);
  }

  lemma Regroup(a: Bytes, b: Bytes, c: Bytes)
    ensures (a + b) + c == a + (b + c)
  {
  }

  lemma {:induction false} AfterFrames(done: seq<string>, payloads: seq<string>, tail: Bytes)
    requires AllFit(payloads)
    ensures After(done, FrameAll(payloads) + tail) == After(done + payloads, tail)
    decreases |payloads|
  {
    if payloads == [] {
      assert FrameAll(payloads) + tail == tail && done + payloads == done;
    } else {
      Regroup(Frame(payloads[0]), FrameAll(payloads[1..]), tail);
      AfterFrame(done, payloads[0], FrameAll(payloads[1..]) + tail);
      AfterFrames(done + [payloads[0]], payloads[1..], tail);
      assert (done + [payloads[0]]) + payloads[1..] == done + payloads;
    }
  }

  /** Frames followed by a tail that holds no further frame. */
  lemma StreamOfFrames(payloads: seq<string>, tail: Bytes)
    requires AllFit(payloads) && RustFront(tail).Err?
    ensures RustStream(FrameAll(payloads) + tail) == Stream(payloads, RustFront(tail).error)
  {
    AfterFrames([], payloads, tail);
    AfterStep(payloads, tail);
    var whole := RustStream(FrameAll(payloads) + tail);
    assert [] + whole.payloads == whole.payloads && [] + payloads == payloads;
  }

  // ---------------------------------------------------------------------
  // Open streams
  // ---------------------------------------------------------------------

  /** Whether `read_frame` can return on a stream that holds `b` so far: it has
      all the bytes it asked for, or no more will come. */
  predicate Decided(b: Bytes, closed: bool) {
    closed || (|b| >= 4 && (DecodeLength(b[..4]) > MAX_FRAME || |b| >= 4 + DecodeLength(b[..4])))
  }

  lemma BodyIsFinal(length: nat, b: Bytes, more: Bytes)
    requires length > MAX_FRAME || |b| >= length
    ensures match RustBody(length, b)
            case Ok(front) => RustBody(length, b + more) == Ok(Front(front.payload, front.rest + more))
            case Err(e) => RustBody(length, b + more) == Err(e) && e != Eof && e != Truncated
  {
    if length <= MAX_FRAME {
      assert (b + more)[..length] == b[..length];
      assert (b + more)[length..] == b[length..] + more;
    }
  }

  /** Bytes that arrive later cannot change what an early return reported. */
  lemma EarlyReturnIsFinal(b: Bytes, more: Bytes)
    requires Decided(b, false)
    ensures match RustFront(b)
            case Ok(front) => RustFront(b + more) == Ok(Front(front.payload, front.rest + more))
            case Err(e) => RustFront(b + more) == Err(e) && e != Eof && e != Truncated
  {
    assert b == b[..4] + b[4..];
    assert b + more == b[..4] + (b[4..] + more);
    HeaderFirst(b[..4], b[4..] + more);
    BodyIsFinal(DecodeLength(b[..4]), b[4..], more);
  }

  /** An error other than running out of bytes is reported at once. */
  lemma FaultIsDecided(b: Bytes)
    requires RustFront(b).Err? && RustFront(b).error != Eof && RustFront(b).error != Truncated
    ensures Decided(b, false)
  {
  }

  // ---------------------------------------------------------------------
  // The readers and the writer as loops over a stream
  // ---------------------------------------------------------------------

  /** What one `read` call will do: hand over at most this many bytes (at least
      one unless the stream has ended), be interrupted, find nothing yet on a
      non-blocking descriptor, or fail. */
  datatype ReadEvent = Deliver(count: nat) | Interrupt | NotReady | Fail

  datatype ReadOutcome = Got(data: Bytes) | Interrupted | WouldBlock | Failed

  /** Nothing but short reads and interrupts. */
  predicate Quiet(script: seq<ReadEvent>) {
    forall i :: 0 <= i < |script| ==> script[i].Deliver? || script[i].Interrupt?
  }

  class Source {
    var rest: Bytes
    var script: seq<ReadEvent>

    constructor (data: Bytes, script: seq<ReadEvent>)
      ensures rest == data && this.script == script
    {
      rest := data;
      this.script := script;
    }

    method Read(want: nat) returns (r: ReadOutcome)
      requires want > 0
      modifies this
      ensures script == if old(script) == [] then [] else old(script)[1..]
      ensures r.Got? ==>
                && |r.data| <= want && |r.data| <= |old(rest)|
                && r.data == old(rest)[..|r.data|] && rest == old(rest)[|r.data|..]
                && (r.data == [] <==> old(rest) == [])
      ensures !r.Got? ==> rest == old(rest) && old(script) != []
      ensures r.Interrupted? ==> old(script)[0].Interrupt?
      ensures r.WouldBlock? ==> old(script)[0].NotReady?
      ensures r.Failed? ==> old(script)[0].Fail?
    {
      var event := if script == [] then Deliver(want) else script[0];
      script := if script == [] then [] else script[1..];
      match event
      case Interrupt => r := Interrupted;
      case NotReady => r := WouldBlock;
      case Fail => r := Failed;
      case Deliver(count) =>
        var n := if count == 0 then 1 else count;
        n := if n > want then want else n;
        n := if n > |rest| then |rest| else n;
        r := Got(rest[..n]);
        rest := rest[n..];
    }
  }

  /** `read_exact_or_eof`. */
  method ReadExactOrEof(src: Source, buf: array<Byte>) returns (r: Result<(), FrameError>)
    modifies src, buf
    ensures r == FillOutcome(old(src.rest), buf.Length) || (r == Err(Io) && !Quiet(old(src.script)))
    ensures r.Ok? ==> buf.Length <= |old(src.rest)|
                      && buf[..] == old(src.rest)[..buf.Length] && src.rest == old(src.rest)[buf.Length..]
    ensures Quiet(old(src.script)) ==> Quiet(src.script)
  {
    var filled: nat := 0;
    while filled < buf.Length
      invariant filled <= buf.Length && filled <= |old(src.rest)|
      invariant forall i :: 0 <= i < filled ==> buf[i] == old(src.rest)[i]
      invariant src.rest == old(src.rest)[filled..]
      invariant Quiet(old(src.script)) ==> Quiet(src.script)
      decreases |src.script|, buf.Length - filled
    {
      var got := src.Read(buf.Length - filled);
      match got
      case Got(data) =>
        if data == [] {
          return Err(if filled == 0 then Eof else Truncated);
        }
        forall i | 0 <= i < |data| {
          buf[filled + i] := data[i];
        }
        filled := filled + |data|;
      case Interrupted =>
      case WouldBlock => return Err(Io);
      case Failed => return Err(Io);
    }
    r := Ok(());
  }

  /** `read_frame` in Rust. */
  method ReadFrame(src: Source) returns (r: Result<string, FrameError>)
    modifies src
    ensures match RustFront(old(src.rest))
            case Ok(front) =>
              (r == Ok(front.payload) && src.rest == front.rest) || (r == Err(Io) && !Quiet(old(src.script)))
            case Err(e) => r == Err(e) || (r == Err(Io) && !Quiet(old(src.script)))
    ensures Quiet(old(src.script)) ==> Quiet(src.script)
  {
    ghost var b := src.rest;
    var prefix := new Byte[4];
    var head := ReadExactOrEof(src, prefix);
    if head.Err? {
      return Err(head.error);
    }
    var length := DecodeLength(prefix[..]);
    if length > MAX_FRAME {
      return Err(TooLarge(length));
    }
    var buf := new Byte[length];
    var body := ReadExactOrEof(src, buf);
    if body.Err? {
      return Err(body.error);
    }
    assert b[4..][length..] == src.rest;
    match Decode(buf[..])
    case None => r := Err(BadUtf8);
    case Some(text) => r := Ok(text);
  }

  ghost predicate Written(done: seq<string>, rest: Bytes, whole: Bytes) {
    AllFit(done) && whole == FrameAll(done) + rest
  }

  lemma WrittenStep(done: seq<string>, rest: Bytes, whole: Bytes)
    requires Written(done, rest, whole) && RustFront(rest).Ok?
    ensures Written(done + [RustFront(rest).value.payload], RustFront(rest).value.rest, whole)
  {
    var front := RustFront(rest).value;
    OnlyFramesAreRead(rest);
    FrameAllAppend(done, front.payload);
    Regroup(FrameAll(done), Frame(front.payload), front.rest);
  }

  /** Reading frames until the first error, as the host's reader thread does. */
  method ReadFrames(src: Source) returns (payloads: seq<string>, end: FrameError)
    modifies src
    ensures Quiet(old(src.script)) ==> Stream(payloads, end) == RustStream(old(src.rest))
    ensures exists unread :: Written(payloads, unread, old(src.rest))
  {
    payloads := [];
    ghost var whole := src.rest;
    assert [] + RustStream(whole).payloads == RustStream(whole).payloads;
    while true
      invariant Written(payloads, src.rest, whole)
      invariant Quiet(old(src.script)) ==> Quiet(src.script)
      invariant RustStream(whole) == After(payloads, src.rest)
      decreases |src.rest|
    {
      ghost var before := src.rest;
      FrontShrinks(before);
      AfterStep(payloads, before);
      var frame := ReadFrame(src);
      match frame
      case Err(e) =>
        end := e;
        return;
      case Ok(payload) =>
        WrittenStep(payloads, before, whole);
        payloads := payloads + [payload];
    }
  }

  /** `_read_exact` in Python, where a read that finds nothing yet is treated as
      the end of the stream. */
  method PythonReadExact(src: Source, length: nat, boundary: bool) returns (r: Result<Bytes, FrameError>)
    modifies src
    ensures Quiet(old(src.script)) ==>
              match r
              case Ok(data) =>
                length <= |old(src.rest)| && data == old(src.rest)[..length] && src.rest == old(src.rest)[length..]
              case Err(e) =>
                |old(src.rest)| < length && e == (if boundary && old(src.rest) == [] then Eof else Truncated)
    ensures Quiet(old(src.script)) ==> Quiet(src.script)
    ensures r.Ok? ==> |r.value| == length
  {
    var chunks: Bytes := [];
    while |chunks| < length
      invariant |chunks| <= length && |chunks| <= |old(src.rest)|
      invariant chunks == old(src.rest)[..|chunks|]
      invariant src.rest == old(src.rest)[|chunks|..]
      invariant Quiet(old(src.script)) ==> Quiet(src.script)
      decreases |src.script|, length - |chunks|
    {
      var got := src.Read(length - |chunks|);
      match got
      case Interrupted =>
      case Failed => return Err(Io);
      case WouldBlock => return Err(if boundary && chunks == [] then Eof else Truncated);
      case Got(data) =>
        if data == [] {
          return Err(if boundary && chunks == [] then Eof else Truncated);
        }
        chunks := chunks + data;
    }
    r := Ok(chunks);
  }

  /** `read_frame` in Python. */
  method PythonReadFrame(src: Source) returns (r: Result<string, FrameError>)
    modifies src
    ensures Quiet(old(src.script)) ==>
              match PythonFront(old(src.rest))
              case Ok(front) => r == Ok(front.payload) && src.rest == front.rest
              case Err(e) => r == Err(e)
    ensures Quiet(old(src.script)) ==> Quiet(src.script)
  {
    ghost var b := src.rest;
    var prefix := PythonReadExact(src, 4, true);
    if prefix.Err? {
      return Err(prefix.error);
    }
    var length := DecodeLength(prefix.value);
    if length > MAX_FRAME {
      return Err(TooLarge(length));
    }
    var payload: Bytes := [];
    if length != 0 {
      var body := PythonReadExact(src, length, false);
      if body.Err? {
        return Err(body.error);
      }
      payload := body.value;
    }
    assert Quiet(old(src.script)) ==> b[4..][length..] == src.rest && payload == b[4..][..length];
    match Decode(payload)
    case None => r := Err(BadUtf8);
    case Some(text) => r := Ok(text);
  }

  /** A pipe that accepts `room` more bytes and then breaks. */
  class Sink {
    var written: Bytes
    var room: nat

    constructor (room: nat)
      ensures written == [] && this.room == room
    {
      written := [];
      this.room := room;
    }

    method WriteAll(data: Bytes) returns (ok: bool)
      modifies this
      ensures ok == (|data| <= old(room))
      ensures ok ==> written == old(written) + data && room == old(room) - |data|
      ensures !ok ==> written == old(written) + data[..old(room)] && room == 0
    {
      ok := |data| <= room;
      if ok {
        written, room := written + data, room - |data|;
      } else {
        written, room := written + data[..room], 0;
      }
    }
  }

  /** `write_frame`: the whole frame, or nothing when it is too large, or a
      strict prefix of it when the pipe breaks (which no reader takes for a
      payload, by `CutFrameYieldsNothing`). */
  method WriteFrame(w: Sink, payload: string) returns (r: Result<(), FrameError>)
    modifies w
    ensures !Fits(payload) ==> r == Err(TooLarge(|Encode(payload)|))
    ensures !Fits(payload) ==> w.written == old(w.written) && w.room == old(w.room)
    ensures Fits(payload) ==>
              if |Frame(payload)| <= old(w.room)
              then r == Ok(()) && w.written == old(w.written) + Frame(payload)
              else r == Err(Io) && w.written == old(w.written) + Frame(payload)[..old(w.room)]
  {
    var bytes := Encode(payload);
    if |bytes| > MAX_FRAME {
      return Err(TooLarge(|bytes|));
    }
    var ok := w.WriteAll(EncodeLength(|bytes|));
    if !ok {
      assert Frame(payload)[..old(w.room)] == EncodeLength(|bytes|)[..old(w.room)];
      return Err(Io);
    }
    ok := w.WriteAll(bytes);
    assert old(w.written) + EncodeLength(|bytes|) + bytes == old(w.written) + Frame(payload);
    if !ok {
      assert Frame(payload)[..old(w.room)] == EncodeLength(|bytes|) + bytes[..old(w.room) - 4];
      return Err(Io);
    }
    r := Ok(());
  }
}
