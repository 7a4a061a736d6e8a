/** One discover run as a step system: the plugin writes bytes and exits, the
    reader thread moves frames into a bounded queue, the host drains the queue
    under a deadline and a cancellation token, and the clock moves, in any
    order. */
module HostRun {
  import opened Wrappers
  import opened Json
  import opened Domain
  import opened Framing
  import opened Spool
  import opened Text
  import Utf8

  type Bytes = Utf8.Bytes

  const QUEUE_SLOTS: nat := 16
  const PROTOCOL_VERSION := 1
  const RECORD_SCHEMA_VERSION := 1
  const POLL_MILLIS: nat := 50

  datatype Env = Env(
    serde: Serde,
    requestId: string,
    recordLimit: Option<nat>,
    deadline: nat,
    grace: nat,
    hasToken: bool)

  datatype Item = Whole(payload: string) | Broken(error: FrameError)

  /** The reader thread: inside `read_frame`, holding a result it has not yet
      offered to the queue, refused by a full queue, or gone (its sender
      dropped). */
  datatype Reader = Reading | Holding(item: Item) | Overflowed | Finished

  datatype HostRun = HostRun(
    manifest: Manifest,
    discoverRecords: nat,
    records: seq<SourceRecord>,
    logs: seq<Log>,
    exitCode: int)

  datatype Host =
    | Opening
    | Checking(phase: Phase)
    | Receiving(phase: Phase, until: nat)
    | Reaping(manifest: Manifest, count: nat, giveUpAt: nat)
    | Joining(manifest: Manifest, count: nat, code: int)
    | Draining(manifest: Manifest, count: nat, code: int)
    | Returned(result: Result<HostRun, HostError>)

  /** The plugin's stdout, the reader thread and the queue it fills. */
  datatype Pipe = Pipe(
    out: Bytes,
    closed: bool,
    pos: nat,
    reader: Reader,
    queue: seq<Item>,
    overflow: bool)

  /** `consumed` lists the frames the host has taken from the queue, `answered`
      counts those before the initialize response and `replied` is when the
      discover response was taken; the rest is the program's own state. */
  datatype State = State(
    pipe: Pipe,
    exit: Option<int>,
    host: Host,
    spool: RunState,
    now: nat,
    cancelled: bool,
    consumed: seq<string>,
    answered: nat,
    replied: Option<nat>)

  function Start(env: Env): State {
    State(Pipe([], false, 0, Reading, [], false), None, Opening,
          NewRunState(Some(EffectiveMax(env.recordLimit))), 0, false, [], 0, None)
  }

  datatype Action =
    | Emit(bytes: Bytes)
    | CloseStdout
    | Exit(code: int)
    | Tick(millis: nat)
    | RequestCancel
    | SendInitialize(failure: Option<FrameError>)
    | ReadNext
    | ReadFails
    | Offer
    | RaiseFlag
    | CheckCancel
    | TimeOut
    | Receive(service: Option<HostError>)
    | FindDisconnected
    | Reap
    | StopReaping
    | Join
    | Drain

  /** One step of one party. A step that is not enabled changes nothing, so
      every list of actions is an interleaving. */
  function Step(env: Env, s: State, action: Action): State {
    match action
    case Emit(bytes) => s.(pipe := EmitBytes(s.pipe, bytes))
    case CloseStdout => s.(pipe := s.pipe.(closed := true))
    case Exit(code) => if s.exit.Some? then s else s.(exit := Some(code))
    case Tick(millis) => s.(now := s.now + millis)
    case RequestCancel => s.(cancelled := true)
    case SendInitialize(failure) =>
      if s.host.Opening? && (failure.Some? ==> SendError(failure.value)) then OpenWith(s, failure) else s
    case ReadNext => s.(pipe := ReadNextFrame(s.pipe))
    case ReadFails => s.(pipe := FailRead(s.pipe))
    case Offer => s.(pipe := OfferItem(s.pipe))
    case RaiseFlag => s.(pipe := StoreFlag(s.pipe))
    case CheckCancel => CheckForCancel(env, s)
    case TimeOut => HandleTimeout(env, s)
    case Receive(service) =>
      if s.host.Receiving? && s.pipe.queue != [] && Possible(env, s.now, service)
      then ReceiveItem(env, s, service) else s
    case FindDisconnected => NoticeDisconnect(s)
    case Reap => ReapChild(s)
    case StopReaping => StopWaiting(s)
    case Join => JoinReader(s)
    case Drain => if s.host.Draining? then s.(host := Returned(FinalResult(s))) else s
  }

  /** How writing a frame to the plugin can fail. */
  predicate SendError(e: FrameError) {
    e == Io || e.TooLarge?
  }

  /** How serving the frame just taken can end; the deadline is reported only
      when it has passed. */
  predicate Possible(env: Env, now: nat, service: Option<HostError>) {
    service.Some? ==> ServiceError(service.value) && (service.value == Timeout ==> env.deadline <= now)
  }

  /** Sending `initialize`. */
  function OpenWith(s: State, failure: Option<FrameError>): State {
    s.(host := if failure.Some? then Returned(Err(FrameFailure(failure.value))) else Checking(Initializing))
  }

  function EmitBytes(p: Pipe, bytes: Bytes): Pipe {
    if p.closed then p else p.(out := p.out + bytes)
  }

  /** `read_frame` returns once its outcome is decided. */
  function ReadNextFrame(p: Pipe): Pipe {
    if !p.reader.Reading? || p.pos > |p.out| || !Decided(p.out[p.pos..], p.closed) then p
    else
      match RustFront(p.out[p.pos..])
      case Err(e) => p.(reader := Holding(Broken(e)))
      case Ok(front) =>
        FrontShrinks(p.out[p.pos..]);
        p.(reader := Holding(Whole(front.payload)), pos := |p.out| - |front.rest|)
  }

  function FailRead(p: Pipe): Pipe {
    if p.reader.Reading? then p.(reader := Holding(Broken(Io))) else p
  }

  /** `try_send`: a full queue ends the thread, as does a sent error. */
  function OfferItem(p: Pipe): Pipe {
    if !p.reader.Holding? then p
    else if |p.queue| >= QUEUE_SLOTS then p.(reader := Overflowed)
    else p.(queue := p.queue + [p.reader.item], reader := if p.reader.item.Broken? then Finished else Reading)
  }

  function StoreFlag(p: Pipe): Pipe {
    if p.reader.Overflowed? then p.(reader := Finished, overflow := true) else p
  }

  function NoticeDisconnect(s: State): State {
    if s.host.Receiving? && s.pipe.queue == [] && s.pipe.reader.Finished?
    then s.(host := Returned(Err(if s.pipe.overflow then FrameQueueFull else PluginExited)))
    else s
  }

  /** The head of the receive loop: poll the token, then wait until the deadline
      or the next poll. */
  function CheckForCancel(env: Env, s: State): State {
    if !s.host.Checking? then s
    else if env.hasToken && s.cancelled then s.(host := Returned(Err(Cancelled)))
    else
      var poll := s.now + POLL_MILLIS;
      s.(host := Receiving(s.host.phase, if env.hasToken && poll < env.deadline then poll else env.deadline))
  }

  function HandleTimeout(env: Env, s: State): State {
    if !s.host.Receiving? || s.now < s.host.until then s
    else if env.hasToken && s.now < env.deadline then s.(host := Checking(s.host.phase))
    else s.(host := Returned(Err(Timeout)))
  }

  function ReceiveItem(env: Env, s: State, service: Option<HostError>): State
    requires s.host.Receiving? && s.pipe.queue != []
  {
    var rest := s.(pipe := s.pipe.(queue := s.pipe.queue[1..]));
    match s.pipe.queue[0]
    case Broken(Eof) => rest.(host := Returned(Err(PluginExited)))
    case Broken(e) => rest.(host := Returned(Err(FrameFailure(e))))
    case Whole(text) => ReceiveFrame(env, rest, s.host.phase, text, service)
  }

  function ReceiveFrame(env: Env, s: State, phase: Phase, text: string, service: Option<HostError>): State {
    var taken := s.(consumed := s.consumed + [text]);
    match Digest(env.serde, env.requestId, phase, ExpectedId(phase), text, s.spool, service)
    case Fail(spool, e) => taken.(spool := spool, host := Returned(Err(e)))
    case Continue(spool) => taken.(spool := spool, host := Checking(phase))
    case Reply(_, result) =>
      if phase.Initializing? then
        var accepted := AcceptInitialize(env, result, service);
        taken.(host := if accepted.Ok? then Checking(Discovering(accepted.value)) else Returned(Err(accepted.error)),
               answered := |s.consumed|)
      else
        var count := env.serde.asCount(result);
        taken.(host := if count.Some? then Reaping(phase.manifest, count.value, s.now + env.grace)
                       else Returned(Err(MalformedJson)),
               replied := Some(s.now))
  }

  function ExpectedId(phase: Phase): string {
    if phase.Initializing? then "h-1" else "h-2"
  }

  /** Check the initialize response, then send `discover`; `service` tells
      whether that failed. */
  function AcceptInitialize(env: Env, result: Value, service: Option<HostError>): Result<Manifest, HostError>
  {
    match env.serde.asInit(result)
    case None => Err(MalformedJson)
    case Some(init) =>
      if init.protocolVersion != PROTOCOL_VERSION then Err(Protocol(BadProtocolVersion))
      else if init.recordSchemaVersion != RECORD_SCHEMA_VERSION then Err(Protocol(BadSchemaVersion))
      else if IsBlank(init.manifest.sourceName) then Err(Protocol(EmptySourceName))
      else if service.Some? && service.value.FrameFailure? then Err(service.value)
      else Ok(init.manifest)
  }

  /** `wait_or_terminate`: poll the child, or give up after the grace period. */
  function ReapChild(s: State): State {
    if s.host.Reaping? && s.exit.Some?
    then s.(host := Joining(s.host.manifest, s.host.count, s.exit.value))
    else s
  }

  function StopWaiting(s: State): State {
    if s.host.Reaping? && s.now >= s.host.giveUpAt then s.(host := Returned(Err(PluginDidNotExit))) else s
  }

  /** The reader is joined whatever the exit status, which is checked next. */
  function JoinReader(s: State): State {
    if !s.host.Joining? || !s.pipe.reader.Finished? then s
    else if s.host.code != 0 then s.(host := Returned(Err(PluginExitStatus(s.host.code))))
    else s.(host := Draining(s.host.manifest, s.host.count, s.host.code))
  }

  /** `ensure_no_frames_after_response`, then the count check. */
  function FinalResult(s: State): Result<HostRun, HostError>
    requires s.host.Draining?
  {
    var queue := s.pipe.queue;
    if s.pipe.overflow then Err(FrameQueueFull)
    else if queue != [] && queue[0].Whole? then Err(Protocol(FrameAfterResponse))
    else if queue != [] && queue[0].error != Eof then Err(FrameFailure(queue[0].error))
    else if s.host.count != |s.spool.records| then Err(Protocol(CountMismatch))
    else Ok(HostRun(s.host.manifest, s.host.count, s.spool.records, s.spool.logs, s.host.code))
  }

  /** Any run: the state after any list of actions. */
  function Run(env: Env, actions: seq<Action>): State {
    if actions == [] then Start(env)
    else Step(env, Run(env, actions[..|actions| - 1]), actions[|actions| - 1])
  }

  // ---------------------------------------------------------------------
  // The byte stream: what was written, read, queued and consumed
  // ---------------------------------------------------------------------

  predicate AllWhole(queue: seq<Item>) {
    forall i :: 0 <= i < |queue| ==> queue[i].Whole?
  }

  function Payloads(queue: seq<Item>): (r: seq<string>)
    requires AllWhole(queue)
    ensures |r| == |queue|
  {
    if queue == [] then [] else Payloads(queue[..|queue| - 1]) + [queue[|queue| - 1].payload]
  }

  /** Everything read so far is the encoding of `frames`. */
  predicate HasRead(p: Pipe, frames: seq<string>) {
    p.pos <= |p.out| && AllFit(frames) && p.out[..p.pos] == FrameAll(frames)
  }

  /** An error the reader found in the bytes is what the next frame gives, and
      is final: bytes that ran out cannot be followed by more. */
  predicate EndsWith(p: Pipe, e: FrameError) {
    e != Io ==>
      && p.pos <= |p.out| && RustFront(p.out[p.pos..]) == Err(e)
      && (e == Eof || e == Truncated ==> p.closed)
  }

  /** The queue of a reader that has sent its last item, an error. */
  predicate EndedQueue(p: Pipe, consumed: seq<string>) {
    && p.queue != []
    && var last := |p.queue| - 1;
       && AllWhole(p.queue[..last]) && p.queue[last].Broken?
       && HasRead(p, consumed + Payloads(p.queue[..last]))
       && EndsWith(p, p.queue[last].error)
  }

  /** Nothing is lost between the plugin's bytes and the frames `consumed`,
      short of an overflow. */
  predicate StreamOk(p: Pipe, consumed: seq<string>) {
    match p.reader
    case Reading => !p.overflow && AllWhole(p.queue) && HasRead(p, consumed + Payloads(p.queue))
    case Holding(Whole(text)) => !p.overflow && AllWhole(p.queue) && HasRead(p, consumed + Payloads(p.queue) + [text])
    case Holding(Broken(e)) =>
      !p.overflow && AllWhole(p.queue) && HasRead(p, consumed + Payloads(p.queue)) && EndsWith(p, e)
    case Overflowed => AllWhole(p.queue)
    case Finished => if p.overflow then AllWhole(p.queue) else EndedQueue(p, consumed)
  }

  lemma {:induction false} PayloadsAppend(queue: seq<Item>, payload: string)
    requires AllWhole(queue)
    ensures AllWhole(queue + [Whole(payload)])
    ensures Payloads(queue + [Whole(payload)]) == Payloads(queue) + [payload]
  {
    assert (queue + [Whole(payload)])[..|queue|] == queue;
  }

  lemma {:induction false} PayloadsFirst(queue: seq<Item>)
    requires queue != [] && AllWhole(queue)
    ensures Payloads(queue) == [queue[0].payload] + Payloads(queue[1..])
  {
    if |queue| > 1 {
      PayloadsFirst(queue[..|queue| - 1]);
      assert queue[1..][..|queue[1..]| - 1] == queue[..|queue| - 1][1..];
    }
  }

  lemma ReadNextKeepsStream(p: Pipe, consumed: seq<string>)
    requires StreamOk(p, consumed)
    ensures StreamOk(ReadNextFrame(p), consumed)
  {
    if p.reader.Reading? && Decided(p.out[p.pos..], p.closed) {
      var b := p.out[p.pos..];
      match RustFront(b)
      case Err(e) =>
        if !p.closed {
          EarlyReturnIsFinal(b, []);
        }
      case Ok(front) =>
        ReadAdvances(p, consumed + Payloads(p.queue), front);
    }
  }

  lemma ReadAdvances(p: Pipe, frames: seq<string>, front: Front)
    requires HasRead(p, frames) && RustFront(p.out[p.pos..]) == Ok(front)
    ensures |front.rest| <= |p.out|
    ensures HasRead(p.(pos := |p.out| - |front.rest|), frames + [front.payload])
  {
    OnlyFramesAreRead(p.out[p.pos..]);
    FrameAllAppend(frames, front.payload);
    SplitAt(p.out, p.pos, Frame(front.payload), front.rest);
  }

  lemma SplitAt(out: Bytes, k: nat, frame: Bytes, rest: Bytes)
    requires k <= |out| && out[k..] == frame + rest
    ensures |rest| <= |out|
    ensures out[..|out| - |rest|] == out[..k] + frame
  {
    assert out == out[..k] + frame + rest;
  }

  lemma OfferKeepsStream(p: Pipe, consumed: seq<string>)
    requires StreamOk(p, consumed)
    ensures StreamOk(OfferItem(p), consumed)
  {
    if p.reader.Holding? && |p.queue| < QUEUE_SLOTS {
      match p.reader.item
      case Whole(text) =>
        PayloadsAppend(p.queue, text);
        assert consumed + Payloads(p.queue) + [text] == consumed + (Payloads(p.queue) + [text]);
      case Broken(e) =>
        assert (p.queue + [p.reader.item])[..|p.queue|] == p.queue;
    }
  }

  lemma FaultStays(p: Pipe, e: FrameError, bytes: Bytes)
    requires EndsWith(p, e)
    ensures EndsWith(EmitBytes(p, bytes), e)
  {
    if e != Io && !p.closed {
      var b := p.out[p.pos..];
      assert (p.out + bytes)[p.pos..] == b + bytes;
      FaultIsDecided(b);
      EarlyReturnIsFinal(b, bytes);
    }
  }

  lemma ReadStays(p: Pipe, frames: seq<string>, bytes: Bytes)
    requires HasRead(p, frames)
    ensures HasRead(EmitBytes(p, bytes), frames)
  {
    if !p.closed {
      assert (p.out + bytes)[..p.pos] == p.out[..p.pos];
    }
  }

  lemma EmitKeepsStream(p: Pipe, consumed: seq<string>, bytes: Bytes)
    requires StreamOk(p, consumed)
    ensures StreamOk(EmitBytes(p, bytes), consumed)
  {
    match p.reader
    case Reading => ReadStays(p, consumed + Payloads(p.queue), bytes);
    case Holding(Whole(text)) => ReadStays(p, consumed + Payloads(p.queue) + [text], bytes);
    case Holding(Broken(e)) =>
      ReadStays(p, consumed + Payloads(p.queue), bytes);
      FaultStays(p, e, bytes);
    case Overflowed =>
    case Finished =>
      if !p.overflow {
        var last := |p.queue| - 1;
        ReadStays(p, consumed + Payloads(p.queue[..last]), bytes);
        FaultStays(p, p.queue[last].error, bytes);
      }
  }

  lemma PipeStepsKeepStream(p: Pipe, consumed: seq<string>)
    requires StreamOk(p, consumed)
    ensures StreamOk(p.(closed := true), consumed)
    ensures StreamOk(FailRead(p), consumed)
    ensures StreamOk(StoreFlag(p), consumed)
  {
  }

  /** Moving the head of the queue to the consumed frames. */
  lemma ConsumeKeepsStream(p: Pipe, consumed: seq<string>)
    requires StreamOk(p, consumed) && p.queue != [] && p.queue[0].Whole?
    ensures StreamOk(p.(queue := p.queue[1..]), consumed + [p.queue[0].payload])
  {
    if p.reader.Finished? && !p.overflow {
      ConsumeKeepsEnd(p, consumed);
    } else {
      PayloadsFirst(p.queue);
      MoveFirst(consumed, p.queue[0].payload, Payloads(p.queue[1..]));
    }
  }

  lemma ConsumeKeepsEnd(p: Pipe, consumed: seq<string>)
    requires EndedQueue(p, consumed) && p.queue[0].Whole?
    ensures EndedQueue(p.(queue := p.queue[1..]), consumed + [p.queue[0].payload])
  {
    var last := |p.queue| - 1;
    var q := p.queue[..last];
    assert q[0] == p.queue[0];
    PayloadsFirst(q);
    assert p.queue[1..][..last - 1] == q[1..];
    MoveFirst(consumed, q[0].payload, Payloads(q[1..]));
  }

  lemma MoveFirst(consumed: seq<string>, text: string, rest: seq<string>)
    ensures consumed + ([text] + rest) == (consumed + [text]) + rest
  {
  }

  // ---------------------------------------------------------------------
  // The transcript: what the consumed frames mean
  // ---------------------------------------------------------------------

  ghost predicate AllLogs(serde: Serde, frames: seq<string>) {
    forall i :: 0 <= i < |frames| ==> LogNotice(serde, frames[i])
  }

  ghost predicate AllNotices(serde: Serde, frames: seq<string>) {
    forall i :: 0 <= i < |frames| ==> Notice(serde, frames[i])
  }

  ghost predicate AnswersInitialize(serde: Serde, text: string, manifest: Manifest) {
    exists result ::
      && Answers(serde, text, "h-1", result)
      && serde.asInit(result) == Some(InitResult(PROTOCOL_VERSION, RECORD_SCHEMA_VERSION, manifest))
      && !IsBlank(manifest.sourceName)
  }

  ghost predicate AnswersDiscover(serde: Serde, text: string, count: nat) {
    exists result :: Answers(serde, text, "h-2", result) && serde.asCount(result) == Some(count)
  }

  /** Logs, the initialize response, then plugin messages. */
  ghost predicate Opened(serde: Serde, frames: seq<string>, answered: nat, manifest: Manifest) {
    && answered < |frames|
    && AllLogs(serde, frames[..answered])
    && AnswersInitialize(serde, frames[answered], manifest)
    && AllNotices(serde, frames[answered + 1..])
  }

  /** The same, ended by the discover response. */
  ghost predicate Completed(serde: Serde, frames: seq<string>, answered: nat, manifest: Manifest, count: nat) {
    && frames != []
    && Opened(serde, frames[..|frames| - 1], answered, manifest)
    && AnswersDiscover(serde, frames[|frames| - 1], count)
  }

  ghost predicate InPhase(serde: Serde, frames: seq<string>, answered: nat, spool: RunState, phase: Phase) {
    match phase
    case Initializing =>
      && AllLogs(serde, frames)
      && forall source :: Accounts(serde, source, frames, spool)
    case Discovering(manifest) =>
      && Opened(serde, frames, answered, manifest)
      && Accounts(serde, manifest.sourceName, frames, spool)
  }

  ghost predicate Complete(
    serde: Serde, frames: seq<string>, answered: nat, spool: RunState, manifest: Manifest, count: nat) {
    && Completed(serde, frames, answered, manifest, count)
    && Accounts(serde, manifest.sourceName, frames, spool)
  }

  ghost predicate TranscriptOk(env: Env, s: State) {
    match s.host
    case Opening => s.consumed == [] && InPhase(env.serde, s.consumed, s.answered, s.spool, Initializing)
    case Checking(phase) => InPhase(env.serde, s.consumed, s.answered, s.spool, phase)
    case Receiving(phase, _) => InPhase(env.serde, s.consumed, s.answered, s.spool, phase)
    case Reaping(manifest, count, _) => Complete(env.serde, s.consumed, s.answered, s.spool, manifest, count)
    case Joining(manifest, count, code) =>
      Complete(env.serde, s.consumed, s.answered, s.spool, manifest, count) && s.exit == Some(code)
    case Draining(manifest, count, code) =>
      && Complete(env.serde, s.consumed, s.answered, s.spool, manifest, count)
      && s.exit == Some(code) && code == 0 && s.pipe.reader.Finished?
    case Returned(result) => true
  }

  ghost predicate Failed(s: State) {
    s.host.Returned? && s.host.result.Err?
  }

  /** What a successful result says about everything the plugin ever wrote. */
  ghost predicate Explained(env: Env, s: State, run: HostRun) {
    && s.pipe.reader.Finished? && !s.pipe.overflow && s.pipe.closed
    && s.exit == Some(0) == Some(run.exitCode)
    && RustStream(s.pipe.out) == Stream(s.consumed, Eof)
    && Complete(env.serde, s.consumed, s.answered, s.spool, run.manifest, run.discoverRecords)
    && run.discoverRecords == |run.records|
    && run.records == s.spool.records
    && run.logs == s.spool.logs
  }

  ghost predicate Inv(env: Env, s: State) {
    && WithinCaps(s.spool) && s.spool.maxRecords == Some(EffectiveMax(env.recordLimit))
    && |s.pipe.queue| <= QUEUE_SLOTS
    && (Failed(s) ||
        if s.host.Returned? then Explained(env, s, s.host.result.value)
        else StreamOk(s.pipe, s.consumed) && TranscriptOk(env, s))
  }

  lemma StartInv(env: Env)
    ensures Inv(env, Start(env))
  {
    var s := Start(env);
    assert FrameAll([]) == [];
    assert s.consumed + Payloads(s.pipe.queue) == [];
  }

  lemma SliceAppend(frames: seq<string>, text: string, k: nat)
    requires k <= |frames|
    ensures (frames + [text])[..k] == frames[..k]
    ensures (frames + [text])[k..] == frames[k..] + [text]
    ensures (frames + [text])[..|frames|] == frames
  {
  }

  lemma OpenedAppend(serde: Serde, frames: seq<string>, answered: nat, manifest: Manifest, text: string)
    requires Opened(serde, frames, answered, manifest) && Notice(serde, text)
    ensures Opened(serde, frames + [text], answered, manifest)
  {
    SliceAppend(frames, text, answered);
    SliceAppend(frames, text, answered + 1);
  }

  /** A frame that is kept leaves the transcript in its phase. */
  lemma ContinueKeepsPhase(
    env: Env, frames: seq<string>, answered: nat, spool: RunState, phase: Phase, text: string,
    service: Option<HostError>, next: RunState)
    requires InPhase(env.serde, frames, answered, spool, phase)
    requires Digest(env.serde, env.requestId, phase, ExpectedId(phase), text, spool, service) == Continue(next)
    ensures InPhase(env.serde, frames + [text], answered, next, phase)
  {
    if phase.Initializing? {
      forall source
        ensures Accounts(env.serde, source, frames + [text], next)
        ensures LogNotice(env.serde, text)
      {
        DigestAccounts(env.serde, env.requestId, phase, ExpectedId(phase), frames, text, spool, service, source);
      }
      assert Accounts(env.serde, "", frames + [text], next);
    } else {
      var source := phase.manifest.sourceName;
      DigestAccounts(env.serde, env.requestId, phase, ExpectedId(phase), frames, text, spool, service, source);
      OpenedAppend(env.serde, frames, answered, phase.manifest, text);
    }
  }

  lemma OpenedByAnswer(serde: Serde, frames: seq<string>, text: string, manifest: Manifest)
    requires AllLogs(serde, frames) && AnswersInitialize(serde, text, manifest)
    ensures Opened(serde, frames + [text], |frames|, manifest)
  {
    SliceAppend(frames, text, |frames|);
    assert (frames + [text])[|frames| + 1..] == [];
  }

  lemma InitializeAccepted(
    env: Env, frames: seq<string>, answered: nat, spool: RunState, text: string, service: Option<HostError>,
    result: Value, manifest: Manifest)
    requires InPhase(env.serde, frames, answered, spool, Initializing)
    requires Digest(env.serde, env.requestId, Initializing, "h-1", text, spool, service) == Reply(spool, result)
    requires AcceptInitialize(env, result, service) == Ok(manifest)
    ensures InPhase(env.serde, frames + [text], |frames|, spool, Discovering(manifest))
  {
    var source := manifest.sourceName;
    assert Accounts(env.serde, source, frames, spool);
    DigestAccounts(env.serde, env.requestId, Initializing, "h-1", frames, text, spool, service, source);
    assert AnswersInitialize(env.serde, text, manifest);
    OpenedByAnswer(env.serde, frames, text, manifest);
  }

  lemma DiscoverAccepted(
    env: Env, frames: seq<string>, answered: nat, spool: RunState, text: string, service: Option<HostError>,
    result: Value, manifest: Manifest, count: nat)
    requires InPhase(env.serde, frames, answered, spool, Discovering(manifest))
    requires Digest(env.serde, env.requestId, Discovering(manifest), "h-2", text, spool, service)
          == Reply(spool, result)
    requires env.serde.asCount(result) == Some(count)
    ensures Completed(env.serde, frames + [text], answered, manifest, count)
    ensures Accounts(env.serde, manifest.sourceName, frames + [text], spool)
  {
    DigestAccounts(env.serde, env.requestId, Discovering(manifest), "h-2", frames, text, spool, service,
                   manifest.sourceName);
    assert AnswersDiscover(env.serde, text, count);
    SliceAppend(frames, text, |frames|);
  }

  lemma FrameKeepsTranscript(env: Env, s: State, phase: Phase, text: string, service: Option<HostError>)
    requires InPhase(env.serde, s.consumed, s.answered, s.spool, phase)
    ensures var t := ReceiveFrame(env, s, phase, text, service);
            Failed(t) || (!t.host.Returned? && TranscriptOk(env, t))
  {
    var d := Digest(env.serde, env.requestId, phase, ExpectedId(phase), text, s.spool, service);
    DigestShape(env.serde, env.requestId, phase, ExpectedId(phase), text, s.spool, service);
    match d
    case Fail(_, _) =>
    case Continue(spool) =>
      ContinueKeepsPhase(env, s.consumed, s.answered, s.spool, phase, text, service, spool);
    case Reply(_, result) =>
      if phase.Initializing? {
        var accepted := AcceptInitialize(env, result, service);
        if accepted.Ok? {
          InitializeAccepted(env, s.consumed, s.answered, s.spool, text, service, result, accepted.value);
        }
      } else {
        var count := env.serde.asCount(result);
        if count.Some? {
          DiscoverAccepted(env, s.consumed, s.answered, s.spool, text, service, result, phase.manifest, count.value);
        }
      }
  }

  lemma FrameShape(env: Env, s: State, phase: Phase, text: string, service: Option<HostError>)
    requires WithinCaps(s.spool)
    ensures var t := ReceiveFrame(env, s, phase, text, service);
            && t.pipe == s.pipe && t.consumed == s.consumed + [text]
            && WithinCaps(t.spool) && t.spool.maxRecords == s.spool.maxRecords
  {
    DigestKeepsCaps(env.serde, env.requestId, phase, ExpectedId(phase), text, s.spool, service);
  }

  lemma ReceiveKeepsInv(env: Env, s: State, service: Option<HostError>)
    requires Inv(env, s) && s.host.Receiving? && s.pipe.queue != []
    ensures Inv(env, ReceiveItem(env, s, service))
  {
    if s.pipe.queue[0].Whole? {
      var text := s.pipe.queue[0].payload;
      var rest := s.(pipe := s.pipe.(queue := s.pipe.queue[1..]));
      ConsumeKeepsStream(s.pipe, s.consumed);
      FrameShape(env, rest, s.host.phase, text, service);
      FrameKeepsTranscript(env, rest, s.host.phase, text, service);
    }
  }

  lemma FirstIsWhole(queue: seq<Item>, last: nat)
    requires 0 < last < |queue| && AllWhole(queue[..last])
    ensures queue[0].Whole?
  {
    assert queue[..last][0] == queue[0];
  }

  /** A queue that holds nothing but the final `Eof`: everything written has
      been consumed. */
  lemma DrainedStream(p: Pipe, consumed: seq<string>)
    requires EndedQueue(p, consumed)
    requires p.queue[0] == Broken(Eof)
    ensures p.closed && RustStream(p.out) == Stream(consumed, Eof)
  {
    var last := |p.queue| - 1;
    if last > 0 {
      FirstIsWhole(p.queue, last);
    }
    assert p.queue[..last] == [];
    assert consumed + Payloads(p.queue[..last]) == consumed;
    assert p.out == p.out[..p.pos] + p.out[p.pos..];
    StreamOfFrames(consumed, p.out[p.pos..]);
  }

  lemma DrainKeepsInv(env: Env, s: State)
    requires Inv(env, s) && s.host.Draining?
    ensures Inv(env, s.(host := Returned(FinalResult(s))))
  {
    if FinalResult(s).Ok? {
      assert EndedQueue(s.pipe, s.consumed);
      DrainedStream(s.pipe, s.consumed);
    }
  }

  lemma NewPipeKeepsInv(env: Env, s: State, p: Pipe)
    requires Inv(env, s) && !s.host.Returned?
    requires StreamOk(p, s.consumed) && |p.queue| <= QUEUE_SLOTS
    requires s.pipe.reader.Finished? ==> p.reader.Finished?
    ensures Inv(env, s.(pipe := p))
  {
  }

  lemma WorldStepKeepsInv(env: Env, s: State, action: Action)
    requires Inv(env, s) && !s.host.Returned?
    requires action.Exit? || action.Tick? || action.RequestCancel?
    ensures Inv(env, Step(env, s, action))
  {
  }

  lemma WaitStepKeepsInv(env: Env, s: State, action: Action)
    requires Inv(env, s) && !s.host.Returned?
    requires action.SendInitialize? || action.CheckCancel? || action.TimeOut? || action.FindDisconnected?
    ensures Inv(env, Step(env, s, action))
  {
  }

  lemma ReapKeepsInv(env: Env, s: State)
    requires Inv(env, s) && s.host.Reaping?
    ensures Inv(env, ReapChild(s))
  {
  }

  lemma StopKeepsInv(env: Env, s: State)
    requires Inv(env, s) && s.host.Reaping?
    ensures Inv(env, StopWaiting(s))
  {
  }

  lemma JoinKeepsInv(env: Env, s: State)
    requires Inv(env, s) && s.host.Joining?
    ensures Inv(env, JoinReader(s))
  {
  }

  lemma ReturnedIsFinal(env: Env, s: State, action: Action)
    requires s.host.Returned?
    ensures var t := Step(env, s, action);
            && t.host == s.host && t.spool == s.spool && t.consumed == s.consumed && t.answered == s.answered
            && t.replied == s.replied
            && (s.exit.Some? ==> t.exit == s.exit)
            && (s.pipe.reader.Finished? && s.pipe.closed ==> t.pipe == s.pipe)
            && (|s.pipe.queue| <= QUEUE_SLOTS ==> |t.pipe.queue| <= QUEUE_SLOTS)
  {
  }

  lemma StepKeepsInv(env: Env, s: State, action: Action)
    requires Inv(env, s)
    ensures Inv(env, Step(env, s, action))
  {
    if s.host.Returned? {
      ReturnedIsFinal(env, s, action);
    } else {
      match action
      case Receive(service) =>
        if s.host.Receiving? && s.pipe.queue != [] && Possible(env, s.now, service) {
          ReceiveKeepsInv(env, s, service);
        }
      case Drain =>
        if s.host.Draining? {
          DrainKeepsInv(env, s);
        }
      case Emit(bytes) =>
        EmitKeepsStream(s.pipe, s.consumed, bytes);
        NewPipeKeepsInv(env, s, EmitBytes(s.pipe, bytes));
      case CloseStdout =>
        PipeStepsKeepStream(s.pipe, s.consumed);
        NewPipeKeepsInv(env, s, s.pipe.(closed := true));
      case ReadNext =>
        ReadNextKeepsStream(s.pipe, s.consumed);
        NewPipeKeepsInv(env, s, ReadNextFrame(s.pipe));
      case ReadFails =>
        PipeStepsKeepStream(s.pipe, s.consumed);
        NewPipeKeepsInv(env, s, FailRead(s.pipe));
      case Offer =>
        OfferKeepsStream(s.pipe, s.consumed);
        NewPipeKeepsInv(env, s, OfferItem(s.pipe));
      case RaiseFlag =>
        PipeStepsKeepStream(s.pipe, s.consumed);
        NewPipeKeepsInv(env, s, StoreFlag(s.pipe));
      case Exit(_) => WorldStepKeepsInv(env, s, action);
      case Tick(_) => WorldStepKeepsInv(env, s, action);
      case RequestCancel => WorldStepKeepsInv(env, s, action);
      case SendInitialize(_) => WaitStepKeepsInv(env, s, action);
      case CheckCancel => WaitStepKeepsInv(env, s, action);
      case TimeOut => WaitStepKeepsInv(env, s, action);
      case FindDisconnected => WaitStepKeepsInv(env, s, action);
      case Reap =>
        if s.host.Reaping? {
          ReapKeepsInv(env, s);
        }
      case StopReaping =>
        if s.host.Reaping? {
          StopKeepsInv(env, s);
        }
      case Join =>
        if s.host.Joining? {
          JoinKeepsInv(env, s);
        }
    }
  }

  lemma {:induction false} RunInv(env: Env, actions: seq<Action>)
    ensures Inv(env, Run(env, actions))
  {
    if actions == [] {
      StartInv(env);
    } else {
      RunInv(env, actions[..|actions| - 1]);
      StepKeepsInv(env, Run(env, actions[..|actions| - 1]), actions[|actions| - 1]);
    }
  }

  // ---------------------------------------------------------------------
  // Main results
  // ---------------------------------------------------------------------

  /** If any interleaving returns a result, then the queue never overflowed, the
      child exited 0, and the bytes the plugin ever wrote are exactly the
      consumed frames in order, followed by nothing or by a bare header (the
      one case in which the reader takes a cut frame for the end). */
  lemma SuccessConsumesEverything(env: Env, actions: seq<Action>, run: HostRun) returns (tail: Bytes)
    requires Run(env, actions).host == Returned(Ok(run))
    ensures var s := Run(env, actions);
            && !s.pipe.overflow && s.pipe.closed && s.exit == Some(0)
            && AllFit(s.consumed)
            && s.pipe.out == FrameAll(s.consumed) + tail
            && (tail == [] || BareHeader(tail))
  {
    RunInv(env, actions);
    tail := StreamExplained(Run(env, actions).pipe.out);
  }

  /** Those frames are: logs, the initialize response, plugin messages, and the
      discover response last, whose count is the number of records returned. */
  lemma SuccessTranscript(env: Env, actions: seq<Action>, run: HostRun)
    requires Run(env, actions).host == Returned(Ok(run))
    ensures var s := Run(env, actions);
            && Completed(env.serde, s.consumed, s.answered, run.manifest, run.discoverRecords)
            && run.discoverRecords == |run.records|
  {
    RunInv(env, actions);
  }

  /** The records returned are the deserialised values of all `record` frames,
      in order, each valid for the manifest's source; the logs likewise. */
  lemma SuccessReturnsEveryRecord(env: Env, actions: seq<Action>, run: HostRun)
    requires Run(env, actions).host == Returned(Ok(run))
    ensures var frames := RustStream(Run(env, actions).pipe.out).payloads;
            && Decodes(env.serde, run.manifest.sourceName, ValuesIn(env.serde, frames), run.records)
            && run.logs == LogsIn(env.serde, frames)
            && TotalSize(ValuesIn(env.serde, frames)) <= HOST_MAX_RECORD_BYTES
            && TotalLogSize(run.logs) <= HOST_MAX_LOG_BYTES
            && |run.records| <= EffectiveMax(env.recordLimit)
  {
    RunInv(env, actions);
  }

  /** In every state of every run, finished or not, failed or not. */
  lemma CapsAlwaysHold(env: Env, actions: seq<Action>)
    ensures var s := Run(env, actions);
            && |s.spool.records| <= EffectiveMax(env.recordLimit) <= HOST_MAX_RECORDS
            && s.spool.recordBytes <= HOST_MAX_RECORD_BYTES
            && s.spool.logBytes <= HOST_MAX_LOG_BYTES
            && |s.pipe.queue| <= QUEUE_SLOTS
    ensures var s := Run(env, actions);
            !Failed(s) ==> s.spool.recordBytes == TotalSize(ValuesIn(env.serde, s.consumed))
                           && s.spool.logBytes == TotalLogSize(s.spool.logs)
  {
    RunInv(env, actions);
    var s := Run(env, actions);
    if !Failed(s) && (s.host.Opening? || ((s.host.Checking? || s.host.Receiving?) && s.host.phase.Initializing?)) {
      assert Accounts(env.serde, "", s.consumed, s.spool);
    }
  }
}
