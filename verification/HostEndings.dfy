/** How runs of the host end when they do not succeed: every error has its
    cause, and a cancellation is heeded. */
module HostEndings {
  import opened Wrappers
  import opened Json
  import opened Spool
  import opened Framing
  import opened HostRun
  import HostLoop
  import Utf8

  // ---------------------------------------------------------------------
  // Causes
  // ---------------------------------------------------------------------

  /** All the plugin ever wrote is the consumed frames and then what gives `e`. */
  predicate OutputEnds(p: Pipe, consumed: seq<string>, e: FrameError) {
    RustStream(p.out) == Stream(consumed, e) && (e == Eof || e == Truncated ==> p.closed)
  }

  /** The host had taken all but the last frame into its account when that one
      made it stop with `e`, by itself or in being served. */
  ghost predicate LastFrameRefused(env: Env, consumed: seq<string>, answered: nat, now: nat, e: HostError) {
    && consumed != []
    && var before := consumed[..|consumed| - 1];
       exists phase, st, service ::
         && InPhase(env.serde, before, answered, st, phase) && Possible(env, now, service)
         && RefusedBy(env, phase, consumed[|consumed| - 1], st, service, e)
  }

  predicate RefusedBy(
    env: Env, phase: Phase, text: string, st: RunState, service: Option<HostError>, e: HostError)
  {
    var d := Digest(env.serde, env.requestId, phase, ExpectedId(phase), text, st, service);
    d.Fail? && d.error == e
  }

  /** The last frame is an answer that the host cannot accept. */
  ghost predicate LastAnswerRefused(env: Env, consumed: seq<string>, e: HostError) {
    && consumed != []
    && var last := consumed[|consumed| - 1];
       || (exists result :: Answers(env.serde, last, "h-1", result) && AcceptInitialize(env, result, None) == Err(e))
       || (e == MalformedJson
           && exists result :: Answers(env.serde, last, "h-2", result) && env.serde.asCount(result).None?)
  }

  /** The last frame reports a count other than that of the spooled records. */
  ghost predicate CountIsWrong(env: Env, consumed: seq<string>, spool: RunState) {
    && consumed != []
    && var last, records := consumed[|consumed| - 1], |spool.records|;
       exists count: nat :: ReportsOther(env, last, count, records)
  }

  ghost predicate ReportsOther(env: Env, text: string, count: nat, records: nat) {
    AnswersDiscover(env.serde, text, count) && count != records
  }

  /** The errors that come of something other than what the last frame says. */
  predicate FromElsewhere(e: HostError) {
    HostLoop.HostsOwn(e) && e != Service
  }

  ghost predicate CausedElsewhere(env: Env, s: State, e: HostError)
    requires FromElsewhere(e)
  {
    match e
    case Timeout => env.deadline <= s.now
    case Cancelled => env.hasToken && s.cancelled
    case FrameQueueFull => s.pipe.overflow
    case PluginDidNotExit => s.replied.Some? && s.replied.value + env.grace <= s.now
    case PluginExitStatus(code) => code != 0 && s.exit == Some(code)
    case PluginExited => OutputEnds(s.pipe, s.consumed, Eof)
    case FrameFailure(fault) => SendError(fault) || OutputEnds(s.pipe, s.consumed, fault)
    case Protocol(FrameAfterResponse) => s.exit == Some(0) && s.pipe.queue != [] && s.pipe.queue[0].Whole?
    case Protocol(_) => CountIsWrong(env, s.consumed, s.spool)
  }

  /** What must be the case when the host reports `e`. */
  ghost predicate Caused(env: Env, s: State, e: HostError) {
    if FromElsewhere(e) then CausedElsewhere(env, s, e)
    else LastFrameRefused(env, s.consumed, s.answered, s.now, e) || LastAnswerRefused(env, s.consumed, e)
  }

  // ---------------------------------------------------------------------
  // The host stops only for cause
  // ---------------------------------------------------------------------

  /** A wait without polling lasts until the deadline, and waiting for the exit
      lasts the grace period from the discover response. */
  predicate WaitsRightly(env: Env, s: State) {
    && (s.host.Receiving? ==> s.host.until <= env.deadline && (!env.hasToken ==> s.host.until == env.deadline))
    && (s.host.Reaping? ==> s.replied.Some? && s.host.giveUpAt == s.replied.value + env.grace)
  }

  ghost predicate EndsForCause(env: Env, s: State) {
    s.host.Returned? && s.host.result.Err? ==> Caused(env, s, s.host.result.error)
  }

  lemma OutputStays(p: Pipe, consumed: seq<string>, e: FrameError, bytes: Utf8.Bytes)
    requires OutputEnds(p, consumed, e) && e != Io
    ensures OutputEnds(EmitBytes(p, bytes), consumed, e)
  {
    if !p.closed {
      var tail := StreamExplained(p.out);
      FaultIsDecided(tail);
      FaultThenMore(consumed, tail, bytes, e);
    }
  }

  lemma FaultThenMore(frames: seq<string>, tail: Utf8.Bytes, bytes: Utf8.Bytes, e: FrameError)
    requires AllFit(frames) && RustFront(tail) == Err(e) && Decided(tail, false)
    ensures RustStream(FrameAll(frames) + tail + bytes) == Stream(frames, e)
  {
    EarlyReturnIsFinal(tail, bytes);
    StreamOfFrames(frames, tail + bytes);
    Framing.Regroup(FrameAll(frames), tail, bytes);
  }

  lemma PipeCauseStays(env: Env, s: State, action: Action, consumed: seq<string>, e: FrameError)
    requires OutputEnds(s.pipe, consumed, e) && e != Io && s.host.Returned?
    ensures OutputEnds(Step(env, s, action).pipe, consumed, e)
  {
    match action
    case Emit(bytes) => OutputStays(s.pipe, consumed, e, bytes);
    case _ =>
  }

  lemma LaterRefusal(env: Env, consumed: seq<string>, answered: nat, now: nat, later: nat, e: HostError)
    requires LastFrameRefused(env, consumed, answered, now, e) && now <= later
    ensures LastFrameRefused(env, consumed, answered, later, e)
  {
    var before := consumed[..|consumed| - 1];
    var phase, st, service :|
      InPhase(env.serde, before, answered, st, phase) && Possible(env, now, service)
      && RefusedBy(env, phase, consumed[|consumed| - 1], st, service, e);
    assert Possible(env, later, service);
  }

  lemma ElsewhereStays(env: Env, s: State, action: Action, e: HostError)
    requires s.host == Returned(Err(e)) && FromElsewhere(e) && CausedElsewhere(env, s, e)
    ensures CausedElsewhere(env, Step(env, s, action), e)
  {
    ReturnedIsFinal(env, s, action);
    match e
    case PluginExited => PipeCauseStays(env, s, action, s.consumed, Eof);
    case FrameFailure(fault) =>
      if !SendError(fault) {
        PipeCauseStays(env, s, action, s.consumed, fault);
      }
    case Protocol(FrameAfterResponse) => QueueHeadStays(env, s, action);
    case _ =>
  }

  lemma QueueHeadStays(env: Env, s: State, action: Action)
    requires s.host.Returned? && s.pipe.queue != []
    ensures var t := Step(env, s, action);
            t.pipe.queue != [] && t.pipe.queue[0] == s.pipe.queue[0] && (s.exit.Some? ==> t.exit == s.exit)
  {
  }

  lemma CauseStays(env: Env, s: State, action: Action, e: HostError)
    requires s.host == Returned(Err(e)) && Caused(env, s, e)
    ensures Caused(env, Step(env, s, action), e)
  {
    if FromElsewhere(e) {
      ElsewhereStays(env, s, action, e);
    } else {
      ReturnedIsFinal(env, s, action);
      ClockGoesOn(env, s, action);
      if LastFrameRefused(env, s.consumed, s.answered, s.now, e) {
        LaterRefusal(env, s.consumed, s.answered, s.now, Step(env, s, action).now, e);
      }
    }
  }

  lemma ClockGoesOn(env: Env, s: State, action: Action)
    ensures s.now <= Step(env, s, action).now
  {
  }

  /** The error that ends the queue is what the output ends with. */
  lemma QueueTells(p: Pipe, consumed: seq<string>)
    requires StreamOk(p, consumed) && p.queue != [] && p.queue[0].Broken? && p.queue[0].error != Io
    ensures OutputEnds(p, consumed, p.queue[0].error)
  {
    assert EndedQueue(p, consumed);
    var last := |p.queue| - 1;
    if last > 0 {
      FirstIsWhole(p.queue, last);
    }
    assert p.queue[..last] == [];
    assert consumed + Payloads(p.queue[..last]) == consumed;
    assert p.out == p.out[..p.pos] + p.out[p.pos..];
    StreamOfFrames(consumed, p.out[p.pos..]);
  }

  lemma FrontGone(consumed: seq<string>, text: string)
    ensures (consumed + [text])[..|consumed + [text]| - 1] == consumed
    ensures (consumed + [text])[|consumed + [text]| - 1] == text
  {
  }

  /** A frame that fails the run does so for a reason of its own, or because
      serving it failed. */
  lemma FrameEnds(env: Env, s: State, phase: Phase, text: string, service: Option<HostError>)
    requires InPhase(env.serde, s.consumed, s.answered, s.spool, phase) && Possible(env, s.now, service)
    ensures EndsForCause(env, ReceiveFrame(env, s, phase, text, service))
  {
    var t := ReceiveFrame(env, s, phase, text, service);
    var d := Digest(env.serde, env.requestId, phase, ExpectedId(phase), text, s.spool, service);
    FrontGone(s.consumed, text);
    HostLoop.DigestFailures(env.serde, env.requestId, phase, ExpectedId(phase), text, s.spool, service);
    DigestShape(env.serde, env.requestId, phase, ExpectedId(phase), text, s.spool, service);
    match d
    case Continue(_) =>
    case Fail(_, e) => RefusalIsCause(env, t, s.consumed, phase, text, s.spool, service, e);
    case Reply(_, result) =>
      if t.host.Returned? {
        if phase.Initializing? {
          InitializeIsCause(env, t, text, service, result);
        } else {
          DiscoverIsCause(env, t, text, result);
        }
      }
  }

  lemma RefusedLast(
    env: Env, t: State, before: seq<string>, phase: Phase, text: string, st: RunState, service: Option<HostError>,
    e: HostError)
    requires t.consumed == before + [text] && InPhase(env.serde, before, t.answered, st, phase)
    requires Possible(env, t.now, service) && RefusedBy(env, phase, text, st, service, e)
    ensures LastFrameRefused(env, t.consumed, t.answered, t.now, e)
  {
    FrontGone(before, text);
  }

  /** A service's error is one a service can have. */
  lemma ServiceIsCause(env: Env, t: State, e: HostError)
    requires Possible(env, t.now, Some(e)) && FromElsewhere(e)
    ensures CausedElsewhere(env, t, e)
  {
  }

  lemma RefusalIsCause(
    env: Env, t: State, before: seq<string>, phase: Phase, text: string, st: RunState, service: Option<HostError>,
    e: HostError)
    requires t.consumed == before + [text] && InPhase(env.serde, before, t.answered, st, phase)
    requires Possible(env, t.now, service) && RefusedBy(env, phase, text, st, service, e)
    requires HostLoop.HostsOwn(e) ==> service == Some(e)
    ensures Caused(env, t, e)
  {
    if FromElsewhere(e) {
      ServiceIsCause(env, t, e);
    } else {
      RefusedLast(env, t, before, phase, text, st, service, e);
    }
  }

  lemma InitializeIsCause(env: Env, t: State, text: string, service: Option<HostError>, result: Value)
    requires t.consumed != [] && t.consumed[|t.consumed| - 1] == text
    requires Answers(env.serde, text, "h-1", result) && Possible(env, t.now, service)
    requires AcceptInitialize(env, result, service).Err?
    ensures Caused(env, t, AcceptInitialize(env, result, service).error)
  {
    var e := AcceptInitialize(env, result, service).error;
    if AcceptInitialize(env, result, None) == Err(e) {
      assert LastAnswerRefused(env, t.consumed, e);
    }
  }

  lemma DiscoverIsCause(env: Env, t: State, text: string, result: Value)
    requires t.consumed != [] && t.consumed[|t.consumed| - 1] == text
    requires Answers(env.serde, text, "h-2", result) && env.serde.asCount(result).None?
    ensures Caused(env, t, MalformedJson)
  {
    assert LastAnswerRefused(env, t.consumed, MalformedJson);
  }

  /** Taking an item fails only for cause. */
  lemma ReceiveEnds(env: Env, s: State, service: Option<HostError>)
    requires Inv(env, s) && s.host.Receiving? && s.pipe.queue != [] && Possible(env, s.now, service)
    ensures EndsForCause(env, ReceiveItem(env, s, service))
  {
    var rest := s.(pipe := s.pipe.(queue := s.pipe.queue[1..]));
    match s.pipe.queue[0]
    case Whole(text) => FrameEnds(env, rest, s.host.phase, text, service);
    case Broken(e) =>
      if e != Io {
        QueueTells(s.pipe, s.consumed);
      }
  }

  /** What the invariant says while the host is past the discover response. */
  lemma LateFacts(env: Env, s: State)
    requires Inv(env, s) && !s.host.Returned?
    ensures StreamOk(s.pipe, s.consumed)
    ensures s.host.Joining? ==> s.exit == Some(s.host.code)
    ensures s.host.Draining? ==>
              && s.exit == Some(0) && s.consumed != []
              && AnswersDiscover(env.serde, s.consumed[|s.consumed| - 1], s.host.count)
  {
  }

  /** A drained queue whose account does not add up. */
  lemma DrainEnds(env: Env, s: State)
    requires StreamOk(s.pipe, s.consumed) && s.host.Draining? && s.exit == Some(0) && s.consumed != []
    requires AnswersDiscover(env.serde, s.consumed[|s.consumed| - 1], s.host.count)
    ensures EndsForCause(env, s.(host := Returned(FinalResult(s))))
  {
    var queue := s.pipe.queue;
    if s.pipe.overflow || (queue != [] && queue[0].Whole?) {
    } else if queue != [] && queue[0].error != Eof {
      if queue[0].error != Io {
        QueueTells(s.pipe, s.consumed);
      }
    } else if s.host.count != |s.spool.records| {
      assert ReportsOther(env, s.consumed[|s.consumed| - 1], s.host.count, |s.spool.records|);
    }
  }

  /** With the sender gone and the queue empty there was an overflow: otherwise
      the reader's last error would still be there. */
  lemma DisconnectMeansOverflow(p: Pipe, consumed: seq<string>)
    requires StreamOk(p, consumed) && p.reader.Finished? && p.queue == []
    ensures p.overflow
  {
  }

  lemma DisconnectEnds(env: Env, s: State)
    requires StreamOk(s.pipe, s.consumed) && WaitsRightly(env, s) && !s.host.Returned?
    ensures WaitsRightly(env, NoticeDisconnect(s)) && EndsForCause(env, NoticeDisconnect(s))
  {
    if s.host.Receiving? && s.pipe.queue == [] && s.pipe.reader.Finished? {
      DisconnectMeansOverflow(s.pipe, s.consumed);
    }
  }

  lemma WaitEnds(env: Env, s: State, action: Action)
    requires WaitsRightly(env, s) && !s.host.Returned?
    requires s.host.Joining? ==> s.exit == Some(s.host.code)
    requires !action.Receive? && !action.Drain? && !action.FindDisconnected?
    ensures WaitsRightly(env, Step(env, s, action)) && EndsForCause(env, Step(env, s, action))
  {
  }

  lemma ReceiveWaits(env: Env, s: State, service: Option<HostError>)
    requires s.host.Receiving? && s.pipe.queue != []
    ensures WaitsRightly(env, ReceiveItem(env, s, service))
  {
  }

  lemma EndStep(env: Env, s: State, action: Action)
    requires Inv(env, s) && WaitsRightly(env, s) && EndsForCause(env, s)
    ensures WaitsRightly(env, Step(env, s, action)) && EndsForCause(env, Step(env, s, action))
  {
    if s.host.Returned? {
      ReturnedIsFinal(env, s, action);
      if s.host.result.Err? {
        CauseStays(env, s, action, s.host.result.error);
      }
    } else if action.Receive? {
      if s.host.Receiving? && s.pipe.queue != [] && Possible(env, s.now, action.service) {
        ReceiveEnds(env, s, action.service);
        ReceiveWaits(env, s, action.service);
      }
    } else {
      LateFacts(env, s);
      if action.FindDisconnected? {
        DisconnectEnds(env, s);
      } else if !action.Drain? {
        WaitEnds(env, s, action);
      } else if s.host.Draining? {
        DrainEnds(env, s);
      }
    }
  }

  lemma {:induction false} EndInv(env: Env, actions: seq<Action>)
    ensures WaitsRightly(env, Run(env, actions)) && EndsForCause(env, Run(env, actions))
  {
    if actions != [] {
      var before := actions[..|actions| - 1];
      EndInv(env, before);
      RunInv(env, before);
      EndStep(env, Run(env, before), actions[|actions| - 1]);
    }
  }

  /** Every failure of every run has its cause. A timeout comes after the
      deadline, a cancellation after one was requested, a full queue from an
      overflow, a bad exit status from the child; the host gives up on the child
      no sooner than the grace period after the discover response; an early exit
      or a broken frame is what the plugin's output ends with, or a frame could
      not be written; and for anything else the last frame taken is to blame,
      all those before it being in order. */
  lemma FailureHasCause(env: Env, actions: seq<Action>, e: HostError)
    requires Run(env, actions).host == Returned(Err(e))
    ensures Caused(env, Run(env, actions), e)
  {
    EndInv(env, actions);
  }

  /** In particular, without a token set the host never reports a cancellation. */
  lemma CancelledOnlyOnRequest(env: Env, actions: seq<Action>)
    requires Run(env, actions).host == Returned(Err(Cancelled))
    ensures env.hasToken && Run(env, actions).cancelled
  {
    FailureHasCause(env, actions, Cancelled);
  }

  // ---------------------------------------------------------------------
  // Cancellation
  // ---------------------------------------------------------------------

  /** Frames taken, and the one being waited for. */
  function Taken(s: State): nat {
    |s.consumed| + if s.host.Receiving? then 1 else 0
  }

  lemma FrameTakesOne(env: Env, s: State, phase: Phase, text: string, service: Option<HostError>)
    ensures var t := ReceiveFrame(env, s, phase, text, service);
            t.consumed == s.consumed + [text] && !t.host.Receiving? && t.cancelled == s.cancelled
  {
  }

  lemma CancelledTakesNoMore(env: Env, s: State, action: Action)
    requires env.hasToken && s.cancelled
    ensures Step(env, s, action).cancelled && Taken(Step(env, s, action)) <= Taken(s)
  {
    if action.Receive? && s.host.Receiving? && s.pipe.queue != [] && s.pipe.queue[0].Whole? {
      var rest := s.(pipe := s.pipe.(queue := s.pipe.queue[1..]));
      FrameTakesOne(env, rest, s.host.phase, s.pipe.queue[0].payload, action.service);
    }
  }

  /** From the moment a token is set the host takes at most one more frame: the
      one it was already waiting for. */
  lemma {:induction false} CancelTakesAtMostOneMore(env: Env, actions: seq<Action>, more: seq<Action>)
    requires env.hasToken && Run(env, actions).cancelled
    ensures var s := Run(env, actions + more);
            s.cancelled && |s.consumed| <= Taken(s) <= Taken(Run(env, actions)) <= |Run(env, actions).consumed| + 1
  {
    if more == [] {
      assert actions + more == actions;
    } else {
      var front := more[..|more| - 1];
      CancelTakesAtMostOneMore(env, actions, front);
      assert (actions + more)[..|actions + more| - 1] == actions + front;
      CancelledTakesNoMore(env, Run(env, actions + front), more[|more| - 1]);
    }
  }
}
