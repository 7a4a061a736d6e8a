/** Exactly which outputs of a plugin a run can end in success with, and with
    what result: the conversations that the host accepts frame by frame. */
module HostSuccess {
  import opened Wrappers
  import opened Json
  import opened Framing
  import opened Spool
  import opened HostRun
  import Utf8

  /** What a conversation has come to: the manifest, the reported count and the
      final spool. */
  datatype Talk = Talk(manifest: Manifest, count: nat, spool: RunState)

  datatype Progress = Talking(phase: Phase, spool: RunState) | Agreed(talk: Talk) | Lost

  /** One more frame, served without an error if it asks for something. */
  function Hear(env: Env, p: Progress, text: string): Progress {
    if !p.Talking? then Lost
    else
      match Digest(env.serde, env.requestId, p.phase, ExpectedId(p.phase), text, p.spool, None)
      case Fail(_, _) => Lost
      case Continue(next) => Talking(p.phase, next)
      case Reply(_, result) =>
        if p.phase.Initializing? then
          var accepted := AcceptInitialize(env, result, None);
          if accepted.Ok? then Talking(Discovering(accepted.value), p.spool) else Lost
        else
          var count := env.serde.asCount(result);
          if count.Some? then Agreed(Talk(p.phase.manifest, count.value, p.spool)) else Lost
  }

  /** What the host makes of a whole conversation. */
  function Heard(env: Env, frames: seq<string>): Progress {
    if frames == [] then Talking(Initializing, NewRunState(Some(EffectiveMax(env.recordLimit))))
    else Hear(env, Heard(env, frames[..|frames| - 1]), frames[|frames| - 1])
  }

  lemma HeardNext(env: Env, frames: seq<string>, k: nat)
    requires k < |frames|
    ensures Heard(env, frames[..k + 1]) == Hear(env, Heard(env, frames[..k]), frames[k])
  {
    assert frames[..k + 1][..k] == frames[..k];
  }

  lemma HeardAppend(env: Env, frames: seq<string>, text: string)
    ensures Heard(env, frames + [text]) == Hear(env, Heard(env, frames), text)
  {
    assert (frames + [text])[..|frames|] == frames;
  }

  /** Everything written has been consumed and the host is about to wait. */
  predicate Quiet(s: State, phase: Phase) {
    && s.host == Checking(phase) && !s.cancelled && s.exit.None?
    && s.pipe == Pipe(s.pipe.out, false, |s.pipe.out|, Reading, [], false)
  }

  /** The state after a list of steps from `s`. */
  function From(env: Env, s: State, actions: seq<Action>): State
    decreases |actions|
  {
    if actions == [] then s else From(env, Step(env, s, actions[0]), actions[1..])
  }

  lemma {:induction false} FromRun(env: Env, before: seq<Action>, actions: seq<Action>)
    ensures From(env, Run(env, before), actions) == Run(env, before + actions)
    decreases |actions|
  {
    if actions == [] {
      assert before + actions == before;
    } else {
      var next := before + [actions[0]];
      assert next[..|next| - 1] == before;
      FromRun(env, next, actions[1..]);
      assert next + actions[1..] == before + actions;
    }
  }

  lemma {:induction false} FromAppend(env: Env, s: State, a: seq<Action>, b: seq<Action>)
    ensures From(env, s, a + b) == From(env, From(env, s, a), b)
    decreases |a|
  {
    if a == [] {
      assert a + b == b;
    } else {
      assert (a + b)[1..] == a[1..] + b;
      FromAppend(env, Step(env, s, a[0]), a[1..], b);
    }
  }

  /** The plugin writes one frame and it travels to the host. */
  function Deliver(text: string): seq<Action>
    requires Fits(text)
  {
    [Emit(Frame(text)), ReadNext, Offer, CheckCancel, Receive(None)]
  }

  lemma ReadsFrame(out: Bytes, text: string)
    requires Fits(text)
    ensures var p := Pipe(out + Frame(text), false, |out|, Reading, [], false);
            ReadNextFrame(p) == Pipe(out + Frame(text), false, |out| + |Frame(text)|, Holding(Whole(text)), [], false)
  {
    var all := out + Frame(text);
    assert all[|out|..] == Frame(text) == Frame(text) + [];
    FrontOfFrame(text, []);
  }

  lemma Steps(env: Env, s: State, a: Action, rest: seq<Action>)
    ensures From(env, s, [a] + rest) == From(env, Step(env, s, a), rest)
  {
    assert ([a] + rest)[1..] == rest;
  }

  lemma FiveSteps(env: Env, s: State, a: Action, b: Action, c: Action, d: Action, e: Action)
    ensures From(env, s, [a, b, c, d, e])
         == Step(env, Step(env, Step(env, Step(env, Step(env, s, a), b), c), d), e)
  {
    Steps(env, s, a, [b, c, d, e]);
    Steps(env, Step(env, s, a), b, [c, d, e]);
    Steps(env, Step(env, Step(env, s, a), b), c, [d, e]);
    Steps(env, Step(env, Step(env, Step(env, s, a), b), c), d, [e]);
    Steps(env, Step(env, Step(env, Step(env, Step(env, s, a), b), c), d), e, []);
  }

  function Grown(p: Pipe, text: string): Pipe
    requires Fits(text)
  {
    Pipe(p.out + Frame(text), false, |p.out| + |Frame(text)|, Reading, [], false)
  }

  lemma HostIsReplaced(env: Env, s: State, host: Host, phase: Phase, text: string)
    ensures ReceiveFrame(env, s.(host := host), phase, text, None) == ReceiveFrame(env, s, phase, text, None)
  {
  }

  lemma Takes(env: Env, s: State, phase: Phase, text: string)
    requires s.host.Receiving? && s.host.phase == phase && s.pipe.queue == [Whole(text)]
    ensures Step(env, s, Receive(None))
         == ReceiveFrame(env, s.(pipe := s.pipe.(queue := [])), phase, text, None)
  {
    assert s.pipe.queue[1..] == [];
  }

  lemma Waits(env: Env, s: State, phase: Phase) returns (host: Host)
    requires s.host == Checking(phase) && !s.cancelled
    ensures Step(env, s, CheckCancel) == s.(host := host) && host.Receiving? && host.phase == phase
  {
    host := Step(env, s, CheckCancel).host;
  }

  lemma Delivered(env: Env, s: State, phase: Phase, text: string)
    requires Quiet(s, phase) && Fits(text)
    ensures From(env, s, Deliver(text)) == ReceiveFrame(env, s.(pipe := Grown(s.pipe, text)), phase, text, None)
  {
    ReadsFrame(s.pipe.out, text);
    FiveSteps(env, s, Emit(Frame(text)), ReadNext, Offer, CheckCancel, Receive(None));
    var read := s.(pipe := Grown(s.pipe, text).(reader := Holding(Whole(text))));
    assert Step(env, Step(env, s, Emit(Frame(text))), ReadNext) == read;
    var offered := s.(pipe := Grown(s.pipe, text).(queue := [Whole(text)]));
    assert Step(env, read, Offer) == offered;
    var host := Waits(env, offered, phase);
    Takes(env, offered.(host := host), phase, text);
    HostIsReplaced(env, s.(pipe := Grown(s.pipe, text)), host, phase, text);
  }

  lemma Continues(env: Env, s: State, phase: Phase, text: string, spool: RunState)
    requires Quiet(s, phase) && Fits(text)
    requires Digest(env.serde, env.requestId, phase, ExpectedId(phase), text, s.spool, None) == Continue(spool)
    ensures var n := From(env, s, Deliver(text));
            Quiet(n, phase) && n.spool == spool
  {
    Delivered(env, s, phase, text);
  }

  lemma Opens(env: Env, s: State, text: string, result: Value, manifest: Manifest)
    requires Quiet(s, Initializing) && Fits(text)
    requires Digest(env.serde, env.requestId, Initializing, "h-1", text, s.spool, None) == Reply(s.spool, result)
    requires AcceptInitialize(env, result, None) == Ok(manifest)
    ensures var n := From(env, s, Deliver(text));
            Quiet(n, Discovering(manifest)) && n.spool == s.spool
  {
    Delivered(env, s, Initializing, text);
  }

  lemma Closes(env: Env, s: State, text: string, result: Value, manifest: Manifest, count: nat)
    requires Quiet(s, Discovering(manifest)) && Fits(text)
    requires Digest(env.serde, env.requestId, Discovering(manifest), "h-2", text, s.spool, None)
          == Reply(s.spool, result)
    requires env.serde.asCount(result) == Some(count)
    ensures var n := From(env, s, Deliver(text));
            && n.host == Reaping(manifest, count, s.now + env.grace) && n.spool == s.spool && n.exit.None?
            && n.pipe == Pipe(n.pipe.out, false, |n.pipe.out|, Reading, [], false)
  {
    Delivered(env, s, Discovering(manifest), text);
  }

  // ---------------------------------------------------------------------
  // Every accepted conversation has a run
  // ---------------------------------------------------------------------

  /** How the child ends once its last frame is answered. It may still write a
      bare header: the reader takes that for the end of the stream. */
  function Farewell(tail: Utf8.Bytes): seq<Action> {
    [Emit(tail), CloseStdout, ReadNext, Offer, Exit(0)] + [Reap, Join, Drain]
  }

  lemma ReadsEnd(out: Utf8.Bytes, tail: Utf8.Bytes)
    requires tail == [] || BareHeader(tail)
    ensures ReadNextFrame(Pipe(out + tail, true, |out|, Reading, [], false))
         == Pipe(out + tail, true, |out|, Holding(Broken(Eof)), [], false)
  {
    assert (out + tail)[|out|..] == tail;
    RustEofExactly(tail);
  }

  /** The run from `s` ends in the result that `t` describes, all output being
      `out`. */
  ghost predicate Succeeds(env: Env, s: State, actions: seq<Action>, t: Talk, out: Utf8.Bytes) {
    var end := From(env, s, actions);
    && end.host == Returned(Ok(HostRun(t.manifest, t.count, t.spool.records, t.spool.logs, 0)))
    && end.pipe.out == out
  }

  /** The discover response has been taken and the child is being waited for. */
  predicate Waiting(s: State, t: Talk) {
    && s.host.Reaping? && s.host.manifest == t.manifest && s.host.count == t.count && s.exit.None?
    && s.pipe == Pipe(s.pipe.out, false, |s.pipe.out|, Reading, [], false)
    && s.spool == t.spool && t.count == |t.spool.records|
  }

  /** The state once the child has written its last bytes and exited. */
  function Exited(s: State, tail: Utf8.Bytes): State {
    s.(pipe := Pipe(s.pipe.out + tail, true, |s.pipe.out|, Finished, [Broken(Eof)], false), exit := Some(0))
  }

  lemma ChildExits(env: Env, s: State, t: Talk, tail: Utf8.Bytes)
    requires Waiting(s, t) && (tail == [] || BareHeader(tail))
    ensures From(env, s, [Emit(tail), CloseStdout, ReadNext, Offer, Exit(0)]) == Exited(s, tail)
  {
    ReadsEnd(s.pipe.out, tail);
    FiveSteps(env, s, Emit(tail), CloseStdout, ReadNext, Offer, Exit(0));
  }

  lemma ThreeSteps(env: Env, s: State, a: Action, b: Action, c: Action)
    ensures From(env, s, [a, b, c]) == Step(env, Step(env, Step(env, s, a), b), c)
  {
    Steps(env, s, a, [b, c]);
    Steps(env, Step(env, s, a), b, [c]);
    Steps(env, Step(env, Step(env, s, a), b), c, []);
  }

  lemma HostFinishes(env: Env, s: State, t: Talk)
    requires s.host.Reaping? && s.host.manifest == t.manifest && s.host.count == t.count && s.exit == Some(0)
    requires s.pipe.reader.Finished? && !s.pipe.overflow && s.pipe.queue == [Broken(Eof)]
    requires s.spool == t.spool && t.count == |t.spool.records|
    ensures Succeeds(env, s, [Reap, Join, Drain], t, s.pipe.out)
  {
    ThreeSteps(env, s, Reap, Join, Drain);
  }

  lemma SaysFarewell(env: Env, s: State, t: Talk, tail: Utf8.Bytes)
    requires Waiting(s, t) && (tail == [] || BareHeader(tail))
    ensures Succeeds(env, s, Farewell(tail), t, s.pipe.out + tail)
  {
    ChildExits(env, s, t, tail);
    HostFinishes(env, Exited(s, tail), t);
    FromAppend(env, s, [Emit(tail), CloseStdout, ReadNext, Offer, Exit(0)], [Reap, Join, Drain]);
  }

  /** From the start, `initialize` is sent and the first `k` frames go by. */
  lemma {:induction false} Proceeds(env: Env, frames: seq<string>, k: nat) returns (actions: seq<Action>)
    requires AllFit(frames) && k <= |frames| && Heard(env, frames[..k]).Talking?
    ensures var s := From(env, Start(env), actions);
            var p := Heard(env, frames[..k]);
            Quiet(s, p.phase) && s.spool == p.spool && s.pipe.out == FrameAll(frames[..k])
  {
    if k == 0 {
      actions := [SendInitialize(None)];
      Steps(env, Start(env), SendInitialize(None), []);
      assert [SendInitialize(None)] + [] == actions && frames[..0] == [];
    } else {
      HeardNext(env, frames, k - 1);
      var before := Proceeds(env, frames, k - 1);
      var s := From(env, Start(env), before);
      var p := Heard(env, frames[..k - 1]);
      GoesOn(env, s, p, frames[k - 1]);
      actions := before + Deliver(frames[k - 1]);
      FromAppend(env, Start(env), before, Deliver(frames[k - 1]));
      PrefixFrames(frames, k - 1);
    }
  }

  lemma PrefixFrames(frames: seq<string>, k: nat)
    requires AllFit(frames) && k < |frames|
    ensures FrameAll(frames[..k + 1]) == FrameAll(frames[..k]) + Frame(frames[k])
  {
    FrameAllAppend(frames[..k], frames[k]);
    assert frames[..k + 1] == frames[..k] + [frames[k]];
  }

  /** A frame after which the conversation is still going on. */
  lemma GoesOn(env: Env, s: State, p: Progress, text: string)
    requires p.Talking? && Quiet(s, p.phase) && s.spool == p.spool && Fits(text)
    requires Hear(env, p, text).Talking?
    ensures var n := From(env, s, Deliver(text));
            var q := Hear(env, p, text);
            Quiet(n, q.phase) && n.spool == q.spool && n.pipe.out == s.pipe.out + Frame(text)
  {
    Delivered(env, s, p.phase, text);
    var d := Digest(env.serde, env.requestId, p.phase, ExpectedId(p.phase), text, p.spool, None);
    DigestShape(env.serde, env.requestId, p.phase, ExpectedId(p.phase), text, p.spool, None);
    if d.Continue? {
      Continues(env, s, p.phase, text, d.state);
    } else {
      Opens(env, s, text, d.result, AcceptInitialize(env, d.result, None).value);
    }
  }

  /** The frame with which it is concluded. */
  lemma IsAgreed(env: Env, s: State, p: Progress, text: string)
    requires p.Talking? && Quiet(s, p.phase) && s.spool == p.spool && Fits(text)
    requires Hear(env, p, text).Agreed?
    requires var t := Hear(env, p, text).talk; t.count == |t.spool.records|
    ensures var n := From(env, s, Deliver(text));
            Waiting(n, Hear(env, p, text).talk) && n.pipe.out == s.pipe.out + Frame(text)
  {
    Delivered(env, s, p.phase, text);
    var d := Digest(env.serde, env.requestId, p.phase, ExpectedId(p.phase), text, p.spool, None);
    DigestShape(env.serde, env.requestId, p.phase, ExpectedId(p.phase), text, p.spool, None);
    Closes(env, s, text, d.result, p.phase.manifest, env.serde.asCount(d.result).value);
  }

  lemma AgreedLast(env: Env, frames: seq<string>)
    requires Heard(env, frames).Agreed?
    ensures frames != [] && Heard(env, frames[..|frames| - 1]).Talking?
  {
  }

  /** Every conversation that ends with the right count has a run that returns
      it: the records, logs and manifest the frames carried, and exit status 0;
      and so it is if the plugin's last bytes are a bare header. */
  lemma AcceptedConversationSucceeds(env: Env, frames: seq<string>, t: Talk, tail: Utf8.Bytes)
    returns (actions: seq<Action>)
    requires AllFit(frames) && Heard(env, frames) == Agreed(t) && t.count == |t.spool.records|
    requires tail == [] || BareHeader(tail)
    ensures var s := Run(env, actions);
            && s.host == Returned(Ok(HostRun(t.manifest, t.count, t.spool.records, t.spool.logs, 0)))
            && s.pipe.out == FrameAll(frames) + tail
  {
    AgreedLast(env, frames);
    var n := |frames| - 1;
    var before := Proceeds(env, frames, n);
    var s := From(env, Start(env), before);
    IsAgreed(env, s, Heard(env, frames[..n]), frames[n]);
    var waiting := From(env, s, Deliver(frames[n]));
    SaysFarewell(env, waiting, t, tail);
    PrefixFrames(frames, n);
    assert frames[..n + 1] == frames;
    FromAppend(env, s, Deliver(frames[n]), Farewell(tail));
    FromAppend(env, Start(env), before, Deliver(frames[n]) + Farewell(tail));
    actions := before + (Deliver(frames[n]) + Farewell(tail));
    FromRun(env, [], actions);
    assert [] + actions == actions;
  }

  // ---------------------------------------------------------------------
  // Every success is of such a conversation
  // ---------------------------------------------------------------------

  /** The host's phase and spool are those of the conversation so far. */
  ghost predicate InStep(env: Env, s: State) {
    match s.host
    case Opening => Heard(env, s.consumed) == Talking(Initializing, s.spool)
    case Checking(phase) => Heard(env, s.consumed) == Talking(phase, s.spool)
    case Receiving(phase, _) => Heard(env, s.consumed) == Talking(phase, s.spool)
    case Reaping(manifest, count, _) => Heard(env, s.consumed) == Agreed(Talk(manifest, count, s.spool))
    case Joining(manifest, count, _) => Heard(env, s.consumed) == Agreed(Talk(manifest, count, s.spool))
    case Draining(manifest, count, _) => Heard(env, s.consumed) == Agreed(Talk(manifest, count, s.spool))
    case Returned(result) =>
      result.Ok? ==>
        && Heard(env, s.consumed) == Agreed(Talk(result.value.manifest, result.value.discoverRecords, s.spool))
        && result.value.discoverRecords == |s.spool.records|
        && result.value.records == s.spool.records && result.value.logs == s.spool.logs
  }

  /** A frame that does not fail the run is heard as if every service worked. */
  lemma ServiceOnlyFails(
    env: Env, phase: Phase, text: string, st: RunState, service: Option<HostError>)
    ensures var d := Digest(env.serde, env.requestId, phase, ExpectedId(phase), text, st, service);
            !d.Fail? ==> d == Digest(env.serde, env.requestId, phase, ExpectedId(phase), text, st, None)
  {
  }

  lemma FrameInStep(env: Env, s: State, phase: Phase, text: string, service: Option<HostError>)
    requires Heard(env, s.consumed) == Talking(phase, s.spool)
    ensures InStep(env, ReceiveFrame(env, s, phase, text, service))
  {
    HeardAppend(env, s.consumed, text);
    ServiceOnlyFails(env, phase, text, s.spool, service);
    DigestShape(env.serde, env.requestId, phase, ExpectedId(phase), text, s.spool, service);
  }

  lemma OtherInStep(env: Env, s: State, action: Action)
    requires InStep(env, s) && !action.Receive?
    ensures InStep(env, Step(env, s, action))
  {
  }

  lemma StepInStep(env: Env, s: State, action: Action)
    requires InStep(env, s)
    ensures InStep(env, Step(env, s, action))
  {
    if !action.Receive? {
      OtherInStep(env, s, action);
    } else if s.host.Receiving? && s.pipe.queue != [] && s.pipe.queue[0].Whole? {
      var rest := s.(pipe := s.pipe.(queue := s.pipe.queue[1..]));
      FrameInStep(env, rest, s.host.phase, s.pipe.queue[0].payload, action.service);
    }
  }

  lemma {:induction false} RunInStep(env: Env, actions: seq<Action>)
    ensures InStep(env, Run(env, actions))
  {
    if actions != [] {
      RunInStep(env, actions[..|actions| - 1]);
      StepInStep(env, Run(env, actions[..|actions| - 1]), actions[|actions| - 1]);
    }
  }

  /** Some run writes `out` and returns `run`. */
  ghost predicate CanReturn(env: Env, out: Utf8.Bytes, run: HostRun) {
    exists actions :: Run(env, actions).host == Returned(Ok(run)) && Run(env, actions).pipe.out == out
  }

  /** `out` is the frames of an accepted conversation that comes to `run`, then
      nothing or a bare header. */
  ghost predicate Comes(env: Env, out: Utf8.Bytes, run: HostRun, frames: seq<string>, tail: Utf8.Bytes) {
    && AllFit(frames) && (tail == [] || BareHeader(tail)) && out == FrameAll(frames) + tail
    && Heard(env, frames).Agreed?
    && var t := Heard(env, frames).talk;
       && t.count == |t.spool.records|
       && run == HostRun(t.manifest, t.count, t.spool.records, t.spool.logs, 0)
  }

  /** Exactly what a plugin can write for a run to succeed, and exactly what the
      run then returns. */
  lemma SuccessExactly(env: Env, out: Utf8.Bytes, run: HostRun)
    ensures CanReturn(env, out, run) <==> exists frames, tail :: Comes(env, out, run, frames, tail)
  {
    if CanReturn(env, out, run) {
      var actions :| Run(env, actions).host == Returned(Ok(run)) && Run(env, actions).pipe.out == out;
      SuccessComes(env, actions, run);
    }
    if exists frames, tail :: Comes(env, out, run, frames, tail) {
      var frames, tail :| Comes(env, out, run, frames, tail);
      var actions := AcceptedConversationSucceeds(env, frames, Heard(env, frames).talk, tail);
      assert Run(env, actions).host == Returned(Ok(run)) && Run(env, actions).pipe.out == out;
    }
  }

  lemma SuccessComes(env: Env, actions: seq<Action>, run: HostRun)
    requires Run(env, actions).host == Returned(Ok(run))
    ensures exists frames, tail :: Comes(env, Run(env, actions).pipe.out, run, frames, tail)
  {
    var s := Run(env, actions);
    var tail := SuccessConsumesEverything(env, actions, run);
    RunInStep(env, actions);
    RunInv(env, actions);
    assert run.exitCode == 0;
    assert Comes(env, s.pipe.out, run, s.consumed, tail);
  }
}
