/** The host's waiting loops, run against an adversarial plugin: they stop, and
    they stop in time. */
module HostLoop {
  import opened Wrappers
  import opened Json
  import opened Spool
  import opened HostRun
  import opened Framing

  /** What the `n`-th receive finds, after at most `delay` milliseconds: an item,
      nothing before its deadline, or a queue whose sender is gone. */
  datatype Arrival = Arrives(item: Item, delay: nat) | Silence | Gone(overflowed: bool)

  /** An unbounded script for one wait: the plugin may emit forever, and the
      token may be cancelled at any poll. */
  datatype World = World(arrivals: nat -> Arrival, cancels: nat -> bool, services: nat -> Option<HostError>)

  datatype Received = Item(item: Item) | TimedOut | Disconnected(overflowed: bool)

  /** Until when a receive waits: the deadline, or with a token the next poll. */
  function Until(env: Env, now: nat): nat {
    if env.hasToken && now + POLL_MILLIS < env.deadline then now + POLL_MILLIS else env.deadline
  }

  /** What a receive returns, and when. */
  function Waited(arrival: Arrival, now: nat, until: nat): (Received, nat)
    requires now <= until
  {
    match arrival
    case Silence => (TimedOut, until + 1)
    case Gone(overflowed) => (Disconnected(overflowed), now + 1)
    case Arrives(item, delay) => (Item(item), if now + delay < until then now + delay + 1 else until + 1)
  }

  /** A service can report only what it can have met by now. */
  function ServiceAt(env: Env, now: nat, service: Option<HostError>): (r: Option<HostError>)
    ensures Possible(env, now, r)
  {
    if Possible(env, now, service) then service else None
  }

  /** One turn of the loop: the clock, the receives made, the spool and the
      frames taken afterwards, and the result if there is one. */
  datatype Outcome = Outcome(
    now: nat,
    calls: nat,
    state: RunState,
    consumed: seq<string>,
    done: Option<Result<Value, HostError>>)

  function TurnOf(
    env: Env, world: World, phase: Phase, now: nat, calls: nat, state: RunState, consumed: seq<string>): Outcome
  {
    if env.hasToken && world.cancels(calls) then Outcome(now, calls, state, consumed, Some(Err(Cancelled)))
    else if env.deadline < now then Outcome(now, calls, state, consumed, Some(Err(Timeout)))
    else
      var (got, later) := Waited(world.arrivals(calls), now, Until(env, now));
      match got
      case TimedOut =>
        Outcome(later, calls + 1, state, consumed,
                if env.hasToken && later < env.deadline then None else Some(Err(Timeout)))
      case Disconnected(overflowed) =>
        Outcome(later, calls + 1, state, consumed, Some(Err(if overflowed then FrameQueueFull else PluginExited)))
      case Item(Broken(e)) =>
        Outcome(later, calls + 1, state, consumed, Some(Err(if e == Eof then PluginExited else FrameFailure(e))))
      case Item(Whole(text)) =>
        var service := ServiceAt(env, later, world.services(calls));
        match Digest(env.serde, env.requestId, phase, ExpectedId(phase), text, state, service)
        case Fail(next, e) => Outcome(later, calls + 1, next, consumed + [text], Some(Err(e)))
        case Reply(next, result) => Outcome(later, calls + 1, next, consumed + [text], Some(Ok(result)))
        case Continue(next) => Outcome(later, calls + 1, next, consumed + [text], None)
  }

  lemma TurnAdvances(
    env: Env, world: World, phase: Phase, now: nat, calls: nat, state: RunState, consumed: seq<string>)
    ensures var o := TurnOf(env, world, phase, now, calls, state, consumed);
            o.done.None? ==> now < o.now <= env.deadline + 1
  {
  }

  /** The whole wait: turns until there is a result. */
  function WaitOf(
    env: Env, world: World, phase: Phase, now: nat, calls: nat, state: RunState, consumed: seq<string>): Outcome
    decreases env.deadline + 1 - now
  {
    var o := TurnOf(env, world, phase, now, calls, state, consumed);
    TurnAdvances(env, world, phase, now, calls, state, consumed);
    if o.done.Some? then o else WaitOf(env, world, phase, o.now, o.calls, o.state, o.consumed)
  }

  class Receiver {
    const env: Env
    const world: World
    var now: nat
    var calls: nat
    var state: RunState
    var consumed: seq<string>

    constructor (env: Env, world: World, now: nat, state: RunState, consumed: seq<string>)
      ensures this.env == env && this.world == world && this.now == now && calls == 0
      ensures this.state == state && this.consumed == consumed
    {
      this.env, this.world, this.now, this.calls := env, world, now, 0;
      this.state, this.consumed := state, consumed;
    }

    /** `recv_frame`: each wait ends at `until` at the latest and costs at least
        one tick. */
    method RecvFrame(until: nat) returns (r: Received)
      modifies this`now, this`calls
      ensures until < old(now) ==> r == TimedOut && now == old(now) && calls == old(calls)
      ensures old(now) <= until ==>
                && (r, now) == Waited(world.arrivals(old(calls)), old(now), until)
                && old(now) < now <= until + 1 && calls == old(calls) + 1
    {
      if until < now {
        return TimedOut;
      }
      var arrival := world.arrivals(calls);
      calls := calls + 1;
      match arrival
      case Silence => r, now := TimedOut, until + 1;
      case Gone(overflowed) => r, now := Disconnected(overflowed), now + 1;
      case Arrives(item, delay) =>
        r := Item(item);
        now := if now + delay < until then now + delay + 1 else until + 1;
    }

    /** One frame: keep it and go on, or finish. */
    method TakeFrame(phase: Phase, source: string, text: string, service: Option<HostError>, ghost start: seq<string>)
      returns (done: Option<Result<Value, HostError>>)
      requires phase.Discovering? ==> source == phase.manifest.sourceName
      requires UnderWay(env.serde, source, start, consumed, state) && Possible(env, now, service)
      modifies this`consumed, this`state
      ensures WithinCaps(state) && start <= consumed
      ensures consumed == old(consumed) + [text]
      ensures var d := Digest(env.serde, env.requestId, phase, ExpectedId(phase), text, old(state), service);
              && state == d.state
              && done == Verdict(d)
      ensures done.None? ==> UnderWay(env.serde, source, start, consumed, state)
      ensures done.Some? ==> Reports(env, phase, source, start, done.value, now, false, consumed, state)
    {
      var digested := Digest(env.serde, env.requestId, phase, ExpectedId(phase), text, state, service);
      FrameTaken(env, phase, source, start, consumed, text, state, service, now);
      consumed := consumed + [text];
      state := digested.state;
      done := Verdict(digested);
    }

    /** Every receive of these was made after a poll that saw no cancellation. */
    ghost predicate PolledClear(from: nat, to: nat) {
      forall n :: from <= n < to ==> !world.cancels(n)
    }

    /** One turn of the loop: poll, receive, and keep the frame or finish. */
    method Turn(phase: Phase, source: string, ghost start: seq<string>) returns (done: Option<Result<Value, HostError>>)
      requires phase.Discovering? ==> source == phase.manifest.sourceName
      requires UnderWay(env.serde, source, start, consumed, state)
      modifies this`now, this`calls, this`consumed, this`state
      ensures Outcome(now, calls, state, consumed, done)
           == TurnOf(env, world, phase, old(now), old(calls), old(state), old(consumed))
      ensures now <= env.deadline + 1 || now == old(now)
      ensures 0 <= calls - old(calls) <= now - old(now)
      ensures env.hasToken ==> PolledClear(old(calls), calls)
      ensures WithinCaps(state) && start <= consumed
      ensures done.None? ==> UnderWay(env.serde, source, start, consumed, state) && old(now) < now <= env.deadline + 1
      ensures done.Some? ==>
                Reports(env, phase, source, start, done.value, now, world.cancels(calls), consumed, state)
    {
      if env.hasToken && world.cancels(calls) {
        return Some(Err(Cancelled));
      }
      var turn := calls;
      var got := RecvFrame(Until(env, now));
      if got.TimedOut? {
        return if env.hasToken && now < env.deadline then None else Some(Err(Timeout));
      }
      if got.Disconnected? {
        return Some(Err(if got.overflowed then FrameQueueFull else PluginExited));
      }
      if got.item.Broken? {
        return Some(Err(if got.item.error == Eof then PluginExited else FrameFailure(got.item.error)));
      }
      done := TakeFrame(phase, source, got.item.payload, ServiceAt(env, now, world.services(turn)), start);
    }

    /** `read_until_response`. It returns for every world, endless logs included:
        each turn that does not return brings `now` closer to the deadline, so
        there are at most as many receives as ticks until just past it. With a
        token, none of them follows a poll that saw it set. */
    method ReadUntilResponse(phase: Phase, source: string) returns (r: Result<Value, HostError>)
      requires phase.Discovering? ==> source == phase.manifest.sourceName
      requires WithinCaps(state) && Accounts(env.serde, source, consumed, state)
      modifies this
      ensures Outcome(now, calls, state, consumed, Some(r))
           == WaitOf(env, world, phase, old(now), old(calls), old(state), old(consumed))
      ensures now <= env.deadline + 1 || now == old(now)
      ensures calls - old(calls) <= now - old(now)
      ensures env.hasToken ==> PolledClear(old(calls), calls)
      ensures WithinCaps(state) && old(consumed) <= consumed
      ensures Reports(env, phase, source, old(consumed), r, now, world.cancels(calls), consumed, state)
    {
      ghost var start := consumed;
      while true
        invariant WaitOf(env, world, phase, now, calls, state, consumed)
               == WaitOf(env, world, phase, old(now), old(calls), old(state), old(consumed))
        invariant now <= env.deadline + 1 || now == old(now)
        invariant 0 <= calls - old(calls) <= now - old(now)
        invariant env.hasToken ==> PolledClear(old(calls), calls)
        invariant UnderWay(env.serde, source, start, consumed, state)
        decreases env.deadline + 1 - now
      {
        var done := Turn(phase, source, start);
        if done.Some? {
          return done.value;
        }
      }
    }
  }

  /** What a result says: an answer follows kept messages; a timeout comes after
      the deadline; a cancellation is of a token that was seen set. */
  ghost predicate Reports(
    env: Env, phase: Phase, source: string, start: seq<string>, r: Result<Value, HostError>, now: nat,
    seenSet: bool, consumed: seq<string>, state: RunState)
  {
    && (r.Ok? ==> Answered(env.serde, source, start, consumed, state, ExpectedId(phase), r.value))
    && (r == Err(Timeout) ==> env.deadline <= now)
    && (r == Err(Cancelled) ==> env.hasToken && seenSet)
  }

  /** Only plugin messages since `start`, all accounted for. */
  ghost predicate UnderWay(serde: Serde, source: string, start: seq<string>, frames: seq<string>, st: RunState) {
    WithinCaps(st) && Accounts(serde, source, frames, st) && start <= frames && AllNotices(serde, frames[|start|..])
  }

  /** Plugin messages since `start`, then the awaited response. */
  ghost predicate Answered(
    serde: Serde, source: string, start: seq<string>, frames: seq<string>, st: RunState, id: string, result: Value)
  {
    && |start| < |frames| && start <= frames
    && AllNotices(serde, frames[|start|..|frames| - 1])
    && Answers(serde, frames[|frames| - 1], id, result)
    && Accounts(serde, source, frames, st)
  }

  function Verdict(d: Digested): Option<Result<Value, HostError>> {
    if d.Fail? then Some(Err(d.error)) else if d.Reply? then Some(Ok(d.result)) else None
  }

  lemma FrameTaken(
    env: Env, phase: Phase, source: string, start: seq<string>, frames: seq<string>, text: string, st: RunState,
    service: Option<HostError>, now: nat)
    requires phase.Discovering? ==> source == phase.manifest.sourceName
    requires UnderWay(env.serde, source, start, frames, st) && Possible(env, now, service)
    ensures start <= frames + [text]
    ensures var d := Digest(env.serde, env.requestId, phase, ExpectedId(phase), text, st, service);
            && WithinCaps(d.state)
            && (d.Continue? ==> UnderWay(env.serde, source, start, frames + [text], d.state))
            && (!d.Continue? ==>
                  Reports(env, phase, source, start, Verdict(d).value, now, false, frames + [text], d.state))
  {
    DigestKeepsCaps(env.serde, env.requestId, phase, ExpectedId(phase), text, st, service);
    DigestAccounts(env.serde, env.requestId, phase, ExpectedId(phase), frames, text, st, service, source);
    DigestFailures(env.serde, env.requestId, phase, ExpectedId(phase), text, st, service);
    SliceAppend(frames, text, |start|);
  }

  lemma {:induction false} PushAllFailures(serde: Serde, source: string, values: seq<Value>, st: RunState)
    ensures var h := PushAll(serde, source, values, st);
            h.Rejected? ==> h.error == MalformedJson || h.error == InvalidRecord
    decreases |values|
  {
    if values != [] && serde.asRecord(values[0]).Some? {
      PushAllFailures(serde, source, values[1..], st.(records := st.records + [serde.asRecord(values[0]).value]));
    }
  }

  /** The errors that a frame cannot cause by what it says. */
  predicate HostsOwn(error: HostError) {
    || error == Timeout || error == Cancelled || error == FrameQueueFull || error == PluginDidNotExit
    || error == PluginExited || error.PluginExitStatus? || error.FrameFailure? || error == Service
    || error == Protocol(CountMismatch) || error == Protocol(FrameAfterResponse)
  }

  lemma RecordFailures(serde: Serde, requestId: string, phase: Phase, value: Value, st: RunState)
    ensures var h := HandleRecord(serde, requestId, phase, value, st);
            h.Rejected? ==> !HostsOwn(h.error)
  {
    var params := Get(value, "params");
    if phase.Discovering? && params.Some? && RecordValues(params.value).Ok? {
      var values := RecordValues(params.value).value;
      var reserved := Reserve(st, values);
      if reserved.Ok? {
        PushAllFailures(serde, phase.manifest.sourceName, values, reserved.value);
      }
    }
  }

  lemma MessageFailures(
    serde: Serde, requestId: string, phase: Phase, name: string, value: Value, st: RunState,
    service: Option<HostError>)
    ensures var h := HandleMessage(serde, requestId, phase, name, value, st, service);
            h.Rejected? && HostsOwn(h.error) ==> service == Some(h.error)
  {
    RecordFailures(serde, requestId, phase, value, st);
  }

  /** A frame ends the run in one of these errors only if a service did. */
  lemma DigestFailures(
    serde: Serde, requestId: string, phase: Phase, expectedId: string, text: string, st: RunState,
    service: Option<HostError>)
    ensures var d := Digest(serde, requestId, phase, expectedId, text, st, service);
            d.Fail? && HostsOwn(d.error) ==> service == Some(d.error)
  {
    if serde.parse(text).Some? {
      var value := serde.parse(text).value;
      var name := AsStr(Get(value, "method"));
      if name.Some? {
        MessageFailures(serde, requestId, phase, name.value, value, st, service);
      }
    }
  }

  // ---------------------------------------------------------------------
  // Waiting for the child
  // ---------------------------------------------------------------------

  datatype Signal = Terminate(at: nat) | Kill(at: nat)

  /** A child that exits by itself at some time or never, and may react to
      SIGTERM after some time or never. SIGKILL is always reaped. */
  datatype Child = Child(exitsAt: Option<nat>, reaction: Option<nat>)

  const REAP_POLL_MILLIS: nat := 10

  class Reaper {
    const child: Child
    var now: nat
    var signals: seq<Signal>

    constructor (child: Child, now: nat)
      ensures this.child == child && this.now == now && signals == []
    {
      this.child, this.now, this.signals := child, now, [];
    }

    /** `try_wait`. */
    predicate Gone()
      reads this
    {
      || (child.exitsAt.Some? && child.exitsAt.value <= now)
      || (exists i :: 0 <= i < |signals| && (signals[i].Kill? ||
            (child.reaction.Some? && signals[i].at + child.reaction.value <= now)))
    }

    /** `wait_or_terminate`: true when the child was seen to exit unforced. At
        most two grace periods, each overrun by less than one poll. */
    method WaitOrTerminate(grace: nat) returns (exited: bool)
      requires signals == []
      modifies this
      ensures now < old(now) + 2 * grace + 2 * REAP_POLL_MILLIS
      ensures Gone()
      ensures exited ==> signals == [] && now < old(now) + grace + REAP_POLL_MILLIS
      ensures !exited ==> old(now) + grace <= now
      ensures child.exitsAt.Some? && child.exitsAt.value <= old(now) ==> exited && now == old(now)
      ensures forall i :: 0 <= i < |signals| && signals[i].Kill? ==>
                i == 1 && signals[0].Terminate? && signals[0].at + grace <= signals[1].at
    {
      var deadline := now + grace;
      while true
        invariant old(now) <= now < deadline + REAP_POLL_MILLIS
        invariant signals == []
        invariant child.exitsAt.Some? && child.exitsAt.value <= old(now) ==> now == old(now)
        decreases deadline + REAP_POLL_MILLIS - now
      {
        if Gone() {
          return true;
        }
        if now >= deadline {
          TerminateTree(grace);
          return false;
        }
        now := now + REAP_POLL_MILLIS;
      }
    }

    /** `terminate_tree`. */
    method TerminateTree(grace: nat)
      requires signals == []
      modifies this
      ensures old(now) <= now < old(now) + grace + REAP_POLL_MILLIS
      ensures Gone()
      ensures forall i :: 0 <= i < |signals| && signals[i].Kill? ==>
                i == 1 && signals[0].Terminate? && signals[0].at + grace <= signals[1].at
    {
      if Gone() {
        return;
      }
      signals := [Terminate(now)];
      var deadline := now + grace;
      while now < deadline
        invariant signals == [Terminate(old(now))]
        invariant old(now) <= now < deadline + REAP_POLL_MILLIS
        decreases deadline - now
      {
        if Gone() {
          return;
        }
        now := now + REAP_POLL_MILLIS;
      }
      signals := signals + [Kill(now)];
      assert signals[1].Kill?;
    }
  }
}
