/** The receive loop of the host, run against a script, is the host of a discover
    run: whatever the other parties do while it waits, a turn of the loop is that
    host's own steps around theirs. */
module HostTurns {
  import opened Wrappers
  import opened Spool
  import opened HostRun
  import opened HostLoop
  import opened HostSuccess

  /** The steps of the plugin, the reader thread, the clock and the canceller. */
  predicate OfOthers(action: Action) {
    || action.Emit? || action.CloseStdout? || action.Exit? || action.Tick? || action.RequestCancel?
    || action.ReadNext? || action.ReadFails? || action.Offer? || action.RaiseFlag?
  }

  predicate AllOthers(actions: seq<Action>) {
    forall i :: 0 <= i < |actions| ==> OfOthers(actions[i])
  }

  /** The others leave the host, its spool and what it has taken alone. */
  lemma {:induction false} OthersKeepHost(env: Env, s: State, others: seq<Action>)
    requires AllOthers(others)
    ensures var t := From(env, s, others);
            t.host == s.host && t.spool == s.spool && t.consumed == s.consumed
    decreases |others|
  {
    if others != [] {
      assert OfOthers(others[0]);
      OthersKeepHost(env, Step(env, s, others[0]), others[1..]);
    }
  }

  /** What the script says arrives is what the queue has to offer. */
  predicate Offers(p: Pipe, arrival: Arrival) {
    match arrival
    case Silence => true
    case Arrives(item, _) => p.queue != [] && p.queue[0] == item
    case Gone(overflowed) => p.queue == [] && p.reader.Finished? && p.overflow == overflowed
  }

  /** The host's last step of a turn: what it does about the arrival. */
  function Reaction(env: Env, world: World, calls: nat, later: nat): Action {
    match world.arrivals(calls)
    case Silence => TimeOut
    case Gone(_) => FindDisconnected
    case Arrives(_, _) => Receive(ServiceAt(env, later, world.services(calls)))
  }

  /** While the host waits the others do `others`: then the clock shows what the
      script says, and the queue offers what it says. */
  predicate Suits(env: Env, world: World, calls: nat, s: State, others: seq<Action>) {
    && AllOthers(others)
    && (env.hasToken ==> (world.cancels(calls) <==> s.cancelled))
    && (s.now <= env.deadline && !(env.hasToken && s.cancelled) ==>
          var t := From(env, Step(env, s, CheckCancel), others);
          && t.now == Waited(world.arrivals(calls), s.now, Until(env, s.now)).1
          && Offers(t.pipe, world.arrivals(calls)))
  }

  /** A turn, spelt out in steps. */
  function TurnSteps(env: Env, world: World, calls: nat, s: State, others: seq<Action>): seq<Action> {
    if env.hasToken && s.cancelled then [CheckCancel]
    else if env.deadline < s.now then [CheckCancel, TimeOut]
    else
      var later := Waited(world.arrivals(calls), s.now, Until(env, s.now)).1;
      [CheckCancel] + others + [Reaction(env, world, calls, later)]
  }

  /** Where a turn leaves the host. */
  function HostAfter(env: Env, phase: Phase, o: Outcome, service: Option<HostError>): Host {
    match o.done
    case None => Checking(phase)
    case Some(Err(e)) => Returned(Err(e))
    case Some(Ok(result)) =>
      if phase.Initializing? then
        var accepted := AcceptInitialize(env, result, service);
        if accepted.Ok? then Checking(Discovering(accepted.value)) else Returned(Err(accepted.error))
      else
        var count := env.serde.asCount(result);
        if count.Some? then Reaping(phase.manifest, count.value, o.now + env.grace) else Returned(Err(MalformedJson))
  }

  ghost predicate Agrees(env: Env, t: State, phase: Phase, o: Outcome, service: Option<HostError>) {
    t.now == o.now && t.spool == o.state && t.consumed == o.consumed && t.host == HostAfter(env, phase, o, service)
  }

  lemma Waits(env: Env, s: State, phase: Phase)
    requires s.host == Checking(phase) && !(env.hasToken && s.cancelled)
    ensures Step(env, s, CheckCancel)
         == s.(host := Receiving(phase, if s.now <= env.deadline then Until(env, s.now) else env.deadline))
  {
  }

  lemma FrameReacts(env: Env, world: World, calls: nat, phase: Phase, s: State, t: State, text: string)
    requires t.host.Receiving? && t.host.phase == phase && t.spool == s.spool && t.consumed == s.consumed
    requires t.pipe.queue != [] && t.pipe.queue[0] == Whole(text)
    ensures var service := ServiceAt(env, t.now, world.services(calls));
            var d := Digest(env.serde, env.requestId, phase, ExpectedId(phase), text, s.spool, service);
            var o := Outcome(t.now, calls + 1, d.state, s.consumed + [text], Verdict(d));
            Agrees(env, Step(env, t, Receive(service)), phase, o, service)
  {
  }

  lemma Reacts(env: Env, world: World, calls: nat, phase: Phase, s: State, t: State)
    requires s.now <= env.deadline && !(env.hasToken && world.cancels(calls))
    requires t.host == Receiving(phase, Until(env, s.now)) && t.spool == s.spool && t.consumed == s.consumed
    requires t.now == Waited(world.arrivals(calls), s.now, Until(env, s.now)).1
    requires Offers(t.pipe, world.arrivals(calls))
    ensures var o := TurnOf(env, world, phase, s.now, calls, s.spool, s.consumed);
            Agrees(env, Step(env, t, Reaction(env, world, calls, t.now)), phase, o,
                   ServiceAt(env, o.now, world.services(calls)))
  {
    var arrival := world.arrivals(calls);
    if arrival.Arrives? && arrival.item.Whole? {
      FrameReacts(env, world, calls, phase, s, t, arrival.item.payload);
    }
  }

  /** A turn of the loop is a stretch of a discover run: the same clock, spool,
      frames taken and verdict. */
  lemma TurnIsSteps(env: Env, world: World, calls: nat, phase: Phase, s: State, others: seq<Action>)
    requires s.host == Checking(phase) && Suits(env, world, calls, s, others)
    ensures var o := TurnOf(env, world, phase, s.now, calls, s.spool, s.consumed);
            Agrees(env, From(env, s, TurnSteps(env, world, calls, s, others)), phase, o,
                   ServiceAt(env, o.now, world.services(calls)))
  {
    var checked := Step(env, s, CheckCancel);
    if env.hasToken && s.cancelled {
      Steps(env, s, CheckCancel, []);
      assert [CheckCancel] + [] == [CheckCancel];
    } else if env.deadline < s.now {
      Waits(env, s, phase);
      Steps(env, s, CheckCancel, [TimeOut]);
      Steps(env, checked, TimeOut, []);
    } else {
      Waits(env, s, phase);
      OthersKeepHost(env, checked, others);
      var t := From(env, checked, others);
      var last := Reaction(env, world, calls, t.now);
      Reacts(env, world, calls, phase, s, t);
      assert [CheckCancel] + others + [last] == [CheckCancel] + (others + [last]);
      Steps(env, s, CheckCancel, others + [last]);
      FromAppend(env, checked, others, [last]);
      Steps(env, t, last, []);
    }
  }

  // ---------------------------------------------------------------------
  // The whole wait
  // ---------------------------------------------------------------------

  /** Turn after turn, what the others do suits the script: `waits` has one list
      for every turn of the wait. */
  ghost predicate SuitsAll(env: Env, world: World, calls: nat, phase: Phase, s: State, waits: seq<seq<Action>>)
    decreases |waits|
  {
    && waits != []
    && Suits(env, world, calls, s, waits[0])
    && var o := TurnOf(env, world, phase, s.now, calls, s.spool, s.consumed);
       if o.done.Some? then |waits| == 1
       else SuitsAll(env, world, o.calls, phase, AfterTurn(env, world, calls, s, waits[0]), waits[1..])
  }

  function AfterTurn(env: Env, world: World, calls: nat, s: State, others: seq<Action>): State {
    From(env, s, TurnSteps(env, world, calls, s, others))
  }

  function WaitSteps(
    env: Env, world: World, calls: nat, phase: Phase, s: State, waits: seq<seq<Action>>): seq<Action>
    decreases |waits|
  {
    if waits == [] then []
    else
      var o := TurnOf(env, world, phase, s.now, calls, s.spool, s.consumed);
      TurnSteps(env, world, calls, s, waits[0])
      + WaitSteps(env, world, o.calls, phase, AfterTurn(env, world, calls, s, waits[0]), waits[1..])
  }

  ghost predicate EndsAs(env: Env, t: State, phase: Phase, o: Outcome) {
    exists service :: Possible(env, o.now, service) && Agrees(env, t, phase, o, service)
  }

  lemma TurnEndsAs(env: Env, world: World, calls: nat, phase: Phase, s: State, others: seq<Action>)
    requires s.host == Checking(phase) && Suits(env, world, calls, s, others)
    ensures EndsAs(env, AfterTurn(env, world, calls, s, others), phase,
                   TurnOf(env, world, phase, s.now, calls, s.spool, s.consumed))
  {
    var o := TurnOf(env, world, phase, s.now, calls, s.spool, s.consumed);
    TurnIsSteps(env, world, calls, phase, s, others);
    assert Possible(env, o.now, ServiceAt(env, o.now, world.services(calls)));
  }

  lemma OnlyTurn(env: Env, world: World, calls: nat, phase: Phase, s: State, waits: seq<seq<Action>>)
    requires |waits| == 1
    ensures WaitSteps(env, world, calls, phase, s, waits) == TurnSteps(env, world, calls, s, waits[0])
  {
    assert waits[1..] == [];
  }

  /** The whole wait is a stretch of a discover run. */
  lemma {:induction false} WaitIsSteps(
    env: Env, world: World, calls: nat, phase: Phase, s: State, waits: seq<seq<Action>>)
    requires s.host == Checking(phase) && SuitsAll(env, world, calls, phase, s, waits)
    ensures EndsAs(env, From(env, s, WaitSteps(env, world, calls, phase, s, waits)), phase,
                   WaitOf(env, world, phase, s.now, calls, s.spool, s.consumed))
    decreases |waits|
  {
    var o := TurnOf(env, world, phase, s.now, calls, s.spool, s.consumed);
    TurnEndsAs(env, world, calls, phase, s, waits[0]);
    if o.done.Some? {
      OnlyTurn(env, world, calls, phase, s, waits);
    } else {
      var t := AfterTurn(env, world, calls, s, waits[0]);
      WaitIsSteps(env, world, o.calls, phase, t, waits[1..]);
      FromAppend(env, s, TurnSteps(env, world, calls, s, waits[0]),
                 WaitSteps(env, world, o.calls, phase, t, waits[1..]));
    }
  }
}
