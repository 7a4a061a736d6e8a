/** The run controller of the management UI: one mutex-protected record shared
    by the start and cancel handlers and by the worker threads. Each critical
    section is one atomic operation. */
module UiRun {
  import opened Wrappers
  import HostEndings
  import HostRun
  import Spool

  /** A cancel token is a flag shared by the handler and the worker: here an
      index into the flags ever made. */
  type Token = nat

  datatype ActiveRun = ActiveRun(runId: string, pluginId: string, token: Token, cancellable: bool)

  datatype Status = Succeeded | CancelledRun | Failed

  datatype CompletedRun = CompletedRun(runId: string, pluginId: string, status: Status)

  datatype Management = Management(active: Option<ActiveRun>, last: Option<CompletedRun>, tokens: seq<bool>)

  /** A cancel request's body: absent, not JSON, or JSON with or without a
      string `run_id`. */
  datatype CancelBody = NoBody | BadJson | Json(runId: Option<string>)

  datatype RunError = RunCancelled | NotActive

  const FRESH := Management(None, None, [])

  // ---------------------------------------------------------------------
  // The critical sections
  // ---------------------------------------------------------------------

  function Started(m: Management, runId: string, pluginId: string): Management
    requires m.active.None?
  {
    m.(active := Some(ActiveRun(runId, pluginId, |m.tokens|, true)), tokens := m.tokens + [false])
  }

  function CancelStatus(m: Management, body: CancelBody): nat {
    if body.BadJson? then 400
    else if m.active.None? then 409
    else if body.Json? && body.runId.Some? && body.runId.value != m.active.value.runId then 404
    else if !m.active.value.cancellable then 409
    else 202
  }

  function Cancelled(m: Management, body: CancelBody): Management {
    if CancelStatus(m, body) == 202 && m.active.value.token < |m.tokens|
    then m.(tokens := m.tokens[m.active.value.token := true])
    else m
  }

  predicate IsCancelled(m: Management, token: Token) {
    token < |m.tokens| && m.tokens[token]
  }

  function GateResult(m: Management, runId: string, token: Token): Result<(), RunError> {
    if m.active.None? || m.active.value.runId != runId then Err(NotActive)
    else if IsCancelled(m, m.active.value.token) || IsCancelled(m, token) then Err(RunCancelled)
    else Ok(())
  }

  function Gated(m: Management, runId: string, token: Token): Management {
    if GateResult(m, runId, token).Ok? then m.(active := Some(m.active.value.(cancellable := false))) else m
  }

  function Finished(m: Management, completed: CompletedRun): Management {
    Management(if m.active.Some? && m.active.value.runId == completed.runId then None else m.active,
               Some(completed), m.tokens)
  }

  class ManagementState {
    var active: Option<ActiveRun>
    var last: Option<CompletedRun>
    var tokens: seq<bool>

    ghost predicate Valid()
      reads this
    {
      active.Some? ==> active.value.token < |tokens|
    }

    function State(): Management
      reads this
    {
      Management(active, last, tokens)
    }

    constructor ()
      ensures Valid() && State() == FRESH
    {
      active, last, tokens := None, None, [];
    }

    /** The critical section of `discover_response`. */
    method Start(runId: string, pluginId: string) returns (status: nat, token: Token)
      requires Valid()
      modifies this
      ensures Valid()
      ensures status == if old(active).None? then 202 else 409
      ensures State() == if old(active).None? then Started(old(State()), runId, pluginId) else old(State())
      ensures status == 202 ==> token == |old(tokens)|
    {
      token := |tokens|;
      if active.Some? {
        return 409, token;
      }
      tokens := tokens + [false];
      active := Some(ActiveRun(runId, pluginId, token, true));
      status := 202;
    }

    /** `cancel_response`. */
    method Cancel(body: CancelBody) returns (status: nat)
      requires Valid()
      modifies this`tokens
      ensures Valid()
      ensures status == CancelStatus(old(State()), body) && State() == Cancelled(old(State()), body)
    {
      if body.BadJson? {
        return 400;
      }
      if active.None? {
        return 409;
      }
      if body.Json? && body.runId.Some? && body.runId.value != active.value.runId {
        return 404;
      }
      if !active.value.cancellable {
        return 409;
      }
      tokens := tokens[active.value.token := true];
      status := 202;
    }

    /** `mark_run_ingesting`. */
    method MarkIngesting(runId: string, token: Token) returns (r: Result<(), RunError>)
      requires Valid()
      modifies this`active
      ensures Valid()
      ensures r == GateResult(old(State()), runId, token) && State() == Gated(old(State()), runId, token)
    {
      if active.None? || active.value.runId != runId {
        return Err(NotActive);
      }
      if tokens[active.value.token] || IsCancelled(State(), token) {
        return Err(RunCancelled);
      }
      active := Some(active.value.(cancellable := false));
      r := Ok(());
    }

    /** The worker's clean-up. */
    method Finish(completed: CompletedRun)
      requires Valid()
      modifies this`active, this`last
      ensures Valid() && State() == Finished(old(State()), completed)
    {
      if active.Some? && active.value.runId == completed.runId {
        active := None;
      }
      last := Some(completed);
    }
  }

  // ---------------------------------------------------------------------
  // Handlers and workers interleaved
  // ---------------------------------------------------------------------

  /** Where a worker is. `Finishing` has a result but has not cleaned up. */
  datatype Phase =
    | Spawning
    | Running
    | AtGate
    | Ingesting
    | Finishing(status: Status)
    | Done(status: Status)

  /** Worker `w` holds token `w`. Run ids need not be unique. */
  datatype Worker = Worker(runId: string, pluginId: string, phase: Phase)

  datatype Event =
    | CancelAccepted(run: nat)
    | GatePassed(run: nat)
    | Ingested(run: nat)
    | Completed(run: nat, status: Status)

  datatype System = System(management: Management, workers: seq<Worker>, log: seq<Event>)

  /** How the worker's call of the host ends: before a plugin is running, or
      with any run of the host that has returned. */
  datatype HostEnd =
    | SetupFailed
    | HostReturned(env: HostRun.Env, actions: seq<HostRun.Action>)

  /** The run has returned, and the flag it polled is the worker's token. */
  predicate HasEnded(m: Management, token: Token, how: HostEnd) {
    how.HostReturned? ==>
      var run := HostRun.Run(how.env, how.actions);
      how.env.hasToken && run.host.Returned? && (run.cancelled ==> IsCancelled(m, token))
  }

  /** `run_ui_discover` turns an error into a status. */
  function AfterHost(m: Management, token: Token, how: HostEnd): Phase
    requires HasEnded(m, token, how)
  {
    if how.SetupFailed? then Finishing(Failed)
    else
      var result := HostRun.Run(how.env, how.actions).host.result;
      if result.Ok? then AtGate
      else if result.error == Spool.Cancelled then Finishing(CancelledRun)
      else Finishing(Failed)
  }

  datatype Action =
    | DoStart(runId: string, pluginId: string)
    | DoSpawn(worker: nat)
    | DoHostEnd(worker: nat, how: HostEnd)
    | DoGate(worker: nat)
    | DoIngest(worker: nat, committed: bool)
    | DoFinish(worker: nat)
    | DoCancel(body: CancelBody)

  const INITIAL := System(FRESH, [], [])

  predicate At(s: System, w: nat, phase: Phase) {
    w < |s.workers| && s.workers[w].phase == phase
  }

  function Moved(s: System, w: nat, phase: Phase): System
    requires w < |s.workers|
  {
    s.(workers := s.workers[w := s.workers[w].(phase := phase)])
  }

  function Logged(s: System, e: Event): System {
    s.(log := s.log + [e])
  }

  function AfterGate(s: System, w: nat): System
    requires w < |s.workers|
  {
    var next := s.(management := Gated(s.management, s.workers[w].runId, w));
    match GateResult(s.management, s.workers[w].runId, w)
    case Ok(_) => Logged(Moved(next, w, Ingesting), GatePassed(w))
    case Err(RunCancelled) => Moved(next, w, Finishing(CancelledRun))
    case Err(NotActive) => Moved(next, w, Finishing(Failed))
  }

  function AfterFinish(s: System, w: nat): System
    requires w < |s.workers| && s.workers[w].phase.Finishing?
  {
    var status := s.workers[w].phase.status;
    var completed := CompletedRun(s.workers[w].runId, s.workers[w].pluginId, status);
    Logged(Moved(s.(management := Finished(s.management, completed)), w, Done(status)), Completed(w, status))
  }

  function AfterCancel(s: System, body: CancelBody): System {
    var next := s.(management := Cancelled(s.management, body));
    if CancelStatus(s.management, body) == 202 then Logged(next, CancelAccepted(s.management.active.value.token))
    else next
  }

  /** A disabled action changes nothing. */
  function Step(s: System, a: Action): System {
    match a
    case DoStart(runId, pluginId) =>
      if s.management.active.Some? then s
      else s.(management := Started(s.management, runId, pluginId),
              workers := s.workers + [Worker(runId, pluginId, Spawning)])
    case DoSpawn(w) => if At(s, w, Spawning) then Moved(s, w, Running) else s
    case DoHostEnd(w, how) =>
      if At(s, w, Running) && HasEnded(s.management, w, how) then Moved(s, w, AfterHost(s.management, w, how)) else s
    case DoGate(w) => if At(s, w, AtGate) then AfterGate(s, w) else s
    case DoIngest(w, committed) =>
      if !At(s, w, Ingesting) then s
      else if committed then Logged(Moved(s, w, Finishing(Succeeded)), Ingested(w))
      else Moved(s, w, Finishing(Failed))
    case DoFinish(w) => if w < |s.workers| && s.workers[w].phase.Finishing? then AfterFinish(s, w) else s
    case DoCancel(body) => AfterCancel(s, body)
  }

  function Run(actions: seq<Action>): System {
    if actions == [] then INITIAL else Step(Run(actions[..|actions| - 1]), actions[|actions| - 1])
  }

  // ---------------------------------------------------------------------
  // The invariant
  // ---------------------------------------------------------------------

  predicate Live(w: Worker) {
    !w.phase.Done?
  }

  /** The phases a run can be in once it has passed the gate. */
  predicate PastGate(phase: Phase) {
    phase.Ingesting? || phase == Finishing(Succeeded) || phase == Done(Succeeded)
  }

  /** What is recorded about run `i` agrees with where its worker is. */
  ghost predicate Agrees(active: Option<ActiveRun>, worker: Worker, cancelled: bool, log: seq<Event>, i: nat) {
    && (Live(worker) <==> active.Some? && active.value.token == i)
    && (Live(worker) ==> active.value.runId == worker.runId)
    && (CancelAccepted(i) in log <==> cancelled)
    && (GatePassed(i) in log ==> !cancelled && (Live(worker) ==> !active.value.cancellable))
    && (GatePassed(i) in log <==> PastGate(worker.phase) || FailedAfterGate(worker, log, i))
    && (Ingested(i) in log <==> worker.phase == Finishing(Succeeded) || worker.phase == Done(Succeeded))
    && (worker.phase == Finishing(CancelledRun) || worker.phase == Done(CancelledRun) ==> cancelled)
    && (forall status :: Completed(i, status) in log <==> worker.phase == Done(status))
  }

  predicate FailedAfterGate(worker: Worker, log: seq<Event>, i: nat) {
    GatePassed(i) in log && (worker.phase == Finishing(Failed) || worker.phase == Done(Failed))
  }

  ghost predicate LogBounded(log: seq<Event>, n: nat) {
    forall e :: e in log ==> e.run < n
  }

  ghost predicate Inv(s: System) {
    && |s.management.tokens| == |s.workers|
    && (s.management.active.Some? ==> s.management.active.value.token < |s.workers|)
    && LogBounded(s.log, |s.workers|)
    && forall i :: 0 <= i < |s.workers| ==>
         Agrees(s.management.active, s.workers[i], s.management.tokens[i], s.log, i)
  }

  lemma StartKeepsInv(s: System, runId: string, pluginId: string)
    requires Inv(s)
    ensures Inv(Step(s, DoStart(runId, pluginId)))
  {
  }

  lemma SpawnKeepsInv(s: System, w: nat)
    requires Inv(s)
    ensures Inv(Step(s, DoSpawn(w)))
  {
  }

  /** The host reports a cancellation only if the token it polls was set. */
  lemma HostTellsTheTruth(m: Management, token: Token, how: HostEnd)
    requires HasEnded(m, token, how) && AfterHost(m, token, how) == Finishing(CancelledRun)
    ensures IsCancelled(m, token)
  {
    HostEndings.CancelledOnlyOnRequest(how.env, how.actions);
  }

  lemma PhaseMovesKeepInv(s: System, w: nat, phase: Phase)
    requires Inv(s) && At(s, w, Running)
    requires phase in {AtGate, Finishing(CancelledRun), Finishing(Failed)}
    requires phase == Finishing(CancelledRun) ==> IsCancelled(s.management, w)
    ensures Inv(Moved(s, w, phase))
  {
  }

  lemma HostEndKeepsInv(s: System, w: nat, how: HostEnd)
    requires Inv(s)
    ensures Inv(Step(s, DoHostEnd(w, how)))
  {
    if At(s, w, Running) && HasEnded(s.management, w, how) {
      var phase := AfterHost(s.management, w, how);
      if phase == Finishing(CancelledRun) {
        HostTellsTheTruth(s.management, w, how);
      }
      PhaseMovesKeepInv(s, w, phase);
    }
  }

  /** A run that is over is not touched by an event of another. */
  lemma AgreesStill(
    a: Option<ActiveRun>, b: Option<ActiveRun>, worker: Worker, cancelled: bool, log: seq<Event>, e: Event, i: nat)
    requires Agrees(a, worker, cancelled, log, i) && !Live(worker) && e.run != i
    requires b.Some? ==> b.value.token != i
    ensures Agrees(b, worker, cancelled, log + [e], i)
  {
  }

  /** One live worker moves and logs an event of its own. */
  lemma OwnEventKeepsInv(s: System, t: System, w: nat, e: Event)
    requires Inv(s) && w < |s.workers| && Live(s.workers[w]) && e.run == w
    requires t.log == s.log + [e] && t.management.tokens == s.management.tokens && |t.workers| == |s.workers|
    requires t.workers == s.workers[w := s.workers[w].(phase := t.workers[w].phase)]
    requires t.management.active.Some? ==> t.management.active.value.token == w
    requires Agrees(t.management.active, t.workers[w], t.management.tokens[w], t.log, w)
    ensures Inv(t)
  {
    assert Agrees(s.management.active, s.workers[w], s.management.tokens[w], s.log, w);
    forall i | 0 <= i < |t.workers|
      ensures Agrees(t.management.active, t.workers[i], t.management.tokens[i], t.log, i)
    {
      if i != w {
        assert Agrees(s.management.active, s.workers[i], s.management.tokens[i], s.log, i);
        AgreesStill(s.management.active, t.management.active, t.workers[i], t.management.tokens[i], s.log, e, i);
      }
    }
  }

  lemma GateKeepsInv(s: System, w: nat)
    requires Inv(s)
    ensures Inv(Step(s, DoGate(w)))
  {
    if At(s, w, AtGate) {
      assert Agrees(s.management.active, s.workers[w], s.management.tokens[w], s.log, w);
      var t := AfterGate(s, w);
      if GateResult(s.management, s.workers[w].runId, w).Ok? {
        OwnEventKeepsInv(s, t, w, GatePassed(w));
      }
    }
  }

  lemma FailureKeepsInv(s: System, w: nat)
    requires Inv(s) && At(s, w, Ingesting)
    ensures Inv(Moved(s, w, Finishing(Failed)))
  {
    assert Agrees(s.management.active, s.workers[w], s.management.tokens[w], s.log, w);
  }

  lemma IngestKeepsInv(s: System, w: nat, committed: bool)
    requires Inv(s)
    ensures Inv(Step(s, DoIngest(w, committed)))
  {
    if At(s, w, Ingesting) {
      if committed {
        assert Agrees(s.management.active, s.workers[w], s.management.tokens[w], s.log, w);
        OwnEventKeepsInv(s, Step(s, DoIngest(w, committed)), w, Ingested(w));
      } else {
        FailureKeepsInv(s, w);
      }
    }
  }

  lemma FinishKeepsInv(s: System, w: nat)
    requires Inv(s)
    ensures Inv(Step(s, DoFinish(w)))
  {
    if w < |s.workers| && s.workers[w].phase.Finishing? {
      var e := Completed(w, s.workers[w].phase.status);
      assert Agrees(s.management.active, s.workers[w], s.management.tokens[w], s.log, w);
      OwnEventKeepsInv(s, AfterFinish(s, w), w, e);
    }
  }

  lemma CancelKeepsInv(s: System, body: CancelBody)
    requires Inv(s)
    ensures Inv(Step(s, DoCancel(body)))
  {
    if CancelStatus(s.management, body) == 202 {
      var w := s.management.active.value.token;
      var t := AfterCancel(s, body);
      assert Agrees(s.management.active, s.workers[w], s.management.tokens[w], s.log, w);
      forall i | 0 <= i < |t.workers|
        ensures Agrees(t.management.active, t.workers[i], t.management.tokens[i], t.log, i)
      {
        assert Agrees(s.management.active, s.workers[i], s.management.tokens[i], s.log, i);
        if i != w {
          AgreesStill(s.management.active, t.management.active, t.workers[i], t.management.tokens[i], s.log,
                      CancelAccepted(w), i);
        }
      }
    }
  }

  lemma StepKeepsInv(s: System, a: Action)
    requires Inv(s)
    ensures Inv(Step(s, a))
  {
    match a
    case DoStart(runId, pluginId) => StartKeepsInv(s, runId, pluginId);
    case DoSpawn(w) => SpawnKeepsInv(s, w);
    case DoHostEnd(w, how) => HostEndKeepsInv(s, w, how);
    case DoGate(w) => GateKeepsInv(s, w);
    case DoIngest(w, committed) => IngestKeepsInv(s, w, committed);
    case DoFinish(w) => FinishKeepsInv(s, w);
    case DoCancel(body) => CancelKeepsInv(s, body);
  }

  lemma {:induction false} RunInv(actions: seq<Action>)
    ensures Inv(Run(actions))
  {
    if actions != [] {
      RunInv(actions[..|actions| - 1]);
      StepKeepsInv(Run(actions[..|actions| - 1]), actions[|actions| - 1]);
    }
  }

  // ---------------------------------------------------------------------
  // What the controller promises
  // ---------------------------------------------------------------------

  /** Once a cancel of a run has been answered 202, that run never ingests,
      never passes the gate and never completes as succeeded: not before, and
      not at any later time. */
  lemma AcceptedCancelNeverIngests(actions: seq<Action>, more: seq<Action>, w: nat)
    requires CancelAccepted(w) in Run(actions).log
    ensures var log := Run(actions + more).log;
            && CancelAccepted(w) in log
            && Ingested(w) !in log && GatePassed(w) !in log && Completed(w, Succeeded) !in log
  {
    LogGrows(actions, more);
    RunInv(actions + more);
    var s := Run(actions + more);
    assert CancelAccepted(w) in s.log;
    assert CancelAccepted(w).run < |s.workers|;
    assert Agrees(s.management.active, s.workers[w], s.management.tokens[w], s.log, w);
  }

  lemma {:induction false} LogGrows(actions: seq<Action>, more: seq<Action>)
    ensures Run(actions).log <= Run(actions + more).log
  {
    if more == [] {
      assert actions + more == actions;
    } else {
      var front := more[..|more| - 1];
      LogGrows(actions, front);
      assert (actions + more)[..|actions + more| - 1] == actions + front;
      StepLogGrows(Run(actions + front), more[|more| - 1]);
    }
  }

  lemma StepLogGrows(s: System, a: Action)
    ensures s.log <= Step(s, a).log
  {
  }

  /** Once a run has passed the gate, every cancel is refused while it is
      active, and none of it is ever accepted, before or after. */
  lemma GateClosesCancel(actions: seq<Action>, more: seq<Action>, w: nat, body: CancelBody)
    requires GatePassed(w) in Run(actions).log
    ensures var s := Run(actions + more);
            && CancelAccepted(w) !in s.log
            && (s.management.active.Some? && s.management.active.value.token == w ==>
                  CancelStatus(s.management, body) != 202 && Cancelled(s.management, body) == s.management)
  {
    LogGrows(actions, more);
    RunInv(actions + more);
    var s := Run(actions + more);
    assert GatePassed(w) in s.log;
    assert GatePassed(w).run < |s.workers|;
    assert Agrees(s.management.active, s.workers[w], s.management.tokens[w], s.log, w);
  }

  /** At most one worker is live; the controller is active exactly while one
      is, and then names it, even if run ids repeat. */
  lemma ActiveIsTheLiveWorker(actions: seq<Action>, w: nat, v: nat)
    requires w < |Run(actions).workers| && v < |Run(actions).workers|
    ensures var s := Run(actions);
            && (Live(s.workers[w]) && Live(s.workers[v]) ==> w == v)
            && (Live(s.workers[w]) <==> s.management.active.Some? && s.management.active.value.token == w)
            && (Live(s.workers[w]) ==> s.management.active.value.runId == s.workers[w].runId)
    ensures var s := Run(actions);
            s.management.active.Some? ==>
              && s.management.active.value.token < |s.workers|
              && Live(s.workers[s.management.active.value.token])
  {
    RunInv(actions);
    var s := Run(actions);
    assert Agrees(s.management.active, s.workers[w], s.management.tokens[w], s.log, w);
    assert Agrees(s.management.active, s.workers[v], s.management.tokens[v], s.log, v);
    if s.management.active.Some? {
      var t := s.management.active.value.token;
      assert Agrees(s.management.active, s.workers[t], s.management.tokens[t], s.log, t);
    }
  }

  /** A worker's clean-up always frees the controller, and the gate never finds
      its run missing. */
  lemma CleanUpAlwaysClears(actions: seq<Action>, w: nat)
    requires w < |Run(actions).workers|
    ensures var s := Run(actions);
            && (s.workers[w].phase.Finishing? ==> Step(s, DoFinish(w)).management.active.None?)
            && (s.workers[w].phase == AtGate ==> GateResult(s.management, s.workers[w].runId, w) != Err(NotActive))
  {
    RunInv(actions);
    var s := Run(actions);
    assert Agrees(s.management.active, s.workers[w], s.management.tokens[w], s.log, w);
  }

  /** A run is reported cancelled only if a cancel of it was accepted, and
      succeeded exactly if it ingested. */
  lemma StatusTellsTheTruth(actions: seq<Action>, w: nat)
    ensures var log := Run(actions).log;
            && (Completed(w, CancelledRun) in log ==> CancelAccepted(w) in log)
            && (Completed(w, Succeeded) in log ==> Ingested(w) in log)
            && (Ingested(w) in log ==> Completed(w, CancelledRun) !in log && Completed(w, Failed) !in log)
  {
    RunInv(actions);
    var s := Run(actions);
    if w < |s.workers| {
      assert Agrees(s.management.active, s.workers[w], s.management.tokens[w], s.log, w);
    } else {
      forall e | e in s.log
        ensures e.run != w
      {
      }
      assert CancelAccepted(w).run == w && Ingested(w).run == w;
      assert Completed(w, Succeeded).run == w && Completed(w, CancelledRun).run == w && Completed(w, Failed).run == w;
    }
  }
}
