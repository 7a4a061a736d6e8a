/** The browser broker: the script that relays read requests from sandboxed
    frames to the local server, as a machine over its event handlers. */
module Broker {
  import opened Wrappers

  const MAX_CONCURRENT: nat := 8

  type Frame = nat

  datatype Stage = Fetching | Rejected | Settled

  /** An accepted request. `finished` says whether `finish` has run for it and
      `posted` whether the message it sent went out. */
  datatype Request = Request(frame: Frame, id: string, op: string, stage: Stage, finished: bool, posted: bool)

  /** A message to a frame, and the accepted request it answers, if any. */
  datatype Message = Message(frame: Frame, id: string, ok: bool, answers: Option<nat>)

  /** A message event: the frame it is from, if registered, and whether its
      data passes the script's checks. */
  datatype Incoming = Incoming(frame: Option<Frame>, wellFormed: bool, id: string, op: string)

  /** The fields of the server's JSON answer that the script looks at, and
      whether the message made of it is within the size limit. */
  datatype Answer = Answer(requestId: Option<string>, op: Option<string>, ok: Option<bool>, fits: bool)

  /** `pending` holds, under its id, the request that is waiting. */
  datatype State = State(
    pending: map<string, nat>,
    counts: map<Frame, nat>,
    requests: seq<Request>,
    outbox: seq<Message>)

  const INITIAL := State(map[], map[], [], [])

  function CountOf(counts: map<Frame, nat>, f: Frame): nat {
    if f in counts then counts[f] else 0
  }

  function Max(a: int, b: int): int {
    if a >= b then a else b
  }

  /** `Math.max(0, (counts.get(frame) || 1) - 1)`. */
  function Decremented(count: nat): nat {
    Max(0, (if count == 0 then 1 else count) - 1)
  }

  // ---------------------------------------------------------------------
  // The handlers
  // ---------------------------------------------------------------------

  /** `sendResult`; a `postMessage` that throws sends nothing. */
  function Sent(outbox: seq<Message>, m: Message, posts: bool): seq<Message> {
    if posts then outbox + [m] else outbox
  }

  predicate Accepts(pending: map<string, nat>, m: Incoming) {
    m.frame.Some? && m.wellFormed && m.id !in pending
  }

  /** The message listener. */
  function OnMessage(s: State, m: Incoming, posts: bool): State {
    if !Accepts(s.pending, m) then s
    else
      var f := m.frame.value;
      if CountOf(s.counts, f) >= MAX_CONCURRENT then
        s.(outbox := Sent(s.outbox, Message(f, m.id, false, None), posts))
      else
        State(s.pending[m.id := |s.requests|], s.counts[f := CountOf(s.counts, f) + 1],
              s.requests + [Request(f, m.id, m.op, Fetching, false, false)], s.outbox)
  }

  function Staged(s: State, r: nat, stage: Stage): State
    requires r < |s.requests|
  {
    s.(requests := s.requests[r := s.requests[r].(stage := stage)])
  }

  /** `finish`. */
  function Finished(s: State, r: nat, ok: bool, posts: bool, stage: Stage): State
    requires r < |s.requests|
  {
    var q := s.requests[r];
    State(s.pending - {q.id},
          s.counts[q.frame := Decremented(CountOf(s.counts, q.frame))],
          s.requests[r := q.(finished := true, posted := posts, stage := stage)],
          Sent(s.outbox, Message(q.frame, q.id, ok, Some(r)), posts))
  }

  predicate Matches(pending: map<string, nat>, requests: seq<Request>, r: nat, a: Answer)
    requires r < |requests|
  {
    var q := requests[r];
    && q.id in pending && pending[q.id] < |requests| && requests[pending[q.id]].frame == q.frame
    && a.requestId == Some(q.id) && a.op == Some(q.op) && a.ok.Some?
  }

  /** The second `then` handler. A throw inside it rejects the chain. */
  function OnAnswer(s: State, r: nat, a: Answer, posts: bool): State
    requires r < |s.requests|
  {
    if !Matches(s.pending, s.requests, r, a) then Staged(s, r, Rejected)
    else Finished(s, r, a.ok.value && a.fits, posts, if posts then Settled else Rejected)
  }

  /** The `catch` handler. */
  function OnCatch(s: State, r: nat, posts: bool): State
    requires r < |s.requests|
  {
    if s.requests[r].id in s.pending then Finished(s, r, false, posts, Settled) else Staged(s, r, Settled)
  }

  /** The script's own state. The promise chains are the requests. */
  class Script {
    var pending: map<string, nat>
    var counts: map<Frame, nat>
    var requests: seq<Request>
    var outbox: seq<Message>

    function Value(): State
      reads this
    {
      State(pending, counts, requests, outbox)
    }

    constructor ()
      ensures Value() == INITIAL
    {
      pending, counts, requests, outbox := map[], map[], [], [];
    }

    method SendResult(m: Message, posts: bool)
      modifies this`outbox
      ensures outbox == Sent(old(outbox), m, posts)
    {
      if posts {
        outbox := outbox + [m];
      }
    }

    method Finish(r: nat, ok: bool, posts: bool, stage: Stage)
      requires r < |requests|
      modifies this
      ensures Value() == Finished(old(Value()), r, ok, posts, stage)
    {
      var q := requests[r];
      pending := pending - {q.id};
      counts := counts[q.frame := Max(0, (if CountOf(counts, q.frame) == 0 then 1 else CountOf(counts, q.frame)) - 1)];
      requests := requests[r := q.(finished := true, posted := posts, stage := stage)];
      SendResult(Message(q.frame, q.id, ok, Some(r)), posts);
    }

    method HandleMessage(m: Incoming, posts: bool)
      modifies this
      ensures Value() == OnMessage(old(Value()), m, posts)
    {
      if m.frame.None? || !m.wellFormed || m.id in pending {
        return;
      }
      var count := CountOf(counts, m.frame.value);
      if count >= MAX_CONCURRENT {
        SendResult(Message(m.frame.value, m.id, false, None), posts);
        return;
      }
      counts := counts[m.frame.value := count + 1];
      pending := pending[m.id := |requests|];
      requests := requests + [Request(m.frame.value, m.id, m.op, Fetching, false, false)];
    }

    method HandleAnswer(r: nat, a: Answer, posts: bool)
      requires r < |requests|
      modifies this
      ensures Value() == OnAnswer(old(Value()), r, a, posts)
    {
      if !Matches(pending, requests, r, a) {
        requests := requests[r := requests[r].(stage := Rejected)];
        return;
      }
      Finish(r, a.ok.value && a.fits, posts, if posts then Settled else Rejected);
    }

    method HandleCatch(r: nat, posts: bool)
      requires r < |requests|
      modifies this
      ensures Value() == OnCatch(old(Value()), r, posts)
    {
      if requests[r].id in pending {
        Finish(r, false, posts, Settled);
      } else {
        requests := requests[r := requests[r].(stage := Settled)];
      }
    }
  }

  // ---------------------------------------------------------------------
  // Events in any order
  // ---------------------------------------------------------------------

  datatype Event =
    | Arrives(message: Incoming, posts: bool)
    | Answered(request: nat, answer: Answer, posts: bool)
    | FetchFailed(request: nat)
    | Caught(request: nat, posts: bool)

  predicate InStage(s: State, r: nat, stage: Stage) {
    r < |s.requests| && s.requests[r].stage == stage
  }

  /** A message event is a macrotask: it waits until the microtasks have run, and a
      rejected chain reaches its `catch` within the microtasks. */
  predicate NoneRejected(requests: seq<Request>) {
    forall r :: 0 <= r < |requests| ==> requests[r].stage != Rejected
  }

  /** A disabled event changes nothing. */
  function Step(s: State, e: Event): State {
    match e
    case Arrives(m, posts) => if NoneRejected(s.requests) then OnMessage(s, m, posts) else s
    case Answered(r, a, posts) => if InStage(s, r, Fetching) then OnAnswer(s, r, a, posts) else s
    case FetchFailed(r) => if InStage(s, r, Fetching) then Staged(s, r, Rejected) else s
    case Caught(r, posts) => if InStage(s, r, Rejected) then OnCatch(s, r, posts) else s
  }

  function Run(events: seq<Event>): State {
    if events == [] then INITIAL else Step(Run(events[..|events| - 1]), events[|events| - 1])
  }

  // ---------------------------------------------------------------------
  // The invariant
  // ---------------------------------------------------------------------

  predicate Waiting(q: Request, f: Frame) {
    q.frame == f && !q.finished
  }

  /** How many requests of a frame are waiting for their result. */
  function WaitingCount(requests: seq<Request>, f: Frame): nat {
    if requests == [] then 0
    else WaitingCount(requests[..|requests| - 1], f) + if Waiting(requests[|requests| - 1], f) then 1 else 0
  }

  function AnswerCount(outbox: seq<Message>, r: nat): nat {
    if outbox == [] then 0
    else AnswerCount(outbox[..|outbox| - 1], r) + if outbox[|outbox| - 1].answers == Some(r) then 1 else 0
  }

  lemma {:induction false} CountChanged(requests: seq<Request>, r: nat, q: Request, f: Frame)
    requires r < |requests|
    ensures WaitingCount(requests[r := q], f)
         == WaitingCount(requests, f) - (if Waiting(requests[r], f) then 1 else 0) + if Waiting(q, f) then 1 else 0
  {
    var n := |requests| - 1;
    if r < n {
      CountChanged(requests[..n], r, q, f);
      assert requests[r := q][..n] == requests[..n][r := q];
    } else {
      assert requests[r := q][..n] == requests[..n];
    }
  }

  lemma {:induction false} SomeWaiting(requests: seq<Request>, r: nat)
    requires r < |requests| && !requests[r].finished
    ensures WaitingCount(requests, requests[r].frame) >= 1
  {
    if r < |requests| - 1 {
      SomeWaiting(requests[..|requests| - 1], r);
    }
  }

  lemma {:induction false} NoneWaiting(requests: seq<Request>, f: Frame)
    requires forall r :: 0 <= r < |requests| ==> requests[r].finished
    ensures WaitingCount(requests, f) == 0
  {
    if requests != [] {
      NoneWaiting(requests[..|requests| - 1], f);
    }
  }

  /** `pending` is exactly the unfinished requests, each under its own id. */
  ghost predicate PendingAgrees(pending: map<string, nat>, requests: seq<Request>) {
    && (forall id :: id in pending ==>
          pending[id] < |requests| && requests[pending[id]].id == id && !requests[pending[id]].finished)
    && (forall r :: 0 <= r < |requests| && !requests[r].finished ==>
          requests[r].id in pending && pending[requests[r].id] == r)
  }

  ghost predicate CountsAgree(counts: map<Frame, nat>, requests: seq<Request>) {
    forall f :: CountOf(counts, f) == WaitingCount(requests, f) <= MAX_CONCURRENT
  }

  /** Each accepted request has one answer in the outbox once it is finished
      and its message went out, and none otherwise; and the answer goes to its
      own frame under its own id. */
  ghost predicate OutboxAgrees(outbox: seq<Message>, requests: seq<Request>) {
    && (forall r: nat :: AnswerCount(outbox, r) == if r < |requests| && requests[r].posted then 1 else 0)
    && (forall i :: 0 <= i < |outbox| && outbox[i].answers.Some? ==>
          && outbox[i].answers.value < |requests|
          && requests[outbox[i].answers.value].frame == outbox[i].frame
          && requests[outbox[i].answers.value].id == outbox[i].id)
  }

  predicate StageAgrees(q: Request) {
    && (q.posted ==> q.finished)
    && (q.stage == Fetching ==> !q.finished)
    && (q.stage == Settled ==> q.finished)
    && (q.stage == Rejected ==> !q.posted)
  }

  /** A request whose `finish` threw has left `pending`, and its id is not
      reused before its chain is caught. */
  ghost predicate ThrownGone(pending: map<string, nat>, requests: seq<Request>) {
    forall r :: 0 <= r < |requests| && requests[r].stage == Rejected && requests[r].finished ==>
      requests[r].id !in pending
  }

  ghost predicate Inv(s: State) {
    && PendingAgrees(s.pending, s.requests)
    && CountsAgree(s.counts, s.requests)
    && OutboxAgrees(s.outbox, s.requests)
    && ThrownGone(s.pending, s.requests)
    && (forall r :: 0 <= r < |s.requests| ==> StageAgrees(s.requests[r]))
  }

  lemma FinishKeepsCounts(s: State, r: nat, q: Request)
    requires CountsAgree(s.counts, s.requests) && r < |s.requests| && !s.requests[r].finished
    requires q.finished && q.frame == s.requests[r].frame
    ensures CountsAgree(s.counts[q.frame := Decremented(CountOf(s.counts, q.frame))], s.requests[r := q])
  {
    SomeWaiting(s.requests, r);
    var counts := s.counts[q.frame := Decremented(CountOf(s.counts, q.frame))];
    forall f
      ensures CountOf(counts, f) == WaitingCount(s.requests[r := q], f) <= MAX_CONCURRENT
    {
      CountChanged(s.requests, r, q, f);
      assert CountOf(s.counts, f) == WaitingCount(s.requests, f) <= MAX_CONCURRENT;
    }
  }

  lemma FinishKeepsPending(s: State, r: nat, q: Request)
    requires PendingAgrees(s.pending, s.requests) && r < |s.requests| && !s.requests[r].finished
    requires q.finished && q.id == s.requests[r].id
    ensures PendingAgrees(s.pending - {q.id}, s.requests[r := q])
  {
  }

  lemma FinishKeepsOutbox(s: State, r: nat, q: Request, ok: bool, posts: bool)
    requires OutboxAgrees(s.outbox, s.requests) && r < |s.requests| && !s.requests[r].posted
    requires q.posted == posts && q.frame == s.requests[r].frame && q.id == s.requests[r].id
    ensures OutboxAgrees(Sent(s.outbox, Message(q.frame, q.id, ok, Some(r)), posts), s.requests[r := q])
  {
    var m := Message(q.frame, q.id, ok, Some(r));
    assert (s.outbox + [m])[..|s.outbox|] == s.outbox;
  }

  lemma FinishKeepsInv(s: State, r: nat, ok: bool, posts: bool, stage: Stage)
    requires Inv(s) && r < |s.requests| && !s.requests[r].finished
    requires stage != Fetching && (stage == Rejected ==> !posts)
    ensures Inv(Finished(s, r, ok, posts, stage))
  {
    var q := s.requests[r].(finished := true, posted := posts, stage := stage);
    FinishKeepsCounts(s, r, q);
    FinishKeepsPending(s, r, q);
    FinishKeepsOutbox(s, r, q, ok, posts);
  }

  lemma StagedKeepsInv(s: State, r: nat, stage: Stage)
    requires Inv(s) && r < |s.requests| && StageAgrees(s.requests[r].(stage := stage))
    requires stage == Rejected ==> !s.requests[r].finished
    ensures Inv(Staged(s, r, stage))
  {
    var q := s.requests[r].(stage := stage);
    forall f
      ensures CountOf(s.counts, f) == WaitingCount(s.requests[r := q], f) <= MAX_CONCURRENT
    {
      CountChanged(s.requests, r, q, f);
      assert CountOf(s.counts, f) == WaitingCount(s.requests, f) <= MAX_CONCURRENT;
    }
  }

  lemma AcceptKeepsCounts(s: State, q: Request)
    requires CountsAgree(s.counts, s.requests) && !q.finished && CountOf(s.counts, q.frame) < MAX_CONCURRENT
    ensures CountsAgree(s.counts[q.frame := CountOf(s.counts, q.frame) + 1], s.requests + [q])
  {
    var requests := s.requests + [q];
    assert requests[..|s.requests|] == s.requests;
    forall f
      ensures CountOf(s.counts[q.frame := CountOf(s.counts, q.frame) + 1], f) == WaitingCount(requests, f)
      ensures WaitingCount(requests, f) <= MAX_CONCURRENT
    {
      assert CountOf(s.counts, f) == WaitingCount(s.requests, f) <= MAX_CONCURRENT;
    }
  }

  lemma RefusalKeepsOutbox(s: State, m: Message, posts: bool)
    requires OutboxAgrees(s.outbox, s.requests) && m.answers.None?
    ensures OutboxAgrees(Sent(s.outbox, m, posts), s.requests)
  {
    assert (s.outbox + [m])[..|s.outbox|] == s.outbox;
  }

  lemma MessageKeepsInv(s: State, m: Incoming, posts: bool)
    requires Inv(s) && NoneRejected(s.requests)
    ensures Inv(OnMessage(s, m, posts))
  {
    if Accepts(s.pending, m) {
      if CountOf(s.counts, m.frame.value) >= MAX_CONCURRENT {
        RefusalKeepsOutbox(s, Message(m.frame.value, m.id, false, None), posts);
      } else {
        AcceptKeepsCounts(s, Request(m.frame.value, m.id, m.op, Fetching, false, false));
      }
    }
  }

  lemma StepKeepsInv(s: State, e: Event)
    requires Inv(s)
    ensures Inv(Step(s, e))
  {
    match e
    case Arrives(m, posts) =>
      if NoneRejected(s.requests) {
        MessageKeepsInv(s, m, posts);
      }
    case Answered(r, a, posts) =>
      if InStage(s, r, Fetching) {
        if Matches(s.pending, s.requests, r, a) {
          FinishKeepsInv(s, r, a.ok.value && a.fits, posts, if posts then Settled else Rejected);
        } else {
          StagedKeepsInv(s, r, Rejected);
        }
      }
    case FetchFailed(r) =>
      if InStage(s, r, Fetching) {
        StagedKeepsInv(s, r, Rejected);
      }
    case Caught(r, posts) =>
      if InStage(s, r, Rejected) {
        if s.requests[r].id in s.pending {
          FinishKeepsInv(s, r, false, posts, Settled);
        } else {
          StagedKeepsInv(s, r, Settled);
        }
      }
  }

  lemma {:induction false} RunInv(events: seq<Event>)
    ensures Inv(Run(events))
  {
    if events != [] {
      RunInv(events[..|events| - 1]);
      StepKeepsInv(Run(events[..|events| - 1]), events[|events| - 1]);
    }
  }

  // ---------------------------------------------------------------------
  // What the broker promises
  // ---------------------------------------------------------------------

  /** In every event order, a frame's count is the number of its requests in
      `pending`, and never more than the limit. */
  lemma CountIsPending(events: seq<Event>, f: Frame)
    ensures var s := Run(events);
            && CountOf(s.counts, f) == WaitingCount(s.requests, f) <= MAX_CONCURRENT
            && PendingAgrees(s.pending, s.requests)
  {
    RunInv(events);
    var s := Run(events);
    assert CountsAgree(s.counts, s.requests);
  }

  /** Whenever `finish` runs, it runs for a request that has not finished, and
      the count it takes one from is at least one: neither guard around the
      subtraction is ever needed. */
  lemma ClampNeverNeeded(events: seq<Event>, r: nat, a: Answer)
    requires r < |Run(events).requests|
    ensures var s := Run(events);
            var q := s.requests[r];
            (q.stage == Fetching && Matches(s.pending, s.requests, r, a)) || (q.stage == Rejected && q.id in s.pending)
            ==> !q.finished && s.pending[q.id] == r && CountOf(s.counts, q.frame) >= 1
                && Decremented(CountOf(s.counts, q.frame)) == CountOf(s.counts, q.frame) - 1
  {
    RunInv(events);
    var s := Run(events);
    var q := s.requests[r];
    assert StageAgrees(q);
    if !q.finished {
      SomeWaiting(s.requests, r);
      assert CountOf(s.counts, q.frame) == WaitingCount(s.requests, q.frame);
    }
  }

  /** A settled request has had exactly one result message, to its own frame
      and under its own id, unless posting that message threw; an unsettled one
      has had none. */
  lemma ExactlyOneResult(events: seq<Event>, r: nat)
    requires r < |Run(events).requests|
    ensures var s := Run(events);
            && (s.requests[r].stage == Settled ==> s.requests[r].finished)
            && AnswerCount(s.outbox, r) == (if s.requests[r].posted then 1 else 0)
            && (s.requests[r].stage != Settled ==> AnswerCount(s.outbox, r) == 0)
    ensures var s := Run(events);
            forall i :: 0 <= i < |s.outbox| && s.outbox[i].answers == Some(r) ==>
              s.outbox[i].frame == s.requests[r].frame && s.outbox[i].id == s.requests[r].id
  {
    RunInv(events);
    var s := Run(events);
    assert StageAgrees(s.requests[r]);
  }

  predicate AllPost(events: seq<Event>) {
    forall i :: 0 <= i < |events| ==>
      && (events[i].Answered? ==> events[i].posts)
      && (events[i].Caught? ==> events[i].posts)
  }

  lemma {:induction false} FinishedArePosted(events: seq<Event>)
    requires AllPost(events)
    ensures forall r :: 0 <= r < |Run(events).requests| && Run(events).requests[r].finished ==>
              Run(events).requests[r].posted
  {
    if events != [] {
      FinishedArePosted(events[..|events| - 1]);
    }
  }

  /** If no `postMessage` throws, every settled request has had exactly one
      result. */
  lemma SettledMeansAnswered(events: seq<Event>, r: nat)
    requires AllPost(events) && r < |Run(events).requests| && Run(events).requests[r].stage == Settled
    ensures AnswerCount(Run(events).outbox, r) == 1
  {
    ExactlyOneResult(events, r);
    FinishedArePosted(events);
  }

  /** When every fetch has settled nothing is pending and every count is 0. */
  lemma AllSettledAllZero(events: seq<Event>, f: Frame)
    requires forall r :: 0 <= r < |Run(events).requests| ==> Run(events).requests[r].stage == Settled
    ensures Run(events).pending == map[] && CountOf(Run(events).counts, f) == 0
  {
    RunInv(events);
    var s := Run(events);
    forall r | 0 <= r < |s.requests|
      ensures s.requests[r].finished
    {
      assert StageAgrees(s.requests[r]);
    }
    NoneWaiting(s.requests, f);
    assert CountOf(s.counts, f) == WaitingCount(s.requests, f);
    assert s.pending.Keys == {};
  }
}
