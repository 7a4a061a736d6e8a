/** The SDK and the host as two parties joined by a first-in first-out channel.

    A callback that uses the SDK is any sequence of its calls; the host takes
    frames from the channel whenever it likes, also in the middle of a call.
    Writing a frame and counting its records are separate steps, as they are in
    the SDK. */
module Conservation {
  import opened Wrappers
  import opened Json
  import opened Canonical
  import opened Spool
  import opened Sdk

  /** The host's decoders, and how its reader reprints numbers. */
  datatype Setup = Setup(serde: Serde, reprint: string -> string, requestId: string, manifest: Manifest)

  ghost predicate Sound(setup: Setup) {
    Faithful(setup.serde, setup.reprint)
  }

  datatype Message =
    | OneRecord(record: JsonValue)
    | Batch(records: seq<JsonValue>)
    | LogLine(level: string, text: string)
    | HostRequest(id: nat, number: nat, ask: Ask)
    | Done(count: nat)
    | Failed(error: JsonValue)

  predicate Legal(m: Message) {
    m.Batch? ==> 1 <= |m.records| <= MAX_RECORD_BATCH
  }

  predicate Final(m: Message) {
    m.Done? || m.Failed?
  }

  function ToValue(requestId: string, m: Message): Value {
    match m
    case OneRecord(record) => RecordMessage(requestId, record)
    case Batch(records) => BatchMessage(requestId, records)
    case LogLine(level, text) => LogMessage(level, text)
    case HostRequest(id, number, ask) => AskMessage(id, number, ask)
    case Done(count) => Response("h-2", CountResult(count))
    case Failed(error) => ErrorResponse("h-2", error)
  }

  function TextOf(requestId: string, m: Message): string {
    Payload(ToValue(requestId, m))
  }

  /** How many records a message carries. */
  function Weight(m: Message): nat {
    match m
    case OneRecord(_) => 1
    case Batch(records) => |records|
    case _ => 0
  }

  function TotalWeight(wire: seq<Message>): nat {
    if wire == [] then 0 else TotalWeight(wire[..|wire| - 1]) + Weight(wire[|wire| - 1])
  }

  lemma {:induction false} TotalWeightAppend(a: seq<Message>, b: seq<Message>)
    ensures TotalWeight(a + b) == TotalWeight(a) + TotalWeight(b)
  {
    if b == [] {
      assert a + b == a;
    } else {
      assert (a + b)[..|a + b| - 1] == a + b[..|b| - 1];
      TotalWeightAppend(a, b[..|b| - 1]);
    }
  }

  // ---------------------------------------------------------------------
  // What the host makes of one SDK message
  // ---------------------------------------------------------------------

  /** Errors that are about the content, the caps or a served request, never
      about the shape of the conversation. */
  predicate Excusable(e: HostError) {
    || e == MalformedJson || e == InvalidRecord || e == PluginFailure || ServiceError(e)
    || e == Protocol(TooManyRecords) || e == Protocol(TooManyRecordBytes) || e == Protocol(TooManyLogBytes)
  }

  predicate AsksBlankly(m: Message) {
    m.HostRequest? && Blank(m.ask)
  }

  /** An excusable error, or the refusal of a query with a blank argument. */
  predicate Allowed(m: Message, e: HostError) {
    Excusable(e) || (AsksBlankly(m) && e == Protocol(BadParams))
  }

  lemma {:induction false} PushAllExcusable(serde: Serde, source: string, values: seq<Value>, st: RunState)
    ensures var h := PushAll(serde, source, values, st);
            h.Rejected? ==> Excusable(h.error)
    decreases |values|
  {
    if values != [] && serde.asRecord(values[0]).Some? {
      PushAllExcusable(serde, source, values[1..], st.(records := st.records + [serde.asRecord(values[0]).value]));
    }
  }

  lemma SpoolValuesExcusable(serde: Serde, source: string, values: seq<Value>, st: RunState)
    ensures var h := SpoolValues(serde, source, values, st);
            h.Rejected? ==> Excusable(h.error)
  {
    var reserved := Reserve(st, values);
    if reserved.Ok? {
      PushAllExcusable(serde, source, values, reserved.value);
    }
  }

  function Digested(setup: Setup, m: Message, st: RunState, service: Option<HostError>): Spool.Digested {
    Digest(setup.serde, setup.requestId, Discovering(setup.manifest), "h-2", TextOf(setup.requestId, m), st, service)
  }

  function OfValue(setup: Setup, w: Value, st: RunState, service: Option<HostError>): Spool.Digested {
    DigestValue(setup.serde, setup.requestId, Discovering(setup.manifest), "h-2", w, st, service)
  }

  /** The value the host parses a message into, if it does. */
  function Seen(setup: Setup, m: Message): Value {
    AsRead(ToValue(setup.requestId, m), setup.reprint)
  }

  /** The host refuses a message outright or goes by what it has read. */
  lemma SeenByHost(setup: Setup, m: Message, st: RunState, service: Option<HostError>)
    requires Sound(setup) && WellFormed(ToValue(setup.requestId, m))
    ensures var d := Digested(setup, m, st, service);
            || d == Fail(st, MalformedJson)
            || (d == OfValue(setup, Seen(setup, m), st, service)
                && FrameValues(setup.serde, TextOf(setup.requestId, m)) == MessageValues(Seen(setup, m)))
  {
    ParsesBack(setup.serde, setup.reprint, ToValue(setup.requestId, m));
  }

  /** A record notification that is well shaped is refused only for its content
      or a cap. */
  lemma WellShapedRecord(setup: Setup, w: Value, params: Value, st: RunState, service: Option<HostError>)
    requires Get(w, "jsonrpc") == Some(Str("2.0")) && Get(w, "method") == Some(Str("record"))
    requires Get(w, "id").None? && Get(w, "params") == Some(params)
    requires Get(params, "request_id") == Some(Str(setup.requestId)) && RecordValues(params).Ok?
    ensures var d := OfValue(setup, w, st, service);
            d.Continue? || (d.Fail? && Excusable(d.error))
    ensures MessageValues(w) == RecordValues(params).value
  {
    SpoolValuesExcusable(setup.serde, setup.manifest.sourceName, RecordValues(params).value, st);
  }

  /** What the host can make of a message, and how many records it finds. */
  ghost predicate Understood(setup: Setup, m: Message, st: RunState, service: Option<HostError>) {
    var d := Digested(setup, m, st, service);
    && (d.Fail? ==> Allowed(m, d.error))
    && (d.Reply? ==> m.Done? && (setup.serde.asCount(d.result) == Some(m.count) || setup.serde.asCount(d.result).None?))
    && (d.Continue? ==> !Final(m))
    && (!d.Fail? ==> |FrameValues(setup.serde, TextOf(setup.requestId, m))| == Weight(m))
  }

  lemma RecordUnderstood(
    setup: Setup, m: Message, params: Value, values: seq<Value>, st: RunState, service: Option<HostError>)
    requires Sound(setup) && WellFormed(params) && ToValue(setup.requestId, m) == Notification("record", params)
    requires Get(AsRead(params, setup.reprint), "request_id") == Some(Str(setup.requestId))
    requires RecordValues(AsRead(params, setup.reprint)) == Ok(values) && |values| == Weight(m) && !Final(m)
    ensures Understood(setup, m, st, service)
  {
    NotificationSeen("record", params, setup.reprint);
    SeenByHost(setup, m, st, service);
    WellShapedRecord(setup, Seen(setup, m), AsRead(params, setup.reprint), st, service);
  }

  lemma RecordMessages(setup: Setup, m: Message, st: RunState, service: Option<HostError>)
    requires Sound(setup) && Legal(m) && (m.OneRecord? || m.Batch?)
    ensures Understood(setup, m, st, service)
  {
    if m.OneRecord? {
      OneRecordSeen(setup.requestId, m.record, setup.reprint);
      var params := Object2("request_id", Str(setup.requestId), "record", m.record);
      RecordUnderstood(setup, m, params, [AsRead(m.record, setup.reprint)], st, service);
    } else {
      BatchSeen(setup.requestId, m.records, setup.reprint);
      var params := Object2("request_id", Str(setup.requestId), "records", Arr(m.records));
      RecordUnderstood(setup, m, params, AllRead(m.records, setup.reprint), st, service);
    }
  }

  lemma WellShapedLog(setup: Setup, w: Value, params: Value, st: RunState, service: Option<HostError>)
    requires Get(w, "jsonrpc") == Some(Str("2.0")) && Get(w, "method") == Some(Str("log"))
    requires Get(w, "id").None? && Get(w, "params") == Some(params)
    ensures var d := OfValue(setup, w, st, service);
            d.Continue? || (d.Fail? && Excusable(d.error))
    ensures MessageValues(w) == []
  {
  }

  lemma LogMessages(setup: Setup, m: Message, st: RunState, service: Option<HostError>)
    requires Sound(setup) && m.LogLine?
    ensures Understood(setup, m, st, service)
  {
    var params := Object2("level", Str(m.level), "message", Str(m.text));
    assert WellFormed(params);
    NotificationSeen("log", params, setup.reprint);
    SeenByHost(setup, m, st, service);
    WellShapedLog(setup, Seen(setup, m), AsRead(params, setup.reprint), st, service);
  }

  lemma WellShapedRequest(
    setup: Setup, w: Value, id: string, name: string, params: Value, st: RunState, service: Option<HostError>)
    requires Get(w, "jsonrpc") == Some(Str("2.0")) && Get(w, "method") == Some(Str(name))
    requires name == "state_query" || name == "fetch_request"
    requires Get(w, "id") == Some(Str(id)) && "p-" <= id && Get(w, "params") == Some(params)
    requires service.Some? ==> ServiceError(service.value)
    ensures var d := OfValue(setup, w, st, service);
            d.Continue? || (d.Fail? && (Excusable(d.error)
              || (!ParamsAccepted(setup.serde, name, params) && d.error == Protocol(BadParams))))
    ensures MessageValues(w) == []
  {
  }

  lemma RequestMessages(setup: Setup, m: Message, st: RunState, service: Option<HostError>)
    requires Sound(setup) && m.HostRequest?
    requires service.Some? ==> ServiceError(service.value)
    ensures Understood(setup, m, st, service)
  {
    var id := "p-" + Decimal(m.id);
    var params := AskParams(m.number, m.ask);
    AskAcceptedExactly(setup.serde, m.number, m.ask, setup.reprint);
    RequestSeen(id, AskName(m.ask), params, setup.reprint);
    SeenByHost(setup, m, st, service);
    WellShapedRequest(setup, Seen(setup, m), id, AskName(m.ask), AsRead(params, setup.reprint), st, service);
  }

  lemma SingletonSorted(n: nat)
    ensures Sort(CodePointOrder, CountResult(n)) == CountResult(n)
  {
    var ms := CountResult(n).members;
    assert ms[1..] == [];
    assert SortMembers(CodePointOrder, ms) == [Member("records", Number(Decimal(n)))];
  }

  lemma DoneMessages(setup: Setup, m: Message, st: RunState, service: Option<HostError>)
    requires Sound(setup) && m.Done?
    ensures Understood(setup, m, st, service)
  {
    DecimalIsLexeme(m.count);
    ResponseSeen("h-2", CountResult(m.count), setup.reprint);
    SingletonSorted(m.count);
    SeenByHost(setup, m, st, service);
    assert Counts(setup.serde, setup.reprint, m.count);
  }

  lemma FailedMessages(setup: Setup, m: Message, st: RunState, service: Option<HostError>)
    requires Sound(setup) && m.Failed?
    ensures Understood(setup, m, st, service)
  {
    ErrorSeen("h-2", m.error, setup.reprint);
    SeenByHost(setup, m, st, service);
  }

  /** Everything the host can make of an SDK message. */
  lemma MessageDigested(setup: Setup, m: Message, st: RunState, service: Option<HostError>)
    requires Sound(setup) && Legal(m)
    requires service.Some? ==> ServiceError(service.value)
    ensures Understood(setup, m, st, service)
  {
    match m
    case OneRecord(_) => RecordMessages(setup, m, st, service);
    case Batch(_) => RecordMessages(setup, m, st, service);
    case LogLine(_, _) => LogMessages(setup, m, st, service);
    case HostRequest(_, _, _) => RequestMessages(setup, m, st, service);
    case Done(_) => DoneMessages(setup, m, st, service);
    case Failed(_) => FailedMessages(setup, m, st, service);
  }

  // ---------------------------------------------------------------------
  // The two parties
  // ---------------------------------------------------------------------

  /** `records` is the SDK's counter; `uncounted` are records of the frame just
      written that it has not been raised for yet; `todo` are the batches of a
      `send_records` call under way that are not written yet. */
  datatype Party = Party(records: nat, uncounted: nat, wire: seq<Message>, todo: seq<seq<JsonValue>>)

  datatype Host = Listening | Answered(count: nat) | Stopped(error: HostError)

  datatype State = State(sdk: Party, taken: nat, spool: RunState, host: Host)

  /** The callback's calls, the steps inside them, its end, and the host. A call
      of `send_records` writes batch by batch; `GiveUp` is an exception out of
      it, from a batch too large for a frame or from the iterable. */
  datatype Action =
    | CallSendRecord(record: JsonValue)
    | CallSendRecords(all: seq<JsonValue>)
    | WriteBatch
    | Count
    | GiveUp
    | CallLog(level: string, text: string)
    | CallHost(id: nat, number: nat, ask: Ask)
    | Return(explicit: Option<nat>)
    | Raise(error: JsonValue)
    | Take(service: Option<HostError>)

  const NOBODY := Party(0, 0, [], [])

  function Start(max: Option<nat>): State {
    State(NOBODY, 0, NewRunState(max), Listening)
  }

  predicate Ended(wire: seq<Message>) {
    wire != [] && Final(wire[|wire| - 1])
  }

  /** Between two calls. */
  predicate Idle(sdk: Party) {
    !Ended(sdk.wire) && sdk.uncounted == 0 && sdk.todo == []
  }

  /** What the callback returned decides the count in the discover response. */
  function ReportedCount(sdk: Party, explicit: Option<nat>): nat {
    if explicit.Some? then explicit.value else sdk.records
  }

  /** A message that does not fit in a frame raises before it is written. */
  function Written(requestId: string, sdk: Party, m: Message): Party {
    if Sendable(ToValue(requestId, m)) then Party(sdk.records, Weight(m), sdk.wire + [m], sdk.todo) else sdk
  }

  function PartyStep(requestId: string, sdk: Party, action: Action): Party {
    match action
    case CallSendRecord(record) => if Idle(sdk) then Written(requestId, sdk, OneRecord(record)) else sdk
    case CallSendRecords(all) => if Idle(sdk) then sdk.(todo := Batches(all)) else sdk
    case WriteBatch =>
      if sdk.todo == [] || sdk.uncounted != 0 || !Sendable(ToValue(requestId, Batch(sdk.todo[0]))) then sdk
      else Written(requestId, sdk, Batch(sdk.todo[0])).(todo := sdk.todo[1..])
    case Count => sdk.(records := sdk.records + sdk.uncounted, uncounted := 0)
    case GiveUp => if sdk.uncounted == 0 then sdk.(todo := []) else sdk
    case CallLog(level, text) => if Idle(sdk) then Written(requestId, sdk, LogLine(level, text)) else sdk
    case CallHost(id, number, ask) => if Idle(sdk) then Written(requestId, sdk, HostRequest(id, number, ask)) else sdk
    case Return(explicit) =>
      if Idle(sdk) then Written(requestId, sdk, Done(ReportedCount(sdk, explicit))) else sdk
    case Raise(error) => if Idle(sdk) then Written(requestId, sdk, Failed(error)) else sdk
    case Take(_) => sdk
  }

  function Step(setup: Setup, s: State, action: Action): State {
    if action.Take? then
      if !s.host.Listening? || s.taken >= |s.sdk.wire|
         || (action.service.Some? && !ServiceError(action.service.value)) then s
      else TakeMessage(setup, s, s.sdk.wire[s.taken], action.service)
    else s.(sdk := PartyStep(setup.requestId, s.sdk, action))
  }

  function TakeMessage(setup: Setup, s: State, m: Message, service: Option<HostError>): State {
    match Digested(setup, m, s.spool, service)
    case Fail(spool, e) => s.(taken := s.taken + 1, spool := spool, host := Stopped(e))
    case Continue(spool) => s.(taken := s.taken + 1, spool := spool)
    case Reply(spool, result) =>
      match setup.serde.asCount(result)
      case None => s.(taken := s.taken + 1, spool := spool, host := Stopped(MalformedJson))
      case Some(count) => s.(taken := s.taken + 1, spool := spool, host := Answered(count))
  }

  function Run(setup: Setup, max: Option<nat>, actions: seq<Action>): State {
    if actions == [] then Start(max)
    else Step(setup, Run(setup, max, actions[..|actions| - 1]), actions[|actions| - 1])
  }

  function Texts(requestId: string, wire: seq<Message>): (r: seq<string>)
    ensures |r| == |wire|
  {
    if wire == [] then [] else Texts(requestId, wire[..|wire| - 1]) + [TextOf(requestId, wire[|wire| - 1])]
  }

  // ---------------------------------------------------------------------
  // What the SDK writes is legal
  // ---------------------------------------------------------------------

  ghost predicate WireOk(wire: seq<Message>) {
    forall i :: 0 <= i < |wire| ==> Legal(wire[i]) && (Final(wire[i]) ==> i == |wire| - 1)
  }

  /** Every message is legal, the counter agrees with what was written, and what
      is still to be written comes in legal batches. */
  ghost predicate PartyOk(sdk: Party) {
    && WireOk(sdk.wire)
    && sdk.records + sdk.uncounted == TotalWeight(sdk.wire)
    && (forall i :: 0 <= i < |sdk.todo| ==> 1 <= |sdk.todo[i]| <= MAX_RECORD_BATCH)
    && (Ended(sdk.wire) ==> sdk.uncounted == 0 && sdk.todo == [])
  }

  lemma WrittenOk(requestId: string, sdk: Party, m: Message)
    requires PartyOk(sdk) && !Ended(sdk.wire) && sdk.uncounted == 0 && Legal(m) && (Final(m) ==> sdk.todo == [])
    ensures PartyOk(Written(requestId, sdk, m))
  {
    assert (sdk.wire + [m])[..|sdk.wire|] == sdk.wire;
  }

  /** No call of the SDK breaks this: the batch bound comes from the batching
      loop. */
  lemma PartyStepOk(requestId: string, sdk: Party, action: Action)
    requires PartyOk(sdk)
    ensures PartyOk(PartyStep(requestId, sdk, action))
    ensures sdk.wire <= PartyStep(requestId, sdk, action).wire
  {
    match action
    case CallSendRecord(record) => if Idle(sdk) { WrittenOk(requestId, sdk, OneRecord(record)); }
    case WriteBatch =>
      if sdk.todo != [] && sdk.uncounted == 0 {
        WrittenOk(requestId, sdk, Batch(sdk.todo[0]));
      }
    case CallLog(level, text) => if Idle(sdk) { WrittenOk(requestId, sdk, LogLine(level, text)); }
    case CallHost(id, number, ask) => if Idle(sdk) { WrittenOk(requestId, sdk, HostRequest(id, number, ask)); }
    case Return(explicit) => if Idle(sdk) { WrittenOk(requestId, sdk, Done(ReportedCount(sdk, explicit))); }
    case Raise(error) => if Idle(sdk) { WrittenOk(requestId, sdk, Failed(error)); }
    case _ =>
  }

  // ---------------------------------------------------------------------
  // The invariant of both
  // ---------------------------------------------------------------------

  ghost predicate AnyBlank(taken: seq<Message>) {
    exists i :: 0 <= i < |taken| && AsksBlankly(taken[i])
  }

  ghost predicate HostOk(host: Host, taken: nat, wire: seq<Message>) {
    match host
    case Listening => true
    case Answered(count) => taken == |wire| && Ended(wire) && wire[|wire| - 1] == Done(count)
    case Stopped(e) => Excusable(e) || (e == Protocol(BadParams) && AnyBlank(wire))
  }

  /** The host has spooled exactly what the messages it took carried. */
  ghost predicate Spooled(setup: Setup, taken: seq<Message>, spool: RunState) {
    && Accounts(setup.serde, setup.manifest.sourceName, Texts(setup.requestId, taken), spool)
    && |spool.records| == TotalWeight(taken)
  }

  ghost predicate Inv(setup: Setup, s: State) {
    && PartyOk(s.sdk)
    && s.taken <= |s.sdk.wire|
    && HostOk(s.host, s.taken, s.sdk.wire)
    && (!s.host.Stopped? ==> Spooled(setup, s.sdk.wire[..s.taken], s.spool))
  }

  lemma NextPrefix(wire: seq<Message>, k: nat)
    requires k < |wire|
    ensures wire[..k + 1] == wire[..k] + [wire[k]]
  {
  }

  lemma OneMoreSpooled(
    setup: Setup, taken: seq<Message>, m: Message, spool: RunState, service: Option<HostError>)
    requires Sound(setup) && Legal(m) && Spooled(setup, taken, spool)
    requires service.Some? ==> ServiceError(service.value)
    requires !Digested(setup, m, spool, service).Fail?
    ensures Spooled(setup, taken + [m], Digested(setup, m, spool, service).state)
  {
    var text := TextOf(setup.requestId, m);
    var before := Texts(setup.requestId, taken);
    assert (taken + [m])[..|taken|] == taken;
    DigestAccounts(setup.serde, setup.requestId, Discovering(setup.manifest), "h-2", before, text, spool, service,
                   setup.manifest.sourceName);
    HistoryStep(setup.serde, before, text);
    MessageDigested(setup, m, spool, service);
  }

  lemma TakeHost(setup: Setup, s: State, service: Option<HostError>)
    requires Sound(setup) && WireOk(s.sdk.wire) && s.host.Listening? && s.taken < |s.sdk.wire|
    requires service.Some? ==> ServiceError(service.value)
    ensures var m := s.sdk.wire[s.taken];
            var t := TakeMessage(setup, s, m, service);
            && t.sdk == s.sdk && t.taken == s.taken + 1
            && HostOk(t.host, t.taken, t.sdk.wire)
            && (!t.host.Stopped? ==> !Digested(setup, m, s.spool, service).Fail?
                                     && t.spool == Digested(setup, m, s.spool, service).state)
  {
    MessageDigested(setup, s.sdk.wire[s.taken], s.spool, service);
  }

  lemma TakeKeepsInv(setup: Setup, s: State, service: Option<HostError>)
    requires Sound(setup) && Inv(setup, s) && s.host.Listening? && s.taken < |s.sdk.wire|
    requires service.Some? ==> ServiceError(service.value)
    ensures Inv(setup, TakeMessage(setup, s, s.sdk.wire[s.taken], service))
  {
    TakeHost(setup, s, service);
    if !TakeMessage(setup, s, s.sdk.wire[s.taken], service).host.Stopped? {
      NextPrefix(s.sdk.wire, s.taken);
      OneMoreSpooled(setup, s.sdk.wire[..s.taken], s.sdk.wire[s.taken], s.spool, service);
    }
  }

  lemma CallKeepsInv(setup: Setup, s: State, sdk: Party)
    requires Inv(setup, s) && PartyOk(sdk) && s.sdk.wire <= sdk.wire
    requires Ended(s.sdk.wire) ==> sdk.wire == s.sdk.wire
    ensures Inv(setup, s.(sdk := sdk))
  {
    assert sdk.wire[..s.taken] == s.sdk.wire[..s.taken];
    if s.host.Stopped? && AnyBlank(s.sdk.wire) {
      var i :| 0 <= i < |s.sdk.wire| && AsksBlankly(s.sdk.wire[i]);
      assert AsksBlankly(sdk.wire[i]);
    }
  }

  lemma StepKeepsInv(setup: Setup, s: State, action: Action)
    requires Sound(setup) && Inv(setup, s)
    ensures Inv(setup, Step(setup, s, action))
  {
    if action.Take? {
      if Step(setup, s, action) != s {
        TakeKeepsInv(setup, s, action.service);
      }
    } else {
      PartyStepOk(setup.requestId, s.sdk, action);
      CallKeepsInv(setup, s, PartyStep(setup.requestId, s.sdk, action));
    }
  }

  lemma NothingSpooled(setup: Setup, taken: seq<Message>, max: Option<nat>)
    requires taken == []
    ensures Spooled(setup, taken, NewRunState(max))
  {
  }

  lemma NobodyOk()
    ensures PartyOk(NOBODY)
  {
  }

  lemma StillInv(setup: Setup, s: State, max: Option<nat>)
    requires s.sdk == NOBODY && s.taken == 0 && s.host.Listening? && s.spool == NewRunState(max)
    ensures Inv(setup, s)
  {
    NobodyOk();
    NothingSpooled(setup, s.sdk.wire[..s.taken], max);
  }

  lemma StartInv(setup: Setup, max: Option<nat>)
    ensures Inv(setup, Start(max))
  {
    StillInv(setup, Start(max), max);
  }

  lemma {:induction false} RunInv(setup: Setup, max: Option<nat>, actions: seq<Action>)
    requires Sound(setup)
    ensures Inv(setup, Run(setup, max, actions))
  {
    if actions == [] {
      StartInv(setup, max);
    } else {
      RunInv(setup, max, actions[..|actions| - 1]);
      StepKeepsInv(setup, Run(setup, max, actions[..|actions| - 1]), actions[|actions| - 1]);
    }
  }

  // ---------------------------------------------------------------------
  // Main results
  // ---------------------------------------------------------------------

  lemma WeightSplit(wire: seq<Message>, k: nat)
    requires k <= |wire|
    ensures TotalWeight(wire) == TotalWeight(wire[..k]) + TotalWeight(wire[k..])
    ensures k == |wire| ==> wire[k..] == []
  {
    TotalWeightAppend(wire[..k], wire[k..]);
    assert wire[..k] + wire[k..] == wire;
  }

  lemma Balance(setup: Setup, s: State)
    requires Inv(setup, s) && !s.host.Stopped?
    ensures s.sdk.records + s.sdk.uncounted == |s.spool.records| + TotalWeight(s.sdk.wire[s.taken..])
    ensures s.host.Answered? ==> s.sdk.wire[s.taken..] == []
  {
    WeightSplit(s.sdk.wire, s.taken);
  }

  /** At every step of every interleaving: what the SDK has sent is what the
      host has spooled plus what is still in the channel. */
  lemma SentIsSpooledPlusInFlight(setup: Setup, max: Option<nat>, actions: seq<Action>)
    requires Sound(setup)
    ensures var s := Run(setup, max, actions);
            !s.host.Stopped? ==>
              && s.taken <= |s.sdk.wire|
              && s.sdk.records + s.sdk.uncounted == |s.spool.records| + TotalWeight(s.sdk.wire[s.taken..])
  {
    RunInv(setup, max, actions);
    if !Run(setup, max, actions).host.Stopped? {
      Balance(setup, Run(setup, max, actions));
    }
  }

  /** No callback that uses the SDK can make the host complain about the shape of
      the conversation: an over-long batch, `record` beside `records`, a missing
      or wrong request id, an unknown method, an unexpected response. The one
      complaint it can provoke is about a state query with a blank argument. */
  lemma NeverAProtocolError(setup: Setup, max: Option<nat>, actions: seq<Action>)
    requires Sound(setup)
    ensures var s := Run(setup, max, actions);
            s.host.Stopped? ==>
              Excusable(s.host.error) || (s.host.error == Protocol(BadParams) && AnyBlank(s.sdk.wire))
  {
    RunInv(setup, max, actions);
  }

  /** When the response arrives, the host's count check passes exactly when the
      reported count is the number of records the SDK sent. */
  lemma CountCheckExactly(setup: Setup, max: Option<nat>, actions: seq<Action>)
    requires Sound(setup)
    ensures var s := Run(setup, max, actions);
            s.host.Answered? ==>
              (s.host.count == |s.spool.records| <==> s.host.count == s.sdk.records + s.sdk.uncounted)
  {
    RunInv(setup, max, actions);
    if Run(setup, max, actions).host.Answered? {
      Balance(setup, Run(setup, max, actions));
    }
  }

  /** A callback that returns None reports what it sent. */
  ghost predicate NoExplicitCount(actions: seq<Action>) {
    forall i :: 0 <= i < |actions| && actions[i].Return? ==> actions[i].explicit.None?
  }

  /** The response, if it has been written, carries the SDK's counter. */
  ghost predicate Reported(sdk: Party) {
    Ended(sdk.wire) && sdk.wire[|sdk.wire| - 1].Done? ==> sdk.wire[|sdk.wire| - 1].count == sdk.records
  }

  lemma StepReports(setup: Setup, s: State, action: Action)
    requires PartyOk(s.sdk) && Reported(s.sdk) && (action.Return? ==> action.explicit.None?)
    ensures Reported(Step(setup, s, action).sdk)
  {
  }

  lemma {:induction false} ReportsWhatWasSent(setup: Setup, max: Option<nat>, actions: seq<Action>)
    requires Sound(setup) && NoExplicitCount(actions)
    ensures Reported(Run(setup, max, actions).sdk)
  {
    if actions != [] {
      RunInv(setup, max, actions[..|actions| - 1]);
      ReportsWhatWasSent(setup, max, actions[..|actions| - 1]);
      StepReports(setup, Run(setup, max, actions[..|actions| - 1]), actions[|actions| - 1]);
    }
  }

  /** So for a callback that returns None the count-mismatch error never fires. */
  lemma CountNeverMismatches(setup: Setup, max: Option<nat>, actions: seq<Action>)
    requires Sound(setup) && NoExplicitCount(actions)
    ensures var s := Run(setup, max, actions);
            s.host.Answered? ==> s.host.count == |s.spool.records|
  {
    RunInv(setup, max, actions);
    ReportsWhatWasSent(setup, max, actions);
    CountCheckExactly(setup, max, actions);
  }
}
