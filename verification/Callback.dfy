/** A callback's calls on the context object are moves of the SDK party: what the
    object has written and counted is what the party has. */
module Callback {
  import opened Wrappers
  import opened Json
  import opened Sdk
  import opened Conservation

  datatype Call =
    | One(record: JsonValue)
    | Many(all: seq<JsonValue>)
    | Note(level: string, text: string)
    | AskFor(ask: Ask)

  function PartyRun(requestId: string, sdk: Party, actions: seq<Action>): Party
    decreases |actions|
  {
    if actions == [] then sdk else PartyRun(requestId, PartyStep(requestId, sdk, actions[0]), actions[1..])
  }

  lemma {:induction false} PartyRunAppend(requestId: string, sdk: Party, a: seq<Action>, b: seq<Action>)
    ensures PartyRun(requestId, sdk, a + b) == PartyRun(requestId, PartyRun(requestId, sdk, a), b)
    decreases |a|
  {
    if a == [] {
      assert a + b == b;
    } else {
      assert (a + b)[1..] == a[1..] + b;
      PartyRunAppend(requestId, PartyStep(requestId, sdk, a[0]), a[1..], b);
    }
  }

  lemma PartyRunLast(requestId: string, sdk: Party, actions: seq<Action>)
    requires actions != []
    ensures var n := |actions| - 1;
            PartyRun(requestId, sdk, actions) ==
              PartyStep(requestId, PartyRun(requestId, sdk, actions[..n]), actions[n])
  {
    var n := |actions| - 1;
    assert actions == actions[..n] + [actions[n]];
    PartyRunAppend(requestId, sdk, actions[..n], [actions[n]]);
    OneStep(requestId, PartyRun(requestId, sdk, actions[..n]), actions[n]);
  }

  /** In any run of the two parties the SDK is where its own moves bring it. */
  lemma {:induction false} SdkOfRun(setup: Setup, max: Option<nat>, actions: seq<Action>)
    ensures Run(setup, max, actions).sdk == PartyRun(setup.requestId, NOBODY, actions)
  {
    if actions == [] {
      assert Run(setup, max, actions) == Start(max);
    } else {
      SdkOfRun(setup, max, actions[..|actions| - 1]);
      LastMove(setup, max, actions);
      PartyRunLast(setup.requestId, NOBODY, actions);
    }
  }

  lemma OneStep(requestId: string, sdk: Party, action: Action)
    ensures PartyRun(requestId, sdk, [action]) == PartyStep(requestId, sdk, action)
  {
    assert [action][1..] == [];
  }

  lemma TwoSteps(requestId: string, sdk: Party, a: Action, b: Action)
    ensures PartyRun(requestId, sdk, [a, b]) == PartyStep(requestId, PartyStep(requestId, sdk, a), b)
  {
    assert [a, b][1..] == [b];
    OneStep(requestId, PartyStep(requestId, sdk, a), b);
  }

  lemma StepMoves(setup: Setup, s: State, action: Action)
    ensures Step(setup, s, action).sdk == PartyStep(setup.requestId, s.sdk, action)
  {
  }

  lemma LastMove(setup: Setup, max: Option<nat>, actions: seq<Action>)
    requires actions != []
    ensures var n := |actions| - 1;
            Run(setup, max, actions).sdk == PartyStep(setup.requestId, Run(setup, max, actions[..n]).sdk, actions[n])
  {
    StepMoves(setup, Run(setup, max, actions[..|actions| - 1]), actions[|actions| - 1]);
  }

  lemma {:induction false} PartyRunOk(requestId: string, sdk: Party, actions: seq<Action>)
    requires PartyOk(sdk)
    ensures PartyOk(PartyRun(requestId, sdk, actions))
    decreases |actions|
  {
    if actions != [] {
      PartyStepOk(requestId, sdk, actions[0]);
      PartyRunOk(requestId, PartyStep(requestId, sdk, actions[0]), actions[1..]);
    }
  }

  // ---------------------------------------------------------------------
  // One call
  // ---------------------------------------------------------------------

  /** The context object and the party agree, between two calls. */
  ghost predicate Mirrors(requestId: string, wire: seq<string>, records: nat, sdk: Party) {
    wire == Texts(requestId, sdk.wire) && records == sdk.records && Idle(sdk) && PartyOk(sdk)
  }

  lemma TextsAppend(requestId: string, wire: seq<Message>, m: Message)
    ensures Texts(requestId, wire + [m]) == Texts(requestId, wire) + [TextOf(requestId, m)]
  {
    assert (wire + [m])[..|wire|] == wire;
  }

  /** A call that writes one message, if it fits, and then counts it. */
  lemma OneMessage(
    requestId: string, wire: seq<string>, records: nat, sdk: Party, call: Action, m: Message, v: Value)
    requires Mirrors(requestId, wire, records, sdk) && !Final(m) && Legal(m) && v == ToValue(requestId, m)
    requires PartyStep(requestId, sdk, call) == Written(requestId, sdk, m)
    ensures Mirrors(requestId, wire + if Sendable(v) then [Payload(v)] else [],
                    records + (if Sendable(v) then Weight(m) else 0), PartyRun(requestId, sdk, [call, Count]))
  {
    TwoSteps(requestId, sdk, call, Count);
    PartyRunOk(requestId, sdk, [call, Count]);
    TextsAppend(requestId, sdk.wire, m);
    assert wire + [] == wire;
  }

  function WriteAll(k: nat): seq<Action> {
    if k == 0 then [] else WriteAll(k - 1) + [WriteBatch, Count]
  }

  /** The moves of one `send_records` call that gets through `k` batches. */
  function SendMoves(all: seq<JsonValue>, k: nat): seq<Action> {
    [CallSendRecords(all)] + WriteAll(k) + [GiveUp]
  }

  /** `k` of the batches have been written and counted since `before`. */
  ghost predicate Through(
    requestId: string, before: Party, batches: seq<seq<JsonValue>>, k: nat, sdk: Party)
  {
    && k <= |batches| && sdk.uncounted == 0 && !Ended(sdk.wire) && sdk.todo == batches[k..]
    && Texts(requestId, sdk.wire) == Texts(requestId, before.wire) + BatchPayloads(requestId, batches[..k])
    && sdk.records == before.records + TotalLength(batches[..k])
  }

  lemma ThroughNext(requestId: string, before: Party, batches: seq<seq<JsonValue>>, k: nat, sdk: Party)
    requires Through(requestId, before, batches, k, sdk) && k < |batches|
    requires Sendable(BatchMessage(requestId, batches[k]))
    ensures Through(requestId, before, batches, k + 1,
                    PartyStep(requestId, PartyStep(requestId, sdk, WriteBatch), Count))
  {
    var m := Batch(batches[k]);
    assert sdk.todo[0] == batches[k] && sdk.todo[1..] == batches[k + 1..];
    TextsAppend(requestId, sdk.wire, m);
    PayloadsNext(requestId, batches, k, Texts(requestId, before.wire));
    assert batches[..k + 1][..k] == batches[..k];
  }

  lemma PayloadsNext(requestId: string, batches: seq<seq<JsonValue>>, k: nat, before: seq<string>)
    requires k < |batches|
    ensures before + BatchPayloads(requestId, batches[..k + 1])
         == before + BatchPayloads(requestId, batches[..k]) + [Payload(BatchMessage(requestId, batches[k]))]
  {
  }

  lemma {:induction false} WrittenThrough(
    requestId: string, before: Party, batches: seq<seq<JsonValue>>, k: nat, sdk: Party)
    requires Through(requestId, before, batches, 0, sdk) && k <= |batches|
    requires forall i :: 0 <= i < k ==> Sendable(BatchMessage(requestId, batches[i]))
    ensures Through(requestId, before, batches, k, PartyRun(requestId, sdk, WriteAll(k)))
  {
    if k > 0 {
      WrittenThrough(requestId, before, batches, k - 1, sdk);
      var e := PartyRun(requestId, sdk, WriteAll(k - 1));
      ThroughNext(requestId, before, batches, k - 1, e);
      PartyRunAppend(requestId, sdk, WriteAll(k - 1), [WriteBatch, Count]);
      TwoSteps(requestId, e, WriteBatch, Count);
    }
  }

  lemma ManyRecords(requestId: string, wire: seq<string>, records: nat, sdk: Party, all: seq<JsonValue>, k: nat)
    requires Mirrors(requestId, wire, records, sdk) && k == SentBatches(requestId, Batches(all))
    ensures Mirrors(requestId, wire + BatchPayloads(requestId, Batches(all)[..k]),
                    records + TotalLength(Batches(all)[..k]), PartyRun(requestId, sdk, SendMoves(all, k)))
  {
    var batches := Batches(all);
    var called := PartyStep(requestId, sdk, CallSendRecords(all));
    assert batches[0..] == batches && batches[..0] == [];
    assert Texts(requestId, sdk.wire) + [] == Texts(requestId, sdk.wire);
    WrittenThrough(requestId, sdk, batches, k, called);
    PartyRunAppend(requestId, sdk, [CallSendRecords(all)] + WriteAll(k), [GiveUp]);
    PartyRunAppend(requestId, sdk, [CallSendRecords(all)], WriteAll(k));
    OneStep(requestId, sdk, CallSendRecords(all));
    OneStep(requestId, PartyRun(requestId, called, WriteAll(k)), GiveUp);
    PartyRunOk(requestId, sdk, SendMoves(all, k));
  }

  // ---------------------------------------------------------------------
  // Any calls
  // ---------------------------------------------------------------------

  /** Make the calls, whatever becomes of each. The moves returned bring the
      party to where the object is: the same frames, the same count, every
      message legal. */
  method Perform(context: PluginContext, calls: seq<Call>) returns (ghost moves: seq<Action>)
    requires context.wire == [] && context.records == 0
    modifies context
    ensures Mirrors(context.requestId, context.wire, context.records, PartyRun(context.requestId, NOBODY, moves))
  {
    moves := [];
    for i := 0 to |calls|
      invariant Mirrors(context.requestId, context.wire, context.records, PartyRun(context.requestId, NOBODY, moves))
    {
      ghost var more := PerformOne(context, calls[i], PartyRun(context.requestId, NOBODY, moves));
      PartyRunAppend(context.requestId, NOBODY, moves, more);
      moves := moves + more;
    }
  }

  method PerformOne(context: PluginContext, call: Call, ghost sdk: Party) returns (ghost moves: seq<Action>)
    requires Mirrors(context.requestId, context.wire, context.records, sdk)
    modifies context
    ensures Mirrors(context.requestId, context.wire, context.records, PartyRun(context.requestId, sdk, moves))
  {
    match call
    case One(record) => moves := PerformRecord(context, record, sdk);
    case Many(all) => moves := PerformRecords(context, all, sdk);
    case Note(level, text) => moves := PerformLog(context, level, text, sdk);
    case AskFor(ask) => moves := PerformAsk(context, ask, sdk);
  }

  method PerformRecord(context: PluginContext, record: JsonValue, ghost sdk: Party)
    returns (ghost moves: seq<Action>)
    requires Mirrors(context.requestId, context.wire, context.records, sdk)
    modifies context
    ensures Mirrors(context.requestId, context.wire, context.records, PartyRun(context.requestId, sdk, moves))
  {
    ghost var id := context.requestId;
    OneMessage(id, context.wire, context.records, sdk, CallSendRecord(record), OneRecord(record),
               RecordMessage(id, record));
    var ok := context.SendRecord(record);
    moves := [CallSendRecord(record), Count];
  }

  method PerformRecords(context: PluginContext, all: seq<JsonValue>, ghost sdk: Party)
    returns (ghost moves: seq<Action>)
    requires Mirrors(context.requestId, context.wire, context.records, sdk)
    modifies context
    ensures Mirrors(context.requestId, context.wire, context.records, PartyRun(context.requestId, sdk, moves))
  {
    ghost var k := SentBatches(context.requestId, Batches(all));
    ManyRecords(context.requestId, context.wire, context.records, sdk, all, k);
    var ok := context.SendRecords(all);
    moves := SendMoves(all, k);
  }

  method PerformLog(context: PluginContext, level: string, text: string, ghost sdk: Party)
    returns (ghost moves: seq<Action>)
    requires Mirrors(context.requestId, context.wire, context.records, sdk)
    modifies context
    ensures Mirrors(context.requestId, context.wire, context.records, PartyRun(context.requestId, sdk, moves))
  {
    OneMessage(context.requestId, context.wire, context.records, sdk, CallLog(level, text), LogLine(level, text),
               LogMessage(level, text));
    var ok := context.Log(level, text);
    moves := [CallLog(level, text), Count];
  }

  method PerformAsk(context: PluginContext, ask: Ask, ghost sdk: Party) returns (ghost moves: seq<Action>)
    requires Mirrors(context.requestId, context.wire, context.records, sdk)
    modifies context
    ensures Mirrors(context.requestId, context.wire, context.records, PartyRun(context.requestId, sdk, moves))
  {
    var id := context.nextId;
    var number := if ask.HostFetch? then context.nextFetch else context.nextState;
    OneMessage(context.requestId, context.wire, context.records, sdk, CallHost(id, number, ask),
               HostRequest(id, number, ask), AskMessage(id, number, ask));
    var ok := context.WriteRequest(ask);
    moves := [CallHost(id, number, ask), Count];
  }
}
